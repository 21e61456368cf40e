/** Who is handed what over a whole battle: every interleaving of transports, repeats, evictions and departures. */
module BattleDelivery {
  import opened BattleEvents
  import opened BattleRules

  /** A spawn or removal is `observed` when the Host told its peers directly and the server only watched. */
  datatype Event =
    | Dispatched(uid: Uid, message: Message, to: Option<set<Uid>>, now: real)
    | Handled(uid: Uid, message: Message, now: real)
    | Departed(uid: Uid)
    | Lived(uid: Uid, actor: Uid, sequence: int, spawn: bool, allowed: bool, observed: bool)
    | Finished

  /**
   * Members handed one payload by one event. For an event of a cooperative battle's actor `life` is the sequence the
   * actor's present life began with; it is None for everything a member does.
   */
  datatype Batch = Batch(to: set<Uid>, from: Uid, message: Message, life: Option<int>)

  /** The public service, which alone dispatches through the cache, opens no cooperative mode. */
  function Step(c: Catalog, b: Battle, e: Event): Battle {
    match e
    case Dispatched(uid, m, to, now) => if b.Cooperative() then b else Dispatch(c, b, uid, m, to, now)
    case Handled(uid, m, now) => Direct(c, b, uid, m, now)
    case Lived(uid, actor, sequence, spawn, allowed, _) => Relife(b, uid, actor, sequence, spawn, allowed)
    case Departed(uid) => Leave(b, uid)
    case Finished => b.(live := false)
  }

  function Batches(c: Catalog, b: Battle, e: Event): seq<Batch> {
    match e
    case Dispatched(uid, m, to, now) =>
      if b.Cooperative() then [] else ToBatch(Handed(c, b, uid, m, to, now), uid, m, None)
    case Handled(uid, m, now) => ToBatch(Received(c, b, uid, m, now), uid, m, LifeOf(b, m))
    case _ => []
  }

  function LifeOf(b: Battle, m: Message): Option<int> {
    if OfNpc(b, m) && ActorField(m).value in b.npcs.actors
    then Some(b.npcs.actors[ActorField(m).value].sequence) else None
  }

  function ToBatch(out: Outcome, uid: Uid, m: Message, life: Option<int>): seq<Batch> {
    if out.Done? && out.to != {} then [Batch(out.to, uid, m, life)] else []
  }

  /** A battle right after start_match: the elected host fights, and every fighter is a member. */
  ghost predicate Begins(b: Battle) {
    && b == Fresh(b.pair, b.mode, b.owner, b.roster, b.members)
    && b.Fighters() <= b.members && b.owner in b.Fighters()
  }

  function Run(c: Catalog, start: Battle, events: seq<Event>): Battle {
    if events == [] then start else Step(c, Run(c, start, events[..|events| - 1]), events[|events| - 1])
  }

  /** Every batch handed out by a run, in order. */
  function Log(c: Catalog, start: Battle, events: seq<Event>): seq<Batch> {
    if events == [] then []
    else Log(c, start, events[..|events| - 1])
         + Batches(c, Run(c, start, events[..|events| - 1]), events[|events| - 1])
  }

  // ---------------------------------------------------------------- one execution

  /** Outside the two handlers below every passing event is newer than its lane's watermark. */
  lemma PassIsNewer(c: Catalog, b: Battle, uid: Uid, m: Message, now: real)
    requires Judge(c, b, uid, m, now) == Pass && m.Lane() == 19
    ensures m.header.sequence19 > b.Seen(uid, 19) && m.header.sender == uid && m.Generic()
  {
    JudgedNpc(c, b, uid, m, now);
    if OfNpc(b, m) {
      NpcVerdict(b, uid, m);
    }
    hide JudgeObject, RowMatches, RebornCode, HeldBy, Held, HeldByOther, OfNpc, JudgeNpc;
  }

  /** An event of a member is not an actor's, and an actor's only passes from the Host, for a life that goes on. */
  lemma PassedSource(c: Catalog, b: Battle, uid: Uid, m: Message, now: real)
    ensures Judge(c, b, uid, m, now) == Pass ==> b.live && uid in b.members && !OfNpc(b, m)
    ensures Judge(c, b, uid, m, now) == PassNpc ==>
      b.live && uid in b.members && OfNpc(b, m) && JudgeNpc(b, uid, m) == PassNpc
  {
    JudgedNpc(c, b, uid, m, now);
    hide JudgePickup, JudgeReceipt, JudgeTerminal, JudgeReborn, JudgeTransform, JudgeSlip, JudgeOrdinary;
    if OfNpc(b, m) {
      NpcVerdict(b, uid, m);
    } else {
      MemberVerdict(c, b, uid, m, now);
    }
    hide OfNpc, JudgeNpc, Judge;
  }

  lemma MemberVerdict(c: Catalog, b: Battle, uid: Uid, m: Message, now: real)
    requires !OfNpc(b, m)
    ensures Judge(c, b, uid, m, now) != PassNpc
  {
    hide OfNpc, JudgeNpc, JudgePickup, JudgeReceipt, JudgeTerminal,
      JudgeReborn, JudgeTransform, JudgeSlip, JudgeOrdinary;
    match m.body {
      case Malformed =>
      case Unlisted(_) =>
      case Series =>
      case Pickup(_, _, _, _, _, _) => PickupVerdict(b, uid, m);
      case Receipt(_, _, _, _, _) => ReceiptVerdict(c, b, uid, m);
      case Terminal(_, _) => TerminalVerdict(b, uid, m);
      case Countdown(_, _, _) => TerminalVerdict(b, uid, m);
      case Snapshot(_) => RebornVerdict(b, uid, m);
      case Reborn(_, _, _) => RebornVerdict(b, uid, m);
      case Transform(_, _) => TransformVerdict(b, uid, m, now);
      case Slip(_, _, _, _) => SlipVerdict(b, uid, m);
      case _ => OrdinaryVerdict(b, uid, m);
    }
  }

  /** What an execution does to the watermarks, the cache and the roster. */
  lemma AfterFrame(c: Catalog, b: Battle, uid: Uid, m: Message, now: real)
    ensures var x := After(c, b, uid, m, now);
      && x.last == (if Judge(c, b, uid, m, now) == Pass then b.last[(uid, m.Lane()) := m.Sequence()] else b.last)
      && x.cache == b.cache && x.members == b.members && x.roster == b.roster && x.owner == b.owner && x.live == b.live
      && x.mode == b.mode && x.pair == b.pair
      && x.npcs == (if Judge(c, b, uid, m, now) == PassNpc then NpcsAfter(b.npcs, uid, m) else b.npcs)
    ensures Answer(c, b, uid, m, now).Done? && Answer(c, b, uid, m, now).to != {} ==>
      Judge(c, b, uid, m, now) == Pass || Judge(c, b, uid, m, now) == PassNpc
  {
    hide Judge, NpcsAfter, HitsAfter, ExtrasAfter, HoldsAfter, ProjectilesAfter,
      StatesAfter, CollectiblesAfter, MotionAfter;
  }

  lemma ObserveFrame(b: Battle, uid: Uid, m: Message, to: Option<set<Uid>>, now: real)
    ensures Observe(b, uid, m, to, now) == b.(versions := Observe(b, uid, m, to, now).versions,
                                              selections := Observe(b, uid, m, to, now).selections)
  {
  }

  // ---------------------------------------------------------------- the delivery invariant

  predicate Generic19(m: Message) { m.Lane() == 19 }

  /** A generic event of a member. */
  predicate Plain(k: Batch) { k.life.None? && Generic19(k.message) }

  predicate SameEvent(k: Batch, uid: Uid, m: Message) {
    Plain(k) && Generic19(m) && k.from == uid && k.message.header.sequence19 == m.header.sequence19
  }

  /** Nothing handed out or cached is ahead of its sender's watermark. */
  ghost predicate Behind(b: Battle, log: seq<Batch>) {
    && (forall k <- log :: Plain(k) && k.from in b.members ==> k.message.header.sequence19 <= b.Seen(k.from, 19))
    && (forall e <- b.cache :: e.uid in b.members
                           && (Generic19(e.message) ==> e.message.header.sequence19 <= b.Seen(e.uid, 19)))
  }

  /** Two decisions about one payload, or about one generic sequence of one sender. */
  predicate Clash(e: Entry, f: Entry) {
    e.uid == f.uid && (e.message == f.message
                       || (Generic19(e.message) && Generic19(f.message)
                           && e.message.header.sequence19 == f.message.header.sequence19))
  }

  ghost predicate Apart(cache: seq<Entry>) {
    forall i, j :: 0 <= i < j < |cache| ==> !Clash(cache[i], cache[j])
  }

  /** Cached decisions are distinct and remember everybody their event was handed to. */
  ghost predicate Remembered(b: Battle, log: seq<Batch>) {
    && |b.cache| <= CACHE_LIMIT
    && Apart(b.cache)
    && (forall k <- log, e <- b.cache :: SameEvent(k, e.uid, e.message) ==>
          k.message == e.message && k.to <= e.delivered)
    && (forall e <- b.cache :: e.delivered <= e.outputs)
  }

  predicate WasHanded(log: seq<Batch>, uid: Uid, m: Message, r: Uid) {
    exists k <- log :: k.from == uid && k.message == m && k.life.None? && r in k.to
  }

  /** ... and nobody else. */
  ghost predicate Exact(b: Battle, log: seq<Batch>) {
    forall e <- b.cache, r <- e.delivered :: WasHanded(log, e.uid, e.message, r)
  }

  /** No recipient is handed two events of one sender with one generic sequence. */
  ghost predicate Once(log: seq<Batch>) {
    forall i, j :: 0 <= i < j < |log| && Plain(log[j]) && SameEvent(log[i], log[j].from, log[j].message) ==>
      log[i].to !! log[j].to
  }

  ghost predicate Inv(b: Battle, log: seq<Batch>) {
    Behind(b, log) && Remembered(b, log) && Exact(b, log) && Once(log)
  }

  /** Watermarks never fall for those who stay. */
  ghost predicate Advances(b: Battle, x: Battle) {
    x.members <= b.members && forall u <- x.members :: b.Seen(u, 19) <= x.Seen(u, 19)
  }

  lemma KeepCache(b: Battle, x: Battle, log: seq<Batch>)
    requires Inv(b, log) && Advances(b, x) && ((x.cache == b.cache && x.members == b.members) || x.cache == [])
    ensures Inv(x, log)
  {
  }

  /** An execution newer than the watermark that is handed out and not cached. */
  lemma HandFresh(b: Battle, x: Battle, log: seq<Batch>, k: Batch)
    requires Inv(b, log) && Advances(b, x) && x.cache == b.cache && x.members == b.members
    requires k.from in x.members
    requires Plain(k) ==> b.Seen(k.from, 19) < k.message.header.sequence19 <= x.Seen(k.from, 19)
    ensures Inv(x, log + [k])
  {
    var more := log + [k];
    HandFreshOnce(b, log, k);
    assert forall e <- x.cache, r <- e.delivered ::
      WasHanded(log, e.uid, e.message, r) ==> WasHanded(more, e.uid, e.message, r) by {
      forall e, r | e in x.cache && r in e.delivered && WasHanded(log, e.uid, e.message, r)
        ensures WasHanded(more, e.uid, e.message, r)
      {
        var w :| w in log && w.from == e.uid && w.message == e.message && w.life.None? && r in w.to;
        assert w in more;
      }
    }
  }

  lemma InRemember(cache: seq<Entry>, decision: Entry)
    requires |cache| <= CACHE_LIMIT
    ensures |Remember(cache, decision)| <= CACHE_LIMIT
    ensures forall e <- Remember(cache, decision) :: e in cache || (e == decision && decision.outputs != {})
    ensures Apart(cache) && (forall e <- cache :: !Clash(e, decision)) ==> Apart(Remember(cache, decision))
  {
    var full := cache + [decision];
    assert forall i :: 0 <= i < |cache| ==> full[i] == cache[i] && cache[i] in cache;
  }

  lemma LookupMisses(cache: seq<Entry>, uid: Uid, m: Message)
    requires Lookup(cache, uid, m) == |cache|
    ensures forall e <- cache :: e.uid != uid || e.message != m
  {
  }

  /** A batch newer than its sender's watermark shares its event with no earlier batch. */
  lemma HandFreshOnce(b: Battle, log: seq<Batch>, k: Batch)
    requires Inv(b, log) && k.from in b.members
    requires Plain(k) ==> b.Seen(k.from, 19) < k.message.header.sequence19
    ensures Once(log + [k])
  {
    hide Remembered, Exact;
    var more := log + [k];
    forall i, j | 0 <= i < j < |more| && Plain(more[j]) && SameEvent(more[i], more[j].from, more[j].message)
      ensures more[i].to !! more[j].to
    {
      assert more[i] == log[i] && log[i] in log;
    }
  }

  lemma CacheFreshExact(b: Battle, x: Battle, log: seq<Batch>, e: Entry, more: seq<Batch>)
    requires Exact(b, log) && (forall f <- x.cache :: f in b.cache || f == e)
    requires forall w <- log :: w in more
    requires e.delivered != {} ==> Batch(e.delivered, e.uid, e.message, None) in more
    ensures Exact(x, more)
  {
    forall f, r | f in x.cache && r in f.delivered
      ensures WasHanded(more, f.uid, f.message, r)
    {
      if f in b.cache {
        var w :| w in log && w.from == f.uid && w.message == f.message && w.life.None? && r in w.to;
        assert w in more;
      }
    }
  }

  lemma CacheFreshRemembered(b: Battle, x: Battle, log: seq<Batch>, e: Entry, more: seq<Batch>)
    requires Behind(b, log) && Remembered(b, log) && (forall f <- x.cache :: f in b.cache || f == e)
    requires e.uid in b.members && e.delivered <= e.outputs && Apart(x.cache) && |x.cache| <= CACHE_LIMIT
    requires Generic19(e.message) ==> b.Seen(e.uid, 19) < e.message.header.sequence19
    requires forall w <- more :: w in log || w == Batch(e.delivered, e.uid, e.message, None)
    ensures Remembered(x, more)
  {
    forall w, f | w in more && f in x.cache && SameEvent(w, f.uid, f.message)
      ensures w.message == f.message && w.to <= f.delivered
    {
    }
  }

  /** A fresh execution enters the cache, with those it was handed to at once. */
  lemma CacheFresh(b: Battle, x: Battle, log: seq<Batch>, e: Entry)
    requires Inv(b, log) && x.cache == Remember(b.cache, e) && x.members == b.members && e.uid in b.members
    requires Lookup(b.cache, e.uid, e.message) == |b.cache|
    requires e.outputs != {} && Generic19(e.message) ==>
      b.Seen(e.uid, 19) < e.message.header.sequence19 <= x.Seen(e.uid, 19)
    requires Advances(b, x) && e.delivered <= e.outputs
    ensures Inv(x, log + if e.delivered != {} then [Batch(e.delivered, e.uid, e.message, None)] else [])
  {
    LookupMisses(b.cache, e.uid, e.message);
    InRemember(b.cache, e);
    if e.outputs == {} {
      assert log + [] == log;
      KeepCache(b, x, log);
      return;
    }
    assert forall f <- b.cache :: !Clash(f, e);
    var k := Batch(e.delivered, e.uid, e.message, None);
    var more := log + if e.delivered != {} then [k] else [];
    assert forall w <- more :: w in log || (w == k && e.delivered != {});
    assert e.delivered != {} ==> k in more;
    hide Remember, Lookup, Clash;
    HandFreshOnce(b, log, k);
    assert Once(more) by {
      assert log + [] == log;
    }
    CacheFreshExact(b, x, log, e, more);
    CacheFreshRemembered(b, x, log, e, more);
    hide Once, Exact, Remembered;
  }

  /** A cached decision reaches further recipients. */
  lemma HandCached(b: Battle, x: Battle, log: seq<Batch>, i: nat, result: set<Uid>)
    requires Inv(b, log) && i < |b.cache|
    requires result <= b.cache[i].outputs && result !! b.cache[i].delivered
    requires x == b.(cache := b.cache[i := b.cache[i].(delivered := b.cache[i].delivered + result)])
    ensures Inv(x, log + if result != {} then [Batch(result, b.cache[i].uid, b.cache[i].message, None)] else [])
  {
    var k := Batch(result, b.cache[i].uid, b.cache[i].message, None);
    var more := log + if result != {} then [k] else [];
    assert b.cache[i] in b.cache;
    assert forall w <- more :: w in log || w == k;
    assert forall j :: 0 <= j < |x.cache| && j != i ==> x.cache[j] == b.cache[j] && b.cache[j] in b.cache;
    HandCachedOnce(b, log, i, k);
    HandCachedExact(b, x, log, i, k);
    HandCachedRemembered(b, x, log, i, k);
    assert Behind(x, more) by {
      hide Once, Exact, Remembered;
    }
    assert result == {} ==> more == log;
  }

  lemma HandCachedOnce(b: Battle, log: seq<Batch>, i: nat, k: Batch)
    requires Inv(b, log) && i < |b.cache|
    requires k.to !! b.cache[i].delivered && k.from == b.cache[i].uid && k.message == b.cache[i].message && k.life.None?
    ensures Once(log + [k])
  {
    hide Behind, Exact;
    assert b.cache[i] in b.cache;
    var more := log + [k];
    forall p, q | 0 <= p < q < |more| && Plain(more[q]) && SameEvent(more[p], more[q].from, more[q].message)
      ensures more[p].to !! more[q].to
    {
      assert more[p] == log[p] && log[p] in log;
    }
  }

  lemma HandCachedExact(b: Battle, x: Battle, log: seq<Batch>, i: nat, k: Batch)
    requires Inv(b, log) && i < |b.cache|
    requires k.from == b.cache[i].uid && k.message == b.cache[i].message && k.life.None?
    requires x.cache == b.cache[i := b.cache[i].(delivered := b.cache[i].delivered + k.to)]
    ensures Exact(x, log + [k]) && (k.to == {} ==> Exact(x, log))
  {
    hide Behind, Remembered, Once;
    var more := log + [k];
    assert k in more;
    forall f, r | f in x.cache && r in f.delivered
      ensures WasHanded(more, f.uid, f.message, r) && (k.to == {} ==> WasHanded(log, f.uid, f.message, r))
    {
      var j :| 0 <= j < |x.cache| && x.cache[j] == f;
      assert b.cache[j] in b.cache;
      if j != i || r !in k.to {
        assert r in b.cache[j].delivered;
        var w :| w in log && w.from == f.uid && w.message == f.message && w.life.None? && r in w.to;
        assert w in more;
      }
    }
  }

  /** Which decision a cached entry stands for is not changed by further deliveries. */
  lemma CachedApart(cache: seq<Entry>, i: nat, delivered: set<Uid>)
    requires i < |cache| && Apart(cache)
    ensures Apart(cache[i := cache[i].(delivered := delivered)])
  {
    var x := cache[i := cache[i].(delivered := delivered)];
    forall p, q | 0 <= p < q < |x|
      ensures !Clash(x[p], x[q])
    {
      assert !Clash(cache[p], cache[q]);
    }
  }

  lemma OtherDecision(cache: seq<Entry>, i: nat, j: nat)
    requires i < |cache| && j < |cache| && Apart(cache) && i != j
    ensures !Clash(cache[i], cache[j])
  {
    if i < j {
      assert !Clash(cache[i], cache[j]);
    } else {
      assert !Clash(cache[j], cache[i]);
    }
  }

  lemma HandCachedRemembered(b: Battle, x: Battle, log: seq<Batch>, i: nat, k: Batch)
    requires Inv(b, log) && i < |b.cache|
    requires k.to <= b.cache[i].outputs && k.from == b.cache[i].uid && k.message == b.cache[i].message && k.life.None?
    requires x.cache == b.cache[i := b.cache[i].(delivered := b.cache[i].delivered + k.to)]
    ensures Remembered(x, log + [k]) && Remembered(x, log)
  {
    hide Behind, Exact, Once, Apart;
    var more := log + [k];
    CachedApart(b.cache, i, b.cache[i].delivered + k.to);
    forall w, f | w in more && f in x.cache && SameEvent(w, f.uid, f.message)
      ensures w.message == f.message && w.to <= f.delivered
    {
      var j :| 0 <= j < |x.cache| && x.cache[j] == f;
      assert b.cache[j] in b.cache;
      if w !in log && i != j {
        OtherDecision(b.cache, i, j);
      }
    }
    forall f | f in x.cache
      ensures f.delivered <= f.outputs
    {
      var j :| 0 <= j < |x.cache| && x.cache[j] == f;
      assert b.cache[j] in b.cache;
    }
  }

  // ---------------------------------------------------------------- every run

  ghost predicate Seated(b: Battle) {
    b.live ==> b.Fighters() <= b.members && b.owner in b.Fighters()
  }

  lemma FreshKeeps(c: Catalog, b: Battle, uid: Uid, m: Message, to: Option<set<Uid>>, now: real, log: seq<Batch>)
    requires Inv(b, log) && Seated(b) && !b.Cooperative()
    requires Eligible(b, uid, m) && Targets(b, to) <= b.Fighters() && Lookup(b.cache, uid, m) == |b.cache|
    ensures Inv(Relayed(c, b, uid, m, to, now), log + ToBatch(Handed(c, b, uid, m, to, now), uid, m, None))
    ensures Seated(Relayed(c, b, uid, m, to, now))
  {
    RelayFresh(c, b, uid, m, to, now);
    AfterFrame(c, b, uid, m, now);
    PassedSource(c, b, uid, m, now);
    if Judge(c, b, uid, m, now) == Pass && Generic19(m) {
      PassIsNewer(c, b, uid, m, now);
    }
    hide Judge, Deliverable, Inv, Relayed, Handed, After, Answer, Remember;
    var x := Relayed(c, b, uid, m, to, now);
    assert log + [] == log;
    if Answer(c, b, uid, m, now).Done? {
      var outputs := Answer(c, b, uid, m, now).to;
      assert Advances(b, x);
      CacheFresh(b, x, log, Entry(uid, m, outputs, outputs * Targets(b, to)));
    }
  }

  lemma DispatchKeeps(c: Catalog, b: Battle, uid: Uid, m: Message, to: Option<set<Uid>>, now: real, log: seq<Batch>)
    requires Inv(b, log) && Seated(b) && !b.Cooperative()
    ensures Inv(Relayed(c, b, uid, m, to, now), log + ToBatch(Handed(c, b, uid, m, to, now), uid, m, None))
    ensures Seated(Relayed(c, b, uid, m, to, now))
  {
    assert log + [] == log;
    hide Judge, Deliverable, Inv, Relayed, Handed, After, Answer, Remember;
    if !Eligible(b, uid, m) || (Executes(b, uid, m) && !(Targets(b, to) <= b.Fighters())) {
      RelayRefused(c, b, uid, m, to, now);
    } else if !Executes(b, uid, m) {
      RelayStale(c, b, uid, m, to, now);
    } else if Lookup(b.cache, uid, m) < |b.cache| {
      RelayCachedEntry(c, b, uid, m, to, now);
      var i := Lookup(b.cache, uid, m);
      HandCached(b, Relayed(c, b, uid, m, to, now), log, i, b.cache[i].outputs * Targets(b, to) - b.cache[i].delivered);
    } else {
      FreshKeeps(c, b, uid, m, to, now, log);
    }
  }

  lemma DirectKeeps(c: Catalog, b: Battle, uid: Uid, m: Message, now: real, log: seq<Batch>)
    requires Inv(b, log) && Seated(b)
    ensures Inv(Direct(c, b, uid, m, now), log + ToBatch(Received(c, b, uid, m, now), uid, m, LifeOf(b, m)))
    ensures Seated(Direct(c, b, uid, m, now))
  {
    assert log + [] == log;
    if uid !in b.Fighters() {
      return;
    }
    PassedSource(c, b, uid, m, now);
    var v := Judge(c, b, uid, m, now);
    if v == Pass {
      PassKeeps(c, b, uid, m, now, log);
      hide *;
    } else if v == PassNpc {
      NpcKeeps(c, b, uid, m, now, log);
      hide *;
    } else {
      AfterFrame(c, b, uid, m, now);
      hide Judge, Inv, After, Observe, Recipients;
      KeepCache(b, Direct(c, b, uid, m, now), log);
    }
  }

  lemma PassKeeps(c: Catalog, b: Battle, uid: Uid, m: Message, now: real, log: seq<Batch>)
    requires Inv(b, log) && Seated(b) && uid in b.Fighters() && Judge(c, b, uid, m, now) == Pass
    requires b.live && uid in b.members && !OfNpc(b, m)
    ensures Inv(Direct(c, b, uid, m, now), log + ToBatch(Received(c, b, uid, m, now), uid, m, LifeOf(b, m)))
    ensures Seated(Direct(c, b, uid, m, now))
  {
    assert log + [] == log;
    var x := Direct(c, b, uid, m, now);
    AfterFrame(c, b, uid, m, now);
    ObserveFrame(After(c, b, uid, m, now), uid, m, None, now);
    assert LifeOf(b, m) == None;
    if Generic19(m) {
      PassIsNewer(c, b, uid, m, now);
    }
    hide Judge, Inv, After, Observe, Recipients, OfNpc;
    assert Advances(b, x);
    if Recipients(b, uid, m) != {} {
      HandFresh(b, x, log, Batch(Recipients(b, uid, m), uid, m, None));
    } else {
      KeepCache(b, x, log);
    }
  }

  lemma NpcKeeps(c: Catalog, b: Battle, uid: Uid, m: Message, now: real, log: seq<Batch>)
    requires Inv(b, log) && Seated(b) && uid in b.Fighters() && Judge(c, b, uid, m, now) == PassNpc
    requires b.live && uid in b.members && OfNpc(b, m) && JudgeNpc(b, uid, m) == PassNpc
    ensures Inv(Direct(c, b, uid, m, now), log + ToBatch(Received(c, b, uid, m, now), uid, m, LifeOf(b, m)))
    ensures Seated(Direct(c, b, uid, m, now))
  {
    assert log + [] == log;
    var x := Direct(c, b, uid, m, now);
    AfterFrame(c, b, uid, m, now);
    assert LifeOf(b, m).Some?;
    hide Judge, JudgeNpc, Inv, After, Observe, OfNpc, NpcsAfter;
    if b.Others(uid) != {} {
      HandFresh(b, x, log, Batch(b.Others(uid), uid, m, LifeOf(b, m)));
    } else {
      KeepCache(b, x, log);
    }
  }

  lemma DispatchStepKeeps(c: Catalog, b: Battle, uid: Uid, m: Message, to: Option<set<Uid>>, now: real, log: seq<Batch>)
    requires Inv(b, log) && Seated(b) && !b.Cooperative()
    ensures Inv(Dispatch(c, b, uid, m, to, now), log + ToBatch(Handed(c, b, uid, m, to, now), uid, m, None))
    ensures Seated(Dispatch(c, b, uid, m, to, now))
  {
    hide Relayed, Handed, Inv, Observe, Executes, ToBatch;
    DispatchKeeps(c, b, uid, m, to, now, log);
    var x := Relayed(c, b, uid, m, to, now);
    if Handed(c, b, uid, m, to, now).Done? {
      var reached := Some(Handed(c, b, uid, m, to, now).to);
      ObserveFrame(x, uid, m, reached, now);
      KeepCache(x, Observe(x, uid, m, reached, now), log + ToBatch(Handed(c, b, uid, m, to, now), uid, m, None));
    }
  }

  lemma LeaveAdvances(b: Battle, uid: Uid)
    requires Seated(b)
    ensures Advances(b, Leave(b, uid)) && Seated(Leave(b, uid))
    ensures (Leave(b, uid).cache == b.cache && Leave(b, uid).members == b.members) || Leave(b, uid).cache == []
  {
    UnseatFields(b, uid);
    hide Unseat;
    if b.live && uid in b.members && uid !in b.Fighters() {
      ForgetKeepsOthers(b, uid);
    }
  }

  lemma ForgetKeepsOthers(b: Battle, uid: Uid)
    ensures forall u: Uid, lane: int :: u != uid ==>
      ((u, lane) in Forget(b.last, uid) <==> (u, lane) in b.last)
      && ((u, lane) in b.last ==> Forget(b.last, uid)[(u, lane)] == b.last[(u, lane)])
  {
  }

  lemma RelifeFrame(b: Battle, uid: Uid, actor: Uid, sequence: int, spawn: bool, allowed: bool)
    ensures var x := Relife(b, uid, actor, sequence, spawn, allowed); x == b.(npcs := x.npcs)
  {
    hide LifeChanges;
  }

  lemma LifeKeeps(b: Battle, uid: Uid, actor: Uid, sequence: int, spawn: bool, allowed: bool, log: seq<Batch>)
    requires Inv(b, log) && Seated(b)
    ensures var x := Relife(b, uid, actor, sequence, spawn, allowed); Inv(x, log) && Seated(x)
  {
    hide Inv, LifeChanges;
    RelifeFrame(b, uid, actor, sequence, spawn, allowed);
    hide Relife;
    KeepCache(b, Relife(b, uid, actor, sequence, spawn, allowed), log);
  }

  lemma DepartKeeps(b: Battle, uid: Uid, log: seq<Batch>)
    requires Inv(b, log) && Seated(b)
    ensures Inv(Leave(b, uid), log) && Seated(Leave(b, uid))
  {
    LeaveAdvances(b, uid);
    hide Inv, Leave;
    KeepCache(b, Leave(b, uid), log);
  }

  lemma StepKeeps(c: Catalog, b: Battle, e: Event, log: seq<Batch>)
    requires Inv(b, log) && Seated(b)
    ensures Inv(Step(c, b, e), log + Batches(c, b, e)) && Seated(Step(c, b, e))
  {
    assert log + [] == log;
    hide Inv, Dispatch, Direct, Leave, Relife, ToBatch, Received, Handed, LifeOf;
    match e {
      case Dispatched(uid, m, to, now) =>
        if !b.Cooperative() {
          DispatchStepKeeps(c, b, uid, m, to, now, log);
        }
      case Handled(uid, m, now) => DirectKeeps(c, b, uid, m, now, log);
      case Departed(uid) => DepartKeeps(b, uid, log);
      case Lived(uid, actor, sequence, spawn, allowed, _) => LifeKeeps(b, uid, actor, sequence, spawn, allowed, log);
      case Finished => KeepCache(b, b.(live := false), log);
    }
  }

  lemma {:induction false} RunKeeps(c: Catalog, start: Battle, events: seq<Event>)
    requires Begins(start)
    ensures Inv(Run(c, start, events), Log(c, start, events)) && Seated(Run(c, start, events))
  {
    if events != [] {
      var before := events[..|events| - 1];
      RunKeeps(c, start, before);
      StepKeeps(c, Run(c, start, before), events[|events| - 1], Log(c, start, before));
    }
  }

  predicate SameSetting(x: Battle, b: Battle) { x.mode == b.mode && x.owner == b.owner && x.roster == b.roster }

  lemma RelayedSetting(c: Catalog, b: Battle, uid: Uid, m: Message, to: Option<set<Uid>>, now: real)
    ensures SameSetting(Relayed(c, b, uid, m, to, now), b)
  {
    hide Judge, Deliverable, Relayed, Handed, After, Answer, Remember, Lookup, Targets;
    if !Eligible(b, uid, m) || (Executes(b, uid, m) && !(Targets(b, to) <= b.Fighters())) {
      RelayRefused(c, b, uid, m, to, now);
    } else if !Executes(b, uid, m) {
      RelayStale(c, b, uid, m, to, now);
    } else if Lookup(b.cache, uid, m) < |b.cache| {
      RelayCachedEntry(c, b, uid, m, to, now);
    } else {
      RelayFresh(c, b, uid, m, to, now);
      AfterFrame(c, b, uid, m, now);
    }
  }

  lemma DispatchSetting(c: Catalog, b: Battle, uid: Uid, m: Message, to: Option<set<Uid>>, now: real)
    ensures SameSetting(Dispatch(c, b, uid, m, to, now), b)
  {
    hide Relayed, Handed, Executes, Observe;
    RelayedSetting(c, b, uid, m, to, now);
    var answer := Handed(c, b, uid, m, to, now);
    if answer.Done? {
      ObserveFrame(Relayed(c, b, uid, m, to, now), uid, m, Some(answer.to), now);
    }
  }

  lemma DirectSetting(c: Catalog, b: Battle, uid: Uid, m: Message, now: real)
    ensures SameSetting(Direct(c, b, uid, m, now), b)
  {
    hide After, Judge, Observe;
    AfterFrame(c, b, uid, m, now);
    ObserveFrame(After(c, b, uid, m, now), uid, m, None, now);
  }

  lemma LeaveSetting(b: Battle, uid: Uid)
    ensures SameSetting(Leave(b, uid), b)
  {
    hide Unseat, Battle.Fighters, SameSetting;
    UnseatFields(b, uid);
    SettingOf(b, b);
    SettingOf(b.(live := false), b);
    SettingOf(Unseat(b, uid), b);
  }

  lemma SettingOf(x: Battle, b: Battle)
    requires x.mode == b.mode && x.owner == b.owner && x.roster == b.roster
    ensures SameSetting(x, b)
  {
  }

  /** The mode, the Host and the roster are fixed for the battle. */
  lemma StepSetting(c: Catalog, b: Battle, e: Event)
    ensures SameSetting(Step(c, b, e), b)
  {
    hide Battle.Fighters, SameSetting, Dispatch, Direct, Leave, Relife;
    SettingOf(b, b);
    match e {
      case Dispatched(uid, m, to, now) => DispatchSetting(c, b, uid, m, to, now);
      case Handled(uid, m, now) => DirectSetting(c, b, uid, m, now);
      case Departed(uid) => LeaveSetting(b, uid);
      case Lived(uid, actor, sequence, spawn, allowed, _) =>
        RelifeFrame(b, uid, actor, sequence, spawn, allowed);
        SettingOf(Relife(b, uid, actor, sequence, spawn, allowed), b);
      case Finished => SettingOf(b.(live := false), b);
    }
  }

  /** Only cooperative battles have actors. */
  lemma MembersOnly(c: Catalog, b: Battle, e: Event)
    requires !b.Cooperative()
    ensures forall k <- Batches(c, b, e) :: k.life.None?
  {
    hide Handed, Received;
  }

  lemma {:induction false} RunSetting(c: Catalog, start: Battle, events: seq<Event>)
    ensures SameSetting(Run(c, start, events), start)
    ensures !start.Cooperative() ==> forall k <- Log(c, start, events) :: k.life.None?
  {
    if events != [] {
      RunSetting(c, start, events[..|events| - 1]);
      var b, e := Run(c, start, events[..|events| - 1]), events[|events| - 1];
      StepSetting(c, b, e);
      if !b.Cooperative() {
        MembersOnly(c, b, e);
      }
      hide Step, Batches;
    }
  }

  /**
   * At most once: over a whole battle no recipient is handed two events of one sender with one generic sequence.
   * In a cooperative mode this is about what members do; its actors have filters of their own.
   */
  lemma AtMostOnce(c: Catalog, start: Battle, events: seq<Event>, i: nat, j: nat, r: Uid)
    requires Begins(start) && i < j < |Log(c, start, events)|
    requires var k, l := Log(c, start, events)[i], Log(c, start, events)[j];
      && k.from == l.from && k.message.Lane() == 19 && l.message.Lane() == 19
      && k.message.header.sequence19 == l.message.header.sequence19
      && (start.Cooperative() ==> k.life.None? && l.life.None?)
    ensures !(r in Log(c, start, events)[i].to && r in Log(c, start, events)[j].to)
  {
    RunKeeps(c, start, events);
    RunSetting(c, start, events);
  }

  /** The decision cache never exceeds its limit and never holds two decisions for one payload. */
  lemma CacheBounded(c: Catalog, start: Battle, events: seq<Event>)
    requires Begins(start)
    ensures |Run(c, start, events).cache| <= CACHE_LIMIT && Apart(Run(c, start, events).cache)
  {
    RunKeeps(c, start, events);
  }

  /**
   * A repeat of a cached generic event that passes the gate reaches exactly the recipients of the original
   * decision it is aimed at and that no earlier event of the battle handed it to; behind the gate, nobody.
   */
  lemma RepeatReachesTheUnserved(c: Catalog, start: Battle, events: seq<Event>, uid: Uid, m: Message,
                                 to: Option<set<Uid>>, now: real)
    requires Begins(start) && m.Lane() == 19
    requires var b := Run(c, start, events);
      Eligible(b, uid, m) && Targets(b, to) <= b.Fighters() && Lookup(b.cache, uid, m) < |b.cache|
    ensures var b := Run(c, start, events);
      var outputs := b.cache[Lookup(b.cache, uid, m)].outputs;
      Handed(c, b, uid, m, to, now) ==
        if Deliverable(b, uid, m)
        then Done(set r | r in outputs && r in Targets(b, to) && !WasHanded(Log(c, start, events), uid, m, r))
        else Done({})
  {
    RunKeeps(c, start, events);
    var b, log := Run(c, start, events), Log(c, start, events);
    var i := Lookup(b.cache, uid, m);
    var e := b.cache[i];
    assert e in b.cache;
    hide Deliverable, Lookup, Inv;
    if Deliverable(b, uid, m) {
      RelayCachedEntry(c, b, uid, m, to, now);
      assert forall r :: r in e.delivered <==> WasHanded(log, uid, m, r) by {
        DeliveredIsHanded(b, log, e);
      }
    } else {
      RelayStale(c, b, uid, m, to, now);
    }
  }

  lemma DeliveredIsHanded(b: Battle, log: seq<Batch>, e: Entry)
    requires Inv(b, log) && e in b.cache && Generic19(e.message)
    ensures forall r :: r in e.delivered <==> WasHanded(log, e.uid, e.message, r)
  {
  }

  /** A refused call leaves the battle as it was. */
  lemma RefusalChangesNothing(c: Catalog, b: Battle, uid: Uid, m: Message, to: Option<set<Uid>>, now: real)
    requires Handed(c, b, uid, m, to, now) == Rejected
    ensures Dispatch(c, b, uid, m, to, now) == b
  {
    hide Judge, Deliverable, Commit;
  }

  /**
   * Whether one event is brought by either transport, or repeated, it is executed at most once: a repeat changes the
   * record of whom it was delivered to, and nothing else unless it is a selection.
   */
  lemma RepeatExecutesNothing(c: Catalog, b: Battle, uid: Uid, m: Message, to: Option<set<Uid>>, now: real)
    requires Lookup(b.cache, uid, m) < |b.cache|
    ensures var x := Dispatch(c, b, uid, m, to, now);
      && x == b.(cache := x.cache, versions := x.versions, selections := x.selections)
      && (!m.body.Select? ==> x == b.(cache := x.cache))
  {
    RepeatRelays(c, b, uid, m, to, now);
    hide Relayed, Handed, Observe, Executes, Lookup;
    var answer, y := Handed(c, b, uid, m, to, now), Relayed(c, b, uid, m, to, now);
    if answer.Done? {
      ObserveFrame(y, uid, m, Some(answer.to), now);
    }
  }

  lemma RepeatRelays(c: Catalog, b: Battle, uid: Uid, m: Message, to: Option<set<Uid>>, now: real)
    requires Lookup(b.cache, uid, m) < |b.cache|
    ensures Relayed(c, b, uid, m, to, now) == b.(cache := Relayed(c, b, uid, m, to, now).cache)
  {
    hide Deliverable, Lookup, Handed, Remember, After, Answer, Eligible, Targets;
  }

  /** A repeated selection at most renews or drops the sender's own lease, on the target this call was handed to. */
  lemma RepeatedSelection(c: Catalog, b: Battle, uid: Uid, m: Message, to: Option<set<Uid>>, now: real)
    requires Lookup(b.cache, uid, m) < |b.cache| && m.body.Select?
    ensures var x := Dispatch(c, b, uid, m, to, now).selections;
      && x - {uid} == b.selections - {uid}
      && (x != b.selections ==> !(uid in b.versions && m.header.sequence19 <= b.versions[uid]))
      && (x != b.selections && uid in x ==>
            && x[uid] == Lease(m.body.target, now + 15.0) && m.body.timeout == SELECTION_TIMEOUT
            && Handed(c, b, uid, m, to, now).Done? && m.body.target in Handed(c, b, uid, m, to, now).to)
  {
    RepeatRelays(c, b, uid, m, to, now);
    hide Relayed, Handed, Executes, Lookup;
    var answer, y := Handed(c, b, uid, m, to, now), Relayed(c, b, uid, m, to, now);
    if answer.Done? {
      ObservedLease(y, uid, m, answer.to, now);
    }
    hide Observe;
  }

  lemma ObservedLease(b: Battle, uid: Uid, m: Message, to: set<Uid>, now: real)
    requires m.body.Select?
    ensures var x := Observe(b, uid, m, Some(to), now).selections;
      && x - {uid} == b.selections - {uid}
      && (x != b.selections ==> !(uid in b.versions && m.header.sequence19 <= b.versions[uid]))
      && (x != b.selections && uid in x ==>
            x[uid] == Lease(m.body.target, now + 15.0) && m.body.timeout == SELECTION_TIMEOUT && m.body.target in to)
  {
  }
}
