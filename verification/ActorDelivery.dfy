/** What recipients are handed about the actors of a cooperative battle, which have sequence filters of their own. */
module ActorDelivery {
  import opened BattleEvents
  import opened BattleRules
  import opened BattleDelivery

  // ---------------------------------------------------------------- what an actor's event has to meet

  /** The part of the guards that a payload keeps meeting in one battle, once it met them. */
  predicate Fits(b: Battle, uid: Uid, m: Message) {
    && uid == b.owner && m.header.sender == uid && ActorField(m).Some? && !m.body.Motion? && m.Generic()
    && (PairOf(m.body).Some? ==> PairOf(m.body).value == b.pair)
    && (m.body.Owned? && m.body.id == 8122 ==> m.body.operation <= 7)
    && (m.body.State? ==> m.body.op != OtherOperation && m.body.code <= 255)
  }

  predicate SourceKnown(b: Battle, m: Message) {
    m.body.Hit? || m.body.State? ==> KnownSource(b, m.body.source)
  }

  /** An event of an actor passes exactly when it fits, its actor lives, and it is newer than the actor's threshold. */
  lemma PassesIff(b: Battle, uid: Uid, m: Message)
    requires OfNpc(b, m) && !m.body.Motion?
    ensures JudgeNpc(b, uid, m) == PassNpc <==>
      && Fits(b, uid, m) && b.npcs.Active(ActorField(m).value) && SourceKnown(b, m)
      && m.header.sequence19 > b.npcs.Threshold(uid, ActorField(m).value)
  {
    hide KnownSource;
  }

  // ---------------------------------------------------------------- the invariant

  predicate ActorEvent(k: Batch) { k.life.Some? && Generic19(k.message) && ActorField(k.message).Some? }

  /** Nothing of an actor's present life is ahead of its filter; in the foster mode nothing of any life is. */
  ghost predicate Counted(b: Battle, k: Batch)
    requires k.life.Some?
  {
    && ActorField(k.message).Some? && Fits(b, k.from, k.message)
    && var actor, sequence := ActorField(k.message).value, k.message.header.sequence19;
       && actor in b.npcs.actors && k.life.value <= b.npcs.actors[actor].sequence
       && (k.life.value == b.npcs.actors[actor].sequence ==> sequence <= b.npcs.Version(k.from, actor))
       && (b.mode == FOSTER ==> sequence <= b.npcs.Threshold(k.from, actor))
  }

  predicate SameActorEvent(k: Batch, l: Batch) {
    && ActorEvent(k) && ActorEvent(l) && k.from == l.from && ActorField(k.message) == ActorField(l.message)
    && k.message.header.sequence19 == l.message.header.sequence19
  }

  /** The only way to hand one event of an actor out twice: a later life that began before the event's sequence. */
  predicate Reborn(mode: int, k: Batch, l: Batch)
    requires k.life.Some? && l.life.Some?
  {
    mode == ASSAULT && k.life.value < l.life.value < l.message.header.sequence19
  }

  ghost predicate ActorsOnce(mode: int, log: seq<Batch>) {
    forall i, j :: 0 <= i < j < |log| && SameActorEvent(log[i], log[j]) ==> Reborn(mode, log[i], log[j])
  }

  ghost predicate Inv(b: Battle, log: seq<Batch>) {
    (forall k <- log :: k.life.Some? && Generic19(k.message) ==> Counted(b, k)) && ActorsOnce(b.mode, log)
  }

  lemma SameNpcs(b: Battle, x: Battle, log: seq<Batch>)
    requires Inv(b, log) && SameSetting(x, b) && x.npcs == b.npcs && x.pair == b.pair
    ensures Inv(x, log)
  {
    assert forall k <- log :: k.life.Some? && Generic19(k.message) ==> Counted(b, k) && Counted(x, k);
  }

  /** A batch that is not about an actor's generic event adds nothing. */
  lemma OtherBatch(b: Battle, log: seq<Batch>, k: Batch)
    requires Inv(b, log) && !(k.life.Some? && Generic19(k.message))
    ensures Inv(b, log + [k])
  {
    var more := log + [k];
    forall i, j | 0 <= i < j < |more| && SameActorEvent(more[i], more[j])
      ensures Reborn(b.mode, more[i], more[j])
    {
      assert more[i] == log[i] && more[j] == log[j];
    }
  }

  /** An event newer than its actor's threshold repeats an earlier one only in a later life that began before it. */
  lemma NewerActor(b: Battle, log: seq<Batch>, k: Batch)
    requires Inv(b, log) && b.Cooperative() && ActorEvent(k)
    requires var actor := ActorField(k.message).value;
      && actor in b.npcs.actors && k.life == Some(b.npcs.actors[actor].sequence)
      && k.message.header.sequence19 > b.npcs.Threshold(k.from, actor)
    ensures ActorsOnce(b.mode, log + [k])
  {
    var more := log + [k];
    forall i, j | 0 <= i < j < |more| && SameActorEvent(more[i], more[j])
      ensures Reborn(b.mode, more[i], more[j])
    {
      assert more[i] == log[i] && log[i] in log && Counted(b, log[i]);
    }
  }

  lemma NpcCounts(b: Battle, x: Battle, log: seq<Batch>, k: Batch)
    requires Inv(b, log) && ActorEvent(k) && Fits(b, k.from, k.message) && SameSetting(x, b) && x.pair == b.pair
    requires var actor := ActorField(k.message).value;
      && actor in b.npcs.actors && k.life == Some(b.npcs.actors[actor].sequence)
      && k.message.header.sequence19 > b.npcs.Threshold(k.from, actor)
      && x.npcs == b.npcs.(versions := b.npcs.versions[(k.from, actor) := k.message.header.sequence19])
    ensures forall l <- log + [k] :: l.life.Some? && Generic19(l.message) ==> Counted(x, l)
  {
    forall l | l in log + [k] && l.life.Some? && Generic19(l.message)
      ensures Counted(x, l)
    {
      if l in log {
        assert Counted(b, l);
      }
    }
  }

  // ---------------------------------------------------------------- every step

  lemma NpcStep(c: Catalog, b: Battle, uid: Uid, m: Message, now: real, log: seq<Batch>)
    requires Inv(b, log) && uid in b.Fighters() && Judge(c, b, uid, m, now) == PassNpc
    requires OfNpc(b, m) && JudgeNpc(b, uid, m) == PassNpc
    ensures Inv(Direct(c, b, uid, m, now), log + ToBatch(Received(c, b, uid, m, now), uid, m, LifeOf(b, m)))
  {
    assert log + [] == log;
    var x, k := Direct(c, b, uid, m, now), Batch(b.Others(uid), uid, m, LifeOf(b, m));
    AfterSetting(c, b, uid, m, now);
    AfterFrame(c, b, uid, m, now);
    if m.body.Motion? {
      MotionLane(b, uid, m);
      hide Judge, JudgeNpc, OfNpc, After, Inv, Generic19;
      OtherBatch(b, log, k);
      MotionCounts(b, x, log, uid, m);
      MotionCounts(b, x, log + [k], uid, m);
    } else {
      PassesIff(b, uid, m);
      assert ActorEvent(k) by {
        assert m.Lane() == 19;
      }
      hide Judge, JudgeNpc, OfNpc, After, SourceKnown;
      NewerActor(b, log, k);
      NpcCounts(b, x, log, k);
      SubLog(x, log, k);
    }
  }

  lemma SubLog(x: Battle, log: seq<Batch>, k: Batch)
    requires Inv(x, log + [k])
    ensures Inv(x, log)
  {
    var more := log + [k];
    forall i, j | 0 <= i < j < |log| && SameActorEvent(log[i], log[j])
      ensures Reborn(x.mode, log[i], log[j])
    {
      assert more[i] == log[i] && more[j] == log[j];
    }
    assert forall l <- log :: l in more;
  }

  lemma MotionLane(b: Battle, uid: Uid, m: Message)
    requires OfNpc(b, m) && JudgeNpc(b, uid, m) == PassNpc && m.body.Motion?
    ensures !Generic19(m)
  {
  }

  lemma MotionCounts(b: Battle, x: Battle, log: seq<Batch>, uid: Uid, m: Message)
    requires Inv(b, log) && SameSetting(x, b) && x.pair == b.pair && m.body.Motion?
    requires x.npcs == NpcsAfter(b.npcs, uid, m)
    ensures Inv(x, log)
  {
    forall k | k in log && k.life.Some? && Generic19(k.message)
      ensures Counted(x, k)
    {
      assert Counted(b, k);
    }
  }

  lemma AfterSetting(c: Catalog, b: Battle, uid: Uid, m: Message, now: real)
    ensures SameSetting(After(c, b, uid, m, now), b) && After(c, b, uid, m, now).pair == b.pair
  {
    AfterFrame(c, b, uid, m, now);
    hide After, Judge;
  }

  lemma HandledStep(c: Catalog, b: Battle, uid: Uid, m: Message, now: real, log: seq<Batch>)
    requires Inv(b, log)
    ensures Inv(Direct(c, b, uid, m, now), log + ToBatch(Received(c, b, uid, m, now), uid, m, LifeOf(b, m)))
  {
    assert log + [] == log;
    if uid !in b.Fighters() {
      return;
    }
    PassedSource(c, b, uid, m, now);
    if Judge(c, b, uid, m, now) == PassNpc {
      NpcStep(c, b, uid, m, now, log);
      hide *;
    } else {
      var x := Direct(c, b, uid, m, now);
      AfterSetting(c, b, uid, m, now);
      AfterFrame(c, b, uid, m, now);
      ObserveFrame(After(c, b, uid, m, now), uid, m, None, now);
      hide Judge, After, Observe, Inv, Recipients, OfNpc;
      SameNpcs(b, x, log);
      if Judge(c, b, uid, m, now) == Pass {
        OtherBatch(x, log, Batch(Recipients(b, uid, m), uid, m, LifeOf(b, m)));
      }
    }
  }

  lemma LifeStep(b: Battle, uid: Uid, actor: Uid, sequence: int, spawn: bool, allowed: bool, log: seq<Batch>)
    requires Inv(b, log)
    ensures Inv(Relife(b, uid, actor, sequence, spawn, allowed), log)
  {
    var x := Relife(b, uid, actor, sequence, spawn, allowed);
    RelifeFrame(b, uid, actor, sequence, spawn, allowed);
    if LifeChanges(b, uid, actor, sequence, spawn, allowed) {
      forall k | k in log && k.life.Some? && Generic19(k.message)
        ensures Counted(x, k)
      {
        assert Counted(b, k);
        NewLife(b, uid, actor, sequence, spawn, allowed, k);
      }
    }
  }

  lemma NewLife(b: Battle, uid: Uid, actor: Uid, sequence: int, spawn: bool, allowed: bool, k: Batch)
    requires LifeChanges(b, uid, actor, sequence, spawn, allowed) && k.life.Some? && Counted(b, k)
    ensures Counted(Relife(b, uid, actor, sequence, spawn, allowed), k)
  {
    var x := Relife(b, uid, actor, sequence, spawn, allowed);
    assert k.from == uid;
    if ActorField(k.message).value != actor {
      assert x.npcs.Version(uid, ActorField(k.message).value) == b.npcs.Version(uid, ActorField(k.message).value);
    }
  }

  lemma LeaveNpcs(b: Battle, uid: Uid)
    ensures Leave(b, uid).npcs == b.npcs && Leave(b, uid).pair == b.pair
  {
    UnseatFields(b, uid);
    hide Unseat;
  }

  lemma StepKeeps(c: Catalog, b: Battle, e: Event, log: seq<Batch>)
    requires Inv(b, log) && b.Cooperative()
    ensures Inv(Step(c, b, e), log + Batches(c, b, e))
  {
    assert log + [] == log;
    hide Inv, Dispatch, Direct, Leave, Relife, ToBatch, Received, Handed, LifeOf;
    match e {
      case Dispatched(_, _, _, _) =>
      case Handled(uid, m, now) => HandledStep(c, b, uid, m, now, log);
      case Departed(uid) =>
        LeaveSetting(b, uid);
        LeaveNpcs(b, uid);
        SameNpcs(b, Leave(b, uid), log);
      case Lived(uid, actor, sequence, spawn, allowed, _) => LifeStep(b, uid, actor, sequence, spawn, allowed, log);
      case Finished => SameNpcs(b, b.(live := false), log);
    }
  }

  lemma {:induction false} RunKeeps(c: Catalog, start: Battle, events: seq<Event>)
    requires Begins(start) && start.Cooperative()
    ensures Inv(Run(c, start, events), Log(c, start, events))
  {
    if events != [] {
      var before := events[..|events| - 1];
      RunKeeps(c, start, before);
      RunSetting(c, start, before);
      StepKeeps(c, Run(c, start, before), events[|events| - 1], Log(c, start, before));
      hide Step, Batches, Inv;
    }
  }

  /**
   * Two events of one actor with one sequence are only handed out in the assault mode, and then in two lives of the
   * actor of which the later began before that sequence. So in the foster mode each is handed out at most once.
   */
  lemma ActorsAtMostOnce(c: Catalog, start: Battle, events: seq<Event>, i: nat, j: nat)
    requires Begins(start) && i < j < |Log(c, start, events)|
    requires SameActorEvent(Log(c, start, events)[i], Log(c, start, events)[j])
    ensures Reborn(start.mode, Log(c, start, events)[i], Log(c, start, events)[j])
  {
    RunSetting(c, start, events);
    assert Log(c, start, events)[i] in Log(c, start, events);
    RunKeeps(c, start, events);
  }

  /**
   * Exactly when an actor's event that was handed out before passes again: in the assault mode, for a living actor
   * that was reborn since, if the event is newer than this life and than everything relayed in it.
   */
  lemma RepeatPassesIff(c: Catalog, start: Battle, events: seq<Event>, i: nat, now: real)
    requires Begins(start) && i < |Log(c, start, events)| && ActorEvent(Log(c, start, events)[i])
    requires var k, b := Log(c, start, events)[i], Run(c, start, events);
      b.live && k.from in b.members && ActorField(k.message).value !in b.members
    ensures var k, b := Log(c, start, events)[i], Run(c, start, events);
      var actor := ActorField(k.message).value;
      && actor in b.npcs.actors
      && (Judge(c, b, k.from, k.message, now) == PassNpc <==>
            && b.npcs.Active(actor) && SourceKnown(b, k.message)
            && b.mode == ASSAULT && k.life.value < b.npcs.actors[actor].sequence
            && b.npcs.Threshold(k.from, actor) < k.message.header.sequence19)
  {
    var k, b := Log(c, start, events)[i], Run(c, start, events);
    assert k in Log(c, start, events);
    RunSetting(c, start, events);
    RunKeeps(c, start, events);
    assert Counted(b, k);
    JudgedNpc(c, b, k.from, k.message, now);
    PassesIff(b, k.from, k.message);
    hide Run, Log, Judge, JudgeNpc, SourceKnown, Inv;
  }

  // ---------------------------------------------------------------- why the sender alone is not enough

  /** The Host 1 and the fighter 2. */
  function Stage(mode: int): Battle { Fresh(Pair(1, 1), mode, 1, map[0 := 1, 1 := 2], {1, 2}) }

  function Strike(actor: Uid, sequence: nat): Message {
    Message(Header(1, 1, 1, 0, sequence, 0), Hit(actor, 0, 1, 0, 0, 1, Pair(1, 1)))
  }

  function With(b: Battle, npcs: Npcs): Battle { b.(npcs := npcs) }

  lemma StageBegins(mode: int)
    ensures Begins(Stage(mode)) && Stage(mode).Fighters() == {1, 2}
  {
    var b := Stage(mode);
    assert b.roster[0] == 1 && b.roster[1] == 2;
    assert b.Fighters() == {1, 2};
  }

  lemma Struck(c: Catalog, mode: int, npcs: Npcs, actor: Uid, sequence: nat)
    requires (mode == FOSTER || mode == ASSAULT) && actor !in {0, 1, 2} && npcs.Active(actor)
    requires sequence > npcs.Threshold(1, actor)
    ensures var b, e := With(Stage(mode), npcs), Handled(1, Strike(actor, sequence), 0.0);
      && Step(c, b, e) == With(b, npcs.(versions := npcs.versions[(1, actor) := sequence]))
      && Batches(c, b, e) == [Batch({2}, 1, Strike(actor, sequence), Some(npcs.actors[actor].sequence))]
  {
    StageBegins(mode);
    var b, m := With(Stage(mode), npcs), Strike(actor, sequence);
    assert b.Fighters() == Stage(mode).Fighters() && b.Others(1) == {2};
    PassesIff(b, 1, m);
    JudgedNpc(c, b, 1, m, 0.0);
    hide Judge, JudgeNpc;
  }

  lemma Revived(c: Catalog, mode: int, npcs: Npcs, actor: Uid, sequence: int, spawn: bool)
    requires (mode == FOSTER || mode == ASSAULT) && actor !in {0, 1, 2} && spawn != npcs.Active(actor)
    requires actor in npcs.actors ==>
      sequence > if mode == FOSTER then npcs.Threshold(1, actor) else npcs.actors[actor].sequence
    ensures var b, e := With(Stage(mode), npcs), Lived(1, actor, sequence, spawn, true, false);
      && Step(c, b, e) == With(b, Npcs(npcs.actors[actor := Npc(spawn, sequence)], npcs.motion - {actor},
                                       map k | k in npcs.versions && k.1 != actor :: npcs.versions[k]))
      && Batches(c, b, e) == []
  {
  }

  lemma LastStep(c: Catalog, start: Battle, events: seq<Event>, e: Event)
    ensures Run(c, start, events + [e]) == Step(c, Run(c, start, events), e)
    ensures Log(c, start, events + [e]) == Log(c, start, events) + Batches(c, Run(c, start, events), e)
  {
    assert (events + [e])[..|events|] == events;
    hide Step, Batches;
  }

  /** These events lead from the start to these actors and have handed out this much. */
  ghost predicate Reaches(c: Catalog, mode: int, events: seq<Event>, npcs: Npcs, log: seq<Batch>) {
    Run(c, Stage(mode), events) == With(Stage(mode), npcs) && Log(c, Stage(mode), events) == log
  }

  const NOBODY: Npcs := Npcs(map[], map[], map[])

  lemma ReachesStart(c: Catalog, mode: int)
    ensures Reaches(c, mode, [], NOBODY, [])
  {
  }

  lemma ThenStruck(c: Catalog, mode: int, events: seq<Event>, npcs: Npcs, log: seq<Batch>, actor: Uid, sequence: nat,
                   next: map<(Uid, Uid), int>)
    requires Reaches(c, mode, events, npcs, log)
    requires (mode == FOSTER || mode == ASSAULT) && actor !in {0, 1, 2} && npcs.Active(actor)
    requires sequence > npcs.Threshold(1, actor) && next == npcs.versions[(1, actor) := sequence]
    ensures Reaches(c, mode, events + [Handled(1, Strike(actor, sequence), 0.0)], npcs.(versions := next),
                    log + [Batch({2}, 1, Strike(actor, sequence), Some(npcs.actors[actor].sequence))])
  {
    hide Run, Log, Step, Batches, Stage, Strike;
    Struck(c, mode, npcs, actor, sequence);
    LastStep(c, Stage(mode), events, Handled(1, Strike(actor, sequence), 0.0));
  }

  lemma ThenRevived(c: Catalog, mode: int, events: seq<Event>, npcs: Npcs, log: seq<Batch>, actor: Uid, sequence: int,
                    spawn: bool, next: Npcs)
    requires Reaches(c, mode, events, npcs, log) && npcs.motion == map[] == next.motion
    requires (mode == FOSTER || mode == ASSAULT) && actor !in {0, 1, 2} && spawn != npcs.Active(actor)
    requires actor in npcs.actors ==>
      sequence > if mode == FOSTER then npcs.Threshold(1, actor) else npcs.actors[actor].sequence
    requires next.actors == npcs.actors[actor := Npc(spawn, sequence)]
    requires next.versions == map k | k in npcs.versions && k.1 != actor :: npcs.versions[k]
    ensures Reaches(c, mode, events + [Lived(1, actor, sequence, spawn, true, false)], next, log)
  {
    hide Run, Log, Step, Batches, Stage;
    Revived(c, mode, npcs, actor, sequence, spawn);
    assert npcs.motion - {actor} == map[];
    LastStep(c, Stage(mode), events, Lived(1, actor, sequence, spawn, true, false));
    assert log + [] == log;
  }

  function SpawnsAndStrikes(): seq<Event> {
    [] + [Lived(1, 101, 1, true, true, false)] + [Lived(1, 102, 2, true, true, false)]
    + [Handled(1, Strike(101, 7), 0.0)] + [Handled(1, Strike(102, 7), 0.0)]
  }

  /** Two actors of the Host, one sequence: both events are handed to the same fighter. */
  lemma TwoActorsShareASequence(c: Catalog, mode: int)
    requires mode == FOSTER || mode == ASSAULT
    ensures Begins(Stage(mode))
    ensures Log(c, Stage(mode), SpawnsAndStrikes())
         == [Batch({2}, 1, Strike(101, 7), Some(1)), Batch({2}, 1, Strike(102, 7), Some(2))]
  {
    hide Run, Log, Stage, Strike, Begins;
    StageBegins(mode);
    var one, two := map[101 := Npc(true, 1)], map[101 := Npc(true, 1), 102 := Npc(true, 2)];
    var first := Batch({2}, 1, Strike(101, 7), Some(1));
    var es := [];
    ReachesStart(c, mode);
    ThenRevived(c, mode, es, NOBODY, [], 101, 1, true, Npcs(one, map[], map[]));
    es := es + [Lived(1, 101, 1, true, true, false)];
    ThenRevived(c, mode, es, Npcs(one, map[], map[]), [], 102, 2, true, Npcs(two, map[], map[]));
    es := es + [Lived(1, 102, 2, true, true, false)];
    ThenStruck(c, mode, es, Npcs(two, map[], map[]), [], 101, 7, map[(1, 101) := 7]);
    es := es + [Handled(1, Strike(101, 7), 0.0)];
    assert [] + [first] == [first];
    ThenStruck(c, mode, es, Npcs(two, map[], map[(1, 101) := 7]), [first], 102, 7, map[(1, 101) := 7, (1, 102) := 7]);
  }

  function LivesAndStrikes(): seq<Event> {
    [] + [Lived(1, 101, 1, true, true, false)] + [Handled(1, Strike(101, 9), 0.0)]
    + [Lived(1, 101, 2, false, true, false)]
    + [Lived(1, 101, 3, true, true, false)] + [Handled(1, Strike(101, 9), 0.0)]
  }

  /** In the assault mode an actor reborn with an older sequence lets the same event through again. */
  lemma ReappearanceRepeats(c: Catalog)
    ensures Begins(Stage(ASSAULT))
    ensures Log(c, Stage(ASSAULT), LivesAndStrikes())
         == [Batch({2}, 1, Strike(101, 9), Some(1)), Batch({2}, 1, Strike(101, 9), Some(3))]
  {
    hide Run, Log, Stage, Strike, Begins;
    StageBegins(ASSAULT);
    var born, gone, again := map[101 := Npc(true, 1)], map[101 := Npc(false, 2)], map[101 := Npc(true, 3)];
    var first := Batch({2}, 1, Strike(101, 9), Some(1));
    var nine: map<(Uid, Uid), int> := map[(1, 101) := 9];
    var es := [];
    ReachesStart(c, ASSAULT);
    ThenRevived(c, ASSAULT, es, NOBODY, [], 101, 1, true, Npcs(born, map[], map[]));
    es := es + [Lived(1, 101, 1, true, true, false)];
    ThenStruck(c, ASSAULT, es, Npcs(born, map[], map[]), [], 101, 9, nine);
    es := es + [Handled(1, Strike(101, 9), 0.0)];
    assert [] + [first] == [first];
    ThenRevived(c, ASSAULT, es, Npcs(born, map[], nine), [first], 101, 2, false, Npcs(gone, map[], map[]));
    es := es + [Lived(1, 101, 2, false, true, false)];
    ThenRevived(c, ASSAULT, es, Npcs(gone, map[], map[]), [first], 101, 3, true, Npcs(again, map[], map[]));
    es := es + [Lived(1, 101, 3, true, true, false)];
    ThenStruck(c, ASSAULT, es, Npcs(again, map[], map[]), [first], 101, 9, nine);
  }
}
