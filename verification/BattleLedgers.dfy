/** The one-use rights of a battle: hit receipts, reservations, projectiles and pair selections, over every run. */
module BattleLedgers {
  import opened BattleEvents
  import opened BattleRules
  import opened BattleDelivery

  datatype Spending = Nothing | Report_(sequence: int) | FollowUp(sequence: int)

  /**
   * One accepted event: whether it left a witness, what right it spent, and whether it was the result of
   * somebody else's projectile.
   */
  datatype Act = Act(uid: Uid, message: Message, recorded: bool, spends: Spending, foreign: bool)

  function SpentBy(b: Battle, uid: Uid, m: Message): Spending {
    if SpendsWitness(b, uid, m) then Report_(Rows(b.hits, uid)[WitnessFor(b, uid, m)].sequence)
    else if SpendsExtra(b, uid, m) then FollowUp(Rows(b.extras, uid)[ExtraFor(b, uid, m)].sequence)
    else Nothing
  }

  function ActOf(c: Catalog, b: Battle, uid: Uid, m: Message): Act {
    Act(uid, m, Recorded(c, b.members, uid, m), SpentBy(b, uid, m),
        m.body.Result? && m.body.key in b.projectiles && b.projectiles[m.body.key].owner != uid)
  }

  /** Does an event run the handlers at all? */
  predicate Executing(b: Battle, e: Event) {
    match e
    case Dispatched(uid, m, to, _) =>
      !b.Cooperative() && Eligible(b, uid, m) && Lookup(b.cache, uid, m) == |b.cache| && Targets(b, to) <= b.Fighters()
    case Handled(uid, _, _) => uid in b.Fighters()
    case _ => false
  }

  predicate Accepted(c: Catalog, b: Battle, e: Event) {
    Executing(b, e) && Judge(c, b, e.uid, e.message, e.now) == Pass
  }

  /** Every accepted event of a run, in order. */
  function Journal(c: Catalog, start: Battle, events: seq<Event>): seq<Act> {
    if events == [] then []
    else
      var before, e := Run(c, start, events[..|events| - 1]), events[|events| - 1];
      Journal(c, start, events[..|events| - 1])
      + if Accepted(c, before, e) then [ActOf(c, before, e.uid, e.message)] else []
  }

  ghost predicate SameLedgers(x: Battle, y: Battle) {
    && x.hits == y.hits && x.extras == y.extras && x.pickups == y.pickups && x.chests == y.chests
    && x.projectiles == y.projectiles && x.last == y.last && x.members == y.members && x.owner == y.owner
  }

  /** The cache, the pair selections and the actors are no part of the ledgers. */
  lemma LedgersApart(x: Battle, y: Battle)
    requires x == y.(cache := x.cache, versions := x.versions, selections := x.selections,
                     live := x.live, npcs := x.npcs)
    ensures SameLedgers(x, y)
  {
  }

  lemma SameLedgersTransitive(x: Battle, y: Battle, z: Battle)
    requires SameLedgers(x, y) && SameLedgers(y, z)
    ensures SameLedgers(x, z)
  {
  }

  lemma AfterWrites(c: Catalog, b: Battle, uid: Uid, m: Message, now: real)
    ensures SameLedgers(After(c, b, uid, m, now), if Judge(c, b, uid, m, now) == Pass then Commit(c, b, uid, m) else b)
  {
    hide Judge;
    SettledWrites(c, b, uid, m, Judge(c, b, uid, m, now));
    hide Settled, SameLedgers;
  }

  lemma SettledWrites(c: Catalog, b: Battle, uid: Uid, m: Message, v: Verdict)
    ensures SameLedgers(Settled(c, b, uid, m, v), if v == Pass then Commit(c, b, uid, m) else b)
  {
    hide Commit, NpcsAfter, SameLedgers;
    LedgersApart(Settled(c, b, uid, m, v), if v == Pass then Commit(c, b, uid, m) else b);
  }

  lemma ObserveWrites(b: Battle, uid: Uid, m: Message, to: Option<set<Uid>>, now: real)
    ensures SameLedgers(Observe(b, uid, m, to, now), b)
  {
    hide SameLedgers, Observe;
    ObserveFrame(b, uid, m, to, now);
    LedgersApart(Observe(b, uid, m, to, now), b);
  }

  lemma FreshWrites(c: Catalog, b: Battle, uid: Uid, m: Message, to: Option<set<Uid>>, now: real)
    requires Eligible(b, uid, m) && Targets(b, to) <= b.Fighters() && Lookup(b.cache, uid, m) == |b.cache|
    ensures SameLedgers(Relayed(c, b, uid, m, to, now),
                        if Judge(c, b, uid, m, now) == Pass then Commit(c, b, uid, m) else b)
  {
    hide Judge, Commit, Lookup, Remember, Relayed, Handed, SameLedgers, After, Answer, Eligible, Targets;
    var x, y := Relayed(c, b, uid, m, to, now), After(c, b, uid, m, now);
    var z := if Judge(c, b, uid, m, now) == Pass then Commit(c, b, uid, m) else b;
    RelayFresh(c, b, uid, m, to, now);
    RejectedJudge(c, b, uid, m, now);
    if Answer(c, b, uid, m, now).Done? {
      AfterWrites(c, b, uid, m, now);
      LedgersApart(x, y);
      SameLedgersTransitive(x, y, z);
    } else {
      LedgersApart(x, b);
    }
  }

  lemma LedgersOffCache(x: Battle, y: Battle)
    requires x == y.(cache := x.cache)
    ensures SameLedgers(x, y)
  {
  }

  lemma OtherwiseOnlyCache(c: Catalog, b: Battle, uid: Uid, m: Message, to: Option<set<Uid>>, now: real)
    requires !(Eligible(b, uid, m) && Targets(b, to) <= b.Fighters() && Lookup(b.cache, uid, m) == |b.cache|)
    ensures Relayed(c, b, uid, m, to, now) == b.(cache := Relayed(c, b, uid, m, to, now).cache)
  {
    hide Deliverable, Lookup, Remember, After, Answer, Eligible, Targets;
  }

  /** The relay writes the ledgers through one fresh execution or not at all. */
  lemma RelayWrites(c: Catalog, b: Battle, uid: Uid, m: Message, to: Option<set<Uid>>, now: real)
    requires !b.Cooperative()
    ensures SameLedgers(Relayed(c, b, uid, m, to, now),
                        if Accepted(c, b, Dispatched(uid, m, to, now)) then Commit(c, b, uid, m) else b)
  {
    hide Judge, Commit, Lookup, Relayed, SameLedgers, Eligible, Targets;
    if Eligible(b, uid, m) && Targets(b, to) <= b.Fighters() && Lookup(b.cache, uid, m) == |b.cache| {
      FreshWrites(c, b, uid, m, to, now);
    } else {
      OtherwiseOnlyCache(c, b, uid, m, to, now);
      LedgersOffCache(Relayed(c, b, uid, m, to, now), b);
    }
  }

  lemma RejectedJudge(c: Catalog, b: Battle, uid: Uid, m: Message, now: real)
    ensures Answer(c, b, uid, m, now).Rejected? <==> Judge(c, b, uid, m, now) == Reject
  {
    hide Judge, Recipients;
  }

  lemma DispatchWrites(c: Catalog, b: Battle, uid: Uid, m: Message, to: Option<set<Uid>>, now: real)
    requires !b.Cooperative()
    ensures SameLedgers(Dispatch(c, b, uid, m, to, now),
                        if Accepted(c, b, Dispatched(uid, m, to, now)) then Commit(c, b, uid, m) else b)
  {
    hide Accepted, Commit, Relayed, Handed, Executes, Observe, SameLedgers;
    RelayWrites(c, b, uid, m, to, now);
    var answer := Handed(c, b, uid, m, to, now);
    if answer.Done? {
      ObserveWrites(Relayed(c, b, uid, m, to, now), uid, m, Some(answer.to), now);
      SameLedgersTransitive(Observe(Relayed(c, b, uid, m, to, now), uid, m, Some(answer.to), now),
                            Relayed(c, b, uid, m, to, now),
                            if Accepted(c, b, Dispatched(uid, m, to, now)) then Commit(c, b, uid, m) else b);
    }
  }

  /** A step writes the ledgers exactly when it accepts its event, or when a member departs. */
  lemma StepWrites(c: Catalog, b: Battle, e: Event)
    ensures Accepted(c, b, e) ==> SameLedgers(Step(c, b, e), Commit(c, b, e.uid, e.message))
    ensures !Accepted(c, b, e) && !e.Departed? ==> SameLedgers(Step(c, b, e), b)
  {
    hide Commit, Dispatch, Judge, Observe, SameLedgers, After, Relife;
    match e {
      case Dispatched(uid, m, to, now) =>
        if b.Cooperative() {
          LedgersApart(b, b);
        } else {
          DispatchWrites(c, b, uid, m, to, now);
        }
      case Handled(uid, m, now) =>
        AfterWrites(c, b, uid, m, now);
        LedgersApart(b, b);
        ObserveWrites(After(c, b, uid, m, now), uid, m, None, now);
        if uid in b.Fighters() && Judge(c, b, uid, m, now) == Pass {
          SameLedgersTransitive(Direct(c, b, uid, m, now), After(c, b, uid, m, now), Commit(c, b, uid, m));
        }
      case Departed(_) =>
      case Lived(uid, actor, sequence, spawn, allowed, _) =>
        RelifeFrame(b, uid, actor, sequence, spawn, allowed);
        LedgersApart(Relife(b, uid, actor, sequence, spawn, allowed), b);
      case Finished =>
        LedgersApart(b.(live := false), b);
    }
  }

  /** An accepted event comes from a member and is newer than that member's generic watermark. */
  lemma AcceptedIsNewer(c: Catalog, b: Battle, e: Event)
    requires Accepted(c, b, e)
    ensures e.uid in b.members
    ensures e.message.Lane() == 19 ==> e.message.header.sequence19 > b.Seen(e.uid, 19)
  {
    var m := e.message;
    assert e.uid in b.members;
    if m.Lane() == 19 {
      hide Judge;
      PassIsNewer(c, b, e.uid, m, e.now);
    }
  }
}
