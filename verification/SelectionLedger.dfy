/** Paired transforms are only relayed on a selection that reached its target less than fifteen seconds before. */
module SelectionLedger {
  import opened BattleEvents
  import opened BattleRules
  import opened BattleDelivery
  import opened BattleLedgers

  function HandedBy(c: Catalog, b: Battle, e: Event): set<Uid> {
    if Batches(c, b, e) == [] then {} else Batches(c, b, e)[0].to
  }

  /** The event is a qualified selection of `target` by `first`, and it was handed to the target. */
  predicate Selects(c: Catalog, b: Battle, e: Event, first: Uid, target: Uid) {
    && (e.Dispatched? || e.Handled?) && e.uid == first && e.message.header.sender == first
    && e.message.body == Select(first, target, SELECTION_TIMEOUT) && target != first && target in HandedBy(c, b, e)
  }

  ghost predicate Backed(c: Catalog, start: Battle, events: seq<Event>, first: Uid, lease: Lease) {
    exists i :: 0 <= i < |events| && Selects(c, Run(c, start, events[..i]), events[i], first, lease.target)
                && lease.deadline == events[i].now + 15.0
  }

  ghost predicate AllBacked(c: Catalog, start: Battle, events: seq<Event>) {
    forall f <- Run(c, start, events).selections :: Backed(c, start, events, f, Run(c, start, events).selections[f])
  }

  /** Where a lease of the next state comes from: the state before, or this very event. */
  ghost predicate Sourced(c: Catalog, b: Battle, e: Event, x: Battle) {
    forall f <- x.selections ::
      || (f in b.selections && b.selections[f] == x.selections[f])
      || (Selects(c, b, e, f, x.selections[f].target) && x.selections[f].deadline == e.now + 15.0)
  }

  ghost predicate Fewer(x: map<Uid, Lease>, y: map<Uid, Lease>) {
    forall f <- x :: f in y && y[f] == x[f]
  }

  lemma CommitSelections(c: Catalog, b: Battle, uid: Uid, m: Message)
    ensures Commit(c, b, uid, m).selections == b.selections
  {
    hide HitsAfter, ExtrasAfter, HoldsAfter, ProjectilesAfter, StatesAfter, CollectiblesAfter, MotionAfter;
  }

  lemma AfterSelections(c: Catalog, b: Battle, uid: Uid, m: Message, now: real)
    ensures Fewer(After(c, b, uid, m, now).selections, b.selections)
  {
    hide Judge;
    SettledSelections(c, b, uid, m, Judge(c, b, uid, m, now));
    hide Settled, Fewer;
  }

  lemma SettledSelections(c: Catalog, b: Battle, uid: Uid, m: Message, v: Verdict)
    ensures Fewer(Settled(c, b, uid, m, v).selections, b.selections)
  {
    hide Commit, Fewer, NpcsAfter;
    CommitSelections(c, b, uid, m);
    FewerOf(b.selections, if m.body.Transform? then m.body.first else 0);
  }

  lemma FewerOf(y: map<Uid, Lease>, f: Uid)
    ensures Fewer(y, y) && Fewer(y - {f}, y) && Fewer(WithoutSelections(y, f), y)
  {
  }

  lemma RelayedSelections(c: Catalog, b: Battle, uid: Uid, m: Message, to: Option<set<Uid>>, now: real)
    ensures Fewer(Relayed(c, b, uid, m, to, now).selections, b.selections)
  {
    hide After, Lookup, Deliverable, Remember, Eligible, Targets, Answer, Handed, Relayed, Fewer, Executes;
    AfterSelections(c, b, uid, m, now);
    FewerOf(b.selections, uid);
    if Eligible(b, uid, m) && Targets(b, to) <= b.Fighters() && Lookup(b.cache, uid, m) == |b.cache| {
      RelayFresh(c, b, uid, m, to, now);
    } else {
      OtherwiseOnlyCache(c, b, uid, m, to, now);
    }
  }

  lemma ObserveSelections(b: Battle, uid: Uid, m: Message, to: Option<set<Uid>>, now: real)
    ensures forall f <- Observe(b, uid, m, to, now).selections ::
      var lease := Observe(b, uid, m, to, now).selections[f];
      || (f in b.selections && b.selections[f] == lease)
      || (f == uid && m.header.sender == uid && m.body == Select(uid, lease.target, SELECTION_TIMEOUT)
             && lease.target != uid
          && lease.target in b.Fighters() && (to.None? || lease.target in to.value) && lease.deadline == now + 15.0)
  {
  }

  lemma DispatchSourced(c: Catalog, b: Battle, uid: Uid, m: Message, to: Option<set<Uid>>, now: real)
    requires !b.Cooperative()
    ensures Sourced(c, b, Dispatched(uid, m, to, now), Dispatch(c, b, uid, m, to, now))
  {
    hide Relayed, Handed, Observe, Executes;
    RelayedSelections(c, b, uid, m, to, now);
    var answer := Handed(c, b, uid, m, to, now);
    if answer.Done? {
      ObserveSelections(Relayed(c, b, uid, m, to, now), uid, m, Some(answer.to), now);
    }
  }

  lemma DirectSourced(c: Catalog, b: Battle, uid: Uid, m: Message, now: real)
    requires Seated(b)
    ensures Sourced(c, b, Handled(uid, m, now), Direct(c, b, uid, m, now))
  {
    AfterSelections(c, b, uid, m, now);
    AfterFrame(c, b, uid, m, now);
    ObserveSelections(After(c, b, uid, m, now), uid, m, None, now);
    assert Judge(c, b, uid, m, now) == Pass ==> b.live;
    hide After, Observe, Judge;
  }

  lemma LeaveSelections(b: Battle, uid: Uid)
    ensures Leave(b, uid).selections
         == if b.live && uid in b.members && uid !in b.Fighters()
            then WithoutSelections(b.selections, uid) else b.selections
  {
    UnseatFields(b, uid);
    hide Unseat;
  }

  lemma StepSourced(c: Catalog, b: Battle, e: Event)
    requires Seated(b)
    ensures Sourced(c, b, e, Step(c, b, e))
  {
    hide Dispatch, Direct, Leave, Relife;
    match e {
      case Dispatched(uid, m, to, now) =>
        if !b.Cooperative() {
          DispatchSourced(c, b, uid, m, to, now);
        }
      case Handled(uid, m, now) => DirectSourced(c, b, uid, m, now);
      case Departed(uid) =>
        LeaveSelections(b, uid);
        FewerOf(b.selections, uid);
      case Lived(uid, actor, sequence, spawn, allowed, _) =>
        RelifeFrame(b, uid, actor, sequence, spawn, allowed);
        FewerOf(b.selections, uid);
      case Finished =>
    }
  }

  lemma BackedStays(c: Catalog, start: Battle, events: seq<Event>, first: Uid, lease: Lease)
    requires events != [] && Backed(c, start, events[..|events| - 1], first, lease)
    ensures Backed(c, start, events, first, lease)
  {
    hide Run, HandedBy;
    var before := events[..|events| - 1];
    var i :| 0 <= i < |before| && Selects(c, Run(c, start, before[..i]), before[i], first, lease.target)
             && lease.deadline == before[i].now + 15.0;
    assert before[..i] == events[..i] && before[i] == events[i];
  }

  lemma {:induction false} RunBacked(c: Catalog, start: Battle, events: seq<Event>)
    requires Begins(start)
    ensures AllBacked(c, start, events)
  {
    if events != [] {
      var before, e := events[..|events| - 1], events[|events| - 1];
      RunBacked(c, start, before);
      BattleDelivery.RunKeeps(c, start, before);
      StepSourced(c, Run(c, start, before), e);
      hide Step, Selects, Inv, Begins, AllBacked, Sourced, Seated;
      SourcedBacked(c, start, events);
    }
  }

  lemma SourcedBacked(c: Catalog, start: Battle, events: seq<Event>)
    requires events != [] && AllBacked(c, start, events[..|events| - 1])
    requires Sourced(c, Run(c, start, events[..|events| - 1]), events[|events| - 1], Run(c, start, events))
    ensures AllBacked(c, start, events)
  {
    var before := events[..|events| - 1];
    var b, x := Run(c, start, before), Run(c, start, events);
    hide Run, Selects;
    forall f | f in x.selections
      ensures Backed(c, start, events, f, x.selections[f])
    {
      if f in b.selections && b.selections[f] == x.selections[f] {
        BackedStays(c, start, events, f, x.selections[f]);
      } else {
        assert events[..|before|] == before;
      }
    }
  }

  /**
   * Every paired transform that is relayed answers a selection: an earlier event of the battle in which its first
   * player selected its second, which was handed to the second, less than fifteen seconds before.
   */
  lemma TransformAnswersSelection(c: Catalog, start: Battle, events: seq<Event>, e: Event)
    requires Begins(start) && Accepted(c, Run(c, start, events), e) && e.message.body.Transform?
    ensures e.message.body.second == e.uid
    ensures exists i :: 0 <= i < |events|
                        && Selects(c, Run(c, start, events[..i]), events[i], e.message.body.first, e.uid)
                        && e.now < events[i].now + 15.0
  {
    var b := Run(c, start, events);
    RunBacked(c, start, events);
    PassedTransform(c, b, e);
    hide Accepted, Selects, Begins, Run;
    assert Backed(c, start, events, e.message.body.first, b.selections[e.message.body.first]);
  }

  lemma PassedTransform(c: Catalog, b: Battle, e: Event)
    requires Accepted(c, b, e) && e.message.body.Transform?
    ensures var first := e.message.body.first;
      && e.message.body.second == e.uid && first in b.selections
      && b.selections[first].target == e.uid && e.now < b.selections[first].deadline
  {
  }
}
