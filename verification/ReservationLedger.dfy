/** Host-approved reservations of pickups and chests: exclusive while approved, and approved anew for every use. */
module ReservationLedger {
  import opened BattleEvents
  import opened BattleRules
  import opened BattleDelivery
  import opened BattleLedgers
  import opened MapSums

  predicate Concerns(a: Act, chest: bool, who: Uid) {
    a.message.body.Pickup? && a.message.body.chest == chest && a.message.body.player == who
  }

  /** The Host grants this key to this member. */
  predicate Approves(a: Act, host: Uid, chest: bool, who: Uid, key: int) {
    a.uid == host && Concerns(a, chest, who) && a.message.body.phase == Response && a.message.body.answer == 1
    && a.message.body.key == key
  }

  predicate Completes(m: Message, chest: bool, key: int) {
    m.body.Pickup? && m.body.chest == chest && m.body.phase == Completion && m.body.key == key
  }

  /** The newest accepted act about this member and registry is the Host's approval of this key. */
  ghost predicate FreshlyApproved(J: seq<Act>, host: Uid, chest: bool, who: Uid, key: int) {
    exists j :: 0 <= j < |J| && Approves(J[j], host, chest, who, key)
                && forall l :: j < l < |J| ==> !Concerns(J[l], chest, who)
  }

  ghost predicate Exclusive(holds: map<Uid, Hold>) {
    forall x <- holds, y <- holds :: holds[x].approved && holds[y].approved && holds[x].key == holds[y].key ==> x == y
  }

  ghost predicate Approved(b: Battle, J: seq<Act>, chest: bool) {
    forall who, key :: HeldBy(b.Holds(chest), who, key) ==> FreshlyApproved(J, b.owner, chest, who, key)
  }

  ghost predicate Inv(b: Battle, J: seq<Act>) {
    forall chest: bool :: Exclusive(b.Holds(chest)) && Approved(b, J, chest)
  }

  lemma CommitHolds(c: Catalog, b: Battle, uid: Uid, m: Message, chest: bool)
    ensures Commit(c, b, uid, m).Holds(chest)
         == if m.body.Pickup? && m.body.chest == chest then HoldsAfter(b.Holds(chest), m.body) else b.Holds(chest)
    ensures Commit(c, b, uid, m).owner == b.owner
  {
    hide HitsAfter, ExtrasAfter, HoldsAfter, ProjectilesAfter, StatesAfter, CollectiblesAfter, MotionAfter;
  }

  /** What the pickup guards grant. */
  lemma PassedPickup(b: Battle, uid: Uid, m: Message)
    requires m.body.Pickup? && JudgePickup(b, uid, m) == Pass
    ensures var p, holds := m.body, b.Holds(m.body.chest);
      && (p.phase == Response ==> uid == b.owner)
      && (p.phase == Response && p.answer == 1 ==> !HeldByOther(holds, p.player, p.key))
      && (p.phase == Completion && uid == b.owner ==> !Held(holds, p.key))
      && (p.phase == Completion && uid != b.owner ==> HeldBy(holds, uid, p.key))
      && (p.phase == Completion ==> p.player == uid)
  {
  }

  lemma Judged(c: Catalog, b: Battle, e: Event)
    requires Accepted(c, b, e) && e.message.body.Pickup?
    ensures JudgePickup(b, e.uid, e.message) == Pass
  {
    hide JudgePickup;
  }

  lemma ExclusiveAfter(holds: map<Uid, Hold>, p: Body)
    requires Exclusive(holds) && p.Pickup?
    requires p.phase == Response && p.answer == 1 ==> !HeldByOther(holds, p.player, p.key)
    ensures Exclusive(HoldsAfter(holds, p))
  {
    if p.phase == Response && p.answer == 1 {
      forall x | x in holds && x != p.player && holds[x].approved
        ensures holds[x].key != p.key
      {
        assert HeldBy(holds, x, holds[x].key);
      }
    }
  }

  lemma StillApproved(J: seq<Act>, a: Act, host: Uid, chest: bool, who: Uid, key: int)
    requires FreshlyApproved(J, host, chest, who, key) && !Concerns(a, chest, who)
    ensures FreshlyApproved(J + [a], host, chest, who, key)
  {
    var j :| 0 <= j < |J| && Approves(J[j], host, chest, who, key)
             && forall l :: j < l < |J| ==> !Concerns(J[l], chest, who);
    var more := J + [a];
    assert more[j] == J[j];
    assert forall l :: j < l < |more| ==> !Concerns(more[l], chest, who);
  }

  lemma NowApproved(J: seq<Act>, a: Act, host: Uid, chest: bool, who: Uid, key: int)
    requires Approves(a, host, chest, who, key)
    ensures FreshlyApproved(J + [a], host, chest, who, key)
  {
    assert (J + [a])[|J|] == a;
  }

  lemma StepAccepted(c: Catalog, b: Battle, e: Event, J: seq<Act>, chest: bool)
    requires Inv(b, J) && Accepted(c, b, e)
    ensures var x, more := Commit(c, b, e.uid, e.message), J + [ActOf(c, b, e.uid, e.message)];
      Exclusive(x.Holds(chest)) && Approved(x, more, chest)
  {
    var m, a := e.message, ActOf(c, b, e.uid, e.message);
    var x, holds := Commit(c, b, e.uid, m), b.Holds(chest);
    CommitHolds(c, b, e.uid, m, chest);
    assert Exclusive(holds) && Approved(b, J, chest);
    assert a.message == m && a.uid == e.uid;
    if m.body.Pickup? && m.body.chest == chest {
      Judged(c, b, e);
      PassedPickup(b, e.uid, m);
      ExclusiveAfter(holds, m.body);
    }
    hide Commit, Accepted, ActOf, FreshlyApproved, Inv, Exclusive;
    forall who, key | HeldBy(x.Holds(chest), who, key)
      ensures FreshlyApproved(J + [a], b.owner, chest, who, key)
    {
      if Concerns(a, chest, who) {
        NowApproved(J, a, b.owner, chest, who, key);
      } else {
        StillApproved(J, a, b.owner, chest, who, key);
      }
    }
  }

  lemma LeaveHolds(b: Battle, uid: Uid, chest: bool)
    ensures Leave(b, uid).Holds(chest) == b.Holds(chest) || Leave(b, uid).Holds(chest) == b.Holds(chest) - {uid}
    ensures Leave(b, uid).owner == b.owner
  {
    LeaveSetting(b, uid);
    UnseatFields(b, uid);
    hide Unseat;
  }

  lemma StepDeparted(b: Battle, uid: Uid, J: seq<Act>)
    requires Inv(b, J)
    ensures Inv(Leave(b, uid), J)
  {
    hide Leave, FreshlyApproved;
    forall chest: bool
      ensures Exclusive(Leave(b, uid).Holds(chest)) && Approved(Leave(b, uid), J, chest)
    {
      LeaveHolds(b, uid, chest);
      assert Exclusive(b.Holds(chest)) && Approved(b, J, chest);
      assert forall who, key :: HeldBy(Leave(b, uid).Holds(chest), who, key) ==> HeldBy(b.Holds(chest), who, key);
    }
  }

  lemma Transfer(x: Battle, y: Battle, J: seq<Act>)
    requires SameLedgers(x, y) && Inv(y, J)
    ensures Inv(x, J)
  {
    hide FreshlyApproved;
    forall chest: bool
      ensures Exclusive(x.Holds(chest)) && Approved(x, J, chest)
    {
      assert x.Holds(chest) == y.Holds(chest);
      assert Exclusive(y.Holds(chest)) && Approved(y, J, chest);
    }
  }

  lemma {:induction false} RunKeeps(c: Catalog, start: Battle, events: seq<Event>)
    requires Begins(start)
    ensures Inv(Run(c, start, events), Journal(c, start, events))
  {
    if events != [] {
      var before, e := events[..|events| - 1], events[|events| - 1];
      RunKeeps(c, start, before);
      var b, J := Run(c, start, before), Journal(c, start, before);
      StepWrites(c, b, e);
      StepOfDeparture(c, b, e);
      hide SameLedgers, Commit, Accepted, ActOf, Step, Exclusive, Approved;
      if Accepted(c, b, e) {
        StepAccepted(c, b, e, J, false);
        StepAccepted(c, b, e, J, true);
        hide Inv;
        assert Inv(Commit(c, b, e.uid, e.message), J + [ActOf(c, b, e.uid, e.message)]) by {
          BothRegistries(Commit(c, b, e.uid, e.message), J + [ActOf(c, b, e.uid, e.message)]);
        }
        Transfer(Step(c, b, e), Commit(c, b, e.uid, e.message), J + [ActOf(c, b, e.uid, e.message)]);
      } else {
        hide Inv;
        assert J + [] == J;
        if e.Departed? {
          StepDeparted(b, e.uid, J);
        } else {
          Transfer(Step(c, b, e), b, J);
        }
      }
    }
  }

  lemma BothRegistries(b: Battle, J: seq<Act>)
    requires Exclusive(b.Holds(false)) && Approved(b, J, false) && Exclusive(b.Holds(true)) && Approved(b, J, true)
    ensures Inv(b, J)
  {
    hide Exclusive, Approved;
    forall chest: bool
      ensures Exclusive(b.Holds(chest)) && Approved(b, J, chest)
    {
      if chest {
      } else {
      }
    }
  }

  lemma StepOfDeparture(c: Catalog, b: Battle, e: Event)
    ensures e.Departed? ==> Step(c, b, e) == Leave(b, e.uid) && !Accepted(c, b, e)
  {
  }

  /** In every reachable battle at most one member holds an approved reservation of a key, in either registry. */
  lemma OneHolderPerKey(c: Catalog, start: Battle, events: seq<Event>, chest: bool, x: Uid, y: Uid, key: int)
    requires Begins(start)
    requires HeldBy(Run(c, start, events).Holds(chest), x, key) && HeldBy(Run(c, start, events).Holds(chest), y, key)
    ensures x == y
  {
    RunKeeps(c, start, events);
    assert Exclusive(Run(c, start, events).Holds(chest));
  }

  /** While a member holds a key approved nobody else completes it, the Host included. */
  lemma HolderCompletesAlone(c: Catalog, start: Battle, events: seq<Event>, e: Event,
                             chest: bool, holder: Uid, key: int)
    requires Begins(start)
    requires var b := Run(c, start, events);
      HeldBy(b.Holds(chest), holder, key) && Accepted(c, b, e) && Completes(e.message, chest, key)
    ensures e.uid == holder
  {
    var b := Run(c, start, events);
    RunKeeps(c, start, events);
    assert Exclusive(b.Holds(chest));
    Judged(c, b, e);
    PassedPickup(b, e.uid, e.message);
    hide Accepted, Inv;
    assert holder in b.Holds(chest);
  }

  /**
   * Every completion relayed for a member who is not the Host spends the Host's approval of that very key for
   * that very member: it is the newest accepted act about that member, so no two completions share one.
   */
  lemma CompletionSpendsApproval(c: Catalog, start: Battle, events: seq<Event>, e: Event, chest: bool, key: int)
    requires Begins(start) && Accepted(c, Run(c, start, events), e)
    requires Completes(e.message, chest, key) && e.uid != start.owner
    ensures e.message.body.player == e.uid
    ensures FreshlyApproved(Journal(c, start, events), start.owner, chest, e.uid, key)
    ensures !HeldBy(Commit(c, Run(c, start, events), e.uid, e.message).Holds(chest), e.uid, key)
  {
    var b := Run(c, start, events);
    RunSetting(c, start, events);
    RunKeeps(c, start, events);
    Judged(c, b, e);
    PassedPickup(b, e.uid, e.message);
    CommitHolds(c, b, e.uid, e.message, chest);
    hide Accepted, Inv, Commit;
    assert Approved(b, Journal(c, start, events), chest) by {
      ApprovedIn(b, Journal(c, start, events), chest);
    }
  }

  // ---------------------------------------------------------------- counting

  predicate Completed(a: Act, chest: bool, who: Uid, key: int) {
    a.uid == who && Completes(a.message, chest, key)
  }

  function CompletionsOf(J: seq<Act>, chest: bool, who: Uid, key: int): set<int> {
    set i | 0 <= i < |J| && Completed(J[i], chest, who, key)
  }

  function ApprovalsOf(J: seq<Act>, host: Uid, chest: bool, who: Uid, key: int): set<int> {
    set i | 0 <= i < |J| && Approves(J[i], host, chest, who, key)
  }

  /** The approval an act of the journal spends: the newest act about the member before it. */
  predicate Spends(J: seq<Act>, host: Uid, chest: bool, who: Uid, key: int, i: int, j: int) {
    0 <= j < i < |J| && Approves(J[j], host, chest, who, key) && forall l :: j < l < i ==> !Concerns(J[l], chest, who)
  }

  lemma {:induction false} EveryCompletionSpends(c: Catalog, start: Battle, events: seq<Event>, chest: bool, who: Uid,
                                                 key: int, i: nat) returns (j: int)
    requires Begins(start) && who != start.owner && i < |Journal(c, start, events)|
    requires Completed(Journal(c, start, events)[i], chest, who, key)
    ensures Spends(Journal(c, start, events), start.owner, chest, who, key, i, j)
    ensures Concerns(Journal(c, start, events)[i], chest, who)
  {
    if events == [] {
      j := 0;
    } else {
      var before, e := events[..|events| - 1], events[|events| - 1];
      var b, J := Run(c, start, before), Journal(c, start, before);
      if i < |J| {
        hide Accepted, Begins;
        j := EveryCompletionSpends(c, start, before, chest, who, key, i);
      } else {
        assert Accepted(c, b, e) && Journal(c, start, events)[i] == ActOf(c, b, e.uid, e.message);
        CompletionSpendsApproval(c, start, before, e, chest, key);
        hide Accepted, Begins, Run, Commit, HeldBy, FreshlyApproved, Journal;
        j := ApprovalIndex(J, ActOf(c, b, e.uid, e.message), start.owner, chest, who, key);
      }
    }
  }

  lemma ApprovalIndex(J: seq<Act>, a: Act, host: Uid, chest: bool, who: Uid, key: int) returns (j: int)
    requires FreshlyApproved(J, host, chest, who, key)
    ensures Spends(J + [a], host, chest, who, key, |J|, j)
  {
    j :| 0 <= j < |J| && Approves(J[j], host, chest, who, key)
         && forall l :: j < l < |J| ==> !Concerns(J[l], chest, who);
  }

  /** Two completions of one member never spend one approval. */
  lemma SpendingsDiffer(J: seq<Act>, host: Uid, chest: bool, who: Uid, key: int, i: int, k: int, j: int)
    requires Spends(J, host, chest, who, key, i, j) && Spends(J, host, chest, who, key, k, j)
    requires Concerns(J[i], chest, who) && Concerns(J[k], chest, who)
    ensures i == k
  {
  }

  ghost function Spent(J: seq<Act>, host: Uid, chest: bool, who: Uid, key: int, i: int): (j: int)
    requires exists j :: Spends(J, host, chest, who, key, i, j)
    ensures Spends(J, host, chest, who, key, i, j)
  {
    var j :| Spends(J, host, chest, who, key, i, j);
    j
  }

  /** For each member and key, completions are at most the Host's approvals of them. */
  lemma CompletionsConserved(c: Catalog, start: Battle, events: seq<Event>, chest: bool, who: Uid, key: int)
    requires Begins(start) && who != start.owner
    ensures var J := Journal(c, start, events);
      |CompletionsOf(J, chest, who, key)| <= |ApprovalsOf(J, start.owner, chest, who, key)|
  {
    var J, host := Journal(c, start, events), start.owner;
    var A, B := CompletionsOf(J, chest, who, key), ApprovalsOf(J, host, chest, who, key);
    forall i | i in A
      ensures (exists j :: Spends(J, host, chest, who, key, i, j)) && Concerns(J[i], chest, who)
    {
      var j := EveryCompletionSpends(c, start, events, chest, who, key, i);
    }
    hide Journal, Begins, Concerns, Approves;
    var f := map i | i in A :: Spent(J, host, chest, who, key, i);
    forall i, k | i in A && k in A && f[i] == f[k]
      ensures i == k
    {
      SpendingsDiffer(J, host, chest, who, key, i, k, f[i]);
    }
    InjectionBound(A, B, f);
  }

  lemma ApprovedIn(b: Battle, J: seq<Act>, chest: bool)
    requires Inv(b, J)
    ensures Approved(b, J, chest)
  {
  }
}
