/** Projectile lifetimes and pair selections over every run of a battle. */
module ProjectileLedger {
  import opened BattleEvents
  import opened BattleRules
  import opened BattleDelivery
  import opened BattleLedgers

  // ---------------------------------------------------------------- lifetimes

  /** Keys keep their owner and never come back to life. */
  ghost predicate Continues(old_: map<int, Projectile>, new_: map<int, Projectile>) {
    forall k <- old_ :: k in new_ && new_[k].owner == old_[k].owner && (new_[k].alive ==> old_[k].alive)
  }

  /** Observers originate nothing, so only fighters own projectiles. */
  ghost predicate FightersOwn(b: Battle) {
    forall k <- b.projectiles :: b.projectiles[k].owner in b.Fighters()
  }

  lemma JudgedProjectile(c: Catalog, b: Battle, e: Event)
    requires Accepted(c, b, e)
    ensures e.message.body.Create? || e.message.body.Result? || e.message.body.Report? || e.message.body.End?
            ==> JudgeProjectile(b, e.uid, e.message) == Pass
  {
    hide JudgeIdentity, JudgeSequence, JudgeProjectile;
  }

  lemma CommitProjectiles(c: Catalog, b: Battle, uid: Uid, m: Message)
    ensures Commit(c, b, uid, m).projectiles == ProjectilesAfter(b.projectiles, uid, m)
    ensures Commit(c, b, uid, m).members == b.members
  {
    hide HitsAfter, ExtrasAfter, HoldsAfter, ProjectilesAfter, StatesAfter, CollectiblesAfter, MotionAfter;
  }

  lemma LeaveProjectiles(b: Battle, uid: Uid)
    ensures var x, goes := Leave(b, uid), b.live && uid in b.members && uid !in b.Fighters();
      && x.projectiles == (if goes then WithoutProjectiles(b.projectiles, uid) else b.projectiles)
      && x.members == (if goes then b.members - {uid} else b.members)
  {
    UnseatFields(b, uid);
    hide Unseat;
  }

  lemma AcceptedFights(c: Catalog, b: Battle, e: Event)
    requires Accepted(c, b, e)
    ensures e.uid in b.Fighters()
  {
    hide Judge, Lookup, Targets;
  }

  lemma StepContinues(c: Catalog, b: Battle, e: Event)
    requires FightersOwn(b)
    ensures Continues(b.projectiles, Step(c, b, e).projectiles) && FightersOwn(Step(c, b, e))
  {
    StepWrites(c, b, e);
    StepSetting(c, b, e);
    if Accepted(c, b, e) {
      AcceptedFights(c, b, e);
      JudgedProjectile(c, b, e);
      CommitProjectiles(c, b, e.uid, e.message);
      hide Commit, Accepted, Step;
    } else if e.Departed? {
      LeaveProjectiles(b, e.uid);
      hide Leave;
    } else {
      hide Commit, Accepted, Step;
    }
  }

  lemma {:induction false} RunSplits(c: Catalog, start: Battle, events: seq<Event>, more: seq<Event>)
    ensures Run(c, start, events + more) == Run(c, Run(c, start, events), more)
  {
    if more == [] {
      assert events + more == events;
    } else {
      var n := |more| - 1;
      assert (events + more)[..|events + more| - 1] == events + more[..n];
      RunSplits(c, start, events, more[..n]);
      hide Step;
    }
  }

  lemma {:induction false} RunContinues(c: Catalog, b: Battle, more: seq<Event>)
    requires FightersOwn(b)
    ensures Continues(b.projectiles, Run(c, b, more).projectiles) && FightersOwn(Run(c, b, more))
  {
    if more != [] {
      RunContinues(c, b, more[..|more| - 1]);
      StepContinues(c, Run(c, b, more[..|more| - 1]), more[|more| - 1]);
      hide Step;
    }
  }

  /**
   * Projectile lifetime: from any point of a battle on, whatever happens, a key keeps its owner, who is a fighter,
   * and a projectile that has ended is never alive again.
   */
  lemma ProjectileLifetime(c: Catalog, start: Battle, events: seq<Event>, more: seq<Event>, key: int)
    requires Begins(start) && key in Run(c, start, events).projectiles
    ensures var before, after := Run(c, start, events).projectiles, Run(c, start, events + more).projectiles;
      && key in after && after[key].owner == before[key].owner && after[key].owner in start.Fighters()
      && (after[key].alive ==> before[key].alive)
  {
    RunSplits(c, start, events, more);
    RunContinues(c, start, events);
    RunContinues(c, Run(c, start, events), more);
    RunSetting(c, start, events);
    hide Run;
  }

  // ---------------------------------------------------------------- results need reports

  predicate ForeignResult(a: Act, uid: Uid, key: int) {
    a.uid == uid && a.foreign && a.message.body.Result? && a.message.body.key == key
  }

  predicate HitReport(a: Act, uid: Uid, key: int) {
    a.uid == uid && a.message.body.Report? && a.message.body.key == key
  }

  predicate ReportedSince(J: seq<Act>, i: int, uid: Uid, key: int) {
    exists l :: i < l < |J| && l >= 0 && HitReport(J[l], uid, key)
  }

  ghost predicate Witnessed(projectiles: map<int, Projectile>, J: seq<Act>) {
    forall key, uid, i | key in projectiles && uid in projectiles[key].reporters
                         && 0 <= i < |J| && ForeignResult(J[i], uid, key) :: ReportedSince(J, i, uid, key)
  }

  lemma ReportedStays(J: seq<Act>, a: Act, i: int, uid: Uid, key: int)
    requires 0 <= i < |J|
    ensures ReportedSince(J, i, uid, key) ==> ReportedSince(J + [a], i, uid, key)
    ensures HitReport(a, uid, key) ==> ReportedSince(J + [a], i, uid, key)
  {
    if ReportedSince(J, i, uid, key) {
      var l :| i < l < |J| && l >= 0 && HitReport(J[l], uid, key);
      assert (J + [a])[l] == J[l];
    }
    assert (J + [a])[|J|] == a;
  }

  lemma AcceptedWitnessed(c: Catalog, b: Battle, e: Event, J: seq<Act>)
    requires Witnessed(b.projectiles, J) && Accepted(c, b, e)
    ensures Witnessed(Commit(c, b, e.uid, e.message).projectiles, J + [ActOf(c, b, e.uid, e.message)])
  {
    var a := ActOf(c, b, e.uid, e.message);
    JudgedProjectile(c, b, e);
    CommitProjectiles(c, b, e.uid, e.message);
    var x := ProjectilesAfter(b.projectiles, e.uid, e.message);
    var more := J + [a];
    assert a.uid == e.uid && a.message == e.message;
    assert a.message.body.Result? && a.message.body.key in b.projectiles ==>
      a.foreign == (b.projectiles[a.message.body.key].owner != e.uid);
    hide Commit, Accepted, ActOf;
    forall key, uid, i | key in x && uid in x[key].reporters && 0 <= i < |more| && ForeignResult(more[i], uid, key)
      ensures ReportedSince(more, i, uid, key)
    {
      if i < |J| {
        assert more[i] == J[i];
        ReportedStays(J, a, i, uid, key);
      }
    }
  }

  lemma FewerWitnessed(x: map<int, Projectile>, y: map<int, Projectile>, J: seq<Act>)
    requires Witnessed(y, J) && forall k <- x :: k in y && x[k] == y[k]
    ensures Witnessed(x, J)
  {
  }

  lemma {:induction false} RunWitnessed(c: Catalog, start: Battle, events: seq<Event>)
    requires Begins(start)
    ensures Witnessed(Run(c, start, events).projectiles, Journal(c, start, events))
  {
    if events != [] {
      var before, e := events[..|events| - 1], events[|events| - 1];
      RunWitnessed(c, start, before);
      var b, J := Run(c, start, before), Journal(c, start, before);
      StepWrites(c, b, e);
      if Accepted(c, b, e) {
        AcceptedWitnessed(c, b, e, J);
        hide Witnessed, Commit, Accepted, ActOf, Step;
      } else {
        assert J + [] == J;
        if e.Departed? {
          LeaveProjectiles(b, e.uid);
          hide Leave;
        } else {
          hide Commit, Accepted, Step;
        }
        FewerWitnessed(Step(c, b, e).projectiles, b.projectiles, J);
      }
    }
  }

  /** Between two results accepted from one member for somebody else's projectile lies a new hit report of theirs. */
  lemma ForeignResultsAlternate(c: Catalog, start: Battle, events: seq<Event>, e: Event, i: nat, key: int)
    requires Begins(start) && i < |Journal(c, start, events)|
    requires var b := Run(c, start, events);
      && Accepted(c, b, e) && ForeignResult(Journal(c, start, events)[i], e.uid, key)
      && ForeignResult(ActOf(c, b, e.uid, e.message), e.uid, key)
    ensures e.message.body.outcome == 2
    ensures ReportedSince(Journal(c, start, events), i, e.uid, key)
  {
    var b := Run(c, start, events);
    RunWitnessed(c, start, events);
    JudgedProjectile(c, b, e);
    hide Accepted, Witnessed, Run, Journal;
    assert e.uid in b.projectiles[key].reporters;
    WitnessedAt(b.projectiles, Journal(c, start, events), key, e.uid, i);
  }

  lemma WitnessedAt(projectiles: map<int, Projectile>, J: seq<Act>, key: int, uid: Uid, i: int)
    requires Witnessed(projectiles, J) && key in projectiles && uid in projectiles[key].reporters
    requires 0 <= i < |J| && ForeignResult(J[i], uid, key)
    ensures ReportedSince(J, i, uid, key)
  {
  }
}
