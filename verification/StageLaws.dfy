/** What each event of a stage does, said of the fields of the ledger before and after it. */
module StageLaws {
  import opened MapSums
  import opened StageWaves

  /** How many of a template this wave still lacks, from the two counters themselves. */
  function Spawned(s: Stage, t: Template): nat { if t in s.spawned then s.spawned[t] else 0 }

  function Planned(s: Stage, t: Template): nat
    requires s.index < |s.waves|
  {
    if t in s.waves[s.index] then s.waves[s.index][t] else 0
  }

  ghost predicate Lives(s: Stage, a: ActorId) { a in s.actors && s.actors[a].active }

  /** A spawn counts while its template lacks some in this wave, for an actor who does not live and has a place. */
  lemma SpawnCounts(s: Stage, a: ActorId, sequence: nat, t: Template, players: set<ActorId>)
    requires s.finished || s.index < |s.waves|
    ensures var x := Step(s, Spawn(a, sequence, t, players));
      var ok := a != 0 && a !in players && (a in s.actors ==> s.actors[a].sequence < sequence) && !s.finished
                && !Lives(s, a) && (a !in s.actors ==> |s.actors| < 100) && Spawned(s, t) < Planned(s, t);
      && (!ok ==> x == s)
      && (ok ==> x == s.(spawned := s.spawned[t := Spawned(s, t) + 1],
                         actors := s.actors[a := Actor(true, sequence, t)]))
  {
  }

  /** A removal takes a living actor out, once, and keeps what it was. */
  lemma RemoveTakesOut(s: Stage, a: ActorId, sequence: nat, players: set<ActorId>)
    requires s.finished || s.index < |s.waves|
    ensures var x := Step(s, StageWaves.Remove(a, sequence, players));
      var ok := a != 0 && a !in players && Lives(s, a) && s.actors[a].sequence < sequence;
      && (!ok ==> x == s)
      && (ok ==> x == s.(actors := s.actors[a := Actor(false, sequence, s.actors[a].template)]))
  {
  }

  /**
   * The report of the present wave, counted from one, is taken exactly when every quota is met and nobody lives; the
   * next wave then starts from nothing, or the stage is finished after the last.
   */
  lemma ReportMovesOn(s: Stage, pairMatches: bool, wave: int, value: nat)
    requires s.finished || s.index < |s.waves|
    ensures var x := Step(s, Report(pairMatches, wave, value));
      var ok := pairMatches && !s.finished && wave == s.index + 1 && value == 1
                && (forall a :: !Lives(s, a)) && s.spawned == s.waves[s.index];
      && (!ok ==> x == s)
      && (ok ==> x == s.(index := s.index + 1, spawned := map[], finished := s.index + 1 == |s.waves|))
  {
    assert ActiveSet(s.actors) == {} <==> forall a :: !Lives(s, a) by {
      assert forall a :: a in ActiveSet(s.actors) <==> Lives(s, a);
    }
    hide ActiveSet, Lives;
  }

  /** A known block takes newer states only, a new one is taken while there are fewer than 1024. */
  lemma BlockTakesNewest(s: Stage, key: nat, b: Block)
    requires s.finished || s.index < |s.waves|
    ensures var ok := if key in s.blocks then s.blocks[key].sequence < b.sequence else |s.blocks| < 1024;
      Step(s, BlockEvent(key, b)) == if ok then s.(blocks := s.blocks[key := b]) else s
  {
  }

  /** A wave whose quotas are met is never stuck: once the last living actor is removed its report is taken. */
  lemma ClearedWaveEnds(s: Stage, a: ActorId, sequence: nat, players: set<ActorId>)
    requires !s.finished && s.index < |s.waves| && s.spawned == s.waves[s.index]
    requires a != 0 && a !in players && Lives(s, a) && s.actors[a].sequence < sequence
    requires forall b :: Lives(s, b) ==> b == a
    ensures var x := Step(Step(s, StageWaves.Remove(a, sequence, players)), Report(true, s.index + 1, 1));
      x.index == s.index + 1 && x.spawned == map[] && (x.finished <==> s.index + 1 == |s.waves|)
  {
    RemoveTakesOut(s, a, sequence, players);
    var y := Step(s, StageWaves.Remove(a, sequence, players));
    forall b: ActorId
      ensures !Lives(y, b)
    {
      assert y.actors == s.actors[a := Actor(false, sequence, s.actors[a].template)];
      assert b != a ==> (Lives(y, b) <==> Lives(s, b));
    }
    ReportMovesOn(y, true, s.index + 1, 1);
    hide Step, Lives;
  }
}
