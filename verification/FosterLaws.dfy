/** HP over a whole foster battle, and what each of its events does, said of the fields before and after. */
module FosterLaws {
  import opened FosterGroups

  // ---------------------------------------------------------------- single events

  /** The actor's life, and its own events seen from this sender, are older. */
  ghost predicate NewForActor(s: Foster, sender: nat, a: ActorId, sequence: nat) {
    && (a in s.actors ==> s.actors[a].sequence < sequence)
    && ((sender, a) in s.versions ==> s.versions[(sender, a)] < sequence)
  }

  ghost predicate Alive(s: Foster, a: ActorId) { a in s.actors && s.actors[a].active }

  /** May this group take this spawn as its next one? */
  ghost predicate CanTake(plan: Plan, s: Foster, spawn: Spawn, g: nat)
    requires Shaped(plan, s) && g < |plan.groups|
  {
    var living := |set a | a in s.actors && s.actors[a].active && s.actors[a].group == g && s.actors[a].hp > 0.0|;
    && s.triggered[g] && living < plan.groups[g].subLimit && living < plan.groups[g].groupLimit
    && s.spawned[g] < |plan.groups[g].spawns| && plan.groups[g].spawns[s.spawned[g]] == spawn
  }

  ghost predicate OnlyTaker(plan: Plan, s: Foster, spawn: Spawn, g: nat)
    requires Shaped(plan, s)
  {
    g < |plan.groups| && CanTake(plan, s, spawn, g)
    && forall k :: 0 <= k < |plan.groups| && CanTake(plan, s, spawn, k) ==> k == g
  }

  lemma {:induction false} MatchesAre(plan: Plan, s: Foster, spawn: Spawn, n: nat)
    requires Shaped(plan, s) && n <= |plan.groups|
    ensures forall g: nat :: g in Matches(plan, s, spawn, n) <==> g < n && CanTake(plan, s, spawn, g)
    ensures forall i, j :: 0 <= i < j < |Matches(plan, s, spawn, n)| ==>
      Matches(plan, s, spawn, n)[i] < Matches(plan, s, spawn, n)[j]
  {
    if n > 0 {
      MatchesAre(plan, s, spawn, n - 1);
      FitsIff(plan, s, spawn, n - 1);
      hide CanTake, Fits, Shaped;
      var less := Matches(plan, s, spawn, n - 1);
      assert forall i :: 0 <= i < |less| ==> less[i] in less;
    }
  }

  lemma FitsIff(plan: Plan, s: Foster, spawn: Spawn, g: nat)
    requires Shaped(plan, s) && g < |plan.groups|
    ensures Fits(plan, s, spawn, g) <==> CanTake(plan, s, spawn, g)
  {
    assert LivingOf(s.actors, g)
        == set a | a in s.actors && s.actors[a].active && s.actors[a].group == g && s.actors[a].hp > 0.0;
  }

  lemma OneMatch(plan: Plan, s: Foster, spawn: Spawn)
    requires Shaped(plan, s)
    ensures var m := Matches(plan, s, spawn, |plan.groups|);
      && (|m| == 1 <==> exists g: nat :: OnlyTaker(plan, s, spawn, g))
      && (|m| == 1 ==> OnlyTaker(plan, s, spawn, m[0]))
  {
    var m := Matches(plan, s, spawn, |plan.groups|);
    MatchesAre(plan, s, spawn, |plan.groups|);
    hide Matches, CanTake, Shaped;
    if |m| == 1 {
      assert m[0] in m && forall g <- m :: g == m[0];
      assert OnlyTaker(plan, s, spawn, m[0]);
    } else if |m| > 1 {
      assert m[0] in m && m[1] in m && m[0] < m[1];
    }
  }

  ghost predicate MayAppear(plan: Plan, s: Foster, sender: nat, a: ActorId, sequence: nat, spawn: Spawn,
                            members: set<ActorId>)
    requires Shaped(plan, s)
  {
    && a != 0 && a !in members && NewForActorIfKnown(s, sender, a, sequence) && !s.finished && !Alive(s, a)
    && (a in s.actors || |s.actors| < 100) && |set b | b in s.actors && s.actors[b].active| < plan.globalLimit
    && exists g: nat :: OnlyTaker(plan, s, spawn, g)
  }

  ghost predicate NewForActorIfKnown(s: Foster, sender: nat, a: ActorId, sequence: nat) {
    a in s.actors ==> NewForActor(s, sender, a, sequence)
  }

  lemma MayAppearIff(plan: Plan, s: Foster, sender: nat, a: ActorId, sequence: nat, spawn: Spawn, members: set<ActorId>)
    requires Shaped(plan, s)
    ensures AppearAccepted(plan, s, sender, a, sequence, spawn, members)
            <==> MayAppear(plan, s, sender, a, sequence, spawn, members)
    ensures MayAppear(plan, s, sender, a, sequence, spawn, members) ==>
      |Matches(plan, s, spawn, |plan.groups|)| == 1 && OnlyTaker(plan, s, spawn, Chosen(plan, s, spawn))
  {
    OneMatch(plan, s, spawn);
    assert ActiveSet(s.actors) == set b | b in s.actors && s.actors[b].active;
    VersionIff(s, sender, a, sequence);
    hide OnlyTaker, Matches, ActiveSet, NewForActor;
  }

  /** A spawn is accepted when exactly one triggered group with room plans it next; it brings a healthy actor. */
  lemma AppearsIff(plan: Plan, s: Foster, sender: nat, a: ActorId, sequence: nat, spawn: Spawn, members: set<ActorId>)
    requires Shaped(plan, s)
    ensures var x := Step(plan, s, Appears(sender, a, sequence, spawn, members));
      var ok := MayAppear(plan, s, sender, a, sequence, spawn, members);
      && (!ok ==> x == s)
      && (ok ==>
            && x == s.(spawned := x.spawned, actors := x.actors, versions := x.versions)
            && a in x.actors && x.actors == s.actors[a := x.actors[a]] && spawn.template in plan.initialHp
            && OnlyTaker(plan, s, spawn, x.actors[a].group)
            && x.actors[a] == Actor(true, sequence, spawn.template, x.actors[a].group,
                                    plan.initialHp[spawn.template], plan.initialHp[spawn.template])
            && x.spawned == s.spawned[x.actors[a].group := s.spawned[x.actors[a].group] + 1]
            && (forall k :: k in x.versions <==> k in s.versions && k.1 != a)
            && (forall k <- x.versions :: x.versions[k] == s.versions[k]))
  {
    MayAppearIff(plan, s, sender, a, sequence, spawn, members);
    hide OnlyTaker, Matches, MayAppear, AppearAccepted, Shaped, Fits;
    if MayAppear(plan, s, sender, a, sequence, spawn, members) {
      PlannedTemplate(plan, s, spawn);
    }
  }

  lemma PlannedTemplate(plan: Plan, s: Foster, spawn: Spawn)
    requires Shaped(plan, s) && |Matches(plan, s, spawn, |plan.groups|)| == 1
    ensures spawn.template in plan.initialHp && Chosen(plan, s, spawn) < |s.spawned|
  {
    var g := Chosen(plan, s, spawn);
    assert plan.groups[g].spawns[s.spawned[g]] in plan.groups[g].spawns && plan.groups[g] in plan.groups;
  }

  lemma VersionIff(s: Foster, sender: nat, a: ActorId, sequence: nat)
    ensures a in s.actors ==>
      (NewForActor(s, sender, a, sequence) <==> sequence > s.actors[a].sequence && sequence > Version(s, sender, a))
  {
  }

  /** A removal takes a living or dead actor away; only one whose HP is zero counts as retired in its group. */
  lemma VanishesIff(plan: Plan, s: Foster, sender: nat, a: ActorId, sequence: nat, members: set<ActorId>)
    requires Shaped(plan, s)
    ensures var x := Step(plan, s, Vanishes(sender, a, sequence, members));
      var ok := a != 0 && a !in members && Alive(s, a) && NewForActor(s, sender, a, sequence);
      && (!ok ==> x == s)
      && (ok ==>
            && x == s.(retired := x.retired, actors := x.actors, versions := x.versions)
            && x.actors == s.actors[a := s.actors[a].(active := false, sequence := sequence)]
            && (s.actors[a].hp == 0.0 ==> x.retired == s.retired[s.actors[a].group := s.retired[s.actors[a].group] + 1])
            && (s.actors[a].hp != 0.0 ==> x.retired == s.retired)
            && (forall k :: k in x.versions <==> k in s.versions && k.1 != a)
            && (forall k <- x.versions :: x.versions[k] == s.versions[k]))
  {
    VersionIff(s, sender, a, sequence);
    hide NewForActor;
  }

  /** The HP after a hit: less by the damage, or more by a healing, never beyond zero and the maximum. */
  ghost predicate AfterHit(plan: Plan, v: Actor, damage: real, hp: real) {
    && (v.hp - damage <= 0.0 <= v.maximum ==> hp == plan.round(0.0))
    && (0.0 <= v.hp - damage <= v.maximum ==> hp == plan.round(v.hp - damage))
    && (0.0 <= v.maximum <= v.hp - damage ==> hp == plan.round(v.maximum))
  }

  /** An event of a living actor moves its filter; a hit changes its HP and nothing else about anybody. */
  lemma RelaysIff(plan: Plan, s: Foster, sender: nat, a: ActorId, sequence: nat, damage: Option<real>)
    requires Shaped(plan, s)
    ensures var x := Step(plan, s, Relays(sender, a, sequence, damage));
      var ok := Alive(s, a) && NewForActor(s, sender, a, sequence);
      && (!ok ==> x == s)
      && (ok ==>
            && x == s.(actors := x.actors, versions := s.versions[(sender, a) := sequence])
            && (damage.None? ==> x.actors == s.actors)
            && (damage.Some? ==>
                  && a in x.actors && x.actors == s.actors[a := s.actors[a].(hp := x.actors[a].hp)]
                  && AfterHit(plan, s.actors[a], damage.value, x.actors[a].hp)))
  {
    VersionIff(s, sender, a, sequence);
    hide NewForActor;
  }

  /** The planned actors of a group have all appeared, and none of them is left alive or was removed alive. */
  ghost predicate Finished(plan: Plan, s: Foster, g: nat)
    requires Shaped(plan, s) && g < |plan.groups|
  {
    var standing := set a | a in s.actors && s.actors[a].active && s.actors[a].group == g;
    && s.spawned[g] == |plan.groups[g].spawns| && s.retired[g] + |standing| == |plan.groups[g].spawns|
    && forall a <- standing :: s.actors[a].hp == 0.0
  }

  lemma FinishedIff(plan: Plan, s: Foster, g: nat)
    requires Shaped(plan, s) && g < |plan.groups|
    ensures GroupComplete(plan, s, g) <==> Finished(plan, s, g)
  {
    assert ActiveOf(s.actors, g) == set a | a in s.actors && s.actors[a].active && s.actors[a].group == g;
  }

  /** A block takes its newest state; a gate opens only when every group behind it is finished. */
  lemma BlocksIff(plan: Plan, s: Foster, key: nat, opens: bool, b: Block)
    requires Shaped(plan, s)
    ensures var ok := (key in s.blocks ==> s.blocks[key].sequence < b.sequence)
                      && (key !in s.blocks ==> |s.blocks| < 1024)
                      && (opens ==> forall g :: 0 <= g < |plan.groups| && plan.groups[g].block == Some(key) ==>
                            Finished(plan, s, g));
      Step(plan, s, Blocks(key, opens, b)) == if ok then s.(blocks := s.blocks[key := b]) else s
  {
    forall g | 0 <= g < |plan.groups|
      ensures GroupComplete(plan, s, g) <==> Finished(plan, s, g)
    {
      FinishedIff(plan, s, g);
    }
    hide GroupComplete, Finished;
  }

  ghost predicate Inside(box: Box, p: Point) {
    && box.low.0 <= p.0 && p.0 <= box.high.0 && box.low.1 <= p.1 && p.1 <= box.high.1
    && box.low.2 <= p.2 && p.2 <= box.high.2
  }

  /** A newer position of a player triggers exactly the groups whose box it lies in. */
  lemma WalksIff(plan: Plan, s: Foster, uid: nat, sequence: nat, raw: nat, point: Point)
    requires Shaped(plan, s)
    ensures var x := Step(plan, s, Walks(uid, sequence, raw, point));
      var ok := uid in s.walks ==> s.walks[uid].0 < sequence || (s.walks[uid].0 == sequence && s.walks[uid].1 != raw);
      && (!ok ==> x == s)
      && (ok ==>
            && x == s.(walks := s.walks[uid := (sequence, raw)], triggered := x.triggered)
            && |x.triggered| == |s.triggered|
            && forall g :: 0 <= g < |s.triggered| ==>
                 (x.triggered[g] <==> s.triggered[g] || Inside(plan.groups[g].trigger, point)))
  {
  }

  lemma {:induction false} TriggeredByAny(plan: Plan, triggered: seq<bool>, rows: seq<(Point, nat)>, g: nat)
    requires |triggered| == |plan.groups| && g < |triggered|
    ensures TriggeredAll(plan, triggered, rows)[g]
            <==> triggered[g] || exists i :: 0 <= i < |rows| && Inside(plan.groups[g].trigger, rows[i].0)
  {
    if rows != [] {
      var before := rows[..|rows| - 1];
      TriggeredByAny(plan, triggered, before, g);
      assert forall i :: 0 <= i < |before| ==> before[i] == rows[i];
      hide Inside;
      assert plan.groups[g].trigger.Holds(rows[|before|].0) <==> Inside(plan.groups[g].trigger, rows[|before|].0) by {
        HoldsIff(plan.groups[g].trigger, rows[|before|].0);
      }
    }
  }

  lemma HoldsIff(box: Box, p: Point)
    ensures box.Holds(p) <==> Inside(box, p)
  {
  }

  /** The first snapshot that permutes the scripted places is taken, and triggers for all of its points. */
  lemma PlacesIff(plan: Plan, s: Foster, rows: seq<(Point, nat)>, raw: nat)
    requires Shaped(plan, s)
    ensures var x := Step(plan, s, Places(rows, raw));
      var ok := s.positions.None? && multiset(rows) == multiset(plan.places);
      && (!ok ==> x == s)
      && (ok ==>
            && x == s.(positions := Some(raw), triggered := x.triggered) && |x.triggered| == |s.triggered|
            && forall g :: 0 <= g < |s.triggered| ==>
                 (x.triggered[g] <==>
                    s.triggered[g] || exists i :: 0 <= i < |rows| && Inside(plan.groups[g].trigger, rows[i].0)))
  {
    forall g | 0 <= g < |s.triggered|
      ensures TriggeredAll(plan, s.triggered, rows)[g]
              <==> s.triggered[g] || exists i :: 0 <= i < |rows| && Inside(plan.groups[g].trigger, rows[i].0)
    {
      TriggeredByAny(plan, s.triggered, rows, g);
    }
    hide TriggeredAll, Inside;
  }

  lemma FinishesIff(plan: Plan, s: Foster, sequence: nat)
    requires Shaped(plan, s)
    ensures Step(plan, s, Finishes(sequence))
         == if !s.finished && s.finishSequence < sequence then s.(finished := true, finishSequence := sequence) else s
  {
  }

  /** At the start nothing has happened: no actor, no trigger, no positions, and the first finish will be taken. */
  lemma NothingAtFirst(plan: Plan, sequence: nat)
    requires Ready(plan)
    ensures var s := NewFoster(plan);
      && s.actors == map[] && s.versions == map[] && s.blocks == map[] && s.walks == map[] && s.positions.None?
      && |s.spawned| == |s.retired| == |s.triggered| == |plan.groups|
      && (forall g :: 0 <= g < |plan.groups| ==> s.spawned[g] == s.retired[g] == 0 && !s.triggered[g])
      && !s.finished && Step(plan, s, Finishes(sequence)).finished
  {
  }

  // ---------------------------------------------------------------- HP over a run

  /** What single-precision rounding has in common with exact arithmetic, and HPs it keeps. */
  ghost predicate FloatLike(plan: Plan) {
    && (forall x: real, y: real :: x <= y ==> plan.round(x) <= plan.round(y))
    && (forall x: real :: plan.round(plan.round(x)) == plan.round(x))
    && plan.round(0.0) == 0.0
    && forall t <- plan.initialHp :: plan.initialHp[t] >= 0.0 && plan.round(plan.initialHp[t]) == plan.initialHp[t]
  }

  ghost predicate HpSound(plan: Plan, s: Foster) {
    forall a <- s.actors :: var v := s.actors[a];
      && v.template in plan.initialHp && v.maximum == plan.initialHp[v.template]
      && 0.0 <= v.hp <= v.maximum && plan.round(v.hp) == v.hp
  }

  lemma HitSound(plan: Plan, v: Actor, damage: real, hp: real)
    requires FloatLike(plan) && 0.0 <= v.hp <= v.maximum && plan.round(v.hp) == v.hp
    requires plan.round(v.maximum) == v.maximum && AfterHit(plan, v, damage, hp)
    ensures 0.0 <= hp <= v.maximum && plan.round(hp) == hp
    ensures damage >= v.hp ==> hp == 0.0
    ensures damage >= 0.0 ==> hp <= v.hp
    ensures damage <= 0.0 ==> v.hp <= hp
    ensures v.hp - damage >= v.maximum ==> hp == v.maximum
  {
    var d := v.hp - damage;
    if 0.0 <= d <= v.maximum {
      assert plan.round(0.0) <= plan.round(d) <= plan.round(v.maximum);
      if damage >= 0.0 {
        assert plan.round(d) <= plan.round(v.hp);
      }
      if damage <= 0.0 {
        assert plan.round(v.hp) <= plan.round(d);
      }
    }
  }

  lemma OneMoreSound(plan: Plan, s: Foster, a: ActorId, v: Actor)
    requires HpSound(plan, s) && v.template in plan.initialHp && v.maximum == plan.initialHp[v.template]
    requires 0.0 <= v.hp <= v.maximum && plan.round(v.hp) == v.hp
    ensures HpSound(plan, s.(actors := s.actors[a := v]))
  {
  }

  lemma SameActors(plan: Plan, s: Foster, x: Foster)
    requires HpSound(plan, s) && x.actors == s.actors
    ensures HpSound(plan, x)
  {
  }

  lemma RelaySound(plan: Plan, s: Foster, e: Event)
    requires Shaped(plan, s) && FloatLike(plan) && HpSound(plan, s) && e.Relays?
    ensures HpSound(plan, Step(plan, s, e))
  {
    RelaysIff(plan, s, e.sender, e.actor, e.sequence, e.damage);
    var x := Step(plan, s, e);
    if Alive(s, e.actor) && NewForActor(s, e.sender, e.actor, e.sequence) && e.damage.Some? {
      var v := s.actors[e.actor];
      hide Step, NewForActor, AfterHit;
      HitSound(plan, v, e.damage.value, x.actors[e.actor].hp);
      OneMoreSound(plan, s, e.actor, v.(hp := x.actors[e.actor].hp));
      hide HpSound;
      SameActors(plan, s.(actors := x.actors), x);
    } else {
      hide Step, NewForActor, AfterHit, HpSound;
      SameActors(plan, s, x);
    }
  }

  lemma VanishSound(plan: Plan, s: Foster, e: Event)
    requires Shaped(plan, s) && HpSound(plan, s) && e.Vanishes?
    ensures HpSound(plan, Step(plan, s, e))
  {
    VanishesIff(plan, s, e.sender, e.actor, e.sequence, e.members);
    var x := Step(plan, s, e);
    hide Step, NewForActor;
    if x != s {
      OneMoreSound(plan, s, e.actor, s.actors[e.actor].(active := false, sequence := e.sequence));
      hide HpSound;
      SameActors(plan, s.(actors := x.actors), x);
    }
  }

  lemma AppearSound(plan: Plan, s: Foster, e: Event)
    requires Shaped(plan, s) && FloatLike(plan) && HpSound(plan, s) && e.Appears?
    ensures HpSound(plan, Step(plan, s, e))
  {
    AppearsIff(plan, s, e.sender, e.actor, e.sequence, e.spawn, e.members);
    var x := Step(plan, s, e);
    hide Step, NewForActor, OnlyTaker, Alive;
    if x != s {
      OneMoreSound(plan, s, e.actor, x.actors[e.actor]);
      hide HpSound;
      SameActors(plan, s.(actors := x.actors), x);
    }
  }

  lemma StepSound(plan: Plan, s: Foster, e: Event)
    requires Shaped(plan, s) && FloatLike(plan) && HpSound(plan, s)
    ensures HpSound(plan, Step(plan, s, e))
  {
    match e {
      case Appears(_, _, _, _, _) => AppearSound(plan, s, e);
      case Vanishes(_, _, _, _) => VanishSound(plan, s, e);
      case Relays(_, _, _, _) => RelaySound(plan, s, e);
      case _ => SameActors(plan, s, Step(plan, s, e));
    }
    hide *;
  }

  /** In every reachable battle HP lies between zero and the template's initial HP. */
  lemma {:induction false} RunSound(plan: Plan, events: seq<Event>)
    requires Ready(plan) && FloatLike(plan)
    ensures HpSound(plan, Run(plan, events))
  {
    if events != [] {
      var before := events[..|events| - 1];
      RunSound(plan, before);
      StepSound(plan, Run(plan, before), events[|events| - 1]);
      hide Step, HpSound;
    }
  }

  /**
   * A hit on a living actor of a reachable battle: enough damage kills, damage never heals and healing never hurts,
   * and nobody else's HP changes.
   */
  lemma HitsHurt(plan: Plan, events: seq<Event>, sender: nat, a: ActorId, sequence: nat, damage: real)
    requires Ready(plan) && FloatLike(plan)
    requires var s := Run(plan, events); Alive(s, a) && NewForActor(s, sender, a, sequence)
    ensures var s, x := Run(plan, events), Step(plan, Run(plan, events), Relays(sender, a, sequence, Some(damage)));
      && a in x.actors
      && (damage >= s.actors[a].hp ==> x.actors[a].hp == 0.0)
      && (damage >= 0.0 ==> x.actors[a].hp <= s.actors[a].hp)
      && (damage <= 0.0 ==> x.actors[a].hp >= s.actors[a].hp)
      && (0.0 <= s.actors[a].hp - damage <= s.actors[a].maximum ==>
            x.actors[a].hp == plan.round(s.actors[a].hp - damage))
      && x.actors == s.actors[a := s.actors[a].(hp := x.actors[a].hp)]
  {
    RunSound(plan, events);
    var s := Run(plan, events);
    RelaysIff(plan, s, sender, a, sequence, Some(damage));
    hide Step, Run, NewForActor;
    HitSound(plan, s.actors[a], damage, Step(plan, s, Relays(sender, a, sequence, Some(damage))).actors[a].hp);
  }

  // ---------------------------------------------------------------- the hits of one life

  /** The hits an actor took since it last appeared, in order. */
  ghost function Hits(plan: Plan, events: seq<Event>, a: ActorId): seq<real>
    requires Ready(plan)
  {
    if events == [] then []
    else
      var before, e := events[..|events| - 1], events[|events| - 1];
      var s := Run(plan, before);
      if e.Appears? && e.actor == a && Step(plan, s, e) != s then []
      else if e.Relays? && e.actor == a && e.damage.Some? && Alive(s, a) && NewForActor(s, e.sender, a, e.sequence)
      then Hits(plan, before, a) + [e.damage.value]
      else Hits(plan, before, a)
  }

  function Sum(hits: seq<real>): real {
    if hits == [] then 0.0 else Sum(hits[..|hits| - 1]) + hits[|hits| - 1]
  }

  /** Rounding changes none of the HPs the hits lead through, as with whole numbers of moderate size. */
  ghost predicate Exact(plan: Plan, maximum: real, hits: seq<real>) {
    forall k :: 0 <= k <= |hits| ==> Kept(plan, maximum - Sum(hits[..k]))
  }

  ghost predicate Kept(plan: Plan, hp: real) { 0.0 <= hp ==> plan.round(hp) == hp }

  /** On the way no hit went beyond zero or the maximum. */
  ghost predicate Unclamped(maximum: real, hits: seq<real>) {
    forall k :: 0 <= k <= |hits| ==> 0.0 <= maximum - Sum(hits[..k]) <= maximum
  }

  ghost predicate OnlyDamage(hits: seq<real>) { forall i :: 0 <= i < |hits| ==> hits[i] >= 0.0 }

  /** HP told from the hits alone, where they determine it simply. */
  ghost predicate Told(plan: Plan, v: Actor, hits: seq<real>) {
    && 0.0 <= v.hp <= v.maximum && plan.round(v.maximum) == v.maximum
    && (Exact(plan, v.maximum, hits) ==>
          && (Unclamped(v.maximum, hits) ==> v.hp == v.maximum - Sum(hits))
          && (OnlyDamage(hits) && Sum(hits) < v.maximum ==> v.hp == v.maximum - Sum(hits))
          && (OnlyDamage(hits) && Sum(hits) >= v.maximum ==> v.hp == 0.0))
  }

  lemma SumGrows(hits: seq<real>, d: real)
    ensures Sum(hits + [d]) == Sum(hits) + d
    ensures OnlyDamage(hits + [d]) <==> OnlyDamage(hits) && d >= 0.0
  {
    assert (hits + [d])[..|hits|] == hits;
    assert forall i :: 0 <= i < |hits| ==> (hits + [d])[i] == hits[i];
    assert (hits + [d])[|hits|] == d;
  }

  lemma UnclampedGrows(maximum: real, hits: seq<real>, d: real)
    requires Unclamped(maximum, hits + [d])
    ensures Unclamped(maximum, hits) && 0.0 <= maximum - Sum(hits) - d <= maximum
  {
    var more := hits + [d];
    SumGrows(hits, d);
    assert more[..|more|] == more;
    forall k | 0 <= k <= |hits|
      ensures 0.0 <= maximum - Sum(hits[..k]) <= maximum
    {
      assert more[..k] == hits[..k];
    }
  }

  lemma ExactGrows(plan: Plan, maximum: real, hits: seq<real>, d: real)
    requires Exact(plan, maximum, hits + [d])
    ensures Exact(plan, maximum, hits) && Kept(plan, maximum - Sum(hits) - d)
  {
    var more := hits + [d];
    SumGrows(hits, d);
    hide Sum, Kept;
    assert more[..|more|] == more;
    forall k | 0 <= k <= |hits|
      ensures Kept(plan, maximum - Sum(hits[..k]))
    {
      assert more[..k] == hits[..k];
    }
  }

  lemma ToldAfterHit(plan: Plan, v: Actor, hits: seq<real>, d: real, hp: real)
    requires FloatLike(plan) && Told(plan, v, hits) && AfterHit(plan, v, d, hp)
    ensures Told(plan, v.(hp := hp), hits + [d])
  {
    SumGrows(hits, d);
    assert 0.0 <= hp <= v.maximum;
    if Exact(plan, v.maximum, hits + [d]) {
      ExactGrows(plan, v.maximum, hits, d);
      if Unclamped(v.maximum, hits + [d]) {
        UnclampedGrows(v.maximum, hits, d);
      }
    }
    hide Sum, Unclamped, OnlyDamage, Exact;
  }

  lemma ToldAtBirth(plan: Plan, v: Actor)
    requires v.hp == v.maximum >= 0.0 && plan.round(v.maximum) == v.maximum
    ensures Told(plan, v, [])
  {
    assert Sum([]) == 0.0;
  }

  ghost predicate AllTold(plan: Plan, events: seq<Event>)
    requires Ready(plan)
  {
    forall a <- Run(plan, events).actors :: Told(plan, Run(plan, events).actors[a], Hits(plan, events, a))
  }

  lemma StepTold(plan: Plan, s: Foster, e: Event, a: ActorId, hits: seq<real>)
    requires Shaped(plan, s) && FloatLike(plan) && (a in s.actors ==> Told(plan, s.actors[a], hits))
    requires a in Step(plan, s, e).actors
    ensures var next := if e.Appears? && e.actor == a && Step(plan, s, e) != s then []
                        else if e.Relays? && e.actor == a && e.damage.Some? && Alive(s, a)
                                && NewForActor(s, e.sender, a, e.sequence) then hits + [e.damage.value]
                        else hits;
      Told(plan, Step(plan, s, e).actors[a], next)
  {
    hide Told;
    match e {
      case Appears(sender, b, sequence, spawn, members) =>
        AppearsIff(plan, s, sender, b, sequence, spawn, members);
        hide Step, OnlyTaker, NewForActor;
        if b == a && Step(plan, s, e) != s {
          ToldAtBirth(plan, Step(plan, s, e).actors[a]);
        }
      case Vanishes(sender, b, sequence, members) =>
        VanishesIff(plan, s, sender, b, sequence, members);
        hide Step, NewForActor;
        if a in s.actors {
          ToldElsewhere(plan, s.actors[a], Step(plan, s, e).actors[a], hits);
        }
      case Relays(sender, b, sequence, damage) =>
        RelaysIff(plan, s, sender, b, sequence, damage);
        hide Step, NewForActor, AfterHit;
        if b == a && damage.Some? && Alive(s, a) && NewForActor(s, sender, a, sequence) {
          ToldAfterHit(plan, s.actors[a], hits, damage.value, Step(plan, s, e).actors[a].hp);
        }
      case _ =>
        hide NewForActor;
    }
  }

  lemma ToldElsewhere(plan: Plan, v: Actor, x: Actor, hits: seq<real>)
    requires Told(plan, v, hits) && x.hp == v.hp && x.maximum == v.maximum
    ensures Told(plan, x, hits)
  {
  }

  /** In every reachable battle the HP of an actor is its initial HP minus the hits of its present life. */
  lemma {:induction false} HpIsInitialMinusHits(plan: Plan, events: seq<Event>)
    requires Ready(plan) && FloatLike(plan)
    ensures AllTold(plan, events)
  {
    if events != [] {
      var before, e := events[..|events| - 1], events[|events| - 1];
      HpIsInitialMinusHits(plan, before);
      var s := Run(plan, before);
      forall a | a in Run(plan, events).actors
        ensures Told(plan, Run(plan, events).actors[a], Hits(plan, events, a))
      {
        StepTold(plan, s, e, a, Hits(plan, before, a));
        hide Step, Told, NewForActor, Alive;
      }
    }
  }

  /**
   * A group all of whose planned actors have appeared, none of them removed alive, is complete once every one that
   * still stands there has taken at least its initial HP in damage.
   */
  lemma SlainGroupIsComplete(plan: Plan, events: seq<Event>, g: nat)
    requires Ready(plan) && FloatLike(plan) && g < |plan.groups|
    requires var s := Run(plan, events);
      && s.spawned[g] == |plan.groups[g].spawns| && RemovedAlive(plan, events, g) == 0
      && forall a <- s.actors :: s.actors[a].active && s.actors[a].group == g ==>
           var hits := Hits(plan, events, a);
           Exact(plan, s.actors[a].maximum, hits) && OnlyDamage(hits) && Sum(hits) >= s.actors[a].maximum
    ensures Finished(plan, Run(plan, events), g) && GroupComplete(plan, Run(plan, events), g)
  {
    HpIsInitialMinusHits(plan, events);
    SpawnsConserved(plan, events, g);
    var s := Run(plan, events);
    FinishedIff(plan, s, g);
    forall a | a in ActiveOf(s.actors, g)
      ensures s.actors[a].hp == 0.0
    {
      assert Told(plan, s.actors[a], Hits(plan, events, a));
    }
    hide Finished, Run, Hits, OnlyDamage, Sum, Exact;
  }
}
