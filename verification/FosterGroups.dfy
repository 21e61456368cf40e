/** The spawn ledger of the Mode10 battle: planned groups, triggered boxes, corpses and completion. */
module FosterGroups {
  import opened MapSums

  type ActorId = nat
  type Point = (real, real, real)

  const MAX_ACTORS: nat := 100
  const MAX_BLOCKS: nat := 1024

  datatype Option<+T> = None | Some(value: T)

  datatype Spawn = Spawn(template: nat, position: Point, direction: nat)

  datatype Box = Box(low: Point, high: Point) {
    predicate Holds(p: Point) {
      low.0 <= p.0 <= high.0 && low.1 <= p.1 <= high.1 && low.2 <= p.2 <= high.2
    }
  }

  datatype Group = Group(spawns: seq<Spawn>, trigger: Box, subLimit: nat, groupLimit: nat, block: Option<nat>)

  /**
   * The qualified script: groups, initial HP per template and the places of the battle's players; `round` is
   * single-precision rounding.
   */
  datatype Plan = Plan(groups: seq<Group>, initialHp: map<nat, real>, places: seq<(Point, nat)>, globalLimit: nat,
                       round: real -> real)
  {
    /** Every planned spawn names a template with an initial HP. */
    ghost predicate Qualified() {
      forall g <- groups, s <- g.spawns :: s.template in initialHp
    }
  }

  datatype Actor = Actor(active: bool, sequence: nat, template: nat, group: nat, hp: real, maximum: real)

  datatype Block = Block(sequence: nat, raw: Option<nat>)

  datatype Foster = Foster(
    actors: map<ActorId, Actor>, versions: map<(nat, ActorId), nat>, blocks: map<nat, Block>,
    positions: Option<nat>, walks: map<nat, (nat, nat)>, finished: bool, finishSequence: int,
    spawned: seq<nat>, retired: seq<nat>, triggered: seq<bool>)

  function NewFoster(plan: Plan): Foster {
    var n := |plan.groups|;
    Foster(map[], map[], map[], None, map[], false, -1, seq(n, i => 0), seq(n, i => 0), seq(n, i => false))
  }

  datatype Event =
    | Appears(sender: nat, actor: ActorId, sequence: nat, spawn: Spawn, members: set<ActorId>)
    | Vanishes(sender: nat, actor: ActorId, sequence: nat, members: set<ActorId>)
    | Relays(sender: nat, actor: ActorId, sequence: nat, damage: Option<real>)
    | Blocks(key: nat, opens: bool, block: Block)
    | Places(rows: seq<(Point, nat)>, raw: nat)
    | Walks(uid: nat, sequence: nat, raw: nat, point: Point)
    | Finishes(sequence: nat)

  ghost predicate Shaped(plan: Plan, s: Foster) {
    && |s.spawned| == |s.retired| == |s.triggered| == |plan.groups| && plan.Qualified()
    && (forall i :: 0 <= i < |plan.groups| ==> s.spawned[i] <= |plan.groups[i].spawns|)
    && forall a <- s.actors :: s.actors[a].group < |plan.groups|
  }

  predicate IsActive(actors: map<ActorId, Actor>, a: ActorId) {
    a in actors && actors[a].active
  }

  /** Active actors, corpses included. */
  function ActiveSet(actors: map<ActorId, Actor>): set<ActorId> {
    set a | a in actors && actors[a].active
  }

  function ActiveOf(actors: map<ActorId, Actor>, g: nat): set<ActorId> {
    set a | a in actors && actors[a].active && actors[a].group == g
  }

  function LivingOf(actors: map<ActorId, Actor>, g: nat): set<ActorId> {
    set a | a in actors && actors[a].active && actors[a].group == g && actors[a].hp > 0.0
  }

  function Version(s: Foster, sender: nat, a: ActorId): int {
    if (sender, a) in s.versions then s.versions[(sender, a)] else -1
  }

  predicate Newer(s: Foster, sender: nat, a: ActorId, sequence: nat, members: set<ActorId>) {
    && a != 0 && a !in members
    && (a in s.actors ==> sequence > s.actors[a].sequence && sequence > Version(s, sender, a))
  }

  function Min(a: nat, b: nat): nat { if a < b then a else b }

  /** Is this exactly the next planned spawn of a triggered group that has room? */
  predicate Fits(plan: Plan, s: Foster, spawn: Spawn, g: nat)
    requires Shaped(plan, s) && g < |plan.groups|
  {
    var group := plan.groups[g];
    && s.triggered[g] && |LivingOf(s.actors, g)| < Min(group.subLimit, group.groupLimit)
    && s.spawned[g] < |group.spawns| && group.spawns[s.spawned[g]] == spawn
  }

  /** The groups below n a spawn could belong to. */
  function Matches(plan: Plan, s: Foster, spawn: Spawn, n: nat): (m: seq<nat>)
    requires Shaped(plan, s) && n <= |plan.groups|
    ensures forall g <- m :: g < n && Fits(plan, s, spawn, g)
  {
    if n == 0 then []
    else Matches(plan, s, spawn, n - 1) + if Fits(plan, s, spawn, n - 1) then [n - 1] else []
  }

  /** The one group an accepted spawn belongs to. */
  function Chosen(plan: Plan, s: Foster, spawn: Spawn): (g: nat)
    requires Shaped(plan, s) && |Matches(plan, s, spawn, |plan.groups|)| == 1
    ensures g < |plan.groups| && Fits(plan, s, spawn, g)
  {
    var m := Matches(plan, s, spawn, |plan.groups|);
    assert m[0] in m;
    m[0]
  }

  predicate AppearAccepted(plan: Plan, s: Foster, sender: nat, a: ActorId, sequence: nat, spawn: Spawn,
                           members: set<ActorId>)
    requires Shaped(plan, s)
  {
    && Newer(s, sender, a, sequence, members) && !s.finished && !IsActive(s.actors, a)
    && (a in s.actors || |s.actors| < MAX_ACTORS) && |ActiveSet(s.actors)| < plan.globalLimit
    && |Matches(plan, s, spawn, |plan.groups|)| == 1
  }

  predicate VanishAccepted(s: Foster, sender: nat, a: ActorId, sequence: nat, members: set<ActorId>) {
    Newer(s, sender, a, sequence, members) && IsActive(s.actors, a)
  }

  predicate RelayAccepted(s: Foster, sender: nat, a: ActorId, sequence: nat) {
    IsActive(s.actors, a) && sequence > Version(s, sender, a) && sequence > s.actors[a].sequence
  }

  /** All planned actors have appeared, and every one of them is dead, lying there or retired. */
  predicate GroupComplete(plan: Plan, s: Foster, g: nat)
    requires Shaped(plan, s) && g < |plan.groups|
  {
    && s.spawned[g] == |plan.groups[g].spawns|
    && (forall a <- ActiveOf(s.actors, g) :: s.actors[a].hp == 0.0)
    && s.retired[g] + |ActiveOf(s.actors, g)| == |plan.groups[g].spawns|
  }

  predicate Complete(plan: Plan, s: Foster)
    requires Shaped(plan, s)
  {
    s.finished && forall g :: 0 <= g < |plan.groups| ==> GroupComplete(plan, s, g)
  }

  predicate BlockAccepted(plan: Plan, s: Foster, key: nat, opens: bool, b: Block)
    requires Shaped(plan, s)
  {
    && (opens ==> forall g :: 0 <= g < |plan.groups| && plan.groups[g].block == Some(key) ==> GroupComplete(plan, s, g))
    && if key in s.blocks then b.sequence > s.blocks[key].sequence else |s.blocks| < MAX_BLOCKS
  }

  predicate PlaceAccepted(plan: Plan, s: Foster, rows: seq<(Point, nat)>) {
    multiset(rows) == multiset(plan.places) && s.positions.None?
  }

  predicate WalkAccepted(s: Foster, uid: nat, sequence: nat, raw: nat) {
    uid in s.walks ==> sequence > s.walks[uid].0 || (sequence == s.walks[uid].0 && raw != s.walks[uid].1)
  }

  predicate Accepted(plan: Plan, s: Foster, e: Event)
    requires Shaped(plan, s)
  {
    match e
    case Appears(sender, a, sequence, spawn, members) => AppearAccepted(plan, s, sender, a, sequence, spawn, members)
    case Vanishes(sender, a, sequence, members) => VanishAccepted(s, sender, a, sequence, members)
    case Relays(sender, a, sequence, _) => RelayAccepted(s, sender, a, sequence)
    case Blocks(key, opens, b) => BlockAccepted(plan, s, key, opens, b)
    case Places(rows, _) => PlaceAccepted(plan, s, rows)
    case Walks(uid, sequence, raw, _) => WalkAccepted(s, uid, sequence, raw)
    case Finishes(sequence) => !s.finished && sequence > s.finishSequence
  }

  function Triggered(plan: Plan, triggered: seq<bool>, p: Point): seq<bool>
    requires |triggered| == |plan.groups|
  {
    seq(|triggered|, i requires 0 <= i < |triggered| => triggered[i] || plan.groups[i].trigger.Holds(p))
  }

  function TriggeredAll(plan: Plan, triggered: seq<bool>, rows: seq<(Point, nat)>): (t: seq<bool>)
    requires |triggered| == |plan.groups|
    ensures |t| == |triggered| && forall i :: 0 <= i < |t| ==> triggered[i] ==> t[i]
  {
    if rows == [] then triggered
    else Triggered(plan, TriggeredAll(plan, triggered, rows[..|rows| - 1]), rows[|rows| - 1].0)
  }

  /** Versions no longer name an actor that has just appeared or vanished. */
  function Unversioned(versions: map<(nat, ActorId), nat>, a: ActorId): map<(nat, ActorId), nat> {
    map k | k in versions && k.1 != a :: versions[k]
  }

  function Lesser(x: real, y: real): real { if x < y then x else y }

  function Greater(x: real, y: real): real { if x > y then x else y }

  /** The received-event projection of HP: damage or healing, kept within zero and the maximum, rounded. */
  function Hurt(plan: Plan, actor: Actor, damage: real): Actor {
    actor.(hp := plan.round(Lesser(actor.maximum, Greater(0.0, actor.hp - damage))))
  }

  function Appeared(plan: Plan, s: Foster, a: ActorId, sequence: nat, spawn: Spawn): Actor
    requires Shaped(plan, s) && |Matches(plan, s, spawn, |plan.groups|)| == 1
  {
    var g := Chosen(plan, s, spawn);
    assert plan.groups[g].spawns[s.spawned[g]] in plan.groups[g].spawns && plan.groups[g] in plan.groups;
    var hp := plan.initialHp[spawn.template];
    Actor(true, sequence, spawn.template, g, hp, hp)
  }

  function Step(plan: Plan, s: Foster, e: Event): Foster
    requires Shaped(plan, s)
  {
    if !Accepted(plan, s, e) then s
    else
      match e
      case Appears(_, a, sequence, spawn, _) =>
        var g := Chosen(plan, s, spawn);
        s.(spawned := s.spawned[g := s.spawned[g] + 1], actors := s.actors[a := Appeared(plan, s, a, sequence, spawn)],
           versions := Unversioned(s.versions, a))
      case Vanishes(_, a, sequence, _) =>
        var old_ := s.actors[a];
        s.(retired := if old_.hp == 0.0 then s.retired[old_.group := s.retired[old_.group] + 1] else s.retired,
           actors := s.actors[a := old_.(active := false, sequence := sequence)],
           versions := Unversioned(s.versions, a))
      case Relays(sender, a, sequence, damage) =>
        s.(versions := s.versions[(sender, a) := sequence],
           actors := if damage.None? then s.actors
                     else s.actors[a := Hurt(plan, s.actors[a], damage.value)])
      case Blocks(key, _, b) => s.(blocks := s.blocks[key := b])
      case Places(rows, raw) => s.(positions := Some(raw), triggered := TriggeredAll(plan, s.triggered, rows))
      case Walks(uid, sequence, raw, point) =>
        s.(walks := s.walks[uid := (sequence, raw)], triggered := Triggered(plan, s.triggered, point))
      case Finishes(sequence) => s.(finished := true, finishSequence := sequence)
  }

  // ---------------------------------------------------------------- sets of actors

  lemma ActiveAfter(actors: map<ActorId, Actor>, a: ActorId, v: Actor)
    ensures ActiveSet(actors[a := v]) == (if v.active then ActiveSet(actors) + {a} else ActiveSet(actors) - {a})
    ensures |actors[a := v]| == |actors| + if a in actors then 0 else 1
  {
    KeysAfter(actors, a, v);
    SameSet(ActiveSet(actors[a := v]), if v.active then ActiveSet(actors) + {a} else ActiveSet(actors) - {a});
  }

  lemma KeysAfter(actors: map<ActorId, Actor>, a: ActorId, v: Actor)
    ensures |actors[a := v]| == |actors| + if a in actors then 0 else 1
  {
    assert actors[a := v].Keys == actors.Keys + {a};
  }

  lemma ActiveOfAfter(actors: map<ActorId, Actor>, a: ActorId, v: Actor, g: nat)
    ensures ActiveOf(actors[a := v], g)
         == if v.active && v.group == g then ActiveOf(actors, g) + {a} else ActiveOf(actors, g) - {a}
  {
  }

  lemma StepShaped(plan: Plan, s: Foster, e: Event)
    requires Shaped(plan, s)
    ensures Shaped(plan, Step(plan, s, e))
  {
    hide ActiveSet, ActiveOf, LivingOf, Unversioned;
  }

  // ---------------------------------------------------------------- every run

  ghost predicate Ready(plan: Plan) {
    Shaped(plan, NewFoster(plan))
  }

  ghost function Run(plan: Plan, events: seq<Event>): (s: Foster)
    requires Ready(plan)
    ensures Shaped(plan, s)
  {
    if events == [] then NewFoster(plan)
    else
      var before := Run(plan, events[..|events| - 1]);
      StepShaped(plan, before, events[|events| - 1]);
      Step(plan, before, events[|events| - 1])
  }

  /** Accepted spawns of a group, in order. */
  ghost function SpawnLog(plan: Plan, events: seq<Event>, g: nat): seq<Spawn>
    requires Ready(plan)
  {
    if events == [] then []
    else
      var s, e := Run(plan, events[..|events| - 1]), events[|events| - 1];
      SpawnLog(plan, events[..|events| - 1], g)
      + if e.Appears? && Accepted(plan, s, e) && Chosen(plan, s, e.spawn) == g then [e.spawn] else []
  }

  /** Accepted removals of actors of a group whose projected HP was not zero. */
  ghost function RemovedAlive(plan: Plan, events: seq<Event>, g: nat): nat
    requires Ready(plan)
  {
    if events == [] then 0
    else
      var s, e := Run(plan, events[..|events| - 1]), events[|events| - 1];
      RemovedAlive(plan, events[..|events| - 1], g)
      + if e.Vanishes? && Accepted(plan, s, e) && s.actors[e.actor].group == g && s.actors[e.actor].hp != 0.0
        then 1 else 0
  }

  lemma StepFollowsPlan(plan: Plan, s: Foster, e: Event, g: nat)
    requires Shaped(plan, s) && g < |plan.groups|
    ensures var x := Step(plan, s, e);
      && |x.spawned| == |plan.groups|
      && if e.Appears? && Accepted(plan, s, e) && Chosen(plan, s, e.spawn) == g
         then s.spawned[g] < |plan.groups[g].spawns| && plan.groups[g].spawns[s.spawned[g]] == e.spawn
              && x.spawned[g] == s.spawned[g] + 1
         else x.spawned[g] == s.spawned[g]
  {
    hide ActiveSet, ActiveOf, LivingOf, Unversioned, Newer, Matches;
  }

  /** The k-th accepted spawn of a group is its k-th planned entry, and the counter tells how many there were. */
  lemma {:induction false} SpawnsFollowPlan(plan: Plan, events: seq<Event>, g: nat)
    requires Ready(plan) && g < |plan.groups|
    ensures SpawnLog(plan, events, g) == plan.groups[g].spawns[..Run(plan, events).spawned[g]]
  {
    if events != [] {
      var before, e := events[..|events| - 1], events[|events| - 1];
      SpawnsFollowPlan(plan, before, g);
      var s := Run(plan, before);
      StepFollowsPlan(plan, s, e, g);
      if e.Appears? && Accepted(plan, s, e) && Chosen(plan, s, e.spawn) == g {
        OneMore(plan.groups[g].spawns, s.spawned[g]);
      }
      hide Step, Accepted, Chosen, Shaped;
    }
  }

  lemma OneMore(spawns: seq<Spawn>, n: nat)
    requires n < |spawns|
    ensures spawns[..n + 1] == spawns[..n] + [spawns[n]]
  {
  }

  /** What one event adds to the removals of a group's living actors. */
  predicate AliveRemoval(plan: Plan, s: Foster, e: Event, g: nat)
    requires Shaped(plan, s)
  {
    e.Vanishes? && Accepted(plan, s, e) && s.actors[e.actor].group == g && s.actors[e.actor].hp != 0.0
  }

  lemma AppearConserves(plan: Plan, s: Foster, e: Event, g: nat)
    requires Shaped(plan, s) && g < |plan.groups| && e.Appears? && Accepted(plan, s, e)
    ensures var x := Step(plan, s, e);
      && |x.spawned| == |x.retired| == |plan.groups|
      && x.spawned[g] - |ActiveOf(x.actors, g)| == s.spawned[g] - |ActiveOf(s.actors, g)| && x.retired == s.retired
  {
    var v := Appeared(plan, s, e.actor, e.sequence, e.spawn);
    ActiveOfAfter(s.actors, e.actor, v, g);
    assert e.actor !in ActiveOf(s.actors, g);
    hide ActiveOf, ActiveSet, Fits, Unversioned, Newer;
  }

  lemma VanishConserves(plan: Plan, s: Foster, e: Event, g: nat)
    requires Shaped(plan, s) && g < |plan.groups| && e.Vanishes? && Accepted(plan, s, e)
    ensures var x := Step(plan, s, e);
      && |x.retired| == |plan.groups| && x.spawned == s.spawned
      && x.retired[g] + |ActiveOf(x.actors, g)| + (if AliveRemoval(plan, s, e, g) then 1 else 0)
         == s.retired[g] + |ActiveOf(s.actors, g)|
  {
    var a := e.actor;
    ActiveOfAfter(s.actors, a, s.actors[a].(active := false, sequence := e.sequence), g);
    assert s.actors[a].group == g <==> a in ActiveOf(s.actors, g);
    hide ActiveOf, ActiveSet, Unversioned, Newer;
  }

  lemma RelayConserves(plan: Plan, s: Foster, e: Event, g: nat)
    requires Shaped(plan, s) && g < |plan.groups| && e.Relays? && Accepted(plan, s, e)
    ensures var x := Step(plan, s, e);
      x.spawned == s.spawned && x.retired == s.retired && ActiveOf(x.actors, g) == ActiveOf(s.actors, g)
  {
    if e.damage.Some? {
      var a := e.actor;
      ActiveOfAfter(s.actors, a, Hurt(plan, s.actors[a], e.damage.value), g);
      assert s.actors[a].group == g <==> a in ActiveOf(s.actors, g);
      hide ActiveOf, ActiveSet;
      assert s.actors[a].group == g ==> ActiveOf(s.actors, g) + {a} == ActiveOf(s.actors, g);
      assert s.actors[a].group != g ==> ActiveOf(s.actors, g) - {a} == ActiveOf(s.actors, g);
    }
  }

  lemma StepConserves(plan: Plan, s: Foster, e: Event, g: nat)
    requires Shaped(plan, s) && g < |plan.groups|
    ensures var x := Step(plan, s, e);
      && |x.spawned| == |x.retired| == |plan.groups|
      && x.spawned[g] - x.retired[g] - |ActiveOf(x.actors, g)|
         == s.spawned[g] - s.retired[g] - |ActiveOf(s.actors, g)| + if AliveRemoval(plan, s, e, g) then 1 else 0
  {
    if Accepted(plan, s, e) {
      match e {
        case Appears(_, _, _, _, _) =>
          AppearConserves(plan, s, e, g);
          hide Step, ActiveOf, Accepted;
        case Vanishes(_, _, _, _) =>
          VanishConserves(plan, s, e, g);
          hide Step, ActiveOf, Accepted, AliveRemoval;
          StepKeepsSpawned(plan, s, e);
        case Relays(_, _, _, _) =>
          RelayConserves(plan, s, e, g);
          hide Step, ActiveOf, Accepted;
        case _ =>
          hide ActiveOf, Accepted;
      }
    } else {
      hide ActiveOf, Accepted;
    }
  }

  lemma StepKeepsSpawned(plan: Plan, s: Foster, e: Event)
    requires Shaped(plan, s)
    ensures |Step(plan, s, e).spawned| == |plan.groups|
  {
    StepShaped(plan, s, e);
  }

  /** Conservation: in every group, spawned = retired + active + removed while alive. */
  lemma {:induction false} SpawnsConserved(plan: Plan, events: seq<Event>, g: nat)
    requires Ready(plan) && g < |plan.groups|
    ensures var s := Run(plan, events);
      s.spawned[g] == s.retired[g] + |ActiveOf(s.actors, g)| + RemovedAlive(plan, events, g)
  {
    if events == [] {
      assert ActiveOf(map[], g) == {};
    } else {
      var before := events[..|events| - 1];
      SpawnsConserved(plan, before, g);
      StepConserves(plan, Run(plan, before), events[|events| - 1], g);
      hide Step, ActiveOf;
    }
  }

  /** Active actors, corpses included, never exceed the global limit; known actors never exceed theirs. */
  lemma {:induction false} ActorsBounded(plan: Plan, events: seq<Event>)
    requires Ready(plan)
    ensures |ActiveSet(Run(plan, events).actors)| <= plan.globalLimit && |Run(plan, events).actors| <= MAX_ACTORS
  {
    if events == [] {
      assert ActiveSet(map[]) == {};
    } else {
      var before, e := events[..|events| - 1], events[|events| - 1];
      ActorsBounded(plan, before);
      StepBounded(plan, Run(plan, before), e);
      hide Step, ActiveSet;
    }
  }

  lemma StepBounded(plan: Plan, s: Foster, e: Event)
    requires Shaped(plan, s) && |ActiveSet(s.actors)| <= plan.globalLimit && |s.actors| <= MAX_ACTORS
    ensures |ActiveSet(Step(plan, s, e).actors)| <= plan.globalLimit && |Step(plan, s, e).actors| <= MAX_ACTORS
  {
    if Accepted(plan, s, e) {
      match e {
        case Appears(_, a, sequence, spawn, _) =>
          ActiveAfter(s.actors, a, Step(plan, s, e).actors[a]);
        case Vanishes(_, a, sequence, _) =>
          ActiveAfter(s.actors, a, s.actors[a].(active := false, sequence := sequence));
          assert a in ActiveSet(s.actors);
        case Relays(_, a, _, damage) =>
          if damage.Some? {
            ActiveAfter(s.actors, a, Hurt(plan, s.actors[a], damage.value));
            assert ActiveSet(s.actors) + {a} == ActiveSet(s.actors);
          }
        case _ =>
      }
    }
  }

  /** A complete group has spawned its whole plan and lost nobody alive. */
  lemma CompleteMeansNoneEscaped(plan: Plan, events: seq<Event>, g: nat)
    requires Ready(plan) && g < |plan.groups| && GroupComplete(plan, Run(plan, events), g)
    ensures SpawnLog(plan, events, g) == plan.groups[g].spawns
    ensures RemovedAlive(plan, events, g) == 0
    ensures forall a <- ActiveOf(Run(plan, events).actors, g) :: Run(plan, events).actors[a].hp == 0.0
  {
    SpawnsFollowPlan(plan, events, g);
    SpawnsConserved(plan, events, g);
  }

  /** A gate only opens behind groups that have appeared in full and of which nobody was removed alive. */
  lemma GatesOpenBehindTheDead(plan: Plan, events: seq<Event>, key: nat, b: Block, g: nat)
    requires Ready(plan) && g < |plan.groups| && plan.groups[g].block == Some(key)
    requires Accepted(plan, Run(plan, events), Blocks(key, true, b))
    ensures SpawnLog(plan, events, g) == plan.groups[g].spawns && RemovedAlive(plan, events, g) == 0
  {
    CompleteMeansNoneEscaped(plan, events, g);
  }

  /** A finished battle is complete only when every group's plan has appeared and nobody was removed alive. */
  lemma CompleteBattle(plan: Plan, events: seq<Event>)
    requires Ready(plan) && Complete(plan, Run(plan, events))
    ensures forall g :: 0 <= g < |plan.groups| ==>
      SpawnLog(plan, events, g) == plan.groups[g].spawns && RemovedAlive(plan, events, g) == 0
  {
    forall g | 0 <= g < |plan.groups|
      ensures SpawnLog(plan, events, g) == plan.groups[g].spawns && RemovedAlive(plan, events, g) == 0
    {
      CompleteMeansNoneEscaped(plan, events, g);
    }
  }

  // ---------------------------------------------------------------- the battle object

  class FosterBattle {
    const plan: Plan
    var actors: map<ActorId, Actor>
    var eventVersions: map<(nat, ActorId), nat>
    var blocks: map<nat, Block>
    var positions: Option<nat>
    var playerMotion: map<nat, (nat, nat)>
    var finished: bool
    var finishSequence: int
    var spawned: seq<nat>
    var retired: seq<nat>
    var triggered: seq<bool>

    ghost function View(): Foster
      reads this
    {
      Foster(actors, eventVersions, blocks, positions, playerMotion,
             finished, finishSequence, spawned, retired, triggered)
    }

    ghost predicate Valid()
      reads this
    {
      Shaped(plan, View())
    }

    constructor (plan: Plan)
      requires Ready(plan)
      ensures Valid() && View() == NewFoster(plan) && this.plan == plan
    {
      var n := |plan.groups|;
      this.plan := plan;
      actors, eventVersions, blocks, positions, playerMotion := map[], map[], map[], None, map[];
      finished, finishSequence := false, -1;
      spawned, retired, triggered := seq(n, i => 0), seq(n, i => 0), seq(n, i => false);
    }

    /** Mark every group whose box holds the point. */
    method Trigger(point: Point)
      requires Valid()
      modifies this`triggered
      ensures Valid() && triggered == Triggered(plan, old(triggered), point)
    {
      var i := 0;
      while i < |plan.groups|
        invariant 0 <= i <= |plan.groups| == |triggered|
        invariant forall j :: 0 <= j < i ==> triggered[j] == (old(triggered)[j] || plan.groups[j].trigger.Holds(point))
        invariant forall j :: i <= j < |triggered| ==> triggered[j] == old(triggered)[j]
      {
        if plan.groups[i].trigger.Holds(point) {
          triggered := triggered[i := true];
        }
        i := i + 1;
      }
    }

    /** The groups a spawn could belong to. */
    method FindMatches(spawn: Spawn) returns (matches: seq<nat>)
      requires Valid()
      ensures matches == Matches(plan, View(), spawn, |plan.groups|)
    {
      matches := [];
      var i := 0;
      while i < |plan.groups|
        invariant 0 <= i <= |plan.groups| && matches == Matches(plan, View(), spawn, i)
      {
        var living := |LivingOf(actors, i)|;
        var group := plan.groups[i];
        if triggered[i] && living < Min(group.subLimit, group.groupLimit) && spawned[i] < |group.spawns| {
          if group.spawns[spawned[i]] == spawn {
            matches := matches + [i];
          }
        }
        i := i + 1;
      }
    }

    /** The guards of a spawn, and the group it belongs to. */
    method CheckAppears(sender: nat, actor: ActorId, sequence: nat, spawn: Spawn, members: set<ActorId>)
      returns (ok: bool, group: nat)
      requires Valid()
      ensures ok == AppearAccepted(plan, View(), sender, actor, sequence, spawn, members)
      ensures ok ==> group == Chosen(plan, View(), spawn)
    {
      hide Matches, Shaped, LivingOf;
      group := 0;
      if actor == 0 || actor in members {
        return false, 0;
      }
      if actor in actors {
        var version := if (sender, actor) in eventVersions then eventVersions[(sender, actor)] else -1;
        if sequence <= actors[actor].sequence || sequence <= version {
          return false, 0;
        }
      }
      if finished || (actor in actors && actors[actor].active) || (actor !in actors && |actors| >= MAX_ACTORS) {
        return false, 0;
      }
      if |ActiveSet(actors)| >= plan.globalLimit {
        return false, 0;
      }
      var matches := FindMatches(spawn);
      if |matches| != 1 {
        return false, 0;
      }
      ok, group := true, matches[0];
    }

    /** actor_event for a spawn. */
    method ActorAppears(sender: nat, actor: ActorId, sequence: nat, spawn: Spawn, members: set<ActorId>)
      returns (accepted: bool)
      requires Valid()
      modifies this
      ensures Valid() && View() == Step(plan, old(View()), Appears(sender, actor, sequence, spawn, members))
      ensures accepted == Accepted(plan, old(View()), Appears(sender, actor, sequence, spawn, members))
    {
      StepShaped(plan, View(), Appears(sender, actor, sequence, spawn, members));
      var group;
      accepted, group := CheckAppears(sender, actor, sequence, spawn, members);
      if !accepted {
        return;
      }
      assert Fits(plan, View(), spawn, group);
      assert spawn in plan.groups[group].spawns && plan.groups[group] in plan.groups && plan.Qualified();
      hide Matches, AppearAccepted, Fits, Shaped;
      var hp := plan.initialHp[spawn.template];
      spawned := spawned[group := spawned[group] + 1];
      actors := actors[actor := Actor(true, sequence, spawn.template, group, hp, hp)];
      eventVersions := Unversioned(eventVersions, actor);
    }

    /** actor_event for a removal: a corpse retires, a living actor escapes the ledger. */
    method ActorVanishes(sender: nat, actor: ActorId, sequence: nat, members: set<ActorId>) returns (accepted: bool)
      requires Valid()
      modifies this
      ensures Valid() && View() == Step(plan, old(View()), Vanishes(sender, actor, sequence, members))
      ensures accepted == Accepted(plan, old(View()), Vanishes(sender, actor, sequence, members))
    {
      StepShaped(plan, View(), Vanishes(sender, actor, sequence, members));
      if actor == 0 || actor in members || actor !in actors {
        return false;
      }
      var old_ := actors[actor];
      var version := if (sender, actor) in eventVersions then eventVersions[(sender, actor)] else -1;
      if sequence <= old_.sequence || sequence <= version || !old_.active {
        return false;
      }
      assert old_.group < |plan.groups|;
      if old_.hp == 0.0 {
        retired := retired[old_.group := retired[old_.group] + 1];
      }
      actors := actors[actor := old_.(active := false, sequence := sequence)];
      eventVersions := Unversioned(eventVersions, actor);
      accepted := true;
    }

    /** relay_actor for an event of a live actor, with the HP amount of a hit. */
    method RelayActor(sender: nat, actor: ActorId, sequence: nat, damage: Option<real>) returns (accepted: bool)
      requires Valid()
      modifies this
      ensures Valid() && View() == Step(plan, old(View()), Relays(sender, actor, sequence, damage))
      ensures accepted == Accepted(plan, old(View()), Relays(sender, actor, sequence, damage))
    {
      StepShaped(plan, View(), Relays(sender, actor, sequence, damage));
      if actor !in actors || !actors[actor].active {
        return false;
      }
      var version := if (sender, actor) in eventVersions then eventVersions[(sender, actor)] else -1;
      if sequence <= version || sequence <= actors[actor].sequence {
        return false;
      }
      eventVersions := eventVersions[(sender, actor) := sequence];
      if damage.Some? {
        var hit := actors[actor];
        var hp := plan.round(Lesser(hit.maximum, Greater(0.0, hit.hp - damage.value)));
        actors := actors[actor := hit.(hp := hp)];
      }
      accepted := true;
    }

    method CheckComplete(index: nat) returns (complete: bool)
      requires Valid() && index < |plan.groups|
      ensures complete == GroupComplete(plan, View(), index)
    {
      var n := |plan.groups[index].spawns|;
      if spawned[index] != n {
        return false;
      }
      var active := ActiveOf(actors, index);
      complete := (forall a :: a in active ==> actors[a].hp == 0.0) && retired[index] + |active| == n;
    }

    /** Are all groups behind this gate complete? */
    method CheckGate(key: nat) returns (ok: bool)
      requires Valid()
      ensures ok ==
          forall g :: 0 <= g < |plan.groups| && plan.groups[g].block == Some(key) ==> GroupComplete(plan, View(), g)
    {
      hide GroupComplete;
      var i := 0;
      while i < |plan.groups|
        invariant 0 <= i <= |plan.groups|
        invariant forall g :: 0 <= g < i && plan.groups[g].block == Some(key) ==> GroupComplete(plan, View(), g)
      {
        if plan.groups[i].block == Some(key) {
          var complete := CheckComplete(i);
          if !complete {
            return false;
          }
        }
        i := i + 1;
      }
      ok := true;
    }

    method BlockEvent(key: nat, opens: bool, block: Block) returns (accepted: bool)
      requires Valid()
      modifies this
      ensures Valid() && View() == Step(plan, old(View()), Blocks(key, opens, block))
      ensures accepted == Accepted(plan, old(View()), Blocks(key, opens, block))
    {
      StepShaped(plan, View(), Blocks(key, opens, block));
      hide GroupComplete;
      if opens {
        var complete := CheckGate(key);
        if !complete {
          return false;
        }
      }
      if (key in blocks && block.sequence <= blocks[key].sequence) || (key !in blocks && |blocks| >= MAX_BLOCKS) {
        return false;
      }
      blocks := blocks[key := block];
      accepted := true;
    }

    /** The host's position snapshot: accepted once, when it is a permutation of the scripted places. */
    method ReceivePositions(rows: seq<(Point, nat)>, raw: nat) returns (accepted: bool)
      requires Valid()
      modifies this
      ensures Valid() && View() == Step(plan, old(View()), Places(rows, raw))
      ensures accepted == Accepted(plan, old(View()), Places(rows, raw))
    {
      StepShaped(plan, View(), Places(rows, raw));
      if multiset(rows) != multiset(plan.places) || positions.Some? {
        return false;
      }
      positions := Some(raw);
      var i := 0;
      while i < |rows|
        invariant 0 <= i <= |rows| && Valid()
        invariant triggered == TriggeredAll(plan, old(triggered), rows[..i])
        invariant View() == old(View()).(positions := Some(raw), triggered := triggered)
      {
        assert rows[..i + 1][..i] == rows[..i];
        Trigger(rows[i].0);
        i := i + 1;
      }
      assert rows[..|rows|] == rows;
      accepted := true;
    }

    method PlayerPosition(uid: nat, sequence: nat, raw: nat, point: Point)
      requires Valid()
      modifies this
      ensures Valid() && View() == Step(plan, old(View()), Walks(uid, sequence, raw, point))
    {
      StepShaped(plan, View(), Walks(uid, sequence, raw, point));
      if uid in playerMotion
         && (sequence < playerMotion[uid].0 || (sequence == playerMotion[uid].0 && raw == playerMotion[uid].1)) {
        return;
      }
      playerMotion := playerMotion[uid := (sequence, raw)];
      Trigger(point);
    }

    method Finish(sequence: nat) returns (accepted: bool)
      requires Valid()
      modifies this
      ensures Valid() && View() == Step(plan, old(View()), Finishes(sequence))
      ensures accepted == Accepted(plan, old(View()), Finishes(sequence))
    {
      StepShaped(plan, View(), Finishes(sequence));
      if finished || sequence <= finishSequence {
        return false;
      }
      finished, finishSequence := true, sequence;
      accepted := true;
    }
  }
}
