/** The wave ledger of the stage mode: spawn quotas, removals and wave reports observed from the elected host. */
module StageWaves {
  import opened MapSums

  type ActorId = nat
  type Template = nat

  const MAX_ACTORS: nat := 100
  const MAX_BLOCKS: nat := 1024

  datatype Option<+T> = None | Some(value: T)

  datatype Actor = Actor(active: bool, sequence: nat, template: Template)

  /** The last accepted event of a block: its sequence, and its payload unless the event removed the block. */
  datatype Block = Block(sequence: nat, raw: Option<nat>)

  datatype Stage = Stage(
    waves: seq<map<Template, nat>>, index: nat, finished: bool,
    spawned: map<Template, nat>, actors: map<ActorId, Actor>, blocks: map<nat, Block>)

  function NewStage(waves: seq<map<Template, nat>>): Stage {
    Stage(waves, 0, false, map[], map[], map[])
  }

  datatype Event =
    | Spawn(actor: ActorId, sequence: nat, template: Template, players: set<ActorId>)
    | Remove(actor: ActorId, sequence: nat, players: set<ActorId>)
    | Report(pairMatches: bool, wave: int, value: nat)
    | BlockEvent(key: nat, block: Block)

  predicate IsActive(actors: map<ActorId, Actor>, a: ActorId) {
    a in actors && actors[a].active
  }

  function ActiveSet(actors: map<ActorId, Actor>): set<ActorId> {
    set a | a in actors && actors[a].active
  }

  /** Conditions shared by spawns and removals: a real actor, and newer than what is known of it. */
  predicate Newer(s: Stage, a: ActorId, sequence: nat, players: set<ActorId>) {
    a != 0 && a !in players && (a in s.actors ==> sequence > s.actors[a].sequence)
  }

  predicate SpawnAccepted(s: Stage, a: ActorId, sequence: nat, t: Template, players: set<ActorId>)
    requires s.finished || s.index < |s.waves|
  {
    && Newer(s, a, sequence, players) && !s.finished && !IsActive(s.actors, a)
    && (a in s.actors || |s.actors| < MAX_ACTORS)
    && At(s.spawned, t) < At(s.waves[s.index], t)
  }

  predicate RemoveAccepted(s: Stage, a: ActorId, sequence: nat, players: set<ActorId>) {
    Newer(s, a, sequence, players) && IsActive(s.actors, a)
  }

  predicate ReportAccepted(s: Stage, pairMatches: bool, wave: int, value: nat)
    requires s.finished || s.index < |s.waves|
  {
    && pairMatches && !s.finished && wave == s.index + 1 && value == 1
    && ActiveSet(s.actors) == {} && s.spawned == s.waves[s.index]
  }

  predicate BlockAccepted(blocks: map<nat, Block>, key: nat, b: Block) {
    if key in blocks then b.sequence > blocks[key].sequence else |blocks| < MAX_BLOCKS
  }

  predicate Accepted(s: Stage, e: Event)
    requires s.finished || s.index < |s.waves|
  {
    match e
    case Spawn(a, sequence, t, players) => SpawnAccepted(s, a, sequence, t, players)
    case Remove(a, sequence, players) => RemoveAccepted(s, a, sequence, players)
    case Report(pairMatches, wave, value) => ReportAccepted(s, pairMatches, wave, value)
    case BlockEvent(key, b) => BlockAccepted(s.blocks, key, b)
  }

  function Step(s: Stage, e: Event): (t: Stage)
    requires s.finished || s.index < |s.waves|
    ensures t.waves == s.waves && (t.finished || t.index < |t.waves|)
  {
    if !Accepted(s, e) then s
    else
      match e
      case Spawn(a, sequence, t, _) =>
        s.(spawned := s.spawned[t := At(s.spawned, t) + 1], actors := s.actors[a := Actor(true, sequence, t)])
      case Remove(a, sequence, _) =>
        s.(actors := s.actors[a := Actor(false, sequence, s.actors[a].template)])
      case Report(_, _, _) => s.(index := s.index + 1, spawned := map[], finished := s.index + 1 == |s.waves|)
      case BlockEvent(key, b) => s.(blocks := s.blocks[key := b])
  }

  class StageBattle {
    const waves: seq<map<Template, nat>>
    var index: nat
    var finished: bool
    var spawned: map<Template, nat>
    var actors: map<ActorId, Actor>
    var blocks: map<nat, Block>

    ghost function View(): Stage
      reads this
    {
      Stage(waves, index, finished, spawned, actors, blocks)
    }

    ghost predicate Valid()
      reads this
    {
      finished || index < |waves|
    }

    constructor (waves: seq<map<Template, nat>>)
      requires |waves| > 0
      ensures Valid() && View() == NewStage(waves)
    {
      this.waves := waves;
      index, finished, spawned, actors, blocks := 0, false, map[], map[], map[];
    }

    method SpawnEvent(actor: ActorId, sequence: nat, template: Template, players: set<ActorId>) returns (accepted: bool)
      requires Valid()
      modifies this
      ensures Valid() && View() == Step(old(View()), Spawn(actor, sequence, template, players))
      ensures accepted == Accepted(old(View()), Spawn(actor, sequence, template, players))
    {
      if actor == 0 || actor in players || (actor in actors && sequence <= actors[actor].sequence) {
        return false;
      }
      if finished || (actor in actors && actors[actor].active) || (actor !in actors && |actors| >= MAX_ACTORS) {
        return false;
      }
      var limit := if template in waves[index] then waves[index][template] else 0;
      var count := if template in spawned then spawned[template] else 0;
      if count >= limit {
        return false;
      }
      spawned := spawned[template := count + 1];
      actors := actors[actor := Actor(true, sequence, template)];
      accepted := true;
    }

    method RemoveEvent(actor: ActorId, sequence: nat, players: set<ActorId>) returns (accepted: bool)
      requires Valid()
      modifies this
      ensures Valid() && View() == Step(old(View()), Remove(actor, sequence, players))
      ensures accepted == Accepted(old(View()), Remove(actor, sequence, players))
    {
      if actor == 0 || actor in players || (actor in actors && sequence <= actors[actor].sequence) {
        return false;
      }
      if actor !in actors || !actors[actor].active {
        return false;
      }
      actors := actors[actor := actors[actor].(active := false, sequence := sequence)];
      accepted := true;
    }

    /** report_wave: the next wave number announced, -1 after the last wave, and None when the report is ignored. */
    method ReportWave(pairMatches: bool, wave: int, value: nat) returns (next: Option<int>)
      requires Valid()
      modifies this
      ensures Valid() && View() == Step(old(View()), Report(pairMatches, wave, value))
      ensures next.Some? == Accepted(old(View()), Report(pairMatches, wave, value))
      ensures next.Some? ==> next.value == if finished then -1 else index + 1
    {
      if !pairMatches || finished || wave != index + 1 || value != 1 {
        return None;
      }
      if (exists a :: a in actors && actors[a].active) || spawned != waves[index] {
        assert forall a | a in actors && actors[a].active :: a in ActiveSet(actors);
        return None;
      }
      index := index + 1;
      spawned := map[];
      finished := index == |waves|;
      next := Some(if finished then -1 else index + 1);
    }

    method BlockChanged(key: nat, block: Block) returns (accepted: bool)
      requires Valid()
      modifies this
      ensures Valid() && View() == Step(old(View()), BlockEvent(key, block))
      ensures accepted == Accepted(old(View()), BlockEvent(key, block))
    {
      if key in blocks && block.sequence <= blocks[key].sequence {
        return false;
      }
      if key !in blocks && |blocks| >= MAX_BLOCKS {
        return false;
      }
      blocks := blocks[key := block];
      accepted := true;
    }
  }

  // ---------------------------------------------------------------- every run

  function Run(waves: seq<map<Template, nat>>, events: seq<Event>): (s: Stage)
    requires |waves| > 0
    ensures s.waves == waves && (s.finished || s.index < |s.waves|)
  {
    if events == [] then NewStage(waves) else Step(Run(waves, events[..|events| - 1]), events[|events| - 1])
  }

  /** Was the last event of the run an accepted one of the given kind? */
  predicate LastAccepted(waves: seq<map<Template, nat>>, events: seq<Event>)
    requires |waves| > 0 && events != []
  {
    Accepted(Run(waves, events[..|events| - 1]), events[|events| - 1])
  }

  /** Accepted spawns of one template over a whole run. */
  function Spawns(waves: seq<map<Template, nat>>, events: seq<Event>, t: Template): nat
    requires |waves| > 0
  {
    if events == [] then 0
    else
      var last := events[|events| - 1];
      Spawns(waves, events[..|events| - 1], t)
      + if last.Spawn? && last.template == t && LastAccepted(waves, events) then 1 else 0
  }

  function AllSpawns(waves: seq<map<Template, nat>>, events: seq<Event>): nat
    requires |waves| > 0
  {
    if events == [] then 0
    else AllSpawns(waves, events[..|events| - 1])
         + if events[|events| - 1].Spawn? && LastAccepted(waves, events) then 1 else 0
  }

  function Removals(waves: seq<map<Template, nat>>, events: seq<Event>): nat
    requires |waves| > 0
  {
    if events == [] then 0
    else Removals(waves, events[..|events| - 1])
         + if events[|events| - 1].Remove? && LastAccepted(waves, events) then 1 else 0
  }

  /** The quota of a template over the first n waves. */
  function Quota(waves: seq<map<Template, nat>>, n: nat, t: Template): nat
    requires n <= |waves|
  {
    if n == 0 then 0 else Quota(waves, n - 1, t) + At(waves[n - 1], t)
  }

  ghost predicate Inv(s: Stage) {
    && s.index <= |s.waves| && (s.finished <==> s.index == |s.waves|)
    && (s.finished ==> s.spawned == map[] && ActiveSet(s.actors) == {})
    && |s.actors| <= MAX_ACTORS
  }

  lemma ActiveAfter(actors: map<ActorId, Actor>, a: ActorId, v: Actor)
    ensures ActiveSet(actors[a := v]) == if v.active then ActiveSet(actors) + {a} else ActiveSet(actors) - {a}
    ensures |actors[a := v]| == |actors| + if a in actors then 0 else 1
  {
    KeysAfter(actors, a, v);
    SameSet(ActiveSet(actors[a := v]), if v.active then ActiveSet(actors) + {a} else ActiveSet(actors) - {a});
  }

  lemma KeysAfter(actors: map<ActorId, Actor>, a: ActorId, v: Actor)
    ensures |actors[a := v]| == |actors| + if a in actors then 0 else 1
  {
    assert actors[a := v].Keys == actors.Keys + {a};
  }

  lemma StepKeepsInv(s: Stage, e: Event)
    requires Inv(s)
    ensures Inv(Step(s, e))
  {
    match e
    case Spawn(a, sequence, t, _) => ActiveAfter(s.actors, a, Actor(true, sequence, t));
    case Remove(a, sequence, _) =>
      if a in s.actors {
        ActiveAfter(s.actors, a, Actor(false, sequence, s.actors[a].template));
      }
    case Report(_, _, _) =>
    case BlockEvent(_, _) =>
  }

  lemma {:induction false} RunInv(waves: seq<map<Template, nat>>, events: seq<Event>)
    requires |waves| > 0
    ensures Inv(Run(waves, events))
  {
    if events != [] {
      RunInv(waves, events[..|events| - 1]);
      StepKeepsInv(Run(waves, events[..|events| - 1]), events[|events| - 1]);
    }
  }

  /** Accepted spawns of every template are the quotas of the completed waves plus the current counter. */
  lemma {:induction false} SpawnsConserved(waves: seq<map<Template, nat>>, events: seq<Event>, t: Template)
    requires |waves| > 0
    ensures Run(waves, events).index <= |waves|
    ensures Spawns(waves, events, t)
         == Quota(waves, Run(waves, events).index, t) + At(Run(waves, events).spawned, t)
  {
    if events != [] {
      var before, e := events[..|events| - 1], events[|events| - 1];
      SpawnsConserved(waves, before, t);
      RunInv(waves, before);
      StepConserves(waves, Run(waves, before), e, t);
      hide Step, Inv, Quota, Accepted;
    }
  }

  /** One event moves the completed quotas and the present counter by exactly the spawn it accepts. */
  lemma StepConserves(waves: seq<map<Template, nat>>, s: Stage, e: Event, t: Template)
    requires Inv(s) && s.waves == waves && |waves| > 0
    ensures Step(s, e).index <= |waves|
    ensures Quota(waves, Step(s, e).index, t) + At(Step(s, e).spawned, t)
         == Quota(waves, s.index, t) + At(s.spawned, t)
            + if e.Spawn? && e.template == t && Accepted(s, e) then 1 else 0
  {
  }

  /** The live actors are exactly the accepted spawns that have not been removed. */
  lemma {:induction false} ActiveConserved(waves: seq<map<Template, nat>>, events: seq<Event>)
    requires |waves| > 0
    ensures |ActiveSet(Run(waves, events).actors)| + Removals(waves, events) == AllSpawns(waves, events)
  {
    if events == [] {
      assert ActiveSet(NewStage(waves).actors) == {};
    } else {
      var n := |events| - 1;
      ActiveConserved(waves, events[..n]);
      var s := Run(waves, events[..n]);
      if Accepted(s, events[n]) {
        match events[n]
        case Spawn(a, sequence, t, _) =>
          ActiveAfter(s.actors, a, Actor(true, sequence, t));
          assert a !in ActiveSet(s.actors);
        case Remove(a, sequence, _) =>
          ActiveAfter(s.actors, a, Actor(false, sequence, s.actors[a].template));
          assert a in ActiveSet(s.actors);
        case Report(_, _, _) =>
        case BlockEvent(_, _) =>
      }
    }
  }

  /** A finished stage has spawned exactly the planned actors, wave by wave, and removed all of them. */
  lemma FinishedMeansExactlyPlanned(waves: seq<map<Template, nat>>, events: seq<Event>)
    requires |waves| > 0 && Run(waves, events).finished
    ensures forall t :: Spawns(waves, events, t) == Quota(waves, |waves|, t)
    ensures AllSpawns(waves, events) == Removals(waves, events)
  {
    RunInv(waves, events);
    ActiveConserved(waves, events);
    forall t: Template
      ensures Spawns(waves, events, t) == Quota(waves, |waves|, t)
    {
      SpawnsConserved(waves, events, t);
    }
  }

  /** Within a wave no template ever exceeds its quota. */
  lemma {:induction false} QuotaRespected(waves: seq<map<Template, nat>>, events: seq<Event>, t: Template)
    requires |waves| > 0
    ensures var s := Run(waves, events);
      !s.finished ==> At(s.spawned, t) <= At(waves[s.index], t)
  {
    if events != [] {
      QuotaRespected(waves, events[..|events| - 1], t);
    }
  }
}
