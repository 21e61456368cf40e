/** Who is told of the spawns and removals of a cooperative battle's actors, and how this bounds their events. */
module LifecycleDelivery {
  import opened BattleEvents
  import opened BattleRules
  import opened BattleDelivery

  /** One accepted spawn or removal; one that was only observed is handed to nobody by the server. */
  datatype Notice = Notice(to: set<Uid>, actor: Uid, sequence: int, spawn: bool, observed: bool)

  function Notices(b: Battle, e: Event): seq<Notice> {
    if e.Lived? && LifeChanges(b, e.uid, e.actor, e.sequence, e.spawn, e.allowed)
    then [Notice(if e.observed then {} else b.Others(e.uid), e.actor, e.sequence, e.spawn, e.observed)]
    else []
  }

  /** Every notice of a run, in order. */
  function LifeLog(c: Catalog, start: Battle, events: seq<Event>): seq<Notice> {
    if events == [] then []
    else LifeLog(c, start, events[..|events| - 1])
         + Notices(Run(c, start, events[..|events| - 1]), events[|events| - 1])
  }

  /** The notices about one actor, in order. */
  function About(log: seq<Notice>, actor: Uid): (r: seq<Notice>)
    ensures forall n <- r :: n in log && n.actor == actor
  {
    if log == [] then []
    else About(log[..|log| - 1], actor) + if log[|log| - 1].actor == actor then [log[|log| - 1]] else []
  }

  // ---------------------------------------------------------------- the invariant

  /** Spawn, removal, spawn, and so on, each newer than all before it. */
  ghost predicate Alternates(s: seq<Notice>) {
    && (forall k :: 0 <= k < |s| ==> (s[k].spawn <==> k % 2 == 0))
    && forall j, k :: 0 <= j < k < |s| ==> s[j].sequence < s[k].sequence
  }

  /** The last notice about an actor is its present state, and went to everybody present but the Host. */
  ghost predicate Told(b: Battle, s: seq<Notice>, actor: Uid) {
    && Alternates(s)
    && (actor in b.npcs.actors <==> s != [])
    && (s != [] ==>
          && b.npcs.actors[actor] == Npc(s[|s| - 1].spawn, s[|s| - 1].sequence)
          && (s[|s| - 1].observed || b.members - {b.owner} <= s[|s| - 1].to))
  }

  ghost predicate Inv(b: Battle, log: seq<Notice>) {
    forall actor: Uid :: Told(b, About(log, actor), actor)
  }

  lemma AboutOneMore(log: seq<Notice>, n: Notice, actor: Uid)
    ensures About(log + [n], actor) == About(log, actor) + if n.actor == actor then [n] else []
  {
    assert (log + [n])[..|log|] == log;
  }

  // ---------------------------------------------------------------- every step

  lemma LifeTold(b: Battle, uid: Uid, actor: Uid, sequence: int, spawn: bool, allowed: bool, s: seq<Notice>, n: Notice)
    requires LifeChanges(b, uid, actor, sequence, spawn, allowed) && Told(b, s, actor)
    requires n.actor == actor && n.sequence == sequence && n.spawn == spawn && (n.observed || n.to == b.Others(uid))
    ensures Told(Relife(b, uid, actor, sequence, spawn, allowed), s + [n], actor)
  {
    var more := s + [n];
    assert more[|more| - 1] == n;
    assert actor in b.npcs.actors ==> b.npcs.actors[actor].sequence < sequence;
    assert Alternates(more) by {
      forall j, k | 0 <= j < k < |more|
        ensures more[j].sequence < more[k].sequence
      {
        if k == |s| {
          assert s[j].sequence <= s[|s| - 1].sequence;
        }
      }
    }
  }

  lemma OthersTold(b: Battle, x: Battle, s: seq<Notice>, actor: Uid)
    requires Told(b, s, actor) && x.members <= b.members && x.owner == b.owner
    requires actor in x.npcs.actors <==> actor in b.npcs.actors
    requires actor in b.npcs.actors ==> x.npcs.actors[actor] == b.npcs.actors[actor]
    ensures Told(x, s, actor)
  {
    hide Alternates;
  }

  /** Nobody joins, the Host stays the Host, and no actor's life changes. */
  predicate SameLives(x: Battle, b: Battle) {
    x.members <= b.members && x.owner == b.owner && x.npcs.actors == b.npcs.actors
  }

  lemma LivesOf(x: Battle, b: Battle)
    requires x.members <= b.members && x.owner == b.owner && x.npcs == b.npcs
    ensures SameLives(x, b)
  {
  }

  lemma HandledLives(c: Catalog, b: Battle, uid: Uid, m: Message, now: real)
    ensures SameLives(Direct(c, b, uid, m, now), b)
  {
    AfterFrame(c, b, uid, m, now);
    ObserveFrame(After(c, b, uid, m, now), uid, m, None, now);
    hide After, Judge, Observe, Battle.Fighters, Answer;
  }

  lemma DepartedLives(b: Battle, uid: Uid)
    ensures SameLives(Leave(b, uid), b)
  {
    UnseatFields(b, uid);
    hide Unseat, SameLives;
    LivesOf(b, b);
    LivesOf(b.(live := false), b);
    LivesOf(Unseat(b, uid), b);
  }

  /** Apart from a spawn or removal no step touches the life of an actor. */
  lemma StepFrame(c: Catalog, b: Battle, e: Event)
    requires b.Cooperative() && !e.Lived?
    ensures SameLives(Step(c, b, e), b)
  {
    hide Direct, Leave, Dispatch, Relife;
    match e {
      case Dispatched(_, _, _, _) =>
      case Handled(uid, m, now) => HandledLives(c, b, uid, m, now);
      case Departed(uid) => DepartedLives(b, uid);
      case Finished =>
    }
  }

  lemma LivedKeeps(b: Battle, e: Event, log: seq<Notice>)
    requires e.Lived? && Inv(b, log) && LifeChanges(b, e.uid, e.actor, e.sequence, e.spawn, e.allowed)
    ensures Inv(Relife(b, e.uid, e.actor, e.sequence, e.spawn, e.allowed), log + Notices(b, e))
  {
    var n, x := Notices(b, e)[0], Relife(b, e.uid, e.actor, e.sequence, e.spawn, e.allowed);
    forall actor: Uid
      ensures Told(x, About(log + [n], actor), actor)
    {
      AboutOneMore(log, n, actor);
      assert Told(b, About(log, actor), actor);
      if actor == e.actor {
        LifeTold(b, e.uid, actor, e.sequence, e.spawn, e.allowed, About(log, actor), n);
        hide *;
      } else {
        assert About(log, actor) + [] == About(log, actor);
        hide Told, LifeChanges, About;
        OthersTold(b, x, About(log, actor), actor);
      }
    }
  }

  lemma StepKeeps(c: Catalog, b: Battle, e: Event, log: seq<Notice>)
    requires b.Cooperative() && Inv(b, log)
    ensures Inv(Step(c, b, e), log + Notices(b, e))
  {
    assert log + [] == log;
    if e.Lived? {
      if LifeChanges(b, e.uid, e.actor, e.sequence, e.spawn, e.allowed) {
        LivedKeeps(b, e, log);
        hide *;
      }
    } else {
      StepFrame(c, b, e);
      hide Step, Told;
      forall actor: Uid
        ensures Told(Step(c, b, e), About(log, actor), actor)
      {
        OthersTold(b, Step(c, b, e), About(log, actor), actor);
      }
    }
  }

  lemma {:induction false} RunKeeps(c: Catalog, start: Battle, events: seq<Event>)
    requires Begins(start) && start.Cooperative()
    ensures Inv(Run(c, start, events), LifeLog(c, start, events))
  {
    if events != [] {
      var before := events[..|events| - 1];
      RunKeeps(c, start, before);
      RunSetting(c, start, before);
      StepKeeps(c, Run(c, start, before), events[|events| - 1], LifeLog(c, start, before));
      hide Step, Notices, Inv;
    }
  }

  // ---------------------------------------------------------------- the theorems

  /** Over a whole battle the lives of an actor are told in turn, spawn and removal, by ever larger sequences. */
  lemma LivesAlternate(c: Catalog, start: Battle, events: seq<Event>, actor: Uid)
    requires Begins(start) && start.Cooperative()
    ensures Alternates(About(LifeLog(c, start, events), actor))
  {
    RunKeeps(c, start, events);
    assert Told(Run(c, start, events), About(LifeLog(c, start, events), actor), actor);
  }

  /** What is relayed about an actor is relayed in its present life and to nobody but present members. */
  lemma BatchOfLife(c: Catalog, b: Battle, e: Event, k: Batch)
    requires b.Cooperative() && k in Batches(c, b, e) && k.life.Some?
    ensures ActorField(k.message).Some? && b.npcs.Active(ActorField(k.message).value)
    ensures k.life.value == b.npcs.actors[ActorField(k.message).value].sequence && k.to <= b.members - {b.owner}
  {
    PassedSource(c, b, e.uid, e.message, e.now);
    assert OfNpc(b, e.message) && k.message == e.message;
    hide Judge, Recipients;
  }

  /**
   * Whoever is handed an event of an actor was told before of the spawn this life began with, and of no removal
   * since, unless the Host told its peers of that spawn directly.
   */
  lemma EventsFollowTheirSpawn(c: Catalog, start: Battle, events: seq<Event>, e: Event, k: Batch)
    requires Begins(start) && start.Cooperative() && k in Batches(c, Run(c, start, events), e) && k.life.Some?
    ensures ActorField(k.message).Some?
    ensures var s := About(LifeLog(c, start, events), ActorField(k.message).value);
      && s != [] && s[|s| - 1].spawn && s[|s| - 1].sequence == k.life.value
      && (s[|s| - 1].observed || k.to <= s[|s| - 1].to)
  {
    var b := Run(c, start, events);
    RunSetting(c, start, events);
    RunKeeps(c, start, events);
    BatchOfLife(c, b, e, k);
    hide Batches, Alternates, Run, LifeLog, About;
    assert Told(b, About(LifeLog(c, start, events), ActorField(k.message).value), ActorField(k.message).value);
  }
}
