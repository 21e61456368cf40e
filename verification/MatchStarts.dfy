/** A concrete duel: the theorems about starts speak of starts that happen. */
module MatchStarts {
  import opened RoomState
  import opened RoomRules
  import opened RoomSeating
  import opened InformedStart

  const DUEL: Settings := Settings(0, 2, false, 60, 0)

  function Pair(one: bool, two: bool): map<Uid, Member> {
    map[1 := Member(0, 0, one, false, 0, InRoom, 1), 2 := Member(1, 1, two, false, 1, InRoom, 2)]
  }

  function Duel(one: bool, two: bool): Room {
    Empty(1, DUEL).(members := Pair(one, two), order := [1, 2], located := {1, 2})
  }

  predicate Present(w: World) { {1, 2} <= w.alive && {1, 2} <= w.bound }

  lemma Alone(h: Policy, w: World)
    requires Present(w)
    ensures Create(h, 1, DUEL, 1, w)
         == Empty(1, DUEL).(members := map[1 := Member(0, 0, false, false, 0, InRoom, 1)], order := [1], located := {1})
  {
    var r := Empty(1, DUEL);
    assert r.Fighters() == {};
    assert FreeSlot(r.members, 0) == 0;
    assert SeatFor(r, false) == (0, 0, Some(0));
    assert Unready(r.members) == map[];
  }

  lemma Joined(h: Policy, w: World)
    requires Present(w)
    ensures Join(h, Create(h, 1, DUEL, 1, w), 2, false, true, 2, w) == Duel(false, false)
  {
    Alone(h, w);
    var r := Create(h, 1, DUEL, 1, w);
    hide Create;
    assert r.Fighters() == {1};
    assert FreeSlot(r.members, 1) == 1;
    assert r.members[1].slot == 0;
    assert FreeSlot(r.members, 0) == 1;
    assert SeatFor(r, false) == (1, 1, Some(1));
    assert Unready(r.members) == r.members;
  }

  lemma Fighting(one: bool, two: bool)
    ensures Duel(one, two).Fighters() == {1, 2}
  {
  }

  lemma GuestReadies(h: Policy, w: World, plan: bool)
    requires Present(w)
    ensures Ready(h, Duel(false, false), 2, w, plan) == Duel(false, true)
  {
    assert Pair(false, false)[2 := Pair(false, false)[2].(ready := true)] == Pair(false, true);
  }

  lemma HostReadies(h: Policy, w: World, plan: bool)
    requires Present(w)
    ensures Ready(h, Duel(false, true), 1, w, plan) == BeginStart(h, Duel(true, true), w, plan)
  {
    Fighting(false, true);
    Fighting(true, true);
    assert Pair(false, true)[1 := Pair(false, true)[1].(ready := true)] == Pair(true, true);
    hide BeginStart;
    assert Balanced(Duel(false, true));
    assert AllReady(Duel(true, true), w);
  }

  /** Join, guest ready, host ready. */
  function Prelude(w: World): seq<Moment> {
    [Moment(Joins(2, false, true, 2), w), Moment(Readies(2, true), w)]
  }

  lemma PreludeRuns(h: Policy, w: World)
    requires Present(w)
    ensures Opened(h, Create(h, 1, DUEL, 1, w))
    ensures Run(h, Create(h, 1, DUEL, 1, w), Prelude(w)) == Duel(false, true)
  {
    DuelOpens(h, w);
    Joined(h, w);
    GuestReadies(h, w, true);
    NotGone(h, w);
    hide Step, Create, Join, Ready, Pair, Opened, Duel, Run;
    var start := Create(h, 1, DUEL, 1, w);
    NoEvents(h, start);
    assert Prelude(w) == [] + [Prelude(w)[0], Prelude(w)[1]];
    RunTwoMore(h, start, [], Prelude(w)[0], Prelude(w)[1]);
    StepJoins(h, start, w);
    StepReadies(h, Duel(false, false), w);
  }

  lemma StepJoins(h: Policy, r: Room, w: World)
    requires !r.gone
    ensures Step(h, r, Joins(2, false, true, 2), w) == Join(h, r, 2, false, true, 2, w)
  {
    hide Join;
  }

  lemma StepReadies(h: Policy, r: Room, w: World)
    requires !r.gone
    ensures Step(h, r, Readies(2, true), w) == Ready(h, r, 2, w, true)
  {
    hide Ready;
  }

  lemma NoEvents(h: Policy, start: Room)
    ensures Run(h, start, []) == start
  {
  }

  lemma NotGone(h: Policy, w: World)
    requires Present(w)
    ensures !Create(h, 1, DUEL, 1, w).gone && !Duel(false, false).gone
  {
    Alone(h, w);
    hide Create;
  }

  lemma DuelOpens(h: Policy, w: World)
    requires Present(w)
    ensures Opened(h, Create(h, 1, DUEL, 1, w))
  {
    Alone(h, w);
    assert Admitted(DUEL);
    hide Create;
  }

  lemma DuelBegins(h: Policy, w: World)
    requires Present(w) && !h.probing
    ensures var r := Duel(false, true);
      var x := Step(h, r, Readies(1, true), w);
      !r.gone && r.stage == Waiting && r.settings.mode != TUTORIAL && !x.gone && x.stage == Loading
  {
    hide Ready, WithPhase, Pair;
    HostReadies(h, w, true);
  }

  /** Without the probe the host's ready starts the duel at once. */
  lemma DuelStarts(h: Policy, w: World)
    requires Present(w) && !h.probing
    ensures var r := Run(h, Create(h, 1, DUEL, 1, w), Prelude(w));
      var x := Step(h, r, Readies(1, true), w);
      && Opened(h, Create(h, 1, DUEL, 1, w)) && !r.gone && r.stage == Waiting && r.settings.mode != TUTORIAL
      && !x.gone && x.stage == Loading
  {
    hide *;
    PreludeRuns(h, w);
    DuelBegins(h, w);
  }

  function Asked(w: World, pending: set<Uid>): Room {
    Duel(true, true).(probe := Some(Probe(w.now, IdentityOf(Duel(true, true)), pending)))
  }

  lemma DuelIsAsked(h: Policy, w: World)
    requires Present(w) && h.probing
    ensures Step(h, Duel(false, true), Readies(1, true), w) == Asked(w, {1, 2})
  {
    HostReadies(h, w, true);
    Fighting(true, true);
    hide Ready, IdentityOf, Pair;
  }

  lemma DuelIsAnswered(h: Policy, w: World)
    requires Present(w) && h.probing
    ensures Step(h, Asked(w, {1, 2}), Answers(2, true), w) == Asked(w, {1})
    ensures var x := Step(h, Asked(w, {1}), Answers(1, true), w); !x.gone && x.stage == Loading
  {
    assert IdentityOf(Asked(w, {1, 2})) == IdentityOf(Duel(true, true)) == IdentityOf(Asked(w, {1}));
    hide Step, IdentityOf, Pair, WithPhase;
    assert {1, 2} - {2} == {1};
    Answered(h, Asked(w, {1, 2}), 2, w);
    Answered(h, Asked(w, {1}), 1, w);
  }

  /** With the probe it starts on the second answer. */
  lemma MeasuredDuelStarts(h: Policy, w: World)
    requires Present(w) && h.probing
    ensures var r := Run(h, Create(h, 1, DUEL, 1, w),
                         Prelude(w) + [Moment(Readies(1, true), w), Moment(Answers(2, true), w)]);
      var x := Step(h, r, Answers(1, true), w);
      && Opened(h, Create(h, 1, DUEL, 1, w)) && !r.gone && r.stage == Waiting && r.settings.mode != TUTORIAL
      && !x.gone && x.stage == Loading
  {
    PreludeRuns(h, w);
    DuelIsAsked(h, w);
    DuelIsAnswered(h, w);
    RunTwoMore(h, Create(h, 1, DUEL, 1, w), Prelude(w), Moment(Readies(1, true), w), Moment(Answers(2, true), w));
    hide Create, Run, Prelude, Opened, Step, IdentityOf, Pair;
  }

  lemma RunTwoMore(h: Policy, start: Room, ms: seq<Moment>, a: Moment, b: Moment)
    ensures Run(h, start, ms + [a, b]) == Step(h, Step(h, Run(h, start, ms), a.event, a.world), b.event, b.world)
  {
    assert (ms + [a, b])[..|ms| + 1] == ms + [a] && (ms + [a])[..|ms|] == ms;
    hide Step;
  }

  /** An answer in time, of somebody the probe still waits for, in an unchanged duel. */
  lemma Answered(h: Policy, r: Room, uid: Uid, w: World)
    requires Present(w) && r.probe.Some? && r == Duel(true, true).(probe := r.probe)
    requires r.probe.value.start == w.now && r.probe.value.identity == IdentityOf(r) && uid in r.probe.value.pending
    requires uid in {1, 2}
    ensures var left := r.probe.value.pending - {uid};
      Step(h, r, Answers(uid, true), w)
      == if left == {} then StartMatch(h, r.(probe := None), w, true)
         else r.(probe := Some(r.probe.value.(pending := left)))
  {
    assert Acts(r, uid);
    assert !ProbeBroken(r, w);
    hide StartMatch, IdentityOf;
  }
}
