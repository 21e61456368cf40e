/** Informed start: a match only begins on consent given after the last change of the line-up. */
module RoomStart {
  import opened RoomState
  import opened RoomRules
  import opened RoomSeating
  import opened RoomBarriers
  import opened MapSums

  /** Owner, settings, roster, roles, teams and seats: what a ready flag consents to. */
  ghost predicate SameLineup(x: Room, r: Room) {
    x.owner == r.owner && x.settings == r.settings && SameSeats(x.members, r.members)
  }

  /** Nobody's consent survives. */
  ghost predicate Hushed(x: Room) {
    forall u <- x.members :: !x.members[u].ready
  }

  /** The line-up stands and no new consent appears. */
  ghost predicate Calm(x: Room, r: Room) {
    SameLineup(x, r) && forall u <- x.members :: x.members[u].ready ==> r.members[u].ready
  }

  lemma UnreadyHushes(members: map<Uid, Member>)
    ensures forall u <- Unready(members) :: !Unready(members)[u].ready
    ensures SameSeats(Unready(members), members)
  {
  }

  lemma CalmItself(r: Room)
    ensures Calm(r, r)
  {
  }

  lemma CalmOne(r: Room, x: Room, uid: Uid, m: Member)
    requires uid in r.members && m == r.members[uid].(ready := m.ready, phase := m.phase, connection := m.connection)
    requires m.ready ==> r.members[uid].ready
    requires x.members == r.members[uid := m] && x.owner == r.owner && x.settings == r.settings
    ensures Calm(x, r)
  {
  }

  // ---------------------------------------------------------------- steps of a waiting room

  ghost predicate Consented(x: Room, r: Room) {
    x.gone || (x.stage == Waiting && (Calm(x, r) || Hushed(x)))
  }

  lemma LeaveConsents(h: Policy, r: Room, uid: Uid, w: World)
    requires r.stage == Waiting
    ensures Consented(Leave(h, r, uid, w), r)
  {
    CalmItself(r);
    DropFields(r, uid);
    UnreadyHushes(Drop(r, uid).members);
    hide Drop, Unready, Calm, Heir, Advance;
  }

  lemma CancelProbeConsents(r: Room)
    requires r.stage == Waiting
    ensures Consented(CancelProbe(r), r)
  {
    CalmItself(r);
    UnreadyHushes(r.members);
    hide Unready;
  }

  lemma ExpireConsents(h: Policy, r: Room, w: World)
    requires r.stage == Waiting
    ensures Consented(ExpireRoom(h, r, w), r)
  {
    LeaveConsents(h, r, r.owner, w);
    CalmItself(r);
    CancelProbeConsents(r);
    CancelProbeConsents(r.(exchange := None));
    hide Leave, CancelProbe, IdentityOf;
  }

  lemma JoinConsents(h: Policy, r: Room, uid: Uid, spectator: bool, connection: int, w: World)
    requires r.stage == Waiting
    ensures Consented(Install(h, r, uid, spectator, connection, w), r)
  {
    CalmItself(r);
    UnreadyHushes(r.members);
    hide Unready, SeatFor, InstallAllowed, Calm;
  }

  lemma PresenceConsents(h: Policy, r: Room, e: Event, w: World)
    requires r.stage == Waiting && !r.gone
    requires e.Joins? || e.Departs? || e.Drops? || e.Returns? || e.Binds? || e.Tick? || e.TickMember? || e.Removes?
    ensures Consented(Step(h, r, e, w), r)
  {
    CalmItself(r);
    var x := Step(h, r, e, w);
    match e {
      case Joins(uid, spectator, admitted, connection) =>
        JoinConsents(h, r, uid, spectator, connection, w);
        hide Install, Calm, Hushed;
      case Departs(uid) =>
        LeaveConsents(h, r, uid, w);
        hide Leave, Consented;
      case Drops(uid) =>
        LeaveConsents(h, r, uid, w);
        hide Leave, Calm, Hushed;
        if uid in r.members && uid in r.located && r.settings.mode != TUTORIAL {
          CalmOne(r, x, uid, r.members[uid].(ready := false, phase := NoGame, connection := 0));
        }
      case Returns(uid, connection) =>
        hide Calm, Hushed;
        if uid in r.members && uid in r.suspended && r.members[uid].phase == NoGame {
          CalmOne(r, x, uid, r.members[uid].(phase := InLobby, connection := connection));
        }
      case Binds(uid) =>
        hide Calm, Hushed;
        if RestoreAllowed(r, uid, w) {
          CalmOne(r, x, uid, r.members[uid].(phase := InRoom));
        }
      case Tick =>
        ExpireConsents(h, r, w);
        hide ExpireRoom, Consented;
      case TickMember(uid) =>
        LeaveConsents(h, r.(suspended := r.suspended - {uid}), uid, w);
        hide Leave;
      case Removes(uid, target) =>
        LeaveConsents(h, r, target, w);
        hide Leave, Consented;
        CalmConsents(r);
    }
  }

  lemma CalmConsents(r: Room)
    requires r.stage == Waiting
    ensures Consented(r, r)
  {
  }

  lemma TeamConsents(r: Room, uid: Uid, team: int)
    requires r.stage == Waiting
    ensures Consented(ChangeTeam(r, uid, team), r)
  {
    CalmItself(r);
    if uid in r.members {
      var key := PositionKey(r.settings.mode, r.members, team, r.members[uid].slot, Some(uid));
      if key.Some? {
        UnreadyHushes(r.members[uid := r.members[uid].(team := team, key := key.value)]);
      }
    }
    hide Unready, PositionKey, Calm;
  }

  lemma ToggleConsents(h: Policy, r: Room, uid: Uid, w: World)
    requires r.stage == Waiting
    ensures Consented(Toggle(h, r, uid, w), r)
  {
    CalmItself(r);
    if uid in r.members && ToggledSeat(r, uid).1.Some? {
      UnreadyHushes(r.members[uid := ToggledMember(r, uid)]);
    }
    hide Unready, Calm, Heir, ToggleRefused, ToggledSeat, FightersOf, Leased;
  }

  lemma RequestConsents(h: Policy, r: Room, e: Event, w: World)
    requires r.stage == Waiting && !r.gone
    requires e.Changes? || e.Moves? || e.Hands? || e.Toggles? || e.Unreadies? || e.Enters?
    ensures Consented(Step(h, r, e, w), r)
  {
    CalmItself(r);
    match e {
      case Moves(uid, team) =>
        hide ChangeTeam, Consented;
        TeamConsents(r, uid, team);
      case Toggles(uid) =>
        hide Toggle, Consented;
        ToggleConsents(h, r, uid, w);
      case Unreadies(uid) =>
        if uid in r.members {
          CalmOne(r, r.(members := r.members[uid := r.members[uid].(ready := false)]), uid,
                  r.members[uid].(ready := false));
        }
        hide Calm;
      case _ =>
        UnreadyHushes(r.members);
        hide Unready, Admitted, Leased;
    }
  }

  lemma SwapConsents(r: Room, uid: Uid, step: SwapStep, s: Swap, w: World)
    requires r.stage == Waiting && !r.gone
    ensures Consented(ExchangeSeat(r, uid, step, s, w), r)
  {
    CalmItself(r);
    if SwapSound(r, s) {
      SwappedHushes(r, s);
      SwappedHushes(r.(exchange := None), s);
    }
    hide Swapped, SwapSound, SwapOpen, IdentityOf, FightersOf;
  }

  lemma SwappedHushes(r: Room, s: Swap)
    requires SwapSound(r, s)
    ensures Hushed(Swapped(r, s)) && Swapped(r, s).stage == r.stage
  {
    var a := r.members[s.source];
    if s.target in r.Fighters() {
      var b := r.members[s.target];
      UnreadyHushes(r.members[s.source := a.(key := b.key, team := b.team)]
                             [s.target := b.(key := a.key, team := a.team)]);
    } else {
      UnreadyHushes(r.members[s.source := a.(key := s.new_)]);
    }
    hide Unready;
  }

  lemma PlayConsents(h: Policy, r: Room, e: Event, w: World)
    requires Running(r) && r.stage == Waiting && !r.gone
    requires e.Loads? || e.Inputs? || e.Places? || e.Reports? || e.Finishes? || e.Acknowledges?
    ensures Consented(Step(h, r, e, w), r)
  {
    CalmItself(r);
    match e {
      case Acknowledges(uid) =>
        WaitingAdvance(h, r.(acks := r.acks + {uid}), w);
        hide Advance, Running, Calm;
      case Reports(uid, agreed) =>
        LateReportHarmless(r, uid, agreed);
        ReportCalm(r, uid, agreed);
        hide Report, Running, Calm;
      case _ =>
        BattleCalm(h, r, e, w);
        hide Step, Running, Calm;
    }
  }

  lemma ReportCalm(r: Room, uid: Uid, agreed: bool)
    requires r.stage == Waiting && Report(r, uid, agreed).stage == Waiting
    ensures Consented(Report(r, uid, agreed), r)
  {
    CalmItself(r);
    hide Reporters, FightersOf, SameSeats;
  }

  lemma BattleCalm(h: Policy, r: Room, e: Event, w: World)
    requires r.stage == Waiting && !r.gone && (e.Loads? || e.Inputs? || e.Places? || e.Finishes?)
    ensures Consented(Step(h, r, e, w), r)
  {
    CalmItself(r);
    hide Advance, Reporters, FightersOf, SameSeats;
  }

  /**
   * Whatever happens in a waiting room other than readying and starting,
   * a changed line-up takes every consent back.
   */
  lemma StepConsents(h: Policy, r: Room, e: Event, w: World)
    requires Running(r) && r.stage == Waiting && !r.gone && !e.Readies? && !e.Begins? && !e.Answers?
    ensures Consented(Step(h, r, e, w), r)
  {
    hide Running, Consented;
    if e.Joins? || e.Departs? || e.Drops? || e.Returns? || e.Binds? || e.Tick? || e.TickMember? || e.Removes? {
      hide Step;
      PresenceConsents(h, r, e, w);
    } else if e.Changes? || e.Moves? || e.Hands? || e.Toggles? || e.Unreadies? || e.Enters? {
      hide Step;
      RequestConsents(h, r, e, w);
    } else if e.Swaps? {
      hide ExchangeSeat;
      SwapConsents(r, e.uid, e.step, e.swap, w);
    } else {
      hide Step;
      PlayConsents(h, r, e, w);
    }
  }

  // ---------------------------------------------------------------- readying and starting

  lemma StartLineup(h: Policy, r: Room, w: World, plan: bool)
    ensures SameLineup(StartMatch(h, r, w, plan), r)
    ensures forall u <- StartMatch(h, r, w, plan).members ::
              StartMatch(h, r, w, plan).members[u].ready == r.members[u].ready
    ensures StartMatch(h, r, w, plan).stage in {r.stage, Loading} && StartMatch(h, r, w, plan).probe == r.probe
    ensures StartMatch(h, r, w, plan).Fighters() == r.Fighters() && StartMatch(h, r, w, plan).gone == r.gone
  {
    SameSeatsOf(r.members, InLoading, 0, Member(0, 0, false, false, 0, InRoom, 0));
    WithPhaseOf(r.members, InLoading);
    CalmItself(r);
    hide SameSeats, FightersOf;
  }

  ghost predicate FightersReady(x: Room) {
    forall u <- x.members :: !x.members[u].spectator ==> x.members[u].ready
  }

  /** What a ready request can do, besides marking its sender. */
  ghost predicate ReadyOutcome(h: Policy, x: Room, r: Room, uid: Uid, w: World) {
    && SameLineup(x, r) && (forall u <- x.members :: x.members[u].ready ==> u == uid || r.members[u].ready)
    && x.stage in {Waiting, Loading} && x.gone == r.gone
    && (x.stage == Loading ==> !h.probing && uid == r.owner && FightersReady(x) && x.probe == r.probe
                               && forall u <- r.members :: u !in r.suspended)
    && (x.probe == r.probe || (r.probe.None? && x.stage == Waiting && uid == r.owner && FightersReady(x)
                               && x.probe == Some(Probe(w.now, IdentityOf(x), x.Fighters()))))
  }

  /** What begin_start does to a room whose fighters are all ready. */
  ghost predicate BeginOutcome(h: Policy, x: Room, r: Room, w: World) {
    && SameLineup(x, r) && (forall u <- x.members :: x.members[u].ready == r.members[u].ready)
    && x.stage in {Waiting, Loading} && x.gone == r.gone
    && (x.stage == Loading ==> !h.probing && x.probe == r.probe)
    && (x.probe == r.probe || (r.probe.None? && x.stage == Waiting
                               && x.probe == Some(Probe(w.now, IdentityOf(x), x.Fighters()))))
  }

  lemma BeginEffects(h: Policy, r: Room, w: World, plan: bool)
    requires r.stage == Waiting
    ensures BeginOutcome(h, BeginStart(h, r, w, plan), r, w)
  {
    CalmItself(r);
    var y := r.(exchange := None);
    if !h.probing {
      StartLineup(h, y, w, plan);
      hide StartMatch, SameSeats, FightersOf;
    } else if y.probe.None? {
      var p := Some(Probe(w.now, IdentityOf(y), y.Fighters()));
      IdentityOffProbe(y, p);
      hide IdentityOf, SameSeats, FightersOf, StartMatch;
      assert BeginStart(h, r, w, plan) == y.(probe := p);
    } else {
      hide IdentityOf, SameSeats, FightersOf, StartMatch;
    }
  }

  function Marked(r: Room, uid: Uid): Room
    requires uid in r.members
  {
    r.(members := r.members[uid := r.members[uid].(ready := true)])
  }

  lemma MarkedOutcome(h: Policy, r: Room, uid: Uid, w: World)
    requires r.stage == Waiting && !r.gone && uid in r.members
    ensures ReadyOutcome(h, Marked(r, uid), r, uid, w)
  {
    SameSeatsOf(r.members, InRoom, uid, r.members[uid].(ready := true));
    hide SameSeats, FightersOf, IdentityOf, FightersReady;
  }

  lemma MarkedBegins(h: Policy, r: Room, uid: Uid, w: World, plan: bool)
    requires r.stage == Waiting && !r.gone && uid in r.members && uid == r.owner && AllReady(Marked(r, uid), w)
    ensures ReadyOutcome(h, BeginStart(h, Marked(r, uid), w, plan), r, uid, w)
  {
    var x := Marked(r, uid);
    var z := BeginStart(h, x, w, plan);
    assert forall u <- r.members :: u in x.members && u !in r.suspended;
    MarkedOutcome(h, r, uid, w);
    BeginEffects(h, x, w, plan);
    BeginReady(x, z, w);
    SameLineupTransitive(z, x, r);
    assert z.members.Keys == x.members.Keys;
    hide SameLineup, BeginStart, FightersOf, IdentityOf, AllReady, FightersReady;
  }

  lemma ReadyEffects(h: Policy, r: Room, uid: Uid, w: World, plan: bool)
    requires r.stage == Waiting && !r.gone
    ensures ReadyOutcome(h, Ready(h, r, uid, w, plan), r, uid, w)
  {
    CalmItself(r);
    if uid in r.members {
      MarkedOutcome(h, r, uid, w);
      if uid == r.owner && AllReady(Marked(r, uid), w) {
        MarkedBegins(h, r, uid, w, plan);
      }
    }
    assert ReadyOutcome(h, r, r, uid, w);
    hide ReadyOutcome, BeginStart, Balanced, OthersReady, AllReady, FightersOf;
  }

  lemma BeginReady(x: Room, z: Room, w: World)
    requires AllReady(x, w) && SameLineup(z, x) && forall u <- z.members :: z.members[u].ready == x.members[u].ready
    ensures FightersReady(z)
  {
    FightersAre(x.members);
  }

  lemma SameLineupTransitive(x: Room, y: Room, z: Room)
    requires SameLineup(x, y) && SameLineup(y, z)
    ensures SameLineup(x, z)
  {
  }

  /** A start is bound to exactly these things: any difference in one of them, and nothing else, breaks the probe. */
  lemma SameIdentityIff(x: Room, r: Room)
    ensures IdentityOf(x) == IdentityOf(r) <==>
      && x.owner == r.owner && x.settings == r.settings && x.members.Keys == r.members.Keys
      && forall u <- r.members :: u in x.members && SameSeat(x.members[u], r.members[u])
  {
    var p, q := IdentityOf(x).seats, IdentityOf(r).seats;
    assert p.Keys == x.members.Keys && q.Keys == r.members.Keys;
    forall u | u in r.members && u in x.members
      ensures p[u] == q[u] <==> SameSeat(x.members[u], r.members[u])
    {
    }
    if p.Keys == q.Keys && forall u <- p :: p[u] == q[u] {
      SameMap(p, q);
    }
  }

  /** Everything but the phase of the connection. */
  predicate SameSeat(m: Member, n: Member) { m.(phase := n.phase) == n }

  lemma IdentityOffProbe(r: Room, p: Option<Probe>)
    ensures IdentityOf(r.(probe := p)) == IdentityOf(r)
  {
  }

  lemma TutorialEffects(h: Policy, r: Room, uid: Uid, w: World)
    requires r.stage == Waiting && !r.gone
    ensures var x := TutorialReady(h, r, uid, w);
      && SameLineup(x, r) && (forall u <- x.members :: x.members[u].ready ==> u == uid || r.members[u].ready)
      && x.probe == r.probe && !x.gone && (x.stage != Waiting ==> r.settings.mode == TUTORIAL)
  {
    if uid in r.members {
      var m := r.members[uid].(ready := true);
      var x := r.(members := r.members[uid := m]);
      SameSeatsOf(r.members, InRoom, uid, m);
      StartLineup(h, x, w, true);
      hide StartMatch, FightersOf;
    }
  }

  /** What an answer to the delay probe can do. */
  ghost predicate AnswerOutcome(x: Room, r: Room, uid: Uid, w: World) {
    && SameLineup(x, r) && (forall u <- x.members :: x.members[u].ready ==> r.members[u].ready) && !x.gone
    && (x.stage == Loading ==>
          && x.probe == None && r.probe.Some? && r.probe.value.pending == {uid}
          && r.probe.value.identity == IdentityOf(r) && w.now - r.probe.value.start < 10.0
          && (forall u <- x.members :: x.members[u].ready == r.members[u].ready)
          && forall u <- r.members :: u !in r.suspended)
    && x.stage in {Waiting, Loading}
    && (x.probe == r.probe || x.probe.None?
        || (r.probe.Some? && uid in r.probe.value.pending && w.now - r.probe.value.start < 10.0
            && x.probe == Some(r.probe.value.(pending := r.probe.value.pending - {uid}))))
  }

  lemma AnswerEffects(h: Policy, r: Room, uid: Uid, w: World, plan: bool)
    requires r.stage == Waiting && !r.gone
    ensures AnswerOutcome(DelayReply(h, r, uid, w, plan), r, uid, w)
  {
    CalmItself(r);
    if Acts(r, uid) && r.probe.Some? && uid in r.probe.value.pending {
      if ProbeBroken(r, w) {
        UnreadyHushes(r.members);
        hide Unready, IdentityOf, SameSeats;
      } else {
        var left := r.probe.value.pending - {uid};
        if left == {} {
          LastAnswerEffects(h, r, uid, w, plan);
          hide AnswerOutcome, StartMatch, ProbeBroken;
        } else {
          hide StartMatch, IdentityOf, FightersOf, SameSeats;
        }
      }
    }
  }

  lemma LastAnswerEffects(h: Policy, r: Room, uid: Uid, w: World, plan: bool)
    requires r.stage == Waiting && !r.gone && r.probe.Some? && !ProbeBroken(r, w) && uid in r.probe.value.pending
    requires r.probe.value.pending - {uid} == {}
    ensures AnswerOutcome(StartMatch(h, r.(probe := None), w, plan), r, uid, w)
  {
    StartLineup(h, r.(probe := None), w, plan);
    assert r.probe.value.pending == {uid};
    assert forall u <- r.members :: u !in r.suspended;
    hide StartMatch, IdentityOf, FightersOf, SameSeats;
  }

  // ---------------------------------------------------------------- back from a match

  lemma AdvanceHushes(h: Policy, r: Room, w: World)
    requires r.stage != Waiting
    ensures Advance(h, r, w).stage == Waiting ==> Hushed(Advance(h, r, w))
  {
    var y := PassInput(h, PassLoad(r), w);
    UnreadyPhaseHushes(y.members);
    assert y.stage != Waiting;
    hide PassLoad, PassInput, Unready, FightersOf, WithPhase;
  }

  lemma UnreadyPhaseHushes(members: map<Uid, Member>)
    ensures forall u <- WithPhase(Unready(members), InRoom) :: !WithPhase(Unready(members), InRoom)[u].ready
  {
  }

  lemma ReturnHushes(h: Policy, r: Room, e: Event, w: World)
    requires r.stage != Waiting && !r.gone
    ensures var x := Step(h, r, e, w); x.gone || x.stage != Waiting || Hushed(x)
  {
    match e {
      case Departs(uid) => LeaveReturns(h, r, uid, w);
      case Drops(uid) =>
        LeaveReturns(h, r, uid, w);
        hide Leave;
      case Tick =>
        LeaveReturns(h, r, r.owner, w);
        hide Leave, CancelProbe, IdentityOf;
        CancelProbeStage(r);
        CancelProbeStage(r.(exchange := None));
      case TickMember(uid) =>
        LeaveReturns(h, r.(suspended := r.suspended - {uid}), uid, w);
        hide Leave;
      case Loads(uid) =>
        AdvanceHushes(h, r.(loaded := r.loaded + {uid}), w);
        hide Advance;
      case Inputs(uid) =>
        AdvanceHushes(h, r.(input := r.input + {uid}), w);
        hide Advance;
      case Acknowledges(uid) =>
        AdvanceHushes(h, r.(acks := r.acks + {uid}), w);
        hide Advance;
      case _ => OtherwiseStays(h, r, e, w);
    }
  }

  lemma OtherwiseStays(h: Policy, r: Room, e: Event, w: World)
    requires r.stage != Waiting && !r.gone
    requires e.Changes? || e.Moves? || e.Hands? || e.Toggles? || e.Swaps? || e.Readies? || e.Unreadies? || e.Enters?
          || e.Begins? || e.Answers? || e.Joins? || e.Returns? || e.Binds? || e.Places? || e.Reports? || e.Finishes?
          || e.Removes?
    ensures Step(h, r, e, w).stage != Waiting
  {
    hide Leave, FightersOf, Reporters, ToggledSeat, ToggleRefused, SwapSound,
      ProbeBroken, Balanced, OthersReady, AllReady,
      SeatFor, PositionKey, Admitted, Unready, WithPhase, IdentityOf, Heir;
  }

  lemma CancelProbeStage(r: Room)
    ensures CancelProbe(r).stage == r.stage
  {
  }

  lemma LeaveReturns(h: Policy, r: Room, uid: Uid, w: World)
    requires r.stage != Waiting && !r.gone
    ensures var x := Leave(h, r, uid, w); x.gone || x.stage != Waiting || Hushed(x)
  {
    DropFields(r, uid);
    AdvanceHushes(h, Drop(r, uid), w);
    hide Drop, Advance, Hushed;
  }
}
