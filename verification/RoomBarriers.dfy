/** Loading, input and result barriers: none is ever left waiting, and every stage has live connections. */
module RoomBarriers {
  import opened RoomState
  import opened RoomRules
  import opened RoomSeating

  /** A member is suspended exactly while not back in the waiting room; a running match has none. */
  predicate PhaseFits(stage: Stage, phase: Phase, suspended: bool) {
    match stage
    case Waiting => if suspended then phase == NoGame || phase == InLobby else phase == InRoom
    case Loading => !suspended && phase == InLoading
    case WaitReady => !suspended && phase == InWaitReady
    case Fighting => !suspended && phase == InBattle
    case Finished => !suspended && phase == InBattle
  }

  ghost predicate Phased(stage: Stage, members: map<Uid, Member>, suspended: map<Uid, real>) {
    && (forall u <- members :: PhaseFits(stage, members[u].phase, u in suspended))
    && forall u <- suspended :: u in members
  }

  predicate Settled(r: Room) {
    !LoadBarrier(r) && !InputBarrier(r) && !ResultBarrier(r)
  }

  predicate Progressed(r: Room) {
    && (r.stage == Waiting ==> r.loaded == {} && r.input == {})
    && r.loaded <= r.members.Keys && r.input <= r.Fighters() && r.acks <= r.members.Keys
    && (r.stage in {WaitReady, Fighting, Finished} ==> r.loaded == r.members.Keys)
    && (r.stage in {Fighting, Finished} ==> r.input == r.Fighters())
    && (r.stage in {Loading, WaitReady, Fighting} ==> r.replies == {} && r.acks == {})
    && (r.probe.Some? ==> r.stage == Waiting)
    && (r.pve ==> r.settings.mode in {FOSTER, ASSAULT})
  }

  /** Once a result stands, the first report of a competitive room names only members that reported themselves. */
  predicate ResultStands(r: Room) {
    r.settings.mode in COMPETITIVE && (r.stage == Finished || (r.stage == Waiting && r.replies != {})) ==>
      r.reports != [] && r.reports[0].1 <= Reporters(r.reports)
  }

  ghost predicate Running(r: Room) {
    !r.gone ==> Phased(r.stage, r.members, r.suspended) && Progressed(r) && Settled(r) && ResultStands(r)
  }

  // ---------------------------------------------------------------- advancing

  /** Whatever was enabled before, nothing is enabled after the barriers have been advanced. */
  lemma AdvanceSettles(h: Policy, r: Room, w: World)
    ensures Settled(Advance(h, r, w))
  {
    hide WithPhase, Unready, FightersOf;
    var x := PassLoad(r);
    var y := PassInput(h, x, w);
    assert !LoadBarrier(x) && !LoadBarrier(y) && !InputBarrier(y);
  }

  lemma WithPhaseOf(members: map<Uid, Member>, p: Phase)
    ensures WithPhase(members, p).Keys == members.Keys && FightersOf(WithPhase(members, p)) == FightersOf(members)
    ensures forall u <- members :: u in WithPhase(members, p) && WithPhase(members, p)[u].phase == p
    ensures Unready(members).Keys == members.Keys && FightersOf(Unready(members)) == FightersOf(members)
  {
    SameRoles(WithPhase(members, p), members);
    SameRoles(Unready(members), members);
  }

  /** A room between two barriers: everything but the barriers themselves. */
  ghost predicate Loose(r: Room) {
    Phased(r.stage, r.members, r.suspended) && Progressed(r) && ResultStands(r)
  }

  ghost predicate NoneSuspended(r: Room) {
    forall u: Uid :: u !in r.suspended
  }

  lemma PassLoadKeeps(r: Room)
    requires Loose(r) && NoneSuspended(r)
    ensures Loose(PassLoad(r)) && NoneSuspended(PassLoad(r))
  {
    WithPhaseOf(r.members, InWaitReady);
    hide WithPhase, FightersOf, Reporters;
  }

  lemma PassInputKeeps(h: Policy, r: Room, w: World)
    requires Loose(r) && NoneSuspended(r)
    ensures Loose(PassInput(h, r, w)) && NoneSuspended(PassInput(h, r, w))
  {
    WithPhaseOf(r.members, InBattle);
    hide WithPhase, FightersOf, Reporters;
  }

  lemma PassResultKeeps(r: Room)
    requires Loose(r) && NoneSuspended(r)
    ensures Loose(PassResult(r))
  {
    WithPhaseOf(r.members, InRoom);
    WithPhaseOf(Unready(r.members), InRoom);
    hide WithPhase, Unready, FightersOf, Reporters;
  }

  lemma AdvanceRuns(h: Policy, r: Room, w: World)
    requires Loose(r) && NoneSuspended(r)
    ensures Running(Advance(h, r, w))
  {
    AdvanceSettles(h, r, w);
    hide Loose, Settled, PassLoad, PassInput, PassResult, NoneSuspended;
    PassLoadKeeps(r);
    PassInputKeeps(h, PassLoad(r), w);
    PassResultKeeps(PassInput(h, PassLoad(r), w));
    LooseSettled(Advance(h, r, w));
  }

  lemma LooseSettled(r: Room)
    requires Loose(r) && Settled(r)
    ensures Running(r)
  {
  }

  lemma SuspendedWaits(r: Room, u: Uid)
    requires Phased(r.stage, r.members, r.suspended) && u in r.suspended
    ensures r.stage == Waiting
  {
    assert u in r.members;
  }

  lemma NobodySuspended(r: Room)
    requires Loose(r) && r.stage != Waiting
    ensures NoneSuspended(r)
  {
    forall u: Uid
      ensures u !in r.suspended
    {
      if u in r.suspended {
        SuspendedWaits(r, u);
      }
    }
  }

  // ---------------------------------------------------------------- steps in a waiting room

  /** Phases and suspension of everybody, whatever seats and flags they have. */
  ghost predicate SamePhases(x: Room, r: Room) {
    && x.members.Keys == r.members.Keys && x.suspended == r.suspended
    && forall u <- x.members :: x.members[u].phase == r.members[u].phase
  }

  /** Requests that keep the room waiting and its members present. */
  lemma StaysWaiting(r: Room, x: Room)
    requires Running(r) && !r.gone && !x.gone && r.stage == Waiting && x.stage == Waiting
    requires Phased(Waiting, x.members, x.suspended)
    requires x.loaded == {} && x.input == {} && x.acks <= x.members.Keys && x.reports == r.reports
    requires x.replies != {} ==> r.replies != {}
    requires x.settings.mode == r.settings.mode && x.pve == r.pve
    ensures Running(x)
  {
    hide Reporters, FightersOf, Phased;
  }

  lemma PhasedSame(x: Room, r: Room)
    requires Phased(r.stage, r.members, r.suspended) && SamePhases(x, r)
    ensures Phased(r.stage, x.members, x.suspended)
  {
  }

  lemma StartRuns(h: Policy, r: Room, w: World, plan: bool)
    requires Running(r) && !r.gone && r.stage == Waiting && r.members != map[] && r.probe.None?
    requires forall u <- r.members :: u !in r.suspended
    ensures Running(StartMatch(h, r, w, plan))
  {
    WithPhaseOf(r.members, InLoading);
    var x := StartMatch(h, r, w, plan);
    hide WithPhase, FightersOf, Reporters;
    if x.stage == Loading {
      assert x.members.Keys == r.members.Keys && r.members.Keys != {};
      assert Phased(Loading, x.members, x.suspended);
    }
  }

  // ---------------------------------------------------------------- leaving

  lemma CancelProbeRuns(r: Room)
    requires Running(r) && !r.gone
    ensures Running(CancelProbe(r)) && SamePhases(CancelProbe(r), r)
    ensures CancelProbe(r) == r.(probe := None, members := CancelProbe(r).members)
    ensures FightersOf(CancelProbe(r).members) == r.Fighters()
  {
    WithPhaseOf(r.members, InRoom);
    hide FightersOf, Reporters;
    var x := CancelProbe(r);
    PhasedSame(x, r);
  }

  lemma DropProgress(r: Room, uid: Uid)
    ensures var d := Drop(r, uid);
      && d.suspended == r.suspended - {uid} && d.loaded == r.loaded - {uid} && d.input == r.input - {uid}
      && d.acks == r.acks - {uid} && d.replies == r.replies - {uid} && d.reports == r.reports && d.pve == r.pve
      && d.positions == r.positions
  {
    hide Unready, Without;
  }

  lemma DropLoose(r: Room, uid: Uid)
    requires Seated(r) && Running(r) && !r.gone && uid in r.members
    requires r.stage == Waiting || r.members[uid].spectator
    ensures Loose(Drop(r, uid))
  {
    CancelProbeRuns(r);
    DropFields(r, uid);
    DropProgress(r, uid);
    FightersAre(r.members);
    var d, x := Drop(r, uid), CancelProbe(r);
    DropFighters(x.members, uid);
    hide Drop, CancelProbe, FightersOf, Reporters, Without, Seated;
    assert Phased(d.stage, d.members, d.suspended);
    assert d.members.Keys == r.members.Keys - {uid};
    assert d.Fighters() == r.Fighters() - {uid};
  }

  lemma DropFighters(members: map<Uid, Member>, uid: Uid)
    ensures FightersOf(members - {uid}) == FightersOf(members) - {uid}
  {
  }

  lemma LeaveRuns(h: Policy, r: Room, uid: Uid, w: World)
    requires Seated(r) && Running(r) && !r.gone
    ensures Running(Leave(h, r, uid, w))
  {
    if uid in r.members && uid in r.located && Drop(r, uid).members != map[] {
      DropFields(r, uid);
      var d := Drop(r, uid);
      if r.stage == Waiting {
        DropLoose(r, uid);
        DropProgress(r, uid);
        WithPhaseOf(d.members, InRoom);
        hide Drop, Unready, WithPhase, FightersOf, Reporters, Seated;
        var x := Leave(h, r, uid, w);
        assert x.members == Unready(d.members);
        PhasedSame(x, d);
        assert Loose(x);
        LooseSettled(x);
      } else if r.members[uid].spectator {
        DropLoose(r, uid);
        hide Drop, Advance, Loose, Running, Seated;
        NobodySuspended(d);
        AdvanceRuns(h, d, w);
      }
    }
  }

  lemma DropExpired(r: Room, uid: Uid)
    ensures Drop(r.(suspended := r.suspended - {uid}), uid) == Drop(r, uid)
  {
    assert r.suspended - {uid} - {uid} == r.suspended - {uid};
    hide Unready, Without, Unprobed;
    assert Unprobed(r.(suspended := r.suspended - {uid})) == Unprobed(r) by {
      UnprobedOf(r, uid);
    }
  }

  lemma UnprobedOf(r: Room, uid: Uid)
    ensures Unprobed(r.(suspended := r.suspended - {uid})) == Unprobed(r)
  {
  }

  lemma ExpiredLeaves(h: Policy, r: Room, uid: Uid, w: World)
    requires uid in r.members && uid in r.located
    ensures Leave(h, r.(suspended := r.suspended - {uid}), uid, w) == Leave(h, r, uid, w)
  {
    DropExpired(r, uid);
    hide Drop, Advance, Heir, Unready, Abort;
  }

  // ---------------------------------------------------------------- every step

  lemma InstallRuns(h: Policy, r: Room, uid: Uid, spectator: bool, connection: int, w: World)
    requires Running(r) && !r.gone && uid !in r.members
    ensures Running(Install(h, r, uid, spectator, connection, w))
  {
    var x := Install(h, r, uid, spectator, connection, w);
    if InstallAllowed(h, r, uid, spectator, w) {
      hide FightersOf, SeatFor, Reporters, InstallAllowed;
      assert r.stage == Waiting;
      assert Phased(Waiting, x.members, x.suspended) by {
        InstallPhases(r.members, r.suspended, uid, x.members[uid]);
      }
      StaysWaiting(r, x);
    }
  }

  lemma InstallPhases(members: map<Uid, Member>, suspended: map<Uid, real>, uid: Uid, m: Member)
    requires Phased(Waiting, members, suspended) && uid !in members && m.phase == InRoom
    ensures Phased(Waiting, Unready(members)[uid := m], suspended)
  {
  }

  lemma SetMemberPhased(r: Room, uid: Uid, m: Member, suspended: map<Uid, real>)
    requires Phased(Waiting, r.members, r.suspended) && uid in r.members
    requires forall u: Uid :: u != uid ==> (u in suspended <==> u in r.suspended)
    requires PhaseFits(Waiting, m.phase, uid in suspended)
    ensures Phased(Waiting, r.members[uid := m], suspended)
  {
  }

  lemma UnreadyPhases(members: map<Uid, Member>)
    ensures Unready(members).Keys == members.Keys
    ensures forall u <- members :: u in Unready(members) && Unready(members)[u].phase == members[u].phase
  {
  }

  lemma PresenceRuns(h: Policy, r: Room, e: Event, w: World)
    requires Seated(r) && Running(r) && !r.gone
    requires e.Joins? || e.Departs? || e.Drops? || e.Returns? || e.Binds? || e.Tick? || e.TickMember? || e.Removes?
    ensures Running(Step(h, r, e, w))
  {
    match e {
      case Joins(uid, spectator, admitted, connection) =>
        hide Install, Running;
        if uid != 0 && uid !in r.located {
          InstallRuns(h, r, uid, spectator, connection, w);
        }
      case Departs(uid) =>
        hide Leave, Running;
        LeaveRuns(h, r, uid, w);
      case Drops(uid) =>
        LeaveRuns(h, r, uid, w);
        if r.stage == Waiting && r.settings.mode != TUTORIAL {
          DroppedRuns(h, r, uid, w);
        }
        hide Leave, Running;
      case Returns(uid, connection) => ReturnedRuns(r, uid, connection);
      case Binds(uid) => BoundRuns(r, uid, w);
      case Tick =>
        LeaveRuns(h, r, r.owner, w);
        TickRuns(h, r, w);
      case TickMember(uid) =>
        if uid in r.suspended {
          assert uid in r.members;
          ExpiredLeaves(h, r, uid, w);
          hide Leave, Running;
          LeaveRuns(h, r, uid, w);
        }
      case Removes(uid, target) =>
        hide Leave, Running;
        LeaveRuns(h, r, target, w);
    }
  }

  lemma DroppedRuns(h: Policy, r: Room, uid: Uid, w: World)
    requires Seated(r) && Running(r) && !r.gone && r.stage == Waiting && r.settings.mode != TUTORIAL
    ensures Running(Disconnected(h, r, uid, w))
  {
    var x := Disconnected(h, r, uid, w);
    hide FightersOf, Reporters, Leave, Seated;
    if uid in r.located && uid in r.members {
      SetMemberPhased(r, uid, x.members[uid], x.suspended);
      hide Phased;
      StaysWaiting(r, x);
    }
  }

  lemma ReturnedRuns(r: Room, uid: Uid, connection: int)
    requires Running(r) && !r.gone
    ensures Running(Reconnected(r, uid, connection))
  {
    var x := Reconnected(r, uid, connection);
    hide FightersOf, Reporters;
    if uid in r.members && uid in r.suspended && r.members[uid].phase == NoGame {
      SuspendedWaits(r, uid);
      SetMemberPhased(r, uid, x.members[uid], x.suspended);
      hide Phased;
      StaysWaiting(r, x);
    }
  }

  lemma BoundRuns(r: Room, uid: Uid, w: World)
    requires Running(r) && !r.gone
    ensures Running(Restore(r, uid, w))
  {
    var x := Restore(r, uid, w);
    hide FightersOf, Reporters;
    if RestoreAllowed(r, uid, w) {
      SetMemberPhased(r, uid, x.members[uid], x.suspended);
      hide Phased;
      StaysWaiting(r, x);
    }
  }

  lemma TickRuns(h: Policy, r: Room, w: World)
    requires Running(r) && !r.gone && Running(Leave(h, r, r.owner, w))
    ensures Running(ExpireRoom(h, r, w))
  {
    assert Running(r.(exchange := None));
    CancelProbeRuns(r);
    CancelProbeRuns(r.(exchange := None));
    hide Running, Leave, CancelProbe, IdentityOf;
  }

  /** Requests that only change seats, roles, flags, owner or settings. */
  lemma RequestRuns(r: Room, x: Room)
    requires Running(r) && !r.gone && r.stage == Waiting && SamePhases(x, r)
    requires x == r.(owner := x.owner, settings := x.settings, members := x.members, exchange := x.exchange,
                     probe := x.probe, tutorial := x.tutorial)
    requires x.settings.mode == r.settings.mode
    ensures Running(x)
  {
    PhasedSame(x, r);
    hide FightersOf, Reporters, Phased;
    StaysWaiting(r, x);
  }

  /** A change of seat, role or flag that ends with everybody unready. */
  lemma UnreadySamePhases(r: Room, x: Room, uid: Uid, m: Member)
    requires x.suspended == r.suspended && uid in r.members && m.phase == r.members[uid].phase
    requires x.members == Unready(r.members[uid := m])
    ensures SamePhases(x, r)
  {
    UnreadyPhases(r.members[uid := m]);
  }

  lemma SettingsRun(h: Policy, r: Room, uid: Uid, update: Update)
    requires Running(r) && !r.gone
    ensures Running(ChangeSettings(h, r, uid, update))
  {
    UnreadyPhases(r.members);
    hide Running, Admitted, Unready;
    if ChangeSettings(h, r, uid, update) != r {
      RequestRuns(r, ChangeSettings(h, r, uid, update));
    }
  }

  lemma TransferRuns(r: Room, uid: Uid, target: Uid, w: World)
    requires Running(r) && !r.gone
    ensures Running(Transfer(r, uid, target, w))
  {
    UnreadyPhases(r.members);
    hide Running, Unready, Leased;
    if Transfer(r, uid, target, w) != r {
      RequestRuns(r, Transfer(r, uid, target, w));
    }
  }

  lemma TeamRuns(r: Room, uid: Uid, team: int)
    requires Running(r) && !r.gone
    ensures Running(ChangeTeam(r, uid, team))
  {
    var x := ChangeTeam(r, uid, team);
    hide Running, Unready, PositionKey;
    if x != r {
      var key := PositionKey(r.settings.mode, r.members, team, r.members[uid].slot, Some(uid));
      UnreadySamePhases(r, x, uid, r.members[uid].(team := team, key := key.value));
      RequestRuns(r, x);
    }
  }

  lemma ToggleRuns(h: Policy, r: Room, uid: Uid, w: World)
    requires Running(r) && !r.gone
    ensures Running(Toggle(h, r, uid, w))
  {
    var x := Toggle(h, r, uid, w);
    hide Running, Unready, ToggledSeat, ToggleRefused, Leased, Heir, FightersOf;
    if x != r {
      UnreadySamePhases(r, x, uid, ToggledMember(r, uid));
      RequestRuns(r, x);
    }
  }

  lemma UnreadyRuns(r: Room, uid: Uid)
    requires Running(r) && !r.gone
    ensures Running(CancelReady(r, uid))
  {
    var x := CancelReady(r, uid);
    hide Running;
    if x != r {
      RequestRuns(r, x);
    }
  }

  lemma SwapRuns(r: Room, uid: Uid, step: SwapStep, s: Swap, w: World)
    requires Running(r) && !r.gone
    ensures Running(ExchangeSeat(r, uid, step, s, w))
  {
    var x := ExchangeSeat(r, uid, step, s, w);
    if SwapOpen(r, uid) && SwapSound(r, s) {
      SwappedPhases(r, s);
      SwappedPhases(r.(exchange := None), s);
      hide Running, Swapped, SwapSound, FightersOf, IdentityOf;
      if x != r {
        RequestRuns(r, x);
      }
    }
  }

  lemma SwappedPhases(r: Room, s: Swap)
    requires SwapSound(r, s)
    ensures Swapped(r, s) == r.(members := Swapped(r, s).members) && SamePhases(Swapped(r, s), r)
  {
    var a := r.members[s.source];
    if s.target in r.Fighters() {
      var b := r.members[s.target];
      UnreadyPhases(r.members[s.source := a.(key := b.key, team := b.team)]
                             [s.target := b.(key := a.key, team := a.team)]);
    } else {
      UnreadyPhases(r.members[s.source := a.(key := s.new_)]);
    }
    hide Unready;
  }

  // ---------------------------------------------------------------- starting and playing

  lemma MarkedReady(r: Room, uid: Uid)
    requires Running(r) && !r.gone && r.stage == Waiting && uid in r.members
    ensures Running(r.(members := r.members[uid := r.members[uid].(ready := true)]))
  {
    hide Running;
    RequestRuns(r, r.(members := r.members[uid := r.members[uid].(ready := true)]));
  }

  lemma BeginRuns(h: Policy, r: Room, w: World, plan: bool)
    requires Running(r) && !r.gone && r.stage == Waiting && r.members != map[]
    requires forall u <- r.members :: u !in r.suspended
    requires !h.probing ==> r.probe.None?
    ensures Running(BeginStart(h, r, w, plan))
  {
    var x := r.(exchange := None);
    assert Running(x);
    hide FightersOf, IdentityOf, StartMatch;
    if !h.probing {
      hide Running;
      StartRuns(h, x, w, plan);
    } else if x.probe.None? {
      hide Running;
      RequestRuns(x, BeginStart(h, r, w, plan));
    }
  }

  lemma ReadyRuns(h: Policy, r: Room, uid: Uid, w: World, plan: bool)
    requires Running(r) && !r.gone && (!h.probing ==> r.probe.None?)
    ensures Running(Ready(h, r, uid, w, plan))
  {
    if uid in r.members && r.stage == Waiting {
      MarkedReady(r, uid);
      var x := r.(members := r.members[uid := r.members[uid].(ready := true)]);
      assert uid in x.members;
      if AllReady(x, w) {
        hide Running, BeginStart, FightersOf;
        BeginRuns(h, x, w, plan);
      }
      hide Running, BeginStart, FightersOf, Balanced, OthersReady, AllReady;
    }
  }

  lemma TutorialRuns(h: Policy, r: Room, uid: Uid, w: World)
    requires Running(r) && !r.gone && Acts(r, uid) && r.probe.None?
    requires forall u <- r.members :: u !in r.suspended
    ensures Running(TutorialReady(h, r, uid, w))
  {
    MarkedReady(r, uid);
    var x := r.(members := r.members[uid := r.members[uid].(ready := true)]);
    assert uid in x.members;
    hide Running, StartMatch, FightersOf;
    StartRuns(h, x, w, true);
  }

  lemma ReplyRuns(h: Policy, r: Room, uid: Uid, w: World, plan: bool)
    requires Running(r) && !r.gone
    ensures Running(DelayReply(h, r, uid, w, plan))
  {
    if Acts(r, uid) && r.probe.Some? && uid in r.probe.value.pending {
      if ProbeBroken(r, w) {
        hide Running;
        CancelProbeRuns(r);
      } else {
        assert forall u <- r.members :: u !in r.suspended;
        var x := r.(probe := None);
        hide Running, ProbeBroken, IdentityOf, StartMatch;
        RequestRuns(r, x);
        StartRuns(h, x, w, plan);
        var left := r.probe.value.pending - {uid};
        RequestRuns(r, r.(probe := Some(r.probe.value.(pending := left))));
      }
    }
  }

  lemma LoadRuns(h: Policy, r: Room, uid: Uid, w: World)
    requires Running(r) && !r.gone
    ensures Running(Load(h, r, uid, w))
  {
    if uid in r.members && r.stage == Loading {
      var x := r.(loaded := r.loaded + {uid});
      NobodySuspended(r);
      assert Loose(x) && NoneSuspended(x);
      hide Running, Advance, Loose;
      AdvanceRuns(h, x, w);
    }
  }

  lemma InputRuns(h: Policy, r: Room, uid: Uid, w: World)
    requires Running(r) && !r.gone
    ensures Running(InputReady(h, r, uid, w))
  {
    if uid in r.members && r.stage == WaitReady && !r.members[uid].spectator {
      var x := r.(input := r.input + {uid});
      NobodySuspended(r);
      FightersAre(r.members);
      hide FightersOf, Reporters;
      assert Loose(x) && NoneSuspended(x);
      hide Running, Advance, Loose;
      AdvanceRuns(h, x, w);
    }
  }

  lemma AcknowledgeRuns(h: Policy, r: Room, uid: Uid, w: World)
    requires Running(r) && !r.gone && r.located == r.members.Keys
    ensures Running(Acknowledge(h, r, uid, w))
  {
    if uid in r.located && uid in r.replies {
      var x := r.(acks := r.acks + {uid});
      hide FightersOf, Reporters;
      assert Loose(x);
      if r.stage == Waiting {
        WaitingAdvance(h, x, w);
        LooseSettled(x);
      } else {
        NobodySuspended(x);
        hide Running, Advance, Loose;
        AdvanceRuns(h, x, w);
      }
    }
  }

  lemma WaitingAdvance(h: Policy, r: Room, w: World)
    requires r.stage == Waiting
    ensures Advance(h, r, w) == r && Settled(r)
  {
    hide FightersOf, WithPhase, Unready;
  }

  /** The host places its position snapshot before it has loaded, so it never enables the loading barrier. */
  lemma PlaceRuns(r: Room, uid: Uid)
    requires Running(r) && !r.gone
    ensures Running(Positions(r, uid))
  {
    hide FightersOf, Reporters;
    if Positions(r, uid) != r {
      assert uid in r.members.Keys && uid !in r.loaded;
    }
  }

  lemma ReportersGrow(reports: seq<(Uid, set<Uid>)>, uid: Uid, f: set<Uid>)
    ensures Reporters(reports + [(uid, f)]) == Reporters(reports) + {uid}
  {
    var more := reports + [(uid, f)];
    assert forall i :: 0 <= i < |reports| ==> more[i] == reports[i];
    forall u
      ensures u in Reporters(more) <==> u in Reporters(reports) + {uid}
    {
      if u in Reporters(reports) {
        var i :| 0 <= i < |reports| && reports[i].0 == u;
        assert more[i].0 == u;
      }
      if u == uid {
        assert more[|reports|].0 == u;
      }
    }
  }

  /** A report arriving after the room is waiting again cannot bring a second result. */
  lemma LateReportHarmless(r: Room, uid: Uid, agreed: bool)
    requires Running(r) && !r.gone && r.stage == Waiting
    ensures Report(r, uid, agreed).stage == Waiting
  {
    if uid in r.members && !r.members[uid].spectator && uid !in Reporters(r.reports) && r.replies != {}
       && r.settings.mode in COMPETITIVE {
      var candidate := r.reports + [(uid, r.Fighters())];
      FightersAre(r.members);
      assert candidate[0] == r.reports[0];
      assert uid in r.Fighters() && uid !in candidate[0].1;
    }
  }

  lemma ReportRuns(r: Room, uid: Uid, agreed: bool)
    requires Running(r) && !r.gone && (r.stage != Waiting ==> r.Fighters() != {})
    ensures Running(Report(r, uid, agreed))
  {
    ReportersGrow(r.reports, uid, r.Fighters());
    if r.stage == Waiting {
      LateReportHarmless(r, uid, agreed);
    } else {
      FightersIn(r.members);
    }
    var x := Report(r, uid, agreed);
    hide FightersOf, Reporters;
    if x != r {
      assert x.reports == r.reports + [(uid, r.Fighters())];
      assert r.reports != [] ==> x.reports[0] == r.reports[0];
      assert Phased(x.stage, x.members, x.suspended);
    }
  }

  lemma FightersIn(members: map<Uid, Member>)
    ensures FightersOf(members) <= members.Keys
  {
  }

  lemma FinishRuns(r: Room, uid: Uid, qualified: bool)
    requires Running(r) && !r.gone && r.located == r.members.Keys
    ensures Running(StageFinish(r, uid, qualified))
  {
    var x := StageFinish(r, uid, qualified);
    hide FightersOf, Reporters;
    if x != r {
      assert Phased(x.stage, x.members, x.suspended);
      assert uid in r.members.Keys;
    }
  }

  // ---------------------------------------------------------------- every run

  /** Probes exist only where they are enabled, and the tutorial knows neither probes nor suspension. */
  ghost predicate Modal(h: Policy, r: Room) {
    && (r.probe.Some? ==> h.probing && r.settings.mode != TUTORIAL)
    && (r.settings.mode == TUTORIAL ==> NoneSuspended(r))
  }

  /** The part of a room that Modal looks at changes only by requests of a waiting room. */
  ghost predicate NoNewcomers(x: Room, r: Room) {
    (x.probe.Some? ==> r.probe.Some?) && forall u: Uid :: u in x.suspended ==> u in r.suspended
  }

  lemma AdvanceNewcomers(h: Policy, r: Room, w: World)
    ensures NoNewcomers(Advance(h, r, w), r)
  {
    hide LoadBarrier, InputBarrier, ResultBarrier, Unready, WithPhase;
    var x := PassLoad(r);
    var y := PassInput(h, x, w);
    assert x.probe == r.probe && x.suspended == r.suspended;
    assert y.probe == r.probe && y.suspended == r.suspended;
    hide PassLoad, PassInput;
    assert PassResult(y).probe == y.probe && PassResult(y).suspended == y.suspended;
  }

  lemma LeaveNewcomers(h: Policy, r: Room, uid: Uid, w: World)
    ensures NoNewcomers(Leave(h, r, uid, w), r)
  {
    DropFields(r, uid);
    DropProgress(r, uid);
    AdvanceNewcomers(h, Drop(r, uid), w);
    hide Drop, Advance, Unready, Heir;
  }

  lemma StepNewcomers(h: Policy, r: Room, e: Event, w: World)
    requires !e.Drops? && !e.Readies?
    ensures NoNewcomers(Step(h, r, e, w), r)
  {
    hide Leave, Advance, NoNewcomers;
    NoNewcomersItself(r);
    match e {
      case Departs(uid) => LeaveNewcomers(h, r, uid, w);
      case Tick =>
        LeaveNewcomers(h, r, r.owner, w);
        TickNewcomers(h, r, w);
      case TickMember(uid) => ExpiredNewcomers(h, r, uid, w);
      case Removes(uid, target) => LeaveNewcomers(h, r, target, w);
      case Loads(uid) => BarrierNewcomers(h, r, r.(loaded := r.loaded + {uid}), w);
      case Inputs(uid) => BarrierNewcomers(h, r, r.(input := r.input + {uid}), w);
      case Acknowledges(uid) => BarrierNewcomers(h, r, r.(acks := r.acks + {uid}), w);
      case _ => RequestNewcomers(h, r, e, w);
    }
  }

  lemma NoNewcomersItself(r: Room)
    ensures NoNewcomers(r, r)
  {
  }

  lemma TickNewcomers(h: Policy, r: Room, w: World)
    requires NoNewcomers(Leave(h, r, r.owner, w), r)
    ensures NoNewcomers(ExpireRoom(h, r, w), r)
  {
    hide Leave, IdentityOf, Unready;
  }

  lemma ExpiredNewcomers(h: Policy, r: Room, uid: Uid, w: World)
    ensures NoNewcomers(ExpireMember(h, r, uid, w), r)
  {
    LeaveNewcomers(h, r.(suspended := r.suspended - {uid}), uid, w);
    hide Leave;
  }

  lemma BarrierNewcomers(h: Policy, r: Room, x: Room, w: World)
    requires x == r.(loaded := x.loaded, input := x.input, acks := x.acks)
    ensures NoNewcomers(Advance(h, x, w), r)
  {
    AdvanceNewcomers(h, x, w);
    hide Advance;
  }

  lemma RequestNewcomers(h: Policy, r: Room, e: Event, w: World)
    requires e.Changes? || e.Moves? || e.Hands? || e.Toggles? || e.Swaps? || e.Unreadies? || e.Enters?
          || e.Begins? || e.Answers? || e.Joins? || e.Returns? || e.Binds? || e.Places? || e.Reports? || e.Finishes?
    ensures NoNewcomers(Step(h, r, e, w), r)
  {
    if e.Joins? || e.Returns? || e.Binds? || e.Places? || e.Reports? || e.Finishes? {
      ArrivalNewcomers(h, r, e, w);
    } else {
      WaitingNewcomers(h, r, e, w);
    }
    hide *;
  }

  lemma ArrivalNewcomers(h: Policy, r: Room, e: Event, w: World)
    requires e.Joins? || e.Returns? || e.Binds? || e.Places? || e.Reports? || e.Finishes?
    ensures NoNewcomers(Step(h, r, e, w), r)
  {
    hide Unready, InstallAllowed, RestoreAllowed, Reporters, PositionKey, FightersOf, Leased;
  }

  lemma WaitingNewcomers(h: Policy, r: Room, e: Event, w: World)
    requires e.Changes? || e.Moves? || e.Hands? || e.Toggles? || e.Swaps? || e.Unreadies? || e.Enters?
          || e.Begins? || e.Answers?
    ensures NoNewcomers(Step(h, r, e, w), r)
  {
    if e.Swaps? {
      SwapNewcomers(r, e.uid, e.step, e.swap, w);
      hide ExchangeSeat;
    } else if e.Begins? || e.Answers? {
      hide WithPhase, IdentityOf, ProbeBroken, Unready, FightersOf, Leased, Acts;
    } else {
      hide Heir, Unready, ToggledSeat, ToggleRefused, PositionKey, Admitted, FightersOf, Leased, Acts;
    }
  }

  lemma SwapNewcomers(r: Room, uid: Uid, step: SwapStep, s: Swap, w: World)
    ensures NoNewcomers(ExchangeSeat(r, uid, step, s, w), r)
  {
    hide Unready, IdentityOf, SwapSound, SwapOpen, FightersOf;
  }

  lemma StepModal(h: Policy, r: Room, e: Event, w: World)
    requires Modal(h, r) && !r.gone
    ensures Modal(h, Step(h, r, e, w))
  {
    StepSettings(h, r, e, w);
    match e {
      case Drops(uid) =>
        LeaveNewcomers(h, r, uid, w);
        hide Leave;
      case Readies(uid, plan) =>
        hide IdentityOf, Balanced, OthersReady, AllReady, WithPhase;
      case _ =>
        hide Step;
        StepNewcomers(h, r, e, w);
    }
  }

  lemma StepRuns(h: Policy, r: Room, e: Event, w: World)
    requires Seated(r) && Running(r) && Modal(h, r) && !r.gone
    ensures Running(Step(h, r, e, w))
  {
    if e.Loads? || e.Inputs? || e.Places? || e.Reports? || e.Finishes? || e.Acknowledges? {
      PlayRuns(h, r, e, w);
    } else if e.Joins? || e.Departs? || e.Drops? || e.Returns? || e.Binds? || e.Tick? || e.TickMember? || e.Removes? {
      hide Step, Running, Seated, Modal;
      PresenceRuns(h, r, e, w);
    } else {
      WaitingRuns(h, r, e, w);
    }
  }

  lemma SeatedFacts(r: Room)
    requires Seated(r) && !r.gone
    ensures r.located == r.members.Keys && (r.stage != Waiting ==> r.Fighters() != {})
  {
  }

  lemma ModalFacts(h: Policy, r: Room)
    requires Modal(h, r)
    ensures !h.probing ==> r.probe.None?
  {
  }

  lemma PlayRuns(h: Policy, r: Room, e: Event, w: World)
    requires Seated(r) && Running(r) && Modal(h, r) && !r.gone
    requires e.Loads? || e.Inputs? || e.Places? || e.Reports? || e.Finishes? || e.Acknowledges?
    ensures Running(Step(h, r, e, w))
  {
    hide Running, Seated, Modal, Load, InputReady, Positions, Report, StageFinish, Acknowledge, FightersOf;
    SeatedFacts(r);
    match e {
      case Loads(uid) => LoadRuns(h, r, uid, w);
      case Inputs(uid) => InputRuns(h, r, uid, w);
      case Places(uid) => PlaceRuns(r, uid);
      case Reports(uid, agreed) => ReportRuns(r, uid, agreed);
      case Finishes(uid, qualified) => FinishRuns(r, uid, qualified);
      case Acknowledges(uid) => AcknowledgeRuns(h, r, uid, w);
    }
  }

  lemma WaitingRuns(h: Policy, r: Room, e: Event, w: World)
    requires Seated(r) && Running(r) && Modal(h, r) && !r.gone
    requires e.Changes? || e.Moves? || e.Hands? || e.Toggles? || e.Swaps? || e.Readies? || e.Unreadies? || e.Enters?
          || e.Begins? || e.Answers?
    ensures Running(Step(h, r, e, w))
  {
    hide Running, Seated, Modal, ChangeSettings, ChangeTeam, Transfer, Toggle, ExchangeSeat, Ready, CancelReady,
      TutorialEntered, TutorialReady, DelayReply, FightersOf;
    ModalFacts(h, r);
    match e {
      case Changes(uid, s) => SettingsRun(h, r, uid, s);
      case Moves(uid, team) => TeamRuns(r, uid, team);
      case Hands(uid, target) => TransferRuns(r, uid, target, w);
      case Toggles(uid) => ToggleRuns(h, r, uid, w);
      case Swaps(uid, step, swap) => SwapRuns(r, uid, step, swap, w);
      case Readies(uid, plan) => ReadyRuns(h, r, uid, w, plan);
      case Unreadies(uid) => UnreadyRuns(r, uid);
      case Enters(uid) => EnteredRuns(r, uid);
      case Begins(uid) => BegunRuns(h, r, uid, w);
      case Answers(uid, plan) => ReplyRuns(h, r, uid, w, plan);
    }
  }

  lemma EnteredRuns(r: Room, uid: Uid)
    requires Running(r) && !r.gone
    ensures Running(TutorialEntered(r, uid))
  {
  }

  lemma BegunRuns(h: Policy, r: Room, uid: Uid, w: World)
    requires Running(r) && Modal(h, r) && !r.gone
    ensures Running(TutorialReady(h, r, uid, w))
  {
    if Acts(r, uid) && r.settings.mode == TUTORIAL {
      hide Running, TutorialReady;
      TutorialRuns(h, r, uid, w);
    } else {
      hide Running, StartMatch;
    }
  }

  lemma CreateFields(h: Policy, uid: Uid, s: Settings, connection: int, w: World)
    ensures var r := Create(h, uid, s, connection, w);
      && r.stage == Waiting && r.loaded == {} && r.input == {} && r.acks == {} && r.replies == {}
      && r.suspended == map[]
      && r.probe == None && !r.pve && forall u <- r.members :: r.members[u].phase == InRoom
  {
    hide FightersOf, SeatFor, InstallAllowed;
    UnreadyPhases(map[]);
  }

  lemma OpenedRuns(h: Policy, r: Room)
    requires Opened(h, r)
    ensures Running(r) && Modal(h, r)
  {
    var uid, s, connection, w :| uid != 0 && connection != 0 && Admitted(s) && r == Create(h, uid, s, connection, w);
    CreateFields(h, uid, s, connection, w);
    hide Seated, FightersOf, Create, Opened, Reporters;
  }

  lemma {:induction false} RunRunning(h: Policy, start: Room, events: seq<Moment>)
    requires Opened(h, start)
    ensures Running(Run(h, start, events)) && (!Run(h, start, events).gone ==> Modal(h, Run(h, start, events)))
  {
    if events == [] {
      OpenedRuns(h, start);
    } else {
      var before, last := events[..|events| - 1], events[|events| - 1];
      RunRunning(h, start, before);
      RunSeated(h, start, before);
      var r := Run(h, start, before);
      hide Seated, Running, Step, Opened, Modal;
      if r.gone {
        GoneStays(h, r, last.event, last.world);
      } else {
        StepRuns(h, r, last.event, last.world);
        StepModal(h, r, last.event, last.world);
      }
    }
  }

  /** No lost barrier: in every reachable room no enabled barrier is left waiting. */
  lemma NoLostBarrier(h: Policy, start: Room, events: seq<Moment>)
    requires Opened(h, start) && !Run(h, start, events).gone
    ensures var r := Run(h, start, events);
      && !(r.stage == Loading && r.loaded == r.members.Keys && (r.settings.mode != FOSTER || (r.pve && r.positions)))
      && !(r.stage == WaitReady && r.input == r.Fighters())
      && !(r.stage == Finished && r.acks == r.members.Keys)
  {
    RunRunning(h, start, events);
    RunSeated(h, start, events);
  }

  /** Past a barrier everybody it waited for has passed it, the members that are there now being all of them. */
  lemma BarriersPassed(h: Policy, start: Room, events: seq<Moment>)
    requires Opened(h, start) && !Run(h, start, events).gone
    ensures var r := Run(h, start, events);
      && (r.stage in {WaitReady, Fighting, Finished} ==> r.loaded == r.members.Keys)
      && (r.stage in {Fighting, Finished} ==> r.input == r.Fighters())
  {
    RunRunning(h, start, events);
  }

  /** Outside the waiting stage nobody is suspended and every member's connection is in the phase of the stage. */
  lemma LiveWhilePlaying(h: Policy, start: Room, events: seq<Moment>, u: Uid)
    requires Opened(h, start) && !Run(h, start, events).gone && u in Run(h, start, events).members
    ensures var r := Run(h, start, events);
      && (r.stage == Waiting ==> (r.members[u].phase == InRoom <==> u !in r.suspended))
      && (r.stage == Loading ==> r.members[u].phase == InLoading)
      && (r.stage == WaitReady ==> r.members[u].phase == InWaitReady)
      && (r.stage in {Fighting, Finished} ==> r.members[u].phase == InBattle)
      && (r.stage != Waiting ==> u !in r.suspended)
  {
    RunRunning(h, start, events);
    assert PhaseFits(Run(h, start, events).stage, Run(h, start, events).members[u].phase,
                     u in Run(h, start, events).suspended);
  }

  /** In every reachable waiting room a late result report leaves the room waiting. */
  lemma NoSecondResult(h: Policy, start: Room, events: seq<Moment>, uid: Uid, agreed: bool)
    requires Opened(h, start) && !Run(h, start, events).gone && Run(h, start, events).stage == Waiting
    ensures Report(Run(h, start, events), uid, agreed).stage == Waiting
  {
    RunRunning(h, start, events);
    hide Running, Report;
    LateReportHarmless(Run(h, start, events), uid, agreed);
  }
}
