/** The room object whose fields the room handlers update in place. */
module SharedRoom {
  import opened RoomState
  import opened RoomRules

  class SharedRoom {
    const policy: Policy
    var gone: bool
    var owner: Uid
    var settings: Settings
    var stage: Stage
    var members: map<Uid, Member>
    var order: seq<Uid>
    var located: set<Uid>
    var suspended: map<Uid, real>
    var loaded: set<Uid>
    var inputReady: set<Uid>
    var resultReports: seq<(Uid, set<Uid>)>
    var resultReplies: set<Uid>
    var resultAcks: set<Uid>
    var networkProbe: Option<Probe>
    var seatExchange: Option<Exchange>
    var deadline: real
    var pve: bool
    var positions: bool
    var tutorialPending: bool

    ghost function View(): Room
      reads this
    {
      Room(gone, owner, settings, stage, members, order, located, suspended, loaded, inputReady, resultReports,
           resultReplies, resultAcks, networkProbe, seatExchange, deadline, pve, positions, tutorialPending)
    }

    constructor (policy: Policy, uid: Uid, s: Settings)
      ensures View() == Empty(uid, s) && this.policy == policy
    {
      this.policy := policy;
      gone, owner, settings, stage := false, uid, s, Waiting;
      members, order, located, suspended := map[], [], {}, map[];
      loaded, inputReady, resultReports, resultReplies, resultAcks := {}, {}, [], {}, {};
      networkProbe, seatExchange, deadline := None, None, 0.0;
      pve, positions, tutorialPending := false, false, false;
    }

    // -------------------------------------------------------------- small updates

    method ClearReady()
      modifies this`members
      ensures View() == old(View()).(members := Unready(old(View()).members))
    {
      members := map u | u in members :: members[u].(ready := false);
    }

    method EnterStage(next: Stage, p: Phase, until: real)
      modifies this`stage, this`members, this`deadline
      ensures View() == old(View()).(stage := next, deadline := until, members := WithPhase(old(View()).members, p))
    {
      stage, deadline := next, until;
      members := map u | u in members :: members[u].(phase := p);
    }

    method ForgetResults()
      modifies this`resultReports, this`resultReplies, this`resultAcks
      ensures View() == old(View()).(reports := [], replies := {}, acks := {})
    {
      resultReports, resultReplies, resultAcks := [], {}, {};
    }

    method ForgetProgress()
      modifies this`loaded, this`inputReady
      ensures View() == old(View()).(loaded := {}, input := {})
    {
      loaded, inputReady := {}, {};
    }

    method SetStagePlan(planned: bool)
      modifies this`pve, this`positions
      ensures View() == old(View()).(pve := planned, positions := false)
    {
      pve, positions := planned, false;
    }

    method CancelSeat()
      modifies this`seatExchange
      ensures View() == old(View()).(exchange := None)
    {
      seatExchange := None;
    }

    method CancelNetworkProbe()
      modifies this`networkProbe, this`members
      ensures View() == CancelProbe(old(View()))
    {
      if networkProbe.Some? {
        networkProbe := None;
        members := map u | u in members :: members[u].(ready := false);
      }
    }

    method SeatMember(uid: Uid, m: Member)
      modifies this`members, this`order, this`located
      ensures View() == old(View()).(members := old(View()).members[uid := m], order := old(View()).order + [uid],
                                     located := old(View()).located + {uid})
    {
      members, order, located := members[uid := m], order + [uid], located + {uid};
    }

    method SetOwner(uid: Uid)
      modifies this`owner
      ensures View() == old(View()).(owner := uid)
    {
      owner := uid;
    }

    method UnseatMember(uid: Uid)
      modifies this`members, this`order, this`located
      ensures View() == old(View()).(members := old(View()).members - {uid}, order := Without(old(View()).order, uid),
                                     located := old(View()).located - {uid})
    {
      hide Without;
      var rest := OrderWithout(uid);
      members, order, located := members - {uid}, rest, located - {uid};
    }

    method ForgetMember(uid: Uid)
      modifies this`loaded, this`inputReady, this`suspended
      ensures View() == old(View()).(suspended := old(View()).suspended - {uid}, loaded := old(View()).loaded - {uid},
                                     input := old(View()).input - {uid})
    {
      suspended, loaded, inputReady := suspended - {uid}, loaded - {uid}, inputReady - {uid};
    }

    method ForgetReplies(uid: Uid)
      modifies this`resultAcks, this`resultReplies
      ensures View() == old(View()).(acks := old(View()).acks - {uid}, replies := old(View()).replies - {uid})
    {
      resultAcks, resultReplies := resultAcks - {uid}, resultReplies - {uid};
    }

    method CloseRoom()
      modifies this`members, this`order, this`located, this`gone
      ensures View() == Abort(old(View()))
    {
      members, order, located, gone := map[], [], {}, true;
    }

    // -------------------------------------------------------------- searches

    method FindSlot() returns (slot: int)
      ensures slot == FreeSlot(members, 0)
    {
      slot := 0;
      while slot < 8 && exists u :: u in members && !members[u].spectator && members[u].slot == slot
        invariant 0 <= slot <= 8 && FreeSlot(members, 0) == FreeSlot(members, slot)
      {
        slot := slot + 1;
      }
    }

    /** position_key: the slot itself, or the first free key in the bank of the team. */
    method FindKey(team: int, slot: int, except: Option<Uid>) returns (key: Option<int>)
      ensures key == PositionKey(settings.mode, members, team, slot, except)
    {
      if settings.mode !in TEAMED {
        return Some(slot);
      }
      var i := 0;
      while i < 4
        invariant 0 <= i <= 4 && BankKey(members, team, 0, except) == BankKey(members, team, i, except)
      {
        if !exists u :: u in members && !members[u].spectator && except != Some(u) && members[u].key == 4 * team + i {
          assert KeyFree(members, 4 * team + i, except);
          return Some(4 * team + i);
        }
        assert !KeyFree(members, 4 * team + i, except);
        i := i + 1;
      }
      key := None;
    }

    /** The member of the lowest slot among fighters, or among everybody when there is no fighter. */
    method FindHeir() returns (heir: Uid)
      ensures heir == Heir(View())
    {
      var candidates := if FightersOf(members) != {} then FightersOf(members) else members.Keys;
      heir := 0;
      var i := 0;
      while i < |order|
        invariant i <= |order|
        invariant Eldest(order, members, candidates, 0) == Eldest(order[i..], members, candidates, heir)
      {
        var u := order[i];
        if u in candidates && u in members
           && (heir !in members || heir !in candidates || members[u].slot < members[heir].slot) {
          heir := u;
        }
        assert order[i..][1..] == order[i + 1..];
        i := i + 1;
      }
    }

    method OrderWithout(uid: Uid) returns (kept: seq<Uid>)
      ensures kept == Without(order, uid)
    {
      kept := [];
      var i := 0;
      while i < |order|
        invariant i <= |order|
        invariant kept == Without(order[..i], uid)
      {
        hide Without;
        WithoutLast(order[..i], order[i], uid);
        assert order[..i + 1] == order[..i] + [order[i]];
        if order[i] != uid {
          kept := kept + [order[i]];
        }
        i := i + 1;
      }
      assert order[..i] == order;
    }

    /** What one appended member adds. */
    static lemma {:induction false} WithoutLast(order: seq<Uid>, u: Uid, uid: Uid)
      ensures Without(order + [u], uid) == Without(order, uid) + if u == uid then [] else [u]
    {
      if order == [] {
        assert order + [u] == [u] && [u][1..] == [];
      } else {
        assert (order + [u])[1..] == order[1..] + [u];
        WithoutLast(order[1..], u, uid);
      }
    }

    // -------------------------------------------------------------- membership

    /** The seat a newcomer would get. */
    method FindSeat(spectator: bool) returns (slot: int, team: int, key: Option<int>)
      ensures (slot, team, key) == SeatFor(View(), spectator)
    {
      hide FreeSlot, BankKey;
      if spectator {
        return 8, 0, Some(8);
      }
      slot := FindSlot();
      team := slot % 2;
      key := FindKey(team, slot, None);
      if key.None? {
        team := 1 - team;
        key := FindKey(team, slot, None);
      }
    }

    method CheckInstall(uid: Uid, spectator: bool, w: World) returns (ok: bool, slot: int, team: int, key: Option<int>)
      ensures ok == InstallAllowed(policy, View(), uid, spectator, w)
      ensures (slot, team, key) == SeatFor(View(), spectator)
    {
      hide SeatFor;
      slot, team, key := FindSeat(spectator);
      var fighters := FightersOf(members);
      var full := if spectator then |members| - |fighters| >= ObserverLimit(policy, settings)
                  else |fighters| >= settings.capacity;
      ok := stage == Waiting && !full && key.Some? && slot <= (if spectator then 8 else 7)
            && uid in w.alive && uid in w.bound
            && forall u :: u in members ==> u in w.alive && members[u].phase != NoGame && u in w.bound;
    }

    method Install(uid: Uid, spectator: bool, connection: int, w: World) returns (ok: bool)
      modifies this
      ensures View() == RoomRules.Install(policy, old(View()), uid, spectator, connection, w)
      ensures ok == InstallAllowed(policy, old(View()), uid, spectator, w)
    {
      var slot, team, key;
      ok, slot, team, key := CheckInstall(uid, spectator, w);
      assert ok ==> key.Some?;
      hide InstallAllowed, SeatFor, Unready;
      if !ok {
        return;
      }
      if owner in members && members[owner].spectator && !spectator {
        SetOwner(uid);
      }
      ClearReady();
      SeatMember(uid, Member(slot, team, false, spectator, key.value, InRoom, connection));
    }

    method Join(uid: Uid, spectator: bool, admitted: bool, connection: int, w: World)
      modifies this
      ensures View() == RoomRules.Join(policy, old(View()), uid, spectator, admitted, connection, w)
    {
      hide RoomRules.Install, InstallAllowed;
      if uid != 0 && uid !in located && admitted && connection != 0 && forall u :: u in members ==> u !in suspended {
        var _ := Install(uid, spectator, connection, w);
      }
    }

    /** Everything that goes with one member. */
    method DropMember(uid: Uid)
      modifies this
      ensures View() == Drop(old(View()), uid)
    {
      hide Unready, Without;
      CancelSeat();
      CancelNetworkProbe();
      UnseatMember(uid);
      ForgetMember(uid);
      ForgetReplies(uid);
    }

    method LeaveRoom(uid: Uid, w: World)
      modifies this
      ensures View() == RoomRules.Leave(policy, old(View()), uid, w)
    {
      hide Unready, Drop, Eldest, RoomRules.Advance;
      if uid !in located || uid !in members {
        return;
      }
      var departed := members[uid];
      DropMember(uid);
      if members == map[] {
        gone := true;
      } else if stage != Waiting {
        if departed.spectator {
          AdvanceBarriers(w);
        } else {
          CloseRoom();
        }
      } else {
        if owner == uid {
          var heir := FindHeir();
          SetOwner(heir);
        }
        ClearReady();
      }
    }

    method Disconnect(uid: Uid, w: World)
      modifies this
      ensures View() == Disconnected(policy, old(View()), uid, w)
    {
      hide RoomRules.Leave;
      if uid !in located || uid !in members {
        return;
      }
      if stage != Waiting || settings.mode == TUTORIAL {
        LeaveRoom(uid, w);
        return;
      }
      members := members[uid := members[uid].(ready := false, phase := NoGame, connection := 0)];
      suspended := suspended[uid := w.now + policy.reconnect];
    }

    method RestoreBound(uid: Uid, w: World) returns (ok: bool)
      modifies this
      ensures View() == Restore(old(View()), uid, w) && ok == RestoreAllowed(old(View()), uid, w)
    {
      if uid !in suspended || uid !in members || stage != Waiting || uid !in w.alive || uid !in w.bound
         || members[uid].phase == NoGame {
        return false;
      }
      if exists u :: u in members && u !in suspended
                     && !(u in w.alive && u in w.bound && members[u].phase != NoGame) {
        return false;
      }
      suspended := suspended - {uid};
      members := members[uid := members[uid].(phase := InRoom)];
      ok := true;
    }

    /** The seats, roles and connections a start is bound to. */
    ghost function Captured(): Identity
      reads this
    {
      IdentityOf(View())
    }

    method StartIdentity() returns (identity: Identity)
      ensures identity == Captured()
    {
      identity := Identity(owner, settings,
                           map u | u in members :: Seat(members[u].connection, members[u].slot, members[u].team,
                                                        members[u].key, members[u].ready, members[u].spectator));
    }

    method Expire(w: World)
      modifies this
      ensures View() == ExpireRoom(policy, old(View()), w)
    {
      hide RoomRules.Leave, IdentityOf, Unprobed;
      if policy.public && deadline != 0.0 && w.now >= deadline {
        LeaveRoom(owner, w);
        return;
      }
      var identity := StartIdentity();
      if seatExchange.Some? && (seatExchange.value.identity != identity || w.now >= seatExchange.value.deadline) {
        seatExchange := None;
      }
      var now := StartIdentity();
      if networkProbe.Some? && (networkProbe.value.identity != now || w.now - networkProbe.value.start >= 10.0) {
        CancelNetworkProbe();
      }
    }

    method ExpireSuspended(uid: Uid, w: World)
      modifies this
      ensures View() == ExpireMember(policy, old(View()), uid, w)
    {
      hide RoomRules.Leave;
      if uid in suspended && w.now >= suspended[uid] {
        suspended := suspended - {uid};
        LeaveRoom(uid, w);
      }
    }

    method AttachConnection(uid: Uid, connection: int)
      modifies this
      ensures View() == Reconnected(old(View()), uid, connection)
    {
      if uid in members && uid in suspended && members[uid].phase == NoGame {
        members := members[uid := members[uid].(phase := InLobby, connection := connection)];
      }
    }

    // -------------------------------------------------------------- requests of a waiting room

    method RemoveMember(uid: Uid, target: Uid, w: World)
      modifies this
      ensures View() == Remove(policy, old(View()), uid, target, w)
    {
      hide RoomRules.Leave;
      if uid in located && uid in members && members[uid].phase == InRoom && stage == Waiting && owner == uid
         && target != uid && target in members {
        LeaveRoom(target, w);
      }
    }

    method UpdateSettings(uid: Uid, update: Update)
      modifies this
      ensures View() == ChangeSettings(policy, old(View()), uid, update)
    {
      hide Unready;
      if !(uid in located && uid in members && members[uid].phase == InRoom) || stage != Waiting || owner != uid
         || settings.mode == TUTORIAL {
        return;
      }
      if !update.sound || update.duration !in DURATIONS {
        return;
      }
      var updated := settings.(watch := update.watch, duration := update.duration, rest := update.rest);
      if !Admitted(updated) || (policy.public && updated.mode !in {0, 1, 2, 3, 5}) || updated == settings {
        return;
      }
      settings := updated;
      members := Unready(members);
    }

    method SetTeam(uid: Uid, team: int)
      modifies this
      ensures View() == ChangeTeam(old(View()), uid, team)
    {
      hide Unready, PositionKey;
      if !(uid in located && uid in members && members[uid].phase == InRoom) || stage != Waiting || team !in {0, 1}
         || settings.mode == TUTORIAL {
        return;
      }
      var member := members[uid];
      if member.spectator || member.team == team {
        return;
      }
      var key := FindKey(team, member.slot, Some(uid));
      if key.None? {
        return;
      }
      members := members[uid := member.(team := team, key := key.value)];
      members := Unready(members);
    }

    method TransferOwner(uid: Uid, target: Uid, w: World)
      modifies this
      ensures View() == Transfer(old(View()), uid, target, w)
    {
      hide Unready;
      if !(uid in located && uid in members && members[uid].phase == InRoom) || stage != Waiting
         || owner != uid || target == uid {
        return;
      }
      if target !in members || members[target].spectator || target in suspended
         || !(target in w.alive && target in w.bound && members[target].phase != NoGame) {
        return;
      }
      owner := target;
      members := Unready(members);
    }

    /** The seat a role change would give: None when it is refused. */
    method CheckToggle(uid: Uid) returns (refused: bool, slot: int, key: Option<int>)
      requires uid in members
      ensures refused == ToggleRefused(policy, View(), uid)
      ensures !refused ==> (slot, key) == ToggledSeat(View(), uid)
    {
      hide FreeSlot, BankKey;
      var member, fighters := members[uid], |FightersOf(members)|;
      slot, key := 8, Some(8);
      if member.spectator {
        refused := fighters >= settings.capacity;
        slot := FindSlot();
        key := FindKey(member.team, slot, Some(uid));
      } else {
        refused := |members| - fighters >= ObserverLimit(policy, settings);
      }
    }

    method ToggleSpectator(uid: Uid, w: World)
      modifies this
      ensures View() == Toggle(policy, old(View()), uid, w)
    {
      hide Unready, Eldest, ToggledSeat, ToggleRefused;
      if !(uid in located && uid in members && members[uid].phase == InRoom) || stage != Waiting
         || settings.mode == TUTORIAL {
        return;
      }
      var refused, slot, key := CheckToggle(uid);
      if refused || key.None? || !(uid in w.alive && uid in w.bound) {
        return;
      }
      var m := members[uid];
      members := members[uid := m.(slot := slot, spectator := !m.spectator, ready := false, key := key.value)];
      members := Unready(members);
      if FightersOf(members) != {} && owner in members && members[owner].spectator {
        owner := FindHeir();
      }
    }

    // -------------------------------------------------------------- ready and start

    method StartMatch(w: World, plan: bool) returns (ok: bool)
      modifies this
      ensures View() == RoomRules.StartMatch(policy, old(View()), w, plan)
      ensures ok == !(old(settings.mode) in {FOSTER, ASSAULT} && !plan)
    {
      hide WithPhase;
      if settings.mode in {FOSTER, ASSAULT} && !plan {
        return false;
      }
      SetStagePlan(settings.mode in {FOSTER, ASSAULT});
      ForgetResults();
      ForgetProgress();
      EnterStage(Loading, InLoading, if policy.public then w.now + 120.0 else deadline);
      ok := true;
    }

    method BeginStart(w: World, plan: bool)
      modifies this
      ensures View() == RoomRules.BeginStart(policy, old(View()), w, plan)
    {
      hide IdentityOf, RoomRules.StartMatch;
      seatExchange := None;
      if !policy.probing {
        var _ := StartMatch(w, plan);
        return;
      }
      if networkProbe.Some? {
        return;
      }
      var identity := StartIdentity();
      networkProbe := Some(Probe(w.now, identity, FightersOf(members)));
    }

    method SetReady(uid: Uid, w: World, plan: bool)
      modifies this
      ensures View() == Ready(policy, old(View()), uid, w, plan)
    {
      hide RoomRules.BeginStart, TeamCount;
      if uid !in located || uid !in members || stage != Waiting || settings.mode == TUTORIAL {
        return;
      }
      if members[uid].spectator || !(uid in w.alive && members[uid].phase != NoGame) {
        return;
      }
      if uid == owner {
        if settings.mode in COMPETITIVE {
          if |FightersOf(members)| < 2 {
            return;
          }
          if settings.mode in TEAMED {
            var zero := CountTeam(0);
            var one := CountTeam(1);
            if zero == 0 || zero != one {
              return;
            }
          }
        }
        if exists u :: u in members && !members[u].spectator && u != uid && !(members[u].ready && u !in suspended) {
          return;
        }
        assert OthersReady(View(), uid) && Balanced(View());
      }
      members := members[uid := members[uid].(ready := true)];
      if uid == owner {
        var all := CheckAllReady(w);
        if all {
          BeginStart(w, plan);
        }
      }
    }

    method UnsetReady(uid: Uid)
      modifies this
      ensures View() == CancelReady(old(View()), uid)
    {
      if uid in located && uid in members && stage == Waiting && !members[uid].spectator && settings.mode != TUTORIAL {
        members := members[uid := members[uid].(ready := false)];
      }
    }

    method StartTutorial(uid: Uid, w: World)
      modifies this
      ensures View() == TutorialReady(policy, old(View()), uid, w)
    {
      hide RoomRules.StartMatch;
      if uid in located && uid in members && members[uid].phase == InRoom && stage == Waiting
         && settings.mode == TUTORIAL && !tutorialPending {
        members := members[uid := members[uid].(ready := true)];
        var _ := StartMatch(w, true);
      }
    }

    method CountTeam(team: int) returns (n: int)
      ensures n == TeamCount(View(), team)
    {
      var side := set u | u in FightersOf(members) && members[u].team == team;
      assert side == set u | u in View().Fighters() && View().members[u].team == team;
      n := |side|;
    }

    method CheckAllReady(w: World) returns (all: bool)
      ensures all == AllReady(View(), w)
    {
      all := (forall u :: u in members && !members[u].spectator ==> members[u].ready)
             && (forall u :: u in members ==> u !in suspended && u in w.alive && members[u].phase != NoGame);
    }

    method NetworkDelayReply(uid: Uid, w: World, plan: bool)
      modifies this
      ensures View() == DelayReply(policy, old(View()), uid, w, plan)
    {
      hide IdentityOf, RoomRules.StartMatch, Unready;
      if !(uid in located && uid in members && members[uid].phase == InRoom) || stage != Waiting
         || networkProbe.None? || uid !in networkProbe.value.pending {
        return;
      }
      var probe := networkProbe.value;
      var identity := StartIdentity();
      if probe.identity != identity || w.now - probe.start >= 10.0
         || exists u :: u in members && (u in suspended || u !in w.alive || members[u].phase != InRoom) {
        assert ProbeBroken(View(), w);
        CancelNetworkProbe();
        return;
      }
      assert !ProbeBroken(View(), w);
      var left := probe.pending - {uid};
      if left == {} {
        networkProbe := None;
        var _ := StartMatch(w, plan);
      } else {
        networkProbe := Some(probe.(pending := left));
      }
    }

    // -------------------------------------------------------------- barriers and results

    method AdvanceBarriers(w: World)
      modifies this
      ensures View() == RoomRules.Advance(policy, old(View()), w)
    {
      PassLoading();
      PassInputs(w);
      PassResults();
    }

    method PassLoading()
      modifies this`stage, this`members, this`deadline
      ensures View() == PassLoad(old(View()))
    {
      hide WithPhase;
      if stage == Loading && loaded == members.Keys {
        if settings.mode == FOSTER && !(pve && positions) {
          return;
        }
        EnterStage(WaitReady, InWaitReady, deadline);
      }
    }

    method PassInputs(w: World)
      modifies this`stage, this`members, this`deadline
      ensures View() == PassInput(policy, old(View()), w)
    {
      hide WithPhase;
      if stage == WaitReady && FightersOf(members) != {} && inputReady == FightersOf(members) {
        EnterStage(Fighting, InBattle, if policy.public then w.now + settings.duration as real + 30.0 else deadline);
      }
    }

    method PassResults()
      modifies this
      ensures View() == PassResult(old(View()))
    {
      hide WithPhase, Unready;
      if stage == Finished && resultAcks == members.Keys {
        pve := false;
        ForgetProgress();
        ClearReady();
        EnterStage(Waiting, InRoom, 0.0);
      }
    }

    method LoadDone(uid: Uid, w: World) returns (ok: bool)
      modifies this
      ensures View() == Load(policy, old(View()), uid, w)
      ensures ok <==> uid in old(located) && uid in old(members)
                      && (uid in old(loaded) || (old(stage) == Loading && old(members)[uid].phase == InLoading))
    {
      hide RoomRules.Advance;
      if uid !in located || uid !in members {
        return false;
      }
      if uid in loaded {
        return true;
      }
      if stage != Loading || members[uid].phase != InLoading {
        return false;
      }
      loaded := loaded + {uid};
      AdvanceBarriers(w);
      ok := true;
    }

    method InputDone(uid: Uid, w: World) returns (ok: bool)
      modifies this
      ensures View() == InputReady(policy, old(View()), uid, w)
      ensures ok <==> uid in old(located) && uid in old(members)
                      && (old(members)[uid].spectator || uid in old(inputReady)
                          || (old(stage) == WaitReady && old(members)[uid].phase == InWaitReady))
    {
      hide RoomRules.Advance;
      if uid !in located || uid !in members {
        return false;
      }
      if members[uid].spectator || uid in inputReady {
        return true;
      }
      if stage != WaitReady || members[uid].phase != InWaitReady {
        return false;
      }
      inputReady := inputReady + {uid};
      AdvanceBarriers(w);
      ok := true;
    }

    method AcknowledgeResult(uid: Uid, w: World)
      modifies this
      ensures View() == Acknowledge(policy, old(View()), uid, w)
    {
      hide RoomRules.Advance;
      if uid in located && uid in resultReplies && (pve || settings.mode in COMPETITIVE) {
        resultAcks := resultAcks + {uid};
        AdvanceBarriers(w);
      }
    }

    method ReportResult(uid: Uid, agreed: bool)
      modifies this
      ensures View() == Report(old(View()), uid, agreed)
    {
      hide Reporters, FightersOf;
      if uid !in located || uid !in members || pve || settings.mode !in COMPETITIVE || members[uid].spectator {
        return;
      }
      if !(stage == Fighting || stage == Finished || (stage == Waiting && resultReplies != {})) {
        return;
      }
      var known := Known(resultReports);
      if uid in known {
        return;
      }
      var fighters := FightersOf(members);
      var candidate := resultReports + [(uid, fighters)];
      var reporters := Known(candidate);
      if reporters == fighters {
        if candidate[0].1 != fighters || !agreed {
          return;
        }
        resultReplies := members.Keys;
        stage := Finished;
      }
      resultReports := candidate;
    }

    method ReceivePositions(uid: Uid)
      modifies this
      ensures View() == Positions(old(View()), uid)
    {
      if uid in located && uid == owner && pve && settings.mode == FOSTER && stage == Loading && uid in members
         && uid !in loaded {
        positions := true;
      }
    }

    method FinishStage(uid: Uid, qualified: bool)
      modifies this
      ensures View() == StageFinish(old(View()), uid, qualified)
    {
      hide Reporters, FightersOf;
      if !qualified || uid !in located || !pve || uid != owner || !(stage == Fighting || stage == Finished) {
        return;
      }
      var known := Known(resultReports);
      if uid !in known {
        resultReports := resultReports + [(uid, FightersOf(members))];
        resultReplies, stage := members.Keys, Finished;
      }
    }

    static method Known(reports: seq<(Uid, set<Uid>)>) returns (known: set<Uid>)
      ensures known == Reporters(reports)
    {
      known := set i | 0 <= i < |reports| :: reports[i].0;
    }

    // -------------------------------------------------------------- seat exchange

    method SwapSeats(s: Swap)
      requires SwapSound(View(), s)
      modifies this`members
      ensures View() == Swapped(old(View()), s)
    {
      hide Unready, FightersOf;
      FightersHere();
      var a := members[s.source];
      if s.target in members && !members[s.target].spectator {
        var b := members[s.target];
        members := members[s.source := a.(key := b.key, team := b.team)];
        members := members[s.target := b.(key := a.key, team := a.team)];
      } else {
        members := members[s.source := a.(key := s.new_)];
      }
      members := Unready(members);
    }

    lemma FightersHere()
      ensures forall u :: u in FightersOf(members) <==> u in members && !members[u].spectator
    {
    }

    method CheckOpen(uid: Uid) returns (ok: bool)
      ensures ok == SwapOpen(View(), uid)
    {
      ok := uid in located && uid in members && members[uid].phase == InRoom && stage == Waiting && settings.mode == 3
            && networkProbe.None? && forall u :: u in members ==> u !in suspended && members[u].phase == InRoom;
    }

    /** Record a request for the target's consent, or move at once to a vacant key. */
    method AskSwap(uid: Uid, s: Swap, w: World)
      requires SwapOpen(View(), uid) && SwapSound(View(), s)
      modifies this
      ensures View() == ExchangeSeat(old(View()), uid, Ask, s, w)
    {
      FightersHere();
      hide IdentityOf, Swapped, SwapOpen, SwapSound, FightersOf;
      if s.source != uid || seatExchange.Some? {
        return;
      }
      if s.target in members && !members[s.target].spectator {
        var identity := StartIdentity();
        seatExchange := Some(Exchange(s, identity, w.now + 30.0));
      } else {
        SwapSeats(s);
      }
    }

    /** The target's answer to a recorded request. */
    method AnswerSwap(uid: Uid, step: SwapStep, s: Swap, w: World)
      requires step != Ask && SwapOpen(View(), uid) && SwapSound(View(), s)
      modifies this
      ensures View() == ExchangeSeat(old(View()), uid, step, s, w)
    {
      FightersHere();
      SoundWithout(View(), s);
      hide IdentityOf, Swapped, SwapOpen, SwapSound, FightersOf;
      if seatExchange.None? || seatExchange.value.swap != s || uid != s.target
         || !(s.target in members && !members[s.target].spectator) {
        return;
      }
      CancelSeat();
      if step == Accept {
        SwapSeats(s);
      }
    }

    method HandleExchange(uid: Uid, step: SwapStep, s: Swap, w: World)
      modifies this
      ensures View() == ExchangeSeat(old(View()), uid, step, s, w)
    {
      var open_ := CheckOpen(uid);
      var sound := CheckSwap(s);
      hide SwapOpen, SwapSound, Swapped, FightersOf, IdentityOf;
      if open_ && sound {
        if step == Ask {
          AskSwap(uid, s, w);
        } else {
          AnswerSwap(uid, step, s, w);
        }
      }
    }

    static lemma SoundWithout(r: Room, s: Swap)
      requires SwapSound(r, s)
      ensures SwapSound(r.(exchange := None), s)
    {
    }

    method CheckSwap(s: Swap) returns (sound: bool)
      ensures sound == SwapSound(View(), s)
    {
      FightersHere();
      hide FightersOf;
      if s.source !in members || members[s.source].spectator || s.source == s.target || !(0 <= s.old_ < 8)
         || !(0 <= s.new_ < 8) || s.old_ == s.new_ {
        return false;
      }
      var a := members[s.source];
      if a.key != s.old_ || a.ready {
        return false;
      }
      if s.target != 0
         && (s.target !in members || members[s.target].spectator
            || members[s.target].key != s.new_ || members[s.target].ready) {
        return false;
      }
      if exists u :: u in members && !members[u].spectator && u != s.target && members[u].key == s.new_ {
        return false;
      }
      sound := s.target != 0 || s.new_ / 4 == a.team;
    }
  }
}
