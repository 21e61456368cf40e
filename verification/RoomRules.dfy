/** The room handlers as functions on the room they change. */
module RoomRules {
  import opened RoomState

  // ---------------------------------------------------------------- members

  function Unready(members: map<Uid, Member>): map<Uid, Member> {
    map u | u in members :: members[u].(ready := false)
  }

  function WithPhase(members: map<Uid, Member>, p: Phase): map<Uid, Member> {
    map u | u in members :: members[u].(phase := p)
  }

  function Without(order: seq<Uid>, uid: Uid): seq<Uid> {
    if order == [] then []
    else (if order[0] == uid then [] else [order[0]]) + Without(order[1..], uid)
  }

  /** The first of the joining order with the lowest slot among the candidates. */
  function Eldest(order: seq<Uid>, members: map<Uid, Member>, candidates: set<Uid>, best: Uid): Uid {
    if order == [] then best
    else
      var u := order[0];
      var better := u in candidates && u in members
                    && (best !in members || best !in candidates || members[u].slot < members[best].slot);
      Eldest(order[1..], members, candidates, if better then u else best)
  }

  function Heir(r: Room): Uid {
    Eldest(r.order, r.members, if r.Fighters() != {} then r.Fighters() else r.members.Keys, 0)
  }

  function IdentityOf(r: Room): Identity {
    Identity(r.owner, r.settings,
             map u | u in r.members :: Seat(r.members[u].connection, r.members[u].slot, r.members[u].team,
                                            r.members[u].key, r.members[u].ready, r.members[u].spectator))
  }

  function ObserverLimit(h: Policy, s: Settings): int {
    if s.mode == 1 && s.watch then h.spectators else 0
  }

  function Observers(r: Room): int { |r.members| - |r.Fighters()| }

  /** The least slot of 0..7 that no fighter has, or 8. */
  function FreeSlot(members: map<Uid, Member>, i: int): (slot: int)
    requires 0 <= i <= 8
    ensures i <= slot <= 8
    decreases 8 - i
  {
    if i == 8 || forall u <- FightersOf(members) :: members[u].slot != i then i else FreeSlot(members, i + 1)
  }

  predicate KeyFree(members: map<Uid, Member>, key: int, except: Option<Uid>) {
    forall u <- FightersOf(members) :: except == Some(u) || members[u].key != key
  }

  /** The first free key of a team's bank, or None. */
  function BankKey(members: map<Uid, Member>, team: int, i: int, except: Option<Uid>): (key: Option<int>)
    requires 0 <= i <= 4
    ensures key.Some? ==> 4 * team + i <= key.value < 4 * team + 4 && KeyFree(members, key.value, except)
    ensures key.None? ==> forall k :: 4 * team + i <= k < 4 * team + 4 ==> !KeyFree(members, k, except)
    decreases 4 - i
  {
    if i == 4 then None
    else if KeyFree(members, 4 * team + i, except) then Some(4 * team + i)
    else BankKey(members, team, i + 1, except)
  }

  function PositionKey(mode: int, members: map<Uid, Member>, team: int, slot: int, except: Option<Uid>): Option<int> {
    if mode in TEAMED then BankKey(members, team, 0, except) else Some(slot)
  }

  /** The P2P lease goes with the connection, so a disconnected member has none. */
  predicate Alive(r: Room, w: World, u: Uid) {
    u in w.alive && (u in r.members ==> r.members[u].phase != NoGame)
  }

  predicate Leased(r: Room, w: World, u: Uid) {
    Alive(r, w, u) && u in w.bound
  }

  // ---------------------------------------------------------------- joining

  predicate Full(h: Policy, r: Room, spectator: bool) {
    if spectator then Observers(r) >= ObserverLimit(h, r.settings) else |r.Fighters()| >= r.settings.capacity
  }

  /** The seat a newcomer gets: slot, team and key; the key is None when both banks are full. */
  function SeatFor(r: Room, spectator: bool): (int, int, Option<int>) {
    if spectator then (8, 0, Some(8))
    else
      var slot := FreeSlot(r.members, 0);
      var team := slot % 2;
      var key := PositionKey(r.settings.mode, r.members, team, slot, None);
      if key.Some? then (slot, team, key)
      else (slot, 1 - team, PositionKey(r.settings.mode, r.members, 1 - team, slot, None))
  }

  predicate InstallAllowed(h: Policy, r: Room, uid: Uid, spectator: bool, w: World) {
    && r.stage == Waiting && !Full(h, r, spectator)
    && SeatFor(r, spectator).2.Some? && SeatFor(r, spectator).0 <= (if spectator then 8 else 7)
    && uid in w.alive && uid in w.bound && forall u <- r.members :: Leased(r, w, u)
  }

  function Install(h: Policy, r: Room, uid: Uid, spectator: bool, connection: int, w: World): Room {
    if !InstallAllowed(h, r, uid, spectator, w) then r
    else
      var (slot, team, key) := SeatFor(r, spectator);
      var m := Member(slot, team, false, spectator, key.value, InRoom, connection);
      r.(owner := if r.owner in r.members && r.members[r.owner].spectator && !spectator then uid else r.owner,
         members := Unready(r.members)[uid := m], order := r.order + [uid], located := r.located + {uid})
  }

  /** A join request: refused while a member is suspended, or without password or invitation. */
  function Join(h: Policy, r: Room, uid: Uid, spectator: bool, admitted: bool, connection: int, w: World): Room {
    if uid == 0 || uid in r.located || !admitted || connection == 0 || (exists u <- r.members :: u in r.suspended)
    then r
    else Install(h, r, uid, spectator, connection, w)
  }

  function Empty(uid: Uid, s: Settings): Room {
    Room(false, uid, s, Waiting, map[], [], {}, map[], {}, {}, [], {}, {}, None, None, 0.0, false, false, false)
  }

  /** A new room with its creator installed; the tutorial seats its only player directly. */
  function Create(h: Policy, uid: Uid, s: Settings, connection: int, w: World): Room {
    if s.mode == TUTORIAL then
      Empty(uid, s).(members := map[uid := Member(0, 0, false, false, 0, InRoom, connection)], order := [uid],
                     located := {uid}, tutorial := true)
    else Install(h, Empty(uid, s), uid, false, connection, w)
  }

  // ---------------------------------------------------------------- leaving

  /** Cancelling a probe takes back every ready flag. */
  function Unprobed(r: Room): map<Uid, Member> {
    if r.probe.None? then r.members else Unready(r.members)
  }

  function CancelProbe(r: Room): Room {
    r.(probe := None, members := Unprobed(r))
  }

  /** Everything that goes with one member, whatever happens to the room afterwards. */
  function Drop(r: Room, uid: Uid): Room {
    r.(exchange := None, probe := None, suspended := r.suspended - {uid}, members := Unprobed(r) - {uid},
       order := Without(r.order, uid), located := r.located - {uid}, loaded := r.loaded - {uid},
       input := r.input - {uid}, acks := r.acks - {uid}, replies := r.replies - {uid})
  }

  function Abort(r: Room): Room {
    r.(gone := true, members := map[], order := [], located := {})
  }

  function Leave(h: Policy, r: Room, uid: Uid, w: World): Room {
    if uid !in r.located || uid !in r.members then r
    else
      var x := Drop(r, uid);
      if x.members == map[] then x.(gone := true)
      else if x.stage != Waiting then
        if r.members[uid].spectator then Advance(h, x, w) else Abort(x)
      else x.(owner := if x.owner == uid then Heir(x) else x.owner, members := Unready(x.members))
  }

  function Disconnected(h: Policy, r: Room, uid: Uid, w: World): Room {
    if uid !in r.located || uid !in r.members then r
    else if r.stage != Waiting || r.settings.mode == TUTORIAL then Leave(h, r, uid, w)
    else r.(members := r.members[uid := r.members[uid].(ready := false, phase := NoGame, connection := 0)],
            suspended := r.suspended[uid := w.now + h.reconnect])
  }

  /** A suspended member's new game connection, still in the lobby. */
  function Reconnected(r: Room, uid: Uid, connection: int): Room {
    if uid !in r.members || uid !in r.suspended || r.members[uid].phase != NoGame then r
    else r.(members := r.members[uid := r.members[uid].(phase := InLobby, connection := connection)])
  }

  predicate RestoreAllowed(r: Room, uid: Uid, w: World) {
    && uid in r.suspended && uid in r.members && r.stage == Waiting && Leased(r, w, uid)
    && forall u <- r.members :: u in r.suspended || Leased(r, w, u)
  }

  function Restore(r: Room, uid: Uid, w: World): Room {
    if !RestoreAllowed(r, uid, w) then r
    else r.(suspended := r.suspended - {uid}, members := r.members[uid := r.members[uid].(phase := InRoom)])
  }

  // ---------------------------------------------------------------- expiry

  function ExpireRoom(h: Policy, r: Room, w: World): Room {
    if h.public && r.deadline != 0.0 && w.now >= r.deadline then Leave(h, r, r.owner, w)
    else
      var x := if r.exchange.Some? && (r.exchange.value.identity != IdentityOf(r) || w.now >= r.exchange.value.deadline)
               then r.(exchange := None) else r;
      if x.probe.Some? && (x.probe.value.identity != IdentityOf(x) || w.now - x.probe.value.start >= 10.0)
      then CancelProbe(x) else x
  }

  function ExpireMember(h: Policy, r: Room, uid: Uid, w: World): Room {
    if uid in r.suspended && w.now >= r.suspended[uid]
    then Leave(h, r.(suspended := r.suspended - {uid}), uid, w) else r
  }

  // ---------------------------------------------------------------- requests in a waiting room

  predicate Acts(r: Room, uid: Uid) {
    uid in r.located && uid in r.members && r.members[uid].phase == InRoom && r.stage == Waiting
  }

  function ChangeSettings(h: Policy, r: Room, uid: Uid, update: Update): Room {
    var updated := Patched(r.settings, update);
    if !Acts(r, uid) || r.owner != uid || r.settings.mode == TUTORIAL || !update.sound || update.duration !in DURATIONS
       || !Admitted(updated) || (h.public && updated.mode !in {0, 1, 2, 3, 5}) || updated == r.settings then r
    else r.(settings := updated, members := Unready(r.members))
  }

  function ChangeTeam(r: Room, uid: Uid, team: int): Room {
    if !Acts(r, uid) || team !in {0, 1} || r.members[uid].spectator || r.members[uid].team == team
       || r.settings.mode == TUTORIAL then r
    else
      var key := PositionKey(r.settings.mode, r.members, team, r.members[uid].slot, Some(uid));
      if key.None? then r
      else r.(members := Unready(r.members[uid := r.members[uid].(team := team, key := key.value)]))
  }

  function Remove(h: Policy, r: Room, uid: Uid, target: Uid, w: World): Room {
    if !Acts(r, uid) || r.owner != uid || target == uid || target !in r.members then r else Leave(h, r, target, w)
  }

  function Transfer(r: Room, uid: Uid, target: Uid, w: World): Room {
    if !Acts(r, uid) || r.owner != uid || target == uid || target !in r.members || r.members[target].spectator
       || target in r.suspended || !Leased(r, w, target) then r
    else r.(owner := target, members := Unready(r.members))
  }

  predicate ToggleRefused(h: Policy, r: Room, uid: Uid)
    requires uid in r.members
  {
    if r.members[uid].spectator then |r.Fighters()| >= r.settings.capacity
    else Observers(r) >= ObserverLimit(h, r.settings)
  }

  function ToggledSeat(r: Room, uid: Uid): (int, Option<int>)
    requires uid in r.members
  {
    if !r.members[uid].spectator then (8, Some(8))
    else
      var slot := FreeSlot(r.members, 0);
      (slot, PositionKey(r.settings.mode, r.members, r.members[uid].team, slot, Some(uid)))
  }

  function Toggle(h: Policy, r: Room, uid: Uid, w: World): Room {
    if !Acts(r, uid) || r.settings.mode == TUTORIAL || ToggleRefused(h, r, uid) then r
    else
      var (slot, key) := ToggledSeat(r, uid);
      var old_ := r.members[uid];
      if key.None? || !Leased(r, w, uid) then r
      else
        var m := old_.(slot := slot, spectator := !old_.spectator, ready := false, key := key.value);
        var x := r.(members := Unready(r.members[uid := m]));
        if x.Fighters() != {} && x.owner in x.members && x.members[x.owner].spectator then x.(owner := Heir(x)) else x
  }

  // ---------------------------------------------------------------- seat exchange

  datatype SwapStep = Ask | Accept | Refuse

  predicate SwapSound(r: Room, s: Swap) {
    && s.source in r.Fighters() && s.source != s.target && 0 <= s.old_ < 8 && 0 <= s.new_ < 8 && s.old_ != s.new_
    && r.members[s.source].key == s.old_ && !r.members[s.source].ready
    && (s.target != 0 ==> s.target in r.Fighters() && r.members[s.target].key == s.new_ && !r.members[s.target].ready)
    && (forall u <- r.Fighters() :: u == s.target || r.members[u].key != s.new_)
    && (s.target == 0 ==> s.new_ / 4 == r.members[s.source].team)
  }

  predicate SwapOpen(r: Room, uid: Uid) {
    && Acts(r, uid) && r.settings.mode == 3 && r.probe.None?
    && forall u <- r.members :: u !in r.suspended && r.members[u].phase == InRoom
  }

  function Swapped(r: Room, s: Swap): Room
    requires SwapSound(r, s)
  {
    var a := r.members[s.source];
    var moved :=
      if s.target in r.Fighters() then
        var b := r.members[s.target];
        r.members[s.source := a.(key := b.key, team := b.team)][s.target := b.(key := a.key, team := a.team)]
      else r.members[s.source := a.(key := s.new_)];
    r.(members := Unready(moved))
  }

  function ExchangeSeat(r: Room, uid: Uid, step: SwapStep, s: Swap, w: World): Room {
    if !SwapOpen(r, uid) || !SwapSound(r, s) then r
    else if step == Ask then
      if s.source != uid || r.exchange.Some? then r
      else if s.target in r.Fighters() then r.(exchange := Some(Exchange(s, IdentityOf(r), w.now + 30.0)))
      else Swapped(r, s)
    else if r.exchange.None? || r.exchange.value.swap != s || uid != s.target || s.target !in r.Fighters() then r
    else if step == Refuse then r.(exchange := None)
    else Swapped(r.(exchange := None), s)
  }

  // ---------------------------------------------------------------- ready and start

  function TeamCount(r: Room, team: int): int {
    |set u | u in r.Fighters() && r.members[u].team == team|
  }

  /** May the owner of this mode ask for a start at all? */
  predicate Balanced(r: Room) {
    r.settings.mode in COMPETITIVE ==>
      |r.Fighters()| >= 2
      && (r.settings.mode in TEAMED ==> TeamCount(r, 0) != 0 && TeamCount(r, 0) == TeamCount(r, 1))
  }

  function StartMatch(h: Policy, r: Room, w: World, plan: bool): Room {
    if r.settings.mode in {FOSTER, ASSAULT} && !plan then r
    else r.(stage := Loading, pve := r.settings.mode in {FOSTER, ASSAULT}, positions := false,
            reports := [], replies := {}, acks := {}, loaded := {}, input := {},
            deadline := if h.public then w.now + 120.0 else r.deadline,
            members := WithPhase(r.members, InLoading))
  }

  function BeginStart(h: Policy, r: Room, w: World, plan: bool): Room {
    var x := r.(exchange := None);
    if !h.probing then StartMatch(h, x, w, plan)
    else if x.probe.Some? then x
    else x.(probe := Some(Probe(w.now, IdentityOf(x), x.Fighters())))
  }

  predicate OthersReady(r: Room, uid: Uid) {
    forall u <- r.Fighters() :: u == uid || (r.members[u].ready && u !in r.suspended)
  }

  predicate AllReady(r: Room, w: World) {
    (forall u <- r.Fighters() :: r.members[u].ready) && (forall u <- r.members :: u !in r.suspended && Alive(r, w, u))
  }

  function Ready(h: Policy, r: Room, uid: Uid, w: World, plan: bool): Room {
    if uid !in r.located || uid !in r.members || r.stage != Waiting || r.members[uid].spectator || !Alive(r, w, uid)
       || r.settings.mode == TUTORIAL then r
    else if uid == r.owner && (!Balanced(r) || !OthersReady(r, uid)) then r
    else
      var x := r.(members := r.members[uid := r.members[uid].(ready := true)]);
      if uid == x.owner && AllReady(x, w) then BeginStart(h, x, w, plan) else x
  }

  function CancelReady(r: Room, uid: Uid): Room {
    if uid !in r.located || uid !in r.members || r.stage != Waiting || r.members[uid].spectator
       || r.settings.mode == TUTORIAL then r
    else r.(members := r.members[uid := r.members[uid].(ready := false)])
  }

  /** The private tutorial starts on its only member's ready. */
  function TutorialReady(h: Policy, r: Room, uid: Uid, w: World): Room {
    if !Acts(r, uid) || r.settings.mode != TUTORIAL || r.tutorial then r
    else StartMatch(h, r.(members := r.members[uid := r.members[uid].(ready := true)]), w, true)
  }

  function TutorialEntered(r: Room, uid: Uid): Room {
    if uid in r.located && r.settings.mode == TUTORIAL && uid == r.owner then r.(tutorial := false) else r
  }

  predicate ProbeBroken(r: Room, w: World)
    requires r.probe.Some?
  {
    || r.probe.value.identity != IdentityOf(r) || w.now - r.probe.value.start >= 10.0
    || exists u <- r.members :: u in r.suspended || !Alive(r, w, u) || r.members[u].phase != InRoom
  }

  function DelayReply(h: Policy, r: Room, uid: Uid, w: World, plan: bool): Room {
    if !Acts(r, uid) || r.probe.None? || uid !in r.probe.value.pending then r
    else if ProbeBroken(r, w) then CancelProbe(r)
    else
      var left := r.probe.value.pending - {uid};
      if left == {} then StartMatch(h, r.(probe := None), w, plan)
      else r.(probe := Some(r.probe.value.(pending := left)))
  }

  // ---------------------------------------------------------------- barriers

  predicate LoadBarrier(r: Room) {
    r.stage == Loading && r.loaded == r.members.Keys && (r.settings.mode == FOSTER ==> r.pve && r.positions)
  }

  predicate InputBarrier(r: Room) {
    r.stage == WaitReady && r.Fighters() != {} && r.input == r.Fighters()
  }

  predicate ResultBarrier(r: Room) {
    r.stage == Finished && r.acks == r.members.Keys
  }

  function PassLoad(r: Room): Room {
    if LoadBarrier(r) then r.(stage := WaitReady, members := WithPhase(r.members, InWaitReady)) else r
  }

  function PassInput(h: Policy, r: Room, w: World): Room {
    if InputBarrier(r) then
      r.(stage := Fighting, deadline := if h.public then w.now + r.settings.duration as real + 30.0 else r.deadline,
         members := WithPhase(r.members, InBattle))
    else r
  }

  function PassResult(r: Room): Room {
    if ResultBarrier(r) then
      r.(stage := Waiting, deadline := 0.0, pve := false, loaded := {}, input := {},
         members := WithPhase(Unready(r.members), InRoom))
    else r
  }

  function Advance(h: Policy, r: Room, w: World): Room {
    PassResult(PassInput(h, PassLoad(r), w))
  }

  function Load(h: Policy, r: Room, uid: Uid, w: World): Room {
    if uid !in r.located || uid !in r.members || uid in r.loaded
       || r.stage != Loading || r.members[uid].phase != InLoading
    then r
    else Advance(h, r.(loaded := r.loaded + {uid}), w)
  }

  function InputReady(h: Policy, r: Room, uid: Uid, w: World): Room {
    if uid !in r.located || uid !in r.members || r.members[uid].spectator || uid in r.input || r.stage != WaitReady
       || r.members[uid].phase != InWaitReady then r
    else Advance(h, r.(input := r.input + {uid}), w)
  }

  /** The host's position snapshot of a foster battle, accepted while the host is still loading. */
  function Positions(r: Room, uid: Uid): Room {
    if uid in r.located && uid == r.owner && r.pve && r.settings.mode == FOSTER && r.stage == Loading
       && uid in r.members && uid !in r.loaded then r.(positions := true) else r
  }

  // ---------------------------------------------------------------- results

  function Reporters(reports: seq<(Uid, set<Uid>)>): set<Uid> {
    set i | 0 <= i < |reports| :: reports[i].0
  }

  /** A result report naming exactly the current fighters; `agreed` is the verdict of the consensus rule. */
  function Report(r: Room, uid: Uid, agreed: bool): Room {
    if uid !in r.located || uid !in r.members || r.pve || r.settings.mode !in COMPETITIVE || r.members[uid].spectator
       || !(r.stage == Fighting || r.stage == Finished || (r.stage == Waiting && r.replies != {}))
       || uid in Reporters(r.reports) then r
    else
      var candidate := r.reports + [(uid, r.Fighters())];
      if Reporters(candidate) != r.Fighters() then r.(reports := candidate)
      else if candidate[0].1 != r.Fighters() || !agreed then r
      else r.(reports := candidate, replies := r.members.Keys, stage := Finished)
  }

  /** The Host's finish report; `qualified` says that it is a clear or a failure the stage object agrees with. */
  function StageFinish(r: Room, uid: Uid, qualified: bool): Room {
    if !qualified || uid !in r.located || !r.pve || uid != r.owner || !(r.stage == Fighting || r.stage == Finished)
       || uid in Reporters(r.reports) then r
    else r.(reports := r.reports + [(uid, r.Fighters())], replies := r.members.Keys, stage := Finished)
  }

  function Acknowledge(h: Policy, r: Room, uid: Uid, w: World): Room {
    if uid !in r.located || uid !in r.replies || !(r.pve || r.settings.mode in COMPETITIVE) then r
    else Advance(h, r.(acks := r.acks + {uid}), w)
  }

  // ---------------------------------------------------------------- one step

  datatype Event =
    | Joins(uid: Uid, spectator: bool, admitted: bool, connection: int)
    | Departs(uid: Uid)
    | Drops(uid: Uid)
    | Returns(uid: Uid, connection: int)
    | Binds(uid: Uid)
    | Tick
    | TickMember(uid: Uid)
    | Changes(uid: Uid, update: Update)
    | Moves(uid: Uid, team: int)
    | Removes(uid: Uid, target: Uid)
    | Hands(uid: Uid, target: Uid)
    | Toggles(uid: Uid)
    | Swaps(uid: Uid, step: SwapStep, swap: Swap)
    | Readies(uid: Uid, plan: bool)
    | Unreadies(uid: Uid)
    | Enters(uid: Uid)
    | Begins(uid: Uid)
    | Answers(uid: Uid, plan: bool)
    | Loads(uid: Uid)
    | Inputs(uid: Uid)
    | Places(uid: Uid)
    | Reports(uid: Uid, agreed: bool)
    | Finishes(uid: Uid, qualified: bool)
    | Acknowledges(uid: Uid)

  function Step(h: Policy, r: Room, e: Event, w: World): Room {
    if r.gone then r
    else
      match e
      case Joins(uid, spectator, admitted, connection) => Join(h, r, uid, spectator, admitted, connection, w)
      case Departs(uid) => Leave(h, r, uid, w)
      case Drops(uid) => Disconnected(h, r, uid, w)
      case Returns(uid, connection) => Reconnected(r, uid, connection)
      case Binds(uid) => Restore(r, uid, w)
      case Tick => ExpireRoom(h, r, w)
      case TickMember(uid) => ExpireMember(h, r, uid, w)
      case Changes(uid, update) => ChangeSettings(h, r, uid, update)
      case Moves(uid, team) => ChangeTeam(r, uid, team)
      case Removes(uid, target) => Remove(h, r, uid, target, w)
      case Hands(uid, target) => Transfer(r, uid, target, w)
      case Toggles(uid) => Toggle(h, r, uid, w)
      case Swaps(uid, step, swap) => ExchangeSeat(r, uid, step, swap, w)
      case Readies(uid, plan) => Ready(h, r, uid, w, plan)
      case Unreadies(uid) => CancelReady(r, uid)
      case Enters(uid) => TutorialEntered(r, uid)
      case Begins(uid) => TutorialReady(h, r, uid, w)
      case Answers(uid, plan) => DelayReply(h, r, uid, w, plan)
      case Loads(uid) => Load(h, r, uid, w)
      case Inputs(uid) => InputReady(h, r, uid, w)
      case Places(uid) => Positions(r, uid)
      case Reports(uid, agreed) => Report(r, uid, agreed)
      case Finishes(uid, qualified) => StageFinish(r, uid, qualified)
      case Acknowledges(uid) => Acknowledge(h, r, uid, w)
  }

  datatype Moment = Moment(event: Event, world: World)

  function Run(h: Policy, start: Room, events: seq<Moment>): Room {
    if events == [] then start
    else Step(h, Run(h, start, events[..|events| - 1]), events[|events| - 1].event, events[|events| - 1].world)
  }
}
