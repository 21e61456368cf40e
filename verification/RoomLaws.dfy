/** What each room event does, said of the fields of the room before and after it. */
module RoomLaws {
  import opened RoomState
  import opened RoomRules
  import RoomSeating

  // ---------------------------------------------------------------- vocabulary

  ghost predicate Placed(r: Room, uid: Uid) { uid in r.located && uid in r.members }

  /** A member whose client stands in the waiting room. */
  ghost predicate Present(r: Room, uid: Uid) {
    Placed(r, uid) && r.members[uid].phase == InRoom && r.stage == Waiting
  }

  ghost predicate Fights(r: Room, uid: Uid) { uid in r.members && !r.members[uid].spectator }

  function FightingSet(r: Room): set<Uid> { set u | u in r.members && !r.members[u].spectator }

  /** The P2P lease of a connected member, and whether it is bound as well. */
  ghost predicate LeaseLive(r: Room, w: World, u: Uid) {
    u in w.alive && (u in r.members ==> r.members[u].phase != NoGame)
  }

  ghost predicate LeaseBound(r: Room, w: World, u: Uid) { LeaseLive(r, w, u) && u in w.bound }

  /** All consents are taken back; apart from that nothing about anybody changes. */
  ghost predicate Hushed(x: map<Uid, Member>, y: map<Uid, Member>) {
    x.Keys == y.Keys && forall u <- x :: x[u] == y[u].(ready := false)
  }

  /** The same for everybody but one. */
  ghost predicate HushedBut(x: map<Uid, Member>, y: map<Uid, Member>, uid: Uid) {
    x.Keys == y.Keys && forall u <- x :: u != uid ==> x[u] == y[u].(ready := false)
  }

  ghost predicate SameBut(x: map<Uid, Member>, y: map<Uid, Member>, uid: Uid) {
    x.Keys == y.Keys && forall u <- x :: u != uid ==> x[u] == y[u]
  }

  ghost predicate SlotTaken(r: Room, slot: int) {
    exists u <- r.members :: !r.members[u].spectator && r.members[u].slot == slot
  }

  ghost predicate KeyTaken(r: Room, key: int, except: Option<Uid>) {
    exists u <- r.members :: !r.members[u].spectator && except != Some(u) && r.members[u].key == key
  }

  /** The least of the eight slots that no fighter has. */
  ghost predicate IsFreeSlot(r: Room, slot: int) {
    0 <= slot < 8 && !SlotTaken(r, slot) && forall i :: 0 <= i < slot ==> SlotTaken(r, i)
  }

  /** The least key of a team's four that no other fighter has. */
  ghost predicate IsFreeKey(r: Room, team: int, except: Option<Uid>, key: int) {
    4 * team <= key < 4 * team + 4 && !KeyTaken(r, key, except)
    && forall k :: 4 * team <= k < key ==> KeyTaken(r, k, except)
  }

  ghost predicate BankFull(r: Room, team: int, except: Option<Uid>) {
    forall k :: 4 * team <= k < 4 * team + 4 ==> KeyTaken(r, k, except)
  }

  // ---------------------------------------------------------------- searches

  lemma {:induction false} SlotSearch(r: Room, i: int)
    requires 0 <= i <= 8
    ensures var slot := FreeSlot(r.members, i);
      (slot < 8 ==> !SlotTaken(r, slot)) && forall j :: i <= j < slot ==> SlotTaken(r, j)
    decreases 8 - i
  {
    assert forall u :: u in FightersOf(r.members) <==> Fights(r, u);
    if i < 8 {
      if !(forall u <- FightersOf(r.members) :: r.members[u].slot != i) {
        SlotSearch(r, i + 1);
      }
    }
  }

  lemma KeySearch(r: Room, team: int, except: Option<Uid>)
    ensures var key := BankKey(r.members, team, 0, except);
      && (key.Some? ==> IsFreeKey(r, team, except, key.value))
      && (key.None? ==> BankFull(r, team, except))
  {
    assert forall u :: u in FightersOf(r.members) <==> Fights(r, u);
    assert forall k :: KeyFree(r.members, k, except) <==> !KeyTaken(r, k, except);
    KeyOrder(r, team, 0, except);
    hide BankKey, KeyFree;
  }

  lemma {:induction false} KeyOrder(r: Room, team: int, i: int, except: Option<Uid>)
    requires 0 <= i <= 4
    ensures var key := BankKey(r.members, team, i, except);
      key.Some? ==> forall k :: 4 * team + i <= k < key.value ==> KeyTaken(r, k, except)
    decreases 4 - i
  {
    assert forall u :: u in FightersOf(r.members) <==> Fights(r, u);
    if i < 4 && !KeyFree(r.members, 4 * team + i, except) {
      KeyOrder(r, team, i + 1, except);
    }
  }

  lemma BankOneOf(r: Room, team: int, except: Option<Uid>)
    ensures forall key :: IsFreeKey(r, team, except, key) ==> !BankFull(r, team, except)
  {
    hide KeyTaken;
  }

  // ---------------------------------------------------------------- ownership

  /** Ownership moves exactly when the owner hands it to another fighter who is present with a bound lease. */
  lemma HandsMovesOwnership(h: Policy, r: Room, uid: Uid, target: Uid, w: World)
    requires !r.gone
    ensures var x := Step(h, r, Hands(uid, target), w);
      var ok := Present(r, uid) && r.owner == uid && target != uid && Fights(r, target) && target !in r.suspended
                && LeaseBound(r, w, target);
      && (ok ==> x == r.(owner := target, members := x.members) && Hushed(x.members, r.members))
      && (!ok ==> x == r)
  {
  }

  // ---------------------------------------------------------------- teams and seats

  /** The seat a fighter gets on a team: the first free key of the bank in team modes, the slot itself otherwise. */
  ghost predicate SeatsOnTeam(r: Room, uid: Uid, team: int, m: Member) {
    if r.settings.mode == 1 || r.settings.mode == 3 then IsFreeKey(r, team, Some(uid), m.key) else m.key == m.slot
  }

  ghost predicate TeamHasRoom(r: Room, uid: Uid, team: int) {
    r.settings.mode == 1 || r.settings.mode == 3 ==> !BankFull(r, team, Some(uid))
  }

  /** Changing teams moves one fighter to the new team and a free seat there, and takes all consents back. */
  lemma MovesChangesTeam(h: Policy, r: Room, uid: Uid, team: int, w: World)
    requires !r.gone
    ensures var x := Step(h, r, Moves(uid, team), w);
      var ok := Present(r, uid) && (team == 0 || team == 1) && Fights(r, uid) && r.members[uid].team != team
                && r.settings.mode != 4 && TeamHasRoom(r, uid, team);
      && (ok ==>
            && x == r.(members := x.members) && HushedBut(x.members, r.members, uid)
            && x.members[uid] == r.members[uid].(team := team, key := x.members[uid].key, ready := false)
            && SeatsOnTeam(r, uid, team, x.members[uid]))
      && (!ok ==> x == r)
  {
    KeySearch(r, team, Some(uid));
    BankOneOf(r, team, Some(uid));
    hide BankKey, IsFreeKey, BankFull;
  }

  /** An update by the owner that is sound, open to the public where that matters, and changes something. */
  ghost predicate RealUpdate(h: Policy, r: Room, uid: Uid, u: Update) {
    var s := r.settings;
    && Present(r, uid) && r.owner == uid && s.mode != 4 && u.sound
    && (u.duration == 120 || u.duration == 180 || u.duration == 240 || u.duration == 300)
    && (h.public ==> s.mode < 4 || s.mode == 5)
    && (u.watch != s.watch || u.duration != s.duration || u.rest != s.rest)
  }

  lemma RealUpdateIff(h: Policy, r: Room, uid: Uid, u: Update)
    requires Admitted(r.settings)
    ensures RealUpdate(h, r, uid, u) <==>
      !(!Acts(r, uid) || r.owner != uid || r.settings.mode == TUTORIAL || !u.sound || u.duration !in DURATIONS
        || !Admitted(Patched(r.settings, u)) || (h.public && Patched(r.settings, u).mode !in {0, 1, 2, 3, 5})
        || Patched(r.settings, u) == r.settings)
  {
    PatchedFields(r.settings, u);
    OpenModes(r.settings);
    assert u.duration in DURATIONS
      <==> (u.duration == 120 || u.duration == 180 || u.duration == 240 || u.duration == 300);
    hide Admitted, Patched;
  }

  /** A settings update patches watch option, duration and rest, and takes all consents back. */
  lemma ChangesPatches(h: Policy, r: Room, uid: Uid, u: Update, w: World)
    requires !r.gone && Admitted(r.settings)
    ensures var x, s := Step(h, r, Changes(uid, u), w), r.settings;
      && (RealUpdate(h, r, uid, u) ==>
            && x == r.(settings := Settings(s.mode, s.capacity, u.watch, u.duration, u.rest), members := x.members)
            && Hushed(x.members, r.members))
      && (!RealUpdate(h, r, uid, u) ==> x == r)
  {
    RealUpdateIff(h, r, uid, u);
    PatchedFields(r.settings, u);
    UnreadyHushes(r.members);
    hide RealUpdate, Acts, Admitted, Patched, Unready, Hushed;
  }

  lemma UnreadyHushes(members: map<Uid, Member>)
    ensures Hushed(Unready(members), members)
  {
  }

  lemma PatchedFields(s: Settings, u: Update)
    ensures Patched(s, u) == Settings(s.mode, s.capacity, u.watch, u.duration, u.rest)
    ensures Patched(s, u) == s <==> u.watch == s.watch && u.duration == s.duration && u.rest == s.rest
    ensures Admitted(Patched(s, u)) <==> Admitted(s)
  {
    assert s == Settings(s.mode, s.capacity, s.watch, s.duration, s.rest);
  }

  lemma OpenModes(s: Settings)
    requires Admitted(s)
    ensures s.mode in {0, 1, 2, 3, 5} <==> s.mode < 4 || s.mode == 5
  {
  }

  /** An exchange that can be made: both sides, or one and an empty seat of the same team, with no consent standing. */
  ghost predicate Exchangeable(r: Room, s: Swap) {
    && Fights(r, s.source) && s.source != s.target && 0 <= s.old_ < 8 && 0 <= s.new_ < 8 && s.old_ != s.new_
    && r.members[s.source].key == s.old_ && !r.members[s.source].ready
    && (s.target == 0 ==> s.new_ / 4 == r.members[s.source].team)
    && (s.target != 0 ==> Fights(r, s.target) && r.members[s.target].key == s.new_ && !r.members[s.target].ready)
    && !(exists u <- r.members :: !r.members[u].spectator && u != s.target && r.members[u].key == s.new_)
  }

  ghost predicate ExchangeTime(r: Room, uid: Uid) {
    && Present(r, uid) && r.settings.mode == 3 && r.probe.None?
    && forall u <- r.members :: u !in r.suspended && r.members[u].phase == InRoom
  }

  /** The two fighters hold each other's key and team; everything else stays but the consents. */
  ghost predicate Exchanged(x: map<Uid, Member>, y: map<Uid, Member>, a: Uid, b: Uid)
    requires a in y && b in y
  {
    && x.Keys == y.Keys
    && x[a] == y[a].(key := y[b].key, team := y[b].team, ready := false)
    && x[b] == y[b].(key := y[a].key, team := y[a].team, ready := false)
    && forall u <- x :: u != a && u != b ==> x[u] == y[u].(ready := false)
  }

  lemma ExchangeableIff(r: Room, uid: Uid, s: Swap)
    ensures SwapSound(r, s) <==> Exchangeable(r, s)
    ensures SwapOpen(r, uid) <==> ExchangeTime(r, uid)
  {
    assert forall u :: u in FightersOf(r.members) <==> Fights(r, u);
  }

  /** An empty seat is taken at once, an occupied one waits thirty seconds for its owner. */
  lemma AskExchanges(h: Policy, r: Room, uid: Uid, s: Swap, w: World)
    requires !r.gone && 0 !in r.members
    ensures var x := Step(h, r, Swaps(uid, Ask, s), w);
      var ok := ExchangeTime(r, uid) && Exchangeable(r, s) && s.source == uid && r.exchange.None?;
      && (!ok ==> x == r)
      && (ok && s.target != 0 ==>
            && x == r.(exchange := x.exchange) && x.exchange.Some? && x.exchange.value.swap == s
            && x.exchange.value.identity == IdentityOf(r) && x.exchange.value.deadline == w.now + 30.0)
      && (ok && s.target == 0 ==>
            && x == r.(members := x.members) && HushedBut(x.members, r.members, uid)
            && x.members[uid] == r.members[uid].(key := s.new_, ready := false))
  {
    ExchangeableIff(r, uid, s);
    assert forall u :: u in FightersOf(r.members) <==> Fights(r, u);
    hide SwapOpen, SwapSound, ExchangeTime, IdentityOf;
  }

  /** The answer of the one who was asked, about that very exchange, ends it: made or dropped. */
  lemma AnswerExchanges(h: Policy, r: Room, uid: Uid, accept: bool, s: Swap, w: World)
    requires !r.gone && 0 !in r.members
    ensures var x := Step(h, r, Swaps(uid, if accept then Accept else Refuse, s), w);
      var ok := ExchangeTime(r, uid) && Exchangeable(r, s) && s.target == uid && r.exchange.Some?
                && r.exchange.value.swap == s;
      && (!ok ==> x == r)
      && (ok && !accept ==> x == r.(exchange := None))
      && (ok && accept ==>
            && x == r.(exchange := None, members := x.members)
            && Exchanged(x.members, r.members, s.source, s.target))
  {
    ExchangeableIff(r, uid, s);
    assert forall u :: u in FightersOf(r.members) <==> Fights(r, u);
    hide SwapOpen, SwapSound, ExchangeTime, IdentityOf;
    if SwapOpen(r, uid) && SwapSound(r, s) && accept && uid == s.target && r.exchange.Some? {
      SwappedKeys(r.(exchange := None), s);
    }
  }

  lemma SwappedKeys(r: Room, s: Swap)
    requires SwapSound(r, s) && s.target != 0
    ensures Exchanged(Swapped(r, s).members, r.members, s.source, s.target)
    ensures Swapped(r, s) == r.(members := Swapped(r, s).members)
  {
    assert forall u :: u in FightersOf(r.members) <==> Fights(r, u);
  }

  // ---------------------------------------------------------------- coming

  function ObserverSeats(h: Policy, r: Room): int {
    if r.settings.mode == 1 && r.settings.watch then h.spectators else 0
  }

  function ObserverCount(r: Room): int { |r.members| - |FightingSet(r)| }

  ghost predicate HasRoomFor(h: Policy, r: Room, spectator: bool) {
    if spectator then ObserverCount(r) < ObserverSeats(h, r) else |FightingSet(r)| < r.settings.capacity
  }

  ghost predicate TeamMode(r: Room) { r.settings.mode == 1 || r.settings.mode == 3 }

  /**
   * The seat of a newcomer. An observer has none, written as slot and key 8. A fighter gets the least free slot; the
   * slot's parity is the team, unless that team's bank is full in a team mode; the key is the first of the bank.
   */
  ghost predicate NewSeat(r: Room, spectator: bool, m: Member) {
    && (spectator ==> m.slot == 8 && m.team == 0 && m.key == 8)
    && (!spectator ==> IsFreeSlot(r, m.slot))
    && (!spectator && !TeamMode(r) ==> m.team == m.slot % 2 && m.key == m.slot)
    && (!spectator && TeamMode(r) ==>
          && (m.team == if BankFull(r, m.slot % 2, None) then 1 - m.slot % 2 else m.slot % 2)
          && IsFreeKey(r, m.team, None, m.key))
  }

  ghost predicate SeatLeft(r: Room, spectator: bool) {
    !spectator ==>
      (exists i :: 0 <= i < 8 && !SlotTaken(r, i))
      && (TeamMode(r) ==> !BankFull(r, 0, None) || !BankFull(r, 1, None))
  }

  lemma SeatSearch(r: Room, spectator: bool)
    ensures var (slot, team, key) := SeatFor(r, spectator);
      && (SeatLeft(r, spectator) <==> key.Some? && (spectator || slot < 8)) && (spectator ==> slot == 8)
      && (SeatLeft(r, spectator) ==>
            forall c :: NewSeat(r, spectator, Member(slot, team, false, spectator, key.value, InRoom, c)))
  {
    if !spectator {
      SlotSearch(r, 0);
      var slot := FreeSlot(r.members, 0);
      KeySearch(r, slot % 2, None);
      KeySearch(r, 1 - slot % 2, None);
      hide FreeSlot, BankKey, SlotTaken, KeyTaken;
      assert slot % 2 == 0 || slot % 2 == 1;
      BankOneOf(r, 0, None);
      BankOneOf(r, 1, None);
    }
  }

  lemma FightingCount(r: Room)
    ensures r.Fighters() == FightingSet(r)
  {
  }

  /** One more member with a free seat, at the end of the order; all consents are taken back. */
  ghost predicate Installed(r: Room, uid: Uid, spectator: bool, connection: int, x: Room) {
    && x == r.(owner := x.owner, members := x.members, order := r.order + [uid], located := r.located + {uid})
    && uid in x.members && Hushed(x.members - {uid}, r.members)
    && NewSeat(r, spectator, x.members[uid])
    && x.members[uid].spectator == spectator && !x.members[uid].ready && x.members[uid].phase == InRoom
    && x.members[uid].connection == connection
    && x.owner == if !spectator && r.owner in r.members && r.members[r.owner].spectator then uid else r.owner
  }

  lemma InstallSeats(h: Policy, r: Room, uid: Uid, spectator: bool, connection: int, w: World)
    requires uid !in r.members && InstallAllowed(h, r, uid, spectator, w) && SeatLeft(r, spectator)
    ensures Installed(r, uid, spectator, connection, Install(h, r, uid, spectator, connection, w))
  {
    SeatSearch(r, spectator);
    InstalledMembers(r, uid, Install(h, r, uid, spectator, connection, w).members);
    hide SeatFor, SeatLeft, NewSeat, InstallAllowed, Hushed, Unready;
  }

  /** A join is carried out exactly when the room has a place for it; it changes nobody's seat and ends all consents. */
  lemma JoinsInstalls(h: Policy, r: Room, uid: Uid, spectator: bool, admitted: bool, connection: int, w: World)
    requires !r.gone && uid !in r.members
    ensures var x := Step(h, r, Joins(uid, spectator, admitted, connection), w);
      var ok := uid != 0 && uid !in r.located && admitted && connection != 0 && r.stage == Waiting
                && HasRoomFor(h, r, spectator) && SeatLeft(r, spectator) && uid in w.alive && uid in w.bound
                && forall u <- r.members :: u !in r.suspended && LeaseBound(r, w, u);
      && (!ok ==> x == r)
      && (ok ==> Installed(r, uid, spectator, connection, x))
  {
    InstallIff(h, r, uid, spectator, w);
    hide SeatLeft, HasRoomFor, InstallAllowed, LeaseBound, Installed;
    if InstallAllowed(h, r, uid, spectator, w) {
      InstallSeats(h, r, uid, spectator, connection, w);
      hide Install;
    }
  }

  lemma InstallIff(h: Policy, r: Room, uid: Uid, spectator: bool, w: World)
    requires uid !in r.members
    ensures InstallAllowed(h, r, uid, spectator, w) <==>
      && r.stage == Waiting && HasRoomFor(h, r, spectator) && SeatLeft(r, spectator)
      && uid in w.alive && uid in w.bound && forall u <- r.members :: LeaseBound(r, w, u)
  {
    FightingCount(r);
    SeatSearch(r, spectator);
    assert forall u <- r.members :: Leased(r, w, u) <==> LeaseBound(r, w, u);
    hide SeatFor, SeatLeft, NewSeat, FightingSet, FightersOf, Leased, LeaseBound;
  }

  lemma InstalledMembers(r: Room, uid: Uid, x: map<Uid, Member>)
    requires uid !in r.members && uid in x && x == Unready(r.members)[uid := x[uid]]
    ensures Hushed(x - {uid}, r.members)
  {
  }

  // ---------------------------------------------------------------- going

  /** The heir: a fighter if there is one, of the least slot, and of several the one who joined first. */
  ghost predicate IsHeir(r: Room, heir: Uid) {
    var candidates := if FightingSet(r) != {} then FightingSet(r) else r.members.Keys;
    exists i :: 0 <= i < |r.order| && r.order[i] == heir && heir in candidates
                && forall j :: 0 <= j < |r.order| && r.order[j] in candidates ==>
                     || r.members[heir].slot < r.members[r.order[j]].slot
                     || (r.members[heir].slot == r.members[r.order[j]].slot && i <= j)
  }

  /** The search keeps its candidate until it meets a strictly lower slot. */
  lemma {:induction false} EldestIsFirst(order: seq<Uid>, members: map<Uid, Member>, candidates: set<Uid>, best: Uid)
    requires candidates <= members.Keys
    ensures var e := Eldest(order, members, candidates, best);
      || (e == best && (best !in candidates ==> forall u <- order :: u !in candidates)
          && (best in candidates ==>
                forall u <- order :: u in candidates ==> members[best].slot <= members[u].slot))
      || (exists i :: 0 <= i < |order| && order[i] == e && e in candidates
                      && (best in candidates ==> members[e].slot < members[best].slot)
                      && FirstLeast(order, members, candidates, i))
  {
    if order != [] {
      var u, rest := order[0], order[1..];
      var better := u in candidates && (best !in candidates || members[u].slot < members[best].slot);
      var next := if better then u else best;
      EldestIsFirst(rest, members, candidates, next);
      var e := Eldest(rest, members, candidates, next);
      hide FirstLeast;
      assert forall v <- order :: v == u || v in rest;
      if i :| 0 <= i < |rest| && rest[i] == e && e in candidates
              && (next in candidates ==> members[e].slot < members[next].slot)
              && FirstLeast(rest, members, candidates, i) {
        assert order[i + 1] == e;
        Shifted(order, members, candidates, i);
      } else if better {
        LeastFirst(order, members, candidates);
      }
    }
  }

  lemma LeastFirst(order: seq<Uid>, members: map<Uid, Member>, candidates: set<Uid>)
    requires candidates <= members.Keys && order != [] && order[0] in candidates
    requires forall v <- order[1..] :: v in candidates ==> members[order[0]].slot <= members[v].slot
    ensures FirstLeast(order, members, candidates, 0)
  {
    assert forall j :: 0 < j < |order| ==> order[j] == order[1..][j - 1] && order[1..][j - 1] in order[1..];
  }

  ghost predicate FirstLeast(order: seq<Uid>, members: map<Uid, Member>, candidates: set<Uid>, i: int)
    requires candidates <= members.Keys && 0 <= i < |order| && order[i] in candidates
  {
    forall j :: 0 <= j < |order| && order[j] in candidates ==>
      || members[order[i]].slot < members[order[j]].slot
      || (members[order[i]].slot == members[order[j]].slot && i <= j)
  }

  lemma Shifted(order: seq<Uid>, members: map<Uid, Member>, candidates: set<Uid>, i: int)
    requires candidates <= members.Keys && 0 <= i < |order| - 1 && order[1..][i] in candidates
    requires FirstLeast(order[1..], members, candidates, i)
    requires order[0] in candidates ==> members[order[i + 1]].slot < members[order[0]].slot
    ensures FirstLeast(order, members, candidates, i + 1)
  {
    forall j | 0 <= j < |order| && order[j] in candidates
      ensures members[order[i + 1]].slot < members[order[j]].slot
           || (members[order[i + 1]].slot == members[order[j]].slot && i + 1 <= j)
    {
      if j > 0 {
        assert order[1..][j - 1] == order[j] && order[1..][i] == order[i + 1];
      }
    }
  }

  lemma HeirIs(r: Room)
    requires RoomSeating.Listed(r.members, r.order) && r.members != map[] && 0 !in r.members
    ensures IsHeir(r, Heir(r))
  {
    FightingCount(r);
    var candidates := if r.Fighters() != {} then r.Fighters() else r.members.Keys;
    assert candidates <= r.members.Keys && 0 !in candidates;
    EldestIsFirst(r.order, r.members, candidates, 0);
    RoomSeating.HeirIsCandidate(r);
    hide FightersOf, FightingSet, Eldest;
  }

  // ---------------------------------------------------------------- barriers

  /** Everybody has loaded, and the foster mode has its positions. */
  ghost predicate AllLoaded(r: Room) {
    r.loaded == r.members.Keys && (r.settings.mode == 10 ==> r.pve && r.positions)
  }

  ghost predicate AllInput(r: Room) { FightingSet(r) != {} && r.input == FightingSet(r) }

  ghost predicate AllAcknowledged(r: Room) { r.acks == r.members.Keys }

  ghost predicate InPhase(x: map<Uid, Member>, y: map<Uid, Member>, phase: Phase) {
    x.Keys == y.Keys && forall u <- x :: x[u] == y[u].(phase := phase)
  }

  function BattleDeadline(h: Policy, r: Room, w: World): real {
    if h.public then w.now + r.settings.duration as real + 30.0 else r.deadline
  }

  /** The next stage for everybody together, when the barrier of the present one is met. */
  ghost predicate Advanced(h: Policy, r: Room, w: World, x: Room) {
    var loaded := r.stage == Loading && AllLoaded(r);
    var input := (loaded || r.stage == WaitReady) && AllInput(r);
    var done := r.stage == Finished && AllAcknowledged(r);
    && (!loaded && !input && !done ==> x == r)
    && (loaded && !input ==>
          x == r.(stage := WaitReady, members := x.members) && InPhase(x.members, r.members, InWaitReady))
    && (input ==>
          && x == r.(stage := Fighting, members := x.members, deadline := BattleDeadline(h, r, w))
          && InPhase(x.members, r.members, InBattle))
    && (done ==>
          && x == r.(stage := Waiting, members := x.members, deadline := 0.0, pve := false, loaded := {}, input := {})
          && x.members.Keys == r.members.Keys
          && forall u <- x.members :: x.members[u] == r.members[u].(ready := false, phase := InRoom))
  }

  lemma BarriersIff(r: Room)
    ensures LoadBarrier(r) <==> r.stage == Loading && AllLoaded(r)
    ensures InputBarrier(r) <==> r.stage == WaitReady && AllInput(r)
    ensures ResultBarrier(r) <==> r.stage == Finished && AllAcknowledged(r)
  {
    FightingCount(r);
    hide FightersOf, FightingSet;
  }

  lemma PhaseFighters(r: Room, p: Phase)
    ensures AllInput(r.(stage := WaitReady, members := WithPhase(r.members, p))) <==> AllInput(r)
    ensures InPhase(WithPhase(r.members, p), r.members, p)
  {
    var x := r.(stage := WaitReady, members := WithPhase(r.members, p));
    assert FightingSet(x) == FightingSet(r);
  }

  lemma AdvanceMoves(h: Policy, r: Room, w: World)
    ensures Advanced(h, r, w, Advance(h, r, w))
  {
    BarriersIff(r);
    PhaseFighters(r, InWaitReady);
    hide AllLoaded, AllInput, AllAcknowledged, LoadBarrier, InputBarrier, ResultBarrier;
    var y := PassLoad(r);
    BarriersIff(y);
    BarriersIff(PassInput(h, y, w));
    PhaseAgain(r.members, InWaitReady, InBattle);
    ReturnedMembers(r.members);
    PhaseFighters(r, InBattle);
    hide WithPhase, Unready, InPhase;
  }

  lemma PhaseAgain(members: map<Uid, Member>, p: Phase, q: Phase)
    ensures WithPhase(WithPhase(members, p), q) == WithPhase(members, q)
  {
  }

  lemma ReturnedMembers(members: map<Uid, Member>)
    ensures var x := WithPhase(Unready(members), InRoom);
      x.Keys == members.Keys && forall u <- x :: x[u] == members[u].(ready := false, phase := InRoom)
  {
  }

  /** A member has loaded, once, while loading; then the room may go on. */
  lemma LoadsCounts(h: Policy, r: Room, uid: Uid, w: World)
    requires !r.gone
    ensures var x := Step(h, r, Loads(uid), w);
      var ok := Placed(r, uid) && uid !in r.loaded && r.stage == Loading && r.members[uid].phase == InLoading;
      && (!ok ==> x == r)
      && (ok ==> Advanced(h, r.(loaded := r.loaded + {uid}), w, x))
  {
    AdvanceMoves(h, r.(loaded := r.loaded + {uid}), w);
    hide Advance, Advanced;
  }

  lemma InputsCounts(h: Policy, r: Room, uid: Uid, w: World)
    requires !r.gone
    ensures var x := Step(h, r, Inputs(uid), w);
      var ok := Placed(r, uid) && Fights(r, uid) && uid !in r.input && r.stage == WaitReady
                && r.members[uid].phase == InWaitReady;
      && (!ok ==> x == r)
      && (ok ==> Advanced(h, r.(input := r.input + {uid}), w, x))
  {
    AdvanceMoves(h, r.(input := r.input + {uid}), w);
    hide Advance, Advanced;
  }

  lemma AcknowledgesCounts(h: Policy, r: Room, uid: Uid, w: World)
    requires !r.gone
    ensures var x := Step(h, r, Acknowledges(uid), w);
      var ok := uid in r.located && uid in r.replies && (r.pve || r.settings.mode in {0, 1, 2, 3, 16});
      && (!ok ==> x == r)
      && (ok ==> Advanced(h, r.(acks := r.acks + {uid}), w, x))
  {
    AdvanceMoves(h, r.(acks := r.acks + {uid}), w);
    hide Advance, Advanced;
  }

  lemma PlacesNotes(h: Policy, r: Room, uid: Uid, w: World)
    requires !r.gone
    ensures var x := Step(h, r, Places(uid), w);
      var ok := Placed(r, uid) && uid == r.owner && r.pve && r.settings.mode == 10 && r.stage == Loading
                && uid !in r.loaded;
      x == if ok then r.(positions := true) else r
  {
  }

  // ---------------------------------------------------------------- leaving

  /** A room without one member: nothing of theirs is left, and a probe in progress is cancelled with all consents. */
  ghost predicate DroppedFrom(r: Room, uid: Uid, x: Room) {
    && x == r.(exchange := None, probe := None, suspended := r.suspended - {uid}, members := x.members,
               order := x.order, located := r.located - {uid}, loaded := r.loaded - {uid}, input := r.input - {uid},
               acks := r.acks - {uid}, replies := r.replies - {uid})
    && x.members.Keys == r.members.Keys - {uid}
    && (r.probe.None? ==> forall u <- x.members :: x.members[u] == r.members[u])
    && (r.probe.Some? ==> forall u <- x.members :: x.members[u] == r.members[u].(ready := false))
    && OrderWithout(r.order, uid, x.order)
  }

  /** The others in the order they joined. */
  ghost predicate OrderWithout(order: seq<Uid>, uid: Uid, rest: seq<Uid>) {
    && (uid !in order ==> rest == order)
    && forall i :: 0 <= i < |order| && order[i] == uid && uid !in order[..i] && uid !in order[i + 1..] ==>
         rest == order[..i] + order[i + 1..]
  }

  lemma {:induction false} WithoutAbsent(order: seq<Uid>, uid: Uid)
    requires uid !in order
    ensures Without(order, uid) == order
  {
    if order != [] {
      WithoutAbsent(order[1..], uid);
      assert order == [order[0]] + order[1..];
    }
  }

  lemma {:induction false} WithoutOne(order: seq<Uid>, uid: Uid, i: int)
    requires 0 <= i < |order| && order[i] == uid && uid !in order[..i] && uid !in order[i + 1..]
    ensures Without(order, uid) == order[..i] + order[i + 1..]
  {
    if i == 0 {
      WithoutAbsent(order[1..], uid);
      assert order[..0] + order[1..] == order[1..];
    } else {
      var rest := order[1..];
      assert order[0] == order[..i][0];
      assert rest[..i - 1] == order[..i][1..] && rest[i..] == order[i + 1..];
      WithoutOne(rest, uid, i - 1);
      assert order[..i] + order[i + 1..] == [order[0]] + (rest[..i - 1] + rest[i..]);
    }
  }

  lemma DropDrops(r: Room, uid: Uid)
    ensures DroppedFrom(r, uid, Drop(r, uid))
  {
    if uid !in r.order {
      WithoutAbsent(r.order, uid);
    } else {
      forall i | 0 <= i < |r.order| && r.order[i] == uid && uid !in r.order[..i] && uid !in r.order[i + 1..]
        ensures Without(r.order, uid) == r.order[..i] + r.order[i + 1..]
      {
        WithoutOne(r.order, uid, i);
      }
    }
    hide Without;
  }

  /**
   * A departure. The last member closes the room. A waiting room takes all consents back and, without its owner, goes
   * to the heir; a running one is aborted by a fighter and goes on without an observer.
   */
  ghost predicate Departed(h: Policy, r: Room, uid: Uid, w: World, x: Room)
    requires uid in r.members
  {
    exists d: Room ::
      && DroppedFrom(r, uid, d)
      && (d.members == map[] ==> x == d.(gone := true))
      && (d.members != map[] && r.stage == Waiting ==>
            && x == d.(owner := x.owner, members := x.members) && Hushed(x.members, d.members)
            && (r.owner != uid ==> x.owner == r.owner) && (r.owner == uid ==> IsHeir(d, x.owner)))
      && (d.members != map[] && r.stage != Waiting && r.members[uid].spectator ==> Advanced(h, d, w, x))
      && (d.members != map[] && r.stage != Waiting && !r.members[uid].spectator ==>
            x == d.(gone := true, members := map[], order := [], located := {}))
  }

  lemma LeaveDeparts(h: Policy, r: Room, uid: Uid, w: World)
    requires Placed(r, uid) && RoomSeating.Listed(r.members, r.order) && 0 !in r.members
    ensures Departed(h, r, uid, w, Leave(h, r, uid, w))
  {
    var d := Drop(r, uid);
    DropDrops(r, uid);
    DroppedListed(r, uid);
    AdvanceMoves(h, d, w);
    UnreadyHushes(d.members);
    assert d.stage == r.stage && d.owner == r.owner;
    hide Drop, Advance, Advanced, DroppedFrom, IsHeir, Hushed, Unready, Heir;
    if d.members != map[] {
      HeirIs(d);
    }
  }

  lemma DroppedListed(r: Room, uid: Uid)
    requires RoomSeating.Listed(r.members, r.order) && 0 !in r.members
    ensures RoomSeating.Listed(Drop(r, uid).members, Drop(r, uid).order) && 0 !in Drop(r, uid).members
  {
    RoomSeating.WithoutListed(r.order, uid);
    hide Without;
  }

  lemma DepartsDeparts(h: Policy, r: Room, uid: Uid, w: World)
    requires !r.gone && RoomSeating.Listed(r.members, r.order) && 0 !in r.members
    ensures var x := Step(h, r, Departs(uid), w);
      (!Placed(r, uid) ==> x == r) && (Placed(r, uid) ==> Departed(h, r, uid, w, x))
  {
    if Placed(r, uid) {
      LeaveDeparts(h, r, uid, w);
      hide Leave, Departed;
    }
  }

  lemma RemovedFrom(h: Policy, r: Room, uid: Uid, target: Uid, w: World)
    requires Present(r, uid) && r.owner == uid && target != uid && Placed(r, target)
    ensures Leave(h, r, target, w).owner == uid
    ensures Leave(h, r, target, w).members.Keys == r.members.Keys - {target}
  {
    var d := Drop(r, target);
    DropDrops(r, target);
    assert uid in d.members;
    UnreadyHushes(d.members);
    hide Drop, DroppedFrom, Unready, Without;
    DroppedKeys(r, target, d);
  }

  lemma DroppedKeys(r: Room, uid: Uid, d: Room)
    requires DroppedFrom(r, uid, d)
    ensures d.members.Keys == r.members.Keys - {uid} && d.owner == r.owner && d.stage == r.stage
  {
  }

  /** The owner removes exactly the one who was named. */
  lemma RemovesDeparts(h: Policy, r: Room, uid: Uid, target: Uid, w: World)
    requires !r.gone && RoomSeating.Listed(r.members, r.order) && 0 !in r.members && r.located == r.members.Keys
    ensures var x := Step(h, r, Removes(uid, target), w);
      var ok := Present(r, uid) && r.owner == uid && target != uid && target in r.members;
      && (!ok ==> x == r)
      && (ok ==> Departed(h, r, target, w, x) && x.owner == uid && x.members.Keys == r.members.Keys - {target})
  {
    hide Leave, Departed, RoomSeating.Listed;
    if Present(r, uid) && r.owner == uid && target != uid && target in r.members {
      LeaveDeparts(h, r, target, w);
      RemovedFrom(h, r, uid, target, w);
    }
  }

  // ---------------------------------------------------------------- changing roles

  /** May this member change roles: is there a place on the other side? */
  ghost predicate RoleOpen(h: Policy, r: Room, uid: Uid)
    requires uid in r.members
  {
    if r.members[uid].spectator then |FightingSet(r)| < r.settings.capacity else ObserverCount(r) < ObserverSeats(h, r)
  }

  /** A new fighter keeps the team and needs a free slot, and in a team mode a free seat of that team. */
  ghost predicate RoleSeatLeft(r: Room, uid: Uid)
    requires uid in r.members
  {
    r.members[uid].spectator ==>
      (exists i :: 0 <= i < 8 && !SlotTaken(r, i)) && (TeamMode(r) ==> !BankFull(r, r.members[uid].team, Some(uid)))
  }

  /** The other role with its seat: none for an observer, the least free slot and key for a fighter. */
  ghost predicate ChangedRole(r: Room, m: Member, n: Member, uid: Uid) {
    && n == m.(spectator := !m.spectator, ready := false, slot := n.slot, key := n.key)
    && (!m.spectator ==> n.slot == 8 && n.key == 8)
    && (m.spectator ==> IsFreeSlot(r, n.slot))
    && (m.spectator && !TeamMode(r) ==> n.key == n.slot)
    && (m.spectator && TeamMode(r) ==> IsFreeKey(r, m.team, Some(uid), n.key))
  }

  lemma RoleSearch(r: Room, uid: Uid)
    requires uid in r.members && (r.members[uid].spectator ==> |FightingSet(r)| < 8)
    ensures var (slot, key) := ToggledSeat(r, uid);
      && (key.Some? <==> RoleSeatLeft(r, uid))
      && (key.Some? ==> ChangedRole(r, r.members[uid], r.members[uid].(
            slot := slot, spectator := !r.members[uid].spectator, ready := false, key := key.value), uid))
  {
    if r.members[uid].spectator {
      SlotSearch(r, 0);
      KeySearch(r, r.members[uid].team, Some(uid));
      FightingCount(r);
      RoomSeating.SlotAvailable(r.members);
      var slot := FreeSlot(r.members, 0);
      hide FreeSlot, BankKey, FightersOf, FightingSet;
      BankOneOf(r, r.members[uid].team, Some(uid));
      hide SlotTaken, KeyTaken, IsFreeKey;
    }
  }

  /** Changing roles changes exactly that; the ownership goes to a fighter when there is one and the owner is none. */
  lemma TogglesRole(h: Policy, r: Room, uid: Uid, w: World)
    requires !r.gone && RoomSeating.Listed(r.members, r.order) && 0 !in r.members && |FightingSet(r)| <= 8
    requires r.settings.capacity <= 8
    ensures var x := Step(h, r, Toggles(uid), w);
      var ok := Present(r, uid) && r.settings.mode != 4 && RoleOpen(h, r, uid) && RoleSeatLeft(r, uid)
                && LeaseBound(r, w, uid);
      && (!ok ==> x == r)
      && (ok ==>
            && x == r.(owner := x.owner, members := x.members) && HushedBut(x.members, r.members, uid)
            && ChangedRole(r, r.members[uid], x.members[uid], uid)
            && (FightingSet(x) == {} || Fights(x, r.owner) ==> x.owner == r.owner)
            && (FightingSet(x) != {} && r.owner in r.members && !Fights(x, r.owner) ==>
                  IsHeir(r.(members := x.members), x.owner)))
  {
    PresentIff(r, uid);
    hide Acts, Present, RoleSeatLeft, ChangedRole, LeaseBound, Leased, IsHeir, RoomSeating.Listed, RoleOpen,
      ToggleRefused, FightersOf, FightingSet, HushedBut, ToggledSeat, Heir, Unready;
    if uid in r.members {
      RoleOpenIff(h, r, uid);
      LeasesAgree(r, w, uid);
      if RoleOpen(h, r, uid) {
        RoleSearch(r, uid);
        if RoleSeatLeft(r, uid) {
          ToggledRoom(r, uid);
        } else {
          ToggleStays(h, r, uid, w);
        }
      }
    } else {
      NobodyActs(r, uid);
    }
  }

  lemma ToggleStays(h: Policy, r: Room, uid: Uid, w: World)
    requires uid in r.members && ToggledSeat(r, uid).1.None?
    ensures Toggle(h, r, uid, w) == r
  {
  }

  lemma NobodyActs(r: Room, uid: Uid)
    requires uid !in r.members
    ensures !Acts(r, uid)
  {
  }

  lemma RoleOpenIff(h: Policy, r: Room, uid: Uid)
    requires uid in r.members
    ensures RoleOpen(h, r, uid) <==> !ToggleRefused(h, r, uid)
    ensures RoleOpen(h, r, uid) && r.settings.capacity <= 8 ==> r.members[uid].spectator ==> |FightingSet(r)| < 8
  {
    FightingCount(r);
    hide FightersOf, FightingSet;
  }

  lemma LeasesAgree(r: Room, w: World, u: Uid)
    ensures Leased(r, w, u) <==> LeaseBound(r, w, u)
    ensures Alive(r, w, u) <==> LeaseLive(r, w, u)
  {
  }

  lemma ToggledRoom(r: Room, uid: Uid)
    requires uid in r.members && ToggledSeat(r, uid).1.Some?
    requires RoomSeating.Listed(r.members, r.order) && 0 !in r.members
    ensures var m := r.members[uid].(slot := ToggledSeat(r, uid).0, spectator := !r.members[uid].spectator,
                                     ready := false, key := ToggledSeat(r, uid).1.value);
      var x := r.(members := Unready(r.members[uid := m]));
      && HushedBut(x.members, r.members, uid) && x.members[uid] == m && IsHeir(x, Heir(x))
      && x.Fighters() == FightingSet(x) == FightingSet(x.(owner := Heir(x)))
      && (x.Fighters() != {} && x.owner in x.members && x.members[x.owner].spectator
          <==> FightingSet(x) != {} && r.owner in r.members && !Fights(x, r.owner))
  {
    var m := r.members[uid].(slot := ToggledSeat(r, uid).0, spectator := !r.members[uid].spectator,
                             ready := false, key := ToggledSeat(r, uid).1.value);
    hide ToggledSeat;
    UnreadyHushes(r.members[uid := m]);
    var x := r.(members := Unready(r.members[uid := m]));
    hide Unready, FightersOf, Heir;
    assert x.members.Keys == r.members.Keys;
    assert RoomSeating.Listed(x.members, x.order);
    FightingCount(x);
    HeirIs(x);
    hide IsHeir, FightingSet;
  }

  // ---------------------------------------------------------------- presence

  /** A lost connection suspends a member of a waiting room, and is a departure anywhere else. */
  lemma DropsSuspends(h: Policy, r: Room, uid: Uid, w: World)
    requires !r.gone && RoomSeating.Listed(r.members, r.order) && 0 !in r.members
    ensures var x := Step(h, r, Drops(uid), w);
      && (!Placed(r, uid) ==> x == r)
      && (Placed(r, uid) && (r.stage != Waiting || r.settings.mode == 4) ==> Departed(h, r, uid, w, x))
      && (Placed(r, uid) && r.stage == Waiting && r.settings.mode != 4 ==>
            && x == r.(members := x.members, suspended := r.suspended[uid := w.now + h.reconnect])
            && SameBut(x.members, r.members, uid)
            && x.members[uid] == r.members[uid].(ready := false, phase := NoGame, connection := 0))
  {
    hide Departed, RoomSeating.Listed, Leave;
    if Placed(r, uid) && (r.stage != Waiting || r.settings.mode == 4) {
      LeaveDeparts(h, r, uid, w);
    } else if Placed(r, uid) {
      OnlyOne(r.members, uid, r.members[uid].(ready := false, phase := NoGame, connection := 0));
      hide SameBut;
    }
  }

  lemma OnlyOne(members: map<Uid, Member>, uid: Uid, m: Member)
    requires uid in members
    ensures SameBut(members[uid := m], members, uid)
  {
  }

  lemma ReturnsToLobby(h: Policy, r: Room, uid: Uid, connection: int, w: World)
    requires !r.gone
    ensures var x := Step(h, r, Returns(uid, connection), w);
      var ok := uid in r.members && uid in r.suspended && r.members[uid].phase == NoGame;
      && (!ok ==> x == r)
      && (ok ==>
            && x == r.(members := x.members) && SameBut(x.members, r.members, uid)
            && x.members[uid] == r.members[uid].(phase := InLobby, connection := connection))
  {
  }

  /** A suspended member is back once its own lease and those of everybody present are bound. */
  lemma BindsRestores(h: Policy, r: Room, uid: Uid, w: World)
    requires !r.gone
    ensures var x := Step(h, r, Binds(uid), w);
      var ok := uid in r.suspended && uid in r.members && r.stage == Waiting && LeaseBound(r, w, uid)
                && forall u <- r.members :: u in r.suspended || LeaseBound(r, w, u);
      && (!ok ==> x == r)
      && (ok ==>
            && x == r.(members := x.members, suspended := r.suspended - {uid}) && SameBut(x.members, r.members, uid)
            && x.members[uid] == r.members[uid].(phase := InRoom))
  {
    assert forall u <- r.members :: Leased(r, w, u) <==> LeaseBound(r, w, u);
    LeasesAgree(r, w, uid);
    hide Leased, LeaseBound;
  }

  // ---------------------------------------------------------------- expiry

  /** Owner, settings, roster and everybody's connection, seat, role and consent are what they were. */
  ghost predicate StillTheSame(i: Identity, r: Room) {
    && i.owner == r.owner && i.settings == r.settings && i.seats.Keys == r.members.Keys
    && forall u <- r.members ::
         && i.seats[u].connection == r.members[u].connection && i.seats[u].slot == r.members[u].slot
         && i.seats[u].team == r.members[u].team && i.seats[u].key == r.members[u].key
         && i.seats[u].ready == r.members[u].ready && i.seats[u].spectator == r.members[u].spectator
  }

  lemma SameIff(i: Identity, r: Room)
    ensures i == IdentityOf(r) <==> StillTheSame(i, r)
  {
    if StillTheSame(i, r) {
      assert i.seats.Keys == IdentityOf(r).seats.Keys;
      forall u | u in i.seats
        ensures i.seats[u] == IdentityOf(r).seats[u]
      {
        assert i.seats[u] == Seat(i.seats[u].connection, i.seats[u].slot, i.seats[u].team, i.seats[u].key,
                                  i.seats[u].ready, i.seats[u].spectator);
      }
      assert i.seats == IdentityOf(r).seats;
      assert i == Identity(i.owner, i.settings, i.seats);
    }
  }

  ghost predicate ExchangeOver(r: Room, w: World) {
    r.exchange.Some? && (!StillTheSame(r.exchange.value.identity, r) || r.exchange.value.deadline <= w.now)
  }

  ghost predicate ProbeOver(r: Room, w: World) {
    r.probe.Some? && (!StillTheSame(r.probe.value.identity, r) || r.probe.value.start + 10.0 <= w.now)
  }

  /** An exchange and a probe that are over, and nothing else. */
  ghost predicate Tidied(r: Room, w: World, x: Room) {
    && x == r.(exchange := x.exchange, probe := x.probe, members := x.members)
    && x.exchange == (if ExchangeOver(r, w) then None else r.exchange)
    && (ProbeOver(r, w) ==> x.probe == None && Hushed(x.members, r.members))
    && (!ProbeOver(r, w) ==> x.probe == r.probe && x.members == r.members)
  }

  lemma TickTidies(h: Policy, r: Room, w: World)
    requires !(h.public && r.deadline != 0.0 && r.deadline <= w.now)
    ensures Tidied(r, w, ExpireRoom(h, r, w))
  {
    OverIff(r, w);
    UnreadyHushes(r.members);
    hide Leave, ExchangeOver, ProbeOver, IdentityOf, Unready, Hushed;
  }

  /** Time ends a public room's battle, an exchange after its deadline, and a probe after ten seconds. */
  lemma TickExpires(h: Policy, r: Room, w: World)
    requires !r.gone && RoomSeating.Listed(r.members, r.order) && 0 !in r.members
    ensures var x := Step(h, r, Tick, w);
      var ended := h.public && r.deadline != 0.0 && r.deadline <= w.now;
      && (ended && Placed(r, r.owner) ==> Departed(h, r, r.owner, w, x))
      && (ended && !Placed(r, r.owner) ==> x == r)
      && (!ended ==> Tidied(r, w, x))
  {
    hide Departed, RoomSeating.Listed, Leave, IdentityOf, CancelProbe, Tidied;
    if h.public && r.deadline != 0.0 && r.deadline <= w.now {
      if Placed(r, r.owner) {
        LeaveDeparts(h, r, r.owner, w);
      } else {
        UnplacedLeave(h, r, r.owner, w);
      }
    } else {
      hide ExpireRoom;
      TickTidies(h, r, w);
    }
  }

  lemma UnplacedLeave(h: Policy, r: Room, uid: Uid, w: World)
    requires !Placed(r, uid)
    ensures Leave(h, r, uid, w) == r
  {
  }

  lemma OverIff(r: Room, w: World)
    ensures ExchangeOver(r, w) <==>
      r.exchange.Some? && (r.exchange.value.identity != IdentityOf(r) || w.now >= r.exchange.value.deadline)
    ensures ProbeOver(r, w) <==>
      r.probe.Some? && (r.probe.value.identity != IdentityOf(r) || w.now - r.probe.value.start >= 10.0)
    ensures IdentityOf(r.(exchange := None)) == IdentityOf(r)
  {
    if r.exchange.Some? {
      SameIff(r.exchange.value.identity, r);
    }
    if r.probe.Some? {
      SameIff(r.probe.value.identity, r);
    }
    hide StillTheSame;
  }

  /** A suspended member whose time has run out departs. */
  lemma TickMemberExpires(h: Policy, r: Room, uid: Uid, w: World)
    requires !r.gone && RoomSeating.Listed(r.members, r.order) && 0 !in r.members
    ensures var x := Step(h, r, TickMember(uid), w);
      var y := r.(suspended := r.suspended - {uid});
      && (!(uid in r.suspended && r.suspended[uid] <= w.now) ==> x == r)
      && (uid in r.suspended && r.suspended[uid] <= w.now ==>
            if Placed(r, uid) then Departed(h, y, uid, w, x) else x == y)
  {
    var y := r.(suspended := r.suspended - {uid});
    hide Departed, RoomSeating.Listed, Leave;
    if Placed(r, uid) {
      LeaveDeparts(h, y, uid, w);
    } else {
      UnplacedLeave(h, y, uid, w);
    }
  }

  // ---------------------------------------------------------------- the start

  /** Everything of the last battle is gone, and everybody is loading; without a stage plan nothing happens. */
  ghost predicate Started(h: Policy, r: Room, w: World, plan: bool, x: Room) {
    var staged := r.settings.mode == 10 || r.settings.mode == 21;
    && (staged && !plan ==> x == r)
    && (!staged || plan ==>
          && x == r.(stage := Loading, pve := staged, positions := false, reports := [], replies := {}, acks := {},
                     loaded := {}, input := {}, members := x.members,
                     deadline := if h.public then w.now + 120.0 else r.deadline)
          && InPhase(x.members, r.members, InLoading))
  }

  lemma StartStarts(h: Policy, r: Room, w: World, plan: bool)
    ensures Started(h, r, w, plan, StartMatch(h, r, w, plan))
  {
  }

  /** The match starts, or every fighter is asked for the delay. */
  ghost predicate Begun(h: Policy, r: Room, w: World, plan: bool, x: Room) {
    && (!h.probing ==> Started(h, r.(exchange := None), w, plan, x))
    && (h.probing && r.probe.Some? ==> x == r.(exchange := None))
    && (h.probing && r.probe.None? ==>
          && x == r.(exchange := None, probe := x.probe) && x.probe.Some?
          && x.probe.value.start == w.now && x.probe.value.pending == FightingSet(r)
          && StillTheSame(x.probe.value.identity, r))
  }

  lemma BeginBegins(h: Policy, r: Room, w: World, plan: bool)
    ensures Begun(h, r, w, plan, BeginStart(h, r, w, plan))
  {
    StartStarts(h, r.(exchange := None), w, plan);
    FightingCount(r);
    SameIff(IdentityOf(r), r);
    assert IdentityOf(r.(exchange := None)) == IdentityOf(r);
    hide Started, StartMatch, IdentityOf, StillTheSame, FightersOf, FightingSet;
  }

  function TeamSize(r: Room, team: int): int {
    |set u | u in r.members && !r.members[u].spectator && r.members[u].team == team|
  }

  /** Competitive modes need two fighters, team modes two equal teams. */
  ghost predicate FairTeams(r: Room) {
    && (r.settings.mode in {0, 1, 2, 3, 16} ==> |FightingSet(r)| >= 2)
    && (r.settings.mode in {1, 3} ==> TeamSize(r, 0) == TeamSize(r, 1) != 0)
  }

  ghost predicate RestReady(r: Room, uid: Uid) {
    forall u <- r.members :: u != uid && !r.members[u].spectator ==> r.members[u].ready && u !in r.suspended
  }

  ghost predicate EverybodyReady(r: Room, w: World) {
    && (forall u <- r.members :: !r.members[u].spectator ==> r.members[u].ready)
    && (forall u <- r.members :: u !in r.suspended && LeaseLive(r, w, u))
  }

  lemma ReadyTerms(r: Room, uid: Uid, w: World)
    ensures Balanced(r) <==> FairTeams(r)
    ensures OthersReady(r, uid) <==> RestReady(r, uid)
    ensures AllReady(r, w) <==> EverybodyReady(r, w)
  {
    FightingCount(r);
    assert forall u :: u in FightersOf(r.members) <==> Fights(r, u);
    assert (set u | u in r.Fighters() && r.members[u].team == 0)
        == (set u | u in r.members && !r.members[u].spectator && r.members[u].team == 0);
    assert (set u | u in r.Fighters() && r.members[u].team == 1)
        == (set u | u in r.members && !r.members[u].spectator && r.members[u].team == 1);
    assert forall u <- r.members :: Alive(r, w, u) <==> LeaseLive(r, w, u);
    hide FightersOf, FightingSet, Alive, LeaseLive;
  }

  /** A consent is noted; the owner's, given when all the others' stand and the teams are fair, begins the start. */
  lemma ReadiesNotes(h: Policy, r: Room, uid: Uid, w: World, plan: bool)
    requires !r.gone
    ensures var x := Step(h, r, Readies(uid, plan), w);
      var ok := Placed(r, uid) && r.stage == Waiting && Fights(r, uid) && LeaseLive(r, w, uid) && r.settings.mode != 4
                && (uid == r.owner ==> FairTeams(r) && RestReady(r, uid));
      && (!ok ==> x == r)
      && (ok ==>
            var y := r.(members := r.members[uid := r.members[uid].(ready := true)]);
            && (uid == r.owner && EverybodyReady(y, w) ==> Begun(h, y, w, plan, x))
            && (!(uid == r.owner && EverybodyReady(y, w)) ==> x == y))
  {
    ReadyTerms(r, uid, w);
    LeasesAgree(r, w, uid);
    hide Balanced, FairTeams, OthersReady, RestReady, AllReady, EverybodyReady, BeginStart, Begun, Alive, LeaseLive;
    if Placed(r, uid) {
      var y := r.(members := r.members[uid := r.members[uid].(ready := true)]);
      ReadyTerms(y, uid, w);
      BeginBegins(h, y, w, plan);
    }
  }

  lemma UnreadiesNotes(h: Policy, r: Room, uid: Uid, w: World)
    requires !r.gone
    ensures var x := Step(h, r, Unreadies(uid), w);
      var ok := Placed(r, uid) && r.stage == Waiting && Fights(r, uid) && r.settings.mode != 4;
      x == if ok then r.(members := r.members[uid := r.members[uid].(ready := false)]) else r
  {
  }

  lemma TutorialSteps(h: Policy, r: Room, uid: Uid, w: World)
    requires !r.gone
    ensures Step(h, r, Enters(uid), w)
         == if uid in r.located && r.settings.mode == 4 && uid == r.owner then r.(tutorial := false) else r
    ensures var x := Step(h, r, Begins(uid), w);
      var ok := Present(r, uid) && r.settings.mode == 4 && !r.tutorial;
      && (!ok ==> x == r)
      && (ok ==> Started(h, r.(members := r.members[uid := r.members[uid].(ready := true)]), w, true, x))
  {
    if uid in r.members {
      StartStarts(h, r.(members := r.members[uid := r.members[uid].(ready := true)]), w, true);
    }
    hide StartMatch, Started;
  }

  ghost predicate ProbeUpset(r: Room, w: World)
    requires r.probe.Some?
  {
    || !StillTheSame(r.probe.value.identity, r) || r.probe.value.start + 10.0 <= w.now
    || exists u <- r.members :: u in r.suspended || !LeaseLive(r, w, u) || r.members[u].phase != InRoom
  }

  /** An answer counts once; it cancels a probe that something has upset, and the last one starts the match. */
  lemma AnswersCount(h: Policy, r: Room, uid: Uid, w: World, plan: bool)
    requires !r.gone
    ensures var x := Step(h, r, Answers(uid, plan), w);
      var ok := Present(r, uid) && r.probe.Some? && uid in r.probe.value.pending;
      && (!ok ==> x == r)
      && (ok && ProbeUpset(r, w) ==> x == r.(probe := None, members := x.members) && Hushed(x.members, r.members))
      && (ok && !ProbeUpset(r, w) && r.probe.value.pending == {uid} ==> Started(h, r.(probe := None), w, plan, x))
      && (ok && !ProbeUpset(r, w) && r.probe.value.pending != {uid} ==>
            x == r.(probe := Some(Probe(r.probe.value.start, r.probe.value.identity, r.probe.value.pending - {uid}))))
  {
    UnreadyHushes(r.members);
    StartStarts(h, r.(probe := None), w, plan);
    hide Unready, Hushed, StartMatch, Started, Present, Acts;
    PresentIff(r, uid);
    if r.probe.Some? {
      UpsetIff(r, w);
      hide ProbeBroken, ProbeUpset;
      LastOne(r.probe.value.pending, uid);
    }
  }

  lemma PresentIff(r: Room, uid: Uid)
    ensures Acts(r, uid) <==> Present(r, uid)
  {
  }

  lemma UpsetIff(r: Room, w: World)
    requires r.probe.Some?
    ensures ProbeBroken(r, w) <==> ProbeUpset(r, w)
  {
    SameIff(r.probe.value.identity, r);
    assert forall u <- r.members :: Alive(r, w, u) <==> LeaseLive(r, w, u);
    hide Alive, LeaseLive, StillTheSame, IdentityOf;
  }

  lemma LastOne(pending: set<Uid>, uid: Uid)
    ensures uid in pending ==> (pending - {uid} == {} <==> pending == {uid})
  {
  }

  // ---------------------------------------------------------------- results

  ghost predicate Reported(r: Room, uid: Uid) { exists i :: 0 <= i < |r.reports| && r.reports[i].0 == uid }

  /** Every fighter has reported, counting this report in. */
  ghost predicate LastReport(r: Room, uid: Uid) {
    forall u :: Fights(r, u) <==> u == uid || Reported(r, u)
  }

  /**
   * A fighter's first report is kept. The last one ends the battle when the first of all named the same fighters and
   * the verdict agrees; otherwise it is not kept.
   */
  lemma ReportsEnds(h: Policy, r: Room, uid: Uid, agreed: bool, w: World)
    requires !r.gone
    ensures var x := Step(h, r, Reports(uid, agreed), w);
      var ok := Placed(r, uid) && !r.pve && r.settings.mode in {0, 1, 2, 3, 16} && Fights(r, uid)
                && (r.stage == Fighting || r.stage == Finished || (r.stage == Waiting && r.replies != {}))
                && !Reported(r, uid);
      var kept := r.(reports := r.reports + [(uid, FightingSet(r))]);
      && (!ok ==> x == r)
      && (ok && !LastReport(r, uid) ==> x == kept)
      && (ok && LastReport(r, uid) && kept.reports[0].1 == FightingSet(r) && agreed ==>
            x == kept.(replies := r.members.Keys, stage := Finished))
      && (ok && LastReport(r, uid) && !(kept.reports[0].1 == FightingSet(r) && agreed) ==> x == r)
  {
    FightingCount(r);
    ReportersAre(r.reports);
    var candidate := r.reports + [(uid, FightingSet(r))];
    ReportersAre(candidate);
    ReporterAdded(r.reports, (uid, FightingSet(r)));
    assert forall u :: u in FightingSet(r) <==> Fights(r, u);
    assert Reporters(candidate) == FightingSet(r) <==> LastReport(r, uid) by {
      hide Reporters, FightingSet, Fights;
      if LastReport(r, uid) {
        assert forall u :: u in Reporters(candidate) <==> u in FightingSet(r);
      }
    }
    hide Reporters, FightingSet, FightersOf, LastReport;
  }

  lemma ReportersAre(reports: seq<(Uid, set<Uid>)>)
    ensures forall u :: u in Reporters(reports) <==> exists i :: 0 <= i < |reports| && reports[i].0 == u
  {
  }

  lemma ReporterAdded(reports: seq<(Uid, set<Uid>)>, row: (Uid, set<Uid>))
    ensures forall u :: u in Reporters(reports + [row]) <==> u in Reporters(reports) || u == row.0
  {
    var more := reports + [row];
    assert more[|reports|] == row && forall i :: 0 <= i < |reports| ==> more[i] == reports[i];
    ReportersAre(reports);
    ReportersAre(more);
    hide Reporters;
  }

  /** The Host's first finish report that the stage agrees with ends a cooperative battle. */
  lemma FinishesEnds(h: Policy, r: Room, uid: Uid, qualified: bool, w: World)
    requires !r.gone
    ensures var x := Step(h, r, Finishes(uid, qualified), w);
      var ok := qualified && uid in r.located && r.pve && uid == r.owner && (r.stage == Fighting || r.stage == Finished)
                && !Reported(r, uid);
      x == if ok then r.(reports := r.reports + [(uid, FightingSet(r))], replies := r.members.Keys, stage := Finished)
           else r
  {
    FightingCount(r);
    ReportersAre(r.reports);
    hide Reporters, FightersOf, FightingSet;
  }

  // ---------------------------------------------------------------- what nothing else does

  ghost predicate Reseats(e: Event) {
    e.Joins? || e.Departs? || e.Drops? || e.Tick? || e.TickMember? || e.Moves? || e.Removes? || e.Toggles? || e.Swaps?
  }

  ghost predicate SamePlaces(x: map<Uid, Member>, y: map<Uid, Member>) {
    x.Keys == y.Keys && forall u <- x ::
      x[u].slot == y[u].slot && x[u].team == y[u].team && x[u].key == y[u].key && x[u].spectator == y[u].spectator
  }

  lemma HushedPlaces(x: map<Uid, Member>, y: map<Uid, Member>)
    requires Hushed(x, y)
    ensures SamePlaces(x, y)
  {
  }

  lemma OnePlace(x: map<Uid, Member>, uid: Uid, m: Member)
    requires uid in x && m.slot == x[uid].slot && m.team == x[uid].team && m.key == x[uid].key
    requires m.spectator == x[uid].spectator
    ensures SamePlaces(x[uid := m], x)
  {
  }

  ghost predicate Steady(x: Room, r: Room) {
    SamePlaces(x.members, r.members) && x.owner == r.owner && x.order == r.order
  }

  lemma SteadySame(x: Room, r: Room)
    requires x.members == r.members && x.owner == r.owner && x.order == r.order
    ensures Steady(x, r)
  {
  }

  lemma StartedSteady(h: Policy, r: Room, w: World, plan: bool, x: Room)
    requires Started(h, r, w, plan, x)
    ensures Steady(x, r)
  {
  }

  lemma BegunSteady(h: Policy, r: Room, w: World, plan: bool, x: Room)
    requires Begun(h, r, w, plan, x)
    ensures Steady(x, r)
  {
    hide Started, FightingSet, StillTheSame;
    if !h.probing {
      StartedSteady(h, r.(exchange := None), w, plan, x);
    }
  }

  lemma MarkedSteady(r: Room, uid: Uid, ready: bool)
    requires uid in r.members
    ensures Steady(r.(members := r.members[uid := r.members[uid].(ready := ready)]), r)
  {
  }

  lemma SteadyTransitive(x: Room, y: Room, z: Room)
    requires Steady(x, y) && Steady(y, z)
    ensures Steady(x, z)
  {
  }

  lemma ReadiesSteady(h: Policy, r: Room, uid: Uid, w: World, plan: bool)
    requires !r.gone
    ensures Steady(Step(h, r, Readies(uid, plan), w), r)
  {
    ReadiesNotes(h, r, uid, w, plan);
    hide Step, Begun, FairTeams, RestReady, EverybodyReady, LeaseLive;
    var x := Step(h, r, Readies(uid, plan), w);
    if uid in r.members {
      var y := r.(members := r.members[uid := r.members[uid].(ready := true)]);
      MarkedSteady(r, uid, true);
      if Begun(h, y, w, plan, x) {
        BegunSteady(h, y, w, plan, x);
        SteadyTransitive(x, y, r);
      }
    }
  }

  lemma AnswersSteady(h: Policy, r: Room, uid: Uid, w: World, plan: bool)
    requires !r.gone
    ensures Steady(Step(h, r, Answers(uid, plan), w), r)
  {
    AnswersCount(h, r, uid, w, plan);
    hide Step, Started, ProbeUpset;
    var x := Step(h, r, Answers(uid, plan), w);
    if Started(h, r.(probe := None), w, plan, x) {
      StartedSteady(h, r.(probe := None), w, plan, x);
    }
  }

  lemma TutorialSteady(h: Policy, r: Room, uid: Uid, w: World)
    requires !r.gone
    ensures Steady(Step(h, r, Begins(uid), w), r) && Steady(Step(h, r, Enters(uid), w), r)
  {
    TutorialSteps(h, r, uid, w);
    hide Step, Started;
    var x := Step(h, r, Begins(uid), w);
    if uid in r.members {
      var y := r.(members := r.members[uid := r.members[uid].(ready := true)]);
      MarkedSteady(r, uid, true);
      if Started(h, y, w, true, x) {
        StartedSteady(h, y, w, true, x);
        SteadyTransitive(x, y, r);
      }
    }
  }

  lemma StartEventsSteady(h: Policy, r: Room, e: Event, w: World)
    requires !r.gone && (e.Readies? || e.Unreadies? || e.Enters? || e.Begins? || e.Answers?)
    ensures Steady(Step(h, r, e, w), r)
  {
    match e {
      case Readies(uid, plan) => ReadiesSteady(h, r, uid, w, plan);
      case Unreadies(uid) => UnreadiesSteady(h, r, uid, w);
      case Enters(uid) => TutorialSteady(h, r, uid, w);
      case Begins(uid) => TutorialSteady(h, r, uid, w);
      case Answers(uid, plan) => AnswersSteady(h, r, uid, w, plan);
    }
    hide *;
  }

  lemma UnreadiesSteady(h: Policy, r: Room, uid: Uid, w: World)
    requires !r.gone
    ensures Steady(Step(h, r, Unreadies(uid), w), r)
  {
    UnreadiesNotes(h, r, uid, w);
    hide Step;
    if uid in r.members {
      MarkedSteady(r, uid, false);
    }
  }

  lemma ReportsSteady(h: Policy, r: Room, uid: Uid, verdict: bool, w: World)
    requires !r.gone
    ensures Steady(Step(h, r, Reports(uid, verdict), w), r) && Steady(Step(h, r, Finishes(uid, verdict), w), r)
    ensures Steady(Step(h, r, Places(uid), w), r)
  {
    ReportsEnds(h, r, uid, verdict, w);
    FinishesEnds(h, r, uid, verdict, w);
    PlacesNotes(h, r, uid, w);
    hide Step, FightingSet, LastReport, Reported;
    SteadySame(Step(h, r, Reports(uid, verdict), w), r);
    SteadySame(Step(h, r, Finishes(uid, verdict), w), r);
    SteadySame(Step(h, r, Places(uid), w), r);
  }

  lemma AdvancedSteady(h: Policy, r: Room, y: Room, w: World, x: Room)
    requires Advanced(h, y, w, x) && y.members == r.members && y.owner == r.owner && y.order == r.order
    ensures Steady(x, r)
  {
    hide AllLoaded, AllInput, AllAcknowledged, BattleDeadline;
    PhasesPlaced(x.members, r.members);
    hide InPhase, SamePlaces;
  }

  lemma PhasesPlaced(x: map<Uid, Member>, y: map<Uid, Member>)
    ensures forall p :: InPhase(x, y, p) ==> SamePlaces(x, y)
    ensures x == y ==> SamePlaces(x, y)
    ensures x.Keys == y.Keys && (forall u <- x :: x[u] == y[u].(ready := false, phase := InRoom)) ==> SamePlaces(x, y)
  {
  }

  lemma BarrierSteady(h: Policy, r: Room, e: Event, w: World)
    requires !r.gone && (e.Loads? || e.Inputs? || e.Acknowledges?)
    ensures Steady(Step(h, r, e, w), r)
  {
    LoadsCounts(h, r, e.uid, w);
    InputsCounts(h, r, e.uid, w);
    AcknowledgesCounts(h, r, e.uid, w);
    var x := Step(h, r, e, w);
    SteadySame(r, r);
    hide Step, Advanced, Steady;
    var y := if e.Loads? then r.(loaded := r.loaded + {e.uid})
             else if e.Inputs? then r.(input := r.input + {e.uid}) else r.(acks := r.acks + {e.uid});
    if Advanced(h, y, w, x) {
      AdvancedSteady(h, r, y, w, x);
    }
  }

  lemma BattleEventsSteady(h: Policy, r: Room, e: Event, w: World)
    requires !r.gone && (e.Loads? || e.Inputs? || e.Places? || e.Reports? || e.Finishes? || e.Acknowledges?)
    ensures Steady(Step(h, r, e, w), r)
  {
    match e {
      case Loads(_) => BarrierSteady(h, r, e, w);
      case Inputs(_) => BarrierSteady(h, r, e, w);
      case Acknowledges(_) => BarrierSteady(h, r, e, w);
      case Places(uid) => ReportsSteady(h, r, uid, true, w);
      case Reports(uid, agreed) => ReportsSteady(h, r, uid, agreed, w);
      case Finishes(uid, qualified) => ReportsSteady(h, r, uid, qualified, w);
    }
    hide *;
  }

  /**
   * Only these events change who is in the room and where; only a hand-over, and what ends a membership or a role,
   * changes the owner.
   */
  lemma OthersKeepPlaces(h: Policy, r: Room, e: Event, w: World)
    requires !r.gone && !Reseats(e)
    ensures var x := Step(h, r, e, w);
      SamePlaces(x.members, r.members) && (!e.Hands? ==> x.owner == r.owner) && x.order == r.order
  {
    match e {
      case Changes(uid, update) =>
        UnreadyHushes(r.members);
        HushedPlaces(Unready(r.members), r.members);
        hide Unready, Admitted;
      case Hands(uid, target) =>
        HandsMovesOwnership(h, r, uid, target, w);
      case Returns(uid, connection) =>
        ReturnsToLobby(h, r, uid, connection, w);
      case Binds(uid) =>
        BindsRestores(h, r, uid, w);
      case _ =>
        if e.Loads? || e.Inputs? || e.Places? || e.Reports? || e.Finishes? || e.Acknowledges? {
          BattleEventsSteady(h, r, e, w);
        } else {
          StartEventsSteady(h, r, e, w);
        }
        hide Step;
    }
  }

  /** A new room holds its creator and owner in slot 0 of team 0 with key 0; without a bound lease it stays empty. */
  lemma CreatesRoom(h: Policy, uid: Uid, s: Settings, connection: int, w: World)
    requires Admitted(s)
    ensures var x := Create(h, uid, s, connection, w);
      var in_ := s.mode == 4 || (uid in w.alive && uid in w.bound);
      && !x.gone && x.owner == uid && x.settings == s && x.stage == Waiting && (x.tutorial <==> s.mode == 4)
      && x.suspended == map[] && x.probe == None && x.exchange == None && x.replies == {} && x.reports == []
      && x.loaded == {} && x.input == {} && x.acks == {} && !x.pve && !x.positions && x.deadline == 0.0
      && x.members == (if in_ then map[uid := Member(0, 0, false, false, 0, InRoom, connection)] else map[])
      && x.order == (if in_ then [uid] else []) && x.located == (if in_ then {uid} else {})
  {
    var r := Empty(uid, s);
    assert FreeSlot(map[], 0) == 0;
    assert r.Fighters() == {};
    assert Unready(map[]) == map[];
    assert [] + [uid] == [uid];
    if s.mode in TEAMED {
      assert KeyFree(map[], 0, None);
    }
  }
}
