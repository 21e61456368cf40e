/** Slots, position keys, capacity and ownership of a room, kept by every handler. */
module RoomSeating {
  import opened MapSums
  import opened RoomState
  import opened RoomRules

  /** A fighter's own seat: a slot, and a key that is the slot or lies in the bank of the team. */
  predicate SeatSound(mode: int, m: Member) {
    && m.team in {0, 1}
    && if m.spectator then m.slot == 8 && m.key == 8 && mode == 1
       else 0 <= m.slot < 8 && (if mode in TEAMED then 4 * m.team <= m.key < 4 * m.team + 4 else m.key == m.slot)
  }

  ghost predicate SeatsSound(mode: int, members: map<Uid, Member>) {
    forall u <- members :: SeatSound(mode, members[u])
  }

  /** Fighters have slots and keys of their own. */
  ghost predicate SeatsDistinct(members: map<Uid, Member>) {
    forall u <- members, v <- members :: u != v && !members[u].spectator && !members[v].spectator ==>
      members[u].slot != members[v].slot && members[u].key != members[v].key
  }

  predicate Listed(members: map<Uid, Member>, order: seq<Uid>) {
    && (forall u <- order :: u in members) && (forall u <- members :: u in order)
    && (forall i, j :: 0 <= i < j < |order| ==> order[i] != order[j])
  }

  predicate Owned(r: Room) {
    r.owner in r.members && (r.Fighters() != {} ==> r.owner in r.Fighters())
  }

  /** Only fighters of the captured identity are asked for their delay. */
  ghost predicate ProbeSound(probe: Option<Probe>) {
    probe.Some? ==> forall u <- probe.value.pending ::
      u in probe.value.identity.seats && !probe.value.identity.seats[u].spectator
  }

  ghost predicate Seated(r: Room) {
    && ProbeSound(r.probe) && (!r.gone && r.stage != Waiting ==> r.Fighters() != {})
    && Admitted(r.settings) && SeatsSound(r.settings.mode, r.members) && SeatsDistinct(r.members)
    && |r.Fighters()| <= r.settings.capacity && Listed(r.members, r.order) && r.located == r.members.Keys
    && 0 !in r.members && (if r.gone then r.members == map[] else Owned(r))
  }

  // ---------------------------------------------------------------- two banks of four, eight slots

  /** Eight different fighters are needed to occupy slots 0 to 7, or all keys of both banks. */
  lemma EightTaken(members: map<Uid, Member>, holder: map<int, Uid>)
    requires forall i :: 0 <= i < 8 ==> i in holder && holder[i] in FightersOf(members)
    requires forall i, j :: 0 <= i < j < 8 ==> holder[i] != holder[j]
    ensures |FightersOf(members)| >= 8
  {
    var A: set<int> := {0, 1, 2, 3, 4, 5, 6, 7};
    assert forall i <- A :: 0 <= i < 8;
    InjectionBound(A, FightersOf(members), holder);
  }

  predicate SlotTaken(members: map<Uid, Member>, slot: int) {
    exists u <- FightersOf(members) :: members[u].slot == slot
  }

  lemma FreeSlotTakes(members: map<Uid, Member>, i: int)
    requires 0 <= i <= 8
    ensures var s := FreeSlot(members, i);
      && (forall j: int :: i <= j < s ==> SlotTaken(members, j))
      && (s < 8 ==> forall u <- FightersOf(members) :: members[u].slot != s)
    decreases 8 - i
  {
    if i < 8 && SlotTaken(members, i) {
      FreeSlotTakes(members, i + 1);
    }
  }

  ghost function SlotHolder(members: map<Uid, Member>, j: int): Uid
    requires SlotTaken(members, j)
  {
    var u :| u in FightersOf(members) && members[u].slot == j;
    u
  }

  /** With fewer than eight fighters a slot is free, so taking the next one cannot fail. */
  lemma SlotAvailable(members: map<Uid, Member>)
    requires |FightersOf(members)| < 8
    ensures FreeSlot(members, 0) < 8
    ensures forall u <- FightersOf(members) :: members[u].slot != FreeSlot(members, 0)
  {
    FreeSlotTakes(members, 0);
    if FreeSlot(members, 0) == 8 {
      hide FreeSlot;
      var holder := map j | 0 <= j < 8 :: SlotHolder(members, j);
      EightTaken(members, holder);
    }
  }

  ghost function KeyHolder(members: map<Uid, Member>, k: int): Uid
    requires !KeyFree(members, k, None)
  {
    var u :| u in FightersOf(members) && members[u].key == k;
    u
  }

  /** With fewer than eight fighters one of the two banks has a free key. */
  lemma KeyAvailable(members: map<Uid, Member>, team: int)
    requires team in {0, 1} && |FightersOf(members)| < 8
    ensures BankKey(members, team, 0, None).Some? || BankKey(members, 1 - team, 0, None).Some?
  {
    if BankKey(members, team, 0, None).None? && BankKey(members, 1 - team, 0, None).None? {
      hide KeyFree, BankKey;
      forall k: int | 0 <= k < 8
        ensures !KeyFree(members, k, None)
      {
        assert (4 * team <= k < 4 * team + 4) || (4 * (1 - team) <= k < 4 * (1 - team) + 4);
      }
      var holder := map k | 0 <= k < 8 :: KeyHolder(members, k);
      EightTaken(members, holder);
    }
  }

  /**
   * The seat search of install never fails below capacity: there is always a slot, and a key for one of the two
   * teams, so the exhaustion errors of the code cannot occur in a reachable room.
   */
  lemma SeatAlwaysFound(r: Room, spectator: bool)
    requires Seated(r) && if spectator then r.settings.mode == 1 else |r.Fighters()| < r.settings.capacity
    ensures var (slot, team, key) := SeatFor(r, spectator);
      && key.Some? && slot <= (if spectator then 8 else 7)
      && SeatSound(r.settings.mode, Member(slot, team, false, spectator, key.value, InRoom, 0))
      && (!spectator ==> forall u <- r.Fighters() :: r.members[u].slot != slot && r.members[u].key != key.value)
  {
    if !spectator {
      SlotAvailable(r.members);
      var slot := FreeSlot(r.members, 0);
      KeyAvailable(r.members, slot % 2);
      var (s, team, key) := SeatFor(r, spectator);
      hide FreeSlot;
      if r.settings.mode in TEAMED {
        assert KeyFree(r.members, key.value, None);
        hide BankKey;
      }
    }
  }

  // ---------------------------------------------------------------- handlers that leave the seats alone

  /** Ready flags, phases and connections are no part of a seat. */
  ghost predicate SameSeats(x: map<Uid, Member>, y: map<Uid, Member>) {
    x.Keys == y.Keys && forall u <- x :: x[u].slot == y[u].slot && x[u].team == y[u].team && x[u].key == y[u].key
                                         && x[u].spectator == y[u].spectator
  }

  lemma SameSeatsOf(x: map<Uid, Member>, p: Phase, u: Uid, m: Member)
    ensures SameSeats(Unready(x), x) && SameSeats(WithPhase(x, p), x)
    ensures u in x && m.slot == x[u].slot && m.team == x[u].team && m.key == x[u].key && m.spectator == x[u].spectator
            ==> SameSeats(x[u := m], x)
  {
  }

  lemma SameSeatsKeep(r: Room, x: Room)
    requires Seated(r) && SameSeats(x.members, r.members) && Admitted(x.settings)
    requires x.settings.mode == r.settings.mode && x.settings.capacity == r.settings.capacity
    requires x.order == r.order && x.located == r.located && x.owner == r.owner && x.gone == r.gone
    requires ProbeSound(x.probe) && (!x.gone && x.stage != Waiting ==> r.Fighters() != {})
    ensures Seated(x) && x.Fighters() == r.Fighters()
  {
    SameFighters(x.members, r.members);
  }

  lemma SameFighters(x: map<Uid, Member>, y: map<Uid, Member>)
    requires SameSeats(x, y)
    ensures FightersOf(x) == FightersOf(y)
  {
    forall u
      ensures u in FightersOf(x) <==> u in FightersOf(y)
    {
      assert u in x.Keys <==> u in y.Keys;
    }
  }

  // ---------------------------------------------------------------- joining

  lemma AddSeat(r: Room, uid: Uid, m: Member)
    requires SeatsSound(r.settings.mode, r.members) && SeatsDistinct(r.members) && uid !in r.members
    requires SeatSound(r.settings.mode, m)
    requires !m.spectator ==> forall u <- r.Fighters() :: r.members[u].slot != m.slot && r.members[u].key != m.key
    ensures var x := Unready(r.members)[uid := m];
      && SeatsSound(r.settings.mode, x) && SeatsDistinct(x)
      && FightersOf(x) == r.Fighters() + if m.spectator then {} else {uid}
  {
    var x := Unready(r.members)[uid := m];
    assert forall u <- r.members :: !r.members[u].spectator ==> u in r.Fighters();
    assert FightersOf(x) == r.Fighters() + if m.spectator then {} else {uid};
  }

  lemma InstallKeeps(h: Policy, r: Room, uid: Uid, spectator: bool, connection: int, w: World)
    requires Seated(r) && !r.gone && uid !in r.members && uid != 0
    ensures Seated(Install(h, r, uid, spectator, connection, w)) && !Install(h, r, uid, spectator, connection, w).gone
  {
    if InstallAllowed(h, r, uid, spectator, w) {
      ObserversCounted(r.members);
      SeatAlwaysFound(r, spectator);
      var (slot, team, key) := SeatFor(r, spectator);
      var m := Member(slot, team, false, spectator, key.value, InRoom, connection);
      AddSeat(r, uid, m);
      var x := Install(h, r, uid, spectator, connection, w);
      var owner := if r.owner in r.members && r.members[r.owner].spectator && !spectator then uid else r.owner;
      assert x == r.(owner := owner, members := Unready(r.members)[uid := m], order := r.order + [uid],
                     located := r.located + {uid});
      assert spectator || |r.Fighters()| < r.settings.capacity;
      hide Install, InstallAllowed, SeatFor, SeatSound;
      JoinSeated(r, uid, m, owner);
    }
  }

  lemma ObserversCounted(members: map<Uid, Member>)
    ensures |FightersOf(members)| <= |members|
  {
    assert FightersOf(members) <= members.Keys;
    Subset(FightersOf(members), members.Keys);
  }

  lemma Subset(s: set<Uid>, t: set<Uid>)
    requires s <= t
    ensures |s| <= |t|
  {
    assert t == s + (t - s);
  }

  lemma JoinSeated(r: Room, uid: Uid, m: Member, owner: Uid)
    requires Seated(r) && !r.gone && r.stage == Waiting && uid !in r.members && uid != 0
    requires m.spectator || |r.Fighters()| < r.settings.capacity
    requires owner == if r.members[r.owner].spectator && !m.spectator then uid else r.owner
    requires var x := Unready(r.members)[uid := m];
      && SeatsSound(r.settings.mode, x) && SeatsDistinct(x)
      && FightersOf(x) == r.Fighters() + if m.spectator then {} else {uid}
    ensures Seated(r.(owner := owner, members := Unready(r.members)[uid := m], order := r.order + [uid],
                      located := r.located + {uid}))
  {
    var x := Unready(r.members)[uid := m];
    UnreadyKeys(r.members);
    FightersAre(r.members);
    FightersAre(x);
    hide SeatsSound, SeatsDistinct, Unready, FightersOf;
    assert x.Keys == r.members.Keys + {uid};
    assert Listed(x, r.order + [uid]);
  }

  lemma UnreadyKeys(members: map<Uid, Member>)
    ensures Unready(members).Keys == members.Keys
  {
  }

  lemma FightersAre(members: map<Uid, Member>)
    ensures forall u :: u in FightersOf(members) <==> u in members && !members[u].spectator
  {
  }

  /** A freshly created room is seated, unless its creation was refused. */
  lemma CreateSeated(h: Policy, uid: Uid, s: Settings, connection: int, w: World)
    requires uid != 0 && Admitted(s) && Create(h, uid, s, connection, w).members != map[]
    ensures Seated(Create(h, uid, s, connection, w))
    ensures Create(h, uid, s, connection, w).members.Keys == {uid} == Create(h, uid, s, connection, w).Fighters()
  {
    var x := Create(h, uid, s, connection, w);
    if s.mode == TUTORIAL {
      assert x.Fighters() == {uid};
    } else {
      var r := Empty(uid, s);
      assert FreeSlot(map[], 0) == 0;
      assert InstallAllowed(h, r, uid, false, w);
      AddSeat(r, uid, x.members[uid]);
      assert x.Fighters() == {uid};
    }
  }

  // ---------------------------------------------------------------- leaving

  lemma {:induction false} WithoutListed(order: seq<Uid>, uid: Uid)
    ensures forall u :: u in Without(order, uid) <==> u in order && u != uid
    ensures (forall i, j :: 0 <= i < j < |order| ==> order[i] != order[j]) ==>
      forall i, j :: 0 <= i < j < |Without(order, uid)| ==> Without(order, uid)[i] != Without(order, uid)[j]
  {
    if order != [] {
      WithoutListed(order[1..], uid);
      var rest := Without(order[1..], uid);
      assert Without(order, uid) == (if order[0] == uid then [] else [order[0]]) + rest;
      if forall i, j :: 0 <= i < j < |order| ==> order[i] != order[j] {
        assert order[0] !in order[1..];
        if order[0] != uid {
          assert forall j :: 0 < j < |Without(order, uid)| ==>
            Without(order, uid)[j] == rest[j - 1] && rest[j - 1] in rest;
        } else {
          assert Without(order, uid) == rest;
        }
      }
    }
  }

  /** The heir is a candidate, and no candidate of the joining order has a lower slot. */
  lemma {:induction false} EldestIsLeast(order: seq<Uid>, members: map<Uid, Member>, candidates: set<Uid>, best: Uid)
    requires candidates <= members.Keys
    ensures var e := Eldest(order, members, candidates, best);
      && (best in candidates || (exists u <- order :: u in candidates) ==>
            && e in candidates
            && (best in candidates ==> members[e].slot <= members[best].slot)
            && forall u <- order :: u in candidates ==> members[e].slot <= members[u].slot)
  {
    if order != [] {
      var u := order[0];
      var better := u in candidates && (best !in candidates || members[u].slot < members[best].slot);
      EldestIsLeast(order[1..], members, candidates, if better then u else best);
    }
  }

  lemma HeirIsCandidate(r: Room)
    requires Listed(r.members, r.order) && r.members != map[]
    ensures Heir(r) in r.members && (r.Fighters() != {} ==> Heir(r) in r.Fighters())
    ensures r.Fighters() != {} ==> forall u <- r.Fighters() :: r.members[Heir(r)].slot <= r.members[u].slot
  {
    var candidates := if r.Fighters() != {} then r.Fighters() else r.members.Keys;
    assert candidates <= r.members.Keys;
    assert r.members.Keys != {};
    NonEmpty(candidates);
    EldestIsLeast(r.order, r.members, candidates, 0);
    assert forall u <- candidates :: u in r.order;
  }

  lemma DropSeats(mode: int, members: map<Uid, Member>, uid: Uid)
    requires SeatsSound(mode, members) && SeatsDistinct(members)
    ensures SeatsSound(mode, members - {uid}) && SeatsDistinct(members - {uid})
    ensures FightersOf(members - {uid}) == FightersOf(members) - {uid}
    ensures |FightersOf(members - {uid})| <= |FightersOf(members)|
  {
    assert FightersOf(members - {uid}) == FightersOf(members) - {uid};
    CardinalityOfLess(FightersOf(members), uid);
  }

  lemma CardinalityOfLess(s: set<Uid>, u: Uid)
    ensures |s - {u}| <= |s|
  {
    if u in s {
      assert s == (s - {u}) + {u};
    } else {
      assert s - {u} == s;
    }
  }

  lemma CancelProbeKeeps(r: Room)
    requires Seated(r)
    ensures Seated(CancelProbe(r)) && SameSeats(CancelProbe(r).members, r.members)
    ensures CancelProbe(r) == r.(probe := None, members := CancelProbe(r).members)
  {
    SameSeatsOf(r.members, InRoom, 0, Member(0, 0, false, false, 0, InRoom, 0));
    SameSeatsKeep(r, CancelProbe(r));
  }

  /** A room without one of its members, before a new owner is chosen. */
  ghost predicate Orphaned(r: Room) {
    && Admitted(r.settings) && SeatsSound(r.settings.mode, r.members) && SeatsDistinct(r.members)
    && |r.Fighters()| <= r.settings.capacity && Listed(r.members, r.order) && r.located == r.members.Keys
    && 0 !in r.members && ProbeSound(r.probe)
  }

  lemma ListedWithout(members: map<Uid, Member>, order: seq<Uid>, uid: Uid)
    requires Listed(members, order)
    ensures Listed(members - {uid}, Without(order, uid))
  {
    WithoutListed(order, uid);
    hide Without;
  }

  lemma DropFields(r: Room, uid: Uid)
    ensures var d := Drop(r, uid);
      && d.members == CancelProbe(r).members - {uid} && d.order == Without(r.order, uid)
      && d.located == r.located - {uid} && d.owner == r.owner && d.gone == r.gone && d.stage == r.stage
      && d.settings == r.settings && d.probe == None
  {
    hide Unready, Without;
  }

  lemma DropKeeps(r: Room, uid: Uid)
    requires Seated(r) && !r.gone && uid in r.members
    ensures Orphaned(Drop(r, uid)) && Drop(r, uid).owner == r.owner && !Drop(r, uid).gone
    ensures Drop(r, uid).members.Keys == r.members.Keys - {uid} && Drop(r, uid).Fighters() == r.Fighters() - {uid}
    ensures Drop(r, uid).stage == r.stage && Drop(r, uid).settings == r.settings
  {
    var x := CancelProbe(r);
    CancelProbeKeeps(r);
    DropFields(r, uid);
    SameFighters(x.members, r.members);
    assert x.members.Keys == r.members.Keys;
    assert SeatsSound(r.settings.mode, x.members) && SeatsDistinct(x.members);
    hide SeatsSound, SeatsDistinct, FightersOf, CancelProbe, Without, Drop;
    DropSeats(r.settings.mode, x.members, uid);
    assert Listed(x.members, r.order);
    ListedWithout(x.members, r.order, uid);
  }

  /** The seating side of a room, which barriers do not touch. */
  ghost predicate SameSeating(x: Room, r: Room) {
    && SameSeats(x.members, r.members) && x.order == r.order && x.located == r.located && x.owner == r.owner
    && x.gone == r.gone && x.settings == r.settings
  }

  lemma PassesSeat(h: Policy, r: Room, w: World)
    ensures SameSeating(PassLoad(r), r) && SameSeating(PassInput(h, r, w), r) && SameSeating(PassResult(r), r)
  {
    hide LoadBarrier, InputBarrier, ResultBarrier, Unready, WithPhase;
    var m := Member(0, 0, false, false, 0, InRoom, 0);
    SameSeatsOf(r.members, InWaitReady, 0, m);
    SameSeatsOf(r.members, InBattle, 0, m);
    SameSeatsOf(Unready(r.members), InRoom, 0, m);
  }

  lemma AdvanceSeats(h: Policy, r: Room, w: World)
    ensures SameSeating(Advance(h, r, w), r)
  {
    hide PassLoad, PassInput, PassResult;
    PassesSeat(h, r, w);
    PassesSeat(h, PassLoad(r), w);
    PassesSeat(h, PassInput(h, PassLoad(r), w), w);
  }

  lemma LeaveKeeps(h: Policy, r: Room, uid: Uid, w: World)
    requires Seated(r) && !r.gone
    ensures Seated(Leave(h, r, uid, w))
  {
    if uid in r.members {
      DropKeeps(r, uid);
      var d := Drop(r, uid);
      FightersAre(r.members);
      hide Drop, Advance, FightersOf, SeatsSound, SeatsDistinct;
      if d.members == map[] {
        FightersAre(d.members);
        NoFighters(d);
      } else if r.stage != Waiting {
        if r.members[uid].spectator {
          SpectatorLeft(h, d, w);
        } else {
          AbortSeated(d);
        }
      } else {
        Reowned(d, uid);
      }
    }
  }

  lemma NoFighters(d: Room)
    requires Orphaned(d) && d.members == map[]
    ensures Seated(d.(gone := true))
  {
  }

  lemma SpectatorLeft(h: Policy, d: Room, w: World)
    requires Orphaned(d) && d.owner in d.Fighters() && d.owner in d.members && !d.gone
    ensures Seated(Advance(h, d, w))
  {
    assert Seated(d);
    hide Advance, SeatsSound, SeatsDistinct, FightersOf;
    AdvanceSeats(h, d, w);
    SameSeatsKeep(d, Advance(h, d, w));
  }

  lemma Reowned(d: Room, uid: Uid)
    requires Orphaned(d) && d.members != map[] && !d.gone && d.stage == Waiting && uid !in d.members
    requires d.owner == uid || (d.owner in d.members && (d.Fighters() != {} ==> d.owner in d.Fighters()))
    ensures Seated(d.(owner := if d.owner == uid then Heir(d) else d.owner, members := Unready(d.members)))
  {
    HeirIsCandidate(d);
    var y := d.(owner := if d.owner == uid then Heir(d) else d.owner);
    assert Seated(y);
    hide SeatsSound, SeatsDistinct, FightersOf;
    SameSeatsOf(d.members, InRoom, 0, Member(0, 0, false, false, 0, InRoom, 0));
    SameSeatsKeep(y, y.(members := Unready(y.members)));
  }

  lemma AbortSeated(r: Room)
    requires Admitted(r.settings) && ProbeSound(r.probe)
    ensures Seated(Abort(r))
  {
    assert FightersOf(map[]) == {};
  }

  // ---------------------------------------------------------------- moving

  /** A fighter moves to another free key of a bank and its team. */
  lemma TeamKeeps(r: Room, uid: Uid, team: int)
    requires Seated(r) && !r.gone
    ensures Seated(ChangeTeam(r, uid, team))
  {
    if Acts(r, uid) && team in {0, 1} && !r.members[uid].spectator && r.members[uid].team != team {
      var old_ := r.members[uid];
      var key := PositionKey(r.settings.mode, r.members, team, old_.slot, Some(uid));
      if key.Some? && r.settings.mode != TUTORIAL {
        var m := old_.(team := team, key := key.value);
        assert forall u <- r.Fighters() :: u != uid ==> r.members[u].key != key.value;
        Reseat(r, uid, m);
        assert ChangeTeam(r, uid, team) == r.(members := Unready(r.members[uid := m]));
      }
    }
  }

  /** Replacing a fighter's seat by another free one. */
  lemma Reseat(r: Room, uid: Uid, m: Member)
    requires Seated(r) && !r.gone && uid in r.Fighters() && !m.spectator && SeatSound(r.settings.mode, m)
    requires forall u <- r.Fighters() :: u != uid ==> r.members[u].key != m.key && r.members[u].slot != m.slot
    ensures Seated(r.(members := Unready(r.members[uid := m])))
  {
    var x := Unready(r.members[uid := m]);
    FightersAre(r.members);
    FightersAre(x);
    assert x.Keys == r.members.Keys;
    hide FightersOf;
    SameSet(FightersOf(x), r.Fighters());
    assert SeatsSound(r.settings.mode, x);
    assert SeatsDistinct(x);
    assert Listed(x, r.order);
  }

  lemma ToggledFighters(members: map<Uid, Member>, uid: Uid, m: Member)
    requires uid in members && m.spectator != members[uid].spectator
    ensures FightersOf(Unready(members[uid := m]))
         == if m.spectator then FightersOf(members) - {uid} else FightersOf(members) + {uid}
    ensures |FightersOf(Unready(members[uid := m]))| <= |FightersOf(members)| + if m.spectator then 0 else 1
  {
    var x := Unready(members[uid := m]);
    FightersAre(members);
    FightersAre(x);
    assert forall u :: u in x <==> u in members;
    hide FightersOf;
    if m.spectator {
      SameSet(FightersOf(x), FightersOf(members) - {uid});
      CardinalityOfLess(FightersOf(members), uid);
    } else {
      SameSet(FightersOf(x), FightersOf(members) + {uid});
    }
  }

  lemma ToggledSeats(mode: int, members: map<Uid, Member>, uid: Uid, m: Member)
    requires SeatsSound(mode, members) && SeatsDistinct(members) && uid in members && SeatSound(mode, m)
    requires !m.spectator ==> forall u <- members :: !members[u].spectator && u != uid ==>
      members[u].key != m.key && members[u].slot != m.slot
    ensures var x := Unready(members[uid := m]);
      x.Keys == members.Keys && SeatsSound(mode, x) && SeatsDistinct(x)
  {
    var moved := members[uid := m];
    assert SeatsSound(mode, moved) && SeatsDistinct(moved) && moved.Keys == members.Keys;
    UnreadySeats(mode, moved);
  }

  lemma UnreadySeats(mode: int, members: map<Uid, Member>)
    requires SeatsSound(mode, members) && SeatsDistinct(members)
    ensures SeatsSound(mode, Unready(members)) && SeatsDistinct(Unready(members))
    ensures Unready(members).Keys == members.Keys
    ensures forall u <- members :: u in Unready(members) && Unready(members)[u] == members[u].(ready := false)
  {
  }

  lemma ToggledSeatFree(r: Room, uid: Uid)
    requires Seated(r) && uid in r.members && ToggledSeat(r, uid).1.Some?
    requires r.members[uid].spectator ==> |r.Fighters()| < r.settings.capacity
    ensures r.members[uid].spectator ==>
      var (slot, key) := ToggledSeat(r, uid);
      && 0 <= slot < 8 && 4 * r.members[uid].team <= key.value < 4 * r.members[uid].team + 4
      && forall u <- r.Fighters() :: r.members[u].key != key.value && r.members[u].slot != slot
    ensures !r.members[uid].spectator ==> ToggledSeat(r, uid) == (8, Some(8))
  {
    if r.members[uid].spectator {
      SlotAvailable(r.members);
      assert r.settings.mode == 1;
      hide FreeSlot, BankKey;
    }
  }

  function ToggledMember(r: Room, uid: Uid): Member
    requires uid in r.members && ToggledSeat(r, uid).1.Some?
  {
    var (slot, key) := ToggledSeat(r, uid);
    r.members[uid].(slot := slot, spectator := !r.members[uid].spectator, ready := false, key := key.value)
  }

  lemma ToggleOrphans(h: Policy, r: Room, uid: Uid)
    requires Seated(r) && !r.gone && r.stage == Waiting && uid in r.members && ToggledSeat(r, uid).1.Some?
    requires !ToggleRefused(h, r, uid)
    ensures var x := r.(members := Unready(r.members[uid := ToggledMember(r, uid)]));
      Orphaned(x) && x.owner in x.members
  {
    var m := ToggledMember(r, uid);
    ObserversCounted(r.members);
    ToggledSeatFree(r, uid);
    assert SeatSound(r.settings.mode, r.members[uid]);
    assert SeatSound(r.settings.mode, m);
    hide ToggledSeat, ToggledMember, ToggleRefused, SeatSound, Unready;
    FightersAre(r.members);
    ToggledSeats(r.settings.mode, r.members, uid, m);
    ToggledFighters(r.members, uid, m);
    hide SeatsSound, SeatsDistinct;
    assert Listed(Unready(r.members[uid := m]), r.order);
  }

  lemma ToggleKeeps(h: Policy, r: Room, uid: Uid, w: World)
    requires Seated(r) && !r.gone
    ensures Seated(Toggle(h, r, uid, w))
  {
    if Acts(r, uid) && r.settings.mode != TUTORIAL && !ToggleRefused(h, r, uid) && ToggledSeat(r, uid).1.Some?
       && Leased(r, w, uid) {
      ToggleOrphans(h, r, uid);
      hide Seated, Orphaned, ToggledSeat, ToggleRefused, Unready, FightersOf;
      ToggleOwned(r, r.(members := Unready(r.members[uid := ToggledMember(r, uid)])));
    }
  }

  lemma ToggleOwned(r: Room, x: Room)
    requires Seated(r) && !r.gone && Orphaned(x) && x.owner in x.members && !x.gone && x.stage == Waiting
    ensures Seated(if x.Fighters() != {} && x.owner in x.members && x.members[x.owner].spectator
                   then x.(owner := Heir(x)) else x)
  {
    HeirIsCandidate(x);
    FightersAre(x.members);
    hide SeatsSound, SeatsDistinct, FightersOf;
  }

  function Other(u: Uid, s: Uid, t: Uid): Uid {
    if u == s then t else if u == t then s else u
  }

  lemma PermutedDistinct(members: map<Uid, Member>, moved: map<Uid, Member>, s: Uid, t: Uid)
    requires SeatsDistinct(members) && moved.Keys == members.Keys
    requires s in members && t in members && !members[s].spectator && !members[t].spectator
    requires forall u <- moved :: moved[u].slot == members[u].slot && moved[u].spectator == members[u].spectator
                                  && moved[u].key == members[Other(u, s, t)].key
    ensures SeatsDistinct(moved)
  {
    forall u, v | u in moved && v in moved && u != v && !moved[u].spectator && !moved[v].spectator
      ensures moved[u].slot != moved[v].slot && moved[u].key != moved[v].key
    {
      var p, q := Other(u, s, t), Other(v, s, t);
      assert moved[u].key == members[p].key && moved[v].key == members[q].key;
      assert p != q && p in members && q in members && !members[p].spectator && !members[q].spectator;
      assert u in members && v in members;
    }
  }

  /** Exchanging keys and teams together keeps every key in the bank of its team. */
  lemma SwapSeats(mode: int, members: map<Uid, Member>, s: Uid, t: Uid)
    requires SeatsSound(mode, members) && SeatsDistinct(members) && mode in TEAMED
    requires s in members && t in members && s != t && !members[s].spectator && !members[t].spectator
    ensures var a, b := members[s], members[t];
      var x := Unready(members[s := a.(key := b.key, team := b.team)][t := b.(key := a.key, team := a.team)]);
      x.Keys == members.Keys && SeatsSound(mode, x) && SeatsDistinct(x)
      && forall u <- x :: x[u].spectator == members[u].spectator
  {
    var a, b := members[s], members[t];
    var moved := members[s := a.(key := b.key, team := b.team)][t := b.(key := a.key, team := a.team)];
    assert moved.Keys == members.Keys;
    assert SeatsSound(mode, moved) by {
      hide SeatsDistinct;
    }
    hide SeatsSound;
    PermutedDistinct(members, moved, s, t);
    UnreadySeats(mode, moved);
    hide SeatsSound, SeatsDistinct, Unready;
    assert forall u <- moved :: moved[u].spectator == members[u].spectator;
  }

  lemma SwapKeeps(r: Room, s: Swap)
    requires Seated(r) && !r.gone && SwapSound(r, s) && r.settings.mode == 3
    ensures Seated(Swapped(r, s))
  {
    var a := r.members[s.source];
    FightersAre(r.members);
    if s.target in r.Fighters() {
      var x := Swapped(r, s).members;
      SwapSeats(3, r.members, s.source, s.target);
      assert Swapped(r, s) == r.(members := x);
      hide Swapped, SeatsSound, SeatsDistinct;
      SameRoles(x, r.members);
      assert Listed(x, r.order);
    } else {
      var m := a.(key := s.new_);
      assert Swapped(r, s) == r.(members := Unready(r.members[s.source := m]));
      hide Swapped;
      Reseat(r, s.source, m);
    }
  }

  lemma SameRoles(x: map<Uid, Member>, y: map<Uid, Member>)
    requires x.Keys == y.Keys && forall u <- x :: x[u].spectator == y[u].spectator
    ensures FightersOf(x) == FightersOf(y)
  {
    forall u
      ensures u in FightersOf(x) <==> u in FightersOf(y)
    {
      assert u in x.Keys <==> u in y.Keys;
    }
  }

  // ---------------------------------------------------------------- every step

  lemma SetMemberKeeps(r: Room, uid: Uid, m: Member)
    requires Seated(r) && !r.gone && uid in r.members
    requires m == r.members[uid].(ready := m.ready, phase := m.phase, connection := m.connection)
    ensures Seated(r.(members := r.members[uid := m])) && FightersOf(r.members[uid := m]) == r.Fighters()
  {
    SameSeatsOf(r.members, InRoom, uid, m);
    SameSeatsKeep(r, r.(members := r.members[uid := m]));
  }

  lemma UnreadyKeeps(r: Room)
    requires Seated(r) && !r.gone
    ensures Seated(r.(members := Unready(r.members)))
  {
    SameSeatsOf(r.members, InRoom, 0, Member(0, 0, false, false, 0, InRoom, 0));
    SameSeatsKeep(r, r.(members := Unready(r.members)));
  }

  lemma StartKeeps(h: Policy, r: Room, w: World, plan: bool)
    requires Seated(r) && !r.gone && r.Fighters() != {}
    ensures Seated(StartMatch(h, r, w, plan))
  {
    SameSeatsOf(r.members, InLoading, 0, Member(0, 0, false, false, 0, InRoom, 0));
    hide WithPhase, SameSeats;
    SameSeatsKeep(r, StartMatch(h, r, w, plan));
  }

  lemma IdentityProbe(r: Room)
    requires r.located == r.members.Keys
    ensures forall u <- r.Fighters() :: u in IdentityOf(r).seats && !IdentityOf(r).seats[u].spectator
    ensures forall u <- IdentityOf(r).seats ::
              u in r.members && IdentityOf(r).seats[u].spectator == r.members[u].spectator
  {
  }

  lemma BeginKeeps(h: Policy, r: Room, w: World, plan: bool)
    requires Seated(r) && !r.gone && r.Fighters() != {}
    ensures Seated(BeginStart(h, r, w, plan))
  {
    var x := r.(exchange := None);
    assert Seated(x);
    if !h.probing {
      hide Seated;
      StartKeeps(h, x, w, plan);
    } else if x.probe.None? {
      IdentityProbe(x);
      hide IdentityOf;
      SameSeatsKeep(x, BeginStart(h, r, w, plan));
    }
  }

  lemma ReadyKeeps(h: Policy, r: Room, uid: Uid, w: World, plan: bool)
    requires Seated(r) && !r.gone
    ensures Seated(Ready(h, r, uid, w, plan))
  {
    if uid in r.members && !r.members[uid].spectator {
      var m := r.members[uid].(ready := true);
      SetMemberKeeps(r, uid, m);
      var x := r.(members := r.members[uid := m]);
      assert uid in r.Fighters();
      hide Seated, BeginStart, FightersOf, Balanced, OthersReady, AllReady;
      BeginKeeps(h, x, w, plan);
    }
  }

  lemma ReplyKeeps(h: Policy, r: Room, uid: Uid, w: World, plan: bool)
    requires Seated(r) && !r.gone
    ensures Seated(DelayReply(h, r, uid, w, plan))
  {
    if Acts(r, uid) && r.probe.Some? && uid in r.probe.value.pending {
      if ProbeBroken(r, w) {
        CancelProbeKeeps(r);
      } else {
        IdentityProbe(r);
        assert uid in r.Fighters();
        hide IdentityOf, ProbeBroken, FightersOf, StartMatch;
        var x := r.(probe := None);
        assert Seated(x);
        StartKeeps(h, x, w, plan);
      }
    }
  }

  lemma TutorialKeeps(h: Policy, r: Room, uid: Uid, w: World)
    requires Seated(r) && !r.gone
    ensures Seated(TutorialReady(h, r, uid, w))
  {
    if Acts(r, uid) && r.settings.mode == TUTORIAL {
      assert SeatSound(r.settings.mode, r.members[uid]);
      assert uid in r.Fighters();
      var m := r.members[uid].(ready := true);
      SetMemberKeeps(r, uid, m);
      hide Seated, StartMatch, FightersOf;
      StartKeeps(h, r.(members := r.members[uid := m]), w, true);
    }
  }

  lemma ExchangeKeeps(r: Room, uid: Uid, step: SwapStep, s: Swap, w: World)
    requires Seated(r) && !r.gone
    ensures Seated(ExchangeSeat(r, uid, step, s, w))
  {
    if SwapOpen(r, uid) && SwapSound(r, s) {
      SwapKeeps(r, s);
      SwapKeeps(r.(exchange := None), s);
      hide Swapped, SeatsSound, SeatsDistinct, FightersOf, IdentityOf;
    }
  }

  lemma ExpireRoomKeeps(h: Policy, r: Room, w: World)
    requires Seated(r) && !r.gone
    ensures Seated(ExpireRoom(h, r, w))
  {
    LeaveKeeps(h, r, r.owner, w);
    assert Seated(r.(exchange := None));
    CancelProbeKeeps(r);
    CancelProbeKeeps(r.(exchange := None));
    hide Seated, Leave, CancelProbe, IdentityOf;
  }

  lemma SettingsKeep(h: Policy, r: Room, uid: Uid, update: Update)
    requires Seated(r) && !r.gone
    ensures Seated(ChangeSettings(h, r, uid, update))
  {
    var x := ChangeSettings(h, r, uid, update);
    if x != r {
      SameSeatsOf(r.members, InRoom, 0, Member(0, 0, false, false, 0, InRoom, 0));
      SameSeatsKeep(r, x);
    }
  }

  lemma TransferKeeps(r: Room, uid: Uid, target: Uid, w: World)
    requires Seated(r) && !r.gone
    ensures Seated(Transfer(r, uid, target, w))
  {
    if target in r.members && !r.members[target].spectator {
      var x := r.(owner := target);
      FightersAre(r.members);
      hide FightersOf;
      assert Seated(x);
      UnreadyKeeps(x);
    }
  }

  lemma AdvanceKeeps(h: Policy, r: Room, w: World)
    requires Seated(r) && !r.gone
    ensures Seated(Advance(h, r, w))
  {
    AdvanceSeats(h, r, w);
    AdvanceLeavesProbe(h, r, w);
    hide Advance, SameSeats;
    SameSeatsKeep(r, Advance(h, r, w));
  }

  lemma AdvanceLeavesProbe(h: Policy, r: Room, w: World)
    ensures Advance(h, r, w).probe == r.probe && (Advance(h, r, w).stage != Waiting ==> r.stage != Waiting)
  {
    hide Unready, WithPhase, FightersOf;
    var x := PassLoad(r);
    var y := PassInput(h, x, w);
    assert x.probe == r.probe && (r.stage == Waiting ==> x == r);
    assert y.probe == r.probe && (r.stage == Waiting ==> y == r);
    hide PassLoad, PassInput;
  }

  lemma BookkeepingKeeps(r: Room, x: Room)
    requires Seated(r) && !r.gone
    requires x.members == r.members && x.order == r.order && x.located == r.located && x.owner == r.owner
    requires x.gone == r.gone && x.settings == r.settings && x.probe == r.probe
    requires x.stage != Waiting ==> r.stage != Waiting || r.Fighters() != {}
    ensures Seated(x)
  {
    hide SeatsSound, SeatsDistinct, FightersOf;
  }

  lemma StepSeatedJoining(h: Policy, r: Room, e: Event, w: World)
    requires Seated(r) && !r.gone
    requires e.Joins? || e.Departs? || e.Drops? || e.Returns? || e.Binds? || e.Tick? || e.TickMember? || e.Removes?
    ensures Seated(Step(h, r, e, w))
  {
    hide Leave, Install, FightersOf, SeatsSound, SeatsDistinct, ExpireRoom;
    match e {
      case Joins(uid, spectator, admitted, connection) =>
        if uid != 0 && uid !in r.located {
          InstallKeeps(h, r, uid, spectator, connection, w);
        }
      case Departs(uid) => LeaveKeeps(h, r, uid, w);
      case Drops(uid) =>
        LeaveKeeps(h, r, uid, w);
        if uid in r.members {
          var m := r.members[uid].(ready := false, phase := NoGame, connection := 0);
          SetMemberKeeps(r, uid, m);
          BookkeepingKeeps(r.(members := r.members[uid := m]),
                           r.(members := r.members[uid := m], suspended := r.suspended[uid := w.now + h.reconnect]));
        }
      case Returns(uid, connection) =>
        if uid in r.members {
          SetMemberKeeps(r, uid, r.members[uid].(phase := InLobby, connection := connection));
        }
      case Binds(uid) =>
        if uid in r.members {
          var m := r.members[uid].(phase := InRoom);
          SetMemberKeeps(r, uid, m);
          BookkeepingKeeps(r.(members := r.members[uid := m]),
                           r.(suspended := r.suspended - {uid}, members := r.members[uid := m]));
        }
      case Tick => ExpireRoomKeeps(h, r, w);
      case TickMember(uid) =>
        BookkeepingKeeps(r, r.(suspended := r.suspended - {uid}));
        LeaveKeeps(h, r.(suspended := r.suspended - {uid}), uid, w);
      case Removes(uid, target) => LeaveKeeps(h, r, target, w);
    }
  }

  lemma StepSeatedWaiting(h: Policy, r: Room, e: Event, w: World)
    requires Seated(r) && !r.gone
    requires e.Changes? || e.Moves? || e.Hands? || e.Toggles? || e.Swaps? || e.Readies? || e.Unreadies? || e.Enters?
          || e.Begins? || e.Answers?
    ensures Seated(Step(h, r, e, w))
  {
    hide FightersOf, SeatsSound, SeatsDistinct, ChangeSettings, ChangeTeam, Transfer, Toggle, ExchangeSeat, Ready,
      CancelReady, TutorialReady, TutorialEntered, DelayReply, Seated;
    match e {
      case Changes(uid, s) => SettingsKeep(h, r, uid, s);
      case Moves(uid, team) => TeamKeeps(r, uid, team);
      case Hands(uid, target) => TransferKeeps(r, uid, target, w);
      case Toggles(uid) => ToggleKeeps(h, r, uid, w);
      case Swaps(uid, step, swap) => ExchangeKeeps(r, uid, step, swap, w);
      case Readies(uid, plan) => ReadyKeeps(h, r, uid, w, plan);
      case Unreadies(uid) => CancelReadyKeeps(r, uid);
      case Enters(uid) => EnteredKeeps(r, uid);
      case Begins(uid) => TutorialKeeps(h, r, uid, w);
      case Answers(uid, plan) => ReplyKeeps(h, r, uid, w, plan);
    }
  }

  lemma CancelReadyKeeps(r: Room, uid: Uid)
    requires Seated(r) && !r.gone
    ensures Seated(CancelReady(r, uid))
  {
    hide Seated;
    if uid in r.members {
      SetMemberKeeps(r, uid, r.members[uid].(ready := false));
    }
  }

  lemma EnteredKeeps(r: Room, uid: Uid)
    requires Seated(r) && !r.gone
    ensures Seated(TutorialEntered(r, uid))
  {
    BookkeepingKeeps(r, TutorialEntered(r, uid));
  }

  lemma BarrierKeeps(h: Policy, r: Room, x: Room, w: World)
    requires Seated(r) && !r.gone
    requires x == r.(loaded := x.loaded, input := x.input, acks := x.acks)
    ensures Seated(Advance(h, x, w))
  {
    BookkeepingKeeps(r, x);
    hide Seated, Advance;
    AdvanceKeeps(h, x, w);
  }

  lemma ReportsKeep(r: Room, uid: Uid, agreed: bool, qualified: bool)
    requires Seated(r) && !r.gone
    ensures Seated(Report(r, uid, agreed)) && Seated(StageFinish(r, uid, qualified))
  {
    if uid in r.members && !r.members[uid].spectator {
      FightersAre(r.members);
      assert r.Fighters() != {};
    }
    hide FightersOf, SeatsSound, SeatsDistinct, Reporters;
    BookkeepingKeeps(r, Report(r, uid, agreed));
    BookkeepingKeeps(r, StageFinish(r, uid, qualified));
  }

  lemma StepSeatedPlaying(h: Policy, r: Room, e: Event, w: World)
    requires Seated(r) && !r.gone
    requires e.Loads? || e.Inputs? || e.Places? || e.Reports? || e.Finishes? || e.Acknowledges?
    ensures Seated(Step(h, r, e, w))
  {
    hide Seated, Advance, Report, StageFinish;
    match e {
      case Loads(uid) => BarrierKeeps(h, r, r.(loaded := r.loaded + {uid}), w);
      case Inputs(uid) => BarrierKeeps(h, r, r.(input := r.input + {uid}), w);
      case Places(uid) => BookkeepingKeeps(r, Positions(r, uid));
      case Reports(uid, agreed) => ReportsKeep(r, uid, agreed, true);
      case Finishes(uid, qualified) => ReportsKeep(r, uid, true, qualified);
      case Acknowledges(uid) => BarrierKeeps(h, r, r.(acks := r.acks + {uid}), w);
    }
  }

  lemma StepSeated(h: Policy, r: Room, e: Event, w: World)
    requires Seated(r)
    ensures Seated(Step(h, r, e, w))
  {
    if !r.gone {
      hide Seated, Step;
      if e.Joins? || e.Departs? || e.Drops? || e.Returns? || e.Binds? || e.Tick? || e.TickMember? || e.Removes? {
        StepSeatedJoining(h, r, e, w);
      } else if e.Loads? || e.Inputs? || e.Places? || e.Reports? || e.Finishes? || e.Acknowledges? {
        StepSeatedPlaying(h, r, e, w);
      } else {
        StepSeatedWaiting(h, r, e, w);
      }
    } else {
      GoneStays(h, r, e, w);
    }
  }

  lemma GoneStays(h: Policy, r: Room, e: Event, w: World)
    requires r.gone
    ensures Step(h, r, e, w) == r
  {
  }

  /** A room as its creation leaves it. */
  ghost predicate Opened(h: Policy, r: Room) {
    exists uid, s, connection, w :: uid != 0 && connection != 0 && Admitted(s) && r == Create(h, uid, s, connection, w)
                                    && r.members != map[]
  }

  /**
   * The reachable-room invariant: in every reachable room fighters have distinct slots 0..7 and distinct keys, in
   * the bank of their team where teams exist; there are at most `capacity` of them; the joining order, the members
   * and the engines placed in the room agree; and the owner is a member, a fighter whenever there is one.
   */
  lemma {:induction false} RunSeated(h: Policy, start: Room, events: seq<Moment>)
    requires Opened(h, start)
    ensures Seated(Run(h, start, events))
  {
    if events == [] {
      var uid, s, connection, w :|
        uid != 0 && connection != 0 && Admitted(s) && start == Create(h, uid, s, connection, w);
      CreateSeated(h, uid, s, connection, w);
    } else {
      RunSeated(h, start, events[..|events| - 1]);
      hide Seated, Step, Opened;
      StepSeated(h, Run(h, start, events[..|events| - 1]), events[|events| - 1].event, events[|events| - 1].world);
    }
  }

  lemma LeaveSettings(h: Policy, r: Room, uid: Uid, w: World)
    ensures Leave(h, r, uid, w).settings == r.settings
  {
    DropFields(r, uid);
    AdvanceSeats(h, Drop(r, uid), w);
    hide Drop, Advance, Heir, Unready;
  }

  predicate SameShape(x: Room, r: Room) {
    x.settings.mode == r.settings.mode && x.settings.capacity == r.settings.capacity
  }

  lemma StepSettings(h: Policy, r: Room, e: Event, w: World)
    ensures SameShape(Step(h, r, e, w), r)
  {
    hide Leave, Advance, Unready, IdentityOf, Acts, Reporters,
      FightersOf, Leased, RestoreAllowed, Install, ChangeSettings,
      ChangeTeam, Transfer, Toggle, ExchangeSeat, Ready, TutorialReady, DelayReply;
    match e {
      case Departs(uid) => LeaveSettings(h, r, uid, w);
      case Drops(uid) => LeaveSettings(h, r, uid, w);
      case Tick => LeaveSettings(h, r, r.owner, w);
      case TickMember(uid) => LeaveSettings(h, r.(suspended := r.suspended - {uid}), uid, w);
      case Removes(uid, target) => LeaveSettings(h, r, target, w);
      case Loads(uid) => AdvanceSeats(h, r.(loaded := r.loaded + {uid}), w);
      case Inputs(uid) => AdvanceSeats(h, r.(input := r.input + {uid}), w);
      case Acknowledges(uid) => AdvanceSeats(h, r.(acks := r.acks + {uid}), w);
      case _ => WaitingSettings(h, r, e, w);
    }
  }

  lemma WaitingSettings(h: Policy, r: Room, e: Event, w: World)
    requires e.Changes? || e.Moves? || e.Hands? || e.Toggles? || e.Swaps? || e.Readies? || e.Unreadies? || e.Enters?
          || e.Begins? || e.Answers? || e.Joins? || e.Returns? || e.Binds? || e.Places? || e.Reports? || e.Finishes?
    ensures SameShape(Step(h, r, e, w), r)
  {
    hide Heir, Unready, WithPhase, IdentityOf, InstallAllowed, RestoreAllowed, ToggledSeat, ToggleRefused, SwapSound,
      SwapOpen, Balanced, OthersReady, AllReady, ProbeBroken, Reporters,
      PositionKey, Admitted, FightersOf, Leased, Acts;
  }

  /** A settings update keeps mode and capacity, whatever else it changes. */
  lemma {:induction false} ModeAndCapacityFixed(h: Policy, start: Room, events: seq<Moment>)
    ensures Run(h, start, events).settings.mode == start.settings.mode
    ensures Run(h, start, events).settings.capacity == start.settings.capacity
  {
    if events != [] {
      ModeAndCapacityFixed(h, start, events[..|events| - 1]);
      StepSettings(h, Run(h, start, events[..|events| - 1]), events[|events| - 1].event, events[|events| - 1].world);
      hide Step;
    }
  }
}
