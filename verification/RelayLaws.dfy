/**
 * When a member's event is relayed, said of the fields of event and battle alone: an event is refused for an offence,
 * ignored for an oddity, and in every other case recorded and handed on.
 */
module RelayLaws {
  import opened BattleEvents
  import opened BattleRules

  // ---------------------------------------------------------------- headers and sequences

  predicate GenericHeader(m: Message) { m.header.flag == 1 && m.header.variant == 1 }

  predicate MotionHeader(m: Message) { m.body.Motion? && m.header.flag == 0 && m.header.variant == 0 }

  /** Nothing was accepted from this sender on this lane with this sequence or a larger one. */
  predicate Newer(b: Battle, uid: Uid, lane: int, sequence: int) {
    (uid, lane) in b.last ==> b.last[(uid, lane)] < sequence
  }

  /** A motion goes backwards, or repeats the newest one but for the counter it does not use. */
  predicate OldMotion(b: Battle, uid: Uid, m: Message) {
    && (uid, 15) in b.last
    && (|| m.header.sequence15 < b.last[(uid, 15)]
        || (m.header.sequence15 == b.last[(uid, 15)] && uid in b.motion
            && b.motion[uid] == Message(m.header.(sequence19 := 0), m.body)))
  }

  /** In a cooperative battle these kinds belong to an actor when they name nobody of the room. */
  predicate OfMembers(b: Battle, m: Message) {
    b.mode == 10 || b.mode == 21 ==>
      && (m.body.Motion? ==> m.header.sender in b.members)
      && (m.body.Hit? || m.body.State? ==> m.body.target in b.members)
      && (m.body.Owned? && m.body.id in {8122, 8125, 8127, 8140} ==> m.body.actor in b.members)
  }

  predicate Alive(b: Battle, key: int) { key in b.projectiles && b.projectiles[key].alive }

  // ---------------------------------------------------------------- ordinary events

  predicate CancelsForOther(b: Battle, uid: Uid, m: Message) {
    m.body.State? && m.body.op == Cancel && uid == b.owner && m.body.target in b.members
  }

  /** The event speaks for somebody else, where this is a forgery and not merely unsupported. */
  predicate SpeaksForOther(uid: Uid, m: Message) {
    (m.body.Owned? && m.body.actor != uid) || (m.body.Select? && m.body.player != uid)
  }

  predicate ForeignAim(b: Battle, m: Message) {
    || (m.body.Select? && m.body.target != 0 && m.body.target !in b.members)
    || (m.body.Owned? && m.body.aim.Some? && m.body.aim.value != 0 && m.body.aim.value !in b.members)
  }

  predicate ForeignPair(b: Battle, m: Message) {
    || ((m.body.Hit? || m.body.State? || m.body.Create? || m.body.Result? || m.body.Report? || m.body.Effect?
         || m.body.End?) && m.body.pair != b.pair)
    || (m.body.Owned? && m.body.stamp.Some? && m.body.stamp.value != b.pair)
  }

  /** A projectile is created without right, or under a key that is taken, or when there is no room left. */
  predicate CreationOffends(b: Battle, uid: Uid, m: Message) {
    && m.body.Create?
    && (|| (m.body.source != uid && !(uid == b.owner && (m.body.source == 0 || m.body.source in b.members)))
        || (m.body.key in b.projectiles && b.projectiles[m.body.key].owner != uid)
        || (m.body.key !in b.projectiles && |b.projectiles| >= 65536))
  }

  /** A living projectile is steered by somebody who neither owns it nor was hit by it. */
  predicate SteersForeign(b: Battle, uid: Uid, m: Message) {
    && (m.body.Result? || m.body.Effect? || m.body.End?) && Alive(b, m.body.key)
    && b.projectiles[m.body.key].owner != uid
    && !(m.body.Result? && m.body.outcome == 2 && uid in b.projectiles[m.body.key].reporters)
  }

  predicate OrdinaryOffence(b: Battle, uid: Uid, m: Message) {
    || m.header.sender != uid || SpeaksForOther(uid, m) || ForeignAim(b, m) || ForeignPair(b, m)
    || (m.body.State? && m.body.code > 255)
    || (m.body.State? && m.body.op == Cancel
        && !(m.body.source == 0 && m.body.parameter == 0 && m.body.event == 0))
    || (m.body.Collectible? && (uid != b.owner || |b.collectibles| >= 65536))
    || CreationOffends(b, uid, m) || SteersForeign(b, uid, m)
  }

  predicate OrdinaryOddity(b: Battle, uid: Uid, m: Message) {
    || (m.body.Owned? && m.body.id == 8284 && m.body.operation !in {1, 2, 3})
    || (m.body.Owned? && m.body.id == 8288 && m.body.actor == 0)
    || (m.body.Owned? && (m.body.id == 8284 || m.body.id == 8293) && m.body.actor !in b.roster.Values)
    || ((m.body.Hit? || m.body.State?) && m.body.target != uid && !CancelsForOther(b, uid, m))
    || (!GenericHeader(m) && !MotionHeader(m))
    || (GenericHeader(m) && !Newer(b, uid, 19, m.header.sequence19))
    || (MotionHeader(m) && OldMotion(b, uid, m))
    || (m.body.Collectible? && (m.body.family.None? || (m.body.family.value, m.body.item) in b.collectibles))
    || (m.body.State? && m.body.op == OtherOperation)
    || (m.body.State? && m.body.op == Cancel && m.body.target != uid
        && (m.body.target, m.body.code) !in b.states)
    || (m.body.Create? && m.body.key in b.projectiles)
    || ((m.body.Result? || m.body.Report? || m.body.Effect? || m.body.End?) && !Alive(b, m.body.key))
    || (m.body.Report? && m.body.target != uid)
    || (m.body.Result? && m.body.outcome !in {2, 3, 4, 6})
  }

  // ---------------------------------------------------------------- the other families

  /** The first row a receipt can be paid with: same source and skill, this outcome, and older. */
  predicate Pays(w: Witness, m: Message)
    requires m.body.Receipt?
  {
    w.source == m.body.source && w.skill == m.body.skill && m.body.status in w.outcomes
    && w.sequence < m.header.sequence19
  }

  predicate Permits(e: Extra, m: Message)
    requires m.body.Receipt?
  {
    e.source == m.body.source && e.skill == m.body.skill && e.sequence < m.header.sequence19
  }

  predicate Payable(b: Battle, uid: Uid, m: Message)
    requires m.body.Receipt?
  {
    || (uid in b.hits && exists w <- b.hits[uid] :: Pays(w, m))
    || (m.body.status == 3 && uid in b.extras && exists e <- b.extras[uid] :: Permits(e, m))
  }

  predicate ReceiptOffence(uid: Uid, m: Message)
    requires m.body.Receipt?
  {
    m.header.sender != uid || m.body.reporter != uid
  }

  predicate ReceiptOddity(c: Catalog, b: Battle, uid: Uid, m: Message)
    requires m.body.Receipt?
  {
    || m.body.target != uid || m.body.source !in b.roster.Values || m.body.skill !in c.effectFree
    || !GenericHeader(m) || !Newer(b, uid, 19, m.header.sequence19) || !Payable(b, uid, m)
  }

  predicate Reserved(holds: map<Uid, Hold>, who: Uid, key: int) {
    who in holds && holds[who].key == key && holds[who].approved
  }

  predicate Pending(holds: map<Uid, Hold>, who: Uid, key: int) {
    who in holds && holds[who].key == key && !holds[who].approved
  }

  function Registry(b: Battle, m: Message): map<Uid, Hold>
    requires m.body.Pickup?
  {
    if m.body.chest then b.chests else b.pickups
  }

  predicate PickupOffence(b: Battle, uid: Uid, m: Message)
    requires m.body.Pickup?
  {
    var p, holds := m.body, Registry(b, m);
    || m.header.sender != uid || (p.stamp.Some? && p.stamp.value != b.pair) || !GenericHeader(m)
    || p.player !in b.members
    || (p.phase == Request && (p.player != uid || p.answer > 1))
    || (p.phase == Response
        && (uid != b.owner || p.answer > 1
            || (p.answer == 1 && exists other <- holds :: other != p.player && Reserved(holds, other, p.key))))
    || (p.phase == Completion
        && (p.player != uid || p.answer != 1
            || (uid != b.owner && !Reserved(holds, uid, p.key))
            || (uid == b.owner && exists who <- holds :: Reserved(holds, who, p.key))))
  }

  predicate PickupOddity(b: Battle, uid: Uid, m: Message)
    requires m.body.Pickup?
  {
    var p, holds := m.body, Registry(b, m);
    || !Newer(b, uid, 19, m.header.sequence19)
    || (p.phase == Request && p.answer == 1 && (uid == b.owner || p.player in holds))
    || (p.phase == Request && p.answer == 0 && !(p.player in holds && holds[p.player].key == p.key))
    || (p.phase == Response && !Pending(holds, p.player, p.key))
  }

  predicate NoticeOffence(b: Battle, uid: Uid, m: Message)
    requires m.body.Terminal? || m.body.Countdown?
  {
    || uid !in b.roster.Values || m.header.sender != uid
    || (m.body.Terminal?
        && (m.body.target !in b.roster.Values || m.body.initiator != uid || (m.body.target != uid && uid != b.owner)))
    || (m.body.Countdown? && (m.body.player !in b.roster.Values || uid != b.owner || m.body.player == uid))
  }

  predicate NoticeOddity(b: Battle, uid: Uid, m: Message)
    requires m.body.Terminal? || m.body.Countdown?
  {
    || !GenericHeader(m) || !Newer(b, uid, 19, m.header.sequence19)
    || (m.body.Countdown? && (m.body.marker != 1 || m.body.seconds > 0x7fff_ffff))
  }

  /** A row names the fighter of its slot, or is entirely empty where nobody fights. */
  predicate TrueRow(b: Battle, slot: int, row: SnapshotRow) {
    if slot in b.roster && b.roster[slot] != 0 then row.player == b.roster[slot] else row == SnapshotRow(0, true)
  }

  /** The amounts that go with each code of a rebirth. */
  predicate KnownAmount(code: int, amount: int) {
    match code
    case 0 => amount == 0
    case 1 => amount == 0
    case 2 => amount == 0
    case 3 => amount == 3
    case 4 => amount == 4
    case 5 => 4 < amount < 0x1_0000
    case 6 => amount == 3
    case 7 => 3 < amount < 0x1_0000
    case _ => false
  }

  predicate RebirthOffence(b: Battle, uid: Uid, m: Message)
    requires m.body.Snapshot? || m.body.Reborn?
  {
    || uid !in b.roster.Values || m.header.sender != uid
    || (m.body.Snapshot? && exists i :: 0 <= i < |m.body.rows| && !TrueRow(b, i, m.body.rows[i]))
    || (m.body.Reborn? && m.body.participant !in b.roster.Values)
  }

  predicate RebirthOddity(b: Battle, uid: Uid, m: Message)
    requires m.body.Snapshot? || m.body.Reborn?
  {
    || b.mode != 16 || uid != b.owner || !GenericHeader(m) || !Newer(b, uid, 19, m.header.sequence19)
    || (m.body.Reborn? && !KnownAmount(m.body.code, m.body.amount))
  }

  predicate PairOffence(b: Battle, uid: Uid, m: Message)
    requires m.body.Transform? || m.body.Slip?
  {
    uid !in b.roster.Values || m.header.sender != uid
  }

  /** Why a transform is ignored: it answers no standing selection of its second player, who sends it. */
  predicate TransformOddity(b: Battle, uid: Uid, m: Message, now: real)
    requires m.body.Transform?
  {
    || m.body.first !in b.roster.Values || m.body.first == uid || m.body.second != uid
    || m.body.first !in b.selections || b.selections[m.body.first].target != uid
    || b.selections[m.body.first].deadline <= now
    || !GenericHeader(m) || !Newer(b, uid, 19, m.header.sequence19)
  }

  predicate SlipOddity(b: Battle, uid: Uid, m: Message)
    requires m.body.Slip?
  {
    || (m.body.first != 0 && m.body.first != uid) || (m.body.second != 0 && m.body.second != uid)
    || (m.body.first == m.body.second == uid && uid != 0)
    || (m.body.first == 0 && !m.body.firstBlank) || (m.body.second == 0 && !m.body.secondBlank)
    || !GenericHeader(m) || !Newer(b, uid, 19, m.header.sequence19)
  }

  // ---------------------------------------------------------------- all families

  /** A reason to end the sender's connection with a protocol error. */
  predicate Offends(b: Battle, uid: Uid, m: Message) {
    match m.body
    case Malformed => true
    case Unlisted(_) => false
    case Series => uid !in b.roster.Values || m.header.sender != uid
    case Receipt(_, _, _, _, _) => ReceiptOffence(uid, m)
    case Pickup(_, _, _, _, _, _) => PickupOffence(b, uid, m)
    case Terminal(_, _) => NoticeOffence(b, uid, m)
    case Countdown(_, _, _) => NoticeOffence(b, uid, m)
    case Snapshot(_) => RebirthOffence(b, uid, m)
    case Reborn(_, _, _) => RebirthOffence(b, uid, m)
    case Transform(_, _) => PairOffence(b, uid, m)
    case Slip(_, _, _, _) => PairOffence(b, uid, m)
    case _ => OrdinaryOffence(b, uid, m)
  }

  /** A reason to ignore the event: stale, unsupported, or about something that is not there. */
  predicate Odd(c: Catalog, b: Battle, uid: Uid, m: Message, now: real) {
    match m.body
    case Malformed => false
    case Unlisted(_) => true
    case Series => true
    case Receipt(_, _, _, _, _) => ReceiptOddity(c, b, uid, m)
    case Pickup(_, _, _, _, _, _) => PickupOddity(b, uid, m)
    case Terminal(_, _) => NoticeOddity(b, uid, m)
    case Countdown(_, _, _) => NoticeOddity(b, uid, m)
    case Snapshot(_) => RebirthOddity(b, uid, m)
    case Reborn(_, _, _) => RebirthOddity(b, uid, m)
    case Transform(_, _) => TransformOddity(b, uid, m, now)
    case Slip(_, _, _, _) => SlipOddity(b, uid, m)
    case _ => OrdinaryOddity(b, uid, m)
  }

  /** How the two kinds of reasons settle a judgement; which one wins when both apply is the order of the checks. */
  predicate Settles(v: Verdict, offends: bool, odd: bool) {
    && (v == Pass <==> !offends && !odd)
    && (v == Reject ==> offends)
    && (v == Quiet || v == Expire ==> odd)
    && v != PassNpc
  }

  lemma IdentityReasons(b: Battle, uid: Uid, m: Message)
    requires Ordinary(m.body)
    ensures JudgeIdentity(b, uid, m) in {Pass, Reject, Quiet}
    ensures JudgeIdentity(b, uid, m) == Reject ==> OrdinaryOffence(b, uid, m)
    ensures JudgeIdentity(b, uid, m) == Quiet ==> OrdinaryOddity(b, uid, m)
    ensures JudgeIdentity(b, uid, m) == Pass <==>
      && m.header.sender == uid && !SpeaksForOther(uid, m) && !ForeignAim(b, m) && !ForeignPair(b, m)
      && !(m.body.State? && m.body.code > 255)
      && !(m.body.Owned? && m.body.id == 8284 && m.body.operation !in {1, 2, 3})
      && !(m.body.Owned? && m.body.id == 8288 && m.body.actor == 0)
      && !(m.body.Owned? && (m.body.id == 8284 || m.body.id == 8293) && m.body.actor !in b.roster.Values)
      && !((m.body.Hit? || m.body.State?) && m.body.target != uid && !CancelsForOther(b, uid, m))
  {
  }

  lemma SequenceReasons(b: Battle, uid: Uid, m: Message)
    ensures JudgeSequence(b, uid, m) in {Pass, Quiet}
    ensures JudgeSequence(b, uid, m) == Pass <==>
      && (GenericHeader(m) || MotionHeader(m))
      && (GenericHeader(m) ==> Newer(b, uid, 19, m.header.sequence19))
      && (MotionHeader(m) ==> !OldMotion(b, uid, m))
  {
  }

  lemma ProjectileReasons(b: Battle, uid: Uid, m: Message)
    requires Ordinary(m.body)
    ensures JudgeProjectile(b, uid, m) in {Pass, Reject, Quiet}
    ensures JudgeProjectile(b, uid, m) == Reject ==> CreationOffends(b, uid, m) || SteersForeign(b, uid, m)
    ensures JudgeProjectile(b, uid, m) == Quiet ==> OrdinaryOddity(b, uid, m)
    ensures JudgeProjectile(b, uid, m) == Pass <==>
      && !CreationOffends(b, uid, m) && !SteersForeign(b, uid, m)
      && !(m.body.Create? && m.body.key in b.projectiles)
      && !((m.body.Result? || m.body.Report? || m.body.Effect? || m.body.End?) && !Alive(b, m.body.key))
      && !(m.body.Report? && m.body.target != uid)
      && !(m.body.Result? && m.body.outcome !in {2, 3, 4, 6})
  {
  }

  lemma ObjectReasons(b: Battle, uid: Uid, m: Message)
    requires Ordinary(m.body)
    ensures JudgeObject(b, uid, m) in {Pass, Reject, Quiet}
    ensures JudgeObject(b, uid, m) == Reject ==> OrdinaryOffence(b, uid, m)
    ensures JudgeObject(b, uid, m) == Quiet ==> OrdinaryOddity(b, uid, m)
    ensures !OrdinaryOffence(b, uid, m) && !OrdinaryOddity(b, uid, m) ==> JudgeObject(b, uid, m) == Pass
    ensures JudgeObject(b, uid, m) == Pass ==>
      && !CreationOffends(b, uid, m) && !SteersForeign(b, uid, m)
      && !(m.body.State? && m.body.op == Cancel
           && !(m.body.source == 0 && m.body.parameter == 0 && m.body.event == 0))
      && !(m.body.Collectible? && (uid != b.owner || |b.collectibles| >= 65536))
      && !(m.body.Collectible? && (m.body.family.None? || (m.body.family.value, m.body.item) in b.collectibles))
      && !(m.body.State? && m.body.op == OtherOperation)
      && !(m.body.State? && m.body.op == Cancel && m.body.target != uid
           && (m.body.target, m.body.code) !in b.states)
      && !(m.body.Create? && m.body.key in b.projectiles)
      && !((m.body.Result? || m.body.Report? || m.body.Effect? || m.body.End?) && !Alive(b, m.body.key))
      && !(m.body.Report? && m.body.target != uid)
      && !(m.body.Result? && m.body.outcome !in {2, 3, 4, 6})
  {
    ProjectileReasons(b, uid, m);
    hide JudgeProjectile, CreationOffends, SteersForeign, Alive, ForeignAim, ForeignPair, SpeaksForOther,
      CancelsForOther, Newer, OldMotion;
  }

  lemma OrdinaryReasons(b: Battle, uid: Uid, m: Message)
    requires Ordinary(m.body)
    ensures Settles(JudgeOrdinary(b, uid, m), OrdinaryOffence(b, uid, m), OrdinaryOddity(b, uid, m))
  {
    IdentityReasons(b, uid, m);
    SequenceReasons(b, uid, m);
    ObjectReasons(b, uid, m);
    hide JudgeIdentity, JudgeSequence, JudgeObject, CreationOffends, SteersForeign, Alive, ForeignAim, ForeignPair,
      SpeaksForOther, CancelsForOther, Newer, OldMotion;
  }

  lemma RowsPay(rows: seq<Witness>, m: Message)
    requires m.body.Receipt?
    ensures FirstWitness(rows, m.body.source, m.body.skill, m.body.status, m.header.sequence19) < |rows|
            <==> exists w <- rows :: Pays(w, m)
  {
    var i := FirstWitness(rows, m.body.source, m.body.skill, m.body.status, m.header.sequence19);
    hide FirstWitness;
    if i < |rows| {
      assert rows[i] in rows && Pays(rows[i], m);
    } else {
      forall w | w in rows
        ensures !Pays(w, m)
      {
        var j :| 0 <= j < |rows| && rows[j] == w;
        assert !Answers(rows[j], m.body.source, m.body.skill, m.body.status, m.header.sequence19);
      }
    }
  }

  lemma RowsPermit(rows: seq<Extra>, m: Message)
    requires m.body.Receipt?
    ensures FirstExtra(rows, m.body.source, m.body.skill, m.header.sequence19) < |rows|
            <==> exists e <- rows :: Permits(e, m)
  {
    var i := FirstExtra(rows, m.body.source, m.body.skill, m.header.sequence19);
    hide FirstExtra;
    if i < |rows| {
      assert rows[i] in rows && Permits(rows[i], m);
    } else {
      forall e | e in rows
        ensures !Permits(e, m)
      {
        var j :| 0 <= j < |rows| && rows[j] == e;
        assert !Follows(rows[j], m.body.source, m.body.skill, m.header.sequence19);
      }
    }
  }

  lemma PayableIff(b: Battle, uid: Uid, m: Message)
    requires m.body.Receipt?
    ensures SpendsWitness(b, uid, m) <==> uid in b.hits && exists w <- b.hits[uid] :: Pays(w, m)
    ensures SpendsWitness(b, uid, m) || SpendsExtra(b, uid, m) <==> Payable(b, uid, m)
  {
    RowsPay(Rows(b.hits, uid), m);
    RowsPermit(Rows(b.extras, uid), m);
    hide FirstWitness, FirstExtra, Pays, Permits;
  }

  lemma ReceiptReasons(c: Catalog, b: Battle, uid: Uid, m: Message)
    requires m.body.Receipt?
    ensures Settles(JudgeReceipt(c, b, uid, m), ReceiptOffence(uid, m), ReceiptOddity(c, b, uid, m))
  {
    PayableIff(b, uid, m);
    hide SpendsWitness, SpendsExtra, Payable;
  }

  lemma PickupReasons(b: Battle, uid: Uid, m: Message)
    requires m.body.Pickup?
    ensures Settles(JudgePickup(b, uid, m), PickupOffence(b, uid, m), PickupOddity(b, uid, m))
  {
    var holds, p := Registry(b, m), m.body;
    assert holds == b.Holds(p.chest);
    assert forall who :: HeldBy(holds, who, p.key) <==> Reserved(holds, who, p.key);
    assert Held(holds, p.key) <==> exists who <- holds :: Reserved(holds, who, p.key);
    assert HeldByOther(holds, p.player, p.key)
      <==> exists other <- holds :: other != p.player && Reserved(holds, other, p.key);
    hide HeldBy, Held, HeldByOther;
  }

  lemma NoticeReasons(b: Battle, uid: Uid, m: Message)
    requires m.body.Terminal? || m.body.Countdown?
    ensures Settles(JudgeTerminal(b, uid, m), NoticeOffence(b, uid, m), NoticeOddity(b, uid, m))
  {
  }

  lemma RebirthReasons(b: Battle, uid: Uid, m: Message)
    requires m.body.Snapshot? || m.body.Reborn?
    ensures Settles(JudgeReborn(b, uid, m), RebirthOffence(b, uid, m), RebirthOddity(b, uid, m))
  {
    if m.body.Snapshot? {
      assert forall i :: 0 <= i < |m.body.rows| ==>
          (RowMatches(b.roster, i, m.body.rows[i]) <==> TrueRow(b, i, m.body.rows[i]));
      hide RowMatches, TrueRow;
    }
  }

  lemma TransformReasons(b: Battle, uid: Uid, m: Message, now: real)
    requires m.body.Transform?
    ensures Settles(JudgeTransform(b, uid, m, now), PairOffence(b, uid, m), TransformOddity(b, uid, m, now))
  {
  }

  lemma SlipReasons(b: Battle, uid: Uid, m: Message)
    requires m.body.Slip?
    ensures Settles(JudgeSlip(b, uid, m), PairOffence(b, uid, m), SlipOddity(b, uid, m))
  {
  }

  /** Every event of a member is relayed if and only if nothing speaks against it. */
  lemma Reasons(c: Catalog, b: Battle, uid: Uid, m: Message, now: real)
    requires b.live && uid in b.members && OfMembers(b, m)
    ensures Settles(Judge(c, b, uid, m, now), Offends(b, uid, m), Odd(c, b, uid, m, now))
  {
    assert !OfNpc(b, m);
    hide OfNpc, OfMembers, JudgePickup, JudgeReceipt, JudgeTerminal, JudgeReborn, JudgeTransform, JudgeSlip,
      JudgeOrdinary, Settles, PickupOffence, PickupOddity, ReceiptOffence, ReceiptOddity, NoticeOffence, NoticeOddity,
      RebirthOffence, RebirthOddity, PairOffence, TransformOddity, SlipOddity, OrdinaryOffence, OrdinaryOddity;
    match m.body {
      case Malformed => TrivialReasons();
      case Unlisted(_) => TrivialReasons();
      case Series => TrivialReasons();
      case Pickup(_, _, _, _, _, _) => PickupReasons(b, uid, m);
      case Receipt(_, _, _, _, _) => ReceiptReasons(c, b, uid, m);
      case Terminal(_, _) => NoticeReasons(b, uid, m);
      case Countdown(_, _, _) => NoticeReasons(b, uid, m);
      case Snapshot(_) => RebirthReasons(b, uid, m);
      case Reborn(_, _, _) => RebirthReasons(b, uid, m);
      case Transform(_, _) => TransformReasons(b, uid, m, now);
      case Slip(_, _, _, _) => SlipReasons(b, uid, m);
      case _ => OrdinaryReasons(b, uid, m);
    }
  }

  lemma TrivialReasons()
    ensures Settles(Reject, true, false) && Settles(Quiet, false, true)
    ensures Settles(Reject, true, true) && Settles(Quiet, true, true)
  {
  }

  // ---------------------------------------------------------------- actors of a cooperative battle

  function Named(m: Message): Uid {
    match m.body
    case Hit(target, _, _, _, _, _, _) => target
    case State(target, _, _, _, _, _, _) => target
    case Owned(_, actor, _, _, _) => actor
    case _ => m.header.sender
  }

  predicate Lives(b: Battle, actor: Uid) { actor in b.npcs.actors && b.npcs.actors[actor].active }

  predicate ActorOffence(uid: Uid, m: Message) { !m.body.Motion? && m.header.sender != uid }

  /** Nothing newer was accepted of this actor since its present life began. */
  predicate NewerOfActor(b: Battle, uid: Uid, actor: Uid, sequence: int) {
    && (actor in b.npcs.actors ==> b.npcs.actors[actor].sequence < sequence)
    && ((uid, actor) in b.npcs.versions ==> b.npcs.versions[(uid, actor)] < sequence)
  }

  predicate OldActorMotion(b: Battle, m: Message) {
    && Named(m) in b.npcs.motion
    && (|| m.header.sequence15 < b.npcs.motion[Named(m)].header.sequence15
        || (m.header.sequence15 == b.npcs.motion[Named(m)].header.sequence15
            && b.npcs.motion[Named(m)] == Message(m.header.(sequence19 := 0), m.body)))
  }

  predicate ActorOddity(b: Battle, uid: Uid, m: Message) {
    || uid != b.owner || !Lives(b, Named(m)) || ForeignPair(b, m)
    || (m.body.Owned? && m.body.id == 8122 && m.body.operation > 7)
    || (m.body.State? && (m.body.op == OtherOperation || m.body.code > 255))
    || ((m.body.Hit? || m.body.State?) && m.body.source != 0 && m.body.source !in b.members
        && !Lives(b, m.body.source))
    || (m.body.Motion? && (!MotionHeader(m) || OldActorMotion(b, m)))
    || (!m.body.Motion? && (!GenericHeader(m) || !NewerOfActor(b, uid, Named(m), m.header.sequence19)))
  }

  lemma NpcIff(b: Battle, m: Message)
    ensures OfNpc(b, m) <==> !OfMembers(b, m)
    ensures !OfMembers(b, m) ==> ActorField(m) == Some(Named(m))
  {
  }

  lemma ActorReasons(b: Battle, uid: Uid, m: Message)
    requires OfNpc(b, m)
    ensures JudgeNpc(b, uid, m) == PassNpc <==> !ActorOffence(uid, m) && !ActorOddity(b, uid, m)
    ensures JudgeNpc(b, uid, m) in {PassNpc, Reject, Quiet}
    ensures JudgeNpc(b, uid, m) == Reject ==> ActorOffence(uid, m)
    ensures JudgeNpc(b, uid, m) == Quiet ==> ActorOddity(b, uid, m)
  {
    NpcIff(b, m);
  }
}
