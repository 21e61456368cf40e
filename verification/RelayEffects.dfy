/** What a relayed event is handed to and what it leaves behind, field by field, on both transports and over runs. */
module RelayEffects {
  import opened BattleEvents
  import opened BattleRules
  import opened BattleDelivery
  import opened BattleLedgers
  import opened RelayLaws

  /** Who a relayed event is for: the Host, the counted-down player or the attacker, or everybody else. */
  function Audience(b: Battle, uid: Uid, m: Message): set<Uid> {
    if m.body.Pickup? && m.body.phase == Request then {b.owner}
    else if m.body.Countdown? then {m.body.player}
    else if m.body.Receipt? then {m.body.source} - {uid}
    else b.members - {uid}
  }

  ghost predicate Watermarked(b: Battle, uid: Uid, m: Message, last: map<(Uid, int), int>, motion: map<Uid, Message>) {
    && (MotionHeader(m) ==>
          && last == b.last[(uid, 15) := m.header.sequence15]
          && motion == b.motion[uid := Message(m.header.(sequence19 := 0), m.body)])
    && (!MotionHeader(m) ==> last == b.last[(uid, 19) := m.header.sequence19] && motion == b.motion)
  }

  // ---------------------------------------------------------------- objects

  ghost predicate SameElsewhere<K(!new), V>(x: map<K, V>, y: map<K, V>, key: K) {
    forall k :: k != key ==> (k in x <==> k in y) && (k in x ==> x[k] == y[k])
  }

  ghost predicate StatesChange(b: Battle, m: Message, states: States) {
    && (!m.body.State? ==> states == b.states)
    && (m.body.State? ==> SameElsewhere(states, b.states, (m.body.target, m.body.code)))
    && (m.body.State? && m.body.op == Apply ==>
          && (m.body.target, m.body.code) in states
          && states[(m.body.target, m.body.code)] == (m.body.source, m.body.parameter, m.body.event))
    && (m.body.State? && m.body.op == Cancel ==> (m.body.target, m.body.code) !in states)
  }

  ghost predicate CollectiblesChange(b: Battle, m: Message, collectibles: set<(bool, int)>) {
    && (!m.body.Collectible? ==> collectibles == b.collectibles)
    && (m.body.Collectible? && m.body.family.Some? ==>
          collectibles == b.collectibles + {(m.body.family.value, m.body.item)})
  }

  ghost predicate TouchesProjectile(body: Body) {
    body.Create? || body.Result? || body.Report? || body.Effect? || body.End?
  }

  ghost predicate ProjectilesChange(b: Battle, uid: Uid, m: Message, projectiles: map<int, Projectile>) {
    && (!TouchesProjectile(m.body) || m.body.Effect? ==> projectiles == b.projectiles)
    && (TouchesProjectile(m.body) ==>
          SameElsewhere(projectiles, b.projectiles, m.body.key) && m.body.key in projectiles)
    && (m.body.Create? ==> projectiles[m.body.key] == Projectile(uid, m.body.source, true, {}))
    && (TouchesProjectile(m.body) && !m.body.Create? && m.body.key in b.projectiles ==>
          var p, q := b.projectiles[m.body.key], projectiles[m.body.key];
          && q.owner == p.owner && q.source == p.source && q.alive == (p.alive && !m.body.End?)
          && (m.body.Report? ==> q.reporters == p.reporters + {uid})
          && (m.body.Result? ==> q.reporters == if p.owner == uid then p.reporters else p.reporters - {uid})
          && (m.body.End? ==> q.reporters == p.reporters))
  }

  // ---------------------------------------------------------------- reservations

  ghost predicate HoldsChange(old_: map<Uid, Hold>, p: Body, new_: map<Uid, Hold>)
    requires p.Pickup?
  {
    && SameElsewhere(new_, old_, p.player)
    && (p.player in new_ <==> p.phase != Completion && p.answer == 1)
    && (p.player in new_ ==> new_[p.player].key == p.key && (new_[p.player].approved <==> p.phase == Response))
  }

  ghost predicate RegistriesChange(b: Battle, m: Message, pickups: map<Uid, Hold>, chests: map<Uid, Hold>) {
    && (m.body.Pickup? && m.body.chest ==> pickups == b.pickups && HoldsChange(b.chests, m.body, chests))
    && (m.body.Pickup? && !m.body.chest ==> chests == b.chests && HoldsChange(b.pickups, m.body, pickups))
    && (!m.body.Pickup? ==> chests == b.chests && pickups == b.pickups)
  }

  // ---------------------------------------------------------------- hit receipts

  /** A bounded queue of 32 after a row was put at its end. */
  ghost predicate Pushed<T>(old_: seq<T>, row: T, new_: seq<T>) {
    && |new_| == (if |old_| < 32 then |old_| + 1 else 32)
    && new_[|new_| - 1] == row && new_[..|new_| - 1] == old_[|old_| + 1 - |new_|..]
  }

  /** A queue after the row at i was taken out, the first of its kind. */
  ghost predicate Taken<T>(old_: seq<T>, i: nat, new_: seq<T>) {
    i < |old_| && new_ == old_[..i] + old_[i + 1..]
  }

  /** A foreign hit with an effect-free skill leaves a witness. */
  ghost predicate IsWitnessed(c: Catalog, b: Battle, uid: Uid, m: Message) {
    && m.body.Hit? && m.body.skill in c.effectFree && m.body.source in b.members && m.body.source != uid
    && m.body.mode == 0
  }

  ghost predicate FitsWitness(c: Catalog, m: Message, w: Witness)
    requires m.body.Hit?
  {
    && w.source == m.body.source && w.skill == m.body.skill && w.status == m.body.status
    && w.sequence == m.header.sequence19
    && (m.body.skill in c.guardBreak && m.body.status == 2 && m.body.callback == 1 ==> w.outcomes == {2, 4})
    && (!(m.body.skill in c.guardBreak && m.body.status == 2 && m.body.callback == 1) ==> w.outcomes == {m.body.status})
  }

  function QueueOf<T>(queues: map<Uid, seq<T>>, uid: Uid): seq<T> {
    if uid in queues then queues[uid] else []
  }

  /** Is a receipt paid for by a witness? Otherwise it uses up the right to a follow-up. */
  ghost predicate Witnessed(b: Battle, uid: Uid, m: Message) {
    m.body.Receipt? && exists w <- QueueOf(b.hits, uid) :: Pays(w, m)
  }

  ghost predicate TakesWitness(m: Message, rows: seq<Witness>, rest: seq<Witness>)
    requires m.body.Receipt?
  {
    exists i: nat :: Taken(rows, i, rest) && Pays(rows[i], m) && forall j :: 0 <= j < i ==> !Pays(rows[j], m)
  }

  ghost predicate TakesFollowUp(m: Message, rows: seq<Extra>, rest: seq<Extra>)
    requires m.body.Receipt?
  {
    exists i: nat :: Taken(rows, i, rest) && Permits(rows[i], m) && forall j :: 0 <= j < i ==> !Permits(rows[j], m)
  }

  ghost predicate AddsWitness(c: Catalog, m: Message, rows: seq<Witness>, more: seq<Witness>)
    requires m.body.Hit?
  {
    more != [] && FitsWitness(c, m, more[|more| - 1]) && Pushed(rows, more[|more| - 1], more)
  }

  ghost predicate WitnessesChange(c: Catalog, b: Battle, uid: Uid, m: Message, hits: Hits) {
    && SameElsewhere(hits, b.hits, uid)
    && (IsWitnessed(c, b, uid, m) ==> AddsWitness(c, m, QueueOf(b.hits, uid), QueueOf(hits, uid)))
    && (Witnessed(b, uid, m) ==> TakesWitness(m, QueueOf(b.hits, uid), QueueOf(hits, uid)))
    && (!IsWitnessed(c, b, uid, m) && !Witnessed(b, uid, m) ==> hits == b.hits)
  }

  ghost predicate FollowUpsChange(b: Battle, uid: Uid, m: Message, extras: map<Uid, seq<Extra>>) {
    && SameElsewhere(extras, b.extras, uid)
    && (Witnessed(b, uid, m) && m.body.status in {1, 5} ==>
          Pushed(QueueOf(b.extras, uid), Extra(m.body.source, m.body.skill, m.header.sequence19), QueueOf(extras, uid)))
    && (m.body.Receipt? && !Witnessed(b, uid, m) ==>
          TakesFollowUp(m, QueueOf(b.extras, uid), QueueOf(extras, uid)))
    && (!m.body.Receipt? || (Witnessed(b, uid, m) && m.body.status !in {1, 5}) ==> extras == b.extras)
  }

  // ---------------------------------------------------------------- one relayed event

  ghost predicate SameSituation(b: Battle, x: Battle) {
    && x.live == b.live && x.pair == b.pair && x.mode == b.mode && x.owner == b.owner && x.roster == b.roster
    && x.members == b.members && x.npcs == b.npcs
  }

  /** Everything an accepted event leaves behind, except for selections and cached decisions. */
  ghost predicate Leaves(c: Catalog, b: Battle, uid: Uid, m: Message, x: Battle) {
    && SameSituation(b, x) && Watermarked(b, uid, m, x.last, x.motion)
    && StatesChange(b, m, x.states) && CollectiblesChange(b, m, x.collectibles)
    && ProjectilesChange(b, uid, m, x.projectiles) && RegistriesChange(b, m, x.pickups, x.chests)
    && WitnessesChange(c, b, uid, m, x.hits) && FollowUpsChange(b, uid, m, x.extras)
  }

  lemma WitnessRow(rows: seq<Witness>, m: Message)
    requires m.body.Receipt?
    ensures var i := FirstWitness(rows, m.body.source, m.body.skill, m.body.status, m.header.sequence19);
      i < |rows| ==>
        Taken(rows, i, Without(rows, i)) && Pays(rows[i], m) && forall j :: 0 <= j < i ==> !Pays(rows[j], m)
  {
    hide FirstWitness;
  }

  lemma ExtraRow(rows: seq<Extra>, m: Message)
    requires m.body.Receipt?
    ensures var i := FirstExtra(rows, m.body.source, m.body.skill, m.header.sequence19);
      i < |rows| ==>
        Taken(rows, i, Without(rows, i)) && Permits(rows[i], m) && forall j :: 0 <= j < i ==> !Permits(rows[j], m)
  {
    hide FirstExtra;
  }

  lemma PushedNewest<T>(rows: seq<T>, row: T)
    ensures Newest(rows + [row]) != [] && Newest(rows + [row])[|Newest(rows + [row])| - 1] == row
    ensures Pushed(rows, row, Newest(rows + [row]))
  {
  }

  lemma CommitFields(c: Catalog, b: Battle, uid: Uid, m: Message)
    ensures var x := Commit(c, b, uid, m);
      && SameSituation(b, x) && x.states == StatesAfter(b.states, m) && x.motion == MotionAfter(b.motion, uid, m)
      && x.last == b.last[(uid, m.Lane()) := m.Sequence()]
      && x.collectibles == CollectiblesAfter(b.collectibles, m)
      && x.projectiles == ProjectilesAfter(b.projectiles, uid, m)
      && x.pickups == (if m.body.Pickup? && !m.body.chest then HoldsAfter(b.pickups, m.body) else b.pickups)
      && x.chests == (if m.body.Pickup? && m.body.chest then HoldsAfter(b.chests, m.body) else b.chests)
      && x.hits == HitsAfter(c, b, uid, m) && x.extras == ExtrasAfter(b, uid, m)
  {
    hide HitsAfter, ExtrasAfter, HoldsAfter, ProjectilesAfter, StatesAfter, CollectiblesAfter, MotionAfter;
  }

  lemma WatermarkSet(b: Battle, uid: Uid, m: Message)
    ensures Watermarked(b, uid, m, b.last[(uid, m.Lane()) := m.Sequence()], MotionAfter(b.motion, uid, m))
  {
  }

  lemma StatesSet(b: Battle, m: Message)
    ensures StatesChange(b, m, StatesAfter(b.states, m))
    ensures m.body.Collectible? ==> m.body.family.Some? ==>
      CollectiblesChange(b, m, CollectiblesAfter(b.collectibles, m))
    ensures !m.body.Collectible? ==> CollectiblesChange(b, m, CollectiblesAfter(b.collectibles, m))
  {
  }

  lemma ProjectilesSet(b: Battle, uid: Uid, m: Message)
    requires m.body.Result? || m.body.Report? || m.body.Effect? || m.body.End? ==> m.body.key in b.projectiles
    ensures ProjectilesChange(b, uid, m, ProjectilesAfter(b.projectiles, uid, m))
  {
  }

  lemma HoldsSet(holds: map<Uid, Hold>, p: Body)
    requires p.Pickup?
    ensures HoldsChange(holds, p, HoldsAfter(holds, p))
  {
  }

  lemma WitnessFits(c: Catalog, b: Battle, uid: Uid, m: Message)
    requires m.body.Hit?
    ensures Recorded(c, b.members, uid, m) <==> IsWitnessed(c, b, uid, m)
    ensures IsWitnessed(c, b, uid, m) && !MotionHeader(m) ==> FitsWitness(c, m, WitnessOf(c, m))
  {
  }

  lemma SetElsewhere<K(!new), V>(x: map<K, V>, key: K, value: V)
    ensures SameElsewhere(x[key := value], x, key) && SameElsewhere(x, x, key)
  {
  }

  lemma HitsOfHit(c: Catalog, b: Battle, uid: Uid, m: Message)
    requires m.body.Hit?
    ensures HitsAfter(c, b, uid, m) == if Recorded(c, b.members, uid, m)
                                       then b.hits[uid := Newest(QueueOf(b.hits, uid) + [WitnessOf(c, m)])] else b.hits
  {
    hide Recorded, WitnessOf, Newest;
  }

  lemma AddsNewest(c: Catalog, m: Message, rows: seq<Witness>)
    requires m.body.Hit? && FitsWitness(c, m, WitnessOf(c, m))
    ensures AddsWitness(c, m, rows, Newest(rows + [WitnessOf(c, m)]))
  {
    PushedNewest(rows, WitnessOf(c, m));
    hide FitsWitness, WitnessOf, Newest;
  }

  lemma QueueSet<T>(queues: map<Uid, seq<T>>, uid: Uid, rows: seq<T>)
    ensures QueueOf(queues[uid := rows], uid) == rows
  {
  }

  lemma HitWitnesses(c: Catalog, b: Battle, uid: Uid, m: Message)
    requires m.body.Hit?
    ensures WitnessesChange(c, b, uid, m, HitsAfter(c, b, uid, m))
  {
    var rows := QueueOf(b.hits, uid);
    var more := Newest(rows + [WitnessOf(c, m)]);
    HitsOfHit(c, b, uid, m);
    WitnessFits(c, b, uid, m);
    QueueSet(b.hits, uid, more);
    SetElsewhere(b.hits, uid, more);
    assert !Witnessed(b, uid, m);
    hide HitsAfter, QueueOf, Recorded, IsWitnessed, FitsWitness, WitnessOf, Newest, SameElsewhere, Witnessed,
      AddsWitness;
    if IsWitnessed(c, b, uid, m) {
      AddsNewest(c, m, rows);
    }
  }

  lemma TakesFirst(rows: seq<Witness>, m: Message)
    requires m.body.Receipt?
    ensures var i := FirstWitness(rows, m.body.source, m.body.skill, m.body.status, m.header.sequence19);
      i < |rows| ==> TakesWitness(m, rows, Without(rows, i))
  {
    WitnessRow(rows, m);
    hide FirstWitness, Taken, Pays, Without;
  }

  lemma TakesFirstExtra(rows: seq<Extra>, m: Message)
    requires m.body.Receipt?
    ensures var i := FirstExtra(rows, m.body.source, m.body.skill, m.header.sequence19);
      i < |rows| ==> TakesFollowUp(m, rows, Without(rows, i))
  {
    ExtraRow(rows, m);
    hide FirstExtra, Taken, Permits, Without;
  }

  lemma WitnessedIff(b: Battle, uid: Uid, m: Message)
    ensures SpendsWitness(b, uid, m) <==> Witnessed(b, uid, m)
  {
    if m.body.Receipt? {
      RowsPay(Rows(b.hits, uid), m);
    }
    hide FirstWitness, Pays;
  }

  lemma ReceiptWitnesses(c: Catalog, b: Battle, uid: Uid, m: Message)
    requires m.body.Receipt?
    ensures WitnessesChange(c, b, uid, m, HitsAfter(c, b, uid, m))
  {
    var rows := QueueOf(b.hits, uid);
    WitnessedIff(b, uid, m);
    TakesFirst(rows, m);
    SetElsewhere(b.hits, uid, []);
    assert !IsWitnessed(c, b, uid, m);
    hide FirstWitness, TakesWitness, Without, SameElsewhere, Witnessed, IsWitnessed;
    if SpendsWitness(b, uid, m) {
      SetElsewhere(b.hits, uid, Without(rows, WitnessFor(b, uid, m)));
    }
  }

  lemma WitnessesSet(c: Catalog, b: Battle, uid: Uid, m: Message)
    ensures WitnessesChange(c, b, uid, m, HitsAfter(c, b, uid, m))
  {
    if m.body.Hit? {
      HitWitnesses(c, b, uid, m);
    } else if m.body.Receipt? {
      ReceiptWitnesses(c, b, uid, m);
    } else {
      SetElsewhere(b.hits, uid, []);
    }
    hide AddsWitness, TakesWitness, SameElsewhere;
  }

  lemma FollowUpsSet(b: Battle, uid: Uid, m: Message)
    requires m.body.Receipt? ==> Payable(b, uid, m)
    ensures FollowUpsChange(b, uid, m, ExtrasAfter(b, uid, m))
  {
    var rows := QueueOf(b.extras, uid);
    SetElsewhere(b.extras, uid, []);
    WitnessedIff(b, uid, m);
    hide SameElsewhere, Witnessed;
    if m.body.Receipt? {
      PayableIff(b, uid, m);
      hide Payable;
      if SpendsWitness(b, uid, m) {
        var row := Extra(m.body.source, m.body.skill, m.header.sequence19);
        PushedNewest(rows, row);
        SetElsewhere(b.extras, uid, Newest(rows + [row]));
        hide Newest, Pushed, SpendsWitness;
      } else {
        TakesFirstExtra(rows, m);
        SetElsewhere(b.extras, uid, Without(rows, ExtraFor(b, uid, m)));
        hide FirstExtra, TakesFollowUp, Without, SpendsWitness;
      }
    }
  }

  lemma CommitLeaves(c: Catalog, b: Battle, uid: Uid, m: Message, now: real)
    requires !Odd(c, b, uid, m, now)
    ensures Leaves(c, b, uid, m, Commit(c, b, uid, m))
  {
    hide Commit, Watermarked, SameSituation, StatesChange, CollectiblesChange, ProjectilesChange, HoldsChange,
      WitnessesChange, FollowUpsChange, Payable, HitsAfter, ExtrasAfter, HoldsAfter, ProjectilesAfter, StatesAfter,
      CollectiblesAfter, MotionAfter;
    CommitFields(c, b, uid, m);
    WatermarkSet(b, uid, m);
    StatesSet(b, m);
    ProjectilesSet(b, uid, m);
    if m.body.Pickup? {
      HoldsSet(b.pickups, m.body);
      HoldsSet(b.chests, m.body);
    }
    WitnessesSet(c, b, uid, m);
    FollowUpsSet(b, uid, m);
  }

  lemma AudienceOf(b: Battle, uid: Uid, m: Message)
    ensures Recipients(b, uid, m) == Audience(b, uid, m)
  {
  }

  // ---------------------------------------------------------------- the single transport

  lemma LeavesApart(c: Catalog, b: Battle, uid: Uid, m: Message, x: Battle, y: Battle)
    requires Leaves(c, b, uid, m, x) && y == x.(versions := y.versions, selections := y.selections, cache := y.cache)
    ensures Leaves(c, b, uid, m, y)
  {
    hide Watermarked, StatesChange, CollectiblesChange, ProjectilesChange, RegistriesChange, WitnessesChange,
      FollowUpsChange;
  }

  /** An event of a fighter against which nothing speaks is handed to its audience and recorded. */
  lemma HandledIsRelayed(c: Catalog, b: Battle, uid: Uid, m: Message, now: real)
    requires b.live && uid in b.members && uid in b.roster.Values && OfMembers(b, m)
    requires !Offends(b, uid, m) && !Odd(c, b, uid, m, now)
    ensures Received(c, b, uid, m, now) == Done(Audience(b, uid, m))
    ensures Leaves(c, b, uid, m, Direct(c, b, uid, m, now))
  {
    hide Judge, Leaves, Offends, Odd, Audience, OfMembers, Recipients, Commit;
    Reasons(c, b, uid, m, now);
    AudienceOf(b, uid, m);
    CommitLeaves(c, b, uid, m, now);
    ObserveFrame(Commit(c, b, uid, m), uid, m, None, now);
    hide Observe;
    LeavesApart(c, b, uid, m, Commit(c, b, uid, m), Direct(c, b, uid, m, now));
  }

  /** Otherwise it is refused for an offence or ignored for an oddity, and in both cases nothing is recorded. */
  lemma HandledIsDropped(c: Catalog, b: Battle, uid: Uid, m: Message, now: real)
    requires b.live && uid in b.members && uid in b.roster.Values && OfMembers(b, m)
    requires Offends(b, uid, m) || Odd(c, b, uid, m, now)
    ensures var out, x := Received(c, b, uid, m, now), Direct(c, b, uid, m, now);
      && (out == Rejected || out == Done({}))
      && (!Odd(c, b, uid, m, now) ==> out == Rejected) && (!Offends(b, uid, m) ==> out == Done({}))
      && (!m.body.Transform? || out == Rejected ==> x == b)
  {
    hide Judge, Offends, Odd, OfMembers, Recipients, Commit;
    Reasons(c, b, uid, m, now);
    if !m.body.Transform? {
      NotExpired(c, b, uid, m, now);
    }
  }

  lemma NotExpired(c: Catalog, b: Battle, uid: Uid, m: Message, now: real)
    requires b.live && uid in b.members && OfMembers(b, m) && !m.body.Transform?
    ensures Judge(c, b, uid, m, now) != Expire
  {
    assert !OfNpc(b, m);
    hide OfNpc, JudgeNpc, JudgePickup, JudgeReceipt, JudgeTerminal, JudgeReborn, JudgeTransform, JudgeSlip,
      JudgeOrdinary, OfMembers;
    match m.body {
      case Malformed =>
      case Unlisted(_) =>
      case Series =>
      case Pickup(_, _, _, _, _, _) => PickupVerdict(b, uid, m);
      case Receipt(_, _, _, _, _) => ReceiptVerdict(c, b, uid, m);
      case Terminal(_, _) => TerminalVerdict(b, uid, m);
      case Countdown(_, _, _) => TerminalVerdict(b, uid, m);
      case Snapshot(_) => RebornVerdict(b, uid, m);
      case Reborn(_, _, _) => RebornVerdict(b, uid, m);
      case Slip(_, _, _, _) => SlipVerdict(b, uid, m);
      case _ => OrdinaryVerdict(b, uid, m);
    }
  }

  // ---------------------------------------------------------------- selections

  /** A selection that lasts: of another fighter, for exactly fifteen seconds, and handed to that fighter. */
  predicate LastingSelection(b: Battle, uid: Uid, m: Message, to: Option<set<Uid>>)
    requires m.body.Select?
  {
    && m.body.target in b.roster.Values && m.body.target != uid && m.body.timeout == 15000
    && (to.Some? ==> m.body.target in to.value)
  }

  lemma LeaseSet(selections: map<Uid, Lease>, uid: Uid, lasts: bool, lease: Lease)
    ensures var x := if lasts then selections[uid := lease] else selections - {uid};
      SameElsewhere(x, selections, uid) && (uid in x <==> lasts) && (uid in x ==> x[uid] == lease)
  {
  }

  /** A newer selection of a fighter replaces that fighter's lease; nothing else does. */
  lemma SelectionObserved(b: Battle, uid: Uid, m: Message, to: Option<set<Uid>>, now: real)
    ensures var x := Observe(b, uid, m, to, now);
      var own := b.live && uid in b.roster.Values && m.body.Select? && m.header.sender == uid && m.body.player == uid
                 && GenericHeader(m) && (uid in b.versions ==> b.versions[uid] < m.header.sequence19);
      && (!own ==> x == b)
      && (own ==>
            && x.versions == b.versions[uid := m.header.sequence19]
            && SameElsewhere(x.selections, b.selections, uid)
            && (uid in x.selections <==> LastingSelection(b, uid, m, to))
            && (uid in x.selections ==> x.selections[uid] == Lease(m.body.target, now + 15.0)))
  {
    if m.body.Select? {
      LeaseSet(b.selections, uid, LastingSelection(b, uid, m, to), Lease(m.body.target, now + 15.0));
    }
    hide SameElsewhere;
  }

  // ---------------------------------------------------------------- the dispatch with its cache

  predicate Unknown(cache: seq<Entry>, uid: Uid, m: Message) {
    forall e <- cache :: !(e.uid == uid && e.message == m)
  }

  function Aimed(b: Battle, to: Option<set<Uid>>): set<Uid> { if to.Some? then to.value else b.members }

  ghost predicate CacheGains(old_: seq<Entry>, e: Entry, new_: seq<Entry>) {
    && |new_| == (if |old_| < 128 then |old_| + 1 else 128)
    && new_[|new_| - 1] == e && new_[..|new_| - 1] == old_[|old_| + 1 - |new_|..]
  }

  lemma UnknownIff(cache: seq<Entry>, uid: Uid, m: Message)
    ensures Lookup(cache, uid, m) == |cache| <==> Unknown(cache, uid, m)
  {
    var i := Lookup(cache, uid, m);
    hide Lookup;
    if i == |cache| {
      forall e | e in cache
        ensures !(e.uid == uid && e.message == m)
      {
        var j :| 0 <= j < |cache| && cache[j] == e;
      }
    } else {
      assert cache[i] in cache;
    }
  }

  lemma Remembered(cache: seq<Entry>, e: Entry)
    requires e.outputs != {}
    ensures CacheGains(cache, e, Remember(cache, e))
  {
  }

  /** A new event of a fighter is handed to those of its audience it is aimed at, recorded, and remembered. */
  lemma DispatchedIsRelayed(c: Catalog, b: Battle, uid: Uid, m: Message, to: Option<set<Uid>>, now: real)
    requires b.live && uid in b.members && uid in b.roster.Values && OfMembers(b, m)
    requires Unknown(b.cache, uid, m) && Aimed(b, to) <= b.roster.Values
    requires !Offends(b, uid, m) && !Odd(c, b, uid, m, now)
    ensures var out, x := Handed(c, b, uid, m, to, now), Dispatch(c, b, uid, m, to, now);
      && out == Done(Audience(b, uid, m) * Aimed(b, to)) && Leaves(c, b, uid, m, x)
      && (Audience(b, uid, m) == {} ==> x.cache == b.cache)
      && (Audience(b, uid, m) != {} ==>
            CacheGains(b.cache, Entry(uid, m, Audience(b, uid, m), out.to), x.cache))
  {
    hide Judge, Leaves, Odd, Audience, OfMembers, Recipients, Commit, Lookup, Remember, Observe, CacheGains;
    Reasons(c, b, uid, m, now);
    UnknownIff(b.cache, uid, m);
    AudienceOf(b, uid, m);
    CommitLeaves(c, b, uid, m, now);
    CommitKeepsCache(c, b, uid, m);
    RelayFresh(c, b, uid, m, to, now);
    var audience := Audience(b, uid, m);
    if audience != {} {
      Remembered(b.cache, Entry(uid, m, audience, audience * Aimed(b, to)));
    } else {
      RememberNothing(b.cache, Entry(uid, m, audience, audience * Aimed(b, to)));
    }
    DispatchApart(c, b, uid, m, to, now);
    hide Handed, Relayed, Dispatch;
    LeavesApart(c, b, uid, m, Commit(c, b, uid, m), Dispatch(c, b, uid, m, to, now));
  }

  lemma RememberNothing(cache: seq<Entry>, e: Entry)
    requires e.outputs == {}
    ensures Remember(cache, e) == cache
  {
  }

  /** The whole dispatch differs from its relay by the selection it observes. */
  lemma DispatchApart(c: Catalog, b: Battle, uid: Uid, m: Message, to: Option<set<Uid>>, now: real)
    ensures var x, y := Dispatch(c, b, uid, m, to, now), Relayed(c, b, uid, m, to, now);
      x == y.(versions := x.versions, selections := x.selections)
  {
    hide Relayed, Handed, Executes, Observe;
    if Handed(c, b, uid, m, to, now).Done? {
      ObserveFrame(Relayed(c, b, uid, m, to, now), uid, m, Some(Handed(c, b, uid, m, to, now).to), now);
    }
  }

  /** A remembered event still describes the battle: no newer one came, its state stands, its projectile lives. */
  predicate StillCurrent(b: Battle, uid: Uid, m: Message) {
    && (m.body.Motion? ==> ((uid, 15) in b.last ==> b.last[(uid, 15)] <= m.header.sequence15))
    && (!m.body.Motion? ==> ((uid, 19) in b.last ==> b.last[(uid, 19)] <= m.header.sequence19))
    && (m.body.State? && m.body.op == Apply ==>
          && (m.body.target, m.body.code) in b.states
          && b.states[(m.body.target, m.body.code)] == (m.body.source, m.body.parameter, m.body.event))
    && (m.body.State? && m.body.op == Cancel ==> (m.body.target, m.body.code) !in b.states)
    && (m.body.Create? || m.body.Result? || m.body.Report? || m.body.Effect? ==> Alive(b, m.body.key))
  }

  lemma CurrentIff(b: Battle, uid: Uid, m: Message)
    ensures Deliverable(b, uid, m) <==> StillCurrent(b, uid, m)
  {
  }

  /**
   * A repeat is handed to those of the remembered audience it is aimed at and who did not get it yet, exactly when it
   * still describes the battle; the entry then remembers them too. Otherwise nothing happens.
   */
  lemma RepeatIsServed(c: Catalog, b: Battle, uid: Uid, m: Message, to: Option<set<Uid>>, now: real, i: nat)
    requires b.live && uid in b.members && uid in b.roster.Values && !m.body.Malformed?
    requires Aimed(b, to) <= b.roster.Values
    requires i < |b.cache| && b.cache[i].uid == uid && b.cache[i].message == m && Unknown(b.cache[..i], uid, m)
    ensures var e, out, x := b.cache[i], Handed(c, b, uid, m, to, now), Dispatch(c, b, uid, m, to, now);
      && (!StillCurrent(b, uid, m) ==> out == Done({}) && x == b)
      && (StillCurrent(b, uid, m) ==>
            && out == Done(e.outputs * Aimed(b, to) - e.delivered)
            && x.cache == b.cache[i := e.(delivered := e.delivered + out.to)])
  {
    FirstEntry(b.cache, uid, m, i);
    CurrentIff(b, uid, m);
    hide Lookup, Deliverable, StillCurrent;
    if Deliverable(b, uid, m) {
      RelayCachedEntry(c, b, uid, m, to, now);
      DispatchApart(c, b, uid, m, to, now);
      hide Handed, Relayed, Dispatch;
    } else {
      RelayStale(c, b, uid, m, to, now);
    }
  }

  lemma FirstEntry(cache: seq<Entry>, uid: Uid, m: Message, i: nat)
    requires i < |cache| && cache[i].uid == uid && cache[i].message == m && Unknown(cache[..i], uid, m)
    ensures Lookup(cache, uid, m) == i
  {
    assert forall j | 0 <= j < i :: cache[j] == cache[..i][j] && cache[..i][j] in cache[..i];
    var k := Lookup(cache, uid, m);
    hide Lookup;
  }

  ghost predicate SameLeases(b: Battle, x: Battle) {
    x.live == b.live && x.roster == b.roster && x.versions == b.versions && x.selections == b.selections
  }

  lemma RelayedApart(c: Catalog, b: Battle, uid: Uid, m: Message, to: Option<set<Uid>>, now: real)
    ensures SameLeases(b, Relayed(c, b, uid, m, to, now))
         || SameLeases(After(c, b, uid, m, now), Relayed(c, b, uid, m, to, now))
  {
    hide Relayed, Handed, Deliverable, Lookup, Remember, Answer, After, Eligible, Targets;
    if Lookup(b.cache, uid, m) < |b.cache| {
      RepeatRelays(c, b, uid, m, to, now);
    } else if !Eligible(b, uid, m) || !(Targets(b, to) <= b.Fighters()) {
      RelayRefused(c, b, uid, m, to, now);
    } else {
      RelayFresh(c, b, uid, m, to, now);
    }
  }

  lemma SelectionUnexpired(c: Catalog, b: Battle, uid: Uid, m: Message, now: real)
    requires b.live && uid in b.members && m.body.Select?
    ensures Judge(c, b, uid, m, now) != Expire
  {
    assert OfMembers(b, m);
    hide *;
    NotExpired(c, b, uid, m, now);
  }

  /** Relaying a selection does not touch the leases yet. */
  lemma SelectionRelays(c: Catalog, b: Battle, uid: Uid, m: Message, to: Option<set<Uid>>, now: real)
    requires b.live && uid in b.members && m.body.Select?
    ensures SameLeases(b, Relayed(c, b, uid, m, to, now))
  {
    hide Relayed, Judge, Settled;
    RelayedApart(c, b, uid, m, to, now);
    SelectionUnexpired(c, b, uid, m, now);
    SettledApart(c, b, uid, m, Judge(c, b, uid, m, now));
  }

  lemma SettledApart(c: Catalog, b: Battle, uid: Uid, m: Message, v: Verdict)
    requires v != Expire
    ensures SameLeases(b, Settled(c, b, uid, m, v))
  {
  }

  lemma SelectionGate(c: Catalog, b: Battle, uid: Uid, m: Message, to: Option<set<Uid>>, now: real)
    requires m.body.Select? && Handed(c, b, uid, m, to, now).Done?
    ensures var y, served := Relayed(c, b, uid, m, to, now), Handed(c, b, uid, m, to, now).to;
      Dispatch(c, b, uid, m, to, now)
      == if (Unknown(b.cache, uid, m) || StillCurrent(b, uid, m)) && (m.body.target == 0 || m.body.target in served)
         then Observe(y, uid, m, Some(served), now) else y
  {
    hide Relayed, Handed, Observe, Unknown, StillCurrent, Lookup, Deliverable;
    UnknownIff(b.cache, uid, m);
    CurrentIff(b, uid, m);
  }

  /**
   * A dispatched selection, new or repeated, that still describes the battle replaces the sender's lease exactly when
   * it selects nobody or this very call hands it to the one it selects.
   */
  lemma DispatchedSelection(c: Catalog, b: Battle, uid: Uid, m: Message, to: Option<set<Uid>>, now: real)
    requires b.live && uid in b.members && uid in b.roster.Values && m.body.Select?
    requires Handed(c, b, uid, m, to, now).Done?
    ensures var x, served := Dispatch(c, b, uid, m, to, now), Handed(c, b, uid, m, to, now).to;
      var own := m.header.sender == uid && m.body.player == uid && GenericHeader(m)
                 && (uid in b.versions ==> b.versions[uid] < m.header.sequence19);
      var observed := own && (Unknown(b.cache, uid, m) || StillCurrent(b, uid, m))
                      && (m.body.target == 0 || m.body.target in served);
      && (!observed ==> x.versions == b.versions && x.selections == b.selections)
      && (observed ==>
            && x.versions == b.versions[uid := m.header.sequence19]
            && SameElsewhere(x.selections, b.selections, uid)
            && (uid in x.selections <==> LastingSelection(b, uid, m, Some(served)))
            && (uid in x.selections ==> x.selections[uid] == Lease(m.body.target, now + 15.0)))
  {
    var y, served := Relayed(c, b, uid, m, to, now), Handed(c, b, uid, m, to, now).to;
    hide Relayed, Handed, Observe, Unknown, StillCurrent, SameElsewhere, Dispatch;
    SelectionGate(c, b, uid, m, to, now);
    SelectionRelays(c, b, uid, m, to, now);
    SelectionObserved(y, uid, m, Some(served), now);
  }

  // ---------------------------------------------------------------- actors of a cooperative battle

  /** The Host's event of an actor against which nothing speaks goes to everybody else and moves that actor's filter. */
  lemma ActorIsRelayed(c: Catalog, b: Battle, uid: Uid, m: Message, now: real)
    requires b.live && uid in b.members && uid in b.roster.Values && !OfMembers(b, m)
    ensures var out, x := Received(c, b, uid, m, now), Direct(c, b, uid, m, now);
      && (!ActorOffence(uid, m) && !ActorOddity(b, uid, m) ==>
            && out == Done(b.members - {uid}) && x == b.(npcs := x.npcs) && x.npcs.actors == b.npcs.actors
            && (m.body.Motion? ==>
                  && x.npcs.versions == b.npcs.versions
                  && x.npcs.motion == b.npcs.motion[Named(m) := Message(m.header.(sequence19 := 0), m.body)])
            && (!m.body.Motion? ==>
                  && x.npcs.motion == b.npcs.motion
                  && x.npcs.versions == b.npcs.versions[(uid, Named(m)) := m.header.sequence19]))
      && (ActorOffence(uid, m) || ActorOddity(b, uid, m) ==> x == b && (out == Rejected || out == Done({})))
      && (!ActorOddity(b, uid, m) && ActorOffence(uid, m) ==> out == Rejected)
      && (!ActorOffence(uid, m) && ActorOddity(b, uid, m) ==> out == Done({}))
  {
    NpcIff(b, m);
    JudgedNpc(c, b, uid, m, now);
    ActorReasons(b, uid, m);
    hide Judge, JudgeNpc, ActorOffence, ActorOddity, OfNpc, OfMembers;
  }

  /** When a spawn or removal is accepted: the Host's, newer than the actor's last, of a dead or a living actor. */
  predicate LifeAccepted(b: Battle, uid: Uid, actor: Uid, sequence: nat, spawn: bool, allowed: bool) {
    var known := actor in b.npcs.actors;
    && (b.mode == 10 || b.mode == 21) && b.live && uid == b.owner && actor != 0 && actor !in b.members
    && (known ==> b.npcs.actors[actor].sequence < sequence)
    && (known && b.mode == 10 && (uid, actor) in b.npcs.versions ==> b.npcs.versions[(uid, actor)] < sequence)
    && (spawn ==> allowed && !(known && b.npcs.actors[actor].active))
    && (!spawn ==> known && b.npcs.actors[actor].active)
  }

  lemma LifeChangesIff(b: Battle, uid: Uid, actor: Uid, sequence: nat, spawn: bool, allowed: bool)
    ensures LifeChanges(b, uid, actor, sequence, spawn, allowed)
            <==> LifeAccepted(b, uid, actor, sequence, spawn, allowed)
  {
  }

  ghost predicate ForgetsActor(x: map<(Uid, Uid), int>, y: map<(Uid, Uid), int>, actor: Uid) {
    (forall k :: k in x <==> k in y && k.1 != actor) && forall k :: k in x ==> x[k] == y[k]
  }

  lemma LifeVersions(b: Battle, uid: Uid, actor: Uid, sequence: nat, spawn: bool, allowed: bool)
    requires LifeChanges(b, uid, actor, sequence, spawn, allowed)
    ensures ForgetsActor(Relife(b, uid, actor, sequence, spawn, allowed).npcs.versions, b.npcs.versions, actor)
  {
    hide LifeChanges;
  }

  /** With a new life, or the end of one, the actor's filters start afresh; nobody else's change. */
  lemma NewLifeIsFresh(b: Battle, uid: Uid, actor: Uid, sequence: nat, spawn: bool, allowed: bool)
    ensures var n, o := Relife(b, uid, actor, sequence, spawn, allowed).npcs, b.npcs;
      && Relife(b, uid, actor, sequence, spawn, allowed) == b.(npcs := n)
      && (!LifeAccepted(b, uid, actor, sequence, spawn, allowed) ==> n == o)
      && (LifeAccepted(b, uid, actor, sequence, spawn, allowed) ==>
            && n.actors == o.actors[actor := Npc(spawn, sequence)]
            && actor !in n.motion && SameElsewhere(n.motion, o.motion, actor)
            && ForgetsActor(n.versions, o.versions, actor))
  {
    LifeChangesIff(b, uid, actor, sequence, spawn, allowed);
    hide LifeChanges, LifeAccepted, SameElsewhere, ForgetsActor;
    if LifeAccepted(b, uid, actor, sequence, spawn, allowed) {
      RemovedElsewhere(b.npcs.motion, actor);
      LifeVersions(b, uid, actor, sequence, spawn, allowed);
    }
  }

  lemma RemovedElsewhere<K(!new), V>(x: map<K, V>, key: K)
    ensures SameElsewhere(x - {key}, x, key)
  {
  }

  // ---------------------------------------------------------------- departures

  /** A spectator who leaves is named nowhere any more, and everything that does not name them stays. */
  lemma DepartureErases(b: Battle, uid: Uid)
    requires b.live && uid in b.members && uid !in b.roster.Values
    ensures var x := Leave(b, uid);
      && x.live && x.pair == b.pair && x.mode == b.mode && x.owner == b.owner && x.roster == b.roster
      && x.npcs == b.npcs && x.collectibles == b.collectibles && x.members == b.members - {uid} && x.cache == []
      && (forall k :: k in x.last <==> k in b.last && k.0 != uid)
      && (forall k :: k in x.last ==> x.last[k] == b.last[k])
      && (forall k :: k in x.states <==> k in b.states && k.0 != uid)
      && (forall k :: k in x.states ==> x.states[k] == b.states[k])
      && x.pickups == b.pickups - {uid} && x.chests == b.chests - {uid}
      && x.versions == b.versions - {uid} && x.motion == b.motion - {uid}
      && (forall u :: u in x.selections <==> u in b.selections && u != uid && b.selections[u].target != uid)
      && (forall u :: u in x.selections ==> x.selections[u] == b.selections[u])
      && (forall k :: k in x.projectiles <==> k in b.projectiles && b.projectiles[k].owner != uid)
      && (forall k :: k in x.projectiles ==> x.projectiles[k] == b.projectiles[k])
  {
    hide Kept, KeptExtras;
  }

  lemma {:induction false} OthersKept(rows: seq<Witness>, uid: Uid)
    ensures forall w :: w in OtherWitnesses(rows, uid) <==> w in rows && w.source != uid
  {
    if rows != [] {
      OthersKept(rows[1..], uid);
      assert rows == [rows[0]] + rows[1..];
    }
  }

  lemma {:induction false} OtherExtrasKept(rows: seq<Extra>, uid: Uid)
    ensures forall e :: e in OtherExtras(rows, uid) <==> e in rows && e.source != uid
  {
    if rows != [] {
      OtherExtrasKept(rows[1..], uid);
      assert rows == [rows[0]] + rows[1..];
    }
  }

  /** What others were promised stays promised, unless it is about the one who left. */
  lemma DepartureKeepsRights(b: Battle, uid: Uid, r: Uid)
    requires b.live && uid in b.members && uid !in b.roster.Values
    ensures var x := Leave(b, uid);
      && uid !in x.hits && uid !in x.extras
      && (r != uid ==>
            && (forall w :: w in QueueOf(x.hits, r) <==> w in QueueOf(b.hits, r) && w.source != uid)
            && (forall e :: e in QueueOf(x.extras, r) <==> e in QueueOf(b.extras, r) && e.source != uid))
  {
    UnseatFields(b, uid);
    OthersKept(QueueOf(b.hits, r), uid);
    OtherExtrasKept(QueueOf(b.extras, r), uid);
    hide Unseat, OtherWitnesses, OtherExtras;
  }

  /** A fighter who leaves ends the battle, and nothing else. */
  lemma FightersEndTheBattle(b: Battle, uid: Uid)
    requires b.live && uid in b.members && uid in b.roster.Values
    ensures Leave(b, uid) == b.(live := false)
  {
  }

  // ---------------------------------------------------------------- over a whole battle

  /** Every watermark is the sequence of an accepted event of its sender. */
  ghost predicate Backed(b: Battle, J: seq<Act>) {
    forall k <- b.last :: exists a <- J ::
      a.uid == k.0 && a.message.Lane() == k.1 && a.message.Sequence() == b.last[k]
  }

  lemma AcceptedBacks(c: Catalog, b: Battle, e: BattleDelivery.Event, J: seq<Act>)
    requires Backed(b, J) && Accepted(c, b, e)
    ensures Backed(Commit(c, b, e.uid, e.message), J + [ActOf(c, b, e.uid, e.message)])
  {
    CommitFields(c, b, e.uid, e.message);
    hide Commit, Accepted;
    var x, a := Commit(c, b, e.uid, e.message), ActOf(c, b, e.uid, e.message);
    assert a in J + [a] && a.uid == e.uid && a.message == e.message;
    forall k | k in x.last
      ensures exists w <- J + [a] :: w.uid == k.0 && w.message.Lane() == k.1 && w.message.Sequence() == x.last[k]
    {
      if k != (e.uid, e.message.Lane()) {
        var w :| w in J && w.uid == k.0 && w.message.Lane() == k.1 && w.message.Sequence() == b.last[k];
        assert w in J + [a];
      }
    }
  }

  lemma LeaveLast(b: Battle, uid: Uid, J: seq<Act>)
    requires Backed(b, J)
    ensures Backed(Leave(b, uid), J)
  {
    UnseatFields(b, uid);
    hide Unseat;
  }

  lemma BackedByLast(b: Battle, x: Battle, J: seq<Act>)
    requires Backed(b, J) && x.last == b.last
    ensures Backed(x, J)
  {
  }

  lemma {:induction false} RunBacked(c: Catalog, start: Battle, events: seq<BattleDelivery.Event>)
    requires Begins(start)
    ensures Backed(Run(c, start, events), Journal(c, start, events))
  {
    if events != [] {
      var before, e := events[..|events| - 1], events[|events| - 1];
      RunBacked(c, start, before);
      var b, J := Run(c, start, before), Journal(c, start, before);
      StepWrites(c, b, e);
      hide Commit, Accepted, ActOf, Backed;
      if Accepted(c, b, e) {
        AcceptedBacks(c, b, e, J);
        hide Step;
        BackedByLast(Commit(c, b, e.uid, e.message), Step(c, b, e), J + [ActOf(c, b, e.uid, e.message)]);
      } else {
        assert J + [] == J;
        if e.Departed? {
          LeaveLast(b, e.uid, J);
        } else {
          hide Step;
          BackedByLast(b, Step(c, b, e), J);
        }
      }
    }
  }

  /**
   * In every reachable battle: a generic event above everything accepted from its sender is never stale, so when
   * nothing else speaks against it, it is handed to its audience and its sequence becomes the watermark.
   */
  lemma NewEventsGetThrough(c: Catalog, start: Battle, events: seq<BattleDelivery.Event>, uid: Uid, m: Message,
                            now: real)
    requires Begins(start) && GenericHeader(m)
    requires var b := Run(c, start, events);
      && b.live && uid in b.members && uid in b.roster.Values && OfMembers(b, m)
      && !Offends(b, uid, m)
      && !Odd(c, b.(last := b.last - {(uid, 19)}), uid, m, now)
    requires forall a <- Journal(c, start, events) ::
               a.uid == uid && !MotionHeader(a.message) ==> a.message.header.sequence19 < m.header.sequence19
    ensures var b := Run(c, start, events);
      && Received(c, b, uid, m, now) == Done(Audience(b, uid, m))
      && Leaves(c, b, uid, m, Direct(c, b, uid, m, now))
      && Direct(c, b, uid, m, now).Seen(uid, 19) == m.header.sequence19
  {
    var b := Run(c, start, events);
    RunBacked(c, start, events);
    assert Newer(b, uid, 19, m.header.sequence19);
    hide Run, Journal, Backed;
    OnlyStale(c, b, uid, m, now);
    HandledIsRelayed(c, b, uid, m, now);
  }

  /** With the watermark out of the way the same things speak against an event. */
  lemma OnlyStale(c: Catalog, b: Battle, uid: Uid, m: Message, now: real)
    requires GenericHeader(m) && Newer(b, uid, 19, m.header.sequence19)
    requires !Odd(c, b.(last := b.last - {(uid, 19)}), uid, m, now)
    ensures !Odd(c, b, uid, m, now)
  {
  }
}
