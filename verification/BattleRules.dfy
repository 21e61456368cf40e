/** The battle relay as functions: which events pass, what they change and who receives them. */
module BattleRules {
  import opened BattleEvents

  const REGISTRY_LIMIT: int := 65536
  const CACHE_LIMIT: int := 128
  const QUEUE_LIMIT: int := 32
  const SELECTION_TIMEOUT: int := 15000
  const MAX_COUNTDOWN: int := 0x7fffffff

  function Rows<T>(m: map<Uid, seq<T>>, uid: Uid): seq<T> {
    if uid in m then m[uid] else []
  }

  /** The newest rows a bounded queue keeps. */
  function Newest<T>(rows: seq<T>): seq<T> {
    if |rows| <= QUEUE_LIMIT then rows else rows[|rows| - QUEUE_LIMIT..]
  }

  function Without<T>(rows: seq<T>, i: nat): seq<T>
    requires i < |rows|
  {
    rows[..i] + rows[i + 1..]
  }

  predicate Stale(b: Battle, uid: Uid, m: Message) {
    m.header.sequence19 <= b.Seen(uid, 19)
  }

  // ---------------------------------------------------------------- hit receipts

  predicate Answers(w: Witness, source: Uid, skill: int, status: int, sequence: int) {
    w.source == source && w.skill == skill && status in w.outcomes && w.sequence < sequence
  }

  /** Index of the first witness a receipt may spend, or the length when there is none. */
  function FirstWitness(rows: seq<Witness>, source: Uid, skill: int, status: int, sequence: int): (i:nat)
    ensures i <= |rows|
    ensures i < |rows| ==> Answers(rows[i], source, skill, status, sequence)
    ensures forall j :: 0 <= j < i ==> !Answers(rows[j], source, skill, status, sequence)
  {
    if rows == [] then 0
    else if Answers(rows[0], source, skill, status, sequence) then 0
    else 1 + FirstWitness(rows[1..], source, skill, status, sequence)
  }

  predicate Follows(e: Extra, source: Uid, skill: int, sequence: int) {
    e.source == source && e.skill == skill && e.sequence < sequence
  }

  function FirstExtra(rows: seq<Extra>, source: Uid, skill: int, sequence: int): (i:nat)
    ensures i <= |rows|
    ensures i < |rows| ==> Follows(rows[i], source, skill, sequence)
    ensures forall j :: 0 <= j < i ==> !Follows(rows[j], source, skill, sequence)
  {
    if rows == [] then 0
    else if Follows(rows[0], source, skill, sequence) then 0
    else 1 + FirstExtra(rows[1..], source, skill, sequence)
  }

  function WitnessFor(b: Battle, uid: Uid, m: Message): nat
    requires m.body.Receipt?
  {
    FirstWitness(Rows(b.hits, uid), m.body.source, m.body.skill, m.body.status, m.header.sequence19)
  }

  function ExtraFor(b: Battle, uid: Uid, m: Message): nat
    requires m.body.Receipt?
  {
    FirstExtra(Rows(b.extras, uid), m.body.source, m.body.skill, m.header.sequence19)
  }

  /** Does this receipt spend a hit report? */
  predicate SpendsWitness(b: Battle, uid: Uid, m: Message) {
    m.body.Receipt? && WitnessFor(b, uid, m) < |Rows(b.hits, uid)|
  }

  /** Does this receipt, finding no hit report, spend the follow-up right of an earlier receipt? */
  predicate SpendsExtra(b: Battle, uid: Uid, m: Message) {
    m.body.Receipt? && !SpendsWitness(b, uid, m) && m.body.status == 3 && ExtraFor(b, uid, m) < |Rows(b.extras, uid)|
  }

  function JudgeReceipt(c: Catalog, b: Battle, uid: Uid, m: Message): Verdict
    requires m.body.Receipt?
  {
    if m.header.sender != uid || m.body.reporter != uid then Reject
    else if m.body.target != uid || m.body.source !in b.Fighters() || !c.Permits(m.body.skill) then Quiet
    else if !m.Generic() || Stale(b, uid, m) then Quiet
    else if SpendsWitness(b, uid, m) || SpendsExtra(b, uid, m) then Pass
    else Quiet
  }

  /** Does an accepted hit report leave a witness behind? */
  predicate Recorded(c: Catalog, members: set<Uid>, uid: Uid, m: Message) {
    m.body.Hit? && c.Permits(m.body.skill) && m.body.source in members && m.body.source != uid && m.body.mode == 0
  }

  function WitnessOf(c: Catalog, m: Message): Witness
    requires m.body.Hit?
  {
    Witness(m.body.source, m.body.skill, m.body.status, m.Sequence(),
            c.Outcomes(m.body.skill, m.body.status, m.body.callback))
  }

  type Hits = map<Uid, seq<Witness>>

  function Reported(c: Catalog, members: set<Uid>, hits: Hits, uid: Uid, m: Message): Hits {
    if Recorded(c, members, uid, m) then hits[uid := Newest(Rows(hits, uid) + [WitnessOf(c, m)])] else hits
  }

  function HitsAfter(c: Catalog, b: Battle, uid: Uid, m: Message): Hits {
    if m.body.Hit? then Reported(c, b.members, b.hits, uid, m)
    else if SpendsWitness(b, uid, m) then b.hits[uid := Without(Rows(b.hits, uid), WitnessFor(b, uid, m))]
    else b.hits
  }

  function ExtrasAfter(b: Battle, uid: Uid, m: Message): map<Uid, seq<Extra>> {
    if SpendsWitness(b, uid, m) then
      if m.body.status == 1 || m.body.status == 5 then
        b.extras[uid := Newest(Rows(b.extras, uid) + [Extra(m.body.source, m.body.skill, m.header.sequence19)])]
      else b.extras
    else if SpendsExtra(b, uid, m) then b.extras[uid := Without(Rows(b.extras, uid), ExtraFor(b, uid, m))]
    else b.extras
  }

  // ---------------------------------------------------------------- reservations

  predicate HeldBy(holds: map<Uid, Hold>, who: Uid, key: int) {
    who in holds && holds[who] == Hold(key, true)
  }

  predicate Held(holds: map<Uid, Hold>, key: int) {
    exists who :: who in holds && HeldBy(holds, who, key)
  }

  predicate HeldByOther(holds: map<Uid, Hold>, who: Uid, key: int) {
    exists other :: other in holds && other != who && HeldBy(holds, other, key)
  }

  function JudgePickup(b: Battle, uid: Uid, m: Message): Verdict
    requires m.body.Pickup?
  {
    var p := m.body;
    var holds := b.Holds(p.chest);
    if m.header.sender != uid || (p.stamp.Some? && p.stamp.value != b.pair) then Reject
    else if !m.Generic() || p.player !in b.members then Reject
    else if Stale(b, uid, m) then Quiet
    else
      match p.phase
      case Request =>
        if p.player != uid || p.answer > 1 then Reject
        else if p.answer == 1 then if uid == b.owner || p.player in holds then Quiet else Pass
        else if p.player !in holds || holds[p.player].key != p.key then Quiet
        else Pass
      case Response =>
        if uid != b.owner || p.answer > 1 then Reject
        else if p.player !in holds || holds[p.player] != Hold(p.key, false) then Quiet
        else if p.answer == 1 && HeldByOther(holds, p.player, p.key) then Reject
        else Pass
      case Completion =>
        if p.player != uid || p.answer != 1 then Reject
        else if uid != b.owner then if HeldBy(holds, p.player, p.key) then Pass else Reject
        else if Held(holds, p.key) then Reject else Pass
  }

  function HoldsAfter(holds: map<Uid, Hold>, p: Body): map<Uid, Hold>
    requires p.Pickup?
  {
    match p.phase
    case Request => if p.answer == 1 then holds[p.player := Hold(p.key, false)] else holds - {p.player}
    case Response => if p.answer == 1 then holds[p.player := Hold(p.key, true)] else holds - {p.player}
    case Completion => holds - {p.player}
  }

  // ---------------------------------------------------------------- the other special families

  function JudgeTerminal(b: Battle, uid: Uid, m: Message): Verdict
    requires m.body.Terminal? || m.body.Countdown?
  {
    var target := if m.body.Terminal? then m.body.target else m.body.player;
    if uid !in b.Fighters() || m.header.sender != uid then Reject
    else if !m.Generic() then Quiet
    else if target !in b.Fighters() then Reject
    else if m.body.Terminal? && (m.body.initiator != uid || (target != uid && uid != b.owner)) then Reject
    else if m.body.Countdown? && (uid != b.owner || target == uid) then Reject
    else if m.body.Countdown? && (m.body.marker != 1 || m.body.seconds > MAX_COUNTDOWN) then Quiet
    else if Stale(b, uid, m) then Quiet
    else Pass
  }

  predicate RowMatches(roster: map<int, Uid>, slot: int, row: SnapshotRow) {
    if slot in roster && roster[slot] != 0 then row.player == roster[slot] else row.player == 0 && row.blank
  }

  predicate RebornCode(code: int, amount: int) {
    || (0 <= code <= 2 && amount == 0) || ((code == 3 || code == 6) && amount == 3) || (code == 4 && amount == 4)
    || (code == 5 && 5 <= amount <= 65535) || (code == 7 && 4 <= amount <= 65535)
  }

  function JudgeReborn(b: Battle, uid: Uid, m: Message): Verdict
    requires m.body.Snapshot? || m.body.Reborn?
  {
    if b.mode != 16 then Quiet
    else if uid !in b.Fighters() || m.header.sender != uid then Reject
    else if uid != b.owner || !m.Generic() then Quiet
    else if m.body.Snapshot? &&
            exists slot :: 0 <= slot < |m.body.rows| && !RowMatches(b.roster, slot, m.body.rows[slot])
      then Reject
    else if m.body.Reborn? && m.body.participant !in b.Fighters() then Reject
    else if m.body.Reborn? && !RebornCode(m.body.code, m.body.amount) then Quiet
    else if Stale(b, uid, m) then Quiet
    else Pass
  }

  function JudgeTransform(b: Battle, uid: Uid, m: Message, now: real): Verdict
    requires m.body.Transform?
  {
    var first, second := m.body.first, m.body.second;
    if uid !in b.Fighters() || m.header.sender != uid then Reject
    else if first !in b.Fighters() || second !in b.Fighters() || first == second || second != uid || !m.Generic()
      then Quiet
    else if first !in b.selections || b.selections[first].target != second then Quiet
    else if now >= b.selections[first].deadline then Expire
    else if Stale(b, uid, m) then Quiet
    else Pass
  }

  function JudgeSlip(b: Battle, uid: Uid, m: Message): Verdict
    requires m.body.Slip?
  {
    var first, second := m.body.first, m.body.second;
    if uid !in b.Fighters() || m.header.sender != uid then Reject
    else if !m.Generic() then Quiet
    else if (first, second) !in {(uid, 0), (0, uid), (0, 0)} then Quiet
    else if (first == 0 && !m.body.firstBlank) || (second == 0 && !m.body.secondBlank) then Quiet
    else if Stale(b, uid, m) then Quiet
    else Pass
  }

  // ---------------------------------------------------------------- ordinary events

  predicate HostCancels(b: Battle, uid: Uid, m: Message) {
    m.body.State? && m.body.op == Cancel && uid == b.owner && m.body.target in b.members
  }

  function ActorOf(uid: Uid, m: Message): Uid {
    match m.body
    case Hit(target, _, _, _, _, _, _) => target
    case Owned(_, actor, _, _, _) => actor
    case Select(player, _, _) => player
    case State(target, _, _, _, _, _, _) => target
    case _ => uid
  }

  function PairOf(body: Body): Option<Pair> {
    match body
    case Hit(_, _, _, _, _, _, p) => Some(p)
    case Owned(_, _, _, _, stamp) => stamp
    case State(_, _, _, _, _, _, p) => Some(p)
    case Create(_, _, p) => Some(p)
    case Result(_, _, p) => Some(p)
    case Report(_, _, p) => Some(p)
    case Effect(_, p) => Some(p)
    case End(_, p) => Some(p)
    case _ => None
  }

  function AimOf(body: Body): Option<Uid> {
    match body
    case Select(_, target, _) => Some(target)
    case Owned(_, _, aim, _, _) => aim
    case _ => None
  }

  /** Identity and authority checks, in the order the relay makes them. */
  function JudgeIdentity(b: Battle, uid: Uid, m: Message): Verdict {
    var actor := ActorOf(uid, m);
    if m.header.sender != uid then Reject
    else if m.body.Owned? && m.body.id == 8284 && m.body.operation !in {1, 2, 3} then Quiet
    else if m.body.Owned? && m.body.id == 8288 && actor == 0 then Quiet
    else if m.body.Owned? && m.body.id in {8284, 8293} && actor !in b.Fighters() then Quiet
    else if (m.body.Hit? || m.body.State?) && actor != uid && !HostCancels(b, uid, m) then Quiet
    else if actor != uid && !HostCancels(b, uid, m) then Reject
    else if m.body.State? && m.body.code > 255 then Reject
    else if AimOf(m.body).Some? && AimOf(m.body).value != 0 && AimOf(m.body).value !in b.members then Reject
    else if PairOf(m.body).Some? && PairOf(m.body).value != b.pair then Reject
    else Pass
  }

  /** The sequence filter: motions compare their own lane and payload, everything else the generic lane. */
  function JudgeSequence(b: Battle, uid: Uid, m: Message): Verdict {
    if m.Lane() == 15 then
      if m.Sequence() < b.Seen(uid, 15) then Quiet
      else if m.Sequence() == b.Seen(uid, 15) && uid in b.motion && b.motion[uid] == m.WithoutLane19() then Quiet
      else Pass
    else if !m.Generic() then Quiet
    else if m.Sequence() <= b.Seen(uid, 19) then Quiet
    else Pass
  }

  function JudgeProjectile(b: Battle, uid: Uid, m: Message): Verdict {
    match m.body
    case Create(source, key, _) =>
      if source != uid && !(uid == b.owner && (source == 0 || source in b.members)) then Reject
      else if key in b.projectiles then if b.projectiles[key].owner == uid then Quiet else Reject
      else if |b.projectiles| >= REGISTRY_LIMIT then Reject
      else Pass
    case Report(key, target, _) =>
      if key !in b.projectiles || !b.projectiles[key].alive || target != uid then Quiet else Pass
    case Result(key, outcome, _) =>
      if key !in b.projectiles || !b.projectiles[key].alive || outcome !in {2, 3, 4, 6} then Quiet
      else if b.projectiles[key].owner == uid || (outcome == 2 && uid in b.projectiles[key].reporters) then Pass
      else Reject
    case Effect(key, _) =>
      if key !in b.projectiles || !b.projectiles[key].alive then Quiet
      else if b.projectiles[key].owner == uid then Pass else Reject
    case End(key, _) =>
      if key !in b.projectiles || !b.projectiles[key].alive then Quiet
      else if b.projectiles[key].owner == uid then Pass else Reject
    case _ => Pass
  }

  function JudgeObject(b: Battle, uid: Uid, m: Message): Verdict {
    if m.body.Collectible? then
      if uid != b.owner then Reject
      else if m.body.family.None? || (m.body.family.value, m.body.item) in b.collectibles then Quiet
      else if |b.collectibles| >= REGISTRY_LIMIT then Reject
      else Pass
    else if m.body.State? then
      if m.body.op == OtherOperation then Quiet
      else if m.body.op == Apply then Pass
      else if !(m.body.source == 0 && m.body.parameter == 0 && m.body.event == 0) then Reject
      else if m.body.target != uid && (m.body.target, m.body.code) !in b.states then Quiet
      else Pass
    else JudgeProjectile(b, uid, m)
  }

  function JudgeOrdinary(b: Battle, uid: Uid, m: Message): Verdict {
    if JudgeIdentity(b, uid, m) != Pass then JudgeIdentity(b, uid, m)
    else if JudgeSequence(b, uid, m) != Pass then JudgeSequence(b, uid, m)
    else JudgeObject(b, uid, m)
  }

  // ---------------------------------------------------------------- actors of a cooperative battle

  /** The actor an event is about, for the kinds the Host also sends for its actors. */
  function ActorField(m: Message): Option<Uid> {
    match m.body
    case Motion => Some(m.header.sender)
    case Hit(target, _, _, _, _, _, _) => Some(target)
    case Owned(id, actor, _, _, _) => if id in {8122, 8125, 8127, 8140} then Some(actor) else None
    case State(target, _, _, _, _, _, _) => Some(target)
    case _ => None
  }

  /** Does the event belong to an actor rather than to a member? */
  predicate OfNpc(b: Battle, m: Message) {
    b.Cooperative() && ActorField(m).Some? && ActorField(m).value !in b.members
  }

  predicate KnownSource(b: Battle, source: Uid) {
    source == 0 || source in b.members || b.npcs.Active(source)
  }

  /** Only the Host relays, and only for living actors; every actor has a sequence filter of its own. */
  function JudgeNpc(b: Battle, uid: Uid, m: Message): Verdict
    requires OfNpc(b, m)
  {
    var actor := ActorField(m).value;
    if uid != b.owner || !b.npcs.Active(actor) then Quiet
    else if !m.body.Motion? && m.header.sender != uid then Reject
    else if PairOf(m.body).Some? && PairOf(m.body).value != b.pair then Quiet
    else if m.body.Owned? && m.body.id == 8122 && m.body.operation > 7 then Quiet
    else if m.body.State? && (m.body.op == OtherOperation || m.body.code > 255) then Quiet
    else if (m.body.Hit? || m.body.State?) && !KnownSource(b, m.body.source) then Quiet
    else if m.body.Motion? then
      if m.Lane() != 15 || (actor in b.npcs.motion && StaleMotion(b.npcs.motion[actor], m)) then Quiet else PassNpc
    else if !m.Generic() || m.header.sequence19 <= b.npcs.Threshold(uid, actor) then Quiet
    else PassNpc
  }

  predicate StaleMotion(previous: Message, m: Message) {
    m.header.sequence15 < previous.header.sequence15
    || (m.header.sequence15 == previous.header.sequence15 && previous == m.WithoutLane19())
  }

  function NpcsAfter(npcs: Npcs, uid: Uid, m: Message): Npcs {
    if ActorField(m).None? then npcs
    else if m.body.Motion? then npcs.(motion := npcs.motion[ActorField(m).value := m.WithoutLane19()])
    else npcs.(versions := npcs.versions[(uid, ActorField(m).value) := m.header.sequence19])
  }

  /**
   * A spawn or a removal the Host reports. `allowed` stands for the plan, the quotas and the limits a spawn has to
   * meet; only the foster mode also compares the actor's own events.
   */
  predicate LifeChanges(b: Battle, uid: Uid, actor: Uid, sequence: int, spawn: bool, allowed: bool) {
    && b.Cooperative() && b.live && uid == b.owner && actor != 0 && actor !in b.members
    && (actor in b.npcs.actors ==>
          sequence > if b.mode == FOSTER then b.npcs.Threshold(uid, actor) else b.npcs.actors[actor].sequence)
    && (if spawn then allowed && !b.npcs.Active(actor) else b.npcs.Active(actor))
  }

  /** A new life, or the end of one, forgets the actor's motion and event sequences. */
  function Relife(b: Battle, uid: Uid, actor: Uid, sequence: int, spawn: bool, allowed: bool): Battle {
    if !LifeChanges(b, uid, actor, sequence, spawn, allowed) then b
    else b.(npcs := Npcs(b.npcs.actors[actor := Npc(spawn, sequence)], b.npcs.motion - {actor},
                         map k | k in b.npcs.versions && k.1 != actor :: b.npcs.versions[k]))
  }

  // ---------------------------------------------------------------- one semantic execution

  function Judge(c: Catalog, b: Battle, uid: Uid, m: Message, now: real): Verdict {
    if !b.live || uid !in b.members then Quiet
    else if OfNpc(b, m) then JudgeNpc(b, uid, m)
    else
      match m.body
      case Malformed => Reject
      case Unlisted(_) => Quiet
      case Series => if uid !in b.Fighters() || m.header.sender != uid then Reject else Quiet
      case Pickup(_, _, _, _, _, _) => JudgePickup(b, uid, m)
      case Receipt(_, _, _, _, _) => JudgeReceipt(c, b, uid, m)
      case Terminal(_, _) => JudgeTerminal(b, uid, m)
      case Countdown(_, _, _) => JudgeTerminal(b, uid, m)
      case Snapshot(_) => JudgeReborn(b, uid, m)
      case Reborn(_, _, _) => JudgeReborn(b, uid, m)
      case Transform(_, _) => JudgeTransform(b, uid, m, now)
      case Slip(_, _, _, _) => JudgeSlip(b, uid, m)
      case _ => JudgeOrdinary(b, uid, m)
  }

  function Recipients(b: Battle, uid: Uid, m: Message): set<Uid> {
    match m.body
    case Pickup(_, phase, _, _, _, _) => if phase == Request then {b.owner} else b.Others(uid)
    case Receipt(_, _, source, _, _) => if source != uid then {source} else {}
    case Countdown(player, _, _) => {player}
    case _ => b.Others(uid)
  }

  function ProjectilesAfter(projectiles: map<int, Projectile>, uid: Uid, m: Message): map<int, Projectile> {
    match m.body
    case Create(source, key, _) => projectiles[key := Projectile(uid, source, true, {})]
    case Report(key, _, _) =>
      if key !in projectiles then projectiles
      else projectiles[key := projectiles[key].(reporters := projectiles[key].reporters + {uid})]
    case Result(key, _, _) =>
      if key !in projectiles || projectiles[key].owner == uid then projectiles
      else projectiles[key := projectiles[key].(reporters := projectiles[key].reporters - {uid})]
    case End(key, _) =>
      if key !in projectiles then projectiles
      else projectiles[key := projectiles[key].(alive := false)]
    case _ => projectiles
  }

  type States = map<(Uid, int), (Uid, int, int)>

  function StatesAfter(states: States, m: Message): States {
    if !m.body.State? then states
    else if m.body.op == Apply then
      states[(m.body.target, m.body.code) := (m.body.source, m.body.parameter, m.body.event)]
    else states - {(m.body.target, m.body.code)}
  }

  function MotionAfter(motion: map<Uid, Message>, uid: Uid, m: Message): map<Uid, Message> {
    if m.Lane() == 15 then motion[uid := m.WithoutLane19()] else motion
  }

  function CollectiblesAfter(spawned: set<(bool, int)>, m: Message): set<(bool, int)> {
    if m.body.Collectible? && m.body.family.Some? then spawned + {(m.body.family.value, m.body.item)} else spawned
  }

  /** Everything a passing event writes. */
  function Commit(c: Catalog, b: Battle, uid: Uid, m: Message): Battle {
    b.(last := b.last[(uid, m.Lane()) := m.Sequence()],
       motion := MotionAfter(b.motion, uid, m),
       hits := HitsAfter(c, b, uid, m),
       extras := ExtrasAfter(b, uid, m),
       pickups := if m.body.Pickup? && !m.body.chest then HoldsAfter(b.pickups, m.body) else b.pickups,
       chests := if m.body.Pickup? && m.body.chest then HoldsAfter(b.chests, m.body) else b.chests,
       collectibles := CollectiblesAfter(b.collectibles, m),
       projectiles := ProjectilesAfter(b.projectiles, uid, m),
       states := StatesAfter(b.states, m))
  }

  /** The state and the answer a verdict leads to. */
  function Settled(c: Catalog, b: Battle, uid: Uid, m: Message, v: Verdict): Battle {
    match v
    case Pass => Commit(c, b, uid, m)
    case Expire => b.(selections := b.selections - {if m.body.Transform? then m.body.first else 0})
    case PassNpc => b.(npcs := NpcsAfter(b.npcs, uid, m))
    case _ => b
  }

  function Answered(b: Battle, uid: Uid, m: Message, v: Verdict): Outcome {
    match v
    case Reject => Rejected
    case Pass => Done(Recipients(b, uid, m))
    case PassNpc => Done(b.Others(uid))
    case _ => Done({})
  }

  function After(c: Catalog, b: Battle, uid: Uid, m: Message, now: real): Battle {
    Settled(c, b, uid, m, Judge(c, b, uid, m, now))
  }

  function Answer(c: Catalog, b: Battle, uid: Uid, m: Message, now: real): Outcome {
    Answered(b, uid, m, Judge(c, b, uid, m, now))
  }

  lemma SettleNothing(c: Catalog, b: Battle, uid: Uid, m: Message, v: Verdict)
    requires v == Quiet || v == Reject
    ensures Settled(c, b, uid, m, v) == b
    ensures Answered(b, uid, m, v) == if v == Reject then Rejected else Done({})
  {
  }

  lemma SettleExpired(c: Catalog, b: Battle, uid: Uid, m: Message)
    requires m.body.Transform?
    ensures Settled(c, b, uid, m, Expire) == b.(selections := b.selections - {m.body.first})
    ensures Answered(b, uid, m, Expire) == Done({})
  {
  }

  /** The special families write one watermark, and a reservation registry when they are pickups. */
  lemma SettleSpecial(c: Catalog, b: Battle, uid: Uid, m: Message)
    requires m.body.Terminal? || m.body.Countdown? || m.body.Snapshot? || m.body.Reborn?
          || m.body.Transform? || m.body.Slip?
    ensures Settled(c, b, uid, m, Pass) == b.(last := b.last[(uid, 19) := m.header.sequence19])
    ensures Answered(b, uid, m, Pass) == Done(if m.body.Countdown? then {m.body.player} else b.members - {uid})
  {
  }

  lemma SettlePickup(c: Catalog, b: Battle, uid: Uid, m: Message)
    requires m.body.Pickup?
    ensures m.body.chest ==>
      Settled(c, b, uid, m, Pass) == b.(last := b.last[(uid, 19) := m.header.sequence19],
                                         chests := HoldsAfter(b.chests, m.body))
    ensures !m.body.chest ==>
      Settled(c, b, uid, m, Pass) == b.(last := b.last[(uid, 19) := m.header.sequence19],
                                         pickups := HoldsAfter(b.pickups, m.body))
    ensures Answered(b, uid, m, Pass) == Done(if m.body.phase == Request then {b.owner} else b.members - {uid})
  {
  }

  lemma SettleWitness(c: Catalog, b: Battle, uid: Uid, m: Message)
    requires SpendsWitness(b, uid, m)
    ensures Settled(c, b, uid, m, Pass) == b.(
      last := b.last[(uid, 19) := m.header.sequence19],
      hits := b.hits[uid := Without(Rows(b.hits, uid), WitnessFor(b, uid, m))],
      extras := if m.body.status == 1 || m.body.status == 5
                then b.extras[uid :=
                      Newest(Rows(b.extras, uid) + [Extra(m.body.source, m.body.skill, m.header.sequence19)])]
                else b.extras)
    ensures Answered(b, uid, m, Pass) == Done(if m.body.source != uid then {m.body.source} else {})
  {
  }

  lemma SettleExtra(c: Catalog, b: Battle, uid: Uid, m: Message)
    requires SpendsExtra(b, uid, m)
    ensures Settled(c, b, uid, m, Pass) == b.(
      last := b.last[(uid, 19) := m.header.sequence19],
      extras := b.extras[uid := Without(Rows(b.extras, uid), ExtraFor(b, uid, m))])
    ensures Answered(b, uid, m, Pass) == Done(if m.body.source != uid then {m.body.source} else {})
  {
  }

  predicate Ordinary(body: Body) {
    || body.Motion? || body.Hit? || body.Owned? || body.Select? || body.State? || body.Collectible?
    || body.Create? || body.Result? || body.Report? || body.Effect? || body.End?
  }

  lemma SettleOrdinary(c: Catalog, b: Battle, uid: Uid, m: Message)
    requires Ordinary(m.body)
    ensures Settled(c, b, uid, m, Pass) == b.(
      last := b.last[(uid, m.Lane()) := m.Sequence()],
      motion := MotionAfter(b.motion, uid, m),
      hits := Reported(c, b.members, b.hits, uid, m),
      collectibles := CollectiblesAfter(b.collectibles, m),
      projectiles := ProjectilesAfter(b.projectiles, uid, m),
      states := StatesAfter(b.states, m))
    ensures Answered(b, uid, m, Pass) == Done(b.members - {uid})
  {
  }

  lemma ReceiptVerdict(c: Catalog, b: Battle, uid: Uid, m: Message)
    requires m.body.Receipt?
    ensures JudgeReceipt(c, b, uid, m) == Pass ==> SpendsWitness(b, uid, m) || SpendsExtra(b, uid, m)
    ensures JudgeReceipt(c, b, uid, m) in {Reject, Quiet, Pass}
  {
  }

  lemma PickupVerdict(b: Battle, uid: Uid, m: Message)
    requires m.body.Pickup?
    ensures JudgePickup(b, uid, m) in {Reject, Quiet, Pass}
  {
  }

  lemma TerminalVerdict(b: Battle, uid: Uid, m: Message)
    requires m.body.Terminal? || m.body.Countdown?
    ensures JudgeTerminal(b, uid, m) in {Reject, Quiet, Pass}
  {
  }

  lemma RebornVerdict(b: Battle, uid: Uid, m: Message)
    requires m.body.Snapshot? || m.body.Reborn?
    ensures JudgeReborn(b, uid, m) in {Reject, Quiet, Pass}
  {
  }

  lemma TransformVerdict(b: Battle, uid: Uid, m: Message, now: real)
    requires m.body.Transform?
    ensures JudgeTransform(b, uid, m, now) in {Reject, Quiet, Expire, Pass}
  {
  }

  lemma SlipVerdict(b: Battle, uid: Uid, m: Message)
    requires m.body.Slip?
    ensures JudgeSlip(b, uid, m) in {Reject, Quiet, Pass}
  {
  }

  lemma OrdinaryVerdict(b: Battle, uid: Uid, m: Message)
    ensures JudgeOrdinary(b, uid, m) in {Reject, Quiet, Pass}
    ensures JudgeOrdinary(b, uid, m) == Pass && m.body.Collectible? ==> m.body.family.Some?
  {
  }

  lemma NpcVerdict(b: Battle, uid: Uid, m: Message)
    requires OfNpc(b, m)
    ensures JudgeNpc(b, uid, m) in {Reject, Quiet, PassNpc}
  {
  }

  lemma JudgedOrdinary(c: Catalog, b: Battle, uid: Uid, m: Message, now: real)
    ensures !b.live || uid !in b.members ==> Judge(c, b, uid, m, now) == Quiet
    ensures b.live && uid in b.members && !OfNpc(b, m) && Ordinary(m.body) ==>
      Judge(c, b, uid, m, now) == JudgeOrdinary(b, uid, m)
  {
    hide JudgeOrdinary, OfNpc;
  }

  lemma JudgedNpc(c: Catalog, b: Battle, uid: Uid, m: Message, now: real)
    ensures b.live && uid in b.members && OfNpc(b, m) ==>
      Judge(c, b, uid, m, now) == JudgeNpc(b, uid, m) && !m.body.Select?
  {
    hide JudgeNpc;
  }

  // ---------------------------------------------------------------- pair selections

  /** Record a selection that was really relayed; `to` is None on the direct path. */
  function Observe(b: Battle, uid: Uid, m: Message, to: Option<set<Uid>>, now: real): Battle {
    if !b.live || uid !in b.Fighters() || !m.body.Select? || m.header.sender != uid || m.body.player != uid
       || !m.Generic() then b
    else if uid in b.versions && m.header.sequence19 <= b.versions[uid] then b
    else
      var target := m.body.target;
      var kept := target in b.Fighters() && target != uid && m.body.timeout == SELECTION_TIMEOUT
                  && (to.None? || target in to.value);
      b.(versions := b.versions[uid := m.header.sequence19],
         selections := if kept then b.selections[uid := Lease(target, now + 15.0)] else b.selections - {uid})
  }

  lemma ObservesSelections(b: Battle, uid: Uid, m: Message, to: Option<set<Uid>>, now: real)
    requires !m.body.Select?
    ensures Observe(b, uid, m, to, now) == b
  {
  }

  // ---------------------------------------------------------------- the two transports

  /** The single-transport path: the engine drops what observers send, everything else runs the handler. */
  function Direct(c: Catalog, b: Battle, uid: Uid, m: Message, now: real): Battle {
    if uid !in b.Fighters() then b
    else if Judge(c, b, uid, m, now) == Pass then Observe(After(c, b, uid, m, now), uid, m, None, now)
    else After(c, b, uid, m, now)
  }

  function Received(c: Catalog, b: Battle, uid: Uid, m: Message, now: real): Outcome {
    if uid !in b.Fighters() then Done({}) else Answer(c, b, uid, m, now)
  }

  /** Position of the cached decision for this payload, or the cache length. */
  function Lookup(cache: seq<Entry>, uid: Uid, m: Message): (i:nat)
    ensures i <= |cache|
    ensures i < |cache| ==> cache[i].uid == uid && cache[i].message == m
    ensures forall j :: 0 <= j < i ==> !(cache[j].uid == uid && cache[j].message == m)
  {
    if cache == [] then 0
    else if cache[0].uid == uid && cache[0].message == m then 0
    else 1 + Lookup(cache[1..], uid, m)
  }

  /** May a cached decision still be delivered to further recipients? */
  predicate Deliverable(b: Battle, uid: Uid, m: Message) {
    var lane := if m.body.Motion? then 15 else 19;
    && (if lane == 15 then m.header.sequence15 else m.header.sequence19) >= b.Seen(uid, lane)
    && (m.body.State? ==>
          var key := (m.body.target, m.body.code);
          && (m.body.op == Apply ==>
                key in b.states && b.states[key] == (m.body.source, m.body.parameter, m.body.event))
          && (m.body.op == Cancel ==> key !in b.states))
    && (m.body.Create? || m.body.Result? || m.body.Report? || m.body.Effect? ==>
          m.body.key in b.projectiles && b.projectiles[m.body.key].alive)
  }

  predicate Eligible(b: Battle, uid: Uid, m: Message) {
    b.live && uid in b.members && uid in b.Fighters() && !m.body.Malformed?
  }

  function Targets(b: Battle, to: Option<set<Uid>>): set<Uid> {
    if to.None? then b.members else to.value
  }

  /** The cache after a fresh decision: newest last, the oldest dropped beyond the limit. */
  function Remember(cache: seq<Entry>, e: Entry): seq<Entry> {
    if e.outputs == {} then cache
    else if |cache| < CACHE_LIMIT then cache + [e]
    else (cache + [e])[|cache| + 1 - CACHE_LIMIT..]
  }

  function Handed(c: Catalog, b: Battle, uid: Uid, m: Message, to: Option<set<Uid>>, now: real): Outcome {
    var i := Lookup(b.cache, uid, m);
    if !Eligible(b, uid, m) then Rejected
    else if i < |b.cache| && !Deliverable(b, uid, m) then Done({})
    else if !(Targets(b, to) <= b.Fighters()) then Rejected
    else if i < |b.cache| then Done(b.cache[i].outputs * Targets(b, to) - b.cache[i].delivered)
    else
      match Answer(c, b, uid, m, now)
      case Rejected => Rejected
      case Done(outputs) => Done(outputs * Targets(b, to))
  }

  function Relayed(c: Catalog, b: Battle, uid: Uid, m: Message, to: Option<set<Uid>>, now: real): Battle {
    var i := Lookup(b.cache, uid, m);
    var answer := Handed(c, b, uid, m, to, now);
    if answer.Rejected? || (i < |b.cache| && !Deliverable(b, uid, m)) then b
    else if i < |b.cache| then
      b.(cache := b.cache[i := b.cache[i].(delivered := b.cache[i].delivered + answer.to)])
    else
      var outputs := Answer(c, b, uid, m, now).to;
      After(c, b, uid, m, now).(cache := Remember(b.cache, Entry(uid, m, outputs, answer.to)))
  }

  /** Does a dispatch get past the cache gate? */
  predicate Executes(b: Battle, uid: Uid, m: Message) {
    Lookup(b.cache, uid, m) == |b.cache| || Deliverable(b, uid, m)
  }

  /** dispatch_public as a whole: relay, then observe a selection that reached its target. */
  function Dispatch(c: Catalog, b: Battle, uid: Uid, m: Message, to: Option<set<Uid>>, now: real): Battle {
    var answer := Handed(c, b, uid, m, to, now);
    var after := Relayed(c, b, uid, m, to, now);
    if answer.Done? && Executes(b, uid, m) && m.body.Select? && (m.body.target == 0 || m.body.target in answer.to)
    then Observe(after, uid, m, Some(answer.to), now)
    else after
  }

  lemma RelayRefused(c: Catalog, b: Battle, uid: Uid, m: Message, to: Option<set<Uid>>, now: real)
    requires !Eligible(b, uid, m) || (Executes(b, uid, m) && !(Targets(b, to) <= b.Fighters()))
    ensures Relayed(c, b, uid, m, to, now) == b && Handed(c, b, uid, m, to, now) == Rejected
  {
  }

  lemma RelayStale(c: Catalog, b: Battle, uid: Uid, m: Message, to: Option<set<Uid>>, now: real)
    requires Eligible(b, uid, m) && !Executes(b, uid, m)
    ensures Relayed(c, b, uid, m, to, now) == b && Handed(c, b, uid, m, to, now) == Done({})
  {
  }

  lemma RelayCachedEntry(c: Catalog, b: Battle, uid: Uid, m: Message, to: Option<set<Uid>>, now: real)
    requires Eligible(b, uid, m) && Deliverable(b, uid, m) && Targets(b, to) <= b.Fighters()
    requires Lookup(b.cache, uid, m) < |b.cache|
    ensures var i := Lookup(b.cache, uid, m);
      var result := b.cache[i].outputs * Targets(b, to) - b.cache[i].delivered;
      && Handed(c, b, uid, m, to, now) == Done(result)
      && Relayed(c, b, uid, m, to, now)
         == b.(cache := b.cache[i := b.cache[i].(delivered := b.cache[i].delivered + result)])
  {
  }

  lemma RelayFresh(c: Catalog, b: Battle, uid: Uid, m: Message, to: Option<set<Uid>>, now: real)
    requires Eligible(b, uid, m) && Targets(b, to) <= b.Fighters() && Lookup(b.cache, uid, m) == |b.cache|
    ensures Answer(c, b, uid, m, now).Rejected? ==>
      Handed(c, b, uid, m, to, now) == Rejected && Relayed(c, b, uid, m, to, now) == b
    ensures Answer(c, b, uid, m, now).Done? ==>
      var outputs := Answer(c, b, uid, m, now).to;
      && Handed(c, b, uid, m, to, now) == Done(outputs * Targets(b, to))
      && Relayed(c, b, uid, m, to, now)
         == After(c, b, uid, m, now).(cache := Remember(b.cache, Entry(uid, m, outputs, outputs * Targets(b, to))))
  {
  }

  lemma CommitKeepsCache(c: Catalog, b: Battle, uid: Uid, m: Message)
    ensures Commit(c, b, uid, m).cache == b.cache
  {
    hide HitsAfter, ExtrasAfter, HoldsAfter, ProjectilesAfter, StatesAfter, CollectiblesAfter, MotionAfter;
  }

  lemma AfterKeepsCache(c: Catalog, b: Battle, uid: Uid, m: Message, now: real)
    ensures After(c, b, uid, m, now).cache == b.cache
    ensures Answer(c, b, uid, m, now).Rejected? ==> After(c, b, uid, m, now) == b
  {
    hide Judge;
    SettledKeepsCache(c, b, uid, m, Judge(c, b, uid, m, now));
    hide Settled, Answered;
  }

  lemma SettledKeepsCache(c: Catalog, b: Battle, uid: Uid, m: Message, v: Verdict)
    ensures Settled(c, b, uid, m, v).cache == b.cache
    ensures Answered(b, uid, m, v).Rejected? ==> Settled(c, b, uid, m, v) == b
  {
    hide Commit, Recipients, NpcsAfter;
    CommitKeepsCache(c, b, uid, m);
  }

  // ---------------------------------------------------------------- departures

  function Kept(hits: map<Uid, seq<Witness>>, uid: Uid): map<Uid, seq<Witness>> {
    map r | r in hits && r != uid :: OtherWitnesses(hits[r], uid)
  }

  function OtherWitnesses(rows: seq<Witness>, uid: Uid): seq<Witness> {
    if rows == [] then []
    else (if rows[0].source != uid then [rows[0]] else []) + OtherWitnesses(rows[1..], uid)
  }

  function KeptExtras(extras: map<Uid, seq<Extra>>, uid: Uid): map<Uid, seq<Extra>> {
    map r | r in extras && r != uid :: OtherExtras(extras[r], uid)
  }

  function OtherExtras(rows: seq<Extra>, uid: Uid): seq<Extra> {
    if rows == [] then []
    else (if rows[0].source != uid then [rows[0]] else []) + OtherExtras(rows[1..], uid)
  }

  /** Drop every key that names the member first. */
  function Forget<V>(m: map<(Uid, int), V>, uid: Uid): map<(Uid, int), V> {
    map k | k in m && k.0 != uid :: m[k]
  }

  function WithoutSelections(selections: map<Uid, Lease>, uid: Uid): map<Uid, Lease> {
    map k | k in selections && k != uid && selections[k].target != uid :: selections[k]
  }

  function WithoutProjectiles(projectiles: map<int, Projectile>, uid: Uid): map<int, Projectile> {
    map k | k in projectiles && projectiles[k].owner != uid :: projectiles[k]
  }

  /** A battle without any trace of a member. */
  function Unseat(b: Battle, uid: Uid): Battle {
    b.(members := b.members - {uid}, cache := [],
       pickups := b.pickups - {uid}, chests := b.chests - {uid},
       hits := Kept(b.hits, uid), extras := KeptExtras(b.extras, uid),
       versions := b.versions - {uid}, motion := b.motion - {uid},
       last := Forget(b.last, uid), states := Forget(b.states, uid),
       selections := WithoutSelections(b.selections, uid), projectiles := WithoutProjectiles(b.projectiles, uid))
  }

  /** A member leaves: a fighter ends the battle, a spectator only takes their own traces along. */
  function Leave(b: Battle, uid: Uid): Battle {
    if !b.live || uid !in b.members then b
    else if uid in b.Fighters() then b.(live := false)
    else Unseat(b, uid)
  }

  lemma UnseatFields(b: Battle, uid: Uid)
    ensures var x := Unseat(b, uid);
      && x.live == b.live && x.pair == b.pair && x.mode == b.mode && x.owner == b.owner && x.roster == b.roster
      && x.npcs == b.npcs && x.members == b.members - {uid} && x.cache == []
      && x.pickups == b.pickups - {uid} && x.chests == b.chests - {uid}
      && x.hits == Kept(b.hits, uid) && x.extras == KeptExtras(b.extras, uid) && x.last == Forget(b.last, uid)
      && x.selections == WithoutSelections(b.selections, uid) && x.projectiles == WithoutProjectiles(b.projectiles, uid)
  {
    hide Kept, KeptExtras, Forget, WithoutSelections, WithoutProjectiles;
  }
}
