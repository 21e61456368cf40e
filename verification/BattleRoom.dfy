/** The battle part of a shared room, updated in place by the relay and its collaborators. */
module BattleRoom {
  import opened BattleEvents
  import opened BattleRules

  class BattleRoom {
    const catalog: Catalog
    const pair: Pair
    const mode: int
    const owner: Uid
    const roster: map<int, Uid>
    var live: bool
    var members: set<Uid>
    var lastSequence: map<(Uid, int), int>
    var motionPayloads: map<Uid, Message>
    var activeStates: map<(Uid, int), (Uid, int, int)>
    var pairSelections: map<Uid, Lease>
    var pairSelectionVersions: map<Uid, int>
    var projectiles: map<int, Projectile>
    var pickupRequests: map<Uid, Hold>
    var chestRequests: map<Uid, Hold>
    var pendingHitReceipts: map<Uid, seq<Witness>>
    var pendingDeathReceipts: map<Uid, seq<Extra>>
    var spawnedCollectibles: set<(bool, int)>
    var dispatchCache: seq<Entry>
    var npcActors: map<Uid, Npc>
    var npcMotion: map<Uid, Message>
    var npcVersions: map<(Uid, Uid), int>

    ghost function View(): Battle
      reads this
    {
      Battle(live, pair, mode, owner, roster, members, lastSequence, motionPayloads, activeStates, pairSelections,
             pairSelectionVersions, projectiles, pickupRequests, chestRequests, pendingHitReceipts,
             pendingDeathReceipts, spawnedCollectibles, dispatchCache, Npcs(npcActors, npcMotion, npcVersions))
    }

    constructor (catalog: Catalog, pair: Pair, mode: int, owner: Uid, roster: map<int, Uid>, members: set<Uid>)
      ensures View() == Fresh(pair, mode, owner, roster, members) && this.catalog == catalog
    {
      this.catalog, this.pair, this.mode, this.owner, this.roster := catalog, pair, mode, owner, roster;
      this.members, live := members, true;
      lastSequence, motionPayloads, activeStates := map[], map[], map[];
      pairSelections, pairSelectionVersions, projectiles := map[], map[], map[];
      pickupRequests, chestRequests, pendingHitReceipts, pendingDeathReceipts := map[], map[], map[], map[];
      spawnedCollectibles, dispatchCache := {}, [];
      npcActors, npcMotion, npcVersions := map[], map[], map[];
    }

    function Previous(uid: Uid, lane: int): int
      reads this
    {
      if (uid, lane) in lastSequence then lastSequence[(uid, lane)] else -1
    }

    method Advance(uid: Uid, lane: int, sequence: int)
      modifies this`lastSequence
      ensures View() == old(View()).(last := old(View()).last[(uid, lane) := sequence])
    {
      lastSequence := lastSequence[(uid, lane) := sequence];
    }

    /** Which pending rows a receipt would spend: a hit report first, else the follow-up right of an earlier receipt. */
    method CheckReceipt(uid: Uid, m: Message) returns (v: Verdict, hit: nat, extra: nat)
      requires m.body.Receipt?
      ensures v == JudgeReceipt(catalog, View(), uid, m)
      ensures v == Pass ==> hit == WitnessFor(View(), uid, m) && extra == ExtraFor(View(), uid, m)
    {
      hide FirstWitness, FirstExtra;
      hit, extra := 0, 0;
      if m.header.sender != uid || m.body.reporter != uid {
        return Reject, 0, 0;
      }
      var source, skill, status := m.body.source, m.body.skill, m.body.status;
      if m.body.target != uid || source !in roster.Values || !catalog.Permits(skill) || !m.Generic() {
        return Quiet, 0, 0;
      }
      var sequence := m.header.sequence19;
      if sequence <= Previous(uid, 19) {
        return Quiet, 0, 0;
      }
      var pending := if uid in pendingHitReceipts then pendingHitReceipts[uid] else [];
      var terminal := if uid in pendingDeathReceipts then pendingDeathReceipts[uid] else [];
      hit := FindWitness(pending, source, skill, status, sequence);
      extra := FindExtra(terminal, source, skill, sequence);
      v := if hit < |pending| || (status == 3 && extra < |terminal|) then Pass else Quiet;
    }

    method HandleHitReceipt(uid: Uid, m: Message) returns (out: Outcome)
      requires m.body.Receipt? && live && uid in members
      modifies this
      ensures View() == Settled(catalog, old(View()), uid, m, JudgeReceipt(catalog, old(View()), uid, m))
      ensures out == Answered(old(View()), uid, m, JudgeReceipt(catalog, old(View()), uid, m))
    {
      hide Settled, Answered, Commit, JudgeReceipt, HitsAfter, ExtrasAfter, ProjectilesAfter, StatesAfter, Recipients;
      var v, hit, extra := CheckReceipt(uid, m);
      ReceiptVerdict(catalog, View(), uid, m);
      if v != Pass {
        SettleNothing(catalog, View(), uid, m, v);
        return if v == Reject then Rejected else Done({});
      }
      var source, skill, status, sequence := m.body.source, m.body.skill, m.body.status, m.header.sequence19;
      var pending := if uid in pendingHitReceipts then pendingHitReceipts[uid] else [];
      var terminal := if uid in pendingDeathReceipts then pendingDeathReceipts[uid] else [];
      if hit < |pending| {
        SettleWitness(catalog, View(), uid, m);
        PutPending(uid, Without(pending, hit));
        if status == 1 || status == 5 {
          PutTerminal(uid, Newest(terminal + [Extra(source, skill, sequence)]));
        }
      } else {
        SettleExtra(catalog, View(), uid, m);
        PutTerminal(uid, Without(terminal, extra));
      }
      Advance(uid, 19, sequence);
      out := Done(if source != uid then {source} else {});
    }

    method PutPending(uid: Uid, rows: seq<Witness>)
      modifies this`pendingHitReceipts
      ensures View() == old(View()).(hits := old(View()).hits[uid := rows])
    {
      pendingHitReceipts := pendingHitReceipts[uid := rows];
    }

    method PutTerminal(uid: Uid, rows: seq<Extra>)
      modifies this`pendingDeathReceipts
      ensures View() == old(View()).(extras := old(View()).extras[uid := rows])
    {
      pendingDeathReceipts := pendingDeathReceipts[uid := rows];
    }

    static method FindWitness(rows: seq<Witness>, source: Uid, skill: int, status: int, sequence: int) returns (i: nat)
      ensures i == FirstWitness(rows, source, skill, status, sequence)
    {
      i := 0;
      while i < |rows| && !Answers(rows[i], source, skill, status, sequence)
        invariant i <= |rows|
        invariant FirstWitness(rows, source, skill, status, sequence)
               == i + FirstWitness(rows[i..], source, skill, status, sequence)
      {
        assert rows[i..][1..] == rows[i + 1..];
        i := i + 1;
      }
    }

    static method FindExtra(rows: seq<Extra>, source: Uid, skill: int, sequence: int) returns (i: nat)
      ensures i == FirstExtra(rows, source, skill, sequence)
    {
      i := 0;
      while i < |rows| && !Follows(rows[i], source, skill, sequence)
        invariant i <= |rows|
        invariant FirstExtra(rows, source, skill, sequence) == i + FirstExtra(rows[i..], source, skill, sequence)
      {
        assert rows[i..][1..] == rows[i + 1..];
        i := i + 1;
      }
    }

    method CheckPickup(uid: Uid, m: Message) returns (v: Verdict)
      requires m.body.Pickup?
      ensures v == JudgePickup(View(), uid, m)
    {
      var actor, item, value := m.body.player, m.body.key, m.body.answer;
      if m.header.sender != uid || (m.body.stamp.Some? && m.body.stamp.value != pair)
         || !m.Generic() || actor !in members {
        return Reject;
      }
      var requests := if m.body.chest then chestRequests else pickupRequests;
      if m.header.sequence19 <= Previous(uid, 19) {
        return Quiet;
      }
      match m.body.phase {
        case Request =>
          if actor != uid || value !in {0, 1} {
            return Reject;
          }
          if value == 1 {
            return if uid == owner || actor in requests then Quiet else Pass;
          }
          return if actor in requests && requests[actor].key == item then Pass else Quiet;
        case Response =>
          if uid != owner || value !in {0, 1} {
            return Reject;
          }
          if actor !in requests || requests[actor].key != item || requests[actor].approved {
            return Quiet;
          }
          if value == 1 && exists who :: who in requests && who != actor && HeldBy(requests, who, item) {
            return Reject;
          }
          return Pass;
        case Completion =>
          if actor != uid || value != 1 {
            return Reject;
          }
          if uid != owner {
            return if HeldBy(requests, actor, item) then Pass else Reject;
          }
          return if exists who :: who in requests && HeldBy(requests, who, item) then Reject else Pass;
      }
    }

    method HandlePickup(uid: Uid, m: Message) returns (out: Outcome)
      requires m.body.Pickup? && live && uid in members
      modifies this
      ensures View() == Settled(catalog, old(View()), uid, m, JudgePickup(old(View()), uid, m))
      ensures out == Answered(old(View()), uid, m, JudgePickup(old(View()), uid, m))
    {
      hide Settled, Answered, Commit, JudgePickup, HitsAfter, ExtrasAfter, ProjectilesAfter, StatesAfter, Recipients;
      var v := CheckPickup(uid, m);
      PickupVerdict(View(), uid, m);
      if v != Pass {
        SettleNothing(catalog, View(), uid, m, v);
        return if v == Reject then Rejected else Done({});
      }
      SettlePickup(catalog, View(), uid, m);
      var actor, item := m.body.player, m.body.key;
      var requests := if m.body.chest then chestRequests else pickupRequests;
      if m.body.phase != Completion && m.body.answer == 1 {
        requests := requests[actor := Hold(item, m.body.phase == Response)];
      } else {
        requests := requests - {actor};
      }
      if m.body.chest {
        chestRequests := requests;
      } else {
        pickupRequests := requests;
      }
      lastSequence := lastSequence[(uid, 19) := m.header.sequence19];
      out := Done(if m.body.phase == Request then {owner} else members - {uid});
    }

    method CheckTerminal(uid: Uid, m: Message) returns (v: Verdict)
      requires m.body.Terminal? || m.body.Countdown?
      ensures v == JudgeTerminal(View(), uid, m)
    {
      if uid !in roster.Values || m.header.sender != uid {
        return Reject;
      }
      if !m.Generic() {
        return Quiet;
      }
      var target := if m.body.Terminal? then m.body.target else m.body.player;
      if target !in roster.Values {
        return Reject;
      }
      if m.body.Terminal? {
        if m.body.initiator != uid || (target != uid && uid != owner) {
          return Reject;
        }
      } else {
        if uid != owner || target == uid {
          return Reject;
        }
        if m.body.marker != 1 || m.body.seconds > MAX_COUNTDOWN {
          return Quiet;
        }
      }
      if m.header.sequence19 <= Previous(uid, 19) {
        return Quiet;
      }
      v := Pass;
    }

    method HandleDeathNotice(uid: Uid, m: Message) returns (out: Outcome)
      requires (m.body.Terminal? || m.body.Countdown?) && live && uid in members
      modifies this
      ensures View() == Settled(catalog, old(View()), uid, m, JudgeTerminal(old(View()), uid, m))
      ensures out == Answered(old(View()), uid, m, JudgeTerminal(old(View()), uid, m))
    {
      hide Settled, Answered, Commit, JudgeTerminal, HitsAfter, ExtrasAfter, ProjectilesAfter, StatesAfter, Recipients;
      var v := CheckTerminal(uid, m);
      TerminalVerdict(View(), uid, m);
      if v != Pass {
        SettleNothing(catalog, View(), uid, m, v);
        return if v == Reject then Rejected else Done({});
      }
      SettleSpecial(catalog, View(), uid, m);
      lastSequence := lastSequence[(uid, 19) := m.header.sequence19];
      out := Done(if m.body.Countdown? then {m.body.player} else members - {uid});
    }

    method CheckReborn(uid: Uid, m: Message) returns (v: Verdict)
      requires m.body.Snapshot? || m.body.Reborn?
      ensures v == JudgeReborn(View(), uid, m)
    {
      if mode != 16 {
        return Quiet;
      }
      if uid !in roster.Values || m.header.sender != uid {
        return Reject;
      }
      if uid != owner || !m.Generic() {
        return Quiet;
      }
      if m.body.Snapshot? {
        for slot := 0 to |m.body.rows|
          invariant forall i :: 0 <= i < slot ==> RowMatches(roster, i, m.body.rows[i])
        {
          if !RowMatches(roster, slot, m.body.rows[slot]) {
            return Reject;
          }
        }
      } else {
        if m.body.participant !in roster.Values {
          return Reject;
        }
        if !RebornCode(m.body.code, m.body.amount) {
          return Quiet;
        }
      }
      if m.header.sequence19 <= Previous(uid, 19) {
        return Quiet;
      }
      v := Pass;
    }

    method HandleRebornSync(uid: Uid, m: Message) returns (out: Outcome)
      requires (m.body.Snapshot? || m.body.Reborn?) && live && uid in members
      modifies this
      ensures View() == Settled(catalog, old(View()), uid, m, JudgeReborn(old(View()), uid, m))
      ensures out == Answered(old(View()), uid, m, JudgeReborn(old(View()), uid, m))
    {
      hide Settled, Answered, Commit, JudgeReborn, HitsAfter, ExtrasAfter, ProjectilesAfter, StatesAfter, Recipients;
      var v := CheckReborn(uid, m);
      RebornVerdict(View(), uid, m);
      if v != Pass {
        SettleNothing(catalog, View(), uid, m, v);
        return if v == Reject then Rejected else Done({});
      }
      SettleSpecial(catalog, View(), uid, m);
      lastSequence := lastSequence[(uid, 19) := m.header.sequence19];
      out := Done(members - {uid});
    }

    method CheckTransform(uid: Uid, m: Message, now: real) returns (v: Verdict)
      requires m.body.Transform?
      ensures v == JudgeTransform(View(), uid, m, now)
    {
      if uid !in roster.Values || m.header.sender != uid {
        return Reject;
      }
      var first, second := m.body.first, m.body.second;
      if first !in roster.Values || second !in roster.Values || first == second || second != uid || !m.Generic() {
        return Quiet;
      }
      if first !in pairSelections || pairSelections[first].target != second {
        return Quiet;
      }
      if now >= pairSelections[first].deadline {
        return Expire;
      }
      if m.header.sequence19 <= Previous(uid, 19) {
        return Quiet;
      }
      v := Pass;
    }

    method HandlePairTransform(uid: Uid, m: Message, now: real) returns (out: Outcome)
      requires (m.body.Transform?) && live && uid in members
      modifies this
      ensures View() == Settled(catalog, old(View()), uid, m, JudgeTransform(old(View()), uid, m, now))
      ensures out == Answered(old(View()), uid, m, JudgeTransform(old(View()), uid, m, now))
    {
      hide Settled, Answered, Commit, JudgeTransform, HitsAfter, ExtrasAfter, ProjectilesAfter, StatesAfter, Recipients;
      var v := CheckTransform(uid, m, now);
      TransformVerdict(View(), uid, m, now);
      if v == Expire {
        pairSelections := pairSelections - {m.body.first};
        SettleExpired(catalog, old(View()), uid, m);
        return Done({});
      }
      if v != Pass {
        SettleNothing(catalog, View(), uid, m, v);
        return if v == Reject then Rejected else Done({});
      }
      SettleSpecial(catalog, View(), uid, m);
      lastSequence := lastSequence[(uid, 19) := m.header.sequence19];
      out := Done(members - {uid});
    }

    method CheckSlip(uid: Uid, m: Message) returns (v: Verdict)
      requires m.body.Slip?
      ensures v == JudgeSlip(View(), uid, m)
    {
      if uid !in roster.Values || m.header.sender != uid {
        return Reject;
      }
      var first, second := m.body.first, m.body.second;
      if !m.Generic()
         || !((first == uid && second == 0) || (first == 0 && second == uid) || (first == 0 && second == 0)) {
        return Quiet;
      }
      if (first == 0 && !m.body.firstBlank) || (second == 0 && !m.body.secondBlank) {
        return Quiet;
      }
      if m.header.sequence19 <= Previous(uid, 19) {
        return Quiet;
      }
      v := Pass;
    }

    method HandleOwnedSlip(uid: Uid, m: Message) returns (out: Outcome)
      requires (m.body.Slip?) && live && uid in members
      modifies this
      ensures View() == Settled(catalog, old(View()), uid, m, JudgeSlip(old(View()), uid, m))
      ensures out == Answered(old(View()), uid, m, JudgeSlip(old(View()), uid, m))
    {
      hide Settled, Answered, Commit, JudgeSlip, HitsAfter, ExtrasAfter, ProjectilesAfter, StatesAfter, Recipients;
      var v := CheckSlip(uid, m);
      SlipVerdict(View(), uid, m);
      if v != Pass {
        SettleNothing(catalog, View(), uid, m, v);
        return if v == Reject then Rejected else Done({});
      }
      SettleSpecial(catalog, View(), uid, m);
      lastSequence := lastSequence[(uid, 19) := m.header.sequence19];
      out := Done(members - {uid});
    }

    method ObservePairSelection(uid: Uid, m: Message, to: Option<set<Uid>>, now: real)
      modifies this
      ensures View() == Observe(old(View()), uid, m, to, now)
    {
      if !live || uid !in roster.Values || !m.body.Select? || m.header.sender != uid || m.body.player != uid
         || !m.Generic() {
        return;
      }
      var sequence, target := m.header.sequence19, m.body.target;
      if uid in pairSelectionVersions && sequence <= pairSelectionVersions[uid] {
        return;
      }
      pairSelectionVersions := pairSelectionVersions[uid := sequence];
      if target in roster.Values && target != uid && m.body.timeout == SELECTION_TIMEOUT
         && (to.None? || target in to.value) {
        pairSelections := pairSelections[uid := Lease(target, now + 15.0)];
      } else {
        pairSelections := pairSelections - {uid};
      }
    }

    /** The guards of an ordinary relayed event: Pass, Quiet or Reject. */
    method CheckOrdinary(uid: Uid, m: Message) returns (v: Verdict)
      ensures v == JudgeOrdinary(View(), uid, m)
    {
      if m.header.sender != uid {
        return Reject;
      }
      var actor := ActorOf(uid, m);
      if m.body.Owned? {
        if m.body.id == 8284 && m.body.operation !in {1, 2, 3} {
          return Quiet;
        }
        if m.body.id == 8288 && actor == 0 {
          return Quiet;
        }
        if (m.body.id == 8284 || m.body.id == 8293) && actor !in roster.Values {
          return Quiet;
        }
      }
      var hostCancel := m.body.State? && m.body.op == Cancel && uid == owner && m.body.target in members;
      if actor != uid && !hostCancel {
        return if m.body.Hit? || m.body.State? then Quiet else Reject;
      }
      if m.body.State? && m.body.code > 255 {
        return Reject;
      }
      var aim, stamp := AimOf(m.body), PairOf(m.body);
      if aim.Some? && aim.value != 0 && aim.value !in members {
        return Reject;
      }
      if stamp.Some? && stamp.value != pair {
        return Reject;
      }
      var lane;
      if m.header.flag == 0 && m.header.variant == 0 && m.body.Motion? {
        lane := 15;
      } else if m.Generic() {
        lane := 19;
      } else {
        return Quiet;
      }
      var sequence, previous := m.Sequence(), Previous(uid, lane);
      if lane == 15 {
        if sequence < previous
           || (sequence == previous && uid in motionPayloads && motionPayloads[uid] == m.WithoutLane19()) {
          return Quiet;
        }
      } else if sequence <= previous {
        return Quiet;
      }
      v := CheckObject(uid, m);
    }

    method CheckObject(uid: Uid, m: Message) returns (v: Verdict)
      ensures v == JudgeObject(View(), uid, m)
    {
      match m.body {
        case Collectible(family, item) =>
          if uid != owner {
            return Reject;
          }
          if family.None? || (family.value, item) in spawnedCollectibles {
            return Quiet;
          }
          return if |spawnedCollectibles| < REGISTRY_LIMIT then Pass else Reject;
        case Create(source, key, _) =>
          if source != uid && (uid != owner || (source != 0 && source !in members)) {
            return Reject;
          }
          if key in projectiles {
            return if projectiles[key].owner == uid then Quiet else Reject;
          }
          return if |projectiles| < REGISTRY_LIMIT then Pass else Reject;
        case Report(key, target, _) =>
          return if key in projectiles && projectiles[key].alive && target == uid then Pass else Quiet;
        case Result(key, outcome, _) =>
          if key !in projectiles || !projectiles[key].alive || outcome !in {2, 3, 4, 6} {
            return Quiet;
          }
          return if projectiles[key].owner == uid || (outcome == 2 && uid in projectiles[key].reporters)
                 then Pass else Reject;
        case Effect(key, _) =>
          if key !in projectiles || !projectiles[key].alive {
            return Quiet;
          }
          return if projectiles[key].owner == uid then Pass else Reject;
        case End(key, _) =>
          if key !in projectiles || !projectiles[key].alive {
            return Quiet;
          }
          return if projectiles[key].owner == uid then Pass else Reject;
        case State(target, source, code, parameter, event, op, _) =>
          if op == OtherOperation {
            return Quiet;
          }
          if op == Cancel {
            if source != 0 || parameter != 0 || event != 0 {
              return Reject;
            }
            if target != uid && (target, code) !in activeStates {
              return Quiet;
            }
          }
          return Pass;
        case _ =>
          return Pass;
      }
    }

    /** Remember a hit report that a receipt may later spend. */
    method RecordWitness(uid: Uid, m: Message)
      modifies this`pendingHitReceipts
      ensures pendingHitReceipts == Reported(catalog, members, old(pendingHitReceipts), uid, m)
      ensures View() == old(View()).(hits := pendingHitReceipts)
    {
      if m.body.Hit? && catalog.Permits(m.body.skill) && m.body.source in members && m.body.source != uid
         && m.body.mode == 0 {
        var pending := if uid in pendingHitReceipts then pendingHitReceipts[uid] else [];
        var outcomes := catalog.Outcomes(m.body.skill, m.body.status, m.body.callback);
        var row := Witness(m.body.source, m.body.skill, m.body.status, m.Sequence(), outcomes);
        pendingHitReceipts := pendingHitReceipts[uid := Newest(pending + [row])];
      }
    }

    method UpdateProjectiles(uid: Uid, m: Message)
      modifies this`projectiles
      ensures projectiles == ProjectilesAfter(old(projectiles), uid, m)
      ensures View() == old(View()).(projectiles := projectiles)
    {
      match m.body {
        case Create(source, key, _) =>
          projectiles := projectiles[key := Projectile(uid, source, true, {})];
        case Report(key, _, _) =>
          if key in projectiles {
            projectiles := projectiles[key := projectiles[key].(reporters := projectiles[key].reporters + {uid})];
          }
        case Result(key, _, _) =>
          if key in projectiles && uid != projectiles[key].owner {
            projectiles := projectiles[key := projectiles[key].(reporters := projectiles[key].reporters - {uid})];
          }
        case End(key, _) =>
          if key in projectiles {
            projectiles := projectiles[key := projectiles[key].(alive := false)];
          }
        case _ =>
      }
    }

    method UpdateStates(m: Message)
      modifies this`activeStates
      ensures activeStates == StatesAfter(old(activeStates), m)
      ensures View() == old(View()).(states := activeStates)
    {
      if m.body.State? {
        var key := (m.body.target, m.body.code);
        if m.body.op == Apply {
          activeStates := activeStates[key := (m.body.source, m.body.parameter, m.body.event)];
        } else {
          activeStates := activeStates - {key};
        }
      }
    }

    method CommitOrdinary(uid: Uid, m: Message)
      requires Ordinary(m.body)
      requires m.body.Collectible? ==> m.body.family.Some?
      modifies this
      ensures View() == Settled(catalog, old(View()), uid, m, Pass)
    {
      hide Settled, Commit, Reported, ProjectilesAfter, StatesAfter, Ordinary, Answered, MotionAfter, CollectiblesAfter;
      ghost var b := View();
      RecordWitness(uid, m);
      UpdateProjectiles(uid, m);
      UpdateStates(m);
      Advance(uid, m.Lane(), m.Sequence());
      RecordMotion(uid, m);
      SettleOrdinary(catalog, b, uid, m);
    }

    method RecordMotion(uid: Uid, m: Message)
      requires m.body.Collectible? ==> m.body.family.Some?
      modifies this`motionPayloads, this`spawnedCollectibles
      ensures motionPayloads == MotionAfter(old(motionPayloads), uid, m)
      ensures spawnedCollectibles == CollectiblesAfter(old(spawnedCollectibles), m)
      ensures View() == old(View()).(motion := motionPayloads, collectibles := spawnedCollectibles)
    {
      if m.Lane() == 15 {
        motionPayloads := motionPayloads[uid := m.WithoutLane19()];
      }
      if m.body.Collectible? {
        spawnedCollectibles := spawnedCollectibles + {(m.body.family.value, m.body.item)};
      }
    }

    /** Ordinary relayed events; the pair selection they carry is observed by the caller. */
    method HandleOrdinary(uid: Uid, m: Message) returns (out: Outcome, passed: bool)
      requires live && uid in members && Ordinary(m.body)
      modifies this
      ensures View() == Settled(catalog, old(View()), uid, m, JudgeOrdinary(old(View()), uid, m))
      ensures out == Answered(old(View()), uid, m, JudgeOrdinary(old(View()), uid, m))
      ensures passed == (JudgeOrdinary(old(View()), uid, m) == Pass)
    {
      hide Settled, Answered, Commit, JudgeOrdinary, Ordinary;
      var v := CheckOrdinary(uid, m);
      OrdinaryVerdict(View(), uid, m);
      if v != Pass {
        SettleNothing(catalog, View(), uid, m, v);
        return if v == Reject then Rejected else Done({}), false;
      }
      SettleOrdinary(catalog, View(), uid, m);
      CommitOrdinary(uid, m);
      out, passed := Done(members - {uid}), true;
    }

    // -------------------------------------------------------------- actors of a cooperative battle

    /** relay_actor up to its writes: the Host's event of a living actor, newer than what was relayed of it. */
    method CheckNpc(uid: Uid, m: Message) returns (v: Verdict)
      requires OfNpc(View(), m)
      ensures v == JudgeNpc(View(), uid, m)
    {
      var actor := ActorField(m).value;
      if uid != owner || !(actor in npcActors && npcActors[actor].active) {
        return Quiet;
      }
      if !m.body.Motion? && m.header.sender != uid {
        return Reject;
      }
      if (PairOf(m.body).Some? && PairOf(m.body).value != pair)
         || (m.body.Owned? && m.body.id == 8122 && m.body.operation > 7)
         || (m.body.State? && (m.body.op == OtherOperation || m.body.code > 255)) {
        return Quiet;
      }
      if m.body.Hit? || m.body.State? {
        var source := m.body.source;
        if source != 0 && source !in members && !(source in npcActors && npcActors[source].active) {
          return Quiet;
        }
      }
      if m.body.Motion? {
        var stale := actor in npcMotion && StaleMotion(npcMotion[actor], m);
        return if m.Lane() != 15 || stale then Quiet else PassNpc;
      }
      var version := if (uid, actor) in npcVersions then npcVersions[(uid, actor)] else -1;
      var born := npcActors[actor].sequence;
      v := if !m.Generic() || m.header.sequence19 <= (if version > born then version else born) then Quiet else PassNpc;
    }

    method RelayNpc(uid: Uid, m: Message) returns (out: Outcome)
      requires OfNpc(View(), m)
      modifies this`npcMotion, this`npcVersions
      ensures View() == Settled(catalog, old(View()), uid, m, JudgeNpc(old(View()), uid, m))
      ensures out == Answered(old(View()), uid, m, JudgeNpc(old(View()), uid, m))
    {
      hide JudgeNpc, Commit, Recipients;
      var v := CheckNpc(uid, m);
      NpcVerdict(View(), uid, m);
      if v != PassNpc {
        return if v == Reject then Rejected else Done({});
      }
      var actor := ActorField(m).value;
      if m.body.Motion? {
        npcMotion := npcMotion[actor := m.WithoutLane19()];
      } else {
        npcVersions := npcVersions[(uid, actor) := m.header.sequence19];
      }
      out := Done(members - {uid});
    }

    method CheckLife(uid: Uid, actor: Uid, sequence: int, spawn: bool, allowed: bool) returns (ok: bool)
      ensures ok == LifeChanges(View(), uid, actor, sequence, spawn, allowed)
    {
      if !(mode == FOSTER || mode == ASSAULT) || !live || uid != owner || actor == 0 || actor in members {
        return false;
      }
      if actor in npcActors {
        var known := npcActors[actor].sequence;
        var version := if (uid, actor) in npcVersions then npcVersions[(uid, actor)] else -1;
        if sequence <= (if mode == FOSTER && version > known then version else known) {
          return false;
        }
      }
      var active := actor in npcActors && npcActors[actor].active;
      ok := if spawn then allowed && !active else active;
    }

    /** A spawn or a removal as the battle sees it: the actor's life changes and its filters start afresh. */
    method ActorEvent(uid: Uid, actor: Uid, sequence: int, spawn: bool, allowed: bool) returns (accepted: bool)
      modifies this`npcActors, this`npcMotion, this`npcVersions
      ensures View() == Relife(old(View()), uid, actor, sequence, spawn, allowed)
      ensures accepted == LifeChanges(old(View()), uid, actor, sequence, spawn, allowed)
    {
      hide LifeChanges;
      accepted := CheckLife(uid, actor, sequence, spawn, allowed);
      if accepted {
        npcActors := npcActors[actor := Npc(spawn, sequence)];
        npcMotion := npcMotion - {actor};
        npcVersions := map k | k in npcVersions && k.1 != actor :: npcVersions[k];
      }
    }

    /** A spawn or a removal from the Host: an accepted one goes to everybody else, unless it was only observed. */
    method Lifecycle(uid: Uid, actor: Uid, sequence: int, spawn: bool, allowed: bool, observed: bool)
      returns (to: set<Uid>)
      modifies this`npcActors, this`npcMotion, this`npcVersions
      ensures View() == Relife(old(View()), uid, actor, sequence, spawn, allowed)
      ensures to == if LifeChanges(old(View()), uid, actor, sequence, spawn, allowed) && !observed
                    then old(View()).Others(uid) else {}
    {
      hide LifeChanges, Relife;
      var accepted := ActorEvent(uid, actor, sequence, spawn, allowed);
      to := if accepted && !observed then members - {uid} else {};
    }

    // -------------------------------------------------------------- executions and transports

    /** The event families with handlers of their own. */
    method ExecuteSpecial(uid: Uid, m: Message, now: real) returns (out: Outcome)
      requires live && uid in members && !OfNpc(View(), m) && !Ordinary(m.body)
      modifies this
      ensures View() == After(catalog, old(View()), uid, m, now) && out == Answer(catalog, old(View()), uid, m, now)
    {
      hide OfNpc, JudgePickup, JudgeReceipt, JudgeTerminal, JudgeReborn, JudgeTransform, JudgeSlip, JudgeOrdinary,
        Settled, Answered;
      SettleNothing(catalog, View(), uid, m, Quiet);
      SettleNothing(catalog, View(), uid, m, Reject);
      match m.body {
        case Malformed => out := Rejected;
        case Unlisted(_) => out := Done({});
        case Series => out := if uid !in roster.Values || m.header.sender != uid then Rejected else Done({});
        case Pickup(_, _, _, _, _, _) => out := HandlePickup(uid, m);
        case Receipt(_, _, _, _, _) => out := HandleHitReceipt(uid, m);
        case Terminal(_, _) => out := HandleDeathNotice(uid, m);
        case Countdown(_, _, _) => out := HandleDeathNotice(uid, m);
        case Snapshot(_) => out := HandleRebornSync(uid, m);
        case Reborn(_, _, _) => out := HandleRebornSync(uid, m);
        case Transform(_, _) => out := HandlePairTransform(uid, m, now);
        case Slip(_, _, _, _) => out := HandleOwnedSlip(uid, m);
      }
    }

    /** One semantic execution of an event, whichever transport brought it. */
    method Execute(uid: Uid, m: Message, now: real) returns (out: Outcome, passed: bool)
      modifies this
      ensures View() == After(catalog, old(View()), uid, m, now) && out == Answer(catalog, old(View()), uid, m, now)
      ensures m.body.Select? ==> passed == (Judge(catalog, old(View()), uid, m, now) == Pass)
    {
      JudgedOrdinary(catalog, View(), uid, m, now);
      JudgedNpc(catalog, View(), uid, m, now);
      hide Judge, JudgeNpc, JudgeOrdinary, Settled, Answered;
      SettleNothing(catalog, View(), uid, m, Quiet);
      passed := false;
      if !live || uid !in members {
        return Done({}), false;
      }
      if (mode == FOSTER || mode == ASSAULT) && ActorField(m).Some? && ActorField(m).value !in members {
        out := RelayNpc(uid, m);
      } else if Ordinary(m.body) {
        out, passed := HandleOrdinary(uid, m);
      } else {
        out := ExecuteSpecial(uid, m, now);
      }
    }

    /** The handler on the single-transport path; observers never originate combat. */
    method Handle(uid: Uid, m: Message, now: real) returns (out: Outcome)
      modifies this
      ensures View() == Direct(catalog, old(View()), uid, m, now) && out == Received(catalog, old(View()), uid, m, now)
    {
      hide Answer, After, Judge, Observe;
      if !m.body.Select? {
        ObservesSelections(After(catalog, View(), uid, m, now), uid, m, None, now);
      }
      if uid !in roster.Values {
        return Done({});
      }
      var passed;
      out, passed := Execute(uid, m, now);
      if passed && m.body.Select? {
        ObservePairSelection(uid, m, None, now);
      }
    }

    /** Deliver an already decided event to those of the targets it has not reached yet. */
    method RelayCached(uid: Uid, m: Message, i: nat, targets: set<Uid>) returns (result: set<Uid>)
      requires i < |dispatchCache|
      modifies this`dispatchCache
      ensures result == old(dispatchCache[i].outputs) * targets - old(dispatchCache[i].delivered)
      ensures dispatchCache
           == old(dispatchCache)[i := old(dispatchCache[i]).(delivered := old(dispatchCache[i].delivered) + result)]
    {
      var entry := dispatchCache[i];
      result := entry.outputs * targets - entry.delivered;
      dispatchCache := dispatchCache[i := entry.(delivered := entry.delivered + result)];
    }

    /** Keep a fresh decision, evicting the oldest ones beyond the limit. */
    method CacheDecision(e: Entry)
      requires |dispatchCache| <= CACHE_LIMIT
      modifies this`dispatchCache
      ensures dispatchCache == Remember(old(dispatchCache), e)
    {
      if e.outputs != {} {
        dispatchCache := dispatchCache + [e];
        ghost var full := dispatchCache;
        while |dispatchCache| > CACHE_LIMIT
          invariant |dispatchCache| <= |full| && dispatchCache == full[|full| - |dispatchCache|..]
          invariant |dispatchCache| >= if |full| < CACHE_LIMIT then |full| else CACHE_LIMIT
        {
          dispatchCache := dispatchCache[1..];
        }
      }
    }

    /** One semantic execution at most, and delivery to each target at most once. */
    method Relay(uid: Uid, m: Message, to: Option<set<Uid>>, now: real) returns (out: Outcome, observed: bool)
      requires |dispatchCache| <= CACHE_LIMIT
      modifies this
      ensures View() == Relayed(catalog, old(View()), uid, m, to, now)
      ensures out == Handed(catalog, old(View()), uid, m, to, now)
      ensures observed == (out.Done? && Executes(old(View()), uid, m))
    {
      hide Relayed, Handed, Deliverable, Lookup, After, Answer, Remember;
      ghost var b := View();
      if !(live && uid in members && uid in roster.Values) || m.body.Malformed? {
        RelayRefused(catalog, b, uid, m, to, now);
        return Rejected, false;
      }
      var i := FindEntry(uid, m);
      if i < |dispatchCache| {
        var deliverable := StillDeliverable(uid, m);
        if !deliverable {
          RelayStale(catalog, b, uid, m, to, now);
          return Done({}), false;
        }
      }
      var targets := if to.None? then members else to.value;
      if !(targets <= roster.Values) {
        RelayRefused(catalog, b, uid, m, to, now);
        return Rejected, false;
      }
      if i < |dispatchCache| {
        RelayCachedEntry(catalog, b, uid, m, to, now);
        var result := RelayCached(uid, m, i, targets);
        return Done(result), true;
      }
      RelayFresh(catalog, b, uid, m, to, now);
      var answer, _ := Execute(uid, m, now);
      AfterKeepsCache(catalog, b, uid, m, now);
      if answer.Rejected? {
        return Rejected, false;
      }
      var result := answer.to * targets;
      CacheDecision(Entry(uid, m, answer.to, result));
      out, observed := Done(result), true;
    }

    method DispatchPublic(uid: Uid, m: Message, to: Option<set<Uid>>, now: real) returns (out: Outcome)
      requires |dispatchCache| <= CACHE_LIMIT
      modifies this
      ensures View() == Dispatch(catalog, old(View()), uid, m, to, now)
      ensures out == Handed(catalog, old(View()), uid, m, to, now)
    {
      hide Relayed, Handed, Deliverable, Lookup, Observe, Executes;
      var observed;
      out, observed := Relay(uid, m, to, now);
      if observed && m.body.Select? && (m.body.target == 0 || m.body.target in out.to) {
        ObservePairSelection(uid, m, Some(out.to), now);
      }
    }

    method FindEntry(uid: Uid, m: Message) returns (i: nat)
      ensures i == Lookup(dispatchCache, uid, m)
    {
      i := 0;
      while i < |dispatchCache| && !(dispatchCache[i].uid == uid && dispatchCache[i].message == m)
        invariant i <= |dispatchCache|
        invariant Lookup(dispatchCache, uid, m) == i + Lookup(dispatchCache[i..], uid, m)
      {
        assert dispatchCache[i..][1..] == dispatchCache[i + 1..];
        i := i + 1;
      }
    }

    method StillDeliverable(uid: Uid, m: Message) returns (ok: bool)
      ensures ok == Deliverable(View(), uid, m)
    {
      var lane := if m.body.Motion? then 15 else 19;
      if (if m.body.Motion? then m.header.sequence15 else m.header.sequence19) < Previous(uid, lane) {
        return false;
      }
      if m.body.State? {
        var key := (m.body.target, m.body.code);
        if m.body.op == Apply
           && !(key in activeStates && activeStates[key] == (m.body.source, m.body.parameter, m.body.event)) {
          return false;
        }
        if m.body.op == Cancel && key in activeStates {
          return false;
        }
      }
      if m.body.Create? || m.body.Result? || m.body.Report? || m.body.Effect? {
        return m.body.key in projectiles && projectiles[m.body.key].alive;
      }
      ok := true;
    }

    method ForgetRequests(uid: Uid)
      modifies this`dispatchCache, this`pickupRequests, this`chestRequests
      ensures View() == old(View()).(cache := [],
                                     pickups := old(View()).pickups - {uid}, chests := old(View()).chests - {uid})
    {
      dispatchCache, pickupRequests, chestRequests := [], pickupRequests - {uid}, chestRequests - {uid};
    }

    method ForgetReceipts(uid: Uid)
      modifies this`pendingHitReceipts, this`pendingDeathReceipts
      ensures View() == old(View()).(hits := Kept(old(View()).hits, uid), extras := KeptExtras(old(View()).extras, uid))
    {
      pendingHitReceipts, pendingDeathReceipts := Kept(pendingHitReceipts, uid), KeptExtras(pendingDeathReceipts, uid);
    }

    method ForgetSequences(uid: Uid)
      modifies this`lastSequence, this`activeStates, this`motionPayloads
      ensures View() == old(View()).(last := Forget(old(View()).last, uid), states := Forget(old(View()).states, uid),
                                     motion := old(View()).motion - {uid})
    {
      hide Forget;
      lastSequence, activeStates := Forget(lastSequence, uid), Forget(activeStates, uid);
      motionPayloads := motionPayloads - {uid};
    }

    method ForgetSelections(uid: Uid)
      modifies this`pairSelections, this`pairSelectionVersions, this`projectiles
      ensures View() == old(View()).(versions := old(View()).versions - {uid},
                                     selections := WithoutSelections(old(View()).selections, uid),
                                     projectiles := WithoutProjectiles(old(View()).projectiles, uid))
    {
      hide WithoutSelections, WithoutProjectiles;
      pairSelectionVersions := pairSelectionVersions - {uid};
      pairSelections := WithoutSelections(pairSelections, uid);
      projectiles := WithoutProjectiles(projectiles, uid);
    }

    /** The battle side of a departure. */
    method Depart(uid: Uid)
      modifies this
      ensures View() == Leave(old(View()), uid)
    {
      hide Kept, KeptExtras, Forget, WithoutSelections, WithoutProjectiles, Unseat;
      if !live || uid !in members {
        return;
      }
      if uid in roster.Values {
        live := false;
        return;
      }
      UnseatMember(uid);
    }

    method UnseatMember(uid: Uid)
      modifies this
      ensures View() == Unseat(old(View()), uid)
    {
      hide Kept, KeptExtras, Forget, WithoutSelections, WithoutProjectiles;
      members := members - {uid};
      ForgetRequests(uid);
      ForgetReceipts(uid);
      ForgetSequences(uid);
      ForgetSelections(uid);
    }
  }
}
