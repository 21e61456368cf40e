/** Decoded battle events and the per-room battle state they act on. */
module BattleEvents {
  type Uid = int

  datatype Option<+T> = None | Some(value: T)

  datatype Pair = Pair(number: int, serial: int)

  /** The common 39-byte prefix; `rest` stands for every byte the service does not interpret. */
  datatype Header = Header(sender: Uid, flag: nat, variant: nat, sequence15: nat, sequence19: nat, rest: nat)

  datatype Operation = Apply | Cancel | OtherOperation

  datatype PickupPhase = Request | Response | Completion

  datatype SnapshotRow = SnapshotRow(player: Uid, blank: bool)

  datatype Body =
    | Malformed
    | Unlisted(id: int)
    | Series                                                           // 8294-8297, in a room without series
    | Motion                                                                                      // 8120
    | Hit(target: Uid, source: Uid, skill: int, callback: int, mode: int, status: int, pair: Pair) // 8121
    | Owned(id: int, actor: Uid, aim: Option<Uid>, operation: int, stamp: Option<Pair>)
                                    // 8122 8125 8127 8140 8280 8284 8288 8293
                                    // `operation` is the field the relay tests: a direction in 8122
    | Select(player: Uid, target: Uid, timeout: int)                                              // 8143
    | State(target: Uid, source: Uid, code: int, parameter: int, event: int, op: Operation, pair: Pair) // 8150
    | Collectible(family: Option<bool>, item: int)                                             // 8287
    | Create(source: Uid, key: int, pair: Pair)                                                   // 8400
    | Result(key: int, outcome: int, pair: Pair)                                                  // 8401
    | Report(key: int, target: Uid, pair: Pair)                                                   // 8402
    | Effect(key: int, pair: Pair)                                                                // 8403
    | End(key: int, pair: Pair)                                                                   // 8404
    | Receipt(reporter: Uid, target: Uid, source: Uid, skill: int, status: int)                   // 8126
    | Pickup(chest: bool, phase: PickupPhase, player: Uid, key: int, answer: nat, stamp: Option<Pair>)
                                                                                  // 9000-9002 9500-9502
    | Terminal(initiator: Uid, target: Uid)                                                       // 8286
    | Countdown(player: Uid, marker: int, seconds: int)                                           // 8278
    | Snapshot(rows: seq<SnapshotRow>)                                                            // 8155
    | Reborn(participant: Uid, code: int, amount: int)                                            // 8157
    | Transform(first: Uid, second: Uid)                                                          // 8144
    | Slip(first: Uid, second: Uid, firstBlank: bool, secondBlank: bool)                          // 8270

  /** A payload: equal payloads are equal messages. */
  datatype Message = Message(header: Header, body: Body) {
    predicate Generic() { header.flag == 1 && header.variant == 1 }

    function Lane(): int { if body.Motion? && header.flag == 0 && header.variant == 0 then 15 else 19 }

    function Sequence(): nat { if Lane() == 15 then header.sequence15 else header.sequence19 }

    /** The bytes compared for a motion of equal sequence: all but those of the lane-19 counter. */
    function WithoutLane19(): Message { this.(header := header.(sequence19 := 0)) }
  }

  datatype Hold = Hold(key: int, approved: bool)

  datatype Witness = Witness(source: Uid, skill: int, status: int, sequence: int, outcomes: set<int>)

  datatype Extra = Extra(source: Uid, skill: int, sequence: int)

  datatype Projectile = Projectile(owner: Uid, source: Uid, alive: bool, reporters: set<Uid>)

  datatype Lease = Lease(target: Uid, deadline: real)

  /** One cached decision: who is to receive the event, and who already did. */
  datatype Entry = Entry(uid: Uid, message: Message, outputs: set<Uid>, delivered: set<Uid>)

  /** The combat catalogue as far as receipts use it. */
  datatype Catalog = Catalog(effectFree: set<int>, guardBreak: set<int>) {
    predicate Permits(skill: int) { skill in effectFree }

    function Outcomes(skill: int, status: int, callback: int): set<int> {
      if Permits(skill) && skill in guardBreak && status == 2 && callback == 1 then {2, 4} else {status}
    }
  }

  /** An actor of a cooperative battle: alive or removed, and the sequence of the lifecycle event that made it so. */
  datatype Npc = Npc(active: bool, sequence: int)

  /** What the stage object of a cooperative battle keeps for relaying its actors. */
  datatype Npcs = Npcs(actors: map<Uid, Npc>, motion: map<Uid, Message>, versions: map<(Uid, Uid), int>) {
    predicate Active(actor: Uid) { actor in actors && actors[actor].active }

    function Version(uid: Uid, actor: Uid): int { if (uid, actor) in versions then versions[(uid, actor)] else -1 }

    /** The sequence an event of a known actor has to exceed. */
    function Threshold(uid: Uid, actor: Uid): int
      requires actor in actors
    {
      if Version(uid, actor) > actors[actor].sequence then Version(uid, actor) else actors[actor].sequence
    }
  }

  const FOSTER: int := 10
  const ASSAULT: int := 21

  datatype Battle = Battle(
    live: bool, pair: Pair, mode: int, owner: Uid, roster: map<int, Uid>, members: set<Uid>,
    last: map<(Uid, int), int>, motion: map<Uid, Message>,
    states: map<(Uid, int), (Uid, int, int)>,
    selections: map<Uid, Lease>, versions: map<Uid, int>,
    projectiles: map<int, Projectile>, pickups: map<Uid, Hold>, chests: map<Uid, Hold>,
    hits: map<Uid, seq<Witness>>, extras: map<Uid, seq<Extra>>,
    collectibles: set<(bool, int)>, cache: seq<Entry>, npcs: Npcs)
  {
    predicate Cooperative() { mode == FOSTER || mode == ASSAULT }

    function Fighters(): set<Uid> { roster.Values }

    function Seen(uid: Uid, lane: int): int { if (uid, lane) in last then last[(uid, lane)] else -1 }

    function Others(uid: Uid): set<Uid> { members - {uid} }

    function Holds(chest: bool): map<Uid, Hold> { if chest then chests else pickups }
  }

  /** The state start_match leaves behind: every ledger empty, a fresh serial. */
  function Fresh(pair: Pair, mode: int, owner: Uid, roster: map<int, Uid>, members: set<Uid>): Battle {
    Battle(true, pair, mode, owner, roster, members, map[], map[], map[], map[], map[], map[], map[], map[],
           map[], map[], {}, [], Npcs(map[], map[], map[]))
  }

  /** What a call ends in: a protocol error, or the set of members handed the payload. */
  datatype Outcome = Rejected | Done(to: set<Uid>)

  /** How a handler settles an event before it writes anything. */
  datatype Verdict = Reject | Quiet | Expire | Pass | PassNpc
}
