/** A shared room: its members, its stage, and the requests waiting in it. */
module RoomState {
  type Uid = int

  datatype Option<+T> = None | Some(value: T)

  /** Phase of a member's game connection; NoGame while disconnected. */
  datatype Phase = NoGame | InLobby | InRoom | InLoading | InWaitReady | InBattle

  datatype Stage = Waiting | Loading | WaitReady | Fighting | Finished

  datatype Member = Member(slot: int, team: int, ready: bool, spectator: bool, key: int, phase: Phase, connection: int)

  /** The creation request as far as policy reads it; `rest` is everything else a settings update can change. */
  datatype Settings = Settings(mode: int, capacity: int, watch: bool, duration: int, rest: int)

  /**
   * A settings update. It has no field for mode or capacity; `sound` stands for its option bytes, texts and map, and
   * `rest` for what it changes besides the watch option and the duration.
   */
  datatype Update = Update(sound: bool, watch: bool, duration: int, rest: int)

  const DURATIONS: set<int> := {120, 180, 240, 300}

  /** The request with the bytes of an update written into it. */
  function Patched(s: Settings, u: Update): Settings {
    s.(watch := u.watch, duration := u.duration, rest := u.rest)
  }

  datatype Seat = Seat(connection: int, slot: int, team: int, key: int, ready: bool, spectator: bool)

  /** What has to stay the same between a start request and the start. */
  datatype Identity = Identity(owner: Uid, settings: Settings, seats: map<Uid, Seat>)

  datatype Probe = Probe(start: real, identity: Identity, pending: set<Uid>)

  datatype Swap = Swap(source: Uid, target: Uid, old_: int, new_: int)

  datatype Exchange = Exchange(swap: Swap, identity: Identity, deadline: real)

  datatype Policy = Policy(public: bool, probing: bool, spectators: int, reconnect: real)

  datatype Room = Room(
    gone: bool, owner: Uid, settings: Settings, stage: Stage,
    members: map<Uid, Member>, order: seq<Uid>, located: set<Uid>, suspended: map<Uid, real>,
    loaded: set<Uid>, input: set<Uid>, reports: seq<(Uid, set<Uid>)>, replies: set<Uid>, acks: set<Uid>,
    probe: Option<Probe>, exchange: Option<Exchange>, deadline: real,
    pve: bool, positions: bool, tutorial: bool)
  {
    function Fighters(): set<Uid> { FightersOf(members) }
  }

  function FightersOf(members: map<Uid, Member>): set<Uid> {
    set u | u in members && !members[u].spectator
  }

  /** The parts of the world a handler looks at: the clock, and whose P2P lease is alive and bound. */
  datatype World = World(now: real, alive: set<Uid>, bound: set<Uid>)

  const COMPETITIVE: set<int> := {0, 1, 2, 3, 16}
  const TEAMED: set<int> := {1, 3}
  const TUTORIAL: int := 4
  const FOSTER: int := 10
  const ASSAULT: int := 21

  /** What resolve_room_request admits: the capacities of each mode. */
  predicate Admitted(s: Settings) {
    if s.mode == TUTORIAL then s.capacity == 1
    else s.mode in COMPETITIVE + {5, FOSTER, ASSAULT} && s.capacity in {2, 4, 6, 8}
         && (s.mode in {16, FOSTER, ASSAULT} ==> s.capacity <= 6)
  }
}
