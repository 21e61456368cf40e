/**
 The encrypted record layer: headers, the per-connection Records state, RecordWriter and RecordReader.

 The AEAD is a pair of functions with one law (opening what was sealed under the same key, nonce and header gives the
 plaintext back). A key is identified with the context it is derived from.
 */
module RecordLayer {
  import opened Bytes
  import opened ReplayWindow
  import Framing

  const HEADER_SIZE: nat := 52
  const TAG: nat := 16
  const MAX_PLAIN: nat := 32768
  const LIMIT: nat := 0x1_0000_0000
  const SDK: nat := 1
  const GAME: nat := 2
  const UDP: nat := 3

  datatype Option<+T> = None | Some(value: T)

  // ---------------------------------------------------------------- headers

  datatype Head = Head(channel: nat, direction: nat, sid: seq<Byte>, cid: seq<Byte>, sequence: nat, size: nat)

  predicate WellFormed(h: Head) {
    && h.channel in {SDK, GAME, UDP} && h.direction in {0, 1}
    && |h.sid| == 16 && |h.cid| == 16
    && h.sequence < LIMIT && 1 <= h.size <= MAX_PLAIN
  }

  const MAGIC: seq<Byte> := [0x4b, 0x4b, 0x45, 0x31]

  /** HEADER.pack: magic, channel, direction, a zero reserved field, both identities, sequence and size. */
  function PackHeader(h: Head): (b: seq<Byte>)
    requires |h.sid| == 16 && |h.cid| == 16
    ensures |b| == HEADER_SIZE
  {
    MAGIC + PutBe(h.channel, 1) + PutBe(h.direction, 1) + PutBe(0, 2) + h.sid + h.cid
    + PutBe(h.sequence, 8) + PutBe(h.size, 4)
  }

  function Inspect(b: seq<Byte>): Option<Head> {
    if |b| != HEADER_SIZE then None
    else
      var h := Head(GetBe(b[4..5]), GetBe(b[5..6]), b[8..24], b[24..40], GetBe(b[40..48]), GetBe(b[48..52]));
      if b[..4] != MAGIC || GetBe(b[6..8]) != 0 || !WellFormed(h) then None else Some(h)
  }

  lemma InspectPacked(h: Head)
    requires WellFormed(h)
    ensures Inspect(PackHeader(h)) == Some(h)
  {
    hide GetBe, PutBe;
    Widths();
    BeRoundTrip(h.channel, 1);
    BeRoundTrip(h.direction, 1);
    BeRoundTrip(0, 2);
    BeRoundTrip(h.sequence, 8);
    BeRoundTrip(h.size, 4);
    var b := PackHeader(h);
    assert b[..4] == MAGIC;
    assert b[4..5] == PutBe(h.channel, 1) && b[5..6] == PutBe(h.direction, 1) && b[6..8] == PutBe(0, 2);
    assert b[8..24] == h.sid && b[24..40] == h.cid;
    assert b[40..48] == PutBe(h.sequence, 8) && b[48..52] == PutBe(h.size, 4);
  }

  // ---------------------------------------------------------------- the AEAD

  datatype Key = Key(master: seq<Byte>, channel: nat, direction: nat, sid: seq<Byte>, cid: seq<Byte>)

  datatype Aead = Aead(
    encrypt: (Key, nat, seq<Byte>, seq<Byte>) -> seq<Byte>,
    decrypt: (Key, nat, seq<Byte>, seq<Byte>) -> Option<seq<Byte>>)

  /** Arguments are key, sequence (the nonce is its eight bytes behind four zero bytes), text and header. */
  ghost predicate Lawful(a: Aead) {
    forall k, n, p, h ::
      |a.encrypt(k, n, p, h)| == |p| + TAG && a.decrypt(k, n, a.encrypt(k, n, p, h), h) == Some(p)
  }

  /** The law can be met, so what is proved from it is about something. */
  lemma LawIsSatisfiable()
    ensures exists a :: Lawful(a)
  {
    var a := Aead((k, n, p, h) => p + seq(TAG, i => 0),
                  (k, n, sealed, h) => if |sealed| < TAG then None else Some(sealed[..|sealed| - TAG]));
    forall k, n, p, h
      ensures |a.encrypt(k, n, p, h)| == |p| + TAG && a.decrypt(k, n, a.encrypt(k, n, p, h), h) == Some(p)
    {
      assert (p + seq(TAG, i => 0))[..|p|] == p;
    }
    assert Lawful(a);
  }

  // ---------------------------------------------------------------- Records

  /** One end of one connection: tx is 1 for the server and 0 for the client. */
  datatype Records = Records(master: seq<Byte>, sid: seq<Byte>, cid: seq<Byte>, channel: nat, tx: nat,
                             sent: nat, next: nat, window: Window)

  predicate Configured(r: Records) {
    |r.sid| == 16 && |r.cid| == 16 && r.channel in {SDK, GAME, UDP} && r.tx in {0, 1}
  }

  function TxKey(r: Records): Key {
    Key(r.master, r.channel, r.tx, r.sid, r.cid)
  }

  function TxHead(r: Records, size: nat): Head {
    Head(r.channel, r.tx, r.sid, r.cid, r.sent, size)
  }

  predicate CanSeal(r: Records, plain: seq<Byte>) {
    1 <= |plain| <= MAX_PLAIN && r.sent < LIMIT
  }

  function Packet(a: Aead, r: Records, plain: seq<Byte>): seq<Byte>
    requires Configured(r)
  {
    var head := PackHeader(TxHead(r, |plain|));
    head + a.encrypt(TxKey(r), r.sent, plain, head)
  }

  /** The plaintext of a record, or None where the source raises; the state only moves when the record is opened. */
  function OpenRecord(a: Aead, r: Records, packet: seq<Byte>): (o: (Option<seq<Byte>>, Records))
    requires Configured(r)
    ensures Configured(o.1)
  {
    var head := packet[..if |packet| < HEADER_SIZE then |packet| else HEADER_SIZE];
    match Inspect(head)
    case None => (None, r)
    case Some(h) =>
      if h.channel != r.channel || h.direction != 1 - r.tx || h.sid != r.sid || h.cid != r.cid
         || |packet| != HEADER_SIZE + h.size + TAG then (None, r)
      else if if r.channel == UDP then !Fresh(r.window, h.sequence) else h.sequence != r.next then (None, r)
      else
        match a.decrypt(Key(r.master, r.channel, h.direction, r.sid, r.cid), h.sequence, packet[HEADER_SIZE..], head)
        case None => (None, r)
        case Some(plain) =>
          (Some(plain), if r.channel == UDP then r.(window := Commit(r.window, h.sequence)) else r.(next := r.next + 1))
  }

  class RecordState {
    const aead: Aead
    const master: seq<Byte>
    const sid: seq<Byte>
    const cid: seq<Byte>
    const channel: nat
    const tx: nat
    var sent: nat
    var next: nat
    var high: int
    var seen: nat

    ghost function View(): Records
      reads this
    {
      Records(master, sid, cid, channel, tx, sent, next, Window(high, seen))
    }

    constructor (aead: Aead, master: seq<Byte>, sid: seq<Byte>, cid: seq<Byte>, channel: nat, server: bool)
      requires |sid| == 16 && |cid| == 16 && channel in {SDK, GAME, UDP}
      ensures this.aead == aead
      ensures View() == Records(master, sid, cid, channel, if server then 1 else 0, 0, 0, EMPTY) && Configured(View())
    {
      this.aead, this.master, this.sid, this.cid, this.channel := aead, master, sid, cid, channel;
      tx := if server then 1 else 0;
      sent, next, high, seen := 0, 0, -1, 0;
    }

    method Seal(plain: seq<Byte>) returns (packet: Option<seq<Byte>>)
      requires Configured(View())
      modifies this`sent
      ensures CanSeal(old(View()), plain) ==>
                packet == Some(Packet(aead, old(View()), plain)) && sent == old(sent) + 1
      ensures !CanSeal(old(View()), plain) ==> packet == None && sent == old(sent)
    {
      if !(1 <= |plain| <= MAX_PLAIN) || sent >= LIMIT {
        return None;
      }
      var sequence := sent;
      sent := sent + 1;
      var header := PackHeader(Head(channel, tx, sid, cid, sequence, |plain|));
      packet := Some(header + aead.encrypt(Key(master, channel, tx, sid, cid), sequence, plain, header));
    }

    method Open(packet: seq<Byte>) returns (plain: Option<seq<Byte>>)
      requires Configured(View())
      modifies this`next, this`high, this`seen
      ensures (plain, View()) == OpenRecord(aead, old(View()), packet)
    {
      var header := packet[..if |packet| < HEADER_SIZE then |packet| else HEADER_SIZE];
      var inspected := Inspect(header);
      if inspected == None {
        return None;
      }
      var h := inspected.value;
      if h.channel != channel || h.direction != 1 - tx || h.sid != sid || h.cid != cid
         || |packet| != HEADER_SIZE + h.size + TAG {
        return None;
      }
      if channel == UDP {
        var age := high - h.sequence;
        if age >= WIDTH || (age >= 0 && Bit(seen, age)) {
          return None;
        }
      } else if h.sequence != next {
        return None;
      }
      plain := aead.decrypt(Key(master, channel, h.direction, sid, cid), h.sequence, packet[HEADER_SIZE..], header);
      if plain == None {
        return;
      }
      if channel == UDP {
        if h.sequence > high {
          seen := Low(ShiftLeft(seen, Min(h.sequence - high, WIDTH)), WIDTH);
          high := h.sequence;
        }
        seen := SetBit(seen, high - h.sequence);
      } else {
        next := next + 1;
      }
    }
  }

  // ---------------------------------------------------------------- writing

  function Advance(r: Records, n: nat): Records {
    r.(sent := r.sent + n)
  }

  datatype Written = Written(raw: seq<Byte>, ok: bool)

  /** RecordWriter.write: one record for each MAX_PLAIN slice; a refused record leaves the earlier ones written. */
  function WriteData(a: Aead, r: Records, data: seq<Byte>): Written
    requires Configured(r)
    decreases |data|
  {
    if data == [] then Written([], true)
    else
      var plain := data[..Min(|data|, MAX_PLAIN)];
      if !CanSeal(r, plain) then Written([], false)
      else
        var rest := WriteData(a, Advance(r, 1), data[|plain|..]);
        rest.(raw := Packet(a, r, plain) + rest.raw)
  }

  function Prefixed(raw: seq<Byte>, w: Written): Written {
    w.(raw := raw + w.raw)
  }

  /** One iteration of the write loop, at offset `at` and with `out` already written. */
  lemma WriteUnfold(a: Aead, r: Records, data: seq<Byte>, at: nat, out: seq<Byte>)
    requires Configured(r) && at < |data|
    ensures var plain := data[at..Min(at + MAX_PLAIN, |data|)];
      Prefixed(out, WriteData(a, r, data[at..])) ==
      if CanSeal(r, plain) then Prefixed(out + Packet(a, r, plain), WriteData(a, Advance(r, 1), data[at + |plain|..]))
      else Written(out, false)
  {
    hide Packet;
    var plain := data[at..Min(at + MAX_PLAIN, |data|)];
    var rest := data[at..];
    assert rest[..Min(|rest|, MAX_PLAIN)] == plain && rest[|plain|..] == data[at + |plain|..];
    if CanSeal(r, plain) {
      var p, tail := Packet(a, r, plain), WriteData(a, Advance(r, 1), data[at + |plain|..]);
      assert out + (p + tail.raw) == out + p + tail.raw;
    } else {
      assert out + [] == out;
    }
  }

  lemma WriteNothing(a: Aead, r: Records, data: seq<Byte>, out: seq<Byte>)
    requires Configured(r) && data == []
    ensures Prefixed(out, WriteData(a, r, data)) == Written(out, true) && Pieces(data) == []
  {
    assert out + [] == out;
  }

  lemma PiecesUnfold(data: seq<Byte>, at: nat)
    requires at < |data|
    ensures var n := Min(at + MAX_PLAIN, |data|);
      |Pieces(data[at..])| == 1 + |Pieces(data[n..])|
  {
    var n := Min(at + MAX_PLAIN, |data|);
    var rest := data[at..];
    assert rest[Min(|rest|, MAX_PLAIN)..] == data[n..];
  }

  /** The slices that write makes of its data. */
  function Pieces(data: seq<Byte>): (ps: seq<seq<Byte>>)
    ensures forall p | p in ps :: 1 <= |p| <= MAX_PLAIN
    ensures Flatten(ps) == data
  {
    if data == [] then []
    else
      var n := Min(|data|, MAX_PLAIN);
      assert data == data[..n] + data[n..];
      [data[..n]] + Pieces(data[n..])
  }

  /** The records of a list of plaintexts, with consecutive sequences. */
  function SealAll(a: Aead, r: Records, ps: seq<seq<Byte>>): seq<Byte>
    requires Configured(r)
    decreases |ps|
  {
    if ps == [] then [] else Packet(a, r, ps[0]) + SealAll(a, Advance(r, 1), ps[1..])
  }

  lemma {:induction false} SealAllAppend(a: Aead, r: Records, ps: seq<seq<Byte>>, qs: seq<seq<Byte>>)
    requires Configured(r)
    ensures SealAll(a, r, ps + qs) == SealAll(a, r, ps) + SealAll(a, Advance(r, |ps|), qs)
    decreases |ps|
  {
    hide Packet;
    if ps == [] {
      assert ps + qs == qs;
    } else {
      assert (ps + qs)[0] == ps[0] && (ps + qs)[1..] == ps[1..] + qs;
      SealAllAppend(a, Advance(r, 1), ps[1..], qs);
    }
  }

  /** A write that succeeds puts out exactly the records of its pieces; it succeeds iff the key has room for them. */
  lemma {:induction false} WriteIsSealAll(a: Aead, r: Records, data: seq<Byte>)
    requires Configured(r)
    ensures WriteData(a, r, data).ok <==> (data == [] || r.sent + |Pieces(data)| <= LIMIT)
    ensures WriteData(a, r, data).ok ==> WriteData(a, r, data).raw == SealAll(a, r, Pieces(data))
    decreases |data|
  {
    hide Packet;
    if data != [] {
      var n := Min(|data|, MAX_PLAIN);
      var ps := Pieces(data);
      assert ps == [data[..n]] + Pieces(data[n..]) && ps[1..] == Pieces(data[n..]);
      WriteIsSealAll(a, Advance(r, 1), data[n..]);
      assert data[n..] != [] ==> |Pieces(data[n..])| > 0;
    }
  }

  /** A list of write calls. */
  function WriteBatches(a: Aead, r: Records, batches: seq<seq<Byte>>): Written
    requires Configured(r)
    decreases |batches|
  {
    if batches == [] then Written([], true)
    else
      var first := WriteData(a, r, batches[0]);
      if !first.ok then first
      else
        var rest := WriteBatches(a, Advance(r, |Pieces(batches[0])|), batches[1..]);
        rest.(raw := first.raw + rest.raw)
  }

  function BatchPieces(batches: seq<seq<Byte>>): (ps: seq<seq<Byte>>)
    ensures forall p | p in ps :: 1 <= |p| <= MAX_PLAIN
    ensures Flatten(ps) == Flatten(batches)
    decreases |batches|
  {
    if batches == [] then [] else
      FlattenAppend(Pieces(batches[0]), BatchPieces(batches[1..]));
      Pieces(batches[0]) + BatchPieces(batches[1..])
  }

  lemma {:induction false} BatchesAreSealed(a: Aead, r: Records, batches: seq<seq<Byte>>)
    requires Configured(r) && r.sent <= LIMIT && WriteBatches(a, r, batches).ok
    ensures r.sent + |BatchPieces(batches)| <= LIMIT
    ensures WriteBatches(a, r, batches).raw == SealAll(a, r, BatchPieces(batches))
    decreases |batches|
  {
    if batches != [] {
      var n := |Pieces(batches[0])|;
      WriteIsSealAll(a, r, batches[0]);
      BatchesAreSealed(a, Advance(r, n), batches[1..]);
      SealAllAppend(a, r, Pieces(batches[0]), BatchPieces(batches[1..]));
    }
  }

  class RecordWriter {
    const records: RecordState
    var raw: seq<Byte>  // everything handed to the transport

    constructor (records: RecordState)
      ensures this.records == records && raw == []
    {
      this.records := records;
      raw := [];
    }

    method Write(data: seq<Byte>) returns (ok: bool)
      requires Configured(records.View())
      modifies this`raw, records`sent
      ensures var w := WriteData(records.aead, old(records.View()), data);
        raw == old(raw) + w.raw && ok == w.ok
      ensures ok ==> records.View() == Advance(old(records.View()), |Pieces(data)|)
    {
      hide Packet, WriteData, Pieces;
      ghost var state := records.View();
      ghost var out, pieces := [], 0;
      var at := 0;
      assert data[0..] == data
             && [] + WriteData(records.aead, state, data).raw == WriteData(records.aead, state, data).raw;
      while at < |data|
        invariant at <= |data| && raw == old(raw) + out
        invariant records.View() == Advance(state, pieces)
        invariant |Pieces(data)| == pieces + |Pieces(data[at..])|
        invariant WriteData(records.aead, state, data)
               == Prefixed(out, WriteData(records.aead, records.View(), data[at..]))
      {
        var plain := data[at..Min(at + MAX_PLAIN, |data|)];
        WriteUnfold(records.aead, records.View(), data, at, out);
        PiecesUnfold(data, at);
        var packet := records.Seal(plain);
        match packet
        case None =>
          return false;
        case Some(bytes) =>
          raw := raw + bytes;
          out := out + bytes;
          at := at + |plain|;
          pieces := pieces + 1;
      }
      WriteNothing(records.aead, records.View(), data[at..], out);
      ok := true;
    }
  }

  // ---------------------------------------------------------------- reading

  datatype ReadState = ReadState(raw: seq<Byte>, records: Records, buffer: seq<Byte>)

  datatype ReadResult = Data(out: seq<Byte>) | ReadError

  function TakeBuffered(s: ReadState, n: nat): (ReadResult, ReadState) {
    var k := Min(n, |s.buffer|);
    (Data(s.buffer[..k]), s.(buffer := s.buffer[k..]))
  }

  /** RecordReader.read on a transport that will still deliver exactly s.raw before its end of file. */
  function ReadStep(a: Aead, s: ReadState, n: int): (o: (ReadResult, ReadState))
    requires Configured(s.records)
    ensures Configured(o.1.records)
  {
    if n <= 0 then (Data([]), s)
    else if s.buffer != [] then TakeBuffered(s, n)
    else if |s.raw| < HEADER_SIZE then
      if s.raw == [] then (Data([]), s) else (ReadError, s.(raw := []))
    else
      match Inspect(s.raw[..HEADER_SIZE])
      case None => (ReadError, s.(raw := s.raw[HEADER_SIZE..]))
      case Some(h) =>
        var end := HEADER_SIZE + h.size + TAG;
        if |s.raw| < end then (ReadError, s.(raw := []))
        else
          var (plain, records) := OpenRecord(a, s.records, s.raw[..end]);
          match plain
          case None => (ReadError, s.(raw := s.raw[end..]))
          case Some(p) => TakeBuffered(ReadState(s.raw[end..], records, p), n)
  }

  class RecordReader {
    const records: RecordState
    var raw: seq<Byte>     // what the transport will still deliver before its end of file
    var buffer: seq<Byte>

    ghost function View(): ReadState
      reads this, records
    {
      ReadState(raw, records.View(), buffer)
    }

    constructor (raw: seq<Byte>, records: RecordState, initial: seq<Byte>)
      ensures this.records == records && View() == ReadState(raw, records.View(), initial)
    {
      this.raw, this.records, this.buffer := raw, records, initial;
    }

    method Read(n: int) returns (r: ReadResult)
      requires Configured(records.View())
      modifies this, records`next, records`high, records`seen
      ensures (r, View()) == ReadStep(records.aead, old(View()), n)
    {
      if n <= 0 {
        return Data([]);
      }
      if buffer == [] {
        if |raw| < HEADER_SIZE {
          if raw != [] {
            raw := [];
            return ReadError;
          }
          return Data([]);
        }
        var header := raw[..HEADER_SIZE];
        ghost var all := raw;
        raw := raw[HEADER_SIZE..];
        var inspected := Inspect(header);
        if inspected == None {
          return ReadError;
        }
        var size := inspected.value.size + TAG;
        if |raw| < size {
          raw := [];
          return ReadError;
        }
        var body := raw[..size];
        raw := raw[size..];
        assert header + body == all[..HEADER_SIZE + size] && raw == all[HEADER_SIZE + size..];
        var plain := records.Open(header + body);
        if plain == None {
          return ReadError;
        }
        buffer := plain.value;
      }
      var k := Min(n, |buffer|);
      r := Data(buffer[..k]);
      buffer := buffer[k..];
    }
  }

  // ---------------------------------------------------------------- stream transparency

  /** The two ends of one stream connection, the reader expecting what the writer seals next. */
  ghost predicate Peers(w: Records, r: Records) {
    && Configured(w) && Configured(r) && w.channel != UDP
    && w.master == r.master && w.sid == r.sid && w.cid == r.cid && w.channel == r.channel && r.tx == 1 - w.tx
    && r.next == w.sent
  }

  /** Opening the peer's next record gives its plaintext and keeps the two ends in step. */
  lemma OpenSealed(a: Aead, w: Records, r: Records, plain: seq<Byte>)
    requires Lawful(a) && Peers(w, r) && CanSeal(w, plain)
    ensures OpenRecord(a, r, Packet(a, w, plain)) == (Some(plain), r.(next := r.next + 1))
    ensures Peers(Advance(w, 1), r.(next := r.next + 1))
    ensures |Packet(a, w, plain)| == HEADER_SIZE + |plain| + TAG
    ensures Inspect(Packet(a, w, plain)[..HEADER_SIZE]) == Some(TxHead(w, |plain|))
  {
    hide Inspect, PackHeader;
    var h := TxHead(w, |plain|);
    InspectPacked(h);
    var head := PackHeader(h);
    var body := a.encrypt(TxKey(w), w.sent, plain, head);
    assert Packet(a, w, plain)[..HEADER_SIZE] == head && Packet(a, w, plain)[HEADER_SIZE..] == body;
  }

  /** A stream channel accepts exactly the next sequence: 0, 1, 2, ... */
  lemma StreamOrder(a: Aead, r: Records, packet: seq<Byte>)
    requires Configured(r) && r.channel != UDP
    ensures var (plain, after) := OpenRecord(a, r, packet);
      && (plain.Some? ==> after == r.(next := r.next + 1) && |packet| >= HEADER_SIZE
                          && Inspect(packet[..HEADER_SIZE]).Some?
                           && Inspect(packet[..HEADER_SIZE]).value.sequence == r.next)
      && (plain.None? ==> after == r)
  {
    hide Inspect;
    if |packet| < HEADER_SIZE {
      assert Inspect(packet[..|packet|]) == None by {
        NoShortHeader(packet);
      }
    }
  }

  lemma NoShortHeader(b: seq<Byte>)
    requires |b| < HEADER_SIZE
    ensures Inspect(b[..|b|]) == None
  {
  }

  /** A reader whose transport holds the records of ps, and which may still buffer plaintext of an earlier record. */
  ghost predicate Holds(a: Aead, s: ReadState, w: Records, ps: seq<seq<Byte>>) {
    && Peers(w, s.records) && w.sent + |ps| <= LIMIT
    && (forall p | p in ps :: 1 <= |p| <= MAX_PLAIN)
    && s.raw == SealAll(a, w, ps) && |s.buffer| <= MAX_PLAIN
  }

  function Pending(s: ReadState, ps: seq<seq<Byte>>): seq<Byte> {
    s.buffer + Flatten(ps)
  }

  lemma TakeConserves(s: ReadState, n: nat, ps: seq<seq<Byte>>)
    requires n > 0
    ensures var (r, t) := TakeBuffered(s, n);
      && r.out + Pending(t, ps) == Pending(s, ps) && |r.out| <= |s.buffer| && (s.buffer != [] ==> r.out != [])
  {
    var k := Min(n, |s.buffer|);
    assert s.buffer == s.buffer[..k] + s.buffer[k..];
    assert s.buffer[..k] + (s.buffer[k..] + Flatten(ps)) == s.buffer + Flatten(ps);
  }

  /** One read: it succeeds, moves bytes from the front of the pending plaintext, and stalls only at the end. */
  lemma ReadConserves(a: Aead, s: ReadState, w: Records, ps: seq<seq<Byte>>, n: int)
      returns (w': Records, ps': seq<seq<Byte>>)
    requires Lawful(a) && Configured(s.records) && Holds(a, s, w, ps)
    ensures var (r, t) := ReadStep(a, s, n);
      && r.Data? && Configured(t.records) && Holds(a, t, w', ps')
      && r.out + Pending(t, ps') == Pending(s, ps)
      && |r.out| <= MAX_PLAIN
      && (n > 0 && Pending(s, ps) != [] ==> r.out != [])
  {
    hide OpenRecord, Inspect, Packet, TakeBuffered;
    w', ps' := w, ps;
    if n <= 0 {
      assert [] + Pending(s, ps) == Pending(s, ps);
    } else if s.buffer != [] {
      TakeConserves(s, n, ps);
      TakeKeeps(s, n);
    } else if ps == [] {
      assert Pending(s, ps) == [];
    } else {
      w', ps' := Advance(w, 1), ps[1..];
      assert ps[0] in ps;
      OpenSealed(a, w, s.records, ps[0]);
      var packet := Packet(a, w, ps[0]);
      var rest := SealAll(a, w', ps');
      assert s.raw == packet + rest;
      assert s.raw[..HEADER_SIZE] == packet[..HEADER_SIZE];
      assert s.raw[..|packet|] == packet && s.raw[|packet|..] == rest;
      var mid := ReadState(rest, s.records.(next := s.records.next + 1), ps[0]);
      assert Pending(mid, ps') == Pending(s, ps);
      TakeConserves(mid, n, ps');
      TakeKeeps(mid, n);
    }
  }

  lemma TakeKeeps(s: ReadState, n: nat)
    ensures var (r, t) := TakeBuffered(s, n);
      r.Data? && t.raw == s.raw && t.records == s.records && |t.buffer| <= |s.buffer|
  {
  }

  datatype ReadRun = ReadRun(outputs: seq<seq<Byte>>, final: ReadState, ok: bool)

  /** A list of read calls; an empty read (end of file) produces no chunk. */
  function ReadAll(a: Aead, s: ReadState, sizes: seq<int>): ReadRun
    requires Configured(s.records)
    decreases |sizes|
  {
    if sizes == [] then ReadRun([], s, true)
    else
      var (r, t) := ReadStep(a, s, sizes[0]);
      if r.ReadError? then ReadRun([], t, false)
      else
        var run := ReadAll(a, t, sizes[1..]);
        run.(outputs := [r.out] + run.outputs)
  }

  /** Whatever the sizes, the chunks read so far followed by what is pending are the plaintext written. */
  lemma {:induction false} ReadAllConserves(a: Aead, s: ReadState, w: Records, ps: seq<seq<Byte>>, sizes: seq<int>)
      returns (w': Records, ps': seq<seq<Byte>>)
    requires Lawful(a) && Configured(s.records) && Holds(a, s, w, ps)
    ensures var run := ReadAll(a, s, sizes);
      && run.ok && Holds(a, run.final, w', ps')
      && Flatten(run.outputs) + Pending(run.final, ps') == Pending(s, ps)
      && (forall c | c in run.outputs :: |c| <= MAX_PLAIN)
      && ((forall n | n in sizes :: n > 0) && |sizes| >= |Pending(s, ps)| ==> Pending(run.final, ps') == [])
    decreases |sizes|
  {
    hide ReadStep, Holds, Pending, Lawful;
    w', ps' := w, ps;
    if sizes == [] {
      assert Flatten<Byte>([]) + Pending(s, ps) == Pending(s, ps);
    } else {
      var w1, ps1 := ReadConserves(a, s, w, ps, sizes[0]);
      var (r, t) := ReadStep(a, s, sizes[0]);
      w', ps' := ReadAllConserves(a, t, w1, ps1, sizes[1..]);
      var rest := ReadAll(a, t, sizes[1..]);
      assert ([r.out] + rest.outputs)[1..] == rest.outputs;
      var tail := Pending(rest.final, ps');
      assert r.out + (Flatten(rest.outputs) + tail) == r.out + Flatten(rest.outputs) + tail;
      if (forall n | n in sizes :: n > 0) && |sizes| >= |Pending(s, ps)| {
        assert sizes[0] in sizes && forall n | n in sizes[1..] :: n in sizes;
        assert |Pending(s, ps)| == |r.out| + |Pending(t, ps1)|;
        assert tail == [];
      }
    }
  }

  lemma FlattenNonempty(ps: seq<seq<Byte>>)
    requires forall p | p in ps :: p != []
    ensures Flatten(ps) == [] ==> ps == []
  {
    if ps != [] {
      assert ps[0] in ps;
    }
  }

  lemma NoMoreRaw(a: Aead, s: ReadState, w: Records, ps: seq<seq<Byte>>)
    requires Holds(a, s, w, ps) && Pending(s, ps) == []
    ensures s.buffer == [] && s.raw == []
  {
    FlattenNonempty(ps);
  }

  /**
   Whatever way the bytes are batched into writes and whatever positive sizes the reader asks for, the chunks it
   returns flatten to the bytes written and nothing is left over.
   */
  lemma StreamTransparent(a: Aead, w: Records, r: Records, batches: seq<seq<Byte>>, sizes: seq<int>)
    requires Lawful(a) && Peers(w, r) && w.sent <= LIMIT && WriteBatches(a, w, batches).ok
    requires (forall n | n in sizes :: n > 0) && |sizes| >= |Flatten(batches)|
    ensures var run := ReadAll(a, ReadState(WriteBatches(a, w, batches).raw, r, []), sizes);
      && run.ok && Flatten(run.outputs) == Flatten(batches) && (forall c | c in run.outputs :: |c| <= MAX_PLAIN)
      && run.final.raw == [] && run.final.buffer == []
  {
    hide WriteBatches, ReadAll;
    BatchesAreSealed(a, w, batches);
    var s := ReadState(WriteBatches(a, w, batches).raw, r, []);
    var ps := BatchPieces(batches);
    assert Pending(s, ps) == Flatten(batches);
    var w', ps' := ReadAllConserves(a, s, w, ps, sizes);
    var run := ReadAll(a, s, sizes);
    NoMoreRaw(a, run.final, w', ps');
    assert Flatten(run.outputs) + [] == Flatten(run.outputs);
  }

  /** End to end: encoder, writer, reader and decoder together hand over exactly the list of messages sent. */
  lemma EndToEnd(a: Aead, w: Records, r: Records, ms: seq<Framing.Message>, keys: seq<nat>,
                 batches: seq<seq<Byte>>, sizes: seq<int>)
    requires Lawful(a) && Peers(w, r) && w.sent <= LIMIT
    requires Framing.Encodable(ms, keys) && Framing.HeartbeatFree(ms)
    requires Flatten(batches) == Framing.EncodeAll(ms, keys) && WriteBatches(a, w, batches).ok
    requires (forall n | n in sizes :: n > 0) && |sizes| >= |Flatten(batches)|
    ensures var read := ReadAll(a, ReadState(WriteBatches(a, w, batches).raw, r, []), sizes);
      var decoded := Framing.FeedAll([], read.outputs, true);
      && read.ok && decoded.ok && Flatten(decoded.outputs) == ms
      && decoded.rest == [] && read.final.raw == [] && read.final.buffer == []
  {
    hide WriteBatches, ReadAll;
    StreamTransparent(a, w, r, batches, sizes);
    Framing.StreamRoundTrip(ms, keys,
                            ReadAll(a, ReadState(WriteBatches(a, w, batches).raw, r, []), sizes).outputs, true);
  }
}
