/**
 The game frame format and its two incremental decoders: GameDecoder of the server and StreamDecoder of the
 reference transport. Both are proved against one function, Drain, that parses a buffer as far as it goes.
 */
module Framing {
  import opened Bytes
  import opened BlockCodec

  const MAGIC: nat := 0xaaee
  const MAX_FRAME: nat := 1024 * 1024
  const READ_SIZE: nat := 65536

  datatype Message = Message(id: int, payload: seq<Byte>)

  datatype Encoded = Frame(bytes: seq<Byte>) | Refused

  function Align8(n: nat): (a: nat)
    ensures a % 8 == 0 && (16 + a) % 8 == 0 && n <= a < n + 8
  {
    (n + 7) / 8 * 8
  }

  /** (n ^ 0xbbcc) & 0x88aa; the constant clears every bit above the low sixteen. */
  function LengthMask(n: nat): (m: nat)
    ensures m < 0x1_0000
  {
    hide ToBits;
    Sixteen();
    FromBits(AndBits(XorBits(ToBits(n, 16), ToBits(0xbbcc, 16)), ToBits(0x88aa, 16)))
  }

  lemma Sixteen()
    ensures Pow2(16) == 0x1_0000
  {
    assert Pow2(16) == 8 * Pow2(13) && Pow2(13) == 8 * Pow2(10) && Pow2(10) == 8 * Pow2(7) && Pow2(7) == 8 * Pow2(4);
  }

  function Inner(m: Message, key: nat): (b: seq<Byte>)
    requires m.id >= 0 && key < KEYS
    ensures |b| == 16 + Align8(|m.payload|) && |b| % 8 == 0
  {
    hide BlockMap, PutLe, KeyWord, Align8;
    var n := Align8(|m.payload|);
    PutLe(m.id, 4) + PutLe(key, 2) + PutLe(|m.payload|, 4)
    + BlockMap(m.payload + Zeros(n - |m.payload|), KeyWord(key), false) + Zeros(6)
  }

  /** The transformed part of a frame. */
  function Body(m: Message, key: nat): (b: seq<Byte>)
    requires m.id >= 0 && key < KEYS
    ensures |b| == 16 + Align8(|m.payload|) && |b| % 8 == 0
  {
    hide Inner, BlockMap, KeyWord;
    BlockMap(Inner(m, key), KeyWord(0), false)
  }

  function Header(n: nat): (b: seq<Byte>)
    ensures |b| == 8
  {
    PutLe(MAGIC, 2) + PutLe(LengthMask(n), 2) + PutLe(n, 4)
  }

  /** encode_game, and encode_frame of the reference transport. */
  function Encode(m: Message, key: nat, maxFrame: nat): (e: Encoded) {
    hide Body, Header;
    if Align8(|m.payload|) + 24 > maxFrame || !(0 <= m.id <= 0xffff_ffff) || key >= KEYS then Refused
    else Frame(Header(|Body(m, key)|) + Body(m, key))
  }

  function EncodedLength(head: seq<Byte>): nat
    requires |head| >= 8
  {
    GetLe(head[4..8])
  }

  predicate HeaderOk(head: seq<Byte>, maxFrame: nat)
    requires |head| >= 8
  {
    var n := EncodedLength(head);
    GetLe(head[0..2]) == MAGIC && GetLe(head[2..4]) == LengthMask(n) && n >= 16 && n % 8 == 0 && n + 8 <= maxFrame
  }

  /** What the first bytes of a buffer announce. */
  datatype Peeked = Short | BadHeader | Upcoming(end: nat)

  function Peek(buffer: seq<Byte>, maxFrame: nat): (p: Peeked)
    ensures p.Upcoming? ==> 24 <= p.end <= maxFrame
    ensures p.Short? <==> |buffer| < 8
  {
    if |buffer| < 8 then Short
    else if !HeaderOk(buffer, maxFrame) then BadHeader
    else Upcoming(EncodedLength(buffer) + 8)
  }

  datatype Decoded = Decoded(m: Message) | Malformed

  predicate NonemptyHeartbeat(m: Message) {
    m.id == 0 && m.payload != []
  }

  /** The fields of one frame. A strict decoder also refuses a heartbeat that carries data. */
  function ParseInner(inner: seq<Byte>, strict: bool): Decoded
    requires |inner| >= 16
  {
    var key, length := GetLe(inner[4..6]), GetLe(inner[6..10]);
    if 16 + Align8(length) != |inner| || key >= KEYS then Malformed
    else
      var m := Message(GetLe(inner[..4]), BlockMap(inner[10..10 + Align8(length)], KeyWord(key), true)[..length]);
      if strict && NonemptyHeartbeat(m) then Malformed else Decoded(m)
  }

  function DecodeBody(body: seq<Byte>, strict: bool): Decoded {
    if |body| < 16 || |body| % 8 != 0 then Malformed else ParseInner(BlockMap(body, KeyWord(0), true), strict)
  }

  datatype Drained = Drained(msgs: seq<Message>, rest: seq<Byte>, ok: bool)

  function Prepend(ms: seq<Message>, d: Drained): Drained {
    d.(msgs := ms + d.msgs)
  }

  lemma PrependTwice(a: seq<Message>, b: seq<Message>, d: Drained)
    ensures Prepend(a, Prepend(b, d)) == Prepend(a + b, d)
  {
    assert a + (b + d.msgs) == a + b + d.msgs;
  }

  lemma PrependNone(d: Drained)
    ensures Prepend([], d) == d
  {
    assert [] + d.msgs == d.msgs;
  }

  /** A buffer from which nothing can be taken yet and in which nothing is wrong. */
  predicate Partial(buffer: seq<Byte>, maxFrame: nat) {
    match Peek(buffer, maxFrame)
    case Short => true
    case BadHeader => false
    case Upcoming(end) => |buffer| < end
  }

  /** All complete frames at the front of a buffer, the unread rest, and whether the parse met no malformed frame. */
  function Drain(buffer: seq<Byte>, maxFrame: nat, strict: bool): (d: Drained)
    ensures d.ok ==> Partial(d.rest, maxFrame)
    decreases |buffer|
  {
    hide Peek, DecodeBody;
    match Peek(buffer, maxFrame)
    case Short => Drained([], buffer, true)
    case BadHeader => Drained([], buffer, false)
    case Upcoming(end) =>
      if |buffer| < end then Drained([], buffer, true)
      else
        match DecodeBody(buffer[8..end], strict)
        case Malformed => Drained([], buffer, false)
        case Decoded(m) => Prepend([m], Drain(buffer[end..], maxFrame, strict))
  }

  // ---------------------------------------------------------------- the format

  lemma SplitFields(m: Message, key: nat)
    requires 0 <= m.id <= 0xffff_ffff && key < KEYS && |m.payload| < 0x1_0000_0000
    ensures var inner := Inner(m, key);
      var n := Align8(|m.payload|);
      && GetLe(inner[..4]) == m.id && GetLe(inner[4..6]) == key && GetLe(inner[6..10]) == |m.payload|
      && inner[10..10 + n] == BlockMap(m.payload + Zeros(n - |m.payload|), KeyWord(key), false)
  {
    Widths();
    LeRoundTrip(m.id, 4);
    LeRoundTrip(key, 2);
    LeRoundTrip(|m.payload|, 4);
    var n := Align8(|m.payload|);
    var body := BlockMap(m.payload + Zeros(n - |m.payload|), KeyWord(key), false);
    FieldsOf(PutLe(m.id, 4), PutLe(key, 2), PutLe(|m.payload|, 4), body, Zeros(6));
    hide PutLe, GetLe, BlockMap, Zeros, Align8;
  }

  /** Fields of four, two and four bytes in front of a body and a tail. */
  lemma FieldsOf(a: seq<Byte>, b: seq<Byte>, c: seq<Byte>, body: seq<Byte>, tail: seq<Byte>)
    requires |a| == 4 && |b| == 2 && |c| == 4
    ensures var all := a + b + c + body + tail;
      && |all| == 10 + |body| + |tail|
      && all[..4] == a && all[4..6] == b && all[6..10] == c && all[10..10 + |body|] == body
  {
  }

  lemma HeaderFields(n: nat, tail: seq<Byte>, maxFrame: nat)
    requires n < 0x1_0000_0000
    ensures EncodedLength(Header(n) + tail) == n
    ensures HeaderOk(Header(n) + tail, maxFrame) <==> n >= 16 && n % 8 == 0 && n + 8 <= maxFrame
  {
    Widths();
    LeRoundTrip(MAGIC, 2);
    LeRoundTrip(LengthMask(n), 2);
    LeRoundTrip(n, 4);
    var b := Header(n) + tail;
    assert b[0..2] == PutLe(MAGIC, 2);
    assert b[2..4] == PutLe(LengthMask(n), 2);
    assert b[4..8] == PutLe(n, 4);
  }

  lemma ParseBuiltInner(m: Message, key: nat, strict: bool)
    requires 0 <= m.id <= 0xffff_ffff && key < KEYS && |m.payload| < 0x1_0000_0000
    requires !(strict && NonemptyHeartbeat(m))
    ensures ParseInner(Inner(m, key), strict) == Decoded(m)
  {
    hide GetLe, PutLe, BlockMap, KeyWord, Inner;
    SplitFields(m, key);
    var n := Align8(|m.payload|);
    var padded := m.payload + Zeros(n - |m.payload|);
    BlockInverse(padded, KeyWord(key), false);
    assert padded[..|m.payload|] == m.payload;
  }

  lemma DecodeEncodedBody(m: Message, key: nat, strict: bool)
    requires 0 <= m.id <= 0xffff_ffff && key < KEYS && |m.payload| < 0x1_0000_0000
    requires !(strict && NonemptyHeartbeat(m))
    ensures DecodeBody(Body(m, key), strict) == Decoded(m)
  {
    hide BlockMap, KeyWord, Inner, ParseInner;
    BlockInverse(Inner(m, key), KeyWord(0), false);
    ParseBuiltInner(m, key, strict);
  }

  lemma PeekEncoded(body: seq<Byte>, maxFrame: nat)
    requires 16 <= |body| <= maxFrame - 8 && |body| % 8 == 0 && maxFrame <= 0x1_0000_0000
    ensures Peek(Header(|body|) + body, maxFrame) == Upcoming(|body| + 8)
  {
    hide GetLe, Header, LengthMask;
    HeaderFields(|body|, body, maxFrame);
  }

  /** Either decoder, given an encoded frame and anything after it, yields the message and goes on with the rest. */
  lemma DrainEncoded(m: Message, key: nat, maxFrame: nat, strict: bool, tail: seq<Byte>)
    requires Encode(m, key, maxFrame).Frame? && maxFrame <= 0x1_0000_0000
    requires !(strict && NonemptyHeartbeat(m))
    ensures Drain(Encode(m, key, maxFrame).bytes + tail, maxFrame, strict)
         == Prepend([m], Drain(tail, maxFrame, strict))
  {
    hide DecodeBody, Peek, Body, Header, Align8;
    var body := Body(m, key);
    PeekEncoded(body, maxFrame);
    DecodeEncodedBody(m, key, strict);
    var frame := Header(|body|) + body;
    assert frame[8..] == body;
    DrainFirst(frame, tail, maxFrame, strict);
  }

  lemma PeekStable(buffer: seq<Byte>, more: seq<Byte>, maxFrame: nat)
    requires |buffer| >= 8
    ensures Peek(buffer + more, maxFrame) == Peek(buffer, maxFrame)
  {
    hide GetLe, LengthMask;
    var all := buffer + more;
    assert all[0..2] == buffer[0..2] && all[2..4] == buffer[2..4] && all[4..8] == buffer[4..8];
  }

  /** What the parse of a buffer does once its first frame is complete, or its first header bad. */
  lemma DrainFirst(buffer: seq<Byte>, more: seq<Byte>, maxFrame: nat, strict: bool)
    ensures Peek(buffer, maxFrame) == BadHeader ==> !Drain(buffer + more, maxFrame, strict).ok
    ensures Peek(buffer, maxFrame) == Upcoming(|buffer|) ==>
              Drain(buffer + more, maxFrame, strict) ==
              match DecodeBody(buffer[8..], strict)
              case Malformed => Drained([], buffer + more, false)
              case Decoded(m) => Prepend([m], Drain(more, maxFrame, strict))
  {
    hide DecodeBody, Peek;
    if |buffer| >= 8 {
      PeekStable(buffer, more, maxFrame);
      if Peek(buffer, maxFrame) == Upcoming(|buffer|) {
        var all := buffer + more;
        assert all[8..|buffer|] == buffer[8..] && all[|buffer|..] == more;
      }
    }
  }

  ghost predicate Continues(buffer: seq<Byte>, more: seq<Byte>, maxFrame: nat, strict: bool) {
    var d := Drain(buffer, maxFrame, strict);
    var e := Drain(buffer + more, maxFrame, strict);
    if d.ok then e == Prepend(d.msgs, Drain(d.rest + more, maxFrame, strict)) else !e.ok && e.msgs == d.msgs
  }

  lemma ContinuesStep(buffer: seq<Byte>, more: seq<Byte>, maxFrame: nat, strict: bool, end: nat)
    requires Peek(buffer, maxFrame) == Upcoming(end) && end <= |buffer|
    requires Continues(buffer[end..], more, maxFrame, strict)
    ensures Continues(buffer, more, maxFrame, strict)
  {
    hide DecodeBody, Peek;
    PeekStable(buffer, more, maxFrame);
    var all := buffer + more;
    assert all[8..end] == buffer[8..end] && all[end..] == buffer[end..] + more;
    match DecodeBody(buffer[8..end], strict)
    case Malformed =>
    case Decoded(m) =>
      var d := Drain(buffer[end..], maxFrame, strict);
      PrependTwice([m], d.msgs, Drain(d.rest + more, maxFrame, strict));
  }

  /** Parsing is incremental: what a prefix yields stays, and the unread rest continues with the new bytes. */
  lemma {:induction false} DrainAppend(buffer: seq<Byte>, more: seq<Byte>, maxFrame: nat, strict: bool)
    ensures Continues(buffer, more, maxFrame, strict)
    decreases |buffer|
  {
    hide DecodeBody, Peek;
    PrependNone(Drain(buffer + more, maxFrame, strict));
    match Peek(buffer, maxFrame)
    case Short =>
    case BadHeader => PeekStable(buffer, more, maxFrame);
    case Upcoming(end) =>
      if end <= |buffer| {
        DrainAppend(buffer[end..], more, maxFrame, strict);
        ContinuesStep(buffer, more, maxFrame, strict, end);
      }
  }

  lemma DrainPartial(buffer: seq<Byte>, maxFrame: nat, strict: bool)
    requires Partial(buffer, maxFrame)
    ensures Drain(buffer, maxFrame, strict) == Drained([], buffer, true)
  {
    hide Peek, DecodeBody;
  }

  predicate HeartbeatFree(ms: seq<Message>) {
    forall m | m in ms :: !NonemptyHeartbeat(m)
  }

  lemma StrictBody(body: seq<Byte>)
    ensures DecodeBody(body, true) == match DecodeBody(body, false)
                                      case Malformed => Malformed
                                      case Decoded(m) => if NonemptyHeartbeat(m) then Malformed else Decoded(m)
  {
    hide BlockMap, KeyWord;
  }

  lemma HeartbeatFreeCons(m: Message, ms: seq<Message>)
    ensures HeartbeatFree([m] + ms) <==> !NonemptyHeartbeat(m) && HeartbeatFree(ms)
  {
    assert m in [m] + ms;
    assert forall x | x in ms :: x in [m] + ms;
  }

  /** The strict rule only matters at a heartbeat with data: there, and only there, the strict parse stops early. */
  lemma {:induction false} StrictDrain(buffer: seq<Byte>, maxFrame: nat)
    ensures var strict := Drain(buffer, maxFrame, true);
      var lax := Drain(buffer, maxFrame, false);
      if HeartbeatFree(lax.msgs) then strict == lax else !strict.ok
    decreases |buffer|
  {
    hide DecodeBody, Peek;
    var p := Peek(buffer, maxFrame);
    if p.Upcoming? && p.end <= |buffer| {
      StrictDrain(buffer[p.end..], maxFrame);
      StrictBody(buffer[8..p.end]);
      match DecodeBody(buffer[8..p.end], false)
      case Malformed =>
      case Decoded(m) =>
        HeartbeatFreeCons(m, Drain(buffer[p.end..], maxFrame, false).msgs);
    }
  }

  // ---------------------------------------------------------------- the decoders

  datatype FeedResult = Messages(ms: seq<Message>) | ProtocolError

  class GameDecoder {
    var buffer: seq<Byte>

    constructor ()
      ensures buffer == []
    {
      buffer := [];
    }

    method Feed(data: seq<Byte>) returns (r: FeedResult)
      modifies this
      ensures |old(buffer)| + |data| > MAX_FRAME + READ_SIZE ==> r == ProtocolError && buffer == old(buffer)
      ensures |old(buffer)| + |data| <= MAX_FRAME + READ_SIZE ==>
                var d := Drain(old(buffer) + data, MAX_FRAME, true);
                buffer == d.rest && r == if d.ok then Messages(d.msgs) else ProtocolError
    {
      hide DecodeBody, GetLe, LengthMask;
        if |buffer| + |data| > MAX_FRAME + READ_SIZE {
        return ProtocolError;
      }
      buffer := buffer + data;
      ghost var whole := Drain(buffer, MAX_FRAME, true);
      var result := [];
      while |buffer| >= 8
        invariant whole == Prepend(result, Drain(buffer, MAX_FRAME, true))
        decreases |buffer|
      {
        var n := EncodedLength(buffer);
        if GetLe(buffer[0..2]) != MAGIC || n < 16 || n % 8 != 0 || n + 8 > MAX_FRAME {
          return ProtocolError;
        }
        if GetLe(buffer[2..4]) != LengthMask(n) {
          return ProtocolError;
        }
        if |buffer| < n + 8 {
          break;
        }
        match DecodeBody(buffer[8..8 + n], true)
        case Malformed => return ProtocolError;
        case Decoded(m) =>
          PrependTwice(result, [m], Drain(buffer[n + 8..], MAX_FRAME, true));
          result := result + [m];
          buffer := buffer[n + 8..];
      }
      r := Messages(result);
    }

    method Eof() returns (ok: bool)
      ensures ok <==> buffer == []
    {
      ok := buffer == [];
    }
  }

  class StreamDecoder {
    const maxFrame: nat
    var buffer: seq<Byte>
    var failed: bool

    ghost predicate Valid()
      reads this
    {
      Partial(buffer, maxFrame) && (failed ==> buffer == [])
    }

    constructor (maxFrame: nat)
      requires maxFrame >= 24
      ensures Valid() && buffer == [] && !failed && this.maxFrame == maxFrame
    {
      this.maxFrame := maxFrame;
      buffer := [];
      failed := false;
    }

    method Feed(data: seq<Byte>) returns (r: FeedResult)
      requires Valid()
      modifies this
      ensures Valid()
      ensures old(failed) ==> r == ProtocolError && failed
      ensures !old(failed) ==>
                var d := Drain(old(buffer) + data, maxFrame, false);
                if d.ok then r == Messages(d.msgs) && buffer == d.rest && !failed
                else r == ProtocolError && failed
    {
      hide DecodeBody, Peek;
        if failed {
        return ProtocolError;
      }
      ghost var whole := Drain(buffer + data, maxFrame, false);
      assert buffer + data == buffer + data[0..];
      PrependNone(whole);
      var messages := [];
      var cursor := 0;
      while cursor < |data|
        invariant cursor <= |data| && Valid() && !failed
        invariant whole == Prepend(messages, Drain(buffer + data[cursor..], maxFrame, false))
      {
        var target := if |buffer| < 8 then 8 else Peek(buffer, maxFrame).end;
        var count := if target - |buffer| < |data| - cursor then target - |buffer| else |data| - cursor;
        ghost var before := buffer;
        buffer := buffer + data[cursor..cursor + count];
        assert before + data[cursor..] == buffer + data[cursor + count..];
        if |before| >= 8 {
          PeekStable(before, data[cursor..cursor + count], maxFrame);
        }
        cursor := cursor + count;
        DrainFirst(buffer, data[cursor..], maxFrame, false);
        if |buffer| >= 8 {
          match Peek(buffer, maxFrame)
          case BadHeader =>
            failed, buffer := true, [];
            return ProtocolError;
          case Upcoming(frameLen) =>
            if |buffer| == frameLen {
              match DecodeBody(buffer[8..], false)
              case Malformed =>
                failed, buffer := true, [];
                return ProtocolError;
              case Decoded(m) =>
                PrependTwice(messages, [m], Drain(data[cursor..], maxFrame, false));
                assert [] + data[cursor..] == data[cursor..];
                messages := messages + [m];
                buffer := [];
            }
        }
      }
      assert buffer + data[cursor..] == buffer;
      r := Messages(messages);
    }

    method Eof() returns (ok: bool)
      requires Valid()
      modifies this
      ensures Valid()
      ensures ok <==> !old(failed) && old(buffer) == []
      ensures failed <==> !ok
      ensures ok ==> buffer == old(buffer)
    {
      if failed || buffer != [] {
        failed, buffer := true, [];
        return false;
      }
      return true;
    }
  }

  // ---------------------------------------------------------------- whole streams

  /** The results of the calls up to the first failure, the buffer after them, and whether no call failed. */
  datatype Run = Run(outputs: seq<seq<Message>>, rest: seq<Byte>, ok: bool)

  /** Feed called once a chunk. GameDecoder is the strict case with its receive-buffer limit. */
  function FeedAll(buffer: seq<Byte>, chunks: seq<seq<Byte>>, strict: bool): Run
    decreases |chunks|
  {
    if chunks == [] then Run([], buffer, true)
    else if strict && |buffer| + |chunks[0]| > MAX_FRAME + READ_SIZE then Run([], buffer, false)
    else
      var d := Drain(buffer + chunks[0], MAX_FRAME, strict);
      if !d.ok then Run([], d.rest, false)
      else
        var run := FeedAll(d.rest, chunks[1..], strict);
        run.(outputs := [d.msgs] + run.outputs)
  }

  predicate Bounded(chunks: seq<seq<Byte>>) {
    forall c | c in chunks :: |c| <= READ_SIZE
  }

  /** A decoder between calls never holds a whole frame, so bounded reads cannot reach the receive limit. */
  lemma ReceiveLimitUnreached(buffer: seq<Byte>, data: seq<Byte>)
    requires Partial(buffer, MAX_FRAME) && |data| <= READ_SIZE
    ensures |buffer| + |data| < MAX_FRAME + READ_SIZE
  {
  }

  /** Cutting a stream into chunks changes neither the messages, nor the leftover, nor whether it is accepted. */
  lemma {:induction false} ChunkingIrrelevant(buffer: seq<Byte>, chunks: seq<seq<Byte>>, strict: bool)
    requires Partial(buffer, MAX_FRAME) && Bounded(chunks)
    ensures var run := FeedAll(buffer, chunks, strict);
      var whole := Drain(buffer + Flatten(chunks), MAX_FRAME, strict);
      run.ok == whole.ok && (run.ok ==> Flatten(run.outputs) == whole.msgs && run.rest == whole.rest)
    decreases |chunks|
  {
    hide Drain, Partial;
    if chunks == [] {
      assert buffer + Flatten(chunks) == buffer;
      DrainPartial(buffer, MAX_FRAME, strict);
    } else {
      var d := Drain(buffer + chunks[0], MAX_FRAME, strict);
      ReceiveLimitUnreached(buffer, chunks[0]);
      DrainAppend(buffer + chunks[0], Flatten(chunks[1..]), MAX_FRAME, strict);
      assert buffer + chunks[0] + Flatten(chunks[1..]) == buffer + Flatten(chunks);
      if d.ok {
        ChunkingIrrelevant(d.rest, chunks[1..], strict);
        var run := FeedAll(d.rest, chunks[1..], strict);
        assert ([d.msgs] + run.outputs)[1..] == run.outputs;
      }
    }
  }

  predicate HeartbeatFreeOutputs(outputs: seq<seq<Message>>) {
    forall i | 0 <= i < |outputs| :: HeartbeatFree(outputs[i])
  }

  /**
   Two decoders, one language: on every chunking into bounded reads the two decoders agree call by call up to the
   first failure, exactly when the reference decoder returns no heartbeat that carries data.
   */
  lemma {:induction false} TwoDecodersAgree(buffer: seq<Byte>, chunks: seq<seq<Byte>>)
    requires Partial(buffer, MAX_FRAME) && Bounded(chunks)
    ensures var game := FeedAll(buffer, chunks, true);
      var stream := FeedAll(buffer, chunks, false);
      (game.outputs == stream.outputs && game.ok == stream.ok) <==> HeartbeatFreeOutputs(stream.outputs)
    decreases |chunks|
  {
    hide DecodeBody, Peek;
    if chunks != [] {
      ReceiveLimitUnreached(buffer, chunks[0]);
      StrictDrain(buffer + chunks[0], MAX_FRAME);
      var strict, lax := Drain(buffer + chunks[0], MAX_FRAME, true), Drain(buffer + chunks[0], MAX_FRAME, false);
      if lax.ok {
        var stream := FeedAll(lax.rest, chunks[1..], false);
        assert FeedAll(buffer, chunks, false).outputs == [lax.msgs] + stream.outputs;
        assert forall i | 0 <= i < |stream.outputs| :: stream.outputs[i] == ([lax.msgs] + stream.outputs)[i + 1];
        assert ([lax.msgs] + stream.outputs)[0] == lax.msgs;
        if HeartbeatFree(lax.msgs) {
          TwoDecodersAgree(lax.rest, chunks[1..]);
          var game := FeedAll(strict.rest, chunks[1..], true);
          assert ([lax.msgs] + game.outputs)[1..] == game.outputs
               && ([lax.msgs] + stream.outputs)[1..] == stream.outputs;
        }
      }
    }
  }

  ghost predicate Encodable(ms: seq<Message>, keys: seq<nat>) {
    |keys| == |ms| && forall i | 0 <= i < |ms| :: Encode(ms[i], keys[i], MAX_FRAME).Frame?
  }

  /** The bytes of a list of messages, each under its own key. */
  function EncodeAll(ms: seq<Message>, keys: seq<nat>): seq<Byte>
    requires Encodable(ms, keys)
  {
    if ms == [] then [] else Encode(ms[0], keys[0], MAX_FRAME).bytes + EncodeAll(ms[1..], keys[1..])
  }

  lemma {:induction false} DrainEncodedAll(ms: seq<Message>, keys: seq<nat>, strict: bool)
    requires Encodable(ms, keys)
    requires strict ==> HeartbeatFree(ms)
    ensures Drain(EncodeAll(ms, keys), MAX_FRAME, strict) == Drained(ms, [], true)
    decreases |ms|
  {
    hide Drain, Encode, HeartbeatFree;
    if ms == [] {
      DrainPartial([], MAX_FRAME, strict);
    } else {
      assert ms == [ms[0]] + ms[1..];
      HeartbeatFreeCons(ms[0], ms[1..]);
      DrainEncoded(ms[0], keys[0], MAX_FRAME, strict, EncodeAll(ms[1..], keys[1..]));
      DrainEncodedAll(ms[1..], keys[1..], strict);
    }
  }

  /** Both decoders invert the encoder under every key and every chunking, and end with empty buffers. */
  lemma StreamRoundTrip(ms: seq<Message>, keys: seq<nat>, chunks: seq<seq<Byte>>, strict: bool)
    requires Encodable(ms, keys)
    requires strict ==> HeartbeatFree(ms)
    requires Bounded(chunks) && Flatten(chunks) == EncodeAll(ms, keys)
    ensures var run := FeedAll([], chunks, strict);
      run.ok && Flatten(run.outputs) == ms && run.rest == []
  {
    hide DecodeBody, Peek;
    ChunkingIrrelevant([], chunks, strict);
    assert [] + Flatten(chunks) == Flatten(chunks);
    DrainEncodedAll(ms, keys, strict);
  }
}
