/** The 64-bit rotate/xor block transform (server/kk_local/wire.py and the reference transport). */
module BlockCodec {
  import opened Bytes

  const KEY_TEXT: seq<string> := [
    "00Na~1fd", "00xxgg!@", "<>>>SDSD", "012123AS", "<>>>sd!s", "dasdasds",
    "00xxLL:>", "<>>>$#@@", "01CscaSD", "<>>>*s^6", "kldk0MJI"]

  const KEYS: nat := 11

  /** A 64-bit word as its bits, least significant first. */
  type Word = w: seq<bool> | |w| == 64 witness seq(64, _ => false)

  function ByteBits(b: seq<Byte>): (w: seq<bool>)
    ensures |w| == 8 * |b|
  {
    if b == [] then [] else ToBits(b[0], 8) + ByteBits(b[1..])
  }

  function BitBytes(w: seq<bool>): (b: seq<Byte>)
    requires |w| % 8 == 0
    ensures |b| == |w| / 8
  {
    if w == [] then [] else
      var n := FromBits(w[..8]);
      Eight();
      [n] + BitBytes(w[8..])
  }

  lemma Eight()
    ensures Pow2(8) == 256
  {
    assert Pow2(8) == 8 * Pow2(5) && Pow2(5) == 8 * Pow2(2);
  }

  /** The little-endian word held by eight bytes. */
  function LoadWord(b: seq<Byte>): Word
    requires |b| == 8
  {
    ByteBits(b)
  }

  function WordBytes(w: Word): (b: seq<Byte>)
    ensures |b| == 8
  {
    BitBytes(w)
  }

  function CharByte(c: char): Byte {
    (c as int) % 256
  }

  /** The eight key characters read as a little-endian word. */
  function KeyWord(key: nat): Word
    requires key < KEYS
  {
    var t := KEY_TEXT[key];
    LoadWord([CharByte(t[0]), CharByte(t[1]), CharByte(t[2]), CharByte(t[3]),
              CharByte(t[4]), CharByte(t[5]), CharByte(t[6]), CharByte(t[7])])
  }

  /** Rotation to the left by three bits: v << 3 truncated, with v >> 61 in the freed bits. */
  function RotateLeft3(v: Word): Word {
    v[61..] + v[..61]
  }

  function RotateRight3(v: Word): Word {
    v[3..] + v[..3]
  }

  function Transform(v: Word, key: Word, decode: bool): Word {
    if decode then RotateRight3(XorBits(v, key)) else XorBits(RotateLeft3(v), key)
  }

  /** Every 8-byte block transformed on its own. */
  function BlockMap(data: seq<Byte>, key: Word, decode: bool): (out: seq<Byte>)
    requires |data| % 8 == 0
    ensures |out| == |data|
  {
    if data == [] then []
    else WordBytes(Transform(LoadWord(data[..8]), key, decode)) + BlockMap(data[8..], key, decode)
  }

  lemma {:induction false} BitBytesOfByteBits(b: seq<Byte>)
    ensures BitBytes(ByteBits(b)) == b
  {
    if b != [] {
      var w := ByteBits(b);
      assert w[..8] == ToBits(b[0], 8) && w[8..] == ByteBits(b[1..]);
      Eight();
      FromToBits(b[0], 8);
      BitBytesOfByteBits(b[1..]);
    }
  }

  lemma {:induction false} ByteBitsOfBitBytes(w: seq<bool>)
    requires |w| % 8 == 0
    ensures ByteBits(BitBytes(w)) == w
  {
    if w != [] {
      ToFromBits(w[..8]);
      ByteBitsOfBitBytes(w[8..]);
      assert BitBytes(w)[1..] == BitBytes(w[8..]);
      assert w == w[..8] + w[8..];
    }
  }

  lemma TransformInverse(v: Word, key: Word, decode: bool)
    ensures Transform(Transform(v, key, decode), key, !decode) == v
  {
    if decode {
      assert RotateLeft3(RotateRight3(XorBits(v, key))) == XorBits(v, key);
    } else {
      assert XorBits(XorBits(RotateLeft3(v), key), key) == RotateLeft3(v);
    }
  }

  /** Encoding and decoding under one key undo each other, in both orders. */
  lemma {:induction false} BlockInverse(data: seq<Byte>, key: Word, decode: bool)
    requires |data| % 8 == 0
    ensures BlockMap(BlockMap(data, key, decode), key, !decode) == data
  {
    hide Transform;
    if data != [] {
      var head := WordBytes(Transform(LoadWord(data[..8]), key, decode));
      var out := BlockMap(data, key, decode);
      assert out[..8] == head && out[8..] == BlockMap(data[8..], key, decode);
      ByteBitsOfBitBytes(Transform(LoadWord(data[..8]), key, decode));
      TransformInverse(LoadWord(data[..8]), key, decode);
      BitBytesOfByteBits(data[..8]);
      BlockInverse(data[8..], key, decode);
      assert data == data[..8] + data[8..];
    }
  }

  /** The transform is local: a block-aligned split can be transformed piecewise. */
  lemma {:induction false} BlockMapAppend(a: seq<Byte>, b: seq<Byte>, key: Word, decode: bool)
    requires |a| % 8 == 0 && |b| % 8 == 0
    ensures BlockMap(a + b, key, decode) == BlockMap(a, key, decode) + BlockMap(b, key, decode)
  {
    hide Transform, LoadWord, WordBytes;
    if a == [] {
      assert a + b == b;
    } else {
      assert (a + b)[..8] == a[..8] && (a + b)[8..] == a[8..] + b;
      BlockMapAppend(a[8..], b, key, decode);
    }
  }

  datatype BlockResult = Blocked(out: seq<Byte>) | BadBlock

  function Blocks(data: seq<Byte>, key: nat, decode: bool): BlockResult {
    if key >= KEYS || |data| % 8 != 0 then BadBlock else Blocked(BlockMap(data, KeyWord(key), decode))
  }

  /** struct.pack_into of one little-endian word. */
  method PackWord(out: array<Byte>, offset: nat, w: Word)
    requires offset + 8 <= out.Length
    modifies out
    ensures out[..offset + 8] == old(out[..offset]) + WordBytes(w)
  {
    var b := WordBytes(w);
    forall j | 0 <= j < 8 {
      out[offset + j] := b[j];
    }
    assert out[..offset + 8] == out[..offset] + out[offset..offset + 8];
  }

  lemma BlockMapStep(data: seq<Byte>, i: nat, key: Word, decode: bool)
    requires i % 8 == 0 && i + 8 <= |data|
    ensures BlockMap(data[..i + 8], key, decode)
         == BlockMap(data[..i], key, decode) + WordBytes(Transform(LoadWord(data[i..i + 8]), key, decode))
  {
    var block := data[i..i + 8];
    assert data[..i + 8] == data[..i] + block;
    BlockMapAppend(data[..i], block, key, decode);
    assert block[..8] == block && block[8..] == [];
  }

  /** The loop of the source: one word at a time into a buffer of the input's length. */
  method TransformLoop(data: seq<Byte>, word: Word, decode: bool) returns (out: array<Byte>)
    requires |data| % 8 == 0
    ensures out[..] == BlockMap(data, word, decode)
  {
    out := new Byte[|data|](_ => 0);
    var i := 0;
    while i < |data|
      invariant 0 <= i <= |data| && i % 8 == 0
      invariant out[..i] == BlockMap(data[..i], word, decode)
      decreases |data| - i
    {
      PackWord(out, i, Transform(LoadWord(data[i..i + 8]), word, decode));
      BlockMapStep(data, i, word, decode);
      i := i + 8;
    }
    assert data[..i] == data && out[..i] == out[..];
  }

  method BlocksInto(data: seq<Byte>, key: nat, decode: bool) returns (r: BlockResult)
    ensures r == Blocks(data, key, decode)
  {
    if key >= KEYS || |data| % 8 != 0 {
      return BadBlock;
    }
    var out := TransformLoop(data, KeyWord(key), decode);
    r := Blocked(out[..]);
  }
}
