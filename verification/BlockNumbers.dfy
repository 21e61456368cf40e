/** What the block transform and the frame header compute, as arithmetic on numbers instead of bits. */
module BlockNumbers {
  import opened Bytes
  import opened BlockCodec
  import opened Framing

  const WORD: nat := 0x1_0000_0000_0000_0000

  /** Exclusive or of the low k binary digits: where the digits differ. */
  function Xor(a: nat, b: nat, k: nat): nat {
    if k == 0 then 0 else (if a % 2 != b % 2 then 1 else 0) + 2 * Xor(a / 2, b / 2, k - 1)
  }

  /** Conjunction of the low k binary digits: where both digits are one. */
  function And(a: nat, b: nat, k: nat): nat {
    if k == 0 then 0 else (if a % 2 + b % 2 == 2 then 1 else 0) + 2 * And(a / 2, b / 2, k - 1)
  }

  // ---------------------------------------------------------------- bits as numbers

  lemma PowerSum(a: nat, b: nat)
    ensures Pow2(a + b) == Pow2(a) * Pow2(b)
  {
    if a > 0 {
      PowerSum(a - 1, b);
      assert a + b - 1 == a - 1 + b;
    }
  }

  /** The powers used by the transform. */
  lemma Powers()
    ensures Pow2(3) == 8 && Pow2(61) == 0x2000_0000_0000_0000 && Pow2(64) == WORD
  {
    Sixteen();
    assert Pow2(3) == 2 * Pow2(2) && Pow2(2) == 2 * Pow2(1) && Pow2(1) == 2 * Pow2(0);
    PowerSum(16, 16);
    PowerSum(32, 32);
    PowerSum(3, 61);
  }

  lemma FirstBit(b: seq<bool>)
    requires b != []
    ensures FromBits(b) == (if b[0] then 1 else 0) + 2 * FromBits(b[1..]) && Pow2(|b|) == 2 * Pow2(|b| - 1)
  {
  }

  lemma DoubleProduct(p: nat, n: nat)
    ensures 2 * (p * n) == (2 * p) * n
  {
  }

  lemma {:induction false} NumberOfSum(a: seq<bool>, b: seq<bool>)
    ensures FromBits(a + b) == FromBits(a) + Pow2(|a|) * FromBits(b)
  {
    if a == [] {
      assert a + b == b;
    } else {
      hide FromBits, Pow2;
      assert (a + b)[1..] == a[1..] + b;
      NumberOfSum(a[1..], b);
      FirstBit(a);
      FirstBit(a + b);
      DoubleProduct(Pow2(|a| - 1), FromBits(b));
    }
  }

  /** v << 3 truncated to 64 bits, with v >> 61 in the freed places. */
  lemma RotateLeftNumber(v: Word)
    ensures FromBits(RotateLeft3(v)) == 8 * FromBits(v) % WORD + FromBits(v) / 0x2000_0000_0000_0000
  {
    var low, high := v[..61], v[61..];
    assert v == low + high;
    NumberOfSum(low, high);
    NumberOfSum(high, low);
    Powers();
    hide FromBits, Pow2;
    LeftDigits(FromBits(low), FromBits(high));
  }

  lemma LeftDigits(low: nat, high: nat)
    requires low < 0x2000_0000_0000_0000 && high < 8
    ensures var n := low + 0x2000_0000_0000_0000 * high;
      8 * n % WORD + n / 0x2000_0000_0000_0000 == high + 8 * low
  {
    Wraps(8 * low, high);
    Shifts(low, high);
  }

  lemma Wraps(low: nat, high: nat)
    requires low < WORD
    ensures (low + WORD * high) % WORD == low
  {
  }

  lemma Shifts(low: nat, high: nat)
    requires low < 0x2000_0000_0000_0000
    ensures (low + 0x2000_0000_0000_0000 * high) / 0x2000_0000_0000_0000 == high
  {
  }

  /** v >> 3, with the three low bits at the top. */
  lemma RotateRightNumber(v: Word)
    ensures FromBits(RotateRight3(v)) == FromBits(v) / 8 + FromBits(v) % 8 * 0x2000_0000_0000_0000
  {
    var low, high := v[..3], v[3..];
    assert v == low + high;
    NumberOfSum(low, high);
    NumberOfSum(high, low);
    Powers();
    hide FromBits, Pow2;
    RightDigits(FromBits(low), FromBits(high));
  }

  lemma RightDigits(low: nat, high: nat)
    requires low < 8
    ensures var n := low + 8 * high; n / 8 == high && n % 8 == low
  {
  }

  lemma {:induction false} XorNumber(a: seq<bool>, b: seq<bool>)
    requires |a| == |b|
    ensures FromBits(XorBits(a, b)) == Xor(FromBits(a), FromBits(b), |a|)
  {
    if a != [] {
      var c := XorBits(a, b);
      assert c[1..] == XorBits(a[1..], b[1..]);
      XorNumber(a[1..], b[1..]);
      assert FromBits(a) / 2 == FromBits(a[1..]) && FromBits(b) / 2 == FromBits(b[1..]);
    }
  }

  lemma {:induction false} AndNumber(a: seq<bool>, b: seq<bool>)
    requires |a| == |b|
    ensures FromBits(AndBits(a, b)) == And(FromBits(a), FromBits(b), |a|)
  {
    if a != [] {
      var c := AndBits(a, b);
      assert c[1..] == AndBits(a[1..], b[1..]);
      AndNumber(a[1..], b[1..]);
      assert FromBits(a) / 2 == FromBits(a[1..]) && FromBits(b) / 2 == FromBits(b[1..]);
    }
  }

  /** Eight bytes hold the word of their little-endian number. */
  lemma {:induction false} ByteBitsNumber(b: seq<Byte>)
    ensures FromBits(ByteBits(b)) == GetLe(b)
  {
    if b != [] {
      Eight();
      FromToBits(b[0], 8);
      ByteBitsNumber(b[1..]);
      NumberOfSum(ToBits(b[0], 8), ByteBits(b[1..]));
    }
  }

  lemma BitBytesNumber(w: seq<bool>)
    requires |w| % 8 == 0
    ensures GetLe(BitBytes(w)) == FromBits(w)
  {
    ByteBitsOfBitBytes(w);
    ByteBitsNumber(BitBytes(w));
  }

  /** Bytes are determined by their little-endian number. */
  lemma {:induction false} PutOfGet(b: seq<Byte>)
    ensures PutLe(GetLe(b), |b|) == b
  {
    if b != [] {
      PutOfGet(b[1..]);
      assert GetLe(b) / 256 == GetLe(b[1..]) && GetLe(b) % 256 == b[0];
      assert b == [b[0]] + b[1..];
    }
  }

  // ---------------------------------------------------------------- the transform

  /** One block as the source computes it: shift, wrap around and xor to encode, xor and shift back to decode. */
  function Scrambled(n: nat, key: nat, decode: bool): nat {
    if decode
    then Xor(n, key, 64) / 8 + Xor(n, key, 64) % 8 * 0x2000_0000_0000_0000
    else Xor(8 * n % WORD + n / 0x2000_0000_0000_0000, key, 64)
  }

  lemma TransformNumber(v: Word, key: Word, decode: bool)
    ensures FromBits(Transform(v, key, decode)) == Scrambled(FromBits(v), FromBits(key), decode)
  {
    if decode {
      XorNumber(v, key);
      RotateRightNumber(XorBits(v, key));
    } else {
      RotateLeftNumber(v);
      XorNumber(RotateLeft3(v), key);
    }
    hide RotateLeft3, RotateRight3, XorBits, FromBits, Xor;
  }

  function BlockAt(data: seq<Byte>, i: nat): (b: seq<Byte>)
    requires 8 * i + 8 <= |data|
  {
    data[8 * i..8 * i + 8]
  }

  lemma BlockNumber(data: seq<Byte>, key: Word, decode: bool, i: nat)
    requires |data| % 8 == 0 && 8 * i + 8 <= |data|
    ensures GetLe(BlockAt(BlockMap(data, key, decode), i))
         == Scrambled(GetLe(BlockAt(data, i)), FromBits(key), decode)
    decreases i
  {
    hide Transform, FromBits, Scrambled, GetLe;
    var head, out := data[..8], BlockMap(data, key, decode);
    if i == 0 {
      assert out[..8] == WordBytes(Transform(LoadWord(head), key, decode));
      ByteBitsNumber(head);
      BitBytesNumber(Transform(LoadWord(head), key, decode));
      TransformNumber(LoadWord(head), key, decode);
    } else {
      var j := i - 1;
      BlockNumber(data[8..], key, decode, j);
      assert out[8..] == BlockMap(data[8..], key, decode);
      assert data[8..][8 * j..8 * j + 8] == data[8 * i..8 * i + 8];
      assert out[8..][8 * j..8 * j + 8] == out[8 * i..8 * i + 8];
    }
  }

  /** The text of a key as bytes. */
  function KeyBytes(key: nat): seq<Byte>
    requires key < KEYS
  {
    var t := KEY_TEXT[key];
    seq(|t|, i requires 0 <= i < |t| => CharByte(t[i]))
  }

  lemma KeyNumber(key: nat)
    requires key < KEYS
    ensures |KeyBytes(key)| == 8 && FromBits(KeyWord(key)) == GetLe(KeyBytes(key))
  {
    var t := KEY_TEXT[key];
    assert |t| == 8;
    var b := [CharByte(t[0]), CharByte(t[1]), CharByte(t[2]), CharByte(t[3]),
              CharByte(t[4]), CharByte(t[5]), CharByte(t[6]), CharByte(t[7])];
    assert KeyBytes(key) == b;
    ByteBitsNumber(b);
  }

  /**
   * The whole transform as arithmetic: it is refused exactly for a bad key or a length that is no multiple of eight,
   * and otherwise each block is the scrambled number of the block at its place.
   */
  lemma BlocksAreArithmetic(data: seq<Byte>, key: nat, decode: bool)
    ensures Blocks(data, key, decode).Blocked? <==> key < KEYS && |data| % 8 == 0
    ensures Blocks(data, key, decode).Blocked? ==>
      var out := Blocks(data, key, decode).out;
      && |out| == |data|
      && forall i: nat | 8 * i + 8 <= |data| ::
           GetLe(BlockAt(out, i)) == Scrambled(GetLe(BlockAt(data, i)), GetLe(KeyBytes(key)), decode)
  {
    if key < KEYS && |data| % 8 == 0 {
      KeyNumber(key);
      hide BlockMap, GetLe, KeyBytes, Scrambled, KeyWord, FromBits, BlockAt;
      forall i: nat | 8 * i + 8 <= |data|
        ensures GetLe(BlockAt(BlockMap(data, KeyWord(key), decode), i))
             == Scrambled(GetLe(BlockAt(data, i)), GetLe(KeyBytes(key)), decode)
      {
        BlockNumber(data, KeyWord(key), decode, i);
      }
    }
  }

  // ---------------------------------------------------------------- the header

  /** (n ^ 0xbbcc) & 0x88aa, digit by digit. */
  lemma MaskNumber(n: nat)
    ensures LengthMask(n) == And(Xor(n % 0x1_0000, 0xbbcc, 16), 0x88aa, 16)
  {
    Sixteen();
    LowBits(n, n % 0x1_0000, 16, n / 0x1_0000);
    FromToBits(n % 0x1_0000, 16);
    FromToBits(0xbbcc, 16);
    FromToBits(0x88aa, 16);
    hide ToBits, FromBits, XorBits, AndBits;
    XorNumber(ToBits(n, 16), ToBits(0xbbcc, 16));
    AndNumber(XorBits(ToBits(n, 16), ToBits(0xbbcc, 16)), ToBits(0x88aa, 16));
  }

  lemma {:induction false} LowBits(n: nat, m: nat, k: nat, t: nat)
    requires n == m + Pow2(k) * t
    ensures ToBits(n, k) == ToBits(m, k)
  {
    if k > 0 {
      DoubleProduct(Pow2(k - 1), t);
      LowBits(n / 2, m / 2, k - 1, t);
    }
  }

  /** The number held by two bytes, and by four. */
  function Half(b: seq<Byte>, at: nat): nat
    requires at + 2 <= |b|
  {
    (b[at] as int) + 256 * (b[at + 1] as int)
  }

  function Whole(b: seq<Byte>, at: nat): nat
    requires at + 4 <= |b|
  {
    Half(b, at) + 0x1_0000 * Half(b, at + 2)
  }

  lemma HalfIs(b: seq<Byte>, at: nat)
    requires at + 2 <= |b|
    ensures GetLe(b[at..at + 2]) == Half(b, at)
  {
    var x := b[at..at + 2];
    assert x[1..][1..] == [] && GetLe(x[1..]) == x[1] + 256 * GetLe(x[1..][1..]);
  }

  lemma WholeIs(b: seq<Byte>, at: nat)
    requires at + 4 <= |b|
    ensures GetLe(b[at..at + 4]) == Whole(b, at)
  {
    var x := b[at..at + 4];
    assert x[2..] == b[at + 2..at + 4] && x[1..][1..] == x[2..];
    assert GetLe(x) == x[0] + 256 * GetLe(x[1..]) && GetLe(x[1..]) == x[1] + 256 * GetLe(x[1..][1..]);
    HalfIs(b, at + 2);
  }

  /** A header is good exactly when magic, mask and length are, and the frame fits. */
  lemma HeaderIff(head: seq<Byte>, maxFrame: nat)
    requires |head| >= 8
    ensures HeaderOk(head, maxFrame) <==>
      var n := Whole(head, 4);
      && head[0] == 0xee && head[1] == 0xaa
      && Half(head, 2) == And(Xor(n % 0x1_0000, 0xbbcc, 16), 0x88aa, 16)
      && n >= 16 && n % 8 == 0 && n + 8 <= maxFrame
  {
    hide *;
    HalfIs(head, 0);
    HalfIs(head, 2);
    WholeIs(head, 4);
    MagicBytes(head);
    HeaderParts(head, maxFrame);
    MaskNumber(Whole(head, 4));
  }

  lemma HeaderParts(head: seq<Byte>, maxFrame: nat)
    requires |head| >= 8
    ensures var n := GetLe(head[4..8]);
      HeaderOk(head, maxFrame) <==> GetLe(head[0..2]) == MAGIC && GetLe(head[2..4]) == LengthMask(n)
                                    && n >= 16 && n % 8 == 0 && n + 8 <= maxFrame
  {
    hide GetLe, LengthMask;
  }

  lemma MagicBytes(head: seq<Byte>)
    requires |head| >= 2
    ensures Half(head, 0) == MAGIC <==> head[0] == 0xee && head[1] == 0xaa
  {
  }

  /** An encoder refuses exactly an id or key out of range and a payload whose blocks do not fit the frame. */
  lemma EncodeIff(m: Message, key: nat, maxFrame: nat)
    ensures Encode(m, key, maxFrame).Frame? <==>
      0 <= m.id < 0x1_0000_0000 && key < 11 && exists k: nat :: |m.payload| <= 8 * k && 8 * k + 24 <= maxFrame
  {
    var k := (|m.payload| + 7) / 8;
    assert |m.payload| <= 8 * k && Align8(|m.payload|) == 8 * k;
    hide Body, Header;
  }

  /** A strict decoder stops at a heartbeat that carries data and at no other encoded message; a lax one never stops. */
  lemma HeartbeatsWithDataAreRefused(m: Message, key: nat, maxFrame: nat, strict: bool, tail: seq<Byte>)
    requires Encode(m, key, maxFrame).Frame? && maxFrame <= 0x1_0000_0000
    ensures var stream := Encode(m, key, maxFrame).bytes + tail;
      && (strict && m.id == 0 && |m.payload| > 0 ==> Drain(stream, maxFrame, strict) == Drained([], stream, false))
      && (!(strict && m.id == 0 && |m.payload| > 0) ==>
            Drain(stream, maxFrame, strict) == Prepend([m], Drain(tail, maxFrame, strict)))
  {
    if strict && m.id == 0 && |m.payload| > 0 {
      var body := Body(m, key);
      PeekEncoded(body, maxFrame);
      DecodeEncodedBody(m, key, false);
      StrictBody(body);
      var frame := Header(|body|) + body;
      assert frame[8..] == body;
      hide DecodeBody, Peek, Body, Header, Align8;
      DrainFirst(frame, tail, maxFrame, strict);
    } else {
      assert !(strict && NonemptyHeartbeat(m));
      DrainEncoded(m, key, maxFrame, strict, tail);
      hide Encode, Drain;
    }
  }

  // ---------------------------------------------------------------- one frame in full

  lemma AndStep(a: nat, b: nat, k: nat, z: nat)
    requires k > 0 && And(a / 2, b / 2, k - 1) == z
    ensures And(a, b, k) == (if a % 2 == 1 && b % 2 == 1 then 1 else 0) + 2 * z
  {
  }

  lemma XorStep(a: nat, b: nat, k: nat, z: nat)
    requires k > 0 && Xor(a / 2, b / 2, k - 1) == z
    ensures Xor(a, b, k) == (if a % 2 != b % 2 then 1 else 0) + 2 * z
  {
  }

  lemma {:induction false} XorZero(n: nat, k: nat)
    requires n < Pow2(k)
    ensures Xor(0, n, k) == n
  {
    if k > 0 {
      XorZero(n / 2, k - 1);
    }
  }

  lemma XorDigits()
    ensures Xor(16, 0xbbcc, 16) == 0xbbdc
  {
    Powers();
    Eight();
    PowerSum(3, 8);
    hide Pow2;
    XorZero(0x5de, 11);
    hide Xor;
    XorStep(1, 0xbbc, 12, 0x5de);
    XorStep(2, 0x1779, 13, 0xbbd);
    XorStep(4, 0x2ef3, 14, 0x177b);
    XorStep(8, 0x5de6, 15, 0x2ef7);
    XorStep(16, 0xbbcc, 16, 0x5dee);
  }

  lemma MaskDigits()
    ensures And(0xbbdc, 0x88aa, 16) == 0x8888
  {
    assert And(0, 0, 0) == 0;
    hide And;
    AndStep(1, 1, 1, 0);
    AndStep(2, 2, 2, 1);
    AndStep(5, 4, 3, 2);
    AndStep(0xb, 8, 4, 4);
    AndStep(0x17, 0x11, 5, 8);
    AndStep(0x2e, 0x22, 6, 0x11);
    AndStep(0x5d, 0x44, 7, 0x22);
    AndStep(0xbb, 0x88, 8, 0x44);
    AndStep(0x177, 0x111, 9, 0x88);
    AndStep(0x2ef, 0x222, 10, 0x111);
  }

  lemma MaskOfSixteen()
    ensures LengthMask(16) == 0x8888
  {
    hide And, Xor, LengthMask;
    MaskNumber(16);
    XorDigits();
    MaskDigits();
  }

  const KEY0: nat := 0x6466_317e_614e_3030

  function FirstText(): seq<Byte> { [0x30, 0x30, 0x4e, 0x61, 0x7e, 0x31, 0x66, 0x64] }

  lemma FirstKeyBytes()
    ensures KeyBytes(0) == FirstText()
  {
  }

  lemma FirstNumbers()
    ensures GetLe(FirstText()) == KEY0 && PutLe(KEY0, 8) == FirstText()
  {
    PutOfGet(FirstText());
  }

  lemma FirstKey()
    ensures FromBits(KeyWord(0)) == KEY0
  {
    hide KeyWord, FromBits, KeyBytes, FirstText, GetLe, PutLe;
    KeyNumber(0);
    FirstKeyBytes();
    FirstNumbers();
  }

  lemma XorNothing()
    ensures Xor(0, KEY0, 64) == KEY0 && Xor(0, KEY0 / 16, 60) == KEY0 / 16
  {
    Powers();
    PowerSum(4, 60);
    assert Pow2(4) == 2 * Pow2(3);
    hide Pow2;
    XorZero(KEY0, 64);
    XorZero(KEY0 / 16, 60);
  }

  lemma XorEight()
    ensures Xor(8, KEY0, 64) == KEY0 + 8
  {
    hide Xor;
    XorNothing();
    XorStep(1, KEY0 / 8, 61, KEY0 / 16);
    XorStep(2, KEY0 / 4, 62, KEY0 / 8 + 1);
    XorStep(4, KEY0 / 2, 63, KEY0 / 4 + 2);
    XorStep(8, KEY0, 64, KEY0 / 2 + 4);
  }

  lemma KnownBlocks()
    ensures Scrambled(1, KEY0, false) == KEY0 + 8 && Scrambled(0, KEY0, false) == KEY0
  {
    hide Xor;
    XorNothing();
    XorEight();
  }

  lemma SmallFields()
    ensures PutLe(1, 4) == [1, 0, 0, 0] && PutLe(0, 2) == [0, 0] && PutLe(0, 4) == [0, 0, 0, 0]
  {
  }

  lemma HeaderBytes()
    ensures PutLe(MAGIC, 2) == [0xee, 0xaa] && PutLe(0x8888, 2) == [0x88, 0x88] && PutLe(16, 4) == [0x10, 0, 0, 0]
  {
  }

  lemma FirstBlock()
    ensures GetLe([1, 0, 0, 0, 0, 0, 0, 0]) == 1
    ensures PutLe(KEY0 + 8, 8) == [0x38, 0x30, 0x4e, 0x61, 0x7e, 0x31, 0x66, 0x64]
  {
    PutOfGet([0x38, 0x30, 0x4e, 0x61, 0x7e, 0x31, 0x66, 0x64]);
    assert GetLe([0x38, 0x30, 0x4e, 0x61, 0x7e, 0x31, 0x66, 0x64]) == KEY0 + 8;
  }

  lemma KnownInner()
    ensures Inner(Message(1, []), 0) == [1, 0, 0, 0, 0, 0, 0, 0] + Zeros(8)
  {
    SmallFields();
    hide PutLe, BlockMap, KeyWord;
    NoBlocks();
    assert [] + Zeros(0) == [];
  }

  lemma NoBlocks()
    ensures BlockMap([], KeyWord(0), false) == []
  {
  }

  lemma {:induction false} ZerosNumber(n: nat)
    ensures GetLe(Zeros(n)) == 0
  {
    if n > 0 {
      assert Zeros(n)[1..] == Zeros(n - 1);
      ZerosNumber(n - 1);
    }
  }

  lemma KnownBody()
    ensures Body(Message(1, []), 0) == PutLe(KEY0 + 8, 8) + PutLe(KEY0, 8)
  {
    hide Inner, GetLe, FromBits, KeyWord, BlockMap, Scrambled, PutLe;
    KnownInner();
    FirstKey();
    FirstBlock();
    ZerosNumber(8);
    var data, out := Inner(Message(1, []), 0), Body(Message(1, []), 0);
    assert BlockAt(data, 0) == [1, 0, 0, 0, 0, 0, 0, 0] && BlockAt(data, 1) == Zeros(8);
    BlockNumber(data, KeyWord(0), false, 0);
    BlockNumber(data, KeyWord(0), false, 1);
    KnownBlocks();
    PutOfGet(BlockAt(out, 0));
    PutOfGet(BlockAt(out, 1));
    assert out == BlockAt(out, 0) + BlockAt(out, 1);
  }

  /** The frame of an empty message with id 1 under key 0, byte by byte. */
  lemma KnownFrame()
    ensures Encode(Message(1, []), 0, MAX_FRAME)
         == Frame([0xee, 0xaa, 0x88, 0x88, 0x10, 0, 0, 0]
                  + [0x38, 0x30, 0x4e, 0x61, 0x7e, 0x31, 0x66, 0x64]
                  + [0x30, 0x30, 0x4e, 0x61, 0x7e, 0x31, 0x66, 0x64])
  {
    hide PutLe, LengthMask, Body, Inner;
    KnownBody();
    MaskOfSixteen();
    HeaderBytes();
    FirstBlock();
    FirstNumbers();
  }
}
