/**
 The MD5 digest as sections 3.1 to 3.5 of RFC 1321 define it: padding, the length field,
 the sixty-four indexed steps over the four registers, and the output byte order.
 Nothing here knows about buffering or streaming; md5.c is proved against this module.
 */
module Rfc1321 {
  import opened Bits

  const TWO32: int := 0x1_0000_0000

  /** A 32-bit word. */
  type Word = x: int | 0 <= x < 0x1_0000_0000
  type Byte = x: int | 0 <= x < 0x100

  lemma WordWidth()
    ensures Pow2(32) == TWO32 && Pow2(31) == 0x8000_0000 && Pow2(1) == 2
  {
    assert Pow2(10) == 0x400;
    assert Pow2(20) == 0x10_0000;
    assert Pow2(30) == 0x4000_0000;
  }

  /** The four registers A, B, C, D of section 3.3. */
  datatype Regs = Regs(a: Word, b: Word, c: Word, d: Word)

  const INIT: Regs := Regs(0x67452301, 0xefcdab89, 0x98badcfe, 0x10325476)

  // Operators on words.
  function Not(x: Word): Word { TWO32 - 1 - x }

  function OrWord(x: Word, y: Word): Word {
    WordWidth();
    OrBound(x, y, 32);
    Or(x, y)
  }

  function XorWord(x: Word, y: Word): Word {
    WordWidth();
    OrBound(x, y, 32);
    Xor(x, y)
  }

  // The auxiliary functions of section 3.4.
  function F(x: Word, y: Word, z: Word): Word { OrWord(And(x, y), And(Not(x), z)) }
  function G(x: Word, y: Word, z: Word): Word { OrWord(And(x, z), And(y, Not(z))) }
  function H(x: Word, y: Word, z: Word): Word { XorWord(XorWord(x, y), z) }
  function I(x: Word, y: Word, z: Word): Word { XorWord(y, OrWord(x, Not(z))) }

  /** The top bit comes round to the bottom. */
  function RotateOnce(w: Word): Word { w % 0x8000_0000 * 2 + w / 0x8000_0000 }

  function RotateLeft(w: Word, s: nat): Word {
    if s == 0 then w else RotateOnce(RotateLeft(w, s - 1))
  }

  /** T[i + 1] of section 3.4: the integer part of 4294967296 * abs(sin(i + 1)). */
  function T(i: nat): Word
    requires i < 64
  {
    if i < 16 then
      [ 0xd76aa478, 0xe8c7b756, 0x242070db, 0xc1bdceee,
        0xf57c0faf, 0x4787c62a, 0xa8304613, 0xfd469501,
        0x698098d8, 0x8b44f7af, 0xffff5bb1, 0x895cd7be,
        0x6b901122, 0xfd987193, 0xa679438e, 0x49b40821 ][i % 16]
    else if i < 32 then
      [ 0xf61e2562, 0xc040b340, 0x265e5a51, 0xe9b6c7aa,
        0xd62f105d, 0x02441453, 0xd8a1e681, 0xe7d3fbc8,
        0x21e1cde6, 0xc33707d6, 0xf4d50d87, 0x455a14ed,
        0xa9e3e905, 0xfcefa3f8, 0x676f02d9, 0x8d2a4c8a ][i % 16]
    else if i < 48 then
      [ 0xfffa3942, 0x8771f681, 0x6d9d6122, 0xfde5380c,
        0xa4beea44, 0x4bdecfa9, 0xf6bb4b60, 0xbebfbc70,
        0x289b7ec6, 0xeaa127fa, 0xd4ef3085, 0x04881d05,
        0xd9d4d039, 0xe6db99e5, 0x1fa27cf8, 0xc4ac5665 ][i % 16]
    else
      [ 0xf4292244, 0x432aff97, 0xab9423a7, 0xfc93a039,
        0x655b59c3, 0x8f0ccc92, 0xffeff47d, 0x85845dd1,
        0x6fa87e4f, 0xfe2ce6e0, 0xa3014314, 0x4e0811a1,
        0xf7537e82, 0xbd3af235, 0x2ad7d2bb, 0xeb86d391 ][i % 16]
  }

  // The message word each step of rounds 2 to 4 reads, from the step lists of section 3.4.
  const ROUND2: seq<int> := [1, 6, 11, 0, 5, 10, 15, 4, 9, 14, 3, 8, 13, 2, 7, 12]
  const ROUND3: seq<int> := [5, 8, 11, 14, 1, 4, 7, 10, 13, 0, 3, 6, 9, 12, 15, 2]
  const ROUND4: seq<int> := [0, 7, 14, 5, 12, 3, 10, 1, 8, 15, 6, 13, 4, 11, 2, 9]

  function WordIndex(i: nat): (k: int)
    requires i < 64
    ensures 0 <= k < 16
  {
    if i < 16 then i
    else if i < 32 then ROUND2[i % 16]
    else if i < 48 then ROUND3[i % 16]
    else ROUND4[i % 16]
  }

  /** The lists of section 3.4 are arithmetic progressions modulo 16. */
  lemma WordOrder(k: nat)
    requires k < 16
    ensures WordIndex(k) == k && WordIndex(16 + k) == (5 * k + 1) % 16
    ensures WordIndex(32 + k) == (3 * k + 5) % 16 && WordIndex(48 + k) == 7 * k % 16
  {
    assert (16 + k) % 16 == (32 + k) % 16 == (48 + k) % 16 == k;
    Orders(k);
  }

  lemma Orders(k: nat)
    requires k < 16
    ensures ROUND2[k] == (5 * k + 1) % 16 && ROUND3[k] == (3 * k + 5) % 16 && ROUND4[k] == 7 * k % 16
  {
  }

  /** How far step i rotates. */
  function Shift(i: nat): (s: nat)
    requires i < 64
    ensures 0 < s < 32
  {
    if i < 16 then [7, 12, 17, 22][i % 4]
    else if i < 32 then [5, 9, 14, 20][i % 4]
    else if i < 48 then [4, 11, 16, 23][i % 4]
    else [6, 10, 15, 21][i % 4]
  }

  function Mix(i: nat, r: Regs): Word {
    if i < 16 then F(r.b, r.c, r.d)
    else if i < 32 then G(r.b, r.c, r.d)
    else if i < 48 then H(r.b, r.c, r.d)
    else I(r.b, r.c, r.d)
  }

  /** The operation [abcd k s i] of section 3.4, with f the mixed registers, x = X[k] and t = T[i]. */
  function Operation(f: Word, a: Word, b: Word, x: Word, s: nat, t: Word): Word
    requires 0 < s < 32
  {
    (b + RotateLeft((a + f + x + t) % TWO32, s)) % TWO32
  }

  /** Step i: a := b + ((a + mix(b, c, d) + X[k] + T(i)) <<< s), then the registers change roles. */
  function Step(i: nat, r: Regs, x: seq<Word>): Regs
    requires i < 64 && |x| == 16
  {
    Regs(r.d, Operation(Mix(i, r), r.a, r.b, x[WordIndex(i)], Shift(i), T(i)), r.b, r.c)
  }

  function Steps(n: nat, r: Regs, x: seq<Word>): Regs
    requires n <= 64 && |x| == 16
  {
    if n == 0 then r else Step(n - 1, Steps(n - 1, r, x), x)
  }

  function Add(r: Regs, s: Regs): Regs {
    Regs((r.a + s.a) % TWO32, (r.b + s.b) % TWO32, (r.c + s.c) % TWO32, (r.d + s.d) % TWO32)
  }

  function LittleEndianWord(b: seq<Byte>): Word
    requires |b| == 4
  {
    (b[0] as int) + 0x100 * (b[1] as int) + 0x1_0000 * (b[2] as int) + 0x100_0000 * (b[3] as int)
  }

  function WordsOf(block: seq<Byte>): (x: seq<Word>)
    requires |block| == 64
    ensures |x| == 16
  {
    seq(16, i requires 0 <= i < 16 => LittleEndianWord(block[4 * i..4 * i + 4]))
  }

  /** One 64-byte block. */
  function Compress(r: Regs, block: seq<Byte>): Regs
    requires |block| == 64
  {
    Add(Steps(64, r, WordsOf(block)), r)
  }

  /** All the complete blocks of data, in order. */
  function Blocks(r: Regs, data: seq<Byte>): Regs
    decreases |data|
  {
    if |data| < 64 then r else Blocks(Compress(r, data[..64]), data[64..])
  }

  function Zeros(n: nat): seq<Byte> {
    seq(n, i => 0)
  }

  /** Section 3.1: a single 1 bit, then 0 bits up to 56 bytes modulo 64. */
  function Padding(len: nat): seq<Byte> {
    [0x80] + Zeros((55 - len) % 64)
  }

  function LittleEndian(n: nat, width: nat): (b: seq<Byte>)
    ensures |b| == width
  {
    if width == 0 then [] else [n % 0x100] + LittleEndian(n / 0x100, width - 1)
  }

  /** Section 3.5. */
  function Output(r: Regs): seq<Byte> {
    LittleEndian(r.a, 4) + LittleEndian(r.b, 4) + LittleEndian(r.c, 4) + LittleEndian(r.d, 4)
  }

  /** A word written out is the four bytes it was read from. */
  lemma WordRoundTrip(b: seq<Byte>)
    requires |b| == 4
    ensures LittleEndian(LittleEndianWord(b), 4) == b
  {
    hide LittleEndian;
    LowByte(b[0], b[1] as int + 0x100 * (b[2] as int) + 0x1_0000 * (b[3] as int), 3);
    LowByte(b[1], b[2] as int + 0x100 * (b[3] as int), 2);
    LowByte(b[2], b[3], 1);
    LowByte(b[3], 0, 0);
    assert LittleEndian(0, 0) == [];
  }

  lemma LowByte(b: Byte, n: nat, width: nat)
    ensures LittleEndian(b + 0x100 * n, width + 1) == [b] + LittleEndian(n, width)
  {
    assert (b + 0x100 * n) % 0x100 == b && (b + 0x100 * n) / 0x100 == n;
  }

  /** The words of a block are its bytes, four to a word. */
  lemma BlockRoundTrip(block: seq<Byte>, k: nat)
    requires |block| == 64 && k < 64
    ensures LittleEndian(WordsOf(block)[k / 4], 4)[k % 4] == block[k]
  {
    hide LittleEndian, LittleEndianWord;
    WordRoundTrip(block[4 * (k / 4)..4 * (k / 4) + 4]);
  }

  /** The registers begin with the bytes of section 3.3. */
  lemma InitialBytes()
    ensures Output(INIT) == [0x01, 0x23, 0x45, 0x67, 0x89, 0xab, 0xcd, 0xef, 0xfe, 0xdc, 0xba, 0x98, 0x76, 0x54, 0x32, 0x10]
  {
    hide LittleEndian, LittleEndianWord;
    WordRoundTrip([0x01, 0x23, 0x45, 0x67]);
    WordRoundTrip([0x89, 0xab, 0xcd, 0xef]);
    WordRoundTrip([0xfe, 0xdc, 0xba, 0x98]);
    WordRoundTrip([0x76, 0x54, 0x32, 0x10]);
    InitialWords();
  }

  lemma InitialWords()
    ensures INIT.a == LittleEndianWord([0x01, 0x23, 0x45, 0x67]) && INIT.b == LittleEndianWord([0x89, 0xab, 0xcd, 0xef])
    ensures INIT.c == LittleEndianWord([0xfe, 0xdc, 0xba, 0x98]) && INIT.d == LittleEndianWord([0x76, 0x54, 0x32, 0x10])
  {
  }

  /** The digest of msg with `count` as the byte count behind the 64-bit length field of section 3.2. */
  function DigestWithCount(msg: seq<Byte>, count: nat): seq<Byte> {
    Output(Blocks(INIT, msg + Padding(|msg|) + LittleEndian(8 * count % 0x1_0000_0000_0000_0000, 8)))
  }

  function Digest(msg: seq<Byte>): seq<Byte> {
    DigestWithCount(msg, |msg|)
  }

  ghost predicate WholeBlocks(n: nat) {
    n % 64 == 0
  }

  /** Padding brings any length to 56 bytes modulo 64, by at most a block: a byte 0x80 and then zeros. */
  lemma PaddingLength(len: nat)
    ensures (len + |Padding(len)|) % 64 == 56 && 1 <= |Padding(len)| <= 64
    ensures forall k :: 0 <= k < |Padding(len)| ==> Padding(len)[k] == if k == 0 then 0x80 else 0
  {
    assert (len + 1 + (55 - len) % 64) % 64 == 56;
  }

  // ---------------------------------------------------------------- what the functions of section 3.4 do to each bit

  lemma NotBit(x: Word, i: nat)
    requires i < 32
    ensures Bit(Not(x), i) == 1 - Bit(x, i)
  {
    WordWidth();
    ComplementBit(x, 32, i);
  }

  /** F and G select, H is the parity, I the exclusive or of y with "x or not z". */
  lemma AuxiliaryBits(x: Word, y: Word, z: Word, i: nat)
    requires i < 32
    ensures Bit(F(x, y, z), i) == if Bit(x, i) == 1 then Bit(y, i) else Bit(z, i)
    ensures Bit(G(x, y, z), i) == if Bit(z, i) == 1 then Bit(x, i) else Bit(y, i)
    ensures Bit(H(x, y, z), i) == (Bit(x, i) + Bit(y, i) + Bit(z, i)) % 2
    ensures Bit(I(x, y, z), i) == if Bit(x, i) == 1 || Bit(z, i) == 0 then 1 - Bit(y, i) else Bit(y, i)
  {
    hide Bit, And, Or, Xor, Not;
    NotBit(x, i);
    NotBit(z, i);
    AndBit(x, y, i);
    AndBit(Not(x), z, i);
    AndBit(x, z, i);
    AndBit(y, Not(z), i);
    OrBit(And(x, y), And(Not(x), z), i);
    OrBit(And(x, z), And(y, Not(z)), i);
    XorBit(x, y, i);
    XorBit(XorWord(x, y), z, i);
    OrBit(x, Not(z), i);
    XorBit(y, OrWord(x, Not(z)), i);
  }

  /** The top bit apart from the others. */
  lemma TopApart(w: Word, i: nat)
    ensures Bit(w, i) == if i < 31 then Bit(w % 0x8000_0000, i) else Bit(w / 0x8000_0000, i - 31)
  {
    hide Bit, Pow2;
    WordWidth();
    BitSplit(w / 0x8000_0000, w % 0x8000_0000, 31, i);
  }

  /** The bits of a number shifted up by one. */
  lemma BottomApart(high: nat, low: nat, i: nat)
    requires low < 2
    ensures Bit(high * 2 + low, i) == if i == 0 then low else Bit(high, i - 1)
  {
  }

  lemma RotatedOnce(w: Word, i: nat)
    requires i < 32
    ensures Bit(RotateOnce(w), if i == 31 then 0 else i + 1) == Bit(w, i)
  {
    hide Bit;
    TopApart(w, i);
    BottomApart(w % 0x8000_0000, w / 0x8000_0000, if i == 31 then 0 else i + 1);
    LastBit(w / 0x8000_0000);
  }

  lemma LastBit(b: nat)
    requires b < 2
    ensures Bit(b, 0) == b
  {
  }

  lemma NextPlace(k: nat)
    ensures (k + 1) % 32 == if k % 32 == 31 then 0 else k % 32 + 1
  {
  }

  /** Rotating left by s moves every bit s places up, those that fall off the top to the bottom. */
  lemma {:induction false} RotatedBits(w: Word, s: nat, i: nat)
    requires i < 32
    ensures Bit(RotateLeft(w, s), (i + s) % 32) == Bit(w, i)
  {
    hide Bit, RotateOnce;
    if s > 0 {
      RotatedBits(w, s - 1, i);
      RotatedOnce(RotateLeft(w, s - 1), (i + s - 1) % 32);
      NextPlace(i + s - 1);
    }
  }

  lemma {:induction false} BlocksConcat(r: Regs, a: seq<Byte>, b: seq<Byte>)
    requires WholeBlocks(|a|)
    ensures Blocks(r, a + b) == Blocks(Blocks(r, a), b)
    decreases |a|
  {
    hide Compress;
    if a == [] {
      assert a + b == b;
    } else {
      assert (a + b)[..64] == a[..64] && (a + b)[64..] == a[64..] + b;
      BlocksConcat(Compress(r, a[..64]), a[64..], b);
    }
  }

  lemma OneBlock(r: Regs, block: seq<Byte>)
    requires |block| == 64
    ensures Blocks(r, block) == Compress(r, block)
  {
    hide Compress;
    assert block[..64] == block && block[64..] == [];
  }
}
