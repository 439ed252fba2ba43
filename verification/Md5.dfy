/** md5.c: the streaming MD5 context. */
module Md5 {
  import opened Rfc1321
  import opened Bits

  const TWO64: nat := 0x1_0000_0000_0000_0000

  // The optimised round functions of md5.c:272-275.
  function FF(b: Word, c: Word, d: Word): (w: Word)
    ensures w == F(b, c, d)
  {
    hide F, XorWord;
    FFBits(b, c, d);
    XorWord(d, And(b, XorWord(c, d)))
  }

  lemma FFBits(b: Word, c: Word, d: Word)
    ensures XorWord(d, And(b, XorWord(c, d))) == F(b, c, d)
  {
    hide Bit, And, Xor, F;
    var w := XorWord(d, And(b, XorWord(c, d)));
    WordWidth();
    forall i | 0 <= i < 32 ensures Bit(w, i) == Bit(F(b, c, d), i) {
      XorBit(c, d, i);
      AndBit(b, XorWord(c, d), i);
      XorBit(d, And(b, XorWord(c, d)), i);
      AuxiliaryBits(b, c, d, i);
    }
    SameBits(w, F(b, c, d), 32);
  }

  function FG(b: Word, c: Word, d: Word): (w: Word)
    ensures w == G(b, c, d)
  {
    hide F, G;
    FGBits(b, c, d);
    FF(d, b, c)
  }

  lemma FGBits(b: Word, c: Word, d: Word)
    ensures F(d, b, c) == G(b, c, d)
  {
    hide Bit, F, G;
    WordWidth();
    forall i | 0 <= i < 32 ensures Bit(F(d, b, c), i) == Bit(G(b, c, d), i) {
      AuxiliaryBits(d, b, c, i);
      AuxiliaryBits(b, c, d, i);
    }
    SameBits(F(d, b, c), G(b, c, d), 32);
  }

  function FH(b: Word, c: Word, d: Word): (w: Word)
    ensures w == H(b, c, d)
  {
    hide XorWord;
    XorWord(XorWord(b, c), d)
  }

  function FI(b: Word, c: Word, d: Word): (w: Word)
    ensures w == I(b, c, d)
  {
    hide XorWord, OrWord, Not;
    XorWord(c, OrWord(b, Not(d)))
  }

  // w << s and w >> s.
  function Left(w: Word, s: nat): Word
    decreases s
  {
    if s == 0 then w else Left(w * 2 % TWO32, s - 1)
  }

  function Right(w: Word, s: nat): Word {
    if s == 0 then w else Right(w / 2, s - 1)
  }

  lemma Doubled(w: Word, i: nat)
    requires i < 32
    ensures Bit(w * 2 % TWO32, i) == if i == 0 then 0 else Bit(w, i - 1)
  {
    hide Bit;
    assert w * 2 % TWO32 == w % 0x8000_0000 * 2;
    BottomApart(w % 0x8000_0000, 0, i);
    if i > 0 {
      TopApart(w, i - 1);
    }
  }

  lemma {:induction false} LeftBit(w: Word, s: nat, i: nat)
    requires i < 32
    ensures Bit(Left(w, s), i) == if i < s then 0 else Bit(w, i - s)
    decreases s
  {
    hide Bit;
    if s > 0 {
      LeftBit(w * 2 % TWO32, s - 1, i);
      if i + 1 >= s {
        Doubled(w, i + 1 - s);
      }
    }
  }

  lemma {:induction false} RightBit(w: Word, s: nat, i: nat)
    ensures Bit(Right(w, s), i) == Bit(w, i + s)
  {
    if s > 0 {
      RightBit(w / 2, s - 1, i);
    }
  }

  /** The CYCLIC macro: (w << s) | (w >> (32 - s)). */
  function Cyclic(w: Word, s: nat): (r: Word)
    requires 0 < s < 32
    ensures r == RotateLeft(w, s)
  {
    hide OrWord, Left, Right, RotateLeft;
    CyclicRotates(w, s);
    OrWord(Left(w, s), Right(w, 32 - s))
  }

  /** The left shift leaves zeros where the right shift brings the top bits. */
  lemma CyclicRotates(w: Word, s: nat)
    requires 0 < s < 32
    ensures OrWord(Left(w, s), Right(w, 32 - s)) == RotateLeft(w, s)
  {
    hide Bit, Or, Left, Right, RotateLeft;
    var r := OrWord(Left(w, s), Right(w, 32 - s));
    WordWidth();
    forall i | 0 <= i < 32 ensures Bit(r, i) == Bit(RotateLeft(w, s), i) {
      OrBit(Left(w, s), Right(w, 32 - s), i);
      LeftBit(w, s, i);
      RightBit(w, 32 - s, i);
      if i < s {
        RotatedBits(w, s, i + 32 - s);
      } else {
        RotatedBits(w, s, i - s);
        NoBit(w, 32, i + 32 - s);
      }
    }
    SameBits(r, RotateLeft(w, s), 32);
  }

  /** The OP macro: a += f + x + t; CYCLIC (a, s); a += b. */
  function Op(f: Word, a: Word, b: Word, x: Word, s: nat, t: Word): (w: Word)
    requires 0 < s < 32
    ensures w == Operation(f, a, b, x, s, t)
  {
    hide RotateLeft, Cyclic;
    WrappedSum(a, f, x, t);
    (Cyclic((a + ((f + x) % TWO32 + t) % TWO32) % TWO32, s) + b) % TWO32
  }

  lemma WrappedSum(a: nat, f: nat, x: nat, t: nat)
    ensures (a + ((f + x) % TWO32 + t) % TWO32) % TWO32 == (a + f + x + t) % TWO32
  {
  }

  function FourSteps(i: nat, r: Regs, x: seq<Word>): Regs
    requires i + 4 <= 64 && |x| == 16
  {
    Step(i + 3, Step(i + 2, Step(i + 1, Step(i, r, x), x), x), x)
  }

  lemma {:induction false} FourStepsOnward(i: nat, r: Regs, x: seq<Word>)
    requires i + 4 <= 64 && |x| == 16
    ensures FourSteps(i, Steps(i, r, x), x) == Steps(i + 4, r, x)
  {
    hide Step;
    assert Steps(i + 2, r, x) == Step(i + 1, Steps(i + 1, r, x), x);
    assert Steps(i + 3, r, x) == Step(i + 2, Steps(i + 2, r, x), x);
  }

  /** md5.c: round 1. */
  method Round1(r: Regs, x: seq<Word>) returns (r': Regs)
    requires |x| == 16
    ensures r' == FourSteps(12, FourSteps(8, FourSteps(4, FourSteps(0, r, x), x), x), x)
  {
    hide Operation, F, G, H, I, FF, FG, FH, FI, Op;
    var Regs(a, b, c, d) := r;
    ghost var q := r;
    a := Op(FF(b, c, d), a, b, x[0], 7, 0xd76aa478);
    d := Op(FF(a, b, c), d, a, x[1], 12, 0xe8c7b756);
    c := Op(FF(d, a, b), c, d, x[2], 17, 0x242070db);
    b := Op(FF(c, d, a), b, c, x[3], 22, 0xc1bdceee);
    assert Regs(a, b, c, d) == FourSteps(0, q, x);
    q := Regs(a, b, c, d);
    a := Op(FF(b, c, d), a, b, x[4], 7, 0xf57c0faf);
    d := Op(FF(a, b, c), d, a, x[5], 12, 0x4787c62a);
    c := Op(FF(d, a, b), c, d, x[6], 17, 0xa8304613);
    b := Op(FF(c, d, a), b, c, x[7], 22, 0xfd469501);
    assert Regs(a, b, c, d) == FourSteps(4, q, x);
    q := Regs(a, b, c, d);
    a := Op(FF(b, c, d), a, b, x[8], 7, 0x698098d8);
    d := Op(FF(a, b, c), d, a, x[9], 12, 0x8b44f7af);
    c := Op(FF(d, a, b), c, d, x[10], 17, 0xffff5bb1);
    b := Op(FF(c, d, a), b, c, x[11], 22, 0x895cd7be);
    assert Regs(a, b, c, d) == FourSteps(8, q, x);
    q := Regs(a, b, c, d);
    a := Op(FF(b, c, d), a, b, x[12], 7, 0x6b901122);
    d := Op(FF(a, b, c), d, a, x[13], 12, 0xfd987193);
    c := Op(FF(d, a, b), c, d, x[14], 17, 0xa679438e);
    b := Op(FF(c, d, a), b, c, x[15], 22, 0x49b40821);
    assert Regs(a, b, c, d) == FourSteps(12, q, x);
    q := Regs(a, b, c, d);
    r' := Regs(a, b, c, d);
  }

  /** md5.c: round 2. */
  method Round2(r: Regs, x: seq<Word>) returns (r': Regs)
    requires |x| == 16
    ensures r' == FourSteps(28, FourSteps(24, FourSteps(20, FourSteps(16, r, x), x), x), x)
  {
    hide Operation, F, G, H, I, FF, FG, FH, FI, Op;
    var Regs(a, b, c, d) := r;
    ghost var q := r;
    a := Op(FG(b, c, d), a, b, x[1], 5, 0xf61e2562);
    d := Op(FG(a, b, c), d, a, x[6], 9, 0xc040b340);
    c := Op(FG(d, a, b), c, d, x[11], 14, 0x265e5a51);
    b := Op(FG(c, d, a), b, c, x[0], 20, 0xe9b6c7aa);
    assert Regs(a, b, c, d) == FourSteps(16, q, x);
    q := Regs(a, b, c, d);
    a := Op(FG(b, c, d), a, b, x[5], 5, 0xd62f105d);
    d := Op(FG(a, b, c), d, a, x[10], 9, 0x02441453);
    c := Op(FG(d, a, b), c, d, x[15], 14, 0xd8a1e681);
    b := Op(FG(c, d, a), b, c, x[4], 20, 0xe7d3fbc8);
    assert Regs(a, b, c, d) == FourSteps(20, q, x);
    q := Regs(a, b, c, d);
    a := Op(FG(b, c, d), a, b, x[9], 5, 0x21e1cde6);
    d := Op(FG(a, b, c), d, a, x[14], 9, 0xc33707d6);
    c := Op(FG(d, a, b), c, d, x[3], 14, 0xf4d50d87);
    b := Op(FG(c, d, a), b, c, x[8], 20, 0x455a14ed);
    assert Regs(a, b, c, d) == FourSteps(24, q, x);
    q := Regs(a, b, c, d);
    a := Op(FG(b, c, d), a, b, x[13], 5, 0xa9e3e905);
    d := Op(FG(a, b, c), d, a, x[2], 9, 0xfcefa3f8);
    c := Op(FG(d, a, b), c, d, x[7], 14, 0x676f02d9);
    b := Op(FG(c, d, a), b, c, x[12], 20, 0x8d2a4c8a);
    assert Regs(a, b, c, d) == FourSteps(28, q, x);
    q := Regs(a, b, c, d);
    r' := Regs(a, b, c, d);
  }

  /** md5.c: round 3. */
  method Round3(r: Regs, x: seq<Word>) returns (r': Regs)
    requires |x| == 16
    ensures r' == FourSteps(44, FourSteps(40, FourSteps(36, FourSteps(32, r, x), x), x), x)
  {
    hide Operation, F, G, H, I, FF, FG, FH, FI, Op;
    var Regs(a, b, c, d) := r;
    ghost var q := r;
    a := Op(FH(b, c, d), a, b, x[5], 4, 0xfffa3942);
    d := Op(FH(a, b, c), d, a, x[8], 11, 0x8771f681);
    c := Op(FH(d, a, b), c, d, x[11], 16, 0x6d9d6122);
    b := Op(FH(c, d, a), b, c, x[14], 23, 0xfde5380c);
    assert Regs(a, b, c, d) == FourSteps(32, q, x);
    q := Regs(a, b, c, d);
    a := Op(FH(b, c, d), a, b, x[1], 4, 0xa4beea44);
    d := Op(FH(a, b, c), d, a, x[4], 11, 0x4bdecfa9);
    c := Op(FH(d, a, b), c, d, x[7], 16, 0xf6bb4b60);
    b := Op(FH(c, d, a), b, c, x[10], 23, 0xbebfbc70);
    assert Regs(a, b, c, d) == FourSteps(36, q, x);
    q := Regs(a, b, c, d);
    a := Op(FH(b, c, d), a, b, x[13], 4, 0x289b7ec6);
    d := Op(FH(a, b, c), d, a, x[0], 11, 0xeaa127fa);
    c := Op(FH(d, a, b), c, d, x[3], 16, 0xd4ef3085);
    b := Op(FH(c, d, a), b, c, x[6], 23, 0x04881d05);
    assert Regs(a, b, c, d) == FourSteps(40, q, x);
    q := Regs(a, b, c, d);
    a := Op(FH(b, c, d), a, b, x[9], 4, 0xd9d4d039);
    d := Op(FH(a, b, c), d, a, x[12], 11, 0xe6db99e5);
    c := Op(FH(d, a, b), c, d, x[15], 16, 0x1fa27cf8);
    b := Op(FH(c, d, a), b, c, x[2], 23, 0xc4ac5665);
    assert Regs(a, b, c, d) == FourSteps(44, q, x);
    q := Regs(a, b, c, d);
    r' := Regs(a, b, c, d);
  }

  /** md5.c: round 4. */
  method Round4(r: Regs, x: seq<Word>) returns (r': Regs)
    requires |x| == 16
    ensures r' == FourSteps(60, FourSteps(56, FourSteps(52, FourSteps(48, r, x), x), x), x)
  {
    hide Operation, F, G, H, I, FF, FG, FH, FI, Op;
    var Regs(a, b, c, d) := r;
    ghost var q := r;
    a := Op(FI(b, c, d), a, b, x[0], 6, 0xf4292244);
    d := Op(FI(a, b, c), d, a, x[7], 10, 0x432aff97);
    c := Op(FI(d, a, b), c, d, x[14], 15, 0xab9423a7);
    b := Op(FI(c, d, a), b, c, x[5], 21, 0xfc93a039);
    assert Regs(a, b, c, d) == FourSteps(48, q, x);
    q := Regs(a, b, c, d);
    a := Op(FI(b, c, d), a, b, x[12], 6, 0x655b59c3);
    d := Op(FI(a, b, c), d, a, x[3], 10, 0x8f0ccc92);
    c := Op(FI(d, a, b), c, d, x[10], 15, 0xffeff47d);
    b := Op(FI(c, d, a), b, c, x[1], 21, 0x85845dd1);
    assert Regs(a, b, c, d) == FourSteps(52, q, x);
    q := Regs(a, b, c, d);
    a := Op(FI(b, c, d), a, b, x[8], 6, 0x6fa87e4f);
    d := Op(FI(a, b, c), d, a, x[15], 10, 0xfe2ce6e0);
    c := Op(FI(d, a, b), c, d, x[6], 15, 0xa3014314);
    b := Op(FI(c, d, a), b, c, x[13], 21, 0x4e0811a1);
    assert Regs(a, b, c, d) == FourSteps(56, q, x);
    q := Regs(a, b, c, d);
    a := Op(FI(b, c, d), a, b, x[4], 6, 0xf7537e82);
    d := Op(FI(a, b, c), d, a, x[11], 10, 0xbd3af235);
    c := Op(FI(d, a, b), c, d, x[2], 15, 0x2ad7d2bb);
    b := Op(FI(c, d, a), b, c, x[9], 21, 0xeb86d391);
    assert Regs(a, b, c, d) == FourSteps(60, q, x);
    q := Regs(a, b, c, d);
    r' := Regs(a, b, c, d);
  }

  method CompressBlock(r: Regs, x: seq<Word>) returns (r': Regs)
    requires |x| == 16
    ensures r' == Add(Steps(64, r, x), r)
  {
    hide Step, FourSteps, Steps;
    var q := Round1(r, x);
    q := Round2(q, x);
    q := Round3(q, x);
    q := Round4(q, x);
    assert Steps(0, r, x) == r by { NoSteps(r, x); }
    SixteenSteps(0, r, x);
    SixteenSteps(16, r, x);
    SixteenSteps(32, r, x);
    SixteenSteps(48, r, x);
    r' := Regs((q.a + r.a) % TWO32, (q.b + r.b) % TWO32, (q.c + r.c) % TWO32, (q.d + r.d) % TWO32);
  }

  lemma NoSteps(r: Regs, x: seq<Word>)
    requires |x| == 16
    ensures Steps(0, r, x) == r
  {
  }

  lemma SixteenSteps(i: nat, r: Regs, x: seq<Word>)
    requires i + 16 <= 64 && |x| == 16
    ensures FourSteps(i + 12, FourSteps(i + 8, FourSteps(i + 4, FourSteps(i, Steps(i, r, x), x), x), x), x)
            == Steps(i + 16, r, x)
  {
    hide FourSteps, Steps;
    FourStepsOnward(i, r, x);
    FourStepsOnward(i + 4, r, x);
    FourStepsOnward(i + 8, r, x);
    FourStepsOnward(i + 12, r, x);
  }

  /**
   The spurious carry of md5.c:296: a call of 2^32 bytes or more always passes the test
   `total[0] < len`, so it adds 2^32 too many to the counter when total[0] did not really wrap.
   */
  function PhantomCarry(low: nat, len: nat): (p: nat)
    requires low < TWO32
    ensures p <= 1 && (len < TWO32 ==> p == 0)
  {
    if TWO32 <= len && low + len % TWO32 < TWO32 then 1 else 0
  }

  /** How much of a call's input goes to fill the buffer: md5.c:210-213. */
  function TopUpLength(buflen: nat, len: nat): (add: nat)
    requires buflen <= 64
    ensures add <= len
  {
    if buflen == 0 then 0 else if 128 - buflen > len then len else 128 - buflen
  }

  /** buflen once the buffer is filled and its whole blocks are hashed: md5.c:214-225. */
  function Kept(used: nat): nat {
    if used > 64 then used - DownToBlock(used) else used
  }

  /** buflen after a call of md5_process_bytes. */
  function BuflenAfter(buflen: nat, len: nat, aligned: bool): (b: nat)
    requires buflen <= 64
  {
    var rest := len - TopUpLength(buflen, len);
    if rest == 0 then Kept(buflen + len)
    else if rest <= 64 then rest
    else if aligned then rest - DownToBlock(rest)
    else rest - DownToBlock(rest - 1)
  }

  /**
   The phantom carries of one call after count bytes: the one inner call that can be long is the aligned
   one, of the whole blocks that are left when the buffer has been filled.
   */
  function CallPhantoms(count: nat, buflen: nat, len: nat, aligned: bool): (p: nat)
    requires buflen <= 64
    ensures p <= 1 && (len < TWO32 ==> p == 0) && (!aligned ==> p == 0)
  {
    var add := TopUpLength(buflen, len);
    if aligned && len - add > 64 then PhantomCarry((count + add) % TWO32, DownToBlock(len - add)) else 0
  }

  lemma OneBlockIsWhole()
    ensures WholeBlocks(64)
  {
  }

  /** n & ~63 */
  function DownToBlock(n: nat): (w: nat)
    ensures w <= n < w + 64 && WholeBlocks(w)
    ensures n == 128 ==> w == 128
  {
    n - n % 64
  }

  /** The 64-bit counter stands for `count` bytes, plus 2^32 for each phantom carry so far. */
  ghost predicate Counts(total: nat, count: nat, phantoms: nat) {
    total == (count + TWO32 * phantoms) % TWO64
  }

  /** struct md5_ctx. `consumed` is the part of the message that has been hashed into the registers. */
  class Context {
    var regs: Regs
    var total0: nat
    var total1: nat
    var buflen: nat
    const buffer: array<Byte>

    ghost var consumed: seq<Byte>
    ghost var phantoms: nat

    ghost predicate Valid()
      reads this, buffer
    {
      Hashed() && buflen <= 64 && buffer.Length == 128
    }

    /** Everything but the bound on buflen, which md5_process_bytes breaks for a moment. */
    ghost predicate Hashed()
      reads `regs, `total0, `total1, `consumed, `phantoms
    {
      && total0 < TWO32 && total1 < TWO32
      && WholeBlocks(|consumed|)
      && regs == Blocks(INIT, consumed)
      && Counts(total0 + TWO32 * total1, |consumed|, phantoms)
    }

    /** The message fed in so far. */
    ghost function Message(): seq<Byte>
      requires buflen <= buffer.Length
      reads this, buffer
    {
      consumed + buffer[..buflen]
    }

    /** md5_init_ctx */
    constructor ()
      ensures Valid() && fresh(buffer)
      ensures Message() == [] && phantoms == 0
    {
      regs := INIT;
      total0, total1 := 0, 0;
      buflen := 0;
      buffer := new Byte[128](i => 0);
      consumed, phantoms := [], 0;
      new;
      assert buffer[..0] == [];
    }

    /** md5_process_block: a whole number of 64-byte blocks. */
    method ProcessBlock(data: seq<Byte>)
      requires total0 < TWO32 && total1 < TWO32
      requires WholeBlocks(|data|) && |data| < TWO64
      modifies `regs, `total0, `total1
      ensures regs == Blocks(old(regs), data)
      ensures (total0, total1) == CountUp(old(total0), old(total1), |data|)
    {
      hide Blocks;
      var len := |data|;
      total0 := (total0 + len) % TWO32;
      total1 := (total1 + len / TWO32 + (if total0 < len then 1 else 0)) % TWO32;
      regs := CompressAll(regs, data);
    }

    /** A call of md5_process_block keeps the context a hash of the bytes consumed. */
    method Consume(data: seq<Byte>)
      requires Hashed() && WholeBlocks(|data|) && |data| < TWO64
      modifies `regs, `total0, `total1, `consumed, `phantoms
      ensures Hashed()
      ensures consumed == old(consumed) + data
      ensures phantoms == old(phantoms) + PhantomCarry(old(total0), |data|)
    {
      hide Blocks, PhantomCarry, CountUp, WholeBlocks, Counts;
      CounterAdds(total0, total1, |consumed|, phantoms, |data|);
      WholeSum(|consumed|, |data|);
      BlocksConcat(INIT, consumed, data);
      ProcessBlock(data);
      phantoms := phantoms + PhantomCarry(old(total0), |data|);
      consumed := consumed + data;
    }

    /** memcpy (&ctx->buffer[at], from, ...) */
    method Store(at: nat, from: seq<Byte>)
      requires at + |from| <= buffer.Length
      modifies buffer
      ensures buffer[..at + |from|] == old(buffer[..at]) + from
      ensures buffer[at + |from|..] == old(buffer[at + |from|..])
    {
      forall i | 0 <= i < |from| {
        buffer[at + i] := from[i];
      }
    }

    /** md5.c:218-225: hash the whole blocks of the buffer and move what is left to its front. */
    method Spill(used: nat)
      requires Hashed() && buffer.Length == 128 && 64 < used <= 128
      modifies this, buffer
      ensures Valid() && buflen == Kept(used)
      ensures Message() == old(consumed) + old(buffer[..used])
      ensures phantoms == old(phantoms)
    {
      hide Hashed, WholeBlocks, DownToBlock, PhantomCarry;
      var whole := DownToBlock(used);
      var done, left := buffer[..whole], buffer[whole..used];
      assert buffer[..used] == done + left;
      Consume(done);
      Store(0, left);
      buflen := used - whole;
    }

    /** md5.c:210-229: fill the buffer that already holds bytes, and hash it when it passes one block. */
    method TopUp(input: seq<Byte>) returns (rest: seq<Byte>)
      requires Valid() && buflen != 0
      modifies this, buffer
      ensures Valid() && (rest == [] || buflen == 0)
      ensures |input| - |rest| == TopUpLength(old(buflen), |input|)
      ensures rest == [] ==> buflen == Kept(old(buflen) + |input|)
      ensures Message() + rest == old(Message()) + input
      ensures phantoms == old(phantoms)
    {
      hide Hashed;
      var leftOver := buflen;
      var add := if 128 - leftOver > |input| then |input| else 128 - leftOver;
      Store(leftOver, input[..add]);
      rest := input[add..];
      assert input == input[..add] + rest;
      buflen := leftOver + add;
      if leftOver + add > 64 {
        Spill(leftOver + add);
      }
    }

    /** md5.c:243-249: the copying loop for unaligned input. */
    method UnalignedBlocks(input: seq<Byte>) returns (rest: seq<Byte>)
      requires Valid() && buflen == 0 && |input| > 64
      modifies this, buffer
      ensures Valid() && buflen == 0 && 0 < |rest| <= 64
      ensures |rest| == |input| - DownToBlock(|input| - 1)
      ensures consumed + rest == old(consumed) + input
      ensures phantoms == old(phantoms)
    {
      hide Hashed, WholeBlocks, DownToBlock, PhantomCarry;
      rest := input;
      while |rest| > 64
        invariant Valid() && buflen == 0 && |rest| > 0
        invariant |rest| - DownToBlock(|rest| - 1) == |input| - DownToBlock(|input| - 1)
        invariant consumed + rest == old(consumed) + input
        invariant phantoms == old(phantoms)
      {
        ghost var before := consumed;
        Store(0, rest[..64]);
        assert buffer[..64] == rest[..64];
        assert WholeBlocks(64) by { OneBlockIsWhole(); }
        Consume(buffer[..64]);
        assert before + rest == before + rest[..64] + rest[64..];
        BlockLess(|rest|);
        rest := rest[64..];
      }
      LastBlock(|rest|);
    }

    /** md5.c:252-256: one call for all the whole blocks of aligned input. */
    method AlignedBlocks(input: seq<Byte>) returns (rest: seq<Byte>)
      requires Valid() && buflen == 0 && 64 < |input| < TWO64
      modifies this
      ensures Valid() && buflen == 0 && |rest| == |input| - DownToBlock(|input|) < 64
      ensures consumed + rest == old(consumed) + input
      ensures phantoms == old(phantoms) + PhantomCarry(|old(consumed)| % TWO32, DownToBlock(|input|))
    {
      hide Hashed, WholeBlocks, DownToBlock, PhantomCarry;
      var whole := DownToBlock(|input|);
      LowWord();
      Consume(input[..whole]);
      rest := input[whole..];
      assert input == input[..whole] + rest;
    }

    /**
     md5_process_bytes. `aligned` is the outcome of the alignment test of md5.c:242 on the
     pointer that is left after the buffered part, when that test is reached.
     */
    method ProcessBytes(input: seq<Byte>, aligned: bool)
      requires Valid() && |input| < TWO64
      modifies this, buffer
      ensures Valid()
      ensures Message() == old(Message()) + input
      ensures buflen == BuflenAfter(old(buflen), |input|, aligned)
      ensures phantoms == old(phantoms) + CallPhantoms(|old(Message())|, old(buflen), |input|, aligned)
    {
      hide Hashed, WholeBlocks, DownToBlock, PhantomCarry, Kept;
      var rest := input;
      NothingKept();
      if buflen != 0 {
        rest := TopUp(rest);
      }
      ghost var before := consumed;
      ghost var tail := rest;
      assert rest != [] ==> before + tail == old(Message()) + input;
      assert rest != [] ==> |before| == |old(Message())| + TopUpLength(old(buflen), |input|);
      if |rest| > 64 {
        if !aligned {
          rest := UnalignedBlocks(rest);
        } else {
          rest := AlignedBlocks(rest);
        }
      }
      assert consumed + rest == before + tail;
      if |rest| > 0 {
        Store(0, rest);
        buflen := |rest|;
        assert buffer[..buflen] == rest;
      }
    }

    /** The low counter word is exact, phantom carries or not. */
    lemma LowWord()
      requires Hashed()
      ensures total0 == |consumed| % TWO32
    {
      hide Blocks, WholeBlocks;
      LowWordOf(total0, total1, |consumed|, phantoms);
    }

    /** md5_finish_ctx and md5_read_ctx. */
    method Finish() returns (digest: seq<Byte>)
      requires Valid()
      modifies this, buffer
      ensures digest == DigestWithCount(old(Message()), |old(Message())| + TWO32 * old(phantoms))
    {
      hide Blocks, CountUp, LittleEndian, PhantomCarry, Padding, WholeBlocks;
      ghost var msg, kept := Message(), buffer[..buflen];
      var bytes := buflen;
      CountLast(bytes);
      var pad := if bytes >= 56 then 64 + 56 - bytes else 56 - bytes;
      PaddingFits(|consumed|, bytes, pad);
      var low := LittleEndian(total0 * 8 % TWO32, 4);
      var high := LittleEndian(total1 * 8 % TWO32 + total0 / 0x2000_0000, 4);
      LengthField(total0, total1);
      Store(bytes, ([0x80] + Zeros(63))[..pad]);
      Store(bytes + pad, low);
      Store(bytes + pad + 4, high);
      var last := buffer[..bytes + pad + 8];
      Reassociate(consumed, kept, Padding(|msg|), low, high);
      BlocksConcat(INIT, consumed, last);
      ProcessBlock(last);
      digest := Output(regs);
    }

    /** The byte count of md5.c:110-112. */
    method CountLast(bytes: nat)
      requires Hashed() && bytes <= 64
      modifies `total0, `total1
      ensures total0 < TWO32 && total1 < TWO32
      ensures 8 * (total0 + TWO32 * total1) % TWO64 == 8 * (|consumed| + bytes + TWO32 * phantoms) % TWO64
    {
      hide Blocks, Counts, WholeBlocks;
      FinalCount(total0, total1, bytes, |consumed|, phantoms);
      total0 := (total0 + bytes) % TWO32;
      if total0 < bytes {
        total1 := (total1 + 1) % TWO32;
      }
    }
  }

  lemma Reassociate(c: seq<Byte>, kept: seq<Byte>, pad: seq<Byte>, low: seq<Byte>, high: seq<Byte>)
    ensures c + (kept + pad + low + high) == (c + kept) + pad + (low + high)
  {
  }

  lemma FinalCount(low: nat, high: nat, bytes: nat, count: nat, phantoms: nat)
    requires low < TWO32 && high < TWO32 && bytes <= 64
    requires Counts(low + TWO32 * high, count, phantoms)
    ensures var low' := (low + bytes) % TWO32;
            var high' := if low' < bytes then (high + 1) % TWO32 else high;
            8 * (low' + TWO32 * high') % TWO64 == 8 * (count + bytes + TWO32 * phantoms) % TWO64
  {
    var low' := (low + bytes) % TWO32;
    var high' := if low' < bytes then (high + 1) % TWO32 else high;
    var all := count + bytes + TWO32 * phantoms;
    var k := (count + TWO32 * phantoms) / TWO64;
    assert all == low + TWO32 * high + bytes + TWO64 * k;
    var wrapped := if low + bytes < TWO32 then 0 else 1;
    var dropped := if high' == high + wrapped then 0 else 1;
    assert all == low' + TWO32 * high' + TWO64 * (k + dropped);
    AddMultiples(8 * (low' + TWO32 * high'), 8 * (k + dropped));
  }

  /** total[0] << 3, then (total[1] << 3) | (total[0] >> 29): the bit count, low word first. */
  lemma LengthField(low: nat, high: nat)
    requires low < TWO32 && high < TWO32
    ensures LittleEndian(low * 8 % TWO32, 4) + LittleEndian(high * 8 % TWO32 + low / 0x2000_0000, 4)
            == LittleEndian(8 * (low + TWO32 * high) % TWO64, 8)
  {
    hide LittleEndian;
    var l, h := low * 8 % TWO32, high * 8 % TWO32 + low / 0x2000_0000;
    BitCount(low, high);
    EightBytes(l, h);
  }

  lemma BitCount(low: nat, high: nat)
    requires low < TWO32 && high < TWO32
    ensures 8 * (low + TWO32 * high) % TWO64 == low * 8 % TWO32 + TWO32 * (high * 8 % TWO32 + low / 0x2000_0000)
  {
    var l, h, k := low * 8 % TWO32, high * 8 % TWO32 + low / 0x2000_0000, high * 8 / TWO32;
    assert low * 8 == TWO32 * (low / 0x2000_0000) + l;
    assert 8 * (low + TWO32 * high) == l + TWO32 * h + TWO64 * k;
    AddMultiples(l + TWO32 * h, k);
  }

  lemma EightBytes(l: nat, h: nat)
    requires l < TWO32
    ensures LittleEndian(l + TWO32 * h, 8) == LittleEndian(l, 4) + LittleEndian(h, 4)
  {
    hide LittleEndian;
    var low, high := l % 0x1_0000, l / 0x1_0000;
    TwoBytes(low, high + 0x1_0000 * h, 6);
    TwoBytes(high, h, 4);
    TwoBytes(low, high, 2);
    TwoBytes(high, 0, 0);
    assert LittleEndian(0, 0) == [];
  }

  lemma TwoBytes(v: nat, n: nat, width: nat)
    requires v < 0x1_0000
    ensures LittleEndian(v + 0x1_0000 * n, width + 2) == LittleEndian(v, 2) + LittleEndian(n, width)
  {
    hide LittleEndian;
    var b, t := v % 0x100, v / 0x100;
    LowByte(b, t + 0x100 * n, width + 1);
    LowByte(t, n, width);
    LowByte(b, t, 1);
    LowByte(t, 0, 0);
    assert LittleEndian(0, 0) == [];
  }

  /** The pad of md5.c:114 is the padding of section 3.1, and fills whole blocks. */
  lemma PaddingFits(count: nat, bytes: nat, pad: nat)
    requires WholeBlocks(count) && bytes <= 64
    requires pad == if bytes >= 56 then 64 + 56 - bytes else 56 - bytes
    ensures ([0x80] + Zeros(63))[..pad] == Padding(count + bytes)
    ensures WholeBlocks(bytes + pad + 8)
  {
    assert (55 - (count + bytes)) % 64 == pad - 1;
  }

  /** The loop of md5_process_block. */
  method CompressAll(r: Regs, data: seq<Byte>) returns (r': Regs)
    requires WholeBlocks(|data|)
    ensures r' == Blocks(r, data)
  {
    hide Steps, WordsOf;
    r' := r;
    var words := 0;
    while words < |data|
      invariant 0 <= words <= |data| && WholeBlocks(words)
      invariant r' == Blocks(r, data[..words])
    {
      var block := data[words..words + 64];
      r' := CompressBlock(r', WordsOf(block));
      BlocksSnoc(r, data[..words], block);
      assert data[..words] + block == data[..words + 64];
      words := words + 64;
    }
    assert data[..words] == data;
  }

  lemma BlocksSnoc(r: Regs, data: seq<Byte>, block: seq<Byte>)
    requires WholeBlocks(|data|) && |block| == 64
    ensures Blocks(r, data + block) == Compress(Blocks(r, data), block)
  {
    hide Blocks, Compress;
    BlocksConcat(r, data, block);
    OneBlock(Blocks(r, data), block);
  }

  /** The two-word increment of md5.c:295-296 adds len, plus 2^32 for a phantom carry. */
  function CountUp(low: nat, high: nat, len: nat): (t: (nat, nat))
    requires low < TWO32 && high < TWO32
    ensures t.0 < TWO32 && t.1 < TWO32
    ensures t.0 + TWO32 * t.1 == (low + TWO32 * high + len + TWO32 * PhantomCarry(low, len)) % TWO64
  {
    var low' := (low + len) % TWO32;
    var h := high + len / TWO32 + (if low' < len then 1 else 0);
    CounterStep(low, high, len, low', h);
    (low', h % TWO32)
  }

  lemma CounterStep(low: nat, high: nat, len: nat, low': nat, h: nat)
    requires low < TWO32 && high < TWO32
    requires low' == (low + len) % TWO32
    requires h == high + len / TWO32 + (if low' < len then 1 else 0)
    ensures low' + TWO32 * (h % TWO32) == (low + TWO32 * high + len + TWO32 * PhantomCarry(low, len)) % TWO64
  {
    var realCarry := if low + len % TWO32 < TWO32 then 0 else 1;
    assert low + len == TWO32 * (len / TWO32 + realCarry) + low';
    assert low + TWO32 * high + len + TWO32 * PhantomCarry(low, len) == TWO32 * h + low';
    assert TWO32 * h + low' == TWO64 * (h / TWO32) + (TWO32 * (h % TWO32) + low');
  }

  lemma AddMultiples(n: nat, k: nat)
    ensures (n + TWO64 * k) % TWO64 == n % TWO64
  {
    assert n + TWO64 * k == TWO64 * (n / TWO64 + k) + n % TWO64;
  }

  lemma CounterAdds(low: nat, high: nat, count: nat, phantoms: nat, len: nat)
    requires low < TWO32 && high < TWO32
    requires Counts(low + TWO32 * high, count, phantoms)
    ensures var t := CountUp(low, high, len);
            Counts(t.0 + TWO32 * t.1, count + len, phantoms + PhantomCarry(low, len))
  {
    hide PhantomCarry, CountUp;
    var before := count + TWO32 * phantoms;
    var more := len + TWO32 * PhantomCarry(low, len);
    AddMultiples(before % TWO64 + more, before / TWO64);
  }

  lemma LowWordOf(low: nat, high: nat, count: nat, phantoms: nat)
    requires low < TWO32 && high < TWO32 && Counts(low + TWO32 * high, count, phantoms)
    ensures low == count % TWO32
  {
    var k := (count + TWO32 * phantoms) / TWO64;
    assert count + TWO32 * phantoms == low + TWO32 * high + TWO64 * k;
    assert count == low + TWO32 * (high + TWO32 * k - phantoms);
  }

  lemma BlockLess(n: nat)
    requires n > 64
    ensures n - DownToBlock(n - 1) == (n - 64) - DownToBlock(n - 64 - 1)
  {
    assert (n - 1) % 64 == (n - 65) % 64;
  }

  lemma LastBlock(n: nat)
    requires 0 < n <= 64
    ensures DownToBlock(n - 1) == 0
  {
  }

  lemma NothingKept()
    ensures Kept(0) == 0
  {
  }

  lemma WholeSum(m: nat, n: nat)
    requires WholeBlocks(m) && WholeBlocks(n)
    ensures WholeBlocks(m + n)
  {
  }

  /** A message and the way it is cut into calls. */
  function Concat(chunks: seq<seq<Byte>>): seq<Byte> {
    if chunks == [] then [] else Concat(chunks[..|chunks| - 1]) + chunks[|chunks| - 1]
  }

  function BuflenOf(chunks: seq<seq<Byte>>, aligned: seq<bool>): (b: nat)
    requires |aligned| == |chunks|
    ensures b <= 64
  {
    if chunks == [] then 0
    else
      var last := |chunks| - 1;
      BuflenWithin(BuflenOf(chunks[..last], aligned[..last]), |chunks[last]|, aligned[last]);
      BuflenAfter(BuflenOf(chunks[..last], aligned[..last]), |chunks[last]|, aligned[last])
  }

  lemma BuflenWithin(buflen: nat, len: nat, aligned: bool)
    requires buflen <= 64
    ensures BuflenAfter(buflen, len, aligned) <= 64
  {
  }

  /** The phantom carries of all the calls. */
  function PhantomsOf(chunks: seq<seq<Byte>>, aligned: seq<bool>): nat
    requires |aligned| == |chunks|
  {
    if chunks == [] then 0
    else
      var last := |chunks| - 1;
      PhantomsOf(chunks[..last], aligned[..last])
      + CallPhantoms(|Concat(chunks[..last])|, BuflenOf(chunks[..last], aligned[..last]), |chunks[last]|, aligned[last])
  }

  lemma {:induction false} ShortCallsExact(chunks: seq<seq<Byte>>, aligned: seq<bool>)
    requires |aligned| == |chunks| && forall i :: 0 <= i < |chunks| ==> |chunks[i]| < TWO32 || !aligned[i]
    ensures PhantomsOf(chunks, aligned) == 0
    decreases |chunks|
  {
    if chunks != [] {
      var last := |chunks| - 1;
      ShortCallsExact(chunks[..last], aligned[..last]);
    }
  }

  /** The 64-bit length field is right exactly when the phantom carries are a multiple of 2^29. */
  lemma LengthRightIff(count: nat, phantoms: nat)
    ensures LittleEndian(8 * (count + TWO32 * phantoms) % TWO64, 8) == LittleEndian(8 * count % TWO64, 8)
            <==> phantoms % 0x2000_0000 == 0
  {
    var q, r := phantoms / 0x2000_0000, phantoms % 0x2000_0000;
    assert 8 * (count + TWO32 * phantoms) == 8 * count + 0x8_0000_0000 * r + TWO64 * q;
    AddMultiples(8 * count + 0x8_0000_0000 * r, q);
    LittleEndianInjective(8 * (count + TWO32 * phantoms) % TWO64, 8 * count % TWO64, 8);
    Shifted(8 * count, 0x8_0000_0000 * r);
  }

  lemma Shifted(n: nat, d: nat)
    requires d < TWO64
    ensures (n + d) % TWO64 == n % TWO64 <==> d == 0
  {
  }

  function Power256(n: nat): nat { if n == 0 then 1 else 256 * Power256(n - 1) }

  lemma {:induction false} LittleEndianInjective(m: nat, n: nat, width: nat)
    requires m < Power256(width) && n < Power256(width)
    ensures LittleEndian(m, width) == LittleEndian(n, width) ==> m == n
  {
    if width > 0 && LittleEndian(m, width) == LittleEndian(n, width) {
      assert LittleEndian(m, width)[0] == m % 0x100 && LittleEndian(m, width)[1..] == LittleEndian(m / 0x100, width - 1);
      assert LittleEndian(n, width)[0] == n % 0x100 && LittleEndian(n, width)[1..] == LittleEndian(n / 0x100, width - 1);
      LittleEndianInjective(m / 0x100, n / 0x100, width - 1);
    }
  }

  /**
   Streaming equals hashing in one piece: whatever the cut and whatever path each call takes, the
   result is the RFC 1321 digest of the concatenation, but for 2^32 in the byte count behind the length
   field for each phantom carry, which are determined by the calls. Without one, as when every aligned
   call is shorter than 2^32 bytes, or with a multiple of 2^29 of them, the length field is right.
   */
  method HashChunks(chunks: seq<seq<Byte>>, aligned: seq<bool>) returns (digest: seq<Byte>)
    requires |aligned| == |chunks|
    requires forall i :: 0 <= i < |chunks| ==> |chunks[i]| < TWO64
    ensures digest == DigestWithCount(Concat(chunks), |Concat(chunks)| + TWO32 * PhantomsOf(chunks, aligned))
    ensures PhantomsOf(chunks, aligned) % 0x2000_0000 == 0 ==> digest == Digest(Concat(chunks))
    ensures (forall i :: 0 <= i < |chunks| ==> |chunks[i]| < TWO32 || !aligned[i]) ==> digest == Digest(Concat(chunks))
  {
    hide Blocks, CountUp, Counts, LittleEndian, PhantomCarry, Padding, WholeBlocks, Output, CallPhantoms, BuflenAfter;
    var ctx := new Context();
    for i := 0 to |chunks|
      invariant fresh(ctx) && fresh(ctx.buffer)
      invariant ctx.Valid() && ctx.phantoms == PhantomsOf(chunks[..i], aligned[..i])
      invariant ctx.buflen == BuflenOf(chunks[..i], aligned[..i])
      invariant ctx.Message() == Concat(chunks[..i])
    {
      assert chunks[..i + 1][..i] == chunks[..i] && aligned[..i + 1][..i] == aligned[..i];
      ctx.ProcessBytes(chunks[i], aligned[i]);
    }
    assert chunks[..|chunks|] == chunks && aligned[..|aligned|] == aligned;
    digest := ctx.Finish();
    if PhantomsOf(chunks, aligned) % 0x2000_0000 == 0 {
      RightLength(Concat(chunks), PhantomsOf(chunks, aligned));
    }
    if forall i :: 0 <= i < |chunks| ==> |chunks[i]| < TWO32 || !aligned[i] {
      ShortCallsExact(chunks, aligned);
    }
  }

  lemma RightLength(msg: seq<Byte>, phantoms: nat)
    requires phantoms % 0x2000_0000 == 0
    ensures DigestWithCount(msg, |msg| + TWO32 * phantoms) == Digest(msg)
  {
    hide LittleEndian, Output, Blocks, Padding;
    LengthRightIff(|msg|, phantoms);
  }

  /** The counter is exact modulo 2^64 precisely when the call is short or total[0] really wraps. */
  lemma CounterExactIff(low: nat, high: nat, len: nat)
    requires low < TWO32 && high < TWO32 && len < TWO64
    ensures var t := CountUp(low, high, len);
            t.0 + TWO32 * t.1 == (low + TWO32 * high + len) % TWO64
            <==> len < TWO32 || TWO32 <= low + len % TWO32
  {
    var n := low + TWO32 * high + len;
    if PhantomCarry(low, len) == 1 {
      assert (n + TWO32) % TWO64 != n % TWO64;
    }
  }

  /** A single call of 2^32 bytes on a fresh context is counted as 2^33. */
  lemma CounterFailsAt4GiB()
    ensures CountUp(0, 0, TWO32) == (0, 2)
  {
  }
}
