/** musashi/m68k_in.c: MULS.L, MULU.L, DIVS.L and DIVU.L, built from 32-bit operations. */
module M68kLong {
  import opened Arithmetic
  import opened M68k
  import opened Bits

  /** The fields of the extension word: signed, 64-bit, and the two data registers. */
  type Word = x: int | 0 <= x < 0x1_0000

  predicate IsSigned(word2: Word) { word2 / 0x800 % 2 == 1 }

  predicate IsLong64(word2: Word) { word2 / 0x400 % 2 == 1 }

  function High(word2: Word): nat { word2 % 8 }

  function Low(word2: Word): nat { word2 / 0x1000 % 8 }

  /** The extension word from its fields: bit 11 is signed, bit 10 the 64-bit form, Dl above and Dh below them. */
  lemma ExtensionFields(top: nat, dl: nat, sign: nat, long: nat, gap: nat, dh: nat)
    requires top < 2 && dl < 8 && sign < 2 && long < 2 && gap < 0x80 && dh < 8
    ensures var word2 := 0x8000 * top + 0x1000 * dl + 0x800 * sign + 0x400 * long + 8 * gap + dh;
            && word2 < 0x1_0000 && Low(word2) == dl && High(word2) == dh
            && IsSigned(word2) == (sign == 1) && IsLong64(word2) == (long == 1)
  {
    var word2 := 0x8000 * top + 0x1000 * dl + 0x800 * sign + 0x400 * long + 8 * gap + dh;
    var low := 8 * gap + dh;
    QuotientIs(word2, 0x1000, 8 * top + dl, 0x800 * sign + 0x400 * long + low);
    QuotientIs(word2, 0x800, 16 * top + 2 * dl + sign, 0x400 * long + low);
    QuotientIs(word2, 0x400, 32 * top + 4 * dl + 2 * sign + long, low);
    QuotientIs(word2, 8, 0x1000 * top + 0x200 * dl + 0x100 * sign + 0x80 * long + gap, dh);
  }

  /** MASK_OUT_ABOVE_32(-(sint)x) */
  function Negate(x: uint): uint { Wrap(-(x as int)) }

  function Magnitude(x: uint): (r: uint)
    ensures r == Abs(Signed(x))
  {
    if Msb(x) then Negate(x) else x
  }

  function Abs(x: int): nat { if x < 0 then -x else x }

  /** The 64-bit number held in a pair of registers. */
  function Pair(hi: uint, lo: uint): (r: nat)
    ensures r < TWO32 * TWO32
  {
    hi * TWO32 + lo
  }

  function SignedPair(hi: uint, lo: uint): int { Signed(hi) * TWO32 + lo }

  // ---------------------------------------------------------------- multiplication

  /**
   The four 16 x 16 partial products of m68k_in.c:7398-7410, every sum cut to 32 bits, make the
   exact 64-bit product.
   */
  method PartialProducts(src: uint, dst: uint) returns (hi: uint, lo: uint)
    ensures Pair(hi, lo) == src * dst
  {
    hide Wrap;
    var src1: nat, src2: nat := src % 0x1_0000, src / 0x1_0000;
    var dst1: nat, dst2: nat := dst % 0x1_0000, dst / 0x1_0000;
    HalfBound(src1, dst1);
    HalfBound(src1, dst2);
    HalfBound(src2, dst1);
    HalfBound(src2, dst2);
    ProductOfHalves(src1, src2, dst1, dst2);
    var r1, r2, r3, r4 := Wrap(src1 * dst1), Wrap(src1 * dst2), Wrap(src2 * dst1), Wrap(src2 * dst2);
    lo := Wrap(r1 + Wrap(r2 % 0x1_0000 * 0x1_0000) + Wrap(r3 % 0x1_0000 * 0x1_0000));
    hi := Wrap(r4 + r2 / 0x1_0000 + r3 / 0x1_0000
               + (r1 / 0x1_0000 + r2 % 0x1_0000 + r3 % 0x1_0000) / 0x1_0000);
    assert src * dst == (src2 * 0x1_0000 + src1) * (dst2 * 0x1_0000 + dst1);
    SquareBound(src, dst);
    PartialSums(r1, r2, r3, r4, src * dst);
  }

  lemma HalfBound(a: nat, b: nat)
    requires a < 0x1_0000 && b < 0x1_0000
    ensures 0 <= a * b <= 0xffff * 0xffff
  {
    Monotone(0, a, b);
    Monotone(a, 0xffff, b);
    Monotone(b, 0xffff, 0xffff);
  }

  lemma SquareBound(a: uint, b: uint)
    ensures 0 <= a * b < TWO32 * TWO32
  {
    Monotone(0, a, b);
    Monotone(a, 0xffff_ffff, b);
    Monotone(b, 0xffff_ffff, 0xffff_ffff);
  }

  lemma ProductOfHalves(a1: nat, a2: nat, b1: nat, b2: nat)
    ensures (a2 * 0x1_0000 + a1) * (b2 * 0x1_0000 + b1)
            == a1 * b1 + 0x1_0000 * (a1 * b2) + 0x1_0000 * (a2 * b1) + TWO32 * (a2 * b2)
  {
  }

  lemma PartialSums(r1: nat, r2: nat, r3: nat, r4: nat, product: nat)
    requires r1 <= 0xffff * 0xffff && r2 <= 0xffff * 0xffff && r3 <= 0xffff * 0xffff && r4 <= 0xffff * 0xffff
    requires product == r1 + 0x1_0000 * r2 + 0x1_0000 * r3 + TWO32 * r4 && product < TWO32 * TWO32
    ensures var lo := Wrap(r1 + Wrap(r2 % 0x1_0000 * 0x1_0000) + Wrap(r3 % 0x1_0000 * 0x1_0000));
            var hi := Wrap(r4 + r2 / 0x1_0000 + r3 / 0x1_0000
                           + (r1 / 0x1_0000 + r2 % 0x1_0000 + r3 % 0x1_0000) / 0x1_0000);
            Pair(hi, lo) == product
  {
    var s := r1 + r2 % 0x1_0000 * 0x1_0000 + r3 % 0x1_0000 * 0x1_0000;
    var t := r4 + r2 / 0x1_0000 + r3 / 0x1_0000 + (r1 / 0x1_0000 + r2 % 0x1_0000 + r3 % 0x1_0000) / 0x1_0000;
    assert s / TWO32 == (r1 / 0x1_0000 + r2 % 0x1_0000 + r3 % 0x1_0000) / 0x1_0000;
    assert product == t * TWO32 + s % TWO32;
    assert t < TWO32;
  }

  /** hi:lo negated across the pair: the borrow into hi is there unless lo is 0. */
  function NegateHigh(hi: uint, lo: uint): uint {
    Wrap(-(hi as int) - (if lo != 0 then 1 else 0))
  }

  lemma NegatedPair(hi: uint, lo: uint)
    ensures var p := Pair(hi, lo);
            Pair(NegateHigh(hi, lo), Negate(lo)) == if p == 0 then 0 else TWO32 * TWO32 - p
  {
  }

  lemma SignedPairIs(hi: uint, lo: uint)
    ensures SignedPair(hi, lo) == if Msb(hi) then Pair(hi, lo) - TWO32 * TWO32 else Pair(hi, lo)
  {
  }

  /** The product the instruction is meant to form. */
  function Product(signed: bool, src: uint, dst: uint): int {
    if signed then Signed(src) * Signed(dst) else src * dst
  }

  /** Whether the number fits the 32-bit destination. */
  predicate Fits32(signed: bool, x: int) {
    if signed then -TWO31 <= x < TWO31 else 0 <= x < TWO32
  }

  lemma SignedProduct(src: uint, dst: uint)
    ensures Signed(src) * Signed(dst)
            == if Msb(src) != Msb(dst) then -(Magnitude(src) * Magnitude(dst)) else Magnitude(src) * Magnitude(dst)
    ensures Magnitude(src) * Magnitude(dst) <= TWO31 * TWO31
  {
    var a, b := Magnitude(src), Magnitude(dst);
    Monotone(a, TWO31, b);
    Monotone(b, TWO31, TWO31);
  }

  /**
   MULS.L and MULU.L with source operand src. The 64-bit form leaves the exact product in Dh:Dl;
   the 32-bit form leaves its low half in Dl and sets V exactly when that is not the whole product.
   */
  method Mull(cpu: Cpu, word2: Word, src: uint)
    requires cpu.d.Length == 8
    modifies cpu`ccr, cpu.d
    ensures var product := Product(IsSigned(word2), src, old(cpu.d[Low(word2)]));
            && cpu.ccr.x == old(cpu.ccr.x) && !cpu.ccr.c
            && (IsLong64(word2) ==>
                  && (exists hi :: cpu.d[..] == old(cpu.d[..])[High(word2) := hi][Low(word2) := cpu.d[Low(word2)]]
                                   && (if IsSigned(word2) then SignedPair(hi, cpu.d[Low(word2)])
                                       else Pair(hi, cpu.d[Low(word2)])) == product
                                   && cpu.ccr.n == Msb(hi))
                  && cpu.ccr.z == (product == 0) && !cpu.ccr.v)
            && (!IsLong64(word2) ==>
                  && cpu.d[..] == old(cpu.d[..])[Low(word2) := Wrap(product)]
                  && cpu.ccr.n == Msb(cpu.d[Low(word2)]) && cpu.ccr.z == (cpu.d[Low(word2)] == 0)
                  && cpu.ccr.v == !Fits32(IsSigned(word2), product))
  {
    var dst := cpu.d[Low(word2)];
    var hi, lo := MullPair(IsSigned(word2), src, dst);
    cpu.ccr := cpu.ccr.(c := false);
    if IsLong64(word2) {
      cpu.d[High(word2)] := hi;
      cpu.d[Low(word2)] := lo;
      cpu.ccr := cpu.ccr.(n := Msb(hi), z := hi == 0 && lo == 0, v := false);
      return;
    }
    cpu.d[Low(word2)] := lo;
    cpu.ccr := cpu.ccr.(n := Msb(lo), z := lo == 0);
    LowHalf(IsSigned(word2), hi, lo);
    if IsSigned(word2) {
      cpu.ccr := cpu.ccr.(v := !((Msb(lo) && hi == 0xffff_ffff) || (!Msb(lo) && hi == 0)));
    } else {
      cpu.ccr := cpu.ccr.(v := hi != 0);
    }
  }

  lemma LowHalf(signed: bool, hi: uint, lo: uint)
    ensures var product := if signed then SignedPair(hi, lo) else Pair(hi, lo);
            && Wrap(product) == lo
            && (Fits32(signed, product)
                <==> if signed then (Msb(lo) && hi == 0xffff_ffff) || (!Msb(lo) && hi == 0) else hi == 0)
  {
    assert (Signed(hi) * TWO32 + lo) % TWO32 == lo;
  }

  /** m68k_in.c:7388-7416: magnitudes, partial products, and the product negated when the signs differ. */
  method MullPair(signed: bool, src: uint, dst: uint) returns (hi: uint, lo: uint)
    ensures (if signed then SignedPair(hi, lo) else Pair(hi, lo)) == Product(signed, src, dst)
  {
    var neg := Msb(src) != Msb(dst);
    if !signed {
      hi, lo := PartialProducts(src, dst);
      return;
    }
    hi, lo := PartialProducts(Magnitude(src), Magnitude(dst));
    SignedProduct(src, dst);
    if neg {
      NegatedPair(hi, lo);
      hi, lo := NegateHigh(hi, lo), Negate(lo);
    }
    SignedPairIs(hi, lo);
  }

  // ---------------------------------------------------------------- division

  /** (x >> i) & 1 */
  function Bit(x: nat, i: nat): (b: nat)
    ensures b < 2
  {
    x / Pow2(i) % 2
  }

  lemma ShiftIn(x: nat, i: nat)
    ensures x / Pow2(i) == 2 * (x / Pow2(i + 1)) + Bit(x, i)
  {
    var p := Pow2(i);
    HalfOfQuotient(x, p);
  }

  lemma HalfOfQuotient(x: nat, p: nat)
    requires p > 0
    ensures x / p / 2 == x / (2 * p)
  {
    var q, r := x / (2 * p), x % (2 * p);
    assert x == q * (2 * p) + r;
    assert q * (2 * p) == (2 * q) * p;
    assert x == (2 * q) * p + r;
    QuotientIs(x, p, if r < p then 2 * q else 2 * q + 1, if r < p then r else r - p);
  }

  lemma PowIs32()
    ensures Pow2(32) == TWO32
  {
    assert Pow2(8) == 0x100;
    assert Pow2(16) == 0x1_0000;
    assert Pow2(24) == 0x100_0000;
  }

  /** quotient <<= 1 and a bit of the dividend into the remainder, with the subtraction if it goes: m68k_in.c:4690-4700. */
  lemma Step(prefix: nat, bit: nat, divisor: nat, quotient: nat, remainder: nat)
    requires bit < 2 && remainder < divisor && prefix == quotient * divisor + remainder
    ensures var r := 2 * remainder + bit;
            2 * prefix + bit == if r >= divisor then (2 * quotient + 1) * divisor + (r - divisor)
                                else (2 * quotient) * divisor + r
  {
    assert (2 * quotient) * divisor == 2 * (quotient * divisor);
  }

  /** The two shift-subtract loops of m68k_in.c:4680-4700. */
  method ShiftSubtract(hi: uint, lo: uint, divisor: uint) returns (quotient: uint, remainder: uint)
    requires hi < divisor
    ensures Pair(hi, lo) == quotient * divisor + remainder && remainder < divisor
  {
    quotient, remainder := UpperHalf(hi, divisor);
    quotient, remainder := LowerHalf(quotient, remainder, lo, divisor);
  }

  /** The first loop: the upper half is below the divisor, so nothing is ever subtracted. */
  method UpperHalf(hi: uint, divisor: uint) returns (quotient: uint, remainder: uint)
    requires hi < divisor
    ensures quotient == 0 && remainder == hi
  {
    quotient, remainder := 0, 0;
    var i := 31;
    PowIs32();
    while i >= 0
      invariant -1 <= i <= 31
      invariant quotient == 0 && remainder == hi / Pow2(i + 1) <= hi
    {
      ShiftIn(hi, i);
      quotient := Wrap(2 * quotient);
      remainder := Wrap(2 * remainder + Bit(hi, i));
      DivideSmaller(hi, Pow2(i));
      if remainder >= divisor {
        remainder := Wrap(remainder - divisor);
        quotient := Wrap(quotient + 1);
      }
      i := i - 1;
    }
  }

  lemma DivideSmaller(x: nat, p: nat)
    requires p > 0
    ensures 0 <= x / p <= x
  {
    Monotone(1, p, x / p);
  }

  /** The second loop. */
  method LowerHalf(q0: uint, r0: uint, lo: uint, divisor: uint) returns (quotient: uint, remainder: uint)
    requires q0 == 0 && r0 < divisor
    ensures Pair(r0, lo) == quotient * divisor + remainder && remainder < divisor
  {
    hide Wrap, Bit;
    quotient, remainder := q0, r0;
    var i := 31;
    PowIs32();
    ghost var prefix: nat := r0;
    DivideSmall(lo, Pow2(32));
    while i >= 0
      invariant -1 <= i <= 31
      invariant prefix == r0 * Pow2(31 - i) + lo / Pow2(i + 1)
      invariant prefix == quotient * divisor + remainder && remainder < divisor
      invariant quotient < Pow2(31 - i)
    {
      ShiftIn(lo, i);
      PowSmall(31 - i);
      TimesPow(r0, 31 - i);
      quotient, remainder := LowerStep(prefix, quotient, remainder, Bit(lo, i), divisor);
      prefix := 2 * prefix + Bit(lo, i);
      i := i - 1;
    }
    assert lo / Pow2(0) == lo;
  }

  lemma DivideSmall(x: nat, p: nat)
    requires x < p
    ensures x / p == 0
  {
  }

  lemma TimesPow(r: nat, k: nat)
    ensures r * Pow2(k + 1) == 2 * (r * Pow2(k))
  {
  }

  /**
   One turn of the second loop: a remainder whose top bit is about to be shifted out is known to
   exceed the divisor, and the subtraction modulo 2^32 brings it back.
   */
  method LowerStep(ghost prefix: nat, q: uint, r: uint, bit: nat, divisor: uint)
    returns (quotient: uint, remainder: uint)
    requires bit < 2 && r < divisor && q < TWO31 && prefix == q * divisor + r
    ensures 2 * prefix + bit == quotient * divisor + remainder && remainder < divisor
    ensures 2 * q <= quotient <= 2 * q + 1
  {
    Step(prefix, bit, divisor, q, r);
    quotient := Wrap(2 * q);
    var overflow := Msb(r);
    remainder := Wrap(2 * r + bit);
    if remainder >= divisor || overflow {
      remainder := Wrap(remainder - divisor);
      quotient := Wrap(quotient + 1);
    }
  }

  lemma PowSmall(k: nat)
    requires k < 32
    ensures 2 * Pow2(k) <= TWO32
    decreases 32 - k
  {
    PowIs32();
    if k < 31 {
      PowSmall(k + 1);
    }
  }

  /** q and r are the quotient rounded toward zero and the remainder, which takes the dividend's sign. */
  ghost predicate Divides(n: int, d: int, q: int, r: int) {
    n == q * d + r && Abs(r) < Abs(d) && (r == 0 || (r < 0) == (n < 0))
  }

  lemma DividesOfMagnitudes(n: int, d: int, q: int, r: int)
    requires 0 <= q && 0 <= r < Abs(d) && Abs(n) == q * Abs(d) + r
    ensures Divides(n, d, if (n < 0) != (d < 0) then -q else q, if n < 0 then -r else r)
  {
    assert (-q) * d == -(q * d) == q * -d;
  }

  /** Only one quotient and remainder are right. */
  lemma QuotientUnique(n: int, d: int, q: int, r: int)
    requires Divides(n, d, q, r)
    ensures Abs(q) == Abs(n) / Abs(d)
    ensures q == if (n < 0) != (d < 0) then -(Abs(n) / Abs(d)) else Abs(n) / Abs(d)
    ensures Abs(r) == Abs(n) % Abs(d)
  {
    hide Divides;
    SameSign(n, d, q, r);
    QuotientIs(Abs(n), Abs(d), Abs(q), Abs(r));
  }

  lemma AbsProduct(a: int, b: int)
    ensures Abs(a * b) == Abs(a) * Abs(b)
    ensures (a > 0 && b > 0) || (a < 0 && b < 0) ==> a * b > 0
    ensures (a > 0 && b < 0) || (a < 0 && b > 0) ==> a * b < 0
  {
  }

  lemma SameSign(n: int, d: int, q: int, r: int)
    requires Divides(n, d, q, r)
    ensures q > 0 ==> (n < 0) == (d < 0)
    ensures q < 0 ==> (n < 0) != (d < 0)
    ensures Abs(n) == Abs(q) * Abs(d) + Abs(r) && Abs(r) < Abs(d)
  {
    AbsProduct(q, d);
    var p := q * d;
    if q != 0 {
      Monotone(1, Abs(q), Abs(d));
    }
    assert n == p + r && (q != 0 ==> Abs(p) >= Abs(d));
  }

  function Value(signed: bool, x: uint): int { if signed then Signed(x) else x }

  function PairValue(signed: bool, hi: uint, lo: uint): int {
    if signed then SignedPair(hi, lo) else Pair(hi, lo)
  }

  /** The quotients the 64-bit form delivers: m68k_in.c:4648, 4674 and 4704. */
  predicate Delivers(signed: bool, n: int, d: int)
    requires d != 0
  {
    if signed then Abs(n) / Abs(d) <= 0x7fff_ffff || (n == TWO31 && d == -1) else Abs(n) / Abs(d) < TWO32
  }

  lemma QuotientAtLeast(n: nat, d: nat, k: nat)
    requires d > 0 && n >= k * d
    ensures n / d >= k
  {
    Euclid(n, d);
    var q := n / d;
    if q < k {
      Monotone(q + 1, k, d);
    }
  }

  lemma UpperTooLarge(hi: uint, lo: uint, divisor: uint)
    requires hi >= divisor > 0
    ensures Pair(hi, lo) / divisor >= TWO32
  {
    QuotientAtLeast(Pair(hi, lo), divisor, TWO32);
  }

  lemma UpperFits(hi: uint, lo: uint, divisor: uint, q: uint, r: uint)
    requires hi < divisor && Pair(hi, lo) == q * divisor + r && r < divisor
    ensures Pair(hi, lo) / divisor == q
  {
    QuotientIs(Pair(hi, lo), divisor, q, r);
  }

  /** The magnitudes m68k_in.c:4658-4670 hands to the loops. */
  lemma PairMagnitude(hi: uint, lo: uint)
    ensures Abs(SignedPair(hi, lo)) == if Msb(hi) then Pair(NegateHigh(hi, lo), Negate(lo)) else Pair(hi, lo)
  {
    SignedPairIs(hi, lo);
    NegatedPair(hi, lo);
  }

  /** m68k_in.c:4645-4716: the 64-bit by 32-bit division; ok is false where the code sets V and returns. */
  method QuadDivide(signed: bool, hi: uint, lo: uint, divisor: uint) returns (ok: bool, q: uint, r: uint)
    requires divisor != 0
    ensures ok == Delivers(signed, PairValue(signed, hi, lo), Value(signed, divisor))
    ensures ok ==> Divides(PairValue(signed, hi, lo), Value(signed, divisor), Value(signed, q), Value(signed, r))
  {
    if !signed {
      ok, q, r := Unsigned(hi, lo, divisor);
      return;
    }
    hide Wrap, Negate, NegateHigh;
    ghost var n, d := SignedPair(hi, lo), Signed(divisor);
    if hi == 0 && lo == TWO31 && divisor == 0xffff_ffff {
      return true, TWO31, 0;
    }
    var dividendHi, dividendLo := hi, lo;
    PairMagnitude(hi, lo);
    if Msb(hi) {
      dividendHi, dividendLo := NegateHigh(hi, lo), Negate(lo);
    }
    ok, q, r := Unsigned(dividendHi, dividendLo, Magnitude(divisor));
    if !ok || q > 0x7fff_ffff {
      assert n != TWO31 || d != -1;
      return false, 0, 0;
    }
    DividesOfMagnitudes(n, d, q, r);
    q, r := RestoreSigns(Msb(hi), Msb(divisor), q, r);
  }

  method RestoreSigns(dividendNeg: bool, divisorNeg: bool, quotient: uint, remainder: uint)
    returns (q: uint, r: uint)
    requires quotient <= 0x7fff_ffff && remainder <= 0x7fff_ffff
    ensures Signed(q) == if dividendNeg != divisorNeg then -(quotient as int) else quotient
    ensures Signed(r) == if dividendNeg then -(remainder as int) else remainder
  {
    q, r := quotient, remainder;
    if dividendNeg {
      r := Negate(r);
      q := Negate(q);
    }
    if divisorNeg {
      q := Negate(q);
    }
  }

  method Unsigned(hi: uint, lo: uint, divisor: uint) returns (ok: bool, q: uint, r: uint)
    requires divisor != 0
    ensures ok == (Pair(hi, lo) / divisor < TWO32)
    ensures ok ==> q == Pair(hi, lo) / divisor && Pair(hi, lo) == q * divisor + r && r < divisor
  {
    if hi >= divisor {
      UpperTooLarge(hi, lo, divisor);
      return false, 0, 0;
    }
    q, r := ShiftSubtract(hi, lo, divisor);
    UpperFits(hi, lo, divisor, q, r);
    ok := true;
  }

  /** The / and % of C on 32-bit operands. */
  function LongQuotient(signed: bool, n: uint, d: uint): (q: int)
    requires d != 0
  {
    var a, b := Value(signed, n), Value(signed, d);
    if (a < 0) != (b < 0) then -(Abs(a) / Abs(b)) else Abs(a) / Abs(b)
  }

  function LongRemainder(signed: bool, n: uint, d: uint): (r: int)
    requires d != 0
  {
    var a, b := Value(signed, n), Value(signed, d);
    if a < 0 then -(Abs(a) % Abs(b)) else Abs(a) % Abs(b)
  }

  lemma LongDivides(signed: bool, n: uint, d: uint)
    requires d != 0
    ensures Divides(Value(signed, n), Value(signed, d), LongQuotient(signed, n, d), LongRemainder(signed, n, d))
  {
    hide Divides, Value;
    SignKept(signed, d);
    MagnitudesDivide(Value(signed, n), Value(signed, d));
  }

  lemma SignKept(signed: bool, d: uint)
    ensures Value(signed, d) == 0 <==> d == 0
  {
  }

  lemma MagnitudesDivide(a: int, b: int)
    requires b != 0
    ensures Divides(a, b, if (a < 0) != (b < 0) then -(Abs(a) / Abs(b)) else Abs(a) / Abs(b),
                    if a < 0 then -(Abs(a) % Abs(b)) else Abs(a) % Abs(b))
  {
    hide Divides;
    Euclid(Abs(a), Abs(b));
    DividesOfMagnitudes(a, b, Abs(a) / Abs(b), Abs(a) % Abs(b));
  }

  /** What the 64-bit form leaves behind: V and nothing else, or remainder and quotient, the quotient written last. */
  ghost predicate QuadOutcome(word2: Word, divisor: uint, d0: seq<uint>, ccr0: Ccr, d1: seq<uint>, ccr1: Ccr)
    requires |d0| == 8 && divisor != 0
  {
    var signed := IsSigned(word2);
    var n, d := PairValue(signed, d0[High(word2)], d0[Low(word2)]), Value(signed, divisor);
    if Delivers(signed, n, d) then
      exists q: uint, r: uint :: Divides(n, d, Value(signed, q), Value(signed, r))
                                 && d1 == d0[High(word2) := r][Low(word2) := q]
                                 && ccr1 == Ccr(ccr0.x, Msb(q), q == 0, false, false)
    else
      d1 == d0 && ccr1 == ccr0.(v := true)
  }

  /** The same of the 32-bit form; -2^31 / -1 leaves 0 and not the quotient when the two registers are one. */
  ghost predicate LongOutcome(word2: Word, divisor: uint, d0: seq<uint>, ccr0: Ccr, d1: seq<uint>, ccr1: Ccr)
    requires |d0| == 8 && divisor != 0
  {
    var signed := IsSigned(word2);
    var n := d0[Low(word2)];
    var q, r := Wrap(LongQuotient(signed, n, divisor)), Wrap(LongRemainder(signed, n, divisor));
    && ccr1 == Ccr(ccr0.x, Msb(q), q == 0, false, false)
    && d1 == (if signed && n == TWO31 && divisor == 0xffff_ffff
              then d0[Low(word2) := TWO31][High(word2) := 0]
              else d0[High(word2) := r][Low(word2) := q])
  }

  /** DIVS.L and DIVU.L; trap says that m68ki_exception_trap(EXCEPTION_ZERO_DIVIDE) is what the handler calls. */
  method Divl(cpu: Cpu, word2: Word, divisor: uint) returns (trap: bool)
    requires cpu.d.Length == 8
    modifies cpu`ccr, cpu.d
    ensures trap == (divisor == 0)
    ensures trap ==> cpu.d[..] == old(cpu.d[..]) && cpu.ccr == old(cpu.ccr)
    ensures !trap && IsLong64(word2) ==> QuadOutcome(word2, divisor, old(cpu.d[..]), old(cpu.ccr), cpu.d[..], cpu.ccr)
    ensures !trap && !IsLong64(word2) ==> LongOutcome(word2, divisor, old(cpu.d[..]), old(cpu.ccr), cpu.d[..], cpu.ccr)
  {
    hide Divides, LongQuotient, LongRemainder, Delivers, Value, PairValue, Wrap;
    if divisor == 0 {
      return true;
    }
    trap := false;
    var signed := IsSigned(word2);
    var dividend := cpu.d[Low(word2)];
    if IsLong64(word2) {
      var ok, q, r := QuadDivide(signed, cpu.d[High(word2)], dividend, divisor);
      if !ok {
        cpu.ccr := cpu.ccr.(v := true);
        return;
      }
      cpu.d[High(word2)] := r;
      cpu.d[Low(word2)] := q;
      cpu.ccr := Ccr(cpu.ccr.x, Msb(q), q == 0, false, false);
      return;
    }
    if signed && dividend == TWO31 && divisor == 0xffff_ffff {
      MostNegativeByMinusOne();
      cpu.ccr := Ccr(cpu.ccr.x, true, false, false, false);
      cpu.d[Low(word2)] := TWO31;
      cpu.d[High(word2)] := 0;
      return;
    }
    var q := Wrap(LongQuotient(signed, dividend, divisor));
    cpu.d[High(word2)] := Wrap(LongRemainder(signed, dividend, divisor));
    cpu.d[Low(word2)] := q;
    cpu.ccr := Ccr(cpu.ccr.x, Msb(q), q == 0, false, false);
  }

  lemma MostNegativeByMinusOne()
    ensures Wrap(LongQuotient(true, TWO31, 0xffff_ffff)) == TWO31
    ensures Wrap(LongRemainder(true, TWO31, 0xffff_ffff)) == 0
  {
  }

  /**
   The manual sets V when the quotient does not fit its register. The unsigned form does so; the
   signed form also reports a quotient of exactly -2^31, unless the dividend is 2^31.
   */
  lemma OverflowReported(signed: bool, n: int, d: int, q: int, r: int)
    requires Divides(n, d, q, r) && (!signed ==> n >= 0 && d >= 0)
    ensures (Delivers(signed, n, d) <==> Fits32(signed, q))
            <==> !(signed && (n < 0) != (d < 0) && TWO31 * Abs(d) <= Abs(n) < TWO31 * Abs(d) + Abs(d)
                   && !(n == TWO31 && d == -1))
  {
    QuotientUnique(n, d, q, r);
    Euclid(Abs(n), Abs(d));
    if TWO31 * Abs(d) <= Abs(n) < TWO31 * Abs(d) + Abs(d) {
      QuotientIs(Abs(n), Abs(d), TWO31, Abs(n) - TWO31 * Abs(d));
    }
  }

  /** -2^32 / 2 is -2^31, which fits, and is reported as an overflow. */
  lemma OverflowCounterexample()
    ensures Divides(-TWO32, 2, -TWO31, 0) && Fits32(true, -TWO31) && !Delivers(true, -TWO32, 2)
  {
  }

  /** The 32-bit form never sets V: right, and its registers hold the true results, for all but -2^31 / -1. */
  lemma LongQuotientFits(signed: bool, n: uint, d: uint)
    requires d != 0
    ensures Fits32(signed, LongQuotient(signed, n, d)) <==> !(signed && n == TWO31 && d == 0xffff_ffff)
    ensures Fits32(signed, LongQuotient(signed, n, d))
            ==> Divides(Value(signed, n), Value(signed, d),
                        Value(signed, Wrap(LongQuotient(signed, n, d))),
                        Value(signed, Wrap(LongRemainder(signed, n, d))))
  {
    hide Divides, LongQuotient, LongRemainder, Value, Wrap, Fits32;
    LongDivides(signed, n, d);
    LongRange(signed, n, d);
    ValueOfWrap(signed, LongQuotient(signed, n, d));
    ValueOfWrap(signed, LongRemainder(signed, n, d));
  }

  lemma LongRange(signed: bool, n: uint, d: uint)
    requires d != 0
    ensures Fits32(signed, LongQuotient(signed, n, d)) <==> !(signed && n == TWO31 && d == 0xffff_ffff)
    ensures Fits32(signed, LongRemainder(signed, n, d))
  {
    hide Wrap;
    var a, b := Value(signed, n), Value(signed, d);
    LongBounds(Abs(a), Abs(b));
    if Abs(b) == 1 {
      Euclid(Abs(a), 1);
    }
  }

  lemma ValueOfWrap(signed: bool, x: int)
    ensures Fits32(signed, x) ==> Value(signed, Wrap(x)) == x
  {
  }

  lemma LongBounds(a: nat, b: nat)
    requires b > 0
    ensures a / b <= a && a % b <= a && (b > 1 ==> 2 * (a / b) <= a)
  {
    Euclid(a, b);
    Monotone(1, b, a / b);
    if b > 1 {
      Monotone(2, b, a / b);
    }
  }
}
