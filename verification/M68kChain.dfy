/** musashi/m68k_in.c: the predecrement memory forms of ADDX, SUBX, ABCD and SBCD, and chains of them. */
module M68kChain {
  import opened Arithmetic
  import opened M68k
  import opened M68kMemory

  datatype Op = Addx | Subx | Abcd | Sbcd

  predicate IsDecimal(op: Op) { op == Abcd || op == Sbcd }

  predicate IsSum(op: Op) { op == Addx || op == Abcd }

  /** The byte handlers of these names; A7 has handlers of its own, which step by two. */
  predicate HasRegisters(w: nat, y: nat, x: nat) { y < 8 && x < 8 && (w == 1 ==> y != 7 && x != 7) }

  /** The operand sizes: the decimal instructions have bytes only. */
  predicate HasSize(op: Op, w: nat) { w == 1 || (!IsDecimal(op) && (w == 2 || w == 4)) }

  /** m68ki_check_address_error: words and longs must lie at even addresses. */
  predicate Misaligned(addr: uint, w: nat) { w != 1 && addr % 2 == 1 }

  // ---------------------------------------------------------------- one limb

  predicate Top(w: nat, v: nat) { v / TopBit(w) % 2 == 1 }

  /** What an instruction computes from its operands: the limb it writes and the flags. */
  datatype Limb = Limb(value: nat, c: bool, n: bool, v: bool)

  function Num(x: bool): nat { if x then 1 else 0 }

  /** m68k_in.c:1579-1627, with CFLAG_8, CFLAG_16, CFLAG_ADD_32 and VFLAG_ADD. */
  function AddLimb(w: nat, src: uint, dst: uint, x: bool): Limb {
    var res := Wrap(src + dst + Num(x));
    var carry := if w == 4 then (Top(4, src) && Top(4, dst)) || (!Top(4, res) && (Top(4, src) || Top(4, dst)))
                 else res / (2 * TopBit(w)) % 2 == 1;
    Limb(res % (2 * TopBit(w)), carry, Top(w, res),
         Top(w, src) != Top(w, res) && Top(w, dst) != Top(w, res))
  }

  /** m68k_in.c:9807-9855, with CFLAG_8, CFLAG_16, CFLAG_SUB_32 and VFLAG_SUB. */
  function SubLimb(w: nat, src: uint, dst: uint, x: bool): Limb {
    var res := Wrap(dst - src - Num(x));
    var carry := if w == 4 then (Top(4, src) && Top(4, res)) || (!Top(4, dst) && (Top(4, src) || Top(4, res)))
                 else res / (2 * TopBit(w)) % 2 == 1;
    Limb(res % (2 * TopBit(w)), carry, Top(w, res),
         Top(w, src) != Top(w, dst) && Top(w, res) != Top(w, dst))
  }

  function LowNibble(v: uint): (r: nat)
    ensures r < 16
  {
    v % 16
  }

  function HighNibble(v: uint): (r: nat)
    ensures r <= 0xf0
  {
    v / 16 % 16 * 16
  }

  /** The byte left after the carry of the high digits is taken off: m68k_in.c:1020-1029. */
  function TakeCarry(res: uint): nat { Wrap(if res > 0x99 then res - 0xa0 else res) % 0x100 }

  /** m68k_in.c:9190-9193 */
  function AddBorrow(res: uint): nat { Wrap(if res > 0x99 then res + 0xa0 else res) % 0x100 }

  /** m68k_in.c:1010-1033 */
  function AddDecimal(src: uint, dst: uint, x: bool): Limb {
    var low := LowNibble(src) + LowNibble(dst) + Num(x);
    var res := (if low > 9 then low + 6 else low) + HighNibble(src) + HighNibble(dst);
    Limb(TakeCarry(res), res > 0x99, Top(1, TakeCarry(res)), !Top(1, low) && Top(1, TakeCarry(res)))
  }

  /** m68k_in.c:9179-9202 */
  function SubDecimal(src: uint, dst: uint, x: bool): Limb {
    var low := Wrap(LowNibble(dst) - LowNibble(src) - Num(x));
    var res := Wrap((if low > 9 then low - 6 else low) + HighNibble(dst) - HighNibble(src));
    Limb(AddBorrow(res), res > 0x99, Top(1, AddBorrow(res)), !Top(1, low) && Top(1, AddBorrow(res)))
  }

  function Combine(op: Op, w: nat, src: uint, dst: uint, x: bool): Limb {
    match op
    case Addx => AddLimb(w, src, dst, x)
    case Subx => SubLimb(w, src, dst, x)
    case Abcd => AddDecimal(src, dst, x)
    case Sbcd => SubDecimal(src, dst, x)
  }

  // ---------------------------------------------------------------- limbs are exact

  /** result is first +- second +- x0, with a carry or borrow x1 worth p. */
  ghost predicate Balance(op: Op, first: nat, second: nat, result: nat, x0: bool, x1: bool, p: nat) {
    && result < p
    && if IsSum(op) then result + Num(x1) * p == first + second + Num(x0)
       else result + second + Num(x0) == first + Num(x1) * p
  }

  /** TopBit(w) and the bit above it, of numbers small enough to have no others. */
  lemma BitsAre(w: nat, v: nat)
    requires v < 4 * TopBit(w)
    ensures v < 2 * TopBit(w) ==> (Top(w, v) <==> v >= TopBit(w)) && v % (2 * TopBit(w)) == v
    ensures v >= 2 * TopBit(w) ==> (Top(w, v) <==> v >= 3 * TopBit(w)) && v % (2 * TopBit(w)) == v - 2 * TopBit(w)
    ensures v / (2 * TopBit(w)) % 2 == 1 <==> v >= 2 * TopBit(w)
  {
  }

  /** The bits of the difference of two limbs, wrapped to 32 bits when it is negative. */
  lemma BorrowedBits(w: nat, diff: int)
    requires (w == 1 || w == 2) && -2 * TopBit(w) <= diff < 2 * TopBit(w)
    ensures var r := if diff < 0 then diff + 2 * TopBit(w) else diff;
            && Wrap(diff) % (2 * TopBit(w)) == r && (Top(w, Wrap(diff)) <==> r >= TopBit(w))
    ensures Wrap(diff) / (2 * TopBit(w)) % 2 == 1 <==> diff < 0
  {
    hide Wrap;
    if diff < 0 {
      BorrowedTop(Wrap(diff), TopBit(w), TWO32 / (2 * TopBit(w)), diff);
    } else {
      BitsAre(w, diff);
    }
  }

  lemma BorrowedTop(v: nat, t: nat, k: nat, diff: int)
    requires t > 0 && k > 0 && k % 2 == 0 && -2 * t <= diff < 0 && v == k * (2 * t) + diff
    ensures v % (2 * t) == diff + 2 * t && v / (2 * t) % 2 == 1
    ensures v / t % 2 == 1 <==> diff + 2 * t >= t
  {
    QuotientIs(v, 2 * t, k - 1, diff + 2 * t);
    if diff + 2 * t >= t {
      QuotientIs(v, t, 2 * k - 1, diff + t);
    } else {
      QuotientIs(v, t, 2 * k - 2, diff + 2 * t);
    }
  }

  lemma AddLimbExact(w: nat, src: uint, dst: uint, x: bool)
    requires HasSize(Addx, w) && src < 2 * TopBit(w) && dst < 2 * TopBit(w)
    ensures var limb := AddLimb(w, src, dst, x);
            Balance(Addx, dst, src, limb.value, x, limb.c, 2 * TopBit(w)) && limb.n == Top(w, limb.value)
            && limb.v == (Top(w, src) != Top(w, limb.value) && Top(w, dst) != Top(w, limb.value))
  {
    hide AddLimb, Balance, Top;
    if w == 4 {
      AddLongExact(src, dst, x);
    } else {
      AddShortExact(w, src, dst, x);
    }
  }

  lemma AddLongExact(src: uint, dst: uint, x: bool)
    ensures var limb := AddLimb(4, src, dst, x);
            Balance(Addx, dst, src, limb.value, x, limb.c, TWO32) && limb.n == Top(4, limb.value)
            && limb.v == (Top(4, src) != Top(4, limb.value) && Top(4, dst) != Top(4, limb.value))
  {
    hide Top;
    BitsAre(4, src);
    BitsAre(4, dst);
    BitsAre(4, Wrap(src + dst + Num(x)));
  }

  lemma AddShortExact(w: nat, src: uint, dst: uint, x: bool)
    requires (w == 1 || w == 2) && src < 2 * TopBit(w) && dst < 2 * TopBit(w)
    ensures var limb := AddLimb(w, src, dst, x);
            Balance(Addx, dst, src, limb.value, x, limb.c, 2 * TopBit(w)) && limb.n == Top(w, limb.value)
            && limb.v == (Top(w, src) != Top(w, limb.value) && Top(w, dst) != Top(w, limb.value))
  {
    hide Top;
    var res := src + dst + Num(x);
    BitsAre(w, res);
    BitsAre(w, res % (2 * TopBit(w)));
  }

  lemma SubLimbExact(w: nat, src: uint, dst: uint, x: bool)
    requires HasSize(Subx, w) && src < 2 * TopBit(w) && dst < 2 * TopBit(w)
    ensures var limb := SubLimb(w, src, dst, x);
            Balance(Subx, dst, src, limb.value, x, limb.c, 2 * TopBit(w)) && limb.n == Top(w, limb.value)
            && limb.v == (Top(w, src) != Top(w, dst) && Top(w, limb.value) != Top(w, dst))
  {
    hide SubLimb, Balance, Top;
    if w == 4 {
      SubLongExact(src, dst, x);
    } else {
      SubShortExact(w, src, dst, x);
    }
  }

  lemma SubLongExact(src: uint, dst: uint, x: bool)
    ensures var limb := SubLimb(4, src, dst, x);
            Balance(Subx, dst, src, limb.value, x, limb.c, TWO32) && limb.n == Top(4, limb.value)
            && limb.v == (Top(4, src) != Top(4, dst) && Top(4, limb.value) != Top(4, dst))
  {
    hide Top, Wrap;
    BitsAre(4, src);
    BitsAre(4, dst);
    BitsAre(4, Wrap(dst - src - Num(x)));
  }

  lemma SubShortExact(w: nat, src: uint, dst: uint, x: bool)
    requires (w == 1 || w == 2) && src < 2 * TopBit(w) && dst < 2 * TopBit(w)
    ensures var limb := SubLimb(w, src, dst, x);
            Balance(Subx, dst, src, limb.value, x, limb.c, 2 * TopBit(w)) && limb.n == Top(w, limb.value)
            && limb.v == (Top(w, src) != Top(w, dst) && Top(w, limb.value) != Top(w, dst))
  {
    hide Top, Wrap;
    var diff := dst - src - Num(x);
    BorrowedBits(w, diff);
    BitsAre(w, Wrap(diff) % (2 * TopBit(w)));
  }

  lemma Nibbles(v: int, high: nat, low: nat)
    requires v == high * 16 + low && low < 16
    ensures v / 16 == high && v % 16 == low
  {
    QuotientIs(v, 16, high, low);
  }

  lemma NibblesOf(b: byte)
    ensures LowNibble(b) == b % 16 && HighNibble(b) == 16 * (b / 16) && b == 16 * (b / 16) + b % 16
  {
  }

  /** On any bytes, digits or not: nibble sums above 9 get 6 more, and from 0x9a on there is a carry that takes 0xa0. */
  lemma AddAnyDigits(src: byte, dst: byte, x: bool)
    ensures var low, limb := src % 16 + dst % 16 + Num(x), AddDecimal(src, dst, x);
            var sum := (if low >= 10 then low + 6 else low) + 16 * (src / 16 + dst / 16);
            limb.c == (sum >= 0x9a) && limb.value == (if limb.c then sum - 0xa0 else sum) % 0x100
  {
    hide LowNibble, HighNibble, Top;
    NibblesOf(src);
    NibblesOf(dst);
  }

  /** Nibble differences that are negative or above 9 get 6 less, and a difference outside 0..0x99 borrows 0xa0. */
  lemma SubAnyDigits(src: byte, dst: byte, x: bool)
    ensures var low, limb := dst % 16 - src % 16 - Num(x), SubDecimal(src, dst, x);
            var diff := (if low < 0 || low >= 10 then low - 6 else low) + 16 * (dst / 16 - src / 16);
            limb.c == (diff < 0 || diff >= 0x9a) && limb.value == (if limb.c then diff + 0xa0 else diff) % 0x100
  {
    hide LowNibble, HighNibble, Top, Wrap, AddBorrow;
    NibblesOf(src);
    NibblesOf(dst);
    AnyDifference(dst % 16 - src % 16 - Num(x), dst / 16 - src / 16);
  }

  lemma AnyDifference(low: int, high: int)
    requires -16 <= low < 16 && -15 <= high <= 15
    ensures var diff := (if low < 0 || low >= 10 then low - 6 else low) + 16 * high;
            var res := Wrap((if Wrap(low) > 9 then Wrap(low) - 6 else Wrap(low)) + 16 * high);
            && (res > 0x99 <==> diff < 0 || diff >= 0x9a)
            && AddBorrow(res) == (if diff < 0 || diff >= 0x9a then diff + 0xa0 else diff) % 0x100
  {
    hide AddBorrow;
    var lowered := if low < 0 || low >= 10 then low - 6 else low;
    var diff := lowered + 16 * high;
    LowWraps(low, high);
    BorrowAdded(diff);
  }

  lemma LowWraps(low: int, high: int)
    requires -16 <= low < 16 && -15 <= high <= 15
    ensures var lowered := if low < 0 || low >= 10 then low - 6 else low;
            Wrap((if Wrap(low) > 9 then Wrap(low) - 6 else Wrap(low)) + 16 * high) == Wrap(lowered + 16 * high)
  {
    if low < 0 {
      assert Wrap(low) == low + TWO32;
    }
  }

  lemma BorrowAdded(diff: int)
    requires -0x200 <= diff < 0x200
    ensures Wrap(diff) > 0x99 <==> diff < 0 || diff >= 0x9a
    ensures AddBorrow(Wrap(diff)) == (if diff < 0 || diff >= 0x9a then diff + 0xa0 else diff) % 0x100
  {
  }

  /** N is the top bit of the result; V tells that it came up from a low digit that did not borrow. */
  lemma DecimalFlags(src: byte, dst: byte, x: bool)
    ensures var limb := AddDecimal(src, dst, x);
            limb.n == (limb.value / 0x80 % 2 == 1) && limb.v == limb.n
    ensures var limb := SubDecimal(src, dst, x);
            limb.n == (limb.value / 0x80 % 2 == 1) && limb.v == (limb.n && dst % 16 >= src % 16 + Num(x))
  {
    hide TakeCarry, AddBorrow, HighNibble;
    var low := LowNibble(dst) - LowNibble(src) - Num(x);
    Wrapped(low);
  }

  lemma Wrapped(low: int)
    requires -16 <= low < 16
    ensures Top(1, Wrap(low)) == (low < 0)
  {
  }

  lemma AddDecimalExact(src: byte, dst: byte, x: bool)
    requires IsDigit(true, src) && IsDigit(true, dst)
    ensures var limb := AddDecimal(src, dst, x);
            limb.value < 256 && IsDigit(true, limb.value)
            && Balance(Abcd, Digit(true, dst), Digit(true, src), Digit(true, limb.value), x, limb.c, 100)
  {
    hide Top, LowNibble, HighNibble, TakeCarry;
    NibblesOf(src);
    NibblesOf(dst);
    AddNibbles(src / 16, src % 16, dst / 16, dst % 16, Num(x));
  }

  /** The decimal adjustment on nibbles: the sum of the low digits carries into the high ones. */
  lemma AddNibbles(sh: nat, sl: nat, dh: nat, dl: nat, x: nat)
    requires sh < 10 && sl < 10 && dh < 10 && dl < 10 && x < 2
    ensures var low := sl + dl + x;
            var res := (if low > 9 then low + 6 else low) + 16 * sh + 16 * dh;
            var value := TakeCarry(res);
            && value < 0x9a && value / 16 < 10 && value % 16 < 10
            && value / 16 * 10 + value % 16 + (if res > 0x99 then 100 else 0) == sh * 10 + sl + dh * 10 + dl + x
  {
    hide TakeCarry;
    var low := sl + dl + x;
    var lowDigit := if low > 9 then low - 10 else low;
    var high := sh + dh + (if low > 9 then 1 else 0);
    CarryTaken(16 * high + lowDigit);
    Nibbles(16 * (if high > 9 then high - 10 else high) + lowDigit, if high > 9 then high - 10 else high, lowDigit);
  }

  lemma CarryTaken(res: nat)
    requires res < 0x9a || 0xa0 <= res < 0x140
    ensures TakeCarry(res) == if res > 0x99 then res - 0xa0 else res
  {
  }

  lemma SubDecimalExact(src: byte, dst: byte, x: bool)
    requires IsDigit(true, src) && IsDigit(true, dst)
    ensures var limb := SubDecimal(src, dst, x);
            limb.value < 256 && IsDigit(true, limb.value)
            && Balance(Sbcd, Digit(true, dst), Digit(true, src), Digit(true, limb.value), x, limb.c, 100)
  {
    hide SubDecimal;
    NibblesOf(src);
    NibblesOf(dst);
    SubDigits(src, dst, x, src / 16, src % 16, dst / 16, dst % 16);
  }

  lemma SubDigits(src: byte, dst: byte, x: bool, sh: nat, sl: nat, dh: nat, dl: nat)
    requires sh < 10 && sl < 10 && dh < 10 && dl < 10
    requires LowNibble(src) == sl && HighNibble(src) == 16 * sh && LowNibble(dst) == dl && HighNibble(dst) == 16 * dh
    ensures var limb := SubDecimal(src, dst, x);
            && limb.value < 0x9a && limb.value / 16 < 10 && limb.value % 16 < 10
            && limb.value / 16 * 10 + limb.value % 16 + sh * 10 + sl + Num(x)
               == dh * 10 + dl + (if limb.c then 100 else 0)
  {
    hide Wrap, Top, LowNibble, HighNibble, AddBorrow;
    SubNibbles(sh, sl, dh, dl, Num(x));
  }

  /** The same for a borrow: a negative number of type uint is above 9 and above 0x99. */
  lemma SubNibbles(sh: nat, sl: nat, dh: nat, dl: nat, x: nat)
    requires sh < 10 && sl < 10 && dh < 10 && dl < 10 && x < 2
    ensures var low := Wrap(dl - sl - x);
            var res := Wrap((if low > 9 then low - 6 else low) + 16 * dh - 16 * sh);
            var value := AddBorrow(res);
            && value < 0x9a && value / 16 < 10 && value % 16 < 10
            && value / 16 * 10 + value % 16 + sh * 10 + sl + x == dh * 10 + dl + (if res > 0x99 then 100 else 0)
  {
    var low := dl - sl - x;
    SubWraps(low, dh - sh);
    var lowDigit := if low < 0 then low + 10 else low;
    var high := dh - sh - (if low < 0 then 1 else 0);
    Nibbles(16 * (if high < 0 then high + 10 else high) + lowDigit, if high < 0 then high + 10 else high, lowDigit);
  }

  lemma SubWraps(low: int, high: int)
    requires -10 <= low <= 9 && -9 <= high <= 9
    ensures var diff := (if low < 0 then low - 6 else low) + 16 * high;
            var res := Wrap((if Wrap(low) > 9 then Wrap(low) - 6 else Wrap(low)) + 16 * high);
            && (res > 0x99 <==> diff < 0)
            && AddBorrow(res) == if diff < 0 then diff + 0xa0 else diff
  {
  }

  /** One instruction on the limbs at ya and xa. */
  lemma LimbExact(op: Op, w: nat, mem: seq<byte>, ya: nat, xa: nat, x: bool, src: uint, dst: uint)
    requires HasSize(op, w) && |mem| == SPACE && ya + w <= SPACE && xa + w <= SPACE
    requires src == Fetch(mem, ya, w) && dst == Fetch(mem, xa, w)
    requires Digits(IsDecimal(op), mem, ya, w) && Digits(IsDecimal(op), mem, xa, w)
    ensures var limb := Combine(op, w, src, dst, x);
            var after := Store(mem, xa, w, limb.value);
            var dec := IsDecimal(op);
            && Balance(op, Number(dec, mem, xa, w), Number(dec, mem, ya, w), Number(dec, after, xa, w), x, limb.c,
                       Pow(Radix(dec), w))
            && Digits(dec, after, xa, w)
            && (limb.value == 0 <==> Number(dec, after, xa, w) == 0)
  {
    Widths();
    FetchIsNumber(mem, ya, w);
    FetchIsNumber(mem, xa, w);
    NumberBound(false, mem, ya, w);
    NumberBound(false, mem, xa, w);
    var limb := Combine(op, w, src, dst, x);
    if !IsDecimal(op) {
      BinaryLimb(op, w, src, dst, x);
      FetchStored(mem, xa, w, limb.value);
    } else {
      DecimalLimb(op, mem, ya, xa, x, src, dst);
    }
  }

  lemma BinaryLimb(op: Op, w: nat, src: uint, dst: uint, x: bool)
    requires HasSize(op, w) && !IsDecimal(op) && src < 2 * TopBit(w) && dst < 2 * TopBit(w)
    ensures var limb := Combine(op, w, src, dst, x); Balance(op, dst, src, limb.value, x, limb.c, 2 * TopBit(w))
  {
    if op == Addx {
      AddLimbExact(w, src, dst, x);
    } else {
      SubLimbExact(w, src, dst, x);
    }
  }

  lemma DecimalLimb(op: Op, mem: seq<byte>, ya: nat, xa: nat, x: bool, src: uint, dst: uint)
    requires IsDecimal(op) && |mem| == SPACE && ya < SPACE && xa < SPACE
    requires src == At(mem, ya) && dst == At(mem, xa) && IsDigit(true, src) && IsDigit(true, dst)
    ensures var limb := Combine(op, 1, src, dst, x);
            var after := Store(mem, xa, 1, limb.value);
            && Balance(op, Number(true, mem, xa, 1), Number(true, mem, ya, 1), Number(true, after, xa, 1), x, limb.c,
                       Pow(100, 1))
            && Digits(true, after, xa, 1)
            && (limb.value == 0 <==> Number(true, after, xa, 1) == 0)
  {
    hide AddDecimal, SubDecimal, Balance, IsDigit, Digit, At;
    if op == Abcd {
      AddDecimalExact(src, dst, x);
    } else {
      SubDecimalExact(src, dst, x);
    }
    var limb := Combine(op, 1, src, dst, x);
    OneByte(mem, xa, limb.value);
    assert Pow(100, 0) == 1;
    assert Number(true, mem, xa, 0) == 0 && Number(true, mem, ya, 0) == 0;
    assert Number(true, Store(mem, xa, 1, limb.value), xa, 0) == 0;
    ZeroDigit(limb.value);
  }

  lemma ZeroDigit(b: byte)
    ensures Digit(true, b) == 0 <==> b == 0
  {
  }

  // ---------------------------------------------------------------- the instructions and chains of them

  /** What the memory forms read and write. */
  datatype Data = Data(a: seq<uint>, mem: seq<byte>, ccr: Ccr) {
    predicate Valid() { |a| == 8 && |mem| == SPACE }
  }

  function Lower(a: seq<uint>, y: nat, ya: uint, x: nat, xa: uint): (r: seq<uint>)
    requires |a| == 8 && y < 8 && x < 8
    ensures |r| == 8 && r[x] == xa && (x != y ==> r[y] == ya)
  {
    a[y := ya][x := xa]
  }

  lemma LowerTwice(a: seq<uint>, y: nat, y1: uint, y2: uint, x: nat, x1: uint, x2: uint)
    requires |a| == 8 && y < 8 && x < 8
    ensures Lower(Lower(a, y, y1, x, x1), y, y2, x, x2) == Lower(a, y, y2, x, x2)
  {
  }

  /** -(Ay),-(Ax): both registers go down, the limb at Ay is combined into the one at Ax. */
  function Step(op: Op, w: nat, y: nat, x: nat, st: Data): (r: Data)
    requires st.Valid() && y < 8 && x < 8 && w <= 4
    ensures r.Valid()
  {
    var ya := Wrap(st.a[y] - w);
    var xa := Wrap((if x == y then ya else st.a[x]) - w);
    var limb := Combine(op, w, Wrap(Fetch(st.mem, ya, w)), Wrap(Fetch(st.mem, xa, w)), st.ccr.x);
    Data(Lower(st.a, y, ya, x, xa), Store(st.mem, xa, w, limb.value),
         Ccr(limb.c, limb.n, st.ccr.z && limb.value == 0, limb.v, limb.c))
  }

  function Chain(op: Op, w: nat, y: nat, x: nat, n: nat, st: Data): (r: Data)
    requires st.Valid() && y < 8 && x < 8 && w <= 4
    ensures r.Valid()
  {
    if n == 0 then st else Step(op, w, y, x, Chain(op, w, y, x, n - 1, st))
  }

  /** n limbs below Ay and n below Ax that do not overlap, aligned, and decimal digits where they must be. */
  ghost predicate Operands(op: Op, w: nat, y: nat, x: nat, n: nat, st: Data)
    requires st.Valid() && y < 8 && x < 8
  {
    && HasSize(op, w) && y != x && (w == 1 ==> y != 7 && x != 7)
    && (w == 1 || (st.a[y] % 2 == 0 && st.a[x] % 2 == 0))
    && n * w <= st.a[y] <= SPACE && n * w <= st.a[x] <= SPACE
    && (st.a[y] <= st.a[x] - n * w || st.a[x] <= st.a[y] - n * w)
    && Digits(IsDecimal(op), st.mem, st.a[y] - n * w, n * w)
    && Digits(IsDecimal(op), st.mem, st.a[x] - n * w, n * w)
  }

  /** after holds below ax the sum or difference of what mem holds below ax and ay, and is mem elsewhere. */
  ghost predicate Combined(op: Op, mem: seq<byte>, after: seq<byte>, ay: int, ax: int, len: nat, x0: bool, x1: bool)
    requires |mem| == SPACE && |after| == SPACE
  {
    var dec := IsDecimal(op);
    && Balance(op, Number(dec, mem, ax - len, len), Number(dec, mem, ay - len, len),
               Number(dec, after, ax - len, len), x0, x1, Pow(Radix(dec), len))
    && Digits(dec, after, ax - len, len)
    && forall i :: 0 <= i < SPACE && !(ax - len <= i < ax) ==> At(after, i) == At(mem, i)
  }

  /** What n steps leave. */
  ghost predicate Chained(op: Op, w: nat, y: nat, x: nat, n: nat, st: Data, r: Data)
    requires st.Valid() && r.Valid() && y < 8 && x < 8
  {
    var len, ay, ax := n * w, st.a[y], st.a[x];
    && Combined(op, st.mem, r.mem, ay, ax, len, st.ccr.x, r.ccr.x)
    && r.ccr.z == (st.ccr.z && Number(IsDecimal(op), r.mem, ax - len, len) == 0)
    && (n > 0 ==> r.ccr.c == r.ccr.x)
    && r.a == Lower(st.a, y, Wrap(ay - len), x, Wrap(ax - len))
  }

  /**
   For any number of limbs, n steps leave in Ax's operand the whole sum or difference with the X the
   chain started from; X and C are its carry or borrow, Z survives exactly when it is zero, and
   nothing else in memory changes.
   */
  lemma {:induction false} ChainExact(op: Op, w: nat, y: nat, x: nat, n: nat, st: Data)
    requires st.Valid() && y < 8 && x < 8 && w <= 4 && Operands(op, w, y, x, n, st)
    ensures Chained(op, w, y, x, n, st, Chain(op, w, y, x, n, st))
  {
    hide Operands, Chained, Step;
    if n == 0 {
      NothingChained(op, w, y, x, st);
    } else {
      OperandsBefore(op, w, y, x, n, st);
      ChainExact(op, w, y, x, n - 1, st);
      StepExtends(op, w, y, x, n, st, Chain(op, w, y, x, n - 1, st));
    }
  }

  lemma NothingChained(op: Op, w: nat, y: nat, x: nat, st: Data)
    requires st.Valid() && y < 8 && x < 8 && w <= 4
    ensures Chained(op, w, y, x, 0, st, st)
  {
    assert st.a == Lower(st.a, y, st.a[y], x, st.a[x]);
  }

  lemma OperandsBefore(op: Op, w: nat, y: nat, x: nat, n: nat, st: Data)
    requires st.Valid() && y < 8 && x < 8 && n > 0 && Operands(op, w, y, x, n, st)
    ensures Operands(op, w, y, x, n - 1, st)
  {
    assert (n - 1) * w == n * w - w;
  }

  /** A limb above lower limbs: the carry of the lower ones is the one the upper starts from. */
  lemma BalanceJoins(op: Op, a: nat, b: nat, r: nat, lowA: nat, lowB: nat, lowR: nat,
                     x0: bool, xm: bool, x1: bool, pw: nat, pl: nat)
    requires Balance(op, a, b, r, xm, x1, pw) && Balance(op, lowA, lowB, lowR, x0, xm, pl)
    ensures Balance(op, a * pl + lowA, b * pl + lowB, r * pl + lowR, x0, x1, pw * pl)
    ensures r * pl + lowR == 0 <==> r == 0 && lowR == 0
  {
    DigitStep(r, pw, lowR, pl);
    if r > 0 {
      Monotone(1, r, pl);
    }
    hide Num;
    if IsSum(op) {
      Scale(r, Num(x1), pw, a, b, Num(xm), pl);
    } else {
      Scale(a, Num(x1), pw, r, b, Num(xm), pl);
    }
  }

  lemma Scale(r: nat, c: nat, pw: nat, a: nat, b: nat, x: nat, pl: nat)
    requires r + c * pw == a + b + x
    ensures r * pl + c * (pw * pl) == a * pl + b * pl + x * pl
  {
    Distribute(c, pw, r, pl);
    Spread(a, b, x, pl);
  }

  lemma Spread(a: nat, b: nat, x: nat, p: nat)
    ensures (a + b + x) * p == a * p + b * p + x * p
  {
  }

  /** The n-th instruction, on memory alone: low is the length of the limbs already done. */
  lemma LimbExtends(op: Op, w: nat, ay: nat, ax: nat, low: nat, mem: seq<byte>, mid: seq<byte>,
                    x0: bool, xm: bool, src: uint, dst: uint)
    requires HasSize(op, w) && |mem| == SPACE && |mid| == SPACE
    requires low + w <= ay <= SPACE && low + w <= ax <= SPACE && (ay <= ax - low - w || ax <= ay - low - w)
    requires Digits(IsDecimal(op), mem, ay - low - w, low + w) && Digits(IsDecimal(op), mem, ax - low - w, low + w)
    requires Combined(op, mem, mid, ay, ax, low, x0, xm)
    requires src == Fetch(mid, ay - low - w, w) && dst == Fetch(mid, ax - low - w, w)
    ensures var limb := Combine(op, w, src, dst, xm);
            var after := Store(mid, ax - low - w, w, limb.value);
            && Combined(op, mem, after, ay, ax, low + w, x0, limb.c)
            && (Number(IsDecimal(op), after, ax - low - w, low + w) == 0 <==>
                  limb.value == 0 && Number(IsDecimal(op), mid, ax - low, low) == 0)
  {
    hide Balance, Combine, Number, Fetch, At, IsDigit, Store, Pow;
    var dec, ya, xa := IsDecimal(op), ay - low - w, ax - low - w;
    var limb := Combine(op, w, src, dst, xm);
    var after := Store(mid, xa, w, limb.value);
    LimbExact(op, w, mid, ya, xa, xm, src, dst);
    SameNumber(dec, mem, mid, ya, w);
    SameNumber(dec, mem, mid, xa, w);
    forall i | 0 <= i < SPACE && !(xa <= i < xa + w) ensures At(after, i) == At(mid, i) {
      StoreFrame(mid, xa, w, limb.value, i);
    }
    SameNumber(dec, mid, after, ax - low, low);
    Concat(dec, mem, ya, w, low);
    Concat(dec, mem, xa, w, low);
    Concat(dec, after, xa, w, low);
    PowAdds(Radix(dec), w, low);
    BalanceJoins(op, Number(dec, mem, xa, w), Number(dec, mem, ya, w), Number(dec, after, xa, w),
                 Number(dec, mem, ax - low, low), Number(dec, mem, ay - low, low), Number(dec, mid, ax - low, low),
                 x0, xm, limb.c, Pow(Radix(dec), w), Pow(Radix(dec), low));
  }

  lemma StepExtends(op: Op, w: nat, y: nat, x: nat, n: nat, st: Data, mid: Data)
    requires st.Valid() && mid.Valid() && y < 8 && x < 8 && w <= 4 && n > 0 && Operands(op, w, y, x, n, st)
    requires Chained(op, w, y, x, n - 1, st, mid)
    ensures Chained(op, w, y, x, n, st, Step(op, w, y, x, mid))
  {
    hide Operands, Combined, Combine, Number, Digits, Fetch, Store, Step, Wrap, Lower;
    var low := (n - 1) * w;
    Places(op, w, y, x, n, st);
    WrapSmall(st.a[y] - low);
    WrapSmall(st.a[y] - low - w);
    WrapSmall(st.a[x] - low);
    WrapSmall(st.a[x] - low - w);
    var ay, ax := st.a[y], st.a[x];
    StepAt(op, w, y, x, mid, ay - low - w, ax - low - w);
    LimbExtends(op, w, ay, ax, low, st.mem, mid.mem, st.ccr.x, mid.ccr.x,
                Fetch(mid.mem, ay - low - w, w), Fetch(mid.mem, ax - low - w, w));
    LowerTwice(st.a, y, ay - low, ay - low - w, x, ax - low, ax - low - w);
  }

  /** Where the operands are, the last limb apart. */
  lemma Places(op: Op, w: nat, y: nat, x: nat, n: nat, st: Data)
    requires st.Valid() && y < 8 && x < 8 && n > 0 && Operands(op, w, y, x, n, st)
    ensures var low, ay, ax := (n - 1) * w, st.a[y], st.a[x];
            && n * w == low + w && low >= 0 && HasSize(op, w) && (w == 1 || w == 2 || w == 4) && y != x
            && low + w <= ay <= SPACE && low + w <= ax <= SPACE && (ay <= ax - low - w || ax <= ay - low - w)
            && Digits(IsDecimal(op), st.mem, ay - low - w, low + w)
            && Digits(IsDecimal(op), st.mem, ax - low - w, low + w)
  {
    hide Digits;
    assert n * w == (n - 1) * w + w;
  }

  lemma WrapSmall(v: nat)
    requires v <= SPACE
    ensures Wrap(v) == v
  {
  }

  /** An instruction whose registers do not wrap. */
  lemma StepAt(op: Op, w: nat, y: nat, x: nat, st: Data, ya: nat, xa: nat)
    requires st.Valid() && y < 8 && x < 8 && y != x && (w == 1 || w == 2 || w == 4)
    requires st.a[y] == ya + w && st.a[x] == xa + w
    ensures Fetch(st.mem, ya, w) < TWO32 && Fetch(st.mem, xa, w) < TWO32
    ensures var limb := Combine(op, w, Fetch(st.mem, ya, w), Fetch(st.mem, xa, w), st.ccr.x);
            Step(op, w, y, x, st)
            == Data(Lower(st.a, y, ya, x, xa), Store(st.mem, xa, w, limb.value),
                    Ccr(limb.c, limb.n, st.ccr.z && limb.value == 0, limb.v, limb.c))
  {
    hide Combine, Fetch, Store, Lower;
    FetchBound(st.mem, ya, w);
    FetchBound(st.mem, xa, w);
  }

  /** result and the carry or borrow x1 are those of first + second or first - second on numbers below p. */
  predicate Computes(op: Op, first: nat, second: nat, result: nat, x1: bool, p: nat) {
    if IsSum(op) then
      x1 == (first + second >= p) && result == if x1 then first + second - p else first + second
    else
      x1 == (first < second) && result == if x1 then first - second + p else first - second
  }

  lemma BalanceComputes(op: Op, first: nat, second: nat, result: nat, x1: bool, p: nat)
    requires Balance(op, first, second, result, false, x1, p) && first < p && second < p
    ensures Computes(op, first, second, result, x1, p)
  {
  }

  /**
   The use the manual describes: X clear and Z set before the first limb. The result is the sum or
   difference modulo the size of the operands, X is the carry or borrow out of the last limb, Z
   tells whether every limb came out zero, and Ay's operand is still there.
   */
  lemma ChainFromClear(op: Op, w: nat, y: nat, x: nat, n: nat, st: Data)
    requires st.Valid() && y < 8 && x < 8 && w <= 4 && Operands(op, w, y, x, n, st)
    requires !st.ccr.x && st.ccr.z
    ensures var r, len, dec, ay, ax := Chain(op, w, y, x, n, st), n * w, IsDecimal(op), st.a[y], st.a[x];
            && Computes(op, Number(dec, st.mem, ax - len, len), Number(dec, st.mem, ay - len, len),
                        Number(dec, r.mem, ax - len, len), r.ccr.x, Pow(Radix(dec), len))
            && (r.ccr.z <==> Number(dec, r.mem, ax - len, len) == 0)
            && Number(dec, r.mem, ay - len, len) == Number(dec, st.mem, ay - len, len)
  {
    hide Operands, Chain, Number, Pow, Digits, At, Balance, Computes;
    ChainExact(op, w, y, x, n, st);
    var r, len, dec, ay, ax := Chain(op, w, y, x, n, st), n * w, IsDecimal(op), st.a[y], st.a[x];
    OperandBounds(op, w, y, x, n, st);
    BalanceComputes(op, Number(dec, st.mem, ax - len, len), Number(dec, st.mem, ay - len, len),
                    Number(dec, r.mem, ax - len, len), r.ccr.x, Pow(Radix(dec), len));
    SameNumber(dec, st.mem, r.mem, ay - len, len);
  }

  lemma OperandBounds(op: Op, w: nat, y: nat, x: nat, n: nat, st: Data)
    requires st.Valid() && y < 8 && x < 8 && w <= 4 && Operands(op, w, y, x, n, st)
    ensures var len, dec := n * w, IsDecimal(op);
            && Number(dec, st.mem, st.a[x] - len, len) < Pow(Radix(dec), len)
            && Number(dec, st.mem, st.a[y] - len, len) < Pow(Radix(dec), len)
            && 0 <= st.a[y] - len && st.a[y] <= SPACE
            && (st.a[y] <= st.a[x] - len || st.a[x] <= st.a[y] - len)
  {
    NumberBound(IsDecimal(op), st.mem, st.a[x] - n * w, n * w);
    NumberBound(IsDecimal(op), st.mem, st.a[y] - n * w, n * w);
  }

  // ---------------------------------------------------------------- the last limb's N and V

  /** A number below p as two's complement. */
  function AsSigned(v: nat, p: nat): int { if 2 * v >= p then v - p else v }

  /** The signed sum or difference, with the X it starts from, does not fit a number below p. */
  predicate Overflows(op: Op, first: nat, second: nat, x0: bool, p: nat) {
    var exact := if op == Addx then AsSigned(first, p) + AsSigned(second, p) + Num(x0)
                 else AsSigned(first, p) - AsSigned(second, p) - Num(x0);
    !(0 <= 2 * exact + p < 2 * p)
  }

  /** N is the sign of the whole result and V its signed overflow. */
  ghost predicate SignedFlags(op: Op, mem: seq<byte>, ay: int, ax: int, len: nat, x0: bool, after: seq<byte>, ccr: Ccr)
    requires |mem| == SPACE && |after| == SPACE
  {
    var p := Pow(256, len);
    && (ccr.n <==> AsSigned(Number(false, after, ax - len, len), p) < 0)
    && (ccr.v <==> Overflows(op, Number(false, mem, ax - len, len), Number(false, mem, ay - len, len), x0, p))
  }

  /** After at least one binary limb, N and V are those of the whole operands. */
  lemma ChainOverflow(op: Op, w: nat, y: nat, x: nat, n: nat, st: Data)
    requires st.Valid() && y < 8 && x < 8 && w <= 4 && n > 0 && !IsDecimal(op) && Operands(op, w, y, x, n, st)
    ensures SignedFlags(op, st.mem, st.a[y], st.a[x], n * w, st.ccr.x,
                        Chain(op, w, y, x, n, st).mem, Chain(op, w, y, x, n, st).ccr)
  {
    hide Combined, Combine, Number, Digits, Fetch, Store, Step, Wrap, Lower, Chain, SignedFlags, Pow;
    var r, mid, low := Chain(op, w, y, x, n, st), Chain(op, w, y, x, n - 1, st), (n - 1) * w;
    assert n * w == low + w;
    OperandsBefore(op, w, y, x, n, st);
    ChainExact(op, w, y, x, n - 1, st);
    ChainExact(op, w, y, x, n, st);
    var ya, xa := st.a[y] - low - w, st.a[x] - low - w;
    ChainStep(op, w, y, x, n, st);
    StepAt(op, w, y, x, mid, ya, xa);
    TopLimb(op, w, st.a[y], st.a[x], low, st.mem, mid.mem, r.mem, st.ccr.x, mid.ccr.x, r.ccr);
  }

  lemma ChainStep(op: Op, w: nat, y: nat, x: nat, n: nat, st: Data)
    requires st.Valid() && y < 8 && x < 8 && w <= 4 && n > 0
    ensures Chain(op, w, y, x, n, st) == Step(op, w, y, x, Chain(op, w, y, x, n - 1, st))
  {
  }

  lemma TopLimb(op: Op, w: nat, ay: nat, ax: nat, low: nat, mem: seq<byte>, mid: seq<byte>, after: seq<byte>,
                x0: bool, xm: bool, ccr: Ccr)
    requires HasSize(op, w) && !IsDecimal(op) && |mem| == SPACE && |mid| == SPACE && |after| == SPACE
    requires low + w <= ay <= SPACE && low + w <= ax <= SPACE && (ay <= ax - low - w || ax <= ay - low - w)
    requires Combined(op, mem, mid, ay, ax, low, x0, xm) && Combined(op, mem, after, ay, ax, low + w, x0, ccr.x)
    requires Fetch(mid, ay - low - w, w) < TWO32 && Fetch(mid, ax - low - w, w) < TWO32
    requires var limb := Combine(op, w, Fetch(mid, ay - low - w, w), Fetch(mid, ax - low - w, w), xm);
             after == Store(mid, ax - low - w, w, limb.value) && ccr.n == limb.n && ccr.v == limb.v
    ensures SignedFlags(op, mem, ay, ax, low + w, x0, after, ccr)
  {
    hide Combine, Fetch, Store, Number, Digits, At, Pow, Balance, Overflows, AsSigned, Top;
    var ya, xa, len := ay - low - w, ax - low - w, low + w;
    var src, dst := Fetch(mid, ya, w), Fetch(mid, xa, w);
    var limb := Combine(op, w, src, dst, xm);
    SourceLimb(mem, mid, ay, ax, low, w);
    Widths();
    BinaryFlags(op, w, src, dst, xm);
    FetchStored(mid, xa, w, limb.value);
    TopOfNumber(mem, ya, w, low);
    TopOfNumber(mem, xa, w, low);
    TopOfNumber(after, xa, w, low);
    PowEven(len);
    OverflowLaw(op, Number(false, mem, xa, len), Number(false, mem, ya, len), Number(false, after, xa, len), x0, ccr.x,
                Pow(256, len));
  }

  /** The limbs the last step reads are still the ones the chain began with. */
  lemma SourceLimb(mem: seq<byte>, mid: seq<byte>, ay: nat, ax: nat, low: nat, w: nat)
    requires |mem| == SPACE && |mid| == SPACE && (w == 1 || w == 2 || w == 4)
    requires low + w <= ay <= SPACE && low + w <= ax <= SPACE && (ay <= ax - low - w || ax <= ay - low - w)
    requires forall i :: 0 <= i < SPACE && !(ax - low <= i < ax) ==> At(mid, i) == At(mem, i)
    ensures Fetch(mid, ay - low - w, w) == Number(false, mem, ay - low - w, w) < 2 * TopBit(w)
    ensures Fetch(mid, ax - low - w, w) == Number(false, mem, ax - low - w, w) < 2 * TopBit(w)
  {
    hide At;
    FetchIsNumber(mid, ay - low - w, w);
    FetchIsNumber(mid, ax - low - w, w);
    SameNumber(false, mid, mem, ay - low - w, w);
    SameNumber(false, mid, mem, ax - low - w, w);
    NumberBound(false, mem, ay - low - w, w);
    NumberBound(false, mem, ax - low - w, w);
    Widths();
  }

  lemma BinaryFlags(op: Op, w: nat, src: uint, dst: uint, x: bool)
    requires HasSize(op, w) && !IsDecimal(op) && src < 2 * TopBit(w) && dst < 2 * TopBit(w)
    ensures var limb := Combine(op, w, src, dst, x);
            && limb.value < 2 * TopBit(w) && limb.n == Top(w, limb.value)
            && limb.v == if op == Addx then Top(w, src) != Top(w, limb.value) && Top(w, dst) != Top(w, limb.value)
                         else Top(w, src) != Top(w, dst) && Top(w, limb.value) != Top(w, dst)
  {
    hide Top, AddLimb, SubLimb;
    if op == Addx {
      AddLimbExact(w, src, dst, x);
    } else {
      SubLimbExact(w, src, dst, x);
    }
  }

  /** The top bit of a number is the top bit of its first limb. */
  lemma TopOfNumber(mem: seq<byte>, addr: int, w: nat, low: nat)
    requires |mem| == SPACE && (w == 1 || w == 2 || w == 4)
    ensures Number(false, mem, addr, w + low) < Pow(256, w + low)
    ensures AsSigned(Number(false, mem, addr, w + low), Pow(256, w + low)) < 0 <==> Top(w, Number(false, mem, addr, w))
  {
    hide Number, Pow, Top;
    Concat(false, mem, addr, w, low);
    PowAdds(256, w, low);
    NumberBound(false, mem, addr, w + low);
    NumberBound(false, mem, addr, w);
    NumberBound(false, mem, addr + w, low);
    Widths();
    BitsAre(w, Number(false, mem, addr, w));
    TopOfPair(Number(false, mem, addr, w), Number(false, mem, addr + w, low), TopBit(w), Pow(256, low));
  }

  lemma TopOfPair(top: nat, low: nat, half: nat, pl: nat)
    requires low < pl
    ensures 2 * (top * pl + low) >= (2 * half) * pl <==> top >= half
  {
    if top >= half {
      Monotone(half, top, pl);
    } else {
      Monotone(top + 1, half, pl);
    }
  }

  lemma PowEven(n: nat)
    requires n > 0
    ensures Pow(256, n) % 2 == 0
  {
    assert Pow(256, n) == 2 * (128 * Pow(256, n - 1));
  }

  lemma OverflowLaw(op: Op, first: nat, second: nat, result: nat, x0: bool, x1: bool, p: nat)
    requires !IsDecimal(op) && Balance(op, first, second, result, x0, x1, p) && first < p && second < p && p % 2 == 0
    ensures var s, d, r := AsSigned(second, p) < 0, AsSigned(first, p) < 0, AsSigned(result, p) < 0;
            Overflows(op, first, second, x0, p) == if op == Addx then s != r && d != r else s != d && r != d
  {
  }

  // ---------------------------------------------------------------- the handlers

  function DataOf(cpu: Cpu): Data
    reads cpu, cpu.a, cpu.mem
  {
    Data(cpu.a[..], cpu.mem[..], cpu.ccr)
  }

  /**
   The handlers of -(Ay),-(Ax). A misaligned operand leaves by the address error exception with the
   registers gone down so far and nothing else done.
   */
  method MemoryForm(cpu: Cpu, op: Op, w: nat, y: nat, x: nat) returns (fault: bool)
    requires cpu.Valid() && HasSize(op, w) && HasRegisters(w, y, x)
    modifies cpu`ccr, cpu.a, cpu.mem
    ensures cpu.Valid()
    ensures fault == (Misaligned(Wrap(old(cpu.a[y]) - w), w)
                      || Misaligned(Wrap((if x == y then Wrap(old(cpu.a[y]) - w) else old(cpu.a[x])) - w), w))
    ensures !fault ==> DataOf(cpu) == Step(op, w, y, x, old(DataOf(cpu)))
    ensures fault ==> cpu.mem[..] == old(cpu.mem[..]) && cpu.ccr == old(cpu.ccr)
    ensures fault ==> cpu.a[..] == old(if Misaligned(Wrap(cpu.a[y] - w), w) then cpu.a[..][y := Wrap(cpu.a[y] - w)]
                                       else Step(op, w, y, x, DataOf(cpu)).a)
  {
    hide Combine, Fetch, Store, Wrap;
    ghost var before := DataOf(cpu);
    fault := true;
    cpu.a[y] := Wrap(cpu.a[y] - w);
    if Misaligned(cpu.a[y], w) {
      return;
    }
    var src := ReadLimb(cpu, cpu.a[y], w);
    cpu.a[x] := Wrap(cpu.a[x] - w);
    var ea := cpu.a[x];
    if Misaligned(ea, w) {
      return;
    }
    var dst := ReadLimb(cpu, ea, w);
    fault := false;
    var limb := Combine(op, w, src, dst, cpu.ccr.x);
    LimbFits(op, w, cpu.mem[..], Wrap(before.a[y] - w), ea, cpu.ccr.x, src, dst);
    cpu.ccr := Ccr(limb.c, limb.n, cpu.ccr.z && limb.value == 0, limb.v, limb.c);
    WriteLimb(cpu, ea, w, limb.value);
    assert cpu.a[..] == Lower(before.a, y, Wrap(before.a[y] - w), x, ea);
  }

  /** n calls of a handler on operands that are there: none faults, and together they are the chain. */
  method Repeat(cpu: Cpu, op: Op, w: nat, y: nat, x: nat, n: nat)
    requires cpu.Valid() && w <= 4 && y < 8 && x < 8 && Operands(op, w, y, x, n, DataOf(cpu))
    modifies cpu`ccr, cpu.a, cpu.mem
    ensures cpu.Valid() && DataOf(cpu) == Chain(op, w, y, x, n, old(DataOf(cpu)))
  {
    hide Step, Chain, Operands, Wrap, Misaligned;
    ghost var st := DataOf(cpu);
    OperandSizes(op, w, y, x, n, st);
    NoSteps(op, w, y, x, st);
    for k := 0 to n
      invariant cpu.Valid() && DataOf(cpu) == Chain(op, w, y, x, k, st)
    {
      StillAligned(op, w, y, x, n, k, st);
      var fault := MemoryForm(cpu, op, w, y, x);
      ChainStep(op, w, y, x, k + 1, st);
    }
  }

  lemma OperandSizes(op: Op, w: nat, y: nat, x: nat, n: nat, st: Data)
    requires st.Valid() && y < 8 && x < 8 && Operands(op, w, y, x, n, st)
    ensures HasSize(op, w) && HasRegisters(w, y, x) && y != x
  {
  }

  lemma NoSteps(op: Op, w: nat, y: nat, x: nat, st: Data)
    requires st.Valid() && y < 8 && x < 8 && w <= 4
    ensures Chain(op, w, y, x, 0, st) == st
  {
  }

  /** The registers stay aligned down the operands. */
  lemma StillAligned(op: Op, w: nat, y: nat, x: nat, n: nat, k: nat, st: Data)
    requires st.Valid() && y < 8 && x < 8 && w <= 4 && k < n && Operands(op, w, y, x, n, st)
    ensures var r := Chain(op, w, y, x, k, st);
            !Misaligned(Wrap(r.a[y] - w), w) && !Misaligned(Wrap(r.a[x] - w), w)
  {
    hide Operands, Chain, Wrap, Misaligned;
    WhereChained(op, w, y, x, n, k, st);
    Alignment(op, w, y, x, n, st);
    EvenLimbs(w, k, n, st.a[y]);
    EvenLimbs(w, k, n, st.a[x]);
  }

  lemma WhereChained(op: Op, w: nat, y: nat, x: nat, n: nat, k: nat, st: Data)
    requires st.Valid() && y < 8 && x < 8 && w <= 4 && k < n && Operands(op, w, y, x, n, st)
    ensures var r := Chain(op, w, y, x, k, st);
            r.a[y] == Wrap(st.a[y] - k * w) && r.a[x] == Wrap(st.a[x] - k * w)
  {
    hide Operands, Chain, Combined, Number, Wrap;
    OperandSizes(op, w, y, x, n, st);
    FewerOperands(op, w, y, x, n, k, st);
    ChainExact(op, w, y, x, k, st);
  }

  lemma Alignment(op: Op, w: nat, y: nat, x: nat, n: nat, st: Data)
    requires st.Valid() && y < 8 && x < 8 && Operands(op, w, y, x, n, st)
    ensures (w == 1 || w == 2 || w == 4) && (w == 1 || (st.a[y] % 2 == 0 && st.a[x] % 2 == 0))
    ensures n * w <= st.a[y] <= SPACE && n * w <= st.a[x] <= SPACE
  {
    hide Digits, Misaligned;
  }

  lemma EvenLimbs(w: nat, k: nat, n: nat, a: uint)
    requires (w == 1 || w == 2 || w == 4) && k < n && n * w <= a <= SPACE && (w == 1 || a % 2 == 0)
    ensures k * w + w <= a && !Misaligned(Wrap(Wrap(a - k * w) - w), w)
  {
    Monotone(k + 1, n, w);
    if w == 2 {
      assert k * w == 2 * k;
    } else if w == 4 {
      assert k * w == 4 * k;
    }
  }

  lemma {:induction false} FewerOperands(op: Op, w: nat, y: nat, x: nat, n: nat, k: nat, st: Data)
    requires st.Valid() && y < 8 && x < 8 && k <= n && Operands(op, w, y, x, n, st)
    ensures Operands(op, w, y, x, k, st)
    decreases n
  {
    hide Operands;
    if k < n {
      OperandsBefore(op, w, y, x, n, st);
      FewerOperands(op, w, y, x, n - 1, k, st);
    }
  }

  lemma LimbFits(op: Op, w: nat, mem: seq<byte>, ya: int, xa: int, x: bool, src: uint, dst: uint)
    requires HasSize(op, w) && |mem| == SPACE && src == Fetch(mem, ya, w) && dst == Fetch(mem, xa, w)
    ensures Combine(op, w, src, dst, x).value < 2 * TopBit(w)
  {
    hide AddDecimal, SubDecimal;
    if IsDecimal(op) {
      assert AddDecimal(src, dst, x).value < 0x100 && SubDecimal(src, dst, x).value < 0x100 by {
        DecimalFits(src, dst, x);
      }
    }
  }

  lemma DecimalFits(src: uint, dst: uint, x: bool)
    ensures AddDecimal(src, dst, x).value < 0x100 && SubDecimal(src, dst, x).value < 0x100
  {
  }
}
