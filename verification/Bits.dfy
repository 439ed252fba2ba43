/** The bit operators of C on numbers, and what each does to every bit. */
module Bits {
  /** a & b */
  function And(a: nat, b: nat): (r: nat)
    ensures r <= a && r <= b
  {
    if a == 0 || b == 0 then 0 else 2 * And(a / 2, b / 2) + (if a % 2 == 1 && b % 2 == 1 then 1 else 0)
  }

  /** a | b */
  function Or(a: nat, b: nat): nat {
    if a == 0 && b == 0 then 0 else 2 * Or(a / 2, b / 2) + (if a % 2 == 1 || b % 2 == 1 then 1 else 0)
  }

  /** a ^ b */
  function Xor(a: nat, b: nat): nat {
    if a == 0 && b == 0 then 0 else 2 * Xor(a / 2, b / 2) + (if a % 2 == b % 2 then 0 else 1)
  }

  lemma {:induction false} OrIsSum(a: nat, b: nat)
    requires And(a, b) == 0
    ensures Or(a, b) == a + b
  {
    if a != 0 || b != 0 {
      if a != 0 && b != 0 {
        assert And(a / 2, b / 2) == 0;
      }
      OrIsSum(a / 2, b / 2);
    }
  }

  function Pow2(n: nat): (r: nat)
    ensures r > 0
  {
    if n == 0 then 1 else 2 * Pow2(n - 1)
  }

  lemma AndUnfold(a: nat, b: nat)
    ensures And(a, b) == 2 * And(a / 2, b / 2) + (if a % 2 == 1 && b % 2 == 1 then 1 else 0)
  {
  }

  lemma {:induction false} AndOnes(a: nat, n: nat)
    requires a < Pow2(n)
    ensures And(a, Pow2(n) - 1) == a
  {
    hide And;
    if n > 0 {
      AndOnes(a / 2, n - 1);
      AndUnfold(a, Pow2(n) - 1);
      assert (Pow2(n) - 1) / 2 == Pow2(n - 1) - 1 && (Pow2(n) - 1) % 2 == 1;
    }
  }

  /** High and low bits are combined apart. */
  lemma {:induction false} AndSplit(ah: nat, al: nat, bh: nat, bl: nat, k: nat)
    requires al < Pow2(k) && bl < Pow2(k)
    ensures And(ah * Pow2(k) + al, bh * Pow2(k) + bl) == And(ah, bh) * Pow2(k) + And(al, bl)
  {
    hide And;
    if k > 0 {
      var p := Pow2(k - 1);
      AndSplit(ah, al / 2, bh, bl / 2, k - 1);
      Halve(ah, al, p);
      Halve(bh, bl, p);
      SplitStep(ah * Pow2(k) + al, bh * Pow2(k) + bl, And(ah, bh) * p, al, bl);
      Double(And(ah, bh), p);
    }
  }

  lemma SplitStep(a: nat, b: nat, high: nat, al: nat, bl: nat)
    requires And(a / 2, b / 2) == high + And(al / 2, bl / 2) && a % 2 == al % 2 && b % 2 == bl % 2
    ensures And(a, b) == 2 * high + And(al, bl)
  {
    hide And;
    AndUnfold(a, b);
    AndUnfold(al, bl);
  }

  lemma Double(x: nat, p: nat)
    ensures x * (2 * p) == 2 * (x * p)
  {
  }

  lemma Halve(h: nat, l: nat, p: nat)
    ensures (h * (2 * p) + l) / 2 == h * p + l / 2 && (h * (2 * p) + l) % 2 == l % 2
  {
    assert h * (2 * p) == 2 * (h * p);
  }

  // ---------------------------------------------------------------- bit by bit

  /** Bit i, the least significant one being bit 0. */
  function Bit(x: nat, i: nat): (r: nat)
    ensures r < 2
  {
    if i == 0 then x % 2 else Bit(x / 2, i - 1)
  }

  lemma {:induction false} AndBit(a: nat, b: nat, i: nat)
    ensures Bit(And(a, b), i) == if Bit(a, i) == 1 && Bit(b, i) == 1 then 1 else 0
  {
    hide And;
    AndUnfold(a, b);
    if i > 0 {
      AndBit(a / 2, b / 2, i - 1);
    }
  }

  lemma OrUnfold(a: nat, b: nat)
    ensures Or(a, b) == 2 * Or(a / 2, b / 2) + (if a % 2 == 1 || b % 2 == 1 then 1 else 0)
  {
  }

  lemma {:induction false} OrBit(a: nat, b: nat, i: nat)
    ensures Bit(Or(a, b), i) == if Bit(a, i) == 1 || Bit(b, i) == 1 then 1 else 0
  {
    hide Or;
    OrUnfold(a, b);
    if i > 0 {
      OrBit(a / 2, b / 2, i - 1);
    }
  }

  lemma XorUnfold(a: nat, b: nat)
    ensures Xor(a, b) == 2 * Xor(a / 2, b / 2) + (if a % 2 == b % 2 then 0 else 1)
  {
  }

  lemma {:induction false} XorBit(a: nat, b: nat, i: nat)
    ensures Bit(Xor(a, b), i) == if Bit(a, i) == Bit(b, i) then 0 else 1
  {
    hide Xor;
    XorUnfold(a, b);
    if i > 0 {
      XorBit(a / 2, b / 2, i - 1);
    }
  }

  /** The complement of a number of n bits. */
  function Complement(x: nat, n: nat): (r: nat)
    requires x < Pow2(n)
    ensures r < Pow2(n)
  {
    Pow2(n) - 1 - x
  }

  lemma {:induction false} ComplementBit(x: nat, n: nat, i: nat)
    requires x < Pow2(n) && i < n
    ensures Bit(Complement(x, n), i) == 1 - Bit(x, i)
  {
    assert Complement(x, n) / 2 == Complement(x / 2, n - 1) && Complement(x, n) % 2 == 1 - x % 2;
    if i > 0 {
      ComplementBit(x / 2, n - 1, i - 1);
    }
  }

  /** Numbers of n bits stay so. */
  lemma {:induction false} OrBound(a: nat, b: nat, n: nat)
    requires a < Pow2(n) && b < Pow2(n)
    ensures Or(a, b) < Pow2(n) && Xor(a, b) < Pow2(n)
  {
    if n > 0 {
      OrBound(a / 2, b / 2, n - 1);
    }
  }

  /** A number of n bits is what its bits say. */
  lemma {:induction false} SameBits(x: nat, y: nat, n: nat)
    requires x < Pow2(n) && y < Pow2(n) && forall i :: 0 <= i < n ==> Bit(x, i) == Bit(y, i)
    ensures x == y
  {
    if n > 0 {
      assert Bit(x, 0) == Bit(y, 0);
      forall i | 0 <= i < n - 1 ensures Bit(x / 2, i) == Bit(y / 2, i) {
        assert Bit(x, i + 1) == Bit(y, i + 1);
      }
      SameBits(x / 2, y / 2, n - 1);
    }
  }

  /** Bits below and above a place. */
  lemma {:induction false} BitSplit(high: nat, low: nat, k: nat, i: nat)
    requires low < Pow2(k)
    ensures Bit(high * Pow2(k) + low, i) == if i < k then Bit(low, i) else Bit(high, i - k)
  {
    if k > 0 {
      Halve(high, low, Pow2(k - 1));
      if i > 0 {
        BitSplit(high, low / 2, k - 1, i - 1);
      }
    }
  }

  lemma {:induction false} NoBit(x: nat, n: nat, i: nat)
    requires x < Pow2(n) && n <= i
    ensures Bit(x, i) == 0
  {
    if n > 0 {
      NoBit(x / 2, n - 1, i - 1);
    } else if i > 0 {
      NoBit(0, 0, i - 1);
    }
  }
}
