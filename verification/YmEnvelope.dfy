/** What the ticks of the envelope generator add up to: each state by its own rate, and four rates on by twice as much. */
module YmEnvelope {
  import opened YmTables
  import opened YmOperator
  import opened YmRegisters
  import opened YmRelease

  /** What one tick adds under a cached pair. */
  function Rise(r: Rate, cnt: nat): nat
    requires RateOk(r)
  {
    if Due(r, cnt) then IncAt(r, cnt) else 0
  }

  /** What the n ticks after cnt add. */
  function Risen(r: Rate, cnt: nat, n: nat): nat
    requires RateOk(r)
    decreases n
  {
    if n == 0 then 0 else Rise(r, U32(cnt + 1)) + Risen(r, U32(cnt + 1), n - 1)
  }

  function Least(a: int, b: int): int { if a < b then a else b }

  // ---------------------------------------------------------------- one tick

  /** Decay rises by its own pair, and a due step that takes it to d1l or beyond ends it. */
  lemma TickDecay(op: Operator, cnt: nat)
    requires Ticking(op) && op.env.state == EG_DEC
    ensures var e, r := Tick(op, cnt).env, op.rates.egD1r;
            && e.volume == op.env.volume + Rise(r, cnt)
            && e.state == if cnt % Pow2(r.sh) == 0 && e.volume >= op.d1l then EG_SUS else EG_DEC
  {
  }

  /** Sustain rises by its own pair up to 1023, where the operator is off. */
  lemma TickSustain(op: Operator, cnt: nat)
    requires Ticking(op) && op.env.state == EG_SUS
    ensures var e, r := Tick(op, cnt).env, op.rates.egD2r;
            && e.volume == Least(1023, op.env.volume + Rise(r, cnt))
            && e.state == if cnt % Pow2(r.sh) == 0 && op.env.volume + Rise(r, cnt) >= 1023 then EG_OFF else EG_SUS
  {
  }

  /** So does release. */
  lemma TickRelease(op: Operator, cnt: nat)
    requires Ticking(op) && op.env.state == EG_REL
    ensures var e, r := Tick(op, cnt).env, op.rates.egRr;
            && e.volume == Least(1023, op.env.volume + Rise(r, cnt))
            && e.state == if cnt % Pow2(r.sh) == 0 && op.env.volume + Rise(r, cnt) >= 1023 then EG_OFF else EG_REL
  {
  }

  /** An attack step takes a share of inc sixteenths off the volume, rounded down; what gets to 0 decays. */
  lemma AttackLaw(e: Envelope, inc: nat)
    requires 0 <= e.volume <= MAX_ATT_INDEX && inc <= 16
    ensures var e', x := Attack(e, inc), 16 * e.volume - (e.volume + 1) * inc;
            if x < 16 then e' == e.(volume := 0, state := EG_DEC)
            else e' == e.(volume := e'.volume) && 16 * e'.volume <= x < 16 * e'.volume + 16
  {
    assert (-(e.volume + 1) * inc) == -((e.volume + 1) * inc);
  }

  lemma TickAttack(op: Operator, cnt: nat)
    requires Ticking(op) && op.env.state == EG_ATT
    ensures var r := op.rates.egAr;
            Tick(op, cnt).env == if cnt % Pow2(r.sh) == 0 then Attack(op.env, IncAt(r, cnt)) else op.env
  {
  }

  /** The pair the state of an envelope goes by. */
  function OwnPair(op: Operator): Rate {
    match op.env.state
    case 4 => op.rates.egAr
    case 3 => op.rates.egD1r
    case 2 => op.rates.egD2r
    case _ => op.rates.egRr
  }

  /** Operators that agree in envelope, D1L and the pair of their state tick alike, whatever the other three pairs are. */
  lemma OwnPairOnly(op1: Operator, op2: Operator, cnt: nat)
    requires Ticking(op1) && Ticking(op2) && op1.env == op2.env && op1.d1l == op2.d1l && OwnPair(op1) == OwnPair(op2)
    ensures Tick(op1, cnt).env == Tick(op2, cnt).env
  {
    hide Ticking;
    Reachable(op1);
    assert op1.env.state == 0 || op1.env.state == 1 || op1.env.state == 2 || op1.env.state == 3 || op1.env.state == 4;
  }

  lemma Reachable(op: Operator)
    requires Ticking(op)
    ensures op.env.state <= 4
  {
  }

  // ---------------------------------------------------------------- many ticks

  /** While the state is sustain or release the volume is the start and what its pair has added, up to 1023. */
  lemma {:induction false} FadeExact(op: Operator, cnt: nat, n: nat)
    requires Ticking(op) && (op.env.state == EG_SUS || op.env.state == EG_REL) && op.env.volume < 1023
    ensures RateOk(OwnPair(op))
    ensures var e, v := Ticks(op, cnt, n).env, op.env.volume + Risen(OwnPair(op), cnt, n);
            && e.volume == Least(1023, v) && e.state == if v >= 1023 then EG_OFF else op.env.state
    decreases n
  {
    hide Tick, Rise, Ticking, Risen;
    TickingPairs(op);
    RisenFirst(OwnPair(op), cnt, n);
    if n > 0 {
      var c := U32(cnt + 1);
      var op1 := Tick(op, c);
      FadeTick(op, c);
      if op1.env.state == EG_OFF {
        OffStaysOff(op1, c, n - 1);
      } else {
        FadeExact(op1, c, n - 1);
      }
    }
  }

  lemma TickingPairs(op: Operator)
    requires Ticking(op)
    ensures RateOk(op.rates.egAr) && RateOk(op.rates.egD1r) && RateOk(op.rates.egD2r) && RateOk(op.rates.egRr)
  {
  }

  lemma RisenFirst(r: Rate, cnt: nat, n: nat)
    requires RateOk(r)
    ensures Risen(r, cnt, n) == if n == 0 then 0 else Rise(r, U32(cnt + 1)) + Risen(r, U32(cnt + 1), n - 1)
  {
  }

  lemma FadeTick(op: Operator, cnt: nat)
    requires Ticking(op) && (op.env.state == EG_SUS || op.env.state == EG_REL) && op.env.volume < 1023
    ensures var op', v := Tick(op, cnt), op.env.volume + Rise(OwnPair(op), cnt);
            && Ticking(op') && op'.rates == op.rates && op'.env.volume == Least(1023, v)
            && op'.env.state == if v >= 1023 then EG_OFF else op.env.state
  {
    hide Ticking, IncAt;
    TickingPairs(op);
    if op.env.state == EG_SUS {
      TickSustain(op, cnt);
    } else {
      TickRelease(op, cnt);
    }
  }

  // ---------------------------------------------------------------- what a rate comes to

  /** The length of a row of eg_inc in counter steps. */
  function Period(r: Rate): (p: nat)
    requires RateOk(r)
    ensures 8 <= p <= 0x4000
  {
    8 * Pow2(r.sh)
  }

  lemma PeriodIs(r: Rate)
    requires RateOk(r)
    ensures IsPeriod(4 * Pow2(r.sh)) && Period(r) == 2 * (4 * Pow2(r.sh))
  {
  }

  /** The first k increments of the row at sel. */
  function RowSum(sel: nat, k: nat): nat
    requires sel <= 144 && k <= 8
  {
    if k == 0 then 0 else RowSum(sel, k - 1) + EgInc(sel + k - 1)
  }

  lemma RiseIs(r: Rate, cnt: nat)
    requires RateOk(r)
    ensures Rise(r, cnt) == if cnt % Pow2(r.sh) == 0 then EgInc(r.sel + cnt / Pow2(r.sh) % 8) else 0
  {
  }

  /** A tick adds something on multiples of 2^sh only, and then the row's increments in turn. */
  lemma RiseAt(r: Rate, cnt: nat, k: nat, t: nat)
    requires RateOk(r) && k < 8 && t < Pow2(r.sh) && cnt % Period(r) == k * Pow2(r.sh) + t
    ensures Rise(r, cnt) == if t == 0 then EgInc(r.sel + k) else 0
  {
    hide Pow2, EgInc, Rise;
    PlaceInRow(cnt, Pow2(r.sh), k, t);
    RiseIs(r, cnt);
  }

  lemma PlaceInRow(c: nat, p: nat, k: nat, t: nat)
    requires t < p && k < 8 && c % (8 * p) == k * p + t
    ensures c % p == t && c / p % 8 == k
  {
    var q, rest := QuotientRemainder(c, 8 * p);
    DivModUnique(c, 8 * p, q, rest);
    MulAssoc(8, p, q);
    RowPlace(p, q, k);
    DivModUnique(c, p, 8 * q + k, t);
    InRow(q, k);
  }

  lemma RowPlace(p: nat, q: nat, k: nat)
    ensures 8 * p * q + k * p == p * (8 * q + k)
  {
    MulDistributes(p, 8 * q, k);
    MulAssoc(p, 8, q);
  }

  /** Eight steps of length p fill a row. */
  lemma FewSteps(n: nat, p: nat, k: nat, t: nat)
    requires p > 0 && n == p * k + t
    ensures n < 8 * p ==> k < 8
    ensures n <= 8 * p ==> k <= 8
  {
    if k >= 8 {
      Monotone8(k, p);
    }
  }

  lemma Monotone8(k: nat, p: nat)
    requires k >= 8
    ensures p * k >= 8 * p && (k > 8 ==> p * k >= 8 * p + p)
  {
    MulDistributes(p, 8, k - 8);
    if k > 8 {
      MulAtLeast(p, k - 8);
    }
  }

  lemma InRow(q: nat, k: nat)
    requires k < 8
    ensures (8 * q + k) % 8 == k
  {
  }

  lemma RiseRepeats(r: Rate, c: nat, d: nat)
    requires RateOk(r) && c % Period(r) == d % Period(r)
    ensures Rise(r, c) == Rise(r, d)
  {
    hide Pow2, Rise;
    var k, t := QuotientRemainder(c % Period(r), Pow2(r.sh));
    FewSteps(c % Period(r), Pow2(r.sh), k, t);
    RiseAt(r, c, k, t);
    RiseAt(r, d, k, t);
  }

  lemma {:induction false} CounterAt(cnt: nat, n: nat, p: nat)
    requires IsPeriod(p)
    ensures CounterAfter(cnt, n) % (2 * p) == (cnt + n) % (2 * p)
    decreases n
  {
    hide IsPeriod, U32;
    if n > 0 {
      CounterAt(U32(cnt + 1), n - 1, p);
      if n == 1 {
        PeriodSurvivesWrap(cnt + 1, p);
      } else {
        NextDistance(cnt, n, p);
      }
    }
  }

  lemma {:induction false} RisenLast(r: Rate, cnt: nat, n: nat)
    requires RateOk(r) && n > 0
    ensures Risen(r, cnt, n) == Risen(r, cnt, n - 1) + Rise(r, CounterAfter(cnt, n))
    decreases n
  {
    hide Rise, U32;
    if n > 1 {
      RisenLast(r, U32(cnt + 1), n - 1);
    }
  }

  lemma {:induction false} RisenAdd(r: Rate, cnt: nat, m: nat, n: nat)
    requires RateOk(r)
    ensures Risen(r, cnt, m + n) == Risen(r, cnt, m) + Risen(r, CounterAfter(cnt, m), n)
    decreases m
  {
    hide Rise, U32;
    if m > 0 {
      RisenAdd(r, U32(cnt + 1), m - 1, n);
    }
  }

  /** From the start of a row on. */
  lemma {:induction false} AlignedSum(r: Rate, cnt: nat, n: nat, k: nat, t: nat)
    requires RateOk(r) && (cnt + 1) % Period(r) == 0 && t < Pow2(r.sh) && n == Pow2(r.sh) * k + t && n <= Period(r)
    ensures k <= 8 && (k == 8 ==> t == 0) && Risen(r, cnt, n) == RowSum(r.sel, if t == 0 then k else k + 1)
    decreases n
  {
    hide Pow2, Rise, RowSum, Risen, EgInc;
    var p := Pow2(r.sh);
    FewSteps(n, p, k, t);
    if n == 0 {
      NothingRisen(r, cnt, k);
    } else {
      var k1, t1 := if t > 0 then k else k - 1, if t > 0 then t - 1 else p - 1;
      OneBack(p, k, t);
      FewSteps(n - 1, p, k1, t1);
      AlignedSum(r, cnt, n - 1, k1, t1);
      LastRise(r, cnt, n, k1, t1);
      SumStep(r.sel, k1);
    }
  }

  lemma LastRise(r: Rate, cnt: nat, n: nat, k: nat, t: nat)
    requires RateOk(r) && (cnt + 1) % Period(r) == 0 && 1 <= n <= Period(r) && k < 8 && t < Pow2(r.sh)
    requires n - 1 == Pow2(r.sh) * k + t
    ensures Risen(r, cnt, n) == Risen(r, cnt, n - 1) + if t == 0 then EgInc(r.sel + k) else 0
  {
    hide Pow2, Rise, Risen, EgInc, CounterAfter;
    RisenLast(r, cnt, n);
    PeriodIs(r);
    CounterAt(cnt, n, 4 * Pow2(r.sh));
    NextInRow(cnt, n, Period(r));
    RiseAt(r, CounterAfter(cnt, n), k, t);
  }

  lemma OneBack(p: nat, k: nat, t: nat)
    requires p > 0 && p * k + t > 0
    ensures t == 0 ==> k > 0 && p * k - 1 == p * (k - 1) + (p - 1)
  {
    if t == 0 {
      MulDistributes(p, k - 1, 1);
    }
  }

  lemma NothingRisen(r: Rate, cnt: nat, k: nat)
    requires RateOk(r) && Pow2(r.sh) * k == 0
    ensures k == 0 && Risen(r, cnt, 0) == 0 && RowSum(r.sel, 0) == 0
  {
    if k > 0 {
      MulAtLeast(Pow2(r.sh), k);
      assert false;
    }
  }

  lemma NextInRow(cnt: nat, n: nat, w: nat)
    requires 1 <= n <= w && (cnt + 1) % w == 0
    ensures (cnt + n) % w == n - 1
  {
    var q := (cnt + 1) / w;
    assert cnt + n == w * q + (n - 1);
    DivModUnique(cnt + n, w, q, n - 1);
  }

  lemma SumStep(sel: nat, k: nat)
    requires sel <= 144 && k <= 8
    ensures k < 8 ==> RowSum(sel, k + 1) == RowSum(sel, k) + EgInc(sel + k)
    ensures k > 0 ==> RowSum(sel, k) == RowSum(sel, k - 1) + EgInc(sel + k - 1)
  {
  }

  /** One row of counter steps adds the same wherever it starts. */
  lemma NextStart(r: Rate, cnt: nat)
    requires RateOk(r)
    ensures Risen(r, U32(cnt + 1), Period(r)) == Risen(r, cnt, Period(r))
  {
    hide Rise, U32, Pow2;
    var n := Period(r);
    RisenFirst(r, cnt, n + 1);
    RisenLast(r, cnt, n + 1);
    PeriodIs(r);
    CounterAt(cnt, n + 1, 4 * Pow2(r.sh));
    PeriodSurvivesWrap(cnt + 1, 4 * Pow2(r.sh));
    assert (cnt + (n + 1)) % n == (cnt + 1) % n by { OneRound(cnt + 1, n); }
    RiseRepeats(r, CounterAfter(cnt, n + 1), U32(cnt + 1));
  }

  lemma OneRound(c: nat, n: nat)
    requires n > 0
    ensures (c + n) % n == c % n
  {
    var q, t := QuotientRemainder(c, n);
    MulDistributes(n, q, 1);
    DivModUnique(c, n, q, t);
    DivModUnique(c + n, n, q + 1, t);
  }

  lemma {:induction false} AnyStart(r: Rate, cnt: nat, d: nat)
    requires RateOk(r)
    ensures Risen(r, CounterAfter(cnt, d), Period(r)) == Risen(r, cnt, Period(r))
    decreases d
  {
    hide Rise, Risen, U32, Period;
    if d > 0 {
      AnyStart(r, U32(cnt + 1), d - 1);
      NextStart(r, cnt);
    }
  }

  /** Any 8 * 2^sh ticks, from any counter value and over its wrap, add the eight increments of the row. */
  lemma OneRow(r: Rate, cnt: nat)
    requires RateOk(r)
    ensures Risen(r, cnt, Period(r)) == RowSum(r.sel, 8)
  {
    hide Risen, RowSum, Pow2, CounterAfter;
    var w := Period(r);
    var d := w - 1 - cnt % w;
    var c := CounterAfter(cnt, d);
    PeriodIs(r);
    CounterAt(cnt, d, 4 * Pow2(r.sh));
    LastOfRow(cnt, w);
    LastOfRow(c, w);
    AnyStart(r, cnt, d);
    AlignedSum(r, c, w, 8, 0);
  }

  lemma LastOfRow(c: nat, w: nat)
    requires w > 0
    ensures (c + (w - 1 - c % w)) % w == w - 1
    ensures c % w == w - 1 ==> (c + 1) % w == 0
  {
    var q, t := QuotientRemainder(c, w);
    DivModUnique(c, w, q, t);
    DivModUnique(c + (w - 1 - t), w, q, w - 1);
    if t == w - 1 {
      MulDistributes(w, q, 1);
      DivModUnique(c + 1, w, q + 1, 0);
    }
  }

  lemma {:induction false} Rows(r: Rate, cnt: nat, m: nat)
    requires RateOk(r)
    ensures Risen(r, cnt, m * Period(r)) == m * RowSum(r.sel, 8)
    decreases m
  {
    hide Risen, RowSum, Period;
    if m == 0 {
      RisenFirst(r, cnt, 0);
    } else {
      var n := (m - 1) * Period(r);
      assert m * Period(r) == n + Period(r);
      Rows(r, cnt, m - 1);
      RisenAdd(r, cnt, n, Period(r));
      OneRow(r, CounterAfter(cnt, n));
    }
  }

  /** Rows 0 to 15 are the sums 4 to 7 doubled row group by row group; 16 to 18 are 8, 16 and 0 a step. */
  lemma RowSums(row: nat)
    requires row < 19
    ensures RowSum(8 * row, 8) == if row < 16 then (4 + row % 4) * Exp2(row / 4) else if row == 16 then 64
                                  else if row == 17 then 128 else 0
  {
    hide RowSum, EgInc;
    SumsTo(8 * row);
    RowTotal(row);
    RowEntry(row, 0);
    RowEntry(row, 1);
    RowEntry(row, 2);
    RowEntry(row, 3);
    RowEntry(row, 4);
    RowEntry(row, 5);
    RowEntry(row, 6);
    RowEntry(row, 7);
  }

  lemma SumsTo(sel: nat)
    requires sel <= 144
    ensures RowSum(sel, 8) == EgInc(sel) + EgInc(sel + 1) + EgInc(sel + 2) + EgInc(sel + 3) + EgInc(sel + 4)
                              + EgInc(sel + 5) + EgInc(sel + 6) + EgInc(sel + 7)
  {
    hide RowSum, EgInc;
    NoSum(sel);
    SumStep(sel, 0);
    SumStep(sel, 1);
    SumStep(sel, 2);
    SumStep(sel, 3);
    SumStep(sel, 4);
    SumStep(sel, 5);
    SumStep(sel, 6);
    SumStep(sel, 7);
  }

  lemma NoSum(sel: nat)
    requires sel <= 144
    ensures RowSum(sel, 0) == 0
  {
  }

  lemma RowEntry(row: nat, k: nat)
    requires row < 19 && k < 8
    ensures EgInc(8 * row + k) == EgIncRow(row)[k]
  {
    hide EgIncRow;
    DivModUnique(8 * row + k, 8, row, k);
  }

  lemma RowTotal(row: nat)
    requires row < 19
    ensures var x := EgIncRow(row);
            x[0] + x[1] + x[2] + x[3] + x[4] + x[5] + x[6] + x[7]
            == if row < 16 then (4 + row % 4) * Exp2(row / 4) else if row == 16 then 64 else if row == 17 then 128 else 0
  {
    Doublings();
  }

  lemma Doublings()
    ensures Exp2(0) == 1 && Exp2(1) == 2 && Exp2(2) == 4 && Exp2(3) == 8
  {
  }

  /** Four rates make an octave: rate i moves the volume by (4 + i % 4) * 2^((i - 32) / 4) in 2^14 ticks. */
  function Speed(rate: nat): nat
    requires rate < 128
  {
    if rate < 32 then 0
    else
      var i := if rate < 92 then rate else 92;
      (4 + i % 4) * Exp2((i - 32) / 4)
  }

  lemma RateLaw(rate: nat, cnt: nat)
    requires rate < 128
    ensures Risen(OtherRate(rate), cnt, 0x4000) == Speed(rate)
  {
    hide Risen, Exp2, OtherRate;
    PairOf(rate);
    if rate < 32 {
      SpeedIs(cnt, 18, 0);
    } else if rate < 80 {
      SpeedIs(cnt, rate % 4, 11 - (rate - 32) / 4);
      Doublings();
      Commuted(Exp2((rate - 32) / 4), 4 + rate % 4);
    } else if rate < 92 {
      SpeedIs(cnt, rate - 76, 0);
      ExpSum(11, (rate - 76) / 4);
      Octave(4 + rate % 4, Exp2((rate - 76) / 4), Exp2(11));
    } else {
      SpeedIs(cnt, 16, 0);
      Sixteen();
    }
  }

  lemma PairOf(rate: nat)
    requires rate < 128
    ensures OtherRate(rate) == if rate < 32 then Rate(0, 8 * 18) else if rate < 80 then Rate(11 - (rate - 32) / 4, 8 * (rate % 4))
                               else if rate < 92 then Rate(0, 8 * (rate - 76)) else Rate(0, 8 * 16)
  {
  }

  lemma Commuted(a: nat, b: nat)
    ensures a * (b * 1) == b * a
  {
  }

  /** A row at a shift. */
  lemma SpeedIs(cnt: nat, row: nat, sh: nat)
    requires row < 19 && sh <= 11
    ensures Risen(Rate(sh, 8 * row), cnt, 0x4000)
            == Exp2(11 - sh) * (if row < 16 then (4 + row % 4) * Exp2(row / 4) else if row == 16 then 64
                                else if row == 17 then 128 else 0)
  {
    hide Risen, RowSum, EgInc, Pow2, Exp2;
    var r := Rate(sh, 8 * row);
    Rows(r, cnt, Pow2(11 - sh));
    Periods(sh);
    Powers(11 - sh);
    RowSums(row);
  }

  lemma Periods(sh: nat)
    requires sh <= 11
    ensures Pow2(11 - sh) * (8 * Pow2(sh)) == 0x4000
  {
  }

  lemma Powers(n: nat)
    requires n <= 11
    ensures Pow2(n) == Exp2(n)
  {
    assert Exp2(4) == 16;
    assert Exp2(8) == 256;
  }

  lemma {:induction false} ExpSum(m: nat, n: nat)
    ensures Exp2(m + n) == Exp2(m) * Exp2(n)
  {
    if m > 0 {
      ExpSum(m - 1, n);
      Octave(2, Exp2(m - 1), Exp2(n));
    }
  }

  lemma Octave(a: nat, b: nat, c: nat)
    ensures a * b * c == a * (c * b)
  {
  }

  lemma Sixteen()
    ensures 64 * Exp2(11) == 4 * Exp2(15)
  {
    assert Exp2(15) == 16 * Exp2(11);
  }

  /** Where in its row an increment is the larger one: nowhere, in one place of four, in every other, in all but one of four. */
  predicate Larger(j: nat, k: nat) {
    if j == 0 then false else if j == 1 then k % 4 == 3 else if j == 2 then k % 2 == 1 else k % 4 != 0
  }

  /** The first four rows add one on every odd step and, row by row, on none, one, two and three of the even ones. */
  lemma FirstRows(row: nat, k: nat)
    requires row < 4 && k < 8
    ensures EgIncRow(row)[k] == if k % 2 == 1 then 1 else if row == 0 then 0 else if row == 1 then (if k == 4 then 1 else 0)
                                else if row == 2 then (if k % 4 == 2 then 1 else 0) else if k == 0 then 0 else 1
  {
  }

  /** Rows from 4 on hold one power of two or the next, in a pattern that repeats every four rows. */
  lemma RowShape(row: nat, k: nat)
    requires 4 <= row < 16 && k < 8
    ensures EgIncRow(row)[k] == Exp2(row / 4 - 1) * if Larger(row % 4, k) then 2 else 1
  {
    Doublings();
    if row < 8 {
      ShapeAt(row, k, 1);
    } else if row < 12 {
      ShapeAt(row, k, 2);
    } else {
      ShapeAt(row, k, 4);
    }
  }

  lemma ShapeAt(row: nat, k: nat, unit: nat)
    requires 4 <= row < 16 && k < 8 && unit == if row < 8 then 1 else if row < 12 then 2 else 4
    ensures EgIncRow(row)[k] == unit * if Larger(row % 4, k) then 2 else 1
  {
  }

  // ---------------------------------------------------------------- what the programmed rates make of an operator

  /** The rate a programmed value comes to with the key scaling. */
  function Scaled(op: Operator, rate: nat): nat
    requires Ticking(op)
  {
    rate + KeyScale(op.pitch.kc, op.rates.ks)
  }

  /** The key scaling is the key code's part above 2^ks. */
  lemma KeyScaleIs(kc: nat, ks: nat)
    requires ks <= 5
    ensures KeyScale(kc, ks) * Exp2(ks) <= kc < KeyScale(kc, ks) * Exp2(ks) + Exp2(ks)
  {
    Doublings();
    assert Exp2(4) == 16 && Exp2(5) == 32;
  }

  lemma ScaledRates(op: Operator)
    requires Ticking(op)
    ensures Scaled(op, op.rates.d2r) < 128 && Scaled(op, op.rates.rr) < 128 && Scaled(op, op.rates.ar) < 128
    ensures op.rates.egD2r == OtherRate(Scaled(op, op.rates.d2r)) && op.rates.egRr == OtherRate(Scaled(op, op.rates.rr))
    ensures op.rates.egAr == AttackRate(Scaled(op, op.rates.ar))
    ensures op.rates.d2r == 0 ==> Scaled(op, op.rates.d2r) < 32
  {
    hide OtherRate, AttackRate;
  }

  /** In 2^14 ticks sustain and release raise the volume by exactly the speed of their programmed rate. */
  lemma FadeSpeed(op: Operator, cnt: nat)
    requires Ticking(op) && (op.env.state == EG_SUS || op.env.state == EG_REL) && op.env.volume < 1023
    ensures var rate := Scaled(op, if op.env.state == EG_SUS then op.rates.d2r else op.rates.rr);
            rate < 128 && Ticks(op, cnt, 0x4000).env.volume == Least(1023, op.env.volume + Speed(rate))
  {
    hide Ticking, Tick, Ticks, Risen, Speed, OtherRate, Scaled;
    var rate := Scaled(op, if op.env.state == EG_SUS then op.rates.d2r else op.rates.rr);
    ScaledRates(op);
    assert OwnPair(op) == OtherRate(rate);
    FadeExact(op, cnt, 0x4000);
    RateLaw(rate, cnt);
  }

  /** A sustained note whose D2R is 0 keeps its volume for any number of ticks, whatever its release rate. */
  lemma {:induction false} SustainHolds(op: Operator, cnt: nat, n: nat)
    requires Ticking(op) && op.env.state == EG_SUS && op.rates.d2r == 0
    ensures Ticks(op, cnt, n).env.volume == op.env.volume
    ensures op.env.volume < 1023 ==> Ticks(op, cnt, n) == op
    decreases n
  {
    hide Tick, Ticking;
    if n > 0 {
      var c := U32(cnt + 1);
      NothingRises(op, c);
      if op.env.volume < 1023 {
        SustainHolds(op, c, n - 1);
      } else {
        OffStaysOff(Tick(op, c), c, n - 1);
      }
    }
  }

  lemma NothingRises(op: Operator, cnt: nat)
    requires Ticking(op) && op.env.state == EG_SUS && op.rates.d2r == 0
    ensures var op' := Tick(op, cnt);
            if op.env.volume < 1023 then op' == op
            else op' == op.(env := op.env.(state := EG_OFF)) && Ticking(op') && op'.env.volume == 1023
  {
    hide Scaled, EgInc, EgIncRow;
    ScaledRates(op);
    RiseIs(op.rates.egD2r, cnt);
    PairOf(Scaled(op, 0));
    RowEntry(18, cnt % 8);
    LastRow(cnt % 8);
    TickSustain(op, cnt);
  }

  lemma LastRow(k: nat)
    requires k < 8
    ensures EgIncRow(18)[k] == 0
  {
  }

  /** A rate of 94 or more attacks at once: the key going down takes any volume to 0. */
  lemma FastAttack(op: Operator, keySet: nat, cnt: nat)
    requires Ticking(op) && (keySet == 1 || keySet == 2) && op.env.key == 0 && Scaled(op, op.rates.ar) >= 94
    ensures var e := KeyOn(op, keySet, cnt).env; e.volume == 0 && e.state == EG_DEC
  {
    hide EgInc, EgIncRow, Scaled;
    ScaledRates(op);
    RowEntry(17, cnt % 8);
    SixteenEach(cnt % 8);
    AttackLaw(op.env.(state := EG_ATT), 16);
  }

  lemma SixteenEach(k: nat)
    requires k < 8
    ensures EgIncRow(17)[k] == 16
  {
  }

  /** Below that the attack goes at the same increments as a fade of that rate. */
  lemma SlowAttack(op: Operator)
    requires Ticking(op) && Scaled(op, op.rates.ar) < 94
    ensures op.rates.egAr == OtherRate(Scaled(op, op.rates.ar))
  {
    ScaledRates(op);
  }

  /** Keying one of the two bits leaves the other as it was. */
  lemma OtherKeyBit(key: nat, bit: nat)
    requires (bit == 1 || bit == 2) && key < 4
    ensures OrBit(key, bit) / (3 - bit) % 2 == ClearBit(key, bit) / (3 - bit) % 2 == key / (3 - bit) % 2
    ensures OrBit(key, bit) < 4 && ClearBit(key, bit) < 4
  {
  }

  /** A note that is held with a second decay rate of 0 in its register keeps its volume. */
  lemma HeldNote(t: Tables, op: Operator, w: View, cnt: nat, n: nat)
    requires t.Ok() && OperatorOk(t, op, w) && w.ksSet && EnvelopeOk(op.env)
    requires op.env.state == EG_SUS && w.dt2D2r % 32 == 0
    ensures Ticks(op, cnt, n).env.volume == op.env.volume
  {
    SustainHolds(op, cnt, n);
  }
}
