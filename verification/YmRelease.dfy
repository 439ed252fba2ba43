/** A released operator falls silent: bounded liveness of the envelope generator. */
module YmRelease {
  import opened YmTables
  import opened YmOperator
  import opened YmRegisters

  lemma {:induction false} TicksAdd(op: Operator, cnt: nat, m: nat, n: nat)
    requires Ticking(op)
    ensures Ticks(op, cnt, m + n) == Ticks(Ticks(op, cnt, m), CounterAfter(cnt, m), n)
    decreases m
  {
    hide Ticking, Tick;
    if m > 0 {
      TicksAdd(Tick(op, U32(cnt + 1)), U32(cnt + 1), m - 1, n);
    }
  }

  lemma {:induction false} OffStaysOff(op: Operator, cnt: nat, n: nat)
    requires Ticking(op) && op.env.state == EG_OFF
    ensures Ticks(op, cnt, n) == op
    decreases n
  {
    if n > 0 {
      assert Tick(op, U32(cnt + 1)) == op;
      OffStaysOff(op, U32(cnt + 1), n - 1);
    }
  }

  /** The release pair of every reachable operator: rr maps to at least rate 34. */
  ghost predicate Releasing(op: Operator) {
    Ticking(op) && 34 <= op.rates.rr && op.env.state == EG_REL
  }

  lemma ReleaseRow(op: Operator)
    requires Ticking(op) && 34 <= op.rates.rr
    ensures op.rates.egRr.sh <= 11 && op.rates.egRr.sel < 136
  {
    assert op.rates.egRr == OtherRate(op.rates.rr + KeyScale(op.pitch.kc, op.rates.ks));
  }

  /** One tick of a released operator: due on multiples of 2^sh, and a real step on odd ones. */
  lemma ReleaseTick(op: Operator, cnt: nat)
    requires Releasing(op)
    ensures var op', p := Tick(op, cnt), Pow2(op.rates.egRr.sh);
            && (Releasing(op') || op'.env.state == EG_OFF)
            && op'.rates == op.rates
            && op.env.volume <= op'.env.volume
            && (cnt % (2 * p) == p && op'.env.state != EG_OFF ==> op.env.volume < op'.env.volume)
  {
    ReleaseRow(op);
    var r := op.rates.egRr;
    var p := Pow2(r.sh);
    if cnt % (2 * p) == p {
      OddStep(cnt, p);
      assert Due(r, cnt) && 1 <= IncAt(r, cnt);
    }
  }

  lemma OddStep(cnt: nat, p: nat)
    requires 0 < p && cnt % (2 * p) == p
    ensures cnt % p == 0 && cnt / p % 2 == 1
  {
    var k := cnt / (2 * p);
    assert cnt == 2 * p * k + p == p * (2 * k + 1);
    DivExact(p, 2 * k + 1);
  }

  lemma DivExact(p: nat, q: nat)
    requires 0 < p
    ensures p * q % p == 0 && p * q / p == q
  {
    DivModUnique(p * q, p, q, 0);
  }

  predicate IsPeriod(p: nat) {
    p in {1, 2, 4, 8, 16, 32, 64, 128, 256, 512, 1024, 2048, 4096, 8192}
  }

  /** The counter wraps at 2^32, a multiple of the period 2^(sh + 1). */
  lemma PeriodSurvivesWrap(x: nat, p: nat)
    requires IsPeriod(p)
    ensures U32(x) % (2 * p) == x % (2 * p)
  {
    PeriodsAway(U32(x), x / TWO32, p);
    assert x == U32(x) + TWO32 * (x / TWO32);
  }

  lemma Pow2Values(sh: nat)
    requires sh <= 11
    ensures IsPeriod(Pow2(sh))
  {
  }

  /** The d-th tick from here is an odd step: by then the operator is off or its volume has moved. */
  lemma {:induction false} ReleaseProgress(op: Operator, cnt: nat, d: nat)
    requires Releasing(op) && 1 <= d
    requires (cnt + d) % (2 * Pow2(op.rates.egRr.sh)) == Pow2(op.rates.egRr.sh)
    ensures var op' := Ticks(op, cnt, d);
            op'.env.state == EG_OFF || (Releasing(op') && op.env.volume < op'.env.volume)
    ensures Ticks(op, cnt, d).rates == op.rates
    decreases d
  {
    hide Tick, Pow2, U32;
    var p := Pow2(op.rates.egRr.sh);
    var next := U32(cnt + 1);
    ReleaseRow(op);
    Pow2Values(op.rates.egRr.sh);
    ReleaseTick(op, next);
    var op1 := Tick(op, next);
    assert Ticks(op, cnt, d) == Ticks(op1, next, d - 1);
    if d == 1 {
      PeriodSurvivesWrap(cnt + 1, p);
    } else if op1.env.state == EG_OFF {
      OffStaysOff(op1, next, d - 1);
    } else {
      NextDistance(cnt, d, p);
      ReleaseProgress(op1, next, d - 1);
    }
  }

  lemma NextDistance(cnt: nat, d: nat, p: nat)
    requires 1 < d && IsPeriod(p)
    ensures (U32(cnt + 1) + (d - 1)) % (2 * p) == (cnt + d) % (2 * p)
  {
    var k := (cnt + 1) / TWO32;
    assert cnt + 1 == TWO32 * k + U32(cnt + 1);
    assert cnt + d == U32(cnt + 1) + (d - 1) + TWO32 * k;
    PeriodsAway(U32(cnt + 1) + (d - 1), k, p);
  }

  lemma PeriodsAway(x: nat, k: nat, p: nat)
    requires IsPeriod(p)
    ensures (x + TWO32 * k) % (2 * p) == x % (2 * p)
  {
    PeriodDivides(p);
    hide IsPeriod;
    var m := 2 * p;
    var t := TWO32 / m;
    assert TWO32 * k == m * (t * k) by { MulAssoc(m, t, k); }
    assert x + m * (t * k) == m * (x / m + t * k) + x % m by { MulDistributes(m, x / m, t * k); }
    DivModUnique(x + TWO32 * k, m, x / m + t * k, x % m);
  }

  lemma PeriodDivides(p: nat)
    requires IsPeriod(p)
    ensures 0 < p && 2 * p * (TWO32 / (2 * p)) == TWO32
  {
  }

  lemma MulAssoc(a: nat, b: nat, c: nat)
    ensures a * b * c == a * (b * c)
  {
  }

  lemma MulDistributes(a: nat, b: nat, c: nat)
    ensures a * b + a * c == a * (b + c)
  {
  }

  lemma DivModUnique(n: nat, m: nat, q: nat, r: nat)
    requires 0 < m && n == m * q + r && r < m
    ensures n % m == r && n / m == q
  {
    var e := n / m - q;
    assert n == m * (n / m) + n % m;
    assert m * e == r - n % m by { MulSubtracts(m, n / m, q); }
    if e >= 1 {
      MulAtLeast(m, e);
    } else if e <= -1 {
      MulAtLeast(m, -e);
      MulSubtracts(m, n / m, q);
    }
  }

  lemma MulSubtracts(a: int, b: int, c: int)
    ensures a * (b - c) == a * b - a * c && a * -(b - c) == -(a * (b - c))
  {
  }

  lemma MulAtLeast(m: nat, e: int)
    requires 1 <= e
    ensures m <= m * e
  {
  }

  /**
   Once released, an operator reaches EG_OFF within (1024 - volume) * 2^(eg_sh_rr + 1) envelope
   ticks and stays there, whatever the counter stands at, its wrap at 2^32 included.
   */
  lemma {:induction false} ReleaseEnds(op: Operator, cnt: nat, n: nat)
    requires Releasing(op)
    requires (1024 - op.env.volume) * (2 * Pow2(op.rates.egRr.sh)) <= n
    ensures Ticks(op, cnt, n).env.state == EG_OFF
    decreases n
  {
    hide Pow2, Ticking, Tick, Ticks, U32, CounterAfter;
    ReleaseRow(op);
    var p := Pow2(op.rates.egRr.sh);
    var d := NextOdd(cnt, p);
    var op1 := Ticks(op, cnt, d);
    var cnt1 := CounterAfter(cnt, d);
    ReleaseProgress(op, cnt, d);
    VolumeLeft(op, p);
    TicksAdd(op, cnt, d, n - d);
    if op1.env.state == EG_OFF {
      OffStaysOff(op1, cnt1, n - d);
    } else {
      FewerLeft(1024 - op1.env.volume, 1024 - op.env.volume, 2 * p);
      ReleaseEnds(op1, cnt1, n - d);
    }
  }

  lemma VolumeLeft(op: Operator, p: nat)
    requires Ticking(op)
    ensures var left := 1024 - op.env.volume; 1 <= left && 2 * p <= left * (2 * p)
  {
  }

  lemma FewerLeft(left1: int, left: int, m: nat)
    requires left1 + 1 <= left
    ensures left1 * m + m <= left * m
  {
    assert (left1 + 1) * m <= left * m;
  }

  /** How many ticks until the counter is next an odd multiple of p. */
  lemma NextOdd(cnt: nat, p: nat) returns (d: nat)
    requires 1 <= p
    ensures 1 <= d <= 2 * p && (cnt + d) % (2 * p) == p
  {
    var m := 2 * p;
    var q, r := QuotientRemainder(cnt, m);
    if r < p {
      d := p - r;
      DivModUnique(cnt + d, m, q, p);
    } else {
      d := 3 * p - r;
      MulDistributes(m, q, 1);
      DivModUnique(cnt + d, m, q + 1, p);
    }
  }

  lemma QuotientRemainder(n: nat, m: nat) returns (q: nat, r: nat)
    requires 1 <= m
    ensures n == m * q + r && r < m
  {
    q, r := n / m, n % m;
  }

  /** The same for an operator as the registers of a chip that has been reset program it. */
  lemma ReleasedOperatorFallsSilent(t: Tables, op: Operator, w: View, cnt: nat, n: nat)
    requires t.Ok() && OperatorOk(t, op, w) && w.ksSet && w.rrSet && EnvelopeOk(op.env)
    requires op.env.state == EG_REL
    requires (1024 - op.env.volume) * (2 * Pow2(op.rates.egRr.sh)) <= n
    ensures Ticks(op, cnt, n).env == op.env.(state := EG_OFF, volume := MAX_ATT_INDEX)
  {
    ReleaseEnds(op, cnt, n);
    TicksKeepKey(op, cnt, n);
  }

  lemma {:induction false} TicksKeepKey(op: Operator, cnt: nat, n: nat)
    requires Ticking(op)
    ensures Ticks(op, cnt, n).env.key == op.env.key
    decreases n
  {
    hide Ticking, Tick;
    if n > 0 {
      TicksKeepKey(Tick(op, U32(cnt + 1)), U32(cnt + 1), n - 1);
    }
  }
}
