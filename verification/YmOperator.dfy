/** One FM operator of the YM2151: its programmed fields, the fields derived from them, its envelope. */
module YmOperator {
  import opened YmTables

  const TWO32: int := 0x1_0000_0000

  /** Envelope states, lowest first, as the comparison `state > EG_REL` needs. */
  const EG_OFF: nat := 0
  const EG_REL: nat := 1
  const EG_SUS: nat := 2
  const EG_DEC: nat := 3
  const EG_ATT: nat := 4

  /** The pitch fields: kc, kcI, dt1I, dt2 and mul are programmed, dt1 and freq are cached. */
  datatype Pitch = Pitch(kc: nat, kcI: nat, dt1I: nat, dt2: nat, mul: nat, dt1: int, freq: nat)

  /** A cached pair: the counter shift and the offset into eg_inc of one envelope phase. */
  datatype Rate = Rate(sh: nat, sel: nat)

  /** The rate fields: ks, ar, d1r, d2r and rr are programmed, the four pairs are cached. */
  datatype Rates = Rates(ks: nat, ar: nat, d1r: nat, d2r: nat, rr: nat,
                         egAr: Rate, egD1r: Rate, egD2r: Rate, egRr: Rate)

  datatype Envelope = Envelope(state: nat, volume: int, key: nat)

  /** struct ym2151_operator without the fields only an M1 uses. */
  datatype Operator = Operator(phase: nat, pitch: Pitch, rates: Rates, env: Envelope,
                               tl: nat, d1l: nat, amMask: bool)

  // ---------------------------------------------------------------- derived fields

  function U32(x: int): (u: nat)
    ensures u < TWO32
  {
    x % TWO32
  }

  /** The phase step at table index i: ((freq[i] + dt1) * mul) >> 1 in 32-bit arithmetic. */
  function StepAt(t: Tables, i: nat, dt1: int, mul: nat): nat
    requires t.Ok() && i < FREQ_ENTRIES
  {
    U32(U32(t.freq[i] + dt1) * mul) / 2
  }

  /** What every write to ar, ks or kc has to leave in eg_sh_ar and eg_sel_ar. */
  function AttackRate(rate: nat): (r: Rate)
    requires rate < 128
    ensures RateOk(r)
  {
    if rate < 32 + 62 then Rate(EgRateShift(rate), EgRateSelect(rate)) else Rate(0, 17 * RATE_STEPS)
  }

  function OtherRate(rate: nat): (r: Rate)
    requires rate < 128
    ensures RateOk(r)
    ensures 32 <= rate ==> r.sel < 136
  {
    Rate(EgRateShift(rate), EgRateSelect(rate))
  }

  predicate RateOk(r: Rate) {
    r.sh <= 11 && r.sel <= 144 && r.sel % 8 == 0
  }

  /** kc >> ks */
  function KeyScale(kc: nat, ks: nat): (v: nat)
    requires ks <= 5
    ensures v <= kc
    ensures kc < 128 && 2 <= ks ==> v <= 31
  {
    kc / [1, 2, 4, 8, 16, 32][ks]
  }

  /** dt1 and freq equal recomputation from the programmed pitch fields. */
  ghost predicate PitchFresh(t: Tables, p: Pitch)
    requires t.Ok()
  {
    && PitchInRange(p)
    && p.dt1 == t.dt1[p.dt1I + p.kc / 4]
    && p.freq == StepAt(t, p.kcI + p.dt2, p.dt1, p.mul)
  }

  ghost predicate PitchInRange(p: Pitch) {
    p.kc < 128 && 768 <= p.kcI <= 6975 && p.dt2 <= 608 && p.dt1I % 32 == 0 && p.dt1I < 256
  }

  /** All the cached rate pairs equal recomputation from kc, ks and the programmed rates. */
  ghost predicate RatesFresh(kc: nat, r: Rates)
    requires RatesInRange(kc, r)
  {
    var v := KeyScale(kc, r.ks);
    && r.egAr == AttackRate(r.ar + v)
    && r.egD1r == OtherRate(r.d1r + v)
    && r.egD2r == OtherRate(r.d2r + v)
    && r.egRr == OtherRate(r.rr + v)
  }

  /**
   The ranges that keep every lookup `rate + (kc >> ks)` inside the 128 entries. Only a reset
   leaves ks = 0, and then kc is 0.
   */
  ghost predicate RatesInRange(kc: nat, r: Rates) {
    && (2 <= r.ks <= 5 || r.ks == 0 == kc) && kc < 128
    && r.ar <= 94 && r.d1r <= 94 && r.d2r <= 94 && r.rr <= 94
    && RateOk(r.egAr) && RateOk(r.egD1r) && RateOk(r.egD2r) && RateOk(r.egRr)
  }

  /** The part of refresh_EG (ym2151.c:585-658) that concerns one operator. */
  function RefreshEg(kc: nat, r: Rates): (r': Rates)
    requires RatesInRange(kc, r)
    ensures RatesInRange(kc, r') && RatesFresh(kc, r')
    ensures (r'.ks, r'.ar, r'.d1r, r'.d2r, r'.rr) == (r.ks, r.ar, r.d1r, r.d2r, r.rr)
  {
    var v := KeyScale(kc, r.ks);
    r.(egAr := AttackRate(r.ar + v), egD1r := OtherRate(r.d1r + v),
       egD2r := OtherRate(r.d2r + v), egRr := OtherRate(r.rr + v))
  }

  // ---------------------------------------------------------------- envelope

  /** The invariant of every envelope in every run from reset. */
  ghost predicate EnvelopeOk(e: Envelope) {
    && e.state <= EG_ATT
    && 0 <= e.volume <= MAX_ATT_INDEX
    && (e.state == EG_OFF ==> e.volume == MAX_ATT_INDEX)
    && (e.key == 0 ==> e.state <= EG_REL)
    && (e.state == EG_DEC ==> e.volume < 992)
  }

  /** x >> 4 of a signed x, and ~volume * inc in that place. */
  function AttackStep(volume: int, inc: nat): int {
    volume + (-(volume + 1) * inc) / 16
  }

  lemma AttackStepBounds(volume: int, inc: nat)
    requires 0 <= volume <= MAX_ATT_INDEX && inc <= 16
    ensures -1 <= AttackStep(volume, inc) <= volume
  {
    assert 0 <= (volume + 1) * inc <= (volume + 1) * 16;
  }

  function IncAt(r: Rate, cnt: nat): (inc: nat)
    requires RateOk(r)
    ensures inc <= 16
    ensures r.sel != 136 ==> inc <= 8
    ensures r.sel < 136 && cnt / Pow2(r.sh) % 2 == 1 ==> 1 <= inc
  {
    RowOffset(r.sel, cnt / Pow2(r.sh));
    EgInc(r.sel + cnt / Pow2(r.sh) % 8)
  }

  lemma RowOffset(sel: nat, q: nat)
    requires sel % 8 == 0
    ensures (sel + q % 8) % 2 == q % 2
    ensures sel != 136 && sel <= 144 ==> sel + q % 8 < 136 || 144 <= sel + q % 8 < 152
  {
  }

  function Pow2(n: nat): (p: nat)
    requires n <= 11
    ensures 1 <= p <= 2048
  {
    [1, 2, 4, 8, 16, 32, 64, 128, 256, 512, 1024, 2048][n]
  }

  /** The attack update KEY_ON and the attack phase share. */
  function Attack(e: Envelope, inc: nat): (e': Envelope)
    requires 0 <= e.volume <= MAX_ATT_INDEX && inc <= 16
    ensures 0 <= e'.volume <= e.volume && e'.key == e.key
    ensures e'.state == e.state || (e'.state == EG_DEC && e'.volume == 0)
  {
    AttackStepBounds(e.volume, inc);
    var volume := AttackStep(e.volume, inc);
    if volume <= 0 then e.(volume := 0, state := EG_DEC) else e.(volume := volume)
  }

  /** KEY_ON(op, keySet): `|=` of a key bit that may or may not be set already. */
  function KeyOn(op: Operator, keySet: nat, cnt: nat): (op': Operator)
    requires EnvelopeOk(op.env) && RateOk(op.rates.egAr) && (keySet == 1 || keySet == 2)
    ensures EnvelopeOk(op'.env) && op'.env.key == OrBit(op.env.key, keySet) && op'.env.key != 0
    ensures op.env.key != 0 ==> op' == op.(env := op.env.(key := OrBit(op.env.key, keySet)))
    ensures op.env.key == 0 ==>
              op'.phase == 0 && (op'.env.state == EG_ATT || (op'.env.state == EG_DEC && op'.env.volume == 0))
    ensures op'.env.volume <= op.env.volume
    ensures (op'.pitch, op'.rates, op'.tl, op'.d1l, op'.amMask) == (op.pitch, op.rates, op.tl, op.d1l, op.amMask)
  {
    var op1 :=
      if op.env.key == 0 then
        op.(phase := 0, env := Attack(op.env.(state := EG_ATT), IncAt(op.rates.egAr, cnt)))
      else op;
    op1.(env := op1.env.(key := OrBit(op1.env.key, keySet)))
  }

  /** KEY_OFF(op, ~keyClear) */
  function KeyOff(op: Operator, keyClear: nat): (op': Operator)
    requires EnvelopeOk(op.env) && (keyClear == 1 || keyClear == 2)
    ensures EnvelopeOk(op'.env) && op'.env.key == ClearBit(op.env.key, keyClear)
    ensures op' == op.(env := op'.env) && op'.env.volume == op.env.volume
    ensures op'.env.state ==
            if op.env.key != 0 && op'.env.key == 0 && op.env.state > EG_REL then EG_REL else op.env.state
  {
    if op.env.key != 0 then
      var key := ClearBit(op.env.key, keyClear);
      var state := if key == 0 && op.env.state > EG_REL then EG_REL else op.env.state;
      op.(env := op.env.(key := key, state := state))
    else op
  }

  function OrBit(key: nat, bit: nat): (k: nat)
    requires bit == 1 || bit == 2
    ensures k / bit % 2 == 1
  {
    if key / bit % 2 == 1 then key else key + bit
  }

  function ClearBit(key: nat, bit: nat): (k: nat)
    requires bit == 1 || bit == 2
    ensures k / bit % 2 == 0
  {
    if key / bit % 2 == 1 then key - bit else key
  }

  /** !(cnt & ((1 << sh) - 1)) */
  predicate Due(r: Rate, cnt: nat)
    requires r.sh <= 11
  {
    cnt % Pow2(r.sh) == 0
  }

  /** What Tick asks of an operator, which no tick changes. */
  ghost predicate Ticking(op: Operator) {
    && EnvelopeOk(op.env) && op.d1l <= 992
    && RatesInRange(op.pitch.kc, op.rates) && RatesFresh(op.pitch.kc, op.rates)
  }

  /** One pass of the switch in advance_eg, ym2151.c:1331-1378. */
  function Tick(op: Operator, cnt: nat): (op': Operator)
    requires Ticking(op)
    ensures Ticking(op') && op' == op.(env := op'.env) && op'.env.key == op.env.key
    ensures op.env.state == EG_ATT ==> op'.env.volume <= op.env.volume
    ensures op.env.state != EG_ATT ==> op.env.volume <= op'.env.volume
    ensures op'.env.state <= op.env.state
  {
    var e, r := op.env, op.rates;
    assert r.egD1r.sel != 136 && r.egD2r.sel != 136 && r.egRr.sel != 136;
    var e' :=
      if e.state == EG_ATT && Due(r.egAr, cnt) then
        Attack(e, IncAt(r.egAr, cnt))
      else if e.state == EG_DEC && Due(r.egD1r, cnt) then
        var volume := e.volume + IncAt(r.egD1r, cnt);
        e.(volume := volume, state := if volume >= op.d1l then EG_SUS else EG_DEC)
      else if e.state == EG_SUS && Due(r.egD2r, cnt) then
        Fade(e, IncAt(r.egD2r, cnt))
      else if e.state == EG_REL && Due(r.egRr, cnt) then
        Fade(e, IncAt(r.egRr, cnt))
      else e;
    op.(env := e')
  }

  /** Sustain and release: clamp and switch off at the top. */
  function Fade(e: Envelope, inc: nat): Envelope {
    var volume := e.volume + inc;
    if volume >= MAX_ATT_INDEX then e.(volume := MAX_ATT_INDEX, state := EG_OFF) else e.(volume := volume)
  }

  /** eg_cnt after n increments of the 32-bit counter. */
  function CounterAfter(cnt: nat, n: nat): nat
    decreases n
  {
    if n == 0 then cnt else CounterAfter(U32(cnt + 1), n - 1)
  }

  /** n envelope ticks, the counter standing at cnt before the first. */
  function Ticks(op: Operator, cnt: nat, n: nat): (op': Operator)
    requires Ticking(op)
    ensures Ticking(op') && op' == op.(env := op'.env)
    decreases n
  {
    if n == 0 then op else Ticks(Tick(op, U32(cnt + 1)), U32(cnt + 1), n - 1)
  }
}
