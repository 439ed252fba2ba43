/** What each register field and each generator of the YM2151 comes to, stated on the fields of the written bytes. */
module YmLaws {
  import opened Bits
  import opened YmTables
  import opened YmOperator
  import opened YmRegisters
  import opened YmDiagram
  import opened YmLfo
  import opened Ym2151
  import opened YmRelease
  import opened YmEnvelope

  // ---------------------------------------------------------------- bytes built from their fields

  /** DT1 and MUL. */
  lemma Dt1MulFields(top: nat, dt1: nat, mul: nat)
    requires top < 2 && dt1 < 8 && mul < 16
    ensures var v := 128 * top + 16 * dt1 + mul;
            Dt1IndexOf(v) == 32 * dt1 && MulOf(v) == if mul == 0 then 1 else 2 * mul
  {
  }

  /** KS above AR, and the rates in the same place of the next two banks. */
  lemma RateFields(ks: nat, gap: nat, rate: nat)
    requires ks < 4 && gap < 2 && rate < 32
    ensures var v := 64 * ks + 32 * gap + rate;
            KsOf(v) == 5 - ks && RateOf(v) == if rate == 0 then 0 else 32 + 2 * rate
  {
  }

  /** D1L above RR; D1L is 3 dB a step and all bits set are 93 dB. */
  lemma ReleaseFields(d1l: nat, rr: nat)
    requires d1l < 16 && rr < 16
    ensures var v := 16 * d1l + rr;
            ReleaseOf(v) == 34 + 4 * rr && D1l(v / 16) == 32 * if d1l == 15 then 31 else d1l
  {
  }

  /** Both speaker bits, feedback and algorithm. */
  lemma ConnectionFields(speakers: nat, fb: nat, alg: nat)
    requires speakers < 4 && fb < 8 && alg < 8
    ensures var v := 64 * speakers + 8 * fb + alg;
            FeedbackOf(v) == (if fb == 0 then 0 else fb + 6) && v % 8 == alg
  {
  }

  /** The key register: the channel, then M1, C1, M2 and C2 from bit 3 up; operators are kept in the order M1, M2, C1, C2. */
  lemma KeyFields(channel: nat, m1: nat, c1: nat, m2: nat, c2: nat)
    requires channel < 8 && m1 < 2 && c1 < 2 && m2 < 2 && c2 < 2
    ensures var v := channel + 8 * m1 + 16 * c1 + 32 * m2 + 64 * c2;
            && v % 8 == channel && KeyBit(v, 0) == (m1 == 1) && KeyBit(v, 1) == (m2 == 1)
            && KeyBit(v, 2) == (c1 == 1) && KeyBit(v, 3) == (c2 == 1)
  {
    var v := channel + 8 * m1 + 16 * c1 + 32 * m2 + 64 * c2;
    DivModUnique(v, 8, m1 + 2 * c1 + 4 * m2 + 8 * c2, channel);
    DivModUnique(v, 0x10, c1 + 2 * m2 + 4 * c2, channel + 8 * m1);
    DivModUnique(v, 0x20, m2 + 2 * c2, channel + 8 * m1 + 16 * c1);
    DivModUnique(v, 0x40, c2, channel + 8 * m1 + 16 * c1 + 32 * m2);
  }

  /** The LFO runs at a speed that doubles with every step of the high half of its frequency register. */
  lemma LfoSpeed(l: Lfo, exponent: nat, mantissa: nat)
    requires exponent < 16 && mantissa < 16
    ensures var r := LfoWritten(l, 0x18, 16 * exponent + mantissa);
            r.overflow * Exp2(exponent) == 0x1000_0000 && r.counterAdd == 16 + mantissa
  {
    hide Exp2, LfoWritten;
    LfoRegister(l, exponent, mantissa);
    ExpSum(18 - exponent, exponent);
    Millions();
    Octave(Exp2(18 - exponent), 0x400, Exp2(exponent));
  }

  lemma LfoRegister(l: Lfo, exponent: nat, mantissa: nat)
    requires exponent < 16 && mantissa < 16
    ensures LfoWritten(l, 0x18, 16 * exponent + mantissa)
            == l.(overflow := Exp2(18 - exponent) * 0x400, counterAdd := 16 + mantissa)
  {
    hide Exp2;
    DivModUnique(16 * exponent + mantissa, 16, exponent, mantissa);
  }

  lemma Millions()
    ensures Exp2(18) == 0x4_0000
  {
    assert Exp2(9) == 512;
  }

  /** The wave select takes the low two bits. */
  lemma LfoWave(l: Lfo, top: nat, wave: nat)
    requires top < 64 && wave < 4
    ensures LfoWritten(l, 0x1b, 4 * top + wave) == l.(wsel := wave)
  {
  }

  /** Test bit 1 takes the phase to 0. */
  lemma LfoTest(l: Lfo, top: nat, bit: nat, low: nat)
    requires top < 64 && bit < 2 && low < 2
    ensures var v := 4 * top + 2 * bit + low;
            LfoWritten(l, 0x01, v) == l.(test := v, phase := if bit == 1 then 0 else l.phase)
  {
    DivModUnique(4 * top + 2 * bit + low, 2, 2 * top + bit, low);
  }

  /** One register holds both depths, the top bit says which. */
  lemma LfoDepths(l: Lfo, pm: bool, depth: nat)
    requires depth < 128
    ensures LfoWritten(l, 0x19, depth + if pm then 128 else 0) == if pm then l.(pmd := depth) else l.(amd := depth)
  {
  }

  // ---------------------------------------------------------------- the register map

  /**
   Operator k of a channel (M1, M2, C1, C2) goes by the channel's key code and fraction and by the same
   slot of the six banks: DT1 and MUL, TL, KS and AR, AM and D1R, DT2 and D2R, D1L and RR.
   */
  lemma RegisterMap(regs: Registers, channel: nat, k: nat)
    requires channel < 8 && k < 4
    ensures var w, slot := ViewOf(regs, 0x100, 4 * channel + k), 8 * k + channel;
            && w.kc == regs[0x28 + channel] && w.kf == regs[0x30 + channel]
            && w.dt1Mul == regs[0x40 + slot] && w.level == regs[0x60 + slot] && w.ksAr == regs[0x80 + slot]
            && w.amD1r == regs[0xa0 + slot] && w.dt2D2r == regs[0xc0 + slot] && w.d1lRr == regs[0xe0 + slot]
            && w.mulSet && w.ksSet && w.rrSet
  {
    hide Slot;
    SlotIs(channel, k);
  }

  lemma SlotIs(channel: nat, k: nat)
    requires channel < 8 && k < 4
    ensures (4 * channel + k) / 4 == channel && Slot(4 * channel + k) == 8 * k + channel
  {
    DivModUnique(4 * channel + k, 4, channel, k);
  }

  /** The pitch that follows: a key code's detune row, and the step at the key's place plus detune 2. */
  lemma PitchOfRegisters(t: Tables, op: Operator, w: View)
    requires t.Ok() && OperatorOk(t, op, w) && w.mulSet
    ensures var p, code := op.pitch, w.kc % 128;
            && p.dt1 == t.dt1[32 * (w.dt1Mul / 16 % 8) + code / 4]
            && p.freq == StepAt(t, KcIndex(code, w.kf / 4) + Dt2(w.dt2D2r / 64), p.dt1, MulOf(w.dt1Mul))
  {
    hide StepAt, MulOf, KcIndex, Dt2;
  }

  /** The envelope rates that follow, each from its own register, all scaled by the key. */
  lemma RatesOfRegisters(t: Tables, op: Operator, w: View)
    requires t.Ok() && OperatorOk(t, op, w) && w.ksSet && w.rrSet
    ensures var r, scale := op.rates, KeyScale(w.kc % 128, 5 - w.ksAr / 64);
            && scale < 32
            && r.egAr == AttackRate(RateOf(w.ksAr) + scale) && r.egD1r == OtherRate(RateOf(w.amD1r) + scale)
            && r.egD2r == OtherRate(RateOf(w.dt2D2r) + scale) && r.egRr == OtherRate(ReleaseOf(w.d1lRr) + scale)
  {
    hide RateOf, ReleaseOf, AttackRate, OtherRate;
  }

  // ---------------------------------------------------------------- levels

  /**
   An operator puts out its wave at TL * 8 plus its envelope, plus AM where that is enabled, and
   nothing from 832 on.
   */
  lemma LevelLaw(t: Tables, op: Operator, w: View, wave: Wave, am: int, pm: int)
    requires t.Ok() && OperatorOk(t, op, w)
    ensures var a := 8 * (w.level % 128) + op.env.volume + if w.amD1r >= 128 then am else 0;
            Output(wave, op, am, pm) == if a >= 832 then 0 else wave(op.phase, a, pm)
  {
  }

  /** From a TL of 104 up nothing is heard, whatever the wave. */
  lemma QuietLevels(t: Tables, op: Operator, w: View, wave: Wave, am: nat, pm: int)
    requires t.Ok() && OperatorOk(t, op, w) && EnvelopeOk(op.env) && w.level % 128 >= 104
    ensures Output(wave, op, am, pm) == 0
  {
    LevelLaw(t, op, w, wave, am, pm);
  }

  /** After a reset nothing is heard of any operator, whatever the wave, and no sample is stored. */
  lemma SilentMeans(ops: seq<Operator>, chan: seq<Channel>, i: nat, c: nat, wave: Wave, am: nat, pm: int)
    requires Silent(ops, chan) && i < |ops| && c < |chan|
    ensures var op := ops[i];
            && op.phase == 0 && op.env.state == EG_OFF && op.env.volume == 1023 && op.env.key == 0
            && Output(wave, op, am, pm) == 0
    ensures chan[c].memValue == 0 && chan[c].fbOutCurr == 0 && chan[c].fbOutPrev == 0
  {
  }

  /** AM is off at sensitivity 0 and doubles from 1 up. */
  lemma AmSensitivity(lfa: int, ams: nat)
    ensures AmOf(lfa, 0) == 0 && AmOf(lfa, 1) == lfa
    ensures ams > 0 ==> AmOf(lfa, ams + 1) == 2 * AmOf(lfa, ams)
  {
  }

  /** Feedback is the sum of the last two outputs, off at level 0, 128 times at level 1 and doubling from there. */
  lemma FeedbackLevels(fb: nat, prev: int, curr: int)
    requires fb < 7
    ensures Feedback(FeedbackOf(0), prev, curr) == 0 && Feedback(FeedbackOf(8), prev, curr) == 128 * (prev + curr)
    ensures fb > 0 ==> Feedback(FeedbackOf(8 * fb + 8), prev, curr) == 2 * Feedback(FeedbackOf(8 * fb), prev, curr)
  {
    hide Exp2;
    FirstLevel();
    NextPower(fb + 6);
    Twice(prev + curr, Exp2(fb + 6));
  }

  lemma FirstLevel()
    ensures Exp2(7) == 128
  {
  }

  lemma NextPower(n: nat)
    ensures Exp2(n + 1) == 2 * Exp2(n)
  {
  }

  lemma Twice(a: int, b: int)
    ensures a * (2 * b) == 2 * (a * b)
  {
  }

  // ---------------------------------------------------------------- pitch

  /** Sixty-four steps a semitone, twelve semitones an octave; every fourth key code repeats the one before. */
  lemma KeyCodes(kc: nat, kf: nat)
    requires kc < 127 && kf < 63
    ensures KcIndex(0, 0) == 768 && KcIndex(kc, kf + 1) == KcIndex(kc, kf) + 1
    ensures KcIndex(kc + 1, kf) == KcIndex(kc, kf) + if kc % 4 == 3 then 0 else 64
    ensures kc < 112 ==> KcIndex(kc + 16, kf) == KcIndex(kc, kf) + 768
  {
  }

  /** Detune 2 is 0, 6, 7.8 or 9.5 semitones. */
  lemma Detune2()
    ensures Dt2(0) == 0 && Dt2(1) == 6 * 64 && Dt2(2) == 500 && Dt2(3) == 608
  {
  }

  /** The phase step is half of MUL times the detuned frequency, rounded down, while that fits 32 bits. */
  lemma StepLaw(t: Tables, i: nat, dt1: int, mul: nat)
    requires t.Ok() && i < FREQ_ENTRIES && 0 <= t.freq[i] + dt1 < TWO32 && (t.freq[i] + dt1) * mul < TWO32
    ensures var x := (t.freq[i] + dt1) * mul; 2 * StepAt(t, i, dt1, mul) <= x < 2 * StepAt(t, i, dt1, mul) + 2
  {
    Small(t.freq[i] + dt1);
    Small((t.freq[i] + dt1) * mul);
  }

  lemma Small(x: nat)
    ensures x < TWO32 ==> U32(x) == x
  {
  }

  /** PMS 1 to 5 take lfp / 2^(6 - pms) rounded toward minus infinity, 6 and 7 take it twice and four times. */
  lemma PmSensitivity(pms: nat, lfp: int)
    requires pms < 8 && -127 <= lfp <= 127
    ensures pms == 0 ==> ModIndex(pms, lfp) == 0
    ensures 1 <= pms < 6 ==> ModIndex(pms, lfp) * Exp2(6 - pms) <= lfp < (ModIndex(pms, lfp) + 1) * Exp2(6 - pms)
    ensures pms == 6 ==> ModIndex(pms, lfp) == 2 * lfp
    ensures pms == 7 ==> ModIndex(pms, lfp) == 4 * lfp
  {
    Doublings();
    assert Exp2(4) == 16 && Exp2(5) == 32;
  }

  /** Modulation is a detune: the step is that of a key so many 64ths of a semitone away. */
  lemma ModulatedPitch(t: Tables, op: Operator, pms: nat, lfp: int)
    requires t.Ok() && PitchInRange(op.pitch) && pms < 8 && -127 <= lfp <= 127
    ensures var i := op.pitch.kcI + ModIndex(pms, lfp) + op.pitch.dt2;
            && 0 <= i < FREQ_ENTRIES
            && PhaseAdvanced(t, op, pms, lfp).phase == (op.phase + StepAt(t, i, op.pitch.dt1, op.pitch.mul)) % TWO32
  {
    hide StepAt, ModIndex;
  }

  /** n samples without modulation. */
  function Steady(t: Tables, op: Operator, n: nat): (op': Operator)
    requires t.Ok() && PitchFresh(t, op.pitch)
    ensures op'.pitch == op.pitch
  {
    if n == 0 then op else PhaseAdvanced(t, Steady(t, op, n - 1), 0, 0)
  }

  /** An unmodulated operator's phase after n samples is n cached steps on, modulo 2^32. */
  lemma {:induction false} SteadyPitch(t: Tables, op: Operator, n: nat)
    requires t.Ok() && PitchFresh(t, op.pitch) && op.phase < TWO32
    ensures Steady(t, op, n) == op.(phase := (op.phase + n * op.pitch.freq) % TWO32)
  {
    hide StepAt;
    if n > 0 {
      SteadyPitch(t, op, n - 1);
      NextPhase(op.phase + (n - 1) * op.pitch.freq, op.pitch.freq);
      assert op.phase + (n - 1) * op.pitch.freq + op.pitch.freq == op.phase + n * op.pitch.freq;
    }
  }

  lemma NextPhase(x: nat, d: nat)
    ensures U32(x % TWO32 + d) == (x + d) % TWO32
  {
  }

  // ---------------------------------------------------------------- the LFO's waves

  /** AM: a falling saw, a square, a triangle that falls and rises by two, and the noise. */
  lemma AmShapes(i: nat, noise: NoiseWave)
    requires i < 256
    ensures AmWave(0, 0, noise) == 255 && AmWave(2, 0, noise) == 255 && AmWave(2, 128, noise) == 0
    ensures i < 255 ==> AmWave(0, i + 1, noise) == AmWave(0, i, noise) - 1
    ensures AmWave(1, i, noise) == if i < 128 then 255 else 0
    ensures i < 127 ==> AmWave(2, i + 1, noise) == AmWave(2, i, noise) - 2
    ensures 128 <= i < 255 ==> AmWave(2, i + 1, noise) == AmWave(2, i, noise) + 2
    ensures AmWave(3, i, noise) == noise[i]
  {
  }

  /** PM: a rising saw odd about its middle, a square, a triangle whose second half negates the first, and the noise less 128. */
  lemma PmShapes(i: nat, noise: NoiseWave)
    requires i < 256
    ensures PmWave(0, 0, noise) == 0 && PmWave(2, 0, noise) == 0 && PmWave(2, 64, noise) == 127
    ensures i < 127 ==> PmWave(0, i + 1, noise) == PmWave(0, i, noise) + 1
    ensures PmWave(0, 255 - i, noise) == -PmWave(0, i, noise)
    ensures PmWave(1, i, noise) == if i < 128 then 128 else -128
    ensures i < 63 ==> PmWave(2, i + 1, noise) == PmWave(2, i, noise) + 2
    ensures 64 <= i < 127 ==> PmWave(2, i + 1, noise) == PmWave(2, i, noise) - 2
    ensures i < 128 ==> PmWave(2, i + 128, noise) == -PmWave(2, i, noise)
    ensures PmWave(3, i, noise) == noise[i] as int - 128
  {
  }

  /** The clock: whenever the timer passes the overflow the 12 bits of phase and counter move on by the step. */
  lemma LfoClock(l: Lfo, timerAdd: nat, noise: NoiseWave)
    requires l.phase < 256 && l.counter < 16 && l.test / 2 % 2 == 0
    ensures var r, time := LfoAfter(l, timerAdd, noise), U32(l.timer + timerAdd);
            if time < l.overflow then r.timer == time && r.phase == l.phase && r.counter == l.counter
            else r.timer == time - l.overflow && r.counter < 16 && r.phase < 256
                 && 16 * r.phase + r.counter == (16 * l.phase + l.counter + l.counterAdd) % 4096
  {
    hide AmWave, PmWave, Div128;
  }

  /** The outputs are the wave times the depth over 128, rounded toward zero. */
  lemma LfoOutputs(l: Lfo, timerAdd: nat, noise: NoiseWave)
    requires l.phase < 256
    ensures var r := LfoAfter(l, timerAdd, noise);
            var a, p := AmWave(r.wsel, r.phase, noise) * r.amd, PmWave(r.wsel, r.phase, noise) * r.pmd;
            && 128 * r.lfa <= a < 128 * r.lfa + 128
            && (p >= 0 ==> 128 * r.lfp <= p < 128 * r.lfp + 128) && (p < 0 ==> 128 * r.lfp - 128 < p <= 128 * r.lfp)
  {
    hide AmWave, PmWave;
  }

  // ---------------------------------------------------------------- the noise register

  /** The bit the noise register puts out after n shifts. */
  function NoiseBit(rng: nat, n: nat): nat { NoiseAfter(rng, n) % 2 }

  lemma {:induction false} NoiseAdds(rng: nat, m: nat, n: nat)
    ensures NoiseAfter(rng, m + n) == NoiseAfter(NoiseAfter(rng, m), n)
    decreases m
  {
    if m > 0 {
      NoiseAdds((if rng % 2 == rng / 8 % 2 then 0x1_0000 else 0) + rng / 2, m - 1, n);
    }
  }

  /** One shift moves the 17 bits down and puts in at the top whether bits 0 and 3 were equal. */
  lemma NoiseShift(rng: nat, i: nat)
    requires rng < 0x2_0000 && i <= 16
    ensures NoiseAfter(rng, 1) < 0x2_0000
    ensures Bit(NoiseAfter(rng, 1), i) == if i < 16 then Bit(rng, i + 1) else if Bit(rng, 0) == Bit(rng, 3) then 1 else 0
  {
    hide Bit;
    var top := if rng % 2 == rng / 8 % 2 then 1 else 0;
    assert NoiseAfter(rng, 1) == top * 0x1_0000 + rng / 2 by { OneShift(rng); }
    Sixteenth();
    BitSplit(top, rng / 2, 16, i);
    LowBits(rng, i);
    LowBits(top, 0);
  }

  lemma OneShift(rng: nat)
    ensures NoiseAfter(rng, 1) == (if rng % 2 == rng / 8 % 2 then 0x1_0000 else 0) + rng / 2
  {
    assert NoiseAfter(rng, 1) == NoiseAfter((if rng % 2 == rng / 8 % 2 then 0x1_0000 else 0) + rng / 2, 0);
  }

  lemma Sixteenth()
    ensures Bits.Pow2(16) == 0x1_0000
  {
    assert Bits.Pow2(8) == 0x100;
  }

  lemma LowBits(x: nat, i: nat)
    ensures Bit(x, 0) == x % 2 && Bit(x, 3) == x / 8 % 2 && Bit(x, i + 1) == Bit(x / 2, i)
  {
    assert x / 2 / 2 / 2 == x / 8;
    assert Bit(x, 3) == Bit(x / 2, 2) == Bit(x / 2 / 2, 1) == Bit(x / 2 / 2 / 2, 0);
  }

  lemma {:induction false} StreamBit(rng: nat, n: nat, k: nat)
    requires rng < 0x2_0000 && k <= 16
    ensures NoiseAfter(rng, n) < 0x2_0000 && Bit(NoiseAfter(rng, n), k) == NoiseBit(rng, n + k)
    decreases k
  {
    hide Bit, NoiseAfter;
    StaysInside(rng, n);
    if k == 0 {
      LowBits(NoiseAfter(rng, n), 0);
    } else {
      NoiseAdds(rng, n, 1);
      NoiseShift(NoiseAfter(rng, n), k - 1);
      StreamBit(rng, n + 1, k - 1);
    }
  }

  lemma {:induction false} StaysInside(rng: nat, n: nat)
    requires rng < 0x2_0000
    ensures NoiseAfter(rng, n) < 0x2_0000
    decreases n
  {
    if n > 0 {
      StaysInside((if rng % 2 == rng / 8 % 2 then 0x1_0000 else 0) + rng / 2, n - 1);
    }
  }

  /**
   The bits put out are the 17 of the register first, and from then on whether the bits 17 and 14
   before were equal.
   */
  lemma NoiseStream(rng: nat, n: nat)
    requires rng < 0x2_0000
    ensures n <= 16 ==> NoiseBit(rng, n) == Bit(rng, n)
    ensures NoiseBit(rng, n + 17) == if NoiseBit(rng, n) == NoiseBit(rng, n + 3) then 1 else 0
  {
    hide Bit, NoiseAfter;
    if n <= 16 {
      StreamBit(rng, 0, n);
      NoiseNone(rng);
    }
    StreamBit(rng, n, 0);
    StreamBit(rng, n, 3);
    StreamBit(rng, n + 1, 16);
    NoiseAdds(rng, n, 1);
    NoiseShift(NoiseAfter(rng, n), 16);
  }

  lemma NoiseNone(rng: nat)
    ensures NoiseAfter(rng, 0) == rng
  {
  }

  // ---------------------------------------------------------------- the envelope clock

  /** What the envelope timer is after so many samples, and the ticks given on the way. */
  function Clocked(timer: nat, add: nat, samples: nat): (c: (nat, nat)) {
    if samples == 0 then (timer, 0)
    else
      var (t, ticks) := Clocked(timer, add, samples - 1);
      (U32(t + add) % EG_TIMER_OVERFLOW, ticks + U32(t + add) / EG_TIMER_OVERFLOW)
  }

  /** No time is lost: one tick for every 196608 the timer is advanced by, the rest still in the timer. */
  lemma {:induction false} ClockExact(timer: nat, add: nat, samples: nat)
    requires timer < 196608 && add <= TWO32 - 196608
    ensures var (t, ticks) := Clocked(timer, add, samples); t < 196608 && ticks * 196608 + t == timer + samples * add
  {
    if samples > 0 {
      ClockExact(timer, add, samples - 1);
      var t := Clocked(timer, add, samples - 1).0;
      Small(t + add);
      assert (samples - 1) * add + add == samples * add;
    }
  }
}
