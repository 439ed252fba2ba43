/** The low-frequency oscillator and the phase generator of `advance`, ym2151.c:1385-1511. */
module YmLfo {
  import opened YmTables
  import opened YmOperator

  /** The LFO registers and state. */
  datatype Lfo = Lfo(phase: nat, timer: nat, overflow: nat, counter: nat, counterAdd: nat,
                     wsel: nat, amd: nat, pmd: nat, lfa: int, lfp: int, test: nat)

  /** lfo_noise_waveform: any 256 bytes. */
  type NoiseWave = s: seq<nat> | |s| == 256 && forall i :: 0 <= i < 256 ==> s[i] < 256
    witness seq(256, i => 0)

  ghost predicate LfoOk(l: Lfo) {
    && l.phase < 256 && l.counter < 16 && l.wsel < 4 && l.amd < 128 && l.pmd < 128
    && 0 <= l.lfa <= 253 && -127 <= l.lfp <= 127
  }

  /** The AM value of each waveform. */
  function AmWave(wsel: nat, i: nat, noise: NoiseWave): (a: int)
    requires i < 256
    ensures 0 <= a <= 255
  {
    match wsel
    case 0 => 255 - i
    case 1 => if i < 128 then 255 else 0
    case 2 => if i < 128 then 255 - i * 2 else i * 2 - 256
    case _ => noise[i]
  }

  /** The PM value of each waveform. */
  function PmWave(wsel: nat, i: nat, noise: NoiseWave): (p: int)
    requires i < 256
    ensures -128 <= p <= 128
  {
    match wsel
    case 0 => if i < 128 then i else i - 255
    case 1 => if i < 128 then 128 else -128
    case 2 => if i < 64 then i * 2 else if i < 128 then 255 - i * 2 else if i < 192 then 256 - i * 2 else i * 2 - 511
    case _ => noise[i] as int - 128
  }

  /** C division by 128, which rounds toward zero. */
  function Div128(x: int): int {
    if x >= 0 then x / 128 else -((-x) / 128)
  }

  lemma ScaledPm(p: int, pmd: nat)
    requires -128 <= p <= 128 && pmd < 128
    ensures -127 <= Div128(p * pmd) <= 127
  {
    assert -128 * pmd <= p * pmd <= 128 * pmd;
  }

  lemma ScaledAm(a: int, amd: nat)
    requires 0 <= a <= 255 && amd < 128
    ensures 0 <= a * amd / 128 <= 253
  {
    assert 0 <= a * amd <= 255 * amd;
  }

  /**
   The LFO after a sample: when its 32-bit timer passes the overflow the 12-bit accumulator of phase
   and counter steps on, unless test bit 1 holds the phase at 0; the outputs are the scaled waveforms.
   */
  function LfoAfter(l: Lfo, timerAdd: nat, noise: NoiseWave): Lfo
    requires l.phase < 256
  {
    var timer := U32(l.timer + timerAdd);
    var acc := (l.phase * 16 + l.counter + l.counterAdd) % 0x1000;
    var s :=
      if l.test / 2 % 2 == 1 then l.(phase := 0)
      else if timer < l.overflow then l.(timer := timer)
      else l.(timer := timer - l.overflow, phase := acc / 16, counter := acc % 16);
    s.(lfa := AmWave(s.wsel, s.phase, noise) * s.amd / 128, lfp := Div128(PmWave(s.wsel, s.phase, noise) * s.pmd))
  }

  /** ym2151.c:1390-1461 */
  method AdvanceLfo(l: Lfo, timerAdd: nat, noise: NoiseWave) returns (l': Lfo)
    requires LfoOk(l)
    ensures LfoOk(l') && l' == LfoAfter(l, timerAdd, noise)
    ensures l' == l.(phase := l'.phase, timer := l'.timer, counter := l'.counter, lfa := l'.lfa, lfp := l'.lfp)
  {
    hide AmWave, PmWave, Div128;
    l' := l;
    if l.test / 2 % 2 == 1 {
      l' := l'.(phase := 0);
    } else {
      l' := l'.(timer := U32(l.timer + timerAdd));
      if l'.timer >= l.overflow {
        var counter := l.counter + l.counterAdd;
        l' := l'.(timer := l'.timer - l.overflow, phase := (l.phase + counter / 16) % 256, counter := counter % 16);
        PhaseAndCounter(l.phase, counter);
      }
    }
    var a, p := AmWave(l'.wsel, l'.phase, noise), PmWave(l'.wsel, l'.phase, noise);
    ScaledAm(a, l'.amd);
    ScaledPm(p, l'.pmd);
    l' := l'.(lfa := a * l'.amd / 128, lfp := Div128(p * l'.pmd));
  }

  /** Phase and counter together are one 12-bit accumulator. */
  lemma PhaseAndCounter(phase: nat, counter: nat)
    ensures (phase * 16 + counter) % 0x1000 == (phase + counter / 16) % 256 * 16 + counter % 16
  {
    var q := phase + counter / 16;
    assert phase * 16 + counter == q * 16 + counter % 16;
    assert q == 256 * (q / 256) + q % 256;
    assert q * 16 + counter % 16 == 0x1000 * (q / 256) + (q % 256 * 16 + counter % 16);
  }

  /** mod_ind of ym2151.c:1484-1488, or 0 when the channel has no phase modulation. */
  function ModIndex(pms: nat, lfp: int): (m: int)
    requires pms < 8 && -127 <= lfp <= 127
    ensures -508 <= m <= 508
  {
    if pms == 0 then 0
    else if pms < 6 then lfp / [64, 32, 16, 8, 4, 2][pms]
    else if pms == 6 then lfp * 2 else lfp * 4
  }

  /** The frequency lookup of a modulated operator stays well inside the 11 octaves. */
  function ModulatedIndex(p: Pitch, pms: nat, lfp: int): (i: nat)
    requires PitchInRange(p) && pms < 8 && -127 <= lfp <= 127
    ensures 260 <= i <= 8091 < FREQ_ENTRIES
  {
    p.kcI + ModIndex(pms, lfp) + p.dt2
  }

  /**
   The phase generator of one operator, ym2151.c:1483-1507: the cached freq when nothing modulates,
   a lookup otherwise. Either way the step is the one the modulated index gives.
   */
  method AdvancePhase(t: Tables, op: Operator, pms: nat, lfp: int) returns (op': Operator)
    requires t.Ok() && PitchFresh(t, op.pitch) && pms < 8 && -127 <= lfp <= 127
    ensures op' == PhaseAdvanced(t, op, pms, lfp)
  {
    var p := op.pitch;
    if pms != 0 {
      var modInd := if pms < 6 then lfp / [64, 32, 16, 8, 4, 2][pms] else lfp * [2, 4][pms - 6];
      if modInd != 0 {
        op' := op.(phase := U32(op.phase + StepAt(t, p.kcI + modInd + p.dt2, p.dt1, p.mul)));
      } else {
        op' := op.(phase := U32(op.phase + p.freq));
      }
    } else {
      op' := op.(phase := U32(op.phase + p.freq));
    }
  }

  function PhaseAdvanced(t: Tables, op: Operator, pms: nat, lfp: int): Operator
    requires t.Ok() && PitchInRange(op.pitch) && pms < 8 && -127 <= lfp <= 127
  {
    op.(phase := U32(op.phase + StepAt(t, ModulatedIndex(op.pitch, pms, lfp), op.pitch.dt1, op.pitch.mul)))
  }

  /** The 17-bit noise register, ym2151.c:1468-1476. */
  method ShiftNoise(rng: nat, times: nat) returns (rng': nat)
    requires rng < 0x2_0000
    ensures rng' == NoiseAfter(rng, times) && rng' < 0x2_0000
  {
    rng' := rng;
    var i := times;
    while i > 0
      invariant rng' < 0x2_0000 && NoiseAfter(rng', i) == NoiseAfter(rng, times)
    {
      var j := if rng' % 2 == rng' / 8 % 2 then 1 else 0;
      rng' := j * 0x1_0000 + rng' / 2;
      i := i - 1;
    }
  }

  /** One shift puts the negated exclusive or of bits 0 and 3 in at the top. */
  function NoiseAfter(rng: nat, times: nat): nat
    decreases times
  {
    if times == 0 then rng
    else NoiseAfter((if rng % 2 == rng / 8 % 2 then 0x1_0000 else 0) + rng / 2, times - 1)
  }
}
