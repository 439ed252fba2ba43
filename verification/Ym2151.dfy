/** ym2151.c: struct ym2151 and the functions that update it. */
module Ym2151 {
  import opened YmTables
  import opened YmOperator
  import opened YmRegisters
  import opened YmDiagram
  import opened YmLfo

  /** Where an operator adds its output: a pointer to one of the chip's accumulators, or the null mark. */
  datatype Wire = ToM2 | ToC1 | ToC2 | ToMem | ToOut | Mark

  /** The pointers set_connect sets, for M1, C1, M2 and the delayed sample. */
  datatype Wires = Wires(m1: Wire, c1: Wire, m2: Wire, mem: Wire)

  /** set_connect */
  function ConnectFor(v: nat): Wires {
    match v % 8
    case 0 => Wires(ToC1, ToMem, ToC2, ToM2)
    case 1 => Wires(ToMem, ToMem, ToC2, ToM2)
    case 2 => Wires(ToC2, ToMem, ToC2, ToM2)
    case 3 => Wires(ToC1, ToMem, ToC2, ToC2)
    case 4 => Wires(ToC1, ToOut, ToC2, ToMem)
    case 5 => Wires(Mark, ToOut, ToOut, ToM2)
    case 6 => Wires(ToC1, ToOut, ToOut, ToMem)
    case _ => Wires(ToOut, ToOut, ToOut, ToMem)
  }

  /** The fields of an operator record that only the M1 of a channel uses. */
  datatype Channel = Channel(wires: Wires, fbShift: nat, pms: nat, ams: nat,
                             memValue: int, fbOutCurr: int, fbOutPrev: int)

  /** The four registers that change the LFO. */
  function LfoWritten(l: Lfo, r: Byte, v: Byte): Lfo {
    if r == 0x01 then l.(test := v, phase := if v / 2 % 2 == 1 then 0 else l.phase)
    else if r == 0x18 then l.(overflow := Exp2(18 - v / 16) * 0x400, counterAdd := 0x10 + v % 16)
    else if r == 0x19 then (if v >= 0x80 then l.(pmd := v - 0x80) else l.(amd := v))
    else if r == 0x1b then l.(wsel := v % 4)
    else l
  }

  /** The chip's accumulators while a channel is computed; `out` is chanout of that channel. */
  datatype Bus = Bus(m2: int, c1: int, c2: int, mem: int, out: int)

  /** *wire = x */
  function Put(b: Bus, wire: Wire, x: int): Bus {
    match wire
    case ToM2 => b.(m2 := x)
    case ToC1 => b.(c1 := x)
    case ToC2 => b.(c2 := x)
    case ToMem => b.(mem := x)
    case ToOut => b.(out := x)
    case Mark => b
  }

  /** *wire += x */
  function Add(b: Bus, wire: Wire, x: int): Bus {
    match wire
    case ToM2 => b.(m2 := b.m2 + x)
    case ToC1 => b.(c1 := b.c1 + x)
    case ToC2 => b.(c2 := b.c2 + x)
    case ToMem => b.(mem := b.mem + x)
    case ToOut => b.(out := b.out + x)
    case Mark => b
  }

  /** The accumulators once M1 and MEM have been put in, ym2151.c:1006-1024. */
  function Inputs(w: Wires, fbOutPrev: int, memValue: int, chanout: int): Bus {
    var b := Put(Bus(0, 0, 0, 0, chanout), w.mem, memValue);
    if w.m1 == Mark then b.(mem := fbOutPrev, c1 := fbOutPrev, c2 := fbOutPrev) else Put(b, w.m1, fbOutPrev)
  }

  /** For every algorithm the accumulators are the sums of the drawing's arrows when each is used. */
  lemma RoutingIsDrawing(alg: nat, m1: int, mem: int, chanout: int, m2: int, c1: int, c2: int)
    requires alg < 8
    ensures var w := ConnectFor(alg);
            var b0 := Inputs(w, m1, mem, chanout);
            var b1 := Add(b0, w.m2, m2);
            var b2 := Add(b1, w.c1, c1);
            var s := Sample(m1, c1, mem, m2, c2, if UsesMem(alg) then b2.mem else 0,
                            b2.out + c2 - if alg == 7 then 0 else chanout);
            && b0.m2 == Sums(alg, s).m2 && b1.c1 == Sums(alg, s).c1 && b2.c2 == Sums(alg, s).c2
            && s.memIn == Sums(alg, s).memIn && s.out == Sums(alg, s).out
            && (UsesMem(alg) || b2.mem == mem)
  {
    hide Into;
  }

  /** The pointer routing of chan_calc, ym2151.c:1006-1046, against the drawing. */
  method Route(w: Wires, fbOutPrev: int, memValue: int, chanout: int, wave: Wave,
               op1: Operator, op2: Operator, op3: Operator, am: int, ghost alg: nat)
    returns (b: Bus, ghost s: Sample)
    requires alg < 8 && w == ConnectFor(alg)
    ensures Obeys(alg, s, wave, op1, op2, op3, am)
    ensures s.m1 == fbOutPrev && s.mem == memValue
    ensures b.mem == if UsesMem(alg) then s.memIn else memValue
    ensures b.out == (if alg == 7 then 0 else chanout) + s.out
  {
    hide Attenuation, Into, Add, Sums, ConnectFor, UsesMem;
    b := Put(Bus(0, 0, 0, 0, chanout), w.mem, memValue);
    if w.m1 == Mark {
      b := b.(mem := fbOutPrev, c1 := fbOutPrev, c2 := fbOutPrev);
    } else {
      b := Put(b, w.m1, fbOutPrev);
    }
    ghost var m2Out := Output(wave, op1, am, b.m2);
    AddNothing(b, w.m2);
    if Attenuation(op1, am) < ENV_QUIET {
      b := Add(b, w.m2, wave(op1.phase, Attenuation(op1, am), b.m2));
    }
    ghost var c1Out := Output(wave, op2, am, b.c1);
    AddNothing(b, w.c1);
    if Attenuation(op2, am) < ENV_QUIET {
      b := Add(b, w.c1, wave(op2.phase, Attenuation(op2, am), b.c1));
    }
    ghost var c2Out := Output(wave, op3, am, b.c2);
    if Attenuation(op3, am) < ENV_QUIET {
      b := b.(out := b.out + wave(op3.phase, Attenuation(op3, am), b.c2));
    }
    RoutingIsDrawing(alg, fbOutPrev, memValue, chanout, m2Out, c1Out, c2Out);
    s := Sample(fbOutPrev, c1Out, memValue, m2Out, c2Out,
                if UsesMem(alg) then b.mem else 0,
                b.out - if alg == 7 then 0 else chanout);
    assert Sums(alg, s).m2 == Into(alg, s, M2);
  }

  lemma AddNothing(b: Bus, wire: Wire)
    ensures Add(b, wire, 0) == b
  {
  }

  const EG_TIMER_OVERFLOW: nat := 3 * 0x1_0000

  class Chip {
    const tables: Tables
    const oper: array<Operator>
    const chan: array<Channel>
    const pan: array<bool>
    var lfo: Lfo
    var noise: nat
    var noiseF: nat
    var egCnt: nat
    var egTimer: nat
    const egTimerAdd: nat
    const lfoTimerAdd: nat
    const noiseWave: NoiseWave
    var noiseRng: nat
    var noiseP: nat

    /** The sine and attenuation tables, as functions: op_calc1 for M1, op_calc for the others. */
    const opCalc1: Wave
    const opCalc: Wave
    var muted: seq<bool>
    const chanout: array<int>

    /** The last byte written to each address, and how far the writes of a reset have come. */
    ghost var regs: Registers
    ghost var done: nat

    ghost predicate Shape()
      reads this
    {
      tables.Ok() && oper.Length == 32 && chan.Length == 8 && pan.Length == 16 && chanout.Length == 8 && |muted| == 8
    }

    /**
     The invariant of the chip, which a reset builds up and every later call keeps: every operator's
     programmed fields agree with the registers, its cached fields equal recomputation, its envelope
     is in range.
     */
    ghost predicate Valid()
      reads this, oper, chan
    {
      && Shape()
      && 0x20 <= done <= 0x100
      && (Ready() || Blank(regs))
      && OperatorsOk(tables, oper[..], regs, done)
      && EnvelopesOk(oper[..])
      && ChannelsOk(chan[..], regs, done)
      && LfoOk(lfo)
    }

    /** A reset has run to its end. */
    ghost predicate Ready()
      reads this
    {
      done == 0x100
    }

    /** ym2151_reset_chip */
    method ResetChip()
      requires Shape()
      modifies `lfo, `noise, `noiseF, `egCnt, `egTimer, `regs, `done, oper, chan, pan
      ensures Valid() && Ready() && Blank(regs)
      ensures Silent(oper[..], chan[..])
      ensures egCnt == 0 && egTimer == 0
    {
      hide OperatorsOk, EnvelopesOk, ChannelsOk, LfoOk, LfoWritten, Silent, SameSounds, SameSamples;
      Clear();
      WriteZero(0x1b);
      WriteZero(0x18);
      for i := 0x20 to 0x100
        invariant Valid() && done == i && Blank(regs)
        invariant Silent(oper[..], chan[..])
        invariant egCnt == 0 && egTimer == 0
      {
        WriteZero(i);
      }
    }

    method WriteZero(r: nat)
      requires Valid() && r < 0x100 && r <= done && r != 8 && Blank(regs)
      requires Silent(oper[..], chan[..])
      modifies `lfo, `noise, `noiseF, `regs, `done, oper, chan, pan
      ensures Valid() && done == DoneAfter(old(done), r) && Blank(regs)
      ensures Silent(oper[..], chan[..])
    {
      hide OperatorsOk, EnvelopesOk, ChannelsOk, LfoOk, LfoWritten;
      WriteReg(r, 0);
    }

    /** ym2151.c:934-938 */
    method ClearRecords()
      requires Shape()
      modifies oper, chan
      ensures forall k :: 0 <= k < 32 ==> oper[k] == ClearedOperator()
      ensures forall k :: 0 <= k < 8 ==> chan[k] == ClearedChannel()
    {
      hide ClearedOperator, ClearedChannel;
      for i := 0 to 32
        invariant forall k :: 0 <= k < i ==> oper[k] == ClearedOperator()
      {
        oper[i] := ClearedOperator();
      }
      for c := 0 to 8
        invariant forall k :: 0 <= k < 32 ==> oper[k] == ClearedOperator()
        invariant forall k :: 0 <= k < c ==> chan[k] == ClearedChannel()
      {
        chan[c] := ClearedChannel();
      }
    }

    /** ym2151.c:940-959 */
    method Clear()
      requires Shape()
      modifies `lfo, `noise, `noiseF, `egCnt, `egTimer, `regs, `done, oper, chan
      ensures Valid() && done == 0x20 && Blank(regs)
      ensures Silent(oper[..], chan[..])
      ensures egCnt == 0 && egTimer == 0
    {
      ClearRecords();
      egTimer, egCnt := 0, 0;
      lfo := lfo.(timer := 0, counter := 0, phase := 0, wsel := 0, pmd := 0, amd := 0, lfa := 0, lfp := 0, test := 0);
      noise, noiseF := 0, tables.noise[0];
      regs, done := seq(256, i => 0), 0x20;
      ClearedOperatorsOk(tables, oper[..], regs);
    }

    /**
     advance_eg: the timer wraps at 32 bits, and each time it passes EG_TIMER_OVERFLOW every
     operator gets one envelope tick.
     */
    method AdvanceEg()
      requires Valid() && Ready() && egTimer < EG_TIMER_OVERFLOW
      modifies `egTimer, `egCnt, oper
      ensures Valid() && egTimer == U32(old(egTimer) + egTimerAdd) % EG_TIMER_OVERFLOW
      ensures var n := U32(old(egTimer) + egTimerAdd) / EG_TIMER_OVERFLOW;
              && egCnt == CounterAfter(old(egCnt), n)
              && oper[..] == TickedAll(old(oper[..]), old(egCnt), n)
    {
      hide OperatorsOk, EnvelopesOk, AllTicking, TickedAll, CounterAfter, ChannelsOk, LfoOk, OnlyEnvelopes, OneTickEach, U32;
      ghost var ops := oper[..];
      TickingOperators(tables, ops, regs);
      ghost var cnt := egCnt;
      NoEnvelopeChange(ops);
      egTimer := U32(egTimer + egTimerAdd);
      ghost var n, rest := egTimer / EG_TIMER_OVERFLOW, egTimer % EG_TIMER_OVERFLOW;
      while egTimer >= EG_TIMER_OVERFLOW
        invariant AllTicking(oper[..]) && egTimer % EG_TIMER_OVERFLOW == rest
        invariant TickedAll(oper[..], egCnt, egTimer / EG_TIMER_OVERFLOW) == TickedAll(ops, cnt, n)
        invariant CounterAfter(egCnt, egTimer / EG_TIMER_OVERFLOW) == CounterAfter(cnt, n)
        invariant OnlyEnvelopes(ops, oper[..])
      {
        ghost var before, last, k := oper[..], egCnt, egTimer / EG_TIMER_OVERFLOW;
        OneOverflow(egTimer);
        egTimer := egTimer - EG_TIMER_OVERFLOW;
        egCnt := U32(egCnt + 1);
        TickAll();
        OneTick(before, oper[..], last, k);
        EnvelopesOnly(ops, before, oper[..]);
      }
      NoTicks(oper[..], egCnt);
      TicksKeepOperators(tables, ops, oper[..], regs);
    }

    /** The do-while loop of advance_eg over the 32 operators. */
    method TickAll()
      requires oper.Length == 32 && AllTicking(oper[..])
      modifies oper
      ensures AllTicking(oper[..]) && OnlyEnvelopes(old(oper[..]), oper[..])
      ensures OneTickEach(old(oper[..]), oper[..], egCnt)
    {
      hide Tick, Ticking;
      ghost var ops := oper[..];
      for i := 0 to 32
        invariant forall k :: 0 <= k < i ==> oper[k] == Tick(ops[k], egCnt)
        invariant forall k :: i <= k < 32 ==> oper[k] == ops[k]
      {
        assert Ticking(ops[i]);
        oper[i] := Tick(oper[i], egCnt);
      }
    }

    /** advance: the LFO, the noise register, then the phase of every operator. */
    method Advance()
      requires Valid() && Ready() && noiseRng < 0x2_0000
      modifies `lfo, `noiseRng, `noiseP, oper
      ensures Valid() && noiseRng < 0x2_0000
      ensures lfo == LfoAfter(old(lfo), lfoTimerAdd, noiseWave)
      ensures oper[..] == PhasesAdvanced(tables, old(oper[..]), chan[..], lfo.lfp)
      ensures NoiseAdvanced(noiseF, old(noiseP), old(noiseRng), noiseP, noiseRng)
    {
      hide OperatorsOk, EnvelopesOk, ChannelsOk, PitchesFresh, PhasesAdvanced, PmsInRange, NoiseAfter, LfoAfter;
      ghost var ops := oper[..];
      lfo := AdvanceLfo(lfo, lfoTimerAdd, noiseWave);
      noiseP := U32(noiseP + noiseF);
      noiseRng := ShiftNoise(noiseRng, noiseP / 0x1_0000);
      noiseP := noiseP % 0x1_0000;
      PitchesAreFresh(tables, ops, regs, done);
      SensitivitiesInRange(chan[..], regs, done);
      AdvancePhases();
      PhasesKeepOperators(tables, ops, chan[..], lfo.lfp, regs, done);
    }

    /** ym2151.c:1480-1511 */
    method AdvancePhases()
      requires Shape() && LfoOk(lfo) && PitchesFresh(tables, oper[..]) && PmsInRange(chan[..])
      modifies oper
      ensures oper[..] == PhasesAdvanced(tables, old(oper[..]), chan[..], lfo.lfp)
    {
      hide PhaseAdvanced, PitchFresh, PhasesAdvanced;
      ghost var ops := oper[..];
      ghost var ops' := PhasesAdvanced(tables, ops, chan[..], lfo.lfp);
      for c := 0 to 8
        invariant oper[..] == ops'[..4 * c] + ops[4 * c..]
      {
        AdvanceChannel(c, ops, ops');
      }
    }

    method AdvanceChannel(c: nat, ghost ops: seq<Operator>, ghost ops': seq<Operator>)
      requires Shape() && LfoOk(lfo) && PitchesFresh(tables, ops) && PmsInRange(chan[..]) && c < 8
      requires ops' == PhasesAdvanced(tables, ops, chan[..], lfo.lfp)
      requires oper[..] == ops'[..4 * c] + ops[4 * c..]
      modifies oper
      ensures oper[..] == ops'[..4 * c + 4] + ops[4 * c + 4..]
    {
      hide PhaseAdvanced, PitchFresh, PhasesAdvanced;
      var pms := chan[c].pms;
      assert oper[4 * c..] == ops[4 * c..];
      var op0 := AdvancePhase(tables, oper[4 * c], pms, lfo.lfp);
      var op1 := AdvancePhase(tables, oper[4 * c + 1], pms, lfo.lfp);
      var op2 := AdvancePhase(tables, oper[4 * c + 2], pms, lfo.lfp);
      var op3 := AdvancePhase(tables, oper[4 * c + 3], pms, lfo.lfp);
      PhasesAt(tables, ops, chan[..], lfo.lfp, c, 0);
      PhasesAt(tables, ops, chan[..], lfo.lfp, c, 1);
      PhasesAt(tables, ops, chan[..], lfo.lfp, c, 2);
      PhasesAt(tables, ops, chan[..], lfo.lfp, c, 3);
      FourMore(ops, ops', 4 * c, [op0, op1, op2, op3]);
      StoreFour(4 * c, op0, op1, op2, op3);
    }

    // ------------------------------------------------------------ runs

    /**
     One turn of ym2151_update_one: every operator gets the envelope ticks that are due and then its
     phase step; in between, each of channels 0 to 6 that is not muted takes one sample of its diagram.
     */
    method UpdateOne() returns (ghost samples: seq<Sample>)
      requires Valid() && Ready() && Running()
      modifies `lfo, `noiseRng, `noiseP, `egCnt, `egTimer, oper, chan, chanout
      ensures Valid() && Running() && |samples| == 7
      ensures var n := U32(old(egTimer) + egTimerAdd) / EG_TIMER_OVERFLOW;
              && egCnt == CounterAfter(old(egCnt), n)
              && OperatorsUpdated(tables, old(oper[..]), oper[..], chan[..], old(egCnt), n, lfo.lfp)
              && forall c :: 0 <= c < 7 ==>
                   ChannelUpdated(c, regs[0x20 + c] % 8, samples[c], TickedAll(old(oper[..]), old(egCnt), n),
                                  old(chan[c]), chan[c], chanout[c], muted[c], old(lfo.lfa), opCalc1, opCalc)
      ensures lfo == LfoAfter(old(lfo), lfoTimerAdd, noiseWave)
      ensures egTimer == U32(old(egTimer) + egTimerAdd) % EG_TIMER_OVERFLOW
      ensures NoiseAdvanced(noiseF, old(noiseP), old(noiseRng), noiseP, noiseRng)
    {
      hide OperatorsOk, EnvelopesOk, ChannelsOk, LfoOk, TickedAll, CounterAfter, PhasesAdvanced, Obeys, LfoAfter,
           NoiseAdvanced, ChannelUpdated, ConnectFor, AllTicking, PitchesFresh, PmsInRange, U32;
      ghost var n := U32(egTimer + egTimerAdd) / EG_TIMER_OVERFLOW;
      ghost var before, cnt := oper[..], egCnt;
      TickingOperators(tables, before, regs);
      AdvanceEg();
      ghost var ops, channels := oper[..], chan[..];
      for c := 0 to 8
        modifies chanout
        invariant forall k :: 0 <= k < c ==> chanout[k] == 0
      {
        chanout[c] := 0;
      }
      assert ops == TickedAll(before, cnt, n) && oper[..] == ops && chan[..] == channels;
      samples := [];
      for c := 0 to 7
        modifies chan, chanout
        invariant oper[..] == ops && |samples| == c
        invariant ChannelsOk(chan[..], regs, done)
        invariant forall k :: c <= k < 8 ==> chan[k] == channels[k] && chanout[k] == 0
        invariant forall k :: 0 <= k < c ==>
          ChannelUpdated(k, regs[0x20 + k] % 8, samples[k], ops, channels[k], chan[k], chanout[k], muted[k], lfo.lfa,
                         opCalc1, opCalc)
      {
        ghost var s := UpdateChannel(c, ops);
        samples := samples + [s];
      }
      PitchesAreFresh(tables, ops, regs, done);
      SensitivitiesInRange(chan[..], regs, done);
      assert oper[..] == TickedAll(before, cnt, n);
      Advance();
      LfoInRange(lfo);
      UpdatedOperators(tables, before, oper[..], chan[..], cnt, n, lfo.lfp);
    }

    method UpdateChannel(c: nat, ghost ops: seq<Operator>) returns (ghost s: Sample)
      requires Shape() && c < 7 && ChannelsOk(chan[..], regs, done) && Ready() && oper[..] == ops && chanout[c] == 0
      modifies chan, chanout
      ensures ChannelsOk(chan[..], regs, done)
      ensures forall k :: 0 <= k < 8 && k != c ==> chan[k] == old(chan[k]) && chanout[k] == old(chanout[k])
      ensures ChannelUpdated(c, regs[0x20 + c] % 8, s, ops, old(chan[c]), chan[c], chanout[c], muted[c], lfo.lfa, opCalc1,
                             opCalc)
    {
      hide ChannelsOk, Obeys, ConnectFor, Output;
      ghost var alg, before := regs[0x20 + c] % 8, chan[..];
      WiresOfAlgorithm(before, regs, c);
      s := ChanCalc(c, alg);
      if !muted[c] {
        SampleKeepsChannels(before, regs, c, chan[c]);
      }
    }

    ghost predicate Running()
      reads this
    {
      egTimer < EG_TIMER_OVERFLOW && noiseRng < 0x2_0000
    }

    function Snap(): Snapshot
      reads this, oper, chan, chanout
    {
      Snapshot(oper[..], chan[..], lfo, egCnt, egTimer, chanout[..], noiseF, noiseP, noiseRng)
    }

    /** One command is one step between snapshots. */
    method Perform(c: Command)
      requires Valid() && Ready() && Running()
      modifies `lfo, `noise, `noiseF, `noiseRng, `noiseP, `egCnt, `egTimer, `regs, `done, oper, chan, pan, chanout
      ensures Valid() && Ready() && Running()
      ensures regs == if c.Write? then old(regs)[c.r % 256 := c.v % 256] else old(regs)
      ensures StepOf(tables, c, old(Snap()), Snap(), old(regs), egTimerAdd, lfoTimerAdd, noiseWave, muted, opCalc1, opCalc)
    {
      hide OperatorsOk, EnvelopesOk, ChannelsOk, LfoOk, LfoWritten, KeysWritten, OperatorsUpdated, ChannelUpdated,
           CounterAfter, LfoAfter, SameSounds, SameSamples, TickedAll, Keyable, U32, NoiseAdvanced;
      ghost var before, regs0 := Snap(), regs;
      KeyableOperators(tables, oper[..], regs, done);
      LfoInRange(lfo);
      match c
      case Write(r, v) => WriteReg(r, v);
      case Update =>
        ghost var samples := UpdateOne();
        UpdateIsStep(tables, before, Snap(), regs0, egTimerAdd, lfoTimerAdd, noiseWave, muted, opCalc1, opCalc, samples);
    }

    /**
     Any run from reset. However writes and samples are interleaved, every operator ends up with its
     programmed fields as the last byte written to each register says, and with every cached field
     equal to recomputation (Valid), and the envelope invariant holds of all 32 operators. The trace
     starts silent and every command is the step it stands for.
     */
    method Run(commands: seq<Command>) returns (ghost trace: seq<Snapshot>)
      requires Shape()
      modifies this, oper, chan, pan, chanout
      ensures Valid() && Ready() && Running()
      ensures regs == LastWritten(commands)
      ensures |trace| == |commands| + 1 && trace[|commands|] == Snap()
      ensures Silent(trace[0].oper, trace[0].chan) && trace[0].egCnt == trace[0].egTimer == 0
      ensures forall i :: 0 <= i < |commands| ==>
                StepOf(tables, commands[i], trace[i], trace[i + 1], LastWritten(commands[..i]), egTimerAdd, lfoTimerAdd,
                       noiseWave, muted, opCalc1, opCalc)
    {
      hide OperatorsOk, EnvelopesOk, ChannelsOk, LfoOk, LfoWritten, KeysWritten, StepOf, Silent;
      ResetChip();
      noiseRng, noiseP := 0, 0;
      NothingWritten(regs);
      trace := [Snap()];
      for i := 0 to |commands|
        invariant Valid() && Ready() && Running()
        invariant regs == LastWritten(commands[..i])
        invariant |trace| == i + 1 && trace[i] == Snap()
        invariant Silent(trace[0].oper, trace[0].chan) && trace[0].egCnt == trace[0].egTimer == 0
        invariant muted == old(muted)
        invariant forall k :: 0 <= k < i ==>
          StepOf(tables, commands[k], trace[k], trace[k + 1], LastWritten(commands[..k]), egTimerAdd, lfoTimerAdd,
                 noiseWave, muted, opCalc1, opCalc)
      {
        assert commands[..i + 1][..i] == commands[..i];
        Perform(commands[i]);
        trace := trace + [Snap()];
      }
      assert commands[..|commands|] == commands;
    }

    // ------------------------------------------------------------ one sample of one channel

    function Am(c: nat): int
      requires c < chan.Length
      reads this, chan
    {
      AmOf(lfo.lfa, chan[c].ams)
    }

    /**
     chan_calc on an unmuted channel is one sample of the drawing of its algorithm: M1 enters
     through the output it had one sample ago, MEM through what was put into it one sample ago.
     */
    method ChanCalc(c: nat, ghost alg: nat) returns (ghost s: Sample)
      requires Shape() && c < 8 && alg < 8 && chan[c].wires == ConnectFor(alg)
      modifies chanout, chan
      ensures muted[c] ==> chan[..] == old(chan[..]) && chanout[..] == old(chanout[..])
      ensures !muted[c] ==>
                && Obeys(alg, s, opCalc, oper[4 * c + 1], oper[4 * c + 2], oper[4 * c + 3], old(Am(c)))
                && s.m1 == old(chan[c].fbOutCurr) && s.mem == old(chan[c].memValue)
                && chan[..] == old(chan[..])[c := SampleTaken(old(chan[c]), alg, s,
                                                              FeedbackOutput(opCalc1, oper[4 * c], old(chan[c]), old(Am(c))))]
                && chanout[..] == old(chanout[..])[c := (if alg == 7 then 0 else old(chanout[c])) + s.out]
    {
      hide Output, ConnectFor, Obeys;
      if muted[c] {
        s := Sample(0, 0, 0, 0, 0, 0, 0);
        return;
      }
      var ch := chan[c];
      var am := Am(c);
      var op0, op1, op2, op3 := oper[4 * c], oper[4 * c + 1], oper[4 * c + 2], oper[4 * c + 3];
      var bus;
      bus, s := Route(ch.wires, ch.fbOutCurr, ch.memValue, chanout[c], opCalc, op1, op2, op3, am, alg);
      var fbOutCurr := FeedbackOutput(opCalc1, op0, ch, am);
      chan[c] := ch.(fbOutPrev := ch.fbOutCurr, fbOutCurr := fbOutCurr, memValue := bus.mem);
      chanout[c] := bus.out;
    }

    /**
     Any number of samples of one unmuted channel under a fixed algorithm, the operators' phases and
     envelopes and the LFO changing in any way in between: at sample t, `quads[t]` holds M1, M2, C1 and
     C2 and `lfas[t]` the LFO's amplitude value.
     */
    method RunChannel(c: nat, alg: nat, quads: seq<seq<Operator>>, lfas: seq<int>)
      returns (outs: seq<int>, ghost run: seq<Moment>)
      requires Shape() && c < 8 && alg < 8 && chan[c].wires == ConnectFor(alg) && !muted[c]
      requires |lfas| == |quads| && forall t :: 0 <= t < |quads| ==> |quads[t]| == 4
      modifies `lfo, oper, chan, chanout
      ensures |outs| == |run| == |quads|
      ensures forall t :: 0 <= t < |run| ==>
                run[t].quad == quads[t] && run[t].am == AmOf(lfas[t], old(chan[c]).ams) && outs[t] == run[t].s.out
      ensures IsRun(run, alg, opCalc1, opCalc)
      ensures |run| > 0 ==> run[0].before == old(chan[c]) && run[|run| - 1].after == chan[c]
    {
      hide Obeys, ConnectFor, MomentOk, AmOf, FeedbackOutput, SampleTaken;
      ghost var first := chan[c];
      outs, run := [], [];
      for t := 0 to |quads|
        invariant |outs| == |run| == t
        invariant chan[c].ams == first.ams && chan[c].wires == ConnectFor(alg)
        invariant t == 0 ==> chan[c] == first
        invariant t > 0 ==> run[0].before == first && run[t - 1].after == chan[c]
        invariant forall k :: 0 <= k < t ==>
          run[k].quad == quads[k] && run[k].am == AmOf(lfas[k], first.ams) && outs[k] == run[k].s.out
        invariant IsRun(run, alg, opCalc1, opCalc)
      {
        ghost var m := SampleOnce(c, alg, quads[t], lfas[t]);
        outs := outs + [chanout[c]];
        run := run + [m];
      }
    }

    /** The operators and the LFO brought to where they stand, and one sample taken. */
    method SampleOnce(c: nat, alg: nat, quad: seq<Operator>, lfa: int) returns (ghost m: Moment)
      requires Shape() && c < 8 && alg < 8 && chan[c].wires == ConnectFor(alg) && !muted[c] && |quad| == 4
      modifies `lfo, oper, chan, chanout
      ensures m.quad == quad && m.am == AmOf(lfa, old(chan[c]).ams) && m.before == old(chan[c]) && m.after == chan[c]
      ensures MomentOk(m, alg, opCalc1, opCalc) && chanout[c] == m.s.out
      ensures chan[c].ams == old(chan[c]).ams && chan[c].wires == old(chan[c]).wires
    {
      hide Obeys, ConnectFor, MomentOk, AmOf, FeedbackOutput, SampleTaken;
      ghost var before := chan[c];
      lfo := lfo.(lfa := lfa);
      StoreFour(4 * c, quad[0], quad[1], quad[2], quad[3]);
      chanout[c] := 0;
      ghost var s := ChanCalc(c, alg);
      m := Moment(quad, AmOf(lfa, before.ams), before, s, chan[c]);
      MomentTaken(m, alg, opCalc1, opCalc);
    }

    /** ym2151_write_reg: r and v are cut to 8 bits. A reset calls it in ascending order with 0. */
    method WriteReg(r0: int, v0: int)
      requires Valid() && r0 % 256 <= done
      requires Ready() || (r0 % 256 != 8 && v0 % 256 == 0)
      modifies `lfo, `noise, `noiseF, `regs, `done, oper, chan, pan
      ensures Valid()
      ensures regs == old(regs)[r0 % 256 := v0 % 256] && done == DoneAfter(old(done), r0 % 256)
      ensures r0 % 256 != 8 ==> SameSounds(old(oper[..]), oper[..])
      ensures r0 % 256 == 8 ==> oper[..] == KeysWritten(old(oper[..]), v0 % 256, egCnt)
      ensures SameSamples(old(chan[..]), chan[..])
      ensures lfo == LfoWritten(old(lfo), r0 % 256, v0 % 256)
      ensures noiseF == if r0 % 256 == 0x0f then tables.noise[v0 % 256 % 32] else old(noiseF)
    {
      hide OperatorsOk, EnvelopesOk, ChannelsOk, LfoOk, SameSounds, SameSamples, DoneAfter;
      var r, v: Byte := r0 % 256, v0 % 256;
      ghost var ops := oper[..];
      if r < 0x20 {
        if r == 8 {
          KeyableOperators(tables, ops, regs, done);
          KonKoff(v);
          KeysKeepOperators(tables, ops, regs, done, v, egCnt);
        } else {
          WriteGlobal(r, v);
        }
        LowWriteKeepsOperators(tables, oper[..], regs, done, r, v);
        OtherWriteKeepsChannels(chan[..], regs, done, r, v);
      } else if r < 0x40 {
        WriteChannel(r, v);
      } else {
        WriteOperator(r, v);
        OtherWriteKeepsChannels(chan[..], regs, done, r, v);
      }
      NothingChanges(ops, chan[..]);
      SoundsKeepEnvelopes(ops, oper[..]);
      ghost var done' := DoneAfter(done, r);
      StillBlank(regs, done, r, v);
      regs, done := regs[r := v], done';
    }

    /** ym2151.c:723-797 */
    method WriteChannel(r: nat, v: Byte)
      requires Shape() && OperatorsOk(tables, oper[..], regs, done) && ChannelsOk(chan[..], regs, done)
      requires 0x20 <= r < 0x40 && r <= done
      requires Ready() || v == 0 == regs[0x28 + r % 8]
      modifies oper, chan, pan
      ensures OperatorsOk(tables, oper[..], regs[r := v], DoneAfter(done, r))
      ensures SameSounds(old(oper[..]), oper[..])
      ensures ChannelsOk(chan[..], regs[r := v], DoneAfter(done, r))
      ensures SameSamples(old(chan[..]), chan[..])
    {
      hide OperatorsOk, ViewOf, KcOf, ChannelsOk, SameSounds, SameSamples, DoneAfter;
      ghost var ops, channels := oper[..], chan[..];
      var c := r % 8;
      NothingChanges(ops, channels);
      if r < 0x28 {
        assert r == 0x20 + c;
        WriteConnection(c, v);
        LowWriteKeepsOperators(tables, ops, regs, done, r, v);
        ConnectionKeepsChannels(channels, regs, done, c, v);
      } else if r < 0x30 {
        assert r == 0x28 + c;
        ChannelOperator(tables, ops, regs, done, c, 0);
        KcOfZero();
        WriteKeyCode(c, v);
        OtherWriteKeepsChannels(channels, regs, done, r, v);
      } else if r < 0x38 {
        assert r == 0x30 + c;
        WriteKeyFraction(c, v);
        OtherWriteKeepsChannels(channels, regs, done, r, v);
      } else {
        assert r == 0x38 + c;
        chan[c] := chan[c].(pms := v / 16 % 8, ams := v % 4);
        assert chan[..] == channels[c := channels[c].(pms := v / 16 % 8, ams := v % 4)];
        LowWriteKeepsOperators(tables, ops, regs, done, r, v);
        SensitivityKeepsChannels(channels, regs, done, c, v);
      }
    }

    /** ym2151.c:725-732 */
    method WriteConnection(c: nat, v: Byte)
      requires Shape() && c < 8
      modifies chan, pan
      ensures chan[..] == old(chan[..])[c := old(chan[c]).(fbShift := FeedbackOf(v), wires := ConnectFor(v % 8))]
      ensures pan[..] == old(pan[..])[2 * c := v / 0x40 % 2 == 1][2 * c + 1 := v / 0x80 == 1]
    {
      var fbShift := if v / 8 % 8 != 0 then v / 8 % 8 + 6 else 0;
      pan[c * 2] := v / 0x40 % 2 == 1;
      pan[c * 2 + 1] := v / 0x80 % 2 == 1;
      chan[c] := chan[c].(fbShift := fbShift, wires := ConnectFor(v % 8));
    }

    /** ym2151.c:670-721 but for the key register: LFO and noise. */
    method WriteGlobal(r: Byte, v: Byte)
      requires Shape() && LfoOk(lfo)
      modifies `lfo, `noise, `noiseF
      ensures LfoOk(lfo) && lfo == LfoWritten(old(lfo), r, v)
      ensures noise == (if r == 0x0f then v else old(noise)) && noiseF == if r == 0x0f then tables.noise[v % 32] else old(noiseF)
    {
      match r
      case 0x01 =>
        lfo := lfo.(test := v);
        if v / 2 % 2 == 1 {
          lfo := lfo.(phase := 0);
        }
      case 0x0f =>
        noise := v;
        noiseF := tables.noise[v % 32];
      case 0x18 =>
        lfo := lfo.(overflow := Exp2(15 - v / 16 + 3) * 0x400, counterAdd := 0x10 + v % 16);
      case 0x19 =>
        lfo := if v >= 128 then lfo.(pmd := v % 128) else lfo.(amd := v % 128);
      case 0x1b =>
        lfo := lfo.(wsel := v % 4);
      case _ =>
    }

    /** envelope_KONKOFF on the channel and the four key bits of v. */
    method KonKoff(v: Byte)
      requires Shape() && Keyable(oper[..])
      modifies oper
      ensures oper[..] == KeysWritten(old(oper[..]), v, egCnt)
    {
      hide Keyed, KeysWritten;
      ghost var ops := oper[..];
      var m1 := v % 8 * 4;
      var op0 := Keyed(oper[m1], v / 0x08 % 2 == 1, egCnt);
      var op1 := Keyed(oper[m1 + 1], v / 0x20 % 2 == 1, egCnt);
      var op2 := Keyed(oper[m1 + 2], v / 0x10 % 2 == 1, egCnt);
      var op3 := Keyed(oper[m1 + 3], v / 0x40 % 2 == 1, egCnt);
      FourKeys(ops, v, egCnt, [op0, op1, op2, op3]);
      StoreFour(m1, op0, op1, op2, op3);
    }

    method StoreFour(m1: nat, op0: Operator, op1: Operator, op2: Operator, op3: Operator)
      requires m1 + 4 <= oper.Length
      modifies oper
      ensures oper[..] == old(oper[..m1]) + [op0, op1, op2, op3] + old(oper[m1 + 4..])
    {
      oper[m1], oper[m1 + 1], oper[m1 + 2], oper[m1 + 3] := op0, op1, op2, op3;
    }

    /** ym2151.c:734-769: nothing is done when the key code is the one already there. */
    method WriteKeyCode(c: nat, byte: Byte)
      requires Shape() && OperatorsOk(tables, oper[..], regs, done)
      requires c < 8 && 0x28 + c <= done
      requires Ready() || byte == 0 == oper[4 * c].pitch.kc
      modifies oper
      ensures OperatorsOk(tables, oper[..], regs[0x28 + c := byte], DoneAfter(done, 0x28 + c))
      ensures SameSounds(old(oper[..]), oper[..])
    {
      hide OperatorsOk, OperatorOk, ViewOf;
      ghost var ops := oper[..];
      var v := byte % 128;
      var m1 := 4 * c;
      ghost var w0, w1 := ViewOf(regs, done, m1), ViewOf(regs, done, m1 + 1);
      ghost var w2, w3 := ViewOf(regs, done, m1 + 2), ViewOf(regs, done, m1 + 3);
      ChannelOperator(tables, ops, regs, done, c, 0);
      ChannelOperator(tables, ops, regs, done, c, 1);
      ChannelOperator(tables, ops, regs, done, c, 2);
      ChannelOperator(tables, ops, regs, done, c, 3);
      var op0, op1, op2, op3 := oper[m1], oper[m1 + 1], oper[m1 + 2], oper[m1 + 3];
      if v != op0.pitch.kc {
        var kcChannel := (v - v / 4) * 64 + 768 + op0.pitch.kcI % 64;
        op0 := YmRegisters.WriteKeyCode(tables, op0, v, kcChannel, byte, w0);
        op1 := YmRegisters.WriteKeyCode(tables, op1, v, kcChannel, byte, w1);
        op2 := YmRegisters.WriteKeyCode(tables, op2, v, kcChannel, byte, w2);
        op3 := YmRegisters.WriteKeyCode(tables, op3, v, kcChannel, byte, w3);
      } else {
        SameKey(tables, op0, w0, byte);
        SameKey(tables, op1, w1, byte);
        SameKey(tables, op2, w2, byte);
        SameKey(tables, op3, w3, byte);
      }
      WriteKeepsChannel(tables, ops, regs, done, c, 0x28 + c, byte, [op0, op1, op2, op3]);
      StoreFour(m1, op0, op1, op2, op3);
    }

    /** ym2151.c:771-790 */
    method WriteKeyFraction(c: nat, byte: Byte)
      requires Shape() && OperatorsOk(tables, oper[..], regs, done)
      requires c < 8 && 0x30 + c <= done
      modifies oper
      ensures OperatorsOk(tables, oper[..], regs[0x30 + c := byte], DoneAfter(done, 0x30 + c))
      ensures SameSounds(old(oper[..]), oper[..])
    {
      hide OperatorsOk, OperatorOk, ViewOf;
      ghost var ops := oper[..];
      var v := byte / 4;
      var m1 := 4 * c;
      ghost var w0, w1 := ViewOf(regs, done, m1), ViewOf(regs, done, m1 + 1);
      ghost var w2, w3 := ViewOf(regs, done, m1 + 2), ViewOf(regs, done, m1 + 3);
      ChannelOperator(tables, ops, regs, done, c, 0);
      ChannelOperator(tables, ops, regs, done, c, 1);
      ChannelOperator(tables, ops, regs, done, c, 2);
      ChannelOperator(tables, ops, regs, done, c, 3);
      var op0, op1, op2, op3 := oper[m1], oper[m1 + 1], oper[m1 + 2], oper[m1 + 3];
      if v != op0.pitch.kcI % 64 {
        var kcChannel := v + (op0.pitch.kcI - op0.pitch.kcI % 64);
        op0 := YmRegisters.WriteKeyFraction(tables, op0, kcChannel, byte, w0);
        op1 := YmRegisters.WriteKeyFraction(tables, op1, kcChannel, byte, w1);
        op2 := YmRegisters.WriteKeyFraction(tables, op2, kcChannel, byte, w2);
        op3 := YmRegisters.WriteKeyFraction(tables, op3, kcChannel, byte, w3);
      } else {
        SameKey(tables, op0, w0, byte);
        SameKey(tables, op1, w1, byte);
        SameKey(tables, op2, w2, byte);
        SameKey(tables, op3, w3, byte);
      }
      WriteKeepsChannel(tables, ops, regs, done, c, 0x30 + c, byte, [op0, op1, op2, op3]);
      StoreFour(m1, op0, op1, op2, op3);
    }

    /** The banks 0x40 to 0xe0, ym2151.c:799-877. */
    method WriteOperator(r: nat, v: Byte)
      requires Shape() && OperatorsOk(tables, oper[..], regs, done)
      requires 0x40 <= r < 0x100 && r <= done
      modifies oper
      ensures OperatorsOk(tables, oper[..], regs[r := v], DoneAfter(done, r))
      ensures SameSounds(old(oper[..]), oper[..])
    {
      hide OperatorsOk, ViewOf;
      ghost var ops := oper[..];
      var i := r % 8 * 4 + r / 8 % 4;
      ghost var w := ViewOf(regs, done, i);
      OperatorAt(tables, ops, regs, done, i);
      var op := WriteBank(tables, oper[i], r, v, w);
      oper[i] := op;
      WriteKeepsOne(tables, ops, regs, done, r, v, op);
      assert oper[..] == ops[i := op];
    }
  }

  // ---------------------------------------------------------------- operators and channels as sequences

  /** The next output of M1: its feedback is the sum of the last two, shifted. */
  function FeedbackOutput(wave: Wave, op: Operator, ch: Channel, am: int): int {
    Output(wave, op, am, Feedback(ch.fbShift, ch.fbOutPrev, ch.fbOutCurr))
  }

  function Feedback(shift: nat, prev: int, curr: int): int {
    if shift == 0 then 0 else (prev + curr) * Exp2(shift)
  }

  /** The channel record after a sample; a MEM the drawing does not use keeps its value. */
  function SampleTaken(ch: Channel, alg: nat, s: Sample, m1Out: int): (r: Channel)
    ensures (r.wires, r.fbShift, r.pms, r.ams) == (ch.wires, ch.fbShift, ch.pms, ch.ams)
  {
    ch.(fbOutPrev := ch.fbOutCurr, fbOutCurr := m1Out, memValue := if UsesMem(alg) then s.memIn else ch.memValue)
  }

  /** AM of chan_calc: lfa << (ams - 1), if ams is not 0. */
  function AmOf(lfa: int, ams: nat): int {
    if ams != 0 then lfa * Exp2(ams - 1) else 0
  }

  /** One sample of a run: the operators, the AM value, the channel record on both sides, the signals. */
  datatype Moment = Moment(quad: seq<Operator>, am: int, before: Channel, s: Sample, after: Channel)

  ghost predicate MomentOk(m: Moment, alg: nat, wave1: Wave, wave: Wave)
    requires alg < 8 && |m.quad| == 4
  {
    && Obeys(alg, m.s, wave, m.quad[1], m.quad[2], m.quad[3], m.am)
    && m.s.m1 == m.before.fbOutCurr && m.s.mem == m.before.memValue
    && m.after == SampleTaken(m.before, alg, m.s, FeedbackOutput(wave1, m.quad[0], m.before, m.am))
  }

  ghost predicate IsRun(run: seq<Moment>, alg: nat, wave1: Wave, wave: Wave)
    requires alg < 8
  {
    && (forall t :: 0 <= t < |run| ==> |run[t].quad| == 4 && MomentOk(run[t], alg, wave1, wave))
    && (forall t, u :: 0 <= t < |run| && 0 <= u < |run| && u == t + 1 ==> run[u].before == run[t].after)
  }

  /** What a sample makes of channel c: a muted one is left alone, another takes a sample of its diagram. */
  ghost predicate ChannelUpdated(c: nat, alg: nat, s: Sample, ops: seq<Operator>, before: Channel, after: Channel,
                                 out: int, muted: bool, lfa: int, wave1: Wave, wave: Wave)
    requires c < 8 && alg < 8 && |ops| == 32
  {
    if muted then after == before && out == 0
    else
      MomentOk(Moment(ops[4 * c..4 * c + 4], AmOf(lfa, before.ams), before, s, after), alg, wave1, wave) && out == s.out
  }

  lemma MomentTaken(m: Moment, alg: nat, wave1: Wave, wave: Wave)
    requires alg < 8 && |m.quad| == 4
    requires Obeys(alg, m.s, wave, m.quad[1], m.quad[2], m.quad[3], m.am)
    requires m.s.m1 == m.before.fbOutCurr && m.s.mem == m.before.memValue
    requires m.after == SampleTaken(m.before, alg, m.s, FeedbackOutput(wave1, m.quad[0], m.before, m.am))
    ensures MomentOk(m, alg, wave1, wave)
  {
  }

  /**
   In a run, MEM is a delay of one sample and so is M1: the signal of M1 is what its operator gave
   one sample earlier, fed back with the sum of the two outputs before that.
   */
  lemma OneSampleDelays(run: seq<Moment>, alg: nat, wave1: Wave, wave: Wave, t: nat)
    requires alg < 8 && IsRun(run, alg, wave1, wave) && t + 1 < |run|
    ensures UsesMem(alg) ==> run[t + 1].s.mem == run[t].s.memIn
    ensures !UsesMem(alg) ==> run[t + 1].s.mem == run[t].s.mem
    ensures run[t + 1].s.m1 ==
            Output(wave1, run[t].quad[0], run[t].am, Feedback(run[t].before.fbShift, run[t].before.fbOutPrev, run[t].s.m1))
    ensures run[t + 1].before.fbOutPrev == run[t].s.m1
  {
    hide Obeys, Output;
    assert MomentOk(run[t], alg, wave1, wave) && MomentOk(run[t + 1], alg, wave1, wave);
    assert run[t + 1].before == run[t].after;
  }

  ghost predicate EnvelopesOk(ops: seq<Operator>) {
    forall i :: 0 <= i < |ops| ==> EnvelopeOk(ops[i].env)
  }

  /** memset to zero, then volume and kc_i. */
  function ClearedOperator(): Operator {
    Operator(0, Pitch(0, 768, 0, 0, 0, 0, 0),
             Rates(0, 0, 0, 0, 0, Rate(0, 0), Rate(0, 0), Rate(0, 0), Rate(0, 0)),
             Envelope(EG_OFF, MAX_ATT_INDEX, 0), 0, 0, false)
  }

  function ClearedChannel(): Channel {
    Channel(Wires(Mark, Mark, Mark, Mark), 0, 0, 0, 0, 0, 0)
  }

  /** Every envelope off at full attenuation, every phase and every stored sample zero. */
  predicate Silent(ops: seq<Operator>, chan: seq<Channel>) {
    && (forall i :: 0 <= i < |ops| ==> ops[i].env == Envelope(EG_OFF, MAX_ATT_INDEX, 0) && ops[i].phase == 0)
    && (forall c :: 0 <= c < |chan| ==> (chan[c].memValue, chan[c].fbOutCurr, chan[c].fbOutPrev) == (0, 0, 0))
  }

  lemma ClearedOperatorsOk(t: Tables, ops: seq<Operator>, regs: Registers)
    requires t.Ok() && Blank(regs)
    requires |ops| == 32 && forall i :: 0 <= i < 32 ==> ops[i] == ClearedOperator()
    ensures OperatorsOk(t, ops, regs, 0x20)
  {
    forall i | 0 <= i < 32 ensures OperatorOk(t, ops[i], ViewOf(regs, 0x20, i)) {
      assert U32(U32(t.freq[768] + 0) * 0) == 0;
    }
  }

  ghost predicate Blank(regs: Registers) {
    forall a :: 0 <= a < 256 ==> regs[a] == 0
  }

  /** The envelopes can take a key change. */
  ghost predicate Keyable(ops: seq<Operator>) {
    |ops| == 32 && forall i :: 0 <= i < 32 ==> EnvelopeOk(ops[i].env) && RateOk(ops[i].rates.egAr)
  }

  /** The slots of the key register: bit 3 is M1, bit 5 M2, bit 4 C1, bit 6 C2. */
  function KeyBit(v: Byte, slot: nat): bool
    requires slot < 4
  {
    if slot == 0 then v / 0x08 % 2 == 1
    else if slot == 1 then v / 0x20 % 2 == 1
    else if slot == 2 then v / 0x10 % 2 == 1
    else v / 0x40 % 2 == 1
  }

  /** One operator of the channel a key write names. */
  function Keyed(op: Operator, on: bool, cnt: nat): (op': Operator)
    requires EnvelopeOk(op.env) && RateOk(op.rates.egAr)
    ensures EnvelopeOk(op'.env) && (op'.env.key % 2 == 1 <==> on)
    ensures (op'.pitch, op'.rates, op'.tl, op'.d1l, op'.amMask) == (op.pitch, op.rates, op.tl, op.d1l, op.amMask)
  {
    if on then KeyOn(op, 1, cnt) else KeyOff(op, 1)
  }

  /** The effect of the key register: four operators keyed on or off, all others as before. */
  function KeysWritten(ops: seq<Operator>, v: Byte, cnt: nat): (ops': seq<Operator>)
    requires Keyable(ops)
    ensures |ops'| == 32
    ensures forall i :: 0 <= i < 32 ==>
              ops'[i] == if i / 4 == v % 8 then Keyed(ops[i], KeyBit(v, i % 4), cnt) else ops[i]
    ensures EnvelopesOk(ops')
  {
    seq(32, i requires 0 <= i < 32 =>
      if i / 4 == v % 8 then Keyed(ops[i], KeyBit(v, i % 4), cnt) else ops[i])
  }

  lemma FourKeys(ops: seq<Operator>, v: Byte, cnt: nat, four: seq<Operator>)
    requires Keyable(ops) && |four| == 4
    requires forall k :: 0 <= k < 4 ==> four[k] == Keyed(ops[v % 8 * 4 + k], KeyBit(v, k), cnt)
    ensures ops[..v % 8 * 4] + four + ops[v % 8 * 4 + 4..] == KeysWritten(ops, v, cnt)
  {
    hide Keyed, KeyBit;
    var m1 := v % 8 * 4;
    var ops' := ops[..m1] + four + ops[m1 + 4..];
    forall i | 0 <= i < 32
      ensures ops'[i] == if i / 4 == v % 8 then Keyed(ops[i], KeyBit(v, i % 4), cnt) else ops[i]
    {
      if m1 <= i < m1 + 4 {
        var k := i - m1;
        assert i / 4 == v % 8 && i % 4 == k;
        assert ops'[i] == four[k];
      } else {
        assert i / 4 != v % 8;
      }
    }
    assert ops' == KeysWritten(ops, v, cnt);
  }

  lemma KeysKeepOperators(t: Tables, ops: seq<Operator>, regs: Registers, done: nat, v: Byte, cnt: nat)
    requires t.Ok() && OperatorsOk(t, ops, regs, done) && Keyable(ops)
    ensures OperatorsOk(t, KeysWritten(ops, v, cnt), regs, done)
  {
    hide PitchAgrees, RatesAgree, PitchFresh, RatesFresh, RatesInRange, ViewOf;
    var ops' := KeysWritten(ops, v, cnt);
    forall i | 0 <= i < 32 ensures OperatorOk(t, ops'[i], ViewOf(regs, done, i)) {
      assert OperatorOk(t, ops[i], ViewOf(regs, done, i));
    }
  }

  ghost predicate ChannelsOk(chan: seq<Channel>, regs: Registers, done: nat) {
    |chan| == 8 &&
    forall c :: 0 <= c < 8 ==>
      && (0x20 + c < done ==> chan[c].wires == ConnectFor(regs[0x20 + c] % 8))
      && chan[c].fbShift == FeedbackOf(regs[0x20 + c])
      && chan[c].pms == regs[0x38 + c] / 16 % 8
      && chan[c].ams == regs[0x38 + c] % 4
  }

  predicate SameSamples(chan: seq<Channel>, chan': seq<Channel>) {
    |chan'| == |chan| && forall c :: 0 <= c < |chan| ==>
      (chan'[c].memValue, chan'[c].fbOutCurr, chan'[c].fbOutPrev) == (chan[c].memValue, chan[c].fbOutCurr, chan[c].fbOutPrev)
  }

  lemma KeyableOperators(t: Tables, ops: seq<Operator>, regs: Registers, done: nat)
    requires t.Ok() && OperatorsOk(t, ops, regs, done) && EnvelopesOk(ops)
    ensures Keyable(ops)
  {
    forall i | 0 <= i < 32 ensures RateOk(ops[i].rates.egAr) {
      assert OperatorOk(t, ops[i], ViewOf(regs, done, i));
    }
  }

  lemma SoundsKeepEnvelopes(ops: seq<Operator>, ops': seq<Operator>)
    requires EnvelopesOk(ops)
    ensures SameSounds(ops, ops') ==> EnvelopesOk(ops')
  {
  }

  /** A register no operator listens to. */
  lemma LowWriteKeepsOperators(t: Tables, ops: seq<Operator>, regs: Registers, done: nat, r: nat, v: Byte)
    requires t.Ok() && OperatorsOk(t, ops, regs, done)
    requires r < 0x28 || 0x38 <= r < 0x40
    requires r <= done
    ensures OperatorsOk(t, ops, regs[r := v], DoneAfter(done, r))
  {
    WriteKeepsOperators(t, ops, ops, regs, done, r, v);
  }

  lemma OtherWriteKeepsChannels(chan: seq<Channel>, regs: Registers, done: nat, r: nat, v: Byte)
    requires ChannelsOk(chan, regs, done) && r < 0x100 && (r < 0x20 || 0x28 <= r < 0x38 || 0x40 <= r) && r <= done
    ensures ChannelsOk(chan, regs[r := v], DoneAfter(done, r))
  {
  }

  lemma ConnectionKeepsChannels(chan: seq<Channel>, regs: Registers, done: nat, c: nat, v: Byte)
    requires ChannelsOk(chan, regs, done) && c < 8 && 0x20 + c <= done
    ensures var chan' := chan[c := chan[c].(fbShift := FeedbackOf(v), wires := ConnectFor(v % 8))];
            ChannelsOk(chan', regs[0x20 + c := v], DoneAfter(done, 0x20 + c)) && SameSamples(chan, chan')
  {
  }

  lemma SensitivityKeepsChannels(chan: seq<Channel>, regs: Registers, done: nat, c: nat, v: Byte)
    requires ChannelsOk(chan, regs, done) && c < 8 && 0x38 + c <= done
    ensures var chan' := chan[c := chan[c].(pms := v / 16 % 8, ams := v % 4)];
            ChannelsOk(chan', regs[0x38 + c := v], DoneAfter(done, 0x38 + c)) && SameSamples(chan, chan')
  {
  }

  lemma NothingChanges(ops: seq<Operator>, chan: seq<Channel>)
    ensures SameSounds(ops, ops) && SameSamples(chan, chan)
  {
  }

  lemma KcOfZero()
    ensures KcOf(0) == 0
  {
  }

  /** A reset writes zeros up to its end. */
  lemma StillBlank(regs: Registers, done: nat, r: nat, v: Byte)
    requires r < 256 && r <= done && (done == 0x100 || v == 0)
    requires done == 0x100 || Blank(regs)
    requires 0x20 <= done <= 0x100
    ensures var done' := DoneAfter(done, r);
            0x20 <= done' <= 0x100 && (done' == 0x100 || Blank(regs[r := v]))
  {
  }

  // ---------------------------------------------------------------- envelope ticks

  ghost predicate AllTicking(ops: seq<Operator>) {
    |ops| == 32 && forall i :: 0 <= i < 32 ==> Ticking(ops[i])
  }

  function TickedAll(ops: seq<Operator>, cnt: nat, n: nat): (ops': seq<Operator>)
    requires AllTicking(ops)
    ensures |ops'| == 32
  {
    seq(32, i requires 0 <= i < 32 => Ticks(ops[i], cnt, n))
  }

  ghost predicate OnlyEnvelopes(ops: seq<Operator>, ops': seq<Operator>) {
    |ops'| == |ops| && forall i :: 0 <= i < |ops| ==> ops'[i] == ops[i].(env := ops'[i].env)
  }

  ghost predicate OneTickEach(ops: seq<Operator>, ops': seq<Operator>, cnt: nat)
    requires AllTicking(ops)
  {
    |ops'| == 32 && forall i :: 0 <= i < 32 ==> ops'[i] == Tick(ops[i], cnt)
  }

  lemma OneTick(ops: seq<Operator>, ops': seq<Operator>, cnt: nat, n: nat)
    requires 1 <= n && AllTicking(ops) && AllTicking(ops') && OneTickEach(ops, ops', U32(cnt + 1))
    ensures TickedAll(ops, cnt, n) == TickedAll(ops', U32(cnt + 1), n - 1)
    ensures CounterAfter(cnt, n) == CounterAfter(U32(cnt + 1), n - 1)
  {
    hide Ticking, Tick;
    forall i | 0 <= i < 32 ensures Ticks(ops[i], cnt, n) == Ticks(ops'[i], U32(cnt + 1), n - 1) {
      assert Ticking(ops[i]) && ops'[i] == Tick(ops[i], U32(cnt + 1));
    }
  }

  lemma NoTicks(ops: seq<Operator>, cnt: nat)
    requires AllTicking(ops)
    ensures TickedAll(ops, cnt, 0) == ops && CounterAfter(cnt, 0) == cnt
  {
  }

  lemma OneOverflow(timer: nat)
    requires EG_TIMER_OVERFLOW <= timer
    ensures (timer - EG_TIMER_OVERFLOW) / EG_TIMER_OVERFLOW == timer / EG_TIMER_OVERFLOW - 1
    ensures (timer - EG_TIMER_OVERFLOW) % EG_TIMER_OVERFLOW == timer % EG_TIMER_OVERFLOW
    ensures 1 <= timer / EG_TIMER_OVERFLOW
  {
  }

  lemma NoEnvelopeChange(ops: seq<Operator>)
    ensures OnlyEnvelopes(ops, ops)
  {
  }

  lemma EnvelopesOnly(ops: seq<Operator>, mid: seq<Operator>, ops': seq<Operator>)
    requires OnlyEnvelopes(ops, mid) && OnlyEnvelopes(mid, ops')
    ensures OnlyEnvelopes(ops, ops')
  {
  }

  lemma TickingOperators(t: Tables, ops: seq<Operator>, regs: Registers)
    requires t.Ok() && OperatorsOk(t, ops, regs, 0x100) && EnvelopesOk(ops)
    ensures AllTicking(ops)
  {
    forall i | 0 <= i < 32 ensures Ticking(ops[i]) {
      assert OperatorOk(t, ops[i], ViewOf(regs, 0x100, i));
    }
  }

  lemma TicksKeepOperators(t: Tables, ops: seq<Operator>, ops': seq<Operator>, regs: Registers)
    requires t.Ok() && OperatorsOk(t, ops, regs, 0x100)
    requires OnlyEnvelopes(ops, ops') && AllTicking(ops')
    ensures OperatorsOk(t, ops', regs, 0x100) && EnvelopesOk(ops')
  {
    forall i | 0 <= i < 32 ensures OperatorOk(t, ops'[i], ViewOf(regs, 0x100, i)) {
      assert OperatorOk(t, ops[i], ViewOf(regs, 0x100, i));
    }
    forall i | 0 <= i < 32 ensures EnvelopeOk(ops'[i].env) {
      assert Ticking(ops'[i]);
    }
  }

  // ---------------------------------------------------------------- phases

  ghost predicate PitchesFresh(t: Tables, ops: seq<Operator>)
    requires t.Ok()
  {
    |ops| == 32 && forall i :: 0 <= i < 32 ==> PitchFresh(t, ops[i].pitch)
  }

  predicate PmsInRange(chan: seq<Channel>) {
    |chan| == 8 && forall c :: 0 <= c < 8 ==> chan[c].pms < 8
  }

  function PhasesAdvanced(t: Tables, ops: seq<Operator>, chan: seq<Channel>, lfp: int): (ops': seq<Operator>)
    requires t.Ok() && PitchesFresh(t, ops) && PmsInRange(chan) && -127 <= lfp <= 127
    ensures |ops'| == 32
  {
    seq(32, i requires 0 <= i < 32 => PhaseAdvanced(t, ops[i], chan[i / 4].pms, lfp))
  }

  /** What a sample makes of the noise register: as many shifts as its 16.16 counter passes whole numbers. */
  ghost predicate NoiseAdvanced(step: nat, p: nat, rng: nat, p': nat, rng': nat) {
    p' == U32(p + step) % 0x1_0000 && rng' == NoiseAfter(rng, U32(p + step) / 0x1_0000)
  }

  /** What a sample makes of the operators: n envelope ticks, then a phase step. */
  ghost predicate OperatorsUpdated(t: Tables, ops: seq<Operator>, ops': seq<Operator>, chan: seq<Channel>, cnt: nat,
                                   n: nat, lfp: int)
    requires t.Ok()
  {
    && AllTicking(ops) && PitchesFresh(t, TickedAll(ops, cnt, n)) && PmsInRange(chan) && -127 <= lfp <= 127
    && ops' == PhasesAdvanced(t, TickedAll(ops, cnt, n), chan, lfp)
  }

  lemma LfoInRange(l: Lfo)
    requires LfoOk(l)
    ensures -127 <= l.lfp <= 127 && l.phase < 256
  {
  }

  lemma UpdatedOperators(t: Tables, ops: seq<Operator>, ops': seq<Operator>, chan: seq<Channel>, cnt: nat, n: nat,
                         lfp: int)
    requires t.Ok() && AllTicking(ops) && PitchesFresh(t, TickedAll(ops, cnt, n)) && PmsInRange(chan) && -127 <= lfp <= 127
    requires ops' == PhasesAdvanced(t, TickedAll(ops, cnt, n), chan, lfp)
    ensures OperatorsUpdated(t, ops, ops', chan, cnt, n, lfp)
  {
  }

  lemma PhasesAt(t: Tables, ops: seq<Operator>, chan: seq<Channel>, lfp: int, c: nat, k: nat)
    requires t.Ok() && PitchesFresh(t, ops) && PmsInRange(chan) && -127 <= lfp <= 127 && c < 8 && k < 4
    ensures PhasesAdvanced(t, ops, chan, lfp)[4 * c + k] == PhaseAdvanced(t, ops[4 * c + k], chan[c].pms, lfp)
  {
    assert (4 * c + k) / 4 == c;
  }

  lemma FourMore(ops: seq<Operator>, ops': seq<Operator>, m1: nat, four: seq<Operator>)
    requires |ops| == |ops'| == 32 && m1 + 4 <= 32 && |four| == 4
    requires four[0] == ops'[m1] && four[1] == ops'[m1 + 1] && four[2] == ops'[m1 + 2] && four[3] == ops'[m1 + 3]
    ensures var mid := ops'[..m1] + ops[m1..]; mid[..m1] + four + mid[m1 + 4..] == ops'[..m1 + 4] + ops[m1 + 4..]
  {
  }

  lemma PitchesAreFresh(t: Tables, ops: seq<Operator>, regs: Registers, done: nat)
    requires t.Ok() && OperatorsOk(t, ops, regs, done)
    ensures PitchesFresh(t, ops)
  {
    forall i | 0 <= i < 32 ensures PitchFresh(t, ops[i].pitch) {
      assert OperatorOk(t, ops[i], ViewOf(regs, done, i));
    }
  }

  lemma SensitivitiesInRange(chan: seq<Channel>, regs: Registers, done: nat)
    requires ChannelsOk(chan, regs, done)
    ensures PmsInRange(chan)
  {
  }

  lemma PhasesKeepOperators(t: Tables, ops: seq<Operator>, chan: seq<Channel>, lfp: int, regs: Registers, done: nat)
    requires t.Ok() && OperatorsOk(t, ops, regs, done) && EnvelopesOk(ops)
    requires PitchesFresh(t, ops) && PmsInRange(chan) && -127 <= lfp <= 127
    ensures var ops' := PhasesAdvanced(t, ops, chan, lfp);
            OperatorsOk(t, ops', regs, done) && EnvelopesOk(ops')
  {
    hide PitchAgrees, RatesAgree, PitchFresh, RatesFresh, RatesInRange, ViewOf;
    var ops' := PhasesAdvanced(t, ops, chan, lfp);
    forall i | 0 <= i < 32 ensures OperatorOk(t, ops'[i], ViewOf(regs, done, i)) {
      assert OperatorOk(t, ops[i], ViewOf(regs, done, i));
    }
  }

  // ---------------------------------------------------------------- runs

  /** What a program does to the chip after a reset. */
  datatype Command = Write(r: int, v: int) | Update

  /** What a run is followed by. */
  datatype Snapshot = Snapshot(oper: seq<Operator>, chan: seq<Channel>, lfo: Lfo, egCnt: nat, egTimer: nat, out: seq<int>,
                               noiseF: nat, noiseP: nat, noiseRng: nat) {
    ghost predicate Shaped() { |oper| == 32 && |chan| == 8 && |out| == 8 }
  }

  /** A write sounds nothing but the keys and the LFO; a sample ticks, samples and advances everything. */
  ghost predicate StepOf(t: Tables, c: Command, a: Snapshot, b: Snapshot, regs: Registers, timerAdd: nat,
                         lfoTimerAdd: nat, noiseWave: NoiseWave, muted: seq<bool>, wave1: Wave, wave: Wave)
    requires t.Ok() && |muted| == 8
  {
    a.Shaped() && b.Shaped() &&
    match c
    case Write(r, v) =>
      && b.egCnt == a.egCnt && b.egTimer == a.egTimer && b.out == a.out && SameSamples(a.chan, b.chan)
      && b.lfo == LfoWritten(a.lfo, r % 256, v % 256) && b.noiseP == a.noiseP && b.noiseRng == a.noiseRng
      && b.noiseF == (if r % 256 == 0x0f then t.noise[v % 256 % 32] else a.noiseF)
      && (r % 256 != 8 ==> SameSounds(a.oper, b.oper))
      && (r % 256 == 8 ==> Keyable(a.oper) && b.oper == KeysWritten(a.oper, v % 256, a.egCnt))
    case Update => exists samples :: UpdatedBy(t, a, b, regs, timerAdd, lfoTimerAdd, noiseWave, muted, wave1, wave, samples)
  }

  ghost predicate UpdatedBy(t: Tables, a: Snapshot, b: Snapshot, regs: Registers, timerAdd: nat, lfoTimerAdd: nat,
                            noiseWave: NoiseWave, muted: seq<bool>, wave1: Wave, wave: Wave, samples: seq<Sample>)
    requires t.Ok() && a.Shaped() && b.Shaped() && |muted| == 8
  {
    var n := U32(a.egTimer + timerAdd) / EG_TIMER_OVERFLOW;
    && |samples| == 7 && b.egCnt == CounterAfter(a.egCnt, n) && b.egTimer == U32(a.egTimer + timerAdd) % EG_TIMER_OVERFLOW
    && a.lfo.phase < 256 && b.lfo == LfoAfter(a.lfo, lfoTimerAdd, noiseWave)
    && b.noiseF == a.noiseF && NoiseAdvanced(a.noiseF, a.noiseP, a.noiseRng, b.noiseP, b.noiseRng)
    && OperatorsUpdated(t, a.oper, b.oper, b.chan, a.egCnt, n, b.lfo.lfp)
    && forall c :: 0 <= c < 7 ==>
         ChannelUpdated(c, regs[0x20 + c] % 8, samples[c], TickedAll(a.oper, a.egCnt, n), a.chan[c], b.chan[c], b.out[c],
                        muted[c], a.lfo.lfa, wave1, wave)
  }

  lemma UpdateIsStep(t: Tables, a: Snapshot, b: Snapshot, regs: Registers, timerAdd: nat, lfoTimerAdd: nat,
                     noiseWave: NoiseWave, muted: seq<bool>, wave1: Wave, wave: Wave, samples: seq<Sample>)
    requires t.Ok() && a.Shaped() && b.Shaped() && |muted| == 8
    requires UpdatedBy(t, a, b, regs, timerAdd, lfoTimerAdd, noiseWave, muted, wave1, wave, samples)
    ensures StepOf(t, Update, a, b, regs, timerAdd, lfoTimerAdd, noiseWave, muted, wave1, wave)
  {
  }

  /** The register file a run leaves: the last byte written to each address. */
  function LastWritten(commands: seq<Command>): Registers {
    if commands == [] then seq(256, i => 0)
    else
      var regs, last := LastWritten(commands[..|commands| - 1]), commands[|commands| - 1];
      if last.Write? then regs[last.r % 256 := last.v % 256] else regs
  }

  lemma NothingWritten(regs: Registers)
    requires Blank(regs)
    ensures regs == LastWritten([])
  {
  }

  lemma WiresOfAlgorithm(chan: seq<Channel>, regs: Registers, c: nat)
    requires ChannelsOk(chan, regs, 0x100) && c < 8
    ensures chan[c].wires == ConnectFor(regs[0x20 + c] % 8)
  {
  }

  lemma SampleKeepsChannels(chan: seq<Channel>, regs: Registers, c: nat, ch: Channel)
    requires ChannelsOk(chan, regs, 0x100) && c < 8
    requires (ch.wires, ch.fbShift, ch.pms, ch.ams) == (chan[c].wires, chan[c].fbShift, chan[c].pms, chan[c].ams)
    ensures ChannelsOk(chan[c := ch], regs, 0x100)
  {
  }
}
