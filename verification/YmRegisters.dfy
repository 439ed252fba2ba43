/**
 The YM2151 register file. ym2151_write_reg keeps per-operator fields up to date incrementally;
 here those fields are what the last byte written to each register says they are.
 */
module YmRegisters {
  import opened YmTables
  import opened YmOperator

  type Byte = x: int | 0 <= x < 0x100

  /** The register file: the last byte written to each of the 256 addresses. */
  type Registers = s: seq<Byte> | |s| == 256 witness seq(256, i => 0)

  /** Operator i of the chip listens at bank + Slot(i) in the banks from 0x40 up. */
  function Slot(i: nat): (a: nat)
    requires i < 32
    ensures a < 32 && Index(a) == i
  {
    i / 4 + 8 * (i % 4)
  }

  /** chip->oper[ (r&0x07)*4 + ((r&0x18)>>3) ] */
  function Index(r: nat): (i: nat)
    ensures i < 32 && i / 4 == r % 8 && i % 4 == r / 8 % 4
  {
    r % 8 * 4 + r / 8 % 4
  }

  lemma SlotOfIndex(r: nat)
    ensures Slot(Index(r)) == r % 32
  {
  }

  // The bit fields of a written byte.
  function KcOf(v: Byte): (kc: nat)
    ensures kc < 128
  {
    v % 128
  }

  /** (kc - (kc >> 2)) * 64 + 768, with the key fraction in the low six bits. */
  function KcIndex(kc: nat, kf: nat): (i: nat)
    requires kc < 128 && kf < 64
    ensures 768 <= i <= 6975 && i % 64 == kf
  {
    LowBits(kc - kc / 4 + 12, kf);
    (kc - kc / 4) * 64 + 768 + kf
  }

  lemma LowBits(high: nat, low: nat)
    requires low < 64
    ensures (high * 64 + low) % 64 == low
  {
  }

  function Dt1IndexOf(v: Byte): (i: nat)
    ensures i % 32 == 0 && i < 256
  {
    v / 16 % 8 * 32
  }

  function MulOf(v: Byte): nat {
    if v % 16 != 0 then v % 16 * 2 else 1
  }

  function RateOf(v: Byte): (rate: nat)
    ensures rate <= 94
  {
    if v % 32 != 0 then 32 + v % 32 * 2 else 0
  }

  function KsOf(v: Byte): (ks: nat)
    ensures 2 <= ks <= 5
  {
    5 - v / 64
  }

  function ReleaseOf(v: Byte): (rate: nat)
    ensures 34 <= rate <= 94
  {
    34 + v % 16 * 4
  }

  function FeedbackOf(v: Byte): nat {
    if v / 8 % 8 != 0 then v / 8 % 8 + 6 else 0
  }

  /**
   What the register file tells one operator. Since the reset cleared the operator, addresses are
   written in ascending order and `done` is the first one not reached; the three fields whose
   cleared value is not the decoding of a zero byte are 0 until their register is.
   */
  datatype View = View(kc: Byte, kf: Byte, dt1Mul: Byte, level: Byte, ksAr: Byte, amD1r: Byte,
                       dt2D2r: Byte, d1lRr: Byte, mulSet: bool, ksSet: bool, rrSet: bool)

  function ViewOf(regs: Registers, done: nat, i: nat): View
    requires i < 32
  {
    var ch, a := i / 4, Slot(i);
    View(regs[0x28 + ch], regs[0x30 + ch], regs[0x40 + a], regs[0x60 + a], regs[0x80 + a],
         regs[0xa0 + a], regs[0xc0 + a], regs[0xe0 + a],
         0x40 + a < done, 0x80 + a < done, 0xe0 + a < done)
  }

  ghost predicate PitchAgrees(p: Pitch, w: View) {
    && p.kc == KcOf(w.kc)
    && p.kcI == KcIndex(p.kc, w.kf / 4)
    && p.dt1I == Dt1IndexOf(w.dt1Mul)
    && p.mul == (if w.mulSet then MulOf(w.dt1Mul) else 0)
    && p.dt2 == Dt2(w.dt2D2r / 64)
  }

  ghost predicate RatesAgree(r: Rates, w: View) {
    && r.ks == (if w.ksSet then KsOf(w.ksAr) else 0)
    && r.ar == RateOf(w.ksAr)
    && r.d1r == RateOf(w.amD1r)
    && r.d2r == RateOf(w.dt2D2r)
    && r.rr == (if w.rrSet then ReleaseOf(w.d1lRr) else 0)
  }

  /** Programmed fields in agreement with the registers, cached fields fresh. */
  ghost predicate OperatorOk(t: Tables, op: Operator, w: View)
    requires t.Ok()
  {
    && PitchAgrees(op.pitch, w)
    && RatesAgree(op.rates, w)
    && op.tl == w.level % 128 * 8
    && op.amMask == (w.amD1r >= 128)
    && op.d1l == D1l(w.d1lRr / 16)
    && PitchFresh(t, op.pitch)
    && RatesInRange(op.pitch.kc, op.rates)
    && (w.ksSet ==> RatesFresh(op.pitch.kc, op.rates))
  }

  /** The addresses operator i depends on. */
  predicate Listens(i: nat, r: nat)
    requires i < 32
  {
    if r < 0x28 then false else if r < 0x38 then r % 8 == i / 4 else 0x40 <= r && r % 32 == Slot(i)
  }

  /** The write of v to r, in ascending order of r after a reset. */
  function DoneAfter(done: nat, r: nat): nat {
    if r == done then done + 1 else done
  }

  /** A write elsewhere leaves operator i's view of the registers alone. */
  lemma OtherAddress(regs: Registers, done: nat, r: nat, v: Byte, i: nat)
    requires i < 32 && r < 256 && !Listens(i, r)
    ensures ViewOf(regs[r := v], DoneAfter(done, r), i) == ViewOf(regs, done, i)
  {
    hide Slot;
    var a := Slot(i);
    assert (0x40 + a) % 32 == a && (0x60 + a) % 32 == a && (0x80 + a) % 32 == a;
    assert (0xa0 + a) % 32 == a && (0xc0 + a) % 32 == a && (0xe0 + a) % 32 == a;
  }

  /** kc_i & 63 is the key fraction, and kc_i & ~63 the rest. */
  lemma KcIndexParts(t: Tables, op: Operator, w: View)
    requires t.Ok() && OperatorOk(t, op, w)
    ensures op.pitch.kc < 128 && op.pitch.kc == KcOf(w.kc)
    ensures op.pitch.kcI % 64 == w.kf / 4
    ensures op.pitch.kcI == KcIndex(op.pitch.kc, op.pitch.kcI % 64)
  {
    hide KcIndex, PitchFresh, RatesInRange, RatesFresh, RatesAgree;
  }

  /** Skipping the update is right when the key code or fraction is the one already there. */
  lemma SameKey(t: Tables, op: Operator, w: View, byte: Byte)
    requires t.Ok() && OperatorOk(t, op, w)
    ensures KcOf(byte) == op.pitch.kc ==> OperatorOk(t, op, w.(kc := byte))
    ensures byte / 4 == op.pitch.kcI % 64 ==> OperatorOk(t, op, w.(kf := byte))
  {
    KcIndexParts(t, op, w);
  }

  // ---------------------------------------------------------------- writes to operator registers

  /** ym2151.c:799-813: dt1 and freq are looked up again only if what they depend on changed. */
  method WriteDt1Mul(t: Tables, p: Pitch, v: Byte, ghost w: View) returns (p': Pitch)
    requires t.Ok() && PitchFresh(t, p) && PitchAgrees(p, w)
    ensures PitchFresh(t, p') && PitchAgrees(p', w.(dt1Mul := v, mulSet := true))
    ensures p'.kc == p.kc
  {
    hide StepAt, Dt1IndexOf, MulOf;
    p' := p.(dt1I := Dt1IndexOf(v), mul := MulOf(v));
    if p.dt1I != p'.dt1I {
      p' := p'.(dt1 := t.dt1[p'.dt1I + p'.kc / 4]);
    }
    if p.dt1I != p'.dt1I || p.mul != p'.mul {
      p' := p'.(freq := StepAt(t, p'.kcI + p'.dt2, p'.dt1, p'.mul));
    }
  }

  /** ym2151.c:819-851: the decay, sustain and release pairs are looked up again only if ks changed. */
  method WriteKsAr(kc: nat, r: Rates, v: Byte, ghost w: View) returns (r': Rates)
    requires RatesInRange(kc, r) && RatesAgree(r, w) && (w.ksSet ==> RatesFresh(kc, r))
    ensures RatesInRange(kc, r') && RatesAgree(r', w.(ksAr := v, ksSet := true)) && RatesFresh(kc, r')
  {
    hide RateOk, KeyScale, AttackRate, OtherRate, KsOf, RateOf, ReleaseOf;
    r' := r.(ks := KsOf(v), ar := RateOf(v));
    if r'.ar != r.ar || r'.ks != r.ks {
      r' := r'.(egAr := AttackRate(r'.ar + KeyScale(kc, r'.ks)));
    }
    if r'.ks != r.ks {
      r' := r'.(egD1r := OtherRate(r'.d1r + KeyScale(kc, r'.ks)),
                egD2r := OtherRate(r'.d2r + KeyScale(kc, r'.ks)),
                egRr := OtherRate(r'.rr + KeyScale(kc, r'.ks)));
    }
  }

  /** ym2151.c:855-857 */
  method WriteD1r(kc: nat, r: Rates, v: Byte, ghost w: View) returns (r': Rates)
    requires RatesInRange(kc, r) && RatesAgree(r, w) && (w.ksSet ==> RatesFresh(kc, r))
    ensures RatesInRange(kc, r') && RatesAgree(r', w.(amD1r := v)) && (w.ksSet ==> RatesFresh(kc, r'))
  {
    hide RateOk, KeyScale, AttackRate, OtherRate, KsOf, RateOf, ReleaseOf;
    r' := r.(d1r := RateOf(v));
    r' := r'.(egD1r := OtherRate(r'.d1r + KeyScale(kc, r'.ks)));
  }

  /** ym2151.c:867-869 */
  method WriteD2r(kc: nat, r: Rates, v: Byte, ghost w: View) returns (r': Rates)
    requires RatesInRange(kc, r) && RatesAgree(r, w) && (w.ksSet ==> RatesFresh(kc, r))
    ensures RatesInRange(kc, r') && RatesAgree(r', w.(dt2D2r := v)) && (w.ksSet ==> RatesFresh(kc, r'))
  {
    hide RateOk, KeyScale, AttackRate, OtherRate, KsOf, RateOf, ReleaseOf;
    r' := r.(d2r := RateOf(v));
    r' := r'.(egD2r := OtherRate(r'.d2r + KeyScale(kc, r'.ks)));
  }

  /** ym2151.c:874-876 */
  method WriteRr(kc: nat, r: Rates, v: Byte, ghost w: View) returns (r': Rates)
    requires RatesInRange(kc, r) && RatesAgree(r, w) && (w.ksSet ==> RatesFresh(kc, r))
    ensures RatesInRange(kc, r') && RatesAgree(r', w.(d1lRr := v, rrSet := true))
    ensures w.ksSet ==> RatesFresh(kc, r')
  {
    hide RateOk, KeyScale, AttackRate, OtherRate, KsOf, RateOf, ReleaseOf;
    r' := r.(rr := ReleaseOf(v));
    r' := r'.(egRr := OtherRate(r'.rr + KeyScale(kc, r'.ks)));
  }

  /** ym2151.c:861-866 */
  method WriteDt2(t: Tables, p: Pitch, v: Byte, ghost w: View) returns (p': Pitch)
    requires t.Ok() && PitchFresh(t, p) && PitchAgrees(p, w)
    ensures PitchFresh(t, p') && PitchAgrees(p', w.(dt2D2r := v))
    ensures p'.kc == p.kc
  {
    hide StepAt;
    p' := p.(dt2 := Dt2(v / 64));
    if p'.dt2 != p.dt2 {
      p' := p'.(freq := StepAt(t, p'.kcI + p'.dt2, p'.dt1, p'.mul));
    }
  }

  /** The banks 0x40 to 0xe0 for the operator that listens to them, ym2151.c:799-877. */
  method WriteBank(t: Tables, op: Operator, r: nat, v: Byte, ghost w: View) returns (op': Operator)
    requires t.Ok() && OperatorOk(t, op, w) && 0x40 <= r < 0x100
    ensures OperatorOk(t, op', ViewAfter(w, r, v)) && SameSound(op, op')
  {
    hide PitchFresh, RatesFresh, RatesInRange;
    var kc := op.pitch.kc;
    op' := op;
    match r / 0x20 {
      case 2 =>
        var p := WriteDt1Mul(t, op.pitch, v, w);
        op' := op'.(pitch := p);
      case 3 =>
        op' := op'.(tl := v % 128 * 8);
      case 4 =>
        var rates := WriteKsAr(kc, op.rates, v, w);
        op' := op'.(rates := rates);
      case 5 =>
        var rates := WriteD1r(kc, op.rates, v, w);
        op' := op'.(amMask := v >= 128, rates := rates);
      case 6 =>
        var p := WriteDt2(t, op.pitch, v, w);
        var rates := WriteD2r(kc, op.rates, v, w);
        op' := op'.(pitch := p, rates := rates);
      case _ =>
        var rates := WriteRr(kc, op.rates, v, w);
        op' := op'.(d1l := D1l(v / 16), rates := rates);
    }
  }

  /** ym2151.c:744-767 for one of the four operators of a channel whose key code changes to v. */
  method WriteKeyCode(t: Tables, op: Operator, v: nat, kcChannel: nat, byte: Byte, ghost w: View)
    returns (op': Operator)
    requires t.Ok() && OperatorOk(t, op, w) && w.ksSet
    requires v == KcOf(byte) && kcChannel == KcIndex(v, w.kf / 4)
    ensures OperatorOk(t, op', w.(kc := byte)) && SameSound(op, op')
  {
    hide StepAt;
    var p := op.pitch.(kc := v, kcI := kcChannel);
    p := p.(dt1 := t.dt1[p.dt1I + v / 4]);
    p := p.(freq := StepAt(t, kcChannel + p.dt2, p.dt1, p.mul));
    op' := op.(pitch := p, rates := RefreshEg(v, op.rates));
  }

  /** ym2151.c:780-788 for one of the four operators of a channel whose key fraction changes. */
  method WriteKeyFraction(t: Tables, op: Operator, kcChannel: nat, byte: Byte, ghost w: View)
    returns (op': Operator)
    requires t.Ok() && OperatorOk(t, op, w)
    requires kcChannel == KcIndex(op.pitch.kc, byte / 4)
    ensures OperatorOk(t, op', w.(kf := byte)) && SameSound(op, op')
  {
    hide StepAt;
    var p := op.pitch.(kcI := kcChannel);
    p := p.(freq := StepAt(t, kcChannel + p.dt2, p.dt1, p.mul));
    op' := op.(pitch := p);
  }

  predicate SameSound(op: Operator, op': Operator) {
    op'.env == op.env && op'.phase == op.phase
  }

  // ---------------------------------------------------------------- all the operators

  ghost predicate OperatorsOk(t: Tables, ops: seq<Operator>, regs: Registers, done: nat)
    requires t.Ok()
  {
    |ops| == 32 && forall i :: 0 <= i < 32 ==> OperatorOk(t, ops[i], ViewOf(regs, done, i))
  }

  /** What a write of v to r makes of operator i's view, when r is an operator register. */
  function ViewAfter(w: View, r: nat, v: Byte): View {
    if r < 0x28 then w
    else if r < 0x30 then w.(kc := v)
    else if r < 0x38 then w.(kf := v)
    else if r < 0x40 then w
    else if r < 0x60 then w.(dt1Mul := v, mulSet := true)
    else if r < 0x80 then w.(level := v)
    else if r < 0xa0 then w.(ksAr := v, ksSet := true)
    else if r < 0xc0 then w.(amD1r := v)
    else if r < 0xe0 then w.(dt2D2r := v)
    else w.(d1lRr := v, rrSet := true)
  }

  lemma ViewAfterWrite(regs: Registers, done: nat, r: nat, v: Byte, i: nat)
    requires i < 32 && r < 256 && Listens(i, r) && r <= done
    ensures ViewOf(regs[r := v], DoneAfter(done, r), i) == ViewAfter(ViewOf(regs, done, i), r, v)
  {
    hide Slot;
    var a := Slot(i);
    if r >= 0x40 {
      var bank := r / 32;
      assert r == bank * 32 + a && 2 <= bank < 8;
      assert bank == 2 || bank == 3 || bank == 4 || bank == 5 || bank == 6 || bank == 7;
    }
  }

  /** Writing one register leaves every operator in order if it leaves those listening to it in order. */
  lemma WriteKeepsOperators(t: Tables, ops: seq<Operator>, ops': seq<Operator>, regs: Registers,
                            done: nat, r: nat, v: Byte)
    requires t.Ok() && OperatorsOk(t, ops, regs, done) && |ops'| == 32
    requires r < 256 && r <= done
    requires forall i :: 0 <= i < 32 && Listens(i, r) ==>
               OperatorOk(t, ops'[i], ViewAfter(ViewOf(regs, done, i), r, v))
    requires forall i :: 0 <= i < 32 && !Listens(i, r) ==> ops'[i] == ops[i]
    ensures OperatorsOk(t, ops', regs[r := v], DoneAfter(done, r))
  {
    hide OperatorOk, ViewOf, ViewAfter, Listens;
    forall i | 0 <= i < 32
      ensures OperatorOk(t, ops'[i], ViewOf(regs[r := v], DoneAfter(done, r), i))
    {
      if Listens(i, r) {
        ViewAfterWrite(regs, done, r, v, i);
      } else {
        OtherAddress(regs, done, r, v, i);
      }
    }
  }

  /** What the operators of channel c share. */
  lemma ChannelOperator(t: Tables, ops: seq<Operator>, regs: Registers, done: nat, c: nat, k: nat)
    requires t.Ok() && OperatorsOk(t, ops, regs, done) && c < 8 && k < 4
    ensures var i := 4 * c + k;
            && OperatorOk(t, ops[i], ViewOf(regs, done, i))
            && ViewOf(regs, done, i).kf == regs[0x30 + c]
            && ops[i].pitch.kc == KcOf(regs[0x28 + c])
            && ops[i].pitch.kcI % 64 == regs[0x30 + c] / 4
            && ops[i].pitch.kcI == KcIndex(ops[i].pitch.kc, regs[0x30 + c] / 4)
            && (done == 0x100 ==> ViewOf(regs, done, i).ksSet)
  {
    hide OperatorOk, KcIndex, KcOf;
    var i := 4 * c + k;
    assert i / 4 == c;
    KcIndexParts(t, ops[i], ViewOf(regs, done, i));
  }

  /** Replacing the four operators of a channel after a write to its key code or key fraction. */
  lemma WriteKeepsChannel(t: Tables, ops: seq<Operator>, regs: Registers, done: nat, c: nat, r: nat, v: Byte,
                          four: seq<Operator>)
    requires t.Ok() && OperatorsOk(t, ops, regs, done)
    requires c < 8 && |four| == 4 && r <= done && (r == 0x28 + c || r == 0x30 + c)
    requires OperatorOk(t, four[0], ViewAfter(ViewOf(regs, done, 4 * c), r, v)) && SameSound(ops[4 * c], four[0])
    requires OperatorOk(t, four[1], ViewAfter(ViewOf(regs, done, 4 * c + 1), r, v)) && SameSound(ops[4 * c + 1], four[1])
    requires OperatorOk(t, four[2], ViewAfter(ViewOf(regs, done, 4 * c + 2), r, v)) && SameSound(ops[4 * c + 2], four[2])
    requires OperatorOk(t, four[3], ViewAfter(ViewOf(regs, done, 4 * c + 3), r, v)) && SameSound(ops[4 * c + 3], four[3])
    ensures var ops' := ops[..4 * c] + four + ops[4 * c + 4..];
            OperatorsOk(t, ops', regs[r := v], DoneAfter(done, r)) && SameSounds(ops, ops')
  {
    hide OperatorOk, ViewOf, ViewAfter;
    var ops' := ops[..4 * c] + four + ops[4 * c + 4..];
    forall i | 0 <= i < 32 && Listens(i, r)
      ensures OperatorOk(t, ops'[i], ViewAfter(ViewOf(regs, done, i), r, v)) && SameSound(ops[i], ops'[i])
    {
      var k := i - 4 * c;
      assert ops'[i] == four[k];
    }
    WriteKeepsOperators(t, ops, ops', regs, done, r, v);
  }

  predicate SameSounds(ops: seq<Operator>, ops': seq<Operator>) {
    |ops'| == |ops| && forall i :: 0 <= i < |ops| ==> SameSound(ops[i], ops'[i])
  }

  lemma OperatorAt(t: Tables, ops: seq<Operator>, regs: Registers, done: nat, i: nat)
    requires t.Ok() && OperatorsOk(t, ops, regs, done) && i < 32
    ensures OperatorOk(t, ops[i], ViewOf(regs, done, i))
  {
  }

  /** Replacing the one operator that listens to an address from 0x40 up. */
  lemma WriteKeepsOne(t: Tables, ops: seq<Operator>, regs: Registers, done: nat, r: nat, v: Byte, op: Operator)
    requires t.Ok() && OperatorsOk(t, ops, regs, done) && 0x40 <= r < 0x100 && r <= done
    requires var i := Index(r);
             OperatorOk(t, op, ViewAfter(ViewOf(regs, done, i), r, v)) && SameSound(ops[i], op)
    ensures OperatorsOk(t, ops[Index(r) := op], regs[r := v], DoneAfter(done, r))
    ensures SameSounds(ops, ops[Index(r) := op])
  {
    hide OperatorOk, ViewOf, ViewAfter;
    forall i | 0 <= i < 32
      ensures Listens(i, r) <==> i == Index(r)
    {
      SlotOfIndex(r);
    }
    WriteKeepsOperators(t, ops, ops[Index(r) := op], regs, done, r, v);
  }
}
