/**
 The eight connection algorithms of the YM2151 as they are drawn in the comments of set_connect:
 which operator output goes where, with MEM a one-sample delay.
 */
module YmDiagram {
  import opened YmTables
  import opened YmOperator

  datatype Node = M1 | C1 | MEM | M2 | C2 | OUT

  /** Where each node's arrows lead. */
  datatype Drawing = Drawing(m1: set<Node>, c1: set<Node>, mem: set<Node>, m2: set<Node>, c2: set<Node>)

  function DrawingOf(alg: nat): Drawing
    requires alg < 8
  {
    match alg
    case 0 => Drawing({C1}, {MEM}, {M2}, {C2}, {OUT})
    case 1 => Drawing({MEM}, {MEM}, {M2}, {C2}, {OUT})
    case 2 => Drawing({C2}, {MEM}, {M2}, {C2}, {OUT})
    case 3 => Drawing({C1}, {MEM}, {C2}, {C2}, {OUT})
    case 4 => Drawing({C1}, {OUT}, {}, {C2}, {OUT})
    case 5 => Drawing({C1, MEM, C2}, {OUT}, {M2}, {OUT}, {OUT})
    case 6 => Drawing({C1}, {OUT}, {}, {OUT}, {OUT})
    case _ => Drawing({OUT}, {OUT}, {}, {OUT}, {OUT})
  }

  /** MEM is part of the drawing. */
  predicate UsesMem(alg: nat) {
    alg <= 3 || alg == 5
  }

  /** The signals of one sample: the output of every node, and what goes into MEM and OUT. */
  datatype Sample = Sample(m1: int, c1: int, mem: int, m2: int, c2: int, memIn: int, out: int)

  /** The sum of the signals on the arrows into n. */
  function Into(alg: nat, s: Sample, n: Node): int
    requires alg < 8
  {
    var d := DrawingOf(alg);
    (if n in d.m1 then s.m1 else 0) + (if n in d.c1 then s.c1 else 0) + (if n in d.mem then s.mem else 0)
    + (if n in d.m2 then s.m2 else 0) + (if n in d.c2 then s.c2 else 0)
  }

  /** op_calc or op_calc1: any function of phase, attenuation and phase modulation. */
  type Wave = (nat, int, int) -> int

  /** volume_calc */
  function Attenuation(op: Operator, am: int): int {
    op.tl + op.env.volume + (if op.amMask then am else 0)
  }

  /** What an operator puts out for a modulation: nothing when it is quiet. */
  function Output(wave: Wave, op: Operator, am: int, pm: int): int {
    if Attenuation(op, am) < ENV_QUIET then wave(op.phase, Attenuation(op, am), pm) else 0
  }

  /** The signals are those of the drawing: every operator modulated by the sum of its arrows. */
  predicate Obeys(alg: nat, s: Sample, wave: Wave, m2: Operator, c1: Operator, c2: Operator, am: int)
    requires alg < 8
  {
    && s.m2 == Output(wave, m2, am, Into(alg, s, M2))
    && s.c1 == Output(wave, c1, am, Into(alg, s, C1))
    && s.c2 == Output(wave, c2, am, Into(alg, s, C2))
    && s.memIn == Into(alg, s, MEM)
    && s.out == Into(alg, s, OUT)
  }

  /** The sums of arrows, drawing by drawing. */
  function Sums(alg: nat, s: Sample): (t: Sample)
    requires alg < 8
    ensures t == Sample(0, Into(alg, s, C1), 0, Into(alg, s, M2), Into(alg, s, C2), Into(alg, s, MEM), Into(alg, s, OUT))
  {
    match alg
    case 0 => Sample(0, s.m1, 0, s.mem, s.m2, s.c1, s.c2)
    case 1 => Sample(0, 0, 0, s.mem, s.m2, s.m1 + s.c1, s.c2)
    case 2 => Sample(0, 0, 0, s.mem, s.m1 + s.m2, s.c1, s.c2)
    case 3 => Sample(0, s.m1, 0, 0, s.mem + s.m2, s.c1, s.c2)
    case 4 => Sample(0, s.m1, 0, 0, s.m2, 0, s.c1 + s.c2)
    case 5 => Sample(0, s.m1, 0, s.mem, s.m1, s.m1, s.c1 + s.m2 + s.c2)
    case 6 => Sample(0, s.m1, 0, 0, 0, 0, s.c1 + s.m2 + s.c2)
    case _ => Sample(0, 0, 0, 0, 0, 0, s.m1 + s.c1 + s.m2 + s.c2)
  }

  /** The drawings have no cycle but through the delay, so M1 and MEM determine every other signal. */
  lemma DrawingDeterminesSample(alg: nat, s: Sample, s': Sample, wave: Wave,
                                m2: Operator, c1: Operator, c2: Operator, am: int)
    requires alg < 8 && s.m1 == s'.m1 && s.mem == s'.mem
    requires Obeys(alg, s, wave, m2, c1, c2, am) && Obeys(alg, s', wave, m2, c1, c2, am)
    ensures s == s'
  {
    hide Output, Into;
    assert Sums(alg, s).m2 == Sums(alg, s').m2 && Sums(alg, s).c1 == Sums(alg, s').c1;
    assert Sums(alg, s).c2 == Sums(alg, s').c2;
  }
}
