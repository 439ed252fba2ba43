/** musashi/m68kcpu.h and m68k_in.c: TRAP and interrupt entry and RTE on the 68000, and the stack they bank. */
module M68kException {
  import opened Arithmetic
  import opened M68k
  import opened M68kMemory

  /** The state exceptions read and write; sp is REG_SP, the active one of the three stack pointers. */
  datatype Core = Core(pc: uint, sp: uint, bank: seq<uint>, t1: bool, t0: bool, s: bool, m: bool, intMask: nat,
                       ccr: Ccr, stopped: bool, halted: bool, mem: seq<byte>) {
    predicate Valid() { |bank| == 7 && intMask < 8 && |mem| == SPACE }

    /** REG_SP_BASE[FLAG_S | ((FLAG_S >> 1) & FLAG_M)] is where the active pointer is kept while another is in use. */
    function Slot(): (r: nat)
      ensures r < 7
    {
      if s then (if m then 6 else 4) else 0
    }

    /** The user stack pointer, active or not. */
    function Usp(): uint
      requires Valid()
    {
      if s then bank[0] else sp
    }

    /** The supervisor stack pointer, active or not. */
    function Ssp(): uint
      requires Valid()
    {
      if s then sp else bank[if m then 6 else 4]
    }
  }

  // ---------------------------------------------------------------- the status register

  function Bit(b: bool, weight: nat): nat { if b then weight else 0 }

  /** m68ki_get_sr */
  function GetSr(c: Core): nat {
    Bit(c.t1, 0x8000) + Bit(c.t0, 0x4000) + Bit(c.s, 0x2000) + Bit(c.m, 0x1000) + c.intMask * 0x100
    + Bit(c.ccr.x, 0x10) + Bit(c.ccr.n, 8) + Bit(c.ccr.z, 4) + Bit(c.ccr.v, 2) + Bit(c.ccr.c, 1)
  }

  predicate HasBit(v: nat, weight: nat)
    requires weight > 0
  {
    v / weight % 2 == 1
  }

  /** value & CPU_SR_MASK: 0xa71f on the 68000. */
  function MaskSr(v: nat): nat {
    Bit(HasBit(v, 0x8000), 0x8000) + Bit(HasBit(v, 0x2000), 0x2000) + v / 0x100 % 8 * 0x100 + v % 0x20
  }

  /** m68ki_set_sm_flag */
  function SetSm(c: Core, s: bool, m: bool): (r: Core)
    requires c.Valid()
    ensures r.Valid()
  {
    var banked := c.bank[c.Slot() := c.sp];
    var r := c.(bank := banked, s := s, m := m);
    r.(sp := banked[r.Slot()])
  }

  /** m68ki_set_sr_noint: the trace-0 and master bits are masked away. */
  function SetSrNoInt(c: Core, v: nat): (r: Core)
    requires c.Valid()
    ensures r.Valid()
  {
    var value := MaskSr(v);
    SetSm(c.(t1 := HasBit(value, 0x8000), t0 := HasBit(value, 0x4000), intMask := value / 0x100 % 8,
             ccr := Ccr(HasBit(value, 0x10), HasBit(value, 8), HasBit(value, 4), HasBit(value, 2), HasBit(value, 1))),
          HasBit(value, 0x2000), HasBit(value, 0x1000))
  }

  // ---------------------------------------------------------------- entry and return

  /** m68ki_push_16 and m68ki_push_32 */
  function Push(c: Core, w: nat, v: nat): (r: Core)
    requires c.Valid()
    ensures r.Valid()
  {
    c.(sp := Wrap(c.sp - w), mem := Store(c.mem, Wrap(c.sp - w), w, v))
  }

  /** m68ki_init_exception: trace off and supervisor stack; the old status register is pushed later. */
  function Init(c: Core): (r: Core)
    requires c.Valid()
    ensures r.Valid()
  {
    SetSm(c.(t1 := false, t0 := false), true, c.m)
  }

  /** m68ki_stack_frame_3word */
  function PushFrame(c: Core, pc: uint, sr: nat): (r: Core)
    requires c.Valid()
    ensures r.Valid()
  {
    Push(Push(c, 4, pc), 2, sr)
  }

  datatype Kind = Trap(n: nat) | Interrupt(level: nat, ack: nat)

  const AUTOVECTOR: int := 0xffff_ffff
  const SPURIOUS: int := 0xffff_fffe

  /** m68kcpu.h:1919-1934 */
  function VectorOf(kind: Kind): nat {
    match kind
    case Trap(n) => 32 + n % 16
    case Interrupt(level, ack) => if ack == AUTOVECTOR then 24 + level else if ack == SPURIOUS then 24 else ack
  }

  /** An interrupt is dropped when the processor is halted or the acknowledge cycle returns no vector. */
  predicate Enters(kind: Kind, c: Core) {
    kind.Trap? || (!c.halted && VectorOf(kind) <= 255)
  }

  function Vector(c: Core, vector: nat): uint
    requires c.Valid()
  {
    Wrap(Fetch(c.mem, 4 * vector, 4))
  }

  /** m68ki_exception_trapN and m68ki_exception_interrupt once they go ahead. */
  function Enter(kind: Kind, c: Core): (r: Core)
    requires c.Valid() && (kind.Interrupt? ==> kind.level < 8)
    ensures r.Valid()
  {
    match kind
    case Trap(_) =>
      var r := PushFrame(Init(c), c.pc, GetSr(c));
      r.(pc := Vector(r, VectorOf(kind)))
    case Interrupt(level, _) => Service(Drop(c), level, VectorOf(kind))
  }

  /** m68kcpu.h:1937-1959: an uninitialized vector is replaced by vector 15. */
  function Service(c: Core, level: nat, vector: nat): (r: Core)
    requires c.Valid() && level < 8
    ensures r.Valid()
  {
    var i := Init(c).(intMask := level);
    var handler := if Vector(i, vector) == 0 then Vector(i, 15) else Vector(i, vector);
    PushFrame(i, i.pc, GetSr(c)).(pc := handler)
  }

  /** What an interrupt that is dropped does: it ends a STOP. */
  function Drop(c: Core): (r: Core) {
    c.(stopped := false)
  }

  /** The 68000 part of RTE, up to the check for interrupts. */
  function Return(c: Core): (r: Core)
    requires c.Valid()
    ensures r.Valid()
  {
    var sr, pc := Fetch(c.mem, c.sp, 2), Wrap(Fetch(c.mem, Wrap(c.sp + 2), 4));
    SetSrNoInt(c.(sp := Wrap(c.sp + 6), pc := pc), sr)
  }

  /** m68ki_check_interrupts */
  function Check(c: Core, level: nat, ack: nat): (r: Core)
    requires c.Valid() && level < 8
    ensures r.Valid()
  {
    var irq := Interrupt(level, ack);
    if level <= c.intMask then c else if Enters(irq, c) then Enter(irq, c) else Drop(c)
  }

  // ---------------------------------------------------------------- the status register round trip

  lemma SplitSr(t1: nat, s: nat, mask: nat, ccr: nat, t0: nat, m: nat, v: nat)
    requires t1 < 2 && t0 < 2 && s < 2 && m < 2 && mask < 8 && ccr < 0x20
    requires v == t1 * 0x8000 + t0 * 0x4000 + s * 0x2000 + m * 0x1000 + mask * 0x100 + ccr
    ensures v / 0x8000 % 2 == t1 && v / 0x4000 % 2 == t0 && v / 0x2000 % 2 == s && v / 0x1000 % 2 == m
    ensures v / 0x100 % 8 == mask && v % 0x20 == ccr
  {
    SplitHigh(t1, t0, s, m, mask * 0x100 + ccr, v);
    var high := 8 * t1 + 4 * t0 + 2 * s + m;
    QuotientIs(v, 0x100, 0x10 * high + mask, ccr);
    QuotientIs(v, 0x20, 8 * (0x10 * high + mask), ccr);
  }

  lemma SplitHigh(t1: nat, t0: nat, s: nat, m: nat, low: nat, v: nat)
    requires t1 < 2 && t0 < 2 && s < 2 && m < 2 && low < 0x1000
    requires v == t1 * 0x8000 + t0 * 0x4000 + s * 0x2000 + m * 0x1000 + low
    ensures v / 0x8000 % 2 == t1 && v / 0x4000 % 2 == t0 && v / 0x2000 % 2 == s && v / 0x1000 % 2 == m
  {
    QuotientIs(v, 0x8000, t1, t0 * 0x4000 + s * 0x2000 + m * 0x1000 + low);
    QuotientIs(v, 0x4000, 2 * t1 + t0, s * 0x2000 + m * 0x1000 + low);
    QuotientIs(v, 0x2000, 4 * t1 + 2 * t0 + s, m * 0x1000 + low);
    QuotientIs(v, 0x1000, 8 * t1 + 4 * t0 + 2 * s + m, low);
  }

  lemma SplitCcr(c: Ccr, v: nat)
    requires v == Bit(c.x, 0x10) + Bit(c.n, 8) + Bit(c.z, 4) + Bit(c.v, 2) + Bit(c.c, 1)
    ensures v < 0x20 && HasBit(v, 0x10) == c.x && HasBit(v, 8) == c.n && HasBit(v, 4) == c.z
            && HasBit(v, 2) == c.v && HasBit(v, 1) == c.c
  {
  }

  function One(b: bool): nat { if b then 1 else 0 }

  function CcrBits(c: Ccr): (r: nat)
    ensures r < 0x20
  {
    Bit(c.x, 0x10) + Bit(c.n, 8) + Bit(c.z, 4) + Bit(c.v, 2) + Bit(c.c, 1)
  }

  lemma LowBits(v: nat, low: nat)
    requires v % 0x20 == low
    ensures HasBit(v, 0x10) == HasBit(low, 0x10) && HasBit(v, 8) == HasBit(low, 8) && HasBit(v, 4) == HasBit(low, 4)
            && HasBit(v, 2) == HasBit(low, 2) && HasBit(v, 1) == HasBit(low, 1)
  {
    hide HasBit;
    Euclid(v, 0x20);
    var k := v / 0x20;
    LowBit(2 * k, low, 0x10);
    LowBit(4 * k, low, 8);
    LowBit(8 * k, low, 4);
    LowBit(16 * k, low, 2);
    LowBit(32 * k, low, 1);
  }

  lemma LowBit(a: nat, low: nat, weight: nat)
    requires weight > 0 && a % 2 == 0
    ensures HasBit(a * weight + low, weight) == HasBit(low, weight)
  {
    Euclid(low, weight);
    QuotientIs(a * weight + low, weight, a + low / weight, low % weight);
  }

  /** The bits of a status register put together from its pieces. */
  lemma BitsOfSr(c: Core, v: nat)
    requires c.intMask < 8 && v == GetSr(c)
    ensures v < 0x1_0000 && HasBit(v, 0x8000) == c.t1 && HasBit(v, 0x4000) == c.t0 && HasBit(v, 0x2000) == c.s
            && HasBit(v, 0x1000) == c.m && v / 0x100 % 8 == c.intMask && v % 0x20 == CcrBits(c.ccr)
    ensures HasBit(v, 0x10) == c.ccr.x && HasBit(v, 8) == c.ccr.n && HasBit(v, 4) == c.ccr.z
            && HasBit(v, 2) == c.ccr.v && HasBit(v, 1) == c.ccr.c
  {
    var ccr := CcrBits(c.ccr);
    SplitSr(One(c.t1), One(c.s), c.intMask, ccr, One(c.t0), One(c.m), v);
    SplitCcr(c.ccr, ccr);
    LowBits(v, ccr);
  }

  lemma MaskIs(c: Core)
    requires c.intMask < 8
    ensures MaskSr(GetSr(c)) == GetSr(c.(t0 := false, m := false))
  {
    BitsOfSr(c, GetSr(c));
  }

  /** The status register read back from the frame sets the flags it was made from; T0 and M come back clear. */
  lemma SrRoundTrip(c: Core, d: Core)
    requires c.Valid() && d.Valid()
    ensures SetSrNoInt(d, GetSr(c))
            == SetSm(d.(t1 := c.t1, t0 := false, intMask := c.intMask, ccr := c.ccr), c.s, false)
  {
    hide GetSr, HasBit, MaskSr, SetSm;
    MaskIs(c);
    var e := c.(t0 := false, m := false);
    BitsOfSr(e, GetSr(e));
  }

  // ---------------------------------------------------------------- one frame

  /** The frame at this address holds this status register and program counter. */
  predicate FrameAt(mem: seq<byte>, frame: uint, pc: uint, sr: nat)
    requires |mem| == SPACE
  {
    Fetch(mem, frame, 2) == sr && Fetch(mem, frame + 2, 4) == pc
  }

  lemma FramePushed(c: Core, pc: uint, sr: nat)
    requires c.Valid() && 6 <= c.sp <= SPACE && sr < 0x1_0000
    ensures var r := PushFrame(c, pc, sr);
            && r == c.(sp := c.sp - 6, mem := r.mem) && FrameAt(r.mem, c.sp - 6, pc, sr)
            && SameOn(c.mem, r.mem, 0, c.sp - 6) && SameOn(c.mem, r.mem, c.sp, SPACE)
  {
    hide Fetch, Store, At;
    var one := Push(c, 4, pc);
    var r := PushFrame(c, pc, sr);
    Stored(c.mem, c.sp - 4, 4, pc);
    Stored(one.mem, c.sp - 6, 2, sr);
    SameFetch(one.mem, r.mem, c.sp - 4, 4);
  }

  lemma Stored(mem: seq<byte>, addr: nat, w: nat, v: nat)
    requires |mem| == SPACE && addr + w <= SPACE && (w == 2 || w == 4) && v < 2 * TopBit(w)
    ensures var r := Store(mem, addr, w, v);
            Fetch(r, addr, w) == v && SameOn(mem, r, 0, addr) && SameOn(mem, r, addr + w, SPACE)
  {
    hide Fetch, Store, At, Number;
    Widths();
    FetchStored(mem, addr, w, v);
    FetchIsNumber(Store(mem, addr, w, v), addr, w);
    forall i | 0 <= i < SPACE && !(addr <= i < addr + w) ensures At(Store(mem, addr, w, v), i) == At(mem, i) {
      StoreFrame(mem, addr, w, v, i);
    }
  }

  /** There is room for a frame below the supervisor stack pointer, with no wrap. */
  predicate Room(c: Core)
    requires c.Valid()
  {
    6 <= c.Ssp() <= SPACE
  }

  /** Entry: the frame is below the supervisor stack, memory is otherwise as it was, and the user stack pointer is kept. */
  lemma Entered(kind: Kind, c: Core)
    requires c.Valid() && Room(c) && !c.m && (kind.Interrupt? ==> kind.level < 8)
    ensures var r := Enter(kind, c);
            && r.s && !r.m && r.sp == c.Ssp() - 6 && r.bank[0] == c.Usp()
            && FrameAt(r.mem, r.sp, c.pc, GetSr(c))
            && SameOn(c.mem, r.mem, 0, r.sp) && SameOn(c.mem, r.mem, c.Ssp(), SPACE)
  {
    hide GetSr, Fetch, Store, At, FrameAt, PushFrame, SameOn;
    BitsOfSr(c, GetSr(c));
    SrOfFlags(Drop(c), c);
    var i := if kind.Trap? then Init(c) else Init(Drop(c)).(intMask := kind.level);
    FramePushed(i, c.pc, GetSr(c));
  }

  /** The long at an address, most significant byte first. */
  function LongAt(mem: seq<byte>, addr: nat): nat
    requires |mem| == SPACE && addr + 4 <= SPACE
  {
    mem[addr] as int * 0x100_0000 + mem[addr + 1] as int * 0x1_0000 + mem[addr + 2] as int * 0x100 + mem[addr + 3] as int
  }

  lemma VectorIs(c: Core, vector: nat)
    requires c.Valid() && vector < 256
    ensures Vector(c, vector) == LongAt(c.mem, 4 * vector)
  {
    var a := 4 * vector;
    assert Fetch(c.mem, a, 1) == At(c.mem, a);
    assert Fetch(c.mem, a, 2) == Fetch(c.mem, a, 1) * 256 + At(c.mem, a + 1);
    assert Fetch(c.mem, a, 3) == Fetch(c.mem, a, 2) * 256 + At(c.mem, a + 2);
  }

  /**
   Where an exception goes: TRAP #n through the long at 0x80 + 4n, an interrupt through 0x60 + 4 * level,
   through 0x60 when it is spurious, or through the vector the device answers, and through 0x3c when
   that long is 0. The interrupt mask is the level, and is kept by a TRAP; tracing is off.
   */
  lemma Arrives(kind: Kind, c: Core)
    requires c.Valid() && Enters(kind, c) && (kind.Interrupt? ==> kind.level < 8)
    ensures var r := Enter(kind, c);
            && r.s && !r.t1 && !r.t0 && r.ccr == c.ccr && r.halted == c.halted
            && match kind {
                 case Trap(n) => r.pc == LongAt(r.mem, 0x80 + 4 * (n % 16)) && r.intMask == c.intMask && r.stopped == c.stopped
                 case Interrupt(level, ack) =>
                   var place := if ack == 0xffff_ffff then 0x60 + 4 * level else if ack == 0xffff_fffe then 0x60 else 4 * ack;
                   && place < 0x400 && r.intMask == level && !r.stopped
                   && r.pc == if LongAt(c.mem, place) == 0 then LongAt(c.mem, 0x3c) else LongAt(c.mem, place)
               }
  {
    hide GetSr, PushFrame, Vector, Fetch, Store;
    match kind
    case Trap(n) =>
      FrameKeeps(Init(c), c.pc, GetSr(c));
      VectorIs(PushFrame(Init(c), c.pc, GetSr(c)), 32 + n % 16);
    case Interrupt(level, ack) =>
      var i := Init(Drop(c)).(intMask := level);
      FrameKeeps(i, i.pc, GetSr(Drop(c)));
      VectorIs(i, VectorOf(kind));
      VectorIs(i, 15);
  }

  /** Pushing a frame touches the stack pointer and memory alone. */
  lemma FrameKeeps(c: Core, pc: uint, sr: nat)
    requires c.Valid()
    ensures var r := PushFrame(c, pc, sr); r == c.(sp := r.sp, mem := r.mem)
  {
  }

  /** An interrupt is dropped when the processor is halted or what the device answers is no vector. */
  lemma DroppedIff(c: Core, level: nat, ack: nat)
    requires level < 8
    ensures !Enters(Interrupt(level, ack), c) <==> c.halted || 256 <= ack < 0xffff_fffe || ack > 0xffff_ffff
  {
  }

  /** The check for interrupts does nothing exactly when the mask holds the level back or it is dropped outside a STOP. */
  lemma CheckIdle(c: Core, level: nat, ack: nat)
    requires c.Valid() && level < 8
    ensures Check(c, level, ack) == c
            <==> level <= c.intMask || (!Enters(Interrupt(level, ack), c) && !c.stopped)
    ensures level > c.intMask && Enters(Interrupt(level, ack), c) ==> Check(c, level, ack).intMask == level
  {
    hide Enter, Enters;
    if level > c.intMask && Enters(Interrupt(level, ack), c) {
      Arrives(Interrupt(level, ack), c);
    }
  }

  /** RTE pops the frame and sets the flags the frame was made from. */
  lemma Popped(c: Core, d: Core)
    requires c.Valid() && d.Valid() && d.sp + 6 <= SPACE && FrameAt(d.mem, d.sp, c.pc, GetSr(c))
    ensures Return(d)
            == SetSm(d.(sp := d.sp + 6, pc := c.pc, t1 := c.t1, t0 := false, intMask := c.intMask, ccr := c.ccr), c.s, false)
  {
    hide GetSr, Fetch, SetSrNoInt, SetSm;
    SrRoundTrip(c, d.(sp := d.sp + 6, pc := c.pc));
  }

  /** Return through an intact frame made by a core whose supervisor stack pointer was six above it. */
  lemma Returned(c: Core, d: Core)
    requires c.Valid() && d.Valid() && Room(c) && !c.m && d.s && !d.m
    requires d.sp == c.Ssp() - 6 && d.bank[0] == c.Usp() && FrameAt(d.mem, d.sp, c.pc, GetSr(c))
    ensures var r := Return(d);
            && r.pc == c.pc && GetSr(r) == MaskSr(GetSr(c)) && r.Usp() == c.Usp() && r.Ssp() == c.Ssp()
            && r.s == c.s && !r.m && r.mem == d.mem
  {
    hide GetSr, FrameAt, Return, MaskSr;
    Popped(c, d);
    MaskIs(c);
    SrOfFlags(Return(d), c.(t0 := false, m := false));
  }

  lemma SrOfFlags(c: Core, d: Core)
    requires c.t1 == d.t1 && c.t0 == d.t0 && c.s == d.s && c.m == d.m && c.intMask == d.intMask && c.ccr == d.ccr
    ensures GetSr(c) == GetSr(d)
  {
  }

  // ---------------------------------------------------------------- runs of nested exceptions

  type State = c: Core | c.Valid()
    witness Core(0, 0, [0, 0, 0, 0, 0, 0, 0], false, false, true, false, 0, Ccr(false, false, false, false, false), false,
                 false, seq(SPACE, _ => 0))

  /**
   A well-nested run: Work is any computation between exceptions, Exception an entry with what its
   handler does, ending in RTE. An interrupt RTE finds pending is the exception that comes next.
   */
  datatype Trace =
    | Done
    | Work(effect: State -> State, rest: Trace)
    | Exception(kind: Kind, handler: Trace, rest: Trace)

  ghost predicate Levels(t: Trace) {
    match t
    case Done => true
    case Work(_, rest) => Levels(rest)
    case Exception(kind, handler, rest) => (kind.Interrupt? ==> kind.level < 8) && Levels(handler) && Levels(rest)
  }

  ghost function Run(t: Trace, c: State): (r: State)
    requires Levels(t)
  {
    match t
    case Done => c
    case Work(effect, rest) => Run(rest, effect(c))
    case Exception(kind, handler, rest) =>
      if Enters(kind, c) then Run(rest, Return(Run(handler, Enter(kind, c)))) else Run(rest, Drop(c))
  }

  /** A handler is at work above these live frames: supervisor mode, and its stack pointer not above any of them. */
  ghost predicate InHandler(c: State, frames: set<nat>) {
    c.s && !c.m && forall f :: f in frames ==> c.sp <= f && f + 6 <= SPACE
  }

  /** The user stack pointer and the bytes of the live frames are as they were. */
  ghost predicate Intact(c: State, d: State, frames: set<nat>) {
    c.bank[0] == d.bank[0] && forall f :: f in frames ==> SameOn(c.mem, d.mem, f, f + 6)
  }

  /**
   What is asked of the handlers: while frames are live no computation leaves supervisor mode, takes
   the stack pointer above a frame, or changes a frame or the user stack pointer; each RTE finds the
   stack pointer back at its frame; entries have room on the supervisor stack.
   */
  ghost predicate Careful(t: Trace, c: State, frames: set<nat>)
    requires Levels(t)
  {
    match t
    case Done => true
    case Work(effect, rest) =>
      && (frames != {} ==> InHandler(effect(c), frames) && Intact(c, effect(c), frames))
      && !effect(c).m && Careful(rest, effect(c), frames)
    case Exception(kind, handler, rest) =>
      if Enters(kind, c) then
        var e := Enter(kind, c);
        && Room(c)
        && Careful(handler, e, frames + {e.sp})
        && Run(handler, e).sp == e.sp
        && Careful(rest, Return(Run(handler, e)), frames)
      else
        Careful(rest, Drop(c), frames)
  }

  /** The exception leaves program counter, masked status register and both stack pointers as it found them. */
  ghost predicate Resumed(c: State, r: State) {
    r.pc == c.pc && GetSr(r) == MaskSr(GetSr(c)) && r.Usp() == c.Usp() && r.Ssp() == c.Ssp() && r.s == c.s && !r.m
  }

  /** Every live frame survives whatever the run nests inside it. */
  lemma {:induction false} FramesSurvive(t: Trace, c: State, frames: set<nat>)
    requires Levels(t) && Careful(t, c, frames) && frames != {} && InHandler(c, frames)
    ensures InHandler(Run(t, c), frames) && Intact(c, Run(t, c), frames)
    decreases t, 0
  {
    match t
    case Done =>
    case Work(effect, rest) =>
      FramesSurvive(rest, effect(c), frames);
      IntactTrans(c, effect(c), Run(t, c), frames);
    case Exception(kind, handler, rest) =>
      if Enters(kind, c) {
        var after := Return(Run(handler, Enter(kind, c)));
        ExceptionResumes(kind, handler, c, frames);
        FramesSurvive(rest, after, frames);
        IntactTrans(c, after, Run(t, c), frames);
      } else {
        FramesSurvive(rest, Drop(c), frames);
      }
  }

  lemma IntactTrans(c: State, d: State, e: State, frames: set<nat>)
    requires Intact(c, d, frames) && Intact(d, e, frames)
    ensures Intact(c, e, frames)
  {
  }

  lemma FrameKept(mem1: seq<byte>, mem2: seq<byte>, frame: uint, pc: uint, sr: nat)
    requires |mem1| == SPACE && |mem2| == SPACE && frame + 6 <= SPACE
    requires SameOn(mem1, mem2, frame, frame + 6) && FrameAt(mem1, frame, pc, sr)
    ensures FrameAt(mem2, frame, pc, sr)
  {
    SameFetch(mem1, mem2, frame, 2);
    SameFetch(mem1, mem2, frame + 2, 4);
  }

  /** One exception, entered with any frames already live, comes back to where it was taken. */
  lemma {:induction false} ExceptionResumes(kind: Kind, handler: Trace, c: State, frames: set<nat>)
    requires (kind.Interrupt? ==> kind.level < 8) && Levels(handler) && Enters(kind, c) && Room(c) && !c.m
    requires Careful(handler, Enter(kind, c), frames + {Enter(kind, c).sp})
    requires Run(handler, Enter(kind, c)).sp == Enter(kind, c).sp
    requires frames != {} ==> InHandler(c, frames)
    ensures var r := Return(Run(handler, Enter(kind, c)));
            Resumed(c, r) && (frames != {} ==> InHandler(r, frames) && Intact(c, r, frames))
    decreases handler, 1
  {
    hide Return, Enter, GetSr, MaskSr, Run, Careful;
    var e := Enter(kind, c);
    var h := Run(handler, e);
    Entered(kind, c);
    FramesSurvive(handler, e, frames + {e.sp});
    FrameKept(e.mem, h.mem, e.sp, c.pc, GetSr(c));
    Returned(c, h);
    if frames != {} {
      forall f | f in frames ensures SameOn(c.mem, h.mem, f, f + 6) {
        assert SameOn(e.mem, h.mem, f, f + 6);
      }
    }
  }

  /** Only exceptions at the outermost level: what TRAPs and interrupts add to a program between two instructions. */
  ghost predicate OnlyExceptions(t: Trace) {
    match t
    case Done => true
    case Work(_, _) => false
    case Exception(_, _, rest) => OnlyExceptions(rest)
  }

  /**
   Any run of TRAPs and interrupts, nested and following one another to any depth, leaves the
   interrupted program's counter, masked status register and both stack pointers as they were.
   */
  lemma {:induction false} RunResumes(t: Trace, c: State)
    requires Levels(t) && OnlyExceptions(t) && Careful(t, c, {}) && !c.m && !c.t0
    ensures Resumed(c, Run(t, c))
  {
    hide GetSr, MaskSr, Return, Enter;
    match t
    case Done => MaskIs(c);
    case Exception(kind, handler, rest) =>
      if Enters(kind, c) {
        var after := Return(Run(handler, Enter(kind, c)));
        ExceptionResumes(kind, handler, c, {});
        ReturnClearsT0(Run(handler, Enter(kind, c)));
        RunResumes(rest, after);
        Masked(GetSr(c));
      } else {
        RunResumes(rest, Drop(c));
        SrOfFlags(Drop(c), c);
      }
  }

  /** Of a status register's fields the mask keeps T1, S, the interrupt mask and the condition codes. */
  lemma MaskFields(t1: nat, t0: nat, s: nat, m: nat, high: nat, mask: nat, low: nat, ccr: nat)
    requires t1 < 2 && t0 < 2 && s < 2 && m < 2 && high < 2 && mask < 8 && low < 8 && ccr < 0x20
    ensures MaskSr(0x8000 * t1 + 0x4000 * t0 + 0x2000 * s + 0x1000 * m + 0x800 * high + 0x100 * mask + 0x20 * low + ccr)
            == 0x8000 * t1 + 0x2000 * s + 0x100 * mask + ccr
  {
    var rest := 0x100 * mask + 0x20 * low + ccr;
    var v := 0x8000 * t1 + 0x4000 * t0 + 0x2000 * s + 0x1000 * m + 0x800 * high + rest;
    SplitHigh(t1, t0, s, m, 0x800 * high + rest, v);
    QuotientIs(v, 0x100, 0x80 * t1 + 0x40 * t0 + 0x20 * s + 0x10 * m + 8 * high + mask, 0x20 * low + ccr);
    QuotientIs(v, 0x20, 0x400 * t1 + 0x200 * t0 + 0x100 * s + 0x80 * m + 0x40 * high + 8 * mask + low, ccr);
    QuotientIs(v / 0x100, 8, 0x10 * t1 + 8 * t0 + 4 * s + 2 * m + high, mask);
  }

  /** The mask is one: it keeps T1, S, the interrupt mask and the condition codes. */
  lemma Masked(v: nat)
    ensures !HasBit(MaskSr(v), 0x4000) && !HasBit(MaskSr(v), 0x1000) && MaskSr(MaskSr(v)) == MaskSr(v)
  {
    SplitSr(One(HasBit(v, 0x8000)), One(HasBit(v, 0x2000)), v / 0x100 % 8, v % 0x20, 0, 0, MaskSr(v));
  }

  /** The interrupt that RTE takes at once is, for a run, the exception that follows. */
  lemma PendingInterruptIsNext(c: State, level: nat, ack: nat, handler: Trace, rest: Trace)
    requires level < 8 && c.intMask < level && Levels(handler) && Levels(rest)
    ensures Run(Exception(Interrupt(level, ack), handler, rest), c)
            == if Enters(Interrupt(level, ack), c) then Run(rest, Return(Run(handler, Check(c, level, ack))))
               else Run(rest, Check(c, level, ack))
  {
    hide Enter, Return;
  }

  lemma ReturnClearsT0(d: Core)
    requires d.Valid()
    ensures !Return(d).t0
  {
    Masked(Fetch(d.mem, d.sp, 2));
  }

  // ---------------------------------------------------------------- the functions of m68kcpu.h

  function CoreOf(cpu: Cpu): (r: Core)
    requires cpu.Valid()
    reads cpu, cpu.a, cpu.bank, cpu.mem
    ensures r.Valid()
  {
    Core(cpu.pc, cpu.a[7], cpu.bank[..], cpu.t1, cpu.t0, cpu.s, cpu.m, cpu.intMask, cpu.ccr, cpu.stopped, cpu.halted,
         cpu.mem[..])
  }

  /** m68ki_set_sm_flag; m68ki_set_s_flag is the case that keeps M. */
  method SetSmFlag(cpu: Cpu, s: bool, m: bool)
    requires cpu.Valid()
    modifies cpu`s, cpu`m, cpu.a, cpu.bank
    ensures cpu.Valid() && CoreOf(cpu) == SetSm(old(CoreOf(cpu)), s, m) && cpu.a[..7] == old(cpu.a[..7])
  {
    cpu.bank[if cpu.s then (if cpu.m then 6 else 4) else 0] := cpu.a[7];
    cpu.s := s;
    cpu.m := m;
    cpu.a[7] := cpu.bank[if cpu.s then (if cpu.m then 6 else 4) else 0];
  }

  /** m68ki_push_16 and m68ki_push_32, on an even stack pointer. */
  method PushValue(cpu: Cpu, w: nat, v: nat)
    requires cpu.Valid() && cpu.a[7] % 2 == 0 && (w == 2 || w == 4) && v < 2 * TopBit(w)
    modifies cpu.a, cpu.mem
    ensures cpu.Valid() && CoreOf(cpu) == Push(old(CoreOf(cpu)), w, v) && cpu.a[..7] == old(cpu.a[..7])
    ensures cpu.a[7] % 2 == 0
  {
    hide Store;
    cpu.a[7] := Wrap(cpu.a[7] - w);
    WriteLimb(cpu, cpu.a[7], w, v);
  }

  /** m68ki_pull_16 and m68ki_pull_32 */
  method PullValue(cpu: Cpu, w: nat) returns (v: uint)
    requires cpu.Valid() && cpu.a[7] % 2 == 0 && (w == 2 || w == 4)
    modifies cpu.a
    ensures cpu.Valid() && v == Fetch(old(cpu.mem[..]), old(cpu.a[7]), w)
    ensures CoreOf(cpu) == old(CoreOf(cpu)).(sp := Wrap(old(cpu.a[7]) + w)) && cpu.a[..7] == old(cpu.a[..7])
    ensures cpu.a[7] % 2 == 0
  {
    hide Fetch;
    cpu.a[7] := Wrap(cpu.a[7] + w);
    v := ReadLimb(cpu, Wrap(cpu.a[7] - w), w);
  }

  /** m68ki_init_exception */
  method InitException(cpu: Cpu) returns (sr: nat)
    requires cpu.Valid()
    modifies cpu`t1, cpu`t0, cpu`s, cpu`m, cpu.a, cpu.bank
    ensures cpu.Valid() && sr == GetSr(old(CoreOf(cpu))) < 0x1_0000
    ensures CoreOf(cpu) == Init(old(CoreOf(cpu))) && cpu.a[..7] == old(cpu.a[..7])
  {
    hide GetSr, SetSm;
    sr := GetSr(CoreOf(cpu));
    BitsOfSr(CoreOf(cpu), sr);
    cpu.t1, cpu.t0 := false, false;
    SetSmFlag(cpu, true, cpu.m);
  }

  /** An odd stack pointer raises an address error, which is not part of this model. */
  predicate EvenStacks(c: Core)
    requires c.Valid()
  {
    c.sp % 2 == 0 && c.bank[0] % 2 == 0 && c.bank[4] % 2 == 0 && c.bank[6] % 2 == 0
  }

  method PushFrame3(cpu: Cpu, pc: uint, sr: nat)
    requires cpu.Valid() && cpu.a[7] % 2 == 0 && sr < 0x1_0000
    modifies cpu.a, cpu.mem
    ensures cpu.Valid() && CoreOf(cpu) == PushFrame(old(CoreOf(cpu)), pc, sr) && cpu.a[..7] == old(cpu.a[..7])
  {
    hide Push;
    PushValue(cpu, 4, pc);
    PushValue(cpu, 2, sr);
  }

  /** m68ki_read_data_32 of a vector. */
  method ReadVector(cpu: Cpu, vector: nat) returns (address: uint)
    requires cpu.Valid() && vector < 256
    ensures address == Vector(CoreOf(cpu), vector)
  {
    hide Fetch;
    address := ReadLimb(cpu, 4 * vector, 4);
  }

  /** m68ki_exception_trapN, as the TRAP instruction calls it. */
  method ExceptionTrapN(cpu: Cpu, n: nat)
    requires cpu.Valid() && EvenStacks(CoreOf(cpu))
    modifies cpu`pc, cpu`t1, cpu`t0, cpu`s, cpu`m, cpu.a, cpu.bank, cpu.mem
    ensures cpu.Valid() && CoreOf(cpu) == Enter(Trap(n), old(CoreOf(cpu))) && cpu.a[..7] == old(cpu.a[..7])
  {
    hide GetSr, PushFrame, Vector;
    var vector := 32 + n % 16;
    var sr := InitException(cpu);
    PushFrame3(cpu, cpu.pc, sr);
    cpu.pc := ReadVector(cpu, vector);
  }

  /** m68ki_exception_interrupt with what the acknowledge cycle answered. */
  method ExceptionInterrupt(cpu: Cpu, level: nat, ack: nat)
    requires cpu.Valid() && EvenStacks(CoreOf(cpu)) && level < 8
    modifies cpu`pc, cpu`t1, cpu`t0, cpu`s, cpu`m, cpu`intMask, cpu`stopped, cpu.a, cpu.bank, cpu.mem
    ensures cpu.Valid() && cpu.a[..7] == old(cpu.a[..7])
    ensures CoreOf(cpu) == if Enters(Interrupt(level, ack), old(CoreOf(cpu)))
                           then Enter(Interrupt(level, ack), old(CoreOf(cpu))) else Drop(old(CoreOf(cpu)))
  {
    hide GetSr, Service;
    cpu.stopped := false;
    if cpu.halted {
      return;
    }
    var vector := ack;
    if vector == AUTOVECTOR {
      vector := 24 + level;
    } else if vector == SPURIOUS {
      vector := 24;
    } else if vector > 255 {
      return;
    }
    ServiceInterrupt(cpu, level, vector);
  }

  method ServiceInterrupt(cpu: Cpu, level: nat, vector: nat)
    requires cpu.Valid() && EvenStacks(CoreOf(cpu)) && level < 8 && vector < 256
    modifies cpu`pc, cpu`t1, cpu`t0, cpu`s, cpu`m, cpu`intMask, cpu.a, cpu.bank, cpu.mem
    ensures cpu.Valid() && cpu.a[..7] == old(cpu.a[..7])
    ensures CoreOf(cpu) == Service(old(CoreOf(cpu)), level, vector)
  {
    hide GetSr, PushFrame, Vector;
    var sr := InitException(cpu);
    cpu.intMask := level;
    var newPc := ReadVector(cpu, vector);
    if newPc == 0 {
      newPc := ReadVector(cpu, 15);
    }
    PushFrame3(cpu, cpu.pc, sr);
    cpu.pc := newPc;
  }

  /** m68ki_set_sr_noint */
  method SetSr(cpu: Cpu, v: nat)
    requires cpu.Valid()
    modifies cpu`t1, cpu`t0, cpu`s, cpu`m, cpu`intMask, cpu`ccr, cpu.a, cpu.bank
    ensures cpu.Valid() && CoreOf(cpu) == SetSrNoInt(old(CoreOf(cpu)), v) && cpu.a[..7] == old(cpu.a[..7])
  {
    hide HasBit, SetSm, MaskSr;
    var value := MaskSr(v);
    cpu.t1 := HasBit(value, 0x8000);
    cpu.t0 := HasBit(value, 0x4000);
    cpu.intMask := value / 0x100 % 8;
    cpu.ccr := Ccr(HasBit(value, 0x10), HasBit(value, 8), HasBit(value, 4), HasBit(value, 2), HasBit(value, 1));
    SetSmFlag(cpu, HasBit(value, 0x2000), HasBit(value, 0x1000));
  }

  /**
   RTE: user mode is a privilege violation and nothing else happens here; otherwise the frame comes
   back and a pending interrupt above the restored mask is taken at once.
   */
  method Rte(cpu: Cpu, level: nat, ack: nat) returns (privileged: bool)
    requires cpu.Valid() && EvenStacks(CoreOf(cpu)) && level < 8
    modifies cpu`pc, cpu`t1, cpu`t0, cpu`s, cpu`m, cpu`intMask, cpu`ccr, cpu`stopped, cpu.a, cpu.bank, cpu.mem
    ensures cpu.Valid() && privileged == old(cpu.s) && cpu.a[..7] == old(cpu.a[..7])
    ensures CoreOf(cpu) == if privileged then Check(Return(old(CoreOf(cpu))), level, ack) else old(CoreOf(cpu))
  {
    hide Fetch, SetSrNoInt, Enter, Enters;
    privileged := cpu.s;
    if !cpu.s {
      return;
    }
    ghost var c := CoreOf(cpu);
    var sr := PullValue(cpu, 2);
    var pc := PullValue(cpu, 4);
    PulledTwice(c);
    cpu.pc := pc;
    SetSr(cpu, sr);
    assert CoreOf(cpu) == Return(c);
    SwitchStaysEven(c.(sp := Wrap(c.sp + 6), pc := pc), sr);
    if level > cpu.intMask {
      ExceptionInterrupt(cpu, level, ack);
    }
  }

  lemma PulledTwice(c: Core)
    ensures Wrap(Wrap(c.sp + 2) + 4) == Wrap(c.sp + 6) && (c.sp % 2 == 0 ==> Wrap(c.sp + 6) % 2 == 0)
  {
  }

  lemma SwitchStaysEven(c: Core, sr: nat)
    requires c.Valid() && EvenStacks(c)
    ensures EvenStacks(SetSrNoInt(c, sr))
  {
  }
}
