/** dmac.c: what every sequence of register writes, requests and resets keeps. */
module DmacSafety {
  import opened DmacState

  /** An active channel has neither failed nor completed, and the registers are within their widths. */
  ghost predicate Safe(x: Channel) {
    && (x.fl.act ==> !x.fl.err && !x.fl.coc)
    && x.cp < 4 && x.kind < 8 && x.dar < SPACE && x.mar <= SPACE && x.bar <= SPACE
    && x.cfg.size < 4 && x.cfg.chain < 4 && x.cfg.mac < 4 && x.cfg.dac < 4
  }

  ghost predicate Inv(st: State) {
    && st.Valid() && st.ctl.load == 0 && st.ctl.transfer == 0 && st.ctl.vector >= -1
    && forall k :: 0 <= k < 4 ==> Safe(st.ch[k])
  }

  /** The state but for channel c, whose registers may be anything. */
  ghost predicate Rest(st: State, c: nat) {
    && st.Valid() && c < 4 && st.ctl.load == 0 && st.ctl.transfer == 0 && st.ctl.vector >= -1
    && forall k :: 0 <= k < 4 && k != c ==> Safe(st.ch[k])
  }

  lemma InterruptedKeeps(st: State, c: nat)
    requires Rest(st, c)
    ensures Rest(Interrupted(st), c)
  {
  }

  lemma SetErrorSafe(st: State, c: nat, code: nat)
    requires Rest(st, c) && Safe(Failed(st.ch[c], code))
    ensures Inv(SetError(st, c, code))
  {
    InterruptedKeeps(st.With(c, Failed(st.ch[c], code)), c);
  }

  lemma FailedSafe(x: Channel, code: nat)
    requires Safe(x) || Safe(x.(fl := x.fl.(act := false)))
    ensures Safe(Failed(x, code))
  {
  }

  lemma LoadedSafe(x: Channel, ram: seq<byte>)
    requires Safe(x) && |ram| == SPACE
    ensures Safe(Loaded(x, ram)) && Loaded(x, ram).mar < SPACE
  {
  }

  lemma LoadSafe(st: State, c: nat)
    requires Inv(st) && c < 4
    ensures Inv(Load(st, c))
  {
    hide Loaded, Failed, Interrupt;
    LoadedSafe(st.ch[c], st.ram);
    FailedSafe(st.ch[c], 0x0c);
    if st.ch[c].bar % 2 == 1 {
      LoadVector(st, c);
    }
  }

  lemma LoadVector(st: State, c: nat)
    requires st.Valid() && c < 4 && st.ctl.vector >= -1
    ensures Load(st, c).ctl.vector >= -1
  {
  }

  lemma StartedSafe(x: Channel)
    requires Safe(x) && StartError(x) == 0
    ensures Safe(Started(x))
  {
  }

  lemma StartSafe(st: State, c: nat)
    requires Inv(st) && c < 4
    ensures Inv(Start(st, c))
  {
    hide Failed, Loaded, Load, Started, SetError, StartError, Safe;
    var x := st.ch[c];
    if StartError(x) != 0 {
      FailedSafe(x, StartError(x));
      SetErrorSafe(st, c, StartError(x));
    } else {
      StartedSafe(x);
      var s := st.With(c, Started(x));
      LoadSafe(s, c);
    }
  }

  lemma WithSafe(st: State, c: nat, x: Channel)
    requires Rest(st, c) && Safe(x)
    ensures Inv(st.With(c, x)) && Inv(Interrupted(st.With(c, x)))
  {
    InterruptedKeeps(st.With(c, x), c);
  }

  lemma ContinueSafe(st: State, c: nat)
    requires Inv(st) && c < 4
    ensures Inv(Continue(st, c))
  {
    hide Failed, SetError, Safe;
    FailedSafe(st.ch[c], 1);
    FailedSafe(st.ch[c], 2);
    SetErrorSafe(st, c, 1);
    SetErrorSafe(st, c, 2);
  }

  lemma AbortedSafe(x: Channel)
    requires Safe(x)
    ensures !x.fl.act ==> Safe(x.(fl := x.fl.(coc := false)))
    ensures Safe(Failed(x.(fl := x.fl.(coc := true, act := false)), 0x11))
  {
  }

  lemma AbortSafe(st: State, c: nat)
    requires Inv(st) && c < 4
    ensures Inv(Abort(st, c))
  {
    hide Failed, SetError, Safe;
    var x := st.ch[c];
    AbortedSafe(x);
    if x.fl.act {
      SetErrorSafe(st.With(c, x.(fl := x.fl.(coc := true, act := false))), c, 0x11);
    } else {
      WithSafe(st, c, x.(fl := x.fl.(coc := false)));
    }
  }

  /** The bits of CCR, and clearing the bits of CSR, leave a safe channel safe. */
  lemma FlagsSafe(x: Channel, f: Flags)
    requires Safe(x) && f.act == x.fl.act && (f.err ==> x.fl.err) && (f.coc ==> x.fl.coc)
    ensures Safe(x.(fl := f))
  {
  }

  lemma SetCcrSafe(st: State, c: nat, data: byte)
    requires Inv(st) && c < 4
    ensures Inv(SetCcr(st, c, data))
  {
    hide Safe, Start, Continue, Abort, HasBit;
    var x := st.ch[c];
    var f0 := x.fl.(intr := HasBit(data, 0x08), hlt := HasBit(data, 0x20));
    FlagsSafe(x, f0);
    WithSafe(st, c, x.(fl := f0));
    var s0 := st.With(c, x.(fl := f0));
    var s1 := s0;
    if HasBit(data, 0x80) {
      FlagsSafe(s0.ch[c], s0.ch[c].fl.(str := true));
      WithSafe(s0, c, s0.ch[c].(fl := s0.ch[c].fl.(str := true)));
      StartSafe(s0.With(c, s0.ch[c].(fl := s0.ch[c].fl.(str := true))), c);
      s1 := Start(s0.With(c, s0.ch[c].(fl := s0.ch[c].fl.(str := true))), c);
    }
    SetCcrTail(s1, c, data);
  }

  lemma SetCcrTail(s1: State, c: nat, data: byte)
    requires Inv(s1) && c < 4
    ensures var s2 := if HasBit(data, 0x40) then Continue(s1.With(c, s1.ch[c].(fl := s1.ch[c].fl.(cnt := true))), c)
                      else s1;
            Inv(if HasBit(data, 0x10) then Abort(s2.With(c, s2.ch[c].(fl := s2.ch[c].fl.(sab := true))), c) else s2)
  {
    hide Safe, Continue, Abort, HasBit;
    var s2 := s1;
    if HasBit(data, 0x40) {
      FlagsSafe(s1.ch[c], s1.ch[c].fl.(cnt := true));
      WithSafe(s1, c, s1.ch[c].(fl := s1.ch[c].fl.(cnt := true)));
      ContinueSafe(s1.With(c, s1.ch[c].(fl := s1.ch[c].fl.(cnt := true))), c);
      s2 := Continue(s1.With(c, s1.ch[c].(fl := s1.ch[c].fl.(cnt := true))), c);
    }
    if HasBit(data, 0x10) {
      FlagsSafe(s2.ch[c], s2.ch[c].fl.(sab := true));
      WithSafe(s2, c, s2.ch[c].(fl := s2.ch[c].fl.(sab := true)));
      AbortSafe(s2.With(c, s2.ch[c].(fl := s2.ch[c].fl.(sab := true))), c);
    }
  }

  lemma SetCsrSafe(st: State, c: nat, data: byte)
    requires Inv(st) && c < 4
    ensures Inv(SetCsr(st, c, data))
  {
    hide Safe, Cleared, Interrupted;
    var f := st.ch[c].fl;
    ClearedKeeps(f, data);
    FlagsSafe(st.ch[c], Cleared(f, data));
    WithSafe(st, c, st.ch[c].(fl := Cleared(f, data)));
  }

  lemma ClearedKeeps(f: Flags, data: byte)
    ensures var g := Cleared(f, data); g.act == f.act && (g.err ==> f.err) && (g.coc ==> f.coc)
  {
  }

  lemma SetConfigSafe(st: State, c: nat, cfg: Config, check: bool)
    requires Inv(st) && c < 4 && cfg.size < 4 && cfg.chain < 4 && cfg.mac < 4 && cfg.dac < 4
    ensures Inv(SetConfig(st, c, cfg, check))
  {
    FailedSafe(st.ch[c], 2);
    SetErrorSafe(st, c, 2);
    WithSafe(st, c, st.ch[c].(cfg := cfg));
  }

  lemma StoredSafe(x: Channel, addr: nat, data: byte)
    requires Safe(x)
    ensures Safe(Stored(x, addr, data)) && (x.mar < SPACE ==> Stored(x, addr, data).mar < SPACE)
  {
  }

  lemma SetGcrSafe(st: State, data: byte)
    requires Inv(st)
    ensures Inv(SetGcr(st, data))
  {
    assert Safe(st.ch[0]) && Safe(st.ch[1]) && Safe(st.ch[2]) && Safe(st.ch[3]);
  }

  lemma WriteSafe(st: State, c: nat, addr: nat, data: byte)
    requires Inv(st) && c < 4 && addr < 0x40
    ensures Inv(Write(st, c, addr, data))
  {
    hide Stored, SetConfig, SetCcr, SetCsr, SetGcr;
    var g := st.ch[c].cfg;
    assert Safe(st.ch[c]);
    if addr == 0x00 {
      SetCsrSafe(st, c, data);
    } else if addr == 0x04 {
      SetConfigSafe(st, c, WithDcr(g, data), true);
    } else if addr == 0x05 {
      SetConfigSafe(st, c, WithOcr(g, data), false);
    } else if addr == 0x06 {
      SetConfigSafe(st, c, WithScr(g, data), false);
    } else if addr == 0x07 {
      SetCcrSafe(st, c, data);
    } else if addr == 0x3f {
      SetGcrSafe(st, data);
    } else {
      StoredSafe(st.ch[c], addr, data);
      WithSafe(st, c, Stored(st.ch[c], addr, data));
    }
  }

  // ---------------------------------------------------------------- transfers

  lemma AdvancedSafe(x: Channel)
    requires Safe(x)
    ensures Safe(Advanced(x)) && Advanced(x).mar < SPACE
  {
  }

  lemma FollowSafe(st: State, c: nat)
    requires Inv(st) && c < 4
    ensures Inv(Follow(st, c))
  {
    hide Load;
    var x := st.ch[c];
    assert Safe(x);
    if x.mtc == 0 {
      if x.fl.cnt {
        WithSafe(st, c, x.(mar := x.bar, mfc := x.bfc, mtc := x.btc, fl := x.fl.(boc := true)));
      } else if (x.cfg.chain == 2 && x.btc > 0) || (x.cfg.chain == 3 && x.bar != 0) {
        LoadSafe(st, c);
      } else {
        WithSafe(st, c, x.(fl := x.fl.(act := false, coc := true)));
      }
    }
  }

  lemma RequestSafe(st: State, c: nat)
    requires Inv(st) && c < 4
    ensures Inv(Request(st, c))
  {
    hide Safe, Advanced, Move, Follow;
    var x := st.ch[c];
    AdvancedSafe(x);
    var moved := st.(ram := Move(st.ram, x.kind, x.cfg.dir, x.mar, x.dar), ctl := st.ctl.(transfer := 0));
    WithSafe(moved, c, Advanced(x));
    FollowSafe(moved.With(c, Advanced(x)), c);
  }

  lemma ResetSafe(st: State)
    requires st.Valid()
    ensures Inv(Reset(st))
  {
  }

  // ---------------------------------------------------------------- runs

  /** What can happen to the controller; Poke is the processor writing memory. */
  datatype Event =
    | WriteRegister(c: nat, addr: nat, data: byte)
    | Requested(c: nat)
    | Acknowledged
    | WasReset
    | Poke(place: nat, data: byte)

  predicate IsEvent(e: Event) {
    match e
    case WriteRegister(c, addr, _) => c < 4 && addr < 0x40
    case Requested(c) => c < 4
    case _ => true
  }

  function Step(st: State, e: Event): (r: State)
    requires st.Valid() && IsEvent(e)
    ensures r.Valid()
  {
    match e
    case WriteRegister(c, addr, data) => Write(st, c, addr, data)
    case Requested(c) => Request(st, c)
    case Acknowledged => Acknowledge(st)
    case WasReset => Reset(st)
    case Poke(place, data) => st.(ram := Write8(st.ram, place, data))
  }

  function Run(st: State, events: seq<Event>): (r: State)
    requires st.Valid() && forall e :: e in events ==> IsEvent(e)
    ensures r.Valid()
    decreases |events|
  {
    if events == [] then st
    else
      assert events[0] in events;
      Run(Step(st, events[0]), events[1..])
  }

  lemma StepSafe(st: State, e: Event)
    requires Inv(st) && IsEvent(e)
    ensures Inv(Step(st, e))
  {
    hide Write, Request, Reset, Safe;
    match e
    case WriteRegister(c, addr, data) => WriteSafe(st, c, addr, data);
    case Requested(c) => RequestSafe(st, c);
    case Acknowledged =>
    case WasReset => ResetSafe(st);
    case Poke(place, data) =>
  }

  /**
   From reset, whatever is written, requested or acknowledged: an active channel has neither ERR nor
   COC, load and transfer are 0 between calls, cp is in 0..3 and dar within 24 bits.
   */
  lemma {:induction false} RunSafe(st: State, events: seq<Event>)
    requires Inv(st) && forall e :: e in events ==> IsEvent(e)
    ensures Inv(Run(st, events))
    decreases |events|
  {
    hide Step, Safe;
    if events != [] {
      assert events[0] in events;
      StepSafe(st, events[0]);
      RunSafe(Step(st, events[0]), events[1..]);
    }
  }

  // ---------------------------------------------------------------- 24 bits of memory address

  ghost predicate MarsFit(st: State) {
    st.Valid() && forall k :: 0 <= k < 4 ==> st.ch[k].mar < SPACE
  }

  /** The one request that takes a memory address out of 24 bits: a continued block whose base address is 0x1000000. */
  predicate Escapes(st: State, e: Event)
    requires st.Valid() && IsEvent(e)
  {
    e.Requested? && CanTransfer(st.ch[e.c]) && st.ch[e.c].mtc == 1 && st.ch[e.c].fl.cnt && st.ch[e.c].bar == SPACE
  }

  lemma WriteMars(st: State, c: nat, addr: nat, data: byte)
    requires Inv(st) && MarsFit(st) && c < 4 && addr < 0x40
    ensures MarsFit(Write(st, c, addr, data))
  {
    hide Stored, SetCcr, Safe;
    assert Safe(st.ch[c]);
    if addr != 0x07 && addr != 0x3f {
      StoredSafe(st.ch[c], addr, data);
    }
  }

  lemma RequestMars(st: State, c: nat)
    requires Inv(st) && MarsFit(st) && c < 4
    ensures MarsFit(Request(st, c)) <==> !Escapes(st, Requested(c))
  {
    hide Safe, Move, Interrupt, Loaded;
    var x := st.ch[c];
    BarFits(x);
    if CanTransfer(x) {
      CounterEnds(x);
      AdvancedSafe(x);
    }
  }

  lemma BarFits(x: Channel)
    requires Safe(x)
    ensures x.bar <= SPACE
  {
  }

  lemma CounterEnds(x: Channel)
    ensures Advanced(x).mtc == 0 <==> x.mtc == 1
  {
  }

  /** Memory addresses stay within 24 bits at every step but that one, and never pass 0x1000000. */
  lemma MarsFitUnlessContinued(st: State, e: Event)
    requires Inv(st) && MarsFit(st) && IsEvent(e)
    ensures MarsFit(Step(st, e)) <==> !Escapes(st, e)
    ensures forall k :: 0 <= k < 4 ==> Step(st, e).ch[k].mar <= SPACE
  {
    hide Write, Request, Reset, Safe;
    match e {
      case WriteRegister(c, addr, data) => WriteMars(st, c, addr, data);
      case Requested(c) => RequestMars(st, c);
      case Acknowledged =>
      case WasReset => ResetMars(st);
      case Poke(place, data) =>
    }
    StepSafe(st, e);
    SafeMars(Step(st, e));
  }

  lemma ResetMars(st: State)
    requires st.Valid()
    ensures MarsFit(Reset(st))
  {
  }

  lemma SafeMars(st: State)
    requires Inv(st)
    ensures forall k :: 0 <= k < 4 ==> st.ch[k].mar <= SPACE
  {
    assert forall k :: 0 <= k < 4 ==> Safe(st.ch[k]);
  }

  // ---------------------------------------------------------------- a run that gets there

  /** Some run without writes to memory leads from st to r. */
  ghost predicate Reaches(st: State, r: State)
    requires st.Valid()
  {
    exists events: seq<Event> :: (forall e :: e in events ==> IsEvent(e) && !e.Poke?) && Run(st, events) == r
  }

  lemma {:induction false} RunAppend(st: State, events: seq<Event>, e: Event)
    requires st.Valid() && IsEvent(e) && forall f :: f in events ==> IsEvent(f)
    ensures forall f :: f in events + [e] ==> IsEvent(f)
    ensures Run(st, events + [e]) == Step(Run(st, events), e)
    decreases |events|
  {
    hide Step;
    if events == [] {
      assert events + [e] == [e] && [e][1..] == [];
      NoEvents(Step(st, e));
    } else {
      assert events[0] in events;
      RunAppend(Step(st, events[0]), events[1..], e);
      assert (events + [e])[1..] == events[1..] + [e];
    }
  }

  lemma NoEvents(st: State)
    requires st.Valid()
    ensures Run(st, []) == st
  {
  }

  lemma ReachesStep(st: State, r: State, e: Event)
    requires st.Valid() && r.Valid() && Reaches(st, r) && IsEvent(e) && !e.Poke?
    ensures Reaches(st, Step(r, e))
  {
    var events: seq<Event> :| (forall f :: f in events ==> IsEvent(f) && !f.Poke?) && Run(st, events) == r;
    RunAppend(st, events, e);
  }

  /** A register write to channel 0 that only stores, on the way from st. */
  lemma Store0(st: State, r: State, addr: nat, data: byte) returns (s: State)
    requires st.Valid() && r.Valid() && Reaches(st, r) && 0x0a <= addr <= 0x1f
    ensures s.Valid() && Reaches(st, s) && s.ch[0] == Stored(r.ch[0], addr, data) && s.ram == r.ram
  {
    s := Step(r, WriteRegister(0, addr, data));
    ReachesStep(st, r, WriteRegister(0, addr, data));
  }

  lemma Ocr0(st: State, r: State, data: byte) returns (s: State)
    requires st.Valid() && r.Valid() && Reaches(st, r) && !r.ch[0].fl.act
    ensures s.Valid() && Reaches(st, s) && s.ch[0] == r.ch[0].(cfg := WithOcr(r.ch[0].cfg, data)) && s.ram == r.ram
  {
    s := Step(r, WriteRegister(0, 0x05, data));
    ReachesStep(st, r, WriteRegister(0, 0x05, data));
  }

  const QUIET := Flags(false, false, false, false, false, false, false, false, false, false, false, false, false)
  const ARRAY := Config(0, 0, false, 0, false, false, 0, 2, 2, 0, 0)

  /** Reset, and an array of one block whose descriptor is the last six bytes of the address space. */
  lemma SetUp(st: State) returns (s: State)
    requires st.Valid()
    ensures s.Valid() && Reaches(st, s) && s.ch[0].fl == QUIET && s.ch[0].cfg == ARRAY
    ensures s.ch[0].bar == 0xff_fffa && s.ch[0].btc == 1
  {
    hide Reaches;
    s := ResetFirst(st);
    s := Store0(st, s, 0x1d, 0xff);
    s := Store0(st, s, 0x1e, 0xff);
    s := Store0(st, s, 0x1f, 0xfa);
    s := Store0(st, s, 0x1a, 0);
    s := Store0(st, s, 0x1b, 1);
    s := Ocr0(st, s, 0x0a);
  }

  lemma ResetFirst(st: State) returns (s: State)
    requires st.Valid()
    ensures s.Valid() && Reaches(st, s) && s.ch[0] == ResetChannel(st.ch[0], 0)
  {
    assert Run(st, []) == st;
    s := Step(st, WasReset);
    ReachesStep(st, st, WasReset);
  }

  /** Started and aborted, whatever the descriptor holds: the base address stays at 0x1000000. */
  lemma StartAndAbort(st: State, r: State) returns (s: State)
    requires st.Valid() && r.Valid() && Reaches(st, r) && r.ch[0].fl == QUIET && r.ch[0].cfg == ARRAY
    requires r.ch[0].bar == 0xff_fffa && r.ch[0].btc == 1
    ensures s.Valid() && Reaches(st, s) && s.ch[0].fl == QUIET.(sab := true) && s.ch[0].cfg == ARRAY
    ensures s.ch[0].bar == SPACE
  {
    hide Reaches;
    s := Ccr0(st, r, 0x80);
    StartChain(r);
    var aborted := Ccr0(st, s, 0x10);
    AbortChain(s);
    s := Csr0(st, aborted);
  }

  lemma Ccr0(st: State, r: State, data: byte) returns (s: State)
    requires st.Valid() && r.Valid() && Reaches(st, r)
    ensures s == SetCcr(r, 0, data) && Reaches(st, s)
  {
    s := Step(r, WriteRegister(0, 0x07, data));
    ReachesStep(st, r, WriteRegister(0, 0x07, data));
  }

  lemma CcrBits()
    ensures HasBit(0x80, 0x80) && !HasBit(0x80, 0x40) && !HasBit(0x80, 0x20) && !HasBit(0x80, 0x10) && !HasBit(0x80, 0x08)
    ensures HasBit(0x40, 0x40) && !HasBit(0x40, 0x80) && !HasBit(0x40, 0x20) && !HasBit(0x40, 0x10) && !HasBit(0x40, 0x08)
    ensures HasBit(0x10, 0x10) && !HasBit(0x10, 0x80) && !HasBit(0x10, 0x40) && !HasBit(0x10, 0x20) && !HasBit(0x10, 0x08)
  {
  }

  /** The channel after CCR is written 0x80. */
  lemma StartWritten(r: State)
    requires r.Valid()
    ensures var x := r.ch[0].(fl := r.ch[0].fl.(intr := false, hlt := false, str := true));
            SetCcr(r, 0, 0x80) == Start(r.With(0, x), 0)
  {
    hide HasBit, Start, Continue, Abort;
    CcrBits();
    var x0 := r.ch[0].(fl := r.ch[0].fl.(intr := false, hlt := false));
    var x := x0.(fl := x0.fl.(str := true));
    assert r.With(0, x0).With(0, x) == r.With(0, x);
  }

  /** The channel after CCR is written 0x40. */
  lemma ContinueWritten(r: State)
    requires r.Valid()
    ensures var x := r.ch[0].(fl := r.ch[0].fl.(intr := false, hlt := false, cnt := true));
            SetCcr(r, 0, 0x40) == Continue(r.With(0, x), 0)
  {
    hide HasBit, Start, Continue, Abort;
    CcrBits();
    var x0 := r.ch[0].(fl := r.ch[0].fl.(intr := false, hlt := false));
    var x := x0.(fl := x0.fl.(cnt := true));
    assert r.With(0, x0).With(0, x) == r.With(0, x);
  }

  /** The channel after CCR is written 0x10. */
  lemma AbortWritten(r: State)
    requires r.Valid()
    ensures var x := r.ch[0].(fl := r.ch[0].fl.(intr := false, hlt := false, sab := true));
            SetCcr(r, 0, 0x10) == Abort(r.With(0, x), 0)
  {
    hide HasBit, Start, Continue, Abort;
    CcrBits();
    var x0 := r.ch[0].(fl := r.ch[0].fl.(intr := false, hlt := false));
    var x := x0.(fl := x0.fl.(sab := true));
    assert r.With(0, x0).With(0, x) == r.With(0, x);
  }

  lemma StartChain(r: State)
    requires r.Valid() && r.ch[0].fl == QUIET && r.ch[0].cfg == ARRAY
    requires r.ch[0].bar == 0xff_fffa && r.ch[0].btc == 1
    ensures var x := SetCcr(r, 0, 0x80).ch[0]; x.fl == QUIET.(act := true) && x.cfg == ARRAY && x.bar == SPACE
  {
    hide Word, SetCcr;
    StartWritten(r);
  }

  lemma AbortChain(r: State)
    requires r.Valid() && r.ch[0].fl == QUIET.(act := true)
    ensures SetCcr(r, 0, 0x10).ch[0]
            == r.ch[0].(fl := QUIET.(coc := true, err := true, sab := true), ecode := 0x11)
  {
    hide SetCcr;
    AbortWritten(r);
  }

  lemma Csr0(st: State, r: State) returns (s: State)
    requires st.Valid() && r.Valid() && Reaches(st, r) && r.ch[0].fl == QUIET.(coc := true, err := true, sab := true)
    ensures s.Valid() && Reaches(st, s) && s.ch[0] == r.ch[0].(fl := QUIET.(sab := true))
  {
    s := Step(r, WriteRegister(0, 0x00, 0x90));
    ReachesStep(st, r, WriteRegister(0, 0x00, 0x90));
  }

  /**
   From any state and with any memory, register writes and one request put 0x1000000 into channel 0's
   memory address: an array chain is started at 0xfffffa and aborted, and then one operand is
   transferred unchained and continued.
   */
  lemma EscapeReachable(st: State)
    requires st.Valid()
    ensures exists r: State :: Reaches(st, r) && r.Valid() && r.ch[0].mar == SPACE
  {
    hide Reaches, SetCcr, Step, WithOcr, Stored;
    var s := SetUp(st);
    s := StartAndAbort(st, s);
    s := Unchain(st, s);
    var started := Ccr0(st, s, 0x80);
    StartPlain(s);
    var continued := Ccr0(st, started, 0x40);
    ContinuePlain(started);
    var r := Step(continued, Requested(0));
    ReachesStep(st, continued, Requested(0));
    LastContinued(continued);
  }

  lemma Unchain(st: State, r: State) returns (s: State)
    requires st.Valid() && r.Valid() && Reaches(st, r) && r.ch[0].fl == QUIET.(sab := true) && r.ch[0].cfg == ARRAY
    ensures s.Valid() && Reaches(st, s) && s.ch[0].fl == QUIET.(sab := true) && s.ch[0].cfg == ARRAY.(chain := 0)
    ensures s.ch[0].mtc == 1 && s.ch[0].bar == r.ch[0].bar
  {
    hide Reaches;
    s := Ocr0(st, r, 0x02);
    s := Store0(st, s, 0x0a, 0);
    s := Store0(st, s, 0x0b, 1);
  }

  lemma StartPlain(s: State)
    requires s.Valid() && s.ch[0].fl == QUIET.(sab := true) && s.ch[0].cfg == ARRAY.(chain := 0) && s.ch[0].mtc == 1
    ensures SetCcr(s, 0, 0x80).ch[0] == s.ch[0].(kind := 0, fl := QUIET.(act := true))
  {
    hide SetCcr;
    StartWritten(s);
  }

  lemma ContinuePlain(s: State)
    requires s.Valid() && s.ch[0].fl == QUIET.(act := true) && s.ch[0].cfg.chain == 0
    ensures SetCcr(s, 0, 0x40).ch[0] == s.ch[0].(fl := QUIET.(act := true, cnt := true))
  {
    hide SetCcr;
    ContinueWritten(s);
  }

  lemma LastContinued(s: State)
    requires s.Valid() && s.ch[0].fl == QUIET.(act := true, cnt := true) && s.ch[0].mtc == 1
    ensures Step(s, Requested(0)).ch[0].mar == s.ch[0].bar
  {
  }

  // ---------------------------------------------------------------- interrupts

  /**
   The vector asked for after dmac_interrupt is that of the requesting channel before all others by
   priority and number, or none; IRQ 3 is raised once exactly when that vector is new.
   */
  lemma InterruptExact(ch: seq<Channel>, ctl: Control, w: nat)
    requires |ch| == 4 && ctl.vector >= -1 && w < 4
    ensures var r := Interrupt(ch, ctl);
            && ((forall k :: 0 <= k < 4 ==> !Requesting(ch[k])) ==> r.vector == -1 && r.irqs == ctl.irqs)
            && (Requesting(ch[w])
                && (forall k :: 0 <= k < 4 && k != w && Requesting(ch[k])
                                ==> ch[w].cp < ch[k].cp || (ch[w].cp == ch[k].cp && w < k))
                ==> && r.vector == (if ch[w].fl.err then ch[w].eiv else ch[w].niv)
                    && r.irqs == ctl.irqs + (if ctl.vector == r.vector then 0 else 1)
                    && (r.irqs != ctl.irqs ==> r.intVec == r.vector))
  {
    hide Requesting, Winner;
    var k := Winner(ch, 4);
    assert k >= 0 ==> Requesting(ch[k]);
  }
}
