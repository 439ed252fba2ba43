/** dmac.c from the registers: what a program that writes them and lets the device request gets. */
module DmacProgram {
  import opened Arithmetic
  import opened DmacState
  import opened DmacChain
  import opened DmacMove

  // ---------------------------------------------------------------- control and status

  predicate SameControl(x: Channel, y: Channel) { x.fl.intr == y.fl.intr && x.fl.hlt == y.fl.hlt }

  lemma RecordsKeep(x: Channel, ram: seq<byte>, code: nat)
    requires |ram| == SPACE
    ensures SameControl(x, Loaded(x, ram)) && SameControl(x, Failed(x, code)) && SameControl(x, Started(x))
  {
  }

  lemma StartKeeps(st: State, c: nat)
    requires st.Valid() && c < 4
    ensures SameControl(st.ch[c], Start(st, c).ch[c])
  {
    hide SetError, Load, Loaded, Failed, Started, StartError;
    var x := st.ch[c];
    RecordsKeep(x, st.ram, StartError(x));
    RecordsKeep(Started(x), st.ram, 0x0c);
  }

  lemma ContinueKeeps(st: State, c: nat)
    requires st.Valid() && c < 4
    ensures SameControl(st.ch[c], Continue(st, c).ch[c])
  {
    hide SetError, Failed;
    RecordsKeep(st.ch[c], st.ram, 1);
    RecordsKeep(st.ch[c], st.ram, 2);
  }

  lemma AbortKeeps(st: State, c: nat)
    requires st.Valid() && c < 4
    ensures SameControl(st.ch[c], Abort(st, c).ch[c])
  {
    hide SetError, Failed, SameControl;
    var x := st.ch[c];
    var y := x.(fl := x.fl.(coc := true, act := false));
    RecordsKeep(y, st.ram, 0x11);
    StatusKept(x);
    if x.fl.act {
      assert Abort(st, c).ch[c] == Failed(y, 0x11);
      ThroughBoth(x, y, Failed(y, 0x11));
    }
  }

  lemma StatusKept(x: Channel)
    ensures SameControl(x, x.(fl := x.fl.(coc := true, act := false))) && SameControl(x, x.(fl := x.fl.(coc := false)))
  {
  }

  lemma ThroughBoth(x: Channel, y: Channel, z: Channel)
    requires SameControl(x, y) && SameControl(y, z)
    ensures SameControl(x, z)
  {
  }

  lemma StrKeeps(st: State, c: nat)
    requires st.Valid() && c < 4
    ensures SameControl(st.ch[c], Start(st.With(c, st.ch[c].(fl := st.ch[c].fl.(str := true))), c).ch[c])
  {
    hide Start;
    StartKeeps(st.With(c, st.ch[c].(fl := st.ch[c].fl.(str := true))), c);
  }

  lemma CntKeeps(st: State, c: nat)
    requires st.Valid() && c < 4
    ensures SameControl(st.ch[c], Continue(st.With(c, st.ch[c].(fl := st.ch[c].fl.(cnt := true))), c).ch[c])
  {
    hide Continue;
    ContinueKeeps(st.With(c, st.ch[c].(fl := st.ch[c].fl.(cnt := true))), c);
  }

  lemma SabKeeps(st: State, c: nat)
    requires st.Valid() && c < 4
    ensures SameControl(st.ch[c], Abort(st.With(c, st.ch[c].(fl := st.ch[c].fl.(sab := true))), c).ch[c])
  {
    hide Abort;
    AbortKeeps(st.With(c, st.ch[c].(fl := st.ch[c].fl.(sab := true))), c);
  }

  lemma CcrKeeps(st: State, c: nat, data: byte)
    requires st.Valid() && c < 4
    ensures SameControl(st.ch[c].(fl := st.ch[c].fl.(intr := HasBit(data, 0x08), hlt := HasBit(data, 0x20))),
                        SetCcr(st, c, data).ch[c])
  {
    hide Start, Continue, Abort, HasBit, SameControl;
    var x := st.ch[c].(fl := st.ch[c].fl.(intr := HasBit(data, 0x08), hlt := HasBit(data, 0x20)));
    var s0 := st.With(c, x);
    StrKeeps(s0, c);
    var s1 := if HasBit(data, 0x80) then Start(s0.With(c, s0.ch[c].(fl := s0.ch[c].fl.(str := true))), c) else s0;
    SelfControl(x);
    CcrTailKeeps(s1, c, data);
    ThroughBoth(x, s1.ch[c], SetCcr(st, c, data).ch[c]);
  }

  lemma SelfControl(x: Channel)
    ensures SameControl(x, x)
  {
  }

  lemma CcrTailKeeps(s1: State, c: nat, data: byte)
    requires s1.Valid() && c < 4
    ensures var s2 := if HasBit(data, 0x40) then Continue(s1.With(c, s1.ch[c].(fl := s1.ch[c].fl.(cnt := true))), c) else s1;
            var r := if HasBit(data, 0x10) then Abort(s2.With(c, s2.ch[c].(fl := s2.ch[c].fl.(sab := true))), c) else s2;
            SameControl(s1.ch[c], r.ch[c])
  {
    hide Continue, Abort, HasBit, SameControl;
    var s2 := if HasBit(data, 0x40) then Continue(s1.With(c, s1.ch[c].(fl := s1.ch[c].fl.(cnt := true))), c) else s1;
    CntKeeps(s1, c);
    SelfControl(s1.ch[c]);
    SelfControl(s2.ch[c]);
    SabKeeps(s2, c);
    var r := if HasBit(data, 0x10) then Abort(s2.With(c, s2.ch[c].(fl := s2.ch[c].fl.(sab := true))), c) else s2;
    ThroughBoth(s1.ch[c], s2.ch[c], r.ch[c]);
  }

  /** Bit 3 of CCR is INT and bit 5 is HLT, whatever STR, CNT and SAB do beside them. */
  lemma ControlBits(st: State, c: nat, data: byte)
    requires st.Valid() && c < 4
    ensures var f := Write(st, c, 0x07, data).ch[c].fl; f.intr == (data / 8 % 2 == 1) && f.hlt == (data / 0x20 % 2 == 1)
  {
    hide SetCcr;
    CcrKeeps(st, c, data);
  }

  /** A one in CSR clears COC, BOC, NDT, ERR, DIT and PCT, from bit 7 down but for bit 3; ACT and PCS stay. */
  lemma StatusBits(f: Flags, coc: nat, boc: nat, ndt: nat, err: nat, act: nat, dit: nat, pct: nat, pcs: nat)
    requires coc < 2 && boc < 2 && ndt < 2 && err < 2 && act < 2 && dit < 2 && pct < 2 && pcs < 2
    ensures var data := 128 * coc + 64 * boc + 32 * ndt + 16 * err + 8 * act + 4 * dit + 2 * pct + pcs;
            Cleared(f, data) == f.(coc := f.coc && coc == 0, boc := f.boc && boc == 0, ndt := f.ndt && ndt == 0,
                                   err := f.err && err == 0, dit := f.dit && dit == 0, pct := f.pct && pct == 0)
  {
    var low := 4 * dit + 2 * pct + pcs;
    hide HasBit;
    Bits(coc, 64 * boc + 32 * ndt + 16 * err + 8 * act + low, 0x80);
    Bits(2 * coc + boc, 32 * ndt + 16 * err + 8 * act + low, 0x40);
    Bits(4 * coc + 2 * boc + ndt, 16 * err + 8 * act + low, 0x20);
    Bits(8 * coc + 4 * boc + 2 * ndt + err, 8 * act + low, 0x10);
    Bits(32 * coc + 16 * boc + 8 * ndt + 4 * err + 2 * act + dit, 2 * pct + pcs, 0x04);
    Bits(64 * coc + 32 * boc + 16 * ndt + 8 * err + 4 * act + 2 * dit + pct, pcs, 0x02);
  }

  lemma Bits(high: nat, low: nat, weight: nat)
    requires low < weight
    ensures (high * weight + low) / weight == high && (high * weight + low) % weight == low
    ensures HasBit(high * weight + low, weight) == (high % 2 == 1)
  {
    QuotientIs(high * weight + low, weight, high, low);
  }

  // ---------------------------------------------------------------- device, operation and sequence control

  lemma DeviceFields(g: Config, xrm: nat, dtyp: nat, dps: nat, gap: nat, pcl: nat)
    requires xrm < 4 && dtyp < 4 && dps < 2 && gap < 2 && pcl < 4
    ensures WithDcr(g, 0x40 * xrm + 0x10 * dtyp + 8 * dps + 4 * gap + pcl)
            == g.(xrm := xrm, dtyp := dtyp, dps := dps == 1, pcl := pcl)
  {
    hide HasBit;
    Bits(xrm, 0x10 * dtyp + 8 * dps + 4 * gap + pcl, 0x40);
    Bits(4 * xrm + dtyp, 8 * dps + 4 * gap + pcl, 0x10);
    Bits(8 * xrm + 2 * dtyp + dps, 4 * gap + pcl, 8);
    Bits(16 * xrm + 4 * dtyp + 2 * dps + gap, pcl, 4);
  }

  lemma OperationFields(g: Config, dir: nat, btd: nat, size: nat, chain: nat, reqg: nat)
    requires dir < 2 && btd < 2 && size < 4 && chain < 4 && reqg < 4
    ensures WithOcr(g, 0x80 * dir + 0x40 * btd + 0x10 * size + 4 * chain + reqg)
            == g.(dir := dir == 1, btd := btd == 1, size := size, chain := chain, reqg := reqg)
  {
    hide HasBit;
    Bits(dir, 0x40 * btd + 0x10 * size + 4 * chain + reqg, 0x80);
    Bits(2 * dir + btd, 0x10 * size + 4 * chain + reqg, 0x40);
    Bits(8 * dir + 4 * btd + size, 4 * chain + reqg, 0x10);
    Bits(32 * dir + 16 * btd + 4 * size + chain, reqg, 4);
  }

  lemma SequenceFields(g: Config, gap: nat, mac: nat, dac: nat)
    requires gap < 16 && mac < 4 && dac < 4
    ensures WithScr(g, 0x10 * gap + 4 * mac + dac) == g.(mac := mac, dac := dac)
  {
    Bits(4 * gap + mac, dac, 4);
  }

  // ---------------------------------------------------------------- addresses and counts

  /** The three byte writes of an address register, the two of a count register. */
  function WriteAddress(st: State, c: nat, addr: nat, v: nat): (r: State)
    requires st.Valid() && c < 4 && addr + 3 < 0x40 && v < SPACE
    ensures r.Valid()
  {
    Write(Write(Write(st, c, addr + 1, v / 0x1_0000), c, addr + 2, v / 0x100 % 0x100), c, addr + 3, v % 0x100)
  }

  function WriteCount(st: State, c: nat, addr: nat, v: nat): (r: State)
    requires st.Valid() && c < 4 && addr + 1 < 0x40 && v < 0x1_0000
    ensures r.Valid()
  {
    Write(Write(st, c, addr, v / 0x100), c, addr + 1, v % 0x100)
  }

  lemma FromBytes(v: nat, r: nat)
    requires v < SPACE && r < SPACE
    requires ByteOf(r, 2) == v / 0x1_0000 && ByteOf(r, 1) == v / 0x100 % 0x100 && ByteOf(r, 0) == v % 0x100
    ensures r == v
  {
    SplitBytes(v);
    SplitBytes(r);
  }

  lemma SplitBytes(v: nat)
    requires v < SPACE
    ensures v == v / 0x1_0000 * 0x1_0000 + v / 0x100 % 0x100 * 0x100 + v % 0x100 && v / 0x1_0000 < 0x100
    ensures v / 0x1_0000 % 0x100 == v / 0x1_0000
  {
    assert v / 0x100 / 0x100 == v / 0x1_0000;
  }

  lemma AddressBytes(was: nat, v: nat)
    requires v < SPACE
    ensures SetByte24(SetByte24(SetByte24(was, 2, v / 0x1_0000), 1, v / 0x100 % 0x100), 0, v % 0x100) == v
  {
    hide ByteOf, SetByte24;
    SplitBytes(v);
    var r2 := SetByte24(was, 2, v / 0x1_0000);
    var r1 := SetByte24(r2, 1, v / 0x100 % 0x100);
    FromBytes(v, SetByte24(r1, 0, v % 0x100));
  }

  lemma CountBytes(was: nat, v: nat)
    requires v < 0x1_0000
    ensures SetByte16(SetByte16(was, 1, v / 0x100), 0, v % 0x100) == v
  {
    hide SetByte16;
    var r := SetByte16(SetByte16(was, 1, v / 0x100), 0, v % 0x100);
    TwoBytesOf(r);
  }

  lemma TwoBytesOf(r: nat)
    requires r < 0x1_0000
    ensures r == ByteOf(r, 1) * 0x100 + ByteOf(r, 0)
  {
  }

  /** An address register holds what its three bytes spell. */
  lemma AddressWritten(st: State, c: nat, v: nat)
    requires st.Valid() && c < 4 && v < SPACE
    ensures WriteAddress(st, c, 0x0c, v) == st.With(c, st.ch[c].(mar := v))
    ensures WriteAddress(st, c, 0x14, v) == st.With(c, st.ch[c].(dar := v))
    ensures WriteAddress(st, c, 0x1c, v) == st.With(c, st.ch[c].(bar := v))
  {
    hide SetByte24, SetByte16;
    SplitBytes(v);
    AddressBytes(st.ch[c].mar, v);
    AddressBytes(st.ch[c].dar, v);
    AddressBytes(st.ch[c].bar, v);
  }

  lemma CountWritten(st: State, c: nat, v: nat)
    requires st.Valid() && c < 4 && v < 0x1_0000
    ensures WriteCount(st, c, 0x0a, v) == st.With(c, st.ch[c].(mtc := v))
    ensures WriteCount(st, c, 0x1a, v) == st.With(c, st.ch[c].(btc := v))
  {
    hide SetByte24, SetByte16;
    CountBytes(st.ch[c].mtc, v);
    CountBytes(st.ch[c].btc, v);
  }

  // ---------------------------------------------------------------- a start by the control register

  /** The channel as a write of 0x88 to CCR finds it: interrupts on, not halted, STR set. */
  function Enabled(x: Channel): Channel { x.(fl := x.fl.(intr := true, hlt := false, str := true)) }

  lemma ControlStarts(st: State, c: nat)
    requires st.Valid() && c < 4
    ensures Write(st, c, 0x07, 0x88) == Start(st.With(c, Enabled(st.ch[c])), c)
  {
    hide HasBit, Start, Continue, Abort;
    StartBits();
    var x := st.ch[c].(fl := st.ch[c].fl.(intr := true, hlt := false));
    assert st.With(c, x).With(c, Enabled(st.ch[c])) == st.With(c, Enabled(st.ch[c]));
  }

  lemma StartBits()
    ensures HasBit(0x88, 0x80) && HasBit(0x88, 0x08)
    ensures !HasBit(0x88, 0x40) && !HasBit(0x88, 0x20) && !HasBit(0x88, 0x10)
  {
  }

  lemma RequestOthers(st: State, c: nat, k: nat)
    requires st.Valid() && c < 4 && k < 4 && k != c
    ensures Request(st, c).ch[k] == st.ch[k]
  {
    hide Transfer;
  }

  lemma {:induction false} RequestsOthers(st: State, c: nat, n: nat, k: nat)
    requires st.Valid() && c < 4 && k < 4 && k != c
    ensures Requests(st, c, n).ch[k] == st.ch[k]
  {
    hide Request;
    if n > 0 {
      RequestsOthers(st, c, n - 1, k);
      RequestOthers(Requests(st, c, n - 1), c, k);
    }
  }

  lemma LoadedFlags(x: Channel, ram: seq<byte>)
    requires |ram| == SPACE
    ensures Loaded(x, ram).fl == x.fl
  {
  }

  /** The request that completes a channel looks at the interrupts of all four. */
  lemma CompletionInterrupts(st: State, c: nat)
    requires st.Valid() && c < 4 && CanTransfer(st.ch[c]) && !st.ch[c].fl.cnt && !st.ch[c].fl.coc
    requires Request(st, c).ch[c].fl.coc
    ensures var r := Request(st, c);
            Requesting(r.ch[c]) && (forall k :: 0 <= k < 4 && k != c ==> !Requesting(r.ch[k]))
            ==> r.ctl.vector == VectorOf(r.ch[c])
  {
    hide Move, Requesting, VectorOf, Loaded;
    var x := Advanced(st.ch[c]);
    assert x.fl == st.ch[c].fl;
    LoadedFlags(x, Request(st, c).ram);
  }

  /** A channel that has its interrupts on asks for its normal vector when its last block is done. */
  lemma EndInterrupts(s: State, c: nat, blocks: seq<Block>, n: nat)
    requires s.Valid() && c < 4 && Ready(s.ch[c]) && Ahead(s.ch[c], blocks) && s.ch[c].fl.intr
    requires Linked(s.ch[c].cfg.chain, blocks) && Held(s.ram, s.ch[c].cfg.chain, blocks)
    requires n == Count(s.ch[c].mtc) + Total(blocks) && Clear(s.ch[c], blocks, n)
    ensures var r := Requests(s, c, n);
            && Requesting(r.ch[c]) && VectorOf(r.ch[c]) == s.ch[c].niv
            && ((forall k :: 0 <= k < 4 && k != c ==> !Requesting(s.ch[k])) ==> r.ctl.vector == s.ch[c].niv)
  {
    hide Held, Linked, Ahead, SparesAll, Request, After, Left;
    var x := s.ch[c];
    ReadyFlags(x);
    ReadyNow(x);
    AfterAll(x, blocks);
    RequestsAdvance(s, c, blocks, n);
    RequestsAdvance(s, c, blocks, n - 1);
    var q := Requests(s, c, n - 1);
    ReadyFlags(q.ch[c]);
    CompletionInterrupts(q, c);
    forall k | 0 <= k < 4 && k != c ensures Requests(s, c, n).ch[k] == s.ch[k] {
      RequestsOthers(s, c, n, k);
    }
  }

  /**
   From the control register to the interrupt: a channel set up for an unchained transfer is started by
   0x88, moves all its bytes in mtc requests, and then asks for its normal vector.
   */
  lemma TransferByControl(st: State, c: nat)
    requires st.Valid() && c < 4 && Startable(Enabled(st.ch[c]))
    ensures var x, s := st.ch[c], Write(st, c, 0x07, 0x88);
            var r := Requests(s, c, x.mtc);
            && CanTransfer(s.ch[c])
            && Moved(st.ram, r.ram, x.cfg.dir, x.mar, x.dar, if x.cfg.dps then 1 else 2,
                     Bytes((if x.cfg.dps then 4 else 0) + x.cfg.size) * x.mtc)
            && !r.ch[c].fl.act && r.ch[c].fl.coc && !r.ch[c].fl.err && Requesting(r.ch[c]) && VectorOf(r.ch[c]) == x.niv
            && ((forall k :: 0 <= k < 4 && k != c ==> !Requesting(st.ch[k])) ==> r.ctl.vector == x.niv)
  {
    hide Moved, InSpace, Apart, Requests, Held, Linked, SparesAll, Write, Requesting, VectorOf, Start;
    var t := st.With(c, Enabled(st.ch[c]));
    ControlStarts(st, c);
    WholeTransfer(t, c);
    StartPlain(t, c);
    StartTouches(t, c);
    NothingFollows(Start(t, c), c, st.ch[c].mtc);
    EndInterrupts(Start(t, c), c, [], st.ch[c].mtc);
  }

  lemma StartTouches(st: State, c: nat)
    requires st.Valid() && c < 4
    ensures forall k :: 0 <= k < 4 && k != c ==> Start(st, c).ch[k] == st.ch[k]
  {
  }

  /** The same of a chain. */
  lemma ChainByControl(st: State, c: nat, blocks: seq<Block>)
    requires st.Valid() && c < 4 && Chained(Enabled(st.ch[c]), blocks) && Held(st.ram, st.ch[c].cfg.chain, blocks)
    requires var x := StartedOn(Enabled(st.ch[c]), blocks[0]);
             ChainPlain(x, blocks[1..]) && Clear(x, blocks[1..], Total(blocks))
    ensures var x, s := StartedOn(Enabled(st.ch[c]), blocks[0]), Write(st, c, 0x07, 0x88);
            var r := Requests(s, c, Total(blocks));
            && ChainMoved(st.ram, r.ram, x, blocks[1..])
            && !r.ch[c].fl.act && r.ch[c].fl.coc && !r.ch[c].fl.err && Requesting(r.ch[c]) && VectorOf(r.ch[c]) == st.ch[c].niv
            && ((forall k :: 0 <= k < 4 && k != c ==> !Requesting(st.ch[k])) ==> r.ctl.vector == st.ch[c].niv)
  {
    hide ChainMoved, ChainPlain, Requests, Held, Linked, Clear, Write, Requesting, VectorOf, Start, Ready, Ahead;
    var t := st.With(c, Enabled(st.ch[c]));
    ControlStarts(st, c);
    WholeChain(t, c, blocks);
    StartLoads(t, c, blocks);
    StartTouches(t, c);
    EndInterrupts(Start(t, c), c, blocks[1..], Total(blocks));
  }

  // ---------------------------------------------------------------- a whole program

  /** What a program wants of a channel. */
  datatype Setup = Setup(dir: bool, dps: bool, size: nat, count: nat, mar: nat, dar: nat, niv: byte) {
    predicate Ok() {
      && size < 4 && 0 < count < 0x1_0000 && mar < SPACE && dar < SPACE
      && InSpace(mar, dar, if dps then 1 else 2, Bytes((if dps then 4 else 0) + size) * count)
      && Apart(mar, dar, if dps then 1 else 2, Bytes((if dps then 4 else 0) + size) * count)
    }
  }

  /** Status cleared, device port, operation, both addresses counting up. */
  function WriteControls(st: State, c: nat, p: Setup): (r: State)
    requires st.Valid() && c < 4 && p.Ok()
    ensures r.Valid()
  {
    var cleared := Write(st, c, 0x00, 0xff);
    var device := Write(cleared, c, 0x04, if p.dps then 8 else 0);
    var operation := Write(device, c, 0x05, (if p.dir then 0x80 else 0) + 0x10 * p.size + 2);
    Write(operation, c, 0x06, 5)
  }

  /** The registers of a transfer up to the start. */
  function WriteSetup(st: State, c: nat, p: Setup): (r: State)
    requires st.Valid() && c < 4 && p.Ok()
    ensures r.Valid()
  {
    var counted := WriteCount(WriteControls(st, c, p), c, 0x0a, p.count);
    var placed := WriteAddress(WriteAddress(counted, c, 0x0c, p.mar), c, 0x14, p.dar);
    Write(placed, c, 0x25, p.niv)
  }

  function ControlsOf(p: Setup): Config { Config(0, 0, p.dps, 0, p.dir, false, p.size, 0, 2, 1, 1) }

  /** The same memory and the same other channels. */
  predicate OnlyChannel(st: State, r: State, c: nat)
    requires st.Valid() && r.Valid()
  {
    r.ram == st.ram && forall k :: 0 <= k < 4 && k != c ==> r.ch[k] == st.ch[k]
  }

  lemma StatusCleared(st: State, c: nat)
    requires st.Valid() && c < 4
    ensures var r, f := Write(st, c, 0x00, 0xff), st.ch[c].fl;
            && OnlyChannel(st, r, c)
            && r.ch[c] == st.ch[c].(fl := f.(coc := false, boc := false, ndt := false, err := false, dit := false, pct := false))
  {
    hide Interrupt;
    StatusBits(st.ch[c].fl, 1, 1, 1, 1, 1, 1, 1, 1);
  }

  lemma ConfigWritten(st: State, c: nat, addr: nat, data: byte, g: Config)
    requires st.Valid() && c < 4 && !st.ch[c].fl.act && (addr == 0x04 || addr == 0x05 || addr == 0x06)
    requires g == if addr == 0x04 then WithDcr(st.ch[c].cfg, data) else if addr == 0x05 then WithOcr(st.ch[c].cfg, data)
                  else WithScr(st.ch[c].cfg, data)
    ensures var r := Write(st, c, addr, data);
            OnlyChannel(st, r, c) && r.ch[c] == st.ch[c].(cfg := g)
  {
    hide Interrupt, WithDcr, WithOcr, WithScr;
  }

  function ClearedFlags(f: Flags): Flags {
    f.(coc := false, boc := false, ndt := false, err := false, dit := false, pct := false)
  }

  lemma PortWritten(st: State, c: nat, dps: bool)
    requires st.Valid() && c < 4 && !st.ch[c].fl.act
    ensures var r, x := Write(Write(st, c, 0x00, 0xff), c, 0x04, if dps then 8 else 0), st.ch[c];
            && OnlyChannel(st, r, c)
            && r.ch[c] == x.(cfg := x.cfg.(xrm := 0, dtyp := 0, dps := dps, pcl := 0), fl := ClearedFlags(x.fl))
  {
    hide Write, WithDcr, WithOcr, WithScr;
    var g := st.ch[c].cfg;
    StatusCleared(st, c);
    DeviceFields(g, 0, 0, if dps then 1 else 0, 0, 0);
    ConfigWritten(Write(st, c, 0x00, 0xff), c, 0x04, if dps then 8 else 0, g.(xrm := 0, dtyp := 0, dps := dps, pcl := 0));
  }

  lemma ControlsWritten(st: State, c: nat, p: Setup)
    requires st.Valid() && c < 4 && p.Ok() && !st.ch[c].fl.act
    ensures var r := WriteControls(st, c, p);
            OnlyChannel(st, r, c) && r.ch[c] == st.ch[c].(cfg := ControlsOf(p), fl := ClearedFlags(st.ch[c].fl))
  {
    hide Write, WithDcr, WithOcr, WithScr, InSpace, Apart;
    PortWritten(st, c, p.dps);
    var device := Write(Write(st, c, 0x00, 0xff), c, 0x04, if p.dps then 8 else 0);
    var data: byte := (if p.dir then 0x80 else 0) + 0x10 * p.size + 2;
    var g := device.ch[c].cfg;
    OperationFields(g, if p.dir then 1 else 0, 0, p.size, 0, 2);
    var g2 := g.(dir := p.dir, btd := false, size := p.size, chain := 0, reqg := 2);
    ConfigWritten(device, c, 0x05, data, g2);
    SequenceFields(g2, 0, 1, 1);
    ConfigWritten(Write(device, c, 0x05, data), c, 0x06, 5, g2.(mac := 1, dac := 1));
  }

  lemma SetupWritten(st: State, c: nat, p: Setup)
    requires st.Valid() && c < 4 && p.Ok() && !st.ch[c].fl.act
    ensures var r := WriteSetup(st, c, p);
            && OnlyChannel(st, r, c) && Startable(Enabled(r.ch[c])) && r.ch[c].cfg == ControlsOf(p)
            && r.ch[c].mar == p.mar && r.ch[c].dar == p.dar && r.ch[c].mtc == p.count && r.ch[c].niv == p.niv
  {
    hide WriteControls, WriteCount, WriteAddress, InSpace, Apart;
    ControlsWritten(st, c, p);
    var s := WriteControls(st, c, p);
    CountWritten(s, c, p.count);
    var counted := WriteCount(s, c, 0x0a, p.count);
    AddressWritten(counted, c, p.mar);
    AddressWritten(WriteAddress(counted, c, 0x0c, p.mar), c, p.dar);
  }

  /**
   A driver's whole program, from any state in which the channel is idle: after the register writes and
   as many requests as the count, the bytes have moved between the addresses written, nothing else has
   changed in memory, and the interrupt asked for is the vector written.
   */
  lemma ProgramTransfers(st: State, c: nat, p: Setup)
    requires st.Valid() && c < 4 && p.Ok() && !st.ch[c].fl.act
    ensures var r := Requests(Write(WriteSetup(st, c, p), c, 0x07, 0x88), c, p.count);
            && Moved(st.ram, r.ram, p.dir, p.mar, p.dar, if p.dps then 1 else 2,
                     Bytes((if p.dps then 4 else 0) + p.size) * p.count)
            && !r.ch[c].fl.act && r.ch[c].fl.coc && !r.ch[c].fl.err
            && ((forall k :: 0 <= k < 4 && k != c ==> !Requesting(st.ch[k])) ==> r.ctl.vector == p.niv)
  {
    hide Moved, InSpace, Apart, Requests, Write, WriteSetup, Requesting, VectorOf, Startable;
    SetupWritten(st, c, p);
    TransferByControl(WriteSetup(st, c, p), c);
  }

  // ---------------------------------------------------------------- descriptors and errors

  /** A descriptor is an address of three bytes after an unused one, a count of two, and in a link array the next address. */
  lemma DescriptorBytes(ram: seq<byte>, chain: nat, at: nat)
    requires |ram| == SPACE && at % 2 == 0 && at + 10 <= SPACE
    ensures var b := BlockAt(ram, chain, at);
            && b.mar == ram[at + 1] as int * 0x1_0000 + ram[at + 2] as int * 0x100 + ram[at + 3]
            && b.count == ram[at + 4] as int * 0x100 + ram[at + 5]
            && b.next == if chain == 2 then at + 6
                         else ram[at + 7] as int * 0x1_0000 + ram[at + 8] as int * 0x100 + ram[at + 9]
  {
    hide Word;
    WordAt(ram, at, 0);
    WordAt(ram, at, 1);
    WordAt(ram, at, 2);
    WordAt(ram, at, 3);
    WordAt(ram, at, 4);
    assert Even24(at + 4) == at + 4;
  }

  lemma WordAt(ram: seq<byte>, at: nat, k: nat)
    requires |ram| == SPACE && at % 2 == 0 && at + 2 * k + 2 <= SPACE
    ensures Word(ram, at, k) == ram[at + 2 * k] as int * 0x100 + ram[at + 2 * k + 1]
    ensures Word(ram, at, k) % 0x100 == ram[at + 2 * k + 1] as int
  {
    var a := at + 2 * k;
    assert Even24(a) == a;
  }

  /** A failing channel that has its interrupts on asks for its error vector when no other channel requests. */
  lemma ErrorInterrupts(st: State, c: nat, code: nat)
    requires st.Valid() && c < 4 && st.ch[c].fl.intr && forall k :: 0 <= k < 4 && k != c ==> !Requesting(st.ch[k])
    ensures var r := SetError(st, c, code); r.ctl.vector == st.ch[c].eiv && r.ch[c].ecode == code && !r.ch[c].fl.act
  {
    var t := st.With(c, Failed(st.ch[c], code));
    assert Requesting(t.ch[c]);
    assert forall k :: 0 <= k < 4 && k != c ==> t.ch[k] == st.ch[k];
  }

  /** What makes a channel request with its interrupts on: an error, a completion, a block, an external end, or PCL enabled. */
  lemma Causes(x: Channel)
    requires x.fl.intr
    ensures x.fl.err || x.fl.coc || x.fl.boc || x.fl.ndt ==> Requesting(x)
    ensures x.fl.pct && x.cfg.pcl == 1 ==> Requesting(x)
    ensures !x.fl.err && !x.fl.coc && !x.fl.boc && !x.fl.ndt && (!x.fl.pct || x.cfg.pcl != 1) ==> !Requesting(x)
    ensures !Requesting(x.(fl := x.fl.(intr := false)))
  {
  }

  /** A software abort completes an active channel with error 0x11 and only takes COC from another. */
  lemma AbortLaw(st: State, c: nat)
    requires st.Valid() && c < 4
    ensures var x, r := st.ch[c], Abort(st, c);
            && (x.fl.act ==> r.ch[c] == x.(fl := x.fl.(act := false, coc := true, err := true), ecode := 0x11))
            && (!x.fl.act ==> r.ch[c] == x.(fl := x.fl.(coc := false)))
            && OnlyChannel(st, r, c)
  {
    hide Interrupt;
  }

  /** CNT is a timing error on an idle channel, a configuration error in a chain, and nothing else happens at once. */
  lemma ContinueLaw(st: State, c: nat)
    requires st.Valid() && c < 4
    ensures var x, r := st.ch[c], Continue(st, c);
            && (!x.fl.act ==> r.ch[c].ecode == 2 && r.ch[c].fl.err)
            && (x.fl.act && x.cfg.chain != 0 ==> r.ch[c].ecode == 1 && r.ch[c].fl.err && !r.ch[c].fl.act)
            && (x.fl.act && x.cfg.chain == 0 ==> r == st)
            && OnlyChannel(st, r, c)
  {
    hide Interrupt;
  }

  /** After the last operand of a continued block the base registers are the current ones, BOC is set and the channel goes on. */
  lemma ContinuedBlock(st: State, c: nat)
    requires st.Valid() && c < 4 && CanTransfer(st.ch[c]) && st.ch[c].fl.cnt && st.ch[c].mtc == 1
    ensures var x, r := st.ch[c], Request(st, c).ch[c];
            && r.mar == x.bar && r.mtc == x.btc && r.mfc == x.bfc && r.bar == x.bar && r.btc == x.btc
            && r.fl == x.fl.(boc := true)
  {
    hide Move, Interrupt;
  }

  /** The registers that are only stored: vectors, function codes and the priority. */
  lemma PlainRegisters(st: State, c: nat, data: byte)
    requires st.Valid() && c < 4
    ensures Write(st, c, 0x25, data).ch[c] == st.ch[c].(niv := data)
    ensures Write(st, c, 0x27, data).ch[c] == st.ch[c].(eiv := data)
    ensures Write(st, c, 0x2d, data).ch[c] == st.ch[c].(cp := data % 4)
  {
    hide SetByte16, SetByte24, SetCcr, SetCsr, SetConfig, SetGcr;
  }

  lemma FunctionCodes(st: State, c: nat, data: byte)
    requires st.Valid() && c < 4
    ensures Write(st, c, 0x29, data).ch[c] == st.ch[c].(mfc := data)
    ensures Write(st, c, 0x31, data).ch[c] == st.ch[c].(dfc := data)
    ensures Write(st, c, 0x39, data).ch[c] == st.ch[c].(bfc := data)
  {
    hide SetByte16, SetByte24, SetCcr, SetCsr, SetConfig, SetGcr;
  }

  /** The burst register is channel 3's and sets all four. */
  lemma BurstRegister(st: State, c: nat, k: nat, top: nat, bt: nat, br: nat)
    requires st.Valid() && c < 4 && k < 4 && top < 16 && bt < 4 && br < 4
    ensures Write(st, c, 0x3f, 16 * top + 4 * bt + br).ch[k] == if c == 3 then st.ch[k].(bt := bt, br := br) else st.ch[k]
  {
    Bits(4 * top + bt, br, 4);
  }

  /** A reset leaves every channel idle, at the highest priority, with its interrupts off and vector 15, whatever it was. */
  lemma AfterReset(st: State, c: nat)
    requires st.Valid() && c < 4
    ensures var x := Reset(st).ch[c];
            && !x.fl.act && !x.fl.intr && !x.fl.err && !x.fl.coc && !Requesting(x) && x.cp == 0 && x.niv == 15 && x.eiv == 15
            && x.mar == st.ch[c].mar % SPACE && x.dar == st.ch[c].dar % SPACE && x.mtc == st.ch[c].mtc % 0x1_0000
    ensures Reset(st).ctl.vector == -1 && Reset(st).ram == st.ram
  {
  }

  /** A halted, failed or idle channel answers no request. */
  lemma {:induction false} HaltedWaits(st: State, c: nat, k: nat)
    requires st.Valid() && c < 4 && (st.ch[c].fl.hlt || st.ch[c].fl.err || !st.ch[c].fl.act)
    ensures Requests(st, c, k) == st
  {
    if k > 0 {
      HaltedWaits(st, c, k - 1);
    }
  }

  /** An odd base address fails with an address error. */
  lemma OddBase(st: State, c: nat)
    requires st.Valid() && c < 4 && st.ch[c].bar % 2 == 1
    ensures var x, r := st.ch[c], Load(st, c); r.ch[c] == x.(fl := x.fl.(act := false, err := true), ecode := 0x0c)
  {
    hide Interrupt;
  }
}
