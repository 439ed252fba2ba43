/** dmac.h and dmac.c: the four channels, and what each function of the controller does to them. */
module DmacState {
  type byte = x: int | 0 <= x < 256

  const SPACE: int := 0x100_0000
  const TWO32: int := 0x1_0000_0000

  // ---------------------------------------------------------------- the records

  /** Device, operation and sequence control registers: DCR, OCR and SCR. */
  datatype Config = Config(xrm: nat, dtyp: nat, dps: bool, pcl: nat, dir: bool, btd: bool, size: nat, chain: nat,
                           reqg: nat, mac: nat, dac: nat)

  /** Channel control and channel status: CCR and CSR. */
  datatype Flags = Flags(str: bool, cnt: bool, hlt: bool, sab: bool, intr: bool, coc: bool, boc: bool, ndt: bool,
                         err: bool, act: bool, dit: bool, pct: bool, pcs: bool)

  /** struct dmac_channel, without the two counters kept for debugging. */
  datatype Channel = Channel(cfg: Config, fl: Flags, ecode: nat, mar: nat, dar: nat, bar: nat, mtc: nat, btc: nat,
                             mfc: nat, dfc: nat, bfc: nat, niv: nat, eiv: nat, cp: nat, bt: nat, br: nat, kind: nat)

  /** struct dmac_control, with v68.int_vec and the number of times m68k_set_irq(3) was called. */
  datatype Control = Control(transfer: nat, load: nat, exec: bool, currentCh: nat, cpuCycle: nat, vector: int,
                             intVec: int, irqs: nat)

  datatype State = State(ch: seq<Channel>, ctl: Control, ram: seq<byte>) {
    predicate Valid() { |ch| == 4 && |ram| == SPACE }

    /** The state with another record for channel c. */
    function With(c: nat, x: Channel): (r: State)
      requires Valid() && c < 4
      ensures r.Valid() && r.ch[c] == x && r.ctl == ctl && r.ram == ram
      ensures forall k :: 0 <= k < 4 && k != c ==> r.ch[k] == ch[k]
    {
      this.(ch := ch[c := x])
    }
  }

  // ---------------------------------------------------------------- memory

  function Read8(ram: seq<byte>, addr: nat): byte
    requires |ram| == SPACE
  {
    ram[addr % SPACE]
  }

  function Read16(ram: seq<byte>, addr: nat): (r: nat)
    requires |ram| == SPACE
    ensures r < 0x1_0000
  {
    Read8(ram, addr) * 0x100 + Read8(ram, addr + 1)
  }

  function Write8(ram: seq<byte>, addr: nat, v: nat): (r: seq<byte>)
    requires |ram| == SPACE
    ensures |r| == SPACE
  {
    ram[addr % SPACE := v % 0x100]
  }

  function Write16(ram: seq<byte>, addr: nat, v: nat): (r: seq<byte>)
    requires |ram| == SPACE
    ensures |r| == SPACE
  {
    Write8(Write8(ram, addr, v / 0x100), addr + 1, v)
  }

  // ---------------------------------------------------------------- interrupts

  /** The channel has something to interrupt for and may. */
  predicate Requesting(x: Channel) {
    x.fl.intr && (x.fl.err || x.fl.coc || x.fl.boc || x.fl.ndt || (x.cfg.pcl == 1 && x.fl.pct))
  }

  function VectorOf(x: Channel): nat { if x.fl.err then x.eiv else x.niv }

  /** Channel j goes before channel k: a smaller priority number, or the same and a smaller channel number. */
  predicate Before(ch: seq<Channel>, j: nat, k: nat)
    requires j < |ch| && k < |ch|
  {
    ch[j].cp < ch[k].cp || (ch[j].cp == ch[k].cp && j < k)
  }

  /** The first of the first n channels that is requesting, or -1. */
  function Winner(ch: seq<Channel>, n: nat): (w: int)
    requires n <= |ch|
    ensures -1 <= w < n
    ensures w >= 0 ==> Requesting(ch[w]) && forall j :: 0 <= j < n && Requesting(ch[j]) && j != w ==> Before(ch, w, j)
    ensures w < 0 ==> forall j :: 0 <= j < n ==> !Requesting(ch[j])
  {
    if n == 0 then -1
    else
      var w := Winner(ch, n - 1);
      if Requesting(ch[n - 1]) && (w < 0 || Before(ch, n - 1, w)) then n - 1 else w
  }

  /** dmac_interrupt: IRQ 3 is raised when the vector to deliver is not the one already asked for. */
  function Interrupt(ch: seq<Channel>, ctl: Control): Control
    requires |ch| == 4
  {
    var w := Winner(ch, 4);
    if w < 0 then ctl.(vector := if ctl.vector >= 0 then -1 else ctl.vector)
    else if ctl.vector != VectorOf(ch[w]) then
      ctl.(vector := VectorOf(ch[w]), intVec := VectorOf(ch[w]), irqs := ctl.irqs + 1)
    else ctl
  }

  function Interrupted(st: State): (r: State)
    requires st.Valid()
    ensures r.Valid() && r.ch == st.ch && r.ram == st.ram
    ensures r.ctl.load == st.ctl.load && r.ctl.transfer == st.ctl.transfer
  {
    st.(ctl := Interrupt(st.ch, st.ctl))
  }

  // ---------------------------------------------------------------- errors, load, start

  function Failed(x: Channel, code: nat): Channel {
    x.(fl := x.fl.(act := false, err := true), ecode := code)
  }

  /** dmac_channel_set_error */
  function SetError(st: State, c: nat, code: nat): (r: State)
    requires st.Valid() && c < 4
    ensures r.Valid() && r.ram == st.ram && r.ctl.load == st.ctl.load && r.ctl.transfer == st.ctl.transfer
    ensures r.ch == st.ch[c := Failed(st.ch[c], code)]
  {
    Interrupted(st.With(c, Failed(st.ch[c], code)))
  }

  /** addr & 0xfffffe */
  function Even24(addr: nat): (r: nat)
    ensures r < SPACE && r % 2 == 0
  {
    addr % SPACE / 2 * 2
  }

  function Minus1(x: nat): nat { if x == 0 then TWO32 - 1 else x - 1 }

  /** m68k_read_memory_16 of a word at an address and the two bytes after, each address cut to 24 bits and made even. */
  function Word(ram: seq<byte>, bar: nat, k: nat): (r: nat)
    requires |ram| == SPACE
    ensures r < 0x1_0000
  {
    Read16(ram, Even24(bar + 2 * k))
  }

  /** The record after dmac_channel_load has read a descriptor at an even base address. */
  function Loaded(x: Channel, ram: seq<byte>): (r: Channel)
    requires |ram| == SPACE
    ensures r.mar < SPACE
  {
    var y := x.(mar := Word(ram, x.bar, 0) % 0x100 * 0x1_0000 + Word(ram, x.bar, 1), mtc := Word(ram, x.bar, 2));
    if x.fl.err then y.(bar := Even24(x.bar + 4) + 2)
    else if x.cfg.chain == 2 then y.(bar := Even24(x.bar + 4) + 2, btc := Minus1(x.btc))
    else y.(bar := Word(ram, x.bar, 3) % 0x100 * 0x1_0000 + Word(ram, x.bar, 4))
  }

  /** dmac_channel_load: an odd base address is an address error. */
  function Load(st: State, c: nat): (r: State)
    requires st.Valid() && c < 4
    ensures r.Valid() && r.ctl.load == 0 && r.ctl.transfer == st.ctl.transfer && r.ram == st.ram
    ensures forall k :: 0 <= k < 4 && k != c ==> r.ch[k] == st.ch[k]
    ensures r.ch[c] == if st.ch[c].bar % 2 == 1 then Failed(st.ch[c], 0x0c) else Loaded(st.ch[c], st.ram)
  {
    if st.ch[c].bar % 2 == 1 then
      var e := SetError(st.(ctl := st.ctl.(load := c + 1)), c, 0x0c);
      e.(ctl := e.ctl.(load := 0))
    else
      st.(ctl := st.ctl.(load := 0)).With(c, Loaded(st.ch[c], st.ram))
  }

  /** The error dmac_channel_start finds, or 0. */
  function StartError(x: Channel): nat {
    if x.fl.act || x.fl.coc || x.fl.boc || x.fl.ndt || x.fl.err then 2
    else if x.cfg.chain == 0 && x.mtc == 0 then 0x0d
    else if x.cfg.chain == 2 && x.btc == 0 then 0x0f
    else if x.cfg.xrm == 1 || x.cfg.mac == 3 || x.cfg.dac == 3 || x.cfg.chain == 1 then 1
    else 0
  }

  /** A channel a start accepts: idle and cleared, something to transfer, and no setting that is reserved. */
  predicate MayStart(x: Channel) {
    && !x.fl.act && !x.fl.coc && !x.fl.boc && !x.fl.ndt && !x.fl.err
    && (x.cfg.chain == 0 ==> x.mtc != 0) && (x.cfg.chain == 2 ==> x.btc != 0)
    && x.cfg.xrm != 1 && x.cfg.mac != 3 && x.cfg.dac != 3 && x.cfg.chain != 1
  }

  /** A start fails with a timing, memory count, base count or configuration error, in this order, or not at all. */
  lemma StartErrors(x: Channel)
    ensures StartError(x) == 0 <==> MayStart(x)
    ensures StartError(x) == 0x02 <==> x.fl.act || x.fl.coc || x.fl.boc || x.fl.ndt || x.fl.err
    ensures StartError(x) == 0x0d <==> StartError(x) != 0x02 && x.cfg.chain == 0 && x.mtc == 0
    ensures StartError(x) == 0x0f <==> StartError(x) != 0x02 && x.cfg.chain == 2 && x.btc == 0
    ensures StartError(x) in {0x00, 0x01, 0x02, 0x0d, 0x0f}
  {
  }

  function Started(x: Channel): Channel {
    x.(kind := (if x.cfg.dps then 4 else 0) + x.cfg.size, fl := x.fl.(str := false, act := true, cnt := false, sab := false))
  }

  /** dmac_channel_start; dmac_channel_auto does nothing. */
  function Start(st: State, c: nat): (r: State)
    requires st.Valid() && c < 4
    ensures r.Valid() && (r.ch[c].mar == st.ch[c].mar || r.ch[c].mar < SPACE)
    ensures r.Valid() && r.ram == st.ram && r.ctl.transfer == st.ctl.transfer
    ensures r.ctl.load == 0 || r.ctl.load == st.ctl.load
    ensures forall k :: 0 <= k < 4 && k != c ==> r.ch[k] == st.ch[k]
  {
    var x := st.ch[c];
    if StartError(x) != 0 then SetError(st, c, StartError(x))
    else
      var s := st.With(c, Started(x));
      var l := if x.cfg.chain != 0 then Load(s, c) else s;
      if x.cfg.chain != 0 && l.ch[c].fl.err then l
      else if x.cfg.reqg == 2 then l.(ctl := l.ctl.(cpuCycle := 0))
      else l.(ctl := l.ctl.(cpuCycle := 0, currentCh := c, exec := true))
  }

  /** dmac_channel_continue */
  function Continue(st: State, c: nat): (r: State)
    requires st.Valid() && c < 4
    ensures r.Valid() && (r.ch[c].mar == st.ch[c].mar || r.ch[c].mar < SPACE)
    ensures r.Valid() && r.ram == st.ram && r.ctl.load == st.ctl.load && r.ctl.transfer == st.ctl.transfer
    ensures forall k :: 0 <= k < 4 && k != c ==> r.ch[k] == st.ch[k]
  {
    if !st.ch[c].fl.act then SetError(st, c, 2)
    else if st.ch[c].cfg.chain != 0 then SetError(st, c, 1)
    else st
  }

  /** dmac_channel_abort */
  function Abort(st: State, c: nat): (r: State)
    requires st.Valid() && c < 4
    ensures r.Valid() && (r.ch[c].mar == st.ch[c].mar || r.ch[c].mar < SPACE)
    ensures r.Valid() && r.ram == st.ram && r.ctl.load == st.ctl.load && r.ctl.transfer == st.ctl.transfer
    ensures forall k :: 0 <= k < 4 && k != c ==> r.ch[k] == st.ch[k]
  {
    var x := st.ch[c];
    if !x.fl.act then st.With(c, x.(fl := x.fl.(coc := false)))
    else SetError(st.With(c, x.(fl := x.fl.(coc := true, act := false))), c, 0x11)
  }

  // ---------------------------------------------------------------- transfer

  /** mem_diff_table and dev_diff_table. */
  function Bytes(kind: nat): nat {
    if kind == 1 || kind == 5 then 2 else if kind == 2 || kind == 6 then 4 else 1
  }

  function Spacing(kind: nat): nat { if kind < 4 then 2 else 1 }

  function Diff(step: nat, mode: nat): int { if mode == 1 then step else if mode == 2 then -(step as int) else 0 }

  function MemDiff(kind: nat, mac: nat): int { Diff(Bytes(kind), mac) }

  function DevDiff(kind: nat, dac: nat): int { Diff(Bytes(kind) * Spacing(kind), dac) }

  /** The switch of dmac_channel_transfer: one operand between memory and device. */
  function Move(ram: seq<byte>, kind: nat, dir: bool, mar: nat, dar: nat): (r: seq<byte>)
    requires |ram| == SPACE
    ensures |r| == SPACE
  {
    if kind == 1 then
      if dir then Write16(ram, mar, Read8(ram, dar) * 0x100 + Read8(ram, dar + 2))
      else Write8(Write8(ram, dar, Read16(ram, mar) / 0x100), dar + 2, Read16(ram, mar))
    else if kind == 2 then
      if dir then
        var data := ((Read8(ram, dar) * 0x100 + Read8(ram, dar + 2)) * 0x100 + Read8(ram, dar + 4)) * 0x100
                    + Read8(ram, dar + 6);
        Write16(Write16(ram, mar, data / 0x1_0000), mar + 2, data % 0x1_0000)
      else
        var data := Read16(ram, mar) * 0x1_0000 + Read16(ram, mar + 2);
        Write8(Write8(Write8(Write8(ram, dar, data / 0x100_0000), dar + 2, data / 0x1_0000), dar + 4, data / 0x100),
               dar + 6, data)
    else if kind == 5 then
      if dir then Write16(ram, mar, Read16(ram, dar)) else Write16(ram, dar, Read16(ram, mar))
    else if kind == 6 then
      if dir then
        var data := Read16(ram, dar) * 0x1_0000 + Read16(ram, dar + 2);
        Write16(Write16(ram, mar, data / 0x1_0000), mar + 2, data % 0x1_0000)
      else
        var data := Read16(ram, mar) * 0x1_0000 + Read16(ram, mar + 2);
        Write16(Write16(ram, dar, data / 0x1_0000), dar + 2, data % 0x1_0000)
    else
      if dir then Write8(ram, mar, Read8(ram, dar)) else Write8(ram, dar, Read8(ram, mar))
  }

  /** The addresses and the counter after an operand. */
  function Advanced(x: Channel): Channel {
    x.(mar := (x.mar + MemDiff(x.kind, x.cfg.mac)) % SPACE, dar := (x.dar + DevDiff(x.kind, x.cfg.dac)) % SPACE,
       mtc := Minus1(x.mtc))
  }

  /** What follows an operand: the next one, the continued block, the next block of a chain, or the end. */
  function Follow(st: State, c: nat): (r: State)
    requires st.Valid() && c < 4
    ensures r.Valid() && r.ram == st.ram && r.ctl.transfer == st.ctl.transfer
    ensures r.ctl.load == 0 || r.ctl.load == st.ctl.load
    ensures forall k :: 0 <= k < 4 && k != c ==> r.ch[k] == st.ch[k]
  {
    var x := st.ch[c];
    if x.mtc > 0 then st
    else if x.fl.cnt then
      Interrupted(st.With(c, x.(mar := x.bar, mfc := x.bfc, mtc := x.btc, fl := x.fl.(boc := true))))
    else if (x.cfg.chain == 2 && x.btc > 0) || (x.cfg.chain == 3 && x.bar != 0) then Load(st, c)
    else Interrupted(st.With(c, x.(fl := x.fl.(act := false, coc := true))))
  }

  /** dmac_channel_transfer */
  function Transfer(st: State, c: nat): (r: State)
    requires st.Valid() && c < 4
    ensures r.Valid() && r.ctl.transfer == 0 && (r.ctl.load == 0 || r.ctl.load == st.ctl.load)
    ensures forall k :: 0 <= k < 4 && k != c ==> r.ch[k] == st.ch[k]
  {
    var x := st.ch[c];
    var moved := st.(ram := Move(st.ram, x.kind, x.cfg.dir, x.mar, x.dar), ctl := st.ctl.(transfer := 0));
    if x.fl.err then moved else Follow(moved.With(c, Advanced(x)), c)
  }

  /** dmac_is_act: what dmac_channel_request also asks. */
  predicate CanTransfer(x: Channel) {
    x.fl.act && !x.fl.err && !x.fl.hlt
  }

  /** dmac_channel_request */
  function Request(st: State, c: nat): (r: State)
    requires st.Valid() && c < 4
    ensures r.Valid()
  {
    if CanTransfer(st.ch[c]) then Transfer(st, c) else st
  }

  // ---------------------------------------------------------------- register writes

  predicate HasBit(v: nat, weight: nat)
    requires weight > 0
  {
    v / weight % 2 == 1
  }

  /** The setters that an active channel answers with a timing error. */
  function SetConfig(st: State, c: nat, cfg: Config, check: bool): (r: State)
    requires st.Valid() && c < 4
    ensures r.Valid()
  {
    if st.ch[c].fl.act then SetError(st, c, 2)
    else
      var s := st.With(c, st.ch[c].(cfg := cfg));
      if check then Interrupted(s) else s
  }

  /** dmac_channel_set_ccr */
  function SetCcr(st: State, c: nat, data: byte): (r: State)
    requires st.Valid() && c < 4
    ensures r.Valid() && (r.ch[c].mar == st.ch[c].mar || r.ch[c].mar < SPACE)
    ensures forall k :: 0 <= k < 4 && k != c ==> r.ch[k] == st.ch[k]
  {
    var s0 := st.With(c, st.ch[c].(fl := st.ch[c].fl.(intr := HasBit(data, 0x08), hlt := HasBit(data, 0x20))));
    var s1 := if HasBit(data, 0x80) then Start(s0.With(c, s0.ch[c].(fl := s0.ch[c].fl.(str := true))), c) else s0;
    var s2 := if HasBit(data, 0x40) then Continue(s1.With(c, s1.ch[c].(fl := s1.ch[c].fl.(cnt := true))), c) else s1;
    if HasBit(data, 0x10) then Abort(s2.With(c, s2.ch[c].(fl := s2.ch[c].fl.(sab := true))), c) else s2
  }

  /** Ones clear the status bits, except ACT and PCS. */
  function Cleared(f: Flags, data: byte): Flags {
    f.(coc := f.coc && !HasBit(data, 0x80), boc := f.boc && !HasBit(data, 0x40), ndt := f.ndt && !HasBit(data, 0x20),
       err := f.err && !HasBit(data, 0x10), dit := f.dit && !HasBit(data, 0x04), pct := f.pct && !HasBit(data, 0x02))
  }

  /** dmac_channel_set_csr */
  function SetCsr(st: State, c: nat, data: byte): (r: State)
    requires st.Valid() && c < 4
    ensures r.Valid()
  {
    Interrupted(st.With(c, st.ch[c].(fl := Cleared(st.ch[c].fl, data))))
  }

  /** Byte k of a number. */
  function ByteOf(v: nat, k: nat): nat
    requires k < 3
  {
    v / (if k == 0 then 1 else if k == 1 then 0x100 else 0x1_0000) % 0x100
  }

  /** Byte 0, 1 or 2 of an address register is replaced; what is above 24 bits is dropped. */
  function SetByte24(v: nat, k: nat, data: byte): (r: nat)
    requires k < 3
    ensures r < SPACE && forall j :: 0 <= j < 3 ==> ByteOf(r, j) == if j == k then data else ByteOf(v, j)
  {
    ThreeBytes(if k == 0 then data else ByteOf(v, 0), if k == 1 then data else ByteOf(v, 1),
               if k == 2 then data else ByteOf(v, 2));
    (if k == 2 then data else ByteOf(v, 2)) * 0x1_0000 + (if k == 1 then data else ByteOf(v, 1)) * 0x100
    + if k == 0 then data else ByteOf(v, 0)
  }

  lemma ThreeBytes(b0: nat, b1: nat, b2: nat)
    requires b0 < 0x100 && b1 < 0x100 && b2 < 0x100
    ensures var r := b2 * 0x1_0000 + b1 * 0x100 + b0;
            r < SPACE && ByteOf(r, 0) == b0 && ByteOf(r, 1) == b1 && ByteOf(r, 2) == b2
  {
    var r := b2 * 0x1_0000 + b1 * 0x100 + b0;
    assert r / 0x100 == b2 * 0x100 + b1 && r / 0x1_0000 == b2;
  }

  /** Byte 0 or 1 of a count register is replaced; what is above 16 bits is dropped. */
  function SetByte16(v: nat, k: nat, data: byte): (r: nat)
    requires k < 2
    ensures r < 0x1_0000 && forall j :: 0 <= j < 2 ==> ByteOf(r, j) == if j == k then data else ByteOf(v, j)
  {
    ThreeBytes(if k == 0 then data else ByteOf(v, 0), if k == 1 then data else ByteOf(v, 1), 0);
    (if k == 1 then data else ByteOf(v, 1)) * 0x100 + if k == 0 then data else ByteOf(v, 0)
  }

  /** The register writes that store a value and do nothing else. */
  function Stored(x: Channel, addr: nat, data: byte): Channel {
    if addr == 0x0a then x.(mtc := SetByte16(x.mtc, 1, data))
    else if addr == 0x0b then x.(mtc := SetByte16(x.mtc, 0, data))
    else if addr == 0x0d then x.(mar := SetByte24(x.mar, 2, data))
    else if addr == 0x0e then x.(mar := SetByte24(x.mar, 1, data))
    else if addr == 0x0f then x.(mar := SetByte24(x.mar, 0, data))
    else if addr == 0x15 then x.(dar := SetByte24(x.dar, 2, data))
    else if addr == 0x16 then x.(dar := SetByte24(x.dar, 1, data))
    else if addr == 0x17 then x.(dar := SetByte24(x.dar, 0, data))
    else if addr == 0x1a then x.(btc := SetByte16(x.btc, 1, data))
    else if addr == 0x1b then x.(btc := SetByte16(x.btc, 0, data))
    else if addr == 0x1d then x.(bar := SetByte24(x.bar, 2, data))
    else if addr == 0x1e then x.(bar := SetByte24(x.bar, 1, data))
    else if addr == 0x1f then x.(bar := SetByte24(x.bar, 0, data))
    else if addr == 0x25 then x.(niv := data)
    else if addr == 0x27 then x.(eiv := data)
    else if addr == 0x29 then x.(mfc := data)
    else if addr == 0x2d then x.(cp := data % 4)
    else if addr == 0x31 then x.(dfc := data)
    else if addr == 0x39 then x.(bfc := data)
    else x
  }

  function WithDcr(g: Config, data: byte): Config {
    g.(xrm := data / 0x40, dtyp := data / 0x10 % 4, dps := HasBit(data, 0x08), pcl := data % 4)
  }

  function WithOcr(g: Config, data: byte): Config {
    g.(dir := HasBit(data, 0x80), btd := HasBit(data, 0x40), size := data / 0x10 % 4, chain := data / 4 % 4,
       reqg := data % 4)
  }

  function WithScr(g: Config, data: byte): Config {
    g.(mac := data / 4 % 4, dac := data % 4)
  }

  /** dmac_channel_set_gcr writes the burst registers of all four channels. */
  function SetGcr(st: State, data: byte): (r: State)
    requires st.Valid()
    ensures r.Valid()
  {
    st.(ch := [st.ch[0].(bt := data / 4 % 4, br := data % 4), st.ch[1].(bt := data / 4 % 4, br := data % 4),
               st.ch[2].(bt := data / 4 % 4, br := data % 4), st.ch[3].(bt := data / 4 % 4, br := data % 4)])
  }

  /** dmac_channel_write */
  function Write(st: State, c: nat, addr: nat, data: byte): (r: State)
    requires st.Valid() && c < 4 && addr < 0x40
    ensures r.Valid()
  {
    var g := st.ch[c].cfg;
    if addr == 0x00 then SetCsr(st, c, data)
    else if addr == 0x04 then SetConfig(st, c, WithDcr(g, data), true)
    else if addr == 0x05 then SetConfig(st, c, WithOcr(g, data), false)
    else if addr == 0x06 then SetConfig(st, c, WithScr(g, data), false)
    else if addr == 0x07 then SetCcr(st, c, data)
    else if addr == 0x3f then (if c == 3 then SetGcr(st, data) else st)
    else st.With(c, Stored(st.ch[c], addr, data))
  }

  // ---------------------------------------------------------------- reset and acknowledge

  /** dmac_channel_reset: addresses and counters are kept, cut to their registers. */
  function ResetChannel(x: Channel, c: nat): Channel {
    Channel(Config(0, 0, false, 0, false, false, 0, 0, 0, 0, 0),
            Flags(false, false, false, false, false, false, false, false, false, false, false, false, c != 0),
            0, x.mar % SPACE, x.dar % SPACE, x.bar % SPACE, x.mtc % 0x1_0000, x.btc % 0x1_0000,
            x.mfc, x.dfc, x.bfc, 0x0f, 0x0f, 0, 0, 0, 0)
  }

  /** dmac_reset */
  function Reset(st: State): (r: State)
    requires st.Valid()
    ensures r.Valid()
  {
    State([ResetChannel(st.ch[0], 0), ResetChannel(st.ch[1], 1), ResetChannel(st.ch[2], 2), ResetChannel(st.ch[3], 3)],
          Control(0, 0, false, 0, 0, -1, st.ctl.intVec, st.ctl.irqs), st.ram)
  }

  /** dmac_int_ack */
  function Acknowledge(st: State): (r: State)
    requires st.Valid()
    ensures r.Valid()
  {
    st.(ctl := st.ctl.(vector := if st.ctl.vector < 0 then st.ctl.vector else -1))
  }
}
