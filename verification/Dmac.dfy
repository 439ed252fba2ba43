/** dmac.c: the controller as the functions of dmac.c change it, in place. */
module Dmac {
  import opened DmacState
  import opened DmacSafety

  /** mem_diff_table: by transfer type and address mode. */
  const MEM_DIFF: seq<seq<int>> := [
    [0, 1, -1, 0], [0, 2, -2, 0], [0, 4, -4, 0], [0, 1, -1, 0],
    [0, 1, -1, 0], [0, 2, -2, 0], [0, 4, -4, 0], [0, 1, -1, 0]]

  /** dev_diff_table */
  const DEV_DIFF: seq<seq<int>> := [
    [0, 2, -2, 0], [0, 4, -4, 0], [0, 8, -8, 0], [0, 2, -2, 0],
    [0, 1, -1, 0], [0, 2, -2, 0], [0, 4, -4, 0], [0, 1, -1, 0]]

  /** The tables have entries for the channel's transfer. */
  predicate InTables(x: Channel) { x.kind < 8 && x.cfg.mac < 4 && x.cfg.dac < 4 }

  /** The tables are operand size and port width in the direction of the mode. */
  lemma TablesAre(kind: nat, mode: nat)
    requires kind < 8 && mode < 4
    ensures MEM_DIFF[kind][mode] == MemDiff(kind, mode) && DEV_DIFF[kind][mode] == DevDiff(kind, mode)
  {
  }

  class Controller {
    const channels: array<Channel>
    const ram: array<byte>
    var transfer: nat
    var load: nat
    var exec: bool
    var currentCh: nat
    var cpuCycle: nat
    var vector: int
    var intVec: int
    var irqs: nat

    predicate Valid()
      reads this
    {
      channels.Length == 4 && ram.Length == SPACE
    }

    function Ctl(): Control
      reads this
    {
      Control(transfer, load, exec, currentCh, cpuCycle, vector, intVec, irqs)
    }

    function Now(): (r: State)
      requires Valid()
      reads this, channels, ram
      ensures r.Valid()
    {
      State(channels[..], Ctl(), ram[..])
    }

    /** dmac_init on memory that holds anything. */
    constructor (memory: array<byte>)
      requires memory.Length == SPACE
      ensures Valid() && ram == memory && fresh(channels)
      ensures forall k :: 0 <= k < 4 ==> !channels[k].fl.act && channels[k].cp == 0
    {
      var none := Channel(Config(0, 0, false, 0, false, false, 0, 0, 0, 0, 0),
                          Flags(false, false, false, false, false, false, false, false, false, false, false, false, false),
                          0, 0, 0, 0, 0, 0, 0, 0, 0, 0, 0, 0, 0, 0, 0);
      channels := new Channel[4](_ => none);
      ram := memory;
      transfer, load, exec, currentCh, cpuCycle, vector, intVec, irqs := 0, 0, false, 0, 0, 0, 0, 0;
    }

    /** A new vector is asked for on IRQ 3; one already asked for is left alone. */
    method Raise(v: nat)
      requires Valid()
      modifies `vector, `intVec, `irqs
      ensures Now() == old(Now()).(ctl := if old(vector) == v then old(Ctl())
                                          else old(Ctl()).(vector := v, intVec := v, irqs := old(irqs) + 1))
    {
      if vector != v {
        intVec := v;
        irqs := irqs + 1;
        vector := v;
      }
    }

    /** Every priority is one dmac_interrupt looks for. */
    predicate Ranked()
      requires Valid()
      reads this, channels
    {
      forall k :: 0 <= k < 4 ==> channels[k].cp < 4
    }

    /** dmac_interrupt: priorities from the highest, channels in order. */
    method Interrupt()
      requires Valid() && Ranked()
      modifies `vector, `intVec, `irqs
      ensures Now() == Interrupted(old(Now()))
    {
      hide Requesting, VectorOf;
      var cp := 0;
      while cp <= 3
        invariant 0 <= cp <= 4
        invariant forall k :: 0 <= k < 4 && Requesting(channels[k]) ==> channels[k].cp >= cp
        invariant Now() == old(Now())
      {
        var ch := 0;
        while ch <= 3
          invariant 0 <= ch <= 4
          invariant forall k :: 0 <= k < 4 && Requesting(channels[k]) ==> channels[k].cp >= cp
          invariant forall k :: 0 <= k < ch && Requesting(channels[k]) ==> channels[k].cp > cp
          invariant Now() == old(Now())
        {
          var x := channels[ch];
          Request3(x);
          if x.cp == cp && x.fl.intr {
            if x.fl.err {
              FirstWins(channels[..], ch);
              Raise(x.eiv);
              return;
            }
            if x.fl.coc || x.fl.boc || x.fl.ndt {
              FirstWins(channels[..], ch);
              Raise(x.niv);
              return;
            }
            if x.cfg.pcl == 1 && x.fl.pct {
              FirstWins(channels[..], ch);
              Raise(x.niv);
              return;
            }
          }
          ch := ch + 1;
        }
        cp := cp + 1;
      }
      if vector >= 0 {
        vector := -1;
      }
    }

    /** dmac_channel_set_error */
    method SetError(c: nat, code: nat)
      requires Valid() && Ranked() && c < 4
      modifies `vector, `intVec, `irqs, channels
      ensures Ranked() && Now() == DmacState.SetError(old(Now()), c, code)
    {
      hide DmacState.Interrupt;
      ghost var st := Now();
      channels[c] := channels[c].(fl := channels[c].fl.(act := false, err := true), ecode := code);
      assert channels[..] == st.ch[c := Failed(st.ch[c], code)];
      Interrupt();
    }

    /** dmac_addr_err: the channel that is loading, or else the one that is transferring, fails. */
    method AddressError()
      requires Valid() && Ranked() && (1 <= load <= 4 || (load == 0 && 1 <= transfer <= 4))
      modifies `vector, `intVec, `irqs, channels
      ensures Ranked()
      ensures Now() == DmacState.SetError(old(Now()), (if old(load) != 0 then old(load) else old(transfer)) - 1, 0x0c)
    {
      if load != 0 {
        SetError(load - 1, 0x0c);
        return;
      }
      SetError(transfer - 1, 0x0c);
    }

    /** m68k_read_memory_16 */
    method ReadWord(addr: nat) returns (v: nat)
      requires Valid()
      ensures v == Read16(ram[..], addr)
    {
      v := ram[addr % SPACE] as nat * 0x100 + ram[(addr + 1) % SPACE];
    }

    /** dmac_channel_load */
    method LoadBlock(c: nat)
      requires Valid() && Ranked() && c < 4
      modifies `vector, `intVec, `irqs, `load, channels
      ensures Ranked() && Now() == Load(old(Now()), c)
    {
      hide DmacState.Interrupt, Word, Even24, DmacState.SetError, Failed;
      ghost var st := Now();
      LinkWords(st.ram, st.ch[c].bar);
      load := c + 1;
      if channels[c].bar % 2 == 1 {
        AddressError();
        load := 0;
        return;
      }
      ReadDescriptor(c);
      if channels[c].fl.err {
        load := 0;
        return;
      }
      if channels[c].cfg.chain == 2 {
        channels[c] := channels[c].(btc := Minus1(channels[c].btc));
        load := 0;
        return;
      }
      ReadLink(c);
      load := 0;
    }

    /** dmac.c:957-963: the link replaces the base address. */
    method ReadLink(c: nat)
      requires Valid() && c < 4 && channels[c].bar % 2 == 0
      modifies channels
      ensures channels[..] == old(channels[..])[c := old(channels[c]).(
                bar := Word(ram[..], old(channels[c]).bar, 0) % 0x100 * 0x1_0000 + Word(ram[..], old(channels[c]).bar, 1))]
    {
      hide Read16, Even24;
      var bar := Even24(channels[c].bar);
      var high := ReadWord(bar);
      EvenAgain(channels[c].bar);
      bar := Even24(bar + 2);
      var low := ReadWord(bar);
      channels[c] := channels[c].(bar := high % 0x100 * 0x1_0000 + low);
    }

    /** dmac.c:932-942: memory address and count, the base address made even before each word. */
    method ReadDescriptor(c: nat)
      requires Valid() && c < 4 && channels[c].bar % 2 == 0
      modifies channels
      ensures channels[..] == old(channels[..])[c := old(channels[c]).(
                mar := Word(ram[..], old(channels[c]).bar, 0) % 0x100 * 0x1_0000 + Word(ram[..], old(channels[c]).bar, 1),
                mtc := Word(ram[..], old(channels[c]).bar, 2), bar := Even24(old(channels[c]).bar + 4) + 2)]
    {
      hide Read16, Even24;
      ghost var x := channels[c];
      EvenAgain(x.bar);
      EvenAgain(x.bar + 2);
      var bar := Even24(channels[c].bar);
      var high := ReadWord(bar);
      bar := Even24(bar + 2);
      var low := ReadWord(bar);
      bar := Even24(bar + 2);
      var count := ReadWord(bar);
      channels[c] := channels[c].(mar := high % 0x100 * 0x1_0000 + low, mtc := count, bar := bar + 2);
    }

    /** dmac_channel_start; dmac_channel_auto, which it calls for automatic requests, is empty. */
    method StartChannel(c: nat)
      requires Valid() && Ranked() && c < 4
      modifies this, channels
      ensures Ranked() && Now() == Start(old(Now()), c)
    {
      hide DmacState.SetError, Load, Failed, Loaded;
      var x := channels[c];
      var code := CheckStart(x);
      if code != 0 {
        SetError(c, code);
        return;
      }
      Activate(c);
      if x.cfg.chain != 0 {
        LoadBlock(c);
        if channels[c].fl.err {
          return;
        }
      }
      cpuCycle := 0;
      if x.cfg.reqg != 2 {
        currentCh := c;
        exec := true;
      }
    }

    /** dmac.c:782-809: the tests for timing, count and configuration errors, in this order. */
    method CheckStart(x: Channel) returns (code: nat)
      ensures code == StartError(x)
    {
      var f := x.fl;
      if f.act || f.coc || f.boc || f.ndt || f.err {
        return 0x02;
      }
      if x.cfg.chain == 0 {
        if x.mtc == 0 {
          return 0x0d;
        }
      }
      if x.cfg.chain == 2 {
        if x.btc == 0 {
          return 0x0f;
        }
      }
      if x.cfg.xrm == 1 || x.cfg.mac == 3 || x.cfg.dac == 3 || x.cfg.chain == 1 {
        return 0x01;
      }
      return 0;
    }

    /** dmac.c:811-825: the transfer type, and the flags of a channel at work. */
    method Activate(c: nat)
      requires Valid() && c < 4
      modifies channels
      ensures channels[..] == old(channels[..])[c := Started(old(channels[c]))]
    {
      var kind := 0;
      if channels[c].cfg.dps {
        kind := kind + 4;
      }
      kind := kind + channels[c].cfg.size;
      var f := channels[c].fl.(str := false);
      f := f.(act := true);
      f := f.(cnt := false, sab := false);
      channels[c] := channels[c].(kind := kind, fl := f);
    }

    /** dmac_channel_continue */
    method ContinueChannel(c: nat)
      requires Valid() && Ranked() && c < 4
      modifies this, channels
      ensures Ranked() && Now() == Continue(old(Now()), c)
    {
      hide DmacState.SetError;
      if !channels[c].fl.act {
        SetError(c, 2);
        return;
      }
      if channels[c].cfg.chain != 0 {
        SetError(c, 1);
      }
    }

    /** dmac_channel_abort */
    method AbortChannel(c: nat)
      requires Valid() && Ranked() && c < 4
      modifies this, channels
      ensures Ranked() && Now() == Abort(old(Now()), c)
    {
      hide DmacState.SetError;
      var f := channels[c].fl;
      if !f.act {
        channels[c] := channels[c].(fl := f.(coc := false));
        return;
      }
      channels[c] := channels[c].(fl := f.(coc := true, act := false));
      SetError(c, 0x11);
    }

    // -------------------------------------------------------------- transfer

    /** m68k_write_memory_8 and m68k_write_memory_16 */
    method WriteByte(addr: nat, v: nat)
      requires Valid()
      modifies ram
      ensures ram[..] == Write8(old(ram[..]), addr, v)
    {
      ram[addr % SPACE] := v % 0x100;
    }

    method WriteWord(addr: nat, v: nat)
      requires Valid()
      modifies ram
      ensures ram[..] == Write16(old(ram[..]), addr, v)
    {
      WriteByte(addr, v / 0x100);
      WriteByte(addr + 1, v);
    }

    method ReadByte(addr: nat) returns (v: nat)
      requires Valid()
      ensures v == Read8(ram[..], addr)
    {
      v := ram[addr % SPACE];
    }

    /** The switch of dmac_channel_transfer. */
    method MoveOperand(kind: nat, dir: bool, mar: nat, dar: nat)
      requires Valid()
      modifies ram
      ensures ram[..] == Move(old(ram[..]), kind, dir, mar, dar)
    {
      hide Read8, Read16, Write8, Write16;
      if kind == 1 || kind == 5 {
        MoveWord(kind, dir, mar, dar);
      } else if kind == 2 || kind == 6 {
        MoveLong(kind, dir, mar, dar);
      } else if dir {
        var data := ReadByte(dar);
        WriteByte(mar, data);
      } else {
        var data := ReadByte(mar);
        WriteByte(dar, data);
      }
    }

    method MoveWord(kind: nat, dir: bool, mar: nat, dar: nat)
      requires Valid() && (kind == 1 || kind == 5)
      modifies ram
      ensures ram[..] == Move(old(ram[..]), kind, dir, mar, dar)
    {
      hide Read8, Read16, Write8, Write16;
      if kind == 5 {
        var data := ReadWord(if dir then dar else mar);
        WriteWord(if dir then mar else dar, data);
      } else if dir {
        var data := ReadByte(dar);
        var next := ReadByte(dar + 2);
        WriteWord(mar, data * 0x100 + next);
      } else {
        var data := ReadWord(mar);
        WriteByte(dar, data / 0x100);
        WriteByte(dar + 2, data);
      }
    }

    method MoveLong(kind: nat, dir: bool, mar: nat, dar: nat)
      requires Valid() && (kind == 2 || kind == 6)
      modifies ram
      ensures ram[..] == Move(old(ram[..]), kind, dir, mar, dar)
    {
      hide Read8, Read16, Write8, Write16;
      if kind == 6 {
        var data := ReadWord(if dir then dar else mar);
        var low := ReadWord((if dir then dar else mar) + 2);
        data := data * 0x1_0000 + low;
        WriteWord(if dir then mar else dar, data / 0x1_0000);
        WriteWord((if dir then mar else dar) + 2, data % 0x1_0000);
      } else if dir {
        var data := ReadByte(dar);
        var b1 := ReadByte(dar + 2);
        var b2 := ReadByte(dar + 4);
        var b3 := ReadByte(dar + 6);
        data := ((data * 0x100 + b1) * 0x100 + b2) * 0x100 + b3;
        WriteWord(mar, data / 0x1_0000);
        WriteWord(mar + 2, data % 0x1_0000);
      } else {
        var data := ReadWord(mar);
        var low := ReadWord(mar + 2);
        data := data * 0x1_0000 + low;
        WriteByte(dar, data / 0x100_0000);
        WriteByte(dar + 2, data / 0x1_0000);
        WriteByte(dar + 4, data / 0x100);
        WriteByte(dar + 6, data);
      }
    }

    /** dmac_channel_transfer; nobody looks at what it returns. */
    method TransferOperand(c: nat)
      requires Valid() && Ranked() && c < 4 && InTables(channels[c])
      modifies this, channels, ram
      ensures Ranked() && Now() == Transfer(old(Now()), c)
    {
      hide Move, Follow, Advanced;
      transfer := c + 1;
      var x := channels[c];
      MoveOperand(x.kind, x.cfg.dir, x.mar, x.dar);
      transfer := 0;
      if channels[c].fl.err {
        return;
      }
      Advance(c);
      GoOn(c);
    }

    /** dmac.c:1451-1458: both addresses by their tables and within 24 bits, and the 32-bit count down. */
    method Advance(c: nat)
      requires Valid() && Ranked() && c < 4 && InTables(channels[c])
      modifies channels
      ensures Ranked() && channels[..] == old(channels[..])[c := Advanced(old(channels[c]))]
    {
      hide MemDiff, DevDiff;
      var x := channels[c];
      TablesAre(x.kind, x.cfg.mac);
      TablesAre(x.kind, x.cfg.dac);
      var mar := (x.mar + MEM_DIFF[x.kind][x.cfg.mac]) % SPACE;
      var dar := (x.dar + DEV_DIFF[x.kind][x.cfg.dac]) % SPACE;
      var mtc := if x.mtc > 0 then x.mtc - 1 else 0xffff_ffff;
      channels[c] := x.(mar := mar, dar := dar, mtc := mtc);
    }

    /** dmac.c:1457-1500: what follows the operand. */
    method GoOn(c: nat)
      requires Valid() && Ranked() && c < 4
      modifies this, channels
      ensures Ranked() && Now() == Follow(old(Now()), c)
    {
      hide Load, DmacState.Interrupt, Loaded, Failed;
      var x := channels[c];
      if x.mtc > 0 {
        return;
      }
      if x.fl.cnt {
        channels[c] := x.(mar := x.bar, mfc := x.bfc, mtc := x.btc, fl := x.fl.(boc := true));
        Interrupt();
        return;
      }
      if x.cfg.chain == 2 {
        if x.btc > 0 {
          LoadBlock(c);
          return;
        }
      }
      if x.cfg.chain == 3 {
        if x.bar != 0 {
          LoadBlock(c);
          return;
        }
      }
      channels[c] := x.(fl := x.fl.(act := false, coc := true));
      Interrupt();
    }

    /** dmac_channel_request */
    method RequestTransfer(c: nat) returns (done: bool)
      requires Valid() && Ranked() && c < 4 && InTables(channels[c])
      modifies this, channels, ram
      ensures Ranked() && Now() == Request(old(Now()), c) && done == CanTransfer(old(channels[c]))
    {
      hide Transfer;
      var f := channels[c].fl;
      if !f.act || f.err || f.hlt {
        return false;
      }
      TransferOperand(c);
      return true;
    }

    // -------------------------------------------------------------- registers

    /** dmac_channel_set_dcr, _ocr and _scr: not while the channel is active. */
    method SetRegister(c: nat, cfg: Config, check: bool)
      requires Valid() && Ranked() && c < 4
      modifies this, channels
      ensures Ranked() && Now() == SetConfig(old(Now()), c, cfg, check)
    {
      hide DmacState.SetError, DmacState.Interrupt;
      if channels[c].fl.act {
        SetError(c, 2);
        return;
      }
      channels[c] := channels[c].(cfg := cfg);
      if check {
        Interrupt();
      }
    }

    /** dmac_channel_set_ccr: STR, CNT and SAB act in this order. */
    method SetControlRegister(c: nat, data: byte)
      requires Valid() && Ranked() && c < 4
      modifies this, channels
      ensures Ranked() && Now() == SetCcr(old(Now()), c, data)
    {
      hide Start, Continue, Abort, HasBit;
      channels[c] := channels[c].(fl := channels[c].fl.(intr := HasBit(data, 0x08), hlt := HasBit(data, 0x20)));
      if HasBit(data, 0x80) {
        channels[c] := channels[c].(fl := channels[c].fl.(str := true));
        StartChannel(c);
      }
      if HasBit(data, 0x40) {
        channels[c] := channels[c].(fl := channels[c].fl.(cnt := true));
        ContinueChannel(c);
      }
      if HasBit(data, 0x10) {
        channels[c] := channels[c].(fl := channels[c].fl.(sab := true));
        AbortChannel(c);
      }
    }

    /** dmac_channel_set_csr */
    method SetStatusRegister(c: nat, data: byte)
      requires Valid() && Ranked() && c < 4
      modifies this, channels
      ensures Ranked() && Now() == SetCsr(old(Now()), c, data)
    {
      hide DmacState.Interrupt, Cleared;
      var f := ClearStatus(channels[c].fl, data);
      channels[c] := channels[c].(fl := f);
      Interrupt();
    }

    method ClearStatus(flags: Flags, data: byte) returns (f: Flags)
      ensures f == Cleared(flags, data)
    {
      hide HasBit;
      var coc, boc, ndt, err, dit, pct := flags.coc, flags.boc, flags.ndt, flags.err, flags.dit, flags.pct;
      if HasBit(data, 0x80) {
        coc := false;
      }
      if HasBit(data, 0x40) {
        boc := false;
      }
      if HasBit(data, 0x20) {
        ndt := false;
      }
      if HasBit(data, 0x10) {
        err := false;
      }
      if HasBit(data, 0x04) {
        dit := false;
      }
      if HasBit(data, 0x02) {
        pct := false;
      }
      f := flags.(coc := coc, boc := boc, ndt := ndt, err := err, dit := dit, pct := pct);
    }

    /** dmac_channel_set_gcr */
    method SetBurst(data: byte)
      requires Valid() && Ranked()
      modifies channels
      ensures Ranked() && Now() == SetGcr(old(Now()), data)
    {
      var bt, br := data / 4 % 4, data % 4;
      var ch := 0;
      while ch < 4
        invariant 0 <= ch <= 4
        invariant forall k :: 0 <= k < 4 ==>
          channels[k] == if k < ch then old(channels[k]).(bt := bt, br := br) else old(channels[k])
        invariant Ctl() == old(Ctl()) && ram[..] == old(ram[..])
      {
        channels[ch] := channels[ch].(bt := bt, br := br);
        ch := ch + 1;
      }
    }

    /** dmac_channel_set_dcr */
    method SetDcr(c: nat, data: byte)
      requires Valid() && Ranked() && c < 4
      modifies this, channels
      ensures Ranked() && Now() == SetConfig(old(Now()), c, WithDcr(old(channels[c]).cfg, data), true)
    {
      var g := channels[c].cfg.(xrm := data / 0x40, dtyp := data / 0x10 % 4);
      if data / 0x08 % 2 == 1 {
        g := g.(dps := true);
      } else {
        g := g.(dps := false);
      }
      g := g.(pcl := data % 4);
      SetRegister(c, g, true);
    }

    /** dmac_channel_set_ocr */
    method SetOcr(c: nat, data: byte)
      requires Valid() && Ranked() && c < 4
      modifies this, channels
      ensures Ranked() && Now() == SetConfig(old(Now()), c, WithOcr(old(channels[c]).cfg, data), false)
    {
      var dir, btd := false, false;
      if data >= 0x80 {
        dir := true;
      }
      if data / 0x40 % 2 == 1 {
        btd := true;
      }
      TopBit(data);
      SetRegister(c, channels[c].cfg.(dir := dir, btd := btd, size := data / 0x10 % 4, chain := data / 4 % 4,
                                      reqg := data % 4), false);
    }

    /** dmac_channel_set_scr */
    method SetScr(c: nat, data: byte)
      requires Valid() && Ranked() && c < 4
      modifies this, channels
      ensures Ranked() && Now() == SetConfig(old(Now()), c, WithScr(old(channels[c]).cfg, data), false)
    {
      SetRegister(c, channels[c].cfg.(mac := data / 4 % 4, dac := data % 4), false);
    }

    /** dmac.c:303-396: a byte of a register is masked out and the data put in its place. */
    method StoreRegister(c: nat, addr: nat, data: byte)
      requires Valid() && Ranked() && c < 4
      modifies channels
      ensures Ranked() && channels[..] == old(channels[..])[c := Stored(old(channels[c]), addr, data)]
    {
      hide SetByte24, SetByte16;
      var x := channels[c];
      if addr == 0x0a || addr == 0x0b {
        var mtc := MaskedCount(x.mtc, addr == 0x0a, data);
        channels[c] := x.(mtc := mtc);
      } else if 0x0d <= addr <= 0x0f {
        var mar := MaskedAddress(x.mar, 0x0f - addr, data);
        channels[c] := x.(mar := mar);
      } else if 0x15 <= addr <= 0x17 {
        var dar := MaskedAddress(x.dar, 0x17 - addr, data);
        channels[c] := x.(dar := dar);
      } else if addr == 0x1a || addr == 0x1b {
        var btc := MaskedCount(x.btc, addr == 0x1a, data);
        channels[c] := x.(btc := btc);
      } else if 0x1d <= addr <= 0x1f {
        var bar := MaskedAddress(x.bar, 0x1f - addr, data);
        channels[c] := x.(bar := bar);
      } else {
        StoreSmall(c, addr, data);
      }
    }

    method StoreSmall(c: nat, addr: nat, data: byte)
      requires Valid() && Ranked() && c < 4
      requires addr < 0x0a || addr == 0x0c || addr == 0x14 || addr >= 0x20 || 0x10 <= addr < 0x14 || 0x18 <= addr < 0x1a
               || addr == 0x1c
      modifies channels
      ensures Ranked() && channels[..] == old(channels[..])[c := Stored(old(channels[c]), addr, data)]
    {
      var x := channels[c];
      match addr
      case 0x25 => channels[c] := x.(niv := data);
      case 0x27 => channels[c] := x.(eiv := data);
      case 0x29 => channels[c] := x.(mfc := data);
      case 0x2d => channels[c] := x.(cp := data % 4);
      case 0x31 => channels[c] := x.(dfc := data);
      case 0x39 => channels[c] := x.(bfc := data);
      case _ =>
    }

    /** &= 0x0000ffff, 0x00ff00ff or 0x00ffff00, and |= the data shifted there. */
    method MaskedAddress(v: nat, k: nat, data: byte) returns (r: nat)
      requires k < 3
      ensures r == SetByte24(v, k, data)
    {
      r := v;
      if k == 2 {
        r := r % 0x1_0000;
        r := r + data * 0x1_0000;
        HighMask(v);
      } else if k == 1 {
        r := r / 0x1_0000 % 0x100 * 0x1_0000 + r % 0x100;
        r := r + data * 0x100;
      } else {
        r := r / 0x100 % 0x1_0000 * 0x100;
        r := r + data;
        LowMask(v);
      }
    }

    /** &= 0x00ff or 0xff00, and |= the data shifted there. */
    method MaskedCount(v: nat, high: bool, data: byte) returns (r: nat)
      ensures r == SetByte16(v, if high then 1 else 0, data)
    {
      r := v;
      if high {
        r := r % 0x100;
        r := r + data * 0x100;
      } else {
        r := r / 0x100 % 0x100 * 0x100;
        r := r + data;
      }
    }

    /** dmac_channel_write */
    method WriteRegister(c: nat, addr: nat, data: byte)
      requires Valid() && Ranked() && c < 4 && addr < 0x40
      modifies this, channels
      ensures Ranked() && Now() == Write(old(Now()), c, addr, data)
    {
      hide SetCsr, SetConfig, SetCcr, SetGcr, Stored, HasBit, WithDcr, WithOcr, WithScr;
      if addr == 0x00 {
        SetStatusRegister(c, data);
      } else if addr == 0x04 {
        SetDcr(c, data);
      } else if addr == 0x05 {
        SetOcr(c, data);
      } else if addr == 0x06 {
        SetScr(c, data);
      } else if addr == 0x07 {
        SetControlRegister(c, data);
      } else if addr == 0x3f {
        if c == 3 {
          SetBurst(data);
        }
      } else {
        StoreRegister(c, addr, data);
      }
    }

    /** dmac_write_16: the high byte's register, then the low byte's. */
    method WriteWordRegister(addr: nat, data: nat)
      requires Valid() && Ranked() && data < 0x1_0000 && addr % 2 == 0
      modifies this, channels
      ensures Ranked()
      ensures var c := addr / 0x40 % 4;
              Now() == Write(Write(old(Now()), c, addr % 0x40, data / 0x100), c, addr % 0x40 + 1, data % 0x100)
    {
      hide Write;
      WriteRegister(addr / 0x40 % 4, addr % 0x40, data / 0x100);
      WriteRegister(addr / 0x40 % 4, addr % 0x40 + 1, data % 0x100);
    }

    /** dmac_reset */
    method ResetAll()
      requires Valid()
      modifies this, channels
      ensures Ranked() && Now() == Reset(old(Now()))
    {
      hide ResetChannel;
      transfer, load, exec, currentCh, cpuCycle, vector := 0, 0, false, 0, 0, -1;
      var ch := 0;
      while ch < 4
        invariant 0 <= ch <= 4
        invariant forall k :: 0 <= k < 4 ==>
          channels[k] == if k < ch then ResetChannel(old(channels[k]), k) else old(channels[k])
        invariant Ctl() == Control(0, 0, false, 0, 0, -1, old(intVec), old(irqs)) && ram[..] == old(ram[..])
      {
        ResetOne(ch);
        ch := ch + 1;
      }
      forall k | 0 <= k < 4 ensures channels[k].cp < 4 {
        ResetRanked(old(channels[k]), k);
      }
    }

    /** dmac_channel_reset: group by group; addresses and counts are only cut to their registers. */
    method ResetOne(ch: nat)
      requires Valid() && ch < 4
      modifies channels
      ensures channels[..] == old(channels[..])[ch := ResetChannel(old(channels[ch]), ch)]
    {
      var x := channels[ch].(bt := 0, br := 0);
      x := x.(cfg := x.cfg.(xrm := 0, dtyp := 0, dps := false, pcl := 0));
      x := x.(cfg := x.cfg.(dir := false, btd := false, size := 0, chain := 0, reqg := 0));
      x := x.(cfg := x.cfg.(mac := 0, dac := 0));
      var f := x.fl.(str := false, cnt := false, hlt := false, sab := false, intr := false);
      f := f.(coc := false, boc := false, ndt := false, err := false, act := false, dit := false, pct := false);
      if ch == 0 {
        f := f.(pcs := false);
      } else {
        f := f.(pcs := true);
      }
      x := x.(fl := f, cp := 0, ecode := 0, niv := 0x0f, eiv := 0x0f);
      x := x.(mar := x.mar % SPACE, dar := x.dar % SPACE, bar := x.bar % SPACE);
      x := x.(mtc := x.mtc % 0x1_0000, btc := x.btc % 0x1_0000, kind := 0);
      channels[ch] := x;
    }

    /** dmac_int_ack */
    method AcknowledgeInterrupt()
      requires Valid()
      modifies `vector
      ensures Now() == Acknowledge(old(Now()))
    {
      if vector < 0 {
        return;
      }
      vector := -1;
    }

    /** One event of a run. */
    method Perform(e: Event)
      requires Valid() && Inv(Now()) && IsEvent(e)
      modifies this, channels, ram
      ensures Now() == Step(old(Now()), e) && Inv(Now())
    {
      hide Write, Request, Reset, Acknowledge, Inv;
      InvRanks(Now());
      StepSafe(Now(), e);
      match e
      case WriteRegister(c, addr, data) => WriteRegister(c, addr, data);
      case Requested(c) => var _ := RequestTransfer(c);
      case Acknowledged => AcknowledgeInterrupt();
      case WasReset => ResetAll();
      case Poke(place, data) => WriteByte(place, data);
    }

    /** A run of events leaves what the run of the specification leaves, and keeps the invariant. */
    method PerformAll(events: seq<Event>)
      requires Valid() && Inv(Now()) && forall e :: e in events ==> IsEvent(e)
      modifies this, channels, ram
      ensures Now() == Run(old(Now()), events) && Inv(Now())
    {
      hide Step, Inv;
      ghost var st := Now();
      NoEvents(st);
      for i := 0 to |events|
        invariant Inv(Now()) && Now() == Run(st, events[..i])
      {
        assert events[i] in events && events[..i + 1] == events[..i] + [events[i]];
        RunAppend(st, events[..i], events[i]);
        Perform(events[i]);
      }
      assert events[..|events|] == events;
    }
  }

  lemma InvRanks(st: State)
    requires Inv(st)
    ensures forall k :: 0 <= k < 4 ==> st.ch[k].cp < 4 && InTables(st.ch[k])
  {
    assert forall k :: 0 <= k < 4 ==> Safe(st.ch[k]);
  }

  lemma TopBit(data: byte)
    ensures HasBit(data, 0x80) == (data >= 0x80)
  {
  }

  lemma HighMask(v: nat)
    ensures v % 0x1_0000 == ByteOf(v, 1) * 0x100 + ByteOf(v, 0)
  {
  }

  lemma LowMask(v: nat)
    ensures v / 0x100 % 0x1_0000 * 0x100 == ByteOf(v, 2) * 0x1_0000 + ByteOf(v, 1) * 0x100
  {
    DivTwice(v);
    HighMask(v / 0x100);
  }

  lemma DivTwice(v: nat)
    ensures v / 0x100 / 0x100 == v / 0x1_0000
  {
  }

  lemma ResetRanked(x: Channel, c: nat)
    ensures ResetChannel(x, c).cp < 4
  {
  }

  /** Making an even address even again after a step is the same as making the sum even once. */
  lemma EvenAgain(bar: nat)
    requires bar % 2 == 0
    ensures Even24(Even24(bar) + 2) == Even24(bar + 2)
  {
    EvenIs(bar);
    EvenIs(bar + 2);
    EvenIs(Even24(bar) + 2);
    assert (bar % SPACE + 2) % SPACE == (bar + 2) % SPACE;
  }

  lemma EvenIs(bar: nat)
    requires bar % 2 == 0
    ensures Even24(bar) == bar % SPACE
  {
    assert bar % SPACE % 2 == 0;
  }

  /** The link after a descriptor: words 3 and 4 from its start. */
  lemma LinkWords(ram: seq<byte>, bar: nat)
    requires |ram| == SPACE
    ensures bar % 2 == 0 ==> (Even24(bar + 4) + 2) % 2 == 0 && Word(ram, Even24(bar + 4) + 2, 0) == Word(ram, bar, 3)
                             && Word(ram, Even24(bar + 4) + 2, 1) == Word(ram, bar, 4)
  {
    hide Read16, Even24;
    if bar % 2 == 0 {
      EvenAgain(bar + 4);
      EvenIs(Even24(bar + 4) + 4);
      EvenIs(bar + 4);
      EvenIs(bar + 8);
      assert ((bar + 4) % SPACE + 4) % SPACE == (bar + 8) % SPACE;
    }
  }

  lemma Request3(x: Channel)
    ensures Requesting(x) == (x.fl.intr && (x.fl.err || x.fl.coc || x.fl.boc || x.fl.ndt || (x.cfg.pcl == 1 && x.fl.pct)))
    ensures VectorOf(x) == if x.fl.err then x.eiv else x.niv
  {
  }

  /** The channel that requests and goes before every other that does is the winner. */
  lemma FirstWins(ch: seq<Channel>, k: nat)
    requires |ch| == 4 && k < 4 && Requesting(ch[k])
    requires forall j :: 0 <= j < 4 && Requesting(ch[j]) && j != k ==> Before(ch, k, j)
    ensures Winner(ch, 4) == k
  {
    hide Requesting, Winner;
  }
}
