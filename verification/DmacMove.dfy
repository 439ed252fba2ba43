/** dmac.c: where the bytes of a whole transfer go. */
module DmacMove {
  import opened DmacState
  import opened DmacChain

  /** The device's i-th byte: a port of 8 bits answers at every other address. */
  function Port(dar: nat, spacing: nat, i: nat): nat { if spacing == 2 then dar + 2 * i else dar + i }

  /** The address is one of the device's first n bytes. */
  predicate IsPort(a: int, dar: nat, spacing: nat, n: nat) {
    dar <= a < Port(dar, spacing, n) && (spacing == 2 ==> (a - dar) % 2 == 0)
  }

  /** n bytes of memory from mar on and n device bytes from dar on exist. */
  predicate InSpace(mar: nat, dar: nat, spacing: nat, n: nat) {
    mar + n <= SPACE && Port(dar, spacing, n) <= SPACE
  }

  /**
   after is before with n bytes moved between memory from mar on and the device's bytes from dar on;
   everything else is as it was.
   */
  ghost predicate Moved(before: seq<byte>, after: seq<byte>, dir: bool, mar: nat, dar: nat, spacing: nat, n: nat)
    requires |before| == SPACE && |after| == SPACE && InSpace(mar, dar, spacing, n)
  {
    if dir then
      && (forall i :: 0 <= i < n ==> after[mar + i] == before[Port(dar, spacing, i)])
      && forall a :: 0 <= a < SPACE && !(mar <= a < mar + n) ==> after[a] == before[a]
    else
      && (forall i :: 0 <= i < n ==> after[Port(dar, spacing, i)] == before[mar + i])
      && forall a :: 0 <= a < SPACE && !IsPort(a, dar, spacing, n) ==> after[a] == before[a]
  }

  lemma ByteRead(ram: seq<byte>, addr: nat)
    requires |ram| == SPACE && addr < SPACE
    ensures Read8(ram, addr) == ram[addr]
  {
  }

  lemma WordRead(ram: seq<byte>, addr: nat)
    requires |ram| == SPACE && addr + 2 <= SPACE
    ensures Read16(ram, addr) == ram[addr] as nat * 0x100 + ram[addr + 1]
  {
  }

  lemma WordBytes(h: byte, l: byte)
    ensures (h * 0x100 + l) / 0x100 % 0x100 == h && (h * 0x100 + l) % 0x100 == l
  {
  }

  lemma LongBytes(b0: byte, b1: byte, b2: byte, b3: byte)
    ensures var d := ((b0 * 0x100 + b1) * 0x100 + b2) * 0x100 + b3;
            && d == (b0 * 0x100 + b1) * 0x1_0000 + (b2 * 0x100 + b3)
            && d / 0x100_0000 % 0x100 == b0 && d / 0x1_0000 % 0x100 == b1 && d / 0x100 % 0x100 == b2 && d % 0x100 == b3
            && d / 0x1_0000 == b0 * 0x100 + b1 && d % 0x1_0000 == b2 * 0x100 + b3
  {
    var high, low := b0 * 0x100 + b1, b2 * 0x100 + b3;
    var d := high * 0x1_0000 + low;
    assert d / 0x1_0000 == high && d % 0x1_0000 == low;
    LastByte(high * 0x100 + b2, b3);
    LastByte(high, b2);
    LastByte(b0, b1);
    assert d / 0x100_0000 == d / 0x1_0000 / 0x100;
  }

  lemma LastByte(n: nat, b: byte)
    ensures (n * 0x100 + b) / 0x100 == n && (n * 0x100 + b) % 0x100 == b
  {
  }

  /** A big-endian word written is its two bytes. */
  lemma WordWritten(ram: seq<byte>, addr: nat, h: byte, l: byte)
    requires |ram| == SPACE && addr + 2 <= SPACE
    ensures Write16(ram, addr, h * 0x100 + l) == ram[addr := h][addr + 1 := l]
  {
    WordBytes(h, l);
  }

  /** All operands come down to this: bytes read first, then written in address order. */
  function Operand(ram: seq<byte>, kind: nat, dir: bool, mar: nat, dar: nat): seq<byte>
    requires |ram| == SPACE && kind < 8
    requires mar + Bytes(kind) <= SPACE && dar + Bytes(kind) * Spacing(kind) <= SPACE
  {
    var s := Spacing(kind);
    if Bytes(kind) == 1 then
      if dir then ram[mar := ram[dar]] else ram[dar := ram[mar]]
    else if Bytes(kind) == 2 then
      if dir then ram[mar := ram[dar]][mar + 1 := ram[dar + s]]
      else ram[dar := ram[mar]][dar + s := ram[mar + 1]]
    else
      if dir then ram[mar := ram[dar]][mar + 1 := ram[dar + s]][mar + 2 := ram[dar + 2 * s]][mar + 3 := ram[dar + 3 * s]]
      else ram[dar := ram[mar]][dar + s := ram[mar + 1]][dar + 2 * s := ram[mar + 2]][dar + 3 * s := ram[mar + 3]]
  }

  lemma MoveIsOperand(ram: seq<byte>, kind: nat, dir: bool, mar: nat, dar: nat)
    requires |ram| == SPACE && kind < 8
    requires mar + Bytes(kind) <= SPACE && dar + Bytes(kind) * Spacing(kind) <= SPACE
    ensures Move(ram, kind, dir, mar, dar) == Operand(ram, kind, dir, mar, dar)
  {
    hide Move, Operand;
    if Bytes(kind) == 1 {
      ByteMove(ram, kind, dir, mar, dar);
    } else if Bytes(kind) == 2 {
      WordMove(ram, kind, dir, mar, dar);
    } else {
      LongMove(ram, kind, dir, mar, dar);
    }
  }

  lemma ByteMove(ram: seq<byte>, kind: nat, dir: bool, mar: nat, dar: nat)
    requires |ram| == SPACE && (kind == 0 || kind == 3 || kind == 4 || kind == 7) && mar < SPACE
    requires dar + Spacing(kind) <= SPACE
    ensures Move(ram, kind, dir, mar, dar) == Operand(ram, kind, dir, mar, dar)
  {
  }

  lemma WordMove(ram: seq<byte>, kind: nat, dir: bool, mar: nat, dar: nat)
    requires |ram| == SPACE && (kind == 1 || kind == 5)
    requires mar + 2 <= SPACE && dar + 2 * Spacing(kind) <= SPACE
    ensures Move(ram, kind, dir, mar, dar) == Operand(ram, kind, dir, mar, dar)
  {
    hide Write16;
    WordBytes(ram[mar], ram[mar + 1]);
    WordWritten(ram, if dir then mar else dar, ram[if dir then dar else mar],
                ram[if dir then dar + Spacing(kind) else mar + 1]);
  }

  lemma LongMove(ram: seq<byte>, kind: nat, dir: bool, mar: nat, dar: nat)
    requires |ram| == SPACE && (kind == 2 || kind == 6)
    requires mar + 4 <= SPACE && dar + 4 * Spacing(kind) <= SPACE
    ensures Move(ram, kind, dir, mar, dar) == Operand(ram, kind, dir, mar, dar)
  {
    hide Move, Operand;
    if dir {
      LongIn(ram, kind, mar, dar);
    } else if kind == 2 {
      LongOutBytes(ram, mar, dar);
    } else {
      LongOutWords(ram, mar, dar);
    }
  }

  lemma LongIn(ram: seq<byte>, kind: nat, mar: nat, dar: nat)
    requires |ram| == SPACE && (kind == 2 || kind == 6)
    requires mar + 4 <= SPACE && dar + 4 * Spacing(kind) <= SPACE
    ensures Move(ram, kind, true, mar, dar) == Operand(ram, kind, true, mar, dar)
  {
    hide Read8, Write16;
    var s := Spacing(kind);
    ByteRead(ram, dar);
    ByteRead(ram, dar + s);
    ByteRead(ram, dar + 2 * s);
    ByteRead(ram, dar + 3 * s);
    if kind == 6 {
      WordRead(ram, dar);
      WordRead(ram, dar + 2);
    }
    var b0, b1, b2, b3 := ram[dar], ram[dar + s], ram[dar + 2 * s], ram[dar + 3 * s];
    LongBytes(b0, b1, b2, b3);
    var half := ram[mar := b0][mar + 1 := b1];
    WordWritten(ram, mar, b0, b1);
    WordWritten(half, mar + 2, b2, b3);
  }

  lemma LongOutBytes(ram: seq<byte>, mar: nat, dar: nat)
    requires |ram| == SPACE && mar + 4 <= SPACE && dar + 8 <= SPACE
    ensures Move(ram, 2, false, mar, dar) == Operand(ram, 2, false, mar, dar)
  {
    hide Read16, Write8, Write16;
    WordRead(ram, mar);
    WordRead(ram, mar + 2);
    var b0, b1, b2, b3 := ram[mar], ram[mar + 1], ram[mar + 2], ram[mar + 3];
    LongBytes(b0, b1, b2, b3);
    var data := Read16(ram, mar) * 0x1_0000 + Read16(ram, mar + 2);
    ByteWritten(ram, dar, data / 0x100_0000, b0);
    ByteWritten(ram[dar := b0], dar + 2, data / 0x1_0000, b1);
    ByteWritten(ram[dar := b0][dar + 2 := b1], dar + 4, data / 0x100, b2);
    ByteWritten(ram[dar := b0][dar + 2 := b1][dar + 4 := b2], dar + 6, data, b3);
  }

  lemma ByteWritten(ram: seq<byte>, addr: nat, v: nat, b: byte)
    requires |ram| == SPACE && addr < SPACE && v % 0x100 == b
    ensures Write8(ram, addr, v) == ram[addr := b]
  {
  }

  lemma LongOutWords(ram: seq<byte>, mar: nat, dar: nat)
    requires |ram| == SPACE && mar + 4 <= SPACE && dar + 4 <= SPACE
    ensures Move(ram, 6, false, mar, dar) == Operand(ram, 6, false, mar, dar)
  {
    hide Read16, Write16;
    WordRead(ram, mar);
    WordRead(ram, mar + 2);
    var b0, b1, b2, b3 := ram[mar], ram[mar + 1], ram[mar + 2], ram[mar + 3];
    LongBytes(b0, b1, b2, b3);
    WordWritten(ram, dar, b0, b1);
    WordWritten(ram[dar := b0][dar + 1 := b1], dar + 2, b2, b3);
  }

  /** One operand moves its bytes in order, whatever the operand size, the port size and the direction. */
  lemma OperandMoves(ram: seq<byte>, kind: nat, dir: bool, mar: nat, dar: nat)
    requires |ram| == SPACE && kind < 8
    requires InSpace(mar, dar, Spacing(kind), Bytes(kind))
    ensures Moved(ram, Move(ram, kind, dir, mar, dar), dir, mar, dar, Spacing(kind), Bytes(kind))
  {
    hide Move, Moved, Operand;
    MoveIsOperand(ram, kind, dir, mar, dar);
    if dir {
      OperandIn(ram, kind, mar, dar);
    } else {
      OperandOut(ram, kind, mar, dar);
    }
  }

  lemma OperandIn(ram: seq<byte>, kind: nat, mar: nat, dar: nat)
    requires |ram| == SPACE && kind < 8 && InSpace(mar, dar, Spacing(kind), Bytes(kind))
    ensures Moved(ram, Operand(ram, kind, true, mar, dar), true, mar, dar, Spacing(kind), Bytes(kind))
  {
  }

  lemma OperandOut(ram: seq<byte>, kind: nat, mar: nat, dar: nat)
    requires |ram| == SPACE && kind < 8 && InSpace(mar, dar, Spacing(kind), Bytes(kind))
    ensures Moved(ram, Operand(ram, kind, false, mar, dar), false, mar, dar, Spacing(kind), Bytes(kind))
  {
    if Bytes(kind) == 4 {
      LongPorts(ram, kind, mar, dar);
    }
  }

  lemma LongPorts(ram: seq<byte>, kind: nat, mar: nat, dar: nat)
    requires |ram| == SPACE && (kind == 2 || kind == 6) && InSpace(mar, dar, Spacing(kind), 4)
    ensures Moved(ram, Operand(ram, kind, false, mar, dar), false, mar, dar, Spacing(kind), 4)
  {
    var s := Spacing(kind);
    var after := Operand(ram, kind, false, mar, dar);
    assert Port(dar, s, 1) == dar + s && Port(dar, s, 2) == dar + 2 * s && Port(dar, s, 3) == dar + 3 * s;
    assert IsPort(dar, dar, s, 4) && IsPort(dar + s, dar, s, 4) && IsPort(dar + 2 * s, dar, s, 4)
           && IsPort(dar + 3 * s, dar, s, 4);
  }

  /** The two areas do not overlap. */
  predicate Apart(mar: nat, dar: nat, spacing: nat, n: nat) {
    mar + n <= dar || Port(dar, spacing, n) <= mar
  }

  /** A transfer of n bytes and the one of m bytes after it make one of n + m. */
  lemma MovedJoins(ram0: seq<byte>, ram1: seq<byte>, ram2: seq<byte>, dir: bool, mar: nat, dar: nat, spacing: nat,
                   n: nat, m: nat)
    requires |ram0| == SPACE && |ram1| == SPACE && |ram2| == SPACE
    requires InSpace(mar, dar, spacing, n + m) && Apart(mar, dar, spacing, n + m)
    requires Moved(ram0, ram1, dir, mar, dar, spacing, n)
    requires Moved(ram1, ram2, dir, mar + n, Port(dar, spacing, n), spacing, m)
    ensures Moved(ram0, ram2, dir, mar, dar, spacing, n + m)
  {
    if dir {
      forall i | 0 <= i < n + m ensures ram2[mar + i] == ram0[Port(dar, spacing, i)] {
        if i >= n {
          var j := i - n;
          assert ram2[mar + n + j] == ram1[Port(Port(dar, spacing, n), spacing, j)];
        }
      }
    } else {
      forall i | 0 <= i < n + m ensures ram2[Port(dar, spacing, i)] == ram0[mar + i] {
        if i >= n {
          var j := i - n;
          assert ram2[Port(Port(dar, spacing, n), spacing, j)] == ram1[mar + n + j];
        }
      }
      forall a | 0 <= a < SPACE && !IsPort(a, dar, spacing, n + m) ensures ram2[a] == ram0[a] {
        assert !IsPort(a, dar, spacing, n) && !IsPort(a, Port(dar, spacing, n), spacing, m);
      }
    }
  }

  /** A channel of which both addresses count up, with room for the block's operands and the areas apart. */
  ghost predicate Plain(x: Channel) {
    var n := Bytes(x.kind) * Count(x.mtc);
    && Ready(x) && x.kind < 8 && x.cfg.mac == 1 && x.cfg.dac == 1
    && InSpace(x.mar, x.dar, Spacing(x.kind), n) && Apart(x.mar, x.dar, Spacing(x.kind), n)
  }

  /** The blocks a channel has ahead are linked, in memory and clear of its operands. */
  ghost predicate Following(st: State, c: nat, blocks: seq<Block>, k: nat)
    requires st.Valid() && c < 4
  {
    var x := st.ch[c];
    Ahead(x, blocks) && Linked(x.cfg.chain, blocks) && Held(st.ram, x.cfg.chain, blocks) && Clear(x, blocks, k)
  }

  /** The areas of the first n of m bytes. */
  lemma FirstBytes(mar: nat, dar: nat, spacing: nat, n: nat, m: nat)
    requires n <= m && InSpace(mar, dar, spacing, m) && Apart(mar, dar, spacing, m)
    ensures InSpace(mar, dar, spacing, n) && Apart(mar, dar, spacing, n)
  {
  }

  lemma MoreOperands(kind: nat, k: nat, n: nat)
    requires k <= n
    ensures k * Bytes(kind) <= Bytes(kind) * n && k * Bytes(kind) * Spacing(kind) == k * (Bytes(kind) * Spacing(kind))
    ensures k > 0 ==> k * Bytes(kind) == (k - 1) * Bytes(kind) + Bytes(kind)
  {
  }

  /** After k operands of a block, k operands' bytes have moved. */
  lemma {:induction false} OperandsMove(st: State, c: nat, blocks: seq<Block>, k: nat)
    requires st.Valid() && c < 4 && Plain(st.ch[c]) && k <= Count(st.ch[c].mtc) && Following(st, c, blocks, k)
    ensures var x := st.ch[c];
            && InSpace(x.mar, x.dar, Spacing(x.kind), k * Bytes(x.kind))
            && Moved(st.ram, Requests(st, c, k).ram, x.cfg.dir, x.mar, x.dar, Spacing(x.kind), k * Bytes(x.kind))
  {
    hide Moved, Request, Move, Ready, InSpace, Apart, Port, Following;
    var x := st.ch[c];
    var b, s := Bytes(x.kind), Spacing(x.kind);
    MoreOperands(x.kind, k, Count(x.mtc));
    FirstBytes(x.mar, x.dar, s, k * b, b * Count(x.mtc));
    if k == 0 {
      NothingMoved(st.ram, x.cfg.dir, x.mar, x.dar, s);
    } else {
      var before := Requests(st, c, k - 1);
      FollowingFewer(st, c, blocks, k - 1, k);
      OperandsMove(st, c, blocks, k - 1);
      Reached(st, c, blocks, k - 1);
      NextOperand(before, c, x, (k - 1) * b);
      MovedJoins(st.ram, before.ram, Requests(st, c, k).ram, x.cfg.dir, x.mar, x.dar, s, (k - 1) * b, b);
    }
  }

  lemma FollowingFewer(st: State, c: nat, blocks: seq<Block>, j: nat, k: nat)
    requires st.Valid() && c < 4 && j <= k && Following(st, c, blocks, k)
    ensures Following(st, c, blocks, j)
  {
    hide Linked, Held, SparesAll, Ahead;
  }

  lemma NothingMoved(ram: seq<byte>, dir: bool, mar: nat, dar: nat, spacing: nat)
    requires |ram| == SPACE && InSpace(mar, dar, spacing, 0)
    ensures Moved(ram, ram, dir, mar, dar, spacing, 0)
  {
  }

  /** Where the channel is after k operands of a block. */
  lemma Reached(st: State, c: nat, blocks: seq<Block>, k: nat)
    requires st.Valid() && c < 4 && Plain(st.ch[c]) && k < Count(st.ch[c].mtc) && Following(st, c, blocks, k)
    ensures var x, y := st.ch[c], Requests(st, c, k).ch[c];
            && CanTransfer(y) && y.kind == x.kind && y.cfg == x.cfg
            && y.mar == x.mar + k * Bytes(x.kind) && y.dar == Port(x.dar, Spacing(x.kind), k * Bytes(x.kind))
  {
    hide Linked, Held, SparesAll, Ahead, Requests, InSpace, Apart;
    var x := st.ch[c];
    RequestsAdvance(st, c, blocks, k);
    MoreOperands(x.kind, k, Count(x.mtc));
    MoreOperands(x.kind, k + 1, Count(x.mtc));
    Within(x, k);
  }

  lemma NothingFollows(st: State, c: nat, k: nat)
    requires st.Valid() && c < 4 && st.ch[c].cfg.chain != 2 && st.ch[c].cfg.chain != 3
    ensures Following(st, c, [], k)
  {
  }

  /** Both addresses stay below the end of memory while operands are left. */
  lemma Within(x: Channel, k: nat)
    requires Plain(x) && k < Count(x.mtc)
    ensures var y := AdvanceBy(x, k);
            y.mar == x.mar + k * Bytes(x.kind) && y.dar == Port(x.dar, Spacing(x.kind), k * Bytes(x.kind))
  {
    hide Count, Apart;
    MoreOperands(x.kind, k, Count(x.mtc));
    assert 0 <= k * Bytes(x.kind) <= Bytes(x.kind) * Count(x.mtc);
  }

  lemma NextOperand(st: State, c: nat, x: Channel, n: nat)
    requires st.Valid() && c < 4 && CanTransfer(st.ch[c]) && x.kind < 8
    requires st.ch[c].kind == x.kind && st.ch[c].cfg == x.cfg
    requires st.ch[c].mar == x.mar + n && st.ch[c].dar == Port(x.dar, Spacing(x.kind), n)
    requires InSpace(x.mar, x.dar, Spacing(x.kind), n + Bytes(x.kind))
    ensures InSpace(x.mar + n, Port(x.dar, Spacing(x.kind), n), Spacing(x.kind), Bytes(x.kind))
    ensures Moved(st.ram, Request(st, c).ram, x.cfg.dir, x.mar + n, Port(x.dar, Spacing(x.kind), n), Spacing(x.kind),
                  Bytes(x.kind))
  {
    hide Move, Moved, Advanced, Follow;
    OperandMoves(st.ram, x.kind, x.cfg.dir, x.mar + n, Port(x.dar, Spacing(x.kind), n));
  }

  // ---------------------------------------------------------------- chains, block by block

  /** The channel when its block is done and the next one is loaded. */
  function NextBlock(x: Channel, blocks: seq<Block>): (r: Channel)
    requires blocks != []
    ensures r.mtc == blocks[0].count && r.mar == blocks[0].mar
  {
    WithBlock(AdvanceBy(x, Count(x.mtc)), blocks[0])
  }

  /** Every block of the chain is plain when it comes. */
  ghost predicate ChainPlain(x: Channel, blocks: seq<Block>)
    decreases |blocks|
  {
    Plain(x) && (blocks != [] ==> ChainPlain(NextBlock(x, blocks), blocks[1..]))
  }

  /** The bytes of one block after the other have moved, each to or from where the device address then stands. */
  ghost predicate ChainMoved(before: seq<byte>, after: seq<byte>, x: Channel, blocks: seq<Block>)
    requires |before| == SPACE && |after| == SPACE
    decreases |blocks|
  {
    InSpace(x.mar, x.dar, Spacing(x.kind), Count(x.mtc) * Bytes(x.kind)) &&
    exists mid: seq<byte> :: |mid| == SPACE && BlockMoved(before, mid, x)
                             && if blocks == [] then after == mid else ChainMoved(mid, after, NextBlock(x, blocks), blocks[1..])
  }

  ghost predicate BlockMoved(before: seq<byte>, after: seq<byte>, x: Channel)
    requires |before| == SPACE && |after| == SPACE
    requires InSpace(x.mar, x.dar, Spacing(x.kind), Count(x.mtc) * Bytes(x.kind))
  {
    Moved(before, after, x.cfg.dir, x.mar, x.dar, Spacing(x.kind), Count(x.mtc) * Bytes(x.kind))
  }

  lemma {:induction false} RequestsSplit(st: State, c: nat, n: nat, m: nat)
    requires st.Valid() && c < 4
    ensures Requests(st, c, n + m) == Requests(Requests(st, c, n), c, m)
  {
    hide Request;
    if m > 0 {
      RequestsSplit(st, c, n, m - 1);
    }
  }

  /** When a block is done the next one is loaded and the others follow. */
  lemma BlockDone(st: State, c: nat, blocks: seq<Block>, m: nat)
    requires st.Valid() && c < 4 && Ready(st.ch[c]) && blocks != [] && m <= Total(blocks)
    requires Following(st, c, blocks, Count(st.ch[c].mtc) + m)
    ensures var s := Requests(st, c, Count(st.ch[c].mtc));
            s.ch[c] == NextBlock(st.ch[c], blocks) && Following(s, c, blocks[1..], m)
  {
    hide Linked, Held, SparesAll, Ahead, Requests, After, Left, AdvanceBy, WithBlock, Ready;
    var x, n := st.ch[c], Count(st.ch[c].mtc);
    var y := NextBlock(x, blocks);
    FollowingFewer(st, c, blocks, n, n + m);
    RequestsAdvance(st, c, blocks, n);
    BlocksAhead(x, blocks);
    AfterFirst(x, blocks, 0);
    AfterNothing(y, blocks[1..]);
    LeftAtStart(y, blocks[1..]);
    forall j | 0 <= j < m ensures SparesAll(After(y, blocks[1..], j), Left(y, blocks[1..], j)) {
      AfterFirst(x, blocks, j);
      assert SparesAll(After(x, blocks, n + j), Left(x, blocks, n + j));
    }
  }

  lemma AfterFirst(x: Channel, blocks: seq<Block>, j: nat)
    requires blocks != []
    ensures After(x, blocks, Count(x.mtc) + j) == After(NextBlock(x, blocks), blocks[1..], j)
    ensures Left(x, blocks, Count(x.mtc) + j) == Left(NextBlock(x, blocks), blocks[1..], j)
  {
    hide AdvanceBy, WithBlock;
  }

  /** A whole chain moves the bytes of each of its blocks in turn. */
  lemma {:induction false} ChainMoves(st: State, c: nat, blocks: seq<Block>)
    requires st.Valid() && c < 4 && ChainPlain(st.ch[c], blocks)
    requires Following(st, c, blocks, Count(st.ch[c].mtc) + Total(blocks))
    ensures ChainMoved(st.ram, Requests(st, c, Count(st.ch[c].mtc) + Total(blocks)).ram, st.ch[c], blocks)
    decreases |blocks|
  {
    hide Following, Requests, Moved, InSpace, AdvanceBy, WithBlock, Ready;
    var x, n := st.ch[c], Count(st.ch[c].mtc);
    var s := Requests(st, c, n);
    FollowingFewer(st, c, blocks, n, n + Total(blocks));
    OperandsMove(st, c, blocks, n);
    assert BlockMoved(st.ram, s.ram, x);
    if blocks != [] {
      PlainReady(x);
      BlockDone(st, c, blocks, Total(blocks));
      RequestsSplit(st, c, n, Total(blocks));
      ChainMoves(s, c, blocks[1..]);
    }
  }

  /**
   A chain from its start: with the blocks held, plain and clear of the operands, as many requests as the
   descriptor counts add up to move every block's bytes, and the channel has completed without error.
   */
  lemma WholeChain(st: State, c: nat, blocks: seq<Block>)
    requires st.Valid() && c < 4 && Chained(st.ch[c], blocks) && Held(st.ram, st.ch[c].cfg.chain, blocks)
    requires var x := StartedOn(st.ch[c], blocks[0]);
             ChainPlain(x, blocks[1..]) && Clear(x, blocks[1..], Total(blocks))
    ensures var x, r := StartedOn(st.ch[c], blocks[0]), Requests(Start(st, c), c, Total(blocks));
            && ChainMoved(st.ram, r.ram, x, blocks[1..])
            && !r.ch[c].fl.act && r.ch[c].fl.coc && !r.ch[c].fl.err
  {
    hide Held, Start, Requests, Clear, Linked, ChainMoved, ChainPlain, Ready, Ahead, After, StartedOn;
    StartLoads(st, c, blocks);
    ChainMoves(Start(st, c), c, blocks[1..]);
    ChainExact(st, c, blocks, Total(blocks));
  }

  lemma PlainReady(x: Channel)
    requires Plain(x)
    ensures Ready(x)
  {
  }

  /** An unchained channel about to be started, both addresses counting up, with room and the areas apart. */
  ghost predicate Startable(x: Channel) {
    var kind := (if x.cfg.dps then 4 else 0) + x.cfg.size;
    var n := Bytes(kind) * x.mtc;
    && MayStart(x) && x.cfg.chain == 0 && x.cfg.size < 4 && !x.fl.hlt && x.cfg.mac == 1 && x.cfg.dac == 1
    && x.mar < SPACE && x.dar < SPACE && x.mtc < TWO32
    && InSpace(x.mar, x.dar, if x.cfg.dps then 1 else 2, n) && Apart(x.mar, x.dar, if x.cfg.dps then 1 else 2, n)
  }

  /**
   A whole unchained transfer: mtc requests after the start every byte has gone where the port width
   says, two addresses apart for an 8-bit port and one for a 16-bit port, whatever the operand size
   and direction; nothing else in memory changed, and the channel has completed without error.
   */
  lemma WholeTransfer(st: State, c: nat)
    requires st.Valid() && c < 4 && Startable(st.ch[c])
    ensures var x, r := st.ch[c], Requests(Start(st, c), c, st.ch[c].mtc);
            && Moved(st.ram, r.ram, x.cfg.dir, x.mar, x.dar, if x.cfg.dps then 1 else 2,
                     Bytes((if x.cfg.dps then 4 else 0) + x.cfg.size) * x.mtc)
            && !r.ch[c].fl.act && r.ch[c].fl.coc && !r.ch[c].fl.err
  {
    hide Moved, InSpace, Apart, Requests, Ready, Held, Linked;
    var x, s := st.ch[c], Start(st, c);
    StartPlain(st, c);
    NothingFollows(s, c, x.mtc);
    OperandsMove(s, c, [], x.mtc);
    RequestsAdvance(s, c, [], x.mtc);
    ReadyFlags(s.ch[c]);
    AfterAll(s.ch[c], []);
  }

  lemma StartPlain(st: State, c: nat)
    requires st.Valid() && c < 4 && Startable(st.ch[c])
    ensures var s := Start(st, c);
            s.ch[c] == Started(st.ch[c]) && s.ram == st.ram && Plain(s.ch[c])
            && Spacing(s.ch[c].kind) == (if st.ch[c].cfg.dps then 1 else 2)
  {
  }

  /** Where the bytes go settles what memory holds: operands of any size that move as many bytes do the same. */
  lemma MovedDetermines(before: seq<byte>, after1: seq<byte>, after2: seq<byte>, dir: bool, mar: nat, dar: nat,
                        spacing: nat, n: nat)
    requires |before| == SPACE && |after1| == SPACE && |after2| == SPACE
    requires (spacing == 1 || spacing == 2) && InSpace(mar, dar, spacing, n)
    requires Moved(before, after1, dir, mar, dar, spacing, n) && Moved(before, after2, dir, mar, dar, spacing, n)
    ensures after1 == after2
  {
    forall a | 0 <= a < SPACE ensures after1[a] == after2[a] {
      if dir && mar <= a < mar + n {
        var i := a - mar;
        assert after1[mar + i] == before[Port(dar, spacing, i)] == after2[mar + i];
      } else if !dir && IsPort(a, dar, spacing, n) {
        var i := if spacing == 2 then (a - dar) / 2 else a - dar;
        assert Port(dar, spacing, i) == a;
      }
    }
  }
}
