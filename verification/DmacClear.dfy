/** dmac.c: when the operands of a chain are stored clear of its descriptors, from the registers and descriptors alone. */
module DmacClear {
  import opened DmacState
  import opened DmacChain

  /** The address is in the area n operands of this many bytes take, the address staying, counting up or counting down. */
  predicate InArea(start: nat, bytes: nat, mode: nat, n: nat, a: int) {
    if mode == 1 then (a - start) % SPACE < bytes * n
    else if mode == 2 then (a - (start - bytes * (n - 1))) % SPACE < bytes * n
    else (a - start) % SPACE < bytes
  }

  /** Away from the ends of memory an area is an interval: upward from start, downward to it, or one operand long. */
  lemma AreaIs(start: nat, bytes: nat, mode: nat, n: nat, a: int)
    requires n > 0 && 0 <= a < SPACE
    requires start + bytes * n <= SPACE && (mode == 2 ==> bytes * (n - 1) <= start)
    ensures InArea(start, bytes, mode, n, a)
            <==> if mode == 1 then start <= a < start + bytes * n
                 else if mode == 2 then start - bytes * (n - 1) <= a < start + bytes else start <= a < start + bytes
  {
    assert bytes * n == bytes * (n - 1) + bytes;
    Interval(a, start, bytes * n);
    Interval(a, start, bytes);
    if mode == 2 {
      Interval(a, start - bytes * (n - 1), bytes * n);
    }
  }

  lemma Interval(a: int, start: nat, len: nat)
    requires 0 <= a < SPACE && start + len <= SPACE
    ensures (a - start) % SPACE < len <==> start <= a < start + len
  {
  }

  /** A descriptor is six bytes of an array and ten of a link array. */
  lemma DescriptorArea(chain: nat, b: Block, a: int)
    requires 0 <= a < SPACE && b.at + 10 <= SPACE
    ensures InDescriptor(chain, b, a) <==> b.at <= a < b.at + if chain == 2 then 6 else 10
  {
    Interval(a, b.at, if chain == 2 then 6 else 10);
  }

  /** The m-th of n operands is in the area. */
  lemma AreaCovers(start: nat, bytes: nat, mode: nat, n: nat, m: nat, a: int)
    requires m < n && (a - (start + m * Diff(bytes, mode)) % SPACE) % SPACE < bytes
    ensures InArea(start, bytes, mode, n, a)
  {
    var d := m * Diff(bytes, mode);
    FromStart(a, start + d);
    if mode == 1 {
      assert d == m * bytes;
      Products(bytes, m, n);
      Further(a - start - d, d);
    } else if mode == 2 {
      assert d == -(m * bytes);
      Products(bytes, n - 1 - m, n);
      assert bytes * (n - 1) == bytes * (n - 1 - m) + m * bytes;
      Further(a - start - d, bytes * (n - 1 - m));
    } else {
      assert d == 0;
    }
  }

  lemma Products(bytes: nat, m: nat, n: nat)
    requires m < n
    ensures 0 <= m * bytes && m * bytes + bytes <= bytes * n && bytes * m == m * bytes
  {
    Spread(bytes, m, n - 1 - m);
    assert bytes * m == m * bytes;
  }

  lemma Spread(b: nat, m: nat, e: nat)
    ensures b * (m + 1 + e) == b * m + b + b * e && b * m >= 0 && b * e >= 0
  {
  }

  lemma FromStart(a: int, p: int)
    ensures (a - p % SPACE) % SPACE == (a - p) % SPACE
  {
  }

  /** Going i further takes the offset at most i further. */
  lemma Further(x: int, i: nat)
    ensures (x + i) % SPACE <= x % SPACE + i
  {
  }

  // ---------------------------------------------------------------- device to memory

  /** The areas the blocks are stored in are apart from every descriptor that is still to be read then. */
  ghost predicate TargetsApart(x: Channel, mar: nat, count: nat, blocks: seq<Block>)
    decreases |blocks|
  {
    && (forall i, a :: 0 <= i < |blocks| && 0 <= a < SPACE && InDescriptor(x.cfg.chain, blocks[i], a)
                       ==> !InArea(mar, Bytes(x.kind), x.cfg.mac, Count(count), a))
    && (blocks != [] ==> TargetsApart(x, blocks[0].mar, blocks[0].count, blocks[1..]))
  }

  /** From a device to memory: areas apart are enough. */
  lemma TargetsClear(x: Channel, blocks: seq<Block>, k: nat)
    requires x.cfg.dir && TargetsApart(x, x.mar, x.mtc, blocks) && k <= Count(x.mtc) + Total(blocks)
    ensures Clear(x, blocks, k)
  {
    hide SparesAll, TargetsApart;
    forall j | 0 <= j < k ensures SparesAll(After(x, blocks, j), Left(x, blocks, j)) {
      TargetSpares(x, x, blocks, j);
    }
  }

  lemma {:induction false} TargetSpares(x: Channel, y: Channel, blocks: seq<Block>, j: nat)
    requires y.cfg == x.cfg && y.kind == x.kind && x.cfg.dir && TargetsApart(x, y.mar, y.mtc, blocks)
    requires j < Count(y.mtc) + Total(blocks)
    ensures SparesAll(After(y, blocks, j), Left(y, blocks, j))
    decreases |blocks|
  {
    hide InDescriptor, InArea, AdvanceBy;
    var n := Count(y.mtc);
    if j < n {
      InTarget(y, blocks, j);
    } else {
      AdvanceKeeps(y, n);
      TargetSpares(x, WithBlock(AdvanceBy(y, n), blocks[0]), blocks[1..], j - n);
    }
  }

  lemma InTarget(y: Channel, blocks: seq<Block>, j: nat)
    requires y.cfg.dir && j < Count(y.mtc)
    requires forall i, a :: 0 <= i < |blocks| && 0 <= a < SPACE && InDescriptor(y.cfg.chain, blocks[i], a)
                            ==> !InArea(y.mar, Bytes(y.kind), y.cfg.mac, Count(y.mtc), a)
    ensures SparesAll(AdvanceBy(y, j), blocks)
  {
    hide InDescriptor, InArea;
    var z := AdvanceBy(y, j);
    forall i, a | 0 <= i < |blocks| && 0 <= a < SPACE && InDescriptor(y.cfg.chain, blocks[i], a) ensures !Writes(z, a) {
      if Writes(z, a) {
        AreaCovers(y.mar, Bytes(y.kind), y.cfg.mac, Count(y.mtc), j, a);
      }
    }
  }

  // ---------------------------------------------------------------- memory to device

  /** The device addresses of all the operands are apart from every descriptor. */
  ghost predicate PortsApart(x: Channel, blocks: seq<Block>) {
    forall i, a :: 0 <= i < |blocks| && 0 <= a < SPACE && InDescriptor(x.cfg.chain, blocks[i], a)
      ==> !InArea(x.dar, Bytes(x.kind) * Spacing(x.kind), x.cfg.dac, Count(x.mtc) + Total(blocks), a)
  }

  /** From memory to a device: the device's area apart is enough; a fixed port is the common case. */
  lemma PortsClear(x: Channel, blocks: seq<Block>, k: nat)
    requires !x.cfg.dir && PortsApart(x, blocks) && k <= Count(x.mtc) + Total(blocks)
    ensures Clear(x, blocks, k)
  {
    hide InDescriptor, InArea, After, Left;
    forall j | 0 <= j < k ensures SparesAll(After(x, blocks, j), Left(x, blocks, j)) {
      PortSpares(x, blocks, j);
    }
  }

  lemma PortSpares(x: Channel, blocks: seq<Block>, j: nat)
    requires !x.cfg.dir && PortsApart(x, blocks) && j < Count(x.mtc) + Total(blocks)
    ensures SparesAll(After(x, blocks, j), Left(x, blocks, j))
  {
    hide InDescriptor, InArea, After, Left, DevDiff;
    var z, left := After(x, blocks, j), Left(x, blocks, j);
    AfterKeeps(x, blocks, j);
    DeviceAddress(x, blocks, j);
    LeftIsEnd(x, blocks, j);
    forall i, a | 0 <= i < |left| && 0 <= a < SPACE && InDescriptor(x.cfg.chain, left[i], a) ensures !Writes(z, a) {
      assert left[i] == blocks[|blocks| - |left| + i];
      if Writes(z, a) {
        InPorts(x, Count(x.mtc) + Total(blocks), j, a);
      }
    }
  }

  lemma InPorts(x: Channel, n: nat, j: nat, a: int)
    requires j < n && (a - (x.dar + j * DevDiff(x.kind, x.cfg.dac)) % SPACE) % SPACE < Bytes(x.kind) * Spacing(x.kind)
    ensures InArea(x.dar, Bytes(x.kind) * Spacing(x.kind), x.cfg.dac, n, a)
  {
    hide InArea, Bytes, Spacing;
    AreaCovers(x.dar, Bytes(x.kind) * Spacing(x.kind), x.cfg.dac, n, j, a);
  }

  lemma {:induction false} LeftIsEnd(x: Channel, blocks: seq<Block>, k: nat)
    ensures |Left(x, blocks, k)| <= |blocks| && Left(x, blocks, k) == blocks[|blocks| - |Left(x, blocks, k)|..]
    decreases |blocks|
  {
    hide AdvanceBy, WithBlock;
    var n := Count(x.mtc);
    if k >= n && blocks != [] {
      LeftIsEnd(WithBlock(AdvanceBy(x, n), blocks[0]), blocks[1..], k - n);
    }
  }

  /** The device address goes on from block to block. */
  lemma {:induction false} DeviceAddress(x: Channel, blocks: seq<Block>, k: nat)
    requires k < Count(x.mtc) + Total(blocks)
    ensures After(x, blocks, k).dar == (x.dar + k * DevDiff(x.kind, x.cfg.dac)) % SPACE
    decreases |blocks|
  {
    hide DevDiff;
    var n := Count(x.mtc);
    if k >= n {
      var d := DevDiff(x.kind, x.cfg.dac);
      var y := WithBlock(AdvanceBy(x, n), blocks[0]);
      DeviceAddress(y, blocks[1..], k - n);
      ModSum(x.dar + n * d, (k - n) * d);
      TimesSum(n, k - n, d);
    }
  }

  lemma TimesSum(n: int, m: int, d: int)
    ensures n * d + m * d == (n + m) * d
  {
  }
}
