/** dmac.c: how many operands a started channel transfers, block after block, and when it ends. */
module DmacChain {
  import opened DmacState

  /** k requests on channel c and nothing else. */
  function Requests(st: State, c: nat, k: nat): (r: State)
    requires st.Valid() && c < 4
    ensures r.Valid()
  {
    if k == 0 then st else Request(Requests(st, c, k - 1), c)
  }

  // ---------------------------------------------------------------- blocks

  /** A descriptor: where it is, the memory address and count it holds, and where the next one is. */
  datatype Block = Block(at: nat, mar: nat, count: nat, next: nat)

  /** The counter is 32 bits wide and is tested after it is decremented: zero stands for 2^32 operands. */
  function Count(m: nat): nat { if m == 0 then TWO32 else m }

  function Total(blocks: seq<Block>): nat {
    if blocks == [] then 0 else Count(blocks[0].count) + Total(blocks[1..])
  }

  /** What memory holds at an even base address, for array chains and for link array chains. */
  function BlockAt(ram: seq<byte>, chain: nat, at: nat): Block
    requires |ram| == SPACE
  {
    Block(at, Word(ram, at, 0) % 0x100 * 0x1_0000 + Word(ram, at, 1), Word(ram, at, 2),
          if chain == 2 then Even24(at + 4) + 2 else Word(ram, at, 3) % 0x100 * 0x1_0000 + Word(ram, at, 4))
  }

  /** Descriptors one leading to the other, at even addresses; a link array ends in link 0. */
  ghost predicate Linked(chain: nat, blocks: seq<Block>) {
    && (forall i :: 0 <= i < |blocks| ==> blocks[i].at % 2 == 0 && blocks[i].mar < SPACE && blocks[i].count < TWO32)
    && (forall i :: 0 < i < |blocks| ==> blocks[i].at == blocks[i - 1].next && (chain == 3 ==> blocks[i].at != 0))
    && (chain == 3 && |blocks| > 0 ==> blocks[|blocks| - 1].next == 0)
  }

  /** Memory holds these descriptors. */
  ghost predicate Held(ram: seq<byte>, chain: nat, blocks: seq<Block>)
    requires |ram| == SPACE
  {
    forall i :: 0 <= i < |blocks| ==> blocks[i] == BlockAt(ram, chain, blocks[i].at)
  }

  /** These blocks are what the channel has still to load. */
  ghost predicate Ahead(x: Channel, blocks: seq<Block>) {
    if x.cfg.chain == 2 then x.btc == |blocks| && (blocks != [] ==> x.bar == blocks[0].at)
    else if x.cfg.chain == 3 then (blocks == [] <==> x.bar == 0) && (blocks != [] ==> x.bar == blocks[0].at)
    else blocks == []
  }

  // ---------------------------------------------------------------- the channel after k requests

  /** k operands into the current block. */
  function AdvanceBy(x: Channel, k: nat): Channel {
    x.(mar := (x.mar + k * MemDiff(x.kind, x.cfg.mac)) % SPACE, dar := (x.dar + k * DevDiff(x.kind, x.cfg.dac)) % SPACE,
       mtc := (x.mtc - k) % TWO32)
  }

  function Finished(x: Channel): Channel { x.(fl := x.fl.(act := false, coc := true)) }

  /** The channel with a block loaded. */
  function WithBlock(x: Channel, b: Block): Channel {
    if x.cfg.chain == 2 then x.(mar := b.mar, mtc := b.count, bar := b.next, btc := Minus1(x.btc))
    else x.(mar := b.mar, mtc := b.count, bar := b.next)
  }

  /** The channel after k requests: so many operands into the block that request belongs to, or at the end. */
  function After(x: Channel, blocks: seq<Block>, k: nat): Channel
    decreases |blocks|
  {
    var n := Count(x.mtc);
    if k < n then AdvanceBy(x, k)
    else if blocks == [] then Finished(AdvanceBy(x, n))
    else After(WithBlock(AdvanceBy(x, n), blocks[0]), blocks[1..], k - n)
  }

  /** The blocks still to be read after k requests. */
  function Left(x: Channel, blocks: seq<Block>, k: nat): seq<Block>
    decreases |blocks|
  {
    var n := Count(x.mtc);
    if k < n || blocks == [] then blocks
    else Left(WithBlock(AdvanceBy(x, n), blocks[0]), blocks[1..], k - n)
  }

  /** What one request makes of the record, when memory is as given after the operand is moved. */
  function Next(x: Channel, ram: seq<byte>): Channel
    requires |ram| == SPACE
  {
    var a := Advanced(x);
    if a.mtc > 0 then a
    else if a.fl.cnt then a.(mar := a.bar, mfc := a.bfc, mtc := a.btc, fl := a.fl.(boc := true))
    else if (a.cfg.chain == 2 && a.btc > 0) || (a.cfg.chain == 3 && a.bar != 0) then
      if a.bar % 2 == 1 then Failed(a, 0x0c) else Loaded(a, ram)
    else Finished(a)
  }

  lemma RequestNext(st: State, c: nat)
    requires st.Valid() && c < 4 && CanTransfer(st.ch[c])
    ensures Request(st, c).ch[c] == Next(st.ch[c], Request(st, c).ram)
  {
    hide Advanced, Loaded, Move, Interrupt;
  }

  /** Ready to transfer, not to be continued, with addresses and counter in their registers. */
  ghost predicate Ready(x: Channel) {
    CanTransfer(x) && !x.fl.cnt && !x.fl.coc && x.mar < SPACE && x.dar < SPACE && x.mtc < TWO32
  }

  lemma ModSum(a: int, b: int)
    ensures (a % SPACE + b) % SPACE == (a + b) % SPACE
  {
  }

  lemma AdvanceOne(x: Channel, k: nat)
    requires x.mtc < TWO32 && k < Count(x.mtc)
    ensures Advanced(AdvanceBy(x, k)) == AdvanceBy(x, k + 1)
    ensures AdvanceBy(x, k + 1).mtc == 0 <==> k + 1 == Count(x.mtc)
  {
    hide MemDiff, DevDiff, Count, Minus1;
    CounterOne(x.mtc, k);
    AdvanceAddress(x.mar, k, MemDiff(x.kind, x.cfg.mac));
    AdvanceAddress(x.dar, k, DevDiff(x.kind, x.cfg.dac));
  }

  lemma CounterOne(m: nat, k: nat)
    requires m < TWO32 && k < Count(m)
    ensures Minus1((m - k) % TWO32) == (m - (k + 1)) % TWO32
    ensures (m - (k + 1)) % TWO32 == 0 <==> k + 1 == Count(m)
  {
  }

  lemma AdvanceAddress(a: nat, k: nat, d: int)
    ensures ((a + k * d) % SPACE + d) % SPACE == (a + (k + 1) * d) % SPACE
  {
    ModSum(a + k * d, d);
    assert a + k * d + d == a + (k + 1) * d;
  }

  /** A block's last operand brings in the next block. */
  lemma LoadedIsWithBlock(x: Channel, chain: nat, b: Block, ram: seq<byte>)
    requires |ram| == SPACE && !x.fl.err && x.cfg.chain == chain && (chain == 2 || chain == 3)
    requires x.bar == b.at && b == BlockAt(ram, chain, b.at)
    ensures Loaded(x, ram) == WithBlock(x, b)
  {
  }

  lemma AdvanceReady(x: Channel, k: nat)
    requires Ready(x)
    ensures Ready(AdvanceBy(x, k)) && AdvanceBy(x, 0) == x
  {
  }

  /** The next request takes the channel one operand further, into the next block or to the end. */
  lemma {:induction false} AfterNext(x: Channel, blocks: seq<Block>, k: nat, ram: seq<byte>)
    requires |ram| == SPACE && Ready(x) && Ahead(x, blocks) && Linked(x.cfg.chain, blocks)
    requires k < Count(x.mtc) + Total(blocks) && Held(ram, x.cfg.chain, Left(x, blocks, k))
    ensures Ready(After(x, blocks, k)) && Next(After(x, blocks, k), ram) == After(x, blocks, k + 1)
    decreases |blocks|
  {
    hide Advanced, AdvanceBy, Loaded, WithBlock, Linked, Held;
    var n := Count(x.mtc);
    if k < n {
      AdvanceReady(x, k);
      AdvanceOne(x, k);
      if k + 1 == n {
        LastOperand(x, blocks, ram);
      }
    } else {
      var y := WithBlock(AdvanceBy(x, n), blocks[0]);
      BlocksAhead(x, blocks);
      AfterNext(y, blocks[1..], k - n, ram);
    }
  }

  /** The record that follows a block's last operand. */
  lemma LastOperand(x: Channel, blocks: seq<Block>, ram: seq<byte>)
    requires |ram| == SPACE && Ready(x) && Ahead(x, blocks) && Linked(x.cfg.chain, blocks)
    requires Held(ram, x.cfg.chain, blocks)
    ensures var n := Count(x.mtc); Next(AdvanceBy(x, n - 1), ram) == After(x, blocks, n)
  {
    hide Advanced, Loaded, Linked, AdvanceBy, After, WithBlock;
    var n := Count(x.mtc);
    AdvanceOne(x, n - 1);
    var a := AdvanceBy(x, n);
    AdvanceKeeps(x, n);
    AfterBlock(x, blocks);
    if blocks != [] {
      FirstBlock(x, blocks);
      LoadedIsWithBlock(a, x.cfg.chain, blocks[0], ram);
      BlocksAhead(x, blocks);
      AdvanceReady(WithBlock(a, blocks[0]), 0);
    }
  }

  lemma AdvanceKeeps(x: Channel, k: nat)
    ensures var a := AdvanceBy(x, k);
            a.fl == x.fl && a.cfg == x.cfg && a.bar == x.bar && a.btc == x.btc && a.kind == x.kind
            && a.niv == x.niv && a.eiv == x.eiv
  {
  }

  lemma AfterBlock(x: Channel, blocks: seq<Block>)
    ensures var a := AdvanceBy(x, Count(x.mtc));
            After(x, blocks, Count(x.mtc))
            == if blocks == [] then Finished(a) else AdvanceBy(WithBlock(a, blocks[0]), 0)
  {
    hide AdvanceBy, WithBlock;
  }

  lemma FirstBlock(x: Channel, blocks: seq<Block>)
    requires Ahead(x, blocks) && Linked(x.cfg.chain, blocks) && blocks != []
    ensures (x.cfg.chain == 2 || x.cfg.chain == 3) && x.bar == blocks[0].at && x.bar % 2 == 0
            && blocks[0].mar < SPACE && blocks[0].count < TWO32
  {
  }

  /** With the first block loaded, the others are ahead. */
  lemma BlocksAhead(x: Channel, blocks: seq<Block>)
    requires Ready(x) && Ahead(x, blocks) && Linked(x.cfg.chain, blocks) && blocks != []
    ensures var y := WithBlock(AdvanceBy(x, Count(x.mtc)), blocks[0]);
            Ready(y) && y.cfg == x.cfg && y.kind == x.kind && y.mtc == blocks[0].count && Ahead(y, blocks[1..])
            && Linked(y.cfg.chain, blocks[1..])
  {
    hide AdvanceBy;
    var n := Count(x.mtc);
    FirstBlock(x, blocks);
    AdvanceReady(x, n);
    AdvanceKeeps(x, n);
    OthersLinked(x.cfg.chain, blocks);
  }

  lemma OthersLinked(chain: nat, blocks: seq<Block>)
    requires Linked(chain, blocks) && blocks != []
    ensures Linked(chain, blocks[1..])
    ensures chain == 3 ==> (blocks[1..] == [] <==> blocks[0].next == 0)
    ensures blocks[1..] != [] ==> blocks[0].next == blocks[1..][0].at
  {
    var rest := blocks[1..];
    forall i | 0 < i < |rest|
      ensures rest[i].at == rest[i - 1].next && (chain == 3 ==> rest[i].at != 0)
    {
      var j := i + 1;
      assert blocks[j].at == blocks[j - 1].next;
    }
    if |rest| > 0 {
      assert blocks[1].at == blocks[1 - 1].next;
      assert rest[|rest| - 1] == blocks[|blocks| - 1];
    }
  }

  // ---------------------------------------------------------------- what operands are stored over

  /** The address is one of the bytes the channel's next operand is stored in. */
  predicate Writes(x: Channel, a: int) {
    if x.cfg.dir then (a - x.mar) % SPACE < Bytes(x.kind)
    else
      var offset := (a - x.dar) % SPACE;
      offset < Bytes(x.kind) * Spacing(x.kind) && offset % Spacing(x.kind) == 0
  }

  /** The address is in the descriptor: six bytes of an array, ten of a link array. */
  predicate InDescriptor(chain: nat, b: Block, a: int) {
    (a - b.at) % SPACE < if chain == 2 then 6 else 10
  }

  /** The channel's next operand is stored over none of these descriptors. */
  ghost predicate SparesAll(x: Channel, blocks: seq<Block>) {
    forall i, a :: 0 <= i < |blocks| && 0 <= a < SPACE && InDescriptor(x.cfg.chain, blocks[i], a) ==> !Writes(x, a)
  }

  /**
   None of the first k operands is stored over a descriptor that is still to be read then. This is
   about the channel record and the descriptors only, before anything is transferred.
   */
  ghost predicate Clear(x: Channel, blocks: seq<Block>, k: nat) {
    forall j :: 0 <= j < k ==> SparesAll(After(x, blocks, j), Left(x, blocks, j))
  }

  /** An operand changes no byte it is not stored in. */
  lemma MoveFrame(ram: seq<byte>, x: Channel, a: int)
    requires |ram| == SPACE && 0 <= a < SPACE && !Writes(x, a)
    ensures Move(ram, x.kind, x.cfg.dir, x.mar, x.dar)[a] == ram[a]
  {
    hide Read8, Read16;
    var start := if x.cfg.dir then x.mar else x.dar;
    var step := if x.cfg.dir then 1 else Spacing(x.kind);
    var b := Bytes(x.kind);
    Elsewhere(start, 0, a);
    if b > 1 {
      Elsewhere(start, step, a);
    }
    if b > 2 {
      Elsewhere(start, 2 * step, a);
      Elsewhere(start, 3 * step, a);
    }
  }

  lemma Elsewhere(start: nat, i: nat, a: int)
    requires 0 <= a < SPACE && i < 8 && (a - start) % SPACE != i
    ensures (start + i) % SPACE != a
  {
  }

  /** Descriptors of which no byte changed are still held. */
  lemma HeldKept(ram: seq<byte>, after: seq<byte>, chain: nat, blocks: seq<Block>)
    requires |ram| == SPACE && |after| == SPACE && Held(ram, chain, blocks) && EvenBlocks(blocks)
    requires forall i, a :: 0 <= i < |blocks| && 0 <= a < SPACE && InDescriptor(chain, blocks[i], a) ==> after[a] == ram[a]
    ensures Held(after, chain, blocks)
  {
    hide BlockAt, InDescriptor;
    forall i | 0 <= i < |blocks| ensures blocks[i] == BlockAt(after, chain, blocks[i].at) {
      forall a | 0 <= a < SPACE && InDescriptor(chain, blocks[i], a) ensures after[a] == ram[a] {
      }
      BlockKept(ram, after, chain, blocks[i]);
    }
  }

  ghost predicate EvenBlocks(blocks: seq<Block>) {
    forall i :: 0 <= i < |blocks| ==> blocks[i].at % 2 == 0
  }

  lemma BlockKept(ram: seq<byte>, after: seq<byte>, chain: nat, b: Block)
    requires |ram| == SPACE && |after| == SPACE && b.at % 2 == 0
    requires forall a :: 0 <= a < SPACE && InDescriptor(chain, b, a) ==> after[a] == ram[a]
    ensures BlockAt(after, chain, b.at) == BlockAt(ram, chain, b.at)
  {
    hide Word, InDescriptor;
    WordKept(ram, after, chain, b, 0);
    WordKept(ram, after, chain, b, 1);
    WordKept(ram, after, chain, b, 2);
    if chain != 2 {
      WordKept(ram, after, chain, b, 3);
      WordKept(ram, after, chain, b, 4);
    }
  }

  lemma WordKept(ram: seq<byte>, after: seq<byte>, chain: nat, b: Block, k: nat)
    requires |ram| == SPACE && |after| == SPACE && b.at % 2 == 0 && (k < 3 || (chain != 2 && k < 5))
    requires forall a :: 0 <= a < SPACE && InDescriptor(chain, b, a) ==> after[a] == ram[a]
    ensures Word(after, b.at, k) == Word(ram, b.at, k)
  {
    var w := Even24(b.at + 2 * k);
    WordPlace(b.at, k);
    assert InDescriptor(chain, b, w) && InDescriptor(chain, b, w + 1);
  }

  lemma WordPlace(at: nat, k: nat)
    requires at % 2 == 0 && k < 5
    ensures var w := Even24(at + 2 * k); w + 1 < SPACE && (w - at) % SPACE == 2 * k && (w + 1 - at) % SPACE == 2 * k + 1
  {
    var w := (at + 2 * k) % SPACE;
    assert w % 2 == 0;
    Offset(at, 2 * k, w);
    Offset(at, 2 * k + 1, w + 1);
  }

  lemma Offset(start: nat, i: nat, a: int)
    requires i < SPACE && (start + i - a) % SPACE == 0
    ensures (a - start) % SPACE == i
  {
  }

  // ---------------------------------------------------------------- the whole run

  lemma RequestMoves(st: State, c: nat)
    requires st.Valid() && c < 4 && CanTransfer(st.ch[c])
    ensures var x := st.ch[c]; Request(st, c).ram == Move(st.ram, x.kind, x.cfg.dir, x.mar, x.dar)
  {
    hide Move, Advanced, Follow;
  }

  /** A transfer that spares the descriptors leaves them held. */
  lemma RequestSpares(st: State, c: nat, blocks: seq<Block>)
    requires st.Valid() && c < 4 && CanTransfer(st.ch[c]) && EvenBlocks(blocks)
    requires Held(st.ram, st.ch[c].cfg.chain, blocks) && SparesAll(st.ch[c], blocks)
    ensures Held(Request(st, c).ram, st.ch[c].cfg.chain, blocks)
  {
    hide Request, Move, Held, Writes, InDescriptor;
    var x := st.ch[c];
    RequestMoves(st, c);
    forall i, a | 0 <= i < |blocks| && 0 <= a < SPACE && InDescriptor(x.cfg.chain, blocks[i], a)
      ensures Request(st, c).ram[a] == st.ram[a]
    {
      MoveFrame(st.ram, x, a);
    }
    HeldKept(st.ram, Request(st, c).ram, x.cfg.chain, blocks);
  }

  lemma AfterKeeps(x: Channel, blocks: seq<Block>, k: nat)
    ensures After(x, blocks, k).cfg == x.cfg && After(x, blocks, k).kind == x.kind
    decreases |blocks|
  {
    hide AdvanceBy;
    AdvanceKeeps(x, k);
    AdvanceKeeps(x, Count(x.mtc));
    if k >= Count(x.mtc) && blocks != [] {
      AfterKeeps(WithBlock(AdvanceBy(x, Count(x.mtc)), blocks[0]), blocks[1..], k - Count(x.mtc));
    }
  }

  /** The blocks left are an end of the blocks, and one request takes at most the first away. */
  lemma {:induction false} LeftShrinks(x: Channel, blocks: seq<Block>, k: nat, ram: seq<byte>, chain: nat)
    requires |ram| == SPACE && Held(ram, chain, Left(x, blocks, k))
    ensures Held(ram, chain, Left(x, blocks, k + 1))
    decreases |blocks|
  {
    hide BlockAt, AdvanceBy, WithBlock;
    var n := Count(x.mtc);
    if k >= n && blocks != [] {
      LeftShrinks(WithBlock(AdvanceBy(x, n), blocks[0]), blocks[1..], k - n, ram, chain);
    } else if k + 1 >= n && blocks != [] {
      var y := WithBlock(AdvanceBy(x, n), blocks[0]);
      LeftAtStart(y, blocks[1..]);
      assert Left(x, blocks, k + 1) == Left(y, blocks[1..], 0);
    }
  }

  lemma LeftAtStart(x: Channel, blocks: seq<Block>)
    ensures Left(x, blocks, 0) == blocks
  {
  }

  lemma {:induction false} LeftEven(x: Channel, blocks: seq<Block>, k: nat)
    requires EvenBlocks(blocks)
    ensures EvenBlocks(Left(x, blocks, k))
    decreases |blocks|
  {
    hide AdvanceBy, WithBlock;
    var n := Count(x.mtc);
    if k >= n && blocks != [] {
      LeftEven(WithBlock(AdvanceBy(x, n), blocks[0]), blocks[1..], k - n);
    }
  }

  /**
   k requests on a channel with these blocks ahead, k at most all their operands: the channel is
   that many operands on, in the order of the blocks, and memory still holds the descriptors left.
   */
  lemma {:induction false} RequestsAdvance(st: State, c: nat, blocks: seq<Block>, k: nat)
    requires st.Valid() && c < 4 && Ready(st.ch[c]) && Ahead(st.ch[c], blocks)
    requires Linked(st.ch[c].cfg.chain, blocks) && Held(st.ram, st.ch[c].cfg.chain, blocks)
    requires k <= Count(st.ch[c].mtc) + Total(blocks) && Clear(st.ch[c], blocks, k)
    ensures Requests(st, c, k).ch[c] == After(st.ch[c], blocks, k)
    ensures Held(Requests(st, c, k).ram, st.ch[c].cfg.chain, Left(st.ch[c], blocks, k))
    ensures k < Count(st.ch[c].mtc) + Total(blocks) ==> Ready(After(st.ch[c], blocks, k))
  {
    hide Request, Ready, Ahead, Held, After, Left, Next, SparesAll, Linked;
    var x := st.ch[c];
    if k == 0 {
      AfterNothing(x, blocks);
      LeftAtStart(x, blocks);
      ReadyNow(x);
    } else {
      RequestsAdvance(st, c, blocks, k - 1);
      var before := Requests(st, c, k - 1);
      OneMore(before, c, x, blocks, k - 1);
      if k < Count(x.mtc) + Total(blocks) {
        AfterNext(x, blocks, k, Requests(st, c, k).ram);
      }
    }
  }

  lemma OneMore(before: State, c: nat, x: Channel, blocks: seq<Block>, k: nat)
    requires before.Valid() && c < 4 && Ready(x) && Ahead(x, blocks) && Linked(x.cfg.chain, blocks)
    requires k < Count(x.mtc) + Total(blocks) && before.ch[c] == After(x, blocks, k) && Ready(before.ch[c])
    requires Held(before.ram, x.cfg.chain, Left(x, blocks, k)) && SparesAll(After(x, blocks, k), Left(x, blocks, k))
    ensures Request(before, c).ch[c] == After(x, blocks, k + 1)
    ensures Held(Request(before, c).ram, x.cfg.chain, Left(x, blocks, k + 1))
  {
    hide Request, Ready, Ahead, Held, After, Left, Next, SparesAll, Linked;
    AfterKeeps(x, blocks, k);
    ReadyTransfers(before.ch[c]);
    LinkedEven(x.cfg.chain, blocks);
    LeftEven(x, blocks, k);
    RequestSpares(before, c, Left(x, blocks, k));
    AfterNext(x, blocks, k, Request(before, c).ram);
    RequestNext(before, c);
    LeftShrinks(x, blocks, k, Request(before, c).ram, x.cfg.chain);
  }

  lemma LinkedEven(chain: nat, blocks: seq<Block>)
    requires Linked(chain, blocks)
    ensures EvenBlocks(blocks)
  {
  }

  lemma ReadyNow(x: Channel)
    requires Ready(x)
    ensures Count(x.mtc) > 0
  {
  }

  lemma ReadyTransfers(x: Channel)
    requires Ready(x)
    ensures CanTransfer(x)
  {
  }

  lemma AfterNothing(x: Channel, blocks: seq<Block>)
    requires Ready(x)
    ensures After(x, blocks, 0) == x
  {
    AdvanceReady(x, 0);
  }

  /** At the end the channel is no longer active, has completed, and did not fail. */
  lemma {:induction false} AfterAll(x: Channel, blocks: seq<Block>)
    requires !x.fl.err
    ensures var y := After(x, blocks, Count(x.mtc) + Total(blocks));
            y.fl == x.fl.(act := false, coc := true) && y.niv == x.niv && y.eiv == x.eiv
    decreases |blocks|
  {
    hide AdvanceBy;
    AdvanceKeeps(x, Count(x.mtc));
    if blocks != [] {
      AfterAll(WithBlock(AdvanceBy(x, Count(x.mtc)), blocks[0]), blocks[1..]);
    }
  }

  /** A channel set up to be started on these descriptors. */
  ghost predicate Chained(x: Channel, blocks: seq<Block>) {
    && MayStart(x) && blocks != [] && x.bar == blocks[0].at && !x.fl.hlt && x.dar < SPACE
    && ((x.cfg.chain == 2 && x.btc == |blocks|) || x.cfg.chain == 3)
    && Linked(x.cfg.chain, blocks)
  }

  /** The record a start leaves such a channel with: active, the first block loaded. */
  function StartedOn(x: Channel, b: Block): Channel { WithBlock(Started(x), b) }

  lemma StartLoads(st: State, c: nat, blocks: seq<Block>)
    requires st.Valid() && c < 4 && Chained(st.ch[c], blocks) && Held(st.ram, st.ch[c].cfg.chain, blocks)
    ensures var s := Start(st, c);
            && s.ram == st.ram && s.ch[c] == StartedOn(st.ch[c], blocks[0]) && s.ch[c].cfg == st.ch[c].cfg
            && Ready(s.ch[c]) && s.ch[c].mtc == blocks[0].count && Ahead(s.ch[c], blocks[1..])
            && Linked(s.ch[c].cfg.chain, blocks[1..]) && Held(s.ram, s.ch[c].cfg.chain, blocks[1..])
  {
    hide Loaded, BlockAt;
    var x := Started(st.ch[c]);
    LoadedIsWithBlock(x, x.cfg.chain, blocks[0], st.ram);
    OthersLinked(x.cfg.chain, blocks);
  }

  /**
   An array chain of n descriptors, or a link array ending in link 0, held in memory before the start
   and clear of the places operands are stored in: the channel is active and has not completed as long
   as fewer operands than the sum of the counts were moved, and has completed without error when
   exactly that many were.
   */
  lemma ChainExact(st: State, c: nat, blocks: seq<Block>, k: nat)
    requires st.Valid() && c < 4 && Chained(st.ch[c], blocks) && Held(st.ram, st.ch[c].cfg.chain, blocks)
    requires k <= Total(blocks) && Clear(StartedOn(st.ch[c], blocks[0]), blocks[1..], k)
    ensures var r := Requests(Start(st, c), c, k);
            && r.ch[c] == After(StartedOn(st.ch[c], blocks[0]), blocks[1..], k)
            && !r.ch[c].fl.err && r.ch[c].fl.act == (k < Total(blocks)) && r.ch[c].fl.coc == (k == Total(blocks))
  {
    hide Held, Start, After, Ready, Requests, Clear, Linked;
    var s := Start(st, c);
    StartLoads(st, c, blocks);
    RequestsAdvance(s, c, blocks[1..], k);
    ReadyFlags(s.ch[c]);
    AfterAll(s.ch[c], blocks[1..]);
    if k < Total(blocks) {
      ReadyFlags(After(s.ch[c], blocks[1..], k));
    }
  }

  lemma ReadyFlags(x: Channel)
    requires Ready(x)
    ensures x.fl.act && !x.fl.err && !x.fl.coc
  {
  }

  /** Requests after the end change nothing. */
  lemma {:induction false} NothingAfterEnd(st: State, c: nat, k: nat)
    requires st.Valid() && c < 4 && !st.ch[c].fl.act
    ensures Requests(st, c, k) == st
  {
    if k > 0 {
      NothingAfterEnd(st, c, k - 1);
    }
  }
}
