/** okim6258.c: the ADPCM decoder and its packed-nibble ring buffer, against a bounded FIFO. */
module Okim6258 {
  type Byte = x: int | 0 <= x < 0x100

  const CAPACITY: nat := 7
  const OUTPUT_MASK: int := 2048

  // ---------------------------------------------------------------- the decoder

  /** index_shift */
  function IndexShift(nibble: nat): int
    requires nibble < 8
  {
    [-1, -1, -1, -1, 2, 4, 6, 8][nibble]
  }

  function Clamp(x: int, low: int, high: int): (y: int)
    requires low <= high
    ensures low <= y <= high && (low <= x <= high ==> y == x)
  {
    if x > high then high else if x < low then low else x
  }

  /** diff_lookup: one difference for each of 49 steps and 16 nibbles, whatever compute_tables filled in. */
  type DiffTable = s: seq<int> | |s| == 49 * 16 witness seq(49 * 16, i => 0)

  datatype Decoder = Decoder(signal: int, step: int)

  predicate DecoderOk(d: Decoder) {
    -OUTPUT_MASK <= d.signal <= OUTPUT_MASK - 1 && 0 <= d.step <= 48
  }

  /** clock_adpcm: a leaky sum of differences, clamped to 12 bits. */
  function Clock(t: DiffTable, d: Decoder, nibble: nat): (d': Decoder)
    requires DecoderOk(d) && nibble < 16
    ensures DecoderOk(d')
  {
    Decoder(Clamp((t[d.step * 16 + nibble] * 256 + d.signal * 245) / 256, -OUTPUT_MASK, OUTPUT_MASK - 1),
            Clamp(d.step + IndexShift(nibble % 8), 0, 48))
  }

  /** signal * 15 / 16, rounding toward zero as C does. */
  function Decay(signal: int): int {
    if signal >= 0 then signal * 15 / 16 else -(-signal * 15 / 16)
  }

  // ---------------------------------------------------------------- the bounded FIFO

  /**
   The chip with a plain queue instead of the ring: `empty` is 0 while the queue holds a byte, 1 when
   its last byte has just been taken, more when a byte was missing.
   */
  datatype Fifo = Fifo(queue: seq<Byte>, empty: nat, dataIn: Byte, shift: nat, d: Decoder, lastSmpl: int)

  predicate FifoOk(f: Fifo) {
    && |f.queue| <= CAPACITY && (f.queue == [] <==> f.empty >= 1) && f.empty < 0x100
    && (f.shift == 0 || f.shift == 4) && DecoderOk(f.d)
  }

  /** A data write: accepted unless seven bytes are waiting; then the newest byte is the one dropped. */
  function Offer(f: Fifo, b: Byte): Fifo {
    f.(queue := if |f.queue| < CAPACITY then f.queue + [b] else f.queue, empty := 0)
  }

  /** The byte fetch before a first nibble. */
  function Fetch(f: Fifo): (f': Fifo)
    requires FifoOk(f)
    ensures FifoOk(f')
  {
    if f.queue != [] then
      f.(dataIn := f.queue[0], queue := f.queue[1..], empty := if |f.queue| == 1 then 1 else 0)
    else if f.empty < 0x80 then f.(empty := f.empty + 1)
    else f
  }

  /** What is put out for a nibble, and the other nibble next. */
  function Sound(t: DiffTable, g: Fifo, nibble: nat): (h: Fifo)
    requires FifoOk(g) && nibble < 16
    ensures FifoOk(h) && h.queue == g.queue && h.shift == (if g.shift == 0 then 4 else 0)
  {
    var h :=
      if g.empty < 2 then
        var d := Clock(t, g.d, nibble);
        g.(d := d, lastSmpl := d.signal * 8)
      else if g.empty >= 3 then
        g.(empty := g.empty - 1, d := g.d.(signal := Decay(g.d.signal)), lastSmpl := Decay(g.d.signal) * 16)
      else g;
    h.(shift := if g.shift == 0 then 4 else 0)
  }

  /** One output sample of a playing chip. */
  function Play(t: DiffTable, f: Fifo): (f': Fifo)
    requires FifoOk(f)
    ensures FifoOk(f') && f.queue == Front(f) + f'.queue
  {
    var g := if f.shift == 0 then Fetch(f) else f;
    var nibble := if f.shift == 0 then g.dataIn % 16 else g.dataIn / 16;
    Sound(t, g, nibble)
  }

  /** The byte the next sample takes, if any. */
  function Front(f: Fifo): seq<Byte> {
    if f.shift == 0 && f.queue != [] then [f.queue[0]] else []
  }

  function Playing(t: DiffTable, f: Fifo, samples: nat): (f': Fifo)
    requires FifoOk(f)
    ensures FifoOk(f')
    decreases samples
  {
    if samples == 0 then f else Playing(t, Play(t, f), samples - 1)
  }

  /** The samples put out on the way. */
  function Heard(t: DiffTable, f: Fifo, samples: nat): (out: seq<int>)
    requires FifoOk(f)
    ensures |out| == samples
    decreases samples
  {
    if samples == 0 then [] else [Play(t, f).lastSmpl] + Heard(t, Play(t, f), samples - 1)
  }

  /** The bytes taken from the queue by so many samples. */
  function Taken(t: DiffTable, f: Fifo, samples: nat): seq<Byte>
    requires FifoOk(f)
    decreases samples
  {
    if samples == 0 then []
    else Front(f) + Taken(t, Play(t, f), samples - 1)
  }

  /** Playing takes bytes from the front of the queue, in order, and none is lost or repeated. */
  lemma {:induction false} TakenInOrder(t: DiffTable, f: Fifo, samples: nat)
    requires FifoOk(f)
    ensures f.queue == Taken(t, f, samples) + Playing(t, f, samples).queue
    decreases samples
  {
    hide Play, FifoOk, Front, Playing, Taken;
    if samples == 0 {
      NonePlayed(t, f);
    } else {
      var g := Play(t, f);
      TakenInOrder(t, g, samples - 1);
      OnePlayed(t, f, samples);
      var first, later, rest := Front(f), Taken(t, g, samples - 1), Playing(t, g, samples - 1).queue;
      calc {
        f.queue;
        first + g.queue;
        first + (later + rest);
        { Associate(first, later, rest); }
        (first + later) + rest;
      }
    }
  }

  lemma Associate<T>(a: seq<T>, b: seq<T>, c: seq<T>)
    ensures a + (b + c) == (a + b) + c
  {
  }

  /** The first of several samples. */
  lemma OnePlayed(t: DiffTable, f: Fifo, samples: nat)
    requires FifoOk(f) && samples > 0
    ensures var g := Play(t, f);
            && Playing(t, f, samples) == Playing(t, g, samples - 1)
            && Heard(t, f, samples) == [g.lastSmpl] + Heard(t, g, samples - 1)
            && Taken(t, f, samples) == Front(f) + Taken(t, g, samples - 1)
  {
    hide Play, FifoOk, Front;
  }

  lemma NonePlayed(t: DiffTable, f: Fifo)
    requires FifoOk(f)
    ensures Playing(t, f, 0) == f && Heard(t, f, 0) == [] && Taken(t, f, 0) == []
  {
  }

  /** A byte taken at a first nibble plays as its low nibble, then its high one. */
  lemma LowNibbleFirst(t: DiffTable, f: Fifo)
    requires FifoOk(f) && f.shift == 0 && f.queue != []
    ensures var d1 := Clock(t, f.d, f.queue[0] % 16);
            var d2 := Clock(t, d1, f.queue[0] / 16);
            && Playing(t, f, 2).d == d2
            && Heard(t, f, 2) == [d1.signal * 8, d2.signal * 8]
            && Playing(t, f, 2).queue == f.queue[1..]
  {
    var f1 := Play(t, f);
    var f2 := Play(t, f1);
    assert Playing(t, f, 2) == Playing(t, f1, 1) == f2;
    assert Heard(t, f1, 1) == [f2.lastSmpl];
  }

  // ---------------------------------------------------------------- the ring

  /** The bytes between the read and the write position of the eight-byte buffer. */
  function RingQueue(buf: seq<Byte>, r: nat, w: nat): (q: seq<Byte>)
    requires |buf| == 8 && r < 8 && w < 8
    ensures |q| == (if r <= w then w - r else w + 8 - r)
  {
    if r <= w then buf[r..w] else buf[r..] + buf[..w]
  }

  /** Storing at the write position is invisible until it moves on; then the byte is the newest. */
  lemma RingPush(buf: seq<Byte>, r: nat, w: nat, b: Byte)
    requires |buf| == 8 && r < 8 && w < 8
    ensures var next := (w + 1) % 8;
            && RingQueue(buf[w := b], r, w) == RingQueue(buf, r, w)
            && (next != r ==> RingQueue(buf[w := b], r, next) == RingQueue(buf, r, w) + [b])
            && (next == r <==> |RingQueue(buf, r, w)| == CAPACITY)
  {
    var buf' := buf[w := b];
    assert RingQueue(buf', r, w) == RingQueue(buf, r, w);
    var next := (w + 1) % 8;
    if next != r {
      assert RingQueue(buf', r, next) == RingQueue(buf, r, w) + [b];
    }
  }

  /** A pair of positions in one byte, the read position high. */
  function Packed(r: nat, w: nat): (pos: Byte)
    requires r < 8 && w < 8
    ensures pos / 16 == r && pos % 16 == w
  {
    r * 16 + w
  }

  lemma RingEmpty(buf: seq<Byte>, r: nat)
    requires |buf| == 8 && r < 8
    ensures RingQueue(buf, r, r) == []
  {
  }

  lemma RingPop(buf: seq<Byte>, r: nat, w: nat)
    requires |buf| == 8 && r < 8 && w < 8 && r != w
    ensures var q := RingQueue(buf, r, w);
            && q != [] && q[0] == buf[r] && RingQueue(buf, (r + 1) % 8, w) == q[1..]
            && ((r + 1) % 8 == w <==> |q| == 1)
  {
    hide RingQueue;
    if r < w {
      PopAhead(buf, r, w);
    } else if r < 7 {
      PopBehind(buf, r, w);
    } else {
      PopLast(buf, w);
    }
  }

  lemma PopAhead(buf: seq<Byte>, r: nat, w: nat)
    requires |buf| == 8 && r < w < 8
    ensures RingQueue(buf, r, w) == [buf[r]] + RingQueue(buf, r + 1, w) && |RingQueue(buf, r, w)| == w - r
  {
  }

  lemma PopBehind(buf: seq<Byte>, r: nat, w: nat)
    requires |buf| == 8 && w < r < 7
    ensures RingQueue(buf, r, w) == [buf[r]] + RingQueue(buf, r + 1, w) && |RingQueue(buf, r, w)| == w + 8 - r
  {
    Associate([buf[r]], buf[r + 1..], buf[..w]);
    assert [buf[r]] + buf[r + 1..] == buf[r..];
  }

  lemma PopLast(buf: seq<Byte>, w: nat)
    requires |buf| == 8 && w < 7
    ensures RingQueue(buf, 7, w) == [buf[7]] + RingQueue(buf, 0, w) && |RingQueue(buf, 7, w)| == w + 1
  {
    assert buf[7..] == [buf[7]] && buf[..w] == buf[0..w];
  }

  // ---------------------------------------------------------------- the chip

  class Chip {
    const table: DiffTable
    var playing: bool
    var recording: bool
    var dataIn: Byte
    var nibbleShift: nat
    const dataBuf: array<Byte>
    /** Read position in the high nibble, write position in the low one. */
    var dataBufPos: Byte
    var dataEmpty: Byte
    var lastSmpl: int
    var signal: int
    var step: int

    /** The bytes accepted and the bytes loaded into dataIn since the last reset or start of play. */
    ghost var accepted: seq<Byte>
    ghost var loaded: seq<Byte>

    ghost predicate Valid()
      reads this, dataBuf
    {
      Ring() && FifoOk(View()) && accepted == loaded + Queue()
    }

    /** Both positions in 0..7, and different exactly while a byte is waiting. */
    ghost predicate Ring()
      reads this
    {
      && dataBuf.Length == 8 && dataBufPos / 16 < 8 && dataBufPos % 16 < 8
      && (dataBufPos / 16 == dataBufPos % 16 <==> dataEmpty >= 1)
    }

    /** The waiting bytes, oldest first. */
    ghost function Queue(): seq<Byte>
      requires Ring()
      reads this, dataBuf
    {
      RingQueue(dataBuf[..], dataBufPos / 16, dataBufPos % 16)
    }

    ghost function View(): Fifo
      requires Ring()
      reads this, dataBuf
    {
      Fifo(Queue(), dataEmpty, dataIn, nibbleShift, Decoder(signal, step), lastSmpl)
    }

    /** okim6258_reset; nibble_shift and last_smpl are not touched. */
    method Reset()
      requires dataBuf.Length == 8 && (nibbleShift == 0 || nibbleShift == 4)
      modifies this, dataBuf
      ensures Valid() && !playing && !recording
      ensures View() == Fifo([], 0xff, 0, old(nibbleShift), Decoder(-2, 0), old(lastSmpl))
      ensures accepted == loaded == []
    {
      signal, step := -2, 0;
      playing, recording := false, false;
      dataIn := 0;
      dataBuf[0], dataBuf[1] := 0, 0;
      dataBufPos := 0;
      dataEmpty := 0xff;
      accepted, loaded := [], [];
    }

    /** okim6258_data_w */
    method DataW(data: Byte)
      requires Valid()
      modifies `dataBufPos, `dataEmpty, `accepted, dataBuf
      ensures Valid()
      ensures View() == Offer(old(View()), data)
      ensures accepted == old(accepted) + (if |old(Queue())| < CAPACITY then [data] else [])
    {
      hide RingQueue, DecoderOk;
      ghost var q := Queue();
      RingEmpty(dataBuf[..], dataBufPos / 16);
      RingEmpty(dataBuf[..], 0);
      if dataEmpty >= 2 {
        dataBufPos := 0;
      }
      var r, w := dataBufPos / 16, dataBufPos % 16;
      assert RingQueue(dataBuf[..], r, w) == q;
      Store(w, data, r);
      // += 1, &= 0xf7
      var next := (w + 1) % 8;
      dataBufPos := Packed(r, next);
      if r == next {
        dataBufPos := Packed(r, w);
      }
      dataEmpty := 0;
      accepted := accepted + if |q| < CAPACITY then [data] else [];
      assert Queue() == if |q| < CAPACITY then q + [data] else q;
    }

    method Store(w: nat, data: Byte, ghost r: nat)
      requires dataBuf.Length == 8 && r < 8 && w < 8
      modifies dataBuf
      ensures var q, next := RingQueue(old(dataBuf[..]), r, w), (w + 1) % 8;
              && RingQueue(dataBuf[..], r, w) == q
              && (next != r ==> RingQueue(dataBuf[..], r, next) == q + [data])
              && (next == r <==> |q| == CAPACITY)
    {
      hide RingQueue;
      RingPush(dataBuf[..], r, w, data);
      ghost var buf := dataBuf[..];
      dataBuf[w] := data;
      assert dataBuf[..] == buf[w := data];
    }

    /** okim6258_ctrl_w: bit 0 stops, bit 1 plays, bit 2 records. */
    method CtrlW(data: Byte)
      requires Valid()
      modifies `playing, `recording, `signal, `step, `nibbleShift, `dataBufPos, `dataEmpty, `accepted, `loaded, dataBuf
      ensures Valid()
      ensures playing == (data % 2 == 0 && data / 2 % 2 == 1)
      ensures recording == (data % 2 == 0 && data / 4 % 2 == 1)
      ensures View() ==
              if !playing then old(View())
              else if old(playing) then old(View()).(shift := 0, d := old(View()).d.(step := 0))
              else old(View()).(queue := [data], empty := 0, shift := 0, d := Decoder(-2, 0))
      ensures (accepted, loaded) ==
              if playing && !old(playing) then ([data], []) else (old(accepted), old(loaded))
    {
      hide RingQueue;
      if data % 2 == 1 {
        playing, recording := false, false;
        return;
      }
      if data / 2 % 2 == 1 {
        if !playing {
          StartPlay(data);
        }
        step, nibbleShift := 0, 0;
      } else {
        playing := false;
      }
      recording := data / 4 % 2 == 1;
    }

    /** okim6258.c:313-323: the command byte itself is the first byte in the queue. */
    method StartPlay(data: Byte)
      requires Valid() && !playing
      modifies `playing, `signal, `step, `nibbleShift, `dataBufPos, `dataEmpty, `accepted, `loaded, dataBuf
      ensures Valid() && playing && accepted == [data] && loaded == []
      ensures View() == old(View()).(queue := [data], empty := 0, shift := 0, d := Decoder(-2, 0))
    {
      hide RingQueue;
      playing := true;
      signal, step, nibbleShift := -2, 0, 0;
      RingEmpty(dataBuf[..], 0);
      Store(0, data, 0);
      dataBufPos := Packed(0, 1);
      dataEmpty := 0;
      accepted, loaded := [data], [];
    }

    /** okim6258_update without the pan masks: silence when not playing. */
    method Update(samples: nat) returns (out: seq<int>)
      requires Valid()
      modifies `dataIn, `nibbleShift, `dataBufPos, `dataEmpty, `lastSmpl, `signal, `step, `loaded
      ensures Valid()
      ensures playing ==> View() == Playing(table, old(View()), samples) && out == Heard(table, old(View()), samples)
      ensures playing ==> loaded == old(loaded) + Taken(table, old(View()), samples)
      ensures !playing ==> View() == old(View()) && loaded == old(loaded) && out == seq(samples, i => 0)
    {
      hide Play, RingQueue, FifoOk, Playing, Heard, Taken, Front;
      if !playing {
        out := seq(samples, i => 0);
        return;
      }
      ghost var f := View();
      out := [];
      for i := 0 to samples
        invariant Valid()
        invariant Playing(table, View(), samples - i) == Playing(table, f, samples)
        invariant out + Heard(table, View(), samples - i) == Heard(table, f, samples)
        invariant loaded + Taken(table, View(), samples - i) == old(loaded) + Taken(table, f, samples)
      {
        OnePlayed(table, View(), samples - i);
        ghost var before, taken := loaded, Front(View());
        var sample := PlayOne();
        Associate(out, [sample], Heard(table, View(), samples - i - 1));
        Associate(before, taken, Taken(table, View(), samples - i - 1));
        out := out + [sample];
      }
      NonePlayed(table, View());
    }

    /** The body of the sample loop. */
    method PlayOne() returns (sample: int)
      requires Valid()
      modifies `dataIn, `nibbleShift, `dataBufPos, `dataEmpty, `lastSmpl, `signal, `step, `loaded
      ensures Valid()
      ensures View() == Play(table, old(View())) && sample == View().lastSmpl
      ensures loaded == old(loaded) + Front(old(View()))
    {
      hide RingQueue, FifoOk, Fetch, Sound;
      if nibbleShift == 0 {
        FetchByte();
      }
      var nibble := if nibbleShift == 0 then dataIn % 16 else dataIn / 16;
      PutOut(nibble);
      sample := lastSmpl;
    }

    /** okim6258.c:140-155: a sample is decoded, or the signal fades when bytes are missing. */
    method PutOut(nibble: nat)
      requires Valid() && nibble < 16
      modifies `nibbleShift, `dataEmpty, `lastSmpl, `signal, `step
      ensures Valid() && View() == Sound(table, old(View()), nibble)
    {
      hide RingQueue;
      if dataEmpty < 2 {
        ClockAdpcm(nibble);
        lastSmpl := signal * 8;
      } else if dataEmpty >= 3 {
        dataEmpty := dataEmpty - 1;
        signal := Decay(signal);
        lastSmpl := signal * 16;
      }
      nibbleShift := 4 - nibbleShift;
    }

    /** okim6258.c:127-139 */
    method FetchByte()
      requires Valid()
      modifies `dataIn, `dataBufPos, `dataEmpty, `loaded
      ensures Valid()
      ensures View() == Fetch(old(View()))
      ensures loaded == old(loaded) + (if old(Queue()) != [] then [old(Queue())[0]] else [])
    {
      hide RingQueue, DecoderOk;
      if dataEmpty == 0 {
        var r, w := dataBufPos / 16, dataBufPos % 16;
        dataIn := dataBuf[r];
        ghost var q := Queue();
        RingPop(dataBuf[..], r, w);
        // += 0x10, &= 0x7f
        dataBufPos := Packed((r + 1) % 8, w);
        if (r + 1) % 8 == w {
          dataEmpty := dataEmpty + 1;
        }
        loaded := loaded + [q[0]];
      } else if dataEmpty < 0x80 {
        dataEmpty := dataEmpty + 1;
      }
    }

    /** clock_adpcm */
    method ClockAdpcm(nibble: nat)
      requires DecoderOk(Decoder(signal, step)) && nibble < 16
      modifies `signal, `step
      ensures Decoder(signal, step) == Clock(table, old(Decoder(signal, step)), nibble)
    {
      var max, min := OUTPUT_MASK - 1, -OUTPUT_MASK;
      signal := (table[step * 16 + nibble] * 256 + signal * 245) / 256;
      if signal > max {
        signal := max;
      } else if signal < min {
        signal := min;
      }
      step := step + IndexShift(nibble % 8);
      if step > 48 {
        step := 48;
      } else if step < 0 {
        step := 0;
      }
    }

    /** What the chip and its outputs stand for: the queue it refines, and everything since the reset. */
    ghost predicate Stands(h: History)
      reads this, dataBuf
    {
      Valid() && h == History(View(), playing, recording, accepted, loaded)
    }

    /** One command in place. */
    method Perform(c: Command) returns (out: seq<int>)
      requires Valid()
      modifies this, dataBuf
      ensures Stands(Obey(table, old(History(View(), playing, recording, accepted, loaded)), c))
      ensures out == Output(table, old(History(View(), playing, recording, accepted, loaded)), c)
    {
      hide RingQueue, Offer, Playing, Taken, Heard, FifoOk, Ring;
      out := [];
      match c
      case Data(b) => DataW(b);
      case Control(b) => CtrlW(b);
      case Samples(n) => out := Update(n);
    }

    /**
     Any run from reset is the run of a bounded queue: the same queue, decoder, accepted and loaded
     bytes, and the same samples put out.
     */
    method Run(commands: seq<Command>) returns (out: seq<int>)
      requires dataBuf.Length == 8 && (nibbleShift == 0 || nibbleShift == 4)
      modifies this, dataBuf
      ensures Stands(HistoryOf(table, AtReset(old(nibbleShift), old(lastSmpl)), commands))
      ensures out == OutputOf(table, AtReset(old(nibbleShift), old(lastSmpl)), commands)
    {
      hide Obey, Output, Valid, Stands;
      ghost var h0 := AtReset(nibbleShift, lastSmpl);
      Reset();
      out := [];
      StandsAtReset(h0);
      for i := 0 to |commands|
        invariant Stands(HistoryOf(table, h0, commands[..i]))
        invariant out == OutputOf(table, h0, commands[..i])
      {
        assert commands[..i + 1][..i] == commands[..i];
        ghost var h := HistoryOf(table, h0, commands[..i]);
        StandsFor(h);
        var samples := Perform(commands[i]);
        out := out + samples;
      }
      assert commands[..|commands|] == commands;
    }

    lemma StandsAtReset(h: History)
      requires Valid() && !playing && !recording && accepted == loaded == []
      requires h == AtReset(nibbleShift, lastSmpl) && View() == h.f
      ensures Stands(h)
    {
    }

    lemma StandsFor(h: History)
      requires Stands(h)
      ensures Valid() && h == History(View(), playing, recording, accepted, loaded)
    {
    }
  }

  // ---------------------------------------------------------------- runs of the queue

  datatype Command = Data(b: Byte) | Control(b: Byte) | Samples(n: nat)

  /** The queue, what the chip is doing, and the bytes accepted and loaded since the reset or the last start of play. */
  datatype History = History(f: Fifo, playing: bool, recording: bool, accepted: seq<Byte>, loaded: seq<Byte>)

  function AtReset(shift: nat, lastSmpl: int): History {
    History(Fifo([], 0xff, 0, shift, Decoder(-2, 0), lastSmpl), false, false, [], [])
  }

  /** One command to the queue. */
  function Obey(t: DiffTable, h: History, c: Command): (h': History)
    requires FifoOk(h.f)
    ensures FifoOk(h'.f)
  {
    match c
    case Data(b) =>
      h.(f := Offer(h.f, b), accepted := if |h.f.queue| < CAPACITY then h.accepted + [b] else h.accepted)
    case Control(b) =>
      if b % 2 == 1 then h.(playing := false, recording := false)
      else if b / 2 % 2 == 0 then h.(playing := false, recording := b / 4 % 2 == 1)
      else if h.playing then h.(f := h.f.(shift := 0, d := h.f.d.(step := 0)), recording := b / 4 % 2 == 1)
      else
        History(h.f.(queue := [b], empty := 0, shift := 0, d := Decoder(-2, 0)), true, b / 4 % 2 == 1, [b], [])
    case Samples(n) =>
      if h.playing then h.(f := Playing(t, h.f, n), loaded := h.loaded + Taken(t, h.f, n)) else h
  }

  /** The samples a command puts out. */
  function Output(t: DiffTable, h: History, c: Command): seq<int>
    requires FifoOk(h.f)
  {
    if !c.Samples? then [] else if h.playing then Heard(t, h.f, c.n) else seq(c.n, i => 0)
  }

  function HistoryOf(t: DiffTable, h: History, commands: seq<Command>): (h': History)
    requires FifoOk(h.f)
    ensures FifoOk(h'.f)
  {
    if commands == [] then h
    else Obey(t, HistoryOf(t, h, commands[..|commands| - 1]), commands[|commands| - 1])
  }

  function OutputOf(t: DiffTable, h: History, commands: seq<Command>): seq<int>
    requires FifoOk(h.f)
  {
    if commands == [] then []
    else
      OutputOf(t, h, commands[..|commands| - 1])
      + Output(t, HistoryOf(t, h, commands[..|commands| - 1]), commands[|commands| - 1])
  }

  /**
   In every run the bytes loaded are the bytes accepted, in order, but for at most seven that are
   waiting in the queue; signal and step stay in range.
   */
  lemma {:induction false} LoadedInOrder(t: DiffTable, h: History, commands: seq<Command>)
    requires FifoOk(h.f) && h.accepted == h.loaded + h.f.queue
    ensures var r := HistoryOf(t, h, commands);
            && r.accepted == r.loaded + r.f.queue && |r.f.queue| <= CAPACITY && DecoderOk(r.f.d)
    decreases |commands|
  {
    hide Playing, Taken;
    if commands != [] {
      var last := commands[|commands| - 1];
      LoadedInOrder(t, h, commands[..|commands| - 1]);
      var g := HistoryOf(t, h, commands[..|commands| - 1]);
      if last.Samples? {
        TakenInOrder(t, g.f, last.n);
      }
    }
  }
}
