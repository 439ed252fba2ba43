/** What the decoder of the OKIM6258 does to its two numbers, and what is heard of the bytes that wait. */
module Okim6258Laws {
  import opened Okim6258

  function Least(a: int, b: int): int { if a < b then a else b }

  function Most(a: int, b: int): int { if a > b then a else b }

  // ---------------------------------------------------------------- one nibble

  /** The low three bits 0 to 3 lower the step by one, 4 to 7 raise it by 2, 4, 6 and 8; it stays in 0..48. */
  lemma StepLaw(t: DiffTable, d: Decoder, nibble: nat)
    requires DecoderOk(d) && nibble < 16
    ensures var low, step := nibble % 8, Clock(t, d, nibble).step;
            && (low < 4 ==> step == Most(0, d.step - 1))
            && (low >= 4 ==> step == Least(48, d.step + 2 * (low - 3)))
  {
  }

  /** The signal is the difference and 245/256 of the signal before, rounded down, within 12 bits. */
  lemma SignalLaw(t: DiffTable, d: Decoder, nibble: nat)
    requires DecoderOk(d) && nibble < 16
    ensures var x, signal := 256 * t[16 * d.step + nibble] + 245 * d.signal, Clock(t, d, nibble).signal;
            if x >= 256 * 2048 then signal == 2047
            else if x < 256 * -2048 then signal == -2048
            else 256 * signal <= x < 256 * signal + 256
  {
  }

  /** A starved signal loses a sixteenth, rounded toward zero. */
  lemma DecayLaw(signal: int)
    ensures signal >= 0 ==> 16 * Decay(signal) <= 15 * signal < 16 * Decay(signal) + 16
    ensures Decay(-signal) == -Decay(signal)
  {
  }

  // ---------------------------------------------------------------- runs of nibbles

  function Clocks(t: DiffTable, d: Decoder, nibble: nat, k: nat): (r: Decoder)
    requires DecoderOk(d) && nibble < 16
    ensures DecoderOk(r)
  {
    if k == 0 then d else Clock(t, Clocks(t, d, nibble, k - 1), nibble)
  }

  /** Full-scale nibbles raise the step by eight each up to 48. */
  lemma {:induction false} SevensRise(t: DiffTable, d: Decoder, k: nat)
    requires DecoderOk(d)
    ensures Clocks(t, d, 7, k).step == Least(48, d.step + 8 * k)
    ensures Clocks(t, d, 15, k).step == Least(48, d.step + 8 * k)
  {
    hide Clock;
    if k > 0 {
      SevensRise(t, d, k - 1);
      StepLaw(t, Clocks(t, d, 7, k - 1), 7);
      StepLaw(t, Clocks(t, d, 15, k - 1), 15);
    }
  }

  /** Small nibbles lower it by one each down to 0. */
  lemma {:induction false} SmallFall(t: DiffTable, d: Decoder, nibble: nat, k: nat)
    requires DecoderOk(d) && nibble < 16 && nibble % 8 < 4
    ensures Clocks(t, d, nibble, k).step == Most(0, d.step - k)
  {
    hide Clock;
    if k > 0 {
      SmallFall(t, d, nibble, k - 1);
      StepLaw(t, Clocks(t, d, nibble, k - 1), nibble);
    }
  }

  // ---------------------------------------------------------------- what is heard

  /** The samples of a run of bytes: each as its low nibble and then its high one, eight times the signal. */
  function Decoded(t: DiffTable, d: Decoder, bytes: seq<Byte>): seq<int>
    requires DecoderOk(d)
    decreases |bytes|
  {
    if bytes == [] then []
    else
      var d1 := Clock(t, d, bytes[0] % 16);
      var d2 := Clock(t, d1, bytes[0] / 16);
      [8 * d1.signal, 8 * d2.signal] + Decoded(t, d2, bytes[1..])
  }

  lemma TwoPlayed(t: DiffTable, f: Fifo, n: nat)
    requires FifoOk(f) && n >= 2
    ensures var g := Playing(t, f, 2);
            Heard(t, f, n) == Heard(t, f, 2) + Heard(t, g, n - 2) && Playing(t, f, n) == Playing(t, g, n - 2)
  {
    hide Play;
    var f1 := Play(t, f);
    OnePlayed(t, f, n);
    OnePlayed(t, f1, n - 1);
    OnePlayed(t, f, 2);
    OnePlayed(t, f1, 1);
    NonePlayed(t, Play(t, f1));
  }

  /** Everything that waits is heard in order, two samples to the byte. */
  lemma {:induction false} QueueIsHeard(t: DiffTable, f: Fifo)
    requires FifoOk(f) && f.shift == 0
    ensures Heard(t, f, 2 * |f.queue|) == Decoded(t, f.d, f.queue)
    ensures var g := Playing(t, f, 2 * |f.queue|); g.queue == [] && g.shift == 0
    decreases |f.queue|
  {
    hide Clock, Play, Heard, Playing, FifoOk;
    if f.queue == [] {
      NonePlayed(t, f);
    } else {
      ByteIsHeard(t, f);
      TwoPlayed(t, f, 2 * |f.queue|);
      QueueIsHeard(t, Playing(t, f, 2));
    }
  }

  lemma ByteIsHeard(t: DiffTable, f: Fifo)
    requires FifoOk(f) && f.shift == 0 && f.queue != []
    ensures DecoderOk(f.d)
    ensures var d1 := Clock(t, f.d, f.queue[0] % 16);
            var d2, g := Clock(t, d1, f.queue[0] / 16), Playing(t, f, 2);
            && Heard(t, f, 2) == [8 * d1.signal, 8 * d2.signal] && g.d == d2 && g.queue == f.queue[1..] && g.shift == 0
  {
    hide Clock;
    LowNibbleFirst(t, f);
    assert Playing(t, f, 2) == Play(t, Play(t, f)) by {
      OnePlayed(t, f, 2);
      OnePlayed(t, Play(t, f), 1);
      NonePlayed(t, Play(t, Play(t, f)));
    }
  }

  /** A starved signal, each value twice. */
  function Faded(signal: int, k: nat): seq<int>
    decreases k
  {
    if k == 0 then [] else [16 * Decay(signal), 16 * Decay(signal)] + Faded(Decay(signal), k - 1)
  }

  /** When a byte has been missing for two samples the signal fades at every other sample. */
  lemma {:induction false} StarvedFades(t: DiffTable, f: Fifo, k: nat)
    requires FifoOk(f) && f.shift == 0 && f.empty == 2
    ensures Heard(t, f, 2 * k) == Faded(f.d.signal, k)
    decreases k
  {
    hide Clock, Play, Heard, Playing, Decay, FifoOk;
    if k == 0 {
      NonePlayed(t, f);
    } else {
      PairFades(t, f);
      TwoPlayed(t, f, 2 * k);
      StarvedFades(t, Playing(t, f, 2), k - 1);
    }
  }

  lemma PairFades(t: DiffTable, f: Fifo)
    requires FifoOk(f) && f.shift == 0 && f.empty == 2
    ensures var g, s := Playing(t, f, 2), Decay(f.d.signal);
            && Heard(t, f, 2) == [16 * s, 16 * s] && g.empty == 2 && g.shift == 0 && g.d.signal == s
  {
    hide Clock, Decay;
    var f1 := Play(t, f);
    OnePlayed(t, f, 2);
    OnePlayed(t, f1, 1);
    NonePlayed(t, Play(t, f1));
  }

  /** The pair before, when the last byte has just gone, repeats the last sample. */
  lemma FirstGap(t: DiffTable, f: Fifo)
    requires FifoOk(f) && f.shift == 0 && f.empty == 1
    ensures var g := Playing(t, f, 2); Heard(t, f, 2) == [f.lastSmpl, f.lastSmpl] && g == f.(empty := 2)
  {
    hide Clock;
    var f1 := Play(t, f);
    OnePlayed(t, f, 2);
    OnePlayed(t, f1, 1);
    NonePlayed(t, Play(t, f1));
  }

  // ---------------------------------------------------------------- the commands

  function OfferAll(f: Fifo, bytes: seq<Byte>): Fifo {
    if bytes == [] then f else Offer(OfferAll(f, bytes[..|bytes| - 1]), bytes[|bytes| - 1])
  }

  /** Of any number of bytes offered the first ones wait, seven at most. */
  lemma {:induction false} FirstSevenWait(f: Fifo, bytes: seq<Byte>)
    requires FifoOk(f)
    ensures OfferAll(f, bytes).queue == (f.queue + bytes)[..Least(7, |f.queue| + |bytes|)]
    decreases |bytes|
  {
    if bytes != [] {
      FirstSevenWait(f, bytes[..|bytes| - 1]);
    }
  }

  /** Bit 0 stops, bit 1 plays and bit 2 records; a stop overrides both. */
  lemma ControlFields(t: DiffTable, h: History, stop: nat, play: nat, record: nat, rest: nat)
    requires FifoOk(h.f) && stop < 2 && play < 2 && record < 2 && rest < 32
    ensures var r := Obey(t, h, Control(stop + 2 * play + 4 * record + 8 * rest));
            r.playing == (stop == 0 && play == 1) && r.recording == (stop == 0 && record == 1)
  {
  }

  /** Playing again while playing keeps the queue and the signal, and begins with a low nibble at step 0. */
  lemma PlayAgain(t: DiffTable, h: History, data: Byte)
    requires FifoOk(h.f) && h.playing && data % 2 == 0 && data / 2 % 2 == 1
    ensures var r := Obey(t, h, Control(data));
            r == h.(f := h.f.(shift := 0, d := Decoder(h.f.d.signal, 0)), recording := data / 4 % 2 == 1)
  {
  }

  /** From a reset the command that starts to play is heard as the first byte, from a signal of -2 and a step of 0. */
  lemma CommandIsHeard(t: DiffTable, shift: nat, last: int, data: Byte)
    requires (shift == 0 || shift == 4) && data % 2 == 0 && data / 2 % 2 == 1
    ensures OutputOf(t, AtReset(shift, last), [Control(data), Samples(2)]) == Decoded(t, Decoder(-2, 0), [data])
  {
    hide Clock, Play, Heard, Playing;
    var h, commands := AtReset(shift, last), [Control(data), Samples(2)];
    assert commands[..1] == [Control(data)] && [Control(data)][..0] == [];
    var g := Obey(t, h, Control(data));
    assert HistoryOf(t, h, [Control(data)]) == g by { assert HistoryOf(t, h, []) == h; }
    assert OutputOf(t, h, [Control(data)]) == [];
    assert OutputOf(t, h, commands) == Heard(t, g.f, 2);
    assert g.f.queue == [data];
    QueueIsHeard(t, g.f);
  }
}
