/** vgm.c: the VGM log writer, against a reader of the VGM 1.51 command list. */
module Vgm {
  type Byte = x: int | 0 <= x < 0x100

  datatype ChipId = Ym2151 | Ay8910 | Okim6258

  /** A chip write at a sample time. */
  datatype Event = Event(chip: ChipId, reg: Byte, data: Byte, time: int)

  // ---------------------------------------------------------------- reading a log

  /** The first command of a stream, by the VGM 1.51 command list. */
  datatype Command = Unknown | Pause(samples: nat, length: nat) | Chip(id: ChipId, reg: Byte, data: Byte)

  function Head(s: seq<Byte>): (c: Command)
    requires s != []
    ensures c.Pause? ==> 1 <= c.length <= |s|
    ensures c.Chip? ==> 3 <= |s|
  {
    if s[0] == 0x62 then Pause(735, 1)
    else if s[0] == 0x63 then Pause(882, 1)
    else if 0x70 <= s[0] <= 0x7f then Pause(s[0] - 0x70 + 1, 1)
    else if |s| < 3 then Unknown
    else if s[0] == 0x61 then Pause(s[1] as int + 0x100 * s[2] as int, 3)
    else if s[0] == 0x54 then Chip(Ym2151, s[1], s[2])
    else if s[0] == 0xa0 then Chip(Ay8910, s[1], s[2])
    else if s[0] == 0xb7 then Chip(Okim6258, s[1], s[2])
    else Unknown
  }

  /** What a player makes of a stream of commands: the writes with their times, and the end time. */
  datatype Reading = Bad | Read(events: seq<Event>, end: int)

  /** Playing a stream with the clock at t. */
  function Decode(s: seq<Byte>, t: int): Reading
    decreases |s|
  {
    if s == [] then Read([], t)
    else
      match Head(s)
      case Unknown => Bad
      case Pause(n, length) => Decode(s[length..], t + n)
      case Chip(id, reg, data) =>
        var rest := Decode(s[3..], t);
        if rest.Bad? then Bad else Read([Event(id, reg, data, t)] + rest.events, rest.end)
  }

  /** Any other first byte is no command of these. */
  lemma OtherCommands(s: seq<Byte>)
    requires s != [] && s[0] !in {0x54, 0x61, 0x62, 0x63, 0xa0, 0xb7} && !(0x70 <= s[0] < 0x80)
    ensures Head(s) == Unknown
  {
  }

  /** Reading goes on where it stopped. */
  lemma {:induction false} DecodeAppend(a: seq<Byte>, b: seq<Byte>, t: int)
    requires Decode(a, t).Read?
    ensures var r := Decode(a, t);
            var r' := Decode(b, r.end);
            Decode(a + b, t) == if r'.Bad? then Bad else Read(r.events + r'.events, r'.end)
    decreases |a|
  {
    hide Head;
    var ab := a + b;
    if a == [] {
      assert ab == b;
    } else {
      HeadAppend(a, b);
      match Head(a)
      case Pause(n, length) =>
        assert ab[length..] == a[length..] + b;
        DecodeAppend(a[length..], b, t + n);
      case Chip(id, reg, data) =>
        assert ab[3..] == a[3..] + b;
        DecodeAppend(a[3..], b, t);
        Associate([Event(id, reg, data, t)], Decode(a[3..], t).events, b, Decode(a[3..], t).end);
    }
  }

  lemma Associate(e: seq<Event>, es: seq<Event>, b: seq<Byte>, t: int)
    ensures var r := Decode(b, t); r.Read? ==> e + (es + r.events) == (e + es) + r.events
  {
  }

  lemma HeadAppend(a: seq<Byte>, b: seq<Byte>)
    requires a != [] && Head(a) != Unknown
    ensures Head(a + b) == Head(a)
  {
  }

  // ---------------------------------------------------------------- what was asked for

  /** A program's calls: a wait, or one of the three chip-write wrappers. */
  datatype Call = Wait(samples: int) | Write(chip: ChipId, reg: Byte, data: Byte)

  /** The log the calls stand for: `time` counts the samples waited before the last write, `pending` those since. */
  datatype Expected = Expected(events: seq<Event>, time: int, pending: int)

  function After(e: Expected, c: Call): Expected {
    match c
    case Wait(n) => e.(pending := e.pending + n)
    case Write(chip, reg, data) =>
      var now := e.time + (if e.pending > 0 then e.pending else 0);
      Expected(e.events + [Event(chip, reg, data, now)], now, 0)
  }

  function ExpectedOf(calls: seq<Call>): Expected {
    if calls == [] then Expected([], 0, 0)
    else After(ExpectedOf(calls[..|calls| - 1]), calls[|calls| - 1])
  }

  /** The samples waited in all. */
  function TotalWait(calls: seq<Call>): int {
    if calls == [] then 0
    else
      var last := calls[|calls| - 1];
      TotalWait(calls[..|calls| - 1]) + (if last.Wait? then last.samples else 0)
  }

  ghost predicate NonNegative(calls: seq<Call>) {
    forall i :: 0 <= i < |calls| && calls[i].Wait? ==> 0 <= calls[i].samples
  }

  /** With no negative wait nothing is lost: time and pending add up to all that was waited. */
  lemma {:induction false} NothingLost(calls: seq<Call>)
    requires NonNegative(calls)
    ensures var e := ExpectedOf(calls); 0 <= e.pending && e.time + e.pending == TotalWait(calls)
    decreases |calls|
  {
    if calls != [] {
      NothingLost(calls[..|calls| - 1]);
    }
  }

  /**
   The log holds exactly the writes, in order: the write made by call i is event number
   Writes(calls[..i]), at the number of samples waited before it.
   */
  lemma {:induction false} WritesAtTheirTimes(calls: seq<Call>)
    requires NonNegative(calls)
    ensures var events := ExpectedOf(calls).events;
            && |events| == Writes(calls)
            && forall i :: 0 <= i < |calls| && calls[i].Write? ==>
                 Writes(calls[..i]) < |events| &&
                 events[Writes(calls[..i])] == Event(calls[i].chip, calls[i].reg, calls[i].data, TotalWait(calls[..i]))
    decreases |calls|
  {
    if calls != [] {
      var front := calls[..|calls| - 1];
      WritesAtTheirTimes(front);
      NothingLost(front);
      forall i | 0 <= i < |calls| && calls[i].Write?
        ensures Writes(calls[..i]) < |ExpectedOf(calls).events| &&
                ExpectedOf(calls).events[Writes(calls[..i])]
                == Event(calls[i].chip, calls[i].reg, calls[i].data, TotalWait(calls[..i]))
      {
        if i < |front| {
          assert front[..i] == calls[..i] && front[i] == calls[i];
        } else {
          assert calls[..i] == front;
        }
      }
    }
  }

  function Writes(calls: seq<Call>): nat {
    if calls == [] then 0
    else Writes(calls[..|calls| - 1]) + (if calls[|calls| - 1].Write? then 1 else 0)
  }

  // ---------------------------------------------------------------- the logger

  const INT_MAX: int := 0x7fff_ffff

  /** struct vgm_logger; `f` is what has been written after the header. */
  class Logger {
    var f: seq<Byte>
    var lastWait: int
    var size: nat

    /** The log so far reads back as the events expected, and the rest of the waiting is pending. */
    ghost predicate Stands(e: Expected)
      reads this
    {
      Decode(f, 0) == Read(e.events, e.time) && lastWait == e.pending && size == |f|
    }

    /** vgm_logger_begin, after the header */
    constructor ()
      ensures Stands(Expected([], 0, 0))
    {
      f, lastWait, size := [], 0, 0;
    }

    /** vgm_logger_wait */
    method Wait(samples: int)
      requires -INT_MAX <= lastWait + samples <= INT_MAX
      modifies `lastWait
      ensures lastWait == old(lastWait) + samples
    {
      lastWait := lastWait + samples;
    }

    /** fwrite */
    method Emit(bytes: seq<Byte>)
      requires size == |f|
      modifies `f, `size
      ensures f == old(f) + bytes && size == |f|
    {
      f := f + bytes;
      size := size + |bytes|;
    }

    /** vgm_logger_write_wait */
    method WriteWait(samples: int)
      requires size == |f| && Decode(f, 0).Read?
      modifies `f, `size
      ensures size == |f|
      ensures Decode(f, 0) == Read(old(Decode(f, 0)).events, old(Decode(f, 0)).end + (if samples > 0 then samples else 0))
    {
      hide Head, Decode;
      if samples <= 0 {
        return;
      }
      ghost var f0 := f;
      var left := samples;
      var buf: seq<Byte>;
      if left == 735 {
        buf := [0x62];
        OneByte(0x62, Decode(f, 0).end);
      } else if left == 882 {
        buf := [0x63];
        OneByte(0x63, Decode(f, 0).end);
      } else if left <= 16 {
        buf := [0x70 + left - 1];
        OneByte(0x70 + left - 1, Decode(f, 0).end);
      } else {
        while left > 65535
          invariant 0 < left && size == |f|
          invariant Decode(f, 0) == Read(Decode(f0, 0).events, Decode(f0, 0).end + (samples - left))
        {
          LongWait(0xff, 0xff, Decode(f, 0).end);
          DecodeAppend(f, [0x61, 0xff, 0xff], 0);
          Emit([0x61, 0xff, 0xff]);
          left := left - 65535;
        }
        buf := [0x61, left % 0x100, left / 0x100];
        LongWait(left % 0x100, left / 0x100, Decode(f, 0).end);
      }
      assert Decode(buf, Decode(f, 0).end) == Read([], Decode(f, 0).end + left);
      DecodeAppend(f, buf, 0);
      Emit(buf);
    }

    /** vgm_logger_write through one of its wrappers: ay, ym2151 or okim6258. */
    method Write(chip: ChipId, reg: Byte, data: Byte)
      requires size == |f| && Decode(f, 0).Read?
      modifies this
      ensures lastWait == 0 && size == |f|
      ensures var e := After(Expected(old(Decode(f, 0)).events, old(Decode(f, 0)).end, old(lastWait)), Call.Write(chip, reg, data));
              Stands(e)
    {
      hide Head, Decode;
      var command: Byte := match chip case Ym2151 => 0x54 case Ay8910 => 0xa0 case Okim6258 => 0xb7;
      var buf := [command, reg, data];
      if lastWait != 0 {
        WriteWait(lastWait);
        lastWait := 0;
      }
      ghost var end := Decode(f, 0).end;
      DecodeAppend(f, buf, 0);
      ChipBytes(chip, command, reg, data, end);
      Emit(buf);
    }

    /** The flush of vgm_logger_end. */
    method End()
      requires size == |f| && Decode(f, 0).Read?
      modifies `f, `size
      ensures size == |f|
      ensures Decode(f, 0) == Read(old(Decode(f, 0)).events, old(Decode(f, 0)).end + (if lastWait > 0 then lastWait else 0))
    {
      if lastWait != 0 {
        WriteWait(lastWait);
      }
    }
  }

  lemma OneByte(command: Byte, t: int)
    ensures command == 0x62 ==> Decode([command], t) == Read([], t + 735)
    ensures command == 0x63 ==> Decode([command], t) == Read([], t + 882)
    ensures 0x70 <= command <= 0x7f ==> Decode([command], t) == Read([], t + (command - 0x70 + 1))
  {
    assert [command][1..] == [];
  }

  lemma ChipBytes(chip: ChipId, command: Byte, reg: Byte, data: Byte, t: int)
    requires command == match chip case Ym2151 => 0x54 case Ay8910 => 0xa0 case Okim6258 => 0xb7
    ensures Decode([command, reg, data], t) == Read([Event(chip, reg, data, t)], t)
  {
    var buf := [command, reg, data];
    assert Head(buf) == Chip(chip, reg, data);
    assert buf[3..] == [];
  }

  lemma LongWait(low: Byte, high: Byte, t: int)
    ensures Decode([0x61, low, high], t) == Read([], t + low as int + 0x100 * high as int)
  {
    assert [0x61, low, high][3..] == [];
  }

  /** Every gap fits the C int that last_wait is. */
  ghost predicate GapsFit(calls: seq<Call>) {
    forall i :: 0 <= i <= |calls| ==> -INT_MAX <= ExpectedOf(calls[..i]).pending <= INT_MAX
  }

  /**
   The round trip: reading the log of any calls gives back their writes at their times, and an end
   time that includes the final flush; at every step what is logged and what is pending add up.
   */
  method LogCalls(calls: seq<Call>) returns (log: seq<Byte>)
    requires GapsFit(calls)
    ensures var e := ExpectedOf(calls);
            Decode(log, 0) == Read(e.events, e.time + (if e.pending > 0 then e.pending else 0))
    ensures NonNegative(calls) ==> Decode(log, 0).end == TotalWait(calls)
  {
    var l := new Logger();
    for i := 0 to |calls|
      invariant fresh(l) && l.Stands(ExpectedOf(calls[..i]))
    {
      assert calls[..i + 1][..i] == calls[..i];
      assert -INT_MAX <= ExpectedOf(calls[..i + 1]).pending <= INT_MAX;
      match calls[i]
      case Wait(n) => l.Wait(n);
      case Write(chip, reg, data) => l.Write(chip, reg, data);
    }
    assert calls[..|calls|] == calls;
    l.End();
    log := l.f;
    if NonNegative(calls) {
      NothingLost(calls);
    }
  }
}
