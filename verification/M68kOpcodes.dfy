/** musashi/m68k_in.c and m68kmake.c: the table of opcode handlers and how it is built. */
module M68kOpcodes {
  import opened Arithmetic
  import opened M68k
  import opened Bits

  const SIZE: int := 0x1_0000

  /** A 16-bit opcode or mask. */
  type Opcode = x: int | 0 <= x < SIZE

  lemma Powers()
    ensures Pow2(3) == 8 && Pow2(4) == 0x10 && Pow2(6) == 0x40 && Pow2(8) == 0x100 && Pow2(9) == 0x200
            && Pow2(12) == 0x1000 && Pow2(13) == 0x2000 && Pow2(16) == SIZE
  {
    assert Pow2(10) == 0x400;
    assert Pow2(14) == 0x4000;
  }

  /** What the six masks of the later loops keep of an opcode. */
  lemma FamilyAnd(a: Opcode)
    ensures And(a, 0xff00) == a / 0x100 * 0x100 && And(a, 0xfff0) == a / 0x10 * 0x10 && And(a, 0xfff8) == a / 8 * 8
    ensures And(a, 0xffff) == a
    ensures And(a, 0xf1ff) == a / 0x1000 * 0x1000 + a % 0x200
    ensures And(a, 0xf1f8) == a / 0x1000 * 0x1000 + a % 0x200 / 8 * 8
  {
    hide And;
    HighAnd(a);
    var high, middle, low := a / 0x1000, a % 0x1000 / 0x200, a % 0x1000 % 0x200;
    assert a == high * 0x1000 + middle * 0x200 + low;
    QuotientIs(a, 0x200, high * 8 + middle, low);
    FieldAnd(high, middle, low);
  }

  lemma HighAnd(a: Opcode)
    ensures And(a, 0xff00) == a / 0x100 * 0x100 && And(a, 0xfff0) == a / 0x10 * 0x10 && And(a, 0xfff8) == a / 8 * 8
    ensures And(a, 0xffff) == a
  {
    hide And, Pow2;
    Powers();
    AndOnes(a, 16);
    AndOnes(a / 0x100, 8);
    AndSplit(a / 0x100, a % 0x100, 0xff, 0, 8);
    AndOnes(a / 0x10, 12);
    AndSplit(a / 0x10, a % 0x10, 0xfff, 0, 4);
    AndOnes(a / 8, 13);
    AndSplit(a / 8, a % 8, 0x1fff, 0, 3);
  }

  lemma FieldAnd(high: nat, middle: nat, low: nat)
    requires high < 0x10 && middle < 8 && low < 0x200
    ensures And(high * 0x1000 + middle * 0x200 + low, 0xf1ff) == high * 0x1000 + low
    ensures And(high * 0x1000 + middle * 0x200 + low, 0xf1f8) == high * 0x1000 + low / 8 * 8
  {
    hide And, Pow2;
    Powers();
    AndOnes(high, 4);
    AndOnes(low, 9);
    AndOnes(low / 8, 6);
    AndSplit(low / 8, low % 8, 0x3f, 0, 3);
    assert And(low, 0x1f8) == low / 8 * 8;
    AndSplit(middle, low, 0, 0x1ff, 9);
    AndSplit(middle, low, 0, 0x1f8, 9);
    AndSplit(high, middle * 0x200 + low, 0xf, 0x1ff, 12);
    AndSplit(high, middle * 0x200 + low, 0xf, 0x1f8, 12);
  }

  // ---------------------------------------------------------------- entries and the plain scan

  /** opcode_handler_struct, the handler by number. */
  datatype Entry = Entry(mask: Opcode, match_: Opcode, handler: nat, cycles0: byte, cycles1: byte, cycles2: byte)

  /** What m68ki_instruction_jump_table and the three m68ki_cycles tables hold for one opcode. */
  datatype Slot = Slot(handler: nat, cycles0: byte, cycles1: byte, cycles2: byte)

  const ILLEGAL := Slot(0, 0, 0, 0)

  /** The entry that closes the table. */
  const SENTINEL := Entry(0, 0, 0, 0, 0, 0)

  predicate Matches(e: Entry, opcode: Opcode) { And(opcode, e.mask) == e.match_ }

  /** A shift whose distance is in the opcode. */
  predicate IsShift(opcode: Opcode) { opcode / 0x1000 == 0xe && opcode / 0x20 % 2 == 0 }

  /** Two cycles for every position; a distance of 0 means 8. */
  function ShiftCycles(opcode: Opcode): nat { 2 * ((opcode / 0x200 % 8 + 7) % 8 + 1) }

  /** The opcode gets the entry's handler, and its cycles with so many more on the 68000 and the 68010. */
  predicate Slotted(e: Entry, opcode: Opcode, more: nat) {
    var slot := SlotOf(e, opcode);
    slot.handler == e.handler && slot.cycles2 == e.cycles2
    && slot.cycles0 == (e.cycles0 + more) % 256 && slot.cycles1 == (e.cycles1 + more) % 256
  }

  /** The shifts of line 1110 with bit 5 clear take two cycles a place, and a distance field of 0 is eight places. */
  lemma ShiftFields(e: Entry, line: nat, distance: nat, left: nat, size: nat, byRegister: nat, kind: nat, register: nat)
    requires line < 16 && distance < 8 && left < 2 && size < 4 && byRegister < 2 && kind < 4 && register < 8
    ensures var opcode := 0x1000 * line + 0x200 * distance + 0x100 * left + 0x40 * size + 0x20 * byRegister + 8 * kind
                          + register;
            && opcode < SIZE
            && Slotted(e, opcode, if e.mask == 0xf1f8 && line == 14 && byRegister == 0
                                  then if distance == 0 then 16 else 2 * distance else 0)
  {
    hide IsShift, ShiftCycles, Slotted;
    var low := 0x100 * left + 0x40 * size + 0x20 * byRegister + 8 * kind + register;
    ShiftPlaces(8 * line + distance, left, size, byRegister, 8 * kind + register);
    QuotientIs(8 * line + distance, 8, line, distance);
    SlotIs(e, 0x1000 * line + 0x200 * distance + low);
  }

  lemma ShiftPlaces(high: nat, left: nat, size: nat, byRegister: nat, low: nat)
    requires high < 0x80 && left < 2 && size < 4 && byRegister < 2 && low < 0x20
    ensures var opcode := 0x200 * high + 0x100 * left + 0x40 * size + 0x20 * byRegister + low;
            && opcode < SIZE && IsShift(opcode) == (high / 8 == 14 && byRegister == 0)
            && ShiftCycles(opcode) == if high % 8 == 0 then 16 else 2 * (high % 8)
  {
    var rest := 0x100 * left + 0x40 * size + 0x20 * byRegister + low;
    var opcode := 0x200 * high + rest;
    QuotientIs(opcode, 0x1000, high / 8, 0x200 * (high % 8) + rest);
    QuotientIs(opcode, 0x200, high, rest);
    QuotientIs(opcode, 0x20, 0x10 * high + 8 * left + 2 * size + byRegister, low);
    FieldBits(high, left, size, byRegister);
  }

  lemma SlotIs(e: Entry, opcode: Opcode)
    ensures Slotted(e, opcode, if e.mask == 0xf1f8 && IsShift(opcode) then ShiftCycles(opcode) else 0)
  {
  }

  lemma FieldBits(high: nat, left: nat, size: nat, bit: nat)
    requires bit < 2
    ensures (0x10 * high + 8 * left + 2 * size + bit) % 2 == bit
  {
  }

  /** The record an entry leaves for an opcode it matches: m68k_in.c:207-231. */
  function SlotOf(e: Entry, opcode: Opcode): Slot {
    if e.mask == 0xf1f8 && IsShift(opcode) then
      Slot(e.handler, (e.cycles0 + ShiftCycles(opcode)) % 256, (e.cycles1 + ShiftCycles(opcode)) % 256, e.cycles2)
    else
      Slot(e.handler, e.cycles0, e.cycles1, e.cycles2)
  }

  /** The record of the last entry that matches, or the illegal instruction. */
  function Scan(table: seq<Entry>, opcode: Opcode): Slot {
    if table == [] then ILLEGAL
    else if Matches(table[|table| - 1], opcode) then SlotOf(table[|table| - 1], opcode)
    else Scan(table[..|table| - 1], opcode)
  }

  // ---------------------------------------------------------------- the order of the table

  /** num_bits of m68kmake.c */
  function NumBits(mask: nat): nat {
    if mask == 0 then 0 else mask % 2 + NumBits(mask / 2)
  }

  /** compare_nof_true_bits: more bits later, then the larger mask, then the larger match. */
  predicate NotAfter(a: Entry, b: Entry) {
    if NumBits(a.mask) != NumBits(b.mask) then NumBits(a.mask) < NumBits(b.mask)
    else if a.mask != b.mask then a.mask < b.mask
    else a.match_ <= b.match_
  }

  ghost predicate Sorted(table: seq<Entry>) {
    forall i, j :: 0 <= i < j < |table| ==> NotAfter(table[i], table[j])
  }

  /** The loop of m68ki_build_opcode_table that takes a mask: 0 is the general scan. */
  function Phase(mask: Opcode): nat {
    if mask == 0xff00 then 1 else if mask == 0xf1f8 then 2 else if mask == 0xfff0 then 3
    else if mask == 0xf1ff then 4 else if mask == 0xfff8 then 5 else if mask == 0xffff then 6 else 0
  }

  predicate Early(mask: Opcode) {
    NumBits(mask) < 8 || (NumBits(mask) == 8 && mask < 0xff00)
  }

  /** No bit of the match lies outside the mask. */
  predicate Within(e: Entry) { And(e.match_, e.mask) == e.match_ }

  /**
   What the builder needs of m68kmake's entries: matches within their masks, some mask of ff00 to end
   the first loop, and after it in the order no masks but the five others it knows.
   */
  ghost predicate WellFormed(table: seq<Entry>) {
    && (forall e :: e in table ==> Within(e) && (Phase(e.mask) == 0 ==> Early(e.mask)))
    && exists e :: e in table && Phase(e.mask) == 1
  }

  ghost predicate Phased(table: seq<Entry>) {
    forall i, j :: 0 <= i < j < |table| ==> Phase(table[i].mask) <= Phase(table[j].mask)
  }

  lemma BitsUnfold(v: nat)
    ensures NumBits(v) == v % 2 + NumBits(v / 2)
  {
  }

  lemma {:induction false} BitsOfOnes(n: nat)
    ensures NumBits(Pow2(n) - 1) == n
  {
    if n > 0 {
      BitsOfOnes(n - 1);
    }
  }

  lemma {:induction false} BitsSplit(high: nat, low: nat, k: nat)
    requires low < Pow2(k)
    ensures NumBits(high * Pow2(k) + low) == NumBits(high) + NumBits(low)
  {
    hide NumBits;
    if k == 0 {
      BitsOfOnes(0);
    } else {
      BitsSplit(high, low / 2, k - 1);
      Halve(high, low, Pow2(k - 1));
      BitsUnfold(high * Pow2(k) + low);
      BitsUnfold(low);
    }
  }

  lemma FamilyBits()
    ensures NumBits(0xff00) == 8 && NumBits(0xf1f8) == 10 && NumBits(0xfff0) == 12
    ensures NumBits(0xf1ff) == 13 && NumBits(0xfff8) == 13 && NumBits(0xffff) == 16
  {
    hide NumBits, Pow2;
    Powers();
    BitsOfOnes(0);
    BitsOfOnes(4);
    BitsOfOnes(6);
    BitsOfOnes(8);
    BitsOfOnes(9);
    BitsOfOnes(12);
    BitsOfOnes(13);
    BitsOfOnes(16);
    assert Pow2(0) == 1 by {
      PowZero();
    }
    BitsSplit(0xff, 0, 8);
    BitsSplit(0xfff, 0, 4);
    BitsSplit(0x1fff, 0, 3);
    BitsSplit(0x3f, 0, 3);
    BitsSplit(0xf, 0x1f8, 12);
    BitsSplit(0xf, 0x1ff, 12);
  }

  lemma PowZero()
    ensures Pow2(0) == 1
  {
  }

  /** Sorting by the comparison of m68kmake.c puts the masks in the order of the builder's loops. */
  lemma SortedIsPhased(table: seq<Entry>)
    requires Sorted(table) && WellFormed(table)
    ensures Phased(table)
  {
    hide NumBits, NotAfter, Phase, Early, Within;
    forall i, j | 0 <= i < j < |table| ensures Phase(table[i].mask) <= Phase(table[j].mask) {
      assert table[i] in table && table[j] in table;
      PhaseOrder(table[i], table[j]);
    }
  }

  /** The masks of the first loop are those that sort before ff00. */
  lemma EarlyIff(a: Entry, b: Entry)
    requires b.mask == 0xff00 && a.mask != 0xff00
    ensures Early(a.mask) <==> NotAfter(a, b)
  {
    hide NumBits;
    FamilyBits();
  }

  lemma PhaseOrder(a: Entry, b: Entry)
    requires NotAfter(a, b) && (Phase(a.mask) == 0 ==> Early(a.mask)) && (Phase(b.mask) == 0 ==> Early(b.mask))
    ensures Phase(a.mask) <= Phase(b.mask)
  {
    hide NumBits;
    FamilyBits();
  }

  // ---------------------------------------------------------------- the last match

  /** Index of the last entry that matches, or -1. */
  function LastMatch(table: seq<Entry>, opcode: Opcode): (k: int)
    ensures -1 <= k < |table| && (k >= 0 ==> Matches(table[k], opcode))
    ensures forall i :: k < i < |table| ==> !Matches(table[i], opcode)
  {
    if table == [] then -1
    else if Matches(table[|table| - 1], opcode) then |table| - 1
    else LastMatch(table[..|table| - 1], opcode)
  }

  lemma {:induction false} ScanIsLastMatch(table: seq<Entry>, opcode: Opcode)
    ensures Scan(table, opcode)
            == if LastMatch(table, opcode) < 0 then ILLEGAL else SlotOf(table[LastMatch(table, opcode)], opcode)
  {
    hide Matches, SlotOf;
    if table != [] && !Matches(table[|table| - 1], opcode) {
      ScanIsLastMatch(table[..|table| - 1], opcode);
    }
  }

  /** In a sorted table the entry an opcode gets has no fewer mask bits than any other that matches. */
  lemma MostSpecificWins(table: seq<Entry>, opcode: Opcode, k: nat)
    requires Sorted(table) && k < |table| && Matches(table[k], opcode)
    ensures var last := LastMatch(table, opcode);
            last >= k && Scan(table, opcode) == SlotOf(table[last], opcode)
            && NumBits(table[k].mask) <= NumBits(table[last].mask)
  {
    hide NumBits, Matches, SlotOf;
    ScanIsLastMatch(table, opcode);
    var last := LastMatch(table, opcode);
    if k < last {
      assert NotAfter(table[k], table[last]);
    }
  }

  // ---------------------------------------------------------------- the fill loops

  /** The table after an entry has been entered wherever it matches. */
  ghost predicate Entered(e: Entry, before: seq<Slot>, after: seq<Slot>) {
    && |before| == |after| == SIZE
    && forall v: Opcode :: after[v] == if Matches(e, v) then SlotOf(e, v) else before[v]
  }

  /** The first loop's body: every opcode is compared with the entry. */
  method FillByScan(jump: array<Slot>, e: Entry)
    requires jump.Length == SIZE
    modifies jump
    ensures Entered(e, old(jump[..]), jump[..])
  {
    hide Matches, SlotOf;
    var i := 0;
    while i < SIZE
      invariant 0 <= i <= SIZE
      invariant forall v: Opcode ::
        jump[v] == if v < i && Matches(e, v) then SlotOf(e, v) else old(jump[v])
    {
      if Matches(e, i) {
        jump[i] := SlotOf(e, i);
      }
      i := i + 1;
    }
  }

  predicate OneField(mask: Opcode) { Phase(mask) != 0 && Phase(mask) != 2 }

  /** How many opcodes a mask of one field leaves open, and where in the opcode the field is. */
  function Count(mask: Opcode): (n: nat)
    ensures 0 < n <= 0x100
  {
    if mask == 0xff00 then 0x100 else if mask == 0xfff0 then 0x10 else if mask == 0xffff then 1 else 8
  }

  function Weight(mask: Opcode): nat { if mask == 0xf1ff then 0x200 else 1 }

  /** match | (i << shift) */
  function Member(e: Entry, i: nat): nat { Or(e.match_, i * Weight(e.mask)) }

  function Field(e: Entry, opcode: Opcode): nat {
    if e.mask == 0xf1ff then opcode / 0x200 % 8 else opcode % Count(e.mask)
  }

  /** A field that the match leaves zero: or-ing a value into it adds it. */
  lemma OrField(h: nat, l: nat, i: nat, k: nat, n: nat)
    requires l < Pow2(k) && i < Pow2(n)
    ensures var m := h * Pow2(n) * Pow2(k) + l; Or(m, i * Pow2(k)) == m + i * Pow2(k)
  {
    hide And, Or;
    AndSplit(h * Pow2(n), l, i, 0, k);
    AndSplit(h, 0, 0, i, n);
    OrIsSum(h * Pow2(n) * Pow2(k) + l, i * Pow2(k));
  }

  /** Values or-ed into the low bits of a match that leaves them zero, for the masks of one low field. */
  lemma OrLow(m: Opcode, i: nat, n: nat)
    requires i < Pow2(n) && m == m / Pow2(n) * Pow2(n)
    ensures Or(m, i) == m + i
  {
    hide And, Or;
    OrField(m / Pow2(n), 0, i, 0, n);
    PowZero();
    Reassociate(m / Pow2(n), Pow2(n));
  }

  lemma Reassociate(h: nat, p: nat)
    ensures h * p * 1 + 0 == h * p
  {
  }

  lemma LowMember(m: Opcode, count: nat, i: nat)
    requires count == 0x100 || count == 0x10 || count == 8 || count == 1
    requires i < count && m == m / count * count
    ensures (m + i) / count * count == m && (m + i) % count == i && m + i < SIZE
  {
    QuotientIs(m + i, count, m / count, i);
    if count == 0x100 {
      assert m / 0x100 < 0x100;
    } else if count == 0x10 {
      assert m / 0x10 < 0x1000;
    } else if count == 8 {
      assert m / 8 < 0x2000;
    }
  }

  /** f1ff and f1f8 matches: the register field is zero. */
  lemma RegisterMember(m: Opcode, i: nat)
    requires i < 8 && m == m / 0x1000 * 0x1000 + m % 0x200
    ensures Or(m, i * 0x200) == m + i * 0x200 < SIZE
    ensures (m + i * 0x200) / 0x1000 == m / 0x1000 && (m + i * 0x200) % 0x200 == m % 0x200
            && (m + i * 0x200) / 0x200 % 8 == i
  {
    hide And, Or, Pow2;
    var h, l := m / 0x1000, m % 0x200;
    Powers();
    OrField(h, l, i, 9, 3);
    QuotientIs(m + i * 0x200, 0x1000, h, i * 0x200 + l);
    QuotientIs(m + i * 0x200, 0x200, 8 * h + i, l);
  }

  /** The opcodes an entry of one field matches are its members, each once. */
  lemma MemberMatches(e: Entry, i: nat)
    requires OneField(e.mask) && Within(e) && i < Count(e.mask)
    ensures Member(e, i) < SIZE && Matches(e, Member(e, i)) && Field(e, Member(e, i)) == i
  {
    hide And, Or, Pow2;
    FamilyAnd(e.match_);
    Powers();
    if e.mask == 0xf1ff {
      RegisterMember(e.match_, i);
      FamilyAnd(e.match_ + i * 0x200);
    } else {
      LowMember(e.match_, Count(e.mask), i);
      FamilyAnd(e.match_ + i);
      PowZero();
      OrLow(e.match_, i, if e.mask == 0xff00 then 8 else if e.mask == 0xfff0 then 4 else if e.mask == 0xfff8 then 3 else 0);
    }
  }

  lemma Fields(v: nat)
    ensures v == v / 0x1000 * 0x1000 + v / 0x200 % 8 * 0x200 + v % 0x200
    ensures v % 0x200 == v % 0x200 / 8 * 8 + v % 8
  {
    var high, rest := v / 0x1000, v % 0x1000;
    QuotientIs(v, 0x200, high * 8 + rest / 0x200, rest % 0x200);
    QuotientIs(v, 8, v / 0x200 * 0x40 + v % 0x200 / 8, v % 0x200 % 8);
  }

  lemma MatchIsMember(e: Entry, opcode: Opcode)
    requires OneField(e.mask) && Within(e) && Matches(e, opcode)
    ensures Field(e, opcode) < Count(e.mask) && opcode == e.match_ + Field(e, opcode) * Weight(e.mask)
  {
    hide Matches, Within;
    MatchKeeps(e, opcode);
    if e.mask == 0xf1ff {
      Fields(opcode);
    } else {
      Euclid(opcode, Count(e.mask));
    }
  }

  /** The match is the opcode with its field cleared. */
  lemma MatchKeeps(e: Entry, opcode: Opcode)
    requires OneField(e.mask) && Matches(e, opcode)
    ensures e.match_ == if e.mask == 0xf1ff then opcode / 0x1000 * 0x1000 + opcode % 0x200
                        else opcode / Count(e.mask) * Count(e.mask)
  {
    hide And;
    FamilyAnd(opcode);
  }

  /** m68k_in.c:197-206 and 232-270: one field of the opcode runs through its values. */
  method FillField(jump: array<Slot>, e: Entry)
    requires jump.Length == SIZE && OneField(e.mask) && Within(e)
    modifies jump
    ensures Entered(e, old(jump[..]), jump[..])
  {
    hide Matches, SlotOf, Count, Member, Field, OneField, Within, Weight;
    var i := 0;
    while i < Count(e.mask)
      invariant 0 <= i <= Count(e.mask)
      invariant forall v: Opcode ::
        jump[v] == if Matches(e, v) && Field(e, v) < i then SlotOf(e, v) else old(jump[v])
    {
      MemberMatches(e, i);
      jump[Member(e, i)] := SlotOf(e, Member(e, i));
      OneMember(e, i);
      i := i + 1;
    }
    forall v: Opcode | Matches(e, v) ensures Field(e, v) < Count(e.mask) {
      MatchIsMember(e, v);
    }
  }

  lemma OneMember(e: Entry, i: nat)
    requires OneField(e.mask) && Within(e) && i < Count(e.mask)
    ensures forall v: Opcode :: Matches(e, v) && Field(e, v) == i ==> v == Member(e, i)
  {
    hide Matches, Member, Field, OneField, Within, Weight;
    MemberMatches(e, i);
    MatchIsMember(e, Member(e, i));
    forall v: Opcode | Matches(e, v) && Field(e, v) == i ensures v == Member(e, i) {
      MatchIsMember(e, v);
    }
  }

  // ---------------------------------------------------------------- shifts: two fields

  /** match | (i << 9) | j */
  function Pair(e: Entry, i: nat, j: nat): nat { Or(Or(e.match_, i * 0x200), j) }

  lemma PairMatches(e: Entry, i: nat, j: nat)
    requires e.mask == 0xf1f8 && Within(e) && i < 8 && j < 8
    ensures Pair(e, i, j) < SIZE && Matches(e, Pair(e, i, j))
            && Pair(e, i, j) / 0x200 % 8 == i && Pair(e, i, j) % 8 == j
  {
    hide And, Or, Pow2;
    var m := e.match_;
    FamilyAnd(m);
    Powers();
    Fields(m);
    RegisterMember(m, i);
    var a: Opcode := m + i * 0x200;
    Fields(a);
    OrLow(a, j, 3);
    AddLow(a, j);
    FamilyAnd(a + j);
  }

  lemma AddLow(a: Opcode, j: nat)
    requires j < 8 && a % 8 == 0
    ensures a + j < SIZE && (a + j) / 0x1000 == a / 0x1000 && (a + j) / 0x200 == a / 0x200 && (a + j) % 8 == j
    ensures (a + j) % 0x200 == a % 0x200 + j && (a + j) % 0x200 / 8 * 8 == a % 0x200
  {
    var k := a / 8;
    QuotientIs(a + j, 8, k, j);
    QuotientIs(a + j, 0x200, k / 0x40, k % 0x40 * 8 + j);
    QuotientIs(a + j, 0x1000, k / 0x200, k % 0x200 * 8 + j);
    QuotientIs(a, 0x200, k / 0x40, k % 0x40 * 8);
    QuotientIs(a, 0x1000, k / 0x200, k % 0x200 * 8);
  }

  lemma MatchIsPair(e: Entry, opcode: Opcode)
    requires e.mask == 0xf1f8 && Within(e) && Matches(e, opcode)
    ensures opcode == e.match_ + opcode / 0x200 % 8 * 0x200 + opcode % 8
  {
    hide And;
    FamilyAnd(opcode);
    Fields(opcode);
  }

  /** The place of an opcode among the 64 an f1f8 entry matches, in the order they are filled. */
  function Turn(opcode: Opcode): nat { opcode / 0x200 % 8 * 8 + opcode % 8 }

  lemma OneTurn(e: Entry, i: nat, j: nat)
    requires e.mask == 0xf1f8 && Within(e) && i < 8 && j < 8
    ensures Pair(e, i, j) < SIZE && Matches(e, Pair(e, i, j)) && Turn(Pair(e, i, j)) == 8 * i + j
            && Pair(e, i, j) / 0x200 % 8 == i
    ensures forall v: Opcode :: Matches(e, v) && Turn(v) == 8 * i + j ==> v == Pair(e, i, j)
  {
    hide And, Matches, Pair, Within;
    PairMatches(e, i, j);
    MatchIsPair(e, Pair(e, i, j));
    forall v: Opcode | Matches(e, v) && Turn(v) == 8 * i + j ensures v == Pair(e, i, j) {
      MatchIsPair(e, v);
    }
  }

  /** m68k_in.c:207-231: the cycles are stored, and then raised for shifts by an immediate distance. */
  method FillShifts(jump: array<Slot>, e: Entry)
    requires jump.Length == SIZE && e.mask == 0xf1f8 && Within(e)
    modifies jump
    ensures Entered(e, old(jump[..]), jump[..])
  {
    hide Matches, Pair, Turn, Within, IsShift;
    var i := 0;
    while i < 8
      invariant 0 <= i <= 8
      invariant forall v: Opcode ::
        jump[v] == if Matches(e, v) && Turn(v) < 8 * i then SlotOf(e, v) else old(jump[v])
    {
      var j := 0;
      while j < 8
        invariant 0 <= j <= 8
        invariant forall v: Opcode ::
          jump[v] == if Matches(e, v) && Turn(v) < 8 * i + j then SlotOf(e, v) else old(jump[v])
      {
        OneTurn(e, i, j);
        var instr := Pair(e, i, j);
        jump[instr] := Slot(e.handler, e.cycles0, e.cycles1, e.cycles2);
        if IsShift(instr) {
          var cycleCost := 2 * ((i + 7) % 8 + 1);
          jump[instr] := Slot(e.handler, (e.cycles0 + cycleCost) % 256, (e.cycles1 + cycleCost) % 256, e.cycles2);
        }
        j := j + 1;
      }
      i := i + 1;
    }
    forall v: Opcode ensures Turn(v) < 64 {
      TurnBound(v);
    }
  }

  lemma TurnBound(v: Opcode)
    ensures Turn(v) < 64
  {
  }

  // ---------------------------------------------------------------- the builder

  /** Every opcode has what the plain scan of these entries gives it. */
  ghost predicate Built(table: seq<Entry>, slots: seq<Slot>) {
    |slots| == SIZE && forall v: Opcode :: slots[v] == Scan(table, v)
  }

  lemma EnteredNext(table: seq<Entry>, p: nat, before: seq<Slot>, after: seq<Slot>)
    requires p < |table| && Built(table[..p], before) && Entered(table[p], before, after)
    ensures Built(table[..p + 1], after)
  {
    hide Matches, SlotOf;
    assert table[..p + 1][..p] == table[..p];
  }

  /** The table in memory: m68kmake's entries and the closing one. */
  predicate Closed(full: seq<Entry>) {
    |full| > 0 && full[|full| - 1] == SENTINEL
  }

  /** From p on, only the closing entry and masks of this loop or later ones are left. */
  ghost predicate Remaining(full: seq<Entry>, p: nat, phase: nat) {
    Closed(full) && p < |full| && forall k :: p <= k < |full| - 1 ==> Phase(full[k].mask) >= phase
  }

  lemma Advance(full: seq<Entry>, start: nat, p: nat, phase: nat)
    requires Remaining(full, start, phase) && Phased(full[..|full| - 1]) && start <= p < |full|
    requires Phase(full[p].mask) != phase
    ensures Remaining(full, p, phase + 1)
  {
    var table := full[..|full| - 1];
    forall k | p <= k < |full| - 1 ensures Phase(full[k].mask) >= phase + 1 {
      assert table[p] == full[p] && table[k] == full[k];
    }
  }

  /** Each of the specialised loops takes one mask. */
  lemma OneMask(m: Opcode, mask: Opcode)
    requires mask in {0xff00, 0xf1f8, 0xfff0, 0xf1ff, 0xfff8, 0xffff}
    ensures 1 <= Phase(mask) <= 6 && (Phase(m) == Phase(mask) <==> m == mask)
  {
  }

  lemma LoopOrder()
    ensures Phase(0xff00) == 1 && Phase(0xf1f8) == 2 && Phase(0xfff0) == 3 && Phase(0xf1ff) == 4 && Phase(0xfff8) == 5
            && Phase(0xffff) == 6
  {
  }

  /** One of the specialised loops: it takes entries while their mask is the one it knows. */
  method Family(jump: array<Slot>, full: seq<Entry>, mask: Opcode, ghost phase: nat, start: nat) returns (p: nat)
    requires jump.Length == SIZE && mask in {0xff00, 0xf1f8, 0xfff0, 0xf1ff, 0xfff8, 0xffff} && phase == Phase(mask)
    requires Remaining(full, start, phase)
    requires Phased(full[..|full| - 1])
    requires forall e :: e in full ==> Within(e)
    requires Built(full[..start], jump[..])
    modifies jump
    ensures p < |full| && Built(full[..p], jump[..]) && Remaining(full, p, phase + 1)
  {
    hide Built, Entered, Within, Phased, Phase, Remaining;
    p := start;
    PlaceLeft(full, start, phase);
    while full[p].mask == mask
      invariant start <= p < |full| && Built(full[..p], jump[..])
      decreases |full| - p
    {
      ghost var before := jump[..];
      assert full[p] in full;
      OneMask(0, mask);
      OneMask(mask, 0xf1f8);
      LoopOrder();
      NotLast(full, p, mask, phase);
      if mask == 0xf1f8 {
        FillShifts(jump, full[p]);
      } else {
        FillField(jump, full[p]);
      }
      EnteredNext(full, p, before, jump[..]);
      p := p + 1;
    }
    OneMask(full[p].mask, mask);
    Advance(full, start, p, phase);
  }

  lemma PlaceLeft(full: seq<Entry>, p: nat, phase: nat)
    requires Remaining(full, p, phase)
    ensures p < |full|
  {
  }

  /** The closing entry ends every loop. */
  lemma NotLast(full: seq<Entry>, p: nat, mask: Opcode, phase: nat)
    requires p < |full| && full[p].mask == mask && mask != 0 && exists start :: Remaining(full, start, phase)
    ensures p + 1 < |full|
  {
  }

  /** The first loop, which an entry of mask ff00 ends. */
  method General(jump: array<Slot>, full: seq<Entry>) returns (p: nat)
    requires jump.Length == SIZE && Built([], jump[..])
    requires exists k :: 0 <= k < |full| && Phase(full[k].mask) == 1
    modifies jump
    ensures p < |full| && Phase(full[p].mask) == 1 && Built(full[..p], jump[..])
  {
    hide Built, Entered;
    p := 0;
    assert full[..0] == [];
    ghost var first :| 0 <= first < |full| && Phase(full[first].mask) == 1;
    OneMask(full[first].mask, 0xff00);
    LoopOrder();
    while full[p].mask != 0xff00
      invariant p <= first && Built(full[..p], jump[..])
      decreases |full| - p
    {
      ghost var before := jump[..];
      FillByScan(jump, full[p]);
      EnteredNext(full, p, before, jump[..]);
      p := p + 1;
    }
  }

  /**
   m68ki_build_opcode_table: on a table in m68kmake's order the phased loops give every one of the
   65536 opcodes what the plain scan over all entries gives it.
   */
  method BuildOpcodeTable(jump: array<Slot>, table: seq<Entry>)
    requires jump.Length == SIZE && Sorted(table) && WellFormed(table)
    modifies jump
    ensures forall v: Opcode :: jump[v] == Scan(table, v)
  {
    hide Within, Sorted, Early, Scan, Remaining, Phased, Phase;
    var i := 0;
    while i < SIZE
      invariant 0 <= i <= SIZE
      invariant forall k :: 0 <= k < i ==> jump[k] == ILLEGAL
    {
      jump[i] := ILLEGAL;
      i := i + 1;
    }
    NothingScanned(jump[..]);
    var full := table + [SENTINEL];
    SortedIsPhased(table);
    FullTable(table);
    assert full[..|full| - 1] == table;
    var p := General(jump, full);
    Later(full, p);
    LoopOrder();
    p := Family(jump, full, 0xff00, 1, p);
    p := Family(jump, full, 0xf1f8, 2, p);
    p := Family(jump, full, 0xfff0, 3, p);
    p := Family(jump, full, 0xf1ff, 4, p);
    p := Family(jump, full, 0xfff8, 5, p);
    p := Family(jump, full, 0xffff, 6, p);
    AllTaken(full, p);
    assert full[..p] == table;
  }

  lemma Later(full: seq<Entry>, p: nat)
    requires Closed(full) && Phased(full[..|full| - 1]) && p < |full| && Phase(full[p].mask) == 1
    ensures Remaining(full, p, 1)
  {
    var table := full[..|full| - 1];
    forall k | p <= k < |full| - 1 ensures Phase(full[k].mask) >= 1 {
      assert table[p] == full[p] && table[k] == full[k];
    }
  }

  lemma AllTaken(full: seq<Entry>, p: nat)
    requires Remaining(full, p, 7)
    ensures p == |full| - 1
  {
    assert p < |full| - 1 ==> Phase(full[p].mask) >= 7;
  }

  lemma NothingScanned(slots: seq<Slot>)
    requires |slots| == SIZE && forall k :: 0 <= k < SIZE ==> slots[k] == ILLEGAL
    ensures Built([], slots)
  {
  }

  lemma FullTable(table: seq<Entry>)
    requires WellFormed(table)
    ensures var full := table + [SENTINEL];
            && Closed(full) && (forall e :: e in full ==> Within(e))
            && exists k :: 0 <= k < |full| && Phase(full[k].mask) == 1
  {
    var e :| e in table && Phase(e.mask) == 1;
    var k :| 0 <= k < |table| && table[k] == e;
    assert Phase((table + [SENTINEL])[k].mask) == 1;
  }
}
