/** Memory as the 68k core reads and writes it: big-endian on 24 address lines. */
module M68kMemory {
  import opened Arithmetic
  import opened M68k

  /** One byte of memory; ADDRESS_68K cuts the address to 24 bits. */
  function At(mem: seq<byte>, addr: int): byte
    requires |mem| == SPACE
  {
    mem[addr % SPACE]
  }

  /** What a write of the low w bytes of v at addr leaves, most significant byte first. */
  function Store(mem: seq<byte>, addr: int, w: nat, v: nat): (r: seq<byte>)
    requires |mem| == SPACE
    ensures |r| == SPACE
  {
    if w == 0 then mem else Store(mem, addr, w - 1, v / 256)[(addr + w - 1) % SPACE := v % 256]
  }

  /** The number w bytes at addr spell, most significant byte first. */
  function Fetch(mem: seq<byte>, addr: int, w: nat): nat
    requires |mem| == SPACE
  {
    if w == 0 then 0 else Fetch(mem, addr, w - 1) * 256 + At(mem, addr + w - 1)
  }

  /** The top bit of a w-byte number. */
  function TopBit(w: nat): (r: nat)
    ensures r > 0
  {
    if w == 1 then 0x80 else if w == 2 then 0x8000 else 0x8000_0000
  }

  // ---------------------------------------------------------------- numbers in memory

  function Radix(decimal: bool): nat { if decimal then 100 else 256 }

  function Digit(decimal: bool, b: byte): nat { if decimal then b / 16 * 10 + b % 16 else b }

  predicate IsDigit(decimal: bool, b: byte) { decimal ==> b / 16 < 10 && b % 16 < 10 }

  /** The number n bytes at addr spell, most significant first: binary, or two decimal digits to the byte. */
  function Number(decimal: bool, mem: seq<byte>, addr: int, n: nat): nat
    requires |mem| == SPACE
  {
    if n == 0 then 0
    else Number(decimal, mem, addr, n - 1) * Radix(decimal) + Digit(decimal, At(mem, addr + n - 1))
  }

  ghost predicate Digits(decimal: bool, mem: seq<byte>, addr: int, n: nat)
    requires |mem| == SPACE
  {
    forall i :: addr <= i < addr + n ==> IsDigit(decimal, At(mem, i))
  }

  function Pow(base: nat, n: nat): nat { if n == 0 then 1 else Pow(base, n - 1) * base }

  // ---------------------------------------------------------------- stores and the numbers they leave

  lemma {:induction false} StoreFrame(mem: seq<byte>, addr: nat, w: nat, v: nat, i: nat)
    requires |mem| == SPACE && addr + w <= SPACE && i < SPACE && !(addr <= i < addr + w)
    ensures At(Store(mem, addr, w, v), i) == At(mem, i)
  {
    if w > 0 {
      StoreFrame(mem, addr, w - 1, v / 256, i);
    }
  }

  lemma {:induction false} SameNumber(decimal: bool, mem1: seq<byte>, mem2: seq<byte>, addr: nat, n: nat)
    requires |mem1| == SPACE && |mem2| == SPACE && addr + n <= SPACE
    requires forall i :: addr <= i < addr + n ==> At(mem1, i) == At(mem2, i)
    ensures Number(decimal, mem1, addr, n) == Number(decimal, mem2, addr, n)
  {
    if n > 0 {
      SameNumber(decimal, mem1, mem2, addr, n - 1);
    }
  }

  lemma {:induction false} FetchIsNumber(mem: seq<byte>, addr: int, w: nat)
    requires |mem| == SPACE
    ensures Fetch(mem, addr, w) == Number(false, mem, addr, w)
  {
    if w > 0 {
      FetchIsNumber(mem, addr, w - 1);
    }
  }

  /** The two memories hold the same bytes from lo up to hi. */
  ghost predicate SameOn(mem1: seq<byte>, mem2: seq<byte>, lo: int, hi: int)
    requires |mem1| == SPACE && |mem2| == SPACE
  {
    forall i :: lo <= i < hi ==> At(mem1, i) == At(mem2, i)
  }

  lemma SameFetch(mem1: seq<byte>, mem2: seq<byte>, addr: nat, n: nat)
    requires |mem1| == SPACE && |mem2| == SPACE && addr + n <= SPACE && SameOn(mem1, mem2, addr, addr + n)
    ensures Fetch(mem1, addr, n) == Fetch(mem2, addr, n)
  {
    FetchIsNumber(mem1, addr, n);
    FetchIsNumber(mem2, addr, n);
    SameNumber(false, mem1, mem2, addr, n);
  }

  /** A store is read back as the number stored. */
  lemma {:induction false} FetchStored(mem: seq<byte>, addr: nat, w: nat, v: nat)
    requires |mem| == SPACE && addr + w <= SPACE && v < Pow(256, w)
    ensures Number(false, Store(mem, addr, w, v), addr, w) == v
  {
    if w > 0 {
      var before := Store(mem, addr, w - 1, v / 256);
      FetchStored(mem, addr, w - 1, v / 256);
      SameNumber(false, before, Store(mem, addr, w, v), addr, w - 1);
    }
  }

  lemma {:induction false} NumberBound(decimal: bool, mem: seq<byte>, addr: int, n: nat)
    requires |mem| == SPACE && Digits(decimal, mem, addr, n)
    ensures Number(decimal, mem, addr, n) < Pow(Radix(decimal), n)
  {
    if n > 0 {
      NumberBound(decimal, mem, addr, n - 1);
      assert IsDigit(decimal, At(mem, addr + n - 1));
      DigitStep(Number(decimal, mem, addr, n - 1), Pow(Radix(decimal), n - 1), Digit(decimal, At(mem, addr + n - 1)),
                Radix(decimal));
    }
  }

  lemma DigitStep(a: nat, p: nat, digit: nat, r: nat)
    requires a < p && digit < r
    ensures a * r + digit < p * r
  {
    Monotone(a + 1, p, r);
  }

  lemma Distribute(a: nat, p: nat, b: nat, r: nat)
    ensures (a * p + b) * r == a * (p * r) + b * r
  {
    assert a * p * r == a * (p * r);
  }

  lemma {:induction false} Concat(decimal: bool, mem: seq<byte>, addr: int, n: nat, k: nat)
    requires |mem| == SPACE
    ensures Number(decimal, mem, addr, n + k)
            == Number(decimal, mem, addr, n) * Pow(Radix(decimal), k) + Number(decimal, mem, addr + n, k)
  {
    hide Radix, Digit, At;
    if k > 0 {
      Concat(decimal, mem, addr, n, k - 1);
      Distribute(Number(decimal, mem, addr, n), Pow(Radix(decimal), k - 1), Number(decimal, mem, addr + n, k - 1),
                 Radix(decimal));
    }
  }

  lemma {:induction false} PowAdds(base: nat, n: nat, k: nat)
    ensures Pow(base, n + k) == Pow(base, n) * Pow(base, k)
  {
    if k > 0 {
      PowAdds(base, n, k - 1);
      Distribute(Pow(base, n), Pow(base, k - 1), 0, base);
    }
  }

  lemma Widths()
    ensures Pow(256, 1) == 2 * TopBit(1) && Pow(256, 2) == 2 * TopBit(2) && Pow(256, 4) == 2 * TopBit(4)
  {
    assert Pow(256, 0) == 1;
    assert Pow(256, 2) == 0x1_0000;
    assert Pow(256, 3) == 0x100_0000;
  }

  lemma FetchBound(mem: seq<byte>, addr: int, w: nat)
    requires |mem| == SPACE && (w == 1 || w == 2 || w == 4)
    ensures Fetch(mem, addr, w) < TWO32
  {
    FetchIsNumber(mem, addr, w);
    NumberBound(false, mem, addr, w);
    Widths();
  }

  lemma OneByte(mem: seq<byte>, addr: nat, v: byte)
    requires |mem| == SPACE && addr < SPACE
    ensures At(Store(mem, addr, 1, v), addr) == v
  {
  }

  /** m68ki_read_8, _16 and _32 on memory that is all RAM. */
  method ReadLimb(cpu: Cpu, addr: uint, w: nat) returns (v: uint)
    requires cpu.Valid() && (w == 1 || w == 2 || w == 4)
    ensures v == Fetch(cpu.mem[..], addr, w)
  {
    FetchBound(cpu.mem[..], addr, w);
    v := cpu.mem[addr % SPACE];
    if w == 2 {
      v := v * 256 + cpu.mem[(addr + 1) % SPACE];
    } else if w == 4 {
      v := ((v * 256 + cpu.mem[(addr + 1) % SPACE]) * 256 + cpu.mem[(addr + 2) % SPACE]) * 256
           + cpu.mem[(addr + 3) % SPACE];
    }
    FetchBytes(cpu.mem[..], addr, w);
  }

  lemma FetchBytes(mem: seq<byte>, addr: uint, w: nat)
    requires |mem| == SPACE && (w == 1 || w == 2 || w == 4)
    ensures Fetch(mem, addr, w)
            == if w == 1 then At(mem, addr)
               else if w == 2 then At(mem, addr) * 256 + At(mem, addr + 1)
               else ((At(mem, addr) * 256 + At(mem, addr + 1)) * 256 + At(mem, addr + 2)) * 256 + At(mem, addr + 3)
  {
    hide At;
    assert Fetch(mem, addr, 0) == 0;
    assert Fetch(mem, addr, 2) == At(mem, addr) * 256 + At(mem, addr + 1);
  }

  /** m68ki_write_8, _16 and _32. */
  method WriteLimb(cpu: Cpu, addr: uint, w: nat, v: nat)
    requires cpu.Valid() && (w == 1 || w == 2 || w == 4) && v < 2 * TopBit(w)
    modifies cpu.mem
    ensures cpu.mem[..] == Store(old(cpu.mem[..]), addr, w, v)
  {
    if w == 1 {
      cpu.mem[addr % SPACE] := v;
    } else if w == 2 {
      cpu.mem[addr % SPACE] := v / 0x100;
      cpu.mem[(addr + 1) % SPACE] := v % 0x100;
    } else {
      cpu.mem[addr % SPACE] := v / 0x100_0000;
      cpu.mem[(addr + 1) % SPACE] := v / 0x1_0000 % 0x100;
      cpu.mem[(addr + 2) % SPACE] := v / 0x100 % 0x100;
      cpu.mem[(addr + 3) % SPACE] := v % 0x100;
    }
    StoreBytes(old(cpu.mem[..]), addr, w, v);
  }

  lemma StoreBytes(mem: seq<byte>, addr: uint, w: nat, v: nat)
    requires |mem| == SPACE && (w == 1 || w == 2 || w == 4) && v < 2 * TopBit(w)
    ensures Store(mem, addr, w, v)
            == if w == 1 then mem[addr % SPACE := v]
               else if w == 2 then mem[addr % SPACE := v / 0x100][(addr + 1) % SPACE := v % 0x100]
               else mem[addr % SPACE := v / 0x100_0000][(addr + 1) % SPACE := v / 0x1_0000 % 0x100]
                    [(addr + 2) % SPACE := v / 0x100 % 0x100][(addr + 3) % SPACE := v % 0x100]
  {
    var b1, b2, b3 := v / 256, v / 256 / 256, v / 256 / 256 / 256;
    if w == 1 {
      assert Store(mem, addr, 1, v) == mem[addr % SPACE := v % 256];
    } else if w == 2 {
      assert Store(mem, addr, 1, b1) == mem[addr % SPACE := b1 % 256];
    } else {
      assert Store(mem, addr, 1, b3) == mem[addr % SPACE := b3 % 256];
      assert Store(mem, addr, 2, b2) == Store(mem, addr, 1, b3)[(addr + 1) % SPACE := b2 % 256];
      assert Store(mem, addr, 3, b1) == Store(mem, addr, 2, b2)[(addr + 2) % SPACE := b1 % 256];
    }
  }
}
