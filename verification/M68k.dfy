/** musashi/m68kcpu.h: the processor state the models of the 68k core share. */
module M68k {
  const TWO32: int := 0x1_0000_0000
  const TWO31: int := 0x8000_0000

  /** An unsigned 32-bit register. */
  type uint = x: int | 0 <= x < TWO32

  /** The value of a C expression of type uint. */
  function Wrap(x: int): (r: uint)
    ensures 0 <= x < TWO32 ==> r == x
    ensures -TWO32 <= x < 0 ==> r == x + TWO32
    ensures TWO32 <= x < 2 * TWO32 ==> r == x - TWO32
  {
    x % TWO32
  }

  /** MAKE_INT_32 */
  function Signed(x: uint): (y: int)
    ensures -TWO31 <= y < TWO31 && Wrap(y) == x
  {
    if x >= TWO31 then x - TWO32 else x
  }

  /** GET_MSB_32 */
  predicate Msb(x: uint) {
    x >= TWO31
  }

  /** It is the sign. */
  lemma MsbIsSign(x: uint)
    ensures Msb(x) <==> Signed(x) < 0
  {
  }

  /** The condition codes. Each is the one bit of its flag word that the condition macros look at; z is not_z_flag == 0. */
  datatype Ccr = Ccr(x: bool, n: bool, z: bool, v: bool, c: bool)

  type byte = x: int | 0 <= x < 256

  /** The 24 address lines of the 68000. */
  const SPACE: int := 0x100_0000

  /**
   m68ki_cpu_core and the memory behind it: data and address registers, program counter, the
   inactive stack pointers, the status register in pieces, and the two bits of CPU_STOPPED.
   */
  class Cpu {
    const d: array<uint>
    const a: array<uint>
    const bank: array<uint>
    const mem: array<byte>
    var pc: uint
    var ccr: Ccr
    var t1: bool
    var t0: bool
    var s: bool
    var m: bool
    var intMask: nat
    var stopped: bool
    var halted: bool

    constructor ()
      ensures Valid() && fresh(d) && fresh(a) && fresh(bank) && fresh(mem)
    {
      d := new uint[8](i => 0);
      a := new uint[8](i => 0);
      bank := new uint[7](i => 0);
      mem := new byte[SPACE](i => 0);
      pc := 0;
      ccr := Ccr(false, false, false, false, false);
      t1, t0, s, m, intMask, stopped, halted := false, false, true, false, 7, false, false;
    }

    predicate Valid()
      reads this
    {
      && d.Length == 8 && a.Length == 8 && bank.Length == 7 && mem.Length == SPACE
      && d != a && d != bank && a != bank && intMask < 8
    }
  }
}
