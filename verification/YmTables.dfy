/** The constant tables of ym2151.c, and the tables computed from the clock as parameters. */
module YmTables {
  const MAX_ATT_INDEX: int := 1023
  const RATE_STEPS: int := 8
  const FREQ_ENTRIES: int := 11 * 768
  const ENV_QUIET: int := 832

  function Exp2(n: nat): nat {
    if n == 0 then 1 else 2 * Exp2(n - 1)
  }

  /** One row of eg_inc: the envelope increments of eight consecutive counter steps. */
  function EgIncRow(row: nat): (inc: seq<nat>)
    requires row < 19
    ensures |inc| == 8
  {
    match row
    case 0 => [0, 1, 0, 1, 0, 1, 0, 1]
    case 1 => [0, 1, 0, 1, 1, 1, 0, 1]
    case 2 => [0, 1, 1, 1, 0, 1, 1, 1]
    case 3 => [0, 1, 1, 1, 1, 1, 1, 1]
    case 4 => [1, 1, 1, 1, 1, 1, 1, 1]
    case 5 => [1, 1, 1, 2, 1, 1, 1, 2]
    case 6 => [1, 2, 1, 2, 1, 2, 1, 2]
    case 7 => [1, 2, 2, 2, 1, 2, 2, 2]
    case 8 => [2, 2, 2, 2, 2, 2, 2, 2]
    case 9 => [2, 2, 2, 4, 2, 2, 2, 4]
    case 10 => [2, 4, 2, 4, 2, 4, 2, 4]
    case 11 => [2, 4, 4, 4, 2, 4, 4, 4]
    case 12 => [4, 4, 4, 4, 4, 4, 4, 4]
    case 13 => [4, 4, 4, 8, 4, 4, 4, 8]
    case 14 => [4, 8, 4, 8, 4, 8, 4, 8]
    case 15 => [4, 8, 8, 8, 4, 8, 8, 8]
    case 16 => [8, 8, 8, 8, 8, 8, 8, 8]
    case 17 => [16, 16, 16, 16, 16, 16, 16, 16]
    case _ => [0, 0, 0, 0, 0, 0, 0, 0]
  }

  /**
   eg_inc[i]. Increments are at most 16, and at most 8 outside the attack-only row 17; rows 0 to 16,
   the ones a rate of 32 or more selects, increment on every odd step.
   */
  function EgInc(i: nat): (inc: nat)
    requires i < 152
    ensures inc <= 16
    ensures i < 136 || 144 <= i ==> inc <= 8
    ensures i < 136 && i % 2 == 1 ==> 1 <= inc
  {
    EgIncBounds(i / 8, i % 8);
    EgIncRow(i / 8)[i % 8]
  }

  lemma EgIncBounds(row: nat, step: nat)
    requires row < 19 && step < 8
    ensures EgIncRow(row)[step] <= 16
    ensures row != 17 ==> EgIncRow(row)[step] <= 8
    ensures row < 17 && step % 2 == 1 ==> 1 <= EgIncRow(row)[step]
  {
  }

  /** eg_rate_select: 32 infinite rates, rates 0 to 11, rates 12 to 14, then rate 15 and its copies. */
  function EgRateSelect(i: nat): (sel: nat)
    requires i < 128
    ensures sel < 136 || sel == 144
    ensures sel % 8 == 0
    ensures 32 <= i ==> sel < 136
  {
    RATE_STEPS * (if i < 32 then 18 else if i < 80 then i % 4 else if i < 92 then i - 76 else 16)
  }

  /** eg_rate_shift */
  function EgRateShift(i: nat): (sh: nat)
    requires i < 128
    ensures sh <= 11
  {
    if i < 32 || 80 <= i then 0 else 11 - (i - 32) / 4
  }

  /** dt2_tab */
  function Dt2(i: nat): (dt2: nat)
    requires i < 4
    ensures dt2 <= 608
  {
    [0, 384, 500, 608][i]
  }

  /** d1l_tab: every 3 dB, except for all bits set. */
  function D1l(i: nat): (level: nat)
    requires i < 16
    ensures level <= 992
  {
    32 * (if i != 15 then i else i + 16)
  }

  /** The tables init_chip_tables computes, of which only these facts are used. */
  datatype Tables = Tables(freq: seq<nat>, dt1: seq<int>, noise: seq<nat>) {
    ghost predicate Ok() {
      && |freq| == FREQ_ENTRIES
      && |dt1| == 8 * 32
      && |noise| == 32
      && dt1[0] == 0
    }
  }
}
