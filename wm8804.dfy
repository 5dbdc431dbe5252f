/** The part of the WM8804 S/PDIF transmitter's register file the driver
    touches, and the masked read-modify-write through which it changes it.
    Registers are eight bits wide. */
module Wm8804 {

  /** PWRDN gates power to the transmitter's sub-blocks, SPDTX4 holds
      channel-status byte 3, SPDMODE selects the input modes; every other
      register of the codec is an `OtherReg`. */
  datatype Reg = Pwrdn | Spdtx4 | Spdmode | OtherReg(index: nat)

  /** The register file holds the three registers the driver addresses. */
  predicate HasPathRegs(regs: map<Reg, bv8>) {
    Pwrdn in regs && Spdtx4 in regs && Spdmode in regs
  }

  /** The masked write `update_bits(reg, mask, val)`: the bits under `mask`
      take their value from `val`, every other bit keeps its previous value. */
  function Masked(prev: bv8, mask: bv8, val: bv8): (r: bv8)
    ensures r & mask == val & mask
    ensures r & !mask == prev & !mask
  {
    (prev & !mask) | (val & mask)
  }

  /** The two properties in Masked's contract determine its result. */
  lemma MaskedUnique(prev: bv8, mask: bv8, val: bv8, r: bv8)
    requires r & mask == val & mask
    requires r & !mask == prev & !mask
    ensures r == Masked(prev, mask, val)
  {
  }

  /** Repeating a masked write changes nothing more. */
  lemma MaskedIdempotent(prev: bv8, mask: bv8, val: bv8)
    ensures Masked(Masked(prev, mask, val), mask, val) == Masked(prev, mask, val)
  {
  }

  /** Two masked clears in a row clear the union of their masks. */
  lemma MaskedClearTwice(prev: bv8, m1: bv8, m2: bv8)
    ensures Masked(Masked(prev, m1, 0), m2, 0) == prev & !(m1 | m2)
  {
  }

  /** A masked write of a value below 0x10 under mask 0x0f stores the value
      exactly in the low nibble and keeps the high nibble. */
  lemma MaskedLowNibble(prev: bv8, val: bv8)
    requires val < 0x10
    ensures Masked(prev, 0x0f, val) == (prev & 0xf0) | val
  {
  }

  /** The power-down bits of the digital output path. */
  const OutputPowerBits: bv8 := 0x3c

  /** Power state of the S/PDIF output as PWRDN shows it: `On` when every
      output power-down bit is clear, `Off` when every one is set. */
  datatype Power = On | Off | Mixed

  function OutputPower(pwrdn: bv8): Power {
    if pwrdn & OutputPowerBits == 0 then On
    else if pwrdn & OutputPowerBits == OutputPowerBits then Off
    else Mixed
  }
}
