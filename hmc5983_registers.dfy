/** Register additions of the HMC5983, which keeps the HMC5883L register
    map and reuses reserved bits of CRA, MR and SR (MagnetometerHMC5983.h). */
module Hmc5983Registers {
  import opened WiredDevice
  import opened Hmc5883lRegisters

  // ----- Temperature output registers (enum ExtendedRegister) -----

  const TEMPH: Address := 0x31
  const TEMPL: Address := 0x32
  const TemperatureLength: nat := 2

  // ----- Masks (#define) -----

  const MrHsMask: bv8 := 0x80
  const MrLpMask: bv8 := 0x20
  const MrSimMask: bv8 := 0x04
  const SrDowMask: bv8 := 0x10
  /** Temperature-sensor enable, CRA7; the source writes this mask as a literal. */
  const CraTsMask: bv8 := 0x80

  // ----- Bit-field layouts (EMRbits, extended SRbits, CRA7) -----

  const EmrMd := BitField(0, 2)
  const EmrSim := BitField(2, 1)
  const EmrLp := BitField(5, 1)
  const EmrHs := BitField(7, 1)
  const SrDow := BitField(4, 1)
  const CraTs := BitField(7, 1)

  // ----- Two-valued options (SpeedMode, TemperatureSensor,
  //       LowestPowerMode, SerialInterfaceMode) -----

  /** Every two-valued option enum has exactly the values 0 and 1. */
  const MaxOption: bv8 := 0x01

  predicate IsOption(v: bv8) { v <= MaxOption }

  // ----- Temperature as documented -----

  /** The documented conversion: (MSB * 2^8 + LSB) / (2^4 * 8) + 25 degrees C. */
  function DocumentedTemperature(msb: bv8, lsb: bv8): real
  {
    (msb as int * 256 + lsb as int) as real / (16 * 8) as real + 25.0
  }

  // ----- Properties of the extended register map -----

  /** Every option value, shifted to its field's offset, lies inside that
      field's mask and reads back: TS and HS at bit 7, LP at bit 5, SIM at
      bit 2. Shifted to bit 3, as setSerialInterfaceMode does, it misses the
      SIM mask, and a value above 1 would spill out of LP and SIM. */
  lemma OptionValues(v: bv8)
    ensures IsOption(v) ==> (v << 7) & !CraTsMask == 0 && CraTs.Get(v << 7) == v
    ensures IsOption(v) ==> (v << 7) & !MrHsMask == 0 && EmrHs.Get(v << 7) == v
    ensures IsOption(v) ==> (v << 5) & !MrLpMask == 0 && EmrLp.Get(v << 5) == v
    ensures IsOption(v) ==> (v << 2) & !MrSimMask == 0 && EmrSim.Get(v << 2) == v
    ensures IsOption(v) ==> (v << 3) & MrSimMask == 0
    ensures v == 0x02 ==> (v << 5) & !MrLpMask != 0 && (v << 2) & !MrSimMask != 0
  {
  }

  /** The masks agree with the EMRbits layout: MD bits 0-1, SIM bit 2,
      LP bit 5, HS bit 7. */
  lemma EmrMasksMatchLayout()
    ensures EmrMd.Mask() == MrMask
    ensures EmrSim.Mask() == MrSimMask
    ensures EmrLp.Mask() == MrLpMask
    ensures EmrHs.Mask() == MrHsMask
  {
  }

  /** HS, LP and SIM are pairwise disjoint and disjoint from the base
      chip's mode-select mask. */
  lemma EmrMasksDisjoint()
    ensures MrHsMask & MrLpMask == 0 && MrHsMask & MrSimMask == 0 && MrLpMask & MrSimMask == 0
    ensures (MrHsMask | MrLpMask | MrSimMask) & MrMask == 0
  {
  }

  /** The extended MR view agrees with the base chip's: MD is the same field. */
  lemma EmrExtendsMr()
    ensures EmrMd == MrMd
    ensures forall v: bv8 :: EmrMd.Get(v) == MrMd.Get(v)
  {
  }

  /** DOW is SR bit 4, equal to the DOW mask and apart from RDY and LOCK. */
  lemma SrDowLayout()
    ensures SrDow.Mask() == SrDowMask
    ensures SrDowMask & (SrRdy.Mask() | SrLock.Mask()) == 0
  {
  }

  /** The temperature-sensor bit is CRA7, the bit the base chip leaves
      unused, so it is disjoint from every base CRA mask. */
  lemma CraTsUsesReservedBit()
    ensures CraTs.Mask() == CraTsMask
    ensures CraTsMask & (CraMsMask | CraDoMask | CraMaMask) == 0
    ensures CraTsMask | CraMsMask | CraDoMask | CraMaMask == 0xff
  {
  }

  /** TEMPH and TEMPL are adjacent, so one two-byte block from TEMPH reads
      both, and they lie clear of the base chip's registers. */
  lemma TemperatureRegistersAdjacent()
    ensures TEMPL == TEMPH + 1 && TEMPH + TemperatureLength == TEMPL + 1
    ensures IDC < TEMPH
  {
  }

  /** The documented divisor 2^4 * 8 is 128, so raw 0 reads 25 C and raw
      128 (MSB 0, LSB 0x80) reads 26 C. */
  lemma DocumentedTemperatureExamples()
    ensures DocumentedTemperature(0, 0) == 25.0
    ensures DocumentedTemperature(0, 0x80) == 26.0
    ensures DocumentedTemperature(1, 0) == 27.0
  {
  }
}
