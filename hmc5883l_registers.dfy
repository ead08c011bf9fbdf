/** Register map of the HMC5883L three-axis compass: register addresses,
    the masks the driver uses, the bit-field layouts of each register and
    the option values the driver accepts (MagnetometerHMC5883L.h). */
module Hmc5883lRegisters {
  import opened WiredDevice

  // ----- Register addresses (enum Register) -----

  const CRA: Address := 0x00
  const CRB: Address := 0x01
  const MR: Address := 0x02
  const DXRA: Address := 0x03
  const DXRB: Address := 0x04
  const DYRA: Address := 0x05
  const DYRB: Address := 0x06
  const DZRA: Address := 0x07
  const DZRB: Address := 0x08
  const SR: Address := 0x09
  const IDA: Address := 0x0a
  const IDB: Address := 0x0b
  const IDC: Address := 0x0c

  /** Number of bytes in one X/Z/Y sample block. */
  const SampleLength: nat := 6

  // ----- Masks (#define) -----

  /** Named "MS" in the source, but it selects the samples-averaged (MA) field. */
  const CraMsMask: bv8 := 0x60
  const CraDoMask: bv8 := 0x1c
  /** Named "MA" in the source, but it selects the measurement-mode (MS) field. */
  const CraMaMask: bv8 := 0x03
  const MrMask: bv8 := 0x03

  // ----- Bit-field layouts (the unions CRAbits, CRBbits, MRbits, SRbits) -----

  /** A named run of `width` bits starting at bit `offset` of a register. */
  datatype BitField = BitField(offset: nat, width: nat)
  {
    predicate Fits() { 0 < width && offset + width <= 8 }

    /** The bits of a register that this field covers. */
    function Mask(): bv8
      requires Fits()
    {
      (((1 as bv8) << width) - 1) << offset
    }

    /** The field's value read from the register value `v`. */
    function Get(v: bv8): bv8
      requires Fits()
    {
      (v >> offset) & (((1 as bv8) << width) - 1)
    }

    /** Assigning `x` to the field as a C bit-field assignment does: `x`
        is truncated to `width` bits, the other bits of `v` are kept. */
    function Set(v: bv8, x: bv8): bv8
      requires Fits()
    {
      (v & !Mask()) | ((x << offset) & Mask())
    }
  }

  // Configuration register A
  const CraMs := BitField(0, 2)
  const CraDo := BitField(2, 3)
  const CraMa := BitField(5, 2)
  // Configuration register B
  const CrbGn := BitField(5, 3)
  // Mode register
  const MrMd := BitField(0, 2)
  // Status register
  const SrRdy := BitField(0, 1)
  const SrLock := BitField(1, 1)

  // ----- Option values (enums) -----

  const IdleModeValue: bv8 := 0x00
  const ContinuousMeasurementModeValue: bv8 := 0x01
  const SingleMeasurementModeValue: bv8 := 0x02

  const MaxSamplesAveraged: bv8 := 0x03   // SA_1 .. SA_8
  const MaxDataOutputRate: bv8 := 0x06    // DAR_0_75 .. DAR_75
  const MaxMeasurementMode: bv8 := 0x02   // NORMAL_MEASUREMENT .. NEGATIVE_BIAS
  const MaxGain: bv8 := 0x07              // GAIN_0_88_GA .. GAIN_8_1_GA

  /** The operating modes the chip's mode-select bits MD1..MD0 encode. */
  datatype OperatingMode = Continuous | Single | Idle

  /** How the chip reads its mode-select bits, as the mode-register table
      documents it: 00 continuous, 01 single, 10 and 11 idle. */
  function ChipMode(md: bv8): OperatingMode
  {
    var bits := md & 0x03;
    if bits == 0 then Continuous else if bits == 1 then Single else Idle
  }

  /** The value the source's OperatingMode enum gives each mode
      (IDLE_MODE 0, CONTINUOUS_MEASUREMENT_MODE 1, SINGLE_MEASUREMENT_MODE 2). */
  function EnumModeValue(m: OperatingMode): (v: bv8)
    ensures v <= 2
  {
    match m
    case Idle => IdleModeValue
    case Continuous => ContinuousMeasurementModeValue
    case Single => SingleMeasurementModeValue
  }

  /** The mode-select bits that select `m` according to the documented table. */
  function ModeBits(m: OperatingMode): (v: bv8)
    ensures v & !MrMask == 0
    ensures ChipMode(v) == m
  {
    match m
    case Continuous => 0x00
    case Single => 0x01
    case Idle => 0x02
  }

  // ----- Register map as documented -----

  /** The data-output bytes, named by the axis and half the register map
      documents for them. */
  datatype DataByte = XMsb | XLsb | ZMsb | ZLsb | YMsb | YLsb

  /** Addresses from the register-map comment: 03/04 X, 05/06 Z, 07/08 Y. */
  function DocumentedAddress(b: DataByte): Address
  {
    match b
    case XMsb => 0x03
    case XLsb => 0x04
    case ZMsb => 0x05
    case ZLsb => 0x06
    case YMsb => 0x07
    case YLsb => 0x08
  }

  // ----- Properties of the register map -----

  /** Each CRA mask is exactly the bits of one CRA field, but the macro
      called MS masks the MA field and the one called MA masks MS. */
  lemma CraMasksMatchLayout()
    ensures CraMa.Mask() == CraMsMask
    ensures CraDo.Mask() == CraDoMask
    ensures CraMs.Mask() == CraMaMask
    ensures CraMa.Mask() != CraMaMask && CraMs.Mask() != CraMsMask
  {
  }

  /** The three CRA masks are pairwise disjoint and together cover bits
      0-6, leaving bit 7 unused by the base chip. */
  lemma CraMasksPartition()
    ensures CraMsMask & CraDoMask == 0 && CraMsMask & CraMaMask == 0 && CraDoMask & CraMaMask == 0
    ensures CraMsMask | CraDoMask | CraMaMask == 0x7f
  {
  }

  /** The MR mask covers the MD field, the only named field of MR. */
  lemma MrMaskMatchesLayout()
    ensures MrMd.Mask() == MrMask
    ensures forall v: bv8 :: MrMd.Get(v) == v & MrMask
  {
  }

  /** In CRB, GN occupies bits 5-7 and bits 0-4 are the must-be-zero bits. */
  lemma CrbLayout()
    ensures CrbGn.Mask() == 0xe0 && !CrbGn.Mask() == 0x1f
    ensures forall v: bv8 :: CrbGn.Get(v) == v >> 5
  {
  }

  /** In SR, RDY is bit 0 and LOCK is bit 1; no other bit is named. */
  lemma SrLayout()
    ensures SrRdy.Mask() == 0x01 && SrLock.Mask() == 0x02
    ensures SrRdy.Mask() | SrLock.Mask() == 0x03
  {
  }

  /** Every documented option value, shifted to its field's offset, lies
      inside that field's mask and reads back unchanged. */
  lemma EnumValuesFitTheirFields(v: bv8)
    ensures v <= MaxSamplesAveraged ==> (v << 5) & !CraMsMask == 0 && CraMa.Get(v << 5) == v
    ensures v <= MaxDataOutputRate ==> (v << 2) & !CraDoMask == 0 && CraDo.Get(v << 2) == v
    ensures v <= MaxMeasurementMode ==> v & !CraMaMask == 0 && CraMs.Get(v) == v
    ensures v <= MaxGain ==> (v << 5) & !0xe0 == 0 && CrbGn.Get(v << 5) == v
    ensures v <= SingleMeasurementModeValue ==> v & !MrMask == 0 && MrMd.Get(v) == v
  {
  }

  /** The OperatingMode enum disagrees with the documented MD encoding:
      each enum value selects a different mode than its name says. */
  lemma EnumModeValuesMislabelled()
    ensures ChipMode(EnumModeValue(Idle)) == Continuous
    ensures ChipMode(EnumModeValue(Continuous)) == Single
    ensures ChipMode(EnumModeValue(Single)) == Idle
    ensures forall m :: ChipMode(EnumModeValue(m)) != m
  {
  }

  /** The documented encoding is a true inverse of the chip's decoding. */
  lemma ModeBitsRoundTrip(m: OperatingMode, md: bv8)
    ensures ChipMode(ModeBits(m)) == m
    ensures ModeBits(ChipMode(md)) == md & 0x03 || md & 0x03 == 0x03
  {
  }

  /** The six data-output registers are contiguous from DXRA, SR follows
      them, and the documented map puts Z before Y, so the enum's DYRA/DYRB
      are the Z bytes and DZRA/DZRB the Y bytes. */
  lemma DataRegistersContiguous()
    ensures DXRA + SampleLength == SR
    ensures forall b :: DXRA <= DocumentedAddress(b) < DXRA + SampleLength
    ensures DYRA == DocumentedAddress(ZMsb) && DYRB == DocumentedAddress(ZLsb)
    ensures DZRA == DocumentedAddress(YMsb) && DZRB == DocumentedAddress(YLsb)
    ensures DXRA == DocumentedAddress(XMsb) && DXRB == DocumentedAddress(XLsb)
  {
  }
}
