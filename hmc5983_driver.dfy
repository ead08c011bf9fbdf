/** The HMC5983 driver (MagnetometerHMC5983.cpp): an HMC5883L driver plus
    setters for the bits the HMC5983 adds to CRA and MR, and the
    temperature read. */
module Hmc5983Driver {
  import opened Hmc5883lRegisters
  import opened Hmc5983Registers
  import opened WiredDevice
  import opened Hmc5883lDriver

  // ----- Register values written by the setters -----

  /** CRA after setTemperatureSensor(enabled): CRA7 takes the low bit of
      `enabled` (a wider value is cut to 8 bits by the shift) and the base
      chip's bits 0-6 are kept. */
  function TemperatureSensorUpdate(cra: bv8, enabled: bv8): (r: bv8)
    ensures CraTs.Get(r) == enabled & 0x01
    ensures r & 0x7f == cra & 0x7f
  {
    Configure(cra, CraTsMask, enabled << 7)
  }

  /** MR after setHighSpeedMode(speed): MR7 takes the low bit of `speed`,
      bits 0-6 are kept. */
  function HighSpeedUpdate(mr: bv8, speed: bv8): (r: bv8)
    ensures EmrHs.Get(r) == speed & 0x01
    ensures r & !MrHsMask == mr & !MrHsMask
  {
    Configure(mr, MrHsMask, speed << 7)
  }

  /** MR after setLowestPowerMode(power): LP is set to a documented option
      and nothing else changes; any value keeps the mode-select bits. */
  function LowestPowerUpdate(mr: bv8, power: bv8): (r: bv8)
    ensures IsOption(power) ==> EmrLp.Get(r) == power && r & !MrLpMask == mr & !MrLpMask
    ensures MrMd.Get(r) == MrMd.Get(mr)
  {
    Configure(mr, MrLpMask, power << 5)
  }

  /** MR after setSerialInterfaceMode(wiring), as the source writes it: the
      value is shifted to bit 3 but the mask is SIM, bit 2. SIM is cleared
      whatever the argument, THREE_WIRE sets the reserved MR3 instead,
      FOUR_WIRE leaves a stray MR3 in place, and the mode-select bits are
      kept. */
  function SerialInterfaceUpdate(mr: bv8, wiring: bv8): (r: bv8)
    ensures EmrSim.Get(r) == 0
    ensures IsOption(wiring) ==> r & !0x0c == mr & !0x0c
    ensures wiring == 0x01 ==> r & 0x08 != 0
    ensures wiring == 0x00 ==> r == mr & 0xfb
    ensures MrMd.Get(r) == MrMd.Get(mr)
  {
    Configure(mr, MrSimMask, wiring << 3)
  }

  /** MR after setSerialInterfaceMode(wiring) with the shift that matches
      the SIM mask and the EMRbits layout: SIM takes the option and nothing
      else changes. */
  function SerialInterfaceUpdateCorrected(mr: bv8, wiring: bv8): (r: bv8)
    ensures IsOption(wiring) ==> EmrSim.Get(r) == wiring && r & !MrSimMask == mr & !MrSimMask
    ensures MrMd.Get(r) == MrMd.Get(mr)
  {
    Configure(mr, MrSimMask, wiring << 2)
  }

  /** setSerialInterfaceMode(THREE_WIRE) places its bit at 0x08, outside the
      SIM mask 0x04, so the SIM bit is never set; the corrected shift sets it. */
  lemma SerialInterfaceShiftMisplaced(mr: bv8)
    ensures (1 as bv8 << 3) & MrSimMask == 0
    ensures SerialInterfaceUpdate(mr, 0x01) == (mr & 0xfb) | 0x08
    ensures EmrSim.Get(SerialInterfaceUpdate(mr, 0x01)) == 0
    ensures EmrSim.Get(SerialInterfaceUpdateCorrected(mr, 0x01)) == 1
  {
  }

  /** setOperatingMode overwrites the whole MR, so it clears any HS, LP or
      SIM bit set before, whatever the mode. */
  lemma OperatingModeClearsExtendedBits(mode: bv8)
    ensures EmrHs.Get(OperatingModeRegister(mode)) == 0
    ensures EmrLp.Get(OperatingModeRegister(mode)) == 0
    ensures EmrSim.Get(OperatingModeRegister(mode)) == 0
  {
  }

  // ----- Temperature -----

  /** The temperature the driver reports for the unsigned 16-bit raw value. */
  function TemperatureCelsius(raw: nat): (celsius: real)
    requires raw < 0x10000
    ensures 25.0 <= celsius <= 25.0 + 65535.0 / 128.0
    ensures (celsius - 25.0) * 128.0 == raw as real
  {
    raw as real / 0x80 as real + 0x19 as real
  }

  /** The raw value the source builds: the two bytes read from TEMPH
      onwards are copied into a uint16_t in memory order, so on a
      little-endian target the first byte (TEMPH) becomes the low byte. */
  function RawAsWritten(first: bv8, second: bv8): (raw: nat)
    ensures raw < 0x10000
    ensures raw % 0x100 == first as int && raw / 0x100 == second as int
  {
    second as int * 0x100 + first as int
  }

  /** The raw value as documented: TEMPH is the MSB, TEMPL the LSB. */
  function RawMsbFirst(msb: bv8, lsb: bv8): (raw: nat)
    ensures raw < 0x10000
    ensures TemperatureCelsius(raw) == DocumentedTemperature(msb, lsb)
  {
    msb as int * 0x100 + lsb as int
  }

  /** The decode is exact over the reals: raw 0 is 25 C, raw 128 is 26 C. */
  lemma TemperatureExamples()
    ensures TemperatureCelsius(0) == 25.0
    ensures TemperatureCelsius(0x80) == 26.0
    ensures TemperatureCelsius(0xffff) == 25.0 + 65535.0 / 128.0
  {
  }

  /** A larger raw value never gives a lower temperature. */
  lemma TemperatureMonotone(a: nat, b: nat)
    requires a <= b < 0x10000
    ensures TemperatureCelsius(a) <= TemperatureCelsius(b)
    ensures a < b ==> TemperatureCelsius(a) < TemperatureCelsius(b)
  {
  }

  /** The byte order the source uses swaps MSB and LSB: TEMPH = 0,
      TEMPL = 0x80 is documented as 26 C but the source reports 281 C. */
  lemma TemperatureByteOrderSwapped()
    ensures DocumentedTemperature(0x00, 0x80) == 26.0
    ensures TemperatureCelsius(RawAsWritten(0x00, 0x80)) == 281.0
    ensures TemperatureCelsius(RawMsbFirst(0x00, 0x80)) == 26.0
    ensures forall h: bv8, l: bv8 :: RawAsWritten(h, l) == RawMsbFirst(l, h)
  {
  }

  // ----- Interaction of the extended setters with the base configuration -----

  /** One call of an HMC5983 setter, with its argument. SerialInterface uses
      the corrected shift, SerialInterfaceAsWritten the source's own. */
  datatype ExtendedSetting =
    | TemperatureSensor(enabled: bv8)
    | HighSpeed(speed: bv8)
    | LowestPower(power: bv8)
    | SerialInterface(wiring: bv8)
    | SerialInterfaceAsWritten(wiring: bv8)
  {
    /** The register file after this call. */
    function Apply(regs: seq<bv8>): (r: seq<bv8>)
      requires |regs| == 0x100
      ensures |r| == 0x100
    {
      match this
      case TemperatureSensor(t) => regs[CRA := TemperatureSensorUpdate(regs[CRA], t)]
      case HighSpeed(s) => regs[MR := HighSpeedUpdate(regs[MR], s)]
      case LowestPower(p) => regs[MR := LowestPowerUpdate(regs[MR], p)]
      case SerialInterface(w) => regs[MR := SerialInterfaceUpdateCorrected(regs[MR], w)]
      case SerialInterfaceAsWritten(w) => regs[MR := SerialInterfaceUpdate(regs[MR], w)]
    }
  }

  /** The register file after the calls `calls`, in order. */
  function ApplyExtendedSettings(regs: seq<bv8>, calls: seq<ExtendedSetting>): (r: seq<bv8>)
    requires |regs| == 0x100
    ensures |r| == 0x100
    decreases |calls|
  {
    if |calls| == 0 then regs else ApplyExtendedSettings(calls[0].Apply(regs), calls[1..])
  }

  /** The base configuration one extended setter call keeps. */
  ghost predicate KeepsBaseConfiguration(before: seq<bv8>, after: seq<bv8>)
    requires |before| == |after| == 0x100
  {
    && MrMd.Get(after[MR]) == MrMd.Get(before[MR])
    && after[CRA] & 0x7f == before[CRA] & 0x7f
    && forall a :: 0 <= a < 0x100 && a != CRA && a != MR ==> after[a] == before[a]
  }

  /** HMC5983 setter calls, with any arguments and in any order and number,
      never change the operating mode, the base chip's CRA fields or any
      register other than CRA and MR. */
  lemma {:induction false} ExtendedSettingsKeepBaseConfiguration(regs: seq<bv8>, calls: seq<ExtendedSetting>)
    requires |regs| == 0x100
    ensures KeepsBaseConfiguration(regs, ApplyExtendedSettings(regs, calls))
    decreases |calls|
  {
    if |calls| > 0 {
      var next := calls[0].Apply(regs);
      assert KeepsBaseConfiguration(regs, next);
      ExtendedSettingsKeepBaseConfiguration(next, calls[1..]);
    }
  }

  // ----- The driver -----

  /** An HMC5983: the HMC5883L driver it extends, whose operations it
      offers unchanged, and the setters for the added bits. */
  class Hmc5983 {
    const base: Hmc5883l

    ghost predicate Valid()
      reads this, base, base.bus
    {
      base.Valid()
    }

    constructor (bus: RegisterDevice)
      requires bus.Valid()
      ensures Valid() && base.bus == bus
    {
      base := new Hmc5883l(bus);
    }

    method SetTemperatureSensor(enabled: bv8)
      requires Valid() && IsOption(enabled)
      modifies base.bus.regs
      ensures base.bus.regs[..] == ExtendedSetting.TemperatureSensor(enabled).Apply(old(base.bus.regs[..]))
      ensures CraTs.Get(base.bus.regs[CRA]) == enabled
    {
      base.bus.ConfigureRegisterBits(CRA, CraTsMask, enabled << 7);
    }

    method SetHighSpeedMode(speed: bv8)
      requires Valid() && IsOption(speed)
      modifies base.bus.regs
      ensures base.bus.regs[..] == ExtendedSetting.HighSpeed(speed).Apply(old(base.bus.regs[..]))
      ensures base.bus.regs[MR] >> 7 == speed
    {
      base.bus.ConfigureRegisterBits(MR, MrHsMask, speed << 7);
    }

    method SetLowestPowerMode(power: bv8)
      requires Valid() && IsOption(power)
      modifies base.bus.regs
      ensures base.bus.regs[..] == ExtendedSetting.LowestPower(power).Apply(old(base.bus.regs[..]))
      ensures EmrLp.Get(base.bus.regs[MR]) == power
    {
      base.bus.ConfigureRegisterBits(MR, MrLpMask, power << 5);
    }

    /** Selects the SPI wiring with the shift that matches the SIM mask
        (SerialInterfaceUpdate is the update as the source writes it). */
    method SetSerialInterfaceMode(wiring: bv8)
      requires Valid() && IsOption(wiring)
      modifies base.bus.regs
      ensures base.bus.regs[..] == ExtendedSetting.SerialInterface(wiring).Apply(old(base.bus.regs[..]))
      ensures EmrSim.Get(base.bus.regs[MR]) == wiring
    {
      base.bus.ConfigureRegisterBits(MR, MrSimMask, wiring << 2);
    }

    /** Reads TEMPH and TEMPL in one block and decodes them in the documented
        order, TEMPH as the MSB (RawAsWritten is the order the source uses). */
    method GetTemperature() returns (celsius: real)
      requires Valid()
      ensures celsius == DocumentedTemperature(base.bus.regs[TEMPH], base.bus.regs[TEMPL])
      ensures 25.0 <= celsius <= 25.0 + 65535.0 / 128.0
    {
      var buf := new bv8[TemperatureLength];
      var _ := base.bus.ReadRegisterBlock(TEMPH, buf, TemperatureLength);
      assert buf[0] == buf[..TemperatureLength][0] && buf[1] == buf[..TemperatureLength][1];
      celsius := TemperatureCelsius(RawMsbFirst(buf[0], buf[1]));
    }
  }
}
