# HMC5883L / HMC5983 compass driver: register model

This project models the register layer of an Arduino driver for the
Honeywell HMC5883L three-axis compass and for the HMC5983, which extends it.
The model covers:

- The register map: addresses, masks, bit-field layouts and option enums.
- How each setter turns its argument into a register write or a
  read-modify-write.
- The status read and the six-byte sample read.
- Assembling the X and Y samples into signed 16-bit values.
- The HMC5983 temperature decode.
- The final wrap of the heading angle into [0, 360).

The chip's registers are the only state: the driver keeps no copy of its
configuration. Each driver is a class over a `RegisterDevice`, a 256-byte
register file held in an `array<bv8>`. The setters change that array, and
each setter's `ensures` gives the whole new register file in terms of a pure
update function. The lemmas about those update functions state what the
setters promise:

- a documented option lands in its field and nothing else in the register
  changes;
- any sequence of CRA setter calls leaves each field holding the last value
  it was set to;
- HMC5983 setter calls never disturb the base chip's configuration.

Four modules follow the four source files:

| module | source |
|---|---|
| `Hmc5883lRegisters` | MagnetometerHMC5883L.h |
| `Hmc5983Registers` | MagnetometerHMC5983.h |
| `Hmc5883lDriver` | MagnetometerHMC5883L.cpp |
| `Hmc5983Driver` | MagnetometerHMC5983.cpp |

Two more modules complete the model:

- `WiredDevice` states the register-access operations the drivers call.
- `Magnetometer` holds the heading wrap from Magnetometer/Magnetometer.cpp.

Register values are `bv8`. A C shift of an `unsigned char` is narrowed back
to 8 bits when it is passed on as a register value, so a `bv8` shift models
it. A C bit-field assignment keeps the low bits of the value (`BitField.Set`).

Where the header documentation and the code disagree, the model records
the disagreement:

- The CRA masks are misnamed. `MAGNETOMETER_HMC5883L_CRA_MS_MASK` (0x60)
  covers the MA field (bits 5-6), and `..._CRA_MA_MASK` (0x03) covers the MS
  field (bits 0-1). The setters use them consistently with their purpose,
  so the behaviour is right (`Hmc5883lRegisters.CraMasksMatchLayout`).
- The `Register` enum names 0x05/0x06 `DYRA`/`DYRB` and 0x07/0x08
  `DZRA`/`DZRB`. The register-map comment says 05/06 are Z and 07/08 are Y.
  getHeading takes Y from bytes 4-5 of the block, which agrees with the map
  (`Hmc5883lRegisters.DataRegistersContiguous`).
- `readSample` is declared `void` in the header and defined returning `int`.
  The model follows the definition and returns the byte count. No lemma
  states this: the header's declaration is not modelled.
- setSerialInterfaceMode shifts its option to bit 3. The header's SIM mask
  (0x04) and its EMRbits layout put SIM at bit 2
  (`Hmc5983Driver.SerialInterfaceShiftMisplaced`).

Three disagreements change what the driver does. Each is listed under
Findings with both halves, and the code as written is a function or lemma of
its own. For the serial-interface shift and the temperature byte order, the
drivers' methods use the corrected definition. SetOperatingMode takes the MD
bits as the code does, and `Hmc5883lRegisters.ModeBits` gives the bits that
select each mode.

## Model

| member | source | states |
|---|---|---|
| Hmc5883lRegisters.EnumModeValue | MagnetometerHMC5883L/MagnetometerHMC5883L.h:369-373 | The OperatingMode enum's value for each mode fits the two-bit MD field. |
| Hmc5883lRegisters.ModeBits | MagnetometerHMC5883L/MagnetometerHMC5883L.h:158-169 | The MD bits for a mode, per the mode-register table: no bit outside the MR mask, and the chip decodes them as that mode. |
| Hmc5883lRegisters.ModeBitsRoundTrip | MagnetometerHMC5883L/MagnetometerHMC5883L.h:158-169 | Encoding a mode and decoding it gives the mode back. Decoding MD bits and re-encoding them gives the same bits, except 11, which is a second encoding of idle. |
| Hmc5883lRegisters.EnumModeValuesMislabelled | MagnetometerHMC5883L/MagnetometerHMC5883L.h:369-373 | The enum value of every mode selects a different mode on the chip: IDLE_MODE selects continuous, CONTINUOUS selects single, SINGLE selects idle. |
| Hmc5883lRegisters.CraMasksMatchLayout | MagnetometerHMC5883L/MagnetometerHMC5883L.h:17-19 | The CRA "MS" mask is exactly the MA field of CRAbits, the "MA" mask is exactly the MS field, and DO matches DO. |
| Hmc5883lRegisters.CraMasksPartition | MagnetometerHMC5883L/MagnetometerHMC5883L.h:82-101 | The three CRA masks are pairwise disjoint and cover bits 0-6; bit 7 is unnamed. |
| Hmc5883lRegisters.MrMaskMatchesLayout | MagnetometerHMC5883L/MagnetometerHMC5883L.h:171-183 | The MR mask is the MD field, and reading MD is masking with it. |
| Hmc5883lRegisters.CrbLayout | MagnetometerHMC5883L/MagnetometerHMC5883L.h:129-142 | GN is bits 5-7 of CRB and bits 0-4 are the rest; reading GN is a shift by 5. |
| Hmc5883lRegisters.SrLayout | MagnetometerHMC5883L/MagnetometerHMC5883L.h:266-274 | RDY is SR bit 0 and LOCK is SR bit 1. |
| Hmc5883lRegisters.EnumValuesFitTheirFields | MagnetometerHMC5883L/MagnetometerHMC5883L.h:378-421 | Every documented SamplesAveraged, DataOutputRate, MeasurementMode, Gain and mode value, shifted to its field, stays inside the field's mask and reads back unchanged. |
| Hmc5883lRegisters.DataRegistersContiguous | MagnetometerHMC5883L/MagnetometerHMC5883L.h:308-337 | The six data registers run from DXRA to SR-1. The enum's DYRA/DYRB are the documented Z registers and DZRA/DZRB the documented Y registers. |
| Hmc5983Registers.OptionValues | MagnetometerHMC5983/MagnetometerHMC5983.h:140-167 | Each documented option value (0 or 1), shifted to its field, lies inside the TS, HS, LP or SIM mask and reads back from it. Shifted to bit 3, as setSerialInterfaceMode does, it misses the SIM mask. A value of 2 would spill out of LP and SIM. |
| Hmc5983Registers.EmrMasksMatchLayout | MagnetometerHMC5983/MagnetometerHMC5983.h:73-89 | The HS, LP and SIM masks and the MR mask are exactly the HS (bit 7), LP (bit 5), SIM (bit 2) and MD fields of EMRbits. |
| Hmc5983Registers.EmrMasksDisjoint | MagnetometerHMC5983/MagnetometerHMC5983.h:14-16 | HS, LP and SIM are pairwise disjoint and disjoint from the mode-select bits. |
| Hmc5983Registers.EmrExtendsMr | MagnetometerHMC5983/MagnetometerHMC5983.h:84-87 | The extended MR's MD field is the base chip's MD field. |
| Hmc5983Registers.SrDowLayout | MagnetometerHMC5983/MagnetometerHMC5983.h:125-135 | DOW is SR bit 4, equal to the DOW mask and apart from RDY and LOCK. |
| Hmc5983Registers.CraTsUsesReservedBit | MagnetometerHMC5983/MagnetometerHMC5983.h:30-35 | The temperature-sensor bit CRA7 is the one CRA bit no base mask covers. |
| Hmc5983Registers.TemperatureRegistersAdjacent | MagnetometerHMC5983/MagnetometerHMC5983.h:41-44 | TEMPH and TEMPL are adjacent, so a two-byte block read from TEMPH gets both. They lie past the base register map. |
| Hmc5983Registers.DocumentedTemperatureExamples | MagnetometerHMC5983/MagnetometerHMC5983.h:217-218 | The documented formula divides by 128: (0,0) is 25 C, (0,0x80) is 26 C, (1,0) is 27 C. |
| WiredDevice.Configure | MagnetometerHMC5883L/MagnetometerHMC5883L.cpp:24 | The read-modify-write the setters rely on: under the mask the register takes the new bits; outside it, it keeps its old bits OR-ed with any bits of the value that stray outside the mask. |
| WiredDevice.RegisterDevice.ReadRegister | MagnetometerHMC5883L/MagnetometerHMC5883L.cpp:43 | Returns the register's current value and changes nothing. |
| WiredDevice.RegisterDevice.WriteRegister | MagnetometerHMC5883L/MagnetometerHMC5883L.cpp:20 | Only the written register changes, and it takes the value. |
| WiredDevice.RegisterDevice.ReadRegisterBlock | MagnetometerHMC5883L/MagnetometerHMC5883L.cpp:48 | The buffer's first n bytes are registers start..start+n-1 in order, the rest of the buffer is unchanged, and the count is n. |
| WiredDevice.RegisterDevice.ConfigureRegisterBits | MagnetometerHMC5883L/MagnetometerHMC5883L.cpp:24 | Only the named register changes, and it takes `Configure` of its old value. |
| Hmc5883lDriver.OperatingModeRegister | MagnetometerHMC5883L/MagnetometerHMC5883L.cpp:19-21 | MR's MD field takes the two low bits of the argument, and every other MR bit is cleared. A documented mode value reads back unchanged. |
| Hmc5883lDriver.SamplesAveragedUpdate | MagnetometerHMC5883L/MagnetometerHMC5883L.cpp:23-25 | For a documented value, MA holds it and every CRA bit outside the MA mask is unchanged. |
| Hmc5883lDriver.DataOutputRateUpdate | MagnetometerHMC5883L/MagnetometerHMC5883L.cpp:27-29 | For any value that fits three bits, DO holds it and every other CRA bit is unchanged. |
| Hmc5883lDriver.MeasurementModeUpdate | MagnetometerHMC5883L/MagnetometerHMC5883L.cpp:31-33 | For a value that fits two bits, MS holds it and every other CRA bit is unchanged. |
| Hmc5883lDriver.GainRegister | MagnetometerHMC5883L/MagnetometerHMC5883L.cpp:35-39 | GN holds the argument's low three bits, the must-be-zero bits 0-4 are zero, and a documented gain is the register's top three bits. |
| Hmc5883lDriver.SamplesAveragedSpill | MagnetometerHMC5883L/MagnetometerHMC5883L.cpp:24 | An out-of-range value 4 clears MA and sets CRA7, a bit outside the mask. |
| Hmc5883lDriver.SamplesAveragedFields | MagnetometerHMC5883L/MagnetometerHMC5883L.cpp:23-25 | setSamplesAveraged with a documented value sets MA and keeps DO, MS and CRA7. |
| Hmc5883lDriver.DataOutputRateFields | MagnetometerHMC5883L/MagnetometerHMC5883L.cpp:27-29 | setDataOutputRate sets DO and keeps MA, MS and CRA7. |
| Hmc5883lDriver.MeasurementModeFields | MagnetometerHMC5883L/MagnetometerHMC5883L.cpp:31-33 | setMeasurementMode sets MS and keeps MA, DO and CRA7. |
| Hmc5883lDriver.SamplesAveragedDataOutputRateCommute | MagnetometerHMC5883L/MagnetometerHMC5883L.cpp:23-29 | setSamplesAveraged and setDataOutputRate give the same CRA in either order. |
| Hmc5883lDriver.SamplesAveragedMeasurementModeCommute | MagnetometerHMC5883L/MagnetometerHMC5883L.cpp:23-33 | setSamplesAveraged and setMeasurementMode give the same CRA in either order. |
| Hmc5883lDriver.DataOutputRateMeasurementModeCommute | MagnetometerHMC5883L/MagnetometerHMC5883L.cpp:27-33 | setDataOutputRate and setMeasurementMode give the same CRA in either order. |
| Hmc5883lDriver.CraSettingsLastWins | MagnetometerHMC5883L/MagnetometerHMC5883L.cpp:23-33 | After any sequence of documented CRA setter calls, each field holds the argument of the last call that set it, or its old value if none did, and CRA7 is unchanged. |
| Hmc5883lDriver.Int16Value | MagnetometerHMC5883L/MagnetometerHMC5883L.cpp:14-15 | The int16_t value of `(msb << 8) \| lsb`: in [-32768, 32767], congruent to MSB*256+LSB mod 2^16, and negative exactly when the MSB's top bit is set. |
| Hmc5883lDriver.Int16SplitAssemble | MagnetometerHMC5883L/MagnetometerHMC5883L.cpp:14-15 | Splitting a 16-bit sample into MSB and LSB and reassembling it gives it back. |
| Hmc5883lDriver.Int16AssembleSplit | MagnetometerHMC5883L/MagnetometerHMC5883L.cpp:14-15 | Assembling two bytes and splitting the result gives the same two bytes. |
| Hmc5883lDriver.Int16ValueInjective | MagnetometerHMC5883L/MagnetometerHMC5883L.cpp:14-15 | Two samples with the same int16 value have the same bits, so no reading is lost. |
| Hmc5883lDriver.OperatingModeSelects | MagnetometerHMC5883L/MagnetometerHMC5883L.cpp:19-21 | setOperatingMode given the documented MD bits of a mode puts the chip in that mode. |
| Hmc5883lDriver.Hmc5883l.SetOperatingMode | MagnetometerHMC5883L/MagnetometerHMC5883L.cpp:19-21 | Only MR changes. It becomes `OperatingModeRegister(mode)`, which is at most 3. |
| Hmc5883lDriver.Hmc5883l.SetSamplesAveraged | MagnetometerHMC5883L/MagnetometerHMC5883L.cpp:23-25 | Only CRA changes, to `SamplesAveragedUpdate`. MA holds the value and every bit outside the mask is kept. |
| Hmc5883lDriver.Hmc5883l.SetDataOutputRate | MagnetometerHMC5883L/MagnetometerHMC5883L.cpp:27-29 | Only CRA changes, to `DataOutputRateUpdate`. DO holds the value and every bit outside the mask is kept. |
| Hmc5883lDriver.Hmc5883l.SetMeasurementMode | MagnetometerHMC5883L/MagnetometerHMC5883L.cpp:31-33 | Only CRA changes, to `MeasurementModeUpdate`. MS holds the value and every bit outside the mask is kept. |
| Hmc5883lDriver.Hmc5883l.SetGain | MagnetometerHMC5883L/MagnetometerHMC5883L.cpp:35-39 | Only CRB changes, and it becomes `GainRegister(gain)`. |
| Hmc5883lDriver.Hmc5883l.GetStatusRegister | MagnetometerHMC5883L/MagnetometerHMC5883L.cpp:41-45 | Returns SR unchanged. RDY is set exactly when SR bit 0 is, and LOCK exactly when SR bit 1 is. |
| Hmc5883lDriver.Hmc5883l.ReadSample | MagnetometerHMC5883L/MagnetometerHMC5883L.cpp:47-49 | The buffer's first six bytes are registers DXRA..DXRA+5 in order, the rest is unchanged, and the result is 6. |
| Hmc5883lDriver.Hmc5883l.GetHeadingAxes | MagnetometerHMC5883L/MagnetometerHMC5883L.cpp:10-15 | x and y are the int16 values of the documented X MSB/LSB and Y MSB/LSB registers. |
| Hmc5983Driver.TemperatureSensorUpdate | MagnetometerHMC5983/MagnetometerHMC5983.cpp:6-8 | CRA7 takes the argument's low bit and bits 0-6 are unchanged. |
| Hmc5983Driver.HighSpeedUpdate | MagnetometerHMC5983/MagnetometerHMC5983.cpp:10-12 | HS takes the argument's low bit and every other MR bit is unchanged. |
| Hmc5983Driver.LowestPowerUpdate | MagnetometerHMC5983/MagnetometerHMC5983.cpp:14-16 | For an option value, LP holds it and every other MR bit is unchanged. For any value, the mode-select bits are unchanged. |
| Hmc5983Driver.SerialInterfaceUpdate | MagnetometerHMC5983/MagnetometerHMC5983.cpp:18-20 | As written: SIM is always cleared. THREE_WIRE sets MR3 instead of SIM. FOUR_WIRE clears only SIM and so cannot undo a stray MR3. Bits other than 2-3 and the mode-select bits are kept. |
| Hmc5983Driver.SerialInterfaceUpdateCorrected | MagnetometerHMC5983/MagnetometerHMC5983.cpp:18-20 | With the shift that matches the SIM mask: SIM holds the option and every other MR bit is unchanged. |
| Hmc5983Driver.SerialInterfaceShiftMisplaced | MagnetometerHMC5983/MagnetometerHMC5983.cpp:19 | `1 << 3` misses the SIM mask. THREE_WIRE as written gives `(mr & 0xfb) \| 0x08` with SIM 0, while the corrected update gives SIM 1. |
| Hmc5983Driver.OperatingModeClearsExtendedBits | MagnetometerHMC5883L/MagnetometerHMC5883L.cpp:19-21 | setOperatingMode overwrites MR, so it clears HS, LP and SIM for every mode. |
| Hmc5983Driver.TemperatureCelsius | MagnetometerHMC5983/MagnetometerHMC5983.cpp:25 | The temperature of a 16-bit raw value: raw/128 + 25, so (t - 25) * 128 is the raw value, and t lies in [25, 25 + 65535/128]. |
| Hmc5983Driver.TemperatureExamples | MagnetometerHMC5983/MagnetometerHMC5983.cpp:25 | Raw 0 is 25 C, raw 128 is 26 C, and raw 0xffff is the maximum. |
| Hmc5983Driver.TemperatureMonotone | MagnetometerHMC5983/MagnetometerHMC5983.cpp:25 | A larger raw value gives a higher temperature. |
| Hmc5983Driver.RawAsWritten | MagnetometerHMC5983/MagnetometerHMC5983.cpp:23-24 | Copying the two bytes into a uint16_t on a little-endian target: the first byte (TEMPH) is the low byte and the second the high byte. |
| Hmc5983Driver.RawMsbFirst | MagnetometerHMC5983/MagnetometerHMC5983.h:217-218 | TEMPH as MSB and TEMPL as LSB: its temperature is exactly the documented formula's. |
| Hmc5983Driver.TemperatureByteOrderSwapped | MagnetometerHMC5983/MagnetometerHMC5983.cpp:23-25 | TEMPH=0, TEMPL=0x80 is documented as 26 C, but the code gives 281 C. The code's raw value is the documented one with the bytes swapped. |
| Hmc5983Driver.ExtendedSettingsKeepBaseConfiguration | MagnetometerHMC5983/MagnetometerHMC5983.cpp:6-20 | Any sequence of HMC5983 setter calls, with any arguments, keeps the operating mode, CRA bits 0-6 and every register other than CRA and MR. This holds for the serial-interface call both as written (shift 3) and corrected (shift 2). |
| Hmc5983Driver.Hmc5983.SetTemperatureSensor | MagnetometerHMC5983/MagnetometerHMC5983.cpp:6-8 | The register file becomes the TemperatureSensor update of the old one, and CRA7 holds the option. |
| Hmc5983Driver.Hmc5983.SetHighSpeedMode | MagnetometerHMC5983/MagnetometerHMC5983.cpp:10-12 | The register file becomes the HighSpeed update of the old one, and MR7 holds the option. |
| Hmc5983Driver.Hmc5983.SetLowestPowerMode | MagnetometerHMC5983/MagnetometerHMC5983.cpp:14-16 | The register file becomes the LowestPower update of the old one, and LP holds the option. |
| Hmc5983Driver.Hmc5983.SetSerialInterfaceMode | MagnetometerHMC5983/MagnetometerHMC5983.cpp:18-20 | With the corrected shift: the register file becomes the SerialInterface update of the old one, and SIM holds the option. |
| Hmc5983Driver.Hmc5983.GetTemperature | MagnetometerHMC5983/MagnetometerHMC5983.cpp:22-26 | Reads TEMPH and TEMPL in one block. With the corrected byte order, the result is the documented formula applied to TEMPH (MSB) and TEMPL (LSB), and lies in [25, 25 + 65535/128]. |
| Magnetometer.NormalizeDegrees | Magnetometer/Magnetometer.cpp:12-14 | An angle in [-180, 180] is moved into [0, 360). A negative angle gets 360 added and any other angle is kept. |

## Left out

- The transport (I2C/SPI, `Wire`, the device address 0x1e): `RegisterDevice`
  stands for it as a 256-byte register file with the read, write, block-read
  and read-modify-write operations the drivers call. Its source is not part
  of this model.
- WiredDevice.Configure: the semantics `(reg & ~mask) | value` are an
  assumption about configureRegisterBits, whose source is not part of this
  model.
- WiredDevice.RegisterDevice.ReadRegisterBlock: assumed to always read all n
  bytes and return n. Bus errors and short reads are not modelled.
- Chip behaviour is not modelled: measurement, the clearing of RDY, the LOCK
  and data-output-register lock rules, MR7 being set after a single
  measurement, and DOW. Registers change only through the driver's writes.
- The heading's `atan2` and radians-to-degrees conversion (floating point):
  `Hmc5883lDriver.Hmc5883l.GetHeadingAxes` gives the two int16 inputs and
  `Magnetometer.NormalizeDegrees` the final wrap over the reals. The
  trigonometry between them is not modelled.
- Hmc5983Driver.TemperatureCelsius: computed exactly over the reals, not in
  IEEE double. Every raw value fits in a double exactly, and the division by
  128 is exact, so only the representation differs.
- Hmc5983Driver.RawAsWritten: assumes a little-endian target (the usual
  Arduino AVR and ARM cores). On a big-endian target the code would read the
  documented order.
- Hmc5883lDriver.Hmc5883l.SetSamplesAveraged: requires a documented
  SamplesAveraged value, because a wider value spills outside the mask.
  `Hmc5883lDriver.SamplesAveragedSpill` shows what 4 does.
- Hmc5883lDriver.Hmc5883l.SetDataOutputRate: requires a documented
  DataOutputRate value. The update function itself is stated for every
  value up to 7.
- Hmc5883lDriver.Hmc5883l.SetMeasurementMode: requires a documented
  MeasurementMode value. The update function itself is stated for every
  value up to 3.
- Hmc5983Driver.Hmc5983.SetTemperatureSensor,
  Hmc5983Driver.Hmc5983.SetHighSpeedMode and
  Hmc5983Driver.Hmc5983.SetLowestPowerMode: require an option value of 0 or 1.
  Their whole-state `ensures` holds for any value, through the update
  functions.
- Hmc5983Driver.Hmc5983.SetSerialInterfaceMode: same requirement as the
  other HMC5983 setters. It uses the corrected shift. The code's shift is
  modelled by `Hmc5983Driver.SerialInterfaceUpdate`.
- Hmc5983Driver.Hmc5983.GetTemperature: uses the documented byte order. The
  code's order is modelled by `Hmc5983Driver.RawAsWritten`.
- The HMC5983 inherits the HMC5883L's operations. In the model it holds a
  `base: Hmc5883l` and callers reach those operations through it.
- Constructors and destructors do nothing beyond storing the device address.
  The gain-to-resolution tables in the header comments are documentation
  only.
- Compass.h is an interface with no behaviour of its own.
- Magnetometer.NormalizeDegrees: its range requirement is what `atan2`
  guarantees. The model does not derive it.

## Findings

| source | as written | input that shows it | evidently intended | confidence | as-written member | corrected member |
|---|---|---|---|---|---|---|
| MagnetometerHMC5883L/MagnetometerHMC5883L.h:369-373 | `IDLE_MODE = 0x00`, `CONTINUOUS_MEASUREMENT_MODE = 0x01`, `SINGLE_MEASUREMENT_MODE = 0x02`, passed to setOperatingMode as the MD bits | `setOperatingMode(IDLE_MODE)` writes MD = 00, which the mode table (h:158-169) decodes as continuous measurement | continuous = 00, single = 01, idle = 10 (or 11) | high (not executed) | Hmc5883lRegisters.EnumModeValuesMislabelled | Hmc5883lRegisters.ModeBits |
| MagnetometerHMC5983/MagnetometerHMC5983.cpp:19 | `serialInterfaceMode << 3` under `MR_SIM_MASK` (0x04) | `setSerialInterfaceMode(THREE_WIRE)` leaves SIM = 0 and sets reserved MR3 | `serialInterfaceMode << 2`, matching the mask and EMRbits (SIM is bit 2) | high (not executed) | Hmc5983Driver.SerialInterfaceShiftMisplaced | Hmc5983Driver.SerialInterfaceUpdateCorrected |
| MagnetometerHMC5983/MagnetometerHMC5983.cpp:23-24 | the TEMPH/TEMPL block is copied into a `uint16_t` in memory order | TEMPH = 0x00, TEMPL = 0x80: documented 26 C, returned 281 C on a little-endian target | raw = TEMPH * 256 + TEMPL (h:218) | high (not executed) | Hmc5983Driver.TemperatureByteOrderSwapped | Hmc5983Driver.RawMsbFirst |
