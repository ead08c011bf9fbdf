/** The HMC5883L driver (MagnetometerHMC5883L.cpp): setters that encode a
    configuration value into a register write, the status read, the
    six-byte sample read and the assembly of the X and Y samples that the
    heading is computed from. */
module Hmc5883lDriver {
  import opened Hmc5883lRegisters
  import opened WiredDevice

  // ----- Register values written by the setters -----

  /** MR after setOperatingMode(mode): the two mode-select bits of `mode`,
      every other bit cleared. */
  function OperatingModeRegister(mode: bv8): (mr: bv8)
    ensures MrMd.Get(mr) == mode & 0x03
    ensures mr & !MrMask == 0
    ensures mode <= SingleMeasurementModeValue ==> MrMd.Get(mr) == mode
  {
    mode & MrMask
  }

  /** CRA after setSamplesAveraged(samples). */
  function SamplesAveragedUpdate(cra: bv8, samples: bv8): (r: bv8)
    ensures samples <= MaxSamplesAveraged ==> CraMa.Get(r) == samples && r & !CraMsMask == cra & !CraMsMask
  {
    Configure(cra, CraMsMask, samples << 5)
  }

  /** CRA after setDataOutputRate(rate). Every value that fits the 3-bit
      field, the reserved rate 7 included, stays inside it. */
  function DataOutputRateUpdate(cra: bv8, rate: bv8): (r: bv8)
    ensures rate <= 7 ==> CraDo.Get(r) == rate && r & !CraDoMask == cra & !CraDoMask
  {
    Configure(cra, CraDoMask, rate << 2)
  }

  /** CRA after setMeasurementMode(mode). */
  function MeasurementModeUpdate(cra: bv8, mode: bv8): (r: bv8)
    ensures mode <= 3 ==> CraMs.Get(r) == mode && r & !CraMaMask == cra & !CraMaMask
  {
    Configure(cra, CraMaMask, mode)
  }

  /** CRB after setGain(gain): the bit-field assignment keeps the low three
      bits of `gain` in GN and the must-be-zero bits 0-4 are zero. */
  function GainRegister(gain: bv8): (crb: bv8)
    ensures CrbGn.Get(crb) == gain & 0x07
    ensures crb & 0x1f == 0
    ensures gain <= MaxGain ==> crb >> 5 == gain
  {
    CrbGn.Set(0, gain)
  }

  /** setOperatingMode given the documented mode-select bits of a mode puts
      the chip in that mode. */
  lemma OperatingModeSelects(m: OperatingMode)
    ensures ChipMode(MrMd.Get(OperatingModeRegister(ModeBits(m)))) == m
  {
    ModeBitsRoundTrip(m, 0);
  }

  // ----- Sample assembly -----

  /** The 16 bits `(msb << 8) | lsb` that getHeading stores into an int16_t. */
  function Word(msb: bv8, lsb: bv8): bv16
  {
    ((msb as bv16) << 8) | (lsb as bv16)
  }

  /** The most significant byte of an int16_t, as the chip stores it first. */
  function Msb(w: bv16): bv8
  {
    (w >> 8) as bv8
  }

  /** The least significant byte of an int16_t. */
  function Lsb(w: bv16): bv8
  {
    (w & 0xff) as bv8
  }

  /** The number an int16_t with these bits holds (two's complement):
      MSB * 256 + LSB, less 2^16 when the sign bit is set. */
  function Int16Value(w: bv16): (v: int)
    ensures -0x8000 <= v < 0x8000
    ensures v % 0x10000 == Msb(w) as int * 0x100 + Lsb(w) as int
    ensures v < 0 <==> Msb(w) >= 0x80
  {
    var m, l := Msb(w) as int, Lsb(w) as int;
    SignedFromBytes(m, l);
    assert Msb(w) >= 0x80 <==> m >= 0x80;
    Signed16(m * 0x100 + l)
  }

  /** The two's-complement reading of an unsigned 16-bit number. */
  function Signed16(u: int): int
  {
    if u < 0x8000 then u else u - 0x10000
  }

  /** The two's-complement reading of MSB * 256 + LSB lies in the int16
      range, agrees with it modulo 2^16 and is negative exactly when the
      MSB is 0x80 or more. */
  lemma SignedFromBytes(m: int, l: int)
    requires 0 <= m < 0x100 && 0 <= l < 0x100
    ensures -0x8000 <= Signed16(m * 0x100 + l) < 0x8000
    ensures Signed16(m * 0x100 + l) % 0x10000 == m * 0x100 + l
    ensures Signed16(m * 0x100 + l) < 0 <==> m >= 0x80
  {
    var u := m * 0x100 + l;
    assert 0 <= u < 0x10000;
    assert u < 0x8000 <==> m < 0x80;
  }

  /** Splitting an int16 into MSB and LSB and reassembling gives it back. */
  lemma Int16SplitAssemble(w: bv16)
    ensures Word(Msb(w), Lsb(w)) == w
  {
  }

  /** Assembling two bytes and splitting the result gives the same bytes. */
  lemma Int16AssembleSplit(msb: bv8, lsb: bv8)
    ensures Msb(Word(msb, lsb)) == msb && Lsb(Word(msb, lsb)) == lsb
  {
  }

  lemma DivModByte(m: int, l: int)
    requires 0 <= l < 0x100
    ensures (m * 0x100 + l) / 0x100 == m && (m * 0x100 + l) % 0x100 == l
  {
  }

  lemma ByteIntByte(b: bv8)
    ensures (b as int) as bv8 == b
  {
  }

  /** MSB * 256 + LSB determines both bytes. */
  lemma UnsignedDeterminesBytes(m1: bv8, l1: bv8, m2: bv8, l2: bv8)
    requires m1 as int * 0x100 + l1 as int == m2 as int * 0x100 + l2 as int
    ensures m1 == m2 && l1 == l2
  {
    DigitsEqual(m1 as int, l1 as int, m2 as int, l2 as int);
    ByteEqual(m1, m2);
    ByteEqual(l1, l2);
  }

  /** Base-256 digits are unique: m * 256 + l determines m and l. */
  lemma DigitsEqual(m1: int, l1: int, m2: int, l2: int)
    requires 0 <= l1 < 0x100 && 0 <= l2 < 0x100
    requires m1 * 0x100 + l1 == m2 * 0x100 + l2
    ensures m1 == m2 && l1 == l2
  {
    var u := m1 * 0x100 + l1;
    DivModByte(m1, l1);
    DivModByte(m2, l2);
    assert u / 0x100 == m1 && u % 0x100 == l1;
    assert u / 0x100 == m2 && u % 0x100 == l2;
  }

  lemma ByteEqual(a: bv8, b: bv8)
    requires a as int == b as int
    ensures a == b
  {
    ByteIntByte(a);
    ByteIntByte(b);
  }

  /** Different bits are different numbers, so the value of an assembled
      sample determines the two bytes it came from. */
  lemma Int16ValueInjective(a: bv16, b: bv16)
    requires Int16Value(a) == Int16Value(b)
    ensures a == b
  {
    var ua := Msb(a) as int * 0x100 + Lsb(a) as int;
    var ub := Msb(b) as int * 0x100 + Lsb(b) as int;
    assert ua < 0x8000 <==> Int16Value(a) >= 0;
    assert ub < 0x8000 <==> Int16Value(b) >= 0;
    assert ua == ub;
    UnsignedDeterminesBytes(Msb(a), Lsb(a), Msb(b), Lsb(b));
    Int16SplitAssemble(a);
    Int16SplitAssemble(b);
  }

  // ----- Out-of-range values -----

  /** samplesAveraged = 4 is outside SamplesAveraged: 4 << 5 is 0x80, which
      clears the MA field and sets CRA7, a bit outside the mask. */
  lemma SamplesAveragedSpill(cra: bv8)
    ensures SamplesAveragedUpdate(cra, 4) == (cra & 0x9f) | 0x80
    ensures CraMa.Get(SamplesAveragedUpdate(cra, 4)) == 0
    ensures cra & 0x80 == 0 ==> SamplesAveragedUpdate(cra, 4) & !CraMsMask != cra & !CraMsMask
  {
  }

  // ----- Interaction of the CRA setters -----

  /** Any two of the three CRA setters give the same CRA in either order. */
  lemma SamplesAveragedDataOutputRateCommute(cra: bv8, samples: bv8, rate: bv8)
    requires samples <= MaxSamplesAveraged && rate <= 7
    ensures SamplesAveragedUpdate(DataOutputRateUpdate(cra, rate), samples)
         == DataOutputRateUpdate(SamplesAveragedUpdate(cra, samples), rate)
  {
  }

  lemma SamplesAveragedMeasurementModeCommute(cra: bv8, samples: bv8, mode: bv8)
    requires samples <= MaxSamplesAveraged && mode <= 3
    ensures SamplesAveragedUpdate(MeasurementModeUpdate(cra, mode), samples)
         == MeasurementModeUpdate(SamplesAveragedUpdate(cra, samples), mode)
  {
  }

  lemma DataOutputRateMeasurementModeCommute(cra: bv8, rate: bv8, mode: bv8)
    requires rate <= 7 && mode <= 3
    ensures DataOutputRateUpdate(MeasurementModeUpdate(cra, mode), rate)
         == MeasurementModeUpdate(DataOutputRateUpdate(cra, rate), mode)
  {
  }

  /** One call of a CRA setter, with its argument. */
  datatype CraSetting =
    | SamplesAveraged(samples: bv8)
    | DataOutputRate(rate: bv8)
    | MeasurementMode(mode: bv8)
  {
    /** The argument is one of the documented option values. */
    predicate Documented()
    {
      match this
      case SamplesAveraged(s) => s <= MaxSamplesAveraged
      case DataOutputRate(r) => r <= MaxDataOutputRate
      case MeasurementMode(m) => m <= MaxMeasurementMode
    }

    function Apply(cra: bv8): bv8
    {
      match this
      case SamplesAveraged(s) => SamplesAveragedUpdate(cra, s)
      case DataOutputRate(r) => DataOutputRateUpdate(cra, r)
      case MeasurementMode(m) => MeasurementModeUpdate(cra, m)
    }
  }

  /** CRA after the setter calls `calls`, in order. */
  function ApplyCraSettings(cra: bv8, calls: seq<CraSetting>): bv8
    decreases |calls|
  {
    if |calls| == 0 then cra else ApplyCraSettings(calls[0].Apply(cra), calls[1..])
  }

  /** The argument of the last SamplesAveraged call, or `current` if none. */
  function LastSamplesAveraged(calls: seq<CraSetting>, current: bv8): bv8
    decreases |calls|
  {
    if |calls| == 0 then current
    else LastSamplesAveraged(calls[1..], if calls[0].SamplesAveraged? then calls[0].samples else current)
  }

  /** The argument of the last DataOutputRate call, or `current` if none. */
  function LastDataOutputRate(calls: seq<CraSetting>, current: bv8): bv8
    decreases |calls|
  {
    if |calls| == 0 then current
    else LastDataOutputRate(calls[1..], if calls[0].DataOutputRate? then calls[0].rate else current)
  }

  /** The argument of the last MeasurementMode call, or `current` if none. */
  function LastMeasurementMode(calls: seq<CraSetting>, current: bv8): bv8
    decreases |calls|
  {
    if |calls| == 0 then current
    else LastMeasurementMode(calls[1..], if calls[0].MeasurementMode? then calls[0].mode else current)
  }

  /** setSamplesAveraged changes MA and no other CRA field. */
  lemma SamplesAveragedFields(cra: bv8, samples: bv8)
    requires samples <= MaxSamplesAveraged
    ensures CraMa.Get(SamplesAveragedUpdate(cra, samples)) == samples
    ensures CraDo.Get(SamplesAveragedUpdate(cra, samples)) == CraDo.Get(cra)
    ensures CraMs.Get(SamplesAveragedUpdate(cra, samples)) == CraMs.Get(cra)
    ensures SamplesAveragedUpdate(cra, samples) & 0x80 == cra & 0x80
  {
  }

  /** setDataOutputRate changes DO and no other CRA field. */
  lemma DataOutputRateFields(cra: bv8, rate: bv8)
    requires rate <= 7
    ensures CraMa.Get(DataOutputRateUpdate(cra, rate)) == CraMa.Get(cra)
    ensures CraDo.Get(DataOutputRateUpdate(cra, rate)) == rate
    ensures CraMs.Get(DataOutputRateUpdate(cra, rate)) == CraMs.Get(cra)
    ensures DataOutputRateUpdate(cra, rate) & 0x80 == cra & 0x80
  {
  }

  /** setMeasurementMode changes MS and no other CRA field. */
  lemma MeasurementModeFields(cra: bv8, mode: bv8)
    requires mode <= 3
    ensures CraMa.Get(MeasurementModeUpdate(cra, mode)) == CraMa.Get(cra)
    ensures CraDo.Get(MeasurementModeUpdate(cra, mode)) == CraDo.Get(cra)
    ensures CraMs.Get(MeasurementModeUpdate(cra, mode)) == mode
    ensures MeasurementModeUpdate(cra, mode) & 0x80 == cra & 0x80
  {
  }

  /** One documented CRA setter call sets its own field to its argument
      and keeps the other two fields and CRA7. */
  lemma CraSettingStep(cra: bv8, call: CraSetting)
    requires call.Documented()
    ensures CraMa.Get(call.Apply(cra)) == if call.SamplesAveraged? then call.samples else CraMa.Get(cra)
    ensures CraDo.Get(call.Apply(cra)) == if call.DataOutputRate? then call.rate else CraDo.Get(cra)
    ensures CraMs.Get(call.Apply(cra)) == if call.MeasurementMode? then call.mode else CraMs.Get(cra)
    ensures call.Apply(cra) & 0x80 == cra & 0x80
  {
    match call
    case SamplesAveraged(s) => SamplesAveragedFields(cra, s);
    case DataOutputRate(r) => DataOutputRateFields(cra, r);
    case MeasurementMode(m) => MeasurementModeFields(cra, m);
  }

  /** Whatever the order of the CRA setter calls, each field ends up holding
      the argument of the last call that set it, and CRA7 is never touched. */
  lemma {:induction false} CraSettingsLastWins(cra: bv8, calls: seq<CraSetting>)
    requires forall i :: 0 <= i < |calls| ==> calls[i].Documented()
    ensures CraMa.Get(ApplyCraSettings(cra, calls)) == LastSamplesAveraged(calls, CraMa.Get(cra))
    ensures CraDo.Get(ApplyCraSettings(cra, calls)) == LastDataOutputRate(calls, CraDo.Get(cra))
    ensures CraMs.Get(ApplyCraSettings(cra, calls)) == LastMeasurementMode(calls, CraMs.Get(cra))
    ensures ApplyCraSettings(cra, calls) & 0x80 == cra & 0x80
    decreases |calls|
  {
    if |calls| > 0 {
      CraSettingStep(cra, calls[0]);
      CraSettingsLastWins(calls[0].Apply(cra), calls[1..]);
    }
  }

  // ----- The driver -----

  /** An HMC5883L on the bus. The chip's registers are the only state:
      the driver keeps no copy of the configuration. */
  class Hmc5883l {
    const bus: RegisterDevice

    ghost predicate Valid()
      reads this, bus
    {
      bus.Valid()
    }

    constructor (bus: RegisterDevice)
      requires bus.Valid()
      ensures this.bus == bus && Valid()
    {
      this.bus := bus;
    }

    /** Overwrites MR with the mode-select bits of `mode`; any bit set in
        MR2..MR7 before is cleared. */
    method SetOperatingMode(mode: bv8)
      requires Valid()
      modifies bus.regs
      ensures bus.regs[..] == old(bus.regs[..])[MR := OperatingModeRegister(mode)]
      ensures bus.regs[MR] <= 0x03
    {
      bus.WriteRegister(MR, mode & MrMask);
    }

    method SetSamplesAveraged(samples: bv8)
      requires Valid() && samples <= MaxSamplesAveraged
      modifies bus.regs
      ensures bus.regs[..] == old(bus.regs[..])[CRA := SamplesAveragedUpdate(old(bus.regs[CRA]), samples)]
      ensures CraMa.Get(bus.regs[CRA]) == samples
      ensures bus.regs[CRA] & !CraMsMask == old(bus.regs[CRA]) & !CraMsMask
    {
      bus.ConfigureRegisterBits(CRA, CraMsMask, samples << 5);
    }

    method SetDataOutputRate(rate: bv8)
      requires Valid() && rate <= MaxDataOutputRate
      modifies bus.regs
      ensures bus.regs[..] == old(bus.regs[..])[CRA := DataOutputRateUpdate(old(bus.regs[CRA]), rate)]
      ensures CraDo.Get(bus.regs[CRA]) == rate
      ensures bus.regs[CRA] & !CraDoMask == old(bus.regs[CRA]) & !CraDoMask
    {
      bus.ConfigureRegisterBits(CRA, CraDoMask, rate << 2);
    }

    method SetMeasurementMode(mode: bv8)
      requires Valid() && mode <= MaxMeasurementMode
      modifies bus.regs
      ensures bus.regs[..] == old(bus.regs[..])[CRA := MeasurementModeUpdate(old(bus.regs[CRA]), mode)]
      ensures CraMs.Get(bus.regs[CRA]) == mode
      ensures bus.regs[CRA] & !CraMaMask == old(bus.regs[CRA]) & !CraMaMask
    {
      bus.ConfigureRegisterBits(CRA, CraMaMask, mode);
    }

    /** Overwrites CRB with GN = gain (truncated to three bits) and the
        must-be-zero bits cleared. */
    method SetGain(gain: bv8)
      requires Valid()
      modifies bus.regs
      ensures bus.regs[..] == old(bus.regs[..])[CRB := GainRegister(gain)]
    {
      var crb := CrbGn.Set(0, gain);
      bus.WriteRegister(CRB, crb);
    }

    /** Reads SR and nothing else; RDY and LOCK are the views
        SrRdy.Get(sr) and SrLock.Get(sr). */
    method GetStatusRegister() returns (sr: bv8)
      requires Valid()
      ensures sr == bus.regs[SR]
      ensures SrRdy.Get(sr) == 1 <==> bus.regs[SR] & 0x01 != 0
      ensures SrLock.Get(sr) == 1 <==> bus.regs[SR] & 0x02 != 0
    {
      sr := bus.ReadRegister(SR);
    }

    /** Reads the six data-output registers, in address order, into buf. */
    method ReadSample(buf: array<bv8>) returns (count: nat)
      requires Valid() && buf.Length >= SampleLength && buf != bus.regs
      modifies buf
      ensures buf[..SampleLength] == bus.regs[DXRA .. DXRA + SampleLength]
      ensures buf[SampleLength..] == old(buf[SampleLength..])
      ensures count == SampleLength
    {
      count := bus.ReadRegisterBlock(DXRA, buf, SampleLength);
    }

    /** The X and Y samples getHeading passes to the angle computation:
        bytes 0-1 and 4-5 of the sample block, which the documented map
        assigns to X and Y. */
    method GetHeadingAxes() returns (x: int, y: int)
      requires Valid()
      ensures x == Int16Value(Word(bus.regs[DocumentedAddress(XMsb)], bus.regs[DocumentedAddress(XLsb)]))
      ensures y == Int16Value(Word(bus.regs[DocumentedAddress(YMsb)], bus.regs[DocumentedAddress(YLsb)]))
    {
      var buf := new bv8[SampleLength];
      var _ := ReadSample(buf);
      assert buf[0] == buf[..SampleLength][0] && buf[1] == buf[..SampleLength][1];
      assert buf[4] == buf[..SampleLength][4] && buf[5] == buf[..SampleLength][5];
      x := Int16Value(Word(buf[0], buf[1]));
      y := Int16Value(Word(buf[4], buf[5]));
    }
  }
}
