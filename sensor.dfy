/** The driver object: the stored baseline resistances, calibration, and
    the averaged resistance reading of a channel. */
module Mics6814 {
  import opened Adc
  import opened SlidingWindow
  import opened Calibration

  /** A `channel_t` argument. C++ lets an enum variable hold a value outside
      its enumerators; such a value is `OutOfRange`. */
  datatype ChannelCode = Known(ch: Channel) | OutOfRange(code: int)

  /** The values `analogRead` returns on each pin, in the order they are
      read; each loop of `getResistance` consumes the first 100. */
  datatype PinSamples = PinSamples(co: seq<Sample>, no2: seq<Sample>, nh3: seq<Sample>)

  /** Samples taken per pin by one loop of `getResistance`. */
  const SamplesPerPin: int := 100

  /** The samples `getResistance` adds up: the `switch` has no `break`, so
      the CO case falls through into the NO2 and NH3 loops and the NO2 case
      into the NH3 loop; an out-of-range channel matches no case. */
  function Accumulated(c: ChannelCode, p: PinSamples): (s: seq<Sample>)
    requires c == Known(CO) ==> |p.co| >= SamplesPerPin
    requires c == Known(CO) || c == Known(NO2) ==> |p.no2| >= SamplesPerPin
    requires c.Known? ==> |p.nh3| >= SamplesPerPin
    ensures c.Known? ==> |s| >= SamplesPerPin && s[|s| - SamplesPerPin..] == p.nh3[..SamplesPerPin]
    ensures c.OutOfRange? <==> s == []
  {
    match c
    case Known(CO) => p.co[..SamplesPerPin] + p.no2[..SamplesPerPin] + p.nh3[..SamplesPerPin]
    case Known(NO2) => p.no2[..SamplesPerPin] + p.nh3[..SamplesPerPin]
    case Known(NH3) => p.nh3[..SamplesPerPin]
    case OutOfRange(_) => []
  }

  /** CO averages 300 samples, NO2 200 and NH3 100; an out-of-range channel
      none. */
  lemma AccumulatedCount(c: ChannelCode, p: PinSamples)
    requires c == Known(CO) ==> |p.co| >= SamplesPerPin
    requires c == Known(CO) || c == Known(NO2) ==> |p.no2| >= SamplesPerPin
    requires c.Known? ==> |p.nh3| >= SamplesPerPin
    ensures |Accumulated(c, p)| == match c
      case Known(CO) => 300
      case Known(NO2) => 200
      case Known(NH3) => 100
      case OutOfRange(_) => 0
  {
  }

  /** The sum of the accumulated samples, pin by pin. */
  lemma AccumulatedSum(c: ChannelCode, p: PinSamples)
    requires c == Known(CO) ==> |p.co| >= SamplesPerPin
    requires c == Known(CO) || c == Known(NO2) ==> |p.no2| >= SamplesPerPin
    requires c.Known? ==> |p.nh3| >= SamplesPerPin
    ensures Sum(Accumulated(c, p)) ==
      (if c == Known(CO) then Sum(p.co[..SamplesPerPin]) else 0)
      + (if c == Known(CO) || c == Known(NO2) then Sum(p.no2[..SamplesPerPin]) else 0)
      + (if c.Known? then Sum(p.nh3[..SamplesPerPin]) else 0)
  {
    match c
    case Known(CO) =>
      SumConcat(p.co[..SamplesPerPin] + p.no2[..SamplesPerPin], p.nh3[..SamplesPerPin]);
      SumConcat(p.co[..SamplesPerPin], p.no2[..SamplesPerPin]);
    case Known(NO2) =>
      SumConcat(p.no2[..SamplesPerPin], p.nh3[..SamplesPerPin]);
    case _ =>
  }

  /** One `for` loop of `getResistance`: 100 samples of one pin added to
      the 32-bit accumulator and counted. */
  method AccumulatePin(samples: seq<Sample>, rs: uint32, counter: int16) returns (rs': uint32, counter': int16)
    requires |samples| >= SamplesPerPin
    requires rs + SamplesPerPin * AdcMax < 0x1_0000_0000 && counter + SamplesPerPin < 0x8000
    ensures rs' == rs + Sum(samples[..SamplesPerPin]) <= rs + SamplesPerPin * AdcMax
    ensures counter' == counter + SamplesPerPin
  {
    SumOfSamples(samples[..SamplesPerPin]);
    rs', counter' := rs, counter;
    var i := 0;
    while i < SamplesPerPin
      invariant 0 <= i <= SamplesPerPin
      invariant rs' == rs + Sum(samples[..i])
      invariant counter' == counter + i
    {
      assert samples[..i + 1] == samples[..i] + [samples[i]];
      SumSnoc(samples[..i], samples[i]);
      SumOfSamples(samples[..i]);
      rs' := rs' + samples[i];
      counter' := counter' + 1;
      i := i + 1;
    }
  }

  class Sensor {
    /** `_baseNH3`, `_baseCO`, `_baseNO2`: the baseline resistances. */
    var baseNH3: uint16
    var baseCO: uint16
    var baseNO2: uint16

    /** The pins the driver reads are not part of this model; the baselines
        start with unspecified values until calibration or loading. */
    constructor ()
    {
    }

    /** `loadCalibrationData`: store previously obtained baselines. */
    method LoadCalibrationData(nh3: uint16, co: uint16, no2: uint16)
      modifies this
      ensures baseNH3 == nh3 && baseCO == co && baseNO2 == no2
    {
      baseNH3 := nh3;
      baseCO := co;
      baseNO2 := no2;
    }

    /** `getBaseResistance`: the stored baseline of a channel, or 0 for a
        channel value outside the enumeration. */
    function GetBaseResistance(c: ChannelCode): (r: uint16)
      reads this
      ensures c == Known(NH3) ==> r == baseNH3
      ensures c == Known(CO) ==> r == baseCO
      ensures c == Known(NO2) ==> r == baseNO2
      ensures c.OutOfRange? ==> r == 0
    {
      match c
      case Known(NH3) => baseNH3
      case Known(CO) => baseCO
      case Known(NO2) => baseNO2
      case OutOfRange(_) => 0
    }

    /** `calibrate`: run the stability loop over the given ticks and, once
        it exits, store each channel's floating average as its baseline.
        When the ticks run out first the driver would still be looping; the
        baselines are then left as they were. */
    method Calibrate(ticks: seq<TickSamples>) returns (converged: bool)
      modifies this
      ensures converged == CalibrationSpec(ticks).Some?
      ensures converged ==> var b := CalibrationSpec(ticks).value.baselines;
        baseNH3 == b.nh3 && baseCO == b.co && baseNO2 == b.no2
      ensures !converged ==> baseNH3 == old(baseNH3) && baseCO == old(baseCO) && baseNO2 == old(baseNO2)
    {
      var r := RunCalibration(ticks);
      converged := r.Some?;
      if converged {
        baseNH3 := r.value.baselines.nh3;
        baseCO := r.value.baselines.co;
        baseNO2 := r.value.baselines.no2;
      }
    }

    /** `getResistance`: the truncated mean of the samples the `switch`
        accumulates, or 0 when it accumulated none. */
    method GetResistance(c: ChannelCode, p: PinSamples) returns (r: uint16)
      requires c == Known(CO) ==> |p.co| >= SamplesPerPin
      requires c == Known(CO) || c == Known(NO2) ==> |p.no2| >= SamplesPerPin
      requires c.Known? ==> |p.nh3| >= SamplesPerPin
      ensures c.Known? ==> Accumulated(c, p) != [] && r == Mean(Accumulated(c, p))
      ensures c.Known? ==> Min(Accumulated(c, p)) <= r <= Max(Accumulated(c, p))
      ensures c.OutOfRange? ==> r == 0
    {
      var rs: uint32 := 0;
      var counter: int16 := 0;
      if c == Known(CO) {
        rs, counter := AccumulatePin(p.co, rs, counter);
      }
      if c == Known(CO) || c == Known(NO2) {
        rs, counter := AccumulatePin(p.no2, rs, counter);
      }
      if c.Known? {
        rs, counter := AccumulatePin(p.nh3, rs, counter);
      }
      ghost var acc := Accumulated(c, p);
      AccumulatedCount(c, p);
      AccumulatedSum(c, p);
      assert rs == Sum(acc) && counter == |acc|;
      r := if counter != 0 then rs / counter else 0;
    }
  }

  /** Loading baselines and reading them back through `getBaseResistance`
      returns exactly what was loaded, and an out-of-range channel still
      reads 0. */
  method LoadedBaselinesReadBack(nh3: uint16, co: uint16, no2: uint16)
      returns (rNH3: uint16, rCO: uint16, rNO2: uint16, rOut: uint16)
    ensures rNH3 == nh3 && rCO == co && rNO2 == no2 && rOut == 0
  {
    var sensor := new Sensor();
    sensor.LoadCalibrationData(nh3, co, no2);
    rNH3 := sensor.GetBaseResistance(Known(NH3));
    rCO := sensor.GetBaseResistance(Known(CO));
    rNO2 := sensor.GetBaseResistance(Known(NO2));
    rOut := sensor.GetBaseResistance(OutOfRange(3));
  }
}
