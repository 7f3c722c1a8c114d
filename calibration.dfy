/** The calibration loop: per tick, one reading per channel averaged from
    three raw samples and fed to that channel's stability tracker, until all
    three channels are stable in the same tick. The loop has no bound in the
    driver; here it runs over a finite sequence of ticks and reports `None`
    when they run out first. */
module Calibration {
  import opened Adc
  import opened SlidingWindow
  import opened Stability

  datatype Option<T> = None | Some(value: T)

  /** The three raw samples one tick takes from one channel's pin. */
  datatype Triple = Triple(first: Sample, second: Sample, third: Sample)

  /** Everything one tick reads, per channel. */
  datatype TickSamples = TickSamples(nh3: Triple, co: Triple, no2: Triple)
  {
    function Of(ch: Channel): Triple
    {
      match ch
      case NH3 => nh3
      case CO => co
      case NO2 => no2
    }
  }

  datatype Baselines = Baselines(nh3: Sample, co: Sample, no2: Sample)

  /** A finished calibration: how many ticks it took and the baselines. */
  datatype Calibrated = Calibrated(ticks: nat, baselines: Baselines)

  /** The tick's reading `cur = rs / 3`, the truncated mean of the three
      samples; the division by the literal 3 keeps it in the ADC range. */
  function Reading(t: Triple): (cur: Sample)
  {
    (t.first + t.second + t.third) / 3
  }

  /** The reading lies between the smallest and the largest of its samples,
      and is exactly the integer mean of them. */
  lemma ReadingIsMean(t: Triple)
    ensures var s := [t.first, t.second, t.third];
      && Reading(t) == Mean(s)
      && Min(s) <= Reading(t) <= Max(s)
  {
    SumOfThree(t.first, t.second, t.third);
  }

  /** The sampling loop of one channel in one tick: three samples added to
      an `unsigned long` accumulator, then divided by 3. */
  method ReadChannel(t: Triple) returns (cur: Sample)
    ensures cur == Reading(t)
  {
    var samples := [t.first, t.second, t.third];
    var rs: uint32 := 0;
    var i := 0;
    while i < 3
      invariant 0 <= i <= 3
      invariant rs == Sum(samples[..i]) <= i * AdcMax
    {
      assert samples[..i + 1] == samples[..i] + [samples[i]];
      SumSnoc(samples[..i], samples[i]);
      rs := rs + samples[i];
      i := i + 1;
    }
    assert samples[..3] == samples;
    SumOfThree(t.first, t.second, t.third);
    cur := rs / 3;
  }

  /** The readings one channel gets over the given ticks, oldest first. */
  function Readings(ticks: seq<TickSamples>, ch: Channel): (h: seq<Sample>)
    ensures |h| == |ticks|
  {
    if ticks == [] then []
    else Readings(ticks[..|ticks| - 1], ch) + [Reading(ticks[|ticks| - 1].Of(ch))]
  }

  /** The loop's exit condition after the first `k` ticks. */
  predicate AllStable(ticks: seq<TickSamples>, k: nat)
    requires 1 <= k <= |ticks|
  {
    && Stable(Readings(ticks[..k], NH3))
    && Stable(Readings(ticks[..k], CO))
    && Stable(Readings(ticks[..k], NO2))
  }

  /** The first index at or after `from` where `b` holds, if any. */
  function FirstTrue(b: seq<bool>, from: nat): (r: Option<nat>)
    ensures r.Some? ==> from <= r.value < |b| && b[r.value] && forall j :: from <= j < r.value ==> !b[j]
    ensures r.None? ==> forall j :: from <= j < |b| ==> !b[j]
    decreases |b| - from
  {
    if from >= |b| then None
    else if b[from] then Some(from)
    else FirstTrue(b, from + 1)
  }

  lemma FirstTrueAt(b: seq<bool>, k: nat)
    requires k < |b| && b[k] && forall j :: 0 <= j < k ==> !b[j]
    ensures FirstTrue(b, 0) == Some(k)
  {
  }

  /** The exit condition after each tick: entry `k` is for the first
      `k + 1` ticks. */
  function ExitFlags(ticks: seq<TickSamples>): (b: seq<bool>)
  {
    seq(|ticks|, k requires 0 <= k < |ticks| => AllStable(ticks, k + 1))
  }

  /** The tick at which the do-while loop stops: the first one (counting
      from 1) after which all three channels are stable, if any. */
  function FirstConvergence(ticks: seq<TickSamples>): (r: Option<nat>)
    ensures r.Some? ==>
              && 1 <= r.value <= |ticks|
              && AllStable(ticks, r.value)
              && forall j :: 1 <= j < r.value ==> !AllStable(ticks, j)
    ensures r.None? ==> forall j :: 1 <= j <= |ticks| ==> !AllStable(ticks, j)
  {
    var flags := ExitFlags(ticks);
    assert forall j :: 1 <= j <= |ticks| ==> flags[j - 1] == AllStable(ticks, j);
    match FirstTrue(flags, 0)
    case None => None
    case Some(i) => Some(i + 1)
  }

  /** What calibration yields on the given ticks: at the converging tick,
      each channel's baseline is its window average `fltSum / seconds`. */
  function CalibrationSpec(ticks: seq<TickSamples>): (r: Option<Calibrated>)
  {
    match FirstConvergence(ticks)
    case None => None
    case Some(k) =>
      Some(Calibrated(k, Baselines(Average(Readings(ticks[..k], NH3)),
                                   Average(Readings(ticks[..k], CO)),
                                   Average(Readings(ticks[..k], NO2)))))
  }

  /** Calibration succeeds exactly when some tick has all three channels
      stable; it then stops at the first such tick, and each baseline is the
      sum of that channel's last 10 readings over 10. */
  lemma CalibrationSpecMeaning(ticks: seq<TickSamples>)
    ensures CalibrationSpec(ticks).Some? <==> exists k :: 1 <= k <= |ticks| && AllStable(ticks, k)
    ensures var r := CalibrationSpec(ticks); r.Some? ==>
      var k := r.value.ticks;
      && 1 <= k <= |ticks|
      && AllStable(ticks, k)
      && (forall j :: 1 <= j < k ==> !AllStable(ticks, j))
      && r.value.baselines.nh3 == Sum(Last10(Readings(ticks[..k], NH3))) / 10
      && r.value.baselines.co == Sum(Last10(Readings(ticks[..k], CO))) / 10
      && r.value.baselines.no2 == Sum(Last10(Readings(ticks[..k], NO2))) / 10
  {
    match FirstConvergence(ticks)
    case None =>
    case Some(k) =>
      AverageOfLast10(Readings(ticks[..k], NH3));
      AverageOfLast10(Readings(ticks[..k], CO));
      AverageOfLast10(Readings(ticks[..k], NO2));
  }

  /** The tracker updates of one pass of the do-while body, given the
      tick's three readings; the result is the loop's exit condition. */
  method TickAll(nh3: StabilityTracker, co: StabilityTracker, no2: StabilityTracker,
                 curNH3: Sample, curCO: Sample, curNO2: Sample)
      returns (allStable: bool)
    requires nh3.buffer != co.buffer && nh3.buffer != no2.buffer && co.buffer != no2.buffer
    requires nh3.Valid() && co.Valid() && no2.Valid()
    modifies nh3, nh3.buffer, co, co.buffer, no2, no2.buffer
    ensures nh3.buffer == old(nh3.buffer) && co.buffer == old(co.buffer) && no2.buffer == old(no2.buffer)
    ensures nh3.Valid() && co.Valid() && no2.Valid()
    ensures nh3.History == old(nh3.History) + [curNH3]
    ensures co.History == old(co.History) + [curCO]
    ensures no2.History == old(no2.History) + [curNO2]
    ensures allStable == (Stable(nh3.History) && Stable(co.History) && Stable(no2.History))
  {
    nh3.Tick(curNH3);
    co.Tick(curCO);
    no2.Tick(curNO2);
    allStable := nh3.isStable && co.isStable && no2.isStable;
  }

  /** One more tick appends one reading per channel. */
  lemma ReadingsStep(ticks: seq<TickSamples>, i: nat, ch: Channel)
    requires i < |ticks|
    ensures Readings(ticks[..i + 1], ch) == Readings(ticks[..i], ch) + [Reading(ticks[i].Of(ch))]
  {
    assert ticks[..i + 1][..i] == ticks[..i];
  }

  /** The exit tick is determined by the exit condition's first true entry. */
  lemma ConvergesAt(ticks: seq<TickSamples>, k: nat)
    requires 1 <= k <= |ticks| && AllStable(ticks, k)
    requires forall j :: 1 <= j < k ==> !AllStable(ticks, j)
    ensures FirstConvergence(ticks) == Some(k)
  {
    var flags := ExitFlags(ticks);
    assert flags[k - 1];
    assert forall j :: 0 <= j < k - 1 ==> !flags[j] by {
      forall j | 0 <= j < k - 1
        ensures !flags[j]
      {
        assert !AllStable(ticks, j + 1);
      }
    }
    FirstTrueAt(flags, k - 1);
  }

  /** One pass of the do-while body on tick `i`: the trackers have seen
      ticks `0..i` afterwards, and the result is the loop's exit condition. */
  method CalibrationTick(nh3: StabilityTracker, co: StabilityTracker, no2: StabilityTracker,
                         ticks: seq<TickSamples>, i: nat)
      returns (allStable: bool)
    requires i < |ticks|
    requires nh3.buffer != co.buffer && nh3.buffer != no2.buffer && co.buffer != no2.buffer
    requires nh3.Valid() && co.Valid() && no2.Valid()
    requires nh3.History == Readings(ticks[..i], NH3)
    requires co.History == Readings(ticks[..i], CO)
    requires no2.History == Readings(ticks[..i], NO2)
    modifies nh3, nh3.buffer, co, co.buffer, no2, no2.buffer
    ensures nh3.buffer == old(nh3.buffer) && co.buffer == old(co.buffer) && no2.buffer == old(no2.buffer)
    ensures nh3.Valid() && co.Valid() && no2.Valid()
    ensures nh3.History == Readings(ticks[..i + 1], NH3)
    ensures co.History == Readings(ticks[..i + 1], CO)
    ensures no2.History == Readings(ticks[..i + 1], NO2)
    ensures allStable == AllStable(ticks, i + 1)
  {
    ReadingsStep(ticks, i, NH3);
    ReadingsStep(ticks, i, CO);
    ReadingsStep(ticks, i, NO2);
    var curNH3 := ReadChannel(ticks[i].nh3);
    var curCO := ReadChannel(ticks[i].co);
    var curNO2 := ReadChannel(ticks[i].no2);
    allStable := TickAll(nh3, co, no2, curNH3, curCO, curNO2);
  }

  lemma NotYetStable(ticks: seq<TickSamples>, k: nat)
    requires 1 <= k <= |ticks| && !AllStable(ticks, k)
    requires forall j :: 1 <= j < k ==> !AllStable(ticks, j)
    ensures forall j :: 1 <= j <= k ==> !AllStable(ticks, j)
  {
  }

  /** The convergence loop, one tracker per channel. */
  method RunCalibration(ticks: seq<TickSamples>) returns (r: Option<Calibrated>)
    ensures r == CalibrationSpec(ticks)
  {
    var nh3 := new StabilityTracker();
    var co := new StabilityTracker();
    var no2 := new StabilityTracker();
    var i := 0;
    while i < |ticks|
      invariant 0 <= i <= |ticks|
      invariant fresh(nh3.buffer) && fresh(co.buffer) && fresh(no2.buffer)
      invariant nh3.buffer != co.buffer && nh3.buffer != no2.buffer && co.buffer != no2.buffer
      invariant nh3.Valid() && co.Valid() && no2.Valid()
      invariant nh3.History == Readings(ticks[..i], NH3)
      invariant co.History == Readings(ticks[..i], CO)
      invariant no2.History == Readings(ticks[..i], NO2)
      invariant forall j :: 1 <= j <= i ==> !AllStable(ticks, j)
    {
      var done := CalibrationTick(nh3, co, no2, ticks, i);
      i := i + 1;
      if done {
        ConvergesAt(ticks, i);
        return Some(Calibrated(i, Baselines(nh3.FloatingAverage(), co.FloatingAverage(), no2.FloatingAverage())));
      }
      NotYetStable(ticks, i);
    }
    return None;
  }

  /** Every sample of every tick equals `c`. */
  predicate ConstantTicks(ticks: seq<TickSamples>, c: Sample)
  {
    forall i :: 0 <= i < |ticks| ==>
      ticks[i] == TickSamples(Triple(c, c, c), Triple(c, c, c), Triple(c, c, c))
  }

  lemma {:induction false} ConstantReadings(ticks: seq<TickSamples>, c: Sample, k: nat, ch: Channel)
    requires ConstantTicks(ticks, c) && k <= |ticks|
    ensures Readings(ticks[..k], ch) == seq(k, _ => c)
  {
    if k == 0 {
      assert ticks[..0] == [];
    } else {
      ReadingsStep(ticks, k - 1, ch);
      ConstantReadings(ticks, c, k - 1, ch);
      assert ticks[k - 1].Of(ch) == Triple(c, c, c);
      assert seq(k, _ => c) == seq(k - 1, _ => c) + [c];
    }
  }

  /** With a constant reading above 10, no channel is stable before the
      buffer is full: the first-pass average `k * c / 10` is too far below
      `c` for every `k < 10`. */
  lemma ConstantNotStableEarly(c: Sample, k: nat)
    requires 10 < c && 1 <= k < 10
    ensures !Stable(seq(k, _ => c))
  {
    var h := seq(k, _ => c);
    FirstPassAverage(h);
    SumConstant(k, c);
    MulMono(c, k, 9);
    assert Average(h) == (k * c) / 10 <= (9 * c) / 10;
  }

  /** With a constant reading of at most 10, every channel is already
      stable after 9 ticks, the zero in the last slot notwithstanding. */
  lemma ConstantStableAtNine(c: Sample)
    requires c <= 10
    ensures Stable(seq(9, _ => c))
  {
    var h := seq(9, _ => c);
    FirstPassAverage(h);
    SumConstant(9, c);
  }

  /** Calibration on a constant input `c` ends within 10 ticks with
      baselines `c - 1` or `c`. For `c <= 10` it exits before the buffer
      has been filled once; for `c > 10` it ends exactly at tick 10 with
      baseline `c` on every channel. */
  lemma ConstantInputCalibration(ticks: seq<TickSamples>, c: Sample)
    requires |ticks| >= 10 && ConstantTicks(ticks, c)
    ensures var r := CalibrationSpec(ticks);
      && r.Some? && 1 <= r.value.ticks <= 10
      && c - 1 <= r.value.baselines.nh3 <= c
      && c - 1 <= r.value.baselines.co <= c
      && c - 1 <= r.value.baselines.no2 <= c
    ensures c <= 10 ==> CalibrationSpec(ticks).Some? && CalibrationSpec(ticks).value.ticks < 10
    ensures 10 < c ==> CalibrationSpec(ticks) == Some(Calibrated(10, Baselines(c, c, c)))
  {
    ConstantReadings(ticks, c, 10, NH3);
    ConstantReadings(ticks, c, 10, CO);
    ConstantReadings(ticks, c, 10, NO2);
    ConstantWindow(seq(10, _ => c), c);
    assert AllStable(ticks, 10);
    var k := FirstConvergence(ticks).value;
    assert k <= 10;
    ConstantReadings(ticks, c, k, NH3);
    ConstantReadings(ticks, c, k, CO);
    ConstantReadings(ticks, c, k, NO2);
    AverageAtMost(seq(k, _ => c), c);
    if 10 < c && k < 10 {
      ConstantNotStableEarly(c, k);
      assert false;
    }
    if c <= 10 {
      ConstantReadings(ticks, c, 9, NH3);
      ConstantReadings(ticks, c, 9, CO);
      ConstantReadings(ticks, c, 9, NO2);
      ConstantStableAtNine(c);
      assert AllStable(ticks, 9);
    }
  }

  /** With changing input, a reading above 10 can end calibration early as
      well: readings 1000 and then 111 on every channel converge after two
      ticks, because the zero-filled window averages (1000 + 111) / 10 = 111. */
  lemma TwoTickConvergence()
    ensures var t1 := TickSamples(Triple(1000, 1000, 1000), Triple(1000, 1000, 1000), Triple(1000, 1000, 1000));
      var t2 := TickSamples(Triple(111, 111, 111), Triple(111, 111, 111), Triple(111, 111, 111));
      CalibrationSpec([t1, t2]) == Some(Calibrated(2, Baselines(111, 111, 111)))
  {
    var t1 := TickSamples(Triple(1000, 1000, 1000), Triple(1000, 1000, 1000), Triple(1000, 1000, 1000));
    var t2 := TickSamples(Triple(111, 111, 111), Triple(111, 111, 111), Triple(111, 111, 111));
    var ticks := [t1, t2];
    forall ch: Channel
      ensures Readings(ticks[..1], ch) == [1000]
      ensures Readings(ticks[..2], ch) == [1000, 111]
    {
      TwoTickReadings(ticks, ch);
    }
    TwoTickWindows();
    ConvergesAt(ticks, 2);
  }

  lemma TwoTickReadings(ticks: seq<TickSamples>, ch: Channel)
    requires |ticks| == 2
    requires ticks[0].Of(ch) == Triple(1000, 1000, 1000) && ticks[1].Of(ch) == Triple(111, 111, 111)
    ensures Readings(ticks[..1], ch) == [1000] && Readings(ticks[..2], ch) == [1000, 111]
  {
    assert ticks[..0] == [];
    ReadingsStep(ticks, 0, ch);
    ReadingsStep(ticks, 1, ch);
  }

  lemma TwoTickWindows()
    ensures !Stable([1000]) && Stable([1000, 111]) && Average([1000, 111]) == 111
  {
    FirstPassAverage([1000]);
    FirstPassAverage([1000, 111]);
    assert Sum([1000, 111]) == 1111;
  }
}
