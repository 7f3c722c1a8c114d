/** What the calibration's per-channel circular buffer holds, as a function of
    the readings written into it so far. */
module SlidingWindow {
  import opened Adc

  // The window length is the driver's `seconds`, 10. It is written as a
  // literal throughout, so that the solver treats `% 10` and `/ 10` as
  // linear arithmetic.

  /** Stability tolerance, the driver's `delta`. */
  const Delta: int := 2

  function Zeros(n: nat): (z: seq<Sample>)
  {
    seq(n, _ => 0)
  }

  /** The contents of a zero-filled 10-slot buffer after the readings `h` have
      been written, in order, into slots 0, 1, ..., 9, 0, 1, ...: the slots
      below `|h| % 10` hold the current pass over the buffer, the others still
      hold the previous pass (zeros while the first pass is incomplete). */
  function Window(h: seq<Sample>): (w: seq<Sample>)
    ensures |w| == 10
  {
    if |h| < 10 then FirstPass(h) else LaterPass(h, |h| % 10)
  }

  /** While fewer than 10 readings have been written: those readings, then
      the initial zeros. */
  function FirstPass(h: seq<Sample>): (w: seq<Sample>)
    requires |h| < 10
    ensures |w| == 10
  {
    h + Zeros(10 - |h|)
  }

  /** Afterwards, with the cursor at `r`: the `r` readings of the current
      pass, then the last `10 - r` of the previous pass. */
  function LaterPass(h: seq<Sample>, r: nat): (w: seq<Sample>)
    requires |h| >= 10 && r < 10
    ensures |w| == 10
  {
    h[|h| - r..] + h[|h| - 10 .. |h| - r]
  }

  /** The last 10 readings, or all of them while there are fewer. */
  function Last10(h: seq<Sample>): (l: seq<Sample>)
    ensures |l| <= |h| && l == h[|h| - |l|..]
    ensures |l| == 10 || l == h
  {
    if |h| <= 10 then h else h[|h| - 10..]
  }

  /** Where the cursor goes after one more write. */
  lemma NextSlot(n: nat)
    ensures (n + 1) % 10 == if n % 10 < 9 then n % 10 + 1 else 0
  {
  }

  /** Writing one more reading replaces exactly the slot the cursor
      `|h| % 10` points at. */
  lemma WindowStep(h: seq<Sample>, x: Sample)
    ensures Window(h + [x]) == Window(h)[|h| % 10 := x]
  {
    var h', r := h + [x], |h| % 10;
    if |h| < 9 {
      StepFirstPass(h, x);
      assert Window(h) == FirstPass(h) && Window(h') == FirstPass(h');
    } else if |h| == 9 {
      StepCompletesFirstPass(h, x);
      assert Window(h) == FirstPass(h) && Window(h') == LaterPass(h', 0);
    } else if r < 9 {
      NextSlot(|h|);
      StepWithinPass(h, x, r);
      assert Window(h) == LaterPass(h, r) && Window(h') == LaterPass(h', r + 1);
    } else {
      NextSlot(|h|);
      StepWraps(h, x);
      assert Window(h) == LaterPass(h, 9) && Window(h') == LaterPass(h', 0);
    }
  }

  lemma StepFirstPass(h: seq<Sample>, x: Sample)
    requires |h| < 9
    ensures FirstPass(h + [x]) == FirstPass(h)[|h| := x]
  {
    assert Zeros(10 - |h|) == [0] + Zeros(9 - |h|);
  }

  lemma StepCompletesFirstPass(h: seq<Sample>, x: Sample)
    requires |h| == 9
    ensures LaterPass(h + [x], 0) == FirstPass(h)[9 := x]
  {
    var h' := h + [x];
    assert Zeros(1) == [0];
    assert h'[10..] == [] && h'[0..10] == h';
  }

  lemma StepWithinPass(h: seq<Sample>, x: Sample, r: nat)
    requires |h| >= 10 && r < 9
    ensures LaterPass(h + [x], r + 1) == LaterPass(h, r)[r := x]
  {
    var h' := h + [x];
    var newer, evicted, kept := h[|h| - r..], h[|h| - 10], h[|h| - 9 .. |h| - r];
    assert h[|h| - 10 .. |h| - r] == [evicted] + kept;
    assert h'[|h'| - (r + 1)..] == newer + [x];
    assert h'[|h'| - 10 .. |h'| - (r + 1)] == kept;
    ReplaceMiddle(newer, evicted, kept, x);
  }

  lemma StepWraps(h: seq<Sample>, x: Sample)
    requires |h| >= 10
    ensures LaterPass(h + [x], 0) == LaterPass(h, 9)[9 := x]
  {
    var h' := h + [x];
    var newer := h[|h| - 9..];
    assert h'[|h'|..] == [] && h'[|h'| - 10 .. |h'|] == newer + [x];
    assert h[|h| - 10 .. |h| - 9] == [h[|h| - 10]];
  }

  lemma ReplaceMiddle(a: seq<Sample>, y: Sample, b: seq<Sample>, x: Sample)
    ensures (a + [y] + b)[|a| := x] == a + [x] + b
  {
  }

  /** The buffer is a rotation of the last 10 readings, padded with zeros
      during the first pass. */
  lemma WindowPermutesLast10(h: seq<Sample>)
    ensures |h| < 10 ==> multiset(Window(h)) == multiset(h) + multiset(Zeros(10 - |h|))
    ensures |h| >= 10 ==> multiset(Window(h)) == multiset(h[|h| - 10..])
  {
    if |h| >= 10 {
      LaterPassRotation(h, |h| % 10);
    }
  }

  lemma LaterPassRotation(h: seq<Sample>, r: nat)
    requires |h| >= 10 && r < 10
    ensures multiset(LaterPass(h, r)) == multiset(h[|h| - 10..])
  {
    var older, newer := h[|h| - 10 .. |h| - r], h[|h| - r..];
    assert h[|h| - 10..] == older + newer;
    assert multiset(newer + older) == multiset(older + newer);
  }

  /** Hence the running sum is the sum of the last 10 readings. */
  lemma WindowSumIsLast10(h: seq<Sample>)
    ensures Sum(Window(h)) == Sum(Last10(h))
  {
    if |h| < 10 {
      FirstPassSum(h);
    } else {
      LaterPassSum(h, |h| % 10);
    }
  }

  lemma FirstPassSum(h: seq<Sample>)
    requires |h| < 10
    ensures Sum(FirstPass(h)) == Sum(h)
  {
    SumConcat(h, Zeros(10 - |h|));
    ZerosSum(10 - |h|);
  }

  lemma LaterPassSum(h: seq<Sample>, r: nat)
    requires |h| >= 10 && r < 10
    ensures Sum(LaterPass(h, r)) == Sum(h[|h| - 10..])
  {
    var older, newer := h[|h| - 10 .. |h| - r], h[|h| - r..];
    assert h[|h| - 10..] == older + newer;
    SumConcat(newer, older);
    SumConcat(older, newer);
  }

  lemma {:induction false} ZerosSum(n: nat)
    ensures Sum(Zeros(n)) == 0
  {
    if n > 0 {
      assert Zeros(n)[1..] == Zeros(n - 1);
      ZerosSum(n - 1);
    }
  }

  /** The running sum stays within `10 * 1023 = 10230`, well inside the range
      of the driver's 16-bit accumulator. */
  lemma WindowSumBound(h: seq<Sample>)
    ensures 0 <= Sum(Window(h)) <= 10 * AdcMax < 0x1_0000
  {
    SumOfSamples(Window(h));
  }

  /** The floating average of the window, the driver's `fltSum / seconds`. */
  function Average(h: seq<Sample>): (a: Sample)
  {
    WindowSumBound(h);
    Sum(Window(h)) / 10
  }

  /** Whatever the order in the buffer, the floating average is the sum of
      the last 10 readings over 10, counting the zero fill as readings of 0. */
  lemma AverageOfLast10(h: seq<Sample>)
    ensures Average(h) == Sum(Last10(h)) / 10
  {
    WindowSumIsLast10(h);
  }

  function Abs(x: int): (r: int)
    ensures r >= 0 && (r == x || r == -x)
  {
    if x < 0 then -x else x
  }

  /** The driver's stability flag after the reading `h[|h| - 1]`. */
  predicate Stable(h: seq<Sample>)
    requires h != []
  {
    Abs(Average(h) - h[|h| - 1]) < Delta
  }

  /** The facts one calibration tick relies on: the new window differs in
      the cursor's slot only, its sum follows from the evicted value and
      fits in 16 bits, the cursor advances by one modulo 10, and the flag is
      the average's distance from the new reading. */
  lemma TickFacts(h: seq<Sample>, cur: Sample)
    ensures var h' := h + [cur]; var p := |h| % 10;
      && Window(h') == Window(h)[p := cur]
      && Sum(Window(h')) == Sum(Window(h)) + cur - Window(h)[p]
      && 0 <= Sum(Window(h')) < 0x1_0000
      && |h'| % 10 == (p + 1) % 10
      && (Stable(h') <==> Abs(Sum(Window(h')) / 10 - cur) < Delta)
  {
    var h' := h + [cur];
    WindowStep(h, cur);
    WindowSumBound(h');
    SumUpdate(Window(h), |h| % 10, cur);
    NextSlot(|h|);
  }

  /** Slot `i` of the buffer: during the first pass a reading or still
      zero; afterwards from the current pass below the cursor and from the
      previous pass at and above it. */
  lemma WindowSlot(h: seq<Sample>, i: nat)
    requires i < 10
    ensures |h| < 10 ==> Window(h)[i] == if i < |h| then h[i] else 0
    ensures |h| >= 10 ==> var r := |h| % 10;
      Window(h)[i] == if i < r then h[|h| - r + i] else h[|h| - r - 10 + i]
  {
    if |h| >= 10 {
      LaterPassSlot(h, |h| % 10, i);
    }
  }

  lemma LaterPassSlot(h: seq<Sample>, r: nat, i: nat)
    requires |h| >= 10 && r < 10 && i < 10
    ensures LaterPass(h, r)[i] == if i < r then h[|h| - r + i] else h[|h| - r - 10 + i]
  {
  }

  /** Once the last 10 readings all equal `c`, every slot holds `c`, the
      average is `c`, and the channel is stable. */
  lemma ConstantWindow(h: seq<Sample>, c: Sample)
    requires |h| >= 10
    requires forall i :: |h| - 10 <= i < |h| ==> h[i] == c
    ensures Window(h) == seq(10, _ => c)
    ensures Average(h) == c && Stable(h)
  {
    var w := Window(h);
    forall i | 0 <= i < 10
      ensures w[i] == c
    {
      WindowSlot(h, i);
    }
    assert w == seq(10, _ => c);
    SumBetween(w, c, c);
  }

  /** The average never exceeds the largest reading written. */
  lemma AverageAtMost(h: seq<Sample>, c: int)
    requires forall i :: 0 <= i < |h| ==> h[i] <= c
    requires 0 <= c
    ensures Average(h) <= c
  {
    var w := Window(h);
    forall i | 0 <= i < 10
      ensures 0 <= w[i] <= c
    {
      WindowSlot(h, i);
    }
    SumBetween(w, 0, c);
  }

  /** During the first pass the sum is that of the readings so far. */
  lemma FirstPassAverage(h: seq<Sample>)
    requires |h| < 10
    ensures Average(h) == Sum(h) / 10
  {
    FirstPassSum(h);
  }
}
