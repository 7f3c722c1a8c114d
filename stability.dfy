/** The per-channel stability detector of the calibration loop. The driver
    keeps three identical copies of this state inline (`bufferNH3`,
    `pntrNH3`, `fltSumNH3`, `isStableNH3` and their CO and NO2 twins); here
    it is one class instantiated once per channel. */
module Stability {
  import opened Adc
  import opened SlidingWindow

  class StabilityTracker {
    /** The last 10 readings, a zero-filled `uint16_t[seconds]`. */
    var buffer: array<uint16>
    /** The slot the next reading overwrites. */
    var cursor: uint8
    /** The floating sum of the buffer, a `uint16_t`. */
    var sum: uint16
    /** The stability flag of the latest tick. */
    var isStable: bool
    /** Every reading written so far, oldest first. */
    ghost var History: seq<Sample>

    /** The buffer, cursor, sum and flag are the ones `History` determines. */
    ghost predicate Valid()
      reads this, buffer
    {
      && buffer.Length == 10
      && cursor == |History| % 10
      && buffer[..] == Window(History)
      && sum == Sum(Window(History))
      && isStable == (History != [] && Stable(History))
    }

    /** The declarations and the zero-filling loop ahead of the first tick. */
    constructor ()
      ensures Valid() && fresh(buffer) && History == []
    {
      var b := new uint16[10];
      var i := 0;
      while i < 10
        invariant 0 <= i <= 10
        invariant forall k :: 0 <= k < i ==> b[k] == 0
      {
        b[i] := 0;
        i := i + 1;
      }
      assert b[..] == Window([]) == Zeros(10);
      ZerosSum(10);
      buffer := b;
      cursor, sum, isStable := 0, 0, false;
      History := [];
    }

    /** One tick with the reading `cur`: evict the slot under the cursor from
        the sum, overwrite it, recompute the flag, advance the cursor. The sum
        is updated in 16-bit arithmetic; the ensures show it never wraps. */
    method Tick(cur: Sample)
      requires Valid()
      modifies this, buffer
      ensures Valid() && buffer == old(buffer)
      ensures History == old(History) + [cur]
      ensures buffer[..] == old(buffer[..])[old(cursor) := cur]
      ensures cursor == (old(cursor) + 1) % 10
      ensures sum == old(sum) + cur - old(buffer[cursor])
      ensures isStable == (Abs(sum / 10 - cur) < Delta)
    {
      TickFacts(History, cur);
      sum := (sum + cur - buffer[cursor]) % 0x1_0000;
      buffer[cursor] := cur;
      isStable := Abs(sum / 10 - cur) < Delta;
      cursor := (cursor + 1) % 10;
      History := History + [cur];
    }

    /** `fltSum / seconds`, the value a converged channel takes as its
        baseline: the average of the window. */
    function FloatingAverage(): (a: Sample)
      reads this, buffer
      requires Valid()
      ensures a == Average(History)
    {
      WindowSumBound(History);
      sum / 10
    }
  }
}
