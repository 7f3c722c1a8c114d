/** Fixed-width integers, the 10-bit ADC sample range, the three sensing
    channels, and integer averaging over samples. */
module Adc {

  type uint8 = x: int | 0 <= x < 0x100
  type uint16 = x: int | 0 <= x < 0x1_0000
  /** `int` on the 8-bit Arduino boards. */
  type int16 = x: int | -0x8000 <= x < 0x8000
  /** `unsigned long` on the 8-bit Arduino boards. */
  type uint32 = x: int | 0 <= x < 0x1_0000_0000

  /** Full scale of the 10-bit analog-to-digital converter. */
  const AdcMax: int := 1023

  /** One raw value returned by `analogRead`. */
  type Sample = x: int | 0 <= x <= AdcMax

  /** The sensing channels `CH_NH3`, `CH_CO` and `CH_NO2`. */
  datatype Channel = NH3 | CO | NO2

  function Sum(s: seq<int>): (total: int)
  {
    if s == [] then 0 else s[0] + Sum(s[1..])
  }

  lemma {:induction false} SumConcat(a: seq<int>, b: seq<int>)
    ensures Sum(a + b) == Sum(a) + Sum(b)
  {
    if a == [] {
      assert a + b == b;
    } else {
      assert (a + b)[1..] == a[1..] + b;
      SumConcat(a[1..], b);
    }
  }

  /** Overwriting one element changes the sum by the difference. */
  lemma {:induction false} SumUpdate(s: seq<int>, i: nat, x: int)
    requires i < |s|
    ensures Sum(s[i := x]) == Sum(s) - s[i] + x
  {
    if i > 0 {
      assert s[i := x][1..] == s[1..][i - 1 := x];
      SumUpdate(s[1..], i - 1, x);
    }
  }

  /** A sum of samples is at most full scale times their number. */
  lemma {:induction false} SumOfSamples(s: seq<Sample>)
    ensures 0 <= Sum(s) <= AdcMax * |s|
  {
    if s != [] {
      SumOfSamples(s[1..]);
    }
  }

  /** The quantified form of the bounds below an average is taken between. */
  lemma {:induction false} SumBetween(s: seq<int>, lo: int, hi: int)
    requires forall i :: 0 <= i < |s| ==> lo <= s[i] <= hi
    ensures |s| * lo <= Sum(s) <= |s| * hi
  {
    if s != [] {
      SumBetween(s[1..], lo, hi);
      assert |s| * lo == lo + (|s| - 1) * lo;
      assert |s| * hi == hi + (|s| - 1) * hi;
    }
  }

  lemma {:induction false} SumConstant(k: nat, c: int)
    ensures Sum(seq(k, _ => c)) == k * c
  {
    if k > 0 {
      assert seq(k, _ => c)[1..] == seq(k - 1, _ => c);
      SumConstant(k - 1, c);
      assert k * c == c + (k - 1) * c;
    }
  }

  lemma SumSnoc(s: seq<int>, x: int)
    ensures Sum(s + [x]) == Sum(s) + x
  {
    SumConcat(s, [x]);
    assert Sum([x]) == x + Sum([]);
  }

  lemma SumOfThree(a: int, b: int, c: int)
    ensures Sum([a, b, c]) == a + b + c
  {
    assert [a, b, c][1..] == [b, c] && [b, c][1..] == [c] && [c][1..] == [];
    assert Sum([c]) == c;
    assert Sum([b, c]) == b + c;
  }

  function Min(s: seq<int>): (m: int)
    requires s != []
    ensures m in s
    ensures forall i :: 0 <= i < |s| ==> m <= s[i]
  {
    if |s| == 1 then s[0]
    else
      var rest := Min(s[1..]);
      if s[0] <= rest then s[0] else rest
  }

  function Max(s: seq<int>): (m: int)
    requires s != []
    ensures m in s
    ensures forall i :: 0 <= i < |s| ==> s[i] <= m
  {
    if |s| == 1 then s[0]
    else
      var rest := Max(s[1..]);
      if s[0] >= rest then s[0] else rest
  }

  lemma {:induction false} MulMono(n: nat, x: int, y: int)
    requires x <= y
    ensures n * x <= n * y
  {
    if n > 0 {
      MulMono(n - 1, x, y);
      assert n * x == (n - 1) * x + x && n * y == (n - 1) * y + y;
    }
  }

  /** If `n * lo <= a <= n * hi` then the quotient `a / n` lies in `[lo, hi]`. */
  lemma QuotientBetween(a: int, n: int, lo: int, hi: int)
    requires n > 0 && n * lo <= a <= n * hi
    ensures lo <= a / n <= hi
  {
    var q := a / n;
    assert a == n * q + a % n && 0 <= a % n < n;
    if q < lo {
      MulMono(n, q, lo - 1);
      assert false;
    }
    if q > hi {
      MulMono(n, hi + 1, q);
      assert false;
    }
  }

  /** The integer (truncating) mean of a non-empty batch of samples, as the
      driver computes it with `rs / counter`; it lies between the smallest
      and the largest sample, hence in the ADC range. */
  function Mean(s: seq<Sample>): (m: Sample)
    requires s != []
    ensures Min(s) <= m <= Max(s)
  {
    SumBetween(s, Min(s), Max(s));
    QuotientBetween(Sum(s), |s|, Min(s), Max(s));
    Sum(s) / |s|
  }
}
