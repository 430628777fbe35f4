/** Pure counterparts of the LINQ operators a distributor applies to its daily
    billing values: Where(f => f > 0), All(v => v == 0), Min(), Max(),
    Average() and Count(f => f > t). Billing values are exact reals. */
module Statistics {

  /** The values strictly greater than zero, in their original order
      (zeros and negative values are both dropped). */
  function BusinessDays(s: seq<real>): (r: seq<real>)
    ensures |r| <= |s|
    ensures forall i :: 0 <= i < |r| ==> r[i] > 0.0
    ensures forall x :: x in r <==> x in s && x > 0.0
  {
    if s == [] then []
    else if s[0] > 0.0 then [s[0]] + BusinessDays(s[1..])
    else BusinessDays(s[1..])
  }

  /** Every value is strictly positive. */
  predicate AllPositive(s: seq<real>)
  {
    forall i :: 0 <= i < |s| ==> s[i] > 0.0
  }

  /** Every value is equal to zero (vacuously true of the empty sequence). */
  function AllZero(s: seq<real>): (r: bool)
    ensures r <==> forall i :: 0 <= i < |s| ==> s[i] == 0.0
  {
    if s == [] then true else s[0] == 0.0 && AllZero(s[1..])
  }

  function Sum(s: seq<real>): real
  {
    if s == [] then 0.0 else s[0] + Sum(s[1..])
  }

  /** The smallest value of a non-empty sequence. */
  function Min(s: seq<real>): (r: real)
    requires |s| > 0
    ensures r in s
    ensures forall i :: 0 <= i < |s| ==> r <= s[i]
  {
    if |s| == 1 then s[0]
    else
      var m := Min(s[1..]);
      if s[0] <= m then s[0] else m
  }

  /** The largest value of a non-empty sequence. */
  function Max(s: seq<real>): (r: real)
    requires |s| > 0
    ensures r in s
    ensures forall i :: 0 <= i < |s| ==> s[i] <= r
  {
    if |s| == 1 then s[0]
    else
      var m := Max(s[1..]);
      if s[0] >= m then s[0] else m
  }

  /** The arithmetic mean of a non-empty sequence. */
  function Average(s: seq<real>): real
    requires |s| > 0
  {
    Sum(s) / |s| as real
  }

  /** The number of values strictly greater than t. */
  function CountAbove(s: seq<real>, t: real): (r: nat)
    ensures r <= |s|
    ensures r == 0 <==> forall i :: 0 <= i < |s| ==> s[i] <= t
    ensures r == |s| <==> forall i :: 0 <= i < |s| ==> s[i] > t
  {
    if s == [] then 0
    else (if s[0] > t then 1 else 0) + CountAbove(s[1..], t)
  }

  // ---------------------------------------------------------------------------
  // Filtering

  /** Filtering distributes over concatenation: together with the one-element
      cases this pins BusinessDays down as "the positive values, in order". */
  lemma {:induction false} BusinessDaysAppend(a: seq<real>, b: seq<real>)
    ensures BusinessDays(a + b) == BusinessDays(a) + BusinessDays(b)
  {
    if a == [] {
      assert a + b == b;
    } else {
      assert (a + b)[1..] == a[1..] + b;
      BusinessDaysAppend(a[1..], b);
    }
  }

  /** The filter finds nothing exactly when no value is positive. */
  lemma {:induction false} BusinessDaysEmpty(s: seq<real>)
    ensures BusinessDays(s) == [] <==> forall i :: 0 <= i < |s| ==> s[i] <= 0.0
  {
    if s != [] {
      BusinessDaysEmpty(s[1..]);
      if s[0] <= 0.0 {
        forall i | 0 < i < |s| ensures s[i] == s[1..][i - 1] { }
      }
    }
  }

  /** Filtering a sequence that is already all positive changes nothing, so
      filtering twice is the same as filtering once. */
  lemma {:induction false} BusinessDaysOfPositive(s: seq<real>)
    requires AllPositive(s)
    ensures BusinessDays(s) == s
  {
    if s != [] {
      BusinessDaysOfPositive(s[1..]);
      assert [s[0]] + s[1..] == s;
    }
  }

  /** On a sequence with no zero in it, "every value is zero" means "empty". */
  lemma AllZeroOfZeroFree(s: seq<real>)
    requires forall i :: 0 <= i < |s| ==> s[i] != 0.0
    ensures AllZero(s) <==> s == []
  {
  }

  /** Counting distributes over concatenation: together with the one-element
      cases this pins CountAbove down as "how many values exceed t". */
  lemma {:induction false} CountAboveAppend(a: seq<real>, b: seq<real>, t: real)
    ensures CountAbove(a + b, t) == CountAbove(a, t) + CountAbove(b, t)
  {
    if a == [] {
      assert a + b == b;
    } else {
      assert (a + b)[1..] == a[1..] + b;
      CountAboveAppend(a[1..], b, t);
    }
  }

  // ---------------------------------------------------------------------------
  // Sums against bounds

  /** Summing distributes over concatenation. */
  lemma {:induction false} SumAppend(a: seq<real>, b: seq<real>)
    ensures Sum(a + b) == Sum(a) + Sum(b)
  {
    if a == [] {
      assert a + b == b;
    } else {
      assert (a + b)[1..] == a[1..] + b;
      SumAppend(a[1..], b);
    }
  }

  /** Splits n copies of m into n - 1 copies and one more. */
  lemma SplitProduct(n: nat, m: real)
    requires n > 0
    ensures n as real * m == (n - 1) as real * m + m
  {
  }

  lemma {:induction false} SumAtLeast(s: seq<real>, m: real)
    requires forall i :: 0 <= i < |s| ==> m <= s[i]
    ensures Sum(s) >= |s| as real * m
  {
    if s != [] {
      assert forall i :: 0 <= i < |s[1..]| ==> s[1..][i] == s[i + 1];
      SumAtLeast(s[1..], m);
      SplitProduct(|s|, m);
      assert Sum(s) == s[0] + Sum(s[1..]) && m <= s[0];
    }
  }

  lemma {:induction false} SumAtMost(s: seq<real>, m: real)
    requires forall i :: 0 <= i < |s| ==> s[i] <= m
    ensures Sum(s) <= |s| as real * m
  {
    if s != [] {
      assert forall i :: 0 <= i < |s[1..]| ==> s[1..][i] == s[i + 1];
      SumAtMost(s[1..], m);
      SplitProduct(|s|, m);
      assert Sum(s) == s[0] + Sum(s[1..]) && s[0] <= m;
    }
  }

  /** All values strictly above t make the sum strictly above |s| * t. */
  lemma {:induction false} SumAbove(s: seq<real>, t: real)
    requires |s| > 0
    requires forall i :: 0 <= i < |s| ==> s[i] > t
    ensures Sum(s) > |s| as real * t
  {
    assert forall i :: 0 <= i < |s[1..]| ==> s[1..][i] == s[i + 1];
    SumAtLeast(s[1..], t);
    SplitProduct(|s|, t);
    assert Sum(s) == s[0] + Sum(s[1..]) && s[0] > t;
  }

  /** All values at most t and one strictly below t make the sum strictly
      below |s| * t. */
  lemma {:induction false} SumBelow(s: seq<real>, t: real, k: nat)
    requires k < |s|
    requires forall i :: 0 <= i < |s| ==> s[i] <= t
    requires s[k] < t
    ensures Sum(s) < |s| as real * t
  {
    var rest := s[1..];
    assert forall i :: 0 <= i < |rest| ==> rest[i] == s[i + 1];
    var whole, part := |s| as real * t, |rest| as real * t;
    SplitProduct(|s|, t);
    assert whole == part + t;
    assert Sum(s) == s[0] + Sum(rest);
    if k == 0 {
      SumAtMost(rest, t);
      assert Sum(rest) <= part && s[0] < t;
    } else {
      SumBelow(rest, t, k - 1);
      assert Sum(rest) < part && s[0] <= t;
    }
  }

  lemma AverageTimesLength(s: seq<real>)
    requires |s| > 0
    ensures Average(s) * |s| as real == Sum(s)
  {
  }

  /** A quotient a = S / n with n > 0 inherits a lower bound of S / n. */
  lemma QuotientAtLeast(S: real, n: real, a: real, lo: real)
    requires n > 0.0 && a * n == S && n * lo <= S
    ensures lo <= a
  {
  }

  /** A quotient a = S / n with n > 0 inherits an upper bound of S / n. */
  lemma QuotientAtMost(S: real, n: real, a: real, hi: real)
    requires n > 0.0 && a * n == S && S <= n * hi
    ensures a <= hi
  {
  }

  /** A lower bound on every value is a lower bound on the mean. */
  lemma AverageAtLeast(s: seq<real>, m: real)
    requires |s| > 0
    requires forall i :: 0 <= i < |s| ==> m <= s[i]
    ensures m <= Average(s)
  {
    SumAtLeast(s, m);
    AverageTimesLength(s);
    QuotientAtLeast(Sum(s), |s| as real, Average(s), m);
  }

  /** An upper bound on every value is an upper bound on the mean. */
  lemma AverageAtMost(s: seq<real>, m: real)
    requires |s| > 0
    requires forall i :: 0 <= i < |s| ==> s[i] <= m
    ensures Average(s) <= m
  {
    SumAtMost(s, m);
    AverageTimesLength(s);
    QuotientAtMost(Sum(s), |s| as real, Average(s), m);
  }

  /** Some value is at most the mean. */
  lemma SomeAtMostAverage(s: seq<real>)
    requires |s| > 0
    ensures exists i :: 0 <= i < |s| && s[i] <= Average(s)
  {
    if forall i :: 0 <= i < |s| ==> s[i] > Average(s) {
      SumAbove(s, Average(s));
      AverageTimesLength(s);
      assert false;
    }
  }

  /** If no value exceeds the mean, every value equals it. */
  lemma NoneAboveAverage(s: seq<real>)
    requires |s| > 0
    requires forall i :: 0 <= i < |s| ==> s[i] <= Average(s)
    ensures forall i :: 0 <= i < |s| ==> s[i] == Average(s)
  {
    forall k | 0 <= k < |s| ensures s[k] == Average(s) {
      if s[k] < Average(s) {
        SumBelow(s, Average(s), k);
        AverageTimesLength(s);
        assert false;
      }
    }
  }

  // ---------------------------------------------------------------------------
  // Properties of the statistics

  /** The mean lies between the minimum and the maximum. */
  lemma AverageBetween(s: seq<real>)
    requires |s| > 0
    ensures Min(s) <= Average(s) <= Max(s)
  {
    AverageAtLeast(s, Min(s));
    AverageAtMost(s, Max(s));
  }

  /** Not every value can lie strictly above the mean. */
  lemma CountAboveAverageBelowLength(s: seq<real>)
    requires |s| > 0
    ensures CountAbove(s, Average(s)) < |s|
  {
    SomeAtMostAverage(s);
  }

  /** No value lies strictly above the mean exactly when all values are equal. */
  lemma CountAboveAverageZero(s: seq<real>)
    requires |s| > 0
    ensures CountAbove(s, Average(s)) == 0 <==> forall i :: 0 <= i < |s| ==> s[i] == s[0]
  {
    if forall i :: 0 <= i < |s| ==> s[i] == s[0] {
      AverageAtLeast(s, s[0]);
      AverageAtMost(s, s[0]);
    }
    if CountAbove(s, Average(s)) == 0 {
      NoneAboveAverage(s);
    }
  }
}
