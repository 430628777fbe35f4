/** Client code of the Distributor class: the fixed scenarios of its tests and
    the consequences of the caching rule that a caller can rely on. */
module Scenarios {
  import opened Statistics
  import opened Distributors

  /** The business days of the valid test data and their statistics. */
  lemma ValidBillingFacts()
    ensures BusinessDays([3000.0, 0.0, 2000.0, 1000.0, 0.0]) == [3000.0, 2000.0, 1000.0]
    ensures Average([3000.0, 2000.0, 1000.0]) == 2000.0
    ensures CountAbove([3000.0, 2000.0, 1000.0], 2000.0) == 1
  {
  }

  /** A new distributor built empty and then given five days of billing of
      which two have no business: the valid test data. */
  method NewValidDistributor() returns (d: Distributor)
    ensures fresh(d) && d.Valid()
    ensures d.dailyBillingList == [3000.0, 0.0, 2000.0, 1000.0, 0.0] && d.businessDays == []
  {
    d := new Distributor();
    d.SetDailyBillingList([3000.0, 0.0, 2000.0, 1000.0, 0.0]);
  }

  /** A new distributor built empty and then given five days without
      business: the invalid test data. */
  method NewInvalidDistributor() returns (d: Distributor)
    ensures fresh(d) && d.Valid()
    ensures d.dailyBillingList == [0.0, 0.0, 0.0, 0.0, 0.0] && d.businessDays == []
  {
    d := new Distributor();
    d.SetDailyBillingList([0.0, 0.0, 0.0, 0.0, 0.0]);
  }

  /** Each statistic of the valid test data, each on a distributor of its
      own, so that every call fills the empty cache. */
  method ValidDistributorScenario() returns (min: Result<real>, max: Result<real>, avg: Result<real>, days: Result<nat>)
    ensures min == Ok(1000.0) && max == Ok(3000.0)
    ensures avg == Ok(2000.0) && days == Ok(1)
  {
    ValidBillingFacts();
    var d := NewValidDistributor();
    min := d.CalculateMinimumBilling();
    d := NewValidDistributor();
    max := d.CalculateMaximumBilling();
    d := NewValidDistributor();
    avg := d.CalculateAverageBilling();
    d := NewValidDistributor();
    days := d.CalculateDaysAboveAverageBilling();
  }

  /** Each statistic of the invalid test data, each on a distributor of its
      own: every one reports ValuesUndefined. */
  method InvalidDistributorScenario() returns (min: Result<real>, max: Result<real>, avg: Result<real>, days: Result<nat>)
    ensures min == Err(ValuesUndefined) && max == Err(ValuesUndefined)
    ensures avg == Err(ValuesUndefined) && days == Err(ValuesUndefined)
  {
    var d := NewInvalidDistributor();
    min := d.CalculateMinimumBilling();
    d := NewInvalidDistributor();
    max := d.CalculateMaximumBilling();
    d := NewInvalidDistributor();
    avg := d.CalculateAverageBilling();
    d := NewInvalidDistributor();
    days := d.CalculateDaysAboveAverageBilling();
  }

  /** The statistics of the valid test data called one after another on one
      distributor: only the first call fills the empty cache and the others
      reuse it, with the same results as on separate distributors. */
  method SequentialCallsScenario() returns (min: Result<real>, max: Result<real>, avg: Result<real>, days: Result<nat>)
    ensures min == Ok(1000.0) && max == Ok(3000.0)
    ensures avg == Ok(2000.0) && days == Ok(1)
  {
    ValidBillingFacts();
    var d := NewValidDistributor();
    min := d.CalculateMinimumBilling();
    assert d.businessDays == [3000.0, 2000.0, 1000.0];
    max := d.CalculateMaximumBilling();
    avg := d.CalculateAverageBilling();
    days := d.CalculateDaysAboveAverageBilling();
  }

  /** The sample billing of the console program: 21 days, 12 of them with
      business, written as three weeks of seven days. */
  const SampleWeekOne: seq<real> := [1000.0, 2000.0, 0.0, 1500.0, 3000.0, 500.0, 0.0]
  const SampleWeekTwo: seq<real> := [0.0, 4500.0, 2300.0, 0.0, 0.0, 0.0, 1300.0]
  const SampleWeekThree: seq<real> := [1100.0, 0.0, 2500.0, 0.0, 3200.0, 1800.0, 0.0]
  const SampleBilling: seq<real> := SampleWeekOne + SampleWeekTwo + SampleWeekThree

  /** The business days of the sample billing, week by week. */
  const SampleDaysOne: seq<real> := [1000.0, 2000.0, 1500.0, 3000.0, 500.0]
  const SampleDaysTwo: seq<real> := [4500.0, 2300.0, 1300.0]
  const SampleDaysThree: seq<real> := [1100.0, 2500.0, 3200.0, 1800.0]
  const SampleBusinessDays: seq<real> := SampleDaysOne + SampleDaysTwo + SampleDaysThree

  /** The mean of the sample business days. */
  const SampleMean: real := 24700.0 / 12.0

  // Each week of the sample: its business days, their sum and how many of
  // them lie above the mean.

  lemma SampleWeekOneFiltered()
    ensures BusinessDays(SampleWeekOne) == SampleDaysOne
  {
  }

  lemma SampleWeekOneFacts()
    ensures Sum(SampleDaysOne) == 8000.0
    ensures CountAbove(SampleDaysOne, SampleMean) == 1
  {
  }

  lemma SampleWeekTwoFiltered()
    ensures BusinessDays(SampleWeekTwo) == SampleDaysTwo
  {
  }

  lemma SampleWeekTwoFacts()
    ensures Sum(SampleDaysTwo) == 8100.0
    ensures CountAbove(SampleDaysTwo, SampleMean) == 2
  {
  }

  lemma SampleWeekThreeFiltered()
    ensures BusinessDays(SampleWeekThree) == SampleDaysThree
  {
  }

  lemma SampleWeekThreeFacts()
    ensures Sum(SampleDaysThree) == 8600.0
    ensures CountAbove(SampleDaysThree, SampleMean) == 2
  {
  }

  /** Filtering the sample keeps its twelve business days. */
  lemma SampleFiltered()
    ensures BusinessDays(SampleBilling) == SampleBusinessDays
  {
    BusinessDaysAppend(SampleWeekOne + SampleWeekTwo, SampleWeekThree);
    BusinessDaysAppend(SampleWeekOne, SampleWeekTwo);
    SampleWeekOneFiltered();
    SampleWeekTwoFiltered();
    SampleWeekThreeFiltered();
  }

  /** The sample business days sum to 24700. */
  lemma SampleSum()
    ensures Sum(SampleBusinessDays) == 24700.0
  {
    SampleWeekOneFacts();
    SampleWeekTwoFacts();
    SampleWeekThreeFacts();
    SumAppend(SampleDaysOne + SampleDaysTwo, SampleDaysThree);
    SumAppend(SampleDaysOne, SampleDaysTwo);
  }

  /** Five sample business days lie above the mean. */
  lemma SampleCount()
    ensures CountAbove(SampleBusinessDays, SampleMean) == 5
  {
    SampleWeekOneFacts();
    SampleWeekTwoFacts();
    SampleWeekThreeFacts();
    CountAboveAppend(SampleDaysOne + SampleDaysTwo, SampleDaysThree, SampleMean);
    CountAboveAppend(SampleDaysOne, SampleDaysTwo, SampleMean);
  }

  /** The mean of the sample business days is 24700 / 12, and five of them
      lie above it. */
  lemma SampleDaysAbove()
    ensures Average(SampleBusinessDays) == SampleMean
    ensures CountAbove(SampleBusinessDays, Average(SampleBusinessDays)) == 5
  {
    SampleSum();
    SampleCount();
  }

  /** A sample business day at most all of them is 500. */
  lemma SampleMinimum(r: real)
    requires r in SampleBusinessDays
    requires forall i :: 0 <= i < |SampleBusinessDays| ==> r <= SampleBusinessDays[i]
    ensures r == 500.0
  {
    assert r <= SampleBusinessDays[4];
  }

  /** A sample business day at least all of them is 4500. */
  lemma SampleMaximum(r: real)
    requires r in SampleBusinessDays
    requires forall i :: 0 <= i < |SampleBusinessDays| ==> SampleBusinessDays[i] <= r
    ensures r == 4500.0
  {
    assert SampleBusinessDays[5] <= r;
  }

  /** The console program's calls: a distributor built over the sample
      billing, whose constructor fills the cache, then the minimum, the
      maximum and the days above average. */
  method SampleProgramScenario() returns (min: Result<real>, max: Result<real>, days: Result<nat>)
    ensures min == Ok(500.0) && max == Ok(4500.0) && days == Ok(5)
  {
    SampleFiltered();
    SampleDaysAbove();
    var d := new Distributor.FromList(SampleBilling);
    min := d.CalculateMinimumBilling();
    SampleMinimum(min.value);
    max := d.CalculateMaximumBilling();
    SampleMaximum(max.value);
    days := d.CalculateDaysAboveAverageBilling();
  }

  /** A distributor that was never given any billing value fails the same way. */
  method EmptyDistributorScenario() returns (min: Result<real>, max: Result<real>, avg: Result<real>, days: Result<nat>)
    ensures min == Err(ValuesUndefined) && max == Err(ValuesUndefined)
    ensures avg == Err(ValuesUndefined) && days == Err(ValuesUndefined)
  {
    var d := new Distributor();
    min := d.CalculateMinimumBilling();
    max := d.CalculateMaximumBilling();
    avg := d.CalculateAverageBilling();
    days := d.CalculateDaysAboveAverageBilling();
  }

  /** Negative values are dropped by the filter, like zeros: a list without a
      positive value has no statistics. */
  method NegativeValuesScenario() returns (min: Result<real>)
    ensures min == Err(ValuesUndefined)
  {
    var d := new Distributor.FromList([-500.0, 0.0, -20.0]);
    min := d.CalculateMinimumBilling();
  }

  /** Assigning a new billing list to a distributor whose cache is filled
      does not refill the cache: the statistics still describe the old list. */
  method StaleCacheScenario() returns (min: Result<real>)
    ensures min == Ok(1000.0)
  {
    var d := new Distributor.FromList([1000.0]);
    assert BusinessDays([1000.0]) == [1000.0];
    d.SetDailyBillingList([2000.0]);
    min := d.CalculateMinimumBilling();
  }

  /** An empty cache is refilled from the list assigned after construction. */
  method LateAssignmentScenario() returns (min: Result<real>)
    ensures min == Ok(2000.0)
  {
    var d := new Distributor.FromList([0.0]);
    d.SetDailyBillingList([2000.0]);
    assert BusinessDays([2000.0]) == [2000.0];
    min := d.CalculateMinimumBilling();
  }

  /** Two consecutive calls of CalculateMinimumBilling agree; together they
      change the cache no more than one call does. */
  method RepeatedMinimum(d: Distributor) returns (first: Result<real>, second: Result<real>)
    requires d.Valid()
    modifies d
    ensures first == second
    ensures d.dailyBillingList == old(d.dailyBillingList)
    ensures d.businessDays == Refill(old(d.businessDays), old(d.dailyBillingList))
  {
    first := d.CalculateMinimumBilling();
    ghost var cache := d.businessDays;
    RefillStable(old(d.businessDays), old(d.dailyBillingList));
    second := d.CalculateMinimumBilling();
    assert d.businessDays == cache;
  }

  /** Two consecutive calls of CalculateMaximumBilling agree. */
  method RepeatedMaximum(d: Distributor) returns (first: Result<real>, second: Result<real>)
    requires d.Valid()
    modifies d
    ensures first == second
    ensures d.dailyBillingList == old(d.dailyBillingList)
    ensures d.businessDays == Refill(old(d.businessDays), old(d.dailyBillingList))
  {
    first := d.CalculateMaximumBilling();
    ghost var cache := d.businessDays;
    RefillStable(old(d.businessDays), old(d.dailyBillingList));
    second := d.CalculateMaximumBilling();
    assert d.businessDays == cache;
  }

  /** Two consecutive calls of CalculateAverageBilling agree. */
  method RepeatedAverage(d: Distributor) returns (first: Result<real>, second: Result<real>)
    requires d.Valid()
    modifies d
    ensures first == second
    ensures d.dailyBillingList == old(d.dailyBillingList)
    ensures d.businessDays == Refill(old(d.businessDays), old(d.dailyBillingList))
  {
    first := d.CalculateAverageBilling();
    ghost var cache := d.businessDays;
    RefillStable(old(d.businessDays), old(d.dailyBillingList));
    second := d.CalculateAverageBilling();
    assert d.businessDays == cache;
  }

  /** Two consecutive calls of CalculateDaysAboveAverageBilling agree. */
  method RepeatedDaysAboveAverage(d: Distributor) returns (first: Result<nat>, second: Result<nat>)
    requires d.Valid()
    modifies d
    ensures first == second
    ensures d.dailyBillingList == old(d.dailyBillingList)
    ensures d.businessDays == Refill(old(d.businessDays), old(d.dailyBillingList))
  {
    first := d.CalculateDaysAboveAverageBilling();
    ghost var cache := d.businessDays;
    RefillStable(old(d.businessDays), old(d.dailyBillingList));
    second := d.CalculateDaysAboveAverageBilling();
    assert d.businessDays == cache;
  }
}
