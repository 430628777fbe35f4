/** A distributor's daily billing list, the cached list of its business days
    (the positive values) and the four statistics computed over that cache. */
module Distributors {
  import opened Statistics

  /** The one failure every statistic can report: no billing values to work on. */
  datatype Error = ValuesUndefined

  datatype Option<T> = None | Some(value: T)

  datatype Result<T> = Ok(value: T) | Err(error: Error)

  datatype Outcome = Pass | Fail(error: Error)

  /** Rejects a missing list and a list whose values are all zero (the empty
      list among them). */
  function ValidateList(listOfValues: Option<seq<real>>): (o: Outcome)
    ensures o.Fail? <==>
      listOfValues.None? ||
      forall i :: 0 <= i < |listOfValues.value| ==> listOfValues.value[i] == 0.0
  {
    match listOfValues
    case None => Fail(ValuesUndefined)
    case Some(list) => if AllZero(list) then Fail(ValuesUndefined) else Pass
  }

  /** The cache each statistic works on: the current cache if it holds any
      value, otherwise the business days of the billing list. */
  function Refill(cache: seq<real>, list: seq<real>): seq<real>
  {
    if |cache| == 0 then BusinessDays(list) else cache
  }

  /** Validating a filtered list fails exactly when the billing list had no
      positive value. */
  lemma ValidateBusinessDays(list: seq<real>)
    ensures ValidateList(Some(BusinessDays(list))).Fail? <==>
      forall i :: 0 <= i < |list| ==> list[i] <= 0.0
  {
    BusinessDaysEmpty(list);
    AllZeroOfZeroFree(BusinessDays(list));
  }

  /** Refilling is idempotent and never replaces a non-empty cache; a cache
      of positive values stays one. */
  lemma RefillStable(cache: seq<real>, list: seq<real>)
    requires AllPositive(cache)
    ensures |cache| > 0 ==> Refill(cache, list) == cache
    ensures Refill(Refill(cache, list), list) == Refill(cache, list)
    ensures AllPositive(Refill(cache, list))
  {
  }

  class Distributor {
    /** The daily billing values, one per day; a zero marks a day without business. */
    var dailyBillingList: seq<real>
    /** The business days of some billing list, filled lazily. */
    var businessDays: seq<real>

    /** The cache only ever holds a filtered list, so it is free of zeros
        and of negative values. */
    ghost predicate Valid()
      reads this
    {
      AllPositive(businessDays)
    }

    /** An empty distributor: no billing values and an empty cache. */
    constructor ()
      ensures Valid()
      ensures dailyBillingList == [] && businessDays == []
    {
      dailyBillingList := [];
      businessDays := [];
    }

    /** A distributor over the given billing values, with its cache filled. */
    constructor FromList(list: seq<real>)
      ensures Valid()
      ensures dailyBillingList == list && businessDays == BusinessDays(list)
    {
      dailyBillingList := list;
      businessDays := BusinessDays(list);
    }

    /** The public setter of the billing list; it leaves the cache as it is. */
    method SetDailyBillingList(list: seq<real>)
      requires Valid()
      modifies this
      ensures Valid()
      ensures dailyBillingList == list && businessDays == old(businessDays)
    {
      dailyBillingList := list;
    }

    /** Fills an empty cache from the billing list. */
    method RefillCache()
      requires Valid()
      modifies this
      ensures Valid()
      ensures dailyBillingList == old(dailyBillingList)
      ensures businessDays == Refill(old(businessDays), old(dailyBillingList))
      ensures businessDays == [] <==>
        old(businessDays) == [] && forall i :: 0 <= i < |dailyBillingList| ==> dailyBillingList[i] <= 0.0
    {
      if |businessDays| == 0 {
        businessDays := BusinessDays(dailyBillingList);
        BusinessDaysEmpty(dailyBillingList);
      }
    }

    /** Validates the cache: it fails exactly when the cache is empty. */
    method ValidateCache() returns (o: Outcome)
      requires Valid()
      ensures o.Fail? <==> businessDays == []
    {
      o := ValidateList(Some(businessDays));
      AllZeroOfZeroFree(businessDays);
    }

    /** The smallest business-day value. */
    method CalculateMinimumBilling() returns (r: Result<real>)
      requires Valid()
      modifies this
      ensures Valid()
      ensures dailyBillingList == old(dailyBillingList)
      ensures businessDays == Refill(old(businessDays), old(dailyBillingList))
      ensures r.Err? <==> businessDays == []
      ensures old(businessDays) == [] ==>
        (r.Err? <==> forall i :: 0 <= i < |dailyBillingList| ==> dailyBillingList[i] <= 0.0)
      ensures r.Ok? ==> r.value in businessDays && r.value > 0.0
      ensures r.Ok? ==> forall i :: 0 <= i < |businessDays| ==> r.value <= businessDays[i]
    {
      RefillCache();
      var check := ValidateCache();
      if check.Fail? {
        return Err(check.error);
      }
      r := Ok(Min(businessDays));
    }

    /** The largest business-day value. */
    method CalculateMaximumBilling() returns (r: Result<real>)
      requires Valid()
      modifies this
      ensures Valid()
      ensures dailyBillingList == old(dailyBillingList)
      ensures businessDays == Refill(old(businessDays), old(dailyBillingList))
      ensures r.Err? <==> businessDays == []
      ensures old(businessDays) == [] ==>
        (r.Err? <==> forall i :: 0 <= i < |dailyBillingList| ==> dailyBillingList[i] <= 0.0)
      ensures r.Ok? ==> r.value in businessDays && r.value > 0.0
      ensures r.Ok? ==> forall i :: 0 <= i < |businessDays| ==> businessDays[i] <= r.value
    {
      RefillCache();
      var check := ValidateCache();
      if check.Fail? {
        return Err(check.error);
      }
      r := Ok(Max(businessDays));
    }

    /** The arithmetic mean of the business-day values. */
    method CalculateAverageBilling() returns (r: Result<real>)
      requires Valid()
      modifies this
      ensures Valid()
      ensures dailyBillingList == old(dailyBillingList)
      ensures businessDays == Refill(old(businessDays), old(dailyBillingList))
      ensures r.Err? <==> businessDays == []
      ensures old(businessDays) == [] ==>
        (r.Err? <==> forall i :: 0 <= i < |dailyBillingList| ==> dailyBillingList[i] <= 0.0)
      ensures r.Ok? ==> r.value == Average(businessDays)
      ensures r.Ok? ==> Min(businessDays) <= r.value <= Max(businessDays) && r.value > 0.0
    {
      RefillCache();
      var check := ValidateCache();
      if check.Fail? {
        return Err(check.error);
      }
      var avg := Average(businessDays);
      AverageBetween(businessDays);
      r := Ok(avg);
    }

    /** The number of business days whose value is strictly above the mean of
        the business days. The mean comes from CalculateAverageBilling, whose
        failure is the failure of this method; the validation after the count
        then always passes. */
    method CalculateDaysAboveAverageBilling() returns (r: Result<nat>)
      requires Valid()
      modifies this
      ensures Valid()
      ensures dailyBillingList == old(dailyBillingList)
      ensures businessDays == Refill(old(businessDays), old(dailyBillingList))
      ensures r.Err? <==> businessDays == []
      ensures old(businessDays) == [] ==>
        (r.Err? <==> forall i :: 0 <= i < |dailyBillingList| ==> dailyBillingList[i] <= 0.0)
      ensures r.Ok? ==> r.value == CountAbove(businessDays, Average(businessDays))
      ensures r.Ok? ==> r.value < |businessDays|
      ensures r.Ok? ==> (r.value == 0 <==> forall i :: 0 <= i < |businessDays| ==> businessDays[i] == businessDays[0])
    {
      RefillCache();
      var averageAnnual := CalculateAverageBilling();
      if averageAnnual.Err? {
        return Err(averageAnnual.error);
      }
      var daysAboveAverage := CountAbove(businessDays, averageAnnual.value);
      var check := ValidateCache();
      assert check == Pass;
      r := if check.Fail? then Err(ValuesUndefined) else Ok(daysAboveAverage);
      CountAboveAverageBelowLength(businessDays);
      CountAboveAverageZero(businessDays);
    }
  }
}
