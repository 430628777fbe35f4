# Distributor billing statistics

A model of the `Distributor` class of the Target challenge: a distributor
holds a list of daily billing values, in which a zero marks a day without
business, and answers four questions about its business days — the smallest
billing, the largest billing, the mean billing and the number of days billed
above the mean. The business days are the values strictly greater than zero;
they are kept in a private cache that the constructor taking a list fills at
once and that every statistic refills from the billing list when, and only
when, the cache is empty. Every statistic first validates the cache and fails
with `ValuesUndefined` when there is nothing to work on.

Files:

- `statistics.dfy`, module `Statistics`: the LINQ operators the class uses
  (`Where(f => f > 0)`, `All(v => v == 0)`, `Min`, `Max`, `Average`,
  `Count(f => f > t)`) as recursive functions over `seq<real>`, and the
  lemmas about them: what the filter keeps, where the mean lies, and how many
  values can exceed it.
- `distributor.dfy`, module `Distributors`: the error and result types,
  `ValidateList`, and the class `Distributor` with the billing list and the
  cache as mutable fields. Its object invariant is that the cache holds only
  positive values. Every statistic method says how the cache changes, that
  the billing list does not change, when it fails, and what it returns.
- `scenarios.dfy`, module `Scenarios`: the data of the repository's tests
  (`[3000, 0, 2000, 1000, 0]` and `[0, 0, 0, 0, 0]`), an empty
  distributor, the statistics called in sequence on one distributor, the
  console program's sample of 21 days, negative values, a cache left stale by the setter, and
  repeated calls that return the same result.

Billing values are exact reals instead of C# doubles. An exception becomes
an `Err(ValuesUndefined)` result, and `ValidateList` returns `Pass` or
`Fail(ValuesUndefined)`. A possibly-null list is an `Option`.

The code and its documentation comments disagree in two places, and the
model follows the code. The comments speak of filtering out values "equal
to 0", but the filter keeps only values strictly greater than zero, so
negative values are dropped as well (`NegativeValuesScenario`). The comments
also say that each statistic is computed "from the list of daily billings",
but once the cache is filled a statistic reads only the cache, so a billing
list assigned afterwards is ignored (`StaleCacheScenario`).

## Model

| member | source | states |
|---|---|---|
| Statistics.BusinessDays | Target.Deullam.Challenge/Target.Deullam.Challenge.Domain/Features/Distributors/Distributor.cs:38 | the filtered list is no longer than the input, holds only positive values, and holds exactly the positive values of the input |
| Statistics.BusinessDaysAppend | Target.Deullam.Challenge/Target.Deullam.Challenge.Domain/Features/Distributors/Distributor.cs:38 | filtering distributes over concatenation, so the business days keep the order of the input |
| Statistics.BusinessDaysEmpty | Target.Deullam.Challenge/Target.Deullam.Challenge.Domain/Features/Distributors/Distributor.cs:38 | the filter returns nothing if and only if no input value is positive (zeros and negatives alike) |
| Statistics.BusinessDaysOfPositive | Target.Deullam.Challenge/Target.Deullam.Challenge.Domain/Features/Distributors/Distributor.cs:55 | refiltering a list of positive values returns it unchanged, so a refilled cache is a fixed point of the filter |
| Statistics.AllZero | Target.Deullam.Challenge/Target.Deullam.Challenge.Domain/Features/Distributors/Distributor.cs:148 | true exactly when every value equals zero, vacuously for the empty list |
| Statistics.AllZeroOfZeroFree | Target.Deullam.Challenge/Target.Deullam.Challenge.Domain/Features/Distributors/Distributor.cs:148 | on a list with no zero in it (so on every filtered list), "all values are zero" holds exactly for the empty list |
| Statistics.Min | Target.Deullam.Challenge/Target.Deullam.Challenge.Domain/Features/Distributors/Distributor.cs:60 | the minimum is an element of the list and at most every element |
| Statistics.Max | Target.Deullam.Challenge/Target.Deullam.Challenge.Domain/Features/Distributors/Distributor.cs:83 | the maximum is an element of the list and at least every element |
| Statistics.CountAbove | Target.Deullam.Challenge/Target.Deullam.Challenge.Domain/Features/Distributors/Distributor.cs:128 | the count is at most the length, is zero exactly when no value exceeds the threshold, and equals the length exactly when all values exceed it |
| Statistics.SumAppend | Target.Deullam.Challenge/Target.Deullam.Challenge.Domain/Features/Distributors/Distributor.cs:106 | summing distributes over concatenation, so the sum of the cache can be taken part by part |
| Statistics.CountAboveAppend | Target.Deullam.Challenge/Target.Deullam.Challenge.Domain/Features/Distributors/Distributor.cs:128 | counting distributes over concatenation, so with the one-element cases the count is exactly the number of values above the threshold |
| Statistics.AverageTimesLength | Target.Deullam.Challenge/Target.Deullam.Challenge.Domain/Features/Distributors/Distributor.cs:106 | the mean times the number of values is their sum |
| Statistics.AverageAtLeast | Target.Deullam.Challenge/Target.Deullam.Challenge.Domain/Features/Distributors/Distributor.cs:106 | a lower bound on every value is a lower bound on the mean |
| Statistics.AverageAtMost | Target.Deullam.Challenge/Target.Deullam.Challenge.Domain/Features/Distributors/Distributor.cs:106 | an upper bound on every value is an upper bound on the mean |
| Statistics.AverageBetween | Target.Deullam.Challenge/Target.Deullam.Challenge.Domain/Features/Distributors/Distributor.cs:104-107 | min <= mean <= max |
| Statistics.SomeAtMostAverage | Target.Deullam.Challenge/Target.Deullam.Challenge.Domain/Features/Distributors/Distributor.cs:127-128 | some value is at most the mean |
| Statistics.NoneAboveAverage | Target.Deullam.Challenge/Target.Deullam.Challenge.Domain/Features/Distributors/Distributor.cs:127-128 | if no value exceeds the mean then every value equals it |
| Statistics.CountAboveAverageBelowLength | Target.Deullam.Challenge/Target.Deullam.Challenge.Domain/Features/Distributors/Distributor.cs:127-128 | the number of days above the mean is strictly less than the number of business days |
| Statistics.CountAboveAverageZero | Target.Deullam.Challenge/Target.Deullam.Challenge.Domain/Features/Distributors/Distributor.cs:127-128 | no day is above the mean if and only if all business-day values are equal |
| Distributors.ValidateList | Target.Deullam.Challenge/Target.Deullam.Challenge.Domain/Features/Distributors/Distributor.cs:142-152 | validation fails if and only if the list is missing or all of its values are zero (the empty list included) |
| Distributors.ValidateBusinessDays | Target.Deullam.Challenge/Target.Deullam.Challenge.Domain/Features/Distributors/Distributor.cs:142-152 | validating the filtered list fails if and only if the billing list has no positive value |
| Distributors.RefillStable | Target.Deullam.Challenge/Target.Deullam.Challenge.Domain/Features/Distributors/Distributor.cs:53-56 | a non-empty cache is never replaced, refilling twice is refilling once, and the cache stays positive |
| Distributors.Distributor.constructor | Target.Deullam.Challenge/Target.Deullam.Challenge.Domain/Features/Distributors/Distributor.cs:24-28 | a new distributor has an empty billing list and an empty cache |
| Distributors.Distributor.FromList | Target.Deullam.Challenge/Target.Deullam.Challenge.Domain/Features/Distributors/Distributor.cs:35-39 | the billing list is the given one and the cache is its business days |
| Distributors.Distributor.SetDailyBillingList | Target.Deullam.Challenge/Target.Deullam.Challenge.Domain/Features/Distributors/Distributor.cs:14 | the setter replaces the billing list and leaves the cache untouched |
| Distributors.Distributor.RefillCache | Target.Deullam.Challenge/Target.Deullam.Challenge.Domain/Features/Distributors/Distributor.cs:53-56 | an empty cache becomes the business days of the billing list and a non-empty one is kept; the cache ends empty exactly when it was empty and the list has no positive value |
| Distributors.Distributor.ValidateCache | Target.Deullam.Challenge/Target.Deullam.Challenge.Domain/Features/Distributors/Distributor.cs:58 | validating the (positive) cache fails exactly when the cache is empty |
| Distributors.Distributor.CalculateMinimumBilling | Target.Deullam.Challenge/Target.Deullam.Challenge.Domain/Features/Distributors/Distributor.cs:51-62 | refills the cache by the rule, keeps the billing list, fails exactly when the cache is empty (for an empty starting cache: when the list has no positive value), else returns a positive cache element at most every cache element |
| Distributors.Distributor.CalculateMaximumBilling | Target.Deullam.Challenge/Target.Deullam.Challenge.Domain/Features/Distributors/Distributor.cs:74-85 | as the minimum, but returns a positive cache element at least every cache element |
| Distributors.Distributor.CalculateAverageBilling | Target.Deullam.Challenge/Target.Deullam.Challenge.Domain/Features/Distributors/Distributor.cs:97-108 | as the minimum, but returns the mean of the cache, which lies between its minimum and maximum and is positive |
| Distributors.Distributor.CalculateDaysAboveAverageBilling | Target.Deullam.Challenge/Target.Deullam.Challenge.Domain/Features/Distributors/Distributor.cs:120-133 | fails exactly when the nested average fails, the later validation always passing; else returns the number of cache values above the cache mean, which is less than the cache length and zero exactly when all cache values are equal |
| Scenarios.ValidBillingFacts | Target.Deullam.Challenge/Target.Deullam.Challenge.Common.Tests/Features/Distributors/ObjectMother.cs:18 | the business days of [3000, 0, 2000, 1000, 0] are [3000, 2000, 1000], whose mean is 2000 and which has one value above 2000 |
| Scenarios.ValidDistributorScenario | Target.Deullam.Challenge/Target.Deullam.Challenge.Domain.Tests/Features/Distributors/DistributorTests.cs:26-109 | for [3000, 0, 2000, 1000, 0] set after default construction, each statistic on a distributor of its own: min 1000, max 3000, average 2000, one day above average |
| Scenarios.NewValidDistributor | Target.Deullam.Challenge/Target.Deullam.Challenge.Common.Tests/Features/Distributors/ObjectMother.cs:14-21 | a fresh distributor with the valid test data as its billing list and an empty cache |
| Scenarios.NewInvalidDistributor | Target.Deullam.Challenge/Target.Deullam.Challenge.Common.Tests/Features/Distributors/ObjectMother.cs:23-29 | a fresh distributor with five zero days as its billing list and an empty cache |
| Scenarios.SequentialCallsScenario | Target.Deullam.Challenge/Target.Deullam.Challenge.Domain/Features/Distributors/Distributor.cs:53-56 | for the valid test data set after default construction (Target.Deullam.Challenge/Target.Deullam.Challenge.Common.Tests/Features/Distributors/ObjectMother.cs:14-21), the four statistics called one after another on one distributor give the same values as on separate ones, the first call filling the cache for the rest |
| Scenarios.SampleFiltered | Target.Deullam.Challenge/Target.Deullam.Challenge.Domain/Program.cs:5-7 | the business days of the 21-day sample are its twelve positive values, in order |
| Scenarios.SampleDaysAbove | Target.Deullam.Challenge/Target.Deullam.Challenge.Domain/Program.cs:5 | the mean of the sample's business days is 24700 / 12, and five of them lie above it |
| Scenarios.SampleMinimum | Target.Deullam.Challenge/Target.Deullam.Challenge.Domain/Program.cs:9 | a sample business day at most every sample business day is 500 |
| Scenarios.SampleMaximum | Target.Deullam.Challenge/Target.Deullam.Challenge.Domain/Program.cs:10 | a sample business day at least every sample business day is 4500 |
| Scenarios.SampleProgramScenario | Target.Deullam.Challenge/Target.Deullam.Challenge.Domain/Program.cs:5-11 | a distributor built over the sample with the list constructor, whose cache is filled at once, gives minimum 500, maximum 4500 and five days above average |
| Scenarios.InvalidDistributorScenario | Target.Deullam.Challenge/Target.Deullam.Challenge.Domain.Tests/Features/Distributors/DistributorTests.cs:40-95 | for [0, 0, 0, 0, 0] every statistic, each on a distributor of its own, fails with ValuesUndefined; the test named for the average calls the days-above-average statistic (line 93), so the failing average comes from Target.Deullam.Challenge/Target.Deullam.Challenge.Domain/Features/Distributors/Distributor.cs:97-108 rather than from a test |
| Scenarios.EmptyDistributorScenario | Target.Deullam.Challenge/Target.Deullam.Challenge.Domain/Features/Distributors/Distributor.cs:24-28 | a default-constructed distributor fails every statistic with ValuesUndefined |
| Scenarios.NegativeValuesScenario | Target.Deullam.Challenge/Target.Deullam.Challenge.Domain/Features/Distributors/Distributor.cs:38 | negative values are dropped like zeros, so [-500, 0, -20] has no minimum |
| Scenarios.StaleCacheScenario | Target.Deullam.Challenge/Target.Deullam.Challenge.Domain/Features/Distributors/Distributor.cs:53-56 | after construction from [1000] and assigning [2000], the minimum is still 1000 |
| Scenarios.LateAssignmentScenario | Target.Deullam.Challenge/Target.Deullam.Challenge.Domain/Features/Distributors/Distributor.cs:53-56 | after construction from [0] (empty cache) and assigning [2000], the cache is refilled and the minimum is 2000 |
| Scenarios.RepeatedMinimum | Target.Deullam.Challenge/Target.Deullam.Challenge.Domain/Features/Distributors/Distributor.cs:53-61 | two consecutive minimum calls return the same result and change the cache no more than one call |
| Scenarios.RepeatedMaximum | Target.Deullam.Challenge/Target.Deullam.Challenge.Domain/Features/Distributors/Distributor.cs:76-84 | two consecutive maximum calls return the same result |
| Scenarios.RepeatedAverage | Target.Deullam.Challenge/Target.Deullam.Challenge.Domain/Features/Distributors/Distributor.cs:99-107 | two consecutive average calls return the same result |
| Scenarios.RepeatedDaysAboveAverage | Target.Deullam.Challenge/Target.Deullam.Challenge.Domain/Features/Distributors/Distributor.cs:122-132 | two consecutive days-above-average calls return the same result |

## Left out

- IEEE-754 double arithmetic: the values are exact reals, so rounding in `Average()` and comparisons against a rounded mean are not modelled.
- `Program.cs`: the console output and its currency formatting (lines 3 and 13-15), which are I/O. Its calls on the sample list (lines 5-11) are modelled by `SampleProgramScenario`.
- The exception class hierarchy: `ValuesUndefinedException`, its base class and its message become the single error value `ValuesUndefined`.
- A null `DailyBillingList`: the modelled setter and the list constructor `FromList` take a sequence, which cannot be null. In the source a null list makes `Where` throw its own exception, but only where `Where` runs: in the list constructor (Distributor.cs line 38) and on a refill from an empty cache (lines 53, 76, 99 and 122). With the cache already filled, a null list leaves all four statistics working from the cache. The null branch of `ValidateList` is modelled through `Option`.
- Aliasing: the constructor taking a list, and the public getter and setter of `DailyBillingList`, share the caller's list object, so a caller can edit the live list in place. Values model no such sharing. Such an edit only ever changes `DailyBillingList`, which `SetDailyBillingList` stands for; it never reaches the cache, because the cache is a fresh copy made by `ToList()` (Distributor.cs lines 38 and 55).
- Distributors.Distributor.CalculateDaysAboveAverageBilling: the count is a `nat`, not a 32-bit `int`, because a list of more than 2^31 - 1 elements is out of reach.
- Concurrency: there is none; the cache assumes single-threaded access.
