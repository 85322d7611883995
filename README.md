# Grid-load chart engine, modelled in Dafny

This project models the time-series engine behind the grid-load chart: the three functions that sit above the React component in `app/chart/ChartComponent.js`.

- `generate5MinData` (module `Generator`) builds a synthetic series with one sample every five minutes over `[start, end)`. Each sample has a "duck curve" load chosen by hour of day, a seeded pseudo-random perturbation, a daylight-only solar output and an overload flag.
- `aggregateData` (module `Aggregator`) returns the series unchanged for the `'5min'` view. For any other view it folds the samples into a dictionary keyed by calendar day or calendar month. The dictionary keeps sums, a count and the load extrema per key. Each entry then becomes a record with rounded means and an overload flag.
- `generatePredictionData` (module `Forecaster`) projects `hoursAhead * 12` points at five-minute steps after the last sample. Each point scales the last load by a time-of-day multiplier and adds noise of at most 5%.

Supporting modules:

- `Numeric` holds the JavaScript `Math` operations used: `round`, `abs`, `max`, `min`, and the fractional part.
- `Time` holds the clock. A timestamp is a whole number of minutes since 1970-01-01T00:00Z. Hour, day and month are derived in UTC, with the civil-date conversion written out.

How the model is built:

- The generator is a pure per-index map, so it is a sequence comprehension.
- The aggregator's `reduce` updates a dictionary in place. It is the method `Aggregator.Reduce`: a loop over a `map` plus the insertion order of its keys. The loop is proved equal to a fold function (`Aggregator.Fold`). The laws are proved about that fold, against reference definitions on the samples themselves: the filter by key, the first index of a key, sums and extrema.
- The forecaster's `for` loop pushes onto an array. It is the method `Forecaster.Forecast`, proved against the per-point function `Forecaster.PredictionAt`.

`Math.sin` is a parameter `sin: real -> real`. Where a bound needs its range, the lemma requires `SineRange(sin)`, i.e. values in [-1, 1], and, for the solar bounds, `SineNonNegative(sin)`, i.e. no negative value on [0, Pi]. `Math.random` is a parameter `random: int -> real`: `random(i)` is the value drawn in iteration `i`. Where a bound needs its range, the lemma requires `UnitRange(random)`, i.e. values in [0, 1). All other arithmetic is exact rational arithmetic.

## Model

| member | source | states |
|---|---|---|
| Numeric.Round | app/chart/ChartComponent.js:75 | `Math.round` lands within half a unit of its argument: x - 0.5 < r <= x + 0.5 |
| Numeric.Frac | app/chart/ChartComponent.js:43 | `x - Math.floor(x)` lies in [0, 1) and removing it leaves a whole number |
| Numeric.Abs | app/chart/ChartComponent.js:151 | `Math.abs` is non-negative and equals x or -x |
| Numeric.Max | app/chart/ChartComponent.js:104 | `Math.max` is an upper bound of both arguments and is one of them |
| Numeric.Min | app/chart/ChartComponent.js:105 | `Math.min` is a lower bound of both arguments and is one of them |
| Numeric.Scale | app/chart/ChartComponent.js:43 | a fraction in [0, 1) times a positive width lies in [0, width) |
| Time.DayOf | app/chart/ChartComponent.js:87-88 | the `yyyy-MM-dd` day of a timestamp: the day whose 1440 minutes contain it |
| Time.HourOf | app/chart/ChartComponent.js:48 | `getHours()` in UTC is in 0..23, and the timestamp falls inside that hour of its day |
| Time.CivilFromDays | app/chart/ChartComponent.js:89 | every day number maps to a month 1..12 and a day of month 1..31 |
| Time.CivilEpoch | app/chart/ChartComponent.js:89 | day 0 is 1970-01-01 |
| Time.CivilLeapDay2024 | app/chart/ChartComponent.js:89 | day 19782 is the leap day 2024-02-29 |
| Time.CivilBeforeEpoch | app/chart/ChartComponent.js:89 | day -1 is 1969-12-31, so dates before the epoch convert too |
| Time.MonthKey | app/chart/ChartComponent.js:89 | the `yyyy-MM` key is a month number from which the timestamp's year (key div 12) and month (key mod 12, plus 1) read back |
| Generator.Intervals | app/chart/ChartComponent.js:38-46 | the sample count is 0 when end <= start; otherwise it is the largest n with start + 5n <= end |
| Generator.Random | app/chart/ChartComponent.js:41-44 | the seeded pseudo-random value lies in [min, max) for any `sin` whenever min < max |
| Generator.SampleAt | app/chart/ChartComponent.js:47-74 | the sample at index i is stamped start + 5i minutes |
| Generator.Generate | app/chart/ChartComponent.js:37-80 | the series has exactly `Intervals(start, end)` samples and sample i is stamped start + 5i |
| Generator.GenerateCadence | app/chart/ChartComponent.js:46-47 | adjacent samples are exactly 5 minutes apart, timestamps strictly increase, and all lie in [start, end) |
| Generator.BranchOf | app/chart/ChartComponent.js:52-65 | for every hour 0..23, the branch the if/else chain takes is one whose hour range holds that hour |
| Generator.BranchPartition | app/chart/ChartComponent.js:52-65 | for every hour 0..23, the branch the if/else chain takes is the unique one whose hour range holds that hour |
| Generator.BaseLoad | app/chart/ChartComponent.js:51-65 | for every hour 0..23, the unrounded load lies within its branch's noise amplitude (±500 or ±300) of the noise-free duck curve, which is defined separately per branch |
| Generator.SolarOutput | app/chart/ChartComponent.js:67-70 | the unrounded solar output is 0 before hour 6 and after hour 18; with `sin` in [-1, 1] it stays below 6000 × 1.2 = 7200 MW in absolute value, and when `sin` is also non-negative on [0, Pi] it lies in [0, 7200) |
| Generator.OverloadBeforeRounding | app/chart/ChartComponent.js:75-77 | since the flag is taken before rounding, a rounded load above 15000 is flagged, and a flagged load rounds to at least 15000 |
| Generator.SampleLaws | app/chart/ChartComponent.js:52-77 | per sample: solar is 0 before 06:00 and after 18:59; the flag equals unrounded load > 15000; the rounded load stays within the branch band ±0.5 |
| Generator.LoadEnvelope | app/chart/ChartComponent.js:52-75 | with `sin` in [-1, 1], every generated load lies between 9500 and 18000 MW |
| Generator.SolarEnvelope | app/chart/ChartComponent.js:68-76 | with `sin` in [-1, 1] and non-negative on [0, Pi], every generated solar value is between 0 and 7200 MW |
| Generator.FirstHourOf2024 | app/chart/ChartComponent.js:37-80 | from 2024-01-01T00:00Z to 01:00Z there are 12 samples, all at hour 0, with no solar, load in [9500, 10500] and no overload |
| Aggregator.GranularityOf | app/chart/ChartComponent.js:87-89 | only the view type `'weekly'` keys by day; every other aggregated view type keys by month |
| Aggregator.KeyLaws | app/chart/ChartComponent.js:86-89 | the bucket key: a day key is the day whose 1440 minutes hold the timestamp; a month key reads back as the year and month of the timestamp's date |
| Aggregator.Open | app/chart/ChartComponent.js:91-99 | a key's first sample opens an entry with count 1 and min = load = max = that sample's load |
| Aggregator.Absorb | app/chart/ChartComponent.js:100-106 | a later sample keeps the entry's timestamp, adds one to the count and widens the extrema to cover its load |
| Aggregator.Fold | app/chart/ChartComponent.js:85-108 | after the reduce, each key is listed once in insertion order, the dictionary's keys are exactly the keys of the input, and every entry has count >= 1 and min <= max |
| Aggregator.StepFrame | app/chart/ChartComponent.js:91-107 | one reduce step adds the sample's key to the dictionary, appends it to the insertion order only when it is new, and leaves every other entry unchanged |
| Aggregator.FoldSnoc | app/chart/ChartComponent.js:85-108 | consuming one more sample is one more step of the reduce |
| Aggregator.Finish | app/chart/ChartComponent.js:110-115 | a record keeps the entry's timestamp, count and extrema; it is flagged iff maxLoad > 15000; its rounded mean lies between the extrema when the sum does |
| Aggregator.MeanWithin | app/chart/ChartComponent.js:112 | a sum between n·lo and n·hi has its rounded mean in [lo, hi] |
| Aggregator.Records | app/chart/ChartComponent.js:110-115 | `Object.values(...).map(...)` yields one finished record per key, in insertion order |
| Aggregator.FoldBuckets | app/chart/ChartComponent.js:85-108 | each entry equals the summary of the samples with its key: first timestamp, sums, count and extrema of exactly those samples |
| Aggregator.FoldOrder | app/chart/ChartComponent.js:91-110 | the keys are listed in the order their first samples appear in the input |
| Aggregator.FoldPartition | app/chart/ChartComponent.js:96-103 | the records' counts add up to the number of input samples |
| Aggregator.AggregatePartition | app/chart/ChartComponent.js:85-108 | the counts sum to the input length, every record has count >= 1, and the output is empty iff the input is |
| Aggregator.AggregateFirstSeen | app/chart/ChartComponent.js:91-110 | one record per distinct key in first-seen order, each stamped with the timestamp of its key's first sample |
| Aggregator.GroupRecord | app/chart/ChartComponent.js:97-112 | a group's record has the group's size as count, extrema that bound every load in the group and are attained, and a mean between them |
| Aggregator.AggregateExtrema | app/chart/ChartComponent.js:97-114 | each record's count is the number of samples with its key; its extrema bound and are attained by those samples' loads; min <= mean <= max; flagged iff max > 15000 |
| Aggregator.AggregateChronological | app/chart/ChartComponent.js:93-110 | on a strictly time-ordered input, the records are strictly time-ordered too |
| Aggregator.AggregateMeans | app/chart/ChartComponent.js:112 | every record's rounded mean load lies between its minimum and maximum |
| Aggregator.TwoDaysGroups | app/chart/ChartComponent.js:85-108 | when the first 288 of 576 samples fall on day d and the rest on day d + 1, each day groups exactly 288 samples |
| Aggregator.TwoDaysFirst | app/chart/ChartComponent.js:91-99 | for the same split, the only keys are d and d + 1, first seen at positions 0 and 288 |
| Aggregator.TwoDaysRecords | app/chart/ChartComponent.js:82-116 | time-ordered samples split that way aggregate into exactly two daily records of count 288, day d first, stamped with samples 0 and 288 |
| Aggregator.TwoDaysDaily | app/chart/ChartComponent.js:37-116 | two whole UTC days of generated samples (576) in the daily view give exactly two records of 288 samples, stamped at each day's midnight, in day order |
| Aggregator.Reduce | app/chart/ChartComponent.js:85-108 | the in-place loop over the dictionary ends in exactly the state of the fold |
| Aggregator.Aggregate | app/chart/ChartComponent.js:82-116 | `'5min'` returns the input unchanged; otherwise the records partition the input (counts sum to its length, each >= 1), each mean lies between its extrema, and each flag is max > 15000 |
| Forecaster.Horizon | app/chart/ChartComponent.js:124 | the loop runs hoursAhead·12 times, or not at all when hoursAhead <= 0 |
| Forecaster.Multiplier | app/chart/ChartComponent.js:132-140 | the factor is 1.2 iff hour in [6,10), 0.85 iff [10,16), 1.3 iff [16,20), and 0.7 iff before 6 or from 20 |
| Forecaster.Noise | app/chart/ChartComponent.js:143 | with the draw in [0, 1), the noise is at most 5% of the scaled load in absolute value |
| Forecaster.PredictionAt | app/chart/ChartComponent.js:125-152 | point i is stamped last + 5i minutes and is marked as a prediction |
| Forecaster.Forecast | app/chart/ChartComponent.js:119-156 | the loop yields exactly Horizon(hoursAhead) points; point i (from 1) is `PredictionAt(last, i, random(i))`, stamped last + 5i and marked as a prediction; at the default 24 hours there are 288 points and the last is stamped exactly one day after the last sample |
| Forecaster.ForecastTimes | app/chart/ChartComponent.js:124-125 | forecast times strictly increase and the first is 5 minutes after the last sample |
| Forecaster.DefaultForecastDay | app/chart/ChartComponent.js:119-125 | at the default 24-hour horizon the forecast's 288 points all fall within the day after the last sample, the last exactly one day after it |
| Forecaster.PredictionBounds | app/chart/ChartComponent.js:129-151 | the reported uncertainty is at most 5% of the scaled load, and the rounded load is within that uncertainty ±0.5 of the scaled load |
| Forecaster.ForecastBounds | app/chart/ChartComponent.js:124-151 | with `Math.random` in [0, 1), every point of the forecast keeps those bounds |
| Forecaster.EveningPeakHour | app/chart/ChartComponent.js:132-151 | from 10000 MW at 16:00 UTC, the 12 points of a one-hour forecast all use the evening factor 1.3 and have loads in [12350, 13650] |
| Forecaster.ForecastContinuesHistory | app/chart/ChartComponent.js:119-125 | when the history spans a whole number of 5-minute steps, the forecast's first point falls exactly at the history's end |

## Left out

- The `ChartComponent` React body (`app/chart/ChartComponent.js:158` onwards) is not part of this model. It is state hooks, chart rendering and animation over libraries that are not shown.
- The `time` label (`format(currentTime, 'HH:mm')`) of samples and predictions is not modelled. It is a display string derived from the timestamp. Timestamps are integer minutes, not ISO strings, so `toISOString`/`parseISO` become the identity.
- The host time zone is not modelled. `getHours()` and the `yyyy-MM-dd` / `yyyy-MM` keys follow the host's local time; the model fixes UTC. Sub-minute parts of the start and end dates are not modelled either.
- Floating point is not modelled. The numeric values of `Math.sin` are not modelled (it is a parameter). `Math.PI` is the decimal 3.141592653589793 that JavaScript prints for it, taken as an exact rational, and sums, products and the fractional part are exact. So the model says nothing about double rounding error.
- `Date.now()` as the default seed and `Math.random()` are parameters (`seed`, `random`), because they are nondeterministic.
- `hoursAhead` is an integer. A fractional `hoursAhead` (the loop bound `hoursAhead * 12` compared with an integer counter) is not modelled.
- Generator.Random: stated only for min < max. The code always calls it that way.
- Forecaster.PredictionBounds: the 5% bound is relative to |scaled load|, so it covers negative loads too. The generator never produces a negative load.
- `components/ui/date-time-range.jsx`, `Frontend/app/component/Navigation.jsx` and `Frontend/app/dummyModel/page.js` are not part of this model. They are UI and a network call.
- `Model/app.py` is not part of this model. It is a Flask endpoint over a model class whose code is not available.

Behaviours of the code worth noting, all modelled as written:

- The `'weekly'` view buckets by calendar day (`yyyy-MM-dd`), not by week.
- A view type other than `'5min'` and `'weekly'` is bucketed by month rather than rejected.
- A sample's `isOverload` compares the unrounded load with 15000, so a sample whose rounded load is exactly 15000 can be flagged (`Generator.OverloadBeforeRounding`).
- The forecast noise `(random - 0.5) * 0.1 * load` spans ±5% of the scaled load, i.e. a band 10% wide.
