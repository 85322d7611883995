/**
 * The synthetic load/solar series: one sample every five minutes over
 * [start, end), with a "duck curve" load profile perturbed by a seeded
 * pseudo-random term and a daylight-only solar output.
 *
 * `Math.sin` is a parameter: all the model assumes of it is that its values
 * lie in [-1, 1] (`SineRange`). Everything built on top of it (the seeded
 * pseudo-random term, the curves, the rounding, the overload flag) is exact.
 */
module Generator {
  import opened Numeric
  import opened Time

  /** Load above which a sample is flagged, in MW. */
  const OverloadThreshold: int := 15000

  /** `Math.PI`: the decimal 3.141592653589793 that JavaScript prints for it, as an exact rational (just below pi). */
  const Pi: real := 3.141592653589793

  /** One raw sample. Times are minutes since the epoch; loads are in MW. */
  datatype Sample = Sample(timestamp: int, load: int, solar: int, isOverload: bool)

  /** What the model assumes of `Math.sin`: its range. */
  ghost predicate SineRange(sin: real -> real)
  {
    forall x :: -1.0 <= sin(x) <= 1.0
  }

  /** What the model assumes of `Math.sin` on the first half-turn: it is not negative on [0, Pi]. */
  ghost predicate SineNonNegative(sin: real -> real)
  {
    forall x :: 0.0 <= x <= Pi ==> 0.0 <= sin(x)
  }

  /** `Math.floor(differenceInMinutes(end, start) / 5)`, with the negative length clamped to 0 by `Array.from`. */
  function Intervals(start: int, end: int): (n: nat)
    ensures end <= start ==> n == 0
    ensures start < end ==> start + Cadence * n <= end < start + Cadence * (n + 1)
  {
    if end - start < 0 then 0 else (end - start) / Cadence
  }

  /**
   * The inner `random(min, max, seed)`: the fractional part of
   * `sin(seed) * 10000`, scaled to [min, max).
   */
  function Random(min: real, max: real, seed: int, sin: real -> real): (r: real)
    ensures min < max ==> min <= r < max
  {
    var x := sin(seed as real) * 10000.0;
    Scale(Frac(x), max - min) + min
  }

  /** The five hour-of-day branches of the load profile, in the order the code tests them. */
  datatype Branch = Overnight | MorningRamp | MiddayDip | EveningRamp | LateDecline

  /** The branch the if/else chain of the load calculation takes for `hour`. */
  function BranchOf(hour: int): (b: Branch)
    ensures 0 <= hour < 24 ==> HoursOf(b).0 <= hour < HoursOf(b).1
  {
    if 0 <= hour < 4 then Overnight
    else if 4 <= hour < 7 then MorningRamp
    else if 7 <= hour < 16 then MiddayDip
    else if 16 <= hour < 20 then EveningRamp
    else LateDecline
  }

  /** The hour range [lo, hi) each branch of the duck curve is written for. */
  function HoursOf(b: Branch): (range: (int, int))
  {
    match b
    case Overnight => (0, 4)
    case MorningRamp => (4, 7)
    case MiddayDip => (7, 16)
    case EveningRamp => (16, 20)
    case LateDecline => (20, 24)
  }

  /** The half-width of the noise each branch adds. */
  function NoiseAmplitude(b: Branch): (a: real)
  {
    match b
    case Overnight => 500.0
    case MorningRamp => 300.0
    case MiddayDip => 500.0
    case EveningRamp => 300.0
    case LateDecline => 500.0
  }

  /** The noise-free level of each branch: the duck curve itself. */
  function Curve(b: Branch, hour: int, sin: real -> real): real
  {
    match b
    case Overnight => 10000.0
    case MorningRamp => 10000.0 + (hour - 4) as real * 1500.0
    case MiddayDip => 14500.0 - sin((hour - 7) as real * Pi / 9.0) * 3000.0
    case EveningRamp => 14000.0 + (hour - 16) as real / 4.0 * 3000.0
    case LateDecline => 17000.0 - (hour - 20) as real / 4.0 * 7000.0
  }

  /**
   * `baseLoad` before rounding, for sample seed `s` (= seed + index): within
   * the branch's noise amplitude of the noise-free duck curve.
   */
  function BaseLoad(hour: int, s: int, sin: real -> real): (r: real)
    ensures 0 <= hour < 24 ==>
      Curve(BranchOf(hour), hour, sin) - NoiseAmplitude(BranchOf(hour)) <= r < Curve(BranchOf(hour), hour, sin) + NoiseAmplitude(BranchOf(hour))
  {
    if hour >= 0 && hour < 4 then
      10000.0 + Random(-500.0, 500.0, s, sin)
    else if hour >= 4 && hour < 7 then
      10000.0 + (hour - 4) as real * 1500.0 + Random(-300.0, 300.0, s, sin)
    else if hour >= 7 && hour < 16 then
      var solarEffect := sin((hour - 7) as real * Pi / 9.0) * 3000.0;
      14500.0 - solarEffect + Random(-500.0, 500.0, s, sin)
    else if hour >= 16 && hour < 20 then
      var rampSeverity := (hour - 16) as real / 4.0;
      14000.0 + rampSeverity * 3000.0 + Random(-300.0, 300.0, s, sin)
    else
      var decline := (hour - 20) as real / 4.0;
      17000.0 - decline * 7000.0 + Random(-500.0, 500.0, s, sin)
  }

  /**
   * `solarOutput` before rounding: zero outside the hours 6 to 18, below the
   * 6000 MW peak times the largest factor 1.2 in absolute value, and never
   * negative, since the daylight angle lies in [0, Pi].
   */
  function SolarOutput(hour: int, s: int, sin: real -> real): (r: real)
    ensures hour < 6 || hour > 18 ==> r == 0.0
    ensures SineRange(sin) ==> Abs(r) < 7200.0
    ensures SineRange(sin) && SineNonNegative(sin) ==> 0.0 <= r < 7200.0
  {
    var solarHour := hour >= 6 && hour <= 18;
    var solarPeak := sin((hour - 6) as real * Pi / 12.0);
    var factor := Random(0.8, 1.2, s + 24, sin);
    assert SineRange(sin) ==> Abs(6000.0 * solarPeak * factor) < 7200.0 by {
      if SineRange(sin) {
        var a := Abs(solarPeak);
        MulNonNegative(1.0 - a, factor);
        assert Abs(solarPeak * factor) == a * factor <= factor;
      }
    }
    assert solarHour && SineNonNegative(sin) ==> 0.0 <= 6000.0 * solarPeak * factor by {
      if solarHour && SineNonNegative(sin) {
        assert 0.0 <= (hour - 6) as real * Pi / 12.0 <= Pi;
        MulNonNegative(solarPeak, factor);
      }
    }
    if solarHour then 6000.0 * solarPeak * factor else 0.0
  }

  /** The sample at position `index`: its time, rounded load and solar, and the flag of the unrounded load. */
  function SampleAt(start: int, seed: int, index: int, sin: real -> real): (x: Sample)
    ensures x.timestamp == start + Cadence * index
  {
    var currentTime := start + index * Cadence;
    var hour := HourOf(currentTime);
    var baseLoad := BaseLoad(hour, seed + index, sin);
    Sample(currentTime, Round(baseLoad), Round(SolarOutput(hour, seed + index, sin)),
           baseLoad > OverloadThreshold as real)
  }

  /** `generate5MinData(start, end, seed)`. */
  function Generate(start: int, end: int, seed: int, sin: real -> real): (r: seq<Sample>)
    ensures |r| == Intervals(start, end)
    ensures forall i :: 0 <= i < |r| ==> r[i].timestamp == start + Cadence * i
  {
    seq(Intervals(start, end), index requires 0 <= index => SampleAt(start, seed, index, sin))
  }

  /** Consecutive samples are exactly one cadence apart, so timestamps strictly increase and stay in [start, end). */
  lemma GenerateCadence(start: int, end: int, seed: int, sin: real -> real)
    ensures var r := Generate(start, end, seed, sin);
      && (forall i :: 0 <= i < |r| - 1 ==> r[i + 1].timestamp == r[i].timestamp + Cadence)
      && (forall i, j :: 0 <= i < j < |r| ==> r[i].timestamp < r[j].timestamp)
      && (forall i :: 0 <= i < |r| ==> start <= r[i].timestamp < end)
  {
  }

  /** For every hour of the day, the branch the code takes is the one whose hour range holds it, and no other range does. */
  lemma BranchPartition(hour: int)
    requires 0 <= hour < 24
    ensures forall b: Branch :: HoursOf(b).0 <= hour < HoursOf(b).1 <==> b == BranchOf(hour)
  {
  }

  /**
   * The flag is taken before rounding: a rounded load above the threshold is
   * always flagged, and a flagged load is at least the threshold after rounding
   * (a load of exactly 15000 can be flagged).
   */
  lemma OverloadBeforeRounding(baseLoad: real)
    ensures Round(baseLoad) > OverloadThreshold ==> baseLoad > OverloadThreshold as real
    ensures baseLoad > OverloadThreshold as real ==> Round(baseLoad) >= OverloadThreshold
  {
  }

  /** Per-sample laws: daylight-only solar, the flag of the unrounded load, and the noise band of the rounded load. */
  lemma SampleLaws(start: int, end: int, seed: int, sin: real -> real, i: int)
    requires 0 <= i < Intervals(start, end)
    ensures var x := Generate(start, end, seed, sin)[i];
      var hour := HourOf(x.timestamp);
      var b := BranchOf(hour);
      && (hour < 6 || hour > 18 ==> x.solar == 0)
      && x.isOverload == (BaseLoad(hour, seed + i, sin) > OverloadThreshold as real)
      && (x.load > OverloadThreshold ==> x.isOverload)
      && (x.isOverload ==> x.load >= OverloadThreshold)
      && Curve(b, hour, sin) - NoiseAmplitude(b) - 0.5 < x.load as real <= Curve(b, hour, sin) + NoiseAmplitude(b) + 0.5
  {
    var x := Generate(start, end, seed, sin)[i];
    var hour := HourOf(x.timestamp);
    OverloadBeforeRounding(BaseLoad(hour, seed + i, sin));
  }

  /** With `Math.sin` in [-1, 1], every generated load lies between 9500 and 18000 MW. */
  lemma LoadEnvelope(start: int, end: int, seed: int, sin: real -> real, i: int)
    requires SineRange(sin)
    requires 0 <= i < Intervals(start, end)
    ensures 9500 <= Generate(start, end, seed, sin)[i].load <= 18000
  {
    var x := Generate(start, end, seed, sin)[i];
    var hour := HourOf(x.timestamp);
    var b := BranchOf(hour);
    var c := Curve(b, hour, sin);
    if b == MiddayDip {
      assert -1.0 <= sin((hour - 7) as real * Pi / 9.0) <= 1.0;
    }
    assert 10000.0 <= c + NoiseAmplitude(b) && c - NoiseAmplitude(b) <= 17500.0;
    RoundWithin(BaseLoad(hour, seed + i, sin), 9500, 18000);
  }

  /**
   * With `Math.sin` in [-1, 1] and non-negative on [0, Pi], every generated
   * solar output lies between 0 and 7200 MW.
   */
  lemma SolarEnvelope(start: int, end: int, seed: int, sin: real -> real, i: int)
    requires SineRange(sin) && SineNonNegative(sin)
    requires 0 <= i < Intervals(start, end)
    ensures 0 <= Generate(start, end, seed, sin)[i].solar <= 7200
  {
    var x := Generate(start, end, seed, sin)[i];
    RoundWithin(SolarOutput(HourOf(x.timestamp), seed + i, sin), 0, 7200);
  }

  /** Every sample of the first hour of 2024 (UTC) falls in hour 0. */
  lemma FirstHourOf2024Hours(i: int)
    requires 0 <= i < 12
    ensures HourOf(28401120 + Cadence * i) == 0
  {
    assert (28401120 + Cadence * i) / MinutesPerHour == 473352;
  }

  /** 2024-01-01T00:00Z to 01:00Z: twelve night-time samples, load within 10000 +/- 500, no solar, no overload. */
  lemma FirstHourOf2024(seed: int, sin: real -> real)
    ensures var r := Generate(28401120, 28401180, seed, sin);
      && |r| == 12
      && forall i :: 0 <= i < 12 ==>
           HourOf(r[i].timestamp) == 0 && r[i].solar == 0 && 9500 <= r[i].load <= 10500 && !r[i].isOverload
  {
    var r := Generate(28401120, 28401180, seed, sin);
    assert |r| == 12;
    forall i | 0 <= i < 12
      ensures HourOf(r[i].timestamp) == 0 && r[i].solar == 0 && 9500 <= r[i].load <= 10500 && !r[i].isOverload
    {
      FirstHourOf2024Hours(i);
      SampleLaws(28401120, 28401180, seed, sin, i);
    }
  }
}
