/**
 * `generatePredictionData`: project the load of the last sample forward,
 * one point every five minutes for a number of hours, scaling it by a
 * time-of-day multiplier and adding symmetric noise of at most 5%.
 *
 * `Math.random` is a parameter: `random(i)` is the value it returns in the
 * loop's i-th iteration; the bounds below assume only that it lies in [0, 1).
 */
module Forecaster {
  import opened Numeric
  import opened Time
  import opened Generator

  /** The horizon used when none is given, in hours. */
  const DefaultHorizonHours: int := 24

  /** Points per hour at the five-minute cadence. */
  const StepsPerHour: int := 12

  /** One forecast point; it carries no overload flag. */
  datatype Prediction = Prediction(timestamp: int, load: int, isPrediction: bool, uncertainty: real)

  /** What the model assumes of `Math.random`: its range. */
  ghost predicate UnitRange(random: int -> real)
  {
    forall i :: 0.0 <= random(i) < 1.0
  }

  /** How many times the loop `for (i = 1; i <= hoursAhead * 12; i++)` runs. */
  function Horizon(hoursAhead: int): (n: nat)
    ensures hoursAhead <= 0 ==> n == 0
    ensures 0 < hoursAhead ==> n == hoursAhead * StepsPerHour
  {
    if hoursAhead * StepsPerHour < 0 then 0 else hoursAhead * StepsPerHour
  }

  /**
   * The time-of-day factor: a morning ramp from 6 to 10, a midday dip from 10
   * to 16, an evening peak from 16 to 20, and night otherwise.
   */
  function Multiplier(hour: int): (m: real)
    ensures m == 1.2 <==> 6 <= hour < 10
    ensures m == 0.85 <==> 10 <= hour < 16
    ensures m == 1.3 <==> 16 <= hour < 20
    ensures m == 0.7 <==> hour < 6 || 20 <= hour
  {
    if hour >= 6 && hour < 10 then 1.2
    else if hour >= 10 && hour < 16 then 0.85
    else if hour >= 16 && hour < 20 then 1.3
    else 0.7
  }

  /** The signed noise `(u - 0.5) * 0.1 * predictedLoad`: at most 5% of the load either way. */
  function Noise(u: real, predictedLoad: real): (noise: real)
    ensures 0.0 <= u < 1.0 ==> Abs(noise) <= 0.05 * Abs(predictedLoad)
  {
    var w := (u - 0.5) * 0.1;
    assert 0.0 <= u < 1.0 ==> Abs(w * predictedLoad) <= 0.05 * Abs(predictedLoad) by {
      if 0.0 <= u < 1.0 {
        var q := Abs(predictedLoad);
        MulNonNegative(0.05 - w, q);
        MulNonNegative(0.05 + w, q);
        assert Abs(w * predictedLoad) == Abs(w * q);
      }
    }
    w * predictedLoad
  }

  /** The `i`-th point (from 1) after `last`, for the random draw `u`. */
  function PredictionAt(last: Sample, i: int, u: real): (p: Prediction)
    ensures p.timestamp == last.timestamp + Cadence * i
    ensures p.isPrediction
  {
    var currentTime := last.timestamp + i * Cadence;
    var predictedLoad := last.load as real * Multiplier(HourOf(currentTime));
    var uncertainty := Noise(u, predictedLoad);
    Prediction(currentTime, Round(predictedLoad + uncertainty), true, Abs(uncertainty))
  }

  /** `generatePredictionData(lastDataPoint, hoursAhead)`. */
  method Forecast(last: Sample, hoursAhead: int, random: int -> real) returns (predictions: seq<Prediction>)
    ensures |predictions| == Horizon(hoursAhead)
    ensures forall i :: 0 <= i < |predictions| ==> predictions[i] == PredictionAt(last, i + 1, random(i + 1))
    ensures forall i :: 0 <= i < |predictions| ==>
      predictions[i].timestamp == last.timestamp + Cadence * (i + 1) && predictions[i].isPrediction
    ensures hoursAhead == DefaultHorizonHours ==>
      |predictions| == 288 && predictions[|predictions| - 1].timestamp == last.timestamp + MinutesPerDay
  {
    predictions := [];
    var baseLoad := last.load;
    var startTime := last.timestamp;
    var i := 1;
    while i <= hoursAhead * StepsPerHour
      invariant 1 <= i <= Horizon(hoursAhead) + 1
      invariant |predictions| == i - 1
      invariant forall k :: 0 <= k < |predictions| ==> predictions[k] == PredictionAt(last, k + 1, random(k + 1))
    {
      var currentTime := startTime + i * Cadence;
      var hour := HourOf(currentTime);
      var predictedLoad := baseLoad as real;
      if hour >= 6 && hour < 10 {
        predictedLoad := predictedLoad * 1.2;
      } else if hour >= 10 && hour < 16 {
        predictedLoad := predictedLoad * 0.85;
      } else if hour >= 16 && hour < 20 {
        predictedLoad := predictedLoad * 1.3;
      } else {
        predictedLoad := predictedLoad * 0.7;
      }
      var uncertainty := Noise(random(i), predictedLoad);
      predictedLoad := predictedLoad + uncertainty;
      predictions := predictions + [Prediction(currentTime, Round(predictedLoad), true, Abs(uncertainty))];
      i := i + 1;
    }
  }

  /** Forecast times strictly increase, the first one cadence after the last sample. */
  lemma ForecastTimes(last: Sample, i: int, j: int, u: real, v: real)
    requires 1 <= i < j
    ensures last.timestamp < PredictionAt(last, i, u).timestamp < PredictionAt(last, j, v).timestamp
    ensures PredictionAt(last, 1, u).timestamp == last.timestamp + Cadence
  {
  }

  /**
   * At the default horizon of 24 hours the forecast has 288 points covering
   * exactly the next day: each falls after the last sample and no later than
   * one day after it, and the last one falls exactly one day after it.
   */
  lemma DefaultForecastDay(last: Sample, random: int -> real)
    ensures Horizon(DefaultHorizonHours) == 288
    ensures forall i :: 1 <= i <= Horizon(DefaultHorizonHours) ==>
      last.timestamp < PredictionAt(last, i, random(i)).timestamp <= last.timestamp + MinutesPerDay
    ensures PredictionAt(last, Horizon(DefaultHorizonHours), random(288)).timestamp == last.timestamp + MinutesPerDay
  {
  }

  /**
   * A point's uncertainty is at most 5% of the scaled load, and its rounded
   * load is within that uncertainty (plus rounding) of the scaled load.
   */
  lemma PredictionBounds(last: Sample, i: int, u: real)
    requires 0.0 <= u < 1.0
    ensures var p := PredictionAt(last, i, u);
      var scaled := last.load as real * Multiplier(HourOf(p.timestamp));
      && p.uncertainty <= 0.05 * Abs(scaled)
      && scaled - p.uncertainty - 0.5 < p.load as real <= scaled + p.uncertainty + 0.5
  {
  }

  /**
   * When `Math.random` keeps to [0, 1), every point of a forecast keeps the
   * bounds of `PredictionBounds`.
   */
  lemma ForecastBounds(last: Sample, hoursAhead: int, random: int -> real)
    requires UnitRange(random)
    ensures forall i :: 1 <= i <= Horizon(hoursAhead) ==>
      var p := PredictionAt(last, i, random(i));
      var scaled := last.load as real * Multiplier(HourOf(p.timestamp));
      && p.uncertainty <= 0.05 * Abs(scaled)
      && scaled - p.uncertainty - 0.5 < p.load as real <= scaled + p.uncertainty + 0.5
  {
    forall i | 1 <= i <= Horizon(hoursAhead)
      ensures var p := PredictionAt(last, i, random(i));
        var scaled := last.load as real * Multiplier(HourOf(p.timestamp));
        && p.uncertainty <= 0.05 * Abs(scaled)
        && scaled - p.uncertainty - 0.5 < p.load as real <= scaled + p.uncertainty + 0.5
    {
      PredictionBounds(last, i, random(i));
    }
  }

  /**
   * From a load of 10000 MW at 16:00 UTC, a one-hour forecast has twelve
   * points, all in the evening peak (factor 1.3), with loads within 5% of 13000.
   */
  lemma EveningPeakHour(last: Sample, i: int, u: real)
    requires last.load == 10000 && last.timestamp % MinutesPerDay == 960
    requires 1 <= i <= Horizon(1) && 0.0 <= u < 1.0
    ensures var p := PredictionAt(last, i, u);
      Multiplier(HourOf(p.timestamp)) == 1.3 && 12350 <= p.load <= 13650
  {
    var t := last.timestamp + Cadence * i;
    var d := DayOf(last.timestamp);
    assert last.timestamp == d * MinutesPerDay + 960;
    assert DayOf(t) == d;
    assert 16 <= HourOf(t) < 20;
    PredictionBounds(last, i, u);
  }

  /**
   * A forecast made from the last sample of a history whose span is a whole
   * number of cadences starts exactly at the end of that history, so history
   * and forecast form one unbroken five-minute series.
   */
  lemma ForecastContinuesHistory(start: int, end: int, seed: int, sin: real -> real, u: real)
    requires start < end && (end - start) % Cadence == 0
    ensures var history := Generate(start, end, seed, sin);
      history != [] && PredictionAt(history[|history| - 1], 1, u).timestamp == end
  {
  }
}
