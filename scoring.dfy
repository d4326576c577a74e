/** Turning a predicted speed and a leg's length into the model's travel time. */
module Scoring {

  /** The floor on the estimator's output: below 1 km/h the speed is taken as 1. */
  function ClampSpeed(predictedKph: real): (kph: real)
    ensures kph >= 1.0
    ensures predictedKph >= 1.0 ==> kph == predictedKph
    ensures predictedKph < 1.0 ==> kph == 1.0
  {
    if predictedKph < 1.0 then 1.0 else predictedKph
  }

  /** A route's custom duration (seconds) and the speed (km/h) it was computed with. */
  datatype Score = Score(durationSec: real, speedKph: real)

  /** Clamp the prediction, then `distance_m / 1000 / speed * 3600`. The reported
      speed is the clamped one, so speed times duration always gives back the
      distance; the duration never exceeds that of the 1 km/h floor and is positive
      for any positive distance. */
  function ScoreRoute(distanceM: nat, predictedKph: real): (r: Score)
    ensures r.speedKph == ClampSpeed(predictedKph)
    ensures r.durationSec * r.speedKph == distanceM as real * 3.6
    ensures 0.0 <= r.durationSec <= distanceM as real * 3.6
    ensures distanceM > 0 ==> r.durationSec > 0.0
  {
    var kph := ClampSpeed(predictedKph);
    var durationSec := distanceM as real / 1000.0 / kph * 3600.0;
    DivisionFacts(distanceM as real / 1000.0, kph);
    Score(durationSec, kph)
  }

  /** What dividing a non-negative length by a speed of at least 1 gives. */
  lemma DivisionFacts(km: real, kph: real)
    requires km >= 0.0 && kph >= 1.0
    ensures km / kph * kph == km
    ensures 0.0 <= km / kph <= km
    ensures km > 0.0 ==> km / kph > 0.0
  {
    var q := km / kph;
    assert q * kph == km;
  }

  /** When the estimator already predicts at least 1 km/h the clamp does nothing
      and the duration is distance over predicted speed. */
  lemma UnclampedWhenFastEnough(distanceM: nat, predictedKph: real)
    requires predictedKph >= 1.0
    ensures ScoreRoute(distanceM, predictedKph).durationSec == distanceM as real / 1000.0 / predictedKph * 3600.0
    ensures ScoreRoute(distanceM, predictedKph).durationSec * predictedKph == distanceM as real * 3.6
  {
  }

  /** Every prediction at or below the floor gives the same duration as the floor. */
  lemma DegeneratePredictionsAgree(distanceM: nat, p: real, q: real)
    requires p <= 1.0 && q <= 1.0
    ensures ScoreRoute(distanceM, p) == ScoreRoute(distanceM, q)
    ensures ScoreRoute(distanceM, p).durationSec == distanceM as real * 3.6
  {
  }

  /** A faster prediction never gives a longer duration over the same distance. */
  lemma FasterIsNeverLonger(distanceM: nat, slower: real, faster: real)
    requires slower <= faster
    ensures ScoreRoute(distanceM, faster).durationSec <= ScoreRoute(distanceM, slower).durationSec
  {
    var a := ScoreRoute(distanceM, slower);
    var b := ScoreRoute(distanceM, faster);
    assert 1.0 <= a.speedKph <= b.speedKph;
    assert b.durationSec * b.speedKph == a.durationSec * a.speedKph;
    assert b.durationSec * a.speedKph <= b.durationSec * b.speedKph;
    assert (a.durationSec - b.durationSec) * a.speedKph >= 0.0;
  }

  /** A longer leg never takes less time at the same prediction. */
  lemma LongerIsNeverShorter(shorterM: nat, longerM: nat, predictedKph: real)
    requires shorterM <= longerM
    ensures ScoreRoute(shorterM, predictedKph).durationSec <= ScoreRoute(longerM, predictedKph).durationSec
  {
    var a := ScoreRoute(shorterM, predictedKph);
    var b := ScoreRoute(longerM, predictedKph);
    assert a.speedKph == b.speedKph >= 1.0;
    assert (b.durationSec - a.durationSec) * a.speedKph >= 0.0;
  }
}
