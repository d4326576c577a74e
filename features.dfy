/** The estimator's input: `model_features`, a list of ten numbers in the order
    the estimator was trained on. */
module Features {
  import opened Classifier
  import opened Weather

  /** The trained schema, position by position. Positions 2 to 9 are indicators
      that are 1 exactly when the segment id or weather label equals the name. */
  const Schema: seq<string> := ["weekday", "hour",
    SegmentGtRoad, SegmentIndirapuram, SegmentNh9,
    Clear, Clouds, Fog, Haze, Rain]

  /** Python's `1 if cond else 0`. */
  function Indicator(b: bool): int
  {
    if b then 1 else 0
  }

  /** `model_features` for a day, an hour, a segment id and a weather label.
      Indicators compare strings, as the source does, so an id outside the known
      set leaves its block all zero rather than failing. */
  function ModelFeatures(day: int, hour: int, segment: string, weather: string): (f: seq<int>)
    ensures |f| == |Schema| == 10
    ensures f[0] == day && f[1] == hour
    ensures forall k :: 2 <= k < 5 ==> f[k] == Indicator(segment == Schema[k])
    ensures forall k :: 5 <= k < 10 ==> f[k] == Indicator(weather == Schema[k])
  {
    [day, hour,
     Indicator(segment == SegmentGtRoad), Indicator(segment == SegmentIndirapuram),
     Indicator(segment == SegmentNh9), Indicator(weather == Clear),
     Indicator(weather == Clouds), Indicator(weather == Fog),
     Indicator(weather == Haze), Indicator(weather == Rain)]
  }

  /** How many entries equal 1. */
  function Ones(s: seq<int>): nat
  {
    if |s| == 0 then 0 else Indicator(s[0] == 1) + Ones(s[1..])
  }

  /** The segment block is one-hot exactly for a known segment id and all zero
      otherwise; the weather block likewise for a known weather label. Every
      indicator is 0 or 1. */
  lemma OneHotBlocks(day: int, hour: int, segment: string, weather: string)
    ensures var f := ModelFeatures(day, hour, segment, weather);
      && (forall k :: 2 <= k < 10 ==> f[k] == 0 || f[k] == 1)
      && Ones(f[2..5]) == (if IsSegmentId(segment) then 1 else 0)
      && Ones(f[5..10]) == (if IsWeatherLabel(weather) then 1 else 0)
  {
    var f := ModelFeatures(day, hour, segment, weather);
    OnesFront(f[2..5]);
    OnesFront(f[3..5]);
    OnesFront(f[4..5]);
    assert Ones(f[2..5]) == f[2] + f[3] + f[4];
    OnesFront(f[5..10]);
    OnesFront(f[6..10]);
    OnesFront(f[7..10]);
    OnesFront(f[8..10]);
    OnesFront(f[9..10]);
    assert Ones(f[5..10]) == f[5] + f[6] + f[7] + f[8] + f[9];
  }

  /** Peels the first entry off a count. */
  lemma OnesFront(s: seq<int>)
    requires |s| > 0
    ensures Ones(s) == Indicator(s[0] == 1) + Ones(s[1..])
    ensures |s| == 1 ==> Ones(s[1..]) == 0
  {
  }

  /** Reads the segment id back from the indicator block. */
  function DecodeSegment(f: seq<int>): string
    requires |f| == 10
  {
    if f[2] == 1 then SegmentGtRoad
    else if f[3] == 1 then SegmentIndirapuram
    else if f[4] == 1 then SegmentNh9
    else ""
  }

  /** Reads the weather label back from the indicator block. */
  function DecodeWeather(f: seq<int>): string
    requires |f| == 10
  {
    if f[5] == 1 then Clear
    else if f[6] == 1 then Clouds
    else if f[7] == 1 then Fog
    else if f[8] == 1 then Haze
    else if f[9] == 1 then Rain
    else ""
  }

  /** The encoding loses nothing: a known segment id and weather label are
      recovered from the vector, along with the day and hour. */
  lemma FeaturesRoundTrip(day: int, hour: int, segment: string, weather: string)
    requires IsSegmentId(segment) && IsWeatherLabel(weather)
    ensures var f := ModelFeatures(day, hour, segment, weather);
      f[0] == day && f[1] == hour && DecodeSegment(f) == segment && DecodeWeather(f) == weather
  {
  }
}
