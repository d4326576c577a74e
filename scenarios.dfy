/** Worked examples of the whole pipeline on concrete inputs. */
module Scenarios {
  import opened Common
  import opened Text
  import opened Directions
  import opened Classifier
  import opened Weather
  import opened Features
  import opened Scoring
  import opened Ranking
  import opened Pipeline

  /** A one-step leg of the given length, with both end points. */
  function SingleStepLeg(instructions: string, distanceM: nat): Leg
  {
    Leg(Some([Step(Some(instructions))]), Some(distanceM), None, Some(DurationEntry(Some("20 mins"))),
        Some(LatLng(28.6, 77.4)), Some(LatLng(28.7, 77.5)))
  }

  /** An estimator that predicts 50 km/h on NH9, 40 on the GT road and 20 elsewhere. */
  function SegmentSpeeds(f: seq<int>): real
  {
    if |f| == 10 && f[4] == 1 then 50.0
    else if |f| == 10 && f[2] == 1 then 40.0
    else 20.0
  }

  lemma GtRdIsGtRoad()
    ensures ClassifyText("GT Rd") == SegmentGtRoad
  {
    MissingFirstCharacter("GT Rd", "NH");
    MissingFirstCharacter("GT Rd", "Expressway");
    assert Contains("GT Rd", "GT Rd");
  }

  /** "Indirapuram" contains none of the four signals: it has no upper-case N, E
      or G. */
  lemma IndirapuramLacks(pat: string)
    requires pat in ["NH", "Expressway", "GT Rd", "Grand Trunk"]
    ensures !Contains("Indirapuram", pat)
  {
    MissingFirstCharacter("Indirapuram", pat);
  }

  /** Three candidate routes of 10, 12 and 9 km whose only steps name NH9, the GT
      road and Indirapuram; the first has a summary, the others do not. */
  const ThreeRoutes: seq<Route> := [
    Route([SingleStepLeg("NH", 10000)], Some("NH9"), Some("a")),
    Route([SingleStepLeg("GT Rd", 12000)], None, Some("b")),
    Route([SingleStepLeg("Indirapuram", 9000)], None, Some("c"))]

  lemma ThreeRoutesClassified()
    ensures |ThreeRoutes| == 3
    ensures ClassifyRoute(ThreeRoutes[0].legs[0]) == SegmentNh9
    ensures ClassifyRoute(ThreeRoutes[1].legs[0]) == SegmentGtRoad
    ensures ClassifyRoute(ThreeRoutes[2].legs[0]) == SegmentIndirapuram
  {
    assert Contains("NH", "NH");
    OneStepLeg(ThreeRoutes[0].legs[0], "NH");
    GtRdIsGtRoad();
    OneStepLeg(ThreeRoutes[1].legs[0], "GT Rd");
    IndirapuramLacks("NH");
    IndirapuramLacks("Expressway");
    IndirapuramLacks("GT Rd");
    IndirapuramLacks("Grand Trunk");
    OneStepLeg(ThreeRoutes[2].legs[0], "Indirapuram");
  }

  lemma ThreeRoutesScored()
    ensures ScoreRoute(10000, 50.0).durationSec == 720.0
    ensures ScoreRoute(12000, 40.0).durationSec == 1080.0
    ensures ScoreRoute(9000, 20.0).durationSec == 1620.0
  {
  }

  lemma SpeedsBySegment(day: int, hour: int, weather: string)
    ensures SegmentSpeeds(ModelFeatures(day, hour, SegmentNh9, weather)) == 50.0
    ensures SegmentSpeeds(ModelFeatures(day, hour, SegmentGtRoad, weather)) == 40.0
    ensures SegmentSpeeds(ModelFeatures(day, hour, SegmentIndirapuram, weather)) == 20.0
  {
  }

  /** The route at position 1 without a summary is shown as "Route 2". */
  lemma SecondRouteName()
    ensures DefaultSummary(1) == "Route 2"
  {
    assert DecimalString(2) == [DigitChar(2)] == "2";
  }

  /** The record built for one route: its duration at the segment's speed, and
      its default summary. */
  lemma OneRouteRecord(i: nat, route: Route, trip: Trip, weather: string, segment: string,
                       distanceM: nat, kph: real, durationSec: real)
    requires Scorable(route) && route.legs[0].distance == Some(distanceM)
    requires ClassifyRoute(route.legs[0]) == segment
    requires SegmentSpeeds(ModelFeatures(trip.weekday, trip.hour, segment, weather)) == kph
    requires ScoreRoute(distanceM, kph).durationSec == durationSec
    ensures AnalyzeRoute(i, route, trip, weather, SegmentSpeeds).customDurationSec == durationSec
    ensures route.summary.None? ==> AnalyzeRoute(i, route, trip, weather, SegmentSpeeds).summary == DefaultSummary(i)
  {
  }

  lemma DurationsOfThree(a: RouteRecord, b: RouteRecord, c: RouteRecord)
    ensures Durations([a, b, c]) == [a.customDurationSec, b.customDurationSec, c.customDurationSec]
  {
  }

  /** Three scorable routes of 10, 12 and 9 km whose first legs lie on NH9, the
      GT road and Indirapuram, the second without a summary. */
  predicate ThreeSegmentRoutes(routes: seq<Route>)
  {
    && |routes| == 3
    && Scorable(routes[0]) && Scorable(routes[1]) && Scorable(routes[2])
    && ClassifyRoute(routes[0].legs[0]) == SegmentNh9 && routes[0].legs[0].distance == Some(10000)
    && ClassifyRoute(routes[1].legs[0]) == SegmentGtRoad && routes[1].legs[0].distance == Some(12000)
    && ClassifyRoute(routes[2].legs[0]) == SegmentIndirapuram && routes[2].legs[0].distance == Some(9000)
    && routes[1].summary.None?
    && HasEndpoints(routes[0])
  }

  /** The concrete routes above are such routes. */
  lemma ThreeRoutesQualify()
    ensures ThreeSegmentRoutes(ThreeRoutes)
  {
    ThreeRoutesClassified();
  }

  /** The records the loop body builds for such routes, on any day, at any hour
      and in any weather label. */
  function ThreeRecords(routes: seq<Route>, trip: Trip, weather: string): seq<RouteRecord>
    requires ThreeSegmentRoutes(routes)
  {
    [AnalyzeRoute(0, routes[0], trip, weather, SegmentSpeeds),
     AnalyzeRoute(1, routes[1], trip, weather, SegmentSpeeds),
     AnalyzeRoute(2, routes[2], trip, weather, SegmentSpeeds)]
  }

  /** Predicted at 50, 40 and 20 km/h, such routes take 720, 1080 and 1620
      seconds. The second, which has no summary, is named by its position. */
  lemma ThreeRecordsDurations(routes: seq<Route>, trip: Trip, weather: string)
    requires ThreeSegmentRoutes(routes)
    ensures Durations(ThreeRecords(routes, trip, weather)) == [720.0, 1080.0, 1620.0]
    ensures ThreeRecords(routes, trip, weather)[1].summary == "Route 2"
  {
    var rs := ThreeRecords(routes, trip, weather);
    ThreeRoutesScored();
    SpeedsBySegment(trip.weekday, trip.hour, weather);
    OneRouteRecord(0, routes[0], trip, weather, SegmentNh9, 10000, 50.0, 720.0);
    OneRouteRecord(1, routes[1], trip, weather, SegmentGtRoad, 12000, 40.0, 1080.0);
    OneRouteRecord(2, routes[2], trip, weather, SegmentIndirapuram, 9000, 20.0, 1620.0);
    DurationsOfThree(rs[0], rs[1], rs[2]);
    assert rs == [rs[0], rs[1], rs[2]];
    SecondRouteName();
  }

  /** They are the loop body's records, one per route in order. */
  lemma ThreeRecordsAreBuilt(routes: seq<Route>, trip: Trip, weather: string)
    requires ThreeSegmentRoutes(routes)
    ensures forall i :: 0 <= i < |routes| ==> Scorable(routes[i])
    ensures forall i :: 0 <= i < |routes| ==>
      ThreeRecords(routes, trip, weather)[i] == AnalyzeRoute(i, routes[i], trip, weather, SegmentSpeeds)
  {
    forall i | 0 <= i < |routes|
      ensures Scorable(routes[i])
      ensures ThreeRecords(routes, trip, weather)[i] == AnalyzeRoute(i, routes[i], trip, weather, SegmentSpeeds)
    {
      assert i == 0 || i == 1 || i == 2;
    }
  }

  /** Hence the call answers with those durations and that name whatever the day,
      the hour or the weather it resolves. */
  lemma ThreeRoutesScoredInOrder(routes: seq<Route>, trip: Trip, report: WeatherReport)
    requires ThreeSegmentRoutes(routes)
    requires GetLiveWeather(trip.isFuture, report).Some?
    ensures var r := Analyze(routes, trip, report, SegmentSpeeds);
      && r.Ok?
      && Durations(r.value.routes) == [720.0, 1080.0, 1620.0]
      && r.value.routes[1].summary == "Route 2"
  {
    var weather := GetLiveWeather(trip.isFuture, report).value;
    var rs := ThreeRecords(routes, trip, weather);
    ThreeRecordsDurations(routes, trip, weather);
    ThreeRecordsAreBuilt(routes, trip, weather);
    AnalyzeBuildsRecords(routes, trip, report, SegmentSpeeds, rs);
    RankFlagsFirstFastest(rs);
  }

  /** ... and the first is recommended, while the third, though shortest, is not. */
  lemma ThreeRoutesRankedInOrder(routes: seq<Route>, trip: Trip, report: WeatherReport)
    requires ThreeSegmentRoutes(routes)
    requires GetLiveWeather(trip.isFuture, report).Some?
    ensures var r := Analyze(routes, trip, report, SegmentSpeeds);
      && r.Ok?
      && r.value.routes[0].recommended
      && !r.value.routes[1].recommended && !r.value.routes[2].recommended
  {
    ThreeRoutesScoredInOrder(routes, trip, report);
    AnalyzeRecommendsFirstFastest(routes, trip, report, SegmentSpeeds);
    var ds := Durations(Analyze(routes, trip, report, SegmentSpeeds).value.routes);
    assert IsFirstMinimum(ds, 0);
    assert ds[0] < ds[1] && ds[0] < ds[2];
  }

  /** "Take the NH-9 Expressway north" on a Wednesday at 8 in the rain encodes as
      [2, 8, 0, 0, 1, 0, 0, 0, 0, 1]. */
  lemma HighwayInRainFeatures()
    ensures ClassifyText("Take the NH-9 Expressway north") == SegmentNh9
    ensures ModelFeatures(2, 8, ClassifyText("Take the NH-9 Expressway north"), WeatherCategory("Rain"))
            == [2, 8, 0, 0, 1, 0, 0, 0, 0, 1]
  {
    var t := "Take the NH-9 Expressway north";
    assert t[9..11] == "NH";
    ContainsIff(t, "NH");
    assert OccursAt(t, "NH", 9);
  }

  /** No candidate routes: the call answers "no routes" before anything else. */
  lemma NoRoutesIsReported(trip: Trip, report: WeatherReport, model: seq<int> -> real)
    ensures Analyze([], trip, report, model) == Err(NoRoutes)
  {
  }

  /** A drizzle on a live trip is analysed as rain; a failed weather request as Clear. */
  lemma LiveWeatherExamples()
    ensures GetLiveWeather(false, Fetched("Drizzle")) == Some(Rain)
    ensures GetLiveWeather(false, Fetched("Smoke")) == Some(Haze)
    ensures GetLiveWeather(false, Fetched("Snow")) == Some(Clear)
    ensures GetLiveWeather(false, RequestFailed) == Some(Clear)
    ensures GetLiveWeather(true, Fetched("Thunderstorm")) == Some(Clear)
  {
  }
}
