/** The body of `predict`: weather once per call, then one record per candidate
    route in the provider's order, then the fastest record flagged. The web
    request and response around it are not modelled; the routing provider's
    answer, the weather request's outcome and the trained estimator are inputs. */
module Pipeline {
  import opened Common
  import opened Text
  import opened Directions
  import opened Classifier
  import opened Weather
  import opened Features
  import opened Scoring
  import opened Ranking

  /** `datetime.weekday()`: Monday is 0. */
  type Weekday = d: int | 0 <= d <= 6
  /** `datetime.hour`. */
  type Hour = h: int | 0 <= h <= 23

  /** The departure: the given `departure_time` (a future trip) or now. */
  datatype Trip = Trip(weekday: Weekday, hour: Hour, isFuture: bool)

  /** The two ways `predict` can fail: no routes (the specific 400 answer), or any
      exception escaping the body (the single opaque 500 answer). */
  datatype PredictError = NoRoutes | Unexpected

  /** The successful answer: the records, the weather label used, and the first
      route's start and end. */
  datatype Analysis = Analysis(
    routes: seq<RouteRecord>,
    liveWeather: string,
    startLocation: LatLng,
    endLocation: LatLng)

  /** A route the loop body can score without raising: it has a first leg with a
      distance, and an overview polyline. */
  predicate Scorable(route: Route)
  {
    |route.legs| > 0 && route.legs[0].distance.Some? && route.polyline.Some?
  }

  /** The first route's first leg carries both end points. */
  predicate HasEndpoints(route: Route)
  {
    |route.legs| > 0 && route.legs[0].startLocation.Some? && route.legs[0].endLocation.Some?
  }

  /** The provider's own duration text: the traffic-aware entry when the leg has
      one, else the plain entry, and "N/A" when the chosen entry has no text. */
  function GoogleDurationText(leg: Leg): (text: string)
    ensures leg.durationInTraffic.Some? ==> text == leg.durationInTraffic.value.text.GetOr("N/A")
    ensures leg.durationInTraffic.None? && leg.duration.Some? ==> text == leg.duration.value.text.GetOr("N/A")
    ensures leg.durationInTraffic.None? && leg.duration.None? ==> text == "N/A"
  {
    var entry := leg.durationInTraffic.GetOr(leg.duration.GetOr(DurationEntry(None)));
    entry.text.GetOr("N/A")
  }

  /** The summary shown for the route at 0-based position `i` when the provider
      gives none: "Route " and the 1-based position. */
  function DefaultSummary(i: nat): (s: string)
    ensures |s| > 6 && s[..6] == "Route "
    ensures forall k :: 6 <= k < |s| ==> '0' <= s[k] <= '9'
    ensures s[6] != '0'
  {
    "Route " + DecimalString(i + 1)
  }

  /** The default summary names the route's 1-based position, so distinct
      positions get distinct summaries. */
  lemma DefaultSummaryNamesPosition(i: nat)
    ensures DecimalValue(DefaultSummary(i)[6..]) == i + 1
  {
    assert DefaultSummary(i)[6..] == DecimalString(i + 1);
    DecimalRoundTrip(i + 1);
  }

  /** The estimator's input for one route: the trip's day and hour, the route's
      segment, the call's weather. */
  function RouteFeatures(route: Route, trip: Trip, weather: string): (f: seq<int>)
    requires |route.legs| > 0
    ensures |f| == 10
    ensures f[0] == trip.weekday && f[1] == trip.hour
  {
    ModelFeatures(trip.weekday, trip.hour, ClassifyRoute(route.legs[0]), weather)
  }

  /** The record the loop body appends for the route at position `i`. */
  function AnalyzeRoute(i: nat, route: Route, trip: Trip, weather: string, model: seq<int> -> real): (r: RouteRecord)
    requires Scorable(route)
    ensures !r.recommended
    ensures r.predictedSpeed >= 1.0
    ensures 0.0 <= r.customDurationSec <= route.legs[0].distance.value as real * 3.6
    ensures r.polyline == route.polyline.value
  {
    var leg := route.legs[0];
    var score := ScoreRoute(leg.distance.value, model(RouteFeatures(route, trip, weather)));
    RouteRecord(route.summary.GetOr(DefaultSummary(i)), GoogleDurationText(leg),
                score.durationSec, score.speedKph, route.polyline.value, false)
  }

  /** What `predict` answers, as a function of its inputs. */
  function Analyze(routes: seq<Route>, trip: Trip, report: WeatherReport, model: seq<int> -> real)
    : (r: Result<Analysis, PredictError>)
    ensures r == Err(NoRoutes) <==> |routes| == 0
    ensures r.Ok? ==> |r.value.routes| == |routes|
  {
    if |routes| == 0 then Err(NoRoutes)
    else
      match GetLiveWeather(trip.isFuture, report)
      case None => Err(Unexpected)
      case Some(weather) =>
        if exists i :: 0 <= i < |routes| && !Scorable(routes[i]) then Err(Unexpected)
        else if !HasEndpoints(routes[0]) then Err(Unexpected)
        else
          var records := seq(|routes|, i requires 0 <= i < |routes| => AnalyzeRoute(i, routes[i], trip, weather, model));
          Ok(Analysis(Rank(records).value, weather,
                      routes[0].legs[0].startLocation.value, routes[0].legs[0].endLocation.value))
  }

  /** The clamp and division the loop body writes out compute `ScoreRoute`. */
  lemma InlineScoreIsScoreRoute(distanceM: nat, predictedKph: real, clampedKph: real, durationSec: real)
    requires clampedKph == if predictedKph < 1.0 then 1.0 else predictedKph
    requires durationSec == distanceM as real / 1000.0 / clampedKph * 3600.0
    ensures ScoreRoute(distanceM, predictedKph) == Score(durationSec, clampedKph)
  {
  }

  /** One unscorable route makes the whole call fail: no partial answer. */
  lemma AnalyzeRejectsUnscorable(routes: seq<Route>, trip: Trip, report: WeatherReport, model: seq<int> -> real, i: nat)
    requires i < |routes| && !Scorable(routes[i])
    ensures Analyze(routes, trip, report, model) == Err(Unexpected)
  {
  }

  /** Once every route is scorable, the answer ranks exactly the records the
      loop body builds, one per route in order. */
  lemma AnalyzeBuildsRecords(routes: seq<Route>, trip: Trip, report: WeatherReport, model: seq<int> -> real,
                             records: seq<RouteRecord>)
    requires |routes| > 0 && GetLiveWeather(trip.isFuture, report).Some?
    requires |records| == |routes|
    requires forall i :: 0 <= i < |routes| ==> Scorable(routes[i])
    requires forall i :: 0 <= i < |routes| ==>
      records[i] == AnalyzeRoute(i, routes[i], trip, GetLiveWeather(trip.isFuture, report).value, model)
    ensures Analyze(routes, trip, report, model) ==
      if HasEndpoints(routes[0])
      then Ok(Analysis(Rank(records).value, GetLiveWeather(trip.isFuture, report).value,
                       routes[0].legs[0].startLocation.value, routes[0].legs[0].endLocation.value))
      else Err(Unexpected)
  {
    var weather := GetLiveWeather(trip.isFuture, report).value;
    assert records == seq(|routes|, i requires 0 <= i < |routes| => AnalyzeRoute(i, routes[i], trip, weather, model));
  }

  /** One pass of the loop body in `predict`: take the route's first leg, classify
      it, encode the trip, ask the estimator, clamp the prediction, divide the
      distance by it, and read the summary, duration text and polyline. `None` is
      the `KeyError`/`IndexError` a route without a leg, a distance or a polyline
      raises. */
  method AnalyzeCandidate(i: nat, route: Route, trip: Trip, weather: string, model: seq<int> -> real)
    returns (record: Option<RouteRecord>)
    ensures record.Some? <==> Scorable(route)
    ensures record.Some? ==> record.value == AnalyzeRoute(i, route, trip, weather, model)
  {
    if |route.legs| == 0 {
      return None;
    }
    var leg := route.legs[0];
    var segment := ClassifyRoute(leg);
    var features := ModelFeatures(trip.weekday, trip.hour, segment, weather);
    var speedKph := model(features);
    if leg.distance.None? {
      return None;
    }
    var distanceKm := leg.distance.value as real / 1000.0;
    if speedKph < 1.0 {
      speedKph := 1.0;
    }
    var durationSec := distanceKm / speedKph * 3600.0;
    var text := GoogleDurationText(leg);
    if route.polyline.None? {
      return None;
    }
    InlineScoreIsScoreRoute(leg.distance.value, model(features), speedKph, durationSec);
    return Some(RouteRecord(route.summary.GetOr(DefaultSummary(i)), text,
                            durationSec, speedKph, route.polyline.value, false));
  }

  /** The loop of `predict`: one record per route, in the provider's order. The
      first route that cannot be scored ends the loop with `None`. */
  method AnalyzeCandidates(routes: seq<Route>, trip: Trip, weather: string, model: seq<int> -> real)
    returns (records: Option<seq<RouteRecord>>)
    ensures records.Some? <==> forall i :: 0 <= i < |routes| ==> Scorable(routes[i])
    ensures records.Some? ==> |records.value| == |routes|
    ensures records.Some? ==>
      forall i :: 0 <= i < |routes| ==> records.value[i] == AnalyzeRoute(i, routes[i], trip, weather, model)
  {
    var analysis: seq<RouteRecord> := [];
    for i := 0 to |routes|
      invariant |analysis| == i
      invariant forall j :: 0 <= j < i ==> Scorable(routes[j])
      invariant forall j :: 0 <= j < i ==> analysis[j] == AnalyzeRoute(j, routes[j], trip, weather, model)
    {
      var record := AnalyzeCandidate(i, routes[i], trip, weather, model);
      if record.None? {
        return None;
      }
      analysis := analysis + [record.value];
    }
    return Some(analysis);
  }

  /** `predict`, from the provider's routes on: reject an empty answer, resolve the
      weather once, build one record per route in order (classify, encode, ask the
      estimator, clamp, divide), flag the first fastest, read the end points. */
  method Predict(routes: seq<Route>, trip: Trip, report: WeatherReport, model: seq<int> -> real)
    returns (result: Result<Analysis, PredictError>)
    ensures result == Analyze(routes, trip, report, model)
  {
    if |routes| == 0 {
      return Err(NoRoutes);
    }
    var weatherCondition := GetLiveWeather(trip.isFuture, report);
    if weatherCondition.None? {
      return Err(Unexpected);
    }
    var weather := weatherCondition.value;
    var built := AnalyzeCandidates(routes, trip, weather, model);
    if built.None? {
      return Err(Unexpected);
    }
    AnalyzeBuildsRecords(routes, trip, report, model, built.value);
    var analysis := FlagFastest(built.value);
    var first := routes[0].legs[0];
    if first.startLocation.None? || first.endLocation.None? {
      return Err(Unexpected);
    }
    return Ok(Analysis(analysis, weather, first.startLocation.value, first.endLocation.value));
  }

  /** `predict` fails in exactly two ways. It answers "no routes" exactly when the
      provider returned none; it fails opaquely exactly when the weather response
      lacks its condition on a live trip, some route cannot be scored, or the first
      route lacks its end points. */
  lemma AnalyzeFailsOnlyAsDocumented(routes: seq<Route>, trip: Trip, report: WeatherReport, model: seq<int> -> real)
    ensures Analyze(routes, trip, report, model) == Err(NoRoutes) <==> |routes| == 0
    ensures Analyze(routes, trip, report, model).Err? <==>
      || |routes| == 0
      || (!trip.isFuture && report.MissingMain?)
      || (exists i :: 0 <= i < |routes| && !Scorable(routes[i]))
      || !HasEndpoints(routes[0])
  {
  }

  /** On success there is one record per candidate route, in the provider's order,
      each built from that route alone with the call's single weather label: the
      route's summary or "Route i+1", its polyline, the provider's duration text,
      and the scorer's duration and clamped speed for the estimator's prediction. */
  lemma AnalyzeKeepsRouteOrder(routes: seq<Route>, trip: Trip, report: WeatherReport, model: seq<int> -> real)
    requires Analyze(routes, trip, report, model).Ok?
    ensures var a := Analyze(routes, trip, report, model).value;
      && a.liveWeather == GetLiveWeather(trip.isFuture, report).value
      && |a.routes| == |routes|
      && a.startLocation == routes[0].legs[0].startLocation.value
      && a.endLocation == routes[0].legs[0].endLocation.value
      && forall i :: 0 <= i < |routes| ==>
        && Scorable(routes[i])
        && a.routes[i].summary == routes[i].summary.GetOr(DefaultSummary(i))
        && a.routes[i].polyline == routes[i].polyline.value
        && a.routes[i].googleDurationText == GoogleDurationText(routes[i].legs[0])
        && a.routes[i].predictedSpeed == ClampSpeed(model(RouteFeatures(routes[i], trip, a.liveWeather)))
        && a.routes[i].customDurationSec ==
             ScoreRoute(routes[i].legs[0].distance.value, model(RouteFeatures(routes[i], trip, a.liveWeather))).durationSec
  {
    var weather := GetLiveWeather(trip.isFuture, report).value;
    var records := seq(|routes|, i requires 0 <= i < |routes| => AnalyzeRoute(i, routes[i], trip, weather, model));
    RankFlagsFirstFastest(records);
  }

  /** Two routes' estimator inputs for the same trip and weather agree on the day,
      the hour and the weather block; only the segment block can differ. */
  lemma SameTripSameContext(r1: Route, r2: Route, trip: Trip, weather: string)
    requires |r1.legs| > 0 && |r2.legs| > 0
    ensures RouteFeatures(r1, trip, weather)[..2] == RouteFeatures(r2, trip, weather)[..2]
    ensures RouteFeatures(r1, trip, weather)[5..] == RouteFeatures(r2, trip, weather)[5..]
  {
    var f1 := RouteFeatures(r1, trip, weather);
    var f2 := RouteFeatures(r2, trip, weather);
    assert forall k :: 5 <= k < 10 ==> f1[k] == f2[k];
    assert f1[5..] == f2[5..];
    assert f1[..2] == [trip.weekday, trip.hour] == f2[..2];
  }

  /** One route's estimator input encodes the trip's day and hour, the route's own
      segment and the given weather label. */
  lemma RouteFeaturesEncodeContext(route: Route, trip: Trip, weather: string)
    requires |route.legs| > 0 && IsWeatherLabel(weather)
    ensures var f := RouteFeatures(route, trip, weather);
      && f[0] == trip.weekday && f[1] == trip.hour
      && DecodeSegment(f) == ClassifyRoute(route.legs[0])
      && DecodeWeather(f) == weather
  {
    FeaturesRoundTrip(trip.weekday, trip.hour, ClassifyRoute(route.legs[0]), weather);
  }

  /** On success every route's estimator input carries the same day, hour and
      weather block: the weather is resolved once per call and the day and hour
      come from the one departure time. Only the segment block differs, and it
      encodes the route's own classification. */
  lemma AnalyzeSharesTripContext(routes: seq<Route>, trip: Trip, report: WeatherReport, model: seq<int> -> real)
    requires Analyze(routes, trip, report, model).Ok?
    ensures var w := Analyze(routes, trip, report, model).value.liveWeather;
      && IsWeatherLabel(w)
      && (forall i :: 0 <= i < |routes| ==>
            |routes[i].legs| > 0
            && RouteFeatures(routes[i], trip, w)[0] == trip.weekday
            && RouteFeatures(routes[i], trip, w)[1] == trip.hour
            && DecodeSegment(RouteFeatures(routes[i], trip, w)) == ClassifyRoute(routes[i].legs[0])
            && DecodeWeather(RouteFeatures(routes[i], trip, w)) == w)
      && (forall i, j :: 0 <= i < |routes| && 0 <= j < |routes| ==>
            RouteFeatures(routes[i], trip, w)[..2] == RouteFeatures(routes[j], trip, w)[..2] &&
            RouteFeatures(routes[i], trip, w)[5..] == RouteFeatures(routes[j], trip, w)[5..])
  {
    var w := GetLiveWeather(trip.isFuture, report).value;
    assert forall i :: 0 <= i < |routes| ==> Scorable(routes[i]);
    forall i | 0 <= i < |routes| {
      RouteFeaturesEncodeContext(routes[i], trip, w);
    }
    forall i, j | 0 <= i < |routes| && 0 <= j < |routes| {
      SameTripSameContext(routes[i], routes[j], trip, w);
    }
  }

  /** On success exactly one record is flagged, and it is the first record of
      least custom duration. */
  lemma AnalyzeRecommendsFirstFastest(routes: seq<Route>, trip: Trip, report: WeatherReport, model: seq<int> -> real)
    requires Analyze(routes, trip, report, model).Ok?
    ensures var rs := Analyze(routes, trip, report, model).value.routes;
      && (forall j :: 0 <= j < |rs| ==> (rs[j].recommended <==> IsFirstMinimum(Durations(rs), j)))
      && |RecommendedIndices(rs)| == 1
  {
    var weather := GetLiveWeather(trip.isFuture, report).value;
    var records := seq(|routes|, i requires 0 <= i < |routes| => AnalyzeRoute(i, routes[i], trip, weather, model));
    RankFlagsFirstFastest(records);
  }

  /** A trip with a departure time is analysed with Clear weather, whatever the
      weather service would have said: its answer does not depend on the report. */
  lemma FutureTripIgnoresWeatherService(routes: seq<Route>, trip: Trip, r1: WeatherReport, r2: WeatherReport,
                                        model: seq<int> -> real)
    requires trip.isFuture
    ensures Analyze(routes, trip, r1, model) == Analyze(routes, trip, r2, model)
    ensures Analyze(routes, trip, r1, model).Ok? ==> Analyze(routes, trip, r1, model).value.liveWeather == Clear
  {
  }
}
