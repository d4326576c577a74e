# Route scoring and recommendation

A Dafny model of the decision logic inside `predict` in `app.py`, the web service
that estimates travel time over the routing provider's candidate routes and
recommends the fastest one. The model covers the following steps:

- **Segment classification** (`classify_route`). A route leg's turn-by-turn
  instructions are joined with one space and searched for "NH"/"Expressway"
  first, then "GT Rd"/"Grand Trunk". Any missing field gives the Indirapuram
  segment.
- **Weather label** (`get_live_weather`). A future trip is Clear. Otherwise the
  provider's condition string goes through the five-category table, and a failed
  request is Clear.
- **Estimator input** (`model_features`). Weekday, hour, three segment indicators
  and five weather indicators.
- **Scoring.** The prediction is clamped to at least 1 km/h, and the duration is
  `distance_m / 1000 / speed * 3600`.
- **The loop.** It builds one record per candidate route in the provider's order.
  A missing `summary` becomes "Route i+1". Google's duration text falls back from
  the traffic-aware entry to the plain one, then to "N/A".
- **The argmin.** Python's `min` takes the first index of least custom duration,
  and that record gets its `recommended` flag set.
- **Failures.** An empty route list is rejected before any of this. Any exception
  escaping the body becomes the single opaque failure.

Modules:

- `Common`: `Option` and `Result`.
- `Text`: Python's substring test, `" ".join` and `str(n)`.
- `Directions`: the routing provider's answer as datatypes. A missing key is `None`.
- `Classifier`: `classify_route`.
- `Weather`: the pure part of `get_live_weather`. The request's outcome is a
  `WeatherReport` input.
- `Features`: the ten-entry estimator input and its schema.
- `Scoring`: the clamp and the duration.
- `Ranking`: the records, the argmin and the flag.
- `Pipeline`: the whole of `predict` from the provider's routes on. The function
  `Analyze` specifies it. The methods `AnalyzeCandidate` (the loop body),
  `AnalyzeCandidates` (the loop) and `Predict` carry out its steps, and each is
  proved to compute what `Analyze` says.
- `Scenarios`: worked examples on concrete inputs.

The trained estimator is a parameter `model: seq<int> -> real`. Weekday (0-6) and
hour (0-23) are inputs, as is whether a departure time was given.

Not every weather failure degrades to Clear. `get_live_weather` catches only
`requests.exceptions.RequestException` (app.py:48). A response without
`weather[0].main` raises `KeyError` or `IndexError` at app.py:36, and that
reaches the catch-all of `predict` at app.py:144. In the model,
`WeatherReport.MissingMain` makes `GetLiveWeather` answer `None`, and the whole
call then fails with `Unexpected`.

## Model

| member | source | states |
|---|---|---|
| Text.Contains | app.py:56-58 | Python's `pat in text`: the empty pattern is always found, and a found pattern is no longer than the text; `ContainsIff` ties it to the window definition. |
| Text.ContainsIff | app.py:56-58 | The left-to-right substring search used for `pat in text` succeeds exactly when some window of the text equals the pattern. |
| Text.MissingFirstCharacter | app.py:56-58 | A text that never contains the pattern's first character does not contain the pattern. |
| Text.ContainsInfix | app.py:56-58 | A match in a piece of text is still a match once text is added on either side. |
| Text.Join | app.py:55 | `sep.join(parts)`: every part fits inside the joined text; `JoinSplit` and `JoinContainsPart` give its structure. |
| Text.JoinSplit | app.py:55 | Cutting the parts at any inner position cuts `sep.join(parts)` at a separator. |
| Text.JoinContainsAdjacent | app.py:55 | A match inside two neighbouring parts with the separator between them is a match in the joined text. |
| Text.JoinContainsPart | app.py:55 | A match inside any single part is a match in the joined text. |
| Text.DecimalString | app.py:124 | `str(n)` is nonempty and all decimal digits. It is one digit exactly for n below 10, and a longer one never starts with '0'. |
| Text.DecimalRoundTrip | app.py:124 | Reading the digits of `str(n)` back gives `n`. |
| Classifier.ClassifyText | app.py:56-61 | The result is a known segment id. It is NH9 iff the text names the highway. It is GT road iff the text does not name the highway but names the GT road. It is Indirapuram iff the text names neither. |
| Classifier.Instructions | app.py:55 | The instructions list exists iff every step has `html_instructions`, and then it holds them in step order. |
| Classifier.ClassifyRoute | app.py:52-63 | The classifier never fails and always gives a known id. A leg without `steps`, or with a step lacking instructions, is Indirapuram. Otherwise it classifies the space-joined instructions. |
| Classifier.OneStepLeg | app.py:54-55 | A leg of one step is classified by that step's text alone. |
| Classifier.StepNamingHighwayWins | app.py:55-57 | One step naming "NH" or "Expressway" makes the leg NH9, whatever the other steps say. |
| Classifier.StepNamingGtRoadWins | app.py:55-59 | One step naming the GT road makes the leg GT road unless the joined text names the highway. |
| Classifier.MatchSpansTwoSteps | app.py:55-59 | Steps "GT" and "Rd" each name nothing, yet their join "GT Rd" makes the leg GT road. |
| Weather.WeatherCategory | app.py:38-47 | The result is always one of the five labels, and each label's set of condition strings is given exactly: Rain/Drizzle/Thunderstorm, Mist/Haze/Smoke, Fog, Clouds, and everything else for Clear. |
| Weather.GetLiveWeather | app.py:24-49 | A future trip is Clear. A live condition string goes through the table, and a failed request is Clear. The result is missing exactly when a live response lacks its condition. Any result is one of the five labels. |
| Features.ModelFeatures | app.py:107-111 | The vector has 10 entries: weekday, hour, then each indicator is 1 exactly when the segment id or weather label equals the schema name at that position. |
| Features.OneHotBlocks | app.py:107-111 | Every indicator is 0 or 1. The segment block has exactly one 1 for a known segment id and none otherwise; the weather block likewise for a known weather label. |
| Features.FeaturesRoundTrip | app.py:107-111 | Day, hour, segment id and weather label are recovered from the vector: the encoding loses nothing. |
| Scoring.ClampSpeed | app.py:115 | The clamped speed is at least 1. It equals the prediction when that is at least 1, and is 1 otherwise. |
| Scoring.ScoreRoute | app.py:114-127 | The reported speed is the clamped one. Duration times speed gives back `distance_m * 3.6`. The duration lies between 0 and `distance_m * 3.6`, and is positive for a positive distance. |
| Scoring.UnclampedWhenFastEnough | app.py:114-117 | For a prediction of at least 1 the duration is the unclamped formula. |
| Scoring.DegeneratePredictionsAgree | app.py:115-117 | All predictions at or below 1 km/h give the same score, whose duration is that of 1 km/h. |
| Scoring.FasterIsNeverLonger | app.py:114-117 | Over one distance, a faster prediction never gives a longer duration. |
| Scoring.LongerIsNeverShorter | app.py:114-117 | At one prediction, a longer leg never gives a shorter duration. |
| Ranking.Durations | app.py:131 | The key `min` compares: one custom duration per record, in record order. |
| Ranking.FirstMinIndex | app.py:131 | `min(range(n), key=duration)` is an index of least duration, and every earlier index has a strictly greater one. |
| Ranking.FirstMinimumIsUnique | app.py:131 | Only one index is the first minimum, and it is the one `min` returns. |
| Ranking.Recommend | app.py:132 | Flagging sets the chosen record's flag and leaves every other record as it was. |
| Ranking.Rank | app.py:131-132 | Ranking fails (as `min` raises) exactly on an empty list; otherwise it keeps the length. |
| Ranking.FlagFastest | app.py:131-132 | The argmin and the flag, as a method over the records, produce what `Rank` specifies. |
| Ranking.RankFlagsFirstFastest | app.py:131-132 | Over unflagged records, exactly one record is flagged: the first of least duration. No other field of any record changes, and durations are kept. |
| Ranking.RecommendedIsFastest | app.py:131-132 | The flagged record is at least as fast as every record, and every record before it is strictly slower. |
| Pipeline.GoogleDurationText | app.py:120-121 | The text comes from the traffic entry when present, else the plain duration entry, and is "N/A" when the chosen entry has no text or neither entry exists. |
| Pipeline.DefaultSummary | app.py:124 | The default summary is "Route " followed by decimal digits, the first of which is not '0'. |
| Pipeline.DefaultSummaryNamesPosition | app.py:124 | The digits of the default summary for position `i` read back as `i + 1`. |
| Pipeline.RouteFeatures | app.py:100-111 | A route's estimator input has 10 entries and starts with the trip's weekday and hour. |
| Pipeline.AnalyzeRoute | app.py:100-129 | The record built for one route is unflagged, carries the route's polyline, a speed of at least 1 and a duration between 0 and `distance_m * 3.6`. |
| Pipeline.Analyze | app.py:93-135 | The specification of `predict`: "no routes" exactly for an empty list, and on success one record per route. The lemmas below prove the rest. |
| Pipeline.InlineScoreIsScoreRoute | app.py:114-117 | The clamp and division written out in the loop compute `ScoreRoute`. |
| Pipeline.AnalyzeRejectsUnscorable | app.py:99-129 | One route without a first leg, a distance or a polyline makes the whole call fail opaquely, with no partial answer. |
| Pipeline.AnalyzeBuildsRecords | app.py:98-135 | Once every route is scorable, the answer ranks exactly the records the loop body builds and reads the first route's end points. |
| Pipeline.AnalyzeCandidate | app.py:99-129 | The loop body produces a record exactly when the route is scorable, and that record is the one the specification builds for that position. |
| Pipeline.AnalyzeCandidates | app.py:98-129 | The loop succeeds exactly when every route is scorable. It then yields one record per route, in order, each built from that route and its position. |
| Pipeline.Predict | app.py:93-135 | The imperative `predict` (reject empty, resolve weather once, loop, argmin and flag, read end points) answers exactly what `Analyze` specifies. |
| Pipeline.AnalyzeFailsOnlyAsDocumented | app.py:93-146 | "No routes" is answered exactly for an empty list. With an estimator that does not raise, the call fails exactly when the list is empty, a live weather response lacks its condition, a route cannot be scored, or the first route lacks its end points. |
| Pipeline.AnalyzeKeepsRouteOrder | app.py:98-135 | On success there is one record per route in the provider's order. Each carries its route's summary (or "Route i+1"), polyline, provider duration text, and the clamped speed and duration for the estimator's prediction on that route. The weather and end points are reported. |
| Pipeline.SameTripSameContext | app.py:96-111 | Two routes' estimator inputs for one trip and weather agree on day, hour and the weather block. |
| Pipeline.RouteFeaturesEncodeContext | app.py:101-111 | A route's estimator input encodes the trip's day and hour, the route's own segment and the weather label. |
| Pipeline.AnalyzeSharesTripContext | app.py:96-111 | On success every route's input carries the one resolved weather label, the trip's day and hour and its own segment. Any two routes' inputs differ only in the segment block. |
| Pipeline.AnalyzeRecommendsFirstFastest | app.py:131-132 | On success exactly one record is flagged, and it is the first of least custom duration. |
| Pipeline.FutureTripIgnoresWeatherService | app.py:24-96 | A trip with a departure time gets the same answer whatever the weather service reports, and it is analysed as Clear. |
| Scenarios.GtRdIsGtRoad | app.py:56-59 | The text "GT Rd" classifies as the GT road. |
| Scenarios.ThreeRoutesClassified | app.py:52-63 | One-step legs reading "NH", "GT Rd" and "Indirapuram" classify as NH9, GT road and Indirapuram. |
| Scenarios.ThreeRoutesQualify | app.py:98-129 | The three concrete routes are scorable, lie on those segments and have the stated distances. |
| Scenarios.ThreeRecordsDurations | app.py:114-124 | At 50, 40 and 20 km/h, legs of 10, 12 and 9 km give records of 720, 1080 and 1620 s, and the second is named "Route 2". |
| Scenarios.ThreeRoutesScoredInOrder | app.py:93-135 | Such routes are answered with durations [720, 1080, 1620] on any day, hour and resolved weather, and the summary-less second route is "Route 2". |
| Scenarios.ThreeRoutesRankedInOrder | app.py:131-132 | ... and only the first route is recommended, not the shortest one. |
| Scenarios.HighwayInRainFeatures | app.py:107-111 | "Take the NH-9 Expressway north" is NH9, and on weekday 2 at 8 in the rain it encodes as [2, 8, 0, 0, 1, 0, 0, 0, 0, 1]. |
| Scenarios.NoRoutesIsReported | app.py:93 | With no candidate routes the call answers "no routes", whatever the weather or the estimator. |
| Scenarios.LiveWeatherExamples | app.py:24-49 | Drizzle is Rain, Smoke is Haze, Snow is Clear, a failed request is Clear, and a future trip is Clear even in a thunderstorm. |

## Left out

- The Flask application, `render_template`, `request.get_json`, `jsonify` and the HTTP status codes (app.py:3-11, 68-78, 137-146). The two failures are `PredictError.NoRoutes` (the 400 answer) and `PredictError.Unexpected` (the 500 answer). The exception message in the 500 answer is not modelled.
- The `googlemaps` client and `gmaps.directions` (app.py:18, 91-92). Its answer is the input `routes`, a sequence. A `None` answer, which is also falsy at app.py:93, is not representable.
- The OpenWeatherMap request and JSON parsing (app.py:30-37). The outcome is the input `WeatherReport`: a condition string, a request failure, or a response lacking the condition.
- `joblib.load` and `model.predict` (app.py:15, 112). The estimator is an arbitrary total function parameter, and nothing is assumed about the value it returns.
- An exception raised by the estimator at app.py:112 is not modelled. In the source it reaches the catch-all at app.py:144-146 and the call fails opaquely. The model's estimator always returns a value, so `Pipeline.AnalyzeFailsOnlyAsDocumented` lists the failure causes only for an estimator that does not raise.
- `datetime.fromisoformat` and `datetime.now` (app.py:83-88). The weekday, the hour and the future-trip flag are inputs. An unparseable departure time is not modelled.
- Pipeline.AnalyzeCandidate: the reported `predicted_speed` is the clamped speed itself; `round(…, 2)` at app.py:127 is not modelled.
- Pipeline.AnalyzeRoute: speeds and durations are real numbers, not IEEE doubles, so rounding, infinities and NaN from the estimator are not modelled.
- Values of the wrong type in the provider's answer are not modelled: a non-string instruction, which makes `" ".join` raise `TypeError` outside the classifier's `except`, or a non-numeric distance. The datatypes admit only well-typed values. A missing key is modelled throughout.
- The print logging (app.py:14-19, 27, 37, 145).
- `generate_data_v3.py` and `generate data.py`: offline random training-data generation, not part of the scoring path.
