/** The pure part of `get_live_weather`: the future-trip short cut and the table
    from the provider's condition string to the five categories the estimator knows. */
module Weather {
  import opened Common

  const Clear: string := "Clear"
  const Clouds: string := "Clouds"
  const Fog: string := "Fog"
  const Haze: string := "Haze"
  const Rain: string := "Rain"

  predicate IsWeatherLabel(w: string)
  {
    w == Clear || w == Clouds || w == Fog || w == Haze || w == Rain
  }

  /** What the weather request produced: the `weather[0].main` condition string,
      a request failure (`requests.exceptions.RequestException`), or a response
      lacking `weather[0].main` (a `KeyError`/`IndexError`, which is NOT caught). */
  datatype WeatherReport = Fetched(main: string) | RequestFailed | MissingMain

  /** The condition-to-category table. Every provider string lands in one of the
      five categories; each category has exactly the preimage listed here. */
  function WeatherCategory(main: string): (w: string)
    ensures IsWeatherLabel(w)
    ensures w == Rain <==> main in ["Rain", "Drizzle", "Thunderstorm"]
    ensures w == Haze <==> main in ["Mist", "Haze", "Smoke"]
    ensures w == Fog <==> main == "Fog"
    ensures w == Clouds <==> main == "Clouds"
    ensures w == Clear <==> main !in ["Rain", "Drizzle", "Thunderstorm", "Mist", "Haze", "Smoke", "Fog", "Clouds"]
  {
    if main in ["Rain", "Drizzle", "Thunderstorm"] then Rain
    else if main in ["Mist", "Haze", "Smoke"] then Haze
    else if main == "Fog" then Fog
    else if main == "Clouds" then Clouds
    else Clear
  }

  /** `get_live_weather(is_future)`. A future trip is Clear without any request; a
      failed request is Clear; a response without a condition makes the call raise
      (`None`); otherwise the condition goes through the table. */
  function GetLiveWeather(isFuture: bool, report: WeatherReport): (w: Option<string>)
    ensures w.Some? ==> IsWeatherLabel(w.value)
    ensures isFuture ==> w == Some(Clear)
    ensures !isFuture && report.Fetched? ==> w == Some(WeatherCategory(report.main))
    ensures !isFuture && report.RequestFailed? ==> w == Some(Clear)
    ensures w.None? <==> !isFuture && report.MissingMain?
  {
    if isFuture then Some(Clear)
    else
      match report
      case Fetched(main) => Some(WeatherCategory(main))
      case RequestFailed => Some(Clear)
      case MissingMain => None
  }
}
