/** `GET /api/forecast`: the 5-day/3-hour forecast proxy. Its API key falls back to
    a constant written in the source when the environment value is unset or empty,
    so it has no "API key not configured" branch. */
module ForecastRoute {
  import opened Http

  const FallbackKey := "62f26e04d8e08b535201a0a6abe06176"
  const ForecastFailure := "Failed to fetch forecast data"
  const ForecastBase := "https://api.openweathermap.org/data/2.5/forecast?q="

  /** `process.env.OPENWEATHER_API_KEY || FallbackKey`, evaluated once when the module loads. */
  function ResolveKey(env: Option<string>): (k: string)
    ensures k != ""
    ensures Given(env) ==> k == env.value
    ensures !Given(env) ==> k == FallbackKey
  {
    if Given(env) then env.value else FallbackKey
  }

  function ForecastUrl(city: string, key: string): string
  {
    ForecastBase + city + "&units=metric&appid=" + key
  }

  /** The handler, given the `city` query parameter, the environment value the key
      was resolved from and what the provider would answer. */
  function Get(city: Option<string>, env: Option<string>, upstream: Outcome): (r: Exchange)
    ensures !Given(city) ==> r == Exchange(None, Response(400, ErrorBody(CityRequired)))
    // whatever the environment holds, a given city is always forwarded
    ensures r.request.Some? <==> Given(city)
    ensures r.request.Some? ==> r.request.value == ForecastUrl(city.value, ResolveKey(env))
    ensures r.response.status in {200, 400, 404, 500}
    ensures r.response.status == 400 <==> !Given(city)
    // the 500 of this handler is always the upstream failure, never a key error
    ensures r.response.status == 500 ==> r.response.body == ErrorBody(ForecastFailure)
    ensures Given(city) && upstream.Reply? && upstream.status == 404 ==>
              r.response == Response(404, ErrorBody(CityNotFound))
    ensures r.response.status == 200 <==>
              Given(city) && upstream.Reply? && IsOk(upstream.status) && upstream.body.Parsed?
    ensures r.response.status == 200 ==> r.response.body == PassThrough(upstream.body.json)
    ensures Given(city) && (upstream.Fault? || (upstream.status != 404 && !IsOk(upstream.status)) ||
                                (IsOk(upstream.status) && upstream.body.Unparsable?)) ==>
              r.response == Response(500, ErrorBody(ForecastFailure))
  {
    if !Given(city) then
      Exchange(None, Response(400, ErrorBody(CityRequired)))
    else
      Exchange(Some(ForecastUrl(city.value, ResolveKey(env))), Relay(upstream, ForecastFailure))
  }

  /** With the environment key unset the handler still calls the provider, with the fallback key. */
  lemma UnsetKeyUsesFallback(city: string, upstream: Outcome)
    requires city != ""
    ensures Get(Some(city), None, upstream).request == Some(ForecastUrl(city, FallbackKey))
    ensures Get(Some(city), None, upstream).response.body != ErrorBody("API key not configured")
  {
  }
}
