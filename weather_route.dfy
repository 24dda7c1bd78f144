/** `GET /api/weather`: the current-weather proxy. Its API key is read from the
    environment with no fallback, so an unset key is a hard 500. */
module WeatherRoute {
  import opened Http

  const KeyNotConfigured := "API key not configured"
  const WeatherFailure := "Failed to fetch weather data"

  /** The provider URL the handler fetches; the city is interpolated as received,
      without percent-encoding. */
  function WeatherUrl(city: string, key: string): string
  {
    WeatherBase + city + "&units=metric&appid=" + key
  }

  const WeatherBase := "https://api.openweathermap.org/data/2.5/weather?q="

  /** The handler, given the `city` query parameter, the `OPENWEATHER_API_KEY`
      environment value and what the provider would answer. The checks run in
      source order: city, then key, then the upstream reply. */
  function Get(city: Option<string>, apiKey: Option<string>, upstream: Outcome): (r: Exchange)
    // a missing or empty city is a 400, before anything else and without a fetch
    ensures !Given(city) ==> r == Exchange(None, Response(400, ErrorBody(CityRequired)))
    // an unset or empty key is a 500, without a fetch
    ensures Given(city) && !Given(apiKey) ==> r == Exchange(None, Response(500, ErrorBody(KeyNotConfigured)))
    // exactly one fetch, to the provider's current-weather resource, once both checks pass
    ensures r.request.Some? <==> Given(city) && Given(apiKey)
    ensures r.request.Some? ==> r.request.value == WeatherUrl(city.value, apiKey.value)
    // the upstream status is never propagated
    ensures r.response.status in {200, 400, 404, 500}
    ensures r.request.Some? && upstream.Reply? && upstream.status == 404 ==>
              r.response == Response(404, ErrorBody(CityNotFound))
    ensures r.response.status == 200 <==>
              r.request.Some? && upstream.Reply? && IsOk(upstream.status) && upstream.body.Parsed?
    ensures r.response.status == 200 ==> r.response.body == PassThrough(upstream.body.json)
    ensures r.request.Some? && r.response.status == 500 ==> r.response.body == ErrorBody(WeatherFailure)
    ensures r.request.Some? && (upstream.Fault? || (upstream.status != 404 && !IsOk(upstream.status)) ||
                                (IsOk(upstream.status) && upstream.body.Unparsable?)) ==>
              r.response == Response(500, ErrorBody(WeatherFailure))
  {
    if !Given(city) then
      Exchange(None, Response(400, ErrorBody(CityRequired)))
    else if !Given(apiKey) then
      Exchange(None, Response(500, ErrorBody(KeyNotConfigured)))
    else
      Exchange(Some(WeatherUrl(city.value, apiKey.value)), Relay(upstream, WeatherFailure))
  }

  /** Scenario: London, answered with 200 and a document, is passed through unchanged. */
  lemma LondonPassesThrough(key: string, doc: Json)
    requires key != ""
    ensures Get(Some("London"), Some(key), Reply(200, Parsed(doc))).response == Response(200, PassThrough(doc))
  {
  }

  /** Scenario: an unknown city answered with 404 gives "City not found". */
  lemma UnknownCityIsNotFound(key: string, body: Decoded)
    requires key != ""
    ensures Get(Some("Nonexistentville123"), Some(key), Reply(404, body)).response
            == Response(404, ErrorBody(CityNotFound))
  {
  }
}
