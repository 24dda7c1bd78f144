# Modern Weather: a Dafny model of its stateful and decision logic

Modern Weather is a Next.js app. A user enters a city. Two server routes, `/api/weather` and
`/api/forecast`, forward the city to OpenWeather, and a React context keeps the UI state in a
reducer. This project models the parts of the app whose behaviour can be stated:

- **The weather store** (`weather_context.dfy`, module `WeatherContext`). The six-field UI state
  is a datatype. The eight reducer actions are a datatype, and `weatherReducer` is the total
  function `Reduce`. The favourites list behaves as an ordered, duplicate-free set:
  `ADD_FAVORITE_CITY` adds a city only if it is absent, and `REMOVE_FAVORITE_CITY` filters it out.
  The React store is the class `WeatherStore`. It has the current `state` and a ghost log of every
  dispatched action, and its invariant says the state is the log folded over `initialState`.
  `fetchWeather` is a method that dispatches a fixed sequence of actions for each upstream
  outcome: key missing, 404, other failure, transport or decode fault, or success. The `forEach`
  that replays stored favourites is a loop over `ADD_FAVORITE_CITY`.
- **The two proxy routes** (`weather_route.dfy`, `forecast_route.dfy`, with shared types in
  `http.dfy`). Each handler is a pure function of the `city` query parameter, the environment's
  API key and the provider's answer (`Outcome`). It returns the upstream URL it would fetch, if
  any, together with its status and JSON body.
  - The weather route answers 500 "API key not configured" when the key is unset or empty.
  - The forecast route falls back to a constant key, so it never reports a missing key.
  - Both routes interpolate the city into the URL without percent-encoding it.
- **`getWeatherEmoji`** (`weather_card.dfy`): a map of the 18 OpenWeather icon codes with a
  fallback. The emoji are written as Unicode code points. They are the emoji that the table's
  UTF-8 text decodes to, not the characters that text shows when its bytes are read as Windows-1252.
- **`capitalizeFirst`** (`utils.dfy`), over `seq<char>`, with ASCII upper-casing.

The provider's answer is `Reply(status, body)` or `Fault(cause)`. Here `body` is
`Parsed(json)` or `Unparsable(cause)`, which models what `response.json()` does. `response.ok` is
a status from 200 to 299. JSON documents are opaque (`Json`) and are passed through unchanged.

## Model

| member | source | states |
|---|---|---|
| `Http.Relay` | modern-weather/src/app/api/weather/route.ts:23-46 | an upstream 404 gives 404 "City not found"; an ok reply whose body decodes gives 200 with that body unchanged; every other reply, a decode failure and a thrown fault give 500 with the route's failure message; no other status is possible |
| `WeatherRoute.Get` | modern-weather/src/app/api/weather/route.ts:5-47 | a missing or empty city gives 400 "City parameter is required" without a fetch, even when the key is also missing; with a city, an unset or empty key gives 500 "API key not configured" without a fetch; the handler fetches exactly when both are given; then a 404 gives 404 "City not found", an ok decoded reply is passed through with 200, and any other status, a thrown fault or an ok reply whose body does not decode gives 500 "Failed to fetch weather data"; the upstream status is never propagated |
| `WeatherRoute.LondonPassesThrough` | modern-weather/src/app/api/weather/route.ts:38-39 | London answered with 200 and a document returns 200 with that same document |
| `WeatherRoute.UnknownCityIsNotFound` | modern-weather/src/app/api/weather/route.ts:28-34 | an unknown city answered with 404 returns 404 "City not found" |
| `ForecastRoute.ResolveKey` | modern-weather/src/app/api/forecast/route.ts:3 | the key is never empty: it is the environment value when that is set and non-empty, and the constant fallback otherwise |
| `ForecastRoute.Get` | modern-weather/src/app/api/forecast/route.ts:5-40 | a missing or empty city gives 400 without a fetch; any given city is fetched with the resolved key; 400 happens exactly when the city is missing; every 500 carries "Failed to fetch forecast data", so this route never reports a missing key; a 404 gives "City not found"; an ok decoded reply is passed through unchanged; any other status, a thrown fault or an ok reply whose body does not decode gives 500 |
| `ForecastRoute.UnsetKeyUsesFallback` | modern-weather/src/app/api/forecast/route.ts:3-19 | with the environment key unset, a given city is still fetched, using the fallback key, and the response is never "API key not configured" |
| `WeatherCard.WeatherEmoji` | modern-weather/src/components/weather/weather-card.tsx:9-31 | a listed code returns its table entry, any other code returns the fallback, and the result is never empty |
| `WeatherCard.TableEntries` | modern-weather/src/components/weather/weather-card.tsx:10-30 | the individual entries of the table, and the fallback for codes that are empty, truncated or differently cased |
| `WeatherCard.CloudCodesAgree` | modern-weather/src/components/weather/weather-card.tsx:14-18 | 02n, 03d, 03n, 04d and 04n all give the same cloud |
| `WeatherCard.DayNightAgree` | modern-weather/src/components/weather/weather-card.tsx:19-28 | the day and night codes of 09, 11, 13 and 50 give the same value |
| `WeatherCard.DayNightDiffer` | modern-weather/src/components/weather/weather-card.tsx:11-22 | 01d and 01n differ, and so do 10d and 10n |
| `Utils.ToUpper` | modern-weather/src/lib/utils.ts:17 | ASCII lower-case letters move to upper case, every other character is unchanged, and the result is never an ASCII lower-case letter |
| `Utils.CapitalizeFirst` | modern-weather/src/lib/utils.ts:16-18 | `""` gives `""`; the length is kept; the first character is upper-cased; every character from index 1 on is unchanged |
| `Utils.CapitalizeFirstIdempotent` | modern-weather/src/lib/utils.ts:17 | applying the function twice is the same as applying it once |
| `WeatherContext.InitialStateIsEmpty` | modern-weather/src/contexts/WeatherContext.tsx:28-35 | the initial state has no weather and no error, is not loading, has an empty last city and no favourites, and uses Celsius |
| `WeatherContext.Without` | modern-weather/src/contexts/WeatherContext.tsx:56 | the filtered list lacks the city and keeps every other city present; it is unchanged when the city was absent; it stays duplicate-free |
| `WeatherContext.WithoutKeepsOthers` | modern-weather/src/contexts/WeatherContext.tsx:56 | the filter keeps every other element as often as it occurs and in its original relative order (a subsequence), dropping all copies of the city |
| `WeatherContext.Reduce` | modern-weather/src/contexts/WeatherContext.tsx:38-65 | for each field, only the named actions can change it. SET_LOADING sets only the loading flag. SET_WEATHER sets the weather and clears the error. SET_ERROR sets the error and always clears the weather, even for a null error. ADD returns the identical state for a present city and appends an absent one. REMOVE drops every copy while keeping order, and leaves the list equal when the city is absent. CLEAR nulls weather and error. Every action keeps the favourites duplicate-free |
| `WeatherContext.FavoriteActionsIdempotent` | modern-weather/src/contexts/WeatherContext.tsx:48-57 | dispatching ADD_FAVORITE_CITY, or REMOVE_FAVORITE_CITY, twice equals dispatching it once |
| `WeatherContext.ReduceAll` | modern-weather/src/contexts/WeatherContext.tsx:85 | dispatching any sequence of actions keeps the favourites duplicate-free; without an add or remove the favourites are unchanged; without SET_TEMPERATURE_UNIT the unit is unchanged |
| `WeatherContext.Toggle` | modern-weather/src/contexts/WeatherContext.tsx:179-185 | flips the city's membership in the favourites, leaves every other city's membership and every other field unchanged, and keeps the list duplicate-free |
| `WeatherContext.ToggleTwice` | modern-weather/src/contexts/WeatherContext.tsx:179-185 | on a duplicate-free list, toggling twice restores the same cities. The list is identical when the city was absent. When it was present, the city moves to the end |
| `WeatherContext.FetchThrown` | modern-weather/src/contexts/WeatherContext.tsx:129-150 | the `try` block throws exactly when the key is missing, the call itself throws, the reply is not ok, or its ok body does not decode |
| `WeatherContext.FetchActions` | modern-weather/src/contexts/WeatherContext.tsx:125-159 | the dispatch sequence starts with loading on and error cleared, ends with loading off, has five actions on success and four otherwise, and never touches favourites or unit |
| `WeatherContext.FetchOutcome` | modern-weather/src/contexts/WeatherContext.tsx:125-159 | after a fetch, loading is off and favourites and unit are unchanged. On success the weather is the body, the error is null and the last city is the searched one. Otherwise the weather is null, an error is set and the last city is unchanged. The error is "Weather API key not configured" without a key, "City not found" on 404, "Failed to fetch weather data" on another non-ok status, and on a fault or decode failure the thrown `Error`'s own message, or "An error occurred" for any other thrown value |
| `WeatherContext.ReplayFavorites` | modern-weather/src/contexts/WeatherContext.tsx:96-101 | replaying stored favourites as one ADD_FAVORITE_CITY per city, in order, keeps the existing list as a prefix, adds exactly the stored cities, keeps the list duplicate-free and changes no other field |
| `WeatherContext.WeatherStore.constructor` | modern-weather/src/contexts/WeatherContext.tsx:85 | the store starts in the initial state, with nothing dispatched |
| `WeatherContext.WeatherStore.Dispatch` | modern-weather/src/contexts/WeatherContext.tsx:85 | dispatch applies the reducer, logs the action, and keeps the state equal to the fold of the log, with duplicate-free favourites |
| `WeatherContext.WeatherStore.FetchWeather` | modern-weather/src/contexts/WeatherContext.tsx:125-159 | dispatches exactly the fetch's action sequence and leaves the fetch's outcome state |
| `WeatherContext.WeatherStore.Attempt` | modern-weather/src/contexts/WeatherContext.tsx:129-150 | the `try` block dispatches the weather and then the city on success, and otherwise dispatches nothing and returns what it throws |
| `WeatherContext.WeatherStore.AddFavorite` | modern-weather/src/contexts/WeatherContext.tsx:171-173 | one ADD_FAVORITE_CITY dispatch |
| `WeatherContext.WeatherStore.RemoveFavorite` | modern-weather/src/contexts/WeatherContext.tsx:175-177 | one REMOVE_FAVORITE_CITY dispatch |
| `WeatherContext.WeatherStore.ToggleFavorite` | modern-weather/src/contexts/WeatherContext.tsx:179-185 | one dispatch: a remove if the city is a favourite, an add otherwise; the new state is the toggle of the old |
| `WeatherContext.WeatherStore.SetUnit` | modern-weather/src/contexts/WeatherContext.tsx:187-189 | one SET_TEMPERATURE_UNIT dispatch |
| `WeatherContext.WeatherStore.Clear` | modern-weather/src/contexts/WeatherContext.tsx:191-193 | one CLEAR_WEATHER dispatch |
| `WeatherContext.WeatherStore.LoadFavorites` | modern-weather/src/contexts/WeatherContext.tsx:99-101 | the loop dispatches one add per stored city. The old favourites stay a prefix. The new favourites are exactly the old ones plus the stored ones. No other field changes |

## Left out

- Network and I/O: `fetch`, `response.json()` and `console.error` are not modelled. The provider's answer is an input (`Outcome`), and logging is dropped.
- The `default` branch of `weatherReducer`: it cannot be reached, because `Action` is a closed datatype.
- The localStorage effects of the provider (WeatherContext.tsx:88-122) are left out. So are `JSON.parse` of the stored favourites and its `catch`. Only the `forEach` replay is modelled (`LoadFavorites`).
- The auto-fetch effect (WeatherContext.tsx:162-168) is left out, because it depends on React's effect scheduling.
- Concurrency between overlapping `fetchWeather` calls is not modelled. Neither is a `toggleFavoriteCity` closure that reads a stale `state.favoriteCities`. In the model each call runs to completion on the current state.
- `encodeURIComponent` in `fetchWeather`'s URL is left out, and the URL itself is not part of the model there. The routes' URLs are modelled.
- Utils.ToUpper: upper-cases ASCII letters only. JavaScript's `toUpperCase` follows full Unicode case mapping, which can also change the length, as with 'ß' becoming "SS". UTF-16 surrogate pairs seen by `charAt(0)` are not modelled either.
- WeatherCard.WeatherEmoji: keys inherited from `Object.prototype` are not modelled. With them, `iconMap['constructor']` would yield a function rather than the fallback.
- `formatTemperature`, `formatWindSpeed`, `toFixed` and locale date/time formatting are left out, because they use floating point and Intl. `cn` is left out because it wraps two external libraries.
- Rendering and animation are not modelled: `weather-app.tsx` and `search-bar.tsx`, and the JSX of `weather-card.tsx`.
- `useGeolocation.ts` and `useWeather.ts` are not part of this model. The first wraps the browser geolocation API, and the second holds thin `useState` wrappers around `fetch`.
- Route keys: both routes read `OPENWEATHER_API_KEY` once, when the module loads (weather/route.ts:3, forecast/route.ts:3). The model takes the value as a parameter of each call to `WeatherRoute.Get` and `ForecastRoute.Get`.
