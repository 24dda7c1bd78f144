/** The client-side weather store: the six-field UI state, the eight actions of its
    reducer, the favourites list kept as an ordered duplicate-free set, and the
    fixed sequence of actions `fetchWeather` dispatches for each upstream outcome. */
module WeatherContext {
  import opened Http

  datatype TemperatureUnit = Celsius | Fahrenheit

  datatype State = State(
    currentWeather: Option<Json>,
    isLoading: bool,
    error: Option<string>,
    lastSearchedCity: string,
    favoriteCities: seq<string>,
    temperatureUnit: TemperatureUnit)

  datatype Action =
    | SetLoading(loading: bool)
    | SetWeather(weather: Json)
    | SetError(message: Option<string>)
    | SetLastSearchedCity(city: string)
    | AddFavoriteCity(city: string)
    | RemoveFavoriteCity(city: string)
    | SetTemperatureUnit(unit: TemperatureUnit)
    | ClearWeather

  const InitialState := State(None, false, None, "", [], Celsius)

  /** No weather, no error, not loading, no last city, no favourites, Celsius. */
  lemma InitialStateIsEmpty()
    ensures InitialState.currentWeather.None? && InitialState.error.None? && !InitialState.isLoading
    ensures InitialState.lastSearchedCity == "" && InitialState.favoriteCities == []
    ensures InitialState.temperatureUnit == Celsius
  {
  }

  predicate NoDuplicates(xs: seq<string>) {
    forall i, j :: 0 <= i < j < |xs| ==> xs[i] != xs[j]
  }

  /** `a` keeps some of the elements of `b`, in the order `b` has them. */
  predicate IsSubsequence(a: seq<string>, b: seq<string>) {
    if a == [] then true
    else if b == [] then false
    else if a[0] == b[0] then IsSubsequence(a[1..], b[1..])
    else IsSubsequence(a, b[1..])
  }

  /** `xs.filter(x => x !== c)`. */
  function Without(xs: seq<string>, c: string): (r: seq<string>)
    ensures forall x :: x in r <==> x in xs && x != c
    ensures c !in xs ==> r == xs
    ensures NoDuplicates(xs) ==> NoDuplicates(r)
  {
    if xs == [] then []
    else if xs[0] == c then Without(xs[1..], c)
    else
      assert xs == [xs[0]] + xs[1..];
      NoDuplicatesCons(xs[0], xs[1..]);
      NoDuplicatesCons(xs[0], Without(xs[1..], c));
      [xs[0]] + Without(xs[1..], c)
  }

  lemma NoDuplicatesCons(x: string, t: seq<string>)
    ensures NoDuplicates([x] + t) <==> x !in t && NoDuplicates(t)
  {
    var xs := [x] + t;
    if NoDuplicates(xs) {
      forall k | 0 <= k < |t| ensures t[k] != x {
        assert xs[0] != xs[k + 1];
      }
      forall i, j | 0 <= i < j < |t| ensures t[i] != t[j] {
        assert xs[i + 1] != xs[j + 1];
      }
    }
  }

  /** The filter keeps every other city, as often as it occurs and in its order. */
  lemma {:induction false} WithoutKeepsOthers(xs: seq<string>, c: string)
    ensures multiset(Without(xs, c)) == multiset(xs)[c := 0]
    ensures IsSubsequence(Without(xs, c), xs)
  {
    if xs != [] {
      assert xs == [xs[0]] + xs[1..];
      WithoutKeepsOthers(xs[1..], c);
      var r := Without(xs, c);
      if xs[0] != c {
        assert r[1..] == Without(xs[1..], c);
      }
    }
  }

  /** `weatherReducer`. For each field, the contract names the only actions that may
      change it and what they set it to. */
  function Reduce(s: State, a: Action): (r: State)
    ensures r.isLoading != s.isLoading ==> a.SetLoading?
    ensures r.currentWeather != s.currentWeather ==> a.SetWeather? || a.SetError? || a.ClearWeather?
    ensures r.error != s.error ==> a.SetWeather? || a.SetError? || a.ClearWeather?
    ensures r.lastSearchedCity != s.lastSearchedCity ==> a.SetLastSearchedCity?
    ensures r.favoriteCities != s.favoriteCities ==> a.AddFavoriteCity? || a.RemoveFavoriteCity?
    ensures r.temperatureUnit != s.temperatureUnit ==> a.SetTemperatureUnit?
    ensures a.SetLoading? ==> r.isLoading == a.loading
    ensures a.SetWeather? ==> r.currentWeather == Some(a.weather) && r.error == None
    // the weather is cleared even when the new error is null
    ensures a.SetError? ==> r.error == a.message && r.currentWeather == None
    ensures a.SetLastSearchedCity? ==> r.lastSearchedCity == a.city
    // adding a present city returns the very same state; an absent one goes at the end
    ensures a.AddFavoriteCity? && a.city in s.favoriteCities ==> r == s
    ensures a.AddFavoriteCity? && a.city !in s.favoriteCities ==>
              r.favoriteCities == s.favoriteCities + [a.city]
    // removing drops every copy of the city and keeps the others in order
    ensures a.RemoveFavoriteCity? ==>
              a.city !in r.favoriteCities &&
              IsSubsequence(r.favoriteCities, s.favoriteCities) &&
              multiset(r.favoriteCities) == multiset(s.favoriteCities)[a.city := 0]
    ensures a.RemoveFavoriteCity? && a.city !in s.favoriteCities ==> r == s
    ensures a.SetTemperatureUnit? ==> r.temperatureUnit == a.unit
    ensures a.ClearWeather? ==> r.currentWeather == None && r.error == None
    ensures NoDuplicates(s.favoriteCities) ==> NoDuplicates(r.favoriteCities)
  {
    match a
    case SetLoading(loading) => s.(isLoading := loading)
    case SetWeather(weather) => s.(currentWeather := Some(weather), error := None)
    case SetError(message) => s.(error := message, currentWeather := None)
    case SetLastSearchedCity(city) => s.(lastSearchedCity := city)
    case AddFavoriteCity(city) =>
      if city in s.favoriteCities then s
      else s.(favoriteCities := s.favoriteCities + [city])
    case RemoveFavoriteCity(city) =>
      WithoutKeepsOthers(s.favoriteCities, city);
      s.(favoriteCities := Without(s.favoriteCities, city))
    case SetTemperatureUnit(unit) => s.(temperatureUnit := unit)
    case ClearWeather => s.(currentWeather := None, error := None)
  }

  /** Dispatching the same add or remove twice has the effect of dispatching it once. */
  lemma FavoriteActionsIdempotent(s: State, c: string)
    ensures Reduce(Reduce(s, AddFavoriteCity(c)), AddFavoriteCity(c)) == Reduce(s, AddFavoriteCity(c))
    ensures Reduce(Reduce(s, RemoveFavoriteCity(c)), RemoveFavoriteCity(c)) == Reduce(s, RemoveFavoriteCity(c))
  {
  }

  /** The state after dispatching `acts` in order, starting from `s`. */
  function ReduceAll(s: State, acts: seq<Action>): (r: State)
    ensures NoDuplicates(s.favoriteCities) ==> NoDuplicates(r.favoriteCities)
    ensures (forall i :: 0 <= i < |acts| ==> !acts[i].AddFavoriteCity? && !acts[i].RemoveFavoriteCity?) ==>
              r.favoriteCities == s.favoriteCities
    ensures (forall i :: 0 <= i < |acts| ==> !acts[i].SetTemperatureUnit?) ==>
              r.temperatureUnit == s.temperatureUnit
    decreases |acts|
  {
    if acts == [] then s else ReduceAll(Reduce(s, acts[0]), acts[1..])
  }

  lemma {:induction false} ReduceAllAppend(s: State, a: seq<Action>, b: seq<Action>)
    ensures ReduceAll(s, a + b) == ReduceAll(ReduceAll(s, a), b)
    decreases |a|
  {
    if a != [] {
      assert (a + b)[1..] == a[1..] + b;
      ReduceAllAppend(Reduce(s, a[0]), a[1..], b);
    } else {
      assert a + b == b;
    }
  }

  /** `toggleFavoriteCity`: remove the city if it is a favourite, add it otherwise. */
  function Toggle(s: State, c: string): (r: State)
    ensures c in r.favoriteCities <==> c !in s.favoriteCities
    ensures forall x :: x != c ==> (x in r.favoriteCities <==> x in s.favoriteCities)
    ensures r == s.(favoriteCities := r.favoriteCities)
    ensures NoDuplicates(s.favoriteCities) ==> NoDuplicates(r.favoriteCities)
  {
    if c in s.favoriteCities then Reduce(s, RemoveFavoriteCity(c)) else Reduce(s, AddFavoriteCity(c))
  }

  lemma {:induction false} WithoutAppended(xs: seq<string>, c: string)
    requires c !in xs
    ensures Without(xs + [c], c) == xs
  {
    if xs != [] {
      assert (xs + [c])[1..] == xs[1..] + [c];
      WithoutAppended(xs[1..], c);
      assert xs == [xs[0]] + xs[1..];
    } else {
      assert [c][1..] == [];
    }
  }

  lemma {:induction false} OccursOnce(xs: seq<string>, c: string)
    requires NoDuplicates(xs) && c in xs
    ensures multiset(xs)[c] == 1
  {
    assert xs == [xs[0]] + xs[1..];
    if xs[0] == c {
      assert c !in xs[1..] by {
        forall k | 0 <= k < |xs[1..]| ensures xs[1..][k] != c {
          assert xs[1..][k] == xs[k + 1];
        }
      }
    } else {
      OccursOnce(xs[1..], c);
    }
  }

  /** Toggling twice gives back the same favourites: the identical list when the city
      was absent; the same cities, with `c` moved last, when it was present. */
  lemma ToggleTwice(s: State, c: string)
    requires NoDuplicates(s.favoriteCities)
    ensures c !in s.favoriteCities ==> Toggle(Toggle(s, c), c) == s
    ensures c in s.favoriteCities ==>
              multiset(Toggle(Toggle(s, c), c).favoriteCities) == multiset(s.favoriteCities) &&
              Toggle(Toggle(s, c), c).favoriteCities == Without(s.favoriteCities, c) + [c]
    ensures Toggle(Toggle(s, c), c) == s.(favoriteCities := Toggle(Toggle(s, c), c).favoriteCities)
  {
    if c !in s.favoriteCities {
      WithoutAppended(s.favoriteCities, c);
    } else {
      OccursOnce(s.favoriteCities, c);
    }
  }

  const KeyMissingMessage := "Weather API key not configured"
  const FetchFailedMessage := "Failed to fetch weather data"

  /** The message the `catch` block stores: an `Error`'s own message, or a generic one. */
  function CaughtMessage(e: Thrown): string
  {
    match e
    case ErrorObject(message) => message
    case NonErrorValue => "An error occurred"
  }

  /** `fetchWeather` succeeds exactly when the key is set and an ok reply decodes. */
  predicate FetchSucceeds(apiKey: Option<string>, upstream: Outcome) {
    Given(apiKey) && upstream.Reply? && IsOk(upstream.status) && upstream.body.Parsed?
  }

  /** What the `try` block throws, when it throws. */
  function FetchThrown(apiKey: Option<string>, upstream: Outcome): (t: Option<Thrown>)
    ensures t.None? <==> FetchSucceeds(apiKey, upstream)
  {
    if !Given(apiKey) then Some(ErrorObject(KeyMissingMessage))
    else match upstream
      case Fault(e) => Some(e)
      case Reply(status, body) =>
        if !IsOk(status) then
          if status == 404 then Some(ErrorObject(CityNotFound)) else Some(ErrorObject(FetchFailedMessage))
        else match body
          case Parsed(_) => None
          case Unparsable(e) => Some(e)
  }

  /** The actions `fetchWeather(city)` dispatches, in order: loading on and error
      cleared; then the weather and the city, or the caught error; loading off in
      `finally`. */
  function FetchActions(city: string, apiKey: Option<string>, upstream: Outcome): (acts: seq<Action>)
    ensures |acts| == (if FetchSucceeds(apiKey, upstream) then 5 else 4)
    ensures acts[0] == SetLoading(true) && acts[1] == SetError(None) && acts[|acts| - 1] == SetLoading(false)
    ensures forall i :: 0 <= i < |acts| ==> !acts[i].AddFavoriteCity? && !acts[i].RemoveFavoriteCity?
    ensures forall i :: 0 <= i < |acts| ==> !acts[i].SetTemperatureUnit?
  {
    var thrown := FetchThrown(apiKey, upstream);
    [SetLoading(true), SetError(None)]
    + (if thrown.None? then [SetWeather(upstream.body.json), SetLastSearchedCity(city)]
       else [SetError(Some(CaughtMessage(thrown.value)))])
    + [SetLoading(false)]
  }

  /** The state `fetchWeather` leaves behind, for each outcome of the request. */
  function FetchOutcome(s: State, city: string, apiKey: Option<string>, upstream: Outcome): (r: State)
    ensures !r.isLoading
    ensures r.favoriteCities == s.favoriteCities && r.temperatureUnit == s.temperatureUnit
    ensures FetchSucceeds(apiKey, upstream) ==>
              r.currentWeather == Some(upstream.body.json) && r.error == None && r.lastSearchedCity == city
    ensures !FetchSucceeds(apiKey, upstream) ==>
              r.currentWeather == None && r.error.Some? && r.lastSearchedCity == s.lastSearchedCity
    ensures !Given(apiKey) ==> r.error == Some(KeyMissingMessage)
    ensures Given(apiKey) && upstream.Reply? && upstream.status == 404 ==> r.error == Some(CityNotFound)
    ensures Given(apiKey) && upstream.Reply? && upstream.status != 404 && !IsOk(upstream.status) ==>
              r.error == Some(FetchFailedMessage)
    // a thrown fault or decode failure stores an Error's own message, or a generic one
    ensures Given(apiKey) && upstream.Fault? ==>
              r.error == Some(if upstream.cause.ErrorObject? then upstream.cause.message else "An error occurred")
    ensures Given(apiKey) && upstream.Reply? && IsOk(upstream.status) && upstream.body.Unparsable? ==>
              r.error == Some(if upstream.body.cause.ErrorObject? then upstream.body.cause.message
                              else "An error occurred")
  {
    var acts := FetchActions(city, apiKey, upstream);
    FetchSteps(s, acts);
    ReduceAll(s, acts)
  }

  /** ReduceAll unfolded over the four or five actions of one fetch. */
  lemma FetchSteps(s: State, acts: seq<Action>)
    requires 4 <= |acts| <= 5
    ensures |acts| == 4 ==>
              ReduceAll(s, acts) == Reduce(Reduce(Reduce(Reduce(s, acts[0]), acts[1]), acts[2]), acts[3])
    ensures |acts| == 5 ==>
              ReduceAll(s, acts) == Reduce(Reduce(Reduce(Reduce(Reduce(s, acts[0]), acts[1]), acts[2]), acts[3]), acts[4])
  {
    var s1 := Reduce(s, acts[0]);
    var s2 := Reduce(s1, acts[1]);
    var s3 := Reduce(s2, acts[2]);
    var s4 := Reduce(s3, acts[3]);
    assert ReduceAll(s, acts) == ReduceAll(s1, acts[1..]);
    assert ReduceAll(s1, acts[1..]) == ReduceAll(s2, acts[2..]);
    assert ReduceAll(s2, acts[2..]) == ReduceAll(s3, acts[3..]);
    assert ReduceAll(s3, acts[3..]) == ReduceAll(s4, acts[4..]);
    if |acts| == 5 {
      assert ReduceAll(s4, acts[4..]) == ReduceAll(Reduce(s4, acts[4]), acts[5..]);
    }
  }

  /** One `ADD_FAVORITE_CITY` per city, in order: the `forEach` over stored favourites. */
  function AddActions(cities: seq<string>): seq<Action>
  {
    seq(|cities|, i requires 0 <= i < |cities| => AddFavoriteCity(cities[i]))
  }

  /** Replaying stored favourites through ADD_FAVORITE_CITY keeps the existing list as a
      prefix, adds every stored city and nothing else, stays duplicate-free and touches
      no other field. */
  lemma {:induction false} ReplayFavorites(s: State, cities: seq<string>)
    ensures var r := ReduceAll(s, AddActions(cities));
            r == s.(favoriteCities := r.favoriteCities) &&
            |s.favoriteCities| <= |r.favoriteCities| &&
            r.favoriteCities[..|s.favoriteCities|] == s.favoriteCities &&
            (forall x :: x in r.favoriteCities <==> x in s.favoriteCities || x in cities) &&
            (NoDuplicates(s.favoriteCities) ==> NoDuplicates(r.favoriteCities))
    decreases |cities|
  {
    var acts := AddActions(cities);
    if cities != [] {
      var s1 := Reduce(s, AddFavoriteCity(cities[0]));
      assert acts[1..] == AddActions(cities[1..]);
      assert ReduceAll(s, acts) == ReduceAll(s1, acts[1..]);
      ReplayFavorites(s1, cities[1..]);
      var r := ReduceAll(s1, acts[1..]);
      assert r.favoriteCities[..|s.favoriteCities|] == r.favoriteCities[..|s1.favoriteCities|][..|s.favoriteCities|];
      assert cities == [cities[0]] + cities[1..];
    }
  }

  /** The store `useReducer(weatherReducer, initialState)` keeps for the provider. */
  class WeatherStore {
    var state: State
    /** Every action dispatched so far, oldest first. */
    ghost var dispatched: seq<Action>

    ghost predicate Valid()
      reads this
    {
      state == ReduceAll(InitialState, dispatched) && NoDuplicates(state.favoriteCities)
    }

    constructor ()
      ensures Valid() && state == InitialState && dispatched == []
    {
      state := InitialState;
      dispatched := [];
    }

    method Dispatch(a: Action)
      requires Valid()
      modifies this
      ensures Valid()
      ensures state == Reduce(old(state), a)
      ensures dispatched == old(dispatched) + [a]
    {
      ReduceAllAppend(InitialState, dispatched, [a]);
      assert ReduceAll(state, [a]) == ReduceAll(Reduce(state, a), []);
      state := Reduce(state, a);
      dispatched := dispatched + [a];
    }

    /** `fetchWeather(city)`, with the `NEXT_PUBLIC_OPENWEATHER_API_KEY` value and the
        provider's answer as inputs. */
    method FetchWeather(city: string, apiKey: Option<string>, upstream: Outcome)
      requires Valid()
      modifies this
      ensures Valid()
      ensures dispatched == old(dispatched) + FetchActions(city, apiKey, upstream)
      ensures state == FetchOutcome(old(state), city, apiKey, upstream)
    {
      Dispatch(SetLoading(true));
      Dispatch(SetError(None));
      var thrown := Attempt(city, apiKey, upstream);
      if thrown.Some? {
        Dispatch(SetError(Some(CaughtMessage(thrown.value))));
      }
      Dispatch(SetLoading(false));
      var acts := FetchActions(city, apiKey, upstream);
      assert dispatched == old(dispatched) + acts;
      ReduceAllAppend(InitialState, old(dispatched), acts);
    }

    /** The `try` block of `fetchWeather`: it dispatches the weather and the city when
        the request succeeds, and otherwise returns what it throws. */
    method Attempt(city: string, apiKey: Option<string>, upstream: Outcome) returns (thrown: Option<Thrown>)
      requires Valid()
      modifies this
      ensures Valid()
      ensures thrown == FetchThrown(apiKey, upstream)
      ensures thrown.None? ==>
                dispatched == old(dispatched) + [SetWeather(upstream.body.json), SetLastSearchedCity(city)]
      ensures thrown.Some? ==> dispatched == old(dispatched) && state == old(state)
    {
      if !Given(apiKey) {
        return Some(ErrorObject(KeyMissingMessage));
      }
      match upstream
      case Fault(e) =>
        return Some(e);
      case Reply(status, body) =>
        if !IsOk(status) {
          if status == 404 {
            return Some(ErrorObject(CityNotFound));
          }
          return Some(ErrorObject(FetchFailedMessage));
        }
        match body
        case Unparsable(e) =>
          return Some(e);
        case Parsed(json) =>
          Dispatch(SetWeather(json));
          Dispatch(SetLastSearchedCity(city));
          return None;
    }

    method AddFavorite(city: string)
      requires Valid()
      modifies this
      ensures Valid()
      ensures state == Reduce(old(state), AddFavoriteCity(city))
      ensures dispatched == old(dispatched) + [AddFavoriteCity(city)]
    {
      Dispatch(AddFavoriteCity(city));
    }

    method RemoveFavorite(city: string)
      requires Valid()
      modifies this
      ensures Valid()
      ensures state == Reduce(old(state), RemoveFavoriteCity(city))
      ensures dispatched == old(dispatched) + [RemoveFavoriteCity(city)]
    {
      Dispatch(RemoveFavoriteCity(city));
    }

    /** `toggleFavoriteCity`: one dispatch, chosen by the current favourites. */
    method ToggleFavorite(city: string)
      requires Valid()
      modifies this
      ensures Valid()
      ensures state == Toggle(old(state), city)
      ensures dispatched == old(dispatched) +
                [if city in old(state).favoriteCities then RemoveFavoriteCity(city) else AddFavoriteCity(city)]
    {
      if city in state.favoriteCities {
        RemoveFavorite(city);
      } else {
        AddFavorite(city);
      }
    }

    method SetUnit(unit: TemperatureUnit)
      requires Valid()
      modifies this
      ensures Valid()
      ensures state == Reduce(old(state), SetTemperatureUnit(unit))
      ensures dispatched == old(dispatched) + [SetTemperatureUnit(unit)]
    {
      Dispatch(SetTemperatureUnit(unit));
    }

    method Clear()
      requires Valid()
      modifies this
      ensures Valid()
      ensures state == Reduce(old(state), ClearWeather)
      ensures dispatched == old(dispatched) + [ClearWeather]
    {
      Dispatch(ClearWeather);
    }

    /** The `forEach` of the load effect: each stored favourite is dispatched as an
        `ADD_FAVORITE_CITY`, so duplicates in storage are dropped. */
    method LoadFavorites(stored: seq<string>)
      requires Valid()
      modifies this
      ensures Valid()
      ensures dispatched == old(dispatched) + AddActions(stored)
      ensures state == ReduceAll(old(state), AddActions(stored))
      ensures state == old(state).(favoriteCities := state.favoriteCities)
      ensures forall x :: x in state.favoriteCities <==> x in old(state).favoriteCities || x in stored
      ensures |old(state).favoriteCities| <= |state.favoriteCities|
      ensures state.favoriteCities[..|old(state).favoriteCities|] == old(state).favoriteCities
    {
      var i := 0;
      while i < |stored|
        invariant 0 <= i <= |stored|
        invariant Valid()
        invariant dispatched == old(dispatched) + AddActions(stored[..i])
      {
        assert AddActions(stored[..i + 1]) == AddActions(stored[..i]) + [AddFavoriteCity(stored[i])];
        Dispatch(AddFavoriteCity(stored[i]));
        i := i + 1;
      }
      assert stored[..i] == stored;
      ReduceAllAppend(InitialState, old(dispatched), AddActions(stored));
      ReplayFavorites(old(state), stored);
    }
  }
}
