/**
 * The `App` component (src/App.js): the `location` input, persisted to browser storage
 * on every change, and `fetchWeather`, which geocodes the location, fetches the
 * forecast for the first match and sets the `isLoading`, `displayLocation` and
 * `weather` state cells on the way, swallowing every error.
 */
module WeatherApp {
  import opened Wrappers
  import opened Forecast

  /** The fields of a geocoding result that the app reads. */
  datatype Place = Place(name: string, countryCode: string, latitude: real, longitude: real, timezone: string)

  /**
   * How the geocoding request ends: the request or the parsing of its body failed, or a
   * body arrived whose `results` array may be missing (the service's "not found").
   */
  datatype GeocodeReply = GeocodeFailed | GeocodeBody(results: Option<seq<Place>>)

  /** How the forecast request ends: it failed, or a body arrived whose `daily` may be missing. */
  datatype ForecastReply = ForecastFailed | ForecastBody(daily: Option<Daily>)

  /** The `weather` state cell: the initial "", `undefined`, or a `daily` object. */
  datatype WeatherCell = Blank | Undefined | Loaded(daily: Daily)

  /** The state cells that `fetchWeather` sets. */
  datatype FetchState = FetchState(isLoading: bool, displayLocation: seq<string>, weather: WeatherCell)

  /** One observable step of a `fetchWeather` call: a state setter or an HTTP request. */
  datatype Effect =
    | SetIsLoading(on: bool)
    | RequestGeocode(name: string)
    | SetDisplayLocation(shown: seq<string>)
    | RequestForecast(latitude: real, longitude: real, timezone: string)
    | SetWeather(cell: WeatherCell)

  /** `s.length` in JavaScript: UTF-16 code units, two for a character beyond U+FFFF. */
  function Utf16Length(s: string): (n: nat)
    ensures |s| <= n <= 2 * |s|
    ensures n == |s| <==> forall i :: 0 <= i < |s| ==> s[i] as int <= 0xFFFF
  {
    if s == [] then 0
    else
      var rest := Utf16Length(s[1..]);
      assert forall i :: 1 <= i < |s| ==> s[i] == s[1..][i - 1];
      (if s[0] as int <= 0xFFFF then 1 else 2) + rest
  }

  /**
   * The guard `location.length < 2` holds exactly for the empty string and a single
   * character of the Basic Multilingual Plane; one emoji is long enough to fetch.
   */
  lemma {:induction false} TooShortExactly(query: string)
    ensures Utf16Length(query) < 2 <==> query == [] || (|query| == 1 && query[0] as int <= 0xFFFF)
  {
  }

  /** The result `fetchWeather` destructures: `geoData.results.at(0)`, if there is one. */
  function FirstPlace(geo: GeocodeReply): (p: Option<Place>)
    ensures p.Some? <==> geo.GeocodeBody? && geo.results.Some? && geo.results.value != []
    ensures p.Some? ==> p.value == geo.results.value[0]
  {
    match geo
    case GeocodeBody(Some(results)) => At(results, 0)
    case _ => None
  }

  /**
   * What `setWeather(weatherData.daily)` stores: never the initial "", the `daily`
   * object itself when the body has one, `undefined` otherwise.
   */
  function WeatherOf(daily: Option<Daily>): (cell: WeatherCell)
    ensures cell != Blank
    ensures cell.Loaded? <==> daily.Some?
    ensures cell.Loaded? ==> cell.daily == daily.value
  {
    match daily
    case Some(d) => Loaded(d)
    case None => Undefined
  }

  /**
   * The steps of one `fetchWeather(query)` call in order: nothing for a query shorter
   * than 2; otherwise the loading flag goes up, the location is geocoded, and after a
   * usable first result its name and country are shown and its forecast requested;
   * whatever was thrown, the flag comes down last.
   */
  function FetchEffects(query: string, geo: GeocodeReply, forecast: ForecastReply): (effects: seq<Effect>)
    ensures effects == [] <==> Utf16Length(query) < 2
    ensures effects != [] ==>
      && |effects| >= 3
      && effects[0] == SetIsLoading(true)
      && effects[1] == RequestGeocode(query)
      && effects[|effects| - 1] == SetIsLoading(false)
  {
    if Utf16Length(query) < 2 then []
    else [SetIsLoading(true), RequestGeocode(query)] + ResolveEffects(geo, forecast) + [SetIsLoading(false)]
  }

  /**
   * The steps inside the `try` after the geocoding request: none without a usable first
   * result; otherwise its name and country are shown and its forecast is requested,
   * and `weather` is set only if that request returns a body. None touches the flag.
   */
  function ResolveEffects(geo: GeocodeReply, forecast: ForecastReply): (effects: seq<Effect>)
    ensures effects == [] <==> FirstPlace(geo).None?
    ensures effects != [] ==>
      var p := FirstPlace(geo).value;
      && |effects| == (if forecast.ForecastBody? then 3 else 2)
      && effects[0] == SetDisplayLocation([p.name, p.countryCode])
      && effects[1] == RequestForecast(p.latitude, p.longitude, p.timezone)
      && (forecast.ForecastBody? ==> effects[2] == SetWeather(WeatherOf(forecast.daily)))
    ensures forall i :: 0 <= i < |effects| ==> !effects[i].SetIsLoading?
  {
    match FirstPlace(geo)
    case None => []
    case Some(p) =>
      [SetDisplayLocation([p.name, p.countryCode]), RequestForecast(p.latitude, p.longitude, p.timezone)]
      + match forecast
        case ForecastFailed => []
        case ForecastBody(daily) => [SetWeather(WeatherOf(daily))]
  }

  /** The state after one step; requests change no state cell. */
  function Apply(s: FetchState, e: Effect): FetchState {
    match e
    case SetIsLoading(on) => s.(isLoading := on)
    case SetDisplayLocation(shown) => s.(displayLocation := shown)
    case SetWeather(cell) => s.(weather := cell)
    case RequestGeocode(_) => s
    case RequestForecast(_, _, _) => s
  }

  /** The state after a sequence of steps, taken in order. */
  function Run(s: FetchState, effects: seq<Effect>): FetchState
    decreases |effects|
  {
    if effects == [] then s else Run(Apply(s, effects[0]), effects[1..])
  }

  /** Running two sequences one after the other is running their concatenation. */
  lemma {:induction false} RunAppend(s: FetchState, a: seq<Effect>, b: seq<Effect>)
    ensures Run(s, a + b) == Run(Run(s, a), b)
    decreases |a|
  {
    if a == [] {
      assert a + b == b;
    } else {
      assert (a + b)[1..] == a[1..] + b;
      RunAppend(Apply(s, a[0]), a[1..], b);
    }
  }

  /**
   * The state a completed `fetchWeather(query)` call leaves, described directly: a
   * short query leaves everything as it was; otherwise the loading flag is down, the
   * first result's name and country replace `displayLocation` if geocoding gave one,
   * and `weather` is replaced only if the forecast request then returned a body.
   */
  function Outcome(s: FetchState, query: string, geo: GeocodeReply, forecast: ForecastReply): (t: FetchState)
    ensures Utf16Length(query) < 2 ==> t == s
    ensures Utf16Length(query) >= 2 ==> !t.isLoading
    ensures t.displayLocation != s.displayLocation ==> FirstPlace(geo).Some?
    ensures t.weather != s.weather ==> FirstPlace(geo).Some? && forecast.ForecastBody?
  {
    if Utf16Length(query) < 2 then s
    else
      match FirstPlace(geo)
      case None => s.(isLoading := false)
      case Some(p) =>
        FetchState(
          false,
          [p.name, p.countryCode],
          if forecast.ForecastBody? then WeatherOf(forecast.daily) else s.weather)
  }

  /** Running one step. */
  lemma RunOne(s: FetchState, e: Effect)
    ensures Run(s, [e]) == Apply(s, e)
  {
  }

  /** Running two steps. */
  lemma RunTwo(s: FetchState, e: Effect, f: Effect)
    ensures Run(s, [e, f]) == Apply(Apply(s, e), f)
  {
    RunOne(s, e);
    assert [e, f][0] == e && [e, f][1..] == [f];
    RunOne(Apply(s, e), f);
  }

  /** Taking the steps of a call one by one ends in the state `Outcome` describes. */
  lemma {:induction false} FetchReachesOutcome(s: FetchState, query: string, geo: GeocodeReply, forecast: ForecastReply)
    ensures Run(s, FetchEffects(query, geo, forecast)) == Outcome(s, query, geo, forecast)
  {
    if Utf16Length(query) >= 2 {
      var open := [SetIsLoading(true), RequestGeocode(query)];
      var resolve := ResolveEffects(geo, forecast);
      var t := s.(isLoading := true);
      RunAppend(s, open + resolve, [SetIsLoading(false)]);
      RunAppend(s, open, resolve);
      RunTwo(s, SetIsLoading(true), RequestGeocode(query));
      match FirstPlace(geo)
      case None =>
        RunOne(t, SetIsLoading(false));
      case Some(p) =>
        var shown := [SetDisplayLocation([p.name, p.countryCode]), RequestForecast(p.latitude, p.longitude, p.timezone)];
        var rest := if forecast.ForecastBody? then [SetWeather(WeatherOf(forecast.daily))] else [];
        assert resolve == shown + rest;
        RunAppend(t, shown, rest);
        RunTwo(t, shown[0], shown[1]);
        var u := Run(t, shown);
        if forecast.ForecastBody? {
          RunOne(u, rest[0]);
          RunOne(Run(u, rest), SetIsLoading(false));
        } else {
          RunOne(u, SetIsLoading(false));
        }
    }
  }

  /** The loading flag goes up first and down last, and no other step touches it. */
  lemma LoadingBracketsTheCall(query: string, geo: GeocodeReply, forecast: ForecastReply)
    ensures var es := FetchEffects(query, geo, forecast);
      && (es == [] <==> Utf16Length(query) < 2)
      && (es != [] ==> es[0] == SetIsLoading(true) && es[|es| - 1] == SetIsLoading(false))
      && forall i :: 0 < i < |es| - 1 ==> !es[i].SetIsLoading?
  {
  }

  /** The HTTP requests among a sequence of steps. */
  function Requests(effects: seq<Effect>): seq<Effect>
    decreases |effects|
  {
    if effects == [] then []
    else if effects[0].RequestGeocode? || effects[0].RequestForecast? then [effects[0]] + Requests(effects[1..])
    else Requests(effects[1..])
  }

  lemma {:induction false} RequestsAppend(a: seq<Effect>, b: seq<Effect>)
    ensures Requests(a + b) == Requests(a) + Requests(b)
    decreases |a|
  {
    if a == [] {
      assert a + b == b;
    } else {
      assert (a + b)[0] == a[0];
      assert (a + b)[1..] == a[1..] + b;
      RequestsAppend(a[1..], b);
      if a[0].RequestGeocode? || a[0].RequestForecast? {
        assert [a[0]] + (Requests(a[1..]) + Requests(b)) == ([a[0]] + Requests(a[1..])) + Requests(b);
      }
    }
  }

  /**
   * The requests a call issues: none for a short query; otherwise the geocoding of the
   * query itself, then a forecast request for the coordinates and time zone of the first
   * result when there is one, and nothing more.
   */
  lemma {:induction false} RequestsOfFetch(query: string, geo: GeocodeReply, forecast: ForecastReply)
    ensures Utf16Length(query) < 2 ==> Requests(FetchEffects(query, geo, forecast)) == []
    ensures Utf16Length(query) >= 2 ==>
      Requests(FetchEffects(query, geo, forecast)) ==
        [RequestGeocode(query)] +
        (match FirstPlace(geo)
         case None => []
         case Some(p) => [RequestForecast(p.latitude, p.longitude, p.timezone)])
  {
    if Utf16Length(query) >= 2 {
      var open := [SetIsLoading(true), RequestGeocode(query)];
      var resolve := ResolveEffects(geo, forecast);
      RequestsAppend(open + resolve, [SetIsLoading(false)]);
      RequestsAppend(open, resolve);
      assert Requests(open) == [RequestGeocode(query)] by {
        assert open[1..] == [RequestGeocode(query)];
        assert open[1..][1..] == [];
      }
      assert Requests([SetIsLoading(false)]) == [] by {
        assert [SetIsLoading(false)][1..] == [];
      }
      match FirstPlace(geo)
      case None =>
      case Some(p) =>
        var shown := [SetDisplayLocation([p.name, p.countryCode]), RequestForecast(p.latitude, p.longitude, p.timezone)];
        var rest := if forecast.ForecastBody? then [SetWeather(WeatherOf(forecast.daily))] else [];
        assert resolve == shown + rest;
        RequestsAppend(shown, rest);
        assert shown[1..][1..] == [];
        assert rest != [] ==> rest[1..] == [];
    }
  }

  /** A query shorter than 2 is skipped: no step is taken and no state cell changes. */
  lemma ShortQueryIsSkipped(s: FetchState, query: string, geo: GeocodeReply, forecast: ForecastReply)
    requires Utf16Length(query) < 2
    ensures FetchEffects(query, geo, forecast) == []
    ensures Run(s, FetchEffects(query, geo, forecast)) == s
  {
  }

  /** For a query of length 2 or more the loading flag is down once the call completes, whatever the replies. */
  lemma LoadingAlwaysCleared(s: FetchState, query: string, geo: GeocodeReply, forecast: ForecastReply)
    requires Utf16Length(query) >= 2
    ensures !Run(s, FetchEffects(query, geo, forecast)).isLoading
  {
    FetchReachesOutcome(s, query, geo, forecast);
  }

  /**
   * A usable geocoding result shows its name and country code; `weather` is replaced,
   * wholesale, only when the forecast request then returns a body.
   */
  lemma GeocodeSuccessShowsFirstResult(s: FetchState, query: string, geo: GeocodeReply, forecast: ForecastReply)
    requires Utf16Length(query) >= 2 && FirstPlace(geo).Some?
    ensures var t := Run(s, FetchEffects(query, geo, forecast));
      && t.displayLocation == [FirstPlace(geo).value.name, FirstPlace(geo).value.countryCode]
      && (forecast.ForecastBody? ==> t.weather == WeatherOf(forecast.daily))
      && (forecast.ForecastFailed? ==> t.weather == s.weather)
  {
    FetchReachesOutcome(s, query, geo, forecast);
  }

  /**
   * Errors are swallowed without touching what is shown: when geocoding gives no usable
   * result neither `displayLocation` nor `weather` changes, and when only the forecast
   * request fails just `displayLocation` may have changed.
   */
  lemma FailedFetchKeepsContent(s: FetchState, query: string, geo: GeocodeReply, forecast: ForecastReply)
    requires FirstPlace(geo).None? || forecast.ForecastFailed?
    ensures var t := Run(s, FetchEffects(query, geo, forecast));
      && t.weather == s.weather
      && (FirstPlace(geo).None? ==> t.displayLocation == s.displayLocation)
  {
    FetchReachesOutcome(s, query, geo, forecast);
  }

  /**
   * Between calls the cells are consistent: a weather cell other than the initial ""
   * was set by a call that first set `displayLocation` to a name and a country.
   */
  predicate Consistent(s: FetchState) {
    s.weather != Blank ==> |s.displayLocation| == 2
  }

  /** A completed call keeps the cells consistent and leaves the loading flag down. */
  lemma FetchKeepsConsistent(s: FetchState, query: string, geo: GeocodeReply, forecast: ForecastReply)
    requires Consistent(s) && !s.isLoading
    ensures var t := Run(s, FetchEffects(query, geo, forecast));
      Consistent(t) && !t.isLoading
  {
    FetchReachesOutcome(s, query, geo, forecast);
  }

  /**
   * `localStorage.getItem("location") || ""`: the stored string, or "" when nothing is
   * stored (a stored "" is falsy and also gives "").
   */
  function InitialLocation(storage: Option<string>): (location: string)
    ensures storage.Some? ==> location == storage.value
    ensures storage.None? ==> location == ""
  {
    if storage.Some? && storage.value != "" then storage.value else ""
  }

  /** `App`'s state cells and the storage entry under the key "location". */
  class App {
    var location: string
    var isLoading: bool
    var displayLocation: seq<string>
    var weather: WeatherCell
    /** The value stored under "location", or None when the key is absent. */
    var stored: Option<string>
    /** Whether the component has rendered once and run its effect. */
    var mounted: bool

    function State(): FetchState
      reads this
    {
      FetchState(isLoading, displayLocation, weather)
    }

    /**
     * At rest the loading flag is down, the cells are consistent, and once mounted the
     * storage holds the location, so a reload would start from it.
     */
    ghost predicate Valid()
      reads this
      ensures Valid() && weather.Loaded? ==> |displayLocation| == 2
      ensures Valid() && mounted ==> InitialLocation(stored) == location
    {
      && !isLoading
      && Consistent(State())
      && (mounted ==> stored == Some(location))
    }

    /** The `useState` initialisers: the location comes from storage, the other cells start empty. */
    constructor (storage: Option<string>)
      ensures Valid() && !mounted
      ensures location == InitialLocation(storage) && stored == storage
      ensures State() == FetchState(false, [], Blank)
    {
      location := InitialLocation(storage);
      isLoading := false;
      displayLocation := [];
      weather := Blank;
      stored := storage;
      mounted := false;
    }

    /**
     * `fetchWeather(query)`, run to completion: it returns the steps it took, and the
     * state cells end as those steps leave them.
     */
    method FetchWeather(query: string, geo: GeocodeReply, forecast: ForecastReply) returns (effects: seq<Effect>)
      modifies this`isLoading, this`displayLocation, this`weather
      ensures effects == FetchEffects(query, geo, forecast)
      ensures State() == Run(old(State()), effects)
    {
      effects := [];
      if Utf16Length(query) < 2 {
        return;
      }
      isLoading := true;
      effects := effects + [SetIsLoading(true), RequestGeocode(query)];
      var first := FirstPlace(geo);
      if first.Some? {
        var p := first.value;
        displayLocation := [p.name, p.countryCode];
        effects := effects + [SetDisplayLocation(displayLocation), RequestForecast(p.latitude, p.longitude, p.timezone)];
        if forecast.ForecastBody? {
          weather := WeatherOf(forecast.daily);
          effects := effects + [SetWeather(weather)];
        }
      }
      isLoading := false;
      effects := effects + [SetIsLoading(false)];
      FetchReachesOutcome(old(State()), query, geo, forecast);
    }

    /** The effect's first run after the first render: fetch for the restored location, then store it. */
    method Mount(geo: GeocodeReply, forecast: ForecastReply) returns (effects: seq<Effect>)
      requires Valid() && !mounted
      modifies this
      ensures Valid() && mounted
      ensures location == old(location) && stored == Some(location)
      ensures effects == FetchEffects(location, geo, forecast)
      ensures State() == Run(old(State()), effects)
    {
      FetchKeepsConsistent(State(), location, geo, forecast);
      effects := FetchWeather(location, geo, forecast);
      stored := Some(location);
      mounted := true;
    }

    /**
     * Typing in the input: `setLocation(value)`. When the value differs, the effect
     * fetches for it and stores it; an equal value re-renders nothing and runs no effect.
     */
    method ChangeLocation(value: string, geo: GeocodeReply, forecast: ForecastReply) returns (effects: seq<Effect>)
      requires Valid() && mounted
      modifies this
      ensures Valid() && mounted
      ensures location == value && stored == Some(value)
      ensures effects == if value == old(location) then [] else FetchEffects(value, geo, forecast)
      ensures State() == Run(old(State()), effects)
    {
      if value == location {
        effects := [];
        return;
      }
      location := value;
      FetchKeepsConsistent(State(), value, geo, forecast);
      effects := FetchWeather(value, geo, forecast);
      stored := Some(value);
    }
  }

  /** Reloading the page: a new `App` built from the storage starts from the last location typed. */
  method Reload(app: App) returns (reloaded: App)
    requires app.Valid() && app.mounted
    ensures reloaded.location == app.location && reloaded.stored == app.stored
    ensures reloaded.State() == FetchState(false, [], Blank)
  {
    reloaded := new App(app.stored);
  }

  /** Reading a property of `undefined` throws a TypeError and the render fails. */
  datatype RenderError = TypeError

  /** What `Weather` shows: the heading `location[0] - location[1]` and the day cards. */
  datatype Panel = Panel(place: Option<string>, country: Option<string>, days: seq<DayCard>)

  /** What `App` renders: the input's value, the loader, and the forecast panel if any. */
  datatype Page = Page(input: string, loader: bool, panel: Option<Panel>)

  /**
   * `App`'s markup as a value: the input shows `location`, "Loading..." shows while the
   * flag is up, and the panel shows only when `weather.weathercode` is present. The
   * initial "" has no such property; `undefined` has no properties at all, so a forecast
   * body without `daily` makes the render throw.
   */
  function Render(location: string, s: FetchState, formatDay: string -> string): (page: Result<Page, RenderError>)
    ensures page.Err? <==> s.weather.Undefined?
    ensures page.Ok? ==> page.value.input == location && page.value.loader == s.isLoading
    ensures page.Ok? ==> (page.value.panel.Some? <==> s.weather.Loaded? && s.weather.daily.weathercode.Some?)
    ensures page.Ok? && page.value.panel.Some? ==>
      page.value.panel.value.days == RenderDays(s.weather.daily, s.weather.daily.weathercode.value, formatDay)
  {
    match s.weather
    case Undefined => Err(TypeError)
    case Blank => Ok(Page(location, s.isLoading, None))
    case Loaded(daily) =>
      match daily.weathercode
      case None => Ok(Page(location, s.isLoading, None))
      case Some(codes) =>
        var panel := Panel(At(s.displayLocation, 0), At(s.displayLocation, 1), RenderDays(daily, codes, formatDay));
        Ok(Page(location, s.isLoading, Some(panel)))
  }

  /**
   * After a call whose geocoding succeeds and whose forecast body has a `daily` with
   * weather codes, the page shows the first result's name and country over one card
   * per forecast date, the first labelled "Today", and no loader. Card i shows the
   * weekday of date i (after the first), the icon of code i, the minimum of day i
   * rounded down and the maximum of day i rounded up.
   */
  lemma SuccessfulFetchRendersForecast(
    s: FetchState, query: string, p: Place, rest: seq<Place>, daily: Daily, formatDay: string -> string)
    requires Utf16Length(query) >= 2 && daily.weathercode.Some?
    ensures var t := Run(s, FetchEffects(query, GeocodeBody(Some([p] + rest)), ForecastBody(Some(daily))));
      var page := Render(query, t, formatDay);
      && page.Ok? && !page.value.loader && page.value.panel.Some?
      && page.value.panel.value.place == Some(p.name)
      && page.value.panel.value.country == Some(p.countryCode)
      && |page.value.panel.value.days| == |daily.time|
      && (|daily.time| > 0 ==> page.value.panel.value.days[0].title == "Today")
      && forall i :: 0 <= i < |daily.time| ==>
        var card := page.value.panel.value.days[i];
        && (i > 0 ==> card.title == formatDay(daily.time[i]))
        && card.icon == IconFor(At(daily.weathercode.value, i))
        && card.low == (if i < |daily.temperatureMin| then Some(Floor(daily.temperatureMin[i])) else None)
        && card.high == (if i < |daily.temperatureMax| then Some(Ceil(daily.temperatureMax[i])) else None)
  {
    FetchReachesOutcome(s, query, GeocodeBody(Some([p] + rest)), ForecastBody(Some(daily)));
    FormatterOnlyLabelsLaterDays(daily, daily.weathercode.value, formatDay, formatDay);
  }

  /**
   * A forecast body without `daily` after a successful geocoding leaves `weather`
   * `undefined`, and the next render throws; with no error boundary the page is lost.
   */
  lemma MissingDailyBreaksRender(s: FetchState, query: string, geo: GeocodeReply, formatDay: string -> string)
    requires Utf16Length(query) >= 2 && FirstPlace(geo).Some?
    ensures Render(query, Run(s, FetchEffects(query, geo, ForecastBody(None))), formatDay).Err?
  {
    FetchReachesOutcome(s, query, geo, ForecastBody(None));
  }

  /** Before any forecast has arrived the page shows no panel, whatever the location. */
  lemma InitialPageHasNoForecast(location: string, formatDay: string -> string)
    ensures Render(location, FetchState(false, [], Blank), formatDay) == Ok(Page(location, false, None))
  {
  }
}
