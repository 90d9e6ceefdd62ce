# Weather lookup widget — a Dafny model

The widget is one React component, `App`, in `src/App.js`. The user types a city
name, and the component resolves it to coordinates through a geocoding service. It
then fetches a daily forecast for the first match and shows one card per day, each
with a weather icon, a weekday and the rounded low and high temperatures. The typed
name is kept in browser storage, so a reload starts from it.

The model has four modules:

- `Wrappers` (`wrappers.dfy`): `Option` and `Result`. `None` stands for JavaScript's
  `undefined` wherever the source can meet it.
- `WeatherIcon` (`weather_icon.dfy`): `getWeatherIcon`. The icon table is an ordered
  list of (code list, glyph) rows. It is searched by first match, and a code in no row
  gets `"NOT FOUND"`. The codes are the WMO weather-interpretation codes (WMO code
  table 4677) that Open-Meteo reports. `Classify` groups them the way the table does,
  and serves as an independent reference that the table is proved against.
- `Forecast` (`forecast.dfy`): the `Weather` and `Day` components. The four parallel
  `daily` arrays become one card per date. Card i reads index i of every array with
  `.at(i)`, which is `undefined` past the end. Only card 0 is today's. The low is
  rounded down and the high up.
- `WeatherApp` (`weather_app.dfy`): `fetchWeather`, the persistence effect and the
  render gate.
  - A call is a sequence of steps (`Effect`): state setters and HTTP requests.
    `FetchEffects` gives the steps of one call and `Run` applies them.
  - `Outcome` describes the end state directly, and `FetchReachesOutcome` proves the
    two agree.
  - The class `App` holds the state cells and the storage entry. Its methods change
    them step by step, as the source does.
  - `Render` is the component's markup as a value.

A few details follow the code rather than a prose description of it:

- The length guard counts UTF-16 code units, as JavaScript's `length` does. A single
  character beyond U+FFFF, such as an emoji, is long enough to trigger a fetch.
- A geocoding body with `results: []` fails like a body with no `results`. There,
  `results.at(0)` is `undefined`, destructuring it throws, and the error is swallowed.
- The list is gated on `weather.weathercode` being present, not on the forecast being
  non-empty. An empty `weathercode` array still renders an empty list.
- A forecast body without `daily` stores `undefined` in `weather`. The next render
  then throws a TypeError when it reads `weather.weathercode`. The component has no
  error boundary, so the page is lost. Failures are therefore not always harmless.
  `MissingDailyBreaksRender` states this, and the model keeps the behaviour as written.
- `getItem("location") || ""` turns a stored empty string into `""` as well, so a
  reload always restores the last value typed.

## Model

| member | source | states |
|---|---|---|
| `WeatherIcon.FirstMatch` | src/App.js:29 | The index found is the first row whose list contains the code. None exactly when no row lists it. |
| `WeatherIcon.Lookup` | src/App.js:29-31 | No row lists the code gives "NOT FOUND". Otherwise the result is the glyph of a row listing the code with no earlier row listing it. |
| `WeatherIcon.DisjointLookupIsUnique` | src/App.js:17-31 | In a table whose rows share no code, first-match finds the only row listing the code and returns its glyph. |
| `WeatherIcon.RowListsItsCondition` | src/App.js:17-28 | Row i lists a code iff the code's WMO condition belongs to row i. |
| `WeatherIcon.IconsDisjoint` | src/App.js:17-28 | No two rows of the icon table share a code. |
| `WeatherIcon.GetWeatherIcon` | src/App.js:16-32 | A known code gets the glyph of its condition's row. The result is "NOT FOUND" iff the code is unknown. The function is total. |
| `WeatherIcon.GetWeatherIconUsesListingRow` | src/App.js:17-31 | Whichever row lists a code, `getWeatherIcon` returns that row's glyph. |
| `WeatherIcon.SharedGlyphExamples` | src/App.js:22-31 | 45 and 48 both give the fog glyph. 96 and 99 both give the hail-storm glyph. |
| `WeatherIcon.UnknownCodeExamples` | src/App.js:29-30 | 4, 100 and -1 give exactly "NOT FOUND". |
| `Forecast.At` | src/App.js:122-124 | `.at(i)` for i >= 0 is defined iff i is within the array, and is then element i. |
| `Forecast.WeatherDays` | src/App.js:119-127 | There is one card per date. Card i has date i and code/max/min from index i, or `undefined` past an array's end. isToday iff i == 0. |
| `Forecast.WeatherDaysRoundTrip` | src/App.js:119-127 | For aligned arrays, reading each column back off the cards gives exactly the original array, with nothing lost or reordered. |
| `Forecast.Floor` | src/App.js:143 | `Math.floor`: the greatest integer not above x. |
| `Forecast.Ceil` | src/App.js:143 | `Math.ceil`: the least integer not below x. |
| `Forecast.IconFor` | src/App.js:139 | An `undefined` code gets "NOT FOUND". A defined code gets `getWeatherIcon`. |
| `Forecast.RenderDay` | src/App.js:135-147 | Today's card is titled "Today" and the others get the formatter's weekday. The low lies within 1 below the minimum and the high within 1 above the maximum. An undefined temperature shows as NaN. |
| `Forecast.RenderDays` | src/App.js:106-147 | There is one card per date. Card 0 is titled "Today" and card i > 0 gets the weekday of date i. Card i shows the icon of code i, the floor of minimum i and the ceiling of maximum i, or NaN past the end of a temperature array. |
| `Forecast.FormatterOnlyLabelsLaterDays` | src/App.js:141 | The first card is "Today" whatever the formatter does. Formatters that agree on dates 1.. render identical lists. |
| `WeatherApp.Utf16Length` | src/App.js:43 | `length` counts UTF-16 units: between \|s\| and 2\|s\|, equal to \|s\| iff no character lies beyond U+FFFF. |
| `WeatherApp.TooShortExactly` | src/App.js:43 | The guard holds exactly for "" and one BMP character. |
| `WeatherApp.FirstPlace` | src/App.js:53-56 | A usable result exists iff the body has a non-empty `results`, and it is `results[0]`. |
| `WeatherApp.WeatherOf` | src/App.js:66 | `setWeather(daily)` never restores the initial "". It stores the body's `daily` when there is one and `undefined` otherwise. |
| `WeatherApp.FetchEffects` | src/App.js:43-73 | A call takes no step iff the query is short. Otherwise it raises the loading flag, requests the geocoding of the query, and lowers the flag as its last step. |
| `WeatherApp.ResolveEffects` | src/App.js:53-66 | No step follows a failed or empty geocoding. Otherwise result 0's name and country are shown, its forecast is requested, and `weather` is set only if a body arrives. No step touches the flag. |
| `WeatherApp.Outcome` | src/App.js:42-76 | A short query leaves everything. Otherwise loading ends false. `displayLocation` changes only after a usable geocoding result, and `weather` only after a forecast body as well. |
| `WeatherApp.FetchReachesOutcome` | src/App.js:42-76 | Running a call's steps in order yields the directly described outcome. A short query changes nothing. Otherwise loading ends false, the first result is shown, and `weather` is replaced only after a forecast body. |
| `WeatherApp.LoadingBracketsTheCall` | src/App.js:43-73 | A call takes no step iff the query is short. Otherwise the first step raises the loading flag, the last lowers it, and no step in between touches it. |
| `WeatherApp.RequestsOfFetch` | src/App.js:43-65 | A short query issues no request. Otherwise the call geocodes the query, then requests a forecast for the first result's coordinates and time zone if there is one. |
| `WeatherApp.ShortQueryIsSkipped` | src/App.js:43 | A query shorter than 2 takes no step and changes no state cell. |
| `WeatherApp.LoadingAlwaysCleared` | src/App.js:44-73 | For a query of length 2 or more, the loading flag is false after the call, whatever the replies. |
| `WeatherApp.GeocodeSuccessShowsFirstResult` | src/App.js:55-66 | After a usable geocoding result, `displayLocation` is [name, country_code] of result 0. `weather` becomes the body's `daily` if the forecast answered, and is unchanged if it failed. |
| `WeatherApp.FailedFetchKeepsContent` | src/App.js:53-70 | A failed geocoding or forecast leaves `weather` unchanged. A failed geocoding also leaves `displayLocation` unchanged. |
| `WeatherApp.FetchKeepsConsistent` | src/App.js:55-73 | A completed call leaves the loading flag down. A non-initial `weather` always comes with a two-part `displayLocation`. |
| `WeatherApp.InitialLocation` | src/App.js:35-37 | The initial location is the stored string when one is stored, and "" otherwise. |
| `WeatherApp.App.Valid` | src/App.js:35-81 | At rest, a loaded `weather` comes with a two-part `displayLocation`. Once mounted, reading the storage back gives the current location. |
| `WeatherApp.App.constructor` | src/App.js:35-40 | The location is read from storage. The other cells start not loading, with an empty `displayLocation` and a `weather` of "". |
| `WeatherApp.App.FetchWeather` | src/App.js:42-76 | Returns exactly the steps `FetchEffects` describes. The cells end as those steps leave them, and nothing else changes. |
| `WeatherApp.App.Mount` | src/App.js:78-81 | The first effect run fetches for the restored location, then stores it. Afterwards the stored value equals the location. |
| `WeatherApp.App.ChangeLocation` | src/App.js:78-95 | A new value is fetched for and stored, even when the fetch was skipped or failed. Re-setting the same value runs nothing. Afterwards the stored value equals the location exactly. |
| `WeatherApp.Reload` | src/App.js:35-37 | An `App` rebuilt from storage starts at the last location typed, including "", with empty cells. |
| `WeatherApp.Render` | src/App.js:87-101 | The input shows `location` and the loader shows iff loading. The list shows iff `weather.weathercode` is present. A `weather` of `undefined` makes the render throw. |
| `WeatherApp.SuccessfulFetchRendersForecast` | src/App.js:55-143 | After a successful call, the page shows result 0's name and country over one card per date and no loader. The first card is titled "Today" and card i > 0 gets the weekday of date i. Card i shows the icon of code i, the floor of minimum i and the ceiling of maximum i. |
| `WeatherApp.MissingDailyBreaksRender` | src/App.js:66-99 | A forecast body without `daily` after a successful geocode makes the next render throw, and with no error boundary the page is lost. |
| `WeatherApp.InitialPageHasNoForecast` | src/App.js:99-101 | The initial "" weather renders no list and no loader. |

## Left out

- The HTTP requests, their JSON parsing and the URL strings. Each request's end is a
  parameter (`GeocodeReply`, `ForecastReply`), and the requests issued are recorded as
  steps rather than sent.
- `RequestsOfFetch`: the recorded geocoding request carries the query itself. The
  source puts the query into the URL without encoding it, so a query containing `&`,
  `#`, `+` or `%` sends a different name to the service. The model does not capture
  this.
- Overlapping `fetchWeather` calls. Each call runs to completion before the next
  starts, so the race in which the last completion wins is not modelled.
- `formatDay`, a wrapper over `Intl.DateTimeFormat`, is an uninterpreted function
  parameter.
- Floating point. Temperatures and coordinates are reals, and NaN, infinities and
  `-0` are not modelled. An `undefined` temperature shows as `None` instead of NaN.
- JSX layout, CSS, the commented-out `getFlagEmoji`, and `handleClick`, whose button
  is commented out.
- Browser storage is the single field `stored`. Failures of storage writes are not
  modelled.
- The value `fetchWeather` returns at line 75 is never used.
- Fields of a geocoding result, and the `daily` arrays other than `weathercode`, are
  always present with the expected types. A missing `time` would make `dates.map`
  throw, and that case is not modelled.
- React scheduling: the effect runs right after the state change that triggers it,
  and only when `location` actually changed.
