# Weather forecast: a verified model of the data transformations

The application looks up a place, fetches a forecast from the Open-Meteo API
and shows it. Apart from rendering and HTTP, its logic is a set of pure
transformations. This project models them in Dafny and proves what they
promise:

- **Weather-code classifier** (`weather_codes.dfy`, module `WeatherCodes`).
  This is the constant table from the WMO "present weather" codes 0..99
  (WMO code table 4677, FM 12 SYNOP) to an icon, a colour and a description.
  Every other code gets the fallback (plain cloud, white, "Unknown weather
  condition"). The table is transcribed row by row and grouped by the WMO
  ranges. Around it sit the accessors `getWeatherIconConfig`,
  `getWeatherCondition`, `getWeatherIconName`, `getWeatherIconColor` and
  `getIconProps`.
- **Forecast normaliser** (`weather_api.dfy`, module `WeatherApi`). This is
  `getWeatherData` once the response is in hand:
  - reject a non-OK status;
  - find the first hourly slot in the current date and hour, and fail hard
    when there is none;
  - cut at most 10 hourly entries from that slot and at most 5 daily entries
    from today;
  - round the temperatures and classify the current code;
  - rethrow every failure as an `Error` that keeps its message.
- **Icon resolution** (`weather_icon.dfy`, module `WeatherIcon`). The table's
  icon name is looked up among the imported lucide components. "Cloudy" is
  an alias of the plain cloud. "Snowflake" (codes 76..78) is not a key, so
  those codes are drawn as the plain cloud.
- **Chart data and axis** (`weather_app.dfy`, `temperature_chart.dfy`). Each
  hourly entry becomes a chart point, and only the first point is marked
  current. The Y domain spans the temperatures with 2 degrees of padding, or
  is 0..30 for no data.
- **Search box** (`weather_search.dfy`, `search_params.dfy`). This covers:
  - the label "name, region, country";
  - the query-parameter update (latitude and longitude only when both are
    non-zero, the name only when non-empty, everything else kept in place),
    which relies on the `set` semantics of the URL standard's
    `URLSearchParams`;
  - the blank-query, lookup, selection and submit transitions.
- **JavaScript built-ins** (`js.dfy`, module `Js`). These are `slice` with
  clamped bounds, `Math.round` (halves go up, so -2.5 becomes -2),
  `String.prototype.trim` with the full ECMAScript whitespace set, truthiness,
  and decimal rendering of the HTTP status.

The fetch is an input to the model: `Result<Response, Thrown>`, where
`Response` has `ok`, `status` and the body read as a whole forecast, or one
value thrown in its place.
Weekday naming and number formatting are function-valued parameters.
Temperatures are `real`.

Where the code's behaviour is easy to misread, the model follows it:
- Every failure is a plain `Error`. Its message is "HTTP error! status: N"
  for a non-OK response, "Unable to determine current time index" when no
  hourly slot matches, or the message of whatever was thrown (the generic
  unknown-error message when that was not an `Error`).
- `Math.round` rounds halves up.
- The search box's lookup treats an empty `results` array as an answer,
  because `if (data.results)` is true for an empty array. It sets the
  dropdown flag (and `aria-expanded`) and clears earlier suggestions, but
  the list is drawn only when the flag is set and there is at least one
  suggestion, so nothing is shown.

## Model

| member | source | states |
|---|---|---|
| `Js.Slice` | lib/weather-api.ts:62 | `slice(from, to)` has length max(0, min(to,len) - min(from,len)) and element k is element from+k of the input |
| `Js.Round` | lib/weather-api.ts:76 | `Math.round(x)` is the integer n with n - 0.5 <= x < n + 0.5 |
| `Js.RoundHalves` | lib/weather-api.ts:71 | 17.5 rounds to 18, -2.5 to -2, -2.6 to -3 |
| `Js.RoundIsUnique` | lib/weather-api.ts:76 | any integer within half a unit below-inclusive of x is Round(x) |
| `Js.TrimStart` | components/WeatherSearch.tsx:55 | the result is a suffix of the input, everything removed is whitespace, and it does not start with whitespace |
| `Js.TrimEnd` | components/WeatherSearch.tsx:55 | the result is a prefix of the input, everything removed is whitespace, and it does not end with whitespace |
| `Js.TrimEmptyIffBlank` | components/WeatherSearch.tsx:55 | `s.trim()` is empty exactly when every character of s is ECMAScript whitespace |
| `Js.NatToString` | lib/weather-api.ts:42 | the rendered status is a non-empty digit string without a leading zero |
| `Js.NatToStringRoundTrip` | lib/weather-api.ts:42 | reading the rendered status back as decimal gives the status |
| `WeatherCodes.RowFacts` | lib/weather-codes.ts:34-154 | a code has a row iff it is in 0..99; each row has a non-cloud icon, a palette colour and a description that is neither empty nor the fallback's; "Cloudy" sits only at 3 and "Snowflake" only at 76..78 |
| `WeatherCodes.ClearSkyRowsAreProper` | lib/weather-codes.ts:36-39 | codes 0..3 each have a proper row |
| `WeatherCodes.AtmosphericRowsAreProper` | lib/weather-codes.ts:42-57 | codes 4..19 each have a proper row |
| `WeatherCodes.RecentWeatherRowsAreProper` | lib/weather-codes.ts:60-69 | codes 20..29 each have a proper row |
| `WeatherCodes.DustSandSnowStormsRowsAreProper` | lib/weather-codes.ts:72-81 | codes 30..39 each have a proper row |
| `WeatherCodes.FogRowsAreProper` | lib/weather-codes.ts:84-93 | codes 40..49 each have a proper row |
| `WeatherCodes.DrizzleRowsAreProper` | lib/weather-codes.ts:96-105 | codes 50..59 each have a proper row |
| `WeatherCodes.RainRowsAreProper` | lib/weather-codes.ts:108-117 | codes 60..69 each have a proper row |
| `WeatherCodes.SnowRowsAreProper` | lib/weather-codes.ts:120-129 | codes 70..79 each have a proper row |
| `WeatherCodes.ShowersRowsAreProper` | lib/weather-codes.ts:132-142 | codes 80..90 each have a proper row |
| `WeatherCodes.ThunderstormRowsAreProper` | lib/weather-codes.ts:145-153 | codes 91..99 each have a proper row |
| `WeatherCodes.GetIconConfig` | lib/weather-codes.ts:161-167 | codes 0..99 get their own row; every other code gets exactly the fallback (Cloud, "#FFFFFF", "Unknown weather condition"); the colour is always present and in the palette |
| `WeatherCodes.Condition` | lib/weather-codes.ts:18-20 | the description is never empty, and it is "Unknown weather condition" exactly for codes outside 0..99 |
| `WeatherCodes.IconName` | lib/weather-codes.ts:174-176 | the icon is the plain cloud exactly outside 0..99, "Cloudy" exactly at 3, "Snowflake" exactly at 76..78 |
| `WeatherCodes.IconColor` | lib/weather-codes.ts:183-185 | the colour is the row's own colour and one of "#E9C46A", "#F4A261", "#FFFFFF", "#E76F51" |
| `WeatherCodes.GetIconProps` | lib/weather-codes.ts:194-209 | the size is always set (default 20); the colour is set iff includeColor (default false) is true, and is then the code's colour |
| `WeatherCodes.AccessorsAgree` | lib/weather-codes.ts:18-20 | condition, icon name and colour are the description, icon and colour of one and the same row |
| `WeatherCodes.FogCodesShareIcon` | lib/weather-codes.ts:84-93 | codes 40..49 all have the fog icon |
| `WeatherCodes.DrizzleCodesShareIcon` | lib/weather-codes.ts:96-105 | codes 50..59 all have the drizzle icon |
| `WeatherCodes.ThunderstormCodesShareIcon` | lib/weather-codes.ts:145-153 | codes 91..99 all have the lightning icon in "#E76F51" |
| `WeatherCodes.HailDescriptionsRepeat` | lib/weather-codes.ts:139-142 | 87 and 89 are both "Slight hail shower", 88 and 90 both "Heavy hail shower", so descriptions do not identify codes |
| `WeatherApi.FindFrom` | lib/weather-api.ts:50-52 | the result is the first slot at or after `from` whose date+hour prefix equals the key, or none when no such slot exists |
| `WeatherApi.CurrentIndex` | lib/weather-api.ts:50-56 | the current index is the first slot in the current hour; there is none exactly when no slot matches |
| `WeatherApi.HourlyWindow` | lib/weather-api.ts:59-65 | length min(10, slots left from the index); entry j has the "HH:MM" characters 11..16 of slot idx+j, its unrounded temperature and its code |
| `WeatherApi.DailyWindow` | lib/weather-api.ts:67-73 | length min(5, days) starting at day 0; entry j has the weekday of day j, its rounded maximum and its code |
| `WeatherApi.Assemble` | lib/weather-api.ts:75-82 | the result is normalised: rounded current temperature, condition of the current code (0 when absent), wind speed as is, humidity at the current index, and both windows |
| `WeatherApi.FailuresKeepTheirMessage` | lib/weather-api.ts:83-86 | whatever the body of the `try` throws, the caller gets an `Error` with the same message when an `Error` was thrown and with the generic unknown-error message otherwise; a result passes through unchanged |
| `WeatherApi.GetWeatherData` | lib/weather-api.ts:29-87 | success iff the fetch went through, the status is OK, the body parsed and some slot is in the current hour; the result is then normalised around the first such slot; otherwise the specific error (fetch or parse error rethrown, "HTTP error! status: N", or "Unable to determine current time index") and no data |
| `WeatherApi.CurrentIndexIsUnique` | lib/weather-api.ts:50-52 | at most one slot is the first one in the current hour |
| `WeatherApi.MinutesAreIgnored` | lib/weather-api.ts:47-52 | changing the current time within the same date and hour does not change the outcome |
| `WeatherApi.AlignmentExample` | lib/weather-api.ts:50-65 | with slots 08:00..23:00 and current time 10:15, the index is 2, the window has 10 entries starting at "10:00", and humidity is read at index 2 |
| `WeatherApi.MisalignedSeriesFails` | lib/weather-api.ts:54-56 | when no slot is in the current hour, an OK response still fails with "Unable to determine current time index" |
| `WeatherIcon.ResolveTableIcon` | components/WeatherIcon.tsx:21-37 | every table icon resolves to the component of the same name, except Cloud, Cloudy and Snowflake, which resolve to the plain cloud; only Snowflake is missing from the keys |
| `WeatherIcon.Render` | components/WeatherIcon.tsx:53-71 | the glyph is the component for the code's icon name; the colour is always the code's table colour; size, stroke width and class default to 20, 2 and "" and are otherwise passed through |
| `WeatherIcon.PlainCloudCodes` | components/WeatherIcon.tsx:59-60 | the plain cloud is drawn exactly for code 3, codes 76..78 and codes outside 0..99; every other code gets the component named like its icon |
| `WeatherApp.ChartData` | components/WeatherApp.tsx:15-20 | one point per hourly entry with the same time and code, the temperature rounded, and `current` true exactly at index 0 |
| `WeatherApp.ChartMarksCurrentHour` | components/WeatherApp.tsx:19 | a chart built from a successful forecast marks exactly one point current, and that point carries the "HH:MM" and rounded temperature of the located current slot |
| `TemperatureChart.SeqMin` | components/TemperatureChart.tsx:86 | the minimum is one of the temperatures and no temperature is below it |
| `TemperatureChart.SeqMax` | components/TemperatureChart.tsx:87 | the maximum is one of the temperatures and no temperature is above it |
| `TemperatureChart.Domain` | components/TemperatureChart.tsx:82-90 | no data gives [0, 30]; otherwise every temperature lies in [lo + 2, hi - 2], both bounds are reached, and hi - lo >= 4 in all cases |
| `SearchParams.Set` | components/WeatherSearch.tsx:40-41 | after `set(name, value)`, `get(name)` is value, name occurs once, pairs under other names are unchanged and in order, and an absent name is appended; `SearchParams.SetInPlace` adds that an existing pair is updated in place at its first occurrence |
| `SearchParams.SetInPlace` | components/WeatherSearch.tsx:40-45 | when the name is present, `set` overwrites its first pair in place, keeps every pair before it, and removes later pairs with that name |
| `SearchParams.SetFrame` | components/WeatherSearch.tsx:37-48 | dropping any set of names that includes the updated one leaves the parameter list unchanged |
| `SearchParams.SetKeepsOtherNames` | components/WeatherSearch.tsx:37-48 | `set` does not change `get` for any other name |
| `WeatherSearch.Label` | components/WeatherSearch.tsx:84-86 | the label starts with the name; ", region" and then ", country" follow, each only when non-empty; it is the bare name when both are absent or empty |
| `WeatherSearch.NameFromLabel` | components/WeatherSearch.tsx:84-86 | for a name without commas, the text before the label's first comma is the name |
| `WeatherSearch.LocationSelect` | components/WeatherSearch.tsx:37-48 | latitude and longitude are written only when both are non-zero (else the old values stay); the name only when non-empty; all other parameters are kept in place |
| `WeatherSearch.SelectSuggestion` | components/WeatherSearch.tsx:83-98 | the query becomes "", the label that of the place, the dropdown closes, the suggestions are cleared, focus is untouched, and the URL parameters move to the place |
| `WeatherSearch.SelectedNameReachesUrl` | components/WeatherSearch.tsx:44-46 | a place with a non-empty name always puts its label into `locationName` |
| `WeatherSearch.LookupQuery` | components/WeatherSearch.tsx:54-76 | a blank query clears suggestions and closes the dropdown; otherwise a `results` field replaces the suggestions and opens the dropdown; a failure or a missing field changes nothing |
| `WeatherSearch.Submit` | components/WeatherSearch.tsx:100-126 | a blank query is a no-op; otherwise the first suggestion is chosen without a lookup, else the first result of the lookup, else nothing changes |
| `WeatherSearch.SubmitSettles` | components/WeatherSearch.tsx:88 | after a submit that chose a place, submitting again changes nothing, whatever the lookup answers |
| `WeatherSearch.BlankQueryIgnoresAnswer` | components/WeatherSearch.tsx:55-58 | for a blank query the lookup's answer is never consulted |

## Left out

- HTTP requests and caching: the forecast request, its URL and the 300-second
  revalidation hint are not modelled, and neither are the two geocoding
  requests (`count=5` while typing, `count=1` on submit). Their outcomes are
  inputs.
- Date parsing and timezone correction (lib/weather-api.ts:47-48): the
  current hour key is taken to be the first 13 characters of
  `current_weather.time`. This is what the host-timezone correction aims
  for. The `RangeError` an unparsable time would raise in `toISOString` is
  not modelled.
- Weekday naming (`new Date(day).toLocaleDateString("en-US", {weekday:
  "long"})`) depends on the host timezone. A date-only string such as
  "2024-01-01" is read as UTC midnight and then formatted in the host's
  zone, so a host west of UTC names the previous day ("Sunday" rather than
  "Monday" in America/New_York). `Number.prototype.toString` for
  coordinates depends on float formatting. They are the function
  parameters `weekday` and `show`.
- Floating point: temperatures, wind speed and coordinates are `real`.
  `Math.round` is `Floor(x + 0.5)`. `NaN` (also falsy in the coordinate
  check) is not modelled.
- Weather codes are `int`. The source also sends non-integer numbers (for
  example 1.5) to the fallback, because they are not keys of the table.
- WeatherApi.GetWeatherData: requires the provider's parallel arrays to have
  equal lengths once an OK response's body was read. When a value array is
  shorter than its `time` array, the source reads `undefined` out of bounds
  and puts it into the result; a longer one is harmless.
- WeatherApi.GetWeatherData: a malformed body is one failure decided before
  normalising, whereas the source fails lazily at the first property it
  reads. So the model does not reproduce a body without `daily` and with no
  current slot (the source reports "Unable to determine current time
  index"), one without `daily.weathercode` but with an empty `daily.time`
  (the source succeeds), or one without `current_weather.windspeed` (the
  source succeeds with `undefined`). It also does not model the missing hour
  when clocks spring forward: there the host-timezone correction at
  lib/weather-api.ts:47-48 yields the next hour's key, while the model uses
  the first 13 characters of `current_weather.time`.
- `null` entries inside the hourly and daily arrays are not modelled; only
  the current weather code may be absent (`?? 0`).
- `console.error` logging in the catch blocks.
- The search box's focus, blur, change and key-down handlers, the input
  width, the debounce timer and effect scheduling, `replace` navigation and
  the serialisation of the query string.
- Rendering: all JSX, the recharts markup, WeatherDisplay, WeatherForecast,
  the app layout, error and not-found pages.
- app/page.tsx and app/api/weather/route.ts: parsing query strings with
  `parseFloat` and the default location.
