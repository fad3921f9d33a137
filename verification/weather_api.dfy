/** The forecast normaliser `getWeatherData`, from the moment the provider's
    response is in hand: locate the current hour in the hourly series, cut a
    bounded hourly window starting there and a bounded daily window starting
    at today, read the current conditions, and turn every failure into an
    error carrying a message. */
module WeatherApi {
  import opened Wrappers
  import Js
  import WeatherCodes

  /** Length of the hourly window (`HOURLY_FORECAST_HOURS`). */
  const HourlyForecastHours: nat := 10
  /** Length of the daily window (`DAILY_FORECAST_DAYS`). */
  const DailyForecastDays: nat := 5

  /** `ERROR_MESSAGES.UNKNOWN_ERROR`. */
  const UnknownErrorMessage := "An unexpected error occurred. Please try again."
  const NoCurrentIndexMessage := "Unable to determine current time index"
  const HttpErrorPrefix := "HTTP error! status: "

  /** Length of the "YYYY-MM-DDTHH" prefix identifying an hour. */
  const HourKeyLength: nat := 13

  // ---------------------------------------------------------------------
  // The normalised forecast

  datatype HourlyEntry = HourlyEntry(time: string, temperature: real, code: int)

  datatype DailyEntry = DailyEntry(day: string, temp: int, code: int)

  datatype WeatherData = WeatherData(
    temperature: int,
    condition: string,
    windSpeed: real,
    humidity: int,
    hourly: seq<HourlyEntry>,
    daily: seq<DailyEntry>)

  // ---------------------------------------------------------------------
  // The provider's payload, as parallel arrays

  datatype CurrentWeather = CurrentWeather(temperature: real, weathercode: Option<int>, windspeed: real, time: string)

  datatype HourlySeries = HourlySeries(time: seq<string>, temperature2m: seq<real>, weathercode: seq<int>, relativeHumidity2m: seq<int>)

  datatype DailySeries = DailySeries(time: seq<string>, temperature2mMax: seq<real>, weathercode: seq<int>)

  datatype Forecast = Forecast(currentWeather: CurrentWeather, hourly: HourlySeries, daily: DailySeries)

  /** A value thrown inside the normaliser: an `Error` object with its
      message, or anything else. */
  datatype Thrown = ErrorObject(message: string) | OtherValue

  /** The HTTP response: its status and its JSON body read as a whole
      forecast, or the one value thrown in its place. (The normaliser itself
      reads the body field by field and fails at the first missing one.) */
  datatype Response = Response(ok: bool, status: nat, json: Result<Forecast, Thrown>)

  /** The `Error` the normaliser rejects with. */
  datatype Error = Error(message: string)

  /** The provider's parallel arrays have matching lengths. */
  predicate Parallel(f: Forecast) {
    && |f.hourly.temperature2m| == |f.hourly.time|
    && |f.hourly.weathercode| == |f.hourly.time|
    && |f.hourly.relativeHumidity2m| == |f.hourly.time|
    && |f.daily.temperature2mMax| == |f.daily.time|
    && |f.daily.weathercode| == |f.daily.time|
  }

  // ---------------------------------------------------------------------
  // Locating the current hour

  /** The date-and-hour prefix of a timestamp. */
  function HourKey(time: string): string {
    Js.Slice(time, 0, HourKeyLength)
  }

  /** `idx` is the first hourly slot in the same hour as `key`. */
  ghost predicate IsCurrentIndex(times: seq<string>, key: string, idx: int) {
    && 0 <= idx < |times|
    && HourKey(times[idx]) == key
    && forall j :: 0 <= j < idx ==> HourKey(times[j]) != key
  }

  /** The first slot at or after `from` whose hour key is `key`, if any
      (`findIndex`). */
  function FindFrom(times: seq<string>, key: string, from: nat): (r: Option<nat>)
    requires from <= |times|
    ensures r.Some? ==> from <= r.value < |times| && HourKey(times[r.value]) == key
    ensures r.Some? ==> forall j :: from <= j < r.value ==> HourKey(times[j]) != key
    ensures r.None? ==> forall j :: from <= j < |times| ==> HourKey(times[j]) != key
    decreases |times| - from
  {
    if from == |times| then None
    else if HourKey(times[from]) == key then Some(from)
    else FindFrom(times, key, from + 1)
  }

  /** The current-time index: the first slot in the hour of `key`, or none
      when no slot is. */
  function CurrentIndex(times: seq<string>, key: string): (r: Option<nat>)
    ensures r.Some? ==> IsCurrentIndex(times, key, r.value)
    ensures r.None? <==> forall j :: 0 <= j < |times| ==> HourKey(times[j]) != key
  {
    FindFrom(times, key, 0)
  }

  // ---------------------------------------------------------------------
  // Assembling the result

  /** What the normalised forecast holds, given the current index: rounded
      current temperature, the current code's description (code 0 when
      absent), wind speed as is, humidity at the current index, at most ten
      hourly entries starting at the current index, and at most five daily
      entries starting at today. */
  ghost predicate Normalized(w: WeatherData, f: Forecast, idx: nat, weekday: string -> string)
    requires Parallel(f) && idx < |f.hourly.time|
  {
    && w.temperature == Js.Round(f.currentWeather.temperature)
    && w.condition == WeatherCodes.Condition(f.currentWeather.weathercode.GetOr(0))
    && w.windSpeed == f.currentWeather.windspeed
    && w.humidity == f.hourly.relativeHumidity2m[idx]
    && |w.hourly| == Js.Min(HourlyForecastHours, |f.hourly.time| - idx)
    && (forall j :: 0 <= j < |w.hourly| ==>
          w.hourly[j] == HourlyEntry(Js.Slice(f.hourly.time[idx + j], 11, 16),
                                     f.hourly.temperature2m[idx + j],
                                     f.hourly.weathercode[idx + j]))
    && |w.daily| == Js.Min(DailyForecastDays, |f.daily.time|)
    && (forall j :: 0 <= j < |w.daily| ==>
          w.daily[j] == DailyEntry(weekday(f.daily.time[j]),
                                   Js.Round(f.daily.temperature2mMax[j]),
                                   f.daily.weathercode[j]))
  }

  /** The hourly window: `time.slice(idx, idx + 10).map(...)`. */
  function HourlyWindow(h: HourlySeries, idx: nat): (r: seq<HourlyEntry>)
    requires |h.temperature2m| == |h.time| && |h.weathercode| == |h.time|
    requires idx < |h.time|
    ensures |r| == Js.Min(HourlyForecastHours, |h.time| - idx)
    ensures forall j :: 0 <= j < |r| ==> r[j].time == Js.Slice(h.time[idx + j], 11, 16)
    ensures forall j :: 0 <= j < |r| ==> r[j].temperature == h.temperature2m[idx + j]
    ensures forall j :: 0 <= j < |r| ==> r[j].code == h.weathercode[idx + j]
  {
    var times := Js.Slice(h.time, idx, idx + HourlyForecastHours);
    seq(|times|, j requires 0 <= j < |times| =>
      HourlyEntry(Js.Slice(times[j], 11, 16), h.temperature2m[idx + j], h.weathercode[idx + j]))
  }

  /** The daily window: `time.slice(0, 5).map(...)`. */
  function DailyWindow(d: DailySeries, weekday: string -> string): (r: seq<DailyEntry>)
    requires |d.temperature2mMax| == |d.time| && |d.weathercode| == |d.time|
    ensures |r| == Js.Min(DailyForecastDays, |d.time|)
    ensures forall j :: 0 <= j < |r| ==> r[j].day == weekday(d.time[j])
    ensures forall j :: 0 <= j < |r| ==> r[j].temp == Js.Round(d.temperature2mMax[j])
    ensures forall j :: 0 <= j < |r| ==> r[j].code == d.weathercode[j]
  {
    var days := Js.Slice(d.time, 0, DailyForecastDays);
    seq(|days|, j requires 0 <= j < |days| =>
      DailyEntry(weekday(days[j]), Js.Round(d.temperature2mMax[j]), d.weathercode[j]))
  }

  /** The result record for a parsed forecast and its current index. */
  function Assemble(f: Forecast, idx: nat, weekday: string -> string): (w: WeatherData)
    requires Parallel(f) && idx < |f.hourly.time|
    ensures Normalized(w, f, idx, weekday)
  {
    WeatherData(
      Js.Round(f.currentWeather.temperature),
      WeatherCodes.Condition(f.currentWeather.weathercode.GetOr(0)),
      f.currentWeather.windspeed,
      f.hourly.relativeHumidity2m[idx],
      HourlyWindow(f.hourly, idx),
      DailyWindow(f.daily, weekday))
  }

  // ---------------------------------------------------------------------
  // The whole call

  /** The payload's arrays are parallel whenever the normaliser reads it:
      the response is OK and its body was read. */
  predicate WellShaped(fetched: Result<Response, Thrown>) {
    fetched.Success? && fetched.value.ok && fetched.value.json.Success? ==> Parallel(fetched.value.json.value)
  }

  /** The body of the `try`: either the normalised forecast or what was
      thrown. */
  function Attempt(fetched: Result<Response, Thrown>, weekday: string -> string): Result<WeatherData, Thrown>
    requires WellShaped(fetched)
  {
    if fetched.Failure? then Failure(fetched.error)
    else if !fetched.value.ok then Failure(ErrorObject(HttpErrorPrefix + Js.NatToString(fetched.value.status)))
    else if fetched.value.json.Failure? then Failure(fetched.value.json.error)
    else
      var f := fetched.value.json.value;
      match CurrentIndex(f.hourly.time, HourKey(f.currentWeather.time))
      case None => Failure(ErrorObject(NoCurrentIndexMessage))
      case Some(idx) => Success(Assemble(f, idx, weekday))
  }

  /** The `catch`: an `Error` keeps its message, anything else becomes the
      generic message. */
  function Rethrow(t: Thrown): Error {
    match t
    case ErrorObject(m) => Error(m)
    case OtherValue => Error(UnknownErrorMessage)
  }

  /** The provider's answer holds an hourly slot in the current hour. */
  ghost predicate HasCurrentHour(f: Forecast) {
    exists j :: 0 <= j < |f.hourly.time| && HourKey(f.hourly.time[j]) == HourKey(f.currentWeather.time)
  }

  /** `getWeatherData` after the fetch. `fetched` is the outcome of the
      request, `weekday` the en-US long weekday name of a date string. The
      call succeeds exactly when the request went through with an OK status,
      the body parsed, and some hourly slot is in the current hour; it then
      returns the forecast normalised around the first such slot, and
      otherwise an error that never carries partial data. */
  function GetWeatherData(fetched: Result<Response, Thrown>, weekday: string -> string): (r: Result<WeatherData, Error>)
    requires WellShaped(fetched)
    ensures r.Success? <==>
              && fetched.Success? && fetched.value.ok && fetched.value.json.Success?
              && HasCurrentHour(fetched.value.json.value)
    ensures r.Success? ==>
              var f := fetched.value.json.value;
              forall idx :: IsCurrentIndex(f.hourly.time, HourKey(f.currentWeather.time), idx) ==>
                Normalized(r.value, f, idx, weekday)
    ensures fetched.Failure? ==> r == Failure(Rethrow(fetched.error))
    ensures fetched.Success? && !fetched.value.ok ==>
              r == Failure(Error(HttpErrorPrefix + Js.NatToString(fetched.value.status)))
    ensures fetched.Success? && fetched.value.ok && fetched.value.json.Failure? ==>
              r == Failure(Rethrow(fetched.value.json.error))
    ensures fetched.Success? && fetched.value.ok && fetched.value.json.Success?
            && !HasCurrentHour(fetched.value.json.value) ==>
              r == Failure(Error(NoCurrentIndexMessage))
  {
    match Attempt(fetched, weekday)
    case Success(w) => Success(w)
    case Failure(t) => Failure(Rethrow(t))
  }

  // ---------------------------------------------------------------------
  // Properties

  /** Every failure inside the `try` surfaces with its message: a thrown
      `Error` keeps its own, anything else gets the generic message, and a
      result passes through untouched. */
  lemma FailuresKeepTheirMessage(fetched: Result<Response, Thrown>, weekday: string -> string)
    requires WellShaped(fetched)
    ensures var a := Attempt(fetched, weekday);
            a.Failure? && a.error.ErrorObject? ==>
              GetWeatherData(fetched, weekday) == Failure(Error(a.error.message))
    ensures Attempt(fetched, weekday) == Failure(OtherValue) ==>
              GetWeatherData(fetched, weekday) == Failure(Error(UnknownErrorMessage))
    ensures Attempt(fetched, weekday).Success? ==>
              GetWeatherData(fetched, weekday) == Success(Attempt(fetched, weekday).value)
  {
  }

  /** At most one slot can be the current-time index. */
  lemma CurrentIndexIsUnique(times: seq<string>, key: string, i: int, j: int)
    requires IsCurrentIndex(times, key, i) && IsCurrentIndex(times, key, j)
    ensures i == j
  {
  }

  /** Only the date and hour of the current time matter: two answers that
      differ only in the minutes of `current_weather.time` normalise alike. */
  lemma MinutesAreIgnored(r: Response, time: string, weekday: string -> string)
    requires r.json.Success? && Parallel(r.json.value)
    requires HourKey(time) == HourKey(r.json.value.currentWeather.time)
    ensures var moved := r.(json := Success(r.json.value.(currentWeather := r.json.value.currentWeather.(time := time))));
            GetWeatherData(Success(moved), weekday) == GetWeatherData(Success(r), weekday)
  {
  }

  /** The hourly series of a worked example: 08:00 through 23:00 of one day. */
  const ExampleHours: seq<string> := ["2024-01-01T08:00", "2024-01-01T09:00", "2024-01-01T10:00", "2024-01-01T11:00", "2024-01-01T12:00", "2024-01-01T13:00", "2024-01-01T14:00", "2024-01-01T15:00", "2024-01-01T16:00", "2024-01-01T17:00", "2024-01-01T18:00", "2024-01-01T19:00", "2024-01-01T20:00", "2024-01-01T21:00", "2024-01-01T22:00", "2024-01-01T23:00"]

  /** With that series and a current time of 10:15, the current index is the
      10:00 slot (index 2), the hourly window is the full ten hours and
      starts at "10:00", and the humidity is read at index 2. */
  lemma AlignmentExample(f: Forecast, weekday: string -> string)
    requires Parallel(f)
    requires f.hourly.time == ExampleHours
    requires f.currentWeather.time == "2024-01-01T10:15"
    ensures var r := GetWeatherData(Success(Response(true, 200, Success(f))), weekday);
            && r.Success?
            && |r.value.hourly| == HourlyForecastHours
            && r.value.hourly[0].time == "10:00"
            && r.value.humidity == f.hourly.relativeHumidity2m[2]
  {
    var key := HourKey(f.currentWeather.time);
    assert key == "2024-01-01T10";
    assert HourKey(ExampleHours[0]) == "2024-01-01T08";
    assert HourKey(ExampleHours[1]) == "2024-01-01T09";
    assert HourKey(ExampleHours[2]) == key;
    assert IsCurrentIndex(f.hourly.time, key, 2);
    assert Js.Slice(ExampleHours[2], 11, 16) == "10:00";
  }

  /** A series that starts a day after the current time has no current
      slot, so the call fails with the alignment error. */
  lemma MisalignedSeriesFails(f: Forecast, weekday: string -> string)
    requires Parallel(f)
    requires forall j :: 0 <= j < |f.hourly.time| ==> HourKey(f.hourly.time[j]) != HourKey(f.currentWeather.time)
    ensures GetWeatherData(Success(Response(true, 200, Success(f))), weekday) == Failure(Error(NoCurrentIndexMessage))
  {
  }
}
