/** The page's glue between the normalised forecast and the chart: each
    hourly entry becomes a chart point, with the first one marked as the
    current hour. */
module WeatherApp {
  import opened Wrappers
  import Js
  import WeatherApi
  import TemperatureChart

  /** `chartData`: one point per hourly entry, same time and code, the
      temperature rounded, and only the first point marked current. */
  function ChartData(hourly: seq<WeatherApi.HourlyEntry>): (r: seq<TemperatureChart.Point>)
    ensures |r| == |hourly|
    ensures forall k :: 0 <= k < |r| ==> (r[k].current <==> k == 0)
    ensures forall k :: 0 <= k < |r| ==> r[k].time == hourly[k].time && r[k].code == hourly[k].code
    ensures forall k :: 0 <= k < |r| ==> r[k].temp == Js.Round(hourly[k].temperature)
  {
    seq(|hourly|, k requires 0 <= k < |hourly| =>
      TemperatureChart.Point(hourly[k].time, Js.Round(hourly[k].temperature), hourly[k].code, k == 0))
  }

  /** The indices of the points marked current. */
  function CurrentPoints(points: seq<TemperatureChart.Point>): set<nat> {
    set k: nat | k < |points| && points[k].current
  }

  /** A chart built from a successfully normalised forecast is never empty,
      marks exactly one point as current, and that point is the hour the
      normaliser located: its label is the current slot's "HH:MM" and its
      temperature that slot's, rounded. */
  lemma ChartMarksCurrentHour(f: WeatherApi.Forecast, status: nat, weekday: string -> string, idx: nat)
    requires WeatherApi.Parallel(f)
    requires WeatherApi.IsCurrentIndex(f.hourly.time, WeatherApi.HourKey(f.currentWeather.time), idx)
    ensures var r := WeatherApi.GetWeatherData(Success(WeatherApi.Response(true, status, Success(f))), weekday);
            && r.Success?
            && var chart := ChartData(r.value.hourly);
               && CurrentPoints(chart) == {0}
               && chart[0].time == Js.Slice(f.hourly.time[idx], 11, 16)
               && chart[0].temp == Js.Round(f.hourly.temperature2m[idx])
  {
    var r := WeatherApi.GetWeatherData(Success(WeatherApi.Response(true, status, Success(f))), weekday);
    assert WeatherApi.HasCurrentHour(f);
    var chart := ChartData(r.value.hourly);
    assert |r.value.hourly| > 0;
    assert 0 in CurrentPoints(chart);
  }
}
