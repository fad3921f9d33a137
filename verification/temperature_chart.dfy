/** The hourly temperature chart's vertical axis: the Y domain spans the
    plotted temperatures with two degrees of padding on either side, or
    0..30 when there is nothing to plot. */
module TemperatureChart {

  /** A chart point (`Point`). */
  datatype Point = Point(time: string, temp: int, code: int, current: bool)

  /** `CHART_CONFIG.TEMP_PADDING`. */
  const TempPadding: int := 2

  /** The domain used when there are no points. */
  const EmptyDomain: (int, int) := (0, 30)

  /** `Math.min(...s)` for a non-empty list. */
  function SeqMin(s: seq<int>): (m: int)
    requires |s| > 0
    ensures forall k :: 0 <= k < |s| ==> m <= s[k]
    ensures exists k :: 0 <= k < |s| && s[k] == m
  {
    if |s| == 1 then s[0]
    else
      var rest := SeqMin(s[1..]);
      assert forall k :: 1 <= k < |s| ==> s[1..][k - 1] == s[k];
      if s[0] <= rest then s[0] else rest
  }

  /** `Math.max(...s)` for a non-empty list. */
  function SeqMax(s: seq<int>): (m: int)
    requires |s| > 0
    ensures forall k :: 0 <= k < |s| ==> s[k] <= m
    ensures exists k :: 0 <= k < |s| && s[k] == m
  {
    if |s| == 1 then s[0]
    else
      var rest := SeqMax(s[1..]);
      assert forall k :: 1 <= k < |s| ==> s[1..][k - 1] == s[k];
      if s[0] >= rest then s[0] else rest
  }

  function Temps(data: seq<Point>): seq<int> {
    seq(|data|, k requires 0 <= k < |data| => data[k].temp)
  }

  /** The Y domain `[lo, hi]`: 0..30 for no data; otherwise the coldest
      point sits exactly two degrees above `lo` and the warmest exactly two
      below `hi`, so every point is inside the domain and the domain is at
      least four degrees wide. */
  function Domain(data: seq<Point>): (r: (int, int))
    ensures |data| == 0 ==> r == EmptyDomain
    ensures |data| > 0 ==> forall k :: 0 <= k < |data| ==> r.0 + TempPadding <= data[k].temp <= r.1 - TempPadding
    ensures |data| > 0 ==> exists k :: 0 <= k < |data| && data[k].temp == r.0 + TempPadding
    ensures |data| > 0 ==> exists k :: 0 <= k < |data| && data[k].temp == r.1 - TempPadding
    ensures r.0 + 2 * TempPadding <= r.1
  {
    if |data| == 0 then EmptyDomain
    else
      var temps := Temps(data);
      assert |temps| == |data| && forall k :: 0 <= k < |data| ==> temps[k] == data[k].temp;
      (SeqMin(temps) - TempPadding, SeqMax(temps) + TempPadding)
  }
}
