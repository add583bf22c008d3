/** The front end's display logic: choosing the unit a bit rate is shown in,
    and the sliding window of points kept on the traffic chart. */
module Chart {

  /** Most points the chart keeps. */
  const MAX_DATA_POINTS: nat := 60

  datatype BitrateUnit = Bps | Kbps | Mbps | Gbps

  /** Position of a unit in the order bps < Kbps < Mbps < Gbps. */
  function Rank(u: BitrateUnit): nat
  {
    match u
    case Bps => 0
    case Kbps => 1
    case Mbps => 2
    case Gbps => 3
  }

  /** The number a value in unit `u` is divided by before it is shown. */
  function Divisor(u: BitrateUnit): int
  {
    match u
    case Bps => 1
    case Kbps => 1000
    case Mbps => 1000000
    case Gbps => 1000000000
  }

  /** The unit formatBitrate picks for a (rounded, integer) bit rate. */
  function UnitFor(bits: int): (u: BitrateUnit)
    ensures u == Bps <==> bits < 1000
    ensures u == Kbps <==> 1000 <= bits < 1000000
    ensures u == Mbps <==> 1000000 <= bits < 1000000000
    ensures u == Gbps <==> 1000000000 <= bits
  {
    if bits < 1000 then Bps
    else if bits < 1000000 then Kbps
    else if bits < 1000000000 then Mbps
    else Gbps
  }

  /** A larger bit rate never gets a smaller unit. */
  lemma UnitForMonotone(a: int, b: int)
    requires a <= b
    ensures Rank(UnitFor(a)) <= Rank(UnitFor(b))
  {
  }

  /** For a non-negative rate, the exact quotient bits / Divisor(UnitFor(bits))
      is below 1000 outside Gbps, the largest unit, and at least 1 outside bps.
      This bounds the quotient, not the string shown after toFixed(2). */
  lemma ShownValueInRange(bits: int)
    requires bits >= 0
    ensures UnitFor(bits) != Gbps ==> bits < 1000 * Divisor(UnitFor(bits))
    ensures UnitFor(bits) != Bps ==> Divisor(UnitFor(bits)) <= bits
  {
  }

  // ---------------------------------------------------------------------------
  // The sliding window

  /** Array.prototype.shift's effect on an array: drop the first element, if any. */
  function Shift<T>(s: seq<T>): (r: seq<T>)
    ensures s == [] ==> r == []
    ensures s != [] ==> [s[0]] + r == s
  {
    if s == [] then s else s[1..]
  }

  /** The chart's data: one label per point, and one series per dataset
      (download first, upload second). */
  datatype Window = Window(labels: seq<string>, datasets: seq<seq<real>>)

  /** Every series has one value per label. */
  predicate Aligned(w: Window)
  {
    forall i :: 0 <= i < |w.datasets| ==> |w.datasets[i]| == |w.labels|
  }

  /** The window after addDataToChart: the label and the two values are
      appended, and when the labels then exceed MAX_DATA_POINTS the first
      entry is shifted off the labels and off every series. */
  function AddPoint(w: Window, pointLabel: string, rx: real, tx: real): (v: Window)
    requires |w.datasets| >= 2
    ensures |v.datasets| == |w.datasets|
  {
    var labels := w.labels + [pointLabel];
    var pushed := w.datasets[0 := w.datasets[0] + [rx]][1 := w.datasets[1] + [tx]];
    if |labels| > MAX_DATA_POINTS then
      Window(labels[1..], seq(|pushed|, i requires 0 <= i < |pushed| => Shift(pushed[i])))
    else
      Window(labels, pushed)
  }

  /** The new label ends up last; without overflow nothing else changes. */
  lemma AddPointAppends(w: Window, pointLabel: string, rx: real, tx: real)
    requires |w.datasets| >= 2
    ensures var v := AddPoint(w, pointLabel, rx, tx);
            |v.datasets| == |w.datasets| && v.labels != [] && v.labels[|v.labels| - 1] == pointLabel
    ensures var v := AddPoint(w, pointLabel, rx, tx);
            |w.labels| < MAX_DATA_POINTS ==>
              v.labels == w.labels + [pointLabel] &&
              v.datasets[0] == w.datasets[0] + [rx] &&
              v.datasets[1] == w.datasets[1] + [tx] &&
              forall i :: 2 <= i < |w.datasets| ==> v.datasets[i] == w.datasets[i]
  {
  }

  /** On overflow exactly the oldest entry leaves the labels and every series,
      and the two series get their new value at the end. */
  lemma AddPointDropsOldest(w: Window, pointLabel: string, rx: real, tx: real)
    requires |w.datasets| >= 2 && |w.labels| >= MAX_DATA_POINTS
    ensures var v := AddPoint(w, pointLabel, rx, tx);
            v.labels == w.labels[1..] + [pointLabel] &&
            v.datasets[0] == Shift(w.datasets[0] + [rx]) &&
            v.datasets[1] == Shift(w.datasets[1] + [tx]) &&
            forall i :: 2 <= i < |w.datasets| ==> v.datasets[i] == Shift(w.datasets[i])
  {
  }

  /** The window never grows past MAX_DATA_POINTS labels once within it. */
  lemma AddPointBounded(w: Window, pointLabel: string, rx: real, tx: real)
    requires |w.datasets| >= 2 && |w.labels| <= MAX_DATA_POINTS
    ensures |AddPoint(w, pointLabel, rx, tx).labels| <= MAX_DATA_POINTS
  {
  }

  /** With the chart's two series, equal lengths stay equal, and each series'
      last value is the one just added. */
  lemma AddPointKeepsAligned(w: Window, pointLabel: string, rx: real, tx: real)
    requires |w.datasets| == 2 && Aligned(w)
    ensures var v := AddPoint(w, pointLabel, rx, tx);
            Aligned(v) && |v.datasets| == 2 &&
            v.datasets[0][|v.datasets[0]| - 1] == rx && v.datasets[1][|v.datasets[1]| - 1] == tx
  {
    var v := AddPoint(w, pointLabel, rx, tx);
    if |w.labels| + 1 > MAX_DATA_POINTS {
      assert v.datasets[0] == (w.datasets[0] + [rx])[1..];
      assert v.datasets[1] == (w.datasets[1] + [tx])[1..];
    }
  }

  /** One call of addDataToChart: its label and its two values. */
  datatype Point = Point(pointLabel: string, rx: real, tx: real)

  /** The chart as first drawn: no labels, a download and an upload series. */
  const EMPTY_CHART: Window := Window([], [[], []])

  /** The window after adding `points` in order, one call per point. */
  function AddAll(w: Window, points: seq<Point>): (v: Window)
    requires |w.datasets| >= 2
    ensures |v.datasets| == |w.datasets|
    decreases |points|
  {
    if points == [] then w
    else
      var p := points[|points| - 1];
      AddPoint(AddAll(w, points[..|points| - 1]), p.pointLabel, p.rx, p.tx)
  }

  /** The last MAX_DATA_POINTS entries of `s` (all of it when shorter). */
  function Latest<T>(s: seq<T>): (r: seq<T>)
    ensures |r| <= MAX_DATA_POINTS && |r| <= |s|
    ensures r == s[|s| - |r|..]
    ensures |s| <= MAX_DATA_POINTS ==> r == s
    ensures |s| > MAX_DATA_POINTS ==> |r| == MAX_DATA_POINTS
  {
    if |s| <= MAX_DATA_POINTS then s else s[|s| - MAX_DATA_POINTS..]
  }

  function Labels(points: seq<Point>): seq<string>
  {
    seq(|points|, i requires 0 <= i < |points| => points[i].pointLabel)
  }

  function Downloads(points: seq<Point>): seq<real>
  {
    seq(|points|, i requires 0 <= i < |points| => points[i].rx)
  }

  function Uploads(points: seq<Point>): seq<real>
  {
    seq(|points|, i requires 0 <= i < |points| => points[i].tx)
  }

  /** `s` with `x` appended, and its first entry then dropped when `overflow`. */
  function Slid<T>(s: seq<T>, x: T, overflow: bool): seq<T>
  {
    if overflow then (s + [x])[1..] else s + [x]
  }

  /** On the chart's two series, one call slides the labels and both series
      by the same step. */
  lemma AddPointOnTwoSeries(w: Window, pointLabel: string, rx: real, tx: real)
    requires |w.datasets| == 2
    ensures var overflow := |w.labels| + 1 > MAX_DATA_POINTS;
            AddPoint(w, pointLabel, rx, tx) ==
              Window(Slid(w.labels, pointLabel, overflow),
                     [Slid(w.datasets[0], rx, overflow), Slid(w.datasets[1], tx, overflow)])
  {
    var v := AddPoint(w, pointLabel, rx, tx);
    var overflow := |w.labels| + 1 > MAX_DATA_POINTS;
    assert v.datasets == [Slid(w.datasets[0], rx, overflow), Slid(w.datasets[1], tx, overflow)];
  }

  /** Sliding the latest window of `s` by `x` gives the latest window of `s + [x]`. */
  lemma LatestSlides<T>(s: seq<T>, x: T)
    ensures Latest(s + [x]) == Slid(Latest(s), x, |s| + 1 > MAX_DATA_POINTS)
  {
    if |s| + 1 > MAX_DATA_POINTS {
      assert (s + [x])[|s| + 1 - MAX_DATA_POINTS..] == s[|s| + 1 - MAX_DATA_POINTS..] + [x];
      if |s| > MAX_DATA_POINTS {
        assert (Latest(s) + [x])[1..] == s[|s| - MAX_DATA_POINTS + 1..] + [x];
      } else {
        assert (Latest(s) + [x])[1..] == s[1..] + [x];
      }
    }
  }

  /** The labels and series of `points` end with those of its last point. */
  lemma ProjectionsSnoc(points: seq<Point>)
    requires points != []
    ensures var n := |points| - 1;
            Labels(points) == Labels(points[..n]) + [points[n].pointLabel] &&
            Downloads(points) == Downloads(points[..n]) + [points[n].rx] &&
            Uploads(points) == Uploads(points[..n]) + [points[n].tx]
  {
  }

  /** Whatever was added to a fresh chart, it shows exactly the latest
      MAX_DATA_POINTS labels, and each series the matching latest values. */
  lemma {:induction false} AddAllKeepsLatest(points: seq<Point>)
    ensures var v := AddAll(EMPTY_CHART, points);
            v.labels == Latest(Labels(points)) &&
            v.datasets == [Latest(Downloads(points)), Latest(Uploads(points))]
  {
    if points != [] {
      var n := |points| - 1;
      var prefix, p := points[..n], points[n];
      var w := AddAll(EMPTY_CHART, prefix);
      assert AddAll(EMPTY_CHART, points) == AddPoint(w, p.pointLabel, p.rx, p.tx);
      AddAllKeepsLatest(prefix);
      assert |Labels(prefix)| == n;
      AddPointOnTwoSeries(w, p.pointLabel, p.rx, p.tx);
      ProjectionsSnoc(points);
      LatestSlides(Labels(prefix), p.pointLabel);
      LatestSlides(Downloads(prefix), p.rx);
      LatestSlides(Uploads(prefix), p.tx);
    }
  }

  /** The chart's data, whose arrays addDataToChart updates in place. */
  class ChartData {
    var labels: seq<string>
    var datasets: seq<seq<real>>

    function View(): Window
      reads this
    {
      Window(labels, datasets)
    }

    /** An empty chart with the download and the upload series. */
    constructor ()
      ensures View() == EMPTY_CHART
    {
      labels, datasets := [], [[], []];
    }

    /** addDataToChart: push the label and the two values, then on overflow
        shift the oldest entry off the labels and off each series in turn. */
    method Add(pointLabel: string, rx: real, tx: real)
      requires |datasets| >= 2
      modifies this
      ensures View() == AddPoint(old(View()), pointLabel, rx, tx)
      ensures old(|labels|) <= MAX_DATA_POINTS ==> |labels| <= MAX_DATA_POINTS
      ensures old(|datasets|) == 2 && old(Aligned(View())) ==> Aligned(View())
    {
      ghost var w := View();
      labels := labels + [pointLabel];
      datasets := datasets[0 := datasets[0] + [rx]];
      datasets := datasets[1 := datasets[1] + [tx]];
      ghost var pushed := datasets;
      if |labels| > MAX_DATA_POINTS {
        labels := labels[1..];
        var i := 0;
        while i < |datasets|
          invariant 0 <= i <= |datasets| == |pushed|
          invariant labels == (w.labels + [pointLabel])[1..]
          invariant forall k :: 0 <= k < i ==> datasets[k] == Shift(pushed[k])
          invariant forall k :: i <= k < |datasets| ==> datasets[k] == pushed[k]
        {
          datasets := datasets[i := Shift(datasets[i])];
          i := i + 1;
        }
        assert datasets == seq(|pushed|, k requires 0 <= k < |pushed| => Shift(pushed[k]));
      }
      if |w.labels| <= MAX_DATA_POINTS {
        AddPointBounded(w, pointLabel, rx, tx);
      }
      if |w.datasets| == 2 && Aligned(w) {
        AddPointKeepsAligned(w, pointLabel, rx, tx);
      }
    }
  }
}
