/**
 * The chart data both scripts mutate: a chart's label array and its
 * datasets' data arrays, the 20-point sliding window kept by updateChart,
 * and the registry of charts with its clear and export operations.
 */
module Charts {
  import opened Values

  /** The number of points a chart keeps. */
  const Capacity: nat := 20

  /** The two parallel arrays updateChart touches: `labels` and `datasets[0].data`. */
  datatype Series = Series(labels: seq<string>, data: seq<Value>)

  predicate Bounded(s: Series) {
    |s.labels| == |s.data| <= Capacity
  }

  /** `Array.prototype.shift`, ignoring the element it returns. */
  function Shift<T>(s: seq<T>): seq<T> {
    if s == [] then s else s[1..]
  }

  /** The last `k` elements of `s` (all of them when there are fewer). */
  function LastN<T>(s: seq<T>, k: nat): (r: seq<T>)
    ensures |r| == if |s| <= k then |s| else k
  {
    if |s| <= k then s else s[|s| - k..]
  }

  /**
   * One updateChart on the arrays: push the label and the value, then, if
   * the labels now number more than 20, shift both arrays once.
   */
  function Pushed(s: Series, timeLabel: string, value: Value): (r: Series)
    ensures Bounded(s) ==> Bounded(r)
    ensures r.labels != [] && r.labels[|r.labels| - 1] == timeLabel
    ensures |s.labels| <= |s.data| ==> r.data != [] && r.data[|r.data| - 1] == value
  {
    var labels := s.labels + [timeLabel];
    var data := s.data + [value];
    if |labels| > Capacity then Series(labels[1..], Shift(data)) else Series(labels, data)
  }

  /** On a bounded window, one updateChart keeps the last 20 of the old points followed by the new one. */
  lemma PushedIsLastTwenty(s: Series, timeLabel: string, value: Value)
    requires Bounded(s)
    ensures Pushed(s, timeLabel, value) ==
      Series(LastN(s.labels + [timeLabel], Capacity), LastN(s.data + [value], Capacity))
  {
  }

  /**
   * On a bounded window, what precedes the pushed point is the old window,
   * or, when it was full, the old window without its oldest entry, in both
   * arrays together.
   */
  lemma PushedKeepsOlderPoints(s: Series, timeLabel: string, value: Value)
    requires Bounded(s)
    ensures var r := Pushed(s, timeLabel, value); var n := |r.labels|;
      || (|r.labels| == |s.labels| + 1 && r.labels[..n - 1] == s.labels && r.data[..n - 1] == s.data)
      || (|s.labels| == Capacity && |r.labels| == Capacity
          && r.labels[..n - 1] == Shift(s.labels) && r.data[..n - 1] == Shift(s.data))
  {
    var labels := s.labels + [timeLabel];
    var data := s.data + [value];
    if |labels| > Capacity {
      assert labels[1..][..Capacity - 1] == s.labels[1..];
      assert data[1..][..Capacity - 1] == s.data[1..];
    } else {
      assert labels[..|labels| - 1] == s.labels;
      assert data[..|data| - 1] == s.data;
    }
  }

  /** A point pushed onto a chart: its time label and its value. */
  datatype Point = Point(timeLabel: string, value: Value)

  function LabelsOf(points: seq<Point>): (r: seq<string>)
    ensures |r| == |points| && forall i :: 0 <= i < |points| ==> r[i] == points[i].timeLabel
  {
    seq(|points|, i requires 0 <= i < |points| => points[i].timeLabel)
  }

  function ValuesOf(points: seq<Point>): (r: seq<Value>)
    ensures |r| == |points| && forall i :: 0 <= i < |points| ==> r[i] == points[i].value
  {
    seq(|points|, i requires 0 <= i < |points| => points[i].value)
  }

  lemma PointsOfCons(points: seq<Point>)
    requires points != []
    ensures LabelsOf(points) == [points[0].timeLabel] + LabelsOf(points[1..])
    ensures ValuesOf(points) == [points[0].value] + ValuesOf(points[1..])
  {
  }

  /** updateChart once per point, in order. */
  function PushedAll(s: Series, points: seq<Point>): Series
    decreases |points|
  {
    if points == [] then s else PushedAll(Pushed(s, points[0].timeLabel, points[0].value), points[1..])
  }

  /** Keeping the last k of a sequence and then of an extension of it is keeping the last k of the extension. */
  lemma LastNOfLastN<T>(a: seq<T>, b: seq<T>, k: nat)
    ensures LastN(LastN(a, k) + b, k) == LastN(a + b, k)
  {
    if |a| > k {
      var l := LastN(a, k) + b;
      var r := LastN(a + b, k);
      assert |LastN(l, k)| == |r|;
      forall i | 0 <= i < |r|
        ensures LastN(l, k)[i] == r[i]
      {
        if |l| <= k {
          assert |b| == 0;
        }
      }
    }
  }

  lemma {:induction false} LastNOfAppend<T>(a: seq<T>, x: T, rest: seq<T>, k: nat)
    ensures LastN(LastN(a + [x], k) + rest, k) == LastN(a + ([x] + rest), k)
  {
    LastNOfLastN(a + [x], rest, k);
    assert a + [x] + rest == a + ([x] + rest);
  }

  /**
   * The sliding window: pushing any number of points onto a bounded chart
   * leaves exactly the last 20 of the old points followed by the new ones,
   * oldest first, in both arrays.
   */
  lemma {:induction false} PushedAllKeepsLastTwenty(s: Series, points: seq<Point>)
    requires Bounded(s)
    ensures PushedAll(s, points) ==
      Series(LastN(s.labels + LabelsOf(points), Capacity), LastN(s.data + ValuesOf(points), Capacity))
    decreases |points|
  {
    if points == [] {
      assert s.labels + LabelsOf(points) == s.labels;
      assert s.data + ValuesOf(points) == s.data;
    } else {
      var p := points[0];
      var rest := points[1..];
      var next := Pushed(s, p.timeLabel, p.value);
      PushedIsLastTwenty(s, p.timeLabel, p.value);
      PushedAllKeepsLastTwenty(next, rest);
      LastNOfAppend(s.labels, p.timeLabel, LabelsOf(rest), Capacity);
      LastNOfAppend(s.data, p.value, ValuesOf(rest), Capacity);
      PointsOfCons(points);
    }
  }

  /** A Chart.js chart as the scripts use it: its labels and the data of each of its datasets. */
  class Chart {
    var labels: seq<string>
    var datasets: seq<seq<Value>>

    /** Every chart is built with one dataset, and its label and data arrays stay parallel and bounded. */
    ghost predicate Valid()
      reads this
    {
      |datasets| >= 1 && |labels| == |datasets[0]| <= Capacity
    }

    function Window(): Series
      reads this
      requires |datasets| >= 1
    {
      Series(labels, datasets[0])
    }

    /** The datasets after the first, which updateChart never touches. */
    function Others(): seq<seq<Value>>
      reads this
      requires |datasets| >= 1
    {
      datasets[1..]
    }

    /** A new line chart with empty labels and one empty dataset. */
    constructor ()
      ensures Valid() && labels == [] && datasets == [[]]
    {
      labels := [];
      datasets := [[]];
    }

    /**
     * The push-and-shift body of updateChart: push the label and the value,
     * and if the labels exceed 20, shift the label array and the first
     * dataset's data once.
     */
    method Push(timeLabel: string, value: Value)
      requires Valid()
      modifies this
      ensures Valid()
      ensures Window() == Pushed(old(Window()), timeLabel, value)
      ensures |datasets| == old(|datasets|) && Others() == old(Others())
    {
      labels := labels + [timeLabel];
      datasets := datasets[0 := datasets[0] + [value]];
      if |labels| > Capacity {
        labels := Shift(labels);
        datasets := datasets[0 := Shift(datasets[0])];
      }
    }

    /** What a cleared chart holds: no labels and only empty datasets. */
    ghost predicate Cleared()
      reads this
    {
      labels == [] && forall i :: 0 <= i < |datasets| ==> datasets[i] == []
    }

    /** The body of clearAllCharts for one chart: labels emptied, then every dataset's data emptied. */
    method Clear()
      requires Valid()
      modifies this
      ensures Valid() && Cleared() && |datasets| == old(|datasets|)
    {
      labels := [];
      var i := 0;
      while i < |datasets|
        invariant 0 <= i <= |datasets| && |datasets| == old(|datasets|) && labels == []
        invariant forall j :: 0 <= j < i ==> datasets[j] == []
      {
        datasets := datasets[i := []];
        i := i + 1;
      }
    }
  }

  /** What exportChartData returns for one chart: its labels and its first dataset's data. */
  datatype Exported = Exported(labels: seq<string>, data: seq<Value>)

  /** The HealthCharts object: its registry of charts by name. */
  class HealthCharts {
    const charts: map<string, Chart?>

    ghost function Registered(): set<Chart> {
      set c: Chart | c in charts.Values
    }

    ghost predicate Valid()
      reads Registered()
    {
      forall n :: n in charts && charts[n] != null ==> charts[n].Valid()
    }

    /** The chart registered under `name`, if there is one. */
    function Lookup(name: string): (c: Chart?)
      ensures c != null ==> c in Registered()
      ensures name in charts ==> c == charts[name]
      ensures name !in charts ==> c == null
    {
      if name in charts then charts[name] else null
    }

    /**
     * init and createCharts: only the heart-rate chart is created, and only
     * when the page has its canvas; the other two charts are not created.
     */
    constructor (heartRateCanvas: bool)
      ensures Valid() && fresh(Registered())
      ensures charts.Keys == if heartRateCanvas then {"heartRate"} else {}
      ensures heartRateCanvas ==> charts["heartRate"] != null && charts["heartRate"].labels == [] && charts["heartRate"].datasets == [[]]
    {
      var chart := new Chart();
      charts := if heartRateCanvas then map["heartRate" := chart] else map[];
      new;
      assert Registered() <= {chart};
    }

    /** `window.heartRateChart`: the heart-rate chart, or `undefined` when none was created. */
    function HeartRateChart(): (c: Chart?)
      ensures c != null ==> c in Registered()
      ensures "heartRate" in charts ==> c == charts["heartRate"]
      ensures "heartRate" !in charts ==> c == null
    {
      Lookup("heartRate")
    }

    /**
     * updateChart by name: an unregistered name (or a null entry) changes
     * nothing; otherwise the point is pushed onto that chart, with the label
     * given (the formatted timestamp, or the current time when there is none).
     */
    method UpdateChart(name: string, value: Value, timeLabel: string)
      requires Valid()
      modifies Lookup(name)
      ensures Valid()
      ensures Lookup(name) != null ==> Lookup(name).Window() == Pushed(old(Lookup(name).Window()), timeLabel, value)
      ensures Lookup(name) != null ==>
        |Lookup(name).datasets| == old(|Lookup(name).datasets|) && Lookup(name).Others() == old(Lookup(name).Others())
    {
      var chart := Lookup(name);
      if chart == null {
        return;
      }
      chart.Push(timeLabel, value);
    }

    /** clearAllCharts: every registered chart ends with no labels and only empty datasets. */
    method ClearAllCharts()
      requires Valid()
      modifies Registered()
      ensures Valid()
      ensures forall c :: c in Registered() ==> c.Cleared() && |c.datasets| == old(|c.datasets|)
    {
      var todo := charts.Keys;
      while todo != {}
        invariant todo <= charts.Keys
        invariant Valid()
        invariant forall c :: c in Registered() ==> |c.datasets| == old(|c.datasets|)
        invariant forall n :: n in charts.Keys - todo && charts[n] != null ==> charts[n].Cleared()
        decreases todo
      {
        var name :| name in todo;
        var chart := charts[name];
        if chart != null {
          chart.Clear();
        }
        todo := todo - {name};
      }
      forall c | c in Registered()
        ensures c.Cleared()
      {
        var n :| n in charts && charts[n] == c;
      }
    }

    /**
     * exportChartData: exactly one entry per registered non-null chart,
     * holding that chart's labels and its first dataset's data.
     */
    method ExportChartData() returns (data: map<string, Exported>)
      requires Valid()
      ensures data.Keys == set n | n in charts && charts[n] != null
      ensures forall n :: n in data ==>
        n in charts && charts[n] != null && data[n] == Exported(charts[n].labels, charts[n].datasets[0])
    {
      data := map[];
      var todo := charts.Keys;
      while todo != {}
        invariant todo <= charts.Keys
        invariant data.Keys == set n | n in charts.Keys - todo && charts[n] != null
        invariant forall n :: n in data ==>
          n in charts && charts[n] != null && data[n] == Exported(charts[n].labels, charts[n].datasets[0])
        decreases todo
      {
        var name :| name in todo;
        var chart := charts[name];
        if chart != null {
          data := data[name := Exported(chart.labels, chart.datasets[0])];
        }
        todo := todo - {name};
      }
    }
  }
}
