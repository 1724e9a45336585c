/** Streaming aggregation of metrics entries into plot values (scale/metrics/registry.py). */
module PlotData {
  import opened Common

  /** The largest value of Python's `int`, the sentinel of the running minimum. */
  const MAX_INT := 9223372036854775807

  /** A calendar date, as its ordinal; `date.min` and `date.max` are the bounds. */
  type Date = d: int | MIN_DATE <= d <= MAX_DATE witness 1

  const MIN_DATE := 1
  const MAX_DATE := 3652059

  datatype Aggregate = Sum | Min | Max | Avg | Unknown

  /** One entry seen from one column. */
  datatype Point = Point(date: Date, choice: Id, value: Option<int>)

  datatype PlotValue = PlotValue(choice: Option<Id>, date: Date, value: int, count: nat, total: int)

  datatype Plot = Plot(minX: Option<Date>, maxX: Option<Date>, minY: Option<int>, maxY: Option<int>, values: seq<PlotValue>)

  function Lesser(a: int, b: int): (r: int) { if b < a then b else a }

  function Greater(a: int, b: int): (r: int) { if b > a then b else a }

  /** Python's `x or default`, for a number: zero counts as absent. */
  function NumberOr(x: int, default: int): (r: int) { if x == 0 then default else x }

  function OptionOr(x: Option<int>, default: int): (r: int) {
    if x.None? then default else NumberOr(x.value, default)
  }

  /** Python's `total / count` on integers, by repeated subtraction. */
  function Quotient(total: int, count: int): (r: int)
    requires count > 0
    decreases total < 0, if total < 0 then -total else total
  {
    if total < 0 then Quotient(total + count, count) - 1
    else if total < count then 0
    else Quotient(total - count, count) + 1
  }

  /** It is the floor of the true quotient. */
  lemma {:induction false} QuotientIsFloor(total: int, count: int)
    requires count > 0
    ensures Quotient(total, count) * count <= total < (Quotient(total, count) + 1) * count
    decreases total < 0, if total < 0 then -total else total
  {
    if total < 0 {
      QuotientIsFloor(total + count, count);
    } else if total >= count {
      QuotientIsFloor(total - count, count);
    }
  }

  /** The running value after one more entry `v`, which brings the group to `count` and `total`. */
  function NextValue(agg: Aggregate, value: int, v: int, count: nat, total: int): (r: int)
    requires count > 0
  {
    match agg
    case Sum => total
    case Min => Lesser(NumberOr(value, MAX_INT), v)
    case Max => Greater(NumberOr(value, 0), v)
    case Avg => Quotient(total, count)
    case Unknown => value
  }

  function Bumped(agg: Aggregate, p: PlotValue, v: int): (r: PlotValue) {
    p.(count := p.count + 1, total := p.total + v,
       value := NextValue(agg, p.value, v, p.count + 1, p.total + v))
  }

  /** The value list after an entry: a new value when filtered by choice, otherwise merged into its date's. */
  function WithValue(agg: Aggregate, values: seq<PlotValue>, filtered: bool, p: Point, v: int): (r: seq<PlotValue>) {
    if filtered then values + [PlotValue(Some(p.choice), p.date, v, 0, 0)]
    else
      var n := |values|;
      if n == 0 || values[n - 1].date != p.date
      then values + [Bumped(agg, PlotValue(None, p.date, 0, 0, 0), v)]
      else values[..n - 1] + [Bumped(agg, values[n - 1], v)]
  }

  /** `_add_plot_value` */
  function Added(agg: Aggregate, filtered: bool, plot: Plot, p: Point): (r: Plot) {
    if p.value.None? then plot
    else
      var v := p.value.value;
      Plot(Some(if plot.minX.None? then p.date else if p.date < plot.minX.value then p.date else plot.minX.value),
           Some(if plot.maxX.None? then p.date else if p.date > plot.maxX.value then p.date else plot.maxX.value),
           Some(Lesser(OptionOr(plot.minY, MAX_INT), v)),
           Some(Greater(OptionOr(plot.maxY, 0), v)),
           WithValue(agg, plot.values, filtered, p, v))
  }

  const EMPTY := Plot(None, None, None, None, [])

  function Series(agg: Aggregate, filtered: bool, ps: seq<Point>): (r: Plot)
    decreases |ps|
  {
    if ps == [] then EMPTY else Added(agg, filtered, Series(agg, filtered, ps[..|ps| - 1]), ps[|ps| - 1])
  }

  // ---- The simple specification ----

  /** The values recorded on a date, in order. */
  function ValuesOn(ps: seq<Point>, d: Date): (vs: seq<int>)
    decreases |ps|
  {
    if ps == [] then []
    else
      var p := ps[|ps| - 1];
      ValuesOn(ps[..|ps| - 1], d) + if p.value.Some? && p.date == d then [p.value.value] else []
  }

  function AllValues(ps: seq<Point>): (vs: seq<int>)
    decreases |ps|
  {
    if ps == [] then []
    else
      var p := ps[|ps| - 1];
      AllValues(ps[..|ps| - 1]) + if p.value.Some? then [p.value.value] else []
  }

  function SumOf(vs: seq<int>): (r: int)
    decreases |vs|
  {
    if vs == [] then 0 else SumOf(vs[..|vs| - 1]) + vs[|vs| - 1]
  }

  function MinOf(vs: seq<int>): (r: int)
    requires vs != []
    ensures r in vs && forall i :: 0 <= i < |vs| ==> r <= vs[i]
    decreases |vs|
  {
    var n := |vs| - 1;
    if n == 0 then vs[0] else Lesser(MinOf(vs[..n]), vs[n])
  }

  function MaxOf(vs: seq<int>): (r: int)
    requires vs != []
    ensures r in vs && forall i :: 0 <= i < |vs| ==> vs[i] <= r
    decreases |vs|
  {
    var n := |vs| - 1;
    if n == 0 then vs[0] else Greater(MaxOf(vs[..n]), vs[n])
  }

  /** What streaming a group's values one by one gives. */
  function Streamed(agg: Aggregate, vs: seq<int>): (r: int)
    decreases |vs|
  {
    if vs == [] then 0
    else
      var n := |vs| - 1;
      NextValue(agg, Streamed(agg, vs[..n]), vs[n], n + 1, SumOf(vs))
  }

  // ---- Each aggregate against its meaning ----

  lemma StreamedSum(vs: seq<int>)
    ensures Streamed(Sum, vs) == SumOf(vs)
  {
  }

  /** The average is the floor of the true average. */
  lemma StreamedAvg(vs: seq<int>)
    requires vs != []
    ensures Streamed(Avg, vs) * |vs| <= SumOf(vs) < (Streamed(Avg, vs) + 1) * |vs|
  {
    QuotientIsFloor(SumOf(vs), |vs|);
  }

  lemma {:induction false} StreamedMax(vs: seq<int>)
    requires vs != []
    ensures Streamed(Max, vs) == Greater(0, MaxOf(vs))
    ensures Streamed(Max, vs) == MaxOf(vs) <==> MaxOf(vs) >= 0
    decreases |vs|
  {
    var n := |vs| - 1;
    if n > 0 { StreamedMax(vs[..n]); } else { assert vs[..0] == []; }
  }

  /** A running minimum of zero is taken for no minimum, so a zero is forgotten when another value follows it. */
  lemma {:induction false} StreamedMinForm(vs: seq<int>)
    requires vs != []
    ensures var m, f, last := MinOf(vs), Streamed(Min, vs), vs[|vs| - 1];
            && (m < 0 ==> f == m)
            && (m > 0 ==> f == Lesser(m, MAX_INT))
            && (m == 0 ==> 0 <= f <= MAX_INT && (f == 0 <==> last == 0))
    decreases |vs|
  {
    var n := |vs| - 1;
    if n > 0 { StreamedMinForm(vs[..n]); } else { assert vs[..0] == []; }
  }

  /** The streamed minimum is the true one exactly when that fits the sentinel and is not a zero that something follows. */
  lemma StreamedMin(vs: seq<int>)
    requires vs != []
    ensures Streamed(Min, vs) == MinOf(vs) <==> MinOf(vs) <= 9223372036854775807 && (MinOf(vs) != 0 || vs[|vs| - 1] == 0)
  {
    StreamedMinForm(vs);
  }

  /** A zero that something follows is forgotten. */
  lemma ZeroForgotten()
    ensures Streamed(Min, [0, 5]) == 5 && MinOf([0, 5]) == 0
  {
    assert [0, 5][..1] == [0] && [0][..0] == [];
  }

  // ---- Streaming equals grouping by date ----

  ghost predicate InDateOrder(ps: seq<Point>) {
    forall i, j :: 0 <= i <= j < |ps| ==> ps[i].date <= ps[j].date
  }

  ghost predicate Increasing(values: seq<PlotValue>) {
    forall i, j :: 0 <= i < j < |values| ==> values[i].date < values[j].date
  }

  ghost predicate HasDate(values: seq<PlotValue>, d: Date) {
    exists k :: 0 <= k < |values| && values[k].date == d
  }

  /** The plot value of a date with values `vs`. */
  function GroupValue(agg: Aggregate, d: Date, vs: seq<int>): (v: PlotValue) {
    PlotValue(None, d, Streamed(agg, vs), |vs|, SumOf(vs))
  }

  predicate Correct(agg: Aggregate, ps: seq<Point>, v: PlotValue) {
    ValuesOn(ps, v.date) != [] && v == GroupValue(agg, v.date, ValuesOn(ps, v.date))
  }

  /** One value per date that has an entry, in strictly increasing date order, each from exactly that date's entries. */
  ghost predicate Grouped(agg: Aggregate, ps: seq<Point>, values: seq<PlotValue>) {
    Increasing(values) && HasDates(ps, values) && AllCorrect(agg, ps, values)
  }

  ghost predicate HasDates(ps: seq<Point>, values: seq<PlotValue>) {
    forall d: Date :: HasDate(values, d) <==> ValuesOn(ps, d) != []
  }

  ghost predicate AllCorrect(agg: Aggregate, ps: seq<Point>, values: seq<PlotValue>) {
    forall k :: 0 <= k < |values| ==> Correct(agg, ps, values[k])
  }

  lemma ValuesOnStep(ps: seq<Point>, p: Point, d: Date)
    ensures ValuesOn(ps + [p], d) == ValuesOn(ps, d) + if p.value.Some? && p.date == d then [p.value.value] else []
  {
    assert (ps + [p])[..|ps|] == ps;
  }

  lemma {:induction false} LaterDateEmpty(ps: seq<Point>, d: Date)
    requires forall i :: 0 <= i < |ps| ==> ps[i].date < d
    ensures ValuesOn(ps, d) == []
    decreases |ps|
  {
    if ps != [] { LaterDateEmpty(ps[..|ps| - 1], d); }
  }

  lemma {:induction false} ValuesOnFrom(ps: seq<Point>, d: Date) returns (i: int)
    requires ValuesOn(ps, d) != []
    ensures 0 <= i < |ps| && ps[i].date == d
    decreases |ps|
  {
    var n := |ps| - 1;
    if ps[n].value.Some? && ps[n].date == d { i := n; } else { i := ValuesOnFrom(ps[..n], d); }
  }

  lemma GroupStep(agg: Aggregate, d: Date, vs: seq<int>, v: int)
    ensures Bumped(agg, GroupValue(agg, d, vs), v) == GroupValue(agg, d, vs + [v])
  {
    assert (vs + [v])[..|vs|] == vs;
  }

  /** A group's plot value after one more entry of its date. */
  lemma BumpedCorrect(agg: Aggregate, ps: seq<Point>, p: Point)
    requires p.value.Some?
    ensures Correct(agg, ps + [p], Bumped(agg, GroupValue(agg, p.date, ValuesOn(ps, p.date)), p.value.value))
  {
    ValuesOnStep(ps, p, p.date);
    GroupStep(agg, p.date, ValuesOn(ps, p.date), p.value.value);
  }

  lemma OtherCorrect(agg: Aggregate, ps: seq<Point>, p: Point, v: PlotValue)
    requires Correct(agg, ps, v) && (p.value.None? || v.date != p.date)
    ensures Correct(agg, ps + [p], v)
  {
    ValuesOnStep(ps, p, v.date);
    assert ValuesOn(ps + [p], v.date) == ValuesOn(ps, v.date);
  }

  lemma HasDateAppend(values: seq<PlotValue>, v: PlotValue, d: Date)
    ensures HasDate(values + [v], d) <==> HasDate(values, d) || d == v.date
  {
    if HasDate(values, d) {
      var k :| 0 <= k < |values| && values[k].date == d;
      assert (values + [v])[k].date == d;
    }
    if d == v.date { assert (values + [v])[|values|].date == d; }
  }

  /** All groups but that of date `d`, which comes after them. */
  ghost predicate Earlier(agg: Aggregate, ps: seq<Point>, values: seq<PlotValue>, d: Date) {
    && Increasing(values) && AllCorrect(agg, ps, values)
    && (forall k :: 0 <= k < |values| ==> values[k].date < d)
    && (forall e: Date :: e != d ==> (HasDate(values, e) <==> ValuesOn(ps, e) != []))
  }

  lemma ExtendDates(agg: Aggregate, ps: seq<Point>, p: Point, early: seq<PlotValue>, v: PlotValue)
    requires Earlier(agg, ps, early, p.date) && p.value.Some? && v.date == p.date
    ensures HasDates(ps + [p], early + [v])
  {
    forall d: Date ensures HasDate(early + [v], d) <==> ValuesOn(ps + [p], d) != [] {
      HasDateAppend(early, v, d);
      ValuesOnStep(ps, p, d);
    }
  }

  lemma ExtendCorrect(agg: Aggregate, ps: seq<Point>, p: Point, early: seq<PlotValue>, v: PlotValue)
    requires Earlier(agg, ps, early, p.date) && Correct(agg, ps + [p], v)
    ensures AllCorrect(agg, ps + [p], early + [v])
  {
    forall k | 0 <= k < |early| ensures Correct(agg, ps + [p], early[k]) { OtherCorrect(agg, ps, p, early[k]); }
  }

  /** An entry of date `d` brings the group of that date, after all others, up to date. */
  lemma ExtendGroups(agg: Aggregate, ps: seq<Point>, p: Point, early: seq<PlotValue>)
    requires Earlier(agg, ps, early, p.date) && p.value.Some?
    ensures Grouped(agg, ps + [p], early + [Bumped(agg, GroupValue(agg, p.date, ValuesOn(ps, p.date)), p.value.value)])
  {
    var v := Bumped(agg, GroupValue(agg, p.date, ValuesOn(ps, p.date)), p.value.value);
    BumpedCorrect(agg, ps, p);
    ExtendDates(agg, ps, p, early, v);
    ExtendCorrect(agg, ps, p, early, v);
  }

  lemma EarlierGroup(agg: Aggregate, ps: seq<Point>, p: Point, values: seq<PlotValue>, k: int)
    requires Grouped(agg, ps, values) && 0 <= k < |values|
    requires forall i :: 0 <= i < |ps| ==> ps[i].date <= p.date
    requires values[|values| - 1].date != p.date
    ensures values[k].date < p.date
  {
    assert Correct(agg, ps, values[|values| - 1]);
    var i := ValuesOnFrom(ps, values[|values| - 1].date);
    assert ps[i].date <= p.date;
  }

  /** The entry opens a new group: its date is later than all before. */
  lemma OpenGroup(agg: Aggregate, ps: seq<Point>, p: Point, values: seq<PlotValue>)
    requires Grouped(agg, ps, values) && p.value.Some?
    requires forall i :: 0 <= i < |ps| ==> ps[i].date <= p.date
    requires values == [] || values[|values| - 1].date != p.date
    ensures Grouped(agg, ps + [p], values + [Bumped(agg, PlotValue(None, p.date, 0, 0, 0), p.value.value)])
  {
    forall k | 0 <= k < |values| ensures values[k].date < p.date {
      EarlierGroup(agg, ps, p, values, k);
    }
    assert !HasDate(values, p.date);
    assert ValuesOn(ps, p.date) == [];
    ExtendGroups(agg, ps, p, values);
  }

  /** The entry joins the last group, whose date it shares. */
  lemma JoinGroup(agg: Aggregate, ps: seq<Point>, p: Point, values: seq<PlotValue>)
    requires Grouped(agg, ps, values) && p.value.Some?
    requires values != [] && values[|values| - 1].date == p.date
    ensures var n := |values| - 1;
            Grouped(agg, ps + [p], values[..n] + [Bumped(agg, values[n], p.value.value)])
  {
    var n := |values| - 1;
    LastGroup(agg, ps, values);
    assert Correct(agg, ps, values[n]);
    ExtendGroups(agg, ps, p, values[..n]);
  }

  lemma LastGroup(agg: Aggregate, ps: seq<Point>, values: seq<PlotValue>)
    requires Grouped(agg, ps, values) && values != []
    ensures var n := |values| - 1; Earlier(agg, ps, values[..n], values[n].date)
  {
    var n := |values| - 1;
    assert values == values[..n] + [values[n]];
    forall e: Date | e != values[n].date ensures HasDate(values[..n], e) <==> ValuesOn(ps, e) != [] {
      HasDateAppend(values[..n], values[n], e);
    }
    forall k | 0 <= k < n ensures Correct(agg, ps, values[..n][k]) { assert Correct(agg, ps, values[k]); }
  }

  lemma NullEntry(agg: Aggregate, ps: seq<Point>, p: Point, values: seq<PlotValue>)
    requires Grouped(agg, ps, values) && p.value.None?
    ensures Grouped(agg, ps + [p], values)
  {
    forall d: Date ensures ValuesOn(ps + [p], d) == ValuesOn(ps, d) { ValuesOnStep(ps, p, d); }
    forall k | 0 <= k < |values| ensures Correct(agg, ps + [p], values[k]) { OtherCorrect(agg, ps, p, values[k]); }
  }

  /** For entries in date order and no choice filter, streaming gives the groups by date. */
  lemma {:induction false} StreamingGroups(agg: Aggregate, ps: seq<Point>)
    requires InDateOrder(ps)
    ensures Grouped(agg, ps, Series(agg, false, ps).values)
    decreases |ps|
  {
    if ps != [] {
      var n := |ps| - 1;
      var values := Series(agg, false, ps[..n]).values;
      StreamingGroups(agg, ps[..n]);
      assert ps[..n] + [ps[n]] == ps;
      if ps[n].value.None? {
        NullEntry(agg, ps[..n], ps[n], values);
      } else if values == [] || values[|values| - 1].date != ps[n].date {
        OpenGroup(agg, ps[..n], ps[n], values);
      } else {
        JoinGroup(agg, ps[..n], ps[n], values);
      }
    }
  }

  /** What a value of an unfiltered plot says about its date, for each aggregate. */
  lemma PlotValueMeans(agg: Aggregate, ps: seq<Point>, k: int)
    requires InDateOrder(ps) && 0 <= k < |Series(agg, false, ps).values|
    ensures var v := Series(agg, false, ps).values[k]; var vs := ValuesOn(ps, v.date);
            && vs != [] && v.count == |vs| && v.total == SumOf(vs)
            && (agg == Sum ==> v.value == SumOf(vs))
            && (agg == Avg ==> v.value == Quotient(SumOf(vs), |vs|))
            && (agg == Unknown ==> v.value == 0)
            && (agg == Max ==> (v.value == MaxOf(vs) <==> MaxOf(vs) >= 0))
            && (agg == Min ==>
                  (v.value == MinOf(vs) <==> MinOf(vs) <= MAX_INT && (MinOf(vs) != 0 || vs[|vs| - 1] == 0)))
  {
    StreamingGroups(agg, ps);
    var v := Series(agg, false, ps).values[k];
    assert Correct(agg, ps, v);
    AggregateMeans(agg, ValuesOn(ps, v.date), v.value);
  }

  lemma AggregateMeans(agg: Aggregate, vs: seq<int>, value: int)
    requires vs != [] && value == Streamed(agg, vs)
    ensures agg == Sum ==> value == SumOf(vs)
    ensures agg == Avg ==> value == Quotient(SumOf(vs), |vs|)
    ensures agg == Unknown ==> value == 0
    ensures agg == Max ==> (value == MaxOf(vs) <==> MaxOf(vs) >= 0)
    ensures agg == Min ==> (value == MinOf(vs) <==> MinOf(vs) <= MAX_INT && (MinOf(vs) != 0 || vs[|vs| - 1] == 0))
  {
    match agg
    case Sum => StreamedSum(vs);
    case Avg =>
    case Max => StreamedMax(vs);
    case Min => StreamedMin(vs);
    case Unknown => StreamedUnknown(vs);
  }

  /** An unknown aggregate leaves the value as it began. */
  lemma {:induction false} StreamedUnknown(vs: seq<int>)
    ensures Streamed(Unknown, vs) == 0
    decreases |vs|
  {
    if vs != [] { StreamedUnknown(vs[..|vs| - 1]); }
  }

  /** The entries with a value, in order. */
  function NonNull(ps: seq<Point>): (r: seq<Point>)
    ensures forall i :: 0 <= i < |r| ==> r[i] in ps && r[i].value.Some?
    decreases |ps|
  {
    if ps == [] then []
    else
      var n := |ps| - 1;
      assert ps == ps[..n] + [ps[n]];
      NonNull(ps[..n]) + if ps[n].value.Some? then [ps[n]] else []
  }

  /** With a choice filter nothing is aggregated: each entry with a value keeps it, with its own choice and date. */
  lemma {:induction false} FilteredKeepsEntries(agg: Aggregate, ps: seq<Point>)
    ensures var vs, es := Series(agg, true, ps).values, NonNull(ps);
            |vs| == |es| &&
            forall i :: 0 <= i < |vs| ==> vs[i] == PlotValue(Some(es[i].choice), es[i].date, es[i].value.value, 0, 0)
    decreases |ps|
  {
    if ps != [] { FilteredKeepsEntries(agg, ps[..|ps| - 1]); }
  }

  // ---- The axis bounds ----

  /** With no value the plot is empty; otherwise its y bounds are the streamed minimum and maximum, and its x bounds are set. */
  lemma {:induction false} Bounds(agg: Aggregate, filtered: bool, ps: seq<Point>)
    ensures BoundsOf(Series(agg, filtered, ps), AllValues(ps))
    decreases |ps|
  {
    if ps != [] {
      var n := |ps| - 1;
      Bounds(agg, filtered, ps[..n]);
      BoundsAdded(agg, filtered, Series(agg, filtered, ps[..n]), AllValues(ps[..n]), ps[n]);
    }
  }

  predicate BoundsOf(plot: Plot, vs: seq<int>) {
    if vs == [] then plot == EMPTY
    else
      && plot.minY == Some(Streamed(Min, vs)) && plot.maxY == Some(Streamed(Max, vs))
      && plot.minX.Some? && plot.maxX.Some?
  }

  lemma BoundsNext(vs: seq<int>, v: int)
    ensures Streamed(Min, vs + [v]) == Lesser(NumberOr(Streamed(Min, vs), MAX_INT), v)
    ensures Streamed(Max, vs + [v]) == Greater(NumberOr(Streamed(Max, vs), 0), v)
  {
    assert (vs + [v])[..|vs|] == vs;
  }

  lemma BoundsAdded(agg: Aggregate, filtered: bool, plot: Plot, vs: seq<int>, p: Point)
    requires BoundsOf(plot, vs)
    ensures BoundsOf(Added(agg, filtered, plot, p), vs + if p.value.Some? then [p.value.value] else [])
  {
    if p.value.Some? {
      BoundsNext(vs, p.value.value);
    } else {
      assert vs + [] == vs;
    }
  }

  predicate HasEntry(ps: seq<Point>, i: int) { 0 <= i < |ps| && ps[i].value.Some? }

  /** The x bounds are dates of entries, and no entry's date is outside them. */
  lemma {:induction false} BoundsX(agg: Aggregate, filtered: bool, ps: seq<Point>)
    ensures var plot := Series(agg, filtered, ps);
            && (plot.minX.Some? <==> plot.maxX.Some?)
            && (forall i :: HasEntry(ps, i) ==> plot.minX.Some? && plot.minX.value <= ps[i].date <= plot.maxX.value)
            && (plot.minX.Some? ==>
                  && (exists i :: HasEntry(ps, i) && ps[i].date == plot.minX.value)
                  && (exists i :: HasEntry(ps, i) && ps[i].date == plot.maxX.value))
    decreases |ps|
  {
    if ps != [] {
      var n := |ps| - 1;
      var before, plot := Series(agg, filtered, ps[..n]), Series(agg, filtered, ps);
      BoundsX(agg, filtered, ps[..n]);
      assert forall i :: HasEntry(ps[..n], i) <==> i < n && HasEntry(ps, i);
      if before.minX.Some? {
        var i :| HasEntry(ps[..n], i) && ps[..n][i].date == before.minX.value;
        var j :| HasEntry(ps[..n], j) && ps[..n][j].date == before.maxX.value;
        assert HasEntry(ps, i) && HasEntry(ps, j);
      }
      assert ps[n].value.Some? ==> HasEntry(ps, n);
    }
  }

  // ---- The plot object ----

  class MetricsPlotData {
    const aggregate: Aggregate
    var minX: Option<Date>
    var maxX: Option<Date>
    var minY: Option<int>
    var maxY: Option<int>
    var values: seq<PlotValue>

    function Contents(): (p: Plot)
      reads this
    {
      Plot(minX, maxX, minY, maxY, values)
    }

    constructor (aggregate: Aggregate)
      ensures Contents() == EMPTY && this.aggregate == aggregate
    {
      this.aggregate := aggregate;
      minX, maxX, minY, maxY, values := None, None, None, None, [];
    }

    /** `_add_plot_value` */
    method AddPlotValue(p: Point, filtered: bool)
      modifies this
      ensures Contents() == Added(aggregate, filtered, old(Contents()), p)
    {
      if p.value.None? {
        return;
      }
      var v := p.value.value;
      minY := Some(Lesser(OptionOr(minY, MAX_INT), v));
      maxY := Some(Greater(OptionOr(maxY, 0), v));
      if minX.None? || p.date < minX.value {
        minX := Some(p.date);
      }
      if maxX.None? || p.date > maxX.value {
        maxX := Some(p.date);
      }
      if filtered {
        values := values + [PlotValue(Some(p.choice), p.date, v, 0, 0)];
        return;
      }
      if values == [] || values[|values| - 1].date != p.date {
        values := values + [PlotValue(None, p.date, 0, 0, 0)];
      }
      values := values[|values| - 1 := Bumped(aggregate, values[|values| - 1], v)];
    }
  }

  // ---- All columns in one pass ----

  datatype Column = Column(name: string, aggregate: Aggregate)

  datatype Entry = Entry(date: Date, choice: Id, values: string -> Option<int>)

  function PointOf(e: Entry, name: string): (p: Point) { Point(e.date, e.choice, e.values(name)) }

  /** How many columns have the name. */
  function Times(columns: seq<Column>, name: string): (n: nat)
    decreases |columns|
  {
    if columns == [] then 0
    else Times(columns[..|columns| - 1], name) + if columns[|columns| - 1].name == name then 1 else 0
  }

  /** The aggregate of the last column with the name; columns of one name share a plot. */
  function AggregateOf(columns: seq<Column>, name: string): (agg: Aggregate)
    requires Times(columns, name) > 0
    decreases |columns|
  {
    var n := |columns| - 1;
    if columns[n].name == name then columns[n].aggregate else AggregateOf(columns[..n], name)
  }

  function Repeat(p: Point, k: nat): (ps: seq<Point>) { seq(k, _ => p) }

  /** The points a name's plot is given: each entry's, once per column of that name. */
  function PointsOf(entries: seq<Entry>, columns: seq<Column>, name: string): (ps: seq<Point>)
    decreases |entries|
  {
    if entries == [] then []
    else
      var n := |entries| - 1;
      PointsOf(entries[..n], columns, name) + Repeat(PointOf(entries[n], name), Times(columns, name))
  }

  predicate NamesDiffer(columns: seq<Column>) {
    forall i, j :: 0 <= i < j < |columns| ==> columns[i].name != columns[j].name
  }

  lemma {:induction false} TimesOne(columns: seq<Column>, c: int)
    requires NamesDiffer(columns) && 0 <= c < |columns|
    ensures Times(columns, columns[c].name) == 1 && AggregateOf(columns, columns[c].name) == columns[c].aggregate
    decreases |columns|
  {
    var n := |columns| - 1;
    if c < n { TimesOne(columns[..n], c); } else { TimesNone(columns[..n], columns[n].name); }
  }

  lemma {:induction false} TimesNone(columns: seq<Column>, name: string)
    requires forall i :: 0 <= i < |columns| ==> columns[i].name != name
    ensures Times(columns, name) == 0
    decreases |columns|
  {
    if columns != [] { TimesNone(columns[..|columns| - 1], name); }
  }

  /** Of columns that share a name the last decides the aggregate. */
  lemma {:induction false} AggregateIsLast(columns: seq<Column>, c: int)
    requires 0 <= c < |columns| && forall j :: c < j < |columns| ==> columns[j].name != columns[c].name
    ensures Times(columns, columns[c].name) > 0 && AggregateOf(columns, columns[c].name) == columns[c].aggregate
    decreases |columns|
  {
    if c < |columns| - 1 { AggregateIsLast(columns[..|columns| - 1], c); }
  }

  /** With a name to each column, a plot is given exactly one point per entry, its column's. */
  lemma {:induction false} OnePointEach(entries: seq<Entry>, columns: seq<Column>, c: int)
    requires NamesDiffer(columns) && 0 <= c < |columns|
    ensures var ps := PointsOf(entries, columns, columns[c].name);
            && |ps| == |entries|
            && forall i :: 0 <= i < |ps| ==>
                 ps[i] == Point(entries[i].date, entries[i].choice, entries[i].values(columns[c].name))
    decreases |entries|
  {
    TimesOne(columns, c);
    if entries != [] { OnePointEach(entries[..|entries| - 1], columns, c); }
  }

  function AddedTimes(agg: Aggregate, filtered: bool, plot: Plot, p: Point, k: nat): (r: Plot)
    decreases k
  {
    if k == 0 then plot else Added(agg, filtered, AddedTimes(agg, filtered, plot, p, k - 1), p)
  }

  lemma {:induction false} SeriesRepeat(agg: Aggregate, filtered: bool, ps: seq<Point>, p: Point, k: nat)
    ensures Series(agg, filtered, ps + Repeat(p, k)) == AddedTimes(agg, filtered, Series(agg, filtered, ps), p, k)
    decreases k
  {
    if k == 0 {
      assert ps + Repeat(p, 0) == ps;
    } else {
      SeriesRepeat(agg, filtered, ps, p, k - 1);
      assert (ps + Repeat(p, k))[..|ps| + k - 1] == ps + Repeat(p, k - 1);
    }
  }

  lemma SeriesStep(agg: Aggregate, filtered: bool, entries: seq<Entry>, n: int, columns: seq<Column>, name: string)
    requires 0 <= n < |entries|
    ensures Series(agg, filtered, PointsOf(entries[..n + 1], columns, name)) ==
            AddedTimes(agg, filtered, Series(agg, filtered, PointsOf(entries[..n], columns, name)),
                       PointOf(entries[n], name), Times(columns, name))
  {
    assert entries[..n + 1][..n] == entries[..n];
    SeriesRepeat(agg, filtered, PointsOf(entries[..n], columns, name), PointOf(entries[n], name), Times(columns, name));
  }

  type Plots = map<string, MetricsPlotData>

  ghost predicate Distinct(plots: Plots) {
    forall m, n :: m in plots && n in plots && m != n ==> plots[m] != plots[n]
  }

  method NewPlots(columns: seq<Column>) returns (plots: Plots)
    ensures forall n :: n in plots <==> Times(columns, n) > 0
    ensures Distinct(plots) && fresh(plots.Values)
    ensures forall n :: n in plots ==> plots[n].aggregate == AggregateOf(columns, n) && plots[n].Contents() == EMPTY
  {
    plots := map[];
    for j := 0 to |columns|
      invariant forall n :: n in plots <==> Times(columns[..j], n) > 0
      invariant Distinct(plots) && fresh(plots.Values)
      invariant forall n :: n in plots ==> plots[n].aggregate == AggregateOf(columns[..j], n) && plots[n].Contents() == EMPTY
    {
      assert columns[..j + 1][..j] == columns[..j];
      var plot := new MetricsPlotData(columns[j].aggregate);
      forall n | n in plots ensures plots[n] != plot { assert plots[n] in plots.Values; }
      ghost var before := plots;
      plots := plots[columns[j].name := plot];
      forall o | o in plots.Values ensures o == plot || o in before.Values {
        var n :| n in plots && plots[n] == o;
        assert n != columns[j].name ==> before[n] in before.Values;
      }
    }
    assert columns[..|columns|] == columns;
  }

  /** The plots by name after each column has had its turn with an entry. */
  function EntryAdded(aggs: map<string, Aggregate>, filtered: bool, start: map<string, Plot>, columns: seq<Column>, e: Entry)
      : (r: map<string, Plot>)
    requires aggs.Keys == start.Keys && forall j :: 0 <= j < |columns| ==> columns[j].name in start
    ensures r.Keys == start.Keys
    decreases |columns|
  {
    if columns == [] then start
    else
      var n := |columns| - 1;
      var m := EntryAdded(aggs, filtered, start, columns[..n], e);
      var name := columns[n].name;
      m[name := Added(aggs[name], filtered, m[name], PointOf(e, name))]
  }

  lemma {:induction false} EntryAddedTimes(aggs: map<string, Aggregate>, filtered: bool, start: map<string, Plot>,
                                           columns: seq<Column>, e: Entry, name: string)
    requires aggs.Keys == start.Keys && (forall j :: 0 <= j < |columns| ==> columns[j].name in start) && name in start
    ensures EntryAdded(aggs, filtered, start, columns, e)[name] ==
            AddedTimes(aggs[name], filtered, start[name], PointOf(e, name), Times(columns, name))
    decreases |columns|
  {
    if columns != [] { EntryAddedTimes(aggs, filtered, start, columns[..|columns| - 1], e, name); }
  }

  /** Each column's turn with an entry; a turn changes only the plot of its own name. */
  method AddColumns(plots: Plots, columns: seq<Column>, e: Entry, filtered: bool,
                    ghost aggs: map<string, Aggregate>, ghost start: map<string, Plot>)
    requires Distinct(plots) && forall j :: 0 <= j < |columns| ==> columns[j].name in plots
    requires aggs.Keys == start.Keys == plots.Keys
    requires forall n :: n in plots ==> plots[n].aggregate == aggs[n] && plots[n].Contents() == start[n]
    modifies plots.Values
    ensures forall n :: n in plots ==> plots[n].Contents() == EntryAdded(aggs, filtered, start, columns, e)[n]
  {
    for j := 0 to |columns|
      invariant forall n :: n in plots ==>
                  plots[n].Contents() == EntryAdded(aggs, filtered, start, columns[..j], e)[n]
    {
      assert columns[..j + 1][..j] == columns[..j];
      var name := columns[j].name;
      assert plots[name] in plots.Values;
      plots[name].AddPlotValue(PointOf(e, name), filtered);
    }
    assert columns[..|columns|] == columns;
  }

  method AddEntry(plots: Plots, columns: seq<Column>, e: Entry, filtered: bool)
    requires Distinct(plots) && forall j :: 0 <= j < |columns| ==> columns[j].name in plots
    modifies plots.Values
    ensures forall n :: n in plots ==>
              plots[n].Contents() ==
              AddedTimes(plots[n].aggregate, filtered, old(plots[n].Contents()), PointOf(e, n), Times(columns, n))
  {
    ghost var start := map n | n in plots :: plots[n].Contents();
    ghost var aggs := map n | n in plots :: plots[n].aggregate;
    AddColumns(plots, columns, e, filtered, aggs, start);
    forall n | n in plots
      ensures plots[n].Contents() == AddedTimes(aggs[n], filtered, start[n], PointOf(e, n), Times(columns, n))
    {
      EntryAddedTimes(aggs, filtered, start, columns, e, n);
    }
  }

  /** `MetricsPlotData.create`: one plot per column name, all filled in one pass over the entries. */
  method Create(entries: seq<Entry>, columns: seq<Column>, filtered: bool) returns (plots: Plots)
    ensures forall n :: n in plots <==> Times(columns, n) > 0
    ensures forall n :: n in plots ==>
              plots[n].Contents() == Series(AggregateOf(columns, n), filtered, PointsOf(entries, columns, n))
  {
    plots := NewPlots(columns);
    forall j | 0 <= j < |columns| ensures columns[j].name in plots { TimesSome(columns, j); }
    assert entries[..0] == [];
    for n := 0 to |entries|
      invariant fresh(plots.Values)
      invariant forall m :: m in plots ==>
                  plots[m].Contents() == Series(plots[m].aggregate, filtered, PointsOf(entries[..n], columns, m))
    {
      forall m | m in plots
        ensures Series(plots[m].aggregate, filtered, PointsOf(entries[..n + 1], columns, m)) ==
                AddedTimes(plots[m].aggregate, filtered, plots[m].Contents(), PointOf(entries[n], m), Times(columns, m))
      {
        SeriesStep(plots[m].aggregate, filtered, entries, n, columns, m);
      }
      AddEntry(plots, columns, entries[n], filtered);
    }
    assert entries[..|entries|] == entries;
  }

  lemma {:induction false} TimesSome(columns: seq<Column>, c: int)
    requires 0 <= c < |columns|
    ensures Times(columns, columns[c].name) > 0
    decreases |columns|
  {
    if c < |columns| - 1 { TimesSome(columns[..|columns| - 1], c); }
  }
}
