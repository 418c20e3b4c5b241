/**
 * app/analysis.py, `run_basic_eda`: after the date coercion, a summary of the
 * table and up to three charts chosen by a fixed policy.
 *
 * Statistics values, correlation values and chart pictures are not modelled: the
 * summary records which columns `describe()` covers, and each chart is a plan
 * (what it shows) plus the PNG bytes a rendering parameter returns for it.
 */
module Analysis {
  import opened Wrappers
  import opened DataFrame
  import Base64

  // ----- column selection (`select_dtypes`) -----

  /** Indices of the columns of kind `k`, in column order. */
  function IndicesOfKind(cols: seq<Column>, k: Kind): (r: seq<nat>)
    ensures forall m :: 0 <= m < |r| ==> r[m] < |cols| && cols[r[m]].kind == k
    ensures forall m, n :: 0 <= m < n < |r| ==> r[m] < r[n]
    decreases |cols|
  {
    if cols == [] then []
    else
      var prefix := IndicesOfKind(cols[..|cols| - 1], k);
      prefix + (if cols[|cols| - 1].kind == k then [|cols| - 1] else [])
  }

  /** Every column of kind `k` is listed. */
  lemma {:induction false} IndicesComplete(cols: seq<Column>, k: Kind, i: nat)
    requires i < |cols| && cols[i].kind == k
    ensures i in IndicesOfKind(cols, k)
    decreases |cols|
  {
    if i < |cols| - 1 {
      IndicesComplete(cols[..|cols| - 1], k, i);
    } else {
      assert IndicesOfKind(cols, k)[|IndicesOfKind(cols, k)| - 1] == i;
    }
  }

  /** `i` is the first column of kind `k`. */
  predicate FirstOfKindAt(cols: seq<Column>, k: Kind, i: int) {
    0 <= i < |cols| && cols[i].kind == k && forall j :: 0 <= j < i ==> cols[j].kind != k
  }

  lemma FirstIndexOfKind(cols: seq<Column>, k: Kind)
    requires IndicesOfKind(cols, k) != []
    ensures FirstOfKindAt(cols, k, IndicesOfKind(cols, k)[0])
  {
    var r := IndicesOfKind(cols, k);
    forall j | 0 <= j < r[0]
      ensures cols[j].kind != k
    {
      assert forall m :: 0 <= m < |r| ==> r[0] <= r[m];
      if cols[j].kind == k {
        IndicesComplete(cols, k, j);
        assert false;
      }
    }
  }

  lemma NoIndicesOfKind(cols: seq<Column>, k: Kind)
    requires IndicesOfKind(cols, k) == []
    ensures forall i :: 0 <= i < |cols| ==> cols[i].kind != k
  {
    forall i | 0 <= i < |cols| && cols[i].kind == k
      ensures false
    {
      IndicesComplete(cols, k, i);
    }
  }

  function NamesAt(cols: seq<Column>, idx: seq<nat>): (r: seq<string>)
    requires forall m :: 0 <= m < |idx| ==> idx[m] < |cols|
    ensures |r| == |idx| && forall m :: 0 <= m < |idx| ==> r[m] == cols[idx[m]].name
  {
    seq(|idx|, m requires 0 <= m < |idx| => cols[idx[m]].name)
  }

  /** The column names of `select_dtypes(include="number")`, in column order. */
  function NumericNames(t: Table): seq<string> {
    NamesAt(t.columns, IndicesOfKind(t.columns, Numeric))
  }

  // ----- the summary dict -----

  /**
   * The `summary` dict: "shape", "dtypes", "missing" and the keys of
   * "numeric_summary" (the columns `describe()` reports on).
   */
  datatype Summary = Summary(
    rows: nat,
    cols: nat,
    dtypes: map<string, Kind>,
    missing: map<string, nat>,
    described: set<string>)

  /** The ValueError pandas raises when `describe()` is asked about a frame with no columns. */
  const DescribeError := "Cannot describe a DataFrame without columns"

  /** The set of column names. */
  function NameSet(cols: seq<Column>): (r: set<string>)
    ensures forall i :: 0 <= i < |cols| ==> cols[i].name in r
    decreases |cols|
  {
    if cols == [] then {}
    else
      var init := cols[..|cols| - 1];
      assert forall i :: 0 <= i < |init| ==> init[i] == cols[i];
      NameSet(init) + {cols[|cols| - 1].name}
  }

  /** A name no column carries is not in the set. */
  lemma {:induction false} NameSetExcludes(cols: seq<Column>, n: string)
    requires forall i :: 0 <= i < |cols| ==> cols[i].name != n
    ensures n !in NameSet(cols)
    decreases |cols|
  {
    if cols != [] {
      var init := cols[..|cols| - 1];
      assert forall i :: 0 <= i < |init| ==> init[i] == cols[i];
      NameSetExcludes(init, n);
    }
  }

  /** With unique names there is one name per column. */
  lemma {:induction false} NameSetSize(cols: seq<Column>)
    requires UniqueNames(cols)
    ensures |NameSet(cols)| == |cols|
    decreases |cols|
  {
    if cols != [] {
      var init := cols[..|cols| - 1];
      var last := cols[|cols| - 1].name;
      assert forall i :: 0 <= i < |init| ==> init[i] == cols[i];
      assert UniqueNames(init);
      NameSetSize(init);
      NameSetExcludes(init, last);
    }
  }

  function ColumnNames(t: Table): set<string> {
    NameSet(t.columns)
  }

  /**
   * A dict built by `{c: f(c) for c in columns}`: one key per column, each mapped
   * to the value of its own column.
   */
  function PerColumn<V>(cols: seq<Column>, f: Column -> V): (m: map<string, V>)
    requires UniqueNames(cols)
    ensures m.Keys == NameSet(cols) && |m| == |cols|
    ensures forall i :: 0 <= i < |cols| ==> m[cols[i].name] == f(cols[i])
    decreases |cols|
  {
    if cols == [] then map[]
    else
      var init := cols[..|cols| - 1];
      var last := cols[|cols| - 1];
      assert forall i :: 0 <= i < |init| ==> init[i] == cols[i];
      assert UniqueNames(init);
      NameSetSize(cols);
      PerColumn(init, f)[last.name := f(last)]
  }

  /** The "dtypes" dict: one key per column, mapped to its kind. */
  function Dtypes(t: Table): (m: map<string, Kind>)
    ensures m.Keys == ColumnNames(t) && |m| == |t.columns|
    ensures forall i :: 0 <= i < |t.columns| ==> m[t.columns[i].name] == t.columns[i].kind
  {
    PerColumn(t.columns, (c: Column) => c.kind)
  }

  /** The "missing" dict: one key per column, mapped to its number of missing cells. */
  function MissingCounts(t: Table): (m: map<string, nat>)
    ensures m.Keys == ColumnNames(t) && |m| == |t.columns|
    ensures forall i :: 0 <= i < |t.columns| ==> m[t.columns[i].name] == MissingCount(t.columns[i].cells)
  {
    PerColumn(t.columns, (c: Column) => MissingCount(c.cells))
  }

  /** The keys of "numeric_summary": exactly the numeric columns. */
  function Described(t: Table): (s: set<string>)
    ensures s <= ColumnNames(t)
    ensures forall i :: 0 <= i < |t.columns| ==> (t.columns[i].name in s <==> t.columns[i].kind == Numeric)
  {
    var num := IndicesOfKind(t.columns, Numeric);
    var s := set m | 0 <= m < |num| :: t.columns[num[m]].name;
    assert s <= ColumnNames(t);
    forall i | 0 <= i < |t.columns|
      ensures t.columns[i].name in s <==> t.columns[i].kind == Numeric
    {
      if t.columns[i].kind == Numeric {
        IndicesComplete(t.columns, Numeric, i);
        var m :| 0 <= m < |num| && num[m] == i;
        assert t.columns[num[m]].name in s;
      }
    }
    s
  }

  /** app/analysis.py:24-29; fails when there is no numeric column to describe. */
  function Summarize(t: Table): (r: Result<Summary>)
    ensures r.Failure? <==> forall i :: 0 <= i < |t.columns| ==> t.columns[i].kind != Numeric
    ensures r.Failure? ==> r.error == DescribeError
    ensures r.Success? ==> r.value == Summary(t.rows, |t.columns|, Dtypes(t), MissingCounts(t), Described(t))
  {
    var num := IndicesOfKind(t.columns, Numeric);
    if num == [] then
      NoIndicesOfKind(t.columns, Numeric);
      Failure(DescribeError)
    else
      assert t.columns[num[0]].kind == Numeric;
      Success(Summary(t.rows, |t.columns|, Dtypes(t), MissingCounts(t), Described(t)))
  }

  // ----- the chart policy -----

  /** What a chart shows; the picture itself comes from the renderer. */
  datatype ChartPlan =
    | Heatmap(columns: seq<string>)
    | TopValues(column: string, bars: nat)
    | RowsPerDay(column: string)

  function Title(p: ChartPlan): string {
    match p
    case Heatmap(_) => "Correlation Heatmap"
    case TopValues(c, _) => "Top " + c + " values"
    case RowsPerDay(d) => "Rows per day (" + d + ")"
  }

  /** Position of a chart kind in the fixed emission order. */
  function Rank(p: ChartPlan): nat {
    match p
    case Heatmap(_) => 0
    case TopValues(_, _) => 1
    case RowsPerDay(_) => 2
  }

  /** `DataFrame.empty`: true when either axis has length zero. */
  predicate IsEmpty(rows: nat, cols: nat) {
    rows == 0 || cols == 0
  }

  /** The distinct present values, the bars `value_counts()` yields. */
  function DistinctValues(cells: seq<Cell>): set<Value> {
    set i | 0 <= i < |cells| && cells[i].Some? :: cells[i].value
  }

  /** `value_counts().head(10)`: at most ten bars. */
  function TopBars(cells: seq<Cell>): nat {
    var d := |DistinctValues(cells)|;
    if d < 10 then d else 10
  }

  /** app/analysis.py:34-39: `not num.empty and num.shape[1] > 1`. */
  function HeatmapPlan(t: Table): seq<ChartPlan> {
    var num := IndicesOfKind(t.columns, Numeric);
    if !IsEmpty(t.rows, |num|) && |num| > 1 then [Heatmap(NamesAt(t.columns, num))] else []
  }

  /** app/analysis.py:42-48: `not cat.empty`, then the first categorical column. */
  function TopValuesPlan(t: Table): seq<ChartPlan> {
    var cat := IndicesOfKind(t.columns, Categorical);
    if !IsEmpty(t.rows, |cat|) then
      [TopValues(t.columns[cat[0]].name, TopBars(t.columns[cat[0]].cells))]
    else []
  }

  /** app/analysis.py:51-57: a non-empty `date_cols`, then its first column. */
  function RowsPerDayPlan(t: Table): seq<ChartPlan> {
    var dates := IndicesOfKind(t.columns, Datetime);
    if dates != [] then [RowsPerDay(t.columns[dates[0]].name)] else []
  }

  /** The charts app/analysis.py:31-57 emits, in emission order. */
  function PlanCharts(t: Table): seq<ChartPlan> {
    HeatmapPlan(t) + TopValuesPlan(t) + RowsPerDayPlan(t)
  }

  /** Each rule contributes at most one chart, of its own kind. */
  lemma PlanKinds(t: Table)
    ensures |HeatmapPlan(t)| <= 1 && forall p :: p in HeatmapPlan(t) ==> Rank(p) == 0
    ensures |TopValuesPlan(t)| <= 1 && forall p :: p in TopValuesPlan(t) ==> Rank(p) == 1
    ensures |RowsPerDayPlan(t)| <= 1 && forall p :: p in RowsPerDayPlan(t) ==> Rank(p) == 2
  {
  }

  /** Concatenating at most one chart of each rank, in rank order, gives increasing ranks. */
  lemma RanksIncrease(h: seq<ChartPlan>, c: seq<ChartPlan>, d: seq<ChartPlan>)
    requires |h| <= 1 && forall p :: p in h ==> Rank(p) == 0
    requires |c| <= 1 && forall p :: p in c ==> Rank(p) == 1
    requires |d| <= 1 && forall p :: p in d ==> Rank(p) == 2
    ensures |h + c + d| <= 3
    ensures forall k, l :: 0 <= k < l < |h + c + d| ==> Rank((h + c + d)[k]) < Rank((h + c + d)[l])
  {
    var r := h + c + d;
    forall k | 0 <= k < |r|
      ensures Rank(r[k]) == if k < |h| then 0 else if k < |h| + |c| then 1 else 2
    {
      if k < |h| {
        assert r[k] in h;
      } else if k < |h| + |c| {
        assert r[k] == c[k - |h|];
      } else {
        assert r[k] == d[k - |h| - |c|];
      }
    }
  }

  /** At most three charts. */
  lemma ChartCount(t: Table)
    ensures |PlanCharts(t)| <= 3
  {
    PlanKinds(t);
  }

  /** Heatmap before top values before rows per day. */
  lemma ChartOrder(t: Table)
    ensures forall k, l :: 0 <= k < l < |PlanCharts(t)| ==> Rank(PlanCharts(t)[k]) < Rank(PlanCharts(t)[l])
  {
    PlanKinds(t);
    RanksIncrease(HeatmapPlan(t), TopValuesPlan(t), RowsPerDayPlan(t));
  }

  /** A chart of a given kind in the plan comes from that kind's rule. */
  lemma PlanSources(t: Table)
    ensures forall p :: p in PlanCharts(t) && p.Heatmap? ==> p in HeatmapPlan(t)
    ensures forall p :: p in PlanCharts(t) && p.TopValues? ==> p in TopValuesPlan(t)
    ensures forall p :: p in PlanCharts(t) && p.RowsPerDay? ==> p in RowsPerDayPlan(t)
  {
    PlanKinds(t);
    forall p | p in PlanCharts(t)
      ensures p in HeatmapPlan(t) || p in TopValuesPlan(t) || p in RowsPerDayPlan(t)
    {
    }
  }

  /** A heatmap of all numeric columns appears iff there are two numeric columns and a row. */
  lemma HeatmapRule(t: Table)
    ensures (exists p :: p in PlanCharts(t) && p.Heatmap?) <==> t.rows > 0 && |NumericNames(t)| >= 2
    ensures forall p :: p in PlanCharts(t) && p.Heatmap? ==>
              p == Heatmap(NumericNames(t)) && Title(p) == "Correlation Heatmap"
  {
    PlanSources(t);
    var h := HeatmapPlan(t);
    if h != [] {
      assert h[0] in PlanCharts(t);
    }
  }

  /** A top-values chart of the first categorical column appears iff there is one and a row. */
  lemma TopValuesRule(t: Table)
    ensures (exists p :: p in PlanCharts(t) && p.TopValues?) <==>
              t.rows > 0 && exists i :: 0 <= i < |t.columns| && t.columns[i].kind == Categorical
    ensures forall p :: p in PlanCharts(t) && p.TopValues? ==>
              p.bars <= 10 &&
              Title(p) == "Top " + p.column + " values" &&
              exists i :: FirstOfKindAt(t.columns, Categorical, i) && p.column == t.columns[i].name &&
                          p.bars == TopBars(t.columns[i].cells)
  {
    PlanSources(t);
    var c := TopValuesPlan(t);
    var cat := IndicesOfKind(t.columns, Categorical);
    if cat == [] {
      NoIndicesOfKind(t.columns, Categorical);
    } else {
      FirstIndexOfKind(t.columns, Categorical);
      if c != [] {
        assert c[0] in PlanCharts(t);
        assert FirstOfKindAt(t.columns, Categorical, cat[0]) && c[0].column == t.columns[cat[0]].name;
      } else {
        assert t.rows == 0;
      }
    }
  }

  /** A rows-per-day chart of the first datetime column appears iff there is one, even with no rows. */
  lemma RowsPerDayRule(t: Table)
    ensures (exists p :: p in PlanCharts(t) && p.RowsPerDay?) <==>
              exists i :: 0 <= i < |t.columns| && t.columns[i].kind == Datetime
    ensures forall p :: p in PlanCharts(t) && p.RowsPerDay? ==>
              Title(p) == "Rows per day (" + p.column + ")" &&
              exists i :: FirstOfKindAt(t.columns, Datetime, i) && p.column == t.columns[i].name
  {
    PlanSources(t);
    var d := RowsPerDayPlan(t);
    var dates := IndicesOfKind(t.columns, Datetime);
    if dates != [] {
      FirstIndexOfKind(t.columns, Datetime);
      assert d[0] in PlanCharts(t);
      assert FirstOfKindAt(t.columns, Datetime, dates[0]) && d[0].column == t.columns[dates[0]].name;
    } else {
      NoIndicesOfKind(t.columns, Datetime);
    }
  }

  // ----- rendering and the whole analysis -----

  /** What matplotlib makes of one chart: PNG bytes, or an exception. */
  datatype Rendering = Png(bytes: seq<Base64.Byte>) | RenderError(message: string)

  type Renderer = (Table, ChartPlan) -> Rendering

  /** One entry of the returned `charts` list. */
  datatype Chart = Chart(title: string, image: seq<Base64.Byte>)

  /** Renders the plans in order; the first exception ends the analysis. */
  function RenderCharts(t: Table, plans: seq<ChartPlan>, render: Renderer): (r: Result<seq<Chart>>)
    ensures r.Success? ==> |r.value| == |plans|
    decreases |plans|
  {
    if plans == [] then Success([])
    else
      var init := plans[..|plans| - 1];
      var last := plans[|plans| - 1];
      match RenderCharts(t, init, render)
      case Failure(e) => Failure(e)
      case Success(charts) =>
        match render(t, last)
        case RenderError(m) => Failure(m)
        case Png(bytes) => Success(charts + [Chart(Title(last), bytes)])
  }

  /** On success, chart k carries plan k's title and the bytes its rendering returned. */
  lemma {:induction false} RenderedChartsMatchPlans(t: Table, plans: seq<ChartPlan>, render: Renderer)
    requires RenderCharts(t, plans, render).Success?
    ensures var charts := RenderCharts(t, plans, render).value;
            forall k :: 0 <= k < |plans| ==>
              charts[k].title == Title(plans[k]) && render(t, plans[k]) == Png(charts[k].image)
    decreases |plans|
  {
    if plans != [] {
      var init := plans[..|plans| - 1];
      var last := plans[|plans| - 1];
      RenderedChartsMatchPlans(t, init, render);
      var prev := RenderCharts(t, init, render).value;
      var charts := RenderCharts(t, plans, render).value;
      assert charts == prev + [Chart(Title(last), render(t, last).bytes)];
      forall k | 0 <= k < |plans|
        ensures charts[k].title == Title(plans[k]) && render(t, plans[k]) == Png(charts[k].image)
      {
        if k < |init| {
          assert init[k] == plans[k] && charts[k] == prev[k];
        }
      }
    }
  }

  /** A failure is the error of the first plan whose rendering raised. */
  lemma {:induction false} RenderFailureIsFirst(t: Table, plans: seq<ChartPlan>, render: Renderer)
    requires RenderCharts(t, plans, render).Failure?
    ensures exists k :: 0 <= k < |plans| && render(t, plans[k]) == RenderError(RenderCharts(t, plans, render).error) &&
                        forall j :: 0 <= j < k ==> render(t, plans[j]).Png?
    decreases |plans|
  {
    var init := plans[..|plans| - 1];
    var e := RenderCharts(t, plans, render).error;
    assert forall k :: 0 <= k < |init| ==> init[k] == plans[k];
    if RenderCharts(t, init, render).Failure? {
      RenderFailureIsFirst(t, init, render);
      var k :| 0 <= k < |init| && render(t, init[k]) == RenderError(e) &&
               forall j :: 0 <= j < k ==> render(t, init[j]).Png?;
      assert render(t, plans[k]) == RenderError(e);
    } else {
      AllRenderedFromSuccess(t, init, render);
      assert render(t, plans[|plans| - 1]) == RenderError(e);
    }
  }

  /** A successful list means every rendering returned bytes. */
  lemma AllRenderedFromSuccess(t: Table, plans: seq<ChartPlan>, render: Renderer)
    requires RenderCharts(t, plans, render).Success?
    ensures forall k :: 0 <= k < |plans| ==> render(t, plans[k]).Png?
  {
    RenderedChartsMatchPlans(t, plans, render);
  }

  /** If every rendering returns bytes, the list is built. */
  lemma {:induction false} AllRenderedSucceeds(t: Table, plans: seq<ChartPlan>, render: Renderer)
    requires forall k :: 0 <= k < |plans| ==> render(t, plans[k]).Png?
    ensures RenderCharts(t, plans, render).Success?
    decreases |plans|
  {
    if plans != [] {
      var init := plans[..|plans| - 1];
      assert forall k :: 0 <= k < |init| ==> init[k] == plans[k];
      AllRenderedSucceeds(t, init, render);
    }
  }

  /** A failed rendering is not undone by the charts that would follow it. */
  lemma {:induction false} RenderFailureSticks(t: Table, plans: seq<ChartPlan>, more: seq<ChartPlan>, render: Renderer)
    requires RenderCharts(t, plans, render).Failure?
    ensures RenderCharts(t, plans + more, render) == RenderCharts(t, plans, render)
    decreases |more|
  {
    if more != [] {
      var init := more[..|more| - 1];
      RenderFailureSticks(t, plans, init, render);
      assert (plans + more)[..|plans + more| - 1] == plans + init;
    } else {
      assert plans + more == plans;
    }
  }

  /** One more plan rendered after a successful prefix. */
  lemma RenderStep(t: Table, plans: seq<ChartPlan>, p: ChartPlan, render: Renderer)
    ensures RenderCharts(t, plans + [p], render) ==
              match RenderCharts(t, plans, render)
              case Failure(e) => Failure(e)
              case Success(charts) =>
                match render(t, p)
                case RenderError(m) => Failure(m)
                case Png(bytes) => Success(charts + [Chart(Title(p), bytes)])
  {
    assert (plans + [p])[..|plans|] == plans;
  }

  datatype Eda = Eda(summary: Summary, charts: seq<Chart>)

  /** The value `run_basic_eda` returns for an already coerced table, or the exception it raises. */
  function Analyze(t: Table, render: Renderer): (r: Result<Eda>)
    ensures Summarize(t).Failure? ==> r == Failure(DescribeError)
    ensures r.Success? ==>
              Summarize(t) == Success(r.value.summary) &&
              RenderCharts(t, PlanCharts(t), render) == Success(r.value.charts)
  {
    match Summarize(t)
    case Failure(e) => Failure(e)
    case Success(s) =>
      match RenderCharts(t, PlanCharts(t), render)
      case Failure(e) => Failure(e)
      case Success(charts) => Success(Eda(s, charts))
  }

  /**
   * The analysis succeeds iff the summary succeeds and every planned chart renders;
   * when only the rendering fails, the first rendering error is the one raised.
   */
  lemma AnalyzeSucceeds(t: Table, render: Renderer)
    ensures Analyze(t, render).Success? <==>
              Summarize(t).Success? && RenderCharts(t, PlanCharts(t), render).Success?
    ensures Summarize(t).Success? && RenderCharts(t, PlanCharts(t), render).Failure? ==>
              Analyze(t, render) == Failure(RenderCharts(t, PlanCharts(t), render).error)
  {
  }

  /**
   * A table without a numeric column makes the analysis raise the describe error;
   * a successful analysis has one chart per plan, at most three, with the plan's title.
   */
  lemma AnalyzedCharts(t: Table, render: Renderer)
    ensures (forall i :: 0 <= i < |t.columns| ==> t.columns[i].kind != Numeric) ==>
              Analyze(t, render) == Failure(DescribeError)
    ensures var r := Analyze(t, render);
            r.Success? ==>
              |r.value.charts| == |PlanCharts(t)| <= 3 &&
              forall k :: 0 <= k < |r.value.charts| ==> r.value.charts[k].title == Title(PlanCharts(t)[k])
  {
    ChartCount(t);
    if Analyze(t, render).Success? {
      RenderedChartsMatchPlans(t, PlanCharts(t), render);
    }
  }

  /**
   * Draws one chart and appends `(title, png_bytes)` to the list built so far;
   * a rendering exception ends the list.
   */
  method AppendChart(t: Table, charts: seq<Chart>, ghost done: seq<ChartPlan>, plan: ChartPlan, render: Renderer)
    returns (r: Result<seq<Chart>>)
    requires RenderCharts(t, done, render) == Success(charts)
    ensures r == RenderCharts(t, done + [plan], render)
  {
    RenderStep(t, done, plan, render);
    var image := render(t, plan);
    if image.RenderError? {
      return Failure(image.message);
    }
    return Success(charts + [Chart(Title(plan), image.bytes)]);
  }

  /** The plans that follow a failed one do not change the outcome. */
  lemma FailureEndsCharts(t: Table, done: seq<ChartPlan>, rest: seq<ChartPlan>, whole: seq<ChartPlan>, render: Renderer)
    requires whole == done + rest && RenderCharts(t, done, render).Failure?
    ensures RenderCharts(t, whole, render) == RenderCharts(t, done, render)
  {
    RenderFailureSticks(t, done, rest, render);
  }

  /** app/analysis.py:33-39: the heatmap block, appending to the empty list. */
  method HeatmapStep(t: Table, render: Renderer) returns (r: Result<seq<Chart>>)
    ensures r == RenderCharts(t, HeatmapPlan(t), render)
  {
    var num := IndicesOfKind(t.columns, Numeric);
    if !IsEmpty(t.rows, |num|) && |num| > 1 {
      r := AppendChart(t, [], [], Heatmap(NamesAt(t.columns, num)), render);
      assert HeatmapPlan(t) == [] + [Heatmap(NamesAt(t.columns, num))];
    } else {
      r := Success([]);
    }
  }

  /** app/analysis.py:41-48: the top-values block, appending to the charts of the plans `done`. */
  method TopValuesStep(t: Table, charts: seq<Chart>, ghost done: seq<ChartPlan>, render: Renderer)
    returns (r: Result<seq<Chart>>)
    requires RenderCharts(t, done, render) == Success(charts)
    ensures r == RenderCharts(t, done + TopValuesPlan(t), render)
  {
    var cat := IndicesOfKind(t.columns, Categorical);
    if !IsEmpty(t.rows, |cat|) {
      var c0 := t.columns[cat[0]];
      var plan := TopValues(c0.name, TopBars(c0.cells));
      assert TopValuesPlan(t) == [plan];
      r := AppendChart(t, charts, done, plan, render);
    } else {
      assert TopValuesPlan(t) == [];
      assert done + [] == done;
      r := Success(charts);
    }
  }

  /** app/analysis.py:50-57: the rows-per-day block, appending to the charts of the plans `done`. */
  method RowsPerDayStep(t: Table, charts: seq<Chart>, ghost done: seq<ChartPlan>, render: Renderer)
    returns (r: Result<seq<Chart>>)
    requires RenderCharts(t, done, render) == Success(charts)
    ensures r == RenderCharts(t, done + RowsPerDayPlan(t), render)
  {
    var dates := IndicesOfKind(t.columns, Datetime);
    if dates != [] {
      r := AppendChart(t, charts, done, RowsPerDay(t.columns[dates[0]].name), render);
    } else {
      assert RowsPerDayPlan(t) == [];
      assert done + [] == done;
      r := Success(charts);
    }
  }

  /** app/analysis.py:31-57: the `charts` list, appended to in the fixed order. */
  method BuildCharts(t: Table, render: Renderer) returns (r: Result<seq<Chart>>)
    ensures r == RenderCharts(t, PlanCharts(t), render)
  {
    ghost var h, c, d := HeatmapPlan(t), TopValuesPlan(t), RowsPerDayPlan(t);
    r := HeatmapStep(t, render);
    if r.Failure? {
      FailureEndsCharts(t, h, c + d, PlanCharts(t), render);
      return;
    }
    r := TopValuesStep(t, r.value, h, render);
    if r.Failure? {
      FailureEndsCharts(t, h + c, d, PlanCharts(t), render);
      return;
    }
    r := RowsPerDayStep(t, r.value, h + c, render);
  }

  /**
   * app/analysis.py:15-59: coerces the caller's frame in place, then builds the
   * summary and the charts.
   */
  method RunBasicEda(df: Frame, convert: Converter, render: Renderer) returns (r: Result<Eda>)
    requires df.Valid()
    modifies df
    ensures df.Valid() && df.Contents() == CoerceDates(old(df.Contents()), convert)
    ensures r == Analyze(df.Contents(), render)
  {
    df.CoerceDateColumns(convert);
    var t := df.Contents();
    var summary := Summarize(t);
    if summary.Failure? {
      return Failure(summary.error);
    }
    var charts := BuildCharts(t, render);
    if charts.Failure? {
      return Failure(charts.error);
    }
    return Success(Eda(summary.value, charts.value));
  }

  // ----- consequences and worked examples -----

  /**
   * Coercion happens before the summary, so the missing count reported for a
   * converted date column also counts the values pandas could not parse.
   */
  lemma MissingAfterCoercion(t: Table, convert: Converter, i: nat)
    requires i < |t.columns| && IsDateName(t.columns[i].name)
    requires ToDatetime(t.columns[i].cells, convert(t.columns[i])).Success?
    ensures var coerced := CoerceDates(t, convert);
            MissingCounts(coerced)[t.columns[i].name]
              == MissingCount(t.columns[i].cells) + UnparseableCount(t.columns[i].cells, convert(t.columns[i]))
  {
    ToDatetimeMissing(t.columns[i].cells, convert(t.columns[i]));
    var coerced := CoerceDates(t, convert);
    assert coerced.columns[i].name == t.columns[i].name;
  }

  /** The file `id,amount` / `1,10.5` / `2,` / `3,7` as read: two numeric columns. */
  function IdAmount(): Table
  {
    TableData(3, [
      Column("id", Numeric, [Some(Field("1")), Some(Field("2")), Some(Field("3"))]),
      Column("amount", Numeric, [Some(Field("10.5")), None, Some(Field("7"))])])
  }

  /** Its summary: 3 rows, 2 columns, no missing id, one missing amount, both columns described. */
  lemma IdAmountSummary()
    ensures var t := IdAmount();
            Summarize(t).Success? &&
            Summarize(t).value.rows == 3 && Summarize(t).value.cols == 2 &&
            Summarize(t).value.missing["id"] == 0 && Summarize(t).value.missing["amount"] == 1 &&
            Summarize(t).value.described == {"id", "amount"}
  {
    var t := IdAmount();
    var id, amount := t.columns[0].cells, t.columns[1].cells;
    assert MissingCount(id[2..]) == 0 && MissingCount(id[1..]) == 0;
    assert MissingCount(amount[2..]) == 0 && MissingCount(amount[1..]) == 1;
    var first := t.columns[..1];
    assert first[..0] == [] && first == [t.columns[0]];
    assert NameSet(first) == {"id"};
    assert ColumnNames(t) == NameSet(first) + {"amount"};
    var s := Described(t);
    assert "id" in s && "amount" in s;
  }

  /** Both columns are numeric and there are rows, so exactly one heatmap is drawn. */
  lemma IdAmountCharts()
    ensures PlanCharts(IdAmount()) == [Heatmap(["id", "amount"])]
  {
    var t := IdAmount();
    var first := t.columns[..1];
    assert first[..0] == [] && first == [t.columns[0]];
    assert IndicesOfKind(first, Numeric) == [0];
    assert IndicesOfKind(first, Categorical) == [] && IndicesOfKind(first, Datetime) == [];
    assert IndicesOfKind(t.columns, Numeric) == [0, 1];
    assert IndicesOfKind(t.columns, Categorical) == [] && IndicesOfKind(t.columns, Datetime) == [];
    assert NamesAt(t.columns, [0, 1]) == ["id", "amount"];
  }

  /** A file with only text columns has nothing to describe, so the analysis raises. */
  lemma TextOnlyFails(render: Renderer)
    ensures Analyze(TableData(2, [Column("name", Categorical, [Some(Field("a")), Some(Field("b"))])]), render)
            == Failure(DescribeError)
  {
  }
}
