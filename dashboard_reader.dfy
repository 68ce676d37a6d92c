/**
 * The dashboard extractor: walks a dashboard's grid in reading order and
 * emits one canonical chart per chart widget, taking its style metadata
 * from the text widget beside it or from its subtitle
 * (scripts/agents/dashboardReader.js).
 */
module DashboardReader {
  import opened Basics
  import opened Text
  import opened Json
  import opened Naming
  import opened StyleText
  import opened Saql
  import opened Ledger
  import opened LayoutSort
  import opened Model

  /** A widget's `step`: absent, a step name, or an inline step with or without a query. */
  datatype StepField = NoStep | StepName(name: string) | InlineStep(query: Option<Query>)

  /**
   * The members of a widget the extractor reads: `title`, `parameters.title.label`,
   * `properties.title`, `subtitle`, `parameters.title.subtitleLabel`, the text
   * widget's `parameters.content.richTextContent` inserts, `step`,
   * `parameters.step`, `saql`, `parameters.visualizationType` and the
   * `parameters.columnMap` lists.
   */
  datatype Widget = Widget(
    widgetType: Option<string>,
    title: Option<string>,
    titleLabel: Option<string>,
    propertiesTitle: Option<string>,
    subtitle: Option<string>,
    subtitleLabel: Option<string>,
    richText: Option<seq<Option<string>>>,
    step: StepField,
    parameterStep: Option<string>,
    saql: Option<string>,
    visualizationType: Option<string>,
    plots: seq<string>,
    dimensionAxis: seq<string>)

  /**
   * A retrieved dashboard: its error flag and message, its steps (a step
   * without a query maps to None), its widgets by name, its first page's
   * layout and the id of its first dataset ("" when there is none).
   */
  datatype Dashboard = Dashboard(
    errorCode: bool,
    message: string,
    steps: map<string, Option<Query>>,
    widgets: map<string, Widget>,
    layout: seq<LayoutEntry>,
    datasetId: string)

  /** The outcome of a read: charts written, nothing written (a chart lacks a title or query), or an exception. */
  datatype ReadOutcome = Written(charts: seq<Chart>) | NoOutput | Failed(message: string)

  const NullMetaError: string := "TypeError: Cannot convert undefined or null to object"

  predicate Truthy(o: Option<string>)
  {
    o.Some? && o.value != []
  }

  predicate IsText(w: Widget)
  {
    w.widgetType == Some("text")
  }

  /** A layout entry naming a widget that is not a text widget: the extractor emits a chart for it. */
  predicate IsChartEntry(d: Dashboard, e: LayoutEntry)
  {
    e.name in d.widgets && !IsText(d.widgets[e.name])
  }

  /** The title: `title`, else `parameters.title.label`, else `properties.title`; None when all are empty. */
  function TitleOf(w: Widget): (r: Option<string>)
    ensures r.Some? ==> r.value != []
  {
    if Truthy(w.title) then w.title
    else if Truthy(w.titleLabel) then w.titleLabel
    else if Truthy(w.propertiesTitle) then w.propertiesTitle
    else None
  }

  function SubtitleOf(w: Widget): Option<string>
  {
    if Truthy(w.subtitle) then w.subtitle else w.subtitleLabel
  }

  /** The key looked up in the dashboard's steps; a missing name is the key "undefined". */
  function StepKey(w: Widget): string
  {
    if w.step.StepName? && w.step.name != [] then w.step.name
    else if w.parameterStep.Some? then w.parameterStep.value
    else "undefined"
  }

  /**
   * The raw query: the widget's own SAQL, else its inline step's query
   * converted, else its named step's query converted; None when there is none.
   */
  function ResolveQuery(d: Dashboard, w: Widget): (r: Result<Option<string>>)
    ensures r.Ok? && r.value.Some? ==> r.value.value != []
  {
    if Truthy(w.saql) then Ok(w.saql)
    else
      var q := if w.step.InlineStep? && w.step.query.Some? then w.step.query
               else if StepKey(w) in d.steps then d.steps[StepKey(w)]
               else None;
      if q.None? then Ok(None)
      else match SaqlOf(q.value, d.datasetId)
        case Error(m) => Error(m)
        case Ok(s) => Ok(Some(s))
  }

  /** `meta.type || w.type || parameters.visualizationType`. */
  function TypeHint(meta: Meta, w: Widget): Option<string>
  {
    if MetaTruthy(meta, "type") then MetaValue(meta, "type")
    else if Truthy(w.widgetType) then w.widgetType
    else w.visualizationType
  }

  /** `fieldMappings[f] = f` for each name in turn. */
  function MapFields(acc: seq<Field>, names: seq<string>): seq<Field>
    decreases names
  {
    if names == [] then acc else MapFields(Put(acc, names[0], Str(names[0])), names[1..])
  }

  /** The field mappings: every plot and dimension-axis name maps to itself. */
  function FieldMappings(w: Widget): seq<Field>
  {
    MapFields(MapFields([], w.plots), w.dimensionAxis)
  }

  lemma {:induction false} MapFieldsLookup(acc: seq<Field>, names: seq<string>, k: string)
    ensures Find(MapFields(acc, names), k) == if k in names then Some(Str(k)) else Find(acc, k)
    decreases names
  {
    if names != [] {
      MapFieldsLookup(Put(acc, names[0], Str(names[0])), names[1..], k);
      if k != names[0] {
        PutOther(acc, names[0], Str(names[0]), k);
      }
    }
  }

  /** Each column-map name maps to itself, and nothing else is mapped. */
  lemma FieldMappingsIdentity(w: Widget, k: string)
    ensures Find(FieldMappings(w), k) == if k in w.plots + w.dimensionAxis then Some(Str(k)) else None
  {
    MapFieldsLookup([], w.plots, k);
    MapFieldsLookup(MapFields([], w.plots), w.dimensionAxis, k);
  }

  predicate ShadowRequested(meta: Meta)
  {
    MetaValue(meta, "shadow") == Some("true") || MetaValue(meta, "effects") == Some("shadow")
    || MetaValue(meta, "dropshadow") == Some("true")
  }

  /** A member present only when its value is. */
  function Member(key: string, value: Option<string>): seq<Field>
  {
    if value.Some? then [(key, Str(value.value))] else []
  }

  /** The style members in the order the extractor assigns them. */
  function StyleMembers(colors: Option<string>, font: Option<string>, fontColor: Option<string>,
                        xSize: Option<string>, ySize: Option<string>, shadow: bool): seq<Field>
  {
    Member("seriesColors", colors) + Member("font", font) + Member("fontColor", fontColor)
    + Member("xAxisFontSize", xSize) + Member("yAxisFontSize", ySize)
    + (if shadow then [("effects", Arr([Str("shadow")]))] else [])
  }

  /** `meta[key]` when it is a non-empty string. */
  function TruthyValue(meta: Meta, key: string): Option<string>
  {
    if MetaTruthy(meta, key) then MetaValue(meta, key) else None
  }

  /** The chart style the metadata asks for, colour names mapped to hex codes. */
  function StyleFields(meta: Meta): seq<Field>
  {
    var colors := TruthyValue(meta, "colors");
    StyleMembers(if colors.Some? then Some(MapColors(colors.value)) else None,
                 TruthyValue(meta, "font"), TruthyValue(meta, "font-color"),
                 TruthyValue(meta, "x-axis-font-size"), TruthyValue(meta, "y-axis-font-size"),
                 ShadowRequested(meta))
  }

  /** A member under another key does not answer a lookup. */
  lemma FindMemberOther(key: string, value: Option<string>, k: string)
    requires k != key
    ensures Find(Member(key, value), k) == None
  {
  }

  /** A member answers a lookup of its own key exactly when it is present. */
  lemma FindMemberSame(key: string, value: Option<string>)
    ensures Find(Member(key, value), key) == if value.Some? then Some(Str(value.value)) else None
  {
  }

  lemma StyleMembersColors(colors: Option<string>, font: Option<string>, fontColor: Option<string>,
                           xSize: Option<string>, ySize: Option<string>, shadow: bool)
    ensures Find(StyleMembers(colors, font, fontColor, xSize, ySize, shadow), "seriesColors") ==
              if colors.Some? then Some(Str(colors.value)) else None
  {
    var k := "seriesColors";
    var a1 := Member(k, colors);
    var a2 := a1 + Member("font", font);
    var a3 := a2 + Member("fontColor", fontColor);
    var a4 := a3 + Member("xAxisFontSize", xSize);
    var a5 := a4 + Member("yAxisFontSize", ySize);
    var e: seq<Field> := if shadow then [("effects", Arr([Str("shadow")]))] else [];
    FindMemberSame(k, colors);
    FindMemberOther("font", font, k);
    FindAppend(a1, Member("font", font), k);
    FindMemberOther("fontColor", fontColor, k);
    FindAppend(a2, Member("fontColor", fontColor), k);
    FindMemberOther("xAxisFontSize", xSize, k);
    FindAppend(a3, Member("xAxisFontSize", xSize), k);
    FindMemberOther("yAxisFontSize", ySize, k);
    FindAppend(a4, Member("yAxisFontSize", ySize), k);
    assert Find(e, k) == None;
    FindAppend(a5, e, k);
  }

  lemma StyleMembersEffects(colors: Option<string>, font: Option<string>, fontColor: Option<string>,
                            xSize: Option<string>, ySize: Option<string>, shadow: bool)
    ensures Find(StyleMembers(colors, font, fontColor, xSize, ySize, shadow), "effects") ==
              if shadow then Some(Arr([Str("shadow")])) else None
  {
    var k := "effects";
    var a1 := Member("seriesColors", colors);
    var a2 := a1 + Member("font", font);
    var a3 := a2 + Member("fontColor", fontColor);
    var a4 := a3 + Member("xAxisFontSize", xSize);
    var a5 := a4 + Member("yAxisFontSize", ySize);
    var e: seq<Field> := if shadow then [("effects", Arr([Str("shadow")]))] else [];
    FindMemberOther("seriesColors", colors, k);
    FindMemberOther("font", font, k);
    FindAppend(a1, Member("font", font), k);
    FindMemberOther("fontColor", fontColor, k);
    FindAppend(a2, Member("fontColor", fontColor), k);
    FindMemberOther("xAxisFontSize", xSize, k);
    FindAppend(a3, Member("xAxisFontSize", xSize), k);
    FindMemberOther("yAxisFontSize", ySize, k);
    FindAppend(a4, Member("yAxisFontSize", ySize), k);
    FindAppend(a5, e, k);
  }

  /**
   * The style holds `seriesColors` (the colours mapped) exactly when the
   * metadata names colours, and `effects: ["shadow"]` exactly when it asks
   * for a shadow.
   */
  lemma StyleFieldsLookup(meta: Meta)
    ensures Find(StyleFields(meta), "seriesColors") ==
              if MetaTruthy(meta, "colors") then Some(Str(MapColors(MetaValue(meta, "colors").value))) else None
    ensures Find(StyleFields(meta), "effects") == if ShadowRequested(meta) then Some(Arr([Str("shadow")])) else None
  {
    var colors := TruthyValue(meta, "colors");
    var mapped := if colors.Some? then Some(MapColors(colors.value)) else None;
    StyleMembersColors(mapped, TruthyValue(meta, "font"), TruthyValue(meta, "font-color"),
                       TruthyValue(meta, "x-axis-font-size"), TruthyValue(meta, "y-axis-font-size"),
                       ShadowRequested(meta));
    StyleMembersEffects(mapped, TruthyValue(meta, "font"), TruthyValue(meta, "font-color"),
                        TruthyValue(meta, "x-axis-font-size"), TruthyValue(meta, "y-axis-font-size"),
                        ShadowRequested(meta));
  }

  /** The chart record for one chart widget. */
  function BuildChart(name: string, w: Widget, meta: Meta, title: string, saql: string): (r: Chart)
    ensures r.id == ToKebab(title) && NoUpper(r.id) && NoGaps(r.id)
    ensures r.dashboard == Some(Str(name))
    ensures r.chartType == Some(Str("bar")) || r.chartType == Some(Str("box-and-whisker"))
    ensures r.title == Some(Str(if MetaTruthy(meta, "title") then MetaValue(meta, "title").value else title))
  {
    Chart(
      Some(Str(name)),
      ToKebab(title),
      Some(Str(NormalizeType(TypeHint(meta, w)))),
      Some(Str(if MetaTruthy(meta, "title") then MetaValue(meta, "title").value else title)),
      Some(Obj(FieldMappings(w))),
      Some(Str(saql)),
      Some(Obj(StyleFields(meta))))
  }

  /** The text widget in the next slot of the same row, which supplies the chart's metadata. */
  function Companion(d: Dashboard, layout: seq<LayoutEntry>, i: nat): Option<Widget>
    requires i < |layout|
  {
    if i + 1 < |layout| && layout[i + 1].row == layout[i].row
       && layout[i + 1].name in d.widgets && IsText(d.widgets[layout[i + 1].name])
    then Some(d.widgets[layout[i + 1].name])
    else None
  }

  function TextMeta(w: Widget): Option<Meta>
  {
    if w.richText.None? then None else Some(StyleOf(Some(InsertText(w.richText.value))))
  }

  /**
   * The chart's metadata: the companion's, unless that is empty, then the
   * subtitle's. None when the companion has no rich text (a TypeError).
   */
  function ChartMeta(d: Dashboard, layout: seq<LayoutEntry>, i: nat, w: Widget): Option<Meta>
    requires i < |layout|
  {
    var c := Companion(d, layout, i);
    if c.None? then Some(StyleOf(SubtitleOf(w)))
    else match TextMeta(c.value)
      case None => None
      case Some(m) => if m == [] then Some(StyleOf(SubtitleOf(w))) else Some(m)
  }

  /** What visiting slot `i` does: skip to a later slot, emit a chart and go on, or end the read. */
  datatype Step = Skip(next: nat) | Emit(chart: Chart, next: nat) | Stop(outcome: ReadOutcome)

  function VisitSpec(d: Dashboard, name: string, layout: seq<LayoutEntry>, i: nat): (r: Step)
    requires i < |layout|
    ensures r.Skip? <==> !IsChartEntry(d, layout[i])
    ensures r.Skip? ==> r.next == i + 1
    ensures r.Emit? ==> i < r.next <= i + 2 && Complete(d, d.widgets[layout[i].name])
    ensures r.Emit? && r.next == i + 2 ==> i + 1 < |layout| && !IsChartEntry(d, layout[i + 1])
    ensures r.Emit? ==> (r.next == i + 2 <==> Companion(d, layout, i).Some?)
    ensures r.Emit? ==> r.chart.dashboard == Some(Str(name)) && NoUpper(r.chart.id) && NoGaps(r.chart.id)
    ensures r.Stop? ==> !r.outcome.Written?
  {
    if !IsChartEntry(d, layout[i]) then Skip(i + 1)
    else
      var w := d.widgets[layout[i].name];
      match ChartMeta(d, layout, i, w)
      case None => Stop(Failed(NullMetaError))
      case Some(meta) =>
        match ResolveQuery(d, w)
        case Error(m) => Stop(Failed(m))
        case Ok(q) =>
          if TitleOf(w).None? || q.None? then Stop(NoOutput)
          else Emit(BuildChart(name, w, meta, TitleOf(w).value, q.value),
                    if Companion(d, layout, i).Some? then i + 2 else i + 1)
  }

  /** A chart widget has a title and a query. */
  predicate Complete(d: Dashboard, w: Widget)
  {
    TitleOf(w).Some? && ResolveQuery(d, w).Ok? && ResolveQuery(d, w).value.Some?
  }

  /**
   * An emitted chart takes its metadata from the text widget beside it when
   * that widget's metadata is non-empty, and from the chart's subtitle
   * otherwise; its title and style are built from that metadata.
   */
  lemma EmittedChartMeta(d: Dashboard, name: string, layout: seq<LayoutEntry>, i: nat)
    requires i < |layout| && VisitSpec(d, name, layout, i).Emit?
    ensures var w := d.widgets[layout[i].name];
            var c := Companion(d, layout, i);
            var r := VisitSpec(d, name, layout, i);
            && (c.Some? ==> TextMeta(c.value).Some?)
            && var meta := if c.Some? && TextMeta(c.value).value != [] then TextMeta(c.value).value
                           else StyleOf(SubtitleOf(w));
               && r.chart.title == Some(Str(if MetaTruthy(meta, "title") then MetaValue(meta, "title").value
                                            else TitleOf(w).value))
               && r.chart.style == Some(Obj(StyleFields(meta)))
  {
  }

  /** The metadata that visiting slot `i` hands to `updateChartStyles`, in call order. */
  function VisitRecords(d: Dashboard, layout: seq<LayoutEntry>, i: nat): seq<Meta>
    requires i < |layout|
  {
    if !IsChartEntry(d, layout[i]) then []
    else
      var w := d.widgets[layout[i].name];
      var c := Companion(d, layout, i);
      if c.None? then [StyleOf(SubtitleOf(w))]
      else match TextMeta(c.value)
        case None => []
        case Some(m) => if m == [] then [m, StyleOf(SubtitleOf(w))] else [m]
  }

  /** Every step that does not end the read moves forward; a step that ends it writes nothing. */
  predicate Forward(plan: seq<Step>)
  {
    forall k :: 0 <= k < |plan| ==>
      (!plan[k].Stop? ==> plan[k].next > k) && (plan[k].Stop? ==> !plan[k].outcome.Written?)
  }

  /** The steps of every slot of a layout. */
  function Plan(d: Dashboard, name: string, layout: seq<LayoutEntry>): (r: seq<Step>)
    ensures |r| == |layout| && Forward(r)
    ensures forall k :: 0 <= k < |layout| ==> r[k] == VisitSpec(d, name, layout, k)
  {
    seq(|layout|, k requires 0 <= k < |layout| => VisitSpec(d, name, layout, k))
  }

  /** Following the steps from slot `i`, with the charts emitted so far. */
  function Run(plan: seq<Step>, i: nat, acc: seq<Chart>): ReadOutcome
    requires Forward(plan)
    decreases |plan| - i
  {
    if i >= |plan| then Written(acc)
    else match plan[i]
      case Skip(next) => Run(plan, next, acc)
      case Emit(c, next) => Run(plan, next, acc + [c])
      case Stop(out) => out
  }

  /** The metadata recorded along a run from slot `i`, up to the step that ends it. */
  function RunRecords(d: Dashboard, layout: seq<LayoutEntry>, plan: seq<Step>, i: nat): seq<Meta>
    requires Forward(plan) && |plan| == |layout|
    decreases |plan| - i
  {
    if i >= |plan| then []
    else
      VisitRecords(d, layout, i)
      + match plan[i]
        case Skip(next) => RunRecords(d, layout, plan, next)
        case Emit(_, next) => RunRecords(d, layout, plan, next)
        case Stop(_) => []
  }

  /** The metadata `readDashboard` records, in call order. */
  function ReadRecords(d: Dashboard, name: string): seq<Meta>
  {
    if name == [] || d.errorCode then []
    else
      var layout := SortLayout(d.layout);
      RunRecords(d, layout, Plan(d, name, layout), 0)
  }

  /** What `readDashboard` returns for a dashboard it has loaded. */
  function ReadSpec(d: Dashboard, name: string): ReadOutcome
  {
    if name == [] then Failed("dashboardApiName is required")
    else if d.errorCode then Failed("Invalid dashboard JSON: " + (if d.message == [] then "Unknown error" else d.message))
    else Run(Plan(d, name, SortLayout(d.layout)), 0, [])
  }

  /**
   * The shape every plan has: exactly the chart slots (marked in `isChart`)
   * emit or end the read, other slots are skipped one at a time, and an
   * emitting slot consumes at most the following slot, never a chart slot.
   */
  predicate Fits(plan: seq<Step>, isChart: seq<bool>)
  {
    |plan| == |isChart|
    && forall k :: 0 <= k < |plan| ==>
         (plan[k].Skip? <==> !isChart[k])
         && (plan[k].Skip? ==> plan[k].next == k + 1)
         && (plan[k].Emit? ==> k < plan[k].next <= k + 2)
         && (plan[k].Emit? && plan[k].next == k + 2 ==> k + 1 < |plan| && !isChart[k + 1])
  }

  /** The chart slots of a layout. */
  function ChartMask(d: Dashboard, layout: seq<LayoutEntry>): (r: seq<bool>)
    ensures |r| == |layout|
  {
    seq(|layout|, k requires 0 <= k < |layout| => IsChartEntry(d, layout[k]))
  }

  /** The number of marked slots from `i` on. */
  function Count(isChart: seq<bool>, i: nat): nat
    decreases |isChart| - i
  {
    if i >= |isChart| then 0 else (if isChart[i] then 1 else 0) + Count(isChart, i + 1)
  }

  /** The charts the plan's emitting steps carry. */
  function Emitted(plan: seq<Step>): seq<Chart>
  {
    if plan == [] then []
    else (if plan[0].Emit? then [plan[0].chart] else []) + Emitted(plan[1..])
  }

  lemma PlanFits(d: Dashboard, name: string, layout: seq<LayoutEntry>)
    ensures Fits(Plan(d, name, layout), ChartMask(d, layout))
  {
  }

  /** A completed run emits one chart per chart slot, after those already emitted. */
  lemma {:induction false} RunOnePerChart(plan: seq<Step>, isChart: seq<bool>, i: nat, acc: seq<Chart>)
    requires Forward(plan) && Fits(plan, isChart) && Run(plan, i, acc).Written?
    ensures |Run(plan, i, acc).charts| == |acc| + Count(isChart, i)
    ensures acc <= Run(plan, i, acc).charts
    decreases |plan| - i
  {
    if i < |plan| {
      var v := plan[i];
      if v.Skip? {
        RunOnePerChart(plan, isChart, v.next, acc);
      } else if v.Emit? {
        RunOnePerChart(plan, isChart, v.next, acc + [v.chart]);
        if v.next == i + 2 {
          assert Count(isChart, i) == 1 + Count(isChart, i + 2);
        }
      } else {
        assert false;
      }
    }
  }

  /** A completed run passed through every chart slot from `i` on, and each emitted. */
  lemma {:induction false} RunEmitsEveryChart(plan: seq<Step>, isChart: seq<bool>, i: nat, acc: seq<Chart>, j: nat)
    requires Forward(plan) && Fits(plan, isChart) && Run(plan, i, acc).Written?
    requires i <= j < |plan| && isChart[j]
    ensures plan[j].Emit?
    decreases |plan| - i
  {
    var v := plan[i];
    if v.Stop? {
      assert false;
    } else if j > i {
      if v.Skip? {
        RunEmitsEveryChart(plan, isChart, v.next, acc, j);
      } else if j < v.next {
        assert false;
      } else {
        RunEmitsEveryChart(plan, isChart, v.next, acc + [v.chart], j);
      }
    }
  }

  lemma {:induction false} EmittedHas(plan: seq<Step>, k: nat)
    requires k < |plan| && plan[k].Emit?
    ensures plan[k].chart in Emitted(plan)
  {
    if k > 0 {
      EmittedHas(plan[1..], k - 1);
    }
  }

  /** Every chart of a completed run was already emitted or is carried by one of the plan's steps. */
  lemma {:induction false} RunChartsEmitted(plan: seq<Step>, i: nat, acc: seq<Chart>)
    requires Forward(plan) && Run(plan, i, acc).Written?
    ensures forall c :: c in Run(plan, i, acc).charts ==> c in acc || c in Emitted(plan)
    decreases |plan| - i
  {
    if i < |plan| {
      var v := plan[i];
      if v.Skip? {
        RunChartsEmitted(plan, v.next, acc);
      } else if v.Emit? {
        RunChartsEmitted(plan, v.next, acc + [v.chart]);
        EmittedHas(plan, i);
      } else {
        assert false;
      }
    }
  }

  lemma {:induction false} EmittedFrom(plan: seq<Step>, c: Chart)
    requires c in Emitted(plan)
    ensures exists k :: 0 <= k < |plan| && plan[k].Emit? && plan[k].chart == c
  {
    if !(plan[0].Emit? && plan[0].chart == c) {
      EmittedFrom(plan[1..], c);
      var k :| 0 <= k < |plan[1..]| && plan[1..][k].Emit? && plan[1..][k].chart == c;
      assert plan[k + 1] == plan[1..][k];
    }
  }

  /**
   * A written read emits exactly one chart per chart widget of the sorted
   * layout: text widgets never yield a chart.
   */
  lemma ReadOnePerChartWidget(d: Dashboard, name: string)
    requires ReadSpec(d, name).Written?
    ensures |ReadSpec(d, name).charts| == Count(ChartMask(d, SortLayout(d.layout)), 0)
  {
    var layout := SortLayout(d.layout);
    PlanFits(d, name, layout);
    RunOnePerChart(Plan(d, name, layout), ChartMask(d, layout), 0, []);
  }

  /** A read writes charts only when every chart widget has a title and a query. */
  lemma ReadWrittenComplete(d: Dashboard, name: string, j: nat)
    requires ReadSpec(d, name).Written?
    requires j < |SortLayout(d.layout)| && IsChartEntry(d, SortLayout(d.layout)[j])
    ensures Complete(d, d.widgets[SortLayout(d.layout)[j].name])
  {
    var layout := SortLayout(d.layout);
    PlanFits(d, name, layout);
    RunEmitsEveryChart(Plan(d, name, layout), ChartMask(d, layout), 0, [], j);
  }

  /** Every chart a read writes belongs to the dashboard read and has a kebab-case id. */
  lemma ReadChartsWellFormed(d: Dashboard, name: string)
    requires ReadSpec(d, name).Written?
    ensures forall c :: c in ReadSpec(d, name).charts ==>
              c.dashboard == Some(Str(name)) && NoUpper(c.id) && NoGaps(c.id)
  {
    var plan := Plan(d, name, SortLayout(d.layout));
    RunChartsEmitted(plan, 0, []);
    forall c | c in ReadSpec(d, name).charts
      ensures c.dashboard == Some(Str(name)) && NoUpper(c.id) && NoGaps(c.id)
    {
      EmittedFrom(plan, c);
    }
  }

  /** The raw query of a chart widget, converting a compact query when needed. */
  method RawQuery(d: Dashboard, w: Widget) returns (r: Result<Option<string>>)
    ensures r == ResolveQuery(d, w)
  {
    if Truthy(w.saql) {
      return Ok(w.saql);
    }
    var q: Option<Query> := None;
    if w.step.InlineStep? && w.step.query.Some? {
      q := w.step.query;
    } else if StepKey(w) in d.steps {
      q := d.steps[StepKey(w)];
    }
    if q.None? {
      return Ok(None);
    }
    var s := QueryToSaql(q.value, d.datasetId);
    r := if s.Error? then Error(s.message) else Ok(Some(s.value));
  }

  /**
   * The metadata half of one iteration: reads the companion text widget if
   * there is one, falls back on the subtitle, and records what it reads.
   */
  method ReadMeta(d: Dashboard, layout: seq<LayoutEntry>, i: nat, ledger: StyleLedger, describe: string -> string)
    returns (meta: Option<Meta>, next: nat)
    requires i < |layout| && IsChartEntry(d, layout[i])
    modifies ledger
    ensures meta == ChartMeta(d, layout, i, d.widgets[layout[i].name])
    ensures next == if Companion(d, layout, i).Some? then i + 2 else i + 1
    ensures ledger.State() == RecordedAll(ledger.path, old(ledger.State()), VisitRecords(d, layout, i), describe)
  {
    ghost var start := ledger.State();
    ghost var recorded: seq<Meta> := [];
    var w := d.widgets[layout[i].name];
    meta := Some([]);
    next := i + 1;
    if i + 1 < |layout| && layout[i + 1].row == layout[i].row {
      var nextName := layout[i + 1].name;
      if nextName in d.widgets && IsText(d.widgets[nextName]) {
        meta := ParseTextWidget(d.widgets[nextName].richText);
        if meta.Some? {
          ledger.Record(meta.value, describe);
          RecordedAllSnoc(ledger.path, start, recorded, meta.value, describe);
          recorded := recorded + [meta.value];
        }
        next := i + 2;
      }
    }
    if meta.Some? && meta.value == [] {
      var m := ParseStyleString(SubtitleOf(w));
      ledger.Record(m, describe);
      RecordedAllSnoc(ledger.path, start, recorded, m, describe);
      recorded := recorded + [m];
      meta := Some(m);
    }
    assert recorded == VisitRecords(d, layout, i);
  }

  /** One iteration of the extractor's loop, recording style keys in the ledger as it meets them. */
  method VisitSlot(d: Dashboard, name: string, layout: seq<LayoutEntry>, i: nat, ledger: StyleLedger,
               describe: string -> string) returns (v: Step)
    requires i < |layout|
    modifies ledger
    ensures v == VisitSpec(d, name, layout, i)
    ensures ledger.State() == RecordedAll(ledger.path, old(ledger.State()), VisitRecords(d, layout, i), describe)
    ensures old(ledger.content) <= ledger.content
    ensures ledger.path == "" ==> ledger.content == old(ledger.content) && ledger.present == old(ledger.present)
  {
    var e := layout[i];
    if e.name !in d.widgets || IsText(d.widgets[e.name]) {
      return Skip(i + 1);
    }
    var w := d.widgets[e.name];
    var meta, next := ReadMeta(d, layout, i, ledger, describe);
    if meta.None? {
      return Stop(Failed(NullMetaError));
    }
    var m := meta.value;
    var q := RawQuery(d, w);
    if q.Error? {
      return Stop(Failed(q.message));
    }
    var title := TitleOf(w);
    if title.None? || q.value.None? {
      return Stop(NoOutput);
    }
    v := Emit(BuildChart(name, w, m, title.value, q.value.value), next);
  }

  /**
   * `readDashboard` on a loaded dashboard: the charts of its sorted layout,
   * with the ledger appended to by every metadata the read meets.
   */
  method ReadDashboard(d: Dashboard, name: string, ledger: StyleLedger, describe: string -> string)
    returns (out: ReadOutcome)
    modifies ledger
    ensures out == ReadSpec(d, name)
    ensures ledger.State() == RecordedAll(ledger.path, old(ledger.State()), ReadRecords(d, name), describe)
    ensures old(ledger.content) <= ledger.content
  {
    if name == [] {
      return Failed("dashboardApiName is required");
    }
    if d.errorCode {
      return Failed("Invalid dashboard JSON: " + (if d.message == [] then "Unknown error" else d.message));
    }
    var layout := SortLayout(d.layout);
    ghost var plan := Plan(d, name, layout);
    var charts: seq<Chart> := [];
    var i := 0;
    while i < |layout|
      invariant Run(plan, i, charts) == ReadSpec(d, name)
      invariant RecordedAll(ledger.path, ledger.State(), RunRecords(d, layout, plan, i), describe)
             == RecordedAll(ledger.path, old(ledger.State()), ReadRecords(d, name), describe)
      invariant old(ledger.content) <= ledger.content
      decreases |layout| - i
    {
      ghost var before := ledger.State();
      var v := VisitSlot(d, name, layout, i, ledger, describe);
      match v
      case Stop(outcome) =>
        assert RunRecords(d, layout, plan, i) == VisitRecords(d, layout, i) + [];
        assert VisitRecords(d, layout, i) + [] == VisitRecords(d, layout, i);
        return outcome;
      case Skip(next) =>
        RecordedAllAppend(ledger.path, before, VisitRecords(d, layout, i), RunRecords(d, layout, plan, next), describe);
        i := next;
      case Emit(c, next) =>
        RecordedAllAppend(ledger.path, before, VisitRecords(d, layout, i), RunRecords(d, layout, plan, next), describe);
        charts := charts + [c];
        i := next;
    }
    out := Written(charts);
  }
}
