/**
 * The chart component's own logic (force-app/main/default/lwc/dynamicCharts):
 * the four filter selections the pickers update, the SAQL filter text built
 * from them, the option and chart queries wrapped around that text, and the
 * copy-and-override that applies a chart's settings to its chart options.
 */
module DynamicCharts {
  import opened Basics
  import opened Text
  import opened Json

  // ---------------------------------------------------------------------------
  // Filters

  /** The four filter dimensions, in the order `getFilters` writes them. */
  datatype Dim = Host | Nation | Season | Ski

  const FilterOrder: seq<Dim> := [Host, Nation, Season, Ski]

  function Name(d: Dim): string
  {
    match d
    case Host => "host"
    case Nation => "nation"
    case Season => "season"
    case Ski => "ski"
  }

  /**
   * The selections. Host, nation and season are multi-select lists; the ski
   * picker holds one operator-and-operand text such as `== "Yes"`.
   */
  datatype Selections = Selections(host: seq<string>, nation: seq<string>, season: seq<string>, ski: string)

  /** The options object of `getFilters`, with its defaults when a field is missing. */
  datatype FilterOptions = FilterOptions(inverseHosts: bool, inverseNations: bool, exclude: seq<string>)

  const NoOptions: FilterOptions := FilterOptions(false, false, [])
  const Inverted: FilterOptions := FilterOptions(true, true, [])

  function Excluding(name: string): FilterOptions
  {
    FilterOptions(false, false, [name])
  }

  /** The `length` of the selection a dimension filters on. */
  function Size(d: Dim, sel: Selections): nat
  {
    match d
    case Host => |sel.host|
    case Nation => |sel.nation|
    case Season => |sel.season|
    case Ski => |sel.ski|
  }

  /** The selections with one dimension emptied. */
  function Clear(sel: Selections, d: Dim): (r: Selections)
    ensures Size(d, r) == 0
  {
    match d
    case Host => sel.(host := [])
    case Nation => sel.(nation := [])
    case Season => sel.(season := [])
    case Ski => sel.(ski := [])
  }

  /** `JSON.stringify` of a list of strings. */
  function JsonList(xs: seq<string>): string
  {
    Stringify(Arr(seq(|xs|, i requires 0 <= i < |xs| => Str(xs[i]))))
  }

  const FilterHead: string := "q = filter q by '"
  const ClauseEnd: string := ";\n"

  /** `not ` only where the dimension is host or nation and the matching flag is set. */
  function Negation(d: Dim, opts: FilterOptions): string
  {
    if (d == Host && opts.inverseHosts) || (d == Nation && opts.inverseNations) then "not " else ""
  }

  /** What follows the field name: a membership test for the lists, the ski text as it stands. */
  function Operand(d: Dim, sel: Selections, opts: FilterOptions): string
  {
    match d
    case Host => Negation(d, opts) + "in " + JsonList(sel.host)
    case Nation => Negation(d, opts) + "in " + JsonList(sel.nation)
    case Season => "in " + JsonList(sel.season)
    case Ski => sel.ski
  }

  function Clause(d: Dim, sel: Selections, opts: FilterOptions): string
  {
    FilterHead + Name(d) + "' " + Operand(d, sel, opts) + ClauseEnd
  }

  /** A dimension filters when its selection is non-empty and it is not excluded. */
  predicate Active(d: Dim, sel: Selections, opts: FilterOptions)
  {
    Size(d, sel) > 0 && Name(d) !in opts.exclude
  }

  function ClausesOf(dims: seq<Dim>, sel: Selections, opts: FilterOptions): (r: seq<string>)
  {
    if dims == [] then []
    else (if Active(dims[0], sel, opts) then [Clause(dims[0], sel, opts)] else []) + ClausesOf(dims[1..], sel, opts)
  }

  /** The text `getFilters` returns: the clauses of the active dimensions, host first and ski last. */
  function FilterText(sel: Selections, opts: FilterOptions): string
  {
    Concat(ClausesOf(FilterOrder, sel, opts))
  }

  function ActiveCount(dims: seq<Dim>, sel: Selections, opts: FilterOptions): nat
  {
    if dims == [] then 0 else (if Active(dims[0], sel, opts) then 1 else 0) + ActiveCount(dims[1..], sel, opts)
  }

  /** One clause per active dimension, each a filter on that dimension ending in `;` and a newline. */
  lemma {:induction false} ClausesShape(dims: seq<Dim>, sel: Selections, opts: FilterOptions)
    ensures |ClausesOf(dims, sel, opts)| == ActiveCount(dims, sel, opts)
    ensures forall c :: c in ClausesOf(dims, sel, opts) ==>
              exists d :: d in dims && Active(d, sel, opts) && c == Clause(d, sel, opts)
  {
    if dims != [] {
      ClausesShape(dims[1..], sel, opts);
      var head := if Active(dims[0], sel, opts) then [Clause(dims[0], sel, opts)] else [];
      forall c | c in ClausesOf(dims, sel, opts)
        ensures exists d :: d in dims && Active(d, sel, opts) && c == Clause(d, sel, opts)
      {
        if c in head {
          assert dims[0] in dims;
        } else {
          var d :| d in dims[1..] && Active(d, sel, opts) && c == Clause(d, sel, opts);
          assert d in dims;
        }
      }
    }
  }

  /** Every clause starts with the filter head and its field name and ends with `;` and a newline. */
  lemma ClauseFrame(d: Dim, sel: Selections, opts: FilterOptions)
    ensures var c := Clause(d, sel, opts);
            && StartsWith(c, FilterHead + Name(d) + "' ")
            && |c| >= |ClauseEnd| && c[|c| - |ClauseEnd|..] == ClauseEnd
  {
    var c := Clause(d, sel, opts);
    assert c == (FilterHead + Name(d) + "' ") + (Operand(d, sel, opts) + ClauseEnd);
    assert c[|c| - |ClauseEnd|..] == ClauseEnd;
  }

  /** With nothing selected there is no filter text at all, whatever the options. */
  lemma NoSelectionsNoFilters(sel: Selections, opts: FilterOptions)
    requires sel.host == [] && sel.nation == [] && sel.season == [] && sel.ski == []
    ensures FilterText(sel, opts) == ""
  {
    NothingActive(FilterOrder, sel, opts);
  }

  lemma {:induction false} NothingActive(dims: seq<Dim>, sel: Selections, opts: FilterOptions)
    requires forall d :: Size(d, sel) == 0
    ensures ClausesOf(dims, sel, opts) == []
  {
    if dims != [] {
      NothingActive(dims[1..], sel, opts);
    }
  }

  /** Listing a dimension in `exclude` has the same effect as emptying its selection. */
  lemma {:induction false} ExcludeIsClearing(dims: seq<Dim>, sel: Selections, opts: FilterOptions, d: Dim)
    requires Name(d) in opts.exclude
    ensures ClausesOf(dims, sel, opts) == ClausesOf(dims, Clear(sel, d), opts)
  {
    if dims != [] {
      ExcludeIsClearing(dims[1..], sel, opts, d);
      var e := dims[0];
      if e != d {
        assert Size(e, sel) == Size(e, Clear(sel, d));
        assert Clause(e, sel, opts) == Clause(e, Clear(sel, d), opts);
      }
    }
  }

  /** Clearing a dimension drops its clause and nothing else. */
  lemma ClearingDropsClause(sel: Selections, opts: FilterOptions, d: Dim)
    ensures forall e :: e != d ==> (Active(e, sel, opts) <==> Active(e, Clear(sel, d), opts))
    ensures forall e :: e != d ==> Clause(e, sel, opts) == Clause(e, Clear(sel, d), opts)
    ensures !Active(d, Clear(sel, d), opts)
  {
  }

  /** The inversion flags act only on the host and nation clauses: without those, they change nothing. */
  lemma {:induction false} InversionOnlyHostNation(dims: seq<Dim>, sel: Selections, a: FilterOptions, b: FilterOptions)
    requires a.exclude == b.exclude
    requires sel.host == [] && sel.nation == []
    ensures ClausesOf(dims, sel, a) == ClausesOf(dims, sel, b)
  {
    if dims != [] {
      InversionOnlyHostNation(dims[1..], sel, a, b);
      if Active(dims[0], sel, a) {
        assert dims[0] == Season || dims[0] == Ski;
        assert Operand(dims[0], sel, a) == Operand(dims[0], sel, b);
      }
    }
  }

  /** The flags never turn a season or ski clause into a negated one. */
  lemma SeasonAndSkiNeverInverted(d: Dim, opts: FilterOptions)
    requires d == Season || d == Ski
    ensures Negation(d, opts) == ""
  {
  }

  // ---------------------------------------------------------------------------
  // Queries

  /** `this.datasetIds.exped` as it lands in a template: the id, or `undefined`. */
  function ExpedId(ids: map<string, string>): string
  {
    if "exped" in ids then ids["exped"] else "undefined"
  }

  function LoadLine(ids: map<string, string>): string
  {
    "q = load \"" + ExpedId(ids) + "\";\n"
  }

  /**
   * An option query: everything but the dimension's own filter, grouped on that
   * dimension. The result is the SAQL text alone; the component hands it to the
   * wire adapter wrapped as `{ query: saql }`.
   */
  function OptionQuery(d: Dim, ids: Option<map<string, string>>, sel: Selections): Option<string>
  {
    if ids.None? then None
    else
      Some(LoadLine(ids.value) + FilterText(sel, Excluding(Name(d)))
           + "q = group q by '" + Name(d) + "';\n"
           + "q = foreach q generate q.'" + Name(d) + "' as " + Name(d) + ";")
  }

  /** A picker's options never depend on what is selected in that same picker. */
  lemma OptionQueryIgnoresOwnSelection(d: Dim, ids: Option<map<string, string>>, sel: Selections)
    ensures OptionQuery(d, ids, sel) == OptionQuery(d, ids, Clear(sel, d))
  {
    ExcludeIsClearing(FilterOrder, sel, Excluding(Name(d)), d);
  }

  datatype ChartKind = ClimbsByNation | TimeByPeak | CampsByPeak

  const NationForeach: string := "q = foreach q generate q.'nation' as nation, count(q) as Climbs;\n"
  const PeakForeach: string := "q = foreach q generate q.'peakid' as peakid, min(q.'totdays') as A, percentile_disc(0.25) within group (order by q.'totdays') as B, percentile_disc(0.75) within group (order by q.'totdays') as C, max(q.'totdays') as D;\n"
  const CampsForeach: string := "q = foreach q generate q.'peakid' as peakid, avg(q.'camps') as A;\n"
  const LimitLine: string := "q = limit q 20;"

  const NationGroup: string := "q = group q by 'nation';\n"
  const PeakGroup: string := "q = group q by 'peakid';\n"
  const ClimbsOrder: string := "q = order q by 'Climbs' desc;\n"
  const CampsOrder: string := "q = order q by A desc;\n"

  /** Group, foreach and the optional order of each chart. */
  function QueryBody(k: ChartKind): string
  {
    match k
    case ClimbsByNation => NationGroup + NationForeach + ClimbsOrder
    case TimeByPeak => PeakGroup + PeakForeach
    case CampsByPeak => PeakGroup + CampsForeach + CampsOrder
  }

  /**
   * A chart query; the `AO` variant inverts the host and nation filters. As for
   * option queries, this is the SAQL text that the getter wraps as `{ query: saql }`.
   */
  function ChartQuery(k: ChartKind, ao: bool, ids: Option<map<string, string>>, sel: Selections): Option<string>
  {
    if ids.None? then None
    else Some(LoadLine(ids.value) + FilterText(sel, if ao then Inverted else NoOptions) + QueryBody(k) + LimitLine)
  }

  lemma Parts(a: string, b: string, c: string, d: string)
    ensures var q := a + b + c + d;
            && StartsWith(q, a)
            && q[|a|..|a| + |b|] == b
            && |q| >= |d| && q[|q| - |d|..] == d
  {
    var q := a + b + c + d;
    assert q[..|a|] == a;
    assert q[|a|..|a| + |b|] == b;
    assert q[|q| - |d|..] == d;
  }

  /**
   * No query until the datasets are known; then the load line, the filter text
   * and the chart's body, ending with the limit of 20.
   */
  lemma ChartQueryShape(k: ChartKind, ao: bool, ids: Option<map<string, string>>, sel: Selections)
    ensures ChartQuery(k, ao, ids, sel).None? <==> ids.None?
    ensures ChartQuery(k, ao, ids, sel).Some? ==>
              var q := ChartQuery(k, ao, ids, sel).value;
              var load := LoadLine(ids.value);
              var filters := FilterText(sel, if ao then Inverted else NoOptions);
              && StartsWith(q, load)
              && q[|load|..|load| + |filters|] == filters
              && |q| >= |LimitLine| && q[|q| - |LimitLine|..] == LimitLine
  {
    if ids.Some? {
      Parts(LoadLine(ids.value), FilterText(sel, if ao then Inverted else NoOptions), QueryBody(k), LimitLine);
    }
  }

  /** Without host or nation selections, a chart and its `AO` companion run the same query. */
  lemma CompanionSameWithoutInversion(k: ChartKind, ids: Option<map<string, string>>, sel: Selections)
    requires sel.host == [] && sel.nation == []
    ensures ChartQuery(k, true, ids, sel) == ChartQuery(k, false, ids, sel)
  {
    InversionOnlyHostNation(FilterOrder, sel, Inverted, NoOptions);
  }

  // ---------------------------------------------------------------------------
  // The component

  class Component {
    var datasetIds: Option<map<string, string>>
    var hostSelections: seq<string>
    var nationSelections: seq<string>
    var seasonSelections: seq<string>
    var skiSelection: string
    var chartSettings: seq<Field>

    /** A fresh component: nothing selected, no datasets yet, the given settings literal. */
    constructor (settings: seq<Field>)
      ensures datasetIds == None
      ensures Current() == Selections([], [], [], [])
      ensures chartSettings == settings
    {
      datasetIds := None;
      hostSelections := [];
      nationSelections := [];
      seasonSelections := [];
      skiSelection := [];
      chartSettings := settings;
    }

    function Current(): Selections
      reads this
    {
      Selections(hostSelections, nationSelections, seasonSelections, skiSelection)
    }

    method HandleHostChange(value: seq<string>)
      modifies this
      ensures Current() == old(Current()).(host := value)
      ensures datasetIds == old(datasetIds) && chartSettings == old(chartSettings)
    {
      hostSelections := value;
    }

    method HandleNationChange(value: seq<string>)
      modifies this
      ensures Current() == old(Current()).(nation := value)
      ensures datasetIds == old(datasetIds) && chartSettings == old(chartSettings)
    {
      nationSelections := value;
    }

    method HandleSeasonChange(value: seq<string>)
      modifies this
      ensures Current() == old(Current()).(season := value)
      ensures datasetIds == old(datasetIds) && chartSettings == old(chartSettings)
    {
      seasonSelections := value;
    }

    method HandleSkiChange(value: string)
      modifies this
      ensures Current() == old(Current()).(ski := value)
      ensures datasetIds == old(datasetIds) && chartSettings == old(chartSettings)
    {
      skiSelection := value;
    }

    /**
     * One `saql +=` block of `getFilters`: the template for the dimension when
     * its selection is non-empty and it is not excluded, nothing otherwise.
     */
    method FilterBlock(d: Dim, opts: FilterOptions) returns (s: string)
      ensures s == Part(d, Current(), opts)
    {
      s := "";
      match d
      case Host =>
        if |hostSelections| > 0 && "host" !in opts.exclude {
          var notStr := if opts.inverseHosts then "not " else "";
          s := FilterHead + "host" + "' " + (notStr + "in " + JsonList(hostSelections)) + ClauseEnd;
        }
      case Nation =>
        if |nationSelections| > 0 && "nation" !in opts.exclude {
          var notStr := if opts.inverseNations then "not " else "";
          s := FilterHead + "nation" + "' " + (notStr + "in " + JsonList(nationSelections)) + ClauseEnd;
        }
      case Season =>
        if |seasonSelections| > 0 && "season" !in opts.exclude {
          s := FilterHead + "season" + "' " + ("in " + JsonList(seasonSelections)) + ClauseEnd;
        }
      case Ski =>
        if |skiSelection| > 0 && "ski" !in opts.exclude {
          s := FilterHead + "ski" + "' " + skiSelection + ClauseEnd;
        }
    }

    /** `getFilters`: the host, nation, season and ski blocks appended in that order. */
    method GetFilters(opts: FilterOptions) returns (saql: string)
      ensures saql == FilterText(Current(), opts)
    {
      saql := "";
      var block := FilterBlock(Host, opts);
      saql := saql + block;
      block := FilterBlock(Nation, opts);
      saql := saql + block;
      block := FilterBlock(Season, opts);
      saql := saql + block;
      block := FilterBlock(Ski, opts);
      saql := saql + block;
      FilterTextParts(Current(), opts);
      assert "" + Part(Host, Current(), opts) == Part(Host, Current(), opts);
    }

    /**
     * The query getters. Each yields the SAQL text that the component's getter
     * wraps as `{ query: saql }`, and None where the getter returns `undefined`
     * because the dataset ids are not known yet.
     */
    function HostQuery(): Option<string>
      reads this
    {
      OptionQuery(Host, datasetIds, Current())
    }

    function NationQuery(): Option<string>
      reads this
    {
      OptionQuery(Nation, datasetIds, Current())
    }

    function SeasonQuery(): Option<string>
      reads this
    {
      OptionQuery(Season, datasetIds, Current())
    }

    function Query(k: ChartKind, ao: bool): Option<string>
      reads this
    {
      ChartQuery(k, ao, datasetIds, Current())
    }

    /** `this.chartSettings[chartId] || {}`. */
    function SettingsFor(chartId: string): Value
      reads this
    {
      var s := Find(chartSettings, chartId);
      if TruthyOpt(s) then s.value else Obj([])
    }

    /**
     * `applySettings`: a copy of the options whose `title` becomes `{text}` when
     * the chart's title is truthy and whose `colors` become the chart's colours
     * when those are truthy.
     */
    function ApplySettings(options: seq<Field>, chartId: string): (r: seq<Field>)
      reads this
      ensures var title := Member(SettingsFor(chartId), "title");
              Find(r, "title") == if TruthyOpt(title) then Some(Obj([("text", title.value)])) else Find(options, "title")
      ensures var colors := Member(SettingsFor(chartId), "colors");
              Find(r, "colors") == if TruthyOpt(colors) then colors else Find(options, "colors")
      ensures Find(chartSettings, chartId).None? ==> r == options
    {
      var settings := SettingsFor(chartId);
      var title := Member(settings, "title");
      var colors := Member(settings, "colors");
      var withTitle := if TruthyOpt(title) then Put(options, "title", Obj([("text", title.value)])) else options;
      if TruthyOpt(colors) then
        PutOther(withTitle, "colors", colors.value, "title");
        Put(withTitle, "colors", colors.value)
      else if TruthyOpt(title) then
        PutOther(options, "title", Obj([("text", title.value)]), "colors");
        withTitle
      else withTitle
    }

    /** Every other option passes through the copy unchanged. */
    lemma ApplySettingsKeepsOthers(options: seq<Field>, chartId: string, k: string)
      requires k != "title" && k != "colors"
      ensures Find(ApplySettings(options, chartId), k) == Find(options, k)
    {
      var settings := SettingsFor(chartId);
      var title := Member(settings, "title");
      var colors := Member(settings, "colors");
      var withTitle := if TruthyOpt(title) then Put(options, "title", Obj([("text", title.value)])) else options;
      if TruthyOpt(title) {
        PutOther(options, "title", Obj([("text", title.value)]), k);
      }
      if TruthyOpt(colors) {
        PutOther(withTitle, "colors", colors.value, k);
      }
    }
  }

  /** A dimension's share of the filter text: its clause when it is active, nothing otherwise. */
  function Part(d: Dim, sel: Selections, opts: FilterOptions): string
  {
    if Active(d, sel, opts) then Clause(d, sel, opts) else ""
  }

  /** The filter text is the host, nation, season and ski shares in that order. */
  lemma FilterTextParts(sel: Selections, opts: FilterOptions)
    ensures FilterText(sel, opts) == Part(Host, sel, opts) + Part(Nation, sel, opts) + Part(Season, sel, opts) + Part(Ski, sel, opts)
  {
    var none: seq<Dim> := [];
    assert FilterOrder == [Host] + ([Nation] + ([Season] + ([Ski] + none)));
    assert Concat(ClausesOf(none, sel, opts)) == "";
    ClausesCons(Ski, none, sel, opts);
    ClausesCons(Season, [Ski] + none, sel, opts);
    ClausesCons(Nation, [Season] + ([Ski] + none), sel, opts);
    ClausesCons(Host, [Nation] + ([Season] + ([Ski] + none)), sel, opts);
    Regroup(Part(Host, sel, opts), Part(Nation, sel, opts), Part(Season, sel, opts), Part(Ski, sel, opts));
  }

  lemma Regroup(a: string, b: string, c: string, d: string)
    ensures a + (b + (c + (d + ""))) == a + b + c + d
  {
  }

  lemma ClausesCons(d: Dim, rest: seq<Dim>, sel: Selections, opts: FilterOptions)
    ensures Concat(ClausesOf([d] + rest, sel, opts)) == Part(d, sel, opts) + Concat(ClausesOf(rest, sel, opts))
  {
    assert ([d] + rest)[0] == d && ([d] + rest)[1..] == rest;
    ConcatHead(Part(d, sel, opts), ClausesOf(rest, sel, opts));
  }

  /** Prepending a share that may be empty. */
  lemma ConcatHead(p: string, cs: seq<string>)
    ensures Concat((if p == "" then [] else [p]) + cs) == p + Concat(cs)
  {
    if p != "" {
      assert ([p] + cs)[1..] == cs;
    } else {
      assert [] + cs == cs;
    }
  }
}
