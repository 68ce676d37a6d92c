/**
 * The reconciler (`compareCharts` in scripts/agents/changeRequestGenerator.js):
 * it indexes the authoritative charts (from the dashboard) and the current
 * charts (from the component) by kebab-case id and lists, in order, the charts
 * to add, to update (with the properties that differ) and to remove.
 */
module Reconciler {
  import opened Basics
  import opened Json
  import opened Naming
  import opened Model

  /** A `Map` from normalised id to chart, in insertion order. */
  type Index = seq<(string, Chart)>

  /** `charts.forEach(c => map.set(toKebab(c.id), c))`: a later chart with the same key replaces the earlier one in its place. */
  function Keyed(charts: seq<Chart>): Index
  {
    if charts == [] then []
    else
      var last := charts[|charts| - 1];
      Put(Keyed(charts[..|charts| - 1]), ToKebab(last.id), last)
  }

  /** Every key is the kebab form of its chart's id, and no key repeats. */
  predicate WellKeyed(ix: Index)
  {
    UniqueKeys(ix) && forall e :: e in ix ==> e.0 == ToKebab(e.1.id)
  }

  /** The last chart of the list whose id normalises to `k`. */
  function LastWithKey(charts: seq<Chart>, k: string): (r: Option<Chart>)
    ensures r.Some? ==> r.value in charts && ToKebab(r.value.id) == k
    ensures r.None? <==> forall c :: c in charts ==> ToKebab(c.id) != k
  {
    if charts == [] then None
    else
      var last := charts[|charts| - 1];
      if ToKebab(last.id) == k then Some(last)
      else
        var r := LastWithKey(charts[..|charts| - 1], k);
        assert forall c :: c in charts ==> c in charts[..|charts| - 1] || c == last;
        r
  }

  lemma PutWellKeyed(ix: Index, c: Chart)
    requires WellKeyed(ix)
    ensures WellKeyed(Put(ix, ToKebab(c.id), c))
  {
    PutUnique(ix, ToKebab(c.id), c);
    PutEntries(ix, ToKebab(c.id), c);
  }

  /** Taking the last entry off a well-keyed index. */
  lemma KeyedPrefix(a: Index, k: string)
    requires WellKeyed(a) && a != []
    ensures var init := a[..|a| - 1];
            var (key, chart) := a[|a| - 1];
            && WellKeyed(init) && key == ToKebab(chart.id) && Find(init, key).None?
            && Find(a, k) == if key == k then Some(chart) else Find(init, k)
  {
    LastKeyFresh(a, k);
    assert forall e :: e in a[..|a| - 1] ==> e in a;
  }

  /** In an index without repeated keys, the last key is not among the earlier ones. */
  lemma LastKeyFresh<V>(a: seq<(string, V)>, k: string)
    requires UniqueKeys(a) && a != []
    ensures var init := a[..|a| - 1];
            var (key, v) := a[|a| - 1];
            UniqueKeys(init) && Find(init, key).None? && Find(a, k) == if key == k then Some(v) else Find(init, k)
  {
    var init := a[..|a| - 1];
    var (key, v) := a[|a| - 1];
    assert a == init + [(key, v)];
    FindAppend(init, [(key, v)], k);
    assert KeysOf(a)[|a| - 1] == key;
    assert key !in KeysOf(init);
  }

  /** The index keys every chart by its kebab id, and under each key holds the last such chart. */
  lemma {:induction false} KeyedFind(charts: seq<Chart>, k: string)
    ensures WellKeyed(Keyed(charts))
    ensures Find(Keyed(charts), k) == LastWithKey(charts, k)
    decreases |charts|
  {
    if charts != [] {
      var init := charts[..|charts| - 1];
      var last := charts[|charts| - 1];
      KeyedFind(init, k);
      PutWellKeyed(Keyed(init), last);
      if ToKebab(last.id) != k {
        PutOther(Keyed(init), ToKebab(last.id), last, k);
      }
    }
  }

  /** The compared properties on which two charts disagree, as mismatches in property order. */
  function DiffOver(chart: Chart, cur: Chart, props: seq<Prop>): (r: seq<Mismatch>)
    ensures |r| <= |props|
  {
    if props == [] then []
    else
      var p := props[|props| - 1];
      DiffOver(chart, cur, props[..|props| - 1])
      + (if PropOf(chart, p) != PropOf(cur, p) then [Mismatch(PropName(p), PropOf(cur, p), PropOf(chart, p))] else [])
  }

  /**
   * Every mismatch comes from a property the charts differ on, every such
   * property yields its mismatch, and there are none exactly when the charts
   * agree on every listed property.
   */
  lemma {:induction false} DiffMismatches(chart: Chart, cur: Chart, props: seq<Prop>)
    ensures var r := DiffOver(chart, cur, props);
            && (r == [] <==> forall i :: 0 <= i < |props| ==> PropOf(chart, props[i]) == PropOf(cur, props[i]))
            && (forall m :: m in r ==>
                  exists p :: p in props && PropOf(chart, p) != PropOf(cur, p) && m == Mismatch(PropName(p), PropOf(cur, p), PropOf(chart, p)))
            && (forall p :: p in props && PropOf(chart, p) != PropOf(cur, p) ==>
                  Mismatch(PropName(p), PropOf(cur, p), PropOf(chart, p)) in r)
  {
    if props != [] {
      var init, p := props[..|props| - 1], props[|props| - 1];
      DiffMismatches(chart, cur, init);
      assert props == init + [p];
      assert forall q :: q in init ==> q in props;
      assert forall q :: q in props ==> q in init || q == p;
    }
  }

  /** One property yields its mismatch when the charts differ on it, and nothing otherwise. */
  lemma DiffOverOne(chart: Chart, cur: Chart, p: Prop)
    ensures DiffOver(chart, cur, [p])
         == if PropOf(chart, p) != PropOf(cur, p) then [Mismatch(PropName(p), PropOf(cur, p), PropOf(chart, p))] else []
  {
    assert [p][..0] == [];
  }

  /** The diff over a split property list is the two diffs in order: mismatches come in property order. */
  lemma {:induction false} DiffOverAppend(chart: Chart, cur: Chart, xs: seq<Prop>, ys: seq<Prop>)
    ensures DiffOver(chart, cur, xs + ys) == DiffOver(chart, cur, xs) + DiffOver(chart, cur, ys)
    decreases |ys|
  {
    if ys == [] {
      assert xs + ys == xs;
    } else {
      var init, p := ys[..|ys| - 1], ys[|ys| - 1];
      var step := if PropOf(chart, p) != PropOf(cur, p) then [Mismatch(PropName(p), PropOf(cur, p), PropOf(chart, p))] else [];
      DiffOverAppend(chart, cur, xs, init);
      assert (xs + ys)[..|xs + ys| - 1] == xs + init;
      assert (xs + ys)[|xs + ys| - 1] == p;
      assert DiffOver(chart, cur, xs + ys) == DiffOver(chart, cur, xs + init) + step;
      assert DiffOver(chart, cur, ys) == DiffOver(chart, cur, init) + step;
    }
  }

  function Diff(chart: Chart, cur: Chart): seq<Mismatch>
  {
    DiffOver(chart, cur, ComparedProps)
  }

  /** Two charts yield no mismatch exactly when they agree on every compared property. */
  lemma DiffEmpty(chart: Chart, cur: Chart)
    ensures Diff(chart, cur) == [] <==> forall p: Prop :: PropOf(chart, p) == PropOf(cur, p)
  {
    DiffMismatches(chart, cur, ComparedProps);
    if Diff(chart, cur) == [] {
      forall p: Prop
        ensures PropOf(chart, p) == PropOf(cur, p)
      {
        assert p == ComparedProps[0] || p == ComparedProps[1] || p == ComparedProps[2]
            || p == ComparedProps[3] || p == ComparedProps[4] || p == ComparedProps[5];
      }
    }
  }

  /** The `instructions` of an update: one "Update <id> <prop>" per mismatch. */
  function UpdateInstructions(id: string, ms: seq<Mismatch>): (r: seq<string>)
    ensures |r| == |ms|
    ensures forall i :: 0 <= i < |ms| ==> r[i] == "Update " + id + " " + ms[i].property
  {
    seq(|ms|, i requires 0 <= i < |ms| => "Update " + id + " " + ms[i].property)
  }

  function AddChange(c: Chart): Change
  {
    Change(c.id, "add", TargetFile, Absent, None)
  }

  function UpdateChange(c: Chart, ms: seq<Mismatch>): Change
  {
    Change(c.id, "update", TargetFile, List(ms), Some(UpdateInstructions(c.id, ms)))
  }

  function RemoveChange(c: Chart): Change
  {
    Change(c.id, "remove", TargetFile, Absent, None)
  }

  /** What the first pass does for the authoritative chart under `k`. */
  function Verdict(k: string, chart: Chart, current: Index): seq<Change>
  {
    match Find(current, k)
    case None => [AddChange(chart)]
    case Some(cur) => if Diff(chart, cur) == [] then [] else [UpdateChange(chart, Diff(chart, cur))]
  }

  /** The first pass, over the authoritative index in insertion order. */
  function AddsAndUpdates(authoritative: Index, current: Index): seq<Change>
  {
    if authoritative == [] then []
    else
      var (k, chart) := authoritative[|authoritative| - 1];
      AddsAndUpdates(authoritative[..|authoritative| - 1], current) + Verdict(k, chart, current)
  }

  /** The second pass, over the current index in insertion order. */
  function Removes(current: Index, authoritative: Index): seq<Change>
  {
    if current == [] then []
    else
      var (k, cur) := current[|current| - 1];
      Removes(current[..|current| - 1], authoritative)
      + (if Find(authoritative, k).None? then [RemoveChange(cur)] else [])
  }

  /** `(x.charts || [])`. */
  function ChartsOf(charts: Option<seq<Chart>>): seq<Chart>
  {
    if charts.Some? then charts.value else []
  }

  predicate WellFormedChange(c: Change)
  {
    && c.targetFile == TargetFile
    && (c.action == "add" || c.action == "update" || c.action == "remove")
    && (c.action == "update" <==> c.mismatches.List?)
    && (c.action == "update" ==>
          c.mismatches.items != [] && c.instructions == Some(UpdateInstructions(c.chartId, c.mismatches.items)))
    && (c.action != "update" ==> c.mismatches.Absent? && c.instructions.None?)
  }

  /** The change list `compareCharts` returns: adds and updates in authoritative order, then removes in current order. */
  function Reconcile(authoritative: Option<seq<Chart>>, current: Option<seq<Chart>>): (r: seq<Change>)
    ensures forall c :: c in r ==> WellFormedChange(c)
    ensures forall i, j :: 0 <= i < j < |r| && r[i].action == "remove" ==> r[j].action == "remove"
  {
    var a := Keyed(ChartsOf(authoritative));
    var b := Keyed(ChartsOf(current));
    AddsShape(a, b);
    RemovesShape(b, a);
    AddsAndUpdates(a, b) + Removes(b, a)
  }

  lemma {:induction false} AddsShape(a: Index, b: Index)
    ensures forall c :: c in AddsAndUpdates(a, b) ==> WellFormedChange(c) && c.action != "remove"
  {
    if a != [] {
      AddsShape(a[..|a| - 1], b);
    }
  }

  lemma {:induction false} RemovesShape(b: Index, a: Index)
    ensures forall c :: c in Removes(b, a) ==> WellFormedChange(c) && c.action == "remove"
  {
    if b != [] {
      RemovesShape(b[..|b| - 1], a);
    }
  }

  // ---------------------------------------------------------------------------
  // Insertion order

  /** Where key `k` stands in an index: its position, or `|ix|` when it is absent. */
  function Position(ix: Index, k: string): (n: nat)
    ensures n <= |ix|
    ensures n < |ix| ==> ix[n].0 == k
  {
    if ix == [] then 0
    else
      var init := ix[..|ix| - 1];
      var n := Position(init, k);
      if n < |init| then n else if ix[|ix| - 1].0 == k then |init| else |ix|
  }

  /** A key that is not in the index has no position in it. */
  lemma {:induction false} PositionAbsent(ix: Index, k: string)
    requires k !in KeysOf(ix)
    ensures Position(ix, k) == |ix|
  {
    if ix != [] {
      var init := ix[..|ix| - 1];
      assert KeysOf(ix) == KeysOf(init) + [ix[|ix| - 1].0];
      PositionAbsent(init, k);
    }
  }

  /** Every change belongs to a key of the index, and the changes follow the index's order of keys. */
  predicate InOrder(ix: Index, cs: seq<Change>)
  {
    && (forall i :: 0 <= i < |cs| ==> Position(ix, ToKebab(cs[i].chartId)) < |ix|)
    && (forall i, j :: 0 <= i < j < |cs| ==>
          Position(ix, ToKebab(cs[i].chartId)) < Position(ix, ToKebab(cs[j].chartId)))
  }

  /** Appending at most one change for the last key keeps the changes in index order. */
  lemma OrderedStep(ix: Index, done: seq<Change>, step: seq<Change>)
    requires WellKeyed(ix) && ix != []
    requires InOrder(ix[..|ix| - 1], done)
    requires |step| <= 1 && forall c :: c in step ==> ToKebab(c.chartId) == ix[|ix| - 1].0
    ensures InOrder(ix, done + step)
  {
    var init, key := ix[..|ix| - 1], ix[|ix| - 1].0;
    KeyedPrefix(ix, key);
    PositionAbsent(init, key);
    assert Position(ix, key) == |init|;
    forall i | 0 <= i < |done|
      ensures Position(ix, ToKebab(done[i].chartId)) == Position(init, ToKebab(done[i].chartId))
    {
    }
    var cs := done + step;
    forall i | 0 <= i < |cs|
      ensures Position(ix, ToKebab(cs[i].chartId)) < |ix|
      ensures i < |done| ==> Position(ix, ToKebab(cs[i].chartId)) < |init|
      ensures i >= |done| ==> Position(ix, ToKebab(cs[i].chartId)) == |init|
    {
      if i >= |done| {
        assert cs[i] in step;
      } else {
        assert cs[i] == done[i];
      }
    }
  }

  /** The first pass emits its adds and updates in the order of the authoritative index. */
  lemma {:induction false} AddsInOrder(a: Index, b: Index)
    requires WellKeyed(a)
    ensures InOrder(a, AddsAndUpdates(a, b))
  {
    if a != [] {
      var (k, chart) := a[|a| - 1];
      KeyedPrefix(a, k);
      AddsInOrder(a[..|a| - 1], b);
      OrderedStep(a, AddsAndUpdates(a[..|a| - 1], b), Verdict(k, chart, b));
    }
  }

  /** The second pass emits its removes in the order of the current index. */
  lemma {:induction false} RemovesInOrder(b: Index, a: Index)
    requires WellKeyed(b)
    ensures InOrder(b, Removes(b, a))
  {
    if b != [] {
      var (k, cur) := b[|b| - 1];
      KeyedPrefix(b, k);
      RemovesInOrder(b[..|b| - 1], a);
      OrderedStep(b, Removes(b[..|b| - 1], a), if Find(a, k).None? then [RemoveChange(cur)] else []);
    }
  }

  /**
   * The change list splits where the removes begin: the adds and updates
   * before it follow the insertion order of the authoritative charts' keys,
   * and the removes after it follow that of the current charts' keys.
   */
  lemma ReconcileOrder(authoritative: Option<seq<Chart>>, current: Option<seq<Chart>>)
    ensures var r := Reconcile(authoritative, current);
            var a, b := Keyed(ChartsOf(authoritative)), Keyed(ChartsOf(current));
            var n := |AddsAndUpdates(a, b)|;
            && n <= |r|
            && (forall i :: 0 <= i < |r| ==> (r[i].action == "remove" <==> n <= i))
            && InOrder(a, r[..n])
            && InOrder(b, r[n..])
  {
    var a, b := Keyed(ChartsOf(authoritative)), Keyed(ChartsOf(current));
    KeyedFind(ChartsOf(authoritative), "");
    KeyedFind(ChartsOf(current), "");
    var x, y := AddsAndUpdates(a, b), Removes(b, a);
    AddsInOrder(a, b);
    RemovesInOrder(b, a);
    AddsShape(a, b);
    RemovesShape(b, a);
    RemovesAfter(x, y);
    assert Reconcile(authoritative, current) == x + y;
  }

  lemma RemovesAfter(x: seq<Change>, y: seq<Change>)
    requires forall c :: c in x ==> c.action != "remove"
    requires forall c :: c in y ==> c.action == "remove"
    ensures var r := x + y;
            && r[..|x|] == x && r[|x|..] == y
            && forall i :: 0 <= i < |r| ==> (r[i].action == "remove" <==> |x| <= i)
  {
    var r := x + y;
    forall i | 0 <= i < |r|
      ensures r[i].action == "remove" <==> |x| <= i
    {
      if i < |x| {
        assert r[i] == x[i] && x[i] in x;
      } else {
        assert r[i] == y[i - |x|] && y[i - |x|] in y;
      }
    }
  }

  /** The changes whose chart id normalises to `k`. */
  function ChangesFor(cs: seq<Change>, k: string): seq<Change>
  {
    if cs == [] then []
    else ChangesFor(cs[..|cs| - 1], k) + (if ToKebab(cs[|cs| - 1].chartId) == k then [cs[|cs| - 1]] else [])
  }

  lemma {:induction false} ChangesForAppend(x: seq<Change>, y: seq<Change>, k: string)
    ensures ChangesFor(x + y, k) == ChangesFor(x, k) + ChangesFor(y, k)
    decreases |y|
  {
    if y == [] {
      assert x + y == x;
    } else {
      ChangesForAppend(x, y[..|y| - 1], k);
      assert (x + y)[..|x + y| - 1] == x + y[..|y| - 1];
      assert (x + y)[|x + y| - 1] == y[|y| - 1];
    }
  }

  lemma {:induction false} ChangesForNone(cs: seq<Change>, k: string)
    requires forall c :: c in cs ==> ToKebab(c.chartId) != k
    ensures ChangesFor(cs, k) == []
  {
    if cs != [] {
      ChangesForNone(cs[..|cs| - 1], k);
    }
  }

  lemma {:induction false} ChangesForOne(c: Change, k: string)
    ensures ChangesFor([c], k) == if ToKebab(c.chartId) == k then [c] else []
  {
    assert [c][..0] == [];
  }

  lemma {:induction false} VerdictFor(k: string, chart: Chart, b: Index, key: string)
    requires k == ToKebab(chart.id)
    ensures ChangesFor(Verdict(k, chart, b), key) == if k == key then Verdict(k, chart, b) else []
  {
    var v := Verdict(k, chart, b);
    if v != [] {
      ChangesForOne(v[0], key);
    }
  }

  /** The first pass yields, for key `k`, exactly the verdict on the authoritative chart under `k`. */
  lemma {:induction false} AddsFor(a: Index, b: Index, k: string)
    requires WellKeyed(a)
    ensures ChangesFor(AddsAndUpdates(a, b), k) == if Find(a, k).Some? then Verdict(k, Find(a, k).value, b) else []
  {
    if a != [] {
      var init := a[..|a| - 1];
      var (key, chart) := a[|a| - 1];
      KeyedPrefix(a, k);
      AddsFor(init, b, k);
      ChangesForAppend(AddsAndUpdates(init, b), Verdict(key, chart, b), k);
      VerdictFor(key, chart, b, k);
    }
  }

  /** The second pass yields, for key `k`, one removal exactly when only the current side has `k`. */
  lemma {:induction false} RemovesFor(b: Index, a: Index, k: string)
    requires WellKeyed(b)
    ensures ChangesFor(Removes(b, a), k) ==
              if Find(b, k).Some? && Find(a, k).None? then [RemoveChange(Find(b, k).value)] else []
  {
    if b != [] {
      var init := b[..|b| - 1];
      var (key, cur) := b[|b| - 1];
      KeyedPrefix(b, k);
      RemovesFor(init, a, k);
      var tail := if Find(a, key).None? then [RemoveChange(cur)] else [];
      assert Removes(b, a) == Removes(init, a) + tail;
      ChangesForAppend(Removes(init, a), tail, k);
      if tail != [] {
        ChangesForOne(tail[0], k);
      }
      if key == k {
        assert ChangesFor(Removes(init, a), k) == [];
        assert ChangesFor(tail, k) == tail;
      } else {
        assert ChangesFor(tail, k) == [];
      }
    }
  }

  /**
   * For every normalised id `k`, the changes about `k`: one add when only the
   * authoritative side has it, one remove when only the current side has it, one
   * update when both have it and they differ, and nothing otherwise. The chart
   * that speaks for a side is the last one with that id.
   */
  lemma Classify(authoritative: Option<seq<Chart>>, current: Option<seq<Chart>>, k: string)
    ensures var cs := ChangesFor(Reconcile(authoritative, current), k);
            var a := LastWithKey(ChartsOf(authoritative), k);
            var b := LastWithKey(ChartsOf(current), k);
            && (a.Some? && b.None? ==> cs == [AddChange(a.value)])
            && (a.None? && b.Some? ==> cs == [RemoveChange(b.value)])
            && (a.Some? && b.Some? ==>
                  cs == if Diff(a.value, b.value) == [] then [] else [UpdateChange(a.value, Diff(a.value, b.value))])
            && (a.None? && b.None? ==> cs == [])
  {
    var ia := Keyed(ChartsOf(authoritative));
    var ib := Keyed(ChartsOf(current));
    KeyedFind(ChartsOf(authoritative), k);
    KeyedFind(ChartsOf(current), k);
    AddsFor(ia, ib, k);
    RemovesFor(ib, ia, k);
    ChangesForAppend(AddsAndUpdates(ia, ib), Removes(ib, ia), k);
  }

  function Actions(cs: seq<Change>): seq<string>
  {
    seq(|cs|, i requires 0 <= i < |cs| => cs[i].action)
  }

  /** The changes about `k` are a single add exactly when only the authoritative side has `k`, a single remove exactly when only the current side has it. */
  lemma AddRemoveIff(authoritative: Option<seq<Chart>>, current: Option<seq<Chart>>, k: string)
    ensures var acts := Actions(ChangesFor(Reconcile(authoritative, current), k));
            var a := LastWithKey(ChartsOf(authoritative), k);
            var b := LastWithKey(ChartsOf(current), k);
            && (acts == ["add"] <==> a.Some? && b.None?)
            && (acts == ["remove"] <==> a.None? && b.Some?)
  {
    Classify(authoritative, current, k);
    var a := LastWithKey(ChartsOf(authoritative), k);
    var b := LastWithKey(ChartsOf(current), k);
    if a.Some? && b.Some? && Diff(a.value, b.value) != [] {
      assert Actions([UpdateChange(a.value, Diff(a.value, b.value))]) == ["update"];
    } else if a.Some? && b.None? {
      assert Actions([AddChange(a.value)]) == ["add"];
    } else if a.None? && b.Some? {
      assert Actions([RemoveChange(b.value)]) == ["remove"];
    }
  }

  /** Swapping the two sides turns every add into a remove and back. */
  lemma SwapSides(authoritative: Option<seq<Chart>>, current: Option<seq<Chart>>, k: string)
    ensures Actions(ChangesFor(Reconcile(authoritative, current), k)) == ["add"]
            <==> Actions(ChangesFor(Reconcile(current, authoritative), k)) == ["remove"]
  {
    AddRemoveIff(authoritative, current, k);
    AddRemoveIff(current, authoritative, k);
  }

  lemma DiffStep(chart: Chart, cur: Chart, i: nat)
    requires i < |ComparedProps|
    ensures var p := ComparedProps[i];
            DiffOver(chart, cur, ComparedProps[..i + 1]) == DiffOver(chart, cur, ComparedProps[..i])
              + (if PropOf(chart, p) != PropOf(cur, p) then [Mismatch(PropName(p), PropOf(cur, p), PropOf(chart, p))] else [])
  {
    assert ComparedProps[..i + 1][..i] == ComparedProps[..i];
  }

  /** The property loop of the first pass: a mismatch for each compared property whose values differ. */
  method DiffCharts(chart: Chart, cur: Chart) returns (mismatches: seq<Mismatch>)
    ensures mismatches == Diff(chart, cur)
  {
    mismatches := [];
    for i := 0 to |ComparedProps|
      invariant mismatches == DiffOver(chart, cur, ComparedProps[..i])
    {
      var prop := ComparedProps[i];
      DiffStep(chart, cur, i);
      var aVal := PropOf(chart, prop);
      var bVal := PropOf(cur, prop);
      if aVal != bVal {
        mismatches := mismatches + [Mismatch(PropName(prop), bVal, aVal)];
      }
    }
    assert ComparedProps[..|ComparedProps|] == ComparedProps;
  }

  /** Fill a map from normalised id to chart. */
  method BuildIndex(charts: seq<Chart>) returns (ix: Index)
    ensures ix == Keyed(charts)
  {
    ix := [];
    for i := 0 to |charts|
      invariant ix == Keyed(charts[..i])
    {
      assert charts[..i + 1][..i] == charts[..i];
      ix := Put(ix, ToKebab(charts[i].id), charts[i]);
    }
    assert charts[..|charts|] == charts;
  }

  lemma AddsStep(a: Index, i: nat, b: Index)
    requires i < |a|
    ensures AddsAndUpdates(a[..i + 1], b) == AddsAndUpdates(a[..i], b) + Verdict(a[i].0, a[i].1, b)
  {
    assert a[..i + 1][..i] == a[..i];
  }

  lemma RemovesStep(b: Index, i: nat, a: Index)
    requires i < |b|
    ensures Removes(b[..i + 1], a) == Removes(b[..i], a) + (if Find(a, b[i].0).None? then [RemoveChange(b[i].1)] else [])
  {
    assert b[..i + 1][..i] == b[..i];
  }

  /** The first pass: an add or an update for each authoritative chart that needs one. */
  method AddsPass(mapA: Index, mapB: Index) returns (changes: seq<Change>)
    ensures changes == AddsAndUpdates(mapA, mapB)
  {
    changes := [];
    for i := 0 to |mapA|
      invariant changes == AddsAndUpdates(mapA[..i], mapB)
    {
      var (normId, chart) := mapA[i];
      AddsStep(mapA, i, mapB);
      var found := Find(mapB, normId);
      if found.None? {
        changes := changes + [AddChange(chart)];
      } else {
        var mismatches := DiffCharts(chart, found.value);
        if |mismatches| > 0 {
          changes := changes + [UpdateChange(chart, mismatches)];
        }
      }
    }
    assert mapA[..|mapA|] == mapA;
  }

  /** The second pass: a remove for each current chart the authoritative side lacks, after `adds`. */
  method RemovesPass(mapB: Index, mapA: Index, adds: seq<Change>) returns (changes: seq<Change>)
    ensures changes == adds + Removes(mapB, mapA)
  {
    changes := adds;
    assert Removes(mapB[..0], mapA) == [];
    for i := 0 to |mapB|
      invariant changes == adds + Removes(mapB[..i], mapA)
    {
      var (normId, cur) := mapB[i];
      RemovesStep(mapB, i, mapA);
      if Find(mapA, normId).None? {
        changes := changes + [RemoveChange(cur)];
      }
    }
    assert mapB[..|mapB|] == mapB;
  }

  /** `compareCharts`: index both sides, then the two passes. */
  method CompareCharts(authoritative: Option<seq<Chart>>, current: Option<seq<Chart>>) returns (changes: seq<Change>)
    ensures changes == Reconcile(authoritative, current)
  {
    var mapA := BuildIndex(ChartsOf(authoritative));
    var mapB := BuildIndex(ChartsOf(current));
    var adds := AddsPass(mapA, mapB);
    changes := RemovesPass(mapB, mapA, adds);
  }
}
