/**
 * The component reader (scripts/agents/lwcReader.js): it cuts the `chartSettings`
 * object literal out of the component's JavaScript, recovers each chart's type
 * from the component's `initChart(...)` calls, and maps every settings entry to a
 * canonical chart record of the same shape the dashboard extractor writes.
 */
module LwcReader {
  import opened Basics
  import opened Text
  import opened Json
  import opened Literal
  import opened BraceScan
  import opened Model

  const Marker: string := "chartSettings ="

  /**
   * Where the settings literal sits: the first `{` at or after the first marker,
   * up to one past the brace that closes it (or the end of the text).
   */
  function SettingsSpan(js: string): (r: Option<(nat, nat)>)
    ensures r.None? <==> IndexOf(js, Marker, 0) == -1 || IndexOf(js, "{", IndexOf(js, Marker, 0)) == -1
    ensures r.Some? ==>
              var (open, idx) := r.value;
              && OccursAt(js, Marker, IndexOf(js, Marker, 0))
              && IndexOf(js, Marker, 0) <= open < idx <= |js|
              && js[open] == '{'
              && (forall p :: IndexOf(js, Marker, 0) <= p < open ==> js[p] != '{')
              && ClosesAt(js, open, idx)
  {
    var start := IndexOf(js, Marker, 0);
    if start == -1 then None
    else
      var open := IndexOf(js, "{", start);
      if open == -1 then None
      else
        FirstBrace(js, start);
        Some((open, SpanClose(js, open)))
  }

  /** `indexOf('{', start)`: the brace it finds is the first one from `start`. */
  lemma FirstBrace(js: string, start: nat)
    requires IndexOf(js, "{", start) != -1
    ensures var open := IndexOf(js, "{", start);
            start <= open < |js| && js[open] == '{' && forall p :: start <= p < open ==> js[p] != '{'
  {
    var open := IndexOf(js, "{", start);
    assert js[open..open + 1] == "{";
    forall p | start <= p < open
      ensures js[p] != '{'
    {
      assert !OccursAt(js, "{", p);
      assert js[p..p + 1] == [js[p]];
    }
  }

  /** What `extractChartSettings` returns: the evaluated literal, `{}` when there is none, or the evaluation error. */
  function SettingsOf(js: string): Result<seq<Field>>
  {
    match SettingsSpan(js)
    case None => Ok([])
    case Some((open, idx)) =>
      match ParseObjectLiteral(js[open..idx])
      case None => Error("SyntaxError: the chartSettings literal does not evaluate")
      case Some(fields) => Ok(fields)
  }

  /** The marker missing, or no `{` after it, gives the empty settings object. */
  lemma NoLiteralNoSettings(js: string)
    requires IndexOf(js, Marker, 0) == -1 || IndexOf(js, "{", IndexOf(js, Marker, 0)) == -1
    ensures SettingsOf(js) == Ok([])
  {
  }

  /** The reader's scan: locate the marker and the brace, then walk the braces to the closing one. */
  method ExtractChartSettings(js: string) returns (r: Result<seq<Field>>)
    ensures r == SettingsOf(js)
  {
    var start := IndexOf(js, Marker, 0);
    if start == -1 {
      return Ok([]);
    }
    var open := IndexOf(js, "{", start);
    if open == -1 {
      return Ok([]);
    }
    FirstBrace(js, start);
    var idx := ScanSpan(js, open);
    var objText := js[open..idx];
    match ParseObjectLiteral(objText) {
      case None =>
        r := Error("SyntaxError: the chartSettings literal does not evaluate");
      case Some(fields) =>
        r := Ok(fields);
    }
  }

  // ---------------------------------------------------------------------------
  // initChart calls

  /** One match of the `initChart` pattern: the element class, the option property and the chart name. */
  datatype InitCall = InitCall(selector: string, option: string, name: string)

  datatype CharClass = AlnumClass | WordClass | SpaceClass

  predicate InClass(c: char, k: CharClass)
  {
    match k
    case AlnumClass => IsAlnum(c)
    case WordClass => IsWordChar(c)
    case SpaceClass => IsJsSpace(c)
  }

  /** The length of the longest prefix of class `k` (a greedy quantifier). */
  function Span(t: string, k: CharClass): (n: nat)
    ensures n <= |t|
    ensures forall j :: 0 <= j < n ==> InClass(t[j], k)
    ensures n == |t| || !InClass(t[n], k)
  {
    if t == [] || !InClass(t[0], k) then 0 else 1 + Span(t[1..], k)
  }

  const CallHead: string := "this.initChart(\"."

  /** `,\s*this.(\w+)` after the selector's closing quote: the option name and what follows it. */
  function OptionPart(t: string): (r: Option<(string, string)>)
    ensures r.Some? ==> |r.value.1| < |t|
  {
    var u := t[Span(t, SpaceClass)..];
    if !StartsWith(u, "this.") then None
    else
      var v := u[5..];
      var n := Span(v, WordClass);
      if n == 0 || !StartsWith(v[n..], ",") then None
      else Some((v[..n], v[n + 1..]))
  }

  /** `\s*"(\w+)"\)` after the option's comma: the chart name and what follows the call. */
  function NamePart(t: string): (r: Option<(string, string)>)
    ensures r.Some? ==> |r.value.1| < |t|
  {
    var u := t[Span(t, SpaceClass)..];
    if !StartsWith(u, "\"") then None
    else
      var v := u[1..];
      var n := Span(v, WordClass);
      if n == 0 || !StartsWith(v[n..], "\")") then None
      else Some((v[..n], v[n + 2..]))
  }

  /**
   * The pattern `this.initChart(".X", this.Y, "Z")` anchored at the start of `t`, with
   * `X` alphanumeric, `Y` and `Z` word characters and optional white space (newlines
   * included) after each comma. Every quantifier is followed by a character outside
   * its class, so the greedy run is the only one that can succeed.
   */
  function MatchCall(t: string): (r: Option<(InitCall, string)>)
    ensures r.Some? ==> StartsWith(t, CallHead) && |r.value.1| < |t|
  {
    if !StartsWith(t, CallHead) then None
    else
      var v := t[|CallHead|..];
      var n := Span(v, AlnumClass);
      if n == 0 || !StartsWith(v[n..], "\",") then None
      else
        match OptionPart(v[n + 2..])
        case None => None
        case Some((option, afterOption)) =>
          match NamePart(afterOption)
          case None => None
          case Some((name, rest)) => Some((InitCall(v[..n], option, name), rest))
  }

  /** `regex.exec` with `lastIndex` at `from`: the leftmost match at or after `from`, and where it ends. */
  function NextMatch(s: string, from: nat): (r: Option<(InitCall, nat)>)
    ensures r.Some? ==> from < r.value.1 <= |s|
    decreases |s| + 1 - from
  {
    if from > |s| then None
    else
      match MatchCall(s[from..])
      case Some((m, rest)) => Some((m, |s| - |rest|))
      case None => NextMatch(s, from + 1)
  }

  /** Every match from `from` on, each search resuming where the previous match ended. */
  function Calls(s: string, from: nat): seq<InitCall>
    decreases |s| + 1 - from
  {
    match NextMatch(s, from)
    case None => []
    case Some((m, end)) => [m] + Calls(s, end)
  }

  /** `matches[m[3]] = m[2]` for each match in turn. */
  function Collect(acc: seq<(string, string)>, calls: seq<InitCall>): seq<(string, string)>
    decreases |calls|
  {
    if calls == [] then acc else Collect(Put(acc, calls[0].name, calls[0].option), calls[1..])
  }

  /** The option of the last call naming `name`. */
  function LastOption(calls: seq<InitCall>, name: string): Option<string>
  {
    if calls == [] then None
    else
      var later := LastOption(calls[1..], name);
      if later.Some? then later
      else if calls[0].name == name then Some(calls[0].option)
      else None
  }

  /** `typeMap[opt] || 'bar'`. */
  function TypeFor(option: string): (r: string)
    ensures r == "bar" || r == "box-and-whisker"
    ensures r == "box-and-whisker" <==> option == "chartBoxOptions"
  {
    if option == "chartAOptions" then "bar"
    else if option == "chartBoxOptions" then "box-and-whisker"
    else "bar"
  }

  function TypesOf(matches: seq<(string, string)>): (r: seq<(string, string)>)
    ensures |r| == |matches|
    ensures forall i :: 0 <= i < |matches| ==> r[i] == (matches[i].0, TypeFor(matches[i].1))
  {
    seq(|matches|, i requires 0 <= i < |matches| => (matches[i].0, TypeFor(matches[i].1)))
  }

  /** What `extractTypes` returns. */
  function TypesSpec(js: string): seq<(string, string)>
  {
    TypesOf(Collect([], Calls(js, 0)))
  }

  lemma {:induction false} CollectUnique(acc: seq<(string, string)>, calls: seq<InitCall>)
    requires UniqueKeys(acc)
    ensures UniqueKeys(Collect(acc, calls))
    decreases |calls|
  {
    if calls != [] {
      PutUnique(acc, calls[0].name, calls[0].option);
      CollectUnique(Put(acc, calls[0].name, calls[0].option), calls[1..]);
    }
  }

  lemma {:induction false} CollectFind(acc: seq<(string, string)>, calls: seq<InitCall>, k: string)
    ensures Find(Collect(acc, calls), k) == if LastOption(calls, k).Some? then LastOption(calls, k) else Find(acc, k)
    decreases |calls|
  {
    if calls != [] {
      var acc' := Put(acc, calls[0].name, calls[0].option);
      CollectFind(acc', calls[1..], k);
      if calls[0].name != k {
        PutOther(acc, calls[0].name, calls[0].option, k);
      }
    }
  }

  lemma {:induction false} TypesOfFind(matches: seq<(string, string)>, k: string)
    ensures Find(TypesOf(matches), k) == if Find(matches, k).Some? then Some(TypeFor(Find(matches, k).value)) else None
  {
    if matches != [] {
      TypesOfFind(matches[1..], k);
      assert TypesOf(matches)[1..] == TypesOf(matches[1..]);
    }
  }

  /**
   * Each chart name maps to the type of the option passed in the LAST matching
   * call that names it; a name no call mentions has no type.
   */
  lemma LaterCallWins(js: string, name: string)
    ensures Find(TypesSpec(js), name) ==
              if LastOption(Calls(js, 0), name).Some? then Some(TypeFor(LastOption(Calls(js, 0), name).value)) else None
  {
    CollectFind([], Calls(js, 0), name);
    TypesOfFind(Collect([], Calls(js, 0)), name);
  }

  /** Each chart name appears once in the types. */
  lemma TypesSpecUnique(js: string)
    ensures UniqueKeys(TypesSpec(js))
  {
    CollectUnique([], Calls(js, 0));
    var m := Collect([], Calls(js, 0));
    assert forall i :: 0 <= i < |m| ==> TypesSpec(js)[i].0 == m[i].0;
  }

  predicate AllIn(s: string, k: CharClass)
  {
    forall i :: 0 <= i < |s| ==> InClass(s[i], k)
  }

  function OptionText(option: string): string { " this." + option + "," }

  function NameText(name: string): string { " \"" + name + "\")" }

  /** The text of a call as the component writes it, with one space after each comma. */
  function CallText(selector: string, option: string, name: string): string
  {
    CallHead + selector + "\"," + OptionText(option) + NameText(name)
  }

  lemma SpanOf(t: string, n: nat, k: CharClass)
    requires n <= |t| && AllIn(t[..n], k)
    requires n == |t| || !InClass(t[n], k)
    ensures Span(t, k) == n
  {
  }

  lemma NamePartOf(name: string, rest: string)
    requires name != [] && AllIn(name, WordClass)
    ensures NamePart(NameText(name) + rest) == Some((name, rest))
  {
    var t := NameText(name) + rest;
    SpanOf(t, 1, SpaceClass);
    var v := t[2..];
    assert v == name + ("\")" + rest);
    assert v[..|name|] == name;
    SpanOf(v, |name|, WordClass);
    assert v[|name|..] == "\")" + rest;
  }

  lemma OptionPartOf(option: string, rest: string)
    requires option != [] && AllIn(option, WordClass)
    ensures OptionPart(OptionText(option) + rest) == Some((option, rest))
  {
    var t := OptionText(option) + rest;
    SpanOf(t, 1, SpaceClass);
    var v := t[6..];
    assert v == option + ("," + rest);
    assert v[..|option|] == option;
    SpanOf(v, |option|, WordClass);
    assert v[|option|..] == "," + rest;
  }

  /** The selector part: after the head, an alphanumeric run closed by `",`. */
  lemma SelectorPartOf(selector: string, r: string)
    requires selector != [] && AllIn(selector, AlnumClass)
    ensures var v := (CallHead + (selector + ("\"," + r)))[|CallHead|..];
            && Span(v, AlnumClass) == |selector| && v[..|selector|] == selector
            && StartsWith(v[|selector|..], "\",") && v[|selector| + 2..] == r
  {
    var v := (CallHead + (selector + ("\"," + r)))[|CallHead|..];
    assert v == selector + ("\"," + r);
    assert v[..|selector|] == selector;
    SpanOf(v, |selector|, AlnumClass);
    assert v[|selector|..] == "\"," + r;
  }

  lemma CallTextParts(selector: string, option: string, name: string, rest: string)
    ensures CallText(selector, option, name) + rest
            == CallHead + (selector + ("\"," + (OptionText(option) + (NameText(name) + rest))))
  {
  }

  /** A call written as the component writes it is matched, and the match recovers its three parts. */
  lemma CallMatches(selector: string, option: string, name: string, rest: string)
    requires selector != [] && AllIn(selector, AlnumClass)
    requires option != [] && AllIn(option, WordClass)
    requires name != [] && AllIn(name, WordClass)
    ensures MatchCall(CallText(selector, option, name) + rest) == Some((InitCall(selector, option, name), rest))
  {
    var tail := NameText(name) + rest;
    CallTextParts(selector, option, name, rest);
    SelectorPartOf(selector, OptionText(option) + tail);
    OptionPartOf(option, tail);
    NamePartOf(name, rest);
  }

  /** One turn of the `exec` loop: the next match is recorded, and the search resumes after it. */
  lemma CollectStep(matches: seq<(string, string)>, js: string, last: nat)
    requires NextMatch(js, last).Some?
    ensures var (call, end) := NextMatch(js, last).value;
            Collect(matches, Calls(js, last)) == Collect(Put(matches, call.name, call.option), Calls(js, end))
  {
    var (call, end) := NextMatch(js, last).value;
    assert Calls(js, last) == [call] + Calls(js, end);
    assert Calls(js, last)[1..] == Calls(js, end);
  }

  /** One turn of the mapping loop: a name not yet in the result goes last. */
  lemma TypesOfStep(matches: seq<(string, string)>, k: nat)
    requires UniqueKeys(matches) && k < |matches|
    ensures Put(TypesOf(matches[..k]), matches[k].0, TypeFor(matches[k].1)) == TypesOf(matches[..k + 1])
  {
    var done := TypesOf(matches[..k]);
    assert KeysOf(done) == KeysOf(matches[..k]);
    assert matches[k].0 !in KeysOf(matches[..k]);
    PutFresh(done, matches[k].0, TypeFor(matches[k].1));
    assert done + [(matches[k].0, TypeFor(matches[k].1))] == TypesOf(matches[..k + 1]);
  }

  /** The reader's `exec` loop, then the mapping of each option name through the type table. */
  method ExtractTypes(js: string) returns (result: seq<(string, string)>)
    ensures result == TypesSpec(js)
  {
    var matches: seq<(string, string)> := [];
    var last := 0;
    var m := NextMatch(js, last);
    while m.Some?
      invariant last <= |js|
      invariant m == NextMatch(js, last)
      invariant UniqueKeys(matches)
      invariant Collect(matches, Calls(js, last)) == Collect([], Calls(js, 0))
      decreases |js| - last
    {
      var (call, end) := m.value;
      PutUnique(matches, call.name, call.option);
      CollectStep(matches, js, last);
      matches := Put(matches, call.name, call.option);
      last := end;
      m := NextMatch(js, last);
    }
    result := [];
    var k := 0;
    while k < |matches|
      invariant k <= |matches|
      invariant result == TypesOf(matches[..k])
    {
      TypesOfStep(matches, k);
      result := Put(result, matches[k].0, TypeFor(matches[k].1));
      k := k + 1;
    }
    assert matches[..k] == matches;
  }

  // ---------------------------------------------------------------------------
  // revEngCharts.json records

  const NullDefError: string := "TypeError: Cannot read properties of null (reading 'colors')"
  const JoinError: string := "TypeError: def.colors.join is not a function"

  /** The record for settings entry `id`: `def` is its value, `types` what `extractTypes` found. */
  function RevEngChart(id: string, def: Value, types: seq<(string, string)>): (r: Result<Chart>)
    ensures r.Error? <==> def.Null? || (TruthyOpt(Member(def, "colors")) && !Member(def, "colors").value.Arr?)
    ensures r.Ok? ==>
              && r.value.id == id
              && r.value.chartType == Some(Str(if Find(types, id).Some? then Find(types, id).value else "bar"))
              && r.value.saql.None?
              && r.value.dashboard == Member(def, "dashboard")
              && r.value.title == Member(def, "title")
              && r.value.fieldMappings == Member(def, "fieldMappings")
              && r.value.style.Some? && r.value.style.value.Obj?
  {
    if def.Null? then Error(NullDefError)
    else
      var colors := Member(def, "colors");
      if TruthyOpt(colors) && !colors.value.Arr? then Error(JoinError)
      else
        var t := Find(types, id);
        Ok(Chart(Member(def, "dashboard"), id, Some(Str(if t.Some? then t.value else "bar")),
                 Member(def, "title"), Member(def, "fieldMappings"), None,
                 Some(Obj(RevEngStyle(colors, Member(def, "effects"))))))
  }

  /** The style object built for an entry with the given `colors` and `effects`. */
  function RevEngStyle(colors: Option<Value>, effects: Option<Value>): seq<Field>
  {
    (if TruthyOpt(colors) then [("seriesColors", Str(ToJsString(colors.value)))] else [])
    + [("font", Str("default"))]
    + (if TruthyOpt(effects) then [("effects", effects.value)] else [])
  }

  /** The style every record carries: font "default", colours joined with commas iff truthy, effects as given. */
  lemma RevEngStyleFields(colors: Option<Value>, effects: Option<Value>)
    ensures var style := RevEngStyle(colors, effects);
            && Find(style, "font") == Some(Str("default"))
            && Find(style, "seriesColors") == (if TruthyOpt(colors) then Some(Str(ToJsString(colors.value))) else None)
            && Find(style, "effects") == (if TruthyOpt(effects) then effects else None)
  {
    var head: seq<Field> := if TruthyOpt(colors) then [("seriesColors", Str(ToJsString(colors.value)))] else [];
    var tail: seq<Field> := if TruthyOpt(effects) then [("effects", effects.value)] else [];
    FindAppend(head, [("font", Str("default"))] + tail, "font");
    FindAppend(head, [("font", Str("default"))] + tail, "seriesColors");
    FindAppend(head, [("font", Str("default"))] + tail, "effects");
    assert head + [("font", Str("default"))] + tail == head + ([("font", Str("default"))] + tail);
  }

  /** `Object.entries(settings).map(...)`: the first entry that throws ends the read. */
  function RevEngCharts(settings: seq<Field>, types: seq<(string, string)>): (r: Result<seq<Chart>>)
    ensures r.Ok? ==> |r.value| == |settings|
    ensures r.Ok? ==> forall i :: 0 <= i < |settings| ==>
              RevEngChart(settings[i].0, settings[i].1, types) == Ok(r.value[i])
    ensures r.Error? <==> exists i :: 0 <= i < |settings| && RevEngChart(settings[i].0, settings[i].1, types).Error?
  {
    if settings == [] then Ok([])
    else
      match RevEngChart(settings[0].0, settings[0].1, types)
      case Error(m) => Error(m)
      case Ok(c) =>
        match RevEngCharts(settings[1..], types)
        case Error(m) =>
          var i :| 0 <= i < |settings[1..]| && RevEngChart(settings[1..][i].0, settings[1..][i].1, types).Error?;
          assert settings[i + 1] == settings[1..][i];
          Error(m)
        case Ok(rest) =>
          assert forall i :: 1 <= i < |settings| ==> settings[i] == settings[1..][i - 1];
          Ok([c] + rest)
  }

  /** What `generateRevEng` writes under `charts`, before the file write. */
  function RevEngOf(js: string): Result<seq<Chart>>
  {
    match SettingsOf(js)
    case Error(m) => Error(m)
    case Ok(settings) => RevEngCharts(settings, TypesSpec(js))
  }

  /** One record per settings key, in key order, with the key as id. */
  lemma RevEngOnePerKey(js: string)
    requires SettingsOf(js).Ok? && RevEngOf(js).Ok?
    ensures |RevEngOf(js).value| == |SettingsOf(js).value|
    ensures forall i :: 0 <= i < |SettingsOf(js).value| ==> RevEngOf(js).value[i].id == SettingsOf(js).value[i].0
  {
    var settings := SettingsOf(js).value;
    forall i | 0 <= i < |settings|
      ensures RevEngOf(js).value[i].id == settings[i].0
    {
      assert RevEngChart(settings[i].0, settings[i].1, TypesSpec(js)) == Ok(RevEngOf(js).value[i]);
    }
  }

  /** `generateRevEng` on the component text: extract, find the types, map each entry. */
  method GenerateRevEng(js: string) returns (r: Result<seq<Chart>>)
    ensures r == RevEngOf(js)
  {
    var settings := ExtractChartSettings(js);
    var types := ExtractTypes(js);
    match settings {
      case Error(m) =>
        r := Error(m);
      case Ok(entries) =>
        r := RevEngCharts(entries, types);
    }
  }
}
