/**
 * The patcher (scripts/agents/syncCharts.js). It applies a change list to the
 * component's JavaScript by re-locating the `chartSettings` literal, merging or
 * deleting its entries and splicing the re-serialised literal back, and to the
 * component's markup by splicing line lists.
 */
module Patcher {
  import opened Basics
  import opened Text
  import opened Json
  import opened Literal
  import opened BraceScan
  import opened Model
  import LwcReader

  const NotFound: string := "chartSettings block not found"
  const EvalError: string := "SyntaxError: the chartSettings literal does not evaluate"

  // ---------------------------------------------------------------------------
  // parseChartSettings

  /** What `parseChartSettings` returns: the evaluated literal, the marker, the brace, and the end of the statement. */
  datatype Located = Located(settings: seq<Field>, start: nat, open: nat, end: nat)

  /** `indexOf(c, from)` for one character: the first occurrence at or after `from`. */
  lemma IndexOfChar(s: string, c: char, from: nat)
    ensures var r := IndexOf(s, [c], from);
            && (r == -1 ==> forall p :: from <= p < |s| ==> s[p] != c)
            && (r != -1 ==> from <= r < |s| && s[r] == c && forall p :: from <= p < r ==> s[p] != c)
  {
    var r := IndexOf(s, [c], from);
    if r != -1 {
      assert s[r..r + 1] == [c];
    }
    forall p | from <= p < |s| && (r == -1 || p < r)
      ensures s[p] != c
    {
      assert !OccursAt(s, [c], p);
      assert s[p..p + 1] == [s[p]];
    }
  }

  /** One past the `;` after `idx` (the end of the assignment statement), or `idx` itself when no `;` follows. */
  function StatementEnd(js: string, idx: nat): (r: nat)
    requires idx <= |js|
    ensures idx <= r <= |js|
    ensures r == idx ==> forall p :: idx <= p < |js| ==> js[p] != ';'
    ensures r > idx ==> js[r - 1] == ';' && forall p :: idx <= p < r - 1 ==> js[p] != ';'
  {
    IndexOfChar(js, ';', idx);
    var semi := IndexOf(js, ";", idx);
    if semi == -1 then idx else semi + 1
  }

  /**
   * `parseChartSettings`: a missing marker throws; otherwise the span is the one
   * the component reader cuts out, and the statement ends after the next `;`.
   */
  function LocateSettings(js: string): (r: Result<Located>)
    ensures IndexOf(js, LwcReader.Marker, 0) == -1 ==> r == Error(NotFound)
    ensures r.Ok? ==>
              var span := LwcReader.SettingsSpan(js);
              && span.Some?
              && r.value.start == IndexOf(js, LwcReader.Marker, 0)
              && r.value.open == span.value.0
              && r.value.end == StatementEnd(js, span.value.1)
              && ParseObjectLiteral(js[span.value.0..span.value.1]) == Some(r.value.settings)
    ensures IndexOf(js, LwcReader.Marker, 0) != -1 ==>
              (r.Ok? <==> LwcReader.SettingsSpan(js).Some?
                          && ParseObjectLiteral(js[LwcReader.SettingsSpan(js).value.0..LwcReader.SettingsSpan(js).value.1]).Some?)
  {
    var start := IndexOf(js, LwcReader.Marker, 0);
    if start == -1 then Error(NotFound)
    else
      match LwcReader.SettingsSpan(js)
      case None => Error(EvalError)
      case Some((open, idx)) =>
        match ParseObjectLiteral(js[open..idx])
        case None => Error(EvalError)
        case Some(obj) => Ok(Located(obj, start, open, StatementEnd(js, idx)))
  }

  /** The statement end is never before the span's closing position, so it lies past the brace. */
  lemma LocatedOrdered(js: string)
    requires LocateSettings(js).Ok?
    ensures var loc := LocateSettings(js).value;
            loc.start <= loc.open < loc.end <= |js| && js[loc.open] == '{'
  {
  }

  /** The scan: the marker, the brace after it, the balanced-brace walk, then the next `;`. */
  method ParseChartSettings(js: string) returns (r: Result<Located>)
    ensures r == LocateSettings(js)
  {
    var start := IndexOf(js, LwcReader.Marker, 0);
    if start == -1 {
      return Error(NotFound);
    }
    var open := IndexOf(js, "{", start);
    if open == -1 {
      return Error(EvalError);
    }
    LwcReader.FirstBrace(js, start);
    var idx := ScanSpan(js, open);
    assert LwcReader.SettingsSpan(js) == Some((open, idx));
    var objText := js[open..idx];
    var obj := ParseObjectLiteral(objText);
    if obj.None? {
      return Error(EvalError);
    }
    var semicolonIdx := IndexOf(js, ";", idx);
    var end := if semicolonIdx == -1 then idx else semicolonIdx + 1;
    assert end == StatementEnd(js, idx);
    r := Ok(Located(obj.value, start, open, end));
  }

  // ---------------------------------------------------------------------------
  // serializeSettings

  predicate IdentStart(c: char) { IsAlpha(c) || c == '_' || c == '$' }
  predicate IdentChar(c: char) { IsWordChar(c) || c == '$' }

  /** The longest prefix of `[\w$]` characters. */
  function IdentRun(t: string): (n: nat)
    ensures n <= |t|
    ensures forall j :: 0 <= j < n ==> IdentChar(t[j])
    ensures n == |t| || !IdentChar(t[n])
  {
    if t == [] || !IdentChar(t[0]) then 0 else 1 + IdentRun(t[1..])
  }

  /**
   * The length of the key the pattern `"([a-zA-Z_$][\w$]*)"(?=:)` matches at
   * the head of `s`, or 0 when it does not match there.
   */
  function KeyAt(s: string): (n: nat)
    ensures n > 0 ==> n + 2 < |s| && s[0] == '"' && s[n + 1] == '"' && s[n + 2] == ':'
                      && IdentStart(s[1]) && forall j :: 1 <= j <= n ==> IdentChar(s[j])
  {
    if |s| < 2 || s[0] != '"' || !IdentStart(s[1]) then 0
    else
      var n := IdentRun(s[1..]);
      if n + 2 < |s| && s[n + 1] == '"' && s[n + 2] == ':' then n else 0
  }

  /** The global replacement: each match loses its quotes, and scanning resumes after it. */
  function UnquoteKeys(s: string): string
    decreases |s|
  {
    if s == [] then []
    else
      var n := KeyAt(s);
      if n > 0 then s[1..n + 1] + UnquoteKeys(s[n + 2..])
      else [s[0]] + UnquoteKeys(s[1..])
  }

  /** `serializeSettings`: two-space JSON with identifier keys unquoted. */
  function SerializeSettings(settings: seq<Field>): string
  {
    UnquoteKeys(Pretty(Obj(settings), ""))
  }

  predicate IsIdentifier(k: string)
  {
    k != [] && IdentStart(k[0]) && forall j :: 0 <= j < |k| ==> IdentChar(k[j])
  }

  /** A quoted identifier before a colon loses its quotes. */
  lemma UnquoteIdentifierKey(k: string, rest: string)
    requires IsIdentifier(k)
    ensures UnquoteKeys("\"" + k + "\"" + ":" + rest) == k + UnquoteKeys(":" + rest)
  {
    var s := "\"" + k + "\"" + ":" + rest;
    assert s[1..] == k + ("\"" + ":" + rest);
    IdentRunOf(k, "\"" + ":" + rest);
    assert s[|k| + 2..] == ":" + rest;
    assert s[1..|k| + 1] == k;
  }

  lemma IdentRunOf(k: string, t: string)
    requires forall j :: 0 <= j < |k| ==> IdentChar(k[j])
    requires t != [] && !IdentChar(t[0])
    ensures IdentRun(k + t) == |k|
  {
    assert forall j :: 0 <= j < |k| ==> (k + t)[j] == k[j];
    assert (k + t)[|k|] == t[0];
  }

  /** A quoted key that is not an identifier (such as "new-chart") keeps its opening quote. */
  lemma KeepNonIdentifierKey(k: string, rest: string)
    requires !IsIdentifier(k) && '"' !in k
    ensures UnquoteKeys("\"" + k + "\"" + rest) == "\"" + UnquoteKeys(k + "\"" + rest)
  {
    var s := "\"" + k + "\"" + rest;
    assert s[1..] == k + "\"" + rest;
    if |s| >= 2 && IdentStart(s[1]) {
      var n := IdentRun(s[1..]);
      assert k != [] && k[0] == s[1];
      var j :| 0 <= j < |k| && !IdentChar(k[j]);
      assert s[1..][j] == k[j];
      assert n <= j;
      assert s[n + 1] == k[n] && k[n] != '"' by {
        assert k[n] in k;
      }
    }
  }

  /** "new-chart" is not an identifier, so it stays quoted. */
  lemma NewChartStaysQuoted(k: string, rest: string)
    requires k == "new-chart"
    ensures UnquoteKeys("\"" + k + "\"" + rest) == "\"" + UnquoteKeys(k + "\"" + rest)
  {
    assert !IdentChar(k[3]);
    KeepNonIdentifierKey(k, rest);
  }

  lemma {:induction false} UnquoteShorter(s: string)
    ensures |UnquoteKeys(s)| <= |s|
    decreases |s|
  {
    if s != [] {
      var n := KeyAt(s);
      if n > 0 {
        UnquoteShorter(s[n + 2..]);
      } else {
        UnquoteShorter(s[1..]);
      }
    }
  }

  lemma CountDropsEnds(s: string, n: nat, u: string, c: char)
    requires 0 < n && n + 2 <= |s| && c != s[0] && c != s[n + 1]
    requires multiset(u)[c] == multiset(s[n + 2..])[c]
    ensures multiset(s[1..n + 1] + u)[c] == multiset(s)[c]
  {
    var key, rest := s[1..n + 1], s[n + 2..];
    assert s == [s[0]] + key + [s[n + 1]] + rest;
    assert multiset([s[0]] + key + [s[n + 1]] + rest)
        == multiset([s[0]]) + multiset(key) + multiset([s[n + 1]]) + multiset(rest);
    assert multiset(key + u) == multiset(key) + multiset(u);
  }

  lemma CountCons(a: char, rest: string, u: string, c: char)
    requires multiset(u)[c] == multiset(rest)[c]
    ensures multiset([a] + u)[c] == multiset([a] + rest)[c]
  {
    assert multiset([a] + u) == multiset([a]) + multiset(u);
    assert multiset([a] + rest) == multiset([a]) + multiset(rest);
  }

  /** A character other than a double quote occurs as often after the replacement as before it. */
  lemma {:induction false} UnquoteKeepsCount(s: string, c: char)
    requires c != '"'
    ensures multiset(UnquoteKeys(s))[c] == multiset(s)[c]
    decreases |s|
  {
    if s != [] {
      var n := KeyAt(s);
      if n > 0 {
        var key, rest := s[1..n + 1], s[n + 2..];
        UnquoteKeepsCount(rest, c);
        CountDropsEnds(s, n, UnquoteKeys(rest), c);
      } else {
        var rest := s[1..];
        UnquoteKeepsCount(rest, c);
        CountCons(s[0], rest, UnquoteKeys(rest), c);
        assert s == [s[0]] + rest;
      }
    }
  }

  /** The replacement only removes double quotes: every other character keeps its count, and the text does not grow. */
  lemma OnlyQuotesRemoved(s: string)
    ensures |UnquoteKeys(s)| <= |s|
    ensures forall c :: c != '"' ==> multiset(UnquoteKeys(s))[c] == multiset(s)[c]
  {
    UnquoteShorter(s);
    forall c | c != '"'
      ensures multiset(UnquoteKeys(s))[c] == multiset(s)[c]
    {
      UnquoteKeepsCount(s, c);
    }
  }

  // ---------------------------------------------------------------------------
  // toPascal

  predicate IsPascalSep(c: char) { c == '-' || c == '_' }

  /** `split(/[-_]/)`. */
  function SplitSeps(s: string): (r: seq<string>)
    ensures |r| >= 1
  {
    if s == [] then [[]]
    else
      var rest := SplitSeps(s[1..]);
      if IsPascalSep(s[0]) then [[]] + rest else [[s[0]] + rest[0]] + rest[1..]
  }

  /** `s.charAt(0).toUpperCase() + s.slice(1)`. */
  function Capitalize(s: string): string
  {
    if s == [] then [] else [UpperChar(s[0])] + s[1..]
  }

  function CapitalizeAll(pieces: seq<string>): (r: seq<string>)
    ensures |r| == |pieces|
  {
    seq(|pieces|, i requires 0 <= i < |pieces| => Capitalize(pieces[i]))
  }

  /** `toPascal`: split on `-` and `_`, capitalise each piece, join with nothing. */
  function ToPascal(id: string): string
  {
    Join(CapitalizeAll(SplitSeps(id)), "")
  }

  /**
   * A character scan that reads the same: separators are dropped and the
   * character after one (and the first character) is upper-cased.
   */
  function PascalScan(s: string, capitalize: bool): (r: string)
    ensures forall j :: 0 <= j < |r| ==> !IsPascalSep(r[j])
  {
    if s == [] then []
    else if IsPascalSep(s[0]) then PascalScan(s[1..], true)
    else [if capitalize then UpperChar(s[0]) else s[0]] + PascalScan(s[1..], false)
  }

  lemma {:induction false} JoinEmptySep(parts: seq<string>)
    ensures Join(parts, "") == Concat(parts)
  {
    if |parts| > 1 {
      JoinEmptySep(parts[1..]);
    } else if |parts| == 1 {
      assert parts[1..] == [];
    }
  }

  lemma {:induction false} PascalScanSplit(s: string, capitalize: bool)
    ensures var pieces := SplitSeps(s);
            PascalScan(s, capitalize)
              == (if capitalize then Capitalize(pieces[0]) else pieces[0]) + Concat(CapitalizeAll(pieces[1..]))
  {
    if s != [] {
      var rest := SplitSeps(s[1..]);
      var tail := Concat(CapitalizeAll(rest[1..]));
      if IsPascalSep(s[0]) {
        PascalScanSplit(s[1..], true);
        assert PascalScan(s, capitalize) == Capitalize(rest[0]) + tail;
        var caps := CapitalizeAll(rest);
        assert caps[0] == Capitalize(rest[0]) && caps[1..] == CapitalizeAll(rest[1..]);
        assert Concat(caps) == Capitalize(rest[0]) + tail;
        assert SplitSeps(s) == [[]] + rest;
        assert SplitSeps(s)[1..] == rest;
      } else {
        PascalScanSplit(s[1..], false);
        var head := [s[0]] + rest[0];
        assert SplitSeps(s) == [head] + rest[1..];
        assert PascalScan(s, capitalize)
            == [if capitalize then UpperChar(s[0]) else s[0]] + (rest[0] + tail);
        assert Capitalize(head) == [UpperChar(s[0])] + rest[0];
      }
    }
  }

  /** `toPascal` agrees with the character scan. */
  lemma ToPascalScan(id: string)
    ensures ToPascal(id) == PascalScan(id, true)
  {
    var pieces := SplitSeps(id);
    JoinEmptySep(CapitalizeAll(pieces));
    PascalScanSplit(id, true);
    assert CapitalizeAll(pieces) == [Capitalize(pieces[0])] + CapitalizeAll(pieces[1..]);
  }

  /** The result holds no `-` or `_`. */
  lemma ToPascalNoSeparators(id: string)
    ensures forall j :: 0 <= j < |ToPascal(id)| ==> !IsPascalSep(ToPascal(id)[j])
  {
    ToPascalScan(id);
  }

  lemma PascalPlain(s: string)
    requires forall j :: 0 <= j < |s| ==> !IsPascalSep(s[j])
    ensures PascalScan(s, false) == s
  {
    if s != [] {
      PascalPlain(s[1..]);
    }
  }

  /** Two words joined by `-` become the two words capitalised. */
  lemma PascalTwoWords(a: string, b: string)
    requires a != [] && b != []
    requires forall j :: 0 <= j < |a| ==> !IsPascalSep(a[j])
    requires forall j :: 0 <= j < |b| ==> !IsPascalSep(b[j])
    ensures ToPascal(a + "-" + b) == Capitalize(a) + Capitalize(b)
  {
    ToPascalScan(a + "-" + b);
    ScanTwoWords(a, b);
  }

  lemma ScanTwoWords(a: string, b: string)
    requires a != [] && b != []
    requires forall j :: 0 <= j < |a| ==> !IsPascalSep(a[j])
    requires forall j :: 0 <= j < |b| ==> !IsPascalSep(b[j])
    ensures PascalScan(a + "-" + b, true) == Capitalize(a) + Capitalize(b)
  {
    var tail := a[1..] + "-" + b;
    var rest := PascalScan(b[1..], false);
    assert a + "-" + b == [a[0]] + tail;
    PascalHead(a[0], tail);
    PascalJoin(a, b);
    PascalPlain(b[1..]);
    calc {
      PascalScan(a + "-" + b, true);
      [UpperChar(a[0])] + PascalScan(tail, false);
      [UpperChar(a[0])] + (a[1..] + [UpperChar(b[0])] + rest);
      ([UpperChar(a[0])] + a[1..]) + ([UpperChar(b[0])] + b[1..]);
    }
  }

  lemma PascalHead(c: char, t: string)
    requires !IsPascalSep(c)
    ensures PascalScan([c] + t, true) == [UpperChar(c)] + PascalScan(t, false)
  {
    assert ([c] + t)[1..] == t;
  }

  lemma {:induction false} PascalJoin(a: string, b: string)
    requires b != []
    requires forall j :: 0 <= j < |a| ==> !IsPascalSep(a[j])
    requires !IsPascalSep(b[0])
    ensures PascalScan(a + "-" + b, false) == a + [UpperChar(b[0])] + PascalScan(b[1..], false)
    ensures a != [] ==> PascalScan(a[1..] + "-" + b, false) == a[1..] + [UpperChar(b[0])] + PascalScan(b[1..], false)
  {
    if a == [] {
      assert a + "-" + b == "-" + b;
      assert ("-" + b)[1..] == b;
      assert b == [b[0]] + b[1..];
    } else {
      PascalJoin(a[1..], b);
      assert (a + "-" + b)[1..] == a[1..] + "-" + b;
    }
  }

  /** "new-chart" becomes "NewChart". */
  lemma ToPascalExample(a: string, b: string)
    requires a == "new" && b == "chart"
    ensures ToPascal(a + "-" + b) == "NewChart"
  {
    PascalTwoWords(a, b);
  }

  // ---------------------------------------------------------------------------
  // updateJs

  const ForEachError: string := "TypeError: mismatches.forEach is not a function"
  const UndefinedStyleError: string := "TypeError: Cannot read properties of undefined (reading 'seriesColors')"
  const NullStyleError: string := "TypeError: Cannot read properties of null (reading 'seriesColors')"
  const ColorsSplitError: string := "TypeError: val.seriesColors.split is not a function"

  /**
   * `entry[k] = v` on a settings entry. Only an object entry takes the property;
   * a primitive ignores it and an array does not serialise it. Assigning
   * undefined removes the key from what JSON.stringify writes.
   */
  function SetProp(entry: Value, k: string, v: Option<Value>): (r: Value)
    ensures entry.Obj? ==> r.Obj? && Member(r, k) == v
    ensures !entry.Obj? ==> r == entry
  {
    if !entry.Obj? then entry
    else if v.None? then Obj(Remove(entry.fields, k))
    else Obj(Put(entry.fields, k, v.value))
  }

  /** `seriesColors.split(',')` as an array of strings. */
  function ColorList(colors: string): (r: Value)
    ensures r.Arr? && |r.items| == |Split(colors, ',')|
  {
    var pieces := Split(colors, ',');
    Arr(seq(|pieces|, i requires 0 <= i < |pieces| => Str(pieces[i])))
  }

  /** The component reader writes a colour list back as `colors.join(",")`: that gives the split text again. */
  lemma ColorListRoundTrip(colors: string)
    ensures ToJsString(ColorList(colors)) == colors
  {
    var pieces := Split(colors, ',');
    var items := ColorList(colors).items;
    var texts := seq(|items|, i requires 0 <= i < |items| => JoinElement(items[i]));
    assert |texts| == |pieces|;
    forall i | 0 <= i < |texts|
      ensures texts[i] == pieces[i]
    {
      assert items[i] == Str(pieces[i]);
      assert JoinElement(Str(pieces[i])) == ToJsString(Str(pieces[i])) == pieces[i];
    }
    assert texts == pieces;
    JoinSplit(colors, ',');
  }

  /** One mismatch merged into the entry: dashboard, title and fieldMappings copied, style mapped, others ignored. */
  function MergeMismatch(entry: Value, m: Mismatch): Result<Value>
  {
    var val := m.expectedValue;
    if m.property == "dashboard" || m.property == "title" || m.property == "fieldMappings" then
      Ok(SetProp(entry, m.property, val))
    else if m.property == "style" then
      if val.None? then Error(UndefinedStyleError)
      else if val.value.Null? then Error(NullStyleError)
      else
        var colors := Member(val.value, "seriesColors");
        var effects := Member(val.value, "effects");
        if TruthyOpt(colors) && !colors.value.Str? then Error(ColorsSplitError)
        else
          var withColors := if TruthyOpt(colors) then SetProp(entry, "colors", Some(ColorList(colors.value.s))) else entry;
          Ok(if effects.Some? && effects.value.Arr? then SetProp(withColors, "effects", effects) else withColors)
    else Ok(entry)
  }

  /** The mismatches merged in order; the first that throws stops the patch. */
  function MergeAll(entry: Value, ms: seq<Mismatch>): Result<Value>
  {
    if ms == [] then Ok(entry)
    else
      match MergeAll(entry, ms[..|ms| - 1])
      case Error(e) => Error(e)
      case Ok(e) => MergeMismatch(e, ms[|ms| - 1])
  }

  /** `change.mismatches || []`, and the forEach that fails on anything truthy but an array. */
  function MismatchList(f: MismatchField): Result<seq<Mismatch>>
  {
    match f
    case Absent => Ok([])
    case List(items) => Ok(items)
    case NotAList(truthy) => if truthy then Error(ForEachError) else Ok([])
  }

  /** `settings[id] || {}`. */
  function EntryFor(settings: seq<Field>, id: string): Value
  {
    var v := Find(settings, id);
    if v.Some? && Truthy(v.value) then v.value else Obj([])
  }

  /** One change applied to the settings: other target files ignored, a remove deleting, anything else merging. */
  function ApplyChange(settings: seq<Field>, c: Change): Result<seq<Field>>
  {
    if c.targetFile != TargetFile then Ok(settings)
    else if c.action == "remove" then Ok(Remove(settings, c.chartId))
    else
      match MismatchList(c.mismatches)
      case Error(e) => Error(e)
      case Ok(ms) =>
        match MergeAll(EntryFor(settings, c.chartId), ms)
        case Error(e) => Error(e)
        case Ok(entry) => Ok(Put(settings, c.chartId, entry))
  }

  function ApplyAll(settings: seq<Field>, cs: seq<Change>): Result<seq<Field>>
  {
    if cs == [] then Ok(settings)
    else
      match ApplyAll(settings, cs[..|cs| - 1])
      case Error(e) => Error(e)
      case Ok(s) => ApplyChange(s, cs[|cs| - 1])
  }

  /** The text with `[open, end)` replaced. */
  function Splice(content: string, open: nat, end: nat, text: string): (r: string)
    requires open <= end <= |content|
    ensures |r| == open + |text| + (|content| - end)
    ensures r[..open] == content[..open]
    ensures r[open..open + |text|] == text
    ensures r[open + |text|..] == content[end..]
  {
    content[..open] + text + content[end..]
  }

  /** What `updateJs` writes: the text before the brace, the serialised settings and `;`, the text after the statement. */
  function UpdateJsSpec(content: string, cs: seq<Change>): Result<string>
  {
    match LocateSettings(content)
    case Error(e) => Error(e)
    case Ok(loc) =>
      LocatedOrdered(content);
      match ApplyAll(loc.settings, cs)
      case Error(e) => Error(e)
      case Ok(settings) => Ok(Splice(content, loc.open, loc.end, SerializeSettings(settings) + ";"))
  }

  /**
   * The file fails exactly when the literal cannot be located or a change
   * throws; otherwise every character outside `[open, end)` is kept and between
   * them stand the serialised settings and a `;`.
   */
  lemma OutsideSpanUnchanged(content: string, cs: seq<Change>)
    ensures UpdateJsSpec(content, cs).Ok? <==> LocateSettings(content).Ok? && ApplyAll(LocateSettings(content).value.settings, cs).Ok?
    ensures UpdateJsSpec(content, cs).Ok? ==>
              var loc := LocateSettings(content).value;
              var out := UpdateJsSpec(content, cs).value;
              var text := SerializeSettings(ApplyAll(loc.settings, cs).value) + ";";
              && out[..loc.open] == content[..loc.open]
              && out[loc.open..loc.open + |text|] == text
              && out[loc.open + |text|..] == content[loc.end..]
  {
    if LocateSettings(content).Ok? {
      LocatedOrdered(content);
    }
  }

  /** Changes for another target file leave the settings as they are. */
  lemma OtherTargetIgnored(settings: seq<Field>, c: Change)
    requires c.targetFile != TargetFile
    ensures ApplyChange(settings, c) == Ok(settings)
  {
  }

  /** A remove deletes the key and keeps every other entry. */
  lemma RemoveDeletes(settings: seq<Field>, c: Change, k: string)
    requires c.targetFile == TargetFile && c.action == "remove"
    ensures ApplyChange(settings, c).Ok?
    ensures c.chartId !in KeysOf(ApplyChange(settings, c).value)
    ensures k != c.chartId ==> Find(ApplyChange(settings, c).value, k) == Find(settings, k)
  {
    if k != c.chartId {
      RemoveOther(settings, c.chartId, k);
    }
  }

  /** Any other action leaves the key present with the merged entry, and every other entry as it was. */
  lemma MergeKeepsOthers(settings: seq<Field>, c: Change, k: string)
    requires c.targetFile == TargetFile && c.action != "remove"
    requires ApplyChange(settings, c).Ok?
    ensures var ms := MismatchList(c.mismatches).value;
            Find(ApplyChange(settings, c).value, c.chartId) == Some(MergeAll(EntryFor(settings, c.chartId), ms).value)
    ensures k != c.chartId ==> Find(ApplyChange(settings, c).value, k) == Find(settings, k)
  {
    var ms := MismatchList(c.mismatches).value;
    var entry := MergeAll(EntryFor(settings, c.chartId), ms).value;
    if k != c.chartId {
      PutOther(settings, c.chartId, entry, k);
    }
  }

  /** An add with no mismatches for a new key appends an empty entry. */
  lemma AddWithoutMismatches(settings: seq<Field>, c: Change)
    requires c.targetFile == TargetFile && c.action == "add" && c.mismatches.Absent?
    requires c.chartId !in KeysOf(settings)
    ensures ApplyChange(settings, c) == Ok(settings + [(c.chartId, Obj([]))])
  {
    PutFresh(settings, c.chartId, Obj([]));
  }

  /** dashboard, title and fieldMappings mismatches set that property of an object entry to the expected value. */
  lemma CopiedProperties(entry: Value, m: Mismatch)
    requires entry.Obj?
    requires m.property == "dashboard" || m.property == "title" || m.property == "fieldMappings"
    ensures MergeMismatch(entry, m).Ok?
    ensures Member(MergeMismatch(entry, m).value, m.property) == m.expectedValue
  {
  }

  /** type and saql mismatches (and any other property) are not applied. */
  lemma IgnoredProperties(entry: Value, m: Mismatch)
    requires m.property !in {"dashboard", "title", "fieldMappings", "style"}
    ensures MergeMismatch(entry, m) == Ok(entry)
  {
  }

  /**
   * A style mismatch on an object entry sets `colors` to the split of a truthy
   * `seriesColors` string and copies `effects` only when it is an array.
   */
  lemma StyleMerge(entry: Value, m: Mismatch)
    requires entry.Obj? && m.property == "style"
    requires MergeMismatch(entry, m).Ok?
    ensures var val := m.expectedValue.value;
            var r := MergeMismatch(entry, m).value;
            var colors := Member(val, "seriesColors");
            var effects := Member(val, "effects");
            && (TruthyOpt(colors) ==> Member(r, "colors") == Some(ColorList(colors.value.s)))
            && (!TruthyOpt(colors) ==> Member(r, "colors") == Member(entry, "colors"))
            && (effects.Some? && effects.value.Arr? ==> Member(r, "effects") == effects)
            && (!(effects.Some? && effects.value.Arr?) ==> Member(r, "effects") == Member(entry, "effects"))
  {
    var val := m.expectedValue.value;
    var colors := Member(val, "seriesColors");
    var effects := Member(val, "effects");
    var withColors := if TruthyOpt(colors) then SetProp(entry, "colors", Some(ColorList(colors.value.s))) else entry;
    if TruthyOpt(colors) {
      PutOther(entry.fields, "colors", ColorList(colors.value.s), "effects");
    }
    if effects.Some? && effects.value.Arr? {
      PutOther(withColors.fields, "effects", effects.value, "colors");
    }
  }

  /** Only the changes aimed at the component's JavaScript. */
  function OnTarget(cs: seq<Change>): (r: seq<Change>)
    ensures forall c :: c in r ==> c in cs && c.targetFile == TargetFile
  {
    if cs == [] then []
    else OnTarget(cs[..|cs| - 1]) + (if cs[|cs| - 1].targetFile == TargetFile then [cs[|cs| - 1]] else [])
  }

  lemma ApplyAllAppend(settings: seq<Field>, cs: seq<Change>, c: Change)
    ensures ApplyAll(settings, cs + [c]) ==
              match ApplyAll(settings, cs)
              case Error(e) => Error(e)
              case Ok(s) => ApplyChange(s, c)
  {
    assert (cs + [c])[..|cs|] == cs;
  }

  /** Applying a change list is applying its changes for the component's JavaScript. */
  lemma {:induction false} OnlyTargetMatters(settings: seq<Field>, cs: seq<Change>)
    ensures ApplyAll(settings, cs) == ApplyAll(settings, OnTarget(cs))
  {
    if cs != [] {
      var init := cs[..|cs| - 1];
      var c := cs[|cs| - 1];
      OnlyTargetMatters(settings, init);
      if c.targetFile == TargetFile {
        ApplyAllAppend(settings, OnTarget(init), c);
      } else {
        assert OnTarget(cs) == OnTarget(init);
      }
    }
  }

  lemma MergeAllStep(entry: Value, ms: seq<Mismatch>, j: nat)
    requires j < |ms|
    ensures MergeAll(entry, ms[..j + 1]) ==
              match MergeAll(entry, ms[..j])
              case Error(e) => Error(e)
              case Ok(e) => MergeMismatch(e, ms[j])
  {
    assert ms[..j + 1][..j] == ms[..j];
  }

  lemma {:induction false} MergeErrorStays(entry: Value, ms: seq<Mismatch>, j: nat)
    requires j <= |ms| && MergeAll(entry, ms[..j]).Error?
    ensures MergeAll(entry, ms) == MergeAll(entry, ms[..j])
    decreases |ms| - j
  {
    if j < |ms| {
      MergeAllStep(entry, ms, j);
      MergeErrorStays(entry, ms, j + 1);
    } else {
      assert ms[..j] == ms;
    }
  }

  /** The mismatch loop: the entry object updated property by property. */
  method MergeEntry(entry: Value, ms: seq<Mismatch>) returns (r: Result<Value>)
    ensures r == MergeAll(entry, ms)
  {
    var e := entry;
    for j := 0 to |ms|
      invariant MergeAll(entry, ms[..j]) == Ok(e)
    {
      MergeAllStep(entry, ms, j);
      var next := MergeMismatch(e, ms[j]);
      if next.Error? {
        MergeErrorStays(entry, ms, j + 1);
        return next;
      }
      e := next.value;
    }
    assert ms[..|ms|] == ms;
    r := Ok(e);
  }

  lemma ApplyAllStep(settings: seq<Field>, cs: seq<Change>, i: nat)
    requires i < |cs|
    ensures ApplyAll(settings, cs[..i + 1]) ==
              match ApplyAll(settings, cs[..i])
              case Error(e) => Error(e)
              case Ok(s) => ApplyChange(s, cs[i])
  {
    assert cs[..i + 1][..i] == cs[..i];
  }

  lemma {:induction false} ApplyErrorStays(settings: seq<Field>, cs: seq<Change>, i: nat)
    requires i <= |cs| && ApplyAll(settings, cs[..i]).Error?
    ensures ApplyAll(settings, cs) == ApplyAll(settings, cs[..i])
    decreases |cs| - i
  {
    if i < |cs| {
      ApplyAllStep(settings, cs, i);
      ApplyErrorStays(settings, cs, i + 1);
    } else {
      assert cs[..i] == cs;
    }
  }

  /** One change applied to the settings object in place. */
  method ApplyOne(settings: seq<Field>, c: Change) returns (r: Result<seq<Field>>)
    ensures r == ApplyChange(settings, c)
  {
    if c.targetFile != TargetFile {
      return Ok(settings);
    }
    var id := c.chartId;
    if c.action == "remove" {
      return Ok(Remove(settings, id));
    }
    var entry := EntryFor(settings, id);
    var mismatches := MismatchList(c.mismatches);
    if mismatches.Error? {
      return Error(mismatches.message);
    }
    var merged := MergeEntry(entry, mismatches.value);
    if merged.Error? {
      return Error(merged.message);
    }
    r := Ok(Put(settings, id, merged.value));
  }

  /** `updateJs`: locate the literal, apply every change to the settings, and splice the serialised settings back. */
  method UpdateJs(content: string, cs: seq<Change>) returns (r: Result<string>)
    ensures r == UpdateJsSpec(content, cs)
  {
    var located := ParseChartSettings(content);
    if located.Error? {
      return Error(located.message);
    }
    var loc := located.value;
    LocatedOrdered(content);
    var settings := loc.settings;
    for i := 0 to |cs|
      invariant ApplyAll(loc.settings, cs[..i]) == Ok(settings)
    {
      ApplyAllStep(loc.settings, cs, i);
      var next := ApplyOne(settings, cs[i]);
      if next.Error? {
        ApplyErrorStays(loc.settings, cs, i + 1);
        return Error(next.message);
      }
      settings := next.value;
    }
    assert cs[..|cs|] == cs;
    var newObj := SerializeSettings(settings) + ";";
    r := Ok(Splice(content, loc.open, loc.end, newObj));
  }
}
