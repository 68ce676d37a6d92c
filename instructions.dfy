/**
 * The instruction renderers: `buildInstructions` in
 * scripts/agents/changeRequestGenerator.js and `generateInstructions` in
 * scripts/changeRequestInterpreter.js. Both turn a change list into numbered
 * English steps; they differ only in how a title and a font are quoted and in
 * the wording of one error.
 */
module Instructions {
  import opened Basics
  import opened Text
  import opened Json
  import opened Model

  datatype Renderer = Builder | Interpreter

  /** `${formatValue(v)}`: a string in double quotes with nothing escaped, any other value as JSON, undefined as "undefined". */
  function FormatValue(v: Option<Value>): string
  {
    match v
    case None => "undefined"
    case Some(Str(s)) => "\"" + s + "\""
    case Some(x) => Stringify(x)
  }

  /** Characters JSON.stringify writes as themselves. */
  predicate PlainChar(c: char)
  {
    c != '"' && c != '\\' && (c as int) >= 0x20
  }

  lemma {:induction false} EscapePlain(s: string)
    requires forall i :: 0 <= i < |s| ==> PlainChar(s[i])
    ensures Escape(s) == s
  {
    if s != [] {
      EscapePlain(s[1..]);
      assert [s[0]] + s[1..] == s;
    }
  }

  /** On strings without quotes, backslashes or control characters, `formatValue` agrees with JSON. */
  lemma FormatPlainAsJson(s: string)
    requires forall i :: 0 <= i < |s| ==> PlainChar(s[i])
    ensures FormatValue(Some(Str(s))) == Stringify(Str(s))
  {
    EscapePlain(s);
  }

  /** A double quote inside a string is not escaped: the result differs from JSON. */
  lemma FormatDoesNotEscape(q: string)
    requires q == "\""
    ensures FormatValue(Some(Str(q))) == "\"\"\""
    ensures Stringify(Str(q)) == "\"\\\"\""
  {
    assert Escape(q) == EscapeChar('"') + Escape([]);
  }

  function QuotedTokens(tokens: seq<string>): (r: seq<string>)
    ensures |r| == |tokens|
  {
    seq(|tokens|, i requires 0 <= i < |tokens| => "'" + tokens[i] + "'")
  }

  /** `toColorArray`: each comma-separated token in single quotes, joined with ", ". */
  function ColorArray(value: string): string
  {
    Join(QuotedTokens(Split(value, ',')), ", ")
  }

  function Spaced(parts: seq<string>): (r: seq<string>)
    ensures |r| == |parts|
  {
    seq(|parts|, i requires 0 <= i < |parts| => " " + parts[i])
  }

  lemma {:induction false} JoinSpaced(parts: seq<string>)
    requires |parts| >= 1
    ensures Join(Spaced(parts), ",") == " " + Join(parts, ", ")
  {
    if |parts| > 1 {
      JoinSpaced(parts[1..]);
      assert Spaced(parts)[1..] == Spaced(parts[1..]);
    }
  }

  /** Joining with ", " is joining with "," after prefixing every part but the first with a space. */
  lemma {:induction false} JoinCommaSpace(parts: seq<string>)
    requires |parts| >= 1
    ensures Join(parts, ", ") == Join([parts[0]] + Spaced(parts[1..]), ",")
  {
    var q := [parts[0]] + Spaced(parts[1..]);
    if |parts| > 1 {
      var j := Join(parts[1..], ", ");
      JoinSpaced(parts[1..]);
      assert q[1..] == Spaced(parts[1..]);
      assert Join(q, ",") == parts[0] + "," + (" " + j);
      CommaSpace(parts[0], j);
    } else {
      assert q == [parts[0]];
    }
  }

  lemma CommaSpace(a: string, b: string)
    ensures a + "," + (" " + b) == a + ", " + b
  {
  }

  /** The colour list keeps the token count: it splits on commas into as many pieces as its input. */
  lemma ColorArrayTokenCount(value: string)
    ensures |Split(ColorArray(value), ',')| == |Split(value, ',')|
  {
    var tokens := Split(value, ',');
    var quoted := QuotedTokens(tokens);
    SplitPiecesHaveNoSep(value, ',');
    JoinCommaSpace(quoted);
    var pieces := [quoted[0]] + Spaced(quoted[1..]);
    forall i | 0 <= i < |pieces|
      ensures ',' !in pieces[i]
    {
      if i == 0 {
        assert pieces[0] == "'" + tokens[0] + "'";
      } else {
        assert pieces[i] == " " + ("'" + tokens[i] + "'");
      }
    }
    SplitJoin(pieces, ',');
  }

  // ---------------------------------------------------------------------------
  // Style mismatches

  /** `a === b` on values parsed from JSON: arrays and objects are never identical to one another. */
  predicate StrictEq(a: Option<Value>, b: Option<Value>)
  {
    a == b && (a.None? || !(a.value.Arr? || a.value.Obj?))
  }

  /** `v || {}`. */
  function OrEmpty(v: Option<Value>): Value
  {
    if TruthyOpt(v) then v.value else Obj([])
  }

  predicate ColorsWanted(cur: Value, exp: Value)
  {
    TruthyOpt(Member(exp, "seriesColors")) && !StrictEq(Member(exp, "seriesColors"), Member(cur, "seriesColors"))
  }

  predicate FontWanted(cur: Value, exp: Value)
  {
    var f := Member(exp, "font");
    TruthyOpt(f) && f != Some(Str("default")) && !StrictEq(f, Member(cur, "font"))
  }

  /** The expected effects are an array holding "shadow". */
  predicate ShadowExpected(exp: Value)
  {
    var e := Member(exp, "effects");
    e.Some? && e.value.Arr? && Str("shadow") in e.value.items
  }

  const IncludesError: string := "TypeError: cur.effects.includes is not a function"

  /** `v.includes(x)` on a truthy value: element search on arrays, substring search on strings. */
  function Includes(v: Value, x: string): Result<bool>
  {
    match v
    case Arr(items) => Ok(Str(x) in items)
    case Str(s) => Ok(Contains(s, x))
    case _ => Error(IncludesError)
  }

  /** The drop-shadow condition: expected effects hold "shadow" and the current ones are missing or lack it. */
  function ShadowWanted(cur: Value, exp: Value): Result<bool>
  {
    if !ShadowExpected(exp) then Ok(false)
    else
      var ce := Member(cur, "effects");
      if !TruthyOpt(ce) then Ok(true)
      else
        match Includes(ce.value, "shadow")
        case Error(e) => Error(e)
        case Ok(b) => Ok(!b)
  }

  // The fixed texts of the steps.
  const ColorsText: string := " ApexCharts option \"colors\" to ["
  const FontText: string := " option \"chart.fontFamily\" to "
  const ShadowHead: string := "enable drop shadow for "
  const ShadowTail: string := " by setting chart.dropShadow options."
  const TitleHead: string := " title using chart.updateOptions({ title: { text: "
  const TitleTail: string := " } });"
  const BuilderSplitError: string := "TypeError: exp.seriesColors.split is not a function"
  const InterpreterSplitError: string := "TypeError: value.split is not a function"
  const RemoveDivHead: string := "Remove the <div class='chart-"
  const RemoveDivTail: string := "'>...</div> block from dynamicCharts.html."
  const RemoveCallHead: string := "Remove the corresponding SAQL and render call for "
  const InJs: string := " in dynamicCharts.js."
  const AddMarkupHead: string := "Add markup for "
  const AddMarkupTail: string := " to dynamicCharts.html."
  const AddLogicHead: string := "Add initialization and rendering logic for "

  function Lead(c: Change): string
  {
    "In " + c.targetFile + ", "
  }

  function ColorsLine(c: Change, colors: string): string
  {
    Lead(c) + ColorsBody(c, colors)
  }

  function ColorsBody(c: Change, colors: string): string
  {
    "set " + c.chartId + ColorsText + ColorArray(colors) + "]."
  }

  function FontLine(r: Renderer, c: Change, font: Value): string
  {
    Lead(c) + FontBody(r, c, font)
  }

  function FontBody(r: Renderer, c: Change, font: Value): string
  {
    "set " + c.chartId + FontText
    + (if r.Builder? then "\"" + ToJsString(font) + "\"" else FormatValue(Some(font))) + "."
  }

  function ShadowLine(c: Change): string
  {
    Lead(c) + ShadowBody(c)
  }

  function ShadowBody(c: Change): string
  {
    ShadowHead + c.chartId + ShadowTail
  }

  function SplitError(r: Renderer): string
  {
    if r.Builder? then BuilderSplitError else InterpreterSplitError
  }

  /** The colours step: its line when wanted, a TypeError when the wanted colours are not a string. */
  function ColorsPart(r: Renderer, c: Change, cur: Value, exp: Value): Result<seq<string>>
  {
    var sc := Member(exp, "seriesColors");
    if !ColorsWanted(cur, exp) then Ok([])
    else if sc.value.Str? then Ok([ColorsLine(c, sc.value.s)])
    else Error(SplitError(r))
  }

  function FontPart(r: Renderer, c: Change, cur: Value, exp: Value): seq<string>
  {
    if FontWanted(cur, exp) then [FontLine(r, c, Member(exp, "font").value)] else []
  }

  /** The lines for a style mismatch: colours, font, drop shadow, each when its condition holds. */
  function StyleLines(r: Renderer, c: Change, m: Mismatch): (res: Result<seq<string>>)
    ensures var cur := OrEmpty(m.currentValue);
            var exp := OrEmpty(m.expectedValue);
            res.Ok? ==>
              |res.value| == (if ColorsWanted(cur, exp) then 1 else 0) + (if FontWanted(cur, exp) then 1 else 0)
                             + (if ShadowWanted(cur, exp) == Ok(true) then 1 else 0)
  {
    var cur := OrEmpty(m.currentValue);
    var exp := OrEmpty(m.expectedValue);
    match ColorsPart(r, c, cur, exp)
    case Error(e) => Error(e)
    case Ok(colors) =>
      match ShadowWanted(cur, exp)
      case Error(e) => Error(e)
      case Ok(w) => Ok(colors + FontPart(r, c, cur, exp) + (if w then [ShadowLine(c)] else []))
  }

  /**
   * A style mismatch throws exactly when the wanted colours are not a string or
   * the current effects have no `includes`; otherwise the colours line comes
   * first when wanted and the drop-shadow line is last exactly when wanted.
   */
  lemma StyleLinesShape(r: Renderer, c: Change, m: Mismatch)
    ensures var cur := OrEmpty(m.currentValue);
            var exp := OrEmpty(m.expectedValue);
            var res := StyleLines(r, c, m);
            && (res.Error? <==> (ColorsWanted(cur, exp) && !Member(exp, "seriesColors").value.Str?) || ShadowWanted(cur, exp).Error?)
            && (res.Ok? && ColorsWanted(cur, exp) ==> res.value[0] == ColorsLine(c, Member(exp, "seriesColors").value.s))
            && (res.Ok? ==> (ShadowWanted(cur, exp) == Ok(true) <==> res.value != [] && res.value[|res.value| - 1] == ShadowLine(c)))
  {
    var cur := OrEmpty(m.currentValue);
    var exp := OrEmpty(m.expectedValue);
    var res := StyleLines(r, c, m);
    if res.Ok? && ShadowWanted(cur, exp) == Ok(false) {
      var colors := ColorsPart(r, c, cur, exp).value;
      var font := FontPart(r, c, cur, exp);
      assert res.value == colors + font;
      if font != [] {
        DistinctLines(c, FontBody(r, c, Member(exp, "font").value));
      } else if colors != [] {
        DistinctLines(c, ColorsBody(c, Member(exp, "seriesColors").value.s));
      }
    }
  }

  /** A step starting "set" is never the drop-shadow line, whose step starts "enable". */
  lemma DistinctLines(c: Change, body: string)
    requires body != [] && body[0] == 's'
    ensures Lead(c) + body != ShadowLine(c)
  {
    var k := |Lead(c)|;
    assert (Lead(c) + body)[k] == body[0];
    assert ShadowHead[0] == 'e';
    assert ShadowLine(c)[k] == ShadowBody(c)[0] == 'e';
  }

  /** The font line never appears for an expected font of "default". */
  lemma NoDefaultFont(cur: Value, exp: Value)
    requires Member(exp, "font") == Some(Str("default"))
    ensures !FontWanted(cur, exp)
  {
  }

  // ---------------------------------------------------------------------------
  // Lines per change

  function TitleLine(r: Renderer, c: Change, expected: Option<Value>): string
  {
    Lead(c) + "update " + c.chartId + TitleHead
    + (if r.Builder? then "\"" + Template(expected) + "\"" else FormatValue(expected)) + TitleTail
  }

  function PropertyLine(c: Change, m: Mismatch): string
  {
    Lead(c) + "update " + c.chartId + " " + m.property + " from " + FormatValue(m.currentValue)
    + " to " + FormatValue(m.expectedValue) + "."
  }

  /** What one mismatch of an update contributes: one line, or up to three for a style mismatch. */
  function MismatchLines(r: Renderer, c: Change, m: Mismatch): (res: Result<seq<string>>)
    ensures res.Error? ==> m.property == "style"
    ensures res.Ok? && m.property == "style" ==> |res.value| <= 3
    ensures res.Ok? && m.property != "style" ==> |res.value| == 1
  {
    if m.property == "title" then Ok([TitleLine(r, c, m.expectedValue)])
    else if m.property == "style" then StyleLines(r, c, m)
    else Ok([PropertyLine(c, m)])
  }

  /** The mismatches of an update in order; the first one that throws ends the rendering. */
  function UpdateLines(r: Renderer, c: Change, ms: seq<Mismatch>): Result<seq<string>>
  {
    if ms == [] then Ok([])
    else
      match UpdateLines(r, c, ms[..|ms| - 1])
      case Error(e) => Error(e)
      case Ok(done) =>
        match MismatchLines(r, c, ms[|ms| - 1])
        case Error(e) => Error(e)
        case Ok(more) => Ok(done + more)
  }

  function RemoveLines(c: Change): seq<string>
  {
    [RemoveDivHead + c.chartId + RemoveDivTail, RemoveCallHead + c.chartId + InJs]
  }

  function AddLines(c: Change): seq<string>
  {
    [AddMarkupHead + c.chartId + AddMarkupTail, AddLogicHead + c.chartId + InJs]
  }

  /**
   * What one change contributes: an update with a mismatch array its mismatches'
   * lines, a remove or an add two lines, anything else nothing.
   */
  function ChangeLines(r: Renderer, c: Change): (res: Result<seq<string>>)
    ensures res.Error? ==> c.action == "update" && c.mismatches.List?
    ensures c.action == "add" || c.action == "remove" ==> res.Ok? && |res.value| == 2
    ensures c.action != "add" && c.action != "remove" && !(c.action == "update" && c.mismatches.List?) ==> res == Ok([])
  {
    if c.action == "update" && c.mismatches.List? then UpdateLines(r, c, c.mismatches.items)
    else if c.action == "remove" then Ok(RemoveLines(c))
    else if c.action == "add" then Ok(AddLines(c))
    else Ok([])
  }

  /** An update's line count: one per title or other mismatch, at most three per style mismatch. */
  lemma {:induction false} UpdateLineCount(r: Renderer, c: Change, ms: seq<Mismatch>)
    requires UpdateLines(r, c, ms).Ok?
    ensures |UpdateLines(r, c, ms).value| <= 3 * |ms|
    ensures (forall i :: 0 <= i < |ms| ==> ms[i].property != "style") ==> |UpdateLines(r, c, ms).value| == |ms|
  {
    if ms != [] {
      UpdateLineCount(r, c, ms[..|ms| - 1]);
    }
  }

  /** Every change in order; the first one that throws ends the rendering. */
  function AllLines(r: Renderer, cs: seq<Change>): Result<seq<string>>
  {
    if cs == [] then Ok([])
    else
      match AllLines(r, cs[..|cs| - 1])
      case Error(e) => Error(e)
      case Ok(done) =>
        match ChangeLines(r, cs[|cs| - 1])
        case Error(e) => Error(e)
        case Ok(more) => Ok(done + more)
  }

  /** `${step}. ${line}`. */
  function StepLine(step: nat, line: string): string
  {
    NatToString(step) + ". " + line
  }

  /** The lines with their steps, counted from `from`. */
  function Numbered(lines: seq<string>, from: nat): (r: seq<string>)
    ensures |r| == |lines|
  {
    if lines == [] then []
    else Numbered(lines[..|lines| - 1], from) + [StepLine(from + |lines| - 1, lines[|lines| - 1])]
  }

  /** Line i of the numbered text is line i of the input under step `from + i`. */
  lemma {:induction false} NumberedAt(lines: seq<string>, from: nat, i: nat)
    requires i < |lines|
    ensures Numbered(lines, from)[i] == StepLine(from + i, lines[i])
    decreases |lines|
  {
    if i < |lines| - 1 {
      NumberedAt(lines[..|lines| - 1], from, i);
    }
  }

  /** The text the renderer returns (and the interpreter writes): the numbered lines, each followed by a newline. */
  function Output(r: Renderer, cs: seq<Change>): Result<string>
  {
    match AllLines(r, cs)
    case Error(e) => Error(e)
    case Ok(lines) => Ok(Join(Numbered(lines, 1), "\n") + "\n")
  }

  /** No changes give a single newline. */
  lemma EmptyOutput(r: Renderer)
    ensures Output(r, []) == Ok("\n")
  {
    var none: seq<string> := [];
    assert AllLines(r, []) == Ok(none);
    assert Numbered(none, 1) == none;
    assert Join(none, "\n") == [];
    assert [] + "\n" == "\n";
  }

  /**
   * When at least one line is produced and no line holds a newline, the output
   * splits back into the numbered lines, steps 1, 2, 3 and so on, followed by
   * the empty piece after the final newline.
   */
  lemma OutputLines(r: Renderer, cs: seq<Change>)
    requires AllLines(r, cs).Ok? && AllLines(r, cs).value != []
    requires forall i :: 0 <= i < |AllLines(r, cs).value| ==> '\n' !in AllLines(r, cs).value[i]
    ensures Split(Output(r, cs).value, '\n') == Numbered(AllLines(r, cs).value, 1) + [""]
  {
    var lines := AllLines(r, cs).value;
    var n := Numbered(lines, 1);
    var parts := n + [""];
    JoinAppend(n, "\n", "");
    assert Output(r, cs).value == Join(parts, "\n");
    forall i | 0 <= i < |parts|
      ensures '\n' !in parts[i]
    {
      if i < |n| {
        NumberedAt(lines, 1, i);
        NumberedNoNewline(1 + i, lines[i]);
      }
    }
    SplitJoin(parts, '\n');
  }

  lemma NumberedNoNewline(k: nat, line: string)
    requires '\n' !in line
    ensures '\n' !in StepLine(k, line)
  {
    var d := NatToString(k);
    assert forall j :: 0 <= j < |d| ==> IsDigit(d[j]);
    assert forall j :: 0 <= j < |d + ". "| ==> (d + ". ")[j] != '\n';
  }

  // ---------------------------------------------------------------------------
  // The two renderers compared

  /** The builder and the interpreter quote a title and a font alike when these are strings. */
  predicate QuotedAlike(m: Mismatch)
  {
    && (m.property == "title" ==> m.expectedValue.Some? && m.expectedValue.value.Str?)
    && (m.property == "style" ==>
          var f := Member(OrEmpty(m.expectedValue), "font");
          f.None? || f.value.Str?)
  }

  predicate ChangesQuotedAlike(cs: seq<Change>)
  {
    forall i, j :: 0 <= i < |cs| && cs[i].mismatches.List? && 0 <= j < |cs[i].mismatches.items| ==>
      QuotedAlike(cs[i].mismatches.items[j])
  }

  /** Two renderings agree: both throw, or both give the same lines. */
  predicate Agree(a: Result<seq<string>>, b: Result<seq<string>>)
  {
    (a.Ok? <==> b.Ok?) && (a.Ok? ==> a == b)
  }

  lemma MismatchesAgree(c: Change, m: Mismatch)
    requires QuotedAlike(m)
    ensures Agree(MismatchLines(Builder, c, m), MismatchLines(Interpreter, c, m))
  {
    if m.property == "style" {
      var exp := OrEmpty(m.expectedValue);
      var f := Member(exp, "font");
      if f.Some? {
        assert FontBody(Builder, c, f.value) == FontBody(Interpreter, c, f.value);
      }
    }
  }

  lemma {:induction false} UpdatesAgree(c: Change, ms: seq<Mismatch>)
    requires forall j :: 0 <= j < |ms| ==> QuotedAlike(ms[j])
    ensures Agree(UpdateLines(Builder, c, ms), UpdateLines(Interpreter, c, ms))
  {
    if ms != [] {
      UpdatesAgree(c, ms[..|ms| - 1]);
      MismatchesAgree(c, ms[|ms| - 1]);
    }
  }

  lemma {:induction false} AllAgree(cs: seq<Change>)
    requires ChangesQuotedAlike(cs)
    ensures Agree(AllLines(Builder, cs), AllLines(Interpreter, cs))
  {
    if cs != [] {
      var c := cs[|cs| - 1];
      assert ChangesQuotedAlike(cs[..|cs| - 1]);
      AllAgree(cs[..|cs| - 1]);
      if c.action == "update" && c.mismatches.List? {
        UpdatesAgree(c, c.mismatches.items);
      }
    }
  }

  /**
   * The builder and the interpreter write the same instructions, apart from the
   * wording of a colours TypeError, whenever every title and font is a string.
   */
  lemma RenderersAgree(cs: seq<Change>)
    requires ChangesQuotedAlike(cs)
    ensures Output(Builder, cs).Ok? <==> Output(Interpreter, cs).Ok?
    ensures Output(Builder, cs).Ok? ==> Output(Builder, cs) == Output(Interpreter, cs)
  {
    AllAgree(cs);
  }

  /** They differ on a missing title: the builder quotes "undefined", the interpreter does not. */
  lemma RenderersDifferOnMissingTitle(c: Change)
    ensures TitleLine(Builder, c, None) != TitleLine(Interpreter, c, None)
  {
    var head := Lead(c) + "update " + c.chartId + TitleHead;
    assert TitleLine(Builder, c, None) == head + ("\"undefined\"" + TitleTail);
    assert TitleLine(Interpreter, c, None) == head + ("undefined" + TitleTail);
    assert (head + ("\"undefined\"" + TitleTail))[|head|] == '"';
    assert (head + ("undefined" + TitleTail))[|head|] == 'u';
  }

  // ---------------------------------------------------------------------------
  // The rendering loops

  /** `addLine` for each of `more`: push `${step}. ${line}` and advance the step. */
  method Push(lines: seq<string>, step: nat, more: seq<string>) returns (lines': seq<string>, step': nat)
    ensures lines' == lines + Numbered(more, step)
    ensures step' == step + |more|
  {
    lines', step' := lines, step;
    for i := 0 to |more|
      invariant lines' == lines + Numbered(more[..i], step)
      invariant step' == step + i
    {
      assert more[..i + 1][..i] == more[..i];
      lines' := lines' + [StepLine(step', more[i])];
      step' := step' + 1;
    }
    assert more[..|more|] == more;
  }

  lemma {:induction false} NumberedAppend(a: seq<string>, b: seq<string>, from: nat)
    ensures Numbered(a + b, from) == Numbered(a, from) + Numbered(b, from + |a|)
    decreases |b|
  {
    if b == [] {
      assert a + b == a;
    } else {
      var b' := b[..|b| - 1];
      NumberedAppend(a, b', from);
      assert (a + b)[..|a + b| - 1] == a + b';
    }
  }

  /** Pushing the next lines onto a numbered prefix numbers the longer body. */
  lemma PushNumbered(lines: seq<string>, done: seq<string>, more: seq<string>, from: nat)
    ensures (lines + Numbered(done, from)) + Numbered(more, from + |done|) == lines + Numbered(done + more, from)
  {
    NumberedAppend(done, more, from);
  }

  /** The lines so far followed by the next lines, or the error that stopped the rendering. */
  function Then(done: seq<string>, more: Result<seq<string>>): Result<seq<string>>
  {
    match more
    case Error(e) => Error(e)
    case Ok(m) => Ok(done + m)
  }

  lemma UpdateLinesStep(r: Renderer, c: Change, ms: seq<Mismatch>, j: nat, done: seq<string>)
    requires j < |ms| && UpdateLines(r, c, ms[..j]) == Ok(done)
    ensures UpdateLines(r, c, ms[..j + 1]) == Then(done, MismatchLines(r, c, ms[j]))
  {
    assert ms[..j + 1][..j] == ms[..j];
  }

  /** Pushing the lines so far and then the next ones is pushing both together. */
  lemma PushedThen(lines: seq<string>, step: nat, done: seq<string>, more: Result<seq<string>>)
    ensures Pushed(lines, step, Then(done, more)) == Pushed(lines + Numbered(done, step), step + |done|, more)
  {
    if more.Ok? {
      PushNumbered(lines, done, more.value, step);
    }
  }

  lemma {:induction false} UpdateErrorStays(r: Renderer, c: Change, ms: seq<Mismatch>, j: nat)
    requires j <= |ms| && UpdateLines(r, c, ms[..j]).Error?
    ensures UpdateLines(r, c, ms) == UpdateLines(r, c, ms[..j])
    decreases |ms| - j
  {
    if j < |ms| {
      assert ms[..j + 1][..j] == ms[..j];
      UpdateErrorStays(r, c, ms, j + 1);
    } else {
      assert ms[..j] == ms;
    }
  }

  lemma AllLinesStep(r: Renderer, cs: seq<Change>, i: nat, done: seq<string>)
    requires i < |cs| && AllLines(r, cs[..i]) == Ok(done)
    ensures ChangeLines(r, cs[i]).Error? ==> AllLines(r, cs[..i + 1]) == Error(ChangeLines(r, cs[i]).message)
    ensures ChangeLines(r, cs[i]).Ok? ==> AllLines(r, cs[..i + 1]) == Ok(done + ChangeLines(r, cs[i]).value)
  {
    assert cs[..i + 1][..i] == cs[..i];
  }

  lemma {:induction false} AllErrorStays(r: Renderer, cs: seq<Change>, i: nat)
    requires i <= |cs| && AllLines(r, cs[..i]).Error?
    ensures AllLines(r, cs) == AllLines(r, cs[..i])
    decreases |cs| - i
  {
    if i < |cs| {
      assert cs[..i + 1][..i] == cs[..i];
      AllErrorStays(r, cs, i + 1);
    } else {
      assert cs[..i] == cs;
    }
  }

  /** The state after pushing `more` (or the error that stopped the rendering). */
  function Pushed(lines: seq<string>, step: nat, more: Result<seq<string>>): Result<(seq<string>, nat)>
  {
    match more
    case Error(e) => Error(e)
    case Ok(m) => Ok((lines + Numbered(m, step), step + |m|))
  }

  /** One turn of the update loop: the next mismatch's lines pushed, or the error it throws. */
  method PushNext(r: Renderer, c: Change, ms: seq<Mismatch>, j: nat, ls: seq<string>, st: nat,
                  ghost lines: seq<string>, ghost step: nat)
    returns (res: Result<(seq<string>, nat)>)
    requires j < |ms| && UpdateLines(r, c, ms[..j]).Ok?
    requires ls == lines + Numbered(UpdateLines(r, c, ms[..j]).value, step)
    requires st == step + |UpdateLines(r, c, ms[..j]).value|
    ensures res == Pushed(lines, step, UpdateLines(r, c, ms[..j + 1]))
  {
    ghost var done := UpdateLines(r, c, ms[..j]).value;
    var more := MismatchLines(r, c, ms[j]);
    UpdateLinesStep(r, c, ms, j, done);
    PushedThen(lines, step, done, more);
    if more.Error? {
      return Error(more.message);
    }
    var ls', st' := Push(ls, st, more.value);
    PushedOk(ls, st, more, ls', st');
    res := Ok((ls', st'));
  }

  lemma PushedOk(lines: seq<string>, step: nat, more: Result<seq<string>>, lines': seq<string>, step': nat)
    requires more.Ok? && lines' == lines + Numbered(more.value, step) && step' == step + |more.value|
    ensures Pushed(lines, step, more) == Ok((lines', step'))
  {
  }

  /** The lines of one update: its mismatches in turn, each pushing its lines. */
  method RenderUpdate(r: Renderer, c: Change, lines: seq<string>, step: nat) returns (res: Result<(seq<string>, nat)>)
    requires c.mismatches.List?
    ensures res == Pushed(lines, step, UpdateLines(r, c, c.mismatches.items))
  {
    var ms := c.mismatches.items;
    var ls, st := lines, step;
    for j := 0 to |ms|
      invariant UpdateLines(r, c, ms[..j]).Ok?
      invariant ls == lines + Numbered(UpdateLines(r, c, ms[..j]).value, step)
      invariant st == step + |UpdateLines(r, c, ms[..j]).value|
    {
      var pushed := PushNext(r, c, ms, j, ls, st, lines, step);
      if pushed.Error? {
        UpdateErrorStays(r, c, ms, j + 1);
        return Error(pushed.message);
      }
      ls, st := pushed.value.0, pushed.value.1;
    }
    assert ms[..|ms|] == ms;
    res := Ok((ls, st));
  }

  /** One change of the list: an update's mismatches, a remove's or an add's two lines, or nothing. */
  method RenderChange(r: Renderer, c: Change, lines: seq<string>, step: nat) returns (res: Result<(seq<string>, nat)>)
    ensures res == Pushed(lines, step, ChangeLines(r, c))
  {
    if c.action == "update" && c.mismatches.List? {
      assert ChangeLines(r, c) == UpdateLines(r, c, c.mismatches.items);
      res := RenderUpdate(r, c, lines, step);
    } else if c.action == "remove" {
      var more := RemoveLines(c);
      assert ChangeLines(r, c).value == more;
      var ls, st := Push(lines, step, more);
      res := Ok((ls, st));
    } else if c.action == "add" {
      var more := AddLines(c);
      assert ChangeLines(r, c).value == more;
      var ls, st := Push(lines, step, more);
      res := Ok((ls, st));
    } else {
      var none: seq<string> := [];
      assert ChangeLines(r, c) == Ok(none);
      assert lines + Numbered(none, step) == lines;
      res := Ok((lines, step));
    }
  }

  /** `buildInstructions` / `generateInstructions`: every change in turn, then the lines joined with a final newline. */
  method Render(r: Renderer, changes: seq<Change>) returns (out: Result<string>)
    ensures out == Output(r, changes)
  {
    var lines: seq<string> := [];
    var step: nat := 1;
    ghost var body: seq<string> := [];
    for i := 0 to |changes|
      invariant AllLines(r, changes[..i]) == Ok(body)
      invariant lines == [] + Numbered(body, 1) && step == 1 + |body|
    {
      AllLinesStep(r, changes, i, body);
      var res := RenderChange(r, changes[i], lines, step);
      if res.Error? {
        AllErrorStays(r, changes, i + 1);
        return Error(res.message);
      }
      ghost var more := ChangeLines(r, changes[i]).value;
      lines, step := res.value.0, res.value.1;
      PushNumbered([], body, more, 1);
      body := body + more;
    }
    assert changes[..|changes|] == changes;
    assert lines == Numbered(body, 1);
    out := Ok(Join(lines, "\n") + "\n");
  }
}
