/**
 * A parser for the object literal that both the component reader and the patcher
 * cut out of the component source. The source hands that text to the JavaScript
 * engine (`new Function`, `vm.runInNewContext`); this model accepts the literal
 * subset the component uses: objects with bare-identifier or quoted keys, arrays,
 * strings, integers, true, false and null, with trailing commas tolerated.
 * Anything else is rejected, as an evaluation that throws.
 */
module Literal {
  import opened Basics
  import opened Text
  import opened Json

  function SkipWs(s: string): (r: string)
    ensures |r| <= |s| && r == s[|s| - |r|..]
    ensures r == [] || !IsJsSpace(r[0])
  {
    if s != [] && IsJsSpace(s[0]) then SkipWs(s[1..]) else s
  }

  /** The first character of a JavaScript identifier (ASCII subset). */
  predicate IsIdentStart(c: char) { IsAlpha(c) || c == '_' || c == '$' }

  predicate IsIdentChar(c: char) { IsWordChar(c) || c == '$' }

  /** Length of the longest prefix of identifier characters. */
  function IdentRun(s: string): (n: nat)
    ensures n <= |s|
    ensures forall i :: 0 <= i < n ==> IsIdentChar(s[i])
    ensures n == |s| || !IsIdentChar(s[n])
  {
    if s != [] && IsIdentChar(s[0]) then 1 + IdentRun(s[1..]) else 0
  }

  function HexValue(c: char): Option<nat>
  {
    if '0' <= c <= '9' then Some(c as int - '0' as int)
    else if 'a' <= c <= 'f' then Some(c as int - 'a' as int + 10)
    else if 'A' <= c <= 'F' then Some(c as int - 'A' as int + 10)
    else None
  }

  /** The character written by the escape sequence after a backslash, and how many characters it used. */
  function Unescape(s: string): Option<(char, nat)>
  {
    if s == [] then None
    else
      var c := s[0];
      if c == 'n' then Some(('\n', 1))
      else if c == 't' then Some(('\t', 1))
      else if c == 'r' then Some(('\r', 1))
      else if c == 'b' then Some(('\U{8}', 1))
      else if c == 'f' then Some(('\U{C}', 1))
      else if c == 'v' then Some(('\U{B}', 1))
      else if c == 'u' then
        if |s| < 5 then None
        else
          var h := [HexValue(s[1]), HexValue(s[2]), HexValue(s[3]), HexValue(s[4])];
          if h[0].None? || h[1].None? || h[2].None? || h[3].None? then None
          else
            var code := ((h[0].value * 16 + h[1].value) * 16 + h[2].value) * 16 + h[3].value;
            if 0xD800 <= code < 0xE000 then None else Some((code as char, 5))
      else if IsDigit(c) || c == 'x' || c == '\n' || c == '\r' || c == '\U{2028}' || c == '\U{2029}' then None
      else Some((c, 1))
  }

  /** The body of a string literal opened by `quote`, up to and including the closing quote. */
  function ParseStringBody(s: string, quote: char): (r: Option<(string, string)>)
    ensures r.Some? ==> |r.value.1| < |s|
  {
    if s == [] then None
    else if s[0] == quote then Some(([], s[1..]))
    else if s[0] == '\n' || s[0] == '\r' || s[0] == '\U{2028}' || s[0] == '\U{2029}' then None
    else if s[0] == '\\' then
      match Unescape(s[1..])
      case None => None
      case Some((c, n)) =>
        match ParseStringBody(s[1 + n..], quote)
        case None => None
        case Some((body, rest)) => Some(([c] + body, rest))
    else
      match ParseStringBody(s[1..], quote)
      case None => None
      case Some((body, rest)) => Some(([s[0]] + body, rest))
  }

  function DigitsValue(d: string): nat
    requires forall i :: 0 <= i < |d| ==> IsDigit(d[i])
  {
    if d == [] then 0
    else
      assert IsDigit(d[|d| - 1]);
      DigitsValue(d[..|d| - 1]) * 10 + (d[|d| - 1] as int - '0' as int)
  }

  function DigitRun(s: string): (n: nat)
    ensures n <= |s|
    ensures forall i :: 0 <= i < n ==> IsDigit(s[i])
    ensures n == |s| || !IsDigit(s[n])
  {
    if s != [] && IsDigit(s[0]) then 1 + DigitRun(s[1..]) else 0
  }

  /** A decimal integer literal, optionally negated; fractions and exponents are rejected. */
  function ParseInt(s: string): (r: Option<(int, string)>)
    ensures r.Some? ==> |r.value.1| < |s|
  {
    var neg := s != [] && s[0] == '-';
    var t := if neg then s[1..] else s;
    var n := DigitRun(t);
    if n == 0 || (n > 1 && t[0] == '0') then None
    else if n < |t| && (IsIdentChar(t[n]) || t[n] == '.') then None
    else
      var mag: int := DigitsValue(t[..n]);
      Some((if neg then -mag else mag, t[n..]))
  }

  predicate KeywordAt(s: string, word: string)
  {
    StartsWith(s, word) && (|s| == |word| || !IsIdentChar(s[|word|]))
  }

  /** One literal value after optional white space. */
  function ParseValue(s: string): (r: Option<(Value, string)>)
    ensures r.Some? ==> |r.value.1| < |s|
    decreases |s|, 1
  {
    var t := SkipWs(s);
    if t == [] then None
    else if t[0] == '{' then ParseMembers(t[1..], [])
    else if t[0] == '[' then ParseItems(t[1..], [])
    else if t[0] == '"' || t[0] == '\'' then
      match ParseStringBody(t[1..], t[0])
      case None => None
      case Some((body, rest)) => Some((Str(body), rest))
    else if t[0] == '-' || IsDigit(t[0]) then
      match ParseInt(t)
      case None => None
      case Some((n, rest)) => Some((Num(n), rest))
    else if KeywordAt(t, "true") then Some((Bool(true), t[4..]))
    else if KeywordAt(t, "false") then Some((Bool(false), t[5..]))
    else if KeywordAt(t, "null") then Some((Null, t[4..]))
    else None
  }

  /** A property name: a bare identifier or a quoted string. */
  function ParseKey(s: string): (r: Option<(string, string)>)
    ensures r.Some? ==> |r.value.1| < |s|
  {
    if s == [] then None
    else if IsIdentStart(s[0]) then
      var n := IdentRun(s);
      Some((s[..n], s[n..]))
    else if s[0] == '"' || s[0] == '\'' then ParseStringBody(s[1..], s[0])
    else None
  }

  /**
   * The members of an object literal after its `{`, accumulated in `acc`; a repeated
   * key overwrites the earlier value in the earlier position, as evaluation does.
   */
  function ParseMembers(s: string, acc: seq<Field>): (r: Option<(Value, string)>)
    ensures r.Some? ==> |r.value.1| < |s| && r.value.0.Obj?
    decreases |s|, 0
  {
    var t := SkipWs(s);
    if t == [] then None
    else if t[0] == '}' then Some((Obj(acc), t[1..]))
    else
      match ParseKey(t)
      case None => None
      case Some((key, afterKey)) =>
        var u := SkipWs(afterKey);
        if u == [] || u[0] != ':' then None
        else
          match ParseValue(u[1..])
          case None => None
          case Some((v, afterValue)) =>
            var w := SkipWs(afterValue);
            var acc' := Put(acc, key, v);
            if w != [] && w[0] == ',' then ParseMembers(w[1..], acc')
            else if w != [] && w[0] == '}' then Some((Obj(acc'), w[1..]))
            else None
  }

  /** The elements of an array literal after its `[`. */
  function ParseItems(s: string, acc: seq<Value>): (r: Option<(Value, string)>)
    ensures r.Some? ==> |r.value.1| < |s|
    decreases |s|, 2
  {
    var t := SkipWs(s);
    if t == [] then None
    else if t[0] == ']' then Some((Arr(acc), t[1..]))
    else
      match ParseValue(t)
      case None => None
      case Some((v, afterValue)) =>
        var w := SkipWs(afterValue);
        if w != [] && w[0] == ',' then ParseItems(w[1..], acc + [v])
        else if w != [] && w[0] == ']' then Some((Arr(acc + [v]), w[1..]))
        else None
  }

  /**
   * Evaluation of the span `(` + text + `)`: the whole text must be one object
   * literal, with nothing but white space after it.
   */
  function ParseObjectLiteral(text: string): (r: Option<seq<Field>>)
  {
    var t := SkipWs(text);
    if t == [] || t[0] != '{' then None
    else
      match ParseMembers(t[1..], [])
      case Some((Obj(fields), rest)) => if SkipWs(rest) == [] then Some(fields) else None
      case _ => None
  }
}
