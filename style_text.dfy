/**
 * Style metadata written as text on a dashboard: the `key: value` lines of a
 * text widget or a subtitle, colour names, and the chart-type hint
 * (scripts/agents/dashboardReader.js).
 */
module StyleText {
  import opened Basics
  import opened Text
  import opened Json

  /**
   * Style metadata: keys in insertion order. A key written without a
   * separator is present with no value (JavaScript's `undefined`).
   */
  type Meta = seq<(string, Option<string>)>

  /** The value `meta[k]`, or None when the key is absent or has no value. */
  function MetaValue(meta: Meta, k: string): Option<string>
  {
    match Find(meta, k)
    case None => None
    case Some(v) => v
  }

  /** `meta[k]` is a non-empty string. */
  predicate MetaTruthy(meta: Meta, k: string)
  {
    MetaValue(meta, k).Some? && MetaValue(meta, k).value != []
  }

  // ---------------------------------------------------------------------
  // Colour names
  // ---------------------------------------------------------------------

  /** The colour table: a lower-case colour name and its hex code. */
  function ColorHex(name: string): Option<string>
  {
    if name == "red" then Some("#EF6B4D")
    else if name == "light blue" then Some("#97C1DA")
    else if name == "blue" then Some("#3C5B81")
    else if name == "green" then Some("#1BAA96")
    else if name == "teal" then Some("#E2F4F9")
    else if name == "grey" then Some("#98ACBD")
    else if name == "dark green" then Some("#175F68")
    else if name == "dark grey" then Some("#283140")
    else if name == "dark blue" then Some("#002060")
    else None
  }

  /** One comma-separated token: its hex code when it names a colour, otherwise the token trimmed. */
  function MapColorToken(t: string): string
  {
    var name := Lower(Trim(t));
    if ColorHex(name).Some? then ColorHex(name).value else Trim(t)
  }

  function MapColors(s: string): string
  {
    if s == [] then []
    else
      var parts := Split(s, ',');
      Join(seq(|parts|, i requires 0 <= i < |parts| => MapColorToken(parts[i])), ",")
  }

  lemma HexHasNoComma(name: string)
    requires ColorHex(name).Some?
    ensures ',' !in ColorHex(name).value
  {
  }

  lemma MapColorTokenNoComma(t: string)
    requires ',' !in t
    ensures ',' !in MapColorToken(t)
  {
    if ColorHex(Lower(Trim(t))).Some? {
      HexHasNoComma(Lower(Trim(t)));
    } else {
      TrimmedHasNo(t, ',');
    }
  }

  /**
   * Colour mapping keeps the comma-separated token list: token for token,
   * the output's i-th token is the input's i-th token mapped.
   */
  lemma {:induction false} MapColorsTokens(s: string)
    ensures |Split(MapColors(s), ',')| == |Split(s, ',')|
    ensures forall i :: 0 <= i < |Split(s, ',')| ==>
              Split(MapColors(s), ',')[i] == MapColorToken(Split(s, ',')[i])
  {
    var parts := Split(s, ',');
    if s == [] {
      assert parts == [[]];
      assert Trim([]) == [];
      assert MapColorToken([]) == [];
    } else {
      var mapped := seq(|parts|, i requires 0 <= i < |parts| => MapColorToken(parts[i]));
      SplitPiecesHaveNoSep(s, ',');
      forall i | 0 <= i < |mapped|
        ensures ',' !in mapped[i]
      {
        MapColorTokenNoComma(parts[i]);
      }
      SplitJoin(mapped, ',');
    }
  }

  // ---------------------------------------------------------------------
  // Chart type
  // ---------------------------------------------------------------------

  /** The canonical chart type for a type hint: box-and-whisker when the hint mentions "box", bar otherwise. */
  function NormalizeType(hint: Option<string>): (r: string)
    ensures r == "bar" || r == "box-and-whisker"
    ensures r == "box-and-whisker" <==> hint.Some? && Contains(Lower(hint.value), "box")
  {
    if hint.None? || hint.value == [] then "bar"
    else if Contains(Lower(hint.value), "box") then "box-and-whisker"
    else "bar"
  }

  // ---------------------------------------------------------------------
  // Style strings
  // ---------------------------------------------------------------------

  /** Length of the separator unit (`;`, `\n` or `\r\n`) at the start of `s`, 0 when there is none. */
  function SepLen(s: string): (n: nat)
    ensures n <= |s|
  {
    if s == [] then 0
    else if s[0] == ';' || s[0] == '\n' then 1
    else if |s| >= 2 && s[0] == '\r' && s[1] == '\n' then 2
    else 0
  }

  /** Length of the maximal run of separator units at the start of `s`. */
  function RunLen(s: string): (n: nat)
    ensures n <= |s|
    decreases |s|
  {
    var k := SepLen(s);
    if k == 0 then 0 else k + RunLen(s[k..])
  }

  /** Splitting on runs of separator units, the regular expression `(?:;|\r?\n)+`. */
  function SplitStyle(s: string): (r: seq<string>)
    ensures |r| >= 1
    decreases |s|
  {
    if s == [] then [[]]
    else
      var n := RunLen(s);
      if n > 0 then [[]] + SplitStyle(s[n..])
      else
        var rest := SplitStyle(s[1..]);
        [[s[0]] + rest[0]] + rest[1..]
  }

  /** No piece of a style string holds a semicolon or a line feed. */
  lemma {:induction false} SplitStyleClean(s: string)
    ensures forall i :: 0 <= i < |SplitStyle(s)| ==> ';' !in SplitStyle(s)[i] && '\n' !in SplitStyle(s)[i]
    decreases |s|
  {
    if s != [] {
      var n := RunLen(s);
      if n > 0 {
        SplitStyleClean(s[n..]);
      } else {
        SplitStyleClean(s[1..]);
        assert s[0] != ';' && s[0] != '\n';
      }
    }
  }

  /**
   * One piece `key: value` (or `key=value` when it has no colon), both
   * halves trimmed; only the text between the first and second separator
   * is the value, and a piece without a separator has no value.
   */
  function StylePair(piece: string): (string, Option<string>)
  {
    var sep := if ':' in piece then ':' else '=';
    var parts := Split(piece, sep);
    (Trim(parts[0]), if |parts| > 1 then Some(Trim(parts[1])) else None)
  }

  /** The assignment one piece makes: none for an empty key, otherwise the lower-cased key and its value. */
  function PieceEntry(piece: string): Option<(string, Option<string>)>
  {
    var (key, value) := StylePair(piece);
    if key == [] then None else Some((Lower(key), value))
  }

  /** The metadata the pieces assign, one after another. */
  function FoldPieces(pieces: seq<string>): Meta
  {
    if pieces == [] then []
    else
      var meta := FoldPieces(pieces[..|pieces| - 1]);
      match PieceEntry(pieces[|pieces| - 1])
      case None => meta
      case Some(e) => Put(meta, e.0, e.1)
  }

  /** The metadata of a style string; an absent or empty string has none. */
  function StyleOf(str: Option<string>): Meta
  {
    if str.None? || str.value == [] then [] else FoldPieces(SplitStyle(str.value))
  }

  /** What the last piece assigning `k` assigned, or None when no piece assigns `k`. */
  function LastAssigned(pieces: seq<string>, k: string): Option<Option<string>>
  {
    if pieces == [] then None
    else
      var e := PieceEntry(pieces[|pieces| - 1]);
      if e.Some? && e.value.0 == k then Some(e.value.1) else LastAssigned(pieces[..|pieces| - 1], k)
  }

  /** A repeated key keeps the value of its last occurrence. */
  lemma {:induction false} LastAssignmentWins(pieces: seq<string>, k: string)
    ensures Find(FoldPieces(pieces), k) == LastAssigned(pieces, k)
  {
    if pieces != [] {
      var init := pieces[..|pieces| - 1];
      LastAssignmentWins(init, k);
      var e := PieceEntry(pieces[|pieces| - 1]);
      if e.Some? && e.value.0 != k {
        PutOther(FoldPieces(init), e.value.0, e.value.1, k);
      }
    }
  }

  /** Every key of parsed metadata is non-empty and lower-case. */
  lemma {:induction false} FoldKeysNormalised(pieces: seq<string>)
    ensures forall k :: k in KeysOf(FoldPieces(pieces)) ==> k != [] && NoUpper(k)
  {
    if pieces != [] {
      var init := pieces[..|pieces| - 1];
      FoldKeysNormalised(init);
      var e := PieceEntry(pieces[|pieces| - 1]);
      if e.Some? {
        var key := StylePair(pieces[|pieces| - 1]).0;
        LowerHasNoUpper(key);
        assert e.value.0 == Lower(key) && |Lower(key)| == |key| > 0;
        assert FoldPieces(pieces) == Put(FoldPieces(init), e.value.0, e.value.1);
        PutNormalKey(FoldPieces(init), e.value.0, e.value.1);
      }
    }
  }

  /** Storing under a non-empty lower-case key keeps every key non-empty and lower-case. */
  lemma PutNormalKey(meta: Meta, key: string, value: Option<string>)
    requires forall k :: k in KeysOf(meta) ==> k != [] && NoUpper(k)
    requires key != [] && NoUpper(key)
    ensures forall k :: k in KeysOf(Put(meta, key, value)) ==> k != [] && NoUpper(k)
  {
    PutKeys(meta, key, value);
    if key !in KeysOf(meta) {
      forall k | k in KeysOf(meta) + [key]
        ensures k != [] && NoUpper(k)
      {
        if k != key {
          assert k in KeysOf(meta);
        }
      }
    }
  }

  /** With a colon, the key is what precedes the first colon and the value what lies between the first and second. */
  lemma ColonPiece(k: string, v: string, rest: string)
    requires ':' !in k && ':' !in v
    ensures StylePair(k + [':'] + v + [':'] + rest) == (Trim(k), Some(Trim(v)))
  {
    var piece := k + [':'] + v + [':'] + rest;
    assert piece[|k|] == ':';
    assert piece == k + [':'] + (v + [':'] + rest);
    SplitAfterPiece(k, ':', v + [':'] + rest);
    SplitAfterPiece(v, ':', rest);
    var parts := Split(piece, ':');
    assert parts == [k] + ([v] + Split(rest, ':'));
    assert parts[0] == k && parts[1] == v;
  }

  /** A single colon separates key from value. */
  lemma ColonOnly(k: string, v: string)
    requires ':' !in k && ':' !in v
    ensures StylePair(k + [':'] + v) == (Trim(k), Some(Trim(v)))
  {
    var piece := k + [':'] + v;
    assert piece[|k|] == ':';
    SplitAfterPiece(k, ':', v);
    SplitNoSep(v, ':');
    var parts := Split(piece, ':');
    assert parts == [k] + [v];
  }

  /** Without a colon, an equals sign separates key from value. */
  lemma EqualsPiece(k: string, v: string)
    requires ':' !in k && ':' !in v && '=' !in k && '=' !in v
    ensures StylePair(k + ['='] + v) == (Trim(k), Some(Trim(v)))
  {
    var piece := k + ['='] + v;
    assert ':' !in piece by {
      forall i | 0 <= i < |piece|
        ensures piece[i] != ':'
      {
        if i < |k| {
          assert piece[i] == k[i];
        } else if i > |k| {
          assert piece[i] == v[i - |k| - 1];
        }
      }
    }
    SplitAfterPiece(k, '=', v);
    SplitNoSep(v, '=');
    var parts := Split(piece, '=');
    assert parts == [k] + [v];
  }

  /** One turn of the loop: the next piece's assignment, if any, applied to the metadata so far. */
  lemma FoldStep(pieces: seq<string>, i: nat)
    requires i < |pieces|
    ensures var (key, value) := StylePair(pieces[i]);
            FoldPieces(pieces[..i + 1])
              == if key == [] then FoldPieces(pieces[..i]) else Put(FoldPieces(pieces[..i]), Lower(key), value)
  {
    assert pieces[..i + 1][..i] == pieces[..i];
  }

  /** `parseStyleString`: the metadata of a style string, assigned piece by piece. */
  method ParseStyleString(str: Option<string>) returns (meta: Meta)
    ensures meta == StyleOf(str)
    ensures forall k :: k in KeysOf(meta) ==> k != [] && NoUpper(k)
  {
    meta := [];
    if str.None? || str.value == [] {
      return;
    }
    var pieces := SplitStyle(str.value);
    var i := 0;
    while i < |pieces|
      invariant 0 <= i <= |pieces|
      invariant meta == FoldPieces(pieces[..i])
    {
      FoldStep(pieces, i);
      var (key, value) := StylePair(pieces[i]);
      if key != [] {
        meta := Put(meta, Lower(key), value);
      }
      i := i + 1;
    }
    assert pieces[..i] == pieces;
    FoldKeysNormalised(pieces);
  }

  /** The text of a text widget: its rich-text inserts, a missing insert contributing nothing. */
  function InsertText(inserts: seq<Option<string>>): string
  {
    if inserts == [] then []
    else (if inserts[0].Some? then inserts[0].value else []) + InsertText(inserts[1..])
  }

  /** `parseTextWidget`: None (JavaScript's null) when the widget has no rich-text array. */
  method ParseTextWidget(richText: Option<seq<Option<string>>>) returns (meta: Option<Meta>)
    ensures meta.None? <==> richText.None?
    ensures richText.Some? ==> meta == Some(StyleOf(Some(InsertText(richText.value))))
  {
    if richText.None? {
      return None;
    }
    var m := ParseStyleString(Some(InsertText(richText.value)));
    meta := Some(m);
  }
}
