/**
 * The kebab-case identity used to match charts across the two representations
 * (`toKebab`, written identically in the dashboard reader and the change-request
 * generator).
 */
module Naming {
  import opened Text

  /** First pass, `/([a-z])([A-Z])/g -> "$1-$2"`: a hyphen at every lower-to-upper transition. */
  function Hyphenate(s: string): string
  {
    if |s| < 2 then s
    else if IsLower(s[0]) && IsUpper(s[1]) then [s[0], '-'] + Hyphenate(s[1..])
    else [s[0]] + Hyphenate(s[1..])
  }

  /** The class `[\s_]`. */
  predicate IsGap(c: char) { IsJsSpace(c) || c == '_' }

  predicate NoGaps(s: string)
  {
    forall i :: 0 <= i < |s| ==> !IsGap(s[i])
  }

  function DropGaps(s: string): (r: string)
    ensures |r| <= |s|
  {
    if s != [] && IsGap(s[0]) then DropGaps(s[1..]) else s
  }

  /** Second pass, `/[\s_]+/g -> "-"`: every maximal run of gap characters becomes one hyphen. */
  function CollapseGaps(s: string): (r: string)
    ensures NoGaps(r)
    decreases |s|
  {
    if s == [] then []
    else if IsGap(s[0]) then "-" + CollapseGaps(DropGaps(s[1..]))
    else [s[0]] + CollapseGaps(s[1..])
  }

  /** `toKebab`: hyphenate case transitions, collapse gap runs, lower-case. */
  function ToKebab(s: string): (r: string)
    ensures NoUpper(r)
    ensures NoGaps(r)
  {
    var c := CollapseGaps(Hyphenate(s));
    var r := Lower(c);
    assert forall i :: 0 <= i < |r| ==> !IsGap(r[i]) by {
      forall i | 0 <= i < |r| ensures !IsGap(r[i]) {
        assert !IsGap(c[i]);
      }
    }
    r
  }

  lemma {:induction false} HyphenateNoUpper(s: string)
    requires NoUpper(s)
    ensures Hyphenate(s) == s
  {
    if |s| >= 2 {
      HyphenateNoUpper(s[1..]);
      assert [s[0]] + s[1..] == s;
    }
  }

  lemma {:induction false} CollapseNoGaps(s: string)
    requires NoGaps(s)
    ensures CollapseGaps(s) == s
  {
    if s != [] {
      CollapseNoGaps(s[1..]);
      assert [s[0]] + s[1..] == s;
    }
  }

  lemma LowerNoUpper(s: string)
    requires NoUpper(s)
    ensures Lower(s) == s
  {
  }

  /** Normalising an already normalised id changes nothing. */
  lemma {:induction false} ToKebabIdempotent(s: string)
    ensures ToKebab(ToKebab(s)) == ToKebab(s)
  {
    var t := ToKebab(s);
    HyphenateNoUpper(t);
    CollapseNoGaps(t);
    LowerNoUpper(t);
  }

  predicate Transition(s: string, i: int)
    requires 0 <= i && i + 1 < |s|
  {
    IsLower(s[i]) && IsUpper(s[i + 1])
  }

  lemma {:induction false} HyphenatePlain(s: string)
    requires forall i :: 0 <= i && i + 1 < |s| ==> !Transition(s, i)
    ensures Hyphenate(s) == s
  {
    if |s| >= 2 {
      assert !Transition(s, 0);
      forall i | 0 <= i && i + 1 < |s[1..]| ensures !Transition(s[1..], i) {
        assert !Transition(s, i + 1);
      }
      HyphenatePlain(s[1..]);
      assert [s[0]] + s[1..] == s;
    }
  }

  /** Hyphenating a concatenation hyphenates the parts and the seam between them. */
  lemma {:induction false} HyphenateAppend(a: string, b: string)
    requires a != [] && b != []
    ensures Hyphenate(a + b)
         == Hyphenate(a) + (if IsLower(a[|a| - 1]) && IsUpper(b[0]) then "-" else "") + Hyphenate(b)
  {
    if |a| == 1 {
      assert (a + b)[1..] == b;
    } else {
      assert (a + b)[1..] == a[1..] + b;
      HyphenateAppend(a[1..], b);
    }
  }

  lemma {:induction false} HyphenateExample(a: string, b: string, c: string)
    requires a == "Climbs" && b == "By" && c == "Nation"
    ensures Hyphenate(a + b + c) == a + "-" + b + "-" + c
  {
    HyphenatePlain(a);
    HyphenatePlain(b);
    HyphenatePlain(c);
    HyphenateAppend(a, b);
    HyphenateAppend(a + b, c);
  }

  lemma LowerExample(h: string)
    requires h == "Climbs-By-Nation"
    ensures Lower(h) == "climbs-by-nation"
  {
  }

  lemma {:induction false} ToKebabExample(a: string, b: string, c: string)
    requires a == "Climbs" && b == "By" && c == "Nation"
    ensures ToKebab(a + b + c) == "climbs-by-nation"
  {
    var h := a + "-" + b + "-" + c;
    HyphenateExample(a, b, c);
    assert NoGaps(h);
    CollapseNoGaps(h);
    LowerExample(h);
  }

  /** "ClimbsByNation" and "climbs-by-nation" denote the same chart. */
  lemma {:induction false} SameChartKey(camel: string, kebab: string)
    requires camel == "ClimbsByNation" && kebab == "climbs-by-nation"
    ensures ToKebab(camel) == ToKebab(kebab)
  {
    ToKebabExample("Climbs", "By", "Nation");
    assert camel == "Climbs" + "By" + "Nation";
    ToKebabIdempotent(camel);
  }
}
