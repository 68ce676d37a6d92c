/**
 * The balanced-brace scan that the component reader (`extractChartSettings`) and
 * the patcher (`parseChartSettings`) both run to cut the settings object literal
 * out of the component source. Braces are counted with no awareness of strings
 * or comments.
 */
module BraceScan {

  function Delta(c: char): int
  {
    if c == '{' then 1 else if c == '}' then -1 else 0
  }

  /** Net nesting depth after reading `s`. */
  function Depth(s: string): int
  {
    if s == [] then 0 else Depth(s[..|s| - 1]) + Delta(s[|s| - 1])
  }

  lemma DepthStep(text: string, open: nat, p: nat)
    requires open <= p < |text|
    ensures Depth(text[open..p + 1]) == Depth(text[open..p]) + Delta(text[p])
  {
    assert text[open..p + 1][..p - open] == text[open..p];
  }

  /** The span from `open` is closed at `idx`: depth first returns to zero there, or never does and `idx` is the end. */
  predicate ClosesAt(text: string, open: nat, idx: nat)
    requires open < idx <= |text|
  {
    && (forall p :: open < p < idx ==> Depth(text[open..p]) > 0)
    && (Depth(text[open..idx]) == 0 || (idx == |text| && Depth(text[open..idx]) > 0))
  }

  lemma DepthNonNegative(text: string, open: nat, p: nat)
    requires open < p <= |text| && text[open] == '{'
    requires forall q :: open < q < p ==> Depth(text[open..q]) > 0
    ensures Depth(text[open..p]) >= 0
    ensures Depth(text[open..p]) == 0 ==> text[p - 1] == '}'
  {
    DepthStep(text, open, p - 1);
    if p == open + 1 {
      assert text[open..p - 1] == [];
    } else {
      assert Depth(text[open..p - 1]) > 0;
    }
  }

  function CloseFrom(text: string, open: nat, p: nat): (r: nat)
    requires open < p <= |text| && text[open] == '{'
    requires forall q :: open < q < p ==> Depth(text[open..q]) > 0
    ensures p <= r <= |text| && ClosesAt(text, open, r)
    decreases |text| - p
  {
    DepthNonNegative(text, open, p);
    if Depth(text[open..p]) == 0 || p == |text| then p else CloseFrom(text, open, p + 1)
  }

  /** One past the `}` at which the depth first returns to zero, or the end of the text. */
  function SpanClose(text: string, open: nat): (r: nat)
    requires open < |text| && text[open] == '{'
    ensures open < r <= |text| && ClosesAt(text, open, r)
    ensures Depth(text[open..r]) == 0 ==> text[r - 1] == '}'
  {
    var r := CloseFrom(text, open, open + 1);
    DepthNonNegative(text, open, r);
    r
  }

  lemma ClosesAtUnique(text: string, open: nat, a: nat, b: nat)
    requires open < a <= |text| && open < b <= |text|
    requires ClosesAt(text, open, a) && ClosesAt(text, open, b)
    ensures a == b
  {
  }

  /** The scanning loop: `idx` walks from `open`, tracking the depth, and stops one past the closing brace. */
  method ScanSpan(text: string, open: nat) returns (idx: nat)
    requires open < |text| && text[open] == '{'
    ensures idx == SpanClose(text, open)
  {
    idx := open;
    var depth := 0;
    while idx < |text|
      invariant open <= idx <= |text|
      invariant depth == Depth(text[open..idx])
      invariant forall p :: open < p <= idx ==> Depth(text[open..p]) > 0
    {
      var ch := text[idx];
      DepthStep(text, open, idx);
      if ch == '{' {
        depth := depth + 1;
      } else if ch == '}' {
        depth := depth - 1;
        if depth == 0 {
          idx := idx + 1;
          break;
        }
      }
      idx := idx + 1;
    }
    ClosesAtUnique(text, open, idx, SpanClose(text, open));
  }
}
