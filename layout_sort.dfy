/**
 * The reading order of a dashboard's grid: the layout sorted by row, then
 * column, with a stable sort, as `Array.prototype.sort` is
 * (scripts/agents/dashboardReader.js).
 */
module LayoutSort {

  /** A widget's slot in the grid layout. */
  datatype LayoutEntry = LayoutEntry(name: string, row: int, column: int)

  /** The comparator `a.row - b.row || a.column - b.column` is negative. */
  predicate Before(a: LayoutEntry, b: LayoutEntry)
  {
    a.row < b.row || (a.row == b.row && a.column < b.column)
  }

  predicate SameSlot(a: LayoutEntry, b: LayoutEntry)
  {
    a.row == b.row && a.column == b.column
  }

  predicate Sorted(s: seq<LayoutEntry>)
  {
    forall i, j :: 0 <= i < j < |s| ==> !Before(s[j], s[i])
  }

  /** Inserts `x` after every entry that does not come after it. */
  function Insert(x: LayoutEntry, t: seq<LayoutEntry>): seq<LayoutEntry>
  {
    if t == [] then [x]
    else if Before(x, t[0]) then [x] + t
    else [t[0]] + Insert(x, t[1..])
  }

  /** The stable sort by (row, column): each entry is inserted behind the earlier ones of its slot. */
  function SortLayout(s: seq<LayoutEntry>): seq<LayoutEntry>
  {
    if s == [] then [] else Insert(s[|s| - 1], SortLayout(s[..|s| - 1]))
  }

  /** The entries of one grid slot, in order. */
  function InSlot(s: seq<LayoutEntry>, row: int, column: int): seq<LayoutEntry>
  {
    if s == [] then [] else Keep(s[0], row, column) + InSlot(s[1..], row, column)
  }

  function Keep(e: LayoutEntry, row: int, column: int): seq<LayoutEntry>
  {
    if e.row == row && e.column == column then [e] else []
  }

  lemma {:induction false} InsertSorted(x: LayoutEntry, t: seq<LayoutEntry>)
    requires Sorted(t)
    ensures Sorted(Insert(x, t))
    ensures multiset(Insert(x, t)) == multiset(t) + multiset{x}
    ensures |Insert(x, t)| == |t| + 1
  {
    InsertPerm(x, t);
    if t == [] {
    } else if Before(x, t[0]) {
      forall y | y in t
        ensures !Before(y, x)
      {
        var k :| 0 <= k < |t| && t[k] == y;
        assert k == 0 || !Before(t[k], t[0]);
      }
      SortedCons(x, t);
    } else {
      InsertSorted(x, t[1..]);
      NotBeforeHead(x, t, Insert(x, t[1..]));
      SortedCons(t[0], Insert(x, t[1..]));
    }
  }

  lemma {:induction false} InsertPerm(x: LayoutEntry, t: seq<LayoutEntry>)
    ensures multiset(Insert(x, t)) == multiset(t) + multiset{x}
    ensures |Insert(x, t)| == |t| + 1
  {
    if t != [] && !Before(x, t[0]) {
      InsertPerm(x, t[1..]);
      assert t == [t[0]] + t[1..];
    }
  }

  /** No entry of a sorted tail with `x` inserted comes before the head. */
  lemma NotBeforeHead(x: LayoutEntry, t: seq<LayoutEntry>, rest: seq<LayoutEntry>)
    requires Sorted(t) && t != [] && !Before(x, t[0])
    requires multiset(rest) == multiset(t[1..]) + multiset{x}
    ensures forall y :: y in rest ==> !Before(y, t[0])
  {
    forall y | y in rest
      ensures !Before(y, t[0])
    {
      assert y in multiset(rest);
      if y != x {
        assert y in multiset(t[1..]);
        var k :| 0 <= k < |t[1..]| && t[1..][k] == y;
        assert t[k + 1] == y;
      }
    }
  }

  lemma SortedCons(h: LayoutEntry, rest: seq<LayoutEntry>)
    requires Sorted(rest)
    requires forall y :: y in rest ==> !Before(y, h)
    ensures Sorted([h] + rest)
  {
    var r := [h] + rest;
    forall i, j | 0 <= i < j < |r|
      ensures !Before(r[j], r[i])
    {
      assert r[j] == rest[j - 1];
      if i > 0 {
        assert r[i] == rest[i - 1];
      } else {
        assert rest[j - 1] in rest;
      }
    }
  }

  /** The sorted layout is ordered by (row, column) and holds the same entries. */
  lemma {:induction false} SortLayoutCorrect(s: seq<LayoutEntry>)
    ensures Sorted(SortLayout(s))
    ensures multiset(SortLayout(s)) == multiset(s)
  {
    if s != [] {
      var init := s[..|s| - 1];
      SortLayoutCorrect(init);
      InsertSorted(s[|s| - 1], SortLayout(init));
      assert s == init + [s[|s| - 1]];
    }
  }

  lemma {:induction false} InSlotAppend(a: seq<LayoutEntry>, b: seq<LayoutEntry>, row: int, column: int)
    ensures InSlot(a + b, row, column) == InSlot(a, row, column) + InSlot(b, row, column)
  {
    if a == [] {
      assert a + b == b;
    } else {
      InSlotAppend(a[1..], b, row, column);
      assert (a + b)[1..] == a[1..] + b;
      calc {
        InSlot(a + b, row, column);
        Keep(a[0], row, column) + InSlot(a[1..] + b, row, column);
        Keep(a[0], row, column) + (InSlot(a[1..], row, column) + InSlot(b, row, column));
      }
    }
  }

  lemma {:induction false} NoneInSlotAfter(x: LayoutEntry, t: seq<LayoutEntry>)
    requires Sorted(t) && t != [] && Before(x, t[0])
    ensures InSlot(t, x.row, x.column) == []
  {
    if |t| > 1 {
      assert !Before(t[1], t[0]);
      NoneInSlotAfter(x, t[1..]);
    }
  }

  lemma {:induction false} InsertInSlot(x: LayoutEntry, t: seq<LayoutEntry>, row: int, column: int)
    requires Sorted(t)
    ensures InSlot(Insert(x, t), row, column) ==
              InSlot(t, row, column) + Keep(x, row, column)
  {
    if t == [] {
    } else if Before(x, t[0]) {
      if x.row == row && x.column == column {
        NoneInSlotAfter(x, t);
      }
      InSlotAppend([x], t, row, column);
    } else {
      InsertInSlot(x, t[1..], row, column);
    }
  }

  /** Stability: entries sharing a grid slot keep their relative order. */
  lemma {:induction false} SortLayoutStable(s: seq<LayoutEntry>, row: int, column: int)
    ensures InSlot(SortLayout(s), row, column) == InSlot(s, row, column)
  {
    if s != [] {
      var init := s[..|s| - 1];
      var x := s[|s| - 1];
      calc {
        InSlot(SortLayout(s), row, column);
        InSlot(Insert(x, SortLayout(init)), row, column);
        { SortLayoutCorrect(init); InsertInSlot(x, SortLayout(init), row, column); }
        InSlot(SortLayout(init), row, column) + Keep(x, row, column);
        { SortLayoutStable(init, row, column); assert [x][1..] == []; }
        InSlot(init, row, column) + InSlot([x], row, column);
        { InSlotAppend(init, [x], row, column); }
        InSlot(init + [x], row, column);
        { assert s == init + [x]; }
        InSlot(s, row, column);
      }
    }
  }
}
