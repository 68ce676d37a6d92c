/**
 * The markup half of the source patcher (`updateHtml` in syncCharts.js): the
 * component's HTML is cut into lines, the navigation list and the chart
 * layout are found by substring search, and each change for the component
 * either filters out the chart's lines or splices a navigation entry and a
 * chart block in at two remembered offsets.
 */
module MarkupPatcher {
  import opened Text
  import opened Model
  import Patcher

  const NavOpen: string := "<ul"
  const NavClass: string := "slds-list_dotted"
  const NavClose: string := "</ul>"
  const LayoutClose: string := "</lightning-layout-item>"

  // ---------------------------------------------------------------------------
  // Lines

  /** The `\r` that `split(/\r?\n/)` swallows in front of a line break. */
  function DropCr(piece: string): string
  {
    if piece != [] && piece[|piece| - 1] == '\r' then piece[..|piece| - 1] else piece
  }

  /** `text.split(/\r?\n/)`: pieces between `\n`, each but the last losing one trailing `\r`. */
  function SplitLines(text: string): (r: seq<string>)
    ensures |r| == |Split(text, '\n')|
  {
    var pieces := Split(text, '\n');
    seq(|pieces|, i requires 0 <= i < |pieces| => if i < |pieces| - 1 then DropCr(pieces[i]) else pieces[i])
  }

  /** Without carriage returns, splitting into lines and joining with `\n` gives the text back. */
  lemma SplitLinesJoin(text: string)
    requires '\r' !in text
    ensures Join(SplitLines(text), "\n") == text
  {
    var pieces := Split(text, '\n');
    SplitPiecesFrom(text, '\n');
    forall i | 0 <= i < |pieces|
      ensures SplitLines(text)[i] == pieces[i]
    {
      if pieces[i] != [] {
        assert pieces[i][|pieces[i]| - 1] in pieces[i];
      }
    }
    assert SplitLines(text) == pieces;
    JoinSplit(text, '\n');
  }

  // ---------------------------------------------------------------------------
  // The two anchors

  predicate IsNavList(line: string)
  {
    Contains(line, NavOpen) && Contains(line, NavClass)
  }

  /** `findIndex` for the dotted navigation list, from `from` on. */
  function FindNavStart(lines: seq<string>, from: nat): (r: int)
    ensures r == -1 || (from <= r < |lines| && IsNavList(lines[r]))
    ensures forall i :: from <= i < |lines| && (r == -1 || i < r) ==> !IsNavList(lines[i])
    decreases |lines| - from
  {
    if from >= |lines| then -1
    else if IsNavList(lines[from]) then from
    else FindNavStart(lines, from + 1)
  }

  /** `findIndex` for the first line at or after `from` that closes a list. */
  function FindNavEnd(lines: seq<string>, from: nat): (r: int)
    ensures r == -1 || (from <= r < |lines| && Contains(lines[r], NavClose))
    ensures forall i :: from <= i < |lines| && (r == -1 || i < r) ==> !Contains(lines[i], NavClose)
    decreases |lines| - from
  {
    if from >= |lines| then -1
    else if Contains(lines[from], NavClose) then from
    else FindNavEnd(lines, from + 1)
  }

  /** `lastIndexOf`: the last line equal to `x`, or -1. */
  function LastIndexOf(lines: seq<string>, x: string): (r: int)
    ensures r == -1 || (0 <= r < |lines| && lines[r] == x)
    ensures forall i :: r < i < |lines| ==> lines[i] != x
  {
    if lines == [] then -1
    else if lines[|lines| - 1] == x then |lines| - 1
    else LastIndexOf(lines[..|lines| - 1], x)
  }

  /** The lines with the two offsets the splices use. */
  datatype Page = Page(lines: seq<string>, navEnd: int, layoutEnd: int)

  /** The offsets as `updateHtml` computes them before the first change. */
  function OpenLines(lines: seq<string>): Page
  {
    var start := FindNavStart(lines, 0);
    Page(lines, FindNavEnd(lines, start + 1), LastIndexOf(lines, LayoutClose))
  }

  /** Both offsets index their anchor line: a list close and an exact layout-item close. */
  predicate Anchored(pg: Page)
  {
    && 0 <= pg.navEnd < |pg.lines| && Contains(pg.lines[pg.navEnd], NavClose)
    && 0 <= pg.layoutEnd < |pg.lines| && pg.lines[pg.layoutEnd] == LayoutClose
    && pg.navEnd != pg.layoutEnd
  }

  // ---------------------------------------------------------------------------
  // Splicing

  /** The position `Array.prototype.splice` starts at: negative counts from the end, both ends clamp. */
  function SpliceAt(at: int, len: nat): (k: nat)
    ensures k <= len
    ensures 0 <= at <= len ==> k == at
    ensures at < 0 ==> k == (if len + at < 0 then 0 else len + at)
  {
    if at < 0 then (if len + at < 0 then 0 else len + at)
    else if at > len then len
    else at
  }

  /** `lines.splice(at, 0, ...more)`. */
  function Insert(lines: seq<string>, at: int, more: seq<string>): (r: seq<string>)
    ensures |r| == |lines| + |more|
  {
    var k := SpliceAt(at, |lines|);
    lines[..k] + more + lines[k..]
  }

  /** The inserted lines stand at the splice point, the rest keep their order around them. */
  lemma InsertSplices(lines: seq<string>, at: int, more: seq<string>)
    ensures var r, k := Insert(lines, at, more), SpliceAt(at, |lines|);
            && r[..k] == lines[..k]
            && r[k..k + |more|] == more
            && r[k + |more|..] == lines[k..]
  {
    var k := SpliceAt(at, |lines|);
    var r := lines[..k] + more + lines[k..];
    assert r[..k] == lines[..k];
    assert r[k..k + |more|] == more;
    assert r[k + |more|..] == lines[k..];
  }

  /** A run of lines wholly before the splice point is not moved. */
  lemma InsertKeepsRun(lines: seq<string>, at: nat, more: seq<string>, i: nat, j: nat)
    requires i <= j <= at <= |lines|
    ensures Insert(lines, at, more)[i..j] == lines[i..j]
  {
    var r := Insert(lines, at, more);
    InsertSplices(lines, at, more);
    assert r[i..j] == r[..at][i..j];
    assert lines[i..j] == lines[..at][i..j];
  }

  /** A run of lines wholly after the splice point moves down by the inserted count. */
  lemma InsertShiftsRun(lines: seq<string>, at: nat, more: seq<string>, i: nat, j: nat)
    requires at <= i <= j <= |lines|
    ensures Insert(lines, at, more)[i + |more|..j + |more|] == lines[i..j]
  {
    var r := Insert(lines, at, more);
    InsertSplices(lines, at, more);
    assert r[i + |more|..j + |more|] == r[at + |more|..][i - at..j - at];
    assert lines[i..j] == lines[at..][i - at..j - at];
  }

  lemma InsertBefore(lines: seq<string>, at: nat, more: seq<string>, i: nat)
    requires i < at <= |lines|
    ensures Insert(lines, at, more)[i] == lines[i]
  {
    InsertKeepsRun(lines, at, more, i, i + 1);
    assert Insert(lines, at, more)[i..i + 1][0] == Insert(lines, at, more)[i];
    assert lines[i..i + 1][0] == lines[i];
  }

  lemma InsertAfter(lines: seq<string>, at: nat, more: seq<string>, i: nat)
    requires at <= i < |lines|
    ensures Insert(lines, at, more)[i + |more|] == lines[i]
  {
    InsertShiftsRun(lines, at, more, i, i + 1);
    assert Insert(lines, at, more)[i + |more|..i + 1 + |more|][0] == Insert(lines, at, more)[i + |more|];
    assert lines[i..i + 1][0] == lines[i];
  }

  // ---------------------------------------------------------------------------
  // Inserted markup

  const NavItemOpen: string := "        <li>"
  const NavLinkHead: string := "          <a href=\"javascript:void(0);\" data-id=\""
  const NavLinkMid: string := "\" onclick={handleNavClick}>"
  const NavLinkTail: string := "</a>"
  const NavItemClose: string := "        </li>"

  const PageHead: string := "      <div data-page=\""
  const PageTail: string := "\">"
  const CardOpen: string := "        <lightning-card title=\"Chart Series\" icon-name=\"custom:custom1\">"
  const GridOpen: string := "          <lightning-layout>"
  const CellOpen: string := "            <lightning-layout-item size=\"6\">"
  const ChartHead: string := "              <div class=\""
  const ChartTail: string := " slds-var-m-around_medium\" lwc:dom=\"manual\"></div>"
  const AoTail: string := "AO slds-var-m-around_medium\" lwc:dom=\"manual\"></div>"
  const CellClose: string := "            </lightning-layout-item>"
  const GridClose: string := "          </lightning-layout>"
  const CardClose: string := "        </lightning-card>"
  const PageClose: string := "      </div>"

  function NavLink(pascal: string): string
  {
    NavLinkHead + pascal + NavLinkMid + pascal + NavLinkTail
  }

  /** The navigation entry for a chart: a list item around its link. */
  function NavLines(pascal: string): (r: seq<string>)
    ensures |r| == 3 && r[0] == NavItemOpen && r[1] == NavLink(pascal) && r[2] == NavItemClose
  {
    [NavItemOpen, NavLink(pascal), NavItemClose]
  }

  /** The chart page: a card holding the chart container and its `AO` companion. */
  function BlockLines(pascal: string): (r: seq<string>)
    ensures |r| == 12
    ensures r[4] == ChartHead + pascal + ChartTail && r[7] == ChartHead + pascal + AoTail
  {
    [ PageHead + pascal + PageTail, CardOpen, GridOpen,
      CellOpen, ChartHead + pascal + ChartTail, CellClose,
      CellOpen, ChartHead + pascal + AoTail, CellClose,
      GridClose, CardClose, PageClose ]
  }

  // ---------------------------------------------------------------------------
  // Removal

  /** A line that a remove of `id` filters out. */
  predicate Drops(line: string, id: string)
  {
    || Contains(line, "class=\"" + id + " ")
    || Contains(line, "class=\"" + id + "AO")
    || Contains(line, "data-id=\"" + id)
  }

  /** `lines.filter(...)`: the lines that survive a remove of `id`. */
  function Keep(lines: seq<string>, id: string): (r: seq<string>)
    ensures |r| <= |lines|
    ensures forall l :: l in r ==> l in lines && !Drops(l, id)
  {
    if lines == [] then []
    else
      var last := lines[|lines| - 1];
      Keep(lines[..|lines| - 1], id) + (if Drops(last, id) then [] else [last])
  }

  /** Every line that does not match the chart survives the remove. */
  lemma {:induction false} KeepComplete(lines: seq<string>, id: string, l: string)
    requires l in lines && !Drops(l, id)
    ensures l in Keep(lines, id)
  {
    var init := lines[..|lines| - 1];
    if l != lines[|lines| - 1] {
      assert lines == init + [lines[|lines| - 1]];
      KeepComplete(init, id, l);
    }
  }

  /** Filtering respects concatenation, so the kept lines stay in their original order. */
  lemma {:induction false} KeepAppend(a: seq<string>, b: seq<string>, id: string)
    ensures Keep(a + b, id) == Keep(a, id) + Keep(b, id)
  {
    if b != [] {
      var init := b[..|b| - 1];
      KeepAppend(a, init, id);
      assert (a + b)[..|a + b| - 1] == a + init;
    } else {
      assert a + b == a;
    }
  }

  /** Lines none of which match the chart are all kept. */
  lemma {:induction false} KeepNothingDropped(lines: seq<string>, id: string)
    requires forall i :: 0 <= i < |lines| ==> !Drops(lines[i], id)
    ensures Keep(lines, id) == lines
  {
    if lines != [] {
      var init := lines[..|lines| - 1];
      KeepNothingDropped(init, id);
      assert init + [lines[|lines| - 1]] == lines;
    }
  }

  // ---------------------------------------------------------------------------
  // Changes

  /** Two splices as written: `nav` at `navEnd`, then `block` at the unadjusted `layoutEnd`; each offset advances by its own insertion. */
  function Spliced(pg: Page, nav: seq<string>, block: seq<string>): (r: Page)
    ensures |r.lines| == |pg.lines| + |nav| + |block|
  {
    var lines := Insert(pg.lines, pg.navEnd, nav);
    Page(Insert(lines, pg.layoutEnd, block), pg.navEnd + |nav|, pg.layoutEnd + |block|)
  }

  /** An add: the chart's nav entry and its page block. */
  function AddChart(pg: Page, pascal: string): (r: Page)
    ensures |r.lines| == |pg.lines| + 15
  {
    Spliced(pg, NavLines(pascal), BlockLines(pascal))
  }

  function RemoveChart(pg: Page, id: string): (r: Page)
    ensures |r.lines| <= |pg.lines|
  {
    Page(Keep(pg.lines, id), pg.navEnd, pg.layoutEnd)
  }

  /** One change: other target files and other actions are ignored. */
  function HtmlChange(pg: Page, c: Change): Page
  {
    if c.targetFile != TargetFile then pg
    else if c.action == "remove" then RemoveChart(pg, c.chartId)
    else if c.action == "add" then AddChart(pg, Patcher.ToPascal(c.chartId))
    else pg
  }

  function HtmlAll(pg: Page, cs: seq<Change>): Page
  {
    if cs == [] then pg else HtmlChange(HtmlAll(pg, cs[..|cs| - 1]), cs[|cs| - 1])
  }

  /** What `updateHtml` writes. */
  function UpdateHtmlSpec(text: string, cs: seq<Change>): string
  {
    Join(HtmlAll(OpenLines(SplitLines(text)), cs).lines, "\n")
  }

  function TargetedAdds(cs: seq<Change>): nat
  {
    if cs == [] then 0
    else
      var c := cs[|cs| - 1];
      TargetedAdds(cs[..|cs| - 1]) + (if c.targetFile == TargetFile && c.action == "add" then 1 else 0)
  }

  predicate Targeted(c: Change, action: string)
  {
    c.targetFile == TargetFile && c.action == action
  }

  /** The size effect of one change: an add grows the file by 15 lines, a remove never grows it, anything else leaves the page alone. */
  lemma ChangeSize(pg: Page, c: Change)
    ensures Targeted(c, "add") ==> |HtmlChange(pg, c).lines| == |pg.lines| + 15
    ensures Targeted(c, "remove") ==> |HtmlChange(pg, c).lines| <= |pg.lines|
    ensures !Targeted(c, "add") && !Targeted(c, "remove") ==> HtmlChange(pg, c) == pg
  {
  }

  /** Each add grows the file by 15 lines and a remove never grows it; without removes the growth is exact. */
  lemma {:induction false} LineCount(pg: Page, cs: seq<Change>)
    ensures |HtmlAll(pg, cs).lines| <= |pg.lines| + 15 * TargetedAdds(cs)
    ensures (forall c :: c in cs ==> !Targeted(c, "remove")) ==>
              |HtmlAll(pg, cs).lines| == |pg.lines| + 15 * TargetedAdds(cs)
  {
    if cs != [] {
      var init, last := cs[..|cs| - 1], cs[|cs| - 1];
      assert forall c :: c in init ==> c in cs;
      assert last in cs;
      LineCount(pg, init);
      ChangeSize(HtmlAll(pg, init), last);
    }
  }

  /** Changes for other files, and actions other than add and remove, leave the page alone. */
  lemma {:induction false} IgnoredChanges(pg: Page, cs: seq<Change>)
    requires forall c :: c in cs ==> !Targeted(c, "add") && !Targeted(c, "remove")
    ensures HtmlAll(pg, cs) == pg
  {
    if cs != [] {
      var init, last := cs[..|cs| - 1], cs[|cs| - 1];
      assert forall c :: c in init ==> c in cs;
      assert last in cs;
      IgnoredChanges(pg, init);
      ChangeSize(pg, last);
    }
  }

  /** A file without carriage returns comes back byte for byte when no change applies to the component. */
  lemma UnchangedText(text: string, cs: seq<Change>)
    requires '\r' !in text
    requires forall c :: c in cs ==> !Targeted(c, "add") && !Targeted(c, "remove")
    ensures UpdateHtmlSpec(text, cs) == text
  {
    IgnoredChanges(OpenLines(SplitLines(text)), cs);
    SplitLinesJoin(text);
  }

  /** A remove deletes exactly the matching lines and keeps the offsets. */
  lemma RemoveFilters(pg: Page, c: Change, l: string)
    requires Targeted(c, "remove")
    ensures var r := HtmlChange(pg, c);
            && r.navEnd == pg.navEnd && r.layoutEnd == pg.layoutEnd
            && (l in r.lines <==> l in pg.lines && !Drops(l, c.chartId))
  {
    if l in pg.lines && !Drops(l, c.chartId) {
      KeepComplete(pg.lines, c.chartId, l);
    }
  }

  // ---------------------------------------------------------------------------
  // The offset drift

  /**
   * As written, when the navigation list comes before the layout item (as in
   * the component's markup), the nav splice moves the layout anchor down by
   * the nav entry's length but `layoutEnd` keeps its old value: the block
   * lands that many lines above the anchor, and the recorded offset stays that
   * many lines short of it.
   */
  lemma LayoutOffsetDrifts(pg: Page, nav: seq<string>, block: seq<string>)
    requires Anchored(pg) && pg.navEnd < pg.layoutEnd
    ensures var r := Spliced(pg, nav, block);
            && r.lines[pg.layoutEnd..pg.layoutEnd + |block|] == block
            && r.lines[r.layoutEnd + |nav|] == LayoutClose
  {
    var lines := Insert(pg.lines, pg.navEnd, nav);
    InsertAfter(pg.lines, pg.navEnd, nav, pg.layoutEnd);
    InsertAfter(lines, pg.layoutEnd, block, pg.layoutEnd + |nav|);
  }

  /**
   * As written, when the layout item comes before the navigation list, the
   * block splice moves the list close down by the block's length but `ulEnd`
   * keeps its old value: the next nav entry lands that many lines above the
   * list close.
   */
  lemma NavOffsetDrifts(pg: Page, nav: seq<string>, block: seq<string>)
    requires Anchored(pg) && pg.layoutEnd < pg.navEnd
    ensures var r := Spliced(pg, nav, block);
            && r.lines[pg.layoutEnd..pg.layoutEnd + |block|] == block
            && r.lines[pg.layoutEnd + |block|] == LayoutClose
            && r.lines[pg.navEnd + |block|..pg.navEnd + |block| + |nav|] == nav
            && Contains(r.lines[r.navEnd + |block|], NavClose)
  {
    var n, l := pg.navEnd, pg.layoutEnd;
    var lines := Insert(pg.lines, n, nav);
    InsertBefore(pg.lines, n, nav, l);
    InsertAfter(pg.lines, n, nav, n);
    InsertShiftsRun(lines, l, block, n, n + |nav|);
    InsertAfter(lines, l, block, l);
    InsertAfter(lines, l, block, n + |nav|);
  }

  const ExampleNav: string := "<ul class=\"" + NavClass + "\">"

  /** A list, its close, and the layout item close: the smallest file with both anchors. */
  function ExampleLines(): (r: seq<string>)
    ensures |r| == 3
  {
    [ExampleNav, NavClose, LayoutClose]
  }

  lemma {:induction false} ContainsInside(a: string, b: string, c: string)
    ensures Contains(a + b + c, b)
  {
    if a == [] {
      assert (a + b + c)[..|b|] == b;
    } else {
      ContainsInside(a[1..], b, c);
      assert (a + b + c)[1..] == a[1..] + b + c;
    }
  }

  /** `updateHtml` finds the list close on line 1 and the layout anchor on line 2 of the three-line file. */
  lemma ExampleOpens()
    ensures OpenLines(ExampleLines()) == Page(ExampleLines(), 1, 2)
    ensures Anchored(OpenLines(ExampleLines()))
  {
    var lines := ExampleLines();
    ContainsInside("<ul class=\"", NavClass, "\">");
    ContainsInside([], NavOpen, " class=\"" + NavClass + "\">");
    assert [] + NavOpen + (" class=\"" + NavClass + "\">") == ExampleNav;
    assert IsNavList(lines[0]);
    ContainsInside([], NavClose, []);
    assert NavClose == [] + NavClose + [];
    assert FindNavEnd(lines, 1) == 1;
    assert LastIndexOf(lines, LayoutClose) == 2;
  }

  /** With the layout anchor right after the list close, the block goes between the new item's first and second line. */
  lemma SplicedAdjacent(pg: Page, nav: seq<string>, block: seq<string>)
    requires |pg.lines| == 3 && pg.navEnd == 1 && pg.layoutEnd == 2 && |nav| == 3
    ensures var r := Spliced(pg, nav, block);
            && r.lines[1] == nav[0]
            && r.lines[2..2 + |block|] == block
            && r.lines[2 + |block|] == nav[1]
            && r.layoutEnd == 2 + |block|
  {
    var lines := Insert(pg.lines, 1, nav);
    assert lines[1..4] == nav;
    assert lines[1] == nav[0] && lines[2] == nav[1];
    InsertBefore(lines, 2, block, 1);
    InsertAfter(lines, 2, block, 2);
  }

  /**
   * On the three-line file an add splices the chart block in between `<li>`
   * and the nav link, inside the list item just inserted, and the page loses
   * its layout anchor.
   */
  lemma BlockInsideNavItem(pascal: string)
    ensures var r := AddChart(OpenLines(ExampleLines()), pascal);
            && r.lines[1] == NavItemOpen
            && r.lines[2..14] == BlockLines(pascal)
            && r.lines[14] == NavLink(pascal)
            && !Anchored(r)
  {
    ExampleOpens();
    SplicedAdjacent(OpenLines(ExampleLines()), NavLines(pascal), BlockLines(pascal));
    assert |NavLink(pascal)| != |LayoutClose|;
  }

  /**
   * The corrected add: each splice also shifts the other anchor when it lands
   * at or above it, so the nav entry sits right above the list close and the
   * block right above the layout item close.
   */
  function SplicedFixed(pg: Page, nav: seq<string>, block: seq<string>): (r: Page)
    ensures |r.lines| == |pg.lines| + |nav| + |block|
  {
    var n := SpliceAt(pg.navEnd, |pg.lines|);
    var l := SpliceAt(pg.layoutEnd, |pg.lines|);
    var lines := Insert(pg.lines, n, nav);
    var l' := if n <= l then l + |nav| else l;
    var n' := n + |nav|;
    Page(Insert(lines, l', block), if l' <= n' then n' + |block| else n', l' + |block|)
  }

  function AddChartFixed(pg: Page, pascal: string): (r: Page)
    ensures |r.lines| == |pg.lines| + 15
  {
    SplicedFixed(pg, NavLines(pascal), BlockLines(pascal))
  }

  /** The corrected splices keep both anchors and put each insertion right above its anchor. */
  lemma SplicedFixedAnchored(pg: Page, nav: seq<string>, block: seq<string>)
    requires Anchored(pg)
    ensures var r := SplicedFixed(pg, nav, block);
            && Anchored(r)
            && r.navEnd >= |nav| && r.lines[r.navEnd - |nav|..r.navEnd] == nav
            && r.layoutEnd >= |block| && r.lines[r.layoutEnd - |block|..r.layoutEnd] == block
  {
    if pg.navEnd < pg.layoutEnd {
      FixedNavFirst(pg, nav, block);
    } else {
      FixedLayoutFirst(pg, nav, block);
    }
  }

  /** The corrected add keeps both anchors, with the nav entry and the block right above them. */
  lemma AddChartFixedAnchored(pg: Page, pascal: string)
    requires Anchored(pg)
    ensures var r := AddChartFixed(pg, pascal);
            && Anchored(r)
            && r.lines[r.navEnd - 3..r.navEnd] == NavLines(pascal)
            && r.lines[r.layoutEnd - 12..r.layoutEnd] == BlockLines(pascal)
  {
    SplicedFixedAnchored(pg, NavLines(pascal), BlockLines(pascal));
  }

  /** With the list first, the corrected add splices the nav entry at the list close and the block at the shifted layout anchor. */
  lemma FixedNavFirstShape(pg: Page, nav: seq<string>, block: seq<string>)
    requires 0 <= pg.navEnd < pg.layoutEnd < |pg.lines|
    ensures var lines := Insert(pg.lines, pg.navEnd, nav);
            SplicedFixed(pg, nav, block)
              == Page(Insert(lines, pg.layoutEnd + |nav|, block),
                      pg.navEnd + |nav|, pg.layoutEnd + |nav| + |block|)
  {
    assert SpliceAt(pg.navEnd, |pg.lines|) == pg.navEnd;
    assert SpliceAt(pg.layoutEnd, |pg.lines|) == pg.layoutEnd;
  }

  /** With the layout item first, the block goes in at the layout anchor and the list close moves down past both splices. */
  lemma FixedLayoutFirstShape(pg: Page, nav: seq<string>, block: seq<string>)
    requires 0 <= pg.layoutEnd < pg.navEnd < |pg.lines|
    ensures var lines := Insert(pg.lines, pg.navEnd, nav);
            SplicedFixed(pg, nav, block)
              == Page(Insert(lines, pg.layoutEnd, block),
                      pg.navEnd + |nav| + |block|, pg.layoutEnd + |block|)
  {
    assert SpliceAt(pg.navEnd, |pg.lines|) == pg.navEnd;
    assert SpliceAt(pg.layoutEnd, |pg.lines|) == pg.layoutEnd;
  }

  /** Inside the bounds the inserted lines stand exactly at the splice point. */
  lemma InsertPlaced(lines: seq<string>, at: nat, more: seq<string>)
    requires at <= |lines|
    ensures |Insert(lines, at, more)| == |lines| + |more|
    ensures Insert(lines, at, more)[at..at + |more|] == more
  {
    InsertSplices(lines, at, more);
  }

  lemma FixedNavFirst(pg: Page, nav: seq<string>, block: seq<string>)
    requires 0 <= pg.navEnd < pg.layoutEnd < |pg.lines|
    ensures var r := SplicedFixed(pg, nav, block);
            && r == Page(r.lines, pg.navEnd + |nav|, pg.layoutEnd + |nav| + |block|)
            && r.lines[r.navEnd - |nav|..r.navEnd] == nav
            && r.lines[r.navEnd] == pg.lines[pg.navEnd]
            && r.lines[r.layoutEnd - |block|..r.layoutEnd] == block
            && r.lines[r.layoutEnd] == pg.lines[pg.layoutEnd]
  {
    var n, l := pg.navEnd, pg.layoutEnd;
    var lines := Insert(pg.lines, n, nav);
    var lines' := Insert(lines, l + |nav|, block);
    FixedNavFirstShape(pg, nav, block);
    InsertPlaced(pg.lines, n, nav);
    InsertPlaced(lines, l + |nav|, block);
    InsertKeepsRun(lines, l + |nav|, block, n, n + |nav|);
    assert lines'[n..n + |nav|] == nav;
    InsertAfter(pg.lines, n, nav, n);
    InsertBefore(lines, l + |nav|, block, n + |nav|);
    assert lines'[n + |nav|] == pg.lines[n];
    InsertAfter(pg.lines, n, nav, l);
    InsertAfter(lines, l + |nav|, block, l + |nav|);
    assert lines'[l + |nav| + |block|] == pg.lines[l];
  }

  lemma FixedLayoutFirst(pg: Page, nav: seq<string>, block: seq<string>)
    requires 0 <= pg.layoutEnd < pg.navEnd < |pg.lines|
    ensures var r := SplicedFixed(pg, nav, block);
            && r == Page(r.lines, pg.navEnd + |nav| + |block|, pg.layoutEnd + |block|)
            && r.lines[r.navEnd - |nav|..r.navEnd] == nav
            && r.lines[r.navEnd] == pg.lines[pg.navEnd]
            && r.lines[r.layoutEnd - |block|..r.layoutEnd] == block
            && r.lines[r.layoutEnd] == pg.lines[pg.layoutEnd]
  {
    var n, l := pg.navEnd, pg.layoutEnd;
    var lines := Insert(pg.lines, n, nav);
    var lines' := Insert(lines, l, block);
    FixedLayoutFirstShape(pg, nav, block);
    InsertPlaced(pg.lines, n, nav);
    InsertPlaced(lines, l, block);
    InsertShiftsRun(lines, l, block, n, n + |nav|);
    assert lines'[n + |block|..n + |block| + |nav|] == nav;
    InsertAfter(pg.lines, n, nav, n);
    InsertAfter(lines, l, block, n + |nav|);
    assert lines'[n + |nav| + |block|] == pg.lines[n];
    InsertBefore(pg.lines, n, nav, l);
    InsertAfter(lines, l, block, l);
    assert lines'[l + |block|] == pg.lines[l];
  }

  // ---------------------------------------------------------------------------
  // The loops

  lemma KeepStep(lines: seq<string>, id: string, i: nat)
    requires i < |lines|
    ensures Keep(lines[..i + 1], id) == Keep(lines[..i], id) + (if Drops(lines[i], id) then [] else [lines[i]])
  {
    assert lines[..i + 1][..i] == lines[..i];
  }

  /** The filter of a remove, line by line. */
  method KeepLines(lines: seq<string>, id: string) returns (r: seq<string>)
    ensures r == Keep(lines, id)
  {
    r := [];
    for i := 0 to |lines|
      invariant r == Keep(lines[..i], id)
    {
      KeepStep(lines, id, i);
      if !Drops(lines[i], id) {
        r := r + [lines[i]];
      }
    }
    assert lines[..|lines|] == lines;
  }

  lemma HtmlAllStep(pg: Page, cs: seq<Change>, i: nat)
    requires i < |cs|
    ensures HtmlAll(pg, cs[..i + 1]) == HtmlChange(HtmlAll(pg, cs[..i]), cs[i])
  {
    assert cs[..i + 1][..i] == cs[..i];
  }

  /** `updateHtml`: the line list and both offsets updated change by change, then joined with `\n`. */
  method UpdateHtml(text: string, cs: seq<Change>) returns (out: string)
    ensures out == UpdateHtmlSpec(text, cs)
  {
    var lines := SplitLines(text);
    ghost var start := OpenLines(lines);
    var ulStart := FindNavStart(lines, 0);
    var ulEnd := FindNavEnd(lines, ulStart + 1);
    var layoutEnd := LastIndexOf(lines, LayoutClose);
    for i := 0 to |cs|
      invariant HtmlAll(start, cs[..i]) == Page(lines, ulEnd, layoutEnd)
    {
      HtmlAllStep(start, cs, i);
      var change := cs[i];
      if change.targetFile == TargetFile {
        var id := change.chartId;
        if change.action == "remove" {
          lines := KeepLines(lines, id);
        } else if change.action == "add" {
          var pascal := Patcher.ToPascal(id);
          lines := Insert(lines, ulEnd, NavLines(pascal));
          ulEnd := ulEnd + 3;
          lines := Insert(lines, layoutEnd, BlockLines(pascal));
          layoutEnd := layoutEnd + 12;
        }
      }
    }
    assert cs[..|cs|] == cs;
    out := Join(lines, "\n");
  }
}
