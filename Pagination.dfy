/** The pagination bar of the listing pages (`renderPagination`, main.js
    321-368): from the pagination record of an API response it produces a
    Prev control, a window of page numbers and ellipses, and a Next control.
    DOM buttons and spans are abstracted to `Control` values; a control's
    `target` is the page its click handler passes to the page-load callback. */
module Pagination {
  import opened Wrappers
  import opened Sequences

  /** The `pagination` object of an API response. A missing
      `last_visible_page` is `None`; `previous_page`/`next_page` may be
      `null`, which the Prev/Next handlers then pass on unchanged. */
  datatype PaginationInfo = PaginationInfo(
    currentPage: int,
    hasPreviousPage: bool,
    previousPage: Option<int>,
    hasNextPage: bool,
    nextPage: Option<int>,
    lastVisiblePage: Option<int>)

  /** An entry of `pagesToShow`: a page number or the literal `'...'`. */
  datatype Token = Num(page: int) | Dots

  /** One element appended to the pagination container. */
  datatype Control =
    | Prev(disabled: bool, target: Option<int>)
    | PageButton(number: int, active: bool, targetPage: int)
    | Ellipsis
    | Next(disabled: bool, target: Option<int>)

  /** A missing `last_visible_page` is falsy, exactly like 0. */
  function LastPage(info: PaginationInfo): int {
    info.lastVisiblePage.GetOr(0)
  }

  /** The early return of main.js 323-325: no record, a falsy
      `last_visible_page`, or at most one page. */
  predicate Hidden(p: Option<PaginationInfo>) {
    p.None? || LastPage(p.value) <= 1
  }

  /** Page numbers 1..n in ascending order. */
  function PageRange(n: int): seq<Token> {
    seq(if n < 0 then 0 else n, i => Num(i + 1))
  }

  /** `pagesToShow` before the Set step (main.js 335-346), for current page
      `c` and last page `last`. */
  function PushedTokens(c: int, last: int): seq<Token> {
    if last <= 7 then PageRange(last)
    else
      [Num(1)]
      + (if c > 3 then [Dots] else [])
      + (if c > 2 then [Num(c - 1)] else [])
      + (if c != 1 && c != last then [Num(c)] else [])
      + (if c < last - 1 then [Num(c + 1)] else [])
      + (if c < last - 2 then [Dots] else [])
      + [Num(last)]
  }

  /** The tokens actually shown: `[...new Set(pagesToShow)]` (main.js 348).
      The Set treats the two `'...'` strings as one value, so the second
      ellipsis is dropped whenever both are pushed. */
  function Window(c: int, last: int): seq<Token> {
    Dedupe(PushedTokens(c, last))
  }

  /** The element built for one token (main.js 349-360). */
  function ControlOf(t: Token, c: int): Control {
    match t
    case Dots => Ellipsis
    case Num(n) => PageButton(n, n == c, n)
  }

  function TokenControls(w: seq<Token>, c: int): seq<Control> {
    seq(|w|, i requires 0 <= i < |w| => ControlOf(w[i], c))
  }

  /** Everything the container holds after `renderPagination`. */
  function Controls(p: Option<PaginationInfo>): seq<Control> {
    if Hidden(p) then []
    else
      var info := p.value;
      [Prev(!info.hasPreviousPage, info.previousPage)]
      + TokenControls(Window(info.currentPage, LastPage(info)), info.currentPage)
      + [Next(!info.hasNextPage, info.nextPage)]
  }

  predicate IsActive(ctl: Control) {
    ctl.PageButton? && ctl.active
  }

  /** Numeric tokens appear in strictly ascending order (so none repeats). */
  ghost predicate PagesAscending(w: seq<Token>) {
    forall i, j :: 0 <= i < j < |w| && w[i].Num? && w[j].Num? ==> w[i].page < w[j].page
  }

  /** The rendering, as main.js performs it: pushes into `pagesToShow`, a
      pass that keeps the first occurrence of each value, and one appended
      control per surviving token between Prev and Next. */
  method RenderPagination(p: Option<PaginationInfo>) returns (controls: seq<Control>)
    ensures controls == Controls(p)
  {
    controls := [];
    if p.None? || p.value.lastVisiblePage.None? || p.value.lastVisiblePage.value <= 1 {
      return;
    }
    var info := p.value;
    var c, last := info.currentPage, info.lastVisiblePage.value;
    var prev := Prev(!info.hasPreviousPage, info.previousPage);
    controls := [prev];

    var pages := PagesToShow(c, last);
    var unique := SpreadSet(pages);

    var j := 0;
    while j < |unique|
      invariant 0 <= j <= |unique|
      invariant controls == [prev] + TokenControls(unique[..j], c)
    {
      var ctl := if unique[j] == Dots then Ellipsis
                 else PageButton(unique[j].page, unique[j].page == c, unique[j].page);
      assert TokenControls(unique[..j + 1], c) == TokenControls(unique[..j], c) + [ctl];
      controls := controls + [ctl];
      j := j + 1;
    }
    assert unique[..|unique|] == unique;
    controls := controls + [Next(!info.hasNextPage, info.nextPage)];
  }

  /** The pushes of main.js 335-346. */
  method PagesToShow(c: int, last: int) returns (pages: seq<Token>)
    ensures pages == PushedTokens(c, last)
  {
    pages := [];
    if last <= 7 {
      var i := 1;
      while i <= last
        invariant 1 <= i <= (if last < 0 then 0 else last) + 1
        invariant pages == PageRange(i - 1)
      {
        pages := pages + [Num(i)];
        i := i + 1;
      }
    } else {
      pages := pages + [Num(1)];
      if c > 3 { pages := pages + [Dots]; }
      if c > 2 { pages := pages + [Num(c - 1)]; }
      if c != 1 && c != last { pages := pages + [Num(c)]; }
      if c < last - 1 { pages := pages + [Num(c + 1)]; }
      if c < last - 2 { pages := pages + [Dots]; }
      pages := pages + [Num(last)];
    }
  }

  /** `[...new Set(pages)]`: a Set filled in order, then spread. */
  method SpreadSet(pages: seq<Token>) returns (unique: seq<Token>)
    ensures unique == Dedupe(pages)
  {
    var seen: set<Token> := {};
    unique := [];
    var k := 0;
    while k < |pages|
      invariant 0 <= k <= |pages|
      invariant unique == Dedupe(pages[..k])
      invariant seen == set t | t in unique
    {
      assert pages[..k + 1] == pages[..k] + [pages[k]];
      DedupeSnoc(pages[..k], pages[k]);
      if pages[k] !in seen {
        seen := seen + {pages[k]};
        unique := unique + [pages[k]];
      }
      k := k + 1;
    }
    assert pages[..|pages|] == pages;
  }

  // ---------------------------------------------------------------------
  // The token window

  /** Closed form of the pushes for more than seven pages and an in-range
      current page. */
  lemma PushedCases(c: int, last: int)
    requires last > 7 && 1 <= c <= last
    ensures PushedTokens(c, last) ==
      if c == 1 then [Num(1), Num(2), Dots, Num(last)]
      else if c == 2 then [Num(1), Num(2), Num(3), Dots, Num(last)]
      else if c == 3 then [Num(1), Num(2), Num(3), Num(4), Dots, Num(last)]
      else if c < last - 2 then [Num(1), Dots, Num(c - 1), Num(c), Num(c + 1), Dots, Num(last)]
      else if c == last - 2 then [Num(1), Dots, Num(c - 1), Num(c), Num(c + 1), Num(last)]
      else if c == last - 1 then [Num(1), Dots, Num(c - 1), Num(c), Num(last)]
      else [Num(1), Dots, Num(c - 1), Num(last)]
  {
  }

  /** Closed form of the window for more than seven pages and an in-range
      current page. The middle shape covers both 3 < c < last - 2, where the
      Set step dropped the second ellipsis, and c == last - 2. */
  lemma WindowCases(c: int, last: int)
    requires last > 7 && 1 <= c <= last
    ensures Window(c, last) ==
      if c == 1 then [Num(1), Num(2), Dots, Num(last)]
      else if c == 2 then [Num(1), Num(2), Num(3), Dots, Num(last)]
      else if c == 3 then [Num(1), Num(2), Num(3), Num(4), Dots, Num(last)]
      else if c <= last - 2 then [Num(1), Dots, Num(c - 1), Num(c), Num(c + 1), Num(last)]
      else if c == last - 1 then [Num(1), Dots, Num(c - 1), Num(c), Num(last)]
      else [Num(1), Dots, Num(c - 1), Num(last)]
  {
    PushedCases(c, last);
    var pushed := PushedTokens(c, last);
    if 3 < c < last - 2 {
      var a := [Num(1), Dots, Num(c - 1), Num(c), Num(c + 1)];
      assert pushed == a + [Dots] + [Num(last)];
      assert NoDup(a);
      DedupeOfDistinct(a);
      DedupeSnoc(a, Dots);
      DedupeSnoc(a + [Dots], Num(last));
    } else {
      var s: seq<Token>;
      if c == 1 {
        s := [Num(1), Num(2), Dots, Num(last)];
      } else if c == 2 {
        s := [Num(1), Num(2), Num(3), Dots, Num(last)];
      } else if c == 3 {
        s := [Num(1), Num(2), Num(3), Num(4), Dots, Num(last)];
      } else if c == last - 2 {
        s := [Num(1), Dots, Num(c - 1), Num(c), Num(c + 1), Num(last)];
      } else if c == last - 1 {
        s := [Num(1), Dots, Num(c - 1), Num(c), Num(last)];
      } else {
        s := [Num(1), Dots, Num(c - 1), Num(last)];
      }
      assert pushed == s;
      assert NoDup(s);
      DedupeOfDistinct(s);
    }
  }

  /** Without headroom for an ellipsis (2..7 pages) every page 1..last is
      shown, ascending, and no ellipsis appears (main.js 336-337). */
  lemma SmallWindow(c: int, last: int)
    requires 2 <= last <= 7
    ensures Window(c, last) == PageRange(last)
    ensures |Window(c, last)| == last
    ensures forall i :: 0 <= i < last ==> Window(c, last)[i] == Num(i + 1)
    ensures Dots !in Window(c, last)
  {
    assert NoDup(PageRange(last));
    DedupeOfDistinct(PageRange(last));
  }

  /** For more than seven pages and 1 <= c <= last (main.js 338-346): the
      window starts at page 1, ends at the last page, lists its pages in
      strictly ascending order, shows the current page and its neighbours,
      and has at most six tokens. */
  lemma LargeWindow(c: int, last: int)
    requires last > 7 && 1 <= c <= last
    ensures Window(c, last)[0] == Num(1)
    ensures Window(c, last)[|Window(c, last)| - 1] == Num(last)
    ensures PagesAscending(Window(c, last))
    ensures Num(c) in Window(c, last)
    ensures c > 2 ==> Num(c - 1) in Window(c, last)
    ensures c < last - 1 ==> Num(c + 1) in Window(c, last)
    ensures |Window(c, last)| <= 6
  {
    WindowCases(c, last);
  }

  /** After the Set step no token repeats, whatever the inputs: in
      particular no page number is shown twice and at most one ellipsis
      survives. */
  lemma WindowDistinct(c: int, last: int)
    ensures NoDup(Window(c, last))
    ensures forall i, j :: 0 <= i < j < |Window(c, last)| && Window(c, last)[i] == Dots ==> Window(c, last)[j] != Dots
  {
    DedupeNoDup(PushedTokens(c, last));
  }

  /** Both ellipses are pushed exactly when 3 < c < last - 2, and then the
      second one is dropped: the window holds a single ellipsis, right after
      page 1. */
  lemma SecondEllipsisDropped(c: int, last: int)
    requires last > 7 && 3 < c < last - 2
    ensures |PushedTokens(c, last)| == 7 && |Window(c, last)| == 6
    ensures PushedTokens(c, last)[1] == Dots && PushedTokens(c, last)[5] == Dots
    ensures Window(c, last)[1] == Dots
    ensures forall i :: 0 <= i < |Window(c, last)| && i != 1 ==> Window(c, last)[i].Num?
  {
    PushedCases(c, last);
    WindowCases(c, last);
  }

  // ---------------------------------------------------------------------
  // The controls

  /** Nothing is rendered exactly in the early-return cases (main.js 323-325). */
  lemma NoControlsIffHidden(p: Option<PaginationInfo>)
    ensures Controls(p) == [] <==> Hidden(p)
  {
  }

  /** Whenever anything is rendered, Prev comes first and Next last
      (main.js 329-333, 363-367): each is disabled exactly when the record
      says there is no such page, and each targets the record's page
      whatever its state. Between them stand only page buttons and
      ellipses: an ellipsis for each `'...'` token, and for each number a
      button that targets that number and is active exactly when it is the
      current page (main.js 349-359). */
  lemma ControlsShape(info: PaginationInfo)
    requires LastPage(info) > 1
    ensures var cs := Controls(Some(info));
      && |cs| == |Window(info.currentPage, LastPage(info))| + 2
      && cs[0] == Prev(!info.hasPreviousPage, info.previousPage)
      && cs[|cs| - 1] == Next(!info.hasNextPage, info.nextPage)
      && (cs[0].disabled <==> !info.hasPreviousPage)
      && (cs[|cs| - 1].disabled <==> !info.hasNextPage)
  {
  }

  lemma ControlsMiddle(info: PaginationInfo, i: int)
    requires LastPage(info) > 1
    requires 0 < i < |Controls(Some(info))| - 1
    ensures var cs := Controls(Some(info));
      var t := Window(info.currentPage, LastPage(info))[i - 1];
      && (cs[i].Ellipsis? <==> t == Dots)
      && (cs[i].PageButton? <==> t.Num?)
      && (cs[i].PageButton? ==> cs[i].number == t.page && cs[i].targetPage == cs[i].number)
      && (IsActive(cs[i]) <==> t == Num(info.currentPage))
  {
  }

  /** For more than seven pages every current page value ends up in the
      window (it is pushed unless it is 1 or the last page, which are always
      there); for 2..7 pages exactly the in-range values do. */
  lemma CurrentPageShown(c: int, last: int)
    requires last > 1
    ensures Num(c) in Window(c, last) <==> (last > 7 || 1 <= c <= last)
  {
    DedupeSameElements(PushedTokens(c, last));
    if last <= 7 {
      SmallWindow(c, last);
      if 1 <= c <= last {
        assert Window(c, last)[c - 1] == Num(c);
      }
    } else {
      if c == 1 {
        assert PushedTokens(c, last)[0] == Num(c);
      } else if c == last {
        assert PushedTokens(c, last)[|PushedTokens(c, last)| - 1] == Num(c);
      } else {
        assert Num(c) in PushedTokens(c, last);
      }
    }
  }

  /** Exactly one control is active, and it is the current page, whenever
      the current page is in range; for more than seven pages this holds for
      every current page value, in range or not, because the window always
      pushes it. */
  lemma ExactlyOneActive(info: PaginationInfo)
    requires LastPage(info) > 1
    requires LastPage(info) > 7 || 1 <= info.currentPage <= LastPage(info)
    ensures var cs := Controls(Some(info));
      exists i :: 0 <= i < |cs| && IsActive(cs[i]) && cs[i].number == info.currentPage
        && forall j :: 0 <= j < |cs| && IsActive(cs[j]) ==> j == i
  {
    var c, last := info.currentPage, LastPage(info);
    var w := Window(c, last);
    var cs := Controls(Some(info));
    CurrentPageShown(c, last);
    WindowDistinct(c, last);
    var k :| 0 <= k < |w| && w[k] == Num(c);
    assert IsActive(cs[k + 1]) && cs[k + 1].number == c;
    forall j | 0 <= j < |cs| && IsActive(cs[j])
      ensures j == k + 1
    {
      assert 0 < j < |cs| - 1;
      assert w[j - 1] == Num(c);
    }
  }

  /** With 2..7 pages and an out-of-range current page no control is active. */
  lemma NoActiveOutOfRange(info: PaginationInfo)
    requires 1 < LastPage(info) <= 7
    requires !(1 <= info.currentPage <= LastPage(info))
    ensures forall j :: 0 <= j < |Controls(Some(info))| ==> !IsActive(Controls(Some(info))[j])
  {
    CurrentPageShown(info.currentPage, LastPage(info));
    var w := Window(info.currentPage, LastPage(info));
    var cs := Controls(Some(info));
    forall j | 0 <= j < |cs|
      ensures !IsActive(cs[j])
    {
      if 0 < j < |cs| - 1 {
        assert w[j - 1] in w;
      }
    }
  }

  // ---------------------------------------------------------------------
  // The window as evidently intended

  /** Every ellipsis stands for a gap and every gap has one: neighbouring
      page numbers are consecutive, and an ellipsis sits between two page
      numbers that are more than one apart. */
  ghost predicate GapsMarked(w: seq<Token>) {
    forall i :: 0 <= i < |w| - 1 ==>
      && (w[i].Num? && w[i + 1].Num? ==> w[i + 1].page == w[i].page + 1)
      && (w[i].Dots? ==> 0 < i && w[i - 1].Num? && w[i + 1].Num? && w[i + 1].page > w[i - 1].page + 1)
  }

  /** As written, the window marks every gap exactly when the Set step did
      not have two ellipses to merge: for 3 < c < last - 2 the gap between
      c + 1 and the last page is shown without an ellipsis. */
  lemma WindowGapsMarkedIff(c: int, last: int)
    requires last > 7 && 1 <= c <= last
    ensures GapsMarked(Window(c, last)) <==> !(3 < c < last - 2)
  {
    WindowCases(c, last);
    var w := Window(c, last);
    if 3 < c < last - 2 {
      assert w[4] == Num(c + 1) && w[5] == Num(last);
    }
  }

  /** The concrete case: 100 pages, current page 50. */
  lemma WindowAtFiftyOfHundred()
    ensures Window(50, 100) == [Num(1), Dots, Num(49), Num(50), Num(51), Num(100)]
    ensures !GapsMarked(Window(50, 100))
  {
    WindowGapsMarkedIff(50, 100);
    WindowCases(50, 100);
  }

  /** Dedupe that collapses repeated page numbers only, leaving every
      ellipsis in place. */
  function DedupePages(s: seq<Token>): seq<Token>
    decreases |s|
  {
    if |s| == 0 then []
    else
      var d := DedupePages(s[..|s| - 1]);
      var x := s[|s| - 1];
      if x.Num? && x in d then d else d + [x]
  }

  /** The window as evidently intended: the same pushes, with only repeated
      page numbers collapsed. */
  function IntendedWindow(c: int, last: int): seq<Token> {
    DedupePages(PushedTokens(c, last))
  }

  ghost predicate PagesDistinct(s: seq<Token>) {
    forall i, j :: 0 <= i < j < |s| && s[i].Num? ==> s[i] != s[j]
  }

  lemma {:induction false} DedupePagesOfDistinct(s: seq<Token>)
    requires PagesDistinct(s)
    ensures DedupePages(s) == s
  {
    if |s| > 0 {
      var p := s[..|s| - 1];
      assert PagesDistinct(p);
      DedupePagesOfDistinct(p);
      assert s == p + [s[|s| - 1]];
    }
  }

  /** For an in-range current page the pushes never repeat a page number,
      so the intended window is exactly what was pushed. */
  lemma IntendedIsPushed(c: int, last: int)
    requires last > 7 && 1 <= c <= last
    ensures IntendedWindow(c, last) == PushedTokens(c, last)
  {
    PushedCases(c, last);
    var pushed := PushedTokens(c, last);
    var s: seq<Token>;
    if c == 1 {
      s := [Num(1), Num(2), Dots, Num(last)];
    } else if c == 2 {
      s := [Num(1), Num(2), Num(3), Dots, Num(last)];
    } else if c == 3 {
      s := [Num(1), Num(2), Num(3), Num(4), Dots, Num(last)];
    } else if c < last - 2 {
      s := [Num(1), Dots, Num(c - 1), Num(c), Num(c + 1), Dots, Num(last)];
    } else if c == last - 2 {
      s := [Num(1), Dots, Num(c - 1), Num(c), Num(c + 1), Num(last)];
    } else if c == last - 1 {
      s := [Num(1), Dots, Num(c - 1), Num(c), Num(last)];
    } else {
      s := [Num(1), Dots, Num(c - 1), Num(last)];
    }
    assert pushed == s;
    assert PagesDistinct(s);
    DedupePagesOfDistinct(s);
  }

  /** The pushes for an in-range current page list their pages in
      ascending order from 1 to the last page, and include the current page. */
  lemma PushedOrdered(c: int, last: int)
    requires last > 7 && 1 <= c <= last
    ensures PagesAscending(PushedTokens(c, last))
    ensures PushedTokens(c, last)[0] == Num(1)
    ensures PushedTokens(c, last)[|PushedTokens(c, last)| - 1] == Num(last)
    ensures Num(c) in PushedTokens(c, last)
  {
    PushedCases(c, last);
    var w := PushedTokens(c, last);
    if c == 1 {
      assert PagesAscending(w);
    } else if c == 2 {
      assert PagesAscending(w);
    } else if c == 3 {
      assert PagesAscending(w);
    } else if c < last - 2 {
      assert PagesAscending(w);
    } else if c == last - 2 {
      assert PagesAscending(w);
    } else if c == last - 1 {
      assert PagesAscending(w);
    } else {
      assert PagesAscending(w);
    }
  }

  /** The pushes for an in-range current page mark every gap. */
  lemma PushedGapsMarked(c: int, last: int)
    requires last > 7 && 1 <= c <= last
    ensures GapsMarked(PushedTokens(c, last))
  {
    PushedCases(c, last);
    var w := PushedTokens(c, last);
    if c == 1 {
      assert GapsMarked(w);
    } else if c == 2 {
      assert GapsMarked(w);
    } else if c == 3 {
      assert GapsMarked(w);
    } else if c < last - 2 {
      assert GapsMarked(w);
    } else if c == last - 2 {
      assert GapsMarked(w);
    } else if c == last - 1 {
      assert GapsMarked(w);
    } else {
      assert GapsMarked(w);
    }
  }

  /** The intended window keeps both ellipses and marks every gap, with the
      same first page, last page and ascending order as before. */
  lemma IntendedWindowGapsMarked(c: int, last: int)
    requires last > 7 && 1 <= c <= last
    ensures GapsMarked(IntendedWindow(c, last))
    ensures PagesAscending(IntendedWindow(c, last))
    ensures IntendedWindow(c, last)[0] == Num(1)
    ensures IntendedWindow(c, last)[|IntendedWindow(c, last)| - 1] == Num(last)
    ensures Num(c) in IntendedWindow(c, last)
    ensures 3 < c < last - 2 ==> IntendedWindow(c, last) == [Num(1), Dots, Num(c - 1), Num(c), Num(c + 1), Dots, Num(last)]
  {
    IntendedIsPushed(c, last);
    PushedGapsMarked(c, last);
    PushedOrdered(c, last);
    if 3 < c < last - 2 {
      PushedCases(c, last);
    }
  }
}
