/** What the wall shows for each requested page, and how full its pages are (dashboard-state.ts). */
module WallRequests {
  import opened Wrappers
  import opened WallPaging

  /** The walls for the requests 0 to n - 1. */
  function Walls(groups: Pools, cols: int, rows: int, n: nat): (walls: seq<seq<Section>>)
    ensures |walls| == n
    ensures forall k | 0 <= k < n :: walls[k] == Allocate(groups, cols, rows, k).sections
  {
    seq(n, k requires 0 <= k < n => Allocate(groups, cols, rows, k).sections)
  }

  /**
   * Where there are cards and the terminal can be drawn: every request is clamped to the pages there are, it shows the
   * wall of the clamped page, and that wall fits the rows; and the walls of all pages, one after the other, show every
   * card of every group exactly once and in order.
   */
  lemma RequestsShowAll(groups: Pools, cols: int, rows: int, request: int)
    requires groups.Total() > 0 && Drawable(groups, rows)
    ensures var wall := Allocate(groups, cols, rows, request); var n := wall.pageCount;
      && n >= 1 && wall.totalRuns == |groups.active| + |groups.idleManual| + |groups.halted| + |groups.doneCanceled|
      && wall.page == (if request < 0 then 0 else if request < n then request else n - 1)
      && wall == Allocate(groups, cols, rows, wall.page)
      && wall.sections != [] && HeightOf(wall.sections, ColsCount(cols)) <= rows
      && forall g: Group :: ShownOn(Walls(groups, cols, rows, n), g) == groups.Of(g)
  {
    var wall, pages := Allocate(groups, cols, rows, request), Pages(groups, cols, rows);
    FillIsEmptyWhen(groups, cols, rows);
    PagesFit(groups, cols, rows, wall.page);
    NoCardIsLost(groups, cols, rows);
    assert Walls(groups, cols, rows, wall.pageCount) == pages;
  }

  /** Without cards, or on a terminal too small for one, every request shows an empty page 0. */
  lemma NothingToShow(groups: Pools, cols: int, rows: int, request: int)
    requires groups.Total() == 0 || !Drawable(groups, rows)
    ensures Allocate(groups, cols, rows, request) == Wall([], 0, if groups.Total() == 0 then 0 else 1, groups.Total())
  {
    FillIsEmptyWhen(groups, cols, rows);
  }

  lemma {:induction false} LabelIsPool(order: seq<Group>, pools: Pools, cols: nat, rowsLeft: int, i: nat)
    requires cols > 0 && i < |FillFrom(order, pools, cols, rowsLeft)|
    ensures var section := FillFrom(order, pools, cols, rowsLeft)[i]; section.poolSize == |pools.Of(section.group)|
  {
    if pools.Of(order[0]) == [] {
      LabelIsPool(order[1..], pools, cols, rowsLeft, i);
    } else if i > 0 {
      var section := NextSection(order[0], pools.Of(order[0]), cols, rowsLeft);
      LabelIsPool(order[1..], pools, cols, rowsLeft - Height(section, cols), i - 1);
    }
  }

  /** The number in a section's label is that of the group's cards on this page and those after it. */
  lemma {:induction false} LabelCounts(groups: Pools, cols: int, rows: int, k: nat, i: nat)
    requires Drawable(groups, rows) && k < |Pages(groups, cols, rows)| && i < |Pages(groups, cols, rows)[k]|
    ensures var pages := Pages(groups, cols, rows); pages[k][i].poolSize == |ShownOn(pages[k..], pages[k][i].group)|
    decreases k
  {
    hide FillFrom, Fill, Shown, ShownOn, Drawable, Rest;
    var sections := Fill(groups, cols, rows);
    var pages: seq<seq<Section>> := Pages(groups, cols, rows);
    PagesFrom(groups, cols, rows);
    if k == 0 {
      assert pages[0..] == pages;
      FirstLabels(groups, cols, rows, i);
      PagesShowAll(groups, cols, rows, pages[0][i].group);
    } else {
      RestIsDrawable(groups, cols, rows);
      LabelCounts(Rest(groups, sections), cols, rows, k - 1, i);
      assert pages[1..][k - 1..] == pages[k..];
    }
  }

  lemma FirstLabels(groups: Pools, cols: int, rows: int, i: nat)
    requires i < |Fill(groups, cols, rows)|
    ensures var section := Fill(groups, cols, rows)[i]; section.poolSize == |groups.Of(section.group)|
  {
    LabelIsPool(GROUP_ORDER, groups, ColsCount(cols), rows, i);
  }

  /** As many panes stand side by side as have 40 columns each, and one where not even one has. */
  lemma PanesFit(cols: int)
    ensures ColsCount(cols) > 1 ==> ColsCount(cols) * 40 <= cols
    ensures cols < (ColsCount(cols) + 1) * 40
  {
  }

  // ------------------------------------------------------------ full pages

  function Rank(g: Group): nat {
    match g
    case Active => 0
    case IdleManual => 1
    case Halted => 2
    case DoneCanceled => 3
  }

  ghost predicate Ranked(order: seq<Group>) {
    forall i, j | 0 <= i < j < |order| :: Rank(order[i]) < Rank(order[j])
  }

  /** The sections of a page up to those of group g. */
  function UpTo(sections: seq<Section>, g: Group): seq<Section> {
    if sections == [] then []
    else (if Rank(sections[0].group) <= Rank(g) then [sections[0]] else []) + UpTo(sections[1..], g)
  }

  /** The page with one more card of group g at its end, in the section that is there or in a new one. */
  function OneMoreCard(sections: seq<Section>, g: Group, card: Card): seq<Section> {
    var n := |sections|;
    if n > 0 && sections[n - 1].group == g then
      sections[..n - 1] + [sections[n - 1].(cards := sections[n - 1].cards + [card])]
    else sections + [Section(g, 1, [card])]
  }

  /** An earlier group with cards has none on the page. */
  ghost predicate Barred(order: seq<Group>, pools: Pools, sections: seq<Section>, g: Group) {
    exists e :: e in order && Rank(e) < Rank(g) && pools.Of(e) != [] && Shown(sections, e) == []
  }

  ghost predicate Full(order: seq<Group>, pools: Pools, cols: nat, rowsLeft: int, sections: seq<Section>, g: Group, card: Card)
    requires cols > 0
  {
    Barred(order, pools, sections, g) || HeightOf(OneMoreCard(UpTo(sections, g), g, card), cols) > rowsLeft
  }

  lemma {:induction false} SectionsInOrder(order: seq<Group>, pools: Pools, cols: nat, rowsLeft: int, i: nat)
    requires cols > 0 && i < |FillFrom(order, pools, cols, rowsLeft)|
    ensures FillFrom(order, pools, cols, rowsLeft)[i].group in order
  {
    if pools.Of(order[0]) == [] {
      SectionsInOrder(order[1..], pools, cols, rowsLeft, i);
    } else if i > 0 {
      var section := NextSection(order[0], pools.Of(order[0]), cols, rowsLeft);
      SectionsInOrder(order[1..], pools, cols, rowsLeft - Height(section, cols), i - 1);
    }
  }

  lemma {:induction false} LaterLeftOut(sections: seq<Section>, g: Group)
    requires forall i | 0 <= i < |sections| :: Rank(sections[i].group) > Rank(g)
    ensures UpTo(sections, g) == []
  {
    if sections == [] {
    } else {
      LaterLeftOut(sections[1..], g);
    }
  }

  lemma RankedRest(order: seq<Group>)
    requires Ranked(order) && order != []
    ensures Ranked(order[1..]) && Distinct(order) && forall i | 0 <= i < |order[1..]| :: Rank(order[1..][i]) > Rank(order[0])
  {
    RankedIsDistinct(order);
  }

  lemma {:induction false} RankedIsDistinct(order: seq<Group>)
    requires Ranked(order)
    ensures Distinct(order)
  {
    if order == [] {
    } else {
      RankedIsDistinct(order[1..]);
    }
  }

  /** A row of cards more than fits would be needed: the grid of one card more than the rows hold is too high. */
  lemma GridOverflows(fit: nat, cols: nat, cardRows: nat, available: nat)
    requires cols > 0 && cardRows > 0 && fit == available / cardRows
    ensures CeilDiv(fit * cols + 1, cols) * cardRows > available
  {
    var q := CeilDiv(fit * cols + 1, cols);
    assert fit * cols + 1 + cols - 1 == (fit + 1) * cols;
    assert (fit + 1) * cols / cols == fit + 1 by { Quotient(fit + 1, cols); }
    assert (fit + 1) * cardRows == fit * cardRows + cardRows;
  }

  lemma Quotient(k: nat, b: nat)
    requires b > 0
    ensures k * b / b == k
  {
    var q := k * b / b;
    assert q * b <= k * b < (q + 1) * b;
    if q < k { Monotone(q + 1, k, b); }
    if q > k { Monotone(k + 1, q, b); }
  }

  lemma Monotone(a: nat, c: nat, b: nat)
    requires a <= c
    ensures a * b <= c * b
  {
  }

  lemma ShownFirst(section: Section, tail: seq<Section>, g: Group)
    ensures Shown([section] + tail, g) == (if section.group == g then section.cards else []) + Shown(tail, g)
    ensures UpTo([section] + tail, g) == (if Rank(section.group) <= Rank(g) then [section] else []) + UpTo(tail, g)
  {
    assert ([section] + tail)[1..] == tail;
  }

  lemma HeightFirst(section: Section, tail: seq<Section>, cols: nat)
    requires cols > 0
    ensures HeightOf([section] + tail, cols) == Height(section, cols) + HeightOf(tail, cols)
  {
    assert ([section] + tail)[1..] == tail;
  }

  lemma OneMoreAfter(section: Section, tail: seq<Section>, g: Group, card: Card)
    requires section.group != g
    ensures OneMoreCard([section] + tail, g, card) == [section] + OneMoreCard(tail, g, card)
  {
  }

  lemma NewSectionHeight(g: Group, card: Card, cols: nat)
    requires cols > 0
    ensures HeightOf([Section(g, 1, [card])], cols) == HEADER_ROWS + CardRows(g)
  {
    HeightFirst(Section(g, 1, [card]), [], cols);
    assert [Section(g, 1, [card])] + [] == [Section(g, 1, [card])];
    assert 1 + cols - 1 == 1 * cols;
    Quotient(1, cols);
  }

  lemma SectionIsFull(g: Group, pool: seq<Card>, cols: nat, rowsLeft: int, card: Card)
    requires cols > 0 && rowsLeft > HEADER_ROWS && |NextSection(g, pool, cols, rowsLeft).cards| < |pool|
    ensures var section := NextSection(g, pool, cols, rowsLeft);
      HeightOf(OneMoreCard([section], g, card), cols) > rowsLeft
  {
    var section := NextSection(g, pool, cols, rowsLeft);
    var more := section.(cards := section.cards + [card]);
    GridOverflows(CardRowsFit(g, rowsLeft), cols, CardRows(g), rowsLeft - HEADER_ROWS);
    HeightFirst(more, [], cols);
    assert OneMoreCard([section], g, card) == [more] + [] == [more];
  }

  lemma TakesFirst(order: seq<Group>, pools: Pools, cols: nat, rowsLeft: int)
    requires cols > 0 && order != [] && pools.Of(order[0]) != [] && rowsLeft > HEADER_ROWS && CardRowsFit(order[0], rowsLeft) > 0
    ensures var section := NextSection(order[0], pools.Of(order[0]), cols, rowsLeft);
      FillFrom(order, pools, cols, rowsLeft) == [section] + FillFrom(order[1..], pools, cols, rowsLeft - Height(section, cols))
  {
  }

  lemma OwnSectionIsFull(order: seq<Group>, pools: Pools, cols: nat, rowsLeft: int)
    requires cols > 0 && Ranked(order) && order != [] && pools.Of(order[0]) != []
    requires rowsLeft > HEADER_ROWS && CardRowsFit(order[0], rowsLeft) > 0
    ensures var g, sections := order[0], FillFrom(order, pools, cols, rowsLeft);
      && Shown(sections, g) == NextSection(g, pools.Of(g), cols, rowsLeft).cards
      && UpTo(sections, g) == [NextSection(g, pools.Of(g), cols, rowsLeft)]
  {
    TakesFirst(order, pools, cols, rowsLeft);
    hide FillFrom, Height, CardRowsFit, NextSection, UpTo, Shown;
    var g := order[0];
    var section := NextSection(g, pools.Of(g), cols, rowsLeft);
    var left := rowsLeft - Height(section, cols);
    var tail := FillFrom(order[1..], pools, cols, left);
    RankedRest(order);
    assert g !in order[1..];
    FillFromShows(order[1..], pools, cols, left, g);
    forall i | 0 <= i < |tail| ensures Rank(tail[i].group) > Rank(g) { SectionsInOrder(order[1..], pools, cols, left, i); }
    LaterLeftOut(tail, g);
    ShownFirst(section, tail, g);
    assert section.cards + [] == section.cards && [section] + [] == [section];
  }

  lemma BrokenIsFull(order: seq<Group>, pools: Pools, cols: nat, rowsLeft: int, g: Group, card: Card)
    requires cols > 0 && Ranked(order) && order != [] && g in order && pools.Of(order[0]) != []
    requires rowsLeft <= HEADER_ROWS || CardRowsFit(order[0], rowsLeft) == 0
    ensures Full(order, pools, cols, rowsLeft, [], g, card)
  {
    RankedRest(order);
    assert order == [order[0]] + order[1..];
    NewSectionHeight(g, card, cols);
    assert OneMoreCard([], g, card) == [Section(g, 1, [card])];
    if g != order[0] { assert order[0] in order && Shown([], order[0]) == []; }
  }

  lemma EmptyFirst(order: seq<Group>, pools: Pools, cols: nat, rowsLeft: int, sections: seq<Section>, g: Group, card: Card)
    requires cols > 0 && order != [] && Full(order[1..], pools, cols, rowsLeft, sections, g, card)
    ensures Full(order, pools, cols, rowsLeft, sections, g, card)
  {
    if Barred(order[1..], pools, sections, g) {
      var e :| e in order[1..] && Rank(e) < Rank(g) && pools.Of(e) != [] && Shown(sections, e) == [];
      assert e in order;
    }
  }

  lemma FirstIsFull(order: seq<Group>, pools: Pools, cols: nat, rowsLeft: int, card: Card)
    requires cols > 0 && Ranked(order) && order != [] && rowsLeft > HEADER_ROWS && CardRowsFit(order[0], rowsLeft) > 0
    requires |Shown(FillFrom(order, pools, cols, rowsLeft), order[0])| < |pools.Of(order[0])|
    ensures Full(order, pools, cols, rowsLeft, FillFrom(order, pools, cols, rowsLeft), order[0], card)
  {
    hide FillFrom, UpTo, Shown, NextSection, Barred, OneMoreCard, HeightOf, CardRowsFit;
    OwnSectionIsFull(order, pools, cols, rowsLeft);
    SectionIsFull(order[0], pools.Of(order[0]), cols, rowsLeft, card);
  }

  lemma {:induction false} GroupIsFull(order: seq<Group>, pools: Pools, cols: nat, rowsLeft: int, g: Group)
    requires cols > 0 && Ranked(order) && g in order
    ensures var sections := FillFrom(order, pools, cols, rowsLeft); var shown := |Shown(sections, g)|;
      shown < |pools.Of(g)| ==> Full(order, pools, cols, rowsLeft, sections, g, pools.Of(g)[shown])
  {
    hide Height, CeilDiv, Full, UpTo;
    var first, rest, sections := order[0], order[1..], FillFrom(order, pools, cols, rowsLeft);
    RankedRest(order);
    assert order == [first] + rest;
    var shown := |Shown(sections, g)|;
    if shown < |pools.Of(g)| {
      var card := pools.Of(g)[shown];
      if pools.Of(first) == [] {
        GroupIsFull(rest, pools, cols, rowsLeft, g);
        EmptyFirst(order, pools, cols, rowsLeft, sections, g, card);
      } else if rowsLeft <= HEADER_ROWS || CardRowsFit(first, rowsLeft) == 0 {
        BrokenIsFull(order, pools, cols, rowsLeft, g, card);
      } else if g == first {
        FirstIsFull(order, pools, cols, rowsLeft, card);
      } else {
        var section := NextSection(first, pools.Of(first), cols, rowsLeft);
        LaterIsFull(order, pools, cols, rowsLeft, section, g);
        GroupIsFull(rest, pools, cols, rowsLeft - Height(section, cols), g);
        LaterFollows(order, pools, cols, rowsLeft, section, g, card);
      }
    }
  }

  lemma LaterIsFull(order: seq<Group>, pools: Pools, cols: nat, rowsLeft: int, section: Section, g: Group)
    requires cols > 0 && Ranked(order) && g in order && g != order[0] && pools.Of(order[0]) != []
    requires rowsLeft > HEADER_ROWS && CardRowsFit(order[0], rowsLeft) > 0
    requires section == NextSection(order[0], pools.Of(order[0]), cols, rowsLeft)
    ensures var tail := FillFrom(order[1..], pools, cols, rowsLeft - Height(section, cols));
      && FillFrom(order, pools, cols, rowsLeft) == [section] + tail
      && Shown([section] + tail, g) == Shown(tail, g) && UpTo([section] + tail, g) == [section] + UpTo(tail, g)
  {
    var tail := FillFrom(order[1..], pools, cols, rowsLeft - Height(section, cols));
    RankedRest(order);
    assert order == [order[0]] + order[1..];
    ShownFirst(section, tail, g);
  }

  lemma LaterBarred(order: seq<Group>, pools: Pools, section: Section, tail: seq<Section>, g: Group)
    requires Ranked(order) && order != [] && section.group == order[0] && Barred(order[1..], pools, tail, g)
    ensures Barred(order, pools, [section] + tail, g)
  {
    hide Shown;
    var e :| e in order[1..] && Rank(e) < Rank(g) && pools.Of(e) != [] && Shown(tail, e) == [];
    RankedRest(order);
    ShownFirst(section, tail, e);
    assert e in order && e != order[0];
    assert Shown([section] + tail, e) == [];
  }

  lemma LaterFollows(order: seq<Group>, pools: Pools, cols: nat, rowsLeft: int, section: Section, g: Group, card: Card)
    requires cols > 0 && Ranked(order) && order != [] && g != order[0] && section.group == order[0]
    requires var left := rowsLeft - Height(section, cols); var tail := FillFrom(order[1..], pools, cols, left);
      Full(order[1..], pools, cols, left, tail, g, card) && UpTo([section] + tail, g) == [section] + UpTo(tail, g)
    ensures var tail := FillFrom(order[1..], pools, cols, rowsLeft - Height(section, cols));
      Full(order, pools, cols, rowsLeft, [section] + tail, g, card)
  {
    hide Height, FillFrom, UpTo, OneMoreCard, HeightOf, Barred, Ranked;
    var tail := FillFrom(order[1..], pools, cols, rowsLeft - Height(section, cols));
    if Barred(order[1..], pools, tail, g) {
      LaterBarred(order, pools, section, tail, g);
    } else {
      OneMoreAfter(section, UpTo(tail, g), g, card);
      HeightFirst(section, OneMoreCard(UpTo(tail, g), g, card), cols);
    }
  }

  /**
   * A page is as full as its order allows. When a group has cards left over, then an earlier group with cards has none
   * on the page, or one more card of the group would not fit below the sections up to it.
   */
  lemma PageIsFull(pools: Pools, cols: int, rows: int, g: Group)
    ensures var sections := Fill(pools, cols, rows); var shown := |Shown(sections, g)|;
      shown < |pools.Of(g)| ==> Full(GROUP_ORDER, pools, ColsCount(cols), rows, sections, g, pools.Of(g)[shown])
  {
    GroupIsFull(GROUP_ORDER, pools, ColsCount(cols), rows, g);
  }
}
