/** Filling the pages of the dashboard's wall (dashboard-state.ts). */
module WallPaging {
  import opened Wrappers

  /** A run, as far as its identity goes. */
  datatype Card = Card(collabId: string, workflowId: Option<string>)

  datatype Group = Active | IdleManual | Halted | DoneCanceled

  datatype Pools = Pools(active: seq<Card>, idleManual: seq<Card>, halted: seq<Card>, doneCanceled: seq<Card>) {
    function Of(g: Group): seq<Card> {
      match g
      case Active => active
      case IdleManual => idleManual
      case Halted => halted
      case DoneCanceled => doneCanceled
    }

    function Total(): nat {
      |active| + |idleManual| + |halted| + |doneCanceled|
    }
  }

  datatype Consumed = Consumed(active: nat, idleManual: nat, halted: nat, doneCanceled: nat) {
    function Of(g: Group): nat {
      match g
      case Active => active
      case IdleManual => idleManual
      case Halted => halted
      case DoneCanceled => doneCanceled
    }

    function Set(g: Group, n: nat): Consumed {
      match g
      case Active => this.(active := n)
      case IdleManual => this.(idleManual := n)
      case Halted => this.(halted := n)
      case DoneCanceled => this.(doneCanceled := n)
    }
  }

  /** A group's part of a page; `poolSize` is the number in its label. */
  datatype Section = Section(group: Group, poolSize: nat, cards: seq<Card>)

  const MIN_PANE_COLS := 40
  const HEADER_ROWS := 1
  const FULL_HEIGHT := 7
  const COMPACT_HEIGHT := 5
  const GROUP_ORDER := [Active, IdleManual, Halted, DoneCanceled]

  function CardRows(g: Group): (n: nat)
    ensures n > 0
  {
    if g == Active then FULL_HEIGHT else COMPACT_HEIGHT
  }

  function ColsCount(cols: int): (n: nat)
    ensures n > 0
  {
    if cols / MIN_PANE_COLS > 1 then cols / MIN_PANE_COLS else 1
  }

  function CeilDiv(a: nat, b: nat): nat
    requires b > 0
  {
    (a + b - 1) / b
  }

  /** The rows a section takes: its header, and its cards in a grid. */
  function Height(s: Section, cols: nat): nat
    requires cols > 0
  {
    HEADER_ROWS + CeilDiv(|s.cards|, cols) * CardRows(s.group)
  }

  function HeightOf(sections: seq<Section>, cols: nat): nat
    requires cols > 0
  {
    if sections == [] then 0 else Height(sections[0], cols) + HeightOf(sections[1..], cols)
  }

  // ------------------------------------------------------------ one page

  function CardRowsFit(g: Group, rowsLeft: int): nat
    requires rowsLeft > HEADER_ROWS
  {
    (rowsLeft - HEADER_ROWS) / CardRows(g)
  }

  /** The section a group gets in the rows that are left. */
  function NextSection(g: Group, pool: seq<Card>, cols: nat, rowsLeft: int): (s: Section)
    requires cols > 0 && rowsLeft > HEADER_ROWS
    ensures s.group == g && s.cards <= pool
  {
    var cap := CardRowsFit(g, rowsLeft) * cols;
    Section(g, |pool|, pool[..if cap < |pool| then cap else |pool|])
  }

  function FillFrom(order: seq<Group>, pools: Pools, cols: nat, rowsLeft: int): seq<Section>
    requires cols > 0
  {
    if order == [] then []
    else if pools.Of(order[0]) == [] then FillFrom(order[1..], pools, cols, rowsLeft)
    else if rowsLeft <= HEADER_ROWS || CardRowsFit(order[0], rowsLeft) == 0 then []
    else
      var section := NextSection(order[0], pools.Of(order[0]), cols, rowsLeft);
      [section] + FillFrom(order[1..], pools, cols, rowsLeft - Height(section, cols))
  }

  function Fill(pools: Pools, cols: int, rows: int): seq<Section> {
    FillFrom(GROUP_ORDER, pools, ColsCount(cols), rows)
  }

  /** The cards of a group that a page shows. */
  function Shown(sections: seq<Section>, g: Group): seq<Card> {
    if sections == [] then []
    else (if sections[0].group == g then sections[0].cards else []) + Shown(sections[1..], g)
  }

  lemma {:induction false} ShownConcat(a: seq<Section>, b: seq<Section>, g: Group)
    ensures Shown(a + b, g) == Shown(a, g) + Shown(b, g)
  {
    if a == [] {
      assert a + b == b;
    } else {
      assert (a + b)[1..] == a[1..] + b;
      ShownConcat(a[1..], b, g);
    }
  }

  ghost predicate Tally(consumed: Consumed, sections: seq<Section>) {
    forall g: Group :: consumed.Of(g) == |Shown(sections, g)|
  }

  lemma TallyNext(consumed: Consumed, sections: seq<Section>, section: Section)
    requires Tally(consumed, sections) && consumed.Of(section.group) == 0
    ensures Tally(consumed.Set(section.group, |section.cards|), sections + [section])
  {
    forall g: Group
      ensures consumed.Set(section.group, |section.cards|).Of(g) == |Shown(sections + [section], g)|
    {
      ShownConcat(sections, [section], g);
      assert consumed.Of(g) == |Shown(sections, g)|;
    }
  }

  predicate Distinct(order: seq<Group>) {
    order == [] || (order[0] !in order[1..] && Distinct(order[1..]))
  }

  lemma OrderIsDistinct()
    ensures Distinct(GROUP_ORDER)
  {
    assert GROUP_ORDER[1..] == [IdleManual, Halted, DoneCanceled];
    assert [IdleManual, Halted, DoneCanceled][1..] == [Halted, DoneCanceled] && [Halted, DoneCanceled][1..] == [DoneCanceled];
  }

  ghost predicate Untouched(consumed: Consumed, order: seq<Group>) {
    forall i | 0 <= i < |order| :: consumed.Of(order[i]) == 0
  }

  lemma UntouchedNext(consumed: Consumed, order: seq<Group>)
    requires order != [] && Distinct(order) && Untouched(consumed, order)
    ensures consumed.Of(order[0]) == 0 && Untouched(consumed, order[1..])
    ensures forall n: nat :: Untouched(consumed.Set(order[0], n), order[1..])
  {
    var rest := order[1..];
    forall n: nat, i | 0 <= i < |rest|
      ensures consumed.Set(order[0], n).Of(rest[i]) == 0
    {
      assert rest[i] in rest && rest[i] == order[i + 1];
    }
  }

  lemma FillStep(before: seq<Section>, order: seq<Group>, pools: Pools, cols: nat, rowsLeft: int)
    requires cols > 0 && order != []
    ensures var later := FillFrom(order, pools, cols, rowsLeft); var pool := pools.Of(order[0]);
      if pool == [] then later == FillFrom(order[1..], pools, cols, rowsLeft)
      else if rowsLeft <= HEADER_ROWS || CardRowsFit(order[0], rowsLeft) == 0 then before + later == before
      else
        var section := NextSection(order[0], pool, cols, rowsLeft);
        before + later == before + [section] + FillFrom(order[1..], pools, cols, rowsLeft - Height(section, cols))
  {
  }

  /** The loop of fillOnePage over the groups, in their order. */
  method FillGroups(order: seq<Group>, pools: Pools, colsCount: nat, rows: int) returns (sections: seq<Section>, consumed: Consumed)
    requires colsCount > 0 && Distinct(order)
    ensures sections == FillFrom(order, pools, colsCount, rows) && Tally(consumed, sections)
  {
    var rowsLeft := rows;
    consumed := Consumed(0, 0, 0, 0);
    sections := [];
    var rest := order;
    assert Tally(consumed, sections) && Untouched(consumed, rest);
    assert sections + FillFrom(rest, pools, colsCount, rowsLeft) == FillFrom(order, pools, colsCount, rows);
    hide Tally, Untouched, Shown, CardRowsFit, Height, NextSection, FillFrom, Pools.Of, Consumed.Of, Consumed.Set;
    while |rest| > 0
      invariant Distinct(rest)
      invariant sections + FillFrom(rest, pools, colsCount, rowsLeft) == FillFrom(order, pools, colsCount, rows)
      invariant Tally(consumed, sections)
      invariant Untouched(consumed, rest)
      decreases |rest|
    {
      var group := rest[0];
      UntouchedNext(consumed, rest);
      FillStep(sections, rest, pools, colsCount, rowsLeft);
      rest := rest[1..];
      var pool := pools.Of(group);
      if |pool| == 0 {
        continue;
      }
      if rowsLeft <= HEADER_ROWS {
        break;
      }
      var cardRowsFit := CardRowsFit(group, rowsLeft);
      if cardRowsFit == 0 {
        break;
      }
      var section := TakeSection(group, pool, colsCount, rowsLeft, cardRowsFit);
      TallyNext(consumed, sections, section);
      rowsLeft := rowsLeft - Height(section, colsCount);
      consumed := consumed.Set(group, |section.cards|);
      sections := sections + [section];
    }
    if |rest| == 0 {
      NothingToFill(rest, pools, colsCount, rowsLeft);
    }
  }

  lemma NothingToFill(order: seq<Group>, pools: Pools, cols: nat, rowsLeft: int)
    requires cols > 0 && order == []
    ensures FillFrom(order, pools, cols, rowsLeft) == []
  {
  }

  method FillOnePage(pools: Pools, cols: int, rows: int) returns (sections: seq<Section>, consumed: Consumed)
    ensures sections == Fill(pools, cols, rows) && Tally(consumed, sections)
  {
    OrderIsDistinct();
    sections, consumed := FillGroups(GROUP_ORDER, pools, ColsCount(cols), rows);
  }

  method TakeSection(group: Group, pool: seq<Card>, colsCount: nat, rowsLeft: int, cardRowsFit: int) returns (section: Section)
    requires colsCount > 0 && rowsLeft > HEADER_ROWS && cardRowsFit == CardRowsFit(group, rowsLeft)
    ensures section == NextSection(group, pool, colsCount, rowsLeft)
  {
    var cap := cardRowsFit * colsCount;
    var taken := pool[..if cap < |pool| then cap else |pool|];
    section := Section(group, |pool|, taken);
  }

  // ------------------------------------------------------------ all pages

  function Drop(pool: seq<Card>, n: nat): seq<Card> {
    if n <= |pool| then pool[n..] else []
  }

  /** What is left for the next pages. */
  function Rest(pools: Pools, sections: seq<Section>): Pools {
    Pools(Drop(pools.active, |Shown(sections, Active)|), Drop(pools.idleManual, |Shown(sections, IdleManual)|),
          Drop(pools.halted, |Shown(sections, Halted)|), Drop(pools.doneCanceled, |Shown(sections, DoneCanceled)|))
  }

  lemma RestOf(pools: Pools, sections: seq<Section>, g: Group)
    ensures Rest(pools, sections).Of(g) == Drop(pools.Of(g), |Shown(sections, g)|)
  {
  }

  function Pages(pools: Pools, cols: int, rows: int): seq<seq<Section>>
    decreases pools.Total()
  {
    var sections := Fill(pools, cols, rows);
    if sections == [] then []
    else
      FillShrinks(pools, cols, rows);
      [sections] + Pages(Rest(pools, sections), cols, rows)
  }

  lemma {:induction false} FillFromShows(order: seq<Group>, pools: Pools, cols: nat, rowsLeft: int, g: Group)
    requires cols > 0 && Distinct(order)
    ensures var shown := Shown(FillFrom(order, pools, cols, rowsLeft), g); if g in order then shown <= pools.Of(g) else shown == []
  {
    var sections := FillFrom(order, pools, cols, rowsLeft);
    if sections == [] {
    } else {
      var rest := order[1..];
      assert order == [order[0]] + rest;
      if pools.Of(order[0]) == [] {
        FillFromShows(rest, pools, cols, rowsLeft, g);
      } else {
        var section := NextSection(order[0], pools.Of(order[0]), cols, rowsLeft);
        var left := rowsLeft - Height(section, cols);
        FillFromShows(rest, pools, cols, left, g);
        var tail := FillFrom(rest, pools, cols, left);
        assert sections[0] == section && sections[1..] == tail;
        if order[0] == g {
          assert Shown(sections, g) == section.cards + [] == section.cards;
        } else {
          assert Shown(sections, g) == [] + Shown(tail, g) == Shown(tail, g);
        }
      }
    }
  }

  /** A page shows the first cards of each group. */
  lemma FillShows(pools: Pools, cols: int, rows: int, g: Group)
    ensures Shown(Fill(pools, cols, rows), g) <= pools.Of(g)
    ensures pools.Of(g) == Shown(Fill(pools, cols, rows), g) + Rest(pools, Fill(pools, cols, rows)).Of(g)
  {
    OrderIsDistinct();
    var sections := Fill(pools, cols, rows);
    FillFromShows(GROUP_ORDER, pools, ColsCount(cols), rows, g);
    RestOf(pools, sections, g);
  }

  lemma FillShrinks(pools: Pools, cols: int, rows: int)
    requires Fill(pools, cols, rows) != []
    ensures Rest(pools, Fill(pools, cols, rows)).Total() < pools.Total()
  {
    var sections := Fill(pools, cols, rows);
    FillShows(pools, cols, rows, Active);
    FillShows(pools, cols, rows, IdleManual);
    FillShows(pools, cols, rows, Halted);
    FillShows(pools, cols, rows, DoneCanceled);
    FirstSectionShows(GROUP_ORDER, pools, ColsCount(cols), rows);
    assert |Shown(sections, sections[0].group)| > 0;
  }

  lemma CapIsPositive(fit: int, cols: nat)
    requires fit > 0 && cols > 0
    ensures fit * cols > 0
  {
  }

  lemma {:induction false} FirstSectionShows(order: seq<Group>, pools: Pools, cols: nat, rowsLeft: int)
    requires cols > 0 && FillFrom(order, pools, cols, rowsLeft) != []
    ensures FillFrom(order, pools, cols, rowsLeft)[0].cards != []
  {
    if pools.Of(order[0]) == [] {
      FirstSectionShows(order[1..], pools, cols, rowsLeft);
    } else {
      CapIsPositive(CardRowsFit(order[0], rowsLeft), cols);
    }
  }

  /** What the caller gets: the page asked for, or the last one there is. */
  datatype Wall = Wall(sections: seq<Section>, page: nat, pageCount: nat, totalRuns: nat)

  function Allocate(groups: Pools, cols: int, rows: int, page: int): Wall {
    var pages := Pages(groups, cols, rows);
    var total := groups.Total();
    if pages == [] then Wall([], 0, if total == 0 then 0 else 1, total)
    else
      var shown := if page <= 0 then 0 else if page < |pages| then page else |pages| - 1;
      Wall(pages[shown], shown, |pages|, total)
  }

  // ------------------------------------------------------------ when the wall can be drawn

  /** The smallest terminals that fit one card: an active card is taller than the others. */
  predicate Drawable(groups: Pools, rows: int) {
    rows >= HEADER_ROWS + if groups.active != [] then FULL_HEIGHT else COMPACT_HEIGHT
  }

  lemma FillIsEmptyWhen(pools: Pools, cols: int, rows: int)
    ensures Fill(pools, cols, rows) == [] <==> pools.Total() == 0 || !Drawable(pools, rows)
  {
    var n := ColsCount(cols);
    assert GROUP_ORDER[1..] == [IdleManual, Halted, DoneCanceled];
    assert GROUP_ORDER[1..][1..] == [Halted, DoneCanceled];
    assert GROUP_ORDER[1..][1..][1..] == [DoneCanceled];
    assert [DoneCanceled][1..] == [];
    assert FillFrom([], pools, n, rows) == [];
    if pools.active == [] {
      assert Fill(pools, cols, rows) == FillFrom([IdleManual, Halted, DoneCanceled], pools, n, rows);
      if pools.idleManual == [] {
        assert Fill(pools, cols, rows) == FillFrom([Halted, DoneCanceled], pools, n, rows);
        if pools.halted == [] {
          assert Fill(pools, cols, rows) == FillFrom([DoneCanceled], pools, n, rows);
        }
      }
    }
  }

  lemma RestIsDrawable(pools: Pools, cols: int, rows: int)
    requires Drawable(pools, rows)
    ensures Drawable(Rest(pools, Fill(pools, cols, rows)), rows)
  {
  }

  /** Every page holds, group after group, the cards that come next. */
  function ShownOn(pages: seq<seq<Section>>, g: Group): seq<Card> {
    if pages == [] then [] else Shown(pages[0], g) + ShownOn(pages[1..], g)
  }

  lemma {:induction false} PagesShowAll(pools: Pools, cols: int, rows: int, g: Group)
    requires Drawable(pools, rows)
    ensures ShownOn(Pages(pools, cols, rows), g) == pools.Of(g)
    decreases pools.Total()
  {
    var sections := Fill(pools, cols, rows);
    FillIsEmptyWhen(pools, cols, rows);
    if sections == [] {
    } else {
      FillShrinks(pools, cols, rows);
      RestIsDrawable(pools, cols, rows);
      PagesShowAll(Rest(pools, sections), cols, rows, g);
      FillShows(pools, cols, rows, g);
      assert Pages(pools, cols, rows)[1..] == Pages(Rest(pools, sections), cols, rows);
    }
  }

  /**
   * The pages together show every card exactly once, in order within its group, just when the terminal can be drawn
   * at all; otherwise they show nothing. Eight rows always suffice.
   */
  lemma NoCardIsLost(groups: Pools, cols: int, rows: int)
    ensures (forall g: Group :: ShownOn(Pages(groups, cols, rows), g) == groups.Of(g)) <==> groups.Total() == 0 || Drawable(groups, rows)
    ensures rows >= 8 ==> Drawable(groups, rows)
  {
    FillIsEmptyWhen(groups, cols, rows);
    if Drawable(groups, rows) {
      forall g: Group
        ensures ShownOn(Pages(groups, cols, rows), g) == groups.Of(g)
      {
        PagesShowAll(groups, cols, rows, g);
      }
    } else {
      assert Pages(groups, cols, rows) == [];
      assert forall g: Group :: ShownOn([], g) == [];
      if groups.Total() > 0 {
        assert groups.Of(Active) != [] || groups.Of(IdleManual) != [] || groups.Of(Halted) != [] || groups.Of(DoneCanceled) != [];
      }
    }
  }

  // ------------------------------------------------------------ every page fits

  lemma GridFits(taken: nat, fit: nat, cols: nat, cardRows: nat, available: nat)
    requires cols > 0 && cardRows > 0 && taken <= fit * cols && fit == available / cardRows
    ensures CeilDiv(taken, cols) * cardRows <= available
  {
    CeilBelow(taken, fit, cols);
    assert CeilDiv(taken, cols) * cardRows <= fit * cardRows <= available;
  }

  lemma PositiveFactor(k: int, b: nat)
    requires k * b > 0
    ensures k > 0
  {
  }

  lemma CeilBelow(a: nat, n: nat, b: nat)
    requires b > 0 && a <= n * b
    ensures CeilDiv(a, b) <= n
  {
    var q := CeilDiv(a, b);
    assert q * b <= a + b - 1;
    assert (n + 1 - q) * b == n * b + b - q * b;
    PositiveFactor(n + 1 - q, b);
  }

  lemma {:induction false} FillFromFits(order: seq<Group>, pools: Pools, cols: nat, rowsLeft: int)
    requires cols > 0
    ensures HeightOf(FillFrom(order, pools, cols, rowsLeft), cols) <= if rowsLeft > 0 then rowsLeft else 0
  {
    var sections := FillFrom(order, pools, cols, rowsLeft);
    if sections == [] {
    } else {
      if pools.Of(order[0]) == [] {
        FillFromFits(order[1..], pools, cols, rowsLeft);
      } else {
        var g := order[0];
        var section := NextSection(g, pools.Of(g), cols, rowsLeft);
        GridFits(|section.cards|, CardRowsFit(g, rowsLeft), cols, CardRows(g), rowsLeft - HEADER_ROWS);
        FillFromFits(order[1..], pools, cols, rowsLeft - Height(section, cols));
        assert sections[1..] == FillFrom(order[1..], pools, cols, rowsLeft - Height(section, cols));
      }
    }
  }

  /** The headers and card rows of every page fit in the rows of the terminal. */
  lemma {:induction false} PagesFit(pools: Pools, cols: int, rows: int, i: nat)
    requires i < |Pages(pools, cols, rows)|
    ensures HeightOf(Pages(pools, cols, rows)[i], ColsCount(cols)) <= rows
    ensures Pages(pools, cols, rows)[i] != []
    decreases i
  {
    var sections := Fill(pools, cols, rows);
    if i == 0 {
      FillFromFits(GROUP_ORDER, pools, ColsCount(cols), rows);
      FillIsEmptyWhen(pools, cols, rows);
    } else {
      PagesFit(Rest(pools, sections), cols, rows, i - 1);
    }
  }

  // ------------------------------------------------------------ the two loops

  method Advance(pools: Pools, consumed: Consumed, ghost sections: seq<Section>) returns (next: Pools)
    requires Tally(consumed, sections)
    ensures next == Rest(pools, sections)
  {
    assert consumed.Of(Active) == |Shown(sections, Active)| && consumed.Of(IdleManual) == |Shown(sections, IdleManual)|;
    assert consumed.Of(Halted) == |Shown(sections, Halted)| && consumed.Of(DoneCanceled) == |Shown(sections, DoneCanceled)|;
    next := Pools(Drop(pools.active, consumed.active), Drop(pools.idleManual, consumed.idleManual),
                  Drop(pools.halted, consumed.halted), Drop(pools.doneCanceled, consumed.doneCanceled));
  }

  lemma PagesFrom(pools: Pools, cols: int, rows: int)
    ensures var pages, sections := Pages(pools, cols, rows), Fill(pools, cols, rows);
      if sections == [] then pages == []
      else pages != [] && pages[0] == sections && pages[1..] == Pages(Rest(pools, sections), cols, rows)
  {
  }

  /** The first loop of allocateWallSections: walk forward to the page asked for. */
  method WalkTo(groups: Pools, cols: int, rows: int, requested: int) returns (sections: seq<Section>, page: nat)
    ensures var wall := Allocate(groups, cols, rows, requested); sections == wall.sections && page == wall.page
  {
    var pool := groups;
    page := 0;
    var consumed: Consumed;
    sections, consumed := FillOnePage(pool, cols, rows);
    ghost var pages := Pages(groups, cols, rows);
    PagesFrom(groups, cols, rows);
    while page < requested && |sections| > 0
      invariant sections == Fill(pool, cols, rows) && Tally(consumed, sections)
      invariant page == 0 || page <= requested
      invariant if sections == [] then page == 0 && pages == [] else page < |pages| && pages[page..] == Pages(pool, cols, rows)
      decreases pool.Total()
    {
      PagesFrom(pool, cols, rows);
      FillShrinks(pool, cols, rows);
      var nextPool := Advance(pool, consumed, sections);
      var nextSections, nextConsumed := FillOnePage(nextPool, cols, rows);
      PagesFrom(nextPool, cols, rows);
      assert pages[page + 1..] == pages[page..][1..];
      if |nextSections| == 0 {
        break;
      }
      pool := nextPool;
      page := page + 1;
      sections, consumed := nextSections, nextConsumed;
    }
    if sections != [] {
      PagesFrom(pool, cols, rows);
      assert pages[page..][0] == sections;
    }
  }

  /** The second loop: count the pages until the pools are drained. */
  method CountPages(groups: Pools, cols: int, rows: int) returns (pageCount: nat)
    ensures pageCount == Allocate(groups, cols, rows, 0).pageCount
  {
    pageCount := if groups.Total() == 0 then 0 else 1;
    var p := groups;
    var remaining := groups.Total();
    FillIsEmptyWhen(groups, cols, rows);
    PagesFrom(groups, cols, rows);
    while remaining > 0
      invariant remaining == p.Total()
      invariant Drawable(groups, rows) ==> Drawable(p, rows)
      invariant Drawable(groups, rows) && remaining > 0 ==> pageCount + |Pages(p, cols, rows)| == |Pages(groups, cols, rows)| + 1
      invariant Drawable(groups, rows) && remaining == 0 ==> pageCount == |Pages(groups, cols, rows)|
      invariant !Drawable(groups, rows) ==> p == groups && pageCount == if groups.Total() == 0 then 0 else 1
      decreases remaining
    {
      var sections, consumed := FillOnePage(p, cols, rows);
      FillIsEmptyWhen(p, cols, rows);
      TakenIsShown(p, cols, rows, consumed);
      var taken := consumed.active + consumed.idleManual + consumed.halted + consumed.doneCanceled;
      if taken == 0 {
        break;
      }
      PagesFrom(p, cols, rows);
      RestIsDrawableIf(p, cols, rows);
      p := Advance(p, consumed, sections);
      remaining := remaining - taken;
      FillIsEmptyWhen(p, cols, rows);
      PagesFrom(p, cols, rows);
      if remaining > 0 {
        pageCount := pageCount + 1;
      }
    }
  }

  lemma RestIsDrawableIf(pools: Pools, cols: int, rows: int)
    ensures Drawable(pools, rows) ==> Drawable(Rest(pools, Fill(pools, cols, rows)), rows)
  {
  }

  lemma TakenIsShown(pools: Pools, cols: int, rows: int, consumed: Consumed)
    requires Tally(consumed, Fill(pools, cols, rows))
    ensures var taken := consumed.active + consumed.idleManual + consumed.halted + consumed.doneCanceled;
      && pools.Total() == taken + Rest(pools, Fill(pools, cols, rows)).Total()
      && (taken == 0 <==> Fill(pools, cols, rows) == [])
  {
    var sections := Fill(pools, cols, rows);
    assert consumed.Of(Active) == |Shown(sections, Active)| && consumed.Of(IdleManual) == |Shown(sections, IdleManual)|;
    assert consumed.Of(Halted) == |Shown(sections, Halted)| && consumed.Of(DoneCanceled) == |Shown(sections, DoneCanceled)|;
    FillShows(pools, cols, rows, Active);
    FillShows(pools, cols, rows, IdleManual);
    FillShows(pools, cols, rows, Halted);
    FillShows(pools, cols, rows, DoneCanceled);
    if sections != [] {
      FillShrinks(pools, cols, rows);
    }
  }

  /** allocateWallSections: both loops, over the same pages. */
  method AllocateWallSections(groups: Pools, cols: int, rows: int, page: int) returns (wall: Wall)
    ensures wall == Allocate(groups, cols, rows, page)
  {
    var sections, shown := WalkTo(groups, cols, rows, page);
    var pageCount := CountPages(groups, cols, rows);
    wall := Wall(sections, shown, pageCount, groups.Total());
  }
}
