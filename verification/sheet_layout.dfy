/** The sheet (`generate_pdf`): the boosters' cards laid out three by three
    on A4 pages, row by row, each card on the picture of the booster's most
    valuable card. */
module SheetLayout {
  import opened Wrappers
  import opened Canvas
  import opened Cards
  import opened ManaCost
  import opened CardSheet

  /** `mm_to_points`: 72 points to the inch, 25.4 millimetres to the inch. */
  function MmToPoints(mm: real): (p: real)
    ensures p * 25.4 == mm * 72.0
  {
    mm * (72.0 / 25.4)
  }

  /** The inverse conversion. */
  function PointsToMm(p: real): real {
    p * 25.4 / 72.0
  }

  lemma PointsMmRoundTrip(mm: real, p: real)
    ensures PointsToMm(MmToPoints(mm)) == mm
    ensures MmToPoints(PointsToMm(p)) == p
  {
  }

  /** The height of the A4 page, 297 millimetres. */
  const PageHeight: real := MmToPoints(297.0)
  const Margin: real := 25.0
  /** Gap between neighbouring cards, in both directions. */
  const Spacing: real := 0.0

  function Min(a: nat, b: nat): nat {
    if a <= b then a else b
  }

  /** Where a card goes: the page, and the row and column on it. A page
      holds three rows of three cards; the numbers 3 and 9 below are the
      row length and the page size, written out so that the arithmetic
      about them stays linear. */
  datatype Slot = Slot(page: nat, row: nat, col: nat)

  /** The slot of booster i: pages are filled in turn, each row-major. */
  function SlotOf(i: nat): (s: Slot)
    ensures s.row < 3 && s.col < 3
    ensures i == s.page * 9 + s.row * 3 + s.col
  {
    var r := i % 9;
    Slot(i / 9, r / 3, r % 3)
  }

  /** A slot is the only one that accounts for its index: the page, row and
      column of booster i are i div 9, (i mod 9) div 3 and i mod 3. */
  lemma SlotUnique(i: nat, s: Slot)
    requires s.row < 3 && s.col < 3
    requires i == s.page * 9 + s.row * 3 + s.col
    ensures SlotOf(i) == s
    ensures s.page == i / 9 && s.row == (i % 9) / 3 && s.col == i % 3
  {
    var r := s.row * 3 + s.col;
    DivMod9(i, s.page, r);
    DivMod3(r, s.row, s.col);
    DivMod3(i, s.page * 3 + s.row, s.col);
  }

  lemma DivMod9(i: int, q: int, r: int)
    requires 0 <= r < 9 && i == q * 9 + r
    ensures i / 9 == q && i % 9 == r
  {
  }

  lemma DivMod3(i: int, q: int, r: int)
    requires 0 <= r < 3 && i == q * 3 + r
    ensures i / 3 == q && i % 3 == r
  {
  }

  /** The cell in row `row` and column `col` of a page, for cards `cw` by
      `ch` points: columns run rightwards from the left margin, rows
      downwards from the top margin. */
  function CellFrame(cw: real, ch: real, row: nat, col: nat): Frame {
    Frame(Margin + col as real * (cw + Spacing), PageHeight - Margin - ch - row as real * (ch + Spacing), cw, ch)
  }

  /** The first cell touches the left and top margins, and neighbouring
      cells touch each other. */
  lemma {:induction false} CellsAbut(cw: real, ch: real, row: nat, col: nat)
    ensures CellFrame(cw, ch, 0, 0).x == Margin
    ensures CellFrame(cw, ch, 0, 0).y + ch == PageHeight - Margin
    ensures CellFrame(cw, ch, row, col + 1).x == CellFrame(cw, ch, row, col).x + cw
    ensures CellFrame(cw, ch, row + 1, col).y + ch == CellFrame(cw, ch, row, col).y
  {
    assert (col + 1) as real * cw == col as real * cw + cw;
    assert (row + 1) as real * ch == row as real * ch + ch;
  }

  const ImageDir: string := "data/images"
  const PlaceholderSuffix: string := "_placeholder.png"

  /** `os.path.join(dir, name)` with '/' as separator: an absolute name
      replaces the directory; otherwise a separator is put between them
      unless the directory is empty or already ends with one. */
  function PathJoin(dir: string, name: string): (p: string)
    ensures |name| <= |p| && p[|p| - |name|..] == name
    ensures (|name| == 0 || name[0] != '/') ==> |dir| <= |p| && p[..|dir|] == dir
  {
    if |name| > 0 && name[0] == '/' then name
    else if |dir| == 0 || dir[|dir| - 1] == '/' then dir + name
    else dir + "/" + name
  }

  /** The path of the grey stand-in picture for a card
      (`generate_placeholder_image("data/images", id)`). */
  function PlaceholderPath(sid: string): (p: string)
    ensures |sid + PlaceholderSuffix| <= |p| && p[|p| - |sid + PlaceholderSuffix|..] == sid + PlaceholderSuffix
  {
    PathJoin(ImageDir, sid + PlaceholderSuffix)
  }

  /** The key `max` ranks cards by: the card's value, 0 when it has none. */
  function Value(c: Card): real {
    c.value.GetOr(0.0)
  }

  /** i is the first card of the greatest value. */
  predicate IsFirstMax(cards: seq<Card>, i: int) {
    && 0 <= i < |cards|
    && (forall j :: 0 <= j < |cards| ==> Value(cards[j]) <= Value(cards[i]))
    && (forall j :: 0 <= j < i ==> Value(cards[j]) < Value(cards[i]))
  }

  /** `max` over the first k cards: it keeps the card it holds unless a
      later one is strictly greater. */
  function MaxPrefix(cards: seq<Card>, k: nat): (i: nat)
    requires 0 < k <= |cards|
    ensures IsFirstMax(cards[..k], i)
  {
    if k == 1 then 0
    else
      var b := MaxPrefix(cards, k - 1);
      assert cards[..k - 1] == cards[..k][..k - 1];
      if Value(cards[k - 1]) > Value(cards[b]) then k - 1 else b
  }

  /** The card `max(cards, key=value)` returns, as an index. */
  function MostValuable(cards: seq<Card>): (i: nat)
    requires |cards| > 0
    ensures IsFirstMax(cards, i)
  {
    assert cards[..|cards|] == cards;
    MaxPrefix(cards, |cards|)
  }

  /** There is exactly one first maximum. */
  lemma FirstMaxUnique(cards: seq<Card>, i: int)
    requires IsFirstMax(cards, i)
    ensures i == MostValuable(cards)
  {
  }

  /** The picture behind a booster's card: the local image of its most
      valuable card when that path is set, non-empty and names an existing
      file (`onDisk` stands for `os.path.exists`), otherwise that card's
      placeholder. */
  function Background(cards: seq<Card>, onDisk: string -> bool): (bg: string)
    requires |cards| > 0
    ensures var best := cards[MostValuable(cards)];
      || (best.imagePath == Some(bg) && bg != "" && onDisk(bg))
      || bg == PlaceholderPath(best.scryfallId)
    ensures var best := cards[MostValuable(cards)];
      best.imagePath.Some? && best.imagePath.value != "" && onDisk(best.imagePath.value)
      ==> bg == best.imagePath.value
  {
    var best := cards[MostValuable(cards)];
    var path := best.imagePath.GetOr("");
    if path == "" || !onDisk(path) then PlaceholderPath(best.scryfallId) else path
  }

  /** What a cell shows: nothing for a booster without cards, otherwise
      the booster's name on its background above its card lines. */
  datatype Entry = Blank | Filled(id: string, bg: string, lines: seq<Line>)

  function EntryOf(b: Booster, onDisk: string -> bool): Entry {
    if |b.cards| == 0 then Blank else Filled(b.id, Background(b.cards, onDisk), ParseCards(b.cards))
  }

  function Entries(bs: seq<Booster>, onDisk: string -> bool): (es: seq<Entry>)
    ensures |es| == |bs|
  {
    if |bs| == 0 then [] else Entries(bs[..|bs| - 1], onDisk) + [EntryOf(bs[|bs| - 1], onDisk)]
  }

  /** Entry i is booster i's. */
  lemma {:induction false} EntriesAt(bs: seq<Booster>, onDisk: string -> bool, i: nat)
    requires i < |bs|
    ensures Entries(bs, onDisk)[i] == EntryOf(bs[i], onDisk)
  {
    if i < |bs| - 1 {
      EntriesAt(bs[..|bs| - 1], onDisk, i);
    }
  }

  function EntryTrace(e: Entry, f: Frame, env: Env): seq<DrawEvent> {
    match e
    case Blank => []
    case Filled(id, bg, ls) => Header(id, bg, f, env) + ListTrace(ls, |ls|, f, env)
  }

  /** A booster's cell: `create_card` on its background when it has cards,
      nothing when it has none. */
  function BoosterTrace(b: Booster, f: Frame, env: Env, onDisk: string -> bool): (t: seq<DrawEvent>)
    ensures |b.cards| == 0 ==> t == []
    ensures |b.cards| > 0 ==> t == CardTrace(b.id, b.cards, Background(b.cards, onDisk), f, env)
  {
    EntryTrace(EntryOf(b, onDisk), f, env)
  }

  /** Cell i of the sheet: entry i in the frame of its slot. */
  function CellTrace(es: seq<Entry>, i: nat, cw: real, ch: real, env: Env): seq<DrawEvent>
    requires i < |es|
  {
    var s := SlotOf(i);
    EntryTrace(es[i], CellFrame(cw, ch, s.row, s.col), env)
  }

  /** Cells lo up to hi, in order. */
  function CellsTrace(es: seq<Entry>, lo: nat, hi: nat, cw: real, ch: real, env: Env): seq<DrawEvent>
    requires lo <= hi <= |es|
    decreases hi
  {
    if hi == lo then [] else CellsTrace(es, lo, hi - 1, cw, ch, env) + CellTrace(es, hi - 1, cw, ch, env)
  }

  /** ceil(n / 9): the pages n boosters need. */
  function PageCount(n: nat): nat {
    (n + 8) / 9
  }

  /** Page p: its cells, then `showPage`. */
  function PageTrace(es: seq<Entry>, p: nat, cw: real, ch: real, env: Env): seq<DrawEvent>
    requires p * 9 < |es|
  {
    CellsTrace(es, p * 9, Min(p * 9 + 9, |es|), cw, ch, env) + [ShowPage]
  }

  /** The first p pages. */
  function DocPages(es: seq<Entry>, p: nat, cw: real, ch: real, env: Env): seq<DrawEvent>
    requires p <= PageCount(|es|)
  {
    if p == 0 then [] else DocPages(es, p - 1, cw, ch, env) + PageTrace(es, p - 1, cw, ch, env)
  }

  /** The whole document, before `save`. */
  function Document(es: seq<Entry>, cw: real, ch: real, env: Env): seq<DrawEvent> {
    DocPages(es, PageCount(|es|), cw, ch, env)
  }

  /** Every booster's entry, worked out in booster order. */
  method PrepareAll(bs: seq<Booster>, onDisk: string -> bool) returns (es: seq<Entry>)
    ensures es == Entries(bs, onDisk)
  {
    es := [];
    for i := 0 to |bs|
      invariant es == Entries(bs[..i], onDisk)
    {
      assert bs[..i + 1][..i] == bs[..i];
      es := es + [EntryOf(bs[i], onDisk)];
    }
    assert bs[..|bs|] == bs;
  }

  /** One turn of the column loop once the entry is known: `create_card`
      at the cell's corner, or nothing for a booster without cards. */
  method DrawCell(e: Entry, row: nat, col: nat, cw: real, ch: real, env: Env) returns (cell: seq<DrawEvent>)
    ensures cell == EntryTrace(e, CellFrame(cw, ch, row, col), env)
  {
    cell := [];
    if e.Filled? {
      cell := DrawCard(e.id, e.lines, e.bg, CellFrame(cw, ch, row, col), env);
    }
  }

  /** Arithmetic of the page loop: a page that starts before the end is
      one of the PageCount pages, and the loop ends after the last one. */
  lemma PageStep(page: nat, n: nat)
    requires page <= PageCount(n)
    ensures page * 9 < n ==> page + 1 <= PageCount(n) && Min(page * 9 + 9, n) == Min((page + 1) * 9, n)
    ensures page * 9 >= n ==> page == PageCount(n)
  {
  }

  /** Page p starts at entry `start`. */
  lemma PageTraceAt(es: seq<Entry>, p: nat, start: nat, cw: real, ch: real, env: Env)
    requires start == p * 9 && start < |es|
    ensures PageTrace(es, p, cw, ch, env) == CellsTrace(es, start, Min(start + 9, |es|), cw, ch, env) + [ShowPage]
  {
  }

  /** Entry `idx` drawn in row `row` and column `col` of page p, after the
      cells before it on that page. */
  method PlaceCell(es: seq<Entry>, start: nat, idx: nat, ghost p: nat, row: nat, col: nat, cells: seq<DrawEvent>,
                   cw: real, ch: real, env: Env)
    returns (cells': seq<DrawEvent>)
    requires start == p * 9 && row < 3 && col < 3 && idx == start + row * 3 + col && idx < |es|
    requires cells == CellsTrace(es, start, idx, cw, ch, env)
    ensures cells' == CellsTrace(es, start, idx + 1, cw, ch, env)
  {
    SlotUnique(idx, Slot(p, row, col));
    var cell := DrawCell(es[idx], row, col, cw, ch, env);
    cells' := cells + cell;
  }

  /** One turn of the row loop: the column loop over row `row` of page p,
      which stops as soon as the entries run out. */
  method DrawRow(es: seq<Entry>, start: nat, ghost p: nat, row: nat, idx: nat, cells: seq<DrawEvent>,
                 cw: real, ch: real, env: Env)
    returns (cells': seq<DrawEvent>, idx': nat)
    requires start == p * 9 && start < |es| && row < 3
    requires idx == Min(start + row * 3, |es|)
    requires cells == CellsTrace(es, start, idx, cw, ch, env)
    ensures idx' == Min(start + row * 3 + 3, |es|)
    ensures cells' == CellsTrace(es, start, idx', cw, ch, env)
  {
    cells', idx' := cells, idx;
    for col := 0 to 3
      invariant idx' == Min(start + row * 3 + col, |es|)
      invariant cells' == CellsTrace(es, start, idx', cw, ch, env)
    {
      if idx' >= |es| {
        break;
      }
      cells' := PlaceCell(es, start, idx', p, row, col, cells', cw, ch, env);
      idx' := idx' + 1;
    }
  }

  /** One turn of the page loop, starting at entry `start` on page p: the
      three rows, the later ones left empty when the boosters run out;
      then `showPage`. */
  method DrawPage(es: seq<Entry>, start: nat, ghost p: nat, cw: real, ch: real, env: Env)
    returns (page: seq<DrawEvent>, next: nat)
    requires start == p * 9 && start < |es|
    ensures next == Min(start + 9, |es|)
    ensures page == PageTrace(es, p, cw, ch, env)
  {
    var cells := [];
    next := start;
    for row := 0 to 3
      invariant next == Min(start + row * 3, |es|)
      invariant cells == CellsTrace(es, start, next, cw, ch, env)
    {
      cells, next := DrawRow(es, start, p, row, next, cells, cw, ch, env);
    }
    PageTraceAt(es, p, start, cw, ch, env);
    page := cells + [ShowPage];
  }

  /** The page loop of `generate_pdf`: pages of nine cells, each closed by
      `showPage`, until every entry has had its cell. */
  method DrawPages(es: seq<Entry>, cw: real, ch: real, env: Env) returns (events: seq<DrawEvent>)
    ensures events == Document(es, cw, ch, env)
  {
    events := [];
    var idx := 0;
    ghost var p := 0;
    while idx < |es|
      invariant p <= PageCount(|es|)
      invariant idx == Min(p * 9, |es|)
      invariant events == DocPages(es, p, cw, ch, env)
    {
      PageStep(p, |es|);
      var page;
      page, idx := DrawPage(es, idx, p, cw, ch, env);
      events := events + page;
      p := p + 1;
    }
    PageStep(p, |es|);
  }

  /** `generate_pdf` up to `save`, for cards `widthMm` by `heightMm`
      millimetres. */
  method GeneratePdf(bs: seq<Booster>, widthMm: real, heightMm: real, env: Env, onDisk: string -> bool)
    returns (events: seq<DrawEvent>)
    ensures events == Document(Entries(bs, onDisk), MmToPoints(widthMm), MmToPoints(heightMm), env)
  {
    var cw := MmToPoints(widthMm);
    var ch := MmToPoints(heightMm);
    var es := PrepareAll(bs, onDisk);
    events := DrawPages(es, cw, ch, env);
  }

  /** Cell i of the sheet is booster i's, in the frame of its slot: its
      card when it has cards, nothing otherwise. */
  lemma CellIsBooster(bs: seq<Booster>, onDisk: string -> bool, i: nat, cw: real, ch: real, env: Env)
    requires i < |bs|
    ensures var s := SlotOf(i);
      CellTrace(Entries(bs, onDisk), i, cw, ch, env) == BoosterTrace(bs[i], CellFrame(cw, ch, s.row, s.col), env, onDisk)
  {
    EntriesAt(bs, onDisk, i);
  }

  lemma EntryOnePage(e: Entry, f: Frame, env: Env)
    ensures OnePage(EntryTrace(e, f, env))
  {
    if e.Filled? {
      ListOnePage(e.lines, |e.lines|, f, env);
      OnePageAppend(Header(e.id, e.bg, f, env), ListTrace(e.lines, |e.lines|, f, env));
    }
  }

  lemma {:induction false} CellsOnePage(es: seq<Entry>, lo: nat, hi: nat, cw: real, ch: real, env: Env)
    requires lo <= hi <= |es|
    ensures OnePage(CellsTrace(es, lo, hi, cw, ch, env))
    decreases hi
  {
    if hi > lo {
      CellsOnePage(es, lo, hi - 1, cw, ch, env);
      var s := SlotOf(hi - 1);
      EntryOnePage(es[hi - 1], CellFrame(cw, ch, s.row, s.col), env);
      OnePageAppend(CellsTrace(es, lo, hi - 1, cw, ch, env), CellTrace(es, hi - 1, cw, ch, env));
    }
  }

  /** Consecutive runs of cells join up. */
  lemma {:induction false} CellsJoin(es: seq<Entry>, lo: nat, mid: nat, hi: nat, cw: real, ch: real, env: Env)
    requires lo <= mid <= hi <= |es|
    ensures CellsTrace(es, lo, mid, cw, ch, env) + CellsTrace(es, mid, hi, cw, ch, env) == CellsTrace(es, lo, hi, cw, ch, env)
    decreases hi
  {
    if hi > mid {
      CellsJoin(es, lo, mid, hi - 1, cw, ch, env);
    }
  }

  /** Page p - 1 of a document that has p pages or more: where it starts
      and ends, and that it is drawn on one page and then closed. */
  lemma LastPage(es: seq<Entry>, p: nat, cw: real, ch: real, env: Env)
    requires 0 < p <= PageCount(|es|)
    ensures (p - 1) * 9 < |es| && Min((p - 1) * 9, |es|) == (p - 1) * 9 && Min(p * 9, |es|) == Min((p - 1) * 9 + 9, |es|)
    ensures DocPages(es, p, cw, ch, env) == DocPages(es, p - 1, cw, ch, env) + (CellsTrace(es, (p - 1) * 9, Min(p * 9, |es|), cw, ch, env) + [ShowPage])
    ensures OnePage(CellsTrace(es, (p - 1) * 9, Min(p * 9, |es|), cw, ch, env))
  {
    CellsOnePage(es, (p - 1) * 9, Min(p * 9, |es|), cw, ch, env);
  }

  /** After p pages: one `showPage` per page. */
  lemma {:induction false} DocPagesBreaks(es: seq<Entry>, p: nat, cw: real, ch: real, env: Env)
    requires p <= PageCount(|es|)
    ensures PageBreaks(DocPages(es, p, cw, ch, env)) == p
  {
    if p > 0 {
      DocPagesBreaks(es, p - 1, cw, ch, env);
      LastPage(es, p, cw, ch, env);
      var cells := CellsTrace(es, (p - 1) * 9, Min(p * 9, |es|), cw, ch, env);
      OnePageNoBreaks(cells);
      PageBreaksAppend(cells, [ShowPage]);
      assert PageBreaks([ShowPage]) == 1 by {
        assert [ShowPage][..0] == [];
      }
      assert PageBreaks(cells + [ShowPage]) == 1;
      PageBreaksAppend(DocPages(es, p - 1, cw, ch, env), cells + [ShowPage]);
    }
  }

  /** After p pages, page breaks aside: the cells of every entry so far, in
      order. */
  lemma {:induction false} DocPagesContent(es: seq<Entry>, p: nat, cw: real, ch: real, env: Env)
    requires p <= PageCount(|es|)
    ensures Content(DocPages(es, p, cw, ch, env)) == CellsTrace(es, 0, Min(p * 9, |es|), cw, ch, env)
  {
    if p > 0 {
      DocPagesContent(es, p - 1, cw, ch, env);
      LastPage(es, p, cw, ch, env);
      var start := (p - 1) * 9;
      var end := Min(p * 9, |es|);
      ContentClosePage(DocPages(es, p - 1, cw, ch, env), CellsTrace(es, start, end, cw, ch, env));
      CellsJoin(es, 0, start, end, cw, ch, env);
    }
  }

  /** n entries take ceil(n / 9) pages, each closed by `showPage`; no
      entries, no pages at all; and, page breaks aside, the document is
      every entry's cell, in order, each in the frame of its slot. */
  lemma DocumentShape(es: seq<Entry>, cw: real, ch: real, env: Env)
    ensures PageBreaks(Document(es, cw, ch, env)) == (|es| + 8) / 9
    ensures |es| == 0 ==> Document(es, cw, ch, env) == []
    ensures Content(Document(es, cw, ch, env)) == CellsTrace(es, 0, |es|, cw, ch, env)
  {
    DocPagesBreaks(es, PageCount(|es|), cw, ch, env);
    DocPagesContent(es, PageCount(|es|), cw, ch, env);
  }

  /** Ten boosters fill one page and start a second, the tenth booster in
      the first row and column of page two. */
  lemma TenBoosters()
    ensures PageCount(10) == 2
    ensures SlotOf(8) == Slot(0, 2, 2) && SlotOf(9) == Slot(1, 0, 0)
  {
    SlotUnique(8, Slot(0, 2, 2));
    SlotUnique(9, Slot(1, 0, 0));
  }

  /** A booster without cards still takes its cell: the booster after it
      goes into the next column. */
  lemma BlankKeepsCell(e: Entry, cw: real, ch: real, env: Env)
    ensures Document([Blank, e], cw, ch, env) == EntryTrace(e, CellFrame(cw, ch, 0, 1), env) + [ShowPage]
  {
    var es := [Blank, e];
    SlotUnique(1, Slot(0, 0, 1));
    assert PageCount(|es|) == 1 && Min(0 * 9 + 9, |es|) == 2;
    assert CellsTrace(es, 0, 1, cw, ch, env) == [] by {
      assert CellTrace(es, 0, cw, ch, env) == [];
    }
    assert CellsTrace(es, 0, 2, cw, ch, env) == EntryTrace(e, CellFrame(cw, ch, 0, 1), env);
    assert DocPages(es, 1, cw, ch, env) == [] + PageTrace(es, 0, cw, ch, env);
  }
}
