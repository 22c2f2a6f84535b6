/** One booster's card on the sheet (`create_card`): the background image,
    a translucent panel inset from its edges, the centred booster name, and
    one line per card, its mana cost followed by its name. */
module CardSheet {
  import opened Wrappers
  import opened Canvas
  import opened Cards
  import opened ManaCost

  const ImageMargin: real := 7.0
  const TextMarginLeft: real := 10.0
  const TextMarginTop: real := 25.0
  /** Distance from the title's baseline down to the first card line. */
  const ListGap: real := 20.0
  const LineHeight: real := FontSize + 2.0
  const OverlayAlpha: real := 0.7
  const UnknownCard: string := "Unknown Card"

  /** The rectangle a card occupies: lower-left corner, width and height. */
  datatype Frame = Frame(x: real, y: real, w: real, h: real)

  /** What one card contributes to the list: the parts and tokens of its
      mana cost when it has a non-empty one, and the name to print. */
  datatype Line = Line(cost: Option<seq<seq<string>>>, name: string)

  /** The text a card line ends with: the card's name, or "Unknown Card". */
  function CardName(c: Card): string {
    c.name.GetOr(UnknownCard)
  }

  /** The mana cost drawn for a card; an absent cost reads as "". */
  function CardCost(c: Card): string {
    c.manaCost.GetOr("")
  }

  function ParseCard(c: Card): Line {
    Line(if CardCost(c) != "" then Some(CostLabels(CardCost(c))) else None, CardName(c))
  }

  function ParseCards(cards: seq<Card>): (ls: seq<Line>)
    ensures |ls| == |cards|
  {
    seq(|cards|, i requires 0 <= i < |cards| => ParseCard(cards[i]))
  }

  /** Background, panel and title, in drawing order. The background covers
      the whole card; the panel is the card shrunk by the image margin on
      every side; the title is centred, the gap between the card's left
      edge and the title equal to the gap between the title's end and the
      right edge. */
  function Header(id: string, bg: string, f: Frame, env: Env): (t: seq<DrawEvent>)
    ensures |t| == 3
    ensures t[0] == Picture(bg, f.x, f.y, f.w, f.h)
    ensures t[1].Panel? && t[1].alpha == OverlayAlpha
    ensures t[1].x - f.x == ImageMargin && (f.x + f.w) - (t[1].x + t[1].w) == ImageMargin
    ensures t[1].y - f.y == ImageMargin && (f.y + f.h) - (t[1].y + t[1].h) == ImageMargin
    ensures t[2].Text? && t[2].font == HelveticaBold && t[2].text == id && t[2].y == f.y + f.h - TextMarginTop
    ensures t[2].x - f.x == (f.x + f.w) - (t[2].x + env.metrics.title(id))
  {
    [Picture(bg, f.x, f.y, f.w, f.h),
     Panel(f.x + ImageMargin, f.y + ImageMargin, f.w - 2.0 * ImageMargin, f.h - 2.0 * ImageMargin, OverlayAlpha),
     Text(HelveticaBold, id, f.x + (f.w - env.metrics.title(id)) / 2.0, f.y + f.h - TextMarginTop)]
  }

  /** The baseline of card line i. */
  function Baseline(f: Frame, i: nat): real {
    f.y + f.h - TextMarginTop - ListGap - i as real * LineHeight
  }

  /** One card line on baseline y: the mana cost at the left text margin
      when there is one, then the name where the cost's width ends. The
      line always ends with the name on the baseline. */
  function LineTrace(l: Line, x: real, y: real, env: Env): (t: seq<DrawEvent>)
    ensures |t| >= 1 && t[|t| - 1].Text? && t[|t| - 1].text == l.name && t[|t| - 1].y == y
  {
    match l.cost
    case None => [Text(Helvetica, l.name, x + TextMarginLeft, y)]
    case Some(segs) =>
      PartsTrace(segs, x + TextMarginLeft, y, env) + [Text(Helvetica, l.name, x + TextMarginLeft + CostWidth(segs, env), y)]
  }

  /** The lines of the first k cards, each on its own baseline. */
  function ListTrace(ls: seq<Line>, k: nat, f: Frame, env: Env): seq<DrawEvent>
    requires k <= |ls|
  {
    if k == 0 then [] else ListTrace(ls, k - 1, f, env) + LineTrace(ls[k - 1], f.x, Baseline(f, k - 1), env)
  }

  /** The whole card. */
  function CardTrace(id: string, cards: seq<Card>, bg: string, f: Frame, env: Env): seq<DrawEvent> {
    Header(id, bg, f, env) + ListTrace(ParseCards(cards), |cards|, f, env)
  }

  /** One turn of the card loop of `create_card`: the mana cost, when the
      card has a non-empty one, then the name after it. */
  method DrawLine(l: Line, x: real, y: real, env: Env) returns (line: seq<DrawEvent>)
    ensures line == LineTrace(l, x, y, env)
  {
    var offset := 0.0;
    line := [];
    if l.cost.Some? {
      line, offset := DrawCost(l.cost.value, x + TextMarginLeft, y, env);
    }
    line := line + [Text(Helvetica, l.name, x + TextMarginLeft + offset, y)];
  }

  /** The card loop of `create_card`: one line per card, moving the
      baseline down one line height per card. */
  method DrawList(ls: seq<Line>, f: Frame, env: Env) returns (events: seq<DrawEvent>)
    ensures events == ListTrace(ls, |ls|, f, env)
  {
    events := [];
    var currentY := f.y + f.h - TextMarginTop - ListGap;
    for i := 0 to |ls|
      invariant currentY == Baseline(f, i)
      invariant events == ListTrace(ls, i, f, env)
    {
      var line := DrawLine(ls[i], f.x, currentY, env);
      events := events + line;
      currentY := currentY - LineHeight;
    }
  }

  /** `create_card`: the background, the panel, the centred title, then the
      card list. */
  method CreateCard(id: string, cards: seq<Card>, bg: string, f: Frame, env: Env) returns (events: seq<DrawEvent>)
    ensures events == CardTrace(id, cards, bg, f, env)
  {
    events := DrawCard(id, ParseCards(cards), bg, f, env);
  }

  /** The body of `create_card` once the cards' mana costs are split into
      parts and tokens. */
  method DrawCard(id: string, ls: seq<Line>, bg: string, f: Frame, env: Env) returns (events: seq<DrawEvent>)
    ensures events == Header(id, bg, f, env) + ListTrace(ls, |ls|, f, env)
  {
    events := Header(id, bg, f, env);
    var list := DrawList(ls, f, env);
    events := events + list;
  }

  /** A card's line is its mana cost drawn with `draw_mana_cost_full` at
      the left text margin, when the cost is not empty, followed by its
      name at the width that call reports; without a cost, the name alone
      at the margin. */
  function CardLine(c: Card, x: real, y: real, env: Env): (t: seq<DrawEvent>)
    ensures CardCost(c) != "" ==>
      t == FullTrace(CardCost(c), x + TextMarginLeft, y, env)
           + [Text(Helvetica, CardName(c), x + TextMarginLeft + FullWidth(CardCost(c), env), y)]
    ensures CardCost(c) == "" ==> t == [Text(Helvetica, CardName(c), x + TextMarginLeft, y)]
  {
    LineTrace(ParseCard(c), x, y, env)
  }

  /** Everything on a card line sits on that line's baseline. */
  lemma LineOnLine(l: Line, x: real, y: real, env: Env)
    ensures AllOnLine(LineTrace(l, x, y, env), y)
  {
    match l.cost
    case None =>
    case Some(segs) =>
      var offset := CostWidth(segs, env);
      PartsOnLine(segs, x + TextMarginLeft, y, env);
      AllOnLineAppend(PartsTrace(segs, x + TextMarginLeft, y, env), [Text(Helvetica, l.name, x + TextMarginLeft + offset, y)], y);
  }

  /** A card never breaks the page: its header and lines are all drawn
      on the page it starts on. */
  lemma {:induction false} ListOnePage(ls: seq<Line>, k: nat, f: Frame, env: Env)
    requires k <= |ls|
    ensures OnePage(ListTrace(ls, k, f, env))
  {
    if k > 0 {
      ListOnePage(ls, k - 1, f, env);
      LineOnLine(ls[k - 1], f.x, Baseline(f, k - 1), env);
      OnePageAppend(ListTrace(ls, k - 1, f, env), LineTrace(ls[k - 1], f.x, Baseline(f, k - 1), env));
    }
  }

  /** Line i placed on baseline i. */
  function Placed(ls: seq<Line>, f: Frame, env: Env): (ps: seq<seq<DrawEvent>>)
    ensures |ps| == |ls|
  {
    seq(|ls|, i requires 0 <= i < |ls| => LineTrace(ls[i], f.x, Baseline(f, i), env))
  }

  /** The card list is the card lines in card order, line i on baseline i
      and nothing in between. */
  lemma {:induction false} ListIsLines(ls: seq<Line>, k: nat, f: Frame, env: Env)
    requires k <= |ls|
    ensures ListTrace(ls, k, f, env) == Flatten(Placed(ls, f, env)[..k])
  {
    if k > 0 {
      ListIsLines(ls, k - 1, f, env);
      FlattenSnoc(Placed(ls, f, env), k - 1);
    }
  }
}
