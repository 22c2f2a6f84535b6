/** The drawing surface, modelled as the trace of drawing calls it receives.
    Font metrics are uninterpreted: a width function per font that is only
    known to be non-negative. */
module Canvas {

  /** A non-negative length in points. */
  type Width = r: real | 0.0 <= r

  /** `stringWidth` for the body font (Helvetica 10) and the title font
      (Helvetica-Bold 14). */
  datatype Metrics = Metrics(body: string -> Width, title: string -> Width)

  datatype Font = Helvetica | HelveticaBold

  const FontSize: real := 10.0

  datatype DrawEvent =
    /** A mana icon of edge `size` with its lower-left corner at (x, y). */
    | Icon(symbol: string, x: real, y: real, size: real)
    /** `drawString(x, y, text)` in the given font. */
    | Text(font: Font, text: string, x: real, y: real)
    /** The translucent whitesmoke rectangle behind the card list. */
    | Panel(x: real, y: real, w: real, h: real, alpha: real)
    /** A raster image file stretched over the given rectangle. */
    | Picture(path: string, x: real, y: real, w: real, h: real)
    /** `showPage`: the current page is finished. */
    | ShowPage

  /** The x coordinate of a drawing call (0 for a page break). */
  function EventX(e: DrawEvent): real {
    match e
    case Icon(_, x, _, _) => x
    case Text(_, _, x, _) => x
    case Panel(x, _, _, _, _) => x
    case Picture(_, x, _, _, _) => x
    case ShowPage => 0.0
  }

  lemma AppendAssoc<T>(a: seq<T>, b: seq<T>, c: seq<T>)
    ensures a + b + c == a + (b + c)
  {
  }

  /** Concatenation of a sequence of traces, in order. */
  function Flatten<T>(ss: seq<seq<T>>): seq<T> {
    if |ss| == 0 then [] else Flatten(ss[..|ss| - 1]) + ss[|ss| - 1]
  }

  lemma FlattenSnoc<T>(ss: seq<seq<T>>, i: nat)
    requires i < |ss|
    ensures Flatten(ss[..i + 1]) == Flatten(ss[..i]) + ss[i]
  {
    assert ss[..i + 1][..i] == ss[..i];
  }

  lemma {:induction false} FlattenAppend<T>(a: seq<seq<T>>, b: seq<seq<T>>)
    ensures Flatten(a + b) == Flatten(a) + Flatten(b)
    decreases |b|
  {
    if |b| == 0 {
      assert a + b == a;
    } else {
      var b' := b[..|b| - 1];
      assert (a + b)[..|a + b| - 1] == a + b';
      FlattenAppend(a, b');
    }
  }

  /** Number of `showPage` calls in a trace. */
  function PageBreaks(t: seq<DrawEvent>): nat {
    if |t| == 0 then 0 else PageBreaks(t[..|t| - 1]) + (if t[|t| - 1].ShowPage? then 1 else 0)
  }

  lemma {:induction false} PageBreaksAppend(a: seq<DrawEvent>, b: seq<DrawEvent>)
    ensures PageBreaks(a + b) == PageBreaks(a) + PageBreaks(b)
    decreases |b|
  {
    if |b| == 0 {
      assert a + b == a;
    } else {
      var b' := b[..|b| - 1];
      assert (a + b)[..|a + b| - 1] == a + b';
      PageBreaksAppend(a, b');
    }
  }

  /** A trace drawn on one page: no `showPage` in it. */
  predicate OnePage(t: seq<DrawEvent>) {
    forall k :: 0 <= k < |t| ==> !t[k].ShowPage?
  }

  lemma {:induction false} OnePageNoBreaks(t: seq<DrawEvent>)
    requires OnePage(t)
    ensures PageBreaks(t) == 0
    decreases |t|
  {
    if |t| > 0 {
      OnePageNoBreaks(t[..|t| - 1]);
    }
  }

  lemma OnePageAppend(a: seq<DrawEvent>, b: seq<DrawEvent>)
    requires OnePage(a) && OnePage(b)
    ensures OnePage(a + b)
  {
    forall k | 0 <= k < |a + b| ensures !(a + b)[k].ShowPage? {
      if k >= |a| {
        assert (a + b)[k] == b[k - |a|];
      }
    }
  }

  /** The trace with its page breaks taken out. */
  function Content(t: seq<DrawEvent>): (r: seq<DrawEvent>)
    ensures OnePage(r)
  {
    if |t| == 0 then []
    else if t[|t| - 1].ShowPage? then Content(t[..|t| - 1])
    else Content(t[..|t| - 1]) + [t[|t| - 1]]
  }

  lemma {:induction false} ContentAppend(a: seq<DrawEvent>, b: seq<DrawEvent>)
    ensures Content(a + b) == Content(a) + Content(b)
    decreases |b|
  {
    if |b| == 0 {
      assert a + b == a;
    } else {
      var b' := b[..|b| - 1];
      assert (a + b)[..|a + b| - 1] == a + b';
      ContentAppend(a, b');
    }
  }

  lemma {:induction false} ContentOfOnePage(t: seq<DrawEvent>)
    requires OnePage(t)
    ensures Content(t) == t
    decreases |t|
  {
    if |t| > 0 {
      ContentOfOnePage(t[..|t| - 1]);
    }
  }

  /** Closing a page of drawing calls adds exactly those calls to the
      content. */
  lemma ContentClosePage(prev: seq<DrawEvent>, cells: seq<DrawEvent>)
    requires OnePage(cells)
    ensures Content(prev + (cells + [ShowPage])) == Content(prev) + cells
  {
    ContentOfOnePage(cells);
    ContentAppend(cells, [ShowPage]);
    ContentAppend(prev, cells + [ShowPage]);
    assert Content([ShowPage]) == [];
  }

  /** Number of `drawString` calls that print exactly `s`. */
  function TextCount(t: seq<DrawEvent>, s: string): nat {
    if |t| == 0 then 0 else TextCount(t[..|t| - 1], s) + (if t[|t| - 1].Text? && t[|t| - 1].text == s then 1 else 0)
  }

  lemma {:induction false} TextCountAppend(a: seq<DrawEvent>, b: seq<DrawEvent>, s: string)
    ensures TextCount(a + b, s) == TextCount(a, s) + TextCount(b, s)
    decreases |b|
  {
    if |b| == 0 {
      assert a + b == a;
    } else {
      var b' := b[..|b| - 1];
      assert (a + b)[..|a + b| - 1] == a + b';
      TextCountAppend(a, b', s);
    }
  }
}
