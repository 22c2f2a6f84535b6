/** Drawing a mana-cost string such as "{2}{W}" or "{1}{R} // {2}{G}" as a
    row of icons and text fallbacks, and measuring the width it takes. */
module ManaCost {
  import opened Strings
  import opened Canvas
  import opened Wrappers

  /** The symbols whose icon files are looked for, in lookup order. */
  const ManaSymbols: seq<string> := ["W", "U", "B", "R", "G", "C"]

  const Padding: real := 2.0
  const IconSize: real := FontSize
  const TrailingGap: real := 4.0
  const PartSeparator: string := " // "
  const SeparatorText: string := "//"
  const TokenSeparator: string := "}{"
  const Braces: set<char> := {'{', '}'}

  /** What the drawing depends on besides the cost string: the symbols that
      have an icon, and the font metrics. */
  datatype Env = Env(icons: set<string>, metrics: Metrics)

  /** Which of the mana symbols get an icon, given which icon files exist;
      the icon map's keys follow the lookup order. */
  method IconKeys(present: string -> bool) returns (keys: seq<string>)
    ensures forall k :: 0 <= k < |keys| ==> keys[k] in ManaSymbols && present(keys[k])
    ensures forall s :: s in ManaSymbols && present(s) ==> s in keys
    ensures forall i, j :: 0 <= i < j < |keys| ==> keys[i] != keys[j]
  {
    keys := [];
    for n := 0 to |ManaSymbols|
      invariant forall k :: 0 <= k < |keys| ==> keys[k] in ManaSymbols[..n] && present(keys[k])
      invariant forall m :: 0 <= m < n && present(ManaSymbols[m]) ==> ManaSymbols[m] in keys
      invariant forall i, j :: 0 <= i < j < |keys| ==> keys[i] != keys[j]
    {
      if present(ManaSymbols[n]) {
        keys := keys + [ManaSymbols[n]];
      }
    }
  }

  /** The environment `load_mana_icons` sets up for drawing: a symbol is
      found in the icon map exactly when it is one of the six mana symbols
      and its icon file exists. */
  method LoadIcons(present: string -> bool, metrics: Metrics) returns (env: Env)
    ensures forall s :: s in env.icons <==> s in ManaSymbols && present(s)
    ensures env.metrics == metrics
  {
    var keys := IconKeys(present);
    var icons := set k | k in keys;
    env := Env(icons, metrics);
  }

  /** The symbol tokens of one cost segment: none unless it contains '{';
      otherwise the segment with outer braces stripped, cut at every "}{". */
  function Tokenise(s: string): seq<string> {
    if '{' in s then Split(Strip(s, Braces), TokenSeparator) else []
  }

  /** Tokenising is purely syntactic: a segment without '{' has no tokens;
      otherwise the tokens joined back with "}{" give the brace-stripped
      segment, and no token contains "}{". */
  lemma TokeniseParts(s: string)
    ensures '{' !in s <==> Tokenise(s) == []
    ensures '{' in s ==> Join(Tokenise(s), TokenSeparator) == Strip(s, Braces)
    ensures forall k :: 0 <= k < |Tokenise(s)| ==> !Contains(Tokenise(s)[k], TokenSeparator)
  {
    if '{' in s {
      JoinSplit(Strip(s, Braces), TokenSeparator);
    }
  }

  /** The upper-cased tokens, which are what is looked up and drawn. */
  function Labels(toks: seq<string>): (us: seq<string>)
    ensures |us| == |toks|
  {
    if |toks| == 0 then [] else [Upper(toks[0])] + Labels(toks[1..])
  }

  lemma {:induction false} LabelsAt(toks: seq<string>)
    ensures forall k :: 0 <= k < |toks| ==> Labels(toks)[k] == Upper(toks[k])
  {
    if |toks| > 0 {
      LabelsAt(toks[1..]);
      assert forall k :: 1 <= k < |toks| ==> toks[1..][k - 1] == toks[k];
    }
  }

  /** The drawing call for one upper-cased token at cursor (x, y): its
      icon, lifted to y - 1, when there is one, else the token as text. */
  function Glyph(u: string, x: real, y: real, env: Env): (e: DrawEvent)
    ensures EventX(e) == x
  {
    if u in env.icons then Icon(u, x, y - 1.0, IconSize) else Text(Helvetica, u, x, y)
  }

  /** How far the cursor moves after drawing one upper-cased token. */
  function Advance(u: string, env: Env): (a: real)
    ensures a >= Padding
  {
    if u in env.icons then IconSize + Padding else env.metrics.body(u) + Padding
  }

  /** Sum of the advances of the first `k` tokens. */
  function AdvanceSum(toks: seq<string>, k: nat, env: Env): real
    requires k <= |toks|
  {
    if k == 0 then 0.0 else AdvanceSum(toks, k - 1, env) + Advance(toks[k - 1], env)
  }

  /** The glyphs of a token sequence: the first at the cursor, the rest
      after moving the cursor by the first token's advance. */
  function SegmentTrace(toks: seq<string>, x: real, y: real, env: Env): (t: seq<DrawEvent>)
    ensures |t| == |toks|
  {
    if |toks| == 0 then []
    else [Glyph(toks[0], x, y, env)] + SegmentTrace(toks[1..], x + Advance(toks[0], env), y, env)
  }

  /** Width a token row reports: all advances less one trailing padding. */
  function TokensWidth(toks: seq<string>, env: Env): real {
    AdvanceSum(toks, |toks|, env) - Padding
  }

  /** Width a segment reports. */
  function SegmentWidth(s: string, env: Env): real {
    TokensWidth(Labels(Tokenise(s)), env)
  }

  /** The loop of `draw_mana_cost_segment` over the upper-cased tokens:
      draws them left to right, moving a cursor offset, and returns the
      width, the final offset less one padding. */
  method DrawLabels(us: seq<string>, x: real, y: real, env: Env) returns (events: seq<DrawEvent>, width: real)
    ensures events == SegmentTrace(us, x, y, env)
    ensures width == TokensWidth(us, env)
  {
    var offset := 0.0;
    events := [];
    ghost var t := SegmentTrace(us, x, y, env);
    for i := 0 to |us|
      invariant offset == AdvanceSum(us, i, env)
      invariant events == t[..i]
    {
      GlyphAt(us, x, y, env, i);
      assert t[..i + 1] == t[..i] + [t[i]];
      events := events + [Glyph(us[i], x + offset, y, env)];
      offset := offset + Advance(us[i], env);
    }
    assert t[..|us|] == t;
    width := offset - Padding;
  }

  /** `draw_mana_cost_segment`: tokenises the segment, upper-cases each
      token, and draws the result. */
  method DrawSegment(s: string, x: real, y: real, env: Env) returns (events: seq<DrawEvent>, width: real)
    ensures events == SegmentTrace(Labels(Tokenise(s)), x, y, env)
    ensures width == SegmentWidth(s, env)
  {
    events, width := DrawLabels(Labels(Tokenise(s)), x, y, env);
  }

  /** A segment without '{' draws nothing and still takes back one padding:
      its width is -2, not 0. */
  lemma EmptySegment(s: string, x: real, y: real, env: Env)
    requires '{' !in s
    ensures SegmentTrace(Labels(Tokenise(s)), x, y, env) == []
    ensures SegmentWidth(s, env) == -Padding
  {
  }

  /** Moving the first token's advance out of the sum. */
  lemma {:induction false} AdvanceSumShift(toks: seq<string>, j: nat, env: Env)
    requires 0 < j <= |toks|
    ensures Advance(toks[0], env) + AdvanceSum(toks[1..], j - 1, env) == AdvanceSum(toks, j, env)
  {
    if j > 1 {
      AdvanceSumShift(toks, j - 1, env);
    }
  }

  /** Closed form of the segment trace: glyph k is token k drawn at the
      cursor plus the advances of the tokens before it. */
  lemma {:induction false} GlyphAt(toks: seq<string>, x: real, y: real, env: Env, k: nat)
    requires k < |toks|
    ensures SegmentTrace(toks, x, y, env)[k] == Glyph(toks[k], x + AdvanceSum(toks, k, env), y, env)
  {
    if k > 0 {
      GlyphAt(toks[1..], x + Advance(toks[0], env), y, env, k - 1);
      AdvanceSumShift(toks, k, env);
      assert toks[1..][k - 1] == toks[k];
    }
  }

  /** Token k of a segment that has an icon: a 10-point icon at the
      cursor, lifted to y - 1; the cursor then moves 12. */
  lemma IconPlacement(toks: seq<string>, x: real, y: real, env: Env, k: nat)
    requires k < |toks| && toks[k] in env.icons
    ensures SegmentTrace(toks, x, y, env)[k] == Icon(toks[k], x + AdvanceSum(toks, k, env), y - 1.0, 10.0)
    ensures AdvanceSum(toks, k + 1, env) == AdvanceSum(toks, k, env) + 12.0
  {
    GlyphAt(toks, x, y, env, k);
  }

  /** Token k of a segment without an icon: the token as text at the
      cursor on the baseline; the cursor then moves its width plus 2. */
  lemma TextPlacement(toks: seq<string>, x: real, y: real, env: Env, k: nat)
    requires k < |toks| && toks[k] !in env.icons
    ensures SegmentTrace(toks, x, y, env)[k] == Text(Helvetica, toks[k], x + AdvanceSum(toks, k, env), y)
    ensures AdvanceSum(toks, k + 1, env) == AdvanceSum(toks, k, env) + env.metrics.body(toks[k]) + 2.0
  {
    GlyphAt(toks, x, y, env, k);
  }

  /** Each token's advance is at least the padding, so the cursor grows by
      at least the padding per token. */
  lemma {:induction false} AdvanceSumGrows(toks: seq<string>, i: nat, j: nat, env: Env)
    requires i <= j <= |toks|
    ensures AdvanceSum(toks, j, env) >= AdvanceSum(toks, i, env) + Padding * (j - i) as real
    decreases j
  {
    if i < j {
      AdvanceSumGrows(toks, i, j - 1, env);
    }
  }

  /** Glyph j lies at least 2 * (j - i) points right of glyph i, and the
      segment's width reaches exactly to the end of its last glyph. */
  lemma GlyphsSpaced(toks: seq<string>, x: real, y: real, env: Env, i: nat, j: nat)
    requires i < j < |toks|
    ensures EventX(SegmentTrace(toks, x, y, env)[j]) >= EventX(SegmentTrace(toks, x, y, env)[i]) + Padding * (j - i) as real
    ensures var last := |toks| - 1;
      AdvanceSum(toks, |toks|, env) - Padding == EventX(SegmentTrace(toks, x, y, env)[last]) - x + Advance(toks[last], env) - Padding
  {
    GlyphAt(toks, x, y, env, i);
    GlyphAt(toks, x, y, env, j);
    GlyphAt(toks, x, y, env, |toks| - 1);
    AdvanceSumGrows(toks, i, j, env);
  }

  /** Two symbols that both have icons, such as "{W}{U}" with the W and U
      icons loaded: two icon widths plus one padding, 22 points, with the
      second icon 12 points right of the first. */
  lemma TwoIconsWidth(a: char, b: char, x: real, y: real, env: Env)
    requires a !in Braces && b !in Braces
    requires [UpperChar(a)] in env.icons && [UpperChar(b)] in env.icons
    ensures SegmentWidth(['{', a, '}', '{', b, '}'], env) == 22.0
    ensures SegmentTrace(Labels(Tokenise(['{', a, '}', '{', b, '}'])), x, y, env)
         == [Icon([UpperChar(a)], x, y - 1.0, 10.0), Icon([UpperChar(b)], x + 12.0, y - 1.0, 10.0)]
  {
    TwoLabels(a, b);
    IconPair([UpperChar(a)], [UpperChar(b)], x, y, env);
  }

  /** "{a}{b}" gives the labels `a` and `b` upper-cased. */
  lemma TwoLabels(a: char, b: char)
    requires a !in Braces && b !in Braces
    ensures Labels(Tokenise(['{', a, '}', '{', b, '}'])) == [[UpperChar(a)], [UpperChar(b)]]
  {
    TwoTokens(a, b);
    assert Upper([a]) == [UpperChar(a)];
    assert Upper([b]) == [UpperChar(b)];
    assert [[a], [b]][1..] == [[b]];
  }

  /** Two labels with icons: the icons 12 points apart, 22 points in all. */
  lemma IconPair(u: string, v: string, x: real, y: real, env: Env)
    requires u in env.icons && v in env.icons
    ensures TokensWidth([u, v], env) == 22.0
    ensures SegmentTrace([u, v], x, y, env) == [Icon(u, x, y - 1.0, 10.0), Icon(v, x + 12.0, y - 1.0, 10.0)]
  {
    assert AdvanceSum([u, v], 1, env) == 12.0;
    assert [u, v][1..] == [v];
  }

  /** A lower-case symbol is looked up upper-cased, so "{w}" draws the W
      icon when there is one. */
  lemma LowerCaseSymbol(a: char, x: real, y: real, env: Env)
    requires 'a' <= a <= 'z' && [UpperChar(a)] in env.icons
    ensures SegmentTrace(Labels(Tokenise(['{', a, '}'])), x, y, env) == [Icon([UpperChar(a)], x, y - 1.0, 10.0)]
    ensures SegmentWidth(['{', a, '}'], env) == IconSize
  {
    OneLabel(a);
    var u := [UpperChar(a)];
    assert AdvanceSum([u], 1, env) == IconSize + Padding;
  }

  /** "{a}" for a symbol character gives the one label `a` upper-cased. */
  lemma OneLabel(a: char)
    requires a !in Braces
    ensures Labels(Tokenise(['{', a, '}'])) == [[UpperChar(a)]]
  {
    OneToken(a);
    assert Upper([a]) == [UpperChar(a)];
    assert Labels([[a]]) == [[UpperChar(a)]];
  }

  /** "{2}{W}" gives the tokens "2" and "W"; a hybrid "{W/U}" is one token. */
  lemma TokeniseExamples()
    ensures Tokenise("{2}{W}") == ["2", "W"]
    ensures Tokenise("{W}{U}") == ["W", "U"]
    ensures Tokenise("{W/U}") == ["W/U"]
  {
    TwoTokens('2', 'W');
    TwoTokens('W', 'U');
    HybridToken();
  }

  lemma HybridToken()
    ensures Tokenise("{W/U}") == ["W/U"]
  {
    var s := "{W/U}";
    var l := "W/U}";
    var m := "W/U";
    assert s[1..] == l;
    assert TrimLeft(s, Braces) == l;
    assert l[..3] == m;
    assert TrimRight(l, Braces) == TrimRight(m, Braces) == m;
    assert m[0..2] != TokenSeparator by { assert m[0..2][0] == 'W'; }
    assert m[1..3] != TokenSeparator by { assert m[1..3][0] == '/'; }
    assert FindFrom(m, TokenSeparator, 0) == FindFrom(m, TokenSeparator, 1) == None;
  }

  /** "{a}" for a symbol character is the one-character token. */
  lemma OneToken(a: char)
    requires a !in Braces
    ensures Tokenise(['{', a, '}']) == [[a]]
  {
    var s := ['{', a, '}'];
    assert s[1..] == [a, '}'];
    assert TrimLeft(s, Braces) == [a, '}'];
    assert [a, '}'][..1] == [a];
    assert TrimRight([a, '}'], Braces) == [a];
    assert Find([a], TokenSeparator) == None;
  }

  /** "{a}{b}" for two symbol characters is the two one-character tokens. */
  lemma TwoTokens(a: char, b: char)
    requires a !in Braces && b !in Braces
    ensures Tokenise(['{', a, '}', '{', b, '}']) == [[a], [b]]
  {
    StripTwo(a, b);
    SplitTwo(a, b);
  }

  lemma StripTwo(a: char, b: char)
    requires a !in Braces && b !in Braces
    ensures Strip(['{', a, '}', '{', b, '}'], Braces) == [a, '}', '{', b]
  {
    var s := ['{', a, '}', '{', b, '}'];
    var l := [a, '}', '{', b, '}'];
    assert s[1..] == l;
    assert TrimLeft(s, Braces) == l;
    assert l[..4] == [a, '}', '{', b];
    assert TrimRight(l, Braces) == TrimRight([a, '}', '{', b], Braces) == [a, '}', '{', b];
  }

  lemma SplitTwo(a: char, b: char)
    requires a !in Braces && b !in Braces
    ensures Split([a, '}', '{', b], TokenSeparator) == [[a], [b]]
  {
    var inner := [a, '}', '{', b];
    assert inner[0..2] != TokenSeparator by { assert inner[0..2][0] == a; }
    assert inner[1..3] == TokenSeparator;
    assert FindFrom(inner, TokenSeparator, 0) == Some(1);
    assert inner[..1] == [a];
    assert inner[3..] == [b];
    assert Find([b], TokenSeparator) == None;
  }

  /** Cursor movement for the "//" drawn between two parts. */
  function SeparatorAdvance(env: Env): real {
    env.metrics.body(SeparatorText) + Padding
  }

  /** The upper-cased tokens of each part of a split cost, part by part. */
  function PartLabels(parts: seq<string>): (segs: seq<seq<string>>)
    ensures |segs| == |parts|
  {
    seq(|parts|, i requires 0 <= i < |parts| => Labels(Tokenise(parts[i])))
  }

  /** The trace of the tokenised parts of a split cost: each part's glyphs,
      then "//" at the cursor after every part but the last. */
  function PartsTrace(segs: seq<seq<string>>, x: real, y: real, env: Env): seq<DrawEvent> {
    if |segs| == 0 then []
    else
      var seg := SegmentTrace(segs[0], x, y, env);
      if |segs| == 1 then seg
      else
        var w := TokensWidth(segs[0], env);
        seg + [Text(Helvetica, SeparatorText, x + w, y)]
            + PartsTrace(segs[1..], x + w + SeparatorAdvance(env), y, env)
  }

  /** The cursor movement over all parts and the separators between them. */
  function PartsWidth(segs: seq<seq<string>>, env: Env): real {
    if |segs| == 0 then 0.0
    else if |segs| == 1 then TokensWidth(segs[0], env)
    else TokensWidth(segs[0], env) + SeparatorAdvance(env) + PartsWidth(segs[1..], env)
  }

  /** A whole mana cost as drawn: the upper-cased tokens of each of its
      " // "-separated parts. */
  function CostLabels(s: string): seq<seq<string>> {
    PartLabels(Split(s, PartSeparator))
  }

  /** Width reported for a cost with the given parts: the parts and
      separators, plus the trailing gap. */
  function CostWidth(segs: seq<seq<string>>, env: Env): real {
    PartsWidth(segs, env) + TrailingGap
  }

  /** Trace of a whole mana cost: its parts in order. */
  function FullTrace(s: string, x: real, y: real, env: Env): seq<DrawEvent> {
    PartsTrace(CostLabels(s), x, y, env)
  }

  /** Width a whole mana cost reports. */
  function FullWidth(s: string, env: Env): real {
    CostWidth(CostLabels(s), env)
  }

  /** The last part is drawn alone, and nothing is left after it. */
  lemma PartsTraceLast(segs: seq<seq<string>>, i: nat, x: real, x': real, y: real, env: Env)
    requires i == |segs| - 1
    ensures PartsTrace(segs[i..], x, y, env) == SegmentTrace(segs[i], x, y, env)
    ensures PartsWidth(segs[i..], env) == TokensWidth(segs[i], env)
    ensures PartsTrace(segs[i + 1..], x', y, env) == [] && PartsWidth(segs[i + 1..], env) == 0.0
  {
    assert segs[i..] == [segs[i]];
    assert segs[i + 1..] == [];
  }

  /** A part before the last is followed by "//" and the parts after it. */
  lemma PartsTraceMid(segs: seq<seq<string>>, i: nat, x: real, y: real, env: Env)
    requires i < |segs| - 1
    ensures var w := TokensWidth(segs[i], env);
      PartsTrace(segs[i..], x, y, env)
      == SegmentTrace(segs[i], x, y, env) + [Text(Helvetica, SeparatorText, x + w, y)]
         + PartsTrace(segs[i + 1..], x + w + SeparatorAdvance(env), y, env)
    ensures PartsWidth(segs[i..], env) == TokensWidth(segs[i], env) + SeparatorAdvance(env) + PartsWidth(segs[i + 1..], env)
  {
    assert segs[i..][0] == segs[i];
    assert segs[i..][1..] == segs[i + 1..];
  }

  /** What the turn of the parts loop for part i draws at cursor x: the
      part, then "//" after it unless it is the last part. */
  function Piece(segs: seq<seq<string>>, i: nat, x: real, y: real, env: Env): seq<DrawEvent>
    requires i < |segs|
  {
    SegmentTrace(segs[i], x, y, env)
      + (if i < |segs| - 1 then [Text(Helvetica, SeparatorText, x + TokensWidth(segs[i], env), y)] else [])
  }

  /** How far that turn moves the cursor. */
  function PieceWidth(segs: seq<seq<string>>, i: nat, env: Env): real
    requires i < |segs|
  {
    TokensWidth(segs[i], env) + (if i < |segs| - 1 then SeparatorAdvance(env) else 0.0)
  }

  /** The parts from i on are part i's piece, then the parts after it. */
  lemma PiecesStep(segs: seq<seq<string>>, i: nat, x: real, y: real, env: Env)
    requires i < |segs|
    ensures PartsTrace(segs[i..], x, y, env) == Piece(segs, i, x, y, env) + PartsTrace(segs[i + 1..], x + PieceWidth(segs, i, env), y, env)
    ensures PartsWidth(segs[i..], env) == PieceWidth(segs, i, env) + PartsWidth(segs[i + 1..], env)
  {
    if i < |segs| - 1 {
      PartsTraceMid(segs, i, x, y, env);
    } else {
      PartsTraceLast(segs, i, x, x + PieceWidth(segs, i, env), y, env);
    }
  }

  /** The invariant of the parts loop survives one turn: the trace half. */
  lemma PartsLoopStep(segs: seq<seq<string>>, i: nat, x: real, y: real, env: Env, events: seq<DrawEvent>, offset: real)
    requires i < |segs|
    requires events + PartsTrace(segs[i..], x + offset, y, env) == PartsTrace(segs, x, y, env)
    ensures events + Piece(segs, i, x + offset, y, env) + PartsTrace(segs[i + 1..], x + (offset + PieceWidth(segs, i, env)), y, env)
            == PartsTrace(segs, x, y, env)
  {
    PiecesStep(segs, i, x + offset, y, env);
    var piece := Piece(segs, i, x + offset, y, env);
    var rest := PartsTrace(segs[i + 1..], x + (offset + PieceWidth(segs, i, env)), y, env);
    assert x + offset + PieceWidth(segs, i, env) == x + (offset + PieceWidth(segs, i, env));
    assert PartsTrace(segs[i..], x + offset, y, env) == piece + rest;
    AppendAssoc(events, piece, rest);
  }

  /** The invariant of the parts loop survives one turn: the width half. */
  lemma PartsLoopWidth(segs: seq<seq<string>>, i: nat, env: Env, offset: real)
    requires i < |segs|
    requires offset + PartsWidth(segs[i..], env) == PartsWidth(segs, env)
    ensures offset + PieceWidth(segs, i, env) + PartsWidth(segs[i + 1..], env) == PartsWidth(segs, env)
  {
    PiecesStep(segs, i, 0.0, 0.0, env);
  }

  /** One turn of the loop of `draw_mana_cost_full`: draws part i at the
      cursor and, unless it is the last part, "//" right after it,
      reporting how far the cursor moves past both. */
  method DrawPart(segs: seq<seq<string>>, i: nat, x: real, y: real, env: Env) returns (piece: seq<DrawEvent>, advance: real)
    requires i < |segs|
    ensures piece == Piece(segs, i, x, y, env)
    ensures advance == PieceWidth(segs, i, env)
  {
    var w;
    piece, w := DrawLabels(segs[i], x, y, env);
    advance := w;
    if i < |segs| - 1 {
      var sepWidth := env.metrics.body(SeparatorText);
      piece := piece + [Text(Helvetica, SeparatorText, x + advance, y)];
      advance := advance + sepWidth + Padding;
    } else {
      assert piece + [] == piece;
    }
  }

  /** The loop of `draw_mana_cost_full` over the upper-cased tokens of each
      part. */
  method DrawParts(segs: seq<seq<string>>, x: real, y: real, env: Env) returns (events: seq<DrawEvent>, offset: real)
    ensures events == PartsTrace(segs, x, y, env)
    ensures offset == PartsWidth(segs, env)
  {
    offset := 0.0;
    events := [];
    for i := 0 to |segs|
      invariant events + PartsTrace(segs[i..], x + offset, y, env) == PartsTrace(segs, x, y, env)
      invariant offset + PartsWidth(segs[i..], env) == PartsWidth(segs, env)
    {
      PartsLoopStep(segs, i, x, y, env, events, offset);
      PartsLoopWidth(segs, i, env, offset);
      var piece, advance := DrawPart(segs, i, x + offset, y, env);
      events := events + piece;
      offset := offset + advance;
    }
    assert segs[|segs|..] == [];
  }

  /** `draw_mana_cost_full`: splits the cost at " // ", draws the parts,
      and adds the trailing gap to the width. */
  method DrawFull(s: string, x: real, y: real, env: Env) returns (events: seq<DrawEvent>, width: real)
    ensures events == FullTrace(s, x, y, env)
    ensures width == FullWidth(s, env)
  {
    var parts := Split(s, PartSeparator);
    events, width := DrawCost(PartLabels(parts), x, y, env);
  }

  /** The parts loop of `draw_mana_cost_full` and the trailing gap it adds,
      for a cost already cut into parts and tokens. */
  method DrawCost(segs: seq<seq<string>>, x: real, y: real, env: Env) returns (events: seq<DrawEvent>, width: real)
    ensures events == PartsTrace(segs, x, y, env)
    ensures width == CostWidth(segs, env)
  {
    var offset;
    events, offset := DrawParts(segs, x, y, env);
    width := offset + TrailingGap;
  }

  /** Sum of the widths the parts report. */
  function TokensWidthSum(segs: seq<seq<string>>, env: Env): real {
    if |segs| == 0 then 0.0 else TokensWidth(segs[0], env) + TokensWidthSum(segs[1..], env)
  }

  /** Total number of symbol tokens over all parts. */
  function TokenCount(segs: seq<seq<string>>): nat {
    if |segs| == 0 then 0 else |segs[0]| + TokenCount(segs[1..])
  }

  /** The parts' width is the sum of their widths plus one separator
      advance between each two parts. */
  lemma {:induction false} PartsWidthSum(segs: seq<seq<string>>, env: Env)
    requires |segs| >= 1
    ensures PartsWidth(segs, env) == TokensWidthSum(segs, env) + (|segs| - 1) as real * SeparatorAdvance(env)
  {
    if |segs| > 1 {
      PartsWidthSum(segs[1..], env);
    }
  }

  /** One drawing call per token, plus one "//" between each two parts. */
  lemma {:induction false} PartsTraceLength(segs: seq<seq<string>>, x: real, y: real, env: Env)
    requires |segs| >= 1
    ensures |PartsTrace(segs, x, y, env)| == TokenCount(segs) + |segs| - 1
  {
    if |segs| > 1 {
      PartsTraceLength(segs[1..], x + TokensWidth(segs[0], env) + SeparatorAdvance(env), y, env);
    }
  }

  /** No token of any part reads "//" once upper-cased. */
  predicate NoSlashToken(segs: seq<seq<string>>) {
    forall p, k :: 0 <= p < |segs| && 0 <= k < |segs[p]| ==> segs[p][k] != SeparatorText
  }

  /** A segment draws "//" only for a token that reads "//". */
  lemma {:induction false} SegmentDrawsNoSeparator(toks: seq<string>, x: real, y: real, env: Env)
    requires forall k :: 0 <= k < |toks| ==> toks[k] != SeparatorText
    ensures TextCount(SegmentTrace(toks, x, y, env), SeparatorText) == 0
  {
    if |toks| > 0 {
      SegmentDrawsNoSeparator(toks[1..], x + Advance(toks[0], env), y, env);
      TextCountAppend([Glyph(toks[0], x, y, env)], SegmentTrace(toks[1..], x + Advance(toks[0], env), y, env), SeparatorText);
      assert TextCount([Glyph(toks[0], x, y, env)], SeparatorText) == 0 by {
        assert [Glyph(toks[0], x, y, env)][..0] == [];
      }
    }
  }

  /** Dropping the first part keeps every token different from "//". */
  lemma NoSlashTail(segs: seq<seq<string>>)
    requires |segs| >= 1 && NoSlashToken(segs)
    ensures NoSlashToken(segs[1..])
  {
    forall p, k | 0 <= p < |segs[1..]| && 0 <= k < |segs[1..][p]|
      ensures segs[1..][p][k] != SeparatorText
    {
      assert segs[1..][p] == segs[p + 1];
    }
  }

  /** Counting "//" in a segment, then one separator, then the rest. */
  lemma SeparatorThenRest(seg: seq<DrawEvent>, sep: seq<DrawEvent>, rest: seq<DrawEvent>, n: nat)
    requires TextCount(seg, SeparatorText) == 0 && TextCount(rest, SeparatorText) == n
    requires |sep| == 1 && sep[0].Text? && sep[0].text == SeparatorText
    ensures TextCount(seg + sep + rest, SeparatorText) == n + 1
  {
    TextCountAppend(seg, sep, SeparatorText);
    TextCountAppend(seg + sep, rest, SeparatorText);
    assert sep[..0] == [];
  }

  /** `draw_mana_cost_full` draws exactly one "//" between consecutive
      parts and none elsewhere, provided no token is itself "//". */
  lemma {:induction false} SeparatorCount(segs: seq<seq<string>>, x: real, y: real, env: Env)
    requires |segs| >= 1 && NoSlashToken(segs)
    ensures TextCount(PartsTrace(segs, x, y, env), SeparatorText) == |segs| - 1
  {
    var seg := SegmentTrace(segs[0], x, y, env);
    SegmentDrawsNoSeparator(segs[0], x, y, env);
    if |segs| > 1 {
      var w := TokensWidth(segs[0], env);
      var sep := [Text(Helvetica, SeparatorText, x + w, y)];
      var rest := PartsTrace(segs[1..], x + w + SeparatorAdvance(env), y, env);
      assert PartsTrace(segs, x, y, env) == seg + sep + rest;
      NoSlashTail(segs);
      SeparatorCount(segs[1..], x + w + SeparatorAdvance(env), y, env);
      SeparatorThenRest(seg, sep, rest, |segs| - 2);
    } else {
      assert PartsTrace(segs, x, y, env) == seg;
    }
  }

  /** A drawing call sits on the line with baseline y: an icon of the icon
      size whose bottom edge is at y - 1, or body-font text on y. */
  predicate OnLine(e: DrawEvent, y: real) {
    (e.Icon? && e.y == y - 1.0 && e.size == IconSize) || (e.Text? && e.font == Helvetica && e.y == y)
  }

  predicate AllOnLine(t: seq<DrawEvent>, y: real) {
    forall k :: 0 <= k < |t| ==> OnLine(t[k], y)
  }

  lemma AllOnLineAppend(a: seq<DrawEvent>, b: seq<DrawEvent>, y: real)
    requires AllOnLine(a, y) && AllOnLine(b, y)
    ensures AllOnLine(a + b, y)
  {
    forall k | 0 <= k < |a + b| ensures OnLine((a + b)[k], y) {
      if k >= |a| {
        assert (a + b)[k] == b[k - |a|];
      }
    }
  }

  /** Every glyph of a segment sits on the segment's baseline. */
  lemma {:induction false} SegmentOnLine(us: seq<string>, x: real, y: real, env: Env)
    ensures AllOnLine(SegmentTrace(us, x, y, env), y)
  {
    if |us| > 0 {
      SegmentOnLine(us[1..], x + Advance(us[0], env), y, env);
      AllOnLineAppend([Glyph(us[0], x, y, env)], SegmentTrace(us[1..], x + Advance(us[0], env), y, env), y);
    }
  }

  /** Every glyph and separator of a split cost sits on one baseline. */
  lemma {:induction false} PartsOnLine(segs: seq<seq<string>>, x: real, y: real, env: Env)
    ensures AllOnLine(PartsTrace(segs, x, y, env), y)
  {
    if |segs| > 0 {
      SegmentOnLine(segs[0], x, y, env);
      if |segs| > 1 {
        var w := TokensWidth(segs[0], env);
        var x' := x + w + SeparatorAdvance(env);
        PartsOnLine(segs[1..], x', y, env);
        AllOnLineAppend(SegmentTrace(segs[0], x, y, env), [Text(Helvetica, SeparatorText, x + w, y)], y);
        AllOnLineAppend(SegmentTrace(segs[0], x, y, env) + [Text(Helvetica, SeparatorText, x + w, y)], PartsTrace(segs[1..], x', y, env), y);
      }
    }
  }

  /** Every call that draws a mana cost sits on the baseline it is drawn at. */
  lemma FullOnLine(s: string, x: real, y: real, env: Env)
    ensures AllOnLine(FullTrace(s, x, y, env), y)
  {
    PartsOnLine(CostLabels(s), x, y, env);
  }

  /** The two-part cost "{a} // {b}". */
  function TwoPartCost(a: char, b: char): string {
    ['{', a, '}'] + PartSeparator + ['{', b, '}']
  }

  /** "{a} // {b}" splits into the parts "{a}" and "{b}". */
  lemma SplitExample(a: char, b: char)
    ensures Split(TwoPartCost(a, b), PartSeparator) == [['{', a, '}'], ['{', b, '}']]
  {
    var s := TwoPartCost(a, b);
    assert s == ['{', a, '}', ' ', '/', '/', ' ', '{', b, '}'];
    assert PartSeparator[0] == ' ';
    assert s[0..4] != PartSeparator by { assert s[0..4][0] == '{'; }
    assert s[1..5] != PartSeparator by { assert s[1..5][1] == '}' && PartSeparator[1] == '/'; }
    assert s[2..6] != PartSeparator by { assert s[2..6][0] == '}'; }
    assert s[3..7] == PartSeparator;
    assert FindFrom(s, PartSeparator, 3) == Some(3);
    assert FindFrom(s, PartSeparator, 2) == Some(3);
    assert FindFrom(s, PartSeparator, 1) == Some(3);
    assert FindFrom(s, PartSeparator, 0) == Some(3);
    assert s[..3] == ['{', a, '}'];
    assert s[7..] == ['{', b, '}'];
    assert Find(['{', b, '}'], PartSeparator) == None;
  }

  lemma LabelsExample(a: char, b: char)
    requires a !in Braces && b !in Braces
    ensures PartLabels([['{', a, '}'], ['{', b, '}']]) == [[[UpperChar(a)]], [[UpperChar(b)]]]
  {
    OneLabel(a);
    OneLabel(b);
  }

  lemma PartsExample(u: string, v: string, x: real, y: real, env: Env)
    requires u in env.icons && v in env.icons
    ensures PartsTrace([[u], [v]], x, y, env)
         == [Icon(u, x, y - 1.0, 10.0), Text(Helvetica, "//", x + 10.0, y),
             Icon(v, x + 10.0 + SeparatorAdvance(env), y - 1.0, 10.0)]
    ensures PartsWidth([[u], [v]], env) == 20.0 + SeparatorAdvance(env)
  {
    var segs := [[u], [v]];
    assert TokensWidth([u], env) == 10.0 by {
      assert AdvanceSum([u], 1, env) == 12.0;
    }
    assert TokensWidth([v], env) == 10.0 by {
      assert AdvanceSum([v], 1, env) == 12.0;
    }
    assert segs[1..] == [[v]];
  }

  /** A split cost such as "{W} // {U}" with both icons: the first icon,
      then "//" right after it, then the second icon one separator advance
      further; the width adds the trailing gap. */
  lemma SplitCostExample(a: char, b: char, x: real, y: real, env: Env)
    requires a !in Braces && b !in Braces
    requires [UpperChar(a)] in env.icons && [UpperChar(b)] in env.icons
    ensures FullTrace(TwoPartCost(a, b), x, y, env)
         == [Icon([UpperChar(a)], x, y - 1.0, 10.0), Text(Helvetica, "//", x + 10.0, y),
             Icon([UpperChar(b)], x + 10.0 + SeparatorAdvance(env), y - 1.0, 10.0)]
    ensures FullWidth(TwoPartCost(a, b), env) == 20.0 + SeparatorAdvance(env) + TrailingGap
  {
    SplitExample(a, b);
    LabelsExample(a, b);
    PartsExample([UpperChar(a)], [UpperChar(b)], x, y, env);
  }

  lemma SplitSeparatorOnly()
    ensures Split(PartSeparator, PartSeparator) == ["", ""]
  {
    var s := PartSeparator;
    assert s[0..4] == PartSeparator;
    assert FindFrom(s, PartSeparator, 0) == Some(0);
    assert s[..0] == "";
    assert s[4..] == "";
    assert Find("", PartSeparator) == None;
  }

  /** A cost that is only the separator has two empty parts, each
      reporting -2, so its "//" is drawn 2 points left of the cursor and
      the full width is one separator advance. */
  lemma SeparatorOnly(x: real, y: real, env: Env)
    ensures FullTrace(PartSeparator, x, y, env) == [Text(Helvetica, "//", x - 2.0, y)]
    ensures FullWidth(PartSeparator, env) == SeparatorAdvance(env)
  {
    SplitSeparatorOnly();
    var segs: seq<seq<string>> := [[], []];
    assert Tokenise("") == [];
    assert PartLabels(["", ""]) == segs;
    assert TokensWidth([], env) == -Padding;
    assert segs[1..] == [[]];
    assert PartsTrace(segs, x, y, env) == [Text(Helvetica, "//", x - 2.0, y)];
    assert PartsWidth(segs, env) == -Padding + SeparatorAdvance(env) - Padding;
  }
}
