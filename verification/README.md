# Cube list printer, modelled in Dafny

The cube list printer turns a spreadsheet of cube cards into a printable PDF sheet. There is one card per booster. Each card shows the booster's name over a picture of its most valuable card, and below that one line per card: the card's mana cost, drawn with mana-symbol icons, then its name.

This project models the two pure parts of the program and proves properties about them:

- **The data loader.**
  - Spreadsheet rows are grouped into boosters.
  - The Scryfall card list becomes a map by id.
  - Each card is enriched with its mana cost, image URIs and price.
- **The PDF layout.**
  - A mana-cost string is cut into parts and symbol tokens.
  - Tokens are drawn as icons or text, with a running cursor.
  - Each booster's card is laid out: background, translucent panel, centred title, card lines.
  - Cards are placed three by three on A4 pages, row by row, with one `showPage` per page.
  - The background picture is chosen.

The canvas is modelled as the sequence of drawing calls it receives (`Canvas.DrawEvent`). Font metrics are an uninterpreted width function with non-negative results. Coordinates and widths are exact reals.

Each Python loop is a Dafny `method` with loop invariants. Its `ensures` ties the result to a reference function, and lemmas about the reference functions state the properties.

Modules:

| file | module | models |
|---|---|---|
| wrappers.dfy | `Wrappers` | `Option`, `Result` |
| strings.dfy | `Strings` | `str.upper`, `find`, `split`, `join`, `strip` |
| decimal.dfy | `Decimal` | `float(text)` for decimal prices |
| canvas.dfy | `Canvas` | drawing calls, page breaks |
| cards.dfy | `Cards` | card and booster records |
| mana_cost.dfy | `ManaCost` | `draw_mana_cost_segment`, `draw_mana_cost_full`, icon keys of `load_mana_icons` |
| card_sheet.dfy | `CardSheet` | `create_card` |
| sheet_layout.dfy | `SheetLayout` | `mm_to_points`, `generate_pdf` |
| data_loader.dfy | `DataLoader` | `load_data` id map, `get_boosters_from_dataframe`, `enrich_boosters_with_scryfall_data` |

Some behaviours of the code are easy to get wrong. The model keeps them as written:

- A cost part without `{` draws nothing, but `draw_mana_cost_segment` still returns `-2`, not 0 (`ManaCost.EmptySegment`).
- A booster without cards takes its grid cell and leaves it blank; it is not skipped (`SheetLayout.BlankKeepsCell`).
- On a card line the mana cost is drawn first, and the name is drawn where the cost's width ends.
- The `break` when the boosters run out leaves only the column loop. The remaining rows break at once, and `showPage` still follows.

## Model

| member | source | states |
|---|---|---|
| ManaCost.IconKeys | cube_list_printer/pdf_generator.py:22-25 | the icon map's keys are exactly the symbols among W, U, B, R, G, C whose icon file exists, each once |
| ManaCost.LoadIcons | cube_list_printer/pdf_generator.py:18-32 | the drawing finds an icon for a symbol exactly when it is one of W, U, B, R, G, C and its icon file exists; the font metrics are passed through |
| ManaCost.TokeniseParts | cube_list_printer/pdf_generator.py:42 | a segment without `{` has no tokens; otherwise the tokens joined with `}{` give the segment with its outer braces stripped, and no token contains `}{` |
| ManaCost.TokeniseExamples | cube_list_printer/pdf_generator.py:42 | `{2}{W}` gives `2`, `W`; `{W}{U}` gives `W`, `U`; the hybrid `{W/U}` is one token |
| ManaCost.LabelsAt | cube_list_printer/pdf_generator.py:47-48 | the symbol looked up and drawn for token k is token k upper-cased |
| ManaCost.LowerCaseSymbol | cube_list_printer/pdf_generator.py:48-54 | `{w}` is looked up as `W` and draws that icon, width 10 |
| ManaCost.IconPlacement | cube_list_printer/pdf_generator.py:49-54 | a token with an icon is a 10-point icon at the cursor, lifted to y - 1, and the cursor moves 12 |
| ManaCost.TextPlacement | cube_list_printer/pdf_generator.py:55-60 | a token without an icon is drawn as text at the cursor on the baseline, and the cursor moves its width plus 2 |
| ManaCost.DrawLabels | cube_list_printer/pdf_generator.py:43-61 | the token loop draws the segment trace and returns the advances' sum less one padding |
| ManaCost.DrawSegment | cube_list_printer/pdf_generator.py:35-61 | `draw_mana_cost_segment` draws the upper-cased tokens and reports the segment width |
| ManaCost.EmptySegment | cube_list_printer/pdf_generator.py:42-61 | a segment without `{` draws nothing and reports -2 |
| ManaCost.GlyphsSpaced | cube_list_printer/pdf_generator.py:53-61 | glyph j lies at least 2·(j - i) right of glyph i; the width ends exactly at the end of the last glyph |
| ManaCost.TwoIconsWidth | cube_list_printer/pdf_generator.py:42-61 | `{a}{b}` with both icons draws two icons 12 apart and reports 22 |
| ManaCost.SplitExample | cube_list_printer/pdf_generator.py:71 | `{a} // {b}` splits into `{a}` and `{b}` |
| ManaCost.DrawPart | cube_list_printer/pdf_generator.py:75-81 | one turn of the parts loop: part i's glyphs from the cursor, then, when another part follows, `//` where the part's width ends; the cursor moves by the part's width, plus the `//` width and 2 when a part follows |
| ManaCost.DrawParts | cube_list_printer/pdf_generator.py:72-81 | the parts loop draws every part, with `//` after each part but the last, and returns the parts' width |
| ManaCost.DrawCost | cube_list_printer/pdf_generator.py:72-82 | the parts loop plus the trailing gap of 4 |
| ManaCost.DrawFull | cube_list_printer/pdf_generator.py:64-82 | `draw_mana_cost_full` splits at `" // "`, draws the parts and reports their width plus 4 |
| ManaCost.PartsWidthSum | cube_list_printer/pdf_generator.py:72-82 | the parts' width is the sum of the segment widths plus one `//` advance between each two parts |
| ManaCost.PartsTraceLength | cube_list_printer/pdf_generator.py:74-81 | one drawing call per token plus one `//` between each two parts |
| ManaCost.SeparatorCount | cube_list_printer/pdf_generator.py:76-80 | when no token reads `//`, the text `//` is drawn exactly once fewer than there are parts |
| ManaCost.FullOnLine | cube_list_printer/pdf_generator.py:53-80 | every call drawing a mana cost sits on its baseline: icons at y - 1, text at y |
| ManaCost.SplitCostExample | cube_list_printer/pdf_generator.py:71-82 | `{a} // {b}` with icons: icon, `//` right after it, second icon one separator advance later; width 20 plus that advance plus 4 |
| ManaCost.SeparatorOnly | cube_list_printer/pdf_generator.py:71-82 | the cost `" // "` alone has two empty parts and draws `//` 2 points left of the cursor |
| CardSheet.Header | cube_list_printer/pdf_generator.py:97-123 | the background covers the card; the panel is inset 7 on every side at alpha 0.7; the title is centred and 25 below the top |
| CardSheet.DrawLine | cube_list_printer/pdf_generator.py:131-140 | one card line: the cost when there is one, then the name after the cost's width |
| CardSheet.CardLine | cube_list_printer/pdf_generator.py:132-139 | a non-empty cost is drawn at x + 10 and the name after the full cost width; with no cost, the name alone at x + 10 |
| CardSheet.DrawList | cube_list_printer/pdf_generator.py:125-140 | the card loop draws line i on baseline y + height - 45 - 12i |
| CardSheet.ListIsLines | cube_list_printer/pdf_generator.py:127-140 | the card list is exactly the card lines, in card order, line i on baseline i |
| CardSheet.LineOnLine | cube_list_printer/pdf_generator.py:135-139 | everything on a card line sits on that line's baseline |
| CardSheet.ListOnePage | cube_list_printer/pdf_generator.py:131-140 | a card list never breaks the page |
| CardSheet.DrawCard | cube_list_printer/pdf_generator.py:96-140 | background, panel and title, then the card list |
| CardSheet.CreateCard | cube_list_printer/pdf_generator.py:85-140 | `create_card` draws the card header, then one line per card |
| SheetLayout.MmToPoints | cube_list_printer/pdf_generator.py:14-15 | millimetres times 72/25.4: p · 25.4 = mm · 72 |
| SheetLayout.PointsMmRoundTrip | cube_list_printer/pdf_generator.py:14-15 | converting to points and back is the identity, both ways |
| SheetLayout.SlotOf | cube_list_printer/pdf_generator.py:174-197 | booster i goes to a page, a row below 3 and a column below 3, with i = 9·page + 3·row + col |
| SheetLayout.SlotUnique | cube_list_printer/pdf_generator.py:174-197 | that slot is the only one: page i div 9, row (i mod 9) div 3, column i mod 3 |
| SheetLayout.CellsAbut | cube_list_printer/pdf_generator.py:158-167 | the first cell touches the left and top margins, and neighbouring cells touch |
| SheetLayout.PathJoin | cube_list_printer/image_handler.py:37 | `os.path.join` ends with the file name, and starts with the directory unless the name is absolute |
| SheetLayout.PlaceholderPath | cube_list_printer/image_handler.py:36-41 | the placeholder path ends in `<id>_placeholder.png` |
| SheetLayout.MaxPrefix | cube_list_printer/pdf_generator.py:184 | scanning `max` over a prefix keeps the first card of greatest value |
| SheetLayout.MostValuable | cube_list_printer/pdf_generator.py:184 | `max(cards, key=value)` picks the first card of greatest value, with a missing value counting as 0 |
| SheetLayout.FirstMaxUnique | cube_list_printer/pdf_generator.py:184 | only one card is the first maximum |
| SheetLayout.Background | cube_list_printer/pdf_generator.py:183-191 | the background is the best card's image when it is set, non-empty and exists, otherwise that card's placeholder |
| SheetLayout.BoosterTrace | cube_list_printer/pdf_generator.py:183-196 | a booster with cards gets `create_card` on its background; one without draws nothing |
| SheetLayout.EntriesAt | cube_list_printer/pdf_generator.py:180-191 | what is prepared for cell i is booster i's entry |
| SheetLayout.PrepareAll | cube_list_printer/pdf_generator.py:169-191 | every booster's entry, in booster order |
| SheetLayout.DrawCell | cube_list_printer/pdf_generator.py:193-196 | `create_card` at (25 + col·cw, pageH - 25 - ch - row·ch), or nothing |
| SheetLayout.PlaceCell | cube_list_printer/pdf_generator.py:178-197 | the column loop body draws entry idx in its own slot |
| SheetLayout.DrawRow | cube_list_printer/pdf_generator.py:177-197 | the column loop places up to three boosters and stops when they run out |
| SheetLayout.DrawPage | cube_list_printer/pdf_generator.py:176-198 | one page: up to nine cells row by row, then `showPage` |
| SheetLayout.DrawPages | cube_list_printer/pdf_generator.py:174-198 | the page loop draws every page of the document |
| SheetLayout.GeneratePdf | cube_list_printer/pdf_generator.py:143-198 | `generate_pdf` draws the document of the boosters' entries at card size mm_to_points(width) by mm_to_points(height) |
| SheetLayout.CellIsBooster | cube_list_printer/pdf_generator.py:176-197 | cell i of the document is booster i's card, in the frame of slot i |
| SheetLayout.CellsOnePage | cube_list_printer/pdf_generator.py:176-197 | a run of cells contains no page break |
| SheetLayout.DocPagesBreaks | cube_list_printer/pdf_generator.py:174-198 | after p pages there have been exactly p `showPage` calls |
| SheetLayout.DocPagesContent | cube_list_printer/pdf_generator.py:174-198 | page breaks aside, the first p pages are the cells of the first 9p boosters, in order |
| SheetLayout.DocumentShape | cube_list_printer/pdf_generator.py:174-198 | n boosters give ceil(n/9) `showPage` calls, none when n = 0; page breaks aside, every booster's cell in order |
| SheetLayout.TenBoosters | cube_list_printer/pdf_generator.py:174-198 | ten boosters take two pages; the ninth sits at row 2, column 2; the tenth starts page two |
| SheetLayout.BlankKeepsCell | cube_list_printer/pdf_generator.py:183-197 | a booster without cards still takes its cell, so the next booster goes one column right |
| DataLoader.CollectCards | cube_list_printer/data_loader.py:29-37 | the row loop of one group keeps that binder's rows that have a Scryfall id, in order |
| DataLoader.GetBoosters | cube_list_printer/data_loader.py:26-39 | one booster per group key, with that key's kept rows as cards |
| DataLoader.Group | cube_list_printer/data_loader.py:27-39 | one booster per key, in key order, named by its key, even when it has no cards |
| DataLoader.GroupCardsAppend | cube_list_printer/data_loader.py:30-37 | grouping keeps row order: the cards of two runs of rows are the first run's cards followed by the second's |
| DataLoader.GroupCardsFromRows | cube_list_printer/data_loader.py:30-37 | every card is the name (or "Unknown") and id of one of its binder's rows that has an id |
| DataLoader.GroupCardsEmpty | cube_list_printer/data_loader.py:33-38 | a booster is empty exactly when none of its rows has an id, and it is kept anyway |
| DataLoader.GroupKeepsRows | cube_list_printer/data_loader.py:28-37 | only the rows without an id are dropped: across all boosters there is one card per row that has both a binder and an id |
| DataLoader.GroupExample | tests/test_data_loader.py:10-20 | the test's rows give Booster1 two cards, the first "Card A", and Booster2 one card |
| DataLoader.BuildIdMap | cube_list_printer/data_loader.py:15-21 | the id-map loop builds the map of entries by id |
| DataLoader.IdMapKeys | cube_list_printer/data_loader.py:16-21 | the map's keys are exactly the non-empty ids present in the card list |
| DataLoader.IdMapLastWins | cube_list_printer/data_loader.py:16-19 | an id maps to the last entry that carries it |
| DataLoader.IdMapFiledById | cube_list_printer/data_loader.py:17-19 | every stored entry is one of the card list's entries, filed under its own id |
| DataLoader.EnrichCard | cube_list_printer/data_loader.py:44-56 | a matched card gets the cost (default ""), URIs (default none) and converted price; an unmatched one gets "", none and 0.0; it fails exactly when a matched price does not convert; name and id are unchanged |
| DataLoader.UsdValue | cube_list_printer/data_loader.py:51 | `float(card_meta.get("usd", 0.0))` fails exactly for JSON null and for text that does not convert; text converts only when it has a digit; an absent price gives 0.0, `true` 1.0 and `false` 0.0, and a JSON number is its own value |
| DataLoader.UsdPrice | cube_list_printer/data_loader.py:51 | a price given as the text "n.cc" reads as n + cc/100, the value the JSON number n.cc has |
| DataLoader.EnrichCards | cube_list_printer/data_loader.py:44-56 | one booster's cards enriched in order, failing exactly when one of them fails |
| DataLoader.EnrichBoosters | cube_list_printer/data_loader.py:42-56 | the same boosters with the same cards in the same order, every card enriched; fails exactly when some card does |
| DataLoader.EnrichKeepsCards | cube_list_printer/data_loader.py:43-56 | enrichment keeps every card's name, id and image path, and fills in cost, URIs and price |
| DataLoader.EnrichExample | tests/test_data_loader.py:22-34 | the test's card gets mana cost "{W}{U}" and value 1.5 from price "1.50" |
| Decimal.ParseDecimal | cube_list_printer/data_loader.py:51 | `float(text)` never converts a text that has no digit |
| Decimal.DigitsRoundTrip | cube_list_printer/data_loader.py:51 | the digits of a whole number read back as that number |
| Decimal.ParseNat | cube_list_printer/data_loader.py:51 | `float(str(n))` is n |
| Decimal.ParseNegative | cube_list_printer/data_loader.py:51 | a leading minus negates |
| Decimal.ParsePrice | cube_list_printer/data_loader.py:51 | `float("n.cc")` is n + cc/100 |
| Decimal.PriceExample | tests/test_data_loader.py:29-34 | `float("1.50")` is 1.5 |
| Decimal.ParseEmpty | cube_list_printer/data_loader.py:51 | empty text does not convert |
| Decimal.ParseSignOnly | cube_list_printer/data_loader.py:51 | a lone sign does not convert |
| Strings.UpperAt | cube_list_printer/pdf_generator.py:48 | `upper` maps each character and leaves a string without lower-case letters unchanged |
| Strings.FindFromIsFirst | cube_list_printer/pdf_generator.py:71 | `split` cuts at the leftmost occurrence of the separator |
| Strings.JoinSplit | cube_list_printer/pdf_generator.py:42 | joining the parts of `split` with the separator gives the string back, and no part contains the separator |
| Strings.StripIsMiddleSlice | cube_list_printer/pdf_generator.py:42 | `strip` keeps a middle slice and cuts only the given characters |
| Strings.StripEnds | cube_list_printer/pdf_generator.py:42 | after `strip`, neither end is one of the given characters |

## Left out

- Pixels and PDF output: reportlab and PIL calls become drawing-call records. Colours, `saveState`/`restoreState`, `setFont`, `setTitle` and `save` are not modelled, and neither is PIL's compositing of the mana icons.
- Font metrics: `stringWidth` is an uninterpreted function with non-negative values. The title font and the body font each have their own function.
- Floating point: all coordinates, widths and prices are exact reals, and rounding is not modelled.
- File system: `os.path.exists` is a parameter (`onDisk` for backgrounds, `present` for icons). Writing the placeholder image is not modelled; only its path is.
- `image_handler.py` and `symbol_handler.py`: HTTP, the image cache and SVG rasterising are I/O and are not part of this model. Only the placeholder path of `generate_placeholder_image` is.
- `main.py`: configuration, sorting cards by name, and fetching the most valuable card's image are not modelled. The layout holds for any card order, and it takes `image_local_path` as given on any card.
- `pd.read_csv`, `json.load` and the key order of `groupby`: rows and card entries arrive already parsed. The group keys are a parameter that must list every non-null binder exactly once, in any order (`GroupKeys`).
- NaN cells: a null cell is an absent value. A NaN card name and a JSON `null` mana cost or image URIs are folded into "absent".
- Partial mutation: when a price fails to convert, Python has already enriched the earlier cards in place before raising. The model returns a failure for the whole transform instead.
- DataLoader.UsdValue: `Usd` covers only JSON scalars. A JSON object or array in `usd`, on which Python's `float` raises `TypeError`, cannot be represented.
- Decimal.ParseDecimal: accepts only plain decimals (sign, digits, one optional point) around ASCII whitespace. It rejects exponents, `inf`/`nan`, `_` separators, non-ASCII digits, and text surrounded by non-ASCII whitespace (such as U+00A0 or U+2003), all of which Python's `float` accepts.
- Strings.Upper: upper-cases ASCII letters only.
- SheetLayout.Background: takes the card's `scryfall_id` as always present, since the loader always sets it. The `"unknown"` default of `generate_pdf` therefore does not arise.
- SheetLayout.GeneratePdf: works out every booster's background and card lines before drawing, rather than inside the column loop. Both depend only on the booster, so the drawing calls are the same.
- ManaCost.TwoIconsWidth, ManaCost.SplitCostExample: the examples with specific symbols are stated for any symbol character. `{W}{U}` is the instance a = 'W', b = 'U'.
