/** The data loader: spreadsheet rows grouped into boosters, the Scryfall
    card list turned into a map by id, and the boosters' cards enriched
    with mana cost, image URIs and price from that map. */
module DataLoader {
  import opened Wrappers
  import opened Cards
  import opened Decimal

  // ---------------------------------------------------------------------
  // Grouping rows into boosters (`get_boosters_from_dataframe`)
  // ---------------------------------------------------------------------

  /** One spreadsheet row. An absent field is a null cell, or for `name`
      a missing "Name" column. */
  datatype Row = Row(binder: Option<string>, name: Option<string>, scryfallId: Option<string>)

  const UnknownName: string := "Unknown"

  /** A row lands in the booster `key` when it belongs to that binder and
      has a Scryfall id. */
  predicate Keeps(r: Row, key: string) {
    r.binder == Some(key) && r.scryfallId.Some?
  }

  /** The card record built from a row: its name, or "Unknown", and its
      Scryfall id; nothing else is known yet. */
  function RowCard(r: Row): Card
    requires r.scryfallId.Some?
  {
    Card(Some(r.name.GetOr(UnknownName)), r.scryfallId.value, None, None, None, None)
  }

  /** The cards of booster `key`: its kept rows, in row order. */
  function GroupCards(rows: seq<Row>, key: string): (cs: seq<Card>)
    ensures |cs| <= |rows|
  {
    if |rows| == 0 then []
    else
      var r := rows[|rows| - 1];
      GroupCards(rows[..|rows| - 1], key) + (if Keeps(r, key) then [RowCard(r)] else [])
  }

  /** One booster per group key, in key order, each with its cards. */
  function Group(rows: seq<Row>, keys: seq<string>): (bs: seq<Booster>)
    ensures |bs| == |keys|
    ensures forall i :: 0 <= i < |keys| ==> bs[i].id == keys[i]
  {
    seq(|keys|, i requires 0 <= i < |keys| => Booster(keys[i], GroupCards(rows, keys[i])))
  }

  predicate Distinct(keys: seq<string>) {
    forall i, j :: 0 <= i < j < |keys| ==> keys[i] != keys[j]
  }

  /** The keys `groupby` produces: every non-null binder exactly once.
      Their order is the caller's choice. */
  predicate GroupKeys(rows: seq<Row>, keys: seq<string>) {
    && Distinct(keys)
    && (forall i :: 0 <= i < |rows| && rows[i].binder.Some? ==> rows[i].binder.value in keys)
    && (forall k :: 0 <= k < |keys| ==> exists i :: 0 <= i < |rows| && rows[i].binder == Some(keys[k]))
  }

  /** The row loop over one group: rows without a Scryfall id are skipped. */
  method CollectCards(rows: seq<Row>, key: string) returns (cards: seq<Card>)
    ensures cards == GroupCards(rows, key)
  {
    cards := [];
    for j := 0 to |rows|
      invariant cards == GroupCards(rows[..j], key)
    {
      assert rows[..j + 1][..j] == rows[..j];
      var r := rows[j];
      if r.binder != Some(key) {
        continue;
      }
      if r.scryfallId.None? {
        continue;
      }
      cards := cards + [RowCard(r)];
    }
    assert rows[..|rows|] == rows;
  }

  /** `get_boosters_from_dataframe`: one booster per key, holding the
      cards of that binder's rows that have a Scryfall id. */
  method GetBoosters(rows: seq<Row>, keys: seq<string>) returns (bs: seq<Booster>)
    requires GroupKeys(rows, keys)
    ensures bs == Group(rows, keys)
  {
    bs := [];
    for k := 0 to |keys|
      invariant bs == Group(rows, keys[..k])
    {
      GroupSnoc(rows, keys, k);
      var cards := CollectCards(rows, keys[k]);
      bs := bs + [Booster(keys[k], cards)];
    }
    assert keys[..|keys|] == keys;
  }

  lemma GroupSnoc(rows: seq<Row>, keys: seq<string>, k: nat)
    requires k < |keys|
    ensures Group(rows, keys[..k + 1]) == Group(rows, keys[..k]) + [Booster(keys[k], GroupCards(rows, keys[k]))]
  {
    assert keys[..k + 1][k] == keys[k];
  }

  /** Grouping keeps row order: the cards of a run of rows followed by
      another are the cards of the first, then those of the second. */
  lemma {:induction false} GroupCardsAppend(a: seq<Row>, b: seq<Row>, key: string)
    ensures GroupCards(a + b, key) == GroupCards(a, key) + GroupCards(b, key)
    decreases |b|
  {
    if |b| == 0 {
      assert a + b == a;
    } else {
      var b' := b[..|b| - 1];
      assert (a + b)[..|a + b| - 1] == a + b';
      GroupCardsAppend(a, b', key);
    }
  }

  /** A single row contributes its card exactly when it is kept. */
  lemma GroupCardsOne(r: Row, key: string)
    ensures GroupCards([r], key) == (if Keeps(r, key) then [RowCard(r)] else [])
  {
    assert [r][..0] == [];
  }

  /** Every card of a booster comes from one of its binder's rows that
      has a Scryfall id. */
  lemma {:induction false} GroupCardsFromRows(rows: seq<Row>, key: string, j: nat)
    requires j < |GroupCards(rows, key)|
    ensures exists i :: 0 <= i < |rows| && Keeps(rows[i], key) && GroupCards(rows, key)[j] == RowCard(rows[i])
  {
    var n := |rows|;
    var front := rows[..n - 1];
    if j < |GroupCards(front, key)| {
      GroupCardsFromRows(front, key, j);
      var i :| 0 <= i < |front| && Keeps(front[i], key) && GroupCards(front, key)[j] == RowCard(front[i]);
      assert rows[i] == front[i];
    } else {
      assert Keeps(rows[n - 1], key);
    }
  }

  /** A booster is empty exactly when none of its binder's rows has a
      Scryfall id; such a booster is still produced. */
  lemma {:induction false} GroupCardsEmpty(rows: seq<Row>, key: string)
    ensures GroupCards(rows, key) == [] <==> forall i :: 0 <= i < |rows| ==> !Keeps(rows[i], key)
  {
    if |rows| > 0 {
      var front := rows[..|rows| - 1];
      GroupCardsEmpty(front, key);
      assert forall i :: 0 <= i < |front| ==> front[i] == rows[i];
    }
  }

  /** Cards over all boosters. */
  function TotalCards(bs: seq<Booster>): nat {
    if |bs| == 0 then 0 else TotalCards(bs[..|bs| - 1]) + |bs[|bs| - 1].cards|
  }

  /** Rows with both a binder and a Scryfall id. */
  function KeptRows(rows: seq<Row>): nat {
    if |rows| == 0 then 0
    else
      var r := rows[|rows| - 1];
      KeptRows(rows[..|rows| - 1]) + (if r.binder.Some? && r.scryfallId.Some? then 1 else 0)
  }

  /** Cards of the boosters for the given keys. */
  function KeysTotal(rows: seq<Row>, keys: seq<string>): nat {
    if |keys| == 0 then 0 else KeysTotal(rows, keys[..|keys| - 1]) + |GroupCards(rows, keys[|keys| - 1])|
  }

  lemma {:induction false} TotalIsKeysTotal(rows: seq<Row>, keys: seq<string>)
    ensures TotalCards(Group(rows, keys)) == KeysTotal(rows, keys)
  {
    if |keys| > 0 {
      var front := keys[..|keys| - 1];
      TotalIsKeysTotal(rows, front);
      assert Group(rows, keys)[..|keys| - 1] == Group(rows, front);
    }
  }

  /** One more row adds one card over distinct keys when it is kept by one
      of them, and none otherwise. */
  lemma {:induction false} KeysTotalSnoc(rows: seq<Row>, r: Row, keys: seq<string>)
    requires Distinct(keys)
    ensures KeysTotal(rows + [r], keys)
            == KeysTotal(rows, keys) + (if r.binder.Some? && r.binder.value in keys && r.scryfallId.Some? then 1 else 0)
  {
    if |keys| > 0 {
      var front := keys[..|keys| - 1];
      var last := keys[|keys| - 1];
      assert Distinct(front);
      KeysTotalSnoc(rows, r, front);
      GroupCardsAppend(rows, [r], last);
      GroupCardsOne(r, last);
      assert r.binder.Some? && r.binder.value in keys ==> r.binder.value in front || r.binder.value == last;
      assert last !in front;
    }
  }

  /** Grouping drops exactly the rows without a Scryfall id: over all
      boosters there is one card per row with a binder and an id. */
  lemma {:induction false} GroupKeepsRows(rows: seq<Row>, keys: seq<string>)
    requires Distinct(keys)
    requires forall i :: 0 <= i < |rows| && rows[i].binder.Some? ==> rows[i].binder.value in keys
    ensures TotalCards(Group(rows, keys)) == KeptRows(rows)
  {
    TotalIsKeysTotal(rows, keys);
    KeysTotalCountsRows(rows, keys);
  }

  lemma {:induction false} KeysTotalCountsRows(rows: seq<Row>, keys: seq<string>)
    requires Distinct(keys)
    requires forall i :: 0 <= i < |rows| && rows[i].binder.Some? ==> rows[i].binder.value in keys
    ensures KeysTotal(rows, keys) == KeptRows(rows)
  {
    if |rows| == 0 {
      KeysTotalNoRows(keys);
    } else {
      var front := rows[..|rows| - 1];
      var r := rows[|rows| - 1];
      assert forall i :: 0 <= i < |front| ==> front[i] == rows[i];
      KeysTotalCountsRows(front, keys);
      assert front + [r] == rows;
      KeysTotalSnoc(front, r, keys);
    }
  }

  lemma {:induction false} KeysTotalNoRows(keys: seq<string>)
    ensures KeysTotal([], keys) == 0
  {
    if |keys| > 0 {
      KeysTotalNoRows(keys[..|keys| - 1]);
    }
  }

  /** The rows of the data loader's test: two cards for Booster1, the
      first "Card A", and one for Booster2. */
  lemma GroupExample()
    ensures var rows := [Row(Some("Booster1"), Some("Card A"), Some("idA")),
                         Row(Some("Booster1"), Some("Card B"), Some("idB")),
                         Row(Some("Booster2"), Some("Card C"), Some("idC"))];
      var bs := Group(rows, ["Booster1", "Booster2"]);
      && bs[0].id == "Booster1" && |bs[0].cards| == 2 && bs[0].cards[0].name == Some("Card A")
      && bs[1].id == "Booster2" && |bs[1].cards| == 1
  {
    var r1 := Row(Some("Booster1"), Some("Card A"), Some("idA"));
    var r2 := Row(Some("Booster1"), Some("Card B"), Some("idB"));
    var r3 := Row(Some("Booster2"), Some("Card C"), Some("idC"));
    var rows := [r1, r2, r3];
    assert "Booster1" != "Booster2" by { assert "Booster1"[7] != "Booster2"[7]; }
    assert rows == [r1] + [r2] + [r3];
    GroupCardsAppend([r1], [r2], "Booster1");
    GroupCardsAppend([r1] + [r2], [r3], "Booster1");
    GroupCardsAppend([r1], [r2], "Booster2");
    GroupCardsAppend([r1] + [r2], [r3], "Booster2");
    GroupCardsOne(r1, "Booster1");
    GroupCardsOne(r2, "Booster1");
    GroupCardsOne(r3, "Booster1");
    GroupCardsOne(r1, "Booster2");
    GroupCardsOne(r2, "Booster2");
    GroupCardsOne(r3, "Booster2");
  }

  // ---------------------------------------------------------------------
  // The Scryfall id map (`load_data`)
  // ---------------------------------------------------------------------

  /** The `usd` field of a Scryfall entry: absent, or a JSON scalar (null,
      a boolean, a number or a string). */
  datatype Usd = UsdAbsent | UsdNull | UsdBool(flag: bool) | UsdNumber(number: real) | UsdText(text: string)

  /** The fields of a Scryfall card entry the program reads. */
  datatype Meta = Meta(id: Option<string>, manaCost: Option<string>, imageUris: Option<map<string, string>>, usd: Usd)

  /** The entry has a truthy id: present and not empty. */
  predicate HasId(m: Meta) {
    m.id.Some? && m.id.value != ""
  }

  /** The map built by `load_data`: entries by id, later entries replacing
      earlier ones with the same id, entries without an id left out. */
  function IdMap(ms: seq<Meta>): map<string, Meta> {
    if |ms| == 0 then map[]
    else
      var m := ms[|ms| - 1];
      if HasId(m) then IdMap(ms[..|ms| - 1])[m.id.value := m] else IdMap(ms[..|ms| - 1])
  }

  /** The id-map loop of `load_data`. */
  method BuildIdMap(ms: seq<Meta>) returns (byId: map<string, Meta>)
    ensures byId == IdMap(ms)
  {
    byId := map[];
    for i := 0 to |ms|
      invariant byId == IdMap(ms[..i])
    {
      assert ms[..i + 1][..i] == ms[..i];
      var m := ms[i];
      if m.id.Some? && m.id.value != "" {
        byId := byId[m.id.value := m];
      }
    }
    assert ms[..|ms|] == ms;
  }

  /** The map's keys are exactly the non-empty ids of the entries. */
  lemma {:induction false} IdMapKeys(ms: seq<Meta>, k: string)
    ensures k in IdMap(ms) <==> k != "" && exists i :: 0 <= i < |ms| && ms[i].id == Some(k)
  {
    if |ms| > 0 {
      var front := ms[..|ms| - 1];
      IdMapKeys(front, k);
      assert forall i :: 0 <= i < |front| ==> front[i] == ms[i];
    }
  }

  /** The entry stored under an id is the last entry with that id. */
  lemma {:induction false} IdMapLastWins(ms: seq<Meta>, i: nat)
    requires i < |ms| && HasId(ms[i])
    requires forall j :: i < j < |ms| ==> ms[j].id != ms[i].id
    ensures ms[i].id.value in IdMap(ms) && IdMap(ms)[ms[i].id.value] == ms[i]
  {
    if i < |ms| - 1 {
      var front := ms[..|ms| - 1];
      assert front[i] == ms[i];
      IdMapLastWins(front, i);
    }
  }

  /** Every stored entry is filed under its own id. */
  lemma {:induction false} IdMapFiledById(ms: seq<Meta>, k: string)
    requires k in IdMap(ms)
    ensures IdMap(ms)[k].id == Some(k) && IdMap(ms)[k] in ms
  {
    var front := ms[..|ms| - 1];
    var m := ms[|ms| - 1];
    if !(HasId(m) && m.id.value == k) {
      IdMapFiledById(front, k);
      assert IdMap(front)[k] in front;
    }
  }

  // ---------------------------------------------------------------------
  // Enrichment (`enrich_boosters_with_scryfall_data`)
  // ---------------------------------------------------------------------

  /** `float(card_meta.get("usd", 0.0))`: an absent price is 0.0, a
      boolean 1.0 or 0.0; None where `float` raises (JSON null, text that
      is not a number). */
  function UsdValue(u: Usd): (r: Option<real>)
    ensures r.None? <==> u.UsdNull? || (u.UsdText? && ParseDecimal(u.text).None?)
    ensures u.UsdText? && r.Some? ==> exists i :: 0 <= i < |u.text| && IsDigit(u.text[i])
    ensures u.UsdAbsent? ==> r == Some(0.0)
    ensures u.UsdBool? ==> r == Some(if u.flag then 1.0 else 0.0)
    ensures u.UsdNumber? ==> r == Some(u.number)
  {
    match u
    case UsdAbsent => Some(0.0)
    case UsdNull => None
    case UsdBool(b) => Some(if b then 1.0 else 0.0)
    case UsdNumber(x) => Some(x)
    case UsdText(s) => ParseDecimal(s)
  }

  /** A price written "n.cc" reads as n + cc/100, the value the JSON
      number n.cc has. */
  lemma UsdPrice(n: nat, c: nat)
    requires c < 100
    ensures UsdValue(UsdText(NatDigits(n) + ['.'] + Cents(c))) == Some(n as real + c as real / 100.0)
  {
    ParsePrice(n, c);
  }

  const UsdError: string := "could not convert usd to float"

  /** A card whose fields enrichment fills in. */
  predicate Enriched(c: Card) {
    c.manaCost.Some? && c.imageUris.Some? && c.value.Some?
  }

  /** The card with enrichment's fields cleared: what enrichment must not
      change. */
  function Identity(c: Card): Card {
    c.(manaCost := None, imageUris := None, value := None)
  }

  /** One card of the enrichment loop. With metadata, the mana cost and
      image URIs it has (else "" and no URIs) and its price as a number;
      without, "", no URIs and 0.0. Fails exactly when the price of a
      matched card does not convert. */
  function EnrichCard(c: Card, byId: map<string, Meta>): (r: Result<Card, string>)
    ensures r.Failure? <==> c.scryfallId in byId && UsdValue(byId[c.scryfallId].usd).None?
    ensures r.Success? ==> Enriched(r.value) && Identity(r.value) == Identity(c)
    ensures r.Success? && c.scryfallId !in byId ==>
      r.value.manaCost == Some("") && r.value.imageUris == Some(map[]) && r.value.value == Some(0.0)
    ensures r.Success? && c.scryfallId in byId ==>
      var m := byId[c.scryfallId];
      && r.value.manaCost == Some(m.manaCost.GetOr(""))
      && r.value.imageUris == Some(m.imageUris.GetOr(map[]))
      && Some(r.value.value.value) == UsdValue(m.usd)
  {
    if c.scryfallId in byId then
      var m := byId[c.scryfallId];
      match UsdValue(m.usd)
      case None => Failure(UsdError)
      case Some(v) => Success(c.(manaCost := Some(m.manaCost.GetOr("")), imageUris := Some(m.imageUris.GetOr(map[])), value := Some(v)))
    else
      Success(c.(manaCost := Some(""), imageUris := Some(map[]), value := Some(0.0)))
  }

  /** Every card of every booster converts. */
  predicate AllConvert(bs: seq<Booster>, byId: map<string, Meta>) {
    forall i, j :: 0 <= i < |bs| && 0 <= j < |bs[i].cards| ==> EnrichCard(bs[i].cards[j], byId).Success?
  }

  /** `bs'` is `bs` with every card enriched: same boosters, same ids,
      same cards in the same order. */
  predicate EnrichedFrom(bs: seq<Booster>, bs': seq<Booster>, byId: map<string, Meta>)
    requires AllConvert(bs, byId)
  {
    && |bs'| == |bs|
    && forall i :: 0 <= i < |bs| ==>
         && bs'[i].id == bs[i].id
         && |bs'[i].cards| == |bs[i].cards|
         && forall j :: 0 <= j < |bs[i].cards| ==> bs'[i].cards[j] == EnrichCard(bs[i].cards[j], byId).value
  }

  /** The cards of one booster, enriched in order; the first card that
      does not convert stops the loop. */
  method EnrichCards(cards: seq<Card>, byId: map<string, Meta>) returns (r: Result<seq<Card>, string>)
    ensures r.Success? <==> forall j :: 0 <= j < |cards| ==> EnrichCard(cards[j], byId).Success?
    ensures r.Success? ==> |r.value| == |cards| && forall j :: 0 <= j < |cards| ==> r.value[j] == EnrichCard(cards[j], byId).value
  {
    var out: seq<Card> := [];
    for j := 0 to |cards|
      invariant |out| == j
      invariant forall k :: 0 <= k < j ==> EnrichCard(cards[k], byId).Success? && out[k] == EnrichCard(cards[k], byId).value
    {
      var e := EnrichCard(cards[j], byId);
      if e.Failure? {
        return Failure(e.error);
      }
      out := out + [e.value];
    }
    return Success(out);
  }

  /** `enrich_boosters_with_scryfall_data`, as a transform: every card of
      every booster enriched, boosters and cards kept in place; a failure
      when some matched card's price does not convert. */
  method EnrichBoosters(bs: seq<Booster>, byId: map<string, Meta>) returns (r: Result<seq<Booster>, string>)
    ensures r.Success? <==> AllConvert(bs, byId)
    ensures r.Success? ==> EnrichedFrom(bs, r.value, byId)
  {
    var out: seq<Booster> := [];
    for i := 0 to |bs|
      invariant |out| == i
      invariant forall k :: 0 <= k < i ==> out[k].id == bs[k].id && |out[k].cards| == |bs[k].cards|
      invariant forall k, j :: 0 <= k < i && 0 <= j < |bs[k].cards| ==>
        EnrichCard(bs[k].cards[j], byId).Success? && out[k].cards[j] == EnrichCard(bs[k].cards[j], byId).value
    {
      var cards := EnrichCards(bs[i].cards, byId);
      if cards.Failure? {
        return Failure(cards.error);
      }
      out := out + [Booster(bs[i].id, cards.value)];
    }
    return Success(out);
  }

  /** Enrichment leaves every card's name, id and image path alone and
      fills in its cost, image URIs and price. */
  lemma EnrichKeepsCards(bs: seq<Booster>, bs': seq<Booster>, byId: map<string, Meta>, i: nat, j: nat)
    requires AllConvert(bs, byId) && EnrichedFrom(bs, bs', byId)
    requires i < |bs| && j < |bs[i].cards|
    ensures Identity(bs'[i].cards[j]) == Identity(bs[i].cards[j]) && Enriched(bs'[i].cards[j])
  {
    assert EnrichCard(bs[i].cards[j], byId).Success?;
  }

  lemma UsdExample()
    ensures UsdValue(UsdText("1.50")) == Some(1.5)
  {
    PriceExample();
  }

  /** The enrichment example of the loader's test: "{W}{U}" and a price
      of "1.50" give mana cost "{W}{U}" and value 1.5. */
  lemma EnrichExample()
    ensures var c := Card(Some("Card A"), "idA", None, None, None, None);
      var m := Meta(Some("idA"), Some("{W}{U}"), Some(map["normal" := "http://example.com/cardA.jpg"]), UsdText("1.50"));
      var r := EnrichCard(c, map["idA" := m]);
      r.Success? && r.value.manaCost == Some("{W}{U}") && r.value.value == Some(1.5)
  {
    var u := UsdText("1.50");
    UsdExample();
    var m := Meta(Some("idA"), Some("{W}{U}"), Some(map["normal" := "http://example.com/cardA.jpg"]), u);
    var byId := map["idA" := m];
    assert "idA" in byId && byId["idA"] == m;
  }
}
