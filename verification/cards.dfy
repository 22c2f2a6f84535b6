/** The card and booster records passed from the data loader to the PDF
    generator. Fields the source reads with `dict.get(key, default)` or adds
    in a later stage are optional. */
module Cards {
  import opened Wrappers

  datatype Card = Card(
    name: Option<string>,
    scryfallId: string,
    manaCost: Option<string>,
    imageUris: Option<map<string, string>>,
    value: Option<real>,
    imagePath: Option<string>)

  datatype Booster = Booster(id: string, cards: seq<Card>)
}
