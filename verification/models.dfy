/** The plain content records: the card the repository stores and the
    flattened screen/card pair served to lightweight clients. */
module Models {
  import opened Base

  /** `CardResponse`: a title, a kind ("HEADER" or "ROW") and an image reference. */
  datatype Card = Card(title: string, kind: string, image: string)

  /** Header cards are section titles: they are not searchable and not tappable. */
  predicate IsHeader(c: Card) {
    c.kind == "HEADER"
  }

  predicate NotHeader(c: Card) {
    !IsHeader(c)
  }

  /** `SimpleCardResponse`: one row of a flattened screen. */
  datatype SimpleCard = SimpleCard(
    id: string,
    title: string,
    kind: string,
    image: string,
    actionUrl: Option<string> := None)

  /** `SimpleScreenResponse`: a flat, non-recursive screen. */
  datatype SimpleScreen = SimpleScreen(
    id: string,
    title: string,
    items: seq<SimpleCard>,
    backgroundColor: string := "#F5F5F5",
    toolbarColor: string := "#2196F3")

  /** The exceptions the core throws, as values. */
  datatype Error =
    | NegativeCount(count: int)   // `take` with a negative count
    | CardNotFound(id: int)       // a detail screen for an index with no card
}
