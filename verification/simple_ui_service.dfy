/** `SimpleUIService`: the flattened screens for lightweight clients, built
    from the card sequence the repository holds. */
module SimpleUIService {
  import opened Base
  import opened Seqs
  import opened Decimal
  import opened Models
  import opened Routes
  import opened CardService

  const ItemIdPrefix: string := "card_"

  /** Card `k` projected to a flat row; only rows that are not headers are tappable. */
  function SimpleItem(card: Card, k: nat): SimpleCard {
    SimpleCard(
      id := ItemIdPrefix + NatToString(k),
      title := card.title,
      kind := card.kind,
      image := card.image,
      actionUrl := if card.kind != "HEADER" then Some(CardPath(k)) else None)
  }

  /** `getSimpleCardsScreen`: one flat row per card, in repository order. */
  function SimpleCardsScreen(cards: seq<Card>): (r: SimpleScreen)
    ensures r.id == "cards_screen" && r.title == "Список карточек"
    ensures r.backgroundColor == "#F5F5F5" && r.toolbarColor == "#2196F3"
    ensures |r.items| == |cards|
    ensures forall k :: 0 <= k < |cards| ==>
              && r.items[k].id == ItemIdPrefix + NatToString(k)
              && r.items[k].title == cards[k].title
              && r.items[k].kind == cards[k].kind
              && r.items[k].image == cards[k].image
    ensures forall k :: 0 <= k < |cards| ==> (r.items[k].actionUrl.None? <==> IsHeader(cards[k]))
    ensures forall k :: 0 <= k < |cards| && !IsHeader(cards[k]) ==> r.items[k].actionUrl == Some(CardPath(k))
  {
    SimpleScreen(
      id := "cards_screen",
      title := "Список карточек",
      items := MapIndexed(cards, SimpleItem, 0),
      backgroundColor := "#F5F5F5",
      toolbarColor := "#2196F3")
  }

  /** `getSimpleCardDetailScreen(cardId)`: a detail row and a back row for the
      card at `cardId`; an index with no card is an error, never a default screen. */
  function SimpleCardDetailScreen(cards: seq<Card>, cardId: int): (r: Result<SimpleScreen, Error>)
    ensures r.Err? <==> GetCard(cards, cardId).None?
    ensures r.Err? ==> r.error == CardNotFound(cardId)
    ensures r.Ok? ==>
              var card := cards[cardId];
              && r.value.id == "card_detail_screen_" + NatToString(cardId)
              && r.value.backgroundColor == "#FFFFFF" && r.value.toolbarColor == "#2196F3"
              && |r.value.items| == 2
              && r.value.items[0].id == "card_detail_" + NatToString(cardId)
              && r.value.items[0].title == "Детали: " + card.title
              && r.value.items[0].kind == "DETAIL"
              && r.value.items[0].image == card.image
              && r.value.items[0].actionUrl.None?
              && r.value.items[1].id == "back_button"
              && r.value.items[1].kind == "BUTTON"
              && r.value.items[1].image == card.image
              && r.value.items[1].actionUrl == Some(CardsPath)
  {
    match GetCard(cards, cardId)
    case None => Err(CardNotFound(cardId))
    case Some(card) =>
      var detailCard := SimpleCard(
        id := "card_detail_" + NatToString(cardId),
        title := "Детали: " + card.title,
        kind := "DETAIL",
        image := card.image);
      var backButton := SimpleCard(
        id := "back_button",
        title := "Назад к списку",
        kind := "BUTTON",
        image := card.image,
        actionUrl := Some(CardsPath));
      Ok(SimpleScreen(
        id := "card_detail_screen_" + NatToString(cardId),
        title := "Детали карточки",
        items := [detailCard, backButton],
        backgroundColor := "#FFFFFF",
        toolbarColor := "#2196F3"))
  }

  /** The flat rows have pairwise distinct ids. */
  lemma SimpleItemIdsDistinct(cards: seq<Card>, i: nat, j: nat)
    requires i < |cards| && j < |cards| && i != j
    ensures SimpleCardsScreen(cards).items[i].id != SimpleCardsScreen(cards).items[j].id
  {
    var items := SimpleCardsScreen(cards).items;
    if items[i].id == items[j].id {
      var a, b := NatToString(i), NatToString(j);
      assert (ItemIdPrefix + a)[|ItemIdPrefix|..] == a;
      assert (ItemIdPrefix + b)[|ItemIdPrefix|..] == b;
      NatToStringInjective(i, j);
    }
  }

  /** Tapping row `k` leads to the detail screen of card `k`. */
  lemma SimpleNavigationResolves(cards: seq<Card>, k: nat)
    requires k < |cards|
    requires SimpleCardsScreen(cards).items[k].actionUrl.Some?
    ensures CardIndexOf(SimpleCardsScreen(cards).items[k].actionUrl.value) == Some(k)
    ensures SimpleCardDetailScreen(cards, k).Ok?
    ensures SimpleCardDetailScreen(cards, k).value.items[0].title == "Детали: " + cards[k].title
  {
    CardIndexOfCardPath(k);
  }

  /** On the seed, the leading header row is not tappable and the first
      ordinary row navigates to "/card/1". */
  lemma SeedSimpleCardsScreen()
    ensures SimpleCardsScreen(AllCards()).items[0].actionUrl == None
    ensures SimpleCardsScreen(AllCards()).items[1].actionUrl == Some("/card/1")
  {
    assert NatToString(1) == ['1'];
    assert CardPath(1) == "/card/1";
  }
}
