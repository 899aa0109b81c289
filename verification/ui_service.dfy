/** `UIService`: the rich screens, each a tree of wrapped components built
    deterministically from the card sequence and fixed presentation constants. */
module UIService {
  import opened Base
  import opened Seqs
  import opened Decimal
  import opened KotlinText
  import opened Models
  import opened UIModels
  import opened Routes
  import opened CardService

  /** `Padding(all)`: the same offset on all four sides. */
  function PaddingAll(all: int): (p: Padding)
    ensures p.top == all && p.bottom == all && p.start == all && p.end == all
  {
    Padding(all, all, all, all)
  }

  /** The tags of a sequence of envelopes, in order. */
  function Tags(ws: seq<Wrapper>): (r: seq<string>)
    ensures |r| == |ws|
    ensures forall i :: 0 <= i < |ws| ==> r[i] == ws[i].tag
  {
    seq(|ws|, i requires 0 <= i < |ws| => ws[i].tag)
  }

  /** The navigation that opens the list of cards. */
  const ToCards: Action := Action(kind := "navigate", url := Some(CardsPath))

  /** `getWelcomeScreen`: a fixed greeting, description, image and a button
      that opens the card list. It reads no cards. */
  function WelcomeScreen(): (r: Screen)
    ensures r.id == "welcome_screen"
    ensures r.root.Some? && r.root.value.tag == "container" && r.root.value.comp.Container?
    ensures Tags(r.root.value.comp.children) == ["text", "text", "image", "button"]
    ensures r.root.value.comp.children[3].comp.Button?
    ensures r.root.value.comp.children[3].comp.action == Some(ToCards)
  {
    var welcomeText := Text(
      id := "welcome_text",
      text := "Добро пожаловать в приложение BDUI!",
      textColor := Some("#000000"),
      textSize := Some(20),
      textAlign := Some("center"),
      margin := Some(Margin(top := 16, bottom := 24)));
    var descriptionText := Text(
      id := "description_text",
      text := "Это приложение демонстрирует возможности BDUI (Backend-Driven UI) для Android.",
      textColor := Some("#666666"),
      textSize := Some(16),
      margin := Some(Margin(bottom := 32)));
    var showCardsButton := Button(
      id := "show_cards_button",
      text := "Показать карточки",
      textColor := Some("#FFFFFF"),
      backgroundColor := Some("#2196F3"),
      padding := Some(Padding(top := 12, bottom := 12, start := 24, end := 24)),
      margin := Some(Margin(bottom := 16)),
      action := Some(ToCards));
    var image := Image(
      id := "welcome_image",
      resourceId := Some("2131165278"),
      width := Some("match_parent"),
      height := Some("200"),
      margin := Some(Margin(top := 24, bottom := 24)));
    var container := Container(
      id := "root_container",
      children := [
        Wrapper("text", welcomeText),
        Wrapper("text", descriptionText),
        Wrapper("image", image),
        Wrapper("button", showCardsButton)
      ],
      padding := Some(Padding(top := 16, bottom := 16, start := 16, end := 16)),
      backgroundColor := Some("#FFFFFF"),
      alignment := Some("center"));
    Screen(
      id := "welcome_screen",
      title := Some("Добро пожаловать"),
      root := Some(Wrapper("container", container)),
      backgroundColor := Some("#FFFFFF"),
      toolbarColor := Some("#2196F3"))
  }

  /** The tappable container for card `k` of the list screen: its title text,
      then its image, styled by whether the card is a header. */
  function CardContainer(card: Card, k: nat, cm: CaseMap): Wrapper {
    var slug := Slug(card.title, cm);
    var header := card.kind == "HEADER";
    var cardContainer := Container(
      id := "card_" + slug,
      children := [
        Wrapper(
          "text",
          Text(
            id := "card_title_" + slug,
            text := card.title,
            textColor := Some(if header then "#2196F3" else "#000000"),
            textSize := Some(if header then 18 else 16),
            textStyle := Some(if header then "bold" else "normal"),
            margin := Some(Margin(bottom := if header then 8 else 4)))),
        Wrapper(
          "image",
          Image(
            id := "card_image_" + slug,
            resourceId := Some(card.image),
            width := Some("match_parent"),
            height := Some(if header then "120" else "80"),
            scaleType := Some("centerCrop"),
            margin := Some(Margin(bottom := 8))))
      ],
      padding := Some(PaddingAll(8)),
      margin := Some(Margin(bottom := 8)),
      backgroundColor := Some("#FFFFFF"),
      action := if card.kind != "HEADER" then Some(Action(kind := "navigate", url := Some(CardPath(k)))) else None);
    Wrapper("container", cardContainer)
  }

  /** `getCardsScreen`: a list with one container per card, in repository
      order; only the containers of non-header cards navigate, each to its
      own index. */
  function CardsScreen(cards: seq<Card>, cm: CaseMap): (r: Screen)
    ensures r.id == "cards_screen"
    ensures r.root.Some? && r.root.value.tag == "list" && r.root.value.comp.List?
    ensures |r.root.value.comp.items| == |cards|
    ensures forall k :: 0 <= k < |cards| ==>
              var w := r.root.value.comp.items[k];
              && w.tag == "container" && w.comp.Container?
              && Tags(w.comp.children) == ["text", "image"]
              && w.comp.children[0].comp.Text? && w.comp.children[0].comp.text == cards[k].title
              && w.comp.children[1].comp.Image? && w.comp.children[1].comp.resourceId == Some(cards[k].image)
    ensures forall k :: 0 <= k < |cards| ==>
              var w := r.root.value.comp.items[k].comp;
              var slug := Slug(cards[k].title, cm);
              && w.Container? && |w.children| == 2
              && w.id == "card_" + slug
              && w.children[0].comp.id == "card_title_" + slug
              && w.children[1].comp.id == "card_image_" + slug
    ensures forall k :: 0 <= k < |cards| ==>
              (r.root.value.comp.items[k].comp.action.None? <==> IsHeader(cards[k]))
    ensures forall k :: 0 <= k < |cards| && !IsHeader(cards[k]) ==>
              r.root.value.comp.items[k].comp.action == Some(Action("navigate", Some(CardPath(k)), None))
    ensures forall k :: 0 <= k < |cards| && IsHeader(cards[k]) ==>
              var w := r.root.value.comp.items[k].comp;
              && w.Container? && |w.children| == 2
              && w.children[0].comp.Text? && w.children[1].comp.Image?
              && w.children[0].comp.textColor == Some("#2196F3")
              && w.children[0].comp.textSize == Some(18)
              && w.children[0].comp.textStyle == Some("bold")
              && w.children[0].comp.margin == Some(Margin(0, 8, 0, 0))
              && w.children[1].comp.height == Some("120")
    ensures forall k :: 0 <= k < |cards| && !IsHeader(cards[k]) ==>
              var w := r.root.value.comp.items[k].comp;
              && w.Container? && |w.children| == 2
              && w.children[0].comp.Text? && w.children[1].comp.Image?
              && w.children[0].comp.textColor == Some("#000000")
              && w.children[0].comp.textSize == Some(16)
              && w.children[0].comp.textStyle == Some("normal")
              && w.children[0].comp.margin == Some(Margin(0, 4, 0, 0))
              && w.children[1].comp.height == Some("80")
  {
    var listComponent := List(
      id := "cards_list",
      items := MapIndexed(cards, (card, k) => CardContainer(card, k, cm), 0),
      padding := Some(PaddingAll(8)),
      divider := true,
      dividerColor := Some("#EEEEEE"));
    Screen(
      id := "cards_screen",
      title := Some("Список карточек"),
      root := Some(Wrapper("list", listComponent)),
      backgroundColor := Some("#F5F5F5"),
      toolbarColor := Some("#2196F3"))
  }

  /** `getCardDetailScreen(cardId)`: title, kind, image, description and a back
      button for the card at `cardId`; an index with no card is an error. */
  function CardDetailScreen(cards: seq<Card>, cardId: int): (r: Result<Screen, Error>)
    ensures r.Err? <==> GetCard(cards, cardId).None?
    ensures r.Err? ==> r.error == CardNotFound(cardId)
    ensures r.Ok? ==>
              && r.value.id == "card_detail_screen_" + NatToString(cardId)
              && r.value.root.Some? && r.value.root.value.tag == "container"
              && r.value.root.value.comp.Container?
    ensures r.Ok? ==>
              var children := r.value.root.value.comp.children;
              && Tags(children) == ["text", "text", "image", "text", "button"]
              && children[0].comp.Text? && children[0].comp.text == cards[cardId].title
              && children[2].comp.Image? && children[2].comp.resourceId == Some(cards[cardId].image)
              && children[4].comp.Button? && children[4].comp.action == Some(ToCards)
  {
    match GetCard(cards, cardId)
    case None => Err(CardNotFound(cardId))
    case Some(card) =>
      var titleText := Text(
        id := "card_title",
        text := card.title,
        textColor := Some("#000000"),
        textSize := Some(24),
        textStyle := Some("bold"),
        margin := Some(Margin(top := 16, bottom := 16)));
      var typeText := Text(
        id := "card_type",
        text := "Тип: " + card.kind,
        textColor := Some("#666666"),
        textSize := Some(16),
        margin := Some(Margin(bottom := 24)));
      var image := Image(
        id := "card_image",
        resourceId := Some(card.image),
        width := Some("match_parent"),
        height := Some("300"),
        scaleType := Some("centerCrop"),
        margin := Some(Margin(bottom := 24)));
      var descriptionText := Text(
        id := "card_description",
        text := "Это детальное описание карточки '" + card.title
                + "'. Здесь может быть любая дополнительная информация о карточке.",
        textColor := Some("#333333"),
        textSize := Some(16),
        margin := Some(Margin(bottom := 32)));
      var backButton := Button(
        id := "back_button",
        text := "Вернуться к списку",
        textColor := Some("#FFFFFF"),
        backgroundColor := Some("#2196F3"),
        padding := Some(Padding(top := 12, bottom := 12, start := 24, end := 24)),
        action := Some(ToCards));
      var container := Container(
        id := "root_container",
        children := [
          Wrapper("text", titleText),
          Wrapper("text", typeText),
          Wrapper("image", image),
          Wrapper("text", descriptionText),
          Wrapper("button", backButton)
        ],
        padding := Some(Padding(top := 16, bottom := 16, start := 16, end := 16)),
        backgroundColor := Some("#FFFFFF"),
        alignment := Some("center"));
      Ok(Screen(
        id := "card_detail_screen_" + NatToString(cardId),
        title := Some("Детали карточки"),
        root := Some(Wrapper("container", container)),
        backgroundColor := Some("#FFFFFF"),
        toolbarColor := Some("#2196F3")))
  }
}
