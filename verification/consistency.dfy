/** Properties that tie the composers to the component model, to the
    repository and to each other. */
module Consistency {
  import opened Base
  import opened KotlinText
  import opened Models
  import opened UIModels
  import opened Routes
  import opened CardService
  import opened SimpleUIService
  import opened UIService

  /** Every envelope of the welcome screen names the variant it carries. */
  lemma WelcomeScreenWellTagged()
    ensures WellTagged(WelcomeScreen().root.value)
  {
  }

  /** Every envelope of the list screen, at every depth, names the variant it
      carries. */
  lemma CardsScreenWellTagged(cards: seq<Card>, cm: CaseMap)
    ensures WellTagged(CardsScreen(cards, cm).root.value)
  {
  }

  /** Every envelope of a detail screen names the variant it carries. */
  lemma CardDetailScreenWellTagged(cards: seq<Card>, cardId: int)
    requires CardDetailScreen(cards, cardId).Ok?
    ensures WellTagged(CardDetailScreen(cards, cardId).value.root.value)
  {
  }

  /** Tapping card container `k` of the list screen opens the detail screen
      of card `k`, whose title text is that card's title. */
  lemma CardsNavigationResolves(cards: seq<Card>, cm: CaseMap, k: nat)
    requires k < |cards|
    requires CardsScreen(cards, cm).root.value.comp.items[k].comp.action.Some?
    ensures var a := CardsScreen(cards, cm).root.value.comp.items[k].comp.action.value;
            a.kind == "navigate" && a.url.Some? && CardIndexOf(a.url.value) == Some(k)
    ensures CardDetailScreen(cards, k).Ok?
    ensures CardDetailScreen(cards, k).value.root.value.comp.children[0].comp.text == cards[k].title
  {
    CardIndexOfCardPath(k);
  }

  /** The flat list and the rich list agree row by row: same title, and the
      flat row's target is the rich container's navigation URL. */
  lemma SimpleAndRichListsAgree(cards: seq<Card>, cm: CaseMap, k: nat)
    requires k < |cards|
    ensures var simple := SimpleCardsScreen(cards).items[k];
            var rich := CardsScreen(cards, cm).root.value.comp.items[k].comp;
            && simple.title == rich.children[0].comp.text
            && simple.actionUrl == (if rich.action.Some? then rich.action.value.url else None)
  {
  }

  /** The rich and the flat detail screens fail for exactly the same indices. */
  lemma DetailScreensFailTogether(cards: seq<Card>, cardId: int)
    ensures CardDetailScreen(cards, cardId).Err? <==> SimpleCardDetailScreen(cards, cardId).Err?
  {
  }

  /** The first and second characters of the seed titles, in seed order. */
  const SeedFirstChars: string := "РНАПНТС"
  const SeedSecondChars: string := "еевуоеп"

  /** The rich list derives container ids from titles, so on the seed they are
      pairwise distinct only because its titles differ in a non-space
      character among their first two, and only when lower-casing keeps those
      characters apart (as any real case table does: they are distinct
      lower-case or capital Cyrillic letters). */
  lemma SeedCardIdsDistinct(cm: CaseMap, i: nat, j: nat)
    requires LowerSeparates(cm, SeedFirstChars) && cm.lower('е') != cm.lower('о')
    requires i < 7 && j < 7 && i != j
    ensures CardsScreen(AllCards(), cm).root.value.comp.items[i].comp.id
            != CardsScreen(AllCards(), cm).root.value.comp.items[j].comp.id
  {
    var cards := AllCards();
    SeedSlugsDiffer(cm, i, j);
    var a := Slug(cards[i].title, cm);
    var b := Slug(cards[j].title, cm);
    assert ("card_" + a)[5..] == a;
    assert ("card_" + b)[5..] == b;
    assert CardsScreen(cards, cm).root.value.comp.items[i] == CardContainer(cards[i], i, cm);
    assert CardsScreen(cards, cm).root.value.comp.items[j] == CardContainer(cards[j], j, cm);
  }

  /** Distinct seed cards get distinct slugs under such a case table. */
  lemma SeedSlugsDiffer(cm: CaseMap, i: nat, j: nat)
    requires LowerSeparates(cm, SeedFirstChars) && cm.lower('е') != cm.lower('о')
    requires i < 7 && j < 7 && i != j
    ensures Slug(Seed[i].title, cm) != Slug(Seed[j].title, cm)
  {
    var p := if (i == 1 && j == 4) || (i == 4 && j == 1) then 1 else 0;
    SeedTitlesDifferEarly(i, j);
    SeedTitleHeads();
    var s, t := Seed[i].title, Seed[j].title;
    if p == 0 {
      assert s[0] == SeedFirstChars[i] && t[0] == SeedFirstChars[j];
    } else {
      assert s[1] == 'е' || s[1] == 'о';
      assert t[1] == 'е' || t[1] == 'о';
    }
    assert cm.lower(s[p]) != cm.lower(t[p]);
    SlugsDiffer(s, t, p, cm);
  }

  /** The first two characters of every seed title. */
  lemma SeedTitleHeads()
    ensures forall m :: 0 <= m < 7 ==>
              |Seed[m].title| >= 2 && Seed[m].title[0] == SeedFirstChars[m] && Seed[m].title[1] == SeedSecondChars[m]
  {
  }

  /** Two seed titles already differ at their first or second character, and
      neither of those characters is a space. */
  lemma SeedTitlesDifferEarly(i: nat, j: nat)
    requires i < 7 && j < 7 && i != j
    ensures var p := if (i == 1 && j == 4) || (i == 4 && j == 1) then 1 else 0;
            && |Seed[i].title| > p && |Seed[j].title| > p
            && Seed[i].title[p] != Seed[j].title[p]
            && Seed[i].title[p] != ' ' && Seed[j].title[p] != ' '
  {
  }

  /** On the seed, the detail screen of card 1 shows its title first and its
      button returns to the list. */
  lemma SeedCardDetailScreen()
    ensures CardDetailScreen(AllCards(), 1).Ok?
    ensures var children := CardDetailScreen(AllCards(), 1).value.root.value.comp.children;
            && children[0].comp.text == "Недвижимость: 5 лучших объектов"
            && children[4].comp.action.value.url == Some("/cards")
  {
  }
}
