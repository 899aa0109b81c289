/** `CardService`: the read-only card repository. The seed is the fixed list
    the source declares; every operation takes the card sequence it reads. */
module CardService {
  import opened Base
  import opened Seqs
  import opened KotlinText
  import opened Models

  /** The seven cards the repository is created with, in declaration order. */
  const Seed: seq<Card> := [
    Card("Рекомендованные для вас", "HEADER", "header_image"),
    Card("Недвижимость: 5 лучших объектов", "ROW", "card_image_1"),
    Card("Автомобили: новинки месяца", "ROW", "card_image_2"),
    Card("Путешествия: горячие туры", "ROW", "card_image_3"),
    Card("Новые категории", "HEADER", "header_image"),
    Card("Технологии: смартфоны 2025", "ROW", "card_image_4"),
    Card("Спорт: товары для активного отдыха", "ROW", "card_image_5")
  ]

  /** `getAllCards`: the whole seed, headers at positions 0 and 4, rows elsewhere. */
  function AllCards(): (r: seq<Card>)
    ensures |r| == 7
    ensures forall i :: 0 <= i < |r| ==> (IsHeader(r[i]) <==> i == 0 || i == 4)
    ensures forall i :: 0 <= i < |r| ==> (r[i].kind == "ROW" <==> i != 0 && i != 4)
  {
    Seed
  }

  /** `getCards(count)`: Kotlin `take`, which rejects a negative count and
      otherwise returns at most `count` leading cards. */
  function GetCards(cards: seq<Card>, count: int): (r: Result<seq<Card>, Error>)
    ensures r.Err? <==> count < 0
    ensures r.Err? ==> r.error == NegativeCount(count)
    ensures r.Ok? ==> |r.value| == (if count < |cards| then count else |cards|)
    ensures r.Ok? ==> r.value <= cards
  {
    if count < 0 then Err(NegativeCount(count))
    else if count < |cards| then Ok(cards[..count])
    else Ok(cards)
  }

  /** `getCard(id)`: the card at index `id`, absent outside the valid range. */
  function GetCard(cards: seq<Card>, id: int): (r: Option<Card>)
    ensures r.Some? <==> 0 <= id < |cards|
    ensures r.Some? ==> r.value == cards[id]
  {
    if 0 <= id < |cards| then Some(cards[id]) else None
  }

  /** The search condition: not a header, and the title contains the query
      ignoring case. */
  predicate Matches(c: Card, query: string, cm: CaseMap) {
    !IsHeader(c) && ContainsIgnoreCase(c.title, query, cm)
  }

  /** `searchCards(query)`: the matching cards, in repository order. */
  function SearchCards(cards: seq<Card>, query: string, cm: CaseMap): (r: seq<Card>)
    ensures forall i :: 0 <= i < |r| ==> !IsHeader(r[i])
    ensures forall i :: 0 <= i < |r| ==> r[i] in cards && ContainsIgnoreCase(r[i].title, query, cm)
    ensures forall i :: 0 <= i < |cards| && !IsHeader(cards[i]) && ContainsIgnoreCase(cards[i].title, query, cm)
              ==> cards[i] in r
    ensures forall c :: multiset(r)[c] == if Matches(c, query, cm) then multiset(cards)[c] else 0
    ensures IsSubsequence(r, cards)
  {
    var r := Filter(cards, c => Matches(c, query, cm));
    FilterMembers(cards, c => Matches(c, query, cm));
    FilterIsSubsequence(cards, c => Matches(c, query, cm));
    r
  }

  /** The cards that are not headers, in repository order. */
  function NonHeaderCards(cards: seq<Card>): (r: seq<Card>)
    ensures forall i :: 0 <= i < |r| ==> r[i] in cards && !IsHeader(r[i])
    ensures forall i :: 0 <= i < |cards| && !IsHeader(cards[i]) ==> cards[i] in r
    ensures forall c :: multiset(r)[c] == if IsHeader(c) then 0 else multiset(cards)[c]
    ensures IsSubsequence(r, cards)
  {
    FilterMembers(cards, NotHeader);
    FilterIsSubsequence(cards, NotHeader);
    Filter(cards, NotHeader)
  }

  /** The empty query finds exactly the non-header cards, in order. */
  lemma SearchEmptyQuery(cards: seq<Card>, cm: CaseMap)
    ensures SearchCards(cards, "", cm) == NonHeaderCards(cards)
  {
    forall i | 0 <= i < |cards|
      ensures Matches(cards[i], "", cm) == !IsHeader(cards[i])
    {
      ContainsEmpty(cards[i].title, cm);
    }
    FilterCongruent(cards, c => Matches(c, "", cm), NotHeader);
  }

  /** On the seed, the empty query finds the five ROW cards. */
  lemma SeedSearchEmptyQuery(cm: CaseMap)
    ensures SearchCards(Seed, "", cm) == [Seed[1], Seed[2], Seed[3], Seed[5], Seed[6]]
  {
    SearchEmptyQuery(Seed, cm);
    NonHeadersOfSeedShape(AllCards());
  }

  /** The non-header cards of any sequence laid out like the seed. */
  lemma NonHeadersOfSeedShape(s: seq<Card>)
    requires |s| == 7
    requires forall i :: 0 <= i < |s| ==> (IsHeader(s[i]) <==> i == 0 || i == 4)
    ensures NonHeaderCards(s) == [s[1], s[2], s[3], s[5], s[6]]
  {
    var p := NotHeader;
    assert Filter(s[7..], p) == [] by { assert s[7..] == []; }
    assert Filter(s[6..], p) == [s[6]] by { FilterSuffix(s, 6, p); }
    assert Filter(s[5..], p) == [s[5], s[6]] by { FilterSuffix(s, 5, p); }
    assert Filter(s[4..], p) == [s[5], s[6]] by { FilterSuffix(s, 4, p); }
    assert Filter(s[3..], p) == [s[3], s[5], s[6]] by { FilterSuffix(s, 3, p); }
    assert Filter(s[2..], p) == [s[2], s[3], s[5], s[6]] by { FilterSuffix(s, 2, p); }
    assert Filter(s[1..], p) == [s[1], s[2], s[3], s[5], s[6]] by { FilterSuffix(s, 1, p); }
    FilterSuffix(s, 0, p);
    assert s[0..] == s;
  }

  /** A page of the first `count` cards agrees with lookup by index. */
  lemma GetCardsAgreesWithGetCard(cards: seq<Card>, count: int, i: int)
    requires 0 <= i < count
    requires i < |cards|
    ensures GetCards(cards, count).Ok?
    ensures GetCard(cards, i) == Some(GetCards(cards, count).value[i])
  {
  }

  /** Asking for at least as many cards as exist returns all of them. */
  lemma GetCardsAll(cards: seq<Card>, count: int)
    requires count >= |cards|
    ensures GetCards(cards, count) == Ok(cards)
  {
  }
}
