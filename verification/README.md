# Server-driven UI screen composition, in Dafny

This project models the core of a small server-driven-UI backend written in
Kotlin. The backend answers with declarative screen descriptions that a
mobile client renders. Three parts are modelled:

- **The card repository** (`CardService`). It holds a fixed, ordered list of
  seven cards (title, kind `HEADER`/`ROW`, image reference). It can return all
  of them, the first `n`, the one at an index, or a search result.
- **The UI component model** (`UIModels.kt`). Six component variants
  (container, text, button, image, input, list) nest through the
  `ComponentWrapper {type, component}` envelope. A `Screen` roots such a tree.
- **The screen composers** (`UIService`, `SimpleUIService`). These are pure
  functions from the card sequence to the welcome, card-list and card-detail
  screens, plus their flattened "simple" counterparts.

Layout, one module per file:

| file | module | models |
|---|---|---|
| `base.dfy` | `Base` | `Option` for Kotlin nullables, `Result` for operations that throw |
| `seqs.dfy` | `Seqs` | `mapIndexed` and `filter`, and the order-preserving subsequence relation |
| `decimal.dfy` | `Decimal` | decimal rendering of indices in string templates, and its inverse |
| `kotlin_text.dfy` | `KotlinText` | `contains(…, ignoreCase = true)`, `replace(" ", "_")`, `lowercase()` |
| `models.dfy` | `Models` | `CardResponse`, `SimpleCardResponse`, `SimpleScreenResponse`, the thrown errors |
| `ui_models.dfy` | `UIModels` | the component variants, wrapper, screen, padding, margin and action |
| `routes.dfy` | `Routes` | the navigation targets `/cards` and `/card/{k}`, and how to read `k` back |
| `card_service.dfy` | `CardService` | the seed and the four repository reads |
| `simple_ui_service.dfy` | `SimpleUIService` | the flattened list and detail screens |
| `ui_service.dfy` | `UIService` | the welcome, card-list and card-detail screens |
| `consistency.dfy` | `Consistency` | properties linking the screens to the component model, the repository and each other |

Modelling choices:

- The source creates `CardService()` inside each composer. Here every
  repository read and every composer takes the card sequence as a parameter,
  and the seed is the constant `CardService.Seed`.
- The wrapper's payload is the `Component` value itself, not its JSON
  encoding. So "the envelope's tag names the variant it carries" is a
  predicate, `UIModels.WellTagged`. The composers write the tags out as
  literals, as the source does, and lemmas prove the tags are right.
- Kotlin's `type` property is named `kind`, because `type` is a Dafny keyword.
  Kotlin default arguments become default values of datatype constructor
  parameters.
- The Unicode case tables are a parameter, `KotlinText.CaseMap(upper, lower)`.
  Kotlin's ignore-case character equality (`a == b`, or equal upper cases, or
  equal lower cases of the upper cases) is transcribed as written.
  `EqualsIgnoreCaseIsFoldEquality` shows it is equality of one fold key.
- A thrown exception becomes `Err`: `NegativeCount` for `take` with a
  negative count, and `CardNotFound` for a detail screen whose card is absent.

Facts about the code that shape the model:

- The seed titles and all screen texts are Russian strings, copied verbatim.
- `GetCards` returns `Err(NegativeCount(n))` for a negative `n`, because
  Kotlin's `take` throws for a negative count.
- Action kinds are plain strings (`"navigate"`), not an enumeration.
- The `mapIndexed` lambdas of the two list screens are the helpers
  `UIService.CardContainer` and `SimpleUIService.SimpleItem`. Their behaviour
  is stated by the contracts of `UIService.CardsScreen` and
  `SimpleUIService.SimpleCardsScreen`, whose rows cover them.

## Model

| member | source | states |
|---|---|---|
| `Seqs.MapIndexed` | src/main/kotlin/SimpleUIService.kt:18 | the result has the input's length, and element k is the transform of input element k with index k, so order is preserved |
| `Seqs.Filter` | src/main/kotlin/CardService.kt:85-87 | every kept element satisfies the predicate and there are no more of them than inputs (membership, multiplicity and order are the lemmas below) |
| `Seqs.FilterMembers` | src/main/kotlin/CardService.kt:85-87 | every kept element comes from the input, every satisfying input element is kept, and each satisfying value is kept exactly as often as it occurs in the input |
| `Seqs.FilterIsSubsequence` | src/main/kotlin/CardService.kt:85-87 | the kept elements appear in their original relative order |
| `Seqs.FilterCongruent` | src/main/kotlin/CardService.kt:85-87 | two predicates that agree on every element keep the same result |
| `Decimal.NatToString` | src/main/kotlin/SimpleUIService.kt:20 | an index renders as a non-empty string of digits with no leading zero |
| `Decimal.ParseNatToString` | src/main/kotlin/SimpleUIService.kt:24 | reading the decimal rendering of an index gives that index back |
| `Decimal.NatToStringInjective` | src/main/kotlin/SimpleUIService.kt:20 | distinct indices render differently |
| `KotlinText.EqualsIgnoreCaseIsFoldEquality` | src/main/kotlin/CardService.kt:86 | ignore-case character equality holds exactly when both characters have the same fold key (lower case of upper case) |
| `KotlinText.StartsWithIgnoreCase` | src/main/kotlin/CardService.kt:86 | the text begins with the query, character by character ignoring case, exactly when the query fits and every position matches |
| `KotlinText.ContainsIgnoreCase` | src/main/kotlin/CardService.kt:86 | the title contains the query ignoring case exactly when some start offset gives an ignore-case match |
| `KotlinText.ContainsIgnoreCaseIsFoldedContainment` | src/main/kotlin/CardService.kt:86 | the title contains the query ignoring case exactly when the case-folded query occurs in the case-folded title |
| `KotlinText.ContainsEmpty` | src/main/kotlin/CardService.kt:86 | every title contains the empty query |
| `KotlinText.ReplaceSpacesIsCharMap` | src/main/kotlin/UIService.kt:92 | Kotlin's left-to-right `replace(" ", "_")` turns each space into an underscore and keeps every other character |
| `KotlinText.SlugsDiffer` | src/main/kotlin/UIService.kt:92 | two titles give different id fragments (`replace(" ", "_").lowercase()`) when at some position neither holds a space and their characters lower-case differently |
| `UIModels.Unwrap` | src/main/kotlin/models/UIModels.kt:23-26 | a client dispatching on the tag recovers the payload exactly when the tag names the payload's variant |
| `UIModels.Wrap` | src/main/kotlin/models/UIModels.kt:23-26 | an envelope whose tag is taken from its payload always dispatches back to that payload |
| `UIModels.DefaultsAreConsistent` | src/main/kotlin/models/UIModels.kt:10-171 | each variant's `type` defaults to its own tag; orientation defaults to vertical; a list is scrollable without a divider; a button is enabled; all offsets are 0; screen and action optionals are absent |
| `Routes.CardPath` | src/main/kotlin/SimpleUIService.kt:24 | a detail URL starts with `/card/` and is never the list URL |
| `Routes.CardIndexOfCardPath` | src/main/kotlin/UIService.kt:127 | the detail URL built for index k is read back as k |
| `Routes.CardPathInjective` | src/main/kotlin/UIService.kt:127 | different cards get different detail URLs |
| `CardService.AllCards` | src/main/kotlin/CardService.kt:21-64 | there are seven cards; those at 0 and 4 are HEADER, the rest ROW |
| `CardService.GetCards` | src/main/kotlin/CardService.kt:69-71 | a negative count is an error; otherwise the result is the prefix of length min(count, number of cards) |
| `CardService.GetCard` | src/main/kotlin/CardService.kt:76-78 | a card is present exactly when 0 <= id < number of cards, and it is the card at that index; never an error |
| `CardService.SearchCards` | src/main/kotlin/CardService.kt:83-88 | no HEADER card is returned; a card is kept exactly when it is not a header and its title contains the query ignoring case, as often as it occurs; the result is an order-preserving subsequence |
| `CardService.NonHeaderCards` | src/main/kotlin/CardService.kt:85 | exactly the non-header cards, each as often as it occurs, in order |
| `CardService.SearchEmptyQuery` | src/main/kotlin/CardService.kt:86 | the empty query returns exactly the non-header cards, in original order |
| `CardService.SeedSearchEmptyQuery` | src/main/kotlin/CardService.kt:21-57 | on the seed, the empty query returns cards 1, 2, 3, 5 and 6 |
| `CardService.GetCardsAgreesWithGetCard` | src/main/kotlin/CardService.kt:69-78 | element i of a page of cards is the card lookup by index i returns |
| `CardService.GetCardsAll` | src/main/kotlin/CardService.kt:70 | asking for at least as many cards as exist returns them all |
| `SimpleUIService.SimpleCardsScreen` | src/main/kotlin/SimpleUIService.kt:13-36 | one row per card in order; row k has id `card_k` and the card's title, kind and image; its URL is absent exactly for headers and otherwise `/card/k`; fixed screen id and colours |
| `SimpleUIService.SimpleCardDetailScreen` | src/main/kotlin/SimpleUIService.kt:41-70 | fails exactly when the card is absent; otherwise a detail row (`card_detail_id`, "Детали: " + title, DETAIL, image, no URL) and a back row (`back_button`, BUTTON, image, `/cards`); screen id `card_detail_screen_id` |
| `SimpleUIService.SimpleItemIdsDistinct` | src/main/kotlin/SimpleUIService.kt:20 | the rows of the flat list have pairwise distinct ids |
| `SimpleUIService.SimpleNavigationResolves` | src/main/kotlin/SimpleUIService.kt:24 | a row's URL is read back as its own index, whose detail screen exists and shows that card |
| `SimpleUIService.SeedSimpleCardsScreen` | src/main/kotlin/SimpleUIService.kt:15-26 | on the seed, row 0 (a header) has no URL and row 1 has `/card/1` |
| `UIService.PaddingAll` | src/main/kotlin/UIService.kt:243-245 | top, bottom, start and end all equal the given offset |
| `UIService.WelcomeScreen` | src/main/kotlin/UIService.kt:14-79 | reads no cards; the root is a container holding text, text, image, button, and the button navigates to `/cards` |
| `UIService.CardsScreen` | src/main/kotlin/UIService.kt:84-157 | the root is a list with one container per card, in order, each holding text (the title) then image (the card's image), with ids derived from the title's slug; container k navigates to `/card/k` exactly when card k is not a header; header and row styling as in the source |
| `UIService.CardDetailScreen` | src/main/kotlin/UIService.kt:162-239 | fails exactly when the card is absent; otherwise the root container holds text, text, image, text, button; the first text is the title, the image is the card's, and the button navigates to `/cards` |
| `Consistency.WelcomeScreenWellTagged` | src/main/kotlin/UIService.kt:57-75 | every envelope of the welcome screen names the variant it carries |
| `Consistency.CardsScreenWellTagged` | src/main/kotlin/UIService.kt:89-153 | every envelope of the list screen, at every depth, names the variant it carries |
| `Consistency.CardDetailScreenWellTagged` | src/main/kotlin/UIService.kt:214-235 | every envelope of a detail screen names the variant it carries |
| `Consistency.CardsNavigationResolves` | src/main/kotlin/UIService.kt:125-128 | a list container's navigate URL is read back as its own index, whose detail screen exists and is titled with that card's title |
| `Consistency.SimpleAndRichListsAgree` | src/main/kotlin/SimpleUIService.kt:24 | the flat and rich lists agree row by row on title and navigation URL |
| `Consistency.DetailScreensFailTogether` | src/main/kotlin/SimpleUIService.kt:43 | the flat and rich detail screens fail for exactly the same indices |
| `Consistency.SeedTitlesDifferEarly` | src/main/kotlin/CardService.kt:21-57 | any two seed titles differ at their first or second character, and neither is a space |
| `Consistency.SeedCardIdsDistinct` | src/main/kotlin/UIService.kt:92 | the seed's list containers get distinct ids whenever lower-casing keeps the seed titles' distinguishing letters apart (Р Н А П Т С first, е о second), as any real case table does; uniqueness rests on the seed's titles |
| `Consistency.SeedSlugsDiffer` | src/main/kotlin/UIService.kt:92 | under the same condition, distinct seed cards get distinct title slugs |
| `Consistency.SeedCardDetailScreen` | src/main/kotlin/UIService.kt:164-211 | on the seed, the detail screen of card 1 is titled "Недвижимость: 5 лучших объектов" and its button goes to `/cards` |

## Left out

- HTTP routing (`Routing.kt`) is not part of this model. This covers dispatch, response writing, logging, the `Articles` resource, the lenient id parsing (`toIntOrNull() ?: 0`, and `?: 10` for counts) and the mapping of exceptions to 404. `Routes.CardIndexOf` is only the inverse of the URL scheme. It is not Kotlin's `toIntOrNull`.
- JSON encoding by kotlinx.serialization is not modelled: it is a library whose source is not here. Its default configuration omits default-valued fields. The wrapper holds the component value instead, so the exact wire bytes are out of scope.
- The Unicode case tables are parameters (`KotlinText.CaseMap`). No concrete upper- or lower-case mapping is modelled.
- KotlinText.Lowercase: models `String.lowercase()` one character at a time through the case table. `lowercase()` is `toLowerCase(Locale.ROOT)`, which also expands a few characters to two and depends on context (a word-final capital sigma becomes 'ς'); neither is modelled.
- KotlinText.ContainsIgnoreCase: a Dafny `char` is a Unicode scalar value, while Kotlin strings, the `contains` offsets and `regionMatches` work on UTF-16 code units. Titles and queries outside the Basic Multilingual Plane are therefore not modelled exactly; the seed titles are all inside it.
- `CardsListResponse`, `TextRequest` and the `UIComponent` interface are not modelled. They are unused or carry no behaviour. The `DrawableIds` constants are inlined into the seed.
- Colours, sizes and dimension strings are opaque values. Hex formats are not checked.
- Kotlin's 32-bit `Int` is modelled as an unbounded `int`. No operation here does arithmetic that could overflow.
