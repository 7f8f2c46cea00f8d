# Recall Radar: the risk classifier of the search page

Recall Radar is a web page where a user types a product, brand or model name and learns
whether it matches a product-safety recall record. A hosted search index does the matching,
typo tolerance and ranking. The page's own logic is small. It turns the query, the total hit
count and the typo counts of the returned hits into one of four states: IDLE (nothing typed),
RED (an exact match, the product is recalled), ORANGE (only approximate matches) and GREEN
(no match). From that state it picks the status badge, the results area and, on each result
card, the colour of the risk chip. The search box keeps its input text in step with the query
it sends to the index.

This project models that logic in Dafny and proves its properties:

- `wrappers.dfy`, module `Wrappers`: the `Option` datatype.
- `recall_hits.dfy`, module `RecallHits`: the recall record as a hit, its optional ranking
  information, what counts as an exact hit, the `.some` scan over the page, the minimum typo
  count used as a reference definition, and the first page of a ranked list.
- `risk_classifier.dfy`, module `RiskClassifier`: the four states, query emptiness, the
  classifier, and lemmas that characterise each state in both directions.
- `search_view.dfy`, module `SearchView`: the badges, the results area, the hit cards and the
  risk-chip colour.
- `search_state.dfy`, module `SearchState`: the state updated in place, as classes. `UiState`
  holds the search library's query. `SearchBox` holds the input value with its change and clear
  handlers. `SearchPage` holds the stored classification.

The query is `Option<string>` because the library's UI state may leave it undefined. The
source's test `!query` is `NoQuery`: it holds for undefined and for `''`, and a query of spaces
is not empty. Typo counts are `int` and compared with `0` exactly, as `=== 0` does. A hit
without ranking information has no typo count and is never exact.

Two nearby formulations of the classifier differ from the code, and the model follows the
code. The first decides GREEN on an empty page of hits. The code decides it on the total hit
count `nbHits`, so `nbHits > 0` with an empty page is ORANGE, not GREEN. The second decides RED on
the minimum typo count over the results. The code asks whether some hit on the page has a count
of exactly 0. `ClassifyAgreesWithMinTypos` proves the two agree whenever typo counts are
non-negative, as edit distances are. Only the returned page (at most ten hits) is looked at.
`ExactHitBeyondFirstPage` shows that an exact record ranked eleventh leaves the query ORANGE.

## Model

| member | source | states |
|---|---|---|
| `RecallHits.TypoCount` | src/components/Search.tsx:55 | the optional chain `_rankingInfo?.nbTypos`: a count exactly when ranking information is present, and then the hit's `nbTypos` |
| `RecallHits.IsExact` | src/components/Search.tsx:55 | a hit is exact exactly when it carries ranking information whose `nbTypos` is 0 |
| `RecallHits.HasExactMatch` | src/components/Search.tsx:53-56 | the scan over the page is true exactly when some hit on the page has typo count 0 |
| `RecallHits.MissingRankingInfoIsNotExact` | src/components/Search.tsx:55 | a hit with no ranking information is not an exact match, and a page holding only that hit has none |
| `RecallHits.ExactHitDominates` | src/components/Search.tsx:53-56 | one exact hit anywhere on the page makes the scan true, whatever the hits around it |
| `RecallHits.MinTypos` | src/components/Search.tsx:53-59 | reference definition: None when no hit has a typo count, otherwise a count some hit has and that no hit's count is below |
| `RecallHits.MinTyposZeroIffExact` | src/components/Search.tsx:53-56 | with non-negative typo counts, the minimum count is 0 exactly when some hit on the page is exact |
| `RecallHits.FirstPage` | src/components/Search.tsx:150 | the returned page is a prefix of the ranked list with at most `hitsPerPage` = 10 hits, and the whole list when shorter |
| `RiskClassifier.QueryText` | src/components/Search.tsx:71-76 | `query \|\| ''` is empty exactly when the query is undefined or empty, and otherwise is the query itself |
| `RiskClassifier.NoQuery` | src/components/Search.tsx:45 | the test `!indexUiState.query` holds exactly when `query \|\| ''` is empty: for an undefined or empty query, not for one of spaces |
| `RiskClassifier.Classify` | src/components/Search.tsx:44-63 | IDLE exactly for an empty query, whatever the results; GREEN exactly for a non-empty query with `nbHits` 0, the page not looked at; RED exactly when moreover `nbHits` > 0 and some page hit has typo count 0; ORANGE exactly for a non-empty query with `nbHits` > 0 and no page hit has typo count 0 |
| `RiskClassifier.ExactHitMakesRed` | src/components/Search.tsx:53-59 | an exact hit at any position makes a non-empty query with hits RED, whatever the other hits' typo counts |
| `RiskClassifier.UnrankedPageIsOrange` | src/components/Search.tsx:53-62 | a page whose hits all lack ranking information, the empty page included, gives ORANGE when the total count is positive |
| `RiskClassifier.ClassifyDeterminedBy` | src/components/Search.tsx:44-64 | the state depends only on query emptiness, on whether the total count is 0 and on whether the page has an exact hit |
| `RiskClassifier.ClassifyByMinTypos` | src/components/Search.tsx:44-63 | reference classifier on the minimum typo count: IDLE exactly for an empty query, GREEN exactly for a non-empty query with no hits |
| `RiskClassifier.ClassifyAgreesWithMinTypos` | src/components/Search.tsx:44-63 | with non-negative typo counts the classifier and the minimum-typo classifier agree on every input |
| `RiskClassifier.FirstPageDecides` | src/components/Search.tsx:50-59 | for the first page of a ranked list, RED exactly when the query is non-empty and one of the first ten ranked hits is exact |
| `RiskClassifier.ExactHitBeyondFirstPage` | src/components/Search.tsx:150 | an exact record ranked eleventh behind ten approximate ones leaves the query ORANGE |
| `SearchView.Badges` | src/components/Search.tsx:163-182 | at most one badge is rendered, and none exactly in IDLE |
| `SearchView.BadgeOfEachState` | src/components/Search.tsx:164-181 | RED, ORANGE and GREEN each show their own badge, and distinct states show distinct badges |
| `SearchView.ChipFor` | src/components/Search.tsx:120 | the risk chip is red exactly for the risk level "Serious"; "Medium" and every other string get orange |
| `SearchView.CardFor` | src/components/Search.tsx:114-139 | a card shows the hit's name, brand, model, source and description, the label "<risk level> Risk", and a red chip exactly for "Serious" |
| `SearchView.Cards` | src/components/Search.tsx:203 | the hit list has one card per page hit, in page order |
| `SearchView.ResultsArea` | src/components/Search.tsx:186-205 | the prompt exactly for an empty query; otherwise the disclaimer exactly in GREEN and the hit list of the page in every other state |
| `SearchView.ViewOfClassifiedResults` | src/components/Search.tsx:160-205 | after classification: an empty query shows the prompt and no badge; GREEN its badge and the disclaimer; RED and ORANGE one badge and a card per hit, with its description |
| `SearchView.IdleStateWithQueryShowsHits` | src/components/Search.tsx:186-205 | while the stored state is still IDLE for a non-empty query, there is no badge and the results area shows the hit list |
| `SearchView.ExactTeddyIsRecalled` | src/components/Search.tsx:53-59 | one hit with typo count 0 for "ToyWorld Teddy" gives RED, the recalled badge and that hit's card |
| `SearchView.NoHitsIsNoRecall` | src/components/Search.tsx:176-201 | no hits for a non-empty query give GREEN, the no-recall badge and the disclaimer |
| `SearchState.UiState.constructor` | src/components/Search.tsx:70 | the search library's UI state starts with the given query, which may be undefined |
| `SearchState.SearchBox.constructor` | src/components/Search.tsx:71 | the input starts as the current query, or '' when there is none, so box and query are in step |
| `SearchState.SearchBox.SyncWithQuery` | src/components/Search.tsx:74-76 | the input value becomes the text of the current query, which is left unchanged |
| `SearchState.SearchBox.HandleChange` | src/components/Search.tsx:78-82 | the input value and the refined query both become the typed value; the clear button is shown exactly when that value is non-empty |
| `SearchState.SearchBox.HandleClear` | src/components/Search.tsx:84-87 | input value and refined query both become ''; the clear button is hidden and every next classification is IDLE |
| `SearchState.SearchBox.ClearButtonShown` | src/components/Search.tsx:101 | while the box is in step with the query, the clear button is shown exactly when a query is active |
| `SearchState.SearchPage.constructor` | src/components/Search.tsx:142 | the stored state starts as IDLE |
| `SearchState.SearchPage.OnResults` | src/components/Search.tsx:44-64 | the stored state becomes the classification of the current query with the results received, so an empty query leaves no badge |
| `SearchState.TypeThenClear` | src/components/Search.tsx:78-87 | typing a value classifies its results; clearing afterwards returns the page to IDLE, with no badge and the prompt |

## Left out

- Search by the hosted index (tokenisation, typo distance, ranking, transport) is not modelled. Paging is not modelled beyond the first page of `hitsPerPage` hits (`FirstPage`). The total count `nbHits` and the page of hits are inputs.
- SearchState.SearchBox.HandleChange and SearchState.SearchBox.HandleClear model the library call `refine(v)` as an immediate write of `v` to the UI state's query. `HandleClear`'s promise that the next classification is IDLE rests on that. The library's own handling of `refine` is not modelled. The source takes `refine` from the `useInstantSearch` hook; whether that hook provides it is not part of this model. If it did not, the handlers at src/components/Search.tsx:81 and :86 would fail instead of updating the query.
- Async order of responses and suppression of stale responses are not modelled. A response for a superseded query is the search library's and React's concern. `OnResults` classifies against the query current when it runs.
- React rendering, effect scheduling, class-name merging (`cn`), icons and every style are not modelled. The one exception is the choice between the red and orange risk chip.
- The badge texts, the disclaimer text and the prompt text are constructors of `Badge` and `Region`, not strings.
- src/app/page.tsx is not part of this model. It is a static layout whose only dynamic value is the current year.
- src/lib/algolia.ts is not part of this model. It builds the external client from environment variables with empty-string fallbacks.
- `nbTypos` is modelled as an integer. A non-integer number such as `0.5` would not be exact in the source either.
