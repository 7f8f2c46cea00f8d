/** The state the search page updates in place: the query held by the
    search library's UI state, the search box's own input value, and the
    page's stored classification. */
module SearchState {

  import opened Wrappers
  import opened RecallHits
  import opened RiskClassifier
  import opened SearchView

  /** The index UI state of the search library; `refine` writes its query. */
  class UiState {
    var query: Option<string>

    constructor (initialQuery: Option<string>)
      ensures query == initialQuery
    {
      query := initialQuery;
    }
  }

  /** CustomSearchBox: the text in the input, kept in step with the query
      it refines. */
  class SearchBox {
    var inputValue: string
    const ui: UiState

    /** The box shows the query text, and the query it refined is that text. */
    ghost predicate InSync()
      reads this, ui
    {
      inputValue == QueryText(ui.query)
    }

    /** The clear button is rendered only while the input is non-empty;
        with the box in step, that is exactly while a query is active. */
    function ClearButtonShown(): (shown: bool)
      reads this, ui
      ensures InSync() ==> (shown <==> !NoQuery(ui.query))
    {
      inputValue != ""
    }

    /** The input starts from the current query, or '' when there is none. */
    constructor (ui: UiState)
      ensures this.ui == ui && InSync()
    {
      this.ui := ui;
      inputValue := QueryText(ui.query);
    }

    /** The effect that copies an external change of the query into the box. */
    method SyncWithQuery()
      modifies this
      ensures InSync()
    {
      inputValue := QueryText(ui.query);
    }

    /** handleChange: the typed value becomes the input value and is refined
        as the query. */
    method HandleChange(v: string)
      modifies this, ui
      ensures inputValue == v && ui.query == Some(v)
      ensures InSync()
      ensures ClearButtonShown() <==> v != ""
    {
      inputValue := v;
      ui.query := Some(v);
    }

    /** handleClear: both the input value and the refined query become '',
        so the clear button disappears and whatever the index returns next
        classifies as IDLE. */
    method HandleClear()
      modifies this, ui
      ensures inputValue == "" && ui.query == Some("")
      ensures InSync()
      ensures !ClearButtonShown()
      ensures forall nbHits: nat, hits: seq<Hit> :: Classify(ui.query, nbHits, hits) == Idle
    {
      inputValue := "";
      ui.query := Some("");
    }
  }

  /** The Search component's stored state, which ResultsCounter sets whenever
      the query or the results change. */
  class SearchPage {
    var searchState: State
    const ui: UiState

    constructor (ui: UiState)
      ensures this.ui == ui && searchState == Idle
    {
      this.ui := ui;
      searchState := Idle;
    }

    /** The ResultsCounter effect: the stored state becomes the
        classification of the current query with the results just received. */
    method OnResults(nbHits: nat, hits: seq<Hit>)
      modifies this
      ensures searchState == Classify(ui.query, nbHits, hits)
      ensures NoQuery(ui.query) ==> Badges(searchState) == []
    {
      searchState := Classify(ui.query, nbHits, hits);
    }
  }

  /** A user types `v`, the results arrive, the user clears the box and the
      results for the empty query arrive: the page goes back to IDLE and
      shows the prompt under no badge. */
  method TypeThenClear(v: string, nbHits: nat, hits: seq<Hit>, nbHitsAfter: nat, hitsAfter: seq<Hit>)
    returns (typed: State, cleared: State, area: Region)
    ensures typed == Classify(Some(v), nbHits, hits)
    ensures cleared == Idle && Badges(cleared) == []
    ensures area == EnterProductPrompt
  {
    var ui := new UiState(None);
    var box := new SearchBox(ui);
    var page := new SearchPage(ui);
    box.HandleChange(v);
    page.OnResults(nbHits, hits);
    typed := page.searchState;
    box.HandleClear();
    page.OnResults(nbHitsAfter, hitsAfter);
    cleared := page.searchState;
    area := ResultsArea(ui.query, cleared, hitsAfter);
  }
}
