/** What the search page shows for a state: the status badge, the results
    area (EmptyQueryBoundary and its children) and the cards of the hit list
    with their risk chip. */
module SearchView {

  import opened Wrappers
  import opened RecallHits
  import opened RiskClassifier

  /** The three status badges: "Product Recalled", "Possible recall match —
      verify brand/model details", "No recall found". */
  datatype Badge = ProductRecalled | PossibleRecallMatch | NoRecallFound

  /** The style of a card's risk chip: the red or the orange one. */
  datatype Chip = RedChip | OrangeChip

  /** One rendered result card (HitCard): title, brand and model, source,
      description, and the risk chip with its label. */
  datatype Card = Card(
    productName: string,
    brand: string,
    model: string,
    source: string,
    description: string,
    riskLabel: string,
    chip: Chip)

  /** The results area: the prompt to enter a product name, the no-recall
      disclaimer, or the list of cards for the page of hits. */
  datatype Region = EnterProductPrompt | NoRecallDisclaimer | HitList(cards: seq<Card>)

  /** The badges the badge row renders: each of its three conditional
      blocks adds its badge when the state is its own. */
  function Badges(s: State): (r: seq<Badge>)
    ensures |r| <= 1
    ensures r == [] <==> s == Idle
  {
    (if s == Red then [ProductRecalled] else [])
    + (if s == Orange then [PossibleRecallMatch] else [])
    + (if s == Green then [NoRecallFound] else [])
  }

  /** RED, ORANGE and GREEN each show their own badge, and no two states
      show the same badges. */
  lemma BadgeOfEachState(s: State, t: State)
    ensures Badges(s) == [ProductRecalled] <==> s == Red
    ensures Badges(s) == [PossibleRecallMatch] <==> s == Orange
    ensures Badges(s) == [NoRecallFound] <==> s == Green
    ensures Badges(s) == Badges(t) ==> s == t
  {
    assert Badges(Idle) == [];
    assert Badges(Red) == [ProductRecalled];
    assert Badges(Orange) == [PossibleRecallMatch];
    assert Badges(Green) == [NoRecallFound];
  }

  /** The chip is red exactly for the risk level "Serious"; every other
      string, "Medium" included, gets the orange chip. */
  function ChipFor(riskLevel: string): (c: Chip)
    ensures c == RedChip <==> riskLevel == "Serious"
    ensures riskLevel == "Medium" ==> c == OrangeChip
  {
    if riskLevel == "Serious" then RedChip else OrangeChip
  }

  /** The card for one hit: its own fields, "<risk level> Risk" as the chip
      label and the chip that the risk level selects. */
  function CardFor(h: Hit): (c: Card)
    ensures c.productName == h.productName && c.description == h.description
    ensures c.brand == h.brand && c.model == h.model && c.source == h.source
    ensures c.riskLabel == h.riskLevel + " Risk"
    ensures c.chip == RedChip <==> h.riskLevel == "Serious"
  {
    Card(h.productName, h.brand, h.model, h.source, h.description,
         h.riskLevel + " Risk", ChipFor(h.riskLevel))
  }

  /** The hit list: one card per hit of the page, in the page's order. */
  function Cards(hits: seq<Hit>): (cs: seq<Card>)
    ensures |cs| == |hits|
    ensures forall i :: 0 <= i < |hits| ==> cs[i] == CardFor(hits[i])
  {
    if hits == [] then [] else [CardFor(hits[0])] + Cards(hits[1..])
  }

  /** The results area. The prompt is chosen on the query itself, not on
      the stored state; a non-empty query shows the disclaimer in GREEN and
      the hit list in every other state. */
  function ResultsArea(query: Option<string>, s: State, hits: seq<Hit>): (r: Region)
    ensures r == EnterProductPrompt <==> NoQuery(query)
    ensures r == NoRecallDisclaimer <==> !NoQuery(query) && s == Green
    ensures r.HitList? <==> !NoQuery(query) && s != Green
    ensures r.HitList? ==> r.cards == Cards(hits)
  {
    if NoQuery(query) then EnterProductPrompt
    else if s == Green then NoRecallDisclaimer
    else HitList(Cards(hits))
  }

  /** The page once the state has been recomputed for the current query
      and results: an empty query shows the prompt and no badge; GREEN shows
      its badge and the disclaimer instead of a list; RED and ORANGE show
      their badge and one card per hit of the page. */
  lemma ViewOfClassifiedResults(query: Option<string>, nbHits: nat, hits: seq<Hit>)
    ensures var s := Classify(query, nbHits, hits);
            var r := ResultsArea(query, s, hits);
            (NoQuery(query) ==> Badges(s) == [] && r == EnterProductPrompt)
            && (s == Green ==> Badges(s) == [NoRecallFound] && r == NoRecallDisclaimer)
            && (s == Red || s == Orange ==>
                  |Badges(s)| == 1 && r.HitList? && |r.cards| == |hits|
                  && forall i :: 0 <= i < |hits| ==> r.cards[i].description == hits[i].description)
  {
  }

  /** Before the state catches up with a newly typed query it is still
      IDLE: the page then shows the hit list under no badge. */
  lemma IdleStateWithQueryShowsHits(query: Option<string>, hits: seq<Hit>)
    requires !NoQuery(query)
    ensures Badges(Idle) == []
    ensures ResultsArea(query, Idle, hits) == HitList(Cards(hits))
  {
  }

  /** One hit for "ToyWorld Teddy" with no typo: the RED badge and that
      hit's card, description included. */
  lemma ExactTeddyIsRecalled(teddy: Hit)
    requires teddy.rankingInfo == Some(RankingInfo(0, "product_name"))
    ensures Classify(Some("ToyWorld Teddy"), 1, [teddy]) == Red
    ensures Badges(Red) == [ProductRecalled]
    ensures ResultsArea(Some("ToyWorld Teddy"), Red, [teddy]) == HitList([CardFor(teddy)])
  {
  }

  /** No hit at all for a non-empty query: the GREEN badge and the
      disclaimer, not a result list. */
  lemma NoHitsIsNoRecall(query: Option<string>)
    requires !NoQuery(query)
    ensures Classify(query, 0, []) == Green
    ensures Badges(Green) == [NoRecallFound]
    ensures ResultsArea(query, Green, []) == NoRecallDisclaimer
  {
  }
}
