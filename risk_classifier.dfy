/** The risk classifier of the search page (ResultsCounter): from the query,
    the total hit count and the page of hits the index returned, one of four
    states. */
module RiskClassifier {

  import opened Wrappers
  import opened RecallHits

  /** IDLE: nothing typed yet; RED: an exact match, the product is recalled;
      ORANGE: only approximate matches; GREEN: no match at all. */
  datatype State = Idle | Red | Orange | Green

  /** The text `query || ''` that the search box shows for a query: ''
      for an undefined query, the query itself otherwise. */
  function QueryText(query: Option<string>): (t: string)
    ensures t == "" <==> query.None? || query.value == ""
    ensures t != "" ==> query == Some(t)
  {
    match query
    case None => ""
    case Some(q) => q
  }

  /** The test `!query`: the query is undefined or the empty string. A
      query made of spaces is not empty. */
  function NoQuery(query: Option<string>): (b: bool)
    ensures b <==> QueryText(query) == ""
  {
    query.None? || query.value == ""
  }

  /** The classification ResultsCounter reports for one query/result pair.
      Emptiness of the query is tested first, then the TOTAL hit count, and
      only then the hits on the returned page: IDLE exactly for an empty
      query, whatever the index returned; GREEN exactly for a non-empty
      query with no hits in total, the page playing no part; RED and ORANGE
      for a non-empty query with hits, according to whether some hit on the
      page has typo count 0. */
  function Classify(query: Option<string>, nbHits: nat, hits: seq<Hit>): (s: State)
    ensures s == Idle <==> NoQuery(query)
    ensures s == Green <==> !NoQuery(query) && nbHits == 0
    ensures s == Red <==>
              !NoQuery(query) && nbHits > 0 && exists i :: 0 <= i < |hits| && IsExact(hits[i])
    ensures s == Orange <==>
              !NoQuery(query) && nbHits > 0 && forall i :: 0 <= i < |hits| ==> !IsExact(hits[i])
  {
    if NoQuery(query) then Idle
    else if nbHits == 0 then Green
    else if HasExactMatch(hits) then Red
    else Orange
  }

  /** An exact hit anywhere on the page makes a non-empty query with hits
      RED, whatever the other hits' typo counts. */
  lemma ExactHitMakesRed(query: Option<string>, nbHits: nat, before: seq<Hit>, h: Hit, after: seq<Hit>)
    requires !NoQuery(query) && nbHits > 0 && IsExact(h)
    ensures Classify(query, nbHits, before + [h] + after) == Red
  {
    ExactHitDominates(before, h, after);
  }

  /** Hits with no ranking information never make a query RED: a page made
      only of them (the empty page included) gives ORANGE once the index
      reports any hit. */
  lemma UnrankedPageIsOrange(query: Option<string>, nbHits: nat, hits: seq<Hit>)
    requires !NoQuery(query) && nbHits > 0
    requires forall i :: 0 <= i < |hits| ==> hits[i].rankingInfo.None?
    ensures Classify(query, nbHits, hits) == Orange
  {
  }

  /** The classification is determined by three facts and nothing else:
      whether the query is empty, whether the total count is 0, and whether
      the page has an exact hit. Two calls that agree on them agree. */
  lemma ClassifyDeterminedBy(q1: Option<string>, n1: nat, h1: seq<Hit>,
                             q2: Option<string>, n2: nat, h2: seq<Hit>)
    requires NoQuery(q1) == NoQuery(q2)
    requires (n1 == 0) == (n2 == 0)
    requires HasExactMatch(h1) == HasExactMatch(h2)
    ensures Classify(q1, n1, h1) == Classify(q2, n2, h2)
  {
  }

  /** The classifier stated on the minimum typo count instead of on an
      exact-match scan. */
  function ClassifyByMinTypos(query: Option<string>, nbHits: nat, hits: seq<Hit>): (s: State)
    ensures s == Idle <==> NoQuery(query)
    ensures s == Green <==> !NoQuery(query) && nbHits == 0
  {
    if NoQuery(query) then Idle
    else if nbHits == 0 then Green
    else if MinTypos(hits) == Some(0) then Red
    else Orange
  }

  /** With the non-negative typo counts the index reports, the classifier
      agrees with the minimum-typo formulation on every input. */
  lemma ClassifyAgreesWithMinTypos(query: Option<string>, nbHits: nat, hits: seq<Hit>)
    requires TypoCountsNonNegative(hits)
    ensures Classify(query, nbHits, hits) == ClassifyByMinTypos(query, nbHits, hits)
  {
  }

  /** Exactness is judged on the returned page only, GREEN on the total
      count: for the first page of a ranked result list, the state is RED
      exactly when one of the first HitsPerPage hits is exact. */
  lemma FirstPageDecides(query: Option<string>, ranked: seq<Hit>)
    ensures Classify(query, |ranked|, FirstPage(ranked)) == Red <==>
              !NoQuery(query) && exists i :: 0 <= i < |ranked| && i < HitsPerPage && IsExact(ranked[i])
  {
  }

  /** An exact record ranked eleventh, behind ten approximate ones, leaves
      the query ORANGE although the index reports it. */
  lemma ExactHitBeyondFirstPage(query: Option<string>, fuzzy: Hit, exact: Hit)
    requires !NoQuery(query) && !IsExact(fuzzy) && IsExact(exact)
    ensures Classify(query, 11, FirstPage(seq(10, _ => fuzzy) + [exact])) == Orange
  {
  }
}
