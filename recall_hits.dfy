/** The recall record returned by the hosted index for one hit, and the
    judgement of whether that hit matched the query exactly. */
module RecallHits {

  import opened Wrappers

  /** The number of hits the page asks the index for (hitsPerPage). */
  const HitsPerPage: nat := 10

  /** The ranking metadata the index attaches when asked for it. */
  datatype RankingInfo = RankingInfo(nbTypos: int, firstMatchedAttribute: string)

  /** One recall record as a hit of the index. `riskLevel` is "Serious",
      "Medium" or any other string; `rankingInfo` may be absent. */
  datatype Hit = Hit(
    objectID: string,
    productName: string,
    brand: string,
    model: string,
    riskLevel: string,
    source: string,
    description: string,
    batchNumber: Option<string>,
    rankingInfo: Option<RankingInfo>)

  /** The value of the optional chain `_rankingInfo?.nbTypos`: None when the
      hit carries no ranking information. */
  function TypoCount(h: Hit): (r: Option<int>)
    ensures r.Some? <==> h.rankingInfo.Some?
    ensures r.Some? ==> r.value == h.rankingInfo.value.nbTypos
  {
    match h.rankingInfo
    case None => None
    case Some(info) => Some(info.nbTypos)
  }

  /** A hit is an exact match when its typo count is strictly equal to 0;
      a missing count is not equal to 0. */
  function IsExact(h: Hit): (b: bool)
    ensures b <==> h.rankingInfo.Some? && h.rankingInfo.value.nbTypos == 0
  {
    TypoCount(h) == Some(0)
  }

  /** `hits.some(isExact)`, scanning from the first hit. */
  function HasExactMatch(hits: seq<Hit>): (r: bool)
    ensures r <==> exists i :: 0 <= i < |hits| && IsExact(hits[i])
  {
    if hits == [] then false
    else IsExact(hits[0]) || HasExactMatch(hits[1..])
  }

  /** A hit whose ranking information is missing is never an exact match,
      whatever else the record holds. */
  lemma MissingRankingInfoIsNotExact(h: Hit)
    requires h.rankingInfo.None?
    ensures !IsExact(h)
    ensures HasExactMatch([h]) == false
  {
  }

  /** One exact hit anywhere on the page decides the scan, whatever the
      typo counts of the hits before and after it. */
  lemma {:induction false} ExactHitDominates(before: seq<Hit>, h: Hit, after: seq<Hit>)
    requires IsExact(h)
    ensures HasExactMatch(before + [h] + after)
  {
    var page := before + [h] + after;
    assert page[|before|] == h;
  }

  /** The smallest typo count over the hits that carry one; None when no
      hit carries ranking information. The classification can be stated on
      this minimum instead of on an exact-match scan. */
  function MinTypos(hits: seq<Hit>): (r: Option<int>)
    ensures r.None? <==> forall i :: 0 <= i < |hits| ==> TypoCount(hits[i]).None?
    ensures r.Some? ==> exists i :: 0 <= i < |hits| && TypoCount(hits[i]) == r
    ensures r.Some? ==> forall i :: 0 <= i < |hits| && TypoCount(hits[i]).Some? ==>
                          r.value <= TypoCount(hits[i]).value
  {
    if hits == [] then None
    else
      var rest := MinTypos(hits[1..]);
      match TypoCount(hits[0])
      case None => rest
      case Some(t) =>
        if rest.None? || t <= rest.value then Some(t) else rest
  }

  /** The typo counts the index reports are edit distances, never negative. */
  predicate TypoCountsNonNegative(hits: seq<Hit>) {
    forall i :: 0 <= i < |hits| && hits[i].rankingInfo.Some? ==> hits[i].rankingInfo.value.nbTypos >= 0
  }

  /** With non-negative typo counts, "some hit has nbTypos === 0" and "the
      minimum typo count is 0" are the same judgement. Without that
      condition they differ: a negative count would be the minimum. */
  lemma MinTyposZeroIffExact(hits: seq<Hit>)
    requires TypoCountsNonNegative(hits)
    ensures MinTypos(hits) == Some(0) <==> HasExactMatch(hits)
  {
  }

  /** The page the index returns for the first page of a ranked result
      list: its first HitsPerPage hits. */
  function FirstPage(ranked: seq<Hit>): (r: seq<Hit>)
    ensures |r| <= HitsPerPage && |r| <= |ranked|
    ensures r == ranked[..|r|]
    ensures |r| < HitsPerPage ==> r == ranked
  {
    if |ranked| <= HitsPerPage then ranked else ranked[..HitsPerPage]
  }
}
