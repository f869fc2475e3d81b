/**
 * The similarity scorer and the top-K recommender of
 * src/utils/similarity/index.ts. Scores are counted in tenths, so the
 * weights 0.4, 0.3, 0.2 and 0.1 become 4, 3, 2 and 1 and a perfect match
 * scores 10.
 */
module Similarity {
  import opened PropertyTypes
  import opened Seqs
  import opened Sorting

  const CityWeight: nat := 4
  const TypeWeight: nat := 3
  const PriceWeight: nat := 2
  const RoomsWeight: nat := 1
  const MaxScore: nat := 10

  /** The `limit` used when the caller passes none. */
  const DefaultLimit: int := 3

  function Abs(x: int): nat {
    if x < 0 then -x else x
  }

  /** `Math.abs(price1 - price2) <= price1 * 0.2`, multiplied through by 5. */
  predicate PriceClose(price1: int, price2: int) {
    5 * Abs(price1 - price2) <= price1
  }

  predicate RoomsClose(rooms1: int, rooms2: int) {
    Abs(rooms1 - rooms2) <= 1
  }

  /** Every criterion holds: same city, same type, close price, close room count. */
  predicate AllMatch(p1: Property, p2: Property) {
    p1.ciudad == p2.ciudad && p1.tipo == p2.tipo &&
    PriceClose(p1.precio, p2.precio) && RoomsClose(p1.ambientes, p2.ambientes)
  }

  predicate NoneMatch(p1: Property, p2: Property) {
    p1.ciudad != p2.ciudad && p1.tipo != p2.tipo &&
    !PriceClose(p1.precio, p2.precio) && !RoomsClose(p1.ambientes, p2.ambientes)
  }

  /** `calculateSimilarity(property1, property2)`, in tenths. */
  function CalculateSimilarity(property1: Property, property2: Property): (score: nat)
    ensures score <= MaxScore
    ensures score == MaxScore <==> AllMatch(property1, property2)
    ensures score == 0 <==> NoneMatch(property1, property2)
  {
    (if property1.ciudad == property2.ciudad then CityWeight else 0) +
    (if property1.tipo == property2.tipo then TypeWeight else 0) +
    (if PriceClose(property1.precio, property2.precio) then PriceWeight else 0) +
    (if RoomsClose(property1.ambientes, property2.ambientes) then RoomsWeight else 0)
  }

  /** A property with a non-negative price is a perfect match for itself. */
  lemma SelfSimilarity(p: Property)
    requires p.precio >= 0
    ensures CalculateSimilarity(p, p) == MaxScore
  {
  }

  /** Swapping the arguments can only move the price contribution: the window is anchored to the first price. */
  lemma SwapChangesOnlyPrice(a: Property, b: Property)
    ensures CalculateSimilarity(a, b) - CalculateSimilarity(b, a) ==
            (if PriceClose(a.precio, b.precio) then PriceWeight else 0) -
            (if PriceClose(b.precio, a.precio) then PriceWeight else 0)
    ensures CalculateSimilarity(a, b) == CalculateSimilarity(b, a) <==>
            (PriceClose(a.precio, b.precio) <==> PriceClose(b.precio, a.precio))
  {
  }

  /** A pair for which the order of the arguments matters. */
  lemma AsymmetricPair()
    ensures var a := Property(1, "A", "Rosario", Casa, 100, 3, 50, "");
            var b := Property(2, "B", "Rosario", Casa, 80, 3, 50, "");
            CalculateSimilarity(a, b) == 10 && CalculateSimilarity(b, a) == 8
  {
  }

  // ---------------------------------------------------------------------
  // Ranking

  /** The pool without any entry sharing the target's id (`prop.id !== targetProperty.id`). */
  function Others(pool: seq<Property>, id: int): seq<Property> {
    Filter(pool, (p: Property) => p.id != id)
  }

  /** The `map` step: each candidate with its score against the target. */
  function ScoreAll(target: Property, candidates: seq<Property>): seq<PropertyWithScore> {
    seq(|candidates|, i requires 0 <= i < |candidates| =>
      PropertyWithScore(candidates[i], CalculateSimilarity(target, candidates[i])))
  }

  function ScoreKey(e: PropertyWithScore): int {
    e.similarityScore
  }

  /** The scored candidates, before the stable sort. */
  function Candidates(target: Property, pool: seq<Property>): seq<PropertyWithScore> {
    ScoreAll(target, Others(pool, target.id))
  }

  /** The scored candidates after `sort((a, b) => b.similarityScore - a.similarityScore)`. */
  function Ranked(target: Property, pool: seq<Property>): seq<PropertyWithScore> {
    SortDesc(Candidates(target, pool), ScoreKey)
  }

  /** A scored candidate of the pool: an element other than the target, with its score against the target. */
  predicate IsCandidate(target: Property, pool: seq<Property>, e: PropertyWithScore) {
    e.property in pool && e.property.id != target.id &&
    e.similarityScore == CalculateSimilarity(target, e.property)
  }

  lemma RankedEntries(target: Property, pool: seq<Property>)
    ensures |Ranked(target, pool)| == |Others(pool, target.id)|
    ensures forall i :: 0 <= i < |Ranked(target, pool)| ==> IsCandidate(target, pool, Ranked(target, pool)[i])
  {
    var others := Others(pool, target.id);
    var scored := Candidates(target, pool);
    var ranked := Ranked(target, pool);
    forall i | 0 <= i < |ranked| ensures IsCandidate(target, pool, ranked[i]) {
      assert ranked[i] in multiset(scored);
      var k :| 0 <= k < |scored| && scored[k] == ranked[i];
      assert others[k] in pool && others[k].id != target.id;
    }
  }

  /** `findSimilarProperties(targetProperty, allProperties, limit)`. */
  function FindSimilarProperties(target: Property, pool: seq<Property>, limit: int): (r: seq<PropertyWithScore>)
    ensures limit >= 0 ==> |r| == Min(limit, |Others(pool, target.id)|)
    ensures limit < 0 ==> |r| == Max(0, |Others(pool, target.id)| + limit)
    ensures forall i :: 0 <= i < |r| ==> IsCandidate(target, pool, r[i])
    ensures forall i, j :: 0 <= i < j < |r| ==> r[i].similarityScore >= r[j].similarityScore
  {
    var ranked := Ranked(target, pool);
    RankedEntries(target, pool);
    Slice(ranked, 0, limit)
  }

  /** The result is a prefix of the ranked candidates. */
  lemma ResultIsPrefix(target: Property, pool: seq<Property>, limit: int)
    ensures FindSimilarProperties(target, pool, limit) <= Ranked(target, pool)
  {
  }

  /** Top-K: a candidate scoring strictly higher than some returned entry is itself returned. */
  lemma TopK(target: Property, pool: seq<Property>, limit: int, p: Property, i: int)
    requires p in pool && p.id != target.id
    requires 0 <= i < |FindSimilarProperties(target, pool, limit)|
    requires CalculateSimilarity(target, p) > FindSimilarProperties(target, pool, limit)[i].similarityScore
    ensures PropertyWithScore(p, CalculateSimilarity(target, p)) in FindSimilarProperties(target, pool, limit)
  {
    var r := FindSimilarProperties(target, pool, limit);
    var ranked := Ranked(target, pool);
    var others := Others(pool, target.id);
    var e := PropertyWithScore(p, CalculateSimilarity(target, p));
    ResultIsPrefix(target, pool, limit);
    var k :| 0 <= k < |others| && others[k] == p;
    assert Candidates(target, pool)[k] == e;
    assert e in multiset(ranked);
    var j :| 0 <= j < |ranked| && ranked[j] == e;
    assert ranked[i] == r[i];
    assert i < j ==> ScoreKey(ranked[i]) >= ScoreKey(ranked[j]);
    assert r[j] == e;
  }

  /** With a limit at least the number of candidates, every candidate is returned. */
  lemma AllReturnedWhenLimitSuffices(target: Property, pool: seq<Property>, limit: int)
    requires limit >= |Others(pool, target.id)|
    ensures multiset(FindSimilarProperties(target, pool, limit)) == multiset(Candidates(target, pool))
  {
    var ranked := Ranked(target, pool);
    assert FindSimilarProperties(target, pool, limit) == ranked[0..|ranked|];
    assert ranked[0..|ranked|] == ranked;
  }

  /** Stability: among entries with equal scores, the result keeps pool order. */
  lemma TiesKeepPoolOrder(target: Property, pool: seq<Property>, limit: int, v: int)
    ensures WithKey(FindSimilarProperties(target, pool, limit), ScoreKey, v) <= WithKey(Candidates(target, pool), ScoreKey, v)
  {
    var r := FindSimilarProperties(target, pool, limit);
    var ranked := Ranked(target, pool);
    ResultIsPrefix(target, pool, limit);
    assert ranked == r + ranked[|r|..];
    WithKeyAppend(r, ranked[|r|..], ScoreKey, v);
    SortStable(Candidates(target, pool), ScoreKey, v);
  }

  /** The example of the recommendation design: a target, a perfect match and a complete mismatch. */
  const RosarioTarget: Property := Property(1, "T", "Rosario", Casa, 100000, 3, 80, "")
  const RosarioMatch: Property := Property(2, "A", "Rosario", Casa, 105000, 3, 80, "")
  const CordobaMismatch: Property := Property(3, "B", "Córdoba", Departamento, 500000, 1, 80, "")

  lemma RosarioScores()
    ensures CalculateSimilarity(RosarioTarget, RosarioMatch) == 10
    ensures CalculateSimilarity(RosarioTarget, CordobaMismatch) == 0
  {
    assert AllMatch(RosarioTarget, RosarioMatch);
    assert NoneMatch(RosarioTarget, CordobaMismatch);
  }

  lemma RosarioRanked()
    ensures Ranked(RosarioTarget, [RosarioMatch, CordobaMismatch]) ==
            [PropertyWithScore(RosarioMatch, 10), PropertyWithScore(CordobaMismatch, 0)]
  {
    var pool := [RosarioMatch, CordobaMismatch];
    FilterKeepsAll(pool, (p: Property) => p.id != RosarioTarget.id);
    RosarioScores();
    var first := PropertyWithScore(RosarioMatch, 10);
    var second := PropertyWithScore(CordobaMismatch, 0);
    assert Candidates(RosarioTarget, pool) == [first, second];
    assert [first, second][1..] == [second];
    assert SortDesc([second], ScoreKey) == [second];
    assert Insert(first, [second], ScoreKey) == [first, second];
  }

  /** With limit 1, the perfect match is recommended and the mismatch is not. */
  lemma RosarioExample()
    ensures CalculateSimilarity(RosarioTarget, RosarioMatch) == 10
    ensures CalculateSimilarity(RosarioTarget, CordobaMismatch) == 0
    ensures FindSimilarProperties(RosarioTarget, [RosarioMatch, CordobaMismatch], 1) == [PropertyWithScore(RosarioMatch, 10)]
  {
    RosarioScores();
    RosarioRanked();
  }
}
