/** The service object: it holds the catalog in its `products` field and
    answers a request by filtering, scoring, ranking and truncating. */
module Service {
  import opened Catalog
  import opened Filter
  import opened Ranking

  /** The end index `slice(0, limit)` uses on a list of length `n`: a
      non-negative limit is capped at `n`, a negative one counts back from the
      end of the list. */
  function SliceEnd(limit: int, n: nat): (e: nat)
    ensures e <= n
    ensures 0 <= limit ==> e == if limit <= n then limit else n
    ensures limit < 0 ==> e < n || n == 0
  {
    if limit < 0 then (if n + limit < 0 then 0 else n + limit)
    else if limit <= n then limit
    else n
  }

  /** `items` are the best-ranked of `scored`: in ranked order, taken from
      `scored`, and each ranks before every scored product left out. */
  ghost predicate IsTopOf(catalog: seq<Product>, items: seq<ScoredProduct>, scored: seq<ScoredProduct>)
  {
    && Ranked(catalog, items)
    && multiset(items) <= multiset(scored)
    && forall x, y :: x in items && y in multiset(scored) - multiset(items) ==> RanksBefore(catalog, x, y)
  }

  class RecommendationService {
    /** The catalog; loading it over the network is not part of this model,
        so a client assigns it directly. */
    var products: seq<Product>

    constructor()
      ensures products == []
    {
      products := [];
    }

    /** No candidate: `null` in single mode, `[]` otherwise. Single mode:
        the candidate with the highest score, earliest in the catalog among
        ties. Multiple mode: the first `slice(0, limit)` items of the ranking. */
    method GetRecommendations(prefs: Preferences, mode: Mode) returns (r: Recommendation)
      ensures var scored := ScoreAll(FilterProducts(products, prefs), prefs);
        scored == [] ==> r == if mode.Single? then NoMatch else Many([])
      ensures var scored := ScoreAll(FilterProducts(products, prefs), prefs);
        scored != [] && mode.Single? ==>
          && r.One?
          && r.item in scored
          && forall c :: c in scored ==> RanksBefore(products, r.item, c)
      ensures var scored := ScoreAll(FilterProducts(products, prefs), prefs);
        mode.Multiple? ==>
          && r.Many?
          && |r.items| == SliceEnd(mode.limit, |scored|)
          && IsTopOf(products, r.items, scored)
    {
      var filtered := FilterProducts(products, prefs);
      ghost var scored := ScoreAll(filtered, prefs);
      if |filtered| == 0 {
        if mode.Single? {
          return NoMatch;
        }
        return Many([]);
      }
      var ranked := RankCandidates(products, filtered, prefs);
      assert |ranked| == |multiset(ranked)| == |multiset(scored)| == |scored|;
      match mode
      case Single =>
        RankedHeadIsBest(products, ranked);
        assert ranked[0] in multiset(scored);
        forall c | c in scored
          ensures RanksBefore(products, ranked[0], c)
        {
          assert c in multiset(ranked);
        }
        r := One(ranked[0]);
      case Multiple(limit) =>
        var end := SliceEnd(limit, |ranked|);
        RankedPrefixIsTop(products, ranked, end);
        r := Many(ranked[..end]);
    }
  }
}
