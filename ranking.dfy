/** The ranking stage: every candidate is scored, and the scored list is
    sorted in place, highest score first, ties broken by the position of the
    product's id in the catalog (`findIndex`). */
module Ranking {
  import opened Catalog
  import opened Filter
  import opened Scoring

  /** `products.findIndex(p => p.id === id)`: the first position holding the
      id, or -1. */
  function IndexOf(catalog: seq<Product>, id: int): (k: int)
    ensures -1 <= k < |catalog|
    ensures 0 <= k ==> catalog[k].id == id && forall j :: 0 <= j < k ==> catalog[j].id != id
    ensures k == -1 ==> forall j :: 0 <= j < |catalog| ==> catalog[j].id != id
  {
    if catalog == [] then -1
    else if catalog[0].id == id then 0
    else
      var k := IndexOf(catalog[1..], id);
      if k == -1 then -1 else k + 1
  }

  predicate UniqueIds(catalog: seq<Product>)
  {
    forall i, j :: 0 <= i < j < |catalog| ==> catalog[i].id != catalog[j].id
  }

  /** With unique ids the tie-break key is the catalog position itself. */
  lemma IndexOfIsPosition(catalog: seq<Product>, k: int)
    requires UniqueIds(catalog) && 0 <= k < |catalog|
    ensures IndexOf(catalog, catalog[k].id) == k
  {
  }

  /** The comparator given to the second `sort`: higher score first, and
      among equal scores the earlier `findIndex` position first. */
  function Comparator(catalog: seq<Product>, a: ScoredProduct, b: ScoredProduct): int
  {
    if a.score == b.score then IndexOf(catalog, a.product.id) - IndexOf(catalog, b.product.id)
    else b.score - a.score
  }

  /** "x may stand before y": the comparator does not put y first. The order
      is total: when x may not stand before y, y strictly precedes x. */
  predicate RanksBefore(catalog: seq<Product>, x: ScoredProduct, y: ScoredProduct): (b: bool)
    ensures b <==> Comparator(catalog, x, y) <= 0
    ensures !b ==> Comparator(catalog, y, x) < 0
  {
    x.score > y.score
    || (x.score == y.score && IndexOf(catalog, x.product.id) <= IndexOf(catalog, y.product.id))
  }

  /** Scores never increase along the list, and equal scores follow the
      catalog order. */
  predicate Ranked(catalog: seq<Product>, s: seq<ScoredProduct>)
  {
    forall i, j :: 0 <= i < j < |s| ==> RanksBefore(catalog, s[i], s[j])
  }

  /** `filteredProducts.map(product => ({...product, score}))`: one scored
      product per candidate, in order, each keeping its product unchanged and
      carrying that product's score. */
  function ScoreAll(candidates: seq<Product>, prefs: Preferences): (r: seq<ScoredProduct>)
    ensures |r| == |candidates|
    ensures forall i :: 0 <= i < |r| ==> r[i].product == candidates[i]
    ensures forall x :: x in r ==> x.product in candidates && x.score == Score(x.product, prefs)
  {
    seq(|candidates|, i requires 0 <= i < |candidates| => ScoredProduct(candidates[i], Score(candidates[i], prefs)))
  }

  method Swap(a: array<ScoredProduct>, i: int, j: int)
    requires 0 <= i < a.Length && 0 <= j < a.Length
    modifies a
    ensures a[i] == old(a[j]) && a[j] == old(a[i])
    ensures forall k :: 0 <= k < a.Length && k != i && k != j ==> a[k] == old(a[k])
    ensures multiset(a[..]) == old(multiset(a[..]))
  {
    a[i], a[j] := a[j], a[i];
  }

  /** Insertion sort by the comparator: the array ends up ranked and holds
      the same elements. An element moves left only past one that it strictly
      beats, so equal keys keep their order. */
  method SortByRank(catalog: seq<Product>, a: array<ScoredProduct>)
    modifies a
    ensures Ranked(catalog, a[..])
    ensures multiset(a[..]) == old(multiset(a[..]))
  {
    var i := 1;
    while i < a.Length
      invariant a.Length == 0 || 1 <= i <= a.Length
      invariant forall p, q :: 0 <= p < q < i && q < a.Length ==> RanksBefore(catalog, a[p], a[q])
      invariant multiset(a[..]) == old(multiset(a[..]))
    {
      var j := i;
      while 0 < j && !RanksBefore(catalog, a[j - 1], a[j])
        invariant 0 <= j <= i < a.Length
        invariant forall p, q :: 0 <= p < q <= i && p != j && q != j ==> RanksBefore(catalog, a[p], a[q])
        invariant forall q :: j < q <= i ==> RanksBefore(catalog, a[j], a[q])
        invariant 0 < j < i ==> RanksBefore(catalog, a[j - 1], a[j + 1])
        invariant multiset(a[..]) == old(multiset(a[..]))
      {
        Swap(a, j - 1, j);
        j := j - 1;
      }
      i := i + 1;
    }
  }

  /** Scores every candidate into a fresh array, sorts it in place and
      returns its contents: a ranked permutation of the scored candidates. */
  method RankCandidates(catalog: seq<Product>, candidates: seq<Product>, prefs: Preferences)
    returns (ranked: seq<ScoredProduct>)
    ensures multiset(ranked) == multiset(ScoreAll(candidates, prefs))
    ensures Ranked(catalog, ranked)
  {
    var a := new ScoredProduct[|candidates|];
    for i := 0 to |candidates|
      invariant forall k :: 0 <= k < i ==> a[k] == ScoredProduct(candidates[k], Score(candidates[k], prefs))
    {
      var s := CalculateProductScore(candidates[i], prefs);
      a[i] := ScoredProduct(candidates[i], s);
    }
    assert a[..] == ScoreAll(candidates, prefs);
    SortByRank(catalog, a);
    ranked := a[..];
  }

  /** The head of a ranked list has the highest score, and among equal
      scores the earliest catalog position. */
  lemma RankedHeadIsBest(catalog: seq<Product>, s: seq<ScoredProduct>)
    requires Ranked(catalog, s) && s != []
    ensures forall x :: x in s ==> RanksBefore(catalog, s[0], x)
    ensures forall x :: x in s ==> s[0].score >= x.score
  {
    forall x | x in s
      ensures RanksBefore(catalog, s[0], x)
    {
      var j :| 0 <= j < |s| && s[j] == x;
    }
  }

  /** A prefix of a ranked list holds the best-ranked elements: every element
      left out ranks after every element kept. */
  lemma RankedPrefixIsTop(catalog: seq<Product>, s: seq<ScoredProduct>, k: nat)
    requires Ranked(catalog, s) && k <= |s|
    ensures Ranked(catalog, s[..k])
    ensures multiset(s[..k]) <= multiset(s)
    ensures forall x, y :: x in s[..k] && y in multiset(s) - multiset(s[..k]) ==> RanksBefore(catalog, x, y)
  {
    assert s == s[..k] + s[k..];
    assert multiset(s) == multiset(s[..k]) + multiset(s[k..]);
    forall x, y | x in s[..k] && y in multiset(s) - multiset(s[..k])
      ensures RanksBefore(catalog, x, y)
    {
      assert y in multiset(s[k..]);
      var i :| 0 <= i < k && s[i] == x;
      var j :| 0 <= j < |s[k..]| && s[k..][j] == y;
      assert s[k + j] == y;
    }
  }

  /** No two distinct elements of `s` tie on both score and catalog position. */
  predicate KeysDistinct(catalog: seq<Product>, s: seq<ScoredProduct>)
  {
    forall x, y :: x in s && y in s && RanksBefore(catalog, x, y) && RanksBefore(catalog, y, x) ==> x == y
  }

  /** Scored candidates of a catalog with unique ids never tie on the full
      key, because the catalog position identifies the product. */
  lemma CandidateKeysDistinct(catalog: seq<Product>, prefs: Preferences)
    requires UniqueIds(catalog)
    ensures KeysDistinct(catalog, ScoreAll(FilterProducts(catalog, prefs), prefs))
  {
    var scored := ScoreAll(FilterProducts(catalog, prefs), prefs);
    forall x, y | x in scored && y in scored && RanksBefore(catalog, x, y) && RanksBefore(catalog, y, x)
      ensures x == y
    {
      assert x.product in catalog && y.product in catalog;
      var i :| 0 <= i < |catalog| && catalog[i] == x.product;
      var j :| 0 <= j < |catalog| && catalog[j] == y.product;
      IndexOfIsPosition(catalog, i);
      IndexOfIsPosition(catalog, j);
    }
  }

  /** Two ranked arrangements of the same elements with distinct keys start
      with the same element. */
  lemma SameHead(catalog: seq<Product>, r1: seq<ScoredProduct>, r2: seq<ScoredProduct>)
    requires r1 != [] && r2 != [] && multiset(r1) == multiset(r2)
    requires Ranked(catalog, r1) && Ranked(catalog, r2)
    requires KeysDistinct(catalog, r1)
    ensures r1[0] == r2[0]
  {
    assert r2[0] in multiset(r1) && r1[0] in multiset(r2);
    RankedHeadIsBest(catalog, r1);
    RankedHeadIsBest(catalog, r2);
  }

  lemma SameTailElements(r1: seq<ScoredProduct>, r2: seq<ScoredProduct>)
    requires r1 != [] && r2 != [] && r1[0] == r2[0] && multiset(r1) == multiset(r2)
    ensures multiset(r1[1..]) == multiset(r2[1..])
  {
    assert r1 == [r1[0]] + r1[1..] && r2 == [r2[0]] + r2[1..];
    assert multiset(r1) == multiset{r1[0]} + multiset(r1[1..]);
    assert multiset(r2) == multiset{r1[0]} + multiset(r2[1..]);
    forall x ensures multiset(r1[1..])[x] == multiset(r2[1..])[x] {
      assert multiset(r1)[x] == multiset(r2)[x];
    }
  }

  /** Two ranked arrangements of the same elements with distinct keys are the
      same list: the order does not depend on how the sort proceeds. */
  lemma {:induction false} RankedIsUnique(catalog: seq<Product>, r1: seq<ScoredProduct>, r2: seq<ScoredProduct>)
    requires multiset(r1) == multiset(r2)
    requires Ranked(catalog, r1) && Ranked(catalog, r2)
    requires KeysDistinct(catalog, r1)
    ensures r1 == r2
  {
    assert |r1| == |multiset(r1)| == |multiset(r2)| == |r2|;
    if r1 != [] {
      SameHead(catalog, r1, r2);
      SameTailElements(r1, r2);
      assert forall x :: x in r1[1..] ==> x in r1;
      RankedIsUnique(catalog, r1[1..], r2[1..]);
      assert r1 == [r1[0]] + r1[1..] && r2 == [r2[0]] + r2[1..];
    }
  }

  /** The ranking of a catalog's candidates is fully determined by the
      catalog and the preferences. */
  lemma RankingIsDeterministic(catalog: seq<Product>, prefs: Preferences, r1: seq<ScoredProduct>, r2: seq<ScoredProduct>)
    requires UniqueIds(catalog)
    requires multiset(r1) == multiset(ScoreAll(FilterProducts(catalog, prefs), prefs)) && Ranked(catalog, r1)
    requires multiset(r2) == multiset(ScoreAll(FilterProducts(catalog, prefs), prefs)) && Ranked(catalog, r2)
    ensures r1 == r2
  {
    var scored := ScoreAll(FilterProducts(catalog, prefs), prefs);
    CandidateKeysDistinct(catalog, prefs);
    assert forall x :: x in r1 ==> x in scored by {
      forall x | x in r1 ensures x in scored { assert x in multiset(scored); }
    }
    RankedIsUnique(catalog, r1, r2);
  }
}
