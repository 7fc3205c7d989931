/** The statistics aggregator: count, mean price, distinct categories in
    first-occurrence order, and the lowest and highest price. */
module Stats {
  import opened Catalog

  function Prices(recs: seq<Product>): (prices: seq<real>)
    ensures |prices| == |recs|
    ensures forall i :: 0 <= i < |recs| ==> prices[i] == recs[i].price
  {
    seq(|recs|, i requires 0 <= i < |recs| => recs[i].price)
  }

  function Categories(recs: seq<Product>): (cats: seq<string>)
    ensures |cats| == |recs|
    ensures forall i :: 0 <= i < |recs| ==> cats[i] == recs[i].category
  {
    seq(|recs|, i requires 0 <= i < |recs| => recs[i].category)
  }

  /** `prices.reduce((sum, price) => sum + price, 0)`: 0 for no prices, and
      never negative when no price is. */
  function Sum(s: seq<real>): (r: real)
    ensures s == [] ==> r == 0.0
    ensures (forall i :: 0 <= i < |s| ==> 0.0 <= s[i]) ==> 0.0 <= r
  {
    if s == [] then 0.0 else Sum(s[..|s| - 1]) + s[|s| - 1]
  }

  /** `Math.min(...prices)` */
  function Min(s: seq<real>): (m: real)
    requires s != []
    ensures m in s
    ensures forall i :: 0 <= i < |s| ==> m <= s[i]
  {
    if |s| == 1 then s[0]
    else
      var rest := Min(s[1..]);
      if s[0] <= rest then s[0] else rest
  }

  /** `Math.max(...prices)` */
  function Max(s: seq<real>): (m: real)
    requires s != []
    ensures m in s
    ensures forall i :: 0 <= i < |s| ==> s[i] <= m
  {
    if |s| == 1 then s[0]
    else
      var rest := Max(s[1..]);
      if s[0] >= rest then s[0] else rest
  }

  predicate NoDuplicates(s: seq<string>)
  {
    forall i, j :: 0 <= i < j < |s| ==> s[i] != s[j]
  }

  /** `[...new Set(s)]`: each value once, in the order a Set first sees it. */
  function Distinct(s: seq<string>): (r: seq<string>)
    ensures NoDuplicates(r)
    ensures forall x :: x in r <==> x in s
    ensures |r| <= |s|
  {
    if s == [] then []
    else
      var d := Distinct(s[..|s| - 1]);
      if s[|s| - 1] in d then d else d + [s[|s| - 1]]
  }

  /** The position where `x` first occurs in `s`. */
  function FirstIndex(s: seq<string>, x: string): (k: nat)
    requires x in s
    ensures k < |s| && s[k] == x && x !in s[..k]
  {
    var init := s[..|s| - 1];
    if x in init then
      var k := FirstIndex(init, x);
      assert s[..k] == init[..k];
      k
    else |s| - 1
  }

  /** The distinct values appear in the order of their first occurrences. */
  lemma {:induction false} DistinctFirstOccurrenceOrder(s: seq<string>)
    ensures forall i, j :: 0 <= i < j < |Distinct(s)| ==>
      FirstIndex(s, Distinct(s)[i]) < FirstIndex(s, Distinct(s)[j])
  {
    if s != [] {
      var init := s[..|s| - 1];
      var d := Distinct(init);
      DistinctFirstOccurrenceOrder(init);
      forall x | x in init
        ensures FirstIndex(s, x) == FirstIndex(init, x)
      {
        var k := FirstIndex(init, x);
        assert s[..k] == init[..k];
      }
      var r := Distinct(s);
      forall i, j | 0 <= i < j < |r|
        ensures FirstIndex(s, r[i]) < FirstIndex(s, r[j])
      {
        assert r[i] == d[i] && r[i] in init;
        if j < |d| {
          assert r[j] == d[j] && r[j] in init;
        } else {
          assert r[j] == s[|s| - 1] && r[j] !in init;
        }
      }
    }
  }

  /** `x` added to itself `n` times. */
  function Scale(n: nat, x: real): real
  {
    if n == 0 then 0.0 else Scale(n - 1, x) + x
  }

  lemma {:induction false} ScaleIsProduct(n: nat, x: real)
    ensures Scale(n, x) == n as real * x
  {
    if n > 0 {
      ScaleIsProduct(n - 1, x);
      assert (n - 1) as real * x + x == n as real * x;
    }
  }

  /** `SumBounds` with the products written as repeated additions. */
  lemma {:induction false} SumScaleBounds(s: seq<real>, lo: real, hi: real)
    requires forall i :: 0 <= i < |s| ==> lo <= s[i] <= hi
    ensures Scale(|s|, lo) <= Sum(s) <= Scale(|s|, hi)
  {
    if s != [] {
      SumScaleBounds(s[..|s| - 1], lo, hi);
    }
  }

  /** Every element lies within the given bounds, so the sum lies within
      length times each bound. */
  lemma {:induction false} SumBounds(s: seq<real>, lo: real, hi: real)
    requires forall i :: 0 <= i < |s| ==> lo <= s[i] <= hi
    ensures |s| as real * lo <= Sum(s) <= |s| as real * hi
  {
    SumScaleBounds(s, lo, hi);
    ScaledBoundsAreProducts(|s|, lo, Sum(s), hi);
  }

  /** Repeated additions bounding a total give products bounding it. */
  lemma ScaledBoundsAreProducts(n: nat, lo: real, total: real, hi: real)
    requires Scale(n, lo) <= total <= Scale(n, hi)
    ensures n as real * lo <= total <= n as real * hi
  {
    ScaleIsProduct(n, lo);
    ScaleIsProduct(n, hi);
  }

  /** The arithmetic mean: the value that, taken once per element, adds up
      to the sum. */
  function Mean(s: seq<real>): (m: real)
    requires s != []
    ensures m * |s| as real == Sum(s)
  {
    Sum(s) / |s| as real
  }

  /** The mean of a non-empty list lies between its minimum and maximum. */
  lemma MeanWithinBounds(s: seq<real>)
    requires s != []
    ensures Min(s) <= Mean(s) <= Max(s)
  {
    SumScaleBounds(s, Min(s), Max(s));
    QuotientBetween(Min(s), Sum(s), Max(s), |s|);
  }

  lemma QuotientBetween(lo: real, total: real, hi: real, n: nat)
    requires 0 < n && Scale(n, lo) <= total <= Scale(n, hi)
    ensures lo <= total / n as real <= hi
  {
    ScaleIsProduct(n, lo);
    ScaleIsProduct(n, hi);
    var q := total / n as real;
    assert q * n as real == total;
  }

  /** `getRecommendationStats`: an absent or empty list gives a zero count,
      zero mean, no categories and no price range; otherwise the count, the
      mean price between the lowest and highest price, and the distinct
      categories. */
  function GetRecommendationStats(recs: Option<seq<Product>>): (st: Stats)
    ensures recs.None? || recs.value == [] ==> st == Stats(0, 0.0, [], None)
    ensures recs.Some? && recs.value != [] ==>
      && st.count == |recs.value|
      && st.averagePrice == Sum(Prices(recs.value)) / |recs.value| as real
      && st.priceRange.Some?
      && st.priceRange.value.min <= st.averagePrice <= st.priceRange.value.max
      && (forall i :: 0 <= i < |recs.value| ==>
            st.priceRange.value.min <= recs.value[i].price <= st.priceRange.value.max)
      && st.priceRange.value.min in Prices(recs.value)
      && st.priceRange.value.max in Prices(recs.value)
    ensures recs.Some? ==> NoDuplicates(st.categories)
    ensures recs.Some? ==> forall c :: c in st.categories <==> c in Categories(recs.value)
  {
    if recs.None? || |recs.value| == 0 then Stats(0, 0.0, [], None)
    else
      var prices := Prices(recs.value);
      MeanWithinBounds(prices);
      Stats(|recs.value|, Mean(prices), Distinct(Categories(recs.value)),
            Some(PriceBounds(Min(prices), Max(prices))))
  }

  /** The categories of the statistics follow their first occurrence in the
      recommendation list. */
  lemma StatsCategoriesInFirstOccurrenceOrder(recs: seq<Product>)
    ensures var cats := GetRecommendationStats(Some(recs)).categories;
      forall i, j :: 0 <= i < j < |cats| ==>
        FirstIndex(Categories(recs), cats[i]) < FirstIndex(Categories(recs), cats[j])
  {
    DistinctFirstOccurrenceOrder(Categories(recs));
  }
}
