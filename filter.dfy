/** The filter stage: a product survives when every hard constraint the
    preferences state holds (exact category, price within the budget, and an
    experience tag allowed by the cumulative level map). The price range is
    not a filter; it only scores. */
module Filter {
  import opened Catalog

  predicate SatisfiesCategory(p: Product, prefs: Preferences)
  {
    !HasCategory(prefs) || p.category == prefs.category.value
  }

  predicate SatisfiesBudget(p: Product, prefs: Preferences)
  {
    !HasBudget(prefs) || p.price <= prefs.budget.value
  }

  predicate SatisfiesExperience(p: Product, prefs: Preferences)
  {
    !HasExperienceLevel(prefs) || MatchesExperience(p, prefs.experienceLevel.value)
  }

  /** The predicate given to `products.filter`. */
  predicate PassesFilter(p: Product, prefs: Preferences)
  {
    SatisfiesCategory(p, prefs) && SatisfiesBudget(p, prefs) && SatisfiesExperience(p, prefs)
  }

  /** The preference tags and the price range only score; they never filter. */
  lemma FilterIgnoresTagsAndPriceRange(p: Product, prefs: Preferences, tags: seq<string>, range: Option<PriceRange>)
    ensures PassesFilter(p, prefs) == PassesFilter(p, prefs.(tags := tags, priceRange := range))
  {
  }

  /** The three checks are independent and joined by "and": a product passes
      exactly when it passes each stated dimension on its own. */
  lemma FilterIsConjunctionOfDimensions(p: Product, prefs: Preferences)
    ensures PassesFilter(p, prefs)
        == (&& PassesFilter(p, NoPreferences.(category := prefs.category))
            && PassesFilter(p, NoPreferences.(budget := prefs.budget))
            && PassesFilter(p, NoPreferences.(experienceLevel := prefs.experienceLevel)))
  {
  }

  /** The catalog products that pass, in catalog order. */
  function FilterProducts(catalog: seq<Product>, prefs: Preferences): (r: seq<Product>)
    ensures |r| <= |catalog|
    ensures forall i :: 0 <= i < |r| ==> r[i] in catalog && PassesFilter(r[i], prefs)
    ensures forall p :: p in catalog ==> (p in r <==> PassesFilter(p, prefs))
  {
    if catalog == [] then []
    else if PassesFilter(catalog[0], prefs) then [catalog[0]] + FilterProducts(catalog[1..], prefs)
    else FilterProducts(catalog[1..], prefs)
  }

  /** `sub` is obtained from `s` by deleting elements, keeping the order. */
  predicate IsSubsequence<T(==)>(sub: seq<T>, s: seq<T>)
    decreases |s|
  {
    if sub == [] then true
    else if s == [] then false
    else (sub[0] == s[0] && IsSubsequence(sub[1..], s[1..])) || IsSubsequence(sub, s[1..])
  }

  /** The candidates keep the catalog's relative order. */
  lemma {:induction false} FilterIsSubsequence(catalog: seq<Product>, prefs: Preferences)
    ensures IsSubsequence(FilterProducts(catalog, prefs), catalog)
  {
    if catalog != [] {
      FilterIsSubsequence(catalog[1..], prefs);
      var r := FilterProducts(catalog, prefs);
      if PassesFilter(catalog[0], prefs) {
        assert r[1..] == FilterProducts(catalog[1..], prefs);
      }
    }
  }

  /** Each passing product is kept as often as the catalog holds it, and every
      failing one is dropped. */
  lemma {:induction false} FilterMultiplicity(catalog: seq<Product>, prefs: Preferences, p: Product)
    ensures multiset(FilterProducts(catalog, prefs))[p]
         == if PassesFilter(p, prefs) then multiset(catalog)[p] else 0
  {
    if catalog != [] {
      FilterMultiplicity(catalog[1..], prefs, p);
      assert catalog == [catalog[0]] + catalog[1..];
    }
  }

  /** When every product passes, the filter keeps the catalog as it is. */
  lemma {:induction false} FilterKeepsAllWhenNothingFails(catalog: seq<Product>, prefs: Preferences)
    requires forall p :: p in catalog ==> PassesFilter(p, prefs)
    ensures FilterProducts(catalog, prefs) == catalog
  {
    if catalog != [] {
      FilterKeepsAllWhenNothingFails(catalog[1..], prefs);
    }
  }

  /** Empty preferences return the whole catalog. */
  lemma EmptyPreferencesKeepAll(catalog: seq<Product>)
    ensures FilterProducts(catalog, NoPreferences) == catalog
  {
    FilterKeepsAllWhenNothingFails(catalog, NoPreferences);
  }

  /** An unknown, non-empty experience level rejects every product. */
  lemma {:induction false} UnknownLevelFiltersAll(catalog: seq<Product>, prefs: Preferences)
    requires HasExperienceLevel(prefs) && LevelRank(prefs.experienceLevel.value).None?
    ensures FilterProducts(catalog, prefs) == []
  {
    if catalog != [] {
      UnknownLevelMatchesNothing(catalog[0], prefs.experienceLevel.value);
      UnknownLevelFiltersAll(catalog[1..], prefs);
    }
  }

  /** Raising the experience level (all else equal) never drops a candidate. */
  lemma HigherLevelKeepsCandidates(catalog: seq<Product>, prefs: Preferences, hi: string, p: Product)
    requires HasExperienceLevel(prefs)
    requires LevelRank(prefs.experienceLevel.value).Some? && LevelRank(hi).Some?
    requires LevelRank(prefs.experienceLevel.value).value <= LevelRank(hi).value
    requires p in FilterProducts(catalog, prefs)
    ensures p in FilterProducts(catalog, prefs.(experienceLevel := Some(hi)))
  {
    MatchesExperienceMonotone(p, prefs.experienceLevel.value, hi);
  }
}
