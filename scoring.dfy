/** The scoring stage: independent points added up per product. Category +10,
    +5 per preference tag the product carries, price range +8 inside the range
    or +4 up to 20% above its maximum, experience level +6, budget +3. */
module Scoring {
  import opened Catalog
  import opened Filter

  /** `preferences.tags.filter(tag => product.tags.includes(tag))`: the
      preference tags, repeats included, that the product carries. */
  function MatchingTags(prefTags: seq<string>, productTags: seq<string>): (r: seq<string>)
    ensures |r| <= |prefTags|
    ensures forall i :: 0 <= i < |r| ==> r[i] in prefTags && r[i] in productTags
  {
    if prefTags == [] then []
    else
      (if prefTags[0] in productTags then [prefTags[0]] else []) + MatchingTags(prefTags[1..], productTags)
  }

  /** Each preference tag the product carries is counted as often as the
      preferences repeat it, and no other tag is counted. */
  lemma {:induction false} MatchingTagsMultiplicity(prefTags: seq<string>, productTags: seq<string>, t: string)
    ensures multiset(MatchingTags(prefTags, productTags))[t]
         == if t in productTags then multiset(prefTags)[t] else 0
  {
    if prefTags != [] {
      MatchingTagsMultiplicity(prefTags[1..], productTags, t);
      assert prefTags == [prefTags[0]] + prefTags[1..];
    }
  }

  function CategoryPoints(p: Product, prefs: Preferences): int
  {
    if HasCategory(prefs) && p.category == prefs.category.value then 10 else 0
  }

  function TagPoints(p: Product, prefs: Preferences): int
  {
    5 * |MatchingTags(prefs.tags, p.tags)|
  }

  function PriceRangePoints(p: Product, prefs: Preferences): int
  {
    match prefs.priceRange
    case None => 0
    case Some(range) =>
      if range.min <= p.price <= range.max then 8
      else if p.price <= range.max * 1.2 then 4
      else 0
  }

  function ExperiencePoints(p: Product, prefs: Preferences): int
  {
    if HasExperienceLevel(prefs) && MatchesExperience(p, prefs.experienceLevel.value) then 6 else 0
  }

  function BudgetPoints(p: Product, prefs: Preferences): int
  {
    if HasBudget(prefs) && p.price <= prefs.budget.value then 3 else 0
  }

  /** The score as the sum of its five independent terms. */
  function Score(p: Product, prefs: Preferences): (r: int)
    ensures 0 <= r <= 27 + 5 * |prefs.tags|
  {
    CategoryPoints(p, prefs) + TagPoints(p, prefs) + PriceRangePoints(p, prefs)
      + ExperiencePoints(p, prefs) + BudgetPoints(p, prefs)
  }

  /** `calculateProductScore`: the running total built up one condition at a
      time equals the sum of the independent terms. */
  method CalculateProductScore(p: Product, prefs: Preferences) returns (score: int)
    ensures score == Score(p, prefs)
    ensures 0 <= score <= 27 + 5 * |prefs.tags|
  {
    score := 0;
    if HasCategory(prefs) && p.category == prefs.category.value {
      score := score + 10;
    }
    if |prefs.tags| > 0 {
      var matching := MatchingTags(prefs.tags, p.tags);
      score := score + |matching| * 5;
    }
    if prefs.priceRange.Some? {
      var min, max := prefs.priceRange.value.min, prefs.priceRange.value.max;
      if p.price >= min && p.price <= max {
        score := score + 8;
      } else if p.price <= max * 1.2 {
        score := score + 4;
      }
    }
    if HasExperienceLevel(prefs) {
      var allowed := AllowedLevels(prefs.experienceLevel.value);
      if AnyLevelIn(allowed, p.tags) {
        score := score + 6;
      }
    }
    if HasBudget(prefs) && p.price <= prefs.budget.value {
      score := score + 3;
    }
  }

  /** The price-range term is exactly one of 8, 4 and 0: 8 inside the range,
      otherwise 4 up to 1.2 times the maximum (prices below the minimum
      included), otherwise nothing. */
  lemma PriceRangeTermCases(p: Product, prefs: Preferences)
    ensures PriceRangePoints(p, prefs) in {0, 4, 8}
    ensures PriceRangePoints(p, prefs) == 8
        <==> prefs.priceRange.Some? && prefs.priceRange.value.min <= p.price <= prefs.priceRange.value.max
    ensures PriceRangePoints(p, prefs) == 4
        <==> prefs.priceRange.Some?
             && !(prefs.priceRange.value.min <= p.price <= prefs.priceRange.value.max)
             && p.price <= prefs.priceRange.value.max * 1.2
    ensures prefs.priceRange.Some? && p.price < prefs.priceRange.value.min
            && p.price <= prefs.priceRange.value.max * 1.2
        ==> PriceRangePoints(p, prefs) == 4
  {
  }

  /** The tag term counts preference tags with their repeats: appending tags
      adds exactly their own matches. */
  lemma {:induction false} MatchingTagsAppend(a: seq<string>, b: seq<string>, productTags: seq<string>)
    ensures MatchingTags(a + b, productTags) == MatchingTags(a, productTags) + MatchingTags(b, productTags)
  {
    if a == [] {
      assert a + b == b;
    } else {
      assert (a + b)[0] == a[0] && (a + b)[1..] == a[1..] + b;
      MatchingTagsAppend(a[1..], b, productTags);
    }
  }

  /** More preference tags never lower a score. */
  lemma MoreTagsNeverLowerScore(p: Product, prefs: Preferences, extra: seq<string>)
    ensures Score(p, prefs.(tags := prefs.tags + extra)) >= Score(p, prefs)
    ensures Score(p, prefs.(tags := prefs.tags + extra))
         == Score(p, prefs) + 5 * |MatchingTags(extra, p.tags)|
  {
    var more := prefs.(tags := prefs.tags + extra);
    MatchingTagsAppend(prefs.tags, extra, p.tags);
    assert TagPoints(p, more) == TagPoints(p, prefs) + 5 * |MatchingTags(extra, p.tags)|;
    OnlyTagTermDependsOnTags(p, prefs, more.tags);
  }

  lemma OnlyTagTermDependsOnTags(p: Product, prefs: Preferences, tags: seq<string>)
    ensures Score(p, prefs.(tags := tags)) == Score(p, prefs) - TagPoints(p, prefs) + TagPoints(p, prefs.(tags := tags))
  {
    var other := prefs.(tags := tags);
    assert CategoryPoints(p, other) == CategoryPoints(p, prefs);
    assert PriceRangePoints(p, other) == PriceRangePoints(p, prefs);
    assert ExperiencePoints(p, other) == ExperiencePoints(p, prefs);
    assert BudgetPoints(p, other) == BudgetPoints(p, prefs);
  }

  /** The terms are independent: the score is the sum of the scores each
      stated dimension earns on its own. */
  lemma ScoreIsSumOfDimensions(p: Product, prefs: Preferences)
    ensures Score(p, prefs)
         == Score(p, NoPreferences.(category := prefs.category))
          + Score(p, NoPreferences.(tags := prefs.tags))
          + Score(p, NoPreferences.(priceRange := prefs.priceRange))
          + Score(p, NoPreferences.(experienceLevel := prefs.experienceLevel))
          + Score(p, NoPreferences.(budget := prefs.budget))
  {
    assert MatchingTags([], p.tags) == [];
  }

  /** Filter and score agree: a candidate that passed the filter earns the
      category, budget and experience points for every one of those
      dimensions that is stated. */
  lemma CandidateEarnsFilteredTerms(p: Product, prefs: Preferences)
    requires PassesFilter(p, prefs)
    ensures CategoryPoints(p, prefs) == if HasCategory(prefs) then 10 else 0
    ensures BudgetPoints(p, prefs) == if HasBudget(prefs) then 3 else 0
    ensures ExperiencePoints(p, prefs) == if HasExperienceLevel(prefs) then 6 else 0
    ensures Score(p, prefs)
         >= (if HasCategory(prefs) then 10 else 0) + (if HasBudget(prefs) then 3 else 0)
          + (if HasExperienceLevel(prefs) then 6 else 0)
  {
  }

  /** A product that earns the experience points at one level earns them at
      every higher level; an unknown level earns them never. */
  lemma ExperiencePointsCumulative(p: Product, prefs: Preferences, hi: string)
    requires HasExperienceLevel(prefs) && hi != ""
    requires LevelRank(prefs.experienceLevel.value).Some? && LevelRank(hi).Some?
    requires LevelRank(prefs.experienceLevel.value).value <= LevelRank(hi).value
    requires ExperiencePoints(p, prefs) == 6
    ensures ExperiencePoints(p, prefs.(experienceLevel := Some(hi))) == 6
  {
    MatchesExperienceMonotone(p, prefs.experienceLevel.value, hi);
  }

  lemma UnknownLevelEarnsNothing(p: Product, prefs: Preferences)
    requires prefs.experienceLevel.Some? && LevelRank(prefs.experienceLevel.value).None?
    ensures ExperiencePoints(p, prefs) == 0
  {
    UnknownLevelMatchesNothing(p, prefs.experienceLevel.value);
  }
}
