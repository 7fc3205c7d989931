/** Data model of the recommendation engine: catalog products, user
    preferences, scored products, the request mode and its result, and the
    statistics record. Prices are exact reals, so no floating point is
    involved. */
module Catalog {

  datatype Option<+T> = None | Some(value: T)

  /** A catalog entry. `tags` mixes topical tags and experience-level tags
      ("iniciante", "marketing", ... side by side). */
  datatype Product = Product(
    id: int,
    name: string,
    category: string,
    price: real,
    tags: seq<string>,
    description: string)

  datatype PriceRange = PriceRange(min: real, max: real)

  /** Every field is optional. An absent preference list of tags is the empty
      sequence: the source skips an absent list and an empty one alike. */
  datatype Preferences = Preferences(
    category: Option<string>,
    tags: seq<string>,
    priceRange: Option<PriceRange>,
    budget: Option<real>,
    experienceLevel: Option<string>)

  const NoPreferences := Preferences(None, [], None, None, None)

  /** A product with a `score` field added and nothing else changed. */
  datatype ScoredProduct = ScoredProduct(product: Product, score: int)

  /** 'single' or anything else ('multiple'); the limit is the argument of
      `slice(0, limit)`. */
  datatype Mode = Single | Multiple(limit: int)

  const DefaultLimit: int := 5

  /** `null` is NoMatch in single mode; a single hit is One; multiple mode
      always answers with a (possibly empty) list. */
  datatype Recommendation = NoMatch | One(item: ScoredProduct) | Many(items: seq<ScoredProduct>)

  datatype PriceBounds = PriceBounds(min: real, max: real)

  datatype Stats = Stats(
    count: nat,
    averagePrice: real,
    categories: seq<string>,
    priceRange: Option<PriceBounds>)

  // Truthiness of the optional fields, as JavaScript reads them: an empty
  // string and a zero budget count as absent.

  predicate HasCategory(prefs: Preferences)
  {
    prefs.category.Some? && prefs.category.value != ""
  }

  predicate HasBudget(prefs: Preferences)
  {
    prefs.budget.Some? && prefs.budget.value != 0.0
  }

  predicate HasExperienceLevel(prefs: Preferences)
  {
    prefs.experienceLevel.Some? && prefs.experienceLevel.value != ""
  }

  const Beginner: string := "iniciante"
  const Intermediate: string := "intermediário"
  const Advanced: string := "avançado"

  /** The cumulative experience map with its `|| []` fallback: a known level
      allows the known levels up to and including itself, lowest first; any
      other level allows nothing. Level names that are properties of
      `Object.prototype` are outside this model. */
  function AllowedLevels(level: string): (levels: seq<string>)
    ensures levels != [] <==> LevelRank(level).Some?
    ensures forall i :: 0 <= i < |levels| ==> LevelRank(levels[i]) == Some(i)
    ensures levels != [] ==> levels[|levels| - 1] == level
  {
    if level == Beginner then [Beginner]
    else if level == Intermediate then [Beginner, Intermediate]
    else if level == Advanced then [Beginner, Intermediate, Advanced]
    else []
  }

  /** `allowedLevels.some(level => tags.includes(level))` */
  predicate AnyLevelIn(levels: seq<string>, tags: seq<string>)
  {
    exists i :: 0 <= i < |levels| && levels[i] in tags
  }

  /** The experience condition shared by the filter and the score. */
  predicate MatchesExperience(p: Product, level: string)
  {
    AnyLevelIn(AllowedLevels(level), p.tags)
  }

  /** Ordinal of a known level, used to state that the map is cumulative. */
  function LevelRank(level: string): (r: Option<nat>)
    ensures r.Some? <==> level in {Beginner, Intermediate, Advanced}
  {
    if level == Beginner then Some(0)
    else if level == Intermediate then Some(1)
    else if level == Advanced then Some(2)
    else None
  }

  /** The experience map is cumulative: a higher level allows every level a
      lower one allows, and level k allows k + 1 levels. */
  lemma AllowedLevelsCumulative(lo: string, hi: string)
    requires LevelRank(lo).Some? && LevelRank(hi).Some?
    requires LevelRank(lo).value <= LevelRank(hi).value
    ensures forall l :: l in AllowedLevels(lo) ==> l in AllowedLevels(hi)
    ensures |AllowedLevels(lo)| == LevelRank(lo).value + 1
  {
  }

  /** A product that matches a lower level matches every higher one. */
  lemma MatchesExperienceMonotone(p: Product, lo: string, hi: string)
    requires LevelRank(lo).Some? && LevelRank(hi).Some?
    requires LevelRank(lo).value <= LevelRank(hi).value
    requires MatchesExperience(p, lo)
    ensures MatchesExperience(p, hi)
  {
    var i :| 0 <= i < |AllowedLevels(lo)| && AllowedLevels(lo)[i] in p.tags;
    AllowedLevelsCumulative(lo, hi);
    var l := AllowedLevels(lo)[i];
    assert l in AllowedLevels(hi);
    var j :| 0 <= j < |AllowedLevels(hi)| && AllowedLevels(hi)[j] == l;
  }

  /** An unknown level matches no product at all. */
  lemma UnknownLevelMatchesNothing(p: Product, level: string)
    requires LevelRank(level).None?
    ensures !MatchesExperience(p, level)
  {
  }
}
