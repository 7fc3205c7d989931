/** The concrete cases of the service's unit tests, stated over the model:
    three mock products, their scores, the filter results, a single-mode
    request and the statistics of three prices. */
module Examples {
  import opened Catalog
  import opened Filter
  import opened Scoring
  import opened Service
  import opened Stats

  const Marketing := Product(1, "Marketing Digital Básico", "marketing", 99.0,
    ["iniciante", "marketing", "digital"], "Curso introdutório de marketing digital")
  const Sales := Product(2, "Automação de Vendas", "vendas", 199.0,
    ["vendas", "automação", "intermediário"], "Sistema completo de automação de vendas")
  const Analytics := Product(3, "Analytics Avançado", "analytics", 299.0,
    ["analytics", "avançado", "dados"], "Análise avançada de dados")

  const Mock: seq<Product> := [Marketing, Sales, Analytics]

  /** Category +10, two tags +10, inside the range +8, level +6, budget +3,
      and category, one tag and budget together 18. */
  lemma ScoreExamples()
    ensures Score(Marketing, NoPreferences.(category := Some("marketing"))) == 10
    ensures Score(Marketing, NoPreferences.(tags := ["marketing", "digital"])) == 10
    ensures Score(Marketing, NoPreferences.(priceRange := Some(PriceRange(50.0, 150.0)))) == 8
    ensures Score(Sales, NoPreferences.(experienceLevel := Some(Intermediate))) == 6
    ensures Score(Marketing, NoPreferences.(budget := Some(200.0))) == 3
    ensures Score(Marketing, Preferences(Some("marketing"), ["digital"], None, Some(200.0), None)) == 18
  {
    assert AllowedLevels(Intermediate)[1] == Sales.tags[2];
    assert MatchesExperience(Sales, Intermediate);
    assert MatchingTags(["digital"], Marketing.tags) == ["digital"];
    assert MatchingTags(["marketing", "digital"], Marketing.tags) == ["marketing", "digital"];
  }

  /** The tolerance band: 170 is within 1.2 times a maximum of 150, 500 is
      not. */
  lemma PriceToleranceExamples()
    ensures Score(Marketing.(price := 170.0), NoPreferences.(priceRange := Some(PriceRange(50.0, 150.0)))) == 4
    ensures Score(Marketing.(price := 500.0), NoPreferences.(priceRange := Some(PriceRange(50.0, 150.0)))) == 0
  {
  }

  /** What the filter returns on the mock catalog: one product for the
      category, one for a budget of 150, all three for the top level, and
      all three with no preferences. */
  lemma FilterExamples()
    ensures FilterProducts(Mock, NoPreferences.(category := Some("marketing"))) == [Marketing]
    ensures FilterProducts(Mock, NoPreferences.(budget := Some(150.0))) == [Marketing]
    ensures FilterProducts(Mock, NoPreferences.(experienceLevel := Some(Advanced))) == Mock
    ensures FilterProducts(Mock, NoPreferences) == Mock
  {
    var byCategory := NoPreferences.(category := Some("marketing"));
    var byBudget := NoPreferences.(budget := Some(150.0));
    var byLevel := NoPreferences.(experienceLevel := Some(Advanced));
    assert Mock[1..] == [Sales, Analytics] && Mock[2..] == [Analytics] && Mock[3..] == [];
    assert Sales.category[0] != 'm' && Analytics.category[0] != 'm';
    assert !PassesFilter(Sales, byCategory) && !PassesFilter(Analytics, byCategory);
    assert PassesFilter(Marketing, byCategory);
    assert !PassesFilter(Sales, byBudget) && !PassesFilter(Analytics, byBudget);
    assert FilterProducts(Mock[2..], byCategory) == FilterProducts(Mock[3..], byCategory) == [];
    assert FilterProducts(Mock[1..], byCategory) == [];
    assert FilterProducts(Mock[2..], byBudget) == FilterProducts(Mock[3..], byBudget) == [];
    assert FilterProducts(Mock[1..], byBudget) == [];
    assert AllowedLevels(Advanced)[0] == Marketing.tags[0];
    assert AllowedLevels(Advanced)[1] == Sales.tags[2];
    assert AllowedLevels(Advanced)[2] == Analytics.tags[1];
    FilterKeepsAllWhenNothingFails(Mock, byLevel);
    EmptyPreferencesKeepAll(Mock);
  }

  lemma ExamplePriceFacts()
    ensures Sum([100.0, 200.0, 300.0]) == 600.0
    ensures Min([100.0, 200.0, 300.0]) == 100.0 && Max([100.0, 200.0, 300.0]) == 300.0
  {
    assert [100.0, 200.0, 300.0][..2] == [100.0, 200.0];
    assert [100.0, 200.0][..1] == [100.0] && [100.0][..0] == [];
    assert [100.0, 200.0, 300.0][1..] == [200.0, 300.0] && [200.0, 300.0][1..] == [300.0];
  }

  lemma ExampleCategoryFacts()
    ensures Distinct(["marketing", "vendas", "analytics"]) == ["marketing", "vendas", "analytics"]
  {
    var cats := ["marketing", "vendas", "analytics"];
    assert cats[..2] == ["marketing", "vendas"] && cats[..2][..1] == ["marketing"] && cats[..1][..0] == [];
    assert "vendas" != "marketing" && "analytics"[0] != "marketing"[0] && "analytics" != "vendas";
    assert Distinct(cats[..1]) == ["marketing"];
    assert Distinct(cats[..2]) == ["marketing", "vendas"];
  }

  /** Three prices 100, 200 and 300: mean 200, lowest 100, highest 300. */
  lemma StatsExample()
    ensures var st := GetRecommendationStats(Some([Marketing.(price := 100.0), Sales.(price := 200.0),
                                                   Analytics.(price := 300.0)]));
      st.count == 3 && st.averagePrice == 200.0 && st.priceRange == Some(PriceBounds(100.0, 300.0))
      && st.categories == ["marketing", "vendas", "analytics"]
  {
    var recs := [Marketing.(price := 100.0), Sales.(price := 200.0), Analytics.(price := 300.0)];
    assert Prices(recs) == [100.0, 200.0, 300.0];
    assert Categories(recs) == ["marketing", "vendas", "analytics"];
    ExamplePriceFacts();
    ExampleCategoryFacts();
  }

  /** The single-mode request for the marketing category returns product 1,
      and with no candidate it returns no match. */
  method SingleModeExample() returns (best: Recommendation, none: Recommendation)
    ensures best.One? && best.item.product.id == 1
    ensures none == NoMatch
  {
    var service := new RecommendationService();
    service.products := Mock;
    best := service.GetRecommendations(NoPreferences.(category := Some("marketing")), Single);
    FilterExamples();
    none := service.GetRecommendations(NoPreferences.(category := Some("inexistente")), Single);
    NoInexistentCategory();
  }

  /** A budget of 200 keeps two products, and a limit of 2 returns both; an
      unknown category under the default limit returns the empty list. */
  method MultipleModeExample() returns (top: Recommendation, empty: Recommendation)
    ensures top.Many? && |top.items| == 2
    ensures forall x :: x in top.items ==> x.score == 3
    ensures empty == Many([])
  {
    var service := new RecommendationService();
    service.products := Mock;
    var byBudget := NoPreferences.(budget := Some(200.0));
    top := service.GetRecommendations(byBudget, Multiple(2));
    assert Mock[1..] == [Sales, Analytics] && Mock[2..] == [Analytics] && Mock[3..] == [];
    assert PassesFilter(Marketing, byBudget) && PassesFilter(Sales, byBudget);
    assert !PassesFilter(Analytics, byBudget);
    assert FilterProducts(Mock[2..], byBudget) == FilterProducts(Mock[3..], byBudget) == [];
    assert FilterProducts(Mock[1..], byBudget) == [Sales];
    assert FilterProducts(Mock, byBudget) == [Marketing, Sales];
    forall x | x in top.items
      ensures x.score == 3
    {
      assert x in multiset(top.items);
    }
    empty := service.GetRecommendations(NoPreferences.(category := Some("inexistente")), Multiple(DefaultLimit));
    NoInexistentCategory();
  }

  lemma NoInexistentCategory()
    ensures FilterProducts(Mock, NoPreferences.(category := Some("inexistente"))) == []
  {
    assert Mock[1..] == [Sales, Analytics] && Mock[2..] == [Analytics] && Mock[3..] == [];
    var none := NoPreferences.(category := Some("inexistente"));
    assert Marketing.category[0] != 'i' && Sales.category[0] != 'i' && Analytics.category[0] != 'i';
    assert !PassesFilter(Marketing, none) && !PassesFilter(Sales, none) && !PassesFilter(Analytics, none);
    assert FilterProducts(Mock[2..], none) == FilterProducts(Mock[3..], none) == [];
    assert FilterProducts(Mock[1..], none) == [];
  }
}
