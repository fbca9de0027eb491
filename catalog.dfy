/** The catalog filter engine (the `filteredProducts` memo of App.tsx):
    the filter criteria, each stage's test and the single-pass reference. */
module Catalog {
  import opened Types
  import Seqs
  import Text

  /** The filter state that App.tsx keeps in separate hooks. Prices are in
      cents, `minRating` is in whole stars. */
  datatype Criteria = Criteria(
    activeCategory: string,
    searchQuery: string,
    selectedBrands: seq<string>,
    priceMin: int,
    priceMax: int,
    minRating: int)

  /** The upper price bound after `clearAllFilters`: 2000 dollars, in cents. */
  const DefaultPriceMax := 200000

  /** The state `clearAllFilters` restores. */
  function Cleared(): Criteria
  {
    Criteria("all", "", [], 0, DefaultPriceMax, 0)
  }

  // The five stages, each true when the stage is switched off.

  predicate CategoryOk(c: Criteria, p: Product)
  {
    c.activeCategory != "all" ==> p.category == c.activeCategory
  }

  predicate QueryOk(c: Criteria, p: Product)
  {
    c.searchQuery != "" ==>
      Text.Includes(Text.Lower(p.name), Text.Lower(c.searchQuery)) ||
      Text.Includes(Text.Lower(p.description), Text.Lower(c.searchQuery))
  }

  predicate BrandOk(c: Criteria, p: Product)
  {
    |c.selectedBrands| > 0 ==> p.brand in c.selectedBrands
  }

  /** The price stage is never switched off. */
  predicate PriceOk(c: Criteria, p: Product)
  {
    c.priceMin <= p.price <= c.priceMax
  }

  predicate RatingOk(c: Criteria, p: Product)
  {
    c.minRating > 0 ==> p.rating >= 10 * c.minRating
  }

  /** The first `k` stages, in the order App.tsx applies them. */
  predicate StagesOk(c: Criteria, p: Product, k: nat)
  {
    && (k >= 1 ==> CategoryOk(c, p))
    && (k >= 2 ==> QueryOk(c, p))
    && (k >= 3 ==> BrandOk(c, p))
    && (k >= 4 ==> PriceOk(c, p))
    && (k >= 5 ==> RatingOk(c, p))
  }

  function Stages(c: Criteria, k: nat): Product -> bool
  {
    (p: Product) => StagesOk(c, p, k)
  }

  /** A product survives every stage. */
  predicate Matches(c: Criteria, p: Product)
  {
    StagesOk(c, p, 5)
  }

  /** The reference filter: one pass, keeping the products that match. */
  function FilterProducts(products: seq<Product>, c: Criteria): (r: seq<Product>)
    ensures |r| <= |products|
    ensures forall i :: 0 <= i < |r| ==> r[i] in products && Matches(c, r[i])
  {
    Seqs.FilterMembers(products, Stages(c, 5));
    Seqs.Filter(products, Stages(c, 5))
  }

  // The tests App.tsx passes to `filter`, one per stage.

  function InCategory(cat: string): Product -> bool
  {
    (p: Product) => p.category == cat
  }

  function MentionsQuery(q: string): Product -> bool
  {
    (p: Product) => Text.Includes(Text.Lower(p.name), Text.Lower(q)) || Text.Includes(Text.Lower(p.description), Text.Lower(q))
  }

  function FromBrands(brands: seq<string>): Product -> bool
  {
    (p: Product) => p.brand in brands
  }

  /** The test "priced within lo .. hi", inclusive at both ends. */
  function PriceBand(lo: int, hi: int): Product -> bool
  {
    (p: Product) => lo <= p.price <= hi
  }

  function RatedAtLeast(stars: int): Product -> bool
  {
    (p: Product) => p.rating >= 10 * stars
  }

  /** The test App.tsx runs at stage `k + 1` (0-based `k`), or `None` when that stage is switched off. */
  function StageTest(c: Criteria, k: nat): Option<Product -> bool>
    requires k < 5
  {
    if k == 0 then (if c.activeCategory != "all" then Some(InCategory(c.activeCategory)) else None)
    else if k == 1 then (if c.searchQuery != "" then Some(MentionsQuery(c.searchQuery)) else None)
    else if k == 2 then (if |c.selectedBrands| > 0 then Some(FromBrands(c.selectedBrands)) else None)
    else if k == 3 then Some(PriceBand(c.priceMin, c.priceMax))
    else (if c.minRating > 0 then Some(RatedAtLeast(c.minRating)) else None)
  }

  /** Running stage `k + 1` on the output of the first `k` stages gives the first `k + 1` stages. */
  lemma NextStage(products: seq<Product>, c: Criteria, k: nat)
    requires k < 5
    ensures Seqs.Filter(products, Stages(c, k + 1)) ==
      match StageTest(c, k)
      case Some(test) => Seqs.Filter(Seqs.Filter(products, Stages(c, k)), test)
      case None => Seqs.Filter(products, Stages(c, k))
  {
    match StageTest(c, k)
    case Some(test) =>
      assert forall p :: Stages(c, k + 1)(p) == (Stages(c, k)(p) && test(p));
      Seqs.FilterFuse(products, Stages(c, k), test, Stages(c, k + 1));
    case None =>
      assert forall p :: Stages(c, k + 1)(p) == Stages(c, k)(p);
      Seqs.FilterAgree(products, Stages(c, k), Stages(c, k + 1));
  }

  // Stage `k + 1` of NextStage, written out for each of the five stages.

  lemma CategoryStage(products: seq<Product>, c: Criteria)
    ensures Seqs.Filter(products, Stages(c, 1)) ==
      if c.activeCategory != "all" then Seqs.Filter(Seqs.Filter(products, Stages(c, 0)), InCategory(c.activeCategory))
      else Seqs.Filter(products, Stages(c, 0))
  {
    NextStage(products, c, 0);
  }

  lemma QueryStage(products: seq<Product>, c: Criteria)
    ensures Seqs.Filter(products, Stages(c, 2)) ==
      if c.searchQuery != "" then Seqs.Filter(Seqs.Filter(products, Stages(c, 1)), MentionsQuery(c.searchQuery))
      else Seqs.Filter(products, Stages(c, 1))
  {
    NextStage(products, c, 1);
  }

  lemma BrandStage(products: seq<Product>, c: Criteria)
    ensures Seqs.Filter(products, Stages(c, 3)) ==
      if |c.selectedBrands| > 0 then Seqs.Filter(Seqs.Filter(products, Stages(c, 2)), FromBrands(c.selectedBrands))
      else Seqs.Filter(products, Stages(c, 2))
  {
    NextStage(products, c, 2);
  }

  lemma PriceStage(products: seq<Product>, c: Criteria)
    ensures Seqs.Filter(products, Stages(c, 4)) ==
      Seqs.Filter(Seqs.Filter(products, Stages(c, 3)), PriceBand(c.priceMin, c.priceMax))
  {
    NextStage(products, c, 3);
  }

  lemma RatingStage(products: seq<Product>, c: Criteria)
    ensures Seqs.Filter(products, Stages(c, 5)) ==
      if c.minRating > 0 then Seqs.Filter(Seqs.Filter(products, Stages(c, 4)), RatedAtLeast(c.minRating))
      else Seqs.Filter(products, Stages(c, 4))
  {
    NextStage(products, c, 4);
  }

  /** The memo's body: each active stage filters the output of the previous ones, in the fixed order
      category, text, brands, price, rating. */
  method FilteredProducts(products: seq<Product>, c: Criteria) returns (result: seq<Product>)
    ensures result == FilterProducts(products, c)
  {
    NoStage(products, c);
    result := products;
    if c.activeCategory != "all" {
      result := Seqs.Filter(result, InCategory(c.activeCategory));
    }
    CategoryStage(products, c);
    if c.searchQuery != "" {
      result := Seqs.Filter(result, MentionsQuery(c.searchQuery));
    }
    QueryStage(products, c);
    if |c.selectedBrands| > 0 {
      result := Seqs.Filter(result, FromBrands(c.selectedBrands));
    }
    BrandStage(products, c);
    result := Seqs.Filter(result, PriceBand(c.priceMin, c.priceMax));
    PriceStage(products, c);
    if c.minRating > 0 {
      result := Seqs.Filter(result, RatedAtLeast(c.minRating));
    }
    RatingStage(products, c);
  }

  lemma NoStage(products: seq<Product>, c: Criteria)
    ensures Seqs.Filter(products, Stages(c, 0)) == products
  {
    Seqs.FilterKeepsAll(products, Stages(c, 0));
  }

  /** The filtered list is the catalog with some products deleted, in catalog order. */
  lemma FilterIsSubsequence(products: seq<Product>, c: Criteria)
    ensures Seqs.IsSubsequence(FilterProducts(products, c), products)
    ensures |FilterProducts(products, c)| <= |products|
  {
    Seqs.FilterIsSubsequence(products, Stages(c, 5));
  }

  /** A catalog product is listed exactly when every active test holds. */
  lemma FilterKeepsExactly(products: seq<Product>, c: Criteria, i: nat)
    requires i < |products|
    ensures var p := products[i];
      p in FilterProducts(products, c) <==>
        && (c.activeCategory != "all" ==> p.category == c.activeCategory)
        && (c.searchQuery != "" ==>
              Text.Includes(Text.Lower(p.name), Text.Lower(c.searchQuery)) ||
              Text.Includes(Text.Lower(p.description), Text.Lower(c.searchQuery)))
        && (|c.selectedBrands| > 0 ==> p.brand in c.selectedBrands)
        && c.priceMin <= p.price <= c.priceMax
        && (c.minRating > 0 ==> p.rating >= 10 * c.minRating)
  {
    Seqs.FilterMembers(products, Stages(c, 5));
    var r := FilterProducts(products, c);
    var p := products[i];
    if p in r {
      var j :| 0 <= j < |r| && r[j] == p;
      assert Stages(c, 5)(r[j]);
    }
  }

  /** Every listed product comes from the catalog and passes every active test. */
  lemma FilteredAreMatches(products: seq<Product>, c: Criteria, j: nat)
    requires j < |FilterProducts(products, c)|
    ensures FilterProducts(products, c)[j] in products
    ensures Matches(c, FilterProducts(products, c)[j])
  {
    Seqs.FilterMembers(products, Stages(c, 5));
    assert Stages(c, 5)(FilterProducts(products, c)[j]);
  }

  /** After `clearAllFilters` the listing is exactly the products priced within 0 .. 2000 dollars. */
  lemma ClearedKeepsPriceBand(products: seq<Product>)
    ensures FilterProducts(products, Cleared()) ==
      Seqs.Filter(products, PriceBand(0, DefaultPriceMax))
  {
    Seqs.FilterAgree(products, Stages(Cleared(), 5), PriceBand(0, DefaultPriceMax));
  }

  /** With no test active and a price range covering the whole catalog, nothing is dropped. */
  lemma UnfilteredIsIdentity(products: seq<Product>, c: Criteria)
    requires c.activeCategory == "all" && c.searchQuery == "" && c.selectedBrands == [] && c.minRating <= 0
    requires forall i :: 0 <= i < |products| ==> c.priceMin <= products[i].price <= c.priceMax
    ensures FilterProducts(products, c) == products
  {
    Seqs.FilterKeepsAll(products, Stages(c, 5));
  }

  /** A minimum above the maximum matches nothing: the range is not special-cased. */
  lemma InvertedRangeIsEmpty(products: seq<Product>, c: Criteria)
    requires c.priceMin > c.priceMax
    ensures FilterProducts(products, c) == []
  {
    Seqs.FilterDropsAll(products, Stages(c, 5));
  }

  /** The search is insensitive to the case of the query. */
  lemma QueryCaseInsensitive(c: Criteria, p: Product)
    ensures QueryOk(c.(searchQuery := Text.Lower(c.searchQuery)), p) == QueryOk(c, p)
  {
    Text.LowerIdempotent(c.searchQuery);
  }
}
