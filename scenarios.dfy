/** Worked examples, mostly over the bundled catalog: each fixes one concrete run of
    the model so that the general lemmas can be read against known values. */
module Scenarios {
  import opened Types
  import Seed
  import Cart
  import Reviews
  import ProductCard
  import ProductDetailModal
  import App
  import Wishlist
  import Catalog

  /** Adding the flagship phone twice and pressing minus once leaves one unit. */
  lemma CartWalkthrough()
    ensures Cart.Add([], Seed.P1()) == [CartItem(Seed.P1(), 1)]
    ensures Cart.Add(Cart.Add([], Seed.P1()), Seed.P1()) == [CartItem(Seed.P1(), 2)]
    ensures Cart.Adjust(Cart.Add(Cart.Add([], Seed.P1()), Seed.P1()), "p1", -1) == [CartItem(Seed.P1(), 1)]
    ensures Cart.Adjust([CartItem(Seed.P1(), 1)], "p1", -1) == [CartItem(Seed.P1(), 1)]
  {
    Cart.AddTwice([], Seed.P1());
  }

  /** The discount tags of the bundled products that carry an original price. */
  lemma SeedDiscounts()
    ensures ProductCard.Discount(Seed.P1()) == 21
    ensures ProductCard.Discount(Seed.P3()) == 15
    ensures ProductCard.Discount(Seed.P4()) == 44
    ensures ProductCard.Discount(Seed.P5()) == 20
    ensures ProductCard.Discount(Seed.P7()) == 33
    ensures ProductCard.Discount(Seed.P2()) == 0 && ProductCard.Discount(Seed.P6()) == 0
    ensures ProductCard.Discount(Seed.P8()) == 0
  {
  }

  /** A price band of 500 .. 2000 dollars over the bundled catalog, with every other stage off, keeps
      the two phones and the laptop, in catalog order. */
  lemma SeedPriceBand()
    ensures Catalog.FilterProducts(Seed.Products(), Catalog.Criteria("all", "", [], 50000, 200000, 0))
      == [Seed.P1(), Seed.P2(), Seed.P3()]
  {
  }

  /** The bundled catalog holds eight products, each filed under the slug of one of the bundled
      categories, so every product can be reached from the category list. */
  lemma SeedCatalogShape()
    ensures |Seed.Products()| == 8
    ensures forall i :: 0 <= i < |Seed.Products()| ==>
      exists k :: 0 <= k < |Seed.Categories()| && Seed.Categories()[k].slug == Seed.Products()[i].category
  {
    var ps, cs := Seed.Products(), Seed.Categories();
    assert ps[0].category == cs[0].slug && ps[1].category == cs[0].slug;
    assert ps[2].category == cs[3].slug && ps[3].category == cs[2].slug;
    assert ps[4].category == cs[1].slug && ps[5].category == cs[4].slug;
    assert ps[6].category == cs[5].slug && ps[7].category == cs[4].slug;
  }

  /** The bundled products have distinct ids ("p1" .. "p8"), so the whole catalog is a valid wishlist. */
  lemma SeedIdsDistinct()
    ensures Wishlist.UniqueIds(Seed.Products())
  {
    var ps := Seed.Products();
    var digits := "12345678";
    assert forall i :: 0 <= i < 8 ==> |ps[i].id| == 2 && ps[i].id[1] == digits[i];
    assert forall i, j :: 0 <= i < j < 8 ==> digits[i] != digits[j];
  }

  /** A three-star review on the flagship phone: the count becomes the list length, 3, not 155, and the
      rating the mean of 5, 4 and 3. Before it, the badge reads 2 while the header claims 154. */
  lemma FirstReviewOnSeedPhone()
    ensures ProductDetailModal.ReviewBadge(Seed.P1()) == 2 && Seed.P1().reviewCount == 154
    ensures var q := Reviews.ApplyReview(Seed.P1(), Review("r9", "Ann", 3, "Fine.", "2024-01-01"));
      q.reviewCount == 3 && q.rating == 40 && ProductDetailModal.ReviewBadge(q) == 3
  {
    var r := Review("r9", "Ann", 3, "Fine.", "2024-01-01");
    var rs := Reviews.ReviewsOf(Seed.P1()) + [r];
    assert Reviews.SumRatings(rs) == 12;
  }

  /** A fresh store over any catalog, after two presses of "add to cart" on the same product: one cart
      line, a badge of two, and a catalog file that is not an array changes nothing. */
  method StoreWalkthrough(catalog: seq<Product>, p: Product) returns (lines: nat, badge: int, outcome: App.UploadOutcome)
    ensures lines == 1 && badge == 2 && outcome == App.InvalidFormat
  {
    var store := new App.Store(catalog);
    store.AddToCart(p);
    store.AddToCart(p);
    Cart.AddTwice([], p);
    outcome := store.UploadCatalog(App.JsonOther);
    assert store.cart == [CartItem(p, 2)];
    assert Cart.Count(store.cart) == 2;
    lines, badge := |store.cart|, store.CartCount();
  }
}
