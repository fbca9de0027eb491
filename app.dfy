/** The storefront's state (App.tsx): one field per `useState` hook that
    the core logic touches, and one method per handler that replaces them. */
module App {
  import opened Types
  import Seqs
  import Text
  import Catalog
  import Cart
  import Wishlist
  import Reviews
  import Recommend

  /** Every field of the store at once, so that each handler can say what it changes and that nothing else does. */
  datatype StoreState = StoreState(
    products: seq<Product>,
    cart: seq<CartItem>,
    wishlist: seq<Product>,
    selectedProduct: Option<Product>,
    isCartOpen: bool,
    searchQuery: string,
    activeCategory: string,
    selectedBrands: seq<string>,
    priceMin: int,
    priceMax: int,
    minRating: int,
    aiRecs: seq<Recommendation>)

  /** An uploaded catalog file after `JSON.parse`: an array, some other JSON value, or a parse error. */
  datatype ParsedCatalog = JsonArray(items: seq<Product>) | JsonOther | Unparsable

  /** Which alert `handleUploadCatalog` shows. */
  datatype UploadOutcome = CatalogUpdated | InvalidFormat | ParseFailed

  class Store {
    var products: seq<Product>
    var cart: seq<CartItem>
    var wishlist: seq<Product>
    var selectedProduct: Option<Product>
    var isCartOpen: bool
    var searchQuery: string
    var activeCategory: string
    var selectedBrands: seq<string>
    var priceMin: int
    var priceMax: int
    var minRating: int
    var aiRecs: seq<Recommendation>

    function State(): StoreState
      reads this
    {
      StoreState(products, cart, wishlist, selectedProduct, isCartOpen, searchQuery, activeCategory,
                 selectedBrands, priceMin, priceMax, minRating, aiRecs)
    }

    function Criteria(): Catalog.Criteria
      reads this
    {
      Catalog.Criteria(activeCategory, searchQuery, selectedBrands, priceMin, priceMax, minRating)
    }

    /** The cart and the wishlist hold at most one entry per product, and cart quantities are at least 1. */
    ghost predicate Valid()
      reads this
    {
      Cart.Valid(cart) && Wishlist.UniqueIds(wishlist)
    }

    /** The initial hook values, over a given catalog. */
    constructor (catalog: seq<Product>)
      ensures Valid()
      ensures State() == StoreState(catalog, [], [], None, false, "", "all", [], 0, Catalog.DefaultPriceMax, 0, [])
    {
      products := catalog;
      cart := [];
      wishlist := [];
      selectedProduct := None;
      isCartOpen := false;
      searchQuery := "";
      activeCategory := "all";
      selectedBrands := [];
      priceMin := 0;
      priceMax := Catalog.DefaultPriceMax;
      minRating := 0;
      aiRecs := [];
    }

    /** `filteredProducts` over the current catalog and filter state. */
    method FilteredProducts() returns (result: seq<Product>)
      ensures result == Catalog.FilterProducts(products, Criteria())
    {
      result := Catalog.FilteredProducts(products, Criteria());
    }

    /** The navbar badge: the total number of units in the cart. */
    function CartCount(): (n: int)
      reads this
      ensures cart == [] ==> n == 0
      ensures Cart.Valid(cart) ==> n >= |cart|
    {
      Cart.CountCoversLines(cart);
      Cart.Count(cart)
    }

    /** `recommendedProducts`. */
    function RecommendedProducts(): (r: seq<Product>)
      reads this
      ensures |r| <= |aiRecs|
      ensures forall i :: 0 <= i < |r| ==> r[i] in products
    {
      Recommend.Resolve(aiRecs, products)
    }

    /** The heart on a product card. */
    function IsWishlisted(id: string): (b: bool)
      reads this
      ensures b <==> id in Wishlist.Ids(wishlist)
    {
      assert Wishlist.HasId(wishlist, id) ==> id in Wishlist.Ids(wishlist);
      Wishlist.HasId(wishlist, id)
    }

    /** `addToCart`: merge or append, then open the cart panel. */
    method AddToCart(p: Product)
      requires Valid()
      modifies this
      ensures Valid()
      ensures State() == old(State()).(cart := Cart.Add(old(cart), p), isCartOpen := true)
    {
      Cart.AddSpec(cart, p);
      cart := Cart.Add(cart, p);
      isCartOpen := true;
    }

    /** The cart drawer's `onUpdateQuantity`. */
    method UpdateQuantity(id: string, delta: int)
      requires Valid()
      modifies this
      ensures Valid()
      ensures State() == old(State()).(cart := Cart.Adjust(old(cart), id, delta))
    {
      Cart.AdjustSpec(cart, id, delta);
      cart := Cart.Adjust(cart, id, delta);
    }

    /** The cart drawer's `onRemove`. */
    method RemoveFromCart(id: string)
      requires Valid()
      modifies this
      ensures Valid()
      ensures State() == old(State()).(cart := Cart.Remove(old(cart), id))
    {
      Cart.RemoveSpec(cart, id);
      cart := Cart.Remove(cart, id);
    }

    /** `toggleWishlist`. */
    method ToggleWishlist(p: Product)
      requires Valid()
      modifies this
      ensures Valid()
      ensures State() == old(State()).(wishlist := Wishlist.Toggle(old(wishlist), p))
    {
      Wishlist.ToggleSpec(wishlist, p);
      wishlist := Wishlist.Toggle(wishlist, p);
    }

    /** The wishlist drawer's `onRemove`. */
    method RemoveFromWishlist(id: string)
      requires Valid()
      modifies this
      ensures Valid()
      ensures State() == old(State()).(wishlist := Wishlist.Remove(old(wishlist), id))
    {
      Wishlist.RemoveSpec(wishlist, id);
      wishlist := Wishlist.Remove(wishlist, id);
    }

    /** `submitReview`: the review id and date come from the caller (the source draws them from the clock). */
    method SubmitReview(productId: string, data: Reviews.ReviewInput, reviewId: string, date: string)
      requires Valid()
      modifies this
      ensures Valid()
      ensures var r := Reviews.MakeReview(data, reviewId, date);
        State() == old(State()).(
          products := Reviews.SubmitToCatalog(old(products), productId, r),
          selectedProduct := Reviews.RefreshSelected(old(selectedProduct), productId, r))
    {
      var r := Reviews.MakeReview(data, reviewId, date);
      products := Reviews.SubmitToCatalog(products, productId, r);
      if selectedProduct.Some? && selectedProduct.value.id == productId {
        selectedProduct := Some(Reviews.ApplyReview(selectedProduct.value, r));
      }
    }

    /** `clearAllFilters` (also the navbar's home action). */
    method ClearAllFilters()
      requires Valid()
      modifies this
      ensures Valid()
      ensures Criteria() == Catalog.Cleared()
      ensures State() == old(State()).(selectedBrands := [], priceMin := 0, priceMax := Catalog.DefaultPriceMax,
                                       minRating := 0, searchQuery := "", activeCategory := "all")
    {
      selectedBrands := [];
      priceMin, priceMax := 0, Catalog.DefaultPriceMax;
      minRating := 0;
      searchQuery := "";
      activeCategory := "all";
    }

    /** The navbar search box (`onSearch`). */
    method SetSearchQuery(q: string)
      requires Valid()
      modifies this
      ensures Valid()
      ensures State() == old(State()).(searchQuery := q)
    {
      searchQuery := q;
    }

    /** A category tile or pill. */
    method SetActiveCategory(slug: string)
      requires Valid()
      modifies this
      ensures Valid()
      ensures State() == old(State()).(activeCategory := slug)
    {
      activeCategory := slug;
    }

    /** `setSelectedBrands`. */
    method SetSelectedBrands(brands: seq<string>)
      requires Valid()
      modifies this
      ensures Valid()
      ensures State() == old(State()).(selectedBrands := brands)
    {
      selectedBrands := brands;
    }

    /** `setPriceRange([lo, hi])`. */
    method SetPriceRange(lo: int, hi: int)
      requires Valid()
      modifies this
      ensures Valid()
      ensures State() == old(State()).(priceMin := lo, priceMax := hi)
    {
      priceMin, priceMax := lo, hi;
    }

    /** `setMinRating`. */
    method SetMinRating(stars: int)
      requires Valid()
      modifies this
      ensures Valid()
      ensures State() == old(State()).(minRating := stars)
    {
      minRating := stars;
    }

    /** Opening a product's detail view (`onViewDetails`). */
    method ViewDetails(p: Product)
      requires Valid()
      modifies this
      ensures Valid()
      ensures State() == old(State()).(selectedProduct := Some(p))
    {
      selectedProduct := Some(p);
    }

    /** Closing the detail view. */
    method CloseDetails()
      requires Valid()
      modifies this
      ensures Valid()
      ensures State() == old(State()).(selectedProduct := None)
    {
      selectedProduct := None;
    }

    /** The navbar's cart button: `setIsCartOpen(true)`. */
    method OpenCart()
      requires Valid()
      modifies this
      ensures Valid()
      ensures State() == old(State()).(isCartOpen := true)
    {
      isCartOpen := true;
    }

    /** The cart drawer's close button: `setIsCartOpen(false)`. */
    method CloseCart()
      requires Valid()
      modifies this
      ensures Valid()
      ensures State() == old(State()).(isCartOpen := false)
    {
      isCartOpen := false;
    }

    /** The settled outcome of a recommendation fetch: a query of at most two characters clears
        the recommendations, a longer one takes the service's list, or none when it gave none. */
    method ApplyRecommendations(response: Option<seq<Recommendation>>)
      requires Valid()
      modifies this
      ensures Valid()
      ensures State() == old(State()).(aiRecs :=
        if |old(searchQuery)| > 2 && response.Some? then response.value else [])
    {
      if |searchQuery| > 2 {
        aiRecs := if response.Some? then response.value else [];
      } else {
        aiRecs := [];
      }
    }

    /** `handleUploadCatalog` after parsing: only an array replaces the catalog. */
    method UploadCatalog(parsed: ParsedCatalog) returns (outcome: UploadOutcome)
      requires Valid()
      modifies this
      ensures Valid()
      ensures outcome == match parsed
        case JsonArray(_) => CatalogUpdated
        case JsonOther => InvalidFormat
        case Unparsable => ParseFailed
      ensures State() == if parsed.JsonArray? then old(State()).(products := parsed.items) else old(State())
    {
      match parsed
      case JsonArray(items) =>
        products := items;
        outcome := CatalogUpdated;
      case JsonOther =>
        outcome := InvalidFormat;
      case Unparsable =>
        outcome := ParseFailed;
    }
  }
}
