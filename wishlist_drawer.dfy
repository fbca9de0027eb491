/** The wishlist drawer (components/WishlistDrawer.tsx): its header count,
    its empty state and the "ADD TO CART" button that moves an item. */
module WishlistDrawer {
  import opened Types
  import Cart
  import Wishlist
  import App

  /** With one entry per product, the list is as long as its set of ids. */
  lemma {:induction false} UniqueIdsCount(items: seq<Product>)
    ensures Wishlist.UniqueIds(items) ==> |Wishlist.Ids(items)| == |items|
  {
    if items != [] && Wishlist.UniqueIds(items) {
      var init, last := items[..|items| - 1], items[|items| - 1];
      assert Wishlist.UniqueIds(init) by {
        forall i, j | 0 <= i < j < |init| ensures init[i].id != init[j].id {
          assert init[i] == items[i] && init[j] == items[j];
        }
      }
      UniqueIdsCount(init);
      assert Wishlist.Ids(items) == Wishlist.Ids(init) + {last.id} by {
        forall x | x in Wishlist.Ids(items) ensures x in Wishlist.Ids(init) + {last.id} {
          var i :| 0 <= i < |items| && items[i].id == x;
          if i < |init| {
            assert init[i] == items[i];
          }
        }
        forall x | x in Wishlist.Ids(init) ensures x in Wishlist.Ids(items) {
          var i :| 0 <= i < |init| && init[i].id == x;
          assert items[i] == init[i];
        }
      }
      assert last.id !in Wishlist.Ids(init);
    }
  }

  /** "Wishlist (n)": because the list holds one entry per product, it counts distinct products. */
  function HeaderCount(items: seq<Product>): (n: nat)
    ensures Wishlist.UniqueIds(items) ==> n == |Wishlist.Ids(items)|
  {
    UniqueIdsCount(items);
    |items|
  }

  /** The "BROWSE PRODUCTS" placeholder replaces the list exactly when no product is listed. */
  function ShowsEmptyState(items: seq<Product>): (empty: bool)
    ensures empty <==> Wishlist.Ids(items) == {}
  {
    assert items != [] ==> items[0].id in Wishlist.Ids(items);
    |items| == 0
  }

  /** "ADD TO CART" on a wishlist item: `onAddToCart(item)` and then `onRemove(item.id)`, so the
      product moves from the wishlist into the cart. */
  method MoveToCart(store: App.Store, item: Product)
    requires store.Valid()
    modifies store
    ensures store.Valid()
    ensures store.State() == old(store.State()).(
      cart := Cart.Add(old(store.cart), item),
      isCartOpen := true,
      wishlist := Wishlist.Remove(old(store.wishlist), item.id))
    ensures Cart.Quantity(store.cart, item.id) == Cart.Quantity(old(store.cart), item.id) + 1
    ensures Cart.Count(store.cart) == Cart.Count(old(store.cart)) + 1
    ensures !Wishlist.HasId(store.wishlist, item.id)
    ensures Wishlist.Ids(store.wishlist) == Wishlist.Ids(old(store.wishlist)) - {item.id}
  {
    Cart.AddSpec(store.cart, item);
    Wishlist.RemoveSpec(store.wishlist, item.id);
    store.AddToCart(item);
    store.RemoveFromWishlist(item.id);
  }
}
