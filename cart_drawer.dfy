/** The cart drawer (components/CartDrawer.tsx): subtotal, the buttons'
    deltas, the header count and the footer. */
module CartDrawer {
  import opened Types
  import Cart

  /** `items.reduce((acc, item) => acc + item.price * item.quantity, 0)`, in cents. Non-negative
      prices and quantities give a non-negative subtotal. */
  function Subtotal(items: seq<CartItem>): (t: int)
    ensures (forall i :: 0 <= i < |items| ==> items[i].product.price >= 0 && items[i].quantity >= 0) ==> t >= 0
  {
    if items == [] then 0
    else
      assert forall i :: 1 <= i < |items| ==> items[1..][i - 1] == items[i];
      assert items[0].product.price >= 0 && items[0].quantity >= 0 ==> items[0].product.price * items[0].quantity >= 0;
      items[0].product.price * items[0].quantity + Subtotal(items[1..])
  }

  /** Appending a line raises the subtotal by exactly its price times its quantity. */
  lemma {:induction false} SubtotalAppend(items: seq<CartItem>, item: CartItem)
    ensures Subtotal(items + [item]) == Subtotal(items) + item.product.price * item.quantity
  {
    if items == [] {
      assert items + [item] == [item];
    } else {
      assert (items + [item])[1..] == items[1..] + [item];
      SubtotalAppend(items[1..], item);
    }
  }

  /** The subtotal is additive over concatenation. */
  lemma {:induction false} SubtotalConcat(a: seq<CartItem>, b: seq<CartItem>)
    ensures Subtotal(a + b) == Subtotal(a) + Subtotal(b)
  {
    if a == [] {
      assert a + b == b;
    } else {
      assert (a + b)[1..] == a[1..] + b;
      SubtotalConcat(a[1..], b);
    }
  }

  /** The minus button sends -1, the plus button +1. */
  const MinusDelta := -1
  const PlusDelta := 1

  /** The minus button is disabled at quantity 1 or below: on a valid line, exactly when pressing
      it would leave the quantity unchanged. */
  function MinusDisabled(item: CartItem): (disabled: bool)
    ensures item.quantity >= 1 ==> (disabled <==> Cart.FlooredAdd(MinusDelta)(item.quantity) == item.quantity)
  {
    item.quantity <= 1
  }

  /** Header: the number of distinct lines, never more than the navbar's unit count on a valid cart. */
  function HeaderCount(items: seq<CartItem>): (n: nat)
    ensures Cart.Valid(items) ==> n <= Cart.Count(items)
  {
    Cart.CountCoversLines(items);
    |items|
  }

  /** The subtotal and checkout footer: hidden only when there is nothing to pay and nothing counted. */
  function ShowsFooter(items: seq<CartItem>): (shown: bool)
    ensures !shown ==> Subtotal(items) == 0 && Cart.Count(items) == 0 && HeaderCount(items) == 0
    ensures Cart.Valid(items) ==> (shown <==> Cart.Count(items) > 0)
  {
    Cart.CountCoversLines(items);
    |items| > 0
  }

  /** An enabled minus button takes exactly one unit off its line; the plus button adds one. */
  lemma ButtonsOnLine(items: seq<CartItem>, k: nat)
    requires Cart.Valid(items) && k < |items|
    ensures !MinusDisabled(items[k]) ==>
      Cart.Quantity(Cart.Adjust(items, items[k].Id(), MinusDelta), items[k].Id()) == items[k].quantity - 1
    ensures Cart.Quantity(Cart.Adjust(items, items[k].Id(), PlusDelta), items[k].Id()) == items[k].quantity + 1
  {
    Cart.QuantityOfLine(items, k);
    assert Cart.HasId(items, items[k].Id());
    Cart.AdjustSpec(items, items[k].Id(), MinusDelta);
    Cart.AdjustSpec(items, items[k].Id(), PlusDelta);
  }
}
