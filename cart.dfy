/** The cart ledger of App.tsx: `addToCart` (lines 102-109), the quantity
    and removal updaters handed to the cart drawer (lines 499-500) and the
    navbar's badge count (line 207). The cart is a sequence of lines, read
    as a map from product id to quantity. */
module Cart {
  import opened Types
  import Seqs

  predicate HasId(cart: seq<CartItem>, id: string)
  {
    exists i :: 0 <= i < |cart| && cart[i].Id() == id
  }

  /** At most one line per product. */
  predicate UniqueIds(cart: seq<CartItem>)
  {
    forall i, j :: 0 <= i < j < |cart| ==> cart[i].Id() != cart[j].Id()
  }

  /** The ledger invariant: unique ids and every quantity at least 1. */
  predicate Valid(cart: seq<CartItem>)
  {
    UniqueIds(cart) && forall i :: 0 <= i < |cart| ==> cart[i].quantity >= 1
  }

  /** The quantity held for `id`: the sum over the lines carrying that id. */
  function Quantity(cart: seq<CartItem>, id: string): int
  {
    if cart == [] then 0
    else (if cart[0].Id() == id then cart[0].quantity else 0) + Quantity(cart[1..], id)
  }

  /** The badge count: the sum of all quantities. */
  function Count(cart: seq<CartItem>): int
  {
    if cart == [] then 0 else cart[0].quantity + Count(cart[1..])
  }

  /** `prev.map(...)` rewriting the quantity of the lines carrying `id` and copying the rest. */
  function MapQuantity(cart: seq<CartItem>, id: string, f: int -> int): (r: seq<CartItem>)
    ensures |r| == |cart|
    ensures forall i :: 0 <= i < |cart| ==> r[i].product == cart[i].product
    ensures forall i :: 0 <= i < |cart| && cart[i].Id() != id ==> r[i] == cart[i]
    ensures forall i :: 0 <= i < |cart| && cart[i].Id() == id ==> r[i].quantity == f(cart[i].quantity)
  {
    if cart == [] then []
    else
      var head := if cart[0].Id() == id then cart[0].(quantity := f(cart[0].quantity)) else cart[0];
      [head] + MapQuantity(cart[1..], id, f)
  }

  function Increment(): int -> int
  {
    (q: int) => q + 1
  }

  /** The drawer's update rule: `Math.max(1, q + delta)`. */
  function FlooredAdd(delta: int): int -> int
  {
    (q: int) => if q + delta > 1 then q + delta else 1
  }

  /** `addToCart`: one more of a product already in the cart, else a new line with quantity 1 at the end. */
  function Add(cart: seq<CartItem>, p: Product): (r: seq<CartItem>)
    ensures HasId(r, p.id)
    ensures |r| == if HasId(cart, p.id) then |cart| else |cart| + 1
    ensures forall i :: 0 <= i < |cart| && cart[i].Id() != p.id ==> r[i] == cart[i]
  {
    if HasId(cart, p.id) then MapQuantity(cart, p.id, Increment())
    else
      var r := cart + [CartItem(p, 1)];
      assert r[|cart|].Id() == p.id;
      r
  }

  /** `onUpdateQuantity(id, delta)`. */
  function Adjust(cart: seq<CartItem>, id: string, delta: int): (r: seq<CartItem>)
    ensures |r| == |cart| && forall i :: 0 <= i < |cart| ==> r[i].product == cart[i].product
    ensures forall i :: 0 <= i < |cart| && cart[i].Id() == id ==> r[i].quantity >= 1
    ensures forall i :: 0 <= i < |cart| && cart[i].Id() != id ==> r[i] == cart[i]
  {
    MapQuantity(cart, id, FlooredAdd(delta))
  }

  // The id filter and the subsequence lemmas below mirror those of `Wishlist`: the cart's lines and
  // the wishlist's entries are different element types, and each module keeps its own predicates.
  function IdIsNot(id: string): CartItem -> bool
  {
    (item: CartItem) => item.Id() != id
  }

  /** `onRemove(id)`. */
  function Remove(cart: seq<CartItem>, id: string): (r: seq<CartItem>)
    ensures !HasId(r, id)
    ensures |r| <= |cart| && forall i :: 0 <= i < |r| ==> r[i] in cart
  {
    Seqs.FilterMembers(cart, IdIsNot(id));
    var r := Seqs.Filter(cart, IdIsNot(id));
    assert forall i :: 0 <= i < |r| ==> IdIsNot(id)(r[i]);
    r
  }

  // ---- The ledger view: lemmas on Quantity and Count.

  lemma {:induction false} QuantityAbsent(cart: seq<CartItem>, id: string)
    requires !HasId(cart, id)
    ensures Quantity(cart, id) == 0
  {
    if cart != [] {
      assert cart[0].Id() != id;
      assert !HasId(cart[1..], id) by {
        forall i | 0 <= i < |cart[1..]| ensures cart[1..][i].Id() != id {
          assert cart[1..][i] == cart[i + 1];
        }
      }
      QuantityAbsent(cart[1..], id);
    }
  }

  /** With unique ids, the quantity of a line's product is that line's quantity. */
  lemma {:induction false} QuantityOfLine(cart: seq<CartItem>, k: nat)
    requires UniqueIds(cart) && k < |cart|
    ensures Quantity(cart, cart[k].Id()) == cart[k].quantity
  {
    var rest := cart[1..];
    assert UniqueIds(rest) by {
      forall i, j | 0 <= i < j < |rest| ensures rest[i].Id() != rest[j].Id() {
        assert rest[i] == cart[i + 1] && rest[j] == cart[j + 1];
      }
    }
    if k == 0 {
      assert !HasId(rest, cart[0].Id()) by {
        forall i | 0 <= i < |rest| ensures rest[i].Id() != cart[0].Id() {
          assert rest[i] == cart[i + 1];
        }
      }
      QuantityAbsent(rest, cart[0].Id());
    } else {
      assert rest[k - 1] == cart[k];
      QuantityOfLine(rest, k - 1);
    }
  }

  lemma {:induction false} MapQuantityOther(cart: seq<CartItem>, id: string, f: int -> int, other: string)
    requires other != id
    ensures Quantity(MapQuantity(cart, id, f), other) == Quantity(cart, other)
  {
    if cart != [] {
      MapQuantityOther(cart[1..], id, f, other);
    }
  }

  lemma {:induction false} MapQuantityAbsent(cart: seq<CartItem>, id: string, f: int -> int)
    requires !HasId(cart, id)
    ensures MapQuantity(cart, id, f) == cart
  {
    var r := MapQuantity(cart, id, f);
    assert forall i :: 0 <= i < |cart| ==> r[i] == cart[i];
  }

  /** With unique ids, rewriting the line at `k` moves the badge count by the change of that line. */
  lemma {:induction false} MapQuantityCount(cart: seq<CartItem>, k: nat, f: int -> int)
    requires UniqueIds(cart) && k < |cart|
    ensures Count(MapQuantity(cart, cart[k].Id(), f)) == Count(cart) - cart[k].quantity + f(cart[k].quantity)
  {
    var id := cart[k].Id();
    var rest := cart[1..];
    assert UniqueIds(rest) by {
      forall i, j | 0 <= i < j < |rest| ensures rest[i].Id() != rest[j].Id() {
        assert rest[i] == cart[i + 1] && rest[j] == cart[j + 1];
      }
    }
    assert MapQuantity(cart, id, f)[1..] == MapQuantity(rest, id, f);
    if k == 0 {
      assert !HasId(rest, id) by {
        forall i | 0 <= i < |rest| ensures rest[i].Id() != id {
          assert rest[i] == cart[i + 1];
        }
      }
      MapQuantityAbsent(rest, id, f);
    } else {
      assert rest[k - 1] == cart[k];
      MapQuantityCount(rest, k - 1, f);
    }
  }

  lemma {:induction false} CountAppend(cart: seq<CartItem>, item: CartItem)
    ensures Count(cart + [item]) == Count(cart) + item.quantity
  {
    if cart == [] {
      assert cart + [item] == [item];
    } else {
      assert (cart + [item])[1..] == cart[1..] + [item];
      CountAppend(cart[1..], item);
    }
  }

  /** A valid cart holds at least one unit per line. */
  lemma {:induction false} CountCoversLines(cart: seq<CartItem>)
    ensures Valid(cart) ==> Count(cart) >= |cart|
  {
    if cart != [] && Valid(cart) {
      assert Valid(cart[1..]) by {
        var rest := cart[1..];
        forall i, j | 0 <= i < j < |rest| ensures rest[i].Id() != rest[j].Id() {
          assert rest[i] == cart[i + 1] && rest[j] == cart[j + 1];
        }
      }
      CountCoversLines(cart[1..]);
    }
  }

  lemma {:induction false} QuantityAppend(cart: seq<CartItem>, item: CartItem, id: string)
    ensures Quantity(cart + [item], id) == Quantity(cart, id) + (if item.Id() == id then item.quantity else 0)
  {
    if cart == [] {
      assert cart + [item] == [item];
    } else {
      assert (cart + [item])[1..] == cart[1..] + [item];
      QuantityAppend(cart[1..], item, id);
    }
  }

  lemma MapQuantityKeepsUnique(cart: seq<CartItem>, id: string, f: int -> int)
    requires UniqueIds(cart)
    ensures UniqueIds(MapQuantity(cart, id, f))
  {
  }

  lemma HasIdAt(cart: seq<CartItem>, id: string) returns (k: nat)
    requires HasId(cart, id)
    ensures k < |cart| && cart[k].Id() == id
  {
    k :| k < |cart| && cart[k].Id() == id;
  }

  // ---- addToCart

  /** `addToCart` keeps the ledger invariant, holds one more of the product, adds exactly 1 to the badge
      and grows the cart only when the product was not in it. */
  lemma AddSpec(cart: seq<CartItem>, p: Product)
    requires Valid(cart)
    ensures Valid(Add(cart, p))
    ensures HasId(Add(cart, p), p.id)
    ensures Quantity(Add(cart, p), p.id) == Quantity(cart, p.id) + 1
    ensures forall other :: other != p.id ==> Quantity(Add(cart, p), other) == Quantity(cart, other)
    ensures Count(Add(cart, p)) == Count(cart) + 1
    ensures |Add(cart, p)| == if HasId(cart, p.id) then |cart| else |cart| + 1
  {
    var r := Add(cart, p);
    if HasId(cart, p.id) {
      var k := HasIdAt(cart, p.id);
      MapQuantityKeepsUnique(cart, p.id, Increment());
      QuantityOfLine(cart, k);
      QuantityOfLine(r, k);
      MapQuantityCount(cart, k, Increment());
      forall other | other != p.id ensures Quantity(r, other) == Quantity(cart, other) {
        MapQuantityOther(cart, p.id, Increment(), other);
      }
      assert r[k].Id() == p.id;
    } else {
      QuantityAbsent(cart, p.id);
      QuantityAppend(cart, CartItem(p, 1), p.id);
      CountAppend(cart, CartItem(p, 1));
      forall other | other != p.id ensures Quantity(r, other) == Quantity(cart, other) {
        QuantityAppend(cart, CartItem(p, 1), other);
      }
      assert r[|cart|].Id() == p.id;
    }
  }

  /** On a product already in the cart, only its line changes, by one more unit. */
  lemma AddExisting(cart: seq<CartItem>, p: Product, k: nat)
    requires k < |cart| && cart[k].Id() == p.id
    ensures |Add(cart, p)| == |cart|
    ensures Add(cart, p)[k] == cart[k].(quantity := cart[k].quantity + 1)
    ensures forall i :: 0 <= i < |cart| && cart[i].Id() != p.id ==> Add(cart, p)[i] == cart[i]
  {
  }

  /** On a new product, a line with quantity 1 goes at the end. */
  lemma AddNew(cart: seq<CartItem>, p: Product)
    requires !HasId(cart, p.id)
    ensures Add(cart, p) == cart + [CartItem(p, 1)]
  {
  }

  /** Adding a new product twice leaves one line for it, with quantity 2. */
  lemma AddTwice(cart: seq<CartItem>, p: Product)
    requires !HasId(cart, p.id)
    ensures Add(Add(cart, p), p) == cart + [CartItem(p, 2)]
  {
    var once := cart + [CartItem(p, 1)];
    assert once[|cart|].Id() == p.id;
    var twice := Add(once, p);
    assert |twice| == |once|;
    forall i | 0 <= i < |twice| ensures twice[i] == (cart + [CartItem(p, 2)])[i] {
      if i < |cart| {
        assert cart[i].Id() != p.id;
      }
    }
  }

  // ---- quantity adjustment

  /** The adjusted line gets `max(1, q + delta)`; the ledger invariant is kept, the others are untouched. */
  lemma AdjustSpec(cart: seq<CartItem>, id: string, delta: int)
    requires Valid(cart)
    ensures Valid(Adjust(cart, id, delta))
    ensures |Adjust(cart, id, delta)| == |cart|
    ensures forall other :: other != id ==> Quantity(Adjust(cart, id, delta), other) == Quantity(cart, other)
    ensures HasId(cart, id) ==>
      Quantity(Adjust(cart, id, delta), id) == (if Quantity(cart, id) + delta > 1 then Quantity(cart, id) + delta else 1)
    ensures !HasId(cart, id) ==> Adjust(cart, id, delta) == cart
  {
    var r := Adjust(cart, id, delta);
    MapQuantityKeepsUnique(cart, id, FlooredAdd(delta));
    forall other | other != id ensures Quantity(r, other) == Quantity(cart, other) {
      MapQuantityOther(cart, id, FlooredAdd(delta), other);
    }
    if HasId(cart, id) {
      var k := HasIdAt(cart, id);
      QuantityOfLine(cart, k);
      QuantityOfLine(r, k);
    } else {
      MapQuantityAbsent(cart, id, FlooredAdd(delta));
    }
  }

  /** No delta, however negative, brings a quantity below 1. */
  lemma AdjustNeverBelowOne(cart: seq<CartItem>, id: string, delta: int, i: nat)
    requires i < |cart|
    ensures Adjust(cart, id, delta)[i].quantity >= 1 || (cart[i].Id() != id && cart[i].quantity < 1)
  {
  }

  // ---- removal

  /** Removal deletes exactly the lines of `id` and keeps the rest in order. */
  lemma RemoveSpec(cart: seq<CartItem>, id: string)
    requires Valid(cart)
    ensures Valid(Remove(cart, id))
    ensures !HasId(Remove(cart, id), id)
    ensures Seqs.IsSubsequence(Remove(cart, id), cart)
    ensures forall i :: 0 <= i < |cart| && cart[i].Id() != id ==> cart[i] in Remove(cart, id)
    ensures forall other :: other != id ==> Quantity(Remove(cart, id), other) == Quantity(cart, other)
  {
    var r := Remove(cart, id);
    Seqs.FilterIsSubsequence(cart, IdIsNot(id));
    Seqs.FilterMembers(cart, IdIsNot(id));
    assert forall i :: 0 <= i < |r| ==> IdIsNot(id)(r[i]);
    SubsequenceKeepsValid(r, cart);
    forall other | other != id ensures Quantity(r, other) == Quantity(cart, other) {
      RemoveQuantity(cart, id, other);
    }
  }

  lemma {:induction false} RemoveQuantity(cart: seq<CartItem>, id: string, other: string)
    requires other != id
    ensures Quantity(Remove(cart, id), other) == Quantity(cart, other)
  {
    if cart != [] {
      RemoveQuantity(cart[1..], id, other);
      if cart[0].Id() != id {
        assert Remove(cart, id) == [cart[0]] + Remove(cart[1..], id);
      }
    }
  }

  /** Deleting lines keeps the ledger invariant. */
  lemma {:induction false} SubsequenceKeepsValid(a: seq<CartItem>, b: seq<CartItem>)
    requires Valid(b) && Seqs.IsSubsequence(a, b)
    ensures Valid(a)
    decreases |b|
  {
    if a != [] && b != [] {
      var b' := b[1..];
      assert Valid(b') by {
        forall i, j | 0 <= i < j < |b'| ensures b'[i].Id() != b'[j].Id() {
          assert b'[i] == b[i + 1] && b'[j] == b[j + 1];
        }
        forall i | 0 <= i < |b'| ensures b'[i].quantity >= 1 {
          assert b'[i] == b[i + 1];
        }
      }
      if a[0] == b[0] && Seqs.IsSubsequence(a[1..], b') {
        SubsequenceKeepsValid(a[1..], b');
        Seqs.SubsequenceMembers(a[1..], b');
        forall j | 0 < j < |a| ensures a[0].Id() != a[j].Id() {
          assert a[j] == a[1..][j - 1];
          var m :| 0 <= m < |b'| && b'[m] == a[j];
          assert b[m + 1] == a[j];
        }
        forall i, j | 0 <= i < j < |a| ensures a[i].Id() != a[j].Id() {
          if i > 0 {
            assert a[i] == a[1..][i - 1] && a[j] == a[1..][j - 1];
          }
        }
      } else {
        SubsequenceKeepsValid(a, b');
      }
    }
  }
}
