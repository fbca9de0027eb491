/** Resolving the recommendation service's answer against the catalog
    (`recommendedProducts`, App.tsx lines 167-169). */
module Recommend {
  import opened Types
  import Seqs

  /** `products.find(p => p.id === id)`: the first product with that id. */
  function Find(products: seq<Product>, id: string): (r: Option<Product>)
    ensures r.None? <==> forall i :: 0 <= i < |products| ==> products[i].id != id
    ensures r.Some? ==> r.value in products && r.value.id == id
  {
    if products == [] then None
    else if products[0].id == id then Some(products[0])
    else
      assert forall i :: 1 <= i < |products| ==> products[i] == products[1..][i - 1];
      Find(products[1..], id)
  }

  /** The product found is the first one with the id. */
  lemma {:induction false} FindFirst(products: seq<Product>, id: string, k: nat)
    requires k < |products| && products[k].id == id
    requires forall j :: 0 <= j < k ==> products[j].id != id
    ensures Find(products, id) == Some(products[k])
  {
    if k > 0 {
      assert forall j :: 0 <= j < k - 1 ==> products[1..][j] == products[j + 1];
      FindFirst(products[1..], id, k - 1);
    }
  }

  /** `aiRecs.map(rec => find(rec.productId)).filter(Boolean)`. */
  function Resolve(recs: seq<Recommendation>, products: seq<Product>): (r: seq<Product>)
    ensures |r| <= |recs|
    ensures forall i :: 0 <= i < |r| ==> r[i] in products
  {
    if recs == [] then []
    else
      match Find(products, recs[0].productId)
      case Some(p) => [p] + Resolve(recs[1..], products)
      case None => Resolve(recs[1..], products)
  }

  function RecIds(recs: seq<Recommendation>): (ids: seq<string>)
    ensures |ids| == |recs| && forall i :: 0 <= i < |recs| ==> ids[i] == recs[i].productId
  {
    if recs == [] then [] else [recs[0].productId] + RecIds(recs[1..])
  }

  function ProductIds(products: seq<Product>): (ids: seq<string>)
    ensures |ids| == |products| && forall i :: 0 <= i < |products| ==> ids[i] == products[i].id
  {
    if products == [] then [] else [products[0].id] + ProductIds(products[1..])
  }

  /** The test "some catalog product has this id". */
  function InCatalog(products: seq<Product>): string -> bool
  {
    (id: string) => exists i :: 0 <= i < |products| && products[i].id == id
  }

  /** The resolved list names the recommended ids that the catalog knows, in recommendation order. */
  lemma {:induction false} ResolveIds(recs: seq<Recommendation>, products: seq<Product>)
    ensures ProductIds(Resolve(recs, products)) == Seqs.Filter(RecIds(recs), InCatalog(products))
  {
    if recs != [] {
      ResolveIds(recs[1..], products);
      assert RecIds(recs)[1..] == RecIds(recs[1..]);
      var f := Find(products, recs[0].productId);
      if f.Some? {
        assert InCatalog(products)(recs[0].productId);
        assert ProductIds([f.value] + Resolve(recs[1..], products))[1..] == ProductIds(Resolve(recs[1..], products));
      } else {
        assert !InCatalog(products)(recs[0].productId);
      }
    }
  }

  /** Every resolved product is the first catalog product with a recommended id. */
  lemma {:induction false} ResolveFromCatalog(recs: seq<Recommendation>, products: seq<Product>, j: nat)
    requires j < |Resolve(recs, products)|
    ensures Resolve(recs, products)[j] in products
    ensures exists i :: 0 <= i < |recs| && Find(products, recs[i].productId) == Some(Resolve(recs, products)[j])
  {
    var f := Find(products, recs[0].productId);
    if f.Some? && j == 0 {
      assert Find(products, recs[0].productId) == Some(Resolve(recs, products)[0]);
    } else {
      var j' := if f.Some? then j - 1 else j;
      assert Resolve(recs, products)[j] == Resolve(recs[1..], products)[j'];
      ResolveFromCatalog(recs[1..], products, j');
      var i :| 0 <= i < |recs[1..]| && Find(products, recs[1..][i].productId) == Some(Resolve(recs[1..], products)[j']);
      assert recs[1..][i] == recs[i + 1];
    }
  }

  /** When every recommended id is known, nothing is dropped and the order follows the recommendations. */
  lemma {:induction false} ResolveAllKnown(recs: seq<Recommendation>, products: seq<Product>)
    requires forall i :: 0 <= i < |recs| ==> Find(products, recs[i].productId).Some?
    ensures |Resolve(recs, products)| == |recs|
    ensures forall i :: 0 <= i < |recs| ==> Resolve(recs, products)[i].id == recs[i].productId
  {
    if recs != [] {
      assert Find(products, recs[0].productId).Some?;
      assert forall i :: 0 <= i < |recs[1..]| ==> recs[1..][i] == recs[i + 1];
      ResolveAllKnown(recs[1..], products);
      var r := Resolve(recs, products);
      assert forall i :: 1 <= i < |recs| ==> r[i] == Resolve(recs[1..], products)[i - 1];
    }
  }
}
