/** The filter sidebar (components/FilterSidebar.tsx): the brand list, the
    brand checkboxes, the price inputs and the rating radios. */
module FilterSidebar {
  import opened Types
  import Seqs
  import Catalog
  import App

  /** `products.map(p => p.brand)`. */
  function BrandsOf(products: seq<Product>): (bs: seq<string>)
    ensures |bs| == |products| && forall i :: 0 <= i < |products| ==> bs[i] == products[i].brand
  {
    if products == [] then [] else [products[0].brand] + BrandsOf(products[1..])
  }

  /** `Array.from(new Set(s))`: each value once, in order of first appearance. */
  function Distinct(s: seq<string>): (r: seq<string>)
    ensures |r| <= |s| && forall i :: 0 <= i < |r| ==> r[i] in s
  {
    if s == [] then []
    else
      var d := Distinct(s[..|s| - 1]);
      if s[|s| - 1] in d then d else d + [s[|s| - 1]]
  }

  /** The position of the first occurrence of `x` in `s`. */
  function IndexOf(s: seq<string>, x: string): (k: nat)
    requires x in s
    ensures k < |s| && s[k] == x && forall j :: 0 <= j < k ==> s[j] != x
  {
    if s[0] == x then 0 else 1 + IndexOf(s[1..], x)
  }

  /** The brand list shown as checkboxes. */
  function Brands(products: seq<Product>): (bs: seq<string>)
    ensures |bs| <= |products|
    ensures forall i :: 0 <= i < |bs| ==> exists j :: 0 <= j < |products| && products[j].brand == bs[i]
  {
    var all := BrandsOf(products);
    var bs := Distinct(all);
    assert forall i :: 0 <= i < |bs| ==> exists j :: 0 <= j < |all| && all[j] == bs[i];
    bs
  }

  lemma IndexOfExtend(s: seq<string>, y: string, x: string)
    requires x in s
    ensures IndexOf(s + [y], x) == IndexOf(s, x)
  {
    var k, k' := IndexOf(s, x), IndexOf(s + [y], x);
    assert (s + [y])[k] == x;
  }

  /** The distinct list holds exactly the values of `s`, each once, ordered by first appearance in `s`. */
  lemma {:induction false} DistinctSpec(s: seq<string>)
    ensures forall x :: x in Distinct(s) <==> x in s
    ensures forall i, j :: 0 <= i < j < |Distinct(s)| ==> Distinct(s)[i] != Distinct(s)[j]
    ensures forall i, j :: 0 <= i < j < |Distinct(s)| ==> IndexOf(s, Distinct(s)[i]) < IndexOf(s, Distinct(s)[j])
  {
    if s != [] {
      var init, last := s[..|s| - 1], s[|s| - 1];
      assert s == init + [last];
      DistinctSpec(init);
      var d := Distinct(init);
      forall x | x in init ensures IndexOf(s, x) == IndexOf(init, x) {
        IndexOfExtend(init, last, x);
      }
      if last !in d {
        var r := d + [last];
        assert IndexOf(s, last) == |s| - 1 by {
          assert last !in init;
        }
        forall i | 0 <= i < |d| ensures IndexOf(s, r[i]) < IndexOf(s, last) {
          assert r[i] == d[i] && d[i] in init;
        }
      }
    }
  }

  /** Every product's brand is listed, every listed brand belongs to some product, each appears once,
      in the order of the first product carrying it. */
  lemma BrandsSpec(products: seq<Product>)
    ensures forall i :: 0 <= i < |products| ==> products[i].brand in Brands(products)
    ensures forall b :: b in Brands(products) ==> exists i :: 0 <= i < |products| && products[i].brand == b
    ensures forall i, j :: 0 <= i < j < |Brands(products)| ==> Brands(products)[i] != Brands(products)[j]
    ensures forall i, j :: 0 <= i < j < |Brands(products)| ==>
      IndexOf(BrandsOf(products), Brands(products)[i]) < IndexOf(BrandsOf(products), Brands(products)[j])
  {
    var bs := BrandsOf(products);
    DistinctSpec(bs);
    forall i | 0 <= i < |products| ensures products[i].brand in Brands(products) {
      assert bs[i] == products[i].brand;
    }
    forall b | b in Brands(products) ensures exists i :: 0 <= i < |products| && products[i].brand == b {
      var i :| 0 <= i < |bs| && bs[i] == b;
    }
  }

  function IsNot(b: string): string -> bool
  {
    (x: string) => x != b
  }

  /** `handleBrandChange`'s updater: remove a selected brand, else append it. */
  function ToggleBrand(selected: seq<string>, b: string): (r: seq<string>)
    ensures b in r <==> b !in selected
    ensures forall i :: 0 <= i < |r| ==> r[i] == b || r[i] in selected
  {
    if b in selected then
      Seqs.FilterMembers(selected, IsNot(b));
      var r := Seqs.Filter(selected, IsNot(b));
      assert forall i :: 0 <= i < |r| ==> IsNot(b)(r[i]);
      r
    else selected + [b]
  }

  /** A toggle flips the brand's membership and leaves every other brand's alone. */
  lemma ToggleBrandSpec(selected: seq<string>, b: string)
    ensures b in ToggleBrand(selected, b) <==> b !in selected
    ensures forall x :: x != b ==> (x in ToggleBrand(selected, b) <==> x in selected)
    ensures b !in selected ==> ToggleBrand(selected, b) == selected + [b]
  {
    Seqs.FilterMembers(selected, IsNot(b));
    var r := ToggleBrand(selected, b);
    if b in selected {
      forall x | x in r ensures x != b && x in selected {
        var i :| 0 <= i < |r| && r[i] == x;
      }
      forall x | x != b && x in selected ensures x in r {
        var i :| 0 <= i < |selected| && selected[i] == x;
        assert IsNot(b)(selected[i]);
      }
    }
  }

  /** Checking and unchecking a brand that was not selected restores the selection exactly. */
  lemma ToggleBrandTwice(selected: seq<string>, b: string)
    requires b !in selected
    ensures ToggleBrand(ToggleBrand(selected, b), b) == selected
  {
    Seqs.FilterAppend(selected, [b], IsNot(b));
    Seqs.FilterKeepsAll(selected, IsNot(b));
    assert Seqs.Filter([b], IsNot(b)) == [];
  }

  /** The rating radios, top to bottom. */
  function RatingChoices(): (rs: seq<int>)
    ensures forall i :: 0 <= i < |rs| ==> 1 <= rs[i] <= 4
  {
    [4, 3, 2, 1]
  }

  /** The "Brand" checkbox for `b`. */
  method OnBrandChange(store: App.Store, b: string)
    requires store.Valid()
    modifies store
    ensures store.Valid()
    ensures store.State() == old(store.State()).(selectedBrands := ToggleBrand(old(store.selectedBrands), b))
  {
    store.SetSelectedBrands(ToggleBrand(store.selectedBrands, b));
  }

  /** The "Min" input: only the lower bound changes. */
  method OnMinInput(store: App.Store, value: int)
    requires store.Valid()
    modifies store
    ensures store.Valid()
    ensures store.State() == old(store.State()).(priceMin := value)
  {
    store.SetPriceRange(value, store.priceMax);
  }

  /** The "Max" input: only the upper bound changes. */
  method OnMaxInput(store: App.Store, value: int)
    requires store.Valid()
    modifies store
    ensures store.Valid()
    ensures store.State() == old(store.State()).(priceMax := value)
  {
    store.SetPriceRange(store.priceMin, value);
  }

  /** The slider (0 .. 2000 dollars in steps of 50) also sets only the upper bound. */
  method OnSlider(store: App.Store, value: int)
    requires store.Valid()
    requires 0 <= value <= Catalog.DefaultPriceMax && value % 5000 == 0
    modifies store
    ensures store.Valid()
    ensures store.State() == old(store.State()).(priceMax := value)
  {
    store.SetPriceRange(store.priceMin, value);
  }

  /** The `k`-th rating radio: `minRating` becomes one of 4, 3, 2, 1. */
  method OnRatingChoice(store: App.Store, k: nat)
    requires store.Valid()
    requires k < |RatingChoices()|
    modifies store
    ensures store.Valid()
    ensures store.State() == old(store.State()).(minRating := RatingChoices()[k])
    ensures 1 <= store.minRating <= 4
  {
    store.SetMinRating(RatingChoices()[k]);
  }
}
