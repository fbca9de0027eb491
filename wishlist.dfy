/** The wishlist of App.tsx: `toggleWishlist` (lines 113-121) and the
    removal updater handed to the wishlist drawer (line 507). Entries are
    product snapshots, at most one per id. */
module Wishlist {
  import opened Types
  import Seqs

  predicate HasId(w: seq<Product>, id: string)
  {
    exists i :: 0 <= i < |w| && w[i].id == id
  }

  predicate UniqueIds(w: seq<Product>)
  {
    forall i, j :: 0 <= i < j < |w| ==> w[i].id != w[j].id
  }

  /** The ids on the list. */
  function Ids(w: seq<Product>): set<string>
  {
    set i | 0 <= i < |w| :: w[i].id
  }

  // The same id filter as `Cart`'s, over products rather than cart lines.
  function IdIsNot(id: string): Product -> bool
  {
    (p: Product) => p.id != id
  }

  /** `prev.filter(p => p.id !== id)`. */
  function Remove(w: seq<Product>, id: string): (r: seq<Product>)
    ensures !HasId(r, id)
    ensures |r| <= |w| && forall i :: 0 <= i < |r| ==> r[i] in w
  {
    Seqs.FilterMembers(w, IdIsNot(id));
    var r := Seqs.Filter(w, IdIsNot(id));
    assert forall i :: 0 <= i < |r| ==> IdIsNot(id)(r[i]);
    r
  }

  /** `toggleWishlist`: drop the product if its id is listed, else append the snapshot. */
  function Toggle(w: seq<Product>, p: Product): (r: seq<Product>)
    ensures HasId(r, p.id) <==> !HasId(w, p.id)
  {
    if HasId(w, p.id) then Remove(w, p.id)
    else
      var r := w + [p];
      assert r[|w|].id == p.id;
      r
  }

  /** Removal deletes exactly the entries with `id` and keeps the rest, in order. */
  lemma RemoveSpec(w: seq<Product>, id: string)
    ensures !HasId(Remove(w, id), id)
    ensures Seqs.IsSubsequence(Remove(w, id), w)
    ensures forall i :: 0 <= i < |w| && w[i].id != id ==> w[i] in Remove(w, id)
    ensures Ids(Remove(w, id)) == Ids(w) - {id}
    ensures UniqueIds(w) ==> UniqueIds(Remove(w, id))
  {
    var r := Remove(w, id);
    Seqs.FilterIsSubsequence(w, IdIsNot(id));
    Seqs.FilterMembers(w, IdIsNot(id));
    assert forall i :: 0 <= i < |r| ==> IdIsNot(id)(r[i]);
    RemoveIds(w, id);
    if UniqueIds(w) {
      SubsequenceKeepsUnique(r, w);
    }
  }

  lemma RemoveIds(w: seq<Product>, id: string)
    ensures Ids(Remove(w, id)) == Ids(w) - {id}
  {
    var r := Remove(w, id);
    Seqs.FilterMembers(w, IdIsNot(id));
    forall x | x in Ids(r) ensures x in Ids(w) - {id} {
      var j :| 0 <= j < |r| && r[j].id == x;
      assert IdIsNot(id)(r[j]);
      var i :| 0 <= i < |w| && w[i] == r[j];
    }
    forall x | x in Ids(w) - {id} ensures x in Ids(r) {
      var i :| 0 <= i < |w| && w[i].id == x;
      assert IdIsNot(id)(w[i]);
      var j :| 0 <= j < |r| && r[j] == w[i];
    }
  }

  lemma {:induction false} SubsequenceKeepsUnique(a: seq<Product>, b: seq<Product>)
    requires UniqueIds(b) && Seqs.IsSubsequence(a, b)
    ensures UniqueIds(a)
    decreases |b|
  {
    if a != [] && b != [] {
      var b' := b[1..];
      assert UniqueIds(b') by {
        forall i, j | 0 <= i < j < |b'| ensures b'[i].id != b'[j].id {
          assert b'[i] == b[i + 1] && b'[j] == b[j + 1];
        }
      }
      if a[0] == b[0] && Seqs.IsSubsequence(a[1..], b') {
        SubsequenceKeepsUnique(a[1..], b');
        Seqs.SubsequenceMembers(a[1..], b');
        forall j | 0 < j < |a| ensures a[0].id != a[j].id {
          assert a[j] == a[1..][j - 1];
          var m :| 0 <= m < |b'| && b'[m] == a[j];
          assert b[m + 1] == a[j];
        }
        forall i, j | 0 <= i < j < |a| ensures a[i].id != a[j].id {
          if i > 0 {
            assert a[i] == a[1..][i - 1] && a[j] == a[1..][j - 1];
          }
        }
      } else {
        SubsequenceKeepsUnique(a, b');
      }
    }
  }

  /** A toggle keeps ids unique and touches no other id: a listed product is removed as `Remove` does,
      keeping the other entries in order, and an unlisted one is appended after the unchanged list. */
  lemma ToggleSpec(w: seq<Product>, p: Product)
    requires UniqueIds(w)
    ensures UniqueIds(Toggle(w, p))
    ensures HasId(Toggle(w, p), p.id) <==> !HasId(w, p.id)
    ensures HasId(w, p.id) ==> Toggle(w, p) == Remove(w, p.id)
    ensures !HasId(w, p.id) ==> |Toggle(w, p)| == |w| + 1 && Toggle(w, p)[..|w|] == w && Toggle(w, p)[|w|] == p
    ensures Ids(Toggle(w, p)) == if HasId(w, p.id) then Ids(w) - {p.id} else Ids(w) + {p.id}
  {
    if HasId(w, p.id) {
      RemoveSpec(w, p.id);
    } else {
      var r := w + [p];
      assert r[|w|].id == p.id;
      assert forall i :: 0 <= i < |w| ==> r[i] == w[i];
      assert Ids(r) == Ids(w) + {p.id} by {
        forall x | x in Ids(r) ensures x in Ids(w) + {p.id} {
          var i :| 0 <= i < |r| && r[i].id == x;
          if i < |w| {
            assert w[i].id == x;
          }
        }
      }
    }
  }

  /** Toggling an unlisted product twice restores the list exactly. */
  lemma ToggleTwiceAbsent(w: seq<Product>, p: Product)
    requires !HasId(w, p.id)
    ensures Toggle(Toggle(w, p), p) == w
  {
    var once := w + [p];
    assert once[|w|].id == p.id;
    Seqs.FilterAppend(w, [p], IdIsNot(p.id));
    Seqs.FilterKeepsAll(w, IdIsNot(p.id));
    assert Seqs.Filter([p], IdIsNot(p.id)) == [];
  }

  /** Toggling a listed product twice restores the set of ids, but its entry moves to the end. */
  lemma ToggleTwicePresent(w: seq<Product>, p: Product)
    requires HasId(w, p.id)
    ensures Toggle(Toggle(w, p), p) == Remove(w, p.id) + [p]
    ensures Ids(Toggle(Toggle(w, p), p)) == Ids(w)
  {
    RemoveSpec(w, p.id);
    var r := Remove(w, p.id) + [p];
    assert r[|r| - 1].id == p.id;
    assert Ids(r) == Ids(Remove(w, p.id)) + {p.id} by {
      var rm := Remove(w, p.id);
      assert forall i :: 0 <= i < |rm| ==> r[i] == rm[i];
      forall x | x in Ids(r) ensures x in Ids(rm) + {p.id} {
        var i :| 0 <= i < |r| && r[i].id == x;
        if i < |rm| {
          assert rm[i].id == x;
        }
      }
    }
  }
}
