/** The wishlist: product ids with set-like membership, flipped by `toggleWishlist`. */
module Wishlist {

  /** `prev.filter(i => i !== id)`. */
  function Without(w: seq<int>, id: int): (r: seq<int>)
    ensures forall x :: x in r <==> x in w && x != id
    ensures |r| <= |w|
  {
    if w == [] then []
    else if w[0] == id then Without(w[1..], id)
    else [w[0]] + Without(w[1..], id)
  }

  /** The updater of `toggleWishlist(id)`: `prev.includes(id) ? prev.filter(i => i !== id) : [...prev, id]`. */
  function Toggle(w: seq<int>, id: int): (r: seq<int>)
    ensures id in r <==> id !in w
    ensures forall x :: x != id ==> (x in r <==> x in w)
  {
    if id in w then Without(w, id) else w + [id]
  }

  /** Each id is listed once. */
  predicate NoDuplicates(w: seq<int>) {
    forall i, j :: 0 <= i < j < |w| ==> w[i] != w[j]
  }

  /** An absent id is appended at the end. */
  lemma ToggleAppends(w: seq<int>, id: int)
    requires id !in w
    ensures Toggle(w, id) == w + [id]
  {
  }

  /** Filtering out an id that is not listed changes nothing. */
  lemma {:induction false} WithoutAbsent(w: seq<int>, id: int)
    requires id !in w
    ensures Without(w, id) == w
  {
    if w != [] {
      assert id !in w[1..];
      WithoutAbsent(w[1..], id);
    }
  }

  lemma {:induction false} WithoutAppend(a: seq<int>, b: seq<int>, id: int)
    ensures Without(a + b, id) == Without(a, id) + Without(b, id)
  {
    if a == [] {
      assert a + b == b;
    } else {
      assert (a + b)[0] == a[0];
      assert (a + b)[1..] == a[1..] + b;
      WithoutAppend(a[1..], b, id);
    }
  }

  /** Toggling twice restores membership, and restores the very list when `id` was absent. */
  lemma ToggleTwice(w: seq<int>, id: int)
    ensures forall x :: x in Toggle(Toggle(w, id), id) <==> x in w
    ensures id !in w ==> Toggle(Toggle(w, id), id) == w
  {
    if id !in w {
      WithoutAppend(w, [id], id);
      WithoutAbsent(w, id);
      assert Without([id], id) == [];
    }
  }

  /** Filtering keeps a duplicate-free list duplicate-free. */
  lemma {:induction false} WithoutKeepsNoDuplicates(w: seq<int>, id: int)
    requires NoDuplicates(w)
    ensures NoDuplicates(Without(w, id))
  {
    if w != [] {
      WithoutKeepsNoDuplicates(w[1..], id);
      var rest := Without(w[1..], id);
      if w[0] != id {
        var r := [w[0]] + rest;
        forall j | 0 < j < |r| ensures r[0] != r[j] {
          assert r[j] in rest;
          assert r[j] in w[1..];
        }
      }
    }
  }

  /** Toggling keeps the wishlist a set. */
  lemma ToggleKeepsNoDuplicates(w: seq<int>, id: int)
    requires NoDuplicates(w)
    ensures NoDuplicates(Toggle(w, id))
  {
    if id in w {
      WithoutKeepsNoDuplicates(w, id);
    }
  }
}
