/**
 * The cart: an ordered list of `{product, quantity}` lines, the updaters that
 * `addToCart`, `removeFromCart` and `updateQuantity` pass to `setCart`, and the
 * derived `cartCount` and `cartTotal`.
 */
module Cart {
  import opened Wrappers
  import opened Catalog
  import opened Sequences

  datatype Line = Line(product: Product, quantity: int)

  /** Some line of the cart is for product `id`. */
  predicate HasLine(cart: seq<Line>, id: int) {
    exists i :: 0 <= i < |cart| && cart[i].product.id == id
  }

  /** At most one line per product id. */
  predicate UniqueIds(cart: seq<Line>) {
    forall i, j :: 0 <= i < j < |cart| ==> cart[i].product.id != cart[j].product.id
  }

  /** Every quantity is at least 1. */
  predicate AllPositive(cart: seq<Line>) {
    forall i :: 0 <= i < |cart| ==> cart[i].quantity >= 1
  }

  /** The cart invariant every action keeps. */
  predicate WellFormed(cart: seq<Line>) {
    UniqueIds(cart) && AllPositive(cart)
  }

  /** Every line holds a catalog product, as every line `addToCart` creates does. */
  predicate FromCatalog(cart: seq<Line>) {
    forall i :: 0 <= i < |cart| ==> cart[i].product in Products
  }

  /** Every line for `p.id` carries `p`'s price (true whenever lines and `p` come from the catalog). */
  predicate PriceAgrees(cart: seq<Line>, p: Product) {
    forall i :: 0 <= i < |cart| && cart[i].product.id == p.id ==> cart[i].product.price == p.price
  }

  // ---------------------------------------------------------------- addToCart

  /** `prev.find(item => item.product.id === id)`: the first line for `id`, if any. */
  function Find(cart: seq<Line>, id: int): (r: Option<Line>)
    ensures r.Some? <==> HasLine(cart, id)
    ensures r.Some? ==> r.value.product.id == id
    ensures r.Some? ==> exists k :: 0 <= k < |cart| && cart[k] == r.value &&
                                    forall j :: 0 <= j < k ==> cart[j].product.id != id
  {
    if cart == [] then None
    else if cart[0].product.id == id then Some(cart[0])
    else
      var r := Find(cart[1..], id);
      assert r.Some? ==> exists k :: 1 <= k < |cart| && cart[k] == r.value &&
                                     forall j :: 0 <= j < k ==> cart[j].product.id != id by {
        if r.Some? {
          var k :| 0 <= k < |cart[1..]| && cart[1..][k] == r.value &&
                   forall j :: 0 <= j < k ==> cart[1..][j].product.id != id;
          assert cart[k + 1] == r.value;
        }
      }
      r
  }

  /** The mapped line: one more of product `id`, any other line as it was. */
  function IncrementLine(l: Line, id: int): Line {
    if l.product.id == id then l.(quantity := l.quantity + 1) else l
  }

  /** `prev.map(item => item.product.id === id ? {...item, quantity: item.quantity + 1} : item)`. */
  function Increment(cart: seq<Line>, id: int): (r: seq<Line>)
    ensures |r| == |cart|
    ensures forall i :: 0 <= i < |cart| ==> r[i] == IncrementLine(cart[i], id)
  {
    if cart == [] then [] else [IncrementLine(cart[0], id)] + Increment(cart[1..], id)
  }

  /**
   * The updater of `addToCart(p)`: with a line for `p.id` every such line gains one,
   * otherwise a line of one is appended at the end.
   */
  function AddLine(cart: seq<Line>, p: Product): (r: seq<Line>)
    ensures HasLine(cart, p.id) ==>
      |r| == |cart| && forall i :: 0 <= i < |cart| ==> r[i] == IncrementLine(cart[i], p.id)
    ensures !HasLine(cart, p.id) ==> r == cart + [Line(p, 1)]
  {
    if Find(cart, p.id).Some? then Increment(cart, p.id) else cart + [Line(p, 1)]
  }

  /** Product already in the cart: its line gains exactly one, nothing else moves. */
  lemma AddLineExisting(cart: seq<Line>, p: Product, k: int)
    requires UniqueIds(cart) && 0 <= k < |cart| && cart[k].product.id == p.id
    ensures var r := AddLine(cart, p);
      && |r| == |cart|
      && r[k] == Line(cart[k].product, cart[k].quantity + 1)
      && forall i :: 0 <= i < |cart| && i != k ==> r[i] == cart[i]
  {
  }

  /** Adding keeps one line per id and positive quantities. */
  lemma AddLineKeepsWellFormed(cart: seq<Line>, p: Product)
    requires WellFormed(cart)
    ensures WellFormed(AddLine(cart, p))
  {
  }

  /** Adding a product raises the item count by one and the total by its price. */
  lemma {:induction false} AddLineCountTotal(cart: seq<Line>, p: Product)
    requires UniqueIds(cart) && PriceAgrees(cart, p)
    ensures Count(AddLine(cart, p)) == Count(cart) + 1
    ensures Total(AddLine(cart, p)) == Total(cart) + p.price
  {
    if HasLine(cart, p.id) {
      SumIncrement(Quantity, cart, p.id, 1);
      forall i | 0 <= i < |cart| && cart[i].product.id == p.id
        ensures LineTotal(IncrementLine(cart[i], p.id)) == LineTotal(cart[i]) + p.price
      {
        var q := cart[i].quantity;
        assert p.price * (q + 1) == p.price * q + p.price;
      }
      SumIncrement(LineTotal, cart, p.id, p.price);
    } else {
      SumAppend(Quantity, cart, [Line(p, 1)]);
      SumAppend(LineTotal, cart, [Line(p, 1)]);
    }
  }

  /** Lines and product taken from the catalog always agree on price. */
  lemma CatalogPricesAgree(cart: seq<Line>, p: Product)
    requires FromCatalog(cart) && p in Products
    ensures PriceAgrees(cart, p)
  {
  }

  /** Adding a catalog product keeps every line a catalog product. */
  lemma AddLineKeepsCatalogLines(cart: seq<Line>, p: Product)
    requires FromCatalog(cart) && p in Products
    ensures FromCatalog(AddLine(cart, p))
  {
  }

  /** Removing a line and changing a quantity keep every line a catalog product. */
  lemma RemoveAdjustKeepCatalogLines(cart: seq<Line>, id: int, delta: int)
    requires FromCatalog(cart)
    ensures FromCatalog(RemoveLine(cart, id))
    ensures FromCatalog(Adjust(cart, id, delta))
  {
    var r := RemoveLine(cart, id);
    forall i | 0 <= i < |r| ensures r[i].product in Products {
      assert r[i] in cart;
    }
  }

  /** `addToCart(p)` applied `n` times. */
  function AddTimes(cart: seq<Line>, p: Product, n: nat): seq<Line> {
    if n == 0 then cart else AddLine(AddTimes(cart, p, n - 1), p)
  }

  /** From an empty cart, `n` adds of one product leave exactly one line of quantity `n`. */
  lemma {:induction false} AddRepeatedly(p: Product, n: nat)
    requires n >= 1
    ensures AddTimes([], p, n) == [Line(p, n)]
  {
    if n > 1 {
      AddRepeatedly(p, n - 1);
      var prev := [Line(p, n - 1)];
      assert Find(prev, p.id).Some? by { assert prev[0].product.id == p.id; }
      assert Increment(prev, p.id)[0] == Line(p, n);
    }
  }

  // ----------------------------------------------------------- removeFromCart

  /** `prev.filter(item => item.product.id !== id)`. */
  function RemoveLine(cart: seq<Line>, id: int): (r: seq<Line>)
    ensures forall l :: l in r <==> l in cart && l.product.id != id
    ensures !HasLine(r, id)
    ensures |r| <= |cart|
  {
    if cart == [] then []
    else if cart[0].product.id == id then RemoveLine(cart[1..], id)
    else [cart[0]] + RemoveLine(cart[1..], id)
  }

  /** Removing an id that has no line leaves the cart as it was. */
  lemma {:induction false} RemoveLineAbsent(cart: seq<Line>, id: int)
    requires !HasLine(cart, id)
    ensures RemoveLine(cart, id) == cart
  {
    if cart != [] {
      assert cart[0].product.id != id;
      assert !HasLine(cart[1..], id);
      RemoveLineAbsent(cart[1..], id);
    }
  }

  /** The remaining lines keep their relative order. */
  lemma {:induction false} RemoveLineKeepsOrder(cart: seq<Line>, id: int)
    ensures IsSubsequence(RemoveLine(cart, id), cart)
  {
    if cart != [] {
      RemoveLineKeepsOrder(cart[1..], id);
    }
  }

  /** With one line per id, removing the id of line `k` cuts exactly that line out. */
  lemma {:induction false} RemoveLineAt(cart: seq<Line>, k: int)
    requires UniqueIds(cart) && 0 <= k < |cart|
    ensures RemoveLine(cart, cart[k].product.id) == cart[..k] + cart[k + 1..]
  {
    var id := cart[k].product.id;
    if k == 0 {
      assert !HasLine(cart[1..], id);
      RemoveLineAbsent(cart[1..], id);
    } else {
      assert cart[0].product.id != id;
      assert cart[1..][k - 1] == cart[k];
      RemoveLineAt(cart[1..], k - 1);
      assert cart[..k] == [cart[0]] + cart[1..][..k - 1];
      assert cart[k + 1..] == cart[1..][k..];
    }
  }

  /** Removing line `k` takes its quantity off the count and its subtotal off the total. */
  lemma RemoveLineCountTotal(cart: seq<Line>, k: int)
    requires UniqueIds(cart) && 0 <= k < |cart|
    ensures Count(RemoveLine(cart, cart[k].product.id)) == Count(cart) - cart[k].quantity
    ensures Total(RemoveLine(cart, cart[k].product.id)) == Total(cart) - LineTotal(cart[k])
  {
    RemoveLineAt(cart, k);
    SumWithout(Quantity, cart, k);
    SumWithout(LineTotal, cart, k);
  }

  /** Removing keeps one line per id and positive quantities. */
  lemma {:induction false} RemoveLineKeepsWellFormed(cart: seq<Line>, id: int)
    requires WellFormed(cart)
    ensures WellFormed(RemoveLine(cart, id))
  {
    if cart != [] {
      RemoveLineKeepsWellFormed(cart[1..], id);
      var rest := RemoveLine(cart[1..], id);
      if cart[0].product.id != id {
        var r := [cart[0]] + rest;
        forall j | 0 < j < |r| ensures r[0].product.id != r[j].product.id {
          assert r[j] in rest;
          var i :| 0 <= i < |cart[1..]| && cart[1..][i] == r[j];
          assert cart[i + 1] == r[j];
        }
      }
    }
  }

  // ----------------------------------------------------------- updateQuantity

  function Max(a: int, b: int): int {
    if a >= b then a else b
  }

  /** The mapped line: `Math.max(1, quantity + delta)` for product `id`, any other line as it was. */
  function AdjustLine(l: Line, id: int, delta: int): Line {
    if l.product.id == id then l.(quantity := Max(1, l.quantity + delta)) else l
  }

  /** The updater of `updateQuantity(id, delta)`. */
  function Adjust(cart: seq<Line>, id: int, delta: int): (r: seq<Line>)
    ensures |r| == |cart|
    ensures forall i :: 0 <= i < |cart| ==> r[i] == AdjustLine(cart[i], id, delta)
  {
    if cart == [] then [] else [AdjustLine(cart[0], id, delta)] + Adjust(cart[1..], id, delta)
  }

  /** The matching line gets `quantity + delta`, clamped to at least 1; it is never removed. */
  lemma AdjustClamps(cart: seq<Line>, id: int, delta: int, k: int)
    requires 0 <= k < |cart| && cart[k].product.id == id
    ensures var r := Adjust(cart, id, delta);
      && |r| == |cart|
      && r[k].product == cart[k].product
      && r[k].quantity >= 1
      && (cart[k].quantity + delta >= 1 ==> r[k].quantity == cart[k].quantity + delta)
      && (cart[k].quantity + delta < 1 ==> r[k].quantity == 1)
      && HasLine(r, id)
  {
  }

  /** Lines for other products stay as they were; an absent id leaves the cart unchanged. */
  lemma AdjustOthers(cart: seq<Line>, id: int, delta: int)
    ensures forall i :: 0 <= i < |cart| && cart[i].product.id != id ==> Adjust(cart, id, delta)[i] == cart[i]
    ensures !HasLine(cart, id) ==> Adjust(cart, id, delta) == cart
  {
  }

  /** Decrementing a line of one is a no-op: the line stays at one. */
  lemma DecrementAtOne(cart: seq<Line>, k: int)
    requires 0 <= k < |cart| && cart[k].quantity == 1 && UniqueIds(cart)
    ensures Adjust(cart, cart[k].product.id, -1) == cart
  {
  }

  /** On a well-formed cart the "+" button does what "Add to cart" does for a product already there. */
  lemma PlusOneIsIncrement(cart: seq<Line>, id: int)
    requires AllPositive(cart)
    ensures Adjust(cart, id, 1) == Increment(cart, id)
  {
  }

  /** Changing quantities keeps one line per id and positive quantities. */
  lemma AdjustKeepsWellFormed(cart: seq<Line>, id: int, delta: int)
    requires WellFormed(cart)
    ensures WellFormed(Adjust(cart, id, delta))
  {
  }

  // ----------------------------------------------------- cartCount, cartTotal

  function Quantity(l: Line): int {
    l.quantity
  }

  /** `item.product.price * item.quantity`. */
  function LineTotal(l: Line): int {
    l.product.price * l.quantity
  }

  /** `cart.reduce((acc, item) => acc + f(item), acc)`: the left-to-right fold. */
  function SumFrom(f: Line -> int, acc: int, cart: seq<Line>): (r: int)
    ensures r == acc + Sum(f, cart)
    decreases |cart|
  {
    if cart == [] then acc else SumFrom(f, acc + f(cart[0]), cart[1..])
  }

  /** Reference sum of `f` over the lines. */
  function Sum(f: Line -> int, cart: seq<Line>): int {
    if cart == [] then 0 else f(cart[0]) + Sum(f, cart[1..])
  }

  /** `cartCount`: the total number of items, recomputed from the lines. */
  function Count(cart: seq<Line>): (n: int)
    ensures n == Sum(Quantity, cart)
  {
    SumFrom(Quantity, 0, cart)
  }

  /** `cartTotal`: the sum of price times quantity, recomputed from the lines. */
  function Total(cart: seq<Line>): (t: int)
    ensures t == Sum(LineTotal, cart)
  {
    SumFrom(LineTotal, 0, cart)
  }

  lemma {:induction false} SumAppend(f: Line -> int, a: seq<Line>, b: seq<Line>)
    ensures Sum(f, a + b) == Sum(f, a) + Sum(f, b)
  {
    if a != [] {
      assert (a + b)[0] == a[0];
      assert (a + b)[1..] == a[1..] + b;
      SumAppend(f, a[1..], b);
    } else {
      assert a + b == b;
    }
  }

  /** Cutting line `k` out of the cart takes its term out of any sum. */
  lemma SumWithout(f: Line -> int, cart: seq<Line>, k: int)
    requires 0 <= k < |cart|
    ensures Sum(f, cart[..k] + cart[k + 1..]) == Sum(f, cart) - f(cart[k])
  {
    var before, rest, after := cart[..k], cart[k..], cart[k + 1..];
    assert cart == before + rest;
    SumAppend(f, before, rest);
    assert rest[0] == cart[k] && rest[1..] == after;
    assert Sum(f, rest) == f(cart[k]) + Sum(f, after);
    SumAppend(f, before, after);
  }

  /** With one line per id, incrementing line `id` changes a sum by that line's change `d`. */
  lemma {:induction false} SumIncrement(f: Line -> int, cart: seq<Line>, id: int, d: int)
    requires UniqueIds(cart)
    requires forall i :: 0 <= i < |cart| && cart[i].product.id == id ==> f(IncrementLine(cart[i], id)) == f(cart[i]) + d
    ensures Sum(f, Increment(cart, id)) == Sum(f, cart) + (if HasLine(cart, id) then d else 0)
  {
    if cart != [] {
      var tail := cart[1..];
      assert Increment(cart, id) == [IncrementLine(cart[0], id)] + Increment(tail, id);
      assert (HasLine(cart, id) <==> cart[0].product.id == id || HasLine(tail, id)) by {
        if HasLine(cart, id) && cart[0].product.id != id {
          var i :| 0 <= i < |cart| && cart[i].product.id == id;
          assert tail[i - 1].product.id == id;
        }
      }
      assert cart[0].product.id == id ==> !HasLine(tail, id);
      SumIncrement(f, tail, id, d);
    }
  }

  /** With every quantity at least 1, the header badge shows exactly when the cart has lines. */
  lemma {:induction false} CountPositiveIffNonEmpty(cart: seq<Line>)
    ensures AllPositive(cart) ==> Count(cart) >= |cart|
    ensures AllPositive(cart) ==> (Count(cart) > 0 <==> cart != [])
  {
    if cart != [] {
      CountPositiveIffNonEmpty(cart[1..]);
    }
  }
}
