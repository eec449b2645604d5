/**
 * The shopping session held by `App`: the cart, the wishlist, the order history
 * and the search box, each overwritten by the actions through its setter.
 */
module Storefront {
  import opened Catalog
  import opened Sequences
  import opened Cart
  import opened Wishlist
  import opened Orders

  class Session {
    var cart: seq<Line>
    var wishlist: seq<int>
    var orders: seq<Order>
    var searchQuery: string

    /**
     * One line per product, each holding a catalog product, positive quantities,
     * a duplicate-free wishlist, faithful orders.
     */
    ghost predicate Valid()
      reads this
    {
      && WellFormed(cart)
      && FromCatalog(cart)
      && NoDuplicates(wishlist)
      && forall k :: 0 <= k < |orders| ==> Recorded(orders[k])
    }

    /** The initial `useState` values. */
    constructor ()
      ensures Valid()
      ensures cart == [] && wishlist == [] && orders == [] && searchQuery == ""
    {
      cart, wishlist, orders, searchQuery := [], [], [], "";
    }

    /** `cartCount`. */
    function CartCount(): (n: int)
      reads this
      ensures n == Sum(Quantity, cart)
      ensures AllPositive(cart) ==> (n > 0 <==> cart != [])
    {
      CountPositiveIffNonEmpty(cart);
      Count(cart)
    }

    /** `cartTotal`. */
    function CartTotal(): (t: int)
      reads this
      ensures t == Sum(LineTotal, cart)
    {
      Total(cart)
    }

    /** `filteredProducts`: the catalog entries matching the search box, in catalog order. */
    function FilteredProducts(): (r: seq<Product>)
      reads this
      ensures forall p :: p in r <==> p in Products && Matches(p, searchQuery)
      ensures IsSubsequence(r, Products)
      ensures searchQuery == "" ==> r == Products
    {
      FilterKeepsOrder(Products, searchQuery);
      FilterEmptyQuery(Products);
      Filter(Products, searchQuery)
    }

    /** `setSearchQuery(q)`. */
    method SetSearchQuery(q: string)
      requires Valid()
      modifies this
      ensures Valid()
      ensures searchQuery == q
      ensures cart == old(cart) && wishlist == old(wishlist) && orders == old(orders)
    {
      searchQuery := q;
    }

    /**
     * `addToCart(p)`. The product card that calls it shows an entry of
     * `filteredProducts`, so `p` is always a catalog product.
     */
    method AddToCart(p: Product)
      requires Valid() && p in Products
      modifies this
      ensures Valid()
      ensures cart == AddLine(old(cart), p)
      ensures Count(cart) == Count(old(cart)) + 1
      ensures Total(cart) == Total(old(cart)) + p.price
      ensures wishlist == old(wishlist) && orders == old(orders) && searchQuery == old(searchQuery)
    {
      AddLineKeepsWellFormed(cart, p);
      AddLineKeepsCatalogLines(cart, p);
      CatalogPricesAgree(cart, p);
      AddLineCountTotal(cart, p);
      cart := AddLine(cart, p);
    }

    /** `removeFromCart(id)`. */
    method RemoveFromCart(id: int)
      requires Valid()
      modifies this
      ensures Valid()
      ensures cart == RemoveLine(old(cart), id)
      ensures wishlist == old(wishlist) && orders == old(orders) && searchQuery == old(searchQuery)
    {
      RemoveLineKeepsWellFormed(cart, id);
      RemoveAdjustKeepCatalogLines(cart, id, 0);
      cart := RemoveLine(cart, id);
    }

    /** `updateQuantity(id, delta)`. */
    method UpdateQuantity(id: int, delta: int)
      requires Valid()
      modifies this
      ensures Valid()
      ensures cart == Adjust(old(cart), id, delta)
      ensures wishlist == old(wishlist) && orders == old(orders) && searchQuery == old(searchQuery)
    {
      AdjustKeepsWellFormed(cart, id, delta);
      RemoveAdjustKeepCatalogLines(cart, id, delta);
      cart := Adjust(cart, id, delta);
    }

    /** `toggleWishlist(id)`. */
    method ToggleWishlist(id: int)
      requires Valid()
      modifies this
      ensures Valid()
      ensures wishlist == Toggle(old(wishlist), id)
      ensures id in wishlist <==> id !in old(wishlist)
      ensures cart == old(cart) && orders == old(orders) && searchQuery == old(searchQuery)
    {
      ToggleKeepsNoDuplicates(wishlist, id);
      wishlist := Toggle(wishlist, id);
    }

    /**
     * `handleCheckout()`: prepend an order that snapshots the cart, then empty the
     * cart. `roll` stands for `Math.floor(Math.random() * 90000)` and `date` for the
     * formatted current date.
     */
    method Checkout(roll: nat, date: string)
      requires Valid() && roll < 90000
      modifies this
      ensures Valid()
      ensures orders == [NewOrder(old(cart), roll, date)] + old(orders)
      ensures orders[0].items == old(cart) && orders[0].total == Sum(LineTotal, old(cart))
      ensures orders[0].status == Paid && orders[0].date == date && IsOrderId(orders[0].id)
      ensures orders[1..] == old(orders)
      ensures cart == [] && wishlist == old(wishlist) && searchQuery == old(searchQuery)
    {
      var order := NewOrder(cart, roll, date);
      NewOrderRecorded(cart, roll, date);
      orders := [order] + orders;
      cart := [];
    }
  }

  /**
   * Two Bacardi kits and one orange kit come to 2 * 1150 + 850 = 3150; checkout
   * records that total with both lines and empties the cart.
   */
  method CheckoutExample() {
    var s := new Session();
    s.AddToCart(BacardiLemonRumKit);
    s.AddToCart(BacardiLemonRumKit);
    AddRepeatedly(BacardiLemonRumKit, 2);
    assert s.cart == [Line(BacardiLemonRumKit, 2)];
    s.AddToCart(MagicMomentsOrangeKit);
    assert s.cart == [Line(BacardiLemonRumKit, 2), Line(MagicMomentsOrangeKit, 1)];
    ghost var lines := s.cart;
    assert lines[1..] == [Line(MagicMomentsOrangeKit, 1)] && lines[1..][1..] == [];
    assert LineTotal(lines[0]) == 2300 && LineTotal(lines[1]) == 850;
    assert Sum(LineTotal, lines[1..][1..]) == 0;
    assert Sum(LineTotal, lines[1..]) == 850;
    assert Sum(LineTotal, lines) == 2 * 1150 + 850;
    assert s.CartTotal() == 3150;
    s.Checkout(0, "18/10/2026");
    assert s.cart == [];
    assert s.orders[0].total == 3150 && |s.orders[0].items| == 2;
  }
}
