/** Orders, created by `handleCheckout` and kept most recent first. */
module Orders {
  import opened Text
  import opened Cart

  datatype Order = Order(id: string, date: string, items: seq<Line>, total: int, status: string)

  /** The only status an order is ever given. */
  const Paid := "Paid"

  /** "ORD-" followed by a five-digit number from 10000 to 99999. */
  predicate IsOrderId(s: string) {
    && |s| == 9
    && s[..4] == "ORD-"
    && AllDigits(s[4..])
    && 10000 <= ParseDecimal(s[4..]) <= 99999
  }

  /**
   * `` `ORD-${Math.floor(Math.random() * 90000) + 10000}` ``, where `roll` is the
   * value of `Math.floor(Math.random() * 90000)`.
   */
  function OrderId(roll: nat): (id: string)
    requires roll < 90000
    ensures IsOrderId(id)
    ensures ParseDecimal(id[4..]) == roll + 10000
  {
    var n := roll + 10000;
    assert Pow10(4) == 10000 && Pow10(5) == 100000;
    DecimalLength(n, 5);
    DecimalRoundTrip(n);
    var id := "ORD-" + Decimal(n);
    assert id[4..] == Decimal(n);
    id
  }

  /** The order `handleCheckout` builds from the cart, a random roll and the date. */
  function NewOrder(cart: seq<Line>, roll: nat, date: string): (o: Order)
    requires roll < 90000
    ensures o.items == cart && o.date == date
    ensures o.total == Sum(LineTotal, cart)
    ensures o.status == Paid && IsOrderId(o.id)
  {
    Order(OrderId(roll), date, cart, Total(cart), Paid)
  }

  /** What holds of every order in the history. */
  predicate Recorded(o: Order) {
    WellFormed(o.items) && o.total == Total(o.items) && o.status == Paid && IsOrderId(o.id)
  }

  /** An order built from a well-formed cart is a faithful record of it. */
  lemma NewOrderRecorded(cart: seq<Line>, roll: nat, date: string)
    requires WellFormed(cart) && roll < 90000
    ensures Recorded(NewOrder(cart, roll, date))
  {
  }
}
