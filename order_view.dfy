/**
 * An order as the client pages read it from the backend's order transfer
 * object, and the figures the order pages compute from it the same way.
 */
module OrderView {
  import opened Wrappers

  /** An order item: `productName` is the flat name, `nestedName` is `item.product?.name`. */
  datatype Item = Item(productName: Option<string>, nestedName: Option<string>, price: int, quantity: int)

  /** An order; dates are timestamps and `orderItems` may be absent. */
  datatype Order = Order(
    id: int,
    userId: int,
    status: string,
    orderDate: int,
    totalAmount: int,
    orderItems: Option<seq<Item>>)

  /** The four statuses in the order an order moves through them. */
  const Steps: seq<string> := ["PENDING", "CONFIRMED", "SHIPPED", "DELIVERED"]

  /** `Array.prototype.indexOf`: the first position of `x`, or -1. */
  function IndexOf<T(==)>(s: seq<T>, x: T): (r: int)
    ensures -1 <= r < |s|
    ensures r == -1 <==> x !in s
    ensures r >= 0 ==> s[r] == x && forall j :: 0 <= j < r ==> s[j] != x
  {
    if s == [] then -1
    else if s[0] == x then 0
    else
      var k := IndexOf(s[1..], x);
      assert forall j :: 1 <= j < |s| ==> s[j] == s[1..][j - 1];
      if k == -1 then -1 else k + 1
  }

  /** Σ price × quantity over the items. */
  function ItemsSum(items: seq<Item>): int {
    if items == [] then 0 else items[0].price * items[0].quantity + ItemsSum(items[1..])
  }

  /** `calculateTotal`: 0 when the order has no item list, else the item sum. */
  function CalculateTotal(o: Order): int {
    match o.orderItems
    case None => 0
    case Some(items) => ItemsSum(items)
  }

  lemma {:induction false} ItemsSumAppend(a: seq<Item>, b: seq<Item>)
    ensures ItemsSum(a + b) == ItemsSum(a) + ItemsSum(b)
  {
    if a == [] {
      assert a + b == b;
    } else {
      assert (a + b)[1..] == a[1..] + b;
      ItemsSumAppend(a[1..], b);
    }
  }

  /** The total of an order is the sum of its line totals; no item list and an empty one both give 0. */
  lemma CalculateTotalOfItems(o: Order, items: seq<Item>, extra: Item)
    requires o.orderItems == Some(items + [extra])
    ensures CalculateTotal(o) == ItemsSum(items) + extra.price * extra.quantity
    ensures CalculateTotal(o.(orderItems := None)) == 0
    ensures CalculateTotal(o.(orderItems := Some([]))) == 0
  {
    ItemsSumAppend(items, [extra]);
  }

  lemma {:induction false} ItemsSumNonNegative(items: seq<Item>)
    requires forall i :: 0 <= i < |items| ==> items[i].price >= 0 && items[i].quantity >= 0
    ensures ItemsSum(items) >= 0
  {
    if items != [] {
      ItemsSumNonNegative(items[1..]);
    }
  }

  /** `getStatusBadgeColor`, the same switch on the details and the success page. */
  function StatusBadgeColor(status: string): (r: string)
    ensures status in Steps <==> r != "secondary"
    ensures status in Steps ==> r == ["warning", "primary", "info", "success"][IndexOf(Steps, status)]
  {
    if status == "PENDING" then "warning"
    else if status == "CONFIRMED" then "primary"
    else if status == "SHIPPED" then "info"
    else if status == "DELIVERED" then "success"
    else "secondary"
  }
}
