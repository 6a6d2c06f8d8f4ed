/** The order history page (Orders.jsx): the date-descending list, the status colour and the item count. */
module OrdersPage {
  import opened Wrappers
  import opened JsText
  import opened OrderView
  import Sorting
  import Seqs
  import SessionUser

  /** The comparator `new Date(b.orderDate) - new Date(a.orderDate)`: newer first. */
  predicate NewerFirst(a: Order, b: Order) {
    a.orderDate >= b.orderDate
  }

  lemma NewerFirstTotalPreorder()
    ensures Sorting.TotalPreorder(NewerFirst)
  {
  }

  /** The orders placed at the same time as `e`. */
  function SameDate(e: Order): Order -> bool {
    (o: Order) => o.orderDate == e.orderDate
  }

  /**
   * The fetched orders, newest first. The comparator returns 0 for equal
   * dates and the sort is stable, so orders of the same date keep the
   * order they were fetched in.
   */
  function ByDateDescending(orders: seq<Order>): (r: seq<Order>)
    ensures multiset(r) == multiset(orders)
    ensures forall i, j :: 0 <= i < j < |r| ==> r[i].orderDate >= r[j].orderDate
    ensures forall e :: Seqs.Filter(r, SameDate(e)) == Seqs.Filter(orders, SameDate(e))
  {
    NewerFirstTotalPreorder();
    Sorting.SortBySorted(orders, NewerFirst);
    ByDateDescendingStable(orders);
    Sorting.SortBy(orders, NewerFirst)
  }

  /** Sorting by date keeps the fetched order among orders of the same date. */
  lemma ByDateDescendingStable(orders: seq<Order>)
    ensures forall e :: Seqs.Filter(Sorting.SortBy(orders, NewerFirst), SameDate(e)) == Seqs.Filter(orders, SameDate(e))
  {
    NewerFirstTotalPreorder();
    forall e ensures Seqs.Filter(Sorting.SortBy(orders, NewerFirst), SameDate(e)) == Seqs.Filter(orders, SameDate(e)) {
      Sorting.SortByStable(orders, NewerFirst, e);
      Seqs.FilterAgree(Sorting.SortBy(orders, NewerFirst), Sorting.TiedWith(NewerFirst, e), SameDate(e));
      Seqs.FilterAgree(orders, Sorting.TiedWith(NewerFirst, e), SameDate(e));
    }
  }

  /** The list state: what the page shows and whether the spinner is up. */
  datatype State = State(orders: seq<Order>, loading: bool)

  const Initial := State([], true)

  /**
   * The effect: only with a user are the orders fetched. A reply replaces
   * the list, sorted; a failure leaves it. Loading ends only after a fetch.
   */
  function AfterEffect(s: State, user: Option<SessionUser.User>, reply: Outcome<seq<Order>>): (r: State)
    ensures user.None? ==> r == s
    ensures user.Some? ==> !r.loading
    ensures user.Some? && reply.Threw? ==> r.orders == s.orders
    ensures user.Some? && reply.Returned? ==> multiset(r.orders) == multiset(reply.value)
  {
    if user.None? then s
    else match reply
      case Threw => s.(loading := false)
      case Returned(data) => State(ByDateDescending(data), false)
  }

  /** Without a user the spinner never goes away. */
  lemma NoUserKeepsSpinner(reply: Outcome<seq<Order>>)
    ensures AfterEffect(Initial, None, reply).loading
  {
  }

  /** `getStatusColor`: a switch on the lower-cased status. */
  function StatusColor(status: string): (r: string)
    ensures r in {"warning", "info", "primary", "success", "danger", "secondary"}
  {
    var s := ToLower(status);
    if s == "pending" then "warning"
    else if s == "confirmed" then "info"
    else if s == "shipped" then "primary"
    else if s == "delivered" then "success"
    else if s == "cancelled" then "danger"
    else "secondary"
  }

  /** The colour does not depend on the status's letter case. */
  lemma StatusColorIgnoresCase(status: string)
    ensures StatusColor(status) == StatusColor(ToLower(status))
  {
    LowerOfLower(status);
  }

  /** Lower-casing is idempotent. */
  lemma {:induction false} LowerOfLower(s: string)
    ensures ToLower(ToLower(s)) == ToLower(s)
  {
    if s != [] {
      LowerOfLower(s[1..]);
      assert ToLower(s) == [LowerChar(s[0])] + ToLower(s[1..]);
    }
  }

  /** A confirmed order is "info" here but "primary" on the details page. */
  lemma ConfirmedColoursDiffer()
    ensures StatusColor("CONFIRMED") == "info" != StatusBadgeColor("CONFIRMED")
  {
    LowerConfirmed();
    assert "confirmed" != "delivered" by { assert "confirmed"[0] != "delivered"[0]; }
  }

  lemma LowerConfirmed()
    ensures ToLower("CONFIRMED") == "confirmed"
  {
    LowerWord("CONFIRMED", "confirmed");
  }

  /** A shipped order is "primary" here but "info" on the details page. */
  lemma ShippedColoursDiffer()
    ensures StatusColor("SHIPPED") == "primary" != StatusBadgeColor("SHIPPED")
  {
    LowerWord("SHIPPED", "shipped");
  }

  /** A pending order gets the same colour on both pages. */
  lemma PendingColoursAgree()
    ensures StatusColor("PENDING") == StatusBadgeColor("PENDING") == "warning"
  {
    LowerWord("PENDING", "pending");
  }

  /** A delivered order gets the same colour on both pages. */
  lemma DeliveredColoursAgree()
    ensures StatusColor("DELIVERED") == StatusBadgeColor("DELIVERED") == "success"
  {
    LowerDelivered();
    assert "delivered" != "confirmed" by { assert "delivered"[0] != "confirmed"[0]; }
    assert "DELIVERED" != "CONFIRMED" by { assert "DELIVERED"[0] != "CONFIRMED"[0]; }
  }

  lemma LowerDelivered()
    ensures ToLower("DELIVERED") == "delivered"
  {
    LowerWord("DELIVERED", "delivered");
  }

  lemma LowerWord(upper: string, lower: string)
    requires |upper| == |lower|
    requires forall i :: 0 <= i < |upper| ==> LowerChar(upper[i]) == lower[i]
    ensures ToLower(upper) == lower
  {
  }

  /** The item count column. */
  function ItemCount(o: Order): (r: nat)
    ensures o.orderItems.None? ==> r == 0
    ensures o.orderItems.Some? ==> r == |o.orderItems.value|
  {
    match o.orderItems
    case None => 0
    case Some(items) => |items|
  }
}
