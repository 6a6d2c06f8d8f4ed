/**
 * The cart page (Cart.jsx): the shipping rule, the final total and the
 * free-shipping hint, all computed from the store's subtotal. Amounts are
 * integers counting hundredths of the currency unit, so the threshold of
 * 500 is 50000 and the fee of 50 is 5000.
 */
module CartPage {
  import opened Wrappers
  import CartStore

  /** Subtotals strictly above this ship free. */
  const FreeShippingAbove: int := 50000
  const ShippingFee: int := 5000

  /** `total > 500 ? 0 : 50`. */
  function ShippingCost(total: int): (r: int)
    ensures r == 0 <==> total > FreeShippingAbove
    ensures r == 0 || r == ShippingFee
  {
    if total > FreeShippingAbove then 0 else ShippingFee
  }

  /** `total + shippingCost`: never below the subtotal and at most one fee above it. */
  function FinalTotal(total: int): (r: int)
    ensures total <= r <= total + ShippingFee
    ensures r == total <==> total > FreeShippingAbove
  {
    total + ShippingCost(total)
  }

  /** The hint as written: shown only when shipping is charged, and reads `500 - total`. */
  function FreeShippingHintAsWritten(total: int): (r: Option<int>)
    ensures r.Some? <==> ShippingCost(total) > 0
    ensures r.Some? ==> r.value >= 0 && total + r.value == FreeShippingAbove
  {
    if ShippingCost(total) > 0 then Some(FreeShippingAbove - total) else None
  }

  /**
   * Adding the amount the hint names brings the subtotal to exactly 500,
   * which the strict comparison still charges: the hint always falls one
   * hundredth short.
   */
  lemma FreeShippingHintFallsShort(total: int)
    requires FreeShippingHintAsWritten(total).Some?
    ensures ShippingCost(total + FreeShippingHintAsWritten(total).value) == ShippingFee
  {
  }

  /** A concrete case: a subtotal of 400.00 is told to add 100.00, and 500.00 still pays 50.00. */
  lemma FreeShippingHintExample()
    ensures FreeShippingHintAsWritten(40000) == Some(10000)
    ensures ShippingCost(40000 + 10000) == 5000
  {
  }

  /** The hint the page evidently means: the least amount that makes shipping free. */
  function FreeShippingHint(total: int): (r: Option<int>)
    ensures r.Some? <==> ShippingCost(total) > 0
    ensures r.Some? ==> r.value > 0 && ShippingCost(total + r.value) == 0
    ensures r.Some? ==> ShippingCost(total + r.value - 1) > 0
  {
    if ShippingCost(total) > 0 then Some(FreeShippingAbove + 1 - total) else None
  }

  /** No smaller addition than the corrected hint makes shipping free. */
  lemma FreeShippingHintIsLeast(total: int, x: int)
    requires FreeShippingHint(total).Some?
    requires 0 <= x < FreeShippingHint(total).value
    ensures ShippingCost(total + x) > 0
  {
  }

  /** The order summary card. */
  datatype Summary = Summary(itemCount: int, subtotal: int, shipping: int, total: int, hint: Option<int>)

  datatype Body = EmptyCart | Filled(lines: seq<CartStore.CartLine>, summary: Summary)

  /** What the page shows: the header's badge and clear button, then the body. */
  datatype CartPageView =
    | LoginPrompt
    | Spinner
    | Page(badge: Option<int>, clearButton: bool, body: Body)

  /** The page for the given session, loading flag and store contents. */
  function Render(signedIn: bool, loading: bool, items: seq<CartStore.CartLine>): (r: CartPageView)
    ensures !signedIn ==> r == LoginPrompt
    ensures signedIn && loading ==> r == Spinner
    ensures signedIn && !loading ==> r.Page?
    ensures r.Page? ==> (r.clearButton <==> |items| > 0) && (r.body.EmptyCart? <==> |items| == 0)
    ensures r.Page? ==> (r.badge.Some? <==> CartStore.ItemCount(items) > 0)
    ensures r.Page? && r.body.Filled? ==> r.body.lines == items && r.body.summary.subtotal == CartStore.CartTotal(items)
  {
    if !signedIn then LoginPrompt
    else if loading then Spinner
    else
      var total := CartStore.CartTotal(items);
      var itemCount := CartStore.ItemCount(items);
      var shipping := ShippingCost(total);
      Page(
        if itemCount > 0 then Some(itemCount) else None,
        |items| > 0,
        if |items| == 0 then EmptyCart
        else Filled(items, Summary(itemCount, total, shipping, FinalTotal(total), FreeShippingHintAsWritten(total))))
  }

  /**
   * Every summary the page shows is consistent: the total is subtotal plus
   * shipping, shipping is free exactly above 500, and the hint appears
   * exactly when shipping is charged. Following the hint as the page writes
   * it brings the subtotal to exactly 500, which is still charged.
   */
  lemma SummaryConsistent(signedIn: bool, loading: bool, items: seq<CartStore.CartLine>)
    requires Render(signedIn, loading, items).Page? && Render(signedIn, loading, items).body.Filled?
    ensures var s := Render(signedIn, loading, items).body.summary;
      && s.total == s.subtotal + s.shipping
      && (s.shipping == 0 <==> s.subtotal > FreeShippingAbove)
      && (s.hint.Some? <==> s.shipping > 0)
      && (s.hint.Some? ==> s.subtotal + s.hint.value == FreeShippingAbove && ShippingCost(s.subtotal + s.hint.value) > 0)
      && s.itemCount == CartStore.ItemCount(items)
  {
  }

  /** A subtotal of exactly 500 pays the fee; 500.01 ships free; an empty subtotal pays the fee. */
  lemma ShippingBoundaryExamples()
    ensures ShippingCost(50000) == 5000 && ShippingCost(50001) == 0 && ShippingCost(0) == 5000
    ensures FinalTotal(50000) == 55000 && FinalTotal(50001) == 50001
  {
  }
}
