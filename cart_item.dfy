/**
 * One row of the cart page (CartItem.jsx): the display fields it resolves
 * from either line shape, the seller label, and the quantity controls,
 * which ask the store for an update only for quantities 1 to 10.
 */
module CartItemRow {
  import opened Wrappers
  import opened JsText
  import CartStore

  /** JavaScript truthiness of an optional string: present and non-empty. */
  predicate TruthyStr(o: Option<string>) {
    o.Some? && o.value != ""
  }

  /** `String(x)` for a value that is a string or `undefined`. */
  function JsString(o: Option<string>): string {
    match o
    case Some(s) => s
    case None => "undefined"
  }

  function NestedSeller(l: CartStore.CartLine): Option<CartStore.NestedSeller> {
    if l.product.Some? then l.product.value.seller else None
  }

  /** `item.productName || item.product?.name || 'Product'`: never an empty name. */
  function ProductName(l: CartStore.CartLine): (r: string)
    ensures r != []
    ensures TruthyStr(l.productName) ==> r == l.productName.value
    ensures !TruthyStr(l.productName) && (l.product.None? || !TruthyStr(l.product.value.name)) ==> r == "Product"
  {
    if TruthyStr(l.productName) then l.productName.value
    else if l.product.Some? && TruthyStr(l.product.value.name) then l.product.value.name.value
    else "Product"
  }

  /**
   * The seller name as written:
   * `item.sellerName || item.product?.seller?.firstName + ' ' + item.product?.seller?.lastName`.
   * `+` binds tighter than `||`, and a missing name concatenates as "undefined".
   */
  function SellerNameAsWritten(l: CartStore.CartLine): string {
    if TruthyStr(l.sellerName) then l.sellerName.value
    else
      var seller := NestedSeller(l);
      var first := if seller.Some? then seller.value.firstName else None;
      var last := if seller.Some? then seller.value.lastName else None;
      JsString(first) + " " + JsString(last)
  }

  /** `item.businessName || item.product?.seller?.businessName`, as written. */
  function BusinessNameAsWritten(l: CartStore.CartLine): Option<string> {
    if TruthyStr(l.businessName) then l.businessName
    else
      var seller := NestedSeller(l);
      if seller.Some? && TruthyStr(seller.value.businessName) then seller.value.businessName else None
  }

  /** The "Sold by" label as written: shown when either name is truthy, business name first. */
  function SoldByAsWritten(l: CartStore.CartLine): Option<string> {
    var business := BusinessNameAsWritten(l);
    var name := SellerNameAsWritten(l);
    if business.Some? then business else if name != "" then Some(name) else None
  }

  /** A flat line with no seller at all, as the gateway sends for a product without one. */
  predicate NoSellerInfo(l: CartStore.CartLine) {
    l.sellerName.None? && l.sellerBusinessName.None? && l.businessName.None? && l.product.None?
  }

  /** As written, a line without any seller information is labelled "Sold by: undefined undefined". */
  lemma SoldByUndefinedUndefined(l: CartStore.CartLine)
    requires NoSellerInfo(l)
    ensures SoldByAsWritten(l) == Some("undefined undefined")
  {
    assert NestedSeller(l) == None;
    assert BusinessNameAsWritten(l) == None;
    assert SellerNameAsWritten(l) == "undefined" + " " + "undefined";
    assert "undefined" + " " + "undefined" == "undefined undefined";
  }

  /**
   * As written, the business name the gateway sends (`sellerBusinessName`)
   * is never read: a flat line labels the seller by personal name even when
   * a business name is present.
   */
  lemma SoldByIgnoresSellerBusinessName(l: CartStore.CartLine, person: string, business: string)
    requires person != [] && business != [] && person != business
    requires l.sellerName == Some(person) && l.sellerBusinessName == Some(business)
    requires l.businessName.None? && l.product.None?
    ensures SoldByAsWritten(l) == Some(person)
  {
  }

  /** The seller's personal name: the flat field, else the nested seller's full name when it has both parts. */
  function SellerName(l: CartStore.CartLine): (r: Option<string>)
    ensures r.Some? ==> r.value != []
    ensures NoSellerInfo(l) ==> r.None?
  {
    if TruthyStr(l.sellerName) then l.sellerName
    else
      var seller := NestedSeller(l);
      if seller.Some? && seller.value.firstName.Some? && seller.value.lastName.Some?
      then Some(seller.value.firstName.value + " " + seller.value.lastName.value)
      else None
  }

  /** The business name: the gateway's `sellerBusinessName`, else the other two spellings. */
  function BusinessName(l: CartStore.CartLine): (r: Option<string>)
    ensures r.Some? ==> r.value != []
    ensures TruthyStr(l.sellerBusinessName) ==> r == l.sellerBusinessName
  {
    if TruthyStr(l.sellerBusinessName) then l.sellerBusinessName
    else BusinessNameAsWritten(l)
  }

  /** The "Sold by" label: the business name first, else the seller's name, else no label. */
  function SoldBy(l: CartStore.CartLine): (r: Option<string>)
    ensures NoSellerInfo(l) ==> r.None?
    ensures TruthyStr(l.sellerBusinessName) ==> r == l.sellerBusinessName
    ensures r.Some? ==> r == BusinessName(l) || (BusinessName(l).None? && r == SellerName(l))
  {
    var business := BusinessName(l);
    if business.Some? then business else SellerName(l)
  }

  /** The store operations a row asks for. */
  datatype StoreCall = UpdateItem(cartItemId: int, quantity: int) | RemoveItem(cartItemId: int)

  /** `handleQuantityChange(newQuantity)`: an update only for 1 to 10. */
  function QuantityChange(l: CartStore.CartLine, newQuantity: int): (r: Option<StoreCall>)
    ensures r.Some? <==> 0 < newQuantity <= 10
    ensures r.Some? ==> r.value == UpdateItem(l.id, newQuantity)
  {
    if newQuantity > 0 && newQuantity <= 10 then Some(UpdateItem(l.id, newQuantity)) else None
  }

  /** `disabled={item.quantity <= 1}`; an absent quantity compares false. */
  predicate MinusDisabled(l: CartStore.CartLine) {
    l.quantity.Some? && l.quantity.value <= 1
  }

  /** `disabled={item.quantity >= 10}`. */
  predicate PlusDisabled(l: CartStore.CartLine) {
    l.quantity.Some? && l.quantity.value >= 10
  }

  /** A click on the minus button: `handleQuantityChange(item.quantity - 1)`; an absent quantity gives NaN. */
  function MinusClick(l: CartStore.CartLine): Option<StoreCall> {
    if MinusDisabled(l) || l.quantity.None? then None else QuantityChange(l, l.quantity.value - 1)
  }

  function PlusClick(l: CartStore.CartLine): Option<StoreCall> {
    if PlusDisabled(l) || l.quantity.None? then None else QuantityChange(l, l.quantity.value + 1)
  }

  /** `handleQuantityChange(parseInt(value) || 1)`: NaN and 0 fall back to 1. */
  function TypedQuantity(l: CartStore.CartLine, value: string): Option<StoreCall> {
    var n := ParseInt(value);
    QuantityChange(l, if n.None? || n.value == 0 then 1 else n.value)
  }

  /** `handleRemove`: the store is asked only once the user confirms. */
  function RemoveClick(l: CartStore.CartLine, confirmed: bool): (r: Option<StoreCall>)
    ensures r.Some? <==> confirmed
    ensures r.Some? ==> r.value == RemoveItem(l.id)
  {
    if confirmed then Some(RemoveItem(l.id)) else None
  }

  /**
   * The stepper buttons move a quantity of 1 to 10 by one and keep it in
   * 1 to 10: minus from 2..10 and plus from 1..9 update, the rest are
   * disabled.
   */
  lemma StepperKeepsRange(l: CartStore.CartLine, q: int)
    requires l.quantity == Some(q) && 1 <= q <= 10
    ensures MinusClick(l) == (if q >= 2 then Some(UpdateItem(l.id, q - 1)) else None)
    ensures PlusClick(l) == (if q <= 9 then Some(UpdateItem(l.id, q + 1)) else None)
    ensures MinusDisabled(l) <==> q == 1
    ensures PlusDisabled(l) <==> q == 10
  {
  }

  /** Any call a quantity control makes asks for a quantity of 1 to 10. */
  lemma QuantityControlsBounded(l: CartStore.CartLine, value: string)
    ensures forall c :: c in [MinusClick(l), PlusClick(l), TypedQuantity(l, value)] && c.Some? ==>
              c.value.UpdateItem? && c.value.cartItemId == l.id && 1 <= c.value.quantity <= 10
  {
  }

  /**
   * A line whose quantity is above 11 (the backend merges adds without a
   * cap) keeps an enabled minus button that does nothing.
   */
  lemma MinusIgnoredAboveEleven(l: CartStore.CartLine, q: int)
    requires l.quantity == Some(q) && q > 11
    ensures !MinusDisabled(l) && MinusClick(l) == None
  {
  }

  /** Typing a number in 1..10 (possibly followed by non-digits) updates to it; typing text or 0 updates to 1. */
  lemma TypedQuantityParses(l: CartStore.CartLine, n: nat, tail: string)
    requires tail == [] || !IsDigit(tail[0])
    ensures 1 <= n <= 10 ==> TypedQuantity(l, NatToString(n) + tail) == Some(UpdateItem(l.id, n))
    ensures n == 0 ==> TypedQuantity(l, NatToString(n) + tail) == Some(UpdateItem(l.id, 1))
    ensures n > 10 ==> TypedQuantity(l, NatToString(n) + tail) == None
  {
    ParseIntOfNatToString(n, tail);
  }

  lemma TypedTextIsOne(l: CartStore.CartLine, value: string)
    requires value == [] || (!IsSpace(value[0]) && !IsDigit(value[0]) && value[0] != '-' && value[0] != '+')
    ensures TypedQuantity(l, value) == Some(UpdateItem(l.id, 1))
  {
    ParseIntNaN(value);
  }

  /** `productPrice * item.quantity`; an absent quantity makes the product NaN. */
  function LineTotalShown(l: CartStore.CartLine): (r: Option<int>)
    ensures l.quantity.Some? ==> r == Some(CartStore.LineTotal(l))
    ensures l.quantity.None? ==> r.None?
  {
    if l.quantity.Some? then Some(CartStore.UnitPrice(l) * l.quantity.value) else None
  }
}
