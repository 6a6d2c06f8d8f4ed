/**
 * The product details page (ProductDetails.jsx): the selected quantity and
 * its guarded setter, add-to-cart with the quantity reset, and which
 * purchase controls and badges show.
 */
module ProductDetails {
  import opened Wrappers
  import opened JsText
  import opened ProductView
  import SessionUser

  /** What pressing "Add to Cart" does: send to the login page, or add. */
  datatype AddAction = ToLogin | Added(request: AddRequest)

  /** The purchase area below the product description. */
  datatype Controls = LoginToPurchase | QuantityForm | InCartBadge(count: int) | NoControls

  /** `user && stock > 0 && (!inCart ? form : badge)`, and the login button for no user. */
  function PurchaseControls(user: Option<SessionUser.User>, p: Product, inCart: bool, cartQuantity: int): (r: Controls)
    ensures r == LoginToPurchase <==> user.None?
    ensures r == QuantityForm <==> user.Some? && p.stockQuantity > 0 && !inCart
    ensures r.InCartBadge? <==> user.Some? && p.stockQuantity > 0 && inCart
    ensures r.InCartBadge? ==> r.count == cartQuantity
  {
    if user.None? then LoginToPurchase
    else if p.stockQuantity <= 0 then NoControls
    else if !inCart then QuantityForm
    else InCartBadge(cartQuantity)
  }

  /** The stock badge: the count with a low-stock mark at 5 or fewer, or out of stock. */
  datatype StockBadge = Available(count: int, lowStock: bool) | OutOfStock

  function Badge(stock: int): (r: StockBadge)
    ensures r.OutOfStock? <==> stock <= 0
    ensures r.Available? ==> r.count == stock && (r.lowStock <==> 1 <= stock <= 5)
  {
    if stock > 0 then Available(stock, stock <= 5) else OutOfStock
  }

  /** "Sold by": the business name when truthy, else the username (nothing shown when absent). */
  function SoldBy(p: Product): (r: Option<string>)
    ensures r.Some? <==> p.seller.Some?
    ensures r.Some? && p.seller.value.businessName.Some? && p.seller.value.businessName.value != "" ==>
              r.value == p.seller.value.businessName.value
  {
    match p.seller
    case None => None
    case Some(s) =>
      if s.businessName.Some? && s.businessName.value != "" then Some(s.businessName.value)
      else Some(s.username.GetOr(""))
  }

  const Placeholder := "https://via.placeholder.com/500x400?text=No+Image"

  /** `product.imageUrl || placeholder`: only an absent or empty URL falls back. */
  function ImageSource(p: Product): (r: string)
    ensures p.imageUrl.Some? && p.imageUrl.value != "" ==> r == p.imageUrl.value
    ensures p.imageUrl.None? || p.imageUrl.value == "" ==> r == Placeholder
  {
    if p.imageUrl.Some? && p.imageUrl.value != "" then p.imageUrl.value else Placeholder
  }

  class DetailsState {
    var product: Option<Product>
    var loading: bool
    var quantity: int
    var addingToCart: bool

    /** The selected quantity is always at least one. */
    predicate Valid()
      reads this
    {
      quantity >= 1
    }

    constructor()
      ensures product.None? && loading && quantity == 1 && !addingToCart
      ensures Valid()
    {
      product := None;
      loading := true;
      quantity := 1;
      addingToCart := false;
    }

    /** `fetchProduct`: a reply replaces the product; a failure keeps it and leads back to the list. */
    method FetchProduct(reply: Outcome<Option<Product>>) returns (toProducts: bool)
      modifies this
      ensures toProducts <==> reply.Threw?
      ensures reply.Returned? ==> product == reply.value
      ensures reply.Threw? ==> product == old(product)
      ensures !loading && quantity == old(quantity) && addingToCart == old(addingToCart)
    {
      toProducts := false;
      match reply {
        case Returned(data) =>
          product := data;
        case Threw =>
          toProducts := true;
      }
      loading := false;
    }

    /** `handleQuantityChange`: only a parsed value within 1 and the stock is taken. */
    method HandleQuantityChange(text: string)
      requires Valid() && product.Some?
      modifies this
      ensures product == old(product) && loading == old(loading) && addingToCart == old(addingToCart)
      ensures Valid()
      ensures var v := ParseInt(text);
              quantity == if v.Some? && 1 <= v.value <= product.value.stockQuantity then v.value else old(quantity)
    {
      var value := ParseInt(text);
      if value.Some? && value.value >= 1 && value.value <= product.value.stockQuantity {
        quantity := value.value;
      }
    }

    /**
     * `handleAddToCart`: with no user it only leads to login. Otherwise the
     * selected quantity is added (the cart store never rethrows) and the
     * selection resets to one.
     */
    method HandleAddToCart(user: Option<SessionUser.User>) returns (action: AddAction)
      requires Valid() && product.Some?
      modifies this
      ensures product == old(product) && loading == old(loading)
      ensures Valid()
      ensures user.None? ==> action == ToLogin && quantity == old(quantity) && addingToCart == old(addingToCart)
      ensures user.Some? ==> action == Added(AddRequest(product.value, old(quantity))) && quantity == 1 && !addingToCart
    {
      if user.None? {
        return ToLogin;
      }
      addingToCart := true;
      action := Added(AddRequest(product.value, quantity));
      quantity := 1;
      addingToCart := false;
    }
  }
}
