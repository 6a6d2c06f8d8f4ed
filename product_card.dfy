/** The product card (ProductCard.jsx): the add gate, the image fallback, the stock badge and the description excerpt. */
module ProductCard {
  import opened Wrappers
  import opened JsText
  import opened ProductView
  import SessionUser
  import ProductsPage
  import ProductDetails

  /** `handleAddToCart`: any signed-in user adds one unit; no user, nothing. */
  function HandleAddToCart(user: Option<SessionUser.User>, p: Product): (r: Option<AddRequest>)
    ensures r.Some? <==> user.Some?
    ensures r.Some? ==> r.value == AddRequest(p, 1)
  {
    if user.None? then None else Some(AddRequest(p, 1))
  }

  /** The card gate has no role check, unlike the catalogue page: a seller adds from a card but not from the list. */
  lemma CardGateIgnoresRole(seller: SessionUser.User, p: Product)
    requires seller.role == Some("SELLER")
    ensures HandleAddToCart(Some(seller), p).Some?
    ensures ProductsPage.HandleAddToCart(Some(seller), p).None?
  {
  }

  const Placeholder := "https://via.placeholder.com/300x200?text=No+Image"

  /** The image: the URL unless it is absent or blank. */
  function ImageSource(p: Product): (r: string)
    ensures r == Placeholder <==> p.imageUrl.None? || IsBlank(p.imageUrl.value) || p.imageUrl.value == Placeholder
    ensures r != Placeholder ==> p.imageUrl == Some(r)
  {
    if p.imageUrl.Some? && p.imageUrl.value != "" && Trim(p.imageUrl.value) != "" then
      TrimEmptyIffBlank(p.imageUrl.value);
      p.imageUrl.value
    else
      TrimEmptyIffBlank(p.imageUrl.GetOr(""));
      Placeholder
  }

  /** A whitespace-only URL is replaced on the card but used as is on the details page. */
  lemma BlankUrlDiffersFromDetails(p: Product)
    requires p.imageUrl == Some(" ")
    ensures ImageSource(p) == Placeholder
    ensures ProductDetails.ImageSource(p) == " "
  {
    assert IsBlank(" ") by { assert " "[0] == ' '; }
  }

  datatype StockBadge = OutOfStockBadge | LowStockBadge | NoBadge

  /** Stock 0 is out of stock, 1 to 5 is low; any other value (negative ones too) shows nothing. */
  function Badge(stock: int): (r: StockBadge)
    ensures r == OutOfStockBadge <==> stock == 0
    ensures r == LowStockBadge <==> 1 <= stock <= 5
  {
    if stock == 0 then OutOfStockBadge
    else if stock > 0 && stock <= 5 then LowStockBadge
    else NoBadge
  }

  /** The excerpt: more than 100 characters become the first 100 and "...". */
  function Excerpt(description: string): (r: string)
    ensures |description| <= 100 ==> r == description
    ensures |description| > 100 ==> |r| == 103 && r[..100] == description[..100] && r[100..] == "..."
  {
    if |description| > 100 then description[..100] + "..." else description
  }

  /** The excerpt is never longer than 103 characters and always starts like the description. */
  lemma ExcerptBounded(description: string)
    ensures |Excerpt(description)| <= 103
    ensures var n := if |description| < 100 then |description| else 100;
            Excerpt(description)[..n] == description[..n]
  {
  }

  /** `disabled={loading || product.stockQuantity === 0}`. */
  predicate AddDisabled(loading: bool, p: Product) {
    loading || p.stockQuantity == 0
  }

  /** The card footer. */
  datatype Footer = LoginLink | InCartBadge(quantity: int) | AddButton(disabled: bool)

  function CardFooter(user: Option<SessionUser.User>, p: Product, inCart: bool, quantity: int, loading: bool): (r: Footer)
    ensures r == LoginLink <==> user.None?
    ensures r.InCartBadge? <==> user.Some? && inCart
    ensures r.InCartBadge? ==> r.quantity == quantity
    ensures r.AddButton? ==> (r.disabled <==> AddDisabled(loading, p))
  {
    if user.None? then LoginLink
    else if inCart then InCartBadge(quantity)
    else AddButton(AddDisabled(loading, p))
  }
}
