/** A product as the client pages read it from the products endpoint, and the add request they hand to the cart store. */
module ProductView {
  import opened Wrappers

  /** The seller attached to a product: `businessName` and `username` may be absent. */
  datatype SellerInfo = SellerInfo(businessName: Option<string>, username: Option<string>)

  /** A product; prices are in hundredths of the currency unit. */
  datatype Product = Product(
    id: int,
    name: string,
    description: string,
    category: string,
    price: int,
    stockQuantity: int,
    imageUrl: Option<string>,
    seller: Option<SellerInfo>)

  /** What a page passes to the cart store's `addToCart`. */
  datatype AddRequest = AddRequest(product: Product, quantity: int)
}
