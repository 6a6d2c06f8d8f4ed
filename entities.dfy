/**
 * The backend's persistent entities and transfer objects as values. A row
 * refers to another row by its id, as its foreign key does; prices and
 * amounts (Java `BigDecimal`) are integers in hundredths of the currency
 * unit, and dates are integer timestamps.
 */
module Entities {
  import opened Wrappers

  /** The role a `User` row starts with (User.java field initialiser). */
  const UserRole: string := "USER"
  /** The role a `Seller` row starts with, and the one seller registration sets. */
  const SellerRole: string := "SELLER"
  /** The role admin registration sets. */
  const AdminRole: string := "ADMIN"

  /**
   * A row of the users, sellers or admins table: the three entities share
   * the fields the controllers look at. `businessName` is only ever set for
   * sellers. A Java `null` is `None`.
   */
  datatype Account = Account(
    id: int,
    username: Option<string>,
    email: Option<string>,
    password: Option<string>,
    firstName: Option<string>,
    lastName: Option<string>,
    businessName: Option<string>,
    role: string)

  /** A catalogue product; `seller` is the owning seller's row, `None` for a product without one. */
  datatype Product = Product(
    id: int,
    name: string,
    description: string,
    price: int,
    imageUrl: Option<string>,
    category: string,
    brand: string,
    stockQuantity: int,
    seller: Option<Account>)

  /** A row of the cart-item table: one user's quantity of one product. */
  datatype CartItem = CartItem(id: int, userId: int, productId: int, quantity: int)

  /** An order line; `price` is the unit price copied when the order was placed. */
  datatype OrderItem = OrderItem(id: int, productId: int, quantity: int, price: int)

  /** An order; `orderItems` is `None` when the association was never set. */
  datatype Order = Order(
    id: int,
    userId: int,
    shippingAddress: string,
    paymentMethod: string,
    status: string,
    totalAmount: int,
    orderDate: int,
    orderItems: Option<seq<OrderItem>>)

  /** CartItemDTO: a cart line joined with its product's current state. */
  datatype CartItemDto = CartItemDto(
    id: int,
    productId: int,
    productName: string,
    productDescription: string,
    productPrice: int,
    productImageUrl: Option<string>,
    productCategory: string,
    productBrand: string,
    stockQuantity: int,
    quantity: int,
    sellerName: Option<string>,
    sellerBusinessName: Option<string>)

  /** OrderItemDTO: `price` is the snapshot, `productPrice` the product's current price. */
  datatype OrderItemDto = OrderItemDto(
    id: int,
    productId: int,
    productName: string,
    productBrand: string,
    productCategory: string,
    productImageUrl: Option<string>,
    productPrice: int,
    price: int,
    quantity: int,
    sellerId: int,
    sellerBusinessName: Option<string>,
    sellerFirstName: Option<string>,
    sellerLastName: Option<string>)

  /** OrderDTO, without the customer's name and e-mail columns. */
  datatype OrderDto = OrderDto(
    id: int,
    userId: int,
    shippingAddress: string,
    paymentMethod: string,
    status: string,
    totalAmount: int,
    orderDate: int,
    orderItems: seq<OrderItemDto>)

  /** What Java's string `+` writes for a possibly-null string operand. */
  function JavaString(s: Option<string>): (r: string)
    ensures s.Some? ==> r == s.value
    ensures s.None? ==> r == "null"
  {
    match s
    case Some(v) => v
    case None => "null"
  }
}

/** A controller's `ResponseEntity`: its status and, where there is one, its body. */
module Http {
  import opened Wrappers

  datatype Reply<+T> =
    | Ok(body: T)
    /** 400; `error` is the body, `None` for `badRequest().build()`. */
    | BadRequest(error: Option<T>)
    | NotFound
    | NoContent
    /** 500: an exception escaped the handler. */
    | ServerError
}
