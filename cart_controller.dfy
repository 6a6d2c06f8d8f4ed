/**
 * CartController.java: the cart endpoints over the users, cart-item and
 * product tables, and `convertToDTO`, which joins a cart line with its
 * product's current state. A line whose product row is gone would make
 * `cartItem.getProduct()` fail, which is a server error here.
 */
module CartController {
  import opened Wrappers
  import opened Entities
  import opened Http
  import BackendAccounts
  import BackendCart
  import BackendProducts
  import Int32

  /** The seller column of the DTO: "first last" as Java's `+` writes it, or null without a seller. */
  function SellerName(seller: Option<Account>): (r: Option<string>)
    ensures r.None? <==> seller.None?
    ensures seller.Some? ==> r.value == JavaString(seller.value.firstName) + " " + JavaString(seller.value.lastName)
  {
    match seller
    case Some(s) => Some(JavaString(s.firstName) + " " + JavaString(s.lastName))
    case None => None
  }

  /**
   * `convertToDTO(cartItem)`: the line's id and quantity, and the product's
   * current id, name, description, price, image, category, brand and stock;
   * `None` when the product row is missing.
   */
  function LineDto(line: CartItem, products: seq<Product>): (r: Option<CartItemDto>)
    ensures r.None? <==> BackendProducts.ProductById(products, line.productId).None?
    ensures r.Some? ==>
      var p := BackendProducts.ProductById(products, line.productId).value;
      && r.value.id == line.id && r.value.quantity == line.quantity && r.value.productId == line.productId
      && r.value.productName == p.name && r.value.productPrice == p.price && r.value.stockQuantity == p.stockQuantity
      && r.value.sellerName == SellerName(p.seller)
      && r.value.sellerBusinessName == (if p.seller.Some? then p.seller.value.businessName else None)
  {
    match BackendProducts.ProductById(products, line.productId)
    case None => None
    case Some(p) =>
      Some(CartItemDto(line.id, p.id, p.name, p.description, p.price, p.imageUrl, p.category, p.brand,
                       p.stockQuantity, line.quantity, SellerName(p.seller),
                       if p.seller.Some? then p.seller.value.businessName else None))
  }

  /** The stream `map(this::convertToDTO)`: one DTO per line, in the lines' order, or `None` if any line fails. */
  function LineDtos(lines: seq<CartItem>, products: seq<Product>): (r: Option<seq<CartItemDto>>)
    ensures r.Some? <==> forall i :: 0 <= i < |lines| ==> LineDto(lines[i], products).Some?
    ensures r.Some? ==> |r.value| == |lines| && forall i :: 0 <= i < |lines| ==> Some(r.value[i]) == LineDto(lines[i], products)
  {
    if lines == [] then Some([])
    else
      match LineDto(lines[0], products)
      case None => None
      case Some(first) =>
        match LineDtos(lines[1..], products)
        case None =>
          assert forall i :: 1 <= i < |lines| ==> lines[i] == lines[1..][i - 1];
          None
        case Some(rest) =>
          assert forall i :: 1 <= i < |lines| ==> lines[i] == lines[1..][i - 1];
          Some([first] + rest)
  }

  /** `getCartItems(userId)` on the tables' contents. */
  function CartReply(users: seq<Account>, rows: seq<CartItem>, products: seq<Product>, userId: int): (r: Reply<seq<CartItemDto>>)
    ensures r.NotFound? <==> BackendAccounts.AccountById(users, userId).None?
    ensures r.Ok? || r.NotFound? || r.ServerError?
    ensures r.Ok? ==>
      var lines := BackendCart.OfUser(rows, userId);
      && |r.body| == |lines|
      && forall i :: 0 <= i < |lines| ==> r.body[i].id == lines[i].id && r.body[i].quantity == lines[i].quantity
                                          && r.body[i].productId == lines[i].productId
  {
    if BackendAccounts.AccountById(users, userId).None? then NotFound
    else
      match LineDtos(BackendCart.OfUser(rows, userId), products)
      case Some(dtos) => Ok(dtos)
      case None => ServerError
  }

  /** `getCartItems(userId)`: 404 for an unknown user, else the user's lines as DTOs in table order. */
  function GetCartItems(users: BackendAccounts.AccountService, carts: BackendCart.CartService,
                        catalog: BackendProducts.ProductService, userId: int): (r: Reply<seq<CartItemDto>>)
    reads users, carts, catalog
    ensures r == CartReply(users.rows, carts.rows, catalog.products, userId)
    ensures r.NotFound? <==> users.GetById(userId).None?
  {
    CartReply(users.rows, carts.rows, catalog.products, userId)
  }

  /**
   * `addToCart(userId, productId, quantity)`: a 400 with no body that adds
   * nothing unless both the user and the product exist; otherwise the line
   * is merged or inserted and returned as a DTO.
   */
  method AddToCart(users: BackendAccounts.AccountService, carts: BackendCart.CartService,
                   catalog: BackendProducts.ProductService, userId: int, productId: int, quantity: int)
    returns (reply: Reply<CartItemDto>)
    requires carts.Valid() && Int32.InRange(quantity)
    modifies carts
    ensures carts.Valid()
    ensures users.GetById(userId).None? || catalog.GetProductById(productId).None? ==>
              && reply == BadRequest(None)
              && carts.rows == old(carts.rows) && carts.nextId == old(carts.nextId)
    ensures users.GetById(userId).Some? && catalog.GetProductById(productId).Some? ==>
              && carts.rows == BackendCart.Added(old(carts.rows), userId, productId, quantity, old(carts.nextId))
              && reply.Ok? && reply.body.productId == productId
              && reply.body.quantity == BackendCart.MergedQuantity(old(carts.rows), userId, productId, quantity)
              && reply.body.productPrice == catalog.GetProductById(productId).value.price
  {
    var user := users.GetById(userId);
    var product := catalog.GetProductById(productId);
    if user.Some? && product.Some? {
      var cartItem := carts.AddToCart(userId, productId, quantity);
      var dto := LineDto(cartItem, catalog.products);
      reply := Ok(dto.value);
    } else {
      reply := BadRequest(None);
    }
  }

  /** `updateCartItem(cartItemId, quantity)`: 404 when the service finds no line, else the updated line as a DTO. */
  method UpdateCartItem(carts: BackendCart.CartService, catalog: BackendProducts.ProductService, id: int, quantity: int)
    returns (reply: Reply<CartItemDto>)
    requires carts.Valid() && Int32.InRange(quantity)
    modifies carts
    ensures carts.Valid() && carts.nextId == old(carts.nextId)
    ensures carts.rows == BackendCart.Updated(old(carts.rows), id, quantity)
    ensures reply.NotFound? <==> BackendCart.FindId(old(carts.rows), id).None?
    ensures reply.Ok? || reply.NotFound? || reply.ServerError?
    ensures reply.Ok? ==> reply.body.id == id && reply.body.quantity == quantity
  {
    var updated := carts.UpdateCartItem(id, quantity);
    if updated.None? {
      return NotFound;
    }
    var dto := LineDto(updated.value, catalog.products);
    reply := if dto.Some? then Ok(dto.value) else ServerError;
  }

  /** `removeFromCart(cartItemId)`: always 204, whether or not the line existed. */
  method RemoveFromCart(carts: BackendCart.CartService, id: int) returns (reply: Reply<CartItemDto>)
    requires carts.Valid()
    modifies carts
    ensures carts.Valid() && carts.nextId == old(carts.nextId)
    ensures carts.rows == BackendCart.WithoutId(old(carts.rows), id)
    ensures reply == NoContent
  {
    carts.RemoveFromCart(id);
    reply := NoContent;
  }

  /** `clearCart(userId)`: 404 and no change for an unknown user, else the user's lines are deleted. */
  method ClearCart(users: BackendAccounts.AccountService, carts: BackendCart.CartService, userId: int)
    returns (reply: Reply<CartItemDto>)
    requires carts.Valid()
    modifies carts
    ensures carts.Valid() && carts.nextId == old(carts.nextId)
    ensures users.GetById(userId).None? ==> reply == NotFound && carts.rows == old(carts.rows)
    ensures users.GetById(userId).Some? ==>
              reply == NoContent && carts.rows == BackendCart.WithoutUser(old(carts.rows), userId)
  {
    if users.GetById(userId).None? {
      return NotFound;
    }
    carts.ClearCart(userId);
    reply := NoContent;
  }

  /** After `clearCart`, the user's cart reads back empty and every other user's cart is as it was. */
  lemma ClearedCartReadsEmpty(users: seq<Account>, rows: seq<CartItem>, products: seq<Product>, userId: int, other: int)
    requires BackendAccounts.AccountById(users, userId).Some?
    ensures CartReply(users, BackendCart.WithoutUser(rows, userId), products, userId) == Ok([])
    ensures other != userId ==>
              CartReply(users, BackendCart.WithoutUser(rows, userId), products, other) == CartReply(users, rows, products, other)
  {
    BackendCart.ClearedCarts(rows, userId, other);
  }

  /**
   * After `addToCart` the user's cart, when it reads back, lists the
   * product with the merged quantity.
   */
  lemma AddedLineReadsBack(users: seq<Account>, rows: seq<CartItem>, products: seq<Product>,
                           userId: int, productId: int, quantity: int, freshId: int)
    requires BackendAccounts.AccountById(users, userId).Some?
    ensures var r := CartReply(users, BackendCart.Added(rows, userId, productId, quantity, freshId), products, userId);
      r.Ok? ==> exists d :: d in r.body && d.productId == productId
                  && d.quantity == BackendCart.MergedQuantity(rows, userId, productId, quantity)
  {
    var after := BackendCart.Added(rows, userId, productId, quantity, freshId);
    BackendCart.AddedLine(rows, userId, productId, quantity, freshId);
    var line := after[BackendCart.FindLine(after, userId, productId).value];
    var lines := BackendCart.OfUser(after, userId);
    assert line in lines;
    var k :| 0 <= k < |lines| && lines[k] == line;
    var r := CartReply(users, after, products, userId);
    if r.Ok? {
      assert r.body[k] in r.body;
    }
  }
}
