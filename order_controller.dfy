/**
 * OrderController.java: the order endpoints, each answering with OrderDTOs
 * built by `createOrderDTO`, `getOrderByIdDTO`, `getOrdersByUserDTO`,
 * `getOrdersByStatusDTO`, `getOrdersBySellerDTO` and
 * `updateOrderStatusDTO`. A conversion that throws (an item whose product
 * is gone or has no seller) is a server error.
 */
module OrderController {
  import opened Wrappers
  import opened Entities
  import opened Http
  import BackendAccounts
  import BackendCart
  import BackendOrders
  import Sorting

  /** A list of orders streamed through `convertToDTO`: 200 with one DTO per order, in order, unless a conversion throws. */
  function ListReply(list: seq<Order>, products: seq<Product>): (r: Reply<seq<OrderDto>>)
    ensures r.Ok? || r.ServerError?
    ensures r.Ok? <==> forall k :: 0 <= k < |list| ==> BackendOrders.OrderDtoOf(list[k], products).Some?
    ensures r.Ok? ==> |r.body| == |list| && forall k :: 0 <= k < |list| ==> Some(r.body[k]) == BackendOrders.OrderDtoOf(list[k], products)
  {
    match BackendOrders.OrderDtos(list, products)
    case Some(dtos) => Ok(dtos)
    case None => ServerError
  }

  /** Converting a newest-first list keeps it newest first. */
  lemma ListReplyNewestFirst(list: seq<Order>, products: seq<Product>)
    requires Sorting.SortedBy(list, BackendOrders.NewerOrSame)
    ensures var r := ListReply(list, products);
      r.Ok? ==> forall i, j :: 0 <= i < j < |r.body| ==> r.body[i].orderDate >= r.body[j].orderDate
  {
    var r := ListReply(list, products);
    if r.Ok? {
      forall i, j | 0 <= i < j < |r.body| ensures r.body[i].orderDate >= r.body[j].orderDate {
        assert BackendOrders.NewerOrSame(list[i], list[j]);
        assert Some(r.body[i]) == BackendOrders.OrderDtoOf(list[i], products);
        assert Some(r.body[j]) == BackendOrders.OrderDtoOf(list[j], products);
      }
    }
  }

  /** `getAllOrders()`: every order, in table order. */
  function GetAllOrders(orders: BackendOrders.OrderService): (r: Reply<seq<OrderDto>>)
    reads orders, orders.catalog
    ensures r.Ok? || r.ServerError?
    ensures r.Ok? ==> |r.body| == |orders.orders| && forall k :: 0 <= k < |r.body| ==> r.body[k].id == orders.orders[k].id
  {
    ListReply(orders.orders, orders.catalog.products)
  }

  /** `getOrderById(id)`: 404 for a missing order. */
  function GetOrderById(orders: BackendOrders.OrderService, id: int): (r: Reply<OrderDto>)
    reads orders, orders.catalog
    ensures r.NotFound? <==> forall o :: o in orders.orders ==> o.id != id
    ensures r.Ok? || r.NotFound? || r.ServerError?
    ensures r.Ok? ==> r.body.id == id && Some(r.body) == BackendOrders.OrderDtoOf(orders.GetOrderById(id).value, orders.catalog.products)
  {
    match orders.GetOrderById(id)
    case None => NotFound
    case Some(order) =>
      match BackendOrders.OrderDtoOf(order, orders.catalog.products)
      case Some(dto) => Ok(dto)
      case None => ServerError
  }

  /** The user's orders, newest first, each the user's own. */
  lemma UserOrdersListed(orders: seq<Order>, userId: int)
    ensures var list := BackendOrders.OrdersOfUser(orders, userId);
      && Sorting.SortedBy(list, BackendOrders.NewerOrSame)
      && forall k :: 0 <= k < |list| ==> list[k].userId == userId
  {
    var list := BackendOrders.OrdersOfUser(orders, userId);
    BackendOrders.OrdersOfUserSorted(orders, userId);
    forall k | 0 <= k < |list| ensures list[k].userId == userId {
      assert list[k] in list;
    }
  }

  /** `getOrdersByUser(userId)`: 404 for an unknown user, else that user's orders, newest first. */
  function GetOrdersByUser(users: BackendAccounts.AccountService, orders: BackendOrders.OrderService, userId: int)
    : (r: Reply<seq<OrderDto>>)
    reads users, orders, orders.catalog
    ensures r.NotFound? <==> users.GetById(userId).None?
    ensures r.Ok? || r.NotFound? || r.ServerError?
    ensures r.Ok? ==>
              && |r.body| == |BackendOrders.OrdersOfUser(orders.orders, userId)|
              && (forall k :: 0 <= k < |r.body| ==> r.body[k].userId == userId)
              && (forall i, j :: 0 <= i < j < |r.body| ==> r.body[i].orderDate >= r.body[j].orderDate)
  {
    if users.GetById(userId).None? then NotFound
    else
      var list := BackendOrders.OrdersOfUser(orders.orders, userId);
      UserOrdersListed(orders.orders, userId);
      ListReplyNewestFirst(list, orders.catalog.products);
      ListReply(list, orders.catalog.products)
  }

  /** `getOrdersByStatus(status)`: the orders with exactly that status. */
  function GetOrdersByStatus(orders: BackendOrders.OrderService, status: string): (r: Reply<seq<OrderDto>>)
    reads orders, orders.catalog
    ensures r.Ok? || r.ServerError?
    ensures r.Ok? ==>
              && |r.body| == |BackendOrders.OrdersWithStatus(orders.orders, status)|
              && forall k :: 0 <= k < |r.body| ==> r.body[k].status == status
  {
    var list := BackendOrders.OrdersWithStatus(orders.orders, status);
    assert forall k :: 0 <= k < |list| ==> list[k] in list;
    ListReply(list, orders.catalog.products)
  }

  /** The seller's orders, newest first, each holding one of the seller's products. */
  lemma SellerOrdersListed(orders: seq<Order>, products: seq<Product>, sellerId: int)
    ensures var list := BackendOrders.OrdersOfSeller(orders, products, sellerId);
      && Sorting.SortedBy(list, BackendOrders.NewerOrSame)
      && forall k :: 0 <= k < |list| ==> BackendOrders.HasSellerItem(list[k], products, sellerId)
  {
    var list := BackendOrders.OrdersOfSeller(orders, products, sellerId);
    BackendOrders.OrdersOfSellerSorted(orders, products, sellerId);
    forall k | 0 <= k < |list| ensures BackendOrders.HasSellerItem(list[k], products, sellerId) {
      assert list[k] in list;
    }
  }

  /** `getOrdersBySeller(sellerId)`: the orders holding one of the seller's products, newest first. */
  function GetOrdersBySeller(orders: BackendOrders.OrderService, sellerId: int): (r: Reply<seq<OrderDto>>)
    reads orders, orders.catalog
    ensures r.Ok? || r.ServerError?
    ensures r.Ok? ==>
              var list := BackendOrders.OrdersOfSeller(orders.orders, orders.catalog.products, sellerId);
              && |r.body| == |list|
              && (forall k :: 0 <= k < |list| ==> r.body[k].id == list[k].id
                                                   && BackendOrders.HasSellerItem(list[k], orders.catalog.products, sellerId))
              && (forall i, j :: 0 <= i < j < |r.body| ==> r.body[i].orderDate >= r.body[j].orderDate)
  {
    var list := BackendOrders.OrdersOfSeller(orders.orders, orders.catalog.products, sellerId);
    SellerOrdersListed(orders.orders, orders.catalog.products, sellerId);
    ListReplyNewestFirst(list, orders.catalog.products);
    ListReply(list, orders.catalog.products)
  }

  /**
   * `createOrder(userId, shippingAddress, paymentMethod)`: a 400 with no
   * body, and nothing changed, for an unknown user; otherwise the order is
   * placed and returned as a DTO of the reloaded order.
   */
  method CreateOrder(users: BackendAccounts.AccountService, orders: BackendOrders.OrderService, userId: int,
                     shippingAddress: string, paymentMethod: string, defaults: BackendOrders.OrderDefaults)
    returns (reply: Reply<OrderDto>)
    requires orders.Valid()
    requires users.GetById(userId).Some? ==>
               BackendOrders.ProductsKnown(orders.carts.GetCartItemsByUser(userId), orders.catalog.products)
    modifies orders, orders.carts, orders.catalog
    ensures orders.Valid()
    ensures users.GetById(userId).None? ==>
              reply == BadRequest(None) && unchanged(orders) && unchanged(orders.carts) && unchanged(orders.catalog)
    ensures users.GetById(userId).Some? ==>
              var lines := BackendCart.OfUser(old(orders.carts.rows), userId);
              && |orders.orders| == |old(orders.orders)| + 1
              && orders.orders[..|old(orders.orders)|] == old(orders.orders)
              && orders.carts.rows == BackendCart.WithoutUser(old(orders.carts.rows), userId)
              && orders.catalog.products == BackendOrders.StockAfter(old(orders.catalog.products), lines)
              && (reply.Ok? || reply.ServerError?)
              && (reply.Ok? <==> BackendOrders.OrderDtoOf(orders.orders[|old(orders.orders)|], orders.catalog.products).Some?)
              && (reply.Ok? ==>
                    && reply.body.id == old(orders.nextOrderId) && reply.body.userId == userId
                    && reply.body.totalAmount == BackendOrders.LinesTotal(lines, old(orders.catalog.products))
                    && reply.body.status == defaults.status)
  {
    if users.GetById(userId).None? {
      return BadRequest(None);
    }
    var order := orders.CreateOrder(userId, shippingAddress, paymentMethod, defaults);
    var reloaded := orders.GetOrderById(order.id);
    assert orders.orders[|orders.orders| - 1] == order;
    // Identity values are unique, so the reload finds the order just placed.
    assert reloaded == Some(order);
    var dto := BackendOrders.OrderDtoOf(reloaded.value, orders.catalog.products);
    reply := if dto.Some? then Ok(dto.value) else ServerError;
  }

  /** `updateOrderStatus(id, status)`: 404 for a missing order; otherwise the status is set and the order returned as a DTO. */
  method UpdateOrderStatus(orders: BackendOrders.OrderService, id: int, status: string) returns (reply: Reply<OrderDto>)
    requires orders.Valid()
    modifies orders
    ensures orders.Valid() && orders.nextOrderId == old(orders.nextOrderId)
    ensures orders.orders == BackendOrders.StatusSet(old(orders.orders), id, status)
    ensures reply.NotFound? <==> BackendOrders.OrderById(old(orders.orders), id).None?
    ensures reply.Ok? || reply.NotFound? || reply.ServerError?
    ensures reply.Ok? ==> reply.body.id == id && reply.body.status == status
  {
    var updated := orders.UpdateOrderStatus(id, status);
    if updated.None? {
      return NotFound;
    }
    var dto := BackendOrders.OrderDtoOf(updated.value, orders.catalog.products);
    reply := if dto.Some? then Ok(dto.value) else ServerError;
  }

  /** `deleteOrder(id)`: always 204, whether or not the order existed. */
  method DeleteOrder(orders: BackendOrders.OrderService, id: int) returns (reply: Reply<OrderDto>)
    requires orders.Valid()
    modifies orders
    ensures orders.Valid() && orders.nextOrderId == old(orders.nextOrderId)
    ensures forall o :: o in orders.orders <==> o in old(orders.orders) && o.id != id
    ensures reply == NoContent
  {
    orders.DeleteOrder(id);
    reply := NoContent;
  }
}
