/**
 * OrderService.java: placing an order from a user's cart, status updates,
 * the repository queries, and the conversion of orders to transfer
 * objects.
 */
module BackendOrders {
  import opened Wrappers
  import opened Seqs
  import opened Entities
  import Int32
  import Sorting
  import opened BackendCart
  import opened BackendProducts

  /** The values Order.java's field initialisers give a new order: its status and its order date. */
  datatype OrderDefaults = OrderDefaults(status: string, orderDate: int)

  /** Every cart row names a product in the table, as the foreign key guarantees. */
  predicate ProductsKnown(lines: seq<CartItem>, products: seq<Product>) {
    forall i :: 0 <= i < |lines| ==> ProductById(products, lines[i].productId).Some?
  }

  /** The unit price of a known product. */
  function PriceOf(products: seq<Product>, productId: int): int
    requires ProductById(products, productId).Some?
  {
    ProductById(products, productId).value.price
  }

  /** The order items `createOrder` makes for `lines`, the k-th with id `firstId + k`. */
  function OrderLines(lines: seq<CartItem>, products: seq<Product>, firstId: int): seq<OrderItem>
    requires ProductsKnown(lines, products)
  {
    if lines == [] then []
    else
      var line := lines[|lines| - 1];
      OrderLines(lines[..|lines| - 1], products, firstId)
      + [OrderItem(firstId + |lines| - 1, line.productId, line.quantity, PriceOf(products, line.productId))]
  }

  /** Σ price × quantity over the rows, at the products' prices (`BigDecimal` arithmetic is exact). */
  function LinesTotal(lines: seq<CartItem>, products: seq<Product>): int
    requires ProductsKnown(lines, products)
  {
    if lines == [] then 0
    else
      var line := lines[|lines| - 1];
      LinesTotal(lines[..|lines| - 1], products) + PriceOf(products, line.productId) * line.quantity
  }

  /** Σ price × quantity over order items. */
  function ItemsTotal(items: seq<OrderItem>): int {
    if items == [] then 0 else ItemsTotal(items[..|items| - 1]) + items[|items| - 1].price * items[|items| - 1].quantity
  }

  /** The product table after one `updateStock` per row, in row order. */
  function StockAfter(products: seq<Product>, lines: seq<CartItem>): seq<Product> {
    if lines == [] then products
    else
      var line := lines[|lines| - 1];
      StockUpdated(StockAfter(products, lines[..|lines| - 1]), line.productId, line.quantity)
  }

  /** The total quantity of a product over the rows. */
  function OrderedQuantity(lines: seq<CartItem>, productId: int): int {
    if lines == [] then 0
    else
      var line := lines[|lines| - 1];
      OrderedQuantity(lines[..|lines| - 1], productId) + (if line.productId == productId then line.quantity else 0)
  }

  /**
   * One order item per cart row, in cart order, with the row's product and
   * quantity and the product's price at ordering time.
   */
  lemma {:induction false} OrderLinesShape(lines: seq<CartItem>, products: seq<Product>, firstId: int)
    requires ProductsKnown(lines, products)
    ensures var items := OrderLines(lines, products, firstId);
      && |items| == |lines|
      && forall k :: 0 <= k < |lines| ==>
           items[k] == OrderItem(firstId + k, lines[k].productId, lines[k].quantity, PriceOf(products, lines[k].productId))
  {
    if lines != [] {
      var init := lines[..|lines| - 1];
      OrderLinesShape(init, products, firstId);
      var items := OrderLines(lines, products, firstId);
      var prior := OrderLines(init, products, firstId);
      assert items == prior + [OrderItem(firstId + |init|, lines[|init|].productId, lines[|init|].quantity, PriceOf(products, lines[|init|].productId))];
      forall k | 0 <= k < |lines|
        ensures items[k] == OrderItem(firstId + k, lines[k].productId, lines[k].quantity, PriceOf(products, lines[k].productId))
      {
        if k < |init| {
          assert init[k] == lines[k] && items[k] == prior[k];
        }
      }
    }
  }

  /** The order's total is Σ price × quantity over the items it was given. */
  lemma {:induction false} LinesTotalIsItemsTotal(lines: seq<CartItem>, products: seq<Product>, firstId: int)
    requires ProductsKnown(lines, products)
    ensures LinesTotal(lines, products) == ItemsTotal(OrderLines(lines, products, firstId))
  {
    if lines != [] {
      var init := lines[..|lines| - 1];
      LinesTotalIsItemsTotal(init, products, firstId);
      var items := OrderLines(lines, products, firstId);
      assert items[..|items| - 1] == OrderLines(init, products, firstId);
    }
  }

  /** Stock updates keep every product's presence and price. */
  lemma {:induction false} StockAfterKeepsPrices(products: seq<Product>, lines: seq<CartItem>, id: int)
    ensures ProductById(StockAfter(products, lines), id).Some? <==> ProductById(products, id).Some?
    ensures ProductById(products, id).Some? ==>
              ProductById(StockAfter(products, lines), id).value.price == ProductById(products, id).value.price
  {
    if lines != [] {
      var line := lines[|lines| - 1];
      StockAfterKeepsPrices(products, lines[..|lines| - 1], id);
      ProductByIdAfterStockUpdate(StockAfter(products, lines[..|lines| - 1]), line.productId, line.quantity, id);
    }
  }

  /** One `updateStock` on a table with the ids of a well-formed one changes exactly the row with that id. */
  lemma StockUpdatedAt(products: seq<Product>, nextId: int, mid: seq<Product>, id: int, quantity: int, k: nat)
    requires BackendProducts.WellFormed(products, nextId)
    requires |mid| == |products| && forall j :: 0 <= j < |mid| ==> mid[j].id == products[j].id
    requires k < |mid|
    ensures |StockUpdated(mid, id, quantity)| == |mid|
    ensures StockUpdated(mid, id, quantity)[k]
            == if mid[k].id == id then mid[k].(stockQuantity := Int32.Sub(mid[k].stockQuantity, quantity)) else mid[k]
  {
    StockUpdatedEffect(mid, id, quantity);
    var found := FindProduct(mid, id);
    if mid[k].id == id {
      assert forall j :: 0 <= j < k ==> DistinctIds(products[j], products[k]);
      assert found.Some? && found.value == k;
    } else {
      assert found != Some(k);
    }
  }

  /** One step of `StockAfterEffect` at one row: a row whose stock is the wrap of an exact difference stays so. */
  lemma StockStepAt(products: seq<Product>, nextId: int, mid: seq<Product>, line: CartItem, k: nat, prior: int)
    requires BackendProducts.WellFormed(products, nextId)
    requires |mid| == |products| && forall j :: 0 <= j < |mid| ==> mid[j].id == products[j].id
    requires k < |mid| && mid[k] == products[k].(stockQuantity := Int32.Wrap(products[k].stockQuantity - prior))
    ensures StockUpdated(mid, line.productId, line.quantity)[k]
            == products[k].(stockQuantity := Int32.Wrap(products[k].stockQuantity
                 - (prior + if products[k].id == line.productId then line.quantity else 0)))
  {
    StockUpdatedAt(products, nextId, mid, line.productId, line.quantity, k);
    if products[k].id == line.productId {
      Int32.SubOfWrap(products[k].stockQuantity - prior, line.quantity);
    }
  }

  /** Every row of `r` is the matching row of `products` with its stock lowered by what `lines` order of it. */
  predicate StockLowered(products: seq<Product>, lines: seq<CartItem>, r: seq<Product>) {
    && |r| == |products|
    && forall k :: 0 <= k < |products| ==>
         r[k] == products[k].(stockQuantity := Int32.Wrap(products[k].stockQuantity - OrderedQuantity(lines, products[k].id)))
  }

  /** The inductive step of `StockAfterEffect`: one more `updateStock` keeps the shape. */
  lemma StockLoweredStep(products: seq<Product>, nextId: int, init: seq<CartItem>, mid: seq<Product>, line: CartItem)
    requires BackendProducts.WellFormed(products, nextId) && StockLowered(products, init, mid)
    ensures StockLowered(products, init + [line], StockUpdated(mid, line.productId, line.quantity))
  {
    assert (init + [line])[..|init|] == init;
    assert forall j :: 0 <= j < |mid| ==> mid[j].id == products[j].id;
    forall k | 0 <= k < |products|
      ensures StockUpdated(mid, line.productId, line.quantity)[k]
              == products[k].(stockQuantity := Int32.Wrap(products[k].stockQuantity - OrderedQuantity(init + [line], products[k].id)))
    {
      StockStepAt(products, nextId, mid, line, k, OrderedQuantity(init, products[k].id));
    }
  }

  /**
   * After the loop of `createOrder`, each product's stock is its old stock
   * minus the total quantity ordered of it (Java `Integer` arithmetic), and
   * nothing else about any product has changed.
   */
  lemma {:induction false} StockAfterEffect(products: seq<Product>, lines: seq<CartItem>, nextId: int)
    requires BackendProducts.WellFormed(products, nextId)
    ensures StockLowered(products, lines, StockAfter(products, lines))
  {
    if lines != [] {
      var init := lines[..|lines| - 1];
      var line := lines[|lines| - 1];
      StockAfterEffect(products, init, nextId);
      StockLoweredStep(products, nextId, init, StockAfter(products, init), line);
      assert init + [line] == lines;
    }
  }

  /** Appending one cart row extends the items, the total and the stock updates by that row. */
  lemma Extend(lines: seq<CartItem>, products: seq<Product>, firstId: int, line: CartItem)
    requires ProductsKnown(lines, products) && ProductById(products, line.productId).Some?
    ensures ProductsKnown(lines + [line], products)
    ensures OrderLines(lines + [line], products, firstId)
            == OrderLines(lines, products, firstId)
               + [OrderItem(firstId + |lines|, line.productId, line.quantity, PriceOf(products, line.productId))]
    ensures LinesTotal(lines + [line], products) == LinesTotal(lines, products) + PriceOf(products, line.productId) * line.quantity
    ensures StockAfter(products, lines + [line]) == StockUpdated(StockAfter(products, lines), line.productId, line.quantity)
  {
    assert (lines + [line])[..|lines|] == lines;
  }

  /** When each product is in at most one row, its ordered quantity is that row's quantity. */
  lemma {:induction false} OrderedQuantityOfDistinct(lines: seq<CartItem>, i: nat)
    requires i < |lines|
    requires forall a, b :: 0 <= a < b < |lines| ==> lines[a].productId != lines[b].productId
    ensures OrderedQuantity(lines, lines[i].productId) == lines[i].quantity
  {
    var init := lines[..|lines| - 1];
    if i == |lines| - 1 {
      OrderedQuantityAbsent(init, lines[i].productId);
    } else {
      assert init[i] == lines[i];
      OrderedQuantityOfDistinct(init, i);
    }
  }

  /** A product in no row has an ordered quantity of zero. */
  lemma {:induction false} OrderedQuantityAbsent(lines: seq<CartItem>, productId: int)
    requires forall a :: 0 <= a < |lines| ==> lines[a].productId != productId
    ensures OrderedQuantity(lines, productId) == 0
  {
    if lines != [] {
      OrderedQuantityAbsent(lines[..|lines| - 1], productId);
    }
  }

  /** The order table's invariant: ids below the next identity value and distinct. */
  predicate OrdersWellFormed(orders: seq<Order>, nextId: int) {
    && (forall i :: 0 <= i < |orders| ==> orders[i].id < nextId)
    && (forall i, j :: 0 <= i < j < |orders| ==> orders[i].id != orders[j].id)
  }

  /** Appending an order under the next identity value keeps the table's invariant. */
  lemma OrderAppended(orders: seq<Order>, nextId: int, order: Order)
    requires OrdersWellFormed(orders, nextId) && order.id == nextId
    ensures OrdersWellFormed(orders + [order], nextId + 1)
  {
    var r := orders + [order];
    assert forall i :: 0 <= i < |orders| ==> r[i] == orders[i];
  }

  /** The position of the order with that id. */
  function FindOrder(orders: seq<Order>, id: int): (r: Option<nat>)
    ensures r.Some? ==> r.value < |orders| && orders[r.value].id == id
    ensures r.Some? ==> forall k :: 0 <= k < r.value ==> orders[k].id != id
    ensures r.None? ==> forall k :: 0 <= k < |orders| ==> orders[k].id != id
  {
    IndexWhere(orders, (o: Order) => o.id == id)
  }

  /** `findById`. */
  function OrderById(orders: seq<Order>, id: int): (r: Option<Order>)
    ensures r.Some? ==> r.value in orders && r.value.id == id
    ensures r.None? ==> forall o :: o in orders ==> o.id != id
  {
    match FindOrder(orders, id)
    case Some(i) => Some(orders[i])
    case None => None
  }

  /** The table after `updateOrderStatus(id, status)`. */
  function StatusSet(orders: seq<Order>, id: int, status: string): seq<Order> {
    match FindOrder(orders, id)
    case Some(i) => orders[i := orders[i].(status := status)]
    case None => orders
  }

  /**
   * `updateOrderStatus` stores any status string on the order with that id,
   * with no check of the transition, and changes nothing else; a missing
   * order changes nothing.
   */
  lemma StatusSetEffect(orders: seq<Order>, id: int, status: string)
    ensures FindOrder(orders, id).None? ==> StatusSet(orders, id, status) == orders
    ensures var r := StatusSet(orders, id, status);
      && |r| == |orders|
      && forall k :: 0 <= k < |orders| ==>
           r[k] == if Some(k) == FindOrder(orders, id) then orders[k].(status := status) else orders[k]
  {
  }

  /** Orders newest first: the `ORDER BY orderDate DESC` of the repository's queries. */
  predicate NewerOrSame(a: Order, b: Order) {
    a.orderDate >= b.orderDate
  }

  lemma NewerOrSameTotalPreorder()
    ensures Sorting.TotalPreorder(NewerOrSame)
  {
  }

  /** `findByUserOrderByOrderDateDesc`. */
  function OrdersOfUser(orders: seq<Order>, userId: int): seq<Order> {
    Sorting.SortBy(Filter(orders, (o: Order) => o.userId == userId), NewerOrSame)
  }

  /** The user's orders come back newest first, each exactly once. */
  lemma OrdersOfUserSorted(orders: seq<Order>, userId: int)
    ensures Sorting.SortedBy(OrdersOfUser(orders, userId), NewerOrSame)
    ensures multiset(OrdersOfUser(orders, userId)) == multiset(Filter(orders, (o: Order) => o.userId == userId))
    ensures forall o :: o in OrdersOfUser(orders, userId) <==> o in orders && o.userId == userId
  {
    var mine := Filter(orders, (o: Order) => o.userId == userId);
    NewerOrSameTotalPreorder();
    Sorting.SortBySorted(mine, NewerOrSame);
    forall o ensures o in OrdersOfUser(orders, userId) <==> o in mine {
      assert o in multiset(OrdersOfUser(orders, userId)) <==> o in multiset(mine);
    }
  }

  /** The seller's orders come back newest first, each exactly once, and each holds one of the seller's products. */
  lemma OrdersOfSellerSorted(orders: seq<Order>, products: seq<Product>, sellerId: int)
    ensures Sorting.SortedBy(OrdersOfSeller(orders, products, sellerId), NewerOrSame)
    ensures multiset(OrdersOfSeller(orders, products, sellerId))
            == multiset(Filter(orders, (o: Order) => HasSellerItem(o, products, sellerId)))
    ensures forall o :: o in OrdersOfSeller(orders, products, sellerId) <==> o in orders && HasSellerItem(o, products, sellerId)
  {
    var theirs := Filter(orders, (o: Order) => HasSellerItem(o, products, sellerId));
    NewerOrSameTotalPreorder();
    Sorting.SortBySorted(theirs, NewerOrSame);
    forall o ensures o in OrdersOfSeller(orders, products, sellerId) <==> o in theirs {
      assert o in multiset(OrdersOfSeller(orders, products, sellerId)) <==> o in multiset(theirs);
    }
  }

  /** `findByStatus`. */
  function OrdersWithStatus(orders: seq<Order>, status: string): (r: seq<Order>)
    ensures forall o :: o in r <==> o in orders && o.status == status
  {
    Filter(orders, (o: Order) => o.status == status)
  }

  /** The order has an item whose product currently belongs to the seller. */
  predicate HasSellerItem(order: Order, products: seq<Product>, sellerId: int) {
    order.orderItems.Some? &&
    exists k :: 0 <= k < |order.orderItems.value| &&
      var p := ProductById(products, order.orderItems.value[k].productId);
      p.Some? && p.value.seller.Some? && p.value.seller.value.id == sellerId
  }

  /** `findOrdersBySellerId`: each order holding one of the seller's products once, newest first. */
  function OrdersOfSeller(orders: seq<Order>, products: seq<Product>, sellerId: int): seq<Order> {
    Sorting.SortBy(Filter(orders, (o: Order) => HasSellerItem(o, products, sellerId)), NewerOrSame)
  }

  /**
   * `convertOrderItemToDTO`: `price` is the snapshot stored on the item,
   * `productPrice` the product's current price. A missing product or a
   * product without a seller is a `NullPointerException`, here `None`.
   */
  function ItemDto(item: OrderItem, products: seq<Product>): (r: Option<OrderItemDto>)
    ensures r.Some? <==> ProductById(products, item.productId).Some? && ProductById(products, item.productId).value.seller.Some?
    ensures r.Some? ==> var p := ProductById(products, item.productId).value;
      && r.value.id == item.id && r.value.productId == item.productId
      && r.value.price == item.price && r.value.quantity == item.quantity
      && r.value.productPrice == p.price && r.value.sellerId == p.seller.value.id
  {
    match ProductById(products, item.productId)
    case None => None
    case Some(product) =>
      match product.seller
      case None => None
      case Some(seller) =>
        Some(OrderItemDto(item.id, product.id, product.name, product.brand, product.category, product.imageUrl,
                          product.price, item.price, item.quantity,
                          seller.id, seller.businessName, seller.firstName, seller.lastName))
  }

  /** The items' transfer objects, in item order; `None` if any conversion throws. */
  function ItemDtos(items: seq<OrderItem>, products: seq<Product>): (r: Option<seq<OrderItemDto>>)
    ensures r.Some? <==> forall k :: 0 <= k < |items| ==> ItemDto(items[k], products).Some?
    ensures r.Some? ==> |r.value| == |items| && forall k :: 0 <= k < |items| ==> ItemDto(items[k], products) == Some(r.value[k])
  {
    if items == [] then Some([])
    else
      match ItemDtos(items[..|items| - 1], products)
      case None => None
      case Some(init) =>
        match ItemDto(items[|items| - 1], products)
        case None => None
        case Some(last) => Some(init + [last])
  }

  /** `convertToDTO`: an order with no item list gets the empty list. */
  function OrderDtoOf(order: Order, products: seq<Product>): (r: Option<OrderDto>)
    ensures order.orderItems.None? ==> r.Some? && r.value.orderItems == []
    ensures r.Some? ==> && r.value.id == order.id && r.value.userId == order.userId && r.value.status == order.status
                        && r.value.totalAmount == order.totalAmount && r.value.orderDate == order.orderDate
    ensures order.orderItems.Some? ==>
      (r.Some? <==> ItemDtos(order.orderItems.value, products).Some?) &&
      (r.Some? ==> Some(r.value.orderItems) == ItemDtos(order.orderItems.value, products))
  {
    var items := match order.orderItems case None => Some([]) case Some(list) => ItemDtos(list, products);
    match items
    case None => None
    case Some(dtos) =>
      Some(OrderDto(order.id, order.userId, order.shippingAddress, order.paymentMethod, order.status,
                    order.totalAmount, order.orderDate, dtos))
  }

  /** A list of orders converted one by one; `None` if any conversion throws. */
  function OrderDtos(orders: seq<Order>, products: seq<Product>): (r: Option<seq<OrderDto>>)
    ensures r.Some? <==> forall k :: 0 <= k < |orders| ==> OrderDtoOf(orders[k], products).Some?
    ensures r.Some? ==> |r.value| == |orders| && forall k :: 0 <= k < |orders| ==> OrderDtoOf(orders[k], products) == Some(r.value[k])
  {
    if orders == [] then Some([])
    else
      assert forall k :: 0 <= k < |orders| - 1 ==> orders[..|orders| - 1][k] == orders[k];
      match OrderDtos(orders[..|orders| - 1], products)
      case None => None
      case Some(init) =>
        match OrderDtoOf(orders[|orders| - 1], products)
        case None => None
        case Some(last) => Some(init + [last])
  }

  /** The order table and the service over it, with the cart and product services it calls. */
  class OrderService {
    var orders: seq<Order>
    /** The identity values the next order and the next order item receive. */
    var nextOrderId: int
    var nextItemId: int
    const carts: CartService
    const catalog: ProductService

    predicate Valid()
      reads this, carts, catalog
    {
      carts.Valid() && catalog.Valid() && OrdersWellFormed(orders, nextOrderId)
    }

    constructor (carts: CartService, catalog: ProductService)
      requires carts.Valid() && catalog.Valid()
      ensures Valid() && orders == [] && this.carts == carts && this.catalog == catalog
    {
      orders := [];
      nextOrderId := 1;
      nextItemId := 1;
      this.carts := carts;
      this.catalog := catalog;
    }

    /** `getOrderById`. */
    function GetOrderById(id: int): (r: Option<Order>)
      reads this
      ensures r.Some? ==> r.value in orders && r.value.id == id
      ensures r.None? ==> forall o :: o in orders ==> o.id != id
    {
      OrderById(orders, id)
    }

    /**
     * The loop of `createOrder`: one order item per cart row, in cart order,
     * at the product's current price, with consecutive ids; the running
     * total Σ price × quantity; one `updateStock` per row.
     */
    method PlaceItems(cartItems: seq<CartItem>) returns (orderItems: seq<OrderItem>, totalAmount: int)
      requires catalog.Valid() && ProductsKnown(cartItems, catalog.products)
      modifies this`nextItemId, catalog
      ensures catalog.Valid()
      ensures orderItems == OrderLines(cartItems, old(catalog.products), old(nextItemId))
      ensures totalAmount == LinesTotal(cartItems, old(catalog.products))
      ensures catalog.products == StockAfter(old(catalog.products), cartItems)
      ensures nextItemId == old(nextItemId) + |cartItems|
    {
      ghost var products := catalog.products;
      ghost var firstItemId := nextItemId;
      totalAmount := 0;
      orderItems := [];
      var i := 0;
      ghost var done: seq<CartItem> := [];
      while i < |cartItems|
        invariant 0 <= i <= |cartItems| && done == cartItems[..i]
        invariant catalog.Valid()
        invariant catalog.products == StockAfter(products, done)
        invariant ProductsKnown(done, products)
        invariant orderItems == OrderLines(done, products, firstItemId)
        invariant totalAmount == LinesTotal(done, products)
        invariant nextItemId == firstItemId + i
      {
        var cartItem := cartItems[i];
        PrefixStep(cartItems, i);
        StockAfterKeepsPrices(products, done, cartItem.productId);
        Extend(done, products, firstItemId, cartItem);
        var product := catalog.GetProductById(cartItem.productId).value;
        assert product.price == PriceOf(products, cartItem.productId);
        var orderItem := OrderItem(nextItemId, cartItem.productId, cartItem.quantity, product.price);
        assert orderItem == OrderItem(firstItemId + |done|, cartItem.productId, cartItem.quantity, PriceOf(products, cartItem.productId));
        nextItemId := nextItemId + 1;
        orderItems := orderItems + [orderItem];
        assert orderItems == OrderLines(done + [cartItem], products, firstItemId);
        totalAmount := totalAmount + product.price * cartItem.quantity;
        catalog.UpdateStock(cartItem.productId, cartItem.quantity);
        done := done + [cartItem];
        i := i + 1;
      }
      assert done == cartItems;
    }

    /**
     * `createOrder(user, shippingAddress, paymentMethod)`: one order item per
     * row of the user's cart, in cart order, at each product's current
     * price; the total is Σ price × quantity; each product's stock drops by
     * the quantity ordered; finally the user's cart, and no other, is
     * emptied.
     */
    method CreateOrder(userId: int, shippingAddress: string, paymentMethod: string, defaults: OrderDefaults)
      returns (order: Order)
      requires Valid()
      requires ProductsKnown(carts.GetCartItemsByUser(userId), catalog.products)
      modifies this, carts, catalog
      ensures Valid()
      ensures var lines := OfUser(old(carts.rows), userId);
        var products := old(catalog.products);
        && ProductsKnown(lines, products)
        && order == Order(old(nextOrderId), userId, shippingAddress, paymentMethod, defaults.status,
                          LinesTotal(lines, products), defaults.orderDate,
                          Some(OrderLines(lines, products, old(nextItemId))))
        && catalog.products == StockAfter(products, lines)
      ensures orders == old(orders) + [order]
      ensures carts.rows == WithoutUser(old(carts.rows), userId)
      ensures nextOrderId == old(nextOrderId) + 1
    {
      var cartItems := carts.GetCartItemsByUser(userId);
      var orderId := nextOrderId;
      var orderItems, totalAmount := PlaceItems(cartItems);
      order := Order(orderId, userId, shippingAddress, paymentMethod, defaults.status, totalAmount, defaults.orderDate, Some(orderItems));
      carts.ClearCart(userId);
      OrderAppended(orders, orderId, order);
      orders := orders + [order];
      nextOrderId := orderId + 1;
    }

    /** `updateOrderStatus(id, status)`: `None` (Java `null`) and no change for a missing order. */
    method UpdateOrderStatus(id: int, status: string) returns (saved: Option<Order>)
      requires Valid()
      modifies this
      ensures Valid() && nextOrderId == old(nextOrderId) && nextItemId == old(nextItemId)
      ensures orders == StatusSet(old(orders), id, status)
      ensures saved.None? <==> FindOrder(old(orders), id).None?
      ensures saved.Some? ==> saved.value in orders && saved.value == OrderById(old(orders), id).value.(status := status)
    {
      var found := FindOrder(orders, id);
      if found.None? {
        return None;
      }
      var order := orders[found.value].(status := status);
      orders := orders[found.value := order];
      saved := Some(order);
      assert orders[found.value] == order;
    }

    /** `deleteOrder(id)`. */
    method DeleteOrder(id: int)
      requires Valid()
      modifies this
      ensures Valid() && nextOrderId == old(nextOrderId)
      ensures orders == Filter(old(orders), (o: Order) => o.id != id)
    {
      var kept := Filter(orders, (o: Order) => o.id != id);
      FilterPairwise(orders, (o: Order) => o.id != id, (a: Order, b: Order) => a.id != b.id);
      forall k | 0 <= k < |kept| ensures kept[k].id < nextOrderId {
        assert kept[k] in orders;
      }
      orders := kept;
    }
  }

  /**
   * When each product is in at most one row, the stock updates take each
   * product down by its row's quantity, and leave a product without a row
   * as it was.
   */
  lemma StockAfterDistinct(products: seq<Product>, nextId: int, lines: seq<CartItem>, k: nat)
    requires BackendProducts.WellFormed(products, nextId) && k < |products|
    requires forall a, b :: 0 <= a < b < |lines| ==> lines[a].productId != lines[b].productId
    ensures var after := StockAfter(products, lines);
      && |after| == |products|
      && (forall i :: 0 <= i < |lines| && lines[i].productId == products[k].id ==>
            after[k].stockQuantity == Int32.Sub(products[k].stockQuantity, lines[i].quantity))
      && ((forall i :: 0 <= i < |lines| ==> lines[i].productId != products[k].id) ==> after[k] == products[k])
  {
    StockAfterEffect(products, lines, nextId);
    var after := StockAfter(products, lines);
    var ordered := OrderedQuantity(lines, products[k].id);
    assert after[k].stockQuantity == Int32.Wrap(products[k].stockQuantity - ordered);
    forall i | 0 <= i < |lines| && lines[i].productId == products[k].id
      ensures after[k].stockQuantity == Int32.Sub(products[k].stockQuantity, lines[i].quantity)
    {
      OrderedQuantityOfDistinct(lines, i);
    }
    if forall i :: 0 <= i < |lines| ==> lines[i].productId != products[k].id {
      OrderedQuantityAbsent(lines, products[k].id);
    }
  }

  /**
   * `createOrder` takes every product's stock down by the quantity of its
   * (single) row in the user's cart, and leaves products not in the cart as
   * they were.
   */
  lemma CreateOrderStock(rows: seq<CartItem>, cartNextId: int, userId: int, products: seq<Product>, productNextId: int, k: nat)
    requires BackendCart.WellFormed(rows, cartNextId) && BackendProducts.WellFormed(products, productNextId)
    requires k < |products|
    ensures var lines := OfUser(rows, userId);
      var after := StockAfter(products, lines);
      && |after| == |products|
      && (forall i :: 0 <= i < |lines| && lines[i].productId == products[k].id ==>
            after[k].stockQuantity == Int32.Sub(products[k].stockQuantity, lines[i].quantity))
      && ((forall i :: 0 <= i < |lines| ==> lines[i].productId != products[k].id) ==> after[k] == products[k])
  {
    UserLinesDistinctProducts(rows, userId, cartNextId);
    StockAfterDistinct(products, productNextId, OfUser(rows, userId), k);
  }
}
