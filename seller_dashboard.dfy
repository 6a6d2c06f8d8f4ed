/**
 * The seller dashboard (SellerDashboard.jsx): the statistics cards, the
 * per-product "sold" column, the per-order seller total, and the products
 * and orders state replaced by the fetch handlers and by a status update.
 */
module SellerDashboard {
  import opened Wrappers
  import SessionUser
  import Entities
  import Seqs

  /**
   * An order item as the dashboard's figures use it; `productId` is the
   * product the page matches on. The page writes `item.product?.id`, which
   * the server's DTO does not carry (`ItemAsWritten`); the figures below are
   * those of the intended reading by `productId` (`ItemOfDto`).
   */
  datatype OrderItem = OrderItem(productId: Option<int>, price: int, quantity: int)

  /** An order; `orderItems` is absent when the response has none. */
  datatype Order = Order(id: int, status: string, orderItems: Option<seq<OrderItem>>)

  /** A product of the signed-in seller. */
  datatype Product = Product(id: int, stockQuantity: int)

  /** `products.some(p => p.id === item.product?.id)`: the item is one of the seller's products. */
  predicate Owns(products: seq<Product>, item: OrderItem) {
    item.productId.Some? && exists i :: 0 <= i < |products| && products[i].id == item.productId.value
  }

  /** The statuses counted as sold. */
  predicate IsSold(status: string) {
    status == "CONFIRMED" || status == "SHIPPED" || status == "DELIVERED"
  }

  /** `order.orderItems?.…` falls back to no items. */
  function Items(o: Order): seq<OrderItem> {
    o.orderItems.GetOr([])
  }

  // ---------------------------------------------------------------------
  // Statistics
  // ---------------------------------------------------------------------

  /** The revenue of one order's items that belong to the seller. */
  function OwnRevenue(products: seq<Product>, items: seq<OrderItem>): int {
    if items == [] then 0
    else (if Owns(products, items[0]) then items[0].price * items[0].quantity else 0) + OwnRevenue(products, items[1..])
  }

  /** `totalRevenue`: the seller's revenue over orders of every status. */
  function TotalRevenue(products: seq<Product>, orders: seq<Order>): int {
    if orders == [] then 0 else OwnRevenue(products, Items(orders[0])) + TotalRevenue(products, orders[1..])
  }

  /** The number of orders with exactly this status. */
  function StatusCount(orders: seq<Order>, status: string): (r: nat)
    ensures r <= |orders|
  {
    if orders == [] then 0 else (if orders[0].status == status then 1 else 0) + StatusCount(orders[1..], status)
  }

  /** `soldOrders`: the confirmed, shipped and delivered orders, in order. */
  function SoldOrders(orders: seq<Order>): (r: seq<Order>)
    ensures forall o :: o in r <==> o in orders && IsSold(o.status)
  {
    if orders == [] then []
    else
      assert orders[0] in orders;
      var rest := SoldOrders(orders[1..]);
      if IsSold(orders[0].status) then [orders[0]] + rest else rest
  }

  /** The quantity of one order's items that belong to the seller. */
  function OwnQuantity(products: seq<Product>, items: seq<OrderItem>): int {
    if items == [] then 0
    else (if Owns(products, items[0]) then items[0].quantity else 0) + OwnQuantity(products, items[1..])
  }

  /** `totalSoldItems`: the seller's quantities in sold orders only. */
  function TotalSoldItems(products: seq<Product>, orders: seq<Order>): int {
    if orders == [] then 0
    else
      (if IsSold(orders[0].status) then OwnQuantity(products, Items(orders[0])) else 0)
      + TotalSoldItems(products, orders[1..])
  }

  /** The statistics object of the dashboard. */
  datatype Statistics = Statistics(
    totalRevenue: int,
    totalOrders: nat,
    pendingOrders: nat,
    confirmedOrders: nat,
    shippedOrders: nat,
    deliveredOrders: nat,
    totalSoldItems: int)

  function ComputeStatistics(products: seq<Product>, orders: seq<Order>): (r: Statistics)
    ensures r.totalOrders == |orders|
    ensures r.pendingOrders + r.confirmedOrders + r.shippedOrders + r.deliveredOrders <= r.totalOrders
    ensures r.confirmedOrders + r.shippedOrders + r.deliveredOrders == |SoldOrders(orders)|
    ensures r.totalRevenue == SumOrderTotals(products, orders)
  {
    StatusCountsBounded(orders);
    CompletedCountsSoldOrders(orders);
    RevenueIsSumOfOrderTotals(products, orders);
    Statistics(
      TotalRevenue(products, orders),
      |orders|,
      StatusCount(orders, "PENDING"),
      StatusCount(orders, "CONFIRMED"),
      StatusCount(orders, "SHIPPED"),
      StatusCount(orders, "DELIVERED"),
      TotalSoldItems(products, orders))
  }

  /** The "Completed Orders" card: confirmed + shipped + delivered. */
  function CompletedOrders(s: Statistics): int {
    s.confirmedOrders + s.shippedOrders + s.deliveredOrders
  }

  /** The four status counts never exceed the number of orders, since each order has one status. */
  lemma {:induction false} StatusCountsBounded(orders: seq<Order>)
    ensures StatusCount(orders, "PENDING") + StatusCount(orders, "CONFIRMED")
          + StatusCount(orders, "SHIPPED") + StatusCount(orders, "DELIVERED") <= |orders|
  {
    if orders != [] {
      StatusCountsBounded(orders[1..]);
    }
  }

  /** The completed count is the number of sold orders. */
  lemma {:induction false} CompletedCountsSoldOrders(orders: seq<Order>)
    ensures StatusCount(orders, "CONFIRMED") + StatusCount(orders, "SHIPPED") + StatusCount(orders, "DELIVERED")
         == |SoldOrders(orders)|
  {
    if orders != [] {
      CompletedCountsSoldOrders(orders[1..]);
    }
  }

  // ---------------------------------------------------------------------
  // Per-row figures
  // ---------------------------------------------------------------------

  /** `order.orderItems?.some(item => item.product?.id === productId)`. */
  predicate HasProduct(o: Order, productId: int) {
    exists i :: 0 <= i < |Items(o)| && Items(o)[i].productId == Some(productId)
  }

  /** `find(item => item.product?.id === productId)?.quantity || 0`. */
  function FirstQuantity(items: seq<OrderItem>, productId: int): (r: int)
    ensures (forall i :: 0 <= i < |items| ==> items[i].productId != Some(productId)) ==> r == 0
    ensures forall i :: 0 <= i < |items| && items[i].productId == Some(productId) ==>
              (forall j :: 0 <= j < i ==> items[j].productId != Some(productId)) ==> r == items[i].quantity
  {
    if items == [] then 0
    else if items[0].productId == Some(productId) then items[0].quantity
    else
      var r := FirstQuantity(items[1..], productId);
      assert forall i :: 1 <= i < |items| ==> items[i] == items[1..][i - 1];
      r
  }

  /** The "sold" figure of one product: its first item's quantity in each sold order containing it. */
  function ProductSold(productId: int, orders: seq<Order>): int {
    if orders == [] then 0
    else
      (if HasProduct(orders[0], productId) && IsSold(orders[0].status) then FirstQuantity(Items(orders[0]), productId) else 0)
      + ProductSold(productId, orders[1..])
  }

  /** `products.some(...)` as the predicate the `filter` of `sellerItems` applies. */
  function OwnedBy(products: seq<Product>): OrderItem -> bool {
    (x: OrderItem) => Owns(products, x)
  }

  /** `sellerItems`: the items of an order that belong to the seller. */
  function SellerItems(products: seq<Product>, o: Order): (r: seq<OrderItem>)
    ensures forall x :: x in r <==> x in Items(o) && Owns(products, x)
    ensures r == Seqs.Filter(Items(o), OwnedBy(products))
  {
    OwnItems(products, Items(o))
  }

  /** The seller's items among `items`, in their order and with their repetitions. */
  function OwnItems(products: seq<Product>, items: seq<OrderItem>): (r: seq<OrderItem>)
    ensures forall x :: x in r <==> x in items && Owns(products, x)
    ensures r == Seqs.Filter(items, OwnedBy(products))
  {
    if items == [] then []
    else
      assert items[0] in items;
      var rest := OwnItems(products, items[1..]);
      if Owns(products, items[0]) then [items[0]] + rest else rest
  }

  function ItemsTotal(items: seq<OrderItem>): int {
    if items == [] then 0 else items[0].price * items[0].quantity + ItemsTotal(items[1..])
  }

  /** `orderTotal`: the total of the seller's items of one order. */
  function OrderTotal(products: seq<Product>, o: Order): int {
    ItemsTotal(SellerItems(products, o))
  }

  function SumOrderTotals(products: seq<Product>, orders: seq<Order>): int {
    if orders == [] then 0 else OrderTotal(products, orders[0]) + SumOrderTotals(products, orders[1..])
  }

  lemma {:induction false} OwnRevenueIsTotalOfOwnItems(products: seq<Product>, items: seq<OrderItem>)
    ensures OwnRevenue(products, items) == ItemsTotal(OwnItems(products, items))
  {
    if items != [] {
      OwnRevenueIsTotalOfOwnItems(products, items[1..]);
      if Owns(products, items[0]) {
        assert ([items[0]] + OwnItems(products, items[1..]))[1..] == OwnItems(products, items[1..]);
      }
    }
  }

  /** The revenue card is the sum of the per-order seller totals shown in the orders table. */
  lemma {:induction false} RevenueIsSumOfOrderTotals(products: seq<Product>, orders: seq<Order>)
    ensures TotalRevenue(products, orders) == SumOrderTotals(products, orders)
  {
    if orders != [] {
      OwnRevenueIsTotalOfOwnItems(products, Items(orders[0]));
      RevenueIsSumOfOrderTotals(products, orders[1..]);
    }
  }

  /** Quantities the items of an order carry are never negative. */
  predicate NonNegativeQuantities(orders: seq<Order>) {
    forall k, i :: 0 <= k < |orders| && 0 <= i < |Items(orders[k])| ==> Items(orders[k])[i].quantity >= 0
  }

  lemma {:induction false} FirstQuantityAtMostOwn(products: seq<Product>, items: seq<OrderItem>, productId: int)
    requires exists p :: p in products && p.id == productId
    requires forall i :: 0 <= i < |items| ==> items[i].quantity >= 0
    ensures 0 <= FirstQuantity(items, productId) <= OwnQuantity(products, items)
  {
    if items != [] {
      var p :| p in products && p.id == productId;
      var k :| 0 <= k < |products| && products[k] == p;
      OwnQuantityNonNegative(products, items[1..]);
      if items[0].productId != Some(productId) {
        FirstQuantityAtMostOwn(products, items[1..], productId);
      } else {
        assert Owns(products, items[0]) by { assert products[k].id == items[0].productId.value; }
      }
    }
  }

  lemma {:induction false} OwnQuantityNonNegative(products: seq<Product>, items: seq<OrderItem>)
    requires forall i :: 0 <= i < |items| ==> items[i].quantity >= 0
    ensures OwnQuantity(products, items) >= 0
  {
    if items != [] {
      OwnQuantityNonNegative(products, items[1..]);
    }
  }

  /** With non-negative quantities, no product of the seller shows more sold than the "Items Sold" card. */
  lemma {:induction false} ProductSoldAtMostTotalSold(products: seq<Product>, orders: seq<Order>, productId: int)
    requires exists p :: p in products && p.id == productId
    requires NonNegativeQuantities(orders)
    ensures 0 <= ProductSold(productId, orders) <= TotalSoldItems(products, orders)
  {
    if orders != [] {
      assert NonNegativeQuantities(orders[1..]) by {
        forall k, i | 0 <= k < |orders[1..]| && 0 <= i < |Items(orders[1..][k])|
          ensures Items(orders[1..][k])[i].quantity >= 0
        {
          assert orders[1..][k] == orders[k + 1];
        }
      }
      ProductSoldAtMostTotalSold(products, orders[1..], productId);
      assert forall i :: 0 <= i < |Items(orders[0])| ==> Items(orders[0])[i].quantity >= 0;
      FirstQuantityAtMostOwn(products, Items(orders[0]), productId);
      OwnQuantityNonNegative(products, Items(orders[0]));
    }
  }

  // ---------------------------------------------------------------------
  // Reading the orders of `getOrdersBySeller`
  // ---------------------------------------------------------------------

  /**
   * How the dashboard reads an item of the server's order DTO: the DTO has
   * a flat `productId` and no `product` object, so `item.product?.id` is
   * undefined for every item.
   */
  function ItemAsWritten(d: Entities.OrderItemDto): OrderItem {
    OrderItem(None, d.price, d.quantity)
  }

  /** The reading the dashboard evidently intends: `item.productId`. */
  function ItemOfDto(d: Entities.OrderItemDto): OrderItem {
    OrderItem(Some(d.productId), d.price, d.quantity)
  }

  /** The dashboard's view of one order DTO, with a given reading of its items. */
  function OrderOfDto(d: Entities.OrderDto, read: Entities.OrderItemDto -> OrderItem): (r: Order)
    ensures r.id == d.id && r.status == d.status
    ensures |Items(r)| == |d.orderItems|
    ensures forall i :: 0 <= i < |d.orderItems| ==> Items(r)[i] == read(d.orderItems[i])
  {
    Order(d.id, d.status, Some(seq(|d.orderItems|, i requires 0 <= i < |d.orderItems| => read(d.orderItems[i]))))
  }

  function OrdersOfDtos(ds: seq<Entities.OrderDto>, read: Entities.OrderItemDto -> OrderItem): (r: seq<Order>)
    ensures |r| == |ds|
    ensures forall k :: 0 <= k < |ds| ==> r[k] == OrderOfDto(ds[k], read)
  {
    seq(|ds|, k requires 0 <= k < |ds| => OrderOfDto(ds[k], read))
  }

  /** No item of the orders names a product. */
  predicate NoProductIds(orders: seq<Order>) {
    forall k, i :: 0 <= k < |orders| && 0 <= i < |Items(orders[k])| ==> Items(orders[k])[i].productId.None?
  }

  lemma {:induction false} NothingOwnedInItems(products: seq<Product>, items: seq<OrderItem>, productId: int)
    requires forall i :: 0 <= i < |items| ==> items[i].productId.None?
    ensures OwnRevenue(products, items) == 0 && OwnQuantity(products, items) == 0
    ensures OwnItems(products, items) == []
    ensures FirstQuantity(items, productId) == 0
  {
    if items != [] {
      NothingOwnedInItems(products, items[1..], productId);
    }
  }

  lemma {:induction false} NothingOwnedInOrders(products: seq<Product>, orders: seq<Order>, productId: int)
    requires NoProductIds(orders)
    ensures TotalRevenue(products, orders) == 0 && TotalSoldItems(products, orders) == 0
    ensures ProductSold(productId, orders) == 0
    ensures forall k :: 0 <= k < |orders| ==> SellerItems(products, orders[k]) == []
  {
    if orders != [] {
      assert NoProductIds(orders[1..]) by {
        forall k, i | 0 <= k < |orders[1..]| && 0 <= i < |Items(orders[1..][k])|
          ensures Items(orders[1..][k])[i].productId.None?
        {
          assert orders[1..][k] == orders[k + 1];
        }
      }
      NothingOwnedInOrders(products, orders[1..], productId);
      NothingOwnedInItems(products, Items(orders[0]), productId);
      forall k | 0 <= k < |orders| ensures SellerItems(products, orders[k]) == [] {
        NothingOwnedInItems(products, Items(orders[k]), productId);
      }
    }
  }

  /**
   * As written, the server's orders show revenue 0 and 0 items sold, no
   * "sold" figure for any product and no seller items in any row, whatever
   * the seller's products and orders are.
   */
  lemma ServerOrdersShowNothingSoldAsWritten(products: seq<Product>, ds: seq<Entities.OrderDto>, productId: int)
    ensures var orders := OrdersOfDtos(ds, ItemAsWritten);
      && ComputeStatistics(products, orders).totalRevenue == 0
      && ComputeStatistics(products, orders).totalSoldItems == 0
      && ProductSold(productId, orders) == 0
      && forall k :: 0 <= k < |orders| ==> SellerItems(products, orders[k]) == []
  {
    var orders := OrdersOfDtos(ds, ItemAsWritten);
    NothingOwnedInOrders(products, orders, productId);
    RevenueIsSumOfOrderTotals(products, orders);
  }

  /** Read by its `productId`, an item is the seller's exactly when one of the seller's products has that id. */
  lemma ItemOfDtoOwned(products: seq<Product>, d: Entities.OrderItemDto)
    ensures Owns(products, ItemOfDto(d)) <==> exists i :: 0 <= i < |products| && products[i].id == d.productId
    ensures !Owns(products, ItemAsWritten(d))
  {
  }

  /** The seller's own DTO items: those whose `productId` is one of the seller's products. */
  predicate OwnsDto(products: seq<Product>, d: Entities.OrderItemDto) {
    exists i :: 0 <= i < |products| && products[i].id == d.productId
  }

  /** The seller's revenue and quantity in a list of DTO items, computed on the server's own fields. */
  function DtoRevenue(products: seq<Product>, items: seq<Entities.OrderItemDto>): int {
    if items == [] then 0
    else (if OwnsDto(products, items[0]) then items[0].price * items[0].quantity else 0) + DtoRevenue(products, items[1..])
  }

  function DtoQuantity(products: seq<Product>, items: seq<Entities.OrderItemDto>): int {
    if items == [] then 0
    else (if OwnsDto(products, items[0]) then items[0].quantity else 0) + DtoQuantity(products, items[1..])
  }

  /** The revenue card and the "Items Sold" card as the reply's own fields give them. */
  function ServerRevenue(products: seq<Product>, ds: seq<Entities.OrderDto>): int {
    if ds == [] then 0 else DtoRevenue(products, ds[0].orderItems) + ServerRevenue(products, ds[1..])
  }

  function ServerSoldItems(products: seq<Product>, ds: seq<Entities.OrderDto>): int {
    if ds == [] then 0
    else (if IsSold(ds[0].status) then DtoQuantity(products, ds[0].orderItems) else 0) + ServerSoldItems(products, ds[1..])
  }

  lemma {:induction false} ItemsReadByProductId(products: seq<Product>, ds: seq<Entities.OrderItemDto>, items: seq<OrderItem>)
    requires |items| == |ds| && forall i :: 0 <= i < |ds| ==> items[i] == ItemOfDto(ds[i])
    ensures OwnRevenue(products, items) == DtoRevenue(products, ds)
    ensures OwnQuantity(products, items) == DtoQuantity(products, ds)
  {
    if ds != [] {
      ItemsReadByProductId(products, ds[1..], items[1..]);
      ItemOfDtoOwned(products, ds[0]);
    }
  }

  /** Read by `productId`, the dashboard's revenue and items sold are the seller's figures in the server's orders. */
  lemma {:induction false} StatisticsReadByProductId(products: seq<Product>, ds: seq<Entities.OrderDto>)
    ensures ComputeStatistics(products, OrdersOfDtos(ds, ItemOfDto)).totalRevenue == ServerRevenue(products, ds)
    ensures ComputeStatistics(products, OrdersOfDtos(ds, ItemOfDto)).totalSoldItems == ServerSoldItems(products, ds)
  {
    var orders := OrdersOfDtos(ds, ItemOfDto);
    RevenueIsSumOfOrderTotals(products, orders);
    TotalsReadByProductId(products, ds);
  }

  lemma {:induction false} TotalsReadByProductId(products: seq<Product>, ds: seq<Entities.OrderDto>)
    ensures TotalRevenue(products, OrdersOfDtos(ds, ItemOfDto)) == ServerRevenue(products, ds)
    ensures TotalSoldItems(products, OrdersOfDtos(ds, ItemOfDto)) == ServerSoldItems(products, ds)
  {
    if ds != [] {
      var orders := OrdersOfDtos(ds, ItemOfDto);
      assert orders[1..] == OrdersOfDtos(ds[1..], ItemOfDto);
      TotalsReadByProductId(products, ds[1..]);
      ItemsReadByProductId(products, ds[0].orderItems, Items(orders[0]));
    }
  }

  /** One confirmed order of two units at 100 of the seller's product 7: 0 as written, 200 and 2 as intended. */
  lemma ConfirmedOrderCountedOnlyWhenReadByProductId()
    ensures var products := [Product(7, 3)];
      var item := Entities.OrderItemDto(1, 7, "Lamp", "Acme", "Home", None, 100, 100, 2, 5, None, None, None);
      var ds := [Entities.OrderDto(1, 2, "Street 1", "CARD", "CONFIRMED", 200, 0, [item])];
      && ComputeStatistics(products, OrdersOfDtos(ds, ItemAsWritten)).totalRevenue == 0
      && ComputeStatistics(products, OrdersOfDtos(ds, ItemAsWritten)).totalSoldItems == 0
      && ComputeStatistics(products, OrdersOfDtos(ds, ItemOfDto)).totalRevenue == 200
      && ComputeStatistics(products, OrdersOfDtos(ds, ItemOfDto)).totalSoldItems == 2
  {
    var products := [Product(7, 3)];
    var item := Entities.OrderItemDto(1, 7, "Lamp", "Acme", "Home", None, 100, 100, 2, 5, None, None, None);
    var ds := [Entities.OrderDto(1, 2, "Street 1", "CARD", "CONFIRMED", 200, 0, [item])];
    var written := OrdersOfDtos(ds, ItemAsWritten);
    var intended := OrdersOfDtos(ds, ItemOfDto);
    ServerOrdersShowNothingSoldAsWritten(products, ds, 7);
    assert Items(intended[0]) == [OrderItem(Some(7), 100, 2)];
    assert Owns(products, OrderItem(Some(7), 100, 2)) by { assert products[0].id == 7; }
    assert intended[1..] == [];
    assert OwnRevenue(products, Items(intended[0])) == 200;
    assert OwnQuantity(products, Items(intended[0])) == 2;
    assert TotalRevenue(products, intended) == 200;
    assert TotalSoldItems(products, intended) == 2;
    assert ComputeStatistics(products, written).totalRevenue == TotalRevenue(products, written) == 0;
    assert ComputeStatistics(products, written).totalSoldItems == TotalSoldItems(products, written) == 0;
  }

  /** The "Active Products" card: products with stock above zero. */
  function ActiveProducts(products: seq<Product>): (r: nat)
    ensures r <= |products|
    ensures r == |products| <==> forall i :: 0 <= i < |products| ==> products[i].stockQuantity > 0
  {
    if products == [] then 0
    else
      var rest := ActiveProducts(products[1..]);
      assert forall i :: 1 <= i < |products| ==> products[i] == products[1..][i - 1];
      (if products[0].stockQuantity > 0 then 1 else 0) + rest
  }

  /** The status badge colour of an orders-table row. */
  function StatusBadge(status: string): (r: string)
    ensures r == "danger" <==> status !in {"DELIVERED", "SHIPPED", "CONFIRMED", "PENDING"}
  {
    if status == "DELIVERED" then "success"
    else if status == "SHIPPED" then "info"
    else if status == "CONFIRMED" then "primary"
    else if status == "PENDING" then "warning"
    else "danger"
  }

  // ---------------------------------------------------------------------
  // Status changes and the state the fetch handlers replace
  // ---------------------------------------------------------------------

  /** `handleStatusChange`: the update request it sends, if any. */
  datatype StatusUpdate = StatusUpdate(orderId: int, newStatus: string)

  function HandleStatusChange(orderId: int, currentStatus: string, newStatus: string): (r: Option<StatusUpdate>)
    ensures r.Some? <==> newStatus != currentStatus
    ensures r.Some? ==> r.value == StatusUpdate(orderId, newStatus)
  {
    if newStatus != currentStatus then Some(StatusUpdate(orderId, newStatus)) else None
  }

  /** The local update: every order with that id gets the new status, nothing else changes. */
  function WithStatus(orders: seq<Order>, orderId: int, status: string): (r: seq<Order>)
    ensures |r| == |orders|
    ensures forall i :: 0 <= i < |orders| ==>
              r[i] == if orders[i].id == orderId then orders[i].(status := status) else orders[i]
  {
    if orders == [] then []
    else
      var head := if orders[0].id == orderId then orders[0].(status := status) else orders[0];
      [head] + WithStatus(orders[1..], orderId, status)
  }

  lemma WithStatusUnknownId(orders: seq<Order>, orderId: int, status: string)
    requires forall i :: 0 <= i < |orders| ==> orders[i].id != orderId
    ensures WithStatus(orders, orderId, status) == orders
  {
  }

  /** Updating the same order to the same status twice is the same as once. */
  lemma WithStatusIdempotent(orders: seq<Order>, orderId: int, status: string)
    ensures WithStatus(WithStatus(orders, orderId, status), orderId, status) == WithStatus(orders, orderId, status)
  {
  }

  lemma {:induction false} OwnRevenueOfStatusChange(products: seq<Product>, orders: seq<Order>, orderId: int, status: string)
    ensures TotalRevenue(products, WithStatus(orders, orderId, status)) == TotalRevenue(products, orders)
  {
    if orders != [] {
      var r := WithStatus(orders, orderId, status);
      assert r[1..] == WithStatus(orders[1..], orderId, status);
      OwnRevenueOfStatusChange(products, orders[1..], orderId, status);
    }
  }

  /** A fetch reply: an array, or a value that is not one. */
  datatype Payload<T> = AnArray(values: seq<T>) | NotAnArray

  /** `user && user.id`: a signed-in user with a non-zero id. */
  predicate HasSeller(user: Option<SessionUser.User>) {
    user.Some? && user.value.id != 0
  }

  /**
   * What `fetchProducts`/`fetchOrders` set: the array received, or the
   * empty list on no user, a failed call or a reply that is not an array.
   */
  function Fetched<T>(user: Option<SessionUser.User>, reply: Outcome<Payload<T>>): (r: seq<T>)
    ensures r != [] ==> HasSeller(user) && reply == Returned(AnArray(r))
    ensures HasSeller(user) && reply.Returned? && reply.value.AnArray? ==> r == reply.value.values
  {
    if !HasSeller(user) then []
    else match reply
      case Returned(AnArray(values)) => values
      case _ => []
  }

  class DashboardState {
    var products: seq<Product>
    var orders: seq<Order>
    var loading: bool
    var ordersLoading: bool

    constructor()
      ensures products == [] && orders == [] && loading && ordersLoading
    {
      products := [];
      orders := [];
      loading := true;
      ordersLoading := true;
    }

    /** `fetchProducts`: the seller's products replace the list; it asks only with a signed-in seller. */
    method FetchProducts(user: Option<SessionUser.User>, reply: Outcome<Payload<Product>>) returns (asked: bool)
      modifies this
      ensures asked <==> HasSeller(user)
      ensures products == Fetched(user, reply)
      ensures orders == old(orders) && !loading && ordersLoading == old(ordersLoading)
    {
      loading := true;
      asked := HasSeller(user);
      products := Fetched(user, reply);
      loading := false;
    }

    /** `fetchOrders`: the seller's orders replace the list. */
    method FetchOrders(user: Option<SessionUser.User>, reply: Outcome<Payload<Order>>) returns (asked: bool)
      modifies this
      ensures asked <==> HasSeller(user)
      ensures orders == Fetched(user, reply)
      ensures products == old(products) && loading == old(loading) && !ordersLoading
    {
      ordersLoading := true;
      asked := HasSeller(user);
      orders := Fetched(user, reply);
      ordersLoading := false;
    }

    /**
     * `updateOrderStatus`: after the backend accepts, the order with that id
     * gets the new status locally. The failure path changes nothing. The
     * notification that follows is a call to an undefined `toast`, which
     * throws before either refresh, so no refetch is modelled.
     */
    method UpdateOrderStatus(orderId: int, newStatus: string, reply: Outcome<()>)
      modifies this
      ensures reply.Returned? ==> orders == WithStatus(old(orders), orderId, newStatus)
      ensures reply.Threw? ==> orders == old(orders)
      ensures products == old(products) && loading == old(loading) && ordersLoading == old(ordersLoading)
    {
      if reply.Returned? {
        orders := WithStatus(orders, orderId, newStatus);
      }
    }
  }
}
