/** The mock order service (src/services/mock/MockOrderService.js): orders of every
    user in one table, each tagged with its owner's id; the current user is the
    stored user projection, reachable only with a valid token. */
module OrderService {
  import opened Common
  import opened Json
  import opened Seqs
  import opened Entities
  import opened Storage
  import opened Session
  import opened MockData

  const AUTH_REQUIRED := "Authentication required"
  const USER_NOT_FOUND := "User not found"
  const ORDER_NOT_FOUND := "Order not found"
  const CART_EMPTY := "Cart is empty"
  const CANNOT_CANCEL := "Order cannot be cancelled"
  const ORDER_CREATED := "Order created successfully"
  const ORDER_CANCELLED := "Order cancelled successfully"

  /** The fixed price every ordered unit is charged, 25.99, in cents. */
  const MOCK_PRICE := 2599
  /** Delivery is estimated two days after the order, in milliseconds. */
  const DELIVERY_WINDOW := 2 * 24 * 60 * 60 * 1000

  datatype OrderList = OrderList(orders: seq<Order>, total: int)

  /** `getCurrentUser(token)`: the stored user projection, or None for a missing
      or invalid token. */
  function CurrentUser(slots: map<string, Slot>, token: Option<string>, now: int): (user: Option<Record>)
    ensures user.Some? <==> IsValidToken(token, now) && UserDataOf(slots).Some?
    ensures user.Some? ==> user == UserDataOf(slots)
  {
    if IsValidToken(token, now) then UserDataOf(slots) else None
  }

  /** `order.user_id === currentUser.id`. */
  predicate OwnedBy(o: Order, user: Record) {
    StrictEq(o.userId, Get(user, "id"))
  }

  // ---- getOrders ----

  /** The comparator `new Date(b.created_at) - new Date(a.created_at)` as "a may
      stand before b": newest first. */
  predicate NewerOrSame(a: Order, b: Order) {
    a.createdAt >= b.createdAt
  }

  lemma NewerOrSameIsTotalPreorder()
    ensures TotalPreorder(NewerOrSame)
  {
  }

  /** What getOrders selects, before sorting: the user's orders, and of those only
      the ones with the requested status when a status is given. */
  predicate Listed(o: Order, user: Record, status: string) {
    OwnedBy(o, user) && (status == "" || o.status == status)
  }

  function Selected(orders: seq<Order>, user: Record, status: string): seq<Order> {
    var owned := Filter(orders, (o: Order) => OwnedBy(o, user));
    if status == "" then owned else Filter(owned, (o: Order) => o.status == status)
  }

  /** The orders getOrders answers with. */
  function ListOrders(orders: seq<Order>, user: Record, status: string): seq<Order> {
    SortBy(NewerOrSame, Selected(orders, user, status))
  }

  /** The list holds exactly the stored orders that belong to the user and carry
      the requested status (any status when none is requested). */
  lemma ListOrdersMembers(orders: seq<Order>, user: Record, status: string, o: Order)
    ensures o in ListOrders(orders, user, status) <==> o in orders && Listed(o, user, status)
  {
    var owned := Filter(orders, (o: Order) => OwnedBy(o, user));
    SortByMembers(NewerOrSame, Selected(orders, user, status), o);
    if o in orders && OwnedBy(o, user) {
      FilterKeeps(orders, (o: Order) => OwnedBy(o, user), o);
      if status != "" && o.status == status {
        FilterKeeps(owned, (o: Order) => o.status == status, o);
      }
    }
  }

  /** The list is newest first, lists each selected order as often as it is
      stored, and its total is its length. */
  lemma ListOrdersSortedPermutation(orders: seq<Order>, user: Record, status: string)
    ensures SortedBy(NewerOrSame, ListOrders(orders, user, status))
    ensures multiset(ListOrders(orders, user, status)) == multiset(Filter(orders, (o: Order) => Listed(o, user, status)))
    ensures |ListOrders(orders, user, status)| <= |orders|
  {
    NewerOrSameIsTotalPreorder();
    SortBySorted(NewerOrSame, Selected(orders, user, status));
    var owned := (o: Order) => OwnedBy(o, user);
    var listed := (o: Order) => Listed(o, user, status);
    if status == "" {
      FilterExt(orders, owned, listed);
    } else {
      FilterTwice(orders, owned, (o: Order) => o.status == status, listed);
    }
  }

  // ---- getOrderById and cancelOrder ----

  /** `allOrders.findIndex(order => order.id === orderId && order.user_id === currentUser.id)`. */
  function OrderIndex(orders: seq<Order>, user: Record, orderId: string): (r: Option<nat>)
    ensures r.Some? ==> r.value < |orders| && orders[r.value].id == orderId && OwnedBy(orders[r.value], user)
    ensures r.Some? ==> forall j :: 0 <= j < r.value ==> !(orders[j].id == orderId && OwnedBy(orders[j], user))
    ensures r.None? <==> forall j :: 0 <= j < |orders| ==> !(orders[j].id == orderId && OwnedBy(orders[j], user))
  {
    FindIndex(orders, (o: Order) => o.id == orderId && OwnedBy(o, user))
  }

  /** What getOrderById answers for a signed-in user: another user's order is
      reported as not found, exactly like a missing one. */
  function OrderById(orders: seq<Order>, user: Record, orderId: string): (r: Response<Order>)
    ensures r.Ok? ==> r.data in orders && r.data.id == orderId && OwnedBy(r.data, user)
    ensures r.Err? <==> forall o :: o in orders ==> !(o.id == orderId && OwnedBy(o, user))
    ensures r.Err? ==> r.message == ORDER_NOT_FOUND
    ensures forall i ::
      (&& 0 <= i < |orders| && orders[i].id == orderId && OwnedBy(orders[i], user)
       && forall j :: 0 <= j < i ==> !(orders[j].id == orderId && OwnedBy(orders[j], user)))
      ==> r == Ok("", orders[i])
  {
    match OrderIndex(orders, user, orderId)
      case None => Err(ORDER_NOT_FOUND)
      case Some(i) => Ok("", orders[i])
  }

  /** Delivered and cancelled orders can no longer be cancelled. */
  predicate Cancellable(o: Order) {
    o.status != DELIVERED && o.status != CANCELLED
  }

  /** What cancelOrder answers and the table it leaves, for a signed-in user. */
  function CancelOutcome(orders: seq<Order>, user: Record, orderId: string, now: int)
    : (r: (Response<Order>, seq<Order>))
    ensures r.0.Err? ==> r.1 == orders
  {
    match OrderIndex(orders, user, orderId)
      case None => (Err(ORDER_NOT_FOUND), orders)
      case Some(i) =>
        if !Cancellable(orders[i]) then (Err(CANNOT_CANCEL), orders)
        else
          var cancelled := orders[i].(status := CANCELLED, updatedAt := now);
          (Ok(ORDER_CANCELLED, cancelled), orders[i := cancelled])
  }

  /** cancelOrder succeeds exactly for the user's own order that is neither
      delivered nor cancelled; it then changes that order's status and time only,
      and no other order. */
  lemma CancelIff(orders: seq<Order>, user: Record, orderId: string, now: int)
    ensures var r := CancelOutcome(orders, user, orderId, now);
      && (r.0.Ok? <==> OrderIndex(orders, user, orderId).Some? && Cancellable(orders[OrderIndex(orders, user, orderId).value]))
      && (OrderIndex(orders, user, orderId).None? ==> r.0 == Err(ORDER_NOT_FOUND))
      && (r.0.Ok? ==>
            var i := OrderIndex(orders, user, orderId).value;
            && |r.1| == |orders|
            && r.1[i] == orders[i].(status := CANCELLED, updatedAt := now)
            && r.0.data == r.1[i]
            && forall j :: 0 <= j < |orders| && j != i ==> r.1[j] == orders[j])
  {
  }

  /** Cancelling is not repeatable: right after a successful cancel, the same
      request is refused as not cancellable. */
  lemma CancelTwiceFails(orders: seq<Order>, user: Record, orderId: string, now: int, later: int)
    requires CancelOutcome(orders, user, orderId, now).0.Ok?
    ensures CancelOutcome(CancelOutcome(orders, user, orderId, now).1, user, orderId, later).0 == Err(CANNOT_CANCEL)
  {
    var i := OrderIndex(orders, user, orderId).value;
    var after := CancelOutcome(orders, user, orderId, now).1;
    assert forall j :: 0 <= j < |orders| ==> (after[j].id == orders[j].id && after[j].userId == orders[j].userId);
    assert OrderIndex(after, user, orderId) == Some(i);
  }

  // ---- createOrder ----

  /** The order line made from one cart row, at the fixed price. */
  function OrderItemFor(row: CartItem): OrderItem {
    OrderItem(row.medicineId, row.quantity, MOCK_PRICE, MOCK_PRICE * row.quantity)
  }

  /** `cartItems.map(...)`: one order line per cart row, in order. */
  function OrderItemsOf(rows: seq<CartItem>): (items: seq<OrderItem>)
    ensures |items| == |rows|
    ensures forall k :: 0 <= k < |rows| ==> items[k] == OrderItemFor(rows[k])
    decreases |rows|
  {
    if rows == [] then [] else OrderItemsOf(rows[..|rows| - 1]) + [OrderItemFor(rows[|rows| - 1])]
  }

  /** The sum of the lines' total prices. */
  function ItemsTotal(items: seq<OrderItem>): int
    decreases |items|
  {
    if items == [] then 0 else ItemsTotal(items[..|items| - 1]) + items[|items| - 1].totalPrice
  }

  /** The number of units in the cart. */
  function Units(rows: seq<CartItem>): int
    decreases |rows|
  {
    if rows == [] then 0 else Units(rows[..|rows| - 1]) + rows[|rows| - 1].quantity
  }

  /** The order's total is the fixed price times the number of units ordered. */
  lemma {:induction false} ItemsTotalIsPriceTimesUnits(rows: seq<CartItem>)
    ensures ItemsTotal(OrderItemsOf(rows)) == MOCK_PRICE * Units(rows)
    decreases |rows|
  {
    if rows != [] {
      var init := rows[..|rows| - 1];
      ItemsTotalIsPriceTimesUnits(init);
      var items := OrderItemsOf(rows);
      assert items[..|items| - 1] == OrderItemsOf(init);
    }
  }

  /** One more cart row adds its order line, and that line's price to the total. */
  lemma OrderItemsStep(rows: seq<CartItem>, i: int)
    requires 0 <= i < |rows|
    ensures OrderItemsOf(rows[..i + 1]) == OrderItemsOf(rows[..i]) + [OrderItemFor(rows[i])]
    ensures ItemsTotal(OrderItemsOf(rows[..i + 1])) == ItemsTotal(OrderItemsOf(rows[..i])) + OrderItemFor(rows[i]).totalPrice
  {
    assert rows[..i + 1][..i] == rows[..i];
    var items := OrderItemsOf(rows[..i + 1]);
    assert items[..|items| - 1] == OrderItemsOf(rows[..i]);
  }

  /** The pass of createOrder over the cart: one line per row at the fixed price,
      and the running total, which comes to the fixed price times the units. */
  method PriceCart(cartItems: seq<CartItem>) returns (orderItems: seq<OrderItem>, totalAmount: int)
    ensures orderItems == OrderItemsOf(cartItems)
    ensures totalAmount == ItemsTotal(orderItems) == MOCK_PRICE * Units(cartItems)
  {
    totalAmount := 0;
    orderItems := [];
    var i := 0;
    while i < |cartItems|
      invariant 0 <= i <= |cartItems|
      invariant orderItems == OrderItemsOf(cartItems[..i])
      invariant totalAmount == ItemsTotal(orderItems)
    {
      var item := OrderItem(cartItems[i].medicineId, cartItems[i].quantity, MOCK_PRICE, MOCK_PRICE * cartItems[i].quantity);
      OrderItemsStep(cartItems, i);
      totalAmount := totalAmount + item.totalPrice;
      orderItems := orderItems + [item];
      i := i + 1;
    }
    assert cartItems[..i] == cartItems;
    ItemsTotalIsPriceTimesUnits(cartItems);
  }

  /** The order createOrder stores, given the generated id and the time. */
  function NewOrder(user: Record, orderData: Record, rows: seq<CartItem>, newId: string, now: int): (o: Order)
    ensures o.items == OrderItemsOf(rows)
  {
    var items := OrderItemsOf(rows);
    Order(
      id := "order_" + newId,
      userId := Get(user, "id"),
      status := PENDING,
      items := items,
      totalAmount := ItemsTotal(items),
      deliveryAddress := Or(Get(orderData, "delivery_address"), Get(user, "address")),
      paymentMethod := Or(Get(orderData, "payment_method"), Some(Str(CREDIT_CARD))),
      notes := Or(Get(orderData, "notes"), Some(Str(""))),
      createdAt := now,
      updatedAt := now,
      estimatedDelivery := now + DELIVERY_WINDOW)
  }

  /** A new order is pending, owned by the user (whose id is a primitive), priced
      at the fixed price per unit, due two days later, and takes the delivery
      address, payment method and notes from the request when they are truthy,
      falling back to the user's address, a credit card and no notes. */
  lemma NewOrderShape(user: Record, orderData: Record, rows: seq<CartItem>, newId: string, now: int)
    ensures var o := NewOrder(user, orderData, rows, newId, now);
      && o.status == PENDING && Cancellable(o)
      && o.id == "order_" + newId
      && |o.items| == |rows|
      && (forall k :: 0 <= k < |rows| ==>
            o.items[k].medicineId == rows[k].medicineId && o.items[k].quantity == rows[k].quantity
            && o.items[k].unitPrice == MOCK_PRICE)
      && o.totalAmount == MOCK_PRICE * Units(rows)
      && o.createdAt == now && o.estimatedDelivery == now + DELIVERY_WINDOW
      && (Truthy(Get(orderData, "delivery_address")) ==> o.deliveryAddress == Get(orderData, "delivery_address"))
      && (!Truthy(Get(orderData, "delivery_address")) ==> o.deliveryAddress == Get(user, "address"))
      && (!Truthy(Get(orderData, "payment_method")) ==> o.paymentMethod == Some(Str(CREDIT_CARD)))
      && (!Truthy(Get(orderData, "notes")) ==> o.notes == Some(Str("")))
  {
    ItemsTotalIsPriceTimesUnits(rows);
  }

  /** An order just created is listed for its user with no status filter, and
      with the 'pending' filter, provided the user's id is not an object. */
  lemma CreatedOrderIsListed(orders: seq<Order>, user: Record, orderData: Record, rows: seq<CartItem>,
                             newId: string, now: int)
    requires Get(user, "id").None? || !(Get(user, "id").value.Arr? || Get(user, "id").value.Obj?)
    ensures NewOrder(user, orderData, rows, newId, now) in ListOrders(orders + [NewOrder(user, orderData, rows, newId, now)], user, "")
    ensures NewOrder(user, orderData, rows, newId, now) in ListOrders(orders + [NewOrder(user, orderData, rows, newId, now)], user, PENDING)
  {
    var o := NewOrder(user, orderData, rows, newId, now);
    ListOrdersMembers(orders + [o], user, "", o);
    ListOrdersMembers(orders + [o], user, PENDING, o);
  }

  // ---- the service ----

  class MockOrderService {
    const storage: LocalStorage

    /** The constructor's `initializeMockOrders`: an empty (or unreadable) order
        table is written as an empty one; a non-empty one is left alone. */
    constructor (storage: LocalStorage)
      modifies storage
      ensures this.storage == storage
      ensures OrdersOf(old(storage.slots)) == [] ==>
        storage.slots == old(storage.slots)[MOCK_ORDERS := Stored(OrderTable([]))]
      ensures OrdersOf(old(storage.slots)) != [] ==> storage.slots == old(storage.slots)
    {
      this.storage := storage;
      var existing := OrdersOf(storage.slots);
      if |existing| == 0 {
        var _ := storage.SetItem(MOCK_ORDERS, OrderTable([]));
      }
    }

    /** `getOrders(token, {status})`, with an empty status for none. */
    method GetOrders(token: Option<string>, status: string, now: int) returns (r: Response<OrderList>)
      ensures !IsValidToken(token, now) ==> r == Err(AUTH_REQUIRED)
      ensures IsValidToken(token, now) && UserDataOf(storage.slots).None? ==> r == Err(USER_NOT_FOUND)
      ensures r.Ok? <==> CurrentUser(storage.slots, token, now).Some?
      ensures r.Ok? ==>
        && r.data.orders == ListOrders(OrdersOf(storage.slots), CurrentUser(storage.slots, token, now).value, status)
        && r.data.total == |r.data.orders|
    {
      if !IsValidToken(token, now) {
        return Err(AUTH_REQUIRED);
      }
      var currentUser := CurrentUser(storage.slots, token, now);
      if currentUser.None? {
        return Err(USER_NOT_FOUND);
      }
      var user := currentUser.value;
      var allOrders := OrdersOf(storage.slots);
      var filtered := Filter(allOrders, (o: Order) => OwnedBy(o, user));
      if status != "" {
        filtered := Filter(filtered, (o: Order) => o.status == status);
      }
      filtered := SortBy(NewerOrSame, filtered);
      r := Ok("", OrderList(filtered, |filtered|));
    }

    /** `getOrderById(token, orderId)`. */
    method GetOrderById(token: Option<string>, orderId: string, now: int) returns (r: Response<Order>)
      ensures !IsValidToken(token, now) ==> r == Err(AUTH_REQUIRED)
      ensures IsValidToken(token, now) && UserDataOf(storage.slots).None? ==> r == Err(USER_NOT_FOUND)
      ensures CurrentUser(storage.slots, token, now).Some? ==>
        r == OrderById(OrdersOf(storage.slots), CurrentUser(storage.slots, token, now).value, orderId)
    {
      if !IsValidToken(token, now) {
        return Err(AUTH_REQUIRED);
      }
      var currentUser := CurrentUser(storage.slots, token, now);
      if currentUser.None? {
        return Err(USER_NOT_FOUND);
      }
      r := OrderById(OrdersOf(storage.slots), currentUser.value, orderId);
    }

    /** `createOrder(token, orderData)`, with the generated id and the time given:
        prices the cart's rows one by one, appends the order and empties the cart. */
    method CreateOrder(token: Option<string>, orderData: Record, newId: string, now: int)
      returns (r: Response<Order>)
      modifies storage
      ensures !IsValidToken(token, now) ==> r == Err(AUTH_REQUIRED)
      ensures IsValidToken(token, now) && UserDataOf(old(storage.slots)).None? ==> r == Err(USER_NOT_FOUND)
      ensures CurrentUser(old(storage.slots), token, now).Some? && CartOf(old(storage.slots)) == [] ==>
        r == Err(CART_EMPTY)
      ensures r.Err? ==> storage.slots == old(storage.slots)
      ensures r.Ok? <==> CurrentUser(old(storage.slots), token, now).Some? && CartOf(old(storage.slots)) != []
      ensures r.Ok? ==>
        && r == Ok(ORDER_CREATED, NewOrder(CurrentUser(old(storage.slots), token, now).value, orderData,
                                           CartOf(old(storage.slots)), newId, now))
        && storage.slots == old(storage.slots)
             [MOCK_ORDERS := Stored(OrderTable(OrdersOf(old(storage.slots)) + [r.data]))]
             [CART_ITEMS := Stored(CartRows([]))]
    {
      if !IsValidToken(token, now) {
        return Err(AUTH_REQUIRED);
      }
      var currentUser := CurrentUser(storage.slots, token, now);
      if currentUser.None? {
        return Err(USER_NOT_FOUND);
      }
      var user := currentUser.value;
      var cartItems := CartOf(storage.slots);
      if |cartItems| == 0 {
        return Err(CART_EMPTY);
      }
      var orderItems, totalAmount := PriceCart(cartItems);
      var newOrder := Order(
        id := "order_" + newId,
        userId := Get(user, "id"),
        status := PENDING,
        items := orderItems,
        totalAmount := totalAmount,
        deliveryAddress := Or(Get(orderData, "delivery_address"), Get(user, "address")),
        paymentMethod := Or(Get(orderData, "payment_method"), Some(Str(CREDIT_CARD))),
        notes := Or(Get(orderData, "notes"), Some(Str(""))),
        createdAt := now,
        updatedAt := now,
        estimatedDelivery := now + DELIVERY_WINDOW);
      var allOrders := OrdersOf(storage.slots);
      var _ := storage.SetItem(MOCK_ORDERS, OrderTable(allOrders + [newOrder]));
      var _ := storage.SetItem(CART_ITEMS, CartRows([]));
      r := Ok(ORDER_CREATED, newOrder);
    }

    /** `cancelOrder(token, orderId)`. The table is written only on success. */
    method CancelOrder(token: Option<string>, orderId: string, now: int) returns (r: Response<Order>)
      modifies storage
      ensures !IsValidToken(token, now) ==> r == Err(AUTH_REQUIRED)
      ensures IsValidToken(token, now) && UserDataOf(old(storage.slots)).None? ==> r == Err(USER_NOT_FOUND)
      ensures CurrentUser(old(storage.slots), token, now).Some? ==>
        r == CancelOutcome(OrdersOf(old(storage.slots)), CurrentUser(old(storage.slots), token, now).value, orderId, now).0
      ensures r.Ok? ==>
        storage.slots == old(storage.slots)[MOCK_ORDERS := Stored(OrderTable(
          CancelOutcome(OrdersOf(old(storage.slots)), CurrentUser(old(storage.slots), token, now).value, orderId, now).1))]
      ensures r.Err? ==> storage.slots == old(storage.slots)
    {
      if !IsValidToken(token, now) {
        return Err(AUTH_REQUIRED);
      }
      var currentUser := CurrentUser(storage.slots, token, now);
      if currentUser.None? {
        return Err(USER_NOT_FOUND);
      }
      var user := currentUser.value;
      var allOrders := OrdersOf(storage.slots);
      var orderIndex := OrderIndex(allOrders, user, orderId);
      if orderIndex.None? {
        return Err(ORDER_NOT_FOUND);
      }
      var i := orderIndex.value;
      var order := allOrders[i];
      if order.status == DELIVERED || order.status == CANCELLED {
        return Err(CANNOT_CANCEL);
      }
      allOrders := allOrders[i := order.(status := CANCELLED, updatedAt := now)];
      var _ := storage.SetItem(MOCK_ORDERS, OrderTable(allOrders));
      r := Ok(ORDER_CANCELLED, allOrders[i]);
    }
  }
}
