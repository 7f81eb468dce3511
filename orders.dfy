/**
 * The order handlers (backend/handlers/orders.go): placing an order
 * (pricing, stock check, stock decrement, payment initiation), listing and
 * reading orders, the admin status update, cancellation, the receipt guard
 * and the public tracking timeline.
 */
module Orders {
  import opened Wrappers
  import opened Models
  import opened Http
  import opened Store
  import Text
  import Seqs
  import Paging
  import PaymentService

  const FlatShipping := 200.0
  const VatRate := 0.16
  const OrderDelivered := "delivered"
  const OrderCancelled := "cancelled"
  const OrderNotFound := NotFound("Order not found")
  const PaymentInitFailed := ServerError("Failed to initiate payment")

  datatype ItemRequest = ItemRequest(productId: Id, quantity: int)

  datatype CreateOrderRequest = CreateOrderRequest(
    items: seq<ItemRequest>, shippingAddress: Address, billingAddress: Address,
    paymentMethod: string, phoneNumber: string, notes: string)

  /** The `validate` tags of CreateOrderRequest, OrderItemRequest and Address. */
  predicate ValidCreateRequest(req: CreateOrderRequest)
  {
    (forall i :: 0 <= i < |req.items| ==> req.items[i].productId != 0 && req.items[i].quantity >= 1) &&
    AddressComplete(req.shippingAddress) && AddressComplete(req.billingAddress) &&
    (req.paymentMethod == PaymentService.MethodMpesa || req.paymentMethod == PaymentService.MethodAirtel) &&
    req.phoneNumber != ""
  }

  /** The item loop's verdict on one line, against the stock as it stood before the order. */
  function LineError(products: seq<Product>, item: ItemRequest): Option<Status>
  {
    match ProductIndex(products, item.productId)
    case None => Some(BadRequest("Product " + Text.NatToDecimal(item.productId) + " not found"))
    case Some(k) =>
      if products[k].stock < item.quantity then Some(BadRequest("Insufficient stock for product " + products[k].name))
      else None
  }

  /** The check as written: every line, on its own, names a product whose stock covers that line. */
  predicate LinesInStock(products: seq<Product>, items: seq<ItemRequest>)
  {
    forall i :: 0 <= i < |items| ==> LineError(products, items[i]).None?
  }

  /** The reply of the first rejected line, in request order. */
  function FirstLineError(products: seq<Product>, items: seq<ItemRequest>): (r: Option<Status>)
    ensures r.None? <==> LinesInStock(products, items)
    ensures r.Some? ==> exists i :: 0 <= i < |items| && r == LineError(products, items[i])
  {
    if |items| == 0 then None
    else if LineError(products, items[0]).Some? then LineError(products, items[0])
    else
      var rest := FirstLineError(products, items[1..]);
      assert forall i :: 1 <= i < |items| ==> items[i] == items[1..][i - 1];
      rest
  }

  lemma {:induction false} FirstLineErrorAt(products: seq<Product>, items: seq<ItemRequest>, k: nat)
    requires k < |items| && LineError(products, items[k]).Some?
    requires forall j :: 0 <= j < k ==> LineError(products, items[j]).None?
    ensures FirstLineError(products, items) == LineError(products, items[k])
  {
    if k > 0 {
      FirstLineErrorAt(products, items[1..], k - 1);
    }
  }

  /** A request whose every line passes has no rejected line. */
  lemma NoLineError(products: seq<Product>, items: seq<ItemRequest>)
    requires LinesInStock(products, items)
    ensures FirstLineError(products, items) == None
  {
  }

  /** The order line a checked request line becomes: the product's current price and price × quantity. */
  function PriceLine(products: seq<Product>, item: ItemRequest): (r: OrderItem)
    requires LineError(products, item).None?
    ensures r.productId == item.productId && r.quantity == item.quantity
    ensures ProductIndex(products, item.productId).Some? && r.price == products[ProductIndex(products, item.productId).value].price
    ensures r.total == r.price * item.quantity as real
  {
    var p := products[ProductIndex(products, item.productId).value];
    OrderItem(item.productId, item.quantity, p.price, p.price * item.quantity as real)
  }

  function PriceLines(products: seq<Product>, items: seq<ItemRequest>): (r: seq<OrderItem>)
    requires LinesInStock(products, items)
    ensures |r| == |items|
    ensures forall i :: 0 <= i < |items| ==> r[i] == PriceLine(products, items[i])
    decreases |items|
  {
    if |items| == 0 then []
    else PriceLines(products, items[..|items| - 1]) + [PriceLine(products, items[|items| - 1])]
  }

  function LineAmount(it: OrderItem): real
  {
    it.total
  }

  function Subtotal(lines: seq<OrderItem>): real
  {
    Seqs.Sum(lines, LineAmount)
  }

  /** One more priced line keeps the loop's record of the lines priced so far. */
  lemma PricedSnoc(products: seq<Product>, items: seq<ItemRequest>, k: nat, lines: seq<OrderItem>, line: OrderItem)
    requires k < |items| && LineError(products, items[k]).None? && line == PriceLine(products, items[k])
    requires forall j :: 0 <= j < k ==> LineError(products, items[j]).None?
    requires |lines| == k && forall j :: 0 <= j < k ==> lines[j] == PriceLine(products, items[j])
    ensures forall j :: 0 <= j < k + 1 ==> LineError(products, items[j]).None?
    ensures forall j :: 0 <= j < k + 1 ==> (lines + [line])[j] == PriceLine(products, items[j])
  {
  }

  lemma SubtotalSnoc(lines: seq<OrderItem>, line: OrderItem)
    ensures Subtotal(lines + [line]) == Subtotal(lines) + line.total
  {
    Seqs.SumAppend(lines, [line], LineAmount);
    assert Seqs.Sum([line], LineAmount) == line.total;
  }

  /** With non-negative prices and quantities the tax is non-negative and the total at least the shipping fee. */
  lemma {:induction false} TotalsBounded(lines: seq<OrderItem>)
    requires forall i :: 0 <= i < |lines| ==> lines[i].total >= 0.0
    ensures Subtotal(lines) >= 0.0
    ensures VatRate * Subtotal(lines) >= 0.0
    ensures Subtotal(lines) + FlatShipping + VatRate * Subtotal(lines) >= FlatShipping
  {
    Seqs.SumNonNegative(lines, LineAmount);
  }

  /**
   * The intended check: for every product, its stock covers the total
   * quantity of all lines naming it.
   */
  predicate DemandCovered(products: seq<Product>, lines: seq<OrderItem>)
  {
    forall i :: 0 <= i < |products| ==> products[i].stock >= Demand(lines, products[i].id)
  }

  /** Decrementing the lines keeps every stock non-negative exactly when the demand is covered. */
  lemma {:induction false} CoveredDemandKeepsStock(products: seq<Product>, lines: seq<OrderItem>)
    ensures StockNonNegative(ApplyItems(products, lines, -1)) <==> DemandCovered(products, lines)
  {
    ApplyItemsStock(products, lines, -1);
  }

  /** The per-line check lets two lines of 5 through against a stock of 6, which then ends at -4. */
  lemma DuplicateLinesOversell()
    ensures var products := [Product(1, "Maize flour", "", 150.0, "grains", "", "MF-1", 6, ProductActive,
                                      2.0, "", "", 0.0, 0, false, 0.0, false)];
      var items := [ItemRequest(1, 5), ItemRequest(1, 5)];
      LinesInStock(products, items) &&
      ApplyItems(products, PriceLines(products, items), -1)[0].stock == -4
  {
    var products := [Product(1, "Maize flour", "", 150.0, "grains", "", "MF-1", 6, ProductActive,
                              2.0, "", "", 0.0, 0, false, 0.0, false)];
    var items := [ItemRequest(1, 5), ItemRequest(1, 5)];
    assert ProductIndex(products, 1) == Some(0);
    assert LinesInStock(products, items);
    var lines := PriceLines(products, items);
    ApplyItemsStock(products, lines, -1);
    assert lines[0].productId == 1 && lines[0].quantity == 5;
    assert lines[1].productId == 1 && lines[1].quantity == 5;
    assert lines[1..][1..] == [];
    assert Demand(lines[1..][1..], 1) == 0;
    assert Demand(lines[1..], 1) == 5;
    assert Demand(lines, 1) == 10;
  }

  /**
   * CreateOrder. An invalid body, or the first line whose product is
   * missing or short, is rejected with nothing written. Otherwise the order
   * is stored pending, each line's quantity is taken off its product's
   * stock, and the payment is initiated; a failed initiation answers 500
   * but keeps the order and the stock change.
   */
  method CreateOrder(db: Database, userId: Id, req: CreateOrderRequest, uuidPrefix: string,
                     mpesa: PaymentService.MPesaOutcome, now: nat)
    returns (st: Status, order: Option<Order>, payment: Option<Payment>)
    modifies db`orders, db`products, db`payments, db`nextId
    ensures !ValidCreateRequest(req) ==> st == InvalidRequest && order.None? && unchanged(db)
    ensures ValidCreateRequest(req) && !LinesInStock(old(db.products), req.items) ==>
      st == FirstLineError(old(db.products), req.items).value && order.None? && unchanged(db)
    ensures ValidCreateRequest(req) && LinesInStock(old(db.products), req.items) ==>
      order.Some? &&
      var o := order.value;
      db.orders == old(db.orders) + [o] &&
      o.id == old(db.nextId) && o.userId == userId && o.orderNumber == "ORD-" + uuidPrefix &&
      o.status == StatusPending && o.paymentStatus == StatusPending && o.paymentMethod == req.paymentMethod &&
      o.items == PriceLines(old(db.products), req.items) &&
      o.shippingAmount == FlatShipping && o.taxAmount == VatRate * Subtotal(o.items) &&
      o.totalAmount == Subtotal(o.items) + FlatShipping + o.taxAmount &&
      o.shippingAddress == req.shippingAddress && o.billingAddress == req.billingAddress &&
      o.notes == req.notes && o.trackingNumber == "" && o.deliveredAt.None? &&
      db.products == ApplyItems(old(db.products), o.items, -1) &&
      (DemandCovered(old(db.products), o.items) ==> StockNonNegative(db.products)) &&
      |db.payments| == |old(db.payments)| + 1 && db.payments[..|old(db.payments)|] == old(db.payments) &&
      db.payments[|old(db.payments)|].orderId == o.id && db.payments[|old(db.payments)|].amount == o.totalAmount &&
      (st == Created("Order created successfully") <==> (req.paymentMethod == PaymentService.MethodAirtel || mpesa.StkAccepted?)) &&
      (st != Created("Order created successfully") ==> st == PaymentInitFailed && payment.None?)
  {
    if !ValidCreateRequest(req) {
      return InvalidRequest, None, None;
    }
    var err, lines, subtotal := PriceItems(db.products, req.items);
    if err.Some? {
      return err.value, None, None;
    }
    var tax := subtotal * VatRate;
    var total := subtotal + FlatShipping + tax;
    var o := Order(db.nextId, userId, "ORD-" + uuidPrefix, StatusPending, StatusPending, req.paymentMethod, "",
                   total, FlatShipping, tax, lines, req.shippingAddress, req.billingAddress, "", None, req.notes);
    order := Some(o);
    st, payment := PlaceOrder(db, o, req.phoneNumber, mpesa, now);
  }

  /**
   * The writes of CreateOrder once the order is priced: the order row, the
   * stock decrement of each line, then the payment step.
   */
  method PlaceOrder(db: Database, o: Order, phone: string, mpesa: PaymentService.MPesaOutcome, now: nat)
    returns (st: Status, payment: Option<Payment>)
    requires o.id == db.nextId
    requires o.paymentMethod == PaymentService.MethodMpesa || o.paymentMethod == PaymentService.MethodAirtel
    modifies db`orders, db`products, db`payments, db`nextId
    ensures db.orders == old(db.orders) + [o]
    ensures db.products == ApplyItems(old(db.products), o.items, -1)
    ensures DemandCovered(old(db.products), o.items) ==> StockNonNegative(db.products)
    ensures |db.payments| == |old(db.payments)| + 1 && db.payments[..|old(db.payments)|] == old(db.payments)
    ensures db.payments[|old(db.payments)|].orderId == o.id && db.payments[|old(db.payments)|].amount == o.totalAmount
    ensures st == Created("Order created successfully") <==> (o.paymentMethod == PaymentService.MethodAirtel || mpesa.StkAccepted?)
    ensures st != Created("Order created successfully") ==> st == PaymentInitFailed && payment.None?
  {
    db.orders := db.orders + [o];
    db.nextId := db.nextId + 1;
    ghost var before := db.products;
    UpdateStockPerLine(db, o.items, -1);
    CoveredDemandKeepsStock(before, o.items);
    var started;
    started, payment := InitiatePayment(db, o.id, o.paymentMethod, phone, o.totalAmount, mpesa, now);
    st := if started then Created("Order created successfully") else PaymentInitFailed;
  }

  /**
   * The item loop of CreateOrder: the reply of the first rejected line, or
   * the priced lines and their subtotal.
   */
  method PriceItems(products: seq<Product>, items: seq<ItemRequest>)
    returns (err: Option<Status>, lines: seq<OrderItem>, subtotal: real)
    ensures err == FirstLineError(products, items)
    ensures err.None? ==> lines == PriceLines(products, items) && subtotal == Subtotal(lines)
  {
    subtotal := 0.0;
    lines := [];
    var k := 0;
    while k < |items|
      invariant 0 <= k <= |items|
      invariant forall j :: 0 <= j < k ==> LineError(products, items[j]).None?
      invariant |lines| == k && forall j :: 0 <= j < k ==> lines[j] == PriceLine(products, items[j])
      invariant subtotal == Subtotal(lines)
    {
      var e, line := PriceOne(products, items[k]);
      if e.Some? {
        FirstLineErrorAt(products, items, k);
        return e, [], 0.0;
      }
      SubtotalSnoc(lines, line);
      PricedSnoc(products, items, k, lines, line);
      lines, subtotal := lines + [line], subtotal + line.total;
      k := k + 1;
    }
    NoLineError(products, items);
    return None, lines, subtotal;
  }

  /** One pass of the item loop: the product lookup, the stock check, then the priced line. */
  method PriceOne(products: seq<Product>, item: ItemRequest) returns (err: Option<Status>, line: OrderItem)
    ensures err == LineError(products, item)
    ensures err.None? ==> line == PriceLine(products, item)
  {
    line := OrderItem(item.productId, item.quantity, 0.0, 0.0);
    var found := ProductIndex(products, item.productId);
    if found.None? {
      return Some(BadRequest("Product " + Text.NatToDecimal(item.productId) + " not found")), line;
    }
    var product := products[found.value];
    if product.stock < item.quantity {
      return Some(BadRequest("Insufficient stock for product " + product.name)), line;
    }
    var itemTotal := product.price * item.quantity as real;
    line := OrderItem(item.productId, item.quantity, product.price, itemTotal);
    err := None;
  }

  /** The provider switch of CreateOrder; only an M-Pesa provider step can fail. */
  method InitiatePayment(db: Database, orderId: Id, paymentMethod: string, phone: string, amount: real,
                         mpesa: PaymentService.MPesaOutcome, now: nat)
    returns (started: bool, payment: Option<Payment>)
    requires paymentMethod == PaymentService.MethodMpesa || paymentMethod == PaymentService.MethodAirtel
    modifies db`payments, db`nextId
    ensures started <==> (paymentMethod == PaymentService.MethodAirtel || mpesa.StkAccepted?)
    ensures !started ==> payment.None?
    ensures |db.payments| == |old(db.payments)| + 1 && db.payments[..|old(db.payments)|] == old(db.payments)
    ensures db.payments[|old(db.payments)|].orderId == orderId && db.payments[|old(db.payments)|].amount == amount
  {
    if paymentMethod == PaymentService.MethodMpesa {
      var err: Option<string>;
      payment, err := PaymentService.InitiateMPesaPayment(db, orderId, phone, amount, mpesa);
      started := err.None?;
    } else {
      var p := PaymentService.InitiateAirtelPayment(db, orderId, phone, amount, now);
      payment, started := Some(p), true;
    }
  }

  // ---------------------------------------------------------------- reading

  function IsAdmin(role: string): bool
  {
    role == RoleAdmin
  }

  /** The orders a caller may list: all for an admin, otherwise the caller's own; then the optional status filter. */
  function Listable(orders: seq<Order>, userId: Id, role: string, status: string): (r: seq<Order>)
    ensures forall i :: 0 <= i < |r| ==> r[i] in orders && (IsAdmin(role) || r[i].userId == userId) && (status == "" || r[i].status == status)
    ensures forall i :: 0 <= i < |orders| && (IsAdmin(role) || orders[i].userId == userId) && (status == "" || orders[i].status == status) ==> orders[i] in r
  {
    Seqs.Filter(orders, (o: Order) => (IsAdmin(role) || o.userId == userId) && (status == "" || o.status == status))
  }

  datatype OrderList = OrderList(orders: seq<Order>, page: int, limit: int, total: nat, pages: int)

  /**
   * GetOrders: page and limit default to 1 and 20, offset is (page-1)·limit,
   * rows come newest first (ids grow with `created_at`), and `pages` is
   * computed with a division that panics, answering 500, when the limit is 0.
   */
  function GetOrders(orders: seq<Order>, userId: Id, role: string, rawPage: Option<string>,
                     rawLimit: Option<string>, status: string): (r: Reply<OrderList>)
    ensures r.status.Ok? <==> Paging.QueryInt(rawLimit, 20) != 0
    ensures r.status.Ok? <==> r.body.Some?
    ensures r.body.Some? ==>
      var l := r.body.value;
      l.page == Paging.QueryInt(rawPage, 1) && l.limit == Paging.QueryInt(rawLimit, 20) &&
      l.total == |Listable(orders, userId, role, status)| &&
      l.orders == Paging.Window(Seqs.Reverse(Listable(orders, userId, role, status)), Paging.Offset(l.page, l.limit), l.limit) &&
      l.pages == Paging.PageCount(l.total, l.limit) &&
      (l.limit >= 0 ==> |l.orders| <= l.limit) &&
      (0 < l.limit && l.total + l.limit <= Paging.MaxInt64 ==> (l.pages - 1) * l.limit < l.total <= l.pages * l.limit) &&
      forall i :: 0 <= i < |l.orders| ==>
        l.orders[i] in orders && (IsAdmin(role) || l.orders[i].userId == userId) &&
        (status == "" || l.orders[i].status == status)
  {
    var page := Paging.QueryInt(rawPage, 1);
    var limit := Paging.QueryInt(rawLimit, 20);
    var matching := Listable(orders, userId, role, status);
    if limit == 0 then Reply(ServerError(""), None)
    else
      var rows := Paging.Window(Seqs.Reverse(matching), Paging.Offset(page, limit), limit);
      assert forall i :: 0 <= i < |rows| ==> rows[i] in matching;
      Paging.PageCountIsCeiling(|matching|, limit);
      Reply(Ok("orders"), Some(OrderList(rows, page, limit, |matching|, Paging.PageCount(|matching|, limit))))
  }

  /**
   * Every order the caller may list is reachable: asking for page
   * `i / limit + 1` with that limit shows the i-th newest of them, and that
   * page is one of the `pages` the reply counts.
   */
  lemma ListedOrderOnItsPage(orders: seq<Order>, userId: Id, role: string, status: string, limit: nat, i: nat)
    requires 0 < limit && i < |Listable(orders, userId, role, status)|
    requires |Listable(orders, userId, role, status)| + limit <= Paging.MaxInt64
    ensures var r := GetOrders(orders, userId, role, Some(Text.NatToDecimal(i / limit + 1)), Some(Text.NatToDecimal(limit)), status);
      r.status.Ok? && r.body.Some? && 1 <= r.body.value.page <= r.body.value.pages &&
      Seqs.Reverse(Listable(orders, userId, role, status))[i] in r.body.value.orders
  {
    var matching := Listable(orders, userId, role, status);
    var newest := Seqs.Reverse(matching);
    assert |newest| == |matching|;
    Paging.QueryIntOfDecimal(i / limit + 1, 1);
    Paging.QueryIntOfDecimal(limit, 20);
    Paging.RowOnItsPage(newest, limit, i);
  }

  /** `query.First(&order, id)` with the owner filter for non-admins. */
  function VisibleOrderIndex(orders: seq<Order>, id: Id, userId: Id, role: string): (r: Option<nat>)
    ensures r.Some? ==> r.value < |orders| && orders[r.value].id == id && (IsAdmin(role) || orders[r.value].userId == userId)
    ensures r.None? <==> forall i :: 0 <= i < |orders| ==> !(orders[i].id == id && (IsAdmin(role) || orders[i].userId == userId))
  {
    Seqs.FindFirst(orders, (o: Order) => o.id == id && (IsAdmin(role) || o.userId == userId))
  }

  /** GetOrder: the order, for its owner or an admin; anyone else gets not-found. */
  function GetOrder(orders: seq<Order>, id: Id, userId: Id, role: string): (r: Reply<Order>)
    ensures r.status.Ok? <==> r.body.Some?
    ensures r.body.Some? ==> r.body.value in orders && r.body.value.id == id && (IsAdmin(role) || r.body.value.userId == userId)
    ensures r.body.None? <==> (r.status == OrderNotFound &&
      forall i :: 0 <= i < |orders| ==> !(orders[i].id == id && (IsAdmin(role) || orders[i].userId == userId)))
  {
    match VisibleOrderIndex(orders, id, userId, role)
    case None => Reply(OrderNotFound, None)
    case Some(k) => Reply(Ok("order"), Some(orders[k]))
  }

  // ---------------------------------------------------------- status update

  datatype StatusUpdate = StatusUpdate(status: string, trackingNumber: string, notes: string)

  /** The `oneof` list of UpdateOrderStatusRequest.Status. */
  predicate OrderStatusAllowed(status: string)
  {
    status == "pending" || status == "confirmed" || status == "processing" ||
    status == "shipped" || status == OrderDelivered || status == OrderCancelled
  }

  /**
   * The field changes of UpdateOrderStatus: the status is replaced, tracking
   * number and notes only by non-empty values, and the delivery time is set
   * the first time the order is marked delivered and never again.
   */
  function ApplyStatusUpdate(o: Order, u: StatusUpdate, now: int): (r: Order)
    ensures r.status == u.status
    ensures r.trackingNumber == (if u.trackingNumber != "" then u.trackingNumber else o.trackingNumber)
    ensures r.notes == (if u.notes != "" then u.notes else o.notes)
    ensures o.deliveredAt.Some? ==> r.deliveredAt == o.deliveredAt
    ensures o.deliveredAt.None? ==> (r.deliveredAt.Some? <==> u.status == OrderDelivered)
    ensures r.deliveredAt.Some? && o.deliveredAt.None? ==> r.deliveredAt.value == now
    ensures r == o.(status := r.status, trackingNumber := r.trackingNumber, notes := r.notes, deliveredAt := r.deliveredAt)
  {
    var o1 := o.(status := u.status);
    var o2 := if u.trackingNumber != "" then o1.(trackingNumber := u.trackingNumber) else o1;
    var o3 := if u.notes != "" then o2.(notes := u.notes) else o2;
    if u.status == OrderDelivered && o3.deliveredAt.None? then o3.(deliveredAt := Some(now)) else o3
  }

  /** Repeating an update, at any later time, changes nothing more: in particular the first delivery time stays. */
  lemma StatusUpdateIdempotent(o: Order, u: StatusUpdate, t1: int, t2: int)
    ensures ApplyStatusUpdate(ApplyStatusUpdate(o, u, t1), u, t2) == ApplyStatusUpdate(o, u, t1)
  {
  }

  /** Once set, the delivery time survives every later update, whatever its status. */
  lemma {:induction false} DeliveredAtSetOnce(o: Order, updates: seq<StatusUpdate>, times: seq<int>)
    requires |updates| == |times|
    requires o.deliveredAt.Some?
    ensures ApplyAll(o, updates, times).deliveredAt == o.deliveredAt
    decreases |updates|
  {
    if |updates| > 0 {
      DeliveredAtSetOnce(ApplyStatusUpdate(o, updates[0], times[0]), updates[1..], times[1..]);
    }
  }

  function ApplyAll(o: Order, updates: seq<StatusUpdate>, times: seq<int>): Order
    requires |updates| == |times|
    decreases |updates|
  {
    if |updates| == 0 then o else ApplyAll(ApplyStatusUpdate(o, updates[0], times[0]), updates[1..], times[1..])
  }

  /** UpdateOrderStatus: a status outside the list, or an unknown order, changes nothing. */
  method UpdateOrderStatus(db: Database, id: Id, u: StatusUpdate, now: int) returns (st: Status, order: Option<Order>)
    modifies db`orders
    ensures !OrderStatusAllowed(u.status) ==> st == InvalidRequest && db.orders == old(db.orders)
    ensures OrderStatusAllowed(u.status) && OrderIndex(old(db.orders), id).None? ==>
      st == OrderNotFound && db.orders == old(db.orders)
    ensures OrderStatusAllowed(u.status) && OrderIndex(old(db.orders), id).Some? ==>
      var k := OrderIndex(old(db.orders), id).value;
      st == Ok("Order status updated successfully") &&
      db.orders == old(db.orders)[k := ApplyStatusUpdate(old(db.orders)[k], u, now)] &&
      order == Some(db.orders[k])
  {
    if !OrderStatusAllowed(u.status) {
      return InvalidRequest, None;
    }
    var k := OrderIndex(db.orders, id);
    if k.None? {
      return OrderNotFound, None;
    }
    var o := db.orders[k.value];
    o := o.(status := u.status);
    if u.trackingNumber != "" {
      o := o.(trackingNumber := u.trackingNumber);
    }
    if u.notes != "" {
      o := o.(notes := u.notes);
    }
    if u.status == OrderDelivered && o.deliveredAt.None? {
      o := o.(deliveredAt := Some(now));
    }
    db.orders := db.orders[k.value := o];
    return Ok("Order status updated successfully"), Some(o);
  }

  // ----------------------------------------------------------- cancellation

  predicate Cancellable(status: string)
  {
    status != OrderDelivered && status != OrderCancelled
  }

  /**
   * CancelOrder: refused for a delivered or already-cancelled order;
   * otherwise the order becomes cancelled and every line goes back into stock.
   */
  method CancelOrder(db: Database, id: Id, userId: Id, role: string) returns (st: Status)
    modifies db`orders, db`products
    ensures VisibleOrderIndex(old(db.orders), id, userId, role).None? ==>
      st == OrderNotFound && unchanged(db)
    ensures VisibleOrderIndex(old(db.orders), id, userId, role).Some? ==>
      var k := VisibleOrderIndex(old(db.orders), id, userId, role).value;
      var o := old(db.orders)[k];
      (!Cancellable(o.status) ==> st == BadRequest("Order cannot be cancelled") && unchanged(db)) &&
      (Cancellable(o.status) ==>
        st == Ok("Order cancelled successfully") &&
        db.orders == old(db.orders)[k := o.(status := OrderCancelled)] &&
        db.products == ApplyItems(old(db.products), o.items, 1))
  {
    var k := VisibleOrderIndex(db.orders, id, userId, role);
    if k.None? {
      return OrderNotFound;
    }
    var o := db.orders[k.value];
    if !Cancellable(o.status) {
      return BadRequest("Order cannot be cancelled");
    }
    db.orders := db.orders[k.value := o.(status := OrderCancelled)];
    UpdateStockPerLine(db, o.items, 1);
    return Ok("Order cancelled successfully");
  }

  // ---------------------------------------------------------------- receipt

  /**
   * GenerateReceipt's checks: the caller must see the order, it must be
   * delivered, and the PDF must render; the body is the download file name.
   */
  function GenerateReceipt(orders: seq<Order>, id: Id, userId: Id, role: string, pdfRendered: bool): (r: Reply<string>)
    ensures r.status.Ok? <==> (VisibleOrderIndex(orders, id, userId, role).Some? &&
      orders[VisibleOrderIndex(orders, id, userId, role).value].status == OrderDelivered && pdfRendered)
    ensures r.status.Ok? ==> r.body == Some("receipt-" + orders[VisibleOrderIndex(orders, id, userId, role).value].orderNumber + ".pdf")
    ensures (VisibleOrderIndex(orders, id, userId, role).Some? &&
      orders[VisibleOrderIndex(orders, id, userId, role).value].status != OrderDelivered) ==>
      r.status == BadRequest("Receipt can only be generated for delivered orders")
  {
    match VisibleOrderIndex(orders, id, userId, role)
    case None => Reply(OrderNotFound, None)
    case Some(k) =>
      if orders[k].status != OrderDelivered then Reply(BadRequest("Receipt can only be generated for delivered orders"), None)
      else if !pdfRendered then Reply(ServerError("Failed to generate receipt"), None)
      else Reply(Ok("receipt"), Some("receipt-" + orders[k].orderNumber + ".pdf"))
  }

  // --------------------------------------------------------------- tracking

  datatype Stage = Stage(status: string, title: string, completed: bool)

  /** The five stages of TrackOrder and whether each is completed for an order status. */
  function Timeline(status: string): (r: seq<Stage>)
    ensures |r| == 5 && r[0].completed
  {
    [ Stage("pending", "Order Placed", true),
      Stage("confirmed", "Order Confirmed", status != "pending"),
      Stage("processing", "Processing", status == "processing" || status == "shipped" || status == OrderDelivered),
      Stage("shipped", "Shipped", status == "shipped" || status == OrderDelivered),
      Stage(OrderDelivered, "Delivered", status == OrderDelivered) ]
  }

  /** A completed stage has every earlier stage completed. */
  lemma TimelineMonotone(status: string)
    ensures forall i, j :: 0 <= i < j < 5 && Timeline(status)[j].completed ==> Timeline(status)[i].completed
  {
  }

  function CompletedStages(stages: seq<Stage>): nat
  {
    Seqs.Count(stages, (s: Stage) => s.completed)
  }

  /**
   * How far along the timeline is: 1 stage for pending up to 5 for
   * delivered; any other status, cancelled included, shows the first two.
   */
  lemma TimelineProgress(status: string)
    ensures CompletedStages(Timeline(status)) ==
      if status == "pending" then 1
      else if status == "processing" then 3
      else if status == "shipped" then 4
      else if status == OrderDelivered then 5
      else 2
  {
    CountFive(Timeline(status));
  }

  function Flag(b: bool): nat
  {
    if b then 1 else 0
  }

  lemma CountFive(t: seq<Stage>)
    requires |t| == 5
    ensures CompletedStages(t) == Flag(t[0].completed) + Flag(t[1].completed) + Flag(t[2].completed) +
      Flag(t[3].completed) + Flag(t[4].completed)
  {
    var p := (s: Stage) => s.completed;
    assert t[4..][1..] == [];
    assert Seqs.Count(t[4..], p) == Flag(t[4].completed);
    assert t[3..][1..] == t[4..];
    assert Seqs.Count(t[3..], p) == Flag(t[3].completed) + Seqs.Count(t[4..], p);
    assert t[2..][1..] == t[3..];
    assert Seqs.Count(t[2..], p) == Flag(t[2].completed) + Seqs.Count(t[3..], p);
    assert t[1..][1..] == t[2..];
    assert Seqs.Count(t[1..], p) == Flag(t[1].completed) + Seqs.Count(t[2..], p);
  }

  /** TrackOrder: public, by tracking number, with the timeline for the order's status. */
  function TrackOrder(orders: seq<Order>, trackingNumber: string): (r: Reply<(Order, seq<Stage>)>)
    ensures r.status.Ok? <==> r.body.Some?
    ensures r.body.Some? ==> (r.body.value.0 in orders && r.body.value.0.trackingNumber == trackingNumber &&
      r.body.value.1 == Timeline(r.body.value.0.status))
    ensures r.body.None? <==> (r.status == OrderNotFound && forall i :: 0 <= i < |orders| ==> orders[i].trackingNumber != trackingNumber)
  {
    match Seqs.FindFirst(orders, (o: Order) => o.trackingNumber == trackingNumber)
    case None => Reply(OrderNotFound, None)
    case Some(k) => Reply(Ok("tracking"), Some((orders[k], Timeline(orders[k].status))))
  }
}
