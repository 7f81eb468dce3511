/**
 * The admin dashboard endpoints (backend/handlers/admin_dashboard.go): the
 * headline counts, the order and customer summaries, and the status
 * override. Result rows ordered by `created_at DESC` are the table read
 * from the end, ids growing with creation time.
 */
module AdminDashboard {
  import opened Wrappers
  import opened Models
  import opened Store
  import opened Http
  import Seqs
  import Orders
  import AdminProducts

  const UnknownName := "Unknown"
  const UnknownEmail := "unknown@example.com"
  const InvalidStatus := "Invalid status"
  const StatusProcessing := "processing"
  const StatusShipped := "shipped"

  datatype DashboardStats = DashboardStats(
    totalOrders: nat, totalRevenue: real, totalProducts: nat, totalUsers: nat,
    pendingOrders: nat, lowStockProducts: nat)

  predicate IsDelivered(o: Order)
  {
    o.status == Orders.OrderDelivered
  }

  /** An order's contribution to revenue: its total when delivered. */
  function DeliveredAmount(o: Order): real
  {
    if IsDelivered(o) then o.totalAmount else 0.0
  }

  function Amount(o: Order): real
  {
    o.totalAmount
  }

  /** `COALESCE(SUM(total_amount), 0)` over the delivered orders. */
  function Revenue(orders: seq<Order>): real
  {
    Seqs.Sum(orders, DeliveredAmount)
  }

  /** `status IN ('pending', 'processing')`. */
  predicate Pending(o: Order)
  {
    o.status == StatusPending || o.status == StatusProcessing
  }

  /** `role != 'admin'`. */
  predicate Customer(u: User)
  {
    u.role != RoleAdmin
  }

  /** `stock < 10`: sold-out products (and any negative stock) included. */
  predicate StockBelowTen(p: Product)
  {
    p.stock < 10
  }

  predicate NegativeStock(p: Product)
  {
    p.stock < 0
  }

  /** GetStats: six independent counts and sums over the tables. */
  function GetStats(orders: seq<Order>, products: seq<Product>, users: seq<User>): (r: DashboardStats)
    ensures r.totalOrders == |orders| && r.totalProducts == |products|
    ensures r.pendingOrders <= r.totalOrders && r.lowStockProducts <= r.totalProducts && r.totalUsers <= |users|
    ensures r.pendingOrders == Seqs.Count(orders, Pending) && r.lowStockProducts == Seqs.Count(products, StockBelowTen)
    ensures r.totalUsers == Seqs.Count(users, Customer)
    ensures r.totalRevenue == Seqs.Sum(Seqs.Filter(orders, IsDelivered), Amount)
  {
    RevenueIsDeliveredSum(orders);
    DashboardStats(|orders|, Revenue(orders), |products|, Seqs.Count(users, Customer),
      Seqs.Count(orders, Pending), Seqs.Count(products, StockBelowTen))
  }

  /** Summing each order's delivered share is summing the totals of the delivered orders. */
  lemma {:induction false} RevenueIsDeliveredSum(orders: seq<Order>)
    ensures Revenue(orders) == Seqs.Sum(Seqs.Filter(orders, IsDelivered), Amount)
  {
    if |orders| > 0 {
      RevenueIsDeliveredSum(orders[1..]);
      if IsDelivered(orders[0]) {
        var rest := Seqs.Filter(orders[1..], IsDelivered);
        assert Seqs.Filter(orders, IsDelivered) == [orders[0]] + rest;
        assert ([orders[0]] + rest)[1..] == rest;
      }
    }
  }

  /** With no delivered order the revenue is 0. */
  lemma NoDeliveriesNoRevenue(orders: seq<Order>)
    requires forall i :: 0 <= i < |orders| ==> !IsDelivered(orders[i])
    ensures GetStats(orders, [], []).totalRevenue == 0.0
  {
    Seqs.SumZero(orders, DeliveredAmount);
  }

  /** With non-negative order totals the revenue is not negative. */
  lemma RevenueNonNegative(orders: seq<Order>)
    requires forall i :: 0 <= i < |orders| ==> orders[i].totalAmount >= 0.0
    ensures Revenue(orders) >= 0.0
  {
    Seqs.SumNonNegative(orders, DeliveredAmount);
  }

  /**
   * The dashboard's low-stock count is the product statistics' low-stock
   * and out-of-stock counts together, plus any product with negative stock.
   */
  lemma {:induction false} DashboardLowStockSplits(products: seq<Product>)
    ensures Seqs.Count(products, StockBelowTen) ==
      Seqs.Count(products, AdminProducts.LowStock) + Seqs.Count(products, AdminProducts.OutOfStock) +
      Seqs.Count(products, NegativeStock)
  {
    if |products| > 0 {
      DashboardLowStockSplits(products[1..]);
    }
  }

  // ------------------------------------------------------------ GetOrders

  datatype ItemSummary = ItemSummary(name: string, price: real, quantity: int, image: string)

  datatype OrderSummary = OrderSummary(
    id: Id, customerName: string, customerEmail: string, total: real, status: string,
    items: seq<ItemSummary>)

  /** The first loaded image's URL, or `""`. */
  function ItemImage(loaded: seq<ProductImage>): (url: string)
    ensures |loaded| == 0 ==> url == ""
    ensures |loaded| > 0 ==> url == loaded[0].url
  {
    if |loaded| > 0 then loaded[0].url else ""
  }

  /**
   * One line of an order summary: the preloaded product's name (the zero
   * product's empty name when it is gone), the line's price and quantity.
   * `Preload("Items.Product")` does not load the product's images, so the
   * image is taken from an empty list.
   */
  function ItemSummaryOf(products: seq<Product>, it: OrderItem): (s: ItemSummary)
    ensures s.price == it.price && s.quantity == it.quantity && s.image == ""
    ensures ProductIndex(products, it.productId).None? ==> s.name == ""
    ensures ProductIndex(products, it.productId).Some? ==> s.name == products[ProductIndex(products, it.productId).value].name
  {
    var name := match ProductIndex(products, it.productId) case None => "" case Some(k) => products[k].name;
    ItemSummary(name, it.price, it.quantity, ItemImage([]))
  }

  function UserIndex(users: seq<User>, id: Id): (r: Option<nat>)
    ensures r.Some? ==> r.value < |users| && users[r.value].id == id
    ensures r.None? <==> forall i :: 0 <= i < |users| ==> users[i].id != id
  {
    Seqs.FindFirst(users, (u: User) => u.id == id)
  }

  /** An order's summary: the customer's full name and email, or the `Unknown` placeholders when the user is gone. */
  function OrderSummaryHead(users: seq<User>, o: Order): (s: OrderSummary)
    ensures s.id == o.id && s.total == o.totalAmount && s.status == o.status && s.items == []
    ensures UserIndex(users, o.userId).None? ==> s.customerName == UnknownName && s.customerEmail == UnknownEmail
    ensures UserIndex(users, o.userId).Some? ==>
      var u := users[UserIndex(users, o.userId).value];
      s.customerName == u.firstName + " " + u.lastName && s.customerEmail == u.email
  {
    match UserIndex(users, o.userId)
    case None => OrderSummary(o.id, UnknownName, UnknownEmail, o.totalAmount, o.status, [])
    case Some(k) =>
      OrderSummary(o.id, users[k].firstName + " " + users[k].lastName, users[k].email, o.totalAmount, o.status, [])
  }

  /** The item loop of GetOrders: one summary per line, in line order. */
  method SummarizeItems(products: seq<Product>, items: seq<OrderItem>) returns (r: seq<ItemSummary>)
    ensures |r| == |items|
    ensures forall i :: 0 <= i < |r| ==> r[i] == ItemSummaryOf(products, items[i])
  {
    r := [];
    for k := 0 to |items|
      invariant |r| == k
      invariant forall i :: 0 <= i < k ==> r[i] == ItemSummaryOf(products, items[i])
    {
      r := r + [ItemSummaryOf(products, items[k])];
    }
  }

  /**
   * GetOrders: every order, newest first, summarised with its customer and
   * its lines; since the products' images are not preloaded, no line of the
   * listing carries an image.
   */
  method GetOrders(db: Database) returns (r: seq<OrderSummary>)
    ensures |r| == |db.orders|
    ensures forall i :: 0 <= i < |r| ==>
      var o := db.orders[|db.orders| - 1 - i];
      r[i].id == o.id && r[i] == OrderSummaryHead(db.users, o).(items := r[i].items) &&
      |r[i].items| == |o.items| &&
      forall j :: 0 <= j < |o.items| ==> r[i].items[j] == ItemSummaryOf(db.products, o.items[j])
    ensures forall i, j :: 0 <= i < |r| && 0 <= j < |r[i].items| ==> r[i].items[j].image == ""
  {
    var n := |db.orders|;
    r := [];
    for k := 0 to n
      invariant |r| == k
      invariant forall i :: 0 <= i < k ==>
        var o := db.orders[n - 1 - i];
        r[i].id == o.id && r[i] == OrderSummaryHead(db.users, o).(items := r[i].items) &&
        |r[i].items| == |o.items| &&
        forall j :: 0 <= j < |o.items| ==> r[i].items[j] == ItemSummaryOf(db.products, o.items[j])
    {
      var o := db.orders[n - 1 - k];
      var items := SummarizeItems(db.products, o.items);
      r := r + [OrderSummaryHead(db.users, o).(items := items)];
    }
  }

  // ------------------------------------------------------------- GetUsers

  datatype UserSummary = UserSummary(
    id: Id, firstName: string, lastName: string, email: string, totalOrders: nat, totalSpent: real)

  function ByUser(id: Id): Order -> bool
  {
    (o: Order) => o.userId == id
  }

  /** The user's delivered orders' totals. */
  function SpentBy(id: Id): Order -> real
  {
    (o: Order) => if o.userId == id && IsDelivered(o) then o.totalAmount else 0.0
  }

  /** A customer's summary: the number of their orders and what their delivered orders came to. */
  function UserSummaryOf(orders: seq<Order>, u: User): (s: UserSummary)
    ensures s.id == u.id && s.email == u.email && s.firstName == u.firstName && s.lastName == u.lastName
    ensures s.totalOrders == Seqs.Count(orders, ByUser(u.id)) && s.totalOrders <= |orders|
    ensures s.totalSpent == Seqs.Sum(orders, SpentBy(u.id))
  {
    UserSummary(u.id, u.firstName, u.lastName, u.email, Seqs.Count(orders, ByUser(u.id)), Seqs.Sum(orders, SpentBy(u.id)))
  }

  /** GetUsers: the non-admin users, newest first, each with their order statistics. */
  method GetUsers(db: Database) returns (r: seq<UserSummary>)
    ensures var customers := Seqs.Filter(db.users, Customer);
      |r| == |customers| &&
      forall i :: 0 <= i < |r| ==> r[i] == UserSummaryOf(db.orders, customers[|customers| - 1 - i])
    ensures forall i :: 0 <= i < |r| ==> exists j :: 0 <= j < |db.users| && db.users[j].id == r[i].id && Customer(db.users[j])
  {
    var customers := Seqs.Filter(db.users, Customer);
    var n := |customers|;
    r := [];
    for k := 0 to n
      invariant |r| == k
      invariant forall i :: 0 <= i < k ==> r[i] == UserSummaryOf(db.orders, customers[n - 1 - i])
    {
      r := r + [UserSummaryOf(db.orders, customers[n - 1 - k])];
    }
    forall i | 0 <= i < |r| ensures exists j :: 0 <= j < |db.users| && db.users[j].id == r[i].id && Customer(db.users[j]) {
      var c := customers[n - 1 - i];
      assert c in db.users && Customer(c);
      var j :| 0 <= j < |db.users| && db.users[j] == c;
    }
  }

  /** With non-negative totals, what one customer spent is at most the dashboard's revenue. */
  lemma {:induction false} SpentWithinRevenue(orders: seq<Order>, id: Id)
    requires forall i :: 0 <= i < |orders| ==> orders[i].totalAmount >= 0.0
    ensures Seqs.Sum(orders, SpentBy(id)) <= Revenue(orders)
  {
    if |orders| > 0 {
      SpentWithinRevenue(orders[1..], id);
    }
  }

  // ---------------------------------------------------- UpdateOrderStatus

  /** The dashboard's status list (it has no `confirmed`). */
  predicate DashboardStatus(status: string)
  {
    status == StatusPending || status == StatusProcessing || status == StatusShipped ||
    status == Orders.OrderDelivered || status == Orders.OrderCancelled
  }

  /** Every status the dashboard accepts the order handler accepts too, but not the other way round. */
  lemma StatusListsNested()
    ensures forall s :: DashboardStatus(s) ==> Orders.OrderStatusAllowed(s)
    ensures Orders.OrderStatusAllowed("confirmed") && !DashboardStatus("confirmed")
  {
  }

  const ValidStatuses := [StatusPending, StatusProcessing, StatusShipped, Orders.OrderDelivered, Orders.OrderCancelled]

  /** The validation loop over the status list. */
  method IsValidStatus(status: string) returns (valid: bool)
    ensures valid <==> DashboardStatus(status)
  {
    assert forall j :: 0 <= j < |ValidStatuses| ==> DashboardStatus(ValidStatuses[j]);
    assert DashboardStatus(status) ==> exists j :: 0 <= j < |ValidStatuses| && ValidStatuses[j] == status by {
      if DashboardStatus(status) {
        assert status == ValidStatuses[0] || status == ValidStatuses[1] || status == ValidStatuses[2] ||
          status == ValidStatuses[3] || status == ValidStatuses[4];
      }
    }
    valid := false;
    var i := 0;
    while i < |ValidStatuses|
      invariant 0 <= i <= |ValidStatuses|
      invariant !valid ==> forall j :: 0 <= j < i ==> ValidStatuses[j] != status
      invariant valid ==> DashboardStatus(status)
    {
      if status == ValidStatuses[i] {
        valid := true;
        break;
      }
      i := i + 1;
    }
  }

  function WithStatus(id: Id, status: string): Order -> Order
  {
    (o: Order) => if o.id == id then o.(status := status) else o
  }

  /**
   * UpdateOrderStatus: the status is required and must be on the list; then
   * every order with the id gets it (none found is still a 200). Nothing
   * else changes: no delivery time, no stock.
   */
  method UpdateOrderStatus(db: Database, id: Id, status: string) returns (st: Status)
    modifies db`orders
    ensures status == "" ==> st == InvalidRequest && unchanged(db)
    ensures status != "" && !DashboardStatus(status) ==> st == BadRequest(InvalidStatus) && unchanged(db)
    ensures DashboardStatus(status) ==>
      st == Ok("Order status updated successfully") && |db.orders| == |old(db.orders)| &&
      forall i :: 0 <= i < |db.orders| ==>
        db.orders[i] == (if old(db.orders)[i].id == id then old(db.orders)[i].(status := status) else old(db.orders)[i])
  {
    if status == "" {
      return InvalidRequest;
    }
    var valid := IsValidStatus(status);
    if !valid {
      return BadRequest(InvalidStatus);
    }
    db.orders := Seqs.Map(db.orders, WithStatus(id, status));
    return Ok("Order status updated successfully");
  }
}
