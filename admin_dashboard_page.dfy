/**
 * The admin dashboard page (frontend/src/pages/admin/AdminDashboard.tsx):
 * the lists it loads from the admin endpoints, the local list updates after
 * a product is saved or deleted and after an order's status is changed, the
 * status colours and the recent-orders excerpt. Server replies and the
 * confirm dialog's answer are parameters.
 */
module AdminDashboardPage {
  import opened Wrappers
  import opened Models
  import Seqs
  import Text
  import AdminDashboard
  import opened Ui

  /** The chip colours of an order status. */
  datatype Color = SuccessColor | InfoColor | WarningColor | ErrorColor | DefaultColor

  /** getStatusColor: decided on the lower-cased status. */
  function StatusColor(status: string): (c: Color)
    ensures c == SuccessColor <==> Text.ToLower(status) == "delivered"
    ensures c == InfoColor <==> Text.ToLower(status) == "shipped"
    ensures c == WarningColor <==> Text.ToLower(status) == "processing"
    ensures c == ErrorColor <==> Text.ToLower(status) == "cancelled"
  {
    var s := Text.ToLower(status);
    if s == "delivered" then SuccessColor
    else if s == "shipped" then InfoColor
    else if s == "processing" then WarningColor
    else if s == "cancelled" then ErrorColor
    else DefaultColor
  }

  /** The colour does not depend on letter case. */
  lemma StatusColorIgnoresCase(status: string)
    ensures StatusColor(Text.ToLower(status)) == StatusColor(status)
  {
    Text.ToLowerIdempotent(status);
  }

  /** The overview table: `orders.slice(0, 5)`. */
  function RecentOrders(orders: seq<AdminDashboard.OrderSummary>): (r: seq<AdminDashboard.OrderSummary>)
    ensures |r| == if |orders| < 5 then |orders| else 5
    ensures forall i :: 0 <= i < |r| ==> r[i] == orders[i]
  {
    if |orders| < 5 then orders else orders[..5]
  }

  function OtherId(id: Id): Product -> bool
  {
    (p: Product) => p.id != id
  }

  /**
   * handleSaveProduct's list: when editing, every entry with the saved id is
   * replaced by the saved product; otherwise the saved product is appended.
   */
  function SavedList(products: seq<Product>, saved: Product, editing: bool): (r: seq<Product>)
    ensures editing ==> |r| == |products|
    ensures editing ==> forall i :: 0 <= i < |r| ==> r[i] == if products[i].id == saved.id then saved else products[i]
    ensures !editing ==> r == products + [saved]
  {
    if editing then Seqs.Map(products, (p: Product) => if p.id == saved.id then saved else p)
    else products + [saved]
  }

  /** Saving the same edited product twice is the same as saving it once. */
  lemma SaveEditedIdempotent(products: seq<Product>, saved: Product)
    ensures SavedList(SavedList(products, saved, true), saved, true) == SavedList(products, saved, true)
  {
  }

  /** After an edit the saved product is listed exactly when an entry with its id was. */
  lemma SavedEditListed(products: seq<Product>, saved: Product)
    ensures saved in SavedList(products, saved, true) <==> exists i :: 0 <= i < |products| && products[i].id == saved.id
  {
    var r := SavedList(products, saved, true);
    if saved in r {
      var i :| 0 <= i < |r| && r[i] == saved;
      assert products[i].id == saved.id;
    }
  }

  /** handleDeleteProduct's list on success: every entry with that id removed, the rest kept in order. */
  function WithoutProduct(products: seq<Product>, productId: Id): (r: seq<Product>)
    ensures r == Seqs.Filter(products, OtherId(productId))
    ensures forall i :: 0 <= i < |r| ==> r[i].id != productId
    ensures forall i :: 0 <= i < |products| && products[i].id != productId ==> products[i] in r
  {
    var r := Seqs.Filter(products, OtherId(productId));
    assert forall i :: 0 <= i < |r| ==> OtherId(productId)(r[i]);
    r
  }

  /** Deleting a product that was just created and appended gives the list without it. */
  lemma DeleteAfterCreate(products: seq<Product>, saved: Product)
    ensures WithoutProduct(SavedList(products, saved, false), saved.id) == WithoutProduct(products, saved.id)
  {
    Seqs.FilterAppend(products, [saved], OtherId(saved.id));
    assert Seqs.Filter([saved], OtherId(saved.id)) == [];
  }

  /** updateOrderStatus's list on success: the order with that id gets the new status, nothing else changes. */
  function WithOrderStatus(orders: seq<AdminDashboard.OrderSummary>, orderId: Id, status: string)
    : (r: seq<AdminDashboard.OrderSummary>)
    ensures |r| == |orders|
    ensures forall i :: 0 <= i < |r| ==> r[i] == if orders[i].id == orderId then orders[i].(status := status) else orders[i]
  {
    Seqs.Map(orders, (o: AdminDashboard.OrderSummary) => if o.id == orderId then o.(status := status) else o)
  }

  /** Two status changes of one order: the second wins. */
  lemma OrderStatusLastWins(orders: seq<AdminDashboard.OrderSummary>, orderId: Id, first: string, second: string)
    ensures WithOrderStatus(WithOrderStatus(orders, orderId, first), orderId, second) == WithOrderStatus(orders, orderId, second)
  {
  }

  class DashboardPage {
    var stats: AdminDashboard.DashboardStats
    var orders: seq<AdminDashboard.OrderSummary>
    var products: seq<Product>
    var users: seq<AdminDashboard.UserSummary>
    var formOpen: bool
    var editing: Option<Product>
    var loading: bool

    constructor()
      ensures stats == AdminDashboard.DashboardStats(0, 0.0, 0, 0, 0, 0)
      ensures orders == [] && products == [] && users == []
      ensures !formOpen && editing.None? && loading
    {
      stats := AdminDashboard.DashboardStats(0, 0.0, 0, 0, 0, 0);
      orders, products, users := [], [], [];
      formOpen, editing := false, None;
      loading := true;
    }

    /**
     * fetchDashboardData: stats, orders, products and users are requested in
     * that order; each ok reply replaces its field, and an exception ends
     * the sequence with an error toast.
     */
    method FetchDashboardData(s: Fetch<AdminDashboard.DashboardStats>, o: Fetch<seq<AdminDashboard.OrderSummary>>,
                              p: Fetch<seq<Product>>, u: Fetch<seq<AdminDashboard.UserSummary>>)
      returns (toast: Toast)
      modifies this
      ensures stats == (if s.Fetched? then s.data else old(stats))
      ensures orders == (if !s.FetchThrows? && o.Fetched? then o.data else old(orders))
      ensures products == (if !s.FetchThrows? && !o.FetchThrows? && p.Fetched? then p.data else old(products))
      ensures users == (if !s.FetchThrows? && !o.FetchThrows? && !p.FetchThrows? && u.Fetched? then u.data else old(users))
      ensures toast == (if s.FetchThrows? || o.FetchThrows? || p.FetchThrows? || u.FetchThrows?
                        then ToastError("Failed to load dashboard data") else NoToast)
      ensures formOpen == old(formOpen) && editing == old(editing) && !loading
    {
      loading := true;
      toast := ToastError("Failed to load dashboard data");
      if s.FetchThrows? { loading := false; return; }
      if s.Fetched? { stats := s.data; }
      if o.FetchThrows? { loading := false; return; }
      if o.Fetched? { orders := o.data; }
      if p.FetchThrows? { loading := false; return; }
      if p.Fetched? { products := p.data; }
      if u.FetchThrows? { loading := false; return; }
      if u.Fetched? { users := u.data; }
      toast := NoToast;
      loading := false;
    }

    /** handleAddProduct: the form opens for a new product. */
    method AddProduct()
      modifies this
      ensures editing.None? && formOpen
      ensures stats == old(stats) && orders == old(orders) && products == old(products) && users == old(users)
      ensures loading == old(loading)
    {
      editing := None;
      formOpen := true;
    }

    /** handleEditProduct: the form opens on the given product. */
    method EditProduct(product: Product)
      modifies this
      ensures editing == Some(product) && formOpen
      ensures stats == old(stats) && orders == old(orders) && products == old(products) && users == old(users)
      ensures loading == old(loading)
    {
      editing := Some(product);
      formOpen := true;
    }

    /** handleSaveProduct: the list takes the saved product and the form closes. */
    method SaveProduct(saved: Product)
      modifies this
      ensures products == SavedList(old(products), saved, old(editing).Some?)
      ensures !formOpen && editing.None?
      ensures old(editing).Some? ==> |products| == |old(products)|
      ensures stats == old(stats) && orders == old(orders) && users == old(users) && loading == old(loading)
    {
      products := SavedList(products, saved, editing.Some?);
      formOpen := false;
      editing := None;
    }

    /**
     * handleDeleteProduct: without confirmation nothing is sent; otherwise
     * the list drops the product only when the reply is ok.
     */
    method DeleteProduct(productId: Id, confirmed: bool, reply: Reply) returns (sent: bool, toast: Toast)
      modifies this
      ensures sent == confirmed
      ensures confirmed && reply == Reply(true) ==>
        products == WithoutProduct(old(products), productId) && toast == ToastSuccess("Product deleted successfully")
      ensures !(confirmed && reply == Reply(true)) ==> products == old(products)
      ensures confirmed && reply == Reply(false) ==> toast == ToastError("Failed to delete product")
      ensures confirmed && reply.NetworkError? ==> toast == ToastError("Network error")
      ensures !confirmed ==> toast == NoToast
      ensures stats == old(stats) && orders == old(orders) && users == old(users)
      ensures formOpen == old(formOpen) && editing == old(editing) && loading == old(loading)
    {
      if !confirmed {
        return false, NoToast;
      }
      sent := true;
      match reply
      case NetworkError =>
        toast := ToastError("Network error");
      case Reply(ok) =>
        if ok {
          products := WithoutProduct(products, productId);
          toast := ToastSuccess("Product deleted successfully");
        } else {
          toast := ToastError("Failed to delete product");
        }
    }

    /** updateOrderStatus: on an ok reply only the matching order's status changes. */
    method UpdateOrderStatus(orderId: Id, newStatus: string, reply: Reply) returns (toast: Toast)
      modifies this
      ensures reply == Reply(true) ==>
        orders == WithOrderStatus(old(orders), orderId, newStatus) && toast == ToastSuccess("Order status updated successfully")
      ensures reply != Reply(true) ==> orders == old(orders)
      ensures reply == Reply(false) ==> toast == ToastError("Failed to update order status")
      ensures reply.NetworkError? ==> toast == ToastError("Network error")
      ensures stats == old(stats) && products == old(products) && users == old(users)
      ensures formOpen == old(formOpen) && editing == old(editing) && loading == old(loading)
    {
      match reply
      case NetworkError =>
        toast := ToastError("Network error");
      case Reply(ok) =>
        if ok {
          orders := WithOrderStatus(orders, orderId, newStatus);
          toast := ToastSuccess("Order status updated successfully");
        } else {
          toast := ToastError("Failed to update order status");
        }
    }
  }
}
