/**
 * The database the handlers share. Each table is a sequence of rows in
 * primary-key order, so GORM's `First` is the first matching row. New rows
 * take their id from one counter, `nextId`, shared by every table, where
 * PostgreSQL keeps one sequence per table: ids are unique and increasing
 * within each table, as there, but the gaps between them differ.
 */
module Store {
  import opened Wrappers
  import opened Models
  import Seqs

  class Database {
    var users: seq<User>
    var products: seq<Product>
    var images: seq<ProductImage>
    var carts: seq<Cart>
    var cartItems: seq<CartItem>
    var orders: seq<Order>
    var reviews: seq<Review>
    var likes: set<ReviewLike>
    var otps: seq<Otp>
    var payments: seq<Payment>
    var mobilePayments: seq<MobilePayment>
    var nextId: Id

    /** Cart ids are unique, and no cart, line or line's cart reference uses an id not issued yet. */
    predicate Valid()
      reads this
    {
      (forall i :: 0 <= i < |carts| ==> carts[i].id < nextId) &&
      (forall i, j :: 0 <= i < j < |carts| ==> carts[i].id != carts[j].id) &&
      (forall i :: 0 <= i < |cartItems| ==> cartItems[i].id < nextId && cartItems[i].cartId < nextId)
    }

    constructor()
      ensures Valid()
      ensures users == [] && products == [] && images == [] && carts == [] && cartItems == []
      ensures orders == [] && reviews == [] && likes == {} && otps == [] && payments == [] && mobilePayments == []
    {
      users, products, images, carts, cartItems := [], [], [], [], [];
      orders, reviews, likes, otps, payments, mobilePayments := [], [], {}, [], [], [];
      nextId := 1;
    }
  }

  /** `db.First(&product, id)`. */
  function ProductIndex(products: seq<Product>, id: Id): (r: Option<nat>)
    ensures r.Some? ==> r.value < |products| && products[r.value].id == id
    ensures r.None? <==> forall i :: 0 <= i < |products| ==> products[i].id != id
  {
    Seqs.FindFirst(products, (p: Product) => p.id == id)
  }

  /** `db.First(&order, id)`. */
  function OrderIndex(orders: seq<Order>, id: Id): (r: Option<nat>)
    ensures r.Some? ==> r.value < |orders| && orders[r.value].id == id
    ensures r.None? <==> forall i :: 0 <= i < |orders| ==> orders[i].id != id
  {
    Seqs.FindFirst(orders, (o: Order) => o.id == id)
  }

  /** `Model(&Product{}).Where("id = ?", id).Update("stock", gorm.Expr("stock + ?", delta))`. */
  function AdjustStock(products: seq<Product>, productId: Id, delta: int): (r: seq<Product>)
    ensures |r| == |products|
    ensures forall i :: 0 <= i < |products| ==>
      r[i] == if products[i].id == productId then products[i].(stock := products[i].stock + delta) else products[i]
  {
    Seqs.Map(products, (p: Product) => if p.id == productId then p.(stock := p.stock + delta) else p)
  }

  /** How many units of one product a list of order lines holds. */
  function Demand(items: seq<OrderItem>, productId: Id): int
  {
    Seqs.SumInt(items, (it: OrderItem) => if it.productId == productId then it.quantity else 0)
  }

  /** The stock updates of a loop over order lines, one per line, each by `sign` times its quantity. */
  function ApplyItems(products: seq<Product>, items: seq<OrderItem>, sign: int): (r: seq<Product>)
    ensures |r| == |products|
    decreases |items|
  {
    if |items| == 0 then products
    else
      var last := items[|items| - 1];
      AdjustStock(ApplyItems(products, items[..|items| - 1], sign), last.productId, sign * last.quantity)
  }

  /** The loop changes each product's stock by `sign` times that product's demand, and nothing else. */
  lemma {:induction false} ApplyItemsStock(products: seq<Product>, items: seq<OrderItem>, sign: int)
    ensures forall i :: 0 <= i < |products| ==>
      ApplyItems(products, items, sign)[i] == products[i].(stock := products[i].stock + sign * Demand(items, products[i].id))
  {
    forall i | 0 <= i < |products|
      ensures ApplyItems(products, items, sign)[i] == products[i].(stock := products[i].stock + sign * Demand(items, products[i].id))
    {
      ApplyItemsStockAt(products, items, sign, i);
    }
  }

  lemma {:induction false} ApplyItemsStockAt(products: seq<Product>, items: seq<OrderItem>, sign: int, i: nat)
    requires i < |products|
    ensures ApplyItems(products, items, sign)[i].stock == products[i].stock + sign * Demand(items, products[i].id)
    ensures ApplyItems(products, items, sign)[i] == products[i].(stock := ApplyItems(products, items, sign)[i].stock)
    decreases |items|
  {
    if |items| > 0 {
      var n := |items| - 1;
      var pre := items[..n];
      assert items == pre + [items[n]];
      ApplyItemsStockAt(products, pre, sign, i);
      var f := (it: OrderItem) => if it.productId == products[i].id then it.quantity else 0;
      Seqs.SumIntAppend(pre, [items[n]], f);
      assert Seqs.SumInt([items[n]], f) == f(items[n]);
      Distributes(sign, Demand(pre, products[i].id), f(items[n]));
    }
  }

  lemma Distributes(a: int, b: int, c: int)
    ensures a * (b + c) == a * b + a * c
  {
  }

  /** Taking the lines out and putting them back leaves the table as it was. */
  lemma {:induction false} ApplyItemsUndo(products: seq<Product>, items: seq<OrderItem>)
    ensures ApplyItems(ApplyItems(products, items, -1), items, 1) == products
  {
    var taken := ApplyItems(products, items, -1);
    ApplyItemsStock(products, items, -1);
    ApplyItemsStock(taken, items, 1);
    forall i | 0 <= i < |products|
      ensures ApplyItems(taken, items, 1)[i] == products[i]
    {
      assert taken[i].id == products[i].id;
    }
  }

  /** The per-line stock loop of the handlers. */
  method UpdateStockPerLine(db: Database, items: seq<OrderItem>, sign: int)
    modifies db`products
    ensures db.products == ApplyItems(old(db.products), items, sign)
  {
    var k := 0;
    while k < |items|
      invariant 0 <= k <= |items|
      invariant db.products == ApplyItems(old(db.products), items[..k], sign)
    {
      assert items[..k + 1][..k] == items[..k];
      db.products := AdjustStock(db.products, items[k].productId, sign * items[k].quantity);
      k := k + 1;
    }
    assert items[..|items|] == items;
  }
}
