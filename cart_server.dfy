/**
 * The server-side cart (backend/handlers/cart.go): one cart row per user,
 * created on first use, and cart-item rows that the handlers create,
 * merge, update and delete in place.
 */
module CartHandlers {
  import opened Wrappers
  import opened Models
  import opened Http
  import opened Store
  import Seqs

  const InsufficientStock := BadRequest("Insufficient stock")

  /** `Where("user_id = ?").First(&cart)`. */
  function CartIndex(carts: seq<Cart>, userId: Id): (r: Option<nat>)
    ensures r.Some? ==> r.value < |carts| && carts[r.value].userId == userId
    ensures r.None? <==> forall i :: 0 <= i < |carts| ==> carts[i].userId != userId
  {
    Seqs.FindFirst(carts, (c: Cart) => c.userId == userId)
  }

  /** `Where("cart_id = ? AND product_id = ?").First(&item)`. */
  function LineIndex(items: seq<CartItem>, cartId: Id, productId: Id): (r: Option<nat>)
    ensures r.Some? ==> r.value < |items| && items[r.value].cartId == cartId && items[r.value].productId == productId
    ensures r.None? <==> forall i :: 0 <= i < |items| ==> !(items[i].cartId == cartId && items[i].productId == productId)
  {
    Seqs.FindFirst(items, (it: CartItem) => it.cartId == cartId && it.productId == productId)
  }

  /** The stock of a product, when the product exists. */
  function StockOf(products: seq<Product>, productId: Id): (r: Option<int>)
    ensures r.Some? <==> exists i :: 0 <= i < |products| && products[i].id == productId
  {
    match ProductIndex(products, productId)
    case None => None
    case Some(i) => Some(products[i].stock)
  }

  /** How many units of a product the user's cart holds: 0 without a cart or a line. */
  function QuantityInCart(carts: seq<Cart>, items: seq<CartItem>, userId: Id, productId: Id): int
  {
    match CartIndex(carts, userId)
    case None => 0
    case Some(c) =>
      match LineIndex(items, carts[c].id, productId)
      case None => 0
      case Some(k) => items[k].quantity
  }

  /** The lines of one cart, in row order (what `Preload("Items")` returns). */
  function LinesOf(items: seq<CartItem>, cartId: Id): (r: seq<CartItem>)
    ensures forall i :: 0 <= i < |r| ==> r[i].cartId == cartId && r[i] in items
    ensures forall i :: 0 <= i < |items| && items[i].cartId == cartId ==> items[i] in r
  {
    Seqs.Filter(items, (it: CartItem) => it.cartId == cartId)
  }

  /** At most one line per (cart, product): the merge in AddToCart keeps it so. */
  predicate UniqueLines(items: seq<CartItem>)
  {
    forall i, j :: 0 <= i < j < |items| ==>
      !(items[i].cartId == items[j].cartId && items[i].productId == items[j].productId)
  }

  /** The JOIN of UpdateCartItem and RemoveFromCart: the line's cart belongs to the user. */
  predicate OwnsLine(carts: seq<Cart>, item: CartItem, userId: Id)
  {
    exists c :: 0 <= c < |carts| && carts[c].id == item.cartId && carts[c].userId == userId
  }

  function OwnedLineIndex(carts: seq<Cart>, items: seq<CartItem>, userId: Id, itemId: Id): (r: Option<nat>)
    ensures r.Some? ==> r.value < |items| && items[r.value].id == itemId && OwnsLine(carts, items[r.value], userId)
    ensures r.None? <==> forall i :: 0 <= i < |items| ==> !(items[i].id == itemId && OwnsLine(carts, items[i], userId))
  {
    Seqs.FindFirst(items, (it: CartItem) => it.id == itemId && OwnsLine(carts, it, userId))
  }

  /** `db.Delete(&item)`: every row with that primary key goes. */
  function WithoutId(items: seq<CartItem>, itemId: Id): (r: seq<CartItem>)
    ensures forall i :: 0 <= i < |r| ==> r[i].id != itemId && r[i] in items
    ensures forall i :: 0 <= i < |items| && items[i].id != itemId ==> items[i] in r
  {
    Seqs.Filter(items, (it: CartItem) => it.id != itemId)
  }

  /** `Where("cart_id = ?").Delete(&CartItem{})`. */
  function WithoutCart(items: seq<CartItem>, cartId: Id): (r: seq<CartItem>)
    ensures forall i :: 0 <= i < |r| ==> r[i].cartId != cartId && r[i] in items
    ensures forall i :: 0 <= i < |items| && items[i].cartId != cartId ==> items[i] in r
  {
    Seqs.Filter(items, (it: CartItem) => it.cartId != cartId)
  }

  /**
   * The checks AddToCart makes before it writes a line: the body binds
   * (`product_id` is `required`, so 0 is refused, and `quantity` is at least
   * 1), the product exists, and its stock covers the request and the merge.
   */
  predicate CanAdd(products: seq<Product>, carts: seq<Cart>, items: seq<CartItem>, userId: Id, productId: Id, quantity: int)
  {
    productId != 0 && quantity >= 1 &&
    match StockOf(products, productId)
    case None => false
    case Some(stock) => stock >= quantity && stock >= quantity + QuantityInCart(carts, items, userId, productId)
  }

  lemma ValidAfterFilter(db: Database, before: seq<CartItem>)
    requires forall i :: 0 <= i < |before| ==> before[i].id < db.nextId && before[i].cartId < db.nextId
    requires forall i :: 0 <= i < |db.cartItems| ==> db.cartItems[i] in before
    requires forall i :: 0 <= i < |db.carts| ==> db.carts[i].id < db.nextId
    requires forall i, j :: 0 <= i < j < |db.carts| ==> db.carts[i].id != db.carts[j].id
    ensures db.Valid()
  {
    forall i | 0 <= i < |db.cartItems|
      ensures db.cartItems[i].id < db.nextId && db.cartItems[i].cartId < db.nextId
    {
      var j :| 0 <= j < |before| && before[j] == db.cartItems[i];
    }
  }

  lemma NoLinesOfUnusedCart(items: seq<CartItem>, cartId: Id)
    requires forall i :: 0 <= i < |items| ==> items[i].cartId != cartId
    ensures LinesOf(items, cartId) == []
  {
    Seqs.FilterNone(items, (it: CartItem) => it.cartId == cartId);
  }

  /** GetCart: the user's cart with its lines, a new empty cart on first use. */
  method GetCart(db: Database, user: Option<Id>) returns (st: Status, cart: Option<Cart>, lines: seq<CartItem>)
    requires db.Valid()
    modifies db`carts, db`nextId
    ensures db.Valid()
    ensures user.None? ==> st == Unauthenticated && cart.None? && db.carts == old(db.carts)
    ensures user.Some? ==> st.Ok? && cart.Some? && cart.value.userId == user.value
    ensures cart.Some? ==> lines == LinesOf(db.cartItems, cart.value.id)
    ensures user.Some? && CartIndex(old(db.carts), user.value).Some? ==>
      db.carts == old(db.carts) && cart == Some(old(db.carts)[CartIndex(old(db.carts), user.value).value])
    ensures user.Some? && CartIndex(old(db.carts), user.value).None? ==>
      db.carts == old(db.carts) + [cart.value] && cart.value.id == old(db.nextId) && lines == []
    ensures user.Some? ==> CartIndex(db.carts, user.value).Some?
  {
    if user.None? {
      return Unauthenticated, None, [];
    }
    var ci := CartIndex(db.carts, user.value);
    var c: Cart;
    if ci.None? {
      c := Cart(db.nextId, user.value);
      db.carts := db.carts + [c];
      db.nextId := db.nextId + 1;
      assert db.carts[|db.carts| - 1].userId == user.value;
    } else {
      c := db.carts[ci.value];
    }
    lines := LinesOf(db.cartItems, c.id);
    if ci.None? {
      NoLinesOfUnusedCart(db.cartItems, c.id);
    }
    return Ok("cart"), Some(c), lines;
  }

  predicate CartIdsUnique(carts: seq<Cart>)
  {
    forall i, j :: 0 <= i < j < |carts| ==> carts[i].id != carts[j].id
  }

  /** A new cart for a user without one, with an id no line refers to, changes no quantity. */
  lemma {:induction false} QuantityAfterNewCart(carts: seq<Cart>, items: seq<CartItem>, cart: Cart, v: Id, p: Id)
    requires CartIndex(carts, cart.userId).None?
    requires forall i :: 0 <= i < |items| ==> items[i].cartId != cart.id
    ensures QuantityInCart(carts + [cart], items, v, p) == QuantityInCart(carts, items, v, p)
  {
    Seqs.FindFirstAppend(carts, cart, (c: Cart) => c.userId == v);
  }

  /** Replacing the quantity of the user's line for `p` changes that quantity only. */
  lemma {:induction false} QuantityAfterMerge(carts: seq<Cart>, items: seq<CartItem>, u: Id, p: Id, k: nat, q: int, v: Id, w: Id)
    requires CartIdsUnique(carts)
    requires CartIndex(carts, u).Some?
    requires LineIndex(items, carts[CartIndex(carts, u).value].id, p) == Some(k)
    ensures QuantityInCart(carts, items[k := items[k].(quantity := q)], v, w)
         == if v == u && w == p then q else QuantityInCart(carts, items, v, w)
  {
    var cv := CartIndex(carts, v);
    if cv.Some? {
      Seqs.FindFirstUpdate(items, k, items[k].(quantity := q),
        (it: CartItem) => it.cartId == carts[cv.value].id && it.productId == w);
    }
  }

  /** Appending the user's first line for `p` sets that quantity only. */
  lemma {:induction false} QuantityAfterNewLine(carts: seq<Cart>, items: seq<CartItem>, u: Id, line: CartItem, v: Id, w: Id)
    requires CartIdsUnique(carts)
    requires CartIndex(carts, u).Some? && line.cartId == carts[CartIndex(carts, u).value].id
    requires LineIndex(items, line.cartId, line.productId).None?
    ensures QuantityInCart(carts, items + [line], v, w)
         == if v == u && w == line.productId then line.quantity else QuantityInCart(carts, items, v, w)
  {
    var cv := CartIndex(carts, v);
    if cv.Some? {
      Seqs.FindFirstAppend(items, line, (it: CartItem) => it.cartId == carts[cv.value].id && it.productId == w);
    }
  }

  /** The get-or-create step of AddToCart; no quantity changes. */
  method EnsureCart(db: Database, u: Id) returns (cart: Cart)
    requires db.Valid()
    modifies db`carts, db`nextId
    ensures db.Valid()
    ensures CartIndex(db.carts, u).Some? && db.carts[CartIndex(db.carts, u).value] == cart
    ensures db.carts == old(db.carts) || (CartIndex(old(db.carts), u).None? && db.carts == old(db.carts) + [cart])
    ensures forall v: Id, p: Id :: QuantityInCart(db.carts, db.cartItems, v, p) == QuantityInCart(old(db.carts), db.cartItems, v, p)
  {
    var ci := CartIndex(db.carts, u);
    if ci.Some? {
      return db.carts[ci.value];
    }
    cart := Cart(db.nextId, u);
    ghost var before := db.carts;
    db.carts := db.carts + [cart];
    db.nextId := db.nextId + 1;
    Seqs.FindFirstAppend(before, cart, (c: Cart) => c.userId == u);
    forall v: Id, p: Id
      ensures QuantityInCart(db.carts, db.cartItems, v, p) == QuantityInCart(before, db.cartItems, v, p)
    {
      QuantityAfterNewCart(before, db.cartItems, cart, v, p);
    }
  }

  /** Merging into an existing line: only that quantity changes, and the line keeps its keys. */
  lemma MergeFacts(carts: seq<Cart>, items: seq<CartItem>, u: Id, p: Id, k: nat, q: int)
    requires CartIdsUnique(carts)
    requires CartIndex(carts, u).Some?
    requires LineIndex(items, carts[CartIndex(carts, u).value].id, p) == Some(k)
    ensures var after := items[k := items[k].(quantity := q)];
      (forall v: Id, w: Id :: QuantityInCart(carts, after, v, w) == if v == u && w == p then q else QuantityInCart(carts, items, v, w)) &&
      (UniqueLines(items) ==> UniqueLines(after)) &&
      forall i :: 0 <= i < |items| ==> after[i].id == items[i].id && after[i].cartId == items[i].cartId
  {
    var after := items[k := items[k].(quantity := q)];
    forall v: Id, w: Id
      ensures QuantityInCart(carts, after, v, w) == if v == u && w == p then q else QuantityInCart(carts, items, v, w)
    {
      QuantityAfterMerge(carts, items, u, p, k, q, v, w);
    }
    assert forall i :: 0 <= i < |items| ==> after[i].cartId == items[i].cartId && after[i].productId == items[i].productId;
  }

  /** Appending the user's first line for a product: only that quantity changes. */
  lemma AppendFacts(carts: seq<Cart>, items: seq<CartItem>, u: Id, line: CartItem)
    requires CartIdsUnique(carts)
    requires CartIndex(carts, u).Some? && line.cartId == carts[CartIndex(carts, u).value].id
    requires LineIndex(items, line.cartId, line.productId).None?
    ensures forall v: Id, w: Id :: (QuantityInCart(carts, items + [line], v, w) ==
      (if v == u && w == line.productId then line.quantity else QuantityInCart(carts, items, v, w)))
    ensures UniqueLines(items) ==> UniqueLines(items + [line])
  {
    forall v: Id, w: Id
      ensures QuantityInCart(carts, items + [line], v, w) ==
        if v == u && w == line.productId then line.quantity else QuantityInCart(carts, items, v, w)
    {
      QuantityAfterNewLine(carts, items, u, line, v, w);
    }
    var after := items + [line];
    assert forall i :: 0 <= i < |items| ==> after[i] == items[i];
  }

  /** The merge-or-create step of AddToCart, once the user's cart exists. */
  method AddLine(db: Database, u: Id, cart: Cart, productId: Id, quantity: int, stock: int) returns (ok: bool)
    requires db.Valid()
    requires CartIndex(db.carts, u).Some? && db.carts[CartIndex(db.carts, u).value] == cart
    requires stock >= quantity
    modifies db`cartItems, db`nextId
    ensures db.Valid()
    ensures ok <==> stock >= quantity + QuantityInCart(db.carts, old(db.cartItems), u, productId)
    ensures !ok ==> db.cartItems == old(db.cartItems)
    ensures ok ==> forall v: Id, p: Id :: (QuantityInCart(db.carts, db.cartItems, v, p)
      == if v == u && p == productId then QuantityInCart(db.carts, old(db.cartItems), u, productId) + quantity
         else QuantityInCart(db.carts, old(db.cartItems), v, p))
    ensures UniqueLines(old(db.cartItems)) ==> UniqueLines(db.cartItems)
  {
    var li := LineIndex(db.cartItems, cart.id, productId);
    if li.Some? {
      var existing := db.cartItems[li.value];
      assert QuantityInCart(db.carts, db.cartItems, u, productId) == existing.quantity;
      var newQuantity := existing.quantity + quantity;
      if stock < newQuantity {
        return false;
      }
      MergeLine(db, u, productId, li.value, newQuantity);
    } else {
      assert QuantityInCart(db.carts, db.cartItems, u, productId) == 0;
      NewLine(db, u, CartItem(db.nextId, cart.id, productId, quantity));
    }
    return true;
  }

  /** The `Save` of a merged line: its quantity becomes `q`. */
  method MergeLine(db: Database, u: Id, productId: Id, k: nat, q: int)
    requires db.Valid() && CartIndex(db.carts, u).Some?
    requires LineIndex(db.cartItems, db.carts[CartIndex(db.carts, u).value].id, productId) == Some(k)
    modifies db`cartItems
    ensures db.Valid()
    ensures forall v: Id, w: Id :: (QuantityInCart(db.carts, db.cartItems, v, w) ==
      (if v == u && w == productId then q else QuantityInCart(db.carts, old(db.cartItems), v, w)))
    ensures UniqueLines(old(db.cartItems)) ==> UniqueLines(db.cartItems)
  {
    MergeFacts(db.carts, db.cartItems, u, productId, k, q);
    db.cartItems := db.cartItems[k := db.cartItems[k].(quantity := q)];
  }

  /** The `Create` of a new line for a product the cart does not list yet. */
  method NewLine(db: Database, u: Id, line: CartItem)
    requires db.Valid() && CartIndex(db.carts, u).Some?
    requires line.id == db.nextId && line.cartId == db.carts[CartIndex(db.carts, u).value].id
    requires LineIndex(db.cartItems, line.cartId, line.productId).None?
    modifies db`cartItems, db`nextId
    ensures db.Valid()
    ensures forall v: Id, w: Id :: (QuantityInCart(db.carts, db.cartItems, v, w) ==
      (if v == u && w == line.productId then line.quantity else QuantityInCart(db.carts, old(db.cartItems), v, w)))
    ensures UniqueLines(old(db.cartItems)) ==> UniqueLines(db.cartItems)
  {
    AppendFacts(db.carts, db.cartItems, u, line);
    db.cartItems, db.nextId := db.cartItems + [line], db.nextId + 1;
  }

  /**
   * AddToCart: merges into the existing line for the product or creates one,
   * when the product exists and its stock covers the merged quantity.
   */
  method AddToCart(db: Database, user: Option<Id>, productId: Id, quantity: int) returns (st: Status)
    requires db.Valid()
    modifies db`carts, db`cartItems, db`nextId
    ensures db.Valid()
    ensures user.None? ==> st == Unauthenticated
    ensures user.Some? && (productId == 0 || quantity < 1) ==> st == InvalidRequest
    ensures user.Some? && productId != 0 && quantity >= 1 && StockOf(old(db.products), productId).None? ==>
      st == NotFound("Product not found")
    ensures st.Ok? <==> user.Some? && CanAdd(old(db.products), old(db.carts), old(db.cartItems), user.value, productId, quantity)
    ensures !st.Ok? ==> db.cartItems == old(db.cartItems)
    ensures st.Ok? ==> QuantityInCart(db.carts, db.cartItems, user.value, productId)
                        == QuantityInCart(old(db.carts), old(db.cartItems), user.value, productId) + quantity
    ensures st.Ok? ==> forall u: Id, p: Id :: (u != user.value || p != productId) ==>
      QuantityInCart(db.carts, db.cartItems, u, p) == QuantityInCart(old(db.carts), old(db.cartItems), u, p)
    ensures |db.carts| >= |old(db.carts)| && db.carts[..|old(db.carts)|] == old(db.carts)
    ensures UniqueLines(old(db.cartItems)) ==> UniqueLines(db.cartItems)
  {
    if user.None? {
      return Unauthenticated;
    }
    var u := user.value;
    if productId == 0 || quantity < 1 {
      return InvalidRequest;
    }
    var pi := ProductIndex(db.products, productId);
    if pi.None? {
      return NotFound("Product not found");
    }
    var product := db.products[pi.value];
    if product.stock < quantity {
      return InsufficientStock;
    }
    var cart := EnsureCart(db, u);
    var merged := AddLine(db, u, cart, productId, quantity, product.stock);
    if !merged {
      return InsufficientStock;
    }
    return Ok("Item added to cart successfully");
  }

  /**
   * UpdateCartItem: on the caller's own line, quantity 0 deletes the line and
   * a positive quantity within stock replaces the line's quantity.
   */
  method UpdateCartItem(db: Database, user: Option<Id>, itemId: Id, quantity: int) returns (st: Status)
    requires db.Valid()
    modifies db`cartItems
    ensures db.Valid()
    ensures user.None? ==> st == Unauthenticated
    ensures user.Some? && quantity < 0 ==> st == InvalidRequest
    ensures !st.Ok? ==> db.cartItems == old(db.cartItems)
    ensures user.Some? && quantity >= 0 ==>
      (st.NotFound? <==> OwnedLineIndex(db.carts, old(db.cartItems), user.value, itemId).None?)
    ensures user.Some? && quantity == 0 && OwnedLineIndex(db.carts, old(db.cartItems), user.value, itemId).Some? ==>
      st.Ok? && db.cartItems == WithoutId(old(db.cartItems), itemId)
    ensures user.Some? && quantity > 0 && OwnedLineIndex(db.carts, old(db.cartItems), user.value, itemId).Some? ==>
      var k := OwnedLineIndex(db.carts, old(db.cartItems), user.value, itemId).value;
      var line := old(db.cartItems)[k];
      match StockOf(db.products, line.productId)
      case None => st == ServerError("Product not found")
      case Some(stock) =>
        (stock < quantity ==> st == InsufficientStock) &&
        (stock >= quantity ==> st.Ok? && db.cartItems == old(db.cartItems)[k := line.(quantity := quantity)])
  {
    if user.None? {
      return Unauthenticated;
    }
    if quantity < 0 {
      return InvalidRequest;
    }
    var k := OwnedLineIndex(db.carts, db.cartItems, user.value, itemId);
    if k.None? {
      return NotFound("Cart item not found");
    }
    var line := db.cartItems[k.value];
    if quantity == 0 {
      ghost var before := db.cartItems;
      db.cartItems := WithoutId(db.cartItems, itemId);
      ValidAfterFilter(db, before);
      return Ok("Item removed from cart");
    }
    var pi := ProductIndex(db.products, line.productId);
    if pi.None? {
      return ServerError("Product not found");
    }
    if db.products[pi.value].stock < quantity {
      return InsufficientStock;
    }
    db.cartItems := db.cartItems[k.value := line.(quantity := quantity)];
    return Ok("Cart item updated successfully");
  }

  /**
   * The body of UpdateCartItem as bound: `required` refuses the zero value
   * of an int, so together with `min=0` only a positive quantity binds.
   */
  predicate QuantityBindsAsWritten(quantity: int)
  {
    quantity != 0 && quantity >= 0
  }

  /**
   * As bound, a body with quantity 0 is refused before the lookup, so the
   * branch that deletes the line on quantity 0 is never reached; exactly the
   * positive quantities get through. UpdateCartItem above takes the tag as
   * evidently meant, with 0 allowed.
   */
  lemma ZeroQuantityRefusedAsWritten()
    ensures !QuantityBindsAsWritten(0)
    ensures forall q :: QuantityBindsAsWritten(q) <==> q >= 1
  {
  }

  /**
   * UpdateCartItem with the body bound as the tag is written: a quantity
   * that does not bind, 0 included, is refused with 400 before the line is
   * looked up; a positive one takes the path of UpdateCartItem.
   */
  method UpdateCartItemAsWritten(db: Database, user: Option<Id>, itemId: Id, quantity: int) returns (st: Status)
    requires db.Valid()
    modifies db`cartItems
    ensures db.Valid()
    ensures user.None? ==> st == Unauthenticated
    ensures user.Some? && !QuantityBindsAsWritten(quantity) ==> st == InvalidRequest
    ensures user.Some? && quantity == 0 ==> st == InvalidRequest && db.cartItems == old(db.cartItems)
    ensures !st.Ok? ==> db.cartItems == old(db.cartItems)
    ensures user.Some? && QuantityBindsAsWritten(quantity) ==>
      (st.NotFound? <==> OwnedLineIndex(db.carts, old(db.cartItems), user.value, itemId).None?)
    ensures user.Some? && QuantityBindsAsWritten(quantity) && OwnedLineIndex(db.carts, old(db.cartItems), user.value, itemId).Some? ==>
      var k := OwnedLineIndex(db.carts, old(db.cartItems), user.value, itemId).value;
      var line := old(db.cartItems)[k];
      match StockOf(db.products, line.productId)
      case None => st == ServerError("Product not found")
      case Some(stock) =>
        (stock < quantity ==> st == InsufficientStock) &&
        (stock >= quantity ==> st.Ok? && db.cartItems == old(db.cartItems)[k := line.(quantity := quantity)])
  {
    if user.None? {
      return Unauthenticated;
    }
    if !QuantityBindsAsWritten(quantity) {
      return InvalidRequest;
    }
    st := UpdateCartItem(db, user, itemId, quantity);
  }

  /** RemoveFromCart: deletes the caller's own line, and nothing else. */
  method RemoveFromCart(db: Database, user: Option<Id>, itemId: Id) returns (st: Status)
    requires db.Valid()
    modifies db`cartItems
    ensures db.Valid()
    ensures user.None? ==> st == Unauthenticated
    ensures !st.Ok? ==> db.cartItems == old(db.cartItems)
    ensures user.Some? ==>
      if OwnedLineIndex(db.carts, old(db.cartItems), user.value, itemId).None?
      then st == NotFound("Cart item not found")
      else st.Ok? && db.cartItems == WithoutId(old(db.cartItems), itemId)
  {
    if user.None? {
      return Unauthenticated;
    }
    var k := OwnedLineIndex(db.carts, db.cartItems, user.value, itemId);
    if k.None? {
      return NotFound("Cart item not found");
    }
    ghost var before := db.cartItems;
    db.cartItems := WithoutId(db.cartItems, itemId);
    ValidAfterFilter(db, before);
    return Ok("Item removed from cart successfully");
  }

  /** ClearCart: deletes every line of the user's cart; without a cart there is nothing to do. */
  method ClearCart(db: Database, user: Option<Id>) returns (st: Status)
    requires db.Valid()
    modifies db`cartItems
    ensures db.Valid()
    ensures user.None? ==> st == Unauthenticated && db.cartItems == old(db.cartItems)
    ensures user.Some? && CartIndex(db.carts, user.value).None? ==>
      st == Ok("Cart is already empty") && db.cartItems == old(db.cartItems)
    ensures user.Some? && CartIndex(db.carts, user.value).Some? ==>
      st.Ok? && db.cartItems == WithoutCart(old(db.cartItems), db.carts[CartIndex(db.carts, user.value).value].id)
  {
    if user.None? {
      return Unauthenticated;
    }
    var ci := CartIndex(db.carts, user.value);
    if ci.None? {
      return Ok("Cart is already empty");
    }
    ghost var before := db.cartItems;
    db.cartItems := WithoutCart(db.cartItems, db.carts[ci.value].id);
    ValidAfterFilter(db, before);
    return Ok("Cart cleared successfully");
  }

  /** After ClearCart the user's cart holds no units of any product. */
  lemma ClearedCartIsEmpty(carts: seq<Cart>, items: seq<CartItem>, userId: Id, productId: Id)
    requires CartIndex(carts, userId).Some?
    ensures QuantityInCart(carts, WithoutCart(items, carts[CartIndex(carts, userId).value].id), userId, productId) == 0
  {
  }
}
