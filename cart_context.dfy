/**
 * The client cart (frontend/src/contexts/CartContext.tsx): a list of cart
 * items refreshed from the server after each successful change, and the
 * totals derived from it. The stored login token, the server replies and
 * the refreshed cart are parameters; the requests the provider sends are
 * returned in order.
 */
module CartContext {
  import opened Wrappers
  import Seqs
  import opened Ui

  /** A shipping fee of 0 stands for an absent one: both are falsy. */
  datatype ClientProduct = ClientProduct(id: int, price: real, stock: int, isImported: bool, shippingFee: real)

  datatype ClientCartItem = ClientCartItem(id: int, product: ClientProduct, quantity: int, price: real)

  /** The requests the provider sends to the cart endpoints. */
  datatype Request =
    | FetchCartRequest              // GET /api/cart
    | AddRequest(productId: int, quantity: int)   // POST /api/cart/add
    | DeleteItemRequest(itemId: int)              // DELETE /api/cart/items/:id
    | UpdateItemRequest(itemId: int, quantity: int) // PUT /api/cart/items/:id
    | ClearRequest                  // DELETE /api/cart/clear


  /** The reply to the refreshing GET: its `items` may be missing. */
  datatype FetchReply = FetchThrows | Fetched(ok: bool, items: Option<seq<ClientCartItem>>)

  /** `if (!token)`: a missing or empty token stops the operation. */
  predicate HasToken(token: Option<string>)
  {
    token.Some? && token.value != ""
  }

  function LineTotal(item: ClientCartItem): real
  {
    item.price * item.quantity as real
  }

  /** getCartTotal: the sum of price times quantity. */
  function CartTotal(items: seq<ClientCartItem>): (r: real)
    ensures (forall i :: 0 <= i < |items| ==> items[i].price >= 0.0 && items[i].quantity >= 0) ==> r >= 0.0
  {
    if |items| == 0 then 0.0 else LineTotal(items[0]) + CartTotal(items[1..])
  }

  /** `item.product.is_imported && item.product.shipping_fee`. */
  predicate FeeApplies(item: ClientCartItem)
  {
    item.product.isImported && item.product.shippingFee != 0.0
  }

  function LineFee(item: ClientCartItem): real
  {
    if FeeApplies(item) then item.product.shippingFee * item.quantity as real else 0.0
  }

  /** getDeliveryFee: the shipping fee times quantity, over imported items with a fee. */
  function DeliveryFee(items: seq<ClientCartItem>): (r: real)
    ensures (forall i :: 0 <= i < |items| ==> items[i].product.shippingFee >= 0.0 && items[i].quantity >= 0) ==> r >= 0.0
  {
    if |items| == 0 then 0.0 else LineFee(items[0]) + DeliveryFee(items[1..])
  }

  /** getCartItemsCount: the number of units in the cart. */
  function ItemsCount(items: seq<ClientCartItem>): (r: int)
    ensures (forall i :: 0 <= i < |items| ==> items[i].quantity >= 0) ==> r >= 0
    ensures (forall i :: 0 <= i < |items| ==> items[i].quantity >= 1) ==> r >= |items|
  {
    if |items| == 0 then 0 else items[0].quantity + ItemsCount(items[1..])
  }

  lemma {:induction false} CartTotalAppend(a: seq<ClientCartItem>, b: seq<ClientCartItem>)
    ensures CartTotal(a + b) == CartTotal(a) + CartTotal(b)
  {
    if |a| > 0 {
      assert (a + b)[1..] == a[1..] + b;
      CartTotalAppend(a[1..], b);
    } else {
      assert a + b == b;
    }
  }

  lemma {:induction false} DeliveryFeeAppend(a: seq<ClientCartItem>, b: seq<ClientCartItem>)
    ensures DeliveryFee(a + b) == DeliveryFee(a) + DeliveryFee(b)
  {
    if |a| > 0 {
      assert (a + b)[1..] == a[1..] + b;
      DeliveryFeeAppend(a[1..], b);
    } else {
      assert a + b == b;
    }
  }

  /** Local products (or imported ones without a fee) add nothing to the delivery fee. */
  lemma {:induction false} NoImportedItemsNoFee(items: seq<ClientCartItem>)
    requires forall i :: 0 <= i < |items| ==> !FeeApplies(items[i])
    ensures DeliveryFee(items) == 0.0
  {
    if |items| > 0 {
      NoImportedItemsNoFee(items[1..]);
    }
  }

  /**
   * Two units of a local product at 100 and one imported unit at 50 with a
   * shipping fee of 20 give a subtotal of 250, a delivery fee of 20 and 3 units.
   */
  lemma ExampleCart()
    ensures var local := ClientCartItem(1, ClientProduct(10, 100.0, 5, false, 0.0), 2, 100.0);
            var imported := ClientCartItem(2, ClientProduct(11, 50.0, 5, true, 20.0), 1, 50.0);
            CartTotal([local, imported]) == 250.0 && DeliveryFee([local, imported]) == 20.0 &&
            CartTotal([local, imported]) + DeliveryFee([local, imported]) == 270.0 &&
            ItemsCount([local, imported]) == 3
  {
    var local := ClientCartItem(1, ClientProduct(10, 100.0, 5, false, 0.0), 2, 100.0);
    var imported := ClientCartItem(2, ClientProduct(11, 50.0, 5, true, 20.0), 1, 50.0);
    var s := [local, imported];
    assert s[1..] == [imported] && s[1..][1..] == [];
    assert CartTotal([imported]) == 50.0 && DeliveryFee([imported]) == 20.0 && ItemsCount([imported]) == 1;
  }

  /** The item id of the first line holding `productId` (`cartItems.find`). */
  function FindItem(items: seq<ClientCartItem>, productId: int): (r: Option<int>)
    ensures r.Some? <==> exists i :: 0 <= i < |items| && items[i].product.id == productId
    ensures r.Some? ==> exists i :: 0 <= i < |items| && items[i].product.id == productId && items[i].id == r.value &&
                          forall j :: 0 <= j < i ==> items[j].product.id != productId
  {
    match Seqs.FindFirst(items, (it: ClientCartItem) => it.product.id == productId)
    case None => None
    case Some(i) => Some(items[i].id)
  }

  /** The list after a refresh: replaced by the reply's items (or `[]`) when the reply is ok. */
  function AfterFetch(items: seq<ClientCartItem>, reply: FetchReply): seq<ClientCartItem>
  {
    if reply.Fetched? && reply.ok then reply.items.GetOr([]) else items
  }

  /** An answer that counts as `response.ok`. */
  predicate AnswerOk(answer: Answer)
  {
    answer.Answered? && answer.ok
  }

  /** The toast after a change whose answer carries an `error` text: success, the text or the fallback, or the network message. */
  function ChangeToast(answer: Answer, success: Toast, fallback: string): (t: Toast)
    ensures AnswerOk(answer) ==> t == success
    ensures answer.Answered? && !answer.ok ==> t == ToastError(ErrorText(answer.message, fallback))
    ensures answer.AnswerThrows? ==> t == ToastError("Network error. Please try again.")
  {
    match answer
    case AnswerThrows => ToastError("Network error. Please try again.")
    case Answered(ok, message) => if ok then success else ToastError(ErrorText(message, fallback))
  }

  /** The toast after a change whose failure text is fixed. */
  function ReplyToast(reply: Reply, success: string, failure: string): (t: Toast)
    ensures reply == Reply(true) ==> t == ToastSuccess(success)
    ensures reply == Reply(false) ==> t == ToastError(failure)
    ensures reply.NetworkError? ==> t == ToastError("Network error. Please try again.")
  {
    match reply
    case NetworkError => ToastError("Network error. Please try again.")
    case Reply(ok) => if ok then ToastSuccess(success) else ToastError(failure)
  }

  class CartProvider {
    var cartItems: seq<ClientCartItem>
    var loading: bool

    constructor()
      ensures cartItems == [] && !loading
    {
      cartItems := [];
      loading := false;
    }

    /** fetchCart: refreshes the list when there is a token and the reply is ok; a failure is only logged. */
    method FetchCart(token: Option<string>, reply: FetchReply) returns (sent: seq<Request>)
      modifies this
      ensures !HasToken(token) ==> sent == [] && cartItems == old(cartItems)
      ensures HasToken(token) ==> sent == [FetchCartRequest] && cartItems == AfterFetch(old(cartItems), reply)
      ensures loading == old(loading)
    {
      if !HasToken(token) {
        return [];
      }
      sent := [FetchCartRequest];
      if reply.Fetched? && reply.ok {
        cartItems := if reply.items.Some? then reply.items.value else [];
      }
    }

    /** addToCart: without a token the user is asked to sign in; otherwise the product and quantity are posted, then the cart is refreshed on success. */
    method AddToCart(token: Option<string>, product: ClientProduct, quantity: int, answer: Answer, refresh: FetchReply)
      returns (sent: seq<Request>, toast: Toast)
      modifies this
      ensures !HasToken(token) ==>
        sent == [] && cartItems == old(cartItems) && loading == old(loading) &&
        toast == ToastError("Please login to add items to cart")
      ensures HasToken(token) && AnswerOk(answer) ==>
        sent == [AddRequest(product.id, quantity), FetchCartRequest] && cartItems == AfterFetch(old(cartItems), refresh)
      ensures HasToken(token) && !AnswerOk(answer) ==>
        sent == [AddRequest(product.id, quantity)] && cartItems == old(cartItems)
      ensures HasToken(token) ==>
        !loading && toast == ChangeToast(answer, ToastSuccess("Item added to cart!"), "Failed to add item to cart")
    {
      if !HasToken(token) {
        return [], ToastError("Please login to add items to cart");
      }
      loading := true;
      sent := [AddRequest(product.id, quantity)];
      if AnswerOk(answer) {
        var more := FetchCart(token, refresh);
        sent := sent + more;
      }
      toast := ChangeToast(answer, ToastSuccess("Item added to cart!"), "Failed to add item to cart");
      loading := false;
    }

    /** removeFromCart: deletes the line holding the product, if the cart shows one. */
    method RemoveFromCart(token: Option<string>, productId: int, reply: Reply, refresh: FetchReply)
      returns (sent: seq<Request>, toast: Toast)
      modifies this
      ensures !HasToken(token) || FindItem(old(cartItems), productId).None? ==>
        sent == [] && cartItems == old(cartItems) && loading == old(loading) && toast == NoToast
      ensures HasToken(token) && FindItem(old(cartItems), productId).Some? ==>
        var id := FindItem(old(cartItems), productId).value;
        !loading && toast == ReplyToast(reply, "Item removed from cart", "Failed to remove item") &&
        (reply == Reply(true) ==> sent == [DeleteItemRequest(id), FetchCartRequest] && cartItems == AfterFetch(old(cartItems), refresh)) &&
        (reply != Reply(true) ==> sent == [DeleteItemRequest(id)] && cartItems == old(cartItems))
    {
      if !HasToken(token) {
        return [], NoToast;
      }
      var item := FindItem(cartItems, productId);
      if item.None? {
        return [], NoToast;
      }
      loading := true;
      sent := [DeleteItemRequest(item.value)];
      if reply == Reply(true) {
        var more := FetchCart(token, refresh);
        sent := sent + more;
      }
      toast := ReplyToast(reply, "Item removed from cart", "Failed to remove item");
      loading := false;
    }

    /**
     * updateQuantity: a quantity below 1 is a removal; otherwise the line's
     * quantity is put and the cart refreshed on success, with no toast then.
     */
    method UpdateQuantity(token: Option<string>, productId: int, quantity: int, answer: Answer, refresh: FetchReply)
      returns (sent: seq<Request>, toast: Toast)
      modifies this
      ensures !HasToken(token) || FindItem(old(cartItems), productId).None? ==>
        sent == [] && cartItems == old(cartItems) && loading == old(loading) && toast == NoToast
      ensures HasToken(token) && FindItem(old(cartItems), productId).Some? && quantity < 1 ==>
        var id := FindItem(old(cartItems), productId).value;
        var reply := if answer.AnswerThrows? then NetworkError else Reply(answer.ok);
        !loading && toast == ReplyToast(reply, "Item removed from cart", "Failed to remove item") &&
        (AnswerOk(answer) ==> sent == [DeleteItemRequest(id), FetchCartRequest] && cartItems == AfterFetch(old(cartItems), refresh)) &&
        (!AnswerOk(answer) ==> sent == [DeleteItemRequest(id)] && cartItems == old(cartItems))
      ensures HasToken(token) && FindItem(old(cartItems), productId).Some? && quantity >= 1 ==>
        var id := FindItem(old(cartItems), productId).value;
        !loading && toast == ChangeToast(answer, NoToast, "Failed to update quantity") &&
        (AnswerOk(answer) ==> sent == [UpdateItemRequest(id, quantity), FetchCartRequest] && cartItems == AfterFetch(old(cartItems), refresh)) &&
        (!AnswerOk(answer) ==> sent == [UpdateItemRequest(id, quantity)] && cartItems == old(cartItems))
    {
      if quantity < 1 {
        var reply := if answer.AnswerThrows? then NetworkError else Reply(answer.ok);
        sent, toast := RemoveFromCart(token, productId, reply, refresh);
        return;
      }
      if !HasToken(token) {
        return [], NoToast;
      }
      var item := FindItem(cartItems, productId);
      if item.None? {
        return [], NoToast;
      }
      loading := true;
      sent := [UpdateItemRequest(item.value, quantity)];
      if AnswerOk(answer) {
        var more := FetchCart(token, refresh);
        sent := sent + more;
      }
      toast := ChangeToast(answer, NoToast, "Failed to update quantity");
      loading := false;
    }

    /** clearCart: empties the list locally once the server confirms. */
    method ClearCart(token: Option<string>, reply: Reply) returns (sent: seq<Request>, toast: Toast)
      modifies this
      ensures !HasToken(token) ==>
        sent == [] && cartItems == old(cartItems) && loading == old(loading) && toast == NoToast
      ensures HasToken(token) ==>
        sent == [ClearRequest] && !loading && cartItems == (if reply == Reply(true) then [] else old(cartItems)) &&
        toast == ReplyToast(reply, "Cart cleared", "Failed to clear cart")
    {
      if !HasToken(token) {
        return [], NoToast;
      }
      loading := true;
      sent := [ClearRequest];
      if reply == Reply(true) {
        cartItems := [];
      }
      toast := ReplyToast(reply, "Cart cleared", "Failed to clear cart");
      loading := false;
    }
  }
}
