/**
 * The payment service (backend/services/payment.go): it creates payment
 * records when an order is placed and settles them when a provider calls
 * back. The provider round trips (OAuth token, STK push) are outcomes
 * given as parameters, and the clock is a Unix time in seconds.
 */
module PaymentService {
  import opened Wrappers
  import opened Models
  import opened Store
  import Text
  import Seqs

  const MethodMpesa := "mpesa"
  const MethodAirtel := "airtel"
  const PaymentPending := "pending"
  const PaymentSucceeded := "success"
  const PaymentFailed := "failed"
  const OrderPaid := "paid"
  /** The text of GORM's `ErrRecordNotFound`. */
  const RecordNotFound := "record not found"

  /** What the M-Pesa side answered: the token request fails, the STK push fails, or it is accepted. */
  datatype MPesaOutcome =
    | TokenFailed(error: string)
    | StkFailed(error: string)
    | StkAccepted(checkoutRequestId: string, merchantRequestId: string)

  /** The statuses the service writes. */
  predicate KnownStatus(status: string)
  {
    status == PaymentPending || status == PaymentSucceeded || status == PaymentFailed
  }

  /** Every record carries a status the service writes. */
  predicate StatusesKnown(payments: seq<Payment>)
  {
    forall i :: 0 <= i < |payments| ==> KnownStatus(payments[i].status)
  }

  /** The record both initiations insert before any provider step. */
  function NewPayment(id: Id, orderId: Id, paymentMethod: string, phone: string, amount: real): Payment
  {
    Payment(id, orderId, paymentMethod, amount, CurrencyKes, PaymentPending, "", "", phone)
  }

  /** InitiateMPesaPayment: a pending KES record, failed when a provider step fails, else carrying the provider's ids. */
  method InitiateMPesaPayment(db: Database, orderId: Id, phone: string, amount: real, outcome: MPesaOutcome)
    returns (payment: Option<Payment>, err: Option<string>)
    modifies db`payments, db`nextId
    ensures db.nextId == old(db.nextId) + 1
    ensures |db.payments| == |old(db.payments)| + 1 && db.payments[..|old(db.payments)|] == old(db.payments)
    ensures var r := db.payments[|old(db.payments)|];
      r.id == old(db.nextId) && r.orderId == orderId && r.paymentMethod == MethodMpesa &&
      r.amount == amount && r.currency == CurrencyKes && r.phoneNumber == phone &&
      (outcome.StkAccepted? ==>
        r.status == PaymentPending && r.transactionId == outcome.checkoutRequestId &&
        r.externalRef == outcome.merchantRequestId && payment == Some(r) && err.None?) &&
      (!outcome.StkAccepted? ==>
        r.status == PaymentFailed && r.transactionId == "" && payment.None? && err == Some(outcome.error))
    ensures StatusesKnown(old(db.payments)) ==> StatusesKnown(db.payments)
  {
    var p := NewPayment(db.nextId, orderId, MethodMpesa, phone, amount);
    db.payments := db.payments + [p];
    db.nextId := db.nextId + 1;
    var k := |db.payments| - 1;
    match outcome {
      case TokenFailed(e) =>
        db.payments := db.payments[k := p.(status := PaymentFailed)];
        return None, Some(e);
      case StkFailed(e) =>
        db.payments := db.payments[k := p.(status := PaymentFailed)];
        return None, Some(e);
      case StkAccepted(checkout, merchant) =>
        p := p.(transactionId := checkout, externalRef := merchant);
        db.payments := db.payments[k := p];
        return Some(p), None;
    }
  }

  /** The transaction id the Airtel initiation stores: `TXN-<orderID>-<unix>`. */
  function AirtelTransactionId(orderId: Id, unix: nat): (r: string)
    ensures Text.StartsWith(r, "TXN-")
  {
    "TXN-" + Text.NatToDecimal(orderId) + "-" + Text.NatToDecimal(unix)
  }

  lemma NoDashInDecimal(n: nat)
    ensures '-' !in Text.NatToDecimal(n)
  {
    var d := Text.NatToDecimal(n);
    forall i | 0 <= i < |d|
      ensures d[i] != '-'
    {
      assert Text.IsDigit(d[i]);
    }
  }

  lemma JoinThree(a: string, b: string, c: string)
    ensures Text.Join([a, b, c], '-') == a + "-" + b + "-" + c
  {
    assert [a, b, c][1..] == [b, c];
    assert [b, c][1..] == [c];
    assert Text.Join([b, c], '-') == b + "-" + c;
    assert a + "-" + (b + "-" + c) == a + "-" + b + "-" + c;
  }

  /** The pieces of an Airtel id between its dashes. */
  lemma AirtelIdPieces(o: Id, t: nat)
    ensures Text.Split(AirtelTransactionId(o, t), '-') == ["TXN", Text.NatToDecimal(o), Text.NatToDecimal(t)]
  {
    NoDashInDecimal(o);
    NoDashInDecimal(t);
    JoinThree("TXN", Text.NatToDecimal(o), Text.NatToDecimal(t));
    assert "TXN-" == "TXN" + "-";
    assert AirtelTransactionId(o, t) == "TXN" + "-" + Text.NatToDecimal(o) + "-" + Text.NatToDecimal(t);
    Text.SplitJoin(["TXN", Text.NatToDecimal(o), Text.NatToDecimal(t)], '-');
  }

  /** Different orders, or the same order in different seconds, get different Airtel ids. */
  lemma {:induction false} AirtelTransactionIdsDistinct(o1: Id, t1: nat, o2: Id, t2: nat)
    requires o1 != o2 || t1 != t2
    ensures AirtelTransactionId(o1, t1) != AirtelTransactionId(o2, t2)
  {
    if AirtelTransactionId(o1, t1) == AirtelTransactionId(o2, t2) {
      AirtelIdPieces(o1, t1);
      AirtelIdPieces(o2, t2);
      var p1 := Text.Split(AirtelTransactionId(o1, t1), '-');
      assert p1[1] == Text.NatToDecimal(o1) && p1[1] == Text.NatToDecimal(o2);
      assert p1[2] == Text.NatToDecimal(t1) && p1[2] == Text.NatToDecimal(t2);
      Text.DecimalRoundTrip(o1);
      Text.DecimalRoundTrip(o2);
      Text.DecimalRoundTrip(t1);
      Text.DecimalRoundTrip(t2);
    }
  }

  /** InitiateAirtelPayment: the record stays pending and gets the generated transaction id. */
  method InitiateAirtelPayment(db: Database, orderId: Id, phone: string, amount: real, now: nat)
    returns (payment: Payment)
    modifies db`payments, db`nextId
    ensures db.nextId == old(db.nextId) + 1
    ensures db.payments == old(db.payments) + [payment]
    ensures payment.id == old(db.nextId) && payment.orderId == orderId && payment.paymentMethod == MethodAirtel
    ensures payment.amount == amount && payment.currency == CurrencyKes && payment.phoneNumber == phone
    ensures payment.status == PaymentPending && payment.transactionId == AirtelTransactionId(orderId, now)
    ensures StatusesKnown(old(db.payments)) ==> StatusesKnown(db.payments)
  {
    payment := NewPayment(db.nextId, orderId, MethodAirtel, phone, amount);
    db.payments := db.payments + [payment];
    db.nextId := db.nextId + 1;
    var k := |db.payments| - 1;
    payment := payment.(transactionId := AirtelTransactionId(orderId, now), status := PaymentPending);
    db.payments := db.payments[k := payment];
  }

  /** `Where("transaction_id = ? AND payment_method = ?").First(&payment)`. */
  function PaymentIndex(payments: seq<Payment>, transactionId: string, paymentMethod: string): (r: Option<nat>)
    ensures r.Some? ==> (r.value < |payments| &&
      payments[r.value].transactionId == transactionId && payments[r.value].paymentMethod == paymentMethod)
    ensures r.None? <==> forall i :: 0 <= i < |payments| ==>
      !(payments[i].transactionId == transactionId && payments[i].paymentMethod == paymentMethod)
  {
    Seqs.FindFirst(payments, (p: Payment) => p.transactionId == transactionId && p.paymentMethod == paymentMethod)
  }

  /** `Model(&Order{}).Where("id = ?", id).Update("payment_status", status)`. */
  function SetPaymentStatus(orders: seq<Order>, orderId: Id, status: string): (r: seq<Order>)
    ensures |r| == |orders|
    ensures forall i :: 0 <= i < |orders| ==>
      r[i] == if orders[i].id == orderId then orders[i].(paymentStatus := status) else orders[i]
  {
    Seqs.Map(orders, (o: Order) => if o.id == orderId then o.(paymentStatus := status) else o)
  }

  /** The stock table after a failure callback for an order: its lines go back, or nothing when the order is gone. */
  function RestockFor(products: seq<Product>, orders: seq<Order>, orderId: Id): seq<Product>
  {
    match OrderIndex(orders, orderId)
    case None => products
    case Some(o) => ApplyItems(products, orders[o].items, 1)
  }

  /**
   * ProcessPaymentCallback. No record with both the transaction id and the
   * method: an error and no change. Success: the record becomes `success`
   * with the external reference and the order becomes `paid`. Failure: the
   * record becomes `failed` and the order's lines go back into stock,
   * whatever the record's status was before.
   */
  method ProcessPaymentCallback(db: Database, paymentMethod: string, transactionId: string, success: bool, externalRef: string)
    returns (err: Option<string>)
    modifies db`payments, db`orders, db`products
    ensures PaymentIndex(old(db.payments), transactionId, paymentMethod).None? ==>
      err == Some(RecordNotFound) && db.payments == old(db.payments) &&
      db.orders == old(db.orders) && db.products == old(db.products)
    ensures PaymentIndex(old(db.payments), transactionId, paymentMethod).Some? ==>
      var k := PaymentIndex(old(db.payments), transactionId, paymentMethod).value;
      var p := old(db.payments)[k];
      err.None? &&
      (success ==>
        db.payments == old(db.payments)[k := p.(status := PaymentSucceeded, externalRef := externalRef)] &&
        db.orders == SetPaymentStatus(old(db.orders), p.orderId, OrderPaid) &&
        db.products == old(db.products)) &&
      (!success ==>
        db.payments == old(db.payments)[k := p.(status := PaymentFailed)] &&
        db.orders == old(db.orders) &&
        db.products == RestockFor(old(db.products), old(db.orders), p.orderId))
    ensures StatusesKnown(old(db.payments)) ==> StatusesKnown(db.payments)
  {
    var found := PaymentIndex(db.payments, transactionId, paymentMethod);
    if found.None? {
      return Some(RecordNotFound);
    }
    var k := found.value;
    var p := db.payments[k];
    if success {
      p := p.(status := PaymentSucceeded, externalRef := externalRef);
      db.orders := SetPaymentStatus(db.orders, p.orderId, OrderPaid);
    } else {
      p := p.(status := PaymentFailed);
      var o := OrderIndex(db.orders, p.orderId);
      if o.Some? {
        UpdateStockPerLine(db, db.orders[o.value].items, 1);
      }
    }
    db.payments := db.payments[k := p];
    return None;
  }

  /** Two failure callbacks for the same order put its lines back twice. */
  lemma {:induction false} RepeatedFailureRestocksTwice(products: seq<Product>, orders: seq<Order>, orderId: Id)
    requires OrderIndex(orders, orderId).Some?
    ensures var twice := RestockFor(RestockFor(products, orders, orderId), orders, orderId);
      var items := orders[OrderIndex(orders, orderId).value].items;
      |twice| == |products| &&
      forall i :: 0 <= i < |products| ==> twice[i].stock == products[i].stock + 2 * Demand(items, products[i].id)
  {
    var items := orders[OrderIndex(orders, orderId).value].items;
    var once := ApplyItems(products, items, 1);
    ApplyItemsStock(products, items, 1);
    ApplyItemsStock(once, items, 1);
    forall i | 0 <= i < |products|
      ensures ApplyItems(once, items, 1)[i].stock == products[i].stock + 2 * Demand(items, products[i].id)
    {
      assert once[i].id == products[i].id;
    }
  }
}
