/**
 * The mobile-payment endpoints (backend/handlers/payment.go): starting an
 * M-Pesa or Airtel payment, reading its status by transaction id, and the
 * M-Pesa result callback. The handler keeps its own record type
 * (`MobilePayment`); the random bytes of the transaction id and the
 * provider round trips are parameters.
 */
module PaymentHandler {
  import opened Wrappers
  import opened Models
  import opened Http
  import opened Store
  import Text
  import Seqs

  const ProviderMpesa := "mpesa"
  const ProviderAirtel := "airtel"
  const MobilePending := "pending"
  const MobileCompleted := "completed"
  const MobileFailed := "failed"

  newtype Byte = x: int | 0 <= x < 256

  datatype MobilePaymentRequest = MobilePaymentRequest(provider: string, phoneNumber: string, amount: real, orderId: Id)

  /** The `binding:"required"` tags: non-empty provider and phone, non-zero amount. */
  predicate BindsMobileRequest(req: MobilePaymentRequest)
  {
    req.provider != "" && req.phoneNumber != "" && req.amount != 0.0
  }

  /** What the M-Pesa side answered to the handler's own initiation. */
  datatype StkOutcome =
    | TokenError(error: string)          // token request failed
    | TransportError(error: string)      // request, network or JSON failure of the STK push
    | StkRejected(description: string)   // ResponseCode other than "0"
    | StkAccepted(checkoutRequestId: string)

  /** The error text `initiateMPesaPayment` returns, when it fails. */
  function StkError(outcome: StkOutcome): Option<string>
  {
    match outcome
    case TokenError(e) => Some("failed to get M-Pesa access token: " + e)
    case TransportError(e) => Some(e)
    case StkRejected(d) => Some("M-Pesa STK Push failed: " + d)
    case StkAccepted(_) => None
  }

  function HexDigit(d: nat): char
    requires d < 16
  {
    if d < 10 then ('0' as int + d) as char else ('a' as int + d - 10) as char
  }

  predicate IsLowerHex(c: char)
  {
    ('0' <= c <= '9') || ('a' <= c <= 'f')
  }

  /** `fmt.Sprintf("%x", bytes)`: two lowercase hex digits per byte. */
  function Hex(bytes: seq<Byte>): (r: string)
    ensures |r| == 2 * |bytes|
    ensures forall i :: 0 <= i < |r| ==> IsLowerHex(r[i])
  {
    if |bytes| == 0 then []
    else [HexDigit(bytes[0] as int / 16), HexDigit(bytes[0] as int % 16)] + Hex(bytes[1..])
  }

  /** generateTransactionID: the hex of 16 random bytes, cut to its first 16 characters. */
  function TransactionId(bytes: seq<Byte>): (r: string)
    requires |bytes| == 16
    ensures |r| == 16
    ensures forall i :: 0 <= i < 16 ==> IsLowerHex(r[i])
  {
    Hex(bytes)[..16]
  }

  lemma HexDigitInjective(a: nat, b: nat)
    requires a < 16 && b < 16 && HexDigit(a) == HexDigit(b)
    ensures a == b
  {
  }

  lemma {:induction false} HexAppend(a: seq<Byte>, b: seq<Byte>)
    ensures Hex(a + b) == Hex(a) + Hex(b)
  {
    if |a| == 0 {
      assert a + b == b;
    } else {
      assert (a + b)[1..] == a[1..] + b;
      HexAppend(a[1..], b);
    }
  }

  lemma {:induction false} HexInjective(a: seq<Byte>, b: seq<Byte>)
    requires |a| == |b| && Hex(a) == Hex(b)
    ensures a == b
  {
    if |a| > 0 {
      var ha, hb := Hex(a), Hex(b);
      assert ha[0] == hb[0] && ha[1] == hb[1];
      HexDigitInjective(a[0] as int / 16, b[0] as int / 16);
      HexDigitInjective(a[0] as int % 16, b[0] as int % 16);
      assert a[0] == b[0];
      assert ha[2..] == Hex(a[1..]) && hb[2..] == Hex(b[1..]);
      HexInjective(a[1..], b[1..]);
      assert a == [a[0]] + a[1..] && b == [b[0]] + b[1..];
    }
  }

  /** Only the first 8 of the 16 random bytes reach the id: two ids agree exactly when those bytes do. */
  lemma {:induction false} TransactionIdUsesFirstHalf(b1: seq<Byte>, b2: seq<Byte>)
    requires |b1| == 16 && |b2| == 16
    ensures TransactionId(b1) == TransactionId(b2) <==> b1[..8] == b2[..8]
  {
    HexAppend(b1[..8], b1[8..]);
    HexAppend(b2[..8], b2[8..]);
    assert b1 == b1[..8] + b1[8..] && b2 == b2[..8] + b2[8..];
    assert TransactionId(b1) == Hex(b1[..8]);
    assert TransactionId(b2) == Hex(b2[..8]);
    if TransactionId(b1) == TransactionId(b2) {
      HexInjective(b1[..8], b2[..8]);
    }
  }

  /** The statuses this handler writes. */
  predicate MobileStatusesKnown(payments: seq<MobilePayment>)
  {
    forall i :: 0 <= i < |payments| ==>
      payments[i].status == MobilePending || payments[i].status == MobileCompleted || payments[i].status == MobileFailed
  }

  /**
   * InitiateMobilePayment. The body is bound before authentication. A
   * pending record with reference `SAKI-<id>` is stored first; an M-Pesa
   * failure marks it failed, an accepted push replaces the reference with
   * the CheckoutRequestID, Airtel leaves it pending, and any other
   * provider answers 400 with the pending record left behind.
   */
  method InitiateMobilePayment(db: Database, user: Option<Id>, req: MobilePaymentRequest, random: seq<Byte>, stk: StkOutcome)
    returns (st: Status, transactionId: Option<string>)
    requires |random| == 16
    modifies db`mobilePayments, db`nextId
    ensures !BindsMobileRequest(req) ==> st == InvalidRequest && unchanged(db)
    ensures BindsMobileRequest(req) && user.None? ==> st == Unauthenticated && unchanged(db)
    ensures BindsMobileRequest(req) && user.Some? ==>
      var n := |old(db.mobilePayments)|;
      var id := TransactionId(random);
      |db.mobilePayments| == n + 1 && db.mobilePayments[..n] == old(db.mobilePayments) &&
      var p := db.mobilePayments[n];
      p.id == old(db.nextId) && p.userId == user.value && p.orderId == req.orderId &&
      p.transactionId == id && p.provider == req.provider && p.phoneNumber == req.phoneNumber &&
      p.amount == req.amount &&
      (req.provider == ProviderMpesa && StkError(stk).Some? ==>
        p.status == MobileFailed && p.reference == "SAKI-" + id &&
        st == ServerError(StkError(stk).value) && transactionId.None?) &&
      (req.provider == ProviderMpesa && stk.StkAccepted? ==>
        p.status == MobilePending && p.reference == stk.checkoutRequestId &&
        st == Ok("Payment request sent. Please check your phone.") && transactionId == Some(id)) &&
      (req.provider == ProviderAirtel ==>
        p.status == MobilePending && p.reference == "SAKI-" + id &&
        st == Ok("Payment request sent. Please check your phone.") && transactionId == Some(id)) &&
      (req.provider != ProviderMpesa && req.provider != ProviderAirtel ==>
        p.status == MobilePending && p.reference == "SAKI-" + id &&
        st == BadRequest("Unsupported payment provider") && transactionId.None?)
    ensures MobileStatusesKnown(old(db.mobilePayments)) ==> MobileStatusesKnown(db.mobilePayments)
  {
    if !BindsMobileRequest(req) {
      return InvalidRequest, None;
    }
    if user.None? {
      return Unauthenticated, None;
    }
    var id := TransactionId(random);
    var p := MobilePayment(db.nextId, user.value, req.orderId, id, req.provider, req.phoneNumber,
                           req.amount, MobilePending, "SAKI-" + id);
    db.mobilePayments := db.mobilePayments + [p];
    db.nextId := db.nextId + 1;
    var k := |db.mobilePayments| - 1;
    if req.provider == ProviderMpesa {
      var err := StkError(stk);
      if err.Some? {
        db.mobilePayments := db.mobilePayments[k := p.(status := MobileFailed)];
        return ServerError(err.value), None;
      }
      db.mobilePayments := db.mobilePayments[k := p.(reference := stk.checkoutRequestId)];
    } else if req.provider == ProviderAirtel {
      db.mobilePayments := db.mobilePayments[k := p.(status := MobilePending)];
    } else {
      return BadRequest("Unsupported payment provider"), None;
    }
    return Ok("Payment request sent. Please check your phone."), Some(id);
  }

  /** GetPaymentStatus: the first record with that transaction id, or not-found. */
  function GetPaymentStatus(payments: seq<MobilePayment>, transactionId: string): (r: Reply<MobilePayment>)
    ensures r.status.Ok? <==> r.body.Some?
    ensures r.body.Some? ==> r.body.value in payments && r.body.value.transactionId == transactionId
    ensures r.body.None? <==>
      (r.status == NotFound("Payment not found") && forall i :: 0 <= i < |payments| ==> payments[i].transactionId != transactionId)
  {
    match Seqs.FindFirst(payments, (p: MobilePayment) => p.transactionId == transactionId)
    case None => Reply(NotFound("Payment not found"), None)
    case Some(k) => Reply(Ok("payment"), Some(payments[k]))
  }

  /** The M-Pesa callback body, as far as the handler reads it. */
  datatype CallbackData =
    | Unparsable                                           // not a JSON object
    | WithoutStkCallback                                   // no Body.stkCallback
    | StkCallback(checkoutRequestId: string, resultCode: int)

  /** `Where("reference LIKE ?", "%"+id+"%").First(&payment)`. */
  function ReferenceIndex(payments: seq<MobilePayment>, checkoutRequestId: string): (r: Option<nat>)
    ensures r.Some? ==> r.value < |payments| && Text.Contains(payments[r.value].reference, checkoutRequestId)
    ensures r.None? <==> forall i :: 0 <= i < |payments| ==> !Text.Contains(payments[i].reference, checkoutRequestId)
  {
    Seqs.FindFirst(payments, (p: MobilePayment) => Text.Contains(p.reference, checkoutRequestId))
  }

  /**
   * MPesaCallback: ResultCode 0 completes the first record whose reference
   * contains the CheckoutRequestID, any other code fails it; whatever is
   * found, a parsable body is answered with success.
   */
  method MPesaCallback(db: Database, data: CallbackData) returns (st: Status)
    modifies db`mobilePayments
    ensures data.Unparsable? <==> st == BadRequest("Invalid callback data")
    ensures !data.Unparsable? ==> st == Ok("success")
    ensures data.StkCallback? && ReferenceIndex(old(db.mobilePayments), data.checkoutRequestId).Some? ==>
      var k := ReferenceIndex(old(db.mobilePayments), data.checkoutRequestId).value;
      db.mobilePayments == old(db.mobilePayments)[k := old(db.mobilePayments)[k].(
        status := if data.resultCode == 0 then MobileCompleted else MobileFailed)]
    ensures !(data.StkCallback? && ReferenceIndex(old(db.mobilePayments), data.checkoutRequestId).Some?) ==>
      db.mobilePayments == old(db.mobilePayments)
    ensures MobileStatusesKnown(old(db.mobilePayments)) ==> MobileStatusesKnown(db.mobilePayments)
  {
    if data.Unparsable? {
      return BadRequest("Invalid callback data");
    }
    if data.StkCallback? {
      var k := ReferenceIndex(db.mobilePayments, data.checkoutRequestId);
      if k.Some? {
        var p := db.mobilePayments[k.value];
        if data.resultCode == 0 {
          p := p.(status := MobileCompleted);
        } else {
          p := p.(status := MobileFailed);
        }
        db.mobilePayments := db.mobilePayments[k.value := p];
      }
    }
    return Ok("success");
  }

  /** A record started through M-Pesa and accepted is found by its own CheckoutRequestID. */
  lemma AcceptedPushIsFound(payments: seq<MobilePayment>, checkoutRequestId: string, i: nat)
    requires i < |payments| && payments[i].reference == checkoutRequestId
    ensures ReferenceIndex(payments, checkoutRequestId).Some?
  {
    Text.SliceContained(checkoutRequestId, 0, |checkoutRequestId|);
    assert checkoutRequestId[0..|checkoutRequestId|] == checkoutRequestId;
  }
}
