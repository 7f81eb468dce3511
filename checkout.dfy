/**
 * The checkout page (frontend/src/pages/Checkout.tsx): a three-step form
 * (shipping address, payment method, review), the submit handler that
 * stores the address or places the order depending on the step, the back
 * button, and the order total shown beside it. The cart lines come from the
 * cart context; the order endpoint's reply is a parameter.
 */
module Checkout {
  import opened Wrappers
  import Text
  import opened Ui
  import CartContext

  /** `steps.length`: Shipping Address, Payment Method, Review Order. */
  const StepCount := 3

  datatype ShippingDetails = ShippingDetails(
    firstName: string, lastName: string, email: string, phone: string,
    address: string, city: string, county: string, postalCode: string)

  /** The body createOrder posts to `/api/orders`. */
  datatype OrderBody = OrderBody(
    shippingAddress: ShippingDetails, items: seq<CartContext.ClientCartItem>,
    subtotal: real, deliveryFee: real, total: real)

  datatype OrderReply = OrderThrows | OrderRefused | OrderCreated(id: nat)

  /**
   * The `required` rules of the shipping fields: every field but the postal
   * code must be non-empty, or handleSubmit shows the errors and does not
   * call onSubmit.
   */
  predicate ShippingFilled(data: ShippingDetails)
  {
    data.firstName != "" && data.lastName != "" && data.email != "" && data.phone != "" &&
    data.address != "" && data.city != "" && data.county != ""
  }

  /**
   * The form's two controls that change the step: a submit that passes the
   * field rules (one that fails them changes nothing), and back (disabled at
   * step 0).
   */
  datatype Event = Submit | Back

  /** The total shown and posted: the cart subtotal plus the imported items' delivery fee. */
  function Total(items: seq<CartContext.ClientCartItem>): (r: real)
    ensures (forall i :: 0 <= i < |items| ==> items[i].product.shippingFee >= 0.0 && items[i].quantity >= 0) ==>
      r >= CartContext.CartTotal(items)
  {
    CartContext.CartTotal(items) + CartContext.DeliveryFee(items)
  }

  /** A cart without imported, fee-bearing items costs its subtotal. */
  lemma LocalCartTotal(items: seq<CartContext.ClientCartItem>)
    requires forall i :: 0 <= i < |items| ==> !CartContext.FeeApplies(items[i])
    ensures Total(items) == CartContext.CartTotal(items)
  {
    CartContext.NoImportedItemsNoFee(items);
  }

  /** onSubmit's effect on the step as written: step 0 moves on, the last step places the order, step 1 does nothing. */
  function SubmitStep(step: int): (r: int)
    ensures 0 <= step <= 1 ==> r == 1
  {
    if step == 0 then 1 else step
  }

  /** handleBack, which the disabled button keeps from running at step 0. */
  function BackStep(step: int): (r: int)
    ensures 0 <= step <= 1 ==> r == 0
  {
    if step == 0 then step else step - 1
  }

  /** The step reached from the first step by a run of events. */
  function StepAfter(events: seq<Event>): int
  {
    if |events| == 0 then 0
    else
      var step := StepAfter(events[..|events| - 1]);
      match events[|events| - 1]
      case Submit => SubmitStep(step)
      case Back => BackStep(step)
  }

  /** As written, no run of events takes the form past the payment step. */
  lemma {:induction false} StepNeverPastPayment(events: seq<Event>)
    ensures 0 <= StepAfter(events) <= 1
    decreases |events|
  {
    if |events| > 0 {
      StepNeverPastPayment(events[..|events| - 1]);
    }
  }

  /** Hence the review step, the only one at which submitting places the order, is never shown. */
  lemma OrderStepUnreachable(events: seq<Event>)
    ensures StepAfter(events) != StepCount - 1
  {
    StepNeverPastPayment(events);
  }

  /** Submitting twice from the start leaves the form at the payment step. */
  lemma TwoSubmitsStayAtPayment()
    ensures StepAfter([Submit, Submit]) == 1
  {
    assert [Submit, Submit][..1] == [Submit];
    assert [Submit][..0] == [];
  }

  /** onSubmit as evidently intended: every step but the last moves on (the button reads "Next"). */
  function SubmitStepIntended(step: int): int
  {
    if 0 <= step < StepCount - 1 then step + 1 else step
  }

  /** The step reached with the intended handler; it stays within the three steps. */
  function StepAfterIntended(events: seq<Event>): (r: int)
    ensures 0 <= r < StepCount
  {
    if |events| == 0 then 0
    else
      var step := StepAfterIntended(events[..|events| - 1]);
      match events[|events| - 1]
      case Submit => SubmitStepIntended(step)
      case Back => BackStep(step)
  }

  /** With the intended handler two submits reach the review step, where the next one places the order. */
  lemma IntendedReachesReview()
    ensures StepAfterIntended([Submit, Submit]) == StepCount - 1
  {
    assert [Submit, Submit][..1] == [Submit];
    assert [Submit][..0] == [];
  }

  class CheckoutPage {
    var activeStep: int
    var loading: bool
    var orderData: Option<ShippingDetails>

    /** The step range the code as written keeps (shipping or payment), and a stored address that passed the field rules. */
    predicate Valid()
      reads this
    {
      0 <= activeStep <= 1 && (orderData.Some? ==> ShippingFilled(orderData.value))
    }

    constructor()
      ensures activeStep == 0 && !loading && orderData.None? && Valid()
    {
      activeStep, loading, orderData := 0, false, None;
    }

    /**
     * handleSubmit(onSubmit): form values that fail the field rules change
     * nothing. Otherwise, at step 0 the address is stored and the step
     * advances; at the last step the order is created; at step 1 nothing
     * happens.
     */
    method OnSubmit(data: ShippingDetails, items: seq<CartContext.ClientCartItem>, reply: OrderReply)
      returns (sent: Option<OrderBody>, toast: Toast, navigate: Option<string>)
      modifies this
      ensures !ShippingFilled(data) ==>
        activeStep == old(activeStep) && orderData == old(orderData) && loading == old(loading) &&
        sent.None? && toast == NoToast && navigate.None?
      ensures ShippingFilled(data) ==> activeStep == SubmitStep(old(activeStep))
      ensures ShippingFilled(data) && old(activeStep) == 0 ==> orderData == Some(data) && sent.None? && toast == NoToast
      ensures ShippingFilled(data) && old(activeStep) == StepCount - 1 ==> sent == (if old(orderData).Some? then
        Some(OrderBody(old(orderData).value, items, CartContext.CartTotal(items), CartContext.DeliveryFee(items), Total(items)))
        else None)
      ensures old(activeStep) != 0 && old(activeStep) != StepCount - 1 ==>
        sent.None? && toast == NoToast && navigate.None? && orderData == old(orderData)
      ensures old(Valid()) ==> Valid()
    {
      sent, toast, navigate := None, NoToast, None;
      if !ShippingFilled(data) {
        return;
      }
      if activeStep == 0 {
        orderData := Some(data);
        activeStep := activeStep + 1;
      } else if activeStep == StepCount - 1 {
        sent, toast, navigate := CreateOrder(items, reply);
      }
    }

    /**
     * createOrder: nothing without a stored address; otherwise the body is
     * posted, and a created order's page is opened.
     */
    method CreateOrder(items: seq<CartContext.ClientCartItem>, reply: OrderReply)
      returns (sent: Option<OrderBody>, toast: Toast, navigate: Option<string>)
      modifies this`loading
      ensures orderData.None? ==> sent.None? && toast == NoToast && navigate.None? && loading == old(loading)
      ensures orderData.Some? ==> (!loading &&
        sent == Some(OrderBody(orderData.value, items, CartContext.CartTotal(items), CartContext.DeliveryFee(items), Total(items))))
      ensures orderData.Some? && reply.OrderCreated? ==>
        toast == ToastSuccess("Order created successfully!") && navigate == Some("/orders/" + Text.NatToDecimal(reply.id))
      ensures orderData.Some? && reply.OrderRefused? ==> toast == ToastError("Failed to create order") && navigate.None?
      ensures orderData.Some? && reply.OrderThrows? ==> toast == ToastError("Network error. Please try again.") && navigate.None?
      ensures sent.Some? ==> sent.value.total == sent.value.subtotal + sent.value.deliveryFee
      ensures Valid() && sent.Some? ==> ShippingFilled(sent.value.shippingAddress)
    {
      if orderData.None? {
        return None, NoToast, None;
      }
      loading := true;
      var subtotal := CartContext.CartTotal(items);
      var fee := CartContext.DeliveryFee(items);
      sent := Some(OrderBody(orderData.value, items, subtotal, fee, subtotal + fee));
      match reply {
        case OrderCreated(id) =>
          toast := ToastSuccess("Order created successfully!");
          navigate := Some("/orders/" + Text.NatToDecimal(id));
        case OrderRefused =>
          toast, navigate := ToastError("Failed to create order"), None;
        case OrderThrows =>
          toast, navigate := ToastError("Network error. Please try again."), None;
      }
      loading := false;
    }

    /** handleBack, enabled from step 1 on. */
    method GoBack()
      requires activeStep != 0
      modifies this`activeStep
      ensures activeStep == BackStep(old(activeStep)) && activeStep == old(activeStep) - 1
      ensures old(Valid()) ==> Valid()
    {
      activeStep := activeStep - 1;
    }

    /** handlePaymentSuccess: the payment step's callback leaves for the order list. */
    method PaymentSucceeded() returns (toast: Toast, navigate: string)
      ensures toast == ToastSuccess("Payment completed successfully!") && navigate == "/orders"
    {
      toast, navigate := ToastSuccess("Payment completed successfully!"), "/orders";
    }

    /** handlePaymentError: the failure is shown and the form stays. */
    method PaymentFailed(error: string) returns (toast: Toast)
      ensures toast == ToastError("Payment failed: " + error)
    {
      toast := ToastError("Payment failed: " + error);
    }
  }
}
