/**
 * The mobile-money payment widget (frontend/src/components/PaymentMethods.tsx):
 * Kenyan phone-number validation and normalisation, the initiation
 * request, the bounded status poller and the method dispatch.
 */
module PaymentClient {
  import opened Wrappers
  import opened Text
  import Ui

  /** `[17]\d{8}`: a subscriber number starting with 1 or 7, nine digits in all. */
  predicate KenyanCore(s: string)
  {
    |s| == 9 && (s[0] == '1' || s[0] == '7') && AllDigits(s)
  }

  /** `/^(\+254|254|0)?[17]\d{8}$/` on a whitespace-free string. */
  predicate MatchesKenyanPattern(s: string)
  {
    KenyanCore(s)
    || (|s| >= 1 && s[0] == '0' && KenyanCore(s[1..]))
    || (|s| >= 3 && s[..3] == "254" && KenyanCore(s[3..]))
    || (|s| >= 4 && s[..4] == "+254" && KenyanCore(s[4..]))
  }

  /** validatePhoneNumber: the pattern, after removing all whitespace. */
  predicate ValidatePhoneNumber(phone: string)
    ensures ValidatePhoneNumber(phone) ==> 9 <= |StripSpaces(phone)| <= 13
  {
    MatchesKenyanPattern(StripSpaces(phone))
  }

  /** formatPhoneNumber: digits only, with the country code 254 in front. */
  function FormatPhoneNumber(phone: string): (r: string)
    ensures StartsWith(r, "254") && AllDigits(r)
  {
    var cleaned := KeepDigits(phone);
    if StartsWith(cleaned, "0") then "254" + cleaned[1..]
    else if StartsWith(cleaned, "254") then cleaned
    else "254" + cleaned
  }

  /** The subscriber part of a valid number (what follows the optional prefix). */
  function Subscriber(s: string): string
    requires MatchesKenyanPattern(s)
  {
    if KenyanCore(s) then s
    else if |s| >= 1 && s[0] == '0' && KenyanCore(s[1..]) then s[1..]
    else if |s| >= 3 && s[..3] == "254" && KenyanCore(s[3..]) then s[3..]
    else s[4..]
  }

  /**
   * Every number the widget accepts is sent as 254 followed by its nine
   * subscriber digits: twelve digits, whichever prefix the user typed.
   */
  lemma {:induction false} AcceptedNumbersFormatToTwelveDigits(phone: string)
    requires ValidatePhoneNumber(phone)
    ensures FormatPhoneNumber(phone) == "254" + Subscriber(StripSpaces(phone))
    ensures |FormatPhoneNumber(phone)| == 12
  {
    var s := StripSpaces(phone);
    var core := Subscriber(s);
    KeepDigitsIgnoresSpaces(phone);
    if KenyanCore(s) {
      KeepDigitsOfDigits(s);
      CoreFormats(phone, core);
    } else if |s| >= 1 && s[0] == '0' && KenyanCore(s[1..]) {
      assert s == "0" + core;
      KeepDigitsOfDigits(s);
      PrefixedFormats(phone, "0", core);
    } else if |s| >= 3 && s[..3] == "254" && KenyanCore(s[3..]) {
      assert s == "254" + core;
      KeepDigitsOfDigits(s);
      PrefixedFormats(phone, "254", core);
    } else {
      assert s == "+" + ("254" + core);
      KeepDigitsAppend("+", "254" + core);
      KeepDigitsOfDigits("254" + core);
      PrefixedFormats(phone, "254", core);
    }
  }

  /** A number typed without a prefix gains the country code. */
  lemma CoreFormats(phone: string, core: string)
    requires KenyanCore(core) && KeepDigits(phone) == core
    ensures FormatPhoneNumber(phone) == "254" + core
  {
    assert !StartsWith(core, "0");
    assert !StartsWith(core, "254");
  }

  /** A number typed with the trunk prefix 0 or the country code 254 has it replaced by 254. */
  lemma PrefixedFormats(phone: string, prefix: string, core: string)
    requires prefix == "0" || prefix == "254"
    requires KenyanCore(core) && KeepDigits(phone) == prefix + core
    ensures FormatPhoneNumber(phone) == "254" + core
  {
    if prefix == "0" {
      assert (prefix + core)[1..] == core;
    } else {
      assert (prefix + core)[0] == '2';
      assert (prefix + core)[..3] == "254";
      assert StartsWith(prefix + core, "254");
    }
  }

  /** Spaces typed between digit groups do not change validity. */
  lemma SpacesDoNotMatter(a: string, b: string)
    ensures ValidatePhoneNumber(a + " " + b) <==> ValidatePhoneNumber(a + b)
  {
    assert a + " " + b == a + (" " + b);
    assert (" " + b)[1..] == b;
    StripSpacesAppend(a, " " + b);
    StripSpacesAppend(a, b);
  }

  lemma {:induction false} StripSpacesAppend(a: string, b: string)
    ensures StripSpaces(a + b) == StripSpaces(a) + StripSpaces(b)
  {
    if |a| == 0 {
      assert a + b == b;
    } else {
      assert (a + b)[1..] == a[1..] + b;
      StripSpacesAppend(a[1..], b);
    }
  }

  // ---------------------------------------------------------------------
  // The status poller

  const MaxAttempts := 30

  /** What one status query yields: the reply's `status`, or a thrown error. */
  datatype PollReply = StatusReply(status: string) | PollThrows

  /** The terminal callbacks of the widget. */
  datatype Callback = PaymentSuccess | PaymentError(message: string)

  const FailedMessage := "Payment failed or was cancelled"
  const TimeoutMessage := "Payment timeout. Please try again."

  /**
   * The poller from attempt `k` on (`k` attempts already counted): the
   * number of status queries it sends in all and the callbacks it fires.
   * `reply(i)` is the answer to query number `i` (from 0).
   */
  function PollFrom(reply: nat -> PollReply, k: nat): (r: (nat, seq<Callback>))
    requires k < MaxAttempts
    ensures r.0 >= 1 && (r.1 == [] <==> reply(r.0 - 1).PollThrows?)
    decreases MaxAttempts - k
  {
    match reply(k)
    case PollThrows => (k + 1, [])
    case StatusReply(s) =>
      if s == "completed" then (k + 1, [PaymentSuccess])
      else if s == "failed" then (k + 1, [PaymentError(FailedMessage)])
      else if k + 1 < MaxAttempts then PollFrom(reply, k + 1)
      else (MaxAttempts, [PaymentError(TimeoutMessage)])
  }

  /** pollPaymentStatus: each run of `poll` sends one query and either stops or reschedules itself. */
  method PollPaymentStatus(reply: nat -> PollReply) returns (queries: nat, callbacks: seq<Callback>)
    ensures (queries, callbacks) == PollFrom(reply, 0)
  {
    var attempts := 0;
    queries := 0;
    callbacks := [];
    var polling := true;
    while polling
      invariant 0 <= attempts < MaxAttempts
      invariant polling ==> queries == attempts && callbacks == [] && PollFrom(reply, 0) == PollFrom(reply, attempts)
      invariant !polling ==> (queries, callbacks) == PollFrom(reply, 0)
      decreases (if polling then 1 else 0), MaxAttempts - attempts
    {
      var r := reply(queries);
      queries := queries + 1;
      if r.PollThrows? {
        polling := false;
      } else if r.status == "completed" {
        callbacks := [PaymentSuccess];
        polling := false;
      } else if r.status == "failed" {
        callbacks := [PaymentError(FailedMessage)];
        polling := false;
      } else if attempts + 1 < MaxAttempts {
        attempts := attempts + 1;
      } else {
        callbacks := [PaymentError(TimeoutMessage)];
        polling := false;
      }
    }
  }

  /** The poller sends between one and thirty queries and fires at most one callback. */
  lemma {:induction false} PollerBounded(reply: nat -> PollReply, k: nat)
    requires k < MaxAttempts
    ensures k + 1 <= PollFrom(reply, k).0 <= MaxAttempts
    ensures |PollFrom(reply, k).1| <= 1
    decreases MaxAttempts - k
  {
    match reply(k)
    case PollThrows =>
    case StatusReply(s) =>
      if s != "completed" && s != "failed" && k + 1 < MaxAttempts {
        PollerBounded(reply, k + 1);
      }
  }

  /** A success callback means the last query answered `completed`. */
  lemma {:induction false} SuccessOnlyOnCompleted(reply: nat -> PollReply, k: nat)
    requires k < MaxAttempts
    requires PollFrom(reply, k).1 == [PaymentSuccess]
    ensures PollFrom(reply, k).0 >= 1 && reply(PollFrom(reply, k).0 - 1) == StatusReply("completed")
    decreases MaxAttempts - k
  {
    match reply(k)
    case PollThrows =>
    case StatusReply(s) =>
      if s != "completed" && s != "failed" && k + 1 < MaxAttempts {
        SuccessOnlyOnCompleted(reply, k + 1);
      }
  }

  /** `processing`, `processing`, `completed`: success after the third query, and no fourth. */
  lemma CompletedOnThirdAttempt(reply: nat -> PollReply)
    requires reply(0) == StatusReply("processing") && reply(1) == StatusReply("processing")
    requires reply(2) == StatusReply("completed")
    ensures PollFrom(reply, 0) == (3, [PaymentSuccess])
  {
  }

  /** A status that never settles ends with the timeout error after exactly thirty queries. */
  lemma {:induction false} NeverSettlingTimesOut(reply: nat -> PollReply, k: nat)
    requires k < MaxAttempts
    requires forall i :: k <= i < MaxAttempts ==> reply(i) == StatusReply("processing")
    ensures PollFrom(reply, k) == (MaxAttempts, [PaymentError(TimeoutMessage)])
    decreases MaxAttempts - k
  {
    if k + 1 < MaxAttempts {
      NeverSettlingTimesOut(reply, k + 1);
    }
  }

  /** As written, a query that throws ends the polling with no callback at all. */
  lemma ThrownQueryEndsSilently(reply: nat -> PollReply)
    requires reply(0) == PollThrows
    ensures PollFrom(reply, 0) == (1, [])
  {
  }

  /**
   * The poller with a thrown query counted as an unsettled attempt. The
   * attempt budget of thirty (PaymentMethods.tsx lines 130 and 155-161) ends
   * every unsettled run with the timeout callback; only the `catch` at line
   * 162 leaves the caller waiting for a callback that never comes, so this
   * version sends the thrown query down the same path as a pending status.
   */
  function PollRetryingFrom(reply: nat -> PollReply, k: nat): (r: (nat, seq<Callback>))
    requires k < MaxAttempts
    ensures k + 1 <= r.0 && (r.1 == [PaymentSuccess] ==> reply(r.0 - 1) == StatusReply("completed"))
    decreases MaxAttempts - k
  {
    var settled := reply(k).StatusReply? && (reply(k).status == "completed" || reply(k).status == "failed");
    if settled then (k + 1, if reply(k).status == "completed" then [PaymentSuccess] else [PaymentError(FailedMessage)])
    else if k + 1 < MaxAttempts then PollRetryingFrom(reply, k + 1)
    else (MaxAttempts, [PaymentError(TimeoutMessage)])
  }

  /** With retries, every run fires exactly one callback within thirty queries. */
  lemma {:induction false} RetryingPollerCallsBackOnce(reply: nat -> PollReply, k: nat)
    requires k < MaxAttempts
    ensures |PollRetryingFrom(reply, k).1| == 1
    ensures PollRetryingFrom(reply, k).0 <= MaxAttempts
    decreases MaxAttempts - k
  {
    var settled := reply(k).StatusReply? && (reply(k).status == "completed" || reply(k).status == "failed");
    if !settled && k + 1 < MaxAttempts {
      RetryingPollerCallsBackOnce(reply, k + 1);
    }
  }

  /** The two pollers agree whenever no query throws. */
  lemma {:induction false} PollersAgreeWithoutErrors(reply: nat -> PollReply, k: nat)
    requires k < MaxAttempts
    requires forall i :: k <= i < MaxAttempts ==> reply(i).StatusReply?
    ensures PollRetryingFrom(reply, k) == PollFrom(reply, k)
    decreases MaxAttempts - k
  {
    if k + 1 < MaxAttempts {
      PollersAgreeWithoutErrors(reply, k + 1);
    }
  }

  // ---------------------------------------------------------------------
  // Initiation and dispatch

  datatype PaymentStatus = Idle | Processing | Succeeded | Errored

  /** The initiation request body: provider, formatted phone number, amount. */
  datatype InitRequest = InitRequest(provider: string, phoneNumber: string, amount: real)

  /** The initiation reply: a thrown error, or a reply with its `transactionId` and `message`. */
  datatype InitReply = InitThrows(error: string) | InitReplied(ok: bool, transactionId: string, message: string)

  /** The message handed to onPaymentError for a failed initiation. */
  function InitErrorMessage(reply: InitReply): (r: string)
    ensures reply.InitReplied? ==> r != ""
    ensures reply.InitThrows? ==> r == reply.error
  {
    match reply
    case InitThrows(e) => e
    case InitReplied(_, _, m) => if m != "" then m else "Payment failed"
  }

  class PaymentWidget {
    var phoneNumber: string
    var loading: bool
    var paymentStatus: PaymentStatus

    constructor()
      ensures phoneNumber == "" && !loading && paymentStatus == Idle
    {
      phoneNumber := "";
      loading := false;
      paymentStatus := Idle;
    }

    /** The phone field. */
    method TypePhone(value: string)
      modifies this`phoneNumber
      ensures phoneNumber == value
    {
      phoneNumber := value;
    }

    /**
     * handleMobilePayment: an invalid number stops before any request;
     * otherwise the formatted number is posted, and the reply either
     * starts the poller on its transaction id or reports one error.
     */
    method HandleMobilePayment(provider: string, amount: real, reply: InitReply)
      returns (sent: Option<InitRequest>, errors: seq<string>, pollFor: Option<string>, toast: Ui.Toast)
      modifies this`loading, this`paymentStatus
      ensures !ValidatePhoneNumber(phoneNumber) ==>
        sent.None? && errors == [] && pollFor.None? && loading == old(loading) && paymentStatus == old(paymentStatus) &&
        toast == Ui.ToastError("Please enter a valid Kenyan phone number")
      ensures ValidatePhoneNumber(phoneNumber) ==>
        sent == Some(InitRequest(provider, FormatPhoneNumber(phoneNumber), amount)) && !loading
      ensures ValidatePhoneNumber(phoneNumber) && reply.InitReplied? && reply.ok ==>
        paymentStatus == Succeeded && errors == [] && pollFor == Some(reply.transactionId) &&
        toast == Ui.ToastSuccess(InitiatedText(provider))
      ensures ValidatePhoneNumber(phoneNumber) && !(reply.InitReplied? && reply.ok) ==>
        paymentStatus == Errored && errors == [InitErrorMessage(reply)] && pollFor.None? &&
        toast == Ui.ToastError(InitErrorMessage(reply))
    {
      if !ValidatePhoneNumber(phoneNumber) {
        return None, [], None, Ui.ToastError("Please enter a valid Kenyan phone number");
      }
      loading := true;
      paymentStatus := Processing;
      var formatted := FormatPhoneNumber(phoneNumber);
      sent := Some(InitRequest(provider, formatted, amount));
      if reply.InitReplied? && reply.ok {
        paymentStatus := Succeeded;
        errors, pollFor := [], Some(reply.transactionId);
        toast := Ui.ToastSuccess(InitiatedText(provider));
      } else {
        paymentStatus := Errored;
        errors, pollFor := [InitErrorMessage(reply)], None;
        toast := Ui.ToastError(InitErrorMessage(reply));
      }
      loading := false;
    }

    /** The toast of an accepted initiation, naming the provider. */
    static function InitiatedText(provider: string): string
    {
      (if provider == "mpesa" then "M-Pesa" else "Airtel Money") +
      " payment initiated. Check your phone for the payment prompt."
    }
  }

  /** What the pay button does for the selected method. */
  datatype PaymentAction = MobilePayment(provider: string) | CardComingSoon | BankComingSoon | SelectMethodError

  /** handlePayment's switch on the selected method. */
  function HandlePayment(selected: string): (a: PaymentAction)
    ensures a.MobilePayment? <==> selected == "mpesa" || selected == "airtel"
    ensures a.MobilePayment? ==> a.provider == selected
    ensures a == SelectMethodError <==> selected !in {"mpesa", "airtel", "card", "bank"}
  {
    match selected
    case "mpesa" => MobilePayment("mpesa")
    case "airtel" => MobilePayment("airtel")
    case "card" => CardComingSoon
    case "bank" => BankComingSoon
    case _ => SelectMethodError
  }
}
