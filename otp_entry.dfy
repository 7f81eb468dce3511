/**
 * The code entry page (frontend/src/pages/OTPVerification.tsx): six
 * one-character slots, a countdown that gates the resend button, and the
 * verify and resend requests. The page's one-second interval is represented
 * by its ticks; the server's answers are parameters. The email and phone the
 * page was opened with (navigation state) are constructor arguments.
 */
module OtpEntry {
  import opened Wrappers
  import Text
  import opened Ui
  import AuthContext

  const Slots := 6
  const ResendSeconds := 60
  const BlankSlots: seq<string> := ["", "", "", "", "", ""]

  /** The body posted to the verify endpoint; `endpoint` depends on whether the page signs in. */
  datatype VerifyBody = VerifyBody(endpoint: string, email: string, phone: string, otp: string)

  /** The verify endpoint's answer: an exception, or a response with its `message`, `token` and `user`. */
  datatype VerifyAnswer = VerifyThrows | Verified(ok: bool, message: string, token: string, user: AuthContext.ClientUser)

  /** One tick of the countdown: down by one, never below zero. */
  function Tick(countdown: int): (r: int)
    ensures r >= 0
    ensures countdown > 0 ==> r == countdown - 1
    ensures countdown <= 0 ==> r == 0
  {
    if countdown > 0 then countdown - 1 else 0
  }

  /** The countdown after `n` ticks. */
  function AfterTicks(countdown: int, n: nat): int
  {
    if n == 0 then countdown else Tick(AfterTicks(countdown, n - 1))
  }

  /** From a non-negative start, `n` ticks take `n` off, stopping at zero. */
  lemma {:induction false} AfterTicksValue(countdown: int, n: nat)
    requires countdown >= 0
    ensures AfterTicks(countdown, n) == if countdown >= n then countdown - n else 0
  {
    if n > 0 {
      AfterTicksValue(countdown, n - 1);
    }
  }

  /** After a fresh code, resend opens again exactly once sixty ticks have passed. */
  lemma ResendOpensAfterSixty(n: nat)
    ensures AfterTicks(ResendSeconds, n) == 0 <==> n >= ResendSeconds
  {
    AfterTicksValue(ResendSeconds, n);
  }

  /** The resend button is disabled while the countdown runs or a resend is under way. */
  predicate ResendEnabled(countdown: int, resendLoading: bool)
  {
    !(countdown > 0 || resendLoading)
  }

  /** `otp.join('')`. */
  function Joined(otp: seq<string>): string
  {
    Text.Concat(otp)
  }

  /** With slots of at most one character, the joined code is six long exactly when every slot holds one. */
  lemma {:induction false} JoinedLength(otp: seq<string>)
    requires forall i :: 0 <= i < |otp| ==> |otp[i]| <= 1
    ensures |Joined(otp)| <= |otp|
    ensures |Joined(otp)| == |otp| <==> forall i :: 0 <= i < |otp| ==> |otp[i]| == 1
  {
    if |otp| > 0 {
      JoinedLength(otp[1..]);
      assert forall i :: 1 <= i < |otp| ==> otp[i] == otp[1..][i - 1];
    }
  }

  class OtpEntryPage {
    var otp: seq<string>
    var loading: bool
    var error: string
    var resendLoading: bool
    var countdown: int
    var timerRunning: bool
    var storage: AuthContext.Storage
    const email: string
    const phone: string
    const isLogin: bool

    /** Six slots of at most one character each, and a countdown that is never negative. */
    predicate Valid()
      reads this
    {
      |otp| == Slots && countdown >= 0 && forall i :: 0 <= i < |otp| ==> |otp[i]| <= 1
    }

    constructor(email: string, phone: string, isLogin: bool, storage: AuthContext.Storage)
      ensures Valid() && otp == BlankSlots && countdown == ResendSeconds && !timerRunning
      ensures !loading && error == "" && !resendLoading && this.storage == storage
      ensures this.email == email && this.phone == phone && this.isLogin == isLogin
    {
      otp := BlankSlots;
      loading, error, resendLoading := false, "", false;
      countdown, timerRunning := ResendSeconds, false;
      this.storage := storage;
      this.email, this.phone, this.isLogin := email, phone, isLogin;
    }

    /** The mount effect: without an email or a phone the page sends the user to sign in; otherwise the timer starts. */
    method Mount() returns (navigate: Option<string>)
      modifies this`timerRunning
      ensures email == "" && phone == "" ==> navigate == Some("/login") && timerRunning == old(timerRunning)
      ensures !(email == "" && phone == "") ==> navigate.None? && timerRunning
    {
      if email == "" && phone == "" {
        return Some("/login");
      }
      timerRunning := true;
      navigate := None;
    }

    /** One interval callback. */
    method TimerTick()
      requires Valid()
      modifies this`countdown
      ensures Valid() && countdown == Tick(old(countdown))
    {
      countdown := if countdown > 0 then countdown - 1 else 0;
    }

    /** handleOtpChange: input longer than one character is ignored; otherwise only the slot typed in changes. */
    method OtpChange(index: int, value: string)
      requires Valid() && 0 <= index < Slots
      modifies this`otp
      ensures Valid()
      ensures |value| > 1 ==> otp == old(otp)
      ensures |value| <= 1 ==> otp == old(otp)[index := value]
      ensures forall i :: 0 <= i < Slots && i != index ==> otp[i] == old(otp)[i]
    {
      if |value| > 1 {
        return;
      }
      otp := otp[index := value];
    }

    /**
     * handleVerifyOTP: refused with a message unless all six digits are in.
     * Otherwise the code is posted; an ok answer on the sign-in path stores
     * the token and user and goes home, on the other path goes to sign in;
     * a refused answer shows its message or `Invalid OTP`.
     */
    method Verify(answer: VerifyAnswer) returns (sent: Option<VerifyBody>, toast: Toast, navigate: Option<string>)
      requires Valid()
      modifies this`loading, this`error, this`storage
      ensures Valid()
      ensures sent.Some? <==> forall i :: 0 <= i < Slots ==> |otp[i]| == 1
      ensures sent.None? ==> (error == "Please enter all 6 digits" && storage == old(storage) &&
        toast == NoToast && navigate.None? && loading == old(loading))
      ensures sent.Some? ==> (!loading && sent.value.otp == Joined(otp) &&
        sent.value.endpoint == (if isLogin then "/api/auth/verify-login-otp" else "/api/auth/verify-otp"))
      ensures sent.Some? && answer.Verified? && answer.ok && isLogin ==> (toast == ToastSuccess("Login successful!") &&
        navigate == Some("/") && error == "" &&
        storage == old(storage).(token := Some(answer.token), user := Some(answer.user)))
      ensures sent.Some? && answer.Verified? && answer.ok && !isLogin ==> (toast == ToastSuccess("Account verified successfully!") &&
        navigate == Some("/login") && error == "" && storage == old(storage))
      ensures sent.Some? && answer.Verified? && !answer.ok ==> (error == ErrorText(answer.message, "Invalid OTP") &&
        storage == old(storage) && toast == NoToast && navigate.None?)
      ensures sent.Some? && answer.VerifyThrows? ==> (error == "Network error. Please try again." &&
        storage == old(storage) && toast == NoToast && navigate.None?)
    {
      var code := Joined(otp);
      JoinedLength(otp);
      if |code| != Slots {
        error := "Please enter all 6 digits";
        return None, NoToast, None;
      }
      loading, error := true, "";
      var endpoint := if isLogin then "/api/auth/verify-login-otp" else "/api/auth/verify-otp";
      sent := Some(VerifyBody(endpoint, email, phone, code));
      toast, navigate := NoToast, None;
      match answer {
        case VerifyThrows =>
          error := "Network error. Please try again.";
        case Verified(ok, message, token, user) =>
          if ok && isLogin {
            storage := storage.(token := Some(token), user := Some(user));
            toast, navigate := ToastSuccess("Login successful!"), Some("/");
          } else if ok {
            toast, navigate := ToastSuccess("Account verified successfully!"), Some("/login");
          } else {
            error := ErrorText(message, "Invalid OTP");
          }
      }
      loading := false;
    }

    /**
     * The resend button: nothing while it is disabled. Otherwise the code is
     * requested again; an ok answer restarts the countdown at 60 and clears
     * the slots, a refused one shows its message or `Failed to resend OTP`.
     */
    method ResendClick(answer: Answer) returns (sent: bool, toast: Toast)
      requires Valid()
      modifies this`resendLoading, this`error, this`countdown, this`otp
      ensures Valid()
      ensures sent <==> ResendEnabled(old(countdown), old(resendLoading))
      ensures !sent ==> otp == old(otp) && countdown == old(countdown) && error == old(error) && toast == NoToast
      ensures sent ==> !resendLoading
      ensures sent && answer.Answered? && answer.ok ==>
        countdown == ResendSeconds && otp == BlankSlots && error == "" && toast == ToastSuccess("OTP sent successfully!")
      ensures sent && answer.Answered? && !answer.ok ==>
        otp == old(otp) && countdown == old(countdown) && error == ErrorText(answer.message, "Failed to resend OTP")
      ensures sent && answer.AnswerThrows? ==>
        otp == old(otp) && countdown == old(countdown) && error == "Network error. Please try again."
    {
      if !ResendEnabled(countdown, resendLoading) {
        return false, NoToast;
      }
      sent := true;
      resendLoading, error := true, "";
      toast := NoToast;
      match answer {
        case AnswerThrows =>
          error := "Network error. Please try again.";
        case Answered(ok, message) =>
          if ok {
            toast := ToastSuccess("OTP sent successfully!");
            countdown := ResendSeconds;
            otp := BlankSlots;
          } else {
            error := ErrorText(message, "Failed to resend OTP");
          }
      }
      resendLoading := false;
    }
  }

  /** A code stored by the sign-in path is restored by the session provider on the next load. */
  lemma StoredLoginRestored(st: AuthContext.Storage, token: string, user: AuthContext.ClientUser)
    requires token != ""
    ensures AuthContext.Restored(st.(token := Some(token), user := Some(user))) == (Some(user), Some(token))
  {
  }
}
