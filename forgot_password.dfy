/**
 * The password-reset page (frontend/src/pages/ForgotPassword.tsx): a
 * four-step flow (email, code, new password, done) in which each step's form
 * posts one request and only an ok answer moves on, with the local checks
 * on the new password made before anything is sent. The answers are
 * parameters; the request a submit sends is returned.
 */
module ForgotPassword {
  import opened Wrappers
  import Seqs
  import opened Ui
  import AuthHandler
  import Text

  const EmailStep := 0
  const CodeStep := 1
  const PasswordStep := 2
  const DoneStep := 3

  const MinPasswordLength := 6

  /** The three requests of the flow. */
  datatype Request =
    | SendResetCode(email: string)                               // POST /api/auth/forgot-password
    | VerifyResetCode(email: string, otp: string)                // POST /api/auth/verify-reset-otp
    | ResetPassword(email: string, otp: string, newPassword: string)   // POST /api/auth/reset-password

  /** An answer that moves the flow on: a response that is ok. */
  predicate Accepted(answer: Answer)
  {
    answer.Answered? && answer.ok
  }

  /** The message the password form refuses with, if any: a mismatch is reported before a short password. */
  function PasswordError(newPassword: string, confirmPassword: string): (e: Option<string>)
    ensures e.None? <==> newPassword == confirmPassword && |newPassword| >= MinPasswordLength
    ensures newPassword != confirmPassword ==> e == Some("Passwords do not match")
    ensures newPassword == confirmPassword && |newPassword| < MinPasswordLength ==>
      e == Some("Password must be at least 6 characters long")
  {
    if newPassword != confirmPassword then Some("Passwords do not match")
    else if |newPassword| < MinPasswordLength then Some("Password must be at least 6 characters long")
    else None
  }

  /** The step after one submit with the given outcome: on to the next step on an ok answer, at most to the last. */
  function NextStep(step: int, ok: bool): int
  {
    if ok && 0 <= step < DoneStep then step + 1 else step
  }

  /** The step reached from the first by a run of submits, each ok or not. */
  function StepAfter(outcomes: seq<bool>): int
  {
    if |outcomes| == 0 then EmailStep else NextStep(StepAfter(outcomes[..|outcomes| - 1]), outcomes[|outcomes| - 1])
  }

  function IsOk(): bool -> bool
  {
    (ok: bool) => ok
  }

  /** The step reached is the number of ok answers, capped at the last step. */
  lemma {:induction false} StepCountsSuccesses(outcomes: seq<bool>)
    ensures var n := Seqs.Count(outcomes, IsOk());
      StepAfter(outcomes) == if n < DoneStep then n else DoneStep
    decreases |outcomes|
  {
    if |outcomes| > 0 {
      var init := outcomes[..|outcomes| - 1];
      StepCountsSuccesses(init);
      assert outcomes == init + [outcomes[|outcomes| - 1]];
      Seqs.CountAppend(init, [outcomes[|outcomes| - 1]], IsOk());
    }
  }

  /** A longer run never stands at an earlier step: the step never decreases. */
  lemma {:induction false} StepNeverDecreases(outcomes: seq<bool>, k: nat)
    requires k <= |outcomes|
    ensures StepAfter(outcomes[..k]) <= StepAfter(outcomes)
    decreases |outcomes| - k
  {
    if k < |outcomes| {
      StepNeverDecreases(outcomes, k + 1);
      assert outcomes[..k + 1][..k] == outcomes[..k];
      assert StepAfter(outcomes[..k + 1]) == NextStep(StepAfter(outcomes[..k]), outcomes[k]);
    } else {
      assert outcomes[..k] == outcomes;
    }
  }

  /** The body the reset step posts: `JSON.stringify({ email, otp, newPassword })`. */
  function ResetBody(req: Request): (body: AuthHandler.JsonObject)
    requires req.ResetPassword?
    ensures forall i :: 0 <= i < |body| ==> body[i].0 == "email" || body[i].0 == "otp" || body[i].0 == "newPassword"
    ensures exists i :: 0 <= i < |body| && body[i] == ("newPassword", req.newPassword)
  {
    var body := [("email", req.email), ("otp", req.otp), ("newPassword", req.newPassword)];
    assert body[2] == ("newPassword", req.newPassword);
    body
  }

  /**
   * None of the page's keys names a field of the server's reset request, so
   * the endpoint binds the zero request and refuses it as invalid, whatever
   * the user typed.
   */
  lemma ResetBodyRefused(req: Request)
    requires req.ResetPassword?
    ensures AuthHandler.BindResetRequest(ResetBody(req)) == AuthHandler.ResetPasswordRequest("", "", "")
    ensures !AuthHandler.ResetRequestValid(AuthHandler.BindResetRequest(ResetBody(req)))
  {
    var body := ResetBody(req);
    forall i | 0 <= i < |body|
      ensures !AuthHandler.KeyMatches(body[i].0, "phone") && !AuthHandler.KeyMatches(body[i].0, "new_password") &&
        !AuthHandler.KeyMatches(body[i].0, "otp_code")
    {
      var key := body[i].0;
      assert |Text.ToLower("phone")| == 5 && |Text.ToLower("new_password")| == 12 && |Text.ToLower("otp_code")| == 8;
      if key == "email" {
        assert Text.ToLower(key)[0] == 'e' && Text.ToLower("phone")[0] == 'p';
      }
    }
  }

  class ResetFlow {
    var activeStep: int
    var email: string
    var otp: string
    var newPassword: string
    var confirmPassword: string
    var loading: bool
    var error: string

    predicate Valid()
      reads this
    {
      EmailStep <= activeStep <= DoneStep
    }

    constructor()
      ensures Valid() && activeStep == EmailStep
      ensures email == "" && otp == "" && newPassword == "" && confirmPassword == "" && !loading && error == ""
    {
      activeStep, loading, error := EmailStep, false, "";
      email, otp, newPassword, confirmPassword := "", "", "", "";
    }

    /** The inputs of the three forms. */
    method Type(email: string, otp: string, newPassword: string, confirmPassword: string)
      modifies this`email, this`otp, this`newPassword, this`confirmPassword
      ensures this.email == email && this.otp == otp
      ensures this.newPassword == newPassword && this.confirmPassword == confirmPassword
    {
      this.email, this.otp := email, otp;
      this.newPassword, this.confirmPassword := newPassword, confirmPassword;
    }

    /** The failure message of an answer, or "" for an ok one. */
    static function Failure(answer: Answer, fallback: string): (m: string)
      ensures answer.AnswerThrows? ==> m == "Network error. Please try again."
      ensures answer.Answered? && !answer.ok ==> m == ErrorText(answer.message, fallback)
      ensures answer.Answered? && answer.ok ==> m == ""
    {
      match answer
      case AnswerThrows => "Network error. Please try again."
      case Answered(ok, message) => if ok then "" else ErrorText(message, fallback)
    }

    /**
     * The form shown at the current step is submitted; the browser holds back
     * a submit with an empty required field. handleSendOTP, handleVerifyOTP
     * and handleResetPassword each clear the error, post one request and set
     * the next step on an ok answer; the last also refuses mismatched or
     * short passwords first. At the last step no form is shown.
     */
    method Submit(answer: Answer) returns (sent: Option<Request>, toast: Toast)
      requires Valid()
      modifies this`activeStep, this`loading, this`error
      ensures Valid()
      ensures activeStep == (if sent.Some? && Accepted(answer) then old(activeStep) + 1 else old(activeStep))
      ensures activeStep == NextStep(old(activeStep), sent.Some? && Accepted(answer))
      ensures old(activeStep) <= activeStep
      ensures old(activeStep) == EmailStep && email == "" ==> sent.None?
      ensures old(activeStep) == CodeStep && otp == "" ==> sent.None?
      ensures old(activeStep) == PasswordStep && (newPassword == "" || confirmPassword == "") ==> sent.None?
      ensures old(activeStep) == EmailStep && email != "" ==> sent == Some(SendResetCode(email))
      ensures old(activeStep) == CodeStep && otp != "" ==> sent == Some(VerifyResetCode(email, otp))
      ensures old(activeStep) == PasswordStep && newPassword != "" && confirmPassword != "" ==>
        sent == (if PasswordError(newPassword, confirmPassword).None? then Some(ResetPassword(email, otp, newPassword)) else None)
      ensures (old(activeStep) == PasswordStep && newPassword != "" && confirmPassword != "" &&
        PasswordError(newPassword, confirmPassword).Some?) ==> error == PasswordError(newPassword, confirmPassword).value
      ensures old(activeStep) == DoneStep ==> sent.None?
      ensures sent.None? && !(old(activeStep) == PasswordStep && newPassword != "" && confirmPassword != "") ==>
        error == old(error)
      ensures sent.None? ==> loading == old(loading) && toast == NoToast
      ensures sent.Some? ==> !loading && error == Failure(answer, FailureFallback(old(activeStep)))
      ensures sent.Some? && Accepted(answer) ==> toast == ToastSuccess(SuccessText(old(activeStep)))
      ensures sent.Some? && !(Accepted(answer)) ==> toast == NoToast
    {
      sent, toast := None, NoToast;
      if activeStep == EmailStep {
        if email == "" { return; }
        sent := Some(SendResetCode(email));
      } else if activeStep == CodeStep {
        if otp == "" { return; }
        sent := Some(VerifyResetCode(email, otp));
      } else if activeStep == PasswordStep {
        if newPassword == "" || confirmPassword == "" { return; }
        if newPassword != confirmPassword {
          error := "Passwords do not match";
          return;
        }
        if |newPassword| < MinPasswordLength {
          error := "Password must be at least 6 characters long";
          return;
        }
        sent := Some(ResetPassword(email, otp, newPassword));
      } else {
        return;
      }
      loading, error := true, "";
      error := Failure(answer, FailureFallback(activeStep));
      if Accepted(answer) {
        toast := ToastSuccess(SuccessText(activeStep));
        activeStep := activeStep + 1;
      }
      loading := false;
    }

    /** The toast of an ok answer at each step. */
    static function SuccessText(step: int): string
    {
      if step == EmailStep then "OTP sent to your email!"
      else if step == CodeStep then "OTP verified successfully!"
      else "Password reset successfully!"
    }

    /** The message of a refused answer without `message`, at each step. */
    static function FailureFallback(step: int): string
    {
      if step == EmailStep then "Failed to send OTP"
      else if step == CodeStep then "Invalid OTP"
      else "Failed to reset password"
    }
  }
}
