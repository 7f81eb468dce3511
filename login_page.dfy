/**
 * The sign-in page (frontend/src/pages/Login.tsx): the password tab and the
 * OTP tab, the field rules the form library checks before a handler runs,
 * the send-code button with its empty-phone guard and the resend button.
 * The calls into the session provider and the OTP endpoint are parameters
 * (their outcome); the request a handler sends is returned.
 */
module LoginPage {
  import opened Wrappers
  import Text
  import opened Ui
  import AuthHandler
  import AuthService
  import Models
  import Http

  const PasswordTab := 0
  const OtpTab := 1

  /**
   * The phone pattern `^\+?[1-9]\d{1,14}$`, read piece by piece: an optional
   * plus sign, a non-zero digit, then one to fourteen digits.
   */
  ghost predicate PhonePattern(s: string)
  {
    exists sign: string, first: char, rest: string ::
      s == sign + [first] + rest && (sign == "" || sign == "+") &&
      '1' <= first <= '9' && 1 <= |rest| <= 14 && Text.AllDigits(rest)
  }

  /** The phone rule as the form checks it, one position at a time. */
  predicate ValidPhone(s: string)
  {
    var k := if |s| > 0 && s[0] == '+' then 1 else 0;
    2 <= |s| - k <= 15 && '1' <= s[k] <= '9' && Text.AllDigits(s[k + 1..])
  }

  /** The position-wise check accepts exactly the strings the pattern matches. */
  lemma ValidPhoneIffPattern(s: string)
    ensures ValidPhone(s) <==> PhonePattern(s)
  {
    var k := if |s| > 0 && s[0] == '+' then 1 else 0;
    if ValidPhone(s) {
      assert s == s[..k] + [s[k]] + s[k + 1..];
    }
    if PhonePattern(s) {
      var sign: string, first: char, rest: string :|
        s == sign + [first] + rest && (sign == "" || sign == "+") &&
        '1' <= first <= '9' && 1 <= |rest| <= 14 && Text.AllDigits(rest);
      assert s[|sign|] == first;
      assert |sign| == k;
      assert s[k + 1..] == rest;
    }
  }

  /** The placeholder shown in the phone box is itself a valid number. */
  lemma PlaceholderPhoneValid()
    ensures ValidPhone("+254700000000")
  {
  }

  /** A national number with its leading zero is refused; the pattern wants the country code. */
  lemma LeadingZeroRefused(rest: string)
    ensures !ValidPhone("0" + rest) && !ValidPhone("+0" + rest)
  {
    assert ("+0" + rest)[0] == '+';
    assert ("+0" + rest)[1] == '0';
  }

  /** The code pattern `^\d{6}$`. */
  predicate ValidOtpCode(s: string)
  {
    |s| == 6 && Text.AllDigits(s)
  }

  /** Every code the server generates passes the form's code rule. */
  lemma {:induction false} ServerCodesPass(n: nat)
    requires n < 1000000
    ensures ValidOtpCode(AuthService.ZeroPad6(n))
  {
    var r := AuthService.ZeroPad6(n);
    assert |r| == 6 && Text.AllDigits(r);
  }

  /** The phone field's message: required first, then the pattern. */
  function PhoneError(phone: string): (e: Option<string>)
    ensures e.None? <==> ValidPhone(phone)
    ensures phone == "" ==> e == Some("Phone number is required")
  {
    if phone == "" then Some("Phone number is required")
    else if !ValidPhone(phone) then Some("Please enter a valid phone number")
    else None
  }

  /** The code field's message: required first, then the pattern. */
  function CodeError(code: string): (e: Option<string>)
    ensures e.None? <==> ValidOtpCode(code)
    ensures code == "" ==> e == Some("OTP code is required")
  {
    if code == "" then Some("OTP code is required")
    else if !ValidOtpCode(code) then Some("Please enter a valid 6-digit code")
    else None
  }

  /** The password tab's fields are only required to be non-empty. */
  predicate PasswordFormFilled(identifier: string, password: string)
  {
    identifier != "" && password != ""
  }

  /** A password-tab request the form lets through is never the endpoint's `400`. */
  lemma FilledLoginPassesServerCheck(users: seq<Models.User>, identifier: string, password: string,
                                      matches: (string, string) -> bool, token: Option<string>)
    requires PasswordFormFilled(identifier, password)
    ensures AuthHandler.Login(users, AuthHandler.LoginRequest(identifier, password), matches, token).status != Http.InvalidRequest
  {
  }

  /** An OTP-tab request the form lets through is complete for the verifying endpoint. */
  lemma ValidOtpFormComplete(phone: string, code: string)
    requires ValidPhone(phone) && ValidOtpCode(code)
    ensures AuthHandler.VerifyRequestComplete(AuthHandler.VerifyOtpRequest(phone, code, AuthHandler.PurposeLogin))
  {
  }

  class SignInPage {
    var loading: bool
    var error: string
    var tabValue: int
    var otpSent: bool
    var otpLoading: bool
    var phone: string

    constructor()
      ensures !loading && error == "" && tabValue == PasswordTab && !otpSent && !otpLoading && phone == ""
    {
      loading, error, tabValue := false, "", PasswordTab;
      otpSent, otpLoading, phone := false, false, "";
    }

    method SetTab(tab: int)
      modifies this`tabValue
      ensures tabValue == tab
    {
      tabValue := tab;
    }

    /** The watched phone field. */
    method TypePhone(value: string)
      modifies this`phone
      ensures phone == value
    {
      phone := value;
    }

    /**
     * onLoginSubmit, behind the form's required rules: a filled form calls
     * login; success navigates home, failure shows the server's error or
     * `Login failed`.
     */
    method SubmitLogin(identifier: string, password: string, reply: Call)
      returns (sent: Option<AuthHandler.LoginRequest>, navigate: bool)
      modifies this`loading, this`error
      ensures !PasswordFormFilled(identifier, password) ==>
        sent.None? && !navigate && loading == old(loading) && error == old(error)
      ensures PasswordFormFilled(identifier, password) ==>
        sent == Some(AuthHandler.LoginRequest(identifier, password)) && !loading &&
        (navigate <==> reply.Succeeded?) &&
        error == (if reply.Succeeded? then "" else ErrorText(reply.serverError, "Login failed"))
    {
      if !PasswordFormFilled(identifier, password) {
        return None, false;
      }
      loading, error := true, "";
      sent := Some(AuthHandler.LoginRequest(identifier, password));
      if reply.Succeeded? {
        navigate := true;
      } else {
        error, navigate := ErrorText(reply.serverError, "Login failed"), false;
      }
      loading := false;
    }

    /**
     * sendOTP: an empty phone is refused with a message and nothing is sent.
     * Otherwise the code is requested for purpose `login`; success shows the
     * code field, failure the server's error or `Failed to send OTP`.
     */
    method SendOtp(reply: Call) returns (sent: Option<AuthHandler.OtpRequest>)
      modifies this`otpLoading, this`error, this`otpSent
      ensures phone == "" ==> (sent.None? && error == "Please enter your phone number" &&
        otpSent == old(otpSent) && otpLoading == old(otpLoading))
      ensures phone != "" ==> (sent == Some(AuthHandler.OtpRequest(phone, AuthHandler.PurposeLogin)) && !otpLoading &&
        (reply.Succeeded? ==> otpSent && error == "") &&
        (reply.Failed? ==> otpSent == old(otpSent) && error == ErrorText(reply.serverError, "Failed to send OTP")))
    {
      if phone == "" {
        error := "Please enter your phone number";
        return None;
      }
      otpLoading, error := true, "";
      sent := Some(AuthHandler.OtpRequest(phone, AuthHandler.PurposeLogin));
      if reply.Succeeded? {
        otpSent := true;
      } else {
        error := ErrorText(reply.serverError, "Failed to send OTP");
      }
      otpLoading := false;
    }

    /** The resend button: the code field is hidden first, then the code is sent again. */
    method Resend(reply: Call) returns (sent: Option<AuthHandler.OtpRequest>)
      modifies this`otpLoading, this`error, this`otpSent
      ensures otpSent <==> phone != "" && reply.Succeeded?
      ensures sent.Some? <==> phone != ""
      ensures phone != "" && reply.Failed? ==> error == ErrorText(reply.serverError, "Failed to send OTP")
    {
      otpSent := false;
      sent := SendOtp(reply);
    }

    /**
     * onOTPSubmit, behind the phone and code rules: the code is verified for
     * purpose `login`; success navigates home, failure shows the server's
     * error or `OTP verification failed`.
     */
    method SubmitOtp(code: string, reply: Call)
      returns (sent: Option<AuthHandler.VerifyOtpRequest>, navigate: bool)
      modifies this`loading, this`error
      ensures !(ValidPhone(phone) && ValidOtpCode(code)) ==>
        sent.None? && !navigate && loading == old(loading) && error == old(error)
      ensures ValidPhone(phone) && ValidOtpCode(code) ==>
        sent == Some(AuthHandler.VerifyOtpRequest(phone, code, AuthHandler.PurposeLogin)) && !loading &&
        (navigate <==> reply.Succeeded?) &&
        error == (if reply.Succeeded? then "" else ErrorText(reply.serverError, "OTP verification failed"))
      ensures sent.Some? ==> AuthHandler.VerifyRequestComplete(sent.value)
    {
      if !(ValidPhone(phone) && ValidOtpCode(code)) {
        return None, false;
      }
      loading, error := true, "";
      sent := Some(AuthHandler.VerifyOtpRequest(phone, code, AuthHandler.PurposeLogin));
      if reply.Succeeded? {
        navigate := true;
      } else {
        error, navigate := ErrorText(reply.serverError, "OTP verification failed"), false;
      }
      loading := false;
    }
  }
}
