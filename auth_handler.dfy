/**
 * The authentication endpoints (backend/handlers/auth.go). Each handler
 * checks its request's validation tags, then makes a straight line of
 * calls into the authentication service. The JWT signer is an input: the
 * token it produced, or none when signing failed. The `email` rule of the
 * validator is an input as well (whether the address passed it).
 */
module AuthHandler {
  import opened Wrappers
  import opened Models
  import opened Store
  import opened Http
  import AuthService
  import Text

  const MinPasswordLength := 6
  const PurposeLogin := "login"
  const PurposePasswordReset := "password_reset"
  const TokenFailed := "Failed to generate token"
  const OtpRejected := "Invalid OTP"

  datatype RegisterRequest = RegisterRequest(
    username: string, email: string, password: string, phone: string, firstName: string, lastName: string)

  datatype LoginRequest = LoginRequest(identifier: string, password: string)

  datatype OtpRequest = OtpRequest(phone: string, purpose: string)

  datatype VerifyOtpRequest = VerifyOtpRequest(phone: string, code: string, purpose: string)

  datatype ResetPasswordRequest = ResetPasswordRequest(phone: string, newPassword: string, otpCode: string)

  /** What a successful login or registration replies with: the token and the user. */
  datatype Session = Session(token: string, user: User)

  /** `required,min=3,max=50` username, `required,email`, password of at least 6, phone of at least 10, both names. */
  predicate RegisterRequestValid(req: RegisterRequest, emailValid: bool)
  {
    3 <= |req.username| <= 50 && req.email != "" && emailValid && |req.password| >= MinPasswordLength &&
    |req.phone| >= 10 && req.firstName != "" && req.lastName != ""
  }

  /** The row the handler asks the service to create: the request's fields with role `customer`. */
  function NewUser(req: RegisterRequest): (u: User)
    ensures u.role == RoleCustomer && !u.isVerified
    ensures u.username == req.username && u.email == req.email && u.phone == req.phone && u.password == req.password
    ensures u.firstName == req.firstName && u.lastName == req.lastName
  {
    User(0, req.username, req.email, req.password, req.phone, req.firstName, req.lastName, RoleCustomer, false)
  }

  /**
   * Register: invalid requests are refused unchanged; a service refusal is a
   * 400 with its message; a user stored but whose token could not be signed
   * gives a 500 and stays stored; otherwise 201 with the customer session.
   */
  method Register(db: Database, req: RegisterRequest, emailValid: bool, hash: AuthService.HashOutcome, token: Option<string>)
    returns (st: Status, session: Option<Session>)
    modifies db`users, db`nextId
    ensures !RegisterRequestValid(req, emailValid) ==> st == InvalidRequest && session.None? && unchanged(db)
    ensures RegisterRequestValid(req, emailValid) && AuthService.ConflictIndex(old(db.users), NewUser(req)).Some? ==>
      st == BadRequest(AuthService.UserExists) && session.None? && unchanged(db)
    ensures RegisterRequestValid(req, emailValid) && AuthService.ConflictIndex(old(db.users), NewUser(req)).None? ==>
      match hash
      case HashFailed(e) => st == BadRequest(e) && session.None? && unchanged(db)
      case Hashed(h) =>
        var u := NewUser(req).(id := old(db.nextId), password := h);
        db.users == old(db.users) + [u] && db.nextId == old(db.nextId) + 1 &&
        (token.None? ==> st == ServerError(TokenFailed) && session.None?) &&
        (token.Some? ==> st == Created("User registered successfully") && session == Some(Session(token.value, u)))
    ensures session.Some? ==> session.value.user.role == RoleCustomer
    ensures AuthService.IdentitiesDistinct(old(db.users)) ==> AuthService.IdentitiesDistinct(db.users)
  {
    if !RegisterRequestValid(req, emailValid) {
      return InvalidRequest, None;
    }
    var user, err := AuthService.Register(db, NewUser(req), hash);
    if err.Some? {
      return BadRequest(err.value), None;
    }
    if token.None? {
      return ServerError(TokenFailed), None;
    }
    return Created("User registered successfully"), Some(Session(token.value, user));
  }

  /**
   * Login: a request with an empty field is a 400; any service refusal is a
   * 401 with the same `invalid credentials` text; then the token.
   */
  function Login(users: seq<User>, req: LoginRequest, matches: (string, string) -> bool, token: Option<string>): (r: Reply<Session>)
    ensures (req.identifier == "" || req.password == "") ==> r == Reply(InvalidRequest, None)
    ensures (req.identifier != "" && req.password != "" &&
      AuthService.Login(users, req.identifier, req.password, matches).Failure?) ==>
      r == Reply(Unauthorized(AuthService.InvalidCredentials), None)
    ensures r.status.Success() <==> (req.identifier != "" && req.password != "" && token.Some? &&
      AuthService.Login(users, req.identifier, req.password, matches).Success?)
    ensures r.status.Success() ==> (r.status == Ok("Login successful") &&
      r.body == Some(Session(token.value, AuthService.Login(users, req.identifier, req.password, matches).value)))
  {
    if req.identifier == "" || req.password == "" then Reply(InvalidRequest, None)
    else
      match AuthService.Login(users, req.identifier, req.password, matches)
      case Failure(e) => Reply(Unauthorized(e), None)
      case Success(u) =>
        if token.None? then Reply(ServerError(TokenFailed), None)
        else Reply(Ok("Login successful"), Some(Session(token.value, u)))
  }

  /** SendOTP: both fields required; a service error is a 500 (the code may already be stored). */
  method SendOtp(db: Database, req: OtpRequest, draw: AuthService.Draw, now: int, sms: Option<string>) returns (st: Status)
    requires draw.Drawn? ==> draw.n < AuthService.OtpBound
    modifies db`otps, db`nextId
    ensures (req.phone == "" || req.purpose == "") ==> st == InvalidRequest && unchanged(db)
    ensures req.phone != "" && req.purpose != "" && draw.DrawFailed? ==>
      st == ServerError(draw.error) && unchanged(db)
    ensures req.phone != "" && req.purpose != "" && draw.Drawn? ==>
      db.otps == AuthService.ReplaceCode(old(db.otps),
        Otp(old(db.nextId), req.phone, AuthService.ZeroPad6(draw.n), req.purpose, now + AuthService.OtpLifetime, false)) &&
      db.nextId == old(db.nextId) + 1 &&
      st == (if sms.Some? then ServerError(sms.value) else Ok("OTP sent successfully"))
    ensures AuthService.OneRowPerKey(old(db.otps)) ==> AuthService.OneRowPerKey(db.otps)
  {
    if req.phone == "" || req.purpose == "" {
      return InvalidRequest;
    }
    var err := AuthService.SendOtp(db, req.phone, req.purpose, draw, now, sms);
    if err.Some? {
      return ServerError(err.value);
    }
    return Ok("OTP sent successfully");
  }

  predicate VerifyRequestComplete(req: VerifyOtpRequest)
  {
    req.phone != "" && req.code != "" && req.purpose != ""
  }

  /** VerifyOTP: the request's own purpose is checked; failure is a 400. */
  method VerifyOtp(db: Database, req: VerifyOtpRequest, now: int) returns (st: Status)
    modifies db`otps
    ensures !VerifyRequestComplete(req) ==> st == InvalidRequest && unchanged(db)
    ensures VerifyRequestComplete(req) ==>
      var found := AuthService.LiveIndex(old(db.otps), req.phone, req.code, req.purpose, now);
      (found.None? ==> st == BadRequest(AuthService.InvalidOtp) && unchanged(db)) &&
      (found.Some? ==> st == Ok("OTP verified successfully") && db.otps == AuthService.MarkUsed(old(db.otps), found.value))
    ensures AuthService.OneRowPerKey(old(db.otps)) ==> AuthService.OneRowPerKey(db.otps)
  {
    if !VerifyRequestComplete(req) {
      return InvalidRequest;
    }
    var err := AuthService.VerifyOtp(db, req.phone, req.code, req.purpose, now);
    if err.Some? {
      return BadRequest(err.value);
    }
    return Ok("OTP verified successfully");
  }

  /**
   * LoginWithOTP: the code is verified for purpose `login`, whatever purpose
   * the request names, before the user is looked up. A code spent on a
   * phone with no user stays spent.
   */
  method LoginWithOtp(db: Database, req: VerifyOtpRequest, now: int, token: Option<string>)
    returns (st: Status, session: Option<Session>)
    modifies db`otps
    ensures !VerifyRequestComplete(req) ==> st == InvalidRequest && session.None? && unchanged(db)
    ensures VerifyRequestComplete(req) ==>
      var found := AuthService.LiveIndex(old(db.otps), req.phone, req.code, PurposeLogin, now);
      (found.None? ==> st == BadRequest(AuthService.InvalidOtp) && session.None? && unchanged(db)) &&
      (found.Some? ==>
        db.otps == AuthService.MarkUsed(old(db.otps), found.value) &&
        match AuthService.LoginWithOtp(db.users, req.phone)
        case Failure(e) => st == Unauthorized(e) && session.None?
        case Success(u) =>
          (token.None? ==> st == ServerError(TokenFailed) && session.None?) &&
          (token.Some? ==> st == Ok("Login successful") && session == Some(Session(token.value, u))))
    ensures st.Success() ==> AuthService.LiveIndex(old(db.otps), req.phone, req.code, PurposeLogin, now).Some?
    ensures AuthService.OneRowPerKey(old(db.otps)) ==> AuthService.OneRowPerKey(db.otps)
  {
    if !VerifyRequestComplete(req) {
      return InvalidRequest, None;
    }
    var err := AuthService.VerifyOtp(db, req.phone, req.code, PurposeLogin, now);
    if err.Some? {
      return BadRequest(err.value), None;
    }
    match AuthService.LoginWithOtp(db.users, req.phone) {
      case Failure(e) =>
        return Unauthorized(e), None;
      case Success(u) =>
        if token.None? {
          return ServerError(TokenFailed), None;
        }
        return Ok("Login successful"), Some(Session(token.value, u));
    }
  }

  predicate ResetRequestValid(req: ResetPasswordRequest)
  {
    req.phone != "" && |req.newPassword| >= MinPasswordLength && req.otpCode != ""
  }

  /** A JSON object of string members, in the order they were written. */
  type JsonObject = seq<(string, string)>

  /** `encoding/json` fills a field from a key equal to its tag, or equal to it up to letter case. */
  predicate KeyMatches(key: string, tag: string)
  {
    Text.ToLower(key) == Text.ToLower(tag)
  }

  /**
   * The string `encoding/json` leaves in the field tagged `tag`: each
   * matching member overwrites the last, so the last one wins, and a field
   * no member names keeps its zero value "".
   */
  function Field(body: JsonObject, tag: string): (v: string)
    ensures (forall i :: 0 <= i < |body| ==> !KeyMatches(body[i].0, tag)) ==> v == ""
    ensures (exists i :: 0 <= i < |body| && KeyMatches(body[i].0, tag)) ==>
      exists i :: 0 <= i < |body| && KeyMatches(body[i].0, tag) && body[i].1 == v &&
        forall j :: i < j < |body| ==> !KeyMatches(body[j].0, tag)
    decreases |body|
  {
    if |body| == 0 then ""
    else if KeyMatches(body[|body| - 1].0, tag) then body[|body| - 1].1
    else
      var init := body[..|body| - 1];
      assert forall i :: 0 <= i < |init| ==> init[i] == body[i];
      Field(init, tag)
  }

  /** `c.ShouldBindJSON(&req)` for the reset request: each field from its `json` tag (auth.go:52-56). */
  function BindResetRequest(body: JsonObject): (r: ResetPasswordRequest)
    ensures (forall i :: 0 <= i < |body| ==> !KeyMatches(body[i].0, "phone")) ==> r.phone == ""
    ensures (forall i :: 0 <= i < |body| ==> !KeyMatches(body[i].0, "new_password")) ==> r.newPassword == ""
    ensures (forall i :: 0 <= i < |body| ==> !KeyMatches(body[i].0, "otp_code")) ==> r.otpCode == ""
  {
    ResetPasswordRequest(Field(body, "phone"), Field(body, "new_password"), Field(body, "otp_code"))
  }

  /**
   * ResetPassword: the code is verified for purpose `password_reset`; any
   * failure there is `Invalid OTP` with the password untouched. Then the
   * service resets the first user with the phone.
   */
  method ResetPassword(db: Database, req: ResetPasswordRequest, now: int, hash: AuthService.HashOutcome) returns (st: Status)
    modifies db`otps, db`users
    ensures !ResetRequestValid(req) ==> st == InvalidRequest && unchanged(db)
    ensures ResetRequestValid(req) ==>
      var found := AuthService.LiveIndex(old(db.otps), req.phone, req.otpCode, PurposePasswordReset, now);
      (found.None? ==> st == BadRequest(OtpRejected) && unchanged(db)) &&
      (found.Some? ==>
        db.otps == AuthService.MarkUsed(old(db.otps), found.value) &&
        match AuthService.PhoneIndex(old(db.users), req.phone)
        case None => st == ServerError(AuthService.UserNotFound) && db.users == old(db.users)
        case Some(k) =>
          match hash
          case HashFailed(e) => st == ServerError(e) && db.users == old(db.users)
          case Hashed(h) =>
            st == Ok("Password reset successfully") &&
            db.users == old(db.users)[k := old(db.users)[k].(password := h)])
    ensures db.users != old(db.users) ==>
      AuthService.LiveIndex(old(db.otps), req.phone, req.otpCode, PurposePasswordReset, now).Some?
    ensures AuthService.IdentitiesDistinct(old(db.users)) ==> AuthService.IdentitiesDistinct(db.users)
    ensures AuthService.OneRowPerKey(old(db.otps)) ==> AuthService.OneRowPerKey(db.otps)
  {
    if !ResetRequestValid(req) {
      return InvalidRequest;
    }
    var err := AuthService.VerifyOtp(db, req.phone, req.otpCode, PurposePasswordReset, now);
    if err.Some? {
      return BadRequest(OtpRejected);
    }
    err := AuthService.ResetPassword(db, req.phone, hash);
    if err.Some? {
      return ServerError(err.value);
    }
    return Ok("Password reset successfully");
  }
}
