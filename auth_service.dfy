/**
 * The authentication service (backend/services/auth.go): the user table
 * with its registration uniqueness check, password and OTP login, and the
 * one-time-password table. bcrypt hashing and comparison, crypto/rand, the
 * clock and the SMS gateway are inputs: a hashing outcome, a password
 * checker, the drawn number, the current Unix time and the gateway's error.
 */
module AuthService {
  import opened Wrappers
  import opened Models
  import opened Store
  import Text
  import Seqs

  const UserExists := "user already exists with this email, username, or phone"
  const InvalidCredentials := "invalid credentials"
  const InvalidOtp := "invalid or expired OTP"
  const UserNotFound := "user not found"
  /** `time.Now().Add(10 * time.Minute)`: an OTP lives 600 seconds. */
  const OtpLifetime := 600
  /** The exclusive bound given to `rand.Int`. */
  const OtpBound := 999999

  /** What `bcrypt.GenerateFromPassword` gave back. */
  datatype HashOutcome = Hashed(hash: string) | HashFailed(error: string)

  /** What `rand.Int(rand.Reader, max)` gave back. */
  datatype Draw = Drawn(n: nat) | DrawFailed(error: string)

  // ----- users -----

  /** Row `v` is found by the registration query for `u`: same email, same username or same phone. */
  predicate Clashes(u: User, v: User)
  {
    v.email == u.email || v.username == u.username || v.phone == u.phone
  }

  function ClashWith(u: User): User -> bool
  {
    (v: User) => Clashes(u, v)
  }

  /** No two users share an email, a username or a phone. */
  predicate IdentitiesDistinct(users: seq<User>)
  {
    forall i, j :: 0 <= i < j < |users| ==> !Clashes(users[i], users[j])
  }

  /** `Where("email = ? OR username = ? OR phone = ?", ...).First(&existingUser)`. */
  function ConflictIndex(users: seq<User>, u: User): (r: Option<nat>)
    ensures r.Some? ==> r.value < |users| && Clashes(u, users[r.value])
    ensures r.None? <==> forall i :: 0 <= i < |users| ==> !Clashes(u, users[i])
  {
    Seqs.FindFirst(users, ClashWith(u))
  }

  /**
   * Register: refused when any user shares the email, username or phone;
   * then refused when hashing fails; otherwise the user is stored with the
   * next id and the hashed password. Stored identities stay distinct.
   */
  method Register(db: Database, user: User, hash: HashOutcome) returns (created: User, err: Option<string>)
    modifies db`users, db`nextId
    ensures ConflictIndex(old(db.users), user).Some? ==>
      err == Some(UserExists) && db.users == old(db.users) && db.nextId == old(db.nextId)
    ensures ConflictIndex(old(db.users), user).None? && hash.HashFailed? ==>
      err == Some(hash.error) && db.users == old(db.users) && db.nextId == old(db.nextId)
    ensures ConflictIndex(old(db.users), user).None? && hash.Hashed? ==>
      err.None? && created == user.(id := old(db.nextId), password := hash.hash) &&
      db.users == old(db.users) + [created] && db.nextId == old(db.nextId) + 1
    ensures IdentitiesDistinct(old(db.users)) ==> IdentitiesDistinct(db.users)
  {
    created := user;
    if ConflictIndex(db.users, user).Some? {
      return created, Some(UserExists);
    }
    match hash {
      case HashFailed(e) =>
        return created, Some(e);
      case Hashed(h) =>
        created := created.(password := h);
    }
    created := created.(id := db.nextId);
    db.users := db.users + [created];
    db.nextId := db.nextId + 1;
    err := None;
  }

  /** The login query: a user whose email, username or phone is the identifier. */
  function IdentifiedBy(identifier: string): User -> bool
  {
    (v: User) => v.email == identifier || v.username == identifier || v.phone == identifier
  }

  function IdentifierIndex(users: seq<User>, identifier: string): (r: Option<nat>)
    ensures r.Some? ==> r.value < |users| && IdentifiedBy(identifier)(users[r.value])
    ensures r.None? <==> forall i :: 0 <= i < |users| ==> !IdentifiedBy(identifier)(users[i])
  {
    Seqs.FindFirst(users, IdentifiedBy(identifier))
  }

  /**
   * Login: the first user the identifier names, if `matches` accepts the
   * password against its stored hash. An unknown identifier and a wrong
   * password give the same error.
   */
  function Login(users: seq<User>, identifier: string, password: string, matches: (string, string) -> bool): (r: Result<User>)
    ensures r.Success? <==> (IdentifierIndex(users, identifier).Some? &&
      matches(users[IdentifierIndex(users, identifier).value].password, password))
    ensures r.Success? ==> (r.value == users[IdentifierIndex(users, identifier).value] &&
      (r.value.email == identifier || r.value.username == identifier || r.value.phone == identifier))
    ensures r.Failure? ==> r.error == InvalidCredentials
  {
    match IdentifierIndex(users, identifier)
    case None => Failure(InvalidCredentials)
    case Some(k) => if matches(users[k].password, password) then Success(users[k]) else Failure(InvalidCredentials)
  }

  /**
   * A freshly registered user logs in by email, provided no earlier user
   * has that email as its username or phone (registration only compares
   * like with like).
   */
  lemma {:induction false} LoginAfterRegister(users: seq<User>, u: User, password: string, matches: (string, string) -> bool)
    requires forall i :: 0 <= i < |users| ==> !IdentifiedBy(u.email)(users[i])
    requires matches(u.password, password)
    ensures Login(users + [u], u.email, password, matches) == Success(u)
  {
    Seqs.FindFirstAppend(users, u, IdentifiedBy(u.email));
  }

  /** The OTP login lookup: the first user with the phone. */
  function LoginWithOtp(users: seq<User>, phone: string): (r: Result<User>)
    ensures r.Success? ==> r.value in users && r.value.phone == phone
    ensures r.Failure? <==> forall i :: 0 <= i < |users| ==> users[i].phone != phone
    ensures r.Failure? ==> r.error == UserNotFound
  {
    match PhoneIndex(users, phone)
    case None => Failure(UserNotFound)
    case Some(k) => Success(users[k])
  }

  function PhoneIndex(users: seq<User>, phone: string): (r: Option<nat>)
    ensures r.Some? ==> r.value < |users| && users[r.value].phone == phone
    ensures r.None? <==> forall i :: 0 <= i < |users| ==> users[i].phone != phone
  {
    Seqs.FindFirst(users, (v: User) => v.phone == phone)
  }

  /** ResetPassword: `user not found` for an unknown phone; else the first such user's hash is replaced. */
  method ResetPassword(db: Database, phone: string, hash: HashOutcome) returns (err: Option<string>)
    modifies db`users
    ensures PhoneIndex(old(db.users), phone).None? ==> err == Some(UserNotFound) && db.users == old(db.users)
    ensures PhoneIndex(old(db.users), phone).Some? && hash.HashFailed? ==>
      err == Some(hash.error) && db.users == old(db.users)
    ensures PhoneIndex(old(db.users), phone).Some? && hash.Hashed? ==>
      var k := PhoneIndex(old(db.users), phone).value;
      err.None? && db.users == old(db.users)[k := old(db.users)[k].(password := hash.hash)]
    ensures IdentitiesDistinct(old(db.users)) ==> IdentitiesDistinct(db.users)
  {
    var found := PhoneIndex(db.users, phone);
    if found.None? {
      return Some(UserNotFound);
    }
    var k := found.value;
    match hash {
      case HashFailed(e) =>
        return Some(e);
      case Hashed(h) =>
        db.users := db.users[k := db.users[k].(password := h)];
        return None;
    }
  }

  // ----- one-time passwords -----

  /** `fmt.Sprintf("%06d", n)` for a number below a million. */
  function ZeroPad6(n: nat): (r: string)
    requires n < 1000000
    ensures |r| == 6 && Text.AllDigits(r)
  {
    Text.PadDigits(n, 6)
  }

  /** The padded code reads back as the number drawn. */
  lemma ZeroPad6Value(n: nat)
    requires n < 1000000
    ensures Text.DecimalValue(ZeroPad6(n)) == n
  {
    assert Text.Pow10(6) == 1000000;
    Text.PadDigitsValue(n, 6);
  }

  /** Codes are six digits, distinct draws give distinct codes, and `999999` is never produced. */
  lemma {:induction false} GeneratedCodes(n: nat, m: nat)
    requires n < OtpBound && m < OtpBound
    ensures |ZeroPad6(n)| == 6 && Text.AllDigits(ZeroPad6(n))
    ensures ZeroPad6(n) != "999999"
    ensures ZeroPad6(n) == ZeroPad6(m) <==> n == m
  {
    ZeroPad6Value(n);
    ZeroPad6Value(m);
    ZeroPad6Value(999999);
    assert ZeroPad6(999999) == "999999";
  }

  /** Two OTP rows for the same phone and purpose. */
  predicate SameKey(a: Otp, b: Otp)
  {
    a.phone == b.phone && a.purpose == b.purpose
  }

  /** Rows SendOTP keeps: those for another phone or purpose. */
  function OtherKey(row: Otp): Otp -> bool
  {
    (o: Otp) => !SameKey(o, row)
  }

  /** At most one row per (phone, purpose). */
  predicate OneRowPerKey(otps: seq<Otp>)
  {
    forall i, j :: 0 <= i < j < |otps| ==> !SameKey(otps[i], otps[j])
  }

  /** The table after SendOTP: every row for the new row's key deleted, then the new row appended. */
  function ReplaceCode(otps: seq<Otp>, row: Otp): (r: seq<Otp>)
    ensures |r| >= 1 && r[|r| - 1] == row
    ensures forall i :: 0 <= i < |r| - 1 ==> r[i] in otps && !SameKey(r[i], row)
    ensures forall i :: 0 <= i < |otps| && !SameKey(otps[i], row) ==> otps[i] in r
  {
    Seqs.Filter(otps, OtherKey(row)) + [row]
  }

  lemma {:induction false} FilterKeepsOneRowPerKey(otps: seq<Otp>, p: Otp -> bool)
    requires OneRowPerKey(otps)
    ensures OneRowPerKey(Seqs.Filter(otps, p))
  {
    if |otps| > 0 {
      FilterKeepsOneRowPerKey(otps[1..], p);
      var rest := Seqs.Filter(otps[1..], p);
      forall x | x in rest
        ensures !SameKey(otps[0], x)
      {
        var k :| 0 <= k < |rest| && rest[k] == x;
        var j :| 0 <= j < |otps[1..]| && otps[1..][j] == x;
        assert otps[j + 1] == x;
      }
    }
  }

  /** After SendOTP exactly one row holds a code for that phone and purpose, and the table keeps one row per key. */
  lemma {:induction false} ReplaceCodeLeavesOne(otps: seq<Otp>, row: Otp)
    requires OneRowPerKey(otps)
    ensures OneRowPerKey(ReplaceCode(otps, row))
    ensures forall i :: 0 <= i < |ReplaceCode(otps, row)| && SameKey(ReplaceCode(otps, row)[i], row) ==>
      i == |ReplaceCode(otps, row)| - 1
  {
    FilterKeepsOneRowPerKey(otps, OtherKey(row));
  }

  /** The verification query: phone, code and purpose equal, unused, and `expires_at > now`. */
  function LiveFor(phone: string, code: string, purpose: string, now: int): Otp -> bool
  {
    (o: Otp) => o.phone == phone && o.code == code && o.purpose == purpose && !o.used && o.expiresAt > now
  }

  function LiveIndex(otps: seq<Otp>, phone: string, code: string, purpose: string, now: int): (r: Option<nat>)
    ensures r.Some? ==> r.value < |otps| && LiveFor(phone, code, purpose, now)(otps[r.value])
    ensures r.None? <==> forall i :: 0 <= i < |otps| ==> !LiveFor(phone, code, purpose, now)(otps[i])
  {
    Seqs.FindFirst(otps, LiveFor(phone, code, purpose, now))
  }

  /** `otp.Used = true` then `Save(&otp)`. */
  function MarkUsed(otps: seq<Otp>, k: nat): (r: seq<Otp>)
    requires k < |otps|
    ensures |r| == |otps| && r[k].used
    ensures forall i :: 0 <= i < |otps| && i != k ==> r[i] == otps[i]
    ensures SameKey(r[k], otps[k]) && r[k].code == otps[k].code && r[k].expiresAt == otps[k].expiresAt
  {
    otps[k := otps[k].(used := true)]
  }

  /**
   * SendOTP: a failed draw changes nothing. Otherwise every earlier code
   * for the phone and purpose is deleted and one unused code, the drawn
   * number padded to six digits, is stored to expire ten minutes later.
   * The SMS gateway's error is returned after the code is stored.
   */
  method SendOtp(db: Database, phone: string, purpose: string, draw: Draw, now: int, sms: Option<string>)
    returns (err: Option<string>)
    requires draw.Drawn? ==> draw.n < OtpBound
    modifies db`otps, db`nextId
    ensures draw.DrawFailed? ==> err == Some(draw.error) && db.otps == old(db.otps) && db.nextId == old(db.nextId)
    ensures draw.Drawn? ==>
      err == sms && db.nextId == old(db.nextId) + 1 &&
      db.otps == ReplaceCode(old(db.otps), Otp(old(db.nextId), phone, ZeroPad6(draw.n), purpose, now + OtpLifetime, false))
    ensures OneRowPerKey(old(db.otps)) ==> OneRowPerKey(db.otps)
  {
    match draw {
      case DrawFailed(e) =>
        return Some(e);
      case Drawn(n) =>
        var code := ZeroPad6(n);
        var row := Otp(db.nextId, phone, code, purpose, now + OtpLifetime, false);
        db.otps := Seqs.Filter(db.otps, OtherKey(row));
        db.otps := db.otps + [row];
        db.nextId := db.nextId + 1;
        if OneRowPerKey(old(db.otps)) {
          ReplaceCodeLeavesOne(old(db.otps), row);
        }
        return sms;
    }
  }

  /** VerifyOTP: the first live matching code is marked used; with none, `invalid or expired OTP` and no change. */
  method VerifyOtp(db: Database, phone: string, code: string, purpose: string, now: int) returns (err: Option<string>)
    modifies db`otps
    ensures LiveIndex(old(db.otps), phone, code, purpose, now).None? ==>
      err == Some(InvalidOtp) && db.otps == old(db.otps)
    ensures LiveIndex(old(db.otps), phone, code, purpose, now).Some? ==>
      err.None? && db.otps == MarkUsed(old(db.otps), LiveIndex(old(db.otps), phone, code, purpose, now).value)
    ensures err.None? <==> exists i :: 0 <= i < |old(db.otps)| && LiveFor(phone, code, purpose, now)(old(db.otps)[i])
    ensures OneRowPerKey(old(db.otps)) ==> OneRowPerKey(db.otps)
  {
    var found := LiveIndex(db.otps, phone, code, purpose, now);
    if found.None? {
      return Some(InvalidOtp);
    }
    db.otps := MarkUsed(db.otps, found.value);
    return None;
  }

  /** A code that verified is spent: in a table with one row per key it never verifies again, at any time. */
  lemma {:induction false} VerifiedCodeIsSpent(otps: seq<Otp>, phone: string, code: string, purpose: string, now: int, later: int)
    requires OneRowPerKey(otps)
    requires LiveIndex(otps, phone, code, purpose, now).Some?
    ensures LiveIndex(MarkUsed(otps, LiveIndex(otps, phone, code, purpose, now).value), phone, code, purpose, later).None?
  {
    var k := LiveIndex(otps, phone, code, purpose, now).value;
    var after := MarkUsed(otps, k);
    forall i | 0 <= i < |after| && i != k
      ensures !SameKey(otps[i], otps[k])
    {
      if i < k {
        assert !SameKey(otps[i], otps[k]);
      } else {
        assert !SameKey(otps[k], otps[i]);
      }
    }
  }

  /**
   * Right after SendOTP stored `code` at time `sent`, a code verifies for
   * that phone and purpose exactly when it is that code and the time is
   * before the ten minutes are up: every earlier code is dead.
   */
  lemma {:induction false} FreshCodeVerifies(otps: seq<Otp>, id: Id, phone: string, code: string, purpose: string,
                                             sent: int, attempt: string, now: int)
    ensures var table := ReplaceCode(otps, Otp(id, phone, code, purpose, sent + OtpLifetime, false));
      LiveIndex(table, phone, attempt, purpose, now).Some? <==> attempt == code && now < sent + OtpLifetime
  {
    var row := Otp(id, phone, code, purpose, sent + OtpLifetime, false);
    var table := ReplaceCode(otps, row);
    if attempt == code && now < sent + OtpLifetime {
      assert LiveFor(phone, attempt, purpose, now)(table[|table| - 1]);
    } else {
      forall i | 0 <= i < |table|
        ensures !LiveFor(phone, attempt, purpose, now)(table[i])
      {
        if i < |table| - 1 {
          assert !SameKey(table[i], row);
        }
      }
    }
  }
}
