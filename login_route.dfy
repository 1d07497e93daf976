/**
 * The login route: the per-key attempt limiter (five attempts, a window that
 * slides with every allowed attempt and lasts fifteen minutes after the
 * last one), its reset on success, the rate-limit key, the length-guarded
 * constant-time comparison and the order of the checks in `POST`. SHA-256 is
 * a parameter, and so are the salt from the environment, the clock and the
 * 32 random bytes of the session token.
 */
module LoginRoute {
  import opened Common
  import Csrf
  import LawsRoute

  const MaxAttempts: int := 5
  const LockoutDuration: int := 15 * 60 * 1000

  // ---------------------------------------------------------------------------
  // checkRateLimit / resetRateLimit

  datatype Attempts = Attempts(count: int, lastAttempt: int)

  datatype RateDecision = Allowed | Refused(retryAfter: int)

  /** `Math.ceil(x / 1000)` for an integer number of milliseconds. */
  function CeilSeconds(x: int): (r: int)
    ensures 1000 * (r - 1) < x <= 1000 * r
  {
    if x % 1000 == 0 then x / 1000 else x / 1000 + 1
  }

  /**
   * The decision for one attempt under `key` at `now` and the table after it:
   * an absent or stale record restarts with count 1, a full record refuses
   * without change and reports the seconds left, any other record counts the
   * attempt and moves its time to `now`.
   */
  function LoginStep(attempts: map<string, Attempts>, key: string, now: int): (r: (map<string, Attempts>, RateDecision))
    ensures forall k :: k != key ==> (k in r.0 <==> k in attempts) && (k in attempts ==> r.0[k] == attempts[k])
    ensures r.1.Refused? <==>
      key in attempts && now - attempts[key].lastAttempt <= LockoutDuration && attempts[key].count >= MaxAttempts
    ensures r.1.Refused? ==> r.0 == attempts
    ensures r.1.Allowed? ==> key in r.0 && r.0[key].lastAttempt == now
    ensures r.1.Allowed? && key in attempts && now - attempts[key].lastAttempt <= LockoutDuration ==>
      r.0[key].count == attempts[key].count + 1
    ensures r.1.Allowed? && (key !in attempts || now - attempts[key].lastAttempt > LockoutDuration) ==>
      r.0[key].count == 1
  {
    if key !in attempts || now - attempts[key].lastAttempt > LockoutDuration then
      (attempts[key := Attempts(1, now)], Allowed)
    else if attempts[key].count >= MaxAttempts then
      (attempts, Refused(CeilSeconds(LockoutDuration - (now - attempts[key].lastAttempt))))
    else
      (attempts[key := Attempts(attempts[key].count + 1, now)], Allowed)
  }

  /** A refusal asks the client to wait at most fifteen minutes, and never a negative time. */
  lemma RetryAfterBounds(attempts: map<string, Attempts>, key: string, now: int)
    requires key in attempts && attempts[key].lastAttempt <= now
    requires LoginStep(attempts, key, now).1.Refused?
    ensures 0 <= LoginStep(attempts, key, now).1.retryAfter <= LockoutDuration / 1000
  {
  }

  /** The module-level `loginAttempts` map. */
  class LoginLimiter {
    var loginAttempts: map<string, Attempts>

    /** Every record has counted between one and five attempts. */
    ghost predicate Valid()
      reads this
    {
      forall k :: k in loginAttempts ==> 1 <= loginAttempts[k].count <= MaxAttempts
    }

    constructor()
      ensures loginAttempts == map[] && Valid()
    {
      loginAttempts := map[];
    }

    /** `checkRateLimit(identifier)` at time `now`. */
    method CheckRateLimit(identifier: string, now: int) returns (d: RateDecision)
      requires Valid()
      modifies this
      ensures Valid()
      ensures (loginAttempts, d) == LoginStep(old(loginAttempts), identifier, now)
    {
      if identifier !in loginAttempts {
        loginAttempts := loginAttempts[identifier := Attempts(1, now)];
        return Allowed;
      }
      var attempts := loginAttempts[identifier];
      if now - attempts.lastAttempt > LockoutDuration {
        loginAttempts := loginAttempts[identifier := Attempts(1, now)];
        return Allowed;
      }
      if attempts.count >= MaxAttempts {
        var retryAfter := CeilSeconds(LockoutDuration - (now - attempts.lastAttempt));
        return Refused(retryAfter);
      }
      loginAttempts := loginAttempts[identifier := attempts.(count := attempts.count + 1, lastAttempt := now)];
      d := Allowed;
    }

    /** `resetRateLimit(identifier)`: the record is deleted and nothing else changes. */
    method ResetRateLimit(identifier: string)
      requires Valid()
      modifies this
      ensures Valid()
      ensures loginAttempts == old(loginAttempts) - {identifier}
    {
      loginAttempts := loginAttempts - {identifier};
    }
  }

  /** How many of the attempts under `key` at `times` are allowed, in order. */
  function AllowedAttempts(attempts: map<string, Attempts>, key: string, times: seq<int>): nat
    decreases |times|
  {
    if times == [] then 0
    else
      var (next, d) := LoginStep(attempts, key, times[0]);
      (if d.Allowed? then 1 else 0) + AllowedAttempts(next, key, times[1..])
  }

  /**
   * While every attempt comes within fifteen minutes of a time `since` that
   * is no later than the record's last attempt, no more attempts get through
   * than the count leaves room for.
   */
  lemma {:induction false} WithinLockout(attempts: map<string, Attempts>, key: string, since: int, times: seq<int>)
    requires key in attempts && 0 <= attempts[key].count <= MaxAttempts && since <= attempts[key].lastAttempt
    requires forall i :: 0 <= i < |times| ==> since <= times[i] <= since + LockoutDuration
    ensures AllowedAttempts(attempts, key, times) <= MaxAttempts - attempts[key].count
    decreases |times|
  {
    if times != [] {
      var (next, d) := LoginStep(attempts, key, times[0]);
      assert times[0] - attempts[key].lastAttempt <= LockoutDuration;
      WithinLockout(next, key, since, times[1..]);
    }
  }

  /** Starting afresh at `t0`, at most five attempts get through in the next fifteen minutes. */
  lemma AtMostFivePerLockout(attempts: map<string, Attempts>, key: string, t0: int, times: seq<int>)
    requires key !in attempts || t0 - attempts[key].lastAttempt > LockoutDuration
    requires forall i :: 0 <= i < |times| ==> t0 <= times[i] <= t0 + LockoutDuration
    ensures AllowedAttempts(attempts, key, [t0] + times) <= MaxAttempts
  {
    var (next, d) := LoginStep(attempts, key, t0);
    assert ([t0] + times)[1..] == times;
    WithinLockout(next, key, t0, times);
  }

  /** Each allowed attempt moves the window: fifteen minutes after any allowed attempt a fresh count starts. */
  lemma WindowSlides(attempts: map<string, Attempts>, key: string, t: int, later: int)
    requires LoginStep(attempts, key, t).1.Allowed?
    requires later - t > LockoutDuration
    ensures var next := LoginStep(attempts, key, t).0;
      LoginStep(next, key, later).1.Allowed? && LoginStep(next, key, later).0[key].count == 1
  {
  }

  // ---------------------------------------------------------------------------
  // secureCompare and hashPassword

  /**
   * `secureCompare`: strings of different length are unequal; otherwise
   * `timingSafeEqual` on their UTF-8 bytes, which throws when those differ in length.
   */
  function SecureCompare(a: string, b: string): (r: Result<bool>)
    ensures |a| != |b| ==> r == Ok(false)
    ensures r.Err? ==> |Csrf.Utf8String(a)| != |Csrf.Utf8String(b)|
  {
    if |a| != |b| then Ok(false)
    else
      var ba, bb := Csrf.Utf8String(a), Csrf.Utf8String(b);
      if |ba| != |bb| then Err(Csrf.ByteLengthMismatch) else Ok(ba == bb)
  }

  /** The comparison reports equality exactly for equal strings. */
  lemma SecureCompareSpec(a: string, b: string)
    ensures SecureCompare(a, b) == Ok(true) <==> a == b
  {
    if SecureCompare(a, b) == Ok(true) {
      Csrf.Utf8StringInjective(a, b);
    }
  }

  /** Two lower-case hex digests never make the comparison throw. */
  lemma HexDigestsCompare(a: string, b: string)
    requires forall i :: 0 <= i < |a| ==> IsLowerHex(a[i])
    requires forall i :: 0 <= i < |b| ==> IsLowerHex(b[i])
    ensures SecureCompare(a, b) == Ok(a == b)
  {
    Csrf.AsciiLength(a);
    Csrf.AsciiLength(b);
    SecureCompareSpec(a, b);
  }

  const DefaultSalt: string := "default-salt-change-in-production"

  /**
   * What `hashPassword` hashes, as written: `password + PASSWORD_SALT ||
   * default` groups as `(password + PASSWORD_SALT) || default`, and an unset
   * variable turns into the text "undefined".
   */
  function HashInputAsWritten(password: string, salt: Option<string>): (r: string)
    ensures r != ""
  {
    var s := password + (if salt.Some? then salt.value else "undefined");
    if s == "" then DefaultSalt else s
  }

  /** Without `PASSWORD_SALT` the default salt is never used: the password is salted with "undefined". */
  lemma UnsetSaltAsWritten(password: string)
    ensures HashInputAsWritten(password, None) == password + "undefined"
    ensures HashInputAsWritten(password, None) != password + DefaultSalt
  {
    var r := HashInputAsWritten(password, None);
    assert r[|password|] == 'u' && (password + DefaultSalt)[|password|] == 'd';
  }

  /** What `hashPassword` evidently means to hash: the password followed by the salt, or by the default salt. */
  function HashInput(password: string, salt: Option<string>): (r: string)
    ensures |r| >= |password| && r[..|password|] == password
  {
    password + (if salt.Some? && salt.value != "" then salt.value else DefaultSalt)
  }

  /** The salt in use is the configured one when set, and the default one otherwise. */
  lemma HashInputSalt(password: string, salt: Option<string>)
    ensures salt.Some? && salt.value != "" ==> HashInput(password, salt)[|password|..] == salt.value
    ensures salt.None? || salt.value == "" ==> HashInput(password, salt)[|password|..] == DefaultSalt
  {
  }

  /** Under one salt, different passwords of the same length hash different inputs. */
  lemma HashInputInjective(p: string, q: string, salt: Option<string>)
    requires |p| == |q| && p != q
    ensures HashInput(p, salt) != HashInput(q, salt)
  {
    assert HashInput(p, salt)[..|p|] == p;
    assert HashInput(q, salt)[..|q|] == q;
  }

  // ---------------------------------------------------------------------------
  // POST

  datatype User = User(id: string, email: string, name: string, passwordHash: string, createdAt: string)

  /** The answer of `POST`: the error kind with its status, or the signed-in user and the session cookie. */
  datatype LoginResponse =
    | MissingField(field: string)
    | TooManyAttempts(retryAfter: int)
    | InvalidCredentials
    | InternalError
    | LoggedIn(id: string, email: string, name: string, createdAt: string, sessionToken: string)

  function Status(r: LoginResponse): int {
    match r
    case MissingField(_) => 400
    case TooManyAttempts(_) => 429
    case InvalidCredentials => 401
    case InternalError => 500
    case LoggedIn(_, _, _, _, _) => 200
  }

  /** `${clientIp}:${email.trim().toLowerCase()}`. */
  function RateLimitKey(forwardedFor: Option<string>, email: string): (r: string)
    ensures |r| > |LawsRoute.ClientIp(forwardedFor)| && r[|LawsRoute.ClientIp(forwardedFor)|] == ':'
  {
    LawsRoute.ClientIp(forwardedFor) + ":" + Lower(Trim(email))
  }

  /** Addresses that differ only in letter case or surrounding white space share one limiter record. */
  lemma KeyIgnoresCaseAndSpace(forwardedFor: Option<string>, e1: string, e2: string)
    requires Lower(Trim(e1)) == Lower(Trim(e2))
    ensures RateLimitKey(forwardedFor, e1) == RateLimitKey(forwardedFor, e2)
  {
  }

  /** The inputs of one `POST`: the environment, the clock and the randomness it reads. */
  datatype Env = Env(sha256: string -> string, salt: Option<string>, forwardedFor: Option<string>, now: int, random: seq<nat>)

  predicate ValidEnv(env: Env) {
    |env.random| == 32 && Csrf.IsBytes(env.random)
  }

  /**
   * `hashPassword(password)`, as written: without `PASSWORD_SALT` the password
   * is salted with "undefined", and the default salt only stands in when the
   * password and the configured salt are both empty.
   */
  function HashPassword(env: Env, password: string): (r: string)
    ensures env.salt.None? ==> r == env.sha256(password + "undefined")
    ensures env.salt.Some? && password + env.salt.value != "" ==> r == env.sha256(password + env.salt.value)
    ensures env.salt == Some("") && password == "" ==> r == env.sha256(DefaultSalt)
  {
    env.sha256(HashInputAsWritten(password, env.salt))
  }

  /** The stored hash the password is compared with: the user's, or a dummy one when there is none. */
  function StoredHash(users: map<string, User>, env: Env, sanitized: string): string {
    if sanitized in users && users[sanitized].passwordHash != "" then users[sanitized].passwordHash
    else HashPassword(env, "dummy-password-for-timing")
  }

  /**
   * The normalised address belongs to a user, and the hash the password is
   * compared with (the dummy one when the user's is empty) is the hash of the password.
   */
  predicate Credentials(users: map<string, User>, env: Env, email: string, password: string) {
    var sanitized := Lower(Trim(email));
    sanitized in users && StoredHash(users, env, sanitized) == HashPassword(env, password)
  }

  /** The checks after the limiter has let the attempt through. */
  function Authenticate(users: map<string, User>, env: Env, email: string, password: string): (r: LoginResponse)
    requires ValidEnv(env)
    ensures r.InvalidCredentials? || r.InternalError? || r.LoggedIn?
  {
    var sanitized := Lower(Trim(email));
    match SecureCompare(StoredHash(users, env, sanitized), HashPassword(env, password))
    case Err(_) => InternalError
    case Ok(valid) =>
      if sanitized !in users || !valid then InvalidCredentials
      else
        var u := users[sanitized];
        LoggedIn(u.id, u.email, u.name, u.createdAt, Csrf.GenerateCsrfToken(env.random))
  }

  /**
   * The password check lets a user in exactly when the credentials match,
   * with a 64-digit lower-case hex session token.
   */
  lemma AuthenticateSpec(users: map<string, User>, env: Env, email: string, password: string)
    requires ValidEnv(env)
    ensures Authenticate(users, env, email, password).LoggedIn? <==> Credentials(users, env, email, password)
    ensures var r := Authenticate(users, env, email, password);
      r.LoggedIn? ==> (r.email == users[Lower(Trim(email))].email && |r.sessionToken| == 64
        && forall i :: 0 <= i < |r.sessionToken| ==> IsLowerHex(r.sessionToken[i]))
  {
    var sanitized := Lower(Trim(email));
    SecureCompareSpec(StoredHash(users, env, sanitized), HashPassword(env, password));
  }

  /** The body of a request, destructured and checked. */
  datatype Fields = Malformed | Missing(field: string) | Given(email: string, password: string)

  /**
   * A `null` or unparsable body throws on destructuring; then the e-mail,
   * then the password must be non-empty strings.
   */
  function ParseBody(body: Option<Js>): (r: Fields)
    ensures r.Malformed? <==> body.None? || body.value == JNull
    ensures r.Given? <==> && body.Some? && body.value != JNull
                          && Prop(body.value, "email").JStr? && Prop(body.value, "email").s != ""
                          && Prop(body.value, "password").JStr? && Prop(body.value, "password").s != ""
    ensures r.Given? ==> r.email == Prop(body.value, "email").s && r.password == Prop(body.value, "password").s
    ensures r.Missing? ==> r.field == (if Prop(body.value, "email").JStr? && Prop(body.value, "email").s != "" then "password" else "email")
  {
    if body.None? || body.value == JNull then Malformed
    else
      var email := Prop(body.value, "email");
      var password := Prop(body.value, "password");
      if !Truthy(email) || !email.JStr? then Missing("email")
      else if !Truthy(password) || !password.JStr? then Missing("password")
      else Given(email.s, password.s)
  }

  /** One attempt with well-formed fields: the limiter, then the password; success deletes the record. */
  function Attempt(attempts: map<string, Attempts>, users: map<string, User>, env: Env, email: string, password: string)
    : (r: (map<string, Attempts>, LoginResponse))
    requires ValidEnv(env)
    ensures r.1.TooManyAttempts? || r.1.InvalidCredentials? || r.1.InternalError? || r.1.LoggedIn?
    ensures var key := RateLimitKey(env.forwardedFor, email);
      r.0 == if r.1.LoggedIn? then LoginStep(attempts, key, env.now).0 - {key} else LoginStep(attempts, key, env.now).0
  {
    var key := RateLimitKey(env.forwardedFor, email);
    var (next, d) := LoginStep(attempts, key, env.now);
    if d.Refused? then (next, TooManyAttempts(d.retryAfter))
    else
      var r := Authenticate(users, env, email, password);
      if r.LoggedIn? then (next - {key}, r) else (next, r)
  }

  /** `POST` as a function of the limiter table. */
  function LoginSpec(attempts: map<string, Attempts>, users: map<string, User>, env: Env, body: Option<Js>)
    : (map<string, Attempts>, LoginResponse)
    requires ValidEnv(env)
  {
    match ParseBody(body)
    case Malformed => (attempts, InternalError)
    case Missing(f) => (attempts, MissingField(f))
    case Given(email, password) => Attempt(attempts, users, env, email, password)
  }

  /** `POST /api/auth/login`. */
  method Post(limiter: LoginLimiter, users: map<string, User>, env: Env, body: Option<Js>) returns (r: LoginResponse)
    requires limiter.Valid() && ValidEnv(env)
    modifies limiter
    ensures limiter.Valid()
    ensures (limiter.loginAttempts, r) == LoginSpec(old(limiter.loginAttempts), users, env, body)
  {
    if body.None? || body.value == JNull {
      return InternalError;
    }
    var email := Prop(body.value, "email");
    var password := Prop(body.value, "password");
    if !Truthy(email) || !email.JStr? {
      return MissingField("email");
    }
    if !Truthy(password) || !password.JStr? {
      return MissingField("password");
    }
    var key := RateLimitKey(env.forwardedFor, email.s);
    var d := limiter.CheckRateLimit(key, env.now);
    if d.Refused? {
      return TooManyAttempts(d.retryAfter);
    }
    r := Authenticate(users, env, email.s, password.s);
    if r.LoggedIn? {
      limiter.ResetRateLimit(key);
    }
  }

  // What the route promises

  /**
   * A login succeeds exactly when both fields are non-empty strings, the
   * limiter lets the attempt through and the credentials match.
   */
  lemma LoginSucceedsIff(attempts: map<string, Attempts>, users: map<string, User>, env: Env, body: Option<Js>)
    requires ValidEnv(env)
    ensures LoginSpec(attempts, users, env, body).1.LoggedIn? <==>
      var f := ParseBody(body);
      f.Given? && LoginStep(attempts, RateLimitKey(env.forwardedFor, f.email), env.now).1.Allowed?
        && Credentials(users, env, f.email, f.password)
  {
    var f := ParseBody(body);
    if f.Given? {
      AuthenticateSpec(users, env, f.email, f.password);
    }
  }

  /** A successful login forgets the attempts under its key; every other record is kept. */
  lemma SuccessResetsKey(attempts: map<string, Attempts>, users: map<string, User>, env: Env, body: Option<Js>)
    requires ValidEnv(env)
    requires LoginSpec(attempts, users, env, body).1.LoggedIn?
    ensures var key := RateLimitKey(env.forwardedFor, ParseBody(body).email);
      var next := LoginSpec(attempts, users, env, body).0;
      key !in next && forall k :: k != key ==> (k in next <==> k in attempts) && (k in attempts ==> next[k] == attempts[k])
  {
    var f := ParseBody(body);
    assert f.Given?;
    var key := RateLimitKey(env.forwardedFor, f.email);
    assert LoginSpec(attempts, users, env, body).0 == LoginStep(attempts, key, env.now).0 - {key};
  }

  /** A wrong password counts against the key, exactly like any other allowed attempt. */
  lemma FailureIsCounted(attempts: map<string, Attempts>, users: map<string, User>, env: Env, body: Option<Js>)
    requires ValidEnv(env)
    requires LoginSpec(attempts, users, env, body).1 == InvalidCredentials
    ensures var key := RateLimitKey(env.forwardedFor, ParseBody(body).email);
      LoginSpec(attempts, users, env, body).0 == LoginStep(attempts, key, env.now).0
  {
  }

  /** A malformed request is answered before the limiter and leaves its table unchanged. */
  lemma ValidationBeforeLimiter(attempts: map<string, Attempts>, users: map<string, User>, env: Env, body: Option<Js>)
    requires ValidEnv(env)
    requires LoginSpec(attempts, users, env, body).1.MissingField?
    ensures LoginSpec(attempts, users, env, body).0 == attempts
    ensures Status(LoginSpec(attempts, users, env, body).1) == 400
  {
  }
}
