/**
 * The registration route: the per-IP registration limiter (three per hour,
 * in a window anchored where it was last reset), the password and name
 * rules, e-mail normalisation, the duplicate check and the order in which
 * `POST` applies them. The user table and the limiter table are the fields
 * of `Registry`; SHA-256, the salt, the clock, the new id and the random
 * session bytes are inputs (`LoginRoute.Env`).
 */
module RegisterRoute {
  import opened Common
  import Validation
  import LoginRoute
  import LawsRoute
  import Csrf

  const MaxRegistrationsPerIp: int := 3
  const RegistrationWindow: int := 60 * 60 * 1000

  // ---------------------------------------------------------------------------
  // checkRegistrationLimit

  type Attempts = LoginRoute.Attempts

  /**
   * One registration attempt from `ip` at `now`: an absent or stale record
   * restarts the window at `now`; a full one refuses; otherwise the count
   * goes up and the window keeps its start.
   */
  function RegistrationStep(attempts: map<string, Attempts>, ip: string, now: int): (r: (map<string, Attempts>, bool))
    ensures forall k :: k != ip ==> (k in r.0 <==> k in attempts) && (k in attempts ==> r.0[k] == attempts[k])
    ensures r.1 <==> ip !in attempts || now - attempts[ip].lastAttempt > RegistrationWindow
                     || attempts[ip].count < MaxRegistrationsPerIp
    ensures !r.1 ==> r.0 == attempts
    ensures r.1 ==> ip in r.0
    ensures r.1 && ip in attempts && now - attempts[ip].lastAttempt <= RegistrationWindow ==>
      r.0[ip] == attempts[ip].(count := attempts[ip].count + 1)
    ensures r.1 && (ip !in attempts || now - attempts[ip].lastAttempt > RegistrationWindow) ==>
      r.0[ip] == LoginRoute.Attempts(1, now)
  {
    if ip !in attempts || now - attempts[ip].lastAttempt > RegistrationWindow then
      (attempts[ip := LoginRoute.Attempts(1, now)], true)
    else if attempts[ip].count >= MaxRegistrationsPerIp then (attempts, false)
    else (attempts[ip := attempts[ip].(count := attempts[ip].count + 1)], true)
  }

  /** How many of the attempts from `ip` at `times` are allowed, in order. */
  function AllowedRegistrations(attempts: map<string, Attempts>, ip: string, times: seq<int>): nat
    decreases |times|
  {
    if times == [] then 0
    else
      var (next, ok) := RegistrationStep(attempts, ip, times[0]);
      (if ok then 1 else 0) + AllowedRegistrations(next, ip, times[1..])
  }

  /** Inside a window no more registrations get through than its count leaves room for. */
  lemma {:induction false} WithinWindow(attempts: map<string, Attempts>, ip: string, times: seq<int>)
    requires ip in attempts && 0 <= attempts[ip].count <= MaxRegistrationsPerIp
    requires forall i :: 0 <= i < |times| ==> times[i] - attempts[ip].lastAttempt <= RegistrationWindow
    ensures AllowedRegistrations(attempts, ip, times) <= MaxRegistrationsPerIp - attempts[ip].count
    decreases |times|
  {
    if times != [] {
      var (next, ok) := RegistrationStep(attempts, ip, times[0]);
      WithinWindow(next, ip, times[1..]);
    }
  }

  /**
   * A window opened at `t0` admits at most three registrations in the
   * following hour, however many arrive: allowed attempts do not move its start.
   */
  lemma AtMostThreePerHour(attempts: map<string, Attempts>, ip: string, t0: int, times: seq<int>)
    requires ip !in attempts || t0 - attempts[ip].lastAttempt > RegistrationWindow
    requires forall i :: 0 <= i < |times| ==> times[i] - t0 <= RegistrationWindow
    ensures AllowedRegistrations(attempts, ip, [t0] + times) <= MaxRegistrationsPerIp
  {
    var (next, ok) := RegistrationStep(attempts, ip, t0);
    assert ([t0] + times)[1..] == times;
    WithinWindow(next, ip, times);
  }

  // ---------------------------------------------------------------------------
  // isValidEmail, isValidPassword, isValidName

  /** `isValidEmail`: the address pattern and at most 254 characters. */
  predicate IsValidEmail(email: string) {
    Validation.EmailPattern(email) && |email| <= 254
  }

  const PasswordTooShort: string := "パスワードは12文字以上必要です"
  const PasswordTooLong: string := "パスワードが長すぎます"
  const PasswordTooSimple: string := "大文字、小文字、数字、記号のうち3種類以上を含めてください"
  const PasswordCommon: string := "よく使われるパスワードは避けてください"

  const RegisterCommonPasswords: seq<string> := ["password", "password123", "12345678", "qwerty123"]

  /** How many of the four character classes occur in the password. */
  function Complexity(p: string): (r: nat)
    ensures r <= 4
  {
    Validation.B(Validation.HasUpper(p)) + Validation.B(Validation.HasLower(p))
    + Validation.B(Validation.HasDigit(p)) + Validation.B(Validation.HasSymbol(p))
  }

  /** `isValidPassword`: the error of the first failed rule, or `None`. */
  function IsValidPassword(p: string): Option<string> {
    if |p| < 12 then Some(PasswordTooShort)
    else if |p| > 128 then Some(PasswordTooLong)
    else if Complexity(p) < 3 then Some(PasswordTooSimple)
    else if Lower(p) in RegisterCommonPasswords then Some(PasswordCommon)
    else None
  }

  /**
   * The rules apply in order: at least 12 characters, at most 128, three of
   * the four character classes, not a common password.
   */
  lemma IsValidPasswordSpec(p: string)
    ensures IsValidPassword(p).None? <==> 12 <= |p| <= 128 && Complexity(p) >= 3 && Lower(p) !in RegisterCommonPasswords
    ensures IsValidPassword(p) == Some(PasswordTooShort) <==> |p| < 12
    ensures IsValidPassword(p) == Some(PasswordTooLong) <==> |p| > 128
    ensures IsValidPassword(p) == Some(PasswordTooSimple) <==> 12 <= |p| <= 128 && Complexity(p) < 3
  {
  }

  /**
   * Every listed common password is shorter than 12 characters, so the
   * length rule rejects it first and the common-password error is never given.
   */
  lemma CommonPasswordRuleUnreachable(p: string)
    ensures IsValidPassword(p) != Some(PasswordCommon)
    ensures IsValidPassword(p).None? <==> 12 <= |p| <= 128 && Complexity(p) >= 3
  {
    if Lower(p) in RegisterCommonPasswords {
      assert |Lower(p)| < 12;
    }
  }

  /** `isValidName`: the same three rules as the form validator, in the same order. */
  function IsValidName(name: string): Option<string> {
    var trimmed := Trim(name);
    if trimmed == "" then Some(Validation.NameRequired)
    else if |trimmed| > 100 then Some(Validation.NameTooLong)
    else if !Validation.NameChars(trimmed) then Some(Validation.NameBadChar)
    else None
  }

  /** The name rules are those of the form validator: the same error, or none, for every name. */
  lemma IsValidNameSpec(name: string)
    ensures IsValidName(name) == Validation.ValidateName(name).error
    ensures IsValidName(name).None? <==> !IsBlank(name) && |Trim(name)| <= 100 && Validation.NameChars(Trim(name))
  {
    TrimEmptyIffBlank(name);
  }

  /**
   * The three field rules as values. `POST` applies them in a fixed order,
   * and most of what it promises holds whatever the rules accept; the
   * route's own rules are `RouteRules()`.
   */
  datatype Rules = Rules(email: string -> bool, name: string -> Option<string>, password: string -> Option<string>)

  function RouteRules(): (r: Rules)
    ensures forall e :: r.email(e) == IsValidEmail(e)
    ensures forall n :: r.name(n) == IsValidName(n)
    ensures forall p :: r.password(p) == IsValidPassword(p)
  {
    Rules(IsValidEmail, IsValidName, IsValidPassword)
  }

  // ---------------------------------------------------------------------------
  // POST

  type User = LoginRoute.User

  datatype RegisterResponse =
    | LimitReached
    | Invalid(field: string, error: string)
    | AlreadyRegistered
    | InternalError
    | Registered(id: string, email: string, name: string, createdAt: string, sessionToken: string)

  function Status(r: RegisterResponse): int {
    match r
    case LimitReached => 429
    case Invalid(_, _) => 400
    case AlreadyRegistered => 409
    case InternalError => 500
    case Registered(_, _, _, _, _) => 200
  }

  const EmailRequired: string := "メールアドレスを入力してください"
  const EmailInvalid: string := "有効なメールアドレスを入力してください"
  const PasswordRequired: string := "パスワードを入力してください"

  /** `x && typeof x === 'string'`. */
  predicate GivenString(v: Js) {
    v.JStr? && v.s != ""
  }

  /** The outcome of the field checks: the first error, or the normalised fields. */
  datatype Checked = Rejected(response: RegisterResponse) | Accepted(email: string, name: string, password: string)

  /**
   * The field checks of `POST`, in order: the e-mail is given, valid once
   * trimmed and lower-cased, and not yet registered; then the name; then
   * the password.
   */
  function CheckFields(rules: Rules, users: map<string, User>, body: Js): (c: Checked)
    ensures c.Rejected? ==> c.response.Invalid? || c.response.AlreadyRegistered?
    ensures c.Accepted? ==> c.email !in users
  {
    var email := Prop(body, "email");
    var name := Prop(body, "name");
    var password := Prop(body, "password");
    if !GivenString(email) then Rejected(Invalid("email", EmailRequired))
    else
      var sanitized := Lower(Trim(email.s));
      if !rules.email(sanitized) then Rejected(Invalid("email", EmailInvalid))
      else if sanitized in users then Rejected(AlreadyRegistered)
      else if !GivenString(name) then Rejected(Invalid("name", Validation.NameRequired))
      else if rules.name(name.s).Some? then Rejected(Invalid("name", rules.name(name.s).value))
      else if !GivenString(password) then Rejected(Invalid("password", PasswordRequired))
      else if rules.password(password.s).Some? then Rejected(Invalid("password", rules.password(password.s).value))
      else Accepted(sanitized, Trim(name.s), password.s)
  }

  /** Accepted fields are exactly the normalised ones that pass every rule. */
  lemma CheckFieldsAccepted(rules: Rules, users: map<string, User>, body: Js)
    ensures var c := CheckFields(rules, users, body);
      c.Accepted? <==>
        && GivenString(Prop(body, "email")) && rules.email(Lower(Trim(Prop(body, "email").s)))
        && Lower(Trim(Prop(body, "email").s)) !in users
        && GivenString(Prop(body, "name")) && rules.name(Prop(body, "name").s).None?
        && GivenString(Prop(body, "password")) && rules.password(Prop(body, "password").s).None?
    ensures var c := CheckFields(rules, users, body);
      c.Accepted? ==> c == Accepted(Lower(Trim(Prop(body, "email").s)), Trim(Prop(body, "name").s), Prop(body, "password").s)
  {
  }

  /** What a request does once the limiter has let it through: the table of users after it, and the answer. */
  function Validate(rules: Rules, users: map<string, User>, env: LoginRoute.Env, userId: string, createdAt: string, body: Js)
    : (r: (map<string, User>, RegisterResponse))
    requires LoginRoute.ValidEnv(env)
    ensures !r.1.Registered? ==> r.0 == users
    ensures r.1.Invalid? || r.1.AlreadyRegistered? || r.1.Registered?
  {
    match CheckFields(rules, users, body)
    case Rejected(response) => (users, response)
    case Accepted(email, name, password) =>
      (users[email := LoginRoute.User(userId, email, name, LoginRoute.HashPassword(env, password), createdAt)],
       Registered(userId, email, name, createdAt, Csrf.GenerateCsrfToken(env.random)))
  }

  /** Every user is filed under its own address. */
  ghost predicate Filed(users: map<string, User>) {
    forall k :: k in users ==> users[k].email == k
  }

  /** A request never changes or removes a registered user, and keeps every user filed under its own address. */
  lemma ValidateKeepsUsers(rules: Rules, users: map<string, User>, env: LoginRoute.Env, userId: string, createdAt: string, body: Js)
    requires LoginRoute.ValidEnv(env)
    ensures var users' := Validate(rules, users, env, userId, createdAt, body).0;
      forall k :: k in users ==> k in users' && users'[k] == users[k]
    ensures Filed(users) ==> Filed(Validate(rules, users, env, userId, createdAt, body).0)
  {
    match CheckFields(rules, users, body)
    case Rejected(_) =>
    case Accepted(email, _, _) =>
  }

  /**
   * `POST` as a function of both tables: an unparsable or `null` body throws
   * before anything is counted; any other request is counted by the limiter
   * before a single field is looked at.
   */
  function RegisterSpec(rules: Rules, attempts: map<string, Attempts>, users: map<string, User>, env: LoginRoute.Env,
                        userId: string, createdAt: string, body: Option<Js>)
    : (map<string, Attempts>, map<string, User>, RegisterResponse)
    requires LoginRoute.ValidEnv(env)
  {
    if body.None? || body.value == JNull then (attempts, users, InternalError)
    else
      var (next, ok) := RegistrationStep(attempts, LawsRoute.ClientIp(env.forwardedFor), env.now);
      if !ok then (next, users, LimitReached)
      else
        var (users', r) := Validate(rules, users, env, userId, createdAt, body.value);
        (next, users', r)
  }

  /** The module-level tables of the route. */
  class Registry {
    /** The field rules the route applies. */
    const rules: Rules
    var registrationAttempts: map<string, Attempts>
    var registeredUsers: map<string, User>

    /** Counts stay between one and three, and every user is filed under its own address. */
    ghost predicate Valid()
      reads this
    {
      && (forall k :: k in registrationAttempts ==> 1 <= registrationAttempts[k].count <= MaxRegistrationsPerIp)
      && Filed(registeredUsers)
    }

    /** The demo user, with the hash of its password under the given environment. */
    constructor(env: LoginRoute.Env, createdAt: string)
      ensures Valid() && rules == RouteRules()
      ensures registrationAttempts == map[]
      ensures registeredUsers == map["demo@example.com" := LoginRoute.User("demo-user-001", "demo@example.com",
        "デモユーザー", LoginRoute.HashPassword(env, "DemoPass123!"), createdAt)]
    {
      rules := RouteRules();
      registrationAttempts := map[];
      registeredUsers := map["demo@example.com" := LoginRoute.User("demo-user-001", "demo@example.com",
        "デモユーザー", LoginRoute.HashPassword(env, "DemoPass123!"), createdAt)];
    }

    /** `checkRegistrationLimit(ip)` at time `now`. */
    method CheckRegistrationLimit(ip: string, now: int) returns (allowed: bool)
      requires Valid()
      modifies this
      ensures Valid() && registeredUsers == old(registeredUsers)
      ensures (registrationAttempts, allowed) == RegistrationStep(old(registrationAttempts), ip, now)
    {
      if ip !in registrationAttempts || now - registrationAttempts[ip].lastAttempt > RegistrationWindow {
        registrationAttempts := registrationAttempts[ip := LoginRoute.Attempts(1, now)];
        return true;
      }
      var attempts := registrationAttempts[ip];
      if attempts.count >= MaxRegistrationsPerIp {
        return false;
      }
      registrationAttempts := registrationAttempts[ip := attempts.(count := attempts.count + 1)];
      allowed := true;
    }

    /** `POST /api/auth/register`. */
    method Post(env: LoginRoute.Env, userId: string, createdAt: string, body: Option<Js>) returns (r: RegisterResponse)
      requires Valid() && LoginRoute.ValidEnv(env)
      modifies this
      ensures Valid()
      ensures (registrationAttempts, registeredUsers, r)
        == RegisterSpec(rules, old(registrationAttempts), old(registeredUsers), env, userId, createdAt, body)
    {
      if body.None? || body.value == JNull {
        return InternalError;
      }
      var allowed := CheckRegistrationLimit(LawsRoute.ClientIp(env.forwardedFor), env.now);
      if !allowed {
        return LimitReached;
      }
      ValidateKeepsUsers(rules, registeredUsers, env, userId, createdAt, body.value);
      var result := Validate(rules, registeredUsers, env, userId, createdAt, body.value);
      registeredUsers, r := result.0, result.1;
    }
  }

  // What the route promises

  /**
   * A registration files exactly one new user, under an address that was not
   * registered, that is normalised and valid; the name is stored trimmed and
   * valid, the password is valid and only its hash is kept.
   */
  lemma RegistrationAddsOneUser(users: map<string, User>, env: LoginRoute.Env, userId: string, createdAt: string, body: Js)
    requires LoginRoute.ValidEnv(env)
    requires Validate(RouteRules(), users, env, userId, createdAt, body).1.Registered?
    ensures var (users', r) := Validate(RouteRules(), users, env, userId, createdAt, body);
      && r.email == Lower(Trim(Prop(body, "email").s)) && r.email !in users && IsValidEmail(r.email)
      && users' == users[r.email := LoginRoute.User(userId, r.email, r.name, LoginRoute.HashPassword(env, Prop(body, "password").s), createdAt)]
      && r.name == Trim(Prop(body, "name").s) && Validation.ValidateName(Prop(body, "name").s).isValid
      && IsValidPassword(Prop(body, "password").s).None?
  {
    CheckFieldsAccepted(RouteRules(), users, body);
    IsValidNameSpec(Prop(body, "name").s);
  }

  /** An address that is already registered, in any letter case or padding, gets 409 and changes no user. */
  lemma DuplicateIsConflict(users: map<string, User>, env: LoginRoute.Env, userId: string, createdAt: string, body: Js)
    requires LoginRoute.ValidEnv(env)
    requires GivenString(Prop(body, "email"))
    requires var e := Lower(Trim(Prop(body, "email").s)); IsValidEmail(e) && e in users
    ensures Validate(RouteRules(), users, env, userId, createdAt, body) == (users, AlreadyRegistered)
  {
  }

  /**
   * Every request with a parsed body is counted by the limiter, whatever its
   * fields hold, and registered users are never changed or removed.
   */
  lemma LimiterCountsEveryRequest(rules: Rules, attempts: map<string, Attempts>, users: map<string, User>, env: LoginRoute.Env,
                                  userId: string, createdAt: string, body: Option<Js>)
    requires LoginRoute.ValidEnv(env)
    requires body.Some? && body.value != JNull
    ensures var (attempts', users', r) := RegisterSpec(rules, attempts, users, env, userId, createdAt, body);
      && attempts' == RegistrationStep(attempts, LawsRoute.ClientIp(env.forwardedFor), env.now).0
      && (r == LimitReached <==> !RegistrationStep(attempts, LawsRoute.ClientIp(env.forwardedFor), env.now).1)
      && (forall k :: k in users ==> k in users' && users'[k] == users[k])
  {
    ValidateKeepsUsers(rules, users, env, userId, createdAt, body.value);
  }
}
