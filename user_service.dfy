/**
 * The user service: the stored-hash format `pbkdf2-sha512$iterations$salt$key`
 * and its check, the account lockout after five wrong passwords, account
 * creation and the updates by id. The user table is a class whose fields the
 * operations update; PBKDF2, Base64 and the random salt are inputs (`Crypto`).
 */
module UserService {
  import opened Common
  import JsNumber
  import LoginRoute

  datatype Role = UserRole | FamilyMember | Support | Admin | SuperAdmin

  const MaxLoginAttempts: int := 5
  const LockoutDurationMs: int := 15 * 60 * 1000

  const Algorithm: string := "pbkdf2-sha512"
  const Iterations: nat := 600000
  const KeyLen: nat := 64
  /** `${iterations}` */
  const IterationsText: string := "600000"

  /** A stored account. Times are milliseconds since the epoch. */
  datatype User = User(
    id: string, email: string, name: string, passwordHash: string, role: Role,
    mfaEnabled: bool, mfaSecret: Option<string>, createdAt: int, updatedAt: int,
    lastLoginAt: Option<int>, loginAttempts: int, lockedUntil: Option<int>)

  /** An account as handed out: without its password hash and MFA secret. */
  datatype SafeUser = SafeUser(
    id: string, email: string, name: string, role: Role, mfaEnabled: bool,
    createdAt: int, updatedAt: int, lastLoginAt: Option<int>, loginAttempts: int, lockedUntil: Option<int>)

  function Safe(u: User): SafeUser {
    SafeUser(u.id, u.email, u.name, u.role, u.mfaEnabled, u.createdAt, u.updatedAt,
             u.lastLoginAt, u.loginAttempts, u.lockedUntil)
  }

  /** What is handed out does not depend on the password hash or the MFA secret. */
  lemma SafeHidesSecrets(u: User, hash: string, secret: Option<string>)
    ensures Safe(u.(passwordHash := hash, mfaSecret := secret)) == Safe(u)
    ensures Safe(u).id == u.id && Safe(u).email == u.email && Safe(u).loginAttempts == u.loginAttempts
  {
  }

  // ---------------------------------------------------------------------------
  // hashPassword and verifyPassword

  /**
   * The primitives the service calls: PBKDF2-SHA512 (`None` when it reports an
   * error) and Base64 in both directions.
   */
  datatype Crypto = Crypto(
    pbkdf2: (string, seq<nat>, int, nat) -> Option<seq<nat>>,
    toBase64: seq<nat> -> string,
    fromBase64: string -> seq<nat>)

  predicate Base64Char(c: char) {
    ('A' <= c <= 'Z') || ('a' <= c <= 'z') || ('0' <= c <= '9') || c == '+' || c == '/' || c == '='
  }

  /** Base64 as the platform does it: its text uses the Base64 alphabet and decodes back to the bytes. */
  ghost predicate Base64RoundTrips(c: Crypto) {
    && (forall b, i :: 0 <= i < |c.toBase64(b)| ==> Base64Char(c.toBase64(b)[i]))
    && (forall b :: c.fromBase64(c.toBase64(b)) == b)
  }

  /** PBKDF2 returns a key of the requested length. */
  ghost predicate KeyLengthKept(c: Crypto) {
    forall p, s, n, k :: c.pbkdf2(p, s, n, k).Some? ==> |c.pbkdf2(p, s, n, k).value| == k
  }

  /** `algorithm$iterations$salt$hash`. */
  function FormatHash(iterations: string, salt: string, key: string): string {
    Algorithm + "$" + iterations + "$" + salt + "$" + key
  }

  /** `hashPassword`: 64 bytes of PBKDF2-SHA512 over 600000 iterations with the given salt, in the stored format. */
  function HashPassword(c: Crypto, password: string, salt: seq<nat>): (r: Result<string>)
    ensures r.Ok? <==> c.pbkdf2(password, salt, Iterations, KeyLen).Some?
  {
    match c.pbkdf2(password, salt, Iterations, KeyLen)
    case None => Err("pbkdf2")
    case Some(key) => Ok(FormatHash(IterationsText, c.toBase64(salt), c.toBase64(key)))
  }

  const IterationsNaN: string := "The \"iterations\" argument must be of type number. Received type number (NaN)"
  const KeyLengthMismatch: string := "Input buffers must have the same byte length"

  /** The three fields after the algorithm in a stored hash. */
  datatype HashFields = HashFields(iterations: string, salt: string, key: string)

  /** A stored hash that splits on `$` into four parts headed by the algorithm, as its last three parts. */
  function ParseHash(storedHash: string): Option<HashFields> {
    var parts := Split(storedHash, '$');
    if |parts| != 4 || parts[0] != Algorithm then None
    else Some(HashFields(parts[1], parts[2], parts[3]))
  }

  /** The fields are found exactly when the hash splits into four parts headed by the algorithm, and are those parts. */
  lemma ParseHashSpec(storedHash: string)
    ensures var r := ParseHash(storedHash);
      && (r.Some? <==> |Split(storedHash, '$')| == 4 && Split(storedHash, '$')[0] == Algorithm)
      && (r.Some? ==> Split(storedHash, '$') == [Algorithm, r.value.iterations, r.value.salt, r.value.key])
  {
  }

  /**
   * The check of the fields: an iteration count that is not a number makes
   * PBKDF2 throw; a derivation error answers false; keys of different
   * lengths make the comparison throw; otherwise the keys are compared.
   */
  function VerifyFields(c: Crypto, password: string, f: HashFields): (r: Result<bool>)
    ensures r.Err? <==> (
      || JsNumber.ParseInt(f.iterations).NaN?
      || (var storedKey := c.fromBase64(f.key);
          var d := c.pbkdf2(password, c.fromBase64(f.salt), JsNumber.ParseInt(f.iterations).i, |storedKey|);
          d.Some? && |d.value| != |storedKey|))
  {
    match JsNumber.ParseInt(f.iterations)
    case NaN => Err(IterationsNaN)
    case Int(iterations) =>
      var salt := c.fromBase64(f.salt);
      var storedKey := c.fromBase64(f.key);
      match c.pbkdf2(password, salt, iterations, |storedKey|)
      case None => Ok(false)
      case Some(derived) => if |derived| != |storedKey| then Err(KeyLengthMismatch) else Ok(derived == storedKey)
  }

  /**
   * `verifyPassword`: a hash that does not split on `$` into four parts
   * headed by the algorithm is refused; otherwise the key is derived again
   * from its salt and count and compared with its key.
   */
  function VerifyPassword(c: Crypto, password: string, storedHash: string): (r: Result<bool>)
    ensures ParseHash(storedHash).None? ==> r == Ok(false)
    ensures r.Err? ==> ParseHash(storedHash).Some?
  {
    match ParseHash(storedHash)
    case None => Ok(false)
    case Some(f) => VerifyFields(c, password, f)
  }

  /** A hash in the stored format gives its own fields back. */
  lemma FormattedFields(iterations: string, salt: string, key: string)
    requires '$' !in iterations && '$' !in salt && '$' !in key
    ensures ParseHash(FormatHash(iterations, salt, key)) == Some(HashFields(iterations, salt, key))
  {
    FieldsHaveNoDollar();
    SplitFour(Algorithm, iterations, salt, key, '$');
  }

  /** A Base64 text never holds the separator `$`. */
  lemma Base64HasNoDollar(c: Crypto, b: seq<nat>)
    requires Base64RoundTrips(c)
    ensures '$' !in c.toBase64(b)
  {
    var t := c.toBase64(b);
    assert forall i :: 0 <= i < |t| ==> Base64Char(t[i]);
  }

  /** The fixed fields of the stored hashes hold no `$`. */
  lemma FieldsHaveNoDollar()
    ensures '$' !in Algorithm && '$' !in IterationsText && '$' !in "dummysalt" && '$' !in "dummyhash"
  {
  }

  /** The iteration count is written as the decimal numeral of 600000 and read back as 600000. */
  lemma IterationsRoundTrip()
    ensures IterationsText == IntToString(Iterations)
    ensures JsNumber.ParseInt(IterationsText) == JsNumber.Int(Iterations)
  {
    assert NatToString(6) == "6";
    assert NatToString(60) == "60";
    assert NatToString(600) == "600";
    assert NatToString(6000) == "6000";
    assert NatToString(60000) == "60000";
    JsNumber.ParseIntRoundTrip(Iterations);
  }

  /**
   * With a count that reads as a number and a PBKDF2 that keeps the key
   * length, the check never throws and accepts exactly when the derived key
   * is the stored one.
   */
  lemma VerifyCountedFields(c: Crypto, password: string, f: HashFields, n: int)
    requires KeyLengthKept(c) && JsNumber.ParseInt(f.iterations) == JsNumber.Int(n)
    ensures VerifyFields(c, password, f)
      == Ok(c.pbkdf2(password, c.fromBase64(f.salt), n, |c.fromBase64(f.key)|) == Some(c.fromBase64(f.key)))
  {
    var storedKey := c.fromBase64(f.key);
    var d := c.pbkdf2(password, c.fromBase64(f.salt), n, |storedKey|);
    if d.Some? {
      assert |d.value| == |storedKey|;
    }
  }

  /**
   * A hash made by `hashPassword` holds the Base64 salt and key, and
   * accepts exactly the passwords whose key, derived with the same salt and
   * count, is the stored one; in particular it accepts the password it was
   * made from.
   */
  lemma VerifyHashed(c: Crypto, password: string, attempt: string, salt: seq<nat>)
    requires Base64RoundTrips(c) && KeyLengthKept(c)
    requires HashPassword(c, password, salt).Ok?
    ensures var h := HashPassword(c, password, salt).value;
      ParseHash(h) == Some(HashFields(IterationsText, c.toBase64(salt), c.toBase64(c.pbkdf2(password, salt, Iterations, KeyLen).value)))
    ensures var h := HashPassword(c, password, salt).value;
      VerifyPassword(c, attempt, h) == Ok(c.pbkdf2(attempt, salt, Iterations, KeyLen) == c.pbkdf2(password, salt, Iterations, KeyLen))
    ensures VerifyPassword(c, password, HashPassword(c, password, salt).value) == Ok(true)
  {
    var key := c.pbkdf2(password, salt, Iterations, KeyLen).value;
    var f := HashFields(IterationsText, c.toBase64(salt), c.toBase64(key));
    Base64HasNoDollar(c, salt);
    Base64HasNoDollar(c, key);
    FieldsHaveNoDollar();
    FormattedFields(f.iterations, f.salt, f.key);
    IterationsRoundTrip();
    VerifyCountedFields(c, attempt, f, Iterations);
    VerifyCountedFields(c, password, f, Iterations);
    assert c.fromBase64(f.key) == key;
    assert c.fromBase64(f.salt) == salt;
  }

  /** The hash compared with when the address is unknown: `pbkdf2-sha512$600000$dummysalt$dummyhash`. */
  const DummyHash: string := FormatHash(IterationsText, "dummysalt", "dummyhash")

  /**
   * The dummy comparison answers without throwing whenever PBKDF2 keeps the
   * key length, so an unknown address is refused whatever that answer is.
   */
  lemma DummyVerifyAnswers(c: Crypto, password: string)
    requires KeyLengthKept(c)
    ensures VerifyPassword(c, password, DummyHash).Ok?
  {
    FieldsHaveNoDollar();
    FormattedFields(IterationsText, "dummysalt", "dummyhash");
    IterationsRoundTrip();
    VerifyCountedFields(c, password, HashFields(IterationsText, "dummysalt", "dummyhash"), Iterations);
  }

  // ---------------------------------------------------------------------------
  // authenticateUser

  /** `isAccountLocked`: a lock time is set and still ahead of `now`. */
  predicate IsAccountLocked(u: User, now: int) {
    u.lockedUntil.Some? && u.lockedUntil.value > now
  }

  /** The answer of `authenticateUser`: `null`, the lock error with its seconds, another thrown error, or the user. */
  datatype AuthResult = Rejected | Locked(retryAfter: int) | Threw | SignedIn(user: SafeUser)

  /**
   * One sign-in on the record under `key`, given what the password check
   * answers for it: a locked account throws and changes nothing (the check
   * is not consulted); an error of the check is passed on; a wrong password
   * counts and locks for fifteen minutes from the fifth failure on; a right
   * one clears the count and the lock.
   */
  function SignInAttempt(users: map<string, User>, key: string, check: Result<bool>, now: int)
    : (r: (map<string, User>, AuthResult))
    requires key in users
    ensures r.0.Keys == users.Keys
    ensures forall k :: k in users && k != key ==> r.0[k] == users[k]
  {
    var u := users[key];
    if IsAccountLocked(u, now) then (users, Locked(LoginRoute.CeilSeconds(u.lockedUntil.value - now)))
    else
      match check
      case Err(_) => (users, Threw)
      case Ok(valid) =>
        if !valid then
          var n := u.loginAttempts + 1;
          (users[key := u.(loginAttempts := n,
                           lockedUntil := if n >= MaxLoginAttempts then Some(now + LockoutDurationMs) else u.lockedUntil)],
           Rejected)
        else
          var v := u.(loginAttempts := 0, lockedUntil := None, lastLoginAt := Some(now), updatedAt := now);
          (users[key := v], SignedIn(Safe(v)))
  }

  /**
   * `authenticateUser` at `now` and the table after it: an unknown address
   * is refused after a dummy comparison; a known one is signed in against
   * the check of the password with its stored hash.
   */
  function Authenticate(users: map<string, User>, c: Crypto, email: string, password: string, now: int)
    : (r: (map<string, User>, AuthResult))
    ensures r.0.Keys == users.Keys
    ensures forall k :: k in users && k != Lower(Trim(email)) ==> r.0[k] == users[k]
  {
    var key := Lower(Trim(email));
    if key !in users then (users, Rejected)
    else SignInAttempt(users, key, VerifyPassword(c, password, users[key].passwordHash), now)
  }

  /** On a locked account the attempt answers with the seconds left whatever the check says. */
  lemma LockedAttempt(users: map<string, User>, key: string, check: Result<bool>, now: int)
    requires key in users && IsAccountLocked(users[key], now)
    ensures SignInAttempt(users, key, check, now) == (users, Locked(LoginRoute.CeilSeconds(users[key].lockedUntil.value - now)))
  {
  }

  /** A locked account throws with the seconds left, at least one, and its record is untouched. */
  lemma LockedAccountUnchanged(users: map<string, User>, c: Crypto, email: string, password: string, now: int)
    requires Lower(Trim(email)) in users && IsAccountLocked(users[Lower(Trim(email))], now)
    ensures var (users', r) := Authenticate(users, c, email, password, now);
      users' == users && r.Locked? && r.retryAfter >= 1
      && 1000 * (r.retryAfter - 1) < users[Lower(Trim(email))].lockedUntil.value - now <= 1000 * r.retryAfter
  {
  }

  /**
   * A wrong password on an unlocked account adds one failure; the account is
   * locked until fifteen minutes from now exactly when that makes five or more.
   */
  lemma WrongPasswordCounts(users: map<string, User>, c: Crypto, email: string, password: string, now: int)
    requires Lower(Trim(email)) in users && !IsAccountLocked(users[Lower(Trim(email))], now)
    requires VerifyPassword(c, password, users[Lower(Trim(email))].passwordHash) == Ok(false)
    ensures var key := Lower(Trim(email));
      var (users', r) := Authenticate(users, c, email, password, now);
      && r == Rejected
      && users'[key].loginAttempts == users[key].loginAttempts + 1
      && (users'[key].loginAttempts >= MaxLoginAttempts ==> users'[key].lockedUntil == Some(now + LockoutDurationMs))
      && (users'[key].loginAttempts < MaxLoginAttempts ==> users'[key].lockedUntil == users[key].lockedUntil)
      && users'[key].(loginAttempts := users[key].loginAttempts, lockedUntil := users[key].lockedUntil) == users[key]
  {
  }

  /**
   * The failure count is not cleared when a lock runs out, so once an account
   * has four failures every further wrong password locks it again at once.
   */
  lemma RelockAfterExpiry(users: map<string, User>, c: Crypto, email: string, password: string, now: int)
    requires Lower(Trim(email)) in users && !IsAccountLocked(users[Lower(Trim(email))], now)
    requires users[Lower(Trim(email))].loginAttempts >= MaxLoginAttempts - 1
    requires VerifyPassword(c, password, users[Lower(Trim(email))].passwordHash) == Ok(false)
    ensures IsAccountLocked(Authenticate(users, c, email, password, now).0[Lower(Trim(email))], now)
  {
  }

  /** A right password on an unlocked account signs in, clears the count and the lock, and hands out no secret. */
  lemma RightPasswordSignsIn(users: map<string, User>, c: Crypto, email: string, password: string, now: int)
    requires Lower(Trim(email)) in users && !IsAccountLocked(users[Lower(Trim(email))], now)
    requires VerifyPassword(c, password, users[Lower(Trim(email))].passwordHash) == Ok(true)
    ensures var key := Lower(Trim(email));
      var (users', r) := Authenticate(users, c, email, password, now);
      && r == SignedIn(Safe(users'[key]))
      && users'[key].loginAttempts == 0 && users'[key].lockedUntil == None && users'[key].lastLoginAt == Some(now)
      && users'[key].passwordHash == users[key].passwordHash && users'[key].mfaSecret == users[key].mfaSecret
  {
  }

  // ---------------------------------------------------------------------------
  // createUser, getUserByEmail, getUserById

  const EmailTaken: string := "このメールアドレスは既に登録されています"

  /** `createUser`: a new address gets an ordinary user without MFA; a registered one throws. */
  function CreateAccount(users: map<string, User>, c: Crypto, email: string, password: string, name: string,
                      salt: seq<nat>, id: string, now: int): (r: (map<string, User>, Result<SafeUser>))
    ensures Lower(Trim(email)) in users ==> r == (users, Err(EmailTaken))
    ensures r.1.Err? ==> r.0 == users
    ensures r.1.Ok? ==> (Lower(Trim(email)) in r.0 && r.0 == users[Lower(Trim(email)) := r.0[Lower(Trim(email))]]
      && r.1.value == Safe(r.0[Lower(Trim(email))]) && Lower(Trim(email)) !in users)
  {
    var key := Lower(Trim(email));
    if key in users then (users, Err(EmailTaken))
    else
      match HashPassword(c, password, salt)
      case Err(e) => (users, Err(e))
      case Ok(h) =>
        var u := User(id, key, name, h, UserRole, false, None, now, now, None, 0, None);
        (users[key := u], Ok(Safe(u)))
  }

  /** `getUserByEmail`: the record under the normalised address, secrets included. */
  function GetUserByEmail(users: map<string, User>, email: string): (r: Option<User>)
    ensures r.Some? <==> Lower(Trim(email)) in users
  {
    var key := Lower(Trim(email));
    if key in users then Some(users[key]) else None
  }

  /**
   * A created user can sign in with the password it was created with, under
   * any spelling of its address that normalises to the same one.
   */
  lemma CreatedUserSignsIn(users: map<string, User>, c: Crypto, email: string, login: string, password: string,
                           name: string, salt: seq<nat>, id: string, now: int, later: int)
    requires Base64RoundTrips(c) && KeyLengthKept(c)
    requires Lower(Trim(login)) == Lower(Trim(email))
    requires CreateAccount(users, c, email, password, name, salt, id, now).1.Ok?
    ensures var users' := CreateAccount(users, c, email, password, name, salt, id, now).0;
      Authenticate(users', c, login, password, later).1.SignedIn?
  {
    var key := Lower(Trim(email));
    var users' := CreateAccount(users, c, email, password, name, salt, id, now).0;
    var h := HashPassword(c, password, salt).value;
    assert users'[key] == User(id, key, name, h, UserRole, false, None, now, now, None, 0, None);
    VerifyHashed(c, password, password, salt);
    RightPasswordSignsIn(users', c, login, password, later);
  }

  /** The index of the first address in `order` whose user has the id, or -1. */
  function FirstById(order: seq<string>, users: map<string, User>, id: string): (r: int)
    ensures -1 <= r < |order|
    ensures r >= 0 ==> order[r] in users && users[order[r]].id == id
    ensures forall j :: 0 <= j < |order| && (r == -1 || j < r) ==> !(order[j] in users && users[order[j]].id == id)
  {
    if order == [] then -1
    else if order[0] in users && users[order[0]].id == id then 0
    else
      var r := FirstById(order[1..], users, id);
      if r == -1 then -1 else r + 1
  }

  /** An index holding the id with none before it is the first one. */
  lemma FirstByIdAt(order: seq<string>, users: map<string, User>, id: string, i: int)
    requires 0 <= i < |order| && order[i] in users && users[order[i]].id == id
    requires forall j :: 0 <= j < i ==> !(order[j] in users && users[order[j]].id == id)
    ensures FirstById(order, users, id) == i
  {
  }

  /** No index holding the id means there is no first one. */
  lemma FirstByIdNone(order: seq<string>, users: map<string, User>, id: string)
    requires forall j :: 0 <= j < |order| ==> !(order[j] in users && users[order[j]].id == id)
    ensures FirstById(order, users, id) == -1
  {
  }

  /** The records under every address, in insertion order, is where the id lookups search. */
  ghost predicate Ordered(order: seq<string>, users: map<string, User>) {
    NoDup(order) && forall k :: k in users <==> k in order
  }

  /**
   * Every record is filed under its own address, has a non-negative failure
   * count, and carries a lock time once it has five failures.
   */
  ghost predicate WellFormed(users: map<string, User>) {
    forall k :: k in users ==>
      && users[k].email == k && users[k].loginAttempts >= 0
      && (users[k].loginAttempts >= MaxLoginAttempts ==> users[k].lockedUntil.Some?)
  }

  /** Filing a well-formed record under its own address keeps the table well formed. */
  lemma PutKeepsWellFormed(users: map<string, User>, key: string, u: User)
    requires WellFormed(users)
    requires u.email == key && u.loginAttempts >= 0 && (u.loginAttempts >= MaxLoginAttempts ==> u.lockedUntil.Some?)
    ensures WellFormed(users[key := u])
  {
  }

  /** Replacing the record under an address already filed keeps the insertion order. */
  lemma PutKeepsOrdered(order: seq<string>, users: map<string, User>, key: string, u: User)
    requires Ordered(order, users) && key in users
    ensures Ordered(order, users[key := u])
  {
  }

  /** Filing a record under a new address at the end keeps the insertion order. */
  lemma AddKeepsOrdered(order: seq<string>, users: map<string, User>, key: string, u: User)
    requires Ordered(order, users) && key !in users
    ensures Ordered(order + [key], users[key := u])
  {
    var order' := order + [key];
    forall i, j | 0 <= i < j < |order'| ensures order'[i] != order'[j] {
      if j == |order| {
        assert order'[i] == order[i];
      }
    }
  }

  /** A sign-in attempt keeps the records well formed. */
  lemma SignInKeepsWellFormed(users: map<string, User>, key: string, check: Result<bool>, now: int)
    requires WellFormed(users) && key in users
    ensures WellFormed(SignInAttempt(users, key, check, now).0)
  {
    var u := users[key];
    if !IsAccountLocked(u, now) && check.Ok? {
      PutKeepsWellFormed(users, key, SignInAttempt(users, key, check, now).0[key]);
    }
  }

  /** Sign-ins keep the records well formed. */
  lemma AuthenticateKeepsWellFormed(users: map<string, User>, c: Crypto, email: string, password: string, now: int)
    requires WellFormed(users)
    ensures WellFormed(Authenticate(users, c, email, password, now).0)
  {
    var key := Lower(Trim(email));
    if key in users {
      SignInKeepsWellFormed(users, key, VerifyPassword(c, password, users[key].passwordHash), now);
    }
  }

  /** Account creation keeps the records well formed. */
  lemma CreateKeepsWellFormed(users: map<string, User>, c: Crypto, email: string, password: string, name: string,
                              salt: seq<nat>, id: string, now: int)
    requires WellFormed(users)
    ensures WellFormed(CreateAccount(users, c, email, password, name, salt, id, now).0)
  {
  }

  const DemoEmail: string := "demo@example.com"
  const DemoPassword: string := "DemoPass123!"

  /** The in-memory user table, with the insertion order of the JavaScript `Map`. */
  class UserStore {
    var order: seq<string>
    var users: map<string, User>

    ghost predicate Valid()
      reads this
    {
      Ordered(order, users) && WellFormed(users)
    }

    /**
     * `initializeDemoUser` on an empty table: the demo account is added once
     * its password is hashed; when hashing fails the table stays empty.
     */
    constructor(c: Crypto, salt: seq<nat>, now: int)
      ensures Valid()
      ensures HashPassword(c, DemoPassword, salt).Ok? ==>
        order == [DemoEmail] && users == map[DemoEmail := User("demo-user-001", DemoEmail, "デモユーザー",
          HashPassword(c, DemoPassword, salt).value, UserRole, false, None, now, now, None, 0, None)]
      ensures HashPassword(c, DemoPassword, salt).Err? ==> order == [] && users == map[]
    {
      match HashPassword(c, DemoPassword, salt)
      case Err(_) =>
        order := [];
        users := map[];
      case Ok(h) =>
        order := [DemoEmail];
        users := map[DemoEmail := User("demo-user-001", DemoEmail, "デモユーザー", h, UserRole, false, None, now, now, None, 0, None)];
    }

    /** `authenticateUser(email, password)` at time `now`. */
    method AuthenticateUser(c: Crypto, email: string, password: string, now: int) returns (r: AuthResult)
      requires Valid()
      modifies this
      ensures Valid() && order == old(order)
      ensures (users, r) == Authenticate(old(users), c, email, password, now)
    {
      var key := Lower(Trim(email));
      if key !in users {
        return Rejected;
      }
      r := SignIn(c, key, password, now);
    }

    /** The part of `authenticateUser` after the record under `key` is found. */
    method SignIn(c: Crypto, key: string, password: string, now: int) returns (r: AuthResult)
      requires Valid() && key in users
      modifies this
      ensures Valid() && order == old(order)
      ensures (users, r) == SignInAttempt(old(users), key, VerifyPassword(c, password, old(users)[key].passwordHash), now)
    {
      var user := users[key];
      if IsAccountLocked(user, now) {
        r := Locked(LoginRoute.CeilSeconds(user.lockedUntil.value - now));
        LockedAttempt(users, key, VerifyPassword(c, password, user.passwordHash), now);
        return;
      }
      var isValid := VerifyPassword(c, password, user.passwordHash);
      if isValid.Err? {
        return Threw;
      }
      r := Record(key, isValid.value, now);
    }

    /** The bookkeeping of `authenticateUser` once the password check has answered `valid`. */
    method Record(key: string, valid: bool, now: int) returns (r: AuthResult)
      requires Valid() && key in users && !IsAccountLocked(users[key], now)
      modifies this
      ensures Valid() && order == old(order)
      ensures (users, r) == SignInAttempt(old(users), key, Ok(valid), now)
    {
      ghost var next := SignInAttempt(users, key, Ok(valid), now);
      SignInKeepsWellFormed(users, key, Ok(valid), now);
      PutKeepsOrdered(order, users, key, next.0[key]);
      var user := users[key];
      if !valid {
        user := user.(loginAttempts := user.loginAttempts + 1);
        if user.loginAttempts >= MaxLoginAttempts {
          user := user.(lockedUntil := Some(now + LockoutDurationMs));
        }
        assert user == next.0[key];
        users := users[key := user];
        return Rejected;
      }
      user := user.(loginAttempts := 0, lockedUntil := None, lastLoginAt := Some(now), updatedAt := now);
      assert user == next.0[key];
      users := users[key := user];
      r := SignedIn(Safe(user));
    }

    /** `createUser(email, password, name)` with the given salt, id and time. */
    method CreateUser(c: Crypto, email: string, password: string, name: string, salt: seq<nat>, id: string, now: int)
      returns (r: Result<SafeUser>)
      requires Valid()
      modifies this
      ensures Valid()
      ensures (users, r) == CreateAccount(old(users), c, email, password, name, salt, id, now)
      ensures order == if r.Ok? then old(order) + [Lower(Trim(email))] else old(order)
    {
      CreateKeepsWellFormed(users, c, email, password, name, salt, id, now);
      var key := Lower(Trim(email));
      if key in users {
        return Err(EmailTaken);
      }
      var hash := HashPassword(c, password, salt);
      if hash.Err? {
        return Err(hash.error);
      }
      var user := User(id, key, name, hash.value, UserRole, false, None, now, now, None, 0, None);
      AddKeepsOrdered(order, users, key, user);
      users := users[key := user];
      order := order + [key];
      r := Ok(Safe(user));
    }

    /** `getUserById(id)`: the first user in insertion order with the id, without secrets. */
    method GetUserById(id: string) returns (r: Option<SafeUser>)
      requires Valid()
      ensures var i := FirstById(order, users, id);
        r == if i == -1 then None else Some(Safe(users[order[i]]))
    {
      for i := 0 to |order|
        invariant forall j :: 0 <= j < i ==> !(order[j] in users && users[order[j]].id == id)
      {
        var user := users[order[i]];
        if user.id == id {
          FirstByIdAt(order, users, id, i);
          return Some(Safe(user));
        }
      }
      FirstByIdNone(order, users, id);
      return None;
    }

    /** `updateUserMfa(userId, mfaEnabled, mfaSecret)` at `now`: the first user with the id gets the settings. */
    method UpdateUserMfa(userId: string, mfaEnabled: bool, mfaSecret: Option<string>, now: int) returns (found: bool)
      requires Valid()
      modifies this
      ensures Valid() && order == old(order)
      ensures var i := FirstById(old(order), old(users), userId);
        && (found <==> i != -1)
        && users == if found then old(users)[old(order)[i] := old(users)[old(order)[i]].(
                                 mfaEnabled := mfaEnabled, mfaSecret := mfaSecret, updatedAt := now)]
                    else old(users)
    {
      for i := 0 to |order|
        invariant forall j :: 0 <= j < i ==> !(order[j] in users && users[order[j]].id == userId)
      {
        var user := users[order[i]];
        if user.id == userId {
          var updated := user.(mfaEnabled := mfaEnabled, mfaSecret := mfaSecret, updatedAt := now);
          FirstByIdAt(order, users, userId, i);
          PutKeepsOrdered(order, users, order[i], updated);
          PutKeepsWellFormed(users, order[i], updated);
          users := users[order[i] := updated];
          return true;
        }
      }
      FirstByIdNone(order, users, userId);
      return false;
    }

    /**
     * `updateUserPassword(userId, newPassword)` with the given salt at `now`:
     * the first user with the id gets the hash of the new password; a hashing
     * error throws and changes nothing.
     */
    method UpdateUserPassword(c: Crypto, userId: string, newPassword: string, salt: seq<nat>, now: int)
      returns (r: Result<bool>)
      requires Valid()
      modifies this
      ensures Valid() && order == old(order)
      ensures var i := FirstById(old(order), old(users), userId);
        && (i == -1 ==> r == Ok(false) && users == old(users))
        && (i != -1 && HashPassword(c, newPassword, salt).Err? ==> r.Err? && users == old(users))
        && (i != -1 && HashPassword(c, newPassword, salt).Ok? ==>
              r == Ok(true) && users == old(users)[old(order)[i] := old(users)[old(order)[i]].(
                passwordHash := HashPassword(c, newPassword, salt).value, updatedAt := now)])
    {
      for i := 0 to |order|
        invariant forall j :: 0 <= j < i ==> !(order[j] in users && users[order[j]].id == userId)
      {
        var user := users[order[i]];
        if user.id == userId {
          FirstByIdAt(order, users, userId, i);
          var hash := HashPassword(c, newPassword, salt);
          if hash.Err? {
            return Err(hash.error);
          }
          var updated := user.(passwordHash := hash.value, updatedAt := now);
          PutKeepsOrdered(order, users, order[i], updated);
          PutKeepsWellFormed(users, order[i], updated);
          users := users[order[i] := updated];
          return Ok(true);
        }
      }
      FirstByIdNone(order, users, userId);
      return Ok(false);
    }
  }

  /** After a password change the new password is accepted and the hash is in the stored format. */
  lemma NewPasswordVerifies(c: Crypto, newPassword: string, salt: seq<nat>)
    requires Base64RoundTrips(c) && KeyLengthKept(c)
    requires HashPassword(c, newPassword, salt).Ok?
    ensures VerifyPassword(c, newPassword, HashPassword(c, newPassword, salt).value) == Ok(true)
    ensures |Split(HashPassword(c, newPassword, salt).value, '$')| == 4
  {
    VerifyHashed(c, newPassword, newPassword, salt);
  }
}
