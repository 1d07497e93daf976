/**
 * The user profile route of the LifePlan Navigator: `GET` reads the signed-in
 * user's profile and `PUT` updates it. The profiles live in an in-memory map
 * holding the demo user from the start. `PUT` checks and writes the fields one
 * after another straight into the stored profile, so a field rejected with 400
 * leaves the fields written before it in place, and only a fully accepted body
 * stamps `updatedAt`. The e-mail address and the id are never written.
 */
module UserProfileRoute {
  import opened Common
  import opened JsNumber
  import Validation

  /** The one user a session cookie stands for. */
  const DemoUserId := "demo-user-001"

  /**
   * A stored profile: the id and e-mail address `PUT` never writes, the ten
   * properties it does write, by field (an absent optional property is not in
   * the map), and `updatedAt` in milliseconds.
   */
  datatype UserProfile = UserProfile(id: string, email: string, fields: map<Field, Js>, updatedAt: int)

  /** The demo user's profile as the store starts out, created at time `now`. */
  function DemoProfile(now: int): UserProfile {
    UserProfile(DemoUserId, "demo@example.com", DemoFields(), now)
  }

  function DemoFields(): map<Field, Js> {
    map[
      Name := JStr("デモユーザー"), Prefecture := JStr("東京都"), City := JStr("港区"),
      Occupation := JStr("会社員"), AnnualIncome := JNum(6000000), BirthDate := JStr("1990-05-15"),
      MaritalStatus := JStr("married"), HasChildren := JBool(true), NumberOfChildren := JNum(1),
      HousingType := JStr("rent")]
  }

  const MaritalStatuses: seq<string> := ["single", "married", "divorced", "widowed"]
  const HousingTypes: seq<string> := ["rent", "own", "with_parents"]

  const AuthRequired := "認証が必要です"
  const ProfileNotFound := "プロフィールが見つかりません"
  const UnexpectedError := "予期しないエラーが発生しました"

  datatype Response =
    | Unauthorized
    | NotFound
    | InternalError
    | Invalid(field: string, message: string)
    | Found(profile: UserProfile)
    | Updated(profile: UserProfile)

  function Status(r: Response): int {
    match r
    case Unauthorized => 401
    case NotFound => 404
    case InternalError => 500
    case Invalid(_, _) => 400
    case _ => 200
  }

  /** The `error` text of the reply: every answer other than 200 carries one. */
  function ErrorText(r: Response): (text: Option<string>)
    ensures text.Some? <==> Status(r) != 200
  {
    match r
    case Unauthorized => Some(AuthRequired)
    case NotFound => Some(ProfileNotFound)
    case InternalError => Some(UnexpectedError)
    case Invalid(_, message) => Some(message)
    case _ => None
  }

  // ---------------------------------------------------------------------------
  // Field rules

  /** `isValidName`: a non-empty string whose trimmed form has 1 to 100 letters, digits, spaces, `-` or `'`. */
  predicate IsValidName(name: Js) {
    && name.JStr? && name.s != ""
    && 1 <= |Trim(name.s)| <= 100
    && Validation.NameChars(Trim(name.s))
  }

  /** For strings the rule is the one the registration form applies to a name. */
  lemma IsValidNameSpec(s: string)
    ensures IsValidName(JStr(s)) <==> Validation.ValidateName(s).isValid
  {
    TrimEmptyIffBlank(s);
  }

  /** `/^\d{4}-\d{2}-\d{2}$/`. */
  predicate IsDateText(s: string) {
    && |s| == 10 && s[4] == '-' && s[7] == '-'
    && IsDigit(s[0]) && IsDigit(s[1]) && IsDigit(s[2]) && IsDigit(s[3])
    && IsDigit(s[5]) && IsDigit(s[6]) && IsDigit(s[8]) && IsDigit(s[9])
  }

  /** The fields `PUT` reads from the body, in the order it checks them. */
  datatype Field =
    | Name | Prefecture | City | Occupation | AnnualIncome | BirthDate | MaritalStatus
    | HasChildren | NumberOfChildren | HousingType

  const FieldCount := 10

  function Rank(f: Field): (r: nat)
    ensures r < FieldCount
  {
    match f
    case Name => 0
    case Prefecture => 1
    case City => 2
    case Occupation => 3
    case AnnualIncome => 4
    case BirthDate => 5
    case MaritalStatus => 6
    case HasChildren => 7
    case NumberOfChildren => 8
    case HousingType => 9
  }

  function FieldAt(i: nat): Field
    requires i < FieldCount
  {
    if i == 0 then Name
    else if i == 1 then Prefecture
    else if i == 2 then City
    else if i == 3 then Occupation
    else if i == 4 then AnnualIncome
    else if i == 5 then BirthDate
    else if i == 6 then MaritalStatus
    else if i == 7 then HasChildren
    else if i == 8 then NumberOfChildren
    else HousingType
  }

  /** `Rank` numbers the fields without gaps or repeats: `FieldAt` undoes it. */
  lemma FieldAtRank(f: Field)
    ensures FieldAt(Rank(f)) == f
  {
  }

  lemma RankOfFieldAt(i: nat)
    requires i < FieldCount
    ensures Rank(FieldAt(i)) == i
  {
  }

  /** The body property a field is read from. */
  function Key(f: Field): string {
    match f
    case Name => "name"
    case Prefecture => "prefecture"
    case City => "city"
    case Occupation => "occupation"
    case AnnualIncome => "annualIncome"
    case BirthDate => "birthDate"
    case MaritalStatus => "maritalStatus"
    case HasChildren => "hasChildren"
    case NumberOfChildren => "numberOfChildren"
    case HousingType => "housingType"
  }

  /** The 400 message for a rejected field (`hasChildren` is never rejected). */
  function Message(f: Field): string {
    match f
    case Name => "名前が無効です"
    case Prefecture => "都道府県が無効です"
    case City => "市区町村が無効です"
    case Occupation => "職業が無効です"
    case AnnualIncome => "年収が無効です"
    case BirthDate => "生年月日の形式が無効です"
    case MaritalStatus => "婚姻状況が無効です"
    case HasChildren => ""
    case NumberOfChildren => "子供の人数が無効です"
    case HousingType => "住居形態が無効です"
  }

  /** `Number(v)` is a number in `lo..hi`. */
  predicate NumberIn(v: Js, lo: int, hi: int) {
    var n := ToNumber(v);
    n.Int? && lo <= n.i <= hi
  }

  /** Whether `PUT` accepts the present value `v` for field `f`. */
  predicate Accepts(f: Field, v: Js) {
    match f
    case Name => IsValidName(v)
    case Prefecture => v.JStr? && |v.s| <= 20
    case City => v.JStr? && |v.s| <= 50
    case Occupation => v.JStr? && |v.s| <= 50
    case AnnualIncome => NumberIn(v, 0, 999999999)
    case BirthDate => !Truthy(v) || IsDateText(JsString(v))
    case MaritalStatus => v.JStr? && v.s in MaritalStatuses
    case HasChildren => true
    case NumberOfChildren => NumberIn(v, 0, 20)
    case HousingType => v.JStr? && v.s in HousingTypes
  }

  /** A number as the JSON reply shows it (`NaN` is written as `null`, though no accepted value converts to it). */
  function NumberValue(n: Num): Js {
    if n.Int? then JNum(n.i) else JNull
  }

  /** What a value is stored as: a name trimmed, `Number(v)` for the two numbers, `Boolean(v)` for `hasChildren`, anything else as given. */
  function Stored(f: Field, v: Js): Js {
    match f
    case Name => JStr(Trim(JsString(v)))
    case AnnualIncome => NumberValue(ToNumber(v))
    case HasChildren => JBool(Truthy(v))
    case NumberOfChildren => NumberValue(ToNumber(v))
    case _ => v
  }

  /** A trimmed valid name is still a valid name, and its own trim. */
  lemma TrimmedNameValid(v: Js)
    requires IsValidName(v)
    ensures IsValidName(JStr(Trim(v.s))) && Trim(Trim(v.s)) == Trim(v.s)
  {
    TrimUnspaced(Trim(v.s));
  }

  /** The stored form of an accepted value is itself accepted: a trimmed valid name stays valid, a converted number stays in range. */
  lemma StoredAccepted(f: Field, v: Js)
    requires v != JUndefined && Accepts(f, v)
    ensures Stored(f, v) != JUndefined && Accepts(f, Stored(f, v))
  {
    if f == Name {
      TrimmedNameValid(v);
    }
  }

  /** `hasChildren` is never the field a 400 names. */
  lemma HasChildrenAlwaysAccepted(v: Js)
    ensures Accepts(HasChildren, v)
  {
  }

  // ---------------------------------------------------------------------------
  // Checking and writing field by field

  /**
   * The two field rules the update applies: which present values are
   * accepted, and what they are stored as. The update order is argued once
   * for any rules; the route's own are `Route`.
   */
  datatype Rules = Rules(accepts: (Field, Js) -> bool, stored: (Field, Js) -> Js)

  const Route := Rules(Accepts, Stored)

  /** The value of field `f` in the body (`const { name, ... } = body`), `JUndefined` when absent. */
  function Value(body: Js, f: Field): Js {
    Prop(body, Key(f))
  }

  /** The body read field by field. */
  function Fields(body: Js): Field -> Js {
    f => Value(body, f)
  }

  /** The field is absent, or present with a value the rules accept. */
  predicate Acceptable(rules: Rules, read: Field -> Js, f: Field) {
    read(f) == JUndefined || rules.accepts(f, read(f))
  }

  /** Field `f` of a stored profile, `JUndefined` when absent. */
  function Read(p: UserProfile, f: Field): Js {
    if f in p.fields then p.fields[f] else JUndefined
  }

  /** The assignment `PUT` makes for an accepted value. */
  function Write(rules: Rules, p: UserProfile, f: Field, v: Js): UserProfile {
    p.(fields := p.fields[f := rules.stored(f, v)])
  }

  /** A write changes exactly its own field, to the stored form of the value, and leaves id, e-mail and `updatedAt` alone. */
  lemma ReadWrite(rules: Rules, p: UserProfile, f: Field, v: Js, g: Field)
    ensures Read(Write(rules, p, f, v), g) == if g == f then rules.stored(f, v) else Read(p, g)
    ensures Write(rules, p, f, v).id == p.id && Write(rules, p, f, v).email == p.email
    ensures Write(rules, p, f, v).updatedAt == p.updatedAt
  {
  }

  /** Where the field-by-field update ends: the profile as written, and the field that was rejected, if any. */
  datatype Outcome = Outcome(profile: UserProfile, failed: Option<Field>)

  /** The checks and writes from field number `i` on, in the order `PUT` makes them. */
  function From(rules: Rules, p: UserProfile, read: Field -> Js, i: nat): Outcome
    requires i <= FieldCount
    decreases FieldCount - i
  {
    if i == FieldCount then Outcome(p, None)
    else
      var f := FieldAt(i);
      var v := read(f);
      if v == JUndefined then From(rules, p, read, i + 1)
      else if !rules.accepts(f, v) then Outcome(p, Some(f))
      else From(rules, Write(rules, p, f, v), read, i + 1)
  }

  /** The number of the field the update stopped at, or `FieldCount`. */
  function StopsAt(o: Outcome): nat {
    if o.failed.Some? then Rank(o.failed.value) else FieldCount
  }

  /**
   * From field `i` on, the update stops exactly at the first field that is
   * present with a value the rules do not accept.
   */
  lemma {:induction false} FromStops(rules: Rules, p: UserProfile, read: Field -> Js, i: nat)
    requires i <= FieldCount
    ensures var o := From(rules, p, read, i);
      && i <= StopsAt(o)
      && (forall j :: i <= j < StopsAt(o) ==> Acceptable(rules, read, FieldAt(j)))
      && (o.failed.Some? ==> !Acceptable(rules, read, o.failed.value))
    decreases FieldCount - i
  {
    if i < FieldCount {
      var f := FieldAt(i);
      RankOfFieldAt(i);
      var v := read(f);
      if v == JUndefined {
        FromStops(rules, p, read, i + 1);
      } else if rules.accepts(f, v) {
        FromStops(rules, Write(rules, p, f, v), read, i + 1);
      }
    }
  }

  /** The update never touches the id, the e-mail address or `updatedAt`. */
  lemma {:induction false} FromKeeps(rules: Rules, p: UserProfile, read: Field -> Js, i: nat)
    requires i <= FieldCount
    ensures var o := From(rules, p, read, i);
      o.profile.id == p.id && o.profile.email == p.email && o.profile.updatedAt == p.updatedAt
    decreases FieldCount - i
  {
    if i < FieldCount {
      var f := FieldAt(i);
      var v := read(f);
      if v == JUndefined {
        FromKeeps(rules, p, read, i + 1);
      } else if rules.accepts(f, v) {
        FromKeeps(rules, Write(rules, p, f, v), read, i + 1);
      }
    }
  }

  /**
   * Every field from `i` up to where the update stops that is present holds
   * the stored form of its value; every other field is unchanged.
   */
  lemma {:induction false} FromReads(rules: Rules, p: UserProfile, read: Field -> Js, i: nat)
    requires i <= FieldCount
    ensures var o := From(rules, p, read, i);
      forall g :: Read(o.profile, g) ==
        if i <= Rank(g) < StopsAt(o) && read(g) != JUndefined then rules.stored(g, read(g))
        else Read(p, g)
    decreases FieldCount - i
  {
    if i < FieldCount {
      var f := FieldAt(i);
      RankOfFieldAt(i);
      var v := read(f);
      var o := From(rules, p, read, i);
      if v == JUndefined {
        FromReads(rules, p, read, i + 1);
        FromStops(rules, p, read, i + 1);
        forall g
          ensures Read(o.profile, g) ==
            if i <= Rank(g) < StopsAt(o) && read(g) != JUndefined then rules.stored(g, read(g)) else Read(p, g)
        {
          if Rank(g) == i {
            FieldAtRank(g);
          }
        }
      } else if rules.accepts(f, v) {
        var q := Write(rules, p, f, v);
        FromReads(rules, q, read, i + 1);
        FromStops(rules, q, read, i + 1);
        forall g
          ensures Read(o.profile, g) ==
            if i <= Rank(g) < StopsAt(o) && read(g) != JUndefined then rules.stored(g, read(g)) else Read(p, g)
        {
          ReadWrite(rules, p, f, v, g);
          if Rank(g) == i {
            FieldAtRank(g);
          }
        }
      }
    }
  }

  // ---------------------------------------------------------------------------
  // Sound profiles

  /**
   * A profile every field of which the rules would accept as it stands: for
   * the route's rules each field then holds the bounds its rule enforces,
   * and submitting the profile back is never rejected.
   */
  predicate Sound(rules: Rules, p: UserProfile) {
    forall g :: Read(p, g) == JUndefined || rules.accepts(g, Read(p, g))
  }

  /** Rules whose stored forms are themselves accepted. */
  ghost predicate StoresAccepted(rules: Rules) {
    forall f, v {:trigger rules.stored(f, v)} ::
      v != JUndefined && rules.accepts(f, v) ==> rules.stored(f, v) != JUndefined && rules.accepts(f, rules.stored(f, v))
  }

  lemma RouteStoresAccepted()
    ensures StoresAccepted(Route)
  {
    forall f, v | v != JUndefined && Route.accepts(f, v)
      ensures Route.stored(f, v) != JUndefined && Route.accepts(f, Route.stored(f, v))
    {
      StoredAccepted(f, v);
    }
  }

  /** No letter or digit counts as white space. */
  lemma LetterNotSpace(c: char)
    requires IsLetterOrNumber(c)
    ensures !IsSpace(c)
  {
  }

  /** A name made only of letters and digits, 1 to 100 of them, is valid. */
  lemma LettersNameValid(s: string)
    requires 1 <= |s| <= 100
    requires forall i :: 0 <= i < |s| ==> IsLetterOrNumber(s[i])
    ensures IsValidName(JStr(s))
  {
    LetterNotSpace(s[0]);
    LetterNotSpace(s[|s| - 1]);
    TrimUnspaced(s);
  }

  lemma DemoNameValid()
    ensures IsValidName(JStr("デモユーザー"))
  {
    var name := "デモユーザー";
    assert |name| == 6;
    forall i | 0 <= i < |name|
      ensures IsLetterOrNumber(name[i])
    {
      assert '\U{30A1}' <= name[i] <= '\U{30FC}' && name[i] != '\U{30FB}';
    }
    LettersNameValid(name);
  }

  lemma DemoFieldSound(now: int, g: Field)
    ensures Read(DemoProfile(now), g) == JUndefined || Accepts(g, Read(DemoProfile(now), g))
  {
    var v := Read(DemoProfile(now), g);
    assert v == DemoFields()[g];
    match g
    case Name => assert v == JStr("デモユーザー"); DemoNameValid();
    case Prefecture => assert v == JStr("東京都");
    case City => assert v == JStr("港区");
    case Occupation => assert v == JStr("会社員");
    case AnnualIncome => assert v == JNum(6000000);
    case BirthDate => assert v == JStr("1990-05-15") && IsDateText("1990-05-15");
    case MaritalStatus => assert v == JStr("married");
    case HasChildren =>
    case NumberOfChildren => assert v == JNum(1);
    case HousingType => assert v == JStr("rent");
  }

  /** The demo profile the store starts with obeys the route's rules. */
  lemma DemoProfileSound(now: int)
    ensures Sound(Route, DemoProfile(now))
  {
    forall g
      ensures Read(DemoProfile(now), g) == JUndefined || Route.accepts(g, Read(DemoProfile(now), g))
    {
      DemoFieldSound(now, g);
    }
  }

  /** An accepted write keeps a sound profile sound. */
  lemma WriteSound(rules: Rules, p: UserProfile, f: Field, v: Js)
    requires StoresAccepted(rules) && Sound(rules, p) && v != JUndefined && rules.accepts(f, v)
    ensures Sound(rules, Write(rules, p, f, v))
  {
    forall g
      ensures Read(Write(rules, p, f, v), g) == JUndefined || rules.accepts(g, Read(Write(rules, p, f, v), g))
    {
      ReadWrite(rules, p, f, v, g);
    }
  }

  // ---------------------------------------------------------------------------
  // PUT

  /**
   * `PUT`: 401 without a session cookie, 404 without a stored profile, 500
   * when the body is not JSON or is `null`; otherwise the fields are checked
   * and written in order. A rejected field answers 400 and leaves what was
   * written before it stored; a fully accepted body also stamps `updatedAt`.
   */
  function PutSpec(rules: Rules, profiles: map<string, UserProfile>, hasSession: bool, body: Option<Js>, now: int)
    : (map<string, UserProfile>, Response)
  {
    if !hasSession then (profiles, Unauthorized)
    else if DemoUserId !in profiles then (profiles, NotFound)
    else if body.None? || body.value == JNull then (profiles, InternalError)
    else Apply(rules, profiles, Fields(body.value), now)
  }

  /** The update past the guards, with the body read field by field through `read`. */
  function Apply(rules: Rules, profiles: map<string, UserProfile>, read: Field -> Js, now: int)
    : (map<string, UserProfile>, Response)
    requires DemoUserId in profiles
  {
    var o := From(rules, profiles[DemoUserId], read, 0);
    if o.failed.Some? then
      (profiles[DemoUserId := o.profile], Invalid(Key(o.failed.value), Message(o.failed.value)))
    else
      var p := o.profile.(updatedAt := now);
      (profiles[DemoUserId := p], Updated(p))
  }

  /** The request is answered 401 exactly without a session, and 404 exactly when signed in with no profile; neither changes anything. */
  lemma PutRefusals(rules: Rules, profiles: map<string, UserProfile>, hasSession: bool, body: Option<Js>, now: int)
    ensures PutSpec(rules, profiles, hasSession, body, now).1 == Unauthorized <==> !hasSession
    ensures PutSpec(rules, profiles, hasSession, body, now).1 == NotFound <==> hasSession && DemoUserId !in profiles
    ensures !hasSession || DemoUserId !in profiles ==> PutSpec(rules, profiles, hasSession, body, now).0 == profiles
  {
  }

  /** No outcome of `PUT` changes the stored e-mail address or id, and no other user's profile. */
  lemma PutKeepsEmail(rules: Rules, profiles: map<string, UserProfile>, hasSession: bool, body: Option<Js>, now: int)
    requires DemoUserId in profiles
    ensures var after := PutSpec(rules, profiles, hasSession, body, now).0;
      && after.Keys == profiles.Keys
      && after[DemoUserId].email == profiles[DemoUserId].email
      && after[DemoUserId].id == profiles[DemoUserId].id
      && forall u :: u in profiles && u != DemoUserId ==> after[u] == profiles[u]
  {
    if hasSession && body.Some? && body.value != JNull {
      FromKeeps(rules, profiles[DemoUserId], Fields(body.value), 0);
    }
  }

  /** `PUT` succeeds exactly when signed in with a profile and a JSON body whose every present field is accepted. */
  lemma PutSucceedsIff(rules: Rules, profiles: map<string, UserProfile>, hasSession: bool, body: Option<Js>, now: int)
    ensures PutSpec(rules, profiles, hasSession, body, now).1.Updated? <==>
      (&& hasSession && DemoUserId in profiles && body.Some? && body.value != JNull
       && forall f :: Acceptable(rules, Fields(body.value), f))
  {
    if hasSession && DemoUserId in profiles && body.Some? && body.value != JNull {
      FromStops(rules, profiles[DemoUserId], Fields(body.value), 0);
      if !forall f :: Acceptable(rules, Fields(body.value), f) {
        var f :| !Acceptable(rules, Fields(body.value), f);
        FieldAtRank(f);
        assert !Acceptable(rules, Fields(body.value), FieldAt(Rank(f)));
      }
    }
  }

  /**
   * A successful `PUT` stores and returns the profile with every present
   * field replaced by the stored form of its value, every absent field as it
   * was, the e-mail address kept and `updatedAt` stamped.
   */
  lemma PutSuccess(rules: Rules, profiles: map<string, UserProfile>, hasSession: bool, body: Option<Js>, now: int)
    requires PutSpec(rules, profiles, hasSession, body, now).1.Updated?
    ensures body.Some? && DemoUserId in profiles
    ensures var (after, r) := PutSpec(rules, profiles, hasSession, body, now);
      && after == profiles[DemoUserId := r.profile]
      && r.profile.updatedAt == now && r.profile.email == profiles[DemoUserId].email
      && forall g :: Read(r.profile, g) ==
           if Value(body.value, g) != JUndefined then rules.stored(g, Value(body.value, g))
           else Read(profiles[DemoUserId], g)
  {
    var read := Fields(body.value);
    FromKeeps(rules, profiles[DemoUserId], read, 0);
    FromReads(rules, profiles[DemoUserId], read, 0);
    var p := From(rules, profiles[DemoUserId], read, 0).profile;
    forall g
      ensures Read(p, g) ==
        if Value(body.value, g) != JUndefined then rules.stored(g, Value(body.value, g)) else Read(profiles[DemoUserId], g)
    {
      assert read(g) == Value(body.value, g);
    }
  }

  /** With the route's rules, a name in an accepted body passed `isValidName` and is stored trimmed. */
  lemma PutStoresTrimmedName(profiles: map<string, UserProfile>, hasSession: bool, body: Option<Js>, now: int)
    requires PutSpec(Route, profiles, hasSession, body, now).1.Updated?
    requires body.Some? && Value(body.value, Name) != JUndefined
    ensures IsValidName(Value(body.value, Name))
    ensures Read(PutSpec(Route, profiles, hasSession, body, now).1.profile, Name) == JStr(Trim(Value(body.value, Name).s))
  {
    PutSucceedsIff(Route, profiles, hasSession, body, now);
    assert Acceptable(Route, Fields(body.value), Name);
    PutSuccess(Route, profiles, hasSession, body, now);
  }

  /**
   * A 400 names the first field, in checking order, that is present and not
   * accepted. The fields before it that were present are already written
   * into the stored profile; it and the fields after it are not, and
   * `updatedAt` is not stamped.
   */
  lemma PutRejection(rules: Rules, profiles: map<string, UserProfile>, hasSession: bool, body: Option<Js>, now: int)
    requires PutSpec(rules, profiles, hasSession, body, now).1.Invalid?
    ensures hasSession && DemoUserId in profiles && body.Some?
    ensures var (after, r) := PutSpec(rules, profiles, hasSession, body, now);
      exists f ::
        && r == Invalid(Key(f), Message(f))
        && !Acceptable(rules, Fields(body.value), f)
        && (forall g :: Rank(g) < Rank(f) ==> Acceptable(rules, Fields(body.value), g))
        && after.Keys == profiles.Keys
        && after[DemoUserId].updatedAt == profiles[DemoUserId].updatedAt
        && forall g :: Read(after[DemoUserId], g) ==
             if Rank(g) < Rank(f) && Value(body.value, g) != JUndefined then rules.stored(g, Value(body.value, g))
             else Read(profiles[DemoUserId], g)
  {
    var o := From(rules, profiles[DemoUserId], Fields(body.value), 0);
    FromStops(rules, profiles[DemoUserId], Fields(body.value), 0);
    FromKeeps(rules, profiles[DemoUserId], Fields(body.value), 0);
    FromReads(rules, profiles[DemoUserId], Fields(body.value), 0);
    var f := o.failed.value;
    forall g | Rank(g) < Rank(f)
      ensures Acceptable(rules, Fields(body.value), g)
    {
      FieldAtRank(g);
      assert Acceptable(rules, Fields(body.value), FieldAt(Rank(g)));
    }
  }

  // ---------------------------------------------------------------------------
  // The store

  ghost predicate AllSound(rules: Rules, profiles: map<string, UserProfile>) {
    forall u :: u in profiles ==> Sound(rules, profiles[u])
  }

  lemma StoreKeepsSound(rules: Rules, profiles: map<string, UserProfile>, p: UserProfile)
    requires AllSound(rules, profiles) && Sound(rules, p)
    ensures AllSound(rules, profiles[DemoUserId := p])
  {
  }

  class UserProfiles {
    /** The field rules `PUT` applies: always the route's own. */
    const rules: Rules
    var profiles: map<string, UserProfile>

    /** Every stored profile obeys the field rules, and the rules keep stored values acceptable. */
    ghost predicate Valid()
      reads this
    {
      StoresAccepted(rules) && AllSound(rules, profiles)
    }

    /** The store as the route module starts it: the demo user, created at `now`. */
    constructor(now: int)
      ensures Valid() && rules == Route && profiles == map[DemoUserId := DemoProfile(now)]
    {
      DemoProfileSound(now);
      RouteStoresAccepted();
      rules := Route;
      profiles := map[DemoUserId := DemoProfile(now)];
    }

    /** `GET`: 401 without a session cookie, 404 without a profile, otherwise the profile. */
    method Get(hasSession: bool) returns (r: Response)
      requires Valid()
      ensures !hasSession ==> r == Unauthorized
      ensures hasSession && DemoUserId !in profiles ==> r == NotFound
      ensures hasSession && DemoUserId in profiles ==> r == Found(profiles[DemoUserId]) && Sound(rules, r.profile)
    {
      if !hasSession {
        return Unauthorized;
      }
      if DemoUserId !in profiles {
        return NotFound;
      }
      r := Found(profiles[DemoUserId]);
    }

    /**
     * One of the ten check-and-assign blocks of `PUT`: an absent field is
     * skipped, a rejected one stops the update, an accepted one is written
     * into the stored profile at once. `start` is the store before `PUT`
     * began, which only the demo user's profile departs from.
     */
    method WriteField(read: Field -> Js, f: Field, ghost start: map<string, UserProfile>) returns (ok: bool)
      requires Valid() && DemoUserId in profiles
      requires profiles == start[DemoUserId := profiles[DemoUserId]]
      requires DemoUserId in start && From(rules, start[DemoUserId], read, 0) == From(rules, profiles[DemoUserId], read, Rank(f))
      modifies this
      ensures Valid() && DemoUserId in profiles
      ensures profiles == start[DemoUserId := profiles[DemoUserId]]
      ensures ok == Acceptable(rules, read, f)
      ensures profiles[DemoUserId] ==
        if read(f) != JUndefined && ok then Write(rules, old(profiles)[DemoUserId], f, read(f))
        else old(profiles)[DemoUserId]
      ensures ok ==> From(rules, start[DemoUserId], read, 0) == From(rules, profiles[DemoUserId], read, Rank(f) + 1)
      ensures !ok ==> From(rules, start[DemoUserId], read, 0) == Outcome(profiles[DemoUserId], Some(f))
    {
      var v := read(f);
      if v == JUndefined {
        return true;
      }
      if !rules.accepts(f, v) {
        return false;
      }
      var p := Write(rules, profiles[DemoUserId], f, v);
      WriteSound(rules, profiles[DemoUserId], f, v);
      StoreKeepsSound(rules, profiles, p);
      profiles := profiles[DemoUserId := p];
      ok := true;
    }

    /** The blocks for `name`, `prefecture`, `city`, `occupation` and `annualIncome`, in that order. */
    method WritePersonal(read: Field -> Js, ghost start: map<string, UserProfile>) returns (failed: Option<Field>)
      requires Valid() && DemoUserId in profiles && profiles == start
      modifies this
      ensures Valid() && DemoUserId in profiles
      ensures profiles == start[DemoUserId := profiles[DemoUserId]]
      ensures failed.None? ==> From(rules, start[DemoUserId], read, 0) == From(rules, profiles[DemoUserId], read, Rank(AnnualIncome) + 1)
      ensures failed.Some? ==> From(rules, start[DemoUserId], read, 0) == Outcome(profiles[DemoUserId], failed)
    {
      assert profiles == start[DemoUserId := profiles[DemoUserId]];
      var ok := WriteField(read, Name, start);
      if !ok { return Some(Name); }
      ok := WriteField(read, Prefecture, start);
      if !ok { return Some(Prefecture); }
      ok := WriteField(read, City, start);
      if !ok { return Some(City); }
      ok := WriteField(read, Occupation, start);
      if !ok { return Some(Occupation); }
      ok := WriteField(read, AnnualIncome, start);
      if !ok { return Some(AnnualIncome); }
      failed := None;
    }

    /** The blocks for `birthDate`, `maritalStatus`, `hasChildren`, `numberOfChildren` and `housingType`, in that order. */
    method WriteHousehold(read: Field -> Js, ghost start: map<string, UserProfile>) returns (failed: Option<Field>)
      requires Valid() && DemoUserId in profiles && DemoUserId in start
      requires profiles == start[DemoUserId := profiles[DemoUserId]]
      requires From(rules, start[DemoUserId], read, 0) == From(rules, profiles[DemoUserId], read, Rank(BirthDate))
      modifies this
      ensures Valid() && DemoUserId in profiles
      ensures profiles == start[DemoUserId := profiles[DemoUserId]]
      ensures failed.None? ==> From(rules, start[DemoUserId], read, 0) == From(rules, profiles[DemoUserId], read, Rank(HousingType) + 1)
      ensures failed.Some? ==> From(rules, start[DemoUserId], read, 0) == Outcome(profiles[DemoUserId], failed)
    {
      var ok := WriteField(read, BirthDate, start);
      if !ok { return Some(BirthDate); }
      ok := WriteField(read, MaritalStatus, start);
      if !ok { return Some(MaritalStatus); }
      ok := WriteField(read, HasChildren, start);
      if !ok { return Some(HasChildren); }
      ok := WriteField(read, NumberOfChildren, start);
      if !ok { return Some(NumberOfChildren); }
      ok := WriteField(read, HousingType, start);
      if !ok { return Some(HousingType); }
      failed := None;
    }

    /** The part of `PUT` past the guards: the ten blocks in order, then the `updatedAt` stamp. */
    method Update(read: Field -> Js, now: int) returns (r: Response)
      requires Valid() && DemoUserId in profiles
      modifies this
      ensures Valid()
      ensures (profiles, r) == Apply(rules, old(profiles), read, now)
    {
      ghost var start := profiles;
      var failed := WritePersonal(read, start);
      if failed.Some? {
        return Invalid(Key(failed.value), Message(failed.value));
      }
      failed := WriteHousehold(read, start);
      if failed.Some? {
        return Invalid(Key(failed.value), Message(failed.value));
      }
      var p := profiles[DemoUserId].(updatedAt := now);
      assert forall g :: Read(p, g) == Read(profiles[DemoUserId], g);
      StoreKeepsSound(rules, profiles, p);
      assert profiles[DemoUserId := p] == start[DemoUserId := p];
      profiles := profiles[DemoUserId := p];
      r := Updated(p);
    }

    /**
     * `PUT`, at time `now`, with the body as parsed JSON (`None` when it is
     * not JSON): the session and profile guards, then the update.
     */
    method Put(hasSession: bool, body: Option<Js>, now: int) returns (r: Response)
      requires Valid()
      modifies this
      ensures Valid()
      ensures (profiles, r) == PutSpec(rules, old(profiles), hasSession, body, now)
    {
      if !hasSession {
        return Unauthorized;
      }
      if DemoUserId !in profiles {
        return NotFound;
      }
      if body.None? || body.value == JNull {
        return InternalError;
      }
      r := Update(Fields(body.value), now);
    }
  }
}
