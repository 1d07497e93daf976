/**
 * The onboarding profile route (`/api/onboarding`): a session cookie stands
 * for the demo user, whose profile is kept in an in-memory map. `GET` reads
 * it, `POST` checks every field given and stores a whole profile with
 * defaults for the rest, and `PATCH` changes five fields of a stored one.
 */
module OnboardingRoute {
  import opened Common

  /** The id every session cookie stands for. */
  const DemoUserId := "demo-user-001"

  const EmploymentTypes: seq<string> := [
    "FULL_TIME_EMPLOYEE", "CONTRACT_EMPLOYEE", "CIVIL_SERVANT", "SELF_EMPLOYED", "PART_TIME",
    "STUDENT", "HOMEMAKER", "RETIRED", "UNEMPLOYED", "OTHER"]

  const ResidenceTypes: seq<string> := ["RENTAL", "OWNED", "PARENTS_HOME", "COMPANY_HOUSING", "PUBLIC_HOUSING", "OTHER"]

  const HouseholdTypes: seq<string> := [
    "SINGLE", "COUPLE", "FAMILY_WITH_CHILDREN", "SINGLE_PARENT", "THREE_GENERATION", "OTHER"]

  const PlannedEvents: seq<string> := [
    "SIDE_BUSINESS", "JOB_CHANGE", "RETIREMENT", "HOME_PURCHASE", "HOME_RENOVATION", "MARRIAGE",
    "CHILDBIRTH", "CHILD_EDUCATION", "INHERITANCE", "NURSING_CARE", "RELOCATION", "NONE"]

  // ---------------------------------------------------------------------------
  // The e-mail pattern `^[^\s@]+@[^\s@]+\.[^\s@]+$`

  /** A character of `[^\s@]`. */
  predicate EmailChar(c: char) {
    !IsSpace(c) && c != '@'
  }

  /**
   * What the pattern describes: the text is a non-empty run, `@`, a
   * non-empty run, `.`, a non-empty run, where no run holds white space or
   * `@` (a run may hold further dots).
   */
  ghost predicate EmailShape(s: string) {
    exists i, j :: 0 < i && i + 1 < j < |s| - 1 && s[i] == '@' && s[j] == '.'
      && forall k :: 0 <= k < |s| && k != i ==> EmailChar(s[k])
  }

  /** `emailRegex.test(s)`: the first `@` is not the first character, it is the only `@`, nothing is white space, and a dot lies strictly inside the rest. */
  predicate EmailTest(s: string) {
    var at := IndexOf(s, '@');
    && at > 0
    && (forall k :: 0 <= k < |s| && k != at ==> EmailChar(s[k]))
    && at + 2 < |s| && '.' in s[at + 2..|s| - 1]
  }

  /** The scan accepts exactly the texts the pattern describes. */
  lemma EmailTestSpec(s: string)
    ensures EmailTest(s) <==> EmailShape(s)
  {
    var at := IndexOf(s, '@');
    if EmailTest(s) {
      var t := s[at + 2..|s| - 1];
      var d := IndexOf(t, '.');
      assert s[at + 2 + d] == t[d];
      assert EmailShape(s) by {
        assert 0 < at && at + 1 < at + 2 + d < |s| - 1 && s[at] == '@' && s[at + 2 + d] == '.';
      }
    }
    if EmailShape(s) {
      var i, j :| 0 < i && i + 1 < j < |s| - 1 && s[i] == '@' && s[j] == '.'
        && forall k :: 0 <= k < |s| && k != i ==> EmailChar(s[k]);
      assert at == i by {
        assert at != -1 by { assert s[i] == '@'; }
      }
      assert s[at + 2..|s| - 1][j - (at + 2)] == '.';
    }
  }

  /** `isValidEmail`: a falsy value passes; otherwise its string form must match. */
  predicate IsValidEmail(email: Js) {
    !Truthy(email) || EmailTest(JsString(email))
  }

  // ---------------------------------------------------------------------------
  // Field checks

  /** `Object.values(Enum).includes(value)`. */
  predicate IsEnumValue(v: Js, values: seq<string>) {
    v.JStr? && v.s in values
  }

  /** Neither `null` nor `undefined`. */
  predicate Given(v: Js) {
    v != JNull && v != JUndefined
  }

  /** `v ?? fallback`. */
  function Coalesce(v: Js, fallback: Js): (r: Js)
    ensures Given(v) ==> r == v
    ensures !Given(v) ==> r == fallback
  {
    if v == JNull || v == JUndefined then fallback else v
  }

  predicate ValidAge(v: Js) {
    v.JNum? && 18 <= v.n <= 100
  }

  predicate ValidRegion(v: Js) {
    v.JStr? && |v.s| <= 10
  }

  /** `isValidChild`: an object whose `age` is a number from 0 to 25 and whose `isCohabiting` is a boolean. */
  predicate IsValidChild(child: Js) {
    (child.JObj? || child.JArr?)
    && Prop(child, "age").JNum? && 0 <= Prop(child, "age").n <= 25
    && Prop(child, "isCohabiting").JBool?
  }

  /** The `for (const child of children)` check: the first invalid child ends it. */
  method ValidateChildren(children: seq<Js>) returns (ok: bool)
    ensures ok <==> forall i :: 0 <= i < |children| ==> IsValidChild(children[i])
  {
    for i := 0 to |children|
      invariant forall k :: 0 <= k < i ==> IsValidChild(children[k])
    {
      if !IsValidChild(children[i]) {
        return false;
      }
    }
    return true;
  }

  /** The `for (const event of plannedEvents)` check. */
  method ValidateEvents(events: seq<Js>) returns (ok: bool)
    ensures ok <==> forall i :: 0 <= i < |events| ==> IsEnumValue(events[i], PlannedEvents)
  {
    for i := 0 to |events|
      invariant forall k :: 0 <= k < i ==> IsEnumValue(events[k], PlannedEvents)
    {
      if !IsEnumValue(events[i], PlannedEvents) {
        return false;
      }
    }
    return true;
  }

  // ---------------------------------------------------------------------------
  // Profiles and replies

  /** A stored profile; the values are as the client sent them, after the checks. */
  datatype Profile = Profile(
    userId: string, age: Js, employmentType: Js, residenceType: Js, region: Js, householdType: Js,
    hasSpouse: Js, children: Js, plannedEvents: Js, email: Js, emailNotificationEnabled: Js,
    onboardingCompleted: Js, createdAt: int, updatedAt: int)

  const AgeMessage := "年齢は18歳以上100歳以下で入力してください"
  const EmploymentMessage := "無効な働き方が選択されています"
  const ResidenceMessage := "無効な住まい状況が選択されています"
  const RegionMessage := "無効な地域が入力されています"
  const HouseholdMessage := "無効な世帯構成が選択されています"
  const ChildrenMessage := "子供の情報が無効です"
  const TooManyChildrenMessage := "子供の人数は10人以下にしてください"
  const EventsMessage := "予定の情報が無効です"
  const EventMessage := "無効な予定が選択されています"
  const EmailMessage := "メールアドレスの形式が無効です"

  datatype Response =
    | Unauthorized
    | InternalError
    | Invalid(field: string, message: string)
    | NotFound
    | NotStarted
    | Found(profile: Profile)
    | Saved(profile: Profile)
    | Updated(profile: Profile)

  function Status(r: Response): int {
    match r
    case Unauthorized => 401
    case InternalError => 500
    case Invalid(_, _) => 400
    case NotFound => 404
    case _ => 200
  }

  /** What every stored profile satisfies after the checks of `POST` and `PATCH`. */
  predicate Sound(p: Profile) {
    && (p.age == JNull || ValidAge(p.age))
    && (p.employmentType == JNull || IsEnumValue(p.employmentType, EmploymentTypes))
    && (p.residenceType == JNull || IsEnumValue(p.residenceType, ResidenceTypes))
    && (p.region == JNull || ValidRegion(p.region))
    && (p.householdType == JNull || IsEnumValue(p.householdType, HouseholdTypes))
    && p.children.JArr? && |p.children.items| <= 10
    && (forall i :: 0 <= i < |p.children.items| ==> IsValidChild(p.children.items[i]))
    && p.plannedEvents.JArr?
    && (forall i :: 0 <= i < |p.plannedEvents.items| ==> IsEnumValue(p.plannedEvents.items[i], PlannedEvents))
    && IsValidEmail(p.email)
  }

  // ---------------------------------------------------------------------------
  // POST

  /** The checks of the single-valued fields, in order: age, employment type, residence type, region, household type. */
  function FieldError(body: Js): (r: Option<Response>)
    ensures r.Some? ==> Status(r.value) == 400
  {
    var age, employment, residence := Prop(body, "age"), Prop(body, "employmentType"), Prop(body, "residenceType");
    var region, household := Prop(body, "region"), Prop(body, "householdType");
    if Given(age) && !ValidAge(age) then Some(Invalid("age", AgeMessage))
    else if Given(employment) && !IsEnumValue(employment, EmploymentTypes) then Some(Invalid("employmentType", EmploymentMessage))
    else if Given(residence) && !IsEnumValue(residence, ResidenceTypes) then Some(Invalid("residenceType", ResidenceMessage))
    else if Given(region) && !ValidRegion(region) then Some(Invalid("region", RegionMessage))
    else if Given(household) && !IsEnumValue(household, HouseholdTypes) then Some(Invalid("householdType", HouseholdMessage))
    else None
  }

  /** The check of `children`: absent, or an array of at most 10 valid children. */
  function ChildrenError(children: Js): (r: Option<Response>)
    ensures r.Some? ==> Status(r.value) == 400
  {
    if children == JUndefined then None
    else if !children.JArr? then Some(Invalid("children", ChildrenMessage))
    else if |children.items| > 10 then Some(Invalid("children", TooManyChildrenMessage))
    else if exists i :: 0 <= i < |children.items| && !IsValidChild(children.items[i]) then Some(Invalid("children", ChildrenMessage))
    else None
  }

  /** The check of `plannedEvents`: absent, or an array of planned events. */
  function EventsError(events: Js): (r: Option<Response>)
    ensures r.Some? ==> Status(r.value) == 400
  {
    if events == JUndefined then None
    else if !events.JArr? then Some(Invalid("plannedEvents", EventsMessage))
    else if exists i :: 0 <= i < |events.items| && !IsEnumValue(events.items[i], PlannedEvents) then
      Some(Invalid("plannedEvents", EventMessage))
    else None
  }

  /** The check of `email`: absent, empty or valid. */
  function EmailError(email: Js): (r: Option<Response>)
    ensures r.Some? ==> Status(r.value) == 400
  {
    if Given(email) && email != JStr("") && !IsValidEmail(email) then Some(Invalid("email", EmailMessage)) else None
  }

  /** The first check of `POST` that a body fails, in the order the handler makes them. */
  function PostError(body: Js): (r: Option<Response>)
    ensures r.Some? ==> Status(r.value) == 400
  {
    if FieldError(body).Some? then FieldError(body)
    else if ChildrenError(Prop(body, "children")).Some? then ChildrenError(Prop(body, "children"))
    else if EventsError(Prop(body, "plannedEvents")).Some? then EventsError(Prop(body, "plannedEvents"))
    else EmailError(Prop(body, "email"))
  }

  /** The checks of `age`, `employmentType`, `residenceType`, `region` and `householdType`, in that order. */
  method CheckFields(b: Js) returns (e: Option<Response>)
    ensures e == FieldError(b)
  {
    var age, employment, residence := Prop(b, "age"), Prop(b, "employmentType"), Prop(b, "residenceType");
    var region, household := Prop(b, "region"), Prop(b, "householdType");
    if age != JNull && age != JUndefined && !ValidAge(age) {
      return Some(Invalid("age", AgeMessage));
    }
    if employment != JNull && employment != JUndefined && !IsEnumValue(employment, EmploymentTypes) {
      return Some(Invalid("employmentType", EmploymentMessage));
    }
    if residence != JNull && residence != JUndefined && !IsEnumValue(residence, ResidenceTypes) {
      return Some(Invalid("residenceType", ResidenceMessage));
    }
    if region != JNull && region != JUndefined && !ValidRegion(region) {
      return Some(Invalid("region", RegionMessage));
    }
    if household != JNull && household != JUndefined && !IsEnumValue(household, HouseholdTypes) {
      return Some(Invalid("householdType", HouseholdMessage));
    }
    return None;
  }

  /** The check of `children`: an array, of at most 10 entries, each checked in turn. */
  method CheckChildren(children: Js) returns (e: Option<Response>)
    ensures e == ChildrenError(children)
  {
    if children != JUndefined {
      if !children.JArr? {
        return Some(Invalid("children", ChildrenMessage));
      }
      if |children.items| > 10 {
        return Some(Invalid("children", TooManyChildrenMessage));
      }
      var ok := ValidateChildren(children.items);
      if !ok {
        return Some(Invalid("children", ChildrenMessage));
      }
    }
    return None;
  }

  /** The check of `plannedEvents`: an array, each entry checked in turn. */
  method CheckEvents(events: Js) returns (e: Option<Response>)
    ensures e == EventsError(events)
  {
    if events != JUndefined {
      if !events.JArr? {
        return Some(Invalid("plannedEvents", EventsMessage));
      }
      var ok := ValidateEvents(events.items);
      if !ok {
        return Some(Invalid("plannedEvents", EventMessage));
      }
    }
    return None;
  }

  /** The validation of `POST`, check by check; the first failure is the answer. */
  method CheckBody(b: Js) returns (e: Option<Response>)
    ensures e == PostError(b)
  {
    e := CheckFields(b);
    if e.Some? {
      return;
    }
    e := CheckChildren(Prop(b, "children"));
    if e.Some? {
      return;
    }
    e := CheckEvents(Prop(b, "plannedEvents"));
    if e.Some? {
      return;
    }
    var email := Prop(b, "email");
    if email != JUndefined && email != JNull && email != JStr("") {
      if !IsValidEmail(email) {
        return Some(Invalid("email", EmailMessage));
      }
    }
    return None;
  }

  /** The profile `POST` stores: each field as given or its default, `createdAt` kept from an earlier profile. */
  function NewProfile(existing: Option<Profile>, body: Js, now: int): Profile {
    Profile(
      DemoUserId,
      Coalesce(Prop(body, "age"), JNull), Coalesce(Prop(body, "employmentType"), JNull),
      Coalesce(Prop(body, "residenceType"), JNull), Coalesce(Prop(body, "region"), JNull),
      Coalesce(Prop(body, "householdType"), JNull), Coalesce(Prop(body, "hasSpouse"), JBool(false)),
      Coalesce(Prop(body, "children"), JArr([])), Coalesce(Prop(body, "plannedEvents"), JArr([])),
      Coalesce(Prop(body, "email"), JStr("")), Coalesce(Prop(body, "emailNotificationEnabled"), JBool(false)),
      Coalesce(Prop(body, "onboardingCompleted"), JBool(false)),
      if existing.Some? then existing.value.createdAt else now, now)
  }

  /** The profiles after a `POST` and its answer. */
  function PostSpec(profiles: map<string, Profile>, hasSession: bool, body: Option<Js>, now: int)
    : (map<string, Profile>, Response)
  {
    if !hasSession then (profiles, Unauthorized)
    else if body.None? || body.value == JNull then (profiles, InternalError)
    else if PostError(body.value).Some? then (profiles, PostError(body.value).value)
    else
      var existing := if DemoUserId in profiles then Some(profiles[DemoUserId]) else None;
      var p := NewProfile(existing, body.value, now);
      (profiles[DemoUserId := p], Saved(p))
  }

  /** Every single-valued field given is valid: an age from 18 to 100, values of their enumerations, a region of at most 10 characters. */
  predicate FieldsOk(body: Js) {
    && (Given(Prop(body, "age")) ==> ValidAge(Prop(body, "age")))
    && (Given(Prop(body, "employmentType")) ==> IsEnumValue(Prop(body, "employmentType"), EmploymentTypes))
    && (Given(Prop(body, "residenceType")) ==> IsEnumValue(Prop(body, "residenceType"), ResidenceTypes))
    && (Given(Prop(body, "region")) ==> ValidRegion(Prop(body, "region")))
    && (Given(Prop(body, "householdType")) ==> IsEnumValue(Prop(body, "householdType"), HouseholdTypes))
  }

  lemma FieldErrorSpec(body: Js)
    ensures FieldError(body).None? <==> FieldsOk(body)
  {
  }

  /** Children, when given, are an array of at most 10 valid children. */
  lemma ChildrenErrorSpec(children: Js)
    ensures ChildrenError(children).None? <==> (children != JUndefined ==>
      children.JArr? && |children.items| <= 10 && forall i :: 0 <= i < |children.items| ==> IsValidChild(children.items[i]))
  {
  }

  /** Planned events, when given, are an array of values of the enumeration. */
  lemma EventsErrorSpec(events: Js)
    ensures EventsError(events).None? <==> (events != JUndefined ==>
      events.JArr? && forall i :: 0 <= i < |events.items| ==> IsEnumValue(events.items[i], PlannedEvents))
  {
  }

  /** An address passes iff it is falsy or its text has the shape of the pattern. */
  lemma EmailErrorSpec(email: Js)
    ensures EmailError(email).None? <==> !Truthy(email) || EmailShape(JsString(email))
  {
    if Truthy(email) {
      EmailTestSpec(JsString(email));
    }
  }

  /**
   * A body passes the checks of `POST` exactly when every field given is
   * valid: the single-valued fields, at most 10 valid children, valid planned
   * events, and an e-mail address that is empty or matches the pattern.
   */
  lemma PostErrorSpec(body: Js)
    ensures PostError(body).None? <==> (
      && FieldsOk(body)
      && (Prop(body, "children") != JUndefined ==>
            Prop(body, "children").JArr? && |Prop(body, "children").items| <= 10
            && forall i :: 0 <= i < |Prop(body, "children").items| ==> IsValidChild(Prop(body, "children").items[i]))
      && (Prop(body, "plannedEvents") != JUndefined ==>
            Prop(body, "plannedEvents").JArr?
            && forall i :: 0 <= i < |Prop(body, "plannedEvents").items| ==>
                 IsEnumValue(Prop(body, "plannedEvents").items[i], PlannedEvents))
      && (!Truthy(Prop(body, "email")) || EmailShape(JsString(Prop(body, "email")))))
  {
    FieldErrorSpec(body);
    ChildrenErrorSpec(Prop(body, "children"));
    EventsErrorSpec(Prop(body, "plannedEvents"));
    EmailErrorSpec(Prop(body, "email"));
  }

  /** A profile stored by `POST` satisfies every field rule. */
  lemma PostStoresSound(existing: Option<Profile>, body: Js, now: int)
    requires PostError(body).None?
    ensures Sound(NewProfile(existing, body, now))
  {
    var p := NewProfile(existing, body, now);
    assert FieldsOk(body) by { FieldErrorSpec(body); }
    assert p.children.JArr? && |p.children.items| <= 10
      && forall i :: 0 <= i < |p.children.items| ==> IsValidChild(p.children.items[i])
    by {
      ChildrenErrorSpec(Prop(body, "children"));
    }
    assert p.plannedEvents.JArr?
      && forall i :: 0 <= i < |p.plannedEvents.items| ==> IsEnumValue(p.plannedEvents.items[i], PlannedEvents)
    by {
      EventsErrorSpec(Prop(body, "plannedEvents"));
    }
  }

  /**
   * A body without fields stores the empty profile: no age, types or region,
   * no spouse, children or plans, no address, both flags off, created now
   * unless a profile existed.
   */
  lemma PostDefaults(existing: Option<Profile>, now: int)
    ensures PostError(JObj([])).None?
    ensures NewProfile(existing, JObj([]), now) == Profile(
      DemoUserId, JNull, JNull, JNull, JNull, JNull, JBool(false), JArr([]), JArr([]), JStr(""),
      JBool(false), JBool(false), if existing.Some? then existing.value.createdAt else now, now)
  {
  }

  // ---------------------------------------------------------------------------
  // PATCH

  /** `key in body`, for a body that is an object. */
  predicate HasKey(body: Js, key: string) {
    body.JObj? && key in KeysOf(body.fields)
  }

  /** The first check of `PATCH` that a body fails. */
  function PatchError(body: Js): (r: Option<Response>)
    ensures r.Some? ==> Status(r.value) == 400
  {
    var age, employment, email := Prop(body, "age"), Prop(body, "employmentType"), Prop(body, "email");
    if HasKey(body, "age") && age != JNull && !ValidAge(age) then Some(Invalid("age", AgeMessage))
    else if HasKey(body, "employmentType") && employment != JNull && !IsEnumValue(employment, EmploymentTypes) then
      Some(Invalid("employmentType", EmploymentMessage))
    else if HasKey(body, "email") && !IsValidEmail(email) then Some(Invalid("email", EmailMessage))
    else None
  }

  /** The checks of `PATCH`, each made only for a field the body names. */
  method CheckPatch(b: Js) returns (e: Option<Response>)
    ensures e == PatchError(b)
  {
    if HasKey(b, "age") {
      var age := Prop(b, "age");
      if age != JNull && !ValidAge(age) {
        return Some(Invalid("age", AgeMessage));
      }
    }
    if HasKey(b, "employmentType") {
      var employment := Prop(b, "employmentType");
      if employment != JNull && !IsEnumValue(employment, EmploymentTypes) {
        return Some(Invalid("employmentType", EmploymentMessage));
      }
    }
    if HasKey(b, "email") {
      var email := Prop(b, "email");
      if Truthy(email) && !IsValidEmail(email) {
        return Some(Invalid("email", EmailMessage));
      }
    }
    return None;
  }

  /** `{ ...existingProfile, ...updates, updatedAt: now }`. */
  function Patched(p: Profile, body: Js, now: int): Profile {
    p.(
      age := if HasKey(body, "age") then Prop(body, "age") else p.age,
      employmentType := if HasKey(body, "employmentType") then Prop(body, "employmentType") else p.employmentType,
      email := if HasKey(body, "email") then Coalesce(Prop(body, "email"), JStr("")) else p.email,
      emailNotificationEnabled :=
        if HasKey(body, "emailNotificationEnabled") then JBool(Truthy(Prop(body, "emailNotificationEnabled")))
        else p.emailNotificationEnabled,
      onboardingCompleted :=
        if HasKey(body, "onboardingCompleted") then JBool(Truthy(Prop(body, "onboardingCompleted")))
        else p.onboardingCompleted,
      updatedAt := now)
  }

  /**
   * The profiles after a `PATCH` and its answer: the profile is looked up
   * before the body is read, and `key in body` throws for a body that is not
   * an object.
   */
  function PatchSpec(profiles: map<string, Profile>, hasSession: bool, body: Option<Js>, now: int)
    : (map<string, Profile>, Response)
  {
    if !hasSession then (profiles, Unauthorized)
    else if DemoUserId !in profiles then (profiles, NotFound)
    else if body.None? || !(body.value.JObj? || body.value.JArr?) then (profiles, InternalError)
    else if PatchError(body.value).Some? then (profiles, PatchError(body.value).value)
    else
      var p := Patched(profiles[DemoUserId], body.value, now);
      (profiles[DemoUserId := p], Updated(p))
  }

  /**
   * `PATCH` changes only the age, the employment type, the address and the
   * two flags, each only when the body names it, and stamps `updatedAt`;
   * every other field is kept.
   */
  lemma PatchFrame(p: Profile, body: Js, now: int)
    ensures var q := Patched(p, body, now);
      && q.userId == p.userId && q.residenceType == p.residenceType && q.region == p.region
      && q.householdType == p.householdType && q.hasSpouse == p.hasSpouse && q.children == p.children
      && q.plannedEvents == p.plannedEvents && q.createdAt == p.createdAt && q.updatedAt == now
      && (!HasKey(body, "age") ==> q.age == p.age)
      && (!HasKey(body, "employmentType") ==> q.employmentType == p.employmentType)
      && (!HasKey(body, "email") ==> q.email == p.email)
      && (!HasKey(body, "emailNotificationEnabled") ==> q.emailNotificationEnabled == p.emailNotificationEnabled)
      && (!HasKey(body, "onboardingCompleted") ==> q.onboardingCompleted == p.onboardingCompleted)
      && (HasKey(body, "emailNotificationEnabled") ==> q.emailNotificationEnabled.JBool?)
      && (HasKey(body, "onboardingCompleted") ==> q.onboardingCompleted.JBool?)
  {
  }

  /** A `PATCH` that passes its checks keeps a sound profile sound. */
  lemma PatchKeepsSound(p: Profile, body: Js, now: int)
    requires Sound(p) && PatchError(body).None?
    ensures Sound(Patched(p, body, now))
  {
  }

  // ---------------------------------------------------------------------------
  // The handlers

  /** Every stored profile is the demo user's and satisfies the field rules. */
  ghost predicate AllSound(profiles: map<string, Profile>) {
    forall id :: id in profiles ==> id == DemoUserId && Sound(profiles[id])
  }

  lemma StoreKeepsValid(profiles: map<string, Profile>, p: Profile)
    requires AllSound(profiles) && Sound(p)
    ensures AllSound(profiles[DemoUserId := p])
  {
  }

  /** `ONBOARDING_PROFILES` and the three handlers. */
  class OnboardingProfiles {
    var profiles: map<string, Profile>

    /** Every stored profile satisfies the field rules and is the demo user's. */
    ghost predicate Valid()
      reads this
    {
      AllSound(profiles)
    }

    constructor()
      ensures Valid() && profiles == map[]
    {
      profiles := map[];
    }

    /** `GET`: 401 without a session cookie, "not completed" without a profile, otherwise the profile. */
    method Get(hasSession: bool) returns (r: Response)
      requires Valid()
      ensures !hasSession ==> r == Unauthorized
      ensures hasSession && DemoUserId !in profiles ==> r == NotStarted
      ensures hasSession && DemoUserId in profiles ==> r == Found(profiles[DemoUserId]) && Sound(r.profile)
    {
      if !hasSession {
        return Unauthorized;
      }
      if DemoUserId !in profiles {
        return NotStarted;
      }
      r := Found(profiles[DemoUserId]);
    }

    /** `POST`, at time `now`, with the body as parsed JSON (`None` when it is not JSON). */
    method Post(hasSession: bool, body: Option<Js>, now: int) returns (r: Response)
      requires Valid()
      modifies this
      ensures Valid()
      ensures (profiles, r) == PostSpec(old(profiles), hasSession, body, now)
    {
      if !hasSession {
        return Unauthorized;
      }
      if body.None? || body.value == JNull {
        return InternalError;
      }
      var b := body.value;
      var e := CheckBody(b);
      if e.Some? {
        return e.value;
      }
      var existing := if DemoUserId in profiles then Some(profiles[DemoUserId]) else None;
      var p := NewProfile(existing, b, now);
      PostStoresSound(existing, b, now);
      StoreKeepsValid(profiles, p);
      profiles := profiles[DemoUserId := p];
      r := Saved(p);
    }

    /** `PATCH`, at time `now`. */
    method Patch(hasSession: bool, body: Option<Js>, now: int) returns (r: Response)
      requires Valid()
      modifies this
      ensures Valid()
      ensures (profiles, r) == PatchSpec(old(profiles), hasSession, body, now)
    {
      if !hasSession {
        return Unauthorized;
      }
      if DemoUserId !in profiles {
        return NotFound;
      }
      var existing := profiles[DemoUserId];
      if body.None? || !(body.value.JObj? || body.value.JArr?) {
        return InternalError;
      }
      var b := body.value;
      var e := CheckPatch(b);
      if e.Some? {
        return e.value;
      }
      var p := Patched(existing, b, now);
      PatchKeepsSound(existing, b, now);
      StoreKeepsValid(profiles, p);
      profiles := profiles[DemoUserId := p];
      r := Updated(p);
    }
  }
}
