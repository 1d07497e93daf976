/**
 * The client-side application store: the signed-in user and their profile,
 * the demo password check (`simpleHash`, a 32-bit string hash rendered in
 * base 36), the security and notification settings, the list of next actions
 * and the notifications. The store is a class whose fields the actions
 * replace; the clock, the random id and the browser's user agent are inputs.
 */
module AppStore {
  import opened Common

  // ---------------------------------------------------------------------------
  // Records

  /** A user profile. `financialInfo` is carried as an uninterpreted JSON value. */
  datatype UserProfile = UserProfile(
    id: string, name: string, email: string, birthDate: string, gender: string,
    prefecture: string, city: string, occupation: string, annualIncome: int,
    householdSize: int, maritalStatus: string, hasChildren: bool, numberOfChildren: int,
    childrenAges: seq<int>, housingType: string, futurePlans: seq<string>, goals: seq<string>,
    favoriteAnimal: string, financialInfo: Option<Js>, createdAt: string, updatedAt: string)

  /** `Partial<UserProfile>`: a field is either absent (`None`) or carries its new value. */
  datatype ProfileUpdate = ProfileUpdate(
    id: Option<string>, name: Option<string>, email: Option<string>, birthDate: Option<string>,
    gender: Option<string>, prefecture: Option<string>, city: Option<string>, occupation: Option<string>,
    annualIncome: Option<int>, householdSize: Option<int>, maritalStatus: Option<string>,
    hasChildren: Option<bool>, numberOfChildren: Option<int>, childrenAges: Option<seq<int>>,
    housingType: Option<string>, futurePlans: Option<seq<string>>, goals: Option<seq<string>>,
    favoriteAnimal: Option<string>, financialInfo: Option<Js>, createdAt: Option<string>,
    updatedAt: Option<string>)

  const NoProfileChange := ProfileUpdate(None, None, None, None, None, None, None, None, None, None, None,
                                         None, None, None, None, None, None, None, None, None, None)

  /** `{ ...p, ...u }`: the fields `u` carries replace those of `p`. */
  function MergeProfile(p: UserProfile, u: ProfileUpdate): UserProfile {
    UserProfile(
      u.id.GetOr(p.id), u.name.GetOr(p.name), u.email.GetOr(p.email), u.birthDate.GetOr(p.birthDate),
      u.gender.GetOr(p.gender), u.prefecture.GetOr(p.prefecture), u.city.GetOr(p.city),
      u.occupation.GetOr(p.occupation), u.annualIncome.GetOr(p.annualIncome),
      u.householdSize.GetOr(p.householdSize), u.maritalStatus.GetOr(p.maritalStatus),
      u.hasChildren.GetOr(p.hasChildren), u.numberOfChildren.GetOr(p.numberOfChildren),
      u.childrenAges.GetOr(p.childrenAges), u.housingType.GetOr(p.housingType),
      u.futurePlans.GetOr(p.futurePlans), u.goals.GetOr(p.goals), u.favoriteAnimal.GetOr(p.favoriteAnimal),
      if u.financialInfo.Some? then u.financialInfo else p.financialInfo,
      u.createdAt.GetOr(p.createdAt), u.updatedAt.GetOr(p.updatedAt))
  }

  /** The update that carries every field of `p`. */
  function Whole(p: UserProfile): ProfileUpdate {
    ProfileUpdate(
      Some(p.id), Some(p.name), Some(p.email), Some(p.birthDate), Some(p.gender), Some(p.prefecture),
      Some(p.city), Some(p.occupation), Some(p.annualIncome), Some(p.householdSize), Some(p.maritalStatus),
      Some(p.hasChildren), Some(p.numberOfChildren), Some(p.childrenAges), Some(p.housingType),
      Some(p.futurePlans), Some(p.goals), Some(p.favoriteAnimal), p.financialInfo, Some(p.createdAt),
      Some(p.updatedAt))
  }

  /**
   * Spreading an update: an empty one changes nothing, applying one twice is
   * applying it once, and one carrying every field of `q` yields `q` (when `q`
   * has financial information; otherwise the old one is kept).
   */
  lemma MergeProfileSpec(p: UserProfile, u: ProfileUpdate, q: UserProfile)
    ensures MergeProfile(p, NoProfileChange) == p
    ensures MergeProfile(MergeProfile(p, u), u) == MergeProfile(p, u)
    ensures q.financialInfo.Some? ==> MergeProfile(p, Whole(q)) == q
    ensures MergeProfile(p, Whole(q)).email == q.email && MergeProfile(p, u).email == u.email.GetOr(p.email)
  {
  }

  datatype LoginHistoryEntry = LoginHistoryEntry(
    id: string, timestamp: string, ipAddress: string, userAgent: string, location: string, success: bool)

  datatype TrustedDevice = TrustedDevice(
    id: string, name: string, browser: string, os: string, lastUsed: string, isCurrent: bool)

  datatype SecuritySettings = SecuritySettings(
    mfaEnabled: bool, mfaMethod: Option<string>, mfaVerified: bool, passkeyEnabled: bool,
    passkeyRegistered: bool, lastPasswordChange: Option<string>,
    loginHistory: seq<LoginHistoryEntry>, trustedDevices: seq<TrustedDevice>)

  /** `Partial<SecuritySettings>`; the nullable fields take `Some(None)` to be set to null. */
  datatype SecurityUpdate = SecurityUpdate(
    mfaEnabled: Option<bool>, mfaMethod: Option<Option<string>>, mfaVerified: Option<bool>,
    passkeyEnabled: Option<bool>, passkeyRegistered: Option<bool>,
    lastPasswordChange: Option<Option<string>>, loginHistory: Option<seq<LoginHistoryEntry>>,
    trustedDevices: Option<seq<TrustedDevice>>)

  function MergeSecurity(s: SecuritySettings, u: SecurityUpdate): (r: SecuritySettings)
    ensures u.mfaEnabled.None? && u.passkeyEnabled.None? ==> r.mfaEnabled == s.mfaEnabled && r.passkeyEnabled == s.passkeyEnabled
    ensures u.loginHistory.None? ==> r.loginHistory == s.loginHistory
  {
    SecuritySettings(
      u.mfaEnabled.GetOr(s.mfaEnabled), u.mfaMethod.GetOr(s.mfaMethod), u.mfaVerified.GetOr(s.mfaVerified),
      u.passkeyEnabled.GetOr(s.passkeyEnabled), u.passkeyRegistered.GetOr(s.passkeyRegistered),
      u.lastPasswordChange.GetOr(s.lastPasswordChange), u.loginHistory.GetOr(s.loginHistory),
      u.trustedDevices.GetOr(s.trustedDevices))
  }

  const DefaultSecurity := SecuritySettings(false, None, false, false, false, None, [], [])

  datatype NotificationSettings = NotificationSettings(
    emailNotifications: bool, pushNotifications: bool, lawChangeAlerts: bool,
    deadlineReminders: bool, weeklyDigest: bool)

  datatype NotificationUpdate = NotificationUpdate(
    emailNotifications: Option<bool>, pushNotifications: Option<bool>, lawChangeAlerts: Option<bool>,
    deadlineReminders: Option<bool>, weeklyDigest: Option<bool>)

  /** Each of the five switches takes the update's value when it carries one and keeps its own otherwise. */
  function MergeNotifications(s: NotificationSettings, u: NotificationUpdate): (r: NotificationSettings)
    ensures u.emailNotifications.Some? ==> r.emailNotifications == u.emailNotifications.value
    ensures u.emailNotifications.None? ==> r.emailNotifications == s.emailNotifications
    ensures u.weeklyDigest.Some? ==> r.weeklyDigest == u.weeklyDigest.value
    ensures u.weeklyDigest.None? ==> r.weeklyDigest == s.weeklyDigest
    ensures u == NotificationUpdate(None, None, None, None, None) ==> r == s
  {
    NotificationSettings(
      u.emailNotifications.GetOr(s.emailNotifications), u.pushNotifications.GetOr(s.pushNotifications),
      u.lawChangeAlerts.GetOr(s.lawChangeAlerts), u.deadlineReminders.GetOr(s.deadlineReminders),
      u.weeklyDigest.GetOr(s.weeklyDigest))
  }

  const DefaultNotifications := NotificationSettings(true, true, true, true, false)

  datatype Priority = High | Medium | Low

  datatype NextAction = NextAction(
    id: string, title: string, description: string, dueDate: Option<string>, priority: Priority,
    category: string, relatedBenefitId: Option<string>, completed: bool, createdAt: string)

  /** `Partial<NextAction>`. */
  datatype ActionUpdate = ActionUpdate(
    id: Option<string>, title: Option<string>, description: Option<string>, dueDate: Option<Option<string>>,
    priority: Option<Priority>, category: Option<string>, relatedBenefitId: Option<Option<string>>,
    completed: Option<bool>, createdAt: Option<string>)

  function MergeAction(a: NextAction, u: ActionUpdate): NextAction {
    NextAction(
      u.id.GetOr(a.id), u.title.GetOr(a.title), u.description.GetOr(a.description), u.dueDate.GetOr(a.dueDate),
      u.priority.GetOr(a.priority), u.category.GetOr(a.category), u.relatedBenefitId.GetOr(a.relatedBenefitId),
      u.completed.GetOr(a.completed), u.createdAt.GetOr(a.createdAt))
  }

  datatype Notification = Notification(
    id: string, kind: string, title: string, message: string, read: bool, createdAt: string,
    actionUrl: Option<string>)

  // ---------------------------------------------------------------------------
  // simpleHash

  const TwoTo32: int := 0x1_0000_0000

  /** ECMAScript ToInt32: the value modulo 2^32, read as a signed 32-bit integer. */
  function Int32(x: int): (r: int)
    ensures -0x8000_0000 <= r < 0x8000_0000
    ensures (r - x) % 0x1_0000_0000 == 0
  {
    var m := x % 0x1_0000_0000;
    if m >= 0x8000_0000 then m - 0x1_0000_0000 else m
  }

  lemma Int32Congruent(a: int, b: int)
    requires (a - b) % 0x1_0000_0000 == 0
    ensures Int32(a) == Int32(b)
  {
    var k := (a - b) / 0x1_0000_0000;
    assert a == b + 0x1_0000_0000 * k;
    assert a % 0x1_0000_0000 == b % 0x1_0000_0000;
  }

  /** One step of the hash: `h * 31 + c`, truncated to 32 bits. */
  function HashStep(h: int, c: char): int {
    Int32(31 * h + c as int)
  }

  /** The hash of a string: the step folded from 0 over its code units, left to right. */
  function HashOf(s: string): (r: int)
    ensures -0x8000_0000 <= r < 0x8000_0000
    decreases |s|
  {
    if |s| == 0 then 0 else HashStep(HashOf(s[..|s| - 1]), s[|s| - 1])
  }

  /**
   * What the loop computes: `(h << 5) - h + c` followed by `h & h`, on a
   * 32-bit `h`, is the 32-bit truncation of `31 * h + c`.
   */
  lemma ShiftStep(h: int, c: char)
    requires -0x8000_0000 <= h < 0x8000_0000
    ensures Int32(Int32(h * 32) - h + c as int) == HashStep(h, c)
  {
    var s := Int32(h * 32);
    assert (s - h * 32) % 0x1_0000_0000 == 0;
    assert (s - h + c as int) - (31 * h + c as int) == s - h * 32;
    Int32Congruent(s - h + c as int, 31 * h + c as int);
  }

  predicate IsBase36Digit(c: char) {
    ('0' <= c <= '9') || ('a' <= c <= 'z')
  }

  function Digit36(d: nat): (c: char)
    requires d < 36
    ensures IsBase36Digit(c)
  {
    if d < 10 then ('0' as int + d) as char else ('a' as int + d - 10) as char
  }

  function DigitValue36(c: char): nat {
    if '0' <= c <= '9' then c as int - '0' as int
    else if 'a' <= c <= 'z' then c as int - 'a' as int + 10
    else 0
  }

  /** The base-36 digits of `n`, most significant first, without leading zeros. */
  function Digits36(n: nat): (r: string)
    ensures |r| >= 1 && (forall i :: 0 <= i < |r| ==> IsBase36Digit(r[i]))
    ensures |r| > 1 ==> r[0] != '0'
    decreases n
  {
    if n < 36 then [Digit36(n)] else Digits36(n / 36) + [Digit36(n % 36)]
  }

  /** `Number.prototype.toString(36)` on an integer: a minus sign for negatives, then the digits. */
  function ToBase36(n: int): string {
    if n < 0 then "-" + Digits36(-n) else Digits36(n)
  }

  function ParseDigits36(s: string): int
    decreases |s|
  {
    if |s| == 0 then 0 else 36 * ParseDigits36(s[..|s| - 1]) + DigitValue36(s[|s| - 1])
  }

  /** Reading a base-36 numeral back, as `parseInt(s, 36)` does for these strings. */
  function ParseBase36(s: string): int {
    if |s| > 0 && s[0] == '-' then -ParseDigits36(s[1..]) else ParseDigits36(s)
  }

  lemma {:induction false} DigitsRoundTrip(n: nat)
    ensures ParseDigits36(Digits36(n)) == n
    decreases n
  {
    if n >= 36 {
      var s := Digits36(n / 36);
      var r := s + [Digit36(n % 36)];
      assert r[..|r| - 1] == s;
      DigitsRoundTrip(n / 36);
      assert DigitValue36(Digit36(n % 36)) == n % 36;
    } else {
      assert DigitValue36(Digit36(n)) == n;
    }
  }

  /** The base-36 rendering loses nothing: different hashes give different strings. */
  lemma Base36RoundTrip(n: int)
    ensures ParseBase36(ToBase36(n)) == n
  {
    if n < 0 {
      var d := Digits36(-n);
      assert ("-" + d)[0] == '-' && ("-" + d)[1..] == d;
      DigitsRoundTrip(-n);
      assert ParseBase36(ToBase36(n)) == -ParseDigits36(d);
    } else {
      var d := Digits36(n);
      assert IsBase36Digit(d[0]);
      DigitsRoundTrip(n);
      assert ParseBase36(ToBase36(n)) == ParseDigits36(d);
    }
  }

  /** What `simpleHash(str)` returns. */
  function SimpleHashOf(s: string): string {
    ToBase36(HashOf(s))
  }

  /** `simpleHash(str)`: the loop over the code units, then the base-36 rendering. */
  method SimpleHash(str: string) returns (r: string)
    ensures r == SimpleHashOf(str)
    ensures ParseBase36(r) == HashOf(str)
  {
    var hash := 0;
    for i := 0 to |str|
      invariant hash == HashOf(str[..i])
    {
      var c := str[i];
      assert str[..i + 1][..i] == str[..i];
      ShiftStep(hash, c);
      hash := Int32(Int32(hash * 32) - hash + c as int);
    }
    assert str[..|str|] == str;
    r := ToBase36(hash);
    Base36RoundTrip(hash);
  }

  /** The hash is not injective: "Aa" and "BB" hash alike, so either one passes for the other at login. */
  lemma HashCollision()
    ensures SimpleHashOf("Aa") == SimpleHashOf("BB")
  {
    assert "Aa"[..1] == "A" && "BB"[..1] == "B";
    assert "A"[..0] == [] && "B"[..0] == [];
    assert HashOf("A") == 65 && HashOf("B") == 66;
    assert HashOf("Aa") == 2112 && HashOf("BB") == 2112;
  }

  // ---------------------------------------------------------------------------
  // The list operations behind the actions

  /** `login`'s history: the new entry in front of the first nine old ones. */
  function PushHistory(entry: LoginHistoryEntry, history: seq<LoginHistoryEntry>): (r: seq<LoginHistoryEntry>)
    ensures 1 <= |r| <= 10 && r[0] == entry
    ensures |r| == Min(10, |history| + 1)
    ensures r[1..] == history[..|r| - 1]
  {
    [entry] + history[..Min(9, |history|)]
  }

  /** `nextActions.map(a => a.id === id ? { ...a, ...updates } : a)`. */
  function UpdateWhere(actions: seq<NextAction>, id: string, u: ActionUpdate): (r: seq<NextAction>)
    ensures |r| == |actions|
    ensures forall i :: 0 <= i < |r| && actions[i].id != id ==> r[i] == actions[i]
    ensures forall i :: 0 <= i < |r| && actions[i].id == id ==> r[i] == MergeAction(actions[i], u)
    decreases |actions|
  {
    if |actions| == 0 then []
    else [if actions[0].id == id then MergeAction(actions[0], u) else actions[0]] + UpdateWhere(actions[1..], id, u)
  }

  /** `nextActions.filter(a => a.id !== id)`. */
  function RemoveWhere(actions: seq<NextAction>, id: string): (r: seq<NextAction>)
    ensures forall a :: a in r <==> a in actions && a.id != id
    ensures |r| <= |actions|
    ensures (forall a :: a in actions ==> a.id != id) ==> r == actions
    decreases |actions|
  {
    if |actions| == 0 then []
    else if actions[0].id == id then RemoveWhere(actions[1..], id)
    else [actions[0]] + RemoveWhere(actions[1..], id)
  }

  /** `toggleActionComplete`: flips `completed` on the entries with the id. */
  function ToggleWhere(actions: seq<NextAction>, id: string): (r: seq<NextAction>)
    ensures |r| == |actions|
    ensures forall i :: 0 <= i < |r| ==>
      r[i] == if actions[i].id == id then actions[i].(completed := !actions[i].completed) else actions[i]
    decreases |actions|
  {
    if |actions| == 0 then []
    else [if actions[0].id == id then actions[0].(completed := !actions[0].completed) else actions[0]]
         + ToggleWhere(actions[1..], id)
  }

  /** Toggling the same action twice restores the list. */
  lemma ToggleTwice(actions: seq<NextAction>, id: string)
    ensures ToggleWhere(ToggleWhere(actions, id), id) == actions
  {
    var once := ToggleWhere(actions, id);
    var twice := ToggleWhere(once, id);
    assert forall i :: 0 <= i < |actions| ==> once[i].id == actions[i].id;
    assert forall i :: 0 <= i < |actions| ==> twice[i] == actions[i];
  }

  /** `markAsRead`: sets `read` on the notifications with the id. */
  function MarkRead(ns: seq<Notification>, id: string): (r: seq<Notification>)
    ensures |r| == |ns|
    ensures forall i :: 0 <= i < |r| ==> r[i] == if ns[i].id == id then ns[i].(read := true) else ns[i]
    decreases |ns|
  {
    if |ns| == 0 then []
    else [if ns[0].id == id then ns[0].(read := true) else ns[0]] + MarkRead(ns[1..], id)
  }

  /** Marking as read is idempotent, and every notification with the id is read afterwards. */
  lemma MarkReadSpec(ns: seq<Notification>, id: string)
    ensures MarkRead(MarkRead(ns, id), id) == MarkRead(ns, id)
    ensures forall n :: n in MarkRead(ns, id) && n.id == id ==> n.read
  {
    var once := MarkRead(ns, id);
    assert forall i :: 0 <= i < |ns| ==> once[i].id == ns[i].id;
  }

  // ---------------------------------------------------------------------------
  // The store

  /** A snapshot of the store's data fields. */
  datatype AppState = AppState(
    user: Option<UserProfile>, isAuthenticated: bool, password: Option<string>,
    securitySettings: SecuritySettings, notificationSettings: NotificationSettings,
    currentLifeStage: string, nextActions: seq<NextAction>, notifications: seq<Notification>,
    onboardingCompleted: bool)

  /** The demo account's password. */
  const DemoPassword: string := "demo1234"

  /** The initial state, which `resetAllData` restores. */
  const Defaults := AppState(None, false, None, DefaultSecurity, DefaultNotifications, "working_single",
                             [], [], false)

  class Store {
    var user: Option<UserProfile>
    var isAuthenticated: bool
    var password: Option<string>
    var securitySettings: SecuritySettings
    var notificationSettings: NotificationSettings
    var currentLifeStage: string
    var nextActions: seq<NextAction>
    var notifications: seq<Notification>
    var onboardingCompleted: bool

    function State(): AppState
      reads this
    {
      AppState(user, isAuthenticated, password, securitySettings, notificationSettings,
               currentLifeStage, nextActions, notifications, onboardingCompleted)
    }

    constructor()
      ensures State() == Defaults
    {
      user := None;
      isAuthenticated := false;
      password := None;
      securitySettings := DefaultSecurity;
      notificationSettings := DefaultNotifications;
      currentLifeStage := "working_single";
      nextActions := [];
      notifications := [];
      onboardingCompleted := false;
    }

    method SetUser(u: UserProfile)
      modifies this
      ensures State() == old(State()).(user := Some(u))
    {
      user := Some(u);
    }

    /** `updateUser`: merges the updates and stamps `updatedAt`; without a user nothing changes. */
    method UpdateUser(updates: ProfileUpdate, now: string)
      modifies this
      ensures old(user).None? ==> State() == old(State())
      ensures old(user).Some? ==>
        State() == old(State()).(user := Some(MergeProfile(old(user).value, updates).(updatedAt := now)))
    {
      if user.Some? {
        user := Some(MergeProfile(user.value, updates).(updatedAt := now));
      }
    }

    method SetPassword(p: string)
      modifies this
      ensures State() == old(State()).(password := Some(SimpleHashOf(p)))
    {
      var h := SimpleHash(p);
      password := Some(h);
    }

    /**
     * `login(email, password)`: succeeds exactly when a user with that email
     * is set and the stored hash is the hash of the password; then the user is
     * signed in and the attempt heads a history of at most ten entries.
     */
    method Login(email: string, pwd: string, entryId: string, now: string, userAgent: string) returns (ok: bool)
      modifies this
      ensures ok <==> old(user).Some? && old(user).value.email == email && old(password) == Some(SimpleHashOf(pwd))
      ensures !ok ==> State() == old(State())
      ensures ok ==> State() == old(State()).(
        isAuthenticated := true,
        securitySettings := old(securitySettings).(loginHistory := PushHistory(
          LoginHistoryEntry(entryId, now, "192.168.1.1", userAgent, "日本", true), old(securitySettings).loginHistory)))
    {
      var h := SimpleHash(pwd);
      if user.Some? && user.value.email == email && password == Some(h) {
        var entry := LoginHistoryEntry(entryId, now, "192.168.1.1", userAgent, "日本", true);
        isAuthenticated := true;
        securitySettings := securitySettings.(loginHistory := PushHistory(entry, securitySettings.loginHistory));
        ok := true;
      } else {
        ok := false;
      }
    }

    /** `logout` clears only the signed-in flag. */
    method Logout()
      modifies this
      ensures State() == old(State()).(isAuthenticated := false)
    {
      isAuthenticated := false;
    }

    method UpdateSecuritySettings(updates: SecurityUpdate)
      modifies this
      ensures State() == old(State()).(securitySettings := MergeSecurity(old(securitySettings), updates))
    {
      securitySettings := MergeSecurity(securitySettings, updates);
    }

    method UpdateNotificationSettings(updates: NotificationUpdate)
      modifies this
      ensures State() == old(State()).(notificationSettings := MergeNotifications(old(notificationSettings), updates))
    {
      notificationSettings := MergeNotifications(notificationSettings, updates);
    }

    method SetLifeStage(stage: string)
      modifies this
      ensures State() == old(State()).(currentLifeStage := stage)
    {
      currentLifeStage := stage;
    }

    method AddAction(a: NextAction)
      modifies this
      ensures State() == old(State()).(nextActions := old(nextActions) + [a])
    {
      nextActions := nextActions + [a];
    }

    method UpdateAction(id: string, updates: ActionUpdate)
      modifies this
      ensures State() == old(State()).(nextActions := UpdateWhere(old(nextActions), id, updates))
    {
      nextActions := UpdateWhere(nextActions, id, updates);
    }

    method RemoveAction(id: string)
      modifies this
      ensures State() == old(State()).(nextActions := RemoveWhere(old(nextActions), id))
    {
      nextActions := RemoveWhere(nextActions, id);
    }

    method ToggleActionComplete(id: string)
      modifies this
      ensures State() == old(State()).(nextActions := ToggleWhere(old(nextActions), id))
    {
      nextActions := ToggleWhere(nextActions, id);
    }

    /** `addNotification` puts the new notification first. */
    method AddNotification(n: Notification)
      modifies this
      ensures State() == old(State()).(notifications := [n] + old(notifications))
    {
      notifications := [n] + notifications;
    }

    method MarkAsRead(id: string)
      modifies this
      ensures State() == old(State()).(notifications := MarkRead(old(notifications), id))
    {
      notifications := MarkRead(notifications, id);
    }

    method ClearNotifications()
      modifies this
      ensures State() == old(State()).(notifications := [])
    {
      notifications := [];
    }

    method SetOnboardingCompleted(completed: bool)
      modifies this
      ensures State() == old(State()).(onboardingCompleted := completed)
    {
      onboardingCompleted := completed;
    }

    /**
     * `initializeMockData`: the demo profile and actions (inputs here), the
     * child-rearing stage, signed in with the password `demo1234`, and two
     * unread notifications created now.
     */
    method InitializeMockData(mockUser: UserProfile, mockActions: seq<NextAction>, now: string)
      modifies this
      ensures State() == old(State()).(
        user := Some(mockUser), nextActions := mockActions, currentLifeStage := "child_rearing",
        onboardingCompleted := true, isAuthenticated := true, password := Some(SimpleHashOf(DemoPassword)),
        notifications := MockNotifications(now))
    {
      var h := SimpleHash(DemoPassword);
      var next := State().(
        user := Some(mockUser), nextActions := mockActions, currentLifeStage := "child_rearing",
        onboardingCompleted := true, isAuthenticated := true, password := Some(h),
        notifications := MockNotifications(now));
      Load(next);
    }

    /** `resetAllData` restores every field to its initial value. */
    method ResetAllData()
      modifies this
      ensures State() == Defaults
    {
      Load(Defaults);
    }

    /** Replaces every field at once, as one `set` call does. */
    method Load(s: AppState)
      modifies this
      ensures State() == s
    {
      user, isAuthenticated, password := s.user, s.isAuthenticated, s.password;
      securitySettings, notificationSettings := s.securitySettings, s.notificationSettings;
      currentLifeStage, nextActions, notifications := s.currentLifeStage, s.nextActions, s.notifications;
      onboardingCompleted := s.onboardingCompleted;
    }
  }

  function MockNotifications(now: string): (r: seq<Notification>)
    ensures |r| == 2 && forall n :: n in r ==> !n.read && n.createdAt == now
  {
    [Notification("1", "law_change", "2025年税制改正について",
                  "2025年度の税制改正により、NISA制度の一部が変更されます。詳細をご確認ください。", false, now, None),
     Notification("2", "benefit_deadline", "ふるさと納税の締め切りが近づいています",
                  "2024年分のふるさと納税は12月31日までです。お早めに手続きをお済ませください。", false, now, None)]
  }

  /** After any number of successful logins the history holds at most ten entries, the newest first. */
  lemma {:induction false} HistoryBounded(entries: seq<LoginHistoryEntry>, history: seq<LoginHistoryEntry>)
    requires |history| <= 10
    ensures |Pushes(entries, history)| <= 10
    ensures |entries| > 0 ==> Pushes(entries, history)[0] == entries[|entries| - 1]
    decreases |entries|
  {
    if |entries| > 0 {
      HistoryBounded(entries[..|entries| - 1], history);
    }
  }

  /** The history after a sequence of successful logins, oldest first in `entries`. */
  function Pushes(entries: seq<LoginHistoryEntry>, history: seq<LoginHistoryEntry>): seq<LoginHistoryEntry>
    decreases |entries|
  {
    if |entries| == 0 then history else PushHistory(entries[|entries| - 1], Pushes(entries[..|entries| - 1], history))
  }
}
