/**
 * The notification settings route of the LifePlan Navigator: `GET` reads the
 * signed-in user's five notification toggles, creating and storing the
 * defaults when there are none, and `PUT` updates them. `PUT` works on the
 * stored settings object itself when there is one, so a toggle rejected with
 * 400 leaves the toggles assigned before it in place; defaults created for the
 * request are stored only when every toggle is accepted.
 */
module NotificationsRoute {
  import opened Common

  /** The one user a session cookie stands for. */
  const DemoUserId := "demo-user-001"

  /** The five toggles, in the order `PUT` checks them. */
  datatype Toggle = EmailNotifications | PushNotifications | LawChangeAlerts | DeadlineReminders | WeeklyDigest

  const ToggleCount := 5

  function Rank(t: Toggle): (r: nat)
    ensures r < ToggleCount
  {
    match t
    case EmailNotifications => 0
    case PushNotifications => 1
    case LawChangeAlerts => 2
    case DeadlineReminders => 3
    case WeeklyDigest => 4
  }

  function ToggleAt(i: nat): Toggle
    requires i < ToggleCount
  {
    if i == 0 then EmailNotifications
    else if i == 1 then PushNotifications
    else if i == 2 then LawChangeAlerts
    else if i == 3 then DeadlineReminders
    else WeeklyDigest
  }

  /** `Rank` numbers the toggles without gaps or repeats: `ToggleAt` undoes it, and the other way round. */
  lemma RankToggleAt(t: Toggle, i: nat)
    requires i < ToggleCount
    ensures ToggleAt(Rank(t)) == t && Rank(ToggleAt(i)) == i
  {
  }

  /** The body property a toggle is read from. */
  function Key(t: Toggle): string {
    match t
    case EmailNotifications => "emailNotifications"
    case PushNotifications => "pushNotifications"
    case LawChangeAlerts => "lawChangeAlerts"
    case DeadlineReminders => "deadlineReminders"
    case WeeklyDigest => "weeklyDigest"
  }

  /** The 400 message for a toggle that is present and not a boolean. */
  function Message(t: Toggle): string {
    match t
    case EmailNotifications => "メール通知設定が無効です"
    case PushNotifications => "プッシュ通知設定が無効です"
    case LawChangeAlerts => "法改正通知設定が無効です"
    case DeadlineReminders => "期限リマインダー設定が無効です"
    case WeeklyDigest => "週間ダイジェスト設定が無効です"
  }

  /** A user's stored settings; `updatedAt` is in milliseconds. */
  datatype Settings = Settings(
    userId: string,
    emailNotifications: bool,
    pushNotifications: bool,
    lawChangeAlerts: bool,
    deadlineReminders: bool,
    weeklyDigest: bool,
    updatedAt: int)

  /** The settings a user without stored ones gets, as of `now`: everything on except push notifications. */
  function Defaults(userId: string, now: int): (s: Settings)
    ensures s.userId == userId && s.updatedAt == now
    ensures forall t :: Flag(s, t) <==> t != PushNotifications
  {
    Settings(userId, true, false, true, true, true, now)
  }

  /** The value of toggle `t`. */
  function Flag(s: Settings, t: Toggle): bool {
    match t
    case EmailNotifications => s.emailNotifications
    case PushNotifications => s.pushNotifications
    case LawChangeAlerts => s.lawChangeAlerts
    case DeadlineReminders => s.deadlineReminders
    case WeeklyDigest => s.weeklyDigest
  }

  /** `settings.<t> = b`. */
  function SetFlag(s: Settings, t: Toggle, b: bool): (r: Settings)
    ensures Flag(r, t) == b
    ensures forall u :: u != t ==> Flag(r, u) == Flag(s, u)
    ensures r.userId == s.userId && r.updatedAt == s.updatedAt
  {
    match t
    case EmailNotifications => s.(emailNotifications := b)
    case PushNotifications => s.(pushNotifications := b)
    case LawChangeAlerts => s.(lawChangeAlerts := b)
    case DeadlineReminders => s.(deadlineReminders := b)
    case WeeklyDigest => s.(weeklyDigest := b)
  }

  /** Settings are determined by their user, their five toggles and their time stamp. */
  lemma SettingsEq(s: Settings, r: Settings)
    requires s.userId == r.userId && s.updatedAt == r.updatedAt
    requires forall t :: Flag(s, t) == Flag(r, t)
    ensures s == r
  {
    assert Flag(s, EmailNotifications) == Flag(r, EmailNotifications);
    assert Flag(s, PushNotifications) == Flag(r, PushNotifications);
    assert Flag(s, LawChangeAlerts) == Flag(r, LawChangeAlerts);
    assert Flag(s, DeadlineReminders) == Flag(r, DeadlineReminders);
    assert Flag(s, WeeklyDigest) == Flag(r, WeeklyDigest);
  }

  // ---------------------------------------------------------------------------
  // Checking and assigning toggle by toggle

  /** The value of toggle `t` in the body (`const { emailNotifications, ... } = body`), `JUndefined` when absent. */
  function Value(body: Js, t: Toggle): Js {
    Prop(body, Key(t))
  }

  /** The body read toggle by toggle. */
  function Fields(body: Js): Toggle -> Js {
    t => Value(body, t)
  }

  /** A value `PUT` answers 400 for: present and not a boolean. */
  predicate Rejected(v: Js) {
    v != JUndefined && !v.JBool?
  }

  /** The number of the first toggle from `i` on whose value is rejected, or `ToggleCount` when there is none. */
  function FirstRejected(read: Toggle -> Js, i: nat): (k: nat)
    requires i <= ToggleCount
    ensures i <= k <= ToggleCount
    decreases ToggleCount - i
  {
    if i == ToggleCount then ToggleCount
    else if Rejected(read(ToggleAt(i))) then i
    else FirstRejected(read, i + 1)
  }

  /** The toggle `FirstRejected` finds is rejected, and none from `i` up to it is. */
  lemma {:induction false} FirstRejectedSpec(read: Toggle -> Js, i: nat)
    requires i <= ToggleCount
    ensures FirstRejected(read, i) < ToggleCount ==> Rejected(read(ToggleAt(FirstRejected(read, i))))
    ensures forall j :: i <= j < FirstRejected(read, i) ==> !Rejected(read(ToggleAt(j)))
    decreases ToggleCount - i
  {
    if i < ToggleCount && !Rejected(read(ToggleAt(i))) {
      FirstRejectedSpec(read, i + 1);
    }
  }

  /** Toggle `t` after the blocks numbered below `k`: the body's boolean when its block ran and the body gave one, otherwise as before. */
  function AssignedFlag(s: Settings, read: Toggle -> Js, k: nat, t: Toggle): bool {
    if Rank(t) < k && read(t).JBool? then read(t).b else Flag(s, t)
  }

  /** The settings after the assignments of the blocks numbered below `k`. */
  function Assigned(s: Settings, read: Toggle -> Js, k: nat): Settings {
    Settings(
      s.userId,
      AssignedFlag(s, read, k, EmailNotifications),
      AssignedFlag(s, read, k, PushNotifications),
      AssignedFlag(s, read, k, LawChangeAlerts),
      AssignedFlag(s, read, k, DeadlineReminders),
      AssignedFlag(s, read, k, WeeklyDigest),
      s.updatedAt)
  }

  /** After the first `k` blocks each toggle among them given as a boolean holds it, and everything else is as it was. */
  lemma AssignedFlags(s: Settings, read: Toggle -> Js, k: nat)
    ensures Assigned(s, read, k).userId == s.userId && Assigned(s, read, k).updatedAt == s.updatedAt
    ensures forall t :: Flag(Assigned(s, read, k), t) == if Rank(t) < k && read(t).JBool? then read(t).b else Flag(s, t)
  {
    forall t
      ensures Flag(Assigned(s, read, k), t) == AssignedFlag(s, read, k, t)
    {
    }
  }

  /** No block changes anything before it has run: with no block run, the settings are as they were. */
  lemma AssignedNone(s: Settings, read: Toggle -> Js)
    ensures Assigned(s, read, 0) == s
  {
    AssignedFlags(s, read, 0);
    SettingsEq(Assigned(s, read, 0), s);
  }

  /** The block of toggle `t` takes the settings after the blocks before it to the settings after it. */
  lemma AssignStep(s: Settings, read: Toggle -> Js, t: Toggle)
    ensures (if read(t).JBool? then SetFlag(Assigned(s, read, Rank(t)), t, read(t).b) else Assigned(s, read, Rank(t)))
      == Assigned(s, read, Rank(t) + 1)
  {
    var before := Assigned(s, read, Rank(t));
    var after := if read(t).JBool? then SetFlag(before, t, read(t).b) else before;
    AssignedFlags(s, read, Rank(t));
    AssignedFlags(s, read, Rank(t) + 1);
    forall u
      ensures Flag(after, u) == Flag(Assigned(s, read, Rank(t) + 1), u)
    {
      if u != t {
        assert Rank(u) != Rank(t);
      }
    }
    SettingsEq(after, Assigned(s, read, Rank(t) + 1));
  }

  // ---------------------------------------------------------------------------
  // The handlers, as functions of the store

  datatype Response =
    | Unauthorized
    | InternalError
    | Invalid(field: string, message: string)
    | Found(settings: Settings)
    | Updated(settings: Settings)

  function Status(r: Response): int {
    match r
    case Unauthorized => 401
    case InternalError => 500
    case Invalid(_, _) => 400
    case _ => 200
  }

  const AuthRequired := "認証が必要です"
  const UnexpectedError := "予期しないエラーが発生しました"

  /** The `error` text of the reply: every answer other than 200 carries one. */
  function ErrorText(r: Response): (text: Option<string>)
    ensures text.Some? <==> Status(r) != 200
  {
    match r
    case Unauthorized => Some(AuthRequired)
    case InternalError => Some(UnexpectedError)
    case Invalid(_, message) => Some(message)
    case _ => None
  }

  /** The settings `PUT` works on: the stored ones, or fresh defaults. */
  function Current(store: map<string, Settings>, now: int): Settings {
    if DemoUserId in store then store[DemoUserId] else Defaults(DemoUserId, now)
  }

  /**
   * `PUT`: 401 without a session cookie, 500 when the body is not JSON or is
   * `null`, otherwise the toggles are checked and assigned in order.
   */
  function PutSpec(store: map<string, Settings>, hasSession: bool, body: Option<Js>, now: int)
    : (map<string, Settings>, Response)
  {
    if !hasSession then (store, Unauthorized)
    else if body.None? || body.value == JNull then (store, InternalError)
    else Apply(store, Fields(body.value), now)
  }

  /**
   * The checks and assignments past the guards. A rejected toggle answers 400:
   * stored settings keep the assignments made before it, fresh defaults are
   * dropped. Otherwise the settings are stamped and stored.
   */
  function Apply(store: map<string, Settings>, read: Toggle -> Js, now: int): (map<string, Settings>, Response) {
    var s := Current(store, now);
    var k := FirstRejected(read, 0);
    if k < ToggleCount then
      var t := ToggleAt(k);
      (if DemoUserId in store then store[DemoUserId := Assigned(s, read, k)] else store, Invalid(Key(t), Message(t)))
    else
      var done := Assigned(s, read, ToggleCount).(updatedAt := now);
      (store[DemoUserId := done], Updated(done))
  }

  /** Where the first rejected toggle is `t`, the update answers 400 for it, keeping the assignments before it only in stored settings. */
  lemma ApplyRejects(store: map<string, Settings>, read: Toggle -> Js, now: int, t: Toggle, settings: Settings)
    requires FirstRejected(read, 0) == Rank(t) && settings == Assigned(Current(store, now), read, Rank(t))
    ensures Apply(store, read, now) ==
      (if DemoUserId in store then store[DemoUserId := settings] else store, Invalid(Key(t), Message(t)))
  {
    RankToggleAt(t, 0);
  }

  /** Where no toggle is rejected, the update stores and answers the settings with every assignment made, stamped with `now`. */
  lemma ApplyAccepts(store: map<string, Settings>, read: Toggle -> Js, now: int, settings: Settings)
    requires FirstRejected(read, 0) == ToggleCount && settings == Assigned(Current(store, now), read, ToggleCount)
    ensures Apply(store, read, now) ==
      (store[DemoUserId := settings.(updatedAt := now)], Updated(settings.(updatedAt := now)))
  {
  }

  /** Without a session, or with a body that is not JSON or is `null`, `PUT` changes nothing and answers 401 or 500. */
  lemma PutRefusals(store: map<string, Settings>, hasSession: bool, body: Option<Js>, now: int)
    ensures PutSpec(store, hasSession, body, now).1 == Unauthorized <==> !hasSession
    ensures PutSpec(store, hasSession, body, now).1 == InternalError <==> hasSession && (body.None? || body.value == JNull)
    ensures !hasSession || body.None? || body.value == JNull ==> PutSpec(store, hasSession, body, now).0 == store
  {
    if hasSession && body.Some? && body.value != JNull {
      var k := FirstRejected(Fields(body.value), 0);
    }
  }

  /** `PUT` succeeds exactly when signed in with a JSON body other than `null` that gives no toggle a value other than a boolean. */
  lemma PutSucceedsIff(store: map<string, Settings>, hasSession: bool, body: Option<Js>, now: int)
    ensures PutSpec(store, hasSession, body, now).1.Updated? <==>
      (&& hasSession && body.Some? && body.value != JNull
       && forall t :: !Rejected(Value(body.value, t)))
  {
    if hasSession && body.Some? && body.value != JNull {
      var read := Fields(body.value);
      var k := FirstRejected(read, 0);
      FirstRejectedSpec(read, 0);
      if k < ToggleCount {
        assert Rejected(Value(body.value, ToggleAt(k)));
      } else {
        forall t
          ensures !Rejected(Value(body.value, t))
        {
          RankToggleAt(t, 0);
          assert !Rejected(read(ToggleAt(Rank(t))));
        }
      }
    }
  }

  /**
   * A successful `PUT` stores and returns the settings with each toggle given
   * as a boolean set to it and each other toggle as stored before, or as its
   * default when nothing was stored, stamped with `now`.
   */
  lemma PutSuccess(store: map<string, Settings>, hasSession: bool, body: Option<Js>, now: int)
    requires PutSpec(store, hasSession, body, now).1.Updated?
    ensures body.Some?
    ensures var (after, r) := PutSpec(store, hasSession, body, now);
      && after == store[DemoUserId := r.settings]
      && r.settings.userId == Current(store, now).userId && r.settings.updatedAt == now
      && forall t :: Flag(r.settings, t) ==
           if Value(body.value, t).JBool? then Value(body.value, t).b else Flag(Current(store, now), t)
  {
    var read := Fields(body.value);
    var s := Current(store, now);
    AssignedFlags(s, read, ToggleCount);
    forall t
      ensures Flag(Assigned(s, read, ToggleCount), t) ==
        if Value(body.value, t).JBool? then Value(body.value, t).b else Flag(s, t)
    {
      assert read(t) == Value(body.value, t);
    }
  }

  /**
   * A 400 names the first toggle, in checking order, that is present and not
   * a boolean. Stored settings keep the toggles before it assigned, without a
   * new time stamp; without stored settings nothing is stored.
   */
  lemma PutRejection(store: map<string, Settings>, hasSession: bool, body: Option<Js>, now: int)
    requires PutSpec(store, hasSession, body, now).1.Invalid?
    ensures hasSession && body.Some?
    ensures var (after, r) := PutSpec(store, hasSession, body, now);
      exists t ::
        && r == Invalid(Key(t), Message(t))
        && Rejected(Value(body.value, t))
        && (forall u :: Rank(u) < Rank(t) ==> !Rejected(Value(body.value, u)))
        && (DemoUserId !in store ==> after == store)
        && (DemoUserId in store ==>
              && after.Keys == store.Keys
              && after[DemoUserId].updatedAt == store[DemoUserId].updatedAt
              && forall u :: Flag(after[DemoUserId], u) ==
                   if Rank(u) < Rank(t) && Value(body.value, u).JBool? then Value(body.value, u).b
                   else Flag(store[DemoUserId], u))
  {
    var read := Fields(body.value);
    var t := RejectionAt(store, read, now);
    forall u
      ensures read(u) == Value(body.value, u)
    {
    }
  }

  /** Past the guards, a 400 names the first rejected toggle, and stored settings keep only the assignments before it. */
  lemma RejectionAt(store: map<string, Settings>, read: Toggle -> Js, now: int) returns (t: Toggle)
    requires Apply(store, read, now).1.Invalid?
    ensures var (after, r) := Apply(store, read, now);
      && r == Invalid(Key(t), Message(t))
      && Rejected(read(t))
      && (forall u :: Rank(u) < Rank(t) ==> !Rejected(read(u)))
      && (DemoUserId !in store ==> after == store)
      && (DemoUserId in store ==>
            && after.Keys == store.Keys
            && after[DemoUserId].updatedAt == store[DemoUserId].updatedAt
            && forall u :: Flag(after[DemoUserId], u) ==
                 if Rank(u) < Rank(t) && read(u).JBool? then read(u).b else Flag(store[DemoUserId], u))
  {
    var s := Current(store, now);
    var k := FirstRejected(read, 0);
    FirstRejectedSpec(read, 0);
    t := ToggleAt(k);
    RankToggleAt(t, k);
    AssignedFlags(s, read, k);
    forall u | Rank(u) < Rank(t)
      ensures !Rejected(read(u))
    {
      RankToggleAt(u, 0);
      assert !Rejected(read(ToggleAt(Rank(u))));
    }
  }

  /** A body without any of the five toggles changes none of them: `PUT` only stamps the settings, storing the defaults if there were none. */
  lemma PutEmptyBodyStamps(store: map<string, Settings>, body: Js, now: int)
    requires body != JNull && forall t :: Value(body, t) == JUndefined
    ensures PutSpec(store, true, Some(body), now) ==
      var done := Current(store, now).(updatedAt := now);
      (store[DemoUserId := done], Updated(done))
  {
    var read := Fields(body);
    var s := Current(store, now);
    PutSucceedsIff(store, true, Some(body), now);
    PutSuccess(store, true, Some(body), now);
    var done := Assigned(s, read, ToggleCount).(updatedAt := now);
    AssignedFlags(s, read, ToggleCount);
    SettingsEq(done, s.(updatedAt := now));
  }

  // ---------------------------------------------------------------------------
  // The store

  /** Every stored settings record belongs to the user it is stored under. */
  ghost predicate Owned(store: map<string, Settings>) {
    forall u :: u in store ==> store[u].userId == u
  }

  class NotificationSettingsStore {
    var store: map<string, Settings>

    ghost predicate Valid()
      reads this
    {
      Owned(store)
    }

    /** The route module starts with the demo user's settings, which are the defaults, created at `now`. */
    constructor(now: int)
      ensures Valid() && store == map[DemoUserId := Defaults(DemoUserId, now)]
    {
      store := map[DemoUserId := Settings(DemoUserId, true, false, true, true, true, now)];
    }

    /** `GET`: 401 without a session cookie; otherwise the stored settings, storing the defaults first when there are none. */
    method Get(hasSession: bool, now: int) returns (r: Response)
      requires Valid()
      modifies this
      ensures Valid()
      ensures !hasSession ==> r == Unauthorized && store == old(store)
      ensures hasSession ==> r == Found(Current(old(store), now)) && store == old(store)[DemoUserId := r.settings]
      ensures hasSession ==> r.settings.userId == DemoUserId
    {
      if !hasSession {
        return Unauthorized;
      }
      if DemoUserId !in store {
        store := store[DemoUserId := Defaults(DemoUserId, now)];
      }
      r := Found(store[DemoUserId]);
    }

    /**
     * One check-and-assign block of `PUT`: an absent toggle is skipped, one
     * that is not a boolean stops the update, a boolean is assigned. The
     * settings object is the stored one when `existed`, so the assignment
     * shows in the store at once; `start` is the store before `PUT` began.
     */
    method Assign(read: Toggle -> Js, t: Toggle, existed: bool, settings: Settings, ghost s: Settings, ghost start: map<string, Settings>)
      returns (ok: bool, next: Settings)
      requires Valid() && existed == (DemoUserId in start) && settings.userId == DemoUserId
      requires store == if existed then start[DemoUserId := settings] else start
      requires settings == Assigned(s, read, Rank(t)) && FirstRejected(read, 0) == FirstRejected(read, Rank(t))
      modifies this
      ensures Valid() && next.userId == DemoUserId
      ensures store == if existed then start[DemoUserId := next] else start
      ensures ok == !Rejected(read(t))
      ensures ok ==> next == Assigned(s, read, Rank(t) + 1) && FirstRejected(read, 0) == FirstRejected(read, Rank(t) + 1)
      ensures !ok ==> next == settings && FirstRejected(read, 0) == Rank(t)
    {
      RankToggleAt(t, 0);
      AssignStep(s, read, t);
      next := settings;
      var v := read(t);
      if v != JUndefined {
        if !v.JBool? {
          return false, next;
        }
        next := SetFlag(settings, t, v.b);
        if existed {
          store := store[DemoUserId := next];
        }
      }
      ok := true;
    }

    /** The checks and assignments past the guards, then the time stamp and the store. */
    method Update(read: Toggle -> Js, now: int) returns (r: Response)
      requires Valid()
      modifies this
      ensures Valid()
      ensures (store, r) == Apply(old(store), read, now)
    {
      var existed := DemoUserId in store;
      var settings := if existed then store[DemoUserId] else Defaults(DemoUserId, now);
      ghost var s := settings;
      ghost var start := store;
      AssignedNone(s, read);
      assert store == if existed then start[DemoUserId := settings] else start;
      var ok;
      ok, settings := Assign(read, EmailNotifications, existed, settings, s, start);
      if !ok {
        ApplyRejects(start, read, now, EmailNotifications, settings);
        return Invalid(Key(EmailNotifications), Message(EmailNotifications));
      }
      ok, settings := Assign(read, PushNotifications, existed, settings, s, start);
      if !ok {
        ApplyRejects(start, read, now, PushNotifications, settings);
        return Invalid(Key(PushNotifications), Message(PushNotifications));
      }
      ok, settings := Assign(read, LawChangeAlerts, existed, settings, s, start);
      if !ok {
        ApplyRejects(start, read, now, LawChangeAlerts, settings);
        return Invalid(Key(LawChangeAlerts), Message(LawChangeAlerts));
      }
      ok, settings := Assign(read, DeadlineReminders, existed, settings, s, start);
      if !ok {
        ApplyRejects(start, read, now, DeadlineReminders, settings);
        return Invalid(Key(DeadlineReminders), Message(DeadlineReminders));
      }
      ok, settings := Assign(read, WeeklyDigest, existed, settings, s, start);
      if !ok {
        ApplyRejects(start, read, now, WeeklyDigest, settings);
        return Invalid(Key(WeeklyDigest), Message(WeeklyDigest));
      }
      ApplyAccepts(start, read, now, settings);
      ghost var pre := settings;
      assert Apply(start, read, now) == (start[DemoUserId := pre.(updatedAt := now)], Updated(pre.(updatedAt := now)));
      settings := settings.(updatedAt := now);
      store := store[DemoUserId := settings];
      assert store == start[DemoUserId := settings];
      r := Updated(settings);
    }

    /**
     * `PUT`, at time `now`, with the body as parsed JSON (`None` when it is
     * not JSON): the session guard, then the update.
     */
    method Put(hasSession: bool, body: Option<Js>, now: int) returns (r: Response)
      requires Valid()
      modifies this
      ensures Valid()
      ensures (store, r) == PutSpec(old(store), hasSession, body, now)
    {
      if !hasSession {
        return Unauthorized;
      }
      if body.None? || body.value == JNull {
        return InternalError;
      }
      r := Update(Fields(body.value), now);
    }
  }
}
