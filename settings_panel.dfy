/**
 * The settings panel: the profile editor (saved into the store's user, with
 * the residence prefecture doubling as the prefecture), the children answers,
 * the plan check boxes with their "nothing planned" option, the password
 * change form, and the security score shown for the MFA and passkey
 * switches.
 */
module SettingsPanel {
  import opened Common
  import AppStore
  import Settings

  /** The profile editor's values. */
  datatype ProfileEdit = ProfileEdit(
    name: string, email: string, prefecture: string, residencePrefecture: string, workPrefecture: string,
    city: string, occupation: string, annualIncome: int, housingType: string, futurePlans: seq<string>,
    favoriteAnimal: string, householdSize: int, maritalStatus: string, hasChildren: bool,
    numberOfChildren: int, childrenAges: seq<int>, birthDate: string, gender: string)

  /** The password form's three fields. */
  datatype Passwords = Passwords(current: string, newPassword: string, confirm: string)

  const NoPasswords := Passwords("", "", "")
  const MismatchMessage: string := "新しいパスワードが一致しません"
  const TooShortMessage: string := "パスワードは8文字以上にしてください"
  const MinPasswordLength: int := 8
  const NoPlan: string := "none"

  // ---------------------------------------------------------------------------
  // Security score

  /** The score shown: 100 with both MFA and a passkey, 60 with exactly one of them, 30 with neither. */
  function SecurityScore(mfaEnabled: bool, passkeyEnabled: bool): (r: int)
    ensures r == 100 <==> mfaEnabled && passkeyEnabled
    ensures r == 60 <==> mfaEnabled != passkeyEnabled
    ensures r == 30 <==> !mfaEnabled && !passkeyEnabled
  {
    if mfaEnabled && passkeyEnabled then 100 else if mfaEnabled || passkeyEnabled then 60 else 30
  }

  /** Turning a protection on never lowers the score, and the score does not care which of the two is on. */
  lemma ScoreMonotonic(mfa: bool, passkey: bool, mfa2: bool, passkey2: bool)
    requires (mfa ==> mfa2) && (passkey ==> passkey2)
    ensures SecurityScore(mfa, passkey) <= SecurityScore(mfa2, passkey2)
    ensures SecurityScore(mfa, passkey) == SecurityScore(passkey, mfa)
  {
  }

  /** The MFA button: MFA turns over; turned on it is TOTP and verified, turned off it has no method. */
  function MfaToggle(s: AppStore.SecuritySettings): (u: AppStore.SecurityUpdate)
    ensures var r := AppStore.MergeSecurity(s, u);
      && r.mfaEnabled == !s.mfaEnabled && r.mfaVerified == r.mfaEnabled
      && r.mfaMethod == (if r.mfaEnabled then Some("totp") else None)
      && r.passkeyEnabled == s.passkeyEnabled && r.passkeyRegistered == s.passkeyRegistered
      && r.lastPasswordChange == s.lastPasswordChange && r.loginHistory == s.loginHistory
      && r.trustedDevices == s.trustedDevices
  {
    AppStore.SecurityUpdate(
      Some(!s.mfaEnabled), Some(if !s.mfaEnabled then Some("totp") else None), Some(!s.mfaEnabled),
      None, None, None, None, None)
  }

  /** The passkey button: the passkey turns over, and registered follows enabled. */
  function PasskeyToggle(s: AppStore.SecuritySettings): (u: AppStore.SecurityUpdate)
    ensures var r := AppStore.MergeSecurity(s, u);
      && r.passkeyEnabled == !s.passkeyEnabled && r.passkeyRegistered == r.passkeyEnabled
      && r.mfaEnabled == s.mfaEnabled && r.mfaMethod == s.mfaMethod && r.mfaVerified == s.mfaVerified
      && r.lastPasswordChange == s.lastPasswordChange && r.loginHistory == s.loginHistory
      && r.trustedDevices == s.trustedDevices
  {
    AppStore.SecurityUpdate(None, None, None, Some(!s.passkeyEnabled), Some(!s.passkeyEnabled), None, None, None)
  }

  /**
   * Switching a protection on raises the score and switching it off lowers
   * it; pressing the same button twice restores what it sets.
   */
  lemma ToggleMovesScore(s: AppStore.SecuritySettings)
    ensures var r := AppStore.MergeSecurity(s, MfaToggle(s));
      !s.mfaEnabled <==> SecurityScore(r.mfaEnabled, r.passkeyEnabled) > SecurityScore(s.mfaEnabled, s.passkeyEnabled)
    ensures var r := AppStore.MergeSecurity(s, PasskeyToggle(s));
      !s.passkeyEnabled <==> SecurityScore(r.mfaEnabled, r.passkeyEnabled) > SecurityScore(s.mfaEnabled, s.passkeyEnabled)
    ensures var r := AppStore.MergeSecurity(s, MfaToggle(s));
      var t := AppStore.MergeSecurity(r, MfaToggle(r));
      t.mfaEnabled == s.mfaEnabled && t.passkeyEnabled == s.passkeyEnabled
  {
  }

  // ---------------------------------------------------------------------------
  // Notification switches

  datatype Switch = EmailNotifications | PushNotifications | LawChangeAlerts | DeadlineReminders | WeeklyDigest

  /** `notificationSettings[key]`. */
  function SwitchOn(n: AppStore.NotificationSettings, k: Switch): bool {
    match k
    case EmailNotifications => n.emailNotifications
    case PushNotifications => n.pushNotifications
    case LawChangeAlerts => n.lawChangeAlerts
    case DeadlineReminders => n.deadlineReminders
    case WeeklyDigest => n.weeklyDigest
  }

  /** `{ [key]: !notificationSettings[key] }`: that switch turns over and the other four stay. */
  function SwitchToggle(n: AppStore.NotificationSettings, k: Switch): (u: AppStore.NotificationUpdate)
    ensures SwitchOn(AppStore.MergeNotifications(n, u), k) == !SwitchOn(n, k)
    ensures forall j :: j != k ==> SwitchOn(AppStore.MergeNotifications(n, u), j) == SwitchOn(n, j)
  {
    match k
    case EmailNotifications => AppStore.NotificationUpdate(Some(!n.emailNotifications), None, None, None, None)
    case PushNotifications => AppStore.NotificationUpdate(None, Some(!n.pushNotifications), None, None, None)
    case LawChangeAlerts => AppStore.NotificationUpdate(None, None, Some(!n.lawChangeAlerts), None, None)
    case DeadlineReminders => AppStore.NotificationUpdate(None, None, None, Some(!n.deadlineReminders), None)
    case WeeklyDigest => AppStore.NotificationUpdate(None, None, None, None, Some(!n.weeklyDigest))
  }

  /** Pressing a switch twice gives the settings back. */
  lemma SwitchTwice(n: AppStore.NotificationSettings, k: Switch)
    ensures var once := AppStore.MergeNotifications(n, SwitchToggle(n, k));
      AppStore.MergeNotifications(once, SwitchToggle(once, k)) == n
  {
  }

  // ---------------------------------------------------------------------------
  // Password change

  /**
   * The error `handlePasswordChange` reports: a mismatch first, then a new
   * password shorter than eight characters; `None` when the change goes ahead.
   * The current-password field plays no part.
   */
  function PasswordError(p: Passwords): (r: Option<string>)
    ensures r.None? <==> p.newPassword == p.confirm && |p.newPassword| >= MinPasswordLength
    ensures p.newPassword != p.confirm ==> r == Some(MismatchMessage)
    ensures p.newPassword == p.confirm && |p.newPassword| < MinPasswordLength ==> r == Some(TooShortMessage)
  {
    if p.newPassword != p.confirm then Some(MismatchMessage)
    else if |p.newPassword| < MinPasswordLength then Some(TooShortMessage)
    else None
  }

  /** Whatever the current-password field holds, the outcome is the same. */
  lemma CurrentPasswordIgnored(p: Passwords, current: string)
    ensures PasswordError(p.(current := current)) == PasswordError(p)
  {
  }

  /** `{ lastPasswordChange: now }`. */
  function PasswordChanged(now: string): (u: AppStore.SecurityUpdate)
    ensures u.lastPasswordChange == Some(Some(now))
    ensures u.mfaEnabled.None? && u.passkeyEnabled.None? && u.loginHistory.None?
  {
    AppStore.SecurityUpdate(None, None, None, None, None, Some(Some(now)), None, None)
  }

  // ---------------------------------------------------------------------------
  // Saving the profile

  /** The update `handleSaveProfile` passes to the store: the edited fields, with the residence prefecture as `prefecture`. */
  function ProfileUpdateOf(e: ProfileEdit): (u: AppStore.ProfileUpdate)
    ensures u.prefecture == Some(e.residencePrefecture)
    ensures u.name == Some(e.name) && u.email == Some(e.email) && u.birthDate == Some(e.birthDate)
    ensures u.childrenAges == Some(e.childrenAges) && u.futurePlans == Some(e.futurePlans)
    ensures u.id.None? && u.goals.None? && u.financialInfo.None? && u.createdAt.None? && u.updatedAt.None?
  {
    AppStore.ProfileUpdate(
      None, Some(e.name), Some(e.email), Some(e.birthDate), Some(e.gender), Some(e.residencePrefecture),
      Some(e.city), Some(e.occupation), Some(e.annualIncome), Some(e.householdSize), Some(e.maritalStatus),
      Some(e.hasChildren), Some(e.numberOfChildren), Some(e.childrenAges), Some(e.housingType),
      Some(e.futurePlans), None, Some(e.favoriteAnimal), None, None, None)
  }

  /** Saving writes the residence prefecture as the user's prefecture and keeps what the editor does not show. */
  lemma SaveSyncsPrefecture(s: AppStore.AppState, e: ProfileEdit, now: string)
    requires s.user.Some?
    ensures var t := Settings.AfterUpdate(s, ProfileUpdateOf(e), now);
      && t.user.Some? && t.user.value.prefecture == e.residencePrefecture
      && t.user.value.goals == s.user.value.goals && t.user.value.id == s.user.value.id
      && t.user.value.financialInfo == s.user.value.financialInfo
  {
  }

  /** The panel's own state, over the application store. */
  class Panel {
    var profileEdit: ProfileEdit
    var editMode: bool
    var showPasswordChange: bool
    var passwords: Passwords
    var passwordError: string
    var saveSuccess: bool
    const store: AppStore.Store

    constructor(store: AppStore.Store, profileEdit: ProfileEdit)
      ensures this.store == store && this.profileEdit == profileEdit
      ensures !editMode && !showPasswordChange && passwords == NoPasswords && passwordError == "" && !saveSuccess
    {
      this.store := store;
      this.profileEdit := profileEdit;
      editMode, showPasswordChange, passwords, passwordError, saveSuccess := false, false, NoPasswords, "", false;
    }

    /** `handleSaveProfile`: the store's user takes the edited fields, and the editor closes. */
    method HandleSaveProfile(now: string)
      modifies this, store
      ensures store.State() == Settings.AfterUpdate(old(store.State()), ProfileUpdateOf(old(profileEdit)), now)
      ensures old(store.user).Some? ==> store.user.value.prefecture == old(profileEdit).residencePrefecture
      ensures !editMode && saveSuccess
      ensures profileEdit == old(profileEdit) && passwords == old(passwords) && passwordError == old(passwordError)
      ensures showPasswordChange == old(showPasswordChange)
    {
      store.UpdateUser(ProfileUpdateOf(profileEdit), now);
      editMode := false;
      saveSuccess := true;
    }

    /** The edit and cancel buttons: only edit mode changes, so cancelling keeps the values typed so far. */
    method SetEditMode(on: bool)
      modifies this
      ensures editMode == on
      ensures profileEdit == old(profileEdit) && passwords == old(passwords) && saveSuccess == old(saveSuccess)
    {
      editMode := on;
    }

    /** The change/cancel button of the password form: the form opens or closes and keeps what was typed. */
    method TogglePasswordForm()
      modifies this
      ensures showPasswordChange == !old(showPasswordChange)
      ensures passwords == old(passwords) && passwordError == old(passwordError) && profileEdit == old(profileEdit)
    {
      showPasswordChange := !showPasswordChange;
    }

    /**
     * `handlePasswordChange`: with an error, only the error is shown. Otherwise
     * the store keeps the hash of the new password and the time of the change,
     * and the form closes, emptied.
     */
    method HandlePasswordChange(now: string)
      modifies this, store
      ensures PasswordError(old(passwords)).Some? ==>
        && passwordError == PasswordError(old(passwords)).value
        && store.State() == old(store.State())
        && passwords == old(passwords) && showPasswordChange == old(showPasswordChange)
        && saveSuccess == old(saveSuccess)
      ensures PasswordError(old(passwords)).None? ==>
        && store.State() == old(store.State()).(
             password := Some(AppStore.SimpleHashOf(old(passwords).newPassword)),
             securitySettings := AppStore.MergeSecurity(old(store.securitySettings), PasswordChanged(now)))
        && passwords == NoPasswords && passwordError == "" && !showPasswordChange && saveSuccess
      ensures profileEdit == old(profileEdit) && editMode == old(editMode)
    {
      if passwords.newPassword != passwords.confirm {
        passwordError := MismatchMessage;
        return;
      }
      if |passwords.newPassword| < MinPasswordLength {
        passwordError := TooShortMessage;
        return;
      }
      store.SetPassword(passwords.newPassword);
      store.UpdateSecuritySettings(PasswordChanged(now));
      showPasswordChange := false;
      passwords := NoPasswords;
      passwordError := "";
      saveSuccess := true;
    }

    /** The MFA button. */
    method ToggleMfa()
      modifies store
      ensures store.State() == old(store.State()).(
        securitySettings := AppStore.MergeSecurity(old(store.securitySettings), MfaToggle(old(store.securitySettings))))
      ensures store.securitySettings.mfaEnabled == !old(store.securitySettings.mfaEnabled)
    {
      store.UpdateSecuritySettings(MfaToggle(store.securitySettings));
    }

    /** The passkey button. */
    method TogglePasskey()
      modifies store
      ensures store.State() == old(store.State()).(
        securitySettings := AppStore.MergeSecurity(old(store.securitySettings), PasskeyToggle(old(store.securitySettings))))
      ensures store.securitySettings.passkeyEnabled == !old(store.securitySettings.passkeyEnabled)
    {
      store.UpdateSecuritySettings(PasskeyToggle(store.securitySettings));
    }

    /** A notification switch: that switch turns over in the store, the others stay. */
    method ToggleNotification(k: Switch)
      modifies store
      ensures store.State() == old(store.State()).(
        notificationSettings := AppStore.MergeNotifications(old(store.notificationSettings), SwitchToggle(old(store.notificationSettings), k)))
      ensures SwitchOn(store.notificationSettings, k) == !SwitchOn(old(store.notificationSettings), k)
    {
      store.UpdateNotificationSettings(SwitchToggle(store.notificationSettings, k));
    }

    /** `toggleFuturePlan`: "nothing planned" replaces every plan; another plan drops it and changes side. */
    method ToggleFuturePlan(plan: string)
      modifies this
      ensures profileEdit == old(profileEdit).(futurePlans := ToggleWithNone(old(profileEdit).futurePlans, plan, NoPlan))
      ensures NoneAlone(profileEdit.futurePlans, NoPlan)
      ensures editMode == old(editMode) && passwords == old(passwords)
    {
      ToggleWithNoneSpec(profileEdit.futurePlans, plan, NoPlan);
      if plan == NoPlan {
        profileEdit := profileEdit.(futurePlans := [NoPlan]);
        return;
      }
      var plansWithoutNone := Without(profileEdit.futurePlans, NoPlan);
      var newPlans := if plan in plansWithoutNone then Without(plansWithoutNone, plan) else plansWithoutNone + [plan];
      profileEdit := profileEdit.(futurePlans := newPlans);
    }

    /** The "has children" box: checked keeps a count (at least one) and the ages; unchecked clears both. */
    method SetHasChildren(checked: bool)
      modifies this
      ensures profileEdit == old(profileEdit).(
        hasChildren := checked,
        numberOfChildren := if !checked then 0 else if old(profileEdit).numberOfChildren != 0 then old(profileEdit).numberOfChildren else 1,
        childrenAges := if checked then old(profileEdit).childrenAges else [])
      ensures checked ==> profileEdit.numberOfChildren != 0 && profileEdit.childrenAges == old(profileEdit).childrenAges
      ensures editMode == old(editMode) && passwords == old(passwords)
    {
      var count := if !checked then 0 else if profileEdit.numberOfChildren != 0 then profileEdit.numberOfChildren else 1;
      profileEdit := profileEdit.(
        hasChildren := checked,
        numberOfChildren := count,
        childrenAges := if checked then profileEdit.childrenAges else []);
    }

    /** The count select: the count becomes `num` and the ages are resized to exactly `num` entries. */
    method ChangeChildCount(num: int)
      requires num >= 0
      modifies this
      ensures profileEdit == old(profileEdit).(
        numberOfChildren := num, childrenAges := Settings.Resized(old(profileEdit).childrenAges, num))
      ensures |profileEdit.childrenAges| == profileEdit.numberOfChildren
      ensures editMode == old(editMode) && passwords == old(passwords)
    {
      var ages := Settings.ResizeAges(profileEdit.childrenAges, num);
      profileEdit := profileEdit.(numberOfChildren := num, childrenAges := ages);
    }

    /** An age select, one per listed child: only that child's age changes. */
    method ChangeChildAge(index: nat, age: int)
      requires index < |profileEdit.childrenAges|
      modifies this
      ensures profileEdit == old(profileEdit).(childrenAges := old(profileEdit).childrenAges[index := age])
      ensures editMode == old(editMode) && passwords == old(passwords)
    {
      profileEdit := profileEdit.(childrenAges := profileEdit.childrenAges[index := age]);
    }
  }
}
