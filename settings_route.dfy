/**
 * The settings route of the LifePlan Navigator. The application settings live
 * in one JSON file; a file that is missing or unreadable stands for the
 * defaults. `GET` answers the settings with the e-mail API key masked, `PUT`
 * spreads the request body over them, and `PATCH` changes one section. A
 * masked key sent back keeps the stored key, and every save stamps
 * `updatedAt`.
 */
module SettingsRoute {
  import opened Common

  /** A JSON object, as its entry list. */
  type Obj = seq<(string, Js)>

  /** What every reply shows instead of a non-empty API key. */
  const Mask := "********"

  const LoadError := "設定の読み込みに失敗しました"
  const SaveError := "設定の保存に失敗しました"
  const UpdateError := "設定の更新に失敗しました"
  const UnknownSection := "不明なセクションです"

  // ---------------------------------------------------------------------------
  // Object spread

  /** The entries `{...v}` copies: an object's own entries, an array's or a string's elements by index, nothing for other values. */
  function OwnEntries(v: Js): Obj {
    match v
    case JObj(fields) => fields
    case JArr(items) => seq(|items|, i requires 0 <= i < |items| => (NatToString(i), items[i]))
    case JStr(s) => seq(|s|, i requires 0 <= i < |s| => (NatToString(i), JStr([s[i]])))
    case _ => []
  }

  /** Copies the entries `e` over `t`. */
  function SpreadInto(t: Obj, e: Obj): Obj
    decreases |e|
  {
    if e == [] then t else Put(SpreadInto(t, e[1..]), e[0].0, e[0].1)
  }

  /** After a spread a key reads as in the copied entries when they have it, and as before otherwise. */
  lemma {:induction false} SpreadGet(t: Obj, e: Obj, k: string)
    ensures Get(SpreadInto(t, e), k) == if Get(e, k).Some? then Get(e, k) else Get(t, k)
    decreases |e|
  {
    if e != [] {
      SpreadGet(t, e[1..], k);
    }
  }

  /** `{...t, ...v}`. */
  function Spread(t: Obj, v: Js): Obj {
    SpreadInto(t, OwnEntries(v))
  }

  /** `{...a, ...b}` read key by key: `b`'s entry when it has one, `a`'s otherwise. */
  lemma MergeGet(a: Js, b: Js, k: string)
    ensures Get(Spread(Spread([], a), b), k) ==
      if Get(OwnEntries(b), k).Some? then Get(OwnEntries(b), k) else Get(OwnEntries(a), k)
  {
    SpreadGet(Spread([], a), OwnEntries(b), k);
    SpreadGet([], OwnEntries(a), k);
  }

  // ---------------------------------------------------------------------------
  // The settings file

  /** `defaultSettings`; `bootTime` is the ISO rendering of when the module was loaded. */
  function Defaults(bootTime: string): Obj {
    [("user", JNull),
     ("email", JObj([("provider", JStr("none")), ("apiKey", JStr("")), ("fromEmail", JStr("")),
                     ("fromName", JStr("LifePlan Navigator")), ("enabled", JBool(false))])),
     ("notifications", JObj([("emailNotifications", JBool(true)), ("pushNotifications", JBool(false)),
                             ("lawChangeAlerts", JBool(true)), ("deadlineReminders", JBool(true)),
                             ("weeklyDigest", JBool(true))])),
     ("onboardingCompleted", JBool(false)),
     ("updatedAt", JStr(bootTime))]
  }

  /** `loadSettings`: the file's content, or a copy of the defaults when it cannot be read. */
  function Load(file: Option<Obj>, bootTime: string): Obj {
    if file.Some? then file.value else Defaults(bootTime)
  }

  /** What `saveSettings` writes: the settings with `updatedAt` set to `now`, the ISO rendering of the request time. */
  function Stamp(s: Obj, now: string): (r: Obj)
    ensures Get(r, "updatedAt") == Some(JStr(now))
    ensures forall k :: k != "updatedAt" ==> Get(r, k) == Get(s, k)
  {
    Put(s, "updatedAt", JStr(now))
  }

  /**
   * The reply's copy of the settings: `email.apiKey` shows the mask when the
   * key is non-empty and "" otherwise. Reading `apiKey` of an `email` that is
   * `null` or missing throws.
   */
  function Masked(s: Obj): Result<Obj> {
    var email := Prop(JObj(s), "email");
    if email == JNull || email == JUndefined then Err(NullAccessMessage(email, "apiKey"))
    else Ok(Put(Spread([], JObj(s)), "email",
                JObj(Put(Spread([], email), "apiKey", JStr(if Truthy(Prop(email, "apiKey")) then Mask else "")))))
  }

  /** The masked copy keeps every other entry and every other e-mail entry, and shows the mask exactly for a non-empty key. */
  lemma MaskedSpec(s: Obj)
    ensures var email := Prop(JObj(s), "email");
      && (Masked(s).Ok? <==> email != JNull && email != JUndefined)
      && (Masked(s).Ok? ==>
            var m := Masked(s).value;
            var key := Prop(Prop(JObj(m), "email"), "apiKey");
            && (forall k :: k != "email" ==> Get(m, k) == Get(s, k))
            && (Truthy(Prop(email, "apiKey")) ==> key == JStr(Mask))
            && (!Truthy(Prop(email, "apiKey")) ==> key == JStr(""))
            && (email.JObj? ==> forall k :: k != "apiKey" ==> Prop(Prop(JObj(m), "email"), k) == Prop(email, k)))
  {
    var email := Prop(JObj(s), "email");
    if email != JNull && email != JUndefined {
      forall k | k != "email"
        ensures Get(Masked(s).value, k) == Get(s, k)
      {
        SpreadGet([], s, k);
      }
      if email.JObj? {
        forall k | k != "apiKey"
          ensures Prop(Prop(JObj(Masked(s).value), "email"), k) == Prop(email, k)
        {
          SpreadGet([], email.fields, k);
        }
      }
    }
  }

  /** A key is never shown: whatever the stored key, the reply shows the mask or nothing. */
  lemma MaskHidesKey(s: Obj)
    requires Masked(s).Ok?
    ensures Prop(Prop(JObj(Masked(s).value), "email"), "apiKey") in {JStr(Mask), JStr("")}
  {
    MaskedSpec(s);
  }

  datatype Response =
    | Answer(settings: Obj)                   // 200 with the masked settings
    | Failure(status: int, error: string)

  /** The reply to a request that saved `saved`: the masked settings, or 500 with `error` exactly when masking throws. */
  function Reply(saved: Obj, error: string): (r: Response)
    ensures r.Answer? <==> Masked(saved).Ok?
    ensures r.Failure? ==> r == Failure(500, error)
  {
    match Masked(saved)
    case Ok(m) => Answer(m)
    case Err(_) => Failure(500, error)
  }

  /** `GET`: the masked settings, or 500 when masking throws. */
  function GetSpec(file: Option<Obj>, bootTime: string): Response {
    Reply(Load(file, bootTime), LoadError)
  }

  /** An entry list reads as its first entry with the key. */
  lemma {:induction false} GetAt<V>(t: seq<(string, V)>, i: nat, k: string)
    requires i < |t| && t[i].0 == k
    requires forall j :: 0 <= j < i ==> t[j].0 != k
    ensures Get(t, k) == Some(t[i].1)
    decreases i
  {
    if i > 0 {
      assert t[0].0 != k;
      forall j | 0 <= j < i - 1
        ensures t[1..][j].0 != k
      {
        assert t[1..][j] == t[j + 1];
      }
      GetAt(t[1..], i - 1, k);
    }
  }

  /** Without a settings file `GET` answers the defaults: no user, an empty key, onboarding not completed. */
  lemma FreshGet(bootTime: string)
    ensures GetSpec(None, bootTime).Answer?
    ensures var m := JObj(GetSpec(None, bootTime).settings);
      && Prop(m, "user") == JNull
      && Prop(Prop(m, "email"), "apiKey") == JStr("")
      && Prop(m, "onboardingCompleted") == JBool(false)
      && Prop(m, "updatedAt") == JStr(bootTime)
  {
    DefaultsShape(bootTime);
    MaskedSpec(Defaults(bootTime));
  }

  /** The entries of the defaults that a fresh `GET` shows. */
  lemma DefaultsShape(bootTime: string)
    ensures var d := JObj(Defaults(bootTime));
      && Get(d.fields, "user") == Some(JNull)
      && Prop(d, "email").JObj? && Prop(Prop(d, "email"), "apiKey") == JStr("")
      && Get(d.fields, "onboardingCompleted") == Some(JBool(false))
      && Get(d.fields, "updatedAt") == Some(JStr(bootTime))
  {
    var d := Defaults(bootTime);
    GetAt(d, 0, "user");
    GetAt(d, 1, "email");
    GetAt(d, 3, "onboardingCompleted");
    GetAt(d, 4, "updatedAt");
    GetAt(d[1].1.fields, 1, "apiKey");
  }

  /** What `PUT` or `PATCH` does once the body is read: save these settings, or answer an error without saving. */
  datatype Change = Save(settings: Obj) | Refuse(status: int, error: string)

  /** Carrying out a change: a save stamps and writes the settings and answers their masked copy. */
  function Commit(file: Option<Obj>, c: Change, now: string, error: string): (Option<Obj>, Response) {
    match c
    case Save(s) => (Some(Stamp(s, now)), Reply(Stamp(s, now), error))
    case Refuse(status, message) => (file, Failure(status, message))
  }

  // ---------------------------------------------------------------------------
  // PUT

  /** `{...currentSettings, ...body, updatedAt}`. */
  function Spliced(current: Obj, b: Js, now: string): Obj {
    Put(Spread(Spread([], JObj(current)), b), "updatedAt", JStr(now))
  }

  /** Whether `body.email && body.email.apiKey === '********'`. */
  predicate SendsMask(b: Js) {
    Truthy(Prop(b, "email")) && Prop(Prop(b, "email"), "apiKey") == JStr(Mask)
  }

  /**
   * What `PUT` saves, given the body as parsed JSON (`None` when it is not
   * JSON): the body spread over the loaded settings; a masked key sent back
   * is replaced by the stored one, which throws when the stored `email` is
   * `null` or missing. A `null` body throws at `body.email`.
   */
  function PutChange(current: Obj, body: Option<Js>, now: string): Change {
    if body.None? || body.value == JNull || body.value == JUndefined then Refuse(500, SaveError)
    else
      var b := body.value;
      var updated := Spliced(current, b, now);
      if SendsMask(b) then
        var stored := Prop(JObj(current), "email");
        if stored == JNull || stored == JUndefined then Refuse(500, SaveError)
        else Save(Put(updated, "email", JObj(Put(Prop(b, "email").fields, "apiKey", Prop(stored, "apiKey")))))
      else Save(updated)
  }

  /** `PUT`. */
  function PutSpec(file: Option<Obj>, bootTime: string, body: Option<Js>, now: string): (Option<Obj>, Response) {
    Commit(file, PutChange(Load(file, bootTime), body, now), now, SaveError)
  }

  /** A body that is not JSON, or is `null`, answers 500 and leaves the file alone. */
  lemma PutRefusals(file: Option<Obj>, bootTime: string, body: Option<Js>, now: string)
    requires body.None? || body.value == JNull
    ensures PutSpec(file, bootTime, body, now) == (file, Failure(500, SaveError))
  {
  }

  /**
   * A `PUT` that reaches the save stores every entry of the body over the
   * loaded settings, stamped with `now`; the e-mail settings are the body's
   * (with the stored key when it sent the mask) or the loaded ones.
   */
  lemma PutStores(file: Option<Obj>, bootTime: string, body: Js, now: string)
    requires body != JNull && body != JUndefined
    requires SendsMask(body) ==> Prop(JObj(Load(file, bootTime)), "email") !in {JNull, JUndefined}
    ensures var saved := PutSpec(file, bootTime, Some(body), now).0;
      var current := Load(file, bootTime);
      var given := OwnEntries(body);
      && saved.Some?
      && Get(saved.value, "updatedAt") == Some(JStr(now))
      && (forall k :: k != "updatedAt" && k != "email" ==>
            Get(saved.value, k) == if Get(given, k).Some? then Get(given, k) else Get(current, k))
      && (!SendsMask(body) ==>
            Get(saved.value, "email") == if Get(given, "email").Some? then Get(given, "email") else Get(current, "email"))
      && (SendsMask(body) ==>
            && Prop(Prop(JObj(saved.value), "email"), "apiKey") == Prop(Prop(JObj(current), "email"), "apiKey")
            && forall k :: k != "apiKey" ==> Prop(Prop(JObj(saved.value), "email"), k) == Prop(Prop(body, "email"), k))
  {
    PutStoresEntries(file, bootTime, body, now);
    PutStoresEmail(file, bootTime, body, now);
  }

  /** The entries other than `email` that `PUT` saves. */
  lemma PutStoresEntries(file: Option<Obj>, bootTime: string, body: Js, now: string)
    requires body != JNull && body != JUndefined
    requires SendsMask(body) ==> Prop(JObj(Load(file, bootTime)), "email") !in {JNull, JUndefined}
    ensures var saved := PutSpec(file, bootTime, Some(body), now).0;
      var given := OwnEntries(body);
      && saved.Some?
      && Get(saved.value, "updatedAt") == Some(JStr(now))
      && forall k :: k != "updatedAt" && k != "email" ==>
           Get(saved.value, k) == if Get(given, k).Some? then Get(given, k) else Get(Load(file, bootTime), k)
  {
    var current := Load(file, bootTime);
    var c := PutChange(current, Some(body), now);
    SplicedGet(current, body, now);
    if SendsMask(body) {
      PutChangeMasked(current, body, now);
    }
    assert PutSpec(file, bootTime, Some(body), now).0 == Some(Stamp(c.settings, now));
  }

  /** The `email` entry that `PUT` saves. */
  lemma PutStoresEmail(file: Option<Obj>, bootTime: string, body: Js, now: string)
    requires body != JNull && body != JUndefined
    requires SendsMask(body) ==> Prop(JObj(Load(file, bootTime)), "email") !in {JNull, JUndefined}
    ensures var saved := PutSpec(file, bootTime, Some(body), now).0;
      var current := Load(file, bootTime);
      var given := OwnEntries(body);
      && saved.Some?
      && (!SendsMask(body) ==>
            Get(saved.value, "email") == if Get(given, "email").Some? then Get(given, "email") else Get(current, "email"))
      && (SendsMask(body) ==>
            && Prop(Prop(JObj(saved.value), "email"), "apiKey") == Prop(Prop(JObj(current), "email"), "apiKey")
            && forall k :: k != "apiKey" ==> Prop(Prop(JObj(saved.value), "email"), k) == Prop(Prop(body, "email"), k))
  {
    var current := Load(file, bootTime);
    var c := PutChange(current, Some(body), now);
    assert c.Save?;
    var saved := Stamp(c.settings, now);
    assert PutSpec(file, bootTime, Some(body), now).0 == Some(saved);
    assert Get(saved, "email") == Get(c.settings, "email");
    if SendsMask(body) {
      PutChangeMasked(current, body, now);
    } else {
      SplicedGet(current, body, now);
    }
  }

  /** `{...current, ...b, updatedAt}` read key by key. */
  lemma SplicedGet(current: Obj, b: Js, now: string)
    ensures Get(Spliced(current, b, now), "updatedAt") == Some(JStr(now))
    ensures forall k :: k != "updatedAt" ==>
      Get(Spliced(current, b, now), k) ==
      if Get(OwnEntries(b), k).Some? then Get(OwnEntries(b), k) else Get(current, k)
  {
    forall k | k != "updatedAt"
      ensures Get(Spliced(current, b, now), k) ==
        if Get(OwnEntries(b), k).Some? then Get(OwnEntries(b), k) else Get(current, k)
    {
      MergeGet(JObj(current), b, k);
    }
  }

  /** The e-mail settings `PUT` saves when the body sends the mask. */
  lemma PutChangeMasked(current: Obj, body: Js, now: string)
    requires body != JNull && body != JUndefined && SendsMask(body)
    requires Prop(JObj(current), "email") !in {JNull, JUndefined}
    ensures var c := PutChange(current, Some(body), now);
      && c.Save?
      && Prop(Prop(JObj(c.settings), "email"), "apiKey") == Prop(Prop(JObj(current), "email"), "apiKey")
      && (forall k :: k != "apiKey" ==> Prop(Prop(JObj(c.settings), "email"), k) == Prop(Prop(body, "email"), k))
      && (forall k :: k != "email" ==> Get(c.settings, k) == Get(Spliced(current, body, now), k))
  {
  }

  /** A masked key sent back with `PUT` keeps the stored key. */
  lemma PutKeepsMaskedKey(file: Option<Obj>, bootTime: string, body: Js, now: string)
    requires body != JNull && body != JUndefined && SendsMask(body)
    requires Prop(JObj(Load(file, bootTime)), "email") !in {JNull, JUndefined}
    ensures var saved := PutSpec(file, bootTime, Some(body), now).0;
      saved.Some? && Prop(Prop(JObj(saved.value), "email"), "apiKey") == Prop(Prop(JObj(Load(file, bootTime)), "email"), "apiKey")
  {
    PutStores(file, bootTime, body, now);
  }

  /** Sending back a reply that shows the mask keeps the stored key and every other setting. */
  lemma RoundTripMaskedKey(file: Option<Obj>, bootTime: string, now: string)
    requires GetSpec(file, bootTime).Answer?
    requires Prop(JObj(Load(file, bootTime)), "email").JObj?
    requires Truthy(Prop(Prop(JObj(Load(file, bootTime)), "email"), "apiKey"))
    ensures var current := Load(file, bootTime);
      var saved := PutSpec(file, bootTime, Some(JObj(GetSpec(file, bootTime).settings)), now).0;
      && saved.Some?
      && (forall k :: k != "updatedAt" && k != "email" ==> Get(saved.value, k) == Get(current, k))
      && (forall k :: Prop(Prop(JObj(saved.value), "email"), k) == Prop(Prop(JObj(current), "email"), k))
  {
    var current := Load(file, bootTime);
    MaskedSpec(current);
    var m := Masked(current).value;
    assert SendsMask(JObj(m));
    PutStoresEntries(file, bootTime, JObj(m), now);
    PutStoresEmail(file, bootTime, JObj(m), now);
    var saved := PutSpec(file, bootTime, Some(JObj(m)), now).0.value;
    var email := Prop(JObj(current), "email");
    forall k
      ensures Prop(Prop(JObj(saved), "email"), k) == Prop(email, k)
    {
      if k != "apiKey" {
        assert Prop(Prop(JObj(saved), "email"), k) == Prop(Prop(JObj(m), "email"), k);
      }
    }
  }

  /** Sending back a reply with an empty key stores an empty key and keeps every other setting. */
  lemma RoundTripEmptyKey(file: Option<Obj>, bootTime: string, now: string)
    requires GetSpec(file, bootTime).Answer?
    requires Prop(JObj(Load(file, bootTime)), "email").JObj?
    requires !Truthy(Prop(Prop(JObj(Load(file, bootTime)), "email"), "apiKey"))
    ensures var current := Load(file, bootTime);
      var saved := PutSpec(file, bootTime, Some(JObj(GetSpec(file, bootTime).settings)), now).0;
      && saved.Some?
      && (forall k :: k != "updatedAt" && k != "email" ==> Get(saved.value, k) == Get(current, k))
      && (forall k :: k != "apiKey" ==> Prop(Prop(JObj(saved.value), "email"), k) == Prop(Prop(JObj(current), "email"), k))
      && Prop(Prop(JObj(saved.value), "email"), "apiKey") == JStr("")
  {
    var current := Load(file, bootTime);
    MaskedSpec(current);
    var m := Masked(current).value;
    assert !SendsMask(JObj(m));
    PutStores(file, bootTime, JObj(m), now);
    assert Get(PutSpec(file, bootTime, Some(JObj(m)), now).0.value, "email") == Get(m, "email");
  }

  /**
   * What `GET` answers can be sent back with `PUT`: the stored settings keep
   * every entry, every e-mail entry and a non-empty key, and only `updatedAt`
   * moves on; an empty key comes back as "".
   */
  lemma GetPutRoundTrip(file: Option<Obj>, bootTime: string, now: string)
    requires GetSpec(file, bootTime).Answer?
    requires Prop(JObj(Load(file, bootTime)), "email").JObj?
    ensures var current := Load(file, bootTime);
      var key := Prop(Prop(JObj(current), "email"), "apiKey");
      var saved := PutSpec(file, bootTime, Some(JObj(GetSpec(file, bootTime).settings)), now).0;
      && saved.Some?
      && Get(saved.value, "updatedAt") == Some(JStr(now))
      && (forall k :: k != "updatedAt" && k != "email" ==> Get(saved.value, k) == Get(current, k))
      && (forall k :: k != "apiKey" ==> Prop(Prop(JObj(saved.value), "email"), k) == Prop(Prop(JObj(current), "email"), k))
      && Prop(Prop(JObj(saved.value), "email"), "apiKey") == if Truthy(key) then key else JStr("")
  {
    var current := Load(file, bootTime);
    MaskedSpec(current);
    PutStores(file, bootTime, JObj(Masked(current).value), now);
    if Truthy(Prop(Prop(JObj(current), "email"), "apiKey")) {
      RoundTripMaskedKey(file, bootTime, now);
    } else {
      RoundTripEmptyKey(file, bootTime, now);
    }
  }

  /**
   * A `PUT` that sets `email` to `null` is saved, but its reply cannot mask
   * the key and answers 500; every `GET` after it answers 500 too.
   */
  lemma NullEmailIsSavedThenFails(file: Option<Obj>, bootTime: string, now: string)
    ensures var (saved, r) := PutSpec(file, bootTime, Some(JObj([("email", JNull)])), now);
      && saved.Some? && Prop(JObj(saved.value), "email") == JNull
      && r == Failure(500, SaveError)
      && GetSpec(saved, bootTime) == Failure(500, LoadError)
  {
    var b := JObj([("email", JNull)]);
    PutStores(file, bootTime, b, now);
    var saved := PutSpec(file, bootTime, Some(b), now).0.value;
    assert Get(saved, "email") == Some(JNull);
    assert Masked(saved).Err?;
  }

  // ---------------------------------------------------------------------------
  // PATCH

  /** The sections `PATCH` knows. */
  predicate KnownSection(section: Js) {
    section in {JStr("user"), JStr("email"), JStr("notifications"), JStr("onboarding")}
  }

  /** `{ ...currentSettings.email, ...data }`, with a masked key in `data` replaced by the stored one first. */
  function MergedEmail(current: Obj, data: Js): Result<Js> {
    var stored := Prop(JObj(current), "email");
    if Prop(data, "apiKey") == JStr(Mask) then
      if stored == JNull || stored == JUndefined then Err(NullAccessMessage(stored, "apiKey"))
      else Ok(JObj(Spread(Spread([], stored), JObj(Put(data.fields, "apiKey", Prop(stored, "apiKey"))))))
    else Ok(JObj(Spread(Spread([], stored), data)))
  }

  /**
   * What `PATCH` saves, given the body as parsed JSON: `user` is replaced by
   * `data`, `email` and `notifications` are shallow-merged with it,
   * `onboarding` sets only `onboardingCompleted`; any other section answers
   * 400. Reading a property of a `null` or missing body or `data` throws.
   */
  function PatchChange(current: Obj, body: Option<Js>): Change {
    if body.None? || body.value == JNull || body.value == JUndefined then Refuse(500, UpdateError)
    else PatchSection(current, Prop(body.value, "section"), Prop(body.value, "data"))
  }

  /** The `switch (section)` of `PATCH`. */
  function PatchSection(current: Obj, section: Js, data: Js): Change {
    if section == JStr("user") then Save(Put(current, "user", data))
    else if section == JStr("email") then
      if data == JNull || data == JUndefined then Refuse(500, UpdateError)
      else match MergedEmail(current, data)
        case Ok(email) => Save(Put(current, "email", email))
        case Err(_) => Refuse(500, UpdateError)
    else if section == JStr("notifications") then
      Save(Put(current, "notifications", JObj(Spread(Spread([], Prop(JObj(current), "notifications")), data))))
    else if section == JStr("onboarding") then
      if data == JNull || data == JUndefined then Refuse(500, UpdateError)
      else Save(Put(current, "onboardingCompleted", Prop(data, "completed")))
    else Refuse(400, UnknownSection)
  }

  /** `PATCH`. */
  function PatchSpec(file: Option<Obj>, bootTime: string, body: Option<Js>, now: string): (Option<Obj>, Response) {
    Commit(file, PatchChange(Load(file, bootTime), body), now, UpdateError)
  }

  /** `PATCH` answers 400 exactly for a JSON body naming no known section, and then saves nothing. */
  lemma PatchUnknownSection(file: Option<Obj>, bootTime: string, body: Option<Js>, now: string)
    ensures PatchSpec(file, bootTime, body, now).1 == Failure(400, UnknownSection) <==>
      body.Some? && body.value != JNull && body.value != JUndefined && !KnownSection(Prop(body.value, "section"))
    ensures PatchSpec(file, bootTime, body, now).1 == Failure(400, UnknownSection) ==> PatchSpec(file, bootTime, body, now).0 == file
  {
    var c := PatchChange(Load(file, bootTime), body);
    assert c == Refuse(400, UnknownSection) <==>
      body.Some? && body.value != JNull && body.value != JUndefined && !KnownSection(Prop(body.value, "section"));
    if c.Save? {
      assert PatchSpec(file, bootTime, body, now).1 == Reply(Stamp(c.settings, now), UpdateError);
    }
  }

  /** Every save of `PATCH` stamps `updatedAt` and leaves the other sections alone. */
  ghost predicate PatchedOnly(current: Obj, saved: Obj, section: string, now: string) {
    && Get(saved, "updatedAt") == Some(JStr(now))
    && forall k :: k != section && k != "updatedAt" ==> Get(saved, k) == Get(current, k)
  }

  /** Saving a change to one section. */
  lemma SavedSection(current: Obj, section: string, value: Js, now: string)
    ensures var saved := Stamp(Put(current, section, value), now);
      && (section != "updatedAt" ==> Get(saved, section) == Some(value))
      && PatchedOnly(current, saved, section, now)
  {
  }

  /** The `user` section is replaced wholesale by `data`. */
  lemma PatchUser(file: Option<Obj>, bootTime: string, body: Js, now: string)
    requires body != JNull && body != JUndefined && Prop(body, "section") == JStr("user")
    ensures var saved := PatchSpec(file, bootTime, Some(body), now).0;
      && saved.Some? && PatchedOnly(Load(file, bootTime), saved.value, "user", now)
      && Get(saved.value, "user") == Some(Prop(body, "data"))
  {
    var current := Load(file, bootTime);
    assert PatchSection(current, JStr("user"), Prop(body, "data")) == Save(Put(current, "user", Prop(body, "data")));
    SavedSection(current, "user", Prop(body, "data"), now);
  }

  /**
   * The `email` section is shallow-merged with `data`: a key `data` gives
   * takes its value, except a masked `apiKey`, which keeps the stored key;
   * every other key keeps the stored value.
   */
  lemma PatchEmail(file: Option<Obj>, bootTime: string, body: Js, now: string)
    requires body != JNull && body != JUndefined && Prop(body, "section") == JStr("email")
    requires Prop(body, "data").JObj?
    requires Prop(Prop(body, "data"), "apiKey") == JStr(Mask) ==> Prop(JObj(Load(file, bootTime)), "email") !in {JNull, JUndefined}
    ensures var data := Prop(body, "data");
      var stored := Prop(JObj(Load(file, bootTime)), "email");
      var saved := PatchSpec(file, bootTime, Some(body), now).0;
      && saved.Some? && PatchedOnly(Load(file, bootTime), saved.value, "email", now)
      && var email := Get(saved.value, "email");
      && email.Some? && email.value.JObj?
      && (forall k :: k != "apiKey" ==>
            Get(email.value.fields, k) == if Get(data.fields, k).Some? then Get(data.fields, k) else Get(OwnEntries(stored), k))
      && (Prop(data, "apiKey") == JStr(Mask) ==> Get(email.value.fields, "apiKey") == Some(Prop(stored, "apiKey")))
      && (Prop(data, "apiKey") != JStr(Mask) ==>
            Get(email.value.fields, "apiKey") ==
              if Get(data.fields, "apiKey").Some? then Get(data.fields, "apiKey") else Get(OwnEntries(stored), "apiKey"))
  {
    var current := Load(file, bootTime);
    var email := MergedEmail(current, Prop(body, "data"));
    MergedEmailGet(current, Prop(body, "data"));
    assert PatchSection(current, JStr("email"), Prop(body, "data")) == Save(Put(current, "email", email.value)) by {
      assert JStr("email") != JStr("user");
    }
    SavedSection(current, "email", email.value, now);
  }

  /** `{ ...currentSettings.email, ...data }` read key by key. */
  lemma MergedEmailGet(current: Obj, data: Js)
    requires data.JObj?
    requires Prop(data, "apiKey") == JStr(Mask) ==> Prop(JObj(current), "email") !in {JNull, JUndefined}
    ensures var stored := Prop(JObj(current), "email");
      var email := MergedEmail(current, data);
      && email.Ok? && email.value.JObj?
      && (forall k :: k != "apiKey" ==>
            Get(email.value.fields, k) == if Get(data.fields, k).Some? then Get(data.fields, k) else Get(OwnEntries(stored), k))
      && (Prop(data, "apiKey") == JStr(Mask) ==> Get(email.value.fields, "apiKey") == Some(Prop(stored, "apiKey")))
      && (Prop(data, "apiKey") != JStr(Mask) ==>
            Get(email.value.fields, "apiKey") ==
              if Get(data.fields, "apiKey").Some? then Get(data.fields, "apiKey") else Get(OwnEntries(stored), "apiKey"))
  {
    var stored := Prop(JObj(current), "email");
    var email := MergedEmail(current, data).value;
    if Prop(data, "apiKey") == JStr(Mask) {
      var d := JObj(Put(data.fields, "apiKey", Prop(stored, "apiKey")));
      forall k
        ensures Get(email.fields, k) == if Get(d.fields, k).Some? then Get(d.fields, k) else Get(OwnEntries(stored), k)
      {
        MergeGet(stored, d, k);
      }
    } else {
      forall k
        ensures Get(email.fields, k) == if Get(data.fields, k).Some? then Get(data.fields, k) else Get(OwnEntries(stored), k)
      {
        MergeGet(stored, data, k);
      }
    }
  }

  /** The `notifications` section is shallow-merged with `data`. */
  lemma PatchNotifications(file: Option<Obj>, bootTime: string, body: Js, now: string)
    requires body != JNull && body != JUndefined && Prop(body, "section") == JStr("notifications")
    ensures var data := Prop(body, "data");
      var stored := Prop(JObj(Load(file, bootTime)), "notifications");
      var saved := PatchSpec(file, bootTime, Some(body), now).0;
      && saved.Some? && PatchedOnly(Load(file, bootTime), saved.value, "notifications", now)
      && var n := Get(saved.value, "notifications");
      && n.Some? && n.value.JObj?
      && forall k :: Get(n.value.fields, k) ==
           if Get(OwnEntries(data), k).Some? then Get(OwnEntries(data), k) else Get(OwnEntries(stored), k)
  {
    var current := Load(file, bootTime);
    var data := Prop(body, "data");
    var stored := Prop(JObj(current), "notifications");
    assert PatchSection(current, JStr("notifications"), data) == Save(Put(current, "notifications", JObj(Spread(Spread([], stored), data)))) by {
      assert JStr("notifications") != JStr("user") && JStr("notifications") != JStr("email");
    }
    SavedSection(current, "notifications", JObj(Spread(Spread([], stored), data)), now);
    forall k
      ensures Get(Spread(Spread([], stored), data), k) ==
        if Get(OwnEntries(data), k).Some? then Get(OwnEntries(data), k) else Get(OwnEntries(stored), k)
    {
      MergeGet(stored, data, k);
    }
  }

  /** The `onboarding` section sets only `onboardingCompleted`, to `data.completed`. */
  lemma PatchOnboarding(file: Option<Obj>, bootTime: string, body: Js, now: string)
    requires body != JNull && body != JUndefined && Prop(body, "section") == JStr("onboarding")
    requires Prop(body, "data") != JNull && Prop(body, "data") != JUndefined
    ensures var saved := PatchSpec(file, bootTime, Some(body), now).0;
      && saved.Some? && PatchedOnly(Load(file, bootTime), saved.value, "onboardingCompleted", now)
      && Get(saved.value, "onboardingCompleted") == Some(Prop(Prop(body, "data"), "completed"))
  {
    OnboardingSaved(Load(file, bootTime), Prop(body, "data"), now);
  }

  /** What the `onboarding` section saves over any loaded settings. */
  lemma OnboardingSaved(current: Obj, data: Js, now: string)
    requires data != JNull && data != JUndefined
    ensures var c := PatchSection(current, JStr("onboarding"), data);
      && c == Save(Put(current, "onboardingCompleted", Prop(data, "completed")))
      && PatchedOnly(current, Stamp(c.settings, now), "onboardingCompleted", now)
      && Get(Stamp(c.settings, now), "onboardingCompleted") == Some(Prop(data, "completed"))
  {
    var value := Prop(data, "completed");
    assert PatchSection(current, JStr("onboarding"), data) == Save(Put(current, "onboardingCompleted", value)) by {
      assert JStr("onboarding") != JStr("user") && JStr("onboarding") != JStr("email") && JStr("onboarding") != JStr("notifications");
    }
    SavedSection(current, "onboardingCompleted", value, now);
  }

  /** `PATCH` refuses a body that is not JSON or is `null` with 500, and an `email` or `onboarding` section without `data` too. */
  lemma PatchRefusals(file: Option<Obj>, bootTime: string, body: Option<Js>, now: string)
    requires body.None? || body.value == JNull ||
      (Prop(body.value, "section") in {JStr("email"), JStr("onboarding")} && Prop(body.value, "data") in {JNull, JUndefined})
    ensures PatchSpec(file, bootTime, body, now) == (file, Failure(500, UpdateError))
  {
  }

  /** Whatever `PUT` or `PATCH` writes is stamped with the time of the request. */
  lemma SavesAreStamped(file: Option<Obj>, bootTime: string, body: Option<Js>, now: string)
    ensures var saved := PutSpec(file, bootTime, body, now).0;
      saved != file ==> saved.Some? && Get(saved.value, "updatedAt") == Some(JStr(now))
    ensures var saved := PatchSpec(file, bootTime, body, now).0;
      saved != file ==> saved.Some? && Get(saved.value, "updatedAt") == Some(JStr(now))
  {
  }

  // ---------------------------------------------------------------------------
  // The handlers over the settings file

  class SettingsFile {
    /** The parsed content of `data/settings.json`; `None` when it is missing or cannot be read. */
    var file: Option<Obj>
    /** When the module was loaded, as an ISO string: the `updatedAt` of `defaultSettings`. */
    const bootTime: string

    /** Before the first save there is no settings file. */
    constructor(bootTime: string)
      ensures file == None && this.bootTime == bootTime
    {
      file := None;
      this.bootTime := bootTime;
    }

    /** `loadSettings`. */
    method LoadSettings() returns (s: Obj)
      ensures s == Load(file, bootTime)
    {
      if file.Some? {
        s := file.value;
      } else {
        s := Defaults(bootTime);
      }
    }

    /** `saveSettings`: stamp the settings, then write them. */
    method SaveSettings(s: Obj, now: string) returns (saved: Obj)
      modifies this
      ensures saved == Stamp(s, now) && file == Some(saved)
    {
      saved := Put(s, "updatedAt", JStr(now));
      file := Some(saved);
    }

    /** `GET`. */
    method GetSettings() returns (r: Response)
      ensures r == GetSpec(file, bootTime)
    {
      var settings := LoadSettings();
      r := Reply(settings, LoadError);
    }

    /** `PUT` at time `now`, with the body as parsed JSON (`None` when it is not JSON). */
    method PutSettings(body: Option<Js>, now: string) returns (r: Response)
      modifies this
      ensures (file, r) == PutSpec(old(file), bootTime, body, now)
    {
      if body.None? {
        return Failure(500, SaveError);
      }
      var b := body.value;
      var current := LoadSettings();
      if b == JNull || b == JUndefined {
        return Failure(500, SaveError);
      }
      var updated := Spliced(current, b, now);
      if SendsMask(b) {
        var stored := Prop(JObj(current), "email");
        if stored == JNull || stored == JUndefined {
          return Failure(500, SaveError);
        }
        updated := Put(updated, "email", JObj(Put(Prop(b, "email").fields, "apiKey", Prop(stored, "apiKey"))));
      }
      assert PutChange(current, body, now) == Save(updated);
      var saved := SaveSettings(updated, now);
      r := Reply(saved, SaveError);
    }

    /** `PATCH` at time `now`, with the body as parsed JSON (`None` when it is not JSON). */
    method PatchSettings(body: Option<Js>, now: string) returns (r: Response)
      modifies this
      ensures (file, r) == PatchSpec(old(file), bootTime, body, now)
    {
      if body.None? || body.value == JNull || body.value == JUndefined {
        return Failure(500, UpdateError);
      }
      var section := Prop(body.value, "section");
      var data := Prop(body.value, "data");
      var current := LoadSettings();
      ghost var loaded := current;
      if section == JStr("user") {
        current := Put(current, "user", data);
      } else if section == JStr("email") {
        if data == JNull || data == JUndefined {
          return Failure(500, UpdateError);
        }
        if Prop(data, "apiKey") == JStr(Mask) {
          var stored := Prop(JObj(current), "email");
          if stored == JNull || stored == JUndefined {
            return Failure(500, UpdateError);
          }
          data := JObj(Put(data.fields, "apiKey", Prop(stored, "apiKey")));
        }
        current := Put(current, "email", JObj(Spread(Spread([], Prop(JObj(current), "email")), data)));
      } else if section == JStr("notifications") {
        current := Put(current, "notifications", JObj(Spread(Spread([], Prop(JObj(current), "notifications")), data)));
      } else if section == JStr("onboarding") {
        if data == JNull || data == JUndefined {
          return Failure(500, UpdateError);
        }
        current := Put(current, "onboardingCompleted", Prop(data, "completed"));
      } else {
        return Failure(400, UnknownSection);
      }
      assert PatchChange(loaded, body) == Save(current);
      var saved := SaveSettings(current, now);
      r := Reply(saved, UpdateError);
    }
  }
}
