/**
 * The Redis session store: sessions with an absolute and an idle timeout,
 * each user's set of session ids, and the limit of three concurrent sessions.
 * Redis is a map from keys to values with an expiry time (`Db`); the store is
 * a class whose one field is that map, and every operation takes the clock
 * reading `now` (milliseconds) as a parameter.
 */
module SessionStore {
  import opened Common

  /** `SESSION_POLICY`, in seconds. */
  const IdleTimeout: int := 30 * 60
  const AbsoluteTimeout: int := 8 * 60 * 60
  const MaxConcurrentSessions: int := 3

  /** A stored session. Times are milliseconds since the epoch. */
  datatype SessionData = SessionData(
    userId: string, email: string, role: string, mfaEnabled: bool, mfaVerified: bool,
    createdAt: int, lastActivity: int, expiresAt: int,
    userAgent: Option<string>, ipAddress: Option<string>, metadata: Option<Js>)

  /** What `createSession` is given: a session without its three times. */
  datatype NewSession = NewSession(
    userId: string, email: string, role: string, mfaEnabled: bool, mfaVerified: bool,
    userAgent: Option<string>, ipAddress: Option<string>, metadata: Option<Js>)

  /** A `Partial<SessionData>`: the fields to overwrite. */
  datatype SessionUpdate = SessionUpdate(
    userId: Option<string>, email: Option<string>, role: Option<string>,
    mfaEnabled: Option<bool>, mfaVerified: Option<bool>,
    createdAt: Option<int>, lastActivity: Option<int>, expiresAt: Option<int>,
    userAgent: Option<string>, ipAddress: Option<string>, metadata: Option<Js>)

  const NoChange: SessionUpdate :=
    SessionUpdate(None, None, None, None, None, None, None, None, None, None, None)

  /** `{ ...session, ...updates, lastActivity: now }`. */
  function Merge(s: SessionData, u: SessionUpdate, now: int): (r: SessionData)
    ensures r.lastActivity == now
  {
    SessionData(
      u.userId.GetOr(s.userId), u.email.GetOr(s.email), u.role.GetOr(s.role),
      u.mfaEnabled.GetOr(s.mfaEnabled), u.mfaVerified.GetOr(s.mfaVerified),
      u.createdAt.GetOr(s.createdAt), now, u.expiresAt.GetOr(s.expiresAt),
      if u.userAgent.Some? then u.userAgent else s.userAgent,
      if u.ipAddress.Some? then u.ipAddress else s.ipAddress,
      if u.metadata.Some? then u.metadata else s.metadata)
  }

  /** An empty update only stamps the activity time. */
  lemma MergeNothing(s: SessionData, now: int)
    ensures Merge(s, NoChange, now) == s.(lastActivity := now)
  {
  }

  /** Merging the same update twice is merging it once; the fields it names take its values. */
  lemma MergeSpec(s: SessionData, u: SessionUpdate, now: int)
    ensures Merge(Merge(s, u, now), u, now) == Merge(s, u, now)
    ensures u.mfaVerified.Some? ==> Merge(s, u, now).mfaVerified == u.mfaVerified.value
    ensures u.expiresAt.None? ==> Merge(s, u, now).expiresAt == s.expiresAt
    ensures u.createdAt.None? ==> Merge(s, u, now).createdAt == s.createdAt
    ensures u.userId.None? ==> Merge(s, u, now).userId == s.userId
  {
  }

  // ---------------------------------------------------------------------------
  // Redis as a map with expiry

  /** A value under `session:<id>` and the time (ms) at which Redis drops the key. */
  datatype Entry = Entry(session: SessionData, until: int)

  /** The set under `user_sessions:<userId>` and the time at which Redis drops it. */
  datatype IdSet = IdSet(ids: set<string>, until: int)

  /** The keys the store uses. A key is readable before its `until` and gone from then on. */
  datatype Db = Db(records: map<string, Entry>, userSets: map<string, IdSet>)

  /** `GET session:<id>` at `now`. */
  function Read(db: Db, id: string, now: int): Option<SessionData> {
    if id in db.records && now < db.records[id].until then Some(db.records[id].session) else None
  }

  /** `SMEMBERS user_sessions:<userId>` at `now`. */
  function Members(db: Db, userId: string, now: int): set<string> {
    if userId in db.userSets && now < db.userSets[userId].until then db.userSets[userId].ids else {}
  }

  /** Whether a readable session has passed its absolute expiry: `session.expiresAt < Date.now()`. */
  predicate Expired(s: SessionData, now: int) {
    s.expiresAt < now
  }

  /**
   * Every key expires in Redis no later than its session's `expiresAt`. Every
   * write of the store keeps this, except an update that moves `expiresAt`.
   */
  predicate Valid(db: Db) {
    forall id :: id in db.records ==> db.records[id].until <= db.records[id].session.expiresAt
  }

  /** Under `Valid` a readable session has not expired. */
  lemma ReadableIsLive(db: Db, id: string, now: int)
    requires Valid(db) && Read(db, id, now).Some?
    ensures !Expired(Read(db, id, now).value, now)
  {
  }

  // ---------------------------------------------------------------------------
  // getSession and destroySession

  /** What a call of `getSession` comes to, as written. */
  datatype Lookup = Missing | Live(session: SessionData) | Loops

  /**
   * `getSession(id)` as written. On a readable record past its `expiresAt` it
   * calls `destroySession(id)`, whose first step is `getSession(id)` on the
   * same record, with nothing deleted in between: the two calls keep calling
   * each other, and neither returns while Redis still holds the key (`Loops`).
   */
  function GetAsWritten(db: Db, id: string, now: int): (r: Lookup)
    ensures r.Live? ==> Read(db, id, now) == Some(r.session) && !Expired(r.session, now)
    ensures r.Missing? <==> Read(db, id, now).None?
  {
    match Read(db, id, now)
    case None => Missing
    case Some(s) => if Expired(s, now) then Loops else Live(s)
  }

  /** As long as keys expire no later than their sessions, `getSession` always returns. */
  lemma ValidNeverLoops(db: Db, id: string, now: int)
    requires Valid(db)
    ensures !GetAsWritten(db, id, now).Loops?
    ensures GetAsWritten(db, id, now).Live? <==> Read(db, id, now).Some?
  {
  }

  /**
   * `destroySession(id)`, reading the record directly rather than through
   * `getSession`: the key goes, and the id leaves the set of the user the
   * record names (when that id is not empty).
   */
  function Destroyed(db: Db, id: string, now: int): (r: Db)
    ensures Valid(db) ==> Valid(r)
    ensures r.records == db.records - {id}
  {
    var raw := Read(db, id, now);
    if raw.Some? && raw.value.userId != "" && raw.value.userId in db.userSets then
      var u := raw.value.userId;
      Db(db.records - {id}, db.userSets[u := db.userSets[u].(ids := db.userSets[u].ids - {id})])
    else
      Db(db.records - {id}, db.userSets)
  }

  /**
   * `getSession(id)` with that destroy: an expired record is deleted and the
   * answer is null; a live one is returned; nothing else changes.
   */
  function GetStep(db: Db, id: string, now: int): (Option<SessionData>, Db) {
    match Read(db, id, now)
    case None => (None, db)
    case Some(s) => if Expired(s, now) then (None, Destroyed(db, id, now)) else (Some(s), db)
  }

  /**
   * The corrected `getSession` always returns, never hands out an expired
   * session, and leaves the record live or gone.
   */
  lemma GetStepSpec(db: Db, id: string, now: int)
    ensures var (r, db') := GetStep(db, id, now);
      && (r.Some? ==> r == Read(db, id, now) && !Expired(r.value, now) && db' == db)
      && (r.None? ==> Read(db', id, now).None?)
      && (Valid(db) ==> Valid(db'))
  {
  }

  /** Under `Valid` the corrected `getSession` answers what the original does and changes nothing. */
  lemma GetStepAgrees(db: Db, id: string, now: int)
    requires Valid(db)
    ensures GetStep(db, id, now).1 == db
    ensures GetAsWritten(db, id, now) == if GetStep(db, id, now).0.Some? then Live(GetStep(db, id, now).0.value) else Missing
  {
  }

  /** A destroyed session is unreadable, and every other key is as it was. */
  lemma DestroyedSpec(db: Db, id: string, other: string, now: int)
    requires other != id
    ensures Read(Destroyed(db, id, now), id, now).None?
    ensures Read(Destroyed(db, id, now), other, now) == Read(db, other, now)
    ensures forall u :: Members(db, u, now) - {id} <= Members(Destroyed(db, id, now), u, now) <= Members(db, u, now)
  {
  }

  // ---------------------------------------------------------------------------
  // The user's live sessions, their creation times, and the sort by creation time

  /** The ids in the user's set whose records are readable and not expired. */
  function LiveOf(db: Db, userId: string, now: int): set<string> {
    set id | id in Members(db, userId, now) && Read(db, id, now).Some? && !Expired(Read(db, id, now).value, now)
  }

  /** The ids of `order` whose records are readable. */
  function LiveIn(db: Db, order: seq<string>, now: int): set<string> {
    set id | id in order && Read(db, id, now).Some?
  }

  /** The creation times of the records of `ids`. */
  function CreatedOf(db: Db, ids: set<string>): set<int> {
    set id | id in ids && id in db.records :: db.records[id].session.createdAt
  }

  /** No two of the records of `ids` were created at the same millisecond. */
  predicate UniqueCreated(db: Db, ids: set<string>) {
    forall a, b :: a in ids && b in ids && a in db.records && b in db.records && a != b ==>
      db.records[a].session.createdAt != db.records[b].session.createdAt
  }

  /** The ids of `ids` whose records were created at millisecond `c`. */
  function AtTime(db: Db, ids: set<string>, c: int): set<string> {
    set id | id in ids && id in db.records && db.records[id].session.createdAt == c
  }

  /** How many of the sessions of `s` were created at millisecond `c`. */
  function Count(s: seq<SessionData>, c: int): nat {
    if s == [] then 0 else (if s[0].createdAt == c then 1 else 0) + Count(s[1..], c)
  }

  function CreatedSet(s: seq<SessionData>): set<int> {
    set x | x in s :: x.createdAt
  }

  predicate DistinctCreated(s: seq<SessionData>) {
    forall i, j :: 0 <= i < j < |s| ==> s[i].createdAt != s[j].createdAt
  }

  predicate SortedByCreated(s: seq<SessionData>) {
    forall i, j :: 0 <= i < j < |s| ==> s[i].createdAt <= s[j].createdAt
  }

  /** Puts `x` before the first session created no earlier than it. */
  function Insert(x: SessionData, s: seq<SessionData>): (r: seq<SessionData>)
    ensures |r| == |s| + 1
    ensures multiset(r) == multiset(s) + multiset{x}
  {
    if s == [] || x.createdAt <= s[0].createdAt then [x] + s
    else
      assert s == [s[0]] + s[1..];
      [s[0]] + Insert(x, s[1..])
  }

  /**
   * `sessions.sort((a, b) => a.createdAt - b.createdAt)`: oldest first, and
   * sessions created at the same time keep their order, as the stable sort of
   * JavaScript does.
   */
  function SortByCreated(s: seq<SessionData>): (r: seq<SessionData>)
    ensures |r| == |s|
    ensures multiset(r) == multiset(s)
  {
    if s == [] then []
    else
      assert s == [s[0]] + s[1..];
      Insert(s[0], SortByCreated(s[1..]))
  }

  lemma {:induction false} InsertSorted(x: SessionData, s: seq<SessionData>)
    requires SortedByCreated(s)
    ensures SortedByCreated(Insert(x, s))
    ensures forall i :: 0 <= i < |Insert(x, s)| ==> Insert(x, s)[i] == x || Insert(x, s)[i] in s
    decreases |s|
  {
    if s != [] && x.createdAt > s[0].createdAt {
      InsertSorted(x, s[1..]);
      var r := Insert(x, s[1..]);
      forall i | 0 <= i < |r|
        ensures s[0].createdAt <= r[i].createdAt
      {
        if r[i] != x {
          var k :| 0 <= k < |s[1..]| && s[1..][k] == r[i];
          assert s[k + 1] == r[i];
        }
      }
    }
  }

  lemma {:induction false} InsertDistinct(x: SessionData, s: seq<SessionData>)
    requires DistinctCreated(s) && x.createdAt !in CreatedSet(s)
    ensures DistinctCreated(Insert(x, s))
    ensures CreatedSet(Insert(x, s)) == CreatedSet(s) + {x.createdAt}
    decreases |s|
  {
    if s == [] {
    } else if x.createdAt <= s[0].createdAt {
      DistinctCons(x, s);
    } else {
      DistinctTail(s);
      InsertDistinct(x, s[1..]);
      DistinctCons(s[0], Insert(x, s[1..]));
      assert s == [s[0]] + s[1..];
      CreatedSetCons(s[0], s[1..]);
      CreatedSetCons(s[0], Insert(x, s[1..]));
    }
  }

  lemma CreatedSetCons(x: SessionData, s: seq<SessionData>)
    ensures CreatedSet([x] + s) == {x.createdAt} + CreatedSet(s)
  {
    assert forall y :: y in [x] + s <==> y == x || y in s;
  }

  lemma CreatedSetSnoc(s: seq<SessionData>, x: SessionData)
    ensures CreatedSet(s + [x]) == CreatedSet(s) + {x.createdAt}
  {
    assert forall y :: y in s + [x] <==> y in s || y == x;
  }

  /** A first session created at a new time keeps the creation times distinct. */
  lemma DistinctCons(x: SessionData, s: seq<SessionData>)
    requires DistinctCreated(s) && x.createdAt !in CreatedSet(s)
    ensures DistinctCreated([x] + s)
  {
    var r := [x] + s;
    forall i, j | 0 <= i < j < |r|
      ensures r[i].createdAt != r[j].createdAt
    {
      if i == 0 {
        assert r[j] == s[j - 1] && r[j] in s;
      } else {
        assert r[i] == s[i - 1] && r[j] == s[j - 1];
      }
    }
  }

  lemma DistinctSnoc(s: seq<SessionData>, x: SessionData)
    requires DistinctCreated(s) && x.createdAt !in CreatedSet(s)
    ensures DistinctCreated(s + [x])
  {
    var r := s + [x];
    forall i, j | 0 <= i < j < |r|
      ensures r[i].createdAt != r[j].createdAt
    {
      if j == |s| {
        assert r[i] == s[i] && r[i] in s;
      } else {
        assert r[i] == s[i] && r[j] == s[j];
      }
    }
  }

  lemma DistinctTail(s: seq<SessionData>)
    requires s != [] && DistinctCreated(s)
    ensures DistinctCreated(s[1..]) && s[0].createdAt !in CreatedSet(s[1..])
  {
  }

  /** A permutation has the same creation times. */
  lemma PermutationCreated(r: seq<SessionData>, s: seq<SessionData>)
    requires multiset(r) == multiset(s)
    ensures CreatedSet(r) == CreatedSet(s)
  {
    assert forall y :: y in r <==> y in multiset(r);
    assert forall y :: y in s <==> y in multiset(s);
  }

  /**
   * The sort is a permutation ordered by creation time, oldest first, with
   * the same creation times, each as often as before, distinct ones staying
   * distinct.
   */
  lemma SortSpec(s: seq<SessionData>)
    ensures multiset(SortByCreated(s)) == multiset(s)
    ensures SortedByCreated(SortByCreated(s))
    ensures CreatedSet(SortByCreated(s)) == CreatedSet(s)
    ensures DistinctCreated(s) ==> DistinctCreated(SortByCreated(s))
    ensures forall c :: Count(SortByCreated(s), c) == Count(s, c)
  {
    SortSorted(s);
    forall c
      ensures Count(SortByCreated(s), c) == Count(s, c)
    {
      SortCount(s, c);
    }
    PermutationCreated(SortByCreated(s), s);
    if DistinctCreated(s) {
      SortDistinct(s);
    }
  }

  lemma {:induction false} SortSorted(s: seq<SessionData>)
    ensures SortedByCreated(SortByCreated(s))
    decreases |s|
  {
    if s != [] {
      SortSorted(s[1..]);
      InsertSorted(s[0], SortByCreated(s[1..]));
    }
  }

  lemma {:induction false} SortDistinct(s: seq<SessionData>)
    requires DistinctCreated(s)
    ensures DistinctCreated(SortByCreated(s))
    decreases |s|
  {
    if s != [] {
      DistinctTail(s);
      SortDistinct(s[1..]);
      var r := SortByCreated(s[1..]);
      PermutationCreated(r, s[1..]);
      InsertDistinct(s[0], r);
    }
  }

  lemma {:induction false} CountAppend(a: seq<SessionData>, b: seq<SessionData>, c: int)
    ensures Count(a + b, c) == Count(a, c) + Count(b, c)
    decreases |a|
  {
    if a == [] {
      assert a + b == b;
    } else {
      assert (a + b)[1..] == a[1..] + b;
      CountAppend(a[1..], b, c);
    }
  }

  /** A creation time counted in `s` is that of one of its sessions. */
  lemma {:induction false} CountPositive(s: seq<SessionData>, c: int)
    requires Count(s, c) > 0
    ensures exists j :: 0 <= j < |s| && s[j].createdAt == c
    decreases |s|
  {
    if s[0].createdAt != c {
      CountPositive(s[1..], c);
      var j :| 0 <= j < |s| - 1 && s[1..][j].createdAt == c;
      assert s[j + 1].createdAt == c;
    }
  }

  lemma {:induction false} InsertCount(x: SessionData, s: seq<SessionData>, c: int)
    ensures Count(Insert(x, s), c) == Count(s, c) + (if x.createdAt == c then 1 else 0)
    decreases |s|
  {
    if s == [] || x.createdAt <= s[0].createdAt {
      assert ([x] + s)[1..] == s;
    } else {
      InsertCount(x, s[1..], c);
      assert ([s[0]] + Insert(x, s[1..]))[1..] == Insert(x, s[1..]);
    }
  }

  lemma {:induction false} SortCount(s: seq<SessionData>, c: int)
    ensures Count(SortByCreated(s), c) == Count(s, c)
    decreases |s|
  {
    if s != [] {
      SortCount(s[1..], c);
      InsertCount(s[0], SortByCreated(s[1..]), c);
    }
  }

  // ---------------------------------------------------------------------------
  // getUserSessions

  /**
   * `getSession` on each id of `order` in turn, keeping the sessions it
   * returns: the sessions and the state `getUserSessions` leaves.
   */
  function Collect(db: Db, order: seq<string>, now: int): (seq<SessionData>, Db)
    decreases |order|
  {
    if order == [] then ([], db)
    else
      var (sessions, db1) := Collect(db, order[..|order| - 1], now);
      var (r, db2) := GetStep(db1, order[|order| - 1], now);
      (sessions + (if r.Some? then [r.value] else []), db2)
  }

  /** The readable sessions of `order`, in order. */
  function Readable(db: Db, order: seq<string>, now: int): seq<SessionData>
    decreases |order|
  {
    if order == [] then []
    else
      var r := Read(db, order[|order| - 1], now);
      Readable(db, order[..|order| - 1], now) + (if r.Some? then [r.value] else [])
  }

  lemma CollectSnoc(db: Db, order: seq<string>, id: string, now: int)
    ensures var (sessions, db1) := Collect(db, order, now);
      var (r, db2) := GetStep(db1, id, now);
      Collect(db, order + [id], now) == (sessions + (if r.Some? then [r.value] else []), db2)
  {
    var next := order + [id];
    assert next[..|next| - 1] == order && next[|next| - 1] == id;
  }

  lemma SetSnoc(order: seq<string>, id: string)
    ensures (set x | x in order + [id]) == (set x | x in order) + {id}
    ensures id !in order && NoDup(order) ==> NoDup(order + [id])
  {
    assert forall x :: x in order + [id] <==> x in order || x == id;
  }

  /** Under `Valid`, `getUserSessions` changes nothing and returns the readable sessions. */
  lemma {:induction false} CollectValid(db: Db, order: seq<string>, now: int)
    requires Valid(db)
    ensures Collect(db, order, now) == (Readable(db, order, now), db)
    decreases |order|
  {
    if order != [] {
      CollectValid(db, order[..|order| - 1], now);
    }
  }

  /**
   * One session per readable id, with the creation times of those records;
   * when they are distinct, so are the returned ones.
   */
  lemma {:induction false} ReadableSpec(db: Db, order: seq<string>, now: int)
    requires NoDup(order)
    ensures |Readable(db, order, now)| == |LiveIn(db, order, now)|
    ensures CreatedSet(Readable(db, order, now)) == CreatedOf(db, LiveIn(db, order, now))
    ensures UniqueCreated(db, LiveIn(db, order, now)) ==> DistinctCreated(Readable(db, order, now))
    decreases |order|
  {
    if order != [] {
      var p, x := order[..|order| - 1], order[|order| - 1];
      assert NoDup(p);
      ReadableSpec(db, p, now);
      var ss := Readable(db, p, now);
      assert order == p + [x];
      assert x !in p;
      LiveInSnoc(db, p, x, now);
      if Read(db, x, now).Some? {
        var y := Read(db, x, now).value;
        CreatedSetSnoc(ss, y);
        CreatedOfAdd(db, LiveIn(db, p, now), x);
        if UniqueCreated(db, LiveIn(db, order, now)) {
          assert y.createdAt !in CreatedSet(ss);
          DistinctSnoc(ss, y);
        }
      }
    }
  }

  /** The returned sessions hold each creation time once per readable id created then. */
  lemma {:induction false} ReadableCount(db: Db, order: seq<string>, now: int, c: int)
    requires NoDup(order)
    ensures Count(Readable(db, order, now), c) == |AtTime(db, LiveIn(db, order, now), c)|
    decreases |order|
  {
    if order != [] {
      var p, x := order[..|order| - 1], order[|order| - 1];
      assert NoDup(p);
      ReadableCount(db, p, now, c);
      assert order == p + [x];
      assert x !in p;
      LiveInSnoc(db, p, x, now);
      var live := LiveIn(db, p, now);
      if Read(db, x, now).Some? {
        var y := Read(db, x, now).value;
        assert Readable(db, order, now) == Readable(db, p, now) + [y];
        CountSnoc(Readable(db, p, now), y, c);
        assert x !in live;
        AtTimeAdd(db, live, x, c);
        assert LiveIn(db, order, now) == live + {x};
      } else {
        assert Readable(db, order, now) == Readable(db, p, now) + [];
        assert Readable(db, order, now) == Readable(db, p, now);
        assert LiveIn(db, order, now) == live;
      }
    }
  }

  lemma CountSnoc(s: seq<SessionData>, y: SessionData, c: int)
    ensures Count(s + [y], c) == Count(s, c) + (if y.createdAt == c then 1 else 0)
  {
    CountAppend(s, [y], c);
    assert [y][1..] == [];
  }

  lemma AtTimeAdd(db: Db, ids: set<string>, x: string, c: int)
    requires x !in ids && x in db.records
    ensures |AtTime(db, ids + {x}, c)| == |AtTime(db, ids, c)| + (if db.records[x].session.createdAt == c then 1 else 0)
  {
    if db.records[x].session.createdAt == c {
      assert AtTime(db, ids + {x}, c) == AtTime(db, ids, c) + {x};
    } else {
      assert AtTime(db, ids + {x}, c) == AtTime(db, ids, c);
    }
  }

  lemma LiveInSnoc(db: Db, p: seq<string>, x: string, now: int)
    ensures LiveIn(db, p + [x], now) == LiveIn(db, p, now) + (if Read(db, x, now).Some? then {x} else {})
  {
    assert forall id :: id in p + [x] <==> id in p || id == x;
  }

  lemma CreatedOfAdd(db: Db, ids: set<string>, x: string)
    requires x in db.records
    ensures CreatedOf(db, ids + {x}) == CreatedOf(db, ids) + {db.records[x].session.createdAt}
  {
  }

  // ---------------------------------------------------------------------------
  // What the writes of the store come to

  /** `after` is `before` with some keys deleted and some ids taken out of sets. */
  ghost predicate DeletesOnly(before: Db, after: Db, now: int) {
    && (forall k :: k in after.records ==> k in before.records && after.records[k] == before.records[k])
    && (forall v :: Members(after, v, now) <= Members(before, v, now))
  }

  lemma DeletesOnlyTrans(a: Db, b: Db, c: Db, now: int)
    requires DeletesOnly(a, b, now) && DeletesOnly(b, c, now)
    ensures DeletesOnly(a, c, now)
  {
  }

  lemma DestroyedDeletesOnly(db: Db, id: string, now: int)
    ensures DeletesOnly(db, Destroyed(db, id, now), now)
  {
    var r := Destroyed(db, id, now);
    forall v
      ensures Members(r, v, now) <= Members(db, v, now)
    {
    }
  }

  lemma {:induction false} CollectDeletesOnly(db: Db, order: seq<string>, now: int)
    ensures DeletesOnly(db, Collect(db, order, now).1, now)
    decreases |order|
  {
    if order != [] {
      var p := order[..|order| - 1];
      CollectDeletesOnly(db, p, now);
      var db1 := Collect(db, p, now).1;
      DestroyedDeletesOnly(db1, order[|order| - 1], now);
    }
  }

  /** Destroying a session takes exactly that id out of every user's live sessions. */
  lemma LiveAfterDestroy(db: Db, u: string, x: string, now: int)
    ensures LiveOf(Destroyed(db, x, now), u, now) == LiveOf(db, u, now) - {x}
  {
    var r := Destroyed(db, x, now);
    forall id | id != x
      ensures Read(r, id, now) == Read(db, id, now)
    {
    }
    assert Members(db, u, now) - {x} <= Members(r, u, now) <= Members(db, u, now);
  }

  /**
   * What `enforceSessionLimit(userId)` promises: it only deletes, and when
   * keys expire no later than their sessions it removes the oldest of the
   * user's live sessions until at most three remain. Sessions created at the
   * same millisecond are removed in whatever order `SMEMBERS` lists them.
   */
  ghost predicate Enforced(before: Db, after: Db, userId: string, now: int) {
    && DeletesOnly(before, after, now)
    && (Valid(before) ==>
        && LiveOf(after, userId, now) <= LiveOf(before, userId, now)
        && |LiveOf(after, userId, now)| == Min(|LiveOf(before, userId, now)|, MaxConcurrentSessions)
        && forall a, b ::
             a in LiveOf(before, userId, now) - LiveOf(after, userId, now) && b in LiveOf(after, userId, now)
             && a in before.records && b in before.records ==>
             before.records[a].session.createdAt <= before.records[b].session.createdAt)
  }

  /** `sorted` holds each creation time once per live session of `u` created then. */
  ghost predicate TimesMatch(db: Db, u: string, sorted: seq<SessionData>, now: int) {
    forall c :: Count(sorted, c) == |AtTime(db, LiveOf(db, u, now), c)|
  }

  /** The removed ids `gone` hold each creation time as often as the first `i` entries of `sorted`. */
  ghost predicate RemovedPrefix(db: Db, gone: set<string>, sorted: seq<SessionData>, i: nat)
    requires i <= |sorted|
  {
    forall c :: |AtTime(db, gone, c)| == Count(sorted[..i], c)
  }

  /**
   * When keys expire no later than their sessions, `getUserSessions` changes
   * nothing and returns one session per live id, with their creation times.
   */
  lemma CollectedLive(db: Db, u: string, order: seq<string>, now: int)
    requires Valid(db) && NoDup(order) && (set id | id in order) == Members(db, u, now)
    ensures Collect(db, order, now) == (Readable(db, order, now), db)
    ensures |Readable(db, order, now)| == |LiveOf(db, u, now)|
    ensures TimesMatch(db, u, SortByCreated(Readable(db, order, now)), now)
  {
    CollectValid(db, order, now);
    ReadableSpec(db, order, now);
    assert LiveIn(db, order, now) == LiveOf(db, u, now);
    SortedMatches(db, u, order, now);
  }

  /** Sorting the sessions `getUserSessions` returns lists the live sessions' creation times. */
  lemma SortedMatches(db: Db, u: string, order: seq<string>, now: int)
    requires Valid(db) && NoDup(order) && LiveIn(db, order, now) == LiveOf(db, u, now)
    ensures TimesMatch(db, u, SortByCreated(Readable(db, order, now)), now)
  {
    forall c
      ensures Count(SortByCreated(Readable(db, order, now)), c) == |AtTime(db, LiveOf(db, u, now), c)|
    {
      SortCount(Readable(db, order, now), c);
      ReadableCount(db, order, now, c);
    }
  }

  lemma AtTimeSplit(db: Db, all: set<string>, part: set<string>, c: int)
    requires part <= all
    ensures |AtTime(db, all, c)| == |AtTime(db, part, c)| + |AtTime(db, all - part, c)|
  {
    assert AtTime(db, all - part, c) == AtTime(db, all, c) - AtTime(db, part, c);
    DiffSize(AtTime(db, all, c), AtTime(db, part, c));
  }

  /**
   * The round of the limit that looks for the creation time of `sorted[i]`
   * still finds a live session created then, ties included.
   */
  lemma RoundFinds(db0: Db, u: string, sorted: seq<SessionData>, i: nat, gone: set<string>, db: Db, now: int)
    requires Valid(db0) && TimesMatch(db0, u, sorted, now) && i < |sorted|
    requires gone <= LiveOf(db0, u, now) && LiveOf(db, u, now) == LiveOf(db0, u, now) - gone
    requires RemovedPrefix(db0, gone, sorted, i)
    requires DeletesOnly(db0, db, now)
    ensures exists id :: id in Members(db, u, now) && Read(db, id, now).Some? && Read(db, id, now).value.createdAt == sorted[i].createdAt
  {
    var L0 := LiveOf(db0, u, now);
    var t := sorted[i].createdAt;
    assert sorted == sorted[..i] + sorted[i..];
    CountAppend(sorted[..i], sorted[i..], t);
    assert sorted[i..][0] == sorted[i];
    AtTimeSplit(db0, L0, gone, t);
    assert AtTime(db0, L0 - gone, t) != {};
    var id :| id in AtTime(db0, L0 - gone, t);
    assert id in LiveOf(db, u, now);
  }

  /** One round of the limit removes a live session created at the next creation time of `sorted`. */
  lemma RoundRemoves(db0: Db, u: string, sorted: seq<SessionData>, i: nat, gone: set<string>, db: Db, x: string, now: int)
    requires Valid(db0) && i < |sorted|
    requires gone <= LiveOf(db0, u, now) && LiveOf(db, u, now) == LiveOf(db0, u, now) - gone && |gone| == i
    requires RemovedPrefix(db0, gone, sorted, i)
    requires DeletesOnly(db0, db, now)
    requires x in Members(db, u, now) && Read(db, x, now).Some? && Read(db, x, now).value.createdAt == sorted[i].createdAt
    ensures x in LiveOf(db0, u, now) && x !in gone
    ensures |gone + {x}| == i + 1 && RemovedPrefix(db0, gone + {x}, sorted, i + 1)
  {
    assert x in LiveOf(db, u, now);
    assert sorted[..i + 1] == sorted[..i] + [sorted[i]];
    forall c
      ensures |AtTime(db0, gone + {x}, c)| == Count(sorted[..i + 1], c)
    {
      CountAppend(sorted[..i], [sorted[i]], c);
      assert [sorted[i]][1..] == [];
      if sorted[i].createdAt == c {
        assert AtTime(db0, gone + {x}, c) == AtTime(db0, gone, c) + {x};
      } else {
        assert AtTime(db0, gone + {x}, c) == AtTime(db0, gone, c);
      }
    }
  }

  /**
   * The state after `i` rounds of the limit: only deletions so far, and in
   * the case the limit is stated for, `i` live sessions gone, holding the
   * first `i` creation times of `sorted`.
   */
  ghost predicate RoundsInv(db0: Db, u: string, sorted: seq<SessionData>, i: nat, db: Db, gone: set<string>, now: int) {
    && i <= |sorted|
    && DeletesOnly(db0, db, now)
    && (Valid(db0) && TimesMatch(db0, u, sorted, now) ==>
        && gone <= LiveOf(db0, u, now)
        && LiveOf(db, u, now) == LiveOf(db0, u, now) - gone
        && |gone| == i
        && RemovedPrefix(db0, gone, sorted, i))
  }

  lemma RoundsStart(db0: Db, u: string, sorted: seq<SessionData>, db: Db, now: int)
    requires DeletesOnly(db0, db, now)
    requires Valid(db0) && TimesMatch(db0, u, sorted, now) ==> db == db0
    ensures RoundsInv(db0, u, sorted, 0, db, {}, now)
  {
    forall c
      ensures |AtTime(db0, {}, c)| == Count(sorted[..0], c)
    {
      assert AtTime(db0, {}, c) == {};
    }
  }

  /** One round keeps the invariant, whatever id `SMEMBERS` lists first. */
  lemma RoundStep(db0: Db, u: string, sorted: seq<SessionData>, i: nat, before: Db, gone: set<string>,
                  found: Option<string>, after: Db, now: int)
    requires RoundsInv(db0, u, sorted, i, before, gone, now) && i < |sorted|
    requires found.None? ==> after == before
    requires found.None? ==> forall id :: id in Members(before, u, now) && Read(before, id, now).Some? ==>
      Read(before, id, now).value.createdAt != sorted[i].createdAt
    requires found.Some? ==> && found.value in Members(before, u, now)
                             && Read(before, found.value, now).Some?
                             && Read(before, found.value, now).value.createdAt == sorted[i].createdAt
                             && after == Destroyed(before, found.value, now)
    ensures RoundsInv(db0, u, sorted, i + 1, after, if found.Some? then gone + {found.value} else gone, now)
  {
    var v := Valid(db0) && TimesMatch(db0, u, sorted, now);
    if v {
      RoundFinds(db0, u, sorted, i, gone, before, now);
    }
    if found.Some? {
      DestroyedDeletesOnly(before, found.value, now);
      DeletesOnlyTrans(db0, before, after, now);
      LiveAfterDestroy(before, u, found.value, now);
      if v {
        RoundRemoves(db0, u, sorted, i, gone, before, found.value, now);
      }
    }
  }

  /** After the last round no removed live session is newer than a kept one. */
  lemma RoundsDone(db0: Db, u: string, sorted: seq<SessionData>, n: nat, gone: set<string>, after: Db, now: int)
    requires Valid(db0) && TimesMatch(db0, u, sorted, now) && SortedByCreated(sorted) && n <= |sorted|
    requires gone <= LiveOf(db0, u, now) && LiveOf(after, u, now) == LiveOf(db0, u, now) - gone
    requires RemovedPrefix(db0, gone, sorted, n)
    ensures forall a, b ::
      a in LiveOf(db0, u, now) - LiveOf(after, u, now) && b in LiveOf(after, u, now)
      && a in db0.records && b in db0.records ==>
      db0.records[a].session.createdAt <= db0.records[b].session.createdAt
  {
    var L0 := LiveOf(db0, u, now);
    assert sorted == sorted[..n] + sorted[n..];
    forall a, b | a in L0 - LiveOf(after, u, now) && b in LiveOf(after, u, now) && a in db0.records && b in db0.records
      ensures db0.records[a].session.createdAt <= db0.records[b].session.createdAt
    {
      var ca, cb := db0.records[a].session.createdAt, db0.records[b].session.createdAt;
      assert a in AtTime(db0, gone, ca);
      CountPositive(sorted[..n], ca);
      var j :| 0 <= j < n && sorted[..n][j].createdAt == ca;
      assert b in AtTime(db0, L0 - gone, cb);
      AtTimeSplit(db0, L0, gone, cb);
      CountAppend(sorted[..n], sorted[n..], cb);
      CountPositive(sorted[n..], cb);
      var k :| 0 <= k < |sorted| - n && sorted[n..][k].createdAt == cb;
      assert sorted[j].createdAt <= sorted[n + k].createdAt;
    }
  }
  /** Removing all but three of the sorted sessions leaves the three newest live ones. */
  lemma LimitDone(db0: Db, u: string, sorted: seq<SessionData>, n: nat, gone: set<string>, after: Db, now: int)
    requires |sorted| > MaxConcurrentSessions && n == |sorted| - MaxConcurrentSessions && SortedByCreated(sorted)
    requires Valid(db0) ==> TimesMatch(db0, u, sorted, now) && |sorted| == |LiveOf(db0, u, now)|
    requires RoundsInv(db0, u, sorted, n, after, gone, now)
    ensures Enforced(db0, after, u, now)
  {
    if Valid(db0) {
      RoundsDone(db0, u, sorted, n, gone, after, now);
      DiffSize(LiveOf(db0, u, now), gone);
    }
  }


  // ---------------------------------------------------------------------------
  // The single-key operations, as functions of the state

  /** The session `createSession` stores: created and last active now, expiring after the absolute timeout. */
  function NewData(data: NewSession, now: int): SessionData {
    SessionData(data.userId, data.email, data.role, data.mfaEnabled, data.mfaVerified,
                now, now, now + AbsoluteTimeout * 1000, data.userAgent, data.ipAddress, data.metadata)
  }

  /**
   * The writes of `createSession` before the limit: `SETEX session:<id>` for
   * the absolute timeout, `SADD` of the id and `EXPIRE` of the user's set.
   */
  function Added(db: Db, id: string, data: NewSession, now: int): Db {
    var u := data.userId;
    Db(db.records[id := Entry(NewData(data, now), now + AbsoluteTimeout * 1000)],
       db.userSets[u := IdSet(Members(db, u, now) + {id}, now + AbsoluteTimeout * 1000)])
  }

  /** A new session is live for the user, for eight hours and no longer. */
  lemma AddedSpec(db: Db, id: string, data: NewSession, now: int)
    ensures var db' := Added(db, id, data, now);
      && Read(db', id, now) == Some(NewData(data, now))
      && id in LiveOf(db', data.userId, now)
      && Read(db', id, now + AbsoluteTimeout * 1000).None?
      && (Valid(db) ==> Valid(db'))
      && LiveOf(db, data.userId, now) - {id} <= LiveOf(db', data.userId, now)
  {
  }

  /** `touchSession(id)`: the answer and the state it leaves. */
  function Touched(db: Db, id: string, now: int): (bool, Db) {
    var (s, db1) := GetStep(db, id, now);
    if s.None? then (false, db1)
    else if now - s.value.lastActivity > IdleTimeout * 1000 then (false, Destroyed(db1, id, now))
    else
      var remaining := (s.value.expiresAt - now) / 1000;
      if remaining > 0 then
        (true, db1.(records := db1.records[id := Entry(s.value.(lastActivity := now), now + remaining * 1000)]))
      else (false, db1)
  }

  /**
   * A touch succeeds exactly for a live session idle for at most thirty
   * minutes with at least a second left; it stamps the activity time, keeps
   * the key no longer than the absolute expiry, and ends an idle session.
   */
  lemma TouchSpec(db: Db, id: string, now: int)
    ensures var (ok, db') := Touched(db, id, now);
      var s := Read(db, id, now);
      && (ok <==> s.Some? && !Expired(s.value, now) && now - s.value.lastActivity <= IdleTimeout * 1000
                  && s.value.expiresAt - now >= 1000)
      && (ok ==> Read(db', id, now) == Some(s.value.(lastActivity := now))
                 && db'.records[id].until <= s.value.expiresAt)
      && (s.Some? && now - s.value.lastActivity > IdleTimeout * 1000 ==> Read(db', id, now).None?)
      && (Valid(db) ==> Valid(db'))
  {
  }

  /** `updateSession(id, updates)`: the answer and the state it leaves. */
  function Updated(db: Db, id: string, u: SessionUpdate, now: int): (Option<SessionData>, Db) {
    var (s, db1) := GetStep(db, id, now);
    if s.None? then (None, db1)
    else
      var updated := Merge(s.value, u, now);
      var remaining := (s.value.expiresAt - now) / 1000;
      if remaining > 0 then
        (Some(updated), db1.(records := db1.records[id := Entry(updated, now + remaining * 1000)]))
      else (None, db1)
  }

  /**
   * An update answers null for a missing or expired session and for one with
   * less than a second left; otherwise it stores and returns the merged
   * session, whose key expires no later than the old `expiresAt`. Unless it
   * moves `expiresAt`, the store stays `Valid`.
   */
  lemma UpdateSpec(db: Db, id: string, u: SessionUpdate, now: int)
    ensures var (r, db') := Updated(db, id, u, now);
      var s := Read(db, id, now);
      && (r.Some? <==> s.Some? && !Expired(s.value, now) && s.value.expiresAt - now >= 1000)
      && (r.Some? ==> r.value == Merge(s.value, u, now) && Read(db', id, now) == r
                      && db'.records[id].until <= s.value.expiresAt)
      && (Valid(db) && u.expiresAt.None? ==> Valid(db'))
  {
  }

  /** `setMfaVerified(id, verified)`: an update of that one field. */
  function MfaVerifiedOnly(verified: bool): SessionUpdate {
    NoChange.(mfaVerified := Some(verified))
  }

  lemma SetMfaSpec(db: Db, id: string, verified: bool, now: int)
    ensures var (r, db') := Updated(db, id, MfaVerifiedOnly(verified), now);
      && (r.Some? ==> Read(db', id, now).value.mfaVerified == verified
                      && Read(db', id, now) == Some(Read(db, id, now).value.(mfaVerified := verified, lastActivity := now)))
      && (Valid(db) ==> Valid(db'))
  {
  }

  /**
   * An update that moves `expiresAt` into the past leaves a readable expired
   * record, on which the original `getSession` does not return.
   */
  lemma UpdateThenGetLoops(db: Db, id: string, expiresAt: int, now: int)
    requires Read(db, id, now).Some? && Read(db, id, now).value.expiresAt - now >= 1000
    requires expiresAt < now
    ensures var (r, db') := Updated(db, id, NoChange.(expiresAt := Some(expiresAt)), now);
      r.Some? && GetAsWritten(db', id, now) == Loops
  {
  }

  /** `destroyAllUserSessions(userId)`: every key named in the user's set, and the set, deleted. */
  function AllDestroyed(db: Db, userId: string, now: int): Db {
    Db(db.records - Members(db, userId, now), db.userSets - {userId})
  }

  /**
   * Afterwards the user has no sessions; keys not in the user's set are
   * untouched; the count returned includes ids whose keys had already expired.
   */
  lemma DestroyAllSpec(db: Db, userId: string, now: int)
    ensures var db' := AllDestroyed(db, userId, now);
      && Members(db', userId, now) == {} && LiveOf(db', userId, now) == {}
      && (forall id :: id !in Members(db, userId, now) ==> Read(db', id, now) == Read(db, id, now))
      && |LiveOf(db, userId, now)| <= |Members(db, userId, now)|
      && (Valid(db) ==> Valid(db'))
  {
    assert LiveOf(db, userId, now) <= Members(db, userId, now);
    SubsetSize(LiveOf(db, userId, now), Members(db, userId, now));
  }

  lemma DiffSize<T>(a: set<T>, b: set<T>)
    requires b <= a
    ensures |a - b| == |a| - |b|
  {
    assert a == (a - b) + b;
  }

  lemma {:induction false} SubsetSize<T>(a: set<T>, b: set<T>)
    requires a <= b
    ensures |a| <= |b|
  {
    assert b == a + (b - a);
  }

  /** The session keys Redis still holds: what `KEYS lifeplan:session:*` lists. */
  function StoredIds(db: Db, now: int): set<string> {
    set id | id in db.records && now < db.records[id].until
  }

  /** Every listed key is a live session as long as keys expire no later than their sessions. */
  lemma StoredAreLive(db: Db, now: int)
    requires Valid(db)
    ensures forall id :: id in StoredIds(db, now) ==> Read(db, id, now).Some? && !Expired(Read(db, id, now).value, now)
  {
  }

  // ---------------------------------------------------------------------------
  // The store

  /**
   * `RedisSessionStore`: its methods read and write the Redis keys in `redis`.
   * `getSession` is the corrected one (`GetStep`); under `Valid` it agrees
   * with the original (`GetStepAgrees`).
   */
  class RedisSessionStore {
    var redis: Db

    constructor()
      ensures redis == Db(map[], map[])
      ensures Valid(redis)
    {
      redis := Db(map[], map[]);
    }

    /** `createSession(sessionId, data)`. */
    method CreateSession(id: string, data: NewSession, now: int) returns (s: SessionData)
      modifies this
      ensures s == NewData(data, now)
      ensures Enforced(Added(old(redis), id, data, now), redis, data.userId, now)
    {
      var expiresAt := now + AbsoluteTimeout * 1000;
      s := SessionData(data.userId, data.email, data.role, data.mfaEnabled, data.mfaVerified,
                       now, now, expiresAt, data.userAgent, data.ipAddress, data.metadata);
      redis := redis.(records := redis.records[id := Entry(s, now + AbsoluteTimeout * 1000)]);
      var ids := Members(redis, data.userId, now) + {id};
      redis := redis.(userSets := redis.userSets[data.userId := IdSet(ids, now + AbsoluteTimeout * 1000)]);
      EnforceSessionLimit(data.userId, now);
    }

    /** `getSession(sessionId)`, with the destroy of an expired record done directly. */
    method GetSession(id: string, now: int) returns (r: Option<SessionData>)
      modifies this
      ensures (r, redis) == GetStep(old(redis), id, now)
    {
      var data := Read(redis, id, now);
      if data.None? {
        return None;
      }
      if data.value.expiresAt < now {
        DestroySession(id, now);
        return None;
      }
      return data;
    }

    /** `touchSession(sessionId)`. */
    method TouchSession(id: string, now: int) returns (ok: bool)
      modifies this
      ensures (ok, redis) == Touched(old(redis), id, now)
    {
      var session := GetSession(id, now);
      if session.None? {
        return false;
      }
      var idleTime := now - session.value.lastActivity;
      if idleTime > IdleTimeout * 1000 {
        DestroySession(id, now);
        return false;
      }
      var touched := session.value.(lastActivity := now);
      var remainingTtl := (session.value.expiresAt - now) / 1000;
      if remainingTtl > 0 {
        redis := redis.(records := redis.records[id := Entry(touched, now + remainingTtl * 1000)]);
        return true;
      }
      return false;
    }

    /** `updateSession(sessionId, updates)`. */
    method UpdateSession(id: string, updates: SessionUpdate, now: int) returns (r: Option<SessionData>)
      modifies this
      ensures (r, redis) == Updated(old(redis), id, updates, now)
    {
      var session := GetSession(id, now);
      if session.None? {
        return None;
      }
      var updated := Merge(session.value, updates, now);
      var remainingTtl := (session.value.expiresAt - now) / 1000;
      if remainingTtl > 0 {
        redis := redis.(records := redis.records[id := Entry(updated, now + remainingTtl * 1000)]);
        return Some(updated);
      }
      return None;
    }

    /** `destroySession(sessionId)`, reading the record directly. */
    method DestroySession(id: string, now: int)
      modifies this
      ensures redis == Destroyed(old(redis), id, now)
    {
      var session := Read(redis, id, now);
      redis := redis.(records := redis.records - {id});
      if session.Some? && session.value.userId != "" && session.value.userId in redis.userSets {
        var u := session.value.userId;
        redis := redis.(userSets := redis.userSets[u := redis.userSets[u].(ids := redis.userSets[u].ids - {id})]);
      }
    }

    /** `destroyAllUserSessions(userId)`: the number of ids the user's set held. */
    method DestroyAllUserSessions(userId: string, now: int) returns (count: nat)
      modifies this
      ensures count == |Members(old(redis), userId, now)|
      ensures redis == AllDestroyed(old(redis), userId, now)
    {
      var sessionIds := Members(redis, userId, now);
      var rest := sessionIds;
      while rest != {}
        invariant rest <= sessionIds
        invariant redis == old(redis).(records := old(redis).records - (sessionIds - rest))
        decreases |rest|
      {
        var id :| id in rest;
        redis := redis.(records := redis.records - {id});
        rest := rest - {id};
      }
      redis := redis.(userSets := redis.userSets - {userId});
      count := |sessionIds|;
    }

    /**
     * `getUserSessions(userId)`: `getSession` on each id of the user's set, in
     * the order `SMEMBERS` lists them (`order`), keeping what it returns.
     */
    method GetUserSessions(userId: string, now: int) returns (sessions: seq<SessionData>, ghost order: seq<string>)
      modifies this
      ensures NoDup(order) && (set id | id in order) == Members(old(redis), userId, now)
      ensures (sessions, redis) == Collect(old(redis), order, now)
    {
      var rest := Members(redis, userId, now);
      ghost var all := rest;
      sessions, order := [], [];
      while rest != {}
        invariant rest <= all && NoDup(order)
        invariant (set id | id in order) == all - rest
        invariant (sessions, redis) == Collect(old(redis), order, now)
        decreases |rest|
      {
        var id :| id in rest;
        ghost var before := redis;
        var session := GetSession(id, now);
        assert GetStep(before, id, now) == (session, redis);
        CollectSnoc(old(redis), order, id, now);
        sessions := sessions + (if session.Some? then [session.value] else []);
        SetSnoc(order, id);
        order := order + [id];
        rest := rest - {id};
      }
    }

    /**
     * One round of `enforceSessionLimit`: `SMEMBERS` again, then destroy the
     * first listed id whose record was created at `createdAt`.
     */
    method RemoveCreatedAt(userId: string, createdAt: int, now: int) returns (ghost found: Option<string>)
      modifies this
      ensures found.None? ==> redis == old(redis)
      ensures found.None? ==> forall id :: id in Members(old(redis), userId, now) && Read(old(redis), id, now).Some? ==>
        Read(old(redis), id, now).value.createdAt != createdAt
      ensures found.Some? ==> && found.value in Members(old(redis), userId, now)
                              && Read(old(redis), found.value, now).Some?
                              && Read(old(redis), found.value, now).value.createdAt == createdAt
                              && redis == Destroyed(old(redis), found.value, now)
    {
      var sessionKeys := Members(redis, userId, now);
      ghost var all := sessionKeys;
      while sessionKeys != {}
        invariant sessionKeys <= all && redis == old(redis)
        invariant forall id :: id in all - sessionKeys && Read(redis, id, now).Some? ==> Read(redis, id, now).value.createdAt != createdAt
        decreases |sessionKeys|
      {
        var id :| id in sessionKeys;
        var sessionData := Read(redis, id, now);
        if sessionData.Some? && sessionData.value.createdAt == createdAt {
          DestroySession(id, now);
          return Some(id);
        }
        sessionKeys := sessionKeys - {id};
      }
      return None;
    }

    /** `enforceSessionLimit(userId)`. */
    method EnforceSessionLimit(userId: string, now: int)
      modifies this
      ensures Enforced(old(redis), redis, userId, now)
    {
      ghost var db0 := redis;
      var sessions, order := GetUserSessions(userId, now);
      CollectDeletesOnly(db0, order, now);
      if Valid(db0) {
        CollectedLive(db0, userId, order, now);
      }
      if |sessions| > MaxConcurrentSessions {
        var sorted := SortByCreated(sessions);
        SortSorted(sessions);
        var sessionsToRemove := |sorted| - MaxConcurrentSessions;
        var removed := RemoveOldest(userId, sorted, sessionsToRemove, now, db0);
        LimitDone(db0, userId, sorted, sessionsToRemove, removed, redis, now);
      }
    }

    /**
     * The rounds of `enforceSessionLimit`: one `RemoveCreatedAt` for each of
     * the first `count` sorted sessions; `removed` names the sessions they
     * destroyed.
     */
    method RemoveOldest(userId: string, sorted: seq<SessionData>, count: nat, now: int, ghost db0: Db)
      returns (ghost removed: set<string>)
      modifies this
      requires count <= |sorted| && DeletesOnly(db0, redis, now)
      requires Valid(db0) && TimesMatch(db0, userId, sorted, now) ==> redis == db0
      ensures RoundsInv(db0, userId, sorted, count, redis, removed, now)
    {
      removed := {};
      RoundsStart(db0, userId, sorted, redis, now);
      for i := 0 to count
        invariant RoundsInv(db0, userId, sorted, i, redis, removed, now)
      {
        ghost var before := redis;
        var found := RemoveCreatedAt(userId, sorted[i].createdAt, now);
        RoundStep(db0, userId, sorted, i, before, removed, found, redis, now);
        if found.Some? {
          removed := removed + {found.value};
        }
      }
    }

    /** `setMfaVerified(sessionId, verified)`: whether the update found the session. */
    method SetMfaVerified(id: string, verified: bool, now: int) returns (ok: bool)
      modifies this
      ensures ok == Updated(old(redis), id, MfaVerifiedOnly(verified), now).0.Some?
      ensures redis == Updated(old(redis), id, MfaVerifiedOnly(verified), now).1
    {
      var session := UpdateSession(id, MfaVerifiedOnly(verified), now);
      ok := session.Some?;
    }

    /** `getStats()`: both counts are the number of session keys Redis holds. */
    method GetStats(now: int) returns (totalSessions: nat, activeSessions: nat)
      ensures totalSessions == activeSessions == |StoredIds(redis, now)|
    {
      var keys := StoredIds(redis, now);
      totalSessions, activeSessions := |keys|, |keys|;
    }
  }
}
