/**
 * The order in which the next-action list is shown: a sorted copy of the
 * store's actions, incomplete before completed, and within each, high before
 * medium before low. The array sort is stable, so actions that compare equal
 * keep their order.
 */
module NextActionList {
  import opened Common
  import opened AppStore

  /** `priorityOrder`: high 0, medium 1, low 2. */
  function PriorityOrder(p: Priority): int {
    match p
    case High => 0
    case Medium => 1
    case Low => 2
  }

  /** The comparator passed to `sort`. */
  function Compare(a: NextAction, b: NextAction): int {
    if a.completed != b.completed then (if a.completed then 1 else -1)
    else PriorityOrder(a.priority) - PriorityOrder(b.priority)
  }

  /** The place of an action in the order: completion first, then priority. */
  function Rank(a: NextAction): (r: int)
    ensures 0 <= r < 6
    ensures a.completed <==> r >= 3
  {
    (if a.completed then 3 else 0) + PriorityOrder(a.priority)
  }

  /**
   * The comparator orders by rank: it is negative, zero or positive as the
   * rank is smaller, equal or larger; it is zero only for equal completion
   * and priority; and swapping the arguments negates it.
   */
  lemma CompareIsRank(a: NextAction, b: NextAction)
    ensures Compare(a, b) < 0 <==> Rank(a) < Rank(b)
    ensures Compare(a, b) == 0 <==> a.completed == b.completed && a.priority == b.priority
    ensures Compare(a, b) > 0 <==> Rank(a) > Rank(b)
    ensures Compare(b, a) == -Compare(a, b)
  {
  }

  predicate SortedByRank(s: seq<NextAction>) {
    forall i, j :: 0 <= i < j < |s| ==> Rank(s[i]) <= Rank(s[j])
  }

  /** Puts `x` after every element of `s` that does not rank above it. */
  function Insert(x: NextAction, s: seq<NextAction>): (r: seq<NextAction>)
    ensures multiset(r) == multiset(s) + multiset{x}
    ensures |r| == |s| + 1
    ensures r[0] == x || (|s| > 0 && r[0] == s[0])
    decreases |s|
  {
    if |s| == 0 then [x]
    else if Rank(x) < Rank(s[0]) then [x] + s
    else assert s == [s[0]] + s[1..]; [s[0]] + Insert(x, s[1..])
  }

  /** `[...nextActions].sort(compare)`: a stable sort of a copy. */
  function SortActions(s: seq<NextAction>): (r: seq<NextAction>)
    ensures multiset(r) == multiset(s)
    ensures |r| == |s|
    decreases |s|
  {
    if |s| == 0 then []
    else
      var init := s[..|s| - 1];
      assert s == init + [s[|s| - 1]];
      Insert(s[|s| - 1], SortActions(init))
  }

  /** The actions of rank `k`, in order. */
  function OfRank(s: seq<NextAction>, k: int): seq<NextAction>
    decreases |s|
  {
    if |s| == 0 then []
    else (if Rank(s[0]) == k then [s[0]] else []) + OfRank(s[1..], k)
  }

  lemma {:induction false} InsertSorted(x: NextAction, s: seq<NextAction>)
    requires SortedByRank(s)
    ensures SortedByRank(Insert(x, s))
    decreases |s|
  {
    if |s| > 0 && Rank(x) >= Rank(s[0]) {
      var t := Insert(x, s[1..]);
      InsertSorted(x, s[1..]);
      assert Rank(s[0]) <= Rank(t[0]);
      assert forall j :: 0 <= j < |t| ==> Rank(t[0]) <= Rank(t[j]);
    }
  }

  lemma {:induction false} OfRankAppend(a: seq<NextAction>, b: seq<NextAction>, k: int)
    ensures OfRank(a + b, k) == OfRank(a, k) + OfRank(b, k)
    decreases |a|
  {
    if |a| > 0 {
      var h := if Rank(a[0]) == k then [a[0]] else [];
      assert (a + b)[0] == a[0];
      assert (a + b)[1..] == a[1..] + b;
      assert OfRank(a + b, k) == h + OfRank(a[1..] + b, k);
      OfRankAppend(a[1..], b, k);
      assert OfRank(a, k) == h + OfRank(a[1..], k);
    } else {
      assert a + b == b;
    }
  }

  /** Inserting `x` into a sorted list puts it after the others of its rank. */
  lemma {:induction false} InsertStable(x: NextAction, s: seq<NextAction>, k: int)
    requires SortedByRank(s)
    ensures OfRank(Insert(x, s), k) == OfRank(s, k) + (if Rank(x) == k then [x] else [])
    decreases |s|
  {
    if |s| == 0 {
    } else if Rank(x) < Rank(s[0]) {
      assert ([x] + s)[1..] == s;
      if Rank(x) == k {
        NoneBelow(s, k);
      }
    } else {
      var t := Insert(x, s[1..]);
      var h := if Rank(s[0]) == k then [s[0]] else [];
      assert ([s[0]] + t)[1..] == t;
      assert OfRank(Insert(x, s), k) == h + OfRank(t, k);
      InsertStable(x, s[1..], k);
      assert OfRank(s, k) == h + OfRank(s[1..], k);
    }
  }

  /** In a sorted list whose head ranks above `k`, nothing has rank `k`. */
  lemma {:induction false} NoneBelow(s: seq<NextAction>, k: int)
    requires SortedByRank(s) && |s| > 0 && k < Rank(s[0])
    ensures OfRank(s, k) == []
    decreases |s|
  {
    if |s| > 1 {
      NoneBelow(s[1..], k);
    }
  }

  lemma {:induction false} SortSorted(s: seq<NextAction>)
    ensures SortedByRank(SortActions(s))
    decreases |s|
  {
    if |s| > 0 {
      SortSorted(s[..|s| - 1]);
      InsertSorted(s[|s| - 1], SortActions(s[..|s| - 1]));
    }
  }

  lemma {:induction false} SortStable(s: seq<NextAction>, k: int)
    ensures OfRank(SortActions(s), k) == OfRank(s, k)
    decreases |s|
  {
    if |s| > 0 {
      var init, x := s[..|s| - 1], s[|s| - 1];
      SortActionsLast(s);
      SortSorted(init);
      InsertStable(x, SortActions(init), k);
      SortStable(init, k);
      OfRankLast(s, k);
    }
  }

  lemma SortActionsLast(s: seq<NextAction>)
    requires |s| > 0
    ensures SortActions(s) == Insert(s[|s| - 1], SortActions(s[..|s| - 1]))
  {
  }

  /** The actions of rank `k` in a list are those of all but its last entry, then possibly the last. */
  lemma OfRankLast(s: seq<NextAction>, k: int)
    requires |s| > 0
    ensures OfRank(s, k) == OfRank(s[..|s| - 1], k) + (if Rank(s[|s| - 1]) == k then [s[|s| - 1]] else [])
  {
    var init, x := s[..|s| - 1], s[|s| - 1];
    assert s == init + [x];
    OfRankAppend(init, [x], k);
    OfRankSingle(x, k);
  }

  lemma OfRankSingle(x: NextAction, k: int)
    ensures OfRank([x], k) == if Rank(x) == k then [x] else []
  {
    assert [x][1..] == [];
  }

  /**
   * The list shown is a permutation of the store's list in which every
   * incomplete action precedes every completed one, priorities are in order
   * within each status, and actions of the same status and priority keep
   * their order in the store.
   */
  lemma SortSpec(s: seq<NextAction>)
    ensures multiset(SortActions(s)) == multiset(s)
    ensures forall i, j :: 0 <= i < j < |SortActions(s)| && !SortActions(s)[j].completed ==> !SortActions(s)[i].completed
    ensures forall i, j :: 0 <= i < j < |SortActions(s)| && SortActions(s)[i].completed == SortActions(s)[j].completed
              ==> PriorityOrder(SortActions(s)[i].priority) <= PriorityOrder(SortActions(s)[j].priority)
    ensures forall k :: OfRank(SortActions(s), k) == OfRank(s, k)
  {
    SortSorted(s);
    forall k ensures OfRank(SortActions(s), k) == OfRank(s, k) {
      SortStable(s, k);
    }
  }
}
