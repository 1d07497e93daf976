/**
 * The law dashboard page's state: the recent searches (the newest first,
 * without repeats, at most five), and the ids of the actions the user has
 * completed or dismissed, which hide those actions from the list shown.
 */
module LawsPage {
  import opened Common

  const MaxRecent: nat := 5

  /** `[query, ...prev.filter(s => s !== query)].slice(0, 5)`. */
  function RecentAfter(prev: seq<string>, query: string): (r: seq<string>)
    ensures 1 <= |r| <= MaxRecent && r[0] == query
    ensures query !in r[1..]
    ensures forall y :: y in r ==> y == query || y in prev
  {
    var w := Without(prev, query);
    var all := [query] + w;
    var r := all[..Min(MaxRecent, |all|)];
    assert forall y :: y in r[1..] ==> y in w;
    r
  }

  /** A list of recent searches without repeats stays without repeats. */
  lemma RecentNoDup(prev: seq<string>, query: string)
    requires NoDup(prev)
    ensures NoDup(RecentAfter(prev, query))
  {
    WithoutNoDup(prev, query);
    var w := Without(prev, query);
    assert query !in w;
    var all := [query] + w;
    assert NoDup(all);
  }

  /** The searches kept are the latest ones: any of the four previous latest searches survives a new one. */
  lemma RecentKeepsLatest(prev: seq<string>, query: string, i: nat)
    requires i < |prev| && i < MaxRecent - 1
    ensures prev[i] in RecentAfter(prev, query)
  {
    if prev[i] != query {
      KeptPrefix(prev, query, i);
      var w := Without(prev, query);
      var j :| 0 <= j <= i && j < |w| && w[j] == prev[i];
      var r := RecentAfter(prev, query);
      assert r == ([query] + w)[..Min(MaxRecent, 1 + |w|)];
      assert r[j + 1] == prev[i];
    }
  }

  /** An entry at index `i` of a list whose head is not `x` is still among the first `i + 1` entries after dropping `x`. */
  lemma {:induction false} KeptPrefix(s: seq<string>, x: string, i: nat)
    requires i < |s| && s[i] != x
    ensures exists j :: 0 <= j <= i && j < |Without(s, x)| && Without(s, x)[j] == s[i]
    decreases i
  {
    if i == 0 {
      assert Without(s, x)[0] == s[0];
    } else {
      KeptPrefix(s[1..], x, i - 1);
      var j :| 0 <= j <= i - 1 && j < |Without(s[1..], x)| && Without(s[1..], x)[j] == s[1..][i - 1];
      if s[0] == x {
        assert Without(s, x)[j] == s[i];
      } else {
        assert Without(s, x)[j + 1] == s[i];
      }
    }
  }

  /** An action as the page shows it; only the id matters here. */
  datatype PageAction = PageAction(id: string, title: string)

  /** `mockNextActions.filter(a => !completed.includes(a.id) && !dismissed.includes(a.id))`. */
  function Visible(actions: seq<PageAction>, completed: seq<string>, dismissed: seq<string>): (r: seq<PageAction>)
    ensures forall a :: a in r <==> a in actions && a.id !in completed && a.id !in dismissed
    ensures |r| <= |actions|
    decreases |actions|
  {
    if |actions| == 0 then []
    else if actions[0].id !in completed && actions[0].id !in dismissed
    then [actions[0]] + Visible(actions[1..], completed, dismissed)
    else Visible(actions[1..], completed, dismissed)
  }

  /** Filtering keeps the order: the visible part of a concatenation is the concatenation of the visible parts. */
  lemma {:induction false} VisibleAppend(a: seq<PageAction>, b: seq<PageAction>, completed: seq<string>, dismissed: seq<string>)
    ensures Visible(a + b, completed, dismissed) == Visible(a, completed, dismissed) + Visible(b, completed, dismissed)
    decreases |a|
  {
    if |a| == 0 {
      assert a + b == b;
    } else {
      assert (a + b)[0] == a[0];
      assert (a + b)[1..] == a[1..] + b;
      VisibleAppend(a[1..], b, completed, dismissed);
    }
  }

  /** The page's state: the three lists it keeps. */
  class LawsDashboard {
    var completedActions: seq<string>
    var dismissedActions: seq<string>
    var recentSearches: seq<string>

    /** The recent searches hold no repeats and at most five entries. */
    predicate Valid()
      reads this
    {
      NoDup(recentSearches) && |recentSearches| <= MaxRecent
    }

    constructor()
      ensures Valid()
      ensures completedActions == [] && dismissedActions == [] && recentSearches == []
    {
      completedActions, dismissedActions, recentSearches := [], [], [];
    }

    /** `handleSearch(query)`: the query goes to the front of the recent searches. */
    method HandleSearch(query: string)
      requires Valid()
      modifies this
      ensures Valid()
      ensures recentSearches == RecentAfter(old(recentSearches), query)
      ensures completedActions == old(completedActions) && dismissedActions == old(dismissedActions)
    {
      RecentNoDup(recentSearches, query);
      recentSearches := RecentAfter(recentSearches, query);
    }

    method HandleActionComplete(actionId: string)
      modifies this
      ensures completedActions == old(completedActions) + [actionId]
      ensures dismissedActions == old(dismissedActions) && recentSearches == old(recentSearches)
    {
      completedActions := completedActions + [actionId];
    }

    method HandleActionDismiss(actionId: string)
      modifies this
      ensures dismissedActions == old(dismissedActions) + [actionId]
      ensures completedActions == old(completedActions) && recentSearches == old(recentSearches)
    {
      dismissedActions := dismissedActions + [actionId];
    }

    function VisibleActions(actions: seq<PageAction>): (r: seq<PageAction>)
      reads this
      ensures forall a :: a in r ==> a.id !in completedActions && a.id !in dismissedActions
    {
      Visible(actions, completedActions, dismissedActions)
    }
  }

  /**
   * The lists only grow, so an action hidden once stays hidden: with more
   * completed or dismissed ids, the visible actions are a subset of those
   * visible before.
   */
  lemma HiddenStaysHidden(actions: seq<PageAction>, c: seq<string>, d: seq<string>, c2: seq<string>, d2: seq<string>)
    requires forall x :: x in c ==> x in c2
    requires forall x :: x in d ==> x in d2
    ensures forall a :: a in Visible(actions, c2, d2) ==> a in Visible(actions, c, d)
    ensures forall a :: a in actions && (a.id in c || a.id in d) ==> a !in Visible(actions, c2, d2)
  {
  }
}
