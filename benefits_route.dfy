/**
 * The benefit search route (`GET /api/benefits`): the catalogue narrowed by
 * keyword, category, prefecture and life stage, sorted by deadline, amount or
 * priority, and cut into pages. The catalogue is a fixed list of eight
 * benefits; the search runs over any catalogue given to it.
 */
module BenefitsRoute {
  import opened Common
  import opened JsNumber
  import LawsRoute

  datatype Priority = High | Medium | Low

  /**
   * `BenefitInfo`. `deadline` is the time value of the deadline date, in
   * milliseconds since the epoch (`new Date(deadline).getTime()`).
   */
  datatype Benefit = Benefit(
    id: string, title: string, description: string, category: string, amount: Option<int>,
    deadline: Option<int>, targetLifeStages: seq<string>, targetPrefectures: seq<string>,
    source: string, createdAt: string, priority: Priority)

  const Nationwide := "全国"

  /** 31 January 2025, 00:00 UTC. */
  const CampaignDeadline := 1738281600000

  /** `MOCK_BENEFITS`. */
  function MockBenefits(): seq<Benefit> {
    var working := ["working_single", "newlywed", "child_rearing", "child_education", "empty_nest", "pre_retirement"];
    [ Benefit("1", "住宅ローン減税",
              "住宅ローンを組んで住宅を取得した場合、年末のローン残高の0.7%が13年間所得税から控除されます。",
              "tax", Some(350000), None, ["newlywed", "child_rearing", "child_education"], [Nationwide],
              "国税庁", "2024-01-01", High),
      Benefit("2", "出産育児一時金", "出産時に健康保険から50万円が支給されます。医療機関への直接支払制度も利用可能。",
              "subsidy", Some(500000), None, ["expecting", "child_rearing"], [Nationwide],
              "厚生労働省", "2024-01-01", High),
      Benefit("3", "児童手当", "中学校卒業まで（15歳の誕生日後の最初の3月31日まで）の児童を養育している方に支給。",
              "subsidy", Some(180000), None, ["child_rearing", "child_education"], [Nationwide],
              "内閣府", "2024-01-01", High),
      Benefit("4", "ふるさと納税",
              "応援したい自治体に寄付をすると、寄付金のうち2,000円を超える部分が所得税・住民税から控除されます。",
              "tax", None, None, working, [Nationwide], "総務省", "2024-01-01", Medium),
      Benefit("5", "iDeCo（個人型確定拠出年金）", "掛金が全額所得控除、運用益が非課税、受取時も控除あり。老後資金の準備に最適。",
              "investment", None, None, ["new_graduate"] + working, [Nationwide], "厚生労働省", "2024-01-01", High),
      Benefit("6", "東京都ベビーシッター利用支援事業",
              "認可保育所等の利用が困難な場合、ベビーシッター利用料の一部を補助。1時間あたり最大2,400円。",
              "subsidy", Some(288000), None, ["child_rearing"], ["東京都"], "東京都福祉局", "2024-01-01", Medium),
      Benefit("7", "PayPayキャンペーン（港区）", "港区内の対象店舗でPayPay決済をすると最大20%還元。期間限定キャンペーン。",
              "campaign", None, Some(CampaignDeadline), working + ["retired"], ["東京都"], "港区", "2024-12-01", Medium),
      Benefit("8", "NISA（少額投資非課税制度）", "年間最大360万円の投資が非課税に。つみたて投資枠と成長投資枠を併用可能。",
              "investment", None, None, ["new_graduate"] + working + ["retired"], [Nationwide], "金融庁", "2024-01-01", High) ]
  }

  /** `sanitizeKeyword`: trimmed, cut to 100 characters, angle brackets removed. */
  function SanitizeKeyword(keyword: string): (r: string)
    ensures |r| <= 100 && '<' !in r && '>' !in r
  {
    LawsRoute.SanitizeKeyword(Trim(keyword))
  }

  // ---------------------------------------------------------------------------
  // Filtering

  /** `array.filter(p)`: the elements satisfying `p`, in order. */
  function Filter(s: seq<Benefit>, p: Benefit -> bool): (r: seq<Benefit>)
    ensures |r| <= |s|
  {
    if s == [] then [] else (if p(s[0]) then [s[0]] else []) + Filter(s[1..], p)
  }

  /** An element is kept exactly when it is in the list and satisfies the predicate. */
  lemma {:induction false} FilterMembers(s: seq<Benefit>, p: Benefit -> bool, b: Benefit)
    ensures b in Filter(s, p) <==> b in s && p(b)
  {
    if s != [] {
      FilterMembers(s[1..], p, b);
      assert s == [s[0]] + s[1..];
    }
  }

  /** Filtering twice is filtering once by both predicates. */
  lemma {:induction false} FilterTwice(s: seq<Benefit>, p: Benefit -> bool, q: Benefit -> bool, pq: Benefit -> bool)
    requires forall b :: pq(b) == (p(b) && q(b))
    ensures Filter(Filter(s, p), q) == Filter(s, pq)
  {
    if s != [] {
      var t := Filter(s[1..], p);
      FilterTwice(s[1..], p, q, pq);
      assert pq(s[0]) == (p(s[0]) && q(s[0]));
      if p(s[0]) {
        var u := [s[0]] + t;
        assert Filter(s, p) == u;
        assert u[0] == s[0] && u[1..] == t;
        assert Filter(u, q) == (if q(s[0]) then [s[0]] else []) + Filter(t, q);
      } else {
        assert Filter(s, p) == t;
      }
      assert Filter(s, pq) == (if pq(s[0]) then [s[0]] else []) + Filter(s[1..], pq);
    }
  }

  /** A predicate that nothing fails keeps the whole list. */
  lemma {:induction false} FilterKeepsAll(s: seq<Benefit>, p: Benefit -> bool)
    requires forall b :: p(b)
    ensures Filter(s, p) == s
  {
    if s != [] {
      FilterKeepsAll(s[1..], p);
      assert s == [s[0]] + s[1..];
    }
  }

  /** The search criteria after the `|| undefined` defaults: an empty parameter counts as absent. */
  datatype Criteria = Criteria(
    keyword: Option<string>, categories: seq<string>, prefecture: Option<string>, lifeStage: Option<string>)

  /** The sanitised keyword occurs, ignoring case, in the title or the description. */
  predicate KeywordHit(keyword: string, b: Benefit) {
    var k := Lower(SanitizeKeyword(keyword));
    Contains(Lower(b.title), k) || Contains(Lower(b.description), k)
  }

  predicate KeywordOk(c: Criteria, b: Benefit) {
    c.keyword.Some? ==> KeywordHit(c.keyword.value, b)
  }

  predicate CategoryOk(c: Criteria, b: Benefit) {
    c.categories != [] ==> b.category in c.categories
  }

  /** A benefit for the whole country, or for the prefecture asked for. */
  predicate PrefectureHit(prefecture: string, b: Benefit) {
    Nationwide in b.targetPrefectures || prefecture in b.targetPrefectures
  }

  predicate PrefectureOk(c: Criteria, b: Benefit) {
    c.prefecture.Some? && c.prefecture.value != Nationwide ==> PrefectureHit(c.prefecture.value, b)
  }

  predicate StageOk(c: Criteria, b: Benefit) {
    c.lifeStage.Some? ==> c.lifeStage.value in b.targetLifeStages
  }

  /** What the search keeps: every criterion given is met. */
  predicate Matches(c: Criteria, b: Benefit) {
    KeywordOk(c, b) && CategoryOk(c, b) && PrefectureOk(c, b) && StageOk(c, b)
  }

  /** `Matches` as the predicate handed to `filter`. */
  function Keeps(c: Criteria): Benefit -> bool {
    b => Matches(c, b)
  }

  function Selected(all: seq<Benefit>, c: Criteria): seq<Benefit> {
    Filter(all, Keeps(c))
  }

  /**
   * The selection keeps the catalogue's order and holds exactly the benefits
   * meeting every criterion given: the keyword in title or description, one
   * of the categories, the whole country or the prefecture (unless the
   * prefecture asked for is the whole country), and the life stage.
   */
  lemma SelectedSpec(all: seq<Benefit>, c: Criteria, b: Benefit)
    ensures b in Selected(all, c) <==> (
      && b in all
      && (c.keyword.Some? ==> KeywordHit(c.keyword.value, b))
      && (c.categories != [] ==> b.category in c.categories)
      && (c.prefecture.Some? && c.prefecture.value != Nationwide ==> PrefectureHit(c.prefecture.value, b))
      && (c.lifeStage.Some? ==> c.lifeStage.value in b.targetLifeStages))
  {
    FilterMembers(all, Keeps(c), b);
  }

  /** With no criterion, nothing is dropped. */
  lemma NoCriteria(all: seq<Benefit>)
    ensures Selected(all, Criteria(None, [], None, None)) == all
  {
    FilterKeepsAll(all, Keeps(Criteria(None, [], None, None)));
  }

  // ---------------------------------------------------------------------------
  // Sorting

  datatype SortBy = ByDeadline | ByAmount | ByRelevance

  /** `sortBy`: `deadline` and `amount` choose their order; anything else is relevance. */
  function SortByOf(s: string): SortBy {
    if s == "deadline" then ByDeadline else if s == "amount" then ByAmount else ByRelevance
  }

  function PriorityOrder(p: Priority): int {
    match p
    case High => 0
    case Medium => 1
    case Low => 2
  }

  /** `b.amount || 0`. */
  function AmountOf(b: Benefit): int {
    b.amount.GetOr(0)
  }

  /** The comparator passed to `sort` for each order. */
  function Compare(order: SortBy, a: Benefit, b: Benefit): int {
    match order
    case ByDeadline =>
      if a.deadline.None? && b.deadline.None? then 0
      else if a.deadline.None? then 1
      else if b.deadline.None? then -1
      else a.deadline.value - b.deadline.value
    case ByAmount => AmountOf(b) - AmountOf(a)
    case ByRelevance => PriorityOrder(a.priority) - PriorityOrder(b.priority)
  }

  /** `a` may come before `b`. */
  predicate NotAfter(order: SortBy, a: Benefit, b: Benefit) {
    Compare(order, a, b) <= 0
  }

  /** Each comparator is a consistent order: swapping negates it, and "not after" is transitive. */
  lemma CompareOrder(order: SortBy, a: Benefit, b: Benefit, c: Benefit)
    ensures Compare(order, b, a) == -Compare(order, a, b)
    ensures NotAfter(order, a, b) && NotAfter(order, b, c) ==> NotAfter(order, a, c)
  {
  }

  predicate Sorted(order: SortBy, s: seq<Benefit>) {
    forall i, j :: 0 <= i < j < |s| ==> NotAfter(order, s[i], s[j])
  }

  /** Puts `x` after every element of the sorted `s` that is not after it. */
  function Insert(order: SortBy, x: Benefit, s: seq<Benefit>): (r: seq<Benefit>)
    ensures multiset(r) == multiset(s) + multiset{x}
    ensures |r| == |s| + 1
    ensures r[0] == x || (|s| > 0 && r[0] == s[0])
    decreases |s|
  {
    if |s| == 0 then [x]
    else if Compare(order, x, s[0]) < 0 then [x] + s
    else assert s == [s[0]] + s[1..]; [s[0]] + Insert(order, x, s[1..])
  }

  /** `results.sort(compare)`, as an insertion sort that puts each benefit after those it does not come before. */
  function Sort(order: SortBy, s: seq<Benefit>): (r: seq<Benefit>)
    ensures |r| == |s|
    decreases |s|
  {
    if |s| == 0 then [] else Insert(order, s[|s| - 1], Sort(order, s[..|s| - 1]))
  }

  lemma {:induction false} InsertSorted(order: SortBy, x: Benefit, s: seq<Benefit>)
    requires Sorted(order, s)
    ensures Sorted(order, Insert(order, x, s))
    decreases |s|
  {
    if |s| > 0 && Compare(order, x, s[0]) >= 0 {
      var t := Insert(order, x, s[1..]);
      InsertSorted(order, x, s[1..]);
      CompareOrder(order, x, s[0], x);
      assert Insert(order, x, s) == [s[0]] + t;
      HeadSorted(order, s[0], t);
    } else if |s| > 0 {
      assert Insert(order, x, s) == [x] + s;
      HeadSorted(order, x, s);
    }
  }

  /** A head not after the first element of a sorted list keeps it sorted. */
  lemma HeadSorted(order: SortBy, h: Benefit, t: seq<Benefit>)
    requires Sorted(order, t) && |t| > 0 && NotAfter(order, h, t[0])
    ensures Sorted(order, [h] + t)
  {
    forall j | 0 <= j < |t|
      ensures NotAfter(order, h, t[j])
    {
      CompareOrder(order, h, t[0], t[j]);
    }
    var u := [h] + t;
    forall i, j | 0 <= i < j < |u|
      ensures NotAfter(order, u[i], u[j])
    {
      if i > 0 {
        assert u[i] == t[i - 1] && u[j] == t[j - 1];
      } else {
        assert u[j] == t[j - 1];
      }
    }
  }

  lemma {:induction false} SortSorted(order: SortBy, s: seq<Benefit>)
    ensures Sorted(order, Sort(order, s))
    decreases |s|
  {
    if |s| > 0 {
      SortSorted(order, s[..|s| - 1]);
      InsertSorted(order, s[|s| - 1], Sort(order, s[..|s| - 1]));
    }
  }

  lemma {:induction false} SortPermutes(order: SortBy, s: seq<Benefit>)
    ensures multiset(Sort(order, s)) == multiset(s)
    decreases |s|
  {
    if |s| > 0 {
      var init, last := s[..|s| - 1], s[|s| - 1];
      SortPermutes(order, init);
      assert multiset(s) == multiset(init) + multiset{last} by {
        assert s == init + [last];
      }
    }
  }

  /**
   * The sorted list holds the same benefits, and: by deadline, those with a
   * deadline come first in ascending order and those without come last; by
   * amount, amounts descend with a missing amount counted as 0; otherwise
   * high priority precedes medium, which precedes low.
   */
  lemma SortSpec(order: SortBy, s: seq<Benefit>)
    ensures multiset(Sort(order, s)) == multiset(s)
    ensures order == ByDeadline ==> forall i, j :: 0 <= i < j < |Sort(order, s)| ==>
      (Sort(order, s)[i].deadline.None? ==> Sort(order, s)[j].deadline.None?)
      && (Sort(order, s)[j].deadline.Some? ==> Sort(order, s)[i].deadline.value <= Sort(order, s)[j].deadline.value)
    ensures order == ByAmount ==> forall i, j :: 0 <= i < j < |Sort(order, s)| ==>
      AmountOf(Sort(order, s)[i]) >= AmountOf(Sort(order, s)[j])
    ensures order == ByRelevance ==> forall i, j :: 0 <= i < j < |Sort(order, s)| ==>
      PriorityOrder(Sort(order, s)[i].priority) <= PriorityOrder(Sort(order, s)[j].priority)
  {
    SortPermutes(order, s);
    SortSorted(order, s);
  }

  // ---------------------------------------------------------------------------
  // Pagination

  /** `Math.max(1, page || 1)`: `NaN` and 0 fall back to 1. */
  function PageOf(n: Num): (r: int)
    ensures r >= 1
    ensures n.Int? && n.i >= 1 ==> r == n.i
  {
    if n.NaN? || n.i == 0 then 1 else Max(1, n.i)
  }

  /** `Math.min(100, Math.max(1, limit || 20))`: `NaN` and 0 fall back to 20. */
  function LimitOf(n: Num): (r: int)
    ensures 1 <= r <= 100
    ensures n.Int? && 1 <= n.i <= 100 ==> r == n.i
    ensures n == NaN || n == Int(0) ==> r == 20
  {
    if n.NaN? || n.i == 0 then 20 else Min(100, Max(1, n.i))
  }

  /** `Math.ceil(total / limit)`. */
  function PageCount(total: nat, limit: int): (r: int)
    requires limit >= 1
  {
    (total + limit - 1) / limit
  }

  /** `array.slice(start, end)` for `0 <= start`: both ends clamped to the length. */
  function Slice(s: seq<Benefit>, start: nat, end: int): seq<Benefit> {
    var e := if end < start then start else end;
    s[Min(start, |s|)..Min(e, |s|)]
  }

  /** Page `page` (from 1) of `limit` items: `slice((page - 1) * limit, (page - 1) * limit + limit)`. */
  function Window(s: seq<Benefit>, page: int, limit: int): seq<Benefit>
    requires page >= 1 && limit >= 1
  {
    MulMonotone(0, page - 1, limit);
    var start := (page - 1) * limit;
    Slice(s, start, start + limit)
  }

  /** The page count is the least number of pages of `limit` that hold `total` items. */
  lemma PageCountBounds(total: nat, limit: int)
    requires limit >= 1
    ensures PageCount(total, limit) >= 0
    ensures PageCount(total, limit) * limit >= total
    ensures (PageCount(total, limit) - 1) * limit < total || total == 0
  {
    var t := PageCount(total, limit);
    var r := (total + limit - 1) % limit;
    assert t * limit + r == total + limit - 1;
    assert 0 <= r < limit;
    assert t * limit >= total;
    assert (t - 1) * limit == t * limit - limit;
  }

  lemma MulMonotone(a: int, b: int, k: int)
    requires a <= b && k >= 0
    ensures a * k <= b * k
  {
  }

  /**
   * A page holds at most `limit` benefits, and page `page` (from 1) holds
   * some exactly when it is within the page count.
   */
  lemma PageSpec(s: seq<Benefit>, page: int, limit: int)
    requires page >= 1 && limit >= 1
    ensures |Window(s, page, limit)| <= limit
    ensures Window(s, page, limit) != [] <==> page <= PageCount(|s|, limit)
  {
    var t := PageCount(|s|, limit);
    PageCountBounds(|s|, limit);
    MulMonotone(0, page - 1, limit);
    if page <= t {
      MulMonotone(page - 1, t - 1, limit);
    } else {
      MulMonotone(t, page - 1, limit);
    }
  }

  /** The pages cut the list without gaps: item `i` is item `i % limit` of page `i / limit + 1`. */
  lemma PageHolds(s: seq<Benefit>, limit: int, i: int)
    requires limit >= 1 && 0 <= i < |s|
    ensures i % limit < |Window(s, i / limit + 1, limit)|
    ensures Window(s, i / limit + 1, limit)[i % limit] == s[i]
  {
    var q, m := i / limit, i % limit;
    assert q * limit + m == i && 0 <= m < limit;
    MulMonotone(0, q, limit);
    assert (q + 1 - 1) * limit == q * limit;
  }

  // ---------------------------------------------------------------------------
  // The handler

  /** The JSON body of a successful search. */
  datatype Reply = Reply(benefits: seq<Benefit>, total: int, page: int, totalPages: int)

  /** `searchParams.get(name) || undefined`. */
  function NonEmptyParam(q: LawsRoute.Query, name: string): (r: Option<string>)
    ensures r.Some? <==> Get(q, name).Some? && Get(q, name).value != ""
    ensures r.Some? ==> r.value == Get(q, name).value
  {
    match Get(q, name)
    case Some(v) => if v != "" then Some(v) else None
    case None => None
  }

  /** The criteria read from the query: `get(x) || undefined` and `getAll('category')`. */
  function CriteriaOf(q: LawsRoute.Query): Criteria {
    Criteria(
      NonEmptyParam(q, "keyword"), LawsRoute.GetAll(q, "category"),
      NonEmptyParam(q, "prefecture"), NonEmptyParam(q, "lifeStage"))
  }

  function RequestedPage(q: LawsRoute.Query): int {
    PageOf(ParseInt(LawsRoute.OrText(LawsRoute.Param(q, "page"), "1")))
  }

  function RequestedLimit(q: LawsRoute.Query): int {
    LimitOf(ParseInt(LawsRoute.OrText(LawsRoute.Param(q, "limit"), "20")))
  }

  function RequestedOrder(q: LawsRoute.Query): SortBy {
    SortByOf(LawsRoute.OrText(LawsRoute.Param(q, "sortBy"), "relevance"))
  }

  /**
   * The filtering steps of `GET`: the catalogue narrowed by each criterion
   * given, one after another; the outcome is the selection.
   */
  method Narrow(catalogue: seq<Benefit>, c: Criteria) returns (results: seq<Benefit>)
    ensures results == Selected(catalogue, c)
  {
    ghost var none: Benefit -> bool := b => true;
    ghost var p1: Benefit -> bool := b => KeywordOk(c, b);
    ghost var p2: Benefit -> bool := b => KeywordOk(c, b) && CategoryOk(c, b);
    ghost var p3: Benefit -> bool := b => KeywordOk(c, b) && CategoryOk(c, b) && PrefectureOk(c, b);
    results := catalogue;
    FilterKeepsAll(catalogue, none);
    if c.keyword.Some? {
      var keyword := c.keyword.value;
      var hit: Benefit -> bool := b => KeywordHit(keyword, b);
      results := Filter(results, hit);
      FilterTwice(catalogue, none, hit, p1);
    } else {
      FilterKeepsAll(catalogue, p1);
    }
    assert results == Filter(catalogue, p1);
    if |c.categories| > 0 {
      var inCategory: Benefit -> bool := (b: Benefit) => b.category in c.categories;
      results := Filter(results, inCategory);
      FilterTwice(catalogue, p1, inCategory, p2);
    } else {
      FilterTwice(catalogue, p1, none, p2);
      FilterKeepsAll(results, none);
    }
    assert results == Filter(catalogue, p2);
    if c.prefecture.Some? && c.prefecture.value != Nationwide {
      var prefecture := c.prefecture.value;
      var inPrefecture: Benefit -> bool := b => PrefectureHit(prefecture, b);
      results := Filter(results, inPrefecture);
      FilterTwice(catalogue, p2, inPrefecture, p3);
    } else {
      FilterTwice(catalogue, p2, none, p3);
      FilterKeepsAll(results, none);
    }
    assert results == Filter(catalogue, p3);
    if c.lifeStage.Some? {
      var stage := c.lifeStage.value;
      var forStage: Benefit -> bool := (b: Benefit) => stage in b.targetLifeStages;
      results := Filter(results, forStage);
      FilterTwice(catalogue, p3, forStage, Keeps(c));
    } else {
      FilterTwice(catalogue, p3, none, Keeps(c));
      FilterKeepsAll(results, none);
    }
  }

  /**
   * `GET`: the pagination parameters are clamped, the catalogue is narrowed
   * by each criterion given, sorted, and the requested page of it is
   * returned with the number of matches and of pages.
   */
  method Search(catalogue: seq<Benefit>, q: LawsRoute.Query) returns (r: Reply)
    ensures r.page == RequestedPage(q)
    ensures r.total == |Selected(catalogue, CriteriaOf(q))|
    ensures r.totalPages == PageCount(r.total, RequestedLimit(q))
    ensures r.benefits == Window(Sort(RequestedOrder(q), Selected(catalogue, CriteriaOf(q))), r.page, RequestedLimit(q))
  {
    var c := CriteriaOf(q);
    var page := PageOf(ParseInt(LawsRoute.OrText(LawsRoute.Param(q, "page"), "1")));
    var limit := LimitOf(ParseInt(LawsRoute.OrText(LawsRoute.Param(q, "limit"), "20")));
    var sortBy := SortByOf(LawsRoute.OrText(LawsRoute.Param(q, "sortBy"), "relevance"));

    var results := Narrow(catalogue, c);
    results := Sort(sortBy, results);

    var total := |results|;
    var totalPages := PageCount(total, limit);
    var paginated := Window(results, page, limit);
    r := Reply(paginated, total, page, totalPages);
  }

  /**
   * The reply's page number and size are within their bounds, the page holds
   * at most `limit` benefits, each a catalogue benefit meeting the criteria,
   * and it is empty exactly when the page asked for lies beyond the last.
   */
  lemma ReplySpec(catalogue: seq<Benefit>, q: LawsRoute.Query, b: Benefit)
    ensures var page, limit := RequestedPage(q), RequestedLimit(q);
      var shown := Window(Sort(RequestedOrder(q), Selected(catalogue, CriteriaOf(q))), page, limit);
      && page >= 1 && 1 <= limit <= 100
      && |shown| <= limit
      && (shown != [] <==> page <= PageCount(|Selected(catalogue, CriteriaOf(q))|, limit))
      && (b in shown ==> b in catalogue && Matches(CriteriaOf(q), b))
  {
    var c := CriteriaOf(q);
    var s := Selected(catalogue, c);
    var results := Sort(RequestedOrder(q), s);
    var page, limit := RequestedPage(q), RequestedLimit(q);
    PageSpec(results, page, limit);
    var shown := Window(results, page, limit);
    if b in shown {
      ShownIsSelected(results, page, limit, b);
      SortPermutes(RequestedOrder(q), s);
      assert b in multiset(s);
      FilterMembers(catalogue, Keeps(c), b);
    }
  }

  lemma ShownIsSelected(results: seq<Benefit>, page: int, limit: int, b: Benefit)
    requires page >= 1 && limit >= 1 && b in Window(results, page, limit)
    ensures b in multiset(results)
  {
    MulMonotone(0, page - 1, limit);
  }

  /** The text of a natural number, as the default of a parameter, reads back as that number. */
  lemma NumeralDefault(n: nat, text: string)
    requires text == NatToString(n)
    ensures ParseInt(text) == Int(n)
  {
    ParseIntRoundTrip(n);
  }

  /** Without parameters: page 1 of 20, ordered by priority, over the whole catalogue. */
  lemma DefaultQuery(catalogue: seq<Benefit>)
    ensures RequestedPage([]) == 1 && RequestedLimit([]) == 20 && RequestedOrder([]) == ByRelevance
    ensures Selected(catalogue, CriteriaOf([])) == catalogue
  {
    DefaultPage();
    DefaultLimit();
    assert CriteriaOf([]) == Criteria(None, [], None, None);
    NoCriteria(catalogue);
  }

  lemma DefaultPage()
    ensures RequestedPage([]) == 1
  {
    assert LawsRoute.OrText(LawsRoute.Param([], "page"), "1") == "1";
    NumeralDefault(1, "1");
  }

  lemma DefaultLimit()
    ensures RequestedLimit([]) == 20
  {
    assert LawsRoute.OrText(LawsRoute.Param([], "limit"), "20") == "20";
    assert NatToString(2) == "2";
    NumeralDefault(20, "20");
  }
}
