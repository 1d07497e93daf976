/**
 * The pure side of the law-recommendation service: search-keyword expansion
 * through the term dictionary, recommendations derived from a user's
 * employment type, planned events and residence type, parsing of a law-list
 * reply, the offline fallback list, the category of an employment law, and
 * the age-category summary. Relevance scores are kept in integer hundredths
 * (0.9 is 90), so that "minus 0.1 per position" is exact.
 */
module LawsApi {
  import opened Common
  import TermsDictionary

  // ---------------------------------------------------------------------------
  // Keyword expansion (`searchLawsByKeyword`)

  /** Everything added to the `expandedKeywords` set, in order: each keyword, then its legal terms. */
  function Expansion(dict: TermsDictionary.Table, keywords: seq<string>): seq<string> {
    if keywords == [] then []
    else
      var kw := keywords[|keywords| - 1];
      Expansion(dict, keywords[..|keywords| - 1]) + [kw] + TermsDictionary.Translate(dict, kw)
  }

  /** `set.add(x)` on a set that so far lists `Dedup(before)`: a new element goes last. */
  method Add(r: seq<string>, ghost before: seq<string>, x: string) returns (r': seq<string>)
    requires r == Dedup(before)
    ensures r' == Dedup(before + [x])
  {
    DedupSnoc(before, x);
    r' := if x in r then r else r + [x];
  }

  /** `xs.forEach(x => set.add(x))` on a set that so far lists `Dedup(before)`. */
  method AddAll(r: seq<string>, ghost before: seq<string>, xs: seq<string>) returns (r': seq<string>)
    requires r == Dedup(before)
    ensures r' == Dedup(before + xs)
  {
    r' := r;
    var j := 0;
    assert before + xs[..0] == before;
    while j < |xs|
      invariant 0 <= j <= |xs|
      invariant r' == Dedup(before + xs[..j])
    {
      assert before + xs[..j + 1] == (before + xs[..j]) + [xs[j]];
      r' := Add(r', before + xs[..j], xs[j]);
      j := j + 1;
    }
    assert xs[..|xs|] == xs;
  }

  /** The keyword loop of `searchLawsByKeyword`; `Array.from` of the set lists each word once, in first-insertion order. */
  method ExpandKeywords(dict: TermsDictionary.Table, keywords: seq<string>) returns (r: seq<string>)
    ensures r == Dedup(Expansion(dict, keywords))
  {
    r := [];
    var i := 0;
    while i < |keywords|
      invariant 0 <= i <= |keywords|
      invariant r == Dedup(Expansion(dict, keywords[..i]))
    {
      var kw := keywords[i];
      assert keywords[..i + 1][..i] == keywords[..i];
      ghost var before := Expansion(dict, keywords[..i]);
      r := AddAll(r, before, [kw]);
      r := AddAll(r, before + [kw], TermsDictionary.Translate(dict, kw));
      i := i + 1;
    }
    assert keywords[..|keywords|] == keywords;
  }

  /** `x` is the keyword `kw` itself or one of its legal terms. */
  predicate Origin(dict: TermsDictionary.Table, kw: string, x: string) {
    x == kw || x in TermsDictionary.Translate(dict, kw)
  }

  /** The legal terms of each keyword, in keyword order. */
  function TermsOf(dict: TermsDictionary.Table, keywords: seq<string>): (r: seq<seq<string>>)
    ensures |r| == |keywords| && forall i :: 0 <= i < |keywords| ==> r[i] == TermsDictionary.Translate(dict, keywords[i])
  {
    seq(|keywords|, i requires 0 <= i < |keywords| => TermsDictionary.Translate(dict, keywords[i]))
  }

  /** Each keyword followed by its list of terms. */
  function Spread(keywords: seq<string>, terms: seq<seq<string>>): seq<string>
    requires |terms| == |keywords|
  {
    if keywords == [] then []
    else Spread(keywords[..|keywords| - 1], terms[..|terms| - 1]) + [keywords[|keywords| - 1]] + terms[|terms| - 1]
  }

  lemma {:induction false} ExpansionIsSpread(dict: TermsDictionary.Table, keywords: seq<string>)
    ensures Expansion(dict, keywords) == Spread(keywords, TermsOf(dict, keywords))
  {
    if keywords != [] {
      var p := keywords[..|keywords| - 1];
      ExpansionIsSpread(dict, p);
      assert TermsOf(dict, keywords)[..|p|] == TermsOf(dict, p);
    }
  }

  /** `x` is the keyword `kw` or one of the words `ts` listed for it. */
  predicate Hit(kw: string, ts: seq<string>, x: string) {
    x == kw || x in ts
  }

  /** The words of a spread: those of the shorter spread, then the last keyword and its words. */
  lemma SpreadLast(keywords: seq<string>, terms: seq<seq<string>>, x: string)
    requires |terms| == |keywords| && keywords != []
    ensures x in Spread(keywords, terms) <==>
      x in Spread(keywords[..|keywords| - 1], terms[..|terms| - 1]) || Hit(keywords[|keywords| - 1], terms[|terms| - 1], x)
  {
  }

  lemma {:induction false} SpreadMembers(keywords: seq<string>, terms: seq<seq<string>>, x: string)
    requires |terms| == |keywords|
    ensures x in Spread(keywords, terms) <==> exists i :: 0 <= i < |keywords| && Hit(keywords[i], terms[i], x)
  {
    if keywords != [] {
      var p, q := keywords[..|keywords| - 1], terms[..|terms| - 1];
      SpreadMembers(p, q, x);
      SpreadLast(keywords, terms, x);
      if x in Spread(p, q) {
        var i :| 0 <= i < |p| && Hit(p[i], q[i], x);
        assert keywords[i] == p[i] && terms[i] == q[i];
      }
      if exists i :: 0 <= i < |keywords| && Hit(keywords[i], terms[i], x) {
        var i :| 0 <= i < |keywords| && Hit(keywords[i], terms[i], x);
        if i < |p| {
          assert p[i] == keywords[i] && q[i] == terms[i];
        }
      }
    }
  }

  /** A word is added exactly when it is a keyword or a legal term of one. */
  lemma ExpansionMembers(dict: TermsDictionary.Table, keywords: seq<string>, x: string)
    ensures x in Expansion(dict, keywords) <==> exists i :: 0 <= i < |keywords| && Origin(dict, keywords[i], x)
  {
    var terms := TermsOf(dict, keywords);
    ExpansionIsSpread(dict, keywords);
    SpreadMembers(keywords, terms, x);
    if exists i :: 0 <= i < |keywords| && Hit(keywords[i], terms[i], x) {
      var i :| 0 <= i < |keywords| && Hit(keywords[i], terms[i], x);
      assert Origin(dict, keywords[i], x);
    }
    if exists i :: 0 <= i < |keywords| && Origin(dict, keywords[i], x) {
      var i :| 0 <= i < |keywords| && Origin(dict, keywords[i], x);
      assert Hit(keywords[i], terms[i], x);
    }
  }

  /**
   * The expanded keywords have no duplicates, hold every original keyword and
   * every legal term of it, and nothing else.
   */
  lemma ExpandedKeywordsSpec(dict: TermsDictionary.Table, keywords: seq<string>)
    ensures var r := Dedup(Expansion(dict, keywords));
      && NoDup(r)
      && (forall i :: 0 <= i < |keywords| ==> keywords[i] in r)
      && (forall i, t :: 0 <= i < |keywords| && t in TermsDictionary.Translate(dict, keywords[i]) ==> t in r)
      && (forall x :: x in r ==> exists i :: 0 <= i < |keywords| && Origin(dict, keywords[i], x))
  {
    var e := Expansion(dict, keywords);
    forall x ensures x in Dedup(e) <==> exists i :: 0 <= i < |keywords| && Origin(dict, keywords[i], x) {
      DedupMembers(e, x);
      ExpansionMembers(dict, keywords, x);
    }
  }

  // ---------------------------------------------------------------------------
  // Constant tables

  /** `LAW_INFO_MAP`: law title to e-Gov law id and law number. */
  const LawInfoMap: seq<(string, (string, string))> := [
    ("労働基準法", ("322AC0000000049", "昭和二十二年法律第四十九号")),
    ("厚生年金保険法", ("329AC0000000115", "昭和二十九年法律第百十五号")),
    ("雇用保険法", ("349AC0000000116", "昭和四十九年法律第百十六号")),
    ("所得税法", ("340AC0000000033", "昭和四十年法律第三十三号")),
    ("国民健康保険法", ("333AC0000000192", "昭和三十三年法律第百九十二号")),
    ("国民年金法", ("334AC0000000141", "昭和三十四年法律第百四十一号")),
    ("介護保険法", ("409AC0000000123", "平成九年法律第百二十三号")),
    ("育児休業法", ("403AC0000000076", "平成三年法律第七十六号")),
    ("相続税法", ("325AC0000000073", "昭和二十五年法律第七十三号")),
    ("借地借家法", ("403AC0000000090", "平成三年法律第九十号")),
    ("消費税法", ("363AC0000000108", "昭和六十三年法律第百八号")),
    ("健康保険法", ("311AC0000000070", "大正十一年法律第七十号")),
    ("国家公務員法", ("322AC0000000120", "昭和二十二年法律第百二十号")),
    ("地方公務員法", ("325AC0000000261", "昭和二十五年法律第二百六十一号")),
    ("労働契約法", ("419AC0000000128", "平成十九年法律第百二十八号")),
    ("労働者派遣法", ("360AC0000000088", "昭和六十年法律第八十八号")),
    ("確定拠出年金法", ("413AC0000000088", "平成十三年法律第八十八号")),
    ("児童手当法", ("346AC0000000073", "昭和四十六年法律第七十三号")),
    ("租税特別措置法", ("332AC0000000026", "昭和三十二年法律第二十六号")),
    ("不動産取得税", ("325AC0000000226", "昭和二十五年法律第二百二十六号")),
    ("登録免許税法", ("342AC0000000035", "昭和四十二年法律第三十五号")),
    ("高齢者雇用安定法", ("346AC0000000068", "昭和四十六年法律第六十八号")),
    ("公営住宅法", ("326AC0000000193", "昭和二十六年法律第百九十三号")),
    ("住宅ローン控除", ("332AC0000000026", "昭和三十二年法律第二十六号")),
    ("登録免許税", ("342AC0000000035", "昭和四十二年法律第三十五号")),
    ("配偶者控除", ("340AC0000000033", "昭和四十年法律第三十三号")),
    ("配偶者特別控除", ("340AC0000000033", "昭和四十年法律第三十三号")),
    ("医療費控除", ("340AC0000000033", "昭和四十年法律第三十三号")),
    ("贈与税", ("325AC0000000073", "昭和二十五年法律第七十三号")),
    ("固定資産税", ("325AC0000000226", "昭和二十五年法律第二百二十六号")),
    ("住民税", ("325AC0000000226", "昭和二十五年法律第二百二十六号"))
  ]

  /** Every entry of the map has a non-empty id and number. */
  predicate InfoComplete(m: seq<(string, (string, string))>) {
    forall i :: 0 <= i < |m| ==> m[i].1.0 != "" && m[i].1.1 != ""
  }

  /** `EmploymentTypeToLaws`. */
  const EmploymentTypeToLaws: seq<(string, seq<string>)> := [
    ("FULL_TIME_EMPLOYEE", ["労働基準法", "厚生年金保険法", "雇用保険法"]),
    ("CONTRACT_EMPLOYEE", ["労働基準法", "労働契約法", "厚生年金保険法"]),
    ("CIVIL_SERVANT", ["国家公務員法", "地方公務員法", "国家公務員共済組合法"]),
    ("SELF_EMPLOYED", ["所得税法", "国民健康保険法", "国民年金法"]),
    ("PART_TIME", ["パートタイム労働法", "最低賃金法", "労働基準法"]),
    ("STUDENT", ["学校教育法", "国民年金法"]),
    ("HOMEMAKER", ["国民健康保険法", "国民年金法"]),
    ("RETIRED", ["高齢者医療確保法", "厚生年金保険法", "介護保険法"]),
    ("UNEMPLOYED", ["雇用保険法", "国民健康保険法", "国民年金法"]),
    ("OTHER", ["国民健康保険法", "国民年金法"])
  ]

  /** `PlannedEventToLawCategory`. */
  const PlannedEventToLawCategory: seq<(string, seq<string>)> := [
    ("SIDE_BUSINESS", ["tax", "labor", "business"]),
    ("JOB_CHANGE", ["labor", "tax", "social_security"]),
    ("RETIREMENT", ["pension", "tax", "social_security"]),
    ("HOME_PURCHASE", ["housing", "tax"]),
    ("HOME_RENOVATION", ["housing", "tax"]),
    ("MARRIAGE", ["family", "tax"]),
    ("CHILDBIRTH", ["family", "social_security", "labor"]),
    ("CHILD_EDUCATION", ["education", "tax"]),
    ("INHERITANCE", ["inheritance", "tax"]),
    ("NURSING_CARE", ["social_security", "family"]),
    ("RELOCATION", ["housing", "tax"])
  ]

  /** The map inside `getEventRelatedLaws`. */
  const EventLawsMap: seq<(string, seq<string>)> := [
    ("SIDE_BUSINESS", ["所得税法", "個人事業税", "消費税法", "青色申告制度"]),
    ("JOB_CHANGE", ["労働基準法", "雇用保険法", "厚生年金保険法"]),
    ("RETIREMENT", ["厚生年金保険法", "確定拠出年金法", "退職所得控除"]),
    ("HOME_PURCHASE", ["住宅ローン控除", "不動産取得税", "登録免許税"]),
    ("HOME_RENOVATION", ["住宅ローン控除", "固定資産税減額", "バリアフリー改修減税"]),
    ("MARRIAGE", ["配偶者控除", "配偶者特別控除", "社会保険の被扶養者"]),
    ("CHILDBIRTH", ["育児休業法", "出産手当金", "児童手当法", "医療費控除"]),
    ("CHILD_EDUCATION", ["教育費控除", "奨学金制度", "高等教育無償化"]),
    ("INHERITANCE", ["相続税法", "贈与税", "生命保険の非課税枠"]),
    ("NURSING_CARE", ["介護保険法", "介護休業法", "医療費控除"]),
    ("RELOCATION", ["住民税", "転出届・転入届", "国民健康保険"]),
    ("NONE", [])
  ]

  /** The map inside `getResidenceRelatedLaws`. */
  const ResidenceLawsMap: seq<(string, seq<string>)> := [
    ("RENTAL", ["借地借家法", "住宅手当", "家賃補助制度"]),
    ("OWNED", ["住宅ローン控除", "固定資産税", "住宅取得等資金贈与"]),
    ("PARENTS_HOME", ["同居特例", "小規模宅地等の特例"]),
    ("COMPANY_HOUSING", ["給与所得の計算", "社宅の現物給与"]),
    ("PUBLIC_HOUSING", ["公営住宅法", "住宅セーフティネット法"]),
    ("OTHER", [])
  ]

  const EmploymentReasons: seq<(string, string)> := [
    ("FULL_TIME_EMPLOYEE", "あなたの雇用形態（正社員）に適用される法律です"),
    ("CONTRACT_EMPLOYEE", "あなたの雇用形態（契約・派遣社員）に適用される法律です"),
    ("CIVIL_SERVANT", "あなたの雇用形態（公務員）に適用される法律です"),
    ("SELF_EMPLOYED", "あなたの事業形態（自営業）に関連する法律です"),
    ("PART_TIME", "あなたの雇用形態（パート・アルバイト）に適用される法律です"),
    ("STUDENT", "学生の方に関連する法律です"),
    ("HOMEMAKER", "専業主婦・主夫の方に関連する法律です"),
    ("RETIRED", "退職者・年金受給者の方に関連する法律です"),
    ("UNEMPLOYED", "求職中の方に関連する法律です"),
    ("OTHER", "一般的に適用される法律です")
  ]

  const EventReasons: seq<(string, string)> := [
    ("SIDE_BUSINESS", "あなたの計画（副業開始）に関連する法律です"),
    ("JOB_CHANGE", "あなたの計画（転職）に関連する法律です"),
    ("RETIREMENT", "あなたの計画（退職）に関連する法律です"),
    ("HOME_PURCHASE", "あなたの計画（住宅購入）に関連する法律です"),
    ("HOME_RENOVATION", "あなたの計画（リフォーム）に関連する法律です"),
    ("MARRIAGE", "あなたの計画（結婚）に関連する法律です"),
    ("CHILDBIRTH", "あなたの計画（出産）に関連する法律です"),
    ("CHILD_EDUCATION", "あなたの計画（子供の教育）に関連する法律です"),
    ("INHERITANCE", "あなたの計画（相続）に関連する法律です"),
    ("NURSING_CARE", "あなたの計画（介護）に関連する法律です"),
    ("RELOCATION", "あなたの計画（引っ越し）に関連する法律です"),
    ("NONE", "一般的に役立つ法律です")
  ]

  const ResidenceReasons: seq<(string, string)> := [
    ("RENTAL", "あなたの住居形態（賃貸）に関連する法律です"),
    ("OWNED", "あなたの住居形態（持ち家）に関連する法律です"),
    ("PARENTS_HOME", "あなたの住居形態（実家）に関連する法律です"),
    ("COMPANY_HOUSING", "あなたの住居形態（社宅）に関連する法律です"),
    ("PUBLIC_HOUSING", "あなたの住居形態（公営住宅）に関連する法律です"),
    ("OTHER", "一般的な住宅関連法律です")
  ]

  const LawSummaries: seq<(string, string)> := [
    ("労働基準法", "労働条件の最低基準を定めた法律。労働時間、休日、賃金などを規定。"),
    ("厚生年金保険法", "会社員などが加入する年金制度について定めた法律。"),
    ("雇用保険法", "失業時の給付や育児・介護休業給付について定めた法律。"),
    ("所得税法", "個人の所得に対する税金について定めた法律。各種控除も規定。"),
    ("国民健康保険法", "自営業者などが加入する医療保険について定めた法律。"),
    ("国民年金法", "日本に住む20歳以上の全員が加入する基礎年金について定めた法律。"),
    ("介護保険法", "高齢者の介護サービスについて定めた法律。40歳以上が対象。"),
    ("育児休業法", "育児休業、介護休業、看護休暇について定めた法律。"),
    ("相続税法", "相続や贈与に対する税金について定めた法律。"),
    ("借地借家法", "賃貸借契約について借主を保護するための法律。")
  ]

  /** The tables the recommendation code reads, gathered so that proofs about it need not unfold them. */
  datatype Tables = Tables(info: seq<(string, (string, string))>, employmentLaws: seq<(string, seq<string>)>,
                           eventCategories: seq<(string, seq<string>)>, eventLaws: seq<(string, seq<string>)>,
                           residenceLaws: seq<(string, seq<string>)>, employmentReasons: seq<(string, string)>,
                           eventReasons: seq<(string, string)>, residenceReasons: seq<(string, string)>,
                           summaries: seq<(string, string)>)

  const AppTables := Tables(LawInfoMap, EmploymentTypeToLaws, PlannedEventToLawCategory, EventLawsMap, ResidenceLawsMap,
                            EmploymentReasons, EventReasons, ResidenceReasons, LawSummaries)

  // ---------------------------------------------------------------------------
  // Title lookups and categories

  /** `getLawIdFromTitle` over the info map `m` (`LawInfoMap` in the application). */
  function LawIdFromTitle(m: seq<(string, (string, string))>, title: string): (r: string)
    ensures title !in KeysOf(m) ==> r == ""
  {
    match Get(m, title)
    case Some(info) => info.0
    case None => ""
  }

  /** `getLawNumFromTitle` over the info map `m`. */
  function LawNumFromTitle(m: seq<(string, (string, string))>, title: string): (r: string)
    ensures title !in KeysOf(m) ==> r == ""
  {
    match Get(m, title)
    case Some(info) => info.1
    case None => ""
  }

  /** A title of a complete map gets the id and number of its first entry, both non-empty. */
  lemma InfoLookup(m: seq<(string, (string, string))>, title: string)
    requires InfoComplete(m) && title in KeysOf(m)
    ensures LawIdFromTitle(m, title) != "" && LawNumFromTitle(m, title) != ""
    ensures exists i :: 0 <= i < |m| && m[i].0 == title && m[i].1 == (LawIdFromTitle(m, title), LawNumFromTitle(m, title))
  {
    GetFirst(m, title);
  }

  /** Every title of the application's map has an id and a number. */
  lemma LawInfoMapComplete()
    ensures InfoComplete(AppTables.info)
  {
  }

  /** `getEmploymentCategory`: the first of 労働/雇用, 年金, 保険, 税 the title contains decides; labor otherwise. */
  function EmploymentCategory(title: string): (r: string)
    ensures r in {"labor", "pension", "insurance", "tax"}
    ensures (Contains(title, "労働") || Contains(title, "雇用")) ==> r == "labor"
    ensures r == "pension" <==> !Contains(title, "労働") && !Contains(title, "雇用") && Contains(title, "年金")
    ensures r == "insurance" <==> !Contains(title, "労働") && !Contains(title, "雇用") && !Contains(title, "年金")
                                  && Contains(title, "保険")
    ensures r == "tax" <==> !Contains(title, "労働") && !Contains(title, "雇用") && !Contains(title, "年金")
                            && !Contains(title, "保険") && Contains(title, "税")
  {
    if Contains(title, "労働") || Contains(title, "雇用") then "labor"
    else if Contains(title, "年金") then "pension"
    else if Contains(title, "保険") then "insurance"
    else if Contains(title, "税") then "tax"
    else "labor"
  }

  /** `getLawSummary`: the table's summary, or a referral sentence naming the law. */
  function LawSummary(summaries: seq<(string, string)>, title: string): (r: string)
    ensures title !in KeysOf(summaries) ==> r == title + "の詳細については、専門家にご相談ください。"
  {
    Get(summaries, title).GetOr(title + "の詳細については、専門家にご相談ください。")
  }

  // ---------------------------------------------------------------------------
  // getLawRecommendations

  /** Where a recommended law comes from: the employment type, one planned event, or the residence type. */
  datatype Source = FromEmployment(employmentType: string) | FromEvent(event: string) | FromResidence(residenceType: string)

  datatype Recommendation = Recommendation(lawId: string, lawTitle: string, lawNum: string, relevanceReason: string,
                                           relevanceScore: int, category: string, summary: string)

  /** The law titles a source contributes, in table order; unknown keys contribute none. */
  function LawsOf(tb: Tables, src: Source): seq<string> {
    match src
    case FromEmployment(t) => Get(tb.employmentLaws, t).GetOr([])
    case FromEvent(e) => Get(tb.eventLaws, e).GetOr([])
    case FromResidence(t) => Get(tb.residenceLaws, t).GetOr([])
  }

  /** The score of position 0 of a source, in hundredths. */
  function BaseScore(src: Source): int {
    match src
    case FromEmployment(_) => 90
    case FromEvent(_) => 85
    case FromResidence(_) => 70
  }

  /** The id used when a title is not in the info map: a prefix, the source key and the position. */
  function SyntheticId(src: Source, index: nat): string {
    match src
    case FromEmployment(t) => "emp_" + t + "_" + NatToString(index)
    case FromEvent(e) => "event_" + e + "_" + NatToString(index)
    case FromResidence(t) => "res_" + t + "_" + NatToString(index)
  }

  function Reason(tb: Tables, src: Source): string {
    match src
    case FromEmployment(t) => Get(tb.employmentReasons, t).GetOr("一般的に適用される法律です")
    case FromEvent(e) => Get(tb.eventReasons, e).GetOr("一般的に役立つ法律です")
    case FromResidence(t) => Get(tb.residenceReasons, t).GetOr("一般的な住宅関連法律です")
  }

  function CategoryOf(tb: Tables, src: Source, title: string): string {
    match src
    case FromEmployment(_) => EmploymentCategory(title)
    case FromEvent(e) =>
      var cs := Get(tb.eventCategories, e).GetOr([]);
      if cs != [] then cs[0] else "other"
    case FromResidence(_) => "housing"
  }

  /** The record pushed for the law at `index` of a source's list. */
  function MakeRec(tb: Tables, src: Source, title: string, index: nat): Recommendation {
    var id := LawIdFromTitle(tb.info, title);
    Recommendation(if id != "" then id else SyntheticId(src, index), title, LawNumFromTitle(tb.info, title),
                   Reason(tb, src), BaseScore(src) - 10 * index, CategoryOf(tb, src, title), LawSummary(tb.summaries, title))
  }

  /** The candidate records of one source, one per law in its list. */
  function SourceRecs(tb: Tables, src: Source): seq<Recommendation> {
    var laws := LawsOf(tb, src);
    seq(|laws|, i requires 0 <= i < |laws| => MakeRec(tb, src, laws[i], i))
  }

  function EventSources(events: seq<string>): seq<Source> {
    seq(|events|, i requires 0 <= i < |events| => FromEvent(events[i]))
  }

  /** The sources an input consults, in the order the function consults them; empty values are falsy and skipped. */
  function Sources(employment: Option<string>, events: Option<seq<string>>, residence: Option<string>): seq<Source> {
    (if employment.Some? && employment.value != "" then [FromEmployment(employment.value)] else [])
    + (if events.Some? then EventSources(events.value) else [])
    + (if residence.Some? && residence.value != "" then [FromResidence(residence.value)] else [])
  }

  function AllRecs(tb: Tables, srcs: seq<Source>): seq<Recommendation> {
    if srcs == [] then [] else AllRecs(tb, srcs[..|srcs| - 1]) + SourceRecs(tb, srcs[|srcs| - 1])
  }

  function Titles(recs: seq<Recommendation>): (r: seq<string>)
    ensures |r| == |recs| && forall i :: 0 <= i < |recs| ==> r[i] == recs[i].lawTitle
  {
    seq(|recs|, i requires 0 <= i < |recs| => recs[i].lawTitle)
  }

  /** Push each candidate whose title has not been added yet (the `addedLaws` set). */
  function KeepNew(recs: seq<Recommendation>, cands: seq<Recommendation>): seq<Recommendation> {
    if cands == [] then recs
    else
      var r := KeepNew(recs, cands[..|cands| - 1]);
      var c := cands[|cands| - 1];
      if c.lawTitle in Titles(r) then r else r + [c]
  }

  /** Stable insertion by non-increasing score: `x` goes before the first element not scoring more. */
  function InsertByScore(x: Recommendation, s: seq<Recommendation>): (r: seq<Recommendation>)
    ensures multiset(r) == multiset(s) + multiset{x}
    ensures |r| == |s| + 1
  {
    if s == [] || x.relevanceScore >= s[0].relevanceScore then [x] + s
    else
      assert s == [s[0]] + s[1..];
      [s[0]] + InsertByScore(x, s[1..])
  }

  /** `sort((a, b) => b.relevance_score - a.relevance_score)`, which is stable. */
  function SortByScore(s: seq<Recommendation>): (r: seq<Recommendation>)
    ensures multiset(r) == multiset(s)
    ensures |r| == |s|
  {
    if s == [] then []
    else
      assert s == [s[0]] + s[1..];
      InsertByScore(s[0], SortByScore(s[1..]))
  }

  function Recommendations(tb: Tables, employment: Option<string>, events: Option<seq<string>>, residence: Option<string>)
    : seq<Recommendation>
  {
    SortByScore(KeepNew([], AllRecs(tb, Sources(employment, events, residence))))
  }

  /** One source's `forEach`: push the laws whose title is new, remembering each title. */
  method PushLaws(tb: Tables, recs: seq<Recommendation>, added: set<string>, src: Source)
    returns (recs': seq<Recommendation>, added': set<string>)
    requires added == set t | t in Titles(recs)
    ensures recs' == KeepNew(recs, SourceRecs(tb, src))
    ensures added' == set t | t in Titles(recs')
  {
    var laws := LawsOf(tb, src);
    ghost var cands := SourceRecs(tb, src);
    recs', added' := recs, added;
    var index := 0;
    while index < |laws|
      invariant 0 <= index <= |laws|
      invariant recs' == KeepNew(recs, cands[..index])
      invariant added' == set t | t in Titles(recs')
    {
      KeepNewLast(recs, cands, index);
      assert cands[index] == MakeRec(tb, src, laws[index], index);
      recs', added' := PushLaw(tb, src, laws[index], index, recs', added');
      index := index + 1;
    }
    assert cands[..|laws|] == cands;
  }

  /** The body of the `forEach` for one law: push it unless its title was added before. */
  method PushLaw(tb: Tables, src: Source, lawTitle: string, index: nat, recs: seq<Recommendation>, added: set<string>)
    returns (recs': seq<Recommendation>, added': set<string>)
    requires added == set t | t in Titles(recs)
    ensures recs' == if lawTitle in Titles(recs) then recs else recs + [MakeRec(tb, src, lawTitle, index)]
    ensures added' == set t | t in Titles(recs')
  {
    recs', added' := recs, added;
    if lawTitle !in added {
      added' := added + {lawTitle};
      recs' := recs + [MakeRec(tb, src, lawTitle, index)];
      assert Titles(recs') == Titles(recs) + [lawTitle];
    }
  }

  lemma KeepNewLast(recs: seq<Recommendation>, cands: seq<Recommendation>, index: nat)
    requires index < |cands|
    ensures var r := KeepNew(recs, cands[..index]);
      KeepNew(recs, cands[..index + 1]) == if cands[index].lawTitle in Titles(r) then r else r + [cands[index]]
  {
    assert cands[..index + 1][..index] == cands[..index];
  }

  lemma {:induction false} KeepNewAppend(recs: seq<Recommendation>, a: seq<Recommendation>, b: seq<Recommendation>)
    ensures KeepNew(recs, a + b) == KeepNew(KeepNew(recs, a), b)
    decreases |b|
  {
    if b == [] {
      assert a + b == a;
    } else {
      assert (a + b)[..|a + b| - 1] == a + b[..|b| - 1];
      KeepNewAppend(recs, a, b[..|b| - 1]);
    }
  }

  /** One more source in the `forEach` adds that source's new laws to the ones kept so far. */
  lemma KeepNewStep(tb: Tables, srcs: seq<Source>, i: nat)
    requires i < |srcs|
    ensures KeepNew([], AllRecs(tb, srcs[..i + 1])) == KeepNew(KeepNew([], AllRecs(tb, srcs[..i])), SourceRecs(tb, srcs[i]))
  {
    assert srcs[..i + 1][..i] == srcs[..i];
    assert AllRecs(tb, srcs[..i + 1]) == AllRecs(tb, srcs[..i]) + SourceRecs(tb, srcs[i]);
    KeepNewAppend([], AllRecs(tb, srcs[..i]), SourceRecs(tb, srcs[i]));
  }

  /** `getLawRecommendations`, over the tables `tb` (`AppTables` in the application): the `forEach` passes, then the sort. */
  method GetLawRecommendations(tb: Tables, employment: Option<string>, events: Option<seq<string>>, residence: Option<string>)
    returns (r: seq<Recommendation>)
    ensures r == Recommendations(tb, employment, events, residence)
  {
    var srcs := Sources(employment, events, residence);
    var recs: seq<Recommendation> := [];
    var added: set<string> := {};
    var i := 0;
    while i < |srcs|
      invariant 0 <= i <= |srcs|
      invariant recs == KeepNew([], AllRecs(tb, srcs[..i]))
      invariant added == set t | t in Titles(recs)
    {
      KeepNewStep(tb, srcs, i);
      recs, added := PushLaws(tb, recs, added, srcs[i]);
      i := i + 1;
    }
    assert srcs[..|srcs|] == srcs;
    r := SortByScore(recs);
  }

  predicate DistinctTitles(s: seq<Recommendation>) {
    forall i, j :: 0 <= i < j < |s| ==> s[i].lawTitle != s[j].lawTitle
  }

  predicate SortedByScore(s: seq<Recommendation>) {
    forall i, j :: 0 <= i < j < |s| ==> s[i].relevanceScore >= s[j].relevanceScore
  }

  lemma {:induction false} KeepNewDistinct(recs: seq<Recommendation>, cands: seq<Recommendation>)
    requires DistinctTitles(recs)
    ensures DistinctTitles(KeepNew(recs, cands))
  {
    if cands != [] {
      KeepNewDistinct(recs, cands[..|cands| - 1]);
    }
  }

  lemma ConsDistinct(y: Recommendation, t: seq<Recommendation>)
    requires DistinctTitles(t) && forall k :: 0 <= k < |t| ==> t[k].lawTitle != y.lawTitle
    ensures DistinctTitles([y] + t)
  {
    var r := [y] + t;
    forall i, j | 0 <= i < j < |r| ensures r[i].lawTitle != r[j].lawTitle {
      if i == 0 {
        assert r[j] == t[j - 1];
      } else {
        assert r[i] == t[i - 1] && r[j] == t[j - 1];
      }
    }
  }

  lemma {:induction false} InsertDistinct(x: Recommendation, s: seq<Recommendation>)
    requires DistinctTitles(s) && x.lawTitle !in Titles(s)
    ensures DistinctTitles(InsertByScore(x, s))
  {
    if s == [] || x.relevanceScore >= s[0].relevanceScore {
      forall k | 0 <= k < |s| ensures s[k].lawTitle != x.lawTitle {
        assert Titles(s)[k] == s[k].lawTitle;
      }
      ConsDistinct(x, s);
    } else {
      var rest := s[1..];
      assert Titles(rest) == Titles(s)[1..];
      InsertDistinct(x, rest);
      var t := InsertByScore(x, rest);
      forall k | 0 <= k < |t| ensures t[k].lawTitle != s[0].lawTitle {
        assert t[k] in multiset(t);
        if t[k] == x {
          assert Titles(s)[0] == s[0].lawTitle;
        } else {
          assert t[k] in multiset(rest);
          var m :| 0 <= m < |rest| && rest[m] == t[k];
          assert s[m + 1] == rest[m];
        }
      }
      ConsDistinct(s[0], t);
    }
  }

  lemma {:induction false} SortDistinct(s: seq<Recommendation>)
    requires DistinctTitles(s)
    ensures DistinctTitles(SortByScore(s))
  {
    if s != [] {
      SortDistinct(s[1..]);
      var t := SortByScore(s[1..]);
      forall k | 0 <= k < |t| ensures t[k].lawTitle != s[0].lawTitle {
        assert t[k] in multiset(s[1..]);
      }
      InsertDistinct(s[0], t);
    }
  }

  lemma ConsSorted(y: Recommendation, t: seq<Recommendation>)
    requires SortedByScore(t) && forall k :: 0 <= k < |t| ==> y.relevanceScore >= t[k].relevanceScore
    ensures SortedByScore([y] + t)
  {
    var r := [y] + t;
    forall i, j | 0 <= i < j < |r| ensures r[i].relevanceScore >= r[j].relevanceScore {
      if i == 0 {
        assert r[j] == t[j - 1];
      } else {
        assert r[i] == t[i - 1] && r[j] == t[j - 1];
      }
    }
  }

  lemma {:induction false} InsertSorted(x: Recommendation, s: seq<Recommendation>)
    requires SortedByScore(s)
    ensures SortedByScore(InsertByScore(x, s))
  {
    if s == [] || x.relevanceScore >= s[0].relevanceScore {
      forall k | 0 <= k < |s| ensures x.relevanceScore >= s[k].relevanceScore {
        if k > 0 {
          assert s[0].relevanceScore >= s[k].relevanceScore;
        }
      }
      ConsSorted(x, s);
    } else {
      var rest := s[1..];
      InsertSorted(x, rest);
      var t := InsertByScore(x, rest);
      forall k | 0 <= k < |t| ensures s[0].relevanceScore >= t[k].relevanceScore {
        assert t[k] in multiset(t);
        if t[k] != x {
          assert t[k] in multiset(rest);
          var m :| 0 <= m < |rest| && rest[m] == t[k];
          assert s[m + 1] == rest[m];
        }
      }
      ConsSorted(s[0], t);
    }
  }

  lemma {:induction false} SortSorted(s: seq<Recommendation>)
    ensures SortedByScore(SortByScore(s))
  {
    if s != [] {
      SortSorted(s[1..]);
      InsertSorted(s[0], SortByScore(s[1..]));
    }
  }

  /**
   * The recommendations never name a law twice, are ordered by non-increasing
   * score, and are a permutation of the first record pushed for each title.
   */
  lemma RecommendationsSpec(tb: Tables, employment: Option<string>, events: Option<seq<string>>, residence: Option<string>)
    ensures var r := Recommendations(tb, employment, events, residence);
      && DistinctTitles(r)
      && SortedByScore(r)
      && multiset(r) == multiset(KeepNew([], AllRecs(tb, Sources(employment, events, residence))))
  {
    var kept := KeepNew([], AllRecs(tb, Sources(employment, events, residence)));
    KeepNewDistinct([], AllRecs(tb, Sources(employment, events, residence)));
    SortDistinct(kept);
    SortSorted(kept);
  }

  /** No employment type, no events and no residence type: no recommendations. */
  lemma NoInputsNoRecommendations(tb: Tables)
    ensures Recommendations(tb, None, None, None) == []
  {
  }

  /** What a candidate record is: the law at `index` of its source, scored and identified by position. */
  predicate CandidateOf(tb: Tables, x: Recommendation, src: Source, index: nat) {
    var laws := LawsOf(tb, src);
    && index < |laws|
    && x.lawTitle == laws[index]
    && x.relevanceScore == BaseScore(src) - 10 * index
    && x.lawNum == LawNumFromTitle(tb.info, x.lawTitle)
    && (x.lawTitle in KeysOf(tb.info) && InfoComplete(tb.info) ==> x.lawId == LawIdFromTitle(tb.info, x.lawTitle))
    && (x.lawTitle !in KeysOf(tb.info) ==> x.lawId == SyntheticId(src, index) && x.lawNum == "")
  }

  lemma {:induction false} AllRecsOrigin(tb: Tables, srcs: seq<Source>, x: Recommendation)
    requires x in AllRecs(tb, srcs)
    ensures exists k, index :: 0 <= k < |srcs| && CandidateOf(tb, x, srcs[k], index)
  {
    var p := srcs[..|srcs| - 1];
    var last := srcs[|srcs| - 1];
    if x in AllRecs(tb, p) {
      AllRecsOrigin(tb, p, x);
      var k, index :| 0 <= k < |p| && CandidateOf(tb, x, p[k], index);
      assert srcs[k] == p[k];
    } else {
      var i :| 0 <= i < |SourceRecs(tb, last)| && SourceRecs(tb, last)[i] == x;
      if x.lawTitle in KeysOf(tb.info) && InfoComplete(tb.info) {
        InfoLookup(tb.info, x.lawTitle);
      }
      assert CandidateOf(tb, x, srcs[|srcs| - 1], i);
    }
  }

  lemma {:induction false} KeepNewMembers(recs: seq<Recommendation>, cands: seq<Recommendation>, x: Recommendation)
    requires x in KeepNew(recs, cands)
    ensures x in recs || x in cands
  {
    if cands != [] {
      if x in KeepNew(recs, cands[..|cands| - 1]) {
        KeepNewMembers(recs, cands[..|cands| - 1], x);
      }
    }
  }

  /** Every title of `cands` (or of `recs`) keeps a record in the result. */
  lemma {:induction false} KeepNewCovers(recs: seq<Recommendation>, cands: seq<Recommendation>, t: string)
    requires t in Titles(recs) || t in Titles(cands)
    ensures t in Titles(KeepNew(recs, cands))
  {
    if cands != [] {
      var p := cands[..|cands| - 1];
      var r := KeepNew(recs, p);
      if t in Titles(recs) || t in Titles(p) {
        KeepNewCovers(recs, p, t);
      }
      if !(cands[|cands| - 1].lawTitle in Titles(r)) {
        assert Titles(r + [cands[|cands| - 1]]) == Titles(r) + [cands[|cands| - 1].lawTitle];
      }
    }
  }

  /**
   * Every recommendation is the law at some position `i` of a consulted
   * source, scored 0.9, 0.85 or 0.7 minus 0.1·i; a title missing from the
   * info map gets the synthetic id `emp_`, `event_` or `res_` plus key and `i`,
   * and an empty law number.
   */
  lemma RecommendationOrigin(tb: Tables, employment: Option<string>, events: Option<seq<string>>, residence: Option<string>,
                             x: Recommendation)
    requires x in Recommendations(tb, employment, events, residence)
    ensures var srcs := Sources(employment, events, residence);
      exists k, index :: 0 <= k < |srcs| && CandidateOf(tb, x, srcs[k], index)
  {
    var srcs := Sources(employment, events, residence);
    var kept := KeepNew([], AllRecs(tb, srcs));
    assert x in multiset(kept);
    KeepNewMembers([], AllRecs(tb, srcs), x);
    AllRecsOrigin(tb, srcs, x);
  }

  lemma TitlesAppend(a: seq<Recommendation>, b: seq<Recommendation>)
    ensures Titles(a + b) == Titles(a) + Titles(b)
  {
  }

  lemma SourceRecsTitles(tb: Tables, src: Source)
    ensures Titles(SourceRecs(tb, src)) == LawsOf(tb, src)
  {
  }

  /** The laws of the consulted sources, in order, repeats included. */
  function AllLaws(tb: Tables, srcs: seq<Source>): seq<string> {
    if srcs == [] then [] else AllLaws(tb, srcs[..|srcs| - 1]) + LawsOf(tb, srcs[|srcs| - 1])
  }

  lemma {:induction false} AllRecsTitlesAre(tb: Tables, srcs: seq<Source>)
    ensures Titles(AllRecs(tb, srcs)) == AllLaws(tb, srcs)
  {
    if srcs != [] {
      var p := srcs[..|srcs| - 1];
      AllRecsTitlesAre(tb, p);
      TitlesAppend(AllRecs(tb, p), SourceRecs(tb, srcs[|srcs| - 1]));
      SourceRecsTitles(tb, srcs[|srcs| - 1]);
    }
  }

  lemma {:induction false} AllLawsHas(tb: Tables, srcs: seq<Source>, k: nat, t: string)
    requires k < |srcs| && t in LawsOf(tb, srcs[k])
    ensures t in AllLaws(tb, srcs)
  {
    var p := srcs[..|srcs| - 1];
    if k < |p| {
      assert p[k] == srcs[k];
      AllLawsHas(tb, p, k, t);
    }
  }

  lemma AllRecsTitles(tb: Tables, srcs: seq<Source>, k: nat, t: string)
    requires k < |srcs| && t in LawsOf(tb, srcs[k])
    ensures t in Titles(AllRecs(tb, srcs))
  {
    AllLawsHas(tb, srcs, k, t);
    AllRecsTitlesAre(tb, srcs);
  }

  /** No law of a consulted source is lost: its title is recommended (once). */
  lemma RecommendationComplete(tb: Tables, employment: Option<string>, events: Option<seq<string>>, residence: Option<string>,
                               k: nat, t: string)
    requires k < |Sources(employment, events, residence)| && t in LawsOf(tb, Sources(employment, events, residence)[k])
    ensures t in Titles(Recommendations(tb, employment, events, residence))
  {
    var srcs := Sources(employment, events, residence);
    AllRecsTitles(tb, srcs, k, t);
    KeepNewCovers([], AllRecs(tb, srcs), t);
    var kept := KeepNew([], AllRecs(tb, srcs));
    var i :| 0 <= i < |kept| && kept[i].lawTitle == t;
    assert kept[i] in multiset(Recommendations(tb, employment, events, residence));
  }

  // ---------------------------------------------------------------------------
  // parseLawSearchResults

  datatype LawSearchResult = LawSearchResult(lawId: string, lawNum: string, lawTitle: string,
                                             lawTitleKana: Option<string>, lawTitleEn: Option<string>,
                                             promulgationDate: Option<string>, enforcementDate: Option<string>,
                                             lawType: Js, repealStatus: string)

  /** `law.x ? String(law.x) : undefined`. */
  function OptionalString(v: Js): Option<string> {
    if Truthy(v) then Some(JsString(v)) else None
  }

  /** The mapping of one entry of `laws`; `None` when the entry is `null` or `undefined` (a TypeError). */
  function ParseLaw(law: Js): Option<LawSearchResult> {
    if law == JUndefined || law == JNull then None
    else Some(LawSearchResult(
      JsString(Or(Or(Prop(law, "lawId"), Prop(law, "law_id")), JStr(""))),
      JsString(Or(Or(Prop(law, "lawNum"), Prop(law, "law_num")), JStr(""))),
      JsString(Or(Or(Prop(law, "lawTitle"), Prop(law, "law_title")), JStr(""))),
      OptionalString(Prop(law, "lawTitleKana")),
      OptionalString(Prop(law, "lawTitleEn")),
      OptionalString(Prop(law, "promulgationDate")),
      OptionalString(Prop(law, "enforcementDate")),
      Or(Prop(law, "lawType"), JStr("Act")),
      if Prop(law, "repealStatus") == JStr("repealed") then "repealed" else "active"))
  }

  function ParseAll(laws: seq<Js>): (r: Option<seq<LawSearchResult>>)
    ensures r.Some? ==> |r.value| == |laws|
  {
    if laws == [] then Some([])
    else
      var rest := ParseAll(laws[1..]);
      var first := ParseLaw(laws[0]);
      if first.Some? && rest.Some? then Some([first.value] + rest.value) else None
  }

  /** Every entry is mapped in place; a single `null` or `undefined` entry makes the whole mapping fail. */
  lemma {:induction false} ParseAllSpec(laws: seq<Js>)
    ensures ParseAll(laws).Some? <==> forall i :: 0 <= i < |laws| ==> ParseLaw(laws[i]).Some?
    ensures ParseAll(laws).Some? ==> forall i :: 0 <= i < |laws| ==> ParseAll(laws).value[i] == ParseLaw(laws[i]).value
  {
    if laws != [] {
      var tail := laws[1..];
      ParseAllSpec(tail);
      assert forall i :: 1 <= i < |laws| ==> laws[i] == tail[i - 1];
    }
  }

  /** `parseLawSearchResults`; `None` stands for the TypeError a `null` entry raises. */
  function ParseLawSearchResults(data: Js): Option<seq<LawSearchResult>> {
    if !Truthy(data) || !(data.JObj? || data.JArr?) then Some([])
    else
      var laws := Prop(data, "laws");
      if !laws.JArr? then Some([]) else ParseAll(laws.items)
  }

  /**
   * A non-object reply or a reply whose `laws` is not an array gives no
   * results; otherwise there is one result per entry, marked repealed only
   * for the exact value "repealed", with law type "Act" when none is given.
   */
  lemma ParseLawSearchResultsSpec(data: Js)
    ensures !data.JObj? ==> ParseLawSearchResults(data) == Some([])
    ensures data.JObj? && !Prop(data, "laws").JArr? ==> ParseLawSearchResults(data) == Some([])
    ensures data.JObj? && Prop(data, "laws").JArr? && ParseLawSearchResults(data).Some? ==>
      var laws := Prop(data, "laws").items;
      var r := ParseLawSearchResults(data).value;
      && |r| == |laws|
      && forall i :: 0 <= i < |laws| ==>
        && (r[i].repealStatus == "repealed" <==> Prop(laws[i], "repealStatus") == JStr("repealed"))
        && (r[i].repealStatus == "repealed" || r[i].repealStatus == "active")
        && (!Truthy(Prop(laws[i], "lawType")) ==> r[i].lawType == JStr("Act"))
        && (!Truthy(Prop(laws[i], "lawId")) && !Truthy(Prop(laws[i], "law_id")) ==> r[i].lawId == "")
  {
    if data.JObj? && Prop(data, "laws").JArr? {
      ParseAllSpec(Prop(data, "laws").items);
    }
  }

  // ---------------------------------------------------------------------------
  // getFallbackLaws

  function CommonLaw(id: string, num: string, title: string): LawSearchResult {
    LawSearchResult(id, num, title, None, None, None, None, JStr("Act"), "active")
  }

  const CommonLaws: seq<LawSearchResult> := [
    CommonLaw("fallback_labor", "昭和二十二年法律第四十九号", "労働基準法"),
    CommonLaw("fallback_income_tax", "昭和四十年法律第三十三号", "所得税法"),
    CommonLaw("fallback_pension", "昭和二十九年法律第百十五号", "厚生年金保険法")
  ]

  /** `keywords.some(kw => title.includes(kw))`. */
  predicate MentionsAny(title: string, keywords: seq<string>) {
    exists i :: 0 <= i < |keywords| && Contains(title, keywords[i])
  }

  function FilterByKeywords(laws: seq<LawSearchResult>, keywords: seq<string>): (r: seq<LawSearchResult>)
    ensures forall x :: x in r <==> x in laws && MentionsAny(x.lawTitle, keywords)
    ensures |r| <= |laws|
  {
    if laws == [] then []
    else
      var rest := FilterByKeywords(laws[..|laws| - 1], keywords);
      var last := laws[|laws| - 1];
      assert forall x :: x in laws <==> x in laws[..|laws| - 1] || x == last;
      if MentionsAny(last.lawTitle, keywords) then rest + [last] else rest
  }

  /** `getFallbackLaws`: all three common laws for no keywords, otherwise those whose title contains a keyword. */
  function FallbackLaws(keywords: seq<string>): (r: seq<LawSearchResult>)
    ensures keywords == [] ==> r == CommonLaws
    ensures keywords != [] ==> forall x :: x in r <==> x in CommonLaws && MentionsAny(x.lawTitle, keywords)
  {
    if keywords == [] then CommonLaws else FilterByKeywords(CommonLaws, keywords)
  }

  // ---------------------------------------------------------------------------
  // getLawsByAgeCategory

  datatype AgeLaws = AgeLaws(categories: seq<(string, seq<string>)>, summary: string)

  const MinorSummary := "未成年者として、労働基準法による保護や民法上の制限があります。"
  const ElderlySummary := "高齢者として、介護保険法や高齢者雇用安定法の適用があります。"
  const AdultSummary := "成年として、一般的な法律が適用されます。"

  /** `getLawsByAgeCategory`: the age's bands, and the summary chosen by age < 18, age ≥ 65 or otherwise. */
  function LawsByAgeCategory(age: int): (r: AgeLaws)
    ensures forall e :: e in r.categories <==>
      exists i :: 0 <= i < |TermsDictionary.AgeCategories| && TermsDictionary.InBand(TermsDictionary.AgeCategories[i], age)
                  && e == (TermsDictionary.AgeCategories[i].category, TermsDictionary.AgeCategories[i].laws)
    ensures r.summary == MinorSummary <==> age < 18
    ensures r.summary == ElderlySummary <==> age >= 65
    ensures r.summary == AdultSummary <==> 18 <= age < 65
  {
    forall e ensures e in TermsDictionary.BandsOf(TermsDictionary.AgeCategories, age) <==>
      exists i :: 0 <= i < |TermsDictionary.AgeCategories| && TermsDictionary.InBand(TermsDictionary.AgeCategories[i], age)
                  && e == (TermsDictionary.AgeCategories[i].category, TermsDictionary.AgeCategories[i].laws)
    {
      TermsDictionary.BandsOfSpec(TermsDictionary.AgeCategories, age, e);
    }
    AgeLaws(TermsDictionary.BandsOf(TermsDictionary.AgeCategories, age),
            if age < 18 then MinorSummary else if age >= 65 then ElderlySummary else AdultSummary)
  }
}
