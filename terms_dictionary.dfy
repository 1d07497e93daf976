/**
 * The legal-term dictionary: translation of everyday words into the terms the
 * statutes use, search keywords derived from a user's attributes, and the
 * statutory age bands an age falls into. JavaScript objects iterate their
 * string keys in insertion order, so each table is a sequence of entries; the
 * operations take the table as a parameter and are applied to the constants below.
 */
module TermsDictionary {
  import opened Common

  type Table = seq<(string, seq<string>)>

  function Keys(t: Table): (r: seq<string>)
    ensures |r| == |t| && forall i :: 0 <= i < |t| ==> r[i] == t[i].0
  {
    seq(|t|, i requires 0 <= i < |t| => t[i].0)
  }

  /** `table[key]`: the list of the first entry with that key. */
  function Lookup(t: Table, key: string): (r: Option<seq<string>>)
    ensures r.Some? <==> key in Keys(t)
    ensures r.Some? ==> exists i :: 0 <= i < |t| && t[i] == (key, r.value)
  {
    if t == [] then None
    else if t[0].0 == key then Some(t[0].1)
    else
      var r := Lookup(t[1..], key);
      assert Keys(t[1..]) == Keys(t)[1..];
      if r.Some? then
        var i :| 0 <= i < |t[1..]| && t[1..][i] == (key, r.value);
        assert t[i + 1] == (key, r.value);
        r
      else r
  }

  /** Every key is a non-empty string and every list is non-empty (a list, even empty, is truthy; a key never is ""). */
  predicate WellFormed(t: Table) {
    forall i :: 0 <= i < |t| ==> t[i].0 != "" && t[i].1 != []
  }

  lemma WellFormedAppend(a: Table, b: Table)
    requires WellFormed(a) && WellFormed(b)
    ensures WellFormed(a + b)
  {
    forall i | 0 <= i < |a + b| ensures (a + b)[i].0 != "" && (a + b)[i].1 != [] {
      if i < |a| {
        assert (a + b)[i] == a[i];
      } else {
        assert (a + b)[i] == b[i - |a|];
      }
    }
  }

  const TrafficTerms: Table := [
    ("シートベルト", ["座席ベルト", "安全ベルト"]),
    ("チャイルドシート", ["幼児用補助装置", "乳児用補助装置"]),
    ("車", ["自動車", "車両", "軽車両"]),
    ("バイク", ["自動二輪車", "原動機付自転車", "二輪自動車"]),
    ("自転車", ["自転車", "軽車両"]),
    ("免許", ["運転免許", "運転免許証"]),
    ("飲酒運転", ["酒気帯び運転", "酒酔い運転"])
  ]

  const PersonTerms: Table := [
    ("子供", ["児童", "幼児", "乳児", "少年", "未成年者"]),
    ("赤ちゃん", ["乳児", "乳幼児"]),
    ("幼児", ["幼児"]),
    ("児童", ["児童", "学童"]),
    ("未成年", ["未成年者", "年少者"]),
    ("お年寄り", ["高齢者", "老人", "老齢者"]),
    ("障害者", ["障害者", "身体障害者", "知的障害者", "精神障害者"])
  ]

  const EmploymentTerms: Table := [
    ("会社", ["事業者", "使用者", "事業主"]),
    ("社員", ["労働者", "従業員", "被用者"]),
    ("パート", ["短時間労働者", "パートタイム労働者"]),
    ("アルバイト", ["短時間労働者", "有期雇用労働者"]),
    ("派遣", ["派遣労働者", "派遣労働"]),
    ("クビ", ["解雇", "雇止め"]),
    ("残業", ["時間外労働", "時間外勤務"]),
    ("有給", ["年次有給休暇", "有給休暇"]),
    ("育休", ["育児休業", "育児休暇"]),
    ("産休", ["産前産後休業", "産前休暇", "産後休暇"])
  ]

  const TaxTerms: Table := [
    ("税金", ["租税", "税", "国税", "地方税"]),
    ("所得税", ["所得税"]),
    ("住民税", ["地方税", "住民税", "市町村民税", "道府県民税"]),
    ("消費税", ["消費税"]),
    ("控除", ["控除", "所得控除", "税額控除"]),
    ("確定申告", ["確定申告", "申告納税"]),
    ("年末調整", ["年末調整"]),
    ("相続", ["相続", "遺産"]),
    ("贈与", ["贈与"])
  ]

  const InsuranceTerms: Table := [
    ("健康保険", ["健康保険", "医療保険"]),
    ("年金", ["年金", "厚生年金", "国民年金"]),
    ("失業保険", ["雇用保険", "失業等給付"]),
    ("労災", ["労働者災害補償保険", "労災保険"]),
    ("介護保険", ["介護保険"]),
    ("生活保護", ["生活保護", "被保護者"])
  ]

  const HousingTerms: Table := [
    ("家", ["住宅", "建築物", "建物"]),
    ("マンション", ["共同住宅", "集合住宅", "区分所有建物"]),
    ("アパート", ["共同住宅", "賃貸住宅"]),
    ("賃貸", ["賃貸借", "借家", "借地"]),
    ("敷金", ["敷金", "保証金"]),
    ("礼金", ["権利金"]),
    ("ローン", ["住宅ローン", "借入金", "貸付金"])
  ]

  const FamilyTerms: Table := [
    ("結婚", ["婚姻", "結婚"]),
    ("離婚", ["離婚"]),
    ("養子", ["養子", "養子縁組"]),
    ("親権", ["親権"]),
    ("扶養", ["扶養", "扶養義務"]),
    ("遺言", ["遺言", "遺言書"])
  ]

  const ProcedureTerms: Table := [
    ("届出", ["届出", "届け出", "届"]),
    ("申請", ["申請", "請求"]),
    ("届け", ["届", "届出"]),
    ("パスポート", ["旅券"]),
    ("住民票", ["住民票", "住民基本台帳"]),
    ("戸籍", ["戸籍"]),
    ("マイナンバー", ["個人番号", "番号法"])
  ]

  /** `TERM_DICTIONARY`, section by section. */
  const TermDictionary: Table :=
    TrafficTerms + PersonTerms + EmploymentTerms + TaxTerms + InsuranceTerms + HousingTerms + FamilyTerms + ProcedureTerms

  const EmploymentAttributes: Table := [
    ("FULL_TIME", ["労働基準法", "年次有給休暇", "残業", "社会保険", "厚生年金"]),
    ("PART_TIME", ["短時間労働者", "パートタイム労働法", "社会保険適用拡大"]),
    ("SELF_EMPLOYED", ["確定申告", "青色申告", "個人事業", "事業所得", "国民年金"]),
    ("FREELANCE", ["確定申告", "フリーランス", "請負契約", "委託契約"]),
    ("UNEMPLOYED", ["失業給付", "雇用保険", "求職者給付", "国民健康保険"]),
    ("STUDENT", ["学生納付特例", "国民年金", "奨学金"]),
    ("RETIRED", ["年金受給", "老齢年金", "後期高齢者医療"])
  ]

  const ResidenceAttributes: Table := [
    ("RENT", ["借地借家法", "敷金", "原状回復", "賃貸借契約"]),
    ("OWN", ["住宅ローン控除", "固定資産税", "不動産取得税"]),
    ("PARENTS_HOME", ["扶養控除", "世帯"]),
    ("COMPANY_HOUSING", ["社宅", "給与所得", "現物給与"])
  ]

  const HouseholdAttributes: Table := [
    ("SINGLE", ["一人暮らし", "国民健康保険", "国民年金"]),
    ("COUPLE", ["配偶者控除", "配偶者特別控除", "扶養"]),
    ("FAMILY_WITH_CHILDREN", ["児童手当", "育児休業", "保育", "扶養控除"]),
    ("SINGLE_PARENT", ["ひとり親", "ひとり親控除", "児童扶養手当"]),
    ("WITH_PARENTS", ["扶養控除", "介護休業", "介護保険"])
  ]

  const EventAttributes: Table := [
    ("SIDE_JOB", ["副業", "兼業", "雑所得", "確定申告"]),
    ("JOB_CHANGE", ["失業給付", "雇用保険", "離職票", "国民年金切替"]),
    ("HOUSE_PURCHASE", ["住宅ローン控除", "不動産取得税", "登録免許税", "住宅取得"]),
    ("MARRIAGE", ["婚姻届", "氏の変更", "扶養控除", "配偶者控除"]),
    ("CHILDBIRTH", ["出産育児一時金", "育児休業給付", "児童手当", "産前産後休業"]),
    ("INHERITANCE", ["相続税", "遺産分割", "相続放棄", "遺言"]),
    ("RETIREMENT", ["退職金", "退職所得控除", "年金受給", "確定申告"])
  ]

  /** `USER_ATTRIBUTE_KEYWORDS`, section by section. */
  const UserAttributeKeywords: Table :=
    EmploymentAttributes + ResidenceAttributes + HouseholdAttributes + EventAttributes

  lemma FirstSectionsWellFormed()
    ensures WellFormed(TrafficTerms) && WellFormed(PersonTerms) && WellFormed(EmploymentTerms) && WellFormed(TaxTerms)
  {
    assert WellFormed(TrafficTerms) && WellFormed(PersonTerms);
  }

  lemma LastSectionsWellFormed()
    ensures WellFormed(InsuranceTerms) && WellFormed(HousingTerms) && WellFormed(FamilyTerms) && WellFormed(ProcedureTerms)
  {
    assert WellFormed(InsuranceTerms) && WellFormed(HousingTerms);
  }

  lemma TermDictionaryWellFormed()
    ensures WellFormed(TermDictionary)
  {
    FirstSectionsWellFormed();
    LastSectionsWellFormed();
    WellFormedAppend(TrafficTerms, PersonTerms);
    WellFormedAppend(TrafficTerms + PersonTerms, EmploymentTerms);
    WellFormedAppend(TrafficTerms + PersonTerms + EmploymentTerms, TaxTerms);
    WellFormedAppend(TrafficTerms + PersonTerms + EmploymentTerms + TaxTerms, InsuranceTerms);
    WellFormedAppend(TrafficTerms + PersonTerms + EmploymentTerms + TaxTerms + InsuranceTerms, HousingTerms);
    WellFormedAppend(TrafficTerms + PersonTerms + EmploymentTerms + TaxTerms + InsuranceTerms + HousingTerms, FamilyTerms);
    WellFormedAppend(TrafficTerms + PersonTerms + EmploymentTerms + TaxTerms + InsuranceTerms + HousingTerms + FamilyTerms, ProcedureTerms);
  }

  // ---------------------------------------------------------------------------
  // translateToLegalTerms

  /** Either string contains the other. */
  predicate Related(term: string, key: string) {
    Contains(term, key) || Contains(key, term)
  }

  /** The lists of every related key, concatenated in table order. */
  function PartialMatches(t: Table, term: string): seq<string> {
    if t == [] then []
    else PartialMatches(t[..|t| - 1], term) + (if Related(term, t[|t| - 1].0) then t[|t| - 1].1 else [])
  }

  function Translate(dict: Table, term: string): seq<string> {
    match Lookup(dict, term)
    case Some(v) => v
    case None =>
      var r := PartialMatches(dict, term);
      if |r| > 0 then Dedup(r) else [term]
  }

  /** `translateToLegalTerms`, over the dictionary `dict` (`TermDictionary` in the application). */
  method TranslateToLegalTerms(dict: Table, term: string) returns (r: seq<string>)
    ensures r == Translate(dict, term)
  {
    var exact := Lookup(dict, term);
    if exact.Some? {
      return exact.value;
    }
    var results: seq<string> := [];
    var i := 0;
    while i < |dict|
      invariant 0 <= i <= |dict|
      invariant results == PartialMatches(dict[..i], term)
    {
      assert dict[..i + 1][..i] == dict[..i];
      var (key, values) := dict[i];
      if Contains(term, key) || Contains(key, term) {
        results := results + values;
      }
      i := i + 1;
    }
    assert dict[..|dict|] == dict;
    r := if |results| > 0 then Dedup(results) else [term];
  }

  /** A word is in the partial-match list exactly when the list of some related key holds it. */
  lemma {:induction false} PartialMatchesSpec(t: Table, term: string, x: string)
    ensures x in PartialMatches(t, term) <==> exists i :: 0 <= i < |t| && Related(term, t[i].0) && x in t[i].1
  {
    if t != [] {
      var p := t[..|t| - 1];
      PartialMatchesSpec(p, term, x);
      if exists i :: 0 <= i < |t| && Related(term, t[i].0) && x in t[i].1 {
        var i :| 0 <= i < |t| && Related(term, t[i].0) && x in t[i].1;
        if i < |t| - 1 {
          assert p[i] == t[i];
        }
      }
      if exists i :: 0 <= i < |p| && Related(term, p[i].0) && x in p[i].1 {
        var i :| 0 <= i < |p| && Related(term, p[i].0) && x in p[i].1;
        assert p[i] == t[i];
      }
    }
  }

  lemma {:induction false} PartialMatchesEmpty(t: Table, term: string)
    requires WellFormed(t)
    ensures PartialMatches(t, term) == [] <==> forall i :: 0 <= i < |t| ==> !Related(term, t[i].0)
  {
    if t != [] {
      var p := t[..|t| - 1];
      assert forall i :: 0 <= i < |p| ==> p[i] == t[i];
      PartialMatchesEmpty(p, term);
    }
  }

  /** A term that is a key gets the list the table gives that key, unchanged. */
  lemma TranslateExactKey(dict: Table, term: string)
    requires term in Keys(dict)
    ensures exists i :: 0 <= i < |dict| && dict[i] == (term, Translate(dict, term))
  {
  }

  /**
   * Any other term gets the duplicate-free union of the lists of every key it
   * contains or is contained in, and itself alone when there is no such key.
   */
  lemma TranslatePartial(dict: Table, term: string)
    requires WellFormed(dict) && term !in Keys(dict)
    ensures var r := Translate(dict, term);
      && NoDup(r)
      && ((forall i :: 0 <= i < |dict| ==> !Related(term, dict[i].0)) ==> r == [term])
      && ((exists i :: 0 <= i < |dict| && Related(term, dict[i].0)) ==>
            forall x :: x in r <==> exists i :: 0 <= i < |dict| && Related(term, dict[i].0) && x in dict[i].1)
  {
    PartialMatchesEmpty(dict, term);
    var pm := PartialMatches(dict, term);
    forall x ensures x in Dedup(pm) <==> x in pm {
      DedupMembers(pm, x);
    }
    forall x ensures x in pm <==> exists i :: 0 <= i < |dict| && Related(term, dict[i].0) && x in dict[i].1 {
      PartialMatchesSpec(dict, term, x);
    }
  }

  /** The empty string is contained in every key, so it yields the union of all the dictionary's lists. */
  lemma TranslateEmpty()
    ensures forall x :: x in Translate(TermDictionary, "") <==> exists i :: 0 <= i < |TermDictionary| && x in TermDictionary[i].1
  {
    TermDictionaryWellFormed();
    assert "" !in Keys(TermDictionary);
    forall i | 0 <= i < |TermDictionary| ensures Related("", TermDictionary[i].0) {
      ContainsEmpty(TermDictionary[i].0);
    }
    assert |TermDictionary| > 0 && Related("", TermDictionary[0].0);
    TranslatePartial(TermDictionary, "");
    forall x ensures x in Translate(TermDictionary, "") <==> exists i :: 0 <= i < |TermDictionary| && x in TermDictionary[i].1 {
      if exists i :: 0 <= i < |TermDictionary| && x in TermDictionary[i].1 {
        var i :| 0 <= i < |TermDictionary| && x in TermDictionary[i].1;
        assert Related("", TermDictionary[i].0);
      }
    }
  }

  // ---------------------------------------------------------------------------
  // getKeywordsForUserAttributes

  datatype Attributes = Attributes(employmentType: Option<string>, residenceType: Option<string>,
                                   householdType: Option<string>, plannedEvents: Option<seq<string>>, age: Option<int>)

  /** The keywords of one attribute value; an absent, empty or unknown value contributes nothing. */
  function AttributeList(t: Table, v: Option<string>): seq<string> {
    if v.Some? && v.value != "" then Lookup(t, v.value).GetOr([]) else []
  }

  function EventLists(t: Table, events: seq<string>): seq<string> {
    if events == [] then []
    else EventLists(t, events[..|events| - 1]) + Lookup(t, events[|events| - 1]).GetOr([])
  }

  /** The age bands: 60-64, 65 and over, and 75 and over on top of 65 and over. */
  function AgeKeywords(age: Option<int>): seq<string> {
    match age
    case None => []
    case Some(a) =>
      (if 60 <= a < 65 then ["高年齢者", "継続雇用", "定年"] else if a >= 65 then ["高齢者", "年金受給", "介護保険"] else [])
      + (if a >= 75 then ["後期高齢者医療"] else [])
  }

  /** Everything pushed, in push order, before de-duplication. */
  function RawKeywords(t: Table, attrs: Attributes): seq<string> {
    AttributeList(t, attrs.employmentType) + AttributeList(t, attrs.residenceType) + AttributeList(t, attrs.householdType)
    + EventLists(t, attrs.plannedEvents.GetOr([])) + AgeKeywords(attrs.age)
  }

  /** The planned-events loop: push the keywords of every known event, in order. */
  method PushEventKeywords(t: Table, keywords: seq<string>, events: seq<string>) returns (out: seq<string>)
    ensures out == keywords + EventLists(t, events)
  {
    out := keywords;
    var i := 0;
    while i < |events|
      invariant 0 <= i <= |events|
      invariant out == keywords + EventLists(t, events[..i])
    {
      assert events[..i + 1][..i] == events[..i];
      out := out + Lookup(t, events[i]).GetOr([]);
      i := i + 1;
    }
    assert events[..|events|] == events;
  }

  /** `getKeywordsForUserAttributes`, over the table `t` (`UserAttributeKeywords` in the application). */
  method GetKeywordsForUserAttributes(t: Table, attrs: Attributes) returns (r: seq<string>)
    ensures r == Dedup(RawKeywords(t, attrs))
  {
    var keywords := AttributeList(t, attrs.employmentType);
    keywords := keywords + AttributeList(t, attrs.residenceType);
    keywords := keywords + AttributeList(t, attrs.householdType);
    keywords := PushEventKeywords(t, keywords, attrs.plannedEvents.GetOr([]));
    var age: seq<string> := [];
    if attrs.age.Some? {
      var a := attrs.age.value;
      if 60 <= a < 65 {
        age := ["高年齢者", "継続雇用", "定年"];
      } else if a >= 65 {
        age := ["高齢者", "年金受給", "介護保険"];
      }
      if a >= 75 {
        age := age + ["後期高齢者医療"];
      }
    }
    assert age == AgeKeywords(attrs.age);
    r := Dedup(keywords + age);
  }

  const NoAttributes := Attributes(None, None, None, None, None)

  /** No attributes, no keywords. */
  lemma NoAttributesNoKeywords(t: Table)
    ensures Dedup(RawKeywords(t, NoAttributes)) == []
  {
  }

  /** An attribute value that is not a table key contributes exactly what an absent one does. */
  lemma UnknownAttributeIsIgnored(t: Table, attrs: Attributes, v: string)
    requires v !in Keys(t)
    ensures RawKeywords(t, attrs.(employmentType := Some(v))) == RawKeywords(t, attrs.(employmentType := None))
    ensures RawKeywords(t, attrs.(residenceType := Some(v))) == RawKeywords(t, attrs.(residenceType := None))
    ensures RawKeywords(t, attrs.(householdType := Some(v))) == RawKeywords(t, attrs.(householdType := None))
  {
    assert AttributeList(t, Some(v)) == [];
  }

  /** The keywords come out without duplicates, and are exactly the words the attributes contribute. */
  lemma KeywordsSpec(t: Table, attrs: Attributes)
    ensures var r := Dedup(RawKeywords(t, attrs));
      NoDup(r) && forall x :: x in r <==> x in RawKeywords(t, attrs)
  {
    forall x ensures x in Dedup(RawKeywords(t, attrs)) <==> x in RawKeywords(t, attrs) {
      DedupMembers(RawKeywords(t, attrs), x);
    }
  }

  /** The age bands, as the tests state them. */
  lemma AgeBands(a: int)
    ensures 60 <= a < 65 ==> AgeKeywords(Some(a)) == ["高年齢者", "継続雇用", "定年"]
    ensures 65 <= a < 75 ==> AgeKeywords(Some(a)) == ["高齢者", "年金受給", "介護保険"]
    ensures a >= 75 ==> AgeKeywords(Some(a)) == ["高齢者", "年金受給", "介護保険", "後期高齢者医療"]
    ensures a < 60 ==> AgeKeywords(Some(a)) == []
  {
  }

  // ---------------------------------------------------------------------------
  // getAgeCategory

  datatype AgeCategory = AgeCategory(category: string, minAge: int, maxAge: int, laws: seq<string>)

  const AgeCategories: seq<AgeCategory> := [
    AgeCategory("乳児", 0, 0, ["児童福祉法"]),
    AgeCategory("幼児", 1, 5, ["児童福祉法", "学校教育法"]),
    AgeCategory("児童", 6, 17, ["児童福祉法", "労働基準法"]),
    AgeCategory("未成年者", 0, 17, ["民法"]),
    AgeCategory("成年", 18, 999, ["民法"]),
    AgeCategory("年少者", 0, 17, ["労働基準法"]),
    AgeCategory("高齢者", 65, 999, ["高齢者雇用安定法", "介護保険法"]),
    AgeCategory("後期高齢者", 75, 999, ["高齢者医療確保法"])
  ]

  predicate InBand(c: AgeCategory, age: int) { c.minAge <= age <= c.maxAge }

  function BandsOf(cs: seq<AgeCategory>, age: int): seq<(string, seq<string>)> {
    if cs == [] then []
    else BandsOf(cs[..|cs| - 1], age) + (if InBand(cs[|cs| - 1], age) then [(cs[|cs| - 1].category, cs[|cs| - 1].laws)] else [])
  }

  /** `getAgeCategory`, over the band table `cs` (`AgeCategories` in the application). */
  method GetAgeCategory(cs: seq<AgeCategory>, age: int) returns (r: seq<(string, seq<string>)>)
    ensures r == BandsOf(cs, age)
  {
    r := [];
    var i := 0;
    while i < |cs|
      invariant 0 <= i <= |cs|
      invariant r == BandsOf(cs[..i], age)
    {
      assert cs[..i + 1][..i] == cs[..i];
      var c := cs[i];
      if age >= c.minAge && age <= c.maxAge {
        r := r + [(c.category, c.laws)];
      }
      i := i + 1;
    }
    assert cs[..|cs|] == cs;
  }

  /** Exactly the bands containing `age` are reported, with their laws. */
  lemma {:induction false} BandsOfSpec(cs: seq<AgeCategory>, age: int, e: (string, seq<string>))
    ensures e in BandsOf(cs, age) <==> exists i :: 0 <= i < |cs| && InBand(cs[i], age) && e == (cs[i].category, cs[i].laws)
  {
    if cs != [] {
      var p := cs[..|cs| - 1];
      BandsOfSpec(p, age, e);
      if exists i :: 0 <= i < |cs| && InBand(cs[i], age) && e == (cs[i].category, cs[i].laws) {
        var i :| 0 <= i < |cs| && InBand(cs[i], age) && e == (cs[i].category, cs[i].laws);
        if i < |cs| - 1 {
          assert p[i] == cs[i];
        }
      }
      if exists i :: 0 <= i < |p| && InBand(p[i], age) && e == (p[i].category, p[i].laws) {
        var i :| 0 <= i < |p| && InBand(p[i], age) && e == (p[i].category, p[i].laws);
        assert p[i] == cs[i];
      }
    }
  }

  /** A band table starting at 0 or later reports nothing for a negative age. */
  lemma {:induction false} NegativeAgeNoBands(cs: seq<AgeCategory>, age: int)
    requires age < 0 && forall i :: 0 <= i < |cs| ==> cs[i].minAge >= 0
    ensures BandsOf(cs, age) == []
  {
    if cs != [] {
      var p := cs[..|cs| - 1];
      assert forall i :: 0 <= i < |p| ==> p[i] == cs[i];
      NegativeAgeNoBands(p, age);
    }
  }

  lemma NegativeAge(age: int)
    requires age < 0
    ensures BandsOf(AgeCategories, age) == []
  {
    NegativeAgeNoBands(AgeCategories, age);
  }
}
