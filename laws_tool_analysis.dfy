/**
 * `analyze_search_results` of the law-search tool: the per-law tally over all
 * results, and, over the first ten, query-term overlap, undefined age terms
 * and references to other laws, followed by the ordered suggested actions.
 * The two regular expressions are written out as scanners over characters.
 */
module LawsToolAnalysis {
  import opened Common

  // ---------------------------------------------------------------------------
  // Character classes

  /** `一-龥`: U+4E00..U+9FA5. */
  predicate IsKanji(c: char) { '\U{4E00}' <= c <= '\U{9FA5}' }

  /** `ぁ-ん`: U+3041..U+3093. */
  predicate IsHiragana(c: char) { '\U{3041}' <= c <= '\U{3093}' }

  /** `ァ-ヶー`: U+30A1..U+30F6 and the long-vowel mark U+30FC. */
  predicate IsKatakana(c: char) { ('\U{30A1}' <= c <= '\U{30F6}') || c == '\U{30FC}' }

  predicate IsQueryChar(c: char) { IsKanji(c) || IsHiragana(c) || IsKatakana(c) }

  /** `[一-九十百千万]`: U+4E00..U+4E5D and 十, 百, 千, 万. */
  predicate IsKanjiNumeral(c: char) {
    ('\U{4E00}' <= c <= '\U{4E5D}') || c == '十' || c == '百' || c == '千' || c == '万'
  }

  /** Length of the longest prefix of `s` made of query characters. */
  function QueryRunLen(s: string): (n: nat)
    ensures n <= |s| && (forall i :: 0 <= i < n ==> IsQueryChar(s[i])) && (n < |s| ==> !IsQueryChar(s[n]))
  {
    if s != [] && IsQueryChar(s[0]) then 1 + QueryRunLen(s[1..]) else 0
  }

  function KanjiRunLen(s: string): (n: nat)
    ensures n <= |s| && (forall i :: 0 <= i < n ==> IsKanji(s[i])) && (n < |s| ==> !IsKanji(s[n]))
  {
    if s != [] && IsKanji(s[0]) then 1 + KanjiRunLen(s[1..]) else 0
  }

  function NumeralRunLen(s: string): (n: nat)
    ensures n <= |s| && forall i :: 0 <= i < n ==> IsKanjiNumeral(s[i])
  {
    if s != [] && IsKanjiNumeral(s[0]) then 1 + NumeralRunLen(s[1..]) else 0
  }

  // ---------------------------------------------------------------------------
  // `re.findall(r'[一-龥ぁ-んァ-ヶー]+', q)`: the maximal runs, left to right

  function QueryRuns(s: string): (r: seq<string>)
    ensures forall w :: w in r ==> w != [] && (forall i :: 0 <= i < |w| ==> IsQueryChar(w[i])) && Contains(s, w)
    decreases |s|
  {
    if s == [] then []
    else if IsQueryChar(s[0]) then
      var n := QueryRunLen(s);
      ContainsAt(s, s[..n], 0);
      var rest := QueryRuns(s[n..]);
      forall w | w in rest ensures Contains(s, w) {
        ContainsInSuffix(s, n, w);
      }
      [s[..n]] + rest
    else
      var rest := QueryRuns(s[1..]);
      forall w | w in rest ensures Contains(s, w) {
        ContainsInSuffix(s, 1, w);
      }
      rest
  }

  /** `set(re.findall(..., original_query.lower()))` */
  function QueryWords(query: string): set<string> {
    set w | w in QueryRuns(Lower(query))
  }

  // ---------------------------------------------------------------------------
  // `re.findall(r'([一-龥]+法)(?:第[一-九十百千万]+条)?', text)`

  /** The largest `k` with `1 <= k < n` and `s[k] == '法'`, or 0 when there is none (greedy `[一-龥]+` backing off to the last 法). */
  function LastHou(s: string, n: nat): (k: nat)
    requires n <= |s|
    ensures k < n || k == 0
    ensures k >= 1 ==> s[k] == '法' && forall j :: k < j < n ==> s[j] != '法'
    ensures k == 0 ==> forall j :: 1 <= j < n ==> s[j] != '法'
  {
    if n <= 1 then 0 else if s[n - 1] == '法' then n - 1 else LastHou(s, n - 1)
  }

  /** Length of an optional `第…条` article suffix at the head of `t`, 0 when it does not match. */
  function ArticleSuffixLen(t: string): (m: nat)
    ensures m <= |t|
  {
    if |t| >= 3 && t[0] == '第' then
      var k := 1 + NumeralRunLen(t[1..]);
      if k >= 2 && k < |t| && t[k] == '条' then k + 1 else 0
    else 0
  }

  /** One step of the scan: the capture at the head, if any, and where scanning resumes. */
  function LawNameAt(s: string): (r: (Option<string>, nat))
    requires s != []
    ensures 1 <= r.1 <= |s|
  {
    var k := LastHou(s, KanjiRunLen(s));
    if k >= 1 then (Some(s[..k + 1]), k + 1 + ArticleSuffixLen(s[k + 1..])) else (None, 1)
  }

  /** The captured law names, left to right, without overlapping. */
  function LawNames(s: string): seq<string>
    decreases |s|
  {
    if s == [] then []
    else
      var (w, next) := LawNameAt(s);
      (if w.Some? then [w.value] else []) + LawNames(s[next..])
  }

  /** What `[一-龥]+法` can capture: at least two kanji, the last one 法. */
  predicate IsLawName(w: string) {
    |w| >= 2 && w[|w| - 1] == '法' && forall i :: 0 <= i < |w| ==> IsKanji(w[i])
  }

  /** A head capture is a law name and a prefix of the text. */
  lemma LawNameAtShape(s: string)
    requires s != [] && LawNameAt(s).0.Some?
    ensures IsLawName(LawNameAt(s).0.value) && Contains(s, LawNameAt(s).0.value)
  {
    var k := LastHou(s, KanjiRunLen(s));
    ContainsAt(s, s[..k + 1], 0);
  }

  /** Every law name found is a run of at least two kanji ending in 法 that occurs in the text. */
  lemma {:induction false} LawNamesShape(s: string)
    ensures forall w :: w in LawNames(s) ==> IsLawName(w) && Contains(s, w)
    decreases |s|
  {
    if s != [] {
      var (h, next) := LawNameAt(s);
      var rest := LawNames(s[next..]);
      LawNamesShape(s[next..]);
      assert LawNames(s) == (if h.Some? then [h.value] else []) + rest;
      forall w | w in LawNames(s) ensures IsLawName(w) && Contains(s, w) {
        if w in rest {
          ContainsInSuffix(s, next, w);
        } else {
          LawNameAtShape(s);
        }
      }
    }
  }

  // ---------------------------------------------------------------------------
  // Inputs and outputs

  /** A JSON field: key absent, present with `null`, or present with a value. */
  datatype Field<T> = Absent | Null | Val(v: T)

  /** One previously normalised result item, as the agent passes it back. */
  datatype ResultRec = ResultRec(lawId: Field<string>, lawTitle: Field<string>, position: Field<int>, text: Field<string>)

  /** `.get(key, default)`: a present `null` is Python `None`, i.e. `Option.None`. */
  function GetStr(f: Field<string>, default: Option<string>): Option<string> {
    match f
    case Absent => default
    case Null => None
    case Val(s) => Some(s)
  }

  function LawKey(r: ResultRec): Option<string> { GetStr(r.lawId, Some("unknown")) }

  datatype Tally = Tally(title: Option<string>, count: nat, positions: seq<Field<int>>)

  /** The law-distribution dict: its keys in insertion order, and the entries. */
  datatype Distribution = Distribution(keys: seq<Option<string>>, entries: map<Option<string>, Tally>)

  function AddToDistribution(d: Distribution, r: ResultRec): Distribution {
    var k := LawKey(r);
    if k in d.entries then
      Distribution(d.keys, d.entries[k := d.entries[k].(count := d.entries[k].count + 1,
                                                        positions := d.entries[k].positions + [r.position])])
    else
      Distribution(d.keys + [k], d.entries[k := Tally(GetStr(r.lawTitle, Some("不明")), 1, [r.position])])
  }

  /** Specification of the tally loop. */
  function Distribute(rs: seq<ResultRec>): Distribution {
    if rs == [] then Distribution([], map[])
    else AddToDistribution(Distribute(rs[..|rs| - 1]), rs[|rs| - 1])
  }

  /** Number of results filed under key `k`. */
  function CountKey(rs: seq<ResultRec>, k: Option<string>): nat {
    if rs == [] then 0 else CountKey(rs[..|rs| - 1], k) + (if LawKey(rs[|rs| - 1]) == k then 1 else 0)
  }

  function PositionsOf(rs: seq<ResultRec>, k: Option<string>): seq<Field<int>> {
    if rs == [] then []
    else PositionsOf(rs[..|rs| - 1], k) + (if LawKey(rs[|rs| - 1]) == k then [rs[|rs| - 1].position] else [])
  }

  function SumCounts(keys: seq<Option<string>>, m: map<Option<string>, Tally>): nat {
    if keys == [] then 0
    else SumCounts(keys[..|keys| - 1], m) + (if keys[|keys| - 1] in m then m[keys[|keys| - 1]].count else 0)
  }

  /** The keys of the tally: each key of the results exactly once, in first-seen order, each with an entry. */
  lemma {:induction false} DistributionKeys(rs: seq<ResultRec>)
    ensures var d := Distribute(rs);
      && NoDup(d.keys)
      && (forall k :: k in d.keys <==> k in d.entries)
      && (forall k :: k in d.entries <==> exists i :: 0 <= i < |rs| && LawKey(rs[i]) == k)
  {
    if rs != [] {
      var p := rs[..|rs| - 1];
      DistributionKeys(p);
      assert forall i :: 0 <= i < |p| ==> p[i] == rs[i];
    }
  }

  /** Each entry counts the results with its key and lists their positions in order. */
  lemma {:induction false} DistributionTallies(rs: seq<ResultRec>)
    ensures var d := Distribute(rs);
      forall k :: k in d.entries ==> d.entries[k].count == CountKey(rs, k) && d.entries[k].positions == PositionsOf(rs, k)
  {
    if rs != [] {
      var p := rs[..|rs| - 1];
      DistributionTallies(p);
      DistributionKeys(p);
      var d := Distribute(p);
      var k := LawKey(rs[|rs| - 1]);
      if k !in d.entries {
        assert forall i :: 0 <= i < |p| ==> LawKey(p[i]) != k;
        CountKeyZero(p, k);
        PositionsOfEmpty(p, k);
      }
    }
  }

  /**
   * The tally files every result: its keys are exactly the keys of the
   * results, each once, in first-seen order; each entry counts the results
   * with its key and lists their positions in order.
   */
  lemma DistributionSpec(rs: seq<ResultRec>)
    ensures var d := Distribute(rs);
      && NoDup(d.keys)
      && (forall k :: k in d.keys <==> k in d.entries)
      && (forall k :: k in d.entries <==> exists i :: 0 <= i < |rs| && LawKey(rs[i]) == k)
      && (forall k :: k in d.entries ==> d.entries[k].count == CountKey(rs, k) && d.entries[k].positions == PositionsOf(rs, k))
  {
    DistributionKeys(rs);
    DistributionTallies(rs);
  }

  lemma {:induction false} CountKeyPositive(rs: seq<ResultRec>, k: Option<string>)
    requires exists i :: 0 <= i < |rs| && LawKey(rs[i]) == k
    ensures CountKey(rs, k) > 0
  {
    var p := rs[..|rs| - 1];
    if LawKey(rs[|rs| - 1]) != k {
      var i :| 0 <= i < |rs| && LawKey(rs[i]) == k;
      assert p[i] == rs[i];
      CountKeyPositive(p, k);
    }
  }

  lemma {:induction false} CountKeyZero(rs: seq<ResultRec>, k: Option<string>)
    requires forall i :: 0 <= i < |rs| ==> LawKey(rs[i]) != k
    ensures CountKey(rs, k) == 0
  {
    if rs != [] {
      var p := rs[..|rs| - 1];
      assert forall i :: 0 <= i < |p| ==> p[i] == rs[i];
      CountKeyZero(p, k);
    }
  }

  lemma {:induction false} PositionsOfEmpty(rs: seq<ResultRec>, k: Option<string>)
    requires forall i :: 0 <= i < |rs| ==> LawKey(rs[i]) != k
    ensures PositionsOf(rs, k) == []
  {
    if rs != [] {
      var p := rs[..|rs| - 1];
      assert forall i :: 0 <= i < |p| ==> p[i] == rs[i];
      PositionsOfEmpty(p, k);
    }
  }

  lemma {:induction false} SumCountsUpdate(keys: seq<Option<string>>, m: map<Option<string>, Tally>, k: Option<string>, t: Tally)
    requires NoDup(keys) && k in keys && k in m
    ensures SumCounts(keys, m[k := t]) == SumCounts(keys, m) - m[k].count + t.count
  {
    var p := keys[..|keys| - 1];
    var last := keys[|keys| - 1];
    if last == k {
      assert k !in p;
      SumCountsFrame(p, m, k, t);
    } else {
      assert k in p by {
        var i :| 0 <= i < |keys| && keys[i] == k;
        assert p[i] == keys[i];
      }
      SumCountsUpdate(p, m, k, t);
    }
  }

  lemma {:induction false} SumCountsFrame(keys: seq<Option<string>>, m: map<Option<string>, Tally>, k: Option<string>, t: Tally)
    requires k !in keys
    ensures SumCounts(keys, m[k := t]) == SumCounts(keys, m)
  {
    if keys != [] {
      var p := keys[..|keys| - 1];
      assert k !in p;
      SumCountsFrame(p, m, k, t);
    }
  }

  /** Filing one more result adds one to the total count. */
  lemma AddCountsOne(d: Distribution, r: ResultRec)
    requires NoDup(d.keys) && forall k :: k in d.keys <==> k in d.entries
    ensures var e := AddToDistribution(d, r); SumCounts(e.keys, e.entries) == SumCounts(d.keys, d.entries) + 1
  {
    var k := LawKey(r);
    if k in d.entries {
      SumCountsUpdate(d.keys, d.entries, k, d.entries[k].(count := d.entries[k].count + 1,
                                                          positions := d.entries[k].positions + [r.position]));
    } else {
      SumCountsFrame(d.keys, d.entries, k, Tally(GetStr(r.lawTitle, Some("不明")), 1, [r.position]));
      var ks := d.keys + [k];
      assert ks[..|ks| - 1] == d.keys;
    }
  }

  /** The counts add up to the number of results: every result is counted exactly once. */
  lemma {:induction false} DistributionCountsAll(rs: seq<ResultRec>)
    ensures SumCounts(Distribute(rs).keys, Distribute(rs).entries) == |rs|
  {
    if rs != [] {
      var p := rs[..|rs| - 1];
      DistributionCountsAll(p);
      DistributionKeys(p);
      AddCountsOne(Distribute(p), rs[|rs| - 1]);
    }
  }

  // ---------------------------------------------------------------------------
  // Per-item findings (first ten results)

  datatype Indicator = Indicator(lawTitle: Option<string>, matchingWords: set<string>, matchRatio: real)
  datatype UndefinedTerm = UndefinedTerm(term: string, lawTitle: Option<string>, context: string)
  datatype Reference = Reference(fromLaw: Option<string>, toLaw: string, context: string)

  const AgeTerms: seq<string> := ["幼児", "児童", "未成年", "少年", "成年"]
  const Stipulates: string := "定める"

  /** `text[:100]` */
  function Context(text: string): (c: string)
    ensures |c| <= 100 && c <= text
  {
    if |text| <= 100 then text else text[..100]
  }

  function MatchingWords(qw: set<string>, text: string): (m: set<string>)
    ensures m <= qw && forall w :: w in m ==> Contains(text, w)
  {
    set w | w in qw && Contains(text, w)
  }

  function IndicatorOf(r: ResultRec, qw: set<string>, text: string): seq<Indicator> {
    var m := MatchingWords(qw, text);
    if m != {} then [Indicator(GetStr(r.lawTitle, None), m, if qw != {} then (|m| as real) / (|qw| as real) else 0.0)]
    else []
  }

  function UndefinedOf(r: ResultRec, text: string, terms: seq<string>): seq<UndefinedTerm> {
    if terms == [] then []
    else
      (if Contains(text, terms[0]) && Contains(text, Stipulates)
       then [UndefinedTerm(terms[0], GetStr(r.lawTitle, None), Context(text))] else [])
      + UndefinedOf(r, text, terms[1..])
  }

  function ReferencesOf(r: ResultRec, text: string, names: seq<string>): seq<Reference> {
    if names == [] then []
    else
      (if Some(names[0]) != GetStr(r.lawTitle, None)
       then [Reference(GetStr(r.lawTitle, None), names[0], Context(text))] else [])
      + ReferencesOf(r, text, names[1..])
  }

  /** The item text as the loop reads it: `result.get("text", "").lower()`; a `null` raises. */
  function ItemText(r: ResultRec): string
    requires !r.text.Null?
  {
    Lower(match r.text case Val(s) => s case _ => "")
  }

  predicate TextsReadable(rs: seq<ResultRec>) {
    forall i :: 0 <= i < |rs| ==> !rs[i].text.Null?
  }

  function Indicators(rs: seq<ResultRec>, qw: set<string>): seq<Indicator>
    requires TextsReadable(rs)
  {
    if rs == [] then []
    else Indicators(rs[..|rs| - 1], qw) + IndicatorOf(rs[|rs| - 1], qw, ItemText(rs[|rs| - 1]))
  }

  function Undefined(rs: seq<ResultRec>): seq<UndefinedTerm>
    requires TextsReadable(rs)
  {
    if rs == [] then []
    else Undefined(rs[..|rs| - 1]) + UndefinedOf(rs[|rs| - 1], ItemText(rs[|rs| - 1]), AgeTerms)
  }

  function References(rs: seq<ResultRec>): seq<Reference>
    requires TextsReadable(rs)
  {
    if rs == [] then []
    else
      var t := ItemText(rs[|rs| - 1]);
      References(rs[..|rs| - 1]) + ReferencesOf(rs[|rs| - 1], t, LawNames(t))
  }

  // ---------------------------------------------------------------------------
  // `{ref["to_law"]: ref for ref in law_references}.values()`

  function TargetsOf(refs: seq<Reference>): (r: seq<string>)
    ensures |r| == |refs| && forall i :: 0 <= i < |refs| ==> r[i] == refs[i].toLaw
  {
    seq(|refs|, i requires 0 <= i < |refs| => refs[i].toLaw)
  }

  /** The last reference to `target`. */
  function LastTo(refs: seq<Reference>, target: string): (r: Reference)
    requires target in TargetsOf(refs)
    ensures r in refs && r.toLaw == target
  {
    if refs[|refs| - 1].toLaw == target then refs[|refs| - 1]
    else
      assert target in TargetsOf(refs[..|refs| - 1]) by {
        var i :| 0 <= i < |refs| && refs[i].toLaw == target;
        assert i < |refs| - 1 && refs[..|refs| - 1][i] == refs[i];
      }
      LastTo(refs[..|refs| - 1], target)
  }

  /** One entry per target, in first-seen order of the targets, holding the last-seen reference. */
  function DedupReferences(refs: seq<Reference>): (r: seq<Reference>)
    ensures |r| == |Dedup(TargetsOf(refs))|
    ensures forall i :: 0 <= i < |r| ==> r[i] == LastTo(refs, Dedup(TargetsOf(refs))[i])
  {
    var keys := Dedup(TargetsOf(refs));
    seq(|keys|, i requires 0 <= i < |keys| => LastTo(refs, keys[i]))
  }

  lemma {:induction false} LastToIndex(refs: seq<Reference>, target: string) returns (i: nat)
    requires target in TargetsOf(refs)
    ensures i < |refs| && refs[i] == LastTo(refs, target)
    ensures forall j :: i < j < |refs| ==> refs[j].toLaw != target
  {
    var n := |refs| - 1;
    if refs[n].toLaw == target {
      i := n;
    } else {
      var p := refs[..n];
      assert target in TargetsOf(p);
      i := LastToIndex(p, target);
      assert refs[i] == p[i];
    }
  }

  /** The kept entry for a target is the last reference to it. */
  lemma LastToIsLast(refs: seq<Reference>, target: string)
    requires target in TargetsOf(refs)
    ensures exists i :: 0 <= i < |refs| && refs[i] == LastTo(refs, target) && forall j :: i < j < |refs| ==> refs[j].toLaw != target
  {
    var i := LastToIndex(refs, target);
  }

  /** No two de-duplicated references share a target. */
  lemma DedupReferencesDistinct(refs: seq<Reference>)
    ensures var d := DedupReferences(refs); forall i, j :: 0 <= i < j < |d| ==> d[i].toLaw != d[j].toLaw
  {
  }

  // ---------------------------------------------------------------------------
  // Suggested actions

  datatype Action =
    | GetFullLaw(lawId: Option<string>, lawTitle: Option<string>)
    | NarrowSearch
    | SearchDefinition(term: string)
    | SearchReferencedLaw(targetLaw: string)
    | SearchAgeDefinitions

  /** The fixed reason each action carries. */
  function Reason(a: Action): string {
    match a
    case GetFullLaw(_, _) => "検索結果が単一の法令に集中している"
    case NarrowSearch => "検索結果が複数の法令に分散している"
    case SearchDefinition(t) => "'" + t + "'の定義が必要"
    case SearchReferencedLaw(l) => "他の法令（" + l + "）が参照されている"
    case SearchAgeDefinitions => "年齢に関する質問"
  }

  predicate IsAgeQuery(query: string) {
    Contains(query, "歳") || Contains(query, "年齢") || Contains(query, "何歳")
  }

  function DefinitionActions(u: seq<UndefinedTerm>): (r: seq<Action>)
    ensures |r| == |u| && forall i :: 0 <= i < |u| ==> r[i] == SearchDefinition(u[i].term)
  {
    seq(|u|, i requires 0 <= i < |u| => SearchDefinition(u[i].term))
  }

  function ReferenceActions(refs: seq<Reference>): (r: seq<Action>)
    ensures |r| == Min(3, |refs|) && forall i :: 0 <= i < |r| ==> r[i] == SearchReferencedLaw(refs[i].toLaw)
  {
    var n := Min(3, |refs|);
    seq(n, i requires 0 <= i < n => SearchReferencedLaw(refs[i].toLaw))
  }

  function SpreadActions(d: Distribution): seq<Action>
    requires forall k :: k in d.keys ==> k in d.entries
  {
    if |d.keys| == 1 then [GetFullLaw(d.keys[0], d.entries[d.keys[0]].title)]
    else if |d.keys| > 5 then [NarrowSearch]
    else []
  }

  function Actions(d: Distribution, u: seq<UndefinedTerm>, refs: seq<Reference>, query: string): seq<Action>
    requires forall k :: k in d.keys ==> k in d.entries
  {
    SpreadActions(d) + DefinitionActions(u) + ReferenceActions(refs) + (if IsAgeQuery(query) then [SearchAgeDefinitions] else [])
  }

  datatype Kind = KFullLaw | KNarrow | KDefinition | KReferenced | KAge

  function KindOf(a: Action): Kind {
    match a
    case GetFullLaw(_, _) => KFullLaw
    case NarrowSearch => KNarrow
    case SearchDefinition(_) => KDefinition
    case SearchReferencedLaw(_) => KReferenced
    case SearchAgeDefinitions => KAge
  }

  /** Number of actions of kind `k`. */
  function CountKind(acts: seq<Action>, k: Kind): nat {
    if acts == [] then 0 else (if KindOf(acts[0]) == k then 1 else 0) + CountKind(acts[1..], k)
  }

  lemma {:induction false} CountKindAppend(a: seq<Action>, b: seq<Action>, k: Kind)
    ensures CountKind(a + b, k) == CountKind(a, k) + CountKind(b, k)
  {
    if a == [] {
      assert a + b == b;
    } else {
      assert (a + b)[1..] == a[1..] + b;
      CountKindAppend(a[1..], b, k);
    }
  }

  /** A run of actions all of one kind. */
  lemma {:induction false} CountKindUniform(a: seq<Action>, k: Kind, k': Kind)
    requires forall i :: 0 <= i < |a| ==> KindOf(a[i]) == k
    ensures CountKind(a, k') == if k == k' then |a| else 0
  {
    if a != [] {
      CountKindUniform(a[1..], k, k');
    }
  }

  lemma CountKindOfParts(d: Distribution, u: seq<UndefinedTerm>, refs: seq<Reference>, query: string, k: Kind)
    requires forall k :: k in d.keys ==> k in d.entries
    ensures CountKind(Actions(d, u, refs, query), k)
      == CountKind(SpreadActions(d), k) + (if k == KDefinition then |u| else 0)
         + (if k == KReferenced then Min(3, |refs|) else 0) + (if k == KAge && IsAgeQuery(query) then 1 else 0)
  {
    var s := SpreadActions(d);
    var df := DefinitionActions(u);
    var rf := ReferenceActions(refs);
    var ag: seq<Action> := if IsAgeQuery(query) then [SearchAgeDefinitions] else [];
    assert s + df + rf + ag == s + (df + (rf + ag));
    CountKindAppend(s, df + (rf + ag), k);
    CountKindAppend(df, rf + ag, k);
    CountKindAppend(rf, ag, k);
    CountKindUniform(df, KDefinition, k);
    CountKindUniform(rf, KReferenced, k);
    CountKindUniform(ag, KAge, k);
  }

  /**
   * The actions, by kind: exactly one `get_full_law` (first, naming the
   * single law) when there is one distinct law and none otherwise;
   * `narrow_search` exactly when there are more than five; one
   * `search_definition` per undefined-term finding; `min(3, |refs|)`
   * referenced-law searches; and the age-definition search exactly when the
   * query mentions age.
   */
  lemma ActionsByKind(d: Distribution, u: seq<UndefinedTerm>, refs: seq<Reference>, query: string)
    requires forall k :: k in d.keys ==> k in d.entries
    ensures var acts := Actions(d, u, refs, query);
      && CountKind(acts, KFullLaw) == (if |d.keys| == 1 then 1 else 0)
      && (|d.keys| == 1 ==> acts[0] == GetFullLaw(d.keys[0], d.entries[d.keys[0]].title))
      && CountKind(acts, KNarrow) == (if |d.keys| > 5 then 1 else 0)
      && CountKind(acts, KDefinition) == |u|
      && CountKind(acts, KReferenced) == Min(3, |refs|)
      && CountKind(acts, KAge) == (if IsAgeQuery(query) then 1 else 0)
  {
    CountKindOfParts(d, u, refs, query, KFullLaw);
    CountKindOfParts(d, u, refs, query, KNarrow);
    CountKindOfParts(d, u, refs, query, KDefinition);
    CountKindOfParts(d, u, refs, query, KReferenced);
    CountKindOfParts(d, u, refs, query, KAge);
    var s := SpreadActions(d);
    var k0 := if |d.keys| > 5 then KNarrow else KFullLaw;
    CountKindUniform(s, k0, KFullLaw);
    CountKindUniform(s, k0, KNarrow);
    CountKindUniform(s, k0, KDefinition);
    CountKindUniform(s, k0, KReferenced);
    CountKindUniform(s, k0, KAge);
  }

  // ---------------------------------------------------------------------------
  // The report

  datatype Report = Report(
    originalQuery: string, totalResults: nat, distribution: Distribution,
    relevanceIndicators: seq<Indicator>, undefinedTerms: seq<UndefinedTerm>,
    referencedLaws: seq<Reference>, suggestedActions: seq<Action>)

  datatype Analysis = Analyzed(report: Report) | Failed(error: string, message: string)

  function Top10(rs: seq<ResultRec>): (t: seq<ResultRec>)
    ensures |t| == Min(10, |rs|) && t == rs[..|t|]
  {
    if |rs| <= 10 then rs else rs[..10]
  }

  lemma DistributionKeysHaveEntries(rs: seq<ResultRec>)
    ensures forall k :: k in Distribute(rs).keys ==> k in Distribute(rs).entries
  {
    DistributionSpec(rs);
  }

  /** The report once every text among the first ten can be read. */
  function ReportOf(rs: seq<ResultRec>, query: string): Report
    requires TextsReadable(Top10(rs))
  {
    var top := Top10(rs);
    var d := Distribute(rs);
    DistributionKeysHaveEntries(rs);
    var u := Undefined(top);
    var refs := DedupReferences(References(top));
    Report(query, |rs|, d, Indicators(top, QueryWords(query)), u, refs, Actions(d, u, refs, query))
  }

  const NullTextMessage: string := "'NoneType' object has no attribute 'lower'"

  /** Specification of the whole analysis; a `null` text among the first ten makes it fail as a whole. */
  function Analyze(rs: seq<ResultRec>, query: string): Analysis {
    if TextsReadable(Top10(rs)) then Analyzed(ReportOf(rs, query)) else Failed("analysis_failed", NullTextMessage)
  }

  /** The tally loop over every result. */
  method TallyLaws(rs: seq<ResultRec>) returns (d: Distribution)
    ensures d == Distribute(rs)
  {
    d := Distribution([], map[]);
    var i := 0;
    while i < |rs|
      invariant 0 <= i <= |rs|
      invariant d == Distribute(rs[..i])
    {
      assert rs[..i + 1][..i] == rs[..i];
      d := AddToDistribution(d, rs[i]);
      i := i + 1;
    }
    assert rs[..|rs|] == rs;
  }

  lemma ScanStep(top: seq<ResultRec>, i: nat, qw: set<string>)
    requires i < |top| && TextsReadable(top[..i]) && !top[i].text.Null?
    ensures TextsReadable(top[..i + 1])
    ensures var t := ItemText(top[i]);
      && Indicators(top[..i + 1], qw) == Indicators(top[..i], qw) + IndicatorOf(top[i], qw, t)
      && Undefined(top[..i + 1]) == Undefined(top[..i]) + UndefinedOf(top[i], t, AgeTerms)
      && References(top[..i + 1]) == References(top[..i]) + ReferencesOf(top[i], t, LawNames(t))
  {
    assert top[..i + 1][..i] == top[..i];
  }

  /** The loop over the first ten results; it stops at the first `null` text. */
  method ScanResults(top: seq<ResultRec>, qw: set<string>)
    returns (ok: bool, indicators: seq<Indicator>, undefined: seq<UndefinedTerm>, refs: seq<Reference>)
    ensures ok == TextsReadable(top)
    ensures ok ==> indicators == Indicators(top, qw) && undefined == Undefined(top) && refs == References(top)
  {
    indicators, undefined, refs := [], [], [];
    var i := 0;
    while i < |top|
      invariant 0 <= i <= |top|
      invariant TextsReadable(top[..i])
      invariant indicators == Indicators(top[..i], qw)
      invariant undefined == Undefined(top[..i])
      invariant refs == References(top[..i])
    {
      var r := top[i];
      if r.text.Null? {
        return false, indicators, undefined, refs;
      }
      ScanStep(top, i, qw);
      var text := ItemText(r);
      indicators := indicators + IndicatorOf(r, qw, text);
      undefined := undefined + UndefinedOf(r, text, AgeTerms);
      refs := refs + ReferencesOf(r, text, LawNames(text));
      i := i + 1;
    }
    assert top[..|top|] == top;
    ok := true;
  }

  /** `analyze_search_results`: any exception becomes an `analysis_failed` error. */
  method AnalyzeSearchResults(rs: seq<ResultRec>, query: string) returns (out: Analysis)
    ensures out == Analyze(rs, query)
  {
    var d := TallyLaws(rs);
    var qw := QueryWords(query);
    var ok, indicators, undefined, refs := ScanResults(Top10(rs), qw);
    if !ok {
      return Failed("analysis_failed", NullTextMessage);
    }
    DistributionKeysHaveEntries(rs);
    var deduped := DedupReferences(refs);
    out := Analyzed(Report(query, |rs|, d, indicators, undefined, deduped, Actions(d, undefined, deduped, query)));
  }

  /** The property every recorded indicator has. */
  predicate RatioOk(x: Indicator, qw: set<string>) {
    x.matchingWords != {} && x.matchingWords <= qw && 0.0 < x.matchRatio <= 1.0
    && x.matchRatio == (|x.matchingWords| as real) / (|qw| as real)
  }

  lemma IndicatorOfRatio(r: ResultRec, qw: set<string>, text: string)
    ensures forall x :: x in IndicatorOf(r, qw, text) ==> RatioOk(x, qw)
  {
    var m := MatchingWords(qw, text);
    if m != {} {
      assert qw != {};
      SubsetCard(m, qw);
    }
  }

  /** Every recorded match ratio is `|matching| / |query words|`, strictly positive and at most 1. */
  lemma {:induction false} IndicatorRatios(rs: seq<ResultRec>, qw: set<string>)
    requires TextsReadable(rs)
    ensures forall x :: x in Indicators(rs, qw) ==>
      x.matchingWords != {} && x.matchingWords <= qw && 0.0 < x.matchRatio <= 1.0
      && x.matchRatio == (|x.matchingWords| as real) / (|qw| as real)
  {
    if rs != [] {
      var p := rs[..|rs| - 1];
      assert TextsReadable(p);
      IndicatorRatios(p, qw);
      IndicatorOfRatio(rs[|rs| - 1], qw, ItemText(rs[|rs| - 1]));
      assert forall x :: x in Indicators(rs, qw) ==> RatioOk(x, qw);
    }
  }

  lemma SubsetCard(a: set<string>, b: set<string>)
    requires a <= b
    ensures |a| <= |b|
  {
    assert b == a + (b - a);
  }

  /** With no results there is nothing to tally or report; only an age question still suggests an action. */
  lemma AnalyzeEmpty(query: string)
    ensures Analyze([], query) == Analyzed(Report(query, 0, Distribution([], map[]), [], [], [],
                                                  if IsAgeQuery(query) then [SearchAgeDefinitions] else []))
  {
    var e: seq<ResultRec> := [];
    assert Top10(e) == e && TextsReadable(e);
    EmptyReport(query);
  }

  lemma EmptyReport(query: string)
    ensures var r := ReportOf([], query);
      && r.distribution == Distribution([], map[]) && r.relevanceIndicators == [] && r.undefinedTerms == []
      && r.referencedLaws == [] && r.suggestedActions == (if IsAgeQuery(query) then [SearchAgeDefinitions] else [])
  {
    var e: seq<ResultRec> := [];
    assert Top10(e) == e;
    var d := Distribution([], map[]);
    assert Distribute(e) == d;
    assert DedupReferences([]) == [] by {
      assert Dedup(TargetsOf([])) == [];
    }
    assert SpreadActions(d) == [];
  }

  /** Results that all share one key are tallied under that single key, which counts them all. */
  lemma {:induction false} SingleLawDistribution(rs: seq<ResultRec>, id: Option<string>)
    requires rs != [] && forall i :: 0 <= i < |rs| ==> LawKey(rs[i]) == id
    ensures Distribute(rs).keys == [id] && id in Distribute(rs).entries && Distribute(rs).entries[id].count == |rs|
  {
    DistributionSpec(rs);
    var d := Distribute(rs);
    assert id in d.keys by { assert LawKey(rs[0]) == id; }
    forall k | k in d.keys ensures k == id {
      var i :| 0 <= i < |rs| && LawKey(rs[i]) == k;
    }
    assert (set k | k in d.keys) == {id};
    NoDupSetSize(d.keys);
    assert d.keys[0] in d.keys;
    CountAllKey(rs, id);
  }

  /** Results from exactly one law: the first suggested action fetches that law in full. */
  lemma SingleLawSuggestsFullLaw(rs: seq<ResultRec>, query: string, id: Option<string>)
    requires rs != [] && forall i :: 0 <= i < |rs| ==> LawKey(rs[i]) == id
    requires TextsReadable(Top10(rs))
    ensures var a := Analyze(rs, query);
      a.Analyzed? && a.report.distribution.keys == [id]
      && a.report.suggestedActions[0] == GetFullLaw(id, a.report.distribution.entries[id].title)
      && a.report.distribution.entries[id].count == |rs|
  {
    SingleLawDistribution(rs, id);
    var top := Top10(rs);
    var d := Distribute(rs);
    DistributionKeysHaveEntries(rs);
    var u := Undefined(top);
    var refs := DedupReferences(References(top));
    FullLawFirst(d, u, refs, query);
    assert ReportOf(rs, query).suggestedActions == Actions(d, u, refs, query);
  }

  /** With one law in the distribution, fetching it in full is the first action. */
  lemma FullLawFirst(d: Distribution, u: seq<UndefinedTerm>, refs: seq<Reference>, query: string)
    requires forall k :: k in d.keys ==> k in d.entries
    requires |d.keys| == 1
    ensures Actions(d, u, refs, query)[0] == GetFullLaw(d.keys[0], d.entries[d.keys[0]].title)
  {
  }

  lemma {:induction false} CountAllKey(rs: seq<ResultRec>, id: Option<string>)
    requires forall i :: 0 <= i < |rs| ==> LawKey(rs[i]) == id
    ensures CountKey(rs, id) == |rs|
  {
    if rs != [] {
      var p := rs[..|rs| - 1];
      assert forall i :: 0 <= i < |p| ==> p[i] == rs[i];
      CountAllKey(p, id);
    }
  }
}
