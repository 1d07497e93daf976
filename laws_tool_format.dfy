/**
 * `ResponseFormatter` of the law-search tool: the unified result envelope
 * built from the three reply shapes (keyword hits, law listings, one law
 * document) and the article extractor over the law document tree.
 */
module LawsToolFormat {
  import opened Common
  import opened LawsToolClient

  // ---------------------------------------------------------------------------
  // Markup stripping: `re.sub(r'<[^>]+>', '', s)`

  /** Index of the first `>` in `s`, or `|s|` when there is none. */
  function FirstGt(s: string): (k: nat)
    ensures k <= |s| && (k < |s| ==> s[k] == '>') && forall j :: 0 <= j < k ==> s[j] != '>'
  {
    if s == [] then 0 else if s[0] == '>' then 0 else 1 + FirstGt(s[1..])
  }

  /** A match of `<[^>]+>` starts at the head of `s`: `<`, at least one non-`>`, then a `>`. */
  predicate TagAtHead(s: string) {
    |s| >= 3 && s[0] == '<' && s[1] != '>' && FirstGt(s[1..]) < |s| - 1
  }

  /** Scanning left to right, every match is removed; other characters are kept. */
  function StripTags(s: string): string
    decreases |s|
  {
    if s == [] then ""
    else if TagAtHead(s) then StripTags(s[FirstGt(s[1..]) + 2..])
    else [s[0]] + StripTags(s[1..])
  }

  /** `s` contains no match of `<[^>]+>` anywhere. */
  predicate NoMarkup(s: string) {
    forall i :: 0 <= i < |s| ==> !TagAtHead(s[i..])
  }

  lemma {:induction false} StripTagsSubseq(s: string)
    ensures |StripTags(s)| <= |s|
    ensures forall c :: c in StripTags(s) ==> c in s
    decreases |s|
  {
    if s != [] {
      if TagAtHead(s) {
        StripTagsSubseq(s[FirstGt(s[1..]) + 2..]);
      } else {
        StripTagsSubseq(s[1..]);
      }
    }
  }

  /**
   * After stripping, no match is left: a kept `<` is either directly followed
   * by a kept `>` (the `<>` case) or has no `>` anywhere after it.
   */
  lemma {:induction false} StripTagsLeavesNoMarkup(s: string)
    ensures NoMarkup(StripTags(s))
    decreases |s|
  {
    if s != [] {
      if TagAtHead(s) {
        StripTagsLeavesNoMarkup(s[FirstGt(s[1..]) + 2..]);
      } else {
        var rest := StripTags(s[1..]);
        StripTagsLeavesNoMarkup(s[1..]);
        var r := [s[0]] + rest;
        forall i | 0 <= i < |r| ensures !TagAtHead(r[i..]) {
          if i > 0 {
            assert r[i..] == rest[i - 1..];
          } else if s[0] == '<' && |s| >= 2 && s[1] != '>' {
            // no `>` after the head of s, so none is kept after it either
            assert FirstGt(s[1..]) == |s| - 1;
            assert '>' !in s[1..] by {
              forall j | 0 <= j < |s[1..]| ensures s[1..][j] != '>' {}
            }
            StripTagsSubseq(s[1..]);
            NoGtMeansNoTag(r);
          } else if s[0] == '<' && |s| >= 2 {
            assert s[1..][0] == '>';
            KeptGt(s[1..]);
          }
        }
      }
    }
  }

  lemma NoGtMeansNoTag(r: string)
    requires |r| >= 1 && '>' !in r[1..]
    ensures !TagAtHead(r)
  {
  }

  /** A `>` at the head is always kept. */
  lemma KeptGt(s: string)
    requires s != [] && s[0] == '>'
    ensures StripTags(s) != [] && StripTags(s)[0] == '>'
  {
  }

  /** Stripping is idempotent. */
  lemma {:induction false} StripTagsIdempotent(s: string)
    requires NoMarkup(s)
    ensures StripTags(s) == s
    decreases |s|
  {
    if s != [] {
      assert s[0..] == s;
      assert NoMarkup(s[1..]) by {
        forall i | 0 <= i < |s[1..]| ensures !TagAtHead(s[1..][i..]) {
          assert s[1..][i..] == s[i + 1..];
        }
      }
      StripTagsIdempotent(s[1..]);
    }
  }

  lemma StripTwice(s: string)
    ensures StripTags(StripTags(s)) == StripTags(s)
  {
    StripTagsLeavesNoMarkup(s);
    StripTagsIdempotent(StripTags(s));
  }

  // ---------------------------------------------------------------------------
  // The envelope

  datatype SearchType = Keyword | Laws | LawData

  datatype Item =
    | KeywordItem(lawId: Option<string>, lawTitle: Option<string>, lawNum: Option<string>,
                  position: Option<int>, text: string, rawText: string)
    | LawItem(lawId: Option<string>, lawTitle: Option<string>, lawNum: Option<string>,
              lawType: Option<string>, promulgationDate: Option<string>,
              lastAmendmentDate: Option<string>, category: Option<string>)
    | LawDataItem(lawId: Option<string>, lawTitle: Option<string>, lawNum: Option<string>,
                  lawFullText: Node, hasAttachments: bool)

  datatype Hints = Hints(hasMore: bool, nextOffset: Option<int>, suggestions: seq<string>)

  const NoHints := Hints(false, None, [])

  datatype Envelope = Envelope(searchType: SearchType, totalCount: int, returnedCount: int,
                               hasError: bool, errorMessage: string, items: seq<Item>, hints: Hints)

  /** An absent `law_full_text` reads as `{}`: an element with no tag and no children. */
  const EmptyDocument := Element("", map[], [])

  /** One item per sentence of one hit, each carrying the hit's law fields. */
  function HitItems(h: RawHit): (r: seq<Item>)
    ensures |r| == |h.sentences|
  {
    seq(|h.sentences|, j requires 0 <= j < |h.sentences| =>
      var raw := h.sentences[j].text.GetOr("");
      KeywordItem(h.lawInfo.lawId, h.revisionInfo.lawTitle, h.lawInfo.lawNum,
                  h.sentences[j].position, StripTags(raw), raw))
  }

  /** The flattened keyword items of the first hits, in order. */
  function KeywordItems(hits: seq<RawHit>): seq<Item> {
    if hits == [] then [] else KeywordItems(hits[..|hits| - 1]) + HitItems(hits[|hits| - 1])
  }

  function SentenceCount(hits: seq<RawHit>): nat {
    if hits == [] then 0 else SentenceCount(hits[..|hits| - 1]) + |hits[|hits| - 1].sentences|
  }

  function LawItemOf(law: RawLaw): Item {
    LawItem(law.lawInfo.lawId, law.revisionInfo.lawTitle, law.lawInfo.lawNum, law.lawInfo.lawType,
            law.lawInfo.promulgationDate, law.revisionInfo.amendmentPromulgateDate, law.revisionInfo.category)
  }

  function LawItems(laws: seq<RawLaw>): (r: seq<Item>)
    ensures |r| == |laws| && forall i :: 0 <= i < |laws| ==> r[i] == LawItemOf(laws[i])
  {
    seq(|laws|, i requires 0 <= i < |laws| => LawItemOf(laws[i]))
  }

  /** The envelope `format_search_results` builds, as a value. */
  function Formatted(results: RawResponse, searchType: SearchType): Envelope {
    if results.error.Some? then
      Envelope(searchType, 0, 0, true, results.message.GetOr(results.error.value), [], NoHints)
    else
      match searchType
      case Keyword =>
        var total := results.totalCount.GetOr(0);
        var returned := results.sentenceCount.GetOr(0);
        Envelope(Keyword, total, returned, false, "", KeywordItems(results.items),
                 if total > returned then Hints(true, Some(results.nextOffset.GetOr(0)), []) else NoHints)
      case Laws =>
        Envelope(Laws, results.totalCount.GetOr(0), results.count.GetOr(0), false, "", LawItems(results.laws), NoHints)
      case LawData =>
        Envelope(LawData, 1, 1, false, "",
                 [LawDataItem(results.lawInfo.lawId, results.revisionInfo.lawTitle, results.lawInfo.lawNum,
                              results.lawFullText.GetOr(EmptyDocument),
                              results.attachedFilesInfo.Some? && results.attachedFilesInfo.value != [])], NoHints)
  }

  /** `format_search_results`: the loops that fill `formatted["items"]`. */
  method FormatSearchResults(results: RawResponse, searchType: SearchType) returns (f: Envelope)
    ensures f == Formatted(results, searchType)
    ensures f.searchType == searchType
    ensures results.error.Some? ==>
      f == Envelope(searchType, 0, 0, true, results.message.GetOr(results.error.value), [], NoHints)
    ensures results.error.None? ==> !f.hasError && f.errorMessage == "" && f.hints.suggestions == []
    ensures results.error.None? && searchType == Keyword ==>
      && f.totalCount == results.totalCount.GetOr(0)
      && f.returnedCount == results.sentenceCount.GetOr(0)
      && f.items == KeywordItems(results.items)
      && f.hints.hasMore == (f.totalCount > f.returnedCount)
      && f.hints.nextOffset == (if f.hints.hasMore then Some(results.nextOffset.GetOr(0)) else None)
    ensures results.error.None? && searchType == Laws ==>
      && f.totalCount == results.totalCount.GetOr(0)
      && f.returnedCount == results.count.GetOr(0)
      && f.items == LawItems(results.laws)
      && f.hints == NoHints
    ensures results.error.None? && searchType == LawData ==>
      && f.totalCount == 1 && f.returnedCount == 1 && f.hints == NoHints
      && f.items == [LawDataItem(results.lawInfo.lawId, results.revisionInfo.lawTitle, results.lawInfo.lawNum,
                                 results.lawFullText.GetOr(EmptyDocument),
                                 results.attachedFilesInfo.Some? && results.attachedFilesInfo.value != [])]
  {
    f := Envelope(searchType, 0, 0, false, "", [], NoHints);
    if results.error.Some? {
      f := f.(hasError := true, errorMessage := results.message.GetOr(results.error.value));
      return;
    }
    match searchType
    case Keyword =>
      f := f.(totalCount := results.totalCount.GetOr(0), returnedCount := results.sentenceCount.GetOr(0));
      var hits := results.items;
      var items: seq<Item> := [];
      var i := 0;
      while i < |hits|
        invariant 0 <= i <= |hits|
        invariant items == KeywordItems(hits[..i])
      {
        assert hits[..i + 1][..i] == hits[..i];
        var h := hits[i];
        var j := 0;
        var row: seq<Item> := [];
        while j < |h.sentences|
          invariant 0 <= j <= |h.sentences|
          invariant row == HitItems(h)[..j]
        {
          var raw := h.sentences[j].text.GetOr("");
          row := row + [KeywordItem(h.lawInfo.lawId, h.revisionInfo.lawTitle, h.lawInfo.lawNum,
                                    h.sentences[j].position, StripTags(raw), raw)];
          j := j + 1;
        }
        assert HitItems(h)[..j] == HitItems(h);
        items := items + row;
        i := i + 1;
      }
      assert hits[..|hits|] == hits;
      f := f.(items := items);
      if f.totalCount > f.returnedCount {
        f := f.(hints := Hints(true, Some(results.nextOffset.GetOr(0)), []));
      }
    case Laws =>
      f := f.(totalCount := results.totalCount.GetOr(0), returnedCount := results.count.GetOr(0));
      var items: seq<Item> := [];
      var i := 0;
      while i < |results.laws|
        invariant 0 <= i <= |results.laws|
        invariant items == LawItems(results.laws[..i])
      {
        items := items + [LawItemOf(results.laws[i])];
        i := i + 1;
      }
      assert results.laws[..|results.laws|] == results.laws;
      f := f.(items := items);
    case LawData =>
      f := f.(totalCount := 1, returnedCount := 1,
              items := [LawDataItem(results.lawInfo.lawId, results.revisionInfo.lawTitle, results.lawInfo.lawNum,
                                    results.lawFullText.GetOr(EmptyDocument),
                                    results.attachedFilesInfo.Some? && results.attachedFilesInfo.value != [])]);
  }

  /** One keyword item per sentence: the flattened list is as long as all sentence lists together. */
  lemma {:induction false} KeywordItemsCount(hits: seq<RawHit>)
    ensures |KeywordItems(hits)| == SentenceCount(hits)
  {
    if hits != [] {
      KeywordItemsCount(hits[..|hits| - 1]);
    }
  }

  /**
   * Item `j` of hit `i` sits at offset `SentenceCount(hits[..i]) + j`, carries
   * hit `i`'s law id, title and number, sentence `j`'s position and raw text,
   * and the raw text with markup stripped.
   */
  lemma {:induction false} KeywordItemAt(hits: seq<RawHit>, i: nat, j: nat)
    requires i < |hits| && j < |hits[i].sentences|
    ensures SentenceCount(hits[..i]) + j < |KeywordItems(hits)|
    ensures var it := KeywordItems(hits)[SentenceCount(hits[..i]) + j];
      var raw := hits[i].sentences[j].text.GetOr("");
      it == KeywordItem(hits[i].lawInfo.lawId, hits[i].revisionInfo.lawTitle, hits[i].lawInfo.lawNum,
                        hits[i].sentences[j].position, StripTags(raw), raw)
    decreases |hits|
  {
    var p := hits[..|hits| - 1];
    KeywordItemsCount(p);
    if i == |hits| - 1 {
      assert hits[..i] == p;
    } else {
      assert p[..i] == hits[..i];
      KeywordItemAt(p, i, j);
    }
  }

  /** No keyword item's text carries markup. */
  lemma {:induction false} KeywordItemsHaveNoMarkup(hits: seq<RawHit>)
    ensures forall k :: 0 <= k < |KeywordItems(hits)| ==>
      KeywordItems(hits)[k].KeywordItem? && NoMarkup(KeywordItems(hits)[k].text)
  {
    if hits != [] {
      KeywordItemsHaveNoMarkup(hits[..|hits| - 1]);
      var h := hits[|hits| - 1];
      forall j | 0 <= j < |h.sentences| ensures NoMarkup(HitItems(h)[j].text) {
        StripTagsLeavesNoMarkup(h.sentences[j].text.GetOr(""));
      }
    }
  }

  // ---------------------------------------------------------------------------
  // Article extraction

  datatype Article = Article(articleNum: string, articleText: string, charCount: nat)

  /** `_extract_text`: leaves concatenated in document order; anything else contributes nothing. */
  function ExtractText(n: Node): string
    decreases n
  {
    match n
    case Element(_, _, ch) => ExtractTextAll(ch)
    case Text(s) => s
    case Opaque => ""
  }

  function ExtractTextAll(ns: seq<Node>): string
    decreases ns
  {
    if ns == [] then "" else ExtractText(ns[0]) + ExtractTextAll(ns[1..])
  }

  function ArticleNum(n: Node): string
    requires n.Element?
  {
    if "Num" in n.attrs then n.attrs["Num"] else ""
  }

  /** The record an Article node contributes (before descending into its children). */
  function OwnArticle(n: Node): (r: seq<Article>)
    ensures |r| <= 1
  {
    if n.Element? && n.tag == "Article" && ArticleNum(n) != "" && ExtractText(n) != "" then
      [Article(ArticleNum(n), ExtractText(n), |ExtractText(n)|)]
    else []
  }

  /** Specification of `parse_element`: pre-order over element nodes, descending also below articles. */
  function Articles(n: Node): (r: seq<Article>)
    ensures forall a :: a in r ==> a.articleNum != "" && a.articleText != "" && a.charCount == |a.articleText|
    decreases n
  {
    match n
    case Element(_, _, ch) => OwnArticle(n) + ArticlesAll(ch)
    case _ => []
  }

  function ArticlesAll(ns: seq<Node>): (r: seq<Article>)
    ensures forall a :: a in r ==> a.articleNum != "" && a.articleText != "" && a.charCount == |a.articleText|
    decreases ns
  {
    if ns == [] then [] else Articles(ns[0]) + ArticlesAll(ns[1..])
  }

  lemma {:induction false} ArticlesAllAppend(a: seq<Node>, b: seq<Node>)
    ensures ArticlesAll(a + b) == ArticlesAll(a) + ArticlesAll(b)
  {
    if a == [] {
      assert a + b == b;
    } else {
      assert (a + b)[1..] == a[1..] + b;
      ArticlesAllAppend(a[1..], b);
    }
  }

  /** `parse_element` with its `articles.append`, as a recursive method with a loop over the children. */
  method ParseElement(n: Node, acc: seq<Article>) returns (out: seq<Article>)
    ensures out == acc + Articles(n)
    decreases n
  {
    out := acc;
    if !n.Element? {
      return;
    }
    out := out + OwnArticle(n);
    var ch := n.children;
    var i := 0;
    while i < |ch|
      invariant 0 <= i <= |ch|
      invariant out == acc + OwnArticle(n) + ArticlesAll(ch[..i])
    {
      ArticlesAllAppend(ch[..i], [ch[i]]);
      assert ch[..i + 1] == ch[..i] + [ch[i]];
      assert ArticlesAll([ch[i]]) == Articles(ch[i]) by {
        assert [ch[i]][1..] == [];
      }
      out := ParseElement(ch[i], out);
      i := i + 1;
    }
    assert ch[..|ch|] == ch;
  }

  /** `extract_articles_from_law_data`: walk `law_full_text` (an absent one reads as `{}`). */
  method ExtractArticlesFromLawData(lawData: RawResponse) returns (articles: seq<Article>)
    ensures articles == Articles(lawData.lawFullText.GetOr(EmptyDocument))
  {
    articles := ParseElement(lawData.lawFullText.GetOr(EmptyDocument), []);
  }

  predicate HasArticleTag(n: Node)
    decreases n
  {
    match n
    case Element(tag, _, ch) => tag == "Article" || exists i :: 0 <= i < |ch| && HasArticleTag(ch[i])
    case _ => false
  }

  /** A tree without any Article node yields no articles. */
  lemma {:induction false} NoArticleTagNoArticles(n: Node)
    requires !HasArticleTag(n)
    ensures Articles(n) == []
    decreases n
  {
    if n.Element? {
      NoArticleTagNoArticlesAll(n.children);
    }
  }

  lemma {:induction false} NoArticleTagNoArticlesAll(ns: seq<Node>)
    requires forall i :: 0 <= i < |ns| ==> !HasArticleTag(ns[i])
    ensures ArticlesAll(ns) == []
    decreases ns
  {
    if ns != [] {
      NoArticleTagNoArticles(ns[0]);
      NoArticleTagNoArticlesAll(ns[1..]);
    }
  }

  /** An Article node is emitted first, and its children's articles follow. */
  lemma ArticleThenChildren(tag: string, attrs: map<string, string>, ch: seq<Node>)
    requires tag == "Article" && "Num" in attrs && attrs["Num"] != "" && ExtractTextAll(ch) != ""
    ensures Articles(Element(tag, attrs, ch)) ==
      [Article(attrs["Num"], ExtractTextAll(ch), |ExtractTextAll(ch)|)] + ArticlesAll(ch)
  {
  }

  /** The text leaves of a tree, in document order. */
  function Leaves(n: Node): seq<string>
    decreases n
  {
    match n
    case Element(_, _, ch) => LeavesAll(ch)
    case Text(s) => [s]
    case Opaque => []
  }

  function LeavesAll(ns: seq<Node>): seq<string>
    decreases ns
  {
    if ns == [] then [] else Leaves(ns[0]) + LeavesAll(ns[1..])
  }

  function Concat(ss: seq<string>): string {
    if ss == [] then "" else ss[0] + Concat(ss[1..])
  }

  lemma {:induction false} ConcatAppend(a: seq<string>, b: seq<string>)
    ensures Concat(a + b) == Concat(a) + Concat(b)
  {
    if a == [] {
      assert a + b == b;
    } else {
      assert (a + b)[1..] == a[1..] + b;
      ConcatAppend(a[1..], b);
    }
  }

  /** The extracted text is the concatenation of the string leaves, at any depth, in document order. */
  lemma {:induction false} ExtractTextIsLeafConcat(n: Node)
    ensures ExtractText(n) == Concat(Leaves(n))
    decreases n
  {
    match n
    case Element(_, _, ch) => ExtractTextAllIsLeafConcat(ch);
    case Text(s) =>
    case Opaque =>
  }

  lemma {:induction false} ExtractTextAllIsLeafConcat(ns: seq<Node>)
    ensures ExtractTextAll(ns) == Concat(LeavesAll(ns))
    decreases ns
  {
    if ns != [] {
      ExtractTextIsLeafConcat(ns[0]);
      ExtractTextAllIsLeafConcat(ns[1..]);
      ConcatAppend(Leaves(ns[0]), LeavesAll(ns[1..]));
    }
  }
}
