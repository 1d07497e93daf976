/**
 * The three retrieval tools of the law-search MCP server: the parameters each
 * sends, and how it shapes the reply (`search_laws_by_keyword`,
 * `search_laws_by_title`, `get_law_content`). An exception escaping
 * `call_api` is caught and reported as a `{error, message}` object.
 */
module LawsTool {
  import opened Common
  import opened LawsToolClient
  import opened LawsToolFormat

  /** What a tool returns: its result, or the `{error, message}` of a caught exception. */
  datatype ToolResult<T> = Done(value: T) | ToolFailed(error: string, message: string)

  /** Python truthiness of an optional list / optional string. */
  predicate ListGiven<T>(o: Option<seq<T>>) { o.Some? && o.value != [] }
  predicate TextGiven(o: Option<string>) { o.Some? && o.value != "" }

  function Texts(xs: seq<string>): (r: seq<Scalar>)
    ensures |r| == |xs| && forall i :: 0 <= i < |xs| ==> r[i] == SText(xs[i])
  {
    seq(|xs|, i requires 0 <= i < |xs| => SText(xs[i]))
  }

  // ---------------------------------------------------------------------------
  // search_laws_by_keyword

  function KeywordParams(keywords: seq<string>, limit: int, offset: int, lawType: Option<seq<string>>,
                         dateFrom: Option<string>, dateTo: Option<string>): Params
  {
    [("keyword", PScalar(SText(Join(keywords, " ")))), ("limit", PScalar(SInt(limit))),
     ("offset", PScalar(SInt(offset))), ("sentence_text_size", PScalar(SInt(300)))]
    + (if ListGiven(lawType) then [("law_type", PList(Texts(lawType.value)))] else [])
    + (if TextGiven(dateFrom) then [("promulgation_date_from", PScalar(SText(dateFrom.value)))] else [])
    + (if TextGiven(dateTo) then [("promulgation_date_to", PScalar(SText(dateTo.value)))] else [])
  }

  /** The four fixed parameters always come first and no value is None. */
  lemma KeywordParamsShape(keywords: seq<string>, limit: int, offset: int, lawType: Option<seq<string>>,
                          dateFrom: Option<string>, dateTo: Option<string>)
    ensures var p := KeywordParams(keywords, limit, offset, lawType, dateFrom, dateTo);
      && |p| >= 4 && p[0] == ("keyword", PScalar(SText(Join(keywords, " "))))
      && p[1] == ("limit", PScalar(SInt(limit))) && p[2] == ("offset", PScalar(SInt(offset)))
      && p[3] == ("sentence_text_size", PScalar(SInt(300)))
      && forall i :: 0 <= i < |p| ==> p[i].1 != PNone
  {
    var p := KeywordParams(keywords, limit, offset, lawType, dateFrom, dateTo);
    if ListGiven(lawType) {
      if TextGiven(dateFrom) {
        if TextGiven(dateTo) {
          assert p == [("keyword", PScalar(SText(Join(keywords, " ")))), ("limit", PScalar(SInt(limit))), ("offset", PScalar(SInt(offset))), ("sentence_text_size", PScalar(SInt(300))), ("law_type", PList(Texts(lawType.value))), ("promulgation_date_from", PScalar(SText(dateFrom.value))), ("promulgation_date_to", PScalar(SText(dateTo.value)))];
        } else {
          assert p == [("keyword", PScalar(SText(Join(keywords, " ")))), ("limit", PScalar(SInt(limit))), ("offset", PScalar(SInt(offset))), ("sentence_text_size", PScalar(SInt(300))), ("law_type", PList(Texts(lawType.value))), ("promulgation_date_from", PScalar(SText(dateFrom.value)))];
        }
      } else {
        if TextGiven(dateTo) {
          assert p == [("keyword", PScalar(SText(Join(keywords, " ")))), ("limit", PScalar(SInt(limit))), ("offset", PScalar(SInt(offset))), ("sentence_text_size", PScalar(SInt(300))), ("law_type", PList(Texts(lawType.value))), ("promulgation_date_to", PScalar(SText(dateTo.value)))];
        } else {
          assert p == [("keyword", PScalar(SText(Join(keywords, " ")))), ("limit", PScalar(SInt(limit))), ("offset", PScalar(SInt(offset))), ("sentence_text_size", PScalar(SInt(300))), ("law_type", PList(Texts(lawType.value)))];
        }
      }
    } else {
      if TextGiven(dateFrom) {
        if TextGiven(dateTo) {
          assert p == [("keyword", PScalar(SText(Join(keywords, " ")))), ("limit", PScalar(SInt(limit))), ("offset", PScalar(SInt(offset))), ("sentence_text_size", PScalar(SInt(300))), ("promulgation_date_from", PScalar(SText(dateFrom.value))), ("promulgation_date_to", PScalar(SText(dateTo.value)))];
        } else {
          assert p == [("keyword", PScalar(SText(Join(keywords, " ")))), ("limit", PScalar(SInt(limit))), ("offset", PScalar(SInt(offset))), ("sentence_text_size", PScalar(SInt(300))), ("promulgation_date_from", PScalar(SText(dateFrom.value)))];
        }
      } else {
        if TextGiven(dateTo) {
          assert p == [("keyword", PScalar(SText(Join(keywords, " ")))), ("limit", PScalar(SInt(limit))), ("offset", PScalar(SInt(offset))), ("sentence_text_size", PScalar(SInt(300))), ("promulgation_date_to", PScalar(SText(dateTo.value)))];
        } else {
          assert p == [("keyword", PScalar(SText(Join(keywords, " ")))), ("limit", PScalar(SInt(limit))), ("offset", PScalar(SInt(offset))), ("sentence_text_size", PScalar(SInt(300)))];
        }
      }
    }
  }

  /** Each optional parameter is sent exactly when it is given. */
  lemma KeywordParamsOptional(keywords: seq<string>, limit: int, offset: int, lawType: Option<seq<string>>,
                          dateFrom: Option<string>, dateTo: Option<string>)
    ensures var p := KeywordParams(keywords, limit, offset, lawType, dateFrom, dateTo);
      && (("law_type", PList(Texts(lawType.GetOr([])))) in p <==> ListGiven(lawType))
      && (("promulgation_date_from", PScalar(SText(dateFrom.GetOr("")))) in p <==> TextGiven(dateFrom))
      && (("promulgation_date_to", PScalar(SText(dateTo.GetOr("")))) in p <==> TextGiven(dateTo))
  {
    var p := KeywordParams(keywords, limit, offset, lawType, dateFrom, dateTo);
    if ListGiven(lawType) {
      if TextGiven(dateFrom) {
        if TextGiven(dateTo) {
          assert p == [("keyword", PScalar(SText(Join(keywords, " ")))), ("limit", PScalar(SInt(limit))), ("offset", PScalar(SInt(offset))), ("sentence_text_size", PScalar(SInt(300))), ("law_type", PList(Texts(lawType.value))), ("promulgation_date_from", PScalar(SText(dateFrom.value))), ("promulgation_date_to", PScalar(SText(dateTo.value)))];
        } else {
          assert p == [("keyword", PScalar(SText(Join(keywords, " ")))), ("limit", PScalar(SInt(limit))), ("offset", PScalar(SInt(offset))), ("sentence_text_size", PScalar(SInt(300))), ("law_type", PList(Texts(lawType.value))), ("promulgation_date_from", PScalar(SText(dateFrom.value)))];
        }
      } else {
        if TextGiven(dateTo) {
          assert p == [("keyword", PScalar(SText(Join(keywords, " ")))), ("limit", PScalar(SInt(limit))), ("offset", PScalar(SInt(offset))), ("sentence_text_size", PScalar(SInt(300))), ("law_type", PList(Texts(lawType.value))), ("promulgation_date_to", PScalar(SText(dateTo.value)))];
        } else {
          assert p == [("keyword", PScalar(SText(Join(keywords, " ")))), ("limit", PScalar(SInt(limit))), ("offset", PScalar(SInt(offset))), ("sentence_text_size", PScalar(SInt(300))), ("law_type", PList(Texts(lawType.value)))];
        }
      }
    } else {
      if TextGiven(dateFrom) {
        if TextGiven(dateTo) {
          assert p == [("keyword", PScalar(SText(Join(keywords, " ")))), ("limit", PScalar(SInt(limit))), ("offset", PScalar(SInt(offset))), ("sentence_text_size", PScalar(SInt(300))), ("promulgation_date_from", PScalar(SText(dateFrom.value))), ("promulgation_date_to", PScalar(SText(dateTo.value)))];
        } else {
          assert p == [("keyword", PScalar(SText(Join(keywords, " ")))), ("limit", PScalar(SInt(limit))), ("offset", PScalar(SInt(offset))), ("sentence_text_size", PScalar(SInt(300))), ("promulgation_date_from", PScalar(SText(dateFrom.value)))];
        }
      } else {
        if TextGiven(dateTo) {
          assert p == [("keyword", PScalar(SText(Join(keywords, " ")))), ("limit", PScalar(SInt(limit))), ("offset", PScalar(SInt(offset))), ("sentence_text_size", PScalar(SInt(300))), ("promulgation_date_to", PScalar(SText(dateTo.value)))];
        } else {
          assert p == [("keyword", PScalar(SText(Join(keywords, " ")))), ("limit", PScalar(SInt(limit))), ("offset", PScalar(SInt(offset))), ("sentence_text_size", PScalar(SInt(300)))];
        }
      }
    }
  }

  const ZeroHitSuggestions: seq<string> := ["キーワードを減らして検索", "類義語や関連語で検索", "法令名で直接検索"]

  /** The keyword envelope: the formatted reply, with fixed suggestions when nothing was found. */
  function KeywordEnvelope(raw: RawResponse): (f: Envelope)
    ensures f.hints.suggestions == (if f.totalCount == 0 then ZeroHitSuggestions else [])
  {
    var f := Formatted(raw, Keyword);
    if f.totalCount == 0 then f.(hints := f.hints.(suggestions := ZeroHitSuggestions)) else f
  }

  method SearchLawsByKeyword(keywords: seq<string>, limit: int, offset: int, lawType: Option<seq<string>>,
                             dateFrom: Option<string>, dateTo: Option<string>, answer: HttpOutcome)
    returns (url: string, out: ToolResult<Envelope>)
    ensures url == BuildUrl("keyword", Cleaned(KeywordParams(keywords, limit, offset, lawType, dateFrom, dateTo)), None)
    ensures MakeRequest(answer).Raised? ==> out == ToolFailed("search_failed", MakeRequest(answer).reason)
    ensures MakeRequest(answer).Fetched? ==> out == Done(KeywordEnvelope(MakeRequest(answer).raw))
  {
    var params := KeywordParams(keywords, limit, offset, lawType, dateFrom, dateTo);
    var results;
    url, results := CallApi("keyword", params, None, answer);
    if results.Raised? {
      return url, ToolFailed("search_failed", results.reason);
    }
    var formatted := FormatSearchResults(results.raw, Keyword);
    if formatted.totalCount == 0 {
      formatted := formatted.(hints := formatted.hints.(suggestions := ZeroHitSuggestions));
    }
    out := Done(formatted);
  }

  /** Every keyword parameter is sent: none of them is `None`, so cleaning keeps them all, in order. */
  lemma {:induction false} KeywordParamsAllSent(keywords: seq<string>, limit: int, offset: int,
                                                lawType: Option<seq<string>>, dateFrom: Option<string>, dateTo: Option<string>)
    ensures var p := KeywordParams(keywords, limit, offset, lawType, dateFrom, dateTo);
      |Cleaned(p)| == |p| && forall i :: 0 <= i < |p| ==> Cleaned(p)[i] == (p[i].0, CleanValue(p[i].1))
  {
    CleanedOfNoNone(KeywordParams(keywords, limit, offset, lawType, dateFrom, dateTo));
  }

  lemma {:induction false} CleanedOfNoNone(p: Params)
    requires forall i :: 0 <= i < |p| ==> p[i].1 != PNone
    ensures |Cleaned(p)| == |p| && forall i :: 0 <= i < |p| ==> Cleaned(p)[i] == (p[i].0, CleanValue(p[i].1))
  {
    if p != [] {
      var q := p[..|p| - 1];
      assert forall i :: 0 <= i < |q| ==> q[i] == p[i];
      CleanedOfNoNone(q);
    }
  }

  /**
   * The 404001 "no results" reply reaches the agent as an error envelope
   * (`has_error`, message "no_results", nothing returned) that nevertheless
   * carries the three zero-hit suggestions.
   */
  lemma NoResultsGetsSuggestions(msg: Option<string>)
    ensures var o := MakeRequest(HttpError(404, Some(ErrorBody(Some("404001"), msg))));
      o.Fetched? && KeywordEnvelope(o.raw) ==
        Envelope(Keyword, 0, 0, true, "no_results", [], Hints(false, None, ZeroHitSuggestions))
  {
  }

  /** A keyword reply with hits gets no suggestions; one with a zero total always gets all three. */
  lemma KeywordSuggestionsIffNoHits(raw: RawResponse)
    requires raw.error.None?
    ensures KeywordEnvelope(raw).hints.suggestions != [] <==> raw.totalCount.GetOr(0) == 0
  {
  }

  // ---------------------------------------------------------------------------
  // search_laws_by_title

  function TitleParams(titleKeywords: seq<string>, limit: int, lawType: Option<seq<string>>, includeRepealed: bool): (p: Params)
    ensures UniqueKeys(p)
    ensures |p| >= 2 && p[0] == ("law_title", PScalar(SText(Join(titleKeywords, " ")))) && p[1] == ("limit", PScalar(SInt(limit)))
    ensures ("law_type", PList(Texts(lawType.GetOr([])))) in p <==> ListGiven(lawType)
    ensures ("repeal_status", PList([SText("None")])) in p <==> !includeRepealed
  {
    [("law_title", PScalar(SText(Join(titleKeywords, " ")))), ("limit", PScalar(SInt(limit)))]
    + (if ListGiven(lawType) then [("law_type", PList(Texts(lawType.value)))] else [])
    + (if !includeRepealed then [("repeal_status", PList([SText("None")]))] else [])
  }

  method SearchLawsByTitle(titleKeywords: seq<string>, limit: int, lawType: Option<seq<string>>,
                           includeRepealed: bool, answer: HttpOutcome)
    returns (url: string, out: ToolResult<Envelope>)
    ensures url == BuildUrl("laws", Cleaned(TitleParams(titleKeywords, limit, lawType, includeRepealed)), None)
    ensures MakeRequest(answer).Raised? ==> out == ToolFailed("search_failed", MakeRequest(answer).reason)
    ensures MakeRequest(answer).Fetched? ==> out == Done(Formatted(MakeRequest(answer).raw, Laws))
  {
    var params := TitleParams(titleKeywords, limit, lawType, includeRepealed);
    var results;
    url, results := CallApi("laws", params, None, answer);
    if results.Raised? {
      return url, ToolFailed("search_failed", results.reason);
    }
    var formatted := FormatSearchResults(results.raw, Laws);
    out := Done(formatted);
  }

  /** Unless repealed laws are asked for, the query carries `repeal_status=None`; when they are, no repeal filter is sent. */
  lemma RepealFilterSent(titleKeywords: seq<string>, limit: int, lawType: Option<seq<string>>, includeRepealed: bool)
    ensures var c := Cleaned(TitleParams(titleKeywords, limit, lawType, includeRepealed));
      (("repeal_status", "None") in c <==> !includeRepealed)
      && (includeRepealed ==> forall e :: e in c ==> e.0 != "repeal_status")
  {
    var p := TitleParams(titleKeywords, limit, lawType, includeRepealed);
    CleanedSpec(p);
    if !includeRepealed {
      var i :| 0 <= i < |p| && p[i] == ("repeal_status", PList([SText("None")]));
      assert Join(StrAll([SText("None")]), ",") == "None";
      assert (p[i].0, CleanValue(p[i].1)) == ("repeal_status", "None");
    }
  }

  // ---------------------------------------------------------------------------
  // get_law_content

  function ContentParams(targetDate: Option<string>): (p: Params)
    ensures |p| == (if TextGiven(targetDate) then 2 else 1)
    ensures p[0] == ("law_full_text_format", PScalar(SText("json")))
    ensures TextGiven(targetDate) ==> p[1] == ("asof", PScalar(SText(targetDate.value)))
  {
    [("law_full_text_format", PScalar(SText("json")))]
    + (if TextGiven(targetDate) then [("asof", PScalar(SText(targetDate.value)))] else [])
  }

  /** The structured articles, or the raw document tree when extraction is switched off. */
  datatype ContentBody = ArticleList(articles: seq<Article>, articleCount: nat) | FullText(lawFullText: Node)

  datatype LawContent = LawContent(lawId: Option<string>, lawTitle: Option<string>, lawNum: Option<string>,
                                   promulgationDate: Option<string>, lastAmendment: Option<string>, body: ContentBody)

  /** `get_law_content`'s answer: the content, or a reply carrying `error`, passed through unchanged. */
  datatype ContentReply = Content(content: LawContent) | PassThrough(raw: RawResponse)

  function ContentOf(raw: RawResponse, extractArticles: bool): LawContent {
    var doc := raw.lawFullText.GetOr(EmptyDocument);
    LawContent(raw.lawInfo.lawId, raw.revisionInfo.lawTitle, raw.lawInfo.lawNum, raw.lawInfo.promulgationDate,
               raw.revisionInfo.amendmentPromulgateDate,
               if extractArticles then ArticleList(Articles(doc), |Articles(doc)|) else FullText(doc))
  }

  method GetLawContent(lawId: string, extractArticles: bool, targetDate: Option<string>, answer: HttpOutcome)
    returns (url: string, out: ToolResult<ContentReply>)
    ensures url == BuildUrl("law_data", Cleaned(ContentParams(targetDate)), Some(lawId))
    ensures MakeRequest(answer).Raised? ==> out == ToolFailed("get_law_failed", MakeRequest(answer).reason)
    ensures MakeRequest(answer).Fetched? && MakeRequest(answer).raw.error.Some? ==> out == Done(PassThrough(MakeRequest(answer).raw))
    ensures MakeRequest(answer).Fetched? && MakeRequest(answer).raw.error.None? ==>
      out == Done(Content(ContentOf(MakeRequest(answer).raw, extractArticles)))
  {
    var results;
    url, results := CallApi("law_data", ContentParams(targetDate), Some(lawId), answer);
    if results.Raised? {
      return url, ToolFailed("get_law_failed", results.reason);
    }
    var raw := results.raw;
    if raw.error.Some? {
      return url, Done(PassThrough(raw));
    }
    var body;
    if extractArticles {
      var articles := ExtractArticlesFromLawData(raw);
      body := ArticleList(articles, |articles|);
    } else {
      body := FullText(raw.lawFullText.GetOr(EmptyDocument));
    }
    out := Done(Content(LawContent(raw.lawInfo.lawId, raw.revisionInfo.lawTitle, raw.lawInfo.lawNum,
                                   raw.lawInfo.promulgationDate, raw.revisionInfo.amendmentPromulgateDate, body)));
  }

  /** The law-data URL always carries a query (the text format is always sent), and `asof` exactly when a date is given. */
  lemma ContentQuery(targetDate: Option<string>)
    ensures var c := Cleaned(ContentParams(targetDate));
      c != [] && c[0] == ("law_full_text_format", "json")
      && (("asof", targetDate.GetOr("")) in c <==> TextGiven(targetDate))
  {
    var p := ContentParams(targetDate);
    CleanedOfNoNone(p);
    var c := Cleaned(p);
    if ("asof", targetDate.GetOr("")) in c {
      var i :| 0 <= i < |c| && c[i] == ("asof", targetDate.GetOr(""));
      assert i == 1;
    }
  }

  /** With article extraction on, the count reported is the number of articles, all of them non-empty. */
  lemma ArticleCountMatches(raw: RawResponse)
    ensures var b := ContentOf(raw, true).body;
      b.ArticleList? && b.articleCount == |b.articles|
      && forall a :: a in b.articles ==> a.articleNum != "" && a.articleText != "" && a.charCount == |a.articleText|
  {
  }
}
