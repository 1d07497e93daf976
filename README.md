# Digital Hack: e-Gov law search tool and LifePlan Navigator, modelled in Dafny

This project models the core of two programs that share one repository.

- **The e-Gov law search tool.** This is a Python MCP server that queries the e-Gov Laws API v2. It cleans and
  percent-encodes query parameters, maps HTTP failures to error replies, normalises the three reply shapes
  (keyword hits, law lists, full law data) into one envelope, extracts articles from a law's JSON tree, and
  analyses a list of search results: it builds a per-law distribution, finds query-word matches, age terms left
  undefined, and references to other laws, and it suggests follow-up actions.
- **LifePlan Navigator.** This is a Next.js application that recommends laws and benefits for a user's life
  plan. The model covers its legal-term dictionary, law recommendations and search-result parsing, the e-Gov
  API client's URL building and reply mapping, the input validators, CSRF tokens, the middleware's routing
  decision, the laws API route (keyword sanitising, the rate limiter, enumeration checks and parameter
  clamping), and the sign-in and registration routes (their attempt limiters, password hashing input,
  constant-time comparison, field rules and the order in which they apply them), and the user service
  (the stored password-hash format and its check, the lockout after five wrong passwords, account creation
  and the updates by id), and the MFA helpers (TOTP secrets, Base32 decoding, the counter bytes and dynamic
  truncation, the verification window, and backup codes with their normalisation and lookup), and the Redis
  session store (absolute and idle timeouts, each user's set of sessions, and the limit of three concurrent
  sessions, over a model of Redis keys that expire). It also covers the client-side application store (profile,
  security and notification merges, the demo password hash `simpleHash`, sign-in and its history of ten, and the
  action and notification lists), the order of the next-action list, the children editor of the onboarding form,
  the law dashboard's recent searches and hidden actions, the law quiz's scoring and evaluation, the
  animal chosen for goals and life stages, and the choice of disclaimer language. On the server side it covers
  the audit-log service (masking personal data, the changed-field list, header filtering, severities, the
  buffer of records waiting to be written and what reaches the database), the audit middleware (the actor and
  request taken from a request, the response summary, and when a call is logged), the audit repository (the
  insert of 47 columns with aligned placeholders, batch inserts, the filter builder of the query and the severity
  range), and the database pool (its settings, mock mode and multi-row inserts). The benefit search route is
  covered too: its filters, its three sort orders and the clamped pagination. So is the onboarding profile route,
  with its field checks, the defaults of a new profile and the fields a partial update may change, and the user
  profile route, whose PUT checks and writes ten fields one after another straight into the stored profile. The notification
  settings route (its defaults and the checks and merge of a PUT) and the settings route (the masked API key and
  its round trip, the PUT merge, PATCH by section and the save stamp) are covered as well. Of the React
  components, the model covers the ten-step onboarding wizard (the life stage, the age from the birth-date
  selects, the rule that enables each step, the household size, the plan and goal check boxes and the
  agreements), the four-step onboarding form (the step merges and checks, the household choice and the event
  cards), the profile form of the settings page (the children answers, the check boxes, the order of the save
  checks and the rendered birth date), and the settings panel (the profile save with its prefecture sync, the
  password change, the security score and its switches, and the notification switches).

Each source file is one Dafny module. `common.dfy` holds the shared helpers: `Option`, substring search, list selection toggles,
ASCII case mapping, JavaScript `trim`, first-occurrence de-duplication, `join`, and decimal and hex rendering.
Network replies, clocks and random bytes are parameters.

## Model

| member | source | states |
|---|---|---|
| LawsToolClient.CleanedSpec | need/laws-api-ai-mcp-tool/laws-api-ai-mcp-tool.py:96-102 | every parameter whose value is not None appears cleaned (lists comma-joined, scalars stringified); every cleaned entry comes from such a parameter; a None key is dropped |
| LawsToolClient.CleanParams | need/laws-api-ai-mcp-tool/laws-api-ai-mcp-tool.py:94-102 | the loop builds exactly the cleaned parameter list |
| LawsToolClient.CleanedEmpty | need/laws-api-ai-mcp-tool/laws-api-ai-mcp-tool.py:96-102 | the cleaned list is empty iff every value is None |
| LawsToolClient.Quote | need/laws-api-ai-mcp-tool/laws-api-ai-mcp-tool.py:107-110 | percent-encoding yields only unreserved characters, '%' and, in query mode, '+' |
| LawsToolClient.QuoteIsInert | need/laws-api-ai-mcp-tool/laws-api-ai-mcp-tool.py:107-110 | an encoded value contains no '/', '?', '&', '=' or '#' |
| LawsToolClient.UrlEncodeEmpty | need/laws-api-ai-mcp-tool/laws-api-ai-mcp-tool.py:110-113 | the encoded query is empty iff there are no cleaned parameters |
| LawsToolClient.PathParamIsOneSegment | need/laws-api-ai-mcp-tool/laws-api-ai-mcp-tool.py:107-113 | a path parameter is quoted with no safe characters and becomes exactly one path segment after the endpoint |
| LawsToolClient.UrlQuestionMarkIffQuery | need/laws-api-ai-mcp-tool/laws-api-ai-mcp-tool.py:112-113 | the URL contains '?' iff the encoded query is non-empty |
| LawsToolClient.QuestionMarkIffParams | need/laws-api-ai-mcp-tool/laws-api-ai-mcp-tool.py:96-113 | the URL contains '?' iff some parameter is not None |
| LawsToolClient.MakeRequest | need/laws-api-ai-mcp-tool/laws-api-ai-mcp-tool.py:68-90 | a 2xx JSON body is returned unchanged and one that does not parse becomes request_failed; a 404 with code 404001 becomes the no_results reply with total_count 0, any other 404 with a JSON body becomes http_error_404 with the body's message (empty when it has none), and a 404 body that does not parse raises; every other HTTP error raises; a transport failure becomes request_failed; every non-2xx reply that is returned carries an error |
| LawsToolClient.CallApi | need/laws-api-ai-mcp-tool/laws-api-ai-mcp-tool.py:93-115 | the request URL is built from the cleaned parameters and the reply is the mapped HTTP outcome |
| LawsToolFormat.StripTagsLeavesNoMarkup | need/laws-api-ai-mcp-tool/laws-api-ai-mcp-tool.py:155 | removing every '<…>' run leaves no tag in the text |
| LawsToolFormat.StripTagsSubseq | need/laws-api-ai-mcp-tool/laws-api-ai-mcp-tool.py:155 | tag removal never lengthens the text and adds no character |
| LawsToolFormat.StripTagsIdempotent | need/laws-api-ai-mcp-tool/laws-api-ai-mcp-tool.py:155 | text without markup is unchanged by tag removal |
| LawsToolFormat.StripTwice | need/laws-api-ai-mcp-tool/laws-api-ai-mcp-tool.py:155 | removing tags twice is the same as once |
| LawsToolFormat.FormatSearchResults | need/laws-api-ai-mcp-tool/laws-api-ai-mcp-tool.py:121-197 | an error reply gives has_error, zero counts, no items and the message or else the error; keyword results copy total_count and sentence_count and set has_more/next_offset only when total > returned; law lists copy total_count/count; law data gives one item with counts 1/1 and has_attachments from the attachment list |
| LawsToolFormat.KeywordItemsCount | need/laws-api-ai-mcp-tool/laws-api-ai-mcp-tool.py:139-158 | keyword normalisation emits exactly one item per sentence |
| LawsToolFormat.KeywordItemAt | need/laws-api-ai-mcp-tool/laws-api-ai-mcp-tool.py:142-158 | the item for sentence j of hit i sits at its running index and copies the parent law's id, title and number, the position, the raw text and its tag-stripped text |
| LawsToolFormat.KeywordItemsHaveNoMarkup | need/laws-api-ai-mcp-tool/laws-api-ai-mcp-tool.py:155 | no keyword item text contains a tag |
| LawsToolFormat.LawItems | need/laws-api-ai-mcp-tool/laws-api-ai-mcp-tool.py:167-181 | one law item per law, in order |
| LawsToolFormat.Articles | need/laws-api-ai-mcp-tool/laws-api-ai-mcp-tool.py:204-222 | every extracted article has a non-empty Num and text and a character count equal to the text length |
| LawsToolFormat.ArticleThenChildren | need/laws-api-ai-mcp-tool/laws-api-ai-mcp-tool.py:208-226 | an Article node emits its own entry first and then still descends into its children |
| LawsToolFormat.NoArticleTagNoArticles | need/laws-api-ai-mcp-tool/laws-api-ai-mcp-tool.py:204-226 | a tree with no Article node yields no articles |
| LawsToolFormat.ArticlesAllAppend | need/laws-api-ai-mcp-tool/laws-api-ai-mcp-tool.py:223-226 | children are visited in order, so articles of concatenated child lists concatenate |
| LawsToolFormat.ParseElement | need/laws-api-ai-mcp-tool/laws-api-ai-mcp-tool.py:204-226 | the recursive visitor appends exactly the pre-order articles of the node to the accumulator |
| LawsToolFormat.ExtractArticlesFromLawData | need/laws-api-ai-mcp-tool/laws-api-ai-mcp-tool.py:200-230 | the extracted list is the pre-order article list of law_full_text |
| LawsToolFormat.ExtractTextIsLeafConcat | need/laws-api-ai-mcp-tool/laws-api-ai-mcp-tool.py:233-244 | the text of a node is the in-order concatenation of its string leaves, ignoring non-list children and non-dict values |
| LawsTool.KeywordParamsShape | need/laws-api-ai-mcp-tool/laws-api-ai-mcp-tool.py:278-283 | keyword (the keywords joined by spaces), limit, offset and sentence_text_size 300 always come first, and no value is None |
| LawsTool.KeywordParamsOptional | need/laws-api-ai-mcp-tool/laws-api-ai-mcp-tool.py:285-290 | law_type and the two promulgation-date bounds are sent iff given |
| LawsTool.KeywordParamsAllSent | need/laws-api-ai-mcp-tool/laws-api-ai-mcp-tool.py:278-292 | every keyword-search parameter survives cleaning |
| LawsTool.KeywordEnvelope | need/laws-api-ai-mcp-tool/laws-api-ai-mcp-tool.py:294-302 | the suggestions are the three fixed hints exactly when total_count is 0 |
| LawsTool.SearchLawsByKeyword | need/laws-api-ai-mcp-tool/laws-api-ai-mcp-tool.py:247-309 | the URL is built from the keyword parameters; a raised request gives search_failed; otherwise the formatted keyword envelope |
| LawsTool.NoResultsGetsSuggestions | need/laws-api-ai-mcp-tool/laws-api-ai-mcp-tool.py:85-86 | the 404001 reply gives has_error, message no_results, zero counts and the three suggestions |
| LawsTool.KeywordSuggestionsIffNoHits | need/laws-api-ai-mcp-tool/laws-api-ai-mcp-tool.py:296-302 | for a reply without error, suggestions are present iff total_count is 0 |
| LawsTool.TitleParams | need/laws-api-ai-mcp-tool/laws-api-ai-mcp-tool.py:330-339 | law_title and limit are always sent; law_type iff given; repeal_status "None" iff repealed laws are excluded |
| LawsTool.RepealFilterSent | need/laws-api-ai-mcp-tool/laws-api-ai-mcp-tool.py:339-341 | the cleaned query carries repeal_status=None iff repealed laws are excluded, and no repeal_status otherwise |
| LawsTool.SearchLawsByTitle | need/laws-api-ai-mcp-tool/laws-api-ai-mcp-tool.py:312-351 | the URL is built from the title parameters; a raised request gives search_failed; otherwise the formatted law list |
| LawsTool.ContentParams | need/laws-api-ai-mcp-tool/laws-api-ai-mcp-tool.py:370-375 | law_full_text_format=json is always sent and asof only when a target date is given |
| LawsTool.ContentQuery | need/laws-api-ai-mcp-tool/laws-api-ai-mcp-tool.py:370-377 | the cleaned content query starts with the format and carries asof iff a date is given |
| LawsTool.GetLawContent | need/laws-api-ai-mcp-tool/laws-api-ai-mcp-tool.py:354-410 | the law id is the path segment; a raised request gives get_law_failed; an error reply passes through unchanged; otherwise the law fields and either the article list or the full text |
| LawsTool.ArticleCountMatches | need/laws-api-ai-mcp-tool/laws-api-ai-mcp-tool.py:395-398 | with article extraction, article_count is the length of the article list |
| LawsToolAnalysis.QueryRuns | need/laws-api-ai-mcp-tool/laws-api-ai-mcp-tool.py:468 | each query word is a non-empty maximal run of kanji, hiragana, katakana or 'ー' taken from the lower-cased query |
| LawsToolAnalysis.LawNamesShape | need/laws-api-ai-mcp-tool/laws-api-ai-mcp-tool.py:495-497 | every law name found is a run of at least two kanji ending in 法 that occurs in the text |
| LawsToolAnalysis.DistributionSpec | need/laws-api-ai-mcp-tool/laws-api-ai-mcp-tool.py:452-465 | the distribution has one entry per distinct law id (missing ids under "unknown"), its count is the number of results with that id and its positions are theirs in order |
| LawsToolAnalysis.DistributionCountsAll | need/laws-api-ai-mcp-tool/laws-api-ai-mcp-tool.py:452-465 | the counts add up to the number of results |
| LawsToolAnalysis.CountKeyPositive | need/laws-api-ai-mcp-tool/laws-api-ai-mcp-tool.py:456-465 | every id that occurs is counted at least once |
| LawsToolAnalysis.TallyLaws | need/laws-api-ai-mcp-tool/laws-api-ai-mcp-tool.py:452-465 | the tally loop builds exactly the distribution |
| LawsToolAnalysis.MatchingWords | need/laws-api-ai-mcp-tool/laws-api-ai-mcp-tool.py:478 | the matching words are the query words contained in the text |
| LawsToolAnalysis.IndicatorRatios | need/laws-api-ai-mcp-tool/laws-api-ai-mcp-tool.py:477-485 | a relevance indicator has a non-empty subset of the query words and match_ratio = matching/query words, in (0,1] |
| LawsToolAnalysis.ScanStep | need/laws-api-ai-mcp-tool/laws-api-ai-mcp-tool.py:474-504 | one loop step over a result extends the indicators, undefined terms and references by that result's findings |
| LawsToolAnalysis.ScanResults | need/laws-api-ai-mcp-tool/laws-api-ai-mcp-tool.py:474-504 | the loop over the first 10 results yields exactly the indicator, undefined-term and reference lists |
| LawsToolAnalysis.DedupReferences | need/laws-api-ai-mcp-tool/laws-api-ai-mcp-tool.py:507 | the de-duplicated references keep one entry per target law, in first-seen order |
| LawsToolAnalysis.LastToIsLast | need/laws-api-ai-mcp-tool/laws-api-ai-mcp-tool.py:507 | the kept entry for a target is the last reference seen for it |
| LawsToolAnalysis.DedupReferencesDistinct | need/laws-api-ai-mcp-tool/laws-api-ai-mcp-tool.py:507 | no two de-duplicated references share a target |
| LawsToolAnalysis.ReferenceActions | need/laws-api-ai-mcp-tool/laws-api-ai-mcp-tool.py:537-544 | at most 3 referenced-law actions are suggested |
| LawsToolAnalysis.ActionsByKind | need/laws-api-ai-mcp-tool/laws-api-ai-mcp-tool.py:510-551 | get_full_law is suggested exactly when there is one distinct law id (and first), narrow_search exactly when there are more than 5; one search_definition per undefined term; min(3, references) referenced-law searches; the age search iff the query contains 歳, 年齢 or 何歳 |
| LawsToolAnalysis.AnalyzeSearchResults | need/laws-api-ai-mcp-tool/laws-api-ai-mcp-tool.py:426-559 | the analysis is the report over all results and the first ten, or analysis_failed when a top-ten text is null |
| LawsToolAnalysis.AnalyzeEmpty | need/laws-api-ai-mcp-tool/laws-api-ai-mcp-tool.py:426-559 | no results give an empty distribution and no findings; the only action is the age search, and only when the query asks about age |
| LawsToolAnalysis.SingleLawSuggestsFullLaw | need/laws-api-ai-mcp-tool/laws-api-ai-mcp-tool.py:510-518 | results that all share one law id suggest get_full_law for that id first |
| TermsDictionary.Lookup | app/lifeplan-navigator/src/lib/laws-term-dictionary.ts:135-137 | a key is found iff it is in the table, and the result is that key's list |
| TermsDictionary.TermDictionaryWellFormed | app/lifeplan-navigator/src/lib/laws-term-dictionary.ts:8-82 | the dictionary has non-empty keys and non-empty lists |
| TermsDictionary.TranslateToLegalTerms | app/lifeplan-navigator/src/lib/laws-term-dictionary.ts:133-149 | the loop computes exactly the specified translation |
| TermsDictionary.TranslateExactKey | app/lifeplan-navigator/src/lib/laws-term-dictionary.ts:135-137 | an exact key returns that key's own list |
| TermsDictionary.PartialMatchesSpec | app/lifeplan-navigator/src/lib/laws-term-dictionary.ts:140-146 | the partial matches are the lists of every key that contains the term or is contained in it, in table order |
| TermsDictionary.TranslatePartial | app/lifeplan-navigator/src/lib/laws-term-dictionary.ts:140-148 | without an exact key the result has no duplicates; it is [term] when no key is related, otherwise exactly the terms of related keys' lists |
| TermsDictionary.TranslateEmpty | app/lifeplan-navigator/src/lib/laws-term-dictionary.ts:140-148 | the empty term matches every key and yields the union of all lists |
| TermsDictionary.GetKeywordsForUserAttributes | app/lifeplan-navigator/src/lib/laws-term-dictionary.ts:154-201 | the keywords are the de-duplicated concatenation of the attribute lists, the event lists and the age-band keywords |
| TermsDictionary.PushEventKeywords | app/lifeplan-navigator/src/lib/laws-term-dictionary.ts:178-185 | the event loop appends each known event's list in order |
| TermsDictionary.NoAttributesNoKeywords | app/lifeplan-navigator/src/lib/laws-term-dictionary.ts:154-201 | with no attributes the result is empty |
| TermsDictionary.UnknownAttributeIsIgnored | app/lifeplan-navigator/src/lib/laws-term-dictionary.ts:160-176 | an unknown attribute value contributes nothing |
| TermsDictionary.KeywordsSpec | app/lifeplan-navigator/src/lib/laws-term-dictionary.ts:154-201 | the result has no duplicates and contains exactly the raw keywords |
| TermsDictionary.AgeBands | app/lifeplan-navigator/src/lib/laws-term-dictionary.ts:187-198 | ages 60–64 add the pre-retirement keywords, 65 and over add the elderly keywords, 75 and over add the late-elderly keywords on top |
| TermsDictionary.GetAgeCategory | app/lifeplan-navigator/src/lib/laws-term-dictionary.ts:206-216 | the loop returns exactly the table entries whose band contains the age |
| TermsDictionary.BandsOfSpec | app/lifeplan-navigator/src/lib/laws-term-dictionary.ts:206-216 | an entry is returned iff minAge ≤ age ≤ maxAge, in table order |
| TermsDictionary.NegativeAge | app/lifeplan-navigator/src/lib/laws-term-dictionary.ts:206-216 | a negative age yields no category |
| LawsApi.Add | app/lifeplan-navigator/src/lib/laws-api.ts:46-49 | adding a word to the expanded-keyword set appends it when new and leaves the set's listing unchanged otherwise |
| LawsApi.AddAll | app/lifeplan-navigator/src/lib/laws-api.ts:48-49 | adding a keyword's legal terms one by one lists the first occurrences of everything added so far |
| LawsApi.ExpandKeywords | app/lifeplan-navigator/src/lib/laws-api.ts:43-52 | the keyword loop yields the de-duplicated sequence of each keyword followed by its legal terms, in first-insertion order |
| LawsApi.ExpansionMembers | app/lifeplan-navigator/src/lib/laws-api.ts:43-52 | a word is added iff it is one of the keywords or a legal term of one |
| LawsApi.ExpandedKeywordsSpec | app/lifeplan-navigator/src/lib/laws-api.ts:43-52 | the expanded keywords have no duplicates, contain every keyword and every legal term of each, and nothing else |
| LawsApi.LawIdFromTitle | app/lifeplan-navigator/src/lib/laws-api.ts:245-248 | a title missing from the info map gets the empty id |
| LawsApi.LawNumFromTitle | app/lifeplan-navigator/src/lib/laws-api.ts:253-256 | a title missing from the info map gets the empty law number |
| LawsApi.InfoLookup | app/lifeplan-navigator/src/lib/laws-api.ts:245-256 | a title present in a map whose entries all have ids and numbers gets the id and number of its entry, both non-empty |
| LawsApi.LawInfoMapComplete | app/lifeplan-navigator/src/lib/laws-api.ts:207-240 | every entry of LAW_INFO_MAP has a non-empty id and law number |
| LawsApi.EmploymentCategory | app/lifeplan-navigator/src/lib/laws-api.ts:496-502 | the category is labor, pension, insurance or tax, chosen by the first of 労働/雇用, 年金, 保険, 税 the title contains, labor when none |
| LawsApi.LawSummary | app/lifeplan-navigator/src/lib/laws-api.ts:504-519 | a title without a table summary gets the referral sentence naming it |
| LawsApi.SortByScore | app/lifeplan-navigator/src/lib/laws-api.ts:334 | the sort returns a permutation of the recommendations |
| LawsApi.SortSorted | app/lifeplan-navigator/src/lib/laws-api.ts:334 | the sorted recommendations have non-increasing scores |
| LawsApi.PushLaws | app/lifeplan-navigator/src/lib/laws-api.ts:270-287 | one source's forEach pushes exactly the laws whose titles are new and keeps the added-title set equal to the titles pushed |
| LawsApi.PushLaw | app/lifeplan-navigator/src/lib/laws-api.ts:272-285 | a law is pushed, with its id, number, score and category, iff its title was not added before, and the title is remembered |
| LawsApi.GetLawRecommendations | app/lifeplan-navigator/src/lib/laws-api.ts:261-335 | the three forEach passes over employment, each event and residence, then the sort, compute the specified recommendation list |
| LawsApi.RecommendationsSpec | app/lifeplan-navigator/src/lib/laws-api.ts:261-335 | no law title is recommended twice, scores are non-increasing, and the result is a permutation of the first record pushed for each title |
| LawsApi.NoInputsNoRecommendations | app/lifeplan-navigator/src/lib/laws-api.ts:261-335 | no employment type, events or residence type gives no recommendations |
| LawsApi.RecommendationOrigin | app/lifeplan-navigator/src/lib/laws-api.ts:270-332 | every recommendation is the law at some position i of a consulted source, scored 0.9, 0.85 or 0.7 minus 0.1·i, with the info map's id or else the emp_/event_/res_ id and an empty number |
| LawsApi.RecommendationComplete | app/lifeplan-navigator/src/lib/laws-api.ts:270-332 | every law listed for a consulted source is recommended |
| LawsApi.ParseAllSpec | app/lifeplan-navigator/src/lib/laws-api.ts:345-355 | every entry is mapped in place, and the mapping fails iff some entry is null or undefined |
| LawsApi.ParseLawSearchResultsSpec | app/lifeplan-navigator/src/lib/laws-api.ts:339-356 | a non-object or a reply without a laws array gives no results; otherwise one result per entry, repealed exactly for "repealed", law type Act when none, empty id when both id fields are falsy |
| LawsApi.FilterByKeywords | app/lifeplan-navigator/src/lib/laws-api.ts:410-412 | a law is kept iff its title contains some keyword |
| LawsApi.FallbackLaws | app/lifeplan-navigator/src/lib/laws-api.ts:381-413 | no keywords give all three common laws; otherwise exactly those whose title contains a keyword |
| LawsApi.LawsByAgeCategory | app/lifeplan-navigator/src/lib/laws-api.ts:615-631 | the categories are exactly the age bands containing the age; the summary is the minor one iff age < 18, the elderly one iff age ≥ 65, the adult one otherwise |
| LawsApiClient.FormEncode | app/lifeplan-navigator/src/lib/laws-api-client.ts:175 | form encoding leaves only form-safe characters, '+' and '%' |
| LawsApiClient.EncodeComponent | app/lifeplan-navigator/src/lib/laws-api-client.ts:179 | encodeURIComponent leaves only component-safe characters and '%' |
| LawsApiClient.EncodedSegment | app/lifeplan-navigator/src/lib/laws-api-client.ts:178-180 | an encoded path parameter holds no '/' and no '?', so it is one path segment |
| LawsApiClient.BuildUrl | app/lifeplan-navigator/src/lib/laws-api-client.ts:166-187 | the cleaning loop and the appends build the URL of the endpoint, the encoded path parameter and the query string |
| LawsApiClient.CleanedSpec | app/lifeplan-navigator/src/lib/laws-api-client.ts:169-173 | an entry survives cleaning iff its value is neither undefined nor null, stringified |
| LawsApiClient.CleanedEmpty | app/lifeplan-navigator/src/lib/laws-api-client.ts:169-173 | nothing survives cleaning iff every value is undefined or null |
| LawsApiClient.QueryStringShape | app/lifeplan-navigator/src/lib/laws-api-client.ts:175 | the query string is empty iff there are no cleaned entries, and it never holds '?' |
| LawsApiClient.BuildUrlSpec | app/lifeplan-navigator/src/lib/laws-api-client.ts:166-187 | the URL contains '?' iff some parameter is defined and not null |
| LawsApiClient.UrlStartsWithPath | app/lifeplan-navigator/src/lib/laws-api-client.ts:176-184 | the URL begins with the endpoint path and the path parameter; the query only follows |
| LawsApiClient.SearchParamsKeys | app/lifeplan-navigator/src/lib/laws-api-client.ts:199-214 | the search record has keys keyword (or law_title), offset, limit, then law_type, category and asof exactly when given |
| LawsApiClient.SearchParamsDefaults | app/lifeplan-navigator/src/lib/laws-api-client.ts:197-203 | offset and limit default to 0 and 10, and no value sent is undefined or null |
| LawsApiClient.SearchParamsLawType | app/lifeplan-navigator/src/lib/laws-api-client.ts:205-207 | law_type is sent comma-joined iff a non-empty list of law types is given |
| LawsApiClient.SearchParamsCategory | app/lifeplan-navigator/src/lib/laws-api-client.ts:208-210 | category is sent comma-joined iff a non-empty list of categories is given |
| LawsApiClient.SearchParamsAsOf | app/lifeplan-navigator/src/lib/laws-api-client.ts:211-213 | asof is sent iff a non-empty date is given |
| LawsApiClient.MakeRequest | app/lifeplan-navigator/src/lib/laws-api-client.ts:137-163 | a 2xx reply returns its body, a 404 with code 404001 the no-results marker, and anything else is thrown |
| LawsApiClient.SentencesOf | app/lifeplan-navigator/src/lib/laws-api-client.ts:236-241 | one matched sentence per sentence entry |
| LawsApiClient.MapItems | app/lifeplan-navigator/src/lib/laws-api-client.ts:229-242 | one item per entry when no entry throws |
| LawsApiClient.SearchByKeyword | app/lifeplan-navigator/src/lib/laws-api-client.ts:193-259 | the keyword search requests the URL of its cleaned parameters and returns the envelope of the mapped reply |
| LawsApiClient.SearchByTitle | app/lifeplan-navigator/src/lib/laws-api-client.ts:265-322 | the title search requests the URL of its cleaned parameters and returns the envelope of the mapped reply |
| LawsApiClient.EnvelopeErrors | app/lifeplan-navigator/src/lib/laws-api-client.ts:216-258 | a thrown request or a reply carrying error gives hasError with zero counts and no items, with the thrown message |
| LawsApiClient.NoResultsEnvelope | app/lifeplan-navigator/src/lib/laws-api-client.ts:150-152 | the 404001 reply becomes the error envelope with the fixed no-results message |
| LawsApiClient.OtherStatusThrows | app/lifeplan-navigator/src/lib/laws-api-client.ts:148-156 | any other non-2xx status throws "HTTP <status>", which the envelope reports |
| LawsApiClient.TitleTotalFallback | app/lifeplan-navigator/src/lib/laws-api-client.ts:309-313 | a title reply without total_count reports the number of items instead |
| Validation.EmailPatternShape | app/lifeplan-navigator/src/lib/validation.ts:9 | an address matching the e-mail pattern holds exactly one '@' with a non-empty local part, and its domain neither starts with '.' nor ends with '.' or '-' |
| Validation.ValidateEmail | app/lifeplan-navigator/src/lib/validation.ts:26-42 | blank input reports the required message; otherwise more than 254 characters the too-long message; otherwise a pattern mismatch the invalid message; valid exactly when none applies |
| Validation.RawScore | app/lifeplan-navigator/src/lib/validation.ts:51-84 | the five length and class checks give a score between 0 and 5 |
| Validation.PenalisedScore | app/lifeplan-navigator/src/lib/validation.ts:86-96 | the common-password and repeated-character penalties never raise the score or take it below 0, and a common password scores at most 3 |
| Validation.CheckFeedback | app/lifeplan-navigator/src/lib/validation.ts:51-84 | there is one message per failed length or class check |
| Validation.Check | app/lifeplan-navigator/src/lib/validation.ts:52-56 | a passing check adds a point and a failing one adds its message |
| Validation.ClassChecks | app/lifeplan-navigator/src/lib/validation.ts:51-84 | the five checks accumulate exactly the raw score and the messages of the failed checks, in order |
| Validation.ScoreChecks | app/lifeplan-navigator/src/lib/validation.ts:48-105 | the score is min(4, floor(0.8 × penalised score)), the feedback lists the failed checks and penalties in order, and validity is score ≥ 3 with length ≥ 12 |
| Validation.ValidatePassword | app/lifeplan-navigator/src/lib/validation.ts:47-106 | the result is the normalised penalised score of the password's checks, their feedback, and validity exactly for score ≥ 3 and length ≥ 12 |
| Validation.PasswordStrengthSpec | app/lifeplan-navigator/src/lib/validation.ts:47-106 | the score lies in 0..4; every failed check and penalty adds one message; a valid password passes at least four checks and is not common |
| Validation.StrongPasswordScoresFour | app/lifeplan-navigator/src/lib/validation.ts:47-106 | a password of length ≥ 12 with all four classes, not common and without a triple scores 4 |
| Validation.WeakPasswordInvalid | app/lifeplan-navigator/src/lib/validation.ts:47-106 | a password passing at most three checks, or a common one, scores below 3 |
| Validation.ValidateName | app/lifeplan-navigator/src/lib/validation.ts:111-133 | a name is valid iff its trimmed form is non-empty, at most 100 characters and only letters, digits, white space, '-' or '''; blank and too-long inputs report their messages |
| Validation.SanitizeInput | app/lifeplan-navigator/src/lib/validation.ts:138-146 | the sanitised text holds no raw '<', '>', '"' or ''' |
| Validation.ChainIsEscape | app/lifeplan-navigator/src/lib/validation.ts:139-144 | the chain of five replacements, '&' first, equals escaping every character independently |
| Validation.SanitizeIsCharwiseEscape | app/lifeplan-navigator/src/lib/validation.ts:138-146 | sanitizeInput is the character-wise HTML escape of the input, then trimmed |
| Validation.EscapeHasNoRaw | app/lifeplan-navigator/src/lib/validation.ts:139-144 | the character-wise escape contains no raw '<', '>', '"' or ''' |
| Validation.Lookup | app/lifeplan-navigator/src/lib/validation.ts:151-162 | table[min(score, 4)]: scores of 4 and more give the last entry, 0..4 their own entry, a negative score nothing |
| Validation.PasswordStrengthLabel | app/lifeplan-navigator/src/lib/validation.ts:151-154 | a non-negative score gets one of the five labels |
| Validation.PasswordStrengthColor | app/lifeplan-navigator/src/lib/validation.ts:159-162 | a non-negative score gets one of the five colours |
| Csrf.Hex | app/lifeplan-navigator/src/lib/csrf.ts:12 | hex rendering gives two lower-case hex digits per byte |
| Csrf.GenerateCsrfToken | app/lifeplan-navigator/src/lib/csrf.ts:11-13 | a token is 64 lower-case hex digits |
| Csrf.UnhexHex | app/lifeplan-navigator/src/lib/csrf.ts:12 | reading the hex rendering back gives the random bytes |
| Csrf.TokensDistinct | app/lifeplan-navigator/src/lib/csrf.ts:11-13 | different random bytes give different tokens |
| Csrf.Utf8StringInjective | app/lifeplan-navigator/src/lib/csrf.ts:40-41 | the UTF-8 encoding is one-to-one on strings |
| Csrf.ValidateCsrfToken | app/lifeplan-navigator/src/lib/csrf.ts:30-43 | an empty token or tokens of different length are rejected; the comparison throws only when the UTF-8 byte lengths differ |
| Csrf.ValidateCsrfTokenSpec | app/lifeplan-navigator/src/lib/csrf.ts:30-43 | the tokens are accepted iff they are equal and non-empty |
| Csrf.CaseSensitive | app/lifeplan-navigator/src/lib/csrf.ts:30-43 | tokens differing only in letter case are rejected |
| Csrf.AsciiNeverThrows | app/lifeplan-navigator/src/lib/csrf.ts:35-42 | ASCII tokens never make the byte comparison throw |
| Csrf.ThrowsOnByteLengthMismatch | app/lifeplan-navigator/src/lib/csrf.ts:35-42 | tokens equal in characters but not in UTF-8 bytes make the comparison throw |
| Middleware.SegmentBoundary | app/lifeplan-navigator/middleware.ts:47-54 | a pattern without '*' matches the path itself or a path continuing it with '/' |
| Middleware.DashboardExamples | app/lifeplan-navigator/middleware.ts:47-54 | /dashboard covers /dashboard/laws and not /dashboardx |
| Middleware.Pass | app/lifeplan-navigator/middleware.ts:119-153 | the passing response carries the six security headers, plus HSTS in production |
| Middleware.Run | app/lifeplan-navigator/middleware.ts:56-154 | the middleware takes the specified decision |
| Middleware.CheckCsrf | app/lifeplan-navigator/middleware.ts:95-153 | the CSRF stage answers 403 for a missing or mismatching token pair on a guarded state-changing API request, and passes otherwise |
| Middleware.SignedInLeavesAuthPages | app/lifeplan-navigator/middleware.ts:71-74 | a signed-in request for a sign-in page is redirected to /dashboard |
| Middleware.SignedOutToLogin | app/lifeplan-navigator/middleware.ts:77-81 | a signed-out request for a protected page is redirected to /login with the path as callback |
| Middleware.SignedOutApiIsUnauthorized | app/lifeplan-navigator/middleware.ts:84-91 | a signed-out request to a non-public API path gets 401 |
| Middleware.CsrfRejection | app/lifeplan-navigator/middleware.ts:71-113 | a 403 is given iff no earlier check answered, the request is state-changing on a guarded API path, and the token pair is missing or does not match |
| Middleware.MatchingTokensPass | app/lifeplan-navigator/middleware.ts:56-154 | a signed-in state-changing API request with a matching token pair passes with the security headers |
| Middleware.SafeMethodsSkipCsrf | app/lifeplan-navigator/middleware.ts:95 | a request that is not state-changing is never rejected for CSRF |
| Middleware.HstsOnlyInProduction | app/lifeplan-navigator/middleware.ts:146-151 | HSTS is sent iff the environment is production |
| JsNumber.DigitRun | app/lifeplan-navigator/src/app/api/laws/route.ts:110-111 | parseInt reads the longest run of radix digits: every character in the run is a digit and the next one is not |
| JsNumber.ParseIntRoundTrip | app/lifeplan-navigator/src/app/api/laws/route.ts:110-111 | parseInt of the decimal rendering of an integer gives the integer back |
| JsNumber.ParseIntIgnoresTail | app/lifeplan-navigator/src/app/api/laws/route.ts:250-257 | parseInt stops at the first non-digit, so "12abc" parses as 12 |
| JsNumber.StringToNumber | app/lifeplan-navigator/src/app/api/laws/route.ts:323-324 | Number of a blank string is 0 |
| JsNumber.StringToNumberRoundTrip | app/lifeplan-navigator/src/app/api/laws/route.ts:323-324 | Number of the decimal rendering of an integer gives the integer back |
| JsNumber.ToNumber | app/lifeplan-navigator/src/app/api/laws/route.ts:323-324 | Number of a number is itself, of null 0 and of undefined NaN |
| JsNumber.OrDefault | app/lifeplan-navigator/src/app/api/laws/route.ts:323-324 | n \|\| d is n for a non-zero number and d for NaN or 0 |
| JsNumber.MinNum | app/lifeplan-navigator/src/app/api/laws/route.ts:115 | Math.min with a bound is NaN iff the number is, and otherwise at most the bound and equal to one of the two |
| JsNumber.MaxNum | app/lifeplan-navigator/src/app/api/laws/route.ts:116 | Math.max with a bound is NaN iff the number is, and otherwise at least the bound and equal to one of the two |
| LawsRoute.ValidOrAbsent | app/lifeplan-navigator/src/app/api/laws/route.ts:37-47 | a value is kept iff it is a string from the list of valid values |
| LawsRoute.FilterMembers | app/lifeplan-navigator/src/app/api/laws/route.ts:176 | the filtered list is no longer than the input and holds only valid values |
| LawsRoute.FilterMembersExact | app/lifeplan-navigator/src/app/api/laws/route.ts:176 | a value survives the filter iff it is valid and given as a string |
| LawsRoute.FilterMembersKeepsValid | app/lifeplan-navigator/src/app/api/laws/route.ts:176 | a list of valid values passes the filter unchanged |
| LawsRoute.SanitizeKeyword | app/lifeplan-navigator/src/app/api/laws/route.ts:49-52 | a sanitised keyword is at most 100 characters long and holds no '<' or '>' |
| LawsRoute.DropAnglesKeepsOthers | app/lifeplan-navigator/src/app/api/laws/route.ts:51 | every character other than '<' and '>' is kept as often as it occurs |
| LawsRoute.DropAnglesFixpoint | app/lifeplan-navigator/src/app/api/laws/route.ts:51 | removing angle brackets changes nothing iff there are none |
| LawsRoute.SanitizeFixpoint | app/lifeplan-navigator/src/app/api/laws/route.ts:49-52 | a keyword is left alone iff it has at most 100 characters and no angle brackets |
| LawsRoute.SanitizeIdempotent | app/lifeplan-navigator/src/app/api/laws/route.ts:49-52 | sanitising twice is sanitising once |
| LawsRoute.CleanKeywords | app/lifeplan-navigator/src/app/api/laws/route.ts:102 | every cleaned keyword is non-empty, at most 100 characters and free of angle brackets |
| LawsRoute.CleanKeywordsKeeps | app/lifeplan-navigator/src/app/api/laws/route.ts:102 | a keyword is in the cleaned list iff it is non-empty and the sanitised form of some raw keyword |
| LawsRoute.RateStep | app/lifeplan-navigator/src/app/api/laws/route.ts:59-74 | a request is allowed iff the ip has no record, its window is over, or its count is below 30; a refusal changes nothing; other ips are untouched; an allowed ip's count stays at most 30 |
| LawsRoute.RateLimiter.CheckRateLimit | app/lifeplan-navigator/src/app/api/laws/route.ts:59-74 | the method updates the request-count map as the rate step says and keeps every count between 1 and 30 |
| LawsRoute.WithinWindow | app/lifeplan-navigator/src/app/api/laws/route.ts:59-74 | inside an open window no more requests are allowed than the count leaves room for |
| LawsRoute.AtMostThirtyPerWindow | app/lifeplan-navigator/src/app/api/laws/route.ts:56-74 | a window opened at t0 lets at most 30 requests through within the following minute |
| LawsRoute.GetAll | app/lifeplan-navigator/src/app/api/laws/route.ts:93 | getAll returns at most as many values as the query has entries |
| LawsRoute.ClientIp | app/lifeplan-navigator/src/app/api/laws/route.ts:78 | the rate-limit key is never empty: the forwarded address or "unknown" |
| LawsRoute.HandleGet | app/lifeplan-navigator/src/app/api/laws/route.ts:76-281 | the rate step is applied; a refused request gets 429, an allowed one the answer of its action |
| LawsRoute.HandlePost | app/lifeplan-navigator/src/app/api/laws/route.ts:283-464 | the rate step is applied; a refused request gets 429, a body that is not JSON 500, otherwise the answer of its action |
| LawsRoute.BodyKeywords | app/lifeplan-navigator/src/app/api/laws/route.ts:310-313 | the keywords of a body are non-empty, at most 100 characters and free of angle brackets |
| LawsRoute.BatchEntries | app/lifeplan-navigator/src/app/api/laws/route.ts:386-405 | an accepted batch has one call per search |
| LawsRoute.GetKeywordSearchBounds | app/lifeplan-navigator/src/app/api/laws/route.ts:92-118 | a GET keyword search reaches the library with at least one clean keyword, a limit that is NaN or at most 50, and an offset that is NaN or at least 0 |
| LawsRoute.GetKeywordsRequired | app/lifeplan-navigator/src/app/api/laws/route.ts:93-108 | a GET keyword search is made iff some keyword survives cleaning; otherwise the answer is 400 |
| LawsRoute.PostKeywordSearchBounds | app/lifeplan-navigator/src/app/api/laws/route.ts:299-326 | a POST keyword search reaches the library with at least one keyword, a numeric limit of at most 50 and a numeric offset of at least 0 |
| LawsRoute.BatchSizeBound | app/lifeplan-navigator/src/app/api/laws/route.ts:368-405 | more than five searches are refused with 400; an accepted batch has at most five, one call per entry |
| LawsRoute.GetRecommendationsValidated | app/lifeplan-navigator/src/app/api/laws/route.ts:169-183 | GET recommendations receive only enumeration values and never an empty event list |
| LawsRoute.PostRecommendationsValidated | app/lifeplan-navigator/src/app/api/laws/route.ts:340-354 | POST recommendations receive only enumeration values and never an empty event list |
| LoginRoute.CeilSeconds | app/lifeplan-navigator/src/app/api/auth/login/route.ts:60 | the rounded-up number of seconds covers the milliseconds and is less than a second too many |
| LoginRoute.LoginStep | app/lifeplan-navigator/src/app/api/auth/login/route.ts:44-67 | an absent or stale record restarts at count 1; a record with five attempts inside fifteen minutes refuses and leaves the table alone; otherwise the count goes up and the time moves to now; no other key changes |
| LoginRoute.RetryAfterBounds | app/lifeplan-navigator/src/app/api/auth/login/route.ts:59-62 | a refusal asks the client to wait between 0 and 900 seconds |
| LoginRoute.LoginLimiter.constructor | app/lifeplan-navigator/src/app/api/auth/login/route.ts:40 | the attempt table starts empty |
| LoginRoute.LoginLimiter.CheckRateLimit | app/lifeplan-navigator/src/app/api/auth/login/route.ts:44-67 | the table after the call and the decision are those of one limiter step, and counts stay between 1 and 5 |
| LoginRoute.LoginLimiter.ResetRateLimit | app/lifeplan-navigator/src/app/api/auth/login/route.ts:69-71 | exactly the record under the key is removed |
| LoginRoute.WithinLockout | app/lifeplan-navigator/src/app/api/auth/login/route.ts:44-67 | while no fifteen-minute gap opens, no more attempts get through than the record's count leaves room for |
| LoginRoute.AtMostFivePerLockout | app/lifeplan-navigator/src/app/api/auth/login/route.ts:41-42 | a fresh record lets at most five attempts through while the attempts keep coming within fifteen minutes of each other |
| LoginRoute.WindowSlides | app/lifeplan-navigator/src/app/api/auth/login/route.ts:54-57 | more than fifteen minutes after an allowed attempt the next one is allowed with a fresh count of 1 |
| LoginRoute.SecureCompare | app/lifeplan-navigator/src/app/api/auth/login/route.ts:30-35 | strings of different length compare unequal; an error is thrown only when the UTF-8 encodings differ in length |
| LoginRoute.SecureCompareSpec | app/lifeplan-navigator/src/app/api/auth/login/route.ts:30-35 | the comparison says equal exactly for equal strings |
| LoginRoute.HexDigestsCompare | app/lifeplan-navigator/src/app/api/auth/login/route.ts:117-119 | two lower-case hex digests compare without throwing, and equal exactly when they are equal |
| LoginRoute.HashInputAsWritten | app/lifeplan-navigator/src/app/api/auth/login/route.ts:20-25 | the text hashed by the code as written is never empty |
| LoginRoute.UnsetSaltAsWritten | app/lifeplan-navigator/src/app/api/auth/login/route.ts:23 | as written, an unset salt variable salts the password with "undefined" and never with the default salt |
| LoginRoute.HashInput | app/lifeplan-navigator/src/app/api/auth/login/route.ts:20-25 | the hashed text starts with the password |
| LoginRoute.HashInputSalt | app/lifeplan-navigator/src/app/api/auth/login/route.ts:23 | the password is followed by the configured salt when it is set and by the default salt otherwise |
| LoginRoute.HashInputInjective | app/lifeplan-navigator/src/app/api/auth/login/route.ts:20-25 | under one salt, different passwords of the same length give different hashed texts |
| LoginRoute.HashPassword | app/lifeplan-navigator/src/app/api/auth/login/route.ts:20-25 | the routes hash as the code is written: with `PASSWORD_SALT` unset the password followed by "undefined", with it set the password followed by it, and the default salt only for an empty password and an empty salt |
| LoginRoute.RateLimitKey | app/lifeplan-navigator/src/app/api/auth/login/route.ts:94-98 | the limiter key is the client address, a colon, then the normalised address |
| LoginRoute.KeyIgnoresCaseAndSpace | app/lifeplan-navigator/src/app/api/auth/login/route.ts:94-98 | addresses differing only in letter case or surrounding white space share a limiter record |
| LoginRoute.Authenticate | app/lifeplan-navigator/src/app/api/auth/login/route.ts:110-132 | after the limiter the answer is 401, 500 or a signed-in user |
| LoginRoute.AuthenticateSpec | app/lifeplan-navigator/src/app/api/auth/login/route.ts:110-132 | a user is signed in iff the normalised address is registered and its stored hash (the dummy hash when empty) equals the hash of the password, salted as written; the answer carries that user's address and a 64-digit hex session token |
| LoginRoute.ParseBody | app/lifeplan-navigator/src/app/api/auth/login/route.ts:75-91 | a missing or null body throws; otherwise the e-mail, then the password, must be non-empty strings, and the first one that is not is the field reported |
| LoginRoute.Attempt | app/lifeplan-navigator/src/app/api/auth/login/route.ts:93-129 | a well-formed request is refused with 429, rejected with 401 or 500, or signed in; the table is that of the limiter step, minus the key after a success |
| LoginRoute.Post | app/lifeplan-navigator/src/app/api/auth/login/route.ts:73-163 | the new limiter table and the answer are those of the request model, and the limiter's counts stay between 1 and 5 |
| LoginRoute.LoginSucceedsIff | app/lifeplan-navigator/src/app/api/auth/login/route.ts:73-163 | a login succeeds iff both fields are non-empty strings, the limiter allows the attempt and the credentials match |
| LoginRoute.SuccessResetsKey | app/lifeplan-navigator/src/app/api/auth/login/route.ts:128-129 | after a successful login the key has no record and every other record is as before |
| LoginRoute.FailureIsCounted | app/lifeplan-navigator/src/app/api/auth/login/route.ts:99-126 | a wrong password leaves the table of the limiter step, so it counts against the key |
| LoginRoute.ValidationBeforeLimiter | app/lifeplan-navigator/src/app/api/auth/login/route.ts:78-91 | a request with a missing field gets 400 and leaves the limiter table unchanged |
| RegisterRoute.RegistrationStep | app/lifeplan-navigator/src/app/api/auth/register/route.ts:101-116 | an absent or stale record restarts at count 1 at now; a record with three attempts inside the hour refuses without change; otherwise the count goes up and the window keeps its start; no other address changes |
| RegisterRoute.WithinWindow | app/lifeplan-navigator/src/app/api/auth/register/route.ts:101-116 | inside one window no more registrations get through than the record's count leaves room for |
| RegisterRoute.AtMostThreePerHour | app/lifeplan-navigator/src/app/api/auth/register/route.ts:98-99 | a window opened at t0 lets at most three registrations through in the following hour |
| RegisterRoute.Complexity | app/lifeplan-navigator/src/app/api/auth/register/route.ts:47-52 | the number of character classes present is at most four |
| RegisterRoute.IsValidPasswordSpec | app/lifeplan-navigator/src/app/api/auth/register/route.ts:38-68 | a password is rejected for being shorter than 12, longer than 128, using fewer than three classes, or common, each error exactly in its case, and accepted otherwise |
| RegisterRoute.CommonPasswordRuleUnreachable | app/lifeplan-navigator/src/app/api/auth/register/route.ts:61-65 | every listed common password is shorter than 12 characters, so the common-password error is never given |
| RegisterRoute.IsValidNameSpec | app/lifeplan-navigator/src/app/api/auth/register/route.ts:73-92 | the name rules give the same error as the form validator's, and accept exactly non-blank names of at most 100 characters from the name class once trimmed |
| RegisterRoute.RouteRules | app/lifeplan-navigator/src/app/api/auth/register/route.ts:30-92 | the route's rules are its e-mail, name and password checks |
| RegisterRoute.CheckFields | app/lifeplan-navigator/src/app/api/auth/register/route.ts:132-186 | a rejection is a 400 or a 409; an accepted address is not yet registered |
| RegisterRoute.CheckFieldsAccepted | app/lifeplan-navigator/src/app/api/auth/register/route.ts:132-199 | the fields are accepted iff the e-mail is a non-empty string that is valid and unregistered once normalised, the name is a valid non-empty string and so is the password; then the stored address is normalised and the name trimmed |
| RegisterRoute.Validate | app/lifeplan-navigator/src/app/api/auth/register/route.ts:132-201 | a request that passed the limiter is rejected with 400 or 409 without changing the users, or registered |
| RegisterRoute.ValidateKeepsUsers | app/lifeplan-navigator/src/app/api/auth/register/route.ts:188-201 | no registered user is changed or removed, and users stay filed under their own address |
| RegisterRoute.Registry.constructor | app/lifeplan-navigator/src/app/api/auth/register/route.ts:5-15 | the table holds only the demo user with the as-written hash of its password, and the limiter table is empty |
| RegisterRoute.Registry.CheckRegistrationLimit | app/lifeplan-navigator/src/app/api/auth/register/route.ts:101-116 | the new limiter table and the answer are those of one limiter step, with counts between 1 and 3 |
| RegisterRoute.Registry.Post | app/lifeplan-navigator/src/app/api/auth/register/route.ts:118-235 | the new limiter table, user table and answer are those of the request model, and the counts and the filing of users are kept |
| RegisterRoute.RegistrationAddsOneUser | app/lifeplan-navigator/src/app/api/auth/register/route.ts:188-201 | a registration adds exactly one user, under the normalised, valid and unregistered address, with the trimmed valid name and the as-written hash of a valid password |
| RegisterRoute.DuplicateIsConflict | app/lifeplan-navigator/src/app/api/auth/register/route.ts:148-154 | a valid address already registered, in any case or padding, gets 409 and changes no user |
| RegisterRoute.LimiterCountsEveryRequest | app/lifeplan-navigator/src/app/api/auth/register/route.ts:123-130 | every parsed request is counted by the limiter before any field is checked, 429 comes exactly from a refusal, and no user is ever changed or removed |
| UserService.SafeHidesSecrets | app/lifeplan-navigator/src/lib/auth/user-service.ts:165-169 | what is handed out of an account does not depend on its password hash or MFA secret, and keeps its id, address and failure count |
| UserService.HashPassword | app/lifeplan-navigator/src/lib/auth/user-service.ts:48-62 | hashing succeeds exactly when PBKDF2-SHA512 with 600000 iterations and a 64-byte key succeeds |
| UserService.ParseHashSpec | app/lifeplan-navigator/src/lib/auth/user-service.ts:67-71 | the fields are found exactly when the hash splits on `$` into four parts headed by `pbkdf2-sha512`, and they are the last three parts |
| UserService.VerifyFields | app/lifeplan-navigator/src/lib/auth/user-service.ts:73-89 | the check throws exactly when the count is not a number or the derived key has another length than the stored one |
| UserService.VerifyPassword | app/lifeplan-navigator/src/lib/auth/user-service.ts:67-89 | a hash of another shape answers false, and any error comes from a hash of the right shape |
| UserService.FormattedFields | app/lifeplan-navigator/src/lib/auth/user-service.ts:58 | a hash written in the stored format gives its count, salt and key back when none of them holds `$` |
| UserService.IterationsRoundTrip | app/lifeplan-navigator/src/lib/auth/user-service.ts:50-58 | the count is written as the numeral of 600000 and `parseInt` reads it back as 600000 |
| UserService.VerifyCountedFields | app/lifeplan-navigator/src/lib/auth/user-service.ts:73-89 | with a count that reads as a number and a length-keeping PBKDF2, the check never throws and accepts exactly when the derived key is the stored one |
| UserService.VerifyHashed | app/lifeplan-navigator/src/lib/auth/user-service.ts:48-89 | a hash made by `hashPassword` holds the Base64 salt and key, accepts exactly the passwords deriving the same key, and accepts its own password |
| UserService.DummyVerifyAnswers | app/lifeplan-navigator/src/lib/auth/user-service.ts:133-137 | the dummy comparison on an unknown address answers without throwing, so the address is refused |
| UserService.SignInAttempt | app/lifeplan-navigator/src/lib/auth/user-service.ts:139-169 | an attempt on a known record changes at most that record and keeps the set of addresses |
| UserService.Authenticate | app/lifeplan-navigator/src/lib/auth/user-service.ts:125-170 | a sign-in keeps the set of addresses and changes no record but the one under the normalised address |
| UserService.LockedAttempt | app/lifeplan-navigator/src/lib/auth/user-service.ts:139-145 | on a locked account the attempt answers with the seconds left whatever the password check says, and changes nothing |
| UserService.LockedAccountUnchanged | app/lifeplan-navigator/src/lib/auth/user-service.ts:139-145 | a locked account throws with the seconds left rounded up, at least one, and its record is untouched |
| UserService.WrongPasswordCounts | app/lifeplan-navigator/src/lib/auth/user-service.ts:147-159 | a wrong password adds one failure, locks for fifteen minutes from now exactly when that makes five or more, and changes nothing else of the record |
| UserService.RelockAfterExpiry | app/lifeplan-navigator/src/lib/auth/user-service.ts:115-120 | the count is not cleared when a lock runs out, so a wrong password after four failures locks the account again at once |
| UserService.RightPasswordSignsIn | app/lifeplan-navigator/src/lib/auth/user-service.ts:161-169 | a right password signs in with the secret-free record, clears the count and the lock, sets the last sign-in and keeps the hash and MFA secret |
| UserService.CreateAccount | app/lifeplan-navigator/src/lib/auth/user-service.ts:175-205 | a registered address throws and changes nothing; otherwise the only change is a new record under the normalised address, which is handed out without secrets |
| UserService.GetUserByEmail | app/lifeplan-navigator/src/lib/auth/user-service.ts:225-228 | a record is returned exactly when one is filed under the normalised address |
| UserService.CreatedUserSignsIn | app/lifeplan-navigator/src/lib/auth/user-service.ts:175-205 | a created user signs in with its password under any spelling of the address that normalises to the same one |
| UserService.FirstById | app/lifeplan-navigator/src/lib/auth/user-service.ts:210-220 | the index found holds a record with the id and no earlier index does; -1 means none does |
| UserService.SignInKeepsWellFormed | app/lifeplan-navigator/src/lib/auth/user-service.ts:147-169 | an attempt keeps every record filed under its own address, with a non-negative count and a lock time from five failures on |
| UserService.AuthenticateKeepsWellFormed | app/lifeplan-navigator/src/lib/auth/user-service.ts:125-170 | sign-ins keep the records well formed |
| UserService.CreateKeepsWellFormed | app/lifeplan-navigator/src/lib/auth/user-service.ts:175-205 | account creation keeps the records well formed |
| UserService.UserStore.constructor | app/lifeplan-navigator/src/lib/auth/user-service.ts:94-111 | the table holds the demo account with the hash of its password when hashing succeeds, and is empty otherwise |
| UserService.UserStore.AuthenticateUser | app/lifeplan-navigator/src/lib/auth/user-service.ts:125-170 | the new table and the answer are those of the sign-in model, and the table stays ordered and well formed |
| UserService.UserStore.SignIn | app/lifeplan-navigator/src/lib/auth/user-service.ts:139-169 | the part after the lookup gives the answer and table of an attempt checked against the stored hash |
| UserService.UserStore.Record | app/lifeplan-navigator/src/lib/auth/user-service.ts:147-169 | the bookkeeping after the check gives the answer and table of an attempt with that verdict |
| UserService.UserStore.CreateUser | app/lifeplan-navigator/src/lib/auth/user-service.ts:175-205 | the new table and answer are those of the creation model, and a new address goes to the end of the insertion order |
| UserService.UserStore.GetUserById | app/lifeplan-navigator/src/lib/auth/user-service.ts:210-220 | the answer is the secret-free record at the first index holding the id, or nothing |
| UserService.UserStore.UpdateUserMfa | app/lifeplan-navigator/src/lib/auth/user-service.ts:233-247 | the first record with the id, and only it, gets the MFA settings and the update time; the answer says whether there was one |
| UserService.UserStore.UpdateUserPassword | app/lifeplan-navigator/src/lib/auth/user-service.ts:252-264 | the first record with the id, and only it, gets the hash of the new password and the update time; a hashing error or a missing id changes nothing |
| UserService.NewPasswordVerifies | app/lifeplan-navigator/src/lib/auth/user-service.ts:252-264 | after a password change the new password is accepted and the hash splits into four parts |
| MfaService.GenerateSecret | app/lifeplan-navigator/src/lib/auth/mfa-service.ts:36-46 | one character per random byte, the alphabet entry at the byte mod 32, so every character is in A–Z/2–7 |
| MfaService.Base32Index | app/lifeplan-navigator/src/lib/auth/mfa-service.ts:31-56 | the position of an alphabet character is in 0..31, and any other character gives -1 |
| MfaService.AlphabetIndex | app/lifeplan-navigator/src/lib/auth/mfa-service.ts:56 | `BASE32_ALPHABET.indexOf(c)` is the arithmetic alphabet position for every character |
| MfaService.Base32Decode | app/lifeplan-navigator/src/lib/auth/mfa-service.ts:51-67 | the loop pushes exactly the whole bytes of the bit string built from the cleaned characters |
| MfaService.DecodedShape | app/lifeplan-navigator/src/lib/auth/mfa-service.ts:52-64 | `n` cleaned characters decode to floor(5n/8) bytes, each below 256; leftover bits are dropped |
| MfaService.CleanChars | app/lifeplan-navigator/src/lib/auth/mfa-service.ts:52 | cleaning keeps only alphabet characters and never lengthens the input |
| MfaService.FiveBitsValue | app/lifeplan-navigator/src/lib/auth/mfa-service.ts:55-58 | each alphabet character becomes five bits whose value is its alphabet position |
| MfaService.BitsChunks | app/lifeplan-navigator/src/lib/auth/mfa-service.ts:53-59 | the k-th group of five bits stands for the k-th cleaned character, most significant bit first |
| MfaService.BinaryValue | app/lifeplan-navigator/src/lib/auth/mfa-service.ts:57-63 | `parseInt(n.toString(2), 2)` is `n` |
| MfaService.BitsValuePadded | app/lifeplan-navigator/src/lib/auth/mfa-service.ts:57 | `padStart` with zeros does not change the value of a bit string |
| MfaService.BitsValueBound | app/lifeplan-navigator/src/lib/auth/mfa-service.ts:63 | eight bits read as a number below 256 |
| MfaService.DecodeIgnoresCase | app/lifeplan-navigator/src/lib/auth/mfa-service.ts:52 | decoding a lower-cased secret gives the same bytes |
| MfaService.SecretSurvivesCleaning | app/lifeplan-navigator/src/lib/auth/mfa-service.ts:36-67 | a generated secret is left unchanged by cleaning, and its 20 characters decode to 12 bytes |
| MfaService.Truncate | app/lifeplan-navigator/src/lib/auth/mfa-service.ts:92-97 | the dynamic truncation is a 31-bit value |
| MfaService.GenerateTotp | app/lifeplan-navigator/src/lib/auth/mfa-service.ts:72-103 | the counter-byte loop and the truncation give the code of the decoded secret for the period floor(time/30) |
| MfaService.GetCurrentTotp | app/lifeplan-navigator/src/lib/auth/mfa-service.ts:132-135 | the current code is the code for the whole seconds of the clock |
| MfaService.CodeShape | app/lifeplan-navigator/src/lib/auth/mfa-service.ts:100-102 | a value below 10^6 renders as exactly six decimal digits that read back as the value |
| MfaService.HotpShape | app/lifeplan-navigator/src/lib/auth/mfa-service.ts:86-102 | every code, whatever the key and counter, is six decimal digits and six UTF-8 bytes |
| MfaService.TotpShape | app/lifeplan-navigator/src/lib/auth/mfa-service.ts:72-103 | every TOTP code is six decimal digits and six UTF-8 bytes |
| MfaService.CounterSteps | app/lifeplan-navigator/src/lib/auth/mfa-service.ts:76 | the code only changes at multiples of thirty seconds |
| MfaService.CounterCollision | app/lifeplan-navigator/src/lib/auth/mfa-service.ts:79-84 | as written, counters 0 and 256 give the same eight counter bytes, so times 0 and 7680 s give the same code |
| MfaService.BigEndianBytesValue | app/lifeplan-navigator/src/lib/auth/mfa-service.ts:78 | the low `n` big-endian bytes of a counter stand for the counter modulo 256^n |
| MfaService.BigEndianRoundTrip | app/lifeplan-navigator/src/lib/auth/mfa-service.ts:78 | the corrected eight-byte big-endian counter reads back as the counter for every counter below 2^64 |
| MfaService.RfcCountersDistinct | app/lifeplan-navigator/src/lib/auth/mfa-service.ts:78 | with the corrected counter bytes, distinct periods feed distinct messages to HMAC |
| MfaService.TimingSafeEqual | app/lifeplan-navigator/src/lib/auth/mfa-service.ts:121-171 | throws exactly when the buffers differ in length, and otherwise answers whether they are equal |
| MfaService.CompareWithCode | app/lifeplan-navigator/src/lib/auth/mfa-service.ts:117-121 | one window step throws exactly when the token is not six UTF-8 bytes, and otherwise answers whether the token is that period's code |
| MfaService.VerifyTotp | app/lifeplan-navigator/src/lib/auth/mfa-service.ts:108-127 | an empty token or one not six characters long is refused; otherwise the loop answers whether the token is one of the window's codes, or throws on a token of another byte length |
| MfaService.WindowSpec | app/lifeplan-navigator/src/lib/auth/mfa-service.ts:116-124 | the window accepts exactly the codes of the period before, the current one and the one after |
| MfaService.WindowStep | app/lifeplan-navigator/src/lib/auth/mfa-service.ts:116-124 | one step of the window: the token matches this period or a later one |
| MfaService.WindowCodeIsTotp | app/lifeplan-navigator/src/lib/auth/mfa-service.ts:117-118 | the window's i-th code is the TOTP code i times thirty seconds away |
| MfaService.WindowAccepted | app/lifeplan-navigator/src/lib/auth/mfa-service.ts:108-127 | the codes of the periods 30 s before, now and 30 s after are accepted |
| MfaService.WindowFromIndex | app/lifeplan-navigator/src/lib/auth/mfa-service.ts:116-124 | a token equal to a later window code is found by the loop from any earlier index |
| MfaService.AsciiTokenAnswers | app/lifeplan-navigator/src/lib/auth/mfa-service.ts:109-121 | an ASCII token never makes the check throw, and one whose length is not six is refused |
| MfaService.WideTokenThrows | app/lifeplan-navigator/src/lib/auth/mfa-service.ts:121 | a six-character token with a non-ASCII character makes `timingSafeEqual` throw |
| MfaService.Utf8StringAppend | app/lifeplan-navigator/src/lib/auth/mfa-service.ts:121 | the UTF-8 bytes of a concatenation are the concatenated bytes |
| MfaService.GenerateBackupCodes | app/lifeplan-navigator/src/lib/auth/mfa-service.ts:140-151 | `count` codes (none for a count below one), each the upper-cased hex of its four random bytes with a dash after the fourth digit |
| MfaService.BackupCodeShape | app/lifeplan-navigator/src/lib/auth/mfa-service.ts:144-147 | a backup code is XXXX-XXXX in upper-case hex, and normalising it gives back its eight hex digits |
| MfaService.FormattedShape | app/lifeplan-navigator/src/lib/auth/mfa-service.ts:147-158 | formatting eight upper-case hex digits and normalising again is the identity |
| MfaService.DashesOut | app/lifeplan-navigator/src/lib/auth/mfa-service.ts:147-158 | removing the dashes undoes the formatting of a code without dashes |
| MfaService.RemoveDashes | app/lifeplan-navigator/src/lib/auth/mfa-service.ts:158-167 | no dash is left |
| MfaService.RemoveDashesAppend | app/lifeplan-navigator/src/lib/auth/mfa-service.ts:158-167 | removing dashes distributes over concatenation |
| MfaService.NormalizeSpec | app/lifeplan-navigator/src/lib/auth/mfa-service.ts:158-167 | normalisation ignores letter case and is idempotent |
| MfaService.HashBackupCodes | app/lifeplan-navigator/src/lib/auth/mfa-service.ts:156-161 | one digest per code |
| MfaService.VerifyBackupCode | app/lifeplan-navigator/src/lib/auth/mfa-service.ts:166-177 | the loop returns the first index whose comparison matches, throws at the first stored hash of another byte length, and returns -1 when nothing matches |
| MfaService.FindFromSpec | app/lifeplan-navigator/src/lib/auth/mfa-service.ts:170-176 | a returned index holds the input hash and none before it does; -1 means no stored hash equals it; a throw means some stored hash has another byte length |
| MfaService.FindFromSameLength | app/lifeplan-navigator/src/lib/auth/mfa-service.ts:170-176 | with all hashes of one byte length the lookup never throws and returns a matching index no later than any match |
| MfaService.BackupCodeAccepted | app/lifeplan-navigator/src/lib/auth/mfa-service.ts:156-177 | a code entered in any case and dash form of a stored backup code is found among the hashed codes, at its index or an earlier duplicate |
| SessionStore.MergeNothing | app/lifeplan-navigator/src/lib/redis/session-store.ts:151-155 | an update naming no field only stamps `lastActivity` |
| SessionStore.MergeSpec | app/lifeplan-navigator/src/lib/redis/session-store.ts:151-155 | merging is idempotent; the fields an update names take its values and the others keep the session's |
| SessionStore.ReadableIsLive | app/lifeplan-navigator/src/lib/redis/session-store.ts:62-97 | while keys expire no later than their sessions, a readable session has not expired |
| SessionStore.GetAsWritten | app/lifeplan-navigator/src/lib/redis/session-store.ts:83-173 | the original `getSession` returns a session only when it is readable and unexpired, and null exactly when the key is gone |
| SessionStore.ValidNeverLoops | app/lifeplan-navigator/src/lib/redis/session-store.ts:93-173 | while keys expire no later than their sessions, the original `getSession` always returns |
| SessionStore.Destroyed | app/lifeplan-navigator/src/lib/redis/session-store.ts:171-185 | destroying deletes the key and keeps every other key expiring no later than its session |
| SessionStore.DestroyedSpec | app/lifeplan-navigator/src/lib/redis/session-store.ts:171-185 | a destroyed session is unreadable, every other key reads as before, and users' sets lose at most that id |
| SessionStore.GetStepSpec | app/lifeplan-navigator/src/lib/redis/session-store.ts:83-100 | the corrected `getSession` always returns, never hands out an expired session, and leaves the record live or gone |
| SessionStore.GetStepAgrees | app/lifeplan-navigator/src/lib/redis/session-store.ts:83-100 | while keys expire no later than their sessions, the corrected `getSession` answers what the original does and changes nothing |
| SessionStore.SortSpec | app/lifeplan-navigator/src/lib/redis/session-store.ts:232 | the sort is a permutation, oldest first, with each creation time as often as before, distinct ones staying distinct |
| SessionStore.CollectValid | app/lifeplan-navigator/src/lib/redis/session-store.ts:209-222 | while keys expire no later than their sessions, `getUserSessions` changes nothing and returns the readable sessions of the user's set |
| SessionStore.ReadableSpec | app/lifeplan-navigator/src/lib/redis/session-store.ts:209-222 | one session per readable id, carrying those records' creation times; distinct times stay distinct |
| SessionStore.ReadableCount | app/lifeplan-navigator/src/lib/redis/session-store.ts:209-222 | the returned sessions carry each creation time once for every readable id of the set created at that millisecond |
| SessionStore.CollectedLive | app/lifeplan-navigator/src/lib/redis/session-store.ts:209-222 | while keys expire no later than their sessions, `getUserSessions` changes nothing and returns one session per live session of the user, and its sorted list holds each live creation time as often as it occurs |
| SessionStore.CollectDeletesOnly | app/lifeplan-navigator/src/lib/redis/session-store.ts:209-222 | `getUserSessions` only deletes keys and takes ids out of sets |
| SessionStore.LiveAfterDestroy | app/lifeplan-navigator/src/lib/redis/session-store.ts:171-185 | destroying a session takes exactly that id out of a user's live sessions |
| SessionStore.RoundFinds | app/lifeplan-navigator/src/lib/redis/session-store.ts:237-254 | each round of the limit still finds a live session created at the time it looks for, also when several sessions share that millisecond |
| SessionStore.RoundRemoves | app/lifeplan-navigator/src/lib/redis/session-store.ts:237-254 | each round removes one live session not removed before, so the removed sessions carry exactly the first creation times of the sorted list |
| SessionStore.RoundStep | app/lifeplan-navigator/src/lib/redis/session-store.ts:237-255 | after each round, whatever id `SMEMBERS` lists first, as many live sessions are gone as rounds were run, carrying the first creation times of the sorted list, and no other live session |
| SessionStore.RoundsDone | app/lifeplan-navigator/src/lib/redis/session-store.ts:230-256 | no removed live session is newer than a kept one, ties included |
| SessionStore.LimitDone | app/lifeplan-navigator/src/lib/redis/session-store.ts:230-256 | while keys expire no later than their sessions, removing all but three of the sorted sessions leaves exactly three live sessions, none older than a removed one; otherwise the rounds only delete |
| SessionStore.AddedSpec | app/lifeplan-navigator/src/lib/redis/session-store.ts:51-70 | a new session is live for its user now and gone eight hours later; the user's other live sessions stay |
| SessionStore.TouchSpec | app/lifeplan-navigator/src/lib/redis/session-store.ts:105-135 | a touch succeeds exactly for a live session idle at most thirty minutes with at least a second left; it stamps the activity time without extending the absolute expiry, and ends an idle session |
| SessionStore.UpdateSpec | app/lifeplan-navigator/src/lib/redis/session-store.ts:140-166 | an update answers null for a missing or expired session or one with less than a second left, and otherwise stores the merged session without extending the absolute expiry |
| SessionStore.SetMfaSpec | app/lifeplan-navigator/src/lib/redis/session-store.ts:262-265 | a successful `setMfaVerified` changes only the MFA flag and the activity time |
| SessionStore.UpdateThenGetLoops | app/lifeplan-navigator/src/lib/redis/session-store.ts:93-173 | as written, an update that moves `expiresAt` into the past leaves a record on which `getSession` does not return |
| SessionStore.DestroyAllSpec | app/lifeplan-navigator/src/lib/redis/session-store.ts:190-204 | afterwards the user has no sessions, other keys are untouched, and the count includes ids whose keys had already expired |
| SessionStore.StoredAreLive | app/lifeplan-navigator/src/lib/redis/session-store.ts:270-283 | while keys expire no later than their sessions, every counted key is a live session, as the comment on `activeSessions` claims |
| SessionStore.RedisSessionStore.constructor | app/lifeplan-navigator/src/lib/redis/session-store.ts:286-296 | the store starts with no keys |
| SessionStore.RedisSessionStore.CreateSession | app/lifeplan-navigator/src/lib/redis/session-store.ts:46-78 | the new session is created and last active now and expires after eight hours; after the limit, while keys expire no later than their sessions, the user keeps min(n, 3) of their n live sessions and no removed one is newer than a kept one, ties included; otherwise the limit only deletes |
| SessionStore.RedisSessionStore.GetSession | app/lifeplan-navigator/src/lib/redis/session-store.ts:83-100 | the corrected `getSession` step |
| SessionStore.RedisSessionStore.TouchSession | app/lifeplan-navigator/src/lib/redis/session-store.ts:105-135 | the answer and the state are those of `Touched` |
| SessionStore.RedisSessionStore.UpdateSession | app/lifeplan-navigator/src/lib/redis/session-store.ts:140-166 | the answer and the state are those of `Updated` |
| SessionStore.RedisSessionStore.DestroySession | app/lifeplan-navigator/src/lib/redis/session-store.ts:171-185 | the state is that of `Destroyed` |
| SessionStore.RedisSessionStore.DestroyAllUserSessions | app/lifeplan-navigator/src/lib/redis/session-store.ts:190-204 | every key named in the user's set and the set itself are deleted, and the count is the set's size |
| SessionStore.RedisSessionStore.GetUserSessions | app/lifeplan-navigator/src/lib/redis/session-store.ts:209-222 | the loop visits each id of the set once and returns what `getSession` returns for each |
| SessionStore.RedisSessionStore.RemoveCreatedAt | app/lifeplan-navigator/src/lib/redis/session-store.ts:238-254 | a round destroys a listed readable session created at the given time, or changes nothing when there is none |
| SessionStore.RedisSessionStore.RemoveOldest | app/lifeplan-navigator/src/lib/redis/session-store.ts:235-255 | it only deletes; while keys expire no later than their sessions and the sorted list holds the live creation times, the rounds remove `count` live sessions carrying the first `count` creation times of the list, sessions of the same millisecond in whatever order `SMEMBERS` lists them |
| SessionStore.RedisSessionStore.EnforceSessionLimit | app/lifeplan-navigator/src/lib/redis/session-store.ts:227-257 | it only deletes; while keys expire no later than their sessions, it keeps min(n, 3) of the user's n live sessions and no removed one is newer than a kept one, sessions created at the same millisecond included |
| SessionStore.RedisSessionStore.SetMfaVerified | app/lifeplan-navigator/src/lib/redis/session-store.ts:262-265 | true exactly when the update of the flag found the session |
| SessionStore.RedisSessionStore.GetStats | app/lifeplan-navigator/src/lib/redis/session-store.ts:270-283 | both counts are the number of session keys Redis holds |
| DisclaimerTranslations.LocaleKey | app/lifeplan-navigator/src/lib/i18n/disclaimer-translations.ts:70 | the key is the first two characters of the locale (fewer when the locale is shorter), each lower-cased |
| DisclaimerTranslations.GetDisclaimerTranslation | app/lifeplan-navigator/src/lib/i18n/disclaimer-translations.ts:32-76 | the result is one of the two tables, and it is the English one exactly when the locale starts with "en" in any case |
| DisclaimerTranslations.SuffixIgnored | app/lifeplan-navigator/src/lib/i18n/disclaimer-translations.ts:70-73 | for a locale of at least two characters, anything after them (a region such as "-US") does not change the choice |
| DisclaimerTranslations.FallbackIsJapanese | app/lifeplan-navigator/src/lib/i18n/disclaimer-translations.ts:74-75 | every locale that does not start with "en", including the empty and one-character ones, gets the Japanese table |
| DisclaimerTranslations.CaseIgnored | app/lifeplan-navigator/src/lib/i18n/disclaimer-translations.ts:70 | upper- or lower-casing the locale does not change the table chosen |
| AnimalIcons.RecommendedAnimal | app/lifeplan-navigator/src/components/AnimalIcons.tsx:174-182 | the squirrel is chosen exactly when savings or investment is a goal; the dog exactly when no goal is one of the seven recognised; the result is always one of the six animals the rules name |
| AnimalIcons.RecommendedIsFirstHit | app/lifeplan-navigator/src/components/AnimalIcons.tsx:175-181 | the chain of checks picks the animal of the first goal, in the fixed order savings, investment, housing, education, retirement, benefits, tax, that the user has |
| AnimalIcons.RecommendedSetOnly | app/lifeplan-navigator/src/components/AnimalIcons.tsx:174-182 | only the set of goals matters: two goal lists with the same members, in any order and with any repeats, get the same animal |
| AnimalIcons.AnimalByLifeStage | app/lifeplan-navigator/src/components/AnimalIcons.tsx:185-198 | a listed stage gets its animal from the nine-entry table; the dog is returned exactly for the stages not listed |
| AnimalIcons.UnlistedStages | app/lifeplan-navigator/src/components/AnimalIcons.tsx:196 | stages such as "engaged" and "expecting", which the switch does not list, fall to the dog |
| AppStore.MergeProfileSpec | app/lifeplan-navigator/src/lib/store.ts:91-94 | spreading an update: an empty one changes nothing, applying the same update twice equals applying it once, an update carrying every field of a profile yields that profile, and the email is the update's when it has one and the old one otherwise |
| AppStore.MergeSecurity | app/lifeplan-navigator/src/lib/store.ts:128-131 | fields the update does not carry, such as the MFA and passkey switches and the login history, keep their old values |
| AppStore.MergeNotifications | app/lifeplan-navigator/src/lib/store.ts:135-138 | each switch takes the update's value when the update carries one and keeps its own otherwise; an empty update changes nothing |
| AppStore.Int32 | app/lifeplan-navigator/src/lib/store.ts:79-80 | the 32-bit truncation that `<<` and `&` apply: a signed 32-bit value congruent to the input modulo 2^32 |
| AppStore.HashOf | app/lifeplan-navigator/src/lib/store.ts:75-81 | the hash of any string is a signed 32-bit integer |
| AppStore.ShiftStep | app/lifeplan-navigator/src/lib/store.ts:79-80 | `(hash << 5) - hash + char` followed by `hash & hash` equals the 32-bit truncation of `31 * hash + char` |
| AppStore.SimpleHash | app/lifeplan-navigator/src/lib/store.ts:75-83 | the loop computes the 31-multiplier hash of the code units, and reading its base-36 rendering back gives that hash |
| AppStore.Base36RoundTrip | app/lifeplan-navigator/src/lib/store.ts:82 | `toString(36)` loses nothing: parsing the rendering of any integer, negative ones with their minus sign, gives the integer back |
| AppStore.HashCollision | app/lifeplan-navigator/src/lib/store.ts:75-102 | "Aa" and "BB" hash alike (2112), so either is accepted at login when the other was set as the password |
| AppStore.PushHistory | app/lifeplan-navigator/src/lib/store.ts:107-117 | the new entry comes first, followed by the first nine old entries; the result holds between one and ten entries |
| AppStore.HistoryBounded | app/lifeplan-navigator/src/lib/store.ts:107-117 | after any number of successful logins on a history of at most ten, the history still holds at most ten entries and the latest login comes first |
| AppStore.UpdateWhere | app/lifeplan-navigator/src/lib/store.ts:148-153 | the list keeps its length; every action with the id gets the update spread over it and every other action is unchanged |
| AppStore.RemoveWhere | app/lifeplan-navigator/src/lib/store.ts:154-157 | an action is kept exactly when it was present and its id differs; without a matching id the list is unchanged |
| AppStore.ToggleWhere | app/lifeplan-navigator/src/lib/store.ts:158-163 | the list keeps its length; actions with the id have `completed` flipped and the others are unchanged |
| AppStore.ToggleTwice | app/lifeplan-navigator/src/lib/store.ts:158-163 | toggling the same id twice restores the list |
| AppStore.MarkRead | app/lifeplan-navigator/src/lib/store.ts:169-174 | the list keeps its length; notifications with the id become read and the others are unchanged |
| AppStore.MarkReadSpec | app/lifeplan-navigator/src/lib/store.ts:169-174 | marking as read is idempotent, and afterwards every notification with the id is read |
| AppStore.MockNotifications | app/lifeplan-navigator/src/lib/store.ts:190-207 | the demo data holds two notifications, both unread and created at the given time |
| AppStore.Store.constructor | app/lifeplan-navigator/src/lib/store.ts:55-179 | the store starts signed out, without a user or password, with the default security and notification settings, the working-single stage and empty lists |
| AppStore.Store.SetUser | app/lifeplan-navigator/src/lib/store.ts:90 | only the user changes |
| AppStore.Store.UpdateUser | app/lifeplan-navigator/src/lib/store.ts:91-94 | with a user, the update is merged into it and `updatedAt` is stamped; without one, nothing changes |
| AppStore.Store.SetPassword | app/lifeplan-navigator/src/lib/store.ts:99 | only the stored password changes, and it becomes the hash of the new password |
| AppStore.Store.Login | app/lifeplan-navigator/src/lib/store.ts:100-123 | success exactly when a user is set, its email matches, and the stored hash is the hash of the password; on success the user is signed in and the attempt heads the history; on failure nothing changes |
| AppStore.Store.Logout | app/lifeplan-navigator/src/lib/store.ts:124 | only the signed-in flag changes, to false |
| AppStore.Store.UpdateSecuritySettings | app/lifeplan-navigator/src/lib/store.ts:128-131 | only the security settings change, to the old ones merged with the update |
| AppStore.Store.UpdateNotificationSettings | app/lifeplan-navigator/src/lib/store.ts:135-138 | only the notification settings change, to the old ones merged with the update |
| AppStore.Store.SetLifeStage | app/lifeplan-navigator/src/lib/store.ts:142 | only the life stage changes |
| AppStore.Store.AddAction | app/lifeplan-navigator/src/lib/store.ts:146-147 | the action is appended and nothing else changes |
| AppStore.Store.UpdateAction | app/lifeplan-navigator/src/lib/store.ts:148-153 | only the actions change, as `UpdateWhere` describes |
| AppStore.Store.RemoveAction | app/lifeplan-navigator/src/lib/store.ts:154-157 | only the actions change, as `RemoveWhere` describes |
| AppStore.Store.ToggleActionComplete | app/lifeplan-navigator/src/lib/store.ts:158-163 | only the actions change, as `ToggleWhere` describes |
| AppStore.Store.AddNotification | app/lifeplan-navigator/src/lib/store.ts:167-168 | the notification is put in front and nothing else changes |
| AppStore.Store.MarkAsRead | app/lifeplan-navigator/src/lib/store.ts:169-174 | only the notifications change, as `MarkRead` describes |
| AppStore.Store.ClearNotifications | app/lifeplan-navigator/src/lib/store.ts:175 | the notifications become empty and nothing else changes |
| AppStore.Store.SetOnboardingCompleted | app/lifeplan-navigator/src/lib/store.ts:179 | only the onboarding flag changes |
| AppStore.Store.InitializeMockData | app/lifeplan-navigator/src/lib/store.ts:182-208 | the demo user and actions, the child-rearing stage, onboarding done, signed in, the hash of "demo1234" as password, and the two demo notifications; the security and notification settings are kept |
| AppStore.Store.ResetAllData | app/lifeplan-navigator/src/lib/store.ts:211-222 | every field returns to its initial value |
| NextActionList.Rank | app/lifeplan-navigator/src/components/NextActionList.tsx:9-15 | the rank lies between 0 and 5 and is 3 or more exactly for completed actions |
| NextActionList.CompareIsRank | app/lifeplan-navigator/src/components/NextActionList.tsx:9-15 | the comparator is negative, zero or positive as the rank is smaller, equal or larger; it is zero exactly for equal status and priority; and it is antisymmetric |
| NextActionList.SortActions | app/lifeplan-navigator/src/components/NextActionList.tsx:9 | the sorted copy is a permutation of the store's list |
| NextActionList.SortSpec | app/lifeplan-navigator/src/components/NextActionList.tsx:9-15 | the shown list is a permutation of the store's list; incomplete actions come before completed ones; priorities are in order within each status; and actions of equal status and priority keep their store order (the sort is stable) |
| ChildrenInput.HandleAdd | app/lifeplan-navigator/src/components/onboarding/ChildrenInput.tsx:15-24 | below the maximum, a child aged 0 living at home is appended; at or above it, the list is unchanged |
| ChildrenInput.HandleRemove | app/lifeplan-navigator/src/components/onboarding/ChildrenInput.tsx:26-28 | an index within the list removes exactly that child and keeps the order of the rest; any other index leaves the list unchanged |
| ChildrenInput.Apply | app/lifeplan-navigator/src/components/onboarding/ChildrenInput.tsx:33 | the named field takes the value and the other field keeps its own |
| ChildrenInput.HandleChange | app/lifeplan-navigator/src/components/onboarding/ChildrenInput.tsx:30-36 | the list keeps its length; only the child at the index changes, by `Apply` |
| ChildrenInput.HandlersKeepBound | app/lifeplan-navigator/src/components/onboarding/ChildrenInput.tsx:17-36 | no handler takes a list within the maximum beyond it |
| ChildrenInput.RemoveUndoesAdd | app/lifeplan-navigator/src/components/onboarding/ChildrenInput.tsx:17-28 | removing the child just added restores the list |
| ChildrenInput.ChangeToSameIsIdentity | app/lifeplan-navigator/src/components/onboarding/ChildrenInput.tsx:30-36 | writing a field's current value back leaves the list as it is |
| Common.Without | app/lifeplan-navigator/src/app/dashboard/laws/page.tsx:102 | the filter keeps exactly the entries different from the query and never lengthens the list |
| LawsPage.RecentAfter | app/lifeplan-navigator/src/app/dashboard/laws/page.tsx:99-104 | the query comes first, does not recur later, the list holds one to five entries, and every entry is the query or an earlier search |
| LawsPage.RecentNoDup | app/lifeplan-navigator/src/app/dashboard/laws/page.tsx:102 | a list of recent searches without repeats stays without repeats |
| LawsPage.RecentKeepsLatest | app/lifeplan-navigator/src/app/dashboard/laws/page.tsx:102 | each of the four latest earlier searches is still in the list after a new one |
| LawsPage.Visible | app/lifeplan-navigator/src/app/dashboard/laws/page.tsx:118-121 | an action is shown exactly when it is listed and its id is neither completed nor dismissed |
| LawsPage.VisibleAppend | app/lifeplan-navigator/src/app/dashboard/laws/page.tsx:118-121 | filtering keeps the order: the visible part of two lists joined is the two visible parts joined |
| LawsPage.HiddenStaysHidden | app/lifeplan-navigator/src/app/dashboard/laws/page.tsx:109-121 | with more completed or dismissed ids, no action becomes visible again, and an action whose id is completed or dismissed is never shown |
| LawsPage.LawsDashboard.constructor | app/lifeplan-navigator/src/app/dashboard/laws/page.tsx:83-85 | the three lists start empty |
| LawsPage.LawsDashboard.HandleSearch | app/lifeplan-navigator/src/app/dashboard/laws/page.tsx:99-104 | the recent searches become `RecentAfter` of the old ones and stay within five entries without repeats; the action lists are unchanged |
| LawsPage.LawsDashboard.HandleActionComplete | app/lifeplan-navigator/src/app/dashboard/laws/page.tsx:109-111 | the id is appended to the completed list and nothing else changes |
| LawsPage.LawsDashboard.HandleActionDismiss | app/lifeplan-navigator/src/app/dashboard/laws/page.tsx:113-115 | the id is appended to the dismissed list and nothing else changes |
| LawsPage.LawsDashboard.VisibleActions | app/lifeplan-navigator/src/app/dashboard/laws/page.tsx:118-121 | no shown action has a completed or dismissed id |
| LawQuiz.CorrectCount | app/lifeplan-navigator/src/components/LawQuiz.tsx:91 | the number of correct answers is at most the number of answers |
| LawQuiz.KnowledgeScore | app/lifeplan-navigator/src/components/LawQuiz.tsx:93 | the score is `correct / total * 100` rounded half up: the exact ratio plus one half lies in [score, score + 1) |
| LawQuiz.ScoreBounds | app/lifeplan-navigator/src/components/LawQuiz.tsx:93 | the score lies between 0 and 100; it is 100 when all answers are correct and 0 when none is |
| LawQuiz.ScoreMonotone | app/lifeplan-navigator/src/components/LawQuiz.tsx:93 | more correct answers never lower the score |
| LawQuiz.StatusOf | app/lifeplan-navigator/src/components/LawQuiz.tsx:103-129 | the status is excellent exactly from 80 up and at risk exactly below 40 |
| LawQuiz.StatusAdvice | app/lifeplan-navigator/src/components/LawQuiz.tsx:103-129 | each band gives two or three distinct pieces of advice |
| LawQuiz.Find | app/lifeplan-navigator/src/components/LawQuiz.tsx:133 | a question found has the id and is in the list; nothing is found only when no question has the id |
| LawQuiz.TipsFor | app/lifeplan-navigator/src/components/LawQuiz.tsx:134-144 | a question adds at most one tip |
| LawQuiz.PushRecommendations | app/lifeplan-navigator/src/components/LawQuiz.tsx:100-145 | the loop leaves the band's advice followed by one tip per wrong answer whose question concerns furusato, ideco or nisa, in answer order |
| LawQuiz.Final | app/lifeplan-navigator/src/components/LawQuiz.tsx:152 | at most five recommendations, without repeats, each one from the list built |
| LawQuiz.FinalStartsWithAdvice | app/lifeplan-navigator/src/components/LawQuiz.tsx:103-152 | the band's advice survives de-duplication and the cut to five, in front and in order |
| LawQuiz.TipsOnlyForWrong | app/lifeplan-navigator/src/components/LawQuiz.tsx:132 | without wrong answers no tip is added |
| LawQuiz.MissedNone | app/lifeplan-navigator/src/components/LawQuiz.tsx:91-98 | with every answer correct, nothing is missed and the correct count is the number of answers |
| LawQuiz.MissedBounded | app/lifeplan-navigator/src/components/LawQuiz.tsx:96-98 | with non-negative savings, the missed savings lie between zero and the savings of all answered questions |
| LawQuiz.Quiz.constructor | app/lifeplan-navigator/src/components/LawQuiz.tsx:40-62 | the quiz starts at the first of a non-empty list of questions, with no results and no explanation shown |
| LawQuiz.Quiz.HandleAnswer | app/lifeplan-navigator/src/components/LawQuiz.tsx:66-81 | while the explanation is shown nothing changes; otherwise the answer is selected, the explanation shown, and a result recording the question, the answer, whether it is correct and the savings at stake (0 when none) is appended |
| LawQuiz.Quiz.HandleNext | app/lifeplan-navigator/src/components/LawQuiz.tsx:83-156 | before the last question it moves to the next one and clears the answer; on the last it completes the quiz with an evaluation judged from the questions and results |
| LawQuiz.PerfectQuiz | app/lifeplan-navigator/src/components/LawQuiz.tsx:89-153 | a quiz answered all correctly scores 100, is excellent, misses no savings and recommends exactly the excellent band's two lines |
| AuditService.EventCodeToSeverity | app/lifeplan-navigator/src/lib/audit/audit-service.ts:620-638 | the severity is INFO, WARN or ERROR; a code mentioning FAILURE or DENIED is WARN; it is ERROR exactly when no failure word but DETECTED, VIOLATION or ATTEMPT occurs; it is INFO exactly when none of the eight words occurs |
| AuditService.SeverityIsFirstRule | app/lifeplan-navigator/src/lib/audit/audit-service.ts:620-638 | the severity is the one of the first rule in the ordered rule list whose words the code mentions |
| AuditService.RiskLevelToSeverity | app/lifeplan-navigator/src/lib/audit/audit-service.ts:643-651 | each risk level maps to the severity one rank above it (LOW to INFO up to CRITICAL to CRITICAL) |
| AuditService.RiskOrderKept | app/lifeplan-navigator/src/lib/audit/audit-service.ts:643-651 | the mapping keeps the order of risk levels in both directions and is one-to-one |
| AuditService.SanitizePII | app/lifeplan-navigator/src/lib/audit/audit-service.ts:334-354 | the recursive walk returns the sanitised record, with the same keys in the same order |
| AuditService.SanitizedIsClean | app/lifeplan-navigator/src/lib/audit/audit-service.ts:334-354 | after sanitising, every key whose lower-case form contains a PII field name holds only the redaction mark or null, at any depth |
| AuditService.CleanIsUnchanged | app/lifeplan-navigator/src/lib/audit/audit-service.ts:334-354 | a record that is already clean is returned unchanged |
| AuditService.SanitizeFixedPoints | app/lifeplan-navigator/src/lib/audit/audit-service.ts:334-354 | sanitising leaves a record unchanged exactly when it is clean, and sanitising twice is sanitising once |
| AuditService.SanitizeExample | app/lifeplan-navigator/src/lib/audit/audit-service.ts:334-354 | with the default PII fields `userEmail` is redacted and `age` kept |
| AuditService.Stringify | app/lifeplan-navigator/src/lib/audit/audit-service.ts:366-369 | `JSON.stringify` gives no text exactly for `undefined` |
| AuditService.ChangedAmong | app/lifeplan-navigator/src/lib/audit/audit-service.ts:364-372 | a key is reported exactly when it is among the keys scanned and its JSON text differs between the two states |
| AuditService.GetChangedFields | app/lifeplan-navigator/src/lib/audit/audit-service.ts:359-373 | the loop over the union of keys returns exactly the changed-field list |
| AuditService.ChangedFieldsSpec | app/lifeplan-navigator/src/lib/audit/audit-service.ts:359-373 | a key is reported iff it is a key of either state whose JSON text differs; none is reported twice; comparing a state with itself reports nothing; a key added with a defined value is reported |
| AuditService.ChangedAmongNoDup | app/lifeplan-navigator/src/lib/audit/audit-service.ts:364-372 | scanning distinct keys reports distinct keys |
| AuditService.AllKeysMembers | app/lifeplan-navigator/src/lib/audit/audit-service.ts:363 | the set of scanned keys is the union of both states' keys |
| AuditService.NothingChangedAmong | app/lifeplan-navigator/src/lib/audit/audit-service.ts:364-372 | no key differs between a state and itself |
| AuditService.MaskAuthorization | app/lifeplan-navigator/src/lib/audit/audit-service.ts:399 | the masked value is at most ten characters followed by the redaction mark |
| AuditService.FilterHeaders | app/lifeplan-navigator/src/lib/audit/audit-service.ts:378-404 | the loop returns the filtered headers, absent when nothing is kept |
| AuditService.KeptHeadersSpec | app/lifeplan-navigator/src/lib/audit/audit-service.ts:378-404 | every kept header is an allowed header unchanged or the masked authorization header; every allowed header and every authorization header (masked) is kept |
| AuditService.FilterHeadersSpec | app/lifeplan-navigator/src/lib/audit/audit-service.ts:378-404 | the result is absent exactly when there are no headers or none is allowed or authorization; a present result is non-empty and holds only allowed or masked headers |
| Common.Put | app/lifeplan-navigator/src/lib/audit/audit-service.ts:335-350 | assigning a key makes it read back the value, leaves every other key as it was, and keeps the key order, appending a new key at the end |
| AuditService.OrElse | app/lifeplan-navigator/src/lib/audit/audit-service.ts:48-49 | `x \|\| fallback` is the fallback or a non-empty given value; with a non-empty fallback it is never empty |
| AuditService.EventDescription | app/lifeplan-navigator/src/lib/audit/audit-service.ts:596-615 | an unknown event code has an empty description |
| AuditService.DefaultConfig | app/lifeplan-navigator/src/lib/audit/audit-service.ts:46-58 | the default PII fields, asynchronous logging, batches of 100 and database output; console output exactly in development and remote output exactly in production, never both |
| AuditService.UnsetEnvironment | app/lifeplan-navigator/src/lib/audit/audit-service.ts:49-54 | with NODE_ENV unset the environment is named development but console output stays off |
| AuditService.MergeConfigLaws | app/lifeplan-navigator/src/lib/audit/audit-service.ts:670-672 | an empty update changes nothing, applying an update twice is applying it once, and two updates in a row are one combined update |
| AuditService.CreateAuditLog | app/lifeplan-navigator/src/lib/audit/audit-service.ts:242-329 | the record keeps the event type and code, takes its severity from the code, uses the request id as trace id when one is given, cuts the span id to 16 characters, hashes the lower-cased e-mail only when one is given, filters the headers, and holds body and metadata only when given and then sanitised |
| AuditService.SanitizedIsCleanOpt | app/lifeplan-navigator/src/lib/audit/audit-service.ts:300-325 | an optional body or metadata is clean once sanitised |
| AuditService.CreateAuditLogDefaults | app/lifeplan-navigator/src/lib/audit/audit-service.ts:256-321 | with nothing given, the actor is anonymous at 0.0.0.0 with an unknown agent, the target unknown, the request `UNKNOWN /` with the trace id, the response empty, and the host `browser` |
| AuditService.SecurityMetadata | app/lifeplan-navigator/src/lib/audit/audit-service.ts:176 | the metadata of a security event carries the risk level's name under `riskLevel` |
| AuditService.DbLogsAppend | app/lifeplan-navigator/src/lib/audit/audit-service.ts:429-481 | the records written to the database by two runs of outputs are those of the first then the second |
| AuditService.NoDbLogs | app/lifeplan-navigator/src/lib/audit/audit-service.ts:429-481 | console and remote outputs write nothing to the database |
| AuditService.DbLogsBetween | app/lifeplan-navigator/src/lib/audit/audit-service.ts:429-481 | console and remote outputs around a database write do not change what is stored |
| AuditService.DbLogsOfFlush | app/lifeplan-navigator/src/lib/audit/audit-service.ts:453-481 | a flush stores the whole buffer in order when database output is on, and nothing otherwise |
| AuditService.DbLogsOfImmediate | app/lifeplan-navigator/src/lib/audit/audit-service.ts:429-448 | an immediate write stores the one record when database output is on, and nothing otherwise |
| AuditService.WriteEach | app/lifeplan-navigator/src/lib/audit/audit-service.ts:459-477 | the loop starts one remote send per record when an endpoint is set, else one console line per record, in order |
| AuditService.FlushKeepsStored | app/lifeplan-navigator/src/lib/audit/audit-service.ts:453-481 | a flush empties the buffer, keeps the configuration and, with database output on, loses no record: stored plus buffered is unchanged |
| AuditService.PersistImmediateStored | app/lifeplan-navigator/src/lib/audit/audit-service.ts:409-424 | when shutting down or logging synchronously, the new record is stored at once, ahead of any records still buffered |
| AuditService.PersistBufferedStored | app/lifeplan-navigator/src/lib/audit/audit-service.ts:409-424 | when logging asynchronously the new record joins the end of stored plus buffered, whether or not the batch is flushed |
| AuditService.PersistKeepsStored | app/lifeplan-navigator/src/lib/audit/audit-service.ts:409-424 | with database output on, persisting adds exactly the new record to the stored and buffered records, at the end when the buffer was empty or logging is asynchronous |
| AuditService.PersistBoundsBuffer | app/lifeplan-navigator/src/lib/audit/audit-service.ts:409-424 | in asynchronous mode the buffer stays below the batch size (at least one); otherwise persisting leaves the buffer alone |
| AuditService.ShutdownDrains | app/lifeplan-navigator/src/lib/audit/audit-service.ts:656-665 | after shutdown the buffer is empty, the timer is gone, and every later record is written at once |
| AuditService.AuditLogService.constructor | app/lifeplan-navigator/src/lib/audit/audit-service.ts:66-72 | the service starts with the defaults overridden by the given settings, an empty buffer and the flush timer running exactly in asynchronous mode |
| AuditService.AuditLogService.PersistLogImmediately | app/lifeplan-navigator/src/lib/audit/audit-service.ts:429-448 | the record goes to the console, the database and the remote endpoint as configured; the buffer is untouched |
| AuditService.AuditLogService.FlushLogs | app/lifeplan-navigator/src/lib/audit/audit-service.ts:453-481 | the buffer is taken and emptied and its records written as one batch and one output each |
| AuditService.AuditLogService.PersistLog | app/lifeplan-navigator/src/lib/audit/audit-service.ts:409-424 | when shutting down or synchronous the record is written at once; otherwise buffered, and the buffer flushed when it reaches the batch size |
| AuditService.AuditLogService.LogAuthentication | app/lifeplan-navigator/src/lib/audit/audit-service.ts:77-99 | an AUTH record without target is built and persisted |
| AuditService.AuditLogService.LogDataAccess | app/lifeplan-navigator/src/lib/audit/audit-service.ts:100-123 | a DATA record with the target is built and persisted |
| AuditService.AuditLogService.LogDataModification | app/lifeplan-navigator/src/lib/audit/audit-service.ts:124-160 | a DATA record whose target carries both states sanitised and the changed fields is built and persisted |
| AuditService.AuditLogService.LogSecurityEvent | app/lifeplan-navigator/src/lib/audit/audit-service.ts:161-188 | a `SEC` record with the risk level, its severity and the level in the metadata is written at once |
| AuditService.AuditLogService.LogAdminAction | app/lifeplan-navigator/src/lib/audit/audit-service.ts:189-213 | an ADMIN record with the target is written at once |
| AuditService.AuditLogService.LogSystemEvent | app/lifeplan-navigator/src/lib/audit/audit-service.ts:214-237 | a SYSTEM record from the system actor is built and persisted |
| AuditService.AuditLogService.Shutdown | app/lifeplan-navigator/src/lib/audit/audit-service.ts:656-665 | the service is marked shutting down, the timer stopped and the buffer flushed |
| AuditService.AuditLogService.UpdateConfig | app/lifeplan-navigator/src/lib/audit/audit-service.ts:670-672 | the given settings override the current ones and nothing else changes |
| AuditService.AuditLogService.GetBufferSize | app/lifeplan-navigator/src/lib/audit/audit-service.ts:677-679 | the number of buffered records |
| AuditMiddleware.NonEmpty | app/lifeplan-navigator/src/lib/audit/audit-middleware.ts:32-34 | `headers.get(x) \|\| undefined` is present exactly when the header is present and non-empty, and then it is the header |
| AuditMiddleware.ClientIpSpec | app/lifeplan-navigator/src/lib/audit/audit-middleware.ts:37-39 | the client address is never empty; it is the trimmed first entry of `x-forwarded-for` when that is non-empty (then without commas or surrounding spaces), otherwise `x-real-ip` or 0.0.0.0 |
| AuditMiddleware.ExtractActor | app/lifeplan-navigator/src/lib/audit/audit-middleware.ts:30-51 | the actor is a user exactly when a non-empty `x-user-id` is given, else anonymous; address and agent are never empty |
| AuditMiddleware.AssignAllSpec | app/lifeplan-navigator/src/lib/audit/audit-middleware.ts:59-66 | copying entries into an object keeps each key once, in first-seen order, with its last value |
| AuditMiddleware.ContentLength | app/lifeplan-navigator/src/lib/audit/audit-middleware.ts:74 | a content length, when kept, is never zero |
| AuditMiddleware.ContentLengthAbsent | app/lifeplan-navigator/src/lib/audit/audit-middleware.ts:74 | a missing, empty, zero or non-numeric header gives no content length |
| AuditMiddleware.ContentLengthOfDecimal | app/lifeplan-navigator/src/lib/audit/audit-middleware.ts:74 | a positive decimal header is taken as its number |
| AuditMiddleware.ExtractRequestInfo | app/lifeplan-navigator/src/lib/audit/audit-middleware.ts:56-77 | the two copying loops give the request description |
| AuditMiddleware.RequestInfoSpec | app/lifeplan-navigator/src/lib/audit/audit-middleware.ts:56-77 | the query is absent exactly when there are no search parameters, a non-empty request id is kept, and no body is recorded |
| AuditMiddleware.CreateResponseInfo | app/lifeplan-navigator/src/lib/audit/audit-middleware.ts:82-99 | the status is kept, success means 200 to 399, the duration is the time elapsed, and the error fields and size are passed on |
| AuditMiddleware.AuditCallSpec | app/lifeplan-navigator/src/lib/audit/audit-middleware.ts:142-208 | nothing is logged exactly for a successful answer with skipOnSuccess or a throw with skipOnFailure; a logged call has the configured event type (DATA by default) and the body; a throw is logged as 500 INTERNAL_ERROR with the error message (or `Unknown error`); a redirect counts as success |
| AuditMiddleware.LoggedRecord | app/lifeplan-navigator/src/lib/audit/audit-middleware.ts:213-238 | a security call is logged as a data access, and no risk level is set |
| AuditMiddleware.LogByEventType | app/lifeplan-navigator/src/lib/audit/audit-middleware.ts:213-238 | each event type is handed to its logging method: AUTH, DATA (as access or modification), ADMIN and SYSTEM, with SECURITY falling to data access |
| AuditMiddleware.WithAuditLog | app/lifeplan-navigator/src/lib/audit/audit-middleware.ts:142-208 | the handler's outcome is passed on unchanged, and the service changes exactly by the one log call the outcome asks for, or not at all |
| Pool.GetDatabaseConfig | app/lifeplan-navigator/src/lib/database/pool.ts:28-42 | TLS exactly in production; the connection string is empty exactly when DATABASE_URL is unset or empty; the pool size is the decimal parse of its variable or 10 |
| Pool.DatabaseConfigDefaults | app/lifeplan-navigator/src/lib/database/pool.ts:28-42 | with nothing set: mock mode, 10 connections, 10000 ms idle, 5000 ms connection timeout, no TLS |
| Pool.DatabaseConfigOfDecimal | app/lifeplan-navigator/src/lib/database/pool.ts:37 | a pool size written in decimal is taken as that number |
| Pool.FlattenLength | app/lifeplan-navigator/src/lib/database/pool.ts:116 | rows of equal width flatten to rows times width values |
| Pool.FlattenAt | app/lifeplan-navigator/src/lib/database/pool.ts:116 | value c of row r lands at position r × width + c |
| Pool.PlaceholderAligned | app/lifeplan-navigator/src/lib/database/pool.ts:111-116 | the placeholders run from $1 to rows × width, and the one written for row r, column c names exactly that row's value in the flat parameter list |
| Pool.DatabasePool.constructor | app/lifeplan-navigator/src/lib/database/pool.ts:48-54 | a new pool has the configuration from the environment, is not connected and has run nothing |
| Pool.DatabasePool.IsHealthy | app/lifeplan-navigator/src/lib/database/pool.ts:157-159 | a mock pool is always healthy; a real one only when connected |
| Pool.DatabasePool.Connect | app/lifeplan-navigator/src/lib/database/pool.ts:59-71 | in mock mode nothing changes, otherwise the pool is connected; either way it is healthy afterwards |
| Pool.DatabasePool.Close | app/lifeplan-navigator/src/lib/database/pool.ts:147-152 | the pool is disconnected and healthy afterwards only in mock mode |
| Pool.DatabasePool.Query | app/lifeplan-navigator/src/lib/database/pool.ts:76-93 | the statement is recorded and answered with no rows, in both modes |
| Pool.DatabasePool.BatchInsert | app/lifeplan-navigator/src/lib/database/pool.ts:98-120 | no rows: 0 and nothing run; mock mode: the row count and nothing run; otherwise one multi-row INSERT is run and its row count returned |
| Pool.DatabasePool.HealthCheck | app/lifeplan-navigator/src/lib/database/pool.ts:125-142 | mock mode is healthy with no latency and runs nothing; otherwise `SELECT 1` is run and the elapsed time reported |
| AuditRepository.ColumnNames | app/lifeplan-navigator/src/lib/database/audit-repository.ts:21-34 | one column name per column, in order |
| AuditRepository.NumberedPlaceholders | app/lifeplan-navigator/src/lib/database/audit-repository.ts:35-50 | placeholders $1 to $n in order |
| AuditRepository.ColumnValues | app/lifeplan-navigator/src/lib/database/audit-repository.ts:52-100 | one parameter per column, each the column's value of the record |
| AuditRepository.InsertByColumn | app/lifeplan-navigator/src/lib/database/audit-repository.ts:52-100 | the 47 parameters, written group by group, are the record's values column by column |
| AuditRepository.InsertAligned | app/lifeplan-navigator/src/lib/database/audit-repository.ts:17-103 | 47 columns, 47 placeholders $1..$47 and 47 parameters, and the parameter at each placeholder is the value of the column named at the same position |
| AuditRepository.InsertStatements | app/lifeplan-navigator/src/lib/database/audit-repository.ts:108-127 | one insert statement per record |
| AuditRepository.InsertAuditLog | app/lifeplan-navigator/src/lib/database/audit-repository.ts:17-103 | exactly the record's insert statement is run |
| AuditRepository.InsertAuditLogBatch | app/lifeplan-navigator/src/lib/database/audit-repository.ts:108-127 | every record is inserted, one statement each in order, and the count of records is returned |
| AuditRepository.Conditions | app/lifeplan-navigator/src/lib/database/audit-repository.ts:149-186 | one condition per filter, the k-th comparing against placeholder $k |
| AuditRepository.FilterParams | app/lifeplan-navigator/src/lib/database/audit-repository.ts:149-186 | one parameter per filter, its value |
| AuditRepository.FiltersCount | app/lifeplan-navigator/src/lib/database/audit-repository.ts:149-186 | there is one filter per criterion given (at most seven), and as many conditions and parameters |
| AuditRepository.WhereIffFiltered | app/lifeplan-navigator/src/lib/database/audit-repository.ts:188 | the WHERE clause is empty exactly when no criterion is given |
| AuditRepository.SelectStatementSpec | app/lifeplan-navigator/src/lib/database/audit-repository.ts:188-208 | the page query takes the filter parameters then limit and offset; the limit defaults to 100 and the offset to 0 (also for 0); each condition's placeholder names its own value |
| AuditRepository.AddFilter | app/lifeplan-navigator/src/lib/database/audit-repository.ts:149-186 | adding a filter keeps conditions, parameters and the next placeholder number aligned |
| AuditRepository.BuildConditions | app/lifeplan-navigator/src/lib/database/audit-repository.ts:145-186 | the seven checks build exactly the conditions and parameters of the criteria given, with the next placeholder after them |
| AuditRepository.CountText | app/lifeplan-navigator/src/lib/database/audit-repository.ts:198 | the count field of the first row, or `0` |
| AuditRepository.NoRowsCountZero | app/lifeplan-navigator/src/lib/database/audit-repository.ts:198 | with no rows, or a first row whose `count` is missing, not text or empty, the total is 0; a non-empty text count is passed on as it is |
| AuditRepository.QueryAuditLogs | app/lifeplan-navigator/src/lib/database/audit-repository.ts:144-216 | the count query then the page query are run, and (the pool answering with no rows) no records and a total of 0 are returned |
| AuditRepository.GetResourceAuditTrail | app/lifeplan-navigator/src/lib/database/audit-repository.ts:221-238 | one query by target type and id, limited to the given count or 50 |
| AuditRepository.SliceFrom | app/lifeplan-navigator/src/lib/database/audit-repository.ts:252 | `slice(start)` with a non-negative start drops that many, with a negative one keeps that many from the end |
| AuditRepository.ValidSeveritiesSpec | app/lifeplan-navigator/src/lib/database/audit-repository.ts:250-252 | a severity is selected exactly when it ranks at least the minimum, which comes first; an unknown minimum selects only CRITICAL |
| AuditRepository.NamesInOrder | app/lifeplan-navigator/src/lib/database/audit-repository.ts:250 | the severity list holds each severity once, at its rank |
| AuditRepository.GetSecurityEvents | app/lifeplan-navigator/src/lib/database/audit-repository.ts:243-268 | one query between the two dates over the severities from the minimum (WARN by default) |
| BenefitsRoute.SanitizeKeyword | app/lifeplan-navigator/src/app/api/benefits/route.ts:107-112 | a sanitised keyword is at most 100 characters long and holds no angle bracket |
| BenefitsRoute.FilterMembers | app/lifeplan-navigator/src/app/api/benefits/route.ts:137-163 | a benefit is kept by a filter step iff it was in the list and passes the step's test |
| BenefitsRoute.FilterTwice | app/lifeplan-navigator/src/app/api/benefits/route.ts:136-164 | two filter steps in a row keep exactly what one step testing both keeps |
| BenefitsRoute.FilterKeepsAll | app/lifeplan-navigator/src/app/api/benefits/route.ts:136-164 | a step that every benefit passes keeps the list as it is |
| BenefitsRoute.SelectedSpec | app/lifeplan-navigator/src/app/api/benefits/route.ts:136-164 | a benefit is selected iff it is in the catalogue and meets every criterion given: keyword in title or description, category, nationwide or the prefecture asked for (unless that is 全国), life stage |
| BenefitsRoute.NoCriteria | app/lifeplan-navigator/src/app/api/benefits/route.ts:136-164 | without criteria the whole catalogue is selected |
| BenefitsRoute.Narrow | app/lifeplan-navigator/src/app/api/benefits/route.ts:136-164 | the filter steps applied one after another give the selection |
| BenefitsRoute.CompareOrder | app/lifeplan-navigator/src/app/api/benefits/route.ts:167-181 | each comparator is antisymmetric and its "not after" relation is transitive |
| BenefitsRoute.Insert | app/lifeplan-navigator/src/app/api/benefits/route.ts:167-181 | inserting keeps every benefit and adds one |
| BenefitsRoute.HeadSorted | app/lifeplan-navigator/src/app/api/benefits/route.ts:167-181 | a head not after the first element of a sorted list keeps it sorted |
| BenefitsRoute.InsertSorted | app/lifeplan-navigator/src/app/api/benefits/route.ts:167-181 | inserting into a sorted list keeps it sorted |
| BenefitsRoute.SortSorted | app/lifeplan-navigator/src/app/api/benefits/route.ts:167-181 | the sorted list is ordered by the comparator |
| BenefitsRoute.SortPermutes | app/lifeplan-navigator/src/app/api/benefits/route.ts:167-181 | sorting keeps exactly the same benefits |
| BenefitsRoute.SortSpec | app/lifeplan-navigator/src/app/api/benefits/route.ts:167-181 | the sort is a permutation; by deadline, dated benefits come first in ascending order and undated ones last; by amount, amounts descend with a missing amount as 0; otherwise high priority before medium before low |
| BenefitsRoute.PageOf | app/lifeplan-navigator/src/app/api/benefits/route.ts:130 | the page is at least 1, and a page number of at least 1 is kept |
| BenefitsRoute.LimitOf | app/lifeplan-navigator/src/app/api/benefits/route.ts:131 | the limit is between 1 and 100, a limit in that range is kept, and NaN or 0 gives 20 |
| BenefitsRoute.PageCountBounds | app/lifeplan-navigator/src/app/api/benefits/route.ts:184 | the page count is the least number of pages of the limit holding every match |
| BenefitsRoute.PageSpec | app/lifeplan-navigator/src/app/api/benefits/route.ts:183-186 | a page holds at most the limit, and is non-empty iff its number is at most the page count |
| BenefitsRoute.PageHolds | app/lifeplan-navigator/src/app/api/benefits/route.ts:185-186 | the pages cover the list without gaps: item i is on page i / limit + 1 at position i % limit |
| BenefitsRoute.NonEmptyParam | app/lifeplan-navigator/src/app/api/benefits/route.ts:120-123 | a parameter counts as given iff it is present and not empty, and then it is its first value |
| BenefitsRoute.Search | app/lifeplan-navigator/src/app/api/benefits/route.ts:114-193 | the reply is the requested page of the sorted selection, with the number of matches, the clamped page number and the page count |
| BenefitsRoute.ReplySpec | app/lifeplan-navigator/src/app/api/benefits/route.ts:114-193 | the reply's page number is at least 1, its page at most the limit (1 to 100) long, each benefit shown is in the catalogue and meets the criteria, and it is empty iff the page lies beyond the last |
| BenefitsRoute.ShownIsSelected | app/lifeplan-navigator/src/app/api/benefits/route.ts:185-186 | a benefit on a page is one of the sorted results |
| BenefitsRoute.DefaultQuery | app/lifeplan-navigator/src/app/api/benefits/route.ts:119-131 | without parameters the search shows page 1 of 20 of the whole catalogue, ordered by priority |
| BenefitsRoute.DefaultPage | app/lifeplan-navigator/src/app/api/benefits/route.ts:126-130 | without a page parameter the page is 1 |
| BenefitsRoute.DefaultLimit | app/lifeplan-navigator/src/app/api/benefits/route.ts:127-131 | without a limit parameter the limit is 20 |
| OnboardingRoute.EmailTestSpec | app/lifeplan-navigator/src/app/api/onboarding/route.ts:32-36 | the scan accepts a text iff it is a run, `@`, a run, `.`, a run, with no white space or `@` in any run |
| OnboardingRoute.Coalesce | app/lifeplan-navigator/src/app/api/onboarding/route.ts:273-283 | `v ?? d` is `v` unless `v` is null or undefined, and `d` then |
| OnboardingRoute.ValidateChildren | app/lifeplan-navigator/src/app/api/onboarding/route.ts:230-237 | the loop accepts iff every child is an object with a numeric age from 0 to 25 and a boolean `isCohabiting` |
| OnboardingRoute.ValidateEvents | app/lifeplan-navigator/src/app/api/onboarding/route.ts:248-255 | the loop accepts iff every planned event is a value of the enumeration |
| OnboardingRoute.FieldErrorSpec | app/lifeplan-navigator/src/app/api/onboarding/route.ts:166-214 | the single-valued fields pass iff each given one is valid: age 18 to 100, enumeration values, region a string of at most 10 characters |
| OnboardingRoute.ChildrenErrorSpec | app/lifeplan-navigator/src/app/api/onboarding/route.ts:217-238 | `children` passes iff it is absent or an array of at most 10 valid children |
| OnboardingRoute.EventsErrorSpec | app/lifeplan-navigator/src/app/api/onboarding/route.ts:241-256 | `plannedEvents` passes iff it is absent or an array of enumeration values |
| OnboardingRoute.EmailErrorSpec | app/lifeplan-navigator/src/app/api/onboarding/route.ts:259-266 | an address passes iff it is falsy or its text matches the pattern |
| OnboardingRoute.PostErrorSpec | app/lifeplan-navigator/src/app/api/onboarding/route.ts:166-266 | a POST body passes iff every field given is valid; null counts as absent except for the two arrays |
| OnboardingRoute.CheckFields | app/lifeplan-navigator/src/app/api/onboarding/route.ts:166-214 | the checks run in order and the first failure names its field |
| OnboardingRoute.CheckChildren | app/lifeplan-navigator/src/app/api/onboarding/route.ts:217-238 | non-array, more than 10, and an invalid child give their own 400 answers |
| OnboardingRoute.CheckEvents | app/lifeplan-navigator/src/app/api/onboarding/route.ts:241-256 | a non-array and an invalid event give their own 400 answers |
| OnboardingRoute.CheckBody | app/lifeplan-navigator/src/app/api/onboarding/route.ts:166-266 | the first failing check of the body, in the handler's order, is the answer |
| OnboardingRoute.PostStoresSound | app/lifeplan-navigator/src/app/api/onboarding/route.ts:271-286 | a profile stored by POST satisfies every field rule |
| OnboardingRoute.PostDefaults | app/lifeplan-navigator/src/app/api/onboarding/route.ts:271-286 | an empty body passes and stores nulls, false flags, empty lists and an empty address, keeping an earlier `createdAt` |
| OnboardingRoute.CheckPatch | app/lifeplan-navigator/src/app/api/onboarding/route.ts:331-359 | only the fields the body names are checked: age null or 18 to 100, employment type null or valid, address falsy or valid |
| OnboardingRoute.PatchFrame | app/lifeplan-navigator/src/app/api/onboarding/route.ts:328-373 | PATCH changes only age, employment type, address and the two flags, each only when named, flags become booleans, and `updatedAt` is stamped |
| OnboardingRoute.PatchKeepsSound | app/lifeplan-navigator/src/app/api/onboarding/route.ts:331-373 | a PATCH that passes its checks keeps a sound profile sound |
| OnboardingRoute.StoreKeepsValid | app/lifeplan-navigator/src/app/api/onboarding/route.ts:288 | storing a sound profile under the demo id keeps every stored profile sound |
| OnboardingRoute.OnboardingProfiles.constructor | app/lifeplan-navigator/src/app/api/onboarding/route.ts:15 | the map starts empty |
| OnboardingRoute.OnboardingProfiles.Get | app/lifeplan-navigator/src/app/api/onboarding/route.ts:84-132 | 401 without a session cookie, "not completed" without a profile, otherwise the sound stored profile |
| OnboardingRoute.OnboardingProfiles.Post | app/lifeplan-navigator/src/app/api/onboarding/route.ts:138-301 | 401 without a cookie, 500 for a body that is not JSON or is null, the first failing check's 400, otherwise the new profile is stored and returned; stored profiles stay sound |
| OnboardingRoute.OnboardingProfiles.Patch | app/lifeplan-navigator/src/app/api/onboarding/route.ts:307-388 | 401 without a cookie, 404 without a profile (before the body is read), 500 for a body that is not an object, the first failing check's 400, otherwise the patched profile is stored and returned |
| UserProfileRoute.ErrorText | app/lifeplan-navigator/src/app/api/user/profile/route.ts:120-276 | every answer other than 200 carries an error text: the sign-in, not-found and unexpected-error messages, or the rejected field's message |
| UserProfileRoute.IsValidNameSpec | app/lifeplan-navigator/src/app/api/user/profile/route.ts:59-65 | `isValidName` on a string is the registration form's name check: not blank, at most 100 characters once trimmed, each a letter, digit, space, `-` or `'` |
| UserProfileRoute.TrimmedNameValid | app/lifeplan-navigator/src/app/api/user/profile/route.ts:151 | a valid name stays valid once trimmed, and trimming it again changes nothing |
| UserProfileRoute.StoredAccepted | app/lifeplan-navigator/src/app/api/user/profile/route.ts:143-247 | what an accepted present value is stored as (trimmed name, `Number(v)`, `Boolean(v)`, or the value) is itself present and accepted |
| UserProfileRoute.HasChildrenAlwaysAccepted | app/lifeplan-navigator/src/app/api/user/profile/route.ts:221-224 | `hasChildren` never causes a 400 |
| UserProfileRoute.ReadWrite | app/lifeplan-navigator/src/app/api/user/profile/route.ts:143-247 | an assignment changes exactly its own field, to the stored form of the value, and leaves the id, the e-mail address and `updatedAt` alone |
| UserProfileRoute.FromStops | app/lifeplan-navigator/src/app/api/user/profile/route.ts:143-247 | the field-by-field update stops exactly at the first field in checking order that is present with a rejected value; every field before it is absent or accepted |
| UserProfileRoute.FromKeeps | app/lifeplan-navigator/src/app/api/user/profile/route.ts:143-247 | the field updates never change the id, the e-mail address or `updatedAt` |
| UserProfileRoute.FromReads | app/lifeplan-navigator/src/app/api/user/profile/route.ts:143-247 | after the update each present field checked before the stop holds the stored form of its value, and every other field is as it was |
| UserProfileRoute.RouteStoresAccepted | app/lifeplan-navigator/src/app/api/user/profile/route.ts:143-247 | the route's stored forms of accepted values are themselves accepted |
| UserProfileRoute.DemoProfileSound | app/lifeplan-navigator/src/app/api/user/profile/route.ts:26-40 | the demo profile the store starts with satisfies every field rule of PUT |
| UserProfileRoute.WriteSound | app/lifeplan-navigator/src/app/api/user/profile/route.ts:143-247 | an accepted write keeps a profile that satisfies the field rules satisfying them |
| UserProfileRoute.StoreKeepsSound | app/lifeplan-navigator/src/app/api/user/profile/route.ts:7 | storing a sound profile under the demo id keeps every stored profile sound |
| UserProfileRoute.PutRefusals | app/lifeplan-navigator/src/app/api/user/profile/route.ts:122-138 | PUT answers 401 exactly without a session cookie and 404 exactly when signed in without a profile; neither changes the store |
| UserProfileRoute.PutKeepsEmail | app/lifeplan-navigator/src/app/api/user/profile/route.ts:120-276 | no outcome of PUT changes the e-mail address, the id, the set of stored users or another user's profile |
| UserProfileRoute.PutSucceedsIff | app/lifeplan-navigator/src/app/api/user/profile/route.ts:120-268 | PUT succeeds exactly when signed in, with a profile and a JSON body other than null whose every present field is accepted |
| UserProfileRoute.PutSuccess | app/lifeplan-navigator/src/app/api/user/profile/route.ts:143-268 | a successful PUT stores and returns the profile with every present field in its stored form and every absent one as it was, the e-mail kept and `updatedAt` stamped |
| UserProfileRoute.PutStoresTrimmedName | app/lifeplan-navigator/src/app/api/user/profile/route.ts:144-152 | after a successful PUT with a name, the name passed `isValidName` and is stored trimmed |
| UserProfileRoute.PutRejection | app/lifeplan-navigator/src/app/api/user/profile/route.ts:143-247 | a 400 names the first present field in checking order that is rejected; the present fields before it stay written, later ones are not, and `updatedAt` is not stamped |
| UserProfileRoute.UserProfiles.constructor | app/lifeplan-navigator/src/app/api/user/profile/route.ts:25-40 | the store holds exactly the demo profile, and it is sound |
| UserProfileRoute.UserProfiles.Get | app/lifeplan-navigator/src/app/api/user/profile/route.ts:71-114 | GET answers 401 without a session cookie, 404 without a profile, and otherwise the stored profile, which satisfies the field rules |
| UserProfileRoute.UserProfiles.WriteField | app/lifeplan-navigator/src/app/api/user/profile/route.ts:143-247 | one check-and-assign block: the field is accepted iff absent or valid; an accepted present value is written into the stored profile at once; the block keeps the update's course |
| UserProfileRoute.UserProfiles.WritePersonal | app/lifeplan-navigator/src/app/api/user/profile/route.ts:143-197 | the blocks for name, prefecture, city, occupation and annual income stop at the first rejected field, writing those before it |
| UserProfileRoute.UserProfiles.WriteHousehold | app/lifeplan-navigator/src/app/api/user/profile/route.ts:199-247 | the blocks for birth date, marital status, children and housing type continue the update the same way |
| UserProfileRoute.UserProfiles.Update | app/lifeplan-navigator/src/app/api/user/profile/route.ts:143-268 | the ten blocks then the `updatedAt` stamp store and answer exactly what the field-by-field update gives |
| UserProfileRoute.UserProfiles.Put | app/lifeplan-navigator/src/app/api/user/profile/route.ts:120-276 | the handler's store and answer are those of the PUT specification, and every stored profile stays sound |
| NotificationsRoute.RankToggleAt | app/lifeplan-navigator/src/app/api/user/notifications/route.ts:130-178 | the five check-and-assign blocks are numbered in source order without gaps or repeats |
| NotificationsRoute.Defaults | app/lifeplan-navigator/src/app/api/user/notifications/route.ts:105-118 | the default settings belong to the given user, are stamped with the given time, and have every toggle on except push notifications |
| NotificationsRoute.SetFlag | app/lifeplan-navigator/src/app/api/user/notifications/route.ts:137 | assigning a toggle sets exactly that toggle and keeps the other four, the user and the time stamp |
| NotificationsRoute.FirstRejectedSpec | app/lifeplan-navigator/src/app/api/user/notifications/route.ts:130-178 | the update stops at a toggle that is present and not a boolean, and every toggle checked before it is absent or a boolean |
| NotificationsRoute.AssignedFlags | app/lifeplan-navigator/src/app/api/user/notifications/route.ts:130-178 | after the first blocks each toggle among them given as a boolean holds it and every other toggle, the user and the time stamp are as they were |
| NotificationsRoute.AssignedNone | app/lifeplan-navigator/src/app/api/user/notifications/route.ts:120-129 | before any block runs the settings are unchanged |
| NotificationsRoute.AssignStep | app/lifeplan-navigator/src/app/api/user/notifications/route.ts:130-138 | one block takes the settings after the blocks before it to the settings after it: a boolean is assigned, an absent toggle skipped |
| NotificationsRoute.ErrorText | app/lifeplan-navigator/src/app/api/user/notifications/route.ts:94-201 | every answer other than 200 carries an error text: the sign-in message, the unexpected-error message or the rejected toggle's message |
| NotificationsRoute.ApplyRejects | app/lifeplan-navigator/src/app/api/user/notifications/route.ts:130-178 | when the first rejected toggle is t, the answer is t's 400 and only stored settings keep the assignments made before it |
| NotificationsRoute.ApplyAccepts | app/lifeplan-navigator/src/app/api/user/notifications/route.ts:180-193 | when no toggle is rejected, the settings with every assignment made are stamped, stored and returned |
| NotificationsRoute.PutRefusals | app/lifeplan-navigator/src/app/api/user/notifications/route.ts:94-201 | PUT answers 401 exactly without a session cookie and 500 exactly for a body that is not JSON or is null; neither changes the store |
| NotificationsRoute.PutSucceedsIff | app/lifeplan-navigator/src/app/api/user/notifications/route.ts:94-201 | PUT succeeds exactly when signed in with a JSON body other than null that gives no toggle a value other than a boolean |
| NotificationsRoute.PutSuccess | app/lifeplan-navigator/src/app/api/user/notifications/route.ts:105-193 | a successful PUT stores and returns the settings with every toggle given as a boolean set to it and every other toggle as stored (or as its default when none were stored), stamped with the time |
| NotificationsRoute.RejectionAt | app/lifeplan-navigator/src/app/api/user/notifications/route.ts:105-178 | past the guards, a 400 names the first rejected toggle; stored settings keep the toggles before it assigned and their old time stamp; without stored settings nothing is stored |
| NotificationsRoute.PutRejection | app/lifeplan-navigator/src/app/api/user/notifications/route.ts:94-201 | a 400 names the first toggle in checking order that is present and not a boolean; stored settings keep the toggles before it assigned, unstamped; defaults made for the request are not stored |
| NotificationsRoute.PutEmptyBodyStamps | app/lifeplan-navigator/src/app/api/user/notifications/route.ts:105-193 | a body naming none of the toggles only stamps the settings, storing the defaults when there were none |
| NotificationsRoute.NotificationSettingsStore.constructor | app/lifeplan-navigator/src/app/api/user/notifications/route.ts:19-28 | the store holds exactly the demo user's default settings |
| NotificationsRoute.NotificationSettingsStore.Get | app/lifeplan-navigator/src/app/api/user/notifications/route.ts:46-88 | GET answers 401 without a session cookie and changes nothing; otherwise it answers the stored settings, creating and storing the defaults first when there are none |
| NotificationsRoute.NotificationSettingsStore.Assign | app/lifeplan-navigator/src/app/api/user/notifications/route.ts:130-178 | one block: a toggle is accepted iff absent or boolean; a boolean is written into the stored settings at once when they existed; the block keeps the update on course |
| NotificationsRoute.NotificationSettingsStore.Update | app/lifeplan-navigator/src/app/api/user/notifications/route.ts:105-193 | the five blocks then the stamp and the store give exactly the store and answer of the update specification |
| NotificationsRoute.NotificationSettingsStore.Put | app/lifeplan-navigator/src/app/api/user/notifications/route.ts:94-201 | the handler's store and answer are those of the PUT specification, and stored settings stay filed under their own user |
| SettingsRoute.SpreadGet | app/lifeplan-navigator/src/app/api/settings/route.ts:88-92 | after an object spread a key reads as in the copied entries when they have it, and as before otherwise |
| SettingsRoute.MergeGet | app/lifeplan-navigator/src/app/api/settings/route.ts:137 | `{ ...a, ...b }` reads `b`'s entry for a key `b` has and `a`'s entry otherwise |
| SettingsRoute.Stamp | app/lifeplan-navigator/src/app/api/settings/route.ts:52-56 | a save sets `updatedAt` to the request time and keeps every other entry |
| SettingsRoute.MaskedSpec | app/lifeplan-navigator/src/app/api/settings/route.ts:63-70 | masking fails exactly when `email` is null or missing; otherwise every other entry and every other e-mail entry is kept, and `apiKey` shows the mask for a non-empty key and "" for an empty one |
| SettingsRoute.MaskHidesKey | app/lifeplan-navigator/src/app/api/settings/route.ts:63-70 | a masked reply never shows a stored key: its `apiKey` is the mask or "" |
| SettingsRoute.Reply | app/lifeplan-navigator/src/app/api/settings/route.ts:72-79 | a reply answers the settings exactly when masking succeeds, and 500 with the handler's message otherwise |
| SettingsRoute.DefaultsShape | app/lifeplan-navigator/src/app/api/settings/route.ts:10-28 | the defaults have no user, an empty API key, onboarding not completed and `updatedAt` at module load |
| SettingsRoute.FreshGet | app/lifeplan-navigator/src/app/api/settings/route.ts:40-80 | without a settings file GET answers the defaults: no user, an empty key, onboarding not completed, the module-load time |
| SettingsRoute.PutRefusals | app/lifeplan-navigator/src/app/api/settings/route.ts:83-118 | a body that is not JSON or is `null` answers 500 and leaves the file as it was |
| SettingsRoute.SplicedGet | app/lifeplan-navigator/src/app/api/settings/route.ts:88-92 | the spliced settings take the body's entry for each key it has, the loaded entry otherwise, and `updatedAt` from the request |
| SettingsRoute.PutChangeMasked | app/lifeplan-navigator/src/app/api/settings/route.ts:94-97 | when the body sends the mask, the saved e-mail settings are the body's with the stored key, and the other entries are the spliced ones |
| SettingsRoute.PutStoresEntries | app/lifeplan-navigator/src/app/api/settings/route.ts:88-99 | a PUT that reaches the save stores each body entry over the loaded one, stamped with the request time |
| SettingsRoute.PutStoresEmail | app/lifeplan-navigator/src/app/api/settings/route.ts:88-99 | the saved `email` is the body's or the loaded one; when the body sends the mask it keeps the loaded key and the body's other e-mail entries |
| SettingsRoute.PutStores | app/lifeplan-navigator/src/app/api/settings/route.ts:83-118 | both of the above for one PUT |
| SettingsRoute.PutKeepsMaskedKey | app/lifeplan-navigator/src/app/api/settings/route.ts:94-97 | a masked key sent back with PUT keeps the stored key |
| SettingsRoute.RoundTripMaskedKey | app/lifeplan-navigator/src/app/api/settings/route.ts:59-118 | PUTting a GET reply that shows the mask keeps the stored key, every e-mail entry and every other entry |
| SettingsRoute.RoundTripEmptyKey | app/lifeplan-navigator/src/app/api/settings/route.ts:59-118 | PUTting a GET reply with an empty key stores an empty key and keeps every other entry |
| SettingsRoute.GetPutRoundTrip | app/lifeplan-navigator/src/app/api/settings/route.ts:59-118 | what GET answers can be PUT back: only `updatedAt` moves on, a non-empty key is kept, an empty one comes back as "" |
| SettingsRoute.NullEmailIsSavedThenFails | app/lifeplan-navigator/src/app/api/settings/route.ts:83-118 | a PUT of `{"email": null}` is saved but answers 500, and every GET after it answers 500 |
| SettingsRoute.PatchUnknownSection | app/lifeplan-navigator/src/app/api/settings/route.ts:145-149 | PATCH answers 400 exactly for a JSON body naming none of the four sections, and then saves nothing |
| SettingsRoute.SavedSection | app/lifeplan-navigator/src/app/api/settings/route.ts:128-152 | saving a change to one section sets that section, stamps `updatedAt` and keeps every other entry |
| SettingsRoute.PatchUser | app/lifeplan-navigator/src/app/api/settings/route.ts:129-131 | the `user` section is replaced wholesale by `data`; nothing else but `updatedAt` changes |
| SettingsRoute.MergedEmailGet | app/lifeplan-navigator/src/app/api/settings/route.ts:132-138 | the merged e-mail settings take `data`'s entries over the stored ones, with the stored key in place of a masked one |
| SettingsRoute.PatchEmail | app/lifeplan-navigator/src/app/api/settings/route.ts:132-138 | the `email` section is shallow-merged with `data`, a masked key keeps the stored key, and nothing else but `updatedAt` changes |
| SettingsRoute.PatchNotifications | app/lifeplan-navigator/src/app/api/settings/route.ts:139-141 | the `notifications` section is shallow-merged with `data`; nothing else but `updatedAt` changes |
| SettingsRoute.OnboardingSaved | app/lifeplan-navigator/src/app/api/settings/route.ts:142-144 | the `onboarding` section saves `data.completed` as `onboardingCompleted` and nothing else |
| SettingsRoute.PatchOnboarding | app/lifeplan-navigator/src/app/api/settings/route.ts:142-144 | PATCH of `onboarding` sets only `onboardingCompleted`, to `data.completed` |
| SettingsRoute.PatchRefusals | app/lifeplan-navigator/src/app/api/settings/route.ts:121-171 | a body that is not JSON or is `null`, and an `email` or `onboarding` section without `data`, answer 500 and leave the file alone |
| SettingsRoute.SavesAreStamped | app/lifeplan-navigator/src/app/api/settings/route.ts:52-56 | whatever PUT or PATCH writes carries the request time in `updatedAt` |
| SettingsRoute.SettingsFile.constructor | app/lifeplan-navigator/src/app/api/settings/route.ts:40-49 | before the first save there is no settings file |
| SettingsRoute.SettingsFile.LoadSettings | app/lifeplan-navigator/src/app/api/settings/route.ts:40-49 | the loaded settings are the file's, or the defaults when there is none |
| SettingsRoute.SettingsFile.SaveSettings | app/lifeplan-navigator/src/app/api/settings/route.ts:52-56 | the file becomes the stamped settings |
| SettingsRoute.SettingsFile.GetSettings | app/lifeplan-navigator/src/app/api/settings/route.ts:59-80 | GET answers what the GET specification gives and changes nothing |
| SettingsRoute.SettingsFile.PutSettings | app/lifeplan-navigator/src/app/api/settings/route.ts:83-118 | the handler's file and answer are those of the PUT specification |
| SettingsRoute.SettingsFile.PatchSettings | app/lifeplan-navigator/src/app/api/settings/route.ts:121-171 | the handler's file and answer are those of the PATCH specification |
| Common.Flip | app/lifeplan-navigator/src/components/Onboarding.tsx:1280-1286 | the option changes side, every other option keeps its membership, a new option goes to the end, and a removed one is filtered out with the order of the rest kept |
| Common.FlipSpec | app/lifeplan-navigator/src/components/Onboarding.tsx:1280-1286 | flipping an absent option twice gives the list back, and a flip never creates a repeat |
| Common.ToggleWithNone | app/lifeplan-navigator/src/components/Onboarding.tsx:1220-1235 | choosing "nothing planned" leaves it alone in the list; another option removes "nothing planned", changes side, and every other option keeps its membership |
| Common.ToggleWithNoneSpec | app/lifeplan-navigator/src/components/Onboarding.tsx:1220-1235 | after any toggle "nothing planned" is alone or absent, no toggle creates a repeat, and toggling an option twice on a list without it or "nothing planned" gives the list back |
| Onboarding.Youngest | app/lifeplan-navigator/src/components/Onboarding.tsx:114 | no youngest age exactly for an empty list; otherwise an age of the list that no other age undercuts |
| Onboarding.DetermineLifeStage | app/lifeplan-navigator/src/components/Onboarding.tsx:101-137 | student exactly for the occupation 学生; new graduate exactly for a non-student under 25 who is single; a child stage exactly when neither applies and there are children with an age list, chosen by the youngest child (under 6, under 18, none under 18); newly wed exactly when past those tests and married without children; otherwise pre-retirement exactly from 55 and working single exactly below 55, so the newlywed test comes before the age test; never retired, because the test for 65 comes after the test for 55 |
| Onboarding.RollDays | app/lifeplan-navigator/src/components/Onboarding.tsx:274 | the `Date` constructor always yields a real date, and a day inside its month is kept as it is |
| Onboarding.MakeDate | app/lifeplan-navigator/src/components/Onboarding.tsx:274 | `new Date(y, m, d)` is a real date; for an existing date it is that date, with the years 0-99 read as 1900-1999 |
| Onboarding.MakeDateCarriesDay | app/lifeplan-navigator/src/components/Onboarding.tsx:274 | a day of the select (up to 31) past the end of its month lands in the next month, the surplus days on |
| Onboarding.YearsSince | app/lifeplan-navigator/src/components/Onboarding.tsx:275-280 | the result is at least n exactly when the n-th anniversary of the birth date is not after today |
| Onboarding.CalculateAge | app/lifeplan-navigator/src/components/Onboarding.tsx:271-281 | 0 while the year, month or day is missing; otherwise the age is at least n exactly when the n-th birthday has come |
| Onboarding.CanProceed | app/lifeplan-navigator/src/components/Onboarding.tsx:288-318 | for each of the ten steps, the exact answers that enable it: step 0 needs a name, a gender, a full birth date and the 18th birthday passed; step 9 needs all three agreements; a step outside the ten may always proceed |
| Onboarding.HouseholdSize | app/lifeplan-navigator/src/components/Onboarding.tsx:686-692 | with children, one plus one for a spouse plus the number of children; without children, two when married and one otherwise |
| Onboarding.Wizard.constructor | app/lifeplan-navigator/src/components/Onboarding.tsx:140-176 | the wizard starts on step 0 with the initial answers and no agreement checked |
| Onboarding.Wizard.HandleNext | app/lifeplan-navigator/src/components/Onboarding.tsx:186-190 | one step on below the last step, none on it; the answers stay |
| Onboarding.Wizard.HandlePrev | app/lifeplan-navigator/src/components/Onboarding.tsx:192-196 | one step back above the first step, none on it; the answers stay |
| Onboarding.Wizard.PressNext | app/lifeplan-navigator/src/components/Onboarding.tsx:416-424 | the wizard moves on exactly when the step is not the last and can proceed, so leaving step 0 means a full birth date and an age of at least 18 |
| Onboarding.Wizard.TogglePlan | app/lifeplan-navigator/src/components/Onboarding.tsx:1220-1235 | the plans are toggled with "nothing planned" as the exclusive option, and the wizard invariant (no repeats, "nothing planned" alone) is kept |
| Onboarding.Wizard.ToggleGoal | app/lifeplan-navigator/src/components/Onboarding.tsx:1280-1286 | the goal changes side and the goals stay free of repeats |
| Onboarding.Wizard.SetAgreement | app/lifeplan-navigator/src/components/Onboarding.tsx:1474-1528 | the chosen agreement takes the box state, the other two stay, and an unchecked box blocks the last step |
| Onboarding.Wizard.SyncHouseholdSize | app/lifeplan-navigator/src/components/Onboarding.tsx:686-696 | the stored size becomes the computed one, a change is reported exactly when they differed, and afterwards they agree |
| Onboarding.TogglePlanTwice | app/lifeplan-navigator/src/components/Onboarding.tsx:1220-1235 | toggling a plan twice on a list holding neither it nor "nothing planned" restores the list |
| OnboardingContainer.MergeStep1 | app/lifeplan-navigator/src/components/onboarding/OnboardingContainer.tsx:64-67 | each field the update carries replaces the old value, the others stay |
| OnboardingContainer.MergeStep2 | app/lifeplan-navigator/src/components/onboarding/OnboardingContainer.tsx:69-72 | each field the update carries replaces the old value, the others stay |
| OnboardingContainer.MergeStep3 | app/lifeplan-navigator/src/components/onboarding/OnboardingContainer.tsx:74-77 | each field the update carries replaces the old value, the others stay |
| OnboardingContainer.MergeStep4 | app/lifeplan-navigator/src/components/onboarding/OnboardingContainer.tsx:79-82 | each field the update carries replaces the old value, the others stay |
| OnboardingContainer.MergeIdempotent | app/lifeplan-navigator/src/components/onboarding/OnboardingContainer.tsx:64-82 | applying the same update twice is applying it once, on every step |
| OnboardingContainer.ValidateStep | app/lifeplan-navigator/src/components/onboarding/OnboardingContainer.tsx:85-102 | step 1 needs an age and an employment type, step 2 a residence type, step 3 a household type, step 4 an empty e-mail address or one of the form `a@b.c`; other steps pass |
| OnboardingContainer.ValidEmailPassesRoute | app/lifeplan-navigator/src/components/onboarding/OnboardingContainer.tsx:93-96 | an address the last step accepts is accepted by the onboarding route's e-mail check too |
| OnboardingContainer.HouseholdChoice | app/lifeplan-navigator/src/components/onboarding/OnboardingContainer.tsx:249-256 | the chosen type is stored; single sets "no spouse", single or couple clears the children; otherwise spouse and children stay |
| OnboardingContainer.Container.constructor | app/lifeplan-navigator/src/components/onboarding/OnboardingContainer.tsx:46-58 | the form starts on step 1 with every answer empty and no error |
| OnboardingContainer.Container.UpdateStep1 | app/lifeplan-navigator/src/components/onboarding/OnboardingContainer.tsx:64-67 | only the first record changes, by the merge, and the error is cleared |
| OnboardingContainer.Container.UpdateStep2 | app/lifeplan-navigator/src/components/onboarding/OnboardingContainer.tsx:69-72 | only the second record changes, by the merge, and the error is cleared |
| OnboardingContainer.Container.UpdateStep3 | app/lifeplan-navigator/src/components/onboarding/OnboardingContainer.tsx:74-77 | only the third record changes, by the merge, and the error is cleared |
| OnboardingContainer.Container.UpdateStep4 | app/lifeplan-navigator/src/components/onboarding/OnboardingContainer.tsx:79-82 | only the fourth record changes, by the merge, and the error is cleared |
| OnboardingContainer.Container.HandleNext | app/lifeplan-navigator/src/components/onboarding/OnboardingContainer.tsx:107-115 | an invalid step changes nothing; a valid step below the last moves on; a valid last step is submitted exactly then, without moving |
| OnboardingContainer.Container.HandleBack | app/lifeplan-navigator/src/components/onboarding/OnboardingContainer.tsx:117-121 | one step back above the first step, none on it; the answers stay |
| OnboardingContainer.Container.ChooseHouseholdType | app/lifeplan-navigator/src/components/onboarding/OnboardingContainer.tsx:249-256 | the type is stored, single means no spouse, single or couple means no children, and nothing outside the third record changes |
| OnboardingContainer.Container.ToggleEvent | app/lifeplan-navigator/src/components/onboarding/OnboardingContainer.tsx:299-316 | the events are toggled with "none" as the exclusive option, and afterwards "none" is alone or absent |
| Settings.Resized | app/lifeplan-navigator/src/components/Settings.tsx:723-729 | exactly n ages: the entries the old list has keep their values and the rest are 0 |
| Settings.ResizedStep | app/lifeplan-navigator/src/components/Settings.tsx:726-727 | a push past the end adds one 0 and a pop drops the last entry, each moving the resize one step |
| Settings.ResizeAges | app/lifeplan-navigator/src/components/Settings.tsx:723-729 | the push and pop loops end with the list resized to the chosen count |
| Settings.ResizeBack | app/lifeplan-navigator/src/components/Settings.tsx:723-729 | growing the list and shrinking it back to its old length gives it back |
| Settings.SetAt | app/lifeplan-navigator/src/components/Settings.tsx:384-388 | the entry at the index becomes the age, the other entries stay, the list grows to cover the index, and a gap is filled with 0 |
| Settings.Pad2 | app/lifeplan-navigator/src/components/Settings.tsx:328 | a text of two or more characters is kept; a shorter one becomes two characters, with its own characters last and `0` before them |
| Settings.Pad2Parses | app/lifeplan-navigator/src/components/Settings.tsx:328 | a number below 100 padded to two digits has no `-` and reads back as the number |
| Settings.BirthDateSplits | app/lifeplan-navigator/src/components/Settings.tsx:328 | the rendered birth date splits at `-` into the year and the two padded fields |
| Settings.BirthDateRoundTrip | app/lifeplan-navigator/src/components/Settings.tsx:328 | the rendered birth date splits into three fields, month and day two characters each, that read back as the year, month and day |
| Settings.SavedProfile | app/lifeplan-navigator/src/components/Settings.tsx:330-361 | the profile sent carries the form's name, address, ages and the birth date rendered from the three selects, and leaves the id, the creation time and the household size to the stored profile |
| Settings.SaveMessage | app/lifeplan-navigator/src/components/Settings.tsx:310-380 | a failing check is the message; otherwise success exactly when the request succeeds, with the success text |
| Settings.SaveChecksInOrder | app/lifeplan-navigator/src/components/Settings.tsx:311-321 | a bad name is reported whatever the address, a bad address only after a good name, and saving succeeds exactly when both checks pass and the request succeeds |
| Settings.ProfileForm.constructor | app/lifeplan-navigator/src/components/Settings.tsx:230-268 | the form starts from the given values with no message |
| Settings.ProfileForm.SetHasChildren | app/lifeplan-navigator/src/components/Settings.tsx:703-711 | a checked box means at least one child and one age, keeping the existing ones; an unchecked box clears the count and the ages |
| Settings.ProfileForm.ChangeChildCount | app/lifeplan-navigator/src/components/Settings.tsx:723-729 | the count becomes the chosen one and the ages are resized to exactly that many |
| Settings.ProfileForm.UpdateChildAge | app/lifeplan-navigator/src/components/Settings.tsx:384-388 | only the ages change, by writing the age at the index |
| Settings.ProfileForm.ToggleFuturePlan | app/lifeplan-navigator/src/components/Settings.tsx:391-398 | the plan changes side, the other plans stay |
| Settings.ProfileForm.ToggleGoal | app/lifeplan-navigator/src/components/Settings.tsx:401-408 | the goal changes side, the other goals stay |
| Settings.ProfileForm.HandleSave | app/lifeplan-navigator/src/components/Settings.tsx:310-380 | the message is the save message, the store's user takes the saved profile exactly on success and is untouched otherwise, and the form stays |
| Settings.ProfileForm.Submit | app/lifeplan-navigator/src/components/Settings.tsx:362-379 | an accepted request merges the saved profile into the store's user with the success text; a refused one changes only the message |
| Settings.ToggleTwice | app/lifeplan-navigator/src/components/Settings.tsx:391-408 | toggling an absent plan or goal twice gives the list back, and toggling never creates a repeat |
| SettingsPanel.SecurityScore | app/lifeplan-navigator/src/components/SettingsPanel.tsx:709 | 100 exactly with MFA and a passkey, 60 exactly with one of them, 30 exactly with neither |
| SettingsPanel.ScoreMonotonic | app/lifeplan-navigator/src/components/SettingsPanel.tsx:709 | turning a protection on never lowers the score, and the two protections count the same |
| SettingsPanel.PasswordError | app/lifeplan-navigator/src/components/SettingsPanel.tsx:149-157 | no error exactly when the new password matches its confirmation and has at least 8 characters; a mismatch is reported before a short password |
| SettingsPanel.CurrentPasswordIgnored | app/lifeplan-navigator/src/components/SettingsPanel.tsx:149-157 | the current-password field does not affect the outcome |
| SettingsPanel.PasswordChanged | app/lifeplan-navigator/src/components/SettingsPanel.tsx:159 | the security update records the change time and touches no other setting |
| SettingsPanel.ProfileUpdateOf | app/lifeplan-navigator/src/components/SettingsPanel.tsx:121-142 | the update carries the edited fields, with the residence prefecture as the prefecture, and leaves the id, goals, financial data and times alone |
| SettingsPanel.SaveSyncsPrefecture | app/lifeplan-navigator/src/components/SettingsPanel.tsx:121-125 | after saving, the user's prefecture is the residence prefecture, and the id, goals and financial data stay |
| SettingsPanel.Panel.constructor | app/lifeplan-navigator/src/components/SettingsPanel.tsx:86-115 | the panel starts with the given profile values, out of edit mode, with the password form closed and empty |
| SettingsPanel.Panel.HandleSaveProfile | app/lifeplan-navigator/src/components/SettingsPanel.tsx:121-147 | the store's user takes the edited profile (prefecture from the residence prefecture), edit mode ends and success is shown |
| SettingsPanel.Panel.HandlePasswordChange | app/lifeplan-navigator/src/components/SettingsPanel.tsx:149-165 | with an error only the error is shown and the store is unchanged; otherwise the store holds the new password's hash and the change time, and the form is closed and emptied |
| SettingsPanel.Panel.ToggleFuturePlan | app/lifeplan-navigator/src/components/SettingsPanel.tsx:167-178 | the plans are toggled with "none" as the exclusive option, and afterwards "none" is alone or absent |
| SettingsPanel.Panel.SetHasChildren | app/lifeplan-navigator/src/components/SettingsPanel.tsx:528-535 | a checked box keeps the ages and a non-zero count (1 for none); an unchecked box clears both |
| SettingsPanel.Panel.ChangeChildCount | app/lifeplan-navigator/src/components/SettingsPanel.tsx:544-555 | the count becomes the chosen one and the ages are resized to exactly that many |
| SettingsPanel.Panel.ChangeChildAge | app/lifeplan-navigator/src/components/SettingsPanel.tsx:563-572 | only the listed child's age changes |
| SettingsPanel.MfaToggle | app/lifeplan-navigator/src/components/SettingsPanel.tsx:844-848 | the MFA switch turns over; on means TOTP and verified, off means no method and not verified; every other security setting stays |
| SettingsPanel.PasskeyToggle | app/lifeplan-navigator/src/components/SettingsPanel.tsx:893-896 | the passkey switch turns over, registered follows it, and every other security setting stays |
| SettingsPanel.ToggleMovesScore | app/lifeplan-navigator/src/components/SettingsPanel.tsx:709 | the MFA or passkey button raises the score exactly when it switches that protection on, and pressing the MFA button twice restores both switches |
| SettingsPanel.SwitchToggle | app/lifeplan-navigator/src/components/SettingsPanel.tsx:969-971 | the pressed notification switch turns over and the other four stay |
| SettingsPanel.SwitchTwice | app/lifeplan-navigator/src/components/SettingsPanel.tsx:969-971 | pressing a notification switch twice restores the settings |
| SettingsPanel.Panel.SetEditMode | app/lifeplan-navigator/src/components/SettingsPanel.tsx:271-279 | only edit mode changes, so cancelling keeps the unsaved edits |
| SettingsPanel.Panel.TogglePasswordForm | app/lifeplan-navigator/src/components/SettingsPanel.tsx:739 | the password form opens or closes and keeps the typed passwords |
| SettingsPanel.Panel.ToggleMfa | app/lifeplan-navigator/src/components/SettingsPanel.tsx:844-848 | the store's security settings take the MFA toggle, and MFA turns over |
| SettingsPanel.Panel.TogglePasskey | app/lifeplan-navigator/src/components/SettingsPanel.tsx:893-896 | the store's security settings take the passkey toggle, and the passkey turns over |
| SettingsPanel.Panel.ToggleNotification | app/lifeplan-navigator/src/components/SettingsPanel.tsx:969-971 | the store's notification settings take the toggle, and the pressed switch turns over |

## Left out

- HTTP transport, the MCP server wiring and the static search-guidance text: replies are inputs to the model.
- Clocks, random bytes and network replies are inputs of the operations that use them.
- Numbers are integers: `Number` of a fraction, an exponent or `Infinity` is `NaN` in the model, and relevance scores are integer hundredths. The sources use these numbers only as counts, limits, offsets, ages and fixed scores.
- Strings are sequences of Unicode scalar values. JavaScript measures `length` in UTF-16 code units, so the model differs for characters outside the Basic Multilingual Plane.
- Case mapping (`toLowerCase`, `toUpperCase`, Python's `lower`) covers ASCII letters only.
- Regular expressions are written out as scanners. `\p{L}`/`\p{N}` in the name check are approximated by ASCII, Latin-1, kana, CJK ideographs and full-width forms. The e-mail pattern is the simplified addr-spec check of `validation.ts:9`, restated character class by character class.
- JSON response bodies, the `meta` echo of the laws route and HTTP headers other than the security headers are not modelled. A handler's answer is its status code with its error message, or the library call it makes.
- TermsDictionary.Lookup: the dictionaries are plain object literals, so a name that `Object.prototype` provides (`constructor`, `toString`, `__proto__`, ...) is found there in the source and yields a function or an object; the model treats such a name as an unknown key.
- TermsDictionary.TranslateToLegalTerms: for a term naming an inherited property the source returns that function or object instead of a list; the model treats the term as unknown.
- TermsDictionary.TranslatePartial: the model runs the partial search for a term naming an inherited property of `Object.prototype`; the source returns that property before reaching it.
- TermsDictionary.GetKeywordsForUserAttributes: an attribute naming an inherited property makes the source's spread throw (a function or `Object.prototype` is not iterable); the model ignores it as an unknown key.
- TermsDictionary.PushEventKeywords: an event naming an inherited property makes the source's spread throw; the model ignores it.
- TermsDictionary.UnknownAttributeIsIgnored: an unknown name that `Object.prototype` provides is not ignored by the source but makes it throw; the lemma holds for the model's lookup.
- TermsDictionary.KeywordsSpec: stated for the model's lookup, in which inherited property names are unknown keys rather than a throw.
- LawsApi.ExpandKeywords: a keyword naming an inherited property makes `translateToLegalTerms` return a non-list, and `legalTerms.forEach` then throws; the model adds the keyword alone.
- LawsApi.ExpansionMembers: stated for the model's lookup; for a keyword naming an inherited property the source throws instead of expanding.
- LawsApi.ExpandedKeywordsSpec: stated for the model's lookup; for a keyword naming an inherited property the source throws instead of expanding.
- The in-memory caches of `laws-api.ts` and the network fetch of `searchLawsByKeyword` are not modelled. Its keyword expansion and the offline fallback list are.
- `getLawContent`, `smartLawSearch`, `getPersonalizedKeywords` and `getSearchGuidance` of `laws-api.ts` are outside the modelled core; the laws route hands their arguments over as a `Response`.
- The field rules of the registration route are a `Rules` value: `Registry.Post` is stated for the rules the registry holds, and `RegisterRoute.Registry.constructor` sets them to the route's own (`RouteRules`).
- SHA-256, the new user id, the creation time and the session bytes of the sign-in and registration routes are inputs. Session cookies and their attributes are not modelled.
- PBKDF2, Base64, the random salt and the new user id of the user service are inputs (`Crypto` and parameters). Times are milliseconds since the epoch instead of ISO strings.
- UserService.VerifyFields: a key of another length makes `timingSafeEqual` throw inside the PBKDF2 callback, which Node reports as an uncaught exception rather than a rejection; the model reports it as the sign-in throwing.
- UserService.HashPassword: a PBKDF2 error rejects the promise; the later use of the missing key inside the same callback is not modelled.
- UserService.Authenticate: an unknown address is refused without modelling a throw of the dummy comparison; `DummyVerifyAnswers` shows that comparison does not throw when PBKDF2 keeps the key length.
- The demo account is added by a call that is not awaited at module load, so a request arriving before it completes sees an empty table; `UserService.UserStore.constructor` models the table after it completes.
- HMAC-SHA1, SHA-256, the random bytes, the clock and `timingSafeEqual`'s buffers of the MFA service are inputs: the hashes are a `Hashes` value, the random bytes and the time in milliseconds are parameters.
- `generateOtpauthUrl` and `setupMfa` are not modelled: the first only assembles a URL with `URLSearchParams`, the second only calls `generateSecret`, `generateOtpauthUrl` and `generateBackupCodes(10)`, which are modelled.
- The TOTP period (30) and modulus (10^6) appear as literals in the arithmetic of `mfa_service.dfy`; the digit count and window are named constants.
- MfaService.Truncate: a hash shorter than the offset plus four reads the missing bytes as 0, as `undefined & mask` does; an HMAC-SHA1 digest is always 20 bytes, so this never happens.
- Redis is a map whose keys carry an expiry time: a key is readable strictly before it. Each store operation reads the clock once (`now`), and concurrent calls are not interleaved. Sessions are stored as values, so the JSON round trip is the identity; an update field that is present but `undefined` is not modelled.
- The `session_activity:` keys are deleted by the store but never written in the modelled files, so they are not modelled. Log lines are not modelled.
- SessionStore.RedisSessionStore.DestroySession: the corrected `destroySession` of the Findings row reads the record directly instead of calling `getSession`; `GetStepAgrees` shows the two agree while keys expire no later than their sessions.
- SessionStore.RedisSessionStore.GetSession: the store uses the corrected `getSession` and `destroySession`, which read the record directly (see Findings); `GetStepAgrees` shows they behave as the original ones while keys expire no later than their sessions.
- SessionStore.Enforced: the limit is proved for stores whose keys expire no later than their sessions; for other stores only that it deletes. In such a store the original `getSession` does not return on a readable but expired record (see Findings), so `enforceSessionLimit` as written has no outcome there to state; the corrected store deletes those records first, and the count after that is not proved.
- SessionStore.RedisSessionStore.CreateSession: the limit it ends with is proved only while keys expire no later than their sessions, for the reason given for `SessionStore.Enforced`.
- SessionStore.RedisSessionStore.RemoveOldest: which sessions the rounds remove is proved only while keys expire no later than their sessions, for the reason given for `SessionStore.Enforced`.
- SessionStore.RedisSessionStore.EnforceSessionLimit: the count and order of the removed sessions are proved only while keys expire no later than their sessions, for the reason given for `SessionStore.Enforced`.
- The disclaimer's, the quiz's and the store's character codes are Unicode scalar values rather than UTF-16 code units; `simpleHash` agrees with the source for strings within the Basic Multilingual Plane.
- `persist` (the store's local-storage copy), `crypto.randomUUID`, `new Date().toISOString()` and `navigator.userAgent` are not modelled: the store's actions take the id, the time and the user agent as parameters. The demo profile and actions of `initializeMockData` are parameters too.
- React state updates are applied at once: each component handler is a method on a class holding the component's state, and rendering, routing (`router.push`) and the icon markup are not modelled.
- ChildrenInput.HandleChange: the field and value are a `ChildChange`, so a number cannot be written to `isCohabiting` or a boolean to `age` as the untyped `[field]: value` would allow.
- LawQuiz.KnowledgeScore: `Math.round` is computed on the exact ratio, not on the floating-point quotient times 100; the two differ only where the floating-point error of the product moves it across a half.
- LawQuiz.Quiz.constructor: question selection (`getRelevantQuizItems`, `lawQuizItems`) is not part of this model; the questions are a non-empty parameter, because the component reads `questions[currentIndex]` only once questions are loaded. `restartQuiz` is not modelled.
- AuditService: the flush timer (`startFlushTimer`) is a flag, `Promise.allSettled` is the list of outputs started, and console formatting (`writeToConsole`), the database batch call and the HTTP post to the remote endpoint are outputs recorded in order rather than performed. The `typeof window` guard is not modelled.
- AuditService: the record id, trace and span UUIDs, the clock, the host name variable and SHA-256 are inputs (`Env` and a hash function); `EVENT_NAMES` is a parameter of the event-name lookup. Request bodies and metadata are JSON objects; a body of another JSON type is not modelled.
- The `auditLog` helper object of `audit-middleware.ts` (lines 243-465), `createTargetInfo` and the `getAuditLogService` singleton are not modelled: the helpers only fill in fixed event codes and call the modelled logging methods.
- AuditRepository: `mapRowToAuditLog` is not modelled, because the placeholder query of the pool answers every statement with no rows, so no row is ever mapped. The `getDatabase` singleton is a pool passed in.
- The `catch` branches of `healthCheck` and `insertAuditLogBatch` are not modelled: the placeholder `query` never throws.
- SQL text is modelled with its whitespace normalised to single spaces; a JSON parameter is kept as the value it is stringified from; dates are their ISO text. The `pg` driver itself is not modelled.
- The benefit search runs over a catalogue given to it; the route's own is `MockBenefits`, the fixed list of eight. A deadline is its time value in milliseconds rather than the date text. The `catch` branch answering 500 is not modelled: nothing in the modelled handler throws.
- The onboarding route's session check is whether a session cookie is present; every cookie stands for the demo user. `catch` answers other than a body that is not JSON (or a `null` body, or a PATCH body that is not an object) are not modelled. GET's reply lists the stored fields without `userId`; the reply of POST and PATCH is the stored profile. Times are milliseconds.
- The notification settings route's session check is whether a session cookie is present; every cookie stands for the demo user. `updatedAt` is milliseconds rather than ISO text, and one time `now` per request stands for both `new Date()` calls of PUT. Replies are the stored settings rather than their JSON rendering, and `catch` answers other than a body that is not JSON or is `null` are not modelled.
- The settings route's file is modelled as its parsed content: a file that is missing, unreadable or not JSON stands for the defaults, and a file holding JSON other than an object is not modelled. `JSON.stringify` dropping `undefined` entries is not modelled (such an entry reads as `undefined` either way). Failures of the directory check and of the write are not modelled, and neither is the order of keys in a spread copy. Request times are ISO strings given as parameters, and one time per request stands for both `new Date()` calls of PUT.
- The profile route's session check is whether a session cookie is present; every cookie stands for the demo user. `updatedAt` is milliseconds rather than ISO text, and the reply is the stored profile rather than its JSON rendering. A JSON object's property is read from its first entry with that key, while `JSON.parse` keeps the last of repeated keys.
- Onboarding: `handleComplete` (`Onboarding.tsx:198-265`) is not modelled. It sends two PATCH requests to the settings route (`SettingsRoute.SettingsFile.PatchSettings`): the `user` section with the new profile, then the `onboarding` section with `{completed: true}`. It builds the store's profile with `crypto.randomUUID` and the clock, and navigates; the life stage it stores is `DetermineLifeStage`. The `isSaving` flag, the age-verification message and the financial answers that only it sends are not modelled either.
- Onboarding: the generic `updateAnswers` merge behind the text fields and selects is not a separate operation; the wizard's state holds the answers the step rules, the household size and the life stage read.
- Onboarding.DetermineLifeStage: the current year is a parameter. `Math.min` of an empty age list is `Infinity`, which the model writes as no youngest child; both lead to the empty-nest stage.
- Onboarding.MakeDate: the `Date` constructor is modelled in local calendar terms without a time zone. Its contract states a valid result and the identity on existing dates; how far a large overflow carries is stated only for the days the select offers (`MakeDateCarriesDay`).
- OnboardingContainer: `handleSubmit` (`OnboardingContainer.tsx:123-160`) is not modelled. It posts the four records and navigates; `Container.HandleNext` reports when it would be called. `isSubmitting` and the error set by a failed request are not modelled.
- Settings: the initial form (`Settings.tsx:218-307`) is not modelled. That covers `parseBirthDate`, which reads the stored text with `new Date(text)` and the local time zone, and the defaults taken from the user; `ProfileForm.constructor` takes the values. The request to `/api/settings` is the `ok` parameter, and `onSettingsUpdate`, `isSaving` and the section navigation are not modelled.
- Settings.SavedProfile: the source spreads the shown user (`...user!`) into the update, so the store's user also takes that user's id, household size and creation time. The model leaves those three fields out, which changes nothing when the page shows the store's own user.
- Settings.ProfileForm.ChangeChildCount: requires a count of at least 0. The select offers 1 to 5; a negative count would keep the source's pop loop running on an empty list.
- Settings.ProfileForm.UpdateChildAge: `newAges[index] = age` past the end leaves holes in JavaScript; the model fills them with 0, the value the age select shows for them.
- Settings.BirthDateRoundTrip: the text is read back field by field as decimals, for a year without sign and a month and day below 100; the page's own reading through `new Date(text)` is not modelled.
- SettingsPanel: the `setTimeout` that clears the success flag after three seconds, `formatCurrency`, the tab switch, the show-password eye buttons and the direct field setters of the edit form are not modelled. `logout` and the reset button call the store's `Logout` and `ResetAllData`; the `confirm` dialog and the page reload are not modelled.
- SettingsPanel.ProfileUpdateOf: `handleSaveProfile` also sends `residencePrefecture` and `workPrefecture`, which the store's profile model does not hold; the model keeps the prefecture that the residence prefecture sets.
- SettingsPanel.PasswordError: the length is counted in Unicode scalar values rather than UTF-16 code units.
- AuditRepository.QueryAuditLogs: the total is parsed from the count row, and is always 0 because the placeholder query returns no rows.

## Findings

| source | as written | input that shows it | evidently intended | confidence | as-written member | corrected member |
|---|---|---|---|---|---|---|
| app/lifeplan-navigator/src/app/api/auth/login/route.ts:23 | `password + process.env.PASSWORD_SALT \|\| 'default-salt-change-in-production'` groups as `(password + PASSWORD_SALT) \|\| default`; with the variable unset the sum is the password followed by "undefined", which is never empty, so the default salt is never used (the same line is at `register/route.ts:23`); the routes are modelled with this hash, `LoginRoute.HashPassword` | `PASSWORD_SALT` unset, any password | the password followed by the configured salt, or by the default salt when none is set | not executed | LoginRoute.UnsetSaltAsWritten | LoginRoute.HashInputSalt |
| app/lifeplan-navigator/src/lib/auth/mfa-service.ts:80-84 | the loop stores `counter & 0xff` into every one of the eight counter bytes and assigns `Math.floor(counter / 256)` to `time`, which is never read, so the counter is not shifted between bytes | time 7680 s (counter 256) gives the same counter bytes, hence the same code, as time 0 | the counter in eight big-endian bytes, as section 5.2 of RFC 4226 has it | not executed | MfaService.CounterCollision | MfaService.BigEndianRoundTrip |
| app/lifeplan-navigator/src/lib/redis/session-store.ts:93-173 | on a readable record whose `expiresAt` has passed, `getSession` calls `destroySession`, whose first step is `getSession` on the same record, before anything is deleted, so the two calls keep calling each other until Redis drops the key | `updateSession(id, { expiresAt: now - 1 })` on a session with at least a second left, then `getSession(id)` | the expired record is deleted and null is returned | not executed | SessionStore.UpdateThenGetLoops | SessionStore.GetStepSpec |
