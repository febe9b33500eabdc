/**
 * The documentation-search tool server: the retry policy wrapped around a
 * search, the request it sends (and that request's dictionary form), the
 * decoding of the service's answer, and the text the tool returns.
 *
 * The signed HTTP call is an oracle: its answers are inputs.
 */
module MynahSearch {
  import opened Wrappers
  import opened Strings
  import opened JsonValue

  // ---------------------------------------------------------------- retry policy

  const MaxRetries: nat := 5
  const InitialWait: real := 1.0
  const BackoffFactor: real := 1.5
  const WaitCap: real := 128.0

  /** The error codes of a `ClientError` that are retried. */
  const RetryableCodes: seq<string> := [
    "ThrottlingException", "RequestLimitExceeded", "InternalServerErrorException",
    "ServiceUnavailableException", "TooManyRequestsException", "ModelStreamLimitExceededException",
    "ModelTimeoutException", "ModelNotReadyException", "ResourceInUseException",
    "ModelCapacityExceededException"]

  /** What one call of the wrapped function does. */
  datatype Attempt<T> =
    | Succeeded(value: T)
    | ClientError(code: string)
    | TransportError          // ConnectionError, TimeoutError or ReadTimeoutError
    | OtherError(name: string)

  predicate Retryable<T>(a: Attempt<T>) {
    (a.ClientError? && a.code in RetryableCodes) || a.TransportError?
  }

  datatype Outcome<T> = Returned(value: T) | Reraised(error: Attempt<T>) | MaxRetriesReached

  /** The outcome, the number of calls made, and the waits slept between them. */
  datatype RetryTrace<T> = RetryTrace(outcome: Outcome<T>, calls: nat, waits: seq<real>)

  function NextWait(w: real): real {
    if w * BackoffFactor < WaitCap then w * BackoffFactor else WaitCap
  }

  /** The wait slept after the `i`-th retryable failure (from 0). */
  function WaitAt(i: nat): (w: real)
    ensures InitialWait <= w <= WaitCap
  {
    if i == 0 then InitialWait else NextWait(WaitAt(i - 1))
  }

  /** The waits never shrink. */
  lemma {:induction false} WaitAtMonotone(i: nat, j: nat)
    requires i <= j
    ensures WaitAt(i) <= WaitAt(j)
    decreases j
  {
    if i < j {
      WaitAtMonotone(i, j - 1);
      assert WaitAt(j - 1) <= NextWait(WaitAt(j - 1));
    }
  }

  /**
   * `custom_retry_decorator`'s wrapper from attempt `retries` on, with the
   * current wait and the waits slept so far: a success returns at once;
   * an error that is not retryable is raised at once; a retryable one is
   * raised once `maxRetries` calls are spent, and is otherwise followed by a
   * sleep and a longer wait.
   */
  function RetryRun<T>(maxRetries: nat, attempt: nat -> Attempt<T>, retries: nat, wait: real, waits: seq<real>): (r: RetryTrace<T>)
    requires retries <= maxRetries
    ensures retries <= r.calls <= maxRetries
    ensures r.outcome.MaxRetriesReached? <==> retries == maxRetries
    ensures r.outcome.Reraised? ==> r.calls >= 1 && r.outcome.error == attempt(r.calls - 1) && !r.outcome.error.Succeeded?
    ensures r.outcome.Returned? ==> r.calls >= 1 && attempt(r.calls - 1) == Succeeded(r.outcome.value)
    ensures r.outcome.Reraised? && Retryable(r.outcome.error) ==> r.calls == maxRetries
    decreases maxRetries - retries
  {
    if retries == maxRetries then RetryTrace(MaxRetriesReached, retries, waits)
    else
      var a := attempt(retries);
      if a.Succeeded? then RetryTrace(Returned(a.value), retries + 1, waits)
      else if !Retryable(a) then RetryTrace(Reraised(a), retries + 1, waits)
      else if retries + 1 < maxRetries then RetryRun(maxRetries, attempt, retries + 1, NextWait(wait), waits + [wait])
      else RetryTrace(Reraised(a), retries + 1, waits)
  }

  /** Every call before the last one failed with a retryable error. */
  lemma {:induction false} RetryRunRetried<T>(maxRetries: nat, attempt: nat -> Attempt<T>, retries: nat, wait: real, waits: seq<real>)
    requires retries < maxRetries
    ensures RetryRun(maxRetries, attempt, retries, wait, waits).calls >= 1
    ensures forall k :: retries <= k < RetryRun(maxRetries, attempt, retries, wait, waits).calls - 1 ==> Retryable(attempt(k))
    decreases maxRetries - retries
  {
    var a := attempt(retries);
    if !a.Succeeded? && Retryable(a) && retries + 1 < maxRetries {
      var r := RetryRun(maxRetries, attempt, retries, wait, waits);
      assert r == RetryRun(maxRetries, attempt, retries + 1, NextWait(wait), waits + [wait]);
      RetryRunRetried(maxRetries, attempt, retries + 1, NextWait(wait), waits + [wait]);
    }
  }

  /** One wait was slept after each call but the last: the initial wait, then each 1.5 times the last, capped at 128. */
  lemma {:induction false} RetryRunWaitsAt<T>(maxRetries: nat, attempt: nat -> Attempt<T>, retries: nat, wait: real, waits: seq<real>)
    requires retries < maxRetries && |waits| == retries && wait == WaitAt(retries)
    requires forall i :: 0 <= i < retries ==> waits[i] == WaitAt(i)
    ensures |RetryRun(maxRetries, attempt, retries, wait, waits).waits| == RetryRun(maxRetries, attempt, retries, wait, waits).calls - 1
    ensures forall i :: 0 <= i < |RetryRun(maxRetries, attempt, retries, wait, waits).waits| ==>
      RetryRun(maxRetries, attempt, retries, wait, waits).waits[i] == WaitAt(i)
    decreases maxRetries - retries
  {
    var a := attempt(retries);
    var r := RetryRun(maxRetries, attempt, retries, wait, waits);
    if a.Succeeded? || !Retryable(a) || retries + 1 >= maxRetries {
      assert r.waits == waits && r.calls == retries + 1;
    } else {
      var next := waits + [wait];
      assert r == RetryRun(maxRetries, attempt, retries + 1, NextWait(wait), next);
      assert NextWait(wait) == WaitAt(retries + 1);
      assert forall i :: 0 <= i < retries ==> next[i] == waits[i];
      RetryRunWaitsAt(maxRetries, attempt, retries + 1, NextWait(wait), next);
    }
  }

  /**
   * Every call before the last one failed with a retryable error, and one
   * wait was slept after each of them: the initial wait, then each 1.5
   * times the last, capped at 128.
   */
  lemma RetryRunWaits<T>(maxRetries: nat, attempt: nat -> Attempt<T>, retries: nat, wait: real, waits: seq<real>)
    requires retries < maxRetries && |waits| == retries && wait == WaitAt(retries)
    requires forall i :: 0 <= i < retries ==> waits[i] == WaitAt(i)
    ensures var r := RetryRun(maxRetries, attempt, retries, wait, waits);
      r.calls >= 1 && (forall k :: retries <= k < r.calls - 1 ==> Retryable(attempt(k)))
      && |r.waits| == r.calls - 1 && (forall i :: 0 <= i < |r.waits| ==> r.waits[i] == WaitAt(i))
  {
    RetryRunRetried(maxRetries, attempt, retries, wait, waits);
    RetryRunWaitsAt(maxRetries, attempt, retries, wait, waits);
  }

  /** The wrapper itself; `attempt(k)` is what the `k`-th call (from 0) does. */
  method CallWithRetries<T>(maxRetries: nat, attempt: nat -> Attempt<T>) returns (r: RetryTrace<T>)
    ensures r == RetryRun(maxRetries, attempt, 0, InitialWait, [])
  {
    var retries := 0;
    var wait := InitialWait;
    var waits: seq<real> := [];
    while retries < maxRetries
      invariant retries <= maxRetries
      invariant RetryRun(maxRetries, attempt, 0, InitialWait, []) == RetryRun(maxRetries, attempt, retries, wait, waits)
    {
      var a := attempt(retries);
      if a.Succeeded? {
        return RetryTrace(Returned(a.value), retries + 1, waits);
      }
      if !Retryable(a) {
        return RetryTrace(Reraised(a), retries + 1, waits);
      }
      if retries + 1 >= maxRetries {
        return RetryTrace(Reraised(a), retries + 1, waits);
      }
      waits := waits + [wait];
      wait := NextWait(wait);
      retries := retries + 1;
    }
    r := RetryTrace(MaxRetriesReached, retries, waits);
  }

  /** An error that is not retried is raised after the call that produced it, which is the first call when it comes first. */
  lemma NonRetryableRaisedAtOnce<T>(attempt: nat -> Attempt<T>)
    requires !attempt(0).Succeeded? && !Retryable(attempt(0))
    ensures RetryRun(MaxRetries, attempt, 0, InitialWait, []) == RetryTrace(Reraised(attempt(0)), 1, [])
  {
  }

  /** When every call fails with a retryable error, the wrapper calls five times, sleeps four times and raises the last error. */
  lemma AlwaysRetryableGivesUpAfterFive<T>(attempt: nat -> Attempt<T>)
    requires forall k :: 0 <= k < MaxRetries ==> Retryable(attempt(k))
    ensures var r := RetryRun(MaxRetries, attempt, 0, InitialWait, []);
      r.outcome == Reraised(attempt(MaxRetries - 1)) && r.calls == MaxRetries
      && r.waits == [1.0, 1.5, 2.25, 3.375]
  {
    var r := RetryRun(MaxRetries, attempt, 0, InitialWait, []);
    RetryRunWaits(MaxRetries, attempt, 0, InitialWait, []);
    assert WaitAt(1) == 1.5 && WaitAt(2) == 2.25 && WaitAt(3) == 3.375;
  }

  // ---------------------------------------------------------------- the request

  datatype ContextAttribute = ContextAttribute(key: string, value: string)

  datatype Language = Java | JavaScript | TypeScript | Python
  datatype BodyType = Html | HighlightedHtml | Markdown | RawText
  datatype SearchType = TextSearch | CodeSearch

  function LanguageName(l: Language): string {
    match l
    case Java => "java"
    case JavaScript => "javascript"
    case TypeScript => "typescript"
    case Python => "python"
  }

  function BodyTypeName(b: BodyType): string {
    match b
    case Html => "Html"
    case HighlightedHtml => "HighlightedHtml"
    case Markdown => "Markdown"
    case RawText => "RawText"
  }

  /** A code query; an empty `codeStructure` stands for both `None` and `{}`. */
  datatype CodeQuery = CodeQuery(code: string, language: Language, codeStructure: seq<(string, Json)>)

  datatype SearchRequest = SearchRequest(
    contextAttributes: seq<ContextAttribute>,
    requester: string,
    textQuery: Option<string>,
    codeQuery: Option<CodeQuery>,
    maxResults: Option<int>,
    acceptSuggestionBody: Option<BodyType>,
    requestId: Option<string>)

  function Entry(present: bool, key: string, value: Json): seq<(string, Json)> {
    if present then [(key, value)] else []
  }

  function AttributesJson(attrs: seq<ContextAttribute>): (v: Json)
    ensures v.JArr? && |v.items| == |attrs|
    ensures forall i :: 0 <= i < |attrs| ==>
      v.items[i] == JObj([("key", JStr(attrs[i].key)), ("value", JStr(attrs[i].value))])
  {
    JArr(seq(|attrs|, i requires 0 <= i < |attrs| =>
      JObj([("key", JStr(attrs[i].key)), ("value", JStr(attrs[i].value))])))
  }

  function CodeQueryJson(q: CodeQuery): Json {
    JObj([("code", JStr(q.code)), ("language", JStr(LanguageName(q.language)))]
      + Entry(|q.codeStructure| > 0, "codeStructure", JObj(q.codeStructure)))
  }

  /** `SearchRequest.to_dict`: the two mandatory keys, then each optional one only when its value is truthy. */
  function ToDict(r: SearchRequest): Json {
    JObj([("contextAttributes", AttributesJson(r.contextAttributes)), ("requester", JStr(r.requester))]
      + Entry(r.textQuery.Some?, "textQuery", JObj([("input", JStr(if r.textQuery.Some? then r.textQuery.value else ""))]))
      + Entry(r.codeQuery.Some?, "codeQuery", if r.codeQuery.Some? then CodeQueryJson(r.codeQuery.value) else JNull)
      + Entry(r.maxResults.Some? && r.maxResults.value != 0, "maxResults", JInt(if r.maxResults.Some? then r.maxResults.value else 0))
      + Entry(r.acceptSuggestionBody.Some?, "acceptSuggestionBody",
          JStr(if r.acceptSuggestionBody.Some? then BodyTypeName(r.acceptSuggestionBody.value) else ""))
      + Entry(r.requestId.Some? && r.requestId.value != "", "requestId", JStr(if r.requestId.Some? then r.requestId.value else "")))
  }

  /**
   * What `to_dict` puts under each key: the context attributes (in order)
   * and the requester always; every other key only when the request's
   * value is truthy, and then that value.
   */
  function ExpectedField(r: SearchRequest, key: string): Option<Json> {
    if key == "contextAttributes" then Some(AttributesJson(r.contextAttributes))
    else if key == "requester" then Some(JStr(r.requester))
    else if key == "textQuery" then
      (if r.textQuery.Some? then Some(JObj([("input", JStr(r.textQuery.value))])) else None)
    else if key == "codeQuery" then
      (if r.codeQuery.Some? then Some(CodeQueryJson(r.codeQuery.value)) else None)
    else if key == "maxResults" then
      (if r.maxResults.Some? && r.maxResults.value != 0 then Some(JInt(r.maxResults.value)) else None)
    else if key == "acceptSuggestionBody" then
      (if r.acceptSuggestionBody.Some? then Some(JStr(BodyTypeName(r.acceptSuggestionBody.value))) else None)
    else if key == "requestId" then
      (if r.requestId.Some? && r.requestId.value != "" then Some(JStr(r.requestId.value)) else None)
    else None
  }

  /** The dictionary `to_dict` builds holds exactly the expected value under every key. */
  lemma ToDictFields(r: SearchRequest, key: string)
    ensures Field(ToDict(r).fields, key) == ExpectedField(r, key)
  {
    var base := [("contextAttributes", AttributesJson(r.contextAttributes)), ("requester", JStr(r.requester))];
    FieldOfPair(base[0], base[1], key);
    assert base == [base[0], base[1]];
    var tq := JObj([("input", JStr(if r.textQuery.Some? then r.textQuery.value else ""))]);
    var cq := if r.codeQuery.Some? then CodeQueryJson(r.codeQuery.value) else JNull;
    var mr := JInt(if r.maxResults.Some? then r.maxResults.value else 0);
    var ab := JStr(if r.acceptSuggestionBody.Some? then BodyTypeName(r.acceptSuggestionBody.value) else "");
    var ri := JStr(if r.requestId.Some? then r.requestId.value else "");
    var t := Entry(r.textQuery.Some?, "textQuery", tq);
    var c := Entry(r.codeQuery.Some?, "codeQuery", cq);
    var m := Entry(r.maxResults.Some? && r.maxResults.value != 0, "maxResults", mr);
    var a := Entry(r.acceptSuggestionBody.Some?, "acceptSuggestionBody", ab);
    var q := Entry(r.requestId.Some? && r.requestId.value != "", "requestId", ri);
    assert ToDict(r).fields == base + t + c + m + a + q;
    FieldOfEntry(r.textQuery.Some?, "textQuery", tq, key);
    FieldOfEntry(r.codeQuery.Some?, "codeQuery", cq, key);
    FieldOfEntry(r.maxResults.Some? && r.maxResults.value != 0, "maxResults", mr, key);
    FieldOfEntry(r.acceptSuggestionBody.Some?, "acceptSuggestionBody", ab, key);
    FieldOfEntry(r.requestId.Some? && r.requestId.value != "", "requestId", ri, key);
    FieldsOfToDict(base, t, c, m, a, q, key);
    if key == "contextAttributes" || key == "requester" {
    } else if key == "textQuery" {
      assert Field(base, key).None?;
    } else if key == "codeQuery" {
      assert Field(base, key).None? && Field(t, key).None?;
    } else if key == "maxResults" {
      assert Field(base, key).None? && Field(t, key).None? && Field(c, key).None?;
    } else if key == "acceptSuggestionBody" {
      assert Field(base, key).None? && Field(t, key).None? && Field(c, key).None? && Field(m, key).None?;
    } else {
      assert Field(base, key).None? && Field(t, key).None? && Field(c, key).None? && Field(m, key).None?;
      assert Field(a, key).None?;
    }
  }

  lemma FieldOfPair(a: (string, Json), b: (string, Json), key: string)
    ensures Field([a, b], key) == if a.0 == key then Some(a.1) else if b.0 == key then Some(b.1) else None
  {
    assert [a, b][1..] == [b];
    assert [b][1..] == [];
    assert Field([b], key) == if b.0 == key then Some(b.1) else Field([], key);
  }

  lemma FieldOfEntry(present: bool, k: string, v: Json, key: string)
    ensures Field(Entry(present, k, v), key) == if present && k == key then Some(v) else None
  {
  }

  lemma FieldsOfToDict(base: seq<(string, Json)>, t: seq<(string, Json)>, c: seq<(string, Json)>, m: seq<(string, Json)>,
                       a: seq<(string, Json)>, q: seq<(string, Json)>, key: string)
    ensures Field(base + t + c + m + a + q, key)
      == if Field(base, key).Some? then Field(base, key)
         else if Field(t, key).Some? then Field(t, key)
         else if Field(c, key).Some? then Field(c, key)
         else if Field(m, key).Some? then Field(m, key)
         else if Field(a, key).Some? then Field(a, key)
         else Field(q, key)
  {
    FieldConcat(base + t + c + m + a, q, key);
    FieldConcat(base + t + c + m, a, key);
    FieldConcat(base + t + c, m, key);
    FieldConcat(base + t, c, key);
    FieldConcat(base, t, key);
  }

  /** A code query carries its structure only when the structure is not empty. */
  lemma CodeStructureOnlyWhenGiven(q: CodeQuery)
    ensures Field(CodeQueryJson(q).fields, "codeStructure") == if |q.codeStructure| > 0 then Some(JObj(q.codeStructure)) else None
    ensures Field(CodeQueryJson(q).fields, "language") == Some(JStr(LanguageName(q.language)))
  {
    var base := [("code", JStr(q.code)), ("language", JStr(LanguageName(q.language)))];
    FieldOfPair(base[0], base[1], "codeStructure");
    FieldOfPair(base[0], base[1], "language");
    assert base == [base[0], base[1]];
    FieldOfEntry(|q.codeStructure| > 0, "codeStructure", JObj(q.codeStructure), "codeStructure");
    FieldConcat(base, Entry(|q.codeStructure| > 0, "codeStructure", JObj(q.codeStructure)), "codeStructure");
    FieldConcat(base, Entry(|q.codeStructure| > 0, "codeStructure", JObj(q.codeStructure)), "language");
  }

  // ---------------------------------------------------------------- search

  datatype MynahConfig = MynahConfig(
    requester: string,
    maxResults: int,
    codeSearchEnabled: bool,
    defaultLanguage: Language,
    acceptSuggestionBody: BodyType)

  /** The configuration the tool server starts with. */
  const ServerConfig: MynahConfig := MynahConfig("RagExperimental", 5, false, TypeScript, Markdown)

  const DefaultAttributes: seq<ContextAttribute> := [
    ContextAttribute("document-type", "documentation"),
    ContextAttribute("document-type", "question-answer"),
    ContextAttribute("document-type", "blog"),
    ContextAttribute("document-type", "faq")]

  /** `_create_search_request`: a code query only for a code search with code search enabled, a text query otherwise. */
  function CreateSearchRequest(cfg: MynahConfig, query: string, maxResults: int, searchType: SearchType,
                               attrs: seq<ContextAttribute>, requestId: string): (r: SearchRequest)
    ensures r.codeQuery.Some? <==> cfg.codeSearchEnabled && searchType == CodeSearch
    ensures r.textQuery.Some? <==> r.codeQuery.None?
    ensures r.codeQuery.Some? ==> r.contextAttributes == [] && r.codeQuery.value == CodeQuery(query, cfg.defaultLanguage, [])
    ensures r.textQuery.Some? ==> r.contextAttributes == attrs && r.textQuery.value == query
    ensures r.requester == cfg.requester && r.maxResults == Some(maxResults)
      && r.acceptSuggestionBody == Some(cfg.acceptSuggestionBody) && r.requestId == Some(requestId)
  {
    if cfg.codeSearchEnabled && searchType == CodeSearch then
      SearchRequest([], cfg.requester, None, Some(CodeQuery(query, cfg.defaultLanguage, [])), Some(maxResults),
        Some(cfg.acceptSuggestionBody), Some(requestId))
    else
      SearchRequest(attrs, cfg.requester, Some(query), None, Some(maxResults), Some(cfg.acceptSuggestionBody), Some(requestId))
  }

  /** The request `search` sends: a missing count and an empty attribute list take the configured defaults. */
  function SearchRequestFor(cfg: MynahConfig, query: string, maxResults: Option<int>, attrs: seq<ContextAttribute>,
                            searchType: SearchType, requestId: string): (r: SearchRequest)
    ensures r.maxResults == Some(if maxResults.Some? then maxResults.value else cfg.maxResults)
    ensures r.textQuery.Some? ==> r.contextAttributes == if |attrs| > 0 then attrs else DefaultAttributes
  {
    var n := if maxResults.Some? then maxResults.value else cfg.maxResults;
    var a := if |attrs| > 0 then attrs else DefaultAttributes;
    CreateSearchRequest(cfg, query, n, searchType, a, requestId)
  }

  /** `search_aws_docs`: the domain and documentation attributes, then the blog and FAQ ones when asked for. */
  function AwsDocsAttributes(includeFaq: bool, includeBlog: bool): (attrs: seq<ContextAttribute>)
    ensures |attrs| == 2 + (if includeFaq then 1 else 0) + (if includeBlog then 1 else 0)
    ensures attrs[..2] == [ContextAttribute("domain", "docs.aws.amazon.com"), ContextAttribute("document-type", "documentation")]
    ensures ContextAttribute("document-type", "faq") in attrs <==> includeFaq
    ensures ContextAttribute("document-type", "blog") in attrs <==> includeBlog
  {
    [ContextAttribute("domain", "docs.aws.amazon.com"), ContextAttribute("document-type", "documentation")]
      + (if includeBlog then [ContextAttribute("document-type", "blog")] else [])
      + (if includeFaq then [ContextAttribute("document-type", "faq")] else [])
  }

  const CloudFormationAttributes: seq<ContextAttribute> := [
    ContextAttribute("domain", "docs.aws.amazon.com"),
    ContextAttribute("aws-docs-search-product", "AWS CloudFormation"),
    ContextAttribute("documentation-type", "cloudformation")]

  // ---------------------------------------------------------------- the response

  datatype SuggestionType = LexicalSuggestion | NeuralSuggestion | CuratedSuggestion

  datatype Excerpt = Excerpt(link: string, title: string, suggestionBody: string, summary: Option<Json>, kind: Option<SuggestionType>)

  datatype SearchResponse = SearchResponse(queryId: Option<Json>, suggestions: seq<Excerpt>, facets: Option<Json>)

  const ExcerptKey: string := "textExcerptSuggestion"

  /**
   * The text an f-string shows for a value read with `.get(key, "")`: "" when
   * the key is missing, else Python's `str` of the value as stored.
   */
  function Text(v: Option<Json>): string {
    match v
    case None => ""
    case Some(x) => PyStr(x)
  }

  function ParseSuggestionType(v: Json): Result<SuggestionType> {
    if v == JStr("LexicalSuggestion") then Ok(LexicalSuggestion)
    else if v == JStr("NeuralSuggestion") then Ok(NeuralSuggestion)
    else if v == JStr("CuratedSuggestion") then Ok(CuratedSuggestion)
    else Err("ValueError: " + Dumps(v) + " is not a valid SuggestionType")
  }

  /** The excerpt built from the value under `textExcerptSuggestion`. */
  function MakeExcerpt(ts: Json): Result<Excerpt> {
    if !ts.JObj? then Err("AttributeError: 'get'")
    else
      if Field(ts.fields, "type").Some? && ParseSuggestionType(Field(ts.fields, "type").value).Err? then
        Err(ParseSuggestionType(Field(ts.fields, "type").value).error)
      else
        Ok(Excerpt(Text(Field(ts.fields, "link")), Text(Field(ts.fields, "title")), Text(Field(ts.fields, "suggestionBody")),
          Field(ts.fields, "summary"),
          if Field(ts.fields, "type").Some? then Some(ParseSuggestionType(Field(ts.fields, "type").value).value) else None))
  }

  /**
   * One element of `suggestions`: a dictionary holding the excerpt key
   * yields an excerpt and one without it is skipped; for a string or a list
   * the `in` test is a substring or membership test, after which indexing
   * with a string raises; `in` on a number, a boolean or null raises.
   */
  function SuggestionOf(e: Json): Result<Option<Excerpt>> {
    match e
    case JObj(fields) =>
      if Field(fields, ExcerptKey).None? then Ok(None)
      else
        var x := MakeExcerpt(Field(fields, ExcerptKey).value);
        if x.Err? then Err(x.error) else Ok(Some(x.value))
    case JStr(s) => if Contains(s, ExcerptKey) then Err("TypeError: string indices must be integers") else Ok(None)
    case JArr(items) => if JStr(ExcerptKey) in items then Err("TypeError: list indices must be integers") else Ok(None)
    case _ => Err("TypeError: argument of type is not iterable")
  }

  /** The decoded elements, in order. */
  function Decoded(items: seq<Json>): (ds: seq<Result<Option<Excerpt>>>)
    ensures |ds| == |items| && forall i :: 0 <= i < |items| ==> ds[i] == SuggestionOf(items[i])
  {
    seq(|items|, i requires 0 <= i < |items| => SuggestionOf(items[i]))
  }

  /** The excerpts of the decoded elements, in order, or the first error: the loop of `from_dict`. */
  function Collect(ds: seq<Result<Option<Excerpt>>>): Result<seq<Excerpt>>
    decreases |ds|
  {
    if |ds| == 0 then Ok([])
    else
      var init := Collect(ds[..|ds| - 1]);
      var last := ds[|ds| - 1];
      if init.Err? then init
      else if last.Err? then Err(last.error)
      else if last.value.Some? then Ok(init.value + [last.value.value])
      else init
  }

  function Excerpts(items: seq<Json>): Result<seq<Excerpt>> {
    Collect(Decoded(items))
  }

  /** The positions that yield an excerpt, in increasing order. */
  function KeptPositions(ds: seq<Result<Option<Excerpt>>>): seq<nat>
    decreases |ds|
  {
    if |ds| == 0 then []
    else
      var init := KeptPositions(ds[..|ds| - 1]);
      var last := ds[|ds| - 1];
      if last.Ok? && last.value.Some? then init + [|ds| - 1] else init
  }

  /** The kept positions increase and lie within the list, and each holds an excerpt. */
  lemma {:induction false} KeptPositionsIncrease(ds: seq<Result<Option<Excerpt>>>)
    ensures forall k :: 0 <= k < |KeptPositions(ds)| ==>
      KeptPositions(ds)[k] < |ds| && ds[KeptPositions(ds)[k]].Ok? && ds[KeptPositions(ds)[k]].value.Some?
    ensures forall i, j :: 0 <= i < j < |KeptPositions(ds)| ==> KeptPositions(ds)[i] < KeptPositions(ds)[j]
    decreases |ds|
  {
    if |ds| > 0 {
      var init := ds[..|ds| - 1];
      KeptPositionsIncrease(init);
      var ps0 := KeptPositions(init);
      assert forall k :: 0 <= k < |ps0| ==> ds[ps0[k]] == init[ps0[k]];
      var last := ds[|ds| - 1];
      if last.Ok? && last.value.Some? {
        assert KeptPositions(ds) == ps0 + [|ds| - 1];
      } else {
        assert KeptPositions(ds) == ps0;
      }
    }
  }

  /** Every element with an excerpt is at a kept position. */
  lemma {:induction false} KeptPositionsComplete(ds: seq<Result<Option<Excerpt>>>)
    ensures forall i :: 0 <= i < |ds| && ds[i].Ok? && ds[i].value.Some? ==> i in KeptPositions(ds)
    decreases |ds|
  {
    if |ds| > 0 {
      var init := ds[..|ds| - 1];
      KeptPositionsComplete(init);
      assert forall i :: 0 <= i < |init| ==> ds[i] == init[i];
    }
  }

  /** The `k`-th excerpt collected is the one at the `k`-th kept position. */
  lemma {:induction false} CollectAtKept(ds: seq<Result<Option<Excerpt>>>)
    requires Collect(ds).Ok?
    ensures |Collect(ds).value| == |KeptPositions(ds)|
    ensures forall k :: 0 <= k < |KeptPositions(ds)| ==>
      KeptPositions(ds)[k] < |ds| && ds[KeptPositions(ds)[k]] == Ok(Some(Collect(ds).value[k]))
    decreases |ds|
  {
    if |ds| > 0 {
      var init := ds[..|ds| - 1];
      assert Collect(init).Ok?;
      CollectAtKept(init);
      var xs0 := Collect(init).value;
      var ps0 := KeptPositions(init);
      assert forall k :: 0 <= k < |ps0| ==> ds[ps0[k]] == init[ps0[k]];
      var last := ds[|ds| - 1];
      if last.value.Some? {
        assert Collect(ds).value == xs0 + [last.value.value];
        assert KeptPositions(ds) == ps0 + [|ds| - 1];
      } else {
        assert Collect(ds).value == xs0;
        assert KeptPositions(ds) == ps0;
      }
    }
  }

  /**
   * A decoded list holds, in the order of the input, exactly the elements
   * that carry an excerpt: one excerpt per kept position, positions
   * increasing, and every element with an excerpt is kept.
   */
  lemma CollectKeepsOrder(ds: seq<Result<Option<Excerpt>>>)
    requires Collect(ds).Ok?
    ensures var xs := Collect(ds).value; var ps := KeptPositions(ds);
      |xs| == |ps|
      && (forall i, j :: 0 <= i < j < |ps| ==> ps[i] < ps[j])
      && (forall k :: 0 <= k < |ps| ==> ps[k] < |ds| && ds[ps[k]] == Ok(Some(xs[k])))
      && (forall i :: 0 <= i < |ds| && ds[i].Ok? && ds[i].value.Some? ==> i in ps)
  {
    KeptPositionsIncrease(ds);
    KeptPositionsComplete(ds);
    CollectAtKept(ds);
  }

  /** An element that fails to decode makes the whole answer fail. */
  lemma {:induction false} CollectFails(ds: seq<Result<Option<Excerpt>>>, i: nat)
    requires i < |ds| && ds[i].Err?
    ensures Collect(ds).Err?
    decreases |ds|
  {
    if i < |ds| - 1 {
      var init := ds[..|ds| - 1];
      assert init[i] == ds[i];
      CollectFails(init, i);
    }
  }

  /** `from_dict` keeps, in order, exactly the elements that carry an excerpt. */
  lemma ExcerptsKeepOrder(items: seq<Json>)
    requires Excerpts(items).Ok?
    ensures var xs := Excerpts(items).value; var ps := KeptPositions(Decoded(items));
      |xs| == |ps|
      && (forall i, j :: 0 <= i < j < |ps| ==> ps[i] < ps[j])
      && (forall k :: 0 <= k < |ps| ==> ps[k] < |items| && SuggestionOf(items[ps[k]]) == Ok(Some(xs[k])))
      && (forall i :: 0 <= i < |items| && SuggestionOf(items[i]).Ok? && SuggestionOf(items[i]).value.Some? ==> i in ps)
  {
    CollectKeepsOrder(Decoded(items));
  }

  /** One element that makes `from_dict` raise makes the whole decoding fail. */
  lemma BadSuggestionFails(items: seq<Json>, i: nat)
    requires i < |items| && SuggestionOf(items[i]).Err?
    ensures Excerpts(items).Err?
  {
    CollectFails(Decoded(items), i);
  }

  /** `SearchResponse.from_dict`. */
  function FromDict(data: Json): Result<SearchResponse> {
    if !data.JObj? then Err("AttributeError: 'get'")
    else
      var suggestions :=
        match Field(data.fields, "suggestions")
        case None => Ok([])
        case Some(JArr(items)) => Excerpts(items)
        case Some(JStr(s)) => Ok([])   // the characters of a string never hold the key
        case Some(JObj(fields)) => Excerpts(seq(|fields|, i requires 0 <= i < |fields| => JStr(fields[i].0)))
        case Some(_) => Err("TypeError: object is not iterable");
      if suggestions.Err? then Err(suggestions.error)
      else Ok(SearchResponse(Field(data.fields, "queryId"), suggestions.value, Field(data.fields, "facets")))
  }

  /** A listed answer decodes to exactly its excerpts, in order. */
  lemma FromDictSuggestions(data: Json)
    requires data.JObj? && Field(data.fields, "suggestions").Some? && Field(data.fields, "suggestions").value.JArr?
    ensures var items := Field(data.fields, "suggestions").value.items;
      FromDict(data).Ok? <==> Excerpts(items).Ok?
    ensures var items := Field(data.fields, "suggestions").value.items;
      FromDict(data).Ok? ==>
        (FromDict(data).value.suggestions == Excerpts(items).value
         && FromDict(data).value.queryId == Field(data.fields, "queryId"))
  {
  }

  /** An answer without `suggestions` decodes to no suggestions. */
  lemma FromDictWithoutSuggestions(data: Json)
    requires data.JObj? && Field(data.fields, "suggestions").None?
    ensures FromDict(data) == Ok(SearchResponse(Field(data.fields, "queryId"), [], Field(data.fields, "facets")))
  {
  }

  // ---------------------------------------------------------------- formatting

  function Dashes(n: nat): (s: string)
    ensures |s| == n && forall i :: 0 <= i < n ==> s[i] == '-'
  {
    if n == 0 then "" else Dashes(n - 1) + "-"
  }

  /** Python truthiness of the summary. */
  function SummaryText(summary: Option<Json>): string {
    match summary
    case None => "N/A"
    case Some(JNull) => "N/A"
    case Some(JStr(s)) => if s == "" then "N/A" else s
    case Some(JBool(b)) => if b then "True" else "N/A"
    case Some(JInt(i)) => if i == 0 then "N/A" else IntToString(i)
    case Some(JArr(items)) => if |items| == 0 then "N/A" else Dumps(JArr(items))
    case Some(JObj(fields)) => if |fields| == 0 then "N/A" else Dumps(JObj(fields))
  }

  /** Python's `"".join(ss)`. */
  function Concat(ss: seq<string>): string
    decreases |ss|
  {
    if |ss| == 0 then "" else Concat(ss[..|ss| - 1]) + ss[|ss| - 1]
  }

  /** `format_suggestion` for entry number `idx` (at least 1, so always shown). */
  function FormatSuggestion(x: Excerpt, idx: nat): string {
    Concat(["\n", NatToString(idx), " Title: ", x.title,
            "\n   Link: ", x.link,
            "\n   Summary: ", SummaryText(x.summary),
            "\n   ", Dashes(80),
            "\n   Suggestion Body: ", x.suggestionBody,
            "\n   ", Dashes(80), "\n"])
  }

  /** The formatted entries of `xs`, numbered from 1. */
  function EntryTexts(xs: seq<Excerpt>): (es: seq<string>)
    ensures |es| == |xs| && forall i :: 0 <= i < |xs| ==> es[i] == FormatSuggestion(xs[i], i + 1)
  {
    seq(|xs|, i requires 0 <= i < |xs| => FormatSuggestion(xs[i], i + 1))
  }

  /** `ss[k]` comes right after the strings before it. */
  lemma {:induction false} ConcatInOrder(ss: seq<string>, k: nat) returns (rest: string)
    requires k < |ss|
    ensures Concat(ss) == Concat(ss[..k]) + ss[k] + rest
    decreases |ss|
  {
    var init := ss[..|ss| - 1];
    if k == |ss| - 1 {
      rest := "";
    } else {
      var r0 := ConcatInOrder(init, k);
      assert init[..k] == ss[..k] && init[k] == ss[k];
      rest := r0 + ss[|ss| - 1];
    }
  }

  const NoResults: string := "No results found."
  const ResultsHeader: string := "\nSearch Results:"

  /** `format_suggestions`. */
  function FormatSuggestions(r: SearchResponse): (s: string)
    ensures |r.suggestions| == 0 <==> s == NoResults
    ensures |r.suggestions| > 0 ==> s == ResultsHeader + Concat(EntryTexts(r.suggestions))
  {
    if |r.suggestions| == 0 then NoResults
    else
      var s := ResultsHeader + Concat(EntryTexts(r.suggestions));
      assert s[0] != NoResults[0];
      s
  }

  /** Entry `k` of the text is suggestion `k` numbered `k + 1`, after the entries before it. */
  lemma EntriesInOrder(r: SearchResponse, k: nat) returns (rest: string)
    requires k < |r.suggestions|
    ensures var es := EntryTexts(r.suggestions);
      FormatSuggestions(r) == ResultsHeader + Concat(es[..k]) + FormatSuggestion(r.suggestions[k], k + 1) + rest
  {
    rest := ConcatInOrder(EntryTexts(r.suggestions), k);
  }

  /** The count `search_aws_documentations` asks for when its caller gives none. */
  const ToolDefaultMaxResults: int := 5

  /**
   * `search_aws_documentations(query, max_results)`: a text search for the
   * caller's count (which the tool's signature defaults to 5) over the
   * default document types.
   */
  function SearchToolRequest(query: string, maxResults: int, requestId: string): (r: SearchRequest)
    ensures r.maxResults == Some(maxResults) && r.textQuery == Some(query) && r.contextAttributes == DefaultAttributes
  {
    SearchRequestFor(ServerConfig, query, Some(maxResults), [], TextSearch, requestId)
  }

  function SearchToolText(answer: Json): Result<string> {
    var r := FromDict(answer);
    if r.Err? then Err(r.error) else Ok(FormatSuggestions(r.value))
  }
}
