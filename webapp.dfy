/**
 * src/websentry/webapp.py: the title parse of fetch_page_title_and_headers,
 * the mode string, _build_report, and the request checks of the /scan-json
 * endpoint. The HTTP fetch is a parameter (the page it returned, or None when
 * requests raised), as is the chat-completion call.
 */
module WebApp {
  import opened Wrappers
  import opened Text
  import opened Headers
  import opened Findings
  import opened Config
  import opened Summary
  import opened Cli

  // ---------------------------------------------------------------- title

  const OpenTag := "<title>"
  const CloseTag := "</title>"
  const UnknownTitle := "Unknown"

  /**
   * t1 and t2 are the first "<title>" and the first "</title>" of the
   * lower-cased page, and the closing one comes later.
   */
  predicate TitleSpan(text: string, t1: int, t2: int) {
    FirstOccurrence(Lower(text), OpenTag, t1) && FirstOccurrence(Lower(text), CloseTag, t2) && t1 < t2
  }

  /** A "</title>" that starts after a "<title>" starts after its end too. */
  lemma CloseTagAfterOpenTag(lo: string, t1: int, t2: int)
    requires OccursAt(lo, OpenTag, t1) && OccursAt(lo, CloseTag, t2) && t1 < t2
    ensures t1 + |OpenTag| <= t2
  {
    CharAt(lo, CloseTag, t2, 0);
    forall j | t1 < j < t1 + |OpenTag| ensures lo[j] != '<' {
      CharAt(lo, OpenTag, t1, j - t1);
    }
  }

  lemma CharAt(s: string, p: string, i: int, k: int)
    requires OccursAt(s, p, i) && 0 <= k < |p|
    ensures s[i + k] == p[k]
  {
    assert s[i..i + |p|][k] == s[i + k];
  }

  lemma FirstOccurrenceUnique(s: string, p: string, i: int, j: int)
    requires FirstOccurrence(s, p, i) && FirstOccurrence(s, p, j)
    ensures i == j
  {
  }

  /**
   * The title parse: positions are found in the lower-cased page and used
   * to slice the original text; the text between the tags is stripped;
   * without a well-ordered pair of tags the title stays "Unknown".
   */
  function ExtractTitle(text: string): (title: string)
    ensures forall t1, t2 :: TitleSpan(text, t1, t2) ==>
      t1 + |OpenTag| <= t2 && title == Strip(text[t1 + |OpenTag|..t2])
    ensures (forall t1, t2 :: !TitleSpan(text, t1, t2)) ==> title == UnknownTitle
    ensures Strip(title) == title
  {
    var lo := Lower(text);
    var t1 := Find(lo, OpenTag);
    var t2 := Find(lo, CloseTag);
    if t1 != -1 && t2 != -1 && t2 > t1 then
      CloseTagAfterOpenTag(lo, t1, t2);
      assert TitleSpan(text, t1, t2);
      assert forall a, b :: TitleSpan(text, a, b) ==> a == t1 && b == t2 by {
        forall a, b | TitleSpan(text, a, b) ensures a == t1 && b == t2 {
          FirstOccurrenceUnique(lo, OpenTag, a, t1);
          FirstOccurrenceUnique(lo, CloseTag, b, t2);
        }
      }
      StripIdempotent(text[t1 + |OpenTag|..t2]);
      Strip(text[t1 + |OpenTag|..t2])
    else
      assert UnknownTitle[0] == 'U' && UnknownTitle[|UnknownTitle| - 1] == 'n';
      StripUnchanged(UnknownTitle);
      UnknownTitle
  }

  // ---------------------------------------------------------------- mode

  const AiMode := "AI-assisted (LLM enabled)"
  const RuleMode := "Rule-based (LLM disabled)"

  /** _llm_mode_string(): the configured capability, not what the call did. */
  function ModeString(env: Env): (m: string)
    ensures m == AiMode <==> LlmEnabled(env)
    ensures m == RuleMode <==> !LlmEnabled(env)
  {
    if LlmEnabled(env) then AiMode else RuleMode
  }

  // ---------------------------------------------------------------- report

  const WebSampleSize := 20

  /**
   * dict(list(headers.items())[:20]): the first twenty entries in insertion
   * order, values unchanged; a key is kept exactly when it is among them.
   */
  function FirstHeadersSample(h: HeaderMap): (r: HeaderMap)
    ensures |r| == Min(WebSampleSize, |h|)
    ensures forall i | 0 <= i < |r| :: r[i] == h[i]
    ensures forall i | 0 <= i < |h| :: Has(r, h[i].name) <==> i < WebSampleSize
    ensures forall k :: Has(r, k) ==> Lookup(r, k) == Lookup(h, k)
  {
    var r := h[..Min(WebSampleSize, |h|)];
    forall k | Has(r, k) ensures Lookup(r, k) == Lookup(h, k) {
      var i :| 0 <= i < |r| && r[i].name == k;
      LookupEntry(r, i);
      LookupEntry(h, i);
    }
    r
  }

  /** What requests.get yields here: the response headers and body text. */
  datatype FetchedPage = FetchedPage(headers: HeaderMap, html: string)

  datatype WebMeta = WebMeta(tool: string, version: string, scannedAt: string, mode: string, scope: string)

  datatype WebReport = WebReport(
    url: string,
    title: string,
    executiveSummary: string,
    headersSample: HeaderMap,
    findings: seq<Finding>,
    meta: WebMeta)

  const Tool := "WebSentry AI"
  const DefaultVersion := "0.1.0"
  const Scope := "Unauthenticated, read-only checks (MVP)"

  /**
   * _build_report once the page is fetched; now is the _utc_iso() stamp.
   * The findings are the rule engine's, the summary is generated from the
   * same url, title and findings, and the mode reports the configuration.
   */
  function BuildReport(env: Env, url: string, page: FetchedPage, now: string,
                       call: LlmRequest -> LlmOutcome): (r: WebReport)
    ensures r.url == url && r.title == ExtractTitle(page.html)
    ensures r.findings == RuleFindings(page.headers)
    ensures r.executiveSummary == GenerateExecutiveSummary(env, url, r.title, r.findings, call)
    ensures r.executiveSummary != ""
    ensures r.headersSample == FirstHeadersSample(page.headers)
    ensures r.meta.tool == Tool && r.meta.version == Getenv(env.version, DefaultVersion)
    ensures r.meta.scannedAt == now && r.meta.scope == Scope
    ensures r.meta.mode == ModeString(env)
  {
    var title := ExtractTitle(page.html);
    var findings := RuleFindings(page.headers);
    WebReport(
      url,
      title,
      GenerateExecutiveSummary(env, url, title, findings, call),
      FirstHeadersSample(page.headers),
      findings,
      WebMeta(Tool, Getenv(env.version, DefaultVersion), now, ModeString(env), Scope))
  }

  /**
   * Whatever the call does, only the executive summary can change: the mode
   * string stays the configured one.
   */
  lemma ReportIgnoresOutcome(env: Env, url: string, page: FetchedPage, now: string,
                             call1: LlmRequest -> LlmOutcome, call2: LlmRequest -> LlmOutcome)
    ensures BuildReport(env, url, page, now, call1).(executiveSummary := "") ==
            BuildReport(env, url, page, now, call2).(executiveSummary := "")
  {
  }

  /** Switched on, a failing call still reports AI-assisted mode with the rule-based summary. */
  lemma EnabledModeDespiteFailure(env: Env, url: string, page: FetchedPage, now: string,
                                  call: LlmRequest -> LlmOutcome)
    requires LlmEnabled(env)
    requires forall req :: call(req) == CallFailed
    ensures BuildReport(env, url, page, now, call).meta.mode == AiMode
    ensures BuildReport(env, url, page, now, call).executiveSummary ==
      RuleBasedSummary(url, ExtractTitle(page.html), RuleFindings(page.headers))
  {
  }

  // ---------------------------------------------------------------- /scan-json

  /** The "url" member of the JSON body. */
  datatype UrlField =
    | Missing            // no "url" key, or null
    | FalsyValue         // false, 0, [] or {}
    | Text(s: string)    // a JSON string
    | TruthyNonString    // true, a non-zero number, a non-empty array or object

  /** The request body as request.json() sees it. */
  datatype RequestBody =
    | Unparsable         // not JSON: request.json() raises
    | NonObject          // JSON, but not an object: data.get raises
    | Object(url: UrlField)

  /** The HTTP answer of the endpoint. */
  datatype Response =
    | Status(code: nat, detail: string)
    | InternalError      // an unhandled exception
    | Report(report: WebReport)

  /** What the checks decide before any fetch. */
  datatype Gate = Refuse(response: Response) | Proceed(url: string)

  const Unauthorized := Status(401, "Invalid or missing API key")
  const MissingUrl := Status(400, "Missing url")

  /** An API key is configured and the X-API-Key header (default "") differs from it. */
  predicate KeyMismatch(env: Env, provided: Option<string>) {
    Truthy(env.apiKey) && provided.GetOr("") != env.apiKey.value
  }

  /**
   * The checks of scan_json: the key first, then the body, then the url,
   * which must be a string that is not blank once stripped.
   */
  function ScanGate(env: Env, provided: Option<string>, body: RequestBody): (g: Gate)
    ensures g == Refuse(Unauthorized) <==> KeyMismatch(env, provided)
    ensures g == Refuse(MissingUrl) <==>
      !KeyMismatch(env, provided) && body.Object? &&
      (body.url.Missing? || body.url.FalsyValue? || (body.url.Text? && AllSpace(body.url.s)))
    ensures g == Refuse(InternalError) <==>
      !KeyMismatch(env, provided) && (!body.Object? || body.url.TruthyNonString?)
    ensures g.Proceed? <==>
      !KeyMismatch(env, provided) && body.Object? && body.url.Text? && !AllSpace(body.url.s)
    ensures g.Proceed? ==> g.url == Strip(body.url.s) && g.url != "" && Strip(g.url) == g.url
  {
    if KeyMismatch(env, provided) then Refuse(Unauthorized)
    else
      match body
      case Unparsable => Refuse(InternalError)
      case NonObject => Refuse(InternalError)
      case Object(field) =>
        match field
        case Missing => Refuse(MissingUrl)
        case FalsyValue => Refuse(MissingUrl)
        case TruthyNonString => Refuse(InternalError)
        case Text(s) =>
          var url := Strip(s);
          StripIdempotent(s);
          if url == "" then Refuse(MissingUrl) else Proceed(url)
  }

  /** With no API key configured, the X-API-Key header is never looked at. */
  lemma NoKeyNoAuth(env: Env, p1: Option<string>, p2: Option<string>, body: RequestBody)
    requires !Truthy(env.apiKey)
    ensures ScanGate(env, p1, body) == ScanGate(env, p2, body)
    ensures ScanGate(env, p1, body) != Refuse(Unauthorized)
  {
  }

  /** A wrong key is refused before the body is examined. */
  lemma AuthBeforeBody(env: Env, provided: Option<string>, b1: RequestBody, b2: RequestBody)
    requires KeyMismatch(env, provided)
    ensures ScanGate(env, provided, b1) == ScanGate(env, provided, b2) == Refuse(Unauthorized)
  {
  }

  /** Sending the configured key passes the check. */
  lemma RightKeyPasses(env: Env, body: RequestBody)
    requires env.apiKey.Some?
    ensures ScanGate(env, env.apiKey, body) != Refuse(Unauthorized)
  {
  }

  /**
   * scan_json: the checks, then the fetch of the stripped url (None when
   * requests raised, an unhandled exception), then the report.
   */
  function ScanJson(env: Env, provided: Option<string>, body: RequestBody,
                    fetch: string -> Option<FetchedPage>, now: string,
                    call: LlmRequest -> LlmOutcome): (resp: Response)
    ensures ScanGate(env, provided, body).Refuse? ==> resp == ScanGate(env, provided, body).response
    ensures resp.Report? <==>
      ScanGate(env, provided, body).Proceed? && fetch(ScanGate(env, provided, body).url).Some?
    ensures ScanGate(env, provided, body).Proceed? && fetch(ScanGate(env, provided, body).url).None? ==>
      resp == InternalError
    ensures resp.Report? ==>
      && resp.report == BuildReport(env, ScanGate(env, provided, body).url,
                                    fetch(ScanGate(env, provided, body).url).value, now, call)
      && resp.report.url == ScanGate(env, provided, body).url
      && resp.report.url != ""
      && resp.report.executiveSummary != ""
  {
    match ScanGate(env, provided, body)
    case Refuse(response) => response
    case Proceed(url) =>
      match fetch(url)
      case None => InternalError
      case Some(page) => Report(BuildReport(env, url, page, now, call))
  }
}
