/**
 * src/websentry/cli.py: the rule engine run_rule_based_checks and the report
 * that the `main` command assembles around it (severity counts, a sorted
 * header sample of at most 25 entries, metadata and totals).
 */
module Cli {
  import opened Wrappers
  import opened Text
  import opened Headers
  import opened Findings

  const CspHeader := "content-security-policy"
  const XfoHeader := "x-frame-options"
  const ServerHeader := "server"

  const CspTitle := "Missing Content-Security-Policy header"
  const XfoTitle := "Missing X-Frame-Options header"
  const ServerTitle := "Server version disclosure"
  const ServerEvidencePrefix := "Server header present: "

  const MissingCsp := Finding(
    CspTitle, Medium,
    "No Content-Security-Policy header present in response",
    "Add a strict Content-Security-Policy header to reduce XSS risk")

  const MissingXfo := Finding(
    XfoTitle, Low,
    "No X-Frame-Options header present in response",
    "Add X-Frame-Options or frame-ancestors to prevent clickjacking")

  function ServerDisclosure(server: string): Finding {
    Finding(
      ServerTitle, Low,
      ServerEvidencePrefix + server,
      "Disable or obfuscate server version headers")
  }

  // ---------------------------------------------------------------- rules

  /** Rule 1: no "content-security-policy" key. */
  function CspRule(h: HeaderMap): seq<Finding> {
    if Has(h, CspHeader) then [] else [MissingCsp]
  }

  /** Rule 2: no "x-frame-options" key. */
  function XfoRule(h: HeaderMap): seq<Finding> {
    if Has(h, XfoHeader) then [] else [MissingXfo]
  }

  /** Rule 3: a "server" key, quoted in the evidence. */
  function ServerRule(h: HeaderMap): seq<Finding> {
    if Has(h, ServerHeader) then [ServerDisclosure(Value(h, ServerHeader))] else []
  }

  /** What the rule engine produces: the three rules, in their fixed order. */
  function RuleFindings(h: HeaderMap): seq<Finding> {
    CspRule(h) + XfoRule(h) + ServerRule(h)
  }

  /** run_rule_based_checks: appends one finding per triggered rule. */
  method RunRuleBasedChecks(headers: HeaderMap) returns (findings: seq<Finding>)
    ensures findings == RuleFindings(headers)
  {
    findings := [];
    if !Has(headers, CspHeader) {
      findings := findings + [MissingCsp];
    }
    if !Has(headers, XfoHeader) {
      findings := findings + [MissingXfo];
    }
    if Has(headers, ServerHeader) {
      findings := findings + [ServerDisclosure(Value(headers, ServerHeader))];
    }
  }

  /** The position of a rule's finding in the fixed rule order. */
  function RuleRank(f: Finding): nat {
    if f.title == CspTitle then 0 else if f.title == XfoTitle then 1 else 2
  }

  lemma RuleTitles(h: HeaderMap, t: string)
    ensures CountTitle(RuleFindings(h), t) ==
      CountTitle(CspRule(h), t) + CountTitle(XfoRule(h), t) + CountTitle(ServerRule(h), t)
  {
    CountTitleAppend(CspRule(h) + XfoRule(h), ServerRule(h), t);
    CountTitleAppend(CspRule(h), XfoRule(h), t);
  }

  /**
   * Exactly one "Missing Content-Security-Policy header" finding, of Medium
   * severity, when the exact key is absent; none when it is present.
   */
  lemma CspFinding(h: HeaderMap)
    ensures CountTitle(RuleFindings(h), CspTitle) == if Has(h, CspHeader) then 0 else 1
    ensures forall f :: f in RuleFindings(h) && f.title == CspTitle ==> f == MissingCsp && f.severity == Medium
  {
    RuleTitles(h, CspTitle);
  }

  /**
   * Exactly one Low "Missing X-Frame-Options header" finding when the exact
   * key is absent; none when it is present.
   */
  lemma XfoFinding(h: HeaderMap)
    ensures CountTitle(RuleFindings(h), XfoTitle) == if Has(h, XfoHeader) then 0 else 1
    ensures forall f :: f in RuleFindings(h) && f.title == XfoTitle ==> f == MissingXfo && f.severity == Low
  {
    RuleTitles(h, XfoTitle);
  }

  /**
   * Exactly one Low "Server version disclosure" finding when "server" is a
   * key, whose evidence quotes that header's value; none otherwise.
   */
  lemma ServerFinding(h: HeaderMap)
    ensures CountTitle(RuleFindings(h), ServerTitle) == if Has(h, ServerHeader) then 1 else 0
    ensures forall f :: f in RuleFindings(h) && f.title == ServerTitle ==>
      && Has(h, ServerHeader)
      && f.severity == Low
      && f.evidence == ServerEvidencePrefix + Value(h, ServerHeader)
  {
    RuleTitles(h, ServerTitle);
  }

  /**
   * At most three findings, none High, every one from one of the three
   * rules, in the rule order CSP, X-Frame-Options, Server.
   */
  lemma RuleFindingsShape(h: HeaderMap)
    ensures |RuleFindings(h)| <= 3
    ensures CountSeverity(RuleFindings(h), High) == 0
    ensures forall f :: f in RuleFindings(h) ==>
      f == MissingCsp || f == MissingXfo || (Has(h, ServerHeader) && f == ServerDisclosure(Value(h, ServerHeader)))
    ensures forall i, j :: 0 <= i < j < |RuleFindings(h)| ==>
      RuleRank(RuleFindings(h)[i]) < RuleRank(RuleFindings(h)[j])
  {
    var r := RuleFindings(h);
    assert forall i :: 0 <= i < |r| ==> r[i].severity != High;
  }

  /** The severity breakdown of the rule engine's output. */
  lemma RuleBreakdown(h: HeaderMap)
    ensures SeverityBreakdown(RuleFindings(h)) == Breakdown(
      0,
      if Has(h, CspHeader) then 0 else 1,
      (if Has(h, XfoHeader) then 0 else 1) + (if Has(h, ServerHeader) then 1 else 0))
  {
    var c, x, s := CspRule(h), XfoRule(h), ServerRule(h);
    forall sev: Severity
      ensures CountSeverity(RuleFindings(h), sev) ==
        CountSeverity(c, sev) + CountSeverity(x, sev) + CountSeverity(s, sev)
    {
      CountAppend(c + x, s, sev);
      CountAppend(c, x, sev);
    }
  }

  /**
   * The findings depend only on whether the three keys are present and on
   * the "server" value; no other header affects them.
   */
  lemma RuleFindingsLocal(h1: HeaderMap, h2: HeaderMap)
    requires Has(h1, CspHeader) == Has(h2, CspHeader)
    requires Has(h1, XfoHeader) == Has(h2, XfoHeader)
    requires Lookup(h1, ServerHeader) == Lookup(h2, ServerHeader)
    ensures RuleFindings(h1) == RuleFindings(h2)
  {
  }

  /** An empty header map yields the CSP finding, then the X-Frame-Options one. */
  lemma NoHeadersFindings()
    ensures RuleFindings([]) == [MissingCsp, MissingXfo]
  {
  }

  /**
   * A map holding only "server" yields the CSP and X-Frame-Options findings
   * and then the disclosure quoting the value.
   */
  lemma ServerOnlyFindings(v: string)
    ensures RuleFindings([Header(ServerHeader, v)]) ==
      [MissingCsp, MissingXfo, ServerDisclosure(v)]
  {
    var h: HeaderMap := [Header(ServerHeader, v)];
    assert h[0].name == ServerHeader;
    assert !Has(h, CspHeader) && !Has(h, XfoHeader);
  }

  // ---------------------------------------------------------------- report

  const SampleSize := 25

  /** sorted(headers.keys()), with what sorting distinct keys guarantees. */
  lemma SortedNames(h: HeaderMap)
    ensures |SortStrings(Names(h))| == |h|
    ensures StrictlySorted(SortStrings(Names(h)))
    ensures forall k :: k in SortStrings(Names(h)) <==> Has(h, k)
  {
    NamesOfMap(h);
    SortStringsCorrect(Names(h));
    var keys := SortStrings(Names(h));
    assert |multiset(keys)| == |multiset(Names(h))|;
    forall k ensures k in keys <==> k in Names(h) {
      assert k in keys <==> k in multiset(keys);
      assert k in Names(h) <==> k in multiset(Names(h));
    }
  }

  /**
   * {k: headers[k] for k in sorted(headers.keys())[:25]}: at most 25
   * entries, in ascending key order, each with its value unchanged, and
   * every key left out is larger than every key kept.
   */
  function SortedHeadersSample(h: HeaderMap): (r: HeaderMap)
    ensures |r| == Min(SampleSize, |h|)
    ensures forall i :: 0 <= i < |r| ==> Lookup(h, r[i].name) == Some(r[i].value)
    ensures forall i, j :: 0 <= i < j < |r| ==> Less(r[i].name, r[j].name)
    ensures forall k, i :: Has(h, k) && !Has(r, k) && 0 <= i < |r| ==> Less(r[i].name, k)
  {
    SortedNames(h);
    var keys := SortStrings(Names(h));
    var top := keys[..Min(SampleSize, |keys|)];
    assert forall i :: 0 <= i < |top| ==> top[i] in keys;
    var r := seq(|top|, i requires 0 <= i < |top| => Header(top[i], Value(h, top[i])));
    SampleFacts(h, keys, top, r);
    r
  }

  lemma SampleFacts(h: HeaderMap, keys: seq<string>, top: seq<string>, r: seq<Header>)
    requires StrictlySorted(keys) && forall k :: k in keys <==> Has(h, k)
    requires |top| <= |keys| && top == keys[..|top|]
    requires |r| == |top| && forall i :: 0 <= i < |r| ==> r[i].name == top[i] && Has(h, top[i]) && r[i].value == Value(h, top[i])
    ensures DistinctNames(r)
    ensures forall i :: 0 <= i < |r| ==> Lookup(h, r[i].name) == Some(r[i].value)
    ensures forall i, j :: 0 <= i < j < |r| ==> Less(r[i].name, r[j].name)
    ensures forall k, i :: Has(h, k) && !Has(r, k) && 0 <= i < |r| ==> Less(r[i].name, k)
  {
    forall i, j | 0 <= i < j < |r| ensures Less(r[i].name, r[j].name) {
      assert r[i].name == keys[i] && r[j].name == keys[j];
    }
    forall i, j | 0 <= i < j < |r| ensures r[i].name != r[j].name {
      LessIrreflexive(r[i].name);
    }
    forall k, i | Has(h, k) && !Has(r, k) && 0 <= i < |r| ensures Less(r[i].name, k) {
      var idx :| 0 <= idx < |keys| && keys[idx] == k;
      assert Less(keys[i], keys[idx]);
    }
  }

  /** The JSON "meta" object of the command-line report. */
  datatype CliMeta = CliMeta(tool: string, version: string, scannedAt: string)

  /** The JSON "summary" object. */
  datatype ReportSummary = ReportSummary(totalFindings: nat, severityBreakdown: Breakdown)

  datatype CliReport = CliReport(
    url: string,
    title: string,
    headersSample: HeaderMap,
    findings: seq<Finding>,
    meta: CliMeta,
    summary: ReportSummary)

  /**
   * What the browser navigation yields: the page title, and the response
   * headers unless page.goto returned no response.
   */
  datatype BrowserPage = BrowserPage(title: string, response: Option<HeaderMap>)

  /**
   * `main` once the page is fetched: run the rules, count severities, take
   * the header sample and stamp the metadata. utcNow is
   * datetime.utcnow().isoformat().
   */
  method ScanCommand(url: string, page: BrowserPage, utcNow: string) returns (report: CliReport)
    ensures report.url == url && report.title == page.title
    ensures report.findings == RuleFindings(page.response.GetOr([]))
    ensures report.headersSample == SortedHeadersSample(page.response.GetOr([]))
    ensures report.meta == CliMeta("WebSentry AI", "0.1.0", utcNow + "Z")
    ensures report.summary.totalFindings == |report.findings|
    ensures report.summary.severityBreakdown == SeverityBreakdown(report.findings)
  {
    var headers: HeaderMap := if page.response.Some? then page.response.value else [];
    var findings := RunRuleBasedChecks(headers);
    var counts := SeverityBreakdown(findings);
    report := CliReport(
      url,
      page.title,
      SortedHeadersSample(headers),
      findings,
      CliMeta("WebSentry AI", "0.1.0", utcNow + "Z"),
      ReportSummary(|findings|, counts));
  }
}
