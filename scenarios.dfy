/**
 * End-to-end cases that tie the rule engine, the summarizer and the web
 * report together.
 */
module Scenarios {
  import opened Wrappers
  import opened Text
  import opened Headers
  import opened Findings
  import opened Config
  import opened Summary
  import opened Cli
  import opened WebApp

  /** Nothing set in the environment. */
  const Unset := Env(None, None, None, None, None, None, None)

  /** An empty header map yields one Medium and one Low finding: moderate risk, two in total. */
  lemma EmptyHeadersFindings()
    ensures |RuleFindings([])| == 2
    ensures SeverityBreakdown(RuleFindings([])) == Breakdown(0, 1, 1)
    ensures PostureOf(RuleFindings([])) == Moderate
  {
    NoHeadersFindings();
    RuleBreakdown([]);
  }

  lemma TwoFindingsClause()
    ensures CountsClause(2, 0, 1, 1) == "2 issue(s): 0 High, 1 Medium, and 1 Low"
  {
    SmallNumerals();
    // the literal, joined one piece at a time
    assert "2" + " issue(s): " == "2 issue(s): ";
    assert "2 issue(s): " + "0" == "2 issue(s): 0";
    assert "2 issue(s): 0" + " High, " == "2 issue(s): 0 High, ";
    assert "2 issue(s): 0 High, " + "1" == "2 issue(s): 0 High, 1";
    assert "2 issue(s): 0 High, 1" + " Medium, and " == "2 issue(s): 0 High, 1 Medium, and ";
    assert "2 issue(s): 0 High, 1 Medium, and " + "1" == "2 issue(s): 0 High, 1 Medium, and 1";
    assert "2 issue(s): 0 High, 1 Medium, and 1" + " Low" == "2 issue(s): 0 High, 1 Medium, and 1 Low";
  }

  lemma SmallNumerals()
    ensures NatToString(2) == "2" && NatToString(0) == "0" && NatToString(1) == "1"
  {
  }

  /**
   * With the switch off, the summary of an empty header map reports
   * "2 issue(s): 0 High, 1 Medium, and 1 Low" and a moderate-risk posture.
   */
  lemma EmptyHeadersSummary(url: string, title: string, call: LlmRequest -> LlmOutcome)
    ensures var s := GenerateExecutiveSummary(Unset, url, title, RuleFindings([]), call);
      && Contains(s, "2 issue(s): 0 High, 1 Medium, and 1 Low")
      && Contains(s, PostureText(Moderate))
      && Contains(s, ModeratePriority)
  {
    var fs := RuleFindings([]);
    EmptyHeadersFindings();
    LlmEnabledIff(Unset);
    TwoFindingsClause();
    var s := RuleBasedSummary(url, title, fs);
    assert GenerateExecutiveSummary(Unset, url, title, fs, call) == s;
    assert Contains(s, CountsClause(2, 0, 1, 1));
  }

  /** Only "server" present: one Medium and two Low findings, all three titles listed as key issues. */
  lemma ServerOnlyReport()
    ensures SeverityBreakdown(RuleFindings([Header("server", "nginx/1.18")])) == Breakdown(0, 1, 2)
    ensures TopTitles(RuleFindings([Header("server", "nginx/1.18")])) == [CspTitle, XfoTitle, ServerTitle]
  {
    var h: HeaderMap := [Header("server", "nginx/1.18")];
    ServerOnlyFindings("nginx/1.18");
    RuleBreakdown(h);
    assert Has(h, ServerHeader) by { assert h[0].name == ServerHeader; }
    TopTitlesAll(RuleFindings(h));
  }

  /**
   * The flag "TRUE" with a key switches the summarizer on; when the call
   * fails the web report still says AI-assisted and carries the rule-based
   * summary.
   */
  lemma EnabledButFailingCall(url: string, page: FetchedPage, now: string, call: LlmRequest -> LlmOutcome)
    requires forall req :: call(req) == CallFailed
    ensures var env := Unset.(llmEnabled := Some("TRUE"), openaiApiKey := Some("sk"));
      && LlmEnabled(env)
      && BuildReport(env, url, page, now, call).meta.mode == AiMode
      && BuildReport(env, url, page, now, call).executiveSummary ==
         RuleBasedSummary(url, ExtractTitle(page.html), RuleFindings(page.headers))
  {
    var env := Unset.(llmEnabled := Some("TRUE"), openaiApiKey := Some("sk"));
    LlmEnabledIff(env);
    EnabledModeDespiteFailure(env, url, page, now, call);
  }

  /** A configured key that the request does not send is refused. */
  lemma MissingKeyRefused()
    ensures ScanGate(Unset.(apiKey := Some("k")), None, Object(Text("https://a"))) == Refuse(Unauthorized)
  {
  }

  /** The right key with a blank url is a bad request. */
  lemma BlankUrlRefused()
    ensures ScanGate(Unset.(apiKey := Some("k")), Some("k"), Object(Text("  "))) == Refuse(MissingUrl)
  {
    assert AllSpace("  ");
  }

  /** An empty configured key checks nothing; a missing url is a bad request. */
  lemma EmptyKeyMissingUrl()
    ensures ScanGate(Unset.(apiKey := Some("")), None, Object(Missing)) == Refuse(MissingUrl)
  {
  }

  /** The url goes ahead stripped. */
  lemma UrlStripped()
    ensures ScanGate(Unset, None, Object(Text(" https://a\n"))) == Proceed("https://a")
  {
    var t := " https://a\n";
    assert t[1] == 'h';
    StripUnchanged("https://a");
    assert StripsTo(t, "https://a", 1);
    StripFromSpan(t, "https://a", 1);
  }

  /** Tags are found in any letter case; the text between them keeps its own. */
  lemma UpperCaseTags()
    ensures ExtractTitle("<TITLE>Hi</TITLE>") == "Hi"
  {
    var text := "<TITLE>Hi</TITLE>";
    var lo := Lower(text);
    assert lo == "<title>hi</title>";
    assert OccursAt(lo, OpenTag, 0);
    assert OccursAt(lo, CloseTag, 9);
    forall k | 0 <= k < 9 ensures !OccursAt(lo, CloseTag, k) {
      assert lo[k..k + |CloseTag|][1] != CloseTag[1];
    }
    assert TitleSpan(text, 0, 9);
    assert text[7..9] == "Hi";
    StripUnchanged("Hi");
  }

  /** A closing tag before the opening one leaves the title "Unknown". */
  lemma ClosingTagFirst()
    ensures ExtractTitle("</title><title>") == UnknownTitle
  {
    var text := "</title><title>";
    var lo := Lower(text);
    assert lo == text;
    assert OccursAt(lo, CloseTag, 0);
    assert FirstOccurrence(lo, CloseTag, 0);
    forall a, b ensures !TitleSpan(text, a, b) {
      if TitleSpan(text, a, b) {
        FirstOccurrenceUnique(lo, CloseTag, b, 0);
      }
    }
  }
}

