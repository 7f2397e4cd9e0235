/**
 * src/websentry/llm/summary.py: whether the language-model path is switched
 * on, the rule-based executive summary that is always available, and the
 * model-first summary that falls back to it. The chat-completion call itself
 * is a parameter: a total function from the request the source would send to
 * what came back (or that it raised).
 */
module Summary {
  import opened Wrappers
  import opened Text
  import opened Findings
  import opened Config

  // ---------------------------------------------------------------- switch

  /** "true" in any letter case. */
  predicate IsTrueWord(f: string) {
    && |f| == 4
    && (f[0] == 't' || f[0] == 'T')
    && (f[1] == 'r' || f[1] == 'R')
    && (f[2] == 'u' || f[2] == 'U')
    && (f[3] == 'e' || f[3] == 'E')
  }

  /** llm_enabled(): the flag lower-cases to "true" and the OpenAI key is set and non-empty. */
  predicate LlmEnabled(env: Env) {
    Lower(Getenv(env.llmEnabled, "false")) == "true" && Truthy(env.openaiApiKey)
  }

  lemma LowerIsTrue(f: string)
    ensures Lower(f) == "true" <==> IsTrueWord(f)
  {
    if IsTrueWord(f) {
      assert forall k :: 0 <= k < 4 ==> Lower(f)[k] == "true"[k];
    }
  }

  /**
   * The switch is on exactly when the flag is "true" in some letter case
   * and the key is non-empty; an unset flag (default "false") keeps it off.
   */
  lemma LlmEnabledIff(env: Env)
    ensures LlmEnabled(env) <==>
      IsTrueWord(Getenv(env.llmEnabled, "false")) && env.openaiApiKey.Some? && env.openaiApiKey.value != ""
    ensures env.llmEnabled.None? ==> !LlmEnabled(env)
    ensures env.openaiApiKey.None? ==> !LlmEnabled(env)
  {
    LowerIsTrue(Getenv(env.llmEnabled, "false"));
  }

  // ---------------------------------------------------------------- posture

  datatype Posture = Elevated | Moderate | LowToModerate

  /** The if/elif/else on the High and Medium counts. */
  function PostureOf(fs: seq<Finding>): (p: Posture)
    ensures p == Elevated <==> exists i | 0 <= i < |fs| :: fs[i].severity == High
    ensures p == Moderate <==>
      (forall i | 0 <= i < |fs| :: fs[i].severity != High) &&
      (exists i | 0 <= i < |fs| :: fs[i].severity == Medium)
    ensures p == LowToModerate <==> forall i | 0 <= i < |fs| :: fs[i].severity == Low
  {
    if CountSeverity(fs, High) > 0 then Elevated
    else if CountSeverity(fs, Medium) > 0 then Moderate
    else LowToModerate
  }

  function PostureText(p: Posture): string {
    match p
    case Elevated => "elevated risk"
    case Moderate => "moderate risk"
    case LowToModerate => "low-to-moderate risk"
  }

  const ElevatedPriority := "address High severity issues immediately, followed by Medium and Low findings"
  const ModeratePriority := "remediate Medium severity issues first, then address Low severity hardening gaps"
  const LowPriority := "resolve Low severity configuration and hardening issues"

  function PriorityText(p: Posture): string {
    match p
    case Elevated => ElevatedPriority
    case Moderate => ModeratePriority
    case LowToModerate => LowPriority
  }

  // ---------------------------------------------------------------- rule-based summary

  // Split so that the first character is a short term for the solver to read.
  const ReviewLead := "A lightweight" + " security review of "

  /** "A lightweight security review of {url} ({title})" */
  function Opening(url: string, title: string): string {
    ReviewLead + url + " (" + title + ")"
  }

  const NoFindingsPhrase := "did not identify obvious baseline security misconfigurations"
  const NoFindingsTail :=
    " during limited automated checks. This does not guarantee the application is secure, " +
    "and deeper authenticated testing may still be required."
  const PostureLead := ". Overall, the application presents a "
  const PostureTail :=
    " security posture driven primarily by configuration and security header gaps. It is recommended to "
  const Closing := " and re-test to validate remediation."

  /** "{n} issue(s): {high} High, {med} Medium, and {low} Low" */
  function CountsClause(n: nat, high: nat, med: nat, low: nat): string {
    NatToString(n) + " issue(s): " + NatToString(high) + " High, " + NatToString(med) + " Medium, and " +
    NatToString(low) + " Low"
  }

  /** The f-string pieces of the summary, one alternative per return statement. */
  function SummaryParts(url: string, title: string, fs: seq<Finding>): seq<string> {
    if fs == [] then
      [ Opening(url, title), " ", NoFindingsPhrase, NoFindingsTail ]
    else
      var p := PostureOf(fs);
      [ Opening(url, title), " identified ",
        CountsClause(|fs|, CountSeverity(fs, High), CountSeverity(fs, Medium), CountSeverity(fs, Low)),
        PostureLead, PostureText(p), PostureTail, PriorityText(p), Closing ]
  }

  /**
   * rule_based_executive_summary: opens with the url and title; with no
   * findings it says none were identified; otherwise it states the total and
   * the High, Medium and Low counts in that order, the posture and the
   * priority.
   */
  function RuleBasedSummary(url: string, title: string, fs: seq<Finding>): (r: string)
    ensures |Opening(url, title)| <= |r| && r[..|Opening(url, title)|] == Opening(url, title)
    ensures r[|r| - 1] == '.'
    ensures fs == [] ==> Contains(r, NoFindingsPhrase)
    ensures fs != [] ==>
      && Contains(r, CountsClause(|fs|, CountSeverity(fs, High), CountSeverity(fs, Medium), CountSeverity(fs, Low)))
      && Contains(r, PostureText(PostureOf(fs)))
      && Contains(r, PriorityText(PostureOf(fs)))
  {
    var parts := SummaryParts(url, title, fs);
    ConcatStartsWith(parts);
    ConcatEndsWith(parts);
    ContainsPiece(parts, 2);
    var r := Concat(parts);
    if fs == [] then r
    else
      ContainsPiece(parts, 4);
      ContainsPiece(parts, 6);
      r
  }

  lemma ContainsPrefix(r: string, o: string, p: string)
    requires |o| <= |r| && r[..|o|] == o && Contains(o, p)
    ensures Contains(r, p)
  {
    assert r == o + r[|o|..];
    ContainsLeft(o, r[|o|..], p);
  }

  lemma OpeningMentions(url: string, title: string)
    ensures Contains(Opening(url, title), url) && Contains(Opening(url, title), title)
  {
    assert Opening(url, title) == ReviewLead + url + (" (" + title + ")");
    ContainsMiddle(ReviewLead, url, " (" + title + ")");
    ContainsMiddle(ReviewLead + url + " (", title, ")");
  }

  /** The summary is never empty and always names the url and the title. */
  lemma SummaryMentionsTarget(url: string, title: string, fs: seq<Finding>)
    ensures RuleBasedSummary(url, title, fs) != ""
    ensures Contains(RuleBasedSummary(url, title, fs), url)
    ensures Contains(RuleBasedSummary(url, title, fs), title)
  {
    var r, o := RuleBasedSummary(url, title, fs), Opening(url, title);
    OpeningMentions(url, title);
    ContainsPrefix(r, o, url);
    ContainsPrefix(r, o, title);
  }

  /** The summary starts with 'A' and ends with '.', so strip() leaves it alone. */
  lemma FallbackTrimmed(url: string, title: string, fs: seq<Finding>)
    ensures RuleBasedSummary(url, title, fs) != ""
    ensures Strip(RuleBasedSummary(url, title, fs)) == RuleBasedSummary(url, title, fs)
  {
    var r := RuleBasedSummary(url, title, fs);
    FallbackEnds(url, title, fs);
    StripUnchanged(r);
  }

  lemma FallbackEnds(url: string, title: string, fs: seq<Finding>)
    ensures var r := RuleBasedSummary(url, title, fs); r != "" && r[0] == 'A' && r[|r| - 1] == '.'
  {
    var r, o := RuleBasedSummary(url, title, fs), Opening(url, title);
    assert ReviewLead[0] == 'A';
    assert o == ReviewLead + (url + " (" + title + ")");
    assert r[0] == r[..|o|][0];
  }

  /** Summary and posture depend on the findings only through the three counts. */
  lemma SummaryByCounts(url: string, title: string, a: seq<Finding>, b: seq<Finding>)
    requires |a| == |b| && (a == [] <==> b == [])
    requires forall s: Severity :: CountSeverity(a, s) == CountSeverity(b, s)
    ensures RuleBasedSummary(url, title, a) == RuleBasedSummary(url, title, b)
  {
    assert CountSeverity(a, High) == CountSeverity(b, High);
    assert CountSeverity(a, Medium) == CountSeverity(b, Medium);
    assert SummaryParts(url, title, a) == SummaryParts(url, title, b);
  }

  // ---------------------------------------------------------------- key issues

  /** a is b with some elements dropped, order kept. */
  predicate IsSubsequence<T(==)>(a: seq<T>, b: seq<T>)
    decreases |b|
  {
    a == [] || (b != [] && if a[0] == b[0] then IsSubsequence(a[1..], b[1..]) else IsSubsequence(a, b[1..]))
  }

  lemma {:induction false} SubsequencePrefix<T>(a: seq<T>, b: seq<T>, n: nat)
    requires IsSubsequence(a, b) && n <= |a|
    ensures IsSubsequence(a[..n], b)
    decreases |b|
  {
    if n > 0 {
      if a[0] == b[0] {
        SubsequencePrefix(a[1..], b[1..], n - 1);
        assert a[..n][1..] == a[1..][..n - 1];
      } else {
        SubsequencePrefix(a, b[1..], n);
      }
    }
  }

  /** [f.get("title", "") for f in findings if f.get("title")] */
  function NonEmptyTitles(fs: seq<Finding>): (ts: seq<string>)
    ensures |ts| <= |fs|
    ensures forall i | 0 <= i < |ts| :: ts[i] != ""
  {
    if fs == [] then []
    else if fs[0].title != "" then [fs[0].title] + NonEmptyTitles(fs[1..])
    else NonEmptyTitles(fs[1..])
  }

  /** The kept titles are the findings' titles in order, minus the empty ones. */
  lemma {:induction false} NonEmptyTitlesSpec(fs: seq<Finding>)
    ensures IsSubsequence(NonEmptyTitles(fs), Titles(fs))
    ensures forall t :: t in NonEmptyTitles(fs) <==> t != "" && t in Titles(fs)
    ensures |NonEmptyTitles(fs)| == |fs| - CountTitle(fs, "")
  {
    if fs != [] {
      NonEmptyTitlesSpec(fs[1..]);
      assert Titles(fs) == [fs[0].title] + Titles(fs[1..]);
      assert Titles(fs)[1..] == Titles(fs[1..]);
    }
  }

  const MaxKeyIssues := 8

  /** top_titles: the first eight non-empty titles, in findings order. */
  function TopTitles(fs: seq<Finding>): (ts: seq<string>)
    ensures |ts| <= MaxKeyIssues
    ensures forall i | 0 <= i < |ts| :: ts[i] != ""
    ensures IsSubsequence(ts, Titles(fs))
    ensures |ts| == Min(MaxKeyIssues, |NonEmptyTitles(fs)|)
    ensures ts == NonEmptyTitles(fs)[..|ts|]
  {
    var all := NonEmptyTitles(fs);
    NonEmptyTitlesSpec(fs);
    SubsequencePrefix(all, Titles(fs), Min(MaxKeyIssues, |all|));
    all[..Min(MaxKeyIssues, |all|)]
  }

  /** With at most eight findings, all titled, every title is a key issue. */
  lemma {:induction false} TopTitlesAll(fs: seq<Finding>)
    requires |fs| <= MaxKeyIssues
    requires forall i | 0 <= i < |fs| :: fs[i].title != ""
    ensures TopTitles(fs) == Titles(fs)
  {
    if fs != [] {
      TopTitlesAll(fs[1..]);
      assert Titles(fs) == [fs[0].title] + Titles(fs[1..]);
    }
  }

  // ---------------------------------------------------------------- prompt

  /** ", ".join(top_titles) if top_titles else "No issues detected" */
  function KeyIssues(top: seq<string>): (r: string)
    ensures forall k | 0 <= k < |top| :: Contains(r, top[k])
    ensures top == [] ==> r == "No issues detected"
  {
    if top != [] then
      assert forall k | 0 <= k < |top| :: Contains(Join(top, ", "), top[k]) by {
        forall k | 0 <= k < |top| ensures Contains(Join(top, ", "), top[k]) {
          JoinContains(top, ", ", k);
        }
      }
      Join(top, ", ")
    else "No issues detected"
  }

  /** "High={high}, Medium={med}, Low={low}" */
  function CountsLine(fs: seq<Finding>): string {
    "High=" + NatToString(CountSeverity(fs, High)) + ", Medium=" + NatToString(CountSeverity(fs, Medium)) +
    ", Low=" + NatToString(CountSeverity(fs, Low))
  }

  // PromptHead and PromptTail are split where UserPrompt reads the characters
  // just inside the blank ends that strip() removes.
  const PromptHead :=
    "\nWrite" + " ONE concise executive summary paragraph for a web application security review.\n\nTarget URL: "
  const PromptTail :=
    "\n\nRequirements:\n- One paragraph only\n- Non-technical, executive-friendly language\n" +
    "- State overall risk level\n- Clearly state what should be prioritized first\n- No bullet" + " points\n"

  /** The pieces of the user_prompt f-string, with the counts line and key issues filled in. */
  function PromptParts(url: string, title: string, counts: string, issues: string): seq<string> {
    [ PromptHead, url, "\nPage title: ", title, "\n\nFindings count:\n", counts,
      "\n\nKey issues:\n", issues, PromptTail ]
  }

  /** Stripping the prompt keeps every filled-in piece and leaves nothing to strip again. */
  lemma PromptPartsKept(url: string, title: string, counts: string, issues: string)
    ensures var p := Strip(Concat(PromptParts(url, title, counts, issues)));
      && Contains(p, url) && Contains(p, title) && Contains(p, counts) && Contains(p, issues)
      && Strip(p) == p
  {
    var parts := PromptParts(url, title, counts, issues);
    assert PromptHead[1] == 'W';
    assert PromptTail[|PromptTail| - 2] == 's';
    StripKeepsInnerPiece(parts, 1);
    StripKeepsInnerPiece(parts, 3);
    StripKeepsInnerPiece(parts, 5);
    StripKeepsInnerPiece(parts, 7);
    StripIdempotent(Concat(parts));
  }

  /**
   * user_prompt.strip(): it names the url, the title, the three counts and
   * every key issue.
   */
  function UserPrompt(url: string, title: string, fs: seq<Finding>): (p: string)
    ensures Contains(p, url) && Contains(p, title)
    ensures Contains(p, CountsLine(fs))
    ensures Contains(p, KeyIssues(TopTitles(fs)))
    ensures forall k | 0 <= k < |TopTitles(fs)| :: Contains(p, TopTitles(fs)[k])
    ensures Strip(p) == p
  {
    var top := TopTitles(fs);
    var issues := KeyIssues(top);
    PromptPartsKept(url, title, CountsLine(fs), issues);
    var p := Strip(Concat(PromptParts(url, title, CountsLine(fs), issues)));
    forall k | 0 <= k < |top| ensures Contains(p, top[k]) {
      ContainsTrans(p, issues, top[k]);
    }
    p
  }

  // ---------------------------------------------------------------- request

  datatype Message = Message(role: string, content: string)

  /**
   * The arguments of client.chat.completions.create. The temperature is the
   * raw environment text: float() is applied by the call.
   */
  datatype LlmRequest = LlmRequest(model: string, messages: seq<Message>, maxTokens: int, temperature: string)

  /**
   * What the call produced: it raised (client construction, float(),
   * the network, a response without choices), or it returned a message
   * whose content may be None.
   */
  datatype LlmOutcome = CallFailed | Completed(content: Option<string>)

  const DefaultModel := "gpt-4o-mini"
  const DefaultMaxTokens := "140"
  const DefaultTemperature := "0.3"
  const SystemPrompt := "You write concise executive security summaries."

  /**
   * The request the source sends, or None when int() rejects the
   * max-tokens setting (a ValueError before the call is made).
   */
  function BuildRequest(env: Env, url: string, title: string, fs: seq<Finding>): (r: Option<LlmRequest>)
    ensures r.None? <==> ParseInt(Getenv(env.llmMaxTokens, DefaultMaxTokens)).None?
    ensures r.Some? ==>
      && r.value.model == Getenv(env.llmModel, DefaultModel)
      && Some(r.value.maxTokens) == ParseInt(Getenv(env.llmMaxTokens, DefaultMaxTokens))
      && r.value.temperature == Getenv(env.llmTemperature, DefaultTemperature)
      && |r.value.messages| == 2
      && r.value.messages[0] == Message("system", SystemPrompt)
      && r.value.messages[1] == Message("user", UserPrompt(url, title, fs))
      && Contains(r.value.messages[1].content, url)
      && Contains(r.value.messages[1].content, title)
      && Contains(r.value.messages[1].content, CountsLine(fs))
      && (forall k | 0 <= k < |TopTitles(fs)| :: Contains(r.value.messages[1].content, TopTitles(fs)[k]))
  {
    match ParseInt(Getenv(env.llmMaxTokens, DefaultMaxTokens))
    case None => None
    case Some(maxTokens) =>
      Some(LlmRequest(
        Getenv(env.llmModel, DefaultModel),
        [Message("system", SystemPrompt), Message("user", UserPrompt(url, title, fs))],
        maxTokens,
        Getenv(env.llmTemperature, DefaultTemperature)))
  }

  /** With nothing configured, the request asks gpt-4o-mini for at most 140 tokens at "0.3". */
  lemma DefaultRequest(env: Env, url: string, title: string, fs: seq<Finding>)
    requires env.llmModel.None? && env.llmMaxTokens.None? && env.llmTemperature.None?
    ensures BuildRequest(env, url, title, fs).Some?
    ensures BuildRequest(env, url, title, fs).value.model == DefaultModel
    ensures BuildRequest(env, url, title, fs).value.maxTokens == 140
    ensures BuildRequest(env, url, title, fs).value.temperature == DefaultTemperature
  {
    assert NatToString(140) == DefaultMaxTokens;
    ParseIntOfNat(140);
  }

  // ---------------------------------------------------------------- executive summary

  /** The reply text that replaces the fallback: stripped and non-blank. */
  predicate RepliedWith(o: LlmOutcome, text: string) {
    o.Completed? && o.content.Some? && text == Strip(o.content.value) && text != ""
  }

  /**
   * generate_executive_summary: the stripped reply when the switch is on,
   * the request can be built, and the call returns non-blank content;
   * otherwise the rule-based summary. Never blank, never padded.
   */
  function GenerateExecutiveSummary(env: Env, url: string, title: string, fs: seq<Finding>,
                                    call: LlmRequest -> LlmOutcome): (r: string)
    ensures r != ""
    ensures Strip(r) == r
    ensures !LlmEnabled(env) ==> r == RuleBasedSummary(url, title, fs)
    ensures r == RuleBasedSummary(url, title, fs) ||
      (LlmEnabled(env) && BuildRequest(env, url, title, fs).Some? &&
       RepliedWith(call(BuildRequest(env, url, title, fs).value), r))
  {
    var fallback := RuleBasedSummary(url, title, fs);
    FallbackTrimmed(url, title, fs);
    if !LlmEnabled(env) then fallback
    else
      match BuildRequest(env, url, title, fs)
      case None => fallback
      case Some(req) =>
        match call(req)
        case CallFailed => fallback
        case Completed(content) =>
          var text := Strip(content.GetOr(""));
          StripIdempotent(content.GetOr(""));
          if text != "" then text else fallback
  }

  /** Switched off, the summary is the fallback whatever the call would do. */
  lemma DisabledIgnoresCall(env: Env, url: string, title: string, fs: seq<Finding>,
                            call1: LlmRequest -> LlmOutcome, call2: LlmRequest -> LlmOutcome)
    requires !LlmEnabled(env)
    ensures GenerateExecutiveSummary(env, url, title, fs, call1) == GenerateExecutiveSummary(env, url, title, fs, call2)
  {
  }

  /** A max-tokens setting that int() rejects yields the fallback, whatever the call. */
  lemma MalformedMaxTokensFallsBack(env: Env, url: string, title: string, fs: seq<Finding>,
                                    call: LlmRequest -> LlmOutcome)
    requires ParseInt(Getenv(env.llmMaxTokens, DefaultMaxTokens)).None?
    ensures GenerateExecutiveSummary(env, url, title, fs, call) == RuleBasedSummary(url, title, fs)
  {
  }

  /** A call that raises, or that returns None or only whitespace, yields the fallback. */
  lemma FailedCallFallsBack(env: Env, url: string, title: string, fs: seq<Finding>,
                            call: LlmRequest -> LlmOutcome)
    requires BuildRequest(env, url, title, fs).Some?
    requires var o := call(BuildRequest(env, url, title, fs).value);
      o.CallFailed? || o.content.None? || AllSpace(o.content.value)
    ensures GenerateExecutiveSummary(env, url, title, fs, call) == RuleBasedSummary(url, title, fs)
  {
  }

  /** Switched on, a reply with some non-whitespace is returned stripped. */
  lemma ReplyWins(env: Env, url: string, title: string, fs: seq<Finding>,
                  call: LlmRequest -> LlmOutcome, reply: string)
    requires LlmEnabled(env) && BuildRequest(env, url, title, fs).Some?
    requires call(BuildRequest(env, url, title, fs).value) == Completed(Some(reply))
    requires !AllSpace(reply)
    ensures GenerateExecutiveSummary(env, url, title, fs, call) == Strip(reply)
  {
  }
}
