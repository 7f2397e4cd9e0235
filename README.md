# WebSentry report pipeline in Dafny

WebSentry reviews one web page without logging in. It reads the page's
response headers and its `<title>`, runs three baseline header rules, writes
an executive summary, and assembles a JSON report. Two front ends do this:
the command-line entry point (`main` in `cli.py`) and the web app (`webapp.py`). The summary
comes from `llm/summary.py`. It prefers a chat-completion call when the
operator switches that on, and it always falls back to a deterministic
rule-based paragraph.

This project models that pipeline without its network, browser, template
and language-model calls:

- `text.dfy`: the Python string built-ins the pipeline uses. These are
  `str.strip` with Python's whitespace set, an ASCII `str.lower`,
  `str.find`, `str` ordering with `sorted`, `str(n)`, `int(s)`,
  `sep.join`, and f-string concatenation. Module `Wrappers` holds `Option`.
- `headers.dfy`: a header map is an insertion-ordered dict with unique keys.
  Key lookup is exact: no case folding.
- `findings.dfy`: findings, severities and the per-severity counts.
- `cli.py` → `cli.dfy`: the rule engine. It is an imperative method proved
  equal to a specification function. The file also holds the report the
  command-line entry point builds: counts, a sorted 25-key header sample, metadata and
  totals.
- `config.dfy`: the environment variables, as an immutable record.
- `llm/summary.py` → `summary.dfy`: `llm_enabled`, the posture classifier,
  the rule-based summary, the key-issue list, the prompt, the request, and
  the fallback contract of `generate_executive_summary`. The chat call is a
  function parameter.
- `webapp.py` → `webapp.dfy`: the title parse, the mode string,
  `_build_report`, and the checks of `/scan-json`. The HTTP fetch is a
  function parameter.
- `scenarios.dfy`: end-to-end cases built from the modules above.

Some behaviour of the code is easy to misread:

- Header names are matched exactly as stored. The rules look up
  `"content-security-policy"`, `"x-frame-options"` and `"server"` in the
  dict they receive. A `Content-Security-Policy` key does not satisfy the
  `"content-security-policy"` check, although HTTP header names are
  case-insensitive.
- The web report's header sample is the first 20 entries in insertion
  order (`webapp.py:79`). It is not sorted. That report has no `summary`
  section. The sorted 25-key sample and the `summary` section belong to the
  command-line report (`cli.py:82-104`).
- The rule-based summary states the counts as "… 1 Medium, and 1 Low.",
  with an "and" before the Low count (`summary.py:38-43`).
- The posture depends on the highest severity present: High gives
  "elevated", otherwise Medium gives "moderate", otherwise
  "low-to-moderate" (`summary.py:28-36`). With no findings, no posture is
  chosen and a separate "did not identify" text is returned
  (`summary.py:20-26`).

## Model

| member | source | states |
|---|---|---|
| Headers.Lookup | src/websentry/cli.py:51 | `headers.get(k)` finds a value exactly when the exact key is present, and the value is one stored under that key |
| Headers.LookupEntry | src/websentry/cli.py:93 | in a dict, `headers[k]` returns the value stored with k |
| Headers.NamesOfMap | src/websentry/cli.py:93 | `headers.keys()` holds distinct names, exactly the keys of the map |
| Findings.CountSeverity | src/websentry/cli.py:82-86 | a severity count is at most the number of findings, and it is zero exactly when no finding has that severity |
| Findings.CountIsMultiplicity | src/websentry/cli.py:82-86 | the count `sum(1 for f in findings if severity == s)` equals how often s occurs among the severities |
| Findings.CountsTotal | src/websentry/cli.py:82-86 | High + Medium + Low counts add up to the number of findings |
| Findings.SeverityBreakdown | src/websentry/cli.py:82-86 | the `severity_counts` dict: each entry is the multiplicity of its severity, and they sum to `len(findings)` |
| Cli.RunRuleBasedChecks | src/websentry/cli.py:23-56 | the appending method yields exactly the CSP, X-Frame-Options and Server rule outputs, in that order |
| Cli.CspFinding | src/websentry/cli.py:26-34 | one Medium "Missing Content-Security-Policy header" finding when the exact key is absent, none when it is present |
| Cli.XfoFinding | src/websentry/cli.py:36-44 | one Low "Missing X-Frame-Options header" finding when the exact key is absent, none when it is present |
| Cli.ServerFinding | src/websentry/cli.py:46-54 | one Low "Server version disclosure" finding when "server" is a key, whose evidence is "Server header present: " plus that value; none otherwise |
| Cli.RuleFindingsShape | src/websentry/cli.py:23-56 | at most three findings, no High, each one of the three rule findings, in rule order |
| Cli.RuleBreakdown | src/websentry/cli.py:82-86 | rule output counts: High 0, Medium 1 if CSP is missing, Low one per missing X-Frame-Options and per present server |
| Cli.RuleFindingsLocal | src/websentry/cli.py:26-54 | findings depend only on the presence of the three keys and on the server value |
| Cli.NoHeadersFindings | src/websentry/cli.py:26-44 | an empty header map yields the CSP finding, then the X-Frame-Options finding |
| Cli.ServerOnlyFindings | src/websentry/cli.py:26-54 | a map holding only "server" yields the CSP finding, the X-Frame-Options finding, then the disclosure quoting the value |
| Text.SortStringsCorrect | src/websentry/cli.py:93 | `sorted()` on distinct keys is strictly ascending and a permutation of its input |
| Cli.SortedNames | src/websentry/cli.py:93 | `sorted(headers.keys())` lists every key once, in strictly ascending order |
| Cli.SortedHeadersSample | src/websentry/cli.py:93 | the CLI sample has min(25, n) entries in ascending key order, values unchanged, and every left-out key is larger than every kept key |
| Cli.ScanCommand | src/websentry/cli.py:77-104 | the CLI report: rule findings on the response headers (empty when no response), the sorted sample, fixed tool and version, the stamp plus "Z", `total_findings == len(findings)`, and the breakdown |
| Text.Strip | src/websentry/webapp.py:62 | `str.strip()` removes only leading and trailing whitespace, leaves non-blank ends, and is empty exactly for all-whitespace text |
| Text.StripFromSpan | src/websentry/webapp.py:127 | the stripped text is the unique span between surrounding whitespace whose ends are not whitespace |
| Text.StripIdempotent | src/websentry/llm/summary.py:100 | stripping twice is stripping once |
| Text.Lower | src/websentry/webapp.py:58 | lower-casing keeps length and maps each position on its own |
| Text.Find | src/websentry/webapp.py:59-60 | `find` returns -1 exactly when the pattern does not occur, otherwise its first occurrence |
| Text.ParseIntOfNat | src/websentry/llm/summary.py:96 | `int(str(n)) == n` for the max-tokens setting |
| Text.JoinContains | src/websentry/llm/summary.py:80 | every item appears in `", ".join(items)` |
| Summary.LlmEnabledIff | src/websentry/llm/summary.py:5-9 | enabled exactly when the flag is "true" in any letter case and the key is non-empty; an unset flag or key disables it |
| Summary.PostureOf | src/websentry/llm/summary.py:28-36 | "elevated" exactly when some finding is High; "moderate" exactly when none is High and some is Medium; "low-to-moderate" exactly when all are Low |
| Summary.RuleBasedSummary | src/websentry/llm/summary.py:12-43 | the text opens with the url and title and ends with '.'; with no findings it says "did not identify obvious baseline security misconfigurations"; otherwise it states the total, then the High, Medium and Low counts, the posture and the priority |
| Summary.SummaryMentionsTarget | src/websentry/llm/summary.py:20-43 | the rule-based summary is non-empty and mentions the url and the title |
| Summary.FallbackTrimmed | src/websentry/llm/summary.py:13-15 | the rule-based summary is non-empty and has no surrounding whitespace |
| Summary.SummaryByCounts | src/websentry/llm/summary.py:16-43 | the rule-based summary depends on the findings only through their number and per-severity counts |
| Summary.NonEmptyTitlesSpec | src/websentry/llm/summary.py:68 | the kept titles keep findings order, are exactly the non-empty titles, and number the findings minus those with an empty title, so every titled finding is kept |
| Summary.TopTitles | src/websentry/llm/summary.py:68 | the key issues are the FIRST min(8, n) non-empty titles, in findings order |
| Summary.TopTitlesAll | src/websentry/llm/summary.py:68 | with at most 8 findings, all titled, the key issues are all titles |
| Summary.KeyIssues | src/websentry/llm/summary.py:80 | the key-issue line contains every key issue, and reads "No issues detected" when there is none |
| Summary.UserPrompt | src/websentry/llm/summary.py:70-94 | the stripped prompt names the url, the title, the three counts and every key issue, and is already stripped |
| Summary.BuildRequest | src/websentry/llm/summary.py:90-98 | no request exactly when `int()` rejects the max-tokens setting; otherwise it carries the configured model (default "gpt-4o-mini"), the parsed tokens, the configured temperature (default "0.3"), the system message, and the user prompt for the same url, title and findings |
| Summary.DefaultRequest | src/websentry/llm/summary.py:91-97 | with nothing configured, the request uses model "gpt-4o-mini", 140 tokens and temperature "0.3" |
| Summary.GenerateExecutiveSummary | src/websentry/llm/summary.py:46-104 | never blank and already stripped; disabled gives the fallback; any other result is the stripped, non-blank reply to the request built from the same inputs |
| Summary.DisabledIgnoresCall | src/websentry/llm/summary.py:55-58 | when disabled, the result does not depend on the call |
| Summary.MalformedMaxTokensFallsBack | src/websentry/llm/summary.py:96-104 | a max-tokens value that `int()` rejects yields the fallback |
| Summary.FailedCallFallsBack | src/websentry/llm/summary.py:100-104 | a raising call, or a reply that is None or only whitespace, yields the fallback |
| Summary.ReplyWins | src/websentry/llm/summary.py:100-101 | when enabled, a reply with some non-whitespace is returned stripped |
| WebApp.CloseTagAfterOpenTag | src/websentry/webapp.py:61-62 | when `</title>` starts after `<title>`, it starts after the end of `<title>`, so the slice is well formed |
| WebApp.ExtractTitle | src/websentry/webapp.py:54-64 | with first tags found in the lower-cased page and the close after the open, the title is the stripped text between them; otherwise "Unknown"; the result is always stripped |
| WebApp.ModeString | src/websentry/webapp.py:42-46 | "AI-assisted (LLM enabled)" exactly when enabled, "Rule-based (LLM disabled)" exactly when not |
| WebApp.FirstHeadersSample | src/websentry/webapp.py:79 | min(20, n) entries, equal to the first entries of the map; a key is kept exactly when it is among the first 20; lookups agree |
| WebApp.BuildReport | src/websentry/webapp.py:69-89 | findings are the rule output; the summary is generated from the same url, title and findings and is never blank; the sample is the first 20; fixed tool and scope; version from the environment; the mode is `_llm_mode_string()` of the same environment |
| WebApp.ReportIgnoresOutcome | src/websentry/webapp.py:73-85 | the call's outcome can change only the executive summary, never the mode or any other field |
| WebApp.EnabledModeDespiteFailure | src/websentry/webapp.py:73-85 | when enabled and every call fails, mode is still AI-assisted and the summary is the rule-based one |
| WebApp.ScanGate | src/websentry/webapp.py:119-129 | 401 exactly on a configured key mismatch; 400 exactly when, past the key, the url is missing, falsy or blank; 500 exactly when, past the key, the body is not JSON, not an object, or has a truthy non-string url; otherwise go ahead only with a string url, passed on stripped and non-empty |
| WebApp.NoKeyNoAuth | src/websentry/webapp.py:120-124 | with no key configured, the X-API-Key header does not matter and 401 never happens |
| WebApp.AuthBeforeBody | src/websentry/webapp.py:120-126 | a key mismatch gives 401 whatever the body is |
| WebApp.RightKeyPasses | src/websentry/webapp.py:120-124 | sending the configured key never gives 401 |
| WebApp.ScanJson | src/websentry/webapp.py:117-132 | refusals pass through; a failed fetch is a 500; otherwise the answer is `_build_report` of the stripped url and the fetched page |
| Scenarios.EmptyHeadersFindings | src/websentry/cli.py:26-44 | an empty header map gives two findings, breakdown 0/1/1, moderate posture |
| Scenarios.EmptyHeadersSummary | src/websentry/llm/summary.py:38-43 | disabled, that summary contains "2 issue(s): 0 High, 1 Medium, and 1 Low", "moderate risk" and the Medium-first priority |
| Scenarios.ServerOnlyReport | src/websentry/cli.py:46-54 | only "server" gives breakdown 0/1/2 and all three titles as key issues |
| Scenarios.EnabledButFailingCall | src/websentry/webapp.py:42-46 | flag "TRUE" with a key is enabled; a failing call keeps mode AI-assisted with the fallback summary |
| Scenarios.MissingKeyRefused | src/websentry/webapp.py:120-124 | a configured key and no X-API-Key header gives 401 |
| Scenarios.BlankUrlRefused | src/websentry/webapp.py:127-129 | the right key with a whitespace url gives 400 |
| Scenarios.EmptyKeyMissingUrl | src/websentry/webapp.py:120-129 | an empty configured key checks nothing, and a missing url gives 400 |
| Scenarios.UrlStripped | src/websentry/webapp.py:127-131 | a padded url goes ahead stripped |
| Scenarios.UpperCaseTags | src/websentry/webapp.py:57-62 | tags are matched in any letter case: `<TITLE>Hi</TITLE>` gives "Hi" |
| Scenarios.ClosingTagFirst | src/websentry/webapp.py:61 | a closing tag before the opening one leaves "Unknown" |

## Left out

- Page fetches are not modelled. This covers Playwright navigation (`cli.py:12-20`) and `requests.get` (`webapp.py:49-52`). The CLI takes a `BrowserPage` (title, plus headers or no response). The web app takes a `fetch` function that returns the headers and body text, or None when `requests` raised.
- The chat-completion call (`summary.py:61-63`, `90-98`) is a total function parameter. It maps the request to `CallFailed` or to the returned content. Building the client, importing the SDK, and a response without choices all count as `CallFailed`.
- Summary.GenerateExecutiveSummary: `float()` on the temperature setting is not modelled. The raw text goes into the request, and the call is expected to answer `CallFailed` when the text is not a float. In the source, the ValueError happens before any call is made.
- Text.Lower: only ASCII letters are lower-cased, so length is kept. Python's `str.lower()` covers all of Unicode and can change a string's length (for example 'İ'). The source indexes the original text with positions found in the lower-cased text, and that case is outside the model.
- Text.ParseInt: only ASCII digits are accepted. Python's `int()` also accepts other Unicode decimal digits.
- `openai_client.py` is not part of this model. It is a thin wrapper with no logic beyond an environment check.
- Jinja2 rendering, report file writes, directory creation, JSON serialisation and console output are not modelled (`cli.py:59-66`, `106-127`; `webapp.py:92-114`). The `home` and `scan_ui` routes, the static mount and FastAPI routing are left out for the same reason.
- Environment variables are one immutable `Env` record. The source reads them again on each call. Clock reads are input strings: `utcNow`, and `now` for `_utc_iso()`.
- The `X-API-Key` value arrives already looked up. Starlette's case-insensitive request-header lookup is not modelled.
- JSON parsing of the request body is reduced to `RequestBody` and `UrlField`. They say whether parsing fails, whether the body is an object, and what kind of `url` value it holds.
- The `try/except` around the title parse (`webapp.py:55-64`) is not modelled. Nothing in the modelled parse raises.
- Findings use a three-value `Severity` type. The source stores strings, and the counts compare them with `"High"`, `"Medium"` and `"Low"`. Every finding the rule engine produces carries one of these three.
