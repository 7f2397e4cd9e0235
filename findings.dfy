/**
 * A finding of the rule engine and the per-severity counting that both the
 * command-line report and the executive summary perform
 * (`sum(1 for f in findings if f.get("severity") == ...)`).
 */
module Findings {
  datatype Severity = High | Medium | Low

  /** One finding: {"title", "severity", "evidence", "mitigation"}. */
  datatype Finding = Finding(title: string, severity: Severity, evidence: string, mitigation: string)

  /** The number of findings whose severity is s. */
  function CountSeverity(fs: seq<Finding>, s: Severity): (n: nat)
    ensures n <= |fs|
    ensures n == 0 <==> forall i :: 0 <= i < |fs| ==> fs[i].severity != s
  {
    if fs == [] then 0
    else
      var rest := CountSeverity(fs[1..], s);
      assert forall i :: 0 < i < |fs| ==> fs[i] == fs[1..][i - 1];
      (if fs[0].severity == s then 1 else 0) + rest
  }

  /** The severities of the findings, in order. */
  function Severities(fs: seq<Finding>): (ss: seq<Severity>)
    ensures |ss| == |fs|
  {
    seq(|fs|, i requires 0 <= i < |fs| => fs[i].severity)
  }

  /** Counting agrees with the multiplicity of s among the severities. */
  lemma {:induction false} CountIsMultiplicity(fs: seq<Finding>, s: Severity)
    ensures CountSeverity(fs, s) == multiset(Severities(fs))[s]
  {
    if fs != [] {
      CountIsMultiplicity(fs[1..], s);
      assert Severities(fs) == [fs[0].severity] + Severities(fs[1..]);
    }
  }

  lemma {:induction false} CountAppend(a: seq<Finding>, b: seq<Finding>, s: Severity)
    ensures CountSeverity(a + b, s) == CountSeverity(a, s) + CountSeverity(b, s)
  {
    if a != [] {
      assert (a + b)[1..] == a[1..] + b;
      CountAppend(a[1..], b, s);
    } else {
      assert a + b == b;
    }
  }

  /** Every finding has exactly one of the three severities. */
  lemma {:induction false} CountsTotal(fs: seq<Finding>)
    ensures CountSeverity(fs, High) + CountSeverity(fs, Medium) + CountSeverity(fs, Low) == |fs|
  {
    if fs != [] {
      CountsTotal(fs[1..]);
    }
  }

  /** {"High": .., "Medium": .., "Low": ..} */
  datatype Breakdown = Breakdown(high: nat, medium: nat, low: nat)

  /** The severity breakdown, recomputed from the findings. */
  function SeverityBreakdown(fs: seq<Finding>): (b: Breakdown)
    ensures b.high + b.medium + b.low == |fs|
    ensures b.high == multiset(Severities(fs))[High]
    ensures b.medium == multiset(Severities(fs))[Medium]
    ensures b.low == multiset(Severities(fs))[Low]
  {
    CountsTotal(fs);
    CountIsMultiplicity(fs, High);
    CountIsMultiplicity(fs, Medium);
    CountIsMultiplicity(fs, Low);
    Breakdown(CountSeverity(fs, High), CountSeverity(fs, Medium), CountSeverity(fs, Low))
  }

  /** The number of findings carrying title t. */
  function CountTitle(fs: seq<Finding>, t: string): (n: nat)
    ensures n <= |fs|
  {
    if fs == [] then 0 else (if fs[0].title == t then 1 else 0) + CountTitle(fs[1..], t)
  }

  lemma {:induction false} CountTitleAppend(a: seq<Finding>, b: seq<Finding>, t: string)
    ensures CountTitle(a + b, t) == CountTitle(a, t) + CountTitle(b, t)
  {
    if a != [] {
      assert (a + b)[1..] == a[1..] + b;
      CountTitleAppend(a[1..], b, t);
    } else {
      assert a + b == b;
    }
  }

  /** The titles of the findings, in order. */
  function Titles(fs: seq<Finding>): (ts: seq<string>)
    ensures |ts| == |fs|
    ensures forall i :: 0 <= i < |fs| ==> ts[i] == fs[i].title
  {
    seq(|fs|, i requires 0 <= i < |fs| => fs[i].title)
  }
}
