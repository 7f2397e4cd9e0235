/** The Option type used wherever Python returns None or a default. */
module Wrappers {
  datatype Option<+T> = None | Some(value: T) {
    function GetOr(default: T): T {
      match this
      case Some(v) => v
      case None => default
    }
  }
}

/**
 * The few Python string built-ins the pipeline relies on: str.isspace and
 * str.strip, an ASCII str.lower, str.find, the ordering that sorted() uses
 * on str, str(n) for naturals and int(s) for base-10 text.
 */
module Text {
  import opened Wrappers

  /** min(a, b), as the slice bounds [:n] use it. */
  function Min(a: int, b: int): int {
    if a < b then a else b
  }

  // ---------------------------------------------------------------- strip

  /** Python's str.isspace() for one character (the set str.strip() removes). */
  predicate IsSpace(c: char) {
    || ('\t' <= c <= '\r')
    || ('\U{1c}' <= c <= '\U{1f}')
    || c == ' '
    || c == '\U{85}'
    || c == '\U{a0}'
    || c == '\U{1680}'
    || ('\U{2000}' <= c <= '\U{200a}')
    || c == '\U{2028}'
    || c == '\U{2029}'
    || c == '\U{202f}'
    || c == '\U{205f}'
    || c == '\U{3000}'
  }

  predicate AllSpace(s: string) {
    forall k :: 0 <= k < |s| ==> IsSpace(s[k])
  }
  /** r is s[i..i+|r|], and everything of s outside that slice is whitespace. */
  predicate StripsTo(s: string, r: string, i: int) {
    && 0 <= i && i + |r| <= |s| && r == s[i..i + |r|]
    && (forall k :: 0 <= k < i ==> IsSpace(s[k]))
    && (forall k :: i + |r| <= k < |s| ==> IsSpace(s[k]))
  }

  /** The first index at or after k that holds no whitespace, or |s|. */
  function SkipSpaces(s: string, k: nat): (i: nat)
    requires k <= |s|
    ensures k <= i <= |s|
    ensures forall j :: k <= j < i ==> IsSpace(s[j])
    ensures i < |s| ==> !IsSpace(s[i])
    decreases |s| - k
  {
    if k == |s| || !IsSpace(s[k]) then k else SkipSpaces(s, k + 1)
  }

  /** The end of s[lo..hi] once trailing whitespace is dropped. */
  function SkipSpacesBack(s: string, lo: nat, hi: nat): (j: nat)
    requires lo <= hi <= |s|
    ensures lo <= j <= hi
    ensures forall k :: j <= k < hi ==> IsSpace(s[k])
    ensures j > lo ==> !IsSpace(s[j - 1])
    decreases hi
  {
    if hi == lo || !IsSpace(s[hi - 1]) then hi else SkipSpacesBack(s, lo, hi - 1)
  }

  /** Python's str.strip() with no argument. */
  function Strip(s: string): (r: string)
    ensures exists i :: StripsTo(s, r, i)
    ensures r == [] || (!IsSpace(r[0]) && !IsSpace(r[|r| - 1]))
    ensures r == [] <==> AllSpace(s)
  {
    var lo := SkipSpaces(s, 0);
    var hi := SkipSpacesBack(s, lo, |s|);
    assert StripsTo(s, s[lo..hi], lo);
    s[lo..hi]
  }
  /** Text whose ends are not whitespace is left alone by Strip. */
  lemma StripUnchanged(s: string)
    requires s == [] || (!IsSpace(s[0]) && !IsSpace(s[|s| - 1]))
    ensures Strip(s) == s
  {
    var r := Strip(s);
    var i :| StripsTo(s, r, i);
    if s != [] {
      assert i == 0;
    }
  }

  /** strip() is determined by where the non-whitespace starts and ends. */
  lemma StripFromSpan(s: string, r: string, i: int)
    requires StripsTo(s, r, i) && r != [] && !IsSpace(r[0]) && !IsSpace(r[|r| - 1])
    ensures Strip(s) == r
  {
    var r' := Strip(s);
    var i' :| StripsTo(s, r', i');
    assert s[i] == r[0] && s[i + |r| - 1] == r[|r| - 1];
    assert r' != [];
    assert s[i'] == r'[0] && s[i' + |r'| - 1] == r'[|r'| - 1];
    assert i == i';
    assert i + |r| == i' + |r'|;
  }

  /**
   * If s holds non-whitespace at positions p <= q, an occurrence of m lying
   * between them survives stripping.
   */
  lemma StripKeepsInterior(s: string, p: int, q: int, i: int, m: string)
    requires 0 <= p <= q < |s| && !IsSpace(s[p]) && !IsSpace(s[q])
    requires p <= i && OccursAt(s, m, i) && i + |m| <= q + 1
    ensures Contains(Strip(s), m)
  {
    var r := Strip(s);
    var lo :| StripsTo(s, r, lo);
    InteriorOfStripped(s, r, lo, p, q, i, m);
  }
  lemma InteriorOfStripped(s: string, r: string, lo: int, p: int, q: int, i: int, m: string)
    requires StripsTo(s, r, lo)
    requires 0 <= p <= q < |s| && !IsSpace(s[p]) && !IsSpace(s[q])
    requires p <= i && OccursAt(s, m, i) && i + |m| <= q + 1
    ensures Contains(r, m)
  {
    assert lo <= p;
    assert q < lo + |r|;
    var d := i - lo;
    forall j | 0 <= j < |m| ensures r[d..d + |m|][j] == m[j] {
      assert r[d + j] == s[i + j];
      assert s[i..i + |m|][j] == s[i + j];
    }
    assert r[d..d + |m|] == m;
    assert OccursAt(r, m, d);
  }

  // ---------------------------------------------------------------- lower

  /** str.lower() on one character, for ASCII letters only. */
  function LowerChar(c: char): char {
    if 'A' <= c <= 'Z' then (c as int + 32) as char else c
  }

  /** str.lower() restricted to ASCII: it preserves length and position. */
  function Lower(s: string): (r: string)
    ensures |r| == |s|
    ensures forall k :: 0 <= k < |s| ==> r[k] == LowerChar(s[k])
  {
    seq(|s|, k requires 0 <= k < |s| => LowerChar(s[k]))
  }

  // ---------------------------------------------------------------- find

  predicate OccursAt(s: string, p: string, i: int) {
    0 <= i && i + |p| <= |s| && s[i..i + |p|] == p
  }

  /** Python's `p in s`. */
  predicate Contains(s: string, p: string) {
    exists i | 0 <= i <= |s| :: OccursAt(s, p, i)
  }

  /** p occurs at i and nowhere before i. */
  predicate FirstOccurrence(s: string, p: string, i: int) {
    OccursAt(s, p, i) && forall k :: 0 <= k < i ==> !OccursAt(s, p, k)
  }

  function FindFrom(s: string, p: string, k: nat): (r: int)
    ensures r == -1 || (k <= r && OccursAt(s, p, r))
    ensures r == -1 ==> forall i :: k <= i ==> !OccursAt(s, p, i)
    ensures r != -1 ==> forall i :: k <= i < r ==> !OccursAt(s, p, i)
    decreases |s| - k
  {
    if k + |p| > |s| then -1
    else if s[k..k + |p|] == p then k
    else FindFrom(s, p, k + 1)
  }

  /** Python's s.find(p): the first index of p in s, or -1. */
  function Find(s: string, p: string): (r: int)
    ensures r == -1 <==> !Contains(s, p)
    ensures r != -1 ==> FirstOccurrence(s, p, r)
  {
    FindFrom(s, p, 0)
  }

  lemma ContainsSelf(p: string)
    ensures Contains(p, p)
  {
    assert OccursAt(p, p, 0);
  }

  lemma ContainsLeft(a: string, b: string, p: string)
    requires Contains(a, p)
    ensures Contains(a + b, p)
  {
    var i :| 0 <= i <= |a| && OccursAt(a, p, i);
    assert (a + b)[i..i + |p|] == a[i..i + |p|];
    assert OccursAt(a + b, p, i);
  }

  lemma ContainsRight(a: string, b: string, p: string)
    requires Contains(b, p)
    ensures Contains(a + b, p)
  {
    var i :| 0 <= i <= |b| && OccursAt(b, p, i);
    assert (a + b)[|a| + i..|a| + i + |p|] == b[i..i + |p|];
    assert OccursAt(a + b, p, |a| + i);
  }

  // ---------------------------------------------------------------- order

  /** Python's `a < b` on str: code-point lexicographic order. */
  predicate Less(a: string, b: string) {
    if a == [] then b != []
    else if b == [] then false
    else if a[0] != b[0] then a[0] < b[0]
    else Less(a[1..], b[1..])
  }

  lemma {:induction false} LessIrreflexive(a: string)
    ensures !Less(a, a)
  {
    if a != [] { LessIrreflexive(a[1..]); }
  }

  lemma {:induction false} LessTransitive(a: string, b: string, c: string)
    requires Less(a, b) && Less(b, c)
    ensures Less(a, c)
  {
    if a != [] && b != [] && c != [] && a[0] == b[0] && b[0] == c[0] {
      LessTransitive(a[1..], b[1..], c[1..]);
    }
  }

  lemma {:induction false} LessTotal(a: string, b: string)
    requires a != b
    ensures Less(a, b) || Less(b, a)
  {
    if a != [] && b != [] && a[0] == b[0] {
      assert a == [a[0]] + a[1..] && b == [b[0]] + b[1..];
      LessTotal(a[1..], b[1..]);
    }
  }

  predicate StrictlySorted(s: seq<string>) {
    forall i, j :: 0 <= i < j < |s| ==> Less(s[i], s[j])
  }

  predicate Distinct(s: seq<string>) {
    forall i, j :: 0 <= i < j < |s| ==> s[i] != s[j]
  }

  function InsertString(x: string, s: seq<string>): seq<string> {
    if s == [] then [x]
    else if Less(x, s[0]) then [x] + s
    else [s[0]] + InsertString(x, s[1..])
  }

  /** Python's sorted() on a list of str (insertion sort). */
  function SortStrings(s: seq<string>): seq<string> {
    if s == [] then [] else InsertString(s[0], SortStrings(s[1..]))
  }

  lemma {:induction false} InsertStringPermutes(x: string, s: seq<string>)
    ensures multiset(InsertString(x, s)) == multiset(s) + multiset{x}
  {
    if s != [] && !Less(x, s[0]) {
      InsertStringPermutes(x, s[1..]);
      assert s == [s[0]] + s[1..];
    }
  }

  lemma {:induction false} InsertStringSorted(x: string, s: seq<string>)
    requires StrictlySorted(s) && x !in s
    ensures StrictlySorted(InsertString(x, s))
  {
    if s == [] {
    } else if Less(x, s[0]) {
      forall j | 0 < j < |s| ensures Less(x, s[j]) {
        LessTransitive(x, s[0], s[j]);
      }
    } else {
      LessTotal(x, s[0]);
      var rest := InsertString(x, s[1..]);
      InsertStringSorted(x, s[1..]);
      InsertStringPermutes(x, s[1..]);
      forall j | 0 <= j < |rest| ensures Less(s[0], rest[j]) {
        assert rest[j] in multiset(rest);
        if rest[j] != x {
          assert rest[j] in multiset(s[1..]);
          var k :| 0 <= k < |s[1..]| && s[1..][k] == rest[j];
          assert s[k + 1] == rest[j];
        }
      }
    }
  }

  /** Sorting distinct strings yields them in strictly ascending order. */
  lemma {:induction false} SortStringsCorrect(s: seq<string>)
    requires Distinct(s)
    ensures StrictlySorted(SortStrings(s))
    ensures multiset(SortStrings(s)) == multiset(s)
  {
    if s != [] {
      assert Distinct(s[1..]);
      SortStringsCorrect(s[1..]);
      assert s[0] !in s[1..];
      assert s[0] !in multiset(SortStrings(s[1..]));
      InsertStringSorted(s[0], SortStrings(s[1..]));
      InsertStringPermutes(s[0], SortStrings(s[1..]));
      assert s == [s[0]] + s[1..];
    }
  }

  // ---------------------------------------------------------------- numbers

  predicate IsDigit(c: char) {
    '0' <= c <= '9'
  }

  function DigitValue(c: char): nat
    requires IsDigit(c)
  {
    c as int - '0' as int
  }

  function DigitChar(d: nat): (c: char)
    requires d < 10
    ensures IsDigit(c) && DigitValue(c) == d
  {
    ('0' as int + d) as char
  }

  /** Python's str(n) for a natural number. */
  function NatToString(n: nat): (r: string)
    ensures |r| > 0 && forall k :: 0 <= k < |r| ==> IsDigit(r[k])
  {
    if n < 10 then [DigitChar(n)] else NatToString(n / 10) + [DigitChar(n % 10)]
  }

  /**
   * The digits part of int(): digit (['_'] digit)*, read left to right
   * into the accumulator.
   */
  function DigitGroups(s: string, acc: nat): Option<nat> {
    if s == [] || !IsDigit(s[0]) then None
    else
      var acc' := acc * 10 + DigitValue(s[0]);
      if |s| == 1 then Some(acc')
      else if s[1] == '_' then DigitGroups(s[2..], acc')
      else DigitGroups(s[1..], acc')
  }

  /**
   * Python's int(s) on str, base 10, ASCII digits: surrounding whitespace,
   * an optional sign, digits with single underscores between them.
   * None stands for the ValueError.
   */
  function ParseInt(s: string): Option<int> {
    var t := Strip(s);
    if t != [] && (t[0] == '+' || t[0] == '-') then
      match DigitGroups(t[1..], 0)
      case None => None
      case Some(n) => var v: int := n; Some(if t[0] == '-' then -v else v)
    else
      match DigitGroups(t, 0)
      case None => None
      case Some(n) => Some(n)
  }

  lemma {:induction false} DigitGroupsSnoc(ds: string, c: char, acc: nat, v: nat)
    requires forall k :: 0 <= k < |ds| ==> IsDigit(ds[k])
    requires IsDigit(c) && DigitGroups(ds, acc) == Some(v)
    ensures DigitGroups(ds + [c], acc) == Some(v * 10 + DigitValue(c))
  {
    var acc' := acc * 10 + DigitValue(ds[0]);
    if |ds| == 1 {
      assert (ds + [c])[1..] == [c];
    } else {
      assert (ds + [c])[1..] == ds[1..] + [c];
      DigitGroupsSnoc(ds[1..], c, acc', v);
    }
  }

  lemma {:induction false} DigitGroupsOfNat(n: nat)
    ensures DigitGroups(NatToString(n), 0) == Some(n)
  {
    if n >= 10 {
      DigitGroupsOfNat(n / 10);
      DigitGroupsSnoc(NatToString(n / 10), DigitChar(n % 10), 0, n / 10);
    }
  }

  /** int(str(n)) == n: the parser reads back what NatToString writes. */
  lemma ParseIntOfNat(n: nat)
    ensures ParseInt(NatToString(n)) == Some(n)
  {
    var s := NatToString(n);
    assert !IsSpace(s[0]) && !IsSpace(s[|s| - 1]);
    StripUnchanged(s);
    DigitGroupsOfNat(n);
  }

  /** sep.join(items) */
  function Join(items: seq<string>, sep: string): string {
    if items == [] then ""
    else if |items| == 1 then items[0]
    else items[0] + sep + Join(items[1..], sep)
  }

  /** Adjacent string pieces written one after another, as an f-string does. */
  function Concat(parts: seq<string>): string {
    if parts == [] then "" else parts[0] + Concat(parts[1..])
  }

  lemma {:induction false} ConcatAppend(a: seq<string>, b: seq<string>)
    ensures Concat(a + b) == Concat(a) + Concat(b)
  {
    if a == [] {
      assert a + b == b;
    } else {
      assert (a + b)[1..] == a[1..] + b;
      ConcatAppend(a[1..], b);
    }
  }

  lemma ContainsMiddle(a: string, m: string, b: string)
    ensures Contains(a + m + b, m)
  {
    var s := a + m + b;
    assert s[|a|..|a| + |m|] == m;
    assert OccursAt(s, m, |a|);
  }

  /** The text splits around any one of its pieces. */
  lemma {:induction false} ConcatSplit(parts: seq<string>, k: nat)
    requires k < |parts|
    ensures Concat(parts) == Concat(parts[..k]) + parts[k] + Concat(parts[k + 1..])
  {
    if k == 0 {
      assert parts[..0] == [];
    } else {
      var tail := parts[1..];
      ConcatSplit(tail, k - 1);
      assert parts[..k][1..] == tail[..k - 1];
      assert tail[k..] == parts[k + 1..];
      assert tail[k - 1] == parts[k];
    }
  }

  lemma ConcatLast(parts: seq<string>)
    requires parts != []
    ensures Concat(parts) == Concat(parts[..|parts| - 1]) + parts[|parts| - 1]
  {
    ConcatSplit(parts, |parts| - 1);
    assert parts[|parts|..] == [];
  }

  /** Every piece occurs in the whole text. */
  lemma ContainsPiece(parts: seq<string>, k: nat)
    requires k < |parts|
    ensures Contains(Concat(parts), parts[k])
  {
    ConcatSplit(parts, k);
    ContainsMiddle(Concat(parts[..k]), parts[k], Concat(parts[k + 1..]));
  }

  /**
   * Stripping a + m + b keeps m when a has a non-space character at index 1
   * and b one at its second-to-last index.
   */
  lemma StripKeepsMiddle(a: string, m: string, b: string)
    requires |a| >= 2 && !IsSpace(a[1])
    requires |b| >= 2 && !IsSpace(b[|b| - 2])
    ensures Contains(Strip(a + m + b), m)
  {
    var s := a + m + b;
    assert s[1] == a[1];
    assert s[|s| - 2] == b[|b| - 2];
    assert s[|a|..|a| + |m|] == m;
    StripKeepsInterior(s, 1, |s| - 2, |a|, m);
  }

  /**
   * When the first piece holds no whitespace at index 1 and the last piece
   * none at its second-to-last index, stripping the text keeps every inner
   * piece.
   */
  lemma StripKeepsInnerPiece(parts: seq<string>, k: nat)
    requires 0 < k < |parts| - 1
    requires |parts[0]| >= 2 && !IsSpace(parts[0][1])
    requires |parts[|parts| - 1]| >= 2 && !IsSpace(parts[|parts| - 1][|parts[|parts| - 1]| - 2])
    ensures Contains(Strip(Concat(parts)), parts[k])
  {
    var before, after := parts[..k], parts[k + 1..];
    ConcatSplit(parts, k);
    assert before[0] == parts[0];
    ConcatLast(after);
    assert after[|after| - 1] == parts[|parts| - 1];
    StripKeepsMiddle(Concat(before), parts[k], Concat(after));
  }

  /** s.strip().strip() == s.strip() */
  lemma StripIdempotent(s: string)
    ensures Strip(Strip(s)) == Strip(s)
  {
    StripUnchanged(Strip(s));
  }

  lemma ContainsTrans(a: string, b: string, c: string)
    requires Contains(a, b) && Contains(b, c)
    ensures Contains(a, c)
  {
    var i :| 0 <= i <= |a| && OccursAt(a, b, i);
    var j :| 0 <= j <= |b| && OccursAt(b, c, j);
    forall k | 0 <= k < |c| ensures a[i + j..i + j + |c|][k] == c[k] {
      assert a[i..i + |b|][j + k] == b[j + k];
      assert b[j..j + |c|][k] == c[k];
    }
    assert OccursAt(a, c, i + j);
  }

  /** Every item occurs in sep.join(items). */
  lemma {:induction false} JoinContains(items: seq<string>, sep: string, k: nat)
    requires k < |items|
    ensures Contains(Join(items, sep), items[k])
  {
    if |items| == 1 {
      ContainsSelf(items[0]);
    } else if k == 0 {
      ContainsSelf(items[0]);
      ContainsLeft(items[0], sep + Join(items[1..], sep), items[0]);
      assert items[0] + sep + Join(items[1..], sep) == items[0] + (sep + Join(items[1..], sep));
    } else {
      JoinContains(items[1..], sep, k - 1);
      ContainsRight(items[0] + sep, Join(items[1..], sep), items[k]);
    }
  }

  /** The text begins with its first piece. */
  lemma ConcatStartsWith(parts: seq<string>)
    requires parts != []
    ensures |parts[0]| <= |Concat(parts)| && Concat(parts)[..|parts[0]|] == parts[0]
  {
    var rest := Concat(parts[1..]);
    assert Concat(parts) == parts[0] + rest;
  }

  /** The text ends with the last character of its last piece. */
  lemma ConcatEndsWith(parts: seq<string>)
    requires parts != [] && parts[|parts| - 1] != []
    ensures Concat(parts) != []
    ensures Concat(parts)[|Concat(parts)| - 1] == parts[|parts| - 1][|parts[|parts| - 1]| - 1]
  {
    ConcatLast(parts);
  }
}
