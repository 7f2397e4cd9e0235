/**
 * Response headers as the pipeline receives them: a Python dict from header
 * name to value. A dict keeps insertion order and holds each key once;
 * membership is exact-key membership, with no case folding (the web
 * fetcher copies the server's casing into a plain dict).
 */
module Headers {
  import opened Wrappers
  import opened Text

  datatype Header = Header(name: string, value: string)

  predicate DistinctNames(hs: seq<Header>) {
    forall i, j :: 0 <= i < j < |hs| ==> hs[i].name != hs[j].name
  }

  /** An ordered dict of headers: entries in insertion order, no key twice. */
  type HeaderMap = hs: seq<Header> | DistinctNames(hs)

  /** Python's `k in headers`. */
  predicate Has(h: seq<Header>, k: string) {
    exists i | 0 <= i < |h| :: h[i].name == k
  }

  /** Python's headers.get(k): the value stored under exactly k, or None. */
  function Lookup(h: seq<Header>, k: string): (r: Option<string>)
    ensures r.Some? <==> Has(h, k)
    ensures r.Some? ==> exists i | 0 <= i < |h| :: h[i] == Header(k, r.value)
  {
    if h == [] then None
    else if h[0].name == k then Some(h[0].value)
    else
      var r := Lookup(h[1..], k);
      assert forall i | 0 <= i < |h| - 1 :: h[1..][i] == h[i + 1];
      r
  }

  /** Python's headers[k], for a key known to be present. */
  function Value(h: seq<Header>, k: string): string
    requires Has(h, k)
  {
    Lookup(h, k).value
  }

  /** In a dict, the value found under a key is the one stored with it. */
  lemma {:induction false} LookupEntry(h: seq<Header>, i: int)
    requires DistinctNames(h) && 0 <= i < |h|
    ensures Lookup(h, h[i].name) == Some(h[i].value)
  {
    if i > 0 {
      assert h[i].name != h[0].name;
      assert h[1..][i - 1] == h[i];
      LookupEntry(h[1..], i - 1);
    }
  }

  /** Python's headers.keys(), in insertion order. */
  function Names(h: seq<Header>): (ks: seq<string>)
    ensures |ks| == |h|
    ensures forall i :: 0 <= i < |h| ==> ks[i] == h[i].name
  {
    seq(|h|, i requires 0 <= i < |h| => h[i].name)
  }

  lemma NamesOfMap(h: HeaderMap)
    ensures Distinct(Names(h))
    ensures forall k :: k in Names(h) <==> Has(h, k)
  {
  }
}
