/**
 * Reading parameters back out of a URL the way an OAuth authorization
 * endpoint does: the query is everything after the first `?`, parameters are
 * separated by `&`, and each splits into key and value at its first `=`.
 * Percent-decoding is not modelled: the login URL builder does not encode.
 */
module QueryString {
  import opened Wrappers

  /** Splits `s` at the first occurrence of `c`; None when `c` does not occur. */
  function SplitFirst(s: string, c: char): (r: Option<(string, string)>)
    ensures r.None? <==> c !in s
    ensures r.Some? ==> s == r.value.0 + [c] + r.value.1 && c !in r.value.0
    decreases |s|
  {
    if |s| == 0 then None
    else if s[0] == c then Some(([], s[1..]))
    else
      match SplitFirst(s[1..], c)
      case None => None
      case Some(parts) => Some(([s[0]] + parts.0, parts.1))
  }

  /** All pieces of `s` between occurrences of `sep`, in order. */
  function Split(s: string, sep: char): (parts: seq<string>)
    ensures |parts| >= 1
    decreases |s|
  {
    match SplitFirst(s, sep)
    case None => [s]
    case Some(p) => [p.0] + Split(p.1, sep)
  }

  /** A parameter's key and value; a parameter without `=` has an empty value. */
  function KeyValue(param: string): (string, string) {
    match SplitFirst(param, '=')
    case None => (param, "")
    case Some(kv) => kv
  }

  /** The value of the first parameter named `key`. */
  function Lookup(params: seq<string>, key: string): Option<string>
    decreases |params|
  {
    if |params| == 0 then None
    else if KeyValue(params[0]).0 == key then Some(KeyValue(params[0]).1)
    else Lookup(params[1..], key)
  }

  /** The value the URL gives the query parameter `key`, if any. */
  function QueryParam(url: string, key: string): Option<string> {
    match SplitFirst(url, '?')
    case None => None
    case Some(p) => Lookup(Split(p.1, '&'), key)
  }

  // ---------------------------------------------------------------- lemmas

  /** Splitting right after a prefix free of the separator recovers the prefix and the rest. */
  lemma {:induction false} SplitFirstAfter(a: string, c: char, b: string)
    requires c !in a
    ensures SplitFirst(a + [c] + b, c) == Some((a, b))
    decreases |a|
  {
    if |a| > 0 {
      assert (a + [c] + b)[1..] == a[1..] + [c] + b;
      SplitFirstAfter(a[1..], c, b);
      assert [a[0]] + a[1..] == a;
    } else {
      assert a + [c] + b == [c] + b;
    }
  }

  /** A piece free of the separator is the first piece of the split. */
  lemma SplitAfter(a: string, sep: char, b: string)
    requires sep !in a
    ensures Split(a + [sep] + b, sep) == [a] + Split(b, sep)
  {
    SplitFirstAfter(a, sep, b);
  }

  /** A key free of `=` followed by `=` is read back with its whole value. */
  lemma KeyValueOf(k: string, v: string)
    requires '=' !in k
    ensures KeyValue(k + "=" + v) == (k, v)
  {
    SplitFirstAfter(k, '=', v);
  }
}
