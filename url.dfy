/**
 * The parts of URL handling the payment round trip depends on: the payment
 * provider substituting the session id into the return URL, the browser's
 * `location.search`, and `URLSearchParams.get`. Percent-decoding and `+` are
 * not modelled; the identifiers involved are URL-safe.
 */
module Url {
  import opened Shared

  /** Every occurrence of `pat` in `s`, left to right, replaced by `rep`. */
  function ReplaceAll(s: string, pat: string, rep: string): string
    requires pat != ""
    decreases |s|
  {
    if StartsWith(s, pat) then rep + ReplaceAll(s[|pat|..], pat, rep)
    else if s == [] then []
    else [s[0]] + ReplaceAll(s[1..], pat, rep)
  }

  /** Text that cannot hold an occurrence of `pat` passes through unchanged. */
  lemma {:induction false} ReplaceAllSkips(a: string, pat: string, rep: string, b: string)
    requires pat != "" && pat[0] !in a
    ensures ReplaceAll(a + b, pat, rep) == a + ReplaceAll(b, pat, rep)
  {
    if a != [] {
      assert (a + b)[0] == a[0];
      assert !StartsWith(a + b, pat);
      assert (a + b)[1..] == a[1..] + b;
      ReplaceAllSkips(a[1..], pat, rep, b);
    } else {
      assert a + b == b;
    }
  }

  lemma ReplaceAllHit(pat: string, rep: string, b: string)
    requires pat != ""
    ensures ReplaceAll(pat + b, pat, rep) == rep + ReplaceAll(b, pat, rep)
  {
    assert (pat + b)[..|pat|] == pat;
    assert (pat + b)[|pat|..] == b;
  }

  /** A single occurrence, surrounded by text that cannot start another, is replaced once. */
  lemma ReplaceAllOnce(head: string, pat: string, rep: string, tail: string)
    requires pat != "" && pat[0] !in head && pat[0] !in tail
    ensures ReplaceAll(head + pat + tail, pat, rep) == head + rep + tail
  {
    assert head + pat + tail == head + (pat + tail);
    ReplaceAllSkips(head, pat, rep, pat + tail);
    ReplaceAllHit(pat, rep, tail);
    ReplaceAllSkips(tail, pat, rep, "");
    assert tail + "" == tail;
  }

  /** `location.search` without its `?`: the fragment (from the first `#`) is cut
    * off, and the search is what follows the first `?` of the rest. */
  function SearchOf(url: string): string {
    var beforeFragment := BeforeFirst(url, '#');
    var path := BeforeFirst(beforeFragment, '?');
    if |path| == |beforeFragment| then "" else beforeFragment[|path| + 1..]
  }

  /** `new URLSearchParams(search).get(key)`: the value of the first `&`-separated
    * pair whose name, the text before its first `=`, is `key`. */
  function QueryGet(search: string, key: string): Option<string>
    decreases |search|
  {
    var pair := BeforeFirst(search, '&');
    var name := BeforeFirst(pair, '=');
    if name == key then Some(if |name| < |pair| then pair[|name| + 1..] else "")
    else if |pair| < |search| then QueryGet(search[|pair| + 1..], key)
    else None
  }

  lemma SearchOfSplit(path: string, query: string)
    requires '?' !in path && '#' !in path && '#' !in query
    ensures SearchOf(path + "?" + query) == query
  {
    var url := path + "?" + query;
    BeforeFirstAbsent(url, '#');
    assert url == path + ['?'] + query;
    BeforeFirstSplit(path, '?', query);
    assert url[|path| + 1..] == query;
  }

  /** The first pair of `key=value&rest` answers for `key`. */
  lemma QueryGetFirst(key: string, value: string, rest: string)
    requires '&' !in key && '=' !in key && '&' !in value
    ensures QueryGet(key + "=" + value + "&" + rest, key) == Some(value)
  {
    var s := key + "=" + value + "&" + rest;
    assert s == (key + "=" + value) + ['&'] + rest;
    BeforeFirstSplit(key + "=" + value, '&', rest);
    BeforeFirstSplit(key, '=', value);
    assert (key + "=" + value)[|key| + 1..] == value;
  }

  /** A pair whose name differs is skipped. */
  lemma QueryGetSkip(name: string, value: string, rest: string, key: string)
    requires '&' !in name && '=' !in name && '&' !in value && name != key
    ensures QueryGet(name + "=" + value + "&" + rest, key) == QueryGet(rest, key)
  {
    var s := name + "=" + value + "&" + rest;
    assert s == (name + "=" + value) + ['&'] + rest;
    BeforeFirstSplit(name + "=" + value, '&', rest);
    BeforeFirstSplit(name, '=', value);
    assert s[|name + "=" + value| + 1..] == rest;
  }

  /** The last pair, `key=value` with nothing after it. */
  lemma QueryGetLast(key: string, value: string)
    requires '&' !in key && '=' !in key && '&' !in value
    ensures QueryGet(key + "=" + value, key) == Some(value)
  {
    BeforeFirstAbsent(key + "=" + value, '&');
    BeforeFirstSplit(key, '=', value);
    assert (key + "=" + value)[|key| + 1..] == value;
  }
}
