/**
  A hand-written stand-in for the parts of `urllib.parse` the media sources
  use: `urlparse` (removal of tabs and line breaks, then scheme, network
  location, path, `;params`, query and fragment) and the first value
  `parse_qs` gives for a query parameter.
 */
module Urls {
  import opened Wrappers
  import opened Strings

  /** The six fields of a `urlparse` result. */
  datatype Url = Url(scheme: string, netloc: string, path: string, params: string, query: string, fragment: string)

  predicate IsAsciiLetter(c: char) {
    'a' <= c <= 'z' || 'A' <= c <= 'Z'
  }

  /** The characters `urlsplit` accepts in a scheme. */
  predicate IsSchemeChar(c: char) {
    IsAsciiLetter(c) || IsDigit(c) || c == '+' || c == '-' || c == '.'
  }

  /** A scheme `urlsplit` recognises when it is followed by ':'. */
  predicate ValidScheme(scheme: string) {
    scheme != [] && IsAsciiLetter(scheme[0]) && forall k :: 0 <= k < |scheme| ==> IsSchemeChar(scheme[k])
  }

  /** The characters that end the network location. */
  const NetlocDelimiters: set<char> := {'/', '?', '#'}

  /** Schemes whose last path segment may carry `;params`. */
  const UsesParams: set<string> :=
    {"", "ftp", "hdl", "prospero", "http", "imap", "https", "shttp", "rtsp",
     "rtsps", "rtspu", "sip", "sips", "mms", "sftp", "tel"}

  /**
    Splits off the scheme: the text before the first ':' when it is non-empty,
    starts with a letter and holds only scheme characters; it is lower-cased.
   */
  function SplitScheme(s: string): (r: (string, string))
    ensures r.0 == [] ==> r.1 == s
    ensures r.0 != [] ==> |r.0| + 1 + |r.1| == |s| && r.0 == Lower(s[..|r.0|]) && s[|r.0|] == ':'
                          && r.1 == s[|r.0| + 1..] && ValidScheme(s[..|r.0|])
  {
    var i := IndexOf(s, ':');
    if 0 < i < |s| && IsAsciiLetter(s[0]) && (forall k :: 0 <= k < i ==> IsSchemeChar(s[k]))
    then (Lower(s[..i]), s[i + 1..])
    else ("", s)
  }

  /** Splits what follows "//" into the network location and the rest. */
  function SplitNetloc(s: string): (r: (string, string))
    ensures r.0 + r.1 == s
    ensures forall k :: 0 <= k < |r.0| ==> r.0[k] !in NetlocDelimiters
    ensures r.1 == [] || r.1[0] in NetlocDelimiters
  {
    var j := IndexOfAny(s, NetlocDelimiters);
    (s[..j], s[j..])
  }

  /** `s.split(c, 1)` when `c in s`, and `(s, "")` otherwise. */
  function CutAt(s: string, c: char): (r: (string, string))
    ensures c !in r.0
    ensures c in s ==> s == r.0 + [c] + r.1
    ensures c !in s ==> r == (s, "")
  {
    var i := IndexOf(s, c);
    if i < |s| then (s[..i], s[i + 1..]) else (s, "")
  }

  /** Both halves of a cut lack what the whole lacks. */
  lemma CutKeepsOut(s: string, c: char, d: char)
    requires d !in s
    ensures d !in CutAt(s, c).0 && d !in CutAt(s, c).1
  {
    var r := CutAt(s, c);
    if c in s {
      forall k | 0 <= k < |r.0| ensures r.0[k] != d {
        assert r.0[k] == s[k];
      }
      forall k | 0 <= k < |r.1| ensures r.1[k] != d {
        assert r.1[k] == s[|r.0| + 1 + k];
      }
    }
  }

  /** Splits `;params` off the last segment of a path that contains ';'. */
  function SplitParams(path: string): (r: (string, string))
    ensures |r.0| <= |path| && r.0 == path[..|r.0|]
  {
    var slash := LastIndexOf(path, '/');
    var start := if slash < 0 then 0 else slash;
    var i := start + IndexOf(path[start..], ';');
    if i < |path| then (path[..i], path[i + 1..]) else (path, "")
  }

  /** What follows the scheme: the network location when "//" comes first. */
  function SplitAuthority(s: string): (r: (string, string))
    ensures forall k :: 0 <= k < |r.0| ==> r.0[k] !in NetlocDelimiters
  {
    if StartsWith(s, "//") then SplitNetloc(s[2..]) else ("", s)
  }

  /** Path, `;params`, query and fragment of what follows the network location. */
  function ParseRest(scheme: string, netloc: string, rest: string): (u: Url)
    requires forall k :: 0 <= k < |netloc| ==> netloc[k] !in NetlocDelimiters
    ensures u.scheme == scheme && u.netloc == netloc
    ensures forall k :: 0 <= k < |u.netloc| ==> u.netloc[k] !in NetlocDelimiters
    ensures '#' !in u.query && '#' !in u.path && '?' !in u.path
  {
    var cutFragment := CutAt(rest, '#');
    var cutQuery := CutAt(cutFragment.0, '?');
    var beforeQuery := cutQuery.0;
    var split :=
      if scheme in UsesParams && ';' in beforeQuery then SplitParams(beforeQuery) else (beforeQuery, "");
    CutKeepsOut(cutFragment.0, '?', '#');
    PrefixKeepsOut(beforeQuery, split.0, '#');
    PrefixKeepsOut(beforeQuery, split.0, '?');
    Url(scheme, netloc, split.0, split.1, cutQuery.1, cutFragment.1)
  }

  /** No tab, carriage return or line feed. */
  predicate NoUnsafe(s: string) {
    '\t' !in s && '\r' !in s && '\n' !in s
  }

  /** `url.replace(c, "")` for each of tab, carriage return and line feed, as `urlsplit` does first. */
  function RemoveUnsafe(s: string): (r: string)
    ensures NoUnsafe(r) && |r| <= |s|
    ensures NoUnsafe(s) ==> r == s
  {
    if s == [] then []
    else if s[0] in {'\t', '\r', '\n'} then RemoveUnsafe(s[1..])
    else
      assert s == [s[0]] + s[1..];
      [s[0]] + RemoveUnsafe(s[1..])
  }

  /** Removing the characters piecewise is removing them from the whole. */
  lemma {:induction false} RemoveUnsafeConcat(a: string, b: string)
    ensures RemoveUnsafe(a + b) == RemoveUnsafe(a) + RemoveUnsafe(b)
    decreases |a|
  {
    if a == [] {
      assert a + b == b;
    } else {
      assert (a + b)[0] == a[0] && (a + b)[1..] == a[1..] + b;
      RemoveUnsafeConcat(a[1..], b);
    }
  }

  /** A tab, carriage return or line feed anywhere in a URL does not change how it parses. */
  lemma ParseSkipsUnsafe(a: string, c: char, b: string)
    requires c in {'\t', '\r', '\n'}
    ensures Parse(a + [c] + b) == Parse(a + b)
  {
    RemoveUnsafeSkips(a, c, b);
  }

  /** A final line feed does not change how a link parses. */
  lemma ParseSkipsFinalLineFeed(a: string)
    ensures Parse(a + "\n") == Parse(a)
  {
    assert a + "\n" == a + ['\n'] + [];
    assert a + [] == a;
    ParseSkipsUnsafe(a, '\n', []);
  }

  lemma RemoveUnsafeSkips(a: string, c: char, b: string)
    requires c in {'\t', '\r', '\n'}
    ensures RemoveUnsafe(a + [c] + b) == RemoveUnsafe(a + b)
  {
    var ra := RemoveUnsafe(a);
    RemoveUnsafeConcat(a + [c], b);
    RemoveUnsafeConcat(a, [c]);
    RemoveOne(c);
    assert RemoveUnsafe(a + [c]) == ra by { assert ra + [] == ra; }
    RemoveUnsafeConcat(a, b);
  }

  lemma RemoveOne(c: char)
    requires c in {'\t', '\r', '\n'}
    ensures RemoveUnsafe([c]) == []
  {
    assert [c][1..] == [];
  }

  /** `urlparse(s)`: tabs and line breaks are removed, then the rest is split. */
  function Parse(s: string): (u: Url)
    ensures forall k :: 0 <= k < |u.netloc| ==> u.netloc[k] !in NetlocDelimiters
    ensures '#' !in u.query && '#' !in u.path && '?' !in u.path
  {
    Split6(RemoveUnsafe(s))
  }

  /** The six fields of a URL with no tab or line break. */
  function Split6(s: string): (u: Url)
    ensures forall k :: 0 <= k < |u.netloc| ==> u.netloc[k] !in NetlocDelimiters
    ensures '#' !in u.query && '#' !in u.path && '?' !in u.path
  {
    var (scheme, afterScheme) := SplitScheme(s);
    var (netloc, rest) := SplitAuthority(afterScheme);
    ParseRest(scheme, netloc, rest)
  }

  /**
    `parse_qs(query)[name][0]`: the value of the first pair that names
    `name` with a non-empty value, with '+' read as a space; absent when no
    pair does.
   */
  function QueryFirst(query: string, name: string): (r: Option<string>)
    ensures r.Some? ==> r.value != [] && '&' !in r.value
    ensures r.None? <==> forall p :: p in Split(query, '&') ==> !NamesValue(p, name)
  {
    FirstPairValue(Split(query, '&'), name)
  }

  /** The value of the first `name=value` pair with a non-empty value. */
  function FirstPairValue(pairs: seq<string>, name: string): (r: Option<string>)
    requires forall p :: p in pairs ==> '&' !in p
    ensures r.Some? ==> r.value != [] && '&' !in r.value
    ensures r.None? <==> forall p :: p in pairs ==> !NamesValue(p, name)
  {
    if pairs == [] then None
    else
      var (n, v) := CutAt(pairs[0], '=');
      if NamesValue(pairs[0], name) then
        assert '&' !in pairs[0];
        assert forall k :: 0 <= k < |v| ==> v[k] == pairs[0][|n| + 1 + k] != '&';
        Some(PlusToSpace(v))
      else
        assert forall p :: p in pairs ==> p == pairs[0] || p in pairs[1..];
        FirstPairValue(pairs[1..], name)
  }

  /** `s.replace('+', ' ')`, which `parse_qs` applies to names and values. */
  function PlusToSpace(s: string): (r: string)
    ensures |r| == |s|
    ensures forall k :: 0 <= k < |s| ==> r[k] == (if s[k] == '+' then ' ' else s[k])
  {
    if s == [] then [] else [if s[0] == '+' then ' ' else s[0]] + PlusToSpace(s[1..])
  }

  /** Text without '+' is left as it is. */
  lemma PlusFree(s: string)
    requires '+' !in s
    ensures PlusToSpace(s) == s
  {
  }

  /**
    `pair` splits at its first '=' into a key that reads as `name` once '+'
    is a space, and a non-empty value.
   */
  predicate NamesValue(pair: string, name: string) {
    '=' in pair && PlusToSpace(CutAt(pair, '=').0) == name && CutAt(pair, '=').1 != []
  }

  /** The pair `key=v` is cut into `key` and `v`. */
  lemma PairCut(key: string, v: string)
    requires '=' !in key
    ensures CutAt(key + "=" + v, '=') == (key, v)
  {
    var q := key + "=" + v;
    assert q[|key|] == '=';
    assert forall k :: 0 <= k < |key| ==> q[k] == key[k];
    assert IndexOf(q, '=') == |key|;
    assert q[..|key|] == key && q[|key| + 1..] == v;
  }

  /** `key=v` names a value for the key read with spaces exactly when `v` is not empty. */
  lemma NamesValueOf(key: string, v: string)
    requires '=' !in key
    ensures NamesValue(key + "=" + v, PlusToSpace(key)) <==> v != []
  {
    PairCut(key, v);
    assert (key + "=" + v)[|key|] == '=';
  }

  /** A leading `key=v` pair wins, whatever the rest of the query holds. */
  lemma QueryFirstLeading(key: string, v: string, rest: string)
    requires '&' !in key && '=' !in key
    requires v != [] && '&' !in v
    ensures QueryFirst(key + "=" + v + "&" + rest, PlusToSpace(key)) == Some(PlusToSpace(v))
  {
    var p := key + "=" + v;
    assert '&' !in p;
    NamesValueOf(key, v);
    PairCut(key, v);
    assert key + "=" + v + "&" + rest == p + ['&'] + rest;
    SplitAfter(p, '&', rest);
  }

  /** A leading pair that does not name a value for `name` is passed over. */
  lemma QueryFirstSkips(p: string, rest: string, name: string)
    requires '&' !in p && !NamesValue(p, name)
    ensures QueryFirst(p + "&" + rest, name) == QueryFirst(rest, name)
  {
    assert p + "&" + rest == p + ['&'] + rest;
    SplitAfter(p, '&', rest);
    var pairs := Split(p + "&" + rest, '&');
    assert pairs[1..] == Split(rest, '&');
  }

  /** A query made of one pair whose key does not read as `name` gives `name` no value. */
  lemma QueryFirstOtherKey(key: string, v: string, name: string)
    requires '&' !in key && '=' !in key && '&' !in v
    requires PlusToSpace(key) != name
    ensures QueryFirst(key + "=" + v, name) == None
  {
    var q := key + "=" + v;
    assert '&' !in q;
    assert IndexOf(q, '&') == |q|;
    assert Split(q, '&') == [q];
    PairCut(key, v);
  }

  /** A query made of the single pair `key=v` yields `v` with '+' read as a space. */
  lemma QueryFirstSingle(key: string, v: string)
    requires '&' !in key && '=' !in key
    requires v != [] && '&' !in v
    ensures QueryFirst(key + "=" + v, PlusToSpace(key)) == Some(PlusToSpace(v))
  {
    var q := key + "=" + v;
    assert '&' !in q;
    assert IndexOf(q, '&') == |q|;
    assert Split(q, '&') == [q];
    NamesValueOf(key, v);
    PairCut(key, v);
  }

  /** A valid scheme and ':' are split off and the scheme lower-cased. */
  lemma SplitSchemeOf(scheme: string, rest: string)
    requires ValidScheme(scheme)
    ensures SplitScheme(scheme + ":" + rest) == (Lower(scheme), rest)
  {
    var s := scheme + ":" + rest;
    assert s[|scheme|] == ':';
    assert forall k :: 0 <= k < |scheme| ==> s[k] == scheme[k] && s[k] != ':';
    assert IndexOf(s, ':') == |scheme|;
    assert s[..|scheme|] == scheme && s[|scheme| + 1..] == rest;
  }

  /** What follows the network location when it is a path and an optional query. */
  lemma ParseAfterNetloc(scheme: string, netloc: string, tail: string, path: string, query: string)
    requires ValidScheme(scheme)
    requires forall k :: 0 <= k < |netloc| ==> netloc[k] !in NetlocDelimiters
    requires tail == [] || tail[0] in NetlocDelimiters
    requires '#' !in tail
    requires '?' !in path && ';' !in path
    requires ('?' in tail && tail == path + "?" + query) || ('?' !in tail && tail == path && query == [])
    requires NoUnsafe(netloc) && NoUnsafe(tail)
    ensures Parse(scheme + "://" + netloc + tail) == Url(Lower(scheme), netloc, path, "", query, "")
  {
    var s := scheme + "://" + netloc + tail;
    NothingUnsafe(scheme, netloc, tail);
    assert RemoveUnsafe(s) == s;
    SplitAfterNetloc(scheme, netloc, tail, path, query);
  }

  /** A URL built from a scheme and parts without tabs or line breaks has none. */
  lemma NothingUnsafe(scheme: string, netloc: string, tail: string)
    requires ValidScheme(scheme) && NoUnsafe(netloc) && NoUnsafe(tail)
    ensures NoUnsafe(scheme + "://" + netloc + tail)
  {
    forall k | 0 <= k < |scheme| ensures scheme[k] !in {'\t', '\r', '\n'} {
      assert IsSchemeChar(scheme[k]);
    }
  }

  lemma SplitAfterNetloc(scheme: string, netloc: string, tail: string, path: string, query: string)
    requires ValidScheme(scheme)
    requires forall k :: 0 <= k < |netloc| ==> netloc[k] !in NetlocDelimiters
    requires tail == [] || tail[0] in NetlocDelimiters
    requires '#' !in tail
    requires '?' !in path && ';' !in path
    requires ('?' in tail && tail == path + "?" + query) || ('?' !in tail && tail == path && query == [])
    ensures Split6(scheme + "://" + netloc + tail) == Url(Lower(scheme), netloc, path, "", query, "")
  {
    var afterScheme := "//" + netloc + tail;
    SplitSchemeOf(scheme, afterScheme);
    SchemeSeparator(scheme, netloc, tail);
    AuthorityOf(netloc, tail);
    RestOf(Lower(scheme), netloc, tail, path, query);
  }

  lemma SchemeSeparator(scheme: string, netloc: string, tail: string)
    ensures scheme + "://" + netloc + tail == scheme + ":" + ("//" + netloc + tail)
  {
  }

  /** A network location free of delimiters is split off intact. */
  lemma AuthorityOf(netloc: string, tail: string)
    requires forall k :: 0 <= k < |netloc| ==> netloc[k] !in NetlocDelimiters
    requires tail == [] || tail[0] in NetlocDelimiters
    ensures SplitAuthority("//" + netloc + tail) == (netloc, tail)
  {
    var afterScheme := "//" + netloc + tail;
    assert StartsWith(afterScheme, "//") && afterScheme[2..] == netloc + tail;
    var j := IndexOfAny(netloc + tail, NetlocDelimiters);
    assert j == |netloc| by {
      assert forall k :: 0 <= k < |netloc| ==> (netloc + tail)[k] !in NetlocDelimiters;
      if tail != [] {
        assert (netloc + tail)[|netloc|] in NetlocDelimiters;
      }
    }
    assert (netloc + tail)[..j] == netloc && (netloc + tail)[j..] == tail;
  }

  /** A path free of '?', '#' and ';' followed by an optional query parses into those two. */
  lemma RestOf(scheme: string, netloc: string, tail: string, path: string, query: string)
    requires forall k :: 0 <= k < |netloc| ==> netloc[k] !in NetlocDelimiters
    requires '#' !in tail
    requires '?' !in path && ';' !in path
    requires ('?' in tail && tail == path + "?" + query) || ('?' !in tail && tail == path && query == [])
    ensures ParseRest(scheme, netloc, tail) == Url(scheme, netloc, path, "", query, "")
  {
    assert CutAt(tail, '#') == (tail, "");
    if '?' in tail {
      assert tail[|path|] == '?';
      assert IndexOf(tail, '?') == |path|;
      assert tail[..|path|] == path && tail[|path| + 1..] == query;
      assert CutAt(tail, '?') == (path, query);
    } else {
      assert CutAt(tail, '?') == (path, "");
    }
  }

  /** `scheme://netloc/path?query` parses into its parts. */
  lemma ParseWithQuery(scheme: string, netloc: string, path: string, query: string)
    requires ValidScheme(scheme)
    requires forall k :: 0 <= k < |netloc| ==> netloc[k] !in NetlocDelimiters
    requires path == [] || path[0] == '/'
    requires '?' !in path && '#' !in path && ';' !in path && '#' !in query
    requires NoUnsafe(netloc) && NoUnsafe(path) && NoUnsafe(query)
    ensures Parse(scheme + "://" + netloc + path + "?" + query) == Url(Lower(scheme), netloc, path, "", query, "")
  {
    var tail := path + "?" + query;
    assert scheme + "://" + netloc + path + "?" + query == scheme + "://" + netloc + tail;
    assert tail[|path|] == '?';
    ParseAfterNetloc(scheme, netloc, tail, path, query);
  }

  /** `scheme://netloc/path` parses into its parts. */
  lemma ParseWithoutQuery(scheme: string, netloc: string, path: string)
    requires ValidScheme(scheme)
    requires forall k :: 0 <= k < |netloc| ==> netloc[k] !in NetlocDelimiters
    requires path == [] || path[0] == '/'
    requires '?' !in path && '#' !in path && ';' !in path
    requires NoUnsafe(netloc) && NoUnsafe(path)
    ensures Parse(scheme + "://" + netloc + path) == Url(Lower(scheme), netloc, path, "", "", "")
  {
    ParseAfterNetloc(scheme, netloc, path, path, "");
  }
}
