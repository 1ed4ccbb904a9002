/**
  The handful of `str` and `list` operations the bot relies on (find, rfind,
  startswith, endswith, `in`, strip, split, lower, decimal formatting), each
  stated by a contract that characterises its result.
 */
module Strings {

  /** `s.startswith(p)` */
  predicate StartsWith<T(==)>(s: seq<T>, p: seq<T>) {
    |p| <= |s| && s[..|p|] == p
  }

  /** `s.endswith(p)` */
  predicate EndsWith<T(==)>(s: seq<T>, p: seq<T>) {
    |p| <= |s| && s[|s| - |p|..] == p
  }

  /** `t in s` for strings: `t` occurs somewhere in `s`. */
  predicate Contains(s: string, t: string) {
    exists i :: 0 <= i <= |s| && StartsWith(s[i..], t)
  }

  /** Index of the first element of `s` that lies in `xs`, or `|s|` when there is none. */
  function IndexOfAny<T>(s: seq<T>, xs: set<T>): (i: nat)
    ensures i <= |s|
    ensures i < |s| ==> s[i] in xs
    ensures forall k :: 0 <= k < i ==> s[k] !in xs
  {
    if s == [] then 0 else if s[0] in xs then 0 else 1 + IndexOfAny(s[1..], xs)
  }

  /** `s.find(x)` (and `list.index(x)`), with `|s|` for "absent" instead of -1. */
  function IndexOf<T(==)>(s: seq<T>, x: T): (i: nat)
    ensures i <= |s|
    ensures i < |s| <==> x in s
    ensures i < |s| ==> s[i] == x
    ensures forall k :: 0 <= k < i ==> s[k] != x
  {
    IndexOfAny(s, {x})
  }

  /** A prefix of a text lacking `c` lacks `c` too. */
  lemma PrefixKeepsOut(s: string, p: string, c: char)
    requires StartsWith(s, p) && c !in s
    ensures c !in p
  {
    forall k | 0 <= k < |p| ensures p[k] != c {
      assert p[k] == s[k];
    }
  }

  /** `s.rfind(x)`: the last index holding `x`, or -1. */
  function LastIndexOf<T(==)>(s: seq<T>, x: T): (i: int)
    ensures -1 <= i < |s|
    ensures i >= 0 ==> s[i] == x
    ensures forall k :: i < k < |s| ==> s[k] != x
  {
    if s == [] then -1 else if s[|s| - 1] == x then |s| - 1 else LastIndexOf(s[..|s| - 1], x)
  }

  /** `s.lstrip(c)` */
  function LStrip(s: string, c: char): (r: string)
    ensures |r| <= |s| && r == s[|s| - |r|..]
    ensures forall k :: 0 <= k < |s| - |r| ==> s[k] == c
    ensures r == [] || r[0] != c
  {
    if s != [] && s[0] == c then LStrip(s[1..], c) else s
  }

  /** `s.rstrip(c)` */
  function RStrip(s: string, c: char): (r: string)
    ensures |r| <= |s| && r == s[..|r|]
    ensures forall k :: |r| <= k < |s| ==> s[k] == c
    ensures r == [] || r[|r| - 1] != c
  {
    if s != [] && s[|s| - 1] == c then RStrip(s[..|s| - 1], c) else s
  }

  /** `s.strip(c)`: drop every leading and trailing `c`. */
  function Strip(s: string, c: char): string {
    RStrip(LStrip(s, c), c)
  }

  /** Stripping a single leading separator from text that neither starts nor ends with it gives the text. */
  lemma StripLeading(c: char, x: string)
    requires x == [] || (x[0] != c && x[|x| - 1] != c)
    ensures Strip([c] + x, c) == x
  {
    assert ([c] + x)[1..] == x;
    assert LStrip(x, c) == x;
  }

  /** `s.split(sep)`: always at least one part, and no part holds the separator. */
  function Split(s: string, sep: char): (parts: seq<string>)
    ensures |parts| >= 1
    ensures forall p :: p in parts ==> sep !in p
    decreases |s|
  {
    var i := IndexOf(s, sep);
    if i == |s| then [s] else [s[..i]] + Split(s[i + 1..], sep)
  }

  /** `sep.join(parts)` */
  function JoinWith(parts: seq<string>, sep: char): string {
    if parts == [] then ""
    else if |parts| == 1 then parts[0]
    else parts[0] + [sep] + JoinWith(parts[1..], sep)
  }

  /** Joining a first part to the rest puts one separator between them. */
  lemma JoinCons(p: string, rest: seq<string>, sep: char)
    requires rest != []
    ensures JoinWith([p] + rest, sep) == p + [sep] + JoinWith(rest, sep)
  {
    assert ([p] + rest)[0] == p && ([p] + rest)[1..] == rest;
  }

  /** Joining the parts of a split gives back the original string. */
  lemma {:induction false} SplitJoin(s: string, sep: char)
    ensures JoinWith(Split(s, sep), sep) == s
    decreases |s|
  {
    var i := IndexOf(s, sep);
    if i < |s| {
      SplitJoin(s[i + 1..], sep);
      SplitJoinStep(s, sep, i);
    }
  }

  lemma SplitJoinStep(s: string, sep: char, i: nat)
    requires i == IndexOf(s, sep) && i < |s|
    requires JoinWith(Split(s[i + 1..], sep), sep) == s[i + 1..]
    ensures JoinWith(Split(s, sep), sep) == s
  {
    var head, rest := s[..i], s[i + 1..];
    var tail := Split(rest, sep);
    calc {
      JoinWith(Split(s, sep), sep);
      JoinWith([head] + tail, sep);
      { JoinCons(head, tail, sep); }
      head + [sep] + JoinWith(tail, sep);
      head + [sep] + rest;
      { CutAround(s, i); }
      s;
    }
  }

  lemma CutAround(s: string, i: nat)
    requires i < |s|
    ensures s[..i] + [s[i]] + s[i + 1..] == s
  {
  }

  /** A separator after a separator-free prefix splits off exactly that prefix. */
  lemma SplitAfter(a: string, sep: char, b: string)
    requires sep !in a
    ensures Split(a + [sep] + b, sep) == [a] + Split(b, sep)
  {
    var s := a + [sep] + b;
    assert s[|a|] == sep;
    assert forall k :: 0 <= k < |a| ==> s[k] == a[k];
    assert IndexOf(s, sep) == |a|;
    assert s[..|a|] == a && s[|a| + 1..] == b;
  }

  /** `(a + sep + b).split(sep) == a.split(sep) + b.split(sep)`: a separator cuts the parts in two. */
  lemma {:induction false} SplitConcat(a: string, sep: char, b: string)
    ensures Split(a + [sep] + b, sep) == Split(a, sep) + Split(b, sep)
    decreases |a|
  {
    var i := IndexOf(a, sep);
    if i == |a| {
      SplitAfter(a, sep, b);
    } else {
      var head, rest := a[..i], a[i + 1..];
      assert sep !in head by {
        forall k | 0 <= k < |head| ensures head[k] != sep { assert head[k] == a[k]; }
      }
      CutAround(a, i);
      assert a + [sep] + b == head + [sep] + (rest + [sep] + b);
      SplitAfter(head, sep, rest + [sep] + b);
      SplitConcat(rest, sep, b);
      assert Split(a, sep) == [head] + Split(rest, sep);
      PartsAssoc([head], Split(rest, sep), Split(b, sep));
    }
  }

  lemma PartsAssoc(x: seq<string>, y: seq<string>, z: seq<string>)
    ensures x + (y + z) == (x + y) + z
  {
  }

  /** Filtering out empty parts works piece by piece. */
  lemma {:induction false} NonEmptyConcat(a: seq<string>, b: seq<string>)
    ensures NonEmpty(a + b) == NonEmpty(a) + NonEmpty(b)
    decreases |a|
  {
    if a == [] {
      assert a + b == b;
    } else {
      assert (a + b)[0] == a[0] && (a + b)[1..] == a[1..] + b;
      NonEmptyConcat(a[1..], b);
    }
  }

  /** Splitting a join of separator-free parts gives the parts back. */
  lemma {:induction false} JoinSplit(parts: seq<string>, sep: char)
    requires |parts| >= 1 && forall p :: p in parts ==> sep !in p
    ensures Split(JoinWith(parts, sep), sep) == parts
    decreases |parts|
  {
    assert parts[0] in parts;
    if |parts| == 1 {
      assert IndexOf(parts[0], sep) == |parts[0]|;
    } else {
      JoinSplitStep(parts, sep);
    }
  }

  lemma {:induction false} JoinSplitStep(parts: seq<string>, sep: char)
    requires |parts| >= 2 && forall p :: p in parts ==> sep !in p
    ensures Split(JoinWith(parts, sep), sep) == parts
    decreases |parts|, 0
  {
    var tail := parts[1..];
    assert parts[0] in parts;
    assert forall p :: p in tail ==> p in parts;
    JoinSplit(tail, sep);
    SplitAfter(parts[0], sep, JoinWith(tail, sep));
    assert parts == [parts[0]] + tail;
  }

  /** The comprehension `[p for p in parts if p]`. */
  function NonEmpty(parts: seq<string>): (r: seq<string>)
    ensures |r| <= |parts|
    ensures forall p :: p in r ==> p != [] && p in parts
    ensures forall p :: p in parts && p != [] ==> p in r
  {
    if parts == [] then []
    else (if parts[0] == [] then [] else [parts[0]]) + NonEmpty(parts[1..])
  }

  /** ASCII lower-casing of one character. */
  function LowerChar(c: char): char {
    if 'A' <= c <= 'Z' then (c as int + 32) as char else c
  }

  /** `s.lower()` on ASCII letters. */
  function Lower(s: string): string {
    seq(|s|, k requires 0 <= k < |s| => LowerChar(s[k]))
  }

  /** `s.lower().endswith(t)`, compared one character at a time. */
  predicate EndsWithIgnoringCase(s: string, t: string) {
    |t| <= |s| && forall k :: 0 <= k < |t| ==> LowerChar(s[|s| - |t| + k]) == t[k]
  }

  lemma LowerEndsWith(s: string, t: string)
    ensures EndsWith(Lower(s), t) <==> EndsWithIgnoringCase(s, t)
  {
    if |t| <= |s| {
      var tail := Lower(s)[|s| - |t|..];
      assert forall k :: 0 <= k < |t| ==> tail[k] == LowerChar(s[|s| - |t| + k]);
      if EndsWithIgnoringCase(s, t) {
        assert tail == t;
      }
    }
  }

  predicate IsDigit(c: char) {
    '0' <= c <= '9'
  }

  predicate AllDigits(s: string) {
    forall k :: 0 <= k < |s| ==> IsDigit(s[k])
  }

  function DigitChar(d: nat): (c: char)
    requires d < 10
    ensures IsDigit(c) && c as int - '0' as int == d
  {
    ('0' as int + d) as char
  }

  /** The value of a string of decimal digits, most significant first. */
  function DecimalValue(s: string): nat
    requires AllDigits(s)
  {
    if s == [] then 0 else 10 * DecimalValue(s[..|s| - 1]) + (s[|s| - 1] as int - '0' as int)
  }

  /** `str(n)` for a natural number: the shortest decimal numeral. */
  function NatToString(n: nat): (s: string)
    ensures 1 <= |s| && AllDigits(s)
    ensures |s| > 1 ==> s[0] != '0'
    decreases n
  {
    if n < 10 then [DigitChar(n)] else NatToString(n / 10) + [DigitChar(n % 10)]
  }

  /** Reading back the numeral of `n` gives `n`. */
  lemma {:induction false} DecimalRoundTrip(n: nat)
    ensures DecimalValue(NatToString(n)) == n
    decreases n
  {
    if n >= 10 {
      var s := NatToString(n);
      DecimalRoundTrip(n / 10);
      assert s[..|s| - 1] == NatToString(n / 10);
    }
  }

  /** A numeral `str` writes: digits only, at least one, no leading zero unless it is "0". */
  predicate Numeral(s: string) {
    s != [] && AllDigits(s) && (|s| > 1 ==> s[0] != '0')
  }

  /** A numeral that does not start with '0' has a positive value. */
  lemma {:induction false} LeadingDigitPositive(s: string)
    requires s != [] && AllDigits(s) && s[0] != '0'
    ensures DecimalValue(s) > 0
    decreases |s|
  {
    if |s| > 1 {
      var p := s[..|s| - 1];
      assert p[0] == s[0];
      LeadingDigitPositive(p);
    }
  }

  lemma LastDigit(n: nat, v: nat, d: int)
    requires 0 <= d < 10 && n == 10 * v + d
    ensures n / 10 == v && n % 10 == d
  {
  }

  /** Each number has one numeral: the one `str` writes. */
  lemma {:induction false} NumeralUnique(s: string, n: nat)
    requires Numeral(s) && DecimalValue(s) == n
    ensures s == NatToString(n)
    decreases |s|
  {
    var d := s[|s| - 1] as int - '0' as int;
    if |s| == 1 {
      assert n == d;
    } else {
      var p := s[..|s| - 1];
      assert p[0] == s[0];
      LeadingDigitPositive(p);
      LastDigit(n, DecimalValue(p), d);
      NumeralUnique(p, n / 10);
      assert s == p + [s[|s| - 1]];
    }
  }

  /** Leading zeros do not change the value of a numeral. */
  lemma {:induction false} DecimalLeadingZeros(z: nat, s: string)
    requires AllDigits(s)
    ensures AllDigits(seq(z, _ => '0') + s)
    ensures DecimalValue(seq(z, _ => '0') + s) == DecimalValue(s)
    decreases z + |s|
  {
    var t := seq(z, _ => '0') + s;
    if s == [] {
      assert t == seq(z, _ => '0');
      if z > 0 {
        assert t[..|t| - 1] == seq(z - 1, _ => '0') + [];
        DecimalLeadingZeros(z - 1, []);
      }
    } else {
      assert t[..|t| - 1] == seq(z, _ => '0') + s[..|s| - 1];
      DecimalLeadingZeros(z, s[..|s| - 1]);
    }
  }

  /** `str(i)` for an integer, with a leading '-' for negatives. */
  function IntToString(i: int): (s: string)
    ensures 1 <= |s|
  {
    if i < 0 then "-" + NatToString(-i) else NatToString(i)
  }

  /** Reads back a numeral written by `IntToString`. */
  function IntValue(s: string): int
    requires s != [] && (if s[0] == '-' then AllDigits(s[1..]) else AllDigits(s))
  {
    if s[0] == '-' then -(DecimalValue(s[1..]) as int) else DecimalValue(s)
  }

  /** Reading back the numeral of `i` gives `i`. */
  lemma IntRoundTrip(i: int)
    ensures var s := IntToString(i);
            s != [] && (if s[0] == '-' then AllDigits(s[1..]) else AllDigits(s)) && IntValue(s) == i
  {
    if i < 0 {
      DecimalRoundTrip(-i);
      assert IntToString(i)[1..] == NatToString(-i);
    } else {
      DecimalRoundTrip(i);
    }
  }

  /** Right-justify `s` in a field of `width` characters filled with `c`. */
  function PadLeft(s: string, width: nat, c: char): (r: string)
    ensures |r| == if |s| < width then width else |s|
    ensures r[|r| - |s|..] == s
    ensures forall k :: 0 <= k < |r| - |s| ==> r[k] == c
  {
    if |s| < width then seq(width - |s|, _ => c) + s else s
  }
}
