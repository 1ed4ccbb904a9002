/**
  The POSIX `os.path` operations the bot uses: `join` of two components,
  `basename`, and the stem that `splitext` leaves. The separator is fixed
  to '/'.
 */
module Paths {
  import opened Strings

  const Sep: char := '/'

  /** `os.path.join(a, b)`: an absolute `b` replaces `a`; otherwise one separator between them. */
  function Join(a: string, b: string): (r: string)
    ensures StartsWith(b, [Sep]) ==> r == b
    ensures !StartsWith(b, [Sep]) ==> r == a + b || r == a + [Sep] + b
    ensures !StartsWith(b, [Sep]) && a != [] ==> |r| > |b| && r[|r| - |b| - 1] == Sep
  {
    if StartsWith(b, [Sep]) then b
    else if a == [] || EndsWith(a, [Sep]) then a + b
    else a + [Sep] + b
  }

  /** `os.path.basename(p)`: everything after the last separator. */
  function Basename(p: string): (r: string)
    ensures Sep !in r
    ensures EndsWith(p, r)
    ensures |r| < |p| ==> p[|p| - |r| - 1] == Sep
  {
    p[LastIndexOf(p, Sep) + 1..]
  }

  /** The last component of a joined path is the component that was joined. */
  lemma {:induction false} BasenameOfJoin(a: string, b: string)
    requires b != [] && Sep !in b
    ensures Basename(Join(a, b)) == b
  {
    var r := Join(a, b);
    assert !StartsWith(b, [Sep]) by { assert b[0] in b; }
    assert EndsWith(r, b) by { assert r[|r| - |b|..] == b; }
    BasenameAfterSep(r, b);
  }

  /** A separator-free ending right after a separator, or the whole text, is the base name. */
  lemma BasenameAfterSep(r: string, b: string)
    requires EndsWith(r, b) && Sep !in b
    requires |b| < |r| ==> r[|r| - |b| - 1] == Sep
    ensures Basename(r) == b
  {
    var i := LastIndexOf(r, Sep);
    forall k | |r| - |b| <= k < |r| ensures r[k] != Sep {
      assert r[k] == b[k - (|r| - |b|)];
    }
    assert i == |r| - |b| - 1;
  }

  /** True when every character of `s` is a dot. */
  predicate AllDots(s: string) {
    forall k :: 0 <= k < |s| ==> s[k] == '.'
  }

  /** True when `name` has a dot with some character other than a dot before it. */
  predicate HasExtension(name: string) {
    exists i, j :: 0 <= j < i < |name| && name[i] == '.' && name[j] != '.'
  }

  /**
    `os.path.splitext(name)[0]` for a name without separators: the text
    before the last dot, unless only dots precede that dot.
   */
  function Stem(name: string): (r: string)
    ensures StartsWith(name, r)
    ensures name != [] ==> r != []
    ensures r != name <==> HasExtension(name)
    ensures r != name ==> name[|r|] == '.' && '.' !in name[|r| + 1..] && !AllDots(r)
  {
    var dot := LastIndexOf(name, '.');
    if dot > 0 && !AllDots(name[..dot]) then name[..dot]
    else
      assert !HasExtension(name) by {
        forall i, j | 0 <= j < i < |name| && name[i] == '.' ensures name[j] == '.' {
          assert name[..dot][j] == name[j];
        }
      }
      name
  }

  /** The stem of `base.ext` is `base` when `ext` has no dot and `base` is not made of dots only. */
  lemma StemDropsExtension(base: string, ext: string)
    requires base != [] && !AllDots(base) && '.' !in ext
    ensures Stem(base + "." + ext) == base
  {
    var name := base + "." + ext;
    assert name[|base|] == '.';
    assert forall k :: |base| < k < |name| ==> name[k] == ext[k - |base| - 1];
    assert name[..|base|] == base;
  }
}
