/**
 * The two POSIX path helpers the backend relies on: `os.path.splitext`
 * (its extension half) and `os.path.join` of two parts.
 */
module Paths {
  import opened Text

  /** `s.rfind(c)`: the last position of `c` in `s`, or -1. */
  function LastIndexOf(s: string, c: char): (i: int)
    ensures -1 <= i < |s|
    ensures i >= 0 ==> s[i] == c
    ensures forall k :: i < k < |s| ==> s[k] != c
    decreases |s|
  {
    if |s| == 0 then -1
    else if s[|s| - 1] == c then |s| - 1
    else LastIndexOf(s[..|s| - 1], c)
  }

  /** Every character of `p[lo..hi]` is a dot. */
  predicate AllDots(p: string, lo: int, hi: int)
    requires 0 <= lo <= hi <= |p|
  {
    forall k :: lo <= k < hi ==> p[k] == '.'
  }

  /**
   * `os.path.splitext(p)[1]`: from the last dot of the last path component
   * on, unless everything before that dot in the component is dots (a
   * hidden file such as `.wav` has no extension).
   */
  function SplitExtension(p: string): string {
    var sep := LastIndexOf(p, '/');
    var dot := LastIndexOf(p, '.');
    if dot > sep && !AllDots(p, sep + 1, dot) then p[dot..] else ""
  }

  /** The component of `p` after its last `/` has a character that is not a dot, before position `hi`. */
  predicate NamedBefore(p: string, hi: int)
    requires LastIndexOf(p, '/') < hi <= |p|
  {
    !AllDots(p, LastIndexOf(p, '/') + 1, hi)
  }

  /**
   * An extension is empty or a dot followed by neither dots nor slashes,
   * and it is a suffix of the path.
   */
  lemma SplitExtensionShape(p: string)
    ensures var e := SplitExtension(p);
      |e| == 0 || (e[0] == '.' && EndsWith(p, e) && '/' !in e && '.' !in e[1..])
  {
    var sep := LastIndexOf(p, '/');
    var dot := LastIndexOf(p, '.');
    if dot > sep && !AllDots(p, sep + 1, dot) {
      var e := p[dot..];
      assert p[|p| - |e|..] == e;
      assert '/' !in e by {
        forall k | 0 <= k < |e| ensures e[k] != '/' {
          assert e[k] == p[dot + k];
        }
      }
      assert '.' !in e[1..] by {
        forall k | 0 <= k < |e[1..]| ensures e[1..][k] != '.' {
          assert e[1..][k] == p[dot + 1 + k];
        }
      }
    }
  }

  /**
   * Conversely, a named path followed by a dot and a dot- and slash-free
   * suffix has exactly that extension.
   */
  lemma SplitExtensionOf(stem: string, x: string)
    requires '.' !in x && '/' !in x
    requires NamedBefore(stem, |stem|)
    ensures SplitExtension(stem + "." + x) == "." + x
  {
    var p := stem + "." + x;
    var d := |stem|;
    assert p[d] == '.';
    assert forall k :: d < k < |p| ==> p[k] == x[k - d - 1];
    var dot := LastIndexOf(p, '.');
    assert dot == d;
    var sep := LastIndexOf(p, '/');
    var sepStem := LastIndexOf(stem, '/');
    assert forall k :: 0 <= k < d ==> p[k] == stem[k];
    assert sep == sepStem by {
      if sepStem >= 0 {
        assert p[sepStem] == '/';
      }
      assert forall k :: sepStem < k < |p| ==> p[k] != '/';
    }
    assert !AllDots(p, sep + 1, dot) by {
      var k :| sepStem + 1 <= k < d && stem[k] != '.';
      assert p[k] == stem[k];
    }
    assert p[dot..] == "." + x;
  }

  /** A path with no dot in its last component has no extension. */
  lemma NoDotNoExtension(p: string)
    requires forall k :: LastIndexOf(p, '/') < k < |p| ==> p[k] != '.'
    ensures SplitExtension(p) == ""
  {
  }

  /**
   * `os.path.join(a, b)`: an absolute `b` replaces `a`; otherwise the
   * result starts with `a`, ends with `b`, and between them holds one `/`
   * exactly when `a` is non-empty and does not already end with one.
   */
  function PathJoin(a: string, b: string): (r: string)
    ensures EndsWith(r, b)
    ensures StartsWith(b, "/") ==> r == b
    ensures !StartsWith(b, "/") ==>
      (StartsWith(r, a) && |a| + |b| <= |r| && r[|a|..|r| - |b|] == (if |a| == 0 || EndsWith(a, "/") then "" else "/"))
  {
    if StartsWith(b, "/") then b
    else if |a| == 0 || EndsWith(a, "/") then a + b
    else a + "/" + b
  }

  /** The last `c` of `x + y` is the last one of `y` when `y` has one, else the last one of `x`. */
  lemma {:induction false} LastIndexOfAppend(x: string, y: string, c: char)
    ensures LastIndexOf(x + y, c) ==
      if LastIndexOf(y, c) >= 0 then |x| + LastIndexOf(y, c) else LastIndexOf(x, c)
    decreases |y|
  {
    if |y| == 0 {
      assert x + y == x;
    } else {
      assert (x + y)[..|x + y| - 1] == x + y[..|y| - 1];
      LastIndexOfAppend(x, y[..|y| - 1], c);
    }
  }

  /**
   * Joining a directory with a relative file name keeps the file name as
   * the last component and the file name's extension as the path's.
   */
  lemma PathJoinBasename(a: string, b: string)
    requires |a| > 0 && forall k :: 0 <= k < |b| ==> b[k] != '/'
    ensures var r := PathJoin(a, b); r[LastIndexOf(r, '/') + 1..] == b
    ensures SplitExtension(PathJoin(a, b)) == SplitExtension(b)
  {
    var r := PathJoin(a, b);
    assert !StartsWith(b, "/") by {
      if |b| > 0 {
        assert b[0] != '/';
      }
    }
    var x := r[..|r| - |b|];
    assert r == x + b;
    assert x == a || x == a + "/";
    AfterSlash(x, b);
  }

  /** Behind a `/`, a name without one is the last component and decides the extension. */
  lemma AfterSlash(x: string, b: string)
    requires |x| > 0 && x[|x| - 1] == '/' && forall k :: 0 <= k < |b| ==> b[k] != '/'
    ensures (x + b)[LastIndexOf(x + b, '/') + 1..] == b
    ensures SplitExtension(x + b) == SplitExtension(b)
  {
    var r := x + b;
    assert LastIndexOf(b, '/') == -1;
    LastIndexOfAppend(x, b, '/');
    assert LastIndexOf(r, '/') == |x| - 1;
    assert r[|x|..] == b;
    LastIndexOfAppend(x, b, '.');
    if LastIndexOf(b, '.') >= 0 {
      ExtensionAfterSlash(x, b);
    }
  }

  /** The dot deciding the extension of `x + b` is `b`'s last dot, seen from the slash that ends `x`. */
  lemma ExtensionAfterSlash(x: string, b: string)
    requires |x| > 0 && LastIndexOf(x + b, '/') == |x| - 1 && LastIndexOf(b, '/') == -1
    requires LastIndexOf(b, '.') >= 0 && LastIndexOf(x + b, '.') == |x| + LastIndexOf(b, '.')
    ensures SplitExtension(x + b) == SplitExtension(b)
  {
    var r := x + b;
    var dotB := LastIndexOf(b, '.');
    forall k | 0 <= k < dotB ensures r[|x| + k] == b[k] {
    }
    assert AllDots(r, |x|, |x| + dotB) == AllDots(b, 0, dotB);
    assert r[|x| + dotB..] == b[dotB..];
  }
}
