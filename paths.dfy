/**
 * POSIX path strings as the program builds them with os.path.join, and the
 * directory they denote: the sequence of their non-empty '/'-separated
 * components. A directory tree is a set of such component sequences; the
 * root, the empty sequence, always exists and is never a member.
 */
module Paths {

  type Path = seq<string>

  predicate IsAbsolute(s: string)
  {
    |s| > 0 && s[0] == '/'
  }

  /** os.path.join(a, b) on POSIX: an absolute `b` replaces `a`; otherwise one separator is inserted unless `a` is empty or already ends with one. */
  function Join(a: string, b: string): (r: string)
    ensures IsAbsolute(b) ==> r == b
    ensures !IsAbsolute(b) ==> a <= r && |a| + |b| <= |r| <= |a| + |b| + 1
  {
    if IsAbsolute(b) then b
    else if a == "" || a[|a| - 1] == '/' then a + b
    else a + "/" + b
  }

  /** Index of the first separator in `s`, or |s| when there is none. */
  function SegmentEnd(s: string): (n: nat)
    ensures n <= |s|
    ensures forall i :: 0 <= i < n ==> s[i] != '/'
    ensures n < |s| ==> s[n] == '/'
  {
    if s == [] || s[0] == '/' then 0 else 1 + SegmentEnd(s[1..])
  }

  /** Joining a relative component keeps it whole at the end, and the one character Join may insert is a separator. */
  lemma JoinShape(a: string, b: string)
    requires !IsAbsolute(b)
    ensures var r := Join(a, b);
            && |r| >= |b| && r[|r| - |b|..] == b
            && (|r| == |a| + |b| + 1 ==> r[|a|] == '/')
  {
  }

  /** The directory a path string denotes: its components, with the empty ones (from leading, doubled or trailing separators) dropped. */
  function Segments(s: string): (p: Path)
    ensures forall i :: 0 <= i < |p| ==> p[i] != "" && '/' !in p[i]
    decreases |s|
  {
    if s == [] then []
    else if s[0] == '/' then Segments(s[1..])
    else
      var n := SegmentEnd(s);
      [s[..n]] + Segments(s[n..])
  }

  lemma SegmentEndUnique(s: string, m: nat)
    requires m <= |s|
    requires forall i :: 0 <= i < m ==> s[i] != '/'
    requires m < |s| ==> s[m] == '/'
    ensures SegmentEnd(s) == m
  {
  }

  /** A separator between two strings splits their components apart. */
  lemma {:induction false} SegmentsAroundSeparator(a: string, b: string)
    ensures Segments(a + "/" + b) == Segments(a) + Segments(b)
    decreases |a|
  {
    var s := a + "/" + b;
    if a == [] {
      assert s[1..] == b;
    } else if a[0] == '/' {
      assert s[1..] == a[1..] + "/" + b;
      SegmentsAroundSeparator(a[1..], b);
    } else {
      var n := SegmentEnd(a);
      assert forall i :: 0 <= i < n ==> s[i] == a[i];
      SegmentEndUnique(s, n);
      assert s[..n] == a[..n];
      assert s[n..] == a[n..] + "/" + b;
      SegmentsAroundSeparator(a[n..], b);
    }
  }

  /** Joining a relative component appends its components to the directory; joining an absolute one starts over from the root. */
  lemma JoinSegments(a: string, b: string)
    ensures Segments(Join(a, b)) == if IsAbsolute(b) then Segments(b) else Segments(a) + Segments(b)
  {
    if IsAbsolute(b) {
    } else if a == "" {
      assert a + b == b;
    } else if a[|a| - 1] == '/' {
      var a' := a[..|a| - 1];
      assert a + b == a' + "/" + b;
      assert a' + "/" + "" == a;
      SegmentsAroundSeparator(a', b);
      SegmentsAroundSeparator(a', "");
    } else {
      SegmentsAroundSeparator(a, b);
    }
  }

  /** A name without separators is a single component. */
  lemma PlainNameSegments(s: string)
    requires s != "" && '/' !in s
    ensures Segments(s) == [s]
  {
    SegmentEndUnique(s, |s|);
    assert s[..|s|] == s;
    assert s[|s|..] == [];
  }

  /** The directories os.makedirs(p) needs: every non-root ancestor of `p`, and `p` itself. */
  function Prefixes(p: Path): (r: set<Path>)
    ensures forall q :: q in r <==> q != [] && q <= p
  {
    var r := set k | 1 <= k <= |p| :: p[..k];
    assert forall q :: q != [] && q <= p ==> q == p[..|q|] && q in r;
    r
  }

  /** Creating a path also creates every directory on the way to it. */
  lemma PrefixesMonotone(p: Path, q: Path)
    requires p <= q
    ensures Prefixes(p) <= Prefixes(q)
  {
  }

  /** The invariant os.makedirs keeps: every directory's parent exists (up to the root, which always does). */
  ghost predicate ParentClosed(dirs: set<Path>)
  {
    forall d :: d in dirs ==> d != [] && (|d| > 1 ==> d[..|d| - 1] in dirs)
  }

  /** In a parent-closed tree every ancestor of a directory exists. */
  lemma {:induction false} AncestorsPresent(dirs: set<Path>, d: Path)
    requires ParentClosed(dirs) && d in dirs
    ensures Prefixes(d) <= dirs
    decreases |d|
  {
    if |d| > 1 {
      var parent := d[..|d| - 1];
      AncestorsPresent(dirs, parent);
      forall q | q in Prefixes(d) ensures q in dirs {
        if q != d {
          assert q <= parent;
        }
      }
    } else {
      forall q | q in Prefixes(d) ensures q == d {
        assert |q| == 1 && q == d[..1];
      }
    }
  }

  /** Creating a path together with all its missing ancestors keeps every parent present. */
  lemma AddingPrefixesKeepsParentClosed(dirs: set<Path>, p: Path)
    requires ParentClosed(dirs)
    ensures ParentClosed(dirs + Prefixes(p))
  {
    forall d | d in Prefixes(p) && |d| > 1 ensures d[..|d| - 1] in Prefixes(p) {
      assert d[..|d| - 1] <= p;
    }
  }
}
