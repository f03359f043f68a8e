/** Salt state names (`ceph.stage.4`) and the relative include grammar of
    `SLSParser._gen_state_name_from_include`. */
module StateNames {

  /** Python's `s.find('.')`: the position of the first dot, or -1. */
  function FindDot(s: string): (i: int)
    ensures -1 <= i < |s|
  {
    if s == [] then -1
    else if s[0] == '.' then 0
    else
      var j := FindDot(s[1..]);
      if j == -1 then -1 else j + 1
  }

  /** `find` answers -1 exactly when there is no dot, and otherwise the
      position of the first one. */
  lemma {:induction false} FindDotSpec(s: string)
    ensures FindDot(s) == -1 <==> DotFree(s)
    ensures FindDot(s) >= 0 ==> s[FindDot(s)] == '.' && NoDotBefore(s, FindDot(s))
  {
    if s != [] && s[0] != '.' {
      FindDotSpec(s[1..]);
      assert forall k :: 1 <= k < |s| ==> s[k] == s[1..][k - 1];
    }
  }

  /** Python's `s.split('.')`. */
  function Split(s: string): (parts: seq<string>)
    ensures |parts| >= 1
    decreases |s|
  {
    var i := FindDot(s);
    if i < 0 then [s] else [s[..i]] + Split(s[i + 1..])
  }

  /** No dot occurs before position `i`. */
  predicate NoDotBefore(s: string, i: nat)
    requires i <= |s|
  {
    forall k :: 0 <= k < i ==> s[k] != '.'
  }

  predicate DotFree(p: string)
  {
    NoDotBefore(p, |p|)
  }

  /** No segment of a split contains a dot. */
  lemma {:induction false} SplitDotFree(s: string)
    ensures forall j :: 0 <= j < |Split(s)| ==> DotFree(Split(s)[j])
    decreases |s|
  {
    var i := FindDot(s);
    FindDotSpec(s);
    if i >= 0 {
      SplitDotFree(s[i + 1..]);
    }
  }

  /** Python's `'.'.join(parts)`. */
  function Join(parts: seq<string>): string
  {
    if parts == [] then ""
    else if |parts| == 1 then parts[0]
    else parts[0] + "." + Join(parts[1..])
  }

  /** Joining the segments of a name gives the name back. */
  lemma {:induction false} JoinSplit(s: string)
    ensures Join(Split(s)) == s
    decreases |s|
  {
    var i := FindDot(s);
    FindDotSpec(s);
    if i >= 0 {
      JoinSplit(s[i + 1..]);
      assert s == s[..i] + "." + s[i + 1..];
    }
  }

  /** If `s[i]` is the first dot, the first segment is `s[..i]`. */
  lemma LeadingSegment(s: string, i: nat)
    requires i < |s| && s[i] == '.' && NoDotBefore(s, i)
    ensures Split(s) == [s[..i]] + Split(s[i + 1..])
  {
    FindDotSpec(s);
    assert FindDot(s) == i;
  }

  /** Splitting at a separator splits both sides independently. */
  lemma {:induction false} SplitAround(a: string, b: string)
    ensures Split(a + "." + b) == Split(a) + Split(b)
    decreases |a|
  {
    var i := FindDot(a);
    FindDotSpec(a);
    if i < 0 {
      SplitAroundWhole(a, b);
    } else {
      SplitAround(a[i + 1..], b);
      SplitAroundStep(a, b, i);
    }
  }

  lemma SplitAroundWhole(a: string, b: string)
    requires DotFree(a)
    ensures Split(a + "." + b) == [a] + Split(b)
  {
    var s := a + "." + b;
    assert Split(s) == [s[..|a|]] + Split(s[|a| + 1..]) by {
      assert s[|a|] == '.';
      assert NoDotBefore(s, |a|) by {
        assert forall k :: 0 <= k < |a| ==> s[k] == a[k];
      }
      LeadingSegment(s, |a|);
    }
    assert s[..|a|] == a;
    assert s[|a| + 1..] == b;
  }

  lemma SplitAroundStep(a: string, b: string, i: nat)
    requires i < |a| && a[i] == '.' && NoDotBefore(a, i)
    requires Split(a[i + 1..] + "." + b) == Split(a[i + 1..]) + Split(b)
    ensures Split(a + "." + b) == Split(a) + Split(b)
  {
    SplitFirstSegment(a, b, i);
    LeadingSegment(a, i);
    ConsAssoc(a[..i], Split(a[i + 1..]), Split(b));
  }

  /** The first dot of `a` is also the first dot of `a + "." + b`. */
  lemma SplitFirstSegment(a: string, b: string, i: nat)
    requires i < |a| && a[i] == '.' && NoDotBefore(a, i)
    ensures Split(a + "." + b) == [a[..i]] + Split(a[i + 1..] + "." + b)
  {
    var s := a + "." + b;
    assert s[i] == '.';
    assert NoDotBefore(s, i) by {
      assert forall k :: 0 <= k < i ==> s[k] == a[k];
    }
    LeadingSegment(s, i);
    assert s[..i] == a[..i];
    assert s[i + 1..] == a[i + 1..] + "." + b;
  }

  lemma ConsAssoc(h: string, x: seq<string>, y: seq<string>)
    ensures [h] + (x + y) == ([h] + x) + y
  {
  }

  lemma SplitNoDot(p: string)
    requires DotFree(p)
    ensures Split(p) == [p]
  {
    FindDotSpec(p);
  }

  /** Dot-free segments survive a join followed by a split. */
  lemma {:induction false} SplitJoin(parts: seq<string>)
    requires |parts| >= 1
    requires forall i :: 0 <= i < |parts| ==> DotFree(parts[i])
    ensures Split(Join(parts)) == parts
  {
    SplitNoDot(parts[0]);
    if |parts| > 1 {
      SplitJoin(parts[1..]);
      SplitAround(parts[0], Join(parts[1..]));
      assert [parts[0]] + parts[1..] == parts;
    }
  }

  /** The number of leading `.` characters of an include reference. */
  function LeadingDots(s: string): (n: nat)
    ensures n <= |s|
    ensures forall i :: 0 <= i < n ==> s[i] == '.'
    ensures n < |s| ==> s[n] != '.'
  {
    if s == [] || s[0] != '.' then 0
    else 1 + LeadingDots(s[1..])
  }

  /** The leading-dot count is the only count with those properties. */
  lemma {:induction false} LeadingDotsUnique(s: string, n: nat)
    requires n <= |s|
    requires forall i :: 0 <= i < n ==> s[i] == '.'
    requires n < |s| ==> s[n] != '.'
    ensures n == LeadingDots(s)
  {
    if n > 0 {
      LeadingDotsUnique(s[1..], n - 1);
    }
  }

  /** Python's `parts[:-k]` for `k >= 1`: the last `k` segments removed. */
  function DropLast(parts: seq<string>, k: nat): (r: seq<string>)
    requires k >= 1
    ensures |r| == if k <= |parts| then |parts| - k else 0
    ensures r <= parts
  {
    if k <= |parts| then parts[..|parts| - k] else []
  }

  /** How many levels an include reference climbs: one per leading dot, plus
      one when the parent is a file, whose own last segment names no directory. */
  function Ascent(inc: string, parentIsDir: bool): nat
  {
    if parentIsDir then LeadingDots(inc) else LeadingDots(inc) + 1
  }

  /** The absolute state name an include reference denotes. */
  function IncludeTarget(parent: string, inc: string, parentIsDir: bool): string
  {
    var ascent := Ascent(inc, parentIsDir);
    var base := if ascent > 1 then Join(DropLast(Split(parent), ascent - 1)) else parent;
    base + "." + inc[LeadingDots(inc)..]
  }

  /** `_gen_state_name_from_include(parent, inc)`, where `parentIsDir`
      says whether `parent` names a directory: count the leading dots, one
      more for a file parent, and climb that many levels less one. */
  method GenStateName(parent: string, inc: string, parentIsDir: bool) returns (name: string)
    ensures name == IncludeTarget(parent, inc, parentIsDir)
  {
    var dotCount := 0;
    while dotCount < |inc| && inc[dotCount] == '.'
      invariant dotCount <= |inc|
      invariant forall i :: 0 <= i < dotCount ==> inc[i] == '.'
    {
      dotCount := dotCount + 1;
    }
    LeadingDotsUnique(inc, dotCount);
    var rest := inc[dotCount..];
    if !parentIsDir {
      dotCount := dotCount + 1;
    }
    var base := parent;
    if dotCount > 1 {
      base := Join(DropLast(Split(parent), dotCount - 1));
    }
    name := base + "." + rest;
  }

  /** In segments: the include keeps all but the last `ascent - 1` segments of
      its parent (all of them when the ascent is at most one), then appends the
      reference with its leading dots stripped. */
  lemma IncludeTargetSegments(parent: string, inc: string, parentIsDir: bool)
    requires Ascent(inc, parentIsDir) <= |Split(parent)|
    ensures var parts := Split(parent);
            var ascent := Ascent(inc, parentIsDir);
            var kept := if ascent > 1 then |parts| - (ascent - 1) else |parts|;
            Split(IncludeTarget(parent, inc, parentIsDir)) ==
              parts[..kept] + Split(inc[LeadingDots(inc)..])
  {
    var parts := Split(parent);
    var ascent := Ascent(inc, parentIsDir);
    var rest := inc[LeadingDots(inc)..];
    if ascent > 1 {
      var keptParts := DropLast(parts, ascent - 1);
      SplitDotFree(parent);
      SplitJoin(keptParts);
      SplitAround(Join(keptParts), rest);
    } else {
      SplitAround(parent, rest);
      assert parts[..|parts|] == parts;
    }
  }

  /** A two-dot reference `..r` included from `a.b.c` climbs out of `c` when
      `a.b.c` is the directory `a/b/c/`, and out of `b` as well when it is the
      file `a/b/c.sls`. */
  lemma TwoDotInclude(a: string, b: string, c: string, r: string)
    requires DotFree(a) && DotFree(b) && DotFree(c)
    requires r == [] || r[0] != '.'
    ensures IncludeTarget(a + "." + b + "." + c, ".." + r, true) == a + "." + b + "." + r
    ensures IncludeTarget(a + "." + b + "." + c, ".." + r, false) == a + "." + r
  {
    var parent := a + "." + b + "." + c;
    var inc := ".." + r;
    assert Split(parent) == [a, b, c] by {
      assert Join([a, b, c]) == parent by {
        assert Join([b, c]) == b + "." + c;
        assert [a, b, c][1..] == [b, c];
      }
      SplitJoin([a, b, c]);
    }
    assert LeadingDots(inc) == 2 by {
      LeadingDotsUnique(inc, 2);
    }
    assert inc[2..] == r;
    assert DropLast([a, b, c], 1) == [a, b];
    assert Join([a, b]) == a + "." + b by {
      assert [a, b][1..] == [b];
    }
    assert DropLast([a, b, c], 2) == [a];
  }

  /** A one-dot reference `.r` included from `a.b` names a sibling inside the
      directory `a/b/`, or a sibling of the file `a/b.sls`. */
  lemma OneDotInclude(a: string, b: string, r: string)
    requires DotFree(a) && DotFree(b)
    requires r == [] || r[0] != '.'
    ensures IncludeTarget(a + "." + b, "." + r, true) == a + "." + b + "." + r
    ensures IncludeTarget(a + "." + b, "." + r, false) == a + "." + r
  {
    var parent := a + "." + b;
    var inc := "." + r;
    assert Split(parent) == [a, b] by {
      assert Join([a, b]) == parent by {
        assert [a, b][1..] == [b];
      }
      SplitJoin([a, b]);
    }
    assert LeadingDots(inc) == 1 by {
      LeadingDotsUnique(inc, 1);
    }
    assert inc[1..] == r;
    assert DropLast([a, b], 1) == [a];
  }
}
