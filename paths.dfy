/**
 * Path strings of the taxonomy: a term's path is its ancestors' segments followed by its own,
 * separated by ';'. This module models JavaScript's `split(';')`, the joining of segments,
 * and the derivation of the ancestor paths of a term (`getTermParentPaths`).
 */
module Paths {

  const Delimiter: char := ';'

  /** JavaScript's `s.split(';')`: never empty, and no segment holds the delimiter. */
  function Split(s: string): (segs: seq<string>)
    ensures |segs| >= 1
    ensures forall k :: 0 <= k < |segs| ==> Delimiter !in segs[k]
    decreases |s|
  {
    if s == [] then [[]]
    else
      var rest := Split(s[1..]);
      if s[0] == Delimiter then [[]] + rest
      else [[s[0]] + rest[0]] + rest[1..]
  }

  /** `segs.join(';')`. */
  function Join(segs: seq<string>): string
  {
    if segs == [] then []
    else if |segs| == 1 then segs[0]
    else segs[0] + [Delimiter] + Join(segs[1..])
  }

  /** No segment contains the delimiter, so joining can be undone by splitting. */
  ghost predicate Segments(segs: seq<string>)
  {
    forall k :: 0 <= k < |segs| ==> Delimiter !in segs[k]
  }

  /** Splitting a joined path gives back its segments. */
  lemma {:induction false} JoinSplit(s: string)
    ensures Join(Split(s)) == s
    decreases |s|
  {
    if s != [] {
      JoinSplit(s[1..]);
      var rest := Split(s[1..]);
      if s[0] != Delimiter && |rest| > 1 {
        assert Join(rest) == rest[0] + [Delimiter] + Join(rest[1..]);
        assert [s[0]] + s[1..] == s;
      }
    }
  }

  lemma {:induction false} SplitNoDelimiter(x: string)
    requires Delimiter !in x
    ensures Split(x) == [x]
    decreases |x|
  {
    if x != [] {
      SplitNoDelimiter(x[1..]);
      assert [x[0]] + x[1..] == x;
    }
  }

  lemma {:induction false} SplitAfterSegment(x: string, y: string)
    requires Delimiter !in x
    ensures Split(x + [Delimiter] + y) == [x] + Split(y)
    decreases |x|
  {
    var s := x + [Delimiter] + y;
    if x == [] {
      assert s[1..] == y;
    } else {
      assert s[1..] == x[1..] + [Delimiter] + y;
      SplitAfterSegment(x[1..], y);
      assert [x[0]] + x[1..] == x;
    }
  }

  /** Joining segments free of the delimiter can be undone by splitting. */
  lemma {:induction false} SplitJoin(segs: seq<string>)
    requires |segs| >= 1 && Segments(segs)
    ensures Split(Join(segs)) == segs
    decreases |segs|
  {
    if |segs| == 1 {
      SplitNoDelimiter(segs[0]);
    } else {
      SplitJoin(segs[1..]);
      SplitAfterSegment(segs[0], Join(segs[1..]));
      assert [segs[0]] + segs[1..] == segs;
    }
  }

  /** Appending a segment to a non-empty list appends ';' and the segment. */
  lemma {:induction false} JoinSnoc(segs: seq<string>, x: string)
    requires segs != []
    ensures Join(segs + [x]) == Join(segs) + [Delimiter] + x
    decreases |segs|
  {
    if |segs| > 1 {
      assert (segs + [x])[1..] == segs[1..] + [x];
      JoinSnoc(segs[1..], x);
    }
  }

  /** The path of the first `m` segments, followed by ';', is a prefix of the whole path. */
  lemma {:induction false} JoinPrefix(segs: seq<string>, m: nat)
    requires 1 <= m < |segs|
    ensures Join(segs[..m]) + [Delimiter] <= Join(segs)
    decreases |segs|
  {
    if m > 1 {
      JoinPrefix(segs[1..], m - 1);
      assert segs[1..][..m - 1] == segs[..m][1..];
    }
  }

  /** One step of the accumulation loop: `prev ? prev + ';' + p : p`. */
  function Step(prev: string, p: string): string
  {
    if prev != [] then prev + [Delimiter] + p else p
  }

  /** The value of `prev` after the loop has consumed `segs`. */
  function Accumulated(segs: seq<string>): string
    decreases |segs|
  {
    if segs == [] then [] else Step(Accumulated(segs[..|segs| - 1]), segs[|segs| - 1])
  }

  /** The ancestor paths of `path`: the accumulated prefixes of all its segments but the last. */
  function ParentPaths(path: string): seq<string>
  {
    var segs := Split(path);
    seq(|segs| - 1, k requires 0 <= k < |segs| - 1 => Accumulated(segs[..k + 1]))
  }

  /** `getTermParentPaths`: split, drop the own segment, accumulate and collect every prefix. */
  method TermParentPaths(path: string) returns (pp: seq<string>)
    ensures pp == ParentPaths(path)
  {
    var paths := Split(path);
    ghost var segs := paths;
    paths := paths[..|paths| - 1];
    var prev := [];
    pp := [];
    var i := 0;
    while i < |paths|
      invariant 0 <= i <= |paths| == |segs| - 1
      invariant paths == segs[..|segs| - 1]
      invariant prev == Accumulated(segs[..i])
      invariant |pp| == i
      invariant forall k :: 0 <= k < i ==> pp[k] == Accumulated(segs[..k + 1])
    {
      assert segs[..i + 1][..i] == segs[..i];
      prev := if prev != [] then prev + [Delimiter] + paths[i] else paths[i];
      pp := pp + [prev];
      i := i + 1;
    }
  }

  /** The segments left once the leading empty ones are dropped. */
  function DropLeadingEmpty(segs: seq<string>): (r: seq<string>)
    ensures r == [] || r[0] != []
    decreases |segs|
  {
    if segs != [] && segs[0] == [] then DropLeadingEmpty(segs[1..]) else segs
  }

  lemma {:induction false} DropLeadingEmptySnoc(segs: seq<string>, x: string)
    ensures DropLeadingEmpty(segs + [x]) ==
      if DropLeadingEmpty(segs) == [] then (if x == [] then [] else [x])
      else DropLeadingEmpty(segs) + [x]
    decreases |segs|
  {
    if segs != [] {
      assert (segs + [x])[1..] == segs[1..] + [x];
      if segs[0] == [] {
        DropLeadingEmptySnoc(segs[1..], x);
      }
    } else {
      assert segs + [x] == [x];
      if x == [] {
        assert [x][1..] == [];
      }
    }
  }

  /**
   * What the accumulation computes for ANY segments: the join of the segments once the leading
   * empty ones are dropped (an empty `prev` is falsy, so the first non-empty segment starts afresh).
   */
  lemma {:induction false} AccumulatedIsJoin(segs: seq<string>)
    ensures Accumulated(segs) == Join(DropLeadingEmpty(segs))
    decreases |segs|
  {
    if segs != [] {
      var init, last := segs[..|segs| - 1], segs[|segs| - 1];
      assert segs == init + [last];
      AccumulatedIsJoin(init);
      DropLeadingEmptySnoc(init, last);
      var d := DropLeadingEmpty(init);
      if d != [] {
        JoinSnoc(d, last);
        assert Join(d) != [] by {
          if |d| > 1 { assert Join(d)[..|d[0]|] == d[0]; }
        }
      }
    }
  }

  /** With a non-empty first segment, every accumulated prefix is the plain join. */
  lemma AccumulatedPlain(segs: seq<string>)
    requires segs != [] && segs[0] != []
    ensures Accumulated(segs) == Join(segs)
  {
    AccumulatedIsJoin(segs);
  }

  /** Dropping leading empty segments never lengthens the joined path. */
  lemma {:induction false} DropLeadingEmptyShorter(segs: seq<string>)
    ensures |Join(DropLeadingEmpty(segs))| <= |Join(segs)|
    decreases |segs|
  {
    if segs != [] && segs[0] == [] {
      DropLeadingEmptyShorter(segs[1..]);
    }
  }

  /**
   * For a path of N segments whose first segment is non-empty, there are N - 1 ancestor paths,
   * the k-th being the first k + 1 segments joined by ';'; each is a strict prefix of the path,
   * and each is a strict prefix of the next (so they grow strictly in length).
   */
  lemma ParentPathsArePrefixes(path: string)
    requires Split(path)[0] != []
    ensures var segs, pp := Split(path), ParentPaths(path);
      && |pp| == |segs| - 1
      && (forall k :: 0 <= k < |pp| ==> pp[k] == Join(segs[..k + 1]))
      && (forall k :: 0 <= k < |pp| ==> pp[k] < path)
      && (forall k :: 0 <= k < |pp| - 1 ==> pp[k] + [Delimiter] <= pp[k + 1])
  {
    var segs, pp := Split(path), ParentPaths(path);
    JoinSplit(path);
    forall k | 0 <= k < |pp|
      ensures pp[k] == Join(segs[..k + 1]) && pp[k] < path
    {
      AccumulatedPlain(segs[..k + 1]);
      JoinPrefix(segs, k + 1);
    }
    forall k | 0 <= k < |pp| - 1
      ensures pp[k] + [Delimiter] <= pp[k + 1]
    {
      JoinPrefix(segs[..k + 2], k + 1);
      assert segs[..k + 2][..k + 1] == segs[..k + 1];
    }
  }

  /** Whatever the segments, no derived ancestor path equals the path itself. */
  lemma ParentPathsExcludeSelf(path: string)
    ensures path !in ParentPaths(path)
  {
    var segs, pp := Split(path), ParentPaths(path);
    JoinSplit(path);
    forall k | 0 <= k < |pp|
      ensures |pp[k]| < |path|
    {
      AccumulatedIsJoin(segs[..k + 1]);
      DropLeadingEmptyShorter(segs[..k + 1]);
      JoinPrefix(segs, k + 1);
    }
  }

  /** A single-segment path has no ancestors. */
  lemma SingleSegmentHasNoParents(path: string)
    requires Delimiter !in path
    ensures ParentPaths(path) == []
  {
    SplitNoDelimiter(path);
  }

  /** The worked example: "A;B;C" has ancestor paths "A" and "A;B". */
  lemma ParentPathsExample()
    ensures ParentPaths("A;B;C") == ["A", "A;B"]
  {
    var segs := ["A", "B", "C"];
    assert Join(segs) == "A;B;C";
    SplitJoin(segs);
    ParentPathsArePrefixes("A;B;C");
    assert segs[..2] == ["A", "B"];
    assert Join(["A", "B"]) == "A;B";
  }
}
