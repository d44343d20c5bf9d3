/**
 * The pure parts of the tree algorithms: the ancestor filter of `getTermParents`, the
 * first-match lookup and the literal path-prefix filter of `getTermsSubTreeFlat`.
 */
module Tree {
  import opened Wrappers
  import opened Paths
  import opened Remote

  /** `s.filter(p)`: the elements of `s` that satisfy `p`, in their order in `s`. */
  function Filter(s: seq<Term>, p: Term -> bool): (r: seq<Term>)
    ensures forall x :: x in r <==> x in s && p(x)
    ensures |r| <= |s|
    decreases |s|
  {
    if s == [] then [] else (if p(s[0]) then [s[0]] else []) + Filter(s[1..], p)
  }

  /** `r` is `s` with some elements left out, the rest kept in order. */
  predicate IsSubsequence<T(==)>(r: seq<T>, s: seq<T>)
    decreases |s|
  {
    if r == [] then true
    else if s == [] then false
    else if r[0] == s[0] then IsSubsequence(r[1..], s[1..])
    else IsSubsequence(r, s[1..])
  }

  lemma {:induction false} SubsequenceOfTail<T>(r: seq<T>, s: seq<T>)
    requires s != [] && IsSubsequence(r, s[1..])
    ensures IsSubsequence(r, s)
    decreases |s|, |r|
  {
    if r != [] && r[0] == s[0] {
      // s[1..] holds r, so it holds r[1..] as well
      SubsequenceDropHead(r, s[1..]);
    }
  }

  lemma {:induction false} SubsequenceDropHead<T>(r: seq<T>, s: seq<T>)
    requires r != [] && IsSubsequence(r, s)
    ensures IsSubsequence(r[1..], s)
    decreases |s|, |r|
  {
    if r[0] == s[0] {
      if r[1..] != [] {
        SubsequenceOfTail(r[1..], s);
      }
    } else {
      SubsequenceDropHead(r, s[1..]);
      if r[1..] != [] {
        SubsequenceOfTail(r[1..], s);
      }
    }
  }

  /** Filtering keeps the order of what it keeps. */
  lemma {:induction false} FilterIsSubsequence(s: seq<Term>, p: Term -> bool)
    ensures IsSubsequence(Filter(s, p), s)
    decreases |s|
  {
    if s != [] {
      FilterIsSubsequence(s[1..], p);
      if p(s[0]) {
        assert Filter(s, p) == [s[0]] + Filter(s[1..], p);
      } else {
        assert Filter(s, p) == Filter(s[1..], p);
        SubsequenceOfTail(Filter(s[1..], p), s);
      }
    }
  }

  /** `_.find(terms, e => e.id === id)`: the first term with that id, if any. */
  function FindById(terms: seq<Term>, id: string): (r: Option<Term>)
    ensures r.None? <==> forall i :: 0 <= i < |terms| ==> terms[i].id != id
    ensures r.Some? ==> exists i :: 0 <= i < |terms| && terms[i] == r.value && r.value.id == id
                                   && forall j :: 0 <= j < i ==> terms[j].id != id
    decreases |terms|
  {
    if terms == [] then None
    else if terms[0].id == id then Some(terms[0])
    else
      var r := FindById(terms[1..], id);
      assert r.Some? ==> exists i :: 1 <= i < |terms| && terms[i] == r.value && r.value.id == id
                                     && forall j :: 1 <= j < i ==> terms[j].id != id;
      r
  }

  /** The ancestor filter of `getTermParents`: the members whose path is one of `paths`. */
  function AncestorsAmong(members: seq<Term>, paths: seq<string>): seq<Term>
  {
    Filter(members, (e: Term) => e.path in paths)
  }

  /**
   * The ancestors found for a term with path `path` are exactly the members whose path is a
   * derived ancestor path, in member order, and none of them has the term's own path.
   */
  lemma AncestorsAmongSpec(members: seq<Term>, path: string)
    ensures var r := AncestorsAmong(members, ParentPaths(path));
      && (forall x :: x in r <==> x in members && x.path in ParentPaths(path))
      && IsSubsequence(r, members)
      && (forall x :: x in r ==> x.path != path)
  {
    FilterIsSubsequence(members, (e: Term) => e.path in ParentPaths(path));
    ParentPathsExcludeSelf(path);
  }

  /**
   * The flattening filter of `getTermsSubTreeFlat`: when a member has id `termId`, every member
   * whose path starts, as a string, with that member's path; otherwise nothing.
   */
  function SubTreeAmong(members: seq<Term>, termId: string): seq<Term>
  {
    match FindById(members, termId)
    case None => []
    case Some(t) => Filter(members, (e: Term) => t.path <= e.path)
  }

  /**
   * With no member of id `termId` the subtree is empty; otherwise, for the first such member
   * `t`, it holds exactly the members whose path has `t`'s path as a prefix, in member order,
   * and so holds `t` itself.
   */
  lemma SubTreeAmongSpec(members: seq<Term>, termId: string)
    ensures var r := SubTreeAmong(members, termId);
      && ((forall i :: 0 <= i < |members| ==> members[i].id != termId) ==> r == [])
      && (forall t :: FindById(members, termId) == Some(t) ==>
            && t in r
            && (forall x :: x in r <==> x in members && t.path <= x.path)
            && IsSubsequence(r, members))
  {
    match FindById(members, termId)
    case None =>
    case Some(t) =>
      FilterIsSubsequence(members, (e: Term) => t.path <= e.path);
  }

  /**
   * Every member whose segments extend the target's segments (a descendant, or the target
   * itself) is in the subtree.
   */
  lemma SubTreeHoldsDescendants(members: seq<Term>, termId: string, x: Term)
    requires x in members
    requires FindById(members, termId).Some?
    requires Split(FindById(members, termId).value.path) <= Split(x.path)
    ensures x in SubTreeAmong(members, termId)
  {
    var t := FindById(members, termId).value;
    var ts, xs := Split(t.path), Split(x.path);
    JoinSplit(t.path);
    JoinSplit(x.path);
    if |ts| < |xs| {
      JoinPrefix(xs, |ts|);
      assert xs[..|ts|] == ts;
    } else {
      assert ts == xs;
    }
  }

  /**
   * The prefix test is on strings, not on segments: a sibling whose id extends the target's id
   * lands in the target's subtree.
   */
  lemma SubTreeMatchesLiteralPrefix()
    ensures var target, sibling := Term("B", "A;B"), Term("BC", "A;BC");
      && !(Split(target.path) <= Split(sibling.path))
      && sibling in SubTreeAmong([target, sibling], "B")
  {
    var target, sibling := Term("B", "A;B"), Term("BC", "A;BC");
    SplitJoin(["A", "B"]);
    SplitJoin(["A", "BC"]);
    assert Join(["A", "B"]) == target.path;
    assert Join(["A", "BC"]) == sibling.path;
    assert Split(target.path)[1] != Split(sibling.path)[1];
  }

  /** The worked example: the subtree of "A;B" among A, A;B, A;B;C and A;D is A;B and A;B;C. */
  lemma SubTreeExample()
    ensures SubTreeAmong([Term("A", "A"), Term("B", "A;B"), Term("C", "A;B;C"), Term("D", "A;D")], "B")
         == [Term("B", "A;B"), Term("C", "A;B;C")]
  {
    var members := [Term("A", "A"), Term("B", "A;B"), Term("C", "A;B;C"), Term("D", "A;D")];
    assert FindById(members, "B") == Some(Term("B", "A;B"));
    var p := (e: Term) => "A;B" <= e.path;
    assert !p(members[3]) by { assert members[3].path[2] != "A;B"[2]; }
    assert !p(members[0]);
    assert Filter(members[3..], p) == [];
    assert Filter(members[2..], p) == [members[2]];
    assert Filter(members[1..], p) == [members[1], members[2]];
  }
}
