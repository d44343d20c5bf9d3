/**
 * The remote taxonomy service, as the facade sees it: a fixed taxonomy answering lookups.
 * Every lookup below stands for one declare-and-execute round trip (or for the part of one
 * batched round trip that the caller declared).
 */
module Remote {
  import opened Wrappers
  import opened Paths

  /** A term: its opaque id and its path of ids, root first, own id last. */
  datatype Term = Term(id: string, path: string)

  /** How a round trip or a call on its result fails. */
  datatype Error =
    | TermNotFound(id: string)      // the service knows no term with this id
    | TermSetNotFound(id: string)   // the service knows no term set with this id
    | NullTerm                      // a member was called on a null term

  /**
   * A fixed snapshot of the service: terms by id, the owning term set of each term id,
   * and the member list (`getAllTerms`, in the service's order) of each term set.
   */
  datatype Taxonomy = Taxonomy(
    terms: map<string, Term>,
    termSetOf: map<string, string>,
    members: map<string, seq<Term>>)

  /** `store.getTerm(id)`, loaded. */
  function GetTermById(tx: Taxonomy, id: string): Result<Term, Error>
  {
    if id in tx.terms then Ok(tx.terms[id]) else Err(TermNotFound(id))
  }

  /** `store.getTerm(id).get_termSet()`, loaded: the id of the owning term set. */
  function GetTermSetId(tx: Taxonomy, termId: string): Result<string, Error>
  {
    if termId in tx.termSetOf then Ok(tx.termSetOf[termId]) else Err(TermNotFound(termId))
  }

  /** `termSet.getAllTerms()`, loaded. */
  function GetAllTerms(tx: Taxonomy, setId: string): Result<seq<Term>, Error>
  {
    if setId in tx.members then Ok(tx.members[setId]) else Err(TermSetNotFound(setId))
  }

  /**
   * `term.get_parent()`, loaded: derived from the path. A single-segment term has a null
   * parent; otherwise the parent is the term named by the second-to-last segment.
   */
  function GetParent(tx: Taxonomy, t: Term): Result<Option<Term>, Error>
  {
    var segs := Split(t.path);
    if |segs| < 2 then Ok(None)
    else
      var pid := segs[|segs| - 2];
      if pid in tx.terms then Ok(Some(tx.terms[pid])) else Err(TermNotFound(pid))
  }

  /**
   * A client-side object reference that has not been loaded yet: a loaded term, or
   * `get_parent()` called on another reference (which costs no round trip by itself).
   */
  datatype Ref = Loaded(term: Term) | ParentOf(child: Ref)

  /** `r.get_parent()` applied `n` times. */
  function Up(r: Ref, n: nat): Ref
  {
    if n == 0 then r else ParentOf(Up(r, n - 1))
  }

  /** What one round trip that loads the reference `r` yields. */
  function Resolve(tx: Taxonomy, r: Ref): Result<Option<Term>, Error>
  {
    match r
    case Loaded(t) => Ok(Some(t))
    case ParentOf(c) =>
      match Resolve(tx, c)
      case Err(e) => Err(e)
      case Ok(None) => Err(NullTerm)
      case Ok(Some(t)) => GetParent(tx, t)
  }

  /**
   * The path of `t` names, in order, existing terms whose own paths are the matching
   * prefixes of `t`'s path, and it ends with `t`'s own id.
   */
  ghost predicate WellPlaced(tx: Taxonomy, t: Term)
  {
    var segs := Split(t.path);
    && segs[|segs| - 1] == t.id
    && (forall k :: 0 <= k < |segs| ==> segs[k] in tx.terms)
    && (forall k :: 0 <= k < |segs| ==> SegmentPlaced(tx, segs, k))
  }

  /** The `k`-th segment is non-empty and names a term whose path is the first `k + 1` segments. */
  ghost predicate SegmentPlaced(tx: Taxonomy, segs: seq<string>, k: nat)
    requires k < |segs|
  {
    segs[k] != [] && segs[k] in tx.terms && tx.terms[segs[k]].path == Join(segs[..k + 1])
  }

  /** Every term is stored under its own id and is well placed. */
  ghost predicate WellFormed(tx: Taxonomy)
  {
    forall id :: id in tx.terms ==> tx.terms[id].id == id && WellPlaced(tx, tx.terms[id])
  }

  /** Every member of a term set is owned by that term set. */
  ghost predicate Consistent(tx: Taxonomy)
  {
    forall s, t :: s in tx.members && t in tx.members[s] ==>
      t.id in tx.termSetOf && tx.termSetOf[t.id] == s
  }

  /** In a well-formed taxonomy, the parent of the ancestor at depth `m` is the one at depth `m - 1`. */
  lemma ParentAt(tx: Taxonomy, id: string, m: nat)
    requires WellFormed(tx) && id in tx.terms
    requires m < |Split(tx.terms[id].path)|
    ensures var segs := Split(tx.terms[id].path);
      GetParent(tx, tx.terms[segs[m]]) == if m == 0 then Ok(None) else Ok(Some(tx.terms[segs[m - 1]]))
  {
    var segs := Split(tx.terms[id].path);
    assert WellPlaced(tx, tx.terms[id]);
    assert SegmentPlaced(tx, segs, m);
    if m > 0 {
      assert SegmentPlaced(tx, segs, m - 1);
    }
    var prefix := segs[..m + 1];
    assert Segments(prefix);
    SplitJoin(prefix);
  }

  /**
   * In a well-formed taxonomy, loading `get_parent()` applied `j` times to a term yields the
   * ancestor named by the segment `j` places before the last.
   */
  lemma {:induction false} AncestorAt(tx: Taxonomy, id: string, j: nat)
    requires WellFormed(tx) && id in tx.terms
    requires j < |Split(tx.terms[id].path)|
    ensures var segs := Split(tx.terms[id].path);
      Resolve(tx, Up(Loaded(tx.terms[id]), j)) == Ok(Some(tx.terms[segs[|segs| - 1 - j]]))
  {
    var segs := Split(tx.terms[id].path);
    var n := |segs|;
    if j == 0 {
      assert WellPlaced(tx, tx.terms[id]);
    } else {
      AncestorAt(tx, id, j - 1);
      ParentAt(tx, id, n - j);
    }
  }

  /**
   * The walk of `getParentThatSatisfies` from `cur`, with `hops` iterations left: fetch the
   * parent; stop at the first non-null one that satisfies `fn`; a null parent ends the walk
   * with an error on the next iteration.
   */
  function Search(tx: Taxonomy, cur: Option<Term>, hops: nat, fn: Term -> bool): Result<Option<Term>, Error>
    decreases hops
  {
    if hops == 0 then Ok(None)
    else
      match cur
      case None => Err(NullTerm)
      case Some(c) =>
        match GetParent(tx, c)
        case Err(e) => Err(e)
        case Ok(p) => if p.Some? && fn(p.value) then Ok(p) else Search(tx, p, hops - 1, fn)
  }

  /** The round trips the walk makes: one per parent fetched, never more than `hops`. */
  function SearchTrips(tx: Taxonomy, cur: Option<Term>, hops: nat, fn: Term -> bool): (n: nat)
    ensures n <= hops
    ensures Search(tx, cur, hops, fn) == Ok(None) ==> n == hops
    decreases hops
  {
    if hops == 0 then 0
    else
      match cur
      case None => 0
      case Some(c) =>
        match GetParent(tx, c)
        case Err(_) => 1
        case Ok(p) => if p.Some? && fn(p.value) then 1 else 1 + SearchTrips(tx, p, hops - 1, fn)
  }

  /**
   * In a well-formed taxonomy, the walk from the ancestor at depth `m` with `m` hops visits the
   * ancestors at depths m - 1, ..., 0, nearest first, and returns the first that satisfies
   * `fn`, or nothing when none does.
   */
  lemma {:induction false} SearchNearestFirst(tx: Taxonomy, id: string, m: nat, fn: Term -> bool)
    requires WellFormed(tx) && id in tx.terms
    requires m < |Split(tx.terms[id].path)|
    ensures var segs := Split(tx.terms[id].path);
      var r := Search(tx, Some(tx.terms[segs[m]]), m, fn);
      && r.Ok?
      && (r.value.None? <==> forall k :: 0 <= k < m ==> !fn(tx.terms[segs[k]]))
      && (r.value.Some? ==> exists k :: 0 <= k < m && r.value.value == tx.terms[segs[k]] && fn(tx.terms[segs[k]])
                              && forall k' :: k < k' < m ==> !fn(tx.terms[segs[k']]))
  {
    var segs := Split(tx.terms[id].path);
    if m > 0 {
      ParentAt(tx, id, m);
      var p := tx.terms[segs[m - 1]];
      var r := Search(tx, Some(tx.terms[segs[m]]), m, fn);
      if fn(p) {
        assert r == Ok(Some(p));
      } else {
        assert r == Search(tx, Some(p), m - 1, fn);
        SearchNearestFirst(tx, id, m - 1, fn);
        if r.value.Some? {
          var k :| 0 <= k < m - 1 && r.value.value == tx.terms[segs[k]] && fn(tx.terms[segs[k]])
                   && forall k' :: k < k' < m - 1 ==> !fn(tx.terms[segs[k']]);
          assert forall k' :: k < k' < m ==> !fn(tx.terms[segs[k']]);
        }
      }
    }
  }
}
