/**
 * The caching and tree-walking layer of the term store facade (`createTermStore`): a cache of
 * three maps filled lazily and never invalidated, and the four operations built on it.
 * The remote taxonomy is fixed for the life of a store; `roundTrips` counts the round trips
 * the operations make, so that cache hits can be told from misses.
 */
module TermStore {
  import opened Wrappers
  import opened Paths
  import opened Remote
  import opened Tree

  /** What `getTermParents` answers, computed from the remote alone. */
  function TermParents(tx: Taxonomy, termId: string): Result<seq<Term>, Error>
  {
    var t :- GetTermById(tx, termId);
    var s :- GetTermSetId(tx, termId);
    var ms :- GetAllTerms(tx, s);
    Ok(AncestorsAmong(ms, ParentPaths(t.path)))
  }

  /** What `getTermsSubTreeFlat` answers, computed from the remote alone. */
  function SubTreeFlat(tx: Taxonomy, termId: string): Result<seq<Term>, Error>
  {
    var s :- GetTermSetId(tx, termId);
    var ms :- GetAllTerms(tx, s);
    Ok(SubTreeAmong(ms, termId))
  }

  /** What `getTopLevelParentOfTerm` answers: the term itself, or its parent N - 1 times over. */
  function TopLevelParent(tx: Taxonomy, id: string): Result<Option<Term>, Error>
  {
    var t :- GetTermById(tx, id);
    var n := |Split(t.path)|;
    if n == 1 then Ok(Some(t)) else Resolve(tx, Up(Loaded(t), n - 1))
  }

  /** What `getParentThatSatisfies` answers: the term itself, or the walk of N - 1 hops. */
  function ParentThatSatisfies(tx: Taxonomy, id: string, fn: Term -> bool): Result<Option<Term>, Error>
  {
    var t :- GetTermById(tx, id);
    var n := |Split(t.path)|;
    if n == 1 then Ok(Some(t)) else Search(tx, Some(t), n - 1, fn)
  }

  /**
   * `getTermParents` fails exactly when the term, its term set or the member list is missing;
   * otherwise it gives exactly the members whose path is a derived ancestor path, in member
   * order, never one with the term's own path.
   */
  lemma TermParentsSpec(tx: Taxonomy, termId: string)
    ensures var r := TermParents(tx, termId);
      && (r.Ok? <==> termId in tx.terms && termId in tx.termSetOf && tx.termSetOf[termId] in tx.members)
      && (r.Ok? ==>
            var path, members := tx.terms[termId].path, tx.members[tx.termSetOf[termId]];
            && (forall x :: x in r.value <==> x in members && x.path in ParentPaths(path))
            && IsSubsequence(r.value, members)
            && (forall x :: x in r.value ==> x.path != path))
  {
    if TermParents(tx, termId).Ok? {
      AncestorsAmongSpec(tx.members[tx.termSetOf[termId]], tx.terms[termId].path);
    }
  }

  /**
   * In a well-formed taxonomy the derived ancestor paths of a term are the paths of its
   * ancestors, root first: the k-th is the path of the term named by the k-th segment.
   */
  lemma AncestorPathsAreAncestorsPaths(tx: Taxonomy, id: string)
    requires WellFormed(tx) && id in tx.terms
    ensures var segs, pp := Split(tx.terms[id].path), ParentPaths(tx.terms[id].path);
      && |pp| == |segs| - 1
      && forall k :: 0 <= k < |pp| ==> pp[k] == tx.terms[segs[k]].path
  {
    var path := tx.terms[id].path;
    var segs := Split(path);
    assert WellPlaced(tx, tx.terms[id]);
    assert SegmentPlaced(tx, segs, 0);
    ParentPathsArePrefixes(path);
    forall k | 0 <= k < |segs| - 1
      ensures ParentPaths(path)[k] == tx.terms[segs[k]].path
    {
      assert SegmentPlaced(tx, segs, k);
    }
  }

  /**
   * `getTermsSubTreeFlat` fails exactly when the term set or its member list is missing;
   * otherwise, when a member has id `termId`, it gives that member and every member whose
   * path starts with its path, in member order, and nothing else; with no such member, [].
   */
  lemma SubTreeFlatSpec(tx: Taxonomy, termId: string)
    ensures var r := SubTreeFlat(tx, termId);
      && (r.Ok? <==> termId in tx.termSetOf && tx.termSetOf[termId] in tx.members)
      && (r.Ok? ==>
            var members := tx.members[tx.termSetOf[termId]];
            && ((forall i :: 0 <= i < |members| ==> members[i].id != termId) ==> r.value == [])
            && (forall t :: FindById(members, termId) == Some(t) ==>
                  && t in r.value
                  && (forall x :: x in r.value <==> x in members && t.path <= x.path)
                  && IsSubsequence(r.value, members)))
  {
    if SubTreeFlat(tx, termId).Ok? {
      SubTreeAmongSpec(tx.members[tx.termSetOf[termId]], termId);
    }
  }

  /**
   * In a well-formed taxonomy `getTopLevelParentOfTerm` reaches the term named by the first
   * segment of the path, which is itself top-level; an unknown id fails.
   */
  lemma TopLevelParentIsRoot(tx: Taxonomy, id: string)
    requires WellFormed(tx)
    ensures id !in tx.terms ==> TopLevelParent(tx, id) == Err(TermNotFound(id))
    ensures id in tx.terms ==>
      var root := tx.terms[Split(tx.terms[id].path)[0]];
      && TopLevelParent(tx, id) == Ok(Some(root))
      && root.id == Split(tx.terms[id].path)[0]
      && Split(root.path) == [root.id]
  {
    if id in tx.terms {
      var segs := Split(tx.terms[id].path);
      var n := |segs|;
      assert WellPlaced(tx, tx.terms[id]);
      assert SegmentPlaced(tx, segs, 0);
      var rootId := segs[0];
      assert WellPlaced(tx, tx.terms[rootId]);
      assert segs[..1] == [rootId];
      SplitNoDelimiter(rootId);
      if n > 1 {
        AncestorAt(tx, id, n - 1);
      }
    }
  }

  /**
   * In a well-formed taxonomy, for a term below the top level, `getParentThatSatisfies`
   * succeeds, and it returns the nearest ancestor satisfying `fn`, or nothing when no
   * ancestor does.
   */
  lemma ParentThatSatisfiesNearestFirst(tx: Taxonomy, id: string, fn: Term -> bool)
    requires WellFormed(tx) && id in tx.terms
    requires |Split(tx.terms[id].path)| > 1
    ensures var segs := Split(tx.terms[id].path);
      var n := |segs|;
      var r := ParentThatSatisfies(tx, id, fn);
      && r.Ok?
      && (r.value.None? <==> forall k :: 0 <= k < n - 1 ==> !fn(tx.terms[segs[k]]))
      && (r.value.Some? ==> exists k :: 0 <= k < n - 1 && r.value.value == tx.terms[segs[k]] && fn(tx.terms[segs[k]])
                              && forall k' :: k < k' < n - 1 ==> !fn(tx.terms[segs[k']]))
  {
    var path := tx.terms[id].path;
    var segs := Split(path);
    var n := |segs|;
    assert WellPlaced(tx, tx.terms[id]);
    SearchNearestFirst(tx, id, n - 1, fn);
  }

  /** A top-level term is its own answer, whatever `fn` is, and costs a single round trip. */
  lemma ParentThatSatisfiesTopLevel(tx: Taxonomy, id: string, fn: Term -> bool)
    requires id in tx.terms && Delimiter !in tx.terms[id].path
    ensures ParentThatSatisfies(tx, id, fn) == Ok(Some(tx.terms[id]))
    ensures ParentThatSatisfiesTrips(tx, id, fn) == 1
  {
    SplitNoDelimiter(tx.terms[id].path);
  }

  /** With an always-true predicate the answer is the immediate parent, after one hop. */
  lemma ParentThatSatisfiesAlwaysTrue(tx: Taxonomy, id: string)
    requires WellFormed(tx) && id in tx.terms
    requires |Split(tx.terms[id].path)| > 1
    ensures var segs := Split(tx.terms[id].path);
      && ParentThatSatisfies(tx, id, _ => true) == Ok(Some(tx.terms[segs[|segs| - 2]]))
      && ParentThatSatisfiesTrips(tx, id, _ => true) == 2
  {
    var path := tx.terms[id].path;
    var segs := Split(path);
    assert WellPlaced(tx, tx.terms[id]);
    ParentAt(tx, id, |segs| - 1);
  }

  /** With an always-false predicate every one of the N - 1 ancestors is fetched and the answer is null. */
  lemma ParentThatSatisfiesAlwaysFalse(tx: Taxonomy, id: string)
    requires WellFormed(tx) && id in tx.terms
    requires |Split(tx.terms[id].path)| > 1
    ensures ParentThatSatisfies(tx, id, _ => false) == Ok(None)
    ensures ParentThatSatisfiesTrips(tx, id, _ => false) == |Split(tx.terms[id].path)|
  {
    ParentThatSatisfiesNearestFirst(tx, id, _ => false);
  }

  /** The round trips `getParentThatSatisfies` makes: one for the term, one per parent fetched. */
  function ParentThatSatisfiesTrips(tx: Taxonomy, id: string, fn: Term -> bool): nat
  {
    match GetTermById(tx, id)
    case Err(_) => 1
    case Ok(t) =>
      var n := |Split(t.path)|;
      if n == 1 then 1 else 1 + SearchTrips(tx, Some(t), n - 1, fn)
  }

  /** The ids of `terms`. */
  function IdSet(terms: seq<Term>): set<string>
  {
    set t | t in terms :: t.id
  }

  /** `m` after `for (t of terms) m[t.id] = setId`: every member id now maps to `setId`. */
  function BackFilled(m: map<string, string>, terms: seq<Term>, setId: string): (r: map<string, string>)
    ensures r.Keys == m.Keys + IdSet(terms)
    ensures forall k :: k in r ==> r[k] == if k in IdSet(terms) then setId else m[k]
    decreases |terms|
  {
    if terms == [] then m
    else
      var init := terms[..|terms| - 1];
      assert terms == init + [terms[|terms| - 1]];
      assert IdSet(terms) == IdSet(init) + {terms[|terms| - 1].id};
      BackFilled(m, init, setId)[terms[|terms| - 1].id := setId]
  }

  class TermStore {
    /** The remote taxonomy this store talks to. */
    const remote: Taxonomy
    /** `cache.termSetByTermId`: term id to the id of its owning term set. */
    var termSetByTermId: map<string, string>
    /** `cache.termsByTermSetId`: term-set id to its full member list. */
    var termsByTermSetId: map<string, seq<Term>>
    /** `cache.parentsByTermId`: term id to its resolved ancestors. */
    var parentsByTermId: map<string, seq<Term>>
    /** The round trips made so far. */
    var roundTrips: nat

    /** Every cache entry holds what the remote would answer for its key. */
    ghost predicate Valid()
      reads this`termSetByTermId, this`termsByTermSetId, this`parentsByTermId
    {
      && Consistent(remote)
      && (forall id :: id in termSetByTermId ==> GetTermSetId(remote, id) == Ok(termSetByTermId[id]))
      && (forall s :: s in termsByTermSetId ==> GetAllTerms(remote, s) == Ok(termsByTermSetId[s]))
      && (forall id :: id in parentsByTermId ==> TermParents(remote, id) == Ok(parentsByTermId[id]))
    }

    /** `createTermStore()`: an empty cache in front of `remote`. */
    constructor (remote: Taxonomy)
      requires Consistent(remote)
      ensures Valid() && this.remote == remote
      ensures termSetByTermId == map[] && termsByTermSetId == map[] && parentsByTermId == map[]
      ensures roundTrips == 0
    {
      this.remote := remote;
      termSetByTermId, termsByTermSetId, parentsByTermId := map[], map[], map[];
      roundTrips := 0;
    }

    /**
     * `getTermParents`: a cached entry is returned with no round trip; otherwise one batched
     * round trip loads the term and all terms of its term set, the ancestors are filtered out,
     * cached under `termId` only, and a second round trip completes the call.
     */
    method GetTermParents(termId: string) returns (r: Result<seq<Term>, Error>)
      requires Valid()
      modifies this`parentsByTermId, this`roundTrips
      ensures Valid()
      ensures r == TermParents(remote, termId)
      ensures termId in old(parentsByTermId) ==>
        parentsByTermId == old(parentsByTermId) && roundTrips == old(roundTrips)
      ensures termId !in old(parentsByTermId) ==>
        && parentsByTermId == (if r.Ok? then old(parentsByTermId)[termId := r.value] else old(parentsByTermId))
        && roundTrips == old(roundTrips) + (if r.Ok? then 2 else 1)
    {
      if termId in parentsByTermId {
        return Ok(parentsByTermId[termId]);
      }
      roundTrips := roundTrips + 1;
      var term := GetTermById(remote, termId);
      if term.Err? {
        return Err(term.error);
      }
      var termSet := GetTermSetId(remote, termId);
      if termSet.Err? {
        return Err(termSet.error);
      }
      var terms := GetAllTerms(remote, termSet.value);
      if terms.Err? {
        return Err(terms.error);
      }
      var termPaths := TermParentPaths(term.value.path);
      var parents := AncestorsAmong(terms.value, termPaths);
      parentsByTermId := parentsByTermId[termId := parents];
      roundTrips := roundTrips + 1;
      r := Ok(parents);
    }

    /**
     * `getTermsSubTreeFlat`: resolve the owning term set (cached or one round trip) and cache
     * it under `termId`; resolve its member list (cached or one round trip) and cache it; on
     * the call that fetched the list, map every member id to the term set; then filter.
     */
    method GetTermsSubTreeFlat(termId: string) returns (r: Result<seq<Term>, Error>)
      requires Valid()
      modifies this`termSetByTermId, this`termsByTermSetId, this`roundTrips
      ensures Valid()
      ensures r == SubTreeFlat(remote, termId)
      ensures r.Ok? ==> termId in termSetByTermId && termSetByTermId[termId] in termsByTermSetId
      ensures var termSet := GetTermSetId(remote, termId);
        var setTrips := if termId in old(termSetByTermId) then 0 else 1;
        if termSet.Err? then
          && termSetByTermId == old(termSetByTermId)
          && termsByTermSetId == old(termsByTermSetId)
          && roundTrips == old(roundTrips) + 1
        else
          var s := termSet.value;
          var fetched := GetAllTerms(remote, s);
          if s in old(termsByTermSetId) then
            && termSetByTermId == old(termSetByTermId)[termId := s]
            && termsByTermSetId == old(termsByTermSetId)
            && roundTrips == old(roundTrips) + setTrips
          else if fetched.Err? then
            && termSetByTermId == old(termSetByTermId)[termId := s]
            && termsByTermSetId == old(termsByTermSetId)
            && roundTrips == old(roundTrips) + setTrips + 1
          else
            && termSetByTermId == BackFilled(old(termSetByTermId)[termId := s], fetched.value, s)
            && termsByTermSetId == old(termsByTermSetId)[s := fetched.value]
            && roundTrips == old(roundTrips) + setTrips + 1
    {
      var isTermSetCached := termId in termSetByTermId;
      var termSet: string;
      if isTermSetCached {
        termSet := termSetByTermId[termId];
      } else {
        roundTrips := roundTrips + 1;
        var fetched := GetTermSetId(remote, termId);
        if fetched.Err? {
          return Err(fetched.error);
        }
        termSet := fetched.value;
      }
      termSetByTermId := termSetByTermId[termId := termSet];
      var isTermsCached := termSet in termsByTermSetId;
      var terms: seq<Term>;
      if isTermsCached {
        terms := termsByTermSetId[termSet];
      } else {
        roundTrips := roundTrips + 1;
        var fetched := GetAllTerms(remote, termSet);
        if fetched.Err? {
          return Err(fetched.error);
        }
        terms := fetched.value;
      }
      termsByTermSetId := termsByTermSetId[termSet := terms];
      if !isTermsCached {
        BackFill(terms, termSet);
      }
      r := Ok(SubTreeAmong(terms, termId));
    }

    /**
     * The loop of `getTermsSubTreeFlat` that maps every member id to the member list's term set;
     * it keeps the cache valid because every member of a term set is owned by it.
     */
    method BackFill(terms: seq<Term>, setId: string)
      requires Valid()
      requires GetAllTerms(remote, setId) == Ok(terms)
      modifies this`termSetByTermId
      ensures Valid()
      ensures termSetByTermId == BackFilled(old(termSetByTermId), terms, setId)
    {
      var i := 0;
      while i < |terms|
        invariant 0 <= i <= |terms|
        invariant termSetByTermId == BackFilled(old(termSetByTermId), terms[..i], setId)
      {
        assert terms[..i + 1][..i] == terms[..i];
        termSetByTermId := termSetByTermId[terms[i].id := setId];
        i := i + 1;
      }
      assert terms[..|terms|] == terms;
      forall k | k in termSetByTermId
        ensures GetTermSetId(remote, k) == Ok(termSetByTermId[k])
      {
        if k in IdSet(terms) {
          var t :| t in terms && t.id == k;
        }
      }
    }

    /**
     * `getTopLevelParentOfTerm`: load the term (one round trip); a single-segment term is
     * returned as is; otherwise `get_parent()` is applied N - 1 times, which costs nothing,
     * and the reference reached is loaded in one more round trip.
     */
    method GetTopLevelParentOfTerm(id: string) returns (r: Result<Option<Term>, Error>)
      modifies this`roundTrips
      ensures r == TopLevelParent(remote, id)
      ensures roundTrips == old(roundTrips) +
        if id in remote.terms && |Split(remote.terms[id].path)| > 1 then 2 else 1
    {
      roundTrips := roundTrips + 1;
      var term := GetTermById(remote, id);
      if term.Err? {
        return Err(term.error);
      }
      var path := Split(term.value.path);
      if |path| == 1 {
        return Ok(Some(term.value));
      }
      path := path[..|path| - 1];
      var parent := Loaded(term.value);
      var i := 0;
      while i < |path|
        invariant 0 <= i <= |path|
        invariant parent == Up(Loaded(term.value), i)
      {
        parent := ParentOf(parent);
        i := i + 1;
      }
      roundTrips := roundTrips + 1;
      r := Resolve(remote, parent);
    }

    /**
     * `getParentThatSatisfies`: load the term (one round trip); a single-segment term is
     * returned as is, `fn` never being asked; otherwise fetch parents one round trip at a
     * time, at most N - 1 of them, returning the first non-null one that satisfies `fn`.
     */
    method GetParentThatSatisfies(id: string, fn: Term -> bool) returns (r: Result<Option<Term>, Error>)
      modifies this`roundTrips
      ensures r == ParentThatSatisfies(remote, id, fn)
      ensures roundTrips == old(roundTrips) + ParentThatSatisfiesTrips(remote, id, fn)
    {
      roundTrips := roundTrips + 1;
      var term := GetTermById(remote, id);
      if term.Err? {
        return Err(term.error);
      }
      var path := Split(term.value.path);
      if |path| == 1 {
        return Ok(Some(term.value));
      }
      path := path[..|path| - 1];
      var parent := Some(term.value);
      ghost var hops := |path|;
      var i := 0;
      while i < |path|
        invariant 0 <= i <= |path|
        invariant Search(remote, Some(term.value), hops, fn) == Search(remote, parent, hops - i, fn)
        invariant SearchTrips(remote, Some(term.value), hops, fn) == i + SearchTrips(remote, parent, hops - i, fn)
        invariant roundTrips == old(roundTrips) + 1 + i
      {
        if parent.None? {
          // `getParentTermByTerm(null)` throws before any round trip
          return Err(NullTerm);
        }
        roundTrips := roundTrips + 1;
        var next := GetParent(remote, parent.value);
        if next.Err? {
          return Err(next.error);
        }
        assert Search(remote, parent, hops - i, fn) ==
          if next.value.Some? && fn(next.value.value) then next else Search(remote, next.value, hops - i - 1, fn);
        assert SearchTrips(remote, parent, hops - i, fn) ==
          if next.value.Some? && fn(next.value.value) then 1 else 1 + SearchTrips(remote, next.value, hops - i - 1, fn);
        parent := next.value;
        if parent.Some? && fn(parent.value) {
          return Ok(parent);
        }
        i := i + 1;
      }
      r := Ok(None);
    }
  }

  /**
   * Ancestor resolution is cache-stable: asked twice for the same id, the store answers the
   * same, and the second answer costs no round trip once the first succeeded.
   */
  method GetTermParentsTwice(store: TermStore, termId: string) returns (first: Result<seq<Term>, Error>, second: Result<seq<Term>, Error>)
    requires store.Valid()
    modifies store`parentsByTermId, store`roundTrips
    ensures store.Valid()
    ensures first == second
    ensures first.Ok? ==> termId in store.parentsByTermId && store.parentsByTermId[termId] == first.value
    ensures first.Ok? ==>
      store.roundTrips == old(store.roundTrips) + if termId in old(store.parentsByTermId) then 0 else 2
  {
    first := store.GetTermParents(termId);
    ghost var between := store.roundTrips;
    second := store.GetTermParents(termId);
    assert first.Ok? ==> store.roundTrips == between;
  }
}
