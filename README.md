# Term store caching and tree layer, modelled in Dafny

This project models the caching and tree-walking layer of `createTermStore` in
`src/termstore.ts`: a facade over a SharePoint taxonomy (terms grouped into term sets) that
derives ancestor paths from a term's `;`-delimited path, resolves a term's ancestors,
flattens the subtree under a term, walks up to a term's top-level ancestor and searches
ancestors for the first one satisfying a predicate, memoising what it fetches in a
process-wide cache of three dictionaries.

The remote taxonomy service is modelled as a fixed value (`Remote.Taxonomy`): terms by id,
the owning term set of each term id, and each term set's member list in the service's order.
A term is its id and its path; the path's segments are the ids of its ancestors, root first,
followed by its own id, and a term's parent is the term named by the second-to-last segment.
Every round trip is one lookup in that value plus one step of a `roundTrips` counter kept by
the store, so that cache hits and misses can be stated.

Files:

- `wrappers.dfy` — `Option` and `Result` (a resolved or rejected call).
- `paths.dfy` — JavaScript's `split(';')`, joining, and the ancestor-path derivation
  `getTermParentPaths` as a loop method against a specification function.
- `remote.dfy` — the remote taxonomy, its lookups, lazy parent references (`get_parent()`
  costs no round trip until the reference is loaded), well-formedness, and the ancestor walks.
- `tree.dfy` — the ancestor filter, `_.find` by id and the literal path-prefix filter.
- `termstore.dfy` — the `TermStore` class (the cache dictionaries and the round-trip counter)
  with the four operations, and what each operation answers stated on the remote alone.

The class invariant `Valid()` says every cache entry equals what the remote would answer for
its key. Every method keeps it, so each method's result equals a function of the remote
alone, whatever was cached before. The cache changes only how many round trips are made.

Where the prose description of the system and the code differ, the model follows the code:

- Ancestors come back in member-list order, because the code uses a filter.
- Ancestor paths are matched by equality with the derived paths. They are not matched as
  prefixes.
- `prev ? prev + ';' + p : p` is modelled exactly. Leading empty segments are therefore
  dropped, which `Paths.AccumulatedIsJoin` states.
- A cache miss in `getTermParents` costs two round trips. The inner `executeOnContext` makes
  one and the outer `execute` makes the other.

## Model

| member | source | states |
|---|---|---|
| `Paths.Split` | src/termstore.ts:74 | `split(';')` never returns an empty list, and no segment contains `;` |
| `Paths.JoinSplit` | src/termstore.ts:74 | joining the segments of any path with `;` gives the path back |
| `Paths.SplitJoin` | src/termstore.ts:74 | splitting a `;`-join of one or more `;`-free segments gives the segments back |
| `Paths.TermParentPaths` | src/termstore.ts:73-83 | the loop (split, pop, accumulate `prev`, push) returns `ParentPaths(path)`: for each proper prefix of the segment list, the accumulated `prev` |
| `Paths.AccumulatedIsJoin` | src/termstore.ts:79 | the accumulated `prev` is the `;`-join of the segments after the leading empty ones are dropped, for any segments |
| `Paths.ParentPathsArePrefixes` | src/termstore.ts:73-83 | when the first segment is non-empty, N segments give N−1 ancestor paths; the k-th is the first k+1 segments joined by `;`; each is a strict prefix of the path; each one followed by `;` is a prefix of the next |
| `Paths.ParentPathsExcludeSelf` | src/termstore.ts:74-81 | no derived ancestor path equals the path itself, for any path |
| `Paths.SingleSegmentHasNoParents` | src/termstore.ts:74-75 | a path without `;` has no ancestor paths |
| `Paths.ParentPathsExample` | src/termstore.ts:73-83 | `"A;B;C"` gives `["A", "A;B"]` |
| `Remote.ParentAt` | src/termstore.ts:313 | in a well-formed taxonomy, the parent of the ancestor at depth m is the ancestor at depth m−1, and a top-level term's parent is null |
| `Remote.AncestorAt` | src/termstore.ts:246-254 | in a well-formed taxonomy, loading `get_parent()` applied j times yields the ancestor named by the segment j places before the last |
| `Remote.SearchTrips` | src/termstore.ts:274-279 | the ancestor search fetches at most as many parents as it has hops; when it finds nothing, it fetches all of them |
| `Remote.SearchNearestFirst` | src/termstore.ts:274-280 | in a well-formed taxonomy, the search visits ancestors nearest first and returns the first one that satisfies `fn`; it returns null exactly when none does |
| `Tree.Filter` | src/termstore.ts:98-100 | `filter` keeps exactly the elements that satisfy the predicate and never lengthens the list |
| `Tree.FilterIsSubsequence` | src/termstore.ts:98-100 | `filter` keeps the order of the elements it keeps |
| `Tree.FindById` | src/termstore.ts:152 | `_.find` by id returns nothing exactly when no member has the id; otherwise it returns the first member with that id |
| `Tree.AncestorsAmongSpec` | src/termstore.ts:97-100 | the ancestor filter yields exactly the members whose path is a derived ancestor path, keeps member order, and never yields one with the term's own path |
| `Tree.SubTreeAmongSpec` | src/termstore.ts:152-156 | with no member of that id the subtree is `[]`; otherwise it contains the target and exactly the members whose path starts with the target's path, in member order |
| `Tree.SubTreeHoldsDescendants` | src/termstore.ts:154 | every member whose segments extend the target's segments is in the subtree |
| `Tree.SubTreeMatchesLiteralPrefix` | src/termstore.ts:154 | the prefix test is on strings: a sibling `A;BC` lands in the subtree of `A;B` |
| `Tree.SubTreeExample` | src/termstore.ts:152-156 | the subtree of `A;B` among `A`, `A;B`, `A;B;C`, `A;D` is `A;B`, `A;B;C` |
| `TermStore.BackFilled` | src/termstore.ts:147-151 | after the back-fill, every member id maps to the term set, and every other key keeps its old value |
| `TermStore.TermParentsSpec` | src/termstore.ts:90-102 | ancestor resolution fails exactly when the term, its term set or the member list is missing; otherwise it returns the members whose path is a derived ancestor path, in member order, and never one with the term's own path |
| `TermStore.AncestorPathsAreAncestorsPaths` | src/termstore.ts:97 | in a well-formed taxonomy, the k-th derived ancestor path is the path of the term named by the k-th segment |
| `TermStore.SubTreeFlatSpec` | src/termstore.ts:131-157 | subtree flattening fails exactly when the term set or its member list is missing; otherwise it returns `[]` when no member has the id, or the target plus every member whose path starts with the target's path, in member order |
| `TermStore.TopLevelParentIsRoot` | src/termstore.ts:238-263 | in a well-formed taxonomy, the top-level walk returns the term named by the first path segment, which has a one-segment path; an unknown id fails |
| `TermStore.ParentThatSatisfiesNearestFirst` | src/termstore.ts:265-285 | in a well-formed taxonomy, below the top level, the search succeeds and returns the nearest ancestor satisfying `fn`, or null when no ancestor does |
| `TermStore.ParentThatSatisfiesTopLevel` | src/termstore.ts:268-270 | a top-level term comes back as itself whatever `fn` is, after a single round trip |
| `TermStore.ParentThatSatisfiesAlwaysTrue` | src/termstore.ts:274-278 | an always-true `fn` gives the immediate parent after one hop |
| `TermStore.ParentThatSatisfiesAlwaysFalse` | src/termstore.ts:274-280 | an always-false `fn` gives null after fetching all N−1 ancestors |
| `TermStore.TermStore.constructor` | src/termstore.ts:29-34 | the store starts with three empty cache dictionaries and no round trips |
| `TermStore.TermStore.GetTermParents` | src/termstore.ts:85-103 | the method returns what the remote would answer. A cached id costs no round trip and changes nothing. A miss costs two round trips on success and one on failure, and it writes only `parentsByTermId[termId]`, and only on success |
| `TermStore.TermStore.GetTermsSubTreeFlat` | src/termstore.ts:131-157 | the method returns what the remote would answer, and on success both cache levels are then populated. A cached term set and a cached member list cost no round trip. Only the call that fetched the member list maps every member id to the term set. The new state of each dictionary is given in full |
| `TermStore.TermStore.BackFill` | src/termstore.ts:147-151 | the loop over the members leaves `termSetByTermId` equal to `BackFilled` of its old value, and the cache stays valid |
| `TermStore.TermStore.GetTopLevelParentOfTerm` | src/termstore.ts:238-263 | the method returns the term itself for a one-segment path. Otherwise it loads `get_parent()` applied N−1 times. It makes one round trip, or two when a walk is needed |
| `TermStore.TermStore.GetParentThatSatisfies` | src/termstore.ts:265-285 | the method returns what the search answers, and it makes one round trip for the term plus one per parent fetched |
| `TermStore.GetTermParentsTwice` | src/termstore.ts:87-89 | two calls for the same id return the same answer. Once the first has succeeded, its answer is cached, and the pair costs only what the first call cost: two round trips on a miss, none on a hit |

## Left out

- `createExecutionContext`, `executeQueryAsync` and the promise/callback bridging: each round trip is one lookup in the fixed taxonomy plus one step of `roundTrips`.
- Round-trip failures other than a missing entity (network, authentication, server faults): the taxonomy is a fixed value, so only missing terms, term sets and null parents fail.
- Within one batched round trip, the model reports the first missing entity in the order the code declares them; the service may report a different one.
- `executeOnContext` is not part of this model: it is called but not defined in `src/termstore.ts`.
- `GetTermParents`: it assumes a failed inner round trip rejects the whole call. In the source, the rejection of the async callback passed to `createExecutionContext` is not forwarded to the returned promise.
- The pass-through wrappers, which only load an object and return `get_data()`: `getTermsByTermSetId`, `getTermsByTermId`, `getTermsByTermIds`, `getAllTermsByTermSetId`, `getAllTermSetsInSiteCollectionGroup`, `getTermLabels`, `getTermLabelsById`, `getLabelsForTerms`, `getSiteCollectionTermGroup`, `getTerms`, `getTermsByIds`, `getTermById`, `getParentTermById`, `getParentTermByTerm` and `termSetIdFromTaxonomyField`. The lookups `getTermById`, `getTermSetByTermId` and `getParentTermByTerm` appear only as `Remote.GetTermById`, `Remote.GetTermSetId` and `Remote.GetParent`.
- `createTerm`: whether the custom properties read back depends on the service's `commitAll`; the code only forwards calls.
- Labels, custom properties and term groups: a term is only its id and path.
- Term-set objects: the cache stores term-set ids.
- `SP.Guid` construction and `toString()`: ids are opaque strings compared by equality.
- Concurrent callers racing to fill the same cache key: the model is sequential.
- The unused `list` parameter of `getTermsSubTreeFlat`.
- The server-side null objects: a top-level term's parent is modelled as null. Calling a member on a null term, or asking for the parent of a null reference, is modelled as the error `NullTerm`.
- The `try { … } catch (err) { throw err; }` wrappers: they rethrow unchanged.
