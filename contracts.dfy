/**
 * The machinery shared by the contracts of src/contracts: the forbidden
 * imports a contract expands into, the violations it reports, and the
 * helpers of src/contracts/utils.rs, which prune a copy of the imports and
 * then search, rule by rule, for a chain of imports the rule forbids. A
 * contract works "as packages": every item a rule names stands for itself
 * and everything below it (`with_descendants`, src/package_info/mod.rs).
 */
module Contracts {
  import opened Wrappers
  import opened Errors
  import opened Pypaths
  import opened PackageInfos
  import opened ImportsInfos
  import opened Adjacency
  import opened GraphSearch
  import opened SetOrder
  import InternalImportsQueries
  import opened ExternalImportsQueries

  /** `ForbiddenImport` (src/contracts/mod.rs): no chain of imports from `from` to `to`, unless it runs through `exceptVia`. */
  datatype ForbiddenImport = ForbiddenImport(from: PackageItemToken, to: PackageItemToken, exceptVia: set<PackageItemToken>)

  /** `ForbiddenExternalImport`: no chain of imports from `from` to the external pypath `to` or below it, unless through `exceptVia`. */
  datatype ForbiddenExternalImport = ForbiddenExternalImport(from: PackageItemToken, to: Pypath, exceptVia: set<PackageItemToken>)

  /** `ContractViolation`: a rule and the chain of imports that breaks it (for an external rule, with the pypath imported at its end). */
  datatype ContractViolation =
    | InternalViolation(forbiddenImport: ForbiddenImport, path: seq<PackageItemToken>)
    | ExternalViolation(forbiddenExternalImport: ForbiddenExternalImport, path: seq<PackageItemToken>, imported: Pypath)

  /** `ContractVerificationResult`. */
  datatype ContractVerificationResult = Kept | Violated(violations: seq<ContractViolation>)

  /** The last step of every `verify`: kept when nothing was found, else the violations found. */
  function Outcome(violations: seq<ContractViolation>): (r: ContractVerificationResult)
    ensures r.Kept? <==> |violations| == 0
    ensures r.Violated? ==> r.violations == violations
  {
    if |violations| == 0 then Kept else Violated(violations)
  }

  // ---------------------------------------------------------------------
  // `with_descendants` (src/package_info/mod.rs)
  // ---------------------------------------------------------------------

  /** Every package of `s` is in the arena, as the `unwrap` of `get_descendant_items` demands. */
  predicate Expandable(info: PackageInfo, s: set<PackageItemToken>)
  {
    forall t :: t in s && t.PackageToken? ==> t.p < |info.packages|
  }

  /** The items of `s` and every item below a package of `s`. */
  ghost function Expanded(info: PackageInfo, s: set<PackageItemToken>): set<PackageItemToken>
    requires WellFormed(info) && Expandable(info, s)
  {
    set t, x | t in s && x in InternalImportsQueries.Scope(info, t) :: x
  }

  /**
   * `with_descendants`: the set extended, item by item, with the tokens of
   * the descendants of each package in it; a module adds nothing. What is
   * added is in the arena, so an item outside the arena was already there.
   */
  method WithDescendants(info: PackageInfo, s: set<PackageItemToken>) returns (r: set<PackageItemToken>)
    requires WellFormed(info) && Expandable(info, s)
    ensures r == Expanded(info, s)
    ensures s <= r
    ensures forall x :: x in r && !Known(info, x) ==> x in s
  {
    var items := Enumerate(s);
    r := s;
    forall t | t in s
      ensures t in Expanded(info, s)
    {
      ScopeInExpanded(info, s, t);
    }
    for i := 0 to |items|
      invariant s <= r
      invariant r <= Expanded(info, s)
      invariant ScopesIn(info, items, i, r)
      invariant forall x :: x in r && !Known(info, x) ==> x in s
    {
      r := ExpandOne(info, s, items, i, r);
    }
    ExpandedCovers(info, s, items, r);
  }

  /** One turn of the loop of `with_descendants`, with the invariants it keeps. */
  method ExpandOne(info: PackageInfo, s: set<PackageItemToken>, items: seq<PackageItemToken>, i: nat, r: set<PackageItemToken>)
    returns (r': set<PackageItemToken>)
    requires WellFormed(info) && Expandable(info, s) && i < |items|
    requires forall x :: x in items <==> x in s
    requires s <= r && r <= Expanded(info, s) && ScopesIn(info, items, i, r)
    requires forall x :: x in r && !Known(info, x) ==> x in s
    ensures s <= r' && r' <= Expanded(info, s) && ScopesIn(info, items, i + 1, r')
    ensures forall x :: x in r' && !Known(info, x) ==> x in s
  {
    assert items[i] in s;
    r' := AddDescendants(info, r, items[i]);
    ScopesGrow(info, items, i, r, r');
    GrowWithinExpanded(info, s, r, r', items[i]);
  }

  /** Adding the scope of an item of `s` keeps the set within the expansion of `s`. */
  lemma GrowWithinExpanded(info: PackageInfo, s: set<PackageItemToken>, r: set<PackageItemToken>, r': set<PackageItemToken>,
                           t: PackageItemToken)
    requires WellFormed(info) && Expandable(info, s) && t in s && r <= Expanded(info, s)
    requires forall x :: x in r' <==> x in r || x in InternalImportsQueries.Scope(info, t)
    ensures r' <= Expanded(info, s)
  {
    ScopeInExpanded(info, s, t);
  }

  /** One turn of the loop of `extend_with_descendants`: the descendants of a package join the set. */
  method AddDescendants(info: PackageInfo, r: set<PackageItemToken>, t: PackageItemToken) returns (r': set<PackageItemToken>)
    requires WellFormed(info) && (t.PackageToken? ==> t.p < |info.packages|) && t in r
    ensures forall x :: x in r' <==> x in r || x in InternalImportsQueries.Scope(info, t)
    ensures r <= r' && InternalImportsQueries.Scope(info, t) <= r'
    ensures forall x :: x in r' && !Known(info, x) ==> x in r
  {
    r' := r;
    if t.PackageToken? {
      var descendants := GetDescendantItems(info, t.p);
      r' := r + Tokens(descendants.value);
    }
  }

  /** The scopes of the first `n` items lie within `r`. */
  ghost predicate ScopesIn(info: PackageInfo, items: seq<PackageItemToken>, n: nat, r: set<PackageItemToken>)
    requires WellFormed(info) && n <= |items|
    requires forall j :: 0 <= j < |items| && items[j].PackageToken? ==> items[j].p < |info.packages|
  {
    forall j :: 0 <= j < n ==> InternalImportsQueries.Scope(info, items[j]) <= r
  }

  /** Growing the set and covering the next scope extends the count of covered scopes by one. */
  lemma ScopesGrow(info: PackageInfo, items: seq<PackageItemToken>, n: nat, r: set<PackageItemToken>, r': set<PackageItemToken>)
    requires WellFormed(info) && n < |items|
    requires forall j :: 0 <= j < |items| && items[j].PackageToken? ==> items[j].p < |info.packages|
    requires ScopesIn(info, items, n, r) && r <= r' && InternalImportsQueries.Scope(info, items[n]) <= r'
    ensures ScopesIn(info, items, n + 1, r')
  {
  }

  /** The scope of an item of the set lies within the expansion. */
  lemma ScopeInExpanded(info: PackageInfo, s: set<PackageItemToken>, t: PackageItemToken)
    requires WellFormed(info) && Expandable(info, s) && t in s
    ensures InternalImportsQueries.Scope(info, t) <= Expanded(info, s)
  {
  }

  /** The set the loop ends with is the expansion of the set it started with. */
  lemma ExpandedCovers(info: PackageInfo, s: set<PackageItemToken>, items: seq<PackageItemToken>, r: set<PackageItemToken>)
    requires WellFormed(info) && Expandable(info, s)
    requires forall x :: x in items <==> x in s
    requires r <= Expanded(info, s)
    requires ScopesIn(info, items, |items|, r)
    ensures r == Expanded(info, s)
  {
    forall x | x in Expanded(info, s)
      ensures x in r
    {
      var t :| t in s && x in InternalImportsQueries.Scope(info, t);
      var j :| 0 <= j < |items| && items[j] == t;
    }
  }

  // ---------------------------------------------------------------------
  // The path search of the internal imports
  // ---------------------------------------------------------------------

  /** `InternalImportsPathQuery`: where a chain may start, where it must end, and the items it must avoid. */
  datatype InternalPathQuery = InternalPathQuery(from: set<PackageItemToken>, to: set<PackageItemToken>, excludingPathsVia: set<PackageItemToken>)

  /** A chain of items from `from` to `to`, none of them excluded, each importing the next. */
  ghost predicate InternalPath(fwd: map<PackageItemToken, set<PackageItemToken>>, q: InternalPathQuery, path: seq<PackageItemToken>)
  {
    && |path| > 0
    && path[0] in q.from
    && path[|path| - 1] in q.to
    && (forall i :: 0 <= i < |path| ==> path[i] !in q.excludingPathsVia)
    && (forall i :: 0 <= i < |path| - 1 ==> path[i + 1] in Get(fwd, path[i]))
  }

  /** An internal chain no other chain for the same query beats in length. */
  ghost predicate ShortestInternalPath(fwd: map<PackageItemToken, set<PackageItemToken>>, q: InternalPathQuery, path: seq<PackageItemToken>)
  {
    InternalPath(fwd, q, path) && forall p :: InternalPath(fwd, q, p) ==> |path| <= |p|
  }

  /** The imports left once the excluded items are taken out of the graph. */
  function Avoiding(fwd: map<PackageItemToken, set<PackageItemToken>>, excluded: set<PackageItemToken>)
    : (g: map<PackageItemToken, set<PackageItemToken>>)
    ensures forall x :: Succs(g, x) == if x in excluded then {} else Get(fwd, x) - excluded
  {
    map k | k in fwd && k !in excluded :: fwd[k] - excluded
  }

  /** The chains a query asks for are the paths of the graph without the excluded items. */
  lemma AvoidingConnects(fwd: map<PackageItemToken, set<PackageItemToken>>, q: InternalPathQuery, path: seq<PackageItemToken>)
    ensures InternalPath(fwd, q, path) <==>
      Connects(Avoiding(fwd, q.excludingPathsVia), q.from - q.excludingPathsVia, q.to - q.excludingPathsVia, path)
  {
    var x := q.excludingPathsVia;
    var g := Avoiding(fwd, x);
    if |path| > 0 {
      PathSteps(g, path);
      if InternalPath(fwd, q, path) {
        forall i | 0 <= i < |path| - 1
          ensures path[i + 1] in Succs(g, path[i])
        {
          assert path[i] !in x && path[i + 1] !in x;
        }
      }
      if Connects(g, q.from - x, q.to - x, path) {
        forall i | 0 <= i < |path|
          ensures path[i] !in x
        {
          if i > 0 {
            assert path[i] in Succs(g, path[i - 1]);
          }
        }
        forall i | 0 <= i < |path| - 1
          ensures path[i + 1] in Get(fwd, path[i])
        {
          assert path[i + 1] in Succs(g, path[i]);
        }
      }
    }
  }

  /** Removing imports never creates a chain: a chain of the pruned graph is a chain of the whole graph. */
  lemma PruningKeepsNoNewPaths(fwd: map<PackageItemToken, set<PackageItemToken>>, s: set<(PackageItemToken, PackageItemToken)>,
                               q: InternalPathQuery, path: seq<PackageItemToken>)
    requires InternalPath(RemoveAll(fwd, s), q, path)
    ensures InternalPath(fwd, q, path)
    ensures forall i :: 0 <= i < |path| - 1 ==> (path[i], path[i + 1]) !in s
  {
    forall i | 0 <= i < |path| - 1
      ensures path[i + 1] in Get(fwd, path[i]) && (path[i], path[i + 1]) !in s
    {
      assert path[i + 1] in Get(RemoveAll(fwd, s), path[i]);
    }
  }

  /**
   * `internal_imports().find_path`, which src/imports_info is not shown to
   * define; modelled on the external `find_path`: the items of `from`, `to`
   * and `excluding_paths_via` are looked up in that order, then a shortest
   * chain of internal imports is searched for.
   */
  method FindInternalPath(ii: ImportsInfo, q: InternalPathQuery) returns (r: Result<Option<seq<PackageItemToken>>, Error>)
    requires ii.Valid()
    ensures r.Err? <==> !AllKnown(ii.packageInfo, q.from + q.to + q.excludingPathsVia)
    ensures r.Err? ==> ReportsUnknown(ii.packageInfo, q.from + q.to + q.excludingPathsVia, r.error)
    ensures r.Ok? && r.value.Some? ==> ShortestInternalPath(ii.internalImports, q, r.value.value)
    ensures r.Ok? && r.value.None? ==> forall path :: !InternalPath(ii.internalImports, q, path)
  {
    var unknown := LookupAll(ii.packageInfo, q.from);
    if unknown.None? {
      unknown := LookupAll(ii.packageInfo, q.to);
    }
    if unknown.None? {
      unknown := LookupAll(ii.packageInfo, q.excludingPathsVia);
    }
    if unknown.Some? {
      return Err(unknown.value);
    }
    var x := q.excludingPathsVia;
    var g := Avoiding(ii.internalImports, x);
    var found, _ := Search(g, q.from - x, q.to - x);
    if found.None? {
      forall path | InternalPath(ii.internalImports, q, path)
        ensures false
      {
        AvoidingConnects(ii.internalImports, q, path);
      }
      return Ok(None);
    }
    AvoidingConnects(ii.internalImports, q, found.value);
    forall path | InternalPath(ii.internalImports, q, path)
      ensures |found.value| <= |path|
    {
      AvoidingConnects(ii.internalImports, q, path);
    }
    r := Ok(Some(found.value));
  }

  /** Some item of the union is unknown exactly when some item of one of the parts is. */
  lemma UnknownInUnion(info: PackageInfo, a: set<PackageItemToken>, b: set<PackageItemToken>, c: set<PackageItemToken>)
    requires WellFormed(info)
    ensures AllKnown(info, a + b + c) <==> AllKnown(info, a) && AllKnown(info, b) && AllKnown(info, c)
  {
  }

  /** A lookup over the first set that fails is a lookup over the union that fails. */
  lemma ReportsUnknownWider(info: PackageInfo, s: set<PackageItemToken>, t: set<PackageItemToken>, e: Error)
    requires WellFormed(info) && s <= t && ReportsUnknown(info, s, e)
    ensures ReportsUnknown(info, t, e)
  {
  }

  // ---------------------------------------------------------------------
  // `ignore_imports`
  // ---------------------------------------------------------------------

  /** The elements of a list. */
  function Elements<T(!new)>(s: seq<T>): (r: set<T>)
    ensures forall x :: x in r <==> x in s
  {
    set x | x in s
  }

  /** The imports `ignore_imports` drops: the listed ones, and the typechecking ones when asked to. */
  function Ignored<K(!new)>(meta: map<K, ImportMetadata>, listed: set<K>, typechecking: bool): (r: set<K>)
    ensures forall k :: k in r <==> k in listed || (typechecking && k in TypecheckingImports(meta))
  {
    listed + if typechecking then TypecheckingImports(meta) else {}
  }

  /** Removing typechecking imports after the listed ones is removing both at once. */
  lemma RemoveTwice<K(!new), V(!new)>(m: map<K, set<V>>, meta: map<(K, V), ImportMetadata>, listed: set<(K, V)>)
    ensures RemoveAll(RemoveAll(m, listed), TypecheckingImports(meta - listed)) == RemoveAll(m, Ignored(meta, listed, true))
    ensures (meta - listed) - TypecheckingImports(meta - listed) == meta - Ignored(meta, listed, true)
  {
    SameEntries(RemoveAll(RemoveAll(m, listed), TypecheckingImports(meta - listed)), RemoveAll(m, Ignored(meta, listed, true)));
  }

  /** Removing flipped pairs twice is removing the flipped union. */
  lemma RemoveFlippedTwice<K(!new)>(m: map<K, set<K>>, a: set<(K, K)>, b: set<(K, K)>)
    ensures RemoveAll(RemoveAll(m, Flip(a)), Flip(b)) == RemoveAll(m, Flip(a + b))
  {
    SameEntries(RemoveAll(RemoveAll(m, Flip(a)), Flip(b)), RemoveAll(m, Flip(a + b)));
  }

  /**
   * `ignore_imports`: a clone with the listed internal and external imports
   * removed, then, when asked, the typechecking imports; the store it was
   * given is left as it was. Every map keeps its keys, so a store with an
   * entry for every item still has one.
   */
  method IgnoreImports(ii: ImportsInfo, internal: seq<(PackageItemToken, PackageItemToken)>,
                       external: seq<(PackageItemToken, Pypath)>, typechecking: bool)
    returns (r: ImportsInfo)
    requires ii.Valid()
    ensures fresh(r) && r.Valid() && r.packageInfo == ii.packageInfo
    ensures ii.Initialised() ==> r.Initialised()
    ensures r.internalImports == RemoveAll(ii.internalImports, Ignored(ii.internalImportsMetadata, Elements(internal), typechecking))
    ensures r.reverseInternalImports ==
      RemoveAll(ii.reverseInternalImports, Flip(Ignored(ii.internalImportsMetadata, Elements(internal), typechecking)))
    ensures r.internalImportsMetadata == ii.internalImportsMetadata - Ignored(ii.internalImportsMetadata, Elements(internal), typechecking)
    ensures r.externalImports == RemoveAll(ii.externalImports, Ignored(ii.externalImportsMetadata, Elements(external), typechecking))
    ensures r.externalImportsMetadata == ii.externalImportsMetadata - Ignored(ii.externalImportsMetadata, Elements(external), typechecking)
  {
    var li, le := Elements(internal), Elements(external);
    ghost var meta, extMeta := ii.internalImportsMetadata, ii.externalImportsMetadata;
    r := ii.Clone();
    r.RemoveImports(li, le);
    if typechecking {
      r.RemoveTypecheckingImports();
      RemoveTwice(ii.internalImports, meta, li);
      RemoveTwice(ii.externalImports, extMeta, le);
      RemoveFlippedTwice(ii.reverseInternalImports, li, TypecheckingImports(meta - li));
      assert li + TypecheckingImports(meta - li) == Ignored(meta, li, true);
    } else {
      assert Ignored(meta, li, false) == li && Ignored(extMeta, le, false) == le;
    }
  }

  /** The forward imports a contract searches: those of the store, less the ignored ones. */
  ghost function Pruned(ii: ImportsInfo, ignored: seq<(PackageItemToken, PackageItemToken)>, typechecking: bool)
    : map<PackageItemToken, set<PackageItemToken>>
    reads ii
  {
    RemoveAll(ii.internalImports, Ignored(ii.internalImportsMetadata, Elements(ignored), typechecking))
  }

  /** The external imports a contract searches: those of the store, less the ignored ones. */
  ghost function ExternalPruned(ii: ImportsInfo, ignored: seq<(PackageItemToken, Pypath)>, typechecking: bool)
    : map<PackageItemToken, set<Pypath>>
    reads ii
  {
    RemoveAll(ii.externalImports, Ignored(ii.externalImportsMetadata, Elements(ignored), typechecking))
  }

  // ---------------------------------------------------------------------
  // `find_internal_import_violations`
  // ---------------------------------------------------------------------

  /** The items a rule names. */
  function RuleItems(f: ForbiddenImport): set<PackageItemToken>
  {
    {f.from, f.to} + f.exceptVia
  }

  /** The path query of a rule: its three parts with their descendants. */
  ghost function InternalQueryOf(info: PackageInfo, f: ForbiddenImport): InternalPathQuery
    requires WellFormed(info) && Expandable(info, RuleItems(f))
  {
    InternalPathQuery(Expanded(info, {f.from}), Expanded(info, {f.to}), Expanded(info, f.exceptVia))
  }

  /** The search for a rule runs only when every item it names is in the arenas. */
  ghost predicate Checkable(info: PackageInfo, f: ForbiddenImport)
    requires WellFormed(info)
  {
    AllKnown(info, RuleItems(f))
  }

  /** A rule is broken: a chain of imports leads from its source to its target, around the items it allows. */
  ghost predicate InternallyViolated(info: PackageInfo, fwd: map<PackageItemToken, set<PackageItemToken>>, f: ForbiddenImport)
    requires WellFormed(info) && Expandable(info, RuleItems(f))
  {
    exists path :: InternalPath(fwd, InternalQueryOf(info, f), path)
  }

  /** The three expansions of `find_internal_import_violations` for one rule. */
  method ExpandRule(info: PackageInfo, f: ForbiddenImport) returns (q: InternalPathQuery)
    requires WellFormed(info) && Expandable(info, RuleItems(f))
    ensures q == InternalQueryOf(info, f)
    ensures AllKnown(info, q.from + q.to + q.excludingPathsVia) <==> Checkable(info, f)
    ensures forall x :: x in q.from + q.to + q.excludingPathsVia && !Known(info, x) ==> x in RuleItems(f)
  {
    var from := WithDescendants(info, {f.from});
    var to := WithDescendants(info, {f.to});
    var exceptVia := WithDescendants(info, f.exceptVia);
    q := InternalPathQuery(from, to, exceptVia);
  }

  /** The body of the fold of `find_internal_import_violations` for one rule. */
  method CheckInternal(ii: ImportsInfo, f: ForbiddenImport) returns (r: Result<Option<ContractViolation>, Error>)
    requires ii.Valid() && Expandable(ii.packageInfo, RuleItems(f))
    ensures r.Err? <==> !Checkable(ii.packageInfo, f)
    ensures r.Err? ==> ReportsUnknown(ii.packageInfo, RuleItems(f), r.error)
    ensures r.Ok? ==> (r.value.Some? <==> InternallyViolated(ii.packageInfo, ii.internalImports, f))
    ensures r.Ok? && r.value.Some? ==> r.value.value.InternalViolation? && r.value.value.forbiddenImport == f
    ensures r.Ok? && r.value.Some? ==> ShortestInternalPath(ii.internalImports, InternalQueryOf(ii.packageInfo, f), r.value.value.path)
  {
    var q := ExpandRule(ii.packageInfo, f);
    var path := FindInternalPath(ii, q);
    if path.Err? {
      return Err(path.error);
    }
    if path.value.None? {
      return Ok(None);
    }
    r := Ok(Some(InternalViolation(f, path.value.value)));
  }

  /**
   * `find_internal_import_violations`, as the sequential fold it amounts
   * to: the rules are searched in order and the first lookup that fails
   * fails the whole; otherwise one violation per broken rule, carrying the
   * rule and a shortest chain that breaks it, and none for a rule kept.
   */
  method FindInternalViolations(ii: ImportsInfo, forbidden: seq<ForbiddenImport>) returns (r: Result<seq<ContractViolation>, Error>)
    requires ii.Valid()
    requires forall f :: f in forbidden ==> Expandable(ii.packageInfo, RuleItems(f))
    ensures r.Err? <==> exists f :: f in forbidden && !Checkable(ii.packageInfo, f)
    ensures r.Err? ==> exists i ::
      && 0 <= i < |forbidden| && !Checkable(ii.packageInfo, forbidden[i])
      && ReportsUnknown(ii.packageInfo, RuleItems(forbidden[i]), r.error)
      && forall j :: 0 <= j < i ==> Checkable(ii.packageInfo, forbidden[j])
    ensures r.Ok? ==> |r.value| <= |forbidden|
    ensures r.Ok? ==> forall v :: v in r.value ==>
      && v.InternalViolation? && v.forbiddenImport in forbidden
      && ShortestInternalPath(ii.internalImports, InternalQueryOf(ii.packageInfo, v.forbiddenImport), v.path)
    ensures r.Ok? ==> forall f :: f in forbidden ==>
      (InternallyViolated(ii.packageInfo, ii.internalImports, f) <==> exists v :: v in r.value && v.InternalViolation? && v.forbiddenImport == f)
  {
    var found: seq<ContractViolation> := [];
    for i := 0 to |forbidden|
      invariant forall j :: 0 <= j < i ==> Checkable(ii.packageInfo, forbidden[j])
      invariant |found| <= i
      invariant forall v :: v in found ==>
        && v.InternalViolation? && v.forbiddenImport in forbidden
        && ShortestInternalPath(ii.internalImports, InternalQueryOf(ii.packageInfo, v.forbiddenImport), v.path)
      invariant forall j :: 0 <= j < i ==>
        (InternallyViolated(ii.packageInfo, ii.internalImports, forbidden[j]) <==>
         exists v :: v in found && v.InternalViolation? && v.forbiddenImport == forbidden[j])
    {
      var one := CheckInternal(ii, forbidden[i]);
      if one.Err? {
        return Err(one.error);
      }
      if one.value.Some? {
        found := found + [one.value.value];
      }
    }
    r := Ok(found);
  }

  // ---------------------------------------------------------------------
  // `find_external_import_violations`
  // ---------------------------------------------------------------------

  /** The items an external rule names. */
  function ExternalRuleItems(f: ForbiddenExternalImport): set<PackageItemToken>
  {
    {f.from} + f.exceptVia
  }

  /** The external pypaths `ext` imports at or below `p`. */
  ghost function ImportedAtOrBelow(ext: map<PackageItemToken, set<Pypath>>, p: Pypath): set<Pypath>
  {
    set t, e | t in ext && e in ext[t] && IsEqualToOrDescendantOf(e, p) :: e
  }

  /** The path query of an external rule: its items with their descendants, and every imported pypath at or below its target. */
  ghost function ExternalQueryOf(info: PackageInfo, ext: map<PackageItemToken, set<Pypath>>, f: ForbiddenExternalImport)
    : ExternalImportsQueries.PathQuery
    requires WellFormed(info) && Expandable(info, ExternalRuleItems(f))
  {
    ExternalImportsQueries.PathQuery(Expanded(info, {f.from}), ImportedAtOrBelow(ext, f.to), Expanded(info, f.exceptVia))
  }

  /** An external rule is broken: a chain from its source, around the items it allows, ends importing its target or below. */
  ghost predicate ExternallyViolated(info: PackageInfo, fwd: map<PackageItemToken, set<PackageItemToken>>,
                                     ext: map<PackageItemToken, set<Pypath>>, f: ForbiddenExternalImport)
    requires WellFormed(info) && Expandable(info, ExternalRuleItems(f))
  {
    exists path, e :: ExternalImportsQueries.ExternalPath(fwd, ext, ExternalQueryOf(info, ext, f), path, e)
  }

  /** A chain breaking an external rule ends in a pypath at or below the rule's target. */
  lemma ExternalViolationHitsTarget(info: PackageInfo, fwd: map<PackageItemToken, set<PackageItemToken>>,
                                    ext: map<PackageItemToken, set<Pypath>>, f: ForbiddenExternalImport,
                                    path: seq<PackageItemToken>, e: Pypath)
    requires WellFormed(info) && Expandable(info, ExternalRuleItems(f))
    requires ExternalImportsQueries.ExternalPath(fwd, ext, ExternalQueryOf(info, ext, f), path, e)
    ensures IsEqualToOrDescendantOf(e, f.to) && f.from in Expanded(info, {f.from})
  {
    assert f.from in InternalImportsQueries.Scope(info, f.from);
  }

  /** The three parts of the path query of `find_external_import_violations` for one rule. */
  method ExpandExternalRule(ii: ImportsInfo, f: ForbiddenExternalImport) returns (q: PathQuery)
    requires WellFormed(ii.packageInfo) && Expandable(ii.packageInfo, ExternalRuleItems(f))
    ensures q == ExternalQueryOf(ii.packageInfo, ii.externalImports, f)
    ensures AllKnown(ii.packageInfo, q.from) && AllKnown(ii.packageInfo, q.excludingPathsVia) <==> AllKnown(ii.packageInfo, ExternalRuleItems(f))
    ensures forall x :: x in q.from + q.excludingPathsVia && !Known(ii.packageInfo, x) ==> x in ExternalRuleItems(f)
  {
    var from := WithDescendants(ii.packageInfo, {f.from});
    var to := GetEqualToOrDescendantImports(ii, f.to);
    assert to == ImportedAtOrBelow(ii.externalImports, f.to);
    var exceptVia := WithDescendants(ii.packageInfo, f.exceptVia);
    q := PathQuery(from, to, exceptVia);
  }

  /** The body of the fold of `find_external_import_violations` for one rule. */
  method CheckExternal(ii: ImportsInfo, f: ForbiddenExternalImport) returns (r: Result<Option<ContractViolation>, Error>)
    requires ii.Valid() && ii.Initialised() && Expandable(ii.packageInfo, ExternalRuleItems(f))
    ensures r.Err? <==> !AllKnown(ii.packageInfo, ExternalRuleItems(f))
    ensures r.Err? ==> ReportsUnknown(ii.packageInfo, ExternalRuleItems(f), r.error)
    ensures r.Ok? ==> (r.value.Some? <==> ExternallyViolated(ii.packageInfo, ii.internalImports, ii.externalImports, f))
    ensures r.Ok? && r.value.Some? ==> r.value.value.ExternalViolation? && r.value.value.forbiddenExternalImport == f
    ensures r.Ok? && r.value.Some? ==>
      ExternalPath(ii.internalImports, ii.externalImports, ExternalQueryOf(ii.packageInfo, ii.externalImports, f), r.value.value.path, r.value.value.imported)
  {
    var q := ExpandExternalRule(ii, f);
    var path := FindPath(ii, q);
    if path.Err? {
      return Err(path.error);
    }
    if path.value.None? {
      return Ok(None);
    }
    r := Ok(Some(ExternalViolation(f, path.value.value.0, path.value.value.1)));
  }

  /**
   * `find_external_import_violations`, as a sequential fold: the first
   * lookup that fails fails the whole; otherwise one violation per broken
   * rule, with the chain and the pypath it imports, and none for a rule
   * kept.
   */
  method FindExternalViolations(ii: ImportsInfo, forbidden: seq<ForbiddenExternalImport>) returns (r: Result<seq<ContractViolation>, Error>)
    requires ii.Valid() && ii.Initialised()
    requires forall f :: f in forbidden ==> Expandable(ii.packageInfo, ExternalRuleItems(f))
    ensures r.Err? <==> exists f :: f in forbidden && !AllKnown(ii.packageInfo, ExternalRuleItems(f))
    ensures r.Err? ==> exists f :: f in forbidden && ReportsUnknown(ii.packageInfo, ExternalRuleItems(f), r.error)
    ensures r.Ok? ==> |r.value| <= |forbidden|
    ensures r.Ok? ==> forall v :: v in r.value ==>
      && v.ExternalViolation? && v.forbiddenExternalImport in forbidden
      && ExternalImportsQueries.ExternalPath(ii.internalImports, ii.externalImports,
                                             ExternalQueryOf(ii.packageInfo, ii.externalImports, v.forbiddenExternalImport), v.path, v.imported)
    ensures r.Ok? ==> forall f :: f in forbidden ==>
      (ExternallyViolated(ii.packageInfo, ii.internalImports, ii.externalImports, f) <==> exists v :: v in r.value && v.ExternalViolation? && v.forbiddenExternalImport == f)
  {
    var found: seq<ContractViolation> := [];
    for i := 0 to |forbidden|
      invariant forall j :: 0 <= j < i ==> AllKnown(ii.packageInfo, ExternalRuleItems(forbidden[j]))
      invariant |found| <= i
      invariant forall v :: v in found ==>
        && v.ExternalViolation? && v.forbiddenExternalImport in forbidden
        && ExternalImportsQueries.ExternalPath(ii.internalImports, ii.externalImports,
                                               ExternalQueryOf(ii.packageInfo, ii.externalImports, v.forbiddenExternalImport), v.path, v.imported)
      invariant forall j :: 0 <= j < i ==>
        (ExternallyViolated(ii.packageInfo, ii.internalImports, ii.externalImports, forbidden[j]) <==>
         exists v :: v in found && v.ExternalViolation? && v.forbiddenExternalImport == forbidden[j])
    {
      var one := CheckExternal(ii, forbidden[i]);
      if one.Err? {
        return Err(one.error);
      }
      if one.value.Some? {
        found := found + [one.value.value];
      }
    }
    r := Ok(found);
  }
}
