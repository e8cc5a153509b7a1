/**
 * `ExternalImportsQueries` of src/imports_info/queries/external_imports.rs:
 * read-only queries over the imports of pypaths outside the package. Every
 * query about an item first looks it up and fails on a token outside the
 * arenas; `find_path` searches for a shortest chain of internal imports that
 * ends in an import of one of the requested external pypaths.
 */
module ExternalImportsQueries {
  import opened Wrappers
  import opened Errors
  import opened Pypaths
  import opened PackageInfos
  import opened ImportsInfos
  import opened Adjacency
  import opened GraphSearch
  import InternalImportsQueries

  /** `direct_import_exists`: the item is looked up, then its external imports are read. */
  function DirectImportExists(ii: ImportsInfo, from: PackageItemToken, to: Pypath): (r: Result<bool, Error>)
    reads ii
    requires ii.Valid() && ii.Initialised()
    ensures r.Ok? <==> Known(ii.packageInfo, from)
    ensures r.Err? ==> r.error == InternalImportsQueries.ItemError(from)
    ensures r.Ok? ==> (r.value <==> to in Get(ii.externalImports, from))
    ensures r.Ok? ==> (r.value <==> (from, to) in ii.externalImportsMetadata)
  {
    match GetItem(ii.packageInfo, from)
    case Err(e) => Err(e)
    case Ok(_) => Ok(to in ii.externalImports[from])
  }

  /** `get_items_directly_imported_by`: the external pypaths the item imports, those for which a direct import exists. */
  function GetItemsDirectlyImportedBy(ii: ImportsInfo, item: PackageItemToken): (r: Result<set<Pypath>, Error>)
    reads ii
    requires ii.Valid() && ii.Initialised()
    ensures r.Ok? <==> Known(ii.packageInfo, item)
    ensures r.Err? ==> r.error == InternalImportsQueries.ItemError(item)
    ensures r.Ok? ==> forall e :: e in r.value <==> DirectImportExists(ii, item, e) == Ok(true)
  {
    match GetItem(ii.packageInfo, item)
    case Err(e) => Err(e)
    case Ok(_) => Ok(ii.externalImports[item])
  }

  /** `get_import_metadata`: the metadata of a direct external import, or `NoSuchImport` when there is none. */
  function GetImportMetadata(ii: ImportsInfo, from: PackageItemToken, to: Pypath): (r: Result<ImportMetadata, Error>)
    reads ii
    requires ii.Valid() && ii.Initialised()
    ensures r.Ok? <==> Known(ii.packageInfo, from) && to in Get(ii.externalImports, from)
    ensures r.Err? ==> r.error == (if Known(ii.packageInfo, from) then NoSuchImport else InternalImportsQueries.ItemError(from))
    ensures r.Ok? ==> (from, to) in ii.externalImportsMetadata && r.value == ii.externalImportsMetadata[(from, to)]
  {
    match DirectImportExists(ii, from, to)
    case Err(e) => Err(e)
    case Ok(exists_) =>
      if exists_ then Ok(ii.externalImportsMetadata[(from, to)]) else Err(NoSuchImport)
  }

  /** The items whose external imports count as downstream of `items`: the items and everything downstream of one of them. */
  ghost predicate Downstream(ii: ImportsInfo, items: set<PackageItemToken>, x: PackageItemToken)
    reads ii
    requires ii.Valid()
  {
    || x in items
    || exists i :: i in items && Known(ii.packageInfo, i) && InternalImportsQueries.Transitive(ii.internalImports, ii.packageInfo, i, x)
  }

  /** The internal half of `get_downstream_items`: the items and the internal items downstream of each. */
  method DownstreamOfAll(ii: ImportsInfo, items: set<PackageItemToken>) returns (r: Result<set<PackageItemToken>, Error>)
    requires ii.Valid() && ii.Initialised()
    ensures r.Err? <==> !AllKnown(ii.packageInfo, items)
    ensures r.Err? ==> ReportsUnknown(ii.packageInfo, items, r.error)
    ensures r.Ok? ==> forall x :: x in r.value <==> Downstream(ii, items, x)
  {
    var reached: set<PackageItemToken> := {};
    var todo := items;
    while todo != {}
      invariant todo <= items
      invariant forall i :: i in items && i !in todo ==> Known(ii.packageInfo, i)
      invariant forall x :: x in reached <==>
        exists i :: i in items && i !in todo && Known(ii.packageInfo, i) && InternalImportsQueries.Transitive(ii.internalImports, ii.packageInfo, i, x)
      decreases |todo|
    {
      var i :| i in todo;
      var d := InternalImportsQueries.GetDownstreamItems(ii, i);
      if d.Err? {
        return Err(d.error);
      }
      reached := reached + d.value;
      todo := todo - {i};
    }
    r := Ok(items + reached);
  }

  /** Every external pypath imported by a member of `xs`. */
  function ExternalOf(ext: map<PackageItemToken, set<Pypath>>, xs: set<PackageItemToken>): (r: set<Pypath>)
    ensures forall e :: e in r <==> exists x :: x in xs && e in Get(ext, x)
  {
    set x, e | x in xs && e in Get(ext, x) :: e
  }

  /**
   * `get_downstream_items`: the external pypaths imported by the items or
   * by anything downstream of them. It fails on the first unknown item.
   */
  method GetDownstreamItems(ii: ImportsInfo, items: set<PackageItemToken>) returns (r: Result<set<Pypath>, Error>)
    requires ii.Valid() && ii.Initialised()
    ensures r.Err? <==> !AllKnown(ii.packageInfo, items)
    ensures r.Err? ==> ReportsUnknown(ii.packageInfo, items, r.error)
    ensures r.Ok? ==> forall e :: e in r.value <==> exists x :: Downstream(ii, items, x) && e in Get(ii.externalImports, x)
  {
    var all := DownstreamOfAll(ii, items);
    if all.Err? {
      return Err(all.error);
    }
    r := Ok(ExternalOf(ii.externalImports, all.value));
  }

  /** `ExternalImportsPathQuery`: where paths may start, where they may end, and the items they must avoid. */
  datatype PathQuery = PathQuery(from: set<PackageItemToken>, to: set<Pypath>, excludingPathsVia: set<PackageItemToken>)

  /** `PathfindingNode`: the search starts at `Initial`, runs through package items and ends at an external pypath. */
  datatype Node = Initial | Item(token: PackageItemToken) | External(pypath: Pypath)

  /** The successors `find_path` gives a node: the allowed starts, or an item's internal imports not excluded and its external imports. */
  function Successors(fwd: map<PackageItemToken, set<PackageItemToken>>, ext: map<PackageItemToken, set<Pypath>>, q: PathQuery, n: Node)
    : set<Node>
  {
    match n
    case Initial => set t | t in q.from - q.excludingPathsVia :: Item(t)
    case Item(t) => (set u | u in Get(fwd, t) - q.excludingPathsVia :: Item(u)) + (set e | e in Get(ext, t) :: External(e))
    case External(_) => {}
  }

  /** The search graph, as a map over `Initial` and the items with entries. */
  function SearchGraph(fwd: map<PackageItemToken, set<PackageItemToken>>, ext: map<PackageItemToken, set<Pypath>>, q: PathQuery)
    : (g: map<Node, set<Node>>)
    ensures forall n :: Succs(g, n) == Successors(fwd, ext, q, n)
  {
    var nodes := {Initial} + set t | t in fwd.Keys + ext.Keys :: Item(t);
    map n | n in nodes :: Successors(fwd, ext, q, n)
  }

  /** The success test of `find_path`: an external pypath the query asks for. */
  function Goals(q: PathQuery): set<Node>
  {
    set e | e in q.to :: External(e)
  }

  /**
   * What `find_path` looks for: a chain of items starting in `from`, none of
   * them excluded, each importing the next, whose last item imports `e`, one
   * of the pypaths of `to`.
   */
  ghost predicate ExternalPath(fwd: map<PackageItemToken, set<PackageItemToken>>, ext: map<PackageItemToken, set<Pypath>>, q: PathQuery,
                               path: seq<PackageItemToken>, e: Pypath)
  {
    && |path| > 0
    && path[0] in q.from
    && (forall i :: 0 <= i < |path| ==> path[i] !in q.excludingPathsVia)
    && (forall i :: 0 <= i < |path| - 1 ==> path[i + 1] in Get(fwd, path[i]))
    && e in Get(ext, path[|path| - 1])
    && e in q.to
  }

  /** A chain of items as a path of the search graph. */
  function Lift(path: seq<PackageItemToken>, e: Pypath): (p: seq<Node>)
    ensures |p| == |path| + 2 && p[0] == Initial && p[|p| - 1] == External(e)
    ensures forall i :: 0 <= i < |path| ==> p[i + 1] == Item(path[i])
  {
    [Initial] + seq(|path|, i requires 0 <= i < |path| => Item(path[i])) + [External(e)]
  }

  /** The items strictly inside a search path, which `find_path` returns. */
  function Inner(p: seq<Node>): (path: seq<PackageItemToken>)
    requires |p| >= 2 && forall i :: 0 < i < |p| - 1 ==> p[i].Item?
    ensures |path| == |p| - 2 && forall i :: 0 <= i < |path| ==> path[i] == p[i + 1].token
  {
    seq(|p| - 2, i requires 0 <= i < |p| - 2 => p[i + 1].token)
  }

  /** Every chain `find_path` looks for is a path of the search graph from `Initial` to a goal, two nodes longer. */
  lemma LiftConnects(fwd: map<PackageItemToken, set<PackageItemToken>>, ext: map<PackageItemToken, set<Pypath>>, q: PathQuery,
                     path: seq<PackageItemToken>, e: Pypath)
    requires ExternalPath(fwd, ext, q, path, e)
    ensures Connects(SearchGraph(fwd, ext, q), {Initial}, Goals(q), Lift(path, e))
  {
    var g := SearchGraph(fwd, ext, q);
    var p := Lift(path, e);
    PathSteps(g, p);
    forall i | 0 <= i < |p| - 1
      ensures p[i + 1] in Succs(g, p[i])
    {
      if i == 0 {
        assert p[1] == Item(path[0]);
      } else if i == |p| - 2 {
        assert p[i] == Item(path[|path| - 1]);
      } else {
        assert p[i] == Item(path[i - 1]) && p[i + 1] == Item(path[i]);
      }
    }
  }

  /** What one step of the search graph can be. */
  lemma StepShape(fwd: map<PackageItemToken, set<PackageItemToken>>, ext: map<PackageItemToken, set<Pypath>>, q: PathQuery, n: Node, m: Node)
    requires m in Successors(fwd, ext, q, n)
    ensures !n.External? && !m.Initial?
    ensures n.Initial? ==> m.Item? && m.token in q.from && m.token !in q.excludingPathsVia
    ensures n.Item? && m.Item? ==> m.token in Get(fwd, n.token) && m.token !in q.excludingPathsVia
    ensures n.Item? && m.External? ==> m.pypath in Get(ext, n.token)
  {
  }

  /** Every path of the search graph from `Initial` to a goal has items strictly inside and ends at a goal. */
  lemma LowerShape(fwd: map<PackageItemToken, set<PackageItemToken>>, ext: map<PackageItemToken, set<Pypath>>, q: PathQuery, p: seq<Node>)
    requires Connects(SearchGraph(fwd, ext, q), {Initial}, Goals(q), p)
    ensures |p| >= 3 && p[0] == Initial && forall i :: 0 < i < |p| - 1 ==> p[i].Item?
    ensures p[|p| - 1].External? && p[|p| - 1].pypath in q.to
    ensures forall i :: 0 <= i < |p| - 1 ==> p[i + 1] in Successors(fwd, ext, q, p[i])
  {
    var g := SearchGraph(fwd, ext, q);
    PathSteps(g, p);
    assert p[|p| - 1] in Goals(q);
    StepShape(fwd, ext, q, p[0], p[1]);
    forall i | 0 < i < |p| - 1
      ensures p[i].Item?
    {
      StepShape(fwd, ext, q, p[i - 1], p[i]);
      StepShape(fwd, ext, q, p[i], p[i + 1]);
    }
  }

  /** Every path of the search graph from `Initial` to a goal runs through items only and is a chain `find_path` looks for. */
  lemma LowerConnects(fwd: map<PackageItemToken, set<PackageItemToken>>, ext: map<PackageItemToken, set<Pypath>>, q: PathQuery, p: seq<Node>)
    requires Connects(SearchGraph(fwd, ext, q), {Initial}, Goals(q), p)
    ensures |p| >= 3 && forall i :: 0 < i < |p| - 1 ==> p[i].Item?
    ensures p[|p| - 1].External? && ExternalPath(fwd, ext, q, Inner(p), p[|p| - 1].pypath)
  {
    LowerShape(fwd, ext, q, p);
    var path := Inner(p);
    StepShape(fwd, ext, q, p[0], p[1]);
    forall i | 0 <= i < |path|
      ensures path[i] !in q.excludingPathsVia
    {
      StepShape(fwd, ext, q, p[i], p[i + 1]);
    }
    forall i | 0 <= i < |path| - 1
      ensures path[i + 1] in Get(fwd, path[i])
    {
      StepShape(fwd, ext, q, p[i + 1], p[i + 2]);
    }
    StepShape(fwd, ext, q, p[|p| - 2], p[|p| - 1]);
  }

  /** Every item of `s` is in the arenas. */
  ghost predicate AllKnown(info: PackageInfo, s: set<PackageItemToken>)
    requires WellFormed(info)
  {
    forall t :: t in s ==> Known(info, t)
  }

  /** `err` is what looking up some unknown item of `s` reports. */
  ghost predicate ReportsUnknown(info: PackageInfo, s: set<PackageItemToken>, err: Error)
    requires WellFormed(info)
  {
    exists t :: t in s && !Known(info, t) && err == InternalImportsQueries.ItemError(t)
  }

  /** A loop of `find_path` looking up each item of `s`, stopping at the first unknown one. */
  method LookupAll(info: PackageInfo, s: set<PackageItemToken>) returns (r: Option<Error>)
    requires WellFormed(info)
    ensures r.None? <==> AllKnown(info, s)
    ensures r.Some? ==> ReportsUnknown(info, s, r.value)
  {
    if t :| t in s && !Known(info, t) {
      r := Some(InternalImportsQueries.ItemError(t));
    } else {
      r := None;
    }
  }

  /**
   * `find_path`: after the lookups, a shortest chain of internal imports from
   * an item of `from`, avoiding the excluded items, to an item importing one
   * of the pypaths of `to`; the chain and that pypath, or nothing.
   */
  method FindPath(ii: ImportsInfo, q: PathQuery) returns (r: Result<Option<(seq<PackageItemToken>, Pypath)>, Error>)
    requires ii.Valid() && ii.Initialised()
    ensures r.Err? <==> !AllKnown(ii.packageInfo, q.from) || !AllKnown(ii.packageInfo, q.excludingPathsVia)
    ensures r.Err? ==> ReportsUnknown(ii.packageInfo, if AllKnown(ii.packageInfo, q.from) then q.excludingPathsVia else q.from, r.error)
    ensures r.Ok? && r.value.Some? ==> ExternalPath(ii.internalImports, ii.externalImports, q, r.value.value.0, r.value.value.1)
    ensures r.Ok? && r.value.Some? ==> forall path, e :: ExternalPath(ii.internalImports, ii.externalImports, q, path, e) ==>
      |r.value.value.0| <= |path|
    ensures r.Ok? && r.value.None? ==> forall path, e :: !ExternalPath(ii.internalImports, ii.externalImports, q, path, e)
  {
    var unknown := LookupAll(ii.packageInfo, q.from);
    if unknown.Some? {
      return Err(unknown.value);
    }
    unknown := LookupAll(ii.packageInfo, q.excludingPathsVia);
    if unknown.Some? {
      return Err(unknown.value);
    }
    var fwd, ext := ii.internalImports, ii.externalImports;
    var g := SearchGraph(fwd, ext, q);
    var found, _ := Search(g, {Initial}, Goals(q));
    if found.None? {
      forall path, e | ExternalPath(fwd, ext, q, path, e)
        ensures false
      {
        LiftConnects(fwd, ext, q, path, e);
      }
      return Ok(None);
    }
    var p := found.value;
    LowerConnects(fwd, ext, q, p);
    r := Ok(Some((Inner(p), p[|p| - 1].pypath)));
    forall path, e | ExternalPath(fwd, ext, q, path, e)
      ensures |Inner(p)| <= |path|
    {
      LiftConnects(fwd, ext, q, path, e);
    }
  }

  /** `path_exists`: whether `find_path` finds a chain. */
  method PathExists(ii: ImportsInfo, q: PathQuery) returns (r: Result<bool, Error>)
    requires ii.Valid() && ii.Initialised()
    ensures r.Err? <==> !AllKnown(ii.packageInfo, q.from) || !AllKnown(ii.packageInfo, q.excludingPathsVia)
    ensures r.Err? ==> ReportsUnknown(ii.packageInfo, if AllKnown(ii.packageInfo, q.from) then q.excludingPathsVia else q.from, r.error)
    ensures r.Ok? ==> (r.value <==> exists path, e :: ExternalPath(ii.internalImports, ii.externalImports, q, path, e))
  {
    var found := FindPath(ii, q);
    if found.Err? {
      return Err(found.error);
    }
    r := Ok(found.value.Some?);
  }

  /** `get_equal_to_or_descendant_imports`: the imported external pypaths at or below `p`. */
  function GetEqualToOrDescendantImports(ii: ImportsInfo, p: Pypath): (r: set<Pypath>)
    reads ii
    ensures forall e :: e in r ==> IsEqualToOrDescendantOf(e, p)
    ensures forall e :: e in r ==> exists t :: t in ii.externalImports && e in ii.externalImports[t]
    ensures forall t, e :: e in Get(ii.externalImports, t) && IsEqualToOrDescendantOf(e, p) ==> e in r
  {
    set t, e | t in ii.externalImports && e in ii.externalImports[t] && IsEqualToOrDescendantOf(e, p) :: e
  }

  /** Asking about a descendant of `p` yields a subset of what asking about `p` yields. */
  lemma DescendantImportsNarrow(ii: ImportsInfo, p: Pypath, d: Pypath)
    requires IsEqualToOrDescendantOf(d, p)
    ensures GetEqualToOrDescendantImports(ii, d) <= GetEqualToOrDescendantImports(ii, p)
  {
    forall e | e in GetEqualToOrDescendantImports(ii, d)
      ensures IsEqualToOrDescendantOf(e, p)
    {
      if e != d && d != p {
        assert p.s + "." <= d.s + ".";
      }
    }
  }
}
