/**
 * `InternalImportsQueries` of src/imports_info/queries/internal_imports.rs:
 * read-only queries over the internal imports of an `ImportsInfo`. A query
 * about a module reads that module's entries; a query about a package reads
 * the entries of everything the package contains and drops the answers that
 * fall back inside the package. Every query first looks the item up and
 * fails on a token outside the arenas.
 */
module InternalImportsQueries {
  import opened Wrappers
  import opened Errors
  import opened PackageInfos
  import opened ImportsInfos
  import opened Adjacency
  import opened GraphSearch

  /** The error `get_item` reports for a token outside its arena. */
  function ItemError(t: PackageItemToken): Error
  {
    match t
    case PackageToken(p) => UnknownPackage(p)
    case ModuleToken(m) => UnknownModule(m)
  }

  /**
   * `get_package_contents`, which src/package_info is not shown to define:
   * the package itself and every item below it.
   */
  function PackageContents(info: PackageInfo, p: nat): (r: set<PackageItemToken>)
    requires WellFormed(info) && p < |info.packages|
    ensures PackageToken(p) in r
    ensures forall x :: x in r ==> Known(info, x)
  {
    DescendantsStored(info, p);
    KnownTokens(info, Descendants(info, p));
    {PackageToken(p)} + Tokens(Descendants(info, p))
  }

  lemma KnownTokens(info: PackageInfo, ys: seq<PackageItem>)
    requires forall y :: y in ys ==> Known(info, Token(y))
    ensures forall x :: x in Tokens(ys) ==> Known(info, x)
  {
  }

  /** In a linked arena the contents of a package are the package and the items whose parent links climb to it. */
  lemma ContentsAreBelow(info: PackageInfo, p: nat, x: PackageItemToken)
    requires WellFormed(info) && Linked(info) && p < |info.packages|
    ensures x in PackageContents(info, p) <==> x == PackageToken(p) || (Known(info, x) && Below(info, p, x))
  {
    DescendantsFollowParents(info, p);
  }

  /** The items a query about `item` covers: the contents of a package, or the module alone. */
  function Scope(info: PackageInfo, item: PackageItemToken): (r: set<PackageItemToken>)
    requires WellFormed(info) && (item.PackageToken? ==> item.p < |info.packages|)
    ensures item in r
  {
    match item
    case PackageToken(p) => PackageContents(info, p)
    case ModuleToken(_) => {item}
  }

  /** Everything `f` yields for some member of `s`. */
  function UnionOver<T(!new)>(s: set<T>, f: T -> set<T>): (r: set<T>)
    ensures forall x :: x in r <==> exists c :: c in s && x in f(c)
  {
    set c, x | c in s && x in f(c) :: x
  }

  /**
   * `for_every_package_item`: for a module, what `getItems` yields for it;
   * for a package, everything `getItems` yields for its contents, less the
   * contents. The package is looked up first.
   */
  function ForEveryPackageItem(info: PackageInfo, item: PackageItemToken, getItems: PackageItemToken -> set<PackageItemToken>)
    : (r: Result<set<PackageItemToken>, Error>)
    requires WellFormed(info)
    ensures r.Err? <==> item.PackageToken? && item.p >= |info.packages|
    ensures r.Err? ==> r.error == UnknownPackage(item.p)
    ensures r.Ok? ==> forall x :: x in r.value <==>
      && (exists c :: c in Scope(info, item) && x in getItems(c))
      && (item.PackageToken? ==> x !in Scope(info, item))
  {
    match item
    case PackageToken(p) =>
      (match GetPackage(info, p)
       case Err(e) => Err(e)
       case Ok(package) =>
         assert PackageWellFormed(info, p);
         var contents := PackageContents(info, package.token);
         Ok(UnionOver(contents, getItems) - contents))
    case ModuleToken(_) => Ok(getItems(item))
  }

  /**
   * `x` is linked to `item` through `m`: some item of the scope of `item`
   * has `x` in its entry, and for a package `x` lies outside the package.
   */
  ghost predicate Crosses(m: map<PackageItemToken, set<PackageItemToken>>, info: PackageInfo, item: PackageItemToken, x: PackageItemToken)
    requires WellFormed(info) && Known(info, item)
  {
    && (exists c :: c in Scope(info, item) && x in Get(m, c))
    && (item.PackageToken? ==> x !in Scope(info, item))
  }

  /** The direct queries: `item` is looked up, then `m` is read over its scope. */
  function DirectItems(info: PackageInfo, m: map<PackageItemToken, set<PackageItemToken>>, item: PackageItemToken)
    : (r: Result<set<PackageItemToken>, Error>)
    requires WellFormed(info)
    ensures r.Ok? <==> Known(info, item)
    ensures r.Err? ==> r.error == ItemError(item)
    ensures r.Ok? ==> forall x :: x in r.value <==> Crosses(m, info, item, x)
  {
    match GetItem(info, item)
    case Err(e) => Err(e)
    case Ok(_) => ForEveryPackageItem(info, item, c => Get(m, c))
  }

  /** `get_items_directly_imported_by`: what the item, or the package's contents, import from outside. */
  function GetItemsDirectlyImportedBy(ii: ImportsInfo, item: PackageItemToken): (r: Result<set<PackageItemToken>, Error>)
    reads ii
    requires ii.Valid() && ii.Initialised()
    ensures r.Ok? <==> Known(ii.packageInfo, item)
    ensures r.Err? ==> r.error == ItemError(item)
    ensures r.Ok? ==> forall x :: x in r.value <==> Crosses(ii.internalImports, ii.packageInfo, item, x)
  {
    DirectItems(ii.packageInfo, ii.internalImports, item)
  }

  /** `get_items_that_directly_import`: the same over the reverse map. */
  function GetItemsThatDirectlyImport(ii: ImportsInfo, item: PackageItemToken): (r: Result<set<PackageItemToken>, Error>)
    reads ii
    requires ii.Valid() && ii.Initialised()
    ensures r.Ok? <==> Known(ii.packageInfo, item)
    ensures r.Err? ==> r.error == ItemError(item)
    ensures r.Ok? ==> forall x :: x in r.value <==> Crosses(ii.reverseInternalImports, ii.packageInfo, item, x)
  {
    DirectItems(ii.packageInfo, ii.reverseInternalImports, item)
  }

  /** For a module the direct imports are exactly its entry in the forward map. */
  lemma ModuleImportsItsEntry(ii: ImportsInfo, m: nat)
    requires ii.Valid() && ii.Initialised() && m < |ii.packageInfo.modules|
    ensures GetItemsDirectlyImportedBy(ii, ModuleToken(m)) == Ok(ii.internalImports[ModuleToken(m)])
  {
    var r := GetItemsDirectlyImportedBy(ii, ModuleToken(m));
    assert ModuleToken(m) in ii.internalImports;
    forall x
      ensures x in r.value <==> x in ii.internalImports[ModuleToken(m)]
    {
      assert Scope(ii.packageInfo, ModuleToken(m)) == {ModuleToken(m)};
    }
  }

  /** Between two modules the two direct queries agree: `a` imports `b` exactly when `b` is imported by `a`. */
  lemma DirectQueriesMirror(ii: ImportsInfo, a: nat, b: nat)
    requires ii.Valid() && ii.Initialised()
    requires a < |ii.packageInfo.modules| && b < |ii.packageInfo.modules|
    ensures ModuleToken(b) in GetItemsDirectlyImportedBy(ii, ModuleToken(a)).value
        <==> ModuleToken(a) in GetItemsThatDirectlyImport(ii, ModuleToken(b)).value
  {
    assert Scope(ii.packageInfo, ModuleToken(a)) == {ModuleToken(a)};
    assert Scope(ii.packageInfo, ModuleToken(b)) == {ModuleToken(b)};
  }

  /** `direct_import_exists`: both items are looked up, `from` first; then the forward map is read. */
  function DirectImportExists(ii: ImportsInfo, from: PackageItemToken, to: PackageItemToken): (r: Result<bool, Error>)
    reads ii
    requires ii.Valid()
    ensures r.Ok? <==> Known(ii.packageInfo, from) && Known(ii.packageInfo, to)
    ensures r.Err? ==> r.error == ItemError(if Known(ii.packageInfo, from) then to else from)
    ensures r.Ok? ==> (r.value <==> to in Get(ii.internalImports, from))
    ensures r.Ok? ==> (r.value <==> from in Get(ii.reverseInternalImports, to))
  {
    match GetItem(ii.packageInfo, from)
    case Err(e) => Err(e)
    case Ok(_) =>
      (match GetItem(ii.packageInfo, to)
       case Err(e) => Err(e)
       case Ok(_) => Ok(from in ii.internalImports && to in ii.internalImports[from]))
  }

  /**
   * `get_import_metadata`: the metadata of a direct import, or
   * `NoSuchImport` when there is none. Every stored import has metadata, so
   * an answer is never empty.
   */
  function GetImportMetadata(ii: ImportsInfo, from: PackageItemToken, to: PackageItemToken)
    : (r: Result<Option<ImportMetadata>, Error>)
    reads ii
    requires ii.Valid()
    ensures r.Ok? <==> Known(ii.packageInfo, from) && Known(ii.packageInfo, to) && to in Get(ii.internalImports, from)
    ensures r.Err? && Known(ii.packageInfo, from) && Known(ii.packageInfo, to) ==> r.error == NoSuchImport
    ensures r.Err? && !(Known(ii.packageInfo, from) && Known(ii.packageInfo, to)) ==>
      r.error == ItemError(if Known(ii.packageInfo, from) then to else from)
    ensures r.Ok? ==> (from, to) in ii.internalImportsMetadata && r.value == Some(ii.internalImportsMetadata[(from, to)])
  {
    match DirectImportExists(ii, from, to)
    case Err(e) => Err(e)
    case Ok(exists_) =>
      if exists_ then
        Ok(if (from, to) in ii.internalImportsMetadata then Some(ii.internalImportsMetadata[(from, to)]) else None)
      else
        Err(NoSuchImport)
  }

  /** The import of a package's init module reports the implicit metadata `build_with_options` gave it. */
  lemma InitImportIsImplicit(ii: ImportsInfo, c: nat)
    requires ii.Valid() && ImplicitOn(ii.internalImportsMetadata, InitImports(ii.packageInfo))
    requires c < |ii.packageInfo.packages| && ii.packageInfo.packages[c].initModule.Some?
    ensures GetImportMetadata(ii, PackageToken(c), ModuleToken(ii.packageInfo.packages[c].initModule.value))
      == Ok(Some(ImplicitImport))
  {
    var init := ii.packageInfo.packages[c].initModule.value;
    assert PackageWellFormed(ii.packageInfo, c);
    assert (PackageToken(c), ModuleToken(init)) in InitImports(ii.packageInfo);
  }

  /** `x` is reached from the scope of `item` through `m` and lies outside that scope. */
  ghost predicate Transitive(m: map<PackageItemToken, set<PackageItemToken>>, info: PackageInfo, item: PackageItemToken, x: PackageItemToken)
    requires WellFormed(info) && Known(info, item)
  {
    Reachable(m, Scope(info, item), x) && x !in Scope(info, item)
  }

  /** `bfs_reach` from each member of `scope` separately. */
  method ReachFromEach(m: map<PackageItemToken, set<PackageItemToken>>, scope: set<PackageItemToken>)
    returns (reaches: map<PackageItemToken, set<PackageItemToken>>)
    ensures forall c :: c in reaches <==> c in scope
    ensures forall c, x :: c in scope ==> (x in reaches[c] <==> Reachable(m, {c}, x))
  {
    reaches := map[];
    var todo := scope;
    while todo != {}
      invariant todo <= scope
      invariant forall c :: c in reaches <==> c in scope && c !in todo
      invariant forall c, x :: c in reaches ==> (x in reaches[c] <==> Reachable(m, {c}, x))
      decreases |todo|
    {
      var c :| c in todo;
      var reached := Reach(m, {c});
      reaches := reaches[c := reached];
      todo := todo - {c};
    }
  }

  /** Reaching a node from a set of start nodes is reaching it from one of them. */
  lemma ReachableFromSome<T(!new)>(m: map<T, set<T>>, starts: set<T>, x: T)
    ensures Reachable(m, starts, x) <==> exists c :: c in starts && Reachable(m, {c}, x)
  {
    if Reachable(m, starts, x) {
      var p :| Connects(m, starts, {x}, p);
      assert Connects(m, {p[0]}, {x}, p);
    }
    if exists c :: c in starts && Reachable(m, {c}, x) {
      var c :| c in starts && Reachable(m, {c}, x);
      var p :| Connects(m, {c}, {x}, p);
      assert Connects(m, starts, {x}, p);
    }
  }

  /**
   * The transitive queries: `item` is looked up, every member of its scope
   * is searched from, the answers are gathered by `for_every_package_item`
   * and the item itself is removed.
   */
  method TransitiveItems(info: PackageInfo, m: map<PackageItemToken, set<PackageItemToken>>, item: PackageItemToken)
    returns (r: Result<set<PackageItemToken>, Error>)
    requires WellFormed(info)
    ensures r.Ok? <==> Known(info, item)
    ensures r.Err? ==> r.error == ItemError(item)
    ensures r.Ok? ==> forall x :: x in r.value <==> Transitive(m, info, item, x)
  {
    var got := GetItem(info, item);
    if got.Err? {
      return Err(got.error);
    }
    var scope := Scope(info, item);
    var reaches := ReachFromEach(m, scope);
    var items := ForEveryPackageItem(info, item, c => Get(reaches, c));
    r := Ok(items.value - {item});
    forall x
      ensures x in r.value <==> Transitive(m, info, item, x)
    {
      ReachableFromSome(m, scope, x);
    }
  }

  /** `get_downstream_items`: everything the item, or the package's contents, imports directly or indirectly. */
  method GetDownstreamItems(ii: ImportsInfo, item: PackageItemToken) returns (r: Result<set<PackageItemToken>, Error>)
    requires ii.Valid() && ii.Initialised()
    ensures r.Ok? <==> Known(ii.packageInfo, item)
    ensures r.Err? ==> r.error == ItemError(item)
    ensures r.Ok? ==> forall x :: x in r.value <==> Transitive(ii.internalImports, ii.packageInfo, item, x)
  {
    r := TransitiveItems(ii.packageInfo, ii.internalImports, item);
  }

  /** `get_upstream_items`: everything that imports the item, or the package's contents, directly or indirectly. */
  method GetUpstreamItems(ii: ImportsInfo, item: PackageItemToken) returns (r: Result<set<PackageItemToken>, Error>)
    requires ii.Valid() && ii.Initialised()
    ensures r.Ok? <==> Known(ii.packageInfo, item)
    ensures r.Err? ==> r.error == ItemError(item)
    ensures r.Ok? ==> forall x :: x in r.value <==> Transitive(ii.reverseInternalImports, ii.packageInfo, item, x)
  {
    r := TransitiveItems(ii.packageInfo, ii.reverseInternalImports, item);
  }

  /** A path of the forward map read backwards is a path of a mirrored reverse map. */
  lemma BackwardsPath<T(!new)>(fwd: map<T, set<T>>, rev: map<T, set<T>>, p: seq<T>)
    requires Mirrored(fwd, rev) && IsPath(fwd, p)
    ensures IsPath(rev, Backwards(p))
  {
    var b := Backwards(p);
    PathSteps(fwd, p);
    PathSteps(rev, b);
    forall i | 0 <= i < |b| - 1
      ensures b[i + 1] in Succs(rev, b[i])
    {
      var j := |p| - 2 - i;
      assert b[i] == p[j + 1] && b[i + 1] == p[j];
      assert p[j + 1] in Succs(fwd, p[j]);
      assert p[j + 1] in Get(fwd, p[j]);
      assert p[j] in Get(rev, p[j + 1]);
    }
  }

  /** Over mirrored maps, `b` is reached from `a` forwards exactly when `a` is reached from `b` backwards. */
  lemma ReachableMirrored<T(!new)>(fwd: map<T, set<T>>, rev: map<T, set<T>>, a: T, b: T)
    requires Mirrored(fwd, rev)
    ensures Reachable(fwd, {a}, b) <==> Reachable(rev, {b}, a)
  {
    if Reachable(fwd, {a}, b) {
      var p :| Connects(fwd, {a}, {b}, p);
      BackwardsPath(fwd, rev, p);
      assert Connects(rev, {b}, {a}, Backwards(p));
    }
    if Reachable(rev, {b}, a) {
      var p :| Connects(rev, {b}, {a}, p);
      assert Mirrored(rev, fwd);
      BackwardsPath(rev, fwd, p);
      assert Connects(fwd, {a}, {b}, Backwards(p));
    }
  }

  /** Between two modules, `b` is downstream of `a` exactly when `a` is upstream of `b`. */
  lemma UpstreamMirrorsDownstream(ii: ImportsInfo, a: nat, b: nat)
    requires ii.Valid() && a < |ii.packageInfo.modules| && b < |ii.packageInfo.modules|
    ensures Transitive(ii.internalImports, ii.packageInfo, ModuleToken(a), ModuleToken(b))
        <==> Transitive(ii.reverseInternalImports, ii.packageInfo, ModuleToken(b), ModuleToken(a))
  {
    assert Scope(ii.packageInfo, ModuleToken(a)) == {ModuleToken(a)};
    assert Scope(ii.packageInfo, ModuleToken(b)) == {ModuleToken(b)};
    ReachableMirrored(ii.internalImports, ii.reverseInternalImports, ModuleToken(a), ModuleToken(b));
  }
}
