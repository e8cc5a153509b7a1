/**
 * The item queries of the two-arena generation: the methods of
 * `PackageInfo` in src/package_discovery/mod.rs and, with the same bodies,
 * `PackageQueries` in src/package_queries/mod.rs. Unknown tokens give
 * `None`, and child tokens that are not in their arena are skipped (the
 * `filter_map`s).
 *
 * Lifted into the Result-returning generation (`Lift`: the string pypaths
 * wrapped as `Pypath`s), every query computes what its counterpart there
 * computes, so what is proved about those carries over to a built arena.
 */
module ArenaQueries {
  import opened Wrappers
  import opened FsPaths
  import opened SetOrder
  import opened ArenaPackages
  import opened FsListing
  import PI = PackageInfos
  import Pypaths

  datatype ItemToken = PackageToken(p: nat) | ModuleToken(m: nat)

  datatype Item = PackageItem(package: Package) | ModuleItem(mod: Module)

  /** `get_package`: the package under the token, nothing for a token outside the arena. */
  function GetPackage(info: PackageInfo, token: nat): (r: Option<Package>)
    ensures r.Some? <==> token < |info.packages|
    ensures r.Some? ==> r.value == info.packages[token]
  {
    if token < |info.packages| then Some(info.packages[token]) else None
  }

  /** `get_module`: the module under the token, nothing for a token outside the arena. */
  function GetModule(info: PackageInfo, token: nat): (r: Option<Module>)
    ensures r.Some? <==> token < |info.modules|
    ensures r.Some? ==> r.value == info.modules[token]
  {
    if token < |info.modules| then Some(info.modules[token]) else None
  }

  function AsPackageItem(p: Option<Package>): Option<Item>
  {
    match p
    case Some(p) => Some(PackageItem(p))
    case None => None
  }

  function AsModuleItem(m: Option<Module>): Option<Item>
  {
    match m
    case Some(m) => Some(ModuleItem(m))
    case None => None
  }

  /** `get_item`: dispatches on the kind of token. */
  function GetItem(info: PackageInfo, token: ItemToken): (r: Option<Item>)
    ensures r.Some? <==> (if token.PackageToken? then token.p < |info.packages| else token.m < |info.modules|)
    ensures r.Some? ==> r.value == (if token.PackageToken? then PackageItem(info.packages[token.p])
                                    else ModuleItem(info.modules[token.m]))
  {
    match token
    case PackageToken(p) => AsPackageItem(GetPackage(info, p))
    case ModuleToken(m) => AsModuleItem(GetModule(info, m))
  }

  /**
   * `get_item_by_path`: a path the package map holds gives a package (or
   * nothing, should its token be stale) and the module map is not
   * consulted; otherwise the module map decides.
   */
  function GetItemByPath(info: PackageInfo, path: FsPath): (r: Option<Item>)
    ensures path in info.packagesByPath ==> r == AsPackageItem(GetPackage(info, info.packagesByPath[path]))
    ensures path !in info.packagesByPath && path in info.modulesByPath ==>
      r == AsModuleItem(GetModule(info, info.modulesByPath[path]))
    ensures path !in info.packagesByPath && path !in info.modulesByPath ==> r.None?
  {
    if path in info.packagesByPath then AsPackageItem(GetPackage(info, info.packagesByPath[path]))
    else if path in info.modulesByPath then AsModuleItem(GetModule(info, info.modulesByPath[path]))
    else None
  }

  /** `get_item_by_pypath`: the same preference for packages, keyed by pypath. */
  function GetItemByPypath(info: PackageInfo, pypath: string): (r: Option<Item>)
    ensures pypath in info.packagesByPypath ==> r == AsPackageItem(GetPackage(info, info.packagesByPypath[pypath]))
    ensures pypath !in info.packagesByPypath && pypath in info.modulesByPypath ==>
      r == AsModuleItem(GetModule(info, info.modulesByPypath[pypath]))
    ensures pypath !in info.packagesByPypath && pypath !in info.modulesByPypath ==> r.None?
  {
    if pypath in info.packagesByPypath then AsPackageItem(GetPackage(info, info.packagesByPypath[pypath]))
    else if pypath in info.modulesByPypath then AsModuleItem(GetModule(info, info.modulesByPypath[pypath]))
    else None
  }

  /** `get_root`: the root package; the `unwrap` is the precondition. */
  function GetRoot(info: PackageInfo): (r: Package)
    requires info.root < |info.packages|
    ensures Some(r) == GetPackage(info, info.root)
  {
    GetPackage(info, info.root).value
  }

  /** The packages of the tokens `ts`, in order, skipping tokens outside the arena. */
  function PresentPackages(info: PackageInfo, ts: seq<nat>): (r: seq<Item>)
    ensures forall y :: y in r ==> y.PackageItem? && exists c :: c in ts && c < |info.packages| && y.package == info.packages[c]
  {
    if ts == [] then []
    else
      assert forall c :: c in ts[1..] ==> c in ts;
      (if ts[0] < |info.packages| then [PackageItem(info.packages[ts[0]])] else []) + PresentPackages(info, ts[1..])
  }

  /** The modules of the tokens `ts`, in order, skipping tokens outside the arena. */
  function PresentModules(info: PackageInfo, ts: seq<nat>): (r: seq<Item>)
    ensures forall y :: y in r ==> y.ModuleItem? && exists m :: m in ts && m < |info.modules| && y.mod == info.modules[m]
  {
    if ts == [] then []
    else
      assert forall m :: m in ts[1..] ==> m in ts;
      (if ts[0] < |info.modules| then [ModuleItem(info.modules[ts[0]])] else []) + PresentModules(info, ts[1..])
  }

  /** The children of a known package: its child packages, then its child modules (each set walked in ascending order). */
  function ChildItems(info: PackageInfo, t: nat): seq<Item>
    requires t < |info.packages|
  {
    var p := info.packages[t];
    PresentPackages(info, Ascending(p.packages)) + PresentModules(info, Ascending(p.modules))
  }

  /**
   * `get_child_items`: nothing for an unknown package; otherwise every
   * child package before every child module, each as stored, and every
   * child token that is in its arena listed.
   */
  function GetChildItems(info: PackageInfo, token: nat): (r: Option<seq<Item>>)
    ensures r.None? <==> token >= |info.packages|
    ensures r.Some? ==> r.value == ChildItems(info, token)
    ensures r.Some? ==> forall i, j :: 0 <= i < j < |r.value| && r.value[j].PackageItem? ==> r.value[i].PackageItem?
    ensures r.Some? ==> forall y :: y in r.value && y.PackageItem? ==>
      exists c :: c in info.packages[token].packages && c < |info.packages| && y.package == info.packages[c]
    ensures r.Some? ==> forall y :: y in r.value && y.ModuleItem? ==>
      exists m :: m in info.packages[token].modules && m < |info.modules| && y.mod == info.modules[m]
    ensures r.Some? ==> forall c :: c in info.packages[token].packages && c < |info.packages| ==>
      PackageItem(info.packages[c]) in r.value
    ensures r.Some? ==> forall m :: m in info.packages[token].modules && m < |info.modules| ==>
      ModuleItem(info.modules[m]) in r.value
  {
    if token < |info.packages| then
      var p := info.packages[token];
      var a, b := PresentPackages(info, Ascending(p.packages)), PresentModules(info, Ascending(p.modules));
      PackagesFirst(a, b);
      forall c | c in p.packages && c < |info.packages|
        ensures PackageItem(info.packages[c]) in a + b
      {
        PresentPackagesHas(info, Ascending(p.packages), c);
      }
      forall m | m in p.modules && m < |info.modules|
        ensures ModuleItem(info.modules[m]) in a + b
      {
        PresentModulesHas(info, Ascending(p.modules), m);
      }
      Some(a + b)
    else
      None
  }

  /** Packages before modules: an item of `a + b` is a package exactly when it lies in `a`. */
  lemma PackagesFirst(a: seq<Item>, b: seq<Item>)
    requires forall y :: y in a ==> y.PackageItem?
    requires forall y :: y in b ==> y.ModuleItem?
    ensures forall i :: 0 <= i < |a + b| ==> ((a + b)[i].PackageItem? <==> i < |a|)
  {
    forall i | 0 <= i < |a + b|
      ensures (a + b)[i].PackageItem? <==> i < |a|
    {
      if i < |a| {
        assert (a + b)[i] == a[i] && a[i] in a;
      } else {
        assert (a + b)[i] == b[i - |a|] && b[i - |a|] in b;
      }
    }
  }

  lemma {:induction false} PresentPackagesHas(info: PackageInfo, ts: seq<nat>, c: nat)
    requires c in ts && c < |info.packages|
    ensures PackageItem(info.packages[c]) in PresentPackages(info, ts)
  {
    if ts[0] != c {
      PresentPackagesHas(info, ts[1..], c);
    }
  }

  lemma {:induction false} PresentModulesHas(info: PackageInfo, ts: seq<nat>, m: nat)
    requires m in ts && m < |info.modules|
    ensures ModuleItem(info.modules[m]) in PresentModules(info, ts)
  {
    if ts[0] != m {
      PresentModulesHas(info, ts[1..], m);
    }
  }

  /** `filter_packages`: the package of a package item, nothing for a module. */
  function FilterPackages(item: Item): (r: Option<Package>)
    ensures r.Some? <==> item.PackageItem?
    ensures r.Some? ==> PackageItem(r.value) == item
  {
    match item
    case PackageItem(p) => Some(p)
    case ModuleItem(_) => None
  }

  /** `filter_modules`: the module of a module item, nothing for a package. */
  function FilterModules(item: Item): (r: Option<Module>)
    ensures r.Some? <==> item.ModuleItem?
    ensures r.Some? ==> ModuleItem(r.value) == item
  {
    match item
    case PackageItem(_) => None
    case ModuleItem(m) => Some(m)
  }

  /** `filter_map(filter_packages)` over a sequence of items. */
  function FilterAllPackages(items: seq<Item>): (r: seq<Package>)
    ensures forall p :: p in r <==> PackageItem(p) in items
  {
    if items == [] then []
    else
      var rest := FilterAllPackages(items[1..]);
      assert forall y :: y in items <==> y == items[0] || y in items[1..];
      match FilterPackages(items[0])
      case Some(p) => [p] + rest
      case None => rest
  }

  lemma {:induction false} FilterAppend(a: seq<Item>, b: seq<Item>)
    ensures FilterAllPackages(a + b) == FilterAllPackages(a) + FilterAllPackages(b)
  {
    if a != [] {
      assert (a + b)[0] == a[0] && (a + b)[1..] == a[1..] + b;
      FilterAppend(a[1..], b);
      if a[0].PackageItem? {
        assert FilterAllPackages(a + b) == [a[0].package] + FilterAllPackages(a[1..] + b);
      } else {
        assert FilterAllPackages(a + b) == FilterAllPackages(a[1..] + b);
      }
    } else {
      assert a + b == b;
    }
  }

  lemma {:induction false} NoPackages(b: seq<Item>)
    requires forall y :: y in b ==> y.ModuleItem?
    ensures FilterAllPackages(b) == []
  {
    if b != [] {
      assert b[0] in b;
      NoPackages(b[1..]);
    }
  }

  /** The child packages of a package, as `get_descendant_items` recovers them from its child items. */
  function ChildPackages(info: PackageInfo, t: nat): seq<Package>
    requires t < |info.packages|
  {
    FilterAllPackages(ChildItems(info, t))
  }

  /**
   * The shape of tree the descendant recursion needs to terminate: each
   * package knows its own token, and child packages come after their
   * parent (as `build` inserts them).
   */
  ghost predicate Tree(info: PackageInfo)
  {
    forall k :: 0 <= k < |info.packages| ==> TreeAt(info, k)
  }

  ghost predicate TreeAt(info: PackageInfo, k: nat)
    requires k < |info.packages|
  {
    info.packages[k].token == k && forall c :: c in info.packages[k].packages ==> k < c
  }

  /** The children of `t`, then, for every child package in order, its descendants. */
  function Descendants(info: PackageInfo, t: nat): seq<Item>
    requires Tree(info) && t < |info.packages|
    decreases |info.packages| - t, 1
  {
    ChildPackagesAfter(info, t);
    ChildItems(info, t) + DescendantsOfAll(info, t, ChildPackages(info, t))
  }

  function DescendantsOfAll(info: PackageInfo, t: nat, ps: seq<Package>): seq<Item>
    requires Tree(info) && t < |info.packages|
    requires forall i :: 0 <= i < |ps| ==> t < ps[i].token < |info.packages|
    decreases |info.packages| - t, 0, |ps|
  {
    if ps == [] then [] else Descendants(info, ps[0].token) + DescendantsOfAll(info, t, ps[1..])
  }

  /** The child packages of `t` are stored packages with larger tokens. */
  lemma ChildPackagesAfter(info: PackageInfo, t: nat)
    requires Tree(info) && t < |info.packages|
    ensures forall q :: q in ChildPackages(info, t) ==> t < q.token < |info.packages| && q == info.packages[q.token]
    ensures forall i :: 0 <= i < |ChildPackages(info, t)| ==> t < ChildPackages(info, t)[i].token < |info.packages|
  {
    var p := info.packages[t];
    var a, b := PresentPackages(info, Ascending(p.packages)), PresentModules(info, Ascending(p.modules));
    FilterAppend(a, b);
    NoPackages(b);
    assert TreeAt(info, t);
    forall q | q in ChildPackages(info, t)
      ensures t < q.token < |info.packages| && q == info.packages[q.token]
    {
      assert PackageItem(q) in a;
      var c :| c in Ascending(p.packages) && c < |info.packages| && q == info.packages[c];
      assert TreeAt(info, c);
    }
    forall i | 0 <= i < |ChildPackages(info, t)|
      ensures t < ChildPackages(info, t)[i].token < |info.packages|
    {
      assert ChildPackages(info, t)[i] in ChildPackages(info, t);
    }
  }

  /** `get_descendant_items`: nothing for an unknown package, otherwise the descendant recursion. */
  function GetDescendantItems(info: PackageInfo, token: nat): (r: Option<seq<Item>>)
    requires Tree(info)
    ensures r.None? <==> token >= |info.packages|
    ensures r.Some? ==> r.value == Descendants(info, token)
    ensures r.Some? ==> forall y :: y in ChildItems(info, token) ==> y in r.value
  {
    if token < |info.packages| then Some(Descendants(info, token)) else None
  }

  /** `get_all_items`: the root package, then all its descendants. */
  function GetAllItems(info: PackageInfo): (r: seq<Item>)
    requires Tree(info) && info.root < |info.packages|
    ensures |r| >= 1 && r[0] == PackageItem(info.packages[info.root])
    ensures r[1..] == GetDescendantItems(info, info.root).value
  {
    [PackageItem(GetRoot(info))] + GetDescendantItems(info, info.root).value
  }

  // ---------------------------------------------------------------------
  // The same queries, seen through the Result-returning generation
  // ---------------------------------------------------------------------

  function LiftPackage(p: Package): PI.Package
  {
    PI.Package(p.path, Pypaths.Pypath(p.pypath), p.token, p.parent, p.packages, p.modules, p.initModule)
  }

  function LiftModule(m: Module): PI.Module
  {
    PI.Module(m.path, Pypaths.Pypath(m.pypath), m.isInit, m.token, m.parent)
  }

  function LiftItem(y: Item): PI.PackageItem
  {
    match y
    case PackageItem(p) => PI.PackageEntry(LiftPackage(p))
    case ModuleItem(m) => PI.ModuleEntry(LiftModule(m))
  }

  function LiftItems(ys: seq<Item>): (r: seq<PI.PackageItem>)
    ensures |r| == |ys| && forall i :: 0 <= i < |ys| ==> r[i] == LiftItem(ys[i])
  {
    if ys == [] then [] else [LiftItem(ys[0])] + LiftItems(ys[1..])
  }

  function LiftOption(o: Option<Item>): Option<PI.PackageItem>
  {
    match o
    case Some(y) => Some(LiftItem(y))
    case None => None
  }

  function LiftToken(t: ItemToken): PI.PackageItemToken
  {
    match t
    case PackageToken(p) => PI.PackageToken(p)
    case ModuleToken(m) => PI.ModuleToken(m)
  }

  /** A map keyed by pypath strings, keyed by `Pypath`s instead. */
  function Rekey(m: map<string, nat>): (r: map<Pypaths.Pypath, nat>)
    ensures forall k :: k in r <==> k.s in m
    ensures forall k :: k in r ==> r[k] == m[k.s]
  {
    map s | s in m :: Pypaths.Pypath(s) := m[s]
  }

  /** The arenas and maps of `info`, pypaths wrapped. */
  function Lift(info: PackageInfo): (r: PI.PackageInfo)
    ensures r.root == info.root && r.packagesByPath == info.packagesByPath && r.modulesByPath == info.modulesByPath
    ensures |r.packages| == |info.packages| && forall c {:trigger r.packages[c]} :: 0 <= c < |info.packages| ==> r.packages[c] == LiftPackage(info.packages[c])
    ensures |r.modules| == |info.modules| && forall m {:trigger r.modules[m]} :: 0 <= m < |info.modules| ==> r.modules[m] == LiftModule(info.modules[m])
    ensures r.packagesByPypath == Rekey(info.packagesByPypath) && r.modulesByPypath == Rekey(info.modulesByPypath)
  {
    PI.PackageInfo(
      info.root,
      seq(|info.packages|, c requires 0 <= c < |info.packages| => LiftPackage(info.packages[c])),
      seq(|info.modules|, m requires 0 <= m < |info.modules| => LiftModule(info.modules[m])),
      info.packagesByPath, Rekey(info.packagesByPypath),
      info.modulesByPath, Rekey(info.modulesByPypath))
  }

  /** Every package and module `build` makes sits in the tree the other generation's queries expect. */
  lemma BuiltLifts(info: PackageInfo, rootPath: FsPath, fs: seq<FsItem>, test: InitTest)
    requires |rootPath| >= 1 && Built(info, rootPath, fs, test)
    ensures PI.WellFormed(Lift(info)) && PI.Linked(Lift(info)) && PI.Rooted(Lift(info))
  {
    SelfTokens(info, rootPath, fs, test);
    LiftWellFormed(info);
    LiftLinked(info);
  }

  /** Each package and module is stored under its own token. */
  lemma SelfTokens(info: PackageInfo, rootPath: FsPath, fs: seq<FsItem>, test: InitTest)
    requires |rootPath| >= 1 && RootFirst(info, rootPath) && Mirrors(info, rootPath, fs, test)
    ensures forall c :: 0 <= c < |info.packages| ==> info.packages[c].token == c
    ensures forall m :: 0 <= m < |info.modules| ==> info.modules[m].token == m
  {
    forall c | 0 < c < |info.packages|
      ensures info.packages[c].token == c
    {
      assert MadePackage(info.packages[c], Dirs(fs)[c - 1], c, rootPath);
    }
    forall m | 0 <= m < |info.modules|
      ensures info.modules[m].token == m
    {
      assert MadeModule(info.modules[m], Files(fs)[m], m, rootPath, test);
    }
  }

  lemma LiftWellFormed(info: PackageInfo)
    requires info.root == 0 && |info.packages| >= 1 && info.packages[0].parent.None?
    requires forall c :: 0 <= c < |info.packages| ==> info.packages[c].token == c
    requires forall m :: 0 <= m < |info.modules| ==> info.modules[m].token == m
    requires PackageParents(info.packages) && ModuleParents(info.packages, info.modules)
    requires ChildrenListed(info.packages, info.modules) && Indexed(info)
    ensures PI.WellFormed(Lift(info))
  {
    LiftPackagesWellFormed(info);
    LiftModulesWellFormed(info);
    LiftMapsBounded(info);
  }

  lemma LiftModulesWellFormed(info: PackageInfo)
    requires forall m :: 0 <= m < |info.modules| ==> info.modules[m].token == m
    requires ModuleParents(info.packages, info.modules)
    ensures var l := Lift(info);
      forall m :: 0 <= m < |l.modules| ==> l.modules[m].token == m && l.modules[m].parent < |l.packages|
  {
    forall m | 0 <= m < |info.modules|
      ensures info.modules[m].parent < |info.packages|
    {
      assert ModuleParentAt(info.packages, info.modules, m);
    }
  }

  lemma LiftMapsBounded(info: PackageInfo)
    requires Indexed(info)
    ensures var l := Lift(info);
      && (forall k :: k in l.packagesByPath ==> l.packagesByPath[k] < |l.packages|)
      && (forall k :: k in l.packagesByPypath ==> l.packagesByPypath[k] < |l.packages|)
      && (forall k :: k in l.modulesByPath ==> l.modulesByPath[k] < |l.modules|)
      && (forall k :: k in l.modulesByPypath ==> l.modulesByPypath[k] < |l.modules|)
  {
    RekeyBounded(info.packagesByPypath, |info.packages|);
    RekeyBounded(info.modulesByPypath, |info.modules|);
  }

  lemma LiftPackagesWellFormed(info: PackageInfo)
    requires |info.packages| >= 1 && info.packages[0].parent.None?
    requires forall c :: 0 <= c < |info.packages| ==> info.packages[c].token == c
    requires PackageParents(info.packages) && ChildrenListed(info.packages, info.modules)
    ensures forall c :: 0 <= c < |info.packages| ==> PI.PackageWellFormed(Lift(info), c)
  {
    var l := Lift(info);
    forall c | 0 <= c < |l.packages|
      ensures PI.PackageWellFormed(l, c)
    {
      ShapeAt(info.packages, info.modules, c);
    }
  }

  lemma ShapeAt(packages: seq<Package>, modules: seq<Module>, c: nat)
    requires c < |packages| && packages[0].parent.None?
    requires PackageParents(packages) && ChildrenOf(packages, modules, c)
    ensures forall d :: d in packages[c].packages ==> c < d < |packages|
    ensures forall m :: m in packages[c].modules ==> m < |modules|
    ensures packages[c].parent.Some? ==> packages[c].parent.value < c
    ensures packages[c].initModule.Some? ==> packages[c].initModule.value < |modules|
  {
    forall d | d in packages[c].packages
      ensures c < d < |packages|
    {
      assert PackageParentAt(packages, d);
    }
    if c != 0 {
      assert PackageParentAt(packages, c);
    }
  }

  lemma RekeyBounded(m: map<string, nat>, n: nat)
    requires forall s :: s in m ==> m[s] < n
    ensures forall k :: k in Rekey(m) ==> Rekey(m)[k] < n
  {
    forall k | k in Rekey(m)
      ensures Rekey(m)[k] < n
    {
      assert Pypaths.Pypath(k.s) == k;
    }
  }

  lemma LiftLinked(info: PackageInfo)
    requires info.root == 0 && |info.packages| >= 1 && info.packages[0].parent.None?
    requires PackageParents(info.packages) && ChildrenListed(info.packages, info.modules)
    requires PI.WellFormed(Lift(info))
    ensures PI.Linked(Lift(info)) && PI.Rooted(Lift(info))
  {
    LiftLinkedPackages(info);
    LiftLinkedModules(info);
    LiftRooted(info);
  }

  lemma LiftRooted(info: PackageInfo)
    requires info.root == 0 && |info.packages| >= 1 && info.packages[0].parent.None? && PackageParents(info.packages)
    ensures var l := Lift(info);
      forall c :: 0 <= c < |l.packages| ==> (l.packages[c].parent.None? <==> c == l.root)
  {
    var l := Lift(info);
    forall c | 0 < c < |l.packages|
      ensures l.packages[c].parent.Some?
    {
      assert PackageParentAt(info.packages, c);
    }
  }

  lemma LiftLinkedPackages(info: PackageInfo)
    requires |info.packages| >= 1 && info.packages[0].parent.None? && ChildrenListed(info.packages, info.modules)
    ensures var l := Lift(info);
      forall i, c :: 0 <= i < |l.packages| && 0 <= c < |l.packages| ==>
        (c in l.packages[i].packages <==> l.packages[c].parent == Some(i))
  {
    var l := Lift(info);
    forall i, c | 0 <= i < |l.packages| && 0 <= c < |l.packages|
      ensures c in l.packages[i].packages <==> l.packages[c].parent == Some(i)
    {
      LinkedAt(info.packages, info.modules, i, c, 0);
    }
  }

  lemma LiftLinkedModules(info: PackageInfo)
    requires |info.packages| >= 1 && info.packages[0].parent.None? && ChildrenListed(info.packages, info.modules)
    ensures var l := Lift(info);
      forall i, m :: 0 <= i < |l.packages| && 0 <= m < |l.modules| ==>
        (m in l.packages[i].modules <==> l.modules[m].parent == i)
  {
    var l := Lift(info);
    forall i, m | 0 <= i < |l.packages| && 0 <= m < |l.modules|
      ensures m in l.packages[i].modules <==> l.modules[m].parent == i
    {
      LinkedAt(info.packages, info.modules, i, 0, m);
    }
  }

  lemma LinkedAt(packages: seq<Package>, modules: seq<Module>, i: nat, c: nat, m: nat)
    requires i < |packages| && c < |packages| && packages[0].parent.None?
    requires ChildrenOf(packages, modules, i)
    ensures c in packages[i].packages <==> packages[c].parent == Some(i)
    ensures m < |modules| ==> (m in packages[i].modules <==> modules[m].parent == i)
  {
  }


  lemma WellFormedTree(info: PackageInfo)
    requires PI.WellFormed(Lift(info))
    ensures Tree(info)
  {
    forall k | 0 <= k < |info.packages|
      ensures TreeAt(info, k)
    {
      assert PI.PackageWellFormed(Lift(info), k);
    }
  }

  lemma LiftAppend(a: seq<Item>, b: seq<Item>)
    ensures LiftItems(a + b) == LiftItems(a) + LiftItems(b)
  {
    var l, la, lb := LiftItems(a + b), LiftItems(a), LiftItems(b);
    forall i | 0 <= i < |a + b|
      ensures l[i] == (la + lb)[i]
    {
      if i < |a| {
        assert (a + b)[i] == a[i];
      } else {
        assert (a + b)[i] == b[i - |a|];
      }
    }
    assert |l| == |la + lb|;
  }

  /** With every token in its arena, nothing is skipped. */
  lemma {:induction false} PresentPackagesAll(info: PackageInfo, ts: seq<nat>)
    requires forall i :: 0 <= i < |ts| ==> ts[i] < |info.packages|
    ensures |PresentPackages(info, ts)| == |ts|
    ensures forall i :: 0 <= i < |ts| ==> PresentPackages(info, ts)[i] == PackageItem(info.packages[ts[i]])
  {
    if ts != [] {
      PresentPackagesAll(info, ts[1..]);
    }
  }

  lemma {:induction false} PresentModulesAll(info: PackageInfo, ts: seq<nat>)
    requires forall i :: 0 <= i < |ts| ==> ts[i] < |info.modules|
    ensures |PresentModules(info, ts)| == |ts|
    ensures forall i :: 0 <= i < |ts| ==> PresentModules(info, ts)[i] == ModuleItem(info.modules[ts[i]])
  {
    if ts != [] {
      PresentModulesAll(info, ts[1..]);
    }
  }

  lemma {:induction false} FilterAllOfPackages(ys: seq<Item>)
    requires forall i :: 0 <= i < |ys| ==> ys[i].PackageItem?
    ensures |FilterAllPackages(ys)| == |ys|
    ensures forall i :: 0 <= i < |ys| ==> FilterAllPackages(ys)[i] == ys[i].package
  {
    if ys != [] {
      FilterAllOfPackages(ys[1..]);
    }
  }

  /** `get_child_items` lifts to its counterpart. */
  lemma ChildItemsLift(info: PackageInfo, t: nat)
    requires PI.WellFormed(Lift(info)) && t < |info.packages|
    ensures LiftItems(ChildItems(info, t)) == PI.ChildItems(Lift(info), t)
  {
    var l := Lift(info);
    var p := info.packages[t];
    assert PI.PackageWellFormed(l, t);
    var ps, ms := Ascending(p.packages), Ascending(p.modules);
    PackageEntriesLift(info, ps);
    ModuleEntriesLift(info, ms);
    LiftAppend(PresentPackages(info, ps), PresentModules(info, ms));
  }

  lemma PackageEntriesLift(info: PackageInfo, ts: seq<nat>)
    requires forall i :: 0 <= i < |ts| ==> ts[i] < |info.packages|
    ensures LiftItems(PresentPackages(info, ts)) == PI.PackageEntries(Lift(info), ts)
  {
    PresentPackagesAll(info, ts);
  }

  lemma ModuleEntriesLift(info: PackageInfo, ts: seq<nat>)
    requires forall i :: 0 <= i < |ts| ==> ts[i] < |info.modules|
    ensures LiftItems(PresentModules(info, ts)) == PI.ModuleEntries(Lift(info), ts)
  {
    PresentModulesAll(info, ts);
  }

  /** The packages the descendant recursion descends into are the child packages, in ascending token order. */
  lemma ChildPackagesTokens(info: PackageInfo, t: nat)
    requires PI.WellFormed(Lift(info)) && t < |info.packages|
    ensures var cs := Ascending(info.packages[t].packages);
      |ChildPackages(info, t)| == |cs| && forall i :: 0 <= i < |cs| ==> ChildPackages(info, t)[i].token == cs[i]
  {
    var l := Lift(info);
    var p := info.packages[t];
    assert PI.PackageWellFormed(l, t);
    var ps, ms := Ascending(p.packages), Ascending(p.modules);
    var a, b := PresentPackages(info, ps), PresentModules(info, ms);
    PresentPackagesAll(info, ps);
    FilterAppend(a, b);
    NoPackages(b);
    FilterAllOfPackages(a);
    forall i | 0 <= i < |ps|
      ensures ChildPackages(info, t)[i].token == ps[i]
    {
      assert PI.PackageWellFormed(l, ps[i]);
    }
  }

  /** `get_descendant_items` lifts to its counterpart. */
  lemma {:induction false} DescendantsLift(info: PackageInfo, t: nat)
    requires Tree(info) && PI.WellFormed(Lift(info)) && t < |info.packages|
    ensures LiftItems(Descendants(info, t)) == PI.Descendants(Lift(info), t)
    decreases |info.packages| - t, 1
  {
    var l := Lift(info);
    assert PI.PackageWellFormed(l, t);
    ChildPackagesAfter(info, t);
    ChildPackagesTokens(info, t);
    ChildItemsLift(info, t);
    DescendantsOfAllLift(info, t, ChildPackages(info, t), Ascending(info.packages[t].packages));
    LiftAppend(ChildItems(info, t), DescendantsOfAll(info, t, ChildPackages(info, t)));
  }

  lemma {:induction false} DescendantsOfAllLift(info: PackageInfo, t: nat, ps: seq<Package>, cs: seq<nat>)
    requires Tree(info) && PI.WellFormed(Lift(info)) && t < |info.packages|
    requires |ps| == |cs| && forall i :: 0 <= i < |cs| ==> t < cs[i] < |info.packages| && ps[i].token == cs[i]
    ensures LiftItems(DescendantsOfAll(info, t, ps)) == PI.DescendantsOfAll(Lift(info), t, cs)
    decreases |info.packages| - t, 0, |ps|
  {
    if ps != [] {
      var l, ps', cs' := Lift(info), ps[1..], cs[1..];
      TailPairs(info, t, ps, cs);
      DescendantsLift(info, cs[0]);
      DescendantsOfAllLift(info, t, ps', cs');
      ConsLift(Descendants(info, cs[0]), DescendantsOfAll(info, t, ps'),
               PI.Descendants(l, cs[0]), PI.DescendantsOfAll(l, t, cs'));
    }
  }

  lemma TailPairs(info: PackageInfo, t: nat, ps: seq<Package>, cs: seq<nat>)
    requires |ps| == |cs| > 0 && forall i :: 0 <= i < |cs| ==> t < cs[i] < |info.packages| && ps[i].token == cs[i]
    ensures var ps', cs' := ps[1..], cs[1..];
      |ps'| == |cs'| && forall i :: 0 <= i < |cs'| ==> t < cs'[i] < |info.packages| && ps'[i].token == cs'[i]
  {
  }

  lemma ConsLift(a: seq<Item>, b: seq<Item>, x: seq<PI.PackageItem>, y: seq<PI.PackageItem>)
    requires LiftItems(a) == x && LiftItems(b) == y
    ensures LiftItems(a + b) == x + y
  {
    LiftAppend(a, b);
  }

  /** `get_all_items` lifts to its counterpart. */
  lemma AllItemsLift(info: PackageInfo)
    requires Tree(info) && PI.WellFormed(Lift(info))
    ensures LiftItems(GetAllItems(info)) == PI.GetAllItems(Lift(info))
  {
    DescendantsLift(info, info.root);
    LiftAppend([PackageItem(GetRoot(info))], Descendants(info, info.root));
  }

  /** `get_item` answers as its counterpart does, minus the error's reason. */
  lemma ItemLift(info: PackageInfo, token: ItemToken)
    ensures PI.GetItem(Lift(info), LiftToken(token)).Ok? <==> GetItem(info, token).Some?
    ensures GetItem(info, token).Some? ==> PI.GetItem(Lift(info), LiftToken(token)).value == LiftItem(GetItem(info, token).value)
  {
  }

  /** `get_item_by_path` answers as its counterpart does on a well-formed arena. */
  lemma ItemByPathLift(info: PackageInfo, path: FsPath)
    requires PI.WellFormed(Lift(info))
    ensures PI.GetItemByPath(Lift(info), path) == LiftOption(GetItemByPath(info, path))
  {
  }

  /** `get_item_by_pypath` answers as its counterpart does on a well-formed arena. */
  lemma ItemByPypathLift(info: PackageInfo, pypath: string)
    requires PI.WellFormed(Lift(info))
    ensures PI.GetItemByPypath(Lift(info), Pypaths.Pypath(pypath)) == LiftOption(GetItemByPypath(info, pypath))
  {
    if pypath in info.packagesByPypath {
      PackageByPypathLift(info, pypath);
    } else if pypath in info.modulesByPypath {
      ModuleByPypathLift(info, pypath);
    } else {
      var l, k := Lift(info), Pypaths.Pypath(pypath);
      assert k !in l.packagesByPypath && k !in l.modulesByPypath;
    }
  }

  lemma PackageByPypathLift(info: PackageInfo, pypath: string)
    requires PI.WellFormed(Lift(info)) && pypath in info.packagesByPypath
    ensures PI.GetItemByPypath(Lift(info), Pypaths.Pypath(pypath)) == LiftOption(GetItemByPypath(info, pypath))
  {
    var l, k := Lift(info), Pypaths.Pypath(pypath);
    var c := info.packagesByPypath[pypath];
    assert k in l.packagesByPypath && l.packagesByPypath[k] == c;
    var p := info.packages[c];
    assert PI.GetItemByPypath(l, k) == Some(PI.PackageEntry(LiftPackage(p)));
  }

  lemma ModuleByPypathLift(info: PackageInfo, pypath: string)
    requires PI.WellFormed(Lift(info)) && pypath !in info.packagesByPypath && pypath in info.modulesByPypath
    ensures PI.GetItemByPypath(Lift(info), Pypaths.Pypath(pypath)) == LiftOption(GetItemByPypath(info, pypath))
  {
    var l, k := Lift(info), Pypaths.Pypath(pypath);
    var m := info.modulesByPypath[pypath];
    assert k !in l.packagesByPypath && k in l.modulesByPypath && l.modulesByPypath[k] == m;
    var d := info.modules[m];
    assert PI.GetItemByPypath(l, k) == Some(PI.ModuleEntry(LiftModule(d)));
  }


  // ---------------------------------------------------------------------
  // What a built arena's queries return
  // ---------------------------------------------------------------------

  /** The item is the arena's entry for its own token. */
  ghost predicate Stored(info: PackageInfo, y: Item)
  {
    match y
    case PackageItem(p) => p.token < |info.packages| && info.packages[p.token] == p
    case ModuleItem(m) => m.token < |info.modules| && info.modules[m.token] == m
  }

  /**
   * When every lifted item is stored, an arena entry is among the items
   * exactly when its token is among the lifted items' tokens.
   */
  lemma TokensTransfer(info: PackageInfo, ys: seq<Item>)
    requires forall z :: z in LiftItems(ys) ==> PI.Known(Lift(info), PI.Token(z)) && z == PI.ItemAt(Lift(info), PI.Token(z))
    requires forall c :: 0 <= c < |info.packages| ==> info.packages[c].token == c
    requires forall m :: 0 <= m < |info.modules| ==> info.modules[m].token == m
    ensures forall y :: y in ys ==> Stored(info, y)
    ensures forall c :: 0 <= c < |info.packages| ==>
      (PackageItem(info.packages[c]) in ys <==> PI.PackageToken(c) in PI.Tokens(LiftItems(ys)))
    ensures forall m :: 0 <= m < |info.modules| ==>
      (ModuleItem(info.modules[m]) in ys <==> PI.ModuleToken(m) in PI.Tokens(LiftItems(ys)))
  {
    forall y | y in ys
      ensures Stored(info, y)
    {
      var i :| 0 <= i < |ys| && ys[i] == y;
      assert LiftItems(ys)[i] in LiftItems(ys);
    }
    forall c | 0 <= c < |info.packages|
      ensures PackageItem(info.packages[c]) in ys <==> PI.PackageToken(c) in PI.Tokens(LiftItems(ys))
    {
      PackageTransfer(info, ys, c);
    }
    forall m | 0 <= m < |info.modules|
      ensures ModuleItem(info.modules[m]) in ys <==> PI.ModuleToken(m) in PI.Tokens(LiftItems(ys))
    {
      ModuleTransfer(info, ys, m);
    }
  }

  lemma PackageTransfer(info: PackageInfo, ys: seq<Item>, c: nat)
    requires forall z :: z in LiftItems(ys) ==> PI.Known(Lift(info), PI.Token(z)) && z == PI.ItemAt(Lift(info), PI.Token(z))
    requires c < |info.packages| && info.packages[c].token == c
    ensures PackageItem(info.packages[c]) in ys <==> PI.PackageToken(c) in PI.Tokens(LiftItems(ys))
  {
    var zs, x := LiftItems(ys), PI.PackageToken(c);
    if PackageItem(info.packages[c]) in ys {
      var i :| 0 <= i < |ys| && ys[i] == PackageItem(info.packages[c]);
      assert zs[i] in zs && PI.Token(zs[i]) == x;
    }
    if x in PI.Tokens(zs) {
      var z :| z in zs && PI.Token(z) == x;
      var i :| 0 <= i < |zs| && zs[i] == z;
      assert z == PI.PackageEntry(LiftPackage(info.packages[c]));
      assert ys[i] == PackageItem(info.packages[c]);
    }
  }

  lemma ModuleTransfer(info: PackageInfo, ys: seq<Item>, m: nat)
    requires forall z :: z in LiftItems(ys) ==> PI.Known(Lift(info), PI.Token(z)) && z == PI.ItemAt(Lift(info), PI.Token(z))
    requires m < |info.modules| && info.modules[m].token == m
    ensures ModuleItem(info.modules[m]) in ys <==> PI.ModuleToken(m) in PI.Tokens(LiftItems(ys))
  {
    if ModuleItem(info.modules[m]) in ys {
      ModuleTokenLifted(info, ys, m);
    }
    if PI.ModuleToken(m) in PI.Tokens(LiftItems(ys)) {
      var z :| z in LiftItems(ys) && PI.Token(z) == PI.ModuleToken(m);
      assert z == PI.ItemAt(Lift(info), PI.ModuleToken(m));
      ModuleItemUnlifted(info, ys, m, z);
    }
  }

  lemma ModuleTokenLifted(info: PackageInfo, ys: seq<Item>, m: nat)
    requires m < |info.modules| && info.modules[m].token == m && ModuleItem(info.modules[m]) in ys
    ensures PI.ModuleToken(m) in PI.Tokens(LiftItems(ys))
  {
    var zs := LiftItems(ys);
    var i :| 0 <= i < |ys| && ys[i] == ModuleItem(info.modules[m]);
    assert zs[i] in zs && PI.Token(zs[i]) == PI.ModuleToken(m);
  }

  lemma ModuleItemUnlifted(info: PackageInfo, ys: seq<Item>, m: nat, z: PI.PackageItem)
    requires m < |info.modules| && z in LiftItems(ys) && z == PI.ModuleEntry(LiftModule(info.modules[m]))
    ensures ModuleItem(info.modules[m]) in ys
  {
    var zs := LiftItems(ys);
    var i :| 0 <= i < |zs| && zs[i] == z;
    assert ys[i] == ModuleItem(info.modules[m]);
  }

  /**
   * `get_all_items` on the arenas `build` makes: the root and every
   * package and module under it, each as stored.
   */
  lemma AllItemsOfBuilt(info: PackageInfo, rootPath: FsPath, fs: seq<FsItem>, test: InitTest)
    requires |rootPath| >= 1 && Built(info, rootPath, fs, test)
    ensures Tree(info) && info.root < |info.packages|
    ensures forall c :: 0 <= c < |info.packages| ==> PackageItem(info.packages[c]) in GetAllItems(info)
    ensures forall m :: 0 <= m < |info.modules| ==> ModuleItem(info.modules[m]) in GetAllItems(info)
    ensures forall y :: y in GetAllItems(info) ==> Stored(info, y)
  {
    BuiltLifts(info, rootPath, fs, test);
    WellFormedTree(info);
    AllItemsOfTree(info);
  }

  lemma AllItemsOfTree(info: PackageInfo)
    requires PI.WellFormed(Lift(info)) && PI.Linked(Lift(info)) && PI.Rooted(Lift(info)) && Tree(info)
    ensures forall c :: 0 <= c < |info.packages| ==> PackageItem(info.packages[c]) in GetAllItems(info)
    ensures forall m :: 0 <= m < |info.modules| ==> ModuleItem(info.modules[m]) in GetAllItems(info)
    ensures forall y :: y in GetAllItems(info) ==> Stored(info, y)
  {
    var l, g := Lift(info), GetAllItems(info);
    AllItemsLift(info);
    PI.AllItemsComplete(l);
    PI.GetAllItemsStored(l);
    LiftedTokens(info);
    TokensTransfer(info, g);
    forall c | 0 <= c < |info.packages|
      ensures PackageItem(info.packages[c]) in g
    {
      assert PI.Known(l, PI.PackageToken(c));
    }
    forall m | 0 <= m < |info.modules|
      ensures ModuleItem(info.modules[m]) in g
    {
      assert PI.Known(l, PI.ModuleToken(m));
    }
  }

  lemma LiftedTokens(info: PackageInfo)
    requires PI.WellFormed(Lift(info))
    ensures forall c :: 0 <= c < |info.packages| ==> info.packages[c].token == c
    ensures forall m :: 0 <= m < |info.modules| ==> info.modules[m].token == m
  {
    forall c | 0 <= c < |info.packages|
      ensures info.packages[c].token == c
    {
      assert PI.PackageWellFormed(Lift(info), c);
    }
    forall m | 0 <= m < |info.modules|
      ensures info.modules[m].token == m
    {
      assert Lift(info).modules[m].token == m;
    }
  }

  /**
   * `get_descendant_items` on the arenas `build` makes: exactly the items
   * from which climbing `parent` links reaches the package.
   */
  lemma DescendantsOfBuilt(info: PackageInfo, rootPath: FsPath, fs: seq<FsItem>, t: nat, test: InitTest)
    requires |rootPath| >= 1 && Built(info, rootPath, fs, test) && t < |info.packages|
    ensures Tree(info) && PI.WellFormed(Lift(info))
    ensures forall c :: 0 <= c < |info.packages| ==>
      (PackageItem(info.packages[c]) in GetDescendantItems(info, t).value <==> PI.Below(Lift(info), t, PI.PackageToken(c)))
    ensures forall m :: 0 <= m < |info.modules| ==>
      (ModuleItem(info.modules[m]) in GetDescendantItems(info, t).value <==> PI.Below(Lift(info), t, PI.ModuleToken(m)))
    ensures forall y :: y in GetDescendantItems(info, t).value ==> Stored(info, y)
  {
    BuiltLifts(info, rootPath, fs, test);
    WellFormedTree(info);
    DescendantsOfTree(info, t);
  }

  lemma DescendantsOfTree(info: PackageInfo, t: nat)
    requires PI.WellFormed(Lift(info)) && PI.Linked(Lift(info)) && Tree(info) && t < |info.packages|
    ensures forall c :: 0 <= c < |info.packages| ==>
      (PackageItem(info.packages[c]) in Descendants(info, t) <==> PI.Below(Lift(info), t, PI.PackageToken(c)))
    ensures forall m :: 0 <= m < |info.modules| ==>
      (ModuleItem(info.modules[m]) in Descendants(info, t) <==> PI.Below(Lift(info), t, PI.ModuleToken(m)))
    ensures forall y :: y in Descendants(info, t) ==> Stored(info, y)
  {
    var l := Lift(info);
    DescendantsLift(info, t);
    PI.DescendantsFollowParents(l, t);
    PI.DescendantsStored(l, t);
    LiftedTokens(info);
    TokensTransfer(info, Descendants(info, t));
    forall c | 0 <= c < |info.packages|
      ensures PI.Known(l, PI.PackageToken(c))
    {
    }
    forall m | 0 <= m < |info.modules|
      ensures PI.Known(l, PI.ModuleToken(m))
    {
    }
  }
}
