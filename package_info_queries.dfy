/**
 * The package tree of the current generation as read by
 * src/package_info/queries.rs and built by src/package_info/grimp_compare.rs:
 * two arenas (packages and modules, each a `SlotMap` that is only ever
 * inserted into, so a token is an index) and four lookup maps. An item token
 * says which arena it points into.
 */
module PackageInfos {
  import opened Wrappers
  import opened Errors
  import opened Pypaths
  import opened FsPaths
  import opened SetOrder

  datatype PackageItemToken = PackageToken(p: nat) | ModuleToken(m: nat)

  datatype Package = Package(
    path: FsPath,
    pypath: Pypath,
    token: nat,
    parent: Option<nat>,
    packages: set<nat>,
    modules: set<nat>,
    initModule: Option<nat>)

  datatype Module = Module(path: FsPath, pypath: Pypath, isInit: bool, token: nat, parent: nat)

  datatype PackageItem = PackageEntry(package: Package) | ModuleEntry(mod: Module)

  datatype PackageInfo = PackageInfo(
    root: nat,
    packages: seq<Package>,
    modules: seq<Module>,
    packagesByPath: map<FsPath, nat>,
    packagesByPypath: map<Pypath, nat>,
    modulesByPath: map<FsPath, nat>,
    modulesByPypath: map<Pypath, nat>)

  function Token(item: PackageItem): PackageItemToken
  {
    match item
    case PackageEntry(p) => PackageToken(p.token)
    case ModuleEntry(m) => ModuleToken(m.token)
  }

  function ItemPypath(item: PackageItem): Pypath
  {
    match item
    case PackageEntry(p) => p.pypath
    case ModuleEntry(m) => m.pypath
  }

  function Tokens(items: seq<PackageItem>): set<PackageItemToken>
  {
    set y | y in items :: Token(y)
  }

  /** The token points at an existing slot of its arena. */
  predicate Known(info: PackageInfo, t: PackageItemToken)
  {
    match t
    case PackageToken(p) => p < |info.packages|
    case ModuleToken(m) => m < |info.modules|
  }

  /** The item stored under a known token. */
  function ItemAt(info: PackageInfo, t: PackageItemToken): PackageItem
    requires Known(info, t)
  {
    match t
    case PackageToken(p) => PackageEntry(info.packages[p])
    case ModuleToken(m) => ModuleEntry(info.modules[m])
  }

  /**
   * Arena invariants: every entry knows its own token, every stored token
   * points into its arena, and a child package comes after its parent (the
   * builders insert parents first).
   */
  ghost predicate WellFormed(info: PackageInfo)
  {
    && info.root < |info.packages|
    && (forall i :: 0 <= i < |info.packages| ==> PackageWellFormed(info, i))
    && (forall i :: 0 <= i < |info.modules| ==>
          info.modules[i].token == i && info.modules[i].parent < |info.packages|)
    && (forall k :: k in info.packagesByPath ==> info.packagesByPath[k] < |info.packages|)
    && (forall k :: k in info.packagesByPypath ==> info.packagesByPypath[k] < |info.packages|)
    && (forall k :: k in info.modulesByPath ==> info.modulesByPath[k] < |info.modules|)
    && (forall k :: k in info.modulesByPypath ==> info.modulesByPypath[k] < |info.modules|)
  }

  ghost predicate PackageWellFormed(info: PackageInfo, i: nat)
    requires i < |info.packages|
  {
    var p := info.packages[i];
    && p.token == i
    && (forall c :: c in p.packages ==> i < c < |info.packages|)
    && (forall m :: m in p.modules ==> m < |info.modules|)
    && (p.parent.Some? ==> p.parent.value < i)
    && (p.initModule.Some? ==> p.initModule.value < |info.modules|)
  }

  /** The child sets and the parent fields describe the same tree. */
  ghost predicate Linked(info: PackageInfo)
  {
    && (forall i, c :: 0 <= i < |info.packages| && 0 <= c < |info.packages| ==>
          (c in info.packages[i].packages <==> info.packages[c].parent == Some(i)))
    && (forall i, m :: 0 <= i < |info.packages| && 0 <= m < |info.modules| ==>
          (m in info.packages[i].modules <==> info.modules[m].parent == i))
  }

  /** `get_item_by_path`: the package under that path if there is one, else the module, else nothing. */
  function GetItemByPath(info: PackageInfo, path: FsPath): (r: Option<PackageItem>)
    requires WellFormed(info)
    ensures path in info.packagesByPath ==> r == Some(ItemAt(info, PackageToken(info.packagesByPath[path])))
    ensures path !in info.packagesByPath && path in info.modulesByPath ==>
      r == Some(ItemAt(info, ModuleToken(info.modulesByPath[path])))
    ensures r.None? <==> path !in info.packagesByPath && path !in info.modulesByPath
  {
    if path in info.packagesByPath then
      Some(PackageEntry(GetPackage(info, info.packagesByPath[path]).value))
    else if path in info.modulesByPath then
      Some(ModuleEntry(GetModule(info, info.modulesByPath[path]).value))
    else
      None
  }

  /** `get_item_by_pypath`: the same preference for packages, keyed by pypath. */
  function GetItemByPypath(info: PackageInfo, pypath: Pypath): (r: Option<PackageItem>)
    requires WellFormed(info)
    ensures pypath in info.packagesByPypath ==> r == Some(ItemAt(info, PackageToken(info.packagesByPypath[pypath])))
    ensures pypath !in info.packagesByPypath && pypath in info.modulesByPypath ==>
      r == Some(ItemAt(info, ModuleToken(info.modulesByPypath[pypath])))
    ensures r.None? <==> pypath !in info.packagesByPypath && pypath !in info.modulesByPypath
  {
    if pypath in info.packagesByPypath then
      Some(PackageEntry(GetPackage(info, info.packagesByPypath[pypath]).value))
    else if pypath in info.modulesByPypath then
      Some(ModuleEntry(GetModule(info, info.modulesByPypath[pypath]).value))
    else
      None
  }

  /** An item found by pypath is the arena's entry for its own token. */
  lemma ByPypathStored(info: PackageInfo, pypath: Pypath)
    requires WellFormed(info)
    ensures GetItemByPypath(info, pypath).Some? ==>
      var item := GetItemByPypath(info, pypath).value;
      Known(info, Token(item)) && ItemAt(info, Token(item)) == item
  {
    if pypath in info.packagesByPypath {
      assert PackageWellFormed(info, info.packagesByPypath[pypath]);
    }
  }

  /** `get_package`: fails with `UnknownPackage` exactly for tokens outside the package arena. */
  function GetPackage(info: PackageInfo, token: nat): (r: Result<Package, Error>)
    ensures r.Ok? <==> token < |info.packages|
    ensures r.Ok? ==> r.value == info.packages[token]
    ensures r.Err? ==> r.error == UnknownPackage(token)
  {
    if token < |info.packages| then Ok(info.packages[token]) else Err(UnknownPackage(token))
  }

  /** `get_module`: fails with `UnknownModule` exactly for tokens outside the module arena. */
  function GetModule(info: PackageInfo, token: nat): (r: Result<Module, Error>)
    ensures r.Ok? <==> token < |info.modules|
    ensures r.Ok? ==> r.value == info.modules[token]
    ensures r.Err? ==> r.error == UnknownModule(token)
  {
    if token < |info.modules| then Ok(info.modules[token]) else Err(UnknownModule(token))
  }

  /** `get_item`: dispatches on the kind of token and passes the arena's error on. */
  function GetItem(info: PackageInfo, token: PackageItemToken): (r: Result<PackageItem, Error>)
    ensures r.Ok? <==> Known(info, token)
    ensures r.Ok? ==> r.value == ItemAt(info, token)
    ensures r.Err? ==> r.error == (if token.PackageToken? then UnknownPackage(token.p) else UnknownModule(token.m))
  {
    match token
    case PackageToken(p) =>
      (match GetPackage(info, p)
       case Ok(package) => Ok(PackageEntry(package))
       case Err(e) => Err(e))
    case ModuleToken(m) =>
      (match GetModule(info, m)
       case Ok(module') => Ok(ModuleEntry(module'))
       case Err(e) => Err(e))
  }

  /** `get_root`: the root package; the unwrap is the well-formedness of the arena. */
  function GetRoot(info: PackageInfo): (r: Package)
    requires WellFormed(info)
    ensures r == info.packages[info.root] && r.token == info.root
  {
    assert PackageWellFormed(info, info.root);
    GetPackage(info, info.root).value
  }

  /** The stored entries of the tokens in `ts`, in order. */
  function PackageEntries(info: PackageInfo, ts: seq<nat>): (r: seq<PackageItem>)
    requires forall i :: 0 <= i < |ts| ==> ts[i] < |info.packages|
    ensures |r| == |ts|
    ensures forall i :: 0 <= i < |ts| ==> r[i] == ItemAt(info, PackageToken(ts[i]))
  {
    if ts == [] then [] else [PackageEntry(info.packages[ts[0]])] + PackageEntries(info, ts[1..])
  }

  function ModuleEntries(info: PackageInfo, ts: seq<nat>): (r: seq<PackageItem>)
    requires forall i :: 0 <= i < |ts| ==> ts[i] < |info.modules|
    ensures |r| == |ts|
    ensures forall i :: 0 <= i < |ts| ==> r[i] == ItemAt(info, ModuleToken(ts[i]))
  {
    if ts == [] then [] else [ModuleEntry(info.modules[ts[0]])] + ModuleEntries(info, ts[1..])
  }

  /** The children of a known package: its child packages, then its child modules. */
  function ChildItems(info: PackageInfo, t: nat): seq<PackageItem>
    requires WellFormed(info) && t < |info.packages|
  {
    var p := info.packages[t];
    assert PackageWellFormed(info, t);
    PackageEntries(info, Ascending(p.packages)) + ModuleEntries(info, Ascending(p.modules))
  }

  /** Every item of `r` is the arena's entry for its own token. */
  ghost predicate AllStored(info: PackageInfo, r: seq<PackageItem>)
  {
    forall y :: y in r ==> Known(info, Token(y)) && y == ItemAt(info, Token(y))
  }

  /**
   * `r` lists the children of package `t`: every child package, then every
   * child module, each as stored in its arena and nothing else.
   */
  ghost predicate ChildListing(info: PackageInfo, t: nat, r: seq<PackageItem>)
    requires WellFormed(info) && t < |info.packages|
  {
    var p := info.packages[t];
    var n := |p.packages|;
    assert PackageWellFormed(info, t);
    && |r| == n + |p.modules|
    && AllStored(info, r)
    && (forall y :: y in r[..n] ==> y.PackageEntry? && y.package.token in p.packages)
    && (forall y :: y in r[n..] ==> y.ModuleEntry? && y.mod.token in p.modules)
    && (forall c :: c in p.packages ==> PackageEntry(info.packages[c]) in r)
    && (forall m :: m in p.modules ==> ModuleEntry(info.modules[m]) in r)
  }

  lemma ChildItemsListing(info: PackageInfo, t: nat)
    requires WellFormed(info) && t < |info.packages|
    ensures ChildListing(info, t, ChildItems(info, t))
  {
    assert PackageWellFormed(info, t);
    var p := info.packages[t];
    var a := PackageEntries(info, Ascending(p.packages));
    var b := ModuleEntries(info, Ascending(p.modules));
    assert PackagesSelfIndexed(info, p.packages) by {
      forall c | c in p.packages
        ensures c < |info.packages| && info.packages[c].token == c
      {
        assert PackageWellFormed(info, c);
      }
    }
    PackageEntriesListing(info, p.packages);
    ModuleEntriesListing(info, p.modules);
    var r := a + b;
    assert ChildItems(info, t) == r;
    assert r[..|a|] == a && r[|a|..] == b;
  }

  /** The token of each package in `s` indexes its own entry. */
  ghost predicate PackagesSelfIndexed(info: PackageInfo, s: set<nat>)
  {
    forall c :: c in s ==> c < |info.packages| && info.packages[c].token == c
  }

  ghost predicate ModulesSelfIndexed(info: PackageInfo, s: set<nat>)
  {
    forall m :: m in s ==> m < |info.modules| && info.modules[m].token == m
  }

  lemma PackageEntriesListing(info: PackageInfo, s: set<nat>)
    requires PackagesSelfIndexed(info, s)
    ensures var a := PackageEntries(info, Ascending(s));
      && |a| == |s|
      && AllStored(info, a)
      && (forall y :: y in a ==> y.PackageEntry? && y.package.token in s)
      && (forall c :: c in s ==> PackageEntry(info.packages[c]) in a)
  {
    PackageEntriesStored(info, s);
    PackageEntriesCover(info, s);
  }

  lemma PackageEntriesStored(info: PackageInfo, s: set<nat>)
    requires PackagesSelfIndexed(info, s)
    ensures var a := PackageEntries(info, Ascending(s));
      && AllStored(info, a)
      && (forall y :: y in a ==> y.PackageEntry? && y.package.token in s)
  {
    var ps := Ascending(s);
    var a := PackageEntries(info, ps);
    forall i | 0 <= i < |ps|
      ensures a[i].PackageEntry? && a[i].package.token in s && Known(info, Token(a[i])) && a[i] == ItemAt(info, Token(a[i]))
    {
      StoredPackageEntry(info, ps, i);
    }
  }

  /** The i-th package entry is the stored package, under its own token. */
  lemma StoredPackageEntry(info: PackageInfo, ps: seq<nat>, i: nat)
    requires forall j :: 0 <= j < |ps| ==> ps[j] < |info.packages|
    requires i < |ps| && info.packages[ps[i]].token == ps[i]
    ensures var y := PackageEntries(info, ps)[i];
      y.PackageEntry? && y.package.token == ps[i] && Known(info, Token(y)) && y == ItemAt(info, Token(y))
  {
  }

  lemma PackageEntriesCover(info: PackageInfo, s: set<nat>)
    requires PackagesSelfIndexed(info, s)
    ensures forall c :: c in s ==> PackageEntry(info.packages[c]) in PackageEntries(info, Ascending(s))
  {
    var ps := Ascending(s);
    var a := PackageEntries(info, ps);
    forall c | c in s
      ensures PackageEntry(info.packages[c]) in a
    {
      var i :| 0 <= i < |ps| && ps[i] == c;
      assert a[i] == PackageEntry(info.packages[c]);
    }
  }

  lemma ModuleEntriesListing(info: PackageInfo, s: set<nat>)
    requires ModulesSelfIndexed(info, s)
    ensures var b := ModuleEntries(info, Ascending(s));
      && |b| == |s|
      && AllStored(info, b)
      && (forall y :: y in b ==> y.ModuleEntry? && y.mod.token in s)
      && (forall m :: m in s ==> ModuleEntry(info.modules[m]) in b)
  {
    ModuleEntriesStored(info, s);
    ModuleEntriesCover(info, s);
  }

  lemma ModuleEntriesStored(info: PackageInfo, s: set<nat>)
    requires ModulesSelfIndexed(info, s)
    ensures var b := ModuleEntries(info, Ascending(s));
      && AllStored(info, b)
      && (forall y :: y in b ==> y.ModuleEntry? && y.mod.token in s)
  {
    var ms := Ascending(s);
    var b := ModuleEntries(info, ms);
    forall i | 0 <= i < |ms|
      ensures b[i].ModuleEntry? && b[i].mod.token in s && Known(info, Token(b[i])) && b[i] == ItemAt(info, Token(b[i]))
    {
      StoredModuleEntry(info, ms, i);
    }
  }

  /** The i-th module entry is the stored module, under its own token. */
  lemma StoredModuleEntry(info: PackageInfo, ms: seq<nat>, i: nat)
    requires forall j :: 0 <= j < |ms| ==> ms[j] < |info.modules|
    requires i < |ms| && info.modules[ms[i]].token == ms[i]
    ensures var y := ModuleEntries(info, ms)[i];
      y.ModuleEntry? && y.mod.token == ms[i] && Known(info, Token(y)) && y == ItemAt(info, Token(y))
  {
  }

  lemma ModuleEntriesCover(info: PackageInfo, s: set<nat>)
    requires ModulesSelfIndexed(info, s)
    ensures forall m :: m in s ==> ModuleEntry(info.modules[m]) in ModuleEntries(info, Ascending(s))
  {
    var ms := Ascending(s);
    var b := ModuleEntries(info, ms);
    forall m | m in s
      ensures ModuleEntry(info.modules[m]) in b
    {
      var i :| 0 <= i < |ms| && ms[i] == m;
      assert b[i] == ModuleEntry(info.modules[m]);
    }
  }

  /**
   * `get_child_items`: `UnknownPackage` for a token outside the arena;
   * otherwise the child packages of the package followed by its child
   * modules (ChildListing).
   */
  function GetChildItems(info: PackageInfo, token: nat): (r: Result<seq<PackageItem>, Error>)
    requires WellFormed(info)
    ensures r.Err? <==> token >= |info.packages|
    ensures r.Err? ==> r.error == UnknownPackage(token)
    ensures r.Ok? ==> ChildListing(info, token, r.value)
  {
    match GetPackage(info, token)
    case Err(e) => Err(e)
    case Ok(p) =>
      ChildItemsListing(info, token);
      Ok(ChildItems(info, token))
  }

  /** The rank that the descendant recursion decreases: deeper packages have larger tokens. */
  function Depth(info: PackageInfo, t: nat): nat
  {
    if t < |info.packages| then |info.packages| - t else 0
  }

  /** The children of `t`, then the descendants of each child package in the order of the children. */
  function Descendants(info: PackageInfo, t: nat): seq<PackageItem>
    requires WellFormed(info) && t < |info.packages|
    decreases Depth(info, t), 1
  {
    assert PackageWellFormed(info, t);
    ChildItems(info, t) + DescendantsOfAll(info, t, Ascending(info.packages[t].packages))
  }

  function DescendantsOfAll(info: PackageInfo, t: nat, cs: seq<nat>): seq<PackageItem>
    requires WellFormed(info) && t < |info.packages|
    requires forall i :: 0 <= i < |cs| ==> t < cs[i] < |info.packages|
    decreases Depth(info, t), 0, |cs|
  {
    if cs == [] then [] else Descendants(info, cs[0]) + DescendantsOfAll(info, t, cs[1..])
  }

  /**
   * `get_descendant_items`: `UnknownPackage` for a token outside the arena;
   * otherwise every item strictly below the package (see
   * DescendantsFollowParents) and every returned item is as stored.
   */
  function GetDescendantItems(info: PackageInfo, token: nat): (r: Result<seq<PackageItem>, Error>)
    requires WellFormed(info)
    ensures r.Err? <==> token >= |info.packages|
    ensures r.Err? ==> r.error == UnknownPackage(token)
    ensures r.Ok? ==> r.value == Descendants(info, token)
    ensures r.Ok? ==> forall y :: y in r.value ==> Known(info, Token(y)) && y == ItemAt(info, Token(y))
  {
    if token < |info.packages| then
      DescendantsStored(info, token);
      Ok(Descendants(info, token))
    else
      Err(UnknownPackage(token))
  }

  /** Every item the descendant recursion yields is the arena's entry for its token. */
  lemma {:induction false} DescendantsStored(info: PackageInfo, t: nat)
    requires WellFormed(info) && t < |info.packages|
    ensures forall y :: y in Descendants(info, t) ==> Known(info, Token(y)) && y == ItemAt(info, Token(y))
    decreases Depth(info, t), 1
  {
    assert PackageWellFormed(info, t);
    var a := ChildItems(info, t);
    var b := DescendantsOfAll(info, t, Ascending(info.packages[t].packages));
    ChildItemsListing(info, t);
    DescendantsOfAllStored(info, t, Ascending(info.packages[t].packages));
    forall y | y in a + b
      ensures Known(info, Token(y)) && y == ItemAt(info, Token(y))
    {
      if y !in b {
        var i :| 0 <= i < |a| && a[i] == y;
      }
    }
  }

  lemma {:induction false} DescendantsOfAllStored(info: PackageInfo, t: nat, cs: seq<nat>)
    requires WellFormed(info) && t < |info.packages|
    requires forall i :: 0 <= i < |cs| ==> t < cs[i] < |info.packages|
    ensures forall y :: y in DescendantsOfAll(info, t, cs) ==> Known(info, Token(y)) && y == ItemAt(info, Token(y))
    decreases Depth(info, t), 0, |cs|
  {
    if cs != [] {
      DescendantsStored(info, cs[0]);
      DescendantsOfAllStored(info, t, cs[1..]);
    }
  }

  /** `get_all_items`: the root package followed by all its descendants. */
  function GetAllItems(info: PackageInfo): (r: seq<PackageItem>)
    requires WellFormed(info)
    ensures |r| >= 1 && r[0] == PackageEntry(GetRoot(info))
    ensures r[1..] == GetDescendantItems(info, info.root).value
  {
    [PackageEntry(GetRoot(info))] + GetDescendantItems(info, info.root).value
  }

  /** `filter_packages`: the package of a package item, nothing for a module. */
  function FilterPackages(item: PackageItem): (r: Option<Package>)
    ensures r.Some? <==> item.PackageEntry?
    ensures r.Some? ==> PackageEntry(r.value) == item
  {
    match item
    case PackageEntry(p) => Some(p)
    case ModuleEntry(_) => None
  }

  /** `filter_modules`: the module of a module item, nothing for a package. */
  function FilterModules(item: PackageItem): (r: Option<Module>)
    ensures r.Some? <==> item.ModuleEntry?
    ensures r.Some? ==> ModuleEntry(r.value) == item
  {
    match item
    case PackageEntry(_) => None
    case ModuleEntry(m) => Some(m)
  }

  /** The packages among `items`, in order. */
  function FilterAllPackages(items: seq<PackageItem>): (r: seq<Package>)
    ensures forall p :: p in r <==> PackageEntry(p) in items
  {
    if items == [] then []
    else
      var rest := FilterAllPackages(items[1..]);
      assert forall y :: y in items <==> y == items[0] || y in items[1..];
      match FilterPackages(items[0])
      case Some(p) => [p] + rest
      case None => rest
  }

  // ---------------------------------------------------------------------
  // An independent description of the tree: following parent links.
  // ---------------------------------------------------------------------

  /** The parent package of a known item: the `parent` field of its entry. */
  function ParentOf(info: PackageInfo, x: PackageItemToken): Option<nat>
    requires Known(info, x)
  {
    match x
    case PackageToken(c) => info.packages[c].parent
    case ModuleToken(m) => Some(info.modules[m].parent)
  }

  /** A package's parent comes before it; a module's parent is somewhere in the arena. */
  function Rank(info: PackageInfo, x: PackageItemToken): nat
  {
    match x
    case PackageToken(c) => c
    case ModuleToken(_) => |info.packages|
  }

  /** `x` lies strictly below package `t`: climbing parent links from `x` reaches `t`. */
  ghost predicate Below(info: PackageInfo, t: nat, x: PackageItemToken)
    requires WellFormed(info) && Known(info, x)
    decreases Rank(info, x)
  {
    match ParentOf(info, x)
    case None => false
    case Some(q) =>
      assert x.PackageToken? ==> PackageWellFormed(info, x.p);
      q == t || Below(info, t, PackageToken(q))
  }

  /** Climbing one step: below `t` means a child of `t`, or below some child package of `t`. */
  lemma {:induction false} BelowTopDown(info: PackageInfo, t: nat, x: PackageItemToken)
    requires WellFormed(info) && Linked(info) && Known(info, x) && t < |info.packages|
    ensures Below(info, t, x) <==>
      ParentOf(info, x) == Some(t)
      || exists c :: c in info.packages[t].packages && Below(info, c, x)
    decreases Rank(info, x)
  {
    assert x.PackageToken? ==> PackageWellFormed(info, x.p);
    match ParentOf(info, x)
    case None =>
    case Some(q) =>
      var up := PackageToken(q);
      if q != t {
        if Below(info, t, up) {
          BelowTopDown(info, t, up);
          if ParentOf(info, up) == Some(t) {
            assert q in info.packages[t].packages && Below(info, q, x);
          } else {
            var c :| c in info.packages[t].packages && Below(info, c, up);
            assert PackageWellFormed(info, t);
            assert Below(info, c, x);
          }
        }
        if exists c :: c in info.packages[t].packages && Below(info, c, x) {
          var c :| c in info.packages[t].packages && Below(info, c, x);
          assert PackageWellFormed(info, t);
          ChildOfAncestorIsBelow(info, t, c, x);
        }
      }
  }

  /** Whatever lies below a child of `t` lies below `t`. */
  lemma {:induction false} ChildOfAncestorIsBelow(info: PackageInfo, t: nat, c: nat, x: PackageItemToken)
    requires WellFormed(info) && Linked(info) && Known(info, x) && t < |info.packages|
    requires c < |info.packages| && c in info.packages[t].packages
    requires Below(info, c, x)
    ensures Below(info, t, x)
    decreases Rank(info, x)
  {
    assert x.PackageToken? ==> PackageWellFormed(info, x.p);
    var q := ParentOf(info, x).value;
    if q == c {
      assert ParentOf(info, PackageToken(c)) == Some(t);
      assert Below(info, t, PackageToken(q));
    } else {
      ChildOfAncestorIsBelow(info, t, c, PackageToken(q));
    }
  }

  /** The tokens of the children are exactly the items whose parent is `t`. */
  lemma ChildTokens(info: PackageInfo, t: nat)
    requires WellFormed(info) && Linked(info) && t < |info.packages|
    ensures forall x :: x in Tokens(ChildItems(info, t)) ==> Known(info, x)
    ensures forall x :: Known(info, x) ==> (x in Tokens(ChildItems(info, t)) <==> ParentOf(info, x) == Some(t))
  {
    ChildItemsListing(info, t);
    ChildTokensSound(info, t, ChildItems(info, t));
    ChildTokensComplete(info, t, ChildItems(info, t));
  }

  lemma ChildTokensSound(info: PackageInfo, t: nat, r: seq<PackageItem>)
    requires WellFormed(info) && Linked(info) && t < |info.packages|
    requires ChildListing(info, t, r)
    ensures forall x :: x in Tokens(r) ==> Known(info, x) && ParentOf(info, x) == Some(t)
  {
    assert PackageWellFormed(info, t);
    var p := info.packages[t];
    var n := |p.packages|;
    assert r == r[..n] + r[n..];
    forall x | x in Tokens(r)
      ensures Known(info, x) && ParentOf(info, x) == Some(t)
    {
      var y :| y in r && Token(y) == x;
      if y in r[..n] {
        assert x == PackageToken(y.package.token);
      } else {
        assert y in r[n..];
        assert x == ModuleToken(y.mod.token);
      }
    }
  }

  lemma ChildTokensComplete(info: PackageInfo, t: nat, r: seq<PackageItem>)
    requires WellFormed(info) && Linked(info) && t < |info.packages|
    requires ChildListing(info, t, r)
    ensures forall x :: Known(info, x) && ParentOf(info, x) == Some(t) ==> x in Tokens(r)
  {
    forall x | Known(info, x) && ParentOf(info, x) == Some(t)
      ensures x in Tokens(r)
    {
      match x
      case PackageToken(c) =>
        assert PackageWellFormed(info, c);
        assert Token(PackageEntry(info.packages[c])) == x;
      case ModuleToken(m) =>
        assert Token(ModuleEntry(info.modules[m])) == x;
    }
  }

  lemma TokensAppend(a: seq<PackageItem>, b: seq<PackageItem>)
    ensures forall x :: x in Tokens(a + b) <==> x in Tokens(a) || x in Tokens(b)
  {
    forall x | x in Tokens(a + b)
      ensures x in Tokens(a) || x in Tokens(b)
    {
      var y :| y in a + b && Token(y) == x;
    }
    forall x | x in Tokens(a) || x in Tokens(b)
      ensures x in Tokens(a + b)
    {
      if x in Tokens(a) {
        var y :| y in a && Token(y) == x;
        assert y in a + b;
      } else {
        var y :| y in b && Token(y) == x;
        assert y in a + b;
      }
    }
  }

  lemma {:induction false} DescendantsOfAllTokens(info: PackageInfo, t: nat, cs: seq<nat>)
    requires WellFormed(info) && Linked(info) && t < |info.packages|
    requires forall i :: 0 <= i < |cs| ==> t < cs[i] < |info.packages|
    ensures forall x :: x in Tokens(DescendantsOfAll(info, t, cs)) ==> Known(info, x)
    ensures forall x :: Known(info, x) ==>
      (x in Tokens(DescendantsOfAll(info, t, cs)) <==> exists c :: c in cs && Below(info, c, x))
    decreases Depth(info, t), 0, |cs|
  {
    if cs != [] {
      DescendantsFollowParents(info, cs[0]);
      DescendantsOfAllTokens(info, t, cs[1..]);
      var a, b := Descendants(info, cs[0]), DescendantsOfAll(info, t, cs[1..]);
      TokensAppend(a, b);
      forall x | Known(info, x)
        ensures (exists c :: c in cs && Below(info, c, x)) <==>
          Below(info, cs[0], x) || exists c :: c in cs[1..] && Below(info, c, x)
      {
        if exists c :: c in cs && Below(info, c, x) {
          var c :| c in cs && Below(info, c, x);
          if c != cs[0] {
            assert c in cs[1..];
          }
        }
        if exists c :: c in cs[1..] && Below(info, c, x) {
          var c :| c in cs[1..] && Below(info, c, x);
          assert c in cs;
        }
      }
    } else {
      assert Tokens([]) == {};
    }
  }

  /**
   * The descendant recursion and the parent links agree: an item is among
   * the descendants of package `t` exactly when climbing its parent links
   * reaches `t`.
   */
  lemma {:induction false} DescendantsFollowParents(info: PackageInfo, t: nat)
    requires WellFormed(info) && Linked(info) && t < |info.packages|
    ensures forall x :: x in Tokens(Descendants(info, t)) ==> Known(info, x)
    ensures forall x :: Known(info, x) ==> (x in Tokens(Descendants(info, t)) <==> Below(info, t, x))
    decreases Depth(info, t), 1
  {
    assert PackageWellFormed(info, t);
    var cs := Ascending(info.packages[t].packages);
    ChildTokens(info, t);
    DescendantsOfAllTokens(info, t, cs);
    var a, b := ChildItems(info, t), DescendantsOfAll(info, t, cs);
    TokensAppend(a, b);
    forall x | Known(info, x)
      ensures x in Tokens(a + b) <==> Below(info, t, x)
    {
      BelowTopDown(info, t, x);
      if exists c :: c in info.packages[t].packages && Below(info, c, x) {
        var c :| c in info.packages[t].packages && Below(info, c, x);
        assert c in cs;
      }
    }
  }

  /** The root is the one package without a parent. */
  ghost predicate Rooted(info: PackageInfo)
    requires WellFormed(info)
  {
    forall c :: 0 <= c < |info.packages| ==> (info.packages[c].parent.None? <==> c == info.root)
  }

  /** In a rooted tree every item other than the root lies below the root. */
  lemma {:induction false} BelowRoot(info: PackageInfo, x: PackageItemToken)
    requires WellFormed(info) && Rooted(info) && Known(info, x) && x != PackageToken(info.root)
    ensures Below(info, info.root, x)
    decreases Rank(info, x)
  {
    assert x.PackageToken? ==> PackageWellFormed(info, x.p);
    var q := ParentOf(info, x).value;
    if q != info.root {
      BelowRoot(info, PackageToken(q));
    }
  }

  /**
   * `get_all_items` holds every item of a rooted, linked arena, and nothing
   * else: the root and everything below it.
   */
  lemma AllItemsComplete(info: PackageInfo)
    requires WellFormed(info) && Linked(info) && Rooted(info)
    ensures forall x :: x in Tokens(GetAllItems(info)) <==> Known(info, x)
  {
    var r := GetAllItems(info);
    var rest := r[1..];
    DescendantsFollowParents(info, info.root);
    assert PackageWellFormed(info, info.root);
    forall x | x in Tokens(r)
      ensures Known(info, x)
    {
      var y :| y in r && Token(y) == x;
      if y != r[0] {
        assert y in rest;
        assert x in Tokens(rest);
      }
    }
    forall x | Known(info, x)
      ensures x in Tokens(r)
    {
      if x == PackageToken(info.root) {
        assert Token(r[0]) == x;
      } else {
        BelowRoot(info, x);
        var y :| y in rest && Token(y) == x;
        assert y in r;
      }
    }
  }

  /** The packages of `get_all_items`, as `filter_packages` leaves them. */
  lemma AllPackagesComplete(info: PackageInfo)
    requires WellFormed(info) && Linked(info) && Rooted(info)
    ensures forall c :: 0 <= c < |info.packages| ==> info.packages[c] in FilterAllPackages(GetAllItems(info))
  {
    AllItemsComplete(info);
    GetAllItemsStored(info);
    forall c | 0 <= c < |info.packages|
      ensures info.packages[c] in FilterAllPackages(GetAllItems(info))
    {
      assert PackageToken(c) in Tokens(GetAllItems(info));
      var y :| y in GetAllItems(info) && Token(y) == PackageToken(c);
      assert y == PackageEntry(info.packages[c]);
    }
  }

  /** Every item `get_all_items` yields is the arena's entry for its token. */
  lemma GetAllItemsStored(info: PackageInfo)
    requires WellFormed(info)
    ensures forall y :: y in GetAllItems(info) ==> Known(info, Token(y)) && y == ItemAt(info, Token(y))
  {
    var r := GetAllItems(info);
    assert PackageWellFormed(info, info.root);
    forall y | y in r
      ensures Known(info, Token(y)) && y == ItemAt(info, Token(y))
    {
      if y != r[0] {
        assert y in r[1..];
      }
    }
  }
}
