/**
 * The single-arena package tree of src/package_info/mod.rs: one `SlotMap` of
 * items, each a package or a module, and two lookup maps (by filesystem path
 * and by pypath). The arena is only ever inserted into, so a token is the
 * index of its item.
 */
module PackageItems {
  import opened Wrappers
  import opened Errors
  import opened FsPaths
  import opened Pypaths
  import opened FsListing

  /**
   * `PackageItem`: a package with its parent, its child packages and
   * modules and its init module, or a module with its package (the
   * module's `parent` field) and whether it is an `__init__.py`.
   */
  datatype PackageItem =
    | Package(path: FsPath, pypath: Pypath, token: nat, parent: Option<nat>,
              packages: set<nat>, modules: set<nat>, initModule: Option<nat>)
    | Module(path: FsPath, pypath: Pypath, isInit: bool, token: nat, package: nat)

  datatype PackageInfo = PackageInfo(root: nat, items: seq<PackageItem>,
                                     itemsByPath: map<FsPath, nat>, itemsByPypath: map<Pypath, nat>)

  /** `TryFrom<PackageItem> for Package`: the package itself, or `NotAPackage` for a module. */
  function AsPackage(item: PackageItem): (r: Result<PackageItem, Error>)
    ensures r.Ok? <==> item.Package?
    ensures r.Ok? ==> r.value == item
    ensures r.Err? ==> r.error == NotAPackage
  {
    if item.Package? then Ok(item) else Err(NotAPackage)
  }

  /** `TryFrom<PackageItem> for Module`: the module itself, or `NotAModule` for a package. */
  function AsModule(item: PackageItem): (r: Result<PackageItem, Error>)
    ensures r.Ok? <==> item.Module?
    ensures r.Ok? ==> r.value == item
    ensures r.Err? ==> r.error == NotAModule
  {
    if item.Module? then Ok(item) else Err(NotAModule)
  }

  /** Exactly one of the two conversions succeeds, and it gives the item back. */
  lemma ConversionsPartition(item: PackageItem)
    ensures AsPackage(item).Ok? != AsModule(item).Ok?
    ensures AsPackage(item).Ok? ==> AsPackage(item).value == item
    ensures AsModule(item).Ok? ==> AsModule(item).value == item
  {
  }

  /** `From<PackageItemToken> for HashSet<PackageItemToken>`: the set of just that token. */
  function TokenSet(token: nat): (r: set<nat>)
    ensures token in r && forall t :: t in r ==> t == token
  {
    {token}
  }

  /** `Package::new`: no children and no init module yet; the pypath is that of its path (the `unwrap`). */
  function NewPackage(token: nat, parent: Option<nat>, path: FsPath, rootPath: FsPath): (p: PackageItem)
    requires |rootPath| >= 1 && ParentDir(rootPath) <= path
    ensures p.Package? && p.token == token && p.parent == parent && p.path == path
    ensures p.packages == {} && p.modules == {} && p.initModule.None?
    ensures Ok(p.pypath) == FromPath(path, rootPath)
  {
    Package(path, FromPath(path, rootPath).value, token, parent, {}, {}, None)
  }

  /** `Module::new`: an init module exactly when the file is named `__init__.py`. */
  function NewModule(token: nat, package: nat, path: FsPath, rootPath: FsPath): (m: PackageItem)
    requires |rootPath| >= 1 && ParentDir(rootPath) <= path && |path| >= 1
    ensures m.Module? && m.token == token && m.package == package && m.path == path
    ensures m.isInit <==> FileName(path) == "__init__.py"
    ensures Ok(m.pypath) == FromPath(path, rootPath)
  {
    Module(path, FromPath(path, rootPath).value, FileName(path) == "__init__.py", token, package)
  }

  // ---------------------------------------------------------------------
  // What `build` makes of a listing
  // ---------------------------------------------------------------------

  /** Item `token` was made from the listed item `f`. */
  ghost predicate MadeFrom(item: PackageItem, f: FsItem, token: nat, rootPath: FsPath)
    requires |rootPath| >= 1
  {
    && item.token == token && item.path == f.path && (item.Package? <==> f.Directory?)
    && Ok(item.pypath) == FromPath(f.path, rootPath)
    && (item.Module? ==> |f.path| >= 1 && (item.isInit <==> FileName(f.path) == "__init__.py"))
  }

  /** The root package comes first, with no parent, and is looked up by its path and pypath. */
  ghost predicate RootFirst(info: PackageInfo, rootPath: FsPath)
    requires |rootPath| >= 1
  {
    && |info.items| >= 1 && info.root == 0
    && info.items[0].Package? && info.items[0].token == 0 && info.items[0].path == rootPath
    && info.items[0].parent.None? && Ok(info.items[0].pypath) == FromPath(rootPath, rootPath)
  }

  /** Item `k + 1` was made from the `k`-th listed item. */
  ghost predicate Mirrors(items: seq<PackageItem>, rootPath: FsPath, fs: seq<FsItem>)
    requires |rootPath| >= 1
  {
    |items| == |fs| + 1 && forall k :: 0 <= k < |fs| ==> MadeFrom(items[k + 1], fs[k], k + 1, rootPath)
  }

  /** The token of the parent of item `k`. */
  function ParentToken(item: PackageItem): Option<nat>
  {
    if item.Package? then item.parent else Some(item.package)
  }

  /** Every item but the root has an earlier package for parent, and that package sits at the item's directory. */
  ghost predicate ParentsAtParentDir(items: seq<PackageItem>)
  {
    forall k :: 1 <= k < |items| ==> ParentAt(items, k)
  }

  ghost predicate ParentAt(items: seq<PackageItem>, k: nat)
    requires k < |items|
  {
    && |items[k].path| >= 1 && ParentToken(items[k]).Some?
    && var t := ParentToken(items[k]).value;
       t < k && items[t].Package? && items[t].path == ParentDir(items[k].path)
  }

  /** Module `j` is an init module of package `k`. */
  ghost predicate IsInitChild(items: seq<PackageItem>, k: nat, j: nat)
  {
    j < |items| && items[j].Module? && items[j].package == k && items[j].isInit
  }

  /** The child sets of every package hold exactly the items whose parent it is, and the init module is an init child. */
  ghost predicate ChildrenListed(items: seq<PackageItem>)
  {
    forall k :: 0 <= k < |items| && items[k].Package? ==> ChildrenOf(items, k)
  }

  ghost predicate ChildrenOf(items: seq<PackageItem>, k: nat)
    requires k < |items| && items[k].Package?
  {
    && (forall j :: j in items[k].packages <==> 0 < j < |items| && items[j].Package? && items[j].parent == Some(k))
    && (forall j :: j in items[k].modules <==> 0 < j < |items| && items[j].Module? && items[j].package == k)
    && (items[k].initModule.Some? ==> IsInitChild(items, k, items[k].initModule.value))
    && (items[k].initModule.None? ==> forall j :: !IsInitChild(items, k, j))
  }

  /** Every item is found by its path, and a path found leads to an item with that path. */
  ghost predicate PathsIndexed(info: PackageInfo)
  {
    && (forall p :: p in info.itemsByPath ==> info.itemsByPath[p] < |info.items| && info.items[info.itemsByPath[p]].path == p)
    && (forall k :: 0 <= k < |info.items| ==> info.items[k].path in info.itemsByPath)
  }

  /** Every item's pypath is found, leading to the last item with that pypath (a later insertion overwrites). */
  ghost predicate PypathsIndexed(info: PackageInfo)
  {
    && (forall p :: p in info.itemsByPypath ==> info.itemsByPypath[p] < |info.items| && info.items[info.itemsByPypath[p]].pypath == p)
    && (forall k :: 0 <= k < |info.items| ==> info.items[k].pypath in info.itemsByPypath && k <= info.itemsByPypath[info.items[k].pypath])
  }

  /** The arena `build` makes of the listing `fs` (the listing without the root). */
  ghost predicate Built(info: PackageInfo, rootPath: FsPath, fs: seq<FsItem>)
    requires |rootPath| >= 1
  {
    && RootFirst(info, rootPath) && Mirrors(info.items, rootPath, fs)
    && ParentsAtParentDir(info.items) && ChildrenListed(info.items)
    && PathsIndexed(info) && PypathsIndexed(info)
  }

  // ---------------------------------------------------------------------
  // `build`
  // ---------------------------------------------------------------------

  /**
   * `PackageInfo::build` over the listing the directory reader yields for
   * `rootPath` (the root directory first, which the loop skips): the root
   * package, then one item per listed directory or file, each linked to the
   * package of its directory and looked up by path and pypath.
   */
  method Build(rootPath: FsPath, read: seq<FsItem>) returns (info: PackageInfo)
    requires |rootPath| >= 1 && |read| >= 1 && ParentsFirst(rootPath, read[1..])
    ensures Built(info, rootPath, read[1..])
  {
    var fs := read[1..];
    info := Start(rootPath);
    assert fs[..0] == [];
    for i := 0 to |fs|
      invariant Built(info, rootPath, fs[..i])
    {
      info := Insert(info, rootPath, fs, i);
    }
    assert fs[..|fs|] == fs;
  }

  /** Before the loop of `build`: the arena holds the root package alone. */
  method Start(rootPath: FsPath) returns (info: PackageInfo)
    requires |rootPath| >= 1
    ensures Built(info, rootPath, [])
  {
    var root := NewPackage(0, None, rootPath, rootPath);
    info := PackageInfo(0, [root], map[rootPath := 0], map[root.pypath := 0]);
    RootAloneBuilt(info, rootPath);
  }

  lemma RootAloneBuilt(info: PackageInfo, rootPath: FsPath)
    requires |rootPath| >= 1 && |info.items| == 1 && RootFirst(info, rootPath)
    requires info.items[0].packages == {} && info.items[0].modules == {} && info.items[0].initModule.None?
    requires info.itemsByPath == map[rootPath := 0] && info.itemsByPypath == map[info.items[0].pypath := 0]
    ensures Built(info, rootPath, [])
  {
    RootAloneIndexed(info, rootPath);
    RootAloneLinked(info.items, rootPath);
  }

  lemma RootAloneIndexed(info: PackageInfo, rootPath: FsPath)
    requires |info.items| == 1
    requires info.itemsByPath == map[rootPath := 0] && info.items[0].path == rootPath
    requires info.itemsByPypath == map[info.items[0].pypath := 0]
    ensures PathsIndexed(info) && PypathsIndexed(info)
  {
  }

  lemma RootAloneLinked(items: seq<PackageItem>, rootPath: FsPath)
    requires |rootPath| >= 1 && |items| == 1 && items[0].Package?
    requires items[0].packages == {} && items[0].modules == {} && items[0].initModule.None?
    ensures Mirrors(items, rootPath, []) && ParentsAtParentDir(items) && ChildrenListed(items)
  {
    assert ChildrenOf(items, 0);
  }

  /** One pass of the loop of `build`: the item for the `i`-th listed entry, linked into its parent package. */
  method Insert(info: PackageInfo, rootPath: FsPath, fs: seq<FsItem>, i: nat) returns (info': PackageInfo)
    requires |rootPath| >= 1 && ParentsFirst(rootPath, fs) && i < |fs|
    requires Built(info, rootPath, fs[..i])
    ensures Built(info', rootPath, fs[..i + 1])
  {
    var path := fs[i].path;
    BelowRoot(rootPath, path);
    ParentIsPackage(info, rootPath, fs, i);
    var parentToken := info.itemsByPath[ParentDir(path)];
    var token := |info.items|;
    var item := match fs[i]
      case Directory(_) => NewPackage(token, Some(parentToken), path, rootPath)
      case File(_) => NewModule(token, parentToken, path, rootPath);
    var parent' := AddChild(info.items[parentToken], token, item);
    info' := PackageInfo(info.root, info.items[parentToken := parent'] + [item],
                         info.itemsByPath[path := token], info.itemsByPypath[item.pypath := token]);
    InsertKeepsMirrors(info.items, rootPath, fs, i, parentToken, parent', item);
    InsertKeepsParents(info.items, parentToken, parent', item);
    InsertKeepsChildren(info.items, parentToken, item);
    FramesKeepNames(info.items, parentToken, parent', item);
    PathsStillIndexed(info, info');
    PypathsStillIndexed(info, info');
  }

  /** The package `p` with the new item `token` added to its children (and made its init module if it is one). */
  function AddChild(p: PackageItem, token: nat, item: PackageItem): (r: PackageItem)
    requires p.Package?
    ensures SameFrame(p, r)
  {
    if item.Package? then p.(packages := p.packages + {token})
    else
      var q := p.(modules := p.modules + {token});
      if item.isInit then q.(initModule := Some(token)) else q
  }

  /** `a` and `b` agree on everything but the child sets and the init module. */
  predicate SameFrame(a: PackageItem, b: PackageItem)
  {
    && a.Package? == b.Package? && a.path == b.path && a.pypath == b.pypath && a.token == b.token
    && ParentToken(a) == ParentToken(b) && (a.Module? ==> a.isInit == b.isInit)
  }

  lemma BelowRoot(rootPath: FsPath, path: FsPath)
    requires |rootPath| >= 1 && rootPath < path
    ensures |path| >= 1 && ParentDir(rootPath) <= path
  {
    assert ParentDir(rootPath) == path[..|rootPath| - 1];
  }

  /** The `unwrap`s of the loop: the parent directory is indexed, and the item found there is a package. */
  lemma ParentIsPackage(info: PackageInfo, rootPath: FsPath, fs: seq<FsItem>, i: nat)
    requires |rootPath| >= 1 && ParentsFirst(rootPath, fs) && i < |fs|
    requires Built(info, rootPath, fs[..i])
    ensures |fs[i].path| >= 1 && ParentDir(fs[i].path) in info.itemsByPath
    ensures var t := info.itemsByPath[ParentDir(fs[i].path)];
      t < |info.items| && info.items[t].Package? && info.items[t].path == ParentDir(fs[i].path)
  {
    var d := ParentDir(fs[i].path);
    var owner := ParentOwner(info.items, rootPath, fs, i);
    assert PathsIndexed(info);
    assert info.items[owner].path in info.itemsByPath;
    SamePathSameItem(info.items, rootPath, fs, i, info.itemsByPath[d], owner);
  }

  /** The package made from the directory of the `i`-th listed item: the root, or the item of an earlier listed directory. */
  lemma ParentOwner(items: seq<PackageItem>, rootPath: FsPath, fs: seq<FsItem>, i: nat) returns (owner: nat)
    requires |rootPath| >= 1 && ParentsFirst(rootPath, fs) && i < |fs|
    requires |items| >= 1 && items[0].Package? && items[0].path == rootPath && Mirrors(items, rootPath, fs[..i])
    ensures |fs[i].path| >= 1
    ensures owner < |items| && items[owner].path == ParentDir(fs[i].path) && items[owner].Package?
  {
    var d := ParentDir(fs[i].path);
    assert ListedParent(rootPath, fs, i);
    if d == rootPath {
      owner := 0;
    } else {
      var j :| 0 <= j < i && fs[j].Directory? && fs[j].path == d;
      assert MadeFrom(items[j + 1], fs[..i][j], j + 1, rootPath);
      owner := j + 1;
    }
  }

  lemma InsertKeepsMirrors(items: seq<PackageItem>, rootPath: FsPath, fs: seq<FsItem>, i: nat,
                           pt: nat, parent': PackageItem, item: PackageItem)
    requires |rootPath| >= 1 && i < |fs| && pt < |items|
    requires Mirrors(items, rootPath, fs[..i])
    requires SameFrame(items[pt], parent') && MadeFrom(item, fs[i], i + 1, rootPath)
    ensures Mirrors(items[pt := parent'] + [item], rootPath, fs[..i + 1])
  {
    var items' := items[pt := parent'] + [item];
    var fs' := fs[..i + 1];
    forall k | 0 <= k < |fs'|
      ensures MadeFrom(items'[k + 1], fs'[k], k + 1, rootPath)
    {
      if k == i {
        assert items'[k + 1] == item && fs'[k] == fs[i];
      } else {
        assert fs'[k] == fs[..i][k];
        assert MadeFrom(items[k + 1], fs[..i][k], k + 1, rootPath);
        if k + 1 == pt {
          assert items'[k + 1] == parent';
          FrameKeepsMadeFrom(items[pt], parent', fs'[k], k + 1, rootPath);
        } else {
          assert items'[k + 1] == items[k + 1];
        }
      }
    }
  }

  lemma FrameKeepsMadeFrom(a: PackageItem, b: PackageItem, f: FsItem, token: nat, rootPath: FsPath)
    requires |rootPath| >= 1 && SameFrame(a, b) && MadeFrom(a, f, token, rootPath)
    ensures MadeFrom(b, f, token, rootPath)
  {
  }

  lemma InsertKeepsParents(items: seq<PackageItem>, pt: nat, parent': PackageItem, item: PackageItem)
    requires pt < |items| && items[pt].Package? && SameFrame(items[pt], parent')
    requires ParentsAtParentDir(items)
    requires |item.path| >= 1 && ParentToken(item) == Some(pt) && items[pt].path == ParentDir(item.path)
    ensures ParentsAtParentDir(items[pt := parent'] + [item])
  {
    var items' := items[pt := parent'] + [item];
    forall k | 1 <= k < |items'|
      ensures ParentAt(items', k)
    {
      if k < |items| {
        assert ParentAt(items, k);
      }
    }
  }

  lemma InsertKeepsChildren(items: seq<PackageItem>, pt: nat, item: PackageItem)
    requires |items| >= 1 && items[0].Package? && items[0].parent.None?
    requires pt < |items| && items[pt].Package? && ParentToken(item) == Some(pt)
    requires ParentsAtParentDir(items) && ChildrenListed(items)
    requires item.Package? ==> item.packages == {} && item.modules == {} && item.initModule.None?
    ensures ChildrenListed(items[pt := AddChild(items[pt], |items|, item)] + [item])
  {
    var n := |items|;
    var items' := items[pt := AddChild(items[pt], n, item)] + [item];
    assert Extends(items, items', pt);
    forall k | 0 <= k < |items'| && items'[k].Package?
      ensures ChildrenOf(items', k)
    {
      if k == n {
        NoChildrenYet(items, items', pt);
      } else if k == pt {
        assert ChildrenOf(items, k);
        ParentChildren(items, items', pt, item);
      } else {
        assert ChildrenOf(items, k);
        OtherChildren(items, items', k, pt, item);
      }
    }
  }

  /** `items'` is `items` with one item appended and the frames of the old items kept, only `pt` changing. */
  ghost predicate Extends(items: seq<PackageItem>, items': seq<PackageItem>, pt: nat)
  {
    && |items'| == |items| + 1
    && (forall j :: 0 <= j < |items| ==> SameFrame(items[j], items'[j]))
    && (forall j :: 0 <= j < |items| && j != pt ==> items'[j] == items[j])
  }

  lemma NoChildrenYet(items: seq<PackageItem>, items': seq<PackageItem>, pt: nat)
    requires |items| >= 1 && items[0].Package? && items[0].parent.None?
    requires pt < |items| && Extends(items, items', pt) && ParentsAtParentDir(items)
    requires ParentToken(items'[|items|]) == Some(pt) && items'[|items|].Package?
    requires items'[|items|].packages == {} && items'[|items|].modules == {} && items'[|items|].initModule.None?
    ensures ChildrenOf(items', |items|)
  {
    var n := |items|;
    forall j | 0 <= j < |items'|
      ensures ParentToken(items'[j]) != Some(n)
    {
      if 1 <= j < n {
        assert ParentAt(items, j);
        assert SameFrame(items[j], items'[j]);
      } else if j == 0 {
        assert SameFrame(items[0], items'[0]);
      }
    }
    forall j: nat ensures !IsInitChild(items', n, j)
    {
      if j < |items'| {
        assert ParentToken(items'[j]) != Some(n);
      }
    }
  }

  lemma ParentChildren(items: seq<PackageItem>, items': seq<PackageItem>, pt: nat, item: PackageItem)
    requires pt < |items| && items[pt].Package? && ChildrenOf(items, pt)
    requires Extends(items, items', pt) && items'[pt] == AddChild(items[pt], |items|, item)
    requires items'[|items|] == item && ParentToken(item) == Some(pt)
    ensures ChildrenOf(items', pt)
  {
    var n := |items|;
    forall j | 0 <= j < n
      ensures items'[j].Package? == items[j].Package? && ParentToken(items'[j]) == ParentToken(items[j])
      ensures IsInitChild(items', pt, j) == IsInitChild(items, pt, j)
    {
      assert SameFrame(items[j], items'[j]);
    }
    if items'[pt].initModule.Some? && items'[pt].initModule.value < n {
      assert IsInitChild(items, pt, items[pt].initModule.value);
    }
  }

  lemma OtherChildren(items: seq<PackageItem>, items': seq<PackageItem>, k: nat, pt: nat, item: PackageItem)
    requires k < |items| && k != pt && items[k].Package? && ChildrenOf(items, k)
    requires Extends(items, items', pt) && items'[|items|] == item && ParentToken(item) == Some(pt)
    ensures ChildrenOf(items', k)
  {
    var n := |items|;
    assert items'[k] == items[k];
    forall j | 0 <= j < n
      ensures items'[j].Package? == items[j].Package? && ParentToken(items'[j]) == ParentToken(items[j])
      ensures IsInitChild(items', k, j) == IsInitChild(items, k, j)
    {
      assert SameFrame(items[j], items'[j]);
    }
    if items[k].initModule.Some? {
      assert IsInitChild(items, k, items[k].initModule.value);
    }
  }

  lemma FramesKeepNames(items: seq<PackageItem>, pt: nat, parent': PackageItem, item: PackageItem)
    requires pt < |items| && SameFrame(items[pt], parent')
    ensures var items' := items[pt := parent'] + [item];
      forall j :: 0 <= j < |items| ==> items'[j].path == items[j].path && items'[j].pypath == items[j].pypath
  {
  }

  lemma PathsStillIndexed(info: PackageInfo, info': PackageInfo)
    requires PathsIndexed(info) && |info'.items| == |info.items| + 1
    requires forall j :: 0 <= j < |info.items| ==> info'.items[j].path == info.items[j].path
    requires info'.itemsByPath == info.itemsByPath[info'.items[|info.items|].path := |info.items|]
    ensures PathsIndexed(info')
  {
  }

  lemma PypathsStillIndexed(info: PackageInfo, info': PackageInfo)
    requires PypathsIndexed(info) && |info'.items| == |info.items| + 1
    requires forall j :: 0 <= j < |info.items| ==> info'.items[j].pypath == info.items[j].pypath
    requires info'.itemsByPypath == info.itemsByPypath[info'.items[|info.items|].pypath := |info.items|]
    ensures PypathsIndexed(info')
  {
  }

  /** No two items of a built arena share a path. */
  lemma SamePathSameItem(items: seq<PackageItem>, rootPath: FsPath, fs: seq<FsItem>, i: nat, t: nat, u: nat)
    requires |rootPath| >= 1 && ParentsFirst(rootPath, fs) && i <= |fs|
    requires |items| >= 1 && items[0].path == rootPath && Mirrors(items, rootPath, fs[..i])
    requires t < |items| && u < |items| && items[t].path == items[u].path
    ensures t == u
  {
    if t != 0 {
      assert MadeFrom(items[t], fs[..i][t - 1], t, rootPath);
    }
    if u != 0 {
      assert MadeFrom(items[u], fs[..i][u - 1], u, rootPath);
    }
  }

  // ---------------------------------------------------------------------
  // What a built arena promises
  // ---------------------------------------------------------------------

  /** The root is found by its path, and every other item is found by its path too, leading back to itself. */
  lemma FoundByPath(info: PackageInfo, rootPath: FsPath, fs: seq<FsItem>, k: nat)
    requires |rootPath| >= 1 && ParentsFirst(rootPath, fs)
    requires RootFirst(info, rootPath) && Mirrors(info.items, rootPath, fs) && PathsIndexed(info)
    requires k < |info.items|
    ensures info.items[k].path in info.itemsByPath && info.itemsByPath[info.items[k].path] == k
    ensures info.itemsByPath[rootPath] == info.root
  {
    assert fs[..|fs|] == fs;
    var t := info.itemsByPath[info.items[k].path];
    SamePathSameItem(info.items, rootPath, fs, |fs|, t, k);
    SamePathSameItem(info.items, rootPath, fs, |fs|, info.itemsByPath[rootPath], 0);
  }

  /** Every child listed by a package sits in that package's directory. */
  lemma ChildrenInItsDirectory(info: PackageInfo, rootPath: FsPath, fs: seq<FsItem>, k: nat, j: nat)
    requires ParentsAtParentDir(info.items) && ChildrenListed(info.items)
    requires k < |info.items| && info.items[k].Package?
    requires j in info.items[k].packages || j in info.items[k].modules
    ensures j < |info.items| && |info.items[j].path| >= 1 && ParentDir(info.items[j].path) == info.items[k].path
  {
    assert ChildrenOf(info.items, k);
    assert ParentAt(info.items, j);
  }

  /**
   * A package has an init module exactly when one of its modules is an
   * `__init__.py`, and that module's file is `__init__.py` in the
   * package's directory.
   */
  lemma InitModuleIsInitFile(info: PackageInfo, rootPath: FsPath, fs: seq<FsItem>, k: nat)
    requires |rootPath| >= 1 && RootFirst(info, rootPath) && Mirrors(info.items, rootPath, fs)
    requires ParentsAtParentDir(info.items) && ChildrenListed(info.items)
    requires k < |info.items| && info.items[k].Package?
    ensures info.items[k].initModule.Some? <==> exists m :: IsInitChild(info.items, k, m)
    ensures info.items[k].initModule.Some? ==>
      var m := info.items[k].initModule.value;
      m < |info.items| && info.items[m].Module? && m in info.items[k].modules
      && info.items[m].path == info.items[k].path + ["__init__.py"]
  {
    assert ChildrenOf(info.items, k);
    if info.items[k].initModule.Some? {
      var m := info.items[k].initModule.value;
      assert IsInitChild(info.items, k, m);
      assert m != 0;
      assert ParentAt(info.items, m);
      InitFileAtParent(info.items, rootPath, fs, m);
    }
  }

  /** An init module made from the listing sits in its package's directory, under the name `__init__.py`. */
  lemma InitFileAtParent(items: seq<PackageItem>, rootPath: FsPath, fs: seq<FsItem>, m: nat)
    requires |rootPath| >= 1 && Mirrors(items, rootPath, fs)
    requires 1 <= m < |items| && items[m].Module? && items[m].isInit && ParentAt(items, m)
    ensures items[m].path == items[items[m].package].path + ["__init__.py"]
  {
    assert MadeFrom(items[m], fs[m - 1], m, rootPath);
    var p := items[m].path;
    assert p == ParentDir(p) + [FileName(p)];
  }
}
