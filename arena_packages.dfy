/**
 * The two-arena package tree of src/package_discovery/mod.rs: packages and
 * modules each live in their own `SlotMap` (only ever inserted into, so a
 * token is an index), with four lookup maps. Pypaths are plain strings in
 * this generation.
 */
module ArenaPackages {
  import opened Wrappers
  import opened FsPaths
  import opened FsListing

  datatype Package = Package(
    path: FsPath,
    pypath: string,
    token: nat,
    parent: Option<nat>,
    packages: set<nat>,
    modules: set<nat>,
    initModule: Option<nat>)

  datatype Module = Module(path: FsPath, pypath: string, isInit: bool, token: nat, parent: nat)

  datatype PackageInfo = PackageInfo(
    root: nat,
    packages: seq<Package>,
    modules: seq<Module>,
    packagesByPath: map<FsPath, nat>,
    packagesByPypath: map<string, nat>,
    modulesByPath: map<FsPath, nat>,
    modulesByPypath: map<string, nat>)

  /** `Package::new`: no children and no init module yet; the pypath is `path_to_pypath` of its path (the `unwrap`). */
  function NewPackage(token: nat, parent: Option<nat>, path: FsPath, rootPath: FsPath): (p: Package)
    requires |rootPath| >= 1 && ParentDir(rootPath) <= path
    ensures p.token == token && p.parent == parent && p.path == path
    ensures p.packages == {} && p.modules == {} && p.initModule.None?
    ensures Ok(p.pypath) == PathToPypath(path, rootPath)
  {
    Package(path, PathToPypath(path, rootPath).value, token, parent, {}, {}, None)
  }

  /** `Path::ends_with`: the last components of `path` are those of `child`. */
  predicate EndsWithPath(path: FsPath, child: FsPath)
  {
    |child| <= |path| && path[|path| - |child|..] == child
  }

  /**
   * `Module::new` as written: `is_init` is `path.ends_with(".__init__.py")`,
   * which compares whole components, so it holds only for a file literally
   * named ".__init__.py".
   */
  function NewModuleAsWritten(token: nat, parent: nat, path: FsPath, rootPath: FsPath): (m: Module)
    requires |rootPath| >= 1 && ParentDir(rootPath) <= path && |path| >= 1
    ensures m.token == token && m.parent == parent && m.path == path
    ensures m.isInit <==> FileName(path) == ".__init__.py"
    ensures Ok(m.pypath) == PathToPypath(path, rootPath)
  {
    assert EndsWithPath(path, [".__init__.py"]) <==> FileName(path) == ".__init__.py" by {
      assert path[|path| - 1..] == [FileName(path)];
    }
    Module(path, PathToPypath(path, rootPath).value, EndsWithPath(path, [".__init__.py"]), token, parent)
  }

  /** `Module::new` as intended: an init module exactly when the file is named `__init__.py`. */
  function NewModule(token: nat, parent: nat, path: FsPath, rootPath: FsPath): (m: Module)
    requires |rootPath| >= 1 && ParentDir(rootPath) <= path && |path| >= 1
    ensures m.token == token && m.parent == parent && m.path == path
    ensures m.isInit <==> FileName(path) == "__init__.py"
    ensures Ok(m.pypath) == PathToPypath(path, rootPath)
  {
    Module(path, PathToPypath(path, rootPath).value, FileName(path) == "__init__.py", token, parent)
  }

  /**
   * Which test `Module::new` applies to decide `is_init`: the one the
   * source has (`AsWritten`), or the one it evidently intends (`Corrected`).
   */
  datatype InitTest = AsWritten | Corrected

  /** The only file name the test accepts as an init module. */
  function InitName(test: InitTest): string
  {
    if test.AsWritten? then ".__init__.py" else "__init__.py"
  }

  /** `Module::new` under the given init test. */
  function MakeModule(test: InitTest, token: nat, parent: nat, path: FsPath, rootPath: FsPath): (m: Module)
    requires |rootPath| >= 1 && ParentDir(rootPath) <= path && |path| >= 1
    ensures m.token == token && m.parent == parent && m.path == path
    ensures m.isInit <==> FileName(path) == InitName(test)
    ensures Ok(m.pypath) == PathToPypath(path, rootPath)
  {
    if test.AsWritten? then NewModuleAsWritten(token, parent, path, rootPath) else NewModule(token, parent, path, rootPath)
  }

  /**
   * The as-written test never recognises a real `__init__.py`: for such a
   * file it says false where the intended test says true. `build` records a
   * package's `init_module` only from a module marked as init.
   */
  lemma InitFileMissedAsWritten(path: FsPath, rootPath: FsPath)
    requires |rootPath| >= 1 && ParentDir(rootPath) <= path && |path| >= 1
    requires FileName(path) == "__init__.py"
    ensures !NewModuleAsWritten(0, 0, path, rootPath).isInit
    ensures NewModule(0, 0, path, rootPath).isInit
  {
    assert "__init__.py"[0] != ".__init__.py"[0];
  }

  /** The concrete case: `src/testpackage/__init__.py` under the root `src/testpackage`. */
  lemma InitFileMissedExample()
    ensures var path, rootPath := ["src", "testpackage", "__init__.py"], ["src", "testpackage"];
      !NewModuleAsWritten(0, 0, path, rootPath).isInit && NewModule(0, 0, path, rootPath).isInit
  {
    var path, rootPath := ["src", "testpackage", "__init__.py"], ["src", "testpackage"];
    assert ParentDir(rootPath) <= path;
    InitFileMissedAsWritten(path, rootPath);
  }

  // ---------------------------------------------------------------------
  // What `build` makes of a listing
  // ---------------------------------------------------------------------

  /** The directories of a listing, in order. */
  function Dirs(fs: seq<FsItem>): (r: seq<FsPath>)
    ensures |r| <= |fs|
    ensures forall p :: p in r <==> exists i :: 0 <= i < |fs| && fs[i].Directory? && fs[i].path == p
  {
    if fs == [] then []
    else Dirs(fs[..|fs| - 1]) + (if fs[|fs| - 1].Directory? then [fs[|fs| - 1].path] else [])
  }

  /** The files of a listing, in order. */
  function Files(fs: seq<FsItem>): (r: seq<FsPath>)
    ensures |r| <= |fs|
    ensures forall p :: p in r <==> exists i :: 0 <= i < |fs| && fs[i].File? && fs[i].path == p
  {
    if fs == [] then []
    else Files(fs[..|fs| - 1]) + (if fs[|fs| - 1].File? then [fs[|fs| - 1].path] else [])
  }

  lemma ListingStep(fs: seq<FsItem>, i: nat)
    requires i < |fs|
    ensures Dirs(fs[..i + 1]) == Dirs(fs[..i]) + (if fs[i].Directory? then [fs[i].path] else [])
    ensures Files(fs[..i + 1]) == Files(fs[..i]) + (if fs[i].File? then [fs[i].path] else [])
  {
    assert fs[..i + 1][..i] == fs[..i];
  }

  /** A directory listed before position `i` is among the directories of the first `i` items. */
  lemma {:induction false} DirListed(fs: seq<FsItem>, i: nat, j: nat)
    requires j < i <= |fs| && fs[j].Directory?
    ensures fs[j].path in Dirs(fs[..i])
  {
    ListingStep(fs, i - 1);
    if j < i - 1 {
      DirListed(fs, i - 1, j);
    }
  }

  /** Package `c` was made from the directory `path`. */
  ghost predicate MadePackage(p: Package, path: FsPath, c: nat, rootPath: FsPath)
    requires |rootPath| >= 1
  {
    p.token == c && p.path == path && Ok(p.pypath) == PathToPypath(path, rootPath)
  }

  /** Module `m` was made from the file `path`. */
  ghost predicate MadeModule(m: Module, path: FsPath, t: nat, rootPath: FsPath, test: InitTest)
    requires |rootPath| >= 1
  {
    && m.token == t && m.path == path && Ok(m.pypath) == PathToPypath(path, rootPath)
    && |path| >= 1 && (m.isInit <==> FileName(path) == InitName(test))
  }

  /** The root package comes first, has no parent and stands for the root directory. */
  ghost predicate RootFirst(info: PackageInfo, rootPath: FsPath)
    requires |rootPath| >= 1
  {
    && info.root == 0 && |info.packages| >= 1
    && MadePackage(info.packages[0], rootPath, 0, rootPath) && info.packages[0].parent.None?
  }

  /** Package `c + 1` was made from the `c`-th listed directory, module `m` from the `m`-th listed file. */
  ghost predicate Mirrors(info: PackageInfo, rootPath: FsPath, fs: seq<FsItem>, test: InitTest)
    requires |rootPath| >= 1
  {
    PackagesMirror(info.packages, rootPath, Dirs(fs)) && ModulesMirror(info.modules, rootPath, Files(fs), test)
  }

  ghost predicate PackagesMirror(packages: seq<Package>, rootPath: FsPath, dirs: seq<FsPath>)
    requires |rootPath| >= 1
  {
    |packages| == |dirs| + 1 && forall c :: 0 <= c < |dirs| ==> MadePackage(packages[c + 1], dirs[c], c + 1, rootPath)
  }

  ghost predicate ModulesMirror(modules: seq<Module>, rootPath: FsPath, files: seq<FsPath>, test: InitTest)
    requires |rootPath| >= 1
  {
    |modules| == |files| && forall m :: 0 <= m < |files| ==> MadeModule(modules[m], files[m], m, rootPath, test)
  }

  /** Every package but the root has an earlier package for parent, sitting at its directory. */
  ghost predicate PackageParents(packages: seq<Package>)
  {
    forall c :: 1 <= c < |packages| ==> PackageParentAt(packages, c)
  }

  ghost predicate PackageParentAt(packages: seq<Package>, c: nat)
    requires c < |packages|
  {
    && |packages[c].path| >= 1 && packages[c].parent.Some? && packages[c].parent.value < c
    && packages[packages[c].parent.value].path == ParentDir(packages[c].path)
  }

  /** Every module's parent is a package sitting at its directory. */
  ghost predicate ModuleParents(packages: seq<Package>, modules: seq<Module>)
  {
    forall m :: 0 <= m < |modules| ==> ModuleParentAt(packages, modules, m)
  }

  ghost predicate ModuleParentAt(packages: seq<Package>, modules: seq<Module>, m: nat)
    requires m < |modules|
  {
    && |modules[m].path| >= 1 && modules[m].parent < |packages|
    && packages[modules[m].parent].path == ParentDir(modules[m].path)
  }

  /** Module `m` is an init module of package `k`. */
  ghost predicate IsInitChild(modules: seq<Module>, k: nat, m: nat)
  {
    m < |modules| && modules[m].parent == k && modules[m].isInit
  }

  /** The child sets of every package hold exactly the items whose parent it is; the init module is an init child. */
  ghost predicate ChildrenListed(packages: seq<Package>, modules: seq<Module>)
  {
    forall k :: 0 <= k < |packages| ==> ChildrenOf(packages, modules, k)
  }

  ghost predicate ChildrenOf(packages: seq<Package>, modules: seq<Module>, k: nat)
    requires k < |packages|
  {
    && (forall c :: c in packages[k].packages <==> 0 < c < |packages| && packages[c].parent == Some(k))
    && (forall m :: m in packages[k].modules <==> 0 <= m < |modules| && modules[m].parent == k)
    && (packages[k].initModule.Some? ==> IsInitChild(modules, k, packages[k].initModule.value))
    && (packages[k].initModule.None? ==> forall m :: !IsInitChild(modules, k, m))
  }

  /**
   * `idx` looks keys up in `keys`: a key found leads to a slot holding it,
   * and every slot's key is found, leading to that slot or a later one (a
   * later insertion under the same key overwrites).
   */
  ghost predicate Indexes<K>(keys: seq<K>, idx: map<K, nat>)
  {
    && (forall k :: k in idx ==> idx[k] < |keys| && keys[idx[k]] == k)
    && (forall i :: 0 <= i < |keys| ==> keys[i] in idx && i <= idx[keys[i]])
  }

  lemma IndexStep<K>(keys: seq<K>, idx: map<K, nat>, k: K)
    requires Indexes(keys, idx)
    ensures Indexes(keys + [k], idx[k := |keys|])
  {
  }

  function PackagePaths(ps: seq<Package>): (r: seq<FsPath>)
    ensures |r| == |ps| && forall i :: 0 <= i < |ps| ==> r[i] == ps[i].path
  {
    seq(|ps|, i requires 0 <= i < |ps| => ps[i].path)
  }

  function PackagePypaths(ps: seq<Package>): (r: seq<string>)
    ensures |r| == |ps| && forall i :: 0 <= i < |ps| ==> r[i] == ps[i].pypath
  {
    seq(|ps|, i requires 0 <= i < |ps| => ps[i].pypath)
  }

  function ModulePaths(ms: seq<Module>): (r: seq<FsPath>)
    ensures |r| == |ms| && forall i :: 0 <= i < |ms| ==> r[i] == ms[i].path
  {
    seq(|ms|, i requires 0 <= i < |ms| => ms[i].path)
  }

  function ModulePypaths(ms: seq<Module>): (r: seq<string>)
    ensures |r| == |ms| && forall i :: 0 <= i < |ms| ==> r[i] == ms[i].pypath
  {
    seq(|ms|, i requires 0 <= i < |ms| => ms[i].pypath)
  }

  /** Every package and module is found by its path, and by its pypath (the last one inserted under it). */
  ghost predicate Indexed(info: PackageInfo)
  {
    && Indexes(PackagePaths(info.packages), info.packagesByPath)
    && Indexes(PackagePypaths(info.packages), info.packagesByPypath)
    && Indexes(ModulePaths(info.modules), info.modulesByPath)
    && Indexes(ModulePypaths(info.modules), info.modulesByPypath)
  }

  /** The arenas `build` makes of the listing `fs` (the listing without the root). */
  ghost predicate Built(info: PackageInfo, rootPath: FsPath, fs: seq<FsItem>, test: InitTest)
    requires |rootPath| >= 1
  {
    && RootFirst(info, rootPath) && Mirrors(info, rootPath, fs, test)
    && PackageParents(info.packages) && ModuleParents(info.packages, info.modules)
    && ChildrenListed(info.packages, info.modules)
    && Indexed(info)
  }

  // ---------------------------------------------------------------------
  // `build`
  // ---------------------------------------------------------------------

  /**
   * `PackageInfo::build` over the listing the directory reader yields for
   * `rootPath` (the root directory first, which the loop skips): the root
   * package, then a package per listed directory and a module per listed
   * file, each linked to the package of its directory and looked up by
   * path and pypath.
   */
  method Build(rootPath: FsPath, read: seq<FsItem>, test: InitTest) returns (info: PackageInfo)
    requires |rootPath| >= 1 && |read| >= 1 && ParentsFirst(rootPath, read[1..])
    ensures Built(info, rootPath, read[1..], test)
  {
    var fs := read[1..];
    assert ParentDir(rootPath) <= rootPath;
    var root := NewPackage(0, None, rootPath, rootPath);
    info := PackageInfo(0, [root], [], map[rootPath := 0], map[root.pypath := 0], map[], map[]);
    assert fs[..0] == [];
    for i := 0 to |fs|
      invariant Built(info, rootPath, fs[..i], test)
    {
      info := Insert(info, rootPath, fs, i, test);
    }
    assert fs[..|fs|] == fs;
  }

  /** One pass of the loop of `build`: a package for a directory, a module for a file. */
  method Insert(info: PackageInfo, rootPath: FsPath, fs: seq<FsItem>, i: nat, test: InitTest) returns (info': PackageInfo)
    requires |rootPath| >= 1 && ParentsFirst(rootPath, fs) && i < |fs|
    requires Built(info, rootPath, fs[..i], test)
    ensures Built(info', rootPath, fs[..i + 1], test)
  {
    ParentFound(info, rootPath, fs, i, test);
    if fs[i].Directory? {
      info' := InsertPackage(info, rootPath, fs, i, test);
    } else {
      info' := InsertModule(info, rootPath, fs, i, test);
    }
  }

  /** The `unwrap`s of the loop: the item's directory is indexed as a package. */
  lemma ParentFound(info: PackageInfo, rootPath: FsPath, fs: seq<FsItem>, i: nat, test: InitTest)
    requires |rootPath| >= 1 && ParentsFirst(rootPath, fs) && i < |fs|
    requires RootFirst(info, rootPath) && Mirrors(info, rootPath, fs[..i], test)
    requires Indexes(PackagePaths(info.packages), info.packagesByPath)
    ensures |fs[i].path| >= 1 && ParentDir(rootPath) <= fs[i].path
    ensures ParentDir(fs[i].path) in info.packagesByPath
  {
    var path := fs[i].path;
    assert rootPath < path;
    assert ParentDir(rootPath) == path[..|rootPath| - 1];
    var c := ParentDirPackage(info.packages, rootPath, fs, i);
    assert PackagePaths(info.packages)[c] in info.packagesByPath;
  }

  /** The package of the directory holding the `i`-th listed item: the root, or the package of an earlier listed directory. */
  lemma ParentDirPackage(packages: seq<Package>, rootPath: FsPath, fs: seq<FsItem>, i: nat) returns (c: nat)
    requires |rootPath| >= 1 && ParentsFirst(rootPath, fs) && i < |fs|
    requires |packages| >= 1 && packages[0].path == rootPath && PackagesMirror(packages, rootPath, Dirs(fs[..i]))
    ensures |fs[i].path| >= 1 && c < |packages| && PackagePaths(packages)[c] == ParentDir(fs[i].path)
  {
    assert ListedParent(rootPath, fs, i);
    var d := ParentDir(fs[i].path);
    if d == rootPath {
      c := 0;
    } else {
      var j :| 0 <= j < i && fs[j].Directory? && fs[j].path == d;
      DirListed(fs, i, j);
      var k :| 0 <= k < |Dirs(fs[..i])| && Dirs(fs[..i])[k] == d;
      assert MadePackage(packages[k + 1], Dirs(fs[..i])[k], k + 1, rootPath);
      c := k + 1;
    }
  }

  /** The package `p` with `c` added to its child packages. */
  function AddPackage(p: Package, c: nat): (r: Package)
    ensures PackageFrame(p, r) && r.packages == p.packages + {c}
    ensures r.modules == p.modules && r.initModule == p.initModule
  {
    p.(packages := p.packages + {c})
  }

  /** The package `p` with module `m` added to its modules, and made its init module if it is one. */
  function AddModule(p: Package, m: nat, isInit: bool): (r: Package)
    ensures PackageFrame(p, r) && r.packages == p.packages && r.modules == p.modules + {m}
    ensures r.initModule == (if isInit then Some(m) else p.initModule)
  {
    var q := p.(modules := p.modules + {m});
    if isInit then q.(initModule := Some(m)) else q
  }

  /** `a` and `b` agree on everything but the child sets and the init module. */
  predicate PackageFrame(a: Package, b: Package)
  {
    a.path == b.path && a.pypath == b.pypath && a.token == b.token && a.parent == b.parent
  }

  /** The directory branch of the loop. */
  method InsertPackage(info: PackageInfo, rootPath: FsPath, fs: seq<FsItem>, i: nat, test: InitTest) returns (info': PackageInfo)
    requires |rootPath| >= 1 && i < |fs| && fs[i].Directory?
    requires |fs[i].path| >= 1 && ParentDir(rootPath) <= fs[i].path && ParentDir(fs[i].path) in info.packagesByPath
    requires Built(info, rootPath, fs[..i], test)
    ensures Built(info', rootPath, fs[..i + 1], test)
  {
    var path := fs[i].path;
    var pt := info.packagesByPath[ParentDir(path)];
    var c := |info.packages|;
    var p := NewPackage(c, Some(pt), path, rootPath);
    var packages := info.packages[pt := AddPackage(info.packages[pt], c)] + [p];
    info' := info.(packages := packages,
                   packagesByPath := info.packagesByPath[path := c],
                   packagesByPypath := info.packagesByPypath[p.pypath := c]);
    ListingStep(fs, i);
    Grow(info.packages, pt, AddPackage(info.packages[pt], c), p);
    PackagesMirrorStep(info.packages, packages, pt, rootPath, Dirs(fs[..i]), path);
    PackageParentsStep(info.packages, packages, pt);
    ModuleParentsKept(info.packages, packages, pt, info.modules);
    NewPackageChildren(info.packages, packages, info.modules, pt);
    IndexStep(PackagePaths(info.packages), info.packagesByPath, path);
    IndexStep(PackagePypaths(info.packages), info.packagesByPypath, p.pypath);
  }

  /** The file branch of the loop. */
  method InsertModule(info: PackageInfo, rootPath: FsPath, fs: seq<FsItem>, i: nat, test: InitTest) returns (info': PackageInfo)
    requires |rootPath| >= 1 && i < |fs| && fs[i].File?
    requires |fs[i].path| >= 1 && ParentDir(rootPath) <= fs[i].path && ParentDir(fs[i].path) in info.packagesByPath
    requires Built(info, rootPath, fs[..i], test)
    ensures Built(info', rootPath, fs[..i + 1], test)
  {
    var path := fs[i].path;
    var pt := info.packagesByPath[ParentDir(path)];
    var t := |info.modules|;
    var m := MakeModule(test, t, pt, path, rootPath);
    var packages := info.packages[pt := AddModule(info.packages[pt], t, m.isInit)];
    info' := PackageInfo(info.root, packages, info.modules + [m], info.packagesByPath, info.packagesByPypath,
                         info.modulesByPath[path := t], info.modulesByPypath[m.pypath := t]);
    ModuleShapeStep(info, rootPath, fs, i, pt, m, test);
    ModuleLinksStep(info, pt, m);
  }

  lemma ModuleShapeStep(info: PackageInfo, rootPath: FsPath, fs: seq<FsItem>, i: nat, pt: nat, m: Module, test: InitTest)
    requires |rootPath| >= 1 && i < |fs| && fs[i].File? && pt < |info.packages|
    requires RootFirst(info, rootPath) && Mirrors(info, rootPath, fs[..i], test)
    requires PackageParents(info.packages) && ModuleParents(info.packages, info.modules)
    requires MadeModule(m, fs[i].path, |info.modules|, rootPath, test)
    requires m.parent == pt && info.packages[pt].path == ParentDir(fs[i].path)
    ensures var packages := info.packages[pt := AddModule(info.packages[pt], |info.modules|, m.isInit)];
      var info' := info.(packages := packages, modules := info.modules + [m]);
      && RootFirst(info', rootPath) && Mirrors(info', rootPath, fs[..i + 1], test)
      && PackageParents(info'.packages) && ModuleParents(info'.packages, info'.modules)
  {
    var packages := info.packages[pt := AddModule(info.packages[pt], |info.modules|, m.isInit)];
    ListingStep(fs, i);
    Keep(info.packages, pt, AddModule(info.packages[pt], |info.modules|, m.isInit));
    PackagesMirrorKept(info.packages, packages, pt, rootPath, Dirs(fs[..i]));
    ModulesMirrorStep(info.modules, m, rootPath, Files(fs[..i]), fs[i].path, test);
    PackageParentsKept(info.packages, packages, pt);
    ModuleParentsStep(info.packages, packages, info.modules, m, pt);
  }

  lemma ModuleLinksStep(info: PackageInfo, pt: nat, m: Module)
    requires pt < |info.packages| && m.parent == pt
    requires ChildrenListed(info.packages, info.modules) && Indexed(info)
    ensures var packages := info.packages[pt := AddModule(info.packages[pt], |info.modules|, m.isInit)];
      var info' := PackageInfo(info.root, packages, info.modules + [m], info.packagesByPath, info.packagesByPypath,
                               info.modulesByPath[m.path := |info.modules|],
                               info.modulesByPypath[m.pypath := |info.modules|]);
      ChildrenListed(info'.packages, info'.modules) && Indexed(info')
  {
    var packages := info.packages[pt := AddModule(info.packages[pt], |info.modules|, m.isInit)];
    Keep(info.packages, pt, AddModule(info.packages[pt], |info.modules|, m.isInit));
    AppendModule(info.modules, m);
    NewModuleChildren(info.packages, packages, info.modules, m, pt);
    IndexStep(ModulePaths(info.modules), info.modulesByPath, m.path);
    IndexStep(ModulePypaths(info.modules), info.modulesByPypath, m.pypath);
  }

  // ---------------------------------------------------------------------
  // One step of the loop, piece by piece
  // ---------------------------------------------------------------------

  /** The old packages keep their frames in `packages'`, and all but `pt` are unchanged. */
  ghost predicate Framed(packages: seq<Package>, packages': seq<Package>, pt: nat)
  {
    && pt < |packages| <= |packages'|
    && (forall j :: 0 <= j < |packages| ==> PackageFrame(packages[j], packages'[j]))
    && (forall j :: 0 <= j < |packages| && j != pt ==> packages'[j] == packages[j])
  }

  lemma Grow(packages: seq<Package>, pt: nat, q: Package, p: Package)
    requires pt < |packages| && PackageFrame(packages[pt], q)
    ensures var packages' := packages[pt := q] + [p];
      && Framed(packages, packages', pt) && |packages'| == |packages| + 1
      && PackagePaths(packages') == PackagePaths(packages) + [p.path]
      && PackagePypaths(packages') == PackagePypaths(packages) + [p.pypath]
  {
  }

  lemma Keep(packages: seq<Package>, pt: nat, q: Package)
    requires pt < |packages| && PackageFrame(packages[pt], q)
    ensures var packages' := packages[pt := q];
      && Framed(packages, packages', pt) && |packages'| == |packages|
      && PackagePaths(packages') == PackagePaths(packages)
      && PackagePypaths(packages') == PackagePypaths(packages)
  {
  }

  lemma AppendModule(modules: seq<Module>, m: Module)
    ensures ModulePaths(modules + [m]) == ModulePaths(modules) + [m.path]
    ensures ModulePypaths(modules + [m]) == ModulePypaths(modules) + [m.pypath]
  {
  }

  lemma PackagesMirrorStep(packages: seq<Package>, packages': seq<Package>, pt: nat,
                           rootPath: FsPath, dirs: seq<FsPath>, path: FsPath)
    requires |rootPath| >= 1 && PackagesMirror(packages, rootPath, dirs)
    requires Framed(packages, packages', pt) && |packages'| == |packages| + 1
    requires MadePackage(packages'[|packages|], path, |packages|, rootPath)
    ensures PackagesMirror(packages', rootPath, dirs + [path])
  {
    var dirs' := dirs + [path];
    forall c | 0 <= c < |dirs'|
      ensures MadePackage(packages'[c + 1], dirs'[c], c + 1, rootPath)
    {
      if c < |dirs| {
        assert MadePackage(packages[c + 1], dirs[c], c + 1, rootPath);
        assert PackageFrame(packages[c + 1], packages'[c + 1]);
      }
    }
  }

  lemma PackagesMirrorKept(packages: seq<Package>, packages': seq<Package>, pt: nat, rootPath: FsPath, dirs: seq<FsPath>)
    requires |rootPath| >= 1 && PackagesMirror(packages, rootPath, dirs)
    requires Framed(packages, packages', pt) && |packages'| == |packages|
    ensures PackagesMirror(packages', rootPath, dirs)
  {
    forall c | 0 <= c < |dirs|
      ensures MadePackage(packages'[c + 1], dirs[c], c + 1, rootPath)
    {
      assert MadePackage(packages[c + 1], dirs[c], c + 1, rootPath);
      assert PackageFrame(packages[c + 1], packages'[c + 1]);
    }
  }

  lemma ModulesMirrorStep(modules: seq<Module>, m: Module, rootPath: FsPath, files: seq<FsPath>, path: FsPath, test: InitTest)
    requires |rootPath| >= 1 && ModulesMirror(modules, rootPath, files, test)
    requires MadeModule(m, path, |modules|, rootPath, test)
    ensures ModulesMirror(modules + [m], rootPath, files + [path], test)
  {
    var files' := files + [path];
    forall k | 0 <= k < |files'|
      ensures MadeModule((modules + [m])[k], files'[k], k, rootPath, test)
    {
      if k < |files| {
        assert MadeModule(modules[k], files[k], k, rootPath, test);
      }
    }
  }

  lemma PackageParentsStep(packages: seq<Package>, packages': seq<Package>, pt: nat)
    requires Framed(packages, packages', pt) && |packages'| == |packages| + 1 && PackageParents(packages)
    requires |packages'[|packages|].path| >= 1 && packages'[|packages|].parent == Some(pt)
    requires packages[pt].path == ParentDir(packages'[|packages|].path)
    ensures PackageParents(packages')
  {
    forall c | 1 <= c < |packages'|
      ensures PackageParentAt(packages', c)
    {
      assert PackageFrame(packages[pt], packages'[pt]);
      if c < |packages| {
        assert PackageParentAt(packages, c);
        assert PackageFrame(packages[c], packages'[c]);
        assert PackageFrame(packages[packages[c].parent.value], packages'[packages[c].parent.value]);
      }
    }
  }

  lemma PackageParentsKept(packages: seq<Package>, packages': seq<Package>, pt: nat)
    requires Framed(packages, packages', pt) && |packages'| == |packages| && PackageParents(packages)
    ensures PackageParents(packages')
  {
    forall c | 1 <= c < |packages'|
      ensures PackageParentAt(packages', c)
    {
      assert PackageParentAt(packages, c);
      assert PackageFrame(packages[c], packages'[c]);
      assert PackageFrame(packages[packages[c].parent.value], packages'[packages[c].parent.value]);
    }
  }

  lemma ModuleParentsKept(packages: seq<Package>, packages': seq<Package>, pt: nat, modules: seq<Module>)
    requires Framed(packages, packages', pt) && ModuleParents(packages, modules)
    ensures ModuleParents(packages', modules)
  {
    forall m | 0 <= m < |modules|
      ensures ModuleParentAt(packages', modules, m)
    {
      assert ModuleParentAt(packages, modules, m);
      assert PackageFrame(packages[modules[m].parent], packages'[modules[m].parent]);
    }
  }

  lemma ModuleParentsStep(packages: seq<Package>, packages': seq<Package>, modules: seq<Module>, m: Module, pt: nat)
    requires Framed(packages, packages', pt) && ModuleParents(packages, modules)
    requires |m.path| >= 1 && m.parent == pt && packages[pt].path == ParentDir(m.path)
    ensures ModuleParents(packages', modules + [m])
  {
    ModuleParentsKept(packages, packages', pt, modules);
    var modules' := modules + [m];
    forall k | 0 <= k < |modules'|
      ensures ModuleParentAt(packages', modules', k)
    {
      if k < |modules| {
        assert ModuleParentAt(packages', modules, k);
      } else {
        assert PackageFrame(packages[pt], packages'[pt]);
      }
    }
  }

  lemma NewPackageChildren(packages: seq<Package>, packages': seq<Package>, modules: seq<Module>, pt: nat)
    requires |packages| >= 1 && packages[0].parent.None?
    requires Framed(packages, packages', pt) && |packages'| == |packages| + 1
    requires packages'[pt] == AddPackage(packages[pt], |packages|)
    requires packages'[|packages|].parent == Some(pt)
    requires packages'[|packages|].packages == {} && packages'[|packages|].modules == {}
    requires packages'[|packages|].initModule.None?
    requires PackageParents(packages) && ModuleParents(packages, modules) && ChildrenListed(packages, modules)
    ensures ChildrenListed(packages', modules)
  {
    var n := |packages|;
    forall c | 0 <= c < n
      ensures packages'[c].parent == packages[c].parent
    {
      assert PackageFrame(packages[c], packages'[c]);
    }
    forall k | 0 <= k < |packages'|
      ensures ChildrenOf(packages', modules, k)
    {
      if k == n {
        forall c | 0 < c < n
          ensures packages'[c].parent != Some(n)
        {
          assert PackageParentAt(packages, c);
        }
        forall m | 0 <= m < |modules|
          ensures modules[m].parent != n
        {
          assert ModuleParentAt(packages, modules, m);
        }
      } else {
        assert ChildrenOf(packages, modules, k);
      }
    }
  }

  lemma NewModuleChildren(packages: seq<Package>, packages': seq<Package>, modules: seq<Module>, m: Module, pt: nat)
    requires Framed(packages, packages', pt) && |packages'| == |packages|
    requires packages'[pt] == AddModule(packages[pt], |modules|, m.isInit) && m.parent == pt
    requires ChildrenListed(packages, modules)
    ensures ChildrenListed(packages', modules + [m])
  {
    var modules' := modules + [m];
    forall k | 0 <= k < |packages'|
      ensures ChildrenOf(packages', modules', k)
    {
      assert ChildrenOf(packages, modules, k);
      assert PackageFrame(packages[k], packages'[k]);
      forall j | 0 <= j < |modules|
        ensures IsInitChild(modules', k, j) == IsInitChild(modules, k, j)
      {
      }
    }
  }

  /**
   * After `build`, a package has an init module exactly when one of its
   * modules is an init module, and that module is the file in the package's
   * directory whose name the init test accepts (`__init__.py` once
   * corrected).
   */
  lemma InitModuleIsInitFile(info: PackageInfo, rootPath: FsPath, fs: seq<FsItem>, k: nat, test: InitTest)
    requires |rootPath| >= 1 && Mirrors(info, rootPath, fs, test)
    requires ModuleParents(info.packages, info.modules) && ChildrenListed(info.packages, info.modules)
    requires k < |info.packages|
    ensures info.packages[k].initModule.Some? <==> exists m :: IsInitChild(info.modules, k, m)
    ensures info.packages[k].initModule.Some? ==>
      var m := info.packages[k].initModule.value;
      m < |info.modules| && m in info.packages[k].modules
      && info.modules[m].path == info.packages[k].path + [InitName(test)]
  {
    assert ChildrenOf(info.packages, info.modules, k);
    if info.packages[k].initModule.Some? {
      var m := info.packages[k].initModule.value;
      assert IsInitChild(info.modules, k, m);
      assert ModuleParentAt(info.packages, info.modules, m);
      assert MadeModule(info.modules[m], Files(fs)[m], m, rootPath, test);
      var p := info.modules[m].path;
      assert p == ParentDir(p) + [FileName(p)];
    }
  }

  /** The files of a listing the reader yields are not hidden either. */
  lemma {:induction false} VisibleFiles(fs: seq<FsItem>)
    requires Visible(fs)
    ensures forall m :: 0 <= m < |Files(fs)| && |Files(fs)[m]| >= 1 ==> !Hidden(FileName(Files(fs)[m]))
    decreases |fs|
  {
    if fs != [] {
      var n := |fs| - 1;
      assert Visible(fs[..n]) by {
        assert forall i :: 0 <= i < n ==> fs[..n][i] == fs[i];
      }
      VisibleFiles(fs[..n]);
    }
  }

  /**
   * As written, `build` records no init module: the reader lists no hidden
   * file, and the as-written test accepts only the hidden name
   * `.__init__.py`, so no module is marked as init and no package gets an
   * `init_module`.
   */
  lemma AsWrittenRecordsNoInit(info: PackageInfo, rootPath: FsPath, fs: seq<FsItem>)
    requires |rootPath| >= 1 && Visible(fs) && Mirrors(info, rootPath, fs, AsWritten)
    requires ChildrenListed(info.packages, info.modules)
    ensures forall m :: 0 <= m < |info.modules| ==> !info.modules[m].isInit
    ensures forall k :: 0 <= k < |info.packages| ==> info.packages[k].initModule.None?
  {
    VisibleFiles(fs);
    forall m | 0 <= m < |info.modules|
      ensures !info.modules[m].isInit
    {
      assert MadeModule(info.modules[m], Files(fs)[m], m, rootPath, AsWritten);
      assert Hidden(InitName(AsWritten));
    }
    forall k | 0 <= k < |info.packages|
      ensures info.packages[k].initModule.None?
    {
      assert ChildrenOf(info.packages, info.modules, k);
    }
  }
}
