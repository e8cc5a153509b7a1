/**
 * The import graph of the string-keyed generation
 * (src/import_graph/graph.rs): the package and module indexes, the import
 * map and its reverse, the queries over them and the transforms that return
 * a changed copy. A package named in a query stands for all the modules of
 * its tree; transitive queries go through the breadth-first search of
 * `GraphSearch`.
 */
module ImportGraphs {
  import opened Wrappers
  import opened Errors
  import Strings
  import opened GraphPackageDiscovery
  import opened GraphImportDiscovery
  import opened GraphIndexing
  import opened GraphSearch

  datatype ImportGraph = ImportGraph(
    packagesByPypath: map<string, Package>,
    modulesByPypath: ModulesByPypath,
    packagesByModule: map<Module, Package>,
    imports: Imports,
    reverseImports: Imports)

  /** The pypaths of a set of modules. */
  function PypathsOf(ms: set<Module>): set<string>
  {
    set m | m in ms :: m.pypath
  }

  /** Each index entry sits under its own pypath, as the indexing builds them. */
  ghost predicate Indexed(g: ImportGraph)
  {
    && (forall k :: k in g.packagesByPypath ==> g.packagesByPypath[k].pypath == k)
    && (forall k :: k in g.modulesByPypath ==> g.modulesByPypath[k].pypath == k)
  }

  /** Every module the import map mentions has an entry of its own, in both directions. */
  ghost predicate Closed(imports: Imports)
  {
    forall m, t :: m in imports && t in imports[m] ==> t in imports
  }

  /** `reverse_imports` holds exactly the importers of each module. */
  ghost predicate Mirrored(imports: Imports, reverse: Imports)
  {
    && (forall m :: m in imports ==> m in reverse)
    && forall to, from :: to in reverse ==> (from in reverse[to] <==> from in imports && to in imports[from])
  }

  /** `packages`: the pypaths of the indexed packages. */
  function PackagePypaths(g: ImportGraph): (r: set<string>)
    ensures forall s :: s in r <==> exists k :: k in g.packagesByPypath && g.packagesByPypath[k].pypath == s
  {
    set k | k in g.packagesByPypath :: g.packagesByPypath[k].pypath
  }

  /** `modules`: the pypaths of the indexed modules. */
  function ModulePypaths(g: ImportGraph): (r: set<string>)
    ensures forall s :: s in r <==> exists k :: k in g.modulesByPypath && g.modulesByPypath[k].pypath == s
  {
    set k | k in g.modulesByPypath :: g.modulesByPypath[k].pypath
  }

  /** With every entry under its own pypath, the package and module names are the index keys. */
  lemma NamesAreKeys(g: ImportGraph)
    requires Indexed(g)
    ensures PackagePypaths(g) == g.packagesByPypath.Keys
    ensures ModulePypaths(g) == g.modulesByPypath.Keys
  {
    forall s | s in g.packagesByPypath
      ensures s in PackagePypaths(g)
    {
      assert g.packagesByPypath[s].pypath == s;
    }
    forall s | s in g.modulesByPypath
      ensures s in ModulePypaths(g)
    {
      assert g.modulesByPypath[s].pypath == s;
    }
  }

  /**
   * `package_from_module`: the package holding the named module;
   * `ModuleNotFound` for an unknown name. The source unwraps the
   * package-by-module lookup, so a known module must have a package.
   */
  function PackageFromModule(g: ImportGraph, name: string): (r: Result<string, GraphError>)
    requires name in g.modulesByPypath ==> g.modulesByPypath[name] in g.packagesByModule
    ensures r.Err? <==> name !in g.modulesByPypath
    ensures r.Err? ==> r.error == ModuleNotFound(name)
    ensures r.Ok? ==> r.value == g.packagesByModule[g.modulesByPypath[name]].pypath
  {
    if name !in g.modulesByPypath then Err(ModuleNotFound(name))
    else Ok(g.packagesByModule[g.modulesByPypath[name]].pypath)
  }

  /** `child_packages`: the pypaths of the package's direct children; `PackageNotFound` for an unknown name. */
  method ChildPackages(g: ImportGraph, package: string) returns (r: Result<set<string>, GraphError>)
    ensures r.Err? <==> package !in g.packagesByPypath
    ensures r.Err? ==> r.error == PackageNotFound(package)
    ensures r.Ok? ==> forall s :: s in r.value <==>
      exists c :: c in g.packagesByPypath[package].children && c.pypath == s
  {
    if package !in g.packagesByPypath {
      return Err(PackageNotFound(package));
    }
    var children := g.packagesByPypath[package].children;
    var packages: set<string> := {};
    var i := 0;
    while i < |children|
      invariant 0 <= i <= |children|
      invariant forall s :: s in packages <==> exists j :: 0 <= j < i && children[j].pypath == s
    {
      packages := packages + {children[i].pypath};
      i := i + 1;
    }
    r := Ok(packages);
  }

  /** `child_modules`: the pypaths of the package's own modules; `PackageNotFound` for an unknown name. */
  method ChildModules(g: ImportGraph, package: string) returns (r: Result<set<string>, GraphError>)
    ensures r.Err? <==> package !in g.packagesByPypath
    ensures r.Err? ==> r.error == PackageNotFound(package)
    ensures r.Ok? ==> forall s :: s in r.value <==>
      exists m :: m in g.packagesByPypath[package].modules && m.pypath == s
  {
    if package !in g.packagesByPypath {
      return Err(PackageNotFound(package));
    }
    var ms := g.packagesByPypath[package].modules;
    var modules: set<string> := {};
    var i := 0;
    while i < |ms|
      invariant 0 <= i <= |ms|
      invariant forall s :: s in modules <==> exists j :: 0 <= j < i && ms[j].pypath == s
    {
      modules := modules + {ms[i].pypath};
      i := i + 1;
    }
    r := Ok(modules);
  }

  /** A package in a tree has no more packages below it than the tree. */
  lemma {:induction false} InTreeSize(p: Package, x: Package)
    requires x in Packages(p)
    ensures Size(x) <= Size(p)
    decreases p
  {
    if x != p {
      InListSize(p.children, x);
    }
  }

  lemma {:induction false} InListSize(ps: seq<Package>, x: Package)
    requires x in PackagesIn(ps)
    ensures Size(x) <= SizeIn(ps)
    decreases ps
  {
    if x in Packages(ps[0]) {
      InTreeSize(ps[0], x);
    } else {
      InListSize(ps[1..], x);
    }
  }

  /** A package is not among its own descendants. */
  lemma NotOwnDescendant(p: Package)
    ensures p !in PackagesIn(p.children)
  {
    if p in PackagesIn(p.children) {
      InListSize(p.children, p);
    }
  }

  /** The tree of a package in a tree lies inside that tree. */
  lemma {:induction false} SubtreeInTree(p: Package, x: Package)
    requires x in Packages(p)
    ensures Packages(x) <= Packages(p)
    decreases p
  {
    if x != p {
      SubtreeInList(p.children, x);
    }
  }

  lemma {:induction false} SubtreeInList(ps: seq<Package>, x: Package)
    requires x in PackagesIn(ps)
    ensures Packages(x) <= PackagesIn(ps)
    decreases ps
  {
    if x in Packages(ps[0]) {
      SubtreeInTree(ps[0], x);
    } else {
      SubtreeInList(ps[1..], x);
    }
  }

  /**
   * `_descendant_packages`: a stack walk that pushes every child it meets.
   * The result holds exactly the packages below `package`, not `package`
   * itself.
   */
  method DescendantPackageList(package: Package) returns (packages: seq<Package>)
    ensures forall x :: x in packages <==> x in PackagesIn(package.children)
    ensures package !in packages
  {
    packages := [];
    var q := [package];
    assert [package][1..] == [];
    NotOwnDescendant(package);
    while |q| > 0
      invariant forall x :: x in packages ==> x in PackagesIn(package.children)
      invariant forall x :: x in PackagesIn(q) ==> x == package || x in PackagesIn(package.children)
      invariant forall x :: x in q ==> x == package || x in packages
      invariant forall x :: x in PackagesIn(package.children) ==> x in packages || x in PackagesIn(q)
      decreases SizeIn(q)
    {
      PopPush(q);
      var top := q[|q| - 1];
      InAppend(q[..|q| - 1], top.children);
      forall c | c in top.children
        ensures c in PackagesIn(package.children)
      {
        ChildInList(top.children, c);
        if top != package {
          SubtreeInList(package.children, top);
        }
      }
      packages := packages + top.children;
      q := q[..|q| - 1] + top.children;
    }
  }

  /** `_descendant_modules`: a stack walk collecting the modules of the package and of every package below it. */
  method DescendantModuleSet(package: Package) returns (modules: set<Module>)
    ensures modules == Modules(package)
  {
    modules := {};
    var q := [package];
    assert [package][1..] == [];
    while |q| > 0
      invariant modules <= Modules(package)
      invariant ModulesIn(q) <= Modules(package)
      invariant forall x :: x in Modules(package) ==> x in modules || x in ModulesIn(q)
      decreases SizeIn(q)
    {
      PopPush(q);
      var top := q[|q| - 1];
      modules := modules + (set m | m in top.modules);
      q := q[..|q| - 1] + top.children;
    }
  }

  /** `descendant_packages`: the pypaths of every package below the named one; `PackageNotFound` for an unknown name. */
  method DescendantPackages(g: ImportGraph, package: string) returns (r: Result<set<string>, GraphError>)
    ensures r.Err? <==> package !in g.packagesByPypath
    ensures r.Err? ==> r.error == PackageNotFound(package)
    ensures r.Ok? ==> forall s :: s in r.value <==>
      exists x :: x in PackagesIn(g.packagesByPypath[package].children) && x.pypath == s
  {
    if package !in g.packagesByPypath {
      return Err(PackageNotFound(package));
    }
    var packages := DescendantPackageList(g.packagesByPypath[package]);
    r := Ok(set x | x in packages :: x.pypath);
  }

  /** `descendant_modules`: the pypaths of every module of the named package's tree; `PackageNotFound` for an unknown name. */
  method DescendantModules(g: ImportGraph, package: string) returns (r: Result<set<string>, GraphError>)
    ensures r.Err? <==> package !in g.packagesByPypath
    ensures r.Err? ==> r.error == PackageNotFound(package)
    ensures r.Ok? ==> r.value == PypathsOf(Modules(g.packagesByPypath[package]))
  {
    if package !in g.packagesByPypath {
      return Err(PackageNotFound(package));
    }
    var modules := DescendantModuleSet(g.packagesByPypath[package]);
    r := Ok(PypathsOf(modules));
  }

  /** The modules a name stands for: every module of a package's tree, or the module itself. */
  function Expansion(g: ImportGraph, name: string): set<Module>
  {
    if name in g.packagesByPypath then Modules(g.packagesByPypath[name])
    else if name in g.modulesByPypath then {g.modulesByPypath[name]}
    else {}
  }

  /** A name that is a package or a module. */
  predicate Known(g: ImportGraph, name: string)
  {
    name in g.packagesByPypath || name in g.modulesByPypath
  }

  /**
   * The lookup every query starts with: a package stands for the modules of
   * its tree, else a module for itself; any other name is `ModuleNotFound`.
   */
  method Expand(g: ImportGraph, name: string) returns (r: Result<set<Module>, GraphError>)
    ensures r.Err? <==> !Known(g, name)
    ensures r.Err? ==> r.error == ModuleNotFound(name)
    ensures r.Ok? ==> r.value == Expansion(g, name)
  {
    if name in g.packagesByPypath {
      var modules := DescendantModuleSet(g.packagesByPypath[name]);
      r := Ok(modules);
    } else if name in g.modulesByPypath {
      r := Ok({g.modulesByPypath[name]});
    } else {
      r := Err(ModuleNotFound(name));
    }
  }

  /** No two modules of the import map share a pypath. */
  ghost predicate PypathsDistinct(imports: Imports)
  {
    forall a, b :: a in imports && b in imports && a.pypath == b.pypath ==> a == b
  }

  /** `direct_imports`: the import map keyed and valued by pypaths. */
  function DirectImports(g: ImportGraph): (r: map<string, set<string>>)
    requires PypathsDistinct(g.imports)
    ensures r.Keys == PypathsOf(g.imports.Keys)
    ensures forall m :: m in g.imports ==> r[m.pypath] == PypathsOf(g.imports[m])
  {
    map m | m in g.imports :: m.pypath := PypathsOf(g.imports[m])
  }

  /** `direct_imports_flat`: every import as a pair of pypaths. */
  function DirectImportsFlat(g: ImportGraph): (r: set<(string, string)>)
    requires PypathsDistinct(g.imports)
    ensures forall a, b :: (a, b) in r <==> a in DirectImports(g) && b in DirectImports(g)[a]
  {
    set m, t | m in g.imports && t in g.imports[m] :: (m.pypath, t.pypath)
  }

  /** Some module of `from` imports some module of `to`. */
  ghost predicate SomeImport(imports: Imports, from: set<Module>, to: set<Module>)
  {
    exists f, t :: f in from && t in to && f in imports && t in imports[f]
  }

  /**
   * `direct_import_exists`: whether a module of the first name's expansion
   * imports one of the second's. The source unwraps the import entry of
   * every module it looks at.
   */
  method DirectImportExists(g: ImportGraph, from: string, to: string) returns (r: Result<bool, GraphError>)
    requires Expansion(g, from) <= g.imports.Keys
    ensures !Known(g, from) ==> r == Err(ModuleNotFound(from))
    ensures Known(g, from) && !Known(g, to) ==> r == Err(ModuleNotFound(to))
    ensures Known(g, from) && Known(g, to) ==>
      r == Ok(SomeImport(g.imports, Expansion(g, from), Expansion(g, to)))
  {
    var fromModules := Expand(g, from);
    if fromModules.Err? {
      return Err(fromModules.error);
    }
    var toModules := Expand(g, to);
    if toModules.Err? {
      return Err(toModules.error);
    }
    var found := AnyImport(g.imports, fromModules.value, toModules.value);
    r := Ok(found);
  }

  /** The nested loop of `direct_import_exists`, returning at the first import found. */
  method AnyImport(imports: Imports, from: set<Module>, to: set<Module>) returns (found: bool)
    requires from <= imports.Keys
    ensures found == SomeImport(imports, from, to)
  {
    var todo := from;
    while todo != {}
      invariant todo <= from
      invariant forall f, t :: f in from && f !in todo && t in to ==> t !in imports[f]
      decreases |todo|
    {
      var f :| f in todo;
      var targets := to;
      while targets != {}
        invariant targets <= to
        invariant forall t :: t in to && t !in targets ==> t !in imports[f]
        decreases |targets|
      {
        var t :| t in targets;
        if t in imports[f] {
          return true;
        }
        targets := targets - {t};
      }
      todo := todo - {f};
    }
    return false;
  }

  /**
   * `modules_directly_imported_by`: the pypaths of every module imported by
   * a module of the name's expansion. The expansion's own modules stay in
   * the result when they import each other.
   */
  method ModulesDirectlyImportedBy(g: ImportGraph, name: string) returns (r: Result<set<string>, GraphError>)
    requires Expansion(g, name) <= g.imports.Keys
    ensures r.Err? <==> !Known(g, name)
    ensures r.Err? ==> r.error == ModuleNotFound(name)
    ensures r.Ok? ==> r.value == PypathsOf(ImportedBy(g.imports, Expansion(g, name)))
  {
    var from := Expand(g, name);
    if from.Err? {
      return Err(from.error);
    }
    var modules := Neighbours(g.imports, from.value);
    r := Ok(PypathsOf(modules));
  }

  /**
   * `modules_that_directly_import`: the same over the reverse map. When the
   * reverse map mirrors the import map, this is every module importing a
   * module of the expansion (`ImportersOf`).
   */
  method ModulesThatDirectlyImport(g: ImportGraph, name: string) returns (r: Result<set<string>, GraphError>)
    requires Expansion(g, name) <= g.reverseImports.Keys
    ensures r.Err? <==> !Known(g, name)
    ensures r.Err? ==> r.error == ModuleNotFound(name)
    ensures r.Ok? ==> r.value == PypathsOf(ImportedBy(g.reverseImports, Expansion(g, name)))
  {
    var to := Expand(g, name);
    if to.Err? {
      return Err(to.error);
    }
    var modules := Neighbours(g.reverseImports, to.value);
    r := Ok(PypathsOf(modules));
  }

  /** The loop shared by the two direct queries: the union of the map entries of `from`. */
  method Neighbours(imports: Imports, from: set<Module>) returns (modules: set<Module>)
    requires from <= imports.Keys
    ensures modules == ImportedBy(imports, from)
  {
    modules := {};
    var todo := from;
    while todo != {}
      invariant todo <= from
      invariant modules == ImportedBy(imports, from - todo)
      decreases |todo|
    {
      var f :| f in todo;
      ImportedByAdd(imports, from - todo, f);
      assert (from - todo) + {f} == from - (todo - {f});
      modules := modules + imports[f];
      todo := todo - {f};
    }
  }

  /** Every module that imports a module of `to`. */
  function ImportersOf(imports: Imports, to: set<Module>): set<Module>
  {
    set f, t | f in imports && t in to && t in imports[f] :: f
  }

  /** Over a mirrored reverse map, the reverse entries of `to` are the importers of `to`. */
  lemma ReverseEntriesAreImporters(imports: Imports, reverse: Imports, to: set<Module>)
    requires Closed(imports) && Mirrored(imports, reverse)
    ensures ImportedBy(reverse, to) == ImportersOf(imports, to)
  {
    forall f | f in ImportersOf(imports, to)
      ensures f in ImportedBy(reverse, to)
    {
      var t :| t in to && f in imports && t in imports[f];
      assert t in reverse && f in reverse[t];
    }
    forall f | f in ImportedBy(reverse, to)
      ensures f in ImportersOf(imports, to)
    {
      var t :| t in reverse && t in to && f in reverse[t];
      assert f in imports && t in imports[f];
    }
  }

  /** `x` is reached from a module of `from` other than itself: what the transitive queries report. */
  ghost predicate Below(imports: Imports, from: set<Module>, x: Module)
  {
    exists f :: f in from && x != f && Reachable(imports, {f}, x)
  }

  /**
   * The loop of `downstream_modules` and `upstream_modules`: for each module
   * of `from`, every module the search reaches, less the start the search
   * yields first. The source unwraps the entry of every module the search
   * reaches.
   */
  method Transitive(imports: Imports, from: set<Module>) returns (modules: set<Module>)
    requires Closed(imports) && from <= imports.Keys
    ensures forall x :: x in modules <==> Below(imports, from, x)
  {
    modules := {};
    var todo := from;
    while todo != {}
      invariant todo <= from
      invariant forall x :: x in modules <==> Below(imports, from - todo, x)
      decreases |todo|
    {
      var f :| f in todo;
      var reached := Reach(imports, {f});
      BelowStep(imports, from - todo, f, reached, modules);
      assert (from - todo) + {f} == from - (todo - {f});
      modules := modules + (reached - {f});
      todo := todo - {f};
    }
  }

  lemma BelowStep(imports: Imports, done: set<Module>, f: Module, reached: set<Module>, modules: set<Module>)
    requires forall x :: x in reached <==> Reachable(imports, {f}, x)
    requires forall x :: x in modules <==> Below(imports, done, x)
    ensures forall x :: x in modules + (reached - {f}) <==> Below(imports, done + {f}, x)
  {
  }

  /** `downstream_modules`: the pypaths of every module reached from the name's expansion, each start left out for itself. */
  method DownstreamModules(g: ImportGraph, name: string) returns (r: Result<set<string>, GraphError>)
    requires Closed(g.imports) && Expansion(g, name) <= g.imports.Keys
    ensures r.Err? <==> !Known(g, name)
    ensures r.Err? ==> r.error == ModuleNotFound(name)
    ensures r.Ok? ==> forall s :: s in r.value <==>
      exists x :: Below(g.imports, Expansion(g, name), x) && x.pypath == s
  {
    var from := Expand(g, name);
    if from.Err? {
      return Err(from.error);
    }
    var modules := Transitive(g.imports, from.value);
    r := Ok(PypathsOf(modules));
  }

  /**
   * `upstream_modules`: the same search over the reverse map. Over a
   * mirrored reverse map these are the modules from which an import path
   * leads into the expansion (`UpstreamIsReversedDownstream`).
   */
  method UpstreamModules(g: ImportGraph, name: string) returns (r: Result<set<string>, GraphError>)
    requires Closed(g.reverseImports) && Expansion(g, name) <= g.reverseImports.Keys
    ensures r.Err? <==> !Known(g, name)
    ensures r.Err? ==> r.error == ModuleNotFound(name)
    ensures r.Ok? ==> forall s :: s in r.value <==>
      exists x :: Below(g.reverseImports, Expansion(g, name), x) && x.pypath == s
  {
    var to := Expand(g, name);
    if to.Err? {
      return Err(to.error);
    }
    var modules := Transitive(g.reverseImports, to.value);
    r := Ok(PypathsOf(modules));
  }

  /** An import path read backwards is a path of the mirrored reverse map. */
  lemma BackwardsIsReversePath(imports: Imports, reverse: Imports, p: seq<Module>)
    requires Closed(imports) && Mirrored(imports, reverse)
    requires IsPath(imports, p)
    ensures IsPath(reverse, Backwards(p))
  {
    var b := Backwards(p);
    PathSteps(imports, p);
    PathSteps(reverse, b);
    forall i | 0 <= i < |b| - 1
      ensures b[i + 1] in Succs(reverse, b[i])
    {
      var j := |p| - 2 - i;
      assert b[i] == p[j + 1] && b[i + 1] == p[j];
      assert p[j + 1] in Succs(imports, p[j]);
    }
  }

  /** A path of the mirrored reverse map read backwards is an import path. */
  lemma BackwardsIsImportPath(imports: Imports, reverse: Imports, p: seq<Module>)
    requires Mirrored(imports, reverse)
    requires IsPath(reverse, p)
    ensures IsPath(imports, Backwards(p))
  {
    var b := Backwards(p);
    PathSteps(reverse, p);
    PathSteps(imports, b);
    forall i | 0 <= i < |b| - 1
      ensures b[i + 1] in Succs(imports, b[i])
    {
      var j := |p| - 2 - i;
      assert b[i] == p[j + 1] && b[i + 1] == p[j];
      assert p[j + 1] in Succs(reverse, p[j]);
    }
  }

  /** Over a mirrored reverse map, `x` reaches `t` backwards exactly when `x` imports its way to `t`. */
  lemma UpstreamIsReversedDownstream(imports: Imports, reverse: Imports, t: Module, x: Module)
    requires Closed(imports) && Mirrored(imports, reverse)
    ensures Reachable(reverse, {t}, x) <==> Reachable(imports, {x}, t)
  {
    if Reachable(reverse, {t}, x) {
      var p :| Connects(reverse, {t}, {x}, p);
      BackwardsIsImportPath(imports, reverse, p);
      assert Connects(imports, {x}, {t}, Backwards(p));
    }
    if Reachable(imports, {x}, t) {
      var p :| Connects(imports, {x}, {t}, p);
      BackwardsIsReversePath(imports, reverse, p);
      assert Connects(reverse, {t}, {x}, Backwards(p));
    }
  }

  /** A route from `f` to `t`: an import path, of at least one import when it comes back to `f`. */
  ghost predicate Route(imports: Imports, f: Module, t: Module, q: seq<Module>)
  {
    Connects(imports, {f}, {t}, q) && (f == t ==> |q| >= 2)
  }

  /**
   * `_shortest_path`: a shortest cycle back to the module when both ends
   * are the same module, else a shortest path between them.
   */
  method ShortestModulePath(imports: Imports, f: Module, t: Module) returns (r: Option<seq<Module>>)
    requires Closed(imports) && f in imports
    ensures r.Some? ==> Route(imports, f, t, r.value)
    ensures r.Some? ==> forall q :: Route(imports, f, t, q) ==> |r.value| <= |q|
    ensures r.None? ==> forall q :: !Route(imports, f, t, q)
  {
    if f == t {
      r := ShortestCycle(imports, f);
    } else {
      r := ShortestPath(imports, f, t);
    }
  }

  /** The pypaths along a path. */
  function PypathSeq(p: seq<Module>): (r: seq<string>)
    ensures |r| == |p| && forall i :: 0 <= i < |p| ==> r[i] == p[i].pypath
  {
    seq(|p|, i requires 0 <= i < |p| => p[i].pypath)
  }

  /** A shortest route from `f` to `t`. */
  ghost predicate ShortestRoute(imports: Imports, f: Module, t: Module, p: seq<Module>)
  {
    Route(imports, f, t, p) && forall q :: Route(imports, f, t, q) ==> |p| <= |q|
  }

  /**
   * `shortest_path`: both names must be modules (`ModuleNotFound`
   * otherwise, the first name checked first); the result is the pypaths
   * along a shortest route, or nothing when there is no route.
   */
  method ShortestPathBetween(g: ImportGraph, from: string, to: string) returns (r: Result<Option<seq<string>>, GraphError>)
    requires Closed(g.imports)
    requires from in g.modulesByPypath ==> g.modulesByPypath[from] in g.imports
    ensures from !in g.modulesByPypath ==> r == Err(ModuleNotFound(from))
    ensures from in g.modulesByPypath && to !in g.modulesByPypath ==> r == Err(ModuleNotFound(to))
    ensures from in g.modulesByPypath && to in g.modulesByPypath ==> r.Ok?
    ensures from in g.modulesByPypath && to in g.modulesByPypath && r.Ok? ==>
      var f, t := g.modulesByPypath[from], g.modulesByPypath[to];
      && (r.value.None? <==> forall q :: !Route(g.imports, f, t, q))
      && (r.value.Some? ==> exists p :: ShortestRoute(g.imports, f, t, p) && r.value.value == PypathSeq(p))
  {
    if from !in g.modulesByPypath {
      return Err(ModuleNotFound(from));
    }
    if to !in g.modulesByPypath {
      return Err(ModuleNotFound(to));
    }
    var f, t := g.modulesByPypath[from], g.modulesByPypath[to];
    var p := ShortestModulePath(g.imports, f, t);
    if p.Some? {
      assert ShortestRoute(g.imports, f, t, p.value);
      r := Ok(Some(PypathSeq(p.value)));
    } else {
      r := Ok(None);
    }
  }

  /** Some module of `from` has a route to some module of `to`. */
  ghost predicate SomeRoute(imports: Imports, from: set<Module>, to: set<Module>)
  {
    exists f, t, q :: f in from && t in to && Route(imports, f, t, q)
  }

  /**
   * `path_exists`: whether some module of the first name's expansion has a
   * route to some module of the second's; a module counts as reaching
   * itself only through a cycle.
   */
  method PathExists(g: ImportGraph, from: string, to: string) returns (r: Result<bool, GraphError>)
    requires Closed(g.imports) && Expansion(g, from) <= g.imports.Keys
    ensures !Known(g, from) ==> r == Err(ModuleNotFound(from))
    ensures Known(g, from) && !Known(g, to) ==> r == Err(ModuleNotFound(to))
    ensures Known(g, from) && Known(g, to) ==>
      r == Ok(SomeRoute(g.imports, Expansion(g, from), Expansion(g, to)))
  {
    var fromModules := Expand(g, from);
    if fromModules.Err? {
      return Err(fromModules.error);
    }
    var toModules := Expand(g, to);
    if toModules.Err? {
      return Err(toModules.error);
    }
    var found := AnyRoute(g.imports, fromModules.value, toModules.value);
    r := Ok(found);
  }

  /** The nested loop of `path_exists`, returning at the first pair with a route. */
  method AnyRoute(imports: Imports, from: set<Module>, to: set<Module>) returns (found: bool)
    requires Closed(imports) && from <= imports.Keys
    ensures found == SomeRoute(imports, from, to)
  {
    var todo := from;
    while todo != {}
      invariant todo <= from
      invariant forall f, t, q :: f in from && f !in todo && t in to ==> !Route(imports, f, t, q)
      decreases |todo|
    {
      var f :| f in todo;
      var targets := to;
      while targets != {}
        invariant targets <= to
        invariant forall t, q :: t in to && t !in targets ==> !Route(imports, f, t, q)
        decreases |targets|
      {
        var t :| t in targets;
        var p := ShortestModulePath(imports, f, t);
        if p.Some? {
          return true;
        }
        targets := targets - {t};
      }
      todo := todo - {f};
    }
    return false;
  }

  /** Every module of the module index has an entry in the import map. */
  ghost predicate ModulesHaveEntries(g: ImportGraph)
  {
    forall k :: k in g.modulesByPypath ==> g.modulesByPypath[k] in g.imports
  }

  /** `indexing::reverse_imports` as the transforms use it: a reverse map mirroring the import map. */
  method MirrorOf(imports: Imports) returns (reverse: Imports)
    ensures Mirrored(imports, reverse)
  {
    reverse := ReverseImports(imports);
  }

  /** What is wrong with one pair of `ignore_imports`: an unknown name, or no such import. */
  function CheckPair(g: ImportGraph, pair: (string, string)): (r: Option<GraphError>)
    requires ModulesHaveEntries(g)
    ensures r.None? <==>
      pair.0 in g.modulesByPypath && pair.1 in g.modulesByPypath
      && g.modulesByPypath[pair.1] in g.imports[g.modulesByPypath[pair.0]]
  {
    if pair.0 !in g.modulesByPypath then Some(ModuleNotFound(pair.0))
    else if pair.1 !in g.modulesByPypath then Some(ModuleNotFound(pair.1))
    else
      var f, t := g.modulesByPypath[pair.0], g.modulesByPypath[pair.1];
      if t !in g.imports[f] then Some(ImportNotFound(f.pypath, t.pypath)) else None
  }

  /** The import a checked pair names. */
  function PairImport(g: ImportGraph, pair: (string, string)): (Module, Module)
    requires ModulesHaveEntries(g) && CheckPair(g, pair).None?
  {
    (g.modulesByPypath[pair.0], g.modulesByPypath[pair.1])
  }

  /** `imports'` is `imports` without the given edges, every key kept. */
  ghost predicate EdgesRemoved(imports: Imports, edges: set<(Module, Module)>, imports': Imports)
  {
    && (forall m :: m in imports' <==> m in imports)
    && forall m, t :: m in imports' ==> (t in imports'[m] <==> t in imports[m] && (m, t) !in edges)
  }

  /**
   * `ignore_imports`: the first failing pair gives its error; when every
   * pair names an existing import, a copy of the graph without exactly
   * those imports and with the reverse map rebuilt to mirror the rest.
   */
  method IgnoreImports(g: ImportGraph, pairs: seq<(string, string)>) returns (r: Result<ImportGraph, GraphError>)
    requires ModulesHaveEntries(g)
    ensures r.Err? ==> exists i ::
      0 <= i < |pairs| && CheckPair(g, pairs[i]) == Some(r.error)
      && forall j :: 0 <= j < i ==> CheckPair(g, pairs[j]).None?
    ensures r.Ok? <==> forall i :: 0 <= i < |pairs| ==> CheckPair(g, pairs[i]).None?
    ensures r.Ok? ==>
      && r.value.packagesByPypath == g.packagesByPypath
      && r.value.modulesByPypath == g.modulesByPypath
      && r.value.packagesByModule == g.packagesByModule
      && EdgesRemoved(g.imports, set i | 0 <= i < |pairs| :: PairImport(g, pairs[i]), r.value.imports)
      && Mirrored(r.value.imports, r.value.reverseImports)
  {
    var toRemove: seq<(Module, Module)> := [];
    var i := 0;
    while i < |pairs|
      invariant 0 <= i <= |pairs|
      invariant forall j :: 0 <= j < i ==> CheckPair(g, pairs[j]).None?
      invariant |toRemove| == i && forall j :: 0 <= j < i ==> toRemove[j] == PairImport(g, pairs[j])
    {
      var (from, to) := pairs[i];
      if from !in g.modulesByPypath {
        return Err(ModuleNotFound(from));
      }
      if to !in g.modulesByPypath {
        return Err(ModuleNotFound(to));
      }
      var f, t := g.modulesByPypath[from], g.modulesByPypath[to];
      if t !in g.imports[f] {
        return Err(ImportNotFound(f.pypath, t.pypath));
      }
      toRemove := toRemove + [(f, t)];
      i := i + 1;
    }
    ghost var edges := set j | 0 <= j < |pairs| :: PairImport(g, pairs[j]);
    var imports := g.imports;
    var j := 0;
    while j < |toRemove|
      invariant 0 <= j <= |toRemove|
      invariant EdgesRemoved(g.imports, set k | 0 <= k < j :: toRemove[k], imports)
    {
      var (f, t) := toRemove[j];
      RemoveStep(g.imports, toRemove, j, imports);
      imports := imports[f := imports[f] - {t}];
      j := j + 1;
    }
    assert (set k | 0 <= k < |toRemove| :: toRemove[k]) == edges;
    var reverse := MirrorOf(imports);
    r := Ok(g.(imports := imports, reverseImports := reverse));
  }

  lemma RemoveStep(imports: Imports, toRemove: seq<(Module, Module)>, j: nat, current: Imports)
    requires j < |toRemove| && toRemove[j].0 in imports
    requires EdgesRemoved(imports, set k | 0 <= k < j :: toRemove[k], current)
    ensures toRemove[j].0 in current
    ensures EdgesRemoved(imports, set k | 0 <= k < j + 1 :: toRemove[k],
      current[toRemove[j].0 := current[toRemove[j].0] - {toRemove[j].1}])
  {
    assert (set k | 0 <= k < j + 1 :: toRemove[k]) == (set k | 0 <= k < j :: toRemove[k]) + {toRemove[j]};
  }

  /** `m` indexes exactly the given packages, each under its own pypath. */
  ghost predicate IndexesPackages(m: map<string, Package>, ps: set<Package>)
  {
    && (forall k :: k in m ==> m[k].pypath == k && m[k] in ps)
    && (forall p :: p in ps ==> p.pypath in m)
  }

  /** The package index of `subgraph`, collected in list order (a later package with the same pypath wins). */
  method IndexPackages(ps: seq<Package>) returns (m: map<string, Package>)
    ensures IndexesPackages(m, set p | p in ps)
  {
    m := map[];
    var i := 0;
    while i < |ps|
      invariant 0 <= i <= |ps|
      invariant forall k :: k in m ==> m[k].pypath == k && m[k] in ps
      invariant forall j :: 0 <= j < i ==> ps[j].pypath in m
    {
      m := m[ps[i].pypath := ps[i]];
      i := i + 1;
    }
  }

  /** The module index of `subgraph`, one entry per module. */
  method IndexModules(ms: set<Module>) returns (m: ModulesByPypath)
    ensures forall k :: k in m ==> m[k].pypath == k && m[k] in ms
    ensures forall x :: x in ms ==> x.pypath in m
  {
    m := map[];
    var todo := ms;
    while todo != {}
      invariant todo <= ms
      invariant forall k :: k in m ==> m[k].pypath == k && m[k] in ms
      invariant forall x :: x in ms && x !in todo ==> x.pypath in m
      decreases |todo|
    {
      var x :| x in todo;
      m := m[x.pypath := x];
      todo := todo - {x};
    }
  }

  /** The imports among `modules`: every module of `modules` keyed, with its imports inside `modules`. */
  ghost predicate Restricted(imports: Imports, modules: set<Module>, sub: Imports)
  {
    && (forall m :: m in sub <==> m in modules)
    && forall m, t :: m in sub ==> (t in sub[m] <==> t in modules && m in imports && t in imports[m])
  }

  /** The fold of `subgraph` over every ordered pair of its modules, keeping the pairs that are imports. */
  method RestrictImports(imports: Imports, modules: set<Module>) returns (sub: Imports)
    requires modules <= imports.Keys
    ensures Restricted(imports, modules, sub)
  {
    sub := map[];
    var todo := modules;
    while todo != {}
      invariant todo <= modules
      invariant forall m :: m in sub <==> m in modules && m !in todo
      invariant forall m, t :: m in sub ==> (t in sub[m] <==> t in modules && t in imports[m])
      decreases |todo|
    {
      var m1 :| m1 in todo;
      sub := sub[m1 := {}];
      var targets := modules;
      while targets != {}
        invariant targets <= modules
        invariant forall m :: m in sub <==> (m in modules && m !in todo) || m == m1
        invariant forall m, t :: m in sub && m != m1 ==> (t in sub[m] <==> t in modules && t in imports[m])
        invariant forall t :: t in sub[m1] <==> t in modules && t !in targets && t in imports[m1]
        decreases |targets|
      {
        var m2 :| m2 in targets;
        if m2 in imports[m1] {
          sub := sub[m1 := sub[m1] + {m2}];
        }
        targets := targets - {m2};
      }
      todo := todo - {m1};
    }
  }

  /**
   * `subgraph`: the graph of the named package's tree alone: its packages
   * (the package and everything below it), its modules, and only the
   * imports whose two ends are both among them, with the reverse map
   * rebuilt; `PackageNotFound` for an unknown name.
   */
  method Subgraph(g: ImportGraph, name: string) returns (r: Result<ImportGraph, GraphError>)
    requires name in g.packagesByPypath ==> Modules(g.packagesByPypath[name]) <= g.imports.Keys
    ensures r.Err? <==> name !in g.packagesByPypath
    ensures r.Err? ==> r.error == PackageNotFound(name)
    ensures r.Ok? ==> var p := g.packagesByPypath[name];
      && IndexesPackages(r.value.packagesByPypath, Packages(p))
      && (forall k :: k in r.value.modulesByPypath ==> r.value.modulesByPypath[k].pypath == k && r.value.modulesByPypath[k] in Modules(p))
      && (forall x :: x in Modules(p) ==> x.pypath in r.value.modulesByPypath)
      && (forall m :: m in r.value.packagesByModule <==> m in g.packagesByModule && m in Modules(p))
      && (forall m :: m in r.value.packagesByModule ==> r.value.packagesByModule[m] == g.packagesByModule[m])
      && Restricted(g.imports, Modules(p), r.value.imports)
      && Mirrored(r.value.imports, r.value.reverseImports)
  {
    if name !in g.packagesByPypath {
      return Err(PackageNotFound(name));
    }
    var package := g.packagesByPypath[name];
    var below := DescendantPackageList(package);
    var packages := below + [package];
    assert (set x | x in packages) == Packages(package);
    var modules := DescendantModuleSet(package);
    var packagesByPypath := IndexPackages(packages);
    var modulesByPypath := IndexModules(modules);
    var packagesByModule := map m | m in g.packagesByModule && m in modules :: g.packagesByModule[m];
    var imports := RestrictImports(g.imports, modules);
    var reverse := MirrorOf(imports);
    r := Ok(ImportGraph(packagesByPypath, modulesByPypath, packagesByModule, imports, reverse));
  }

  predicate IsInit(m: Module)
  {
    Strings.EndsWith(m.pypath, ".__init__")
  }

  /** The position of the first init module of a module list. */
  function InitIndex(ms: seq<Module>): (j: nat)
    requires exists k :: 0 <= k < |ms| && IsInit(ms[k])
    ensures j < |ms| && IsInit(ms[j])
    ensures forall k :: 0 <= k < j ==> !IsInit(ms[k])
  {
    if IsInit(ms[0]) then 0
    else
      assert exists k :: 0 <= k < |ms[1..]| && IsInit(ms[1..][k]) by {
        var k :| 0 <= k < |ms| && IsInit(ms[k]);
        assert ms[1..][k - 1] == ms[k];
      }
      1 + InitIndex(ms[1..])
  }

  /** A package with an init module among its own modules. */
  predicate HasInit(p: Package)
  {
    exists k :: 0 <= k < |p.modules| && IsInit(p.modules[k])
  }

  /** `_init_module`: the first of the package's own modules whose pypath ends in `.__init__` (unwrapped by the source). */
  function InitModule(p: Package): (r: Module)
    requires HasInit(p)
    ensures r in p.modules && IsInit(r)
  {
    p.modules[InitIndex(p.modules)]
  }

  /**
   * The import map after squashing the modules `removed` into `init`:
   * the removed modules are gone as importers and as targets, `init`
   * imports whatever a removed module imported, a module that imported a
   * removed module imports `init` instead, and no module imports itself.
   */
  ghost predicate Squashed(imports: Imports, removed: set<Module>, init: Module, result: Imports)
  {
    && (forall k :: k in result <==> k in imports && k !in removed)
    && forall k, t {:trigger t in result[k]} :: k in result ==>
      (t in result[k] <==>
        && t !in removed && t != k
        && (|| t in imports[k]
            || (k == init && ImportedByAny(imports, removed, t))
            || (t == init && ImportsAny(imports, k, removed))))
  }

  /** The first loop of `squash_package` after the modules of `done`, up to imports of `init` by itself. */
  ghost predicate MergedSoFar(imports: Imports, done: set<Module>, init: Module, imp: Imports)
  {
    && (forall k :: k in imp <==> k in imports)
    && forall k, t {:trigger t in imp[k]} :: k in imp && !(k == init && t == init) ==>
      (t in imp[k] <==>
        || t in imports[k]
        || (k == init && ImportedByAny(imports, done, t))
        || (t == init && ImportsAny(imports, k, done)))
  }

  /** Some module of `ms` imports `t`. */
  ghost predicate ImportedByAny(imports: Imports, ms: set<Module>, t: Module)
  {
    exists r :: r in ms && r in imports && t in imports[r]
  }

  /** `k` imports some module of `ms`. */
  ghost predicate ImportsAny(imports: Imports, k: Module, ms: set<Module>)
    requires k in imports
  {
    exists r :: r in ms && r in imports[k]
  }

  /**
   * One module of the first loop: `init` takes over its imports, and every
   * module importing it also imports `init`, each change made on both maps.
   */
  method MergeInto(imp: Imports, rev: Imports, r: Module, init: Module) returns (imp': Imports, rev': Imports)
    requires Closed(imp) && Mirrored(imp, rev)
    requires r in imp && init in imp && r != init
    ensures Closed(imp') && Mirrored(imp', rev')
    ensures MergedOne(imp, r, init, imp')
  {
    var imported := imp[r];
    var imp1 := imp[init := imp[init] + imported];
    var rev1 := AddImporter(rev, init, imported);
    var importing := rev1[r];
    var imp2 := AddImporter(imp1, init, importing);
    var rev2 := rev1[init := rev1[init] + importing];
    imp', rev' := imp2, rev2;
  }

  /** `a` is `b` without the modules of `gone`, as importers and as targets. */
  ghost predicate Dropped(b: Imports, gone: set<Module>, a: Imports)
  {
    && (forall k :: k in a <==> k in b && k !in gone)
    && forall k, t :: k in a ==> (t in a[k] <==> t in b[k] && t !in gone)
  }

  /**
   * `squash_package`: the named package's tree becomes its init module.
   * The other modules of the tree are removed (their imports merged into the
   * init module, imports of them redirected to it), the packages below are
   * removed from the index, and self-imports are dropped; the reverse map
   * still mirrors the import map. `PackageNotFound` for an unknown name.
   */
  method SquashPackage(g: ImportGraph, name: string) returns (r: Result<ImportGraph, GraphError>)
    requires Closed(g.imports) && Mirrored(g.imports, g.reverseImports)
    requires name in g.packagesByPypath ==>
      HasInit(g.packagesByPypath[name]) && Modules(g.packagesByPypath[name]) <= g.imports.Keys
    ensures r.Err? <==> name !in g.packagesByPypath
    ensures r.Err? ==> r.error == PackageNotFound(name)
    ensures r.Ok? ==>
      var p := g.packagesByPypath[name];
      var removed := Modules(p) - {InitModule(p)};
      && Squashed(g.imports, removed, InitModule(p), r.value.imports)
      && Mirrored(r.value.imports, r.value.reverseImports)
      && (forall k :: k in r.value.modulesByPypath <==>
            k in g.modulesByPypath && k !in PypathsOf(removed))
      && (forall k :: k in r.value.modulesByPypath ==> r.value.modulesByPypath[k] == g.modulesByPypath[k])
      && (forall k :: k in r.value.packagesByModule <==> k in g.packagesByModule && k !in removed)
      && (forall k :: k in r.value.packagesByModule ==> r.value.packagesByModule[k] == g.packagesByModule[k])
      && (forall k :: k in r.value.packagesByPypath <==>
            k in g.packagesByPypath && forall x :: x in PackagesIn(p.children) ==> x.pypath != k)
      && (forall k :: k in r.value.packagesByPypath ==> r.value.packagesByPypath[k] == g.packagesByPypath[k])
  {
    if name !in g.packagesByPypath {
      return Err(PackageNotFound(name));
    }
    var package := g.packagesByPypath[name];
    var init := InitModule(package);
    var packagesToRemove := DescendantPackageList(package);
    var modules := DescendantModuleSet(package);
    var modulesToRemove := modules - {init};

    var imp, rev := MergeRemoved(g.imports, g.reverseImports, modulesToRemove, init);
    ghost var merged, mergedRev := imp, rev;
    var modulesByPypath, packagesByModule;
    imp, rev, modulesByPypath, packagesByModule := DropRemoved(imp, rev, g.modulesByPypath, g.packagesByModule, modulesToRemove);
    var packagesByPypath := RemovePackages(g.packagesByPypath, packagesToRemove);

    // Self-imports, which the merge gives the init module, go.
    ghost var dropped, droppedRev := imp, rev;
    imp := RemoveSelfImports(imp);
    rev := RemoveSelfImports(rev);
    SquashedImports(g.imports, modulesToRemove, init, merged, dropped, imp);
    DroppedMirror(merged, mergedRev, modulesToRemove, dropped, droppedRev);
    NoSelfMirror(dropped, droppedRev, imp, rev);
    r := Ok(ImportGraph(packagesByPypath, modulesByPypath, packagesByModule, imp, rev));
  }

  /** The last loops of `squash_package`: every module leaves its own value set. */
  method RemoveSelfImports(imports: Imports) returns (r: Imports)
    ensures NoSelf(imports, r)
  {
    r := map k | k in imports :: imports[k] - {k};
  }

  /** Moving one element from the work set to the done set, with the work set shrinking. */
  lemma TakeOne<T>(all: set<T>, todo: set<T>, m: T)
    requires m in todo && todo <= all
    ensures (all - todo) + {m} == all - (todo - {m})
    ensures |todo - {m}| < |todo|
  {
  }

  /** The first loop of `squash_package`: every module of `removed` merged into `init`, on both maps. */
  method MergeRemoved(imports: Imports, reverse: Imports, removed: set<Module>, init: Module) returns (imp: Imports, rev: Imports)
    requires Closed(imports) && Mirrored(imports, reverse)
    requires removed <= imports.Keys && init in imports && init !in removed
    ensures MergedSoFar(imports, removed, init, imp) && Mirrored(imp, rev)
  {
    imp, rev := imports, reverse;
    var todo := removed;
    while todo != {}
      invariant todo <= removed
      invariant Closed(imp) && Mirrored(imp, rev)
      invariant MergedSoFar(imports, removed - todo, init, imp)
      decreases |todo|
    {
      var m :| m in todo;
      ghost var before := imp;
      imp, rev := MergeInto(imp, rev, m, init);
      MergeStep(imports, removed - todo, init, m, before, imp);
      TakeOne(removed, todo, m);
      todo := todo - {m};
    }
  }

  /** `a` is the index `b` without the entries of `gone`. */
  ghost predicate Without<K(!new), V>(b: map<K, V>, gone: set<K>, a: map<K, V>)
  {
    && (forall k :: k in a <==> k in b && k !in gone)
    && forall k :: k in a ==> a[k] == b[k]
  }

  /** The second loop of `squash_package`: the modules of `removed` leave both maps and both module indexes. */
  method DropRemoved(imp: Imports, rev: Imports, byPypath: ModulesByPypath, byModule: map<Module, Package>, removed: set<Module>)
    returns (imp': Imports, rev': Imports, byPypath': ModulesByPypath, byModule': map<Module, Package>)
    ensures Dropped(imp, removed, imp') && Dropped(rev, removed, rev')
    ensures Without(byPypath, PypathsOf(removed), byPypath') && Without(byModule, removed, byModule')
  {
    imp', rev', byPypath', byModule' := imp, rev, byPypath, byModule;
    var todo := removed;
    while todo != {}
      invariant todo <= removed
      invariant Dropped(imp, removed - todo, imp') && Dropped(rev, removed - todo, rev')
      invariant Without(byPypath, PypathsOf(removed - todo), byPypath') && Without(byModule, removed - todo, byModule')
      decreases |todo|
    {
      var m :| m in todo;
      ghost var imp0, rev0, p0, b0 := imp', rev', byPypath', byModule';
      imp' := map k | k in imp' && k != m :: imp'[k] - {m};
      rev' := map k | k in rev' && k != m :: rev'[k] - {m};
      byPypath' := byPypath' - {m.pypath};
      byModule' := byModule' - {m};
      DropStep(imp, removed - todo, m, imp0, imp');
      DropStep(rev, removed - todo, m, rev0, rev');
      PypathsAdd(removed - todo, m);
      WithoutStep(byPypath, PypathsOf(removed - todo), m.pypath, p0, byPypath');
      WithoutStep(byModule, removed - todo, m, b0, byModule');
      TakeOne(removed, todo, m);
      todo := todo - {m};
    }
    assert removed - todo == removed;
  }

  lemma PypathsAdd(ms: set<Module>, m: Module)
    ensures PypathsOf(ms + {m}) == PypathsOf(ms) + {m.pypath}
  {
  }

  lemma WithoutStep<K(!new), V>(b: map<K, V>, gone: set<K>, k: K, a: map<K, V>, a': map<K, V>)
    requires Without(b, gone, a) && a' == a - {k}
    ensures Without(b, gone + {k}, a')
  {
  }

  /** The third loop of `squash_package`: the listed packages leave the package index. */
  method RemovePackages(byPypath: map<string, Package>, packages: seq<Package>) returns (byPypath': map<string, Package>)
    ensures forall k :: k in byPypath' <==> k in byPypath && forall x :: x in packages ==> x.pypath != k
    ensures forall k :: k in byPypath' ==> byPypath'[k] == byPypath[k]
  {
    byPypath' := byPypath;
    var i := 0;
    while i < |packages|
      invariant 0 <= i <= |packages|
      invariant forall k :: k in byPypath' <==> k in byPypath && forall x :: x in packages[..i] ==> x.pypath != k
      invariant forall k :: k in byPypath' ==> byPypath'[k] == byPypath[k]
    {
      assert packages[..i + 1] == packages[..i] + [packages[i]];
      byPypath' := byPypath' - {packages[i].pypath};
      i := i + 1;
    }
    assert packages[..i] == packages;
  }

  /** `after` is `before` with `r` merged into `init`, up to imports of `init` by itself. */
  ghost predicate MergedOne(before: Imports, r: Module, init: Module, after: Imports)
    requires r in before
  {
    && (forall k :: k in after <==> k in before)
    && forall k, t {:trigger t in after[k]} :: k in after && !(k == init && t == init) ==>
      (t in after[k] <==> t in before[k] || (k == init && t in before[r]) || (t == init && r in before[k]))
  }

  lemma MergeStep(imports: Imports, done: set<Module>, init: Module, r: Module, before: Imports, after: Imports)
    requires MergedSoFar(imports, done, init, before)
    requires r in imports && r != init
    requires MergedOne(before, r, init, after)
    ensures MergedSoFar(imports, done + {r}, init, after)
  {
    forall k, t {:trigger t in after[k]} | k in after && !(k == init && t == init)
      ensures t in after[k] <==>
        || t in imports[k]
        || (k == init && ImportedByAny(imports, done + {r}, t))
        || (t == init && ImportsAny(imports, k, done + {r}))
    {
      assert k in before && k in imports;
      assert t in after[k] <==> t in before[k] || (k == init && t in before[r]) || (t == init && r in before[k]);
      if k == init {
        assert t in before[k] <==> t in imports[k] || ImportedByAny(imports, done, t);
        assert t in before[r] <==> t in imports[r];
        assert ImportedByAny(imports, done + {r}, t) <==> ImportedByAny(imports, done, t) || t in imports[r];
      } else if t == init {
        assert t in before[k] <==> t in imports[k] || ImportsAny(imports, k, done);
        assert r in before[k] <==> r in imports[k];
        assert ImportsAny(imports, k, done + {r}) <==> ImportsAny(imports, k, done) || r in imports[k];
      } else {
        assert t in before[k] <==> t in imports[k];
      }
    }
  }

  lemma DropStep(b: Imports, done: set<Module>, m: Module, a: Imports, a': Imports)
    requires Dropped(b, done, a)
    requires a' == map k | k in a && k != m :: a[k] - {m}
    ensures Dropped(b, done + {m}, a')
  {
  }

  /** `a` is `b` without self-imports. */
  ghost predicate NoSelf(b: Imports, a: Imports)
  {
    && (forall k :: k in a <==> k in b)
    && forall k, t :: k in a ==> (t in a[k] <==> t in b[k] && t != k)
  }

  /** The merged, dropped and self-import-free map is the squashed import map. */
  lemma SquashedImports(imports: Imports, removed: set<Module>, init: Module, merged: Imports, dropped: Imports, imp: Imports)
    requires init !in removed
    requires MergedSoFar(imports, removed, init, merged)
    requires Dropped(merged, removed, dropped) && NoSelf(dropped, imp)
    ensures Squashed(imports, removed, init, imp)
  {
    forall k, t {:trigger t in imp[k]} | k in imp
      ensures t in imp[k] <==>
        && t !in removed && t != k
        && (|| t in imports[k]
            || (k == init && ImportedByAny(imports, removed, t))
            || (t == init && ImportsAny(imports, k, removed)))
    {
      assert k in dropped && k in merged && k in imports;
      assert t in imp[k] <==> t in dropped[k] && t != k;
      assert t in dropped[k] <==> t in merged[k] && t !in removed;
    }
  }

  /** Dropping the same modules from an import map and its mirror leaves a mirror. */
  lemma DroppedMirror(imp: Imports, rev: Imports, removed: set<Module>, imp': Imports, rev': Imports)
    requires Mirrored(imp, rev) && Dropped(imp, removed, imp') && Dropped(rev, removed, rev')
    ensures Mirrored(imp', rev')
  {
    forall to, from | to in rev'
      ensures from in rev'[to] <==> from in imp' && to in imp'[from]
    {
      assert to in rev && to !in removed;
      if from in rev'[to] {
        assert from in rev[to] && from !in removed;
        assert from in imp && to in imp[from];
        assert from in imp';
      }
      if from in imp' && to in imp'[from] {
        assert from in imp && to in imp[from];
        assert from in rev[to];
      }
    }
  }

  /** Dropping self-imports from an import map and its mirror leaves a mirror. */
  lemma NoSelfMirror(imp: Imports, rev: Imports, imp': Imports, rev': Imports)
    requires Mirrored(imp, rev) && NoSelf(imp, imp') && NoSelf(rev, rev')
    ensures Mirrored(imp', rev')
  {
  }

  /**
   * What squashing promises about single imports: an import of a removed
   * module now goes to `init`, what a removed module imported is now
   * imported by `init`, every other import between kept modules stays, and
   * nothing new appears.
   */
  lemma SquashRedirects(imports: Imports, removed: set<Module>, init: Module, result: Imports)
    requires Squashed(imports, removed, init, result) && init in imports && init !in removed
    ensures forall k, r :: k in result && k != init && r in removed && r in imports[k] ==> init in result[k]
    ensures forall r, t :: r in removed && r in imports && t in imports[r] && t !in removed && t != init ==> t in result[init]
    ensures forall k, t :: k in result && t in imports[k] && t !in removed && t != k ==> t in result[k]
    ensures forall k, t :: k in result && t in result[k] && t != init && k != init ==> t in imports[k]
  {
    forall k, r | k in result && k != init && r in removed && r in imports[k]
      ensures init in result[k]
    {
      assert ImportsAny(imports, k, removed);
    }
    forall r, t | r in removed && r in imports && t in imports[r] && t !in removed && t != init
      ensures t in result[init]
    {
      assert ImportedByAny(imports, removed, t);
    }
  }
}
