/**
 * Indexes of the import-graph generation (src/import_graph/indexing.rs):
 * packages and modules by pypath, the package holding each module (all
 * built by a stack walk over the package tree), and the reversed import
 * map.
 */
module GraphIndexing {
  import opened GraphPackageDiscovery
  import opened GraphImportDiscovery

  /** The package and all packages below it. */
  function Packages(p: Package): set<Package>
    decreases p
  {
    {p} + PackagesIn(p.children)
  }

  function PackagesIn(ps: seq<Package>): set<Package>
    decreases ps
  {
    if |ps| == 0 then {} else Packages(ps[0]) + PackagesIn(ps[1..])
  }

  /** The modules of the package and of all packages below it. */
  function Modules(p: Package): set<Module>
    decreases p
  {
    (set m | m in p.modules) + ModulesIn(p.children)
  }

  function ModulesIn(ps: seq<Package>): set<Module>
    decreases ps
  {
    if |ps| == 0 then {} else Modules(ps[0]) + ModulesIn(ps[1..])
  }

  /** The number of packages in a tree: what the stack walk still has to pop. */
  function Size(p: Package): nat
    decreases p
  {
    1 + SizeIn(p.children)
  }

  function SizeIn(ps: seq<Package>): nat
    decreases ps
  {
    if |ps| == 0 then 0 else Size(ps[0]) + SizeIn(ps[1..])
  }

  lemma {:induction false} InAppend(a: seq<Package>, b: seq<Package>)
    ensures PackagesIn(a + b) == PackagesIn(a) + PackagesIn(b)
    ensures ModulesIn(a + b) == ModulesIn(a) + ModulesIn(b)
    ensures SizeIn(a + b) == SizeIn(a) + SizeIn(b)
    decreases |a|
  {
    if |a| == 0 {
      assert a + b == b;
    } else {
      assert (a + b)[1..] == a[1..] + b;
      InAppend(a[1..], b);
    }
  }

  /** Popping the top of the stack and pushing its children. */
  lemma PopPush(q: seq<Package>)
    requires |q| > 0
    ensures var top := q[|q| - 1];
      var next := q[..|q| - 1] + top.children;
      PackagesIn(q) == PackagesIn(next) + {top}
      && ModulesIn(q) == ModulesIn(next) + (set m | m in top.modules)
      && SizeIn(next) < SizeIn(q)
  {
    var top := q[|q| - 1];
    var front := q[..|q| - 1];
    assert q == front + [top];
    InAppend(front, [top]);
    InAppend(front, top.children);
    assert [top][1..] == [];
  }

  /** A package below `p` lies in the tree of `p`, with its modules. */
  lemma {:induction false} ChildrenInTree(p: Package, c: Package)
    requires c in p.children
    ensures Packages(c) <= Packages(p) && Modules(c) <= Modules(p)
  {
    ChildInList(p.children, c);
  }

  lemma {:induction false} ChildInList(ps: seq<Package>, c: Package)
    requires c in ps
    ensures Packages(c) <= PackagesIn(ps) && Modules(c) <= ModulesIn(ps)
    decreases ps
  {
    if ps[0] != c {
      ChildInList(ps[1..], c);
    }
  }

  /** `get_packages_by_pypath`: every package of the tree, under its own pypath. */
  method GetPackagesByPypath(root: Package) returns (m: map<string, Package>)
    ensures forall k :: k in m ==> m[k].pypath == k && m[k] in Packages(root)
    ensures forall p :: p in Packages(root) ==> p.pypath in m
  {
    m := map[];
    var q := [root];
    assert [root][1..] == [];
    while |q| > 0
      invariant forall k :: k in m ==> m[k].pypath == k && m[k] in Packages(root)
      invariant PackagesIn(q) <= Packages(root)
      invariant forall p :: p in Packages(root) ==> p.pypath in m || p in PackagesIn(q)
      decreases SizeIn(q)
    {
      PopPush(q);
      var package := q[|q| - 1];
      q := q[..|q| - 1];
      m := m[package.pypath := package];
      q := q + package.children;
    }
  }

  /** `get_modules_by_pypath`: every module of every package, under its own pypath. */
  method GetModulesByPypath(root: Package) returns (m: ModulesByPypath)
    ensures forall k :: k in m ==> m[k].pypath == k && m[k] in Modules(root)
    ensures forall x :: x in Modules(root) ==> x.pypath in m
  {
    m := map[];
    var q := [root];
    assert [root][1..] == [];
    while |q| > 0
      invariant forall k :: k in m ==> m[k].pypath == k && m[k] in Modules(root)
      invariant ModulesIn(q) <= Modules(root)
      invariant forall x :: x in Modules(root) ==> x.pypath in m || x in ModulesIn(q)
      decreases SizeIn(q)
    {
      PopPush(q);
      var package := q[|q| - 1];
      q := q[..|q| - 1];
      ghost var before := m;
      var i := 0;
      while i < |package.modules|
        invariant 0 <= i <= |package.modules|
        invariant before.Keys <= m.Keys
        invariant forall k :: k in m ==> m[k].pypath == k && m[k] in Modules(root)
        invariant forall j :: 0 <= j < i ==> package.modules[j].pypath in m
      {
        m := m[package.modules[i].pypath := package.modules[i]];
        i := i + 1;
      }
      q := q + package.children;
    }
  }

  /** `get_packages_by_module`: every module of the tree, mapped to a package of the tree whose modules hold it. */
  method GetPackagesByModule(root: Package) returns (m: map<Module, Package>)
    ensures m.Keys == Modules(root)
    ensures forall x :: x in m ==> m[x] in Packages(root) && x in m[x].modules
  {
    m := map[];
    var q := [root];
    assert [root][1..] == [];
    while |q| > 0
      invariant m.Keys <= Modules(root)
      invariant forall x :: x in m ==> m[x] in Packages(root) && x in m[x].modules
      invariant PackagesIn(q) <= Packages(root)
      invariant ModulesIn(q) <= Modules(root)
      invariant forall x :: x in Modules(root) ==> x in m || x in ModulesIn(q)
      decreases SizeIn(q)
    {
      PopPush(q);
      var package := q[|q| - 1];
      q := q[..|q| - 1];
      ghost var before := m;
      var i := 0;
      while i < |package.modules|
        invariant 0 <= i <= |package.modules|
        invariant before.Keys <= m.Keys <= Modules(root)
        invariant forall x :: x in m ==> m[x] in Packages(root) && x in m[x].modules
        invariant forall j :: 0 <= j < i ==> package.modules[j] in m
      {
        m := m[package.modules[i] := package];
        i := i + 1;
      }
      q := q + package.children;
    }
  }

  /** Every module that some module of `importers` imports. */
  function ImportedBy<T>(imports: map<T, set<T>>, importers: set<T>): set<T>
  {
    set from, to | from in imports && from in importers && to in imports[from] :: to
  }

  lemma ImportedByAdd<T>(imports: map<T, set<T>>, importers: set<T>, importer: T)
    requires importer in imports
    ensures ImportedBy(imports, importers + {importer}) == ImportedBy(imports, importers) + imports[importer]
  {
  }

  /** Every module that some module imports. */
  function Imported<T>(imports: map<T, set<T>>): set<T>
  {
    ImportedBy(imports, imports.Keys)
  }

  /** `r'` is `r` with `importer` among the importers of each of `targets`, and nothing else changed. */
  ghost predicate Added<T(!new)>(r: map<T, set<T>>, importer: T, targets: set<T>, r': map<T, set<T>>)
  {
    && (forall k :: k in r' <==> k in r || k in targets)
    && forall to, from :: to in r' ==>
      (from in r'[to] <==> (to in r && from in r[to]) || (from == importer && to in targets))
  }

  /** The inner loop of `reverse_imports`: `importer` joins the importers of each target. */
  method AddImporter<T(!new)>(r: map<T, set<T>>, importer: T, targets: set<T>) returns (r': map<T, set<T>>)
    ensures Added(r, importer, targets, r')
  {
    r' := r;
    var todo := targets;
    while todo != {}
      invariant todo <= targets
      invariant Added(r, importer, targets - todo, r')
      decreases |todo|
    {
      var target :| target in todo;
      ghost var prev := r';
      var importers := if target in r' then r'[target] else {};
      r' := r'[target := importers + {importer}];
      AddStep(r, importer, targets - todo, target, prev, r');
      todo := todo - {target};
    }
  }

  lemma AddStep<T(!new)>(r: map<T, set<T>>, importer: T, added: set<T>, target: T, prev: map<T, set<T>>, r': map<T, set<T>>)
    requires Added(r, importer, added, prev)
    requires r' == prev[target := (if target in prev then prev[target] else {}) + {importer}]
    ensures Added(r, importer, added + {target}, r')
  {
  }

  /**
   * `reverse_imports`: every importing module and every imported module is a
   * key, and `from` is among the importers of `to` exactly when `to` is
   * among the imports of `from`.
   */
  method ReverseImports<T(!new)>(imports: map<T, set<T>>) returns (r: map<T, set<T>>)
    ensures r.Keys == imports.Keys + Imported(imports)
    ensures forall m :: m in imports ==> m in r
    ensures forall to, from :: to in r ==> (from in r[to] <==> from in imports && to in imports[from])
  {
    r := map[];
    var todo := imports.Keys;
    ghost var done: set<T> := {};
    while todo != {}
      invariant forall k :: k in done <==> k in imports && k !in todo
      invariant forall k :: k in todo ==> k in imports
      invariant ReversedSoFar(imports, done, r)
      decreases |todo|
    {
      var importer :| importer in todo;
      ghost var prev := r;
      if importer !in r {
        r := r[importer := {}];
      }
      ghost var r1 := r;
      r := AddImporter(r, importer, imports[importer]);
      ReverseStep(imports, done, importer, prev, r1, r);
      todo := todo - {importer};
      done := done + {importer};
    }
    ReversedAll(imports, done, r);
  }

  /** `r` is the reverse of the imports of the modules in `done`. */
  ghost predicate ReversedSoFar<T(!new)>(imports: map<T, set<T>>, done: set<T>, r: map<T, set<T>>)
  {
    && (forall k :: k in r <==> k in done || k in ImportedBy(imports, done))
    && forall to, from :: to in r ==> (from in r[to] <==> from in done && from in imports && to in imports[from])
  }

  lemma ReverseStep<T(!new)>(imports: map<T, set<T>>, done: set<T>, importer: T, prev: map<T, set<T>>, r1: map<T, set<T>>, r2: map<T, set<T>>)
    requires importer in imports && importer !in done
    requires ReversedSoFar(imports, done, prev)
    requires r1 == if importer in prev then prev else prev[importer := {}]
    requires Added(r1, importer, imports[importer], r2)
    ensures ReversedSoFar(imports, done + {importer}, r2)
  {
    ImportedByAdd(imports, done, importer);
  }

  lemma ReversedAll<T(!new)>(imports: map<T, set<T>>, done: set<T>, r: map<T, set<T>>)
    requires forall k :: k in done <==> k in imports
    requires ReversedSoFar(imports, done, r)
    ensures r.Keys == imports.Keys + Imported(imports)
    ensures forall m :: m in imports ==> m in r
    ensures forall to, from :: to in r ==> (from in r[to] <==> from in imports && to in imports[from])
  {
  }
}
