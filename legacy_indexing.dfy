/**
 * Indexes of the string-keyed package tree (src/indexing.rs): every package,
 * and every module of every package, under its own pypath. Both are built by
 * a stack walk over the tree.
 */
module LegacyIndexing {
  import opened LegacyPackageDiscovery

  /** The package and all packages below it. */
  function Packages(p: Package): set<Package>
    decreases p
  {
    {p} + PackagesIn(p.children)
  }

  function PackagesIn(ps: seq<Package>): set<Package>
    decreases ps
  {
    if |ps| == 0 then {} else Packages(ps[0]) + PackagesIn(ps[1..])
  }

  /** The modules of the package and of all packages below it. */
  function Modules(p: Package): set<Module>
    decreases p
  {
    (set m | m in p.modules) + ModulesIn(p.children)
  }

  function ModulesIn(ps: seq<Package>): set<Module>
    decreases ps
  {
    if |ps| == 0 then {} else Modules(ps[0]) + ModulesIn(ps[1..])
  }

  /** The number of packages in a tree: what the stack walk still has to pop. */
  function Size(p: Package): nat
    decreases p
  {
    1 + SizeIn(p.children)
  }

  function SizeIn(ps: seq<Package>): nat
    decreases ps
  {
    if |ps| == 0 then 0 else Size(ps[0]) + SizeIn(ps[1..])
  }

  lemma {:induction false} InAppend(a: seq<Package>, b: seq<Package>)
    ensures PackagesIn(a + b) == PackagesIn(a) + PackagesIn(b)
    ensures ModulesIn(a + b) == ModulesIn(a) + ModulesIn(b)
    ensures SizeIn(a + b) == SizeIn(a) + SizeIn(b)
    decreases |a|
  {
    if |a| == 0 {
      assert a + b == b;
    } else {
      assert (a + b)[1..] == a[1..] + b;
      InAppend(a[1..], b);
    }
  }

  /** Popping the top of the stack and pushing its children. */
  lemma PopPush(q: seq<Package>)
    requires |q| > 0
    ensures var top := q[|q| - 1];
      var next := q[..|q| - 1] + top.children;
      PackagesIn(q) == PackagesIn(next) + {top}
      && ModulesIn(q) == ModulesIn(next) + (set m | m in top.modules)
      && SizeIn(next) < SizeIn(q)
  {
    var top := q[|q| - 1];
    var front := q[..|q| - 1];
    assert q == front + [top];
    InAppend(front, [top]);
    InAppend(front, top.children);
    assert [top][1..] == [];
  }

  /** `get_packages_by_pypath`: every package of the tree, under its own pypath. */
  method GetPackagesByPypath(root: Package) returns (m: map<string, Package>)
    ensures forall k :: k in m ==> m[k].pypath == k && m[k] in Packages(root)
    ensures forall p :: p in Packages(root) ==> p.pypath in m
  {
    m := map[];
    var q := [root];
    assert [root][1..] == [];
    while |q| > 0
      invariant forall k :: k in m ==> m[k].pypath == k && m[k] in Packages(root)
      invariant PackagesIn(q) <= Packages(root)
      invariant forall p :: p in Packages(root) ==> p.pypath in m || p in PackagesIn(q)
      decreases SizeIn(q)
    {
      PopPush(q);
      var package := q[|q| - 1];
      q := q[..|q| - 1];
      m := m[package.pypath := package];
      q := q + package.children;
    }
  }

  /** `get_modules_by_pypath`: every module of every package, under its own pypath. */
  method GetModulesByPypath(root: Package) returns (m: map<string, Module>)
    ensures forall k :: k in m ==> m[k].pypath == k && m[k] in Modules(root)
    ensures forall x :: x in Modules(root) ==> x.pypath in m
  {
    m := map[];
    var q := [root];
    assert [root][1..] == [];
    while |q| > 0
      invariant forall k :: k in m ==> m[k].pypath == k && m[k] in Modules(root)
      invariant ModulesIn(q) <= Modules(root)
      invariant forall x :: x in Modules(root) ==> x.pypath in m || x in ModulesIn(q)
      decreases SizeIn(q)
    {
      PopPush(q);
      var package := q[|q| - 1];
      q := q[..|q| - 1];
      ghost var before := m;
      var i := 0;
      while i < |package.modules|
        invariant 0 <= i <= |package.modules|
        invariant before.Keys <= m.Keys
        invariant forall k :: k in m ==> m[k].pypath == k && m[k] in Modules(root)
        invariant forall j :: 0 <= j < i ==> package.modules[j].pypath in m
      {
        m := m[package.modules[i].pypath := package.modules[i]];
        i := i + 1;
      }
      q := q + package.children;
    }
  }
}
