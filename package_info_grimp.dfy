/**
 * `build_package_info` of src/package_info/grimp_compare.rs: the two-arena
 * package tree rebuilt from nothing but the module names of an import map.
 * Every key becomes a module, every strict ancestor of a key a package, and
 * every package gets an `__init__` module.
 *
 * This file uses the Option-returning `parent()` (Pypaths.ParentOpt), not
 * the `parent` of src/pypath.rs.
 */
module PackageInfoGrimp {
  import opened Wrappers
  import opened Strings
  import opened Pypaths
  import opened PackageInfos

  /** `count_dots`. */
  function CountDots(p: Pypath): nat
  {
    Count(p.s, '.')
  }

  /** A path has one more dotted piece than it has dots. */
  lemma {:induction false} PiecesAreDotsPlusOne(s: string)
    ensures |Split(s, '.')| == Count(s, '.') + 1
    decreases |s|
  {
    if |s| > 0 {
      PiecesAreDotsPlusOne(s[1..]);
    }
  }

  lemma ParentHasOnePieceLess(p: Pypath)
    requires HasParent(p)
    ensures |Pieces(Parent(p))| == |Pieces(p)| - 1
  {
    ParentDropsLastPiece(p);
  }

  /** The top-level package of a path: the last ancestor reached by `parent()`. */
  function Top(p: Pypath): Pypath
    decreases |Pieces(p)|
  {
    if HasParent(p) then
      ParentHasOnePieceLess(p);
      Top(Parent(p))
    else
      p
  }

  /** `foo.bar.baz` gives `[foo.bar.baz, foo.bar, foo]`: the path, then each `parent()` in turn. */
  function Lineage(p: Pypath): (r: seq<Pypath>)
    ensures |r| == |Pieces(p)| && r[0] == p
    decreases |Pieces(p)|
  {
    if HasParent(p) then
      ParentHasOnePieceLess(p);
      [p] + Lineage(Parent(p))
    else
      [p]
  }

  /** Each entry of the lineage is the parent of the one before; the last has none. */
  lemma {:induction false} LineageShape(p: Pypath)
    ensures var l := Lineage(p);
      && (forall j :: 0 <= j < |l| - 1 ==> HasParent(l[j]) && l[j + 1] == Parent(l[j]))
      && !HasParent(l[|l| - 1])
      && (forall j :: 0 <= j < |l| ==> |Pieces(l[j])| == |Pieces(p)| - j && Top(l[j]) == Top(p))
    decreases |Pieces(p)|
  {
    if HasParent(p) {
      ParentHasOnePieceLess(p);
      LineageShape(Parent(p));
      var l, t := Lineage(p), Lineage(Parent(p));
      assert forall j :: 1 <= j < |l| ==> l[j] == t[j - 1];
    }
  }

  /** Every entry of the lineage of a valid path is valid. */
  lemma {:induction false} LineageValid(p: Pypath)
    requires FromStr(p.s).Ok?
    ensures forall x :: x in Lineage(p) ==> FromStr(x.s).Ok?
    decreases |Pieces(p)|
  {
    if HasParent(p) {
      ParentHasOnePieceLess(p);
      ParentOfValidIsValid(p);
      LineageValid(Parent(p));
    }
  }

  /** Every entry of the lineage after the path itself is a strict ancestor of the path. */
  lemma {:induction false} LineageAbove(p: Pypath)
    ensures forall j :: 1 <= j < |Lineage(p)| ==> Lineage(p)[j].s + "." <= p.s
    decreases |Pieces(p)|
  {
    if HasParent(p) {
      ParentHasOnePieceLess(p);
      ParentDropsLastPiece(p);
      LineageAbove(Parent(p));
      var l, t := Lineage(p), Lineage(Parent(p));
      forall j | 1 <= j < |l|
        ensures l[j].s + "." <= p.s
      {
        assert l[j] == t[j - 1];
        if j > 1 {
          assert t[j - 1].s + "." <= Parent(p).s;
        }
      }
    }
  }

  /** The pypath of a package's init module. */
  function InitPypath(p: Pypath): Pypath
  {
    Pypath(p.s + ".__init__")
  }

  /** `(pypath + ".__init__").parse().unwrap()` cannot fail for a valid pypath. */
  lemma InitOfValidIsValid(p: Pypath)
    requires FromStr(p.s).Ok?
    ensures FromStr(InitPypath(p).s) == Ok(InitPypath(p))
  {
    var init := "__init__";
    assert IsWord(init) by {
      forall i | 0 <= i < |init| ensures IsWordChar(init[i]) {}
    }
    AcceptedIsJoinedWords(p.s);
    var words := Split(p.s, '.');
    JoinAppend(words, [init], '.');
    assert InitPypath(p).s == Join(words + [init], '.');
    AcceptsJoinedWords(words + [init]);
  }

  lemma InitPypathInjective(p: Pypath, q: Pypath)
    requires InitPypath(p) == InitPypath(q)
    ensures p == q
  {
    var x := ".__init__";
    assert |p.s| == |q.s|;
    assert p.s == (p.s + x)[..|p.s|] == (q.s + x)[..|q.s|] == q.s;
  }

  // ---------------------------------------------------------------------
  // The arenas and index maps under construction.
  // ---------------------------------------------------------------------

  datatype Arena = Arena(
    packages: seq<Package>,
    modules: seq<Module>,
    packagesByPypath: map<Pypath, nat>,
    modulesByPypath: map<Pypath, nat>)

  /** Each index maps a pypath to an entry with that pypath. */
  ghost predicate Indexes(a: Arena)
  {
    && (forall k :: k in a.packagesByPypath ==>
          a.packagesByPypath[k] < |a.packages| && a.packages[a.packagesByPypath[k]].pypath == k)
    && (forall k :: k in a.modulesByPypath ==>
          a.modulesByPypath[k] < |a.modules| && a.modules[a.modulesByPypath[k]].pypath == k)
  }

  /**
   * What holds of package `c` from its creation on: its own token, its
   * index entry, a parent that is the package of its parent pypath, the
   * common top-level package, and a valid pypath.
   */
  ghost predicate Named(a: Arena, c: nat, top: Pypath)
    requires c < |a.packages|
  {
    var p := a.packages[c];
    && p.token == c && p.path == []
    && p.pypath in a.packagesByPypath && a.packagesByPypath[p.pypath] == c
    && Top(p.pypath) == top && FromStr(p.pypath.s).Ok?
    && (if HasParent(p.pypath) then
          && Parent(p.pypath) in a.packagesByPypath
          && p.parent == Some(a.packagesByPypath[Parent(p.pypath)])
          && p.parent.value < c
        else
          p.parent == None)
  }

  predicate NoChildren(p: Package)
  {
    p.packages == {} && p.modules == {} && p.initModule == None
  }

  /** A module made for a key: not an init module, and its parent is the package of its parent pypath. */
  ghost predicate KeyModule(a: Arena, m: nat)
    requires m < |a.modules|
  {
    var x := a.modules[m];
    && x.token == m && x.path == [] && !x.isInit && HasParent(x.pypath)
    && x.parent < |a.packages| && a.packages[x.parent].pypath == Parent(x.pypath)
    && x.pypath !in a.packagesByPypath
  }

  /** The invariant of the loop over the keys. */
  ghost predicate Building(a: Arena, top: Pypath)
  {
    && Indexes(a)
    && (forall c {:trigger Named(a, c, top)} :: 0 <= c < |a.packages| ==> Named(a, c, top) && NoChildren(a.packages[c]))
    && (forall m {:trigger KeyModule(a, m)} :: 0 <= m < |a.modules| ==>
          KeyModule(a, m) && a.modules[m].pypath in a.modulesByPypath
          && a.modulesByPypath[a.modules[m].pypath] == m)
  }

  /** The chain loop of `build_package_info`: push `parent()` until there is none. */
  method LineageOf(key: Pypath) returns (pypaths: seq<Pypath>)
    ensures pypaths == Lineage(key)
  {
    pypaths := [key];
    var last := key;
    ghost var prefix: seq<Pypath> := [];
    while ParentOpt(last).Some?
      invariant pypaths == prefix + [last]
      invariant prefix + Lineage(last) == Lineage(key)
      decreases |Pieces(last)|
    {
      LineageStep(prefix, last, key);
      prefix := prefix + [last];
      last := ParentOpt(last).value;
      pypaths := pypaths + [last];
    }
    assert Lineage(last) == [last];
  }

  lemma LineageStep(prefix: seq<Pypath>, last: Pypath, key: Pypath)
    requires prefix + Lineage(last) == Lineage(key) && HasParent(last)
    ensures (prefix + [last]) + Lineage(Parent(last)) == Lineage(key)
    ensures |Pieces(Parent(last))| < |Pieces(last)|
  {
    ParentHasOnePieceLess(last);
    assert Lineage(last) == [last] + Lineage(Parent(last));
  }

  /** Adding a package that extends the lineage of a key keeps the loop invariant. */
  lemma AddPackageStep(a: Arena, b: Arena, top: Pypath, l: seq<Pypath>, j: nat, parent: Option<nat>, depth: nat)
    requires Building(a, top)
    requires 1 <= j < |l| && l[j] !in a.packagesByPypath
    requires forall i :: 0 <= i < |l| - 1 ==> HasParent(l[i]) && l[i + 1] == Parent(l[i])
    requires !HasParent(l[|l| - 1])
    requires Top(l[j]) == top && FromStr(l[j].s).Ok? && |Pieces(l[j])| < depth
    requires forall m :: 0 <= m < |a.modules| ==> |Pieces(a.modules[m].pypath)| >= depth
    requires j == |l| - 1 ==> parent == None
    requires j < |l| - 1 ==> l[j + 1] in a.packagesByPypath && parent == Some(a.packagesByPypath[l[j + 1]])
    requires b == a.(packages := a.packages + [Package([], l[j], |a.packages|, parent, {}, {}, None)],
                     packagesByPypath := a.packagesByPypath[l[j] := |a.packages|])
    ensures Building(b, top)
  {
    var c := |a.packages|;
    forall k | k in b.packagesByPypath
      ensures b.packagesByPypath[k] < |b.packages| && b.packages[b.packagesByPypath[k]].pypath == k
    {
      if k != l[j] {
        assert b.packages[a.packagesByPypath[k]] == a.packages[a.packagesByPypath[k]];
      }
    }
    forall i | 0 <= i < |b.packages|
      ensures Named(b, i, top) && NoChildren(b.packages[i])
    {
      if i < c {
        assert b.packages[i] == a.packages[i];
        assert Named(a, i, top);
      } else {
        if j < |l| - 1 {
          assert a.packagesByPypath[l[j + 1]] < c;
        }
      }
    }
    forall m | 0 <= m < |b.modules|
      ensures KeyModule(b, m) && b.modules[m].pypath in b.modulesByPypath
      ensures b.modulesByPypath[b.modules[m].pypath] == m
    {
      assert KeyModule(a, m);
      assert a.modules[m].pypath != l[j];
      assert b.packages[a.modules[m].parent] == a.packages[a.modules[m].parent];
    }
  }

  /** Adding the module of a key keeps the loop invariant. */
  lemma AddModuleStep(a: Arena, b: Arena, top: Pypath, key: Pypath, parent: nat)
    requires Building(a, top)
    requires key !in a.packagesByPypath && key !in a.modulesByPypath && HasParent(key)
    requires Parent(key) in a.packagesByPypath && parent == a.packagesByPypath[Parent(key)]
    requires b == a.(modules := a.modules + [Module([], key, false, |a.modules|, parent)],
                     modulesByPypath := a.modulesByPypath[key := |a.modules|])
    ensures Building(b, top)
  {
    forall m | 0 <= m < |b.modules|
      ensures KeyModule(b, m) && b.modules[m].pypath in b.modulesByPypath
      ensures b.modulesByPypath[b.modules[m].pypath] == m
    {
      if m < |a.modules| {
        assert b.modules[m] == a.modules[m];
        assert KeyModule(a, m);
      }
    }
    forall c | 0 <= c < |b.packages|
      ensures Named(b, c, top) && NoChildren(b.packages[c])
    {
      assert Named(a, c, top);
    }
  }

  /** What the loop over the keys demands before it inserts `key`. */
  ghost predicate CanInsert(a: Arena, key: Pypath, top: Pypath)
  {
    && Building(a, top)
    && HasParent(key) && Top(key) == top && FromStr(key.s).Ok?
    && key !in a.packagesByPypath && key !in a.modulesByPypath
    && forall m :: 0 <= m < |a.modules| ==> |Pieces(a.modules[m].pypath)| >= |Pieces(key)|
  }

  /**
   * The pop loop of one key with `n` lineage entries still to pop: the
   * entries above them are packages, `parent` is the last of them, and no
   * module has been added yet.
   */
  ghost predicate Popping(a: Arena, b: Arena, key: Pypath, top: Pypath, n: nat, parent: Option<nat>)
  {
    var l := Lineage(key);
    && 0 < n <= |l| && Top(key) == top
    && Building(b, top)
    && a.packages <= b.packages
    && (forall k :: k in a.packagesByPypath ==> k in b.packagesByPypath)
    && (forall k :: k in b.packagesByPypath ==> k in a.packagesByPypath || |Pieces(k)| < |Pieces(key)|)
    && b.modules == a.modules && b.modulesByPypath == a.modulesByPypath
    && (n == |l| ==> parent == None)
    && (n < |l| ==> l[n] in b.packagesByPypath && parent == Some(b.packagesByPypath[l[n]]) && top in b.packagesByPypath)
  }

  /** `b` is `a` after inserting `key`: one more module, and every package the lineage needs. */
  ghost predicate Inserted(a: Arena, b: Arena, key: Pypath, top: Pypath)
  {
    && Building(b, top)
    && a.packages <= b.packages && a.modules <= b.modules && |b.modules| == |a.modules| + 1
    && b.modules[|a.modules|].pypath == key
    && (forall k :: k in a.packagesByPypath ==> k in b.packagesByPypath)
    && (forall k :: k in b.modulesByPypath <==> k in a.modulesByPypath || k == key)
    && top in b.packagesByPypath
  }

  lemma PopStart(a: Arena, key: Pypath, top: Pypath)
    requires CanInsert(a, key, top)
    ensures Popping(a, a, key, top, |Lineage(key)|, None)
  {
  }

  /** Popping a lineage entry that is already a package: it becomes the parent. */
  lemma PopExisting(a: Arena, b: Arena, key: Pypath, top: Pypath, j: nat, parent: Option<nat>)
    requires Popping(a, b, key, top, j + 1, parent) && j >= 1
    requires Lineage(key)[j] in b.packagesByPypath
    ensures Popping(a, b, key, top, j, Some(b.packagesByPypath[Lineage(key)[j]]))
  {
    LineageShape(key);
  }

  /** Popping a lineage entry that is not a package yet: a new package under `parent`. */
  lemma PopNew(a: Arena, b: Arena, b': Arena, key: Pypath, top: Pypath, j: nat, parent: Option<nat>)
    requires CanInsert(a, key, top)
    requires Popping(a, b, key, top, j + 1, parent) && j >= 1
    requires Lineage(key)[j] !in b.packagesByPypath
    requires b' == b.(packages := b.packages + [Package([], Lineage(key)[j], |b.packages|, parent, {}, {}, None)],
                      packagesByPypath := b.packagesByPypath[Lineage(key)[j] := |b.packages|])
    ensures Popping(a, b', key, top, j, Some(|b.packages|))
  {
    var l := Lineage(key);
    LineageShape(key);
    LineageValid(key);
    assert l[j] in l;
    forall m | 0 <= m < |b.modules|
      ensures |Pieces(b.modules[m].pypath)| >= |Pieces(key)|
    {
      assert b.modules[m] == a.modules[m];
    }
    AddPackageStep(b, b', top, l, j, parent, |Pieces(key)|);
  }

  /** Popping the key itself: a module under the last package. */
  lemma PopKey(a: Arena, b: Arena, b': Arena, key: Pypath, top: Pypath, parent: Option<nat>)
    requires CanInsert(a, key, top)
    requires Popping(a, b, key, top, 1, parent)
    requires parent.Some?
    requires b' == b.(modules := b.modules + [Module([], key, false, |b.modules|, parent.value)],
                      modulesByPypath := b.modulesByPypath[key := |b.modules|])
    ensures Inserted(a, b', key, top)
  {
    LineageShape(key);
    AddModuleStep(b, b', top, key, parent.value);
  }

  /** The packages `b` has beyond `a` are strict ancestors of `key`. */
  ghost predicate AddedAbove(a: Arena, b: Arena, key: Pypath)
  {
    forall c :: |a.packages| <= c < |b.packages| ==> b.packages[c].pypath.s + "." <= key.s
  }

  /** A package made for a lineage entry other than the key itself keeps `AddedAbove`. */
  lemma AddedAboveStep(a: Arena, b: Arena, b': Arena, key: Pypath, j: nat, pkg: Package)
    requires AddedAbove(a, b, key) && 1 <= j < |Lineage(key)|
    requires b'.packages == b.packages + [pkg] && pkg.pypath == Lineage(key)[j]
    ensures AddedAbove(a, b', key)
  {
    LineageAbove(key);
    forall c | |a.packages| <= c < |b'.packages|
      ensures b'.packages[c].pypath.s + "." <= key.s
    {
      if c < |b.packages| {
        assert b'.packages[c] == b.packages[c];
      }
    }
  }

  /**
   * One key of the outer loop: build its lineage, then pop it from the top
   * down, reusing existing packages, creating missing ones, and turning the
   * key itself into a module under the last package.
   */
  method InsertKey(a: Arena, key: Pypath, ghost top: Pypath) returns (b: Arena)
    requires CanInsert(a, key, top)
    ensures Inserted(a, b, key, top) && AddedAbove(a, b, key)
  {
    var pypaths := LineageOf(key);
    ghost var l := pypaths;
    var parent: Option<nat> := None;
    b := a;
    PopStart(a, key, top);
    while |pypaths| > 0
      invariant |pypaths| <= |l| && pypaths == l[..|pypaths|]
      invariant |pypaths| > 0 ==> Popping(a, b, key, top, |pypaths|, parent)
      invariant |pypaths| == 0 ==> Inserted(a, b, key, top)
      invariant AddedAbove(a, b, key)
      decreases |pypaths|
    {
      var j := |pypaths| - 1;
      var pypath := pypaths[j];
      pypaths := pypaths[..j];
      assert pypath == l[j];
      if j == 0 {
        assert parent.Some? by {
          assert |l| == |Pieces(key)|;
        }
        ghost var prev := b;
        b := b.(modules := b.modules + [Module([], pypath, false, |b.modules|, parent.value)],
                modulesByPypath := b.modulesByPypath[pypath := |b.modules|]);
        PopKey(a, prev, b, key, top, parent);
      } else if pypath in b.packagesByPypath {
        PopExisting(a, b, key, top, j, parent);
        parent := Some(b.packagesByPypath[pypath]);
      } else {
        ghost var prev := b;
        var token := |b.packages|;
        b := b.(packages := b.packages + [Package([], pypath, token, parent, {}, {}, None)],
                packagesByPypath := b.packagesByPypath[pypath := token]);
        PopNew(a, prev, b, key, top, j, parent);
        AddedAboveStep(a, prev, b, key, j, Package([], pypath, token, parent, {}, {}, None));
        parent := Some(token);
      }
    }
  }

  /** The keys are distinct, deepest first, valid, and all under `top`. */
  ghost predicate KeyOrder(order: seq<Pypath>, top: Pypath)
  {
    && (forall i, j :: 0 <= i < j < |order| ==> order[i] != order[j])
    && (forall i, j :: 0 <= i < j < |order| ==> |Pieces(order[i])| >= |Pieces(order[j])|)
    && (forall i :: 0 <= i < |order| ==> Top(order[i]) == top && FromStr(order[i].s).Ok?)
    && (exists i :: 0 <= i < |order| && HasParent(order[i]))
  }

  /** `p` is a strict ancestor of some key of `order`. */
  ghost predicate AboveSomeKey(p: Pypath, order: seq<Pypath>)
  {
    exists d :: d in order && p.s + "." <= d.s
  }

  /** `p` is a strict ancestor of some key of the import map: the key starts with `p` and a dot. */
  ghost predicate AncestorOfKey(p: Pypath, data: map<Pypath, set<Pypath>>)
  {
    exists k :: k in data && p.s + "." <= k.s
  }

  /** Every package made so far is a strict ancestor of some key: no package comes from anywhere else. */
  ghost predicate PackagesAboveKeys(a: Arena, order: seq<Pypath>)
  {
    forall c :: 0 <= c < |a.packages| ==> AboveSomeKey(a.packages[c].pypath, order)
  }

  /** The invariant of the loop over the keys, after the first `i` of them. */
  ghost predicate KeysInserted(order: seq<Pypath>, i: nat, a: Arena, top: Pypath)
    requires i <= |order|
  {
    && Building(a, top)
    && (forall j :: 0 <= j < i ==> order[j] in a.packagesByPypath || order[j] in a.modulesByPypath)
    && (forall j :: i <= j < |order| ==> order[j] !in a.modulesByPypath)
    && (forall k :: k in a.modulesByPypath ==> k in order)
    && (i < |order| ==> forall m :: 0 <= m < |a.modules| ==> |Pieces(a.modules[m].pypath)| >= |Pieces(order[i])|)
    && (i > 0 ==> top in a.packagesByPypath)
    && (i == 0 ==> |a.packages| == 0)
  }

  lemma NothingInserted(order: seq<Pypath>, top: Pypath)
    ensures KeysInserted(order, 0, Arena([], [], map[], map[]), top)
  {
  }

  /** A key that is already a package is skipped. */
  lemma SkipKey(order: seq<Pypath>, i: nat, a: Arena, top: Pypath)
    requires i < |order| && KeysInserted(order, i, a, top)
    requires i + 1 < |order| ==> |Pieces(order[i])| >= |Pieces(order[i + 1])|
    requires order[i] in a.packagesByPypath
    ensures KeysInserted(order, i + 1, a, top)
  {
  }

  /**
   * A key that is not a package may be inserted. A key without a dot is the
   * top-level package itself, and keys with a dot come before it, so it is
   * never in this case.
   */
  lemma ReadyToInsert(order: seq<Pypath>, i: nat, a: Arena, top: Pypath)
    requires KeyOrder(order, top) && i < |order| && KeysInserted(order, i, a, top)
    requires order[i] !in a.packagesByPypath
    ensures CanInsert(a, order[i], top)
  {
    var d :| 0 <= d < |order| && HasParent(order[d]);
  }

  lemma InsertedKey(order: seq<Pypath>, i: nat, a: Arena, b: Arena, top: Pypath)
    requires i < |order| && KeysInserted(order, i, a, top)
    requires i + 1 < |order| ==> |Pieces(order[i])| >= |Pieces(order[i + 1])|
    requires forall j :: i < j < |order| ==> order[j] != order[i]
    requires Inserted(a, b, order[i], top)
    ensures KeysInserted(order, i + 1, b, top)
  {
    if i + 1 < |order| {
      forall m | 0 <= m < |b.modules|
        ensures |Pieces(b.modules[m].pypath)| >= |Pieces(order[i + 1])|
      {
        if m < |a.modules| {
          assert b.modules[m] == a.modules[m];
        }
      }
    }
  }

  /** The packages inserting a key adds are ancestors of that key. */
  lemma InsertedAboveKeys(order: seq<Pypath>, i: nat, a: Arena, b: Arena, top: Pypath)
    requires i < |order| && PackagesAboveKeys(a, order)
    requires a.packages <= b.packages && AddedAbove(a, b, order[i])
    ensures PackagesAboveKeys(b, order)
  {
    forall c | 0 <= c < |b.packages|
      ensures AboveSomeKey(b.packages[c].pypath, order)
    {
      if c < |a.packages| {
        assert b.packages[c] == a.packages[c];
      } else {
        assert order[i] in order;
      }
    }
  }

  /**
   * The outer loop: keys deepest first; a key that is already a package is
   * skipped.
   */
  method InsertKeys(order: seq<Pypath>, ghost top: Pypath) returns (a: Arena)
    requires KeyOrder(order, top)
    ensures KeysInserted(order, |order|, a, top) && PackagesAboveKeys(a, order)
  {
    a := Arena([], [], map[], map[]);
    NothingInserted(order, top);
    for i := 0 to |order|
      invariant KeysInserted(order, i, a, top) && PackagesAboveKeys(a, order)
    {
      a := InsertNext(order, i, a, top);
    }
  }

  /** The body of the loop over the keys: skip a key that is a package, insert any other. */
  method InsertNext(order: seq<Pypath>, i: nat, a: Arena, ghost top: Pypath) returns (b: Arena)
    requires KeyOrder(order, top) && i < |order| && KeysInserted(order, i, a, top) && PackagesAboveKeys(a, order)
    ensures KeysInserted(order, i + 1, b, top) && PackagesAboveKeys(b, order)
  {
    var key := order[i];
    if key in a.packagesByPypath {
      SkipKey(order, i, a, top);
      b := a;
    } else {
      ReadyToInsert(order, i, a, top);
      b := InsertKey(a, key, top);
      InsertedKey(order, i, a, b, top);
      InsertedAboveKeys(order, i, a, b, top);
    }
  }

  // ---------------------------------------------------------------------
  // Init modules: one `<package>.__init__` module per package.
  // ---------------------------------------------------------------------

  /** The init module made for package `c` of the key-loop arena `a`. */
  function InitModuleOf(a: Arena, c: nat): Module
    requires c < |a.packages|
  {
    Module([], InitPypath(a.packages[c].pypath), true, |a.modules| + c, c)
  }

  /** `b` is `a` after the init-module loop has handled its first `n` packages. */
  ghost predicate InitsAdded(a: Arena, b: Arena, n: nat)
  {
    && n <= |a.packages|
    && |b.packages| == |a.packages| && b.packagesByPypath == a.packagesByPypath
    && |b.modules| == |a.modules| + n && a.modules <= b.modules
    && (forall c :: 0 <= c < |a.packages| ==>
          b.packages[c] == if c < n then a.packages[c].(initModule := Some(|a.modules| + c)) else a.packages[c])
    && (forall c :: 0 <= c < n ==> b.modules[|a.modules| + c] == InitModuleOf(a, c))
    && (forall k :: k in a.modulesByPypath ==> k in b.modulesByPypath)
    && (forall c :: 0 <= c < n ==>
          InitPypath(a.packages[c].pypath) in b.modulesByPypath
          && b.modulesByPypath[InitPypath(a.packages[c].pypath)] == |a.modules| + c)
    && Indexes(b)
  }

  lemma NoInitsAdded(a: Arena, top: Pypath)
    requires Building(a, top)
    ensures InitsAdded(a, a, 0)
  {
  }

  /** Packages of the key-loop arena have distinct pypaths. */
  ghost predicate DistinctPypaths(a: Arena)
  {
    forall c, d :: 0 <= c < |a.packages| && 0 <= d < |a.packages| && c != d ==>
      a.packages[c].pypath != a.packages[d].pypath
  }

  lemma BuildingDistinct(a: Arena, top: Pypath)
    requires Building(a, top)
    ensures DistinctPypaths(a)
  {
    forall c, d | 0 <= c < |a.packages| && 0 <= d < |a.packages| && c != d
      ensures a.packages[c].pypath != a.packages[d].pypath
    {
      assert Named(a, c, top) && Named(a, d, top);
    }
  }

  /** Package `c` gets its init module; the ones made before keep their index entries. */
  lemma InitAddedStep(a: Arena, b: Arena, b': Arena, c: nat)
    requires DistinctPypaths(a) && c < |a.packages| && InitsAdded(a, b, c)
    requires b' == b.(modules := b.modules + [InitModuleOf(a, c)],
                      modulesByPypath := b.modulesByPypath[InitPypath(a.packages[c].pypath) := |b.modules|],
                      packages := b.packages[c := b.packages[c].(initModule := Some(|b.modules|))])
    ensures InitsAdded(a, b', c + 1)
  {
    var init := InitPypath(a.packages[c].pypath);
    forall d | 0 <= d < c + 1
      ensures InitPypath(a.packages[d].pypath) in b'.modulesByPypath
      ensures b'.modulesByPypath[InitPypath(a.packages[d].pypath)] == |a.modules| + d
    {
      if d < c && InitPypath(a.packages[d].pypath) == init {
        InitPypathInjective(a.packages[d].pypath, a.packages[c].pypath);
      }
    }
    forall k | k in b'.modulesByPypath
      ensures b'.modulesByPypath[k] < |b'.modules| && b'.modules[b'.modulesByPypath[k]].pypath == k
    {
      if k != init {
        assert b'.modules[b.modulesByPypath[k]] == b.modules[b.modulesByPypath[k]];
      }
    }
    forall d | 0 <= d < c + 1
      ensures b'.modules[|a.modules| + d] == InitModuleOf(a, d)
    {
      if d < c {
        assert b'.modules[|a.modules| + d] == b.modules[|a.modules| + d];
      }
    }
    forall d | 0 <= d < |a.packages|
      ensures b'.packages[d] == if d < c + 1 then a.packages[d].(initModule := Some(|a.modules| + d)) else a.packages[d]
    {
    }
  }

  /** The init-module loop of `build_package_info`. */
  method AddInitModules(a: Arena, ghost top: Pypath) returns (b: Arena)
    requires Building(a, top)
    ensures InitsAdded(a, b, |a.packages|)
  {
    b := a;
    NoInitsAdded(a, top);
    BuildingDistinct(a, top);
    for c := 0 to |b.packages|
      invariant InitsAdded(a, b, c)
    {
      assert Named(a, c, top);
      InitOfValidIsValid(b.packages[c].pypath);
      var pypath := FromStr(b.packages[c].pypath.s + ".__init__").value;
      var token := |b.modules|;
      ghost var prev := b;
      b := b.(modules := b.modules + [Module([], pypath, true, token, c)],
              modulesByPypath := b.modulesByPypath[pypath := token],
              packages := b.packages[c := b.packages[c].(initModule := Some(token))]);
      InitAddedStep(a, prev, b, c);
    }
  }

  // ---------------------------------------------------------------------
  // Child links, read back from the parent fields.
  // ---------------------------------------------------------------------

  /** What the package loop demands: own tokens, parents in range, no child packages yet. */
  ghost predicate PackageLinksEmpty(b: Arena)
  {
    forall c :: 0 <= c < |b.packages| ==>
      && b.packages[c].token == c && b.packages[c].packages == {}
      && (b.packages[c].parent.Some? ==> b.packages[c].parent.value < |b.packages|)
  }

  /** What the module loop demands: own tokens, parents in range, no child modules yet. */
  ghost predicate ModuleLinksEmpty(b: Arena)
  {
    && (forall c :: 0 <= c < |b.packages| ==> b.packages[c].modules == {})
    && (forall m :: 0 <= m < |b.modules| ==> b.modules[m].token == m && b.modules[m].parent < |b.packages|)
  }

  /** `d` is `b` after the package loop has linked the first `n` packages to their parents. */
  ghost predicate PackagesLinked(b: Arena, d: Arena, n: nat)
  {
    && n <= |b.packages|
    && |d.packages| == |b.packages| && d.modules == b.modules
    && d.packagesByPypath == b.packagesByPypath && d.modulesByPypath == b.modulesByPypath
    && forall q :: 0 <= q < |b.packages| ==>
         && d.packages[q] == b.packages[q].(packages := d.packages[q].packages)
         && forall x :: x in d.packages[q].packages <==> 0 <= x < n && b.packages[x].parent == Some(q)
  }

  /** The first loop of "Add package children". */
  method LinkChildPackages(b: Arena) returns (d: Arena)
    requires PackageLinksEmpty(b)
    ensures PackagesLinked(b, d, |b.packages|)
  {
    d := b;
    for c := 0 to |b.packages|
      invariant PackagesLinked(b, d, c)
    {
      var package := b.packages[c];
      if package.parent.Some? {
        var q := package.parent.value;
        d := d.(packages := d.packages[q := d.packages[q].(packages := d.packages[q].packages + {package.token})]);
      }
    }
  }

  /** `d` is `b` after the module loop has linked the first `n` modules to their parents. */
  ghost predicate ModulesLinked(b: Arena, d: Arena, n: nat)
  {
    && n <= |b.modules|
    && |d.packages| == |b.packages| && d.modules == b.modules
    && d.packagesByPypath == b.packagesByPypath && d.modulesByPypath == b.modulesByPypath
    && forall q :: 0 <= q < |b.packages| ==>
         && d.packages[q] == b.packages[q].(modules := d.packages[q].modules)
         && forall x :: x in d.packages[q].modules <==> 0 <= x < n && b.modules[x].parent == q
  }

  /** The second loop of "Add package children". */
  method LinkChildModules(b: Arena) returns (d: Arena)
    requires ModuleLinksEmpty(b)
    ensures ModulesLinked(b, d, |b.modules|)
  {
    d := b;
    for m := 0 to |b.modules|
      invariant ModulesLinked(b, d, m)
    {
      var child := b.modules[m];
      var q := child.parent;
      d := d.(packages := d.packages[q := d.packages[q].(modules := d.packages[q].modules + {child.token})]);
    }
  }

  // ---------------------------------------------------------------------
  // The root: the packages without a parent.
  // ---------------------------------------------------------------------

  /** "Get root": the tokens of the packages without a parent, in slot order. */
  method Parentless(packages: seq<Package>) returns (roots: seq<nat>)
    requires forall c :: 0 <= c < |packages| ==> packages[c].token == c
    ensures forall x :: x in roots <==> 0 <= x < |packages| && packages[x].parent.None?
    ensures forall i, j :: 0 <= i < j < |roots| ==> roots[i] < roots[j]
  {
    roots := [];
    for c := 0 to |packages|
      invariant forall x :: x in roots <==> 0 <= x < c && packages[x].parent.None?
      invariant forall i :: 0 <= i < |roots| ==> roots[i] < c
      invariant forall i, j :: 0 <= i < j < |roots| ==> roots[i] < roots[j]
    {
      if packages[c].parent.None? {
        roots := roots + [packages[c].token];
      }
    }
  }

  /** An increasing list holding exactly one value is that value alone. */
  lemma SingleRoot(roots: seq<nat>, r: nat)
    requires forall x :: x in roots <==> x == r
    requires forall i, j :: 0 <= i < j < |roots| ==> roots[i] < roots[j]
    ensures roots == [r]
  {
    assert r in roots;
    assert roots[0] in roots;
    assert forall i :: 0 < i < |roots| ==> roots[i] != r;
    assert roots[|roots| - 1] in roots;
  }

  // ---------------------------------------------------------------------
  // The whole build.
  // ---------------------------------------------------------------------

  /** After all four loops the packages keep what the key loop gave them, plus their init module. */
  ghost predicate SamePackages(a: Arena, e: Arena)
  {
    && |e.packages| == |a.packages| && e.packagesByPypath == a.packagesByPypath
    && forall q :: 0 <= q < |a.packages| ==>
         && e.packages[q].token == a.packages[q].token && e.packages[q].path == a.packages[q].path
         && e.packages[q].pypath == a.packages[q].pypath && e.packages[q].parent == a.packages[q].parent
         && e.packages[q].initModule == Some(|a.modules| + q)
  }

  /** After all four loops the child sets are read back from the parent fields. */
  ghost predicate ChildLinks(a: Arena, e: Arena)
    requires |e.packages| == |a.packages|
  {
    && (forall q, x {:trigger x in e.packages[q].packages} :: 0 <= q < |a.packages| && x in e.packages[q].packages ==>
          x < |a.packages| && a.packages[x].parent == Some(q))
    && (forall x :: 0 <= x < |a.packages| && a.packages[x].parent.Some? && a.packages[x].parent.value < |a.packages| ==>
          x in e.packages[a.packages[x].parent.value].packages)
    && (forall q, x {:trigger x in e.packages[q].modules} :: 0 <= q < |a.packages| && x in e.packages[q].modules ==>
          x < |e.modules| && e.modules[x].parent == q)
    && (forall x :: 0 <= x < |e.modules| && e.modules[x].parent < |a.packages| ==>
          x in e.packages[e.modules[x].parent].modules)
  }

  /** After all four loops the key modules are followed by one init module per package. */
  ghost predicate ModulesAdded(a: Arena, e: Arena)
  {
    && |e.modules| == |a.modules| + |a.packages|
    && a.modules <= e.modules
    && (forall c :: 0 <= c < |a.packages| ==> e.modules[|a.modules| + c] == InitModuleOf(a, c))
    && (forall k :: k in a.modulesByPypath ==> k in e.modulesByPypath)
    && (forall c :: 0 <= c < |a.packages| ==>
          InitPypath(a.packages[c].pypath) in e.modulesByPypath
          && e.modulesByPypath[InitPypath(a.packages[c].pypath)] == |a.modules| + c)
    && Indexes(e)
  }

  lemma ReadyToLinkPackages(a: Arena, b: Arena, top: Pypath)
    requires Building(a, top) && InitsAdded(a, b, |a.packages|)
    ensures PackageLinksEmpty(b)
  {
    forall c | 0 <= c < |b.packages|
      ensures b.packages[c].token == c && b.packages[c].packages == {}
      ensures b.packages[c].parent.Some? ==> b.packages[c].parent.value < |b.packages|
    {
      assert Named(a, c, top);
    }
  }

  lemma ReadyToLinkModules(a: Arena, b: Arena, d: Arena, top: Pypath)
    requires Building(a, top) && InitsAdded(a, b, |a.packages|) && PackagesLinked(b, d, |b.packages|)
    ensures ModuleLinksEmpty(d)
  {
    forall c | 0 <= c < |d.packages|
      ensures d.packages[c].modules == {}
    {
      assert Named(a, c, top);
    }
    forall m | 0 <= m < |d.modules|
      ensures d.modules[m].token == m && d.modules[m].parent < |d.packages|
    {
      if m < |a.modules| {
        assert KeyModule(a, m);
        assert d.modules[m] == a.modules[m];
      } else {
        assert d.modules[m] == InitModuleOf(a, m - |a.modules|);
      }
    }
  }

  lemma AssembledFromLoops(a: Arena, b: Arena, d1: Arena, d2: Arena)
    requires InitsAdded(a, b, |a.packages|)
    requires PackagesLinked(b, d1, |b.packages|) && ModulesLinked(d1, d2, |d1.modules|)
    ensures SamePackages(a, d2) && ChildLinks(a, d2) && ModulesAdded(a, d2)
  {
    forall q | 0 <= q < |a.packages|
      ensures d2.packages[q].packages == d1.packages[q].packages
      ensures d2.packages[q].token == a.packages[q].token && d2.packages[q].path == a.packages[q].path
      ensures d2.packages[q].pypath == a.packages[q].pypath && d2.packages[q].parent == a.packages[q].parent
      ensures d2.packages[q].initModule == Some(|a.modules| + q)
    {
      assert d1.packages[q] == b.packages[q].(packages := d1.packages[q].packages);
    }
    forall x | 0 <= x < |a.packages|
      ensures b.packages[x].parent == a.packages[x].parent
    {
    }
  }

  /** The top-level package of any path has no parent itself. */
  lemma {:induction false} TopIsParentless(p: Pypath)
    ensures !HasParent(Top(p))
    decreases |Pieces(p)|
  {
    if HasParent(p) {
      ParentHasOnePieceLess(p);
      TopIsParentless(Parent(p));
    }
  }

  /** A package has no parent exactly when it is the top-level package. */
  lemma ParentlessIsTop(a: Arena, c: nat, top: Pypath)
    requires c < |a.packages| && Named(a, c, top)
    requires top in a.packagesByPypath && a.packagesByPypath[top] < |a.packages|
    requires a.packages[a.packagesByPypath[top]].pypath == top
    ensures a.packages[c].parent.None? <==> c == a.packagesByPypath[top]
  {
    TopIsParentless(a.packages[c].pypath);
  }

  /** The single package without a parent is the one named after the top-level package. */
  lemma OnlyTopIsParentless(a: Arena, e: Arena, top: Pypath)
    requires Building(a, top) && SamePackages(a, e) && top in a.packagesByPypath
    ensures forall c :: 0 <= c < |e.packages| ==> (e.packages[c].parent.None? <==> c == a.packagesByPypath[top])
  {
    forall c | 0 <= c < |e.packages|
      ensures e.packages[c].parent.None? <==> c == a.packagesByPypath[top]
    {
      assert Named(a, c, top);
      ParentlessIsTop(a, c, top);
    }
  }

  /** `assert_eq!(root.len(), 1)` holds, and the root is the top-level package. */
  lemma RootIsTop(a: Arena, e: Arena, top: Pypath, roots: seq<nat>)
    requires Building(a, top) && SamePackages(a, e) && top in a.packagesByPypath
    requires forall x :: x in roots <==> 0 <= x < |e.packages| && e.packages[x].parent.None?
    requires forall i, j :: 0 <= i < j < |roots| ==> roots[i] < roots[j]
    ensures roots == [a.packagesByPypath[top]]
  {
    OnlyTopIsParentless(a, e, top);
    SingleRoot(roots, a.packagesByPypath[top]);
  }

  /** The result of the build, from the arena after all four loops. */
  function Result(root: nat, e: Arena): PackageInfo
  {
    PackageInfo(root, e.packages, e.modules, map[], e.packagesByPypath, map[], e.modulesByPypath)
  }

  /** A child package comes after its parent. */
  lemma ChildrenAfterParent(a: Arena, e: Arena, top: Pypath)
    requires Building(a, top) && |e.packages| == |a.packages| && ChildLinks(a, e)
    ensures forall c, x :: 0 <= c < |e.packages| && x in e.packages[c].packages ==> c < x < |e.packages|
  {
    forall c, x | 0 <= c < |e.packages| && x in e.packages[c].packages
      ensures c < x < |e.packages|
    {
      assert Named(a, x, top);
    }
  }

  lemma ChildModulesInRange(a: Arena, e: Arena)
    requires |e.packages| == |a.packages| && ChildLinks(a, e)
    ensures forall c, x :: 0 <= c < |e.packages| && x in e.packages[c].modules ==> x < |e.modules|
  {
  }

  lemma ResultPackagesFields(a: Arena, e: Arena, top: Pypath)
    requires Building(a, top) && SamePackages(a, e) && |e.modules| == |a.modules| + |a.packages|
    ensures forall c :: 0 <= c < |e.packages| ==>
              && e.packages[c].token == c
              && (e.packages[c].parent.Some? ==> e.packages[c].parent.value < c)
              && (e.packages[c].initModule.Some? ==> e.packages[c].initModule.value < |e.modules|)
  {
    forall c | 0 <= c < |e.packages|
      ensures e.packages[c].token == c
      ensures e.packages[c].parent.Some? ==> e.packages[c].parent.value < c
    {
      assert Named(a, c, top);
    }
  }

  lemma ResultModulesFields(a: Arena, e: Arena, top: Pypath)
    requires Building(a, top) && |e.packages| == |a.packages| && ModulesAdded(a, e)
    ensures forall m :: 0 <= m < |e.modules| ==> e.modules[m].token == m && e.modules[m].parent < |e.packages|
  {
    forall m | 0 <= m < |e.modules|
      ensures e.modules[m].token == m && e.modules[m].parent < |e.packages|
    {
      if m < |a.modules| {
        assert KeyModule(a, m);
        assert e.modules[m] == a.modules[m];
      } else {
        assert e.modules[m] == InitModuleOf(a, m - |a.modules|);
      }
    }
  }

  lemma ResultWellFormed(a: Arena, e: Arena, top: Pypath)
    requires Building(a, top) && SamePackages(a, e) && ChildLinks(a, e) && ModulesAdded(a, e)
    requires top in a.packagesByPypath
    ensures WellFormed(Result(a.packagesByPypath[top], e))
  {
    var info := Result(a.packagesByPypath[top], e);
    ChildrenAfterParent(a, e, top);
    ChildModulesInRange(a, e);
    ResultPackagesFields(a, e, top);
    ResultModulesFields(a, e, top);
    forall c | 0 <= c < |info.packages|
      ensures PackageWellFormed(info, c)
    {
    }
  }

  lemma ResultLinked(a: Arena, e: Arena, root: nat)
    requires SamePackages(a, e) && ChildLinks(a, e)
    ensures Linked(Result(root, e))
  {
  }

  /** The packages are named after the keys: every package is indexed, and its parent is the package of its parent pypath. */
  ghost predicate PackagesNamed(info: PackageInfo)
  {
    var P := info.packages;
    && (forall k :: k in info.packagesByPypath ==>
          info.packagesByPypath[k] < |P| && P[info.packagesByPypath[k]].pypath == k)
    && (forall k :: k in info.packagesByPypath && HasParent(k) ==> Parent(k) in info.packagesByPypath)
    && (forall c :: 0 <= c < |P| ==>
          && P[c].pypath in info.packagesByPypath && info.packagesByPypath[P[c].pypath] == c
          && (P[c].parent.Some? <==> HasParent(P[c].pypath))
          && (P[c].parent.Some? ==> P[c].parent.value < |P| && P[P[c].parent.value].pypath == Parent(P[c].pypath)))
  }

  /** Every key is a package or a module, and every module that is not an init module is a key. */
  ghost predicate ModulesNamed(data: map<Pypath, set<Pypath>>, info: PackageInfo)
  {
    var P, M := info.packages, info.modules;
    && (forall k :: k in data ==> k in info.packagesByPypath || k in info.modulesByPypath)
    && (forall k :: k in data && HasParent(k) ==> Parent(k) in info.packagesByPypath)
    && (forall k :: k in info.modulesByPypath ==>
          info.modulesByPypath[k] < |M| && M[info.modulesByPypath[k]].pypath == k)
    && (forall m :: 0 <= m < |M| && !M[m].isInit ==>
          && M[m].pypath in data && M[m].pypath !in info.packagesByPypath
          && M[m].parent < |P| && P[M[m].parent].pypath == Parent(M[m].pypath))
  }

  /** Every package has an `__init__` module, stored and indexed under `<package>.__init__`. */
  ghost predicate HasInitModules(info: PackageInfo)
  {
    var P, M := info.packages, info.modules;
    && (forall c :: 0 <= c < |P| ==>
          && P[c].initModule.Some? && P[c].initModule.value < |M|
          && var m := P[c].initModule.value;
             && M[m].isInit && M[m].parent == c && M[m].pypath == InitPypath(P[c].pypath)
             && M[m].pypath in info.modulesByPypath && info.modulesByPypath[M[m].pypath] == m)
    && (forall m :: 0 <= m < |M| && M[m].isInit ==>
          M[m].parent < |P| && P[M[m].parent].initModule == Some(m))
  }

  lemma ResultPackagesNamed(a: Arena, e: Arena, top: Pypath, root: nat)
    requires Building(a, top) && SamePackages(a, e)
    ensures PackagesNamed(Result(root, e))
  {
    forall k | k in a.packagesByPypath && HasParent(k)
      ensures Parent(k) in a.packagesByPypath
    {
      assert Named(a, a.packagesByPypath[k], top);
    }
    forall c | 0 <= c < |e.packages|
      ensures e.packages[c].pypath in e.packagesByPypath && e.packagesByPypath[e.packages[c].pypath] == c
      ensures e.packages[c].parent.Some? <==> HasParent(e.packages[c].pypath)
      ensures e.packages[c].parent.Some? ==>
                e.packages[c].parent.value < |e.packages| && e.packages[e.packages[c].parent.value].pypath == Parent(e.packages[c].pypath)
    {
      assert Named(a, c, top);
    }
  }

  /** A key module's parent package is the package of its parent pypath. */
  lemma KeyModuleParent(a: Arena, m: nat, top: Pypath)
    requires Building(a, top) && m < |a.modules|
    ensures a.modules[m].parent < |a.packages|
    ensures a.packages[a.modules[m].parent].pypath == Parent(a.modules[m].pypath)
    ensures HasParent(a.modules[m].pypath) && Parent(a.modules[m].pypath) in a.packagesByPypath
    ensures a.modules[m].pypath in a.modulesByPypath && a.modules[m].pypath !in a.packagesByPypath
    ensures !a.modules[m].isInit
  {
    assert KeyModule(a, m);
    assert Named(a, a.modules[m].parent, top);
  }

  lemma ResultModulesNamed(data: map<Pypath, set<Pypath>>, order: seq<Pypath>, a: Arena, e: Arena, top: Pypath, root: nat)
    requires forall k :: k in data <==> k in order
    requires KeysInserted(order, |order|, a, top) && SamePackages(a, e) && ModulesAdded(a, e)
    ensures ModulesNamed(data, Result(root, e))
  {
    forall k | k in data
      ensures k in e.packagesByPypath || k in e.modulesByPypath
      ensures HasParent(k) ==> Parent(k) in e.packagesByPypath
    {
      var i :| 0 <= i < |order| && order[i] == k;
      if k in a.packagesByPypath {
        assert Named(a, a.packagesByPypath[k], top);
      } else {
        KeyModuleParent(a, a.modulesByPypath[k], top);
      }
    }
    forall m | |a.modules| <= m < |e.modules|
      ensures e.modules[m].isInit
    {
      assert e.modules[m] == InitModuleOf(a, m - |a.modules|);
    }
    forall m | 0 <= m < |a.modules|
      ensures a.modules[m].pypath in data && a.modules[m].pypath !in a.packagesByPypath
      ensures a.modules[m].parent < |a.packages|
      ensures e.packages[a.modules[m].parent].pypath == Parent(a.modules[m].pypath)
    {
      KeyModuleParent(a, m, top);
      assert a.modules[m].pypath in order;
    }
  }

  lemma ResultInits(a: Arena, e: Arena, root: nat)
    requires SamePackages(a, e) && ModulesAdded(a, e)
    requires forall m :: 0 <= m < |a.modules| ==> !a.modules[m].isInit
    ensures HasInitModules(Result(root, e))
  {
    var P, M := e.packages, e.modules;
    forall c | 0 <= c < |P|
      ensures P[c].initModule == Some(|a.modules| + c) && |a.modules| + c < |M|
      ensures M[|a.modules| + c].isInit && M[|a.modules| + c].parent == c
      ensures M[|a.modules| + c].pypath == InitPypath(P[c].pypath)
      ensures M[|a.modules| + c].pypath in e.modulesByPypath
      ensures e.modulesByPypath[M[|a.modules| + c].pypath] == |a.modules| + c
    {
      assert M[|a.modules| + c] == InitModuleOf(a, c);
    }
    forall m | 0 <= m < |M| && M[m].isInit
      ensures M[m].parent < |P| && P[M[m].parent].initModule == Some(m)
    {
      if m >= |a.modules| {
        assert M[m] == InitModuleOf(a, m - |a.modules|);
      }
    }
  }

  lemma KeyModulesAreNotInit(a: Arena, top: Pypath)
    requires Building(a, top)
    ensures forall m :: 0 <= m < |a.modules| ==> !a.modules[m].isInit
  {
    forall m | 0 <= m < |a.modules|
      ensures !a.modules[m].isInit
    {
      assert KeyModule(a, m);
    }
  }

  /** Keys sorted by descending number of dots, converted to pieces. */
  lemma KeysInOrder(data: map<Pypath, set<Pypath>>, order: seq<Pypath>, top: Pypath)
    requires forall k :: k in data <==> k in order
    requires forall i, j :: 0 <= i < j < |order| ==> order[i] != order[j]
    requires forall i, j :: 0 <= i < j < |order| ==> CountDots(order[i]) >= CountDots(order[j])
    requires forall k :: k in data ==> FromStr(k.s).Ok? && Top(k) == top
    requires exists k :: k in data && HasParent(k)
    ensures KeyOrder(order, top)
  {
    forall i, j | 0 <= i < j < |order|
      ensures |Pieces(order[i])| >= |Pieces(order[j])|
    {
      PiecesAreDotsPlusOne(order[i].s);
      PiecesAreDotsPlusOne(order[j].s);
    }
    var k :| k in data && HasParent(k);
    assert k in order;
  }

  /**
   * `build_package_info`. `order` is the order in which the source visits
   * the keys of `data`: sorted by descending number of dots, ties in hash
   * order. The source asserts that exactly one package has no parent, which
   * holds exactly when all keys share one top-level package; every key must
   * parse, and some key must have a dot, or the first key's module has no
   * parent to unwrap.
   */
  method BuildPackageInfo(data: map<Pypath, set<Pypath>>, order: seq<Pypath>) returns (info: PackageInfo)
    requires forall k :: k in data <==> k in order
    requires forall i, j :: 0 <= i < j < |order| ==> order[i] != order[j]
    requires forall i, j :: 0 <= i < j < |order| ==> CountDots(order[i]) >= CountDots(order[j])
    requires forall k :: k in data ==> FromStr(k.s).Ok?
    requires exists k :: k in data && HasParent(k)
    requires forall k, k' :: k in data && k' in data ==> Top(k) == Top(k')
    ensures WellFormed(info) && Linked(info) && Rooted(info)
    ensures info.packagesByPath == map[] && info.modulesByPath == map[]
    ensures forall k :: k in data ==> info.packages[info.root].pypath == Top(k)
    ensures PackagesNamed(info) && ModulesNamed(data, info) && HasInitModules(info)
    ensures forall c :: 0 <= c < |info.packages| ==> AncestorOfKey(info.packages[c].pypath, data)
  {
    ghost var some :| some in data && HasParent(some);
    ghost var top := Top(some);
    KeysInOrder(data, order, top);
    var a := InsertKeys(order, top);
    var b := AddInitModules(a, top);
    ReadyToLinkPackages(a, b, top);
    var d1 := LinkChildPackages(b);
    ReadyToLinkModules(a, b, d1, top);
    var d2 := LinkChildModules(d1);
    AssembledFromLoops(a, b, d1, d2);
    ResultPackagesFields(a, d2, top);
    var roots := Parentless(d2.packages);
    RootIsTop(a, d2, top, roots);
    var root := roots[0];
    info := PackageInfo(root, d2.packages, d2.modules, map[], d2.packagesByPypath, map[], d2.modulesByPypath);
    Finished(data, order, a, d2, top, info);
    PackagesFromKeys(data, order, a, d2, info);
  }

  /** The packages of the result are those of the key loop, so each is a strict ancestor of a key. */
  lemma PackagesFromKeys(data: map<Pypath, set<Pypath>>, order: seq<Pypath>, a: Arena, e: Arena, info: PackageInfo)
    requires forall k :: k in order ==> k in data
    requires PackagesAboveKeys(a, order) && SamePackages(a, e) && info.packages == e.packages
    ensures forall c :: 0 <= c < |info.packages| ==> AncestorOfKey(info.packages[c].pypath, data)
  {
    forall c | 0 <= c < |info.packages|
      ensures AncestorOfKey(info.packages[c].pypath, data)
    {
      assert info.packages[c].pypath == a.packages[c].pypath;
      assert AboveSomeKey(a.packages[c].pypath, order);
      var d :| d in order && a.packages[c].pypath.s + "." <= d.s;
      assert d in data;
    }
  }

  /** The method's promises, from the arena after the key loop and the arena after all four loops. */
  lemma Finished(data: map<Pypath, set<Pypath>>, order: seq<Pypath>, a: Arena, e: Arena, top: Pypath, info: PackageInfo)
    requires forall k :: k in data <==> k in order
    requires forall k :: k in data ==> Top(k) == top
    requires |order| > 0 && KeysInserted(order, |order|, a, top)
    requires SamePackages(a, e) && ChildLinks(a, e) && ModulesAdded(a, e)
    requires top in a.packagesByPypath && info == Result(a.packagesByPypath[top], e)
    ensures WellFormed(info) && Linked(info) && Rooted(info)
    ensures info.packagesByPath == map[] && info.modulesByPath == map[]
    ensures forall k :: k in data ==> info.packages[info.root].pypath == Top(k)
    ensures PackagesNamed(info) && ModulesNamed(data, info) && HasInitModules(info)
  {
    BuiltTree(a, e, top, info);
    ResultPackagesNamed(a, e, top, info.root);
    ResultModulesNamed(data, order, a, e, top, info.root);
    KeyModulesAreNotInit(a, top);
    ResultInits(a, e, info.root);
    assert a.packages[info.root].pypath == top;
  }

  lemma BuiltTree(a: Arena, e: Arena, top: Pypath, info: PackageInfo)
    requires Building(a, top) && SamePackages(a, e) && ChildLinks(a, e) && ModulesAdded(a, e)
    requires top in a.packagesByPypath && info == Result(a.packagesByPypath[top], e)
    ensures WellFormed(info) && Linked(info) && Rooted(info)
  {
    ResultWellFormed(a, e, top);
    ResultLinked(a, e, info.root);
    OnlyTopIsParentless(a, e, top);
  }
}
