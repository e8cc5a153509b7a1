/**
 * The layered architecture contract of src/contracts/layers.rs. Layers are
 * listed from lowest to highest; `get_forbidden_imports` turns them into
 * forbidden imports with nested loops:
 *   - a layer may not import any higher layer;
 *   - unless deep imports are allowed, a layer may not import a layer two
 *     or more below it, except through the layer directly below it;
 *   - the siblings of an independent layer may not import each other.
 * The loops walk the sibling sets in the order a walk over a set yields,
 * which the model leaves open; what is fixed is which rules come out and
 * how many.
 */
module Layers {
  import opened Wrappers
  import opened Errors
  import opened PackageInfos
  import opened ImportsInfos
  import opened Adjacency
  import opened SetOrder
  import opened Contracts
  import ExternalImportsQueries

  /** `Layer`: sibling items, and whether they must not import each other. */
  datatype Layer = Layer(siblings: set<PackageItemToken>, siblingsIndependent: bool)

  /** `Layer::new`: the siblings collected into a set, so repeats collapse. */
  function NewLayer(siblings: seq<PackageItemToken>, siblingsIndependent: bool): (l: Layer)
    ensures forall t :: t in l.siblings <==> t in siblings
    ensures l.siblingsIndependent == siblingsIndependent
  {
    Layer(Elements(siblings), siblingsIndependent)
  }

  // ---------------------------------------------------------------------
  // Which rules come out
  // ---------------------------------------------------------------------

  /** A rule from layer `i` into a layer above it and below `h`, with no exception. */
  ghost predicate Upward(layers: seq<Layer>, i: nat, h: nat, f: ForbiddenImport)
    requires i < |layers| && h <= |layers|
  {
    && f.from in layers[i].siblings && f.exceptVia == {}
    && exists j :: i < j < h && f.to in layers[j].siblings
  }

  /** A rule from layer `i` into a layer below `h` (at most `i - 1`), except through layer `i - 1`. */
  ghost predicate Downward(layers: seq<Layer>, i: nat, h: nat, f: ForbiddenImport)
    requires i < |layers| && h < i
  {
    && f.from in layers[i].siblings && f.exceptVia == layers[i - 1].siblings
    && exists j :: 0 <= j < h && f.to in layers[j].siblings
  }

  /** A rule between two distinct siblings of layer `i`, with no exception. */
  ghost predicate Sideways(layers: seq<Layer>, i: nat, f: ForbiddenImport)
    requires i < |layers|
  {
    f.from in layers[i].siblings && f.to in layers[i].siblings && f.from != f.to && f.exceptVia == {}
  }

  /** The rules the pass of the loop for layer `i` produces. */
  ghost predicate RuleOf(layers: seq<Layer>, allowDeepImports: bool, i: nat, f: ForbiddenImport)
    requires i < |layers|
  {
    || Upward(layers, i, |layers|, f)
    || (!allowDeepImports && i >= 2 && Downward(layers, i, i - 1, f))
    || (layers[i].siblingsIndependent && Sideways(layers, i, f))
  }

  /** A rule the layers forbid. */
  ghost predicate IsForbidden(layers: seq<Layer>, allowDeepImports: bool, f: ForbiddenImport)
  {
    exists i :: 0 <= i < |layers| && RuleOf(layers, allowDeepImports, i, f)
  }

  // ---------------------------------------------------------------------
  // How many rules come out
  // ---------------------------------------------------------------------

  /** The number of siblings of the layers `lo` to `hi - 1`. */
  function Size(layers: seq<Layer>, lo: nat, hi: nat): nat
    requires lo <= hi <= |layers|
    decreases hi
  {
    if hi == lo then 0 else Size(layers, lo, hi - 1) + |layers[hi - 1].siblings|
  }

  /** The number of ordered pairs of distinct elements of a set of `n`. */
  function Permutations2(n: nat): nat
  {
    if n == 0 then 0 else n * (n - 1)
  }

  /** The number of rules the pass for layer `i` produces. */
  function RulesAt(layers: seq<Layer>, allowDeepImports: bool, i: nat): nat
    requires i < |layers|
  {
    var n := |layers[i].siblings|;
    n * Size(layers, i + 1, |layers|)
    + (if !allowDeepImports && i >= 2 then n * Size(layers, 0, i - 1) else 0)
    + (if layers[i].siblingsIndependent then Permutations2(n) else 0)
  }

  /** The number of rules the passes for the first `k` layers produce. */
  function RuleCount(layers: seq<Layer>, allowDeepImports: bool, k: nat): nat
    requires k <= |layers|
  {
    if k == 0 then 0 else RuleCount(layers, allowDeepImports, k - 1) + RulesAt(layers, allowDeepImports, k - 1)
  }

  // ---------------------------------------------------------------------
  // The nested loops
  // ---------------------------------------------------------------------

  /** The innermost loop: a rule from `x` to each of `ys`. */
  method PushRow(r: seq<ForbiddenImport>, x: PackageItemToken, ys: seq<PackageItemToken>, exceptVia: set<PackageItemToken>)
    returns (r': seq<ForbiddenImport>)
    ensures |r'| == |r| + |ys|
    ensures forall f :: f in r' <==> f in r || (f.from == x && f.to in ys && f.exceptVia == exceptVia)
  {
    r' := r;
    for b := 0 to |ys|
      invariant |r'| == |r| + b
      invariant forall f :: f in r' <==> f in r || (f.from == x && f.to in ys[..b] && f.exceptVia == exceptVia)
    {
      assert ys[..b + 1] == ys[..b] + [ys[b]];
      r' := r' + [ForbiddenImport(x, ys[b], exceptVia)];
    }
    assert ys[..|ys|] == ys;
  }

  /** Two nested loops: a rule from each of `xs` to each of `ys`. */
  method PushPairs(r: seq<ForbiddenImport>, xs: seq<PackageItemToken>, ys: seq<PackageItemToken>, exceptVia: set<PackageItemToken>)
    returns (r': seq<ForbiddenImport>)
    ensures |r'| == |r| + |xs| * |ys|
    ensures forall f :: f in r' <==> f in r || (f.from in xs && f.to in ys && f.exceptVia == exceptVia)
  {
    r' := r;
    for a := 0 to |xs|
      invariant |r'| == |r| + a * |ys|
      invariant forall f :: f in r' <==> f in r || (f.from in xs[..a] && f.to in ys && f.exceptVia == exceptVia)
    {
      assert xs[..a + 1] == xs[..a] + [xs[a]];
      r' := PushRow(r', xs[a], ys, exceptVia);
      assert (a + 1) * |ys| == a * |ys| + |ys|;
    }
    assert xs[..|xs|] == xs;
  }

  /** The inner loop over permutations: a rule from `x` to each of `ys` but `x` itself. */
  method PushRowSkipping(r: seq<ForbiddenImport>, x: PackageItemToken, ys: seq<PackageItemToken>) returns (r': seq<ForbiddenImport>)
    requires x in ys && forall i, j :: 0 <= i < j < |ys| ==> ys[i] != ys[j]
    ensures |r'| == |r| + |ys| - 1
    ensures forall f :: f in r' <==> f in r || (f.from == x && f.to in ys && f.to != x && f.exceptVia == {})
  {
    r' := r;
    for b := 0 to |ys|
      invariant |r'| == |r| + b - (if x in ys[..b] then 1 else 0)
      invariant forall f :: f in r' <==> f in r || (f.from == x && f.to in ys[..b] && f.to != x && f.exceptVia == {})
    {
      assert ys[..b + 1] == ys[..b] + [ys[b]];
      if ys[b] == x {
        assert x !in ys[..b];
        continue;
      }
      r' := r' + [ForbiddenImport(x, ys[b], {})];
    }
    assert ys[..|ys|] == ys;
  }

  /** `permutations(2)`: a rule for every ordered pair of distinct elements of `xs`. */
  method PushDistinctPairs(r: seq<ForbiddenImport>, xs: seq<PackageItemToken>) returns (r': seq<ForbiddenImport>)
    requires forall i, j :: 0 <= i < j < |xs| ==> xs[i] != xs[j]
    ensures |r'| == |r| + Permutations2(|xs|)
    ensures forall f :: f in r' <==> f in r || (f.from in xs && f.to in xs && f.from != f.to && f.exceptVia == {})
  {
    r' := r;
    for a := 0 to |xs|
      invariant |r'| == |r| + a * (|xs| - 1)
      invariant forall f :: f in r' <==> f in r || (f.from in xs[..a] && f.to in xs && f.from != f.to && f.exceptVia == {})
    {
      assert xs[..a + 1] == xs[..a] + [xs[a]];
      r' := PushRowSkipping(r', xs[a], xs);
      assert (a + 1) * (|xs| - 1) == a * (|xs| - 1) + (|xs| - 1);
    }
    assert xs[..|xs|] == xs;
  }

  /** The loop over the higher layers: layer `idx` may not import any of them. */
  method PushUpward(r: seq<ForbiddenImport>, layers: seq<Layer>, idx: nat) returns (r': seq<ForbiddenImport>)
    requires idx < |layers|
    ensures |r'| == |r| + |layers[idx].siblings| * Size(layers, idx + 1, |layers|)
    ensures forall f :: f in r' <==> f in r || Upward(layers, idx, |layers|, f)
  {
    var siblings := Enumerate(layers[idx].siblings);
    r' := r;
    for h := idx + 1 to |layers|
      invariant |r'| == |r| + |siblings| * Size(layers, idx + 1, h)
      invariant forall f :: f in r' <==> f in r || Upward(layers, idx, h, f)
    {
      var higher := Enumerate(layers[h].siblings);
      r' := PushPairs(r', siblings, higher, {});
      assert |siblings| * Size(layers, idx + 1, h + 1) == |siblings| * Size(layers, idx + 1, h) + |siblings| * |higher|;
    }
  }

  /** The loop over the layers below the one directly below: layer `idx` may import them only through it. */
  method PushDownward(r: seq<ForbiddenImport>, layers: seq<Layer>, idx: nat) returns (r': seq<ForbiddenImport>)
    requires 2 <= idx < |layers|
    ensures |r'| == |r| + |layers[idx].siblings| * Size(layers, 0, idx - 1)
    ensures forall f :: f in r' <==> f in r || Downward(layers, idx, idx - 1, f)
  {
    var siblings := Enumerate(layers[idx].siblings);
    var directlyLower := layers[idx - 1].siblings;
    r' := r;
    for l := 0 to idx - 1
      invariant |r'| == |r| + |siblings| * Size(layers, 0, l)
      invariant forall f :: f in r' <==> f in r || Downward(layers, idx, l, f)
    {
      var lower := Enumerate(layers[l].siblings);
      r' := PushPairs(r', siblings, lower, directlyLower);
      assert |siblings| * Size(layers, 0, l + 1) == |siblings| * Size(layers, 0, l) + |siblings| * |lower|;
    }
  }

  /** The loop over the permutations of an independent layer's siblings. */
  method PushSideways(r: seq<ForbiddenImport>, layers: seq<Layer>, idx: nat) returns (r': seq<ForbiddenImport>)
    requires idx < |layers|
    ensures |r'| == |r| + Permutations2(|layers[idx].siblings|)
    ensures forall f :: f in r' <==> f in r || Sideways(layers, idx, f)
  {
    var siblings := Enumerate(layers[idx].siblings);
    r' := PushDistinctPairs(r, siblings);
  }

  /** One pass of the outer loop of `get_forbidden_imports`. */
  method PushLayerRules(r: seq<ForbiddenImport>, layers: seq<Layer>, allowDeepImports: bool, idx: nat) returns (r': seq<ForbiddenImport>)
    requires idx < |layers|
    ensures |r'| == |r| + RulesAt(layers, allowDeepImports, idx)
    ensures forall f :: f in r' <==> f in r || RuleOf(layers, allowDeepImports, idx, f)
  {
    r' := PushUpward(r, layers, idx);
    if !allowDeepImports && idx >= 2 {
      r' := PushDownward(r', layers, idx);
    }
    if layers[idx].siblingsIndependent {
      r' := PushSideways(r', layers, idx);
    }
  }

  /**
   * `get_forbidden_imports`: exactly the rules the layers forbid, one per
   * pass of the innermost loops, so as many as `RuleCount` says.
   */
  method GetForbiddenImports(layers: seq<Layer>, allowDeepImports: bool) returns (r: seq<ForbiddenImport>)
    ensures |r| == RuleCount(layers, allowDeepImports, |layers|)
    ensures forall f :: f in r <==> IsForbidden(layers, allowDeepImports, f)
  {
    r := [];
    for idx := 0 to |layers|
      invariant |r| == RuleCount(layers, allowDeepImports, idx)
      invariant forall f :: f in r <==> exists i :: 0 <= i < idx && RuleOf(layers, allowDeepImports, i, f)
    {
      r := PushLayerRules(r, layers, allowDeepImports, idx);
    }
  }

  // ---------------------------------------------------------------------
  // Properties of the rules
  // ---------------------------------------------------------------------

  /** With deep imports allowed only rules without exceptions remain, each also forbidden without deep imports. */
  lemma DeepImportsAllowedDropsDownward(layers: seq<Layer>, f: ForbiddenImport)
    requires IsForbidden(layers, true, f)
    ensures IsForbidden(layers, false, f)
    ensures f.exceptVia == {}
  {
    var i :| 0 <= i < |layers| && RuleOf(layers, true, i, f);
    assert RuleOf(layers, false, i, f);
  }

  /** Allowing deep imports never adds a rule: it removes the downward ones. */
  lemma {:induction false} DeepImportsAllowedCountsFewer(layers: seq<Layer>, k: nat)
    requires k <= |layers|
    ensures RuleCount(layers, true, k) <= RuleCount(layers, false, k)
  {
    if k > 0 {
      DeepImportsAllowedCountsFewer(layers, k - 1);
    }
  }

  /** The layers of the source's example: data; domain1, domain2; application1, application2 (not independent); interfaces. */
  function ExampleLayers(): seq<Layer>
  {
    [Layer({PackageToken(0)}, true),
     Layer({PackageToken(1), PackageToken(2)}, true),
     Layer({PackageToken(3), PackageToken(4)}, false),
     Layer({PackageToken(5)}, true)]
  }

  /** The example yields exactly 20 rules. */
  lemma ExampleCount()
    ensures RuleCount(ExampleLayers(), false, 4) == 20
  {
    var ls := ExampleLayers();
    assert |ls[1].siblings| == 2 && |ls[2].siblings| == 2;
    assert Size(ls, 1, 4) == 5 && Size(ls, 2, 4) == 3 && Size(ls, 3, 4) == 1;
    assert RulesAt(ls, false, 0) == 5;
    assert RulesAt(ls, false, 1) == 8;
    assert RulesAt(ls, false, 2) == 4;
    assert RulesAt(ls, false, 3) == 3;
  }

  /** The 20 rules the source's test expects of the example, with deep imports forbidden. */
  function ExampleExpected(): seq<ForbiddenImport>
  {
    var data, domain1, domain2 := PackageToken(0), PackageToken(1), PackageToken(2);
    var application1, application2, interfaces := PackageToken(3), PackageToken(4), PackageToken(5);
    [ForbiddenImport(data, domain1, {}), ForbiddenImport(data, domain2, {}),
     ForbiddenImport(data, application1, {}), ForbiddenImport(data, application2, {}),
     ForbiddenImport(data, interfaces, {}),
     ForbiddenImport(domain1, application1, {}), ForbiddenImport(domain1, application2, {}),
     ForbiddenImport(domain1, interfaces, {}),
     ForbiddenImport(domain2, application1, {}), ForbiddenImport(domain2, application2, {}),
     ForbiddenImport(domain2, interfaces, {}),
     ForbiddenImport(domain1, domain2, {}), ForbiddenImport(domain2, domain1, {}),
     ForbiddenImport(application1, interfaces, {}), ForbiddenImport(application1, data, {domain1, domain2}),
     ForbiddenImport(application2, interfaces, {}), ForbiddenImport(application2, data, {domain1, domain2}),
     ForbiddenImport(interfaces, data, {application1, application2}),
     ForbiddenImport(interfaces, domain1, {application1, application2}),
     ForbiddenImport(interfaces, domain2, {application1, application2})]
  }

  /** Every rule the example's layers forbid is one the test expects. */
  lemma ExampleRulesExpected(f: ForbiddenImport)
    requires IsForbidden(ExampleLayers(), false, f)
    ensures f in ExampleExpected()
  {
    var ls := ExampleLayers();
    var i :| 0 <= i < 4 && RuleOf(ls, false, i, f);
    if Upward(ls, i, 4, f) {
      var j :| i < j < 4 && f.to in ls[j].siblings;
      ExampleUpwardExpected(i, j, f);
    } else if i >= 2 && Downward(ls, i, i - 1, f) {
      var j :| 0 <= j < i - 1 && f.to in ls[j].siblings;
      ExampleDownwardExpected(i, j, f);
    } else {
      assert ls[i].siblingsIndependent && Sideways(ls, i, f);
      assert i == 1 || i == 0 || i == 3;
      var e := ExampleExpected();
      assert f == e[11] || f == e[12];
    }
  }

  /** The example's upward rules from layer `i` into layer `j`. */
  lemma ExampleUpwardExpected(i: nat, j: nat, f: ForbiddenImport)
    requires i < j < 4
    requires f.from in ExampleLayers()[i].siblings && f.to in ExampleLayers()[j].siblings && f.exceptVia == {}
    ensures f in ExampleExpected()
  {
    var e := ExampleExpected();
    if i == 0 {
      if j == 1 { assert f == e[0] || f == e[1]; }
      else if j == 2 { assert f == e[2] || f == e[3]; }
      else { assert f == e[4]; }
    } else if i == 1 {
      if j == 2 { assert f == e[5] || f == e[6] || f == e[8] || f == e[9]; }
      else { assert f == e[7] || f == e[10]; }
    } else {
      assert f == e[13] || f == e[15];
    }
  }

  /** The example's downward rules from layer `i` into layer `j`, except through layer `i - 1`. */
  lemma ExampleDownwardExpected(i: nat, j: nat, f: ForbiddenImport)
    requires 2 <= i < 4 && j < i - 1
    requires f.from in ExampleLayers()[i].siblings && f.to in ExampleLayers()[j].siblings
    requires f.exceptVia == ExampleLayers()[i - 1].siblings
    ensures f in ExampleExpected()
  {
    var e := ExampleExpected();
    if i == 2 { assert f == e[14] || f == e[16]; }
    else if j == 0 { assert f == e[17]; }
    else { assert f == e[18] || f == e[19]; }
  }

  /** Two of the example's rules: the application layer may reach data only through the domain layer, interfaces only through the application layer. */
  lemma ExampleDownwardRules()
    ensures IsForbidden(ExampleLayers(), false, ForbiddenImport(PackageToken(3), PackageToken(0), {PackageToken(1), PackageToken(2)}))
    ensures IsForbidden(ExampleLayers(), false, ForbiddenImport(PackageToken(5), PackageToken(1), {PackageToken(3), PackageToken(4)}))
    ensures !IsForbidden(ExampleLayers(), false, ForbiddenImport(PackageToken(3), PackageToken(4), {}))
    ensures !IsForbidden(ExampleLayers(), true, ForbiddenImport(PackageToken(5), PackageToken(1), {PackageToken(3), PackageToken(4)}))
  {
    var ls := ExampleLayers();
    assert PackageToken(0) in ls[0].siblings && PackageToken(1) in ls[1].siblings;
    assert Downward(ls, 2, 1, ForbiddenImport(PackageToken(3), PackageToken(0), {PackageToken(1), PackageToken(2)}));
    assert RuleOf(ls, false, 2, ForbiddenImport(PackageToken(3), PackageToken(0), {PackageToken(1), PackageToken(2)}));
    assert Downward(ls, 3, 2, ForbiddenImport(PackageToken(5), PackageToken(1), {PackageToken(3), PackageToken(4)}));
    assert RuleOf(ls, false, 3, ForbiddenImport(PackageToken(5), PackageToken(1), {PackageToken(3), PackageToken(4)}));
  }

  // ---------------------------------------------------------------------
  // The contract
  // ---------------------------------------------------------------------

  /** Every package among the siblings is in the arena (the `unwrap` of `with_descendants`). */
  predicate LayersExpandable(info: PackageInfo, layers: seq<Layer>)
  {
    forall i, t :: 0 <= i < |layers| && t in layers[i].siblings && t.PackageToken? ==> t.p < |info.packages|
  }

  /** Every rule of expandable layers names expandable items. */
  lemma RulesExpandable(info: PackageInfo, layers: seq<Layer>, allowDeepImports: bool, f: ForbiddenImport)
    requires LayersExpandable(info, layers) && IsForbidden(layers, allowDeepImports, f)
    ensures Expandable(info, RuleItems(f))
  {
    var i :| 0 <= i < |layers| && RuleOf(layers, allowDeepImports, i, f);
    if Upward(layers, i, |layers|, f) {
      var j :| i < j < |layers| && f.to in layers[j].siblings;
    } else if !allowDeepImports && i >= 2 && Downward(layers, i, i - 1, f) {
      var j :| 0 <= j < i - 1 && f.to in layers[j].siblings;
    }
  }

  /** The rules the pruned imports break: forbidden, and a chain of the pruned imports leads around the exception. */
  ghost predicate Broken(info: PackageInfo, fwd: map<PackageItemToken, set<PackageItemToken>>, layers: seq<Layer>,
                         allowDeepImports: bool, f: ForbiddenImport)
    requires WellFormed(info)
  {
    IsForbidden(layers, allowDeepImports, f) && Expandable(info, RuleItems(f)) && InternallyViolated(info, fwd, f)
  }

  /** `LayeredArchitectureContract`. */
  class LayeredArchitectureContract {
    var layers: seq<Layer>
    var ignoredImports: seq<(PackageItemToken, PackageItemToken)>
    var ignoreTypecheckingImports: bool
    var allowDeepImports: bool

    /** `new`: no ignored imports, typechecking imports checked, deep imports forbidden. */
    constructor (layers: seq<Layer>)
      ensures this.layers == layers && ignoredImports == []
      ensures !ignoreTypecheckingImports && !allowDeepImports
    {
      this.layers := layers;
      ignoredImports := [];
      ignoreTypecheckingImports := false;
      allowDeepImports := false;
    }

    /** `with_ignored_imports`: the imports are appended to those already ignored. */
    method WithIgnoredImports(imports: seq<(PackageItemToken, PackageItemToken)>)
      modifies this
      ensures ignoredImports == old(ignoredImports) + imports
      ensures layers == old(layers) && ignoreTypecheckingImports == old(ignoreTypecheckingImports)
      ensures allowDeepImports == old(allowDeepImports)
    {
      ignoredImports := ignoredImports + imports;
    }

    /** `with_typechecking_imports_ignored`. */
    method WithTypecheckingImportsIgnored()
      modifies this
      ensures ignoreTypecheckingImports
      ensures layers == old(layers) && ignoredImports == old(ignoredImports) && allowDeepImports == old(allowDeepImports)
    {
      ignoreTypecheckingImports := true;
    }

    /** `with_deep_imports_allowed`. */
    method WithDeepImportsAllowed()
      modifies this
      ensures allowDeepImports
      ensures layers == old(layers) && ignoredImports == old(ignoredImports)
      ensures ignoreTypecheckingImports == old(ignoreTypecheckingImports)
    {
      allowDeepImports := true;
    }

    /**
     * `verify`: on a copy with the ignored (and, when asked, the
     * typechecking) imports removed, the rules of the layers are searched;
     * an item outside the arenas in some rule is an error, otherwise the
     * contract is kept exactly when no rule is broken, and each violation
     * reported is a rule with a shortest chain breaking it.
     */
    method Verify(ii: ImportsInfo) returns (r: Result<ContractVerificationResult, Error>)
      requires ii.Valid() && LayersExpandable(ii.packageInfo, layers)
      ensures r.Err? <==> exists f :: IsForbidden(layers, allowDeepImports, f) && !Checkable(ii.packageInfo, f)
      ensures r.Ok? ==> (r.value.Kept? <==> forall f :: !Broken(ii.packageInfo, Pruned(ii, ignoredImports, ignoreTypecheckingImports),
                                                                layers, allowDeepImports, f))
      ensures r.Ok? && r.value.Violated? ==> forall v :: v in r.value.violations ==>
        && v.InternalViolation? && IsForbidden(layers, allowDeepImports, v.forbiddenImport)
        && Broken(ii.packageInfo, Pruned(ii, ignoredImports, ignoreTypecheckingImports), layers, allowDeepImports, v.forbiddenImport)
        && ShortestInternalPath(Pruned(ii, ignoredImports, ignoreTypecheckingImports),
                                InternalQueryOf(ii.packageInfo, v.forbiddenImport), v.path)
    {
      var pruned := IgnoreImports(ii, ignoredImports, [], ignoreTypecheckingImports);
      var forbidden := GetForbiddenImports(layers, allowDeepImports);
      forall f | f in forbidden
        ensures Expandable(ii.packageInfo, RuleItems(f))
      {
        RulesExpandable(ii.packageInfo, layers, allowDeepImports, f);
      }
      var violations := FindInternalViolations(pruned, forbidden);
      if violations.Err? {
        return Err(violations.error);
      }
      var info, fwd := ii.packageInfo, pruned.internalImports;
      forall f | Broken(info, fwd, layers, allowDeepImports, f)
        ensures |violations.value| > 0
      {
        assert f in forbidden;
        var v :| v in violations.value && v.InternalViolation? && v.forbiddenImport == f;
      }
      forall v | v in violations.value
        ensures Broken(info, fwd, layers, allowDeepImports, v.forbiddenImport)
      {
        assert v.forbiddenImport in forbidden;
      }
      assert fwd == Pruned(ii, ignoredImports, ignoreTypecheckingImports);
      if |violations.value| > 0 {
        assert violations.value[0] in violations.value;
        assert Broken(info, fwd, layers, allowDeepImports, violations.value[0].forbiddenImport);
      }
      r := Ok(Outcome(violations.value));
    }
  }
}
