/**
 * The independent items contract of src/contracts/independent.rs: none of
 * the items may import another, directly or through other items.
 */
module Independent {
  import opened Wrappers
  import opened Errors
  import opened PackageInfos
  import opened ImportsInfos
  import opened SetOrder
  import opened Contracts
  import Layers

  /** A rule of the contract: one item may not import another. */
  ghost predicate Independence(items: set<PackageItemToken>, f: ForbiddenImport)
  {
    f.from in items && f.to in items && f.from != f.to && f.exceptVia == {}
  }

  /**
   * The `permutations(2)` of the items: a rule for every ordered pair of
   * distinct items, so every pair is forbidden in both directions.
   */
  method ForbiddenPairs(items: set<PackageItemToken>) returns (r: seq<ForbiddenImport>)
    ensures |r| == Layers.Permutations2(|items|)
    ensures forall f :: f in r <==> Independence(items, f)
    ensures forall f :: f in r ==> ForbiddenImport(f.to, f.from, {}) in r
  {
    var listed := Enumerate(items);
    r := Layers.PushDistinctPairs([], listed);
  }

  /** The rules the pruned imports break. */
  ghost predicate Broken(info: PackageInfo, fwd: map<PackageItemToken, set<PackageItemToken>>,
                         items: set<PackageItemToken>, f: ForbiddenImport)
    requires WellFormed(info)
  {
    Independence(items, f) && Expandable(info, RuleItems(f)) && InternallyViolated(info, fwd, f)
  }

  /** `IndependentItemsContract`. */
  class IndependentItemsContract {
    var items: set<PackageItemToken>
    var ignoredImports: seq<(PackageItemToken, PackageItemToken)>
    var ignoreTypecheckingImports: bool

    /** `new`: the items collected into a set, nothing ignored. */
    constructor (items: seq<PackageItemToken>)
      ensures forall t :: t in this.items <==> t in items
      ensures ignoredImports == [] && !ignoreTypecheckingImports
    {
      this.items := Elements(items);
      ignoredImports := [];
      ignoreTypecheckingImports := false;
    }

    /** `with_ignored_imports`: the imports are appended to those already ignored. */
    method WithIgnoredImports(imports: seq<(PackageItemToken, PackageItemToken)>)
      modifies this
      ensures ignoredImports == old(ignoredImports) + imports
      ensures items == old(items) && ignoreTypecheckingImports == old(ignoreTypecheckingImports)
    {
      ignoredImports := ignoredImports + imports;
    }

    /** `with_typechecking_imports_ignored`. */
    method WithTypecheckingImportsIgnored()
      modifies this
      ensures ignoreTypecheckingImports
      ensures items == old(items) && ignoredImports == old(ignoredImports)
    {
      ignoreTypecheckingImports := true;
    }

    /**
     * `verify`: an item outside the arenas is an error when there are two
     * items or more; otherwise the contract is kept exactly when no item
     * reaches another through the pruned imports, and each violation
     * reported is such a pair with a shortest chain between them.
     */
    method Verify(ii: ImportsInfo) returns (r: Result<ContractVerificationResult, Error>)
      requires ii.Valid() && Expandable(ii.packageInfo, items)
      ensures r.Err? <==> exists f :: Independence(items, f) && !Checkable(ii.packageInfo, f)
      ensures r.Ok? ==> (r.value.Kept? <==> forall f :: !Broken(ii.packageInfo, Pruned(ii, ignoredImports, ignoreTypecheckingImports), items, f))
      ensures r.Ok? && r.value.Violated? ==> forall v :: v in r.value.violations ==>
        && v.InternalViolation?
        && Broken(ii.packageInfo, Pruned(ii, ignoredImports, ignoreTypecheckingImports), items, v.forbiddenImport)
        && ShortestInternalPath(Pruned(ii, ignoredImports, ignoreTypecheckingImports),
                                InternalQueryOf(ii.packageInfo, v.forbiddenImport), v.path)
    {
      var pruned := IgnoreImports(ii, ignoredImports, [], ignoreTypecheckingImports);
      var forbidden := ForbiddenPairs(items);
      var violations := FindInternalViolations(pruned, forbidden);
      if violations.Err? {
        return Err(violations.error);
      }
      var info, fwd := ii.packageInfo, pruned.internalImports;
      forall f | Broken(info, fwd, items, f)
        ensures |violations.value| > 0
      {
        assert f in forbidden;
        var v :| v in violations.value && v.InternalViolation? && v.forbiddenImport == f;
      }
      forall v | v in violations.value
        ensures Broken(info, fwd, items, v.forbiddenImport)
      {
        assert v.forbiddenImport in forbidden;
      }
      assert fwd == Pruned(ii, ignoredImports, ignoreTypecheckingImports);
      if |violations.value| > 0 {
        assert violations.value[0] in violations.value;
        assert Broken(info, fwd, items, violations.value[0].forbiddenImport);
      }
      r := Ok(Outcome(violations.value));
    }
  }

  /** With fewer than two items there is no rule, so the contract is kept whatever the imports. */
  lemma FewItemsNoRules(items: set<PackageItemToken>, f: ForbiddenImport)
    requires |items| < 2
    ensures !Independence(items, f)
  {
    if Independence(items, f) {
      assert {f.from, f.to} <= items;
      assert |{f.from, f.to}| == 2;
      SubsetCard({f.from, f.to}, items);
    }
  }

  /** A subset is no larger than its superset. */
  lemma {:induction false} SubsetCard<T>(a: set<T>, b: set<T>)
    requires a <= b
    ensures |a| <= |b|
  {
    if a != {} {
      var x :| x in a;
      SubsetCard(a - {x}, b - {x});
    }
  }
}
