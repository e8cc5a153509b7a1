/**
 * The two single-rule contracts: src/contracts/forbidden_internal.rs
 * forbids one item from importing another, and
 * src/contracts/forbidden_external.rs forbids one item from importing an
 * external pypath (or anything below it); each may allow chains through
 * some items.
 */
module ForbiddenContracts {
  import opened Wrappers
  import opened Errors
  import opened Pypaths
  import opened PackageInfos
  import opened ImportsInfos
  import opened ExternalImportsQueries
  import opened Contracts

  /** `ForbiddenInternalImportContract`. */
  class ForbiddenInternalImportContract {
    var from: PackageItemToken
    var to: PackageItemToken
    var exceptVia: set<PackageItemToken>
    var ignoredImports: seq<(PackageItemToken, PackageItemToken)>
    var ignoreTypecheckingImports: bool

    /** The one rule the contract checks. */
    function Rule(): ForbiddenImport
      reads this
    {
      ForbiddenImport(from, to, exceptVia)
    }

    /** `new`: no exceptions, nothing ignored. */
    constructor (from: PackageItemToken, to: PackageItemToken)
      ensures this.from == from && this.to == to && exceptVia == {}
      ensures ignoredImports == [] && !ignoreTypecheckingImports
    {
      this.from := from;
      this.to := to;
      exceptVia := {};
      ignoredImports := [];
      ignoreTypecheckingImports := false;
    }

    /** `with_except_via`: the items given replace those allowed before. */
    method WithExceptVia(exceptVia: set<PackageItemToken>)
      modifies this
      ensures this.exceptVia == exceptVia
      ensures from == old(from) && to == old(to)
      ensures ignoredImports == old(ignoredImports) && ignoreTypecheckingImports == old(ignoreTypecheckingImports)
    {
      this.exceptVia := exceptVia;
    }

    /** `with_ignored_imports`: the imports are appended to those already ignored. */
    method WithIgnoredImports(imports: seq<(PackageItemToken, PackageItemToken)>)
      modifies this
      ensures ignoredImports == old(ignoredImports) + imports
      ensures Rule() == old(Rule()) && ignoreTypecheckingImports == old(ignoreTypecheckingImports)
    {
      ignoredImports := ignoredImports + imports;
    }

    /** `with_typechecking_imports_ignored`. */
    method WithTypecheckingImportsIgnored()
      modifies this
      ensures ignoreTypecheckingImports
      ensures Rule() == old(Rule()) && ignoredImports == old(ignoredImports)
    {
      ignoreTypecheckingImports := true;
    }

    /**
     * `verify`: an item of the rule outside the arenas is an error naming
     * it; otherwise the contract is kept exactly when no chain of the
     * pruned imports breaks the rule, and else the one violation carries a
     * shortest such chain.
     */
    method Verify(ii: ImportsInfo) returns (r: Result<ContractVerificationResult, Error>)
      requires ii.Valid() && Expandable(ii.packageInfo, RuleItems(Rule()))
      ensures r.Err? <==> !Checkable(ii.packageInfo, Rule())
      ensures r.Err? ==> ReportsUnknown(ii.packageInfo, RuleItems(Rule()), r.error)
      ensures r.Ok? ==> (r.value.Kept? <==> !InternallyViolated(ii.packageInfo, Pruned(ii, ignoredImports, ignoreTypecheckingImports), Rule()))
      ensures r.Ok? && r.value.Violated? ==>
        && |r.value.violations| == 1 && r.value.violations[0].InternalViolation?
        && r.value.violations[0].forbiddenImport == Rule()
        && ShortestInternalPath(Pruned(ii, ignoredImports, ignoreTypecheckingImports),
                                InternalQueryOf(ii.packageInfo, Rule()), r.value.violations[0].path)
    {
      var pruned := IgnoreImports(ii, ignoredImports, [], ignoreTypecheckingImports);
      var rule := Rule();
      var violations := FindInternalViolations(pruned, [rule]);
      if violations.Err? {
        return Err(violations.error);
      }
      assert pruned.internalImports == Pruned(ii, ignoredImports, ignoreTypecheckingImports);
      if |violations.value| > 0 {
        assert violations.value[0] in violations.value;
      }
      r := Ok(Outcome(violations.value));
    }
  }

  /** `ForbiddenExternalImportContract`. */
  class ForbiddenExternalImportContract {
    var from: PackageItemToken
    var to: Pypath
    var exceptVia: set<PackageItemToken>
    var ignoredInternalImports: seq<(PackageItemToken, PackageItemToken)>
    var ignoredExternalImports: seq<(PackageItemToken, Pypath)>
    var ignoreTypecheckingImports: bool

    /** The one rule the contract checks. */
    function Rule(): ForbiddenExternalImport
      reads this
    {
      ForbiddenExternalImport(from, to, exceptVia)
    }

    /** `new`: no exceptions, nothing ignored. */
    constructor (from: PackageItemToken, to: Pypath)
      ensures this.from == from && this.to == to && exceptVia == {}
      ensures ignoredInternalImports == [] && ignoredExternalImports == [] && !ignoreTypecheckingImports
    {
      this.from := from;
      this.to := to;
      exceptVia := {};
      ignoredInternalImports := [];
      ignoredExternalImports := [];
      ignoreTypecheckingImports := false;
    }

    /** `with_except_via`: the items given replace those allowed before. */
    method WithExceptVia(exceptVia: set<PackageItemToken>)
      modifies this
      ensures this.exceptVia == exceptVia
      ensures from == old(from) && to == old(to)
      ensures ignoredInternalImports == old(ignoredInternalImports) && ignoredExternalImports == old(ignoredExternalImports)
      ensures ignoreTypecheckingImports == old(ignoreTypecheckingImports)
    {
      this.exceptVia := exceptVia;
    }

    /** `with_ignored_internal_imports`: appended to those already ignored. */
    method WithIgnoredInternalImports(imports: seq<(PackageItemToken, PackageItemToken)>)
      modifies this
      ensures ignoredInternalImports == old(ignoredInternalImports) + imports
      ensures Rule() == old(Rule()) && ignoredExternalImports == old(ignoredExternalImports)
      ensures ignoreTypecheckingImports == old(ignoreTypecheckingImports)
    {
      ignoredInternalImports := ignoredInternalImports + imports;
    }

    /** `with_ignored_external_imports`: appended to those already ignored. */
    method WithIgnoredExternalImports(imports: seq<(PackageItemToken, Pypath)>)
      modifies this
      ensures ignoredExternalImports == old(ignoredExternalImports) + imports
      ensures Rule() == old(Rule()) && ignoredInternalImports == old(ignoredInternalImports)
      ensures ignoreTypecheckingImports == old(ignoreTypecheckingImports)
    {
      ignoredExternalImports := ignoredExternalImports + imports;
    }

    /** `with_typechecking_imports_ignored`. */
    method WithTypecheckingImportsIgnored()
      modifies this
      ensures ignoreTypecheckingImports
      ensures Rule() == old(Rule()) && ignoredInternalImports == old(ignoredInternalImports)
      ensures ignoredExternalImports == old(ignoredExternalImports)
    {
      ignoreTypecheckingImports := true;
    }

    /**
     * `verify`: an item of the rule outside the arenas is an error naming
     * it; otherwise the contract is kept exactly when no chain of the
     * pruned internal imports leads from the rule's source, around the
     * items it allows, to an item importing the target or below it, and
     * else the one violation carries such a chain and the pypath imported.
     */
    method Verify(ii: ImportsInfo) returns (r: Result<ContractVerificationResult, Error>)
      requires ii.Valid() && ii.Initialised() && Expandable(ii.packageInfo, ExternalRuleItems(Rule()))
      ensures r.Err? <==> !AllKnown(ii.packageInfo, ExternalRuleItems(Rule()))
      ensures r.Err? ==> ReportsUnknown(ii.packageInfo, ExternalRuleItems(Rule()), r.error)
      ensures r.Ok? ==> (r.value.Kept? <==>
        !ExternallyViolated(ii.packageInfo, Pruned(ii, ignoredInternalImports, ignoreTypecheckingImports),
                            ExternalPruned(ii, ignoredExternalImports, ignoreTypecheckingImports), Rule()))
      ensures r.Ok? && r.value.Violated? ==>
        && |r.value.violations| == 1 && r.value.violations[0].ExternalViolation?
        && r.value.violations[0].forbiddenExternalImport == Rule()
        && IsEqualToOrDescendantOf(r.value.violations[0].imported, to)
        && ExternalPath(Pruned(ii, ignoredInternalImports, ignoreTypecheckingImports),
                        ExternalPruned(ii, ignoredExternalImports, ignoreTypecheckingImports),
                        ExternalQueryOf(ii.packageInfo, ExternalPruned(ii, ignoredExternalImports, ignoreTypecheckingImports), Rule()),
                        r.value.violations[0].path, r.value.violations[0].imported)
    {
      var pruned := IgnoreImports(ii, ignoredInternalImports, ignoredExternalImports, ignoreTypecheckingImports);
      var rule := Rule();
      var violations := FindExternalViolations(pruned, [rule]);
      if violations.Err? {
        return Err(violations.error);
      }
      assert pruned.internalImports == Pruned(ii, ignoredInternalImports, ignoreTypecheckingImports);
      assert pruned.externalImports == ExternalPruned(ii, ignoredExternalImports, ignoreTypecheckingImports);
      if |violations.value| > 0 {
        var v := violations.value[0];
        assert v in violations.value;
        ExternalViolationHitsTarget(ii.packageInfo, pruned.internalImports, pruned.externalImports, rule, v.path, v.imported);
      }
      r := Ok(Outcome(violations.value));
    }
  }
}
