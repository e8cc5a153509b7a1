/**
 * Relative-import resolution of src/imports_info/parse/mod.rs: an
 * absolute-or-relative path is resolved against the importing module's file
 * without validating the result. The file's statements are walked by the
 * visitor of module RawImportVisitor, whose text this file repeats.
 */
module ImportsInfoParse {
  import opened Strings
  import opened FsPaths
  import opened Pypaths
  import Parse
  import RawImportVisitor

  /** A pypath as it appears in an import statement: may start with dots. */
  datatype AbsoluteOrRelativePypath = AbsoluteOrRelativePypath(s: string)

  /** The import record of this generation: the same fields, the path kept unresolved. */
  datatype RawImport = RawImport(pypath: AbsoluteOrRelativePypath, lineNumber: nat, isTypechecking: bool)

  function FromVisited(r: RawImportVisitor.RawImport): (out: RawImport)
    ensures out.pypath.s == r.pypath && out.lineNumber == r.lineNumber && out.isTypechecking == r.isTypechecking
  {
    RawImport(AbsoluteOrRelativePypath(r.pypath), r.lineNumber, r.isTypechecking)
  }

  predicate IsRelative(p: AbsoluteOrRelativePypath)
  {
    Parse.IsRelative(p.s)
  }

  /** The value `resolve_relative` returns. */
  function ResolvedRelative(p: AbsoluteOrRelativePypath, path: FsPath, rootPath: FsPath): Pypath
    requires |rootPath| >= 1 && (IsRelative(p) ==> Parse.Climbable(p.s, path, rootPath))
  {
    if IsRelative(p) then New(Parse.RelativeTarget(p.s, path, rootPath)) else New(p.s)
  }

  /** `AbsoluteOrRelativePypath::resolve_relative`. */
  method ResolveRelative(p: AbsoluteOrRelativePypath, path: FsPath, rootPath: FsPath) returns (r: Pypath)
    requires |rootPath| >= 1 && (IsRelative(p) ==> Parse.Climbable(p.s, path, rootPath))
    ensures r == ResolvedRelative(p, path, rootPath)
  {
    if !IsRelative(p) {
      return New(p.s);
    }
    var trimmed := TrimStart(p.s, '.');
    Parse.DotCount(p.s);
    var basePath := Parse.ClimbParents(path, |p.s| - |trimmed|);
    var basePypath := FromPath(basePath, rootPath).value;
    r := New(basePypath.s + "." + trimmed);
  }

  /**
   * Unlike `resolve_import`, nothing is validated: a resolution that
   * `resolve_import` accepts gives the same pypath here, and this one never fails.
   */
  lemma AgreesWithResolveImport(p: AbsoluteOrRelativePypath, path: FsPath, rootPath: FsPath)
    requires |rootPath| >= 1 && !EndsWith(p.s, ".*")
    requires IsRelative(p) ==> Parse.Climbable(p.s, path, rootPath)
    ensures Parse.Resolvable(p.s, path, rootPath)
    ensures Parse.ResolvedImport(p.s, path, rootPath).Ok?
      ==> Parse.ResolvedImport(p.s, path, rootPath).value == ResolvedRelative(p, path, rootPath)
  {
  }
}
