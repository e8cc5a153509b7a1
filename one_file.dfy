/**
 * `resolve_relative_imports` of src/import_discovery/one_file.rs: every
 * relative import of one file has its path rewritten to the absolute dotted
 * text it stands for; the file's statements are walked by the visitor of
 * module RawImportVisitor, whose text this file repeats.
 */
module OneFile {
  import opened Strings
  import opened FsPaths
  import Parse
  import opened RawImportVisitor

  /** What the `unwrap`s demand: every relative import climbs within the filesystem path. */
  predicate AllClimbable(path: FsPath, imports: seq<RawImport>, rootPath: FsPath)
    requires |rootPath| >= 1
  {
    forall i :: 0 <= i < |imports| && Parse.IsRelative(imports[i].pypath) ==>
      Parse.Climbable(imports[i].pypath, path, rootPath)
  }

  /** One import after resolution. */
  function Resolved(imp: RawImport, path: FsPath, rootPath: FsPath): RawImport
    requires |rootPath| >= 1 && (Parse.IsRelative(imp.pypath) ==> Parse.Climbable(imp.pypath, path, rootPath))
  {
    if Parse.IsRelative(imp.pypath) then imp.(pypath := Parse.RelativeTarget(imp.pypath, path, rootPath)) else imp
  }

  /**
   * `resolve_relative_imports`: the same imports in the same order; a relative
   * one gets its resolved path, keeping its line and context, an absolute one
   * is untouched.
   */
  method ResolveRelativeImports(path: FsPath, imports: seq<RawImport>, rootPath: FsPath) returns (r: seq<RawImport>)
    requires |rootPath| >= 1 && AllClimbable(path, imports, rootPath)
    ensures |r| == |imports|
    ensures forall i :: 0 <= i < |imports| ==> r[i] == Resolved(imports[i], path, rootPath)
  {
    r := imports;
    var i := 0;
    while i < |r|
      invariant 0 <= i <= |r| == |imports|
      invariant forall k :: 0 <= k < i ==> r[k] == Resolved(imports[k], path, rootPath)
      invariant forall k :: i <= k < |r| ==> r[k] == imports[k]
    {
      var imp := r[i];
      if Parse.IsRelative(imp.pypath) {
        var trimmed := TrimStart(imp.pypath, '.');
        Parse.DotCount(imp.pypath);
        var basePath := Parse.ClimbParents(path, |imp.pypath| - |trimmed|);
        var basePypath := PathToPypath(basePath, rootPath).value;
        r := r[i := imp.(pypath := basePypath + "." + trimmed)];
      }
      i := i + 1;
    }
  }

  /**
   * For a module file inside the package tree whose relative imports climb no
   * higher than the root package, no import is left relative, and only the
   * paths changed.
   */
  lemma ResolvedAreAbsolute(path: FsPath, imports: seq<RawImport>, rootPath: FsPath)
    requires |rootPath| >= 1 && rootPath <= path && |FileName(rootPath)| > 0
    requires forall i :: |ParentDir(rootPath)| <= i < |path| - 1 ==> PlainName(path[i])
    requires forall i :: 0 <= i < |imports| && Parse.IsRelative(imports[i].pypath) ==>
      LeadingCount(imports[i].pypath, '.') < |path| - |ParentDir(rootPath)|
    ensures AllClimbable(path, imports, rootPath)
    ensures forall i :: 0 <= i < |imports| ==>
      var res := Resolved(imports[i], path, rootPath);
      !Parse.IsRelative(res.pypath)
      && res.lineNumber == imports[i].lineNumber && res.isTypechecking == imports[i].isTypechecking
  {
    forall i | 0 <= i < |imports| && Parse.IsRelative(imports[i].pypath)
      ensures Parse.Climbable(imports[i].pypath, path, rootPath)
      ensures !Parse.IsRelative(Parse.RelativeTarget(imports[i].pypath, path, rootPath))
    {
      assert LeadingCount(imports[i].pypath, '.') >= 1;
      Parse.RelativeTargetIsAbsolute(imports[i].pypath, path, rootPath);
    }
  }
}
