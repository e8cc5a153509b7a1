/**
 * Resolution of a raw import of one file to an absolute pypath
 * (`resolve_import` of src/parse/mod.rs): a trailing wildcard is dropped, an
 * absolute path is parsed as it is, and a relative path climbs one directory
 * per leading dot from the importing module's file before being appended to
 * that directory's pypath.
 */
module Parse {
  import opened Wrappers
  import opened Strings
  import opened Errors
  import opened FsPaths
  import opened Pypaths

  /** `.*` dropped once from the end, if present. */
  function StripWildcard(s: string): (r: string)
    ensures EndsWith(s, ".*") ==> r + ".*" == s
    ensures !EndsWith(s, ".*") ==> r == s
  {
    StripSuffixIfPresent(s, ".*")
  }

  predicate IsRelative(s: string)
  {
    |s| > 0 && s[0] == '.'
  }

  /**
   * What the two `unwrap`s of the parent climb demand of a relative path: it
   * climbs no higher than the module path has components, and lands at or
   * below the directory that holds the root package.
   */
  predicate Climbable(relative: string, modulePath: FsPath, rootPath: FsPath)
    requires |rootPath| >= 1
  {
    var n := LeadingCount(relative, '.');
    n <= |modulePath| && ParentDir(rootPath) <= NthParent(modulePath, n)
  }

  /**
   * The dotted text a relative path stands for: the pypath of the directory
   * reached by climbing one parent per leading dot, a dot, and the rest.
   */
  function RelativeTarget(relative: string, modulePath: FsPath, rootPath: FsPath): string
    requires |rootPath| >= 1 && Climbable(relative, modulePath, rootPath)
  {
    var basePath := NthParent(modulePath, LeadingCount(relative, '.'));
    PathToPypath(basePath, rootPath).value + "." + TrimStart(relative, '.')
  }

  /** The climb itself: `base_path = base_path.parent().unwrap()`, `n` times. */
  method ClimbParents(modulePath: FsPath, n: nat) returns (basePath: FsPath)
    requires n <= |modulePath|
    ensures basePath == NthParent(modulePath, n)
  {
    basePath := modulePath;
    var i := 0;
    while i < n
      invariant 0 <= i <= n
      invariant basePath == NthParent(modulePath, i)
    {
      NthParentStep(modulePath, i);
      basePath := ParentDir(basePath);
      i := i + 1;
    }
  }

  /** The number of leading dots, as `len() - trim_start_matches(".").len()`. */
  lemma DotCount(s: string)
    ensures |s| - |TrimStart(s, '.')| == LeadingCount(s, '.')
  {
    assert |Repeat('.', LeadingCount(s, '.'))| + |TrimStart(s, '.')| == |s|;
  }

  /** What `resolve_import` demands of its caller. */
  predicate Resolvable(importedPypath: string, modulePath: FsPath, rootPath: FsPath)
    requires |rootPath| >= 1
  {
    var s := StripWildcard(importedPypath);
    IsRelative(s) ==> Climbable(s, modulePath, rootPath)
  }

  /** The value `resolve_import` returns. */
  function ResolvedImport(importedPypath: string, modulePath: FsPath, rootPath: FsPath): Result<Pypath, Error>
    requires |rootPath| >= 1 && Resolvable(importedPypath, modulePath, rootPath)
  {
    var s := StripWildcard(importedPypath);
    if !IsRelative(s) then FromStr(s) else FromStr(RelativeTarget(s, modulePath, rootPath))
  }

  /** `resolve_import`. */
  method ResolveImport(importedPypath: string, modulePath: FsPath, rootPath: FsPath) returns (r: Result<Pypath, Error>)
    requires |rootPath| >= 1 && Resolvable(importedPypath, modulePath, rootPath)
    ensures r == ResolvedImport(importedPypath, modulePath, rootPath)
  {
    var pypath := StripWildcard(importedPypath);
    if !IsRelative(pypath) {
      return FromStr(pypath);
    }
    r := ResolveRelative(pypath, modulePath, rootPath);
  }

  /** The relative branch of `resolve_import`: climb, take the directory's pypath, append the rest. */
  method ResolveRelative(pypath: string, modulePath: FsPath, rootPath: FsPath) returns (r: Result<Pypath, Error>)
    requires |rootPath| >= 1 && Climbable(pypath, modulePath, rootPath)
    ensures r == FromStr(RelativeTarget(pypath, modulePath, rootPath))
  {
    var trimmed := TrimStart(pypath, '.');
    DotCount(pypath);
    var basePath := ClimbParents(modulePath, |pypath| - |trimmed|);
    var basePypath := FromPath(basePath, rootPath).value;
    r := FromStr(basePypath.s + "." + trimmed);
  }

  lemma {:induction false} NthParentStep(p: FsPath, i: nat)
    requires i < |p|
    ensures NthParent(p, i + 1) == ParentDir(NthParent(p, i))
    decreases i
  {
    if i > 0 {
      NthParentStep(ParentDir(p), i - 1);
    }
  }

  /** The n-th parent is the path with its last n components removed. */
  lemma {:induction false} NthParentIsPrefix(p: FsPath, n: nat)
    requires n <= |p|
    ensures NthParent(p, n) == p[..|p| - n]
    decreases n
  {
    if n > 0 {
      NthParentIsPrefix(ParentDir(p), n - 1);
    }
  }

  /** A wildcard import resolves to the module it names. */
  lemma WildcardResolvesToModule(s: string, modulePath: FsPath, rootPath: FsPath)
    requires |rootPath| >= 1 && !EndsWith(s, ".*")
    requires Resolvable(s + ".*", modulePath, rootPath)
    ensures Resolvable(s, modulePath, rootPath)
    ensures ResolvedImport(s + ".*", modulePath, rootPath) == ResolvedImport(s, modulePath, rootPath)
  {
    assert (s + ".*")[|s + ".*"| - 2..] == ".*";
    assert (s + ".*")[..|s + ".*"| - 2] == s;
  }

  /** An absolute import is parsed as written: it resolves exactly when it is a valid pypath. */
  lemma AbsoluteImportAsWritten(s: string, modulePath: FsPath, rootPath: FsPath)
    requires |rootPath| >= 1 && !EndsWith(s, ".*") && !IsRelative(s)
    ensures Resolvable(s, modulePath, rootPath)
    ensures ResolvedImport(s, modulePath, rootPath).Ok? <==> MatchesPattern(s)
    ensures ResolvedImport(s, modulePath, rootPath).Ok? ==> ResolvedImport(s, modulePath, rootPath).value == Pypath(s)
  {
  }

  /**
   * A relative path with n leading dots, seen from a module file inside the
   * package tree, names the rest below the package n - 1 levels above the
   * module's own package: the module's directory components up to the n-th
   * parent, joined by dots, then the rest.
   */
  lemma RelativeTargetClimbs(relative: string, modulePath: FsPath, rootPath: FsPath)
    requires |rootPath| >= 1 && ParentDir(rootPath) <= modulePath
    requires 1 <= LeadingCount(relative, '.') < |modulePath| - |ParentDir(rootPath)|
    requires forall i :: |ParentDir(rootPath)| <= i < |modulePath| - 1 ==> PlainName(modulePath[i])
    ensures Climbable(relative, modulePath, rootPath)
    ensures RelativeTarget(relative, modulePath, rootPath)
      == Join(modulePath[|ParentDir(rootPath)|..|modulePath| - LeadingCount(relative, '.')], '.') + "." + TrimStart(relative, '.')
  {
    var n := LeadingCount(relative, '.');
    var base := NthParent(modulePath, n);
    NthParentIsPrefix(modulePath, n);
    var lo := |ParentDir(rootPath)|;
    PrefixSlice(modulePath, lo, |modulePath| - n);
    DirectoryPypath(base, rootPath);
    TargetFromBase(relative, modulePath, rootPath, Join(modulePath[lo..|modulePath| - n], '.'));
  }

  /** The target is the climbed directory's dotted name, a dot and the rest of the text. */
  lemma TargetFromBase(relative: string, modulePath: FsPath, rootPath: FsPath, dotted: string)
    requires |rootPath| >= 1 && Climbable(relative, modulePath, rootPath)
    requires PathToPypath(NthParent(modulePath, LeadingCount(relative, '.')), rootPath).value == dotted
    ensures RelativeTarget(relative, modulePath, rootPath) == dotted + "." + TrimStart(relative, '.')
  {
  }

  lemma PrefixSlice(p: FsPath, lo: nat, hi: nat)
    requires lo <= hi <= |p|
    ensures p[..hi][lo..] == p[lo..hi]
    ensures p[..hi][..lo] == p[..lo]
  {
  }

  /**
   * Such a target is absolute again: it starts with the root package's name,
   * so it no longer starts with a dot.
   */
  lemma RelativeTargetIsAbsolute(relative: string, modulePath: FsPath, rootPath: FsPath)
    requires |rootPath| >= 1 && rootPath <= modulePath && |FileName(rootPath)| > 0
    requires 1 <= LeadingCount(relative, '.') < |modulePath| - |ParentDir(rootPath)|
    requires forall i :: |ParentDir(rootPath)| <= i < |modulePath| - 1 ==> PlainName(modulePath[i])
    ensures Climbable(relative, modulePath, rootPath)
    ensures !IsRelative(RelativeTarget(relative, modulePath, rootPath))
  {
    RelativeTargetClimbs(relative, modulePath, rootPath);
    var pieces := modulePath[|ParentDir(rootPath)|..|modulePath| - LeadingCount(relative, '.')];
    assert pieces[0] == FileName(rootPath);
    assert pieces[0][0] != '.' by {
      assert PlainName(pieces[0]);
      assert pieces[0][0] in pieces[0];
    }
    JoinStartsWithFirst(pieces, '.');
  }

  /** A directory inside the package tree maps to its components joined by dots. */
  lemma DirectoryPypath(dir: FsPath, rootPath: FsPath)
    requires |rootPath| >= 1 && ParentDir(rootPath) <= dir && |dir| > |ParentDir(rootPath)|
    requires forall i :: |ParentDir(rootPath)| <= i < |dir| ==> PlainName(dir[i])
    ensures FromPath(dir, rootPath).Ok?
    ensures FromPath(dir, rootPath).value.s == Join(dir[|ParentDir(rootPath)|..], '.')
  {
    var rel := dir[|ParentDir(rootPath)|..];
    var last := FileName(dir);
    assert PlainName(last);
    assert |last| >= 3 ==> last[|last| - 3] in last;
    PathToPypathPieces(dir, rootPath);
    assert rel[|rel| - 1] == last;
    NoPyPieces(rel);
  }

  /** A last component without ".py" is kept as it is. */
  lemma NoPyPieces(rel: FsPath)
    requires |rel| >= 1 && !EndsWith(rel[|rel| - 1], ".py")
    ensures ExpectedPieces(rel) == rel
  {
    assert rel == rel[..|rel| - 1] + [rel[|rel| - 1]];
  }
}
