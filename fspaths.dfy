/**
 * Filesystem paths as sequences of components, and the path-to-dotted-path
 * conversion `path_to_pypath` of src/utils.rs (the same text also appears as
 * the private `path_to_pypath` of src/package_discovery/mod.rs and inside
 * `Pypath::from_path`).
 *
 * `Path::strip_prefix`, `Path::parent` and `Path::file_name` work on whole
 * components, so a path is modelled by its components; `to_str` joins them
 * with '/'.
 */
module FsPaths {
  import opened Wrappers
  import opened Strings

  type FsPath = seq<string>

  /** The error `Path::strip_prefix` returns when the prefix does not match. */
  datatype StripPrefixError = StripPrefixError

  function ParentDir(p: FsPath): FsPath
    requires |p| >= 1
  {
    p[..|p| - 1]
  }

  /** `parent()` applied `n` times, each application dropping one component. */
  function NthParent(p: FsPath, n: nat): (r: FsPath)
    requires n <= |p|
    ensures |r| == |p| - n && r <= p
  {
    if n == 0 then p else NthParent(ParentDir(p), n - 1)
  }

  function FileName(p: FsPath): string
    requires |p| >= 1
  {
    p[|p| - 1]
  }

  function ToStr(p: FsPath): string
  {
    Join(p, '/')
  }

  /**
   * `path_to_pypath(path, root_path)`: strip the directory that holds the
   * root package, drop a trailing ".py", and turn every '/' into '.'.
   * `root_path.parent().unwrap()` is the precondition.
   */
  function PathToPypath(path: FsPath, rootPath: FsPath): (r: Result<string, StripPrefixError>)
    requires |rootPath| >= 1
    ensures r.Ok? <==> ParentDir(rootPath) <= path
    ensures r.Ok? ==> '/' !in r.value
  {
    var base := ParentDir(rootPath);
    if base <= path then
      var s := StripSuffixIfPresent(ToStr(path[|base|..]), ".py");
      Ok(ReplaceChar(s, '/', '.'))
    else
      Err(StripPrefixError)
  }

  /** A directory or file name of a Python package tree: not empty, no separators inside. */
  predicate PlainName(c: string)
  {
    |c| > 0 && '/' !in c && '.' !in c
  }

  /** The dotted pieces a path inside the tree should become. */
  function ExpectedPieces(rel: FsPath): seq<string>
    requires |rel| >= 1
  {
    rel[..|rel| - 1] + [StripSuffixIfPresent(rel[|rel| - 1], ".py")]
  }

  /**
   * For a path below the root's parent whose names are plain (the last one
   * possibly with a ".py" extension), the result is exactly the components
   * relative to the root's parent, joined by dots, with ".py" dropped from the
   * last one.
   */
  lemma {:induction false} PathToPypathPieces(path: FsPath, rootPath: FsPath)
    requires |rootPath| >= 1 && ParentDir(rootPath) <= path
    requires |path| > |ParentDir(rootPath)|
    requires forall i :: |ParentDir(rootPath)| <= i < |path| - 1 ==> PlainName(path[i])
    requires '/' !in FileName(path) && PlainName(StripSuffixIfPresent(FileName(path), ".py"))
    ensures PathToPypath(path, rootPath).Ok?
    ensures PathToPypath(path, rootPath).value == Join(ExpectedPieces(path[|ParentDir(rootPath)|..]), '.')
    ensures Split(PathToPypath(path, rootPath).value, '.') == ExpectedPieces(path[|ParentDir(rootPath)|..])
  {
    var rel := path[|ParentDir(rootPath)|..];
    var stems := ExpectedPieces(rel);
    StripPyOfLast(rel);
    assert forall i :: 0 <= i < |stems| ==> PlainName(stems[i]);
    ReplaceJoin(stems, '/', '.');
    SplitJoin(stems, '.');
  }

  /** `strip_suffix(".py")` on a joined path only ever touches the last component. */
  lemma StripPyOfLast(rel: FsPath)
    requires |rel| >= 1 && '/' !in rel[|rel| - 1]
    ensures StripSuffixIfPresent(ToStr(rel), ".py") == Join(ExpectedPieces(rel), '/')
  {
    var n := |rel|;
    var last := rel[n - 1];
    if n == 1 {
      assert rel == [last];
    } else {
      var front := rel[..n - 1];
      assert rel == front + [last];
      JoinAppend(front, [last], '/');
      var whole := Join(front, '/') + ['/'] + last;
      assert ToStr(rel) == whole;
      if |last| >= 3 {
        assert whole[|whole| - 3..] == last[|last| - 3..];
        if EndsWith(last, ".py") {
          assert whole[..|whole| - 3] == Join(front, '/') + ['/'] + last[..|last| - 3];
        }
      } else {
        assert whole[|whole| - |last| - 1] == '/';
        assert !EndsWith(whole, ".py");
      }
      JoinAppend(front, [StripSuffixIfPresent(last, ".py")], '/');
    }
  }

  lemma ReplaceAppend(x: string, y: string, a: char, b: char)
    ensures ReplaceChar(x + y, a, b) == ReplaceChar(x, a, b) + ReplaceChar(y, a, b)
  {
    var l, r := ReplaceChar(x + y, a, b), ReplaceChar(x, a, b) + ReplaceChar(y, a, b);
    assert forall i :: 0 <= i < |l| ==> l[i] == r[i] by {
      forall i | 0 <= i < |l| ensures l[i] == r[i] {
        if i < |x| { assert (x + y)[i] == x[i]; } else { assert (x + y)[i] == y[i - |x|]; }
      }
    }
  }

  lemma ReplaceAbsent(x: string, a: char, b: char)
    requires a !in x
    ensures ReplaceChar(x, a, b) == x
  {
    var r := ReplaceChar(x, a, b);
    assert forall i :: 0 <= i < |x| ==> r[i] == x[i] by {
      forall i | 0 <= i < |x| ensures r[i] == x[i] { assert x[i] in x; }
    }
  }

  /** Replacing the separator of a join changes the separator and nothing else. */
  lemma {:induction false} ReplaceJoin(parts: seq<string>, a: char, b: char)
    requires SepFree(parts, a)
    ensures ReplaceChar(Join(parts, a), a, b) == Join(parts, b)
    decreases |parts|
  {
    if |parts| == 1 {
      ReplaceAbsent(parts[0], a, b);
    } else if |parts| > 1 {
      ReplaceJoin(parts[1..], a, b);
      ReplaceAppend(parts[0] + [a], Join(parts[1..], a), a, b);
      ReplaceAppend(parts[0], [a], a, b);
      ReplaceAbsent(parts[0], a, b);
    }
  }

  /** The root directory itself maps to its own name. */
  lemma RootMapsToItsName(rootPath: FsPath)
    requires |rootPath| >= 1 && PlainName(FileName(rootPath))
    ensures PathToPypath(rootPath, rootPath) == Ok(FileName(rootPath))
  {
    PathToPypathPieces(rootPath, rootPath);
    var rel := rootPath[|rootPath| - 1..];
    assert rel == [FileName(rootPath)];
    assert !EndsWith(FileName(rootPath), ".py");
  }
}
