/**
 * Package discovery of the string-keyed generation (src/package_discovery.rs):
 * a directory is a package exactly when it holds `__init__.py`; its `.py`
 * files become modules and its visible sub-packages become children, each
 * named by `get_pypath`. The directory tree is given as a value; a directory
 * that cannot be listed carries no listing.
 */
module LegacyPackageDiscovery {
  import opened Wrappers
  import opened Strings
  import opened FsPaths

  datatype Module = Module(pypath: string, path: FsPath)

  datatype Package = Package(pypath: string, path: FsPath, children: seq<Package>, modules: seq<Module>)

  /** A directory entry: a file, or a directory with its entries (`readable` false when it cannot be listed). */
  datatype Node = File(name: string) | Dir(name: string, readable: bool, entries: seq<Node>)

  datatype DiscoveryError = CannotReadDir | NotAPythonPackage

  predicate IsInitFile(n: Node)
  {
    n.File? && n.name == "__init__.py"
  }

  /** `extension() == "py"`: the name ends in ".py" and has a stem before it. */
  predicate IsPyFile(n: Node)
  {
    n.File? && |n.name| > 3 && EndsWith(n.name, ".py")
  }

  /** A subdirectory that is explored: its name does not start with a dot. */
  predicate IsVisibleDir(n: Node)
  {
    n.Dir? && !(|n.name| > 0 && n.name[0] == '.')
  }

  /**
   * `get_pypath`: the root's own name, followed by the path relative to the
   * root with '/' turned into '.' (and ".py" dropped for a file).
   */
  function GetPypath(rootPath: FsPath, path: FsPath, isFile: bool): string
    requires |rootPath| >= 1 && rootPath <= path
    requires isFile ==> EndsWith(ToStr(path[|rootPath|..]), ".py")
  {
    var part := ToStr(path[|rootPath|..]);
    var part := if isFile then StripSuffixIfPresent(part, ".py") else part;
    if part == "" then FileName(rootPath) else ReplaceChar(FileName(rootPath) + "." + part, '/', '.')
  }

  /** The modules of a directory's `.py` files, in listing order. */
  function PyModules(rootPath: FsPath, path: FsPath, entries: seq<Node>): seq<Module>
    requires |rootPath| >= 1 && rootPath <= path
  {
    if |entries| == 0 then []
    else
      var last := entries[|entries| - 1];
      PyModules(rootPath, path, entries[..|entries| - 1])
      + if IsPyFile(last) then [ModuleOfFile(rootPath, path, last.name)] else []
  }

  function ModuleOfFile(rootPath: FsPath, path: FsPath, name: string): (m: Module)
    requires |rootPath| >= 1 && rootPath <= path && EndsWith(name, ".py")
    ensures m.path == path + [name]
  {
    JoinEndsWithLast(path[|rootPath|..] + [name], '/', ".py");
    assert (path + [name])[|rootPath|..] == path[|rootPath|..] + [name];
    Module(GetPypath(rootPath, path + [name], true), path + [name])
  }

  /** `_discover_package` on the directory `node` found at `path`. */
  function Discover(rootPath: FsPath, path: FsPath, node: Node): Result<Package, DiscoveryError>
    requires |rootPath| >= 1 && rootPath <= path && node.Dir?
    decreases node
  {
    if !node.readable then Err(CannotReadDir)
    else
      var entries := node.entries;
      if !exists i :: 0 <= i < |entries| && IsInitFile(entries[i]) then Err(NotAPythonPackage)
      else
        match DiscoverChildren(rootPath, path, entries)
        case Err(e) => Err(e)
        case Ok(children) =>
          Ok(Package(GetPypath(rootPath, path, false), path, children, PyModules(rootPath, path, entries)))
  }

  /**
   * The children of a package: every visible subdirectory that is itself a
   * package; a subdirectory that is not a package is skipped, any other
   * failure is the result.
   */
  function DiscoverChildren(rootPath: FsPath, path: FsPath, entries: seq<Node>): Result<seq<Package>, DiscoveryError>
    requires |rootPath| >= 1 && rootPath <= path
    decreases entries
  {
    if |entries| == 0 then Ok([])
    else
      var e := entries[0];
      var rest := DiscoverChildren(rootPath, path, entries[1..]);
      if !IsVisibleDir(e) then rest
      else
        match Discover(rootPath, path + [e.name], e)
        case Err(NotAPythonPackage) => rest
        case Err(err) => Err(err)
        case Ok(child) => Prepend([child], rest)
  }

  function Prepend(done: seq<Package>, r: Result<seq<Package>, DiscoveryError>): Result<seq<Package>, DiscoveryError>
  {
    match r
    case Ok(more) => Ok(done + more)
    case Err(e) => Err(e)
  }

  lemma JoinEndsWithLast(parts: seq<string>, sep: char, suffix: string)
    requires |parts| >= 1 && EndsWith(parts[|parts| - 1], suffix)
    ensures EndsWith(Join(parts, sep), suffix)
  {
    if |parts| > 1 {
      var front := parts[..|parts| - 1];
      assert parts == front + [parts[|parts| - 1]];
      JoinAppend(front, [parts[|parts| - 1]], sep);
    }
  }

  /** Whether the listing holds `__init__.py`. */
  method HasInitFile(entries: seq<Node>) returns (isPackage: bool)
    ensures isPackage <==> exists k :: 0 <= k < |entries| && IsInitFile(entries[k])
  {
    isPackage := false;
    var i := 0;
    while i < |entries|
      invariant 0 <= i <= |entries|
      invariant isPackage <==> exists k :: 0 <= k < i && IsInitFile(entries[k])
    {
      if entries[i].File? && entries[i].name == "__init__.py" {
        isPackage := true;
      }
      i := i + 1;
    }
  }

  /** The module loop: one module per `.py` file, pushed in order. */
  method CollectModules(rootPath: FsPath, path: FsPath, entries: seq<Node>) returns (modules: seq<Module>)
    requires |rootPath| >= 1 && rootPath <= path
    ensures modules == PyModules(rootPath, path, entries)
  {
    modules := [];
    var i := 0;
    while i < |entries|
      invariant 0 <= i <= |entries|
      invariant modules == PyModules(rootPath, path, entries[..i])
    {
      assert entries[..i + 1][..i] == entries[..i];
      if IsPyFile(entries[i]) {
        modules := modules + [ModuleOfFile(rootPath, path, entries[i].name)];
      }
      i := i + 1;
    }
    assert entries[..|entries|] == entries;
  }

  /** `_discover_package`, with its module and child loops. */
  method DiscoverPackage(rootPath: FsPath, path: FsPath, node: Node) returns (r: Result<Package, DiscoveryError>)
    requires |rootPath| >= 1 && rootPath <= path && node.Dir?
    ensures r == Discover(rootPath, path, node)
    decreases node
  {
    if !node.readable {
      return Err(CannotReadDir);
    }
    var entries := node.entries;
    var isPackage := HasInitFile(entries);
    if !isPackage {
      return Err(NotAPythonPackage);
    }
    var modules := CollectModules(rootPath, path, entries);
    var children: seq<Package> := [];
    var i := 0;
    assert entries[0..] == entries;
    PrependNothing(DiscoverChildren(rootPath, path, entries));
    while i < |entries|
      invariant 0 <= i <= |entries|
      invariant DiscoverChildren(rootPath, path, entries) == Prepend(children, DiscoverChildren(rootPath, path, entries[i..]))
    {
      assert entries[i..][1..] == entries[i + 1..];
      var e := entries[i];
      if IsVisibleDir(e) {
        var child := DiscoverPackage(rootPath, path + [e.name], e);
        match child {
          case Ok(c) =>
            PrependTwice(children, [c], DiscoverChildren(rootPath, path, entries[i + 1..]));
            children := children + [c];
          case Err(NotAPythonPackage) =>
          case Err(err) =>
            assert DiscoverChildren(rootPath, path, entries[i..]) == Err(err);
            return Err(err);
        }
      }
      i := i + 1;
    }
    assert entries[|entries|..] == [];
    assert children + [] == children;
    r := Ok(Package(GetPypath(rootPath, path, false), path, children, modules));
  }

  lemma PrependNothing(r: Result<seq<Package>, DiscoveryError>)
    ensures Prepend([], r) == r
  {
    if r.Ok? {
      assert [] + r.value == r.value;
    }
  }

  lemma PrependTwice(a: seq<Package>, b: seq<Package>, r: Result<seq<Package>, DiscoveryError>)
    ensures Prepend(a, Prepend(b, r)) == Prepend(a + b, r)
  {
    if r.Ok? {
      assert a + (b + r.value) == (a + b) + r.value;
    }
  }

  /** The root directory is named by its own directory name. */
  lemma RootPypathIsItsName(rootPath: FsPath)
    requires |rootPath| >= 1
    ensures GetPypath(rootPath, rootPath, false) == FileName(rootPath)
  {
    assert rootPath[|rootPath|..] == [];
  }

  /**
   * Below the root, a directory is named by the root's name followed by the
   * relative components, joined by dots; a `.py` file likewise, with ".py"
   * dropped from its name.
   */
  lemma PypathPieces(rootPath: FsPath, path: FsPath, isFile: bool)
    requires |rootPath| >= 1 && rootPath <= path && |path| > |rootPath|
    requires PlainName(FileName(rootPath))
    requires forall i :: |rootPath| <= i < |path| - 1 ==> PlainName(path[i])
    requires !isFile ==> PlainName(FileName(path))
    requires isFile ==> IsPyFile(File(FileName(path))) && PlainName(StripSuffixIfPresent(FileName(path), ".py"))
    ensures isFile ==> EndsWith(ToStr(path[|rootPath|..]), ".py")
    ensures GetPypath(rootPath, path, isFile)
      == Join([FileName(rootPath)] + (if isFile then ExpectedPieces(path[|rootPath|..]) else path[|rootPath|..]), '.')
  {
    if isFile {
      FilePypathPieces(rootPath, path);
    } else {
      PlainPieces(path[|rootPath|..], false);
      DottedJoin(FileName(rootPath), path[|rootPath|..]);
    }
  }

  lemma FilePypathPieces(rootPath: FsPath, path: FsPath)
    requires |rootPath| >= 1 && rootPath <= path && |path| > |rootPath|
    requires PlainName(FileName(rootPath))
    requires forall i :: |rootPath| <= i < |path| - 1 ==> PlainName(path[i])
    requires IsPyFile(File(FileName(path))) && PlainName(StripSuffixIfPresent(FileName(path), ".py"))
    ensures EndsWith(ToStr(path[|rootPath|..]), ".py")
    ensures GetPypath(rootPath, path, true) == Join([FileName(rootPath)] + ExpectedPieces(path[|rootPath|..]), '.')
  {
    var rel := path[|rootPath|..];
    JoinEndsWithLast(rel, '/', ".py");
    StripPyOfLast(rel);
    PlainPieces(rel, true);
    DottedJoin(FileName(rootPath), ExpectedPieces(rel));
  }

  lemma PlainPieces(rel: FsPath, isFile: bool)
    requires |rel| >= 1 && forall i :: 0 <= i < |rel| - 1 ==> PlainName(rel[i])
    requires !isFile ==> PlainName(rel[|rel| - 1])
    requires isFile ==> PlainName(StripSuffixIfPresent(rel[|rel| - 1], ".py"))
    ensures var pieces := if isFile then ExpectedPieces(rel) else rel;
      forall i :: 0 <= i < |pieces| ==> PlainName(pieces[i])
  {
  }

  /** Prefixing a name and a dot to a '/'-join of plain names, then turning '/' into '.', is one '.'-join. */
  lemma DottedJoin(root: string, pieces: seq<string>)
    requires PlainName(root) && |pieces| >= 1 && |pieces[0]| > 0
    requires forall i :: 0 <= i < |pieces| ==> PlainName(pieces[i])
    ensures Join(pieces, '/') != ""
    ensures ReplaceChar(root + "." + Join(pieces, '/'), '/', '.') == Join([root] + pieces, '.')
  {
    var part := Join(pieces, '/');
    assert SepFree(pieces, '/');
    JoinStartsWithFirst(pieces, '/');
    ReplaceAppend(root + ".", part, '/', '.');
    ReplaceAbsent(root + ".", '/', '.');
    ReplaceJoin(pieces, '/', '.');
    JoinAppend([root], pieces, '.');
  }

  /** A readable directory fails with `NotAPythonPackage` exactly when it holds no `__init__.py`. */
  lemma InitFileDecidesPackage(rootPath: FsPath, path: FsPath, node: Node)
    requires |rootPath| >= 1 && rootPath <= path && node.Dir? && node.readable
    ensures Discover(rootPath, path, node) == Err(NotAPythonPackage)
      <==> !exists i :: 0 <= i < |node.entries| && IsInitFile(node.entries[i])
  {
    ChildrenNeverNotAPackage(rootPath, path, node.entries);
  }

  lemma {:induction false} ChildrenNeverNotAPackage(rootPath: FsPath, path: FsPath, entries: seq<Node>)
    requires |rootPath| >= 1 && rootPath <= path
    ensures DiscoverChildren(rootPath, path, entries) != Err(NotAPythonPackage)
    decreases entries
  {
    if |entries| > 0 {
      ChildrenNeverNotAPackage(rootPath, path, entries[1..]);
    }
  }

  /**
   * The children of a discovered package are exactly the visible
   * subdirectories that are packages, and discovery fails exactly when some
   * visible subdirectory fails for another reason than not being a package.
   */
  lemma {:induction false} ChildrenAreVisiblePackages(rootPath: FsPath, path: FsPath, entries: seq<Node>)
    requires |rootPath| >= 1 && rootPath <= path
    ensures DiscoverChildren(rootPath, path, entries).Err? <==>
      exists k :: 0 <= k < |entries| && IsVisibleDir(entries[k])
        && Discover(rootPath, path + [entries[k].name], entries[k]).Err?
        && Discover(rootPath, path + [entries[k].name], entries[k]) != Err(NotAPythonPackage)
    ensures DiscoverChildren(rootPath, path, entries).Ok? ==>
      var children := DiscoverChildren(rootPath, path, entries).value;
      (forall c :: c in children ==>
        exists k :: 0 <= k < |entries| && IsVisibleDir(entries[k])
          && Discover(rootPath, path + [entries[k].name], entries[k]) == Ok(c))
      && (forall k :: (0 <= k < |entries| && IsVisibleDir(entries[k])
                       && Discover(rootPath, path + [entries[k].name], entries[k]).Ok?) ==>
            Discover(rootPath, path + [entries[k].name], entries[k]).value in children)
    decreases entries
  {
    if |entries| > 0 {
      var rest := entries[1..];
      ChildrenAreVisiblePackages(rootPath, path, rest);
      forall k | 1 <= k < |entries|
        ensures entries[k] == rest[k - 1]
      {
      }
      var e := entries[0];
      if IsVisibleDir(e) {
        var d := Discover(rootPath, path + [e.name], e);
        var r := DiscoverChildren(rootPath, path, rest);
        if d.Ok? && r.Ok? {
          assert DiscoverChildren(rootPath, path, entries).value == [d.value] + r.value;
        }
      }
    }
  }

  /**
   * The modules of a discovered package are exactly its `.py` files: each
   * module comes from one, and each one gives a module at its path.
   */
  lemma {:induction false} ModulesArePyFiles(rootPath: FsPath, path: FsPath, entries: seq<Node>)
    requires |rootPath| >= 1 && rootPath <= path
    ensures forall m :: m in PyModules(rootPath, path, entries) ==>
      exists k :: 0 <= k < |entries| && IsPyFile(entries[k]) && m.path == path + [entries[k].name]
    ensures forall k :: 0 <= k < |entries| && IsPyFile(entries[k]) ==>
      exists m :: m in PyModules(rootPath, path, entries) && m.path == path + [entries[k].name]
  {
    ModulesComeFromPyFiles(rootPath, path, entries);
    PyFilesGiveModules(rootPath, path, entries);
  }

  lemma {:induction false} ModulesComeFromPyFiles(rootPath: FsPath, path: FsPath, entries: seq<Node>)
    requires |rootPath| >= 1 && rootPath <= path
    ensures forall m :: m in PyModules(rootPath, path, entries) ==>
      exists k :: 0 <= k < |entries| && IsPyFile(entries[k]) && m.path == path + [entries[k].name]
    decreases |entries|
  {
    if |entries| > 0 {
      var front := entries[..|entries| - 1];
      ModulesComeFromPyFiles(rootPath, path, front);
      var last := entries[|entries| - 1];
      var frontMods := PyModules(rootPath, path, front);
      forall m | m in PyModules(rootPath, path, entries)
        ensures exists k :: 0 <= k < |entries| && IsPyFile(entries[k]) && m.path == path + [entries[k].name]
      {
        if m in frontMods {
          var k :| 0 <= k < |front| && IsPyFile(front[k]) && m.path == path + [front[k].name];
          assert entries[k] == front[k];
        } else {
          assert IsPyFile(entries[|entries| - 1]);
        }
      }
    }
  }

  lemma {:induction false} PyFilesGiveModules(rootPath: FsPath, path: FsPath, entries: seq<Node>)
    requires |rootPath| >= 1 && rootPath <= path
    ensures forall k :: 0 <= k < |entries| && IsPyFile(entries[k]) ==>
      exists m :: m in PyModules(rootPath, path, entries) && m.path == path + [entries[k].name]
    decreases |entries|
  {
    if |entries| > 0 {
      var front := entries[..|entries| - 1];
      PyFilesGiveModules(rootPath, path, front);
      var last := entries[|entries| - 1];
      var mods := PyModules(rootPath, path, entries);
      var frontMods := PyModules(rootPath, path, front);
      forall k | 0 <= k < |entries| && IsPyFile(entries[k])
        ensures exists m :: m in mods && m.path == path + [entries[k].name]
      {
        if k == |entries| - 1 {
          assert ModuleOfFile(rootPath, path, last.name) in mods;
        } else {
          assert entries[k] == front[k];
          var m :| m in frontMods && m.path == path + [front[k].name];
          assert m in mods;
        }
      }
    }
  }
}
