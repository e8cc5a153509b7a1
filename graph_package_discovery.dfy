/**
 * Package discovery of the import-graph generation
 * (src/import_graph/package_discovery.rs). Its `_discover_package` and
 * `get_pypath` follow the string-keyed discovery line for line; the only
 * difference is that each module also carries the modification time of its
 * file, in whole seconds. The file metadata is given as a function from
 * file path to seconds.
 */
module GraphPackageDiscovery {
  import opened Wrappers
  import opened FsPaths
  import L = LegacyPackageDiscovery

  datatype Module = Module(pypath: string, path: FsPath, mtime: nat)

  datatype Package = Package(pypath: string, path: FsPath, children: seq<Package>, modules: seq<Module>)

  /** The module of a discovered file, stamped with its modification time. */
  function Stamp(m: L.Module, mtime: FsPath -> nat): (r: Module)
    ensures r.pypath == m.pypath && r.path == m.path && r.mtime == mtime(m.path)
  {
    Module(m.pypath, m.path, mtime(m.path))
  }

  /** A discovered tree with every module stamped. */
  function WithMtimes(p: L.Package, mtime: FsPath -> nat): (r: Package)
    ensures r.pypath == p.pypath && r.path == p.path
    ensures |r.children| == |p.children| && |r.modules| == |p.modules|
    ensures forall i :: 0 <= i < |r.modules| ==> r.modules[i] == Stamp(p.modules[i], mtime)
    decreases p
  {
    Package(p.pypath, p.path, WithMtimesIn(p.children, mtime),
            seq(|p.modules|, i requires 0 <= i < |p.modules| => Stamp(p.modules[i], mtime)))
  }

  function WithMtimesIn(ps: seq<L.Package>, mtime: FsPath -> nat): (r: seq<Package>)
    ensures |r| == |ps|
    decreases ps
  {
    if |ps| == 0 then [] else [WithMtimes(ps[0], mtime)] + WithMtimesIn(ps[1..], mtime)
  }

  /** Forgetting the modification times again. */
  function WithoutMtimes(p: Package): L.Package
    decreases p
  {
    L.Package(p.pypath, p.path, WithoutMtimesIn(p.children),
              seq(|p.modules|, i requires 0 <= i < |p.modules| => L.Module(p.modules[i].pypath, p.modules[i].path)))
  }

  function WithoutMtimesIn(ps: seq<Package>): seq<L.Package>
    decreases ps
  {
    if |ps| == 0 then [] else [WithoutMtimes(ps[0])] + WithoutMtimesIn(ps[1..])
  }

  /**
   * `_discover_package` on the directory `node` at `path`: the package tree
   * of the string-keyed discovery, its modules stamped with their times;
   * the same errors otherwise.
   */
  function Discover(rootPath: FsPath, path: FsPath, node: L.Node, mtime: FsPath -> nat): (r: Result<Package, L.DiscoveryError>)
    requires |rootPath| >= 1 && rootPath <= path && node.Dir?
  {
    match L.Discover(rootPath, path, node)
    case Ok(p) => Ok(WithMtimes(p, mtime))
    case Err(e) => Err(e)
  }

  /** `discover_package`: discovery from the root directory itself. */
  function DiscoverPackage(rootPath: FsPath, root: L.Node, mtime: FsPath -> nat): (r: Result<Package, L.DiscoveryError>)
    requires |rootPath| >= 1 && root.Dir?
    ensures r.Ok? ==> r.value.pypath == FileName(rootPath) && r.value.path == rootPath
    ensures r.Ok? <==> (root.readable && (exists i :: 0 <= i < |root.entries| && L.IsInitFile(root.entries[i]))
                        && L.DiscoverChildren(rootPath, rootPath, root.entries).Ok?)
  {
    L.RootPypathIsItsName(rootPath);
    Discover(rootPath, rootPath, root, mtime)
  }

  /** Stamping keeps everything the string-keyed discovery found: removing the times gives it back. */
  lemma {:induction false} StampingKeepsTree(p: L.Package, mtime: FsPath -> nat)
    ensures WithoutMtimes(WithMtimes(p, mtime)) == p
    decreases p
  {
    StampingKeepsTreeIn(p.children, mtime);
    var r := WithMtimes(p, mtime);
    var ms := seq(|r.modules|, i requires 0 <= i < |r.modules| => L.Module(r.modules[i].pypath, r.modules[i].path));
    assert ms == p.modules;
  }

  lemma {:induction false} StampingKeepsTreeIn(ps: seq<L.Package>, mtime: FsPath -> nat)
    ensures WithoutMtimesIn(WithMtimesIn(ps, mtime)) == ps
    decreases ps
  {
    if |ps| > 0 {
      StampingKeepsTree(ps[0], mtime);
      StampingKeepsTreeIn(ps[1..], mtime);
    }
  }

  /**
   * The discovered tree is the string-keyed one, and every module of the
   * discovered package carries its own file's modification time.
   */
  lemma DiscoveredModulesCarryMtimes(rootPath: FsPath, path: FsPath, node: L.Node, mtime: FsPath -> nat)
    requires |rootPath| >= 1 && rootPath <= path && node.Dir?
    ensures Discover(rootPath, path, node, mtime).Ok? <==> L.Discover(rootPath, path, node).Ok?
    ensures Discover(rootPath, path, node, mtime).Ok? ==>
      WithoutMtimes(Discover(rootPath, path, node, mtime).value) == L.Discover(rootPath, path, node).value
    ensures Discover(rootPath, path, node, mtime).Ok? ==>
      forall m :: m in Discover(rootPath, path, node, mtime).value.modules ==> m.mtime == mtime(m.path)
  {
    if L.Discover(rootPath, path, node).Ok? {
      StampingKeepsTree(L.Discover(rootPath, path, node).value, mtime);
    }
  }
}
