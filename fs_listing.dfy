/**
 * What the directory readers of src/package_info/filesystem.rs and
 * src/package_discovery/filesystem.rs yield: the root directory first, then
 * every directory and `.py` file below it that is not hidden. Reading the
 * disk is not modelled; a listing is given as a sequence, and the order the
 * package builders rely on is stated as a predicate.
 */
module FsListing {
  import opened FsPaths

  datatype FsItem = Directory(path: FsPath) | File(path: FsPath)

  /**
   * The order a builder's loop relies on: every item lies strictly below the
   * root, no path is listed twice, and an item's directory is the root or a
   * directory listed earlier (the `unwrap`s of `parent()` and of the lookup
   * of the parent's token).
   */
  ghost predicate ParentsFirst(rootPath: FsPath, fs: seq<FsItem>)
  {
    && (forall i :: 0 <= i < |fs| ==> rootPath < fs[i].path)
    && (forall i, j :: 0 <= i < j < |fs| ==> fs[i].path != fs[j].path)
    && (forall i :: 0 <= i < |fs| ==> ListedParent(rootPath, fs, i))
  }

  /** A hidden name: one that starts with a dot. */
  predicate Hidden(name: string)
  {
    |name| >= 1 && name[0] == '.'
  }

  /** `exclude_hidden_items`: no listed directory or file has a hidden name. */
  ghost predicate Visible(fs: seq<FsItem>)
  {
    forall i :: 0 <= i < |fs| && |fs[i].path| >= 1 ==> !Hidden(FileName(fs[i].path))
  }

  /** The directory of item `i` is the root or a directory listed before it. */
  ghost predicate ListedParent(rootPath: FsPath, fs: seq<FsItem>, i: nat)
    requires i < |fs| && |fs[i].path| >= 1
  {
    || ParentDir(fs[i].path) == rootPath
    || exists j :: 0 <= j < i && fs[j].Directory? && fs[j].path == ParentDir(fs[i].path)
  }
}
