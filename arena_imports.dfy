/**
 * `ImportsInfo` of the two-arena generation (src/import_discovery/mod.rs):
 * the internal imports of a package as a forward map (item to the items it
 * imports), a reverse map (item to its importers) and the metadata of the
 * explicit imports. The implicit import of a package's init module carries
 * no metadata; a raw import that names no item of the package, even after
 * its final part is stripped, is ignored.
 */
module ArenaImports {
  import opened Wrappers
  import opened Strings
  import opened FsPaths
  import opened FsListing
  import opened Adjacency
  import opened ArenaPackages
  import opened ArenaQueries
  import Pypaths

  datatype ImportMetadata = ImportMetadata(lineNumber: nat, isTypechecking: bool)

  /** An import statement's target as `get_all_raw_imports` reports it. */
  datatype RawImport = RawImport(pypath: string, lineNumber: nat, isTypechecking: bool)

  /** One entry of the map `get_all_raw_imports` returns: an item and its raw imports. */
  datatype ItemImports = ItemImports(item: ItemToken, imports: seq<RawImport>)

  // ---------------------------------------------------------------------
  // `strip_final_part`
  // ---------------------------------------------------------------------

  /** Split on dots, drop the last piece, join again. */
  function StripFinalPart(pypath: string): (r: string)
    ensures var pieces := Split(pypath, '.');
      if |pieces| >= 2 then Split(r, '.') == pieces[..|pieces| - 1] && pypath == r + "." + pieces[|pieces| - 1]
      else r == ""
  {
    Pypaths.ParentDropsLastPiece(Pypaths.Pypath(pypath));
    Pypaths.Parent(Pypaths.Pypath(pypath)).s
  }

  /** `from a import b` gives the pypath `a.b`; stripping it gives `a` back. */
  lemma StripFinalPartOfMember(a: string, b: string)
    requires '.' !in b
    ensures StripFinalPart(a + "." + b) == a
  {
    SplitAppend(a, b, '.');
    SplitWhole(b, '.');
    var pieces := Split(a + "." + b, '.');
    assert pieces[..|pieces| - 1] == Split(a, '.');
    JoinSplit(a, '.');
    JoinSplit(StripFinalPart(a + "." + b), '.');
  }

  /** A pypath without a dot strips to the empty string. */
  lemma StripFinalPartOfWord(w: string)
    requires '.' !in w
    ensures StripFinalPart(w) == ""
  {
    SplitWhole(w, '.');
  }

  // ---------------------------------------------------------------------
  // Resolving a raw import
  // ---------------------------------------------------------------------

  /** `PackageItem::token`. */
  function TokenOf(y: Item): (t: ItemToken)
    ensures t.PackageToken? <==> y.PackageItem?
  {
    match y
    case PackageItem(p) => PackageToken(p.token)
    case ModuleItem(m) => ModuleToken(m.token)
  }

  function Tokens(ys: seq<Item>): set<ItemToken>
  {
    set y | y in ys :: TokenOf(y)
  }

  function ItemPypath(y: Item): string
  {
    match y
    case PackageItem(p) => p.pypath
    case ModuleItem(m) => m.pypath
  }

  /** Some package or module of the arena has this pypath. */
  predicate Names(info: PackageInfo, pypath: string)
  {
    pypath in PackagePypaths(info.packages) || pypath in ModulePypaths(info.modules)
  }

  /**
   * The item a raw import names: the item with that pypath (an imported
   * module or package), else the item with the stripped pypath (an imported
   * member, `from pkg.foo import FooClass`), else nothing.
   */
  function Resolve(info: PackageInfo, pypath: string): (r: Option<ItemToken>)
    ensures r.None? <==> GetItemByPypath(info, pypath).None? && GetItemByPypath(info, StripFinalPart(pypath)).None?
  {
    match GetItemByPypath(info, pypath)
    case Some(y) => Some(TokenOf(y))
    case None =>
      match GetItemByPypath(info, StripFinalPart(pypath))
      case Some(y) => Some(TokenOf(y))
      case None => None
  }

  /** Every token is the index of its own arena entry. */
  ghost predicate SelfIndexed(info: PackageInfo)
  {
    && (forall c :: 0 <= c < |info.packages| ==> info.packages[c].token == c)
    && (forall m :: 0 <= m < |info.modules| ==> info.modules[m].token == m)
  }

  /** A key is in an index exactly when it is one of the indexed keys, and the index leads back to it. */
  lemma IndexesHas<K>(keys: seq<K>, idx: map<K, nat>, k: K)
    requires Indexes(keys, idx)
    ensures k in idx <==> k in keys
    ensures k in idx ==> idx[k] < |keys| && keys[idx[k]] == k
  {
    if k in keys {
      var i :| 0 <= i < |keys| && keys[i] == k;
    }
  }

  /**
   * With consistent lookup maps a pypath finds an item exactly when some
   * item has it, and the item found has it.
   */
  lemma ByPypathNames(info: PackageInfo, pypath: string)
    requires Indexed(info) && SelfIndexed(info)
    ensures GetItemByPypath(info, pypath).Some? <==> Names(info, pypath)
    ensures GetItemByPypath(info, pypath).Some? ==>
      var y := GetItemByPypath(info, pypath).value;
      GetItem(info, TokenOf(y)) == Some(y) && ItemPypath(y) == pypath
  {
    IndexesHas(PackagePypaths(info.packages), info.packagesByPypath, pypath);
    IndexesHas(ModulePypaths(info.modules), info.modulesByPypath, pypath);
    if pypath in info.packagesByPypath {
      var c := info.packagesByPypath[pypath];
      assert GetItemByPypath(info, pypath) == Some(PackageItem(info.packages[c]));
    } else if pypath in info.modulesByPypath {
      var m := info.modulesByPypath[pypath];
      assert GetItemByPypath(info, pypath) == Some(ModuleItem(info.modules[m]));
    }
  }

  /**
   * On an arena with consistent lookup maps, a raw import resolves exactly
   * when its pypath or its stripped pypath names an item, and it resolves
   * to an item carrying its own pypath when there is one, otherwise to an
   * item carrying the stripped pypath.
   */
  lemma ResolveNamesItem(info: PackageInfo, pypath: string)
    requires Indexed(info) && SelfIndexed(info)
    ensures Resolve(info, pypath).Some? <==> Names(info, pypath) || Names(info, StripFinalPart(pypath))
    ensures Resolve(info, pypath).Some? ==>
      var t := Resolve(info, pypath).value;
      GetItem(info, t).Some?
      && ItemPypath(GetItem(info, t).value) == if Names(info, pypath) then pypath else StripFinalPart(pypath)
  {
    ByPypathNames(info, pypath);
    ByPypathNames(info, StripFinalPart(pypath));
  }

  // ---------------------------------------------------------------------
  // What `build` records, stated over its inputs
  // ---------------------------------------------------------------------

  /** The implicit imports of the listed packages: each imports its init module. */
  function InitOf(ps: seq<Package>): set<(ItemToken, ItemToken)>
  {
    set p | p in ps && p.initModule.Some? :: (PackageToken(p.token), ModuleToken(p.initModule.value))
  }

  /** The implicit imports `build` adds, over the packages of `get_all_items`. */
  function InitImports(info: PackageInfo): set<(ItemToken, ItemToken)>
    requires Tree(info) && info.root < |info.packages|
  {
    InitOf(FilterAllPackages(GetAllItems(info)))
  }

  /** The items one item's raw imports resolve to. */
  function Targets(info: PackageInfo, imports: seq<RawImport>): set<ItemToken>
  {
    set j | 0 <= j < |imports| && Resolve(info, imports[j].pypath).Some? :: Resolve(info, imports[j].pypath).value
  }

  /** The explicit imports of all the items of `raw`. */
  function RawEdges(info: PackageInfo, raw: seq<ItemImports>): set<(ItemToken, ItemToken)>
  {
    set i, t | 0 <= i < |raw| && t in Targets(info, raw[i].imports) :: (raw[i].item, t)
  }

  function MetadataOf(ri: RawImport): ImportMetadata
  {
    ImportMetadata(ri.lineNumber, ri.isTypechecking)
  }

  /**
   * The metadata the inner loop of `build` records for one item: an entry
   * per resolved import, a later import of the same item replacing an
   * earlier one.
   */
  function ImportMeta(info: PackageInfo, item: ItemToken, imports: seq<RawImport>): (r: map<(ItemToken, ItemToken), ImportMetadata>)
    ensures forall q :: q in r <==> q.0 == item && q.1 in Targets(info, imports)
  {
    if imports == [] then map[]
    else
      var n := |imports| - 1;
      var ri := imports[n];
      assert imports[..n + 1] == imports;
      TargetsSnoc(info, imports, n);
      var earlier := ImportMeta(info, item, imports[..n]);
      if Resolve(info, ri.pypath).Some? then earlier[(item, Resolve(info, ri.pypath).value) := MetadataOf(ri)]
      else earlier
  }

  /** The metadata the outer loop of `build` records: each item's merged in turn. */
  function RawMeta(info: PackageInfo, raw: seq<ItemImports>): (r: map<(ItemToken, ItemToken), ImportMetadata>)
    ensures r.Keys == RawEdges(info, raw)
  {
    if raw == [] then map[]
    else
      var n := |raw| - 1;
      assert raw[..n + 1] == raw;
      RawEdgesSnoc(info, raw, n);
      RawMeta(info, raw[..n]) + ImportMeta(info, raw[n].item, raw[n].imports)
  }

  /** One step of `ImportMeta`: the last import's entry, if it resolves, over those of the earlier ones. */
  lemma ImportMetaUnfold(info: PackageInfo, item: ItemToken, imports: seq<RawImport>)
    requires |imports| >= 1
    ensures var n := |imports| - 1;
      var earlier := ImportMeta(info, item, imports[..n]);
      var t := Resolve(info, imports[n].pypath);
      ImportMeta(info, item, imports) == if t.Some? then earlier[(item, t.value) := MetadataOf(imports[n])] else earlier
  {
  }

  /** Every recorded metadata entry is that of a raw import of its importer that resolves to its target. */
  lemma {:induction false} ImportMetaFrom(info: PackageInfo, item: ItemToken, imports: seq<RawImport>, q: (ItemToken, ItemToken))
    requires q in ImportMeta(info, item, imports)
    ensures exists j :: (0 <= j < |imports| && Resolve(info, imports[j].pypath) == Some(q.1)
                         && ImportMeta(info, item, imports)[q] == MetadataOf(imports[j]))
    decreases |imports|
  {
    var n := |imports| - 1;
    var ri := imports[n];
    ImportMetaUnfold(info, item, imports);
    if Resolve(info, ri.pypath) == Some(q.1) && q.0 == item {
      assert ImportMeta(info, item, imports)[q] == MetadataOf(imports[n]);
    } else {
      assert ImportMeta(info, item, imports)[q] == ImportMeta(info, item, imports[..n])[q];
      ImportMetaFrom(info, item, imports[..n], q);
      var j :| 0 <= j < n && Resolve(info, imports[..n][j].pypath) == Some(q.1)
        && ImportMeta(info, item, imports[..n])[q] == MetadataOf(imports[..n][j]);
      assert imports[..n][j] == imports[j];
    }
  }

  /** The same over every item of `raw`. */
  lemma {:induction false} RawMetaFrom(info: PackageInfo, raw: seq<ItemImports>, q: (ItemToken, ItemToken))
    requires q in RawMeta(info, raw)
    ensures exists i, j :: (0 <= i < |raw| && 0 <= j < |raw[i].imports| && raw[i].item == q.0
                            && Resolve(info, raw[i].imports[j].pypath) == Some(q.1)
                            && RawMeta(info, raw)[q] == MetadataOf(raw[i].imports[j]))
    decreases |raw|
  {
    var n := |raw| - 1;
    assert raw[..n + 1] == raw;
    var last := ImportMeta(info, raw[n].item, raw[n].imports);
    if q in last {
      ImportMetaFrom(info, raw[n].item, raw[n].imports, q);
      var j :| 0 <= j < |raw[n].imports| && Resolve(info, raw[n].imports[j].pypath) == Some(q.1)
        && last[q] == MetadataOf(raw[n].imports[j]);
      assert RawMeta(info, raw)[q] == last[q];
    } else {
      RawMetaFrom(info, raw[..n], q);
      var i, j :| 0 <= i < n && 0 <= j < |raw[..n][i].imports| && raw[..n][i].item == q.0
        && Resolve(info, raw[..n][i].imports[j].pypath) == Some(q.1)
        && RawMeta(info, raw[..n])[q] == MetadataOf(raw[..n][i].imports[j]);
      assert raw[..n][i] == raw[i];
    }
  }

  // ---------------------------------------------------------------------
  // The store
  // ---------------------------------------------------------------------

  /** Metadata is kept only for stored imports. */
  ghost predicate OnEdges<K(!new), M>(m: map<K, set<K>>, meta: map<(K, K), M>)
  {
    forall k, v :: (k, v) in meta ==> v in Get(m, k)
  }

  /**
   * `m.entry(k).or_default().remove(&v)`: the pair is gone, and `k` has an
   * entry afterwards even when it had none.
   */
  function Discard<K(!new), V(!new)>(m: map<K, set<V>>, k: K, v: V): (r: map<K, set<V>>)
    ensures r.Keys == m.Keys + {k}
    ensures forall x, y :: y in Get(r, x) <==> y in Get(m, x) && !(x == k && y == v)
  {
    m[k := Get(m, k) - {v}]
  }

  /** `Discard` of every pair of `s`, in any order: the listed pairs go, their keys get entries. */
  function Excluded<K(!new), V(!new)>(m: map<K, set<V>>, s: set<(K, V)>): (r: map<K, set<V>>)
    ensures r.Keys == m.Keys + Firsts(s)
    ensures forall x, y :: y in Get(r, x) <==> y in Get(m, x) && (x, y) !in s
  {
    WithDefaults(RemoveAll(m, s), Firsts(s))
  }

  /** The imports of `exclude_typechecking_imports`: those whose metadata says typechecking. */
  function TypecheckingImports<K(!new)>(meta: map<K, ImportMetadata>): (r: set<K>)
    ensures forall k :: k in r <==> k in meta && meta[k].isTypechecking
  {
    set k | k in meta && meta[k].isTypechecking
  }

  class ImportsInfo {
    const packageInfo: PackageInfo
    var internalImports: map<ItemToken, set<ItemToken>>
    var reverseInternalImports: map<ItemToken, set<ItemToken>>
    var internalImportsMetadata: map<(ItemToken, ItemToken), ImportMetadata>

    /** The invariant every operation keeps. */
    ghost predicate Valid()
      reads this
    {
      Mirrored(internalImports, reverseInternalImports) && OnEdges(internalImports, internalImportsMetadata)
    }

    /** Every one of `ts` has an entry, possibly empty, in both maps. */
    ghost predicate Covers(ts: set<ItemToken>)
      reads this
    {
      ts <= internalImports.Keys && ts <= reverseInternalImports.Keys
    }

    /** The struct literal of `build`: no imports yet. */
    constructor (packageInfo: PackageInfo)
      ensures this.packageInfo == packageInfo && Valid()
      ensures internalImports == map[] && reverseInternalImports == map[] && internalImportsMetadata == map[]
    {
      this.packageInfo := packageInfo;
      internalImports := map[];
      reverseInternalImports := map[];
      internalImportsMetadata := map[];
    }

    /** The derived `clone`: a separate store holding the same package and the same maps. */
    method Clone() returns (c: ImportsInfo)
      requires Valid()
      ensures fresh(c) && c.packageInfo == packageInfo && c.Valid()
      ensures c.internalImports == internalImports && c.reverseInternalImports == reverseInternalImports
      ensures c.internalImportsMetadata == internalImportsMetadata
    {
      c := new ImportsInfo(packageInfo);
      c.internalImports, c.reverseInternalImports := internalImports, reverseInternalImports;
      c.internalImportsMetadata := internalImportsMetadata;
    }

    /**
     * `initialise_maps`: every item of `get_all_items` gets an entry in both
     * maps; no import is added or lost.
     */
    method InitialiseMaps()
      requires Valid() && Tree(packageInfo) && packageInfo.root < |packageInfo.packages|
      modifies this`internalImports, this`reverseInternalImports
      ensures Valid() && Covers(Tokens(GetAllItems(packageInfo)))
      ensures internalImports == WithDefaults(old(internalImports), Tokens(GetAllItems(packageInfo)))
      ensures reverseInternalImports == WithDefaults(old(reverseInternalImports), Tokens(GetAllItems(packageInfo)))
    {
      var items := GetAllItems(packageInfo);
      var fwd, rev := EntriesOrDefault(items, internalImports, reverseInternalImports);
      WithDefaultsMirrored(internalImports, reverseInternalImports, Tokens(items));
      internalImports, reverseInternalImports := fwd, rev;
    }

    /**
     * `add_internal_import`: the import joins the forward map and its reverse
     * the reverse map; given metadata is recorded, replacing any earlier
     * metadata of the same import, and without metadata the old entry stays.
     */
    method AddInternalImport(from: ItemToken, to: ItemToken, metadata: Option<ImportMetadata>)
      requires Valid()
      modifies this
      ensures Valid()
      ensures internalImports == Adjacency.Insert(old(internalImports), from, to)
      ensures reverseInternalImports == Adjacency.Insert(old(reverseInternalImports), to, from)
      ensures metadata.Some? ==> internalImportsMetadata == old(internalImportsMetadata)[(from, to) := metadata.value]
      ensures metadata.None? ==> internalImportsMetadata == old(internalImportsMetadata)
    {
      InsertMirrored(internalImports, reverseInternalImports, from, to);
      internalImports := internalImports[from := Get(internalImports, from) + {to}];
      reverseInternalImports := reverseInternalImports[to := Get(reverseInternalImports, to) + {from}];
      if metadata.Some? {
        internalImportsMetadata := internalImportsMetadata[(from, to) := metadata.value];
      }
    }

    /**
     * `remove_internal_import`: the import leaves both maps and the metadata;
     * both ends get an entry, even when the import was absent.
     */
    method RemoveInternalImport(from: ItemToken, to: ItemToken)
      requires Valid()
      modifies this
      ensures Valid()
      ensures internalImports == Discard(old(internalImports), from, to)
      ensures reverseInternalImports == Discard(old(reverseInternalImports), to, from)
      ensures internalImportsMetadata == old(internalImportsMetadata) - {(from, to)}
    {
      DiscardMirrored(internalImports, reverseInternalImports, from, to);
      internalImports := internalImports[from := Get(internalImports, from) - {to}];
      reverseInternalImports := reverseInternalImports[to := Get(reverseInternalImports, to) - {from}];
      internalImportsMetadata := internalImportsMetadata - {(from, to)};
    }

    /**
     * `exclude_imports`: a clone without the listed imports, which leaves the
     * receiver as it was. The list is a set here: removal order and repeats
     * do not matter.
     */
    method ExcludeImports(pairs: set<(ItemToken, ItemToken)>) returns (r: ImportsInfo)
      requires Valid()
      ensures fresh(r) && r.packageInfo == packageInfo && r.Valid()
      ensures r.internalImports == Excluded(internalImports, pairs)
      ensures r.reverseInternalImports == Excluded(reverseInternalImports, Flip(pairs))
      ensures r.internalImportsMetadata == internalImportsMetadata - pairs
    {
      r := Clone();
      r.RemoveInternalImports(pairs);
    }

    /** The loop of `exclude_imports`: `remove_internal_import` of each listed import. */
    method RemoveInternalImports(pairs: set<(ItemToken, ItemToken)>)
      requires Valid()
      modifies this
      ensures Valid()
      ensures internalImports == Excluded(old(internalImports), pairs)
      ensures reverseInternalImports == Excluded(old(reverseInternalImports), Flip(pairs))
      ensures internalImportsMetadata == old(internalImportsMetadata) - pairs
    {
      ghost var done: set<(ItemToken, ItemToken)> := {};
      var todo := pairs;
      ExcludedNone(internalImports);
      ExcludedNone(reverseInternalImports);
      FlipNone<ItemToken, ItemToken>();
      while todo != {}
        invariant Valid()
        invariant todo <= pairs && done == pairs - todo
        invariant internalImports == Excluded(old(internalImports), done)
        invariant reverseInternalImports == Excluded(old(reverseInternalImports), Flip(done))
        invariant internalImportsMetadata == old(internalImportsMetadata) - done
        decreases |todo|
      {
        var p :| p in todo;
        TodoStep(pairs, todo, done, p);
        RemoveInternalImportAt(old(internalImports), old(reverseInternalImports), old(internalImportsMetadata), done, p);
        done := done + {p};
        todo := todo - {p};
      }
      assert done == pairs;
    }

    /** One step of `RemoveInternalImports`: after `done`, the pair `p` goes too. */
    method RemoveInternalImportAt(
      ghost fwd0: map<ItemToken, set<ItemToken>>, ghost rev0: map<ItemToken, set<ItemToken>>,
      ghost meta0: map<(ItemToken, ItemToken), ImportMetadata>,
      ghost done: set<(ItemToken, ItemToken)>, p: (ItemToken, ItemToken))
      requires Valid()
      requires internalImports == Excluded(fwd0, done)
      requires reverseInternalImports == Excluded(rev0, Flip(done))
      requires internalImportsMetadata == meta0 - done
      modifies this
      ensures Valid()
      ensures internalImports == Excluded(fwd0, done + {p})
      ensures reverseInternalImports == Excluded(rev0, Flip(done + {p}))
      ensures internalImportsMetadata == meta0 - (done + {p})
    {
      ExcludePairStep(fwd0, rev0, meta0, done, p.0, p.1);
      RemoveInternalImport(p.0, p.1);
    }

    /**
     * `exclude_typechecking_imports`: a clone without the explicit imports
     * made for typechecking only; the other explicit imports and the
     * implicit ones, which carry no metadata, stay.
     */
    method ExcludeTypecheckingImports() returns (r: ImportsInfo)
      requires Valid()
      ensures fresh(r) && r.packageInfo == packageInfo && r.Valid()
      ensures r.internalImports == Excluded(internalImports, TypecheckingImports(internalImportsMetadata))
      ensures r.reverseInternalImports == Excluded(reverseInternalImports, Flip(TypecheckingImports(internalImportsMetadata)))
      ensures forall q :: q in r.internalImportsMetadata <==> q in internalImportsMetadata && !internalImportsMetadata[q].isTypechecking
      ensures forall q :: q in r.internalImportsMetadata ==> r.internalImportsMetadata[q] == internalImportsMetadata[q]
    {
      r := ExcludeImports(TypecheckingImports(internalImportsMetadata));
    }

    /**
     * `build`, given what `get_all_raw_imports` returns: an entry for every
     * item, every package importing its init module without metadata, and
     * every raw import that resolves recorded with its metadata; the others
     * are ignored.
     */
    static method Build(info: PackageInfo, raw: seq<ItemImports>) returns (ii: ImportsInfo)
      requires Tree(info) && info.root < |info.packages|
      ensures fresh(ii) && ii.packageInfo == info && ii.Valid() && ii.Covers(Tokens(GetAllItems(info)))
      ensures forall f, t :: t in Get(ii.internalImports, f) <==> (f, t) in InitImports(info) || (f, t) in RawEdges(info, raw)
      ensures ii.internalImportsMetadata == RawMeta(info, raw)
    {
      ii := new ImportsInfo(info);
      ii.InitialiseMaps();
      ghost var fwd := ii.internalImports;
      EmptyDefaults<ItemToken, ItemToken>(Tokens(GetAllItems(info)));
      ii.AddInitImports(FilterAllPackages(GetAllItems(info)));
      ii.AddAllRawImports(raw);
      AddAllTwice(fwd, InitImports(info), RawEdges(info, raw));
      MergeEmpty(RawMeta(info, raw));
    }

    /** The init-module loop of `build`, over the packages of `get_all_items`. */
    method AddInitImports(packages: seq<Package>)
      requires Valid()
      modifies this
      ensures Valid()
      ensures internalImports == AddAll(old(internalImports), InitOf(packages))
      ensures old(reverseInternalImports).Keys <= reverseInternalImports.Keys
      ensures internalImportsMetadata == old(internalImportsMetadata)
    {
      AddAllNone(internalImports);
      assert InitOf(packages[..0]) == {};
      for k := 0 to |packages|
        invariant Valid()
        invariant internalImports == AddAll(old(internalImports), InitOf(packages[..k]))
        invariant old(reverseInternalImports).Keys <= reverseInternalImports.Keys
        invariant internalImportsMetadata == old(internalImportsMetadata)
      {
        var package := packages[k];
        InitOfSnoc(packages, k);
        if package.initModule.Some? {
          var q := (PackageToken(package.token), ModuleToken(package.initModule.value));
          AddAllStep(old(internalImports), InitOf(packages[..k]), q.0, q.1);
          AddInternalImport(q.0, q.1, None);
        }
      }
      assert packages[..|packages|] == packages;
    }

    /** The outer loop of `build`, over the items of `raw`. */
    method AddAllRawImports(raw: seq<ItemImports>)
      requires Valid()
      modifies this
      ensures Valid()
      ensures internalImports == AddAll(old(internalImports), RawEdges(packageInfo, raw))
      ensures old(reverseInternalImports).Keys <= reverseInternalImports.Keys
      ensures internalImportsMetadata == old(internalImportsMetadata) + RawMeta(packageInfo, raw)
    {
      AddAllNone(internalImports);
      assert RawEdges(packageInfo, raw[..0]) == {};
      assert RawMeta(packageInfo, raw[..0]) == map[];
      assert old(internalImportsMetadata) + map[] == old(internalImportsMetadata);
      for i := 0 to |raw|
        invariant Valid()
        invariant internalImports == AddAll(old(internalImports), RawEdges(packageInfo, raw[..i]))
        invariant old(reverseInternalImports).Keys <= reverseInternalImports.Keys
        invariant internalImportsMetadata == old(internalImportsMetadata) + RawMeta(packageInfo, raw[..i])
      {
        var item := raw[i].item;
        RawEdgesSnoc(packageInfo, raw[..i + 1], i);
        assert raw[..i + 1][..i] == raw[..i];
        assert raw[..i + 1][i] == raw[i];
        AddAllUnion(old(internalImports), RawEdges(packageInfo, raw[..i]), Pairs(item, Targets(packageInfo, raw[i].imports)),
          RawEdges(packageInfo, raw[..i + 1]));
        MergeAssoc(old(internalImportsMetadata), RawMeta(packageInfo, raw[..i]), ImportMeta(packageInfo, item, raw[i].imports));
        AddRawImports(item, raw[i].imports);
      }
      assert raw[..|raw|] == raw;
    }

    /** The inner loop of `build`, over the raw imports of one item. */
    method AddRawImports(item: ItemToken, imports: seq<RawImport>)
      requires Valid()
      modifies this
      ensures Valid()
      ensures internalImports == AddAll(old(internalImports), Pairs(item, Targets(packageInfo, imports)))
      ensures reverseInternalImports == AddAll(old(reverseInternalImports), Flip(Pairs(item, Targets(packageInfo, imports))))
      ensures internalImportsMetadata == old(internalImportsMetadata) + ImportMeta(packageInfo, item, imports)
    {
      ghost var fwd, rev, meta := internalImports, reverseInternalImports, internalImportsMetadata;
      NoRawImportsYet(packageInfo, item, imports, fwd, rev, meta);
      for j := 0 to |imports|
        invariant Valid()
        invariant AddedSoFar(item, imports, j, fwd, rev, meta)
      {
        AddRawImportAt(item, imports, j, fwd, rev, meta);
      }
      assert imports[..|imports|] == imports;
    }

    /** The maps hold what they held before, plus the first `j` raw imports of `item`. */
    ghost predicate AddedSoFar(item: ItemToken, imports: seq<RawImport>, j: nat,
                               fwd: map<ItemToken, set<ItemToken>>, rev: map<ItemToken, set<ItemToken>>,
                               meta: map<(ItemToken, ItemToken), ImportMetadata>)
      requires j <= |imports|
      reads this
    {
      && internalImports == AddAll(fwd, Pairs(item, Targets(packageInfo, imports[..j])))
      && reverseInternalImports == AddAll(rev, Flip(Pairs(item, Targets(packageInfo, imports[..j]))))
      && internalImportsMetadata == meta + ImportMeta(packageInfo, item, imports[..j])
    }

    /** One pass of the inner loop of `build`. */
    method AddRawImportAt(item: ItemToken, imports: seq<RawImport>, j: nat,
                          ghost fwd: map<ItemToken, set<ItemToken>>, ghost rev: map<ItemToken, set<ItemToken>>,
                          ghost meta: map<(ItemToken, ItemToken), ImportMetadata>)
      requires j < |imports| && Valid() && AddedSoFar(item, imports, j, fwd, rev, meta)
      modifies this
      ensures Valid() && AddedSoFar(item, imports, j + 1, fwd, rev, meta)
    {
      RawImportStep(packageInfo, item, imports, j, fwd, rev, meta);
      AddRawImport(item, imports[j]);
    }

    /** One iteration of the inner loop: an import that resolves is added with its metadata; one that does not is ignored. */
    method AddRawImport(item: ItemToken, rawImport: RawImport)
      requires Valid()
      modifies this
      ensures Valid()
      ensures match Resolve(packageInfo, rawImport.pypath)
        case Some(t) =>
          && internalImports == Adjacency.Insert(old(internalImports), item, t)
          && reverseInternalImports == Adjacency.Insert(old(reverseInternalImports), t, item)
          && internalImportsMetadata == old(internalImportsMetadata)[(item, t) := MetadataOf(rawImport)]
        case None =>
          && internalImports == old(internalImports) && reverseInternalImports == old(reverseInternalImports)
          && internalImportsMetadata == old(internalImportsMetadata)
    {
      var metadata := ImportMetadata(rawImport.lineNumber, rawImport.isTypechecking);
      var internalItem := match GetItemByPypath(packageInfo, rawImport.pypath)
        case Some(y) => Some(TokenOf(y))
        case None =>
          match GetItemByPypath(packageInfo, StripFinalPart(rawImport.pypath))
          case Some(y) => Some(TokenOf(y))
          case None => None;
      match internalItem
      case Some(t) =>
        AddInternalImport(item, t, Some(metadata));
      case None =>
    }
  }

  /** The loop of `initialise_maps`: `entry(token).or_default()` on both maps, item by item. */
  method EntriesOrDefault(items: seq<Item>, fwd: map<ItemToken, set<ItemToken>>, rev: map<ItemToken, set<ItemToken>>)
    returns (fwd': map<ItemToken, set<ItemToken>>, rev': map<ItemToken, set<ItemToken>>)
    ensures fwd' == WithDefaults(fwd, Tokens(items))
    ensures rev' == WithDefaults(rev, Tokens(items))
  {
    fwd', rev' := fwd, rev;
    WithDefaultsNone(fwd);
    WithDefaultsNone(rev);
    assert Tokens(items[..0]) == {};
    for i := 0 to |items|
      invariant fwd' == WithDefaults(fwd, Tokens(items[..i]))
      invariant rev' == WithDefaults(rev, Tokens(items[..i]))
    {
      var t := TokenOf(items[i]);
      TokensSnoc(items, i);
      DefaultStep(fwd, Tokens(items[..i]), t);
      DefaultStep(rev, Tokens(items[..i]), t);
      fwd' := fwd'[t := Get(fwd', t)];
      rev' := rev'[t := Get(rev', t)];
    }
    assert items[..|items|] == items;
  }

  // ---------------------------------------------------------------------
  // Step lemmas of the loops
  // ---------------------------------------------------------------------

  lemma TokensSnoc(items: seq<Item>, i: nat)
    requires i < |items|
    ensures Tokens(items[..i + 1]) == Tokens(items[..i]) + {TokenOf(items[i])}
  {
    assert items[..i + 1] == items[..i] + [items[i]];
  }

  lemma WithDefaultsNone<K(!new), V(!new)>(m: map<K, set<V>>)
    ensures WithDefaults(m, {}) == m
  {
    SameEntries(WithDefaults(m, {}), m);
  }

  /** One `entry(t).or_default()` step of `initialise_maps`. */
  lemma DefaultStep<K(!new), V(!new)>(m: map<K, set<V>>, ks: set<K>, t: K)
    ensures var w := WithDefaults(m, ks); w[t := Get(w, t)] == WithDefaults(m, ks + {t})
  {
    var w := WithDefaults(m, ks);
    SameEntries(w[t := Get(w, t)], WithDefaults(m, ks + {t}));
  }

  /** Discarding a pair and its reverse keeps the two maps mirrored. */
  lemma DiscardMirrored<K(!new)>(fwd: map<K, set<K>>, rev: map<K, set<K>>, f: K, t: K)
    requires Mirrored(fwd, rev)
    ensures Mirrored(Discard(fwd, f, t), Discard(rev, t, f))
  {
  }

  lemma ExcludedNone<K(!new), V(!new)>(m: map<K, set<V>>)
    ensures Excluded(m, {}) == m
  {
    SameEntries(Excluded(m, {}), m);
  }

  /** One `remove_internal_import` more extends the excluded pairs by one. */
  lemma ExcludedStep<K(!new), V(!new)>(m: map<K, set<V>>, s: set<(K, V)>, k: K, v: V)
    ensures Discard(Excluded(m, s), k, v) == Excluded(m, s + {(k, v)})
  {
    FirstsStep(s, k, v);
    SameEntries(Discard(Excluded(m, s), k, v), Excluded(m, s + {(k, v)}));
  }

  /** One step of the loop of `exclude_imports`, on the three maps. */
  lemma ExcludePairStep<K(!new), M>(fwd: map<K, set<K>>, rev: map<K, set<K>>, meta: map<(K, K), M>,
                                    done: set<(K, K)>, f: K, t: K)
    ensures Discard(Excluded(fwd, done), f, t) == Excluded(fwd, done + {(f, t)})
    ensures Discard(Excluded(rev, Flip(done)), t, f) == Excluded(rev, Flip(done + {(f, t)}))
    ensures (meta - done) - {(f, t)} == meta - (done + {(f, t)})
  {
    ExcludedStep(fwd, done, f, t);
    ExcludedStep(rev, Flip(done), t, f);
    FlipStep(done, f, t);
    DropStep(meta, done, (f, t));
  }

  lemma DropStep<K, M>(meta: map<K, M>, done: set<K>, q: K)
    ensures (meta - done) - {q} == meta - (done + {q})
  {
    var a, b := (meta - done) - {q}, meta - (done + {q});
    assert a.Keys == b.Keys;
  }

  /** The worklist of a loop over a set: one element moves from `todo` to `done`. */
  lemma TodoStep<T>(pairs: set<T>, todo: set<T>, done: set<T>, p: T)
    requires todo <= pairs && done == pairs - todo && p in todo
    ensures todo - {p} <= pairs && done + {p} == pairs - (todo - {p})
  {
  }

  lemma InitOfSnoc(ps: seq<Package>, k: nat)
    requires k < |ps|
    ensures ps[k].initModule.Some? ==>
      InitOf(ps[..k + 1]) == InitOf(ps[..k]) + {(PackageToken(ps[k].token), ModuleToken(ps[k].initModule.value))}
    ensures ps[k].initModule.None? ==> InitOf(ps[..k + 1]) == InitOf(ps[..k])
  {
    assert ps[..k + 1] == ps[..k] + [ps[k]];
  }

  /** One more raw import adds its own target, if it has one, and nothing else. */
  lemma TargetsSnoc(info: PackageInfo, imports: seq<RawImport>, j: nat)
    requires j < |imports|
    ensures Targets(info, imports[..j + 1]) == Targets(info, imports[..j])
      + (if Resolve(info, imports[j].pypath).Some? then {Resolve(info, imports[j].pypath).value} else {})
  {
    var a, b := imports[..j], imports[..j + 1];
    var last := if Resolve(info, imports[j].pypath).Some? then {Resolve(info, imports[j].pypath).value} else {};
    forall x
      ensures x in Targets(info, b) <==> x in Targets(info, a) + last
    {
      if x in Targets(info, b) {
        var k :| 0 <= k < |b| && Resolve(info, b[k].pypath).Some? && Resolve(info, b[k].pypath).value == x;
        if k < j {
          assert b[k] == a[k];
        } else {
          assert b[k] == imports[j];
        }
      }
      if x in Targets(info, a) {
        var k :| 0 <= k < |a| && Resolve(info, a[k].pypath).Some? && Resolve(info, a[k].pypath).value == x;
        assert b[k] == a[k];
      }
      if x in last {
        assert b[j] == imports[j];
      }
    }
  }

  /** One more item adds its own imports, and nothing else. */
  lemma RawEdgesSnoc(info: PackageInfo, raw: seq<ItemImports>, i: nat)
    requires i < |raw| && i + 1 == |raw|
    ensures forall f, t :: (f, t) in RawEdges(info, raw) <==>
      (f, t) in RawEdges(info, raw[..i]) || (f == raw[i].item && t in Targets(info, raw[i].imports))
  {
    var a := raw[..i];
    assert forall k :: 0 <= k < i ==> raw[k] == a[k];
  }

  /** Default entries alone hold no pair. */
  lemma EmptyDefaults<K(!new), V(!new)>(ks: set<K>)
    ensures forall f :: Get(WithDefaults<K, V>(map[], ks), f) == {}
  {
  }

  lemma MergeEmpty<K, V>(m: map<K, V>)
    ensures map[] + m == m
  {
  }

  /** Merging is associative. */
  lemma MergeAssoc<K, V>(a: map<K, V>, b: map<K, V>, c: map<K, V>)
    ensures (a + b) + c == a + (b + c)
  {
  }

  /** The implicit imports added after empty entries, then the explicit ones, are their union. */
  lemma AddAllTwice<K(!new)>(m: map<K, set<K>>, s: set<(K, K)>, s': set<(K, K)>)
    requires forall f :: Get(m, f) == {}
    ensures forall f, t :: t in Get(AddAll(AddAll(m, s), s'), f) <==> (f, t) in s || (f, t) in s'
  {
  }

  /** The pairs from `item` to each of `ts`. */
  function Pairs(item: ItemToken, ts: set<ItemToken>): (r: set<(ItemToken, ItemToken)>)
    ensures forall f, t :: (f, t) in r <==> f == item && t in ts
  {
    set t | t in ts :: (item, t)
  }

  /** Adding two batches one after the other adds their union. */
  lemma AddAllUnion<K(!new)>(m: map<K, set<K>>, s: set<(K, K)>, p: set<(K, K)>, u: set<(K, K)>)
    requires forall f, t :: (f, t) in u <==> (f, t) in s || (f, t) in p
    ensures AddAll(AddAll(m, s), p) == AddAll(m, u)
  {
    var a, b := AddAll(AddAll(m, s), p), AddAll(m, u);
    forall k | k in a.Keys
      ensures k in b.Keys
    {
      if k !in m.Keys && k !in Firsts(s) {
        var v :| (k, v) in p;
        assert (k, v) in u;
      } else if k !in m.Keys {
        var v :| (k, v) in s;
        assert (k, v) in u;
      }
    }
    forall k | k in b.Keys && k !in m.Keys
      ensures k in a.Keys
    {
      var v :| (k, v) in u;
      assert (k, v) in s || (k, v) in p;
    }
    SameEntries(a, b);
  }

  /** One iteration of the inner loop of `build`, on the three maps. */
  /** Before the inner loop of `build`: none of the raw imports is added yet. */
  lemma NoRawImportsYet(info: PackageInfo, item: ItemToken, imports: seq<RawImport>,
                        fwd: map<ItemToken, set<ItemToken>>, rev: map<ItemToken, set<ItemToken>>,
                        meta: map<(ItemToken, ItemToken), ImportMetadata>)
    ensures AddAll(fwd, Pairs(item, Targets(info, imports[..0]))) == fwd
    ensures AddAll(rev, Flip(Pairs(item, Targets(info, imports[..0])))) == rev
    ensures meta + ImportMeta(info, item, imports[..0]) == meta
  {
    assert Targets(info, imports[..0]) == {};
    assert Pairs(item, Targets(info, imports[..0])) == {};
    assert ImportMeta(info, item, imports[..0]) == map[];
    AddAllNone(fwd);
    AddAllNone(rev);
    FlipNone<ItemToken, ItemToken>();
  }

  lemma RawImportStep(info: PackageInfo, item: ItemToken, imports: seq<RawImport>, j: nat,
                      fwd: map<ItemToken, set<ItemToken>>, rev: map<ItemToken, set<ItemToken>>,
                      meta: map<(ItemToken, ItemToken), ImportMetadata>)
    requires j < |imports|
    ensures var ri, a, b := imports[j], imports[..j], imports[..j + 1];
      match Resolve(info, ri.pypath)
      case Some(t) =>
        && Adjacency.Insert(AddAll(fwd, Pairs(item, Targets(info, a))), item, t) == AddAll(fwd, Pairs(item, Targets(info, b)))
        && Adjacency.Insert(AddAll(rev, Flip(Pairs(item, Targets(info, a)))), t, item)
           == AddAll(rev, Flip(Pairs(item, Targets(info, b))))
        && (meta + ImportMeta(info, item, a))[(item, t) := MetadataOf(ri)] == meta + ImportMeta(info, item, b)
      case None =>
        Targets(info, b) == Targets(info, a) && ImportMeta(info, item, b) == ImportMeta(info, item, a)
  {
    var ri, a, b := imports[j], imports[..j], imports[..j + 1];
    TargetsSnoc(info, imports, j);
    assert b[..j] == a;
    assert b[j] == ri;
    if Resolve(info, ri.pypath).Some? {
      var t := Resolve(info, ri.pypath).value;
      var pa := Pairs(item, Targets(info, a));
      assert Pairs(item, Targets(info, b)) == pa + {(item, t)};
      AddAllStep(fwd, pa, item, t);
      FlipStep(pa, item, t);
      AddAllStep(rev, Flip(pa), t, item);
      MergeUpdate(meta, ImportMeta(info, item, a), (item, t), MetadataOf(ri));
    }
  }

  // ---------------------------------------------------------------------
  // What `build` records on the arenas `PackageInfo::build` makes
  // ---------------------------------------------------------------------

  /**
   * On a built arena the implicit imports are exactly those from each
   * package to its init module, the module whose file is the package's
   * `__init__.py`.
   */
  lemma InitImportsOfBuilt(info: PackageInfo, rootPath: FsPath, fs: seq<FsItem>, c: nat, m: nat, test: InitTest)
    requires |rootPath| >= 1 && Built(info, rootPath, fs, test)
    ensures Tree(info) && info.root < |info.packages|
    ensures (PackageToken(c), ModuleToken(m)) in InitImports(info) <==>
      c < |info.packages| && info.packages[c].initModule == Some(m)
    ensures (PackageToken(c), ModuleToken(m)) in InitImports(info) ==>
      m < |info.modules| && info.modules[m].path == info.packages[c].path + [InitName(test)]
  {
    AllItemsOfBuilt(info, rootPath, fs, test);
    SelfTokens(info, rootPath, fs, test);
    var ps := FilterAllPackages(GetAllItems(info));
    if (PackageToken(c), ModuleToken(m)) in InitOf(ps) {
      var p :| p in ps && p.initModule.Some? && (PackageToken(c), ModuleToken(m)) == (PackageToken(p.token), ModuleToken(p.initModule.value));
      assert Stored(info, PackageItem(p));
    }
    if c < |info.packages| && info.packages[c].initModule == Some(m) {
      assert info.packages[c] in ps;
    }
    if c < |info.packages| {
      InitModuleIsInitFile(info, rootPath, fs, c, test);
    }
  }

  /**
   * On the arenas the source's `build` makes (the as-written init test over
   * a listing of visible items) there is no init import, so `build` of the
   * import store records only the resolved raw imports.
   */
  lemma NoInitImportsAsWritten(info: PackageInfo, rootPath: FsPath, fs: seq<FsItem>)
    requires |rootPath| >= 1 && Visible(fs) && Built(info, rootPath, fs, AsWritten)
    ensures Tree(info) && info.root < |info.packages|
    ensures InitImports(info) == {}
  {
    AllItemsOfBuilt(info, rootPath, fs, AsWritten);
    AsWrittenRecordsNoInit(info, rootPath, fs);
    ListedWithoutInit(info, GetAllItems(info));
    InitOfNone(FilterAllPackages(GetAllItems(info)));
  }

  lemma ListedWithoutInit(info: PackageInfo, items: seq<Item>)
    requires forall y :: y in items ==> Stored(info, y)
    requires forall k :: 0 <= k < |info.packages| ==> info.packages[k].initModule.None?
    ensures forall p :: p in FilterAllPackages(items) ==> p.initModule.None?
  {
    forall p | p in FilterAllPackages(items)
      ensures p.initModule.None?
    {
      assert PackageItem(p) in items;
      assert Stored(info, PackageItem(p));
    }
  }

  lemma InitOfNone(ps: seq<Package>)
    requires forall p :: p in ps ==> p.initModule.None?
    ensures InitOf(ps) == {}
  {
  }

  /** On a built arena every package and module has entries after `build`. */
  lemma EveryItemListed(info: PackageInfo, rootPath: FsPath, fs: seq<FsItem>, test: InitTest)
    requires |rootPath| >= 1 && Built(info, rootPath, fs, test)
    ensures Tree(info) && info.root < |info.packages|
    ensures forall c :: 0 <= c < |info.packages| ==> PackageToken(c) in Tokens(GetAllItems(info))
    ensures forall m :: 0 <= m < |info.modules| ==> ModuleToken(m) in Tokens(GetAllItems(info))
  {
    AllItemsOfBuilt(info, rootPath, fs, test);
    SelfTokens(info, rootPath, fs, test);
    forall c | 0 <= c < |info.packages|
      ensures PackageToken(c) in Tokens(GetAllItems(info))
    {
      assert TokenOf(PackageItem(info.packages[c])) == PackageToken(c);
    }
    forall m | 0 <= m < |info.modules|
      ensures ModuleToken(m) in Tokens(GetAllItems(info))
    {
      assert TokenOf(ModuleItem(info.modules[m])) == ModuleToken(m);
    }
  }
}
