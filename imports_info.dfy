/**
 * `ImportsInfo` of src/imports_info/mod.rs: the imports of a package, kept as
 * a forward map (item to the items it imports), a reverse map (item to its
 * importers), a map of external imports (item to the outside pypaths it
 * imports) and the metadata of every import. Its add and remove operations
 * keep the forward and reverse maps mirror images of each other and keep
 * exactly one metadata entry per stored import.
 */
module ImportsInfos {
  import opened Wrappers
  import opened Errors
  import opened Pypaths
  import opened PackageInfos
  import opened Adjacency

  datatype ImportMetadata =
    | ExplicitImport(lineNumber: nat, isTypechecking: bool)
    | ImplicitImport

  datatype BuildOptions = BuildOptions(includeTypecheckingImports: bool, includeExternalImports: bool)

  /** `ImportsInfoBuildOptions::new`: everything is included. */
  function NewOptions(): (r: BuildOptions)
    ensures r.includeTypecheckingImports && r.includeExternalImports
  {
    BuildOptions(true, true)
  }

  /** `with_typechecking_imports_excluded`: only that flag changes. */
  function WithTypecheckingImportsExcluded(o: BuildOptions): (r: BuildOptions)
    ensures !r.includeTypecheckingImports && r.includeExternalImports == o.includeExternalImports
  {
    o.(includeTypecheckingImports := false)
  }

  /** `with_external_imports_excluded`: only that flag changes. */
  function WithExternalImportsExcluded(o: BuildOptions): (r: BuildOptions)
    ensures !r.includeExternalImports && r.includeTypecheckingImports == o.includeTypecheckingImports
  {
    o.(includeExternalImports := false)
  }

  /** An import of one module, already resolved to an absolute pypath. */
  datatype ResolvedRawImport = ResolvedRawImport(pypath: Pypath, lineNumber: nat, isTypechecking: bool)

  /** One entry of the map `get_all_raw_imports` returns: a module and its imports. */
  datatype ItemImports = ItemImports(item: PackageItemToken, imports: seq<ResolvedRawImport>)

  /** The imports of `remove_typechecking_imports`: explicit ones made for typechecking only. */
  function TypecheckingImports<K(!new)>(meta: map<K, ImportMetadata>): (r: set<K>)
    ensures forall k :: k in r <==> k in meta && meta[k] != ImplicitImport && meta[k].isTypechecking
  {
    set k | k in meta && meta[k].ExplicitImport? && meta[k].isTypechecking
  }

  // ---------------------------------------------------------------------
  // What `build_with_options` records, stated over its inputs.
  // ---------------------------------------------------------------------

  /** `is_internal`: the pypath is the root package or lies below it. */
  predicate InternalTo(info: PackageInfo, p: Pypath)
    requires WellFormed(info)
  {
    IsInternal(p, GetRoot(info).pypath)
  }

  /**
   * The item an internal import names: the item with exactly that pypath (an
   * imported module or package), else the item of its parent (an imported
   * member, `from pkg.foo import FooClass`), else nothing.
   */
  function ResolveInternal(info: PackageInfo, p: Pypath): (r: Option<PackageItemToken>)
    requires WellFormed(info)
    ensures r.Some? ==> Known(info, r.value)
    ensures r.None? <==>
      GetItemByPypath(info, p).None?
      && (ParentOpt(p).None? || GetItemByPypath(info, ParentOpt(p).value).None?)
  {
    ByPypathStored(info, p);
    match GetItemByPypath(info, p)
    case Some(item) => Some(Token(item))
    case None =>
      match ParentOpt(p)
      case None => None
      case Some(parent) =>
        ByPypathStored(info, parent);
        match GetItemByPypath(info, parent)
        case Some(item) => Some(Token(item))
        case None => None
  }

  /** The lookup maps send every pypath to an entry that carries it. */
  ghost predicate PypathsIndexed(info: PackageInfo)
    requires WellFormed(info)
  {
    && (forall k :: k in info.packagesByPypath ==> info.packages[info.packagesByPypath[k]].pypath == k)
    && (forall k :: k in info.modulesByPypath ==> info.modules[info.modulesByPypath[k]].pypath == k)
  }

  /**
   * With consistent lookup maps, an internal import resolves to the item
   * named by its own pypath, or, when no item has that pypath, to the item
   * named by its parent.
   */
  lemma ResolveInternalNamesItem(info: PackageInfo, p: Pypath)
    requires WellFormed(info) && PypathsIndexed(info)
    ensures ResolveInternal(info, p).Some? ==>
      var named := ItemPypath(ItemAt(info, ResolveInternal(info, p).value));
      named == p || (GetItemByPypath(info, p).None? && HasParent(p) && named == Parent(p))
  {
    ByPypathStored(info, p);
    if HasParent(p) {
      ByPypathStored(info, Parent(p));
    }
  }

  /** The import survives the typechecking filter of the options. */
  predicate Counted(o: BuildOptions, ri: ResolvedRawImport)
  {
    o.includeTypecheckingImports || !ri.isTypechecking
  }

  /** A counted internal import that names an item of the package. */
  predicate Resolves(info: PackageInfo, o: BuildOptions, ri: ResolvedRawImport)
    requires WellFormed(info)
  {
    Counted(o, ri) && InternalTo(info, ri.pypath) && ResolveInternal(info, ri.pypath).Some?
  }

  /** A counted internal import that names nothing: `UnknownInternalImport`. */
  predicate Unresolvable(info: PackageInfo, o: BuildOptions, ri: ResolvedRawImport)
    requires WellFormed(info)
  {
    Counted(o, ri) && InternalTo(info, ri.pypath) && ResolveInternal(info, ri.pypath).None?
  }

  /** A counted external import that the options keep. */
  predicate Outside(info: PackageInfo, o: BuildOptions, ri: ResolvedRawImport)
    requires WellFormed(info)
  {
    Counted(o, ri) && !InternalTo(info, ri.pypath) && o.includeExternalImports
  }

  /** The items one module's imports resolve to. */
  function InternalTargets(info: PackageInfo, o: BuildOptions, imports: seq<ResolvedRawImport>): set<PackageItemToken>
    requires WellFormed(info)
  {
    set j | 0 <= j < |imports| && Resolves(info, o, imports[j]) :: ResolveInternal(info, imports[j].pypath).value
  }

  /** The outside pypaths one module's imports name. */
  function ExternalTargets(info: PackageInfo, o: BuildOptions, imports: seq<ResolvedRawImport>): set<Pypath>
    requires WellFormed(info)
  {
    set j | 0 <= j < |imports| && Outside(info, o, imports[j]) :: imports[j].pypath
  }

  /** The explicit internal imports of all the modules of `raw`. */
  function AllInternal(info: PackageInfo, o: BuildOptions, raw: seq<ItemImports>): set<(PackageItemToken, PackageItemToken)>
    requires WellFormed(info)
  {
    set i, t | 0 <= i < |raw| && t in InternalTargets(info, o, raw[i].imports) :: (raw[i].item, t)
  }

  /** The external imports of all the modules of `raw`. */
  function AllExternal(info: PackageInfo, o: BuildOptions, raw: seq<ItemImports>): set<(PackageItemToken, Pypath)>
    requires WellFormed(info)
  {
    set i, p | 0 <= i < |raw| && p in ExternalTargets(info, o, raw[i].imports) :: (raw[i].item, p)
  }

  /** Every package imports its init module, when it has one. */
  function InitImports(info: PackageInfo): set<(PackageItemToken, PackageItemToken)>
  {
    set c | 0 <= c < |info.packages| && info.packages[c].initModule.Some? ::
      (PackageToken(c), ModuleToken(info.packages[c].initModule.value))
  }

  /** The init imports of the listed packages. */
  function InitOf(ps: seq<Package>): set<(PackageItemToken, PackageItemToken)>
  {
    set q | q in ps && q.initModule.Some? :: (PackageToken(q.token), ModuleToken(q.initModule.value))
  }

  class ImportsInfo {
    const packageInfo: PackageInfo
    var internalImports: map<PackageItemToken, set<PackageItemToken>>
    var reverseInternalImports: map<PackageItemToken, set<PackageItemToken>>
    var internalImportsMetadata: map<(PackageItemToken, PackageItemToken), ImportMetadata>
    var externalImports: map<PackageItemToken, set<Pypath>>
    var externalImportsMetadata: map<(PackageItemToken, Pypath), ImportMetadata>

    /** The invariant every operation keeps. */
    ghost predicate Valid()
      reads this
    {
      && WellFormed(packageInfo)
      && Mirrored(internalImports, reverseInternalImports)
      && Annotated(internalImports, internalImportsMetadata)
      && Annotated(externalImports, externalImportsMetadata)
    }

    /** Every item of the package has an entry, possibly empty, in the three import maps. */
    ghost predicate Initialised()
      reads this
    {
      Covered(packageInfo, internalImports, reverseInternalImports, externalImports)
    }

    /** The struct literal of `build_with_options`: no imports yet. */
    constructor (packageInfo: PackageInfo)
      requires WellFormed(packageInfo)
      ensures this.packageInfo == packageInfo && Valid()
      ensures internalImports == map[] && reverseInternalImports == map[] && internalImportsMetadata == map[]
      ensures externalImports == map[] && externalImportsMetadata == map[]
    {
      this.packageInfo := packageInfo;
      internalImports := map[];
      reverseInternalImports := map[];
      internalImportsMetadata := map[];
      externalImports := map[];
      externalImportsMetadata := map[];
    }

    /** The derived `clone`: a separate store holding the same package and the same maps. */
    method Clone() returns (c: ImportsInfo)
      requires Valid()
      ensures fresh(c) && c.packageInfo == packageInfo && c.Valid()
      ensures c.internalImports == internalImports && c.reverseInternalImports == reverseInternalImports
      ensures c.internalImportsMetadata == internalImportsMetadata
      ensures c.externalImports == externalImports && c.externalImportsMetadata == externalImportsMetadata
    {
      c := new ImportsInfo(packageInfo);
      c.internalImports, c.reverseInternalImports, c.internalImportsMetadata := internalImports, reverseInternalImports, internalImportsMetadata;
      c.externalImports, c.externalImportsMetadata := externalImports, externalImportsMetadata;
    }

    /**
     * `initialise_maps`: every item of `get_all_items` gets an entry in the
     * forward, reverse and external maps; no import is added or lost.
     */
    method InitialiseMaps()
      requires Valid() && Listed(packageInfo)
      modifies this`internalImports, this`reverseInternalImports, this`externalImports
      ensures Valid() && Initialised()
      ensures internalImports == WithDefaults(old(internalImports), Tokens(GetAllItems(packageInfo)))
      ensures reverseInternalImports == WithDefaults(old(reverseInternalImports), Tokens(GetAllItems(packageInfo)))
      ensures externalImports == WithDefaults(old(externalImports), Tokens(GetAllItems(packageInfo)))
    {
      AddEntries(GetAllItems(packageInfo));
    }

    /** The loop of `initialise_maps` over the listed items. */
    method AddEntries(items: seq<PackageItem>)
      requires Valid() && forall t :: Known(packageInfo, t) ==> t in Tokens(items)
      modifies this`internalImports, this`reverseInternalImports, this`externalImports
      ensures Valid()
      ensures Initialised()
      ensures internalImports == WithDefaults(old(internalImports), Tokens(items))
      ensures reverseInternalImports == WithDefaults(old(reverseInternalImports), Tokens(items))
      ensures externalImports == WithDefaults(old(externalImports), Tokens(items))
    {
      var fwd, rev, ext := EntriesOrDefault(items, internalImports, reverseInternalImports, externalImports);
      DefaultsKeep(packageInfo, Tokens(items), internalImports, reverseInternalImports, internalImportsMetadata,
                   externalImports, externalImportsMetadata, fwd, rev, ext);
      internalImports, reverseInternalImports, externalImports := fwd, rev, ext;
    }

    /**
     * `add_internal_import`: the import joins the forward map, its reverse
     * joins the reverse map, and its metadata is recorded (replacing any
     * earlier metadata of the same import).
     */
    method AddInternalImport(from: PackageItemToken, to: PackageItemToken, metadata: ImportMetadata)
      requires Valid()
      modifies this
      ensures Valid()
      ensures internalImports == Insert(old(internalImports), from, to)
      ensures reverseInternalImports == Insert(old(reverseInternalImports), to, from)
      ensures internalImportsMetadata == old(internalImportsMetadata)[(from, to) := metadata]
      ensures externalImports == old(externalImports) && externalImportsMetadata == old(externalImportsMetadata)
    {
      InsertMirrored(internalImports, reverseInternalImports, from, to);
      InsertAnnotated(internalImports, internalImportsMetadata, from, to, metadata);
      internalImports := internalImports[from := Get(internalImports, from) + {to}];
      reverseInternalImports := reverseInternalImports[to := Get(reverseInternalImports, to) + {from}];
      internalImportsMetadata := internalImportsMetadata[(from, to) := metadata];
    }

    /**
     * `remove_internal_import`: the import leaves both maps and the metadata;
     * removing an absent import changes nothing and creates no entry.
     */
    method RemoveInternalImport(from: PackageItemToken, to: PackageItemToken)
      requires Valid()
      modifies this
      ensures Valid()
      ensures internalImports == Remove(old(internalImports), from, to)
      ensures reverseInternalImports == Remove(old(reverseInternalImports), to, from)
      ensures internalImportsMetadata == old(internalImportsMetadata) - {(from, to)}
      ensures externalImports == old(externalImports) && externalImportsMetadata == old(externalImportsMetadata)
    {
      RemoveMirrored(internalImports, reverseInternalImports, from, to);
      RemoveAnnotated(internalImports, internalImportsMetadata, from, to);
      if from in internalImports {
        internalImports := internalImports[from := internalImports[from] - {to}];
      }
      if to in reverseInternalImports {
        reverseInternalImports := reverseInternalImports[to := reverseInternalImports[to] - {from}];
      }
      internalImportsMetadata := internalImportsMetadata - {(from, to)};
    }

    /**
     * `remove_imports`: every listed internal import leaves the forward map,
     * the reverse map and the metadata, every listed external import leaves
     * the external map and its metadata; everything else stays, and no entry
     * is created or dropped. The lists are sets here: removal order does not
     * matter.
     */
    method RemoveImports(internal: set<(PackageItemToken, PackageItemToken)>, external: set<(PackageItemToken, Pypath)>)
      requires Valid()
      modifies this
      ensures Valid()
      ensures internalImports == RemoveAll(old(internalImports), internal)
      ensures reverseInternalImports == RemoveAll(old(reverseInternalImports), Flip(internal))
      ensures internalImportsMetadata == old(internalImportsMetadata) - internal
      ensures externalImports == RemoveAll(old(externalImports), external)
      ensures externalImportsMetadata == old(externalImportsMetadata) - external
    {
      RemoveInternalImports(internal);
      RemoveExternalImports(external);
    }

    /** The first loop of `remove_imports`. */
    method RemoveInternalImports(internal: set<(PackageItemToken, PackageItemToken)>)
      requires Valid()
      modifies this
      ensures Valid()
      ensures internalImports == RemoveAll(old(internalImports), internal)
      ensures reverseInternalImports == RemoveAll(old(reverseInternalImports), Flip(internal))
      ensures internalImportsMetadata == old(internalImportsMetadata) - internal
      ensures externalImports == old(externalImports) && externalImportsMetadata == old(externalImportsMetadata)
    {
      ghost var done: set<(PackageItemToken, PackageItemToken)> := {};
      var todo := internal;
      RemoveNone(internalImports);
      RemoveNone(reverseInternalImports);
      FlipNone<PackageItemToken, PackageItemToken>();
      while todo != {}
        invariant Valid()
        invariant todo <= internal
        invariant forall p :: p in done <==> p in internal && p !in todo
        invariant internalImports == RemoveAll(old(internalImports), done)
        invariant reverseInternalImports == RemoveAll(old(reverseInternalImports), Flip(done))
        invariant internalImportsMetadata == old(internalImportsMetadata) - done
        invariant externalImports == old(externalImports) && externalImportsMetadata == old(externalImportsMetadata)
        decreases |todo|
      {
        var p :| p in todo;
        RemovePairStep(old(internalImports), old(reverseInternalImports), old(internalImportsMetadata), done, p.0, p.1);
        RemoveInternalImport(p.0, p.1);
        done := done + {p};
        todo := todo - {p};
      }
      assert done == internal;
    }

    /** The second loop of `remove_imports`. */
    method RemoveExternalImports(external: set<(PackageItemToken, Pypath)>)
      requires Valid()
      modifies this
      ensures Valid()
      ensures externalImports == RemoveAll(old(externalImports), external)
      ensures externalImportsMetadata == old(externalImportsMetadata) - external
      ensures internalImports == old(internalImports) && reverseInternalImports == old(reverseInternalImports)
      ensures internalImportsMetadata == old(internalImportsMetadata)
    {
      ghost var done: set<(PackageItemToken, Pypath)> := {};
      var todo := external;
      RemoveNone(externalImports);
      while todo != {}
        invariant Valid()
        invariant todo <= external
        invariant forall p :: p in done <==> p in external && p !in todo
        invariant externalImports == RemoveAll(old(externalImports), done)
        invariant externalImportsMetadata == old(externalImportsMetadata) - done
        invariant internalImports == old(internalImports) && reverseInternalImports == old(reverseInternalImports)
        invariant internalImportsMetadata == old(internalImportsMetadata)
        decreases |todo|
      {
        var p :| p in todo;
        RemoveExternalStep(old(externalImports), old(externalImportsMetadata), done, p.0, p.1);
        RemoveExternalImport(p.0, p.1);
        done := done + {p};
        todo := todo - {p};
      }
      assert done == external;
    }

    /**
     * `remove_typechecking_imports`: the explicit imports made for
     * typechecking only are removed, internal and external; implicit imports
     * and the other explicit ones stay.
     */
    method RemoveTypecheckingImports()
      requires Valid()
      modifies this
      ensures Valid()
      ensures internalImports == RemoveAll(old(internalImports), TypecheckingImports(old(internalImportsMetadata)))
      ensures reverseInternalImports == RemoveAll(old(reverseInternalImports), Flip(TypecheckingImports(old(internalImportsMetadata))))
      ensures externalImports == RemoveAll(old(externalImports), TypecheckingImports(old(externalImportsMetadata)))
      ensures internalImportsMetadata == old(internalImportsMetadata) - TypecheckingImports(old(internalImportsMetadata))
      ensures externalImportsMetadata == old(externalImportsMetadata) - TypecheckingImports(old(externalImportsMetadata))
    {
      var internal := TypecheckingImports(internalImportsMetadata);
      var external := TypecheckingImports(externalImportsMetadata);
      RemoveImports(internal, external);
    }

    /** `add_external_import`: the pypath joins the item's external imports, with its metadata. */
    method AddExternalImport(from: PackageItemToken, to: Pypath, metadata: ImportMetadata)
      requires Valid()
      modifies this
      ensures Valid()
      ensures externalImports == Insert(old(externalImports), from, to)
      ensures externalImportsMetadata == old(externalImportsMetadata)[(from, to) := metadata]
      ensures internalImports == old(internalImports) && reverseInternalImports == old(reverseInternalImports)
      ensures internalImportsMetadata == old(internalImportsMetadata)
    {
      InsertAnnotated(externalImports, externalImportsMetadata, from, to, metadata);
      externalImports := externalImports[from := Get(externalImports, from) + {to}];
      externalImportsMetadata := externalImportsMetadata[(from, to) := metadata];
    }

    /** `remove_external_import`: the pypath leaves the item's external imports and the metadata. */
    method RemoveExternalImport(from: PackageItemToken, to: Pypath)
      requires Valid()
      modifies this
      ensures Valid()
      ensures externalImports == Remove(old(externalImports), from, to)
      ensures externalImportsMetadata == old(externalImportsMetadata) - {(from, to)}
      ensures internalImports == old(internalImports) && reverseInternalImports == old(reverseInternalImports)
      ensures internalImportsMetadata == old(internalImportsMetadata)
    {
      RemoveAnnotated(externalImports, externalImportsMetadata, from, to);
      if from in externalImports {
        externalImports := externalImports[from := externalImports[from] - {to}];
      }
      externalImportsMetadata := externalImportsMetadata - {(from, to)};
    }
    /**
     * `build_with_options`: a fresh `ImportsInfo` whose maps hold an entry
     * for every item, the implicit import of every package's init module,
     * and the counted imports of `raw` (one entry of `get_all_raw_imports` per
     * module): internal ones resolved to items, external ones (when the
     * options keep them) by pypath. It fails exactly when some counted
     * internal import names no item, with `UnknownInternalImport` of such an
     * import.
     */
    static method BuildWithOptions(info: PackageInfo, raw: seq<ItemImports>, o: BuildOptions)
      returns (r: Result<ImportsInfo, Error>)
      requires WellFormed(info) && Linked(info) && Rooted(info)
      requires forall i :: 0 <= i < |raw| ==> raw[i].item.ModuleToken? && Known(info, raw[i].item)
      ensures r.Ok? <==> RawResolvable(info, o, raw)
      ensures r.Err? ==> exists i, j ::
        && 0 <= i < |raw| && 0 <= j < |raw[i].imports|
        && Unresolvable(info, o, raw[i].imports[j]) && r.error == UnknownInternalImport(raw[i].imports[j].pypath.s)
      ensures r.Ok? ==> fresh(r.value) && r.value.packageInfo == info && r.value.Valid() && r.value.Initialised()
      ensures r.Ok? ==> forall f, t :: t in Get(r.value.internalImports, f) <==>
        (f, t) in InitImports(info) || (f, t) in AllInternal(info, o, raw)
      ensures r.Ok? ==> forall f, p :: p in Get(r.value.externalImports, f) <==> (f, p) in AllExternal(info, o, raw)
      ensures r.Ok? ==> ImplicitOn(r.value.internalImportsMetadata, InitImports(info))
      ensures r.Ok? ==> ExplicitOn(r.value.internalImportsMetadata, AllInternal(info, o, raw))
      ensures r.Ok? ==> ExplicitOn(r.value.externalImportsMetadata, r.value.externalImportsMetadata.Keys)
      ensures r.Ok? ==> r.value.internalImportsMetadata == Implicit(InitImports(info)) + AllExplicitMeta(info, o, raw)
      ensures r.Ok? ==> r.value.externalImportsMetadata == AllExternalMeta(info, o, raw)
    {
      var ii := WithImplicitImports(info);
      var err := ii.AddAllRawImports(raw, o);
      if err.Some? {
        return Err(err.value);
      }
      MergeEmpty(AllExternalMeta(info, o, raw));
      r := Ok(ii);
    }

    /**
     * The start of `build_with_options`: empty maps, an entry for every
     * item, and the implicit import of every package's init module.
     */
    static method WithImplicitImports(info: PackageInfo) returns (ii: ImportsInfo)
      requires WellFormed(info) && Linked(info) && Rooted(info)
      ensures fresh(ii) && ii.packageInfo == info && ii.Valid() && ii.Initialised()
      ensures forall f, t :: t in Get(ii.internalImports, f) <==> (f, t) in InitImports(info)
      ensures ImplicitOn(ii.internalImportsMetadata, InitImports(info))
      ensures ii.internalImportsMetadata == Implicit(InitImports(info))
      ensures forall f :: Get(ii.externalImports, f) == {}
      ensures ii.externalImportsMetadata == map[]
    {
      ii := new ImportsInfo(info);
      AllItemsComplete(info);
      ii.InitialiseMaps();
      ii.AddInitImports();
      MergeEmpty(Implicit(InitImports(info)));
    }

    /**
     * The init-module loop of `build_with_options`, over the packages of
     * `get_all_items`: every package imports its init module, implicitly.
     */
    method AddInitImports()
      requires Valid() && Initialised() && Linked(packageInfo) && Rooted(packageInfo)
      requires forall f :: Get(internalImports, f) == {}
      modifies this
      ensures Valid() && Initialised()
      ensures forall f, t :: t in Get(internalImports, f) <==> (f, t) in InitImports(packageInfo)
      ensures ImplicitOn(internalImportsMetadata, InitImports(packageInfo))
      ensures internalImportsMetadata == old(internalImportsMetadata) + Implicit(InitImports(packageInfo))
      ensures externalImports == old(externalImports) && externalImportsMetadata == old(externalImportsMetadata)
    {
      ghost var fwd := internalImports;
      var packages := FilterAllPackages(GetAllItems(packageInfo));
      AddImplicitImports(packages);
      InitialState(packageInfo, fwd, internalImports, internalImportsMetadata);
      InitImportsListed(packageInfo);
    }

    /** The outer loop of `build_with_options`, over the modules of `raw`. */
    method AddAllRawImports(raw: seq<ItemImports>, o: BuildOptions) returns (err: Option<Error>)
      requires Valid() && Initialised() && ImplicitOn(internalImportsMetadata, InitImports(packageInfo))
      requires ExplicitOn(externalImportsMetadata, externalImportsMetadata.Keys)
      requires forall i :: 0 <= i < |raw| ==> raw[i].item.ModuleToken? && Known(packageInfo, raw[i].item)
      modifies this
      ensures Valid() && Initialised()
      ensures err.None? <==> RawResolvable(packageInfo, o, raw)
      ensures err.Some? ==> exists i, j ::
        && 0 <= i < |raw| && 0 <= j < |raw[i].imports|
        && Unresolvable(packageInfo, o, raw[i].imports[j]) && err.value == UnknownInternalImport(raw[i].imports[j].pypath.s)
      ensures err.None? ==> internalImports == AddAll(old(internalImports), AllInternal(packageInfo, o, raw))
      ensures err.None? ==> externalImports == AddAll(old(externalImports), AllExternal(packageInfo, o, raw))
      ensures err.None? ==> ImplicitOn(internalImportsMetadata, InitImports(packageInfo))
      ensures err.None? ==> ExplicitOn(internalImportsMetadata, AllInternal(packageInfo, o, raw))
      ensures err.None? ==> ExplicitOn(externalImportsMetadata, externalImportsMetadata.Keys)
      ensures err.None? ==> internalImportsMetadata == old(internalImportsMetadata) + AllExplicitMeta(packageInfo, o, raw)
      ensures err.None? ==> externalImportsMetadata == old(externalImportsMetadata) + AllExternalMeta(packageInfo, o, raw)
    {
      AllNone(packageInfo, o, raw);
      MergeEmpty(internalImportsMetadata);
      MergeEmpty(externalImportsMetadata);
      AddAllNone(internalImports);
      AddAllNone(externalImports);
      for i := 0 to |raw|
        invariant Valid() && Initialised()
        invariant RawResolvable(packageInfo, o, raw[..i])
        invariant internalImports == AddAll(old(internalImports), AllInternal(packageInfo, o, raw[..i]))
        invariant externalImports == AddAll(old(externalImports), AllExternal(packageInfo, o, raw[..i]))
        invariant ImplicitOn(internalImportsMetadata, InitImports(packageInfo))
        invariant ExplicitOn(internalImportsMetadata, AllInternal(packageInfo, o, raw[..i]))
        invariant ExplicitOn(externalImportsMetadata, externalImportsMetadata.Keys)
        invariant internalImportsMetadata == old(internalImportsMetadata) + AllExplicitMeta(packageInfo, o, raw[..i])
        invariant externalImportsMetadata == old(externalImportsMetadata) + AllExternalMeta(packageInfo, o, raw[..i])
      {
        var item := raw[i].item;
        AllSnoc(packageInfo, o, raw, i);
        RawResolvableSnoc(packageInfo, o, raw, i);
        AddAllInsertAll(old(internalImports), AllInternal(packageInfo, o, raw[..i]), item,
          InternalTargets(packageInfo, o, raw[i].imports), AllInternal(packageInfo, o, raw[..i + 1]));
        AddAllInsertAll(old(externalImports), AllExternal(packageInfo, o, raw[..i]), item,
          ExternalTargets(packageInfo, o, raw[i].imports), AllExternal(packageInfo, o, raw[..i + 1]));
        MetadataStep(packageInfo, o, raw, i, internalImportsMetadata, externalImportsMetadata);
        MetaSnoc(packageInfo, o, raw, i, old(internalImportsMetadata), old(externalImportsMetadata));
        err := AddRawImports(item, raw[i].imports, o);
        if err.Some? {
          assert !AllResolvable(packageInfo, o, raw[i].imports);
          return;
        }
      }
      assert raw[..|raw|] == raw;
      err := None;
    }

    /** The init-module loop of `build_with_options`. */
    method AddImplicitImports(packages: seq<Package>)
      requires Valid() && Initialised()
      modifies this
      ensures Valid() && Initialised()
      ensures internalImports == AddAll(old(internalImports), InitOf(packages))
      ensures ImplicitOn(internalImportsMetadata, InitOf(packages))
      ensures internalImportsMetadata == old(internalImportsMetadata) + Implicit(InitOf(packages))
      ensures externalImports == old(externalImports) && externalImportsMetadata == old(externalImportsMetadata)
    {
      NoImplicitYet(packages, internalImports, internalImportsMetadata);
      for k := 0 to |packages|
        invariant Valid() && Initialised()
        invariant ImplicitSoFar(packages, k, old(internalImports), old(internalImportsMetadata))
        invariant externalImports == old(externalImports) && externalImportsMetadata == old(externalImportsMetadata)
      {
        AddImplicitImportAt(packages, k, old(internalImports), old(internalImportsMetadata));
      }
      assert packages[..|packages|] == packages;
    }

    /** The forward map and the metadata hold the init imports of the first `k` packages on top of `fwd` and `meta`. */
    ghost predicate ImplicitSoFar(packages: seq<Package>, k: nat, fwd: map<PackageItemToken, set<PackageItemToken>>,
                                  meta: map<(PackageItemToken, PackageItemToken), ImportMetadata>)
      requires k <= |packages|
      reads this
    {
      ImplicitState(packages, k, fwd, meta, internalImports, internalImportsMetadata)
    }

    /** One pass of the init-module loop: the `k`-th package imports its init module, if it has one. */
    method AddImplicitImportAt(packages: seq<Package>, k: nat, ghost fwd: map<PackageItemToken, set<PackageItemToken>>,
                               ghost meta: map<(PackageItemToken, PackageItemToken), ImportMetadata>)
      requires Valid() && Initialised() && k < |packages| && ImplicitSoFar(packages, k, fwd, meta)
      modifies this
      ensures Valid() && Initialised() && ImplicitSoFar(packages, k + 1, fwd, meta)
      ensures externalImports == old(externalImports) && externalImportsMetadata == old(externalImportsMetadata)
    {
      var package := packages[k];
      if package.initModule.Some? {
        var q := (PackageToken(package.token), ModuleToken(package.initModule.value));
        ImplicitStateStep(packages, k, fwd, meta, internalImports, internalImportsMetadata);
        AddInternalImport(q.0, q.1, ImplicitImport);
      } else {
        ImplicitStateSkip(packages, k, fwd, meta, internalImports, internalImportsMetadata);
      }
    }

    /**
     * The inner loop of `build_with_options`, over the imports of one module:
     * the counted internal imports that resolve join the module's imports
     * (and their reverses the reverse map) with explicit metadata, the kept
     * external ones join its external imports. It stops at the first counted
     * internal import that names no item and returns `UnknownInternalImport`
     * of it.
     */
    method AddRawImports(item: PackageItemToken, imports: seq<ResolvedRawImport>, o: BuildOptions)
      returns (err: Option<Error>)
      requires Valid() && Initialised() && Known(packageInfo, item)
      modifies this
      ensures Valid() && Initialised()
      ensures err.None? <==> AllResolvable(packageInfo, o, imports)
      ensures err.Some? ==> exists j ::
        && 0 <= j < |imports| && AllResolvable(packageInfo, o, imports[..j]) && Unresolvable(packageInfo, o, imports[j])
        && err.value == UnknownInternalImport(imports[j].pypath.s)
      ensures err.None? ==> internalImports == InsertAll(old(internalImports), item, InternalTargets(packageInfo, o, imports))
      ensures err.None? ==>
        reverseInternalImports == InsertInto(old(reverseInternalImports), InternalTargets(packageInfo, o, imports), item)
      ensures err.None? ==> internalImportsMetadata == old(internalImportsMetadata) + ExplicitMeta(packageInfo, o, item, imports)
      ensures err.None? ==> externalImports == InsertAll(old(externalImports), item, ExternalTargets(packageInfo, o, imports))
      ensures err.None? ==> externalImportsMetadata == old(externalImportsMetadata) + ExternalMeta(packageInfo, o, item, imports)
    {
      TargetsNone(packageInfo, o, imports);
      InsertAllNone(internalImports, item);
      InsertAllNone(externalImports, item);
      InsertIntoNone(reverseInternalImports, item);
      for j := 0 to |imports|
        invariant Valid() && Initialised()
        invariant AllResolvable(packageInfo, o, imports[..j])
        invariant AddedSoFar(item, o, imports, j, old(internalImports), old(reverseInternalImports),
          old(internalImportsMetadata), old(externalImports), old(externalImportsMetadata))
      {
        err := AddRawImportAt(item, imports, j, o, old(internalImports), old(reverseInternalImports),
          old(internalImportsMetadata), old(externalImports), old(externalImportsMetadata));
        if err.Some? {
          return;
        }
      }
      assert imports[..|imports|] == imports;
      err := None;
    }

    /** The maps hold what they held before, plus the first `j` raw imports of `item`. */
    ghost predicate AddedSoFar(item: PackageItemToken, o: BuildOptions, imports: seq<ResolvedRawImport>, j: nat,
                               fwd: map<PackageItemToken, set<PackageItemToken>>, rev: map<PackageItemToken, set<PackageItemToken>>,
                               meta: map<(PackageItemToken, PackageItemToken), ImportMetadata>,
                               ext: map<PackageItemToken, set<Pypath>>, extMeta: map<(PackageItemToken, Pypath), ImportMetadata>)
      requires WellFormed(packageInfo) && j <= |imports|
      reads this
    {
      && internalImports == InsertAll(fwd, item, InternalTargets(packageInfo, o, imports[..j]))
      && reverseInternalImports == InsertInto(rev, InternalTargets(packageInfo, o, imports[..j]), item)
      && internalImportsMetadata == meta + ExplicitMeta(packageInfo, o, item, imports[..j])
      && externalImports == InsertAll(ext, item, ExternalTargets(packageInfo, o, imports[..j]))
      && externalImportsMetadata == extMeta + ExternalMeta(packageInfo, o, item, imports[..j])
    }

    /** One pass of the inner loop of `build_with_options`: the `j`-th import of `item`, or the error it raises. */
    method AddRawImportAt(item: PackageItemToken, imports: seq<ResolvedRawImport>, j: nat, o: BuildOptions,
                          ghost fwd: map<PackageItemToken, set<PackageItemToken>>, ghost rev: map<PackageItemToken, set<PackageItemToken>>,
                          ghost meta: map<(PackageItemToken, PackageItemToken), ImportMetadata>,
                          ghost ext: map<PackageItemToken, set<Pypath>>, ghost extMeta: map<(PackageItemToken, Pypath), ImportMetadata>)
      returns (err: Option<Error>)
      requires Valid() && Initialised() && j < |imports|
      requires AllResolvable(packageInfo, o, imports[..j]) && AddedSoFar(item, o, imports, j, fwd, rev, meta, ext, extMeta)
      modifies this
      ensures Valid() && Initialised()
      ensures err.Some? <==> Unresolvable(packageInfo, o, imports[j])
      ensures err.Some? ==> err.value == UnknownInternalImport(imports[j].pypath.s)
      ensures err.None? ==>
        AllResolvable(packageInfo, o, imports[..j + 1]) && AddedSoFar(item, o, imports, j + 1, fwd, rev, meta, ext, extMeta)
    {
      ResolvableSnoc(packageInfo, o, imports, j);
      RawImportStep(packageInfo, o, item, imports, j, fwd, rev, meta, ext, extMeta);
      err := AddRawImport(item, imports[j], o);
    }

    /** One iteration of the inner loop of `build_with_options`: one import of `item`. */
    method AddRawImport(item: PackageItemToken, rawImport: ResolvedRawImport, o: BuildOptions) returns (err: Option<Error>)
      requires Valid() && Initialised()
      modifies this
      ensures Valid() && Initialised()
      ensures err.Some? <==> Unresolvable(packageInfo, o, rawImport)
      ensures err.Some? ==> err.value == UnknownInternalImport(rawImport.pypath.s)
      ensures err.None? ==> var x := ExplicitImport(rawImport.lineNumber, rawImport.isTypechecking);
        if Resolves(packageInfo, o, rawImport) then
          var t := ResolveInternal(packageInfo, rawImport.pypath).value;
          && internalImports == Insert(old(internalImports), item, t)
          && reverseInternalImports == Insert(old(reverseInternalImports), t, item)
          && internalImportsMetadata == old(internalImportsMetadata)[(item, t) := x]
        else
          && internalImports == old(internalImports) && reverseInternalImports == old(reverseInternalImports)
          && internalImportsMetadata == old(internalImportsMetadata)
      ensures err.None? ==> var x := ExplicitImport(rawImport.lineNumber, rawImport.isTypechecking);
        if Outside(packageInfo, o, rawImport) then
          && externalImports == Insert(old(externalImports), item, rawImport.pypath)
          && externalImportsMetadata == old(externalImportsMetadata)[(item, rawImport.pypath) := x]
        else
          externalImports == old(externalImports) && externalImportsMetadata == old(externalImportsMetadata)
    {
      err := None;
      if !o.includeTypecheckingImports && rawImport.isTypechecking {
        return;
      }
      var metadata := ExplicitImport(rawImport.lineNumber, rawImport.isTypechecking);
      if InternalTo(packageInfo, rawImport.pypath) {
        match ResolveInternal(packageInfo, rawImport.pypath)
        case None =>
          err := Some(UnknownInternalImport(rawImport.pypath.s));
        case Some(internalItem) =>
          AddInternalImport(item, internalItem, metadata);
      } else if o.includeExternalImports {
        AddExternalImport(item, rawImport.pypath, metadata);
      }
    }
  }

  /** The loop of `initialise_maps`: `entry(token).or_default()` on each map, item by item. */
  method EntriesOrDefault(items: seq<PackageItem>, fwd: map<PackageItemToken, set<PackageItemToken>>,
                          rev: map<PackageItemToken, set<PackageItemToken>>, ext: map<PackageItemToken, set<Pypath>>)
    returns (fwd': map<PackageItemToken, set<PackageItemToken>>, rev': map<PackageItemToken, set<PackageItemToken>>,
             ext': map<PackageItemToken, set<Pypath>>)
    ensures fwd' == WithDefaults(fwd, Tokens(items))
    ensures rev' == WithDefaults(rev, Tokens(items))
    ensures ext' == WithDefaults(ext, Tokens(items))
  {
    fwd', rev', ext' := fwd, rev, ext;
    for i := 0 to |items|
      invariant fwd' == WithDefaults(fwd, Tokens(items[..i]))
      invariant rev' == WithDefaults(rev, Tokens(items[..i]))
      invariant ext' == WithDefaults(ext, Tokens(items[..i]))
    {
      var t := Token(items[i]);
      TokensSnoc(items, i);
      if t !in fwd' {
        fwd' := fwd'[t := {}];
      }
      if t !in rev' {
        rev' := rev'[t := {}];
      }
      if t !in ext' {
        ext' := ext'[t := {}];
      }
      DefaultsStep(fwd, Tokens(items[..i]), t, fwd');
      DefaultsStep(rev, Tokens(items[..i]), t, rev');
      DefaultsStep(ext, Tokens(items[..i]), t, ext');
    }
    assert items[..|items|] == items;
  }

  /** One step of the first loop of `remove_imports`, on the three maps it changes. */
  lemma RemovePairStep<K(!new), M>(fwd: map<K, set<K>>, rev: map<K, set<K>>, meta: map<(K, K), M>,
                                    done: set<(K, K)>, f: K, t: K)
    ensures Remove(RemoveAll(fwd, done), f, t) == RemoveAll(fwd, done + {(f, t)})
    ensures Remove(RemoveAll(rev, Flip(done)), t, f) == RemoveAll(rev, Flip(done + {(f, t)}))
    ensures (meta - done) - {(f, t)} == meta - (done + {(f, t)})
  {
    RemoveAllStep(fwd, done, f, t);
    RemoveAllStep(rev, Flip(done), t, f);
    FlipStep(done, f, t);
  }

  /** One step of the second loop of `remove_imports`. */
  lemma RemoveExternalStep<K(!new), V(!new), M>(ext: map<K, set<V>>, meta: map<(K, V), M>, done: set<(K, V)>, f: K, p: V)
    ensures Remove(RemoveAll(ext, done), f, p) == RemoveAll(ext, done + {(f, p)})
    ensures (meta - done) - {(f, p)} == meta - (done + {(f, p)})
  {
    RemoveAllStep(ext, done, f, p);
  }

  lemma TokensSnoc(items: seq<PackageItem>, i: nat)
    requires i < |items|
    ensures Tokens(items[..i + 1]) == Tokens(items[..i]) + {Token(items[i])}
  {
    assert items[..i + 1] == items[..i] + [items[i]];
  }

  /** One `entry(t).or_default()` step of `initialise_maps`. */
  lemma DefaultsStep<K(!new), V(!new)>(m: map<K, set<V>>, ks: set<K>, t: K, m': map<K, set<V>>)
    requires m' == (var w := WithDefaults(m, ks); if t in w then w else w[t := {}])
    ensures m' == WithDefaults(m, ks + {t})
  {
  }

  lemma TargetsNone(info: PackageInfo, o: BuildOptions, imports: seq<ResolvedRawImport>)
    requires WellFormed(info)
    ensures InternalTargets(info, o, imports[..0]) == {} && ExternalTargets(info, o, imports[..0]) == {}
  {
  }

  /** One more import adds its own target, if it has one, and nothing else. */
  lemma TargetsSnoc(info: PackageInfo, o: BuildOptions, imports: seq<ResolvedRawImport>, j: nat)
    requires WellFormed(info) && j < |imports|
    ensures InternalTargets(info, o, imports[..j + 1]) == InternalTargets(info, o, imports[..j])
      + (if Resolves(info, o, imports[j]) then {ResolveInternal(info, imports[j].pypath).value} else {})
    ensures ExternalTargets(info, o, imports[..j + 1]) == ExternalTargets(info, o, imports[..j])
      + (if Outside(info, o, imports[j]) then {imports[j].pypath} else {})
  {
    var a, b := imports[..j], imports[..j + 1];
    assert forall k :: 0 <= k < j ==> b[k] == a[k];
    assert b[j] == imports[j];
  }

  lemma AllNone(info: PackageInfo, o: BuildOptions, raw: seq<ItemImports>)
    requires WellFormed(info)
    ensures AllInternal(info, o, raw[..0]) == {} && AllExternal(info, o, raw[..0]) == {}
  {
  }

  /** One more module adds its own imports, and nothing else. */
  lemma AllSnoc(info: PackageInfo, o: BuildOptions, raw: seq<ItemImports>, i: nat)
    requires WellFormed(info) && i < |raw|
    ensures forall f, t :: (f, t) in AllInternal(info, o, raw[..i + 1]) <==>
      (f, t) in AllInternal(info, o, raw[..i]) || (f == raw[i].item && t in InternalTargets(info, o, raw[i].imports))
    ensures forall f, p :: (f, p) in AllExternal(info, o, raw[..i + 1]) <==>
      (f, p) in AllExternal(info, o, raw[..i]) || (f == raw[i].item && p in ExternalTargets(info, o, raw[i].imports))
  {
    var a, b := raw[..i], raw[..i + 1];
    assert forall k :: 0 <= k < i ==> b[k] == a[k];
    assert b[i] == raw[i];
  }

  lemma InitOfSnoc(ps: seq<Package>, k: nat)
    requires k < |ps|
    ensures ps[k].initModule.Some? ==>
      InitOf(ps[..k + 1]) == InitOf(ps[..k]) + {(PackageToken(ps[k].token), ModuleToken(ps[k].initModule.value))}
    ensures ps[k].initModule.None? ==> InitOf(ps[..k + 1]) == InitOf(ps[..k])
  {
    assert ps[..k + 1] == ps[..k] + [ps[k]];
  }

  /** The packages `get_all_items` lists give exactly the init imports of the arena. */
  lemma InitImportsListed(info: PackageInfo)
    requires WellFormed(info) && Linked(info) && Rooted(info)
    ensures InitOf(FilterAllPackages(GetAllItems(info))) == InitImports(info)
  {
    var ps := FilterAllPackages(GetAllItems(info));
    AllPackagesComplete(info);
    GetAllItemsStored(info);
    forall q | q in InitOf(ps)
      ensures q in InitImports(info)
    {
      var p :| p in ps && p.initModule.Some? && q == (PackageToken(p.token), ModuleToken(p.initModule.value));
      assert PackageEntry(p) in GetAllItems(info);
      assert p == info.packages[p.token];
    }
    forall q | q in InitImports(info)
      ensures q in InitOf(ps)
    {
      var c :| 0 <= c < |info.packages| && info.packages[c].initModule.Some?
        && q == (PackageToken(c), ModuleToken(info.packages[c].initModule.value));
      assert PackageWellFormed(info, c);
      assert info.packages[c] in ps;
    }
  }

  /**
   * The metadata the inner loop of `build_with_options` records for one
   * module: an explicit entry per resolved internal import, a later import
   * of the same item replacing an earlier one.
   */
  function ExplicitMeta(info: PackageInfo, o: BuildOptions, item: PackageItemToken, imports: seq<ResolvedRawImport>)
    : (r: map<(PackageItemToken, PackageItemToken), ImportMetadata>)
    requires WellFormed(info)
    ensures forall q :: q in r <==> q.0 == item && q.1 in InternalTargets(info, o, imports)
    ensures forall q :: q in r ==> r[q].ExplicitImport?
  {
    if imports == [] then map[]
    else
      var n := |imports| - 1;
      var ri := imports[n];
      assert imports[..n + 1] == imports;
      TargetsSnoc(info, o, imports, n);
      var earlier := ExplicitMeta(info, o, item, imports[..n]);
      if Resolves(info, o, ri) then
        earlier[(item, ResolveInternal(info, ri.pypath).value) := ExplicitImport(ri.lineNumber, ri.isTypechecking)]
      else earlier
  }

  /** The same for the external imports one module keeps. */
  function ExternalMeta(info: PackageInfo, o: BuildOptions, item: PackageItemToken, imports: seq<ResolvedRawImport>)
    : (r: map<(PackageItemToken, Pypath), ImportMetadata>)
    requires WellFormed(info)
    ensures forall q :: q in r <==> q.0 == item && q.1 in ExternalTargets(info, o, imports)
    ensures forall q :: q in r ==> r[q].ExplicitImport?
  {
    if imports == [] then map[]
    else
      var n := |imports| - 1;
      var ri := imports[n];
      assert imports[..n + 1] == imports;
      TargetsSnoc(info, o, imports, n);
      var earlier := ExternalMeta(info, o, item, imports[..n]);
      if Outside(info, o, ri) then earlier[(item, ri.pypath) := ExplicitImport(ri.lineNumber, ri.isTypechecking)]
      else earlier
  }

  /** Implicit metadata on every pair of `s`. */
  function Implicit<K>(s: set<K>): map<K, ImportMetadata>
  {
    map q | q in s :: ImplicitImport
  }

  /**
   * The internal metadata the outer loop of `build_with_options` records:
   * the metadata of each module of `raw`, merged in listing order.
   */
  function AllExplicitMeta(info: PackageInfo, o: BuildOptions, raw: seq<ItemImports>)
    : (r: map<(PackageItemToken, PackageItemToken), ImportMetadata>)
    requires WellFormed(info)
    ensures forall q :: q in r <==> q in AllInternal(info, o, raw)
    ensures forall q :: q in r ==> r[q].ExplicitImport?
    decreases |raw|
  {
    if raw == [] then map[]
    else
      var n := |raw| - 1;
      assert raw[..n + 1] == raw;
      AllSnoc(info, o, raw, n);
      AllExplicitMeta(info, o, raw[..n]) + ExplicitMeta(info, o, raw[n].item, raw[n].imports)
  }

  /** The same for the external metadata. */
  function AllExternalMeta(info: PackageInfo, o: BuildOptions, raw: seq<ItemImports>)
    : (r: map<(PackageItemToken, Pypath), ImportMetadata>)
    requires WellFormed(info)
    ensures forall q :: q in r <==> q in AllExternal(info, o, raw)
    ensures forall q :: q in r ==> r[q].ExplicitImport?
    decreases |raw|
  {
    if raw == [] then map[]
    else
      var n := |raw| - 1;
      assert raw[..n + 1] == raw;
      AllSnoc(info, o, raw, n);
      AllExternalMeta(info, o, raw[..n]) + ExternalMeta(info, o, raw[n].item, raw[n].imports)
  }

  /** `imports[j]` is the last counted import of `imports` that resolves to `t`. */
  ghost predicate LastResolving(info: PackageInfo, o: BuildOptions, imports: seq<ResolvedRawImport>, j: int, t: PackageItemToken)
    requires WellFormed(info)
  {
    && 0 <= j < |imports| && Resolves(info, o, imports[j]) && ResolveInternal(info, imports[j].pypath).value == t
    && forall k :: j < k < |imports| ==> !(Resolves(info, o, imports[k]) && ResolveInternal(info, imports[k].pypath).value == t)
  }

  /** `imports[j]` is the last kept external import of `imports` with pypath `p`. */
  ghost predicate LastOutside(info: PackageInfo, o: BuildOptions, imports: seq<ResolvedRawImport>, j: int, p: Pypath)
    requires WellFormed(info)
  {
    && 0 <= j < |imports| && Outside(info, o, imports[j]) && imports[j].pypath == p
    && forall k :: j < k < |imports| ==> !(Outside(info, o, imports[k]) && imports[k].pypath == p)
  }

  /** An import of `imports[..n]` stays the last one when `imports[n]` does not compete. */
  lemma LastResolvingSnoc(info: PackageInfo, o: BuildOptions, imports: seq<ResolvedRawImport>, j: int, t: PackageItemToken)
    requires WellFormed(info) && |imports| > 0
    requires LastResolving(info, o, imports[..|imports| - 1], j, t)
    requires var ri := imports[|imports| - 1]; !(Resolves(info, o, ri) && ResolveInternal(info, ri.pypath).value == t)
    ensures LastResolving(info, o, imports, j, t)
  {
    var n := |imports| - 1;
    assert imports[..n][j] == imports[j];
    assert forall k :: j < k < n ==> imports[..n][k] == imports[k];
  }

  lemma LastOutsideSnoc(info: PackageInfo, o: BuildOptions, imports: seq<ResolvedRawImport>, j: int, p: Pypath)
    requires WellFormed(info) && |imports| > 0
    requires LastOutside(info, o, imports[..|imports| - 1], j, p)
    requires var ri := imports[|imports| - 1]; !(Outside(info, o, ri) && ri.pypath == p)
    ensures LastOutside(info, o, imports, j, p)
  {
    var n := |imports| - 1;
    assert imports[..n][j] == imports[j];
    assert forall k :: j < k < n ==> imports[..n][k] == imports[k];
  }

  /** The last import of a module either sets one entry or leaves the earlier metadata alone. */
  lemma ExplicitMetaUnfold(info: PackageInfo, o: BuildOptions, item: PackageItemToken, imports: seq<ResolvedRawImport>)
    requires WellFormed(info) && |imports| > 0
    ensures var n := |imports| - 1; var ri := imports[n];
      ExplicitMeta(info, o, item, imports) ==
        if Resolves(info, o, ri)
        then ExplicitMeta(info, o, item, imports[..n])[(item, ResolveInternal(info, ri.pypath).value) := ExplicitImport(ri.lineNumber, ri.isTypechecking)]
        else ExplicitMeta(info, o, item, imports[..n])
    ensures var n := |imports| - 1; var ri := imports[n];
      ExternalMeta(info, o, item, imports) ==
        if Outside(info, o, ri)
        then ExternalMeta(info, o, item, imports[..n])[(item, ri.pypath) := ExplicitImport(ri.lineNumber, ri.isTypechecking)]
        else ExternalMeta(info, o, item, imports[..n])
  {
  }

  /**
   * Each internal entry of one module carries the line and the flag of the
   * last counted import of that module that resolves to its target.
   */
  lemma {:induction false} ExplicitMetaFrom(info: PackageInfo, o: BuildOptions, item: PackageItemToken,
                                            imports: seq<ResolvedRawImport>, q: (PackageItemToken, PackageItemToken))
    requires WellFormed(info) && q in ExplicitMeta(info, o, item, imports)
    ensures exists j ::
      && LastResolving(info, o, imports, j, q.1)
      && ExplicitMeta(info, o, item, imports)[q] == ExplicitImport(imports[j].lineNumber, imports[j].isTypechecking)
    decreases |imports|
  {
    var n := |imports| - 1;
    var ri := imports[n];
    ExplicitMetaUnfold(info, o, item, imports);
    if Resolves(info, o, ri) && q.1 == ResolveInternal(info, ri.pypath).value {
      assert LastResolving(info, o, imports, n, q.1);
    } else {
      ExplicitMetaFrom(info, o, item, imports[..n], q);
      var j :| LastResolving(info, o, imports[..n], j, q.1) &&
        ExplicitMeta(info, o, item, imports[..n])[q] == ExplicitImport(imports[..n][j].lineNumber, imports[..n][j].isTypechecking);
      LastResolvingSnoc(info, o, imports, j, q.1);
      assert imports[..n][j] == imports[j];
    }
  }

  /**
   * Each external entry of one module carries the line and the flag of the
   * last kept external import of that module with its pypath.
   */
  lemma {:induction false} ExternalMetaFrom(info: PackageInfo, o: BuildOptions, item: PackageItemToken,
                                            imports: seq<ResolvedRawImport>, q: (PackageItemToken, Pypath))
    requires WellFormed(info) && q in ExternalMeta(info, o, item, imports)
    ensures exists j ::
      && LastOutside(info, o, imports, j, q.1)
      && ExternalMeta(info, o, item, imports)[q] == ExplicitImport(imports[j].lineNumber, imports[j].isTypechecking)
    decreases |imports|
  {
    var n := |imports| - 1;
    var ri := imports[n];
    ExplicitMetaUnfold(info, o, item, imports);
    if Outside(info, o, ri) && q.1 == ri.pypath {
      assert LastOutside(info, o, imports, n, q.1);
    } else {
      ExternalMetaFrom(info, o, item, imports[..n], q);
      var j :| LastOutside(info, o, imports[..n], j, q.1) &&
        ExternalMeta(info, o, item, imports[..n])[q] == ExplicitImport(imports[..n][j].lineNumber, imports[..n][j].isTypechecking);
      LastOutsideSnoc(info, o, imports, j, q.1);
      assert imports[..n][j] == imports[j];
    }
  }

  /** Each internal entry `build_with_options` records comes from a counted raw import of its importer. */
  lemma {:induction false} AllExplicitMetaFrom(info: PackageInfo, o: BuildOptions, raw: seq<ItemImports>,
                                               q: (PackageItemToken, PackageItemToken))
    requires WellFormed(info) && q in AllExplicitMeta(info, o, raw)
    ensures exists i, j ::
      && 0 <= i < |raw|
      && raw[i].item == q.0
      && LastResolving(info, o, raw[i].imports, j, q.1)
      && AllExplicitMeta(info, o, raw)[q] == ExplicitImport(raw[i].imports[j].lineNumber, raw[i].imports[j].isTypechecking)
    decreases |raw|
  {
    var n := |raw| - 1;
    assert raw[..n + 1] == raw;
    var m := ExplicitMeta(info, o, raw[n].item, raw[n].imports);
    if q in m {
      ExplicitMetaFrom(info, o, raw[n].item, raw[n].imports, q);
      var j :| LastResolving(info, o, raw[n].imports, j, q.1) &&
        m[q] == ExplicitImport(raw[n].imports[j].lineNumber, raw[n].imports[j].isTypechecking);
      assert AllExplicitMeta(info, o, raw)[q] == m[q];
    } else {
      AllExplicitMetaFrom(info, o, raw[..n], q);
      var i, j :| 0 <= i < n && raw[..n][i].item == q.0 && LastResolving(info, o, raw[..n][i].imports, j, q.1) &&
        AllExplicitMeta(info, o, raw[..n])[q] == ExplicitImport(raw[..n][i].imports[j].lineNumber, raw[..n][i].imports[j].isTypechecking);
      assert raw[..n][i] == raw[i];
      assert AllExplicitMeta(info, o, raw)[q] == AllExplicitMeta(info, o, raw[..n])[q];
    }
  }

  /** Each external entry `build_with_options` records comes from a kept raw import of its importer. */
  lemma {:induction false} AllExternalMetaFrom(info: PackageInfo, o: BuildOptions, raw: seq<ItemImports>,
                                               q: (PackageItemToken, Pypath))
    requires WellFormed(info) && q in AllExternalMeta(info, o, raw)
    ensures exists i, j ::
      && 0 <= i < |raw|
      && raw[i].item == q.0
      && LastOutside(info, o, raw[i].imports, j, q.1)
      && AllExternalMeta(info, o, raw)[q] == ExplicitImport(raw[i].imports[j].lineNumber, raw[i].imports[j].isTypechecking)
    decreases |raw|
  {
    var n := |raw| - 1;
    assert raw[..n + 1] == raw;
    var m := ExternalMeta(info, o, raw[n].item, raw[n].imports);
    if q in m {
      ExternalMetaFrom(info, o, raw[n].item, raw[n].imports, q);
      var j :| LastOutside(info, o, raw[n].imports, j, q.1) &&
        m[q] == ExplicitImport(raw[n].imports[j].lineNumber, raw[n].imports[j].isTypechecking);
      assert AllExternalMeta(info, o, raw)[q] == m[q];
    } else {
      AllExternalMetaFrom(info, o, raw[..n], q);
      var i, j :| 0 <= i < n && raw[..n][i].item == q.0 && LastOutside(info, o, raw[..n][i].imports, j, q.1) &&
        AllExternalMeta(info, o, raw[..n])[q] == ExplicitImport(raw[..n][i].imports[j].lineNumber, raw[..n][i].imports[j].isTypechecking);
      assert raw[..n][i] == raw[i];
      assert AllExternalMeta(info, o, raw)[q] == AllExternalMeta(info, o, raw[..n])[q];
    }
  }

  /**
   * Built with typechecking imports excluded, the store holds no import
   * that `remove_typechecking_imports` would remove.
   */
  lemma NoTypecheckingRecorded(info: PackageInfo, o: BuildOptions, raw: seq<ItemImports>)
    requires WellFormed(info) && !o.includeTypecheckingImports
    ensures TypecheckingImports(Implicit(InitImports(info)) + AllExplicitMeta(info, o, raw)) == {}
    ensures TypecheckingImports(AllExternalMeta(info, o, raw)) == {}
  {
    var meta := Implicit(InitImports(info)) + AllExplicitMeta(info, o, raw);
    forall q | q in AllExplicitMeta(info, o, raw)
      ensures !meta[q].isTypechecking
    {
      AllExplicitMetaFrom(info, o, raw, q);
    }
    forall q | q in AllExternalMeta(info, o, raw)
      ensures !AllExternalMeta(info, o, raw)[q].isTypechecking
    {
      AllExternalMetaFrom(info, o, raw, q);
    }
  }

  /** One more module merges in its own metadata. */
  lemma MetaSnoc(info: PackageInfo, o: BuildOptions, raw: seq<ItemImports>, i: nat,
                 meta: map<(PackageItemToken, PackageItemToken), ImportMetadata>,
                 extMeta: map<(PackageItemToken, Pypath), ImportMetadata>)
    requires WellFormed(info) && i < |raw|
    ensures (meta + AllExplicitMeta(info, o, raw[..i])) + ExplicitMeta(info, o, raw[i].item, raw[i].imports)
      == meta + AllExplicitMeta(info, o, raw[..i + 1])
    ensures (extMeta + AllExternalMeta(info, o, raw[..i])) + ExternalMeta(info, o, raw[i].item, raw[i].imports)
      == extMeta + AllExternalMeta(info, o, raw[..i + 1])
  {
    var b := raw[..i + 1];
    assert b[..i] == raw[..i] && b[i] == raw[i];
    MergeAssoc(meta, AllExplicitMeta(info, o, raw[..i]), ExplicitMeta(info, o, raw[i].item, raw[i].imports));
    MergeAssoc(extMeta, AllExternalMeta(info, o, raw[..i]), ExternalMeta(info, o, raw[i].item, raw[i].imports));
  }

  lemma MergeAssoc<K, V>(a: map<K, V>, b: map<K, V>, c: map<K, V>)
    ensures (a + b) + c == a + (b + c)
  {
  }

  lemma MergeEmpty<K, V>(a: map<K, V>)
    ensures map[] + a == a && a + map[] == a
  {
  }

  /** `fwd'` and `meta'` hold the init imports of the first `k` packages on top of `fwd` and `meta`. */
  ghost predicate ImplicitState(packages: seq<Package>, k: nat, fwd: map<PackageItemToken, set<PackageItemToken>>,
                                meta: map<(PackageItemToken, PackageItemToken), ImportMetadata>,
                                fwd': map<PackageItemToken, set<PackageItemToken>>,
                                meta': map<(PackageItemToken, PackageItemToken), ImportMetadata>)
    requires k <= |packages|
  {
    && fwd' == AddAll(fwd, InitOf(packages[..k]))
    && ImplicitOn(meta', InitOf(packages[..k]))
    && meta' == meta + Implicit(InitOf(packages[..k]))
  }

  /** A package with an init module adds its implicit import. */
  lemma ImplicitStateStep(packages: seq<Package>, k: nat, fwd: map<PackageItemToken, set<PackageItemToken>>,
                          meta: map<(PackageItemToken, PackageItemToken), ImportMetadata>,
                          fwd': map<PackageItemToken, set<PackageItemToken>>,
                          meta': map<(PackageItemToken, PackageItemToken), ImportMetadata>)
    requires k < |packages| && packages[k].initModule.Some? && ImplicitState(packages, k, fwd, meta, fwd', meta')
    ensures var q := (PackageToken(packages[k].token), ModuleToken(packages[k].initModule.value));
      ImplicitState(packages, k + 1, fwd, meta, Insert(fwd', q.0, q.1), meta'[q := ImplicitImport])
  {
    var q := (PackageToken(packages[k].token), ModuleToken(packages[k].initModule.value));
    var s := InitOf(packages[..k]);
    InitOfSnoc(packages, k);
    assert InitOf(packages[..k + 1]) == s + {q};
    AddAllStep(fwd, s, q.0, q.1);
    ImplicitStep(meta, s, q);
    ImplicitOnStep(meta', s, q);
  }

  lemma ImplicitOnStep<K(!new)>(meta: map<K, ImportMetadata>, s: set<K>, q: K)
    requires ImplicitOn(meta, s)
    ensures ImplicitOn(meta[q := ImplicitImport], s + {q})
  {
  }

  /** A package without an init module adds nothing. */
  lemma ImplicitStateSkip(packages: seq<Package>, k: nat, fwd: map<PackageItemToken, set<PackageItemToken>>,
                          meta: map<(PackageItemToken, PackageItemToken), ImportMetadata>,
                          fwd': map<PackageItemToken, set<PackageItemToken>>,
                          meta': map<(PackageItemToken, PackageItemToken), ImportMetadata>)
    requires k < |packages| && packages[k].initModule.None? && ImplicitState(packages, k, fwd, meta, fwd', meta')
    ensures ImplicitState(packages, k + 1, fwd, meta, fwd', meta')
  {
    InitOfSnoc(packages, k);
  }

  /** Before the init-module loop no package has been looked at. */
  lemma NoImplicitYet(packages: seq<Package>, fwd: map<PackageItemToken, set<PackageItemToken>>,
                      meta: map<(PackageItemToken, PackageItemToken), ImportMetadata>)
    ensures InitOf(packages[..0]) == {}
    ensures AddAll(fwd, InitOf(packages[..0])) == fwd
    ensures meta + Implicit(InitOf(packages[..0])) == meta
  {
    assert InitOf(packages[..0]) == {};
    AddAllNone(fwd);
    MergeEmpty(meta);
  }

  /** One more implicit import joins the implicit metadata. */
  lemma ImplicitStep<K>(meta: map<K, ImportMetadata>, s: set<K>, q: K)
    ensures (meta + Implicit(s))[q := ImplicitImport] == meta + Implicit(s + {q})
  {
  }

  /** One iteration of the inner loop of `build_with_options`, on the five maps. */
  lemma RawImportStep(info: PackageInfo, o: BuildOptions, item: PackageItemToken, imports: seq<ResolvedRawImport>, j: nat,
                      fwd: map<PackageItemToken, set<PackageItemToken>>, rev: map<PackageItemToken, set<PackageItemToken>>,
                      meta: map<(PackageItemToken, PackageItemToken), ImportMetadata>,
                      ext: map<PackageItemToken, set<Pypath>>, extMeta: map<(PackageItemToken, Pypath), ImportMetadata>)
    requires WellFormed(info) && j < |imports|
    ensures var ri, a, b := imports[j], imports[..j], imports[..j + 1];
      if Resolves(info, o, ri) then
        var t, x := ResolveInternal(info, ri.pypath).value, ExplicitImport(ri.lineNumber, ri.isTypechecking);
        && Insert(InsertAll(fwd, item, InternalTargets(info, o, a)), item, t) == InsertAll(fwd, item, InternalTargets(info, o, b))
        && Insert(InsertInto(rev, InternalTargets(info, o, a), item), t, item) == InsertInto(rev, InternalTargets(info, o, b), item)
        && (meta + ExplicitMeta(info, o, item, a))[(item, t) := x] == meta + ExplicitMeta(info, o, item, b)
      else
        InternalTargets(info, o, b) == InternalTargets(info, o, a) && ExplicitMeta(info, o, item, b) == ExplicitMeta(info, o, item, a)
    ensures var ri, a, b := imports[j], imports[..j], imports[..j + 1];
      if Outside(info, o, ri) then
        var x := ExplicitImport(ri.lineNumber, ri.isTypechecking);
        && Insert(InsertAll(ext, item, ExternalTargets(info, o, a)), item, ri.pypath) == InsertAll(ext, item, ExternalTargets(info, o, b))
        && (extMeta + ExternalMeta(info, o, item, a))[(item, ri.pypath) := x] == extMeta + ExternalMeta(info, o, item, b)
      else
        ExternalTargets(info, o, b) == ExternalTargets(info, o, a) && ExternalMeta(info, o, item, b) == ExternalMeta(info, o, item, a)
  {
    var ri, a, b := imports[j], imports[..j], imports[..j + 1];
    TargetsSnoc(info, o, imports, j);
    assert b[..j] == a;
    assert b[j] == ri;
    if Resolves(info, o, ri) {
      var t, x := ResolveInternal(info, ri.pypath).value, ExplicitImport(ri.lineNumber, ri.isTypechecking);
      InsertAllStep(fwd, item, InternalTargets(info, o, a), t);
      InsertIntoStep(rev, InternalTargets(info, o, a), item, t);
      MergeUpdate(meta, ExplicitMeta(info, o, item, a), (item, t), x);
    }
    if Outside(info, o, ri) {
      InsertAllStep(ext, item, ExternalTargets(info, o, a), ri.pypath);
      MergeUpdate(extMeta, ExternalMeta(info, o, item, a), (item, ri.pypath), ExplicitImport(ri.lineNumber, ri.isTypechecking));
    }
  }

  /** No counted internal import of `s` is unknown. */
  ghost predicate AllResolvable(info: PackageInfo, o: BuildOptions, s: seq<ResolvedRawImport>)
    requires WellFormed(info)
  {
    forall k :: 0 <= k < |s| ==> !Unresolvable(info, o, s[k])
  }

  lemma ResolvableSnoc(info: PackageInfo, o: BuildOptions, s: seq<ResolvedRawImport>, j: nat)
    requires WellFormed(info) && j < |s|
    ensures AllResolvable(info, o, s[..j + 1]) <==> AllResolvable(info, o, s[..j]) && !Unresolvable(info, o, s[j])
  {
    assert forall k :: 0 <= k < j ==> s[..j + 1][k] == s[..j][k];
  }

  /** Implicit metadata for every pair of `s`. */
  function ImplicitMeta(s: set<(PackageItemToken, PackageItemToken)>): (r: map<(PackageItemToken, PackageItemToken), ImportMetadata>)
  {
    map q | q in s :: ImplicitImport
  }

  lemma ImplicitMetaStep(meta: map<(PackageItemToken, PackageItemToken), ImportMetadata>,
                         s: set<(PackageItemToken, PackageItemToken)>, q: (PackageItemToken, PackageItemToken))
    ensures (meta + ImplicitMeta(s))[q := ImplicitImport] == meta + ImplicitMeta(s + {q})
  {
  }

  /** Every item an import resolves to is in the package. */
  lemma TargetsKnown(info: PackageInfo, o: BuildOptions, imports: seq<ResolvedRawImport>)
    requires WellFormed(info)
    ensures forall t :: t in InternalTargets(info, o, imports) ==> Known(info, t)
  {
  }

  /** No counted internal import of any module of `raw` is unknown. */
  ghost predicate RawResolvable(info: PackageInfo, o: BuildOptions, raw: seq<ItemImports>)
    requires WellFormed(info)
  {
    forall i :: 0 <= i < |raw| ==> AllResolvable(info, o, raw[i].imports)
  }

  lemma RawResolvableSnoc(info: PackageInfo, o: BuildOptions, raw: seq<ItemImports>, i: nat)
    requires WellFormed(info) && i < |raw|
    ensures RawResolvable(info, o, raw[..i + 1]) <==> RawResolvable(info, o, raw[..i]) && AllResolvable(info, o, raw[i].imports)
  {
    assert forall k :: 0 <= k < i ==> raw[..i + 1][k] == raw[..i][k];
  }

  /** Every pair of `s` has metadata, and it is explicit. */
  ghost predicate ExplicitOn<K(!new)>(meta: map<K, ImportMetadata>, s: set<K>)
  {
    forall q :: q in s ==> q in meta && meta[q].ExplicitImport?
  }

  /** Every pair of `s` has metadata, and it is implicit. */
  ghost predicate ImplicitOn<K(!new)>(meta: map<K, ImportMetadata>, s: set<K>)
  {
    forall q :: q in s ==> q in meta && meta[q] == ImplicitImport
  }

  /** The init imports start at packages; the explicit ones at modules. */
  lemma InitImportsFromPackages(info: PackageInfo)
    ensures forall q :: q in InitImports(info) ==> q.0.PackageToken?
  {
  }

  /**
   * The metadata of one module's imports, merged in by the outer loop of
   * `build_with_options`, keeps the init imports implicit and every
   * recorded explicit import explicit.
   */
  lemma MetadataStep(info: PackageInfo, o: BuildOptions, raw: seq<ItemImports>, i: nat,
                     meta: map<(PackageItemToken, PackageItemToken), ImportMetadata>,
                     extMeta: map<(PackageItemToken, Pypath), ImportMetadata>)
    requires WellFormed(info) && i < |raw| && raw[i].item.ModuleToken?
    requires ImplicitOn(meta, InitImports(info)) && ExplicitOn(meta, AllInternal(info, o, raw[..i]))
    requires ExplicitOn(extMeta, extMeta.Keys)
    ensures var e := meta + ExplicitMeta(info, o, raw[i].item, raw[i].imports);
      ImplicitOn(e, InitImports(info)) && ExplicitOn(e, AllInternal(info, o, raw[..i + 1]))
    ensures var e := extMeta + ExternalMeta(info, o, raw[i].item, raw[i].imports);
      ExplicitOn(e, e.Keys)
  {
    InitImportsFromPackages(info);
    AllSnoc(info, o, raw, i);
  }

  /** The state the init-module loop of `build_with_options` leaves, stated over the whole arena. */
  lemma InitialState(info: PackageInfo, fwd: map<PackageItemToken, set<PackageItemToken>>,
                     fwd': map<PackageItemToken, set<PackageItemToken>>,
                     meta: map<(PackageItemToken, PackageItemToken), ImportMetadata>)
    requires WellFormed(info) && Linked(info) && Rooted(info)
    requires forall f :: Get(fwd, f) == {}
    requires fwd' == AddAll(fwd, InitOf(FilterAllPackages(GetAllItems(info))))
    requires ImplicitOn(meta, InitOf(FilterAllPackages(GetAllItems(info))))
    ensures forall f, t :: t in Get(fwd', f) <==> (f, t) in InitImports(info)
    ensures ImplicitOn(meta, InitImports(info))
  {
    InitImportsListed(info);
  }

  /** After `initialise_maps` every item of the arena has an entry. */
  /** `get_all_items` lists every item of the arena. */
  ghost predicate Listed(info: PackageInfo)
    requires WellFormed(info)
  {
    forall t :: Known(info, t) ==> t in Tokens(GetAllItems(info))
  }

  /** Every item of the package has an entry in each of the three maps. */
  ghost predicate Covered(info: PackageInfo, fwd: map<PackageItemToken, set<PackageItemToken>>,
                          rev: map<PackageItemToken, set<PackageItemToken>>, ext: map<PackageItemToken, set<Pypath>>)
  {
    forall t :: Known(info, t) ==> t in fwd && t in rev && t in ext
  }

  /** Adding default entries for every item keeps the maps mirrored and annotated, and covers every item. */
  lemma DefaultsKeep<M>(info: PackageInfo, ts: set<PackageItemToken>, fwd: map<PackageItemToken, set<PackageItemToken>>,
                        rev: map<PackageItemToken, set<PackageItemToken>>, meta: map<(PackageItemToken, PackageItemToken), M>,
                        ext: map<PackageItemToken, set<Pypath>>, extMeta: map<(PackageItemToken, Pypath), M>,
                        fwd': map<PackageItemToken, set<PackageItemToken>>, rev': map<PackageItemToken, set<PackageItemToken>>,
                        ext': map<PackageItemToken, set<Pypath>>)
    requires forall t :: Known(info, t) ==> t in ts
    requires Mirrored(fwd, rev) && Annotated(fwd, meta) && Annotated(ext, extMeta)
    requires fwd' == WithDefaults(fwd, ts) && rev' == WithDefaults(rev, ts) && ext' == WithDefaults(ext, ts)
    ensures Mirrored(fwd', rev') && Annotated(fwd', meta) && Annotated(ext', extMeta)
    ensures Covered(info, fwd', rev', ext')
  {
    WithDefaultsMirrored(fwd, rev, ts);
    WithDefaultsAnnotated(fwd, meta, ts);
    WithDefaultsAnnotated(ext, extMeta, ts);
  }
}
