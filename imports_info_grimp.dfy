/**
 * `build_imports_info` of src/imports_info/grimp_compare.rs: an `ImportsInfo`
 * filled from a map of module pypath to imported pypaths. Every package
 * imports its init module implicitly; every listed import becomes an
 * internal import with line number 1, not under TYPE_CHECKING, attributed to
 * the init module when the importer named is a package.
 */
module ImportsInfoGrimp {
  import opened Wrappers
  import opened Pypaths
  import opened PackageInfos
  import opened ImportsInfos
  import opened Adjacency
  import opened SetOrder

  /** The metadata every listed import gets. */
  const Listed: ImportMetadata := ExplicitImport(1, false)

  /**
   * The importer an entry under `f` is attributed to: the module `f` names,
   * or the init module of the package `f` names; nothing when `f` names no
   * item or a package without an init module (where the source unwraps).
   */
  function Source(info: PackageInfo, f: Pypath): (r: Option<PackageItemToken>)
    requires WellFormed(info)
    ensures r.Some? ==> r.value.ModuleToken? && Known(info, r.value)
    ensures r.Some? <==>
      || (f in info.packagesByPypath && info.packages[info.packagesByPypath[f]].initModule.Some?)
      || (f !in info.packagesByPypath && f in info.modulesByPypath)
    ensures r.Some? && f in info.packagesByPypath ==>
      r.value == ModuleToken(info.packages[info.packagesByPypath[f]].initModule.value)
  {
    ByPypathStored(info, f);
    match GetItemByPypath(info, f)
    case None => None
    case Some(PackageEntry(p)) =>
      assert PackageWellFormed(info, p.token);
      if p.initModule.Some? then Some(ModuleToken(p.initModule.value)) else None
    case Some(ModuleEntry(m)) => Some(ModuleToken(m.token))
  }

  /** The item a listed target names: the package of that pypath if there is one, else the module. */
  function Target(info: PackageInfo, t: Pypath): (r: Option<PackageItemToken>)
    requires WellFormed(info)
    ensures r.Some? <==> t in info.packagesByPypath || t in info.modulesByPypath
    ensures r.Some? ==> Known(info, r.value) && ItemPypath(ItemAt(info, r.value)) == ItemPypath(GetItemByPypath(info, t).value)
  {
    ByPypathStored(info, t);
    match GetItemByPypath(info, t)
    case None => None
    case Some(item) => Some(Token(item))
  }

  /** Every importer and every target of `data` names an item: what the unwraps demand. */
  ghost predicate Resolvable(info: PackageInfo, data: map<Pypath, set<Pypath>>)
    requires WellFormed(info)
  {
    forall f :: f in data ==> Source(info, f).Some? && forall t :: t in data[f] ==> Target(info, t).Some?
  }

  /** The items a sequence of listed targets names. */
  function TargetsOf(info: PackageInfo, ts: seq<Pypath>): (r: set<PackageItemToken>)
    requires WellFormed(info) && forall t :: t in ts ==> Target(info, t).Some?
    ensures forall x :: x in r <==> exists t :: t in ts && x == Target(info, t).value
  {
    set t | t in ts :: Target(info, t).value
  }

  /** The imports listed under the keys of `ks`, as pairs of items. */
  function PairsOf(info: PackageInfo, data: map<Pypath, set<Pypath>>, ks: seq<Pypath>): set<(PackageItemToken, PackageItemToken)>
    requires WellFormed(info) && Resolvable(info, data)
  {
    set f, t | f in ks && f in data && t in data[f] :: (Source(info, f).value, Target(info, t).value)
  }

  /** All the imports `data` lists, as pairs of items. */
  function ListedImports(info: PackageInfo, data: map<Pypath, set<Pypath>>): set<(PackageItemToken, PackageItemToken)>
    requires WellFormed(info) && Resolvable(info, data)
  {
    set f, t | f in data && t in data[f] :: (Source(info, f).value, Target(info, t).value)
  }

  /** Every pair of `s` has the listed metadata. */
  ghost predicate ListedOn(meta: map<(PackageItemToken, PackageItemToken), ImportMetadata>, s: set<(PackageItemToken, PackageItemToken)>)
  {
    forall q :: q in s ==> q in meta && meta[q] == Listed
  }

  /** Listed metadata for `from` importing each of `ts`. */
  function ListedMeta(from: PackageItemToken, ts: set<PackageItemToken>): (r: map<(PackageItemToken, PackageItemToken), ImportMetadata>)
    ensures forall q :: q in r <==> q.0 == from && q.1 in ts
    ensures forall q :: q in r ==> r[q] == Listed
  {
    map t | t in ts :: (from, t) := Listed
  }

  /**
   * `build_imports_info`: every item has an entry; the internal imports are
   * the init imports of the packages and the listed imports; the init
   * imports are implicit and the listed ones carry line 1 outside
   * TYPE_CHECKING; there are no external imports.
   */
  method BuildImportsInfo(info: PackageInfo, data: map<Pypath, set<Pypath>>) returns (ii: ImportsInfo)
    requires WellFormed(info) && Linked(info) && Rooted(info) && Resolvable(info, data)
    ensures fresh(ii) && ii.packageInfo == info && ii.Valid() && ii.Initialised()
    ensures forall f, t :: t in Get(ii.internalImports, f) <==> (f, t) in InitImports(info) || (f, t) in ListedImports(info, data)
    ensures ImplicitOn(ii.internalImportsMetadata, InitImports(info))
    ensures ListedOn(ii.internalImportsMetadata, ListedImports(info, data))
    ensures forall f :: Get(ii.externalImports, f) == {}
    ensures ii.externalImportsMetadata == map[]
  {
    ii := ImportsInfo.WithImplicitImports(info);
    var keys := Enumerate(data.Keys);
    AddListed(ii, data, keys);
    PairsOfAll(info, data, keys);
  }

  /** The outer loop of `build_imports_info`, over the keys of `data` in the order `ks` lists them. */
  method AddListed(ii: ImportsInfo, data: map<Pypath, set<Pypath>>, ks: seq<Pypath>)
    requires ii.Valid() && ii.Initialised() && Resolvable(ii.packageInfo, data)
    requires ImplicitOn(ii.internalImportsMetadata, InitImports(ii.packageInfo))
    requires forall k :: k in ks ==> k in data
    modifies ii
    ensures ii.Valid() && ii.Initialised()
    ensures ii.internalImports == AddAll(old(ii.internalImports), PairsOf(ii.packageInfo, data, ks))
    ensures ImplicitOn(ii.internalImportsMetadata, InitImports(ii.packageInfo))
    ensures ListedOn(ii.internalImportsMetadata, PairsOf(ii.packageInfo, data, ks))
    ensures ii.externalImports == old(ii.externalImports) && ii.externalImportsMetadata == old(ii.externalImportsMetadata)
  {
    var info := ii.packageInfo;
    assert PairsOf(info, data, ks[..0]) == {};
    AddAllNone(ii.internalImports);
    for i := 0 to |ks|
      invariant ii.Valid() && ii.Initialised()
      invariant ii.internalImports == AddAll(old(ii.internalImports), PairsOf(info, data, ks[..i]))
      invariant ImplicitOn(ii.internalImportsMetadata, InitImports(info))
      invariant ListedOn(ii.internalImportsMetadata, PairsOf(info, data, ks[..i]))
      invariant ii.externalImports == old(ii.externalImports) && ii.externalImportsMetadata == old(ii.externalImportsMetadata)
    {
      var from := Source(info, ks[i]).value;
      var targets := Enumerate(data[ks[i]]);
      PairsStep(info, data, ks, i, targets);
      AddAllInsertAll(old(ii.internalImports), PairsOf(info, data, ks[..i]), from, TargetsOf(info, targets),
        PairsOf(info, data, ks[..i + 1]));
      ListedStep(info, ii.internalImportsMetadata, PairsOf(info, data, ks[..i]), from, TargetsOf(info, targets),
        PairsOf(info, data, ks[..i + 1]));
      AddTargets(ii, from, targets);
    }
    assert ks[..|ks|] == ks;
  }

  /** The inner loop of `build_imports_info`: `from` imports every listed target, in the order `ts` lists them, with the listed metadata. */
  method AddTargets(ii: ImportsInfo, from: PackageItemToken, ts: seq<Pypath>)
    requires ii.Valid() && ii.Initialised() && from in ii.internalImports
    requires forall t :: t in ts ==> Target(ii.packageInfo, t).Some?
    modifies ii
    ensures ii.Valid() && ii.Initialised()
    ensures ii.internalImports == InsertAll(old(ii.internalImports), from, TargetsOf(ii.packageInfo, ts))
    ensures ii.reverseInternalImports == InsertInto(old(ii.reverseInternalImports), TargetsOf(ii.packageInfo, ts), from)
    ensures ii.internalImportsMetadata == old(ii.internalImportsMetadata) + ListedMeta(from, TargetsOf(ii.packageInfo, ts))
    ensures ii.externalImports == old(ii.externalImports) && ii.externalImportsMetadata == old(ii.externalImportsMetadata)
  {
    var info := ii.packageInfo;
    assert TargetsOf(info, ts[..0]) == {};
    InsertAllNone(ii.internalImports, from);
    InsertIntoNone(ii.reverseInternalImports, from);
    assert ii.internalImportsMetadata + ListedMeta(from, {}) == ii.internalImportsMetadata;
    for j := 0 to |ts|
      invariant ii.Valid() && ii.Initialised()
      invariant ii.internalImports == InsertAll(old(ii.internalImports), from, TargetsOf(info, ts[..j]))
      invariant ii.reverseInternalImports == InsertInto(old(ii.reverseInternalImports), TargetsOf(info, ts[..j]), from)
      invariant ii.internalImportsMetadata == old(ii.internalImportsMetadata) + ListedMeta(from, TargetsOf(info, ts[..j]))
      invariant ii.externalImports == old(ii.externalImports) && ii.externalImportsMetadata == old(ii.externalImportsMetadata)
    {
      var to := Target(info, ts[j]).value;
      TargetsStep(info, ts, j);
      InsertAllStep(old(ii.internalImports), from, TargetsOf(info, ts[..j]), to);
      InsertIntoStep(old(ii.reverseInternalImports), TargetsOf(info, ts[..j]), from, to);
      ListedMetaStep(old(ii.internalImportsMetadata), from, TargetsOf(info, ts[..j]), to);
      ii.AddInternalImport(from, to, Listed);
    }
    assert ts[..|ts|] == ts;
  }

  lemma TargetsStep(info: PackageInfo, ts: seq<Pypath>, j: nat)
    requires WellFormed(info) && j < |ts| && forall t :: t in ts ==> Target(info, t).Some?
    ensures TargetsOf(info, ts[..j + 1]) == TargetsOf(info, ts[..j]) + {Target(info, ts[j]).value}
  {
    assert ts[..j + 1] == ts[..j] + [ts[j]];
  }

  lemma ListedMetaStep(meta: map<(PackageItemToken, PackageItemToken), ImportMetadata>, from: PackageItemToken,
                       ts: set<PackageItemToken>, to: PackageItemToken)
    ensures (meta + ListedMeta(from, ts))[(from, to) := Listed] == meta + ListedMeta(from, ts + {to})
  {
  }

  /** Adding the entry of one more key adds its listed targets under its attributed item. */
  lemma PairsStep(info: PackageInfo, data: map<Pypath, set<Pypath>>, ks: seq<Pypath>, i: nat, targets: seq<Pypath>)
    requires WellFormed(info) && Resolvable(info, data) && i < |ks| && ks[i] in data
    requires forall t :: t in targets <==> t in data[ks[i]]
    ensures forall x, y :: (x, y) in PairsOf(info, data, ks[..i + 1]) <==>
      (x, y) in PairsOf(info, data, ks[..i]) || (x == Source(info, ks[i]).value && y in TargetsOf(info, targets))
  {
    assert ks[..i + 1] == ks[..i] + [ks[i]];
    forall x, y | x == Source(info, ks[i]).value && y in TargetsOf(info, targets)
      ensures (x, y) in PairsOf(info, data, ks[..i + 1])
    {
      var t :| t in targets && y == Target(info, t).value;
      assert ks[i] in ks[..i + 1];
    }
  }

  /** The listed pairs start at modules, so their metadata never overwrites an init import's. */
  lemma ListedStep(info: PackageInfo, meta: map<(PackageItemToken, PackageItemToken), ImportMetadata>,
                   s: set<(PackageItemToken, PackageItemToken)>, from: PackageItemToken, ts: set<PackageItemToken>,
                   s': set<(PackageItemToken, PackageItemToken)>)
    requires from.ModuleToken? && ImplicitOn(meta, InitImports(info)) && ListedOn(meta, s)
    requires forall x, y :: (x, y) in s' <==> (x, y) in s || (x == from && y in ts)
    ensures ImplicitOn(meta + ListedMeta(from, ts), InitImports(info))
    ensures ListedOn(meta + ListedMeta(from, ts), s')
  {
    InitImportsFromPackages(info);
    var m := meta + ListedMeta(from, ts);
    forall q | q in s'
      ensures q in m && m[q] == Listed
    {
      if q !in ListedMeta(from, ts) {
        assert q in s;
      }
    }
  }

  /** Listing every key lists every import of `data`. */
  lemma PairsOfAll(info: PackageInfo, data: map<Pypath, set<Pypath>>, ks: seq<Pypath>)
    requires WellFormed(info) && Resolvable(info, data)
    requires forall f :: f in ks <==> f in data
    ensures PairsOf(info, data, ks) == ListedImports(info, data)
  {
  }

  /** A listed import of a package's pypath is recorded as an import of its init module. */
  lemma PackageEntryGoesToInit(info: PackageInfo, data: map<Pypath, set<Pypath>>, f: Pypath, t: Pypath)
    requires WellFormed(info) && Resolvable(info, data)
    requires f in data && t in data[f] && f in info.packagesByPypath
    ensures (ModuleToken(info.packages[info.packagesByPypath[f]].initModule.value), Target(info, t).value)
      in ListedImports(info, data)
  {
  }
}
