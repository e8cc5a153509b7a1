# pyimports, modelled in Dafny

pyimports analyses the imports of a Python package. It works in four steps:

1. It discovers the package on disk: the directories holding an `__init__.py` are packages and the `.py` files are modules.
2. It names each item by its dotted path, its "pypath".
3. It reads the `import` and `from ... import` statements of every module and resolves them to internal items or external pypaths.
4. It answers questions about the resulting import maps: direct imports, downstream and upstream items, shortest import paths, paths that avoid given items.

On top of the queries it checks architectural contracts:

- forbidden internal imports;
- forbidden external imports;
- independent items;
- layered architectures.

The repository holds several generations of the same components, and each is modelled against its own data types:

| generation | source | Dafny modules |
|---|---|---|
| string-keyed tree | `src/package_discovery.rs`, `src/indexing.rs`, `src/import_discovery.rs` | `LegacyPackageDiscovery`, `LegacyIndexing`, `LegacyImportDiscovery` |
| import graph | `src/import_graph/*` | `GraphPackageDiscovery`, `GraphIndexing`, `GraphImportDiscovery`, `ImportGraphs`, `GraphSearch` |
| two arenas with string pypaths | `src/package_discovery/mod.rs`, `src/package_queries/mod.rs`, `src/import_discovery/*` | `ArenaPackages`, `ArenaQueries`, `ArenaImports`, `OneFile` |
| `Pypath` and item tokens | `src/pypath.rs`, `src/utils.rs`, `src/parse/*`, `src/package_info/*`, `src/imports_info/*`, `src/contracts/*` | `Pypaths`, `FsPaths`, `Parse`, `RawImportVisitor`, `PackageItems`, `PackageInfos`, `PackageInfoGrimp`, `ImportsInfos`, `ImportsInfoParse`, `ImportsInfoGrimp`, `InternalImportsQueries`, `ExternalImportsQueries`, `Contracts`, `ForbiddenContracts`, `Independent`, `Layers`, `LegacyLayers` |

The model follows the form of the source:

- Builders that fill arenas and index maps in a loop are methods with loop invariants. Each is proved against a function or predicate that says what the finished structure holds.
- Objects updated in place are classes, such as the import maps, the import visitors and the contract builders.
- Queries over read-only data are functions. Where the source walks a stack or a worklist, the query is a method proved against a reference definition.
- `HashMap<K, HashSet<V>>` is a `map<K, set<V>>`. The mirrored forward and reverse maps carry the invariant that they are mirror images of each other.
- The filesystem is an abstract listing or directory tree given as a value.
- A parsed Python module is a small statement tree (`Ast`).
- The breadth-first searches of the `pathfinding` crate are the project's own searches (`GraphSearch`). They are proved to return a shortest path, or to find none exactly when no path exists.

## Model

| member | source | states |
|---|---|---|
| Adjacency.Insert | src/imports_info/mod.rs:307-320 | `entry(k).or_default().insert(v)`: the key gains an entry, the pair is added and every other pair is unchanged |
| Adjacency.Remove | src/imports_info/mod.rs:322-338 | removal guarded by `contains_key`: no key is created, exactly the one pair disappears |
| Adjacency.WithDefaults | src/imports_info/mod.rs:295-305 | `entry(k).or_default()` for every item: the keys grow by the items and no stored pair changes |
| Adjacency.InsertMirrored | src/imports_info/mod.rs:307-320 | inserting a pair forward and its reverse keeps the forward and reverse maps exact mirror images |
| Adjacency.RemoveMirrored | src/imports_info/mod.rs:322-338 | removing a pair forward and its reverse keeps the maps mirrored, even when only one side has an entry |
| Adjacency.WithDefaultsMirrored | src/imports_info/mod.rs:295-305 | adding empty entries for the items keeps the maps mirrored |
| Adjacency.InsertAnnotated | src/imports_info/mod.rs:307-320 | recording the metadata of an inserted pair keeps exactly one metadata entry per stored pair |
| Adjacency.RemoveAnnotated | src/imports_info/mod.rs:322-338 | dropping the metadata of a removed pair keeps exactly one metadata entry per stored pair |
| Adjacency.WithDefaultsAnnotated | src/imports_info/mod.rs:295-305 | adding empty entries keeps every stored pair annotated |
| Adjacency.RemoveAll | src/imports_info/mod.rs:241-253 | removing a set of pairs one by one, in any order: the keys stay and a pair survives exactly when it is not listed |
| Adjacency.RemoveAllStep | src/imports_info/mod.rs:246-248 | one more `remove_internal_import` in the loop extends the removed set by that pair, so the order of the loop does not matter |
| Pypaths.FromStr | src/pypath.rs:44-50 | a string is accepted exactly when it matches `^\w+(\.\w+)*$`; an accepted string is kept as it is and a rejected one gives `InvalidPypath` |
| Pypaths.AcceptsJoinedWords | src/pypath.rs:15-17 | any one or more words joined by dots is accepted |
| Pypaths.AcceptedIsJoinedWords | src/pypath.rs:15-17 | whatever is accepted is one or more words joined by dots |
| Pypaths.RejectsLeadingDot | src/pypath.rs:44-50 | a relative path (leading dot) is rejected |
| Pypaths.RejectsTrailingDot | src/pypath.rs:44-50 | a trailing dot is rejected |
| Pypaths.RejectsDoubleDot | src/pypath.rs:44-50 | two consecutive dots are rejected |
| Pypaths.AncestorIffPiecePrefix | src/pypath.rs:75-77 | the prefix-plus-dot test holds exactly when the dotted pieces of one path are a prefix of the other's, so `foo.bar` is not an ancestor of `foo.barbaz` |
| Pypaths.DescendantIffPiecePrefix | src/pypath.rs:90-92 | the descendant test is the ancestor test with its arguments swapped |
| Pypaths.AncestorIsPartialOrder | src/pypath.rs:75-77 | equal-to-or-ancestor-of is reflexive, antisymmetric and transitive |
| Pypaths.ParentDropsLastPiece | src/pypath.rs:104-108 | `parent` drops exactly the last dotted piece and gives a proper ancestor; a single piece has the empty parent |
| Pypaths.ParentOfValidIsValid | src/pypath.rs:104-108 | the parent of a valid path with at least one dot is itself valid |
| Pypaths.InternalExternalPartition | src/pypath.rs:130-157 | every path is exactly one of internal and external, and the parent of an internal path below the root is internal |
| Pypaths.FromPath | src/pypath.rs:54-62 | `from_path` succeeds exactly when `path_to_pypath` does, with the same text, unvalidated |
| FsPaths.NthParent | src/parse/mod.rs:162-166 | `parent()` applied n times drops exactly the last n components, giving a prefix of the path |
| FsPaths.PathToPypath | src/utils.rs:4-11 | the conversion succeeds exactly when the path lies below the directory holding the root, and its result contains no '/' |
| FsPaths.PathToPypathPieces | src/utils.rs:4-11 | for a path of plain names below the root's parent, the result is the relative components, the last without ".py", joined by dots |
| FsPaths.StripPyOfLast | src/utils.rs:4-11 | stripping ".py" from the joined path only touches the last component |
| FsPaths.ReplaceJoin | src/utils.rs:4-11 | replacing '/' by '.' in a join of separator-free names changes the separator and nothing else |
| FsPaths.RootMapsToItsName | src/utils.rs:4-11 | the root directory itself maps to its own name |
| ArenaPackages.NewPackage | src/package_discovery/mod.rs:26-42 | a new package has the given token, parent and path, no children, no init module, and the pypath `path_to_pypath` gives for its path |
| ArenaPackages.NewModuleAsWritten | src/package_discovery/mod.rs:59-73 | `Module::new` as written: the module is marked init exactly when its file is literally named ".__init__.py" |
| ArenaPackages.NewModule | src/package_discovery/mod.rs:59-73 | `Module::new` as intended: the module is marked init exactly when its file is named `__init__.py`; token, parent, path and pypath as given |
| ArenaPackages.InitFileMissedAsWritten | src/package_discovery/mod.rs:71 | for every real `__init__.py` file the as-written test says "not init" while the intended test says "init" |
| ArenaPackages.InitFileMissedExample | src/package_discovery/mod.rs:71 | the concrete input `src/testpackage/__init__.py` under the root `src/testpackage` shows the discrepancy |
| ArenaPackages.Build | src/package_discovery/mod.rs:104-163 | under the given init test, over a listing whose parents come before their children: the root package first, one package per listed directory and one module per listed file in listing order, each linked to the package of its directory, listed in that package's children, and found by path and by pypath |
| ArenaPackages.Dirs | src/package_discovery/mod.rs:124-135 | the paths `build` turns into packages are exactly those of the listing's directory items |
| ArenaPackages.Files | src/package_discovery/mod.rs:136-149 | the paths `build` turns into modules are exactly those of the listing's file items |
| ArenaPackages.Insert | src/package_discovery/mod.rs:124-151 | one pass of the loop keeps everything `Build` promises, extended by the next listed item |
| ArenaPackages.ParentFound | src/package_discovery/mod.rs:127-137 | the `unwrap`s of the loop cannot fail: the directory of every listed item is already indexed as a package |
| ArenaPackages.InsertPackage | src/package_discovery/mod.rs:126-135 | the directory branch: a new package, added to its parent's child packages and to both package indexes |
| ArenaPackages.InsertModule | src/package_discovery/mod.rs:136-149 | the file branch: a new module made under the given init test, added to its parent's modules, made the parent's init module when it is one, and added to both module indexes |
| ArenaPackages.AddModule | src/package_discovery/mod.rs:141-146 | the parent gains the module, and its init module becomes the new module exactly when that one is init |
| ArenaPackages.InitModuleIsInitFile | src/package_discovery/mod.rs:141-146 | after `build` a package has an init module exactly when one of its modules is marked init, and that module is the file of the package's own directory whose name the init test accepts (`__init__.py` once corrected) |
| ArenaPackages.MakeModule | src/package_discovery/mod.rs:59-73 | `Module::new` under either init test: the given token, parent and path, the pypath of the path, and marked init exactly when the file name is the one the test accepts |
| ArenaPackages.VisibleFiles | src/package_discovery/filesystem.rs:68-73 | the reader drops hidden entries, so no listed file has a name starting with a dot |
| ArenaPackages.AsWrittenRecordsNoInit | src/package_discovery/mod.rs:71 | with the test as written and hidden entries dropped, no module is marked init and no package records an init module |
| ArenaQueries.GetPackage | src/package_discovery/mod.rs:192-194 | a package exactly for a token inside the arena, and then the stored one |
| ArenaQueries.GetModule | src/package_discovery/mod.rs:196-198 | a module exactly for a token inside the arena, and then the stored one |
| ArenaQueries.GetItem | src/package_discovery/mod.rs:185-190 | an item exactly when the token's own arena holds it, and then that stored package or module |
| ArenaQueries.GetItemByPath | src/package_discovery/mod.rs:165-173 | a path known as a package gives that package and the module map is not consulted; otherwise a path known as a module gives the module; an unknown path gives nothing |
| ArenaQueries.GetItemByPypath | src/package_discovery/mod.rs:175-183 | the same preference for packages, keyed by pypath; an unknown pypath gives nothing |
| ArenaQueries.GetRoot | src/package_discovery/mod.rs:200-202 | the root package as stored (the `unwrap` is the precondition) |
| ArenaQueries.GetChildItems | src/package_discovery/mod.rs:204-225 | nothing for an unknown package; otherwise every child package comes before every child module, each item is a stored child, and every child token present in its arena is listed |
| ArenaQueries.PackagesFirst | src/package_discovery/mod.rs:204-225 | in the packages-then-modules concatenation an item is a package exactly when it lies in the first part |
| ArenaQueries.FilterPackages | src/package_discovery/mod.rs:254-259 | a package exactly for a package item, and then that package |
| ArenaQueries.FilterModules | src/package_discovery/mod.rs:261-266 | a module exactly for a module item, and then that module |
| ArenaQueries.FilterAllPackages | src/package_discovery/mod.rs:254-259 | the packages kept are exactly those whose item is in the input |
| ArenaQueries.FilterAppend | src/package_discovery/mod.rs:254-259 | filtering distributes over concatenation, so order is kept |
| ArenaQueries.ChildPackagesAfter | src/package_discovery/mod.rs:227-245 | in a tree `build` makes, every child package has a larger token than its parent, which is why the descendant recursion ends |
| ArenaQueries.GetDescendantItems | src/package_discovery/mod.rs:227-245 | nothing for an unknown package; otherwise the children followed by each child package's descendants, so every child item is among them |
| ArenaQueries.GetAllItems | src/package_discovery/mod.rs:247-251 | the root package first, then exactly the root's descendant items |
| ArenaQueries.Lift | src/package_info/queries.rs:10-112 | the two-arena tree seen as the tree of the later generation: same tokens, same paths and maps, pypaths wrapped |
| ArenaQueries.BuiltLifts | src/package_discovery/mod.rs:104-163 | what `build` makes is a well-formed, linked, rooted tree in the sense the later generation's queries expect |
| ArenaQueries.ChildItemsLift | src/package_info/queries.rs:55-76 | the child items agree, item for item and in order, with those of the later generation's `get_child_items` |
| ArenaQueries.ChildPackagesTokens | src/package_discovery/mod.rs:227-245 | the packages the descendant recursion descends into are the child packages, in ascending token order |
| ArenaQueries.DescendantsLift | src/package_info/queries.rs:78-91 | the descendant items agree, in order, with those of the later generation |
| ArenaQueries.AllItemsLift | src/package_info/queries.rs:93-98 | all items agree, in order, with those of the later generation |
| ArenaQueries.ItemLift | src/package_info/queries.rs:30-35 | `get_item` finds an item exactly when the later generation does, and the same item (the error's reason aside) |
| ArenaQueries.ItemByPathLift | src/package_info/queries.rs:10-18 | `get_item_by_path` answers as the later generation does on a well-formed tree |
| ArenaQueries.ItemByPypathLift | src/package_info/queries.rs:20-28 | `get_item_by_pypath` answers as the later generation does on a well-formed tree |
| ArenaQueries.TokensTransfer | src/package_info/queries.rs:93-98 | an arena entry is among the listed items exactly when its token is among the lifted items' tokens |
| ArenaQueries.AllItemsOfBuilt | src/package_discovery/mod.rs:247-251 | on what `build` makes, `get_all_items` lists every package and every module, each as stored |
| ArenaQueries.DescendantsOfBuilt | src/package_discovery/mod.rs:227-245 | on what `build` makes, the descendants of a package are exactly the items whose chain of parents reaches it, each as stored |
| ArenaImports.StripFinalPart | src/import_discovery/mod.rs:196-200 | for a dotted path the result is the path without its last piece and the path is the result, a dot and that piece; a path without a dot gives the empty string |
| ArenaImports.StripFinalPartOfMember | src/import_discovery/mod.rs:196-200 | stripping `a.b`, where `b` has no dot, gives back exactly `a` (the module of an imported member) |
| ArenaImports.StripFinalPartOfWord | src/import_discovery/mod.rs:196-200 | a path without a dot strips to the empty string |
| ArenaImports.Resolve | src/import_discovery/mod.rs:58-73 | nothing exactly when neither the pypath nor its stripped form names an item |
| ArenaImports.ByPypathNames | src/package_discovery/mod.rs:175-183 | on an indexed arena a pypath finds an item exactly when some package or module has that pypath, and the item found is stored under its token with that pypath |
| ArenaImports.ResolveNamesItem | src/import_discovery/mod.rs:58-73 | a raw import resolves exactly when its pypath, or its pypath without the last piece, names an item, and the item resolved is the one named by the full pypath when there is one |
| ArenaImports.ImportMeta | src/import_discovery/mod.rs:50-85 | the metadata recorded for one importer has an entry exactly for each item one of its raw imports resolves to |
| ArenaImports.RawMeta | src/import_discovery/mod.rs:50-85 | the metadata recorded for all raw imports has an entry exactly for each resolved edge |
| ArenaImports.ImportMetaFrom | src/import_discovery/mod.rs:52-77 | every metadata entry carries the line number and TYPE_CHECKING flag of a raw import that resolves to its target |
| ArenaImports.RawMetaFrom | src/import_discovery/mod.rs:50-77 | every metadata entry comes from some raw import of its importer that resolves to its target |
| ArenaImports.Discard | src/import_discovery/mod.rs:146-158 | removal without the `contains_key` guard: the keys gain the importer, and exactly the one pair disappears |
| ArenaImports.Excluded | src/import_discovery/mod.rs:94-103 | after removing a set of pairs a pair is stored exactly when it was stored and is not in the set; every named importer gains an entry |
| ArenaImports.TypecheckingImports | src/import_discovery/mod.rs:105-115 | exactly the imports whose metadata says TYPE_CHECKING |
| ArenaImports.ImportsInfo.constructor | src/import_discovery/mod.rs:31-36 | empty maps over the given package tree |
| ArenaImports.ImportsInfo.Clone | src/import_discovery/mod.rs:98 | a fresh copy with the same package tree and the same three maps |
| ArenaImports.ImportsInfo.InitialiseMaps | src/import_discovery/mod.rs:119-127 | every item of the tree gains an (empty, if new) entry in both maps; stored pairs are unchanged and the maps stay mirrored |
| ArenaImports.ImportsInfo.AddInternalImport | src/import_discovery/mod.rs:129-144 | the pair is added forward and reversed; metadata is recorded only when given; the maps stay mirrored and metadata stays on stored pairs |
| ArenaImports.ImportsInfo.RemoveInternalImport | src/import_discovery/mod.rs:146-158 | the pair goes forward and reversed (entries are created if absent) and its metadata goes |
| ArenaImports.ImportsInfo.ExcludeImports | src/import_discovery/mod.rs:94-103 | a fresh copy in which exactly the listed pairs are gone, from both maps and from the metadata; the original is untouched |
| ArenaImports.ImportsInfo.RemoveInternalImports | src/import_discovery/mod.rs:99-101 | the loop over the listed pairs removes exactly those pairs, whatever order it visits them in |
| ArenaImports.ImportsInfo.ExcludeTypecheckingImports | src/import_discovery/mod.rs:105-117 | a fresh copy without exactly the TYPE_CHECKING imports; every other import keeps its metadata |
| ArenaImports.ImportsInfo.Build | src/import_discovery/mod.rs:28-88 | every item has an entry in both maps; an item imports another exactly when the first is a package whose init module is the second, or one of its raw imports resolves to the second; the metadata is that of the last raw import of each resolved edge; the maps are mirrored |
| ArenaImports.ImportsInfo.AddInitImports | src/import_discovery/mod.rs:40-48 | every package with an init module imports it, with no metadata |
| ArenaImports.ImportsInfo.AddAllRawImports | src/import_discovery/mod.rs:50-85 | the resolved edges of all raw imports are added, with their metadata |
| ArenaImports.ImportsInfo.AddRawImports | src/import_discovery/mod.rs:51-84 | the resolved edges of one importer's raw imports are added forward and reversed, with their metadata |
| ArenaImports.ImportsInfo.AddRawImport | src/import_discovery/mod.rs:52-83 | a raw import that resolves adds its edge and metadata; one that does not changes nothing |
| ArenaImports.InitImportsOfBuilt | src/import_discovery/mod.rs:40-48 | on the tree `build` makes under either init test, a package imports a module implicitly exactly when that module is its init module, the file of its directory the test accepts |
| ArenaImports.NoInitImportsAsWritten | src/import_discovery/mod.rs:40-48 | on the tree `build` makes with the test as written, the loop over packages adds no implicit init import at all |
| ArenaImports.EveryItemListed | src/import_discovery/mod.rs:119-127 | on the tree `build` makes, every package and module receives its map entries |
| PackageInfos.GetItemByPath | src/package_info/queries.rs:10-18 | a path known as a package gives that stored package, otherwise a path known as a module gives that stored module; nothing exactly when the path is in neither map |
| PackageInfos.GetItemByPypath | src/package_info/queries.rs:20-28 | the same preference for packages, keyed by pypath; nothing exactly when the pypath is in neither map |
| PackageInfos.ByPypathStored | src/package_info/queries.rs:20-28 | an item found by pypath is the arena's entry for its own token |
| PackageInfos.GetPackage | src/package_info/queries.rs:37-42 | the stored package exactly for a token inside the arena, `UnknownPackage` with that token otherwise |
| PackageInfos.GetModule | src/package_info/queries.rs:44-49 | the stored module exactly for a token inside the arena, `UnknownModule` with that token otherwise |
| PackageInfos.GetItem | src/package_info/queries.rs:30-35 | the stored item exactly for a known token, otherwise the error of the token's own arena |
| PackageInfos.GetRoot | src/package_info/queries.rs:51-53 | the stored root package, which carries the root token |
| PackageInfos.PackageEntries | src/package_info/queries.rs:61-65 | the stored package of every token, in the order given |
| PackageInfos.ModuleEntries | src/package_info/queries.rs:66-70 | the stored module of every token, in the order given |
| PackageInfos.ChildItemsListing | src/package_info/queries.rs:55-76 | the children are every child package, then every child module, each as stored and nothing else |
| PackageInfos.GetChildItems | src/package_info/queries.rs:55-76 | `UnknownPackage` exactly for a token outside the arena; otherwise every child package, then every child module, each as stored and nothing else |
| PackageInfos.GetDescendantItems | src/package_info/queries.rs:78-91 | `UnknownPackage` exactly for a token outside the arena; otherwise the descendant recursion, every item of which is stored under its own token |
| PackageInfos.DescendantsStored | src/package_info/queries.rs:78-91 | every item the descendant recursion yields is the arena's entry for its token |
| PackageInfos.GetAllItems | src/package_info/queries.rs:93-98 | the root package first, then exactly the root's descendant items |
| PackageInfos.FilterPackages | src/package_info/queries.rs:100-105 | a package exactly for a package item, and then that package |
| PackageInfos.FilterModules | src/package_info/queries.rs:107-112 | a module exactly for a module item, and then that module |
| PackageInfos.FilterAllPackages | src/package_info/queries.rs:100-105 | the packages kept are exactly those whose item is in the input |
| PackageInfos.BelowTopDown | src/package_info/queries.rs:78-91 | lying below a package means being its child or lying below one of its child packages |
| PackageInfos.ChildOfAncestorIsBelow | src/package_info/queries.rs:78-91 | whatever lies below a child package lies below the parent |
| PackageInfos.ChildTokens | src/package_info/queries.rs:55-76 | the tokens of the child items are exactly the items whose parent is the package |
| PackageInfos.DescendantsFollowParents | src/package_info/queries.rs:78-91 | an item is among the descendants of a package exactly when climbing its parent links reaches that package |
| PackageInfos.BelowRoot | src/package_info/queries.rs:93-98 | in a rooted tree every item but the root lies below the root |
| PackageInfos.AllItemsComplete | src/package_info/queries.rs:93-98 | `get_all_items` holds the token of every item of the arenas and of nothing else |
| PackageInfos.AllPackagesComplete | src/package_info/queries.rs:93-105 | filtering all items for packages gives every stored package |
| PackageInfos.GetAllItemsStored | src/package_info/queries.rs:93-98 | every item `get_all_items` yields is the arena's entry for its token |
| PackageItems.AsPackage | src/package_info/mod.rs:80-89 | converting to a package succeeds exactly for a package item, giving it back, and fails with `NotAPackage` otherwise |
| PackageItems.AsModule | src/package_info/mod.rs:91-100 | converting to a module succeeds exactly for a module item, giving it back, and fails with `NotAModule` otherwise |
| PackageItems.ConversionsPartition | src/package_info/mod.rs:80-122 | exactly one of the two conversions succeeds on any item, and it gives the item back |
| PackageItems.TokenSet | src/package_info/mod.rs:370-374 | the set holds the token and nothing else |
| PackageItems.NewPackage | src/package_info/mod.rs:184-201 | a new package has the given token, parent and path, no children, no init module, and the pypath `from_path` gives |
| PackageItems.NewModule | src/package_info/mod.rs:232-247 | a new module is an init module exactly when its file is named `__init__.py`; token, parent, path and pypath as given |
| PackageItems.Build | src/package_info/mod.rs:314-367 | over a listing whose parents come before their children: the root package first, one item per listed entry in listing order, each linked to the package of its directory, listed in that package's children, and found by path and by pypath |
| PackageItems.Insert | src/package_info/mod.rs:332-359 | one pass of the loop keeps everything `Build` promises, extended by the next listed entry |
| PackageItems.AddChild | src/package_info/mod.rs:339-353 | the parent gains the new item as a child package or module, and its init module becomes that item exactly when it is an init module; nothing else of the parent changes |
| PackageItems.ParentIsPackage | src/package_info/mod.rs:335-350 | the `unwrap`s of the loop cannot fail: the directory of every listed entry is indexed, and what is found there is a package |
| PackageItems.SamePathSameItem | src/package_info/mod.rs:341-355 | no two items of a built arena share a path, so the path index never overwrites |
| PackageItems.FoundByPath | src/package_info/mod.rs:323-355 | every item is found by its path, leading back to itself, and the root's path leads to the root |
| PackageItems.ChildrenInItsDirectory | src/package_info/mod.rs:332-359 | every child a package lists sits in that package's directory |
| PackageItems.InitModuleIsInitFile | src/package_info/mod.rs:349-354 | a package has an init module exactly when one of its modules is an init module, and that module is the `__init__.py` of the package's directory |
| PackageInfoGrimp.PiecesAreDotsPlusOne | src/package_info/grimp_compare.rs:115-117 | a path has exactly one more dotted piece than it has dots, so sorting by descending dot count sorts by descending depth |
| PackageInfoGrimp.Lineage | src/package_info/grimp_compare.rs:23-30 | the lineage of a path starts with the path itself and has one entry per dotted piece |
| PackageInfoGrimp.LineageShape | src/package_info/grimp_compare.rs:23-30 | each entry of the lineage is the parent of the one before, the last has no parent, and all share the top-level package |
| PackageInfoGrimp.LineageValid | src/package_info/grimp_compare.rs:23-30 | every entry of the lineage of a valid path is valid |
| PackageInfoGrimp.LineageAbove | src/package_info/grimp_compare.rs:23-30 | every lineage entry after the path itself is a strict ancestor of the path, so every package the pop loop creates is an ancestor of a key |
| PackageInfoGrimp.LineageOf | src/package_info/grimp_compare.rs:24-30 | the `while let` loop pushing `parent()` until there is none yields exactly the lineage |
| PackageInfoGrimp.InitOfValidIsValid | src/package_info/grimp_compare.rs:63 | `(pypath + ".__init__").parse().unwrap()` cannot fail for a valid package pypath |
| PackageInfoGrimp.InitPypathInjective | src/package_info/grimp_compare.rs:63 | distinct packages get distinct init-module pypaths |
| PackageInfoGrimp.InsertKey | src/package_info/grimp_compare.rs:23-58 | one key: its lineage is popped from the top down; existing packages are reused, missing ones are created under the previous one, and the key itself becomes a non-init module under the last package |
| PackageInfoGrimp.SkipKey | src/package_info/grimp_compare.rs:19-21 | a key that is already a package is skipped without breaking the loop invariant |
| PackageInfoGrimp.InsertNext | src/package_info/grimp_compare.rs:18-59 | one pass of the key loop keeps the invariant: every key so far is a package or a module, every package is named after its parent's pypath |
| PackageInfoGrimp.InsertKeys | src/package_info/grimp_compare.rs:18-59 | the key loop, deepest keys first, leaves every key inserted as a package or a module |
| PackageInfoGrimp.AddInitModules | src/package_info/grimp_compare.rs:61-73 | every package gets an init module `<package>.__init__`, marked init and indexed, and records it as its init module |
| PackageInfoGrimp.LinkChildPackages | src/package_info/grimp_compare.rs:76-84 | every package with a parent is added to that parent's child packages, and nothing else is |
| PackageInfoGrimp.LinkChildModules | src/package_info/grimp_compare.rs:85-91 | every module is added to its parent's child modules, and nothing else is |
| PackageInfoGrimp.Parentless | src/package_info/grimp_compare.rs:93-100 | exactly the tokens of the packages without a parent, in slot order |
| PackageInfoGrimp.TopIsParentless | src/package_info/grimp_compare.rs:93-102 | the top-level package of any path has no parent |
| PackageInfoGrimp.ParentlessIsTop | src/package_info/grimp_compare.rs:93-102 | a package has no parent exactly when it is the top-level package |
| PackageInfoGrimp.RootIsTop | src/package_info/grimp_compare.rs:101-102 | the `assert_eq!(root.len(), 1)` holds, and the root is the top-level package |
| PackageInfoGrimp.ChildrenAfterParent | src/package_info/grimp_compare.rs:76-84 | a child package always has a larger token than its parent |
| PackageInfoGrimp.KeyModuleParent | src/package_info/grimp_compare.rs:33-42 | a key module is not an init module, is indexed, is not a package, and its parent is the package of its parent pypath |
| PackageInfoGrimp.KeysInOrder | src/package_info/grimp_compare.rs:18 | the keys sorted by descending dot count are distinct, deepest first, valid, and share the top-level package |
| PackageInfoGrimp.BuildPackageInfo | src/package_info/grimp_compare.rs:9-113 | the tree built from the keys is well formed, linked and rooted at the common top-level package; the packages are exactly the strict ancestors of the keys, each named after its pypath, every key is a package or a module, every non-init module is a key, every package has an indexed `__init__` module, and no path index is filled |
| ImportsInfos.NewOptions | src/imports_info/mod.rs:122-127 | the default options include typechecking and external imports |
| ImportsInfos.WithTypecheckingImportsExcluded | src/imports_info/mod.rs:130-133 | typechecking imports become excluded and the external flag is kept |
| ImportsInfos.WithExternalImportsExcluded | src/imports_info/mod.rs:136-139 | external imports become excluded and the typechecking flag is kept |
| ImportsInfos.TypecheckingImports | src/imports_info/mod.rs:256-290 | exactly the explicit imports whose metadata says TYPE_CHECKING; implicit imports never |
| ImportsInfos.ResolveInternal | src/imports_info/mod.rs:190-213 | an internal import resolves to a known item; it fails exactly when neither its pypath nor its parent pypath names an item |
| ImportsInfos.ResolveInternalNamesItem | src/imports_info/mod.rs:190-213 | the item resolved carries the import's own pypath, or, when no item has it, the parent pypath |
| ImportsInfos.ImportsInfo.constructor | src/imports_info/mod.rs:157-164 | empty maps over the given package tree |
| ImportsInfos.ImportsInfo.Clone | src/imports_info/mod.rs:93-105 | a fresh copy with the same package tree and the same five maps |
| ImportsInfos.ImportsInfo.InitialiseMaps | src/imports_info/mod.rs:295-305 | every item gains an entry in the forward, reverse and external maps; no import is added or lost |
| ImportsInfos.ImportsInfo.AddEntries | src/imports_info/mod.rs:296-303 | the loop over the listed items adds exactly their entries |
| ImportsInfos.ImportsInfo.AddInternalImport | src/imports_info/mod.rs:307-320 | the pair joins the forward map, its reverse joins the reverse map and its metadata replaces any earlier one; external maps unchanged; mirrored and annotated maps stay so |
| ImportsInfos.ImportsInfo.RemoveInternalImport | src/imports_info/mod.rs:322-338 | the pair leaves both maps and the metadata; removing an absent pair creates no entry; external maps unchanged |
| ImportsInfos.ImportsInfo.RemoveImports | src/imports_info/mod.rs:241-253 | exactly the listed internal pairs leave the forward map, the reverse map and the metadata, and exactly the listed external pairs leave the external map and its metadata |
| ImportsInfos.ImportsInfo.RemoveInternalImports | src/imports_info/mod.rs:246-248 | the first loop removes exactly the listed internal pairs, whatever the order |
| ImportsInfos.ImportsInfo.RemoveExternalImports | src/imports_info/mod.rs:249-251 | the second loop removes exactly the listed external pairs, whatever the order |
| ImportsInfos.ImportsInfo.RemoveTypecheckingImports | src/imports_info/mod.rs:256-293 | exactly the explicit TYPE_CHECKING imports, internal and external, are removed together with their metadata; implicit imports stay |
| ImportsInfos.ImportsInfo.AddExternalImport | src/imports_info/mod.rs:340-352 | the pypath joins the item's external imports with its metadata; the internal maps are unchanged |
| ImportsInfos.ImportsInfo.RemoveExternalImport | src/imports_info/mod.rs:354-360 | the pypath leaves the item's external imports and the metadata; the internal maps are unchanged |
| ImportsInfos.ImportsInfo.BuildWithOptions | src/imports_info/mod.rs:149-223 | fails exactly when some counted internal import names no item, and then with that import's `UnknownInternalImport`; otherwise every item has entries, an item imports another exactly when it is a package importing its init module or a counted internal import resolves to it, the external imports are exactly the counted kept ones, and the metadata is the implicit init entries overridden by the merged explicit entries of all modules |
| ImportsInfos.ImportsInfo.WithImplicitImports | src/imports_info/mod.rs:153-177 | the start of the build: an entry for every item, exactly the implicit init-module imports, and an implicit metadata entry for each of them and nothing else |
| ImportsInfos.ImportsInfo.AddInitImports | src/imports_info/mod.rs:168-177 | every package with an init module imports it, and the metadata gains exactly an implicit entry for each such pair |
| ImportsInfos.ImportsInfo.AddImplicitImports | src/imports_info/mod.rs:169-176 | the loop over the listed packages adds exactly their init imports, and the metadata gains exactly an implicit entry for each |
| ImportsInfos.ImportsInfo.AddImplicitImportAt | src/imports_info/mod.rs:170-176 | one pass of that loop extends the imports and metadata from the first `k` packages to the first `k + 1`, leaving the external maps alone |
| ImportsInfos.ImportsInfo.AddAllRawImports | src/imports_info/mod.rs:179-220 | the outer loop stops with the first unknown internal import, and otherwise adds exactly the counted internal and external imports of all modules, the metadata gaining exactly the merged explicit entries of all modules |
| ImportsInfos.ImportsInfo.AddRawImportAt | src/imports_info/mod.rs:180-218 | one pass of the inner loop: fails exactly when this import is counted, internal and names no item, and otherwise extends the maps from the first `j` imports to the first `j + 1` |
| ImportsInfos.ImportsInfo.AddRawImports | src/imports_info/mod.rs:180-219 | the inner loop over one module's imports stops with its first unknown internal import, and otherwise adds exactly its resolved internal targets and kept external pypaths, the metadata of a later import of the same target replacing an earlier one |
| ImportsInfos.ImportsInfo.AddRawImport | src/imports_info/mod.rs:181-218 | one import: skipped when filtered out as typechecking; an unknown internal import gives `UnknownInternalImport` with its pypath; a resolved internal one is added with explicit metadata; an external one is added when external imports are kept |
| ImportsInfos.InitImportsListed | src/imports_info/mod.rs:169-177 | the packages `get_all_items` lists give exactly the init imports of the whole arena |
| ImportsInfos.ExplicitMeta | src/imports_info/mod.rs:185-215 | the metadata one module's imports record: an explicit entry for each resolved internal target, the last import of a target winning |
| ImportsInfos.ExternalMeta | src/imports_info/mod.rs:185-217 | the same for the external pypaths one module keeps |
| ImportsInfos.AllExplicitMeta | src/imports_info/mod.rs:179-218 | the internal metadata of all modules together: an entry exactly for each counted internal import pair, every entry explicit |
| ImportsInfos.AllExternalMeta | src/imports_info/mod.rs:179-218 | the external metadata of all modules together: an entry exactly for each counted kept external pair, every entry explicit |
| ImportsInfos.ExplicitMetaFrom | src/imports_info/mod.rs:185-215 | each entry of one module's internal metadata carries the line and typechecking flag of the last counted import of that module resolving to the target |
| ImportsInfos.ExternalMetaFrom | src/imports_info/mod.rs:185-217 | each entry of one module's external metadata carries the line and typechecking flag of the last counted import of that pypath |
| ImportsInfos.AllExplicitMetaFrom | src/imports_info/mod.rs:179-218 | each entry of the merged internal metadata comes from the last counted import, in some module of that importer, resolving to the target |
| ImportsInfos.AllExternalMetaFrom | src/imports_info/mod.rs:179-218 | each entry of the merged external metadata comes from the last counted import of that pypath in some module of that importer |
| ImportsInfos.NoTypecheckingRecorded | src/imports_info/mod.rs:181-183 | without the typechecking option, no metadata entry the build records is marked as typechecking |
| ImportsInfos.MetadataStep | src/imports_info/mod.rs:179-220 | merging one module's metadata keeps every init import implicit and every recorded explicit import explicit |
| ImportsInfos.DefaultsKeep | src/imports_info/mod.rs:295-305 | adding default entries for every item keeps the maps mirrored and annotated and covers every item |
| ImportsInfoGrimp.Source | src/imports_info/grimp_compare.rs:36-40 | an importer is the module its pypath names, or the init module of the package it names; nothing when the pypath names no item or a package without an init module |
| ImportsInfoGrimp.Target | src/imports_info/grimp_compare.rs:42 | a target names an item exactly when its pypath is in one of the pypath maps, and the item is the one `get_item_by_pypath` finds |
| ImportsInfoGrimp.BuildImportsInfo | src/imports_info/grimp_compare.rs:9-55 | every item has entries; an item imports another exactly when it is a package importing its init module or the pair is listed in the map (a package importer standing for its init module); init imports carry implicit metadata, listed ones line 1 and not TYPE_CHECKING; no external imports |
| ImportsInfoGrimp.AddListed | src/imports_info/grimp_compare.rs:35-52 | the outer loop adds exactly the listed pairs of the visited keys, with the listed metadata, and keeps the init imports implicit |
| ImportsInfoGrimp.AddTargets | src/imports_info/grimp_compare.rs:41-51 | the inner loop makes the importer import exactly the items its targets name, forward and reversed, each with the listed metadata |
| ImportsInfoGrimp.ListedStep | src/imports_info/grimp_compare.rs:35-52 | listed pairs start at modules, so their metadata never overwrites an init import's |
| ImportsInfoGrimp.PairsOfAll | src/imports_info/grimp_compare.rs:35 | visiting every key, in whatever order, lists every import of the map |
| ImportsInfoGrimp.PackageEntryGoesToInit | src/imports_info/grimp_compare.rs:37-40 | an import listed under a package's pypath is recorded as an import of its init module |
| ImportsInfoParse.FromVisited | src/imports_info/parse/mod.rs:89-161 | the record keeps the visited path text, line number and TYPE_CHECKING flag |
| ImportsInfoParse.ResolveRelative | src/imports_info/parse/mod.rs:21-35 | an absolute path is kept unvalidated; a relative one climbs one directory per leading dot from the module's file and becomes that directory's pypath, a dot and the rest |
| ImportsInfoParse.AgreesWithResolveImport | src/imports_info/parse/mod.rs:21-35 | whenever the validating `resolve_import` accepts a path, this unvalidated resolution gives the same pypath |
| OneFile.ResolveRelativeImports | src/import_discovery/one_file.rs:52-73 | the same imports in the same order; a relative one gets its resolved path, keeping its line and context; an absolute one is untouched |
| OneFile.ResolvedAreAbsolute | src/import_discovery/one_file.rs:52-73 | for a module inside the package whose relative imports climb no higher than the root, no resolved import is left relative |
| Parse.StripWildcard | src/parse/mod.rs:152-154 | a trailing `.*` is dropped once, and nothing else changes |
| Parse.ClimbParents | src/parse/mod.rs:163-166 | the loop calling `parent()` n times gives the n-th parent |
| Parse.DotCount | src/parse/mod.rs:160-162 | `len() - trim_start_matches(".").len()` is the number of leading dots |
| Parse.ResolveImport | src/parse/mod.rs:145-170 | returns the specified resolution: wildcard dropped, absolute path parsed as written, relative path climbed and appended, then parsed |
| Parse.ResolveRelative | src/parse/mod.rs:160-169 | the relative branch parses the climbed directory's pypath, a dot and the rest of the text |
| Parse.NthParentIsPrefix | src/parse/mod.rs:163-166 | the n-th parent is the path with its last n components removed |
| Parse.WildcardResolvesToModule | src/parse/mod.rs:152-154 | `from m import *` resolves to what `m` resolves to |
| Parse.AbsoluteImportAsWritten | src/parse/mod.rs:156-158 | an absolute path resolves exactly when it is a valid pypath, and then to itself |
| Parse.RelativeTargetClimbs | src/parse/mod.rs:160-169 | a relative import climbing less than the module's depth in the package can be resolved, to the climbed directory's components joined by dots, a dot and the rest |
| Parse.TargetFromBase | src/parse/mod.rs:160-169 | the target is the climbed directory's dotted name, a dot and the text after the leading dots |
| Parse.RelativeTargetIsAbsolute | src/parse/mod.rs:160-169 | such a resolved target no longer starts with a dot |
| Parse.DirectoryPypath | src/pypath.rs:54-62 | a directory inside the package tree maps to its components joined by dots |
| RawImportVisitor.WalkStmtsAppend | src/parse/mod.rs:87-93 | walking two statement lists one after the other collects the imports of the first, then of the second |
| RawImportVisitor.WalkStmtsCount | src/parse/mod.rs:183-253 | every imported name yields exactly one raw import, whatever the context |
| RawImportVisitor.ImportPushesEachName | src/parse/mod.rs:189-199 | `import a, b as B` pushes one raw import per name, the name as written, its line, the current context, in order |
| RawImportVisitor.ImportFromLevelAndRemainder | src/parse/mod.rs:200-221 | `from M import x` at level L pushes, per name, a path whose leading dots are exactly L and whose remainder is `M.x` (or `x`), in the current context |
| RawImportVisitor.TypecheckingIfContexts | src/parse/mod.rs:222-250 | an `if TYPE_CHECKING:` (bare or attribute) walks its body as typechecking and its else-branch as not; any other `if` walks both in the current context |
| RawImportVisitor.ContextInherited | src/parse/mod.rs:183-253 | outside TYPE_CHECKING blocks every import inherits the context it is walked in |
| Ast.FlattenReachesNested | src/parse/mod.rs:251 | the walk reaches every listed statement and every statement nested below it |
| Contracts.Outcome | src/contracts/layers.rs:182-186 | a contract is kept exactly when no violation was found, and otherwise reports every violation found |
| Contracts.WithDescendants | src/package_info/mod.rs:410-424 | the set grows to exactly its items plus every item below each package in it; nothing outside the arena is added |
| Contracts.AddDescendants | src/package_info/mod.rs:411-417 | one turn of the loop adds exactly the descendants of one item, all of them in the arena |
| Contracts.ScopesGrow | src/package_info/mod.rs:411-417 | after a turn the descendants of one more item of the walk are covered |
| Contracts.ScopeInExpanded | src/package_info/mod.rs:410-418 | the descendants of every item of the set end up in the extended set |
| Contracts.ExpandedCovers | src/package_info/mod.rs:410-418 | a set covering the descendants of every item it started with, and no more, is the extended set |
| Contracts.Avoiding | src/contracts/utils.rs:55-61 | the excluded items keep no import and no item imports them; other imports are kept |
| Contracts.AvoidingConnects | src/contracts/utils.rs:55-61 | a chain a path query asks for is exactly a path of the import graph with the excluded items taken out |
| Contracts.PruningKeepsNoNewPaths | src/contracts/utils.rs:13-30 | removing imports creates no chain: a chain after removal was a chain before and uses none of the removed imports |
| Contracts.FindInternalPath | src/contracts/utils.rs:55-61 | an error exactly when an item of the query is outside the arenas, naming such an item; otherwise a shortest chain of internal imports from the sources to the targets around the excluded items, or none when no chain exists |
| Contracts.UnknownInUnion | src/contracts/utils.rs:42-61 | a query over a union of sets has an unknown item exactly when one of the sets has |
| Contracts.ReportsUnknownWider | src/contracts/utils.rs:42-61 | an unknown item reported for a part of the query is an unknown item of the whole query |
| Contracts.Elements | src/contracts/utils.rs:22-25 | the set holds exactly the elements of the list |
| Contracts.Ignored | src/contracts/utils.rs:13-30 | an import is dropped exactly when it is listed, or when typechecking imports are ignored and it is one |
| Contracts.RemoveTwice | src/contracts/utils.rs:21-28 | removing the listed imports and then the typechecking ones left is removing both sets at once, for the imports and their metadata |
| Contracts.RemoveFlippedTwice | src/imports_info/mod.rs:241-253 | removing two sets of reversed pairs one after the other is removing their union |
| Contracts.IgnoreImports | src/contracts/utils.rs:13-30 | a new store over the same arenas: the listed internal and external imports, and the typechecking ones when asked, are gone from the forward and reverse maps and from the metadata; everything else stays and the given store is untouched |
| Contracts.ExpandRule | src/contracts/utils.rs:42-53 | the query of a rule: its source, target and allowed items each with their descendants; the lookups of the query fail exactly when an item of the rule is outside the arenas |
| Contracts.CheckInternal | src/contracts/utils.rs:39-68 | one rule: an error exactly when an item it names is unknown; otherwise a violation exactly when a chain of imports breaks the rule, carrying the rule and a shortest such chain |
| Contracts.FindInternalViolations | src/contracts/utils.rs:31-80 | an error exactly when some rule names an unknown item; otherwise at most one violation per rule, each a broken rule with a shortest chain, and every broken rule reported |
| Contracts.ExternalViolationHitsTarget | src/contracts/utils.rs:97-111 | a chain found for an external rule ends importing a pypath equal to or below the rule's target |
| Contracts.ExpandExternalRule | src/contracts/utils.rs:93-111 | the query of an external rule: its source and allowed items with their descendants, and every imported pypath at or below its target; the lookups fail exactly when an item of the rule is unknown |
| Contracts.CheckExternal | src/contracts/utils.rs:90-118 | one external rule: an error exactly when an item it names is unknown; otherwise a violation exactly when a chain from its source, around the allowed items, ends importing its target or below, with that chain and pypath |
| Contracts.FindExternalViolations | src/contracts/utils.rs:82-130 | an error exactly when some rule names an unknown item; otherwise one violation per broken rule and none for a kept one |
| ForbiddenContracts.ForbiddenInternalImportContract.constructor | src/contracts/forbidden_internal.rs:102-110 | the two items, no exceptions, nothing ignored, typechecking imports checked |
| ForbiddenContracts.ForbiddenInternalImportContract.WithExceptVia | src/contracts/forbidden_internal.rs:113-117 | the items given replace the allowed ones; nothing else changes |
| ForbiddenContracts.ForbiddenInternalImportContract.WithIgnoredImports | src/contracts/forbidden_internal.rs:120-126 | the imports are appended to those ignored; nothing else changes |
| ForbiddenContracts.ForbiddenInternalImportContract.WithTypecheckingImportsIgnored | src/contracts/forbidden_internal.rs:129-132 | typechecking imports become ignored; nothing else changes |
| ForbiddenContracts.ForbiddenInternalImportContract.Verify | src/contracts/forbidden_internal.rs:136-157 | an error naming an unknown item of the rule; otherwise kept exactly when no chain of the imports left after ignoring breaks the rule, else one violation with a shortest such chain |
| ForbiddenContracts.ForbiddenExternalImportContract.constructor | src/contracts/forbidden_external.rs:99-108 | the item and the pypath, no exceptions, nothing ignored, typechecking imports checked |
| ForbiddenContracts.ForbiddenExternalImportContract.WithExceptVia | src/contracts/forbidden_external.rs:111-115 | the items given replace the allowed ones; nothing else changes |
| ForbiddenContracts.ForbiddenExternalImportContract.WithIgnoredInternalImports | src/contracts/forbidden_external.rs:118-124 | the internal imports are appended to those ignored; nothing else changes |
| ForbiddenContracts.ForbiddenExternalImportContract.WithIgnoredExternalImports | src/contracts/forbidden_external.rs:127-130 | the external imports are appended to those ignored; nothing else changes |
| ForbiddenContracts.ForbiddenExternalImportContract.WithTypecheckingImportsIgnored | src/contracts/forbidden_external.rs:133-136 | typechecking imports become ignored; nothing else changes |
| ForbiddenContracts.ForbiddenExternalImportContract.Verify | src/contracts/forbidden_external.rs:140-161 | an error naming an unknown item of the rule; otherwise kept exactly when no chain of the imports left after ignoring leads from the source, around the allowed items, to an item importing the target or below it, else one violation with such a chain |
| Independent.ForbiddenPairs | src/contracts/independent.rs:149-156 | one rule for every ordered pair of distinct items, so both directions of every pair, n(n-1) of them |
| Independent.IndependentItemsContract.constructor | src/contracts/independent.rs:110-116 | the items as a set, nothing ignored, typechecking imports checked |
| Independent.IndependentItemsContract.WithIgnoredImports | src/contracts/independent.rs:119-125 | the imports are appended to those ignored; nothing else changes |
| Independent.IndependentItemsContract.WithTypecheckingImportsIgnored | src/contracts/independent.rs:128-131 | typechecking imports become ignored; nothing else changes |
| Independent.IndependentItemsContract.Verify | src/contracts/independent.rs:135-165 | an error exactly when some pair names an unknown item; otherwise kept exactly when no item reaches another through the imports left after ignoring, and each violation is such a pair with a shortest chain |
| Independent.FewItemsNoRules | src/contracts/independent.rs:149-156 | with fewer than two items there is no rule, so the contract holds whatever the imports |
| Layers.NewLayer | src/contracts/layers.rs:200-208 | the siblings are collected into a set, repeats collapsing, with the independence flag |
| Layers.PushRow | src/contracts/layers.rs:218-224 | one rule from an item to each of the given items, all with the same exceptions |
| Layers.PushPairs | src/contracts/layers.rs:217-225 | one rule from each item of one layer to each item of another |
| Layers.PushRowSkipping | src/imports_info/queries/internal_imports/layers.rs:79-88 | one rule from an item to every other sibling, skipping the item itself |
| Layers.PushDistinctPairs | src/contracts/layers.rs:248-254 | one rule for each ordered pair of distinct siblings, n(n-1) of them |
| Layers.PushUpward | src/contracts/layers.rs:216-226 | a layer may import no layer above it, without exception |
| Layers.PushDownward | src/contracts/layers.rs:230-243 | adds one rule for each sibling of layer `idx` and each sibling of a layer two or more below it, with the siblings of the layer directly below as the exception, and no other rule |
| Layers.PushSideways | src/contracts/layers.rs:247-255 | the siblings of an independent layer may not import each other |
| Layers.PushLayerRules | src/contracts/layers.rs:214-256 | one pass adds exactly the upward, the (unless deep imports are allowed) downward and the sideways rules of one layer |
| Layers.GetForbiddenImports | src/contracts/layers.rs:211-259 | exactly the rules the layers forbid, as many as the nested loops push |
| Layers.DeepImportsAllowedDropsDownward | src/contracts/layers.rs:228 | with deep imports allowed every rule is one without exceptions that is also forbidden without deep imports |
| Layers.DeepImportsAllowedCountsFewer | src/contracts/layers.rs:228 | allowing deep imports never adds a rule |
| Layers.ExampleCount | src/contracts/layers.rs:274-324 | the four example layers yield exactly 20 rules |
| Layers.ExampleRulesExpected | src/contracts/layers.rs:290-327 | every rule of the example layers is one the test expects |
| Layers.ExampleUpwardExpected | src/contracts/layers.rs:292-313 | the example's upward rules are among the expected ones |
| Layers.ExampleDownwardExpected | src/contracts/layers.rs:314-321 | the example's downward rules, with the layer directly below as exception, are among the expected ones |
| Layers.ExampleDownwardRules | src/contracts/layers.rs:310-321 | the application layer may reach data only through the domain layer and interfaces reach domain only through application; nothing forbids application1 importing application2; with deep imports allowed the downward rules vanish |
| Layers.RulesExpandable | src/contracts/layers.rs:178 | every rule of layers whose packages are in the arena names items whose descendants can be looked up |
| Layers.LayeredArchitectureContract.constructor | src/contracts/layers.rs:129-136 | the layers, nothing ignored, typechecking imports checked, deep imports forbidden |
| Layers.LayeredArchitectureContract.WithIgnoredImports | src/contracts/layers.rs:139-145 | the imports are appended to those ignored; nothing else changes |
| Layers.LayeredArchitectureContract.WithTypecheckingImportsIgnored | src/contracts/layers.rs:148-151 | typechecking imports become ignored; nothing else changes |
| Layers.LayeredArchitectureContract.WithDeepImportsAllowed | src/contracts/layers.rs:157-160 | deep imports become allowed; nothing else changes |
| Layers.LayeredArchitectureContract.Verify | src/contracts/layers.rs:164-187 | an error exactly when some rule names an unknown item; otherwise kept exactly when no rule the layers forbid is broken by a chain of the imports left after ignoring, and each violation is a broken rule with a shortest chain |
| LegacyLayers.GetForbiddenImports | src/imports_info/queries/internal_imports/layers.rs:46-94 | exactly the rules the layered contract forbids with deep imports forbidden, as many as its loops push |
| InternalImportsQueries.PackageContents | src/imports_info/queries/internal_imports.rs:118-121 | the contents of a package hold the package itself and only items of the arenas |
| InternalImportsQueries.ContentsAreBelow | src/imports_info/queries/internal_imports.rs:118-121 | in a linked arena the contents of a package are exactly the package and the items whose parent links climb to it |
| InternalImportsQueries.Scope | src/imports_info/queries/internal_imports.rs:114-145 | the items a query about an item covers always include the item |
| InternalImportsQueries.UnionOver | src/imports_info/queries/internal_imports.rs:124-139 | the gathered set holds exactly what the function yields for some member |
| InternalImportsQueries.ForEveryPackageItem | src/imports_info/queries/internal_imports.rs:107-146 | an unknown package is an error; for a module, what the callback yields for it; for a package, what it yields for any of the contents, less the contents |
| InternalImportsQueries.DirectItems | src/imports_info/queries/internal_imports.rs:14-44 | an unknown item is an error naming it; otherwise exactly the items some member of its scope imports that lie outside the scope |
| InternalImportsQueries.GetItemsDirectlyImportedBy | src/imports_info/queries/internal_imports.rs:14-28 | an unknown item is an error; otherwise exactly what the item, or any item of the package, imports from outside the package |
| InternalImportsQueries.GetItemsThatDirectlyImport | src/imports_info/queries/internal_imports.rs:30-44 | an unknown item is an error; otherwise exactly the items outside the package that import the item or an item of the package |
| InternalImportsQueries.ModuleImportsItsEntry | src/imports_info/queries/internal_imports.rs:144 | for a module the answer is exactly its own entry in the forward map |
| InternalImportsQueries.DirectQueriesMirror | src/imports_info/queries/internal_imports.rs:14-44 | between modules, b is directly imported by a exactly when a directly imports b |
| InternalImportsQueries.DirectImportExists | src/imports_info/queries/internal_imports.rs:46-61 | an error naming the first unknown item, `from` first; otherwise true exactly when the forward map, equally the reverse map, records the import |
| InternalImportsQueries.GetImportMetadata | src/imports_info/queries/internal_imports.rs:148-158 | the lookups' error, or `NoSuchImport` when the import does not exist; otherwise the stored metadata, which always exists |
| InternalImportsQueries.InitImportIsImplicit | src/imports_info/mod.rs:168-177 | a package's import of its init module reports the implicit metadata |
| InternalImportsQueries.ReachFromEach | src/imports_info/queries/internal_imports.rs:69-78 | for every member of the scope, exactly the items reachable from it |
| InternalImportsQueries.ReachableFromSome | src/imports_info/queries/internal_imports.rs:69-78 | reaching an item from a set of starts is reaching it from one of them, so searching per member and gathering loses nothing |
| InternalImportsQueries.TransitiveItems | src/imports_info/queries/internal_imports.rs:63-105 | an unknown item is an error; otherwise exactly the items outside the scope reached from it, the item itself excluded |
| InternalImportsQueries.GetDownstreamItems | src/imports_info/queries/internal_imports.rs:63-83 | an unknown item is an error; otherwise everything outside the package the item, or any item of the package, imports directly or indirectly |
| InternalImportsQueries.GetUpstreamItems | src/imports_info/queries/internal_imports.rs:85-105 | an unknown item is an error; otherwise everything outside the package that imports the item or its contents, directly or indirectly |
| InternalImportsQueries.BackwardsPath | src/imports_info/mod.rs:307-320 | a chain of imports read backwards is a chain of the reverse map |
| InternalImportsQueries.ReachableMirrored | src/imports_info/mod.rs:307-320 | b is reached from a forwards exactly when a is reached from b backwards |
| InternalImportsQueries.UpstreamMirrorsDownstream | src/imports_info/queries/internal_imports.rs:63-105 | between modules, b is downstream of a exactly when a is upstream of b |
| ExternalImportsQueries.DirectImportExists | src/imports_info/queries/external_imports.rs:136-145 | an unknown item is an error; otherwise true exactly when the item imports the pypath, equally when metadata for the pair exists |
| ExternalImportsQueries.GetItemsDirectlyImportedBy | src/imports_info/queries/external_imports.rs:180-192 | an unknown item is an error; otherwise exactly the pypaths for which a direct import exists |
| ExternalImportsQueries.GetImportMetadata | src/imports_info/queries/external_imports.rs:291-305 | an unknown item is an error, a missing import `NoSuchImport`; otherwise the stored metadata |
| ExternalImportsQueries.DownstreamOfAll | src/imports_info/queries/external_imports.rs:236-242 | fails exactly when an item is unknown, naming one; otherwise the items and everything downstream of any of them |
| ExternalImportsQueries.ExternalOf | src/imports_info/queries/external_imports.rs:244-253 | exactly the pypaths some member imports |
| ExternalImportsQueries.GetDownstreamItems | src/imports_info/queries/external_imports.rs:232-256 | fails exactly when an item is unknown; otherwise exactly the pypaths imported by the items or by anything downstream of them |
| ExternalImportsQueries.SearchGraph | src/imports_info/queries/external_imports.rs:361-388 | the successors of every node are those of the breadth-first search |
| ExternalImportsQueries.Lift | src/imports_info/queries/external_imports.rs:401-412 | a chain becomes a search path starting at the initial node and ending at the external pypath, the items in between |
| ExternalImportsQueries.Inner | src/imports_info/queries/external_imports.rs:401-412 | the items strictly inside a search path, in order |
| ExternalImportsQueries.LiftConnects | src/imports_info/queries/external_imports.rs:361-395 | every chain the query asks for is a search path from the initial node to a goal |
| ExternalImportsQueries.StepShape | src/imports_info/queries/external_imports.rs:364-388 | the initial node leads to allowed sources, an item to its non-excluded internal imports and to its external imports; nothing follows a pypath |
| ExternalImportsQueries.LowerShape | src/imports_info/queries/external_imports.rs:390-412 | every search path to a goal has items strictly inside and ends at a pypath the query asks for |
| ExternalImportsQueries.LowerConnects | src/imports_info/queries/external_imports.rs:390-412 | every search path to a goal is, inside, a chain the query asks for, so the `panic!` branch is never reached |
| ExternalImportsQueries.LookupAll | src/imports_info/queries/external_imports.rs:354-359 | no error exactly when every item is known; an error names an unknown item |
| ExternalImportsQueries.FindPath | src/imports_info/queries/external_imports.rs:350-415 | an error exactly when a source or excluded item is unknown; otherwise a shortest chain from a source, around the excluded items, to an item importing a pypath of the target set, with that pypath, or nothing when there is no such chain |
| ExternalImportsQueries.PathExists | src/imports_info/queries/external_imports.rs:418-420 | the same errors; otherwise true exactly when some chain the query asks for exists |
| ExternalImportsQueries.GetEqualToOrDescendantImports | src/imports_info/queries/external_imports.rs:422-436 | exactly the imported pypaths equal to or below the given one |
| ExternalImportsQueries.DescendantImportsNarrow | src/imports_info/queries/external_imports.rs:422-436 | asking about a descendant yields a subset of asking about its ancestor |
| GraphPackageDiscovery.Stamp | src/import_graph/package_discovery.rs:45-55 | a module keeps its pypath and path and carries its file's modification time in whole seconds |
| GraphPackageDiscovery.WithMtimes | src/import_graph/package_discovery.rs:100-114 | the package tree keeps its pypaths, paths, children and modules; each module is stamped with its file's time |
| GraphPackageDiscovery.WithMtimesIn | src/import_graph/package_discovery.rs:116-131 | a list of child packages is stamped child by child, keeping its length |
| GraphPackageDiscovery.DiscoverPackage | src/import_graph/package_discovery.rs:58-60 | the root package is named after its directory and lives there; discovery succeeds exactly when the root directory is readable, holds an `__init__.py` and its sub-directories can be discovered |
| GraphPackageDiscovery.StampingKeepsTree | src/import_graph/package_discovery.rs:62-134 | dropping the times again gives back the tree the string-keyed discovery builds |
| GraphPackageDiscovery.StampingKeepsTreeIn | src/import_graph/package_discovery.rs:116-131 | the same for a list of child packages |
| GraphPackageDiscovery.DiscoveredModulesCarryMtimes | src/import_graph/package_discovery.rs:62-134 | this discovery succeeds exactly when the string-keyed one does, finds the same tree, and every module carries its own file's time |
| GraphIndexing.InAppend | src/import_graph/indexing.rs:15-21 | the packages, modules and size of two lists of subtrees add up |
| GraphIndexing.PopPush | src/import_graph/indexing.rs:16-20 | popping a package and pushing its children keeps the packages and modules still to visit, and shrinks the work left |
| GraphIndexing.ChildrenInTree | src/import_graph/indexing.rs:18-20 | a child's packages and modules are among its parent's |
| GraphIndexing.ChildInList | src/import_graph/indexing.rs:18-20 | a package's subtree is within the subtrees of a list holding it |
| GraphIndexing.GetPackagesByPypath | src/import_graph/indexing.rs:13-23 | every package of the tree is indexed under its pypath, and every entry is a package of the tree with that pypath |
| GraphIndexing.GetModulesByPypath | src/import_graph/indexing.rs:25-37 | every module of the tree is indexed under its pypath, and every entry is a module of the tree with that pypath |
| GraphIndexing.GetPackagesByModule | src/import_graph/indexing.rs:39-51 | exactly the modules of the tree are keys, each mapped to a package of the tree that lists it |
| GraphIndexing.ImportedByAdd | src/import_graph/indexing.rs:57-61 | the modules imported by a set of importers grow by exactly the imports of one more importer |
| GraphIndexing.AddImporter | src/import_graph/indexing.rs:57-61 | the inner loop records the importer under each of its targets, creating missing entries, and changes nothing else |
| GraphIndexing.AddStep | src/import_graph/indexing.rs:58-60 | one `entry().or_insert().insert()` extends what the inner loop has recorded by one target |
| GraphIndexing.ReverseImports | src/import_graph/indexing.rs:53-64 | the keys are the importers and the imported modules; b lists a exactly when a imports b |
| GraphIndexing.ReverseStep | src/import_graph/indexing.rs:55-61 | one turn of the outer loop reverses one more importer's imports |
| GraphIndexing.ReversedAll | src/import_graph/indexing.rs:53-64 | once every importer is done the map is the full reversal |
| GraphImportDiscovery.LeadingInternal | src/import_graph/import_discovery.rs:101-110 | the names looked at form a prefix of the statement's names, all inside the root package, and the first name left out is outside it |
| GraphImportDiscovery.ImportVisitor.constructor | src/import_graph/import_discovery.rs:77-83 | the visitor starts with the root package, the module, the index and the option, and no imports |
| GraphImportDiscovery.ImportVisitor.AddFirstFound | src/import_graph/import_discovery.rs:113-125 | the first candidate pypath that names a module is recorded, and the result says whether one did |
| GraphImportDiscovery.ImportVisitor.VisitImport | src/import_graph/import_discovery.rs:100-128 | for each name before the first external one, the first known of `X` and `X.__init__` is recorded |
| GraphImportDiscovery.ImportVisitor.VisitImportFrom | src/import_graph/import_discovery.rs:129-194 | a prefix outside the root records nothing; otherwise, per name, the first known of its four candidates is recorded |
| GraphImportDiscovery.ImportVisitor.AddFromNames | src/import_graph/import_discovery.rs:172-192 | per name, the first known of `P.x`, `P`, `P.x.__init__` and `P.__init__` is recorded |
| GraphImportDiscovery.ImportVisitor.Visit | src/import_graph/import_discovery.rs:98-215 | a statement records its targets and says which children to visit: none for imports, only the else-branch of an excluded TYPE_CHECKING block, all otherwise |
| GraphImportDiscovery.LeadingInternalReaches | src/import_graph/import_discovery.rs:101-110 | when the first i names are inside the root, all of them are looked at |
| GraphImportDiscovery.LookedAtName | src/import_graph/import_discovery.rs:101-110 | a name preceded only by internal names, itself internal, is looked at |
| GraphImportDiscovery.LeadingInternalStopsAt | src/import_graph/import_discovery.rs:102-110 | the names looked at stop right before the first external name |
| GraphImportDiscovery.VisitStatements | src/import_graph/import_discovery.rs:84 | walking a statement list records exactly the imports of the list |
| GraphImportDiscovery.VisitStmt | src/import_graph/import_discovery.rs:84 | walking one statement records exactly its imports and those of the children it chose |
| GraphImportDiscovery.GetImportsForModule | src/import_graph/import_discovery.rs:57-87 | the imports of a module are exactly those its statements record |
| GraphImportDiscovery.DiscoverImports | src/import_graph/import_discovery.rs:18-55 | every module of the index has an entry, and nothing else; each entry is the imports found in that module's file |
| GraphImportDiscovery.ImportTargetsMembership | src/import_graph/import_discovery.rs:101-126 | an `import` records a module exactly when it is the first known of `X` and `X.__init__` for one of the names looked at |
| GraphImportDiscovery.ExternalNameStopsImport | src/import_graph/import_discovery.rs:102-110 | a name after an external one in the same statement is never looked at |
| GraphImportDiscovery.FromTargetsMembership | src/import_graph/import_discovery.rs:172-192 | a `from` statement records a module exactly when it is the first known of the four candidates of one of its names |
| GraphImportDiscovery.FirstModuleIsFirstKnown | src/import_graph/import_discovery.rs:113-122 | the candidate recorded is the first that names a module, no earlier one naming any |
| GraphImportDiscovery.ExclusionOnlyRemoves | src/import_graph/import_discovery.rs:195-212 | excluding TYPE_CHECKING imports only ever removes imports |
| GraphImportDiscovery.StmtExclusionOnlyRemoves | src/import_graph/import_discovery.rs:195-212 | the same for one statement |
| GraphImportDiscovery.TypecheckingBodySkipped | src/import_graph/import_discovery.rs:196-209 | with the option on, a TYPE_CHECKING block contributes only the imports of its else-branch |
| GraphSearch.PathSteps | src/import_graph/graph.rs:367-375 | a path is exactly a non-empty sequence in which each node imports the next |
| GraphSearch.Backwards | src/imports_info/queries/internal_imports.rs:92-98 | the sequence read from the end, of the same length |
| GraphSearch.NextOfUnion | src/import_graph/graph.rs:251-256 | the nodes imported by a union are those imported by either part |
| GraphSearch.InNext | src/import_graph/graph.rs:251-256 | a node imported by a node of the set is among the set's imports |
| GraphSearch.Shorten | src/import_graph/graph.rs:367-375 | a path without its last node is a path from the same start, whose last node imports the dropped one |
| GraphSearch.Extend | src/import_graph/graph.rs:367-375 | a path from a start extended by one import is a path from that start to the new node |
| GraphSearch.ClosedHoldsPaths | src/import_graph/graph.rs:251-256 | a set holding the starts and everything its nodes import holds the end of every path from a start |
| GraphSearch.Expand | src/imports_info/queries/external_imports.rs:361-395 | one level adds exactly the unvisited imports of the frontier, each with a recorded path one import longer, keeping what the search knows |
| GraphSearch.ExtendPaths | src/imports_info/queries/external_imports.rs:361-395 | each new node gets a path from a start through a frontier node that imports it |
| GraphSearch.ExpandLevel | src/imports_info/queries/external_imports.rs:361-395 | after one more level every path of one more import from a start ends at a visited node |
| GraphSearch.PathsReachable | src/imports_info/queries/internal_imports.rs:69-78 | every visited node is reachable from a start |
| GraphSearch.NoTargetYet | src/imports_info/queries/external_imports.rs:361-395 | while no visited node is a target, every path to a target is longer than the levels searched |
| GraphSearch.ExhaustedIsComplete | src/imports_info/queries/external_imports.rs:361-397 | when a level adds nothing and no target was visited, no path from a start reaches a target and every such path stays among the visited nodes |
| GraphSearch.Search | src/imports_info/queries/external_imports.rs:361-397 | a path from a start to a target no longer than any other, or nothing when no path leads to a target; every visited node is reachable |
| GraphSearch.StartPaths | src/imports_info/queries/external_imports.rs:361-362 | before any import is followed the starts are visited, each with itself as its path |
| GraphSearch.FoundIsShortest | src/imports_info/queries/external_imports.rs:390-395 | a target visited before any shorter path to a target exists has a recorded path that is a shortest one |
| GraphSearch.Shrinks | src/imports_info/queries/external_imports.rs:361-395 | each level that adds a node visits one more node of a finite universe, so the search ends |
| GraphSearch.Reach | src/imports_info/queries/internal_imports.rs:69-78 | exactly the nodes reachable from the starts, the starts included |
| GraphSearch.ShortestPath | src/import_graph/graph.rs:367-375 | a shortest path from one node to another, or nothing when there is none |
| GraphSearch.ShortestCycle | src/import_graph/graph.rs:356-365 | a shortest cycle of at least one import back to the node, or nothing when there is none |
| GraphSearch.CycleFromRest | src/import_graph/graph.rs:356-365 | a path from an import of a node back to it, preceded by the node, is a cycle through it |
| GraphSearch.RestOfCycle | src/import_graph/graph.rs:356-365 | a cycle through a node without its first node is a path from one of the node's imports back to it |
| ImportGraphs.PackagePypaths | src/import_graph/graph.rs:23-28 | exactly the pypaths of the indexed packages |
| ImportGraphs.ModulePypaths | src/import_graph/graph.rs:30-35 | exactly the pypaths of the indexed modules |
| ImportGraphs.NamesAreKeys | src/import_graph/indexing.rs:13-37 | with each entry under its own pypath, `packages` and `modules` return exactly the index keys |
| ImportGraphs.PackageFromModule | src/import_graph/graph.rs:37-47 | `ModuleNotFound` exactly for an unknown module; otherwise the pypath of the package the index records for that module |
| ImportGraphs.ChildPackages | src/import_graph/graph.rs:49-61 | `PackageNotFound` exactly for an unknown package; otherwise exactly the pypaths of its direct children |
| ImportGraphs.ChildModules | src/import_graph/graph.rs:63-75 | `PackageNotFound` exactly for an unknown package; otherwise exactly the pypaths of its own modules |
| ImportGraphs.InTreeSize | src/import_graph/graph.rs:91-101 | a package inside a tree has no more packages below it than the tree |
| ImportGraphs.NotOwnDescendant | src/import_graph/graph.rs:91-101 | a package is not among its own descendants |
| ImportGraphs.SubtreeInTree | src/import_graph/graph.rs:117-129 | the tree of a package inside a tree lies inside that tree |
| ImportGraphs.DescendantPackageList | src/import_graph/graph.rs:91-101 | the stack walk lists exactly the packages below the package, never the package itself |
| ImportGraphs.DescendantModuleSet | src/import_graph/graph.rs:117-129 | the stack walk collects exactly the modules of the package's tree |
| ImportGraphs.DescendantPackages | src/import_graph/graph.rs:77-89 | `PackageNotFound` exactly for an unknown package; otherwise the pypaths of every package below it |
| ImportGraphs.DescendantModules | src/import_graph/graph.rs:103-115 | `PackageNotFound` exactly for an unknown package; otherwise the pypaths of every module of its tree |
| ImportGraphs.Expand | src/import_graph/graph.rs:163-175 | a package stands for the modules of its tree, else a module for itself; any other name is `ModuleNotFound` |
| ImportGraphs.DirectImports | src/import_graph/graph.rs:131-144 | one key per importing module's pypath, mapped to the pypaths of what it imports |
| ImportGraphs.DirectImportsFlat | src/import_graph/graph.rs:146-156 | exactly the pairs of an importer's pypath and one of its imports' pypaths |
| ImportGraphs.DirectImportExists | src/import_graph/graph.rs:158-201 | the first unknown name, `from` first, is `ModuleNotFound`; otherwise true exactly when a module of the first expansion imports one of the second |
| ImportGraphs.AnyImport | src/import_graph/graph.rs:189-196 | the nested loop finds an import exactly when one exists between the two sets |
| ImportGraphs.ModulesDirectlyImportedBy | src/import_graph/graph.rs:203-220 | an unknown name is `ModuleNotFound`; otherwise exactly the pypaths of modules imported by a module of the expansion |
| ImportGraphs.ModulesThatDirectlyImport | src/import_graph/graph.rs:222-239 | an unknown name is `ModuleNotFound`; otherwise exactly the pypaths in the reverse entries of the expansion |
| ImportGraphs.Neighbours | src/import_graph/graph.rs:211-214 | the loop gathers exactly the entries of the given modules |
| ImportGraphs.ReverseEntriesAreImporters | src/import_graph/indexing.rs:53-64 | over a mirrored reverse map, the reverse entries of a set are exactly the modules importing one of its modules |
| ImportGraphs.Transitive | src/import_graph/graph.rs:249-264 | exactly the modules reached from some start other than by that start itself |
| ImportGraphs.BelowStep | src/import_graph/graph.rs:250-263 | one turn adds what one start reaches, less that start |
| ImportGraphs.DownstreamModules | src/import_graph/graph.rs:241-265 | an unknown name is `ModuleNotFound`; otherwise the pypaths of every module some module of the expansion imports its way to, each start left out for itself |
| ImportGraphs.UpstreamModules | src/import_graph/graph.rs:267-291 | an unknown name is `ModuleNotFound`; otherwise the same search over the reverse map |
| ImportGraphs.BackwardsIsReversePath | src/import_graph/indexing.rs:53-64 | an import path read backwards is a path of the mirrored reverse map |
| ImportGraphs.BackwardsIsImportPath | src/import_graph/indexing.rs:53-64 | a path of the mirrored reverse map read backwards is an import path |
| ImportGraphs.UpstreamIsReversedDownstream | src/import_graph/graph.rs:267-291 | t reaches x over the reverse map exactly when x imports its way to t |
| ImportGraphs.ShortestModulePath | src/import_graph/graph.rs:350-382 | a shortest cycle back when both ends are the same module, else a shortest path between them; nothing when there is none |
| ImportGraphs.PypathSeq | src/import_graph/graph.rs:365 | the pypaths along a path, in order |
| ImportGraphs.ShortestPathBetween | src/import_graph/graph.rs:338-348 | an unknown module is `ModuleNotFound`, the first name checked first; otherwise the pypaths of a shortest route, or nothing when there is no route |
| ImportGraphs.PathExists | src/import_graph/graph.rs:293-336 | an unknown name is `ModuleNotFound`; otherwise true exactly when a module of the first expansion has a route to one of the second, a module reaching itself only through a cycle |
| ImportGraphs.AnyRoute | src/import_graph/graph.rs:324-331 | the nested loop finds a route exactly when some pair has one |
| ImportGraphs.MirrorOf | src/import_graph/indexing.rs:53-64 | the rebuilt reverse map mirrors the import map |
| ImportGraphs.CheckPair | src/import_graph/graph.rs:389-405 | a pair passes exactly when both names are modules and the first imports the second; otherwise the first failing check's error |
| ImportGraphs.IgnoreImports | src/import_graph/graph.rs:384-417 | the first failing pair gives its error; otherwise the indexes are unchanged, exactly the named imports are gone and the reverse map mirrors the result |
| ImportGraphs.RemoveStep | src/import_graph/graph.rs:408-414 | one removal extends the removed edges by one, keeping every key |
| ImportGraphs.IndexPackages | src/import_graph/graph.rs:433-436 | the index holds exactly the given packages, each under its own pypath |
| ImportGraphs.IndexModules | src/import_graph/graph.rs:438-441 | each module is indexed under its own pypath, and every entry is one of them |
| ImportGraphs.RestrictImports | src/import_graph/graph.rs:450-459 | every module of the tree keyed, with exactly its imports inside the tree |
| ImportGraphs.Subgraph | src/import_graph/graph.rs:419-470 | `PackageNotFound` exactly for an unknown package; otherwise the package's tree alone: its packages and modules indexed, the package-by-module entries of its modules, only imports with both ends inside, and a mirrored reverse map |
| ImportGraphs.InitIndex | src/import_graph/graph.rs:548-556 | the position of the first module whose pypath ends in `.__init__` |
| ImportGraphs.InitModule | src/import_graph/graph.rs:548-556 | one of the package's own modules, an init module |
| ImportGraphs.MergeInto | src/import_graph/graph.rs:490-515 | one removed module: the init module takes over its imports and its importers import the init module, on both maps, which stay mirrored |
| ImportGraphs.SquashPackage | src/import_graph/graph.rs:472-546 | `PackageNotFound` exactly for an unknown package; otherwise the tree's other modules are gone from the maps and indexes, their imports merged into the init module, imports of them redirected to it, no module imports itself, the packages below leave the index, every surviving index entry keeps its value and the reverse map mirrors the result |
| ImportGraphs.RemoveSelfImports | src/import_graph/graph.rs:537-543 | every module leaves its own entry; nothing else changes |
| ImportGraphs.MergeRemoved | src/import_graph/graph.rs:490-515 | after the first loop every removed module is merged into the init module, on both maps, which stay mirrored |
| ImportGraphs.DropRemoved | src/import_graph/graph.rs:517-530 | the removed modules leave both maps, as keys and as values, and both module indexes, whose surviving entries keep their values |
| ImportGraphs.RemovePackages | src/import_graph/graph.rs:531-535 | exactly the pypaths of the listed packages leave the package index; the other entries keep their values |
| ImportGraphs.MergeStep | src/import_graph/graph.rs:490-515 | merging one more module extends the merge done so far |
| ImportGraphs.DropStep | src/import_graph/graph.rs:517-525 | dropping one more module extends the drop done so far |
| ImportGraphs.SquashedImports | src/import_graph/graph.rs:488-543 | merging, dropping and removing self-imports give the squashed import map |
| ImportGraphs.DroppedMirror | src/import_graph/graph.rs:517-525 | dropping the same modules from a map and its mirror leaves a mirror |
| ImportGraphs.NoSelfMirror | src/import_graph/graph.rs:537-543 | removing self-imports from a map and its mirror leaves a mirror |
| ImportGraphs.SquashRedirects | src/import_graph/graph.rs:472-546 | an import of a removed module now goes to the init module; what a removed module imported the init module now imports; other imports between kept modules stay, and no new one appears except through the init module |
| LegacyPackageDiscovery.ModuleOfFile | src/package_discovery.rs:106-112 | a `.py` file's module sits at the file's path below the package directory |
| LegacyPackageDiscovery.HasInitFile | src/package_discovery.rs:77-82 | the listing makes a package exactly when some entry is the file `__init__.py` |
| LegacyPackageDiscovery.CollectModules | src/package_discovery.rs:106-116 | the module loop gives one module per `.py` file of the listing, in order |
| LegacyPackageDiscovery.DiscoverPackage | src/package_discovery.rs:62-136 | the loops compute the recursive discovery: `CannotReadDir`, then `NotAPythonPackage`, then the children's first other error, else the package |
| LegacyPackageDiscovery.RootPypathIsItsName | src/package_discovery.rs:150-151 | the root directory is named by its own directory name |
| LegacyPackageDiscovery.PypathPieces | src/package_discovery.rs:138-155 | below the root, a pypath is the root's name and the relative components joined by dots, ".py" dropped for a file |
| LegacyPackageDiscovery.InitFileDecidesPackage | src/package_discovery.rs:99-101 | a readable directory fails with `NotAPythonPackage` exactly when it holds no `__init__.py` |
| LegacyPackageDiscovery.ChildrenNeverNotAPackage | src/package_discovery.rs:128-131 | a subdirectory that is not a package never fails its parent |
| LegacyPackageDiscovery.ChildrenAreVisiblePackages | src/package_discovery.rs:118-133 | the children are exactly the discovered visible subdirectories; discovery fails exactly when one of them fails other than by not being a package |
| LegacyPackageDiscovery.ModulesArePyFiles | src/package_discovery.rs:106-116 | the modules are exactly the `.py` files: each module comes from one and each gives a module at its path |
| LegacyIndexing.PopPush | src/indexing.rs:14-19 | popping the top of the stack and pushing its children keeps the packages and modules still to visit and shrinks the work left |
| LegacyIndexing.GetPackagesByPypath | src/indexing.rs:9-21 | every package of the tree is indexed under its own pypath, and every entry is one of them |
| LegacyIndexing.GetModulesByPypath | src/indexing.rs:23-35 | every module of every package of the tree is indexed under its own pypath, and every entry is one of them |
| LegacyImportDiscovery.FirstKnown | src/import_discovery.rs:119-125 | the position of the first known candidate, or none when no candidate is known |
| LegacyImportDiscovery.ComputeFromPrefix | src/import_discovery.rs:78-110 | the `from` prefix: the level part climbed from the importer's pypath and the module part, joined by a dot when both are present |
| LegacyImportDiscovery.ImportVisitor.constructor | src/import_discovery.rs:46-50 | a visitor for the importing module, with no imports yet |
| LegacyImportDiscovery.ImportVisitor.AddKnown | src/import_discovery.rs:67-74 | every known candidate is recorded; an unknown one stops nothing |
| LegacyImportDiscovery.ImportVisitor.AddFirstKnown | src/import_discovery.rs:113-126 | only the first known candidate is recorded |
| LegacyImportDiscovery.ImportVisitor.VisitImport | src/import_discovery.rs:65-76 | `import` records each known candidate of each name |
| LegacyImportDiscovery.ImportVisitor.VisitImportFrom | src/import_discovery.rs:77-128 | `from ... import` records the first known candidate of each name under the combined prefix |
| LegacyImportDiscovery.ImportVisitor.AddFromNames | src/import_discovery.rs:112-127 | the name loop records the first known candidate of every name |
| LegacyImportDiscovery.ImportVisitor.Visit | src/import_discovery.rs:63-132 | the visit records what the statement imports and always asks for its children |
| LegacyImportDiscovery.WalkTargetsAppend | src/ast_visit.rs:11-13 | walking two statement lists one after the other records the union of what each records |
| LegacyImportDiscovery.VisitStatements | src/ast_visit.rs:7-14 | walking a body records what every statement at every depth imports |
| LegacyImportDiscovery.VisitStmt | src/ast_visit.rs:16-80 | one statement and its nested statements record what each of them imports |
| LegacyImportDiscovery.GetImportsForModule | src/import_discovery.rs:28-54 | a fresh visitor's walk gives exactly the module's imports |
| LegacyImportDiscovery.DiscoverImports | src/import_discovery.rs:17-26 | one entry per indexed module's pypath, holding that module's imports |
| LegacyImportDiscovery.KnownTargetsMembership | src/import_discovery.rs:67-74 | a pypath is recorded exactly when some candidate is a known module with that pypath |
| LegacyImportDiscovery.ImportTargetsMembership | src/import_discovery.rs:65-76 | `import X` records both `X` and `X.__init__` when both are known, with no early break between candidates or names |
| LegacyImportDiscovery.FromTargetsMembership | src/import_discovery.rs:112-127 | `from P import x` records, per name, exactly its first known candidate, and skips a name with none |
| LegacyImportDiscovery.ImportTargetsAppend | src/import_discovery.rs:66 | the names of two lists record the union of what each records |
| LegacyImportDiscovery.LevelPrefixPieces | src/import_discovery.rs:84-95 | level L keeps all but the last L pieces of the importer's pypath; level 1 is the importer's own package |
| LegacyImportDiscovery.CombinedPrefixParts | src/import_discovery.rs:105-110 | a level alone or a module alone is the prefix by itself; both together give the level's pieces followed by the module's |
| LegacyImportDiscovery.NestedStatementsContribute | src/import_discovery.rs:51 | every statement at any depth contributes its imports to the module's imports |

## Left out

- Filesystem I/O is not modelled. This covers `fs::read_dir`, `fs::read_to_string`, `DirectoryReader` and file metadata. Each builder takes the directory listing or tree as a value. A listing is required to give a directory before its contents, which is what the source's `parent()` lookups rely on.
- File modification times are parameters. `src/import_graph/package_discovery.rs` reads them from disk.
- Python parsing is not modelled. This covers `rustpython_parser` and the `LinearLocator` line numbers. A module's statements are a given `Ast` tree, and line numbers are opaque inputs.
- The AST walkers are reduced to the statement kinds the visitors react to. These are `src/ast_visit.rs`, `src/import_discovery/ast_visit.rs` and `src/import_graph/ast_visit.rs`. Every other statement is a block of nested statements.
- rayon parallelism (`par_bridge`, `try_fold`, `try_reduce`, `par_iter`) is modelled as sequential loops and folds. Where the source collects into a set, merge order makes no difference. Where it collects into a `Vec`, the model fixes the listing order.
- Error choice under parallelism is not modelled. When several files or directories fail at once, the source may report any one of them. The model reports the first in listing order.
- `HashSet` and `HashMap` iteration order is not modelled as such. Where the order shows in a result, the model fixes one order: ascending token order for token sets, or an order given as a parameter. Examples are the order of `get_child_items`, the order of forbidden imports, and the order `build_package_info` takes its keys.
- Tie-breaking between equally short paths is not modelled. The source's breadth-first search takes successors in `HashSet` order. The model proves that a path found is a shortest one, not which shortest path it is.
- Panics and `unwrap`s are preconditions, not behaviour. Examples are a relative import climbing above the filesystem root, a relative level deeper than the importer's pypath (the `usize` subtraction `len + 1 - level` in `src/import_discovery.rs:92` and `src/import_graph/import_discovery.rs:144` panics in a debug build and wraps in a release build, where `take` then keeps every piece; `LevelFits` requires the level to fit), an unknown item in `build_imports_info`, a package without an init module where one is unwrapped, `panic!("Could not parse import")`, and an internal name with no known candidate in the import graph's visitor.
- `Result` wrappers whose only error source is left out are plain values. `get_packages_by_pypath` and `get_modules_by_pypath` in `src/indexing.rs`, and `get_pypath`, never return `Err` once the unwraps are preconditions.
- `LegacyPackageDiscovery`: `Package::new`, `add_child` and `add_module` (`src/package_discovery.rs:32-47`) are not a class. A package there is built once, frozen behind an `Arc`, and never updated afterwards, so it is a datatype value built from the discovered children and modules.
- `src/import_graph/cache.rs` is not part of this model. It is a JSON cache on disk with `SystemTime` staleness checks, and it involves serde, I/O and clocks.
- The JSON loaders of `src/grimp_compare.rs`, `src/main.rs`, `src/testutils.rs` and `src/lib.rs` are not part of this model. They are loading, command-line and fixture code.
- `src/import_graph/builder.rs` is not part of this model. It calls an `ImportGraph::build` that the repository does not define, so the graph's maps are given.
- `ExternalImportsQueries`: `get_direct_imports` (`src/imports_info/queries/external_imports.rs:93-99`) returns a copy of the external map. The model reads that map directly.
- `InternalImportsQueries`: `find_path` and `get_package_contents` are called but not defined in the repository. `find_path` is modelled on the external `find_path`, a shortest path that avoids the excluded items. `get_package_contents` is modelled as the package itself together with its descendant items.
- ArenaPackages.Build, ArenaPackages.InitModuleIsInitFile and ArenaImports.InitImportsOfBuilt are stated for either init test. The build the rest of the model relies on is the corrected one; under the test as written, `AsWrittenRecordsNoInit` and `NoInitImportsAsWritten` show that no init module and no implicit init import exist.
- ExternalImportsQueries.GetDownstreamItems and ExternalImportsQueries.DownstreamOfAll pass a set of items to the internal `get_downstream_items` (`src/imports_info/queries/external_imports.rs:238-242`), whose definition takes one item (`src/imports_info/queries/internal_imports.rs:63-66`). The model reads the call as the union of the downstream items of each item in the set.
- GraphImportDiscovery.ImportVisitor.Visit follows the visitor interface in `src/import_graph/ast_visit.rs:5`, which returns a `bool` saying whether to visit the children. `src/import_graph/import_discovery.rs:98` returns `ast_visit::VisitChildren`, which the repository does not define.
- Contracts.WithDescendants: `src/package_info/mod.rs:412-413` passes any item token to `get_descendant_items`, whose definition takes a package token (`src/package_info/queries.rs:78-81`). The model gives a module no descendants, so a module token adds only itself.
- `Contracts`: the contracts call `find_violations`, but `src/contracts/utils.rs` defines only `find_internal_import_violations`. The model uses the latter. See `src/contracts/forbidden_internal.rs:81`, `src/contracts/independent.rs:90` and `src/contracts/layers.rs:107`.
- `Contracts`: `ContractViolation` in `src/contracts/mod.rs:35-43` has one `ForbiddenImport` variant, while `src/contracts/utils.rs` builds `ForbiddenInternalImport` and `ForbiddenExternalImport`. The model has one variant for each: `InternalViolation` and `ExternalViolation`.
- `Independent` and `Layers` remove the ignored imports unconditionally. The source skips the call when the list is empty, which gives the same result.
- The regex `\w` in `src/pypath.rs:16` is `[A-Za-z0-9_]`. Unicode word characters are not modelled.
- Strings are sequences of characters. There is no OS-string encoding, and a path is a sequence of component names.
- `PackageInfoGrimp.BuildPackageInfo` requires what the source unwraps or asserts: every key is a valid pypath, all keys share one top-level package, and some key has a parent. The key order is a parameter, deepest first, standing for the sort whose ties `HashMap` order decides.

## Findings

| source | as written | input that shows it | evidently intended | confidence | as-written member | corrected member |
|---|---|---|---|---|---|---|
| src/package_discovery/mod.rs:71 | `is_init: path.ends_with(".__init__.py")`. `Path::ends_with` compares whole components, so it holds only for a file literally named `.__init__.py`. | the file `pkg/__init__.py` gives `is_init == false`, so no package of this generation records an init module | `is_init` holds when the file name is `__init__.py` | not executed; follows from the component-wise semantics of `Path::ends_with` | `ArenaPackages.NewModuleAsWritten` and `ArenaPackages.Build` with `AsWritten` (shown by `ArenaPackages.InitFileMissedAsWritten`, `ArenaPackages.InitFileMissedExample`, `ArenaPackages.AsWrittenRecordsNoInit` and `ArenaImports.NoInitImportsAsWritten`) | `ArenaPackages.NewModule` and `ArenaPackages.Build` with `Corrected` |
