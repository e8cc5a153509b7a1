/**
 * Import discovery of the string-keyed generation (src/import_discovery.rs):
 * every `import` and `from ... import` statement of a module, at any depth,
 * is matched against the known modules by pypath, and the pypaths of the
 * matched modules are collected into a set.
 */
module LegacyImportDiscovery {
  import opened Wrappers
  import opened Strings
  import opened Ast
  import opened LegacyPackageDiscovery
  import Pypaths

  /** The index of src/indexing.rs: module pypath to module. */
  type ModulesByPypath = map<string, Module>

  /** The pypaths of the known modules among `candidates`. */
  function KnownTargets(candidates: seq<string>, modules: ModulesByPypath): set<string>
  {
    if |candidates| == 0 then {}
    else
      var c := candidates[|candidates| - 1];
      KnownTargets(candidates[..|candidates| - 1], modules) + if c in modules then {modules[c].pypath} else {}
  }

  /** `import X` looks up `X` and `X.__init__`. */
  function ImportCandidates(name: string): seq<string>
  {
    [name, name + ".__init__"]
  }

  /** What `import a, b, ...` adds: each known candidate of each name. */
  function ImportTargets(names: seq<Alias>, modules: ModulesByPypath): set<string>
  {
    if |names| == 0 then {}
    else ImportTargets(names[..|names| - 1], modules) + KnownTargets(ImportCandidates(names[|names| - 1].name), modules)
  }

  /** What the relative level demands: it climbs no higher than the importer's pypath has pieces. */
  predicate LevelFits(level: Option<nat>, modulePypath: string)
  {
    level.None? || level.value <= |Split(modulePypath, '.')|
  }

  /**
   * The level part of a `from` prefix: empty for an absolute import; for level
   * L the first `len + 1 - L` pieces of the importer's pypath without its last
   * piece.
   */
  function LevelPrefix(level: Option<nat>, modulePypath: string): string
    requires LevelFits(level, modulePypath)
  {
    if level.None? || level.value == 0 then ""
    else
      var parts := Split(modulePypath, '.');
      var front := parts[..|parts| - 1];
      Join(front[..|front| + 1 - level.value], '.')
  }

  function ModulePrefix(moduleName: Option<string>): string
  {
    if moduleName.Some? then moduleName.value else ""
  }

  /** What the `(0, 0) => panic!` arm demands: at least one of the two prefixes is non-empty. */
  predicate PrefixDefined(level: Option<nat>, moduleName: Option<string>, modulePypath: string)
  {
    LevelFits(level, modulePypath) && (LevelPrefix(level, modulePypath) != "" || ModulePrefix(moduleName) != "")
  }

  /** The combined prefix: the non-empty parts, joined by a dot when both are present. */
  function CombinedPrefix(levelPrefix: string, modulePrefix: string): string
    requires levelPrefix != "" || modulePrefix != ""
  {
    if levelPrefix == "" then modulePrefix
    else if modulePrefix == "" then levelPrefix
    else levelPrefix + "." + modulePrefix
  }

  /** `from P import x` looks up, in this order: `P.x`, `P`, `P.x.__init__`, `P.__init__`. */
  function FromCandidates(prefix: string, name: string): seq<string>
  {
    [prefix + "." + name, prefix, prefix + "." + name + ".__init__", prefix + ".__init__"]
  }

  /** The index of the first known candidate, if any. */
  function FirstKnown<V>(candidates: seq<string>, modules: map<string, V>): (r: Option<nat>)
    ensures r.Some? ==> (r.value < |candidates| && candidates[r.value] in modules
                         && forall j :: 0 <= j < r.value ==> candidates[j] !in modules)
    ensures r.None? ==> forall j :: 0 <= j < |candidates| ==> candidates[j] !in modules
  {
    if |candidates| == 0 then None
    else if candidates[0] in modules then Some(0)
    else
      match FirstKnown(candidates[1..], modules)
      case None => None
      case Some(k) => Some(k + 1)
  }

  function FirstTarget(candidates: seq<string>, modules: ModulesByPypath): set<string>
  {
    match FirstKnown(candidates, modules)
    case None => {}
    case Some(k) => {modules[candidates[k]].pypath}
  }

  /** What `from P import a, b, ...` adds: the first known candidate of each name. */
  function FromTargets(prefix: string, names: seq<Alias>, modules: ModulesByPypath): set<string>
  {
    if |names| == 0 then {}
    else FromTargets(prefix, names[..|names| - 1], modules) + FirstTarget(FromCandidates(prefix, names[|names| - 1].name), modules)
  }

  /** What visiting a statement demands: a `from` statement has a defined prefix. */
  predicate CanVisit(stmt: Stmt, modulePypath: string)
  {
    stmt.ImportFrom? ==> PrefixDefined(stmt.level, stmt.moduleName, modulePypath)
  }

  /** What visiting one statement adds. */
  function StmtTargets(stmt: Stmt, modulePypath: string, modules: ModulesByPypath): set<string>
    requires CanVisit(stmt, modulePypath)
  {
    match stmt
    case Import(names) => ImportTargets(names, modules)
    case ImportFrom(level, moduleName, names) =>
      FromTargets(CombinedPrefix(LevelPrefix(level, modulePypath), ModulePrefix(moduleName)), names, modules)
    case _ => {}
  }

  predicate AllCanVisit(stmts: seq<Stmt>, modulePypath: string)
  {
    forall s :: s in stmts ==> CanVisit(s, modulePypath)
  }

  /** What a walk over the given statements, one after the other, adds. */
  function WalkTargets(stmts: seq<Stmt>, modulePypath: string, modules: ModulesByPypath): set<string>
    requires AllCanVisit(stmts, modulePypath)
  {
    if |stmts| == 0 then {}
    else WalkTargets(stmts[..|stmts| - 1], modulePypath, modules) + StmtTargets(stmts[|stmts| - 1], modulePypath, modules)
  }

  /** The imports of a module: what visiting every statement, at any depth, adds. */
  function ModuleImports(body: seq<Stmt>, modulePypath: string, modules: ModulesByPypath): set<string>
    requires AllCanVisit(Flatten(body), modulePypath)
  {
    WalkTargets(Flatten(body), modulePypath, modules)
  }

  /**
   * The prefix computation of the `ImportFrom` arm: the level part from the
   * importer's pypath, the module part, and their combination.
   */
  method ComputeFromPrefix(level: Option<nat>, moduleName: Option<string>, modulePypath: string) returns (prefix: string)
    requires PrefixDefined(level, moduleName, modulePypath)
    ensures prefix == CombinedPrefix(LevelPrefix(level, modulePypath), ModulePrefix(moduleName))
  {
    var levelPrefix := "";
    if level.Some? && level.value != 0 {
      var parts := Split(modulePypath, '.');
      parts := parts[..|parts| - 1];
      var len := |parts|;
      levelPrefix := Join(parts[..len + 1 - level.value], '.');
    }
    var modulePrefix := if moduleName.Some? then moduleName.value else "";
    if |levelPrefix| == 0 {
      prefix := modulePrefix;
    } else if |modulePrefix| == 0 {
      prefix := levelPrefix;
    } else {
      prefix := levelPrefix + "." + modulePrefix;
    }
  }

  /** `ImportVisitor`: the importing module's pypath, the module index, and the imports found so far. */
  class ImportVisitor {
    const modulePypath: string
    const modulesByPypath: ModulesByPypath
    var imports: set<string>

    constructor(modulePypath: string, modulesByPypath: ModulesByPypath)
      ensures this.modulePypath == modulePypath && this.modulesByPypath == modulesByPypath
      ensures imports == {}
    {
      this.modulePypath := modulePypath;
      this.modulesByPypath := modulesByPypath;
      imports := {};
    }

    /** Adds the pypath of every known candidate among `candidates`; none stops the others. */
    method AddKnown(candidates: seq<string>)
      modifies this
      ensures imports == old(imports) + KnownTargets(candidates, modulesByPypath)
    {
      var j := 0;
      while j < |candidates|
        invariant 0 <= j <= |candidates|
        invariant imports == old(imports) + KnownTargets(candidates[..j], modulesByPypath)
      {
        assert candidates[..j + 1][..j] == candidates[..j];
        var pypath := candidates[j];
        if pypath in modulesByPypath {
          imports := imports + {modulesByPypath[pypath].pypath};
        }
        j := j + 1;
      }
      assert candidates[..|candidates|] == candidates;
    }

    /** Adds the pypath of the first known candidate only. */
    method AddFirstKnown(candidates: seq<string>)
      modifies this
      ensures imports == old(imports) + FirstTarget(candidates, modulesByPypath)
    {
      var j := 0;
      while j < |candidates|
        invariant 0 <= j <= |candidates|
        invariant forall k :: 0 <= k < j ==> candidates[k] !in modulesByPypath
        invariant imports == old(imports)
      {
        var pypath := candidates[j];
        if pypath in modulesByPypath {
          assert FirstKnown(candidates, modulesByPypath) == Some(j);
          imports := imports + {modulesByPypath[pypath].pypath};
          break;
        }
        j := j + 1;
      }
    }

    /** The `Stmt::Import` arm. */
    method VisitImport(names: seq<Alias>)
      modifies this
      ensures imports == old(imports) + ImportTargets(names, modulesByPypath)
    {
      var i := 0;
      while i < |names|
        invariant 0 <= i <= |names|
        invariant imports == old(imports) + ImportTargets(names[..i], modulesByPypath)
      {
        assert names[..i + 1][..i] == names[..i];
        AddKnown(ImportCandidates(names[i].name));
        i := i + 1;
      }
      assert names[..|names|] == names;
    }

    /** The `Stmt::ImportFrom` arm. */
    method VisitImportFrom(level: Option<nat>, moduleName: Option<string>, names: seq<Alias>)
      requires PrefixDefined(level, moduleName, modulePypath)
      modifies this
      ensures imports == old(imports)
        + FromTargets(CombinedPrefix(LevelPrefix(level, modulePypath), ModulePrefix(moduleName)), names, modulesByPypath)
    {
      var prefix := ComputeFromPrefix(level, moduleName, modulePypath);
      AddFromNames(prefix, names);
    }

    /** The name loop of the `ImportFrom` arm. */
    method AddFromNames(prefix: string, names: seq<Alias>)
      modifies this
      ensures imports == old(imports) + FromTargets(prefix, names, modulesByPypath)
    {
      for i := 0 to |names|
        invariant imports == old(imports) + FromTargets(prefix, names[..i], modulesByPypath)
      {
        assert names[..i + 1][..i] == names[..i];
        AddFirstKnown(FromCandidates(prefix, names[i].name));
      }
      assert names[..|names|] == names;
    }

    /** `visit`: adds what the statement imports, and always asks for its children. */
    method Visit(stmt: Stmt) returns (visitChildren: bool)
      requires CanVisit(stmt, modulePypath)
      modifies this
      ensures visitChildren
      ensures imports == old(imports) + StmtTargets(stmt, modulePypath, modulesByPypath)
    {
      match stmt {
        case Import(names) => VisitImport(names);
        case ImportFrom(level, moduleName, names) => VisitImportFrom(level, moduleName, names);
        case _ =>
      }
      return true;
    }
  }

  lemma {:induction false} WalkTargetsAppend(a: seq<Stmt>, b: seq<Stmt>, modulePypath: string, modules: ModulesByPypath)
    requires AllCanVisit(a, modulePypath) && AllCanVisit(b, modulePypath)
    ensures AllCanVisit(a + b, modulePypath)
    ensures WalkTargets(a + b, modulePypath, modules) == WalkTargets(a, modulePypath, modules) + WalkTargets(b, modulePypath, modules)
    decreases |b|
  {
    if |b| == 0 {
      assert a + b == a;
    } else {
      var front := b[..|b| - 1];
      assert (a + b)[..|a + b| - 1] == a + front;
      assert (a + b)[|a + b| - 1] == b[|b| - 1];
      WalkTargetsAppend(a, front, modulePypath, modules);
    }
  }

  /** `visit_statements`, and the loops of `visit_stmt` over nested statements (src/ast_visit.rs). */
  method VisitStatements(v: ImportVisitor, stmts: seq<Stmt>)
    requires AllCanVisit(Flatten(stmts), v.modulePypath)
    modifies v
    ensures v.imports == old(v.imports) + WalkTargets(Flatten(stmts), v.modulePypath, v.modulesByPypath)
    decreases stmts
  {
    for i := 0 to |stmts|
      invariant AllCanVisit(Flatten(stmts[..i]), v.modulePypath)
      invariant v.imports == old(v.imports) + WalkTargets(Flatten(stmts[..i]), v.modulePypath, v.modulesByPypath)
    {
      FlattenStep(stmts, i, v.modulePypath);
      VisitStmt(v, stmts[i]);
      WalkTargetsAppend(Flatten(stmts[..i]), FlattenStmt(stmts[i]), v.modulePypath, v.modulesByPypath);
    }
    assert stmts[..|stmts|] == stmts;
  }

  lemma SliceAt(stmts: seq<Stmt>, i: nat)
    requires i < |stmts|
    ensures stmts[..i + 1] == stmts[..i] + [stmts[i]]
    ensures stmts == stmts[..i + 1] + stmts[i + 1..]
  {
  }

  /** One more statement of the list: its flattening is appended, and it can be visited. */
  lemma FlattenStep(stmts: seq<Stmt>, i: nat, modulePypath: string)
    requires i < |stmts| && AllCanVisit(Flatten(stmts), modulePypath)
    ensures Flatten(stmts[..i + 1]) == Flatten(stmts[..i]) + FlattenStmt(stmts[i])
    ensures AllCanVisit(FlattenStmt(stmts[i]), modulePypath)
  {
    SliceAt(stmts, i);
    FlattenAppend(stmts[..i], [stmts[i]]);
    FlattenAppend(stmts[..i + 1], stmts[i + 1..]);
    assert Flatten([stmts[i]]) == FlattenStmt(stmts[i]) by {
      assert [stmts[i]][1..] == [];
    }
    var front, rest := Flatten(stmts[..i]), Flatten(stmts[i + 1..]);
    assert Flatten(stmts) == front + FlattenStmt(stmts[i]) + rest;
    forall s | s in FlattenStmt(stmts[i])
      ensures CanVisit(s, modulePypath)
    {
      assert s in Flatten(stmts);
    }
  }

  /** `visit_stmt`: visit the statement, then, since the visitor always says so, its nested statements. */
  method VisitStmt(v: ImportVisitor, stmt: Stmt)
    requires AllCanVisit(FlattenStmt(stmt), v.modulePypath)
    modifies v
    ensures v.imports == old(v.imports) + WalkTargets(FlattenStmt(stmt), v.modulePypath, v.modulesByPypath)
    decreases stmt
  {
    var ok := v.Visit(stmt);
    assert WalkTargets([stmt], v.modulePypath, v.modulesByPypath) == StmtTargets(stmt, v.modulePypath, v.modulesByPypath) by {
      assert [stmt][..0] == [];
    }
    match stmt {
      case If(_, body, orelse) =>
        VisitStatements(v, body);
        VisitStatements(v, orelse);
        WalkTargetsAppend(Flatten(body), Flatten(orelse), v.modulePypath, v.modulesByPypath);
        WalkTargetsAppend([stmt], Flatten(body) + Flatten(orelse), v.modulePypath, v.modulesByPypath);
      case Compound(nested) =>
        VisitStatements(v, nested);
        WalkTargetsAppend([stmt], Flatten(nested), v.modulePypath, v.modulesByPypath);
      case _ =>
    }
  }

  /** `get_imports_for_module` after reading and parsing: walk the module body with a fresh visitor. */
  method GetImportsForModule(importer: Module, body: seq<Stmt>, modulesByPypath: ModulesByPypath) returns (imports: set<string>)
    requires AllCanVisit(Flatten(body), importer.pypath)
    ensures imports == ModuleImports(body, importer.pypath, modulesByPypath)
  {
    var v := new ImportVisitor(importer.pypath, modulesByPypath);
    VisitStatements(v, body);
    imports := v.imports;
  }

  /** What every module's statements demand. */
  predicate AllParsable(modulesByPypath: ModulesByPypath, bodies: map<FsPaths.FsPath, seq<Stmt>>)
  {
    forall k :: k in modulesByPypath ==>
      modulesByPypath[k].path in bodies && AllCanVisit(Flatten(bodies[modulesByPypath[k].path]), modulesByPypath[k].pypath)
  }

  /**
   * `discover_imports`, one module at a time: each indexed module's pypath
   * maps to the imports found in its file. `bodies` stands for reading and
   * parsing each module's file.
   */
  method DiscoverImports(modulesByPypath: ModulesByPypath, bodies: map<FsPaths.FsPath, seq<Stmt>>)
    returns (imports: map<string, set<string>>)
    requires AllParsable(modulesByPypath, bodies)
    ensures imports.Keys == set k | k in modulesByPypath :: modulesByPypath[k].pypath
    ensures forall p :: p in imports ==>
      exists k :: (k in modulesByPypath && modulesByPypath[k].pypath == p
                   && imports[p] == ModuleImports(bodies[modulesByPypath[k].path], p, modulesByPypath))
  {
    imports := map[];
    var todo := modulesByPypath.Keys;
    while todo != {}
      invariant todo <= modulesByPypath.Keys
      invariant imports.Keys == set k | k in modulesByPypath.Keys - todo :: modulesByPypath[k].pypath
      invariant forall p :: p in imports ==>
        exists k :: (k in modulesByPypath && modulesByPypath[k].pypath == p
                     && imports[p] == ModuleImports(bodies[modulesByPypath[k].path], p, modulesByPypath))
      decreases |todo|
    {
      var k :| k in todo;
      var importer := modulesByPypath[k];
      var found := GetImportsForModule(importer, bodies[importer.path], modulesByPypath);
      imports := imports[importer.pypath := found];
      todo := todo - {k};
    }
  }

  /** A candidate contributes exactly when it is a known module. */
  lemma {:induction false} KnownTargetsMembership(candidates: seq<string>, modules: ModulesByPypath, x: string)
    ensures x in KnownTargets(candidates, modules) <==>
      exists j :: 0 <= j < |candidates| && candidates[j] in modules && modules[candidates[j]].pypath == x
    decreases |candidates|
  {
    if |candidates| > 0 {
      var front := candidates[..|candidates| - 1];
      KnownTargetsMembership(front, modules, x);
      if exists j :: 0 <= j < |front| && front[j] in modules && modules[front[j]].pypath == x {
        var j :| 0 <= j < |front| && front[j] in modules && modules[front[j]].pypath == x;
        assert candidates[j] == front[j];
      }
    }
  }

  /**
   * `import X` records both `X` and `X.__init__` when both are known: there
   * is no early break between the two candidates, nor between names.
   */
  lemma {:induction false} ImportTargetsMembership(names: seq<Alias>, modules: ModulesByPypath, x: string)
    ensures x in ImportTargets(names, modules) <==>
      exists i, j :: 0 <= i < |names| && 0 <= j < 2
        && ImportCandidates(names[i].name)[j] in modules && modules[ImportCandidates(names[i].name)[j]].pypath == x
    decreases |names|
  {
    if |names| > 0 {
      var front := names[..|names| - 1];
      ImportTargetsMembership(front, modules, x);
      KnownTargetsMembership(ImportCandidates(names[|names| - 1].name), modules, x);
      if exists i, j :: 0 <= i < |front| && 0 <= j < 2
          && ImportCandidates(front[i].name)[j] in modules && modules[ImportCandidates(front[i].name)[j]].pypath == x {
        var i, j :| 0 <= i < |front| && 0 <= j < 2
          && ImportCandidates(front[i].name)[j] in modules && modules[ImportCandidates(front[i].name)[j]].pypath == x;
        assert names[i] == front[i];
      }
      if exists i, j :: 0 <= i < |names| && 0 <= j < 2
          && ImportCandidates(names[i].name)[j] in modules && modules[ImportCandidates(names[i].name)[j]].pypath == x {
        var i, j :| 0 <= i < |names| && 0 <= j < 2
          && ImportCandidates(names[i].name)[j] in modules && modules[ImportCandidates(names[i].name)[j]].pypath == x;
        if i < |front| {
          assert names[i] == front[i];
        }
      }
    }
  }

  /**
   * `from P import x` records, per name, only the first known candidate, and
   * a name without any known candidate is skipped.
   */
  lemma {:induction false} FromTargetsMembership(prefix: string, names: seq<Alias>, modules: ModulesByPypath, x: string)
    ensures x in FromTargets(prefix, names, modules) <==>
      exists i :: 0 <= i < |names| && FirstKnown(FromCandidates(prefix, names[i].name), modules).Some?
        && modules[FromCandidates(prefix, names[i].name)[FirstKnown(FromCandidates(prefix, names[i].name), modules).value]].pypath == x
    decreases |names|
  {
    if |names| > 0 {
      var front := names[..|names| - 1];
      FromTargetsMembership(prefix, front, modules, x);
      forall i | 0 <= i < |front| ensures names[i] == front[i] { }
    }
  }

  lemma {:induction false} ImportTargetsAppend(a: seq<Alias>, b: seq<Alias>, modules: ModulesByPypath)
    ensures ImportTargets(a + b, modules) == ImportTargets(a, modules) + ImportTargets(b, modules)
    decreases |b|
  {
    if |b| == 0 {
      assert a + b == a;
    } else {
      var front := b[..|b| - 1];
      assert (a + b)[..|a + b| - 1] == a + front;
      assert (a + b)[|a + b| - 1] == b[|b| - 1];
      ImportTargetsAppend(a, front, modules);
    }
  }

  /**
   * Level 1 is the importer's own package, and each further level climbs one
   * package: level L keeps all but the last L pieces of the importer's pypath.
   */
  lemma LevelPrefixPieces(level: nat, modulePypath: string)
    requires 1 <= level < |Split(modulePypath, '.')|
    ensures LevelFits(Some(level), modulePypath)
    ensures Split(LevelPrefix(Some(level), modulePypath), '.') == Split(modulePypath, '.')[..|Split(modulePypath, '.')| - level]
    ensures level == 1 ==> LevelPrefix(Some(level), modulePypath) == Pypaths.Parent(Pypaths.Pypath(modulePypath)).s
  {
    LevelPrefixSplits(level, modulePypath);
    if level == 1 {
      LevelOneIsParent(modulePypath);
    }
  }

  lemma LevelPrefixSplits(level: nat, modulePypath: string)
    requires 1 <= level < |Split(modulePypath, '.')|
    ensures Split(LevelPrefix(Some(level), modulePypath), '.') == Split(modulePypath, '.')[..|Split(modulePypath, '.')| - level]
  {
    var parts := Split(modulePypath, '.');
    var n := |parts| - level;
    LevelPrefixIsJoin(level, modulePypath);
    SplitSepFree(modulePypath, '.');
    JoinFront(parts, n);
    assert LevelPrefix(Some(level), modulePypath) == Join(parts[..n], '.');
  }

  lemma LevelPrefixIsJoin(level: nat, modulePypath: string)
    requires 1 <= level < |Split(modulePypath, '.')|
    ensures LevelPrefix(Some(level), modulePypath) == Join(Split(modulePypath, '.')[..|Split(modulePypath, '.')| - level], '.')
  {
    LevelPrefixUnfolds(level, modulePypath);
    KeptPieces(Split(modulePypath, '.'), level);
  }

  lemma LevelOneIsParent(modulePypath: string)
    requires 1 < |Split(modulePypath, '.')|
    ensures LevelPrefix(Some(1), modulePypath) == Pypaths.Parent(Pypaths.Pypath(modulePypath)).s
  {
    LevelPrefixUnfolds(1, modulePypath);
    KeptPieces(Split(modulePypath, '.'), 1);
  }

  lemma LevelPrefixUnfolds(level: nat, modulePypath: string)
    requires 1 <= level < |Split(modulePypath, '.')|
    ensures LevelPrefix(Some(level), modulePypath)
      == Join(Split(modulePypath, '.')[..|Split(modulePypath, '.')| - 1][..|Split(modulePypath, '.')| - level], '.')
  {
  }

  /** Splitting the join of the first `n` pieces gives those pieces back. */
  lemma JoinFront(parts: seq<string>, n: nat)
    requires 1 <= n <= |parts| && SepFree(parts, '.')
    ensures Split(Join(parts[..n], '.'), '.') == parts[..n]
  {
    SepFreePrefix(parts, n, '.');
    SplitJoin(parts[..n], '.');
  }

  /** Level `level` keeps the first `len - level` pieces; level 1 keeps all but the last. */
  lemma KeptPieces(parts: seq<string>, level: nat)
    requires 1 <= level < |parts|
    ensures parts[..|parts| - 1][..|parts| - level] == parts[..|parts| - level]
    ensures level == 1 ==> parts[..|parts| - 1][..|parts| - level] == parts[..|parts| - 1]
  {
  }

  lemma SepFreePrefix(parts: seq<string>, n: nat, sep: char)
    requires n <= |parts| && SepFree(parts, sep)
    ensures SepFree(parts[..n], sep)
  {
    forall i | 0 <= i < n
      ensures sep !in parts[..n][i]
    {
      assert parts[..n][i] == parts[i];
    }
  }

  /** A `from` import with a level but no module uses the level prefix alone, and vice versa. */
  lemma CombinedPrefixParts(levelPrefix: string, modulePrefix: string)
    requires levelPrefix != "" || modulePrefix != ""
    ensures levelPrefix == "" ==> CombinedPrefix(levelPrefix, modulePrefix) == modulePrefix
    ensures modulePrefix == "" ==> CombinedPrefix(levelPrefix, modulePrefix) == levelPrefix
    ensures levelPrefix != "" && modulePrefix != "" ==>
      Split(CombinedPrefix(levelPrefix, modulePrefix), '.') == Split(levelPrefix, '.') + Split(modulePrefix, '.')
  {
    if levelPrefix != "" && modulePrefix != "" {
      SplitAppend(levelPrefix, modulePrefix, '.');
    }
  }

  /** The walk visits every statement at every depth: nested statements contribute to the module's imports. */
  lemma NestedStatementsContribute(body: seq<Stmt>, modulePypath: string, modules: ModulesByPypath, s: Stmt)
    requires AllCanVisit(Flatten(body), modulePypath)
    requires s in Flatten(body)
    ensures StmtTargets(s, modulePypath, modules) <= ModuleImports(body, modulePypath, modules)
  {
    WalkTargetsContains(Flatten(body), modulePypath, modules, s);
  }

  lemma {:induction false} WalkTargetsContains(stmts: seq<Stmt>, modulePypath: string, modules: ModulesByPypath, s: Stmt)
    requires AllCanVisit(stmts, modulePypath) && s in stmts
    ensures StmtTargets(s, modulePypath, modules) <= WalkTargets(stmts, modulePypath, modules)
    decreases |stmts|
  {
    var front := stmts[..|stmts| - 1];
    if s != stmts[|stmts| - 1] {
      assert stmts == front + [stmts[|stmts| - 1]];
      assert s in front;
      WalkTargetsContains(front, modulePypath, modules, s);
    }
  }
}
