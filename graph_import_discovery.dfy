/**
 * Import discovery of the import-graph generation
 * (src/import_graph/import_discovery.rs). Only imports inside the root
 * package are followed: an `import` statement stops at its first external
 * name, a `from` statement whose prefix is external records nothing, and
 * every followed name must resolve to a known module (the source panics
 * otherwise). With `exclude_type_checking_imports`, the body of an
 * `if TYPE_CHECKING:` block is not visited.
 */
module GraphImportDiscovery {
  import opened Wrappers
  import opened Ast
  import Strings
  import opened GraphPackageDiscovery
  import LID = LegacyImportDiscovery

  type ModulesByPypath = map<string, Module>

  /** The import map: each module to the modules it imports. */
  type Imports = map<Module, set<Module>>

  /**
   * What a visitor works with: the root package's pypath, the importing
   * module's pypath, the module index, and whether TYPE_CHECKING blocks are
   * skipped.
   */
  datatype Ctx = Ctx(rootPypath: string, modulePypath: string, modulesByPypath: ModulesByPypath, excludeTypeChecking: bool)

  /** The children a visit asks for: none, all of them, or only the given statements. */
  datatype VisitChildren = NoChildren | All | Only(stmts: seq<Stmt>)

  /** The internal test: the root's pypath itself, or a path starting with it and a dot. */
  predicate WithinRoot(name: string, rootPypath: string)
  {
    name == rootPypath || rootPypath + "." <= name
  }

  /** The names of `import a, b, ...` that are looked at: those before the first external one. */
  function LeadingInternal(names: seq<Alias>, rootPypath: string): (r: seq<Alias>)
    ensures r <= names
    ensures forall i :: 0 <= i < |r| ==> WithinRoot(r[i].name, rootPypath)
    ensures |r| < |names| ==> !WithinRoot(names[|r|].name, rootPypath)
  {
    if |names| == 0 || !WithinRoot(names[0].name, rootPypath) then []
    else [names[0]] + LeadingInternal(names[1..], rootPypath)
  }

  predicate Found(candidates: seq<string>, modules: ModulesByPypath)
  {
    LID.FirstKnown(candidates, modules).Some?
  }

  /** The module of the first known candidate; nothing when none is known. */
  function FirstModule(candidates: seq<string>, modules: ModulesByPypath): set<Module>
  {
    match LID.FirstKnown(candidates, modules)
    case None => {}
    case Some(k) => {modules[candidates[k]]}
  }

  /** What the looked-at names of an `import` add: per name, the first known of `X`, `X.__init__`. */
  function ImportTargets(names: seq<Alias>, modules: ModulesByPypath): set<Module>
  {
    if |names| == 0 then {}
    else ImportTargets(names[..|names| - 1], modules) + FirstModule(LID.ImportCandidates(names[|names| - 1].name), modules)
  }

  /** What a `from P import ...` adds: per name, the first known of the four candidates. */
  function FromTargets(prefix: string, names: seq<Alias>, modules: ModulesByPypath): set<Module>
  {
    if |names| == 0 then {}
    else FromTargets(prefix, names[..|names| - 1], modules) + FirstModule(LID.FromCandidates(prefix, names[|names| - 1].name), modules)
  }

  /** The combined prefix of a `from` statement, computed as in the string-keyed discovery. */
  function FromPrefix(level: Option<nat>, moduleName: Option<string>, modulePypath: string): string
    requires LID.PrefixDefined(level, moduleName, modulePypath)
  {
    LID.CombinedPrefix(LID.LevelPrefix(level, modulePypath), LID.ModulePrefix(moduleName))
  }

  /**
   * What visiting a statement demands, as the source's panics do: a `from`
   * statement has a defined prefix, and every followed name resolves.
   */
  predicate CanVisit(stmt: Stmt, ctx: Ctx)
  {
    match stmt
    case Import(names) =>
      var looked := LeadingInternal(names, ctx.rootPypath);
      forall i :: 0 <= i < |looked| ==> Found(LID.ImportCandidates(looked[i].name), ctx.modulesByPypath)
    case ImportFrom(level, moduleName, names) =>
      LID.PrefixDefined(level, moduleName, ctx.modulePypath)
      && (WithinRoot(FromPrefix(level, moduleName, ctx.modulePypath), ctx.rootPypath) ==>
            forall i :: 0 <= i < |names| ==>
              Found(LID.FromCandidates(FromPrefix(level, moduleName, ctx.modulePypath), names[i].name), ctx.modulesByPypath))
    case _ => true
  }

  /** What visiting one statement adds. */
  function StmtTargets(stmt: Stmt, ctx: Ctx): set<Module>
    requires CanVisit(stmt, ctx)
  {
    match stmt
    case Import(names) => ImportTargets(LeadingInternal(names, ctx.rootPypath), ctx.modulesByPypath)
    case ImportFrom(level, moduleName, names) =>
      var prefix := FromPrefix(level, moduleName, ctx.modulePypath);
      if WithinRoot(prefix, ctx.rootPypath) then FromTargets(prefix, names, ctx.modulesByPypath) else {}
    case _ => {}
  }

  /** The children the visit asks the walker for. */
  function Children(stmt: Stmt, excludeTypeChecking: bool): VisitChildren
  {
    match stmt
    case Import(_) => NoChildren
    case ImportFrom(_, _, _) => NoChildren
    case If(test, _, orelse) => if excludeTypeChecking && IsTypecheckingTest(test) then Only(orelse) else All
    case _ => All
  }

  /** Every statement the walk reaches can be visited. */
  predicate Visitable(stmts: seq<Stmt>, ctx: Ctx)
    decreases stmts
  {
    |stmts| == 0 || (StmtVisitable(stmts[0], ctx) && Visitable(stmts[1..], ctx))
  }

  predicate StmtVisitable(stmt: Stmt, ctx: Ctx)
    decreases stmt
  {
    CanVisit(stmt, ctx)
    && match stmt
       case If(test, body, orelse) =>
         if ctx.excludeTypeChecking && IsTypecheckingTest(test) then Visitable(orelse, ctx)
         else Visitable(body, ctx) && Visitable(orelse, ctx)
       case Compound(nested) => Visitable(nested, ctx)
       case _ => true
  }

  /** The modules a walk over `stmts` records: each statement, then the children its visit asks for. */
  function ImportsOf(stmts: seq<Stmt>, ctx: Ctx): set<Module>
    requires Visitable(stmts, ctx)
    decreases stmts
  {
    if |stmts| == 0 then {} else StmtImportsOf(stmts[0], ctx) + ImportsOf(stmts[1..], ctx)
  }

  function StmtImportsOf(stmt: Stmt, ctx: Ctx): set<Module>
    requires StmtVisitable(stmt, ctx)
    decreases stmt
  {
    StmtTargets(stmt, ctx)
    + match stmt
      case If(test, body, orelse) =>
        if ctx.excludeTypeChecking && IsTypecheckingTest(test) then ImportsOf(orelse, ctx)
        else ImportsOf(body, ctx) + ImportsOf(orelse, ctx)
      case Compound(nested) => ImportsOf(nested, ctx)
      case _ => {}
  }

  /** `ImportVisitor`: the fixed inputs of a visit, and the modules found so far. */
  class ImportVisitor {
    const rootPypath: string
    const modulePypath: string
    const modulesByPypath: ModulesByPypath
    const excludeTypeCheckingImports: bool
    var imports: set<Module>

    function Context(): Ctx
    {
      Ctx(rootPypath, modulePypath, modulesByPypath, excludeTypeCheckingImports)
    }

    constructor(rootPypath: string, modulePypath: string, modulesByPypath: ModulesByPypath, excludeTypeCheckingImports: bool)
      ensures Context() == Ctx(rootPypath, modulePypath, modulesByPypath, excludeTypeCheckingImports)
      ensures imports == {}
    {
      this.rootPypath := rootPypath;
      this.modulePypath := modulePypath;
      this.modulesByPypath := modulesByPypath;
      this.excludeTypeCheckingImports := excludeTypeCheckingImports;
      imports := {};
    }

    /** The candidate loop: records the first known candidate and stops there. */
    method AddFirstFound(candidates: seq<string>) returns (found: bool)
      modifies this
      ensures found <==> Found(candidates, modulesByPypath)
      ensures imports == old(imports) + FirstModule(candidates, modulesByPypath)
    {
      found := false;
      var j := 0;
      while j < |candidates|
        invariant 0 <= j <= |candidates|
        invariant forall k :: 0 <= k < j ==> candidates[k] !in modulesByPypath
        invariant imports == old(imports)
      {
        var pypath := candidates[j];
        if pypath in modulesByPypath {
          assert LID.FirstKnown(candidates, modulesByPypath) == Some(j);
          imports := imports + {modulesByPypath[pypath]};
          found := true;
          break;
        }
        j := j + 1;
      }
    }

    /** The `Stmt::Import` arm: stops at the first external name. */
    method VisitImport(names: seq<Alias>)
      requires forall k :: 0 <= k < |LeadingInternal(names, rootPypath)| ==>
        Found(LID.ImportCandidates(LeadingInternal(names, rootPypath)[k].name), modulesByPypath)
      modifies this
      ensures imports == old(imports) + ImportTargets(LeadingInternal(names, rootPypath), modulesByPypath)
    {
      var i := 0;
      while i < |names|
        invariant 0 <= i <= |names|
        invariant forall k :: 0 <= k < i ==> WithinRoot(names[k].name, rootPypath)
        invariant imports == old(imports) + ImportTargets(names[..i], modulesByPypath)
      {
        var name := names[i].name;
        if !(name == rootPypath || rootPypath + "." <= name) {
          LeadingInternalStopsAt(names, rootPypath, i);
          return;
        }
        LookedAtName(names, rootPypath, i);
        assert names[..i + 1][..i] == names[..i];
        var found := AddFirstFound(LID.ImportCandidates(name));
        if !found {
          assert false;
        }
        i := i + 1;
      }
      LeadingInternalReaches(names, rootPypath, |names|);
      assert names[..|names|] == names;
      assert LeadingInternal(names, rootPypath)[..|names|] == LeadingInternal(names, rootPypath);
    }

    /** The `Stmt::ImportFrom` arm: nothing when the prefix is external. */
    method VisitImportFrom(level: Option<nat>, moduleName: Option<string>, names: seq<Alias>)
      requires CanVisit(ImportFrom(level, moduleName, names), Context())
      modifies this
      ensures imports == old(imports) + StmtTargets(ImportFrom(level, moduleName, names), Context())
    {
      var prefix := LID.ComputeFromPrefix(level, moduleName, modulePypath);
      if !(prefix == rootPypath || rootPypath + "." <= prefix) {
        return;
      }
      AddFromNames(prefix, names);
    }

    /** The name loop of the `Stmt::ImportFrom` arm: every name resolves below the prefix. */
    method AddFromNames(prefix: string, names: seq<Alias>)
      requires forall i :: 0 <= i < |names| ==> Found(LID.FromCandidates(prefix, names[i].name), modulesByPypath)
      modifies this
      ensures imports == old(imports) + FromTargets(prefix, names, modulesByPypath)
    {
      for i := 0 to |names|
        invariant imports == old(imports) + FromTargets(prefix, names[..i], modulesByPypath)
      {
        assert names[..i + 1][..i] == names[..i];
        var found := AddFirstFound(LID.FromCandidates(prefix, names[i].name));
        if !found {
          assert false;
        }
      }
      assert names[..|names|] == names;
    }

    /** `visit`: records what the statement imports and tells the walker which children to visit. */
    method Visit(stmt: Stmt) returns (visitChildren: VisitChildren)
      requires CanVisit(stmt, Context())
      modifies this
      ensures visitChildren == Children(stmt, excludeTypeCheckingImports)
      ensures imports == old(imports) + StmtTargets(stmt, Context())
    {
      match stmt {
        case Import(names) =>
          VisitImport(names);
          return NoChildren;
        case ImportFrom(level, moduleName, names) =>
          VisitImportFrom(level, moduleName, names);
          return NoChildren;
        case If(test, _, orelse) =>
          if test.AttributeTest? {
            if excludeTypeCheckingImports && test.attr == "TYPE_CHECKING" {
              return Only(orelse);
            }
          } else if test.NameTest? {
            if excludeTypeCheckingImports && test.id == "TYPE_CHECKING" {
              return Only(orelse);
            }
          }
          return All;
        case _ =>
          return All;
      }
    }
  }

  lemma {:induction false} LeadingInternalReaches(names: seq<Alias>, rootPypath: string, i: nat)
    requires i <= |names|
    requires forall k :: 0 <= k < i ==> WithinRoot(names[k].name, rootPypath)
    ensures |LeadingInternal(names, rootPypath)| >= i
    ensures LeadingInternal(names, rootPypath)[..i] == names[..i]
    decreases i
  {
    if i > 0 {
      LeadingInternalReaches(names[1..], rootPypath, i - 1);
    }
  }

  lemma LookedAtName(names: seq<Alias>, rootPypath: string, i: nat)
    requires i < |names|
    requires forall k :: 0 <= k <= i ==> WithinRoot(names[k].name, rootPypath)
    ensures i < |LeadingInternal(names, rootPypath)| && LeadingInternal(names, rootPypath)[i] == names[i]
  {
    LeadingInternalReaches(names, rootPypath, i + 1);
    assert LeadingInternal(names, rootPypath)[..i + 1][i] == names[..i + 1][i];
  }

  lemma LeadingInternalStopsAt(names: seq<Alias>, rootPypath: string, i: nat)
    requires i < |names| && !WithinRoot(names[i].name, rootPypath)
    requires forall k :: 0 <= k < i ==> WithinRoot(names[k].name, rootPypath)
    ensures LeadingInternal(names, rootPypath) == names[..i]
  {
    LeadingInternalReaches(names, rootPypath, i);
  }

  /** The walk over a statement list: each statement in order (src/import_graph/ast_visit.rs). */
  method VisitStatements(v: ImportVisitor, stmts: seq<Stmt>)
    requires Visitable(stmts, v.Context())
    modifies v
    ensures v.imports == old(v.imports) + ImportsOf(stmts, v.Context())
    decreases stmts
  {
    var i := 0;
    while i < |stmts|
      invariant 0 <= i <= |stmts|
      invariant Visitable(stmts[i..], v.Context())
      invariant old(v.imports) + ImportsOf(stmts, v.Context()) == v.imports + ImportsOf(stmts[i..], v.Context())
    {
      assert stmts[i..][1..] == stmts[i + 1..];
      VisitStmt(v, stmts[i]);
      i := i + 1;
    }
  }

  /** One statement: visit it, then walk the children the visit asked for. */
  method VisitStmt(v: ImportVisitor, stmt: Stmt)
    requires StmtVisitable(stmt, v.Context())
    modifies v
    ensures v.imports == old(v.imports) + StmtImportsOf(stmt, v.Context())
    decreases stmt
  {
    var children := v.Visit(stmt);
    match children {
      case NoChildren =>
      case Only(orelse) =>
        VisitStatements(v, orelse);
      case All =>
        match stmt {
          case If(_, body, orelse) =>
            VisitStatements(v, body);
            VisitStatements(v, orelse);
          case Compound(nested) =>
            VisitStatements(v, nested);
          case _ =>
        }
    }
  }

  /** `get_imports_for_module` after parsing: walk the module body with a fresh visitor. */
  method GetImportsForModule(rootPypath: string, importer: Module, modulesByPypath: ModulesByPypath,
                             excludeTypeCheckingImports: bool, body: seq<Stmt>) returns (imports: set<Module>)
    requires Visitable(body, Ctx(rootPypath, importer.pypath, modulesByPypath, excludeTypeCheckingImports))
    ensures imports == ImportsOf(body, Ctx(rootPypath, importer.pypath, modulesByPypath, excludeTypeCheckingImports))
  {
    var v := new ImportVisitor(rootPypath, importer.pypath, modulesByPypath, excludeTypeCheckingImports);
    VisitStatements(v, body);
    imports := v.imports;
  }

  /** What every indexed module's file demands. */
  predicate AllVisitable(rootPypath: string, modulesByPypath: ModulesByPypath, excludeTypeCheckingImports: bool,
                         bodies: map<FsPaths.FsPath, seq<Stmt>>)
  {
    forall k :: k in modulesByPypath ==>
      modulesByPypath[k].path in bodies
      && Visitable(bodies[modulesByPypath[k].path],
                   Ctx(rootPypath, modulesByPypath[k].pypath, modulesByPypath, excludeTypeCheckingImports))
  }

  /**
   * `discover_imports` without the cache: every indexed module is a key, and
   * maps to the modules found in its file. `bodies` stands for reading and
   * parsing each file.
   */
  method DiscoverImports(rootPypath: string, modulesByPypath: ModulesByPypath, excludeTypeCheckingImports: bool,
                         bodies: map<FsPaths.FsPath, seq<Stmt>>) returns (imports: Imports)
    requires AllVisitable(rootPypath, modulesByPypath, excludeTypeCheckingImports, bodies)
    ensures imports.Keys == modulesByPypath.Values
    ensures forall m :: m in imports ==>
      m.path in bodies && Visitable(bodies[m.path], Ctx(rootPypath, m.pypath, modulesByPypath, excludeTypeCheckingImports))
      && imports[m] == ImportsOf(bodies[m.path], Ctx(rootPypath, m.pypath, modulesByPypath, excludeTypeCheckingImports))
  {
    imports := map[];
    var todo := modulesByPypath.Keys;
    while todo != {}
      invariant todo <= modulesByPypath.Keys
      invariant imports.Keys == set k | k in modulesByPypath.Keys - todo :: modulesByPypath[k]
      invariant forall m :: m in imports ==>
        m.path in bodies && Visitable(bodies[m.path], Ctx(rootPypath, m.pypath, modulesByPypath, excludeTypeCheckingImports))
        && imports[m] == ImportsOf(bodies[m.path], Ctx(rootPypath, m.pypath, modulesByPypath, excludeTypeCheckingImports))
      decreases |todo|
    {
      var k :| k in todo;
      var importer := modulesByPypath[k];
      var found := GetImportsForModule(rootPypath, importer, modulesByPypath, excludeTypeCheckingImports, bodies[importer.path]);
      imports := imports[importer := found];
      todo := todo - {k};
    }
    assert imports.Keys == modulesByPypath.Values;
  }

  /**
   * An `import` records, per name before the first external one, the first
   * known of `X` and `X.__init__`; names after an external one are ignored.
   */
  lemma {:induction false} ImportTargetsMembership(names: seq<Alias>, modules: ModulesByPypath, x: Module)
    ensures x in ImportTargets(names, modules) <==>
      exists i :: 0 <= i < |names| && x in FirstModule(LID.ImportCandidates(names[i].name), modules)
    decreases |names|
  {
    if |names| > 0 {
      var front := names[..|names| - 1];
      ImportTargetsMembership(front, modules, x);
      forall i | 0 <= i < |front| ensures names[i] == front[i] { }
    }
  }

  /** A name after an external one in the same `import` statement is never looked at. */
  lemma ExternalNameStopsImport(names: seq<Alias>, rootPypath: string, j: nat)
    requires j < |names| && !WithinRoot(names[j].name, rootPypath)
    ensures LeadingInternal(names, rootPypath) == LeadingInternal(names[..j], rootPypath)
    ensures |LeadingInternal(names, rootPypath)| <= j
  {
    var r := LeadingInternal(names, rootPypath);
    var i := |r|;
    if i < j {
      LeadingInternalStopsAt(names[..j], rootPypath, i);
      assert names[..j][..i] == names[..i];
    } else {
      LeadingInternalReaches(names[..j], rootPypath, j);
      assert names[..j][..j] == names[..j];
    }
  }

  /**
   * A `from` statement records, per name, the first known of its four
   * candidates when its prefix is inside the root, and nothing otherwise.
   */
  lemma {:induction false} FromTargetsMembership(prefix: string, names: seq<Alias>, modules: ModulesByPypath, x: Module)
    ensures x in FromTargets(prefix, names, modules) <==>
      exists i :: 0 <= i < |names| && x in FirstModule(LID.FromCandidates(prefix, names[i].name), modules)
    decreases |names|
  {
    if |names| > 0 {
      var front := names[..|names| - 1];
      FromTargetsMembership(prefix, front, modules, x);
      forall i | 0 <= i < |front| ensures names[i] == front[i] { }
    }
  }

  /** The first known candidate is recorded, and only it. */
  lemma FirstModuleIsFirstKnown(candidates: seq<string>, modules: ModulesByPypath, x: Module)
    ensures x in FirstModule(candidates, modules) <==>
      exists j :: (0 <= j < |candidates| && candidates[j] in modules && modules[candidates[j]] == x
                   && forall k :: 0 <= k < j ==> candidates[k] !in modules)
  {
    var r := LID.FirstKnown(candidates, modules);
    if exists j :: (0 <= j < |candidates| && candidates[j] in modules && modules[candidates[j]] == x
                    && forall k :: 0 <= k < j ==> candidates[k] !in modules) {
      var j :| 0 <= j < |candidates| && candidates[j] in modules && modules[candidates[j]] == x
               && forall k :: 0 <= k < j ==> candidates[k] !in modules;
      assert r.Some?;
    }
  }

  /**
   * Excluding TYPE_CHECKING blocks only ever removes imports: whatever the
   * walk with exclusion records, the walk without it records too.
   */
  lemma {:induction false} ExclusionOnlyRemoves(stmts: seq<Stmt>, ctx: Ctx)
    requires Visitable(stmts, ctx.(excludeTypeChecking := false))
    ensures Visitable(stmts, ctx.(excludeTypeChecking := true))
    ensures ImportsOf(stmts, ctx.(excludeTypeChecking := true)) <= ImportsOf(stmts, ctx.(excludeTypeChecking := false))
    decreases stmts
  {
    if |stmts| > 0 {
      StmtExclusionOnlyRemoves(stmts[0], ctx);
      ExclusionOnlyRemoves(stmts[1..], ctx);
    }
  }

  lemma {:induction false} StmtExclusionOnlyRemoves(stmt: Stmt, ctx: Ctx)
    requires StmtVisitable(stmt, ctx.(excludeTypeChecking := false))
    ensures StmtVisitable(stmt, ctx.(excludeTypeChecking := true))
    ensures StmtImportsOf(stmt, ctx.(excludeTypeChecking := true)) <= StmtImportsOf(stmt, ctx.(excludeTypeChecking := false))
    decreases stmt
  {
    match stmt {
      case If(test, body, orelse) =>
        ExclusionOnlyRemoves(body, ctx);
        ExclusionOnlyRemoves(orelse, ctx);
      case Compound(nested) =>
        ExclusionOnlyRemoves(nested, ctx);
      case _ =>
    }
  }

  /** With exclusion, a TYPE_CHECKING block contributes exactly what its else-branch does. */
  lemma TypecheckingBodySkipped(test: Test, body: seq<Stmt>, orelse: seq<Stmt>, ctx: Ctx)
    requires ctx.excludeTypeChecking && IsTypecheckingTest(test)
    requires Visitable(orelse, ctx)
    ensures StmtVisitable(If(test, body, orelse), ctx)
    ensures StmtImportsOf(If(test, body, orelse), ctx) == ImportsOf(orelse, ctx)
    ensures Children(If(test, body, orelse), ctx.excludeTypeChecking) == Only(orelse)
  {
  }
}
