/**
 * The statement visitor that collects raw (unresolved) imports of one file,
 * together with the context-passing statement walker it runs under.
 *
 * The same visitor text appears three times in the source: src/parse/mod.rs,
 * src/imports_info/parse/mod.rs and src/import_discovery/one_file.rs; this
 * module models it once. The visitor's `push` onto `self.imports` is modelled
 * by returning the records it would push.
 */
module RawImportVisitor {
  import opened Wrappers
  import opened Strings
  import opened Ast

  /** An import as written in the file: absolute or relative, not yet resolved. */
  datatype RawImport = RawImport(pypath: string, lineNumber: nat, isTypechecking: bool)

  datatype Branch = Body | OrElse

  /**
   * What the walker does after visiting a statement: descend into all nested
   * statements in the same context, descend into nothing, or walk chosen
   * branches of an `if`, each in its own context.
   */
  datatype VisitChildren = All | NoChildren | Branches(branches: seq<(bool, Branch)>)

  /** One record per name, `prefix + name`, the alias ignored. */
  function Records(prefix: string, names: seq<Alias>, isTypechecking: bool): seq<RawImport>
  {
    seq(|names|, i requires 0 <= i < |names| => RawImport(prefix + names[i].name, names[i].line, isTypechecking))
  }

  /** The prefix of `from ... import`: the level's dots, then the module and a dot. */
  function FromPrefix(level: Option<nat>, moduleName: Option<string>): string
  {
    (if level.Some? then Repeat('.', level.value) else "")
    + (if moduleName.Some? then moduleName.value + "." else "")
  }

  /** `ImportVisitor::visit`: what one statement pushes and where the walk goes next. */
  function Visit(stmt: Stmt, isTypechecking: bool): (seq<RawImport>, VisitChildren)
  {
    match stmt
    case Import(names) => (Records("", names, isTypechecking), NoChildren)
    case ImportFrom(level, moduleName, names) =>
      (Records(FromPrefix(level, moduleName), names, isTypechecking), NoChildren)
    case If(test, _, _) =>
      if IsTypecheckingTest(test) then ([], Branches([(true, Body), (false, OrElse)]))
      else ([], All)
    case _ => ([], All)
  }

  /** The walker over a statement list, in order. */
  function WalkStmts(stmts: seq<Stmt>, isTypechecking: bool): seq<RawImport>
    decreases stmts
  {
    if |stmts| == 0 then [] else WalkStmt(stmts[0], isTypechecking) + WalkStmts(stmts[1..], isTypechecking)
  }

  function WalkStmt(stmt: Stmt, isTypechecking: bool): seq<RawImport>
    decreases stmt
  {
    var (pushed, children) := Visit(stmt, isTypechecking);
    pushed + match children
      case NoChildren => []
      case All => WalkNested(stmt, isTypechecking)
      case Branches(branches) => WalkBranches(stmt, branches)
  }

  function WalkNested(stmt: Stmt, isTypechecking: bool): seq<RawImport>
    decreases stmt, 0
  {
    match stmt
    case If(_, body, orelse) => WalkStmts(body, isTypechecking) + WalkStmts(orelse, isTypechecking)
    case Compound(nested) => WalkStmts(nested, isTypechecking)
    case _ => []
  }

  function WalkBranches(stmt: Stmt, branches: seq<(bool, Branch)>): seq<RawImport>
    decreases stmt, |branches|
  {
    if |branches| == 0 || !stmt.If? then []
    else
      var (context, branch) := branches[0];
      WalkStmts(if branch == Body then stmt.body else stmt.orelse, context)
      + WalkBranches(stmt, branches[1..])
  }

  /** `parse_imports` after parsing: walk the module body outside any TYPE_CHECKING block. */
  function ParseImports(moduleBody: seq<Stmt>): seq<RawImport>
  {
    WalkStmts(moduleBody, false)
  }

  lemma {:induction false} WalkStmtsAppend(a: seq<Stmt>, b: seq<Stmt>, isTypechecking: bool)
    ensures WalkStmts(a + b, isTypechecking) == WalkStmts(a, isTypechecking) + WalkStmts(b, isTypechecking)
  {
    if |a| == 0 {
      assert a + b == b;
    } else {
      assert (a + b)[1..] == a[1..] + b;
      WalkStmtsAppend(a[1..], b, isTypechecking);
    }
  }

  /** Every imported name yields exactly one raw import, whatever the context. */
  lemma {:induction false} WalkStmtsCount(stmts: seq<Stmt>, isTypechecking: bool)
    ensures |WalkStmts(stmts, isTypechecking)| == NameCount(stmts)
    decreases stmts
  {
    if |stmts| > 0 {
      WalkStmtCount(stmts[0], isTypechecking);
      WalkStmtsCount(stmts[1..], isTypechecking);
    }
  }

  lemma {:induction false} WalkStmtCount(stmt: Stmt, isTypechecking: bool)
    ensures |WalkStmt(stmt, isTypechecking)| == StmtNameCount(stmt)
    decreases stmt
  {
    match stmt
    case Import(names) =>
    case ImportFrom(_, _, names) =>
    case If(test, body, orelse) =>
      TypecheckingIfContexts(test, body, orelse, isTypechecking);
      WalkStmtsCount(body, isTypechecking);
      WalkStmtsCount(orelse, isTypechecking);
      WalkStmtsCount(body, true);
      WalkStmtsCount(orelse, false);
    case Compound(nested) =>
      WalkStmtsCount(nested, isTypechecking);
    case Simple =>
  }

  /** `import a, b as B` pushes one raw import per name, the name as written, in order. */
  lemma ImportPushesEachName(names: seq<Alias>, isTypechecking: bool)
    ensures var r := WalkStmt(Import(names), isTypechecking);
      |r| == |names|
      && forall i :: 0 <= i < |names| ==> r[i] == RawImport(names[i].name, names[i].line, isTypechecking)
  {
  }

  /**
   * `from M import x` at level L pushes, per name, a path whose leading dots
   * are exactly the level and whose remainder is `M.x` (or `x` without a
   * module): the relative form the resolvers later climb.
   */
  lemma ImportFromLevelAndRemainder(level: nat, moduleName: Option<string>, names: seq<Alias>, isTypechecking: bool)
    requires moduleName.Some? ==> |moduleName.value| > 0 && moduleName.value[0] != '.'
    requires forall i :: 0 <= i < |names| ==> |names[i].name| > 0 && names[i].name[0] != '.'
    ensures var r := WalkStmt(ImportFrom(Some(level), moduleName, names), isTypechecking);
      |r| == |names|
      && forall i :: 0 <= i < |names| ==>
           LeadingCount(r[i].pypath, '.') == level
           && TrimStart(r[i].pypath, '.') == (if moduleName.Some? then moduleName.value + "." else "") + names[i].name
           && r[i].isTypechecking == isTypechecking
  {
    var r := WalkStmt(ImportFrom(Some(level), moduleName, names), isTypechecking);
    forall i | 0 <= i < |names|
      ensures LeadingCount(r[i].pypath, '.') == level
      ensures TrimStart(r[i].pypath, '.') == (if moduleName.Some? then moduleName.value + "." else "") + names[i].name
    {
      var rest := (if moduleName.Some? then moduleName.value + "." else "") + names[i].name;
      assert r[i].pypath == Repeat('.', level) + rest;
      LeadingDotsOf(level, rest);
    }
  }

  lemma {:induction false} LeadingDotsOf(n: nat, rest: string)
    requires |rest| > 0 && rest[0] != '.'
    ensures LeadingCount(Repeat('.', n) + rest, '.') == n
    ensures TrimStart(Repeat('.', n) + rest, '.') == rest
  {
    if n > 0 {
      assert (Repeat('.', n) + rest)[1..] == Repeat('.', n - 1) + rest;
      LeadingDotsOf(n - 1, rest);
    } else {
      assert Repeat('.', n) + rest == rest;
    }
  }

  /**
   * A TYPE_CHECKING `if` walks its body in the typechecking context and its
   * else-branch outside it; any other `if` walks both in the current context.
   */
  lemma TypecheckingIfContexts(test: Test, body: seq<Stmt>, orelse: seq<Stmt>, isTypechecking: bool)
    ensures WalkStmt(If(test, body, orelse), isTypechecking)
      == if IsTypecheckingTest(test) then WalkStmts(body, true) + WalkStmts(orelse, false)
         else WalkStmts(body, isTypechecking) + WalkStmts(orelse, isTypechecking)
  {
    if IsTypecheckingTest(test) {
      TypecheckingIfWalk(test, body, orelse, isTypechecking);
    } else {
      OrdinaryIfWalk(test, body, orelse, isTypechecking);
    }
  }

  lemma TypecheckingIfWalk(test: Test, body: seq<Stmt>, orelse: seq<Stmt>, isTypechecking: bool)
    requires IsTypecheckingTest(test)
    ensures WalkStmt(If(test, body, orelse), isTypechecking) == WalkStmts(body, true) + WalkStmts(orelse, false)
  {
    var s := If(test, body, orelse);
    var branches := [(true, Body), (false, OrElse)];
    assert Visit(s, isTypechecking) == ([], Branches(branches));
    assert WalkStmt(s, isTypechecking) == [] + WalkBranches(s, branches);
    assert WalkBranches(s, branches[2..]) == [];
    assert WalkBranches(s, branches[1..]) == WalkStmts(orelse, false) + WalkBranches(s, branches[2..]);
    assert WalkBranches(s, branches) == WalkStmts(body, true) + WalkBranches(s, branches[1..]);
  }

  lemma OrdinaryIfWalk(test: Test, body: seq<Stmt>, orelse: seq<Stmt>, isTypechecking: bool)
    requires !IsTypecheckingTest(test)
    ensures WalkStmt(If(test, body, orelse), isTypechecking) == WalkStmts(body, isTypechecking) + WalkStmts(orelse, isTypechecking)
  {
  }

  /** Statement lists without a TYPE_CHECKING `if` anywhere inside. */
  predicate NoTypecheckingIf(stmts: seq<Stmt>)
  {
    forall i :: 0 <= i < |stmts| ==> StmtNoTypecheckingIf(stmts[i])
  }

  predicate StmtNoTypecheckingIf(stmt: Stmt)
  {
    match stmt
    case If(test, body, orelse) => !IsTypecheckingTest(test) && NoTypecheckingIf(body) && NoTypecheckingIf(orelse)
    case Compound(nested) => NoTypecheckingIf(nested)
    case _ => true
  }

  /** Outside TYPE_CHECKING blocks every import inherits the context it is walked in. */
  lemma {:induction false} ContextInherited(stmts: seq<Stmt>, isTypechecking: bool)
    requires NoTypecheckingIf(stmts)
    ensures forall r :: r in WalkStmts(stmts, isTypechecking) ==> r.isTypechecking == isTypechecking
    decreases stmts
  {
    if |stmts| > 0 {
      StmtContextInherited(stmts[0], isTypechecking);
      ContextInherited(stmts[1..], isTypechecking);
    }
  }

  lemma {:induction false} StmtContextInherited(stmt: Stmt, isTypechecking: bool)
    requires StmtNoTypecheckingIf(stmt)
    ensures forall r :: r in WalkStmt(stmt, isTypechecking) ==> r.isTypechecking == isTypechecking
    decreases stmt
  {
    match stmt
    case If(test, body, orelse) =>
      TypecheckingIfContexts(test, body, orelse, isTypechecking);
      ContextInherited(body, isTypechecking);
      ContextInherited(orelse, isTypechecking);
    case Compound(nested) =>
      ContextInherited(nested, isTypechecking);
    case _ =>
  }
}
