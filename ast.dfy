/**
 * A small stand-in for the Python statements the import visitors look at.
 * Parsing and the foreign AST are not modelled; only the shape the visitors
 * and the statement walkers depend on is kept.
 */
module Ast {
  import opened Wrappers

  /** One `name [as asname]` of an import statement, with the line it starts on. */
  datatype Alias = Alias(name: string, asname: Option<string>, line: nat)

  /** The test of an `if`: a bare name, an attribute access `value.attr`, or anything else. */
  datatype Test = NameTest(id: string) | AttributeTest(value: string, attr: string) | OtherTest

  datatype Stmt =
    | Import(names: seq<Alias>)
    | ImportFrom(level: Option<nat>, moduleName: Option<string>, names: seq<Alias>)
    | If(test: Test, body: seq<Stmt>, orelse: seq<Stmt>)
      /** `def`, `class`, `for`, `while`, `with`, `try`, `match`: statements nested inside, in visiting order. */
    | Compound(nested: seq<Stmt>)
      /** Any statement without nested statements. */
    | Simple

  /** `if TYPE_CHECKING:` or `if xxx.TYPE_CHECKING:`. */
  predicate IsTypecheckingTest(test: Test)
  {
    match test
    case NameTest(id) => id == "TYPE_CHECKING"
    case AttributeTest(_, attr) => attr == "TYPE_CHECKING"
    case OtherTest => false
  }

  /** The statements the walkers descend into when told to visit all children. */
  function Nested(stmt: Stmt): (r: seq<Stmt>)
    ensures forall s :: s in r ==> s < stmt
  {
    match stmt
    case If(_, body, orelse) => body + orelse
    case Compound(nested) => nested
    case _ => []
  }

  /** Number of imported names, each `import`/`from` name counted once. */
  function NameCount(stmts: seq<Stmt>): nat
  {
    if |stmts| == 0 then 0 else StmtNameCount(stmts[0]) + NameCount(stmts[1..])
  }

  function StmtNameCount(stmt: Stmt): nat
  {
    match stmt
    case Import(names) => |names|
    case ImportFrom(_, _, names) => |names|
    case If(_, body, orelse) => NameCount(body) + NameCount(orelse)
    case Compound(nested) => NameCount(nested)
    case Simple => 0
  }

  lemma {:induction false} NameCountAppend(a: seq<Stmt>, b: seq<Stmt>)
    ensures NameCount(a + b) == NameCount(a) + NameCount(b)
  {
    if |a| == 0 {
      assert a + b == b;
    } else {
      assert (a + b)[1..] == a[1..] + b;
      NameCountAppend(a[1..], b);
    }
  }

  /**
   * Every statement in the order a walker that always descends visits them:
   * each statement, then the statements nested in it.
   */
  function Flatten(stmts: seq<Stmt>): seq<Stmt>
    decreases stmts
  {
    if |stmts| == 0 then [] else FlattenStmt(stmts[0]) + Flatten(stmts[1..])
  }

  function FlattenStmt(stmt: Stmt): seq<Stmt>
    decreases stmt
  {
    [stmt] + match stmt
      case If(_, body, orelse) => Flatten(body) + Flatten(orelse)
      case Compound(nested) => Flatten(nested)
      case _ => []
  }

  lemma {:induction false} FlattenAppend(a: seq<Stmt>, b: seq<Stmt>)
    ensures Flatten(a + b) == Flatten(a) + Flatten(b)
  {
    if |a| == 0 {
      assert a + b == b;
    } else {
      assert (a + b)[1..] == a[1..] + b;
      FlattenAppend(a[1..], b);
    }
  }

  /** The walk reaches every listed statement and, below it, every nested one. */
  lemma {:induction false} FlattenReachesNested(stmts: seq<Stmt>)
    ensures forall s :: s in stmts ==> s in Flatten(stmts)
    ensures forall s, t :: s in Flatten(stmts) && t in Nested(s) ==> t in Flatten(stmts)
    decreases stmts
  {
    if |stmts| > 0 {
      FlattenReachesNested(stmts[1..]);
      FlattenStmtReachesNested(stmts[0]);
      forall s | s in stmts ensures s in Flatten(stmts) {
        if s != stmts[0] {
          assert s in stmts[1..];
        }
      }
    }
  }

  lemma {:induction false} FlattenStmtReachesNested(stmt: Stmt)
    ensures stmt in FlattenStmt(stmt)
    ensures forall s, t :: s in FlattenStmt(stmt) && t in Nested(s) ==> t in FlattenStmt(stmt)
    decreases stmt
  {
    match stmt
    case If(_, body, orelse) =>
      FlattenReachesNested(body);
      FlattenReachesNested(orelse);
      FlattenAppend(body, orelse);
      assert Nested(stmt) == body + orelse;
    case Compound(nested) =>
      FlattenReachesNested(nested);
    case _ =>
  }
}
