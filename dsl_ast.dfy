/** The node classes of aissembly_dsl/ast_nodes.py, the tokens of
    aissembly_dsl/tokenizer.py and the exceptions the DSL front end raises. */
module DslAst {

  /** A token: its kind (`"IDENT"`, `"NUMBER"`, `"OP"`, `"LET"`, ...), its
      text, its 1-based line and its 1-based column. */
  datatype Token = Token(kind: string, value: string, line: int, col: int)

  /** The AST. Statements: `Program`, `Let`, `Set`, `If`, `For`, `While`,
      `ExprStmt`, `Break`, `Continue`; expressions: `Number`, `String`,
      `Name`, `Call`, `BinOp`, `IfExpr`, `Lambda`. */
  datatype Node =
    | Program(stmts: seq<Node>)
    | Let(name: string, expr: Node, mutable: bool)
    | Set(name: string, expr: Node)
    | If(test: Node, thenBody: seq<Node>, elseBody: seq<Node>)
    | For(variable: string, iter: Node, body: Node, init: Node)
    | While(test: Node, body: Node, init: Node)
    | ExprStmt(expr: Node)
    | Break
    | Continue
    | Number(num: int)
    | String(text: string)
    | Name(id: string)
    | Call(func: Node, args: seq<Node>)
    | BinOp(left: Node, op: string, right: Node)
    | IfExpr(test: Node, thenExpr: Node, elseExpr: Node)
    | Lambda(params: seq<string>, body: Node)

  /** An expression node whose sub-nodes are all expressions. */
  predicate IsExpr(n: Node) {
    match n
    case Number(_) => true
    case String(_) => true
    case Name(_) => true
    case Call(f, args) => IsExpr(f) && forall a | a in args :: IsExpr(a)
    case BinOp(l, _, r) => IsExpr(l) && IsExpr(r)
    case IfExpr(t, a, b) => IsExpr(t) && IsExpr(a) && IsExpr(b)
    case Lambda(_, body) => IsExpr(body)
    case _ => false
  }

  /** A statement node whose blocks hold statements and whose other
      sub-nodes are expressions. */
  predicate IsStmt(n: Node) {
    match n
    case Let(_, e, _) => IsExpr(e)
    case Set(_, e) => IsExpr(e)
    case If(t, a, b) => IsExpr(t) && (forall s | s in a :: IsStmt(s)) && (forall s | s in b :: IsStmt(s))
    case For(_, iter, body, init) => IsExpr(iter) && IsExpr(body) && IsExpr(init)
    case While(t, body, init) => IsExpr(t) && IsExpr(body) && IsExpr(init)
    case ExprStmt(e) => IsExpr(e)
    case Break => true
    case Continue => true
    case _ => false
  }

  /** A program whose every top-level node is a well-formed statement. */
  predicate IsProgram(n: Node) {
    n.Program? && forall s | s in n.stmts :: IsStmt(s)
  }

  /** The exceptions: Python's built-in ones by name, the DSL's own
      `Error("LimitExceeded", "max_iter", ...)`, `Unmodelled` for behaviour
      outside the model (floats, object identity), and `OutOfFuel` for a
      computation that the model's step bound cut short. */
  datatype DslError =
    | SyntaxError(msg: string)
    | KeyError(key: string)
    | TypeError(msg: string)
    | ValueError(msg: string)
    | RuntimeError(msg: string)
    | ZeroDivisionError(msg: string)
    | UnboundLocalError(name: string)
    | LimitExceeded(what: string)
    | Unmodelled(what: string)
    | OutOfFuel
}
