/** aissembly_dsl/desugar.py: the DSL's surface forms are rewritten into
    calls of the core IR's combinators. An infix operator becomes a call of
    `op.add`, `op.sub`, ...; an `if` expression becomes `cond` applied to
    three thunks; `for` and `while` loops become `loop.for` and `loop.while`
    applied to the iterable or test, a body lambda and the initial value. */
module DslDesugar {
  import opened Basics
  import opened DslAst

  /** `OP_MAP`: the combinator each infix operator calls. */
  const OpMap: map<string, string> := map[
    "+" := "op.add", "-" := "op.sub", "*" := "op.mul", "/" := "op.div",
    ">" := "op.gt", "<" := "op.lt", ">=" := "op.ge", "<=" := "op.le",
    "==" := "op.eq", "!=" := "op.ne"
  ]

  /** `desugar`. Children are rewritten left to right, so the error
      reported is the first one met in that order; a `BinOp` looks its
      operator up before rewriting its operands. */
  function Desugar(n: Node): (r: Result<Node, DslError>)
    ensures r.Ok? ==> Sugarless(r.value)
    decreases n, 1
  {
    match n
    case Program(stmts) =>
      var body :- DesugarAll(stmts);
      Ok(Program(body))
    case Let(name, e, mutable) =>
      var e' :- Desugar(e);
      Ok(Let(name, e', mutable))
    case Set(name, e) =>
      var e' :- Desugar(e);
      Ok(Set(name, e'))
    case ExprStmt(e) =>
      var e' :- Desugar(e);
      Ok(ExprStmt(e'))
    case Number(_) => Ok(n)
    case String(_) => Ok(n)
    case Name(_) => Ok(n)
    case Call(f, args) =>
      var f' :- Desugar(f);
      var args' :- DesugarAll(args);
      Ok(Call(f', args'))
    case BinOp(_, _, _) => DesugarBinOp(n)
    case IfExpr(_, _, _) => DesugarIfExpr(n)
    case For(_, _, _, _) => DesugarFor(n)
    case While(_, _, _) => DesugarWhile(n)
    case Lambda(params, body) =>
      var body' :- Desugar(body);
      Ok(Lambda(params, body'))
    case If(_, _, _) => Err(TypeError("unsupported node If"))
    case Break => Err(TypeError("unsupported node Break"))
    case Continue => Err(TypeError("unsupported node Continue"))
  }

  /** An infix operator becomes a call of its combinator on the two operands. */
  function DesugarBinOp(n: Node): (r: Result<Node, DslError>)
    requires n.BinOp?
    ensures r.Ok? ==> Sugarless(r.value)
    decreases n, 0
  {
    if n.op !in OpMap then Err(KeyError(n.op))
    else
      var l' :- Desugar(n.left);
      var r' :- Desugar(n.right);
      Ok(Call(Name(OpMap[n.op]), [l', r']))
  }

  /** `a if t else b` becomes `cond` on three thunks. */
  function DesugarIfExpr(n: Node): (r: Result<Node, DslError>)
    requires n.IfExpr?
    ensures r.Ok? ==> Sugarless(r.value)
    decreases n, 0
  {
    var t' :- Desugar(n.test);
    var a' :- Desugar(n.thenExpr);
    var b' :- Desugar(n.elseExpr);
    Ok(Call(Name("cond"), [Lambda([], t'), Lambda([], a'), Lambda([], b')]))
  }

  /** A `for` loop becomes `loop.for` on the iterable, a lambda of the loop
      variable and `acc`, and the initial value. */
  function DesugarFor(n: Node): (r: Result<Node, DslError>)
    requires n.For?
    ensures r.Ok? ==> Sugarless(r.value)
    decreases n, 0
  {
    var iter' :- Desugar(n.iter);
    var body' :- Desugar(n.body);
    var init' :- Desugar(n.init);
    Ok(Call(Name("loop.for"), [iter', Lambda([n.variable, "acc"], body'), init']))
  }

  /** A `while` loop becomes `loop.while` on a thunk of the test, a lambda
      of `acc`, and the initial value. */
  function DesugarWhile(n: Node): (r: Result<Node, DslError>)
    requires n.While?
    ensures r.Ok? ==> Sugarless(r.value)
    decreases n, 0
  {
    var t' :- Desugar(n.test);
    var body' :- Desugar(n.body);
    var init' :- Desugar(n.init);
    Ok(Call(Name("loop.while"), [Lambda([], t'), Lambda(["acc"], body'), init']))
  }

  /** The list comprehensions of `desugar`, in order. */
  function DesugarAll(ns: seq<Node>): (r: Result<seq<Node>, DslError>)
    ensures r.Ok? ==> |r.value| == |ns| && forall m | m in r.value :: Sugarless(m)
    decreases ns, 0
  {
    if ns == [] then Ok([])
    else
      var head :- Desugar(ns[0]);
      var tail :- DesugarAll(ns[1..]);
      Ok([head] + tail)
  }

  /** The trees `desugar` produces: programs, bindings and expression
      statements over numbers, strings, names, calls and lambdas only. */
  predicate Sugarless(n: Node) {
    match n
    case Program(stmts) => forall s | s in stmts :: Sugarless(s)
    case Let(_, e, _) => Sugarless(e)
    case Set(_, e) => Sugarless(e)
    case ExprStmt(e) => Sugarless(e)
    case Number(_) => true
    case String(_) => true
    case Name(_) => true
    case Call(f, args) => Sugarless(f) && forall a | a in args :: Sugarless(a)
    case Lambda(_, body) => Sugarless(body)
    case _ => false
  }

  /** The trees `desugar` accepts: no `if` statement, `break` or
      `continue` node, and every infix operator in `OP_MAP`. */
  predicate Desugarable(n: Node) {
    match n
    case Program(stmts) => forall s | s in stmts :: Desugarable(s)
    case Let(_, e, _) => Desugarable(e)
    case Set(_, e) => Desugarable(e)
    case ExprStmt(e) => Desugarable(e)
    case Number(_) => true
    case String(_) => true
    case Name(_) => true
    case Call(f, args) => Desugarable(f) && forall a | a in args :: Desugarable(a)
    case BinOp(l, op, r) => op in OpMap && Desugarable(l) && Desugarable(r)
    case IfExpr(t, a, b) => Desugarable(t) && Desugarable(a) && Desugarable(b)
    case For(_, iter, body, init) => Desugarable(iter) && Desugarable(body) && Desugarable(init)
    case While(t, body, init) => Desugarable(t) && Desugarable(body) && Desugarable(init)
    case Lambda(_, body) => Desugarable(body)
    case If(_, _, _) => false
    case Break => false
    case Continue => false
  }

  /** `desugar` succeeds exactly on the trees it has a rule for. */
  lemma {:induction false} DesugarDefined(n: Node)
    ensures Desugar(n).Ok? <==> Desugarable(n)
    decreases n, 1
  {
    match n
    case Program(stmts) => DesugarAllDefined(stmts);
    case Let(_, e, _) => DesugarDefined(e);
    case Set(_, e) => DesugarDefined(e);
    case ExprStmt(e) => DesugarDefined(e);
    case Number(_) =>
    case String(_) =>
    case Name(_) =>
    case Call(f, args) => DesugarDefined(f); DesugarAllDefined(args);
    case BinOp(l, _, r) => DesugarDefined(l); DesugarDefined(r);
    case IfExpr(t, a, b) => DesugarDefined(t); DesugarDefined(a); DesugarDefined(b);
    case For(_, iter, body, init) => DesugarDefined(iter); DesugarDefined(body); DesugarDefined(init);
    case While(t, body, init) => DesugarDefined(t); DesugarDefined(body); DesugarDefined(init);
    case Lambda(_, body) => DesugarDefined(body);
    case If(_, _, _) =>
    case Break =>
    case Continue =>
  }

  lemma {:induction false} DesugarAllDefined(ns: seq<Node>)
    ensures DesugarAll(ns).Ok? <==> forall m | m in ns :: Desugarable(m)
    decreases ns, 0
  {
    if ns != [] {
      DesugarDefined(ns[0]);
      DesugarAllDefined(ns[1..]);
      assert forall m | m in ns :: m == ns[0] || m in ns[1..];
    }
  }

  /** A tree that is already desugared comes back unchanged. */
  lemma {:induction false} DesugarFixes(n: Node)
    requires Sugarless(n)
    ensures Desugar(n) == Ok(n)
    decreases n, 1
  {
    match n
    case Program(stmts) => DesugarAllFixes(stmts);
    case Let(_, e, _) => DesugarFixes(e);
    case Set(_, e) => DesugarFixes(e);
    case ExprStmt(e) => DesugarFixes(e);
    case Number(_) =>
    case String(_) =>
    case Name(_) =>
    case Call(f, args) => DesugarFixes(f); DesugarAllFixes(args);
    case Lambda(_, body) => DesugarFixes(body);
  }

  lemma {:induction false} DesugarAllFixes(ns: seq<Node>)
    requires forall m | m in ns :: Sugarless(m)
    ensures DesugarAll(ns) == Ok(ns)
    decreases ns, 0
  {
    if ns != [] {
      DesugarFixes(ns[0]);
      DesugarAllFixes(ns[1..]);
      assert [ns[0]] + ns[1..] == ns;
    }
  }

  /** Desugaring twice is desugaring once. */
  lemma DesugarIdempotent(n: Node)
    requires Desugar(n).Ok?
    ensures Desugar(Desugar(n).value) == Desugar(n)
  {
    DesugarFixes(Desugar(n).value);
  }

  /** `let x = if 1 < 2: 3 else: 4` binds `x` to a call of `cond` on three
      thunks, and the comparison becomes a call of `op.lt`. */
  lemma IfExprBecomesCond()
    ensures Desugar(Let("x", IfExpr(BinOp(Number(1), "<", Number(2)), Number(3), Number(4)), false))
      == Ok(Let("x", Call(Name("cond"), [Lambda([], Call(Name("op.lt"), [Number(1), Number(2)])),
                                         Lambda([], Number(3)), Lambda([], Number(4))]), false))
  {
    var lt := BinOp(Number(1), "<", Number(2));
    assert "<" in OpMap && OpMap["<"] == "op.lt";
    assert DesugarBinOp(lt) == Ok(Call(Name("op.lt"), [Number(1), Number(2)]));
    assert Desugar(lt) == DesugarBinOp(lt);
  }

  /** A `for` statement becomes a bare call of `loop.for` whose body lambda
      takes the loop variable and `acc`. */
  lemma ForBecomesLoopFor(v: string, iter: Node, body: Node, init: Node)
    requires Sugarless(iter) && Sugarless(body) && Sugarless(init)
    ensures Desugar(For(v, iter, body, init)) == Ok(Call(Name("loop.for"), [iter, Lambda([v, "acc"], body), init]))
  {
    DesugarFixes(iter);
    DesugarFixes(body);
    DesugarFixes(init);
  }

  /** An operator outside `OP_MAP` (such as `%`) raises `KeyError`. */
  lemma UnmappedOperatorFails(l: Node, r: Node)
    ensures Desugar(BinOp(l, "%", r)) == Err(KeyError("%"))
  {
  }
}
