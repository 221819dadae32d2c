/** The recursive-descent parser of aissembly_dsl/parser.py: a `Parser`
    object holds the token list and a cursor `pos`; statements are parsed by
    their leading keyword and expressions by precedence climbing. The
    functions below say what each `parse_*` method returns and where it
    leaves the cursor; the methods of `Parser` are proved to agree with
    them. */
module DslParser {
  import opened Basics
  import opened PyStr
  import opened DslAst
  import opened DslTokenizer

  /** The token lists the parser runs on: `tokenize` ends every list with
      `EOF`, and the parser never moves past it. */
  predicate EndsWithEof(ts: seq<Token>) {
    |ts| > 0 && ts[|ts| - 1].kind == "EOF"
  }

  /** A parse result together with the cursor after it. */
  datatype Parsed<T> = Parsed(node: T, pos: nat)

  /** `_expect(kind)` at `p`: the cursor after the token, or the error. */
  function ExpectAt(ts: seq<Token>, p: nat, kind: string): (r: Result<nat, DslError>)
    requires EndsWithEof(ts) && p < |ts| && kind != "EOF"
    ensures r.Ok? <==> ts[p].kind == kind
    ensures r.Ok? ==> r.value == p + 1 < |ts|
  {
    if ts[p].kind != kind then Err(SyntaxError("expected " + kind + " but got " + ts[p].kind))
    else Ok(p + 1)
  }

  /** The binding power of an operator; anything not in the table gets 0. */
  function Prec(op: string): int {
    if op in ["==", "!=", ">", "<", ">=", "<="] then 5
    else if op in ["+", "-"] then 10
    else if op in ["*", "/"] then 20
    else 0
  }

  // ---------------------------------------------------------------------------
  // Statements

  /** The loop of `parse`: top-level `NEWLINE`s are skipped and statements
      collected until `EOF`. */
  function Items(ts: seq<Token>, p: nat, acc: seq<Node>): (r: Result<Parsed<seq<Node>>, DslError>)
    requires EndsWithEof(ts) && p < |ts|
    ensures r.Ok? ==> p <= r.value.pos < |ts| && ts[r.value.pos].kind == "EOF"
    decreases |ts| - p, 9
  {
    if ts[p].kind == "EOF" then Ok(Parsed(acc, p))
    else if ts[p].kind == "NEWLINE" then Items(ts, p + 1, acc)
    else
      var s :- Stmt(ts, p);
      Items(ts, s.pos, acc + [s.node])
  }

  /** `parse`. */
  function ParseProgram(ts: seq<Token>, p: nat): (r: Result<Parsed<Node>, DslError>)
    requires EndsWithEof(ts) && p < |ts|
    ensures r.Ok? ==> r.value.node.Program? && r.value.pos < |ts| && ts[r.value.pos].kind == "EOF"
  {
    var items :- Items(ts, p, []);
    Ok(Parsed(Program(items.node), items.pos))
  }

  /** `parse_stmt`. */
  function Stmt(ts: seq<Token>, p: nat): (r: Result<Parsed<Node>, DslError>)
    requires EndsWithEof(ts) && p < |ts|
    ensures r.Ok? ==> p < r.value.pos < |ts|
    decreases |ts| - p, 8
  {
    var kind := ts[p].kind;
    if kind == "LET" || kind == "MUT" then
      var q :- ExpectAt(ts, p + 1, "IDENT");
      var e :- ExpectAt(ts, q, "EQUAL");
      var expr :- Expr(ts, e, 0);
      Ok(Parsed(Let(ts[p + 1].value, expr.node, kind == "MUT"), expr.pos))
    else if kind == "SET" then
      var q :- ExpectAt(ts, p + 1, "IDENT");
      var e :- ExpectAt(ts, q, "EQUAL");
      var expr :- Expr(ts, e, 0);
      Ok(Parsed(Set(ts[p + 1].value, expr.node), expr.pos))
    else if kind == "IF" then IfStmt(ts, p)
    else if kind == "FOR" then ForStmt(ts, p)
    else if kind == "WHILE" then WhileStmt(ts, p)
    else if kind == "BREAK" then Ok(Parsed(Break, p + 1))
    else if kind == "CONTINUE" then Ok(Parsed(Continue, p + 1))
    else
      var expr :- Expr(ts, p, 0);
      Ok(Parsed(ExprStmt(expr.node), expr.pos))
  }

  /** `parse_block`: `NEWLINE INDENT`, statements each optionally followed by
      a `NEWLINE`, then `DEDENT`. */
  function Block(ts: seq<Token>, p: nat): (r: Result<Parsed<seq<Node>>, DslError>)
    requires EndsWithEof(ts) && p < |ts|
    ensures r.Ok? ==> p < r.value.pos < |ts|
    decreases |ts| - p, 7
  {
    var q :- ExpectAt(ts, p, "NEWLINE");
    var q2 :- ExpectAt(ts, q, "INDENT");
    var items :- BlockItems(ts, q2, []);
    // the statement loop stops only at a DEDENT, so the closing `_expect`
    // always succeeds
    Ok(Parsed(items.node, items.pos + 1))
  }

  function BlockItems(ts: seq<Token>, p: nat, acc: seq<Node>): (r: Result<Parsed<seq<Node>>, DslError>)
    requires EndsWithEof(ts) && p < |ts|
    ensures r.Ok? ==> p <= r.value.pos < |ts| && ts[r.value.pos].kind == "DEDENT"
    decreases |ts| - p, 9
  {
    if ts[p].kind == "DEDENT" then Ok(Parsed(acc, p))
    else
      var s :- Stmt(ts, p);
      var q := if ts[s.pos].kind == "NEWLINE" then s.pos + 1 else s.pos;
      BlockItems(ts, q, acc + [s.node])
  }

  /** `parse_if_stmt`: `if e: block`, optionally `else: block`. */
  function IfStmt(ts: seq<Token>, p: nat): (r: Result<Parsed<Node>, DslError>)
    requires EndsWithEof(ts) && p < |ts|
    ensures r.Ok? ==> p < r.value.pos < |ts|
    decreases |ts| - p, 7
  {
    var q :- ExpectAt(ts, p, "IF");
    var test :- Expr(ts, q, 0);
    var c :- ExpectAt(ts, test.pos, "COLON");
    var thenBody :- Block(ts, c);
    IfElse(ts, test.node, thenBody)
  }

  /** The optional `else: block` after the `then` block of an `if`. */
  function IfElse(ts: seq<Token>, test: Node, thenBody: Parsed<seq<Node>>): (r: Result<Parsed<Node>, DslError>)
    requires EndsWithEof(ts) && thenBody.pos < |ts|
    ensures r.Ok? ==> thenBody.pos <= r.value.pos < |ts|
    decreases |ts| - thenBody.pos, 6
  {
    if ts[thenBody.pos].kind == "ELSE" then
      var c2 :- ExpectAt(ts, thenBody.pos + 1, "COLON");
      var elseBody :- Block(ts, c2);
      Ok(Parsed(If(test, thenBody.node, elseBody.node), elseBody.pos))
    else Ok(Parsed(If(test, thenBody.node, []), thenBody.pos))
  }

  /** `parse_loop_body`: `NEWLINE INDENT -> expr [NEWLINE] DEDENT`. */
  function LoopBody(ts: seq<Token>, p: nat): (r: Result<Parsed<Node>, DslError>)
    requires EndsWithEof(ts) && p < |ts|
    ensures r.Ok? ==> p < r.value.pos < |ts|
    decreases |ts| - p, 7
  {
    var q :- ExpectAt(ts, p, "NEWLINE");
    var q2 :- ExpectAt(ts, q, "INDENT");
    var q3 :- ExpectAt(ts, q2, "ARROW");
    var body :- Expr(ts, q3, 0);
    var q4 := if ts[body.pos].kind == "NEWLINE" then body.pos + 1 else body.pos;
    var end :- ExpectAt(ts, q4, "DEDENT");
    Ok(Parsed(body.node, end))
  }

  /** The optional `init expr` after a loop body; `Name("none")` without it. */
  function LoopInit(ts: seq<Token>, p: nat): (r: Result<Parsed<Node>, DslError>)
    requires EndsWithEof(ts) && p < |ts|
    ensures r.Ok? ==> p <= r.value.pos < |ts|
    decreases |ts| - p, 7
  {
    if ts[p].kind == "INIT" then Expr(ts, p + 1, 0)
    else Ok(Parsed(Name("none"), p))
  }

  /** `parse_for`: `for NAME in expr: body [init expr]`. */
  function ForStmt(ts: seq<Token>, p: nat): (r: Result<Parsed<Node>, DslError>)
    requires EndsWithEof(ts) && p < |ts|
    ensures r.Ok? ==> p < r.value.pos < |ts|
    decreases |ts| - p, 7
  {
    var q :- ExpectAt(ts, p, "FOR");
    var q2 :- ExpectAt(ts, q, "IDENT");
    var q3 :- ExpectAt(ts, q2, "IN");
    var iter :- Expr(ts, q3, 0);
    var c :- ExpectAt(ts, iter.pos, "COLON");
    var body :- LoopBody(ts, c);
    var init :- LoopInit(ts, body.pos);
    Ok(Parsed(For(ts[q].value, iter.node, body.node, init.node), init.pos))
  }

  /** `parse_while`: `while expr: body [init expr]`. */
  function WhileStmt(ts: seq<Token>, p: nat): (r: Result<Parsed<Node>, DslError>)
    requires EndsWithEof(ts) && p < |ts|
    ensures r.Ok? ==> p < r.value.pos < |ts|
    decreases |ts| - p, 7
  {
    var q :- ExpectAt(ts, p, "WHILE");
    var test :- Expr(ts, q, 0);
    var c :- ExpectAt(ts, test.pos, "COLON");
    var body :- LoopBody(ts, c);
    var init :- LoopInit(ts, body.pos);
    Ok(Parsed(While(test.node, body.node, init.node), init.pos))
  }

  // ---------------------------------------------------------------------------
  // Expressions

  /** `parse_expr(min_prec)`: an atom, then operators of at least `minPrec`. */
  function Expr(ts: seq<Token>, p: nat, minPrec: int): (r: Result<Parsed<Node>, DslError>)
    requires EndsWithEof(ts) && p < |ts|
    ensures r.Ok? ==> p < r.value.pos < |ts|
    ensures r.Ok? ==> !(ts[r.value.pos].kind == "OP" && Prec(ts[r.value.pos].value) >= minPrec)
    decreases |ts| - p, 4
  {
    var left :- Atom(ts, p);
    ExprTail(ts, left.pos, minPrec, left.node)
  }

  /** The `while` loop of `parse_expr`: each operator of enough precedence
      takes a right operand parsed one level tighter, and the result so far
      becomes its left operand. */
  function ExprTail(ts: seq<Token>, p: nat, minPrec: int, left: Node): (r: Result<Parsed<Node>, DslError>)
    requires EndsWithEof(ts) && p < |ts|
    ensures r.Ok? ==> p <= r.value.pos < |ts|
    ensures r.Ok? ==> !(ts[r.value.pos].kind == "OP" && Prec(ts[r.value.pos].value) >= minPrec)
    decreases |ts| - p, 4
  {
    if ts[p].kind == "OP" && Prec(ts[p].value) >= minPrec then
      var op := ts[p].value;
      var right :- Expr(ts, p + 1, Prec(op) + 1);
      ExprTail(ts, right.pos, minPrec, BinOp(left, op, right.node))
    else Ok(Parsed(left, p))
  }

  /** `tok.value[1:-1]`. */
  function Unquote(s: string): string {
    if |s| >= 2 then s[1..|s| - 1] else ""
  }

  /** `parse_atom`: a number or string alone, or a name, a parenthesised
      expression, an `if` expression, a lambda or `true`/`false`/`none`,
      followed by any number of call suffixes. */
  function Atom(ts: seq<Token>, p: nat): (r: Result<Parsed<Node>, DslError>)
    requires EndsWithEof(ts) && p < |ts|
    ensures r.Ok? ==> p < r.value.pos < |ts|
    decreases |ts| - p, 3
  {
    var tok := ts[p];
    if tok.kind == "NUMBER" then
      if IsSignedInt(tok.value) then Ok(Parsed(Number(ParseSignedInt(tok.value)), p + 1))
      else Err(ValueError("invalid literal for int()"))
    else if tok.kind == "STRING" then Ok(Parsed(String(Unquote(tok.value)), p + 1))
    else
      var head :- Primary(ts, p);
      Suffixes(ts, head.pos, head.node)
  }

  /** The part of `parse_atom` before the call suffixes. */
  function Primary(ts: seq<Token>, p: nat): (r: Result<Parsed<Node>, DslError>)
    requires EndsWithEof(ts) && p < |ts|
    ensures r.Ok? ==> p < r.value.pos < |ts|
    decreases |ts| - p, 2
  {
    var tok := ts[p];
    if tok.kind == "IDENT" then Ok(Parsed(Name(tok.value), p + 1))
    else if tok.kind == "LPAREN" then Parenthesized(ts, p)
    else if tok.kind == "IF" then InlineIf(ts, p)
    else if tok.kind == "FN" then LambdaExpr(ts, p)
    else if tok.kind == "TRUE" then Ok(Parsed(Name("true"), p + 1))
    else if tok.kind == "FALSE" then Ok(Parsed(Name("false"), p + 1))
    else if tok.kind == "NONE" then Ok(Parsed(Name("none"), p + 1))
    else Err(SyntaxError("unexpected token " + tok.kind))
  }

  /** `( expr )`, from the opening parenthesis at `p`. */
  function Parenthesized(ts: seq<Token>, p: nat): (r: Result<Parsed<Node>, DslError>)
    requires EndsWithEof(ts) && p + 1 < |ts|
    ensures r.Ok? ==> p < r.value.pos < |ts|
    decreases |ts| - p, 1
  {
    var inner :- Expr(ts, p + 1, 0);
    var q :- ExpectAt(ts, inner.pos, "RPAREN");
    Ok(Parsed(inner.node, q))
  }

  /** `if test: yes else: no` as an expression, from the `if` at `p`. */
  function InlineIf(ts: seq<Token>, p: nat): (r: Result<Parsed<Node>, DslError>)
    requires EndsWithEof(ts) && p + 1 < |ts|
    ensures r.Ok? ==> p < r.value.pos < |ts|
    ensures r.Ok? ==> r.value.node.IfExpr?
    decreases |ts| - p, 1
  {
    var test :- Expr(ts, p + 1, 0);
    var c :- ExpectAt(ts, test.pos, "COLON");
    var yes :- Expr(ts, c, 0);
    var e :- ExpectAt(ts, yes.pos, "ELSE");
    var c2 :- ExpectAt(ts, e, "COLON");
    var no :- Expr(ts, c2, 0);
    Ok(Parsed(IfExpr(test.node, yes.node, no.node), no.pos))
  }

  /** The call-suffix loop: each `( args )` wraps the node parsed so far. */
  function Suffixes(ts: seq<Token>, p: nat, node: Node): (r: Result<Parsed<Node>, DslError>)
    requires EndsWithEof(ts) && p < |ts|
    ensures r.Ok? ==> p <= r.value.pos < |ts|
    decreases |ts| - p, 2
  {
    if ts[p].kind == "LPAREN" then
      var args :- Args(ts, p + 1);
      var q :- ExpectAt(ts, args.pos, "RPAREN");
      Suffixes(ts, q, Call(node, args.node))
    else Ok(Parsed(node, p))
  }

  /** The arguments of one call suffix, up to the closing parenthesis. */
  function Args(ts: seq<Token>, p: nat): (r: Result<Parsed<seq<Node>>, DslError>)
    requires EndsWithEof(ts) && p < |ts|
    ensures r.Ok? ==> p <= r.value.pos < |ts|
    decreases |ts| - p, 5
  {
    if ts[p].kind != "RPAREN" then
      var first :- Expr(ts, p, 0);
      MoreArgs(ts, first.pos, [first.node])
    else Ok(Parsed([], p))
  }

  function MoreArgs(ts: seq<Token>, p: nat, acc: seq<Node>): (r: Result<Parsed<seq<Node>>, DslError>)
    requires EndsWithEof(ts) && p < |ts|
    ensures r.Ok? ==> p <= r.value.pos < |ts|
    decreases |ts| - p, 5
  {
    if ts[p].kind == "COMMA" then
      var next :- Expr(ts, p + 1, 0);
      MoreArgs(ts, next.pos, acc + [next.node])
    else Ok(Parsed(acc, p))
  }

  /** `parse_lambda`: `fn ( params ) -> expr`. */
  function LambdaExpr(ts: seq<Token>, p: nat): (r: Result<Parsed<Node>, DslError>)
    requires EndsWithEof(ts) && p < |ts|
    ensures r.Ok? ==> p < r.value.pos < |ts|
    decreases |ts| - p, 1
  {
    var q :- ExpectAt(ts, p, "FN");
    var q2 :- ExpectAt(ts, q, "LPAREN");
    var params :- Params(ts, q2);
    var q3 :- ExpectAt(ts, params.pos, "RPAREN");
    var q4 :- ExpectAt(ts, q3, "ARROW");
    var body :- Expr(ts, q4, 0);
    Ok(Parsed(Lambda(params.node, body.node), body.pos))
  }

  function Params(ts: seq<Token>, p: nat): (r: Result<Parsed<seq<string>>, DslError>)
    requires EndsWithEof(ts) && p < |ts|
    ensures r.Ok? ==> p <= r.value.pos < |ts|
    decreases |ts| - p, 0
  {
    if ts[p].kind != "RPAREN" then
      var q :- ExpectAt(ts, p, "IDENT");
      MoreParams(ts, q, [ts[p].value])
    else Ok(Parsed([], p))
  }

  function MoreParams(ts: seq<Token>, p: nat, acc: seq<string>): (r: Result<Parsed<seq<string>>, DslError>)
    requires EndsWithEof(ts) && p < |ts|
    ensures r.Ok? ==> p <= r.value.pos < |ts|
    decreases |ts| - p, 0
  {
    if ts[p].kind == "COMMA" then
      var q :- ExpectAt(ts, p + 1, "IDENT");
      MoreParams(ts, q, acc + [ts[p + 1].value])
    else Ok(Parsed(acc, p))
  }

  // ---------------------------------------------------------------------------
  // What the parser produces

  /** Every expression the parser accepts is an expression tree. */
  lemma {:induction false} ExprIsExpr(ts: seq<Token>, p: nat, minPrec: int)
    requires EndsWithEof(ts) && p < |ts|
    ensures Expr(ts, p, minPrec).Ok? ==> IsExpr(Expr(ts, p, minPrec).value.node)
    decreases |ts| - p, 4
  {
    var a := Atom(ts, p);
    if a.Ok? {
      AtomIsExpr(ts, p);
      ExprTailIsExpr(ts, a.value.pos, minPrec, a.value.node);
    }
  }

  lemma {:induction false} ExprTailIsExpr(ts: seq<Token>, p: nat, minPrec: int, left: Node)
    requires EndsWithEof(ts) && p < |ts| && IsExpr(left)
    ensures ExprTail(ts, p, minPrec, left).Ok? ==> IsExpr(ExprTail(ts, p, minPrec, left).value.node)
    decreases |ts| - p, 4
  {
    if ts[p].kind == "OP" && Prec(ts[p].value) >= minPrec {
      var op := ts[p].value;
      var right := Expr(ts, p + 1, Prec(op) + 1);
      if right.Ok? {
        ExprIsExpr(ts, p + 1, Prec(op) + 1);
        ExprTailIsExpr(ts, right.value.pos, minPrec, BinOp(left, op, right.value.node));
      }
    }
  }

  lemma {:induction false} AtomIsExpr(ts: seq<Token>, p: nat)
    requires EndsWithEof(ts) && p < |ts|
    ensures Atom(ts, p).Ok? ==> IsExpr(Atom(ts, p).value.node)
    decreases |ts| - p, 3
  {
    if ts[p].kind != "NUMBER" && ts[p].kind != "STRING" {
      var head := Primary(ts, p);
      if head.Ok? {
        PrimaryIsExpr(ts, p);
        SuffixesIsExpr(ts, head.value.pos, head.value.node);
      }
    }
  }

  lemma {:induction false} PrimaryIsExpr(ts: seq<Token>, p: nat)
    requires EndsWithEof(ts) && p < |ts|
    ensures Primary(ts, p).Ok? ==> IsExpr(Primary(ts, p).value.node)
    decreases |ts| - p, 2
  {
    var kind := ts[p].kind;
    if kind == "LPAREN" {
      assert Primary(ts, p) == Parenthesized(ts, p);
      ExprIsExpr(ts, p + 1, 0);
    } else if kind == "IF" {
      assert Primary(ts, p) == InlineIf(ts, p);
      var test := Expr(ts, p + 1, 0);
      if test.Ok? {
        ExprIsExpr(ts, p + 1, 0);
        var c := ExpectAt(ts, test.value.pos, "COLON");
        if c.Ok? {
          var yes := Expr(ts, c.value, 0);
          if yes.Ok? {
            ExprIsExpr(ts, c.value, 0);
            var e := ExpectAt(ts, yes.value.pos, "ELSE");
            if e.Ok? {
              var c2 := ExpectAt(ts, e.value, "COLON");
              if c2.Ok? {
                ExprIsExpr(ts, c2.value, 0);
              }
            }
          }
        }
      }
    } else if kind == "FN" {
      LambdaIsExpr(ts, p);
    }
  }

  lemma {:induction false} LambdaIsExpr(ts: seq<Token>, p: nat)
    requires EndsWithEof(ts) && p < |ts|
    ensures LambdaExpr(ts, p).Ok? ==> IsExpr(LambdaExpr(ts, p).value.node)
    decreases |ts| - p, 1
  {
    forall q | p < q < |ts|
      ensures Expr(ts, q, 0).Ok? ==> IsExpr(Expr(ts, q, 0).value.node)
    {
      ExprIsExpr(ts, q, 0);
    }
  }

  lemma {:induction false} SuffixesIsExpr(ts: seq<Token>, p: nat, node: Node)
    requires EndsWithEof(ts) && p < |ts| && IsExpr(node)
    ensures Suffixes(ts, p, node).Ok? ==> IsExpr(Suffixes(ts, p, node).value.node)
    decreases |ts| - p, 2
  {
    if ts[p].kind == "LPAREN" {
      var args := Args(ts, p + 1);
      if args.Ok? {
        ArgsIsExpr(ts, p + 1);
        var q := ExpectAt(ts, args.value.pos, "RPAREN");
        if q.Ok? {
          SuffixesIsExpr(ts, q.value, Call(node, args.value.node));
        }
      }
    }
  }

  lemma {:induction false} ArgsIsExpr(ts: seq<Token>, p: nat)
    requires EndsWithEof(ts) && p < |ts|
    ensures Args(ts, p).Ok? ==> forall a | a in Args(ts, p).value.node :: IsExpr(a)
    decreases |ts| - p, 5
  {
    if ts[p].kind != "RPAREN" {
      var first := Expr(ts, p, 0);
      if first.Ok? {
        ExprIsExpr(ts, p, 0);
        MoreArgsIsExpr(ts, first.value.pos, [first.value.node]);
      }
    }
  }

  lemma {:induction false} MoreArgsIsExpr(ts: seq<Token>, p: nat, acc: seq<Node>)
    requires EndsWithEof(ts) && p < |ts| && forall a | a in acc :: IsExpr(a)
    ensures MoreArgs(ts, p, acc).Ok? ==> forall a | a in MoreArgs(ts, p, acc).value.node :: IsExpr(a)
    decreases |ts| - p, 5
  {
    if ts[p].kind == "COMMA" {
      var next := Expr(ts, p + 1, 0);
      if next.Ok? {
        ExprIsExpr(ts, p + 1, 0);
        MoreArgsIsExpr(ts, next.value.pos, acc + [next.value.node]);
      }
    }
  }

  /** Every statement the parser accepts is a well-formed statement. */
  lemma {:induction false} StmtIsStmt(ts: seq<Token>, p: nat)
    requires EndsWithEof(ts) && p < |ts|
    ensures Stmt(ts, p).Ok? ==> IsStmt(Stmt(ts, p).value.node)
    decreases |ts| - p, 8
  {
    var kind := ts[p].kind;
    forall q, m | p < q < |ts|
      ensures Expr(ts, q, m).Ok? ==> IsExpr(Expr(ts, q, m).value.node)
    {
      ExprIsExpr(ts, q, m);
    }
    if kind == "IF" {
      IfStmtIsStmt(ts, p);
    } else if kind == "FOR" {
      LoopIsStmt(ts, p);
    } else if kind == "WHILE" {
      LoopIsStmt(ts, p);
    } else if kind != "LET" && kind != "MUT" && kind != "SET" && kind != "BREAK" && kind != "CONTINUE" {
      ExprIsExpr(ts, p, 0);
    }
  }

  lemma {:induction false} IfStmtIsStmt(ts: seq<Token>, p: nat)
    requires EndsWithEof(ts) && p < |ts|
    ensures IfStmt(ts, p).Ok? ==> IsStmt(IfStmt(ts, p).value.node)
    decreases |ts| - p, 7
  {
    var q := ExpectAt(ts, p, "IF");
    if q.Ok? {
      var test := Expr(ts, q.value, 0);
      if test.Ok? {
        ExprIsExpr(ts, q.value, 0);
        var c := ExpectAt(ts, test.value.pos, "COLON");
        if c.Ok? {
          var thenBody := Block(ts, c.value);
          if thenBody.Ok? {
            BlockIsStmt(ts, c.value);
            var tb := thenBody.value;
            assert IfStmt(ts, p) == IfElse(ts, test.value.node, tb);
            if ts[tb.pos].kind == "ELSE" {
              var c2 := ExpectAt(ts, tb.pos + 1, "COLON");
              if c2.Ok? {
                BlockIsStmt(ts, c2.value);
              }
            }
          }
        }
      }
    }
  }

  lemma {:induction false} BlockIsStmt(ts: seq<Token>, p: nat)
    requires EndsWithEof(ts) && p < |ts|
    ensures Block(ts, p).Ok? ==> forall s | s in Block(ts, p).value.node :: IsStmt(s)
    decreases |ts| - p, 7
  {
    var q := ExpectAt(ts, p, "NEWLINE");
    if q.Ok? {
      var q2 := ExpectAt(ts, q.value, "INDENT");
      if q2.Ok? {
        BlockItemsIsStmt(ts, q2.value, []);
      }
    }
  }

  lemma {:induction false} BlockItemsIsStmt(ts: seq<Token>, p: nat, acc: seq<Node>)
    requires EndsWithEof(ts) && p < |ts| && forall s | s in acc :: IsStmt(s)
    ensures BlockItems(ts, p, acc).Ok? ==> forall s | s in BlockItems(ts, p, acc).value.node :: IsStmt(s)
    decreases |ts| - p, 9
  {
    if ts[p].kind != "DEDENT" {
      var s := Stmt(ts, p);
      if s.Ok? {
        StmtIsStmt(ts, p);
        var q := if ts[s.value.pos].kind == "NEWLINE" then s.value.pos + 1 else s.value.pos;
        BlockItemsIsStmt(ts, q, acc + [s.value.node]);
      }
    }
  }

  /** `for` and `while` statements: the iterable or test, the body and the
      `init` expression are expression trees. */
  lemma {:induction false} LoopIsStmt(ts: seq<Token>, p: nat)
    requires EndsWithEof(ts) && p < |ts|
    ensures ForStmt(ts, p).Ok? ==> IsStmt(ForStmt(ts, p).value.node)
    ensures WhileStmt(ts, p).Ok? ==> IsStmt(WhileStmt(ts, p).value.node)
    decreases |ts| - p, 7
  {
    ForIsStmt(ts, p);
    WhileIsStmt(ts, p);
  }

  lemma ForIsStmt(ts: seq<Token>, p: nat)
    requires EndsWithEof(ts) && p < |ts|
    ensures ForStmt(ts, p).Ok? ==> IsStmt(ForStmt(ts, p).value.node)
  {
    if ForStmt(ts, p).Ok? {
      var q3 := p + 3;
      var iter := Expr(ts, q3, 0).value;
      ExprIsExpr(ts, q3, 0);
      var body := LoopBody(ts, iter.pos + 1).value;
      LoopBodyIsExpr(ts, iter.pos + 1);
      LoopInitIsExpr(ts, body.pos);
    }
  }

  lemma WhileIsStmt(ts: seq<Token>, p: nat)
    requires EndsWithEof(ts) && p < |ts|
    ensures WhileStmt(ts, p).Ok? ==> IsStmt(WhileStmt(ts, p).value.node)
  {
    if WhileStmt(ts, p).Ok? {
      var test := Expr(ts, p + 1, 0).value;
      ExprIsExpr(ts, p + 1, 0);
      var body := LoopBody(ts, test.pos + 1).value;
      LoopBodyIsExpr(ts, test.pos + 1);
      LoopInitIsExpr(ts, body.pos);
    }
  }

  lemma LoopBodyIsExpr(ts: seq<Token>, p: nat)
    requires EndsWithEof(ts) && p < |ts|
    ensures LoopBody(ts, p).Ok? ==> IsExpr(LoopBody(ts, p).value.node)
  {
    if LoopBody(ts, p).Ok? {
      ExprIsExpr(ts, p + 3, 0);
    }
  }

  lemma LoopInitIsExpr(ts: seq<Token>, p: nat)
    requires EndsWithEof(ts) && p < |ts|
    ensures LoopInit(ts, p).Ok? ==> IsExpr(LoopInit(ts, p).value.node)
  {
    if ts[p].kind == "INIT" {
      ExprIsExpr(ts, p + 1, 0);
    }
  }

  lemma {:induction false} ItemsAreStmts(ts: seq<Token>, p: nat, acc: seq<Node>)
    requires EndsWithEof(ts) && p < |ts| && forall s | s in acc :: IsStmt(s)
    ensures Items(ts, p, acc).Ok? ==> forall s | s in Items(ts, p, acc).value.node :: IsStmt(s)
    decreases |ts| - p
  {
    if ts[p].kind == "NEWLINE" {
      ItemsAreStmts(ts, p + 1, acc);
    } else if ts[p].kind != "EOF" {
      var s := Stmt(ts, p);
      if s.Ok? {
        StmtIsStmt(ts, p);
        ItemsAreStmts(ts, s.value.pos, acc + [s.value.node]);
      }
    }
  }

  /** A parsed program is a sequence of well-formed statements: blocks hold
      statements, and every other sub-node is an expression. */
  lemma ProgramWellFormed(ts: seq<Token>, p: nat)
    requires EndsWithEof(ts) && p < |ts|
    ensures ParseProgram(ts, p).Ok? ==> IsProgram(ParseProgram(ts, p).value.node)
  {
    ItemsAreStmts(ts, p, []);
  }

  // ---------------------------------------------------------------------------
  // Precedence climbing

  /** The operator spine of an expression respects the precedence table: a
      left operand's operator binds at least as tightly as its parent's, a
      right operand's strictly more tightly (so equal operators group to the
      left). */
  predicate WellPrec(n: Node) {
    match n
    case BinOp(l, o, r) =>
      WellPrec(l) && WellPrec(r)
      && (l.BinOp? ==> Prec(l.op) >= Prec(o))
      && (r.BinOp? ==> Prec(r.op) > Prec(o))
    case _ => true
  }

  /** No parenthesis anywhere: parenthesised sub-expressions are the one
      way to override the table. */
  predicate NoParens(ts: seq<Token>) {
    forall k | 0 <= k < |ts| :: ts[k].kind != "LPAREN"
  }

  lemma AtomIsNotBinOp(ts: seq<Token>, p: nat)
    requires EndsWithEof(ts) && p < |ts| && NoParens(ts)
    ensures Atom(ts, p).Ok? ==> !Atom(ts, p).value.node.BinOp?
  {
    if ts[p].kind != "NUMBER" && ts[p].kind != "STRING" {
      assert ts[p].kind != "LPAREN";
      if ts[p].kind == "FN" {
        assert ts[p + 1].kind != "LPAREN";
        assert ExpectAt(ts, p + 1, "LPAREN").Err?;
        assert LambdaExpr(ts, p).Err?;
      }
      var head := Primary(ts, p);
      if head.Ok? {
        assert ts[head.value.pos].kind != "LPAREN";
        assert Suffixes(ts, head.value.pos, head.value.node) == Ok(head.value);
        assert !head.value.node.BinOp?;
        assert Atom(ts, p) == Ok(head.value);
      }
    }
  }

  /** `parse_expr(min_prec)` builds a tree that respects the table, and
      every operator on its spine has precedence at least `min_prec`. */
  lemma {:induction false} ExprWellPrec(ts: seq<Token>, p: nat, minPrec: int)
    requires EndsWithEof(ts) && p < |ts| && NoParens(ts)
    ensures Expr(ts, p, minPrec).Ok? ==>
      var n := Expr(ts, p, minPrec).value.node;
      WellPrec(n) && (n.BinOp? ==> Prec(n.op) >= minPrec)
    decreases |ts| - p, 1
  {
    var a := Atom(ts, p);
    if a.Ok? {
      AtomIsNotBinOp(ts, p);
      ExprTailWellPrec(ts, a.value.pos, minPrec, a.value.node);
    }
  }

  lemma {:induction false} ExprTailWellPrec(ts: seq<Token>, p: nat, minPrec: int, left: Node)
    requires EndsWithEof(ts) && p < |ts| && NoParens(ts)
    requires WellPrec(left) && (left.BinOp? ==> Prec(left.op) >= minPrec)
    requires left.BinOp? && ts[p].kind == "OP" ==> Prec(ts[p].value) <= Prec(left.op)
    ensures ExprTail(ts, p, minPrec, left).Ok? ==>
      var n := ExprTail(ts, p, minPrec, left).value.node;
      WellPrec(n) && (n.BinOp? ==> Prec(n.op) >= minPrec)
    decreases |ts| - p, 0
  {
    if ts[p].kind == "OP" && Prec(ts[p].value) >= minPrec {
      var op := ts[p].value;
      var right := Expr(ts, p + 1, Prec(op) + 1);
      if right.Ok? {
        ExprWellPrec(ts, p + 1, Prec(op) + 1);
        ExprTailWellPrec(ts, right.value.pos, minPrec, BinOp(left, op, right.value.node));
      }
    }
  }

  /** An operator outside the table (`%`) binds more loosely than every
      listed one: it is never the right operand of another operator, and it
      is a left operand only of another unlisted operator. */
  lemma UnlistedBindsLoosest(n: Node)
    requires WellPrec(n) && n.BinOp? && Prec(n.op) > 0
    ensures !(n.left.BinOp? && Prec(n.left.op) == 0)
    ensures !(n.right.BinOp? && Prec(n.right.op) == 0)
  {
  }

  // ---------------------------------------------------------------------------
  // Worked examples

  function Tok(kind: string, value: string): Token {
    Token(kind, value, 1, 1)
  }

  /** A name not followed by a call parses as that name alone. */
  lemma NameAtom(ts: seq<Token>, p: nat)
    requires EndsWithEof(ts) && p + 1 < |ts| && ts[p].kind == "IDENT" && ts[p + 1].kind != "LPAREN"
    ensures Atom(ts, p) == Ok(Parsed(Name(ts[p].value), p + 1))
  {
    assert Primary(ts, p) == Ok(Parsed(Name(ts[p].value), p + 1));
  }

  /** An operator of enough precedence takes the right operand parsed one
      level tighter, and the loop goes on from there. */
  lemma TailStep(ts: seq<Token>, p: nat, minPrec: int, left: Node, right: Node, q: nat)
    requires EndsWithEof(ts) && p + 1 < |ts| && ts[p].kind == "OP" && Prec(ts[p].value) >= minPrec
    requires Expr(ts, p + 1, Prec(ts[p].value) + 1) == Ok(Parsed(right, q))
    ensures ExprTail(ts, p, minPrec, left) == ExprTail(ts, q, minPrec, BinOp(left, ts[p].value, right))
  {
  }

  /** The loop stops at a token that is not an operator of enough precedence. */
  lemma TailStop(ts: seq<Token>, p: nat, minPrec: int, left: Node)
    requires EndsWithEof(ts) && p < |ts| && !(ts[p].kind == "OP" && Prec(ts[p].value) >= minPrec)
    ensures ExprTail(ts, p, minPrec, left) == Ok(Parsed(left, p))
  {
  }

  /** `a - b - c` groups to the left. */
  lemma LeftAssociative()
    ensures Expr([Tok("IDENT", "a"), Tok("OP", "-"), Tok("IDENT", "b"), Tok("OP", "-"), Tok("IDENT", "c"), Tok("EOF", "")], 0, 0)
      == Ok(Parsed(BinOp(BinOp(Name("a"), "-", Name("b")), "-", Name("c")), 5))
  {
    var ts := [Tok("IDENT", "a"), Tok("OP", "-"), Tok("IDENT", "b"), Tok("OP", "-"), Tok("IDENT", "c"), Tok("EOF", "")];
    assert Prec("-") == 10;
    NameAtom(ts, 4);
    TailStop(ts, 5, 11, Name("c"));
    assert Expr(ts, 4, 11) == Ok(Parsed(Name("c"), 5));
    NameAtom(ts, 2);
    TailStop(ts, 3, 11, Name("b"));
    assert Expr(ts, 2, 11) == Ok(Parsed(Name("b"), 3));
    NameAtom(ts, 0);
    TailStep(ts, 1, 0, Name("a"), Name("b"), 3);
    TailStep(ts, 3, 0, BinOp(Name("a"), "-", Name("b")), Name("c"), 5);
    TailStop(ts, 5, 0, BinOp(BinOp(Name("a"), "-", Name("b")), "-", Name("c")));
  }

  /** `a + b * c`: `*` binds tighter than `+`. */
  lemma TighterBindsFirst()
    ensures Expr([Tok("IDENT", "a"), Tok("OP", "+"), Tok("IDENT", "b"), Tok("OP", "*"), Tok("IDENT", "c"), Tok("EOF", "")], 0, 0)
      == Ok(Parsed(BinOp(Name("a"), "+", BinOp(Name("b"), "*", Name("c"))), 5))
  {
    var ts := [Tok("IDENT", "a"), Tok("OP", "+"), Tok("IDENT", "b"), Tok("OP", "*"), Tok("IDENT", "c"), Tok("EOF", "")];
    assert Atom(ts, 4) == Ok(Parsed(Name("c"), 5));
    assert Expr(ts, 4, 21) == Ok(Parsed(Name("c"), 5));
    assert Atom(ts, 2) == Ok(Parsed(Name("b"), 3));
    assert ExprTail(ts, 3, 11, Name("b")) == Ok(Parsed(BinOp(Name("b"), "*", Name("c")), 5));
    assert Expr(ts, 2, 11) == Ok(Parsed(BinOp(Name("b"), "*", Name("c")), 5));
    assert Atom(ts, 0) == Ok(Parsed(Name("a"), 1));
  }

  /** `a + b % c`: `%`, outside the table, binds loosest. */
  lemma UnlistedBindsLast()
    ensures Expr([Tok("IDENT", "a"), Tok("OP", "+"), Tok("IDENT", "b"), Tok("OP", "%"), Tok("IDENT", "c"), Tok("EOF", "")], 0, 0)
      == Ok(Parsed(BinOp(BinOp(Name("a"), "+", Name("b")), "%", Name("c")), 5))
  {
    var ts := [Tok("IDENT", "a"), Tok("OP", "+"), Tok("IDENT", "b"), Tok("OP", "%"), Tok("IDENT", "c"), Tok("EOF", "")];
    assert Atom(ts, 4) == Ok(Parsed(Name("c"), 5));
    assert Expr(ts, 4, 1) == Ok(Parsed(Name("c"), 5));
    assert Atom(ts, 2) == Ok(Parsed(Name("b"), 3));
    assert Expr(ts, 2, 11) == Ok(Parsed(Name("b"), 3));
    assert Atom(ts, 0) == Ok(Parsed(Name("a"), 1));
    assert ExprTail(ts, 3, 0, BinOp(Name("a"), "+", Name("b")))
      == Ok(Parsed(BinOp(BinOp(Name("a"), "+", Name("b")), "%", Name("c")), 5));
  }

  /** `f(a)(b)`: call suffixes chain, the first applied innermost. */
  lemma CallsChain()
    ensures Expr([Tok("IDENT", "f"), Tok("LPAREN", "("), Tok("IDENT", "a"), Tok("RPAREN", ")"),
                  Tok("LPAREN", "("), Tok("IDENT", "b"), Tok("RPAREN", ")"), Tok("EOF", "")], 0, 0)
      == Ok(Parsed(Call(Call(Name("f"), [Name("a")]), [Name("b")]), 7))
  {
    var ts := [Tok("IDENT", "f"), Tok("LPAREN", "("), Tok("IDENT", "a"), Tok("RPAREN", ")"),
               Tok("LPAREN", "("), Tok("IDENT", "b"), Tok("RPAREN", ")"), Tok("EOF", "")];
    var fa := Call(Name("f"), [Name("a")]);
    var fab := Call(fa, [Name("b")]);
    assert Suffixes(ts, 7, fab) == Ok(Parsed(fab, 7));
    assert Atom(ts, 5) == Ok(Parsed(Name("b"), 6));
    assert Expr(ts, 5, 0) == Ok(Parsed(Name("b"), 6));
    assert Args(ts, 5) == Ok(Parsed([Name("b")], 6));
    assert Suffixes(ts, 4, fa) == Ok(Parsed(fab, 7));
    assert Atom(ts, 2) == Ok(Parsed(Name("a"), 3));
    assert Expr(ts, 2, 0) == Ok(Parsed(Name("a"), 3));
    assert Args(ts, 2) == Ok(Parsed([Name("a")], 3));
    assert Suffixes(ts, 1, Name("f")) == Ok(Parsed(fab, 7));
    assert Atom(ts, 0) == Ok(Parsed(fab, 7));
  }

  /** `mut x = 1` is a mutable binding, `let x = 1` an immutable one. */
  lemma LetAndMut()
    ensures Stmt([Tok("MUT", "mut"), Tok("IDENT", "x"), Tok("EQUAL", "="), Tok("NUMBER", "1"), Tok("EOF", "")], 0)
      == Ok(Parsed(Let("x", Number(1), true), 4))
    ensures Stmt([Tok("LET", "let"), Tok("IDENT", "x"), Tok("EQUAL", "="), Tok("NUMBER", "1"), Tok("EOF", "")], 0)
      == Ok(Parsed(Let("x", Number(1), false), 4))
  {
  }

  /** A loop without `init` gets `none` as its initial value. */
  lemma DefaultInit()
    ensures Stmt([Tok("WHILE", "while"), Tok("IDENT", "c"), Tok("COLON", ":"), Tok("NEWLINE", ""),
                  Tok("INDENT", ""), Tok("ARROW", "->"), Tok("IDENT", "y"), Tok("NEWLINE", ""),
                  Tok("DEDENT", ""), Tok("EOF", "")], 0)
      == Ok(Parsed(While(Name("c"), Name("y"), Name("none")), 9))
  {
    var ts := [Tok("WHILE", "while"), Tok("IDENT", "c"), Tok("COLON", ":"), Tok("NEWLINE", ""),
               Tok("INDENT", ""), Tok("ARROW", "->"), Tok("IDENT", "y"), Tok("NEWLINE", ""),
               Tok("DEDENT", ""), Tok("EOF", "")];
    NameAtom(ts, 1);
    TailStop(ts, 2, 0, Name("c"));
    assert Expr(ts, 1, 0) == Ok(Parsed(Name("c"), 2));
    NameAtom(ts, 6);
    TailStop(ts, 7, 0, Name("y"));
    assert Expr(ts, 6, 0) == Ok(Parsed(Name("y"), 7));
    assert LoopBody(ts, 3) == Ok(Parsed(Name("y"), 9));
    assert LoopInit(ts, 9) == Ok(Parsed(Name("none"), 9));
    assert WhileStmt(ts, 0) == Ok(Parsed(While(Name("c"), Name("y"), Name("none")), 9));
  }


  // ---------------------------------------------------------------------------
  // The parser object

  /** A method's outcome (its result and where it left the cursor) is the
      one the specification function gives. */
  predicate Agrees<T(==)>(r: Result<T, DslError>, pos: nat, spec: Result<Parsed<T>, DslError>) {
    match spec
    case Ok(pr) => r == Ok(pr.node) && pos == pr.pos
    case Err(e) => r == Err(e)
  }

  class Parser {
    const tokens: seq<Token>
    var pos: nat

    predicate Valid()
      reads this
    {
      EndsWithEof(tokens) && pos < |tokens|
    }

    constructor(tokens: seq<Token>)
      requires EndsWithEof(tokens)
      ensures this.tokens == tokens && pos == 0 && Valid()
    {
      this.tokens := tokens;
      pos := 0;
    }

    /** `from_source`: a parser over the tokens of `src`. */
    static method FromSource(src: string) returns (r: Result<Parser, DslError>)
      ensures Tokens(src).Err? ==> r == Err(Tokens(src).error)
      ensures Tokens(src).Ok? ==>
        r.Ok? && fresh(r.value) && r.value.Valid() && r.value.tokens == Tokens(src).value && r.value.pos == 0
    {
      var ts := Tokenize(src);
      if ts.Err? {
        return Err(ts.error);
      }
      TokensBalanced(src);
      var parser := new Parser(ts.value);
      return Ok(parser);
    }

    /** `_peek`: the token under the cursor; any token but the closing
        `EOF` has a successor. */
    function Peek(): (t: Token)
      reads this
      requires Valid()
      ensures t == tokens[pos]
      ensures t.kind != "EOF" ==> pos + 1 < |tokens|
    {
      tokens[pos]
    }

    /** `_accept`: step over the token under the cursor exactly when it has
        the given kind. */
    method Accept(kind: string) returns (b: bool)
      requires Valid() && kind != "EOF"
      modifies this
      ensures Valid()
      ensures b <==> old(Peek()).kind == kind
      ensures pos == if b then old(pos) + 1 else old(pos)
    {
      if Peek().kind == kind {
        pos := pos + 1;
        return true;
      }
      return false;
    }

    /** `_expect`: the token under the cursor and a step past it, or a
        syntax error with the cursor left where it was. */
    method Expect(kind: string) returns (r: Result<Token, DslError>)
      requires Valid() && kind != "EOF"
      modifies this
      ensures Valid()
      ensures ExpectAt(tokens, old(pos), kind).Ok? ==> r == Ok(old(Peek())) && pos == old(pos) + 1
      ensures ExpectAt(tokens, old(pos), kind).Err? ==>
        r == Err(ExpectAt(tokens, old(pos), kind).error) && pos == old(pos)
    {
      var tok := Peek();
      if tok.kind != kind {
        return Err(SyntaxError("expected " + kind + " but got " + tok.kind));
      }
      pos := pos + 1;
      return Ok(tok);
    }

    /** `parse`. */
    method Parse() returns (r: Result<Node, DslError>)
      requires Valid()
      modifies this
      ensures Valid() && Agrees(r, pos, ParseProgram(tokens, old(pos)))
    {
      var body: seq<Node> := [];
      while Peek().kind != "EOF"
        invariant Valid()
        invariant Items(tokens, old(pos), []) == Items(tokens, pos, body)
        decreases |tokens| - pos
      {
        if Peek().kind == "NEWLINE" {
          pos := pos + 1;
          continue;
        }
        var s := ParseStmt();
        if s.Err? {
          return Err(s.error);
        }
        body := body + [s.value];
      }
      return Ok(Program(body));
    }

    /** `parse_stmt`. */
    method ParseStmt() returns (r: Result<Node, DslError>)
      requires Valid()
      modifies this
      ensures Valid() && Agrees(r, pos, Stmt(tokens, old(pos)))
      decreases |tokens| - pos, 8
    {
      var tok := Peek();
      if tok.kind == "LET" || tok.kind == "MUT" {
        pos := pos + 1;
        var name :- Expect("IDENT");
        var eq :- Expect("EQUAL");
        var expr :- ParseExpr(0);
        return Ok(Let(name.value, expr, tok.kind == "MUT"));
      }
      if tok.kind == "SET" {
        pos := pos + 1;
        var name :- Expect("IDENT");
        var eq :- Expect("EQUAL");
        var expr :- ParseExpr(0);
        return Ok(Set(name.value, expr));
      }
      if tok.kind == "IF" {
        r := ParseIfStmt();
        return;
      }
      if tok.kind == "FOR" {
        r := ParseFor();
        return;
      }
      if tok.kind == "WHILE" {
        r := ParseWhile();
        return;
      }
      if tok.kind == "BREAK" {
        pos := pos + 1;
        return Ok(Break);
      }
      if tok.kind == "CONTINUE" {
        pos := pos + 1;
        return Ok(Continue);
      }
      var expr :- ParseExpr(0);
      return Ok(ExprStmt(expr));
    }

    /** `parse_block`. */
    method ParseBlock() returns (r: Result<seq<Node>, DslError>)
      requires Valid()
      modifies this
      ensures Valid() && Agrees(r, pos, Block(tokens, old(pos)))
      decreases |tokens| - pos, 7
    {
      var nl :- Expect("NEWLINE");
      var ind :- Expect("INDENT");
      var stmts :- ParseBlockItems();
      // the loop stopped at a DEDENT, so `_expect("DEDENT")` succeeds
      pos := pos + 1;
      return Ok(stmts);
    }

    /** The statement loop of `parse_block`, up to the closing `DEDENT`. */
    method ParseBlockItems() returns (r: Result<seq<Node>, DslError>)
      requires Valid()
      modifies this
      ensures Valid() && Agrees(r, pos, BlockItems(tokens, old(pos), []))
      decreases |tokens| - pos, 9
    {
      ghost var start := pos;
      var stmts: seq<Node> := [];
      while Peek().kind != "DEDENT"
        invariant Valid() && start <= pos
        invariant BlockItems(tokens, start, []) == BlockItems(tokens, pos, stmts)
        decreases |tokens| - pos
      {
        var s :- ParseStmt();
        stmts := stmts + [s];
        if Peek().kind == "NEWLINE" {
          pos := pos + 1;
        }
      }
      return Ok(stmts);
    }

    /** `parse_if_stmt`. */
    method ParseIfStmt() returns (r: Result<Node, DslError>)
      requires Valid()
      modifies this
      ensures Valid() && Agrees(r, pos, IfStmt(tokens, old(pos)))
      decreases |tokens| - pos, 7
    {
      var kw :- Expect("IF");
      var test :- ParseExpr(0);
      var c :- Expect("COLON");
      var thenBody :- ParseBlock();
      assert IfStmt(tokens, old(pos)) == IfElse(tokens, test, Parsed(thenBody, pos));
      var otherwise: seq<Node> := [];
      if Peek().kind == "ELSE" {
        pos := pos + 1;
        var c2 :- Expect("COLON");
        otherwise :- ParseBlock();
      }
      return Ok(If(test, thenBody, otherwise));
    }

    /** `parse_loop_body`. */
    method ParseLoopBody() returns (r: Result<Node, DslError>)
      requires Valid()
      modifies this
      ensures Valid() && Agrees(r, pos, LoopBody(tokens, old(pos)))
      decreases |tokens| - pos, 7
    {
      var nl :- Expect("NEWLINE");
      var ind :- Expect("INDENT");
      var arrow :- Expect("ARROW");
      var expr :- ParseExpr(0);
      if Peek().kind == "NEWLINE" {
        pos := pos + 1;
      }
      var ded :- Expect("DEDENT");
      return Ok(expr);
    }

    /** The `init` clause shared by `parse_for` and `parse_while`. */
    method ParseInit() returns (r: Result<Node, DslError>)
      requires Valid()
      modifies this
      ensures Valid() && Agrees(r, pos, LoopInit(tokens, old(pos)))
      decreases |tokens| - pos, 7
    {
      var init := Name("none");
      if Peek().kind == "INIT" {
        pos := pos + 1;
        init :- ParseExpr(0);
      }
      return Ok(init);
    }

    /** `parse_for`. */
    method ParseFor() returns (r: Result<Node, DslError>)
      requires Valid()
      modifies this
      ensures Valid() && Agrees(r, pos, ForStmt(tokens, old(pos)))
      decreases |tokens| - pos, 7
    {
      var kw :- Expect("FOR");
      var name :- Expect("IDENT");
      var kwIn :- Expect("IN");
      var iter :- ParseExpr(0);
      var c :- Expect("COLON");
      var body :- ParseLoopBody();
      var init :- ParseInit();
      return Ok(For(name.value, iter, body, init));
    }

    /** `parse_while`. */
    method ParseWhile() returns (r: Result<Node, DslError>)
      requires Valid()
      modifies this
      ensures Valid() && Agrees(r, pos, WhileStmt(tokens, old(pos)))
      decreases |tokens| - pos, 7
    {
      var kw :- Expect("WHILE");
      var test :- ParseExpr(0);
      var c :- Expect("COLON");
      var body :- ParseLoopBody();
      var init :- ParseInit();
      return Ok(While(test, body, init));
    }

    /** `parse_expr(min_prec)`. */
    method ParseExpr(minPrec: int) returns (r: Result<Node, DslError>)
      requires Valid()
      modifies this
      ensures Valid() && Agrees(r, pos, Expr(tokens, old(pos), minPrec))
      decreases |tokens| - pos, 4
    {
      var left :- ParseAtom();
      while Peek().kind == "OP" && Prec(Peek().value) >= minPrec
        invariant Valid()
        invariant Expr(tokens, old(pos), minPrec) == ExprTail(tokens, pos, minPrec, left)
        decreases |tokens| - pos
      {
        // the loop test saw an OP, so `_expect("OP")` succeeds
        var op := Peek().value;
        pos := pos + 1;
        var right :- ParseExpr(Prec(op) + 1);
        left := BinOp(left, op, right);
      }
      return Ok(left);
    }

    /** `parse_atom`. */
    method ParseAtom() returns (r: Result<Node, DslError>)
      requires Valid()
      modifies this
      ensures Valid() && Agrees(r, pos, Atom(tokens, old(pos)))
      decreases |tokens| - pos, 3
    {
      var tok := Peek();
      if tok.kind == "NUMBER" {
        if !IsSignedInt(tok.value) {
          return Err(ValueError("invalid literal for int()"));
        }
        pos := pos + 1;
        return Ok(Number(ParseSignedInt(tok.value)));
      }
      if tok.kind == "STRING" {
        pos := pos + 1;
        return Ok(String(Unquote(tok.value)));
      }
      var node :- ParsePrimary();
      while Peek().kind == "LPAREN"
        invariant Valid()
        invariant Atom(tokens, old(pos)) == Suffixes(tokens, pos, node)
        decreases |tokens| - pos
      {
        // the loop test saw an LPAREN, so `_expect("LPAREN")` succeeds
        pos := pos + 1;
        var args :- ParseArgs();
        var rp :- Expect("RPAREN");
        node := Call(node, args);
      }
      return Ok(node);
    }

    /** The branches of `parse_atom` that start a callable expression. */
    method ParsePrimary() returns (r: Result<Node, DslError>)
      requires Valid()
      modifies this
      ensures Valid() && Agrees(r, pos, Primary(tokens, old(pos)))
      decreases |tokens| - pos, 2
    {
      var tok := Peek();
      if tok.kind == "IDENT" {
        pos := pos + 1;
        return Ok(Name(tok.value));
      } else if tok.kind == "LPAREN" {
        pos := pos + 1;
        assert Primary(tokens, old(pos)) == Parenthesized(tokens, old(pos));
        var inner :- ParseExpr(0);
        var rp :- Expect("RPAREN");
        return Ok(inner);
      } else if tok.kind == "IF" {
        r := ParseInlineIf();
      } else if tok.kind == "FN" {
        r := ParseLambda();
      } else if tok.kind == "TRUE" {
        pos := pos + 1;
        return Ok(Name("true"));
      } else if tok.kind == "FALSE" {
        pos := pos + 1;
        return Ok(Name("false"));
      } else if tok.kind == "NONE" {
        pos := pos + 1;
        return Ok(Name("none"));
      } else {
        return Err(SyntaxError("unexpected token " + tok.kind));
      }
    }

    /** The `if` branch of `parse_primary`: `if test: yes else: no`. */
    method ParseInlineIf() returns (r: Result<Node, DslError>)
      requires Valid() && Peek().kind == "IF"
      modifies this
      ensures Valid() && Agrees(r, pos, InlineIf(tokens, old(pos)))
      decreases |tokens| - pos, 1
    {
      pos := pos + 1;
      var test :- ParseExpr(0);
      var c :- Expect("COLON");
      var yes :- ParseExpr(0);
      var e :- Expect("ELSE");
      var c2 :- Expect("COLON");
      var no :- ParseExpr(0);
      return Ok(IfExpr(test, yes, no));
    }

    /** The arguments of one call suffix of `parse_atom`. */
    method ParseArgs() returns (r: Result<seq<Node>, DslError>)
      requires Valid()
      modifies this
      ensures Valid() && Agrees(r, pos, Args(tokens, old(pos)))
      decreases |tokens| - pos, 5
    {
      var args: seq<Node> := [];
      if Peek().kind != "RPAREN" {
        var first :- ParseExpr(0);
        args := [first];
        while Peek().kind == "COMMA"
          invariant Valid()
          invariant Args(tokens, old(pos)) == MoreArgs(tokens, pos, args)
          decreases |tokens| - pos
        {
          pos := pos + 1;
          var next :- ParseExpr(0);
          args := args + [next];
        }
      }
      return Ok(args);
    }

    /** The parameter list of `parse_lambda`: empty, or identifiers
        separated by commas. */
    method ParseParams() returns (r: Result<seq<string>, DslError>)
      requires Valid()
      modifies this
      ensures Valid() && Agrees(r, pos, Params(tokens, old(pos)))
    {
      ghost var start := pos;
      var params: seq<string> := [];
      if Peek().kind != "RPAREN" {
        var first :- Expect("IDENT");
        params := [first.value];
        while Peek().kind == "COMMA"
          invariant Valid()
          invariant Params(tokens, start) == MoreParams(tokens, pos, params)
          decreases |tokens| - pos
        {
          pos := pos + 1;
          var next :- Expect("IDENT");
          params := params + [next.value];
        }
      }
      return Ok(params);
    }

    /** `parse_lambda`. */
    method ParseLambda() returns (r: Result<Node, DslError>)
      requires Valid()
      modifies this
      ensures Valid() && Agrees(r, pos, LambdaExpr(tokens, old(pos)))
      decreases |tokens| - pos, 1
    {
      var kw :- Expect("FN");
      var lp :- Expect("LPAREN");
      var params :- ParseParams();
      var rp :- Expect("RPAREN");
      var arrow :- Expect("ARROW");
      var body :- ParseExpr(0);
      return Ok(Lambda(params, body));
    }
  }
}
