/** The tree-walking interpreter of aissembly_core/executor.py: values, the
    `BUILTINS` table, and the `Executor` that evaluates nodes in a dict
    environment. While loops have no bound in the source; here every while
    iteration spends one unit of `fuel`, and running out is its own outcome. */
module CoreExec {
  import opened Basics
  import opened PyStr
  import opened CoreAst
  import opened CoreBuilder

  /** The Python values a core program can produce: ints, bools, strings, and
      the lists and string-keyed dicts an oracle definition returns. */
  datatype Value =
    | VInt(i: int)
    | VBool(b: bool)
    | VStr(s: string)
    | VList(items: seq<Value>)
    | VDict(entries: seq<Entry>)

  datatype Entry = Entry(key: string, val: Value)

  /** Why an evaluation stopped: a raised exception, or the fuel ran out. */
  datatype Stop = Raise(error: CoreError) | OutOfFuel

  type Bindings = map<string, Value>

  /** One entry of `llm_defs`; only its `model` field is read. */
  datatype LlmDef = LlmDef(model: Option<string>)

  type Defs = map<string, LlmDef>

  function TypeErr<T>(msg: string): Result<T, Stop> {
    Err(Raise(TypeError(msg)))
  }

  /** Python truthiness. */
  predicate Truthy(v: Value) {
    match v
    case VInt(n) => n != 0
    case VBool(b) => b
    case VStr(s) => s != ""
    case VList(xs) => xs != []
    case VDict(es) => es != []
  }

  /** `bool` is a subclass of `int`. */
  predicate IsNum(v: Value) { v.VInt? || v.VBool? }

  function AsInt(v: Value): int
    requires IsNum(v)
  {
    if v.VInt? then v.i else if v.b then 1 else 0
  }

  // ---------------------------------------------------------------------------
  // BUILTINS

  /** Python's `//` on ints: the quotient rounded toward minus infinity.
      `//` is not among the builtins; this only states `FloorDivMod`. */
  function FloorDiv(a: int, b: int): int
    requires b != 0
  {
    if b < 0 && a % b != 0 then a / b - 1 else a / b
  }

  /** Python's `%` on ints: the remainder takes the sign of the divisor. */
  function FloorMod(a: int, b: int): (r: int)
    requires b != 0
    ensures b > 0 ==> 0 <= r < b
    ensures b < 0 ==> b < r <= 0
  {
    var m := a % b;
    if b < 0 && m != 0 then m + b else m
  }

  /** Python's division identity `a == (a // b) * b + a % b`. */
  lemma FloorDivMod(a: int, b: int)
    requires b != 0
    ensures a == FloorDiv(a, b) * b + FloorMod(a, b)
  {
    var q, m := a / b, a % b;
    assert a == q * b + m;
    if b < 0 && m != 0 {
      assert (q - 1) * b + (m + b) == q * b + m;
    }
  }

  /** `s * n` on a sequence: `n` copies, none when `n <= 0`. */
  function Repeat<T>(s: seq<T>, n: int): (r: seq<T>)
    ensures |r| == if n <= 0 then 0 else n * |s|
    decreases n
  {
    if n <= 0 then [] else s + Repeat(s, n - 1)
  }

  function Add(a: Value, b: Value): Result<Value, Stop> {
    if IsNum(a) && IsNum(b) then Ok(VInt(AsInt(a) + AsInt(b)))
    else if a.VStr? && b.VStr? then Ok(VStr(a.s + b.s))
    else if a.VList? && b.VList? then Ok(VList(a.items + b.items))
    else TypeErr("unsupported operand type(s) for +")
  }

  function Sub(a: Value, b: Value): Result<Value, Stop> {
    if IsNum(a) && IsNum(b) then Ok(VInt(AsInt(a) - AsInt(b)))
    else TypeErr("unsupported operand type(s) for -")
  }

  function Mul(a: Value, b: Value): Result<Value, Stop> {
    if IsNum(a) && IsNum(b) then Ok(VInt(AsInt(a) * AsInt(b)))
    else if a.VStr? && IsNum(b) then Ok(VStr(Repeat(a.s, AsInt(b))))
    else if IsNum(a) && b.VStr? then Ok(VStr(Repeat(b.s, AsInt(a))))
    else if a.VList? && IsNum(b) then Ok(VList(Repeat(a.items, AsInt(b))))
    else if IsNum(a) && b.VList? then Ok(VList(Repeat(b.items, AsInt(a))))
    else TypeErr("unsupported operand type(s) for *")
  }

  /** True division yields a float, which the model does not carry. */
  function Div(a: Value, b: Value): Result<Value, Stop> {
    if IsNum(a) && IsNum(b) then
      if AsInt(b) == 0 then Err(Raise(ZeroDivisionError)) else Err(Raise(Unmodelled("float division result")))
    else TypeErr("unsupported operand type(s) for /")
  }

  function Mod(a: Value, b: Value): Result<Value, Stop> {
    if IsNum(a) && IsNum(b) then
      if AsInt(b) == 0 then Err(Raise(ZeroDivisionError)) else Ok(VInt(FloorMod(AsInt(a), AsInt(b))))
    else if a.VStr? then Err(Raise(Unmodelled("printf-style string formatting")))
    else TypeErr("unsupported operand type(s) for %")
  }

  /** `a == b`; equality of two lists or of two dicts is outside the model. */
  function Equal(a: Value, b: Value): Result<bool, Stop> {
    if IsNum(a) && IsNum(b) then Ok(AsInt(a) == AsInt(b))
    else if a.VStr? && b.VStr? then Ok(a.s == b.s)
    else if (a.VList? && b.VList?) || (a.VDict? && b.VDict?) then Err(Raise(Unmodelled("container equality")))
    else Ok(false)
  }

  datatype Order = LessThan | AtMost | GreaterThan | AtLeast

  /** `<`, `<=`, `>`, `>=`: numbers numerically, strings by code point. */
  function Compare(o: Order, a: Value, b: Value): Result<Value, Stop> {
    if IsNum(a) && IsNum(b) then
      var x, y := AsInt(a), AsInt(b);
      Ok(VBool(match o case LessThan => x < y case AtMost => x <= y case GreaterThan => x > y case AtLeast => x >= y))
    else if a.VStr? && b.VStr? then
      var x, y := a.s, b.s;
      Ok(VBool(match o
        case LessThan => Less(x, y)
        case AtMost => LessEq(x, y)
        case GreaterThan => Less(y, x)
        case AtLeast => LessEq(y, x)))
    else if a.VList? && b.VList? then Err(Raise(Unmodelled("list ordering")))
    else TypeErr("'<' not supported between these operand types")
  }

  /** The keys of `BUILTINS`. */
  const BuiltinNames: set<string> :=
    {"add", "sub", "mul", "div", "mod", "eq", "ne", "gt", "ge", "lt", "le", "land", "lor", "lnot"}

  /** The parameter names of each builtin lambda. */
  function Params(name: string): seq<string> {
    if name == "lnot" then ["a"] else ["a", "b"]
  }

  /** The body of each builtin lambda, on its bound parameters. */
  function ApplyBuiltin(name: string, vs: seq<Value>): Result<Value, Stop>
    requires name in BuiltinNames && |vs| == |Params(name)|
  {
    if name == "lnot" then Ok(VBool(!Truthy(vs[0])))
    else
      var a, b := vs[0], vs[1];
      match name
      case "add" => Add(a, b)
      case "sub" => Sub(a, b)
      case "mul" => Mul(a, b)
      case "div" => Div(a, b)
      case "mod" => Mod(a, b)
      case "eq" => var e :- Equal(a, b); Ok(VBool(e))
      case "ne" => var e :- Equal(a, b); Ok(VBool(!e))
      case "gt" => Compare(GreaterThan, a, b)
      case "ge" => Compare(AtLeast, a, b)
      case "lt" => Compare(LessThan, a, b)
      case "le" => Compare(AtMost, a, b)
      case "land" => Ok(if Truthy(a) then b else a)
      case _ => Ok(if Truthy(a) then a else b)
  }

  function LookupEntry(es: seq<Entry>, key: string): Option<Value> {
    if es == [] then None else if es[0].key == key then Some(es[0].val) else LookupEntry(es[1..], key)
  }

  /** The values of keyword-only parameters `ps`, each taken from `kwargs`. */
  function Fill(ps: seq<string>, kwargs: seq<Entry>): (r: Result<seq<Value>, Stop>)
    ensures r.Ok? ==> |r.value| == |ps| && forall k :: 0 <= k < |ps| ==> LookupEntry(kwargs, ps[k]) == Some(r.value[k])
    ensures r.Err? <==> exists k :: 0 <= k < |ps| && LookupEntry(kwargs, ps[k]).None?
    ensures r.Err? ==> r.error.Raise? && r.error.error.TypeError?
  {
    if ps == [] then Ok([])
    else
      match LookupEntry(kwargs, ps[0])
      case None => TypeErr("missing required argument")
      case Some(v) =>
        var rest :- Fill(ps[1..], kwargs);
        assert forall k :: 1 <= k < |ps| ==> ps[k] == ps[1..][k - 1];
        Ok([v] + rest)
  }

  /** Every keyword names one of the parameters `open`. */
  predicate KeywordsOpen(kwargs: seq<Entry>, open: seq<string>) {
    forall j :: 0 <= j < |kwargs| ==> kwargs[j].key in open
  }

  /** Python's binding of a call's arguments to a function's parameters:
      positionals fill the first parameters, keywords must name the others. */
  function Bind(params: seq<string>, args: seq<Value>, kwargs: seq<Entry>): (r: Result<seq<Value>, Stop>)
    ensures r.Ok? ==> |r.value| == |params| && |args| <= |params|
    ensures r.Ok? ==> forall k :: 0 <= k < |args| ==> r.value[k] == args[k]
    ensures r.Ok? ==> forall k :: |args| <= k < |params| ==> LookupEntry(kwargs, params[k]) == Some(r.value[k])
    ensures r.Ok? ==> KeywordsOpen(kwargs, params[|args|..])
    ensures r.Err? ==> r.error.Raise? && r.error.error.TypeError?
  {
    if |args| > |params| then TypeErr("too many positional arguments")
    else if !KeywordsOpen(kwargs, params[|args|..]) then
      TypeErr("unexpected keyword argument, or multiple values for an argument")
    else
      var rest :- Fill(params[|args|..], kwargs);
      FilledTail(params, args, kwargs, rest);
      Ok(args + rest)
  }

  /** The open parameters filled from the keywords line up after the
      positional values. */
  lemma FilledTail(params: seq<string>, args: seq<Value>, kwargs: seq<Entry>, rest: seq<Value>)
    requires |args| <= |params| && |rest| == |params| - |args|
    requires forall k :: 0 <= k < |rest| ==> LookupEntry(kwargs, params[|args|..][k]) == Some(rest[k])
    ensures forall k :: 0 <= k < |args| ==> (args + rest)[k] == args[k]
    ensures forall k :: |args| <= k < |params| ==> LookupEntry(kwargs, params[k]) == Some((args + rest)[k])
  {
    forall k | |args| <= k < |params|
      ensures LookupEntry(kwargs, params[k]) == Some((args + rest)[k])
    {
      assert params[k] == params[|args|..][k - |args|];
    }
  }

  /** `call_llm`: the placeholder reply describing the call. `name` is
      whatever the caller passed to look the definition up: a string here,
      a list index in the optimisation passes. */
  function CallLlm(def: LlmDef, name: Value, args: seq<Value>, kwargs: seq<Entry>): Value {
    VDict([
      Entry("model", VStr(if def.model.Some? then def.model.value else "unknown")),
      Entry("name", name),
      Entry("args", VList(args)),
      Entry("kwargs", VDict(kwargs))])
  }

  /** The dispatch of `eval_call` once the arguments are values: the exact name
      is looked up in `BUILTINS`, then in `llm_defs`. */
  function Dispatch(defs: Defs, name: string, args: seq<Value>, kwargs: seq<Entry>): (r: Result<Value, Stop>)
    ensures name !in BuiltinNames && name !in defs ==> r == Err(Raise(ValueError("Unknown function: " + name)))
    ensures name !in BuiltinNames && name in defs ==> r == Ok(CallLlm(defs[name], VStr(name), args, kwargs))
  {
    if name in BuiltinNames then
      var vs :- Bind(Params(name), args, kwargs);
      ApplyBuiltin(name, vs)
    else if name in defs then Ok(CallLlm(defs[name], VStr(name), args, kwargs))
    else Err(Raise(ValueError("Unknown function: " + name)))
  }

  // ---------------------------------------------------------------------------
  // range

  /** `x` is still inside `range(..., end, step)`. */
  predicate InRange(x: int, end: int, step: int) {
    if step > 0 then x < end else x > end
  }

  function Distance(x: int, end: int, step: int): nat {
    if !InRange(x, end, step) then 0 else if step > 0 then end - x else x - end
  }

  /** `list(range(start, end, step))` for a non-zero step. */
  function RangeSeq(start: int, end: int, step: int): (r: seq<int>)
    requires step != 0
    ensures forall k :: 0 <= k < |r| ==> r[k] == start + k * step && InRange(r[k], end, step)
    ensures !InRange(start + |r| * step, end, step)
    decreases Distance(start, end, step)
  {
    if !InRange(start, end, step) then []
    else
      var rest := RangeSeq(start + step, end, step);
      var r := [start] + rest;
      assert forall k :: 0 <= k < |r| ==> r[k] == start + k * step && InRange(r[k], end, step) by {
        forall k | 1 <= k < |r|
          ensures r[k] == start + k * step
        {
          assert r[k] == rest[k - 1];
          StepShift(start, step, k);
        }
      }
      StepShift(start, step, |r|);
      r
  }

  lemma StepShift(start: int, step: int, k: int)
    ensures start + step + (k - 1) * step == start + k * step
  {
  }

  // ---------------------------------------------------------------------------
  // Evaluation

  /** `eval_expr`. */
  function Eval(defs: Defs, node: Node, env: Bindings, fuel: nat): Result<Value, Stop>
    decreases fuel, node, 2, 0
  {
    match node
    case Number(n) => Ok(VInt(n))
    case String(s) => Ok(VStr(s))
    case Var(x) => if x in env then Ok(env[x]) else Err(Raise(KeyError(x)))
    case Call(name, args, kwargs) =>
      var vs :- EvalArgs(defs, args, env, fuel);
      var kvs :- EvalKwargs(defs, kwargs, env, fuel);
      Dispatch(defs, name, vs, kvs)
    case ForLoop(_, _, _, _, _) => EvalForSpec(defs, node, env, fuel)
    case WhileLoop(_, init, _) =>
      var acc :- Eval(defs, init, env, fuel);
      WhileIter(defs, node, env, acc, fuel)
    case Cond(test, thenBranch, elseBranch) =>
      var t :- Eval(defs, test, env, fuel);
      if Truthy(t) then Eval(defs, thenBranch, env, fuel) else Eval(defs, elseBranch, env, fuel)
    case _ => TypeErr("Unsupported node")
  }

  /** The positional arguments, left to right; the first failure ends it. */
  function EvalArgs(defs: Defs, args: seq<Node>, env: Bindings, fuel: nat): (r: Result<seq<Value>, Stop>)
    ensures r.Ok? ==> |r.value| == |args|
    decreases fuel, args, 1, 0
  {
    if args == [] then Ok([])
    else
      var v :- Eval(defs, args[0], env, fuel);
      var vs :- EvalArgs(defs, args[1..], env, fuel);
      Ok([v] + vs)
  }

  /** The keyword arguments in insertion order, after the positional ones. */
  function EvalKwargs(defs: Defs, kwargs: seq<KwArg>, env: Bindings, fuel: nat): (r: Result<seq<Entry>, Stop>)
    ensures r.Ok? ==> |r.value| == |kwargs| && forall k :: 0 <= k < |kwargs| ==> r.value[k].key == kwargs[k].key
    decreases fuel, kwargs, 1, 0
  {
    if kwargs == [] then Ok([])
    else
      var v :- Eval(defs, kwargs[0].value, env, fuel);
      var vs :- EvalKwargs(defs, kwargs[1..], env, fuel);
      Ok([Entry(kwargs[0].key, v)] + vs)
  }

  /** `eval_for`: bounds, step and init are evaluated once, in that order. */
  function EvalForSpec(defs: Defs, node: Node, env: Bindings, fuel: nat): Result<Value, Stop>
    requires node.ForLoop?
    decreases fuel, node, 1, 0
  {
    var s :- Eval(defs, node.start, env, fuel);
    var e :- Eval(defs, node.end, env, fuel);
    var st :- Eval(defs, node.step, env, fuel);
    var acc :- Eval(defs, node.init, env, fuel);
    if !(IsNum(s) && IsNum(e) && IsNum(st)) then TypeErr("range() arguments must be integers")
    else if AsInt(st) == 0 then Err(Raise(ValueError("range() arg 3 must not be zero")))
    else ForIter(defs, node, env, AsInt(s), AsInt(e), AsInt(st), acc, fuel)
  }

  /** The iterations of a for loop from `i` on: each body runs in a copy of the
      outer environment extended with `i` and `acc`. */
  function ForIter(defs: Defs, node: Node, env: Bindings, i: int, end: int, step: int, acc: Value, fuel: nat)
    : Result<Value, Stop>
    requires node.ForLoop? && step != 0
    decreases fuel, node, 0, Distance(i, end, step)
  {
    if !InRange(i, end, step) then Ok(acc)
    else
      var next :- Eval(defs, node.body, env["i" := VInt(i)]["acc" := acc], fuel);
      ForIter(defs, node, env, i + step, end, step, next, fuel)
  }

  /** The iterations of a while loop: the test sees the current `acc`; each
      iteration whose test holds spends one unit of fuel. */
  function WhileIter(defs: Defs, node: Node, env: Bindings, acc: Value, fuel: nat): Result<Value, Stop>
    requires node.WhileLoop?
    decreases fuel, node, 1, 0
  {
    var inner := env["acc" := acc];
    var t :- Eval(defs, node.test, inner, fuel);
    if !Truthy(t) then Ok(acc)
    else if fuel == 0 then Err(OutOfFuel)
    else
      var next :- Eval(defs, node.body, inner, fuel);
      WhileIter(defs, node, env, next, fuel - 1)
  }

  /** The environment after `run` executed `stmts` from `env`, and whether an
      exception stopped it; the bindings made before the failure stay. */
  function RunSpec(defs: Defs, stmts: seq<Node>, env: Bindings, fuel: nat): (Bindings, Result<(), Stop>) {
    if stmts == [] then (env, Ok(()))
    else
      match stmts[0]
      case LetStmt(name, e) =>
        (match Eval(defs, e, env, fuel)
         case Ok(v) => RunSpec(defs, stmts[1..], env[name := v], fuel)
         case Err(s) => (env, Err(s)))
      case _ =>
        (match Eval(defs, stmts[0], env, fuel)
         case Ok(_) => RunSpec(defs, stmts[1..], env, fuel)
         case Err(s) => (env, Err(s)))
  }

  // ---------------------------------------------------------------------------
  // The Executor

  /** `r` with `xs` put in front of its values. */
  function Prepend<T>(xs: seq<T>, r: Result<seq<T>, Stop>): Result<seq<T>, Stop> {
    match r
    case Ok(ys) => Ok(xs + ys)
    case Err(e) => Err(e)
  }

  lemma PrependNothing<T>(r: Result<seq<T>, Stop>)
    ensures Prepend([], r) == r
  {
    if r.Ok? {
      assert [] + r.value == r.value;
    }
  }

  /** One step of the keyword-argument loop: the `k`-th value is evaluated
      first, and its error or its entry is what the rest of the loop sees. */
  lemma KwargStep(defs: Defs, kw: seq<KwArg>, k: nat, env: Bindings, fuel: nat, done: seq<Entry>)
    requires k < |kw|
    ensures Eval(defs, kw[k].value, env, fuel).Err? ==>
      Prepend(done, EvalKwargs(defs, kw[k..], env, fuel)) == Err(Eval(defs, kw[k].value, env, fuel).error)
    ensures Eval(defs, kw[k].value, env, fuel).Ok? ==>
      Prepend(done, EvalKwargs(defs, kw[k..], env, fuel))
        == Prepend(done + [Entry(kw[k].key, Eval(defs, kw[k].value, env, fuel).value)], EvalKwargs(defs, kw[k + 1..], env, fuel))
  {
    assert kw[k..][0] == kw[k] && kw[k..][1..] == kw[k + 1..];
    var rest := EvalKwargs(defs, kw[k + 1..], env, fuel);
    if Eval(defs, kw[k].value, env, fuel).Ok? && rest.Ok? {
      var entry := Entry(kw[k].key, Eval(defs, kw[k].value, env, fuel).value);
      assert done + ([entry] + rest.value) == (done + [entry]) + rest.value;
    }
  }

  /** The dict a program runs in; `run` updates it in place. */
  class Env {
    var vars: Bindings

    constructor ()
      ensures vars == map[]
    {
      vars := map[];
    }
  }

  class Executor {
    const llmDefs: Defs

    /** `self.llm_defs = llm_defs or {}`. */
    constructor (llmDefs: Option<Defs>)
      ensures this.llmDefs == if llmDefs.Some? then llmDefs.value else map[]
    {
      this.llmDefs := if llmDefs.Some? then llmDefs.value else map[];
    }

    /** `run`: statements in order; a `let` binds its value, anything else is
        evaluated for its effect. A missing or empty env is replaced by a new
        dict, a non-empty one is updated in place and returned. */
    method Run(program: seq<Node>, env: Env?, fuel: nat) returns (out: Env, status: Result<(), Stop>)
      modifies env
      ensures env == null || old(env.vars) == map[] ==> fresh(out)
      ensures env != null && old(env.vars) != map[] ==> out == env
      ensures env != null && old(env.vars) == map[] ==> env.vars == map[]
      ensures (out.vars, status) == RunSpec(llmDefs, program, if env == null then map[] else old(env.vars), fuel)
    {
      if env == null || env.vars == map[] {
        out := new Env();
      } else {
        out := env;
      }
      ghost var start := out.vars;
      for k := 0 to |program|
        invariant fresh(out) || out == env
        invariant env != null && old(env.vars) == map[] ==> env.vars == map[]
        invariant RunSpec(llmDefs, program, start, fuel) == RunSpec(llmDefs, program[k..], out.vars, fuel)
      {
        assert program[k..][1..] == program[k + 1..];
        var stmt := program[k];
        if stmt.LetStmt? {
          var v := EvalExpr(stmt.expr, out.vars, fuel);
          if v.Err? {
            return out, Err(v.error);
          }
          out.vars := out.vars[stmt.name := v.value];
        } else {
          var v := EvalExpr(stmt, out.vars, fuel);
          if v.Err? {
            return out, Err(v.error);
          }
        }
      }
      status := Ok(());
    }

    /** `eval_expr`. */
    method EvalExpr(node: Node, env: Bindings, fuel: nat) returns (r: Result<Value, Stop>)
      ensures r == Eval(llmDefs, node, env, fuel)
      decreases fuel, node, 2, 0
    {
      match node
      case Number(n) => r := Ok(VInt(n));
      case String(s) => r := Ok(VStr(s));
      case Var(x) => r := if x in env then Ok(env[x]) else Err(Raise(KeyError(x)));
      case Call(_, _, _) => r := EvalCall(node, env, fuel);
      case ForLoop(_, _, _, _, _) => r := EvalFor(node, env, fuel);
      case WhileLoop(_, _, _) => r := EvalWhile(node, env, fuel);
      case Cond(test, thenBranch, elseBranch) =>
        var t :- EvalExpr(test, env, fuel);
        if Truthy(t) {
          r := EvalExpr(thenBranch, env, fuel);
        } else {
          r := EvalExpr(elseBranch, env, fuel);
        }
      case _ => r := TypeErr("Unsupported node");
    }

    /** `eval_call`: every argument is evaluated before the dispatch. */
    method EvalCall(node: Node, env: Bindings, fuel: nat) returns (r: Result<Value, Stop>)
      requires node.Call?
      ensures r == Eval(llmDefs, node, env, fuel)
      decreases fuel, node, 1, 0
    {
      var args :- EvalArgList(node.args, env, fuel);
      var kwargs :- EvalKwargList(node.kwargs, env, fuel);
      r := Dispatch(llmDefs, node.name, args, kwargs);
    }

    /** `[self.eval_expr(a, env) for a in node.args]`. */
    method EvalArgList(nodes: seq<Node>, env: Bindings, fuel: nat) returns (r: Result<seq<Value>, Stop>)
      ensures r == EvalArgs(llmDefs, nodes, env, fuel)
      decreases fuel, nodes, 0, 0
    {
      var args: seq<Value> := [];
      assert nodes[0..] == nodes;
      PrependNothing(EvalArgs(llmDefs, nodes, env, fuel));
      for k := 0 to |nodes|
        invariant EvalArgs(llmDefs, nodes, env, fuel) == Prepend(args, EvalArgs(llmDefs, nodes[k..], env, fuel))
      {
        assert nodes[k..][1..] == nodes[k + 1..];
        var v := EvalExpr(nodes[k], env, fuel);
        if v.Err? {
          return Err(v.error);
        }
        var rest := EvalArgs(llmDefs, nodes[k + 1..], env, fuel);
        assert rest.Ok? ==> args + ([v.value] + rest.value) == (args + [v.value]) + rest.value;
        args := args + [v.value];
      }
      assert nodes[|nodes|..] == [] && args + [] == args;
      r := Ok(args);
    }

    /** `{k: self.eval_expr(v, env) for k, v in node.kwargs.items()}`. */
    method EvalKwargList(kw: seq<KwArg>, env: Bindings, fuel: nat) returns (r: Result<seq<Entry>, Stop>)
      ensures r == EvalKwargs(llmDefs, kw, env, fuel)
      decreases fuel, kw, 0, 0
    {
      var kwargs: seq<Entry> := [];
      assert kw[0..] == kw;
      PrependNothing(EvalKwargs(llmDefs, kw, env, fuel));
      for k := 0 to |kw|
        invariant EvalKwargs(llmDefs, kw, env, fuel) == Prepend(kwargs, EvalKwargs(llmDefs, kw[k..], env, fuel))
      {
        var v := EvalExpr(kw[k].value, env, fuel);
        KwargStep(llmDefs, kw, k, env, fuel, kwargs);
        if v.Err? {
          return Err(v.error);
        }
        kwargs := kwargs + [Entry(kw[k].key, v.value)];
      }
      assert kw[|kw|..] == [] && kwargs + [] == kwargs;
      r := Ok(kwargs);
    }

    /** `eval_for`. */
    method EvalFor(node: Node, env: Bindings, fuel: nat) returns (r: Result<Value, Stop>)
      requires node.ForLoop?
      ensures r == Eval(llmDefs, node, env, fuel)
      decreases fuel, node, 1, 0
    {
      var s :- EvalExpr(node.start, env, fuel);
      var e :- EvalExpr(node.end, env, fuel);
      var st :- EvalExpr(node.step, env, fuel);
      var acc :- EvalExpr(node.init, env, fuel);
      if !(IsNum(s) && IsNum(e) && IsNum(st)) {
        return TypeErr("range() arguments must be integers");
      }
      if AsInt(st) == 0 {
        return Err(Raise(ValueError("range() arg 3 must not be zero")));
      }
      var i, end, step := AsInt(s), AsInt(e), AsInt(st);
      while InRange(i, end, step)
        invariant EvalForSpec(llmDefs, node, env, fuel) == ForIter(llmDefs, node, env, i, end, step, acc, fuel)
        decreases Distance(i, end, step)
      {
        var inner := env["i" := VInt(i)]["acc" := acc];
        var next := EvalExpr(node.body, inner, fuel);
        if next.Err? {
          return Err(next.error);
        }
        acc := next.value;
        i := i + step;
      }
      r := Ok(acc);
    }

    /** `eval_while`. */
    method EvalWhile(node: Node, env: Bindings, fuel: nat) returns (r: Result<Value, Stop>)
      requires node.WhileLoop?
      ensures r == Eval(llmDefs, node, env, fuel)
      decreases fuel, node, 1, 0
    {
      var acc :- EvalExpr(node.init, env, fuel);
      var f: nat := fuel;
      while true
        invariant f <= fuel
        invariant Eval(llmDefs, node, env, fuel) == WhileIter(llmDefs, node, env, acc, f)
        decreases f
      {
        var inner := env["acc" := acc];
        var t := EvalExpr(node.test, inner, f);
        if t.Err? {
          return Err(t.error);
        }
        if !Truthy(t.value) {
          return Ok(acc);
        }
        if f == 0 {
          return Err(OutOfFuel);
        }
        var next := EvalExpr(node.body, inner, f);
        if next.Err? {
          return Err(next.error);
        }
        acc := next.value;
        f := f - 1;
      }
    }
  }

  // ---------------------------------------------------------------------------
  // Properties of evaluation

  lemma EvalSingle(defs: Defs, b: Node, env: Bindings, fuel: nat)
    ensures EvalArgs(defs, [b], env, fuel) ==
      match Eval(defs, b, env, fuel) case Ok(v) => Ok([v]) case Err(e) => Err(e)
  {
    assert [b][0] == b && [b][1..] == [];
    assert EvalArgs(defs, [], env, fuel) == Ok([]);
    var v := Eval(defs, b, env, fuel);
    if v.Ok? {
      assert [v.value] + [] == [v.value];
    }
  }

  lemma EvalPair(defs: Defs, a: Node, b: Node, env: Bindings, fuel: nat)
    requires Eval(defs, a, env, fuel).Ok? && Eval(defs, b, env, fuel).Ok?
    ensures EvalArgs(defs, [a, b], env, fuel) == Ok([Eval(defs, a, env, fuel).value, Eval(defs, b, env, fuel).value])
  {
    assert [a, b][0] == a && [a, b][1..] == [b];
    EvalSingle(defs, b, env, fuel);
    var va, vb := Eval(defs, a, env, fuel).value, Eval(defs, b, env, fuel).value;
    assert [va] + [vb] == [va, vb];
  }

  /** A two-argument builtin called positionally gets exactly its arguments. */
  lemma BindTwoPositional(x: Value, y: Value)
    ensures Bind(["a", "b"], [x, y], []) == Ok([x, y])
  {
    var ps := ["a", "b"];
    assert ps[|[x, y]|..] == [];
    assert Fill([], []) == Ok([]);
    assert [x, y] + [] == [x, y];
  }

  /** A call with two positional arguments that evaluate. */
  lemma EvalCallTwo(defs: Defs, name: string, a: Node, b: Node, env: Bindings, fuel: nat)
    requires Eval(defs, a, env, fuel).Ok? && Eval(defs, b, env, fuel).Ok?
    ensures Eval(defs, Call(name, [a, b], []), env, fuel) ==
      Dispatch(defs, name, [Eval(defs, a, env, fuel).value, Eval(defs, b, env, fuel).value], [])
  {
    EvalPair(defs, a, b, env, fuel);
    assert EvalKwargs(defs, [], env, fuel) == Ok([]);
  }

  /** `cond` evaluates its test first and then only the branch it picks. */
  lemma EvalCondPicks(defs: Defs, test: Node, a: Node, b: Node, env: Bindings, fuel: nat)
    requires Eval(defs, test, env, fuel).Ok?
    ensures Eval(defs, Cond(test, a, b), env, fuel) ==
      if Truthy(Eval(defs, test, env, fuel).value) then Eval(defs, a, env, fuel) else Eval(defs, b, env, fuel)
  {
  }

  /** A two-parameter builtin called with two positional values. */
  lemma DispatchTwo(defs: Defs, name: string, x: Value, y: Value)
    requires name in BuiltinNames && name != "lnot"
    ensures Dispatch(defs, name, [x, y], []) == ApplyBuiltin(name, [x, y])
  {
    BindTwoPositional(x, y);
  }

  /** The integer builtins the examples below use. */
  lemma IntBuiltins(a: int, b: int)
    ensures ApplyBuiltin("add", [VInt(a), VInt(b)]) == Ok(VInt(a + b))
    ensures ApplyBuiltin("lt", [VInt(a), VInt(b)]) == Ok(VBool(a < b))
    ensures ApplyBuiltin("ge", [VInt(a), VInt(b)]) == Ok(VBool(a >= b))
  {
  }

  /** A name that starts with `op.` is never a key of `BUILTINS`. */
  lemma OpPrefixNotBuiltin(name: string)
    requires |name| >= 3 && name[..3] == "op."
    ensures name !in BuiltinNames
  {
    assert name[0] == 'o' && name[1] == 'p';
  }

  /** Every call the parser builds for an operator, a negation, an index or a
      slice is named `op.*`, so unless an oracle definition carries that exact
      name, evaluating it raises `ValueError("Unknown function")` once its
      arguments are evaluated. */
  lemma OpCallIsUnknown(defs: Defs, name: string, args: seq<Node>, env: Bindings, fuel: nat)
    requires |name| >= 3 && name[..3] == "op." && name !in defs
    requires EvalArgs(defs, args, env, fuel).Ok?
    ensures Eval(defs, Call(name, args, []), env, fuel) == Err(Raise(ValueError("Unknown function: " + name)))
  {
    OpPrefixNotBuiltin(name);
    assert EvalKwargs(defs, [], env, fuel) == Ok([]);
  }

  /** In particular `7 + 6` as the parser builds it does not evaluate. */
  lemma ParsedAdditionIsUnknown(defs: Defs, env: Bindings, fuel: nat)
    requires "op.add" !in defs
    ensures Eval(defs, BuildInfix(InfixOp.Add, Number(7), Number(6)), env, fuel) == Err(Raise(ValueError("Unknown function: op.add")))
  {
    assert BuildInfix(InfixOp.Add, Number(7), Number(6)) == Call("op.add", [Number(7), Number(6)], []) by {
      assert "op." + "add" == "op.add";
    }
    assert "Unknown function: " + "op.add" == "Unknown function: op.add";
    EvalPair(defs, Number(7), Number(6), env, fuel);
    OpCallIsUnknown(defs, "op.add", [Number(7), Number(6)], env, fuel);
  }

  /** `Cond` evaluates its test, then only the branch the test selects: the
      other branch does not affect the result, even when it would raise. */
  lemma CondEvaluatesOneBranch(defs: Defs, test: Node, thenBranch: Node, elseBranch: Node, other: Node,
                               env: Bindings, fuel: nat)
    requires Eval(defs, test, env, fuel).Ok?
    ensures var t := Eval(defs, test, env, fuel).value;
      Eval(defs, Cond(test, thenBranch, elseBranch), env, fuel) ==
      if Truthy(t) then Eval(defs, thenBranch, env, fuel) else Eval(defs, elseBranch, env, fuel)
    ensures Truthy(Eval(defs, test, env, fuel).value) ==>
      Eval(defs, Cond(test, thenBranch, elseBranch), env, fuel) == Eval(defs, Cond(test, thenBranch, other), env, fuel)
    ensures !Truthy(Eval(defs, test, env, fuel).value) ==>
      Eval(defs, Cond(test, thenBranch, elseBranch), env, fuel) == Eval(defs, Cond(test, other, elseBranch), env, fuel)
  {
  }

  /** `land` is a function call, not Python's short-circuit `and`: its second
      operand is evaluated even when the first is false, and its failure is
      the call's failure. */
  lemma LandEvaluatesBoth(defs: Defs, a: Node, b: Node, env: Bindings, fuel: nat)
    requires Eval(defs, a, env, fuel).Ok? && !Truthy(Eval(defs, a, env, fuel).value)
    requires Eval(defs, b, env, fuel).Err?
    ensures Eval(defs, Call("land", [a, b], []), env, fuel) == Err(Eval(defs, b, env, fuel).error)
  {
    assert [a, b][0] == a && [a, b][1..] == [b];
    EvalSingle(defs, b, env, fuel);
  }

  /** With both operands evaluated, `land`/`lor` return one of them as Python's
      `and`/`or` would. */
  lemma LandLorValues(defs: Defs, a: Node, b: Node, env: Bindings, fuel: nat)
    requires Eval(defs, a, env, fuel).Ok? && Eval(defs, b, env, fuel).Ok?
    ensures var x, y := Eval(defs, a, env, fuel).value, Eval(defs, b, env, fuel).value;
      Eval(defs, Call("land", [a, b], []), env, fuel) == Ok(if Truthy(x) then y else x) &&
      Eval(defs, Call("lor", [a, b], []), env, fuel) == Ok(if Truthy(x) then x else y)
  {
    var x, y := Eval(defs, a, env, fuel).value, Eval(defs, b, env, fuel).value;
    assert Eval(defs, Call("land", [a, b], []), env, fuel) == Ok(if Truthy(x) then y else x) by {
      EvalCallTwo(defs, "land", a, b, env, fuel);
      DispatchTwo(defs, "land", x, y);
      ApplyLandLor(x, y);
    }
    assert Eval(defs, Call("lor", [a, b], []), env, fuel) == Ok(if Truthy(x) then x else y) by {
      EvalCallTwo(defs, "lor", a, b, env, fuel);
      DispatchTwo(defs, "lor", x, y);
      ApplyLandLor(x, y);
    }
  }

  lemma ApplyLandLor(x: Value, y: Value)
    ensures ApplyBuiltin("land", [x, y]) == Ok(if Truthy(x) then y else x)
    ensures ApplyBuiltin("lor", [x, y]) == Ok(if Truthy(x) then x else y)
  {
  }

  lemma FillOne(key: string, kw: seq<Entry>, v: Value)
    requires LookupEntry(kw, key) == Some(v)
    ensures Fill([key], kw) == Ok([v])
  {
    assert [key][0] == key && [key][1..] == [];
    assert Fill([], kw) == Ok([]);
    assert [v] + [] == [v];
  }

  /** Keywords bind builtin parameters by name, in any order, after the
      positional ones. */
  lemma BindByKeyword(x: Value, y: Value)
    ensures Bind(["a", "b"], [], [Entry("b", y), Entry("a", x)]) == Ok([x, y])
    ensures Bind(["a", "b"], [x], [Entry("b", y)]) == Ok([x, y])
  {
    BindKeywordsOnly(x, y);
    BindAfterPositional(x, y);
  }

  /** With every keyword naming a parameter still open, binding is filling
      the open parameters from the keywords. */
  lemma BindFills(params: seq<string>, args: seq<Value>, kwargs: seq<Entry>, rest: seq<Value>)
    requires |args| <= |params| && KeywordsOpen(kwargs, params[|args|..])
    requires Fill(params[|args|..], kwargs) == Ok(rest)
    ensures Bind(params, args, kwargs) == Ok(args + rest)
  {
  }

  lemma BindKeywordsOnly(x: Value, y: Value)
    ensures Bind(["a", "b"], [], [Entry("b", y), Entry("a", x)]) == Ok([x, y])
  {
    var ps := ["a", "b"];
    var kw2 := [Entry("b", y), Entry("a", x)];
    assert ps[0..] == ps && ps[1..] == ["b"];
    assert LookupEntry(kw2, "a") == Some(x) by {
      assert kw2[1..] == [Entry("a", x)];
    }
    FillOne("b", kw2, y);
    assert Fill(ps, kw2) == Ok([x, y]) by {
      assert [x] + [y] == [x, y];
    }
    assert forall j :: 0 <= j < |kw2| ==> kw2[j].key in ps[0..];
    BindFills(ps, [], kw2, [x, y]);
    assert [] + [x, y] == [x, y];
  }

  lemma BindAfterPositional(x: Value, y: Value)
    ensures Bind(["a", "b"], [x], [Entry("b", y)]) == Ok([x, y])
  {
    var ps, kw := ["a", "b"], [Entry("b", y)];
    assert [x] + [y] == [x, y];
    assert ps[|[x]|..] == ["b"];
    assert kw[0].key in ps[|[x]|..];
    FillOne("b", kw, y);
    BindFills(ps, [x], kw, [y]);
  }

  /** A parameter given both positionally and by keyword, too many
      arguments, or a missing one is a `TypeError`. */
  lemma BindRejects(x: Value, y: Value)
    ensures Bind(["a", "b"], [x], [Entry("a", y)]).Err?
    ensures Bind(["a", "b"], [x, y, x], []).Err?
    ensures Bind(["a", "b"], [x], []).Err?
  {
    var ps := ["a", "b"];
    assert ps[1..] == ["b"];
    assert [Entry("a", y)][0].key !in ps[1..];
    assert Fill(["b"], []).Err? by {
      assert LookupEntry([], ["b"][0]).None?;
    }
  }

  /** The body of each for-loop iteration applied to the values of `xs` in
      turn, starting from `acc`. */
  function FoldBody(defs: Defs, node: Node, env: Bindings, xs: seq<int>, acc: Value, fuel: nat): Result<Value, Stop>
    requires node.ForLoop?
    decreases |xs|
  {
    if xs == [] then Ok(acc)
    else
      var next :- Eval(defs, node.body, env["i" := VInt(xs[0])]["acc" := acc], fuel);
      FoldBody(defs, node, env, xs[1..], next, fuel)
  }

  lemma {:induction false} ForIterFoldsRange(defs: Defs, node: Node, env: Bindings, i: int, end: int, step: int,
                                             acc: Value, fuel: nat)
    requires node.ForLoop? && step != 0
    ensures ForIter(defs, node, env, i, end, step, acc, fuel) == FoldBody(defs, node, env, RangeSeq(i, end, step), acc, fuel)
    decreases Distance(i, end, step)
  {
    if InRange(i, end, step) {
      var xs := RangeSeq(i, end, step);
      assert xs[0] == i && xs[1..] == RangeSeq(i + step, end, step);
      var next := Eval(defs, node.body, env["i" := VInt(i)]["acc" := acc], fuel);
      if next.Ok? {
        ForIterFoldsRange(defs, node, env, i + step, end, step, next.value, fuel);
      }
    }
  }

  /** A for loop folds its body over `range(start, end, step)`, starting from
      `init`, each iteration in the outer environment plus `i` and `acc`. An
      empty range returns `init`, a zero step raises `ValueError`. */
  lemma ForLoopFoldsRange(defs: Defs, node: Node, env: Bindings, fuel: nat)
    requires node.ForLoop?
    requires Eval(defs, node.start, env, fuel).Ok? && IsNum(Eval(defs, node.start, env, fuel).value)
    requires Eval(defs, node.end, env, fuel).Ok? && IsNum(Eval(defs, node.end, env, fuel).value)
    requires Eval(defs, node.step, env, fuel).Ok? && IsNum(Eval(defs, node.step, env, fuel).value)
    requires Eval(defs, node.init, env, fuel).Ok?
    ensures var s, e, st := AsInt(Eval(defs, node.start, env, fuel).value), AsInt(Eval(defs, node.end, env, fuel).value),
                           AsInt(Eval(defs, node.step, env, fuel).value);
      var init := Eval(defs, node.init, env, fuel).value;
      Eval(defs, node, env, fuel) ==
        if st == 0 then Err(Raise(ValueError("range() arg 3 must not be zero")))
        else FoldBody(defs, node, env, RangeSeq(s, e, st), init, fuel)
  {
    var st := AsInt(Eval(defs, node.step, env, fuel).value);
    if st != 0 {
      ForIterFoldsRange(defs, node, env, AsInt(Eval(defs, node.start, env, fuel).value),
        AsInt(Eval(defs, node.end, env, fuel).value), st, Eval(defs, node.init, env, fuel).value, fuel);
    }
  }

  function SumOf(xs: seq<int>): int {
    if xs == [] then 0 else xs[0] + SumOf(xs[1..])
  }

  /** The accumulating body `add(acc, i)`. */
  const AddAccI: Node := Call("add", [Var("acc"), Var("i")], [])

  lemma AddAccIStep(defs: Defs, env: Bindings, x: int, a: int, fuel: nat)
    ensures Eval(defs, AddAccI, env["i" := VInt(x)]["acc" := VInt(a)], fuel) == Ok(VInt(a + x))
  {
    var inner := env["i" := VInt(x)]["acc" := VInt(a)];
    assert Eval(defs, Var("acc"), inner, fuel) == Ok(VInt(a));
    assert Eval(defs, Var("i"), inner, fuel) == Ok(VInt(x));
    EvalCallTwo(defs, "add", Var("acc"), Var("i"), inner, fuel);
    DispatchTwo(defs, "add", VInt(a), VInt(x));
    IntBuiltins(a, x);
  }

  /** The body of a for loop adds the loop variable onto `acc`. */
  ghost predicate AddsI(defs: Defs, node: Node, env: Bindings, fuel: nat)
    requires node.ForLoop?
  {
    forall x: int, a: int :: Eval(defs, node.body, LoopEnv(env, x, a), fuel) == Ok(VInt(a + x))
  }

  /** The bindings a for loop's body sees. */
  function LoopEnv(env: Bindings, x: int, a: int): (inner: Bindings)
    ensures inner == env["i" := VInt(x)]["acc" := VInt(a)]
  {
    env["i" := VInt(x)]["acc" := VInt(a)]
  }

  /** A loop whose body adds `i` onto `acc`, such as `add(acc, i)`, adds up
      the range onto `init`. */
  lemma {:induction false} FoldAddAccISums(defs: Defs, node: Node, env: Bindings, xs: seq<int>, a: int, fuel: nat)
    requires node.ForLoop? && AddsI(defs, node, env, fuel)
    ensures FoldBody(defs, node, env, xs, VInt(a), fuel) == Ok(VInt(a + SumOf(xs)))
    decreases |xs|
  {
    if xs == [] {
      assert SumOf(xs) == 0;
    } else {
      var x := xs[0];
      assert Eval(defs, node.body, LoopEnv(env, x, a), fuel) == Ok(VInt(a + x));
      FoldStep(defs, node, env, xs, VInt(a), VInt(a + x), fuel);
      FoldAddAccISums(defs, node, env, xs[1..], a + x, fuel);
      assert SumOf(xs) == x + SumOf(xs[1..]);
    }
  }

  lemma FoldStep(defs: Defs, node: Node, env: Bindings, xs: seq<int>, acc: Value, next: Value, fuel: nat)
    requires node.ForLoop? && xs != []
    requires Eval(defs, node.body, env["i" := VInt(xs[0])]["acc" := acc], fuel) == Ok(next)
    ensures FoldBody(defs, node, env, xs, acc, fuel) == FoldBody(defs, node, env, xs[1..], next, fuel)
  {
  }

  lemma RangeOneToFour()
    ensures RangeSeq(1, 4, 1) == [1, 2, 3]
  {
    assert RangeSeq(4, 4, 1) == [];
    assert RangeSeq(3, 4, 1) == [3];
    assert RangeSeq(2, 4, 1) == [2, 3];
  }

  /** A for loop over integer literals folds its body over the range. */
  lemma ForLoopLiterals(defs: Defs, s: int, e: int, st: int, init: int, body: Node, env: Bindings, fuel: nat)
    requires st != 0
    ensures var node := ForLoop(Number(s), Number(e), Number(st), Number(init), body);
      Eval(defs, node, env, fuel) == FoldBody(defs, node, env, RangeSeq(s, e, st), VInt(init), fuel)
  {
    ForLoopFoldsRange(defs, ForLoop(Number(s), Number(e), Number(st), Number(init), body), env, fuel);
  }

  /** `for(range(1, 4), init=0) -> add(acc, i)` is 6. */
  lemma ForSumExample(defs: Defs, env: Bindings, fuel: nat)
    ensures Eval(defs, ForLoop(Number(1), Number(4), Number(1), Number(0), AddAccI), env, fuel) == Ok(VInt(6))
  {
    var node := ForLoop(Number(1), Number(4), Number(1), Number(0), AddAccI);
    ForLoopLiterals(defs, 1, 4, 1, 0, AddAccI, env, fuel);
    SumOneToThree();
    ForSumOver(defs, node, env, RangeSeq(1, 4, 1), fuel);
  }

  lemma ForSumOver(defs: Defs, node: Node, env: Bindings, xs: seq<int>, fuel: nat)
    requires node.ForLoop? && node.body == AddAccI && SumOf(xs) == 6
    requires Eval(defs, node, env, fuel) == FoldBody(defs, node, env, xs, VInt(0), fuel)
    ensures Eval(defs, node, env, fuel) == Ok(VInt(6))
  {
    AddAccIAdds(defs, node, env, fuel);
    FoldAddAccISums(defs, node, env, xs, 0, fuel);
  }

  lemma AddAccIAdds(defs: Defs, node: Node, env: Bindings, fuel: nat)
    requires node.ForLoop? && node.body == AddAccI
    ensures AddsI(defs, node, env, fuel)
  {
    forall x: int, a: int
      ensures Eval(defs, node.body, LoopEnv(env, x, a), fuel) == Ok(VInt(a + x))
    {
      AddAccIStep(defs, env, x, a, fuel);
    }
  }

  lemma SumOneToThree()
    ensures SumOf(RangeSeq(1, 4, 1)) == 6
  {
    RangeOneToFour();
    assert [1, 2, 3][1..] == [2, 3] && [2, 3][1..] == [3] && [3][1..] == [];
  }

  const CountTest: Node := Call("lt", [Var("acc"), Number(3)], [])
  const CountBody: Node := Call("add", [Var("acc"), Number(1)], [])

  lemma CountStep(defs: Defs, env: Bindings, a: int, f: nat)
    ensures Eval(defs, CountTest, env["acc" := VInt(a)], f) == Ok(VBool(a < 3))
    ensures Eval(defs, CountBody, env["acc" := VInt(a)], f) == Ok(VInt(a + 1))
  {
    var inner := env["acc" := VInt(a)];
    assert Eval(defs, Var("acc"), inner, f) == Ok(VInt(a));
    EvalCallTwo(defs, "lt", Var("acc"), Number(3), inner, f);
    DispatchTwo(defs, "lt", VInt(a), VInt(3));
    EvalCallTwo(defs, "add", Var("acc"), Number(1), inner, f);
    DispatchTwo(defs, "add", VInt(a), VInt(1));
    IntBuiltins(a, 3);
    IntBuiltins(a, 1);
  }

  /** One step of a while loop: a false test returns `acc`; a true test
      with no fuel left is out of fuel; otherwise the body's value becomes the
      next `acc` and one unit of fuel is spent. */
  lemma WhileStep(defs: Defs, node: Node, env: Bindings, acc: Value, fuel: nat, t: bool)
    requires node.WhileLoop?
    requires Eval(defs, node.test, env["acc" := acc], fuel) == Ok(VBool(t))
    ensures !t ==> WhileIter(defs, node, env, acc, fuel) == Ok(acc)
    ensures t && fuel == 0 ==> WhileIter(defs, node, env, acc, fuel) == Err(OutOfFuel)
    ensures t && fuel > 0 ==>
      var next := Eval(defs, node.body, env["acc" := acc], fuel);
      WhileIter(defs, node, env, acc, fuel) == if next.Ok? then WhileIter(defs, node, env, next.value, fuel - 1) else Err(next.error)
  {
  }

  const CountLoop: Node := WhileLoop(CountTest, Number(0), CountBody)

  /** The test of a while loop is `acc < 3` and its body adds one to `acc`. */
  ghost predicate CountsUp(defs: Defs, node: Node, env: Bindings)
    requires node.WhileLoop?
  {
    forall a: int, g: nat ::
      Eval(defs, node.test, AccEnv(env, a), g) == Ok(VBool(a < 3)) &&
      Eval(defs, node.body, AccEnv(env, a), g) == Ok(VInt(a + 1))
  }

  /** The bindings a while loop's test and body see. */
  function AccEnv(env: Bindings, a: int): (inner: Bindings)
    ensures inner == env["acc" := VInt(a)]
  {
    env["acc" := VInt(a)]
  }

  /** From `acc == a`, a loop that counts up to 3 needs `3 - a` units of fuel. */
  lemma {:induction false} WhileCountFrom(defs: Defs, node: Node, env: Bindings, a: int, f: nat)
    requires node.WhileLoop? && CountsUp(defs, node, env) && a <= 3
    ensures WhileIter(defs, node, env, VInt(a), f) == if f >= 3 - a then Ok(VInt(3)) else Err(OutOfFuel)
    decreases 3 - a
  {
    assert Eval(defs, node.test, AccEnv(env, a), f) == Ok(VBool(a < 3));
    WhileStep(defs, node, env, VInt(a), f, a < 3);
    if a < 3 && f > 0 {
      assert Eval(defs, node.body, AccEnv(env, a), f) == Ok(VInt(a + 1));
      WhileCountFrom(defs, node, env, a + 1, f - 1);
    }
  }

  /** `while(test=lt(acc, 3), init=0) -> add(acc, 1)` is 3 given fuel for its
      three iterations, and runs out of fuel with less. */
  lemma WhileCountExample(defs: Defs, env: Bindings, fuel: nat)
    ensures Eval(defs, CountLoop, env, fuel) == if fuel >= 3 then Ok(VInt(3)) else Err(OutOfFuel)
  {
    forall a: int, g: nat
      ensures Eval(defs, CountLoop.test, AccEnv(env, a), g) == Ok(VBool(a < 3))
      ensures Eval(defs, CountLoop.body, AccEnv(env, a), g) == Ok(VInt(a + 1))
    {
      CountStep(defs, env, a, g);
    }
    WhileCountFrom(defs, CountLoop, env, 0, fuel);
  }

  // ---------------------------------------------------------------------------
  // Properties of run

  /** A `let` at the end of a program binds its name to its value, replacing
      any earlier binding, and leaves every other name as it was. */
  lemma {:induction false} RunLetAtEnd(defs: Defs, stmts: seq<Node>, x: string, e: Node, env: Bindings, fuel: nat)
    requires RunSpec(defs, stmts, env, fuel).1.Ok?
    requires Eval(defs, e, RunSpec(defs, stmts, env, fuel).0, fuel).Ok?
    ensures var before := RunSpec(defs, stmts, env, fuel).0;
      RunSpec(defs, stmts + [LetStmt(x, e)], env, fuel) == (before[x := Eval(defs, e, before, fuel).value], Ok(()))
  {
    if stmts == [] {
      assert stmts + [LetStmt(x, e)] == [LetStmt(x, e)];
    } else {
      assert (stmts + [LetStmt(x, e)])[1..] == stmts[1..] + [LetStmt(x, e)];
      var s := stmts[0];
      if s.LetStmt? {
        var v := Eval(defs, s.expr, env, fuel);
        RunLetAtEnd(defs, stmts[1..], x, e, env[s.name := v.value], fuel);
      } else {
        RunLetAtEnd(defs, stmts[1..], x, e, env, fuel);
      }
    }
  }

  /** Statements other than `let` never change the environment, whether they
      succeed or raise. */
  lemma {:induction false} RunWithoutLetKeepsEnv(defs: Defs, stmts: seq<Node>, env: Bindings, fuel: nat)
    requires forall k :: 0 <= k < |stmts| ==> !stmts[k].LetStmt?
    ensures RunSpec(defs, stmts, env, fuel).0 == env
  {
    if stmts != [] {
      RunWithoutLetKeepsEnv(defs, stmts[1..], env, fuel);
    }
  }

  /** The program of the runtime test, as the parser builds it, stops at its
      first statement: `7 + 6` becomes a call to `op.add`, which is unknown. */
  lemma RuntimeTestAsParsed(fuel: nat)
    ensures RunSpec(map[], [LetStmt("x", BuildInfix(InfixOp.Add, Number(7), Number(6)))], map[], fuel)
      == (map[], Err(Raise(ValueError("Unknown function: op.add"))))
  {
    ParsedAdditionIsUnknown(map[], map[], fuel);
  }

  /** A `let` whose value evaluates binds it and the run goes on. */
  lemma RunLetStep(defs: Defs, x: string, e: Node, rest: seq<Node>, env: Bindings, fuel: nat)
    requires Eval(defs, e, env, fuel).Ok?
    ensures RunSpec(defs, [LetStmt(x, e)] + rest, env, fuel) == RunSpec(defs, rest, env[x := Eval(defs, e, env, fuel).value], fuel)
  {
    assert ([LetStmt(x, e)] + rest)[0] == LetStmt(x, e);
    assert ([LetStmt(x, e)] + rest)[1..] == rest;
  }

  const TestTag: Node := Cond(Call("ge", [Var("x"), Number(10)], []), String("ok"), String("ng"))
  const TestTotal: Node := ForLoop(Number(1), Number(4), Number(1), Number(0), AddAccI)

  lemma TagIsOk(defs: Defs, env: Bindings)
    requires "x" in env && env["x"] == VInt(13)
    ensures Eval(defs, TestTag, env, 3) == Ok(VStr("ok"))
  {
    var test := Call("ge", [Var("x"), Number(10)], []);
    assert Eval(defs, test, env, 3) == Ok(VBool(true)) by {
      assert Eval(defs, Var("x"), env, 3) == Ok(VInt(13));
      EvalCallTwo(defs, "ge", Var("x"), Number(10), env, 3);
      DispatchTwo(defs, "ge", VInt(13), VInt(10));
      IntBuiltins(13, 10);
    }
    EvalCondPicks(defs, test, String("ok"), String("ng"), env, 3);
    assert Eval(defs, String("ok"), env, 3) == Ok(VStr("ok"));
  }

  lemma RunLastTwo(defs: Defs, env: Bindings)
    ensures RunSpec(defs, [LetStmt("total", TestTotal), LetStmt("steps", CountLoop)], env, 3)
      == (env["total" := VInt(6)]["steps" := VInt(3)], Ok(()))
  {
    var s2, s3 := LetStmt("total", TestTotal), LetStmt("steps", CountLoop);
    assert [s2, s3] == [s2] + [s3];
    assert [s3] == [s3] + [];
    ForSumExample(defs, env, 3);
    RunLetStep(defs, "total", TestTotal, [s3], env, 3);
    WhileCountExample(defs, env["total" := VInt(6)], 3);
    RunLetStep(defs, "steps", CountLoop, [], env["total" := VInt(6)], 3);
  }

  /** The same program written with the exact builtin names computes what the
      test expects. */
  lemma RuntimeTestWithBuiltinNames()
    ensures RunSpec(map[], [
        LetStmt("x", Call("add", [Number(7), Number(6)], [])),
        LetStmt("tag", TestTag),
        LetStmt("total", TestTotal),
        LetStmt("steps", CountLoop)
      ], map[], 3)
      == (map["x" := VInt(13), "tag" := VStr("ok"), "total" := VInt(6), "steps" := VInt(3)], Ok(()))
  {
    var d: Defs := map[];
    var e0: Bindings := map[];
    var s0 := LetStmt("x", Call("add", [Number(7), Number(6)], []));
    var s1, s2, s3 := LetStmt("tag", TestTag), LetStmt("total", TestTotal), LetStmt("steps", CountLoop);
    assert [s0, s1, s2, s3] == [s0] + [s1, s2, s3];
    assert [s1, s2, s3] == [s1] + [s2, s3];

    EvalCallTwo(d, "add", Number(7), Number(6), e0, 3);
    DispatchTwo(d, "add", VInt(7), VInt(6));
    IntBuiltins(7, 6);
    RunLetStep(d, "x", s0.expr, [s1, s2, s3], e0, 3);
    var e1 := e0["x" := VInt(13)];
    TagIsOk(d, e1);
    RunLetStep(d, "tag", TestTag, [s2, s3], e1, 3);
    RunLastTwo(d, e1["tag" := VStr("ok")]);
  }
}
