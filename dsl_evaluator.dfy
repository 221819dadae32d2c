/** aissembly_dsl/evaluator.py: the tree-walking evaluator of desugared
    programs. The program's env is a dict the statements update in place:
    `let` binds a value, `mut` binds a `Box`, and `set` replaces a box's
    contents. Expressions only read it. A lambda evaluates to a closure that
    copies the env it was made in each time it is called. */
module DslEvaluator {
  import opened Basics
  import opened PyStr
  import opened DslAst
  import opened CoreIr

  type Env = map<string, Slot>

  /** `initial_env`: the `core_ir` combinators, `range`, the three
      constants and the `loop_for`/`loop_while` aliases. */
  function InitialEnv(): (env: Env)
    ensures env.Keys == {"cond", "loop", "op", "ctrl", "range", "true", "false", "none", "loop_for", "loop_while"}
    ensures forall k | k in env :: env[k].Plain?
  {
    map[
      "cond" := Plain(Builtin(CondFn)),
      "loop" := Plain(Namespace(LoopNs)),
      "op" := Plain(Namespace(OpNs)),
      "ctrl" := Plain(Namespace(CtrlNs)),
      "range" := Plain(Builtin(RangeFn)),
      "true" := Plain(BoolV(true)),
      "false" := Plain(BoolV(false)),
      "none" := Plain(NoneV),
      "loop_for" := Plain(Builtin(ForFn)),
      "loop_while" := Plain(Builtin(WhileFn))
    ]
  }

  // ---------------------------------------------------------------------------
  // Name resolution

  /** The value an env entry stands for: a box reads the store. */
  function SlotValue(slot: Slot, boxes: seq<Value>): Result<Value, DslError> {
    match slot
    case Plain(v) => Ok(v)
    case BoxRef(id) => if id < |boxes| then Ok(boxes[id]) else Err(Unmodelled("box outside the store"))
  }

  /** Names a dict has as attributes, which shadow its keys. */
  const DictAttributes: set<string> := {
    "clear", "copy", "fromkeys", "get", "items", "keys", "pop", "popitem", "setdefault", "update", "values"
  }

  /** One step of `getattr(obj, p) if hasattr(obj, p) else obj[p]`. */
  function Attr(obj: Value, part: string): Result<Value, DslError> {
    if |part| >= 2 && part[0] == '_' && part[1] == '_' then Err(Unmodelled("dunder attribute"))
    else
      match obj
      case Namespace(LoopNs) =>
        if part == "for" then Ok(Builtin(ForFn))
        else if part == "while" then Ok(Builtin(WhileFn))
        else if part in DictAttributes then Err(Unmodelled("dict method"))
        else Err(KeyError(part))
      case Namespace(OpNs) =>
        if part in OpMembers then Ok(Builtin(OpFn(OpMembers[part])))
        else if part == "mro" then Err(Unmodelled("class method"))
        else Err(TypeError("'type' object is not subscriptable"))
      case Namespace(CtrlNs) =>
        if part == "break_" then Ok(Builtin(BreakFn))
        else if part == "continue_" then Ok(Builtin(ContinueFn))
        else if part == "mro" then Err(Unmodelled("class method"))
        else Err(TypeError("'type' object is not subscriptable"))
      case _ => Err(Unmodelled("attribute of a value"))
  }

  /** The loop of `resolve` from part `i` on. */
  function FollowFrom(obj: Value, parts: seq<string>, i: nat): Result<Value, DslError>
    requires i <= |parts|
    decreases |parts| - i
  {
    if i == |parts| then Ok(obj)
    else
      var next :- Attr(obj, parts[i]);
      FollowFrom(next, parts, i + 1)
  }

  /** `resolve(name, env)`: the first dotted part is looked up in the env
      (a box is unwrapped), the others are followed as attributes or keys. */
  function ResolveName(name: string, env: Env, boxes: seq<Value>): Result<Value, DslError> {
    var parts := SplitOn(name, ".");
    if parts[0] !in env then Err(KeyError(parts[0]))
    else
      var obj :- SlotValue(env[parts[0]], boxes);
      FollowFrom(obj, parts, 1)
  }

  method Resolve(name: string, env: Env, boxes: seq<Value>) returns (r: Result<Value, DslError>)
    ensures r == ResolveName(name, env, boxes)
  {
    var parts := SplitOn(name, ".");
    if parts[0] !in env {
      return Err(KeyError(parts[0]));
    }
    var obj :- SlotValue(env[parts[0]], boxes);
    for i := 1 to |parts|
      invariant ResolveName(name, env, boxes) == FollowFrom(obj, parts, i)
    {
      obj :- Attr(obj, parts[i]);
    }
    return Ok(obj);
  }

  // ---------------------------------------------------------------------------
  // Expressions

  /** The env a scope stands for, given the program's env now. */
  function EnvOf(scope: Scope, globals: Env): Env {
    match scope
    case Global => globals
    case Local(env) => env
  }

  /** `for p, a in zip(params, args): local[p] = a`. */
  function Bind(env: Env, params: seq<string>, args: seq<Value>): Env
    decreases |params|
  {
    if params == [] || args == [] then env
    else Bind(env[params[0] := Plain(args[0])], params[1..], args[1..])
  }

  /** `evaluate` on an expression, in `scope`; `globals` is the program's env
      at this moment, which closures made at top level copy when called. */
  function Eval(e: Node, scope: Scope, globals: Env, boxes: seq<Value>, fuel: nat): Outcome
    decreases fuel, 1, e
  {
    match e
    case Number(n) => Ok(IntV(n))
    case String(s) => Ok(StrV(s))
    case Name(id) => Lift(ResolveName(id, EnvOf(scope, globals), boxes))
    case Call(f, args) =>
      var fv :- Eval(f, scope, globals, boxes, fuel);
      var avs :- EvalArgs(args, scope, globals, boxes, fuel);
      Apply(fv, avs, globals, boxes, fuel)
    case Lambda(params, body) => Ok(Closure(params, body, scope))
    case ExprStmt(x) => Eval(x, scope, globals, boxes, fuel)
    case Program(_) => Raise(Unmodelled("statement inside an expression"))
    case Let(_, _, _) => Raise(Unmodelled("statement inside an expression"))
    case Set(_, _) => Raise(Unmodelled("statement inside an expression"))
    case _ => Raise(TypeError("unsupported node"))
  }

  /** `[evaluate(a, env) for a in node.args]`, left to right. */
  function EvalArgs(args: seq<Node>, scope: Scope, globals: Env, boxes: seq<Value>, fuel: nat): (r: Result<seq<Value>, Exc>)
    ensures r.Ok? ==> |r.value| == |args|
    decreases fuel, 1, args
  {
    if args == [] then Ok([])
    else
      var v :- Eval(args[0], scope, globals, boxes, fuel);
      var rest :- EvalArgs(args[1..], scope, globals, boxes, fuel);
      Ok([v] + rest)
  }

  /** The `i`-th argument, `None` when absent (a defaulted parameter). */
  function ArgOr(args: seq<Value>, i: nat): Value {
    if i < |args| then args[i] else NoneV
  }

  /** `iter(v)`: a range gives its integers, a string its characters, and
      the `loop` dict its keys. */
  function Items(v: Value): Result<seq<Value>, DslError> {
    match v
    case RangeV(start, stop, step) =>
      if step == 0 then Err(Unmodelled("range with step 0")) else Ok(RangeItems(start, stop, step))
    case StrV(s) => Ok(seq(|s|, k requires 0 <= k < |s| => StrV([s[k]])))
    case Namespace(LoopNs) => Ok([StrV("for"), StrV("while")])
    case _ => Err(TypeError("object is not iterable"))
  }

  /** `range(stop)`, `range(start, stop)`, `range(start, stop, step)`. */
  function MakeRange(args: seq<Value>): (r: Result<Value, DslError>)
    ensures r.Ok? ==> r.value.RangeV? && r.value.step != 0
  {
    if |args| == 0 || |args| > 3 then Err(TypeError("range expected 1 to 3 arguments"))
    else if exists k | 0 <= k < |args| :: AsInt(args[k]).None? then Err(TypeError("range() needs integers"))
    else if |args| == 1 then Ok(RangeV(0, AsInt(args[0]).value, 1))
    else if |args| == 2 then Ok(RangeV(AsInt(args[0]).value, AsInt(args[1]).value, 1))
    else if AsInt(args[2]).value == 0 then Err(ValueError("range() arg 3 must not be zero"))
    else Ok(RangeV(AsInt(args[0]).value, AsInt(args[1]).value, AsInt(args[2]).value))
  }

  /** `func(*args)`. Every call spends one unit of `fuel`. A closure copies
      its env (the program's env as it is now, for a top-level lambda),
      binds the parameters it has arguments for, and evaluates its body. */
  function Apply(f: Value, args: seq<Value>, globals: Env, boxes: seq<Value>, fuel: nat): Outcome
    decreases fuel, 0
  {
    if fuel == 0 then Raise(OutOfFuel)
    else
      var f1 := fuel - 1;
      match f
      case Closure(params, body, scope) =>
        Eval(body, Local(Bind(EnvOf(scope, globals), params, args)), globals, boxes, f1)
      case Builtin(CondFn) =>
        if |args| < 3 || |args| > 4 then Raise(TypeError("cond() takes 3 or 4 arguments"))
        else
          var test, yes, no := args[0], args[1], args[2];
          Cond(() => Apply(test, [], globals, boxes, f1),
               () => Apply(yes, [], globals, boxes, f1),
               () => Apply(no, [], globals, boxes, f1))
      case Builtin(ForFn) =>
        if |args| < 3 || |args| > 6 then Raise(TypeError("loop_for() takes 3 to 6 arguments"))
        else
          var body := args[1];
          var items := Items(args[0]);
          if items.Err? then Raise(items.error)
          else
            ForFrom(items.value, (i, a) => Apply(body, [i, a], globals, boxes, f1), args[2], 0, ArgOr(args, 3), ArgOr(args, 4))
      case Builtin(WhileFn) =>
        if |args| < 3 || |args| > 6 then Raise(TypeError("loop_while() takes 3 to 6 arguments"))
        else
          var test, body := args[0], args[1];
          WhileFrom(k => Apply(test, [], globals, boxes, f1), a => Apply(body, [a], globals, boxes, f1),
                    args[2], 0, ArgOr(args, 3), ArgOr(args, 4), f1)
      case Builtin(RangeFn) => Lift(MakeRange(args))
      case Builtin(OpFn(op)) => OpCall(op, args)
      case Builtin(BreakFn) => BreakCall(args)
      case Builtin(ContinueFn) => ContinueCall(args)
      case Namespace(LoopNs) => Raise(TypeError("'dict' object is not callable"))
      case Namespace(_) => Raise(Unmodelled("instantiating a class"))
      case _ => Raise(TypeError("object is not callable"))
  }

  // ---------------------------------------------------------------------------
  // Statements

  /** The program's env and the contents of every box made so far. */
  datatype State = State(env: Env, boxes: seq<Value>)

  /** `evaluate` on a statement at top level: the outcome and the state it
      leaves. An error leaves the state as it was when it was raised. */
  function Exec(n: Node, st: State, fuel: nat): (Outcome, State)
    decreases n, 1
  {
    match n
    case Program(stmts) => ExecFrom(stmts, 0, st, NoneV, fuel)
    case Let(name, e, mutable) =>
      var r := Eval(e, Global, st.env, st.boxes, fuel);
      if r.Err? then (r, st)
      else if mutable then (r, State(st.env[name := BoxRef(|st.boxes|)], st.boxes + [r.value]))
      else (r, State(st.env[name := Plain(r.value)], st.boxes))
    case Set(name, e) =>
      if name !in st.env then (Raise(KeyError(name)), st)
      else
        (match st.env[name]
         case Plain(_) => (Raise(RuntimeError("cannot set immutable variable")), st)
         case BoxRef(id) =>
           var r := Eval(e, Global, st.env, st.boxes, fuel);
           if r.Err? then (r, st)
           else if id < |st.boxes| then (r, State(st.env, st.boxes[id := r.value]))
           else (Raise(Unmodelled("box outside the store")), st))
    case _ => (Eval(n, Global, st.env, st.boxes, fuel), st)
  }

  /** The statement loop of a `Program` from statement `i` on; `result` is
      the value of the statement before. */
  function ExecFrom(stmts: seq<Node>, i: nat, st: State, result: Value, fuel: nat): (Outcome, State)
    requires i <= |stmts|
    decreases stmts, 0, |stmts| - i
  {
    if i == |stmts| then (Ok(result), st)
    else
      var (r, st') := Exec(stmts[i], st, fuel);
      if r.Err? then (r, st')
      else ExecFrom(stmts, i + 1, st', r.value, fuel)
  }

  /** The evaluator's state: the program's env dict and the boxes. */
  class Interpreter {
    var env: Env
    var boxes: seq<Value>

    /** `evaluate(node)` with no env starts from `initial_env()`. */
    constructor()
      ensures env == InitialEnv() && boxes == []
    {
      env := InitialEnv();
      boxes := [];
    }

    function Current(): State
      reads this
    {
      State(env, boxes)
    }

    /** `evaluate(node, env)` for a top-level node. */
    method Evaluate(n: Node, fuel: nat) returns (r: Outcome)
      modifies this
      ensures (r, Current()) == Exec(n, old(Current()), fuel)
      decreases n
    {
      match n
      case Program(stmts) =>
        var result := NoneV;
        for i := 0 to |stmts|
          invariant ExecFrom(stmts, 0, old(Current()), NoneV, fuel) == ExecFrom(stmts, i, Current(), result, fuel)
        {
          var s := Evaluate(stmts[i], fuel);
          if s.Err? {
            return s;
          }
          result := s.value;
        }
        return Ok(result);
      case Let(name, e, mutable) =>
        r := Eval(e, Global, env, boxes, fuel);
        if r.Err? {
          return;
        }
        if mutable {
          env := env[name := BoxRef(|boxes|)];
          boxes := boxes + [r.value];
        } else {
          env := env[name := Plain(r.value)];
        }
      case Set(name, e) =>
        if name !in env {
          return Raise(KeyError(name));
        }
        match env[name] {
          case Plain(_) =>
            return Raise(RuntimeError("cannot set immutable variable"));
          case BoxRef(id) =>
            r := Eval(e, Global, env, boxes, fuel);
            if r.Err? {
              return;
            }
            if id >= |boxes| {
              return Raise(Unmodelled("box outside the store"));
            }
            boxes := boxes[id := r.value];
        }
      case _ =>
        r := Eval(n, Global, env, boxes, fuel);
    }
  }

  /** `evaluate(program)`: a fresh interpreter runs the program. */
  method Run(program: Node, fuel: nat) returns (r: Outcome)
    ensures r == Exec(program, State(InitialEnv(), []), fuel).0
  {
    var interp := new Interpreter();
    r := interp.Evaluate(program, fuel);
  }
  // ---------------------------------------------------------------------------
  // Properties

  /** A name without a dot is a plain lookup: a box is read from the store
      and a missing name raises `KeyError`. */
  lemma PlainNameLookup(x: string, env: Env, boxes: seq<Value>)
    requires !Contains(x, ".")
    ensures x in env ==> ResolveName(x, env, boxes) == SlotValue(env[x], boxes)
    ensures x !in env ==> ResolveName(x, env, boxes) == Err(KeyError(x))
  {
    assert SplitOn(x, ".") == [x];
  }

  /** A name with no `.` character contains no dot. */
  lemma DotFree(s: string)
    requires forall i | 0 <= i < |s| :: s[i] != '.'
    ensures !Contains(s, ".")
  {
    forall k: nat | k + 1 <= |s|
      ensures !OccursAt(s, ".", k)
    {
      assert s[k..k + 1][0] == s[k];
    }
  }

  /** `a.b` with dot-free `a` and `b` splits into `[a, b]`. */
  lemma DottedName(a: string, b: string)
    requires !Contains(a, ".") && !Contains(b, ".")
    ensures SplitOn(a + "." + b, ".") == [a, b]
  {
    var s := a + "." + b;
    assert OccursAt(s, ".", |a|) by { assert s[|a|..|a| + 1] == "."; }
    var f := FindFrom(s, ".", 0);
    assert f.Some?;
    if f.value < |a| {
      assert s[f.value..f.value + 1] == a[f.value..f.value + 1];
      assert OccursAt(a, ".", f.value);
      assert false;
    }
    assert f.value == |a|;
    assert s[..|a|] == a && s[|a| + 1..] == b;
  }

  /** `a.b` reads `a` from the env and then its attribute or key `b`. */
  lemma DottedLookup(a: string, b: string, env: Env, boxes: seq<Value>)
    requires !Contains(a, ".") && !Contains(b, ".")
    requires a in env && SlotValue(env[a], boxes).Ok?
    ensures ResolveName(a + "." + b, env, boxes) == Attr(SlotValue(env[a], boxes).value, b)
  {
    DottedName(a, b);
    var parts := [a, b];
    var obj := SlotValue(env[a], boxes).value;
    var next := Attr(obj, b);
    if next.Ok? {
      assert FollowFrom(next.value, parts, 2) == Ok(next.value);
    }
    assert FollowFrom(obj, parts, 1) == next;
  }

  lemma ResolveLoopFor(boxes: seq<Value>)
    ensures ResolveName("loop.for", InitialEnv(), boxes) == Ok(Builtin(ForFn))
  {
    KnownParts();
    DottedLookup("loop", "for", InitialEnv(), boxes);
  }

  lemma ResolveLoopWhile(boxes: seq<Value>)
    ensures ResolveName("loop.while", InitialEnv(), boxes) == Ok(Builtin(WhileFn))
  {
    KnownParts();
    DottedLookup("loop", "while", InitialEnv(), boxes);
  }

  lemma ResolveOpAdd(boxes: seq<Value>)
    ensures ResolveName("op.add", InitialEnv(), boxes) == Ok(Builtin(OpFn(AddOp)))
  {
    KnownParts();
    DottedLookup("op", "add", InitialEnv(), boxes);
  }

  /** The pieces of `loop.for`, `loop.while` and `op.add`: dot-free parts,
      the env entries of the namespaces and the members they hold. */
  lemma KnownParts()
    ensures !Contains("loop", ".") && !Contains("op", ".")
    ensures !Contains("for", ".") && !Contains("while", ".") && !Contains("add", ".")
    ensures "loop" + "." + "for" == "loop.for" && "loop" + "." + "while" == "loop.while" && "op" + "." + "add" == "op.add"
    ensures "loop" in InitialEnv() && InitialEnv()["loop"] == Plain(Namespace(LoopNs))
    ensures "op" in InitialEnv() && InitialEnv()["op"] == Plain(Namespace(OpNs))
    ensures Attr(Namespace(LoopNs), "for") == Ok(Builtin(ForFn))
    ensures Attr(Namespace(LoopNs), "while") == Ok(Builtin(WhileFn))
    ensures Attr(Namespace(OpNs), "add") == Ok(Builtin(OpFn(AddOp)))
  {
    DotFree("loop");
    DotFree("op");
    DotFree("for");
    DotFree("while");
    DotFree("add");
    KnownNames();
    KnownEntries();
    KnownMembers();
  }

  lemma KnownNames()
    ensures "loop" + "." + "for" == "loop.for" && "loop" + "." + "while" == "loop.while" && "op" + "." + "add" == "op.add"
  {
  }

  lemma KnownEntries()
    ensures "true" in InitialEnv() && InitialEnv()["true"] == Plain(BoolV(true))
    ensures "loop" in InitialEnv() && InitialEnv()["loop"] == Plain(Namespace(LoopNs))
    ensures "op" in InitialEnv() && InitialEnv()["op"] == Plain(Namespace(OpNs))
  {
  }

  lemma KnownMembers()
    ensures Attr(Namespace(LoopNs), "for") == Ok(Builtin(ForFn))
    ensures Attr(Namespace(LoopNs), "while") == Ok(Builtin(WhileFn))
    ensures Attr(Namespace(OpNs), "add") == Ok(Builtin(OpFn(AddOp)))
  {
  }

  lemma ResolveAliases(boxes: seq<Value>)
    ensures ResolveName("loop_for", InitialEnv(), boxes) == Ok(Builtin(ForFn))
    ensures ResolveName("loop_while", InitialEnv(), boxes) == Ok(Builtin(WhileFn))
  {
    DotFree("loop_for");
    DotFree("loop_while");
    PlainNameLookup("loop_for", InitialEnv(), boxes);
    PlainNameLookup("loop_while", InitialEnv(), boxes);
  }

  /** `loop.for` and the alias `loop_for` are the same function, and so are
      `loop.while` and `loop_while`; `op.add` is the `add` member of `op`. */
  lemma AliasesAgree(boxes: seq<Value>)
    ensures ResolveName("loop.for", InitialEnv(), boxes) == ResolveName("loop_for", InitialEnv(), boxes)
      == Ok(Builtin(ForFn))
    ensures ResolveName("loop.while", InitialEnv(), boxes) == ResolveName("loop_while", InitialEnv(), boxes)
      == Ok(Builtin(WhileFn))
    ensures ResolveName("op.add", InitialEnv(), boxes) == Ok(Builtin(OpFn(AddOp)))
  {
    ResolveLoopFor(boxes);
    ResolveLoopWhile(boxes);
    ResolveOpAdd(boxes);
    ResolveAliases(boxes);
  }

  /** `let x = e` binds `x` to the value of `e`, in a new box when it is
      `mut`; reading `x` gives the value back, no other name is rebound and
      no existing box changes. A raising `e` changes nothing. */
  lemma LetBinds(x: string, e: Node, mutable: bool, st: State, fuel: nat)
    requires !Contains(x, ".")
    ensures var out := Exec(Let(x, e, mutable), st, fuel);
      out.0 == Eval(e, Global, st.env, st.boxes, fuel) &&
      (out.0.Err? ==> out.1 == st) &&
      (out.0.Ok? ==>
        ResolveName(x, out.1.env, out.1.boxes) == Ok(out.0.value) &&
        (out.1.env[x].BoxRef? <==> mutable) &&
        out.1.env.Keys == st.env.Keys + {x} &&
        (forall y | y in st.env && y != x :: out.1.env[y] == st.env[y]) &&
        st.boxes <= out.1.boxes)
  {
    var out := Exec(Let(x, e, mutable), st, fuel);
    PlainNameLookup(x, out.1.env, out.1.boxes);
  }

  /** `set x = e` raises `KeyError` for an unbound `x` and `RuntimeError`
      for a `let`-bound one, both without evaluating `e`. On a box it stores
      the value of `e` there, which reading `x` then gives; the env and
      every other box are unchanged. */
  lemma SetUpdates(x: string, e: Node, st: State, fuel: nat)
    requires !Contains(x, ".")
    ensures x !in st.env ==> Exec(Set(x, e), st, fuel) == (Raise(KeyError(x)), st)
    ensures x in st.env && st.env[x].Plain? ==>
      Exec(Set(x, e), st, fuel) == (Raise(RuntimeError("cannot set immutable variable")), st)
    ensures x in st.env && st.env[x].BoxRef? && st.env[x].id < |st.boxes| ==>
      var out := Exec(Set(x, e), st, fuel);
      out.0 == Eval(e, Global, st.env, st.boxes, fuel) &&
      (out.0.Err? ==> out.1 == st) &&
      (out.0.Ok? ==>
        out.1.env == st.env &&
        ResolveName(x, out.1.env, out.1.boxes) == Ok(out.0.value) &&
        |out.1.boxes| == |st.boxes| &&
        (forall j | 0 <= j < |st.boxes| && j != st.env[x].id :: out.1.boxes[j] == st.boxes[j]))
  {
    var out := Exec(Set(x, e), st, fuel);
    PlainNameLookup(x, out.1.env, out.1.boxes);
  }

  /** `zip` stops at the shorter list: a name that gets no argument keeps
      the entry of the copied env, and a parameter gets the argument at its
      last position among the bound ones. */
  lemma BindZip(env: Env, params: seq<string>, args: seq<Value>)
    ensures var n := ZipLength(params, args);
      (forall y | y !in params[..n] :: (y in Bind(env, params, args) <==> y in env) &&
                                       (y in env ==> Bind(env, params, args)[y] == env[y])) &&
      (forall j | 0 <= j < n && params[j] !in params[j + 1..n] ::
         params[j] in Bind(env, params, args) && Bind(env, params, args)[params[j]] == Plain(args[j]))
  {
    var n := ZipLength(params, args);
    forall y | y !in params[..n]
      ensures (y in Bind(env, params, args) <==> y in env) && (y in env ==> Bind(env, params, args)[y] == env[y])
    {
      BindKeeps(env, params, args, y);
    }
    forall j | 0 <= j < n && params[j] !in params[j + 1..n]
      ensures params[j] in Bind(env, params, args) && Bind(env, params, args)[params[j]] == Plain(args[j])
    {
      BindSets(env, params, args, j);
    }
  }

  /** How many parameters `zip` pairs with arguments. */
  function ZipLength(params: seq<string>, args: seq<Value>): (n: nat)
    ensures n <= |params| && n <= |args| && (n == |params| || n == |args|)
  {
    if |params| < |args| then |params| else |args|
  }

  /** A name among no bound parameter keeps its entry. */
  lemma {:induction false} BindKeeps(env: Env, params: seq<string>, args: seq<Value>, y: string)
    requires y !in params[..ZipLength(params, args)]
    ensures y in Bind(env, params, args) <==> y in env
    ensures y in env ==> Bind(env, params, args)[y] == env[y]
    decreases |params|
  {
    if params != [] && args != [] {
      var n := ZipLength(params, args);
      var ps, vs := params[1..], args[1..];
      assert params[..n] == [params[0]] + ps[..ZipLength(ps, vs)];
      BindKeeps(env[params[0] := Plain(args[0])], ps, vs, y);
    }
  }

  /** A parameter not repeated later among the bound ones gets its argument. */
  lemma {:induction false} BindSets(env: Env, params: seq<string>, args: seq<Value>, j: nat)
    requires j < ZipLength(params, args) && params[j] !in params[j + 1..ZipLength(params, args)]
    ensures params[j] in Bind(env, params, args) && Bind(env, params, args)[params[j]] == Plain(args[j])
    decreases |params|
  {
    var n := ZipLength(params, args);
    var env' := env[params[0] := Plain(args[0])];
    var ps, vs := params[1..], args[1..];
    assert ZipLength(ps, vs) == n - 1;
    if j == 0 {
      assert ps[..n - 1] == params[1..n];
      BindKeeps(env', ps, vs, params[0]);
    } else {
      assert ps[j - 1] == params[j] && vs[j - 1] == args[j];
      assert ps[j..n - 1] == params[j + 1..n];
      BindSets(env', ps, vs, j - 1);
    }
  }

  /** The arguments of a call are evaluated left to right: when all succeed
      the list holds their values in order, and otherwise the error is that
      of the first argument that raises. */
  lemma {:induction false} EvalArgsInOrder(args: seq<Node>, scope: Scope, globals: Env, boxes: seq<Value>, fuel: nat)
    ensures EvalArgs(args, scope, globals, boxes, fuel).Ok? ==>
      forall k | 0 <= k < |args| :: Eval(args[k], scope, globals, boxes, fuel) == Ok(EvalArgs(args, scope, globals, boxes, fuel).value[k])
    ensures EvalArgs(args, scope, globals, boxes, fuel).Err? ==>
      exists k | 0 <= k < |args| ::
        (forall j | 0 <= j < k :: Eval(args[j], scope, globals, boxes, fuel).Ok?) &&
        Eval(args[k], scope, globals, boxes, fuel) == Err(EvalArgs(args, scope, globals, boxes, fuel).error)
    decreases |args|
  {
    if args != [] {
      var tail := args[1..];
      EvalArgsInOrder(tail, scope, globals, boxes, fuel);
      var r := EvalArgs(args, scope, globals, boxes, fuel);
      var head := Eval(args[0], scope, globals, boxes, fuel);
      if head.Ok? {
        var rest := EvalArgs(tail, scope, globals, boxes, fuel);
        if rest.Ok? {
          assert r.value == [head.value] + rest.value;
          forall k | 0 <= k < |args|
            ensures Eval(args[k], scope, globals, boxes, fuel) == Ok(r.value[k])
          {
            if k > 0 {
              assert args[k] == tail[k - 1];
            }
          }
        } else {
          var k :| 0 <= k < |tail| &&
            (forall j | 0 <= j < k :: Eval(tail[j], scope, globals, boxes, fuel).Ok?) &&
            Eval(tail[k], scope, globals, boxes, fuel) == Err(rest.error);
          assert args[k + 1] == tail[k];
          assert forall j | 1 <= j < k + 1 :: args[j] == tail[j - 1];
        }
      } else {
        assert Eval(args[0], scope, globals, boxes, fuel) == Err(r.error);
      }
    }
  }

  /** The callee is evaluated before the arguments: a raising callee is what
      the call raises, whatever the arguments would do. */
  lemma CalleeFirst(f: Node, args: seq<Node>, args2: seq<Node>, scope: Scope, globals: Env,
                    boxes: seq<Value>, fuel: nat)
    requires Eval(f, scope, globals, boxes, fuel).Err?
    ensures Eval(Call(f, args), scope, globals, boxes, fuel) == Eval(Call(f, args2), scope, globals, boxes, fuel)
      == Eval(f, scope, globals, boxes, fuel)
  {
  }

  /** The nodes `desugar` removes are not evaluated: each raises `TypeError`. */
  lemma SugarIsUnsupported(n: Node, scope: Scope, globals: Env, boxes: seq<Value>, fuel: nat)
    requires n.BinOp? || n.IfExpr? || n.For? || n.While? || n.If? || n.Break? || n.Continue?
    ensures Eval(n, scope, globals, boxes, fuel) == Raise(TypeError("unsupported node"))
    ensures Exec(n, State(globals, boxes), fuel) == (Raise(TypeError("unsupported node")), State(globals, boxes))
  {
  }

  lemma {:induction false} ExecFromAppend(stmts: seq<Node>, s: Node, i: nat, st: State, result: Value, fuel: nat)
    requires i <= |stmts|
    ensures var pre := ExecFrom(stmts, i, st, result, fuel);
      ExecFrom(stmts + [s], i, st, result, fuel) == if pre.0.Ok? then Exec(s, pre.1, fuel) else pre
    decreases |stmts| - i
  {
    var all := stmts + [s];
    assert all[i] == if i < |stmts| then stmts[i] else s;
    if i < |stmts| {
      var (r, st') := Exec(stmts[i], st, fuel);
      if r.Ok? {
        ExecFromAppend(stmts, s, i + 1, st', r.value, fuel);
      }
    }
  }

  /** A program's value is that of its last statement, `None` when it is
      empty; the first statement that raises ends it, with the effects of
      the statements before it kept. */
  lemma ProgramValue(stmts: seq<Node>, s: Node, st: State, fuel: nat)
    ensures Exec(Program([]), st, fuel) == (Ok(NoneV), st)
    ensures var pre := Exec(Program(stmts), st, fuel);
      Exec(Program(stmts + [s]), st, fuel) == if pre.0.Ok? then Exec(s, pre.1, fuel) else pre
  {
    ExecFromAppend(stmts, s, 0, st, NoneV, fuel);
  }

  /** Calling a closure spends one unit of fuel on its body, evaluated in
      the closure's env with the parameters bound. */
  lemma ApplyClosure(params: seq<string>, body: Node, scope: Scope, args: seq<Value>, globals: Env,
                     boxes: seq<Value>, fuel: nat)
    requires fuel >= 1
    ensures Apply(Closure(params, body, scope), args, globals, boxes, fuel)
      == Eval(body, Local(Bind(EnvOf(scope, globals), params, args)), globals, boxes, fuel - 1)
  {
  }

  /** A dot-free name bound to a plain value evaluates to that value. */
  lemma EvalPlainName(id: string, scope: Scope, globals: Env, boxes: seq<Value>, fuel: nat, v: Value)
    requires !Contains(id, ".") && id in EnvOf(scope, globals) && EnvOf(scope, globals)[id] == Plain(v)
    ensures Eval(Name(id), scope, globals, boxes, fuel) == Ok(v)
  {
    PlainNameLookup(id, EnvOf(scope, globals), boxes);
  }

  lemma BindOne(env: Env, p: string, a: Value)
    ensures Bind(env, [p], [a]) == env[p := Plain(a)]
  {
    assert [p][1..] == [] && [a][1..] == [];
  }

  /** A call whose callee and arguments evaluate applies the one to the others. */
  lemma EvalCallOk(f: Node, args: seq<Node>, scope: Scope, globals: Env, boxes: seq<Value>, fuel: nat,
                   fv: Value, avs: seq<Value>)
    requires Eval(f, scope, globals, boxes, fuel) == Ok(fv)
    requires EvalArgs(args, scope, globals, boxes, fuel) == Ok(avs)
    ensures Eval(Call(f, args), scope, globals, boxes, fuel) == Apply(fv, avs, globals, boxes, fuel)
  {
  }

  /** A call without arguments applies the callee's value to `[]`. */
  lemma EvalCallNone(f: Node, scope: Scope, globals: Env, boxes: seq<Value>, fuel: nat, fv: Value)
    requires Eval(f, scope, globals, boxes, fuel) == Ok(fv)
    ensures Eval(Call(f, []), scope, globals, boxes, fuel) == Apply(fv, [], globals, boxes, fuel)
  {
    assert EvalArgs([], scope, globals, boxes, fuel) == Ok([]);
    EvalCallOk(f, [], scope, globals, boxes, fuel, fv, []);
  }

  lemma EvalArgsOne(x: Node, scope: Scope, globals: Env, boxes: seq<Value>, fuel: nat, xv: Value)
    requires Eval(x, scope, globals, boxes, fuel) == Ok(xv)
    ensures EvalArgs([x], scope, globals, boxes, fuel) == Ok([xv])
  {
    var xs := [x];
    assert xs[0] == x && xs[1..] == [];
    assert EvalArgs(xs[1..], scope, globals, boxes, fuel) == Ok([]);
    assert [xv] + [] == [xv];
  }

  /** A call with one argument applies the callee's value to the argument's. */
  lemma EvalCallOne(f: Node, x: Node, scope: Scope, globals: Env, boxes: seq<Value>, fuel: nat, fv: Value, xv: Value)
    requires Eval(f, scope, globals, boxes, fuel) == Ok(fv) && Eval(x, scope, globals, boxes, fuel) == Ok(xv)
    ensures Eval(Call(f, [x]), scope, globals, boxes, fuel) == Apply(fv, [xv], globals, boxes, fuel)
  {
    EvalArgsOne(x, scope, globals, boxes, fuel, xv);
    EvalCallOk(f, [x], scope, globals, boxes, fuel, fv, [xv]);
  }

  lemma CallOfF(g: Env, fuel: nat)
    requires fuel >= 1
    requires "f" in g && g["f"] == Plain(Closure([], Name("y"), Global)) && "y" in g && g["y"] == Plain(IntV(1))
    ensures Exec(ExprStmt(Call(Name("f"), [])), State(g, []), fuel) == (Ok(IntV(1)), State(g, []))
  {
    var c := Closure([], Name("y"), Global);
    DotFree("f");
    DotFree("y");
    EvalPlainName("f", Global, g, [], fuel, c);
    EvalCallNone(Name("f"), Global, g, [], fuel, c);
    ApplyClosure([], Name("y"), Global, [], g, [], fuel);
    assert Bind(g, [], []) == g;
    EvalPlainName("y", Local(g), g, [], fuel - 1, IntV(1));
  }

  /** A top-level function reads the program's env when it is called, so
      it sees a `let` that comes after it. */
  lemma LateBinding(fuel: nat)
    requires fuel >= 1
    ensures Exec(Program([Let("f", Lambda([], Name("y")), false), Let("y", Number(1), false),
                          ExprStmt(Call(Name("f"), []))]), State(InitialEnv(), []), fuel).0 == Ok(IntV(1))
  {
    LetsThenCall(InitialEnv(), fuel);
  }

  lemma LetsThenCall(g0: Env, fuel: nat)
    requires fuel >= 1
    ensures Exec(Program([Let("f", Lambda([], Name("y")), false), Let("y", Number(1), false),
                          ExprStmt(Call(Name("f"), []))]), State(g0, []), fuel).0 == Ok(IntV(1))
  {
    var c := Closure([], Name("y"), Global);
    var g1 := g0["f" := Plain(c)];
    var g2 := g1["y" := Plain(IntV(1))];
    var stmts := [Let("f", Lambda([], Name("y")), false), Let("y", Number(1), false), ExprStmt(Call(Name("f"), []))];
    assert Exec(stmts[0], State(g0, []), fuel) == (Ok(c), State(g1, []));
    assert Exec(stmts[1], State(g1, []), fuel) == (Ok(IntV(1)), State(g2, []));
    CallOfF(g2, fuel);
    assert ExecFrom(stmts, 3, State(g2, []), IntV(1), fuel).0 == Ok(IntV(1));
    assert ExecFrom(stmts, 2, State(g2, []), IntV(1), fuel).0 == Ok(IntV(1));
    assert ExecFrom(stmts, 1, State(g1, []), c, fuel).0 == Ok(IntV(1));
  }

  lemma MakeInner(g0: Env, fuel: nat)
    requires fuel >= 1
    ensures Eval(Call(Lambda(["x"], Lambda([], Name("x"))), [Number(7)]), Global, g0, [], fuel)
      == Ok(Closure([], Name("x"), Local(g0["x" := Plain(IntV(7))])))
  {
    var maker := Closure(["x"], Lambda([], Name("x")), Global);
    assert Eval(Lambda(["x"], Lambda([], Name("x"))), Global, g0, [], fuel) == Ok(maker);
    assert Eval(Number(7), Global, g0, [], fuel) == Ok(IntV(7));
    EvalCallOne(Lambda(["x"], Lambda([], Name("x"))), Number(7), Global, g0, [], fuel, maker, IntV(7));
    ApplyClosure(["x"], Lambda([], Name("x")), Global, [IntV(7)], g0, [], fuel);
    BindOne(g0, "x", IntV(7));
  }

  lemma CallInner(inner: Env, g: Env, fuel: nat)
    requires fuel >= 1
    requires "x" in inner && inner["x"] == Plain(IntV(7))
    ensures Apply(Closure([], Name("x"), Local(inner)), [], g, [], fuel) == Ok(IntV(7))
  {
    DotFree("x");
    ApplyClosure([], Name("x"), Local(inner), [], g, [], fuel);
    assert Bind(inner, [], []) == inner;
    EvalPlainName("x", Local(inner), g, [], fuel - 1, IntV(7));
  }

  /** A lambda made inside a call copies that call's env, so it sees the
      parameters of the call that made it. */
  lemma InnerLambdaSeesParameters(fuel: nat)
    requires fuel >= 2
    ensures Eval(Call(Call(Lambda(["x"], Lambda([], Name("x"))), [Number(7)]), []), Global, InitialEnv(), [], fuel)
      == Ok(IntV(7))
  {
    CallsInner(InitialEnv(), fuel);
  }

  lemma CallsInner(g0: Env, fuel: nat)
    requires fuel >= 2
    ensures Eval(Call(Call(Lambda(["x"], Lambda([], Name("x"))), [Number(7)]), []), Global, g0, [], fuel)
      == Ok(IntV(7))
  {
    var inner := g0["x" := Plain(IntV(7))];
    var c := Closure([], Name("x"), Local(inner));
    MakeInner(g0, fuel);
    EvalCallNone(Call(Lambda(["x"], Lambda([], Name("x"))), [Number(7)]), Global, g0, [], fuel, c);
    CallInner(inner, g0, fuel);
  }

  /** `fn() -> true` called with no arguments returns `true`. */
  lemma TrueTest(g: Env, fuel: nat)
    requires fuel >= 1 && "true" in g && g["true"] == Plain(BoolV(true))
    ensures Apply(Closure([], Name("true"), Global), [], g, [], fuel) == Ok(BoolV(true))
  {
    DotFree("true");
    ApplyClosure([], Name("true"), Global, [], g, [], fuel);
    assert Bind(g, [], []) == g;
    EvalPlainName("true", Local(g), g, [], fuel - 1, BoolV(true));
  }

  /** `fn(acc) -> acc` returns its argument. */
  lemma IdentityBody(a: Value, g: Env, fuel: nat)
    requires fuel >= 1
    ensures Apply(Closure(["acc"], Name("acc"), Global), [a], g, [], fuel) == Ok(a)
  {
    DotFree("acc");
    ApplyClosure(["acc"], Name("acc"), Global, [a], g, [], fuel);
    BindOne(g, "acc", a);
    EvalPlainName("acc", Local(g["acc" := Plain(a)]), g, [], fuel - 1, a);
  }

  /** Calling `loop_while` runs the core loop with the test and the body
      called through `Apply`, with one unit of fuel less. */
  lemma WhileCall(args: seq<Value>, globals: Env, boxes: seq<Value>, fuel: nat)
    requires 3 <= |args| <= 6 && fuel > 0
    ensures Apply(Builtin(WhileFn), args, globals, boxes, fuel) ==
      WhileFrom(k => Apply(args[0], [], globals, boxes, fuel - 1), a => Apply(args[1], [a], globals, boxes, fuel - 1),
                args[2], 0, ArgOr(args, 3), ArgOr(args, 4), fuel - 1)
  {
  }

  /** `loop_while(fn() -> true, fn(acc) -> acc, 0, 5)` raises
      `LimitExceeded`: the test stays true, so the sixth test meets
      `max_iter`. */
  lemma WhileLimitRaises(fuel: nat)
    requires fuel >= 8
    ensures Apply(Builtin(WhileFn), [Closure([], Name("true"), Global), Closure(["acc"], Name("acc"), Global), IntV(0), IntV(5)],
                  InitialEnv(), [], fuel) == Raise(LimitExceeded("max_iter"))
  {
    var g := InitialEnv();
    var args := [Closure([], Name("true"), Global), Closure(["acc"], Name("acc"), Global), IntV(0), IntV(5)];
    var f1 := fuel - 1;
    assert "true" in g && g["true"] == Plain(BoolV(true)) by { KnownEntries(); }
    TrueTest(g, f1);
    forall a: Value
      ensures Apply(args[1], [a], g, [], f1) == Ok(a)
    {
      IdentityBody(a, g, f1);
    }
    WhileCall(args, g, [], fuel);
    WhileMaxIter(k => Apply(args[0], [], g, [], f1), a => Apply(args[1], [a], g, [], f1), args[2], 5, f1);
  }
}
