/** aissembly_dsl/core_ir.py: the combinators desugared DSL programs call.
    These are `cond`, which chooses between two thunks, `loop_for` and
    `loop_while`, which fold a body over an accumulator, `ctrl.break_` and
    `ctrl.continue_`, which end a body early, and the `op` arithmetic and
    comparisons. Exceptions become results: a body or test ends normally with
    a value, or raises `LoopBreak(value)`, `LoopContinue` or an error. */
module CoreIr {
  import opened Basics
  import opened PyStr
  import opened DslAst

  // ---------------------------------------------------------------------------
  // Values

  /** The Python values a DSL program computes with. `RangeV` is a `range`
      object; `Closure` is a function made by a `Lambda` node together with
      the env it was made in; `Builtin` is one of the functions reachable
      from the initial env; `Namespace` is `op`, `ctrl` (classes) or `loop`
      (a dict). */
  datatype Value =
    | IntV(i: int)
    | BoolV(b: bool)
    | StrV(s: string)
    | NoneV
    | RangeV(start: int, stop: int, step: int)
    | Closure(params: seq<string>, body: Node, scope: Scope)
    | Builtin(prim: Prim)
    | Namespace(ns: Ns)

  /** `cond`, `range`, `loop_for`, `loop_while`, the `op` functions,
      `ctrl.break_` and `ctrl.continue_`. */
  datatype Prim = CondFn | RangeFn | ForFn | WhileFn | OpFn(op: OpKind) | BreakFn | ContinueFn

  datatype OpKind = AddOp | SubOp | MulOp | DivOp | EqOp | NeOp | GtOp | LtOp | GeOp | LeOp

  datatype Ns = LoopNs | OpNs | CtrlNs

  /** An env entry: a plain value, or a `Box` (a mutable cell) named by its
      index in the interpreter's box store. */
  datatype Slot = Plain(v: Value) | BoxRef(id: nat)

  /** The env a lambda was made in: the program's own env, which later
      `let`s keep changing, or the local env of an enclosing call. */
  datatype Scope = Global | Local(env: map<string, Slot>)

  /** How a call ends: with a value, or by raising. */
  datatype Exc = LoopBreak(value: Value) | LoopContinue | Failure(error: DslError)

  type Outcome = Result<Value, Exc>

  function Raise(e: DslError): Outcome {
    Err(Failure(e))
  }

  /** A plain error result as an outcome. */
  function Lift(r: Result<Value, DslError>): (o: Outcome)
    ensures r.Ok? ==> o == Ok(r.value)
    ensures r.Err? ==> o == Err(Failure(r.error))
  {
    match r
    case Ok(v) => Ok(v)
    case Err(e) => Err(Failure(e))
  }

  /** Python's `int` view of a value: `bool` is a subclass of `int`. */
  function AsInt(v: Value): Option<int> {
    match v
    case IntV(i) => Some(i)
    case BoolV(b) => Some(if b then 1 else 0)
    case _ => None
  }

  /** The items of `range(start, stop, step)`. */
  function RangeItems(start: int, stop: int, step: int): (r: seq<Value>)
    requires step != 0
    ensures forall k | 0 <= k < |r| :: r[k] == IntV(start + k * step)
    ensures (step > 0 && start >= stop) || (step < 0 && start <= stop) <==> r == []
    decreases if step > 0 then stop - start else start - stop
  {
    if (step > 0 && start < stop) || (step < 0 && start > stop) then
      var rest := RangeItems(start + step, stop, step);
      assert forall k | 1 <= k < |rest| + 1 :: start + step + (k - 1) * step == start + k * step;
      [IntV(start)] + rest
    else []
  }

  /** `bool(v)`. */
  predicate Truthy(v: Value) {
    match v
    case IntV(i) => i != 0
    case BoolV(b) => b
    case StrV(s) => s != ""
    case NoneV => false
    case RangeV(start, stop, step) => step != 0 && RangeItems(start, stop, step) != []
    case _ => true
  }

  // ---------------------------------------------------------------------------
  // op

  /** `s * n`: `n` copies of `s`, none for `n <= 0`. */
  function Repeat(s: string, n: int): string
    decreases if n > 0 then n else 0
  {
    if n <= 0 then "" else s + Repeat(s, n - 1)
  }

  /** `op.add`: integer sum or string concatenation. */
  function Add(a: Value, b: Value): Result<Value, DslError> {
    if AsInt(a).Some? && AsInt(b).Some? then Ok(IntV(AsInt(a).value + AsInt(b).value))
    else if a.StrV? && b.StrV? then Ok(StrV(a.s + b.s))
    else Err(TypeError("unsupported operand type(s) for +"))
  }

  /** `op.sub`. */
  function Sub(a: Value, b: Value): Result<Value, DslError> {
    if AsInt(a).Some? && AsInt(b).Some? then Ok(IntV(AsInt(a).value - AsInt(b).value))
    else Err(TypeError("unsupported operand type(s) for -"))
  }

  /** `op.mul`: integer product, or a string repeated an integer number of
      times (on either side). */
  function Mul(a: Value, b: Value): Result<Value, DslError> {
    if AsInt(a).Some? && AsInt(b).Some? then Ok(IntV(AsInt(a).value * AsInt(b).value))
    else if a.StrV? && AsInt(b).Some? then Ok(StrV(Repeat(a.s, AsInt(b).value)))
    else if AsInt(a).Some? && b.StrV? then Ok(StrV(Repeat(b.s, AsInt(a).value)))
    else Err(TypeError("unsupported operand type(s) for *"))
  }

  /** `op.div`: true division. A zero divisor raises; any other quotient is a
      float, which the model does not represent. */
  function Div(a: Value, b: Value): Result<Value, DslError> {
    if AsInt(a).Some? && AsInt(b).Some? then
      if AsInt(b).value == 0 then Err(ZeroDivisionError("division by zero"))
      else Err(Unmodelled("float division"))
    else Err(TypeError("unsupported operand type(s) for /"))
  }

  /** The values `==` compares by content. */
  predicate Plain(v: Value) {
    v.IntV? || v.BoolV? || v.StrV? || v.NoneV? || v.RangeV?
  }

  /** `op.eq`. Numbers (including bools) compare numerically, strings by
      content and ranges by their items; values of different kinds are
      unequal. Builtins and namespaces are single objects; two closures are
      equal only when they are the same object, which values do not record. */
  function Equal(a: Value, b: Value): Result<bool, DslError> {
    if AsInt(a).Some? && AsInt(b).Some? then Ok(AsInt(a).value == AsInt(b).value)
    else if a.StrV? && b.StrV? then Ok(a.s == b.s)
    else if a.NoneV? && b.NoneV? then Ok(true)
    else if a.RangeV? && b.RangeV? then
      if a.step == 0 || b.step == 0 then Err(Unmodelled("range with step 0"))
      else Ok(RangeItems(a.start, a.stop, a.step) == RangeItems(b.start, b.stop, b.step))
    else if Plain(a) || Plain(b) then Ok(false)
    else if a.Closure? && b.Closure? then Err(Unmodelled("identity of functions"))
    else Ok(a == b)
  }

  function Eq(a: Value, b: Value): Result<Value, DslError> {
    var e :- Equal(a, b);
    Ok(BoolV(e))
  }

  /** `op.ne`. */
  function Ne(a: Value, b: Value): Result<Value, DslError> {
    var e :- Equal(a, b);
    Ok(BoolV(!e))
  }

  /** `a < b` and `a <= b` on numbers and on strings; other kinds raise. */
  function Order(a: Value, b: Value, strict: bool): Result<bool, DslError> {
    if AsInt(a).Some? && AsInt(b).Some? then
      Ok(if strict then AsInt(a).value < AsInt(b).value else AsInt(a).value <= AsInt(b).value)
    else if a.StrV? && b.StrV? then Ok(if strict then Less(a.s, b.s) else LessEq(a.s, b.s))
    else Err(TypeError("comparison not supported"))
  }

  /** `op.lt`, `op.le`, `op.gt`, `op.ge`. */
  function Lt(a: Value, b: Value): Result<Value, DslError> {
    var o :- Order(a, b, true);
    Ok(BoolV(o))
  }

  function Le(a: Value, b: Value): Result<Value, DslError> {
    var o :- Order(a, b, false);
    Ok(BoolV(o))
  }

  function Gt(a: Value, b: Value): Result<Value, DslError> {
    var o :- Order(b, a, true);
    Ok(BoolV(o))
  }

  function Ge(a: Value, b: Value): Result<Value, DslError> {
    var o :- Order(b, a, false);
    Ok(BoolV(o))
  }

  /** The members of the `op` class, by attribute name. */
  const OpMembers: map<string, OpKind> := map[
    "add" := AddOp, "sub" := SubOp, "mul" := MulOp, "div" := DivOp, "eq" := EqOp,
    "ne" := NeOp, "gt" := GtOp, "lt" := LtOp, "ge" := GeOp, "le" := LeOp
  ]

  /** Calling an `op` function: exactly two positional arguments. */
  function OpCall(op: OpKind, args: seq<Value>): (r: Outcome)
    ensures |args| != 2 ==> r.Err? && r.error.Failure? && r.error.error.TypeError?
  {
    if |args| != 2 then Raise(TypeError("takes 2 positional arguments"))
    else
      var a, b := args[0], args[1];
      Lift(match op
        case AddOp => Add(a, b)
        case SubOp => Sub(a, b)
        case MulOp => Mul(a, b)
        case DivOp => Div(a, b)
        case EqOp => Eq(a, b)
        case NeOp => Ne(a, b)
        case GtOp => Gt(a, b)
        case LtOp => Lt(a, b)
        case GeOp => Ge(a, b)
        case LeOp => Le(a, b))
  }

  // ---------------------------------------------------------------------------
  // ctrl

  /** `ctrl.break_(value=None)` raises `LoopBreak(value)`. */
  function BreakCall(args: seq<Value>): (r: Outcome)
    ensures |args| <= 1 <==> r.Err? && r.error.LoopBreak?
    ensures |args| <= 1 ==> r.error.value == if args == [] then NoneV else args[0]
  {
    if |args| == 0 then Err(LoopBreak(NoneV))
    else if |args| == 1 then Err(LoopBreak(args[0]))
    else Raise(TypeError("break_() takes at most 1 argument"))
  }

  /** `ctrl.continue_()` raises `LoopContinue`. */
  function ContinueCall(args: seq<Value>): (r: Outcome)
    ensures args == [] <==> r == Err(LoopContinue)
    ensures r.Err?
  {
    if args == [] then Err(LoopContinue)
    else Raise(TypeError("continue_() takes no arguments"))
  }

  // ---------------------------------------------------------------------------
  // cond

  /** `cond(test, then, else_)`: call `test`, then exactly one branch. */
  function Cond(test: () -> Outcome, yes: () -> Outcome, no: () -> Outcome): Outcome {
    var t :- test();
    if Truthy(t) then yes() else no()
  }

  // ---------------------------------------------------------------------------
  // loop_for

  /** The `max_iter` check `idx >= max_iter`, skipped when `max_iter` is
      `None`; comparing with a non-number raises. */
  function ReachedLimit(count: nat, maxIter: Value): Result<bool, DslError> {
    if maxIter.NoneV? then Ok(false)
    else if AsInt(maxIter).Some? then Ok(count >= AsInt(maxIter).value)
    else Err(TypeError("'>=' not supported"))
  }

  /** `loop_for` from item `idx` on with accumulator `acc`. Before each
      item: the `max_iter` check, then the `timeout_ms` check (a set timeout
      is outside the model); then `acc = body(item, acc)`, where a
      `LoopBreak` returns its value and a `LoopContinue` keeps `acc`. */
  function ForFrom(items: seq<Value>, body: (Value, Value) -> Outcome, acc: Value, idx: nat,
                   maxIter: Value, timeout: Value): Outcome
    requires idx <= |items|
    decreases |items| - idx
  {
    if idx == |items| then Ok(acc)
    else
      match ReachedLimit(idx, maxIter)
      case Err(e) => Raise(e)
      case Ok(true) => Raise(LimitExceeded("max_iter"))
      case Ok(false) =>
        if !timeout.NoneV? then Raise(Unmodelled("timeout_ms"))
        else
          match body(items[idx], acc)
          case Ok(v) => ForFrom(items, body, v, idx + 1, maxIter, timeout)
          case Err(LoopBreak(v)) => Ok(v)
          case Err(LoopContinue) => ForFrom(items, body, acc, idx + 1, maxIter, timeout)
          case Err(Failure(e)) => Raise(e)
  }

  /** `loop_for(iterable, body, init, max_iter, timeout_ms)` over the items
      of the iterable. */
  method LoopFor(items: seq<Value>, body: (Value, Value) -> Outcome, init: Value,
                 maxIter: Value, timeout: Value) returns (r: Outcome)
    ensures r == ForFrom(items, body, init, 0, maxIter, timeout)
  {
    var acc := init;
    for idx := 0 to |items|
      invariant ForFrom(items, body, init, 0, maxIter, timeout) == ForFrom(items, body, acc, idx, maxIter, timeout)
    {
      var limit := ReachedLimit(idx, maxIter);
      if limit.Err? {
        return Raise(limit.error);
      }
      if limit.value {
        return Raise(LimitExceeded("max_iter"));
      }
      if !timeout.NoneV? {
        return Raise(Unmodelled("timeout_ms"));
      }
      var out := body(items[idx], acc);
      match out {
        case Ok(v) => acc := v;
        case Err(LoopBreak(v)) => return Ok(v);
        case Err(LoopContinue) =>
        case Err(Failure(e)) => return Raise(e);
      }
    }
    return Ok(acc);
  }

  // ---------------------------------------------------------------------------
  // loop_while

  /** `loop_while` after `count` iterations with accumulator `acc`. `test(k)`
      is what the `k`-th call of the test returns (a Python test may read
      changing state); a true test is followed by the `max_iter` check, the
      `timeout_ms` check, `count += 1` and the body. `fuel` bounds the
      iterations the model follows. */
  function WhileFrom(test: nat -> Outcome, body: Value -> Outcome, acc: Value, count: nat,
                     maxIter: Value, timeout: Value, fuel: nat): Outcome
    decreases fuel
  {
    if fuel == 0 then Raise(OutOfFuel)
    else
      match test(count)
      case Err(e) => Err(e)
      case Ok(t) =>
        if !Truthy(t) then Ok(acc)
        else
          match ReachedLimit(count, maxIter)
          case Err(e) => Raise(e)
          case Ok(true) => Raise(LimitExceeded("max_iter"))
          case Ok(false) =>
            if !timeout.NoneV? then Raise(Unmodelled("timeout_ms"))
            else
              match body(acc)
              case Ok(v) => WhileFrom(test, body, v, count + 1, maxIter, timeout, fuel - 1)
              case Err(LoopBreak(v)) => Ok(v)
              case Err(LoopContinue) => WhileFrom(test, body, acc, count + 1, maxIter, timeout, fuel - 1)
              case Err(Failure(e)) => Raise(e)
  }

  /** `loop_while(test, body, init, max_iter, timeout_ms)`, following at most
      `fuel` tests. */
  method LoopWhile(test: nat -> Outcome, body: Value -> Outcome, init: Value,
                   maxIter: Value, timeout: Value, fuel: nat) returns (r: Outcome)
    ensures r == WhileFrom(test, body, init, 0, maxIter, timeout, fuel)
  {
    var acc := init;
    var count := 0;
    var left := fuel;
    while true
      invariant WhileFrom(test, body, init, 0, maxIter, timeout, fuel)
        == WhileFrom(test, body, acc, count, maxIter, timeout, left)
      decreases left
    {
      if left == 0 {
        return Raise(OutOfFuel);
      }
      var t := test(count);
      if t.Err? {
        return Err(t.error);
      }
      if !Truthy(t.value) {
        return Ok(acc);
      }
      var limit := ReachedLimit(count, maxIter);
      if limit.Err? {
        return Raise(limit.error);
      }
      if limit.value {
        return Raise(LimitExceeded("max_iter"));
      }
      if !timeout.NoneV? {
        return Raise(Unmodelled("timeout_ms"));
      }
      count := count + 1;
      left := left - 1;
      var out := body(acc);
      match out {
        case Ok(v) => acc := v;
        case Err(LoopBreak(v)) => return Ok(v);
        case Err(LoopContinue) =>
        case Err(Failure(e)) => return Raise(e);
      }
    }
  }

  // ---------------------------------------------------------------------------
  // Properties

  /** `cond` is lazy: the branch not taken is never called, so replacing it
      changes nothing; a raising test calls neither branch. */
  lemma CondLazy(test: () -> Outcome, yes: () -> Outcome, yes2: () -> Outcome,
                 no: () -> Outcome, no2: () -> Outcome)
    ensures test().Ok? && Truthy(test().value) ==> Cond(test, yes, no) == Cond(test, yes, no2) == yes()
    ensures test().Ok? && !Truthy(test().value) ==> Cond(test, yes, no) == Cond(test, yes2, no) == no()
    ensures test().Err? ==> Cond(test, yes, no) == Cond(test, yes2, no2) == test()
  {
  }

  /** A left fold of `step` over `items`, written from the last item back:
      the reference `loop_for` is compared against. */
  function Fold(step: (Value, Value) -> Value, items: seq<Value>, init: Value): Value
    decreases |items|
  {
    if items == [] then init
    else step(items[|items| - 1], Fold(step, items[..|items| - 1], init))
  }

  lemma {:induction false} ForFromFold(step: (Value, Value) -> Value, items: seq<Value>, init: Value,
                                       idx: nat, maxIter: Value)
    requires idx <= |items|
    requires forall k | idx <= k < |items| :: ReachedLimit(k, maxIter) == Ok(false)
    ensures ForFrom(items, (i, a) => Ok(step(i, a)), Fold(step, items[..idx], init), idx, maxIter, NoneV)
      == Ok(Fold(step, items, init))
    decreases |items| - idx
  {
    if idx == |items| {
      assert items[..idx] == items;
    } else {
      assert items[..idx + 1][..idx] == items[..idx];
      ForFromFold(step, items, init, idx + 1, maxIter);
    }
  }

  /** Without `max_iter`, a body that always returns makes `loop_for` the
      left fold of the body over the items; no items gives `init`. */
  lemma ForIsFold(step: (Value, Value) -> Value, items: seq<Value>, init: Value)
    ensures ForFrom(items, (i, a) => Ok(step(i, a)), init, 0, NoneV, NoneV) == Ok(Fold(step, items, init))
    ensures items == [] ==> ForFrom(items, (i, a) => Ok(step(i, a)), init, 0, NoneV, NoneV) == Ok(init)
  {
    assert items[..0] == [];
    ForFromFold(step, items, init, 0, NoneV);
  }

  lemma {:induction false} ForFromLimit(step: (Value, Value) -> Value, items: seq<Value>, init: Value,
                                        idx: nat, m: nat)
    requires idx <= m < |items|
    ensures ForFrom(items, (i, a) => Ok(step(i, a)), Fold(step, items[..idx], init), idx, IntV(m), NoneV)
      == Raise(LimitExceeded("max_iter"))
    decreases m - idx
  {
    if idx < m {
      assert items[..idx + 1][..idx] == items[..idx];
      ForFromLimit(step, items, init, idx + 1, m);
    }
  }

  /** With `max_iter = m`, `loop_for` runs the body on the first `m` items
      and raises `LimitExceeded` before item `m`; with at most `m` items it
      is the plain fold. */
  lemma ForMaxIter(step: (Value, Value) -> Value, items: seq<Value>, init: Value, m: nat)
    ensures m < |items| ==>
      ForFrom(items, (i, a) => Ok(step(i, a)), init, 0, IntV(m), NoneV) == Raise(LimitExceeded("max_iter"))
    ensures m >= |items| ==>
      ForFrom(items, (i, a) => Ok(step(i, a)), init, 0, IntV(m), NoneV) == Ok(Fold(step, items, init))
  {
    assert items[..0] == [];
    if m < |items| {
      ForFromLimit(step, items, init, 0, m);
    } else {
      ForFromFold(step, items, init, 0, IntV(m));
    }
  }

  /** A `LoopBreak(v)` from the body ends `loop_for` with `v`, whatever the
      accumulator and the remaining items; a `LoopContinue` moves to the
      next item with the accumulator unchanged. */
  lemma ForBreakAndContinue(items: seq<Value>, body: (Value, Value) -> Outcome, acc: Value, idx: nat,
                            maxIter: Value)
    requires idx < |items| && ReachedLimit(idx, maxIter) == Ok(false)
    ensures body(items[idx], acc).Err? && body(items[idx], acc).error.LoopBreak? ==>
      ForFrom(items, body, acc, idx, maxIter, NoneV) == Ok(body(items[idx], acc).error.value)
    ensures body(items[idx], acc) == Err(LoopContinue) ==>
      ForFrom(items, body, acc, idx, maxIter, NoneV) == ForFrom(items, body, acc, idx + 1, maxIter, NoneV)
  {
  }

  /** `loop_for(range(1, 6), lambda i, acc: acc + i, 0) == 15`. */
  lemma ForSumsRange()
    ensures ForFrom(RangeItems(1, 6, 1), (i, a) => Lift(Add(a, i)), IntV(0), 0, NoneV, NoneV) == Ok(IntV(15))
  {
    var items := RangeItems(1, 6, 1);
    assert items == [IntV(1), IntV(2), IntV(3), IntV(4), IntV(5)];
    var body := (i, a) => Lift(Add(a, i));
    assert ForFrom(items, body, IntV(10), 4, NoneV, NoneV) == Ok(IntV(15));
    assert ForFrom(items, body, IntV(6), 3, NoneV, NoneV) == Ok(IntV(15));
    assert ForFrom(items, body, IntV(3), 2, NoneV, NoneV) == Ok(IntV(15));
    assert ForFrom(items, body, IntV(1), 1, NoneV, NoneV) == Ok(IntV(15));
  }

  lemma {:induction false} WhileFromLimit(test: nat -> Outcome, body: Value -> Outcome, acc: Value,
                                          count: nat, m: nat, fuel: nat)
    requires count <= m < count + fuel
    requires forall k | count <= k <= m :: test(k) == Ok(BoolV(true))
    requires forall a :: body(a).Ok? || body(a) == Err(LoopContinue)
    ensures WhileFrom(test, body, acc, count, IntV(m), NoneV, fuel) == Raise(LimitExceeded("max_iter"))
    decreases m - count
  {
    if count < m {
      var next := if body(acc).Ok? then body(acc).value else acc;
      WhileFromLimit(test, body, next, count + 1, m, fuel - 1);
    }
  }

  /** A test that stays true runs into `max_iter`: the body runs `m` times
      and the `m + 1`-th true test raises `LimitExceeded`. Iterations ended
      by `LoopContinue` count too. */
  lemma WhileMaxIter(test: nat -> Outcome, body: Value -> Outcome, init: Value, m: nat, fuel: nat)
    requires fuel > m
    requires forall k | 0 <= k <= m :: test(k) == Ok(BoolV(true))
    requires forall a :: body(a).Ok? || body(a) == Err(LoopContinue)
    ensures WhileFrom(test, body, init, 0, IntV(m), NoneV, fuel) == Raise(LimitExceeded("max_iter"))
  {
    WhileFromLimit(test, body, init, 0, m, fuel);
  }

  /** A false first test returns `init` without running the body; a
      `LoopBreak(v)` from the body returns `v`. */
  lemma WhileEnds(test: nat -> Outcome, body: Value -> Outcome, init: Value, maxIter: Value, fuel: nat)
    requires fuel > 0
    ensures test(0).Ok? && !Truthy(test(0).value) ==>
      WhileFrom(test, body, init, 0, maxIter, NoneV, fuel) == Ok(init)
    ensures (test(0).Ok? && Truthy(test(0).value) && ReachedLimit(0, maxIter) == Ok(false)
             && body(init).Err? && body(init).error.LoopBreak?) ==>
      WhileFrom(test, body, init, 0, maxIter, NoneV, fuel) == Ok(body(init).error.value)
  {
  }

  /** At any count below the limit with the test true, a `LoopBreak(v)` from
      the body ends `loop_while` with `v`, and a `LoopContinue` moves on to the
      next count with the accumulator unchanged. */
  lemma WhileBreakAndContinue(test: nat -> Outcome, body: Value -> Outcome, acc: Value, count: nat,
                              maxIter: Value, fuel: nat)
    requires fuel > 0 && test(count).Ok? && Truthy(test(count).value)
    requires ReachedLimit(count, maxIter) == Ok(false)
    ensures body(acc).Err? && body(acc).error.LoopBreak? ==>
      WhileFrom(test, body, acc, count, maxIter, NoneV, fuel) == Ok(body(acc).error.value)
    ensures body(acc) == Err(LoopContinue) ==>
      WhileFrom(test, body, acc, count, maxIter, NoneV, fuel)
        == WhileFrom(test, body, acc, count + 1, maxIter, NoneV, fuel - 1)
  {
  }

  // ---------------------------------------------------------------------------
  // Properties of op

  lemma {:induction false} RepeatLength(s: string, n: int)
    ensures |Repeat(s, n)| == if n <= 0 then 0 else |s| * n
    decreases if n > 0 then n else 0
  {
    if n > 0 {
      RepeatLength(s, n - 1);
    }
  }

  /** `op.ne` is the negation of `op.eq`; `op.gt`/`op.ge` are `op.lt`/`op.le`
      with the operands swapped. */
  lemma ComparisonsAgree(a: Value, b: Value)
    ensures Equal(a, b).Ok? ==> Ne(a, b) == Ok(BoolV(!Equal(a, b).value)) && Eq(a, b) == Ok(BoolV(Equal(a, b).value))
    ensures Gt(a, b) == Lt(b, a) && Ge(a, b) == Le(b, a)
  {
  }

  /** `op.eq` is symmetric. */
  lemma EqualSymmetric(a: Value, b: Value)
    ensures Equal(a, b) == Equal(b, a)
  {
  }

  /** Exactly one of `a < b`, `a == b`, `b < a` holds for two numbers or two
      strings. */
  lemma {:induction false} OrderTrichotomy(a: Value, b: Value)
    requires (AsInt(a).Some? && AsInt(b).Some?) || (a.StrV? && b.StrV?)
    ensures Order(a, b, true).Ok? && Order(b, a, true).Ok? && Equal(a, b).Ok?
    ensures [Order(a, b, true).value, Equal(a, b).value, Order(b, a, true).value] in
      {[true, false, false], [false, true, false], [false, false, true]}
  {
    if a.StrV? && b.StrV? {
      LessTotal(a.s, b.s);
      LessIrreflexive(a.s);
      if Less(a.s, b.s) && Less(b.s, a.s) {
        LessTransitive(a.s, b.s, a.s);
      }
    }
  }

  /** `s * n` has `n` copies of `s`, for the string on either side. */
  lemma MulRepeats(s: string, n: int)
    ensures Mul(StrV(s), IntV(n)) == Mul(IntV(n), StrV(s)) == Ok(StrV(Repeat(s, n)))
    ensures |Repeat(s, n)| == if n <= 0 then 0 else |s| * n
  {
    RepeatLength(s, n);
  }
}
