/** The `ASTBuilder` reductions of aissembly_core/parser.py: how grammar matches
    become nodes. Every operator becomes an `op.*` call, trailers fold into
    `op.get`/`op.slice` calls, and a call's arguments are split into positional
    arguments and a keyword dict. Reductions that only wrap their children in one
    node (`let_stmt`, `var`, `true`, `while_loop`, `cond_block`, ...) are the
    constructors of `CoreAst.Node` themselves. */
module CoreBuilder {
  import opened Basics
  import opened PyStr
  import opened CoreAst

  /** An argument as `named_arg` and `positional_arg` hand it to `call`. */
  datatype Argument = Positional(value: Node) | Named(name: string, value: Node)

  /** A trailer as `index` and `slice` hand it to `atom`. */
  datatype Trailer = Index(index: Node) | Slice(start: Node, end: Node)

  datatype CompOp = Eq | Neq | Lt | Le | Gt | Ge

  /** The infix reductions `add` ... `mod`, `comparison`, `and_op`, `or_op`. */
  datatype InfixOp = Add | Sub | Mul | Div | Mod | Land | Lor | Compare(comp: CompOp)

  /** The suffix after `op.` of the call an operator becomes. */
  function InfixName(op: InfixOp): string {
    match op
    case Add => "add"
    case Sub => "sub"
    case Mul => "mul"
    case Div => "div"
    case Mod => "mod"
    case Land => "land"
    case Lor => "lor"
    case Compare(Eq) => "eq"
    case Compare(Neq) => "neq"
    case Compare(Lt) => "lt"
    case Compare(Le) => "le"
    case Compare(Gt) => "gt"
    case Compare(Ge) => "ge"
  }

  function BuildInfix(op: InfixOp, left: Node, right: Node): Node {
    Call("op." + InfixName(op), [left, right], [])
  }

  /** `-x` is subtraction from the literal zero. */
  function BuildNeg(x: Node): Node {
    Call("op.sub", [Number(0), x], [])
  }

  function BuildNot(x: Node): Node {
    Call("op.lnot", [x], [])
  }

  /** `comparison`: a lone operand passes through unchanged. */
  function BuildComparison(left: Node, rest: Option<(CompOp, Node)>): (r: Node)
    ensures rest.None? ==> r == left
    ensures rest.Some? ==> r == BuildInfix(Compare(rest.value.0), left, rest.value.1)
  {
    match rest
    case None => left
    case Some((c, right)) => BuildInfix(Compare(c), left, right)
  }

  /** Distinct operators become calls to distinct names, each with exactly two
      positional arguments and no keyword arguments. */
  lemma InfixCallShape(op1: InfixOp, op2: InfixOp, a: Node, b: Node, c: Node, d: Node)
    ensures BuildInfix(op1, a, b).args == [a, b] && BuildInfix(op1, a, b).kwargs == []
    ensures BuildInfix(op1, a, b).name == BuildInfix(op2, c, d).name <==> op1 == op2
  {
    var n1 := BuildInfix(op1, a, b).name;
    var n2 := BuildInfix(op2, c, d).name;
    if n1 == n2 {
      assert n1[3..] == InfixName(op1) && n2[3..] == InfixName(op2);
    }
  }

  /** `number`: a token with `.`, `e` or `E` is a float, which the model does
      not carry; any other token is read by `int()`. */
  function BuildNumber(token: string): (r: Result<Node, CoreError>)
    ensures r.Ok? ==> r.value.Number? && IsSignedInt(token) && r.value.num == ParseSignedInt(token)
    ensures IsSignedInt(token) ==> r == Ok(Number(ParseSignedInt(token)))
    ensures r.Err? ==> ('.' in token || 'e' in token || 'E' in token) == r.error.Unmodelled?
  {
    SignedIntIsNotFloat(token);
    if '.' in token || 'e' in token || 'E' in token then Err(Unmodelled("float literal"))
    else if IsSignedInt(token) then Ok(Number(ParseSignedInt(token)))
    else Err(ValueError("invalid literal for int()"))
  }

  /** The decimal spelling of an integer reduces back to that integer. */
  lemma BuildNumberOfIntToString(i: int)
    ensures BuildNumber(IntToString(i)) == Ok(Number(i))
  {
    var s := IntToString(i);
    IntToStringRoundTrip(i);
    var digits := if i < 0 then NatToString(-i) else NatToString(i);
    assert forall k :: 0 <= k < |s| ==> s[k] == '-' || IsDigit(s[k]) by {
      if i < 0 {
        assert forall k :: 1 <= k < |s| ==> s[k] == digits[k - 1];
      }
    }
  }

  /** An integer spelling holds no `.`, `e` or `E`. */
  lemma SignedIntIsNotFloat(token: string)
    ensures IsSignedInt(token) ==> !('.' in token || 'e' in token || 'E' in token)
  {
    if IsSignedInt(token) && (token[0] == '+' || token[0] == '-') {
      assert forall k :: 1 <= k < |token| ==> token[k] == token[1..][k - 1];
    }
  }

  /** `SIGNED_NUMBER` admits a leading `+` and leading zeros, and `int()`
      reads both. */
  lemma SignedSpellings()
    ensures BuildNumber("+5") == Ok(Number(5))
    ensures BuildNumber("007") == Ok(Number(7))
    ensures BuildNumber("-40") == Ok(Number(-40))
  {
    assert "007"[..2] == "00" && "00"[..1] == "0" && "0"[..0] == "";
    assert DigitsValue("007") == 7;
    assert "40"[..1] == "4" && "4"[..0] == "";
    assert "-40"[1..] == "40" && "+5"[1..] == "5";
  }

  /** `string`: the token with its first and last character (the quotes)
      dropped, escapes left as written. */
  function BuildString(token: string): (r: Node)
    ensures r.String? && |r.text| == if |token| < 2 then 0 else |token| - 2
  {
    if |token| < 2 then String("") else String(token[1..|token| - 1])
  }

  lemma BuildStringOfQuoted(s: string)
    ensures BuildString("\"" + s + "\"") == String(s)
  {
    assert ("\"" + s + "\"")[1..|s| + 1] == s;
  }

  /** `list_lit`: with no elements the grammar's optional group hands over a
      single `None`, so `[]` becomes a one-element list holding `None`. */
  function BuildList(elements: Option<seq<Node>>): (r: Node)
    ensures r.ListLiteral? && (|r.elements| >= 1 || elements == Some([]))
    ensures elements.None? ==> r == ListLiteral([NoneNode])
    ensures elements.Some? ==> r == ListLiteral(elements.value)
  {
    match elements
    case None => ListLiteral([NoneNode])
    case Some(es) => ListLiteral(es)
  }

  /** `dict_lit`: the placeholder `None` of `{}` is dropped. */
  function BuildDict(pairs: Option<seq<Pair>>): (r: Node)
    ensures r.DictLiteral?
    ensures r.items == if pairs.None? then [] else pairs.value
  {
    match pairs
    case None => DictLiteral([])
    case Some(ps) => DictLiteral(ps)
  }

  /** `for_loop`: four children leave the step out, which then defaults to 1. */
  function BuildFor(items: seq<Node>): (r: Node)
    requires |items| == 4 || |items| == 5
    ensures r.ForLoop? && r.start == items[0] && r.end == items[1]
    ensures r.body == items[|items| - 1] && r.init == items[|items| - 2]
    ensures r.step == if |items| == 5 then items[2] else Number(1)
  {
    if |items| == 5 then ForLoop(items[0], items[1], items[2], items[3], items[4])
    else ForLoop(items[0], items[1], Number(1), items[2], items[3])
  }

  // ---------------------------------------------------------------------------
  // call

  /** The positional arguments and keyword dict `call` accumulates over `items`. */
  function SplitArguments(items: seq<Argument>): (r: (seq<Node>, seq<KwArg>))
    ensures DistinctKeys(r.1)
  {
    if items == [] then ([], [])
    else
      var prev := SplitArguments(items[..|items| - 1]);
      match items[|items| - 1]
      case Positional(v) => (prev.0 + [v], prev.1)
      case Named(n, v) => (prev.0, PutKw(prev.1, n, v))
  }

  /** One step of the accumulation: the last item goes to the positional
      list or the keyword dict. */
  lemma SplitStep(items: seq<Argument>)
    requires items != []
    ensures var prev := SplitArguments(items[..|items| - 1]);
      var last := items[|items| - 1];
      SplitArguments(items) ==
        if last.Positional? then (prev.0 + [last.value], prev.1)
        else (prev.0, PutKw(prev.1, last.name, last.value))
  {
  }

  /** The positional list after one step. */
  lemma PositionalStep(items: seq<Argument>, init: seq<Argument>, last: Argument)
    requires items != [] && init == items[..|items| - 1] && last == items[|items| - 1]
    ensures SplitArguments(items).0 == SplitArguments(init).0 + (if last.Positional? then [last.value] else [])
  {
    SplitStep(items);
  }

  /** Looking a key up after one step: the last item wins if it names it. */
  lemma LookupStep(items: seq<Argument>, key: string)
    requires items != []
    ensures LookupKw(SplitArguments(items).1, key) ==
      if NamedAs(items[|items| - 1], key) then Some(items[|items| - 1].value)
      else LookupKw(SplitArguments(items[..|items| - 1]).1, key)
  {
    SplitStep(items);
  }

  /** Some item of `items` is named `key` exactly when some item before the
      last one is, or the last one is. */
  lemma NamedSplit(items: seq<Argument>, init: seq<Argument>, key: string)
    requires items != [] && init == items[..|items| - 1]
    ensures (exists i :: 0 <= i < |items| && NamedAs(items[i], key)) <==>
      (exists i :: 0 <= i < |init| && NamedAs(init[i], key)) || NamedAs(items[|items| - 1], key)
  {
    assert forall i :: 0 <= i < |init| ==> items[i] == init[i];
  }

  /** The positional arguments of `items`, in source order. */
  function Positionals(items: seq<Argument>): seq<Node> {
    if items == [] then []
    else (if items[0].Positional? then [items[0].value] else []) + Positionals(items[1..])
  }

  lemma {:induction false} PositionalsAppend(items: seq<Argument>, x: Argument)
    ensures Positionals(items + [x]) == Positionals(items) + (if x.Positional? then [x.value] else [])
  {
    if items != [] {
      assert (items + [x])[1..] == items[1..] + [x];
      PositionalsAppend(items[1..], x);
    }
  }

  /** Positional arguments keep their source order, whatever keyword
      arguments are interleaved with them. */
  lemma {:induction false} SplitArgumentsPositional(items: seq<Argument>)
    ensures SplitArguments(items).0 == Positionals(items)
  {
    if items != [] {
      var init, last := items[..|items| - 1], items[|items| - 1];
      PositionalStep(items, init, last);
      SplitArgumentsPositional(init);
      PositionalsAppend(init, last);
      assert init + [last] == items;
    }
  }

  predicate NamedAs(a: Argument, key: string) {
    a.Named? && a.name == key
  }

  /** `items[i]` is the last argument named `key`. */
  predicate LastNamed(items: seq<Argument>, key: string, i: int) {
    0 <= i < |items| && NamedAs(items[i], key) &&
    forall j :: i < j < |items| ==> !NamedAs(items[j], key)
  }

  /** A repeated keyword keeps the value of its last occurrence. */
  lemma {:induction false} SplitArgumentsLastWins(items: seq<Argument>, key: string, i: int)
    requires LastNamed(items, key, i)
    ensures LookupKw(SplitArguments(items).1, key) == Some(items[i].value)
  {
    var n := |items| - 1;
    LookupStep(items, key);
    if i < n {
      var init := items[..n];
      assert !NamedAs(items[n], key);
      assert LastNamed(init, key, i) by {
        forall j | i < j < |init| ensures !NamedAs(init[j], key) {
          assert init[j] == items[j];
        }
      }
      SplitArgumentsLastWins(init, key, i);
      assert init[i] == items[i];
    }
  }

  /** Exactly the names that were passed appear as keywords. */
  lemma {:induction false} SplitArgumentsKeys(items: seq<Argument>, key: string)
    ensures LookupKw(SplitArguments(items).1, key).Some? <==>
      exists i :: 0 <= i < |items| && NamedAs(items[i], key)
  {
    if items != [] {
      var n := |items| - 1;
      var init := items[..n];
      LookupStep(items, key);
      SplitArgumentsKeys(init, key);
      NamedSplit(items, init, key);
    }
  }

  /** `call`: with no argument list the grammar hands over `None`, and iterating
      it raises; otherwise named arguments go to the keyword dict and the rest
      stay positional. */
  method BuildCall(name: string, arguments: Option<seq<Argument>>) returns (r: Result<Node, CoreError>)
    ensures arguments.None? ==> r == Err(TypeError("'NoneType' object is not iterable"))
    ensures arguments.Some? ==> r == Ok(Call(name, SplitArguments(arguments.value).0, SplitArguments(arguments.value).1))
  {
    if arguments.None? {
      return Err(TypeError("'NoneType' object is not iterable"));
    }
    var items := arguments.value;
    var args: seq<Node> := [];
    var kwargs: seq<KwArg> := [];
    for i := 0 to |items|
      invariant (args, kwargs) == SplitArguments(items[..i])
    {
      assert items[..i + 1][..i] == items[..i];
      match items[i]
      case Named(n, v) =>
        kwargs := PutKw(kwargs, n, v);
      case Positional(v) =>
        args := args + [v];
    }
    assert items[..|items|] == items;
    r := Ok(Call(name, args, kwargs));
  }

  /** The `call` reduction as `builder.transform` runs it: Lark's
      `Transformer` catches what a reduction raises and raises `VisitError`
      in its place, so for `f()` the caller of `transform` sees the
      `TypeError` only inside a `VisitError` of the rule `call`. */
  method TransformCall(name: string, arguments: Option<seq<Argument>>) returns (r: Result<Node, CoreError>)
    ensures arguments.None? ==> r == Err(VisitError("call", TypeError("'NoneType' object is not iterable")))
    ensures arguments.Some? ==> r == Ok(Call(name, SplitArguments(arguments.value).0, SplitArguments(arguments.value).1))
  {
    r := BuildCall(name, arguments);
    if r.Err? {
      r := Err(VisitError("call", r.error));
    }
  }

  // ---------------------------------------------------------------------------
  // atom, index, slice

  /** `slice`: absent bounds are left out of the children, so the first present
      bound becomes `start` and the second `end`; missing ones are `None`. */
  function BuildSlice(bounds: seq<Node>): (t: Trailer)
    requires |bounds| <= 2
    ensures t.Slice?
    ensures t.start == if |bounds| > 0 then bounds[0] else NoneNode
    ensures t.end == if |bounds| > 1 then bounds[1] else NoneNode
  {
    Slice(if |bounds| > 0 then bounds[0] else NoneNode, if |bounds| > 1 then bounds[1] else NoneNode)
  }

  function ApplyTrailer(node: Node, t: Trailer): Node {
    match t
    case Index(i) => Call("op.get", [node, i], [])
    case Slice(s, e) => Call("op.slice", [node, s, e], [])
  }

  /** The node `atom` builds: trailers applied left to right onto the primary. */
  function FoldTrailers(primary: Node, trailers: seq<Trailer>): Node {
    if trailers == [] then primary
    else ApplyTrailer(FoldTrailers(primary, trailers[..|trailers| - 1]), trailers[|trailers| - 1])
  }

  method BuildAtom(primary: Node, trailers: seq<Trailer>) returns (node: Node)
    ensures node == FoldTrailers(primary, trailers)
  {
    node := primary;
    for i := 0 to |trailers|
      invariant node == FoldTrailers(primary, trailers[..i])
    {
      assert trailers[..i + 1][..i] == trailers[..i];
      match trailers[i]
      case Index(ix) =>
        node := Call("op.get", [node, ix], []);
      case Slice(s, e) =>
        node := Call("op.slice", [node, s, e], []);
    }
    assert trailers[..|trailers|] == trailers;
  }

  /** `x[:e]` puts `e` in the start position: the slice keeps no record of
      which side of the colon a bound stood on. */
  lemma SliceBoundsShift(x: Node, e: Node)
    ensures FoldTrailers(x, [BuildSlice([e])]) == Call("op.slice", [x, e, NoneNode], [])
  {
    assert [BuildSlice([e])][..0] == [];
  }
}
