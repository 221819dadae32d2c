/** The closed abstract syntax of the `aissembly_core` front end: the node
    classes of aissembly_core/parser.py, and the exceptions its later stages raise. */
module CoreAst {
  import opened Basics

  /** One node class per constructor. `NoneNode` is Python's `None` where the
      parser leaves it as a child (an absent slice bound, an empty list's
      placeholder). A `Call`'s keyword arguments are a Python dict: an
      insertion-ordered list of distinct keys. */
  datatype Node =
    | LetStmt(name: string, expr: Node)
    | Var(name: string)
    | Number(num: int)
    | String(text: string)
    | Boolean(truth: bool)
    | ListLiteral(elements: seq<Node>)
    | DictLiteral(items: seq<Pair>)
    | Call(name: string, args: seq<Node>, kwargs: seq<KwArg>)
    | ForLoop(start: Node, end: Node, step: Node, init: Node, body: Node)
    | WhileLoop(test: Node, init: Node, body: Node)
    | Cond(test: Node, thenBranch: Node, elseBranch: Node)
    | NoneNode

  datatype KwArg = KwArg(key: string, value: Node)

  datatype Pair = Pair(key: Node, value: Node)

  /** The exceptions of the core front end. `VisitError` is Lark's wrapper
      around an exception raised inside a reduction, naming the rule.
      `Unmodelled` stands for behaviour outside the model (floating point,
      `%`-formatting of strings). */
  datatype CoreError =
    | SyntaxError(msg: string)
    | TypeError(msg: string)
    | ValueError(msg: string)
    | KeyError(key: string)
    | ZeroDivisionError
    | AttributeError(msg: string)
    | VisitError(rule: string, orig: CoreError)
    | Unmodelled(what: string)

  /** `type(n).__name__`; `None` is of class `NoneType`. */
  function ClassName(n: Node): string {
    match n
    case LetStmt(_, _) => "LetStmt"
    case Var(_) => "Var"
    case Number(_) => "Number"
    case String(_) => "String"
    case Boolean(_) => "Boolean"
    case ListLiteral(_) => "ListLiteral"
    case DictLiteral(_) => "DictLiteral"
    case Call(_, _, _) => "Call"
    case ForLoop(_, _, _, _, _) => "ForLoop"
    case WhileLoop(_, _, _) => "WhileLoop"
    case Cond(_, _, _) => "Cond"
    case NoneNode => "NoneType"
  }

  predicate DistinctKeys(kw: seq<KwArg>) {
    forall i, j :: 0 <= i < j < |kw| ==> kw[i].key != kw[j].key
  }

  /** `kwargs.get(key)`. */
  function LookupKw(kw: seq<KwArg>, key: string): (r: Option<Node>)
    ensures r.Some? <==> exists i :: 0 <= i < |kw| && kw[i].key == key
    ensures r.Some? ==> KwArg(key, r.value) in kw
  {
    if kw == [] then None
    else if kw[0].key == key then Some(kw[0].value)
    else
      var r := LookupKw(kw[1..], key);
      assert forall i :: 0 < i < |kw| ==> kw[i] == kw[1..][i - 1];
      r
  }

  /** `kwargs[key] = value`: an existing key keeps its position and takes the
      new value, a new key is appended. */
  function PutKw(kw: seq<KwArg>, key: string, value: Node): (r: seq<KwArg>)
    ensures LookupKw(r, key) == Some(value)
    ensures forall k :: k != key ==> LookupKw(r, k) == LookupKw(kw, k)
    ensures DistinctKeys(kw) ==> DistinctKeys(r)
    ensures |r| == if LookupKw(kw, key).Some? then |kw| else |kw| + 1
  {
    if kw == [] then [KwArg(key, value)]
    else if kw[0].key == key then [KwArg(key, value)] + kw[1..]
    else
      var t := PutKw(kw[1..], key, value);
      PutKwKeepsHead(kw, key, t);
      [kw[0]] + t
  }

  /** Updating past the first entry leaves that entry's key the only one of
      its kind. */
  lemma PutKwKeepsHead(kw: seq<KwArg>, key: string, t: seq<KwArg>)
    requires kw != [] && kw[0].key != key
    requires forall k :: k != key ==> LookupKw(t, k) == LookupKw(kw[1..], k)
    requires DistinctKeys(kw[1..]) ==> DistinctKeys(t)
    ensures DistinctKeys(kw) ==> DistinctKeys([kw[0]] + t)
  {
    if DistinctKeys(kw) {
      assert DistinctKeys(kw[1..]);
      forall i | 0 <= i < |t| ensures t[i].key != kw[0].key {
        if t[i].key != key {
          assert LookupKw(t, t[i].key).Some?;
          var j :| 0 <= j < |kw[1..]| && kw[1..][j].key == t[i].key;
          assert kw[j + 1].key == t[i].key;
        }
      }
      var r := [kw[0]] + t;
      forall i, j | 0 <= i < j < |r| ensures r[i].key != r[j].key {
        if i > 0 {
          assert r[i] == t[i - 1] && r[j] == t[j - 1];
        } else {
          assert r[j] == t[j - 1];
        }
      }
    }
  }
}
