/** The prompt-sharpening pass of
    aissembly_core/optimizations/accuracy_opt_passes.py: every `prompt`
    keyword argument found in a statement has its text replaced by an
    oracle's rewrite of it. The oracle is a parameter taking the system text
    and the prompt text. */
module AccuracyPass {
  import opened Basics
  import opened PyStr
  import opened CoreAst
  import opened CoreExec

  // ---------------------------------------------------------------------------
  // The walk: `find_key_with_path(stmt, 'prompt')`

  /** The values of the `prompt` entries of every keyword dict in `n`, in the
      order the walk yields them. The walk visits the fields of each node in
      declaration order, list elements and dict-literal pairs in order, and a
      keyword dict's own `prompt` entry before the values of the dict. */
  function PromptValues(n: Node): seq<Node>
    decreases n, 1
  {
    match n
    case LetStmt(_, e) => PromptValues(e)
    case ListLiteral(es) => PromptValuesOfAll(es)
    case DictLiteral(ps) => PromptValuesOfPairs(ps)
    case Call(_, args, kw) => PromptValuesOfAll(args) + OwnPrompt(kw) + PromptValuesOfKw(kw)
    case ForLoop(s, e, st, i, b) =>
      PromptValues(s) + PromptValues(e) + PromptValues(st) + PromptValues(i) + PromptValues(b)
    case WhileLoop(t, i, b) => PromptValues(t) + PromptValues(i) + PromptValues(b)
    case Cond(t, a, b) => PromptValues(t) + PromptValues(a) + PromptValues(b)
    case _ => []
  }

  /** The entry `prompt` of a keyword dict itself, when there is one. */
  function OwnPrompt(kw: seq<KwArg>): seq<Node> {
    match LookupKw(kw, "prompt")
    case Some(v) => [v]
    case None => []
  }

  function PromptValuesOfAll(es: seq<Node>): seq<Node>
    decreases es, 0
  {
    if es == [] then [] else PromptValues(es[0]) + PromptValuesOfAll(es[1..])
  }

  function PromptValuesOfPairs(ps: seq<Pair>): seq<Node>
    decreases ps, 0
  {
    if ps == [] then [] else PromptValuesOfPair(ps[0]) + PromptValuesOfPairs(ps[1..])
  }

  function PromptValuesOfPair(p: Pair): seq<Node>
    decreases p, 0
  {
    PromptValues(p.key) + PromptValues(p.value)
  }

  function PromptValuesOfKw(kw: seq<KwArg>): seq<Node>
    decreases kw, 0
  {
    if kw == [] then [] else PromptValues(kw[0].value) + PromptValuesOfKw(kw[1..])
  }

  // ---------------------------------------------------------------------------
  // The update: `node.value = val` at every prompt found

  /** `n` with the text of every `String` held by a `prompt` entry replaced
      by `f` of it, and nothing else changed. */
  function Prompted(n: Node, f: string -> string): Node
    decreases n, 1
  {
    match n
    case LetStmt(x, e) => LetStmt(x, Prompted(e, f))
    case ListLiteral(es) => ListLiteral(PromptedAll(es, f))
    case DictLiteral(ps) => DictLiteral(PromptedPairs(ps, f))
    case Call(name, args, kw) => Call(name, PromptedAll(args, f), PromptedKw(kw, f))
    case ForLoop(s, e, st, i, b) =>
      ForLoop(Prompted(s, f), Prompted(e, f), Prompted(st, f), Prompted(i, f), Prompted(b, f))
    case WhileLoop(t, i, b) => WhileLoop(Prompted(t, f), Prompted(i, f), Prompted(b, f))
    case Cond(t, a, b) => Cond(Prompted(t, f), Prompted(a, f), Prompted(b, f))
    case _ => n
  }

  function PromptedAll(es: seq<Node>, f: string -> string): (r: seq<Node>)
    ensures |r| == |es|
    decreases es, 0
  {
    if es == [] then [] else [Prompted(es[0], f)] + PromptedAll(es[1..], f)
  }

  function PromptedPairs(ps: seq<Pair>, f: string -> string): (r: seq<Pair>)
    ensures |r| == |ps|
    decreases ps, 0
  {
    if ps == [] then []
    else [PromptedPair(ps[0], f)] + PromptedPairs(ps[1..], f)
  }

  function PromptedPair(p: Pair, f: string -> string): Pair
    decreases p, 0
  {
    Pair(Prompted(p.key, f), Prompted(p.value, f))
  }

  /** The new value of one keyword entry. */
  function PromptedEntry(key: string, v: Node, f: string -> string): Node
    decreases v, 2
  {
    if key == "prompt" && v.String? then String(f(v.text)) else Prompted(v, f)
  }

  function PromptedKw(kw: seq<KwArg>, f: string -> string): (r: seq<KwArg>)
    ensures |r| == |kw| && forall k :: 0 <= k < |kw| ==> r[k].key == kw[k].key
    decreases kw, 0
  {
    if kw == [] then []
    else [KwArg(kw[0].key, PromptedEntry(kw[0].key, kw[0].value, f))] + PromptedKw(kw[1..], f)
  }

  // ---------------------------------------------------------------------------
  // The oracle call and the `</think>` filter

  const Think := "</think>"

  const SystemText := "You are a professional prompt engineer. Only to make the prompt more sophisticated."

  const Instruction := "Sophistically engineer the GIVEN PROMPT. Output nothing more than the prompt only. No explaination. Mind that this is only a prompt engineering, not answering the prompt. Only make the GIVEN PROMPT more sophisticated.\n                GIVEN PROMPT: "

  /** `val.split('</think>')[1].strip()` when the reply holds the marker, the
      reply unchanged otherwise. */
  function ThinkFilter(reply: string): string {
    if Contains(reply, Think) then
      SplitOnPieces(reply, Think);
      Strip(SplitOn(reply, Think)[1])
    else reply
  }

  /** The text after the first marker, up to the next marker or the end. */
  function AfterFirstMarker(reply: string): string
    requires Contains(reply, Think)
  {
    var rest := reply[FindFrom(reply, Think, 0).value + |Think|..];
    match FindFrom(rest, Think, 0)
    case Some(j) => rest[..j]
    case None => rest
  }

  /** The replacement text of one prompt. */
  function Refine(oracle: (string, string) -> string, text: string): string {
    ThinkFilter(oracle(SystemText, Instruction + text))
  }

  function Refiner(oracle: (string, string) -> string): string -> string {
    t => Refine(oracle, t)
  }

  // ---------------------------------------------------------------------------
  // Errors: reading `node.value` of a prompt that is not a `String`

  /** `'…GIVEN PROMPT: ' + node.value`: a `Number` or `Boolean` holds a
      non-string value, and the other nodes have no `value` attribute. */
  function SiteText(v: Node): (r: Result<string, CoreError>)
    ensures r.Ok? <==> v.String?
    ensures r.Ok? ==> r.value == v.text
    ensures r.Err? ==> (r.error.TypeError? <==> v.Number? || v.Boolean?)
  {
    match v
    case String(t) => Ok(t)
    case Number(_) => Err(TypeError("can only concatenate str (not \"int\") to str"))
    case Boolean(_) => Err(TypeError("can only concatenate str (not \"bool\") to str"))
    case _ => Err(AttributeError("'" + ClassName(v) + "' object has no attribute 'value'"))
  }

  predicate AllText(vs: seq<Node>) {
    forall k :: 0 <= k < |vs| ==> vs[k].String?
  }

  /** The error of the first prompt in `vs` that is not a `String`. */
  function FirstError(vs: seq<Node>): (r: Option<CoreError>)
    ensures r.None? <==> AllText(vs)
    ensures r.Some? ==> exists k :: 0 <= k < |vs| && AllText(vs[..k]) && SiteText(vs[k]) == Err(r.value)
  {
    if vs == [] then None
    else if !vs[0].String? then
      assert AllText(vs[..0]);
      Some(SiteText(vs[0]).error)
    else
      var r := FirstError(vs[1..]);
      AllTextCons(vs);
      if r.Some? then
        var k :| 0 <= k < |vs[1..]| && AllText(vs[1..][..k]) && SiteText(vs[1..][k]) == Err(r.value);
        AllTextShift(vs, k);
        r
      else r
  }

  /** A list of prompts is all text when its head is and its tail is. */
  lemma AllTextCons(vs: seq<Node>)
    requires vs != []
    ensures AllText(vs) <==> vs[0].String? && AllText(vs[1..])
  {
    assert forall k :: 0 < k < |vs| ==> vs[k] == vs[1..][k - 1];
  }

  lemma AllTextShift(vs: seq<Node>, k: nat)
    requires vs != [] && vs[0].String? && k < |vs| - 1 && AllText(vs[1..][..k])
    ensures AllText(vs[..k + 1]) && vs[k + 1] == vs[1..][k]
  {
    assert vs[..k + 1] == [vs[0]] + vs[1..][..k];
  }

  /** The first prompt that is not a `String` decides the error. */
  lemma {:induction false} FirstErrorAt(vs: seq<Node>, j: nat)
    requires j < |vs| && AllText(vs[..j]) && !vs[j].String?
    ensures FirstError(vs) == Some(SiteText(vs[j]).error)
  {
    if j > 0 {
      assert vs[0] == vs[..j][0];
      assert vs[1..][..j - 1] == vs[..j][1..];
      FirstErrorAt(vs[1..], j - 1);
    }
  }

  /** Prompts that are all strings, put in front, do not change the first error. */
  lemma {:induction false} FirstErrorSkip(a: seq<Node>, b: seq<Node>)
    requires AllText(a)
    ensures FirstError(a + b) == FirstError(b)
  {
    if a != [] {
      assert (a + b)[0] == a[0];
      assert (a + b)[1..] == a[1..] + b;
      AllTextCons(a);
      FirstErrorSkip(a[1..], b);
    } else {
      assert a + b == b;
    }
  }

  /** Prompts put behind an error do not change it. */
  lemma FirstErrorKeep(a: seq<Node>, b: seq<Node>)
    requires FirstError(a).Some?
    ensures FirstError(a + b) == FirstError(a)
  {
    var k :| 0 <= k < |a| && AllText(a[..k]) && SiteText(a[k]) == Err(FirstError(a).value);
    FirstErrorAt(a, k);
    assert (a + b)[..k] == a[..k] && (a + b)[k] == a[k];
    FirstErrorAt(a + b, k);
  }

  /** An error after prompts that are all strings is the first error,
      whatever follows it. */
  lemma FirstErrorInside(a: seq<Node>, b: seq<Node>, c: seq<Node>)
    requires AllText(a) && FirstError(b).Some?
    ensures FirstError(a + b + c) == FirstError(b)
  {
    FirstErrorKeep(b, c);
    FirstErrorSkip(a, b + c);
    assert a + b + c == a + (b + c);
  }

  // ---------------------------------------------------------------------------
  // The pass

  /** The outcome of the pass on one statement. */
  function RewriteStmt(oracle: (string, string) -> string, n: Node): Result<Node, CoreError> {
    match FirstError(PromptValues(n))
    case Some(e) => Err(e)
    case None => Ok(Prompted(n, Refiner(oracle)))
  }

  /** The outcome of the pass on a program: the statements rewritten in
      order, or the first error met. */
  function RewriteProgram(oracle: (string, string) -> string, stmts: seq<Node>): (r: Result<seq<Node>, CoreError>)
    ensures r.Ok? <==> forall i :: 0 <= i < |stmts| ==> AllText(PromptValues(stmts[i]))
    ensures r.Ok? ==> |r.value| == |stmts|
    ensures r.Ok? ==> forall i :: 0 <= i < |stmts| ==> RewriteStmt(oracle, stmts[i]) == Ok(r.value[i])
  {
    if stmts == [] then Ok([])
    else
      var head :- RewriteStmt(oracle, stmts[0]);
      var tail :- RewriteProgram(oracle, stmts[1..]);
      assert forall i :: 0 < i < |stmts| ==> stmts[i] == stmts[1..][i - 1];
      Ok([head] + tail)
  }

  function Prefixed(done: seq<Node>, r: Result<seq<Node>, CoreError>): Result<seq<Node>, CoreError> {
    match r
    case Ok(rest) => Ok(done + rest)
    case Err(e) => Err(e)
  }

  /** One statement rewritten: the rest of the program follows it. */
  lemma ProgramStep(oracle: (string, string) -> string, stmts: seq<Node>, i: nat, done: seq<Node>)
    requires i < |stmts|
    ensures RewriteStmt(oracle, stmts[i]).Ok? ==>
      Prefixed(done, RewriteProgram(oracle, stmts[i..]))
        == Prefixed(done + [RewriteStmt(oracle, stmts[i]).value], RewriteProgram(oracle, stmts[i + 1..]))
    ensures RewriteStmt(oracle, stmts[i]).Err? ==>
      Prefixed(done, RewriteProgram(oracle, stmts[i..])) == Err(RewriteStmt(oracle, stmts[i]).error)
  {
    assert stmts[i..][0] == stmts[i];
    assert stmts[i..][1..] == stmts[i + 1..];
    var rest := RewriteProgram(oracle, stmts[i + 1..]);
    if RewriteStmt(oracle, stmts[i]).Ok? && rest.Ok? {
      var h := RewriteStmt(oracle, stmts[i]).value;
      assert RewriteProgram(oracle, stmts[i..]) == Ok([h] + rest.value);
      assert done + ([h] + rest.value) == done + [h] + rest.value;
    }
  }

  /** The inner loop over the prompts the walk yields in one statement:
      reading `node.value` of the first prompt that is not a `String` fails. */
  method ReadSites(sites: seq<Node>) returns (err: Option<CoreError>)
    ensures err == FirstError(sites)
  {
    for j := 0 to |sites|
      invariant AllText(sites[..j])
    {
      var read := SiteText(sites[j]);
      if read.Err? {
        FirstErrorAt(sites, j);
        return Some(read.error);
      }
      assert sites[..j + 1] == sites[..j] + [sites[j]];
    }
    assert sites[..|sites|] == sites;
    return None;
  }

  /** `accuracy_opt_passes_optimization` after the oracle has been chosen:
      the statements in order, and in each the prompts the walk yields, in
      order. A prompt that is not a `String` ends the pass with its error. */
  method AccuracyPass(oracle: (string, string) -> string, stmts: seq<Node>) returns (r: Result<seq<Node>, CoreError>)
    ensures r == RewriteProgram(oracle, stmts)
  {
    var done: seq<Node> := [];
    assert stmts[0..] == stmts;
    assert RewriteProgram(oracle, stmts).Ok? ==> [] + RewriteProgram(oracle, stmts).value == RewriteProgram(oracle, stmts).value;
    for i := 0 to |stmts|
      invariant RewriteProgram(oracle, stmts) == Prefixed(done, RewriteProgram(oracle, stmts[i..]))
    {
      ProgramStep(oracle, stmts, i, done);
      var err := ReadSites(PromptValues(stmts[i]));
      if err.Some? {
        return Err(err.value);
      }
      var rewritten := Prompted(stmts[i], Refiner(oracle));
      done := done + [rewritten];
    }
    assert stmts[|stmts|..] == [];
    assert done + [] == done;
    r := Ok(done);
  }

  // ---------------------------------------------------------------------------
  // Properties of the walk and the update

  /** What a prompt found by the walk becomes: a `String` gets its text
      rewritten, and any other value is searched for prompts of its own. */
  function Lift(v: Node, f: string -> string): Node {
    if v.String? then String(f(v.text)) else Prompted(v, f)
  }

  function Lifted(vs: seq<Node>, f: string -> string): (r: seq<Node>)
    ensures |r| == |vs|
  {
    if vs == [] then [] else [Lift(vs[0], f)] + Lifted(vs[1..], f)
  }

  /** Each value is lifted on its own. */
  lemma {:induction false} LiftedAt(vs: seq<Node>, f: string -> string, k: nat)
    requires k < |vs|
    ensures Lifted(vs, f)[k] == Lift(vs[k], f)
  {
    if k > 0 {
      LiftedAt(vs[1..], f, k - 1);
    }
  }

  lemma {:induction false} LiftedAppend(a: seq<Node>, b: seq<Node>, f: string -> string)
    ensures Lifted(a + b, f) == Lifted(a, f) + Lifted(b, f)
  {
    if a == [] {
      assert a + b == b;
    } else {
      assert (a + b)[0] == a[0] && (a + b)[1..] == a[1..] + b;
      LiftedAppend(a[1..], b, f);
    }
  }

  /** The `prompt` entry of a rewritten keyword dict is the rewritten entry. */
  lemma {:induction false} LookupPromptedKw(kw: seq<KwArg>, key: string, f: string -> string)
    ensures LookupKw(PromptedKw(kw, f), key) ==
      match LookupKw(kw, key)
      case Some(v) => Some(PromptedEntry(key, v, f))
      case None => None
  {
    if kw != [] && kw[0].key != key {
      assert PromptedKw(kw, f)[1..] == PromptedKw(kw[1..], f);
      LookupPromptedKw(kw[1..], key, f);
    }
  }

  /** After the update, the walk finds the same prompts in the same order,
      each one lifted: every `String` prompt carries `f` of its old text. */
  lemma {:induction false} ValuesOfPrompted(n: Node, f: string -> string)
    ensures PromptValues(Prompted(n, f)) == Lifted(PromptValues(n), f)
    decreases n, 1
  {
    match n
    case LetStmt(_, e) => ValuesOfPrompted(e, f);
    case ListLiteral(es) => ValuesOfPromptedAll(es, f);
    case DictLiteral(ps) => ValuesOfPromptedPairs(ps, f);
    case Call(name, args, kw) =>
      ValuesOfPromptedAll(args, f);
      ValuesOfPromptedKw(kw, f);
      ValuesOfPromptedCall(name, args, kw, f);
    case ForLoop(s, e, st, i, b) =>
      ValuesOfPrompted(s, f); ValuesOfPrompted(e, f); ValuesOfPrompted(st, f);
      ValuesOfPrompted(i, f); ValuesOfPrompted(b, f);
      ValuesOfPromptedFor(s, e, st, i, b, f);
    case WhileLoop(t, i, b) =>
      ValuesOfPrompted(t, f); ValuesOfPrompted(i, f); ValuesOfPrompted(b, f);
      ValuesOfPromptedThree(n, t, i, b, f);
    case Cond(t, a, b) =>
      ValuesOfPrompted(t, f); ValuesOfPrompted(a, f); ValuesOfPrompted(b, f);
      ValuesOfPromptedThree(n, t, a, b, f);
    case _ =>
  }

  lemma ValuesOfPromptedFor(s: Node, e: Node, st: Node, i: Node, b: Node, f: string -> string)
    requires PromptValues(Prompted(s, f)) == Lifted(PromptValues(s), f)
    requires PromptValues(Prompted(e, f)) == Lifted(PromptValues(e), f)
    requires PromptValues(Prompted(st, f)) == Lifted(PromptValues(st), f)
    requires PromptValues(Prompted(i, f)) == Lifted(PromptValues(i), f)
    requires PromptValues(Prompted(b, f)) == Lifted(PromptValues(b), f)
    ensures PromptValues(Prompted(ForLoop(s, e, st, i, b), f)) == Lifted(PromptValues(ForLoop(s, e, st, i, b)), f)
  {
    WalkFor(s, e, st, i, b, f);
    LiftedJoin5(PromptValues(s), PromptValues(e), PromptValues(st), PromptValues(i), PromptValues(b), f);
  }

  /** The walk of a for loop visits its five children in order, before and
      after the update. */
  lemma WalkFor(s: Node, e: Node, st: Node, i: Node, b: Node, f: string -> string)
    ensures PromptValues(ForLoop(s, e, st, i, b)) ==
      PromptValues(s) + PromptValues(e) + PromptValues(st) + PromptValues(i) + PromptValues(b)
    ensures PromptValues(Prompted(ForLoop(s, e, st, i, b), f)) ==
      PromptValues(Prompted(s, f)) + PromptValues(Prompted(e, f)) + PromptValues(Prompted(st, f))
        + PromptValues(Prompted(i, f)) + PromptValues(Prompted(b, f))
  {
    var n' := ForLoop(Prompted(s, f), Prompted(e, f), Prompted(st, f), Prompted(i, f), Prompted(b, f));
    PromptedFor(s, e, st, i, b, f);
    WalkForChildren(ForLoop(s, e, st, i, b));
    WalkForChildren(n');
  }

  lemma PromptedFor(s: Node, e: Node, st: Node, i: Node, b: Node, f: string -> string)
    ensures Prompted(ForLoop(s, e, st, i, b), f) ==
      ForLoop(Prompted(s, f), Prompted(e, f), Prompted(st, f), Prompted(i, f), Prompted(b, f))
  {
  }

  lemma WalkForChildren(n: Node)
    requires n.ForLoop?
    ensures PromptValues(n) ==
      PromptValues(n.start) + PromptValues(n.end) + PromptValues(n.step) + PromptValues(n.init) + PromptValues(n.body)
  {
  }

  /** The `while` loop and the conditional: three children walked in order. */
  lemma ValuesOfPromptedThree(n: Node, x: Node, y: Node, z: Node, f: string -> string)
    requires n == WhileLoop(x, y, z) || n == Cond(x, y, z)
    requires PromptValues(Prompted(x, f)) == Lifted(PromptValues(x), f)
    requires PromptValues(Prompted(y, f)) == Lifted(PromptValues(y), f)
    requires PromptValues(Prompted(z, f)) == Lifted(PromptValues(z), f)
    ensures PromptValues(Prompted(n, f)) == Lifted(PromptValues(n), f)
  {
    WalkThree(n, x, y, z, f);
    LiftedJoin3(PromptValues(x), PromptValues(y), PromptValues(z), f);
  }

  /** The walk of a `while` loop or a conditional visits its three children
      in order, before and after the update. */
  lemma WalkThree(n: Node, x: Node, y: Node, z: Node, f: string -> string)
    requires n == WhileLoop(x, y, z) || n == Cond(x, y, z)
    ensures PromptValues(n) == PromptValues(x) + PromptValues(y) + PromptValues(z)
    ensures PromptValues(Prompted(n, f)) == PromptValues(Prompted(x, f)) + PromptValues(Prompted(y, f)) + PromptValues(Prompted(z, f))
  {
    if n.WhileLoop? {
      var m := WhileLoop(Prompted(x, f), Prompted(y, f), Prompted(z, f));
      assert Prompted(n, f) == m;
      WalkWhileChildren(n);
      WalkWhileChildren(m);
    } else {
      var m := Cond(Prompted(x, f), Prompted(y, f), Prompted(z, f));
      assert Prompted(n, f) == m;
      WalkCondChildren(n);
      WalkCondChildren(m);
    }
  }

  lemma WalkWhileChildren(n: Node)
    requires n.WhileLoop?
    ensures PromptValues(n) == PromptValues(n.test) + PromptValues(n.init) + PromptValues(n.body)
  {
  }

  lemma WalkCondChildren(n: Node)
    requires n.Cond?
    ensures PromptValues(n) == PromptValues(n.test) + PromptValues(n.thenBranch) + PromptValues(n.elseBranch)
  {
  }

  lemma ValuesOfPromptedCall(name: string, args: seq<Node>, kw: seq<KwArg>, f: string -> string)
    requires PromptValuesOfAll(PromptedAll(args, f)) == Lifted(PromptValuesOfAll(args), f)
    requires PromptValuesOfKw(PromptedKw(kw, f)) == Lifted(PromptValuesOfKw(kw), f)
    ensures PromptValues(Prompted(Call(name, args, kw), f)) == Lifted(PromptValues(Call(name, args, kw)), f)
  {
    var m := Call(name, PromptedAll(args, f), PromptedKw(kw, f));
    assert Prompted(Call(name, args, kw), f) == m;
    WalkCallChildren(Call(name, args, kw));
    WalkCallChildren(m);
    OwnPromptLifted(kw, f);
    LiftedJoin3(PromptValuesOfAll(args), OwnPrompt(kw), PromptValuesOfKw(kw), f);
  }

  lemma WalkCallChildren(n: Node)
    requires n.Call?
    ensures PromptValues(n) == PromptValuesOfAll(n.args) + OwnPrompt(n.kwargs) + PromptValuesOfKw(n.kwargs)
  {
  }

  /** The `prompt` entry of the rewritten keywords is the lifted entry. */
  lemma OwnPromptLifted(kw: seq<KwArg>, f: string -> string)
    ensures OwnPrompt(PromptedKw(kw, f)) == Lifted(OwnPrompt(kw), f)
  {
    LookupPromptedKw(kw, "prompt", f);
  }

  lemma LiftedJoin3(a: seq<Node>, b: seq<Node>, c: seq<Node>, f: string -> string)
    ensures Lifted(a + b + c, f) == Lifted(a, f) + Lifted(b, f) + Lifted(c, f)
  {
    LiftedAppend(a, b, f);
    LiftedAppend(a + b, c, f);
  }

  lemma LiftedJoin5(a: seq<Node>, b: seq<Node>, c: seq<Node>, d: seq<Node>, e: seq<Node>, f: string -> string)
    ensures Lifted(a + b + c + d + e, f) == Lifted(a, f) + Lifted(b, f) + Lifted(c, f) + Lifted(d, f) + Lifted(e, f)
  {
    LiftedJoin3(a, b, c, f);
    LiftedAppend(a + b + c, d, f);
    LiftedAppend(a + b + c + d, e, f);
  }

  lemma {:induction false} ValuesOfPromptedAll(es: seq<Node>, f: string -> string)
    ensures PromptValuesOfAll(PromptedAll(es, f)) == Lifted(PromptValuesOfAll(es), f)
    decreases es, 0
  {
    if es != [] {
      assert PromptedAll(es, f)[0] == Prompted(es[0], f);
      assert PromptedAll(es, f)[1..] == PromptedAll(es[1..], f);
      ValuesOfPrompted(es[0], f);
      ValuesOfPromptedAll(es[1..], f);
      LiftedAppend(PromptValues(es[0]), PromptValuesOfAll(es[1..]), f);
    }
  }

  lemma {:induction false} ValuesOfPromptedPairs(ps: seq<Pair>, f: string -> string)
    ensures PromptValuesOfPairs(PromptedPairs(ps, f)) == Lifted(PromptValuesOfPairs(ps), f)
    decreases ps, 0
  {
    if ps != [] {
      assert PromptedPairs(ps, f)[0] == PromptedPair(ps[0], f);
      assert PromptedPairs(ps, f)[1..] == PromptedPairs(ps[1..], f);
      ValuesOfPromptedPair(ps[0], f);
      ValuesOfPromptedPairs(ps[1..], f);
      LiftedAppend(PromptValuesOfPair(ps[0]), PromptValuesOfPairs(ps[1..]), f);
    }
  }

  lemma {:induction false} ValuesOfPromptedPair(p: Pair, f: string -> string)
    ensures PromptValuesOfPair(PromptedPair(p, f)) == Lifted(PromptValuesOfPair(p), f)
    decreases p, 0
  {
    ValuesOfPrompted(p.key, f);
    ValuesOfPrompted(p.value, f);
    LiftedAppend(PromptValues(p.key), PromptValues(p.value), f);
  }

  lemma {:induction false} ValuesOfPromptedKw(kw: seq<KwArg>, f: string -> string)
    ensures PromptValuesOfKw(PromptedKw(kw, f)) == Lifted(PromptValuesOfKw(kw), f)
    decreases kw, 0
  {
    if kw != [] {
      var k, v := kw[0].key, kw[0].value;
      assert PromptedKw(kw, f)[0].value == PromptedEntry(k, v, f);
      assert PromptedKw(kw, f)[1..] == PromptedKw(kw[1..], f);
      if !(k == "prompt" && v.String?) {
        ValuesOfPrompted(v, f);
      }
      ValuesOfPromptedKw(kw[1..], f);
      LiftedAppend(PromptValues(v), PromptValuesOfKw(kw[1..]), f);
    }
  }

  /** Two updates in a row are one update by the composed function. */
  lemma {:induction false} ComposePrompted(n: Node, f: string -> string, g: string -> string, h: string -> string)
    requires forall t :: h(t) == g(f(t))
    ensures Prompted(Prompted(n, f), g) == Prompted(n, h)
    decreases n, 1
  {
    match n
    case LetStmt(_, e) => ComposePrompted(e, f, g, h); ComposeLet(n, f, g, h);
    case ListLiteral(es) => ComposeAll(es, f, g, h); ComposeList(n, f, g, h);
    case DictLiteral(ps) => ComposePairs(ps, f, g, h); ComposeDict(n, f, g, h);
    case Call(_, args, kw) => ComposeAll(args, f, g, h); ComposeKw(kw, f, g, h); ComposeCall(n, f, g, h);
    case ForLoop(s, e, st, i, b) =>
      ComposePrompted(s, f, g, h); ComposePrompted(e, f, g, h); ComposePrompted(st, f, g, h);
      ComposePrompted(i, f, g, h); ComposePrompted(b, f, g, h);
      ComposeFor(n, f, g, h);
    case WhileLoop(t, i, b) =>
      ComposePrompted(t, f, g, h); ComposePrompted(i, f, g, h); ComposePrompted(b, f, g, h);
      ComposeWhile(n, f, g, h);
    case Cond(t, a, b) =>
      ComposePrompted(t, f, g, h); ComposePrompted(a, f, g, h); ComposePrompted(b, f, g, h);
      ComposeCond(n, f, g, h);
    case _ =>
  }

  lemma ComposeLet(n: Node, f: string -> string, g: string -> string, h: string -> string)
    requires n.LetStmt?
    requires Prompted(Prompted(n.expr, f), g) == Prompted(n.expr, h)
    ensures Prompted(Prompted(n, f), g) == Prompted(n, h)
  {
    var m := Prompted(n, f);
    assert m.LetStmt? && m.name == n.name && m.expr == Prompted(n.expr, f);
  }

  lemma ComposeList(n: Node, f: string -> string, g: string -> string, h: string -> string)
    requires n.ListLiteral?
    requires PromptedAll(PromptedAll(n.elements, f), g) == PromptedAll(n.elements, h)
    ensures Prompted(Prompted(n, f), g) == Prompted(n, h)
  {
    var m := Prompted(n, f);
    assert m.ListLiteral? && m.elements == PromptedAll(n.elements, f);
  }

  lemma ComposeDict(n: Node, f: string -> string, g: string -> string, h: string -> string)
    requires n.DictLiteral?
    requires PromptedPairs(PromptedPairs(n.items, f), g) == PromptedPairs(n.items, h)
    ensures Prompted(Prompted(n, f), g) == Prompted(n, h)
  {
    var m := Prompted(n, f);
    assert m.DictLiteral? && m.items == PromptedPairs(n.items, f);
  }

  lemma ComposeCall(n: Node, f: string -> string, g: string -> string, h: string -> string)
    requires n.Call?
    requires PromptedAll(PromptedAll(n.args, f), g) == PromptedAll(n.args, h)
    requires PromptedKw(PromptedKw(n.kwargs, f), g) == PromptedKw(n.kwargs, h)
    ensures Prompted(Prompted(n, f), g) == Prompted(n, h)
  {
    var m := Prompted(n, f);
    assert m.Call? && m.name == n.name && m.args == PromptedAll(n.args, f) && m.kwargs == PromptedKw(n.kwargs, f);
  }

  lemma ComposeWhile(n: Node, f: string -> string, g: string -> string, h: string -> string)
    requires n.WhileLoop?
    requires Prompted(Prompted(n.test, f), g) == Prompted(n.test, h)
    requires Prompted(Prompted(n.init, f), g) == Prompted(n.init, h)
    requires Prompted(Prompted(n.body, f), g) == Prompted(n.body, h)
    ensures Prompted(Prompted(n, f), g) == Prompted(n, h)
  {
    var m := Prompted(n, f);
    assert m.WhileLoop? && m.test == Prompted(n.test, f) && m.init == Prompted(n.init, f) && m.body == Prompted(n.body, f);
  }

  lemma ComposeCond(n: Node, f: string -> string, g: string -> string, h: string -> string)
    requires n.Cond?
    requires Prompted(Prompted(n.test, f), g) == Prompted(n.test, h)
    requires Prompted(Prompted(n.thenBranch, f), g) == Prompted(n.thenBranch, h)
    requires Prompted(Prompted(n.elseBranch, f), g) == Prompted(n.elseBranch, h)
    ensures Prompted(Prompted(n, f), g) == Prompted(n, h)
  {
    var m := Prompted(n, f);
    assert m.Cond? && m.test == Prompted(n.test, f) && m.thenBranch == Prompted(n.thenBranch, f)
      && m.elseBranch == Prompted(n.elseBranch, f);
  }

  lemma ComposeFor(n: Node, f: string -> string, g: string -> string, h: string -> string)
    requires n.ForLoop?
    requires Prompted(Prompted(n.start, f), g) == Prompted(n.start, h)
    requires Prompted(Prompted(n.end, f), g) == Prompted(n.end, h)
    requires Prompted(Prompted(n.step, f), g) == Prompted(n.step, h)
    requires Prompted(Prompted(n.init, f), g) == Prompted(n.init, h)
    requires Prompted(Prompted(n.body, f), g) == Prompted(n.body, h)
    ensures Prompted(Prompted(n, f), g) == Prompted(n, h)
  {
    var m := Prompted(n, f);
    assert m.ForLoop? && m.start == Prompted(n.start, f) && m.end == Prompted(n.end, f) && m.step == Prompted(n.step, f)
      && m.init == Prompted(n.init, f) && m.body == Prompted(n.body, f);
  }

  lemma {:induction false} ComposeAll(es: seq<Node>, f: string -> string, g: string -> string, h: string -> string)
    requires forall t :: h(t) == g(f(t))
    ensures PromptedAll(PromptedAll(es, f), g) == PromptedAll(es, h)
    decreases es, 0
  {
    if es != [] {
      assert PromptedAll(es, f)[0] == Prompted(es[0], f);
      assert PromptedAll(es, f)[1..] == PromptedAll(es[1..], f);
      ComposePrompted(es[0], f, g, h);
      ComposeAll(es[1..], f, g, h);
    }
  }

  lemma {:induction false} ComposePairs(ps: seq<Pair>, f: string -> string, g: string -> string, h: string -> string)
    requires forall t :: h(t) == g(f(t))
    ensures PromptedPairs(PromptedPairs(ps, f), g) == PromptedPairs(ps, h)
    decreases ps, 0
  {
    if ps != [] {
      assert PromptedPairs(ps, f)[0] == PromptedPair(ps[0], f);
      assert PromptedPairs(ps, f)[1..] == PromptedPairs(ps[1..], f);
      ComposePair(ps[0], f, g, h);
      ComposePairs(ps[1..], f, g, h);
    }
  }

  lemma {:induction false} ComposePair(p: Pair, f: string -> string, g: string -> string, h: string -> string)
    requires forall t :: h(t) == g(f(t))
    ensures PromptedPair(PromptedPair(p, f), g) == PromptedPair(p, h)
    decreases p, 0
  {
    ComposePrompted(p.key, f, g, h);
    ComposePrompted(p.value, f, g, h);
  }

  lemma {:induction false} ComposeKw(kw: seq<KwArg>, f: string -> string, g: string -> string, h: string -> string)
    requires forall t :: h(t) == g(f(t))
    ensures PromptedKw(PromptedKw(kw, f), g) == PromptedKw(kw, h)
    decreases kw, 0
  {
    if kw != [] {
      var k, v := kw[0].key, kw[0].value;
      assert PromptedKw(kw, f)[0] == KwArg(k, PromptedEntry(k, v, f));
      assert PromptedKw(kw, f)[1..] == PromptedKw(kw[1..], f);
      if !(k == "prompt" && v.String?) {
        ComposePrompted(v, f, g, h);
        assert Prompted(v, f).String? == v.String?;
      }
      ComposeKw(kw[1..], f, g, h);
    }
  }

  /** The function that empties every prompt text. */
  function Blank(): string -> string {
    t => ""
  }

  /** Everything but the prompt texts is left as it was: once the prompt
      texts are emptied, the updated tree and the original are equal. */
  lemma OnlyPromptTextsChange(n: Node, f: string -> string)
    ensures Prompted(Prompted(n, f), Blank()) == Prompted(n, Blank())
  {
    ComposePrompted(n, f, Blank(), Blank());
  }

  /** The effect of the pass on one statement it accepts: the walk finds
      the same number of prompts, each now holding the filtered oracle reply
      to its old text, and nothing but prompt texts differs. */
  lemma StatementEffect(oracle: (string, string) -> string, n: Node, out: Node)
    requires RewriteStmt(oracle, n) == Ok(out)
    ensures |PromptValues(out)| == |PromptValues(n)|
    ensures forall k :: 0 <= k < |PromptValues(n)| ==>
      PromptValues(n)[k].String? && PromptValues(out)[k] == String(Refine(oracle, PromptValues(n)[k].text))
    ensures Prompted(out, Blank()) == Prompted(n, Blank())
  {
    var f := Refiner(oracle);
    var vs := PromptValues(n);
    assert FirstError(vs).None? && out == Prompted(n, f);
    assert AllText(vs);
    ValuesOfPrompted(n, f);
    forall k | 0 <= k < |vs|
      ensures vs[k].String? && PromptValues(out)[k] == String(Refine(oracle, vs[k].text))
    {
      LiftedAt(vs, f, k);
    }
    OnlyPromptTextsChange(n, f);
  }

  /** An occurrence inside a slice is an occurrence in the whole text. */
  lemma OccursInSlice(s: string, sub: string, a: nat, b: nat, k: nat)
    requires a <= b <= |s| && OccursAt(s[a..b], sub, k)
    ensures OccursAt(s, sub, a + k)
  {
    var t := s[a..b];
    assert forall j :: 0 <= j < |sub| ==> sub[j] == t[k + j] == s[a + k + j];
    assert s[a + k..a + k + |sub|] == sub;
  }

  /** A slice of a text without `sub` has no `sub` either. */
  lemma NoneInSlice(s: string, sub: string, a: nat, b: nat)
    requires |sub| > 0 && a <= b <= |s| && !Contains(s, sub)
    ensures !Contains(s[a..b], sub)
  {
    if Contains(s[a..b], sub) {
      var k := FindFrom(s[a..b], sub, 0).value;
      OccursInSlice(s, sub, a, b, k);
      assert false;
    }
  }

  /** With the marker present, the filter keeps the stripped second piece
      of the split, which is the text after the first marker and holds no
      marker itself. */
  lemma SecondPiece(reply: string)
    requires Contains(reply, Think)
    ensures ThinkFilter(reply) == Strip(AfterFirstMarker(reply))
    ensures !Contains(AfterFirstMarker(reply), Think)
  {
    var i := FindFrom(reply, Think, 0).value;
    var rest := reply[i + |Think|..];
    var parts := SplitOn(reply, Think);
    assert parts == [reply[..i]] + SplitOn(rest, Think);
    assert parts[1] == AfterFirstMarker(reply);
    SplitOnPieces(reply, Think);
    assert parts[1] in parts;
  }

  /** Stripping a text without the marker leaves none. */
  lemma StripKeepsNoMarker(piece: string)
    requires !Contains(piece, Think)
    ensures !Contains(Strip(piece), Think)
  {
    var a := LeadingSpaces(piece);
    NoneInSlice(piece, Think, a, a + |Strip(piece)|);
  }

  /** The filter keeps a reply without the marker as it is; otherwise it
      keeps the stripped text between the first marker and the next one (or
      the end), which holds no marker. */
  lemma ThinkFilterSpec(reply: string)
    ensures !Contains(reply, Think) ==> ThinkFilter(reply) == reply
    ensures Contains(reply, Think) ==>
      ThinkFilter(reply) == Strip(AfterFirstMarker(reply)) && !Contains(ThinkFilter(reply), Think)
  {
    if Contains(reply, Think) {
      SecondPiece(reply);
      StripKeepsNoMarker(AfterFirstMarker(reply));
    }
  }

  // ---------------------------------------------------------------------------
  // As written: `call_llm` returns its placeholder dict, not a string

  /** One entry of the definitions file, a JSON list: its `name` and what
      `call_llm` reads of it. */
  datatype DefItem = DefItem(name: string, def: LlmDef)

  const AccuracyName := "accuracy_opt_passes"

  /** `ind`: the index of the last entry named `target`, `None` when no
      entry has that name. */
  function LastNamed(items: seq<DefItem>, target: string): (r: Option<nat>)
    ensures r.Some? ==> r.value < |items| && items[r.value].name == target
    ensures r.Some? ==> forall k :: r.value < k < |items| ==> items[k].name != target
    ensures r.None? <==> forall k :: 0 <= k < |items| ==> items[k].name != target
  {
    if items == [] then None
    else if items[|items| - 1].name == target then Some(|items| - 1)
    else
      var r := LastNamed(items[..|items| - 1], target);
      assert forall k :: 0 <= k < |items| - 1 ==> items[..|items| - 1][k] == items[k];
      r
  }

  /** The loop over the definitions that sets `ind`. */
  method FindIndex(items: seq<DefItem>, target: string) returns (ind: Option<nat>)
    ensures ind == LastNamed(items, target)
  {
    ind := None;
    for n := 0 to |items|
      invariant ind == LastNamed(items[..n], target)
    {
      assert items[..n + 1][..n] == items[..n];
      if items[n].name == target {
        ind := Some(n);
      }
    }
    assert items[..|items|] == items;
  }

  /** `executor.call_llm(ind, args=[], kwargs={'system': …, 'prompt': …})`
      with `llm_defs = _defs or {}`: without an `ind` the lookup indexes the
      list with `None`, or the empty dict that replaces an empty list. */
  function PassCall(items: seq<DefItem>, ind: Option<nat>, system: string, prompt: string): (r: Result<Value, CoreError>)
    requires ind.Some? ==> ind.value < |items|
    ensures r.Ok? <==> ind.Some?
    ensures ind.None? ==> r == Err(if items == [] then KeyError("None") else TypeError("list indices must be integers or slices, not NoneType"))
    ensures r.Ok? ==> r.value.VDict? && ValuePrompts(r.value) == [VStr(prompt)] && !HasKey(r.value, Think)
  {
    match ind
    case None =>
      if items == [] then Err(KeyError("None"))
      else Err(TypeError("list indices must be integers or slices, not NoneType"))
    case Some(i) =>
      var reply := CallLlm(items[i].def, VInt(i), [], [Entry("system", VStr(system)), Entry("prompt", VStr(prompt))]);
      ReplyPrompts(items[i].def, i, system, prompt);
      Ok(reply)
  }

  /** The value of `key` in a dict's entries. */
  function EntryLookup(es: seq<Entry>, key: string): Option<Value> {
    if es == [] then None
    else if es[0].key == key then Some(es[0].val)
    else EntryLookup(es[1..], key)
  }

  /** `key in v` for the dict `call_llm` returns: a test of its keys. */
  predicate HasKey(v: Value, key: string) {
    v.VDict? && EntryLookup(v.entries, key).Some?
  }

  /** The walk over plain Python data: a dict's own `prompt` entry first,
      then the values of its entries; the items of a list; strings, ints and
      bools hold nothing. */
  function ValuePrompts(v: Value): seq<Value>
    decreases v, 1
  {
    match v
    case VDict(es) =>
      (match EntryLookup(es, "prompt") case Some(p) => [p] case None => []) + EntryPrompts(es)
    case VList(xs) => ItemPrompts(xs)
    case _ => []
  }

  function EntryPrompts(es: seq<Entry>): seq<Value>
    decreases es, 0
  {
    if es == [] then [] else ValuePrompts(es[0].val) + EntryPrompts(es[1..])
  }

  function ItemPrompts(xs: seq<Value>): seq<Value>
    decreases xs, 0
  {
    if xs == [] then [] else ValuePrompts(xs[0]) + ItemPrompts(xs[1..])
  }

  /** The placeholder reply holds one `prompt`, the one it was sent, and no
      key `</think>`. */
  lemma ReplyPrompts(def: LlmDef, i: nat, system: string, prompt: string)
    ensures ValuePrompts(CallLlm(def, VInt(i), [], [Entry("system", VStr(system)), Entry("prompt", VStr(prompt))])) == [VStr(prompt)]
    ensures !HasKey(CallLlm(def, VInt(i), [], [Entry("system", VStr(system)), Entry("prompt", VStr(prompt))]), Think)
  {
    var pe := Entry("prompt", VStr(prompt));
    var kes := [Entry("system", VStr(system)), pe];
    assert kes[1..] == [pe] && [pe][1..] == [];
    assert EntryLookup(kes, "prompt") == Some(VStr(prompt));
    assert EntryPrompts([pe]) == [];
    assert EntryPrompts(kes) == [];
    var kwargs := Entry("kwargs", VDict(kes));
    assert ValuePrompts(kwargs.val) == [VStr(prompt)];
    var es := CallLlm(def, VInt(i), [], kes).entries;
    assert es[3..] == [kwargs] && [kwargs][1..] == [];
    assert EntryPrompts(es[3..]) == [VStr(prompt)];
    assert ItemPrompts([]) == [];
    assert es[2..][1..] == es[3..];
    assert EntryPrompts(es[2..]) == [VStr(prompt)];
    assert es[1..][1..] == es[2..];
    assert EntryPrompts(es[1..]) == [VStr(prompt)];
    assert es[1..] == es[0..][1..];
    assert EntryPrompts(es) == [VStr(prompt)];
    assert EntryLookup(es[3..], "prompt") == None && EntryLookup(es[3..], Think) == None;
    assert EntryLookup(es[2..], "prompt") == None && EntryLookup(es[2..], Think) == None;
    assert EntryLookup(es[1..], "prompt") == None && EntryLookup(es[1..], Think) == None;
    assert EntryLookup(es, "prompt") == None && EntryLookup(es, Think) == None;
  }

  /** `x.value` for a plain Python value, which has no such attribute. */
  function NoValue(v: Value): CoreError {
    match v
    case VInt(_) => AttributeError("'int' object has no attribute 'value'")
    case VBool(_) => AttributeError("'bool' object has no attribute 'value'")
    case VStr(_) => AttributeError("'str' object has no attribute 'value'")
    case VList(_) => AttributeError("'list' object has no attribute 'value'")
    case VDict(_) => AttributeError("'dict' object has no attribute 'value'")
  }

  /** The first of two outcomes that raised. */
  function FirstOf(a: Option<CoreError>, b: Option<CoreError>): Option<CoreError> {
    if a.Some? then a else b
  }

  /** The call the accuracy pass makes for a prompt text. */
  function AccuracyCall(items: seq<DefItem>, text: string): Result<Value, CoreError> {
    PassCall(items, LastNamed(items, AccuracyName), SystemText, Instruction + text)
  }

  /** What the loop over the walk of one statement raises, as written, or
      `None` when it runs through. Each prompt's `String` receives the reply
      dict; the walk then goes on into that `String`, whose `value` is now the
      dict, and yields the `prompt` string inside it, which has no `value`. */
  function RaisedIn(items: seq<DefItem>, n: Node): Option<CoreError>
    decreases n, 2
  {
    match n
    case LetStmt(_, e) => RaisedIn(items, e)
    case ListLiteral(es) => RaisedInAll(items, es)
    case DictLiteral(ps) => RaisedInPairs(items, ps)
    case Call(_, args, kw) => FirstOf(RaisedInAll(items, args), RaisedAtCall(items, kw))
    case ForLoop(s, e, st, i, b) =>
      FirstOf(RaisedIn(items, s), FirstOf(RaisedIn(items, e), FirstOf(RaisedIn(items, st),
        FirstOf(RaisedIn(items, i), RaisedIn(items, b)))))
    case WhileLoop(t, i, b) => FirstOf(RaisedIn(items, t), FirstOf(RaisedIn(items, i), RaisedIn(items, b)))
    case Cond(t, a, b) => FirstOf(RaisedIn(items, t), FirstOf(RaisedIn(items, a), RaisedIn(items, b)))
    case _ => None
  }

  function RaisedInAll(items: seq<DefItem>, es: seq<Node>): Option<CoreError>
    decreases es, 0
  {
    if es == [] then None else FirstOf(RaisedIn(items, es[0]), RaisedInAll(items, es[1..]))
  }

  function RaisedInPairs(items: seq<DefItem>, ps: seq<Pair>): Option<CoreError>
    decreases ps, 0
  {
    if ps == [] then None else FirstOf(RaisedInPair(items, ps[0]), RaisedInPairs(items, ps[1..]))
  }

  function RaisedInPair(items: seq<DefItem>, p: Pair): Option<CoreError>
    decreases p, 0
  {
    FirstOf(RaisedIn(items, p.key), RaisedIn(items, p.value))
  }

  /** A keyword dict: its own `prompt` is read, sent, and replaced by the
      reply, and then the walk goes through its values. */
  function RaisedAtCall(items: seq<DefItem>, kw: seq<KwArg>): Option<CoreError>
    decreases kw, 1
  {
    match LookupKw(kw, "prompt")
    case None => RaisedInKw(items, kw, None)
    case Some(v) =>
      match SiteText(v)
      case Err(e) => Some(e)
      case Ok(t) =>
        match AccuracyCall(items, t)
        case Err(e) => Some(e)
        case Ok(reply) =>
          if HasKey(reply, Think) then Some(AttributeError("'dict' object has no attribute 'split'"))
          else RaisedInKw(items, kw, Some(reply))
  }

  /** The values of a keyword dict; `reply` is what the `prompt` entry's
      `String` now holds. */
  function RaisedInKw(items: seq<DefItem>, kw: seq<KwArg>, reply: Option<Value>): Option<CoreError>
    decreases kw, 0
  {
    if kw == [] then None
    else if kw[0].key == "prompt" && reply.Some? then FirstOf(RaisedInReply(reply.value), RaisedInKw(items, kw[1..], None))
    else FirstOf(RaisedIn(items, kw[0].value), RaisedInKw(items, kw[1..], reply))
  }

  /** `'…' + node.value` for the first prompt the walk finds inside a reply. */
  function RaisedInReply(reply: Value): Option<CoreError> {
    var ps := ValuePrompts(reply);
    if ps == [] then None else Some(NoValue(ps[0]))
  }

  /** The statements in order, stopping at the first exception. */
  function FirstRaised(items: seq<DefItem>, stmts: seq<Node>): Option<CoreError> {
    if stmts == [] then None else FirstOf(RaisedIn(items, stmts[0]), FirstRaised(items, stmts[1..]))
  }

  /** `accuracy_opt_passes_optimization` as written: a program it does not
      raise on comes back as it was. */
  function AccuracyAsWritten(items: seq<DefItem>, stmts: seq<Node>): (r: Result<seq<Node>, CoreError>)
    ensures r.Ok? ==> r.value == stmts
  {
    match FirstRaised(items, stmts)
    case Some(e) => Err(e)
    case None => Ok(stmts)
  }

  /** As written, the pass raises on a statement exactly when the walk finds
      a prompt in it. */
  lemma {:induction false} RaisedIffPrompts(items: seq<DefItem>, n: Node)
    ensures RaisedIn(items, n).None? <==> PromptValues(n) == []
    decreases n, 2
  {
    match n
    case LetStmt(_, e) => RaisedIffPrompts(items, e);
    case ListLiteral(es) => RaisedIffPromptsAll(items, es);
    case DictLiteral(ps) => RaisedIffPromptsPairs(items, ps);
    case Call(_, args, kw) =>
      RaisedIffPromptsAll(items, args);
      RaisedIffPromptsCall(items, kw);
    case ForLoop(s, e, st, i, b) =>
      RaisedIffPrompts(items, s);
      RaisedIffPrompts(items, e);
      RaisedIffPrompts(items, st);
      RaisedIffPrompts(items, i);
      RaisedIffPrompts(items, b);
    case WhileLoop(t, i, b) =>
      RaisedIffPrompts(items, t);
      RaisedIffPrompts(items, i);
      RaisedIffPrompts(items, b);
    case Cond(t, a, b) =>
      RaisedIffPrompts(items, t);
      RaisedIffPrompts(items, a);
      RaisedIffPrompts(items, b);
    case _ =>
  }

  lemma {:induction false} RaisedIffPromptsAll(items: seq<DefItem>, es: seq<Node>)
    ensures RaisedInAll(items, es).None? <==> PromptValuesOfAll(es) == []
    decreases es, 0
  {
    if es != [] {
      RaisedIffPrompts(items, es[0]);
      RaisedIffPromptsAll(items, es[1..]);
    }
  }

  lemma {:induction false} RaisedIffPromptsPairs(items: seq<DefItem>, ps: seq<Pair>)
    ensures RaisedInPairs(items, ps).None? <==> PromptValuesOfPairs(ps) == []
    decreases ps, 0
  {
    if ps != [] {
      RaisedIffPromptsPair(items, ps[0]);
      RaisedIffPromptsPairs(items, ps[1..]);
    }
  }

  lemma {:induction false} RaisedIffPromptsPair(items: seq<DefItem>, p: Pair)
    ensures RaisedInPair(items, p).None? <==> PromptValuesOfPair(p) == []
    decreases p, 0
  {
    RaisedIffPrompts(items, p.key);
    RaisedIffPrompts(items, p.value);
  }

  lemma RaisedIffPromptsCall(items: seq<DefItem>, kw: seq<KwArg>)
    ensures RaisedAtCall(items, kw).None? <==> OwnPrompt(kw) == [] && PromptValuesOfKw(kw) == []
    decreases kw, 1
  {
    match LookupKw(kw, "prompt")
    case None => RaisedIffPromptsKw(items, kw);
    case Some(v) =>
      if SiteText(v).Ok? && AccuracyCall(items, SiteText(v).value).Ok? {
        ReplacedRaises(items, kw, AccuracyCall(items, SiteText(v).value).value);
      }
  }

  lemma {:induction false} RaisedIffPromptsKw(items: seq<DefItem>, kw: seq<KwArg>)
    ensures RaisedInKw(items, kw, None).None? <==> PromptValuesOfKw(kw) == []
    decreases kw, 0
  {
    if kw != [] {
      RaisedIffPrompts(items, kw[0].value);
      RaisedIffPromptsKw(items, kw[1..]);
    }
  }

  /** Once the `prompt` entry holds a reply with a prompt in it, the walk of
      the keyword dict raises. */
  lemma {:induction false} ReplacedRaises(items: seq<DefItem>, kw: seq<KwArg>, reply: Value)
    requires LookupKw(kw, "prompt").Some? && ValuePrompts(reply) != []
    ensures RaisedInKw(items, kw, Some(reply)).Some?
  {
    if kw[0].key != "prompt" {
      ReplacedRaises(items, kw[1..], reply);
    }
  }

  /** A call whose arguments hold no prompt and whose keyword dict reaches a
      `String` prompt before any other: as written, the pass raises there.
      With a definition to call, the `String` receives the reply dict and the
      walk then meets the `prompt` string inside it; without one, the
      definitions lookup raises first. */
  lemma StringPromptRaises(items: seq<DefItem>, name: string, args: seq<Node>, kw: seq<KwArg>, j: nat, t: string)
    requires PromptValuesOfAll(args) == []
    requires j < |kw| && kw[j] == KwArg("prompt", String(t))
    requires forall k :: 0 <= k < j ==> kw[k].key != "prompt" && PromptValues(kw[k].value) == []
    ensures LastNamed(items, AccuracyName).Some? ==>
      RaisedIn(items, Call(name, args, kw)) == Some(AttributeError("'str' object has no attribute 'value'"))
    ensures LastNamed(items, AccuracyName).None? ==>
      RaisedIn(items, Call(name, args, kw)) ==
        Some(if items == [] then KeyError("None") else TypeError("list indices must be integers or slices, not NoneType"))
  {
    RaisedIffPromptsAll(items, args);
    assert RaisedIn(items, Call(name, args, kw)) == RaisedAtCall(items, kw);
    StringEntryRaises(items, kw, j, t);
  }

  lemma StringEntryRaises(items: seq<DefItem>, kw: seq<KwArg>, j: nat, t: string)
    requires j < |kw| && kw[j] == KwArg("prompt", String(t))
    requires forall k :: 0 <= k < j ==> kw[k].key != "prompt" && PromptValues(kw[k].value) == []
    ensures AccuracyCall(items, t).Ok? ==> RaisedAtCall(items, kw) == Some(AttributeError("'str' object has no attribute 'value'"))
    ensures AccuracyCall(items, t).Err? ==> RaisedAtCall(items, kw) == Some(AccuracyCall(items, t).error)
  {
    FirstPromptEntry(kw, j, t);
    var call := AccuracyCall(items, t);
    if call.Ok? {
      PromptEntryReached(items, kw, j, call.value);
      StringReplyRaises(call.value, Instruction + t);
    }
  }

  lemma StringReplyRaises(reply: Value, s: string)
    requires ValuePrompts(reply) == [VStr(s)]
    ensures RaisedInReply(reply) == Some(AttributeError("'str' object has no attribute 'value'"))
  {
  }

  lemma {:induction false} FirstPromptEntry(kw: seq<KwArg>, j: nat, t: string)
    requires j < |kw| && kw[j] == KwArg("prompt", String(t))
    requires forall k :: 0 <= k < j ==> kw[k].key != "prompt"
    ensures LookupKw(kw, "prompt") == Some(String(t))
  {
    if j > 0 {
      FirstPromptEntry(kw[1..], j - 1, t);
    }
  }

  lemma {:induction false} PromptEntryReached(items: seq<DefItem>, kw: seq<KwArg>, j: nat, reply: Value)
    requires j < |kw| && kw[j].key == "prompt"
    requires forall k :: 0 <= k < j ==> kw[k].key != "prompt" && PromptValues(kw[k].value) == []
    requires ValuePrompts(reply) != []
    ensures RaisedInKw(items, kw, Some(reply)) == RaisedInReply(reply)
  {
    if j > 0 {
      RaisedIffPrompts(items, kw[0].value);
      PromptEntryReached(items, kw[1..], j - 1, reply);
    }
  }

  /** As written, the pass comes back without raising exactly when no
      statement holds a prompt; the program then comes back unchanged. */
  lemma {:induction false} AsWrittenOkIff(items: seq<DefItem>, stmts: seq<Node>)
    ensures AccuracyAsWritten(items, stmts).Ok? <==> forall i :: 0 <= i < |stmts| ==> PromptValues(stmts[i]) == []
  {
    if stmts != [] {
      RaisedIffPrompts(items, stmts[0]);
      AsWrittenOkIff(items, stmts[1..]);
      assert forall i :: 0 < i < |stmts| ==> stmts[i] == stmts[1..][i - 1];
    }
  }

  /** One `gen(prompt="hi")` with a definition named for the pass: the
      intended pass rewrites the prompt, the pass as written raises. */
  lemma OnePromptExample(oracle: (string, string) -> string)
    ensures RewriteProgram(oracle, [Call("gen", [], [KwArg("prompt", String("hi"))])])
      == Ok([Call("gen", [], [KwArg("prompt", String(Refine(oracle, "hi")))])])
    ensures AccuracyAsWritten([DefItem(AccuracyName, LlmDef(None))], [Call("gen", [], [KwArg("prompt", String("hi"))])])
      == Err(AttributeError("'str' object has no attribute 'value'"))
  {
    var kw := [KwArg("prompt", String("hi"))];
    var items := [DefItem(AccuracyName, LlmDef(None))];
    assert LastNamed(items, AccuracyName) == Some(0);
    StringPromptRaises(items, "gen", [], kw, 0, "hi");
    assert PromptValues(Call("gen", [], kw)) == [String("hi")];
    assert FirstError([String("hi")]) == None;
    var stmt := Call("gen", [], kw);
    assert [stmt][1..] == [];
    assert FirstRaised(items, [stmt]) == RaisedIn(items, stmt);
    assert PromptedKw(kw, Refiner(oracle)) == [KwArg("prompt", String(Refine(oracle, "hi")))];
    assert RewriteStmt(oracle, stmt) == Ok(Call("gen", [], [KwArg("prompt", String(Refine(oracle, "hi")))]));
    assert RewriteProgram(oracle, [stmt][1..]) == Ok([]);
    var out := Call("gen", [], [KwArg("prompt", String(Refine(oracle, "hi")))]);
    assert [out] + [] == [out];
    assert AccuracyAsWritten(items, [stmt]) == Err(AttributeError("'str' object has no attribute 'value'"));
  }
}
