/** The prompt-splitting pass of
    aissembly_core/optimizations/decomposition_opt_passes.py: for every
    `prompt` keyword argument, the oracle's reply is split into steps and a
    chain of calls is built, one per step. The chain is bound to a local
    name only, so the program comes back unchanged. */
module DecompositionPass {
  import opened Basics
  import opened PyStr
  import opened CoreAst
  import opened AccuracyPass
  import opened CoreExec

  // ---------------------------------------------------------------------------
  // The walk with ancestors

  /** One yielded entry: the `prompt` value, the keyword dict that holds it
      (`parent`) and the call that owns that dict (`pparent`). */
  datatype Found = Found(value: Node, parent: seq<KwArg>, owner: Node)

  /** A found entry sits where the walk says: its owner is a call whose
      keyword dict is the parent, and the parent maps `prompt` to the value. */
  predicate Located(f: Found) {
    f.owner.Call? && f.parent == f.owner.kwargs && LookupKw(f.parent, "prompt") == Some(f.value)
  }

  /** `find_key_with_path(stmt, 'prompt')` with its ancestor pointers, in the
      order of the walk. */
  function Sites(n: Node): (r: seq<Found>)
    ensures forall k :: 0 <= k < |r| ==> Located(r[k])
    decreases n, 1
  {
    match n
    case LetStmt(_, e) => Sites(e)
    case ListLiteral(es) => SitesOfAll(es)
    case DictLiteral(ps) => SitesOfPairs(ps)
    case Call(_, args, kw) => SitesOfAll(args) + OwnSite(kw, n) + SitesOfKw(kw)
    case ForLoop(s, e, st, i, b) => Sites(s) + Sites(e) + Sites(st) + Sites(i) + Sites(b)
    case WhileLoop(t, i, b) => Sites(t) + Sites(i) + Sites(b)
    case Cond(t, a, b) => Sites(t) + Sites(a) + Sites(b)
    case _ => []
  }

  /** The entry for a call's own `prompt` keyword, if it has one. */
  function OwnSite(kw: seq<KwArg>, owner: Node): (r: seq<Found>)
    requires owner.Call? && owner.kwargs == kw
    ensures forall k :: 0 <= k < |r| ==> Located(r[k])
  {
    match LookupKw(kw, "prompt")
    case Some(v) => [Found(v, kw, owner)]
    case None => []
  }

  function SitesOfAll(es: seq<Node>): (r: seq<Found>)
    ensures forall k :: 0 <= k < |r| ==> Located(r[k])
    decreases es, 0
  {
    if es == [] then [] else Sites(es[0]) + SitesOfAll(es[1..])
  }

  function SitesOfPairs(ps: seq<Pair>): (r: seq<Found>)
    ensures forall k :: 0 <= k < |r| ==> Located(r[k])
    decreases ps, 0
  {
    if ps == [] then [] else SitesOfPair(ps[0]) + SitesOfPairs(ps[1..])
  }

  function SitesOfPair(p: Pair): (r: seq<Found>)
    ensures forall k :: 0 <= k < |r| ==> Located(r[k])
    decreases p, 0
  {
    Sites(p.key) + Sites(p.value)
  }

  function SitesOfKw(kw: seq<KwArg>): (r: seq<Found>)
    ensures forall k :: 0 <= k < |r| ==> Located(r[k])
    decreases kw, 0
  {
    if kw == [] then [] else Sites(kw[0].value) + SitesOfKw(kw[1..])
  }

  function Values(fs: seq<Found>): (r: seq<Node>)
    ensures |r| == |fs| && forall k :: 0 <= k < |fs| ==> r[k] == fs[k].value
  {
    if fs == [] then [] else [fs[0].value] + Values(fs[1..])
  }

  lemma {:induction false} ValuesAppend(a: seq<Found>, b: seq<Found>)
    ensures Values(a + b) == Values(a) + Values(b)
  {
    if a == [] {
      assert a + b == b;
    } else {
      assert (a + b)[0] == a[0] && (a + b)[1..] == a[1..] + b;
      ValuesAppend(a[1..], b);
    }
  }

  /** This walk and the accuracy pass's walk meet the same `prompt` values
      in the same order. */
  lemma {:induction false} WalkAgrees(n: Node)
    ensures Values(Sites(n)) == PromptValues(n)
    decreases n, 1
  {
    match n
    case LetStmt(_, e) => WalkAgrees(e);
    case ListLiteral(es) => WalkAgreesAll(es);
    case DictLiteral(ps) => WalkAgreesPairs(ps);
    case Call(_, args, kw) =>
      WalkAgreesAll(args); WalkAgreesKw(kw);
      WalkAgreesCall(n);
    case ForLoop(s, e, st, i, b) =>
      WalkAgrees(s); WalkAgrees(e); WalkAgrees(st); WalkAgrees(i); WalkAgrees(b);
      WalkAgreesFor(n);
    case WhileLoop(t, i, b) =>
      WalkAgrees(t); WalkAgrees(i); WalkAgrees(b);
      WalkAgreesWhile(n);
    case Cond(t, a, b) =>
      WalkAgrees(t); WalkAgrees(a); WalkAgrees(b);
      WalkAgreesCond(n);
    case _ =>
  }

  lemma WalkAgreesCall(n: Node)
    requires n.Call?
    requires Values(SitesOfAll(n.args)) == PromptValuesOfAll(n.args)
    requires Values(SitesOfKw(n.kwargs)) == PromptValuesOfKw(n.kwargs)
    ensures Values(Sites(n)) == PromptValues(n)
  {
    var own := OwnSite(n.kwargs, n);
    assert Sites(n) == SitesOfAll(n.args) + own + SitesOfKw(n.kwargs);
    WalkCallChildren(n);
    assert Values(own) == OwnPrompt(n.kwargs);
    ValuesAppend(SitesOfAll(n.args), own);
    ValuesAppend(SitesOfAll(n.args) + own, SitesOfKw(n.kwargs));
  }

  lemma WalkAgreesFor(n: Node)
    requires n.ForLoop?
    requires Values(Sites(n.start)) == PromptValues(n.start)
    requires Values(Sites(n.end)) == PromptValues(n.end)
    requires Values(Sites(n.step)) == PromptValues(n.step)
    requires Values(Sites(n.init)) == PromptValues(n.init)
    requires Values(Sites(n.body)) == PromptValues(n.body)
    ensures Values(Sites(n)) == PromptValues(n)
  {
    var s, e, st, i, b := Sites(n.start), Sites(n.end), Sites(n.step), Sites(n.init), Sites(n.body);
    assert Sites(n) == s + e + st + i + b;
    WalkForChildren(n);
    ValuesAppend(s, e);
    ValuesAppend(s + e, st);
    ValuesAppend(s + e + st, i);
    ValuesAppend(s + e + st + i, b);
  }

  lemma WalkAgreesWhile(n: Node)
    requires n.WhileLoop?
    requires Values(Sites(n.test)) == PromptValues(n.test)
    requires Values(Sites(n.init)) == PromptValues(n.init)
    requires Values(Sites(n.body)) == PromptValues(n.body)
    ensures Values(Sites(n)) == PromptValues(n)
  {
    var t, i, b := Sites(n.test), Sites(n.init), Sites(n.body);
    assert Sites(n) == t + i + b;
    WalkWhileChildren(n);
    ValuesAppend(t, i);
    ValuesAppend(t + i, b);
  }

  lemma WalkAgreesCond(n: Node)
    requires n.Cond?
    requires Values(Sites(n.test)) == PromptValues(n.test)
    requires Values(Sites(n.thenBranch)) == PromptValues(n.thenBranch)
    requires Values(Sites(n.elseBranch)) == PromptValues(n.elseBranch)
    ensures Values(Sites(n)) == PromptValues(n)
  {
    var t, a, b := Sites(n.test), Sites(n.thenBranch), Sites(n.elseBranch);
    assert Sites(n) == t + a + b;
    WalkCondChildren(n);
    ValuesAppend(t, a);
    ValuesAppend(t + a, b);
  }

  lemma {:induction false} WalkAgreesAll(es: seq<Node>)
    ensures Values(SitesOfAll(es)) == PromptValuesOfAll(es)
    decreases es, 0
  {
    if es != [] {
      WalkAgrees(es[0]);
      WalkAgreesAll(es[1..]);
      ValuesAppend(Sites(es[0]), SitesOfAll(es[1..]));
    }
  }

  lemma {:induction false} WalkAgreesPairs(ps: seq<Pair>)
    ensures Values(SitesOfPairs(ps)) == PromptValuesOfPairs(ps)
    decreases ps, 0
  {
    if ps != [] {
      WalkAgreesPair(ps[0]);
      WalkAgreesPairs(ps[1..]);
      ValuesAppend(SitesOfPair(ps[0]), SitesOfPairs(ps[1..]));
    }
  }

  lemma {:induction false} WalkAgreesPair(p: Pair)
    ensures Values(SitesOfPair(p)) == PromptValuesOfPair(p)
    decreases p, 0
  {
    WalkAgrees(p.key);
    WalkAgrees(p.value);
    ValuesAppend(Sites(p.key), Sites(p.value));
  }

  lemma {:induction false} WalkAgreesKw(kw: seq<KwArg>)
    ensures Values(SitesOfKw(kw)) == PromptValuesOfKw(kw)
    decreases kw, 0
  {
    if kw != [] {
      WalkAgrees(kw[0].value);
      WalkAgreesKw(kw[1..]);
      ValuesAppend(Sites(kw[0].value), SitesOfKw(kw[1..]));
    }
  }

  // ---------------------------------------------------------------------------
  // From the oracle's reply to steps

  const SystemText := "You are a professional prompt engineer. Only to make the prompt much more sophisticated."

  const Instruction := "Split GIVEN PROMPT in several steps owning its answer from previous step. The prompts targets making answers better step-by-step. Output of the engineered prompt only step by step in line by each line. Output nothing more than the prompt only step by step in line by each line. No step notation. No explaination. Only the prompts to be placed each in line. Each prompts must not have to loose original attempt of GIVEN PROMPT.\n                GIVEN PROMPT: "

  /** `val.strip().replace('\n\n', '\n').split('\n')` after the `</think>`
      filter. */
  function Pieces(reply: string): (r: seq<string>)
    ensures forall k :: 0 <= k < |r| ==> !Contains(r[k], "\n")
  {
    var text := Replace(Strip(ThinkFilter(reply)), "\n\n", "\n");
    SplitOnPieces(text, "\n");
    SplitOn(text, "\n")
  }

  /** The pieces the loop does not skip: those that are not exactly empty. */
  function Kept(ps: seq<string>): (r: seq<string>)
    ensures forall k :: 0 <= k < |r| ==> r[k] != [] && r[k] in ps
    ensures forall p :: p in ps && p != [] ==> p in r
  {
    if ps == [] then []
    else
      var init := ps[..|ps| - 1];
      var last := ps[|ps| - 1];
      assert forall p :: p in init ==> p in ps;
      assert forall p :: p in ps ==> p in init || p == last;
      Kept(init) + (if last == [] then [] else [last])
  }

  /** The steps a reply yields: its non-empty pieces, in order. */
  function Steps(reply: string): seq<string> {
    Kept(Pieces(reply))
  }

  /** Every step is a non-empty line: it holds no newline. */
  lemma StepsAreLines(reply: string)
    ensures forall k :: 0 <= k < |Steps(reply)| ==>
      Steps(reply)[k] != [] && !Contains(Steps(reply)[k], "\n")
  {
    forall k | 0 <= k < |Steps(reply)|
      ensures Steps(reply)[k] != [] && !Contains(Steps(reply)[k], "\n")
    {
      var s := Steps(reply)[k];
      assert s in Pieces(reply);
      var m :| 0 <= m < |Pieces(reply)| && Pieces(reply)[m] == s;
    }
  }

  /** A filtered reply that is one non-empty line after stripping gives one
      step, that line. */
  lemma OneLineOneStep(reply: string)
    requires !Contains(Strip(ThinkFilter(reply)), "\n") && Strip(ThinkFilter(reply)) != []
    ensures Steps(reply) == [Strip(ThinkFilter(reply))]
  {
    var t := Strip(ThinkFilter(reply));
    NoneInSlice(t, "\n\n", 0, |t|) by {
      if Contains(t, "\n\n") {
        var k := FindFrom(t, "\n\n", 0).value;
        assert t[k] == t[k..k + 2][0] == '\n';
        assert t[k..k + 1] == "\n";
        assert OccursAt(t, "\n", k);
        assert false;
      }
    }
    assert t[0..|t|] == t;
    assert Replace(t, "\n\n", "\n") == t;
    assert Pieces(reply) == [t];
    assert Kept([t]) == Kept([]) + [t];
  }

  // ---------------------------------------------------------------------------
  // The generated calls

  /** The new `prompt` of a generated call: a raw string for the first step,
      and for each later step a `LazyStr` of
      `'[[[[Context]]]] ' + <previous call> + '\n[[[[Prompt]]]] ' + step`
      whose thunk is never forced. */
  datatype PromptArg = Plain(text: string) | Contextual(step: string)

  /** A keyword value of a generated call: an AST node copied from the
      owner, or the new prompt. */
  datatype KwValue = Expr(node: Node) | Raw(prompt: PromptArg)

  datatype GenKw = GenKw(key: string, value: KwValue)

  /** `Call(name=pparent.name, args=pparent.args, kwargs=_kwargs)`. */
  datatype Generated = Generated(name: string, args: seq<Node>, kwargs: seq<GenKw>)

  /** `_kwargs = parent.copy(); _kwargs['prompt'] = p` where `parent` holds
      `prompt`: the same keys in the same order, every value but the
      prompt's copied. */
  function SetPrompt(parent: seq<KwArg>, p: PromptArg): (r: seq<GenKw>)
    ensures |r| == |parent|
    ensures forall k :: 0 <= k < |parent| ==> r[k].key == parent[k].key
    ensures forall k :: 0 <= k < |parent| ==>
      r[k].value == if parent[k].key == "prompt" then Raw(p) else Expr(parent[k].value)
  {
    if parent == [] then []
    else
      [GenKw(parent[0].key, if parent[0].key == "prompt" then Raw(p) else Expr(parent[0].value))]
      + SetPrompt(parent[1..], p)
  }

  /** The generated call of the `k`-th kept step. */
  function Link(owner: Node, parent: seq<KwArg>, step: string, k: nat): Generated
    requires owner.Call?
  {
    Generated(owner.name, owner.args, SetPrompt(parent, if k == 0 then Plain(step) else Contextual(step)))
  }

  /** The chain for the kept steps `steps`. */
  function Chain(owner: Node, parent: seq<KwArg>, steps: seq<string>): (r: seq<Generated>)
    requires owner.Call?
    ensures |r| == |steps|
  {
    seq(|steps|, k requires 0 <= k < |steps| => Link(owner, parent, steps[k], k))
  }

  /** The loop over the pieces of one reply: empty pieces are skipped, the
      first kept piece gets a plain prompt and each later one a contextual
      prompt. */
  method BuildChain(owner: Node, parent: seq<KwArg>, pieces: seq<string>) returns (nodes: seq<Generated>)
    requires owner.Call?
    ensures nodes == Chain(owner, parent, Kept(pieces))
  {
    nodes := [];
    var before: Option<Generated> := None;
    for j := 0 to |pieces|
      invariant nodes == Chain(owner, parent, Kept(pieces[..j]))
      invariant before.None? <==> nodes == []
    {
      assert pieces[..j + 1][..j] == pieces[..j];
      var p := pieces[j];
      if p == "" {
        continue;
      }
      var node: Generated;
      if before.None? {
        node := Generated(owner.name, owner.args, SetPrompt(parent, Plain(p)));
      } else {
        node := Generated(owner.name, owner.args, SetPrompt(parent, Contextual(p)));
      }
      assert node == Link(owner, parent, p, |nodes|);
      assert Chain(owner, parent, Kept(pieces[..j]) + [p]) == nodes + [node];
      nodes := nodes + [node];
      before := Some(node);
    }
    assert pieces[..|pieces|] == pieces;
  }

  // ---------------------------------------------------------------------------
  // The pass

  /** The oracle with this pass's system prompt and instruction fixed:
      `call_llm(system_prompt, instruction + prompt)` as a function of the
      prompt text. */
  function Asker(oracle: (string, string) -> string): string -> string {
    t => oracle(SystemText, Instruction + t)
  }

  /** The chain built for one found prompt; only a `String` prompt gets
      this far. `ask` is the oracle with the pass's prompts fixed and
      `split` the clean-up of its reply into pieces (`Pieces` in the pass
      itself). */
  function ChainFor(ask: string -> string, split: string -> seq<string>, f: Found): seq<Generated> {
    if f.value.String? && f.owner.Call? then
      Chain(f.owner, f.parent, Kept(split(ask(f.value.text))))
    else []
  }

  function ChainsFor(ask: string -> string, split: string -> seq<string>, fs: seq<Found>): (r: seq<seq<Generated>>)
    ensures |r| == |fs|
  {
    if fs == [] then [] else [ChainFor(ask, split, fs[0])] + ChainsFor(ask, split, fs[1..])
  }

  /** The outcome of the pass: the first prompt that is not a `String` fails
      it, and otherwise the program is returned as it was. */
  function DecomposeOutcome(stmts: seq<Node>): Result<seq<Node>, CoreError> {
    match FirstError(Values(SitesOfAll(stmts)))
    case Some(e) => Err(e)
    case None => Ok(stmts)
  }

  /** The loop over the prompts one statement yields: each prompt's text
      goes to the oracle and its reply is turned into a chain; a prompt that
      is not a `String` stops the loop with its error. */
  method DecomposeSites(ask: string -> string, split: string -> seq<string>, sites: seq<Found>)
    returns (err: Option<CoreError>, chains: seq<seq<Generated>>)
    requires forall k :: 0 <= k < |sites| ==> sites[k].owner.Call?
    ensures err == FirstError(Values(sites))
    ensures err.None? ==> chains == ChainsFor(ask, split, sites)
  {
    err, chains := None, [];
    for j := 0 to |sites|
      invariant forall k :: 0 <= k < j ==> sites[k].value.String?
      invariant chains == ChainsFor(ask, split, sites[..j])
    {
      var site := sites[j];
      var read := SiteText(site.value);
      if read.Err? {
        ErrorAtSite(sites, j);
        return Some(read.error), chains;
      }
      var reply := ask(read.value);
      var chain := BuildChain(site.owner, site.parent, split(reply));
      ChainsStep(ask, split, sites, j);
      chains := chains + [chain];
    }
    assert sites[..|sites|] == sites;
    SitesAllText(sites);
  }

  /** One more site read adds its chain. */
  lemma ChainsStep(ask: string -> string, split: string -> seq<string>, sites: seq<Found>, j: nat)
    requires j < |sites|
    ensures ChainsFor(ask, split, sites[..j + 1]) == ChainsFor(ask, split, sites[..j]) + [ChainFor(ask, split, sites[j])]
  {
    assert sites[..j + 1] == sites[..j] + [sites[j]];
    ChainsAppend(ask, split, sites[..j], [sites[j]]);
    assert ChainsFor(ask, split, [sites[j]]) == [ChainFor(ask, split, sites[j])];
  }

  /** The first site whose value is not a `String` gives the error. */
  lemma ErrorAtSite(sites: seq<Found>, j: nat)
    requires j < |sites| && !sites[j].value.String?
    requires forall k :: 0 <= k < j ==> sites[k].value.String?
    ensures FirstError(Values(sites)) == Some(SiteText(sites[j].value).error)
  {
    var vs := Values(sites);
    assert AllText(vs[..j]);
    FirstErrorAt(vs, j);
  }

  lemma SitesAllText(sites: seq<Found>)
    requires forall k :: 0 <= k < |sites| ==> sites[k].value.String?
    ensures FirstError(Values(sites)) == None
  {
    assert AllText(Values(sites));
  }

  /** The loop over the statements, with the oracle's prompts fixed. */
  method DecomposeStatements(ask: string -> string, split: string -> seq<string>, stmts: seq<Node>)
    returns (r: Result<seq<Node>, CoreError>, chains: seq<seq<Generated>>)
    ensures r == DecomposeOutcome(stmts)
    ensures r.Ok? ==> AllText(Values(SitesOfAll(stmts))) && chains == ChainsFor(ask, split, SitesOfAll(stmts))
  {
    chains := [];
    var seen: seq<Found> := [];
    assert stmts[0..] == stmts;
    for i := 0 to |stmts|
      invariant SitesOfAll(stmts) == seen + SitesOfAll(stmts[i..])
      invariant AllText(Values(seen))
      invariant chains == ChainsFor(ask, split, seen)
    {
      assert stmts[i..][1..] == stmts[i + 1..];
      var sites := Sites(stmts[i]);
      var rest := SitesOfAll(stmts[i + 1..]);
      assert SitesOfAll(stmts) == seen + sites + rest;
      var err, more := DecomposeSites(ask, split, sites);
      if err.Some? {
        ErrorInside(seen, sites, rest);
        return Err(err.value), chains;
      }
      ChainsAppend(ask, split, seen, sites);
      ValuesAppend(seen, sites);
      chains := chains + more;
      seen := seen + sites;
    }
    assert stmts[|stmts|..] == [];
    assert seen + [] == seen;
    r := Ok(stmts);
  }

  /** `decomposition_opt_passes_optimization` after the oracle has been
      chosen. `chains` holds the call list built for each found prompt, in
      walk order; the source binds each to a local name and drops it. */
  method DecompositionPass(oracle: (string, string) -> string, stmts: seq<Node>)
    returns (r: Result<seq<Node>, CoreError>, chains: seq<seq<Generated>>)
    ensures r == DecomposeOutcome(stmts)
    ensures r.Ok? ==> AllText(Values(SitesOfAll(stmts))) && chains == ChainsFor(Asker(oracle), Pieces, SitesOfAll(stmts))
  {
    r, chains := DecomposeStatements(Asker(oracle), Pieces, stmts);
  }

  lemma {:induction false} ChainsAppend(ask: string -> string, split: string -> seq<string>, a: seq<Found>, b: seq<Found>)
    ensures ChainsFor(ask, split, a + b) == ChainsFor(ask, split, a) + ChainsFor(ask, split, b)
  {
    if a != [] {
      assert (a + b)[0] == a[0];
      assert (a + b)[1..] == a[1..] + b;
      ChainsAppend(ask, split, a[1..], b);
    } else {
      assert a + b == b;
    }
  }

  /** An error among the prompts of one statement, after prompts that all
      hold strings, is the error of the whole walk. */
  lemma ErrorInside(seen: seq<Found>, sites: seq<Found>, rest: seq<Found>)
    requires AllText(Values(seen)) && FirstError(Values(sites)).Some?
    ensures FirstError(Values(seen + sites + rest)) == FirstError(Values(sites))
  {
    ValuesAppend(seen + sites, rest);
    ValuesAppend(seen, sites);
    FirstErrorInside(Values(seen), Values(sites), Values(rest));
  }

  // ---------------------------------------------------------------------------
  // As written: `call_llm` returns its placeholder dict, not a string

  const DecompositionName := "decomposition_opt_passes"

  /** What the loop body raises at a found prompt, as written. A prompt that
      is not a `String` raises as in the intended pass; otherwise the
      definitions lookup may raise, and failing that the key test for
      `</think>` is false and `val.strip()` on the reply dict raises. */
  function SiteRaises(items: seq<DefItem>, v: Node): (e: CoreError)
    ensures !v.String? ==> e == SiteText(v).error
    ensures v.String? && LastNamed(items, DecompositionName).None? ==>
      e == (if items == [] then KeyError("None") else TypeError("list indices must be integers or slices, not NoneType"))
    ensures v.String? && LastNamed(items, DecompositionName).Some? ==> e == AttributeError("'dict' object has no attribute 'strip'")
  {
    match SiteText(v)
    case Err(e) => e
    case Ok(t) =>
      match PassCall(items, LastNamed(items, DecompositionName), SystemText, Instruction + t)
      case Err(e) => e
      case Ok(reply) =>
        if HasKey(reply, Think) then AttributeError("'dict' object has no attribute 'split'")
        else AttributeError("'dict' object has no attribute 'strip'")
  }

  /** `decomposition_opt_passes_optimization` as written: the first prompt
      the walk finds raises, and a program without prompts comes back as it
      was. */
  function DecomposeAsWritten(items: seq<DefItem>, stmts: seq<Node>): Result<seq<Node>, CoreError> {
    var vs := Values(SitesOfAll(stmts));
    if vs == [] then Ok(stmts) else Err(SiteRaises(items, vs[0]))
  }

  /** The loops of the pass as written: the definitions scan for `ind`, the
      statements, and the body of the walk loop, which raises at the first
      prompt it is given. */
  method DecompositionAsWritten(items: seq<DefItem>, stmts: seq<Node>) returns (r: Result<seq<Node>, CoreError>)
    ensures r == DecomposeAsWritten(items, stmts)
  {
    var ind := FindIndex(items, DecompositionName);
    assert stmts[0..] == stmts;
    for i := 0 to |stmts|
      invariant SitesOfAll(stmts) == SitesOfAll(stmts[i..])
    {
      assert stmts[i..][1..] == stmts[i + 1..];
      var sites := Sites(stmts[i]);
      if sites != [] {
        assert Values(SitesOfAll(stmts))[0] == sites[0].value;
        var read := SiteText(sites[0].value);
        if read.Err? {
          return Err(read.error);
        }
        var val := PassCall(items, ind, SystemText, Instruction + read.value);
        if val.Err? {
          return Err(val.error);
        }
        if HasKey(val.value, Think) {
          return Err(AttributeError("'dict' object has no attribute 'split'"));
        }
        return Err(AttributeError("'dict' object has no attribute 'strip'"));
      }
    }
    assert stmts[|stmts|..] == [];
    r := Ok(stmts);
  }

  /** Against the intended pass: as written it runs through only on a
      program without prompts; a first prompt that is not a `String` fails
      both with the same error; and a program whose prompts are all strings,
      which the intended pass accepts, makes the pass as written raise. */
  lemma AsWrittenAgainstIntended(items: seq<DefItem>, stmts: seq<Node>)
    ensures DecomposeAsWritten(items, stmts).Ok? <==> SitesOfAll(stmts) == []
    ensures SitesOfAll(stmts) != [] && !SitesOfAll(stmts)[0].value.String? ==>
      DecomposeAsWritten(items, stmts) == DecomposeOutcome(stmts)
    ensures SitesOfAll(stmts) != [] && AllText(Values(SitesOfAll(stmts))) && LastNamed(items, DecompositionName).Some? ==>
      DecomposeOutcome(stmts) == Ok(stmts) && DecomposeAsWritten(items, stmts) == Err(AttributeError("'dict' object has no attribute 'strip'"))
  {
    var vs := Values(SitesOfAll(stmts));
    if vs != [] && !vs[0].String? {
      assert AllText(vs[..0]);
      FirstErrorAt(vs, 0);
    }
  }

  /** One `gen(prompt="hi")` with a definition named for the pass: the
      intended pass accepts it, the pass as written raises. */
  lemma OnePromptDecomposed()
    ensures DecomposeOutcome([Call("gen", [], [KwArg("prompt", String("hi"))])])
      == Ok([Call("gen", [], [KwArg("prompt", String("hi"))])])
    ensures DecomposeAsWritten([DefItem(DecompositionName, LlmDef(None))], [Call("gen", [], [KwArg("prompt", String("hi"))])])
      == Err(AttributeError("'dict' object has no attribute 'strip'"))
  {
    var stmt := Call("gen", [], [KwArg("prompt", String("hi"))]);
    var items := [DefItem(DecompositionName, LlmDef(None))];
    assert LastNamed(items, DecompositionName) == Some(0);
    assert [stmt][1..] == [];
    assert SitesOfAll([stmt]) == Sites(stmt) == [Found(String("hi"), stmt.kwargs, stmt)];
    AsWrittenAgainstIntended(items, [stmt]);
  }
}
