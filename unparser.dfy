/** The block-form pretty printer of aissembly_core/unparser.py: nodes of the
    core front end back to source text. */
module Unparser {
  import opened Basics
  import opened PyStr
  import opened CoreAst
  import opened CoreBuilder

  // ---------------------------------------------------------------------------
  // String literals: `json.dumps(s, ensure_ascii=False)`

  function HexDigit(d: nat): (c: char)
    requires d < 16
  {
    if d < 10 then ('0' as int + d) as char else ('a' as int + d - 10) as char
  }

  /** The escape `json.dumps` writes for one character: the two-character
      escapes for `"`, `\`, newline, carriage return, tab, backspace and form
      feed, `\u00xx` (lower-case hex) for the other control characters, and the
      character itself otherwise (no ASCII-only escaping). */
  function EscapeChar(c: char): (r: string)
    ensures 1 <= |r|
    ensures |r| == 1 <==> r == [c]
  {
    if c == '"' then "\\\""
    else if c == '\\' then "\\\\"
    else if c == '\n' then "\\n"
    else if c == '\r' then "\\r"
    else if c == '\t' then "\\t"
    else if c == 8 as char then "\\b"
    else if c == 12 as char then "\\f"
    else if (c as int) < 0x20 then "\\u00" + [HexDigit(c as int / 16), HexDigit(c as int % 16)]
    else [c]
  }

  /** `c` is written escaped. */
  predicate NeedsEscape(c: char) {
    c == '"' || c == '\\' || (c as int) < 0x20
  }

  function EscapeAll(s: string): (r: string)
    ensures |r| >= |s|
  {
    if s == [] then [] else EscapeChar(s[0]) + EscapeAll(s[1..])
  }

  /** `_quote`. */
  function Quote(s: string): (r: string)
    ensures |r| >= 2 && r[0] == '"' && r[|r| - 1] == '"'
  {
    "\"" + EscapeAll(s) + "\""
  }

  function HexValue(c: char): Option<nat> {
    if '0' <= c <= '9' then Some(c as int - '0' as int)
    else if 'a' <= c <= 'f' then Some(c as int - 'a' as int + 10)
    else if 'A' <= c <= 'F' then Some(c as int - 'A' as int + 10)
    else None
  }

  /** The character of a two-character JSON escape `\c`. */
  function SimpleEscape(c: char): Option<char> {
    if c == '"' then Some('"')
    else if c == '\\' then Some('\\')
    else if c == '/' then Some('/')
    else if c == 'n' then Some('\n')
    else if c == 'r' then Some('\r')
    else if c == 't' then Some('\t')
    else if c == 'b' then Some(8 as char)
    else if c == 'f' then Some(12 as char)
    else None
  }

  /** The value of four hex digits, when they name a character that is not a
      surrogate (surrogate pairs are not decoded). */
  function HexChar(h: string): Option<char>
    requires |h| == 4
  {
    var d0 :- HexValue(h[0]);
    var d1 :- HexValue(h[1]);
    var d2 :- HexValue(h[2]);
    var d3 :- HexValue(h[3]);
    var v := ((d0 * 16 + d1) * 16 + d2) * 16 + d3;
    if v < 0xD800 || (0xE000 <= v && v < 0x1_0000) then Some(v as char) else None
  }

  /** The body of a JSON string literal decoded: an independent reading of
      the escapes, which rejects a raw `"` or control character. */
  function Unescape(t: string): Option<string>
    decreases |t|
  {
    if t == [] then Some([])
    else if t[0] == '\\' then
      if |t| < 2 then None
      else if t[1] == 'u' then
        if |t| < 6 then None
        else
          var c :- HexChar(t[2..6]);
          var rest :- Unescape(t[6..]);
          Some([c] + rest)
      else
        var c :- SimpleEscape(t[1]);
        var rest :- Unescape(t[2..]);
        Some([c] + rest)
    else if t[0] == '"' || (t[0] as int) < 0x20 then None
    else
      var rest :- Unescape(t[1..]);
      Some([t[0]] + rest)
  }

  /** `json.loads` on a string literal. */
  function Unquote(q: string): Option<string> {
    if |q| >= 2 && q[0] == '"' && q[|q| - 1] == '"' then Unescape(q[1..|q| - 1]) else None
  }

  lemma HexDigitValue(d: nat)
    requires d < 16
    ensures HexValue(HexDigit(d)) == Some(d)
  {
  }

  lemma UnescapeChar(c: char, rest: string)
    ensures Unescape(EscapeChar(c) + rest) ==
      match Unescape(rest) case Some(r) => Some([c] + r) case None => None
  {
    var e := EscapeChar(c);
    var t := e + rest;
    if |e| == 1 {
      assert t[0] == c && t[1..] == rest;
    } else if |e| == 2 {
      assert t[0] == '\\' && t[1] == e[1] && t[2..] == rest;
    } else {
      var v := c as int;
      HexDigitValue(v / 16);
      HexDigitValue(v % 16);
      assert t[0] == '\\' && t[1] == 'u' && t[6..] == rest;
      assert t[2..6] == ['0', '0', HexDigit(v / 16), HexDigit(v % 16)];
      assert HexChar(t[2..6]) == Some(c);
    }
  }

  lemma {:induction false} UnescapeEscapeAll(s: string)
    ensures Unescape(EscapeAll(s)) == Some(s)
  {
    if s != [] {
      UnescapeEscapeAll(s[1..]);
      UnescapeChar(s[0], EscapeAll(s[1..]));
      assert [s[0]] + s[1..] == s;
    }
  }

  /** A quoted string reads back as the string: `_quote` is inverted by a JSON
      decoder. */
  lemma QuoteRoundTrip(s: string)
    ensures Unquote(Quote(s)) == Some(s)
  {
    var q := Quote(s);
    assert q[1..|q| - 1] == EscapeAll(s);
    UnescapeEscapeAll(s);
  }

  lemma {:induction false} EscapeAllLength(s: string)
    ensures EscapeAll(s) == s <==> forall k :: 0 <= k < |s| ==> !NeedsEscape(s[k])
  {
    if s != [] {
      EscapeAllLength(s[1..]);
      assert forall k :: 1 <= k < |s| ==> s[k] == s[1..][k - 1];
      var e := EscapeChar(s[0]);
      if EscapeAll(s) == s {
        assert |e| == 1 by {
          assert |EscapeAll(s[1..])| >= |s| - 1;
        }
        assert e + EscapeAll(s[1..]) == [s[0]] + s[1..];
        assert EscapeAll(s[1..]) == s[1..];
      }
    }
  }

  /** The parser's `string` reduction drops the quotes but keeps escapes as
      written, so rendering a `String` and reading it back gives the same node
      exactly when the text holds no character that needs escaping. */
  lemma StringRoundTripIffPlain(s: string)
    ensures BuildString(Quote(s)) == String(s) <==> forall k :: 0 <= k < |s| ==> !NeedsEscape(s[k])
  {
    var q := Quote(s);
    assert q[1..|q| - 1] == EscapeAll(s);
    EscapeAllLength(s);
  }

  // ---------------------------------------------------------------------------
  // Layout

  function Spaces(n: nat): (r: string)
    ensures |r| == n && forall k :: 0 <= k < n ==> r[k] == ' '
  {
    seq(n, _ => ' ')
  }

  /** Each non-empty line prefixed with `pad`; empty lines stay empty. */
  function PadLines(lines: seq<string>, pad: string): (r: seq<string>)
    ensures |r| == |lines|
    ensures forall k :: 0 <= k < |lines| ==> r[k] == if lines[k] == [] then [] else pad + lines[k]
  {
    if lines == [] then []
    else [if lines[0] == [] then [] else pad + lines[0]] + PadLines(lines[1..], pad)
  }

  /** `_indent`. */
  function Indent(s: string, n: nat): string {
    Join(PadLines(SplitLines(s), Spaces(n)), "\n")
  }

  lemma NoBreakPadded(n: nat, l: string)
    requires NoBreak(l)
    ensures NoBreak(Spaces(n) + l)
  {
    var t := Spaces(n) + l;
    forall k | 0 <= k < |t| ensures !IsLineBreak(t[k]) {
      if k >= n {
        assert t[k] == l[k - n];
      }
    }
  }

  /** The lines of an indented text are the lines of the text, each non-empty
      one prefixed with `n` spaces, as long as the text does not end with an
      empty line. */
  lemma IndentLines(s: string, n: nat)
    requires SplitLines(s) != [] ==> SplitLines(s)[|SplitLines(s)| - 1] != []
    ensures SplitLines(Indent(s, n)) == PadLines(SplitLines(s), Spaces(n))
  {
    var ls := SplitLines(s);
    var padded := PadLines(ls, Spaces(n));
    forall l | l in padded ensures NoBreak(l) {
      var k :| 0 <= k < |padded| && padded[k] == l;
      assert ls[k] in ls;
      if ls[k] != [] {
        NoBreakPadded(n, ls[k]);
      }
    }
    SplitLinesOfJoin(padded);
  }

  // ---------------------------------------------------------------------------
  // The tables

  /** `_is_atom_node`. */
  predicate IsAtom(n: Node) {
    n.Number? || n.String? || n.Boolean? || n.Var? || n.ListLiteral? || n.DictLiteral?
  }

  /** `_is_blockish`. */
  predicate IsBlockish(n: Node) {
    n.ForLoop? || n.WhileLoop? || n.Cond?
  }

  /** `_BINOP`. */
  function BinopSymbol(name: string): Option<string> {
    if name == "op.add" then Some("+")
    else if name == "op.sub" then Some("-")
    else if name == "op.mul" then Some("*")
    else if name == "op.div" then Some("/")
    else if name == "op.mod" then Some("%")
    else if name == "op.eq" then Some("==")
    else if name == "op.neq" then Some("!=")
    else if name == "op.lt" then Some("<")
    else if name == "op.le" then Some("<=")
    else if name == "op.gt" then Some(">")
    else if name == "op.ge" then Some(">=")
    else None
  }

  /** `_BOOLBIN`. */
  function BoolWord(name: string): Option<string> {
    if name == "op.land" then Some("and") else if name == "op.lor" then Some("or") else None
  }

  // ---------------------------------------------------------------------------
  // Trailer chains

  /** A call the trailer loop unwraps: `op.get` with two arguments, or
      `op.slice` with at least one. */
  predicate IsTrailerCall(n: Node) {
    n.Call? && ((n.name == "op.get" && |n.args| == 2) || (n.name == "op.slice" && |n.args| >= 1))
  }

  /** The chain entry of one unwrapped call; a slice bound that is absent is
      `None`. */
  function TrailerOf(n: Node): (t: Trailer)
    requires IsTrailerCall(n)
  {
    if n.name == "op.get" then Index(n.args[1])
    else Slice(if |n.args| >= 2 then n.args[1] else NoneNode, if |n.args| >= 3 then n.args[2] else NoneNode)
  }

  /** `_unwrap_trailer_chain`: the innermost non-trailer base and the trailers
      in the order they were applied. */
  function Unwrap(n: Node): (r: (Node, seq<Trailer>))
    ensures !IsTrailerCall(r.0)
    ensures r.1 == [] <==> !IsTrailerCall(n)
  {
    if IsTrailerCall(n) then
      var inner := Unwrap(n.args[0]);
      (inner.0, inner.1 + [TrailerOf(n)])
    else (n, [])
  }

  function Reversed<T>(s: seq<T>): (r: seq<T>)
    ensures |r| == |s| && forall k :: 0 <= k < |s| ==> r[k] == s[|s| - 1 - k]
  {
    if s == [] then [] else Reversed(s[1..]) + [s[0]]
  }

  lemma ReversedSnoc<T>(s: seq<T>, x: T)
    ensures Reversed(s + [x]) == [x] + Reversed(s)
  {
  }

  /** The loop of `_unwrap_trailer_chain`: it walks from the outermost call
      inwards, collecting trailers outermost first, and reverses them at the end. */
  method UnwrapTrailerChain(node: Node) returns (base: Node, chain: seq<Trailer>)
    ensures (base, chain) == Unwrap(node)
  {
    var rev: seq<Trailer> := [];
    var cur := node;
    assert Unwrap(cur).1 + Reversed(rev) == Unwrap(cur).1;
    while cur.Call? && (cur.name == "op.get" || cur.name == "op.slice") && |cur.args| > 0
      invariant Unwrap(node) == (Unwrap(cur).0, Unwrap(cur).1 + Reversed(rev))
      decreases cur
    {
      var t: Trailer;
      if cur.name == "op.get" && |cur.args| == 2 {
        t := Index(cur.args[1]);
      } else if cur.name == "op.slice" {
        var start := if |cur.args| >= 2 then cur.args[1] else NoneNode;
        var end := if |cur.args| >= 3 then cur.args[2] else NoneNode;
        t := Slice(start, end);
      } else {
        break;
      }
      assert IsTrailerCall(cur) && t == TrailerOf(cur);
      ReversedSnoc(rev, t);
      var inner := Unwrap(cur.args[0]);
      assert inner.1 + [t] + Reversed(rev) == inner.1 + Reversed(rev + [t]);
      rev := rev + [t];
      cur := cur.args[0];
    }
    assert !IsTrailerCall(cur);
    assert [] + Reversed(rev) == Reversed(rev);
    base := cur;
    chain := Reversed(rev);
  }

  /** Unwrapping inverts the parser's trailer folding: the base and the
      trailers `atom` folded come back in order. */
  lemma {:induction false} UnwrapFoldTrailers(primary: Node, trailers: seq<Trailer>)
    requires !IsTrailerCall(primary)
    ensures Unwrap(FoldTrailers(primary, trailers)) == (primary, trailers)
  {
    if trailers != [] {
      var init, last := trailers[..|trailers| - 1], trailers[|trailers| - 1];
      var folded := FoldTrailers(primary, init);
      UnwrapFoldTrailers(primary, init);
      assert Unwrap(folded) == (primary, init);
      assert FoldTrailers(primary, trailers) == ApplyTrailer(folded, last);
      UnwrapApply(folded, last, FoldTrailers(primary, trailers));
      assert init + [last] == trailers;
    }
  }

  /** Unwrapping one applied trailer takes exactly that trailer off the end. */
  lemma UnwrapApply(node: Node, t: Trailer, applied: Node)
    requires applied == ApplyTrailer(node, t)
    ensures Unwrap(applied) == (Unwrap(node).0, Unwrap(node).1 + [t])
  {
    assert IsTrailerCall(applied) && applied.args[0] == node && TrailerOf(applied) == t;
  }

  // ---------------------------------------------------------------------------
  // Expressions

  /** A keyword argument's name with its rendered `name=value` text. */
  datatype Rendered = Rendered(key: string, text: string)

  /** `expr_to_source`. A trailer call renders as its base followed by
      `[i]` or `[s:e]`; for every other node the cases are tried in the order
      atoms, `Cond`, loops, `not`, prefix minus, binary operators, `and`/`or`,
      any other call, and the `<unknown:...>` fallback. */
  function ExprToSource(n: Node): string
    decreases n, 2
  {
    if IsTrailerCall(n) then
      ExprToSource(n.args[0]) +
      (if n.name == "op.get" then "[" + ExprToSource(n.args[1]) + "]"
       else "[" + (if |n.args| >= 2 then BoundToSource(n.args[1]) else "") + ":" +
            (if |n.args| >= 3 then BoundToSource(n.args[2]) else "") + "]")
    else
      match n
      case Number(v) => IntToString(v)
      case String(v) => Quote(v)
      case Boolean(b) => if b then "true" else "false"
      case Var(x) => x
      case ListLiteral(es) => "[" + Join(ExprsToSource(es), ", ") + "]"
      case DictLiteral(ps) => "{" + Join(PairsToSource(ps), ", ") + "}"
      case Cond(test, thenBranch, elseBranch) =>
        "cond(test=" + ExprToSource(test) + "):\n" +
        "    then:\n" + Indent("-> " + ExprToSource(thenBranch), 8) + "\n" +
        "    else:\n" + Indent("-> " + ExprToSource(elseBranch), 8)
      case ForLoop(start, end, step, init, body) =>
        "for (range(" + ExprToSource(start) + ", " + ExprToSource(end) +
        (if step == Number(1) then "" else ", " + ExprToSource(step)) +
        "), init=" + ExprToSource(init) + "):\n" + Indent("-> " + ExprToSource(body), 4)
      case WhileLoop(test, init, body) =>
        "while (test=" + ExprToSource(test) + ", init=" + ExprToSource(init) + "):\n" +
        Indent("-> " + ExprToSource(body), 4)
      case Call(name, args, kwargs) =>
        if name == "op.lnot" && |args| == 1 then "not " + Operand(args[0])
        else if name == "op.sub" && |args| == 2 && args[0] == Number(0) then "-" + Operand(args[1])
        else if BinopSymbol(name).Some? && |args| == 2 then
          Operand(args[0]) + " " + BinopSymbol(name).value + " " + Operand(args[1])
        else if BoolWord(name).Some? && |args| == 2 then
          Operand(args[0]) + " " + BoolWord(name).value + " " + Operand(args[1])
        else
          name + "(" + Join(ExprsToSource(args) + KwTexts(SortStrings(Keys(kwargs)), KwRendered(kwargs)), ", ") + ")"
      case _ => "<unknown:" + ClassName(n) + ">"
  }

  /** An operand of an operator: parenthesised unless it is an atom. */
  function Operand(n: Node): string
    decreases n, 3
  {
    if IsAtom(n) then ExprToSource(n) else "(" + ExprToSource(n) + ")"
  }

  /** A slice bound: `None` prints as nothing. */
  function BoundToSource(n: Node): string
    decreases n, 3
  {
    if n.NoneNode? then "" else ExprToSource(n)
  }

  function ExprsToSource(ns: seq<Node>): (r: seq<string>)
    ensures |r| == |ns|
    decreases ns, 1
  {
    if ns == [] then [] else [ExprToSource(ns[0])] + ExprsToSource(ns[1..])
  }

  function PairToSource(p: Pair): string
    decreases p, 1
  {
    ExprToSource(p.key) + ": " + ExprToSource(p.value)
  }

  function PairsToSource(ps: seq<Pair>): (r: seq<string>)
    ensures |r| == |ps|
    decreases ps, 1
  {
    if ps == [] then [] else [PairToSource(ps[0])] + PairsToSource(ps[1..])
  }

  function KwRendered(kw: seq<KwArg>): (r: seq<Rendered>)
    ensures |r| == |kw| && forall k :: 0 <= k < |kw| ==> r[k].key == kw[k].key
    decreases kw, 1
  {
    if kw == [] then []
    else [Rendered(kw[0].key, kw[0].key + "=" + ExprToSource(kw[0].value))] + KwRendered(kw[1..])
  }

  /** The keys of a keyword dict, in insertion order. */
  function Keys(kw: seq<KwArg>): (r: seq<string>)
    ensures |r| == |kw| && forall k :: 0 <= k < |kw| ==> r[k] == kw[k].key
  {
    if kw == [] then [] else [kw[0].key] + Keys(kw[1..])
  }

  function LookupRendered(rs: seq<Rendered>, key: string): string {
    if rs == [] then "" else if rs[0].key == key then rs[0].text else LookupRendered(rs[1..], key)
  }

  /** The `k=v` texts for `keys`, in that order. */
  function KwTexts(keys: seq<string>, rs: seq<Rendered>): (r: seq<string>)
    ensures |r| == |keys|
  {
    if keys == [] then [] else [LookupRendered(rs, keys[0])] + KwTexts(keys[1..], rs)
  }

  /** `stmt_to_source`. */
  function StmtToSource(s: Node): (r: string)
    ensures s.LetStmt? ==> r == "let " + s.name + " = " + ExprToSource(s.expr) + ";"
    ensures !s.LetStmt? && IsBlockish(s) ==> r == ExprToSource(s)
    ensures !s.LetStmt? && !IsBlockish(s) ==> r == ExprToSource(s) + ";"
  {
    if s.LetStmt? then "let " + s.name + " = " + ExprToSource(s.expr) + ";"
    else if IsBlockish(s) then ExprToSource(s)
    else ExprToSource(s) + ";"
  }

  function StmtsToSource(stmts: seq<Node>): (r: seq<string>)
    ensures |r| == |stmts| && forall k :: 0 <= k < |stmts| ==> r[k] == StmtToSource(stmts[k])
  {
    if stmts == [] then [] else [StmtToSource(stmts[0])] + StmtsToSource(stmts[1..])
  }

  /** `program_to_source`. */
  function ProgramToSource(stmts: seq<Node>): string {
    Join(StmtsToSource(stmts), "\n")
  }

  // ---------------------------------------------------------------------------
  // Properties of rendering

  function TrailerToSource(t: Trailer): string {
    match t
    case Index(i) => "[" + ExprToSource(i) + "]"
    case Slice(st, e) => "[" + BoundToSource(st) + ":" + BoundToSource(e) + "]"
  }

  function TrailersToSource(ts: seq<Trailer>): string {
    if ts == [] then "" else TrailersToSource(ts[..|ts| - 1]) + TrailerToSource(ts[|ts| - 1])
  }

  /** A trailer chain renders as its base followed by the trailers in the
      order they were applied. */
  lemma RenderTrailerCall(n: Node)
    requires IsTrailerCall(n)
    ensures ExprToSource(n) == ExprToSource(n.args[0]) + TrailerToSource(TrailerOf(n))
  {
    assert BoundToSource(NoneNode) == "";
  }

  lemma {:induction false} RenderUnwrapped(n: Node)
    ensures ExprToSource(n) == ExprToSource(Unwrap(n).0) + TrailersToSource(Unwrap(n).1)
  {
    var r := Unwrap(n);
    if IsTrailerCall(n) {
      var inner := Unwrap(n.args[0]);
      var base, t := ExprToSource(inner.0), TrailerToSource(TrailerOf(n));
      RenderUnwrapped(n.args[0]);
      RenderTrailerCall(n);
      assert r.1[..|r.1| - 1] == inner.1 && r.1[|r.1| - 1] == TrailerOf(n);
      assert TrailersToSource(r.1) == TrailersToSource(inner.1) + t;
      assert base + TrailersToSource(inner.1) + t == base + (TrailersToSource(inner.1) + t);
    } else {
      assert r == (n, []);
    }
  }

  /** What `atom` builds renders back as the primary followed by `[i]` and
      `[s:e]` in source order, absent bounds printing as nothing. */
  lemma RenderFoldTrailers(primary: Node, trailers: seq<Trailer>)
    requires !IsTrailerCall(primary)
    ensures ExprToSource(FoldTrailers(primary, trailers)) == ExprToSource(primary) + TrailersToSource(trailers)
  {
    UnwrapFoldTrailers(primary, trailers);
    RenderUnwrapped(FoldTrailers(primary, trailers));
  }

  /** The surface spelling of each infix operator. */
  function Symbol(op: InfixOp): string {
    match op
    case Add => "+"
    case Sub => "-"
    case Mul => "*"
    case Div => "/"
    case Mod => "%"
    case Land => "and"
    case Lor => "or"
    case Compare(Eq) => "=="
    case Compare(Neq) => "!="
    case Compare(Lt) => "<"
    case Compare(Le) => "<="
    case Compare(Gt) => ">"
    case Compare(Ge) => ">="
  }

  lemma OperatorTables(op: InfixOp)
    ensures var name := "op." + InfixName(op);
      (op.Land? || op.Lor? ==> BinopSymbol(name).None? && BoolWord(name) == Some(Symbol(op))) &&
      (!op.Land? && !op.Lor? ==> BinopSymbol(name) == Some(Symbol(op))) &&
      name != "op.lnot" && name != "op.get" && name != "op.slice"
  {
    var name := "op." + InfixName(op);
    assert name[3..] == InfixName(op);
    match op
    case Add => assert name == "op.add";
    case Sub => assert name == "op.sub";
    case Mul => assert name == "op.mul";
    case Div => assert name == "op.div";
    case Mod => assert name == "op.mod";
    case Land => assert name == "op.land";
    case Lor => assert name == "op.lor";
    case Compare(Eq) => assert name == "op.eq";
    case Compare(Neq) => assert name == "op.neq";
    case Compare(Lt) => assert name == "op.lt";
    case Compare(Le) => assert name == "op.le";
    case Compare(Gt) => assert name == "op.gt";
    case Compare(Ge) => assert name == "op.ge";
  }

  /** Every operator call the parser builds renders back in infix form with
      its spelling, each non-atomic operand in parentheses, except that a
      subtraction from the literal 0 renders as a prefix minus. */
  lemma RenderInfix(op: InfixOp, a: Node, b: Node)
    ensures ExprToSource(BuildInfix(op, a, b)) ==
      if op == Sub && a == Number(0) then "-" + Operand(b)
      else Operand(a) + " " + Symbol(op) + " " + Operand(b)
  {
    OperatorTables(op);
    var n := BuildInfix(op, a, b);
    assert n.name == "op." + InfixName(op) && n.args == [a, b];
    assert n.name == "op.sub" <==> op == Sub by {
      assert n.name[3..] == InfixName(op);
    }
    RenderTwoArgCall(n);
  }

  /** A two-argument call that is no trailer and no `not`: a prefix minus, an
      infix operator, `and`/`or`, or a plain call, in that order. */
  lemma RenderTwoArgCall(n: Node)
    requires n.Call? && |n.args| == 2 && n.name != "op.get" && n.name != "op.slice" && n.name != "op.lnot"
    ensures n.name == "op.sub" && n.args[0] == Number(0) ==> ExprToSource(n) == "-" + Operand(n.args[1])
    ensures !(n.name == "op.sub" && n.args[0] == Number(0)) && BinopSymbol(n.name).Some? ==>
      ExprToSource(n) == Operand(n.args[0]) + " " + BinopSymbol(n.name).value + " " + Operand(n.args[1])
    ensures !(n.name == "op.sub" && n.args[0] == Number(0)) && BinopSymbol(n.name).None? && BoolWord(n.name).Some? ==>
      ExprToSource(n) == Operand(n.args[0]) + " " + BoolWord(n.name).value + " " + Operand(n.args[1])
  {
    assert !IsTrailerCall(n);
  }

  /** `-x` and `not x` render back as prefix operators. */
  lemma RenderPrefix(x: Node)
    ensures ExprToSource(BuildNeg(x)) == "-" + Operand(x)
    ensures ExprToSource(BuildNot(x)) == "not " + Operand(x)
  {
  }

  /** A for loop prints its step unless the step is the literal 1, so an
      explicit step of 1 and the default step print alike, and no other step
      does. */
  lemma RenderForStep(start: Node, end: Node, step: Node, init: Node, body: Node)
    ensures ExprToSource(BuildFor([start, end, step, init, body])) == ExprToSource(BuildFor([start, end, init, body]))
      <==> step == Number(1)
  {
    ForStepText(BuildFor([start, end, step, init, body]), BuildFor([start, end, init, body]));
  }

  /** Two loops that differ at most in the step, one of them with step 1,
      print alike exactly when the other's step is 1 as well. */
  lemma ForStepText(n: Node, m: Node)
    requires n.ForLoop? && m.ForLoop? && m.step == Number(1)
    requires n.start == m.start && n.end == m.end && n.init == m.init && n.body == m.body
    ensures ExprToSource(n) == ExprToSource(m) <==> n.step == Number(1)
  {
    if n.step != Number(1) {
      assert |ExprToSource(n)| == |ExprToSource(m)| + 2 + |ExprToSource(n.step)|;
    }
  }

  /** With distinct keys, each key that is present renders as `key=value`. */
  lemma {:induction false} LookupRenderedKw(kw: seq<KwArg>, key: string)
    requires LookupKw(kw, key).Some?
    ensures LookupRendered(KwRendered(kw), key) == key + "=" + ExprToSource(LookupKw(kw, key).value)
  {
    if kw[0].key != key {
      LookupRenderedKw(kw[1..], key);
    }
  }

  lemma {:induction false} KeysCount(kw: seq<KwArg>, x: string)
    requires DistinctKeys(kw)
    ensures multiset(Keys(kw))[x] == if LookupKw(kw, x).Some? then 1 else 0
  {
    if kw != [] {
      assert DistinctKeys(kw[1..]) by {
        forall i, j | 0 <= i < j < |kw[1..]| ensures kw[1..][i].key != kw[1..][j].key {
          assert kw[1..][i] == kw[i + 1] && kw[1..][j] == kw[j + 1];
        }
      }
      KeysCount(kw[1..], x);
      assert Keys(kw) == [kw[0].key] + Keys(kw[1..]);
    }
  }

  lemma {:induction false} KwTextsAgree(keys: seq<string>, r1: seq<Rendered>, r2: seq<Rendered>)
    requires forall k :: k in keys ==> LookupRendered(r1, k) == LookupRendered(r2, k)
    ensures KwTexts(keys, r1) == KwTexts(keys, r2)
  {
    if keys != [] {
      assert keys[0] in keys;
      assert forall k :: k in keys[1..] ==> k in keys;
      KwTextsAgree(keys[1..], r1, r2);
    }
  }

  /** A call that is no operator renders its keyword arguments sorted by
      name, so two dicts with the same entries in different insertion orders
      render alike. */
  lemma RenderGeneralCall(name: string, args: seq<Node>, kw: seq<KwArg>)
    requires name != "op.get" && name != "op.slice" && name != "op.lnot"
    requires BinopSymbol(name).None? && BoolWord(name).None?
    ensures ExprToSource(Call(name, args, kw)) ==
      name + "(" + Join(ExprsToSource(args) + KwTexts(SortStrings(Keys(kw)), KwRendered(kw)), ", ") + ")"
  {
  }

  lemma RenderKwargsOrderFree(name: string, args: seq<Node>, kw1: seq<KwArg>, kw2: seq<KwArg>)
    requires name != "op.get" && name != "op.slice" && name != "op.lnot"
    requires BinopSymbol(name).None? && BoolWord(name).None?
    requires DistinctKeys(kw1) && DistinctKeys(kw2)
    requires forall k :: LookupKw(kw1, k) == LookupKw(kw2, k)
    ensures ExprToSource(Call(name, args, kw1)) == ExprToSource(Call(name, args, kw2))
  {
    forall x ensures multiset(Keys(kw1))[x] == multiset(Keys(kw2))[x] {
      KeysCount(kw1, x);
      KeysCount(kw2, x);
    }
    assert multiset(Keys(kw1)) == multiset(Keys(kw2));
    var sorted := SortStrings(Keys(kw1));
    SortedUnique(sorted, SortStrings(Keys(kw2)));
    forall k | k in sorted ensures LookupRendered(KwRendered(kw1), k) == LookupRendered(KwRendered(kw2), k) {
      assert k in multiset(Keys(kw1));
      KeysCount(kw1, k);
      LookupRenderedKw(kw1, k);
      LookupRenderedKw(kw2, k);
    }
    KwTextsAgree(sorted, KwRendered(kw1), KwRendered(kw2));
    RenderGeneralCall(name, args, kw1);
    RenderGeneralCall(name, args, kw2);
  }

  lemma {:induction false} JoinSnoc(parts: seq<string>, x: string, sep: string)
    ensures Join(parts + [x], sep) == if parts == [] then x else Join(parts, sep) + sep + x
  {
    if parts != [] {
      assert (parts + [x])[1..] == parts[1..] + [x];
      JoinSnoc(parts[1..], x, sep);
    }
  }

  /** A program renders statement after statement, separated by single
      newlines. */
  lemma ProgramAppend(stmts: seq<Node>, s: Node)
    ensures ProgramToSource(stmts + [s]) ==
      if stmts == [] then StmtToSource(s) else ProgramToSource(stmts) + "\n" + StmtToSource(s)
  {
    assert StmtsToSource(stmts + [s]) == StmtsToSource(stmts) + [StmtToSource(s)];
    JoinSnoc(StmtsToSource(stmts), StmtToSource(s), "\n");
  }
}
