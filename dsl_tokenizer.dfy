/** `tokenize` of aissembly_dsl/tokenizer.py: lines are read one by one,
    blank and comment lines are skipped, leading spaces drive an indent
    stack, and the rest of each line is cut into tokens by the first
    alternative of `TOKEN_RE` that matches. */
module DslTokenizer {
  import opened Basics
  import opened PyStr
  import opened DslAst

  // ---------------------------------------------------------------------------
  // Character classes and the alternatives of TOKEN_RE

  const Keywords: set<string> := {
    "let", "mut", "set", "fn", "if", "else", "for", "in", "while", "init",
    "break", "continue", "true", "false", "none"
  }

  predicate IsIdentStart(c: char) { ('A' <= c <= 'Z') || ('a' <= c <= 'z') || c == '_' }

  predicate IsIdentChar(c: char) { IsIdentStart(c) || IsDigit(c) }

  predicate IsBlankChar(c: char) { c == ' ' || c == '\t' }

  predicate IsSpaceChar(c: char) { c == ' ' }

  /** The end of the longest run of characters in `inClass` from `pos`. */
  function Span(line: string, pos: nat, inClass: char -> bool): (e: nat)
    requires pos <= |line|
    ensures pos <= e <= |line|
    ensures forall k :: pos <= k < e ==> inClass(line[k])
    ensures e < |line| ==> !inClass(line[e])
    decreases |line| - pos
  {
    if pos == |line| || !inClass(line[pos]) then pos else Span(line, pos + 1, inClass)
  }

  /** The index of the first `q` at or after `from`, or `|line|`. */
  function Until(line: string, q: char, from: nat): (e: nat)
    requires from <= |line|
    ensures from <= e <= |line|
    ensures forall k :: from <= k < e ==> line[k] != q
    ensures e < |line| ==> line[e] == q
    decreases |line| - from
  {
    if from == |line| || line[from] == q then from else Until(line, q, from + 1)
  }

  /** A match of `TOKEN_RE`: the name of the group that matched and where
      the match ends. */
  datatype Lexeme = Lexeme(group: string, end: nat)

  const TwoCharOps: seq<string> := ["==", "!=", ">=", "<=", "->"]

  const OneCharOps: seq<char> := "+-*/%><"

  const Puncts: seq<char> := "(),:"

  /** `TOKEN_RE.match(line, pos)`: the alternatives `number`, `string`, `eq`,
      `op`, `ident`, `punct` tried in that order, the first that matches
      winning. The `\d` of `number` is read as the ASCII digits only; on
      `str` patterns it also matches the other Unicode decimal digits. */
  function MatchAt(line: string, pos: nat): (r: Option<Lexeme>)
    requires pos < |line|
    ensures r.Some? ==> pos < r.value.end <= |line|
  {
    var c := line[pos];
    if IsDigit(c) then Some(Lexeme("number", Span(line, pos, IsDigit)))
    else if (c == '\'' || c == '"') && Until(line, c, pos + 1) < |line| then
      Some(Lexeme("string", Until(line, c, pos + 1) + 1))
    else if c == '=' then Some(Lexeme("eq", pos + 1))
    else if pos + 2 <= |line| && line[pos..pos + 2] in TwoCharOps then Some(Lexeme("op", pos + 2))
    else if c in OneCharOps then Some(Lexeme("op", pos + 1))
    else if IsIdentStart(c) then Some(Lexeme("ident", Span(line, pos, IsIdentChar)))
    else if c in Puncts then Some(Lexeme("punct", pos + 1))
    else None
  }

  function UpperChar(c: char): char {
    if 'a' <= c <= 'z' then (c as int - 32) as char else c
  }

  /** `text.upper()` on the ASCII spellings it is applied to. */
  function Upper(s: string): (r: string)
    ensures |r| == |s|
  {
    seq(|s|, i requires 0 <= i < |s| => UpperChar(s[i]))
  }

  /** The token kind for a match of group `group` with text `text`. */
  function KindOf(group: string, text: string): string {
    if group == "ident" then (if text in Keywords then Upper(text) else "IDENT")
    else if group == "number" then "NUMBER"
    else if group == "string" then "STRING"
    else if group == "eq" then "EQUAL"
    else if group == "op" then (if text == "->" then "ARROW" else "OP")
    else if text == "," then "COMMA"
    else if text == ":" then "COLON"
    else if text == "(" then "LPAREN"
    else "RPAREN"
  }

  /** The kinds of tokens the line scanner produces. */
  const ScannedKinds: set<string> := {
    "NUMBER", "STRING", "EQUAL", "OP", "ARROW", "IDENT", "COMMA", "COLON", "LPAREN", "RPAREN",
    "LET", "MUT", "SET", "FN", "IF", "ELSE", "FOR", "IN", "WHILE", "INIT",
    "BREAK", "CONTINUE", "TRUE", "FALSE", "NONE"
  }

  lemma KindsOfKeywords()
    ensures forall w :: w in Keywords ==> Upper(w) in ScannedKinds && Upper(w) != "IDENT"
  {
    assert Upper("let") == "LET" && Upper("mut") == "MUT" && Upper("set") == "SET";
    assert Upper("fn") == "FN" && Upper("if") == "IF" && Upper("else") == "ELSE";
    assert Upper("for") == "FOR" && Upper("in") == "IN" && Upper("while") == "WHILE";
    assert Upper("init") == "INIT" && Upper("break") == "BREAK";
    assert Upper("continue") == "CONTINUE" && Upper("true") == "TRUE";
    assert Upper("false") == "FALSE" && Upper("none") == "NONE";
  }

  /** Every scanned token has one of the scanned kinds, so none of them is
      `INDENT`, `DEDENT`, `NEWLINE` or `EOF`; an identifier keeps `IDENT`
      exactly when it is not a keyword. */
  lemma KindOfScanned(group: string, text: string)
    ensures KindOf(group, text) in ScannedKinds
    ensures group == "ident" ==> (KindOf(group, text) == "IDENT" <==> text !in Keywords)
  {
    KindsOfKeywords();
  }

  // ---------------------------------------------------------------------------
  // One line

  /** The token at `pos` for a match `m` there; its column is 1-based. */
  function TokenAt(line: string, lineno: int, pos: nat, m: Lexeme): Token
    requires pos <= m.end <= |line|
  {
    Token(KindOf(m.group, line[pos..m.end]), line[pos..m.end], lineno, pos + 1)
  }

  /** A token sits on line `lineno` of `line`: its text is the non-empty slice
      of the line that starts at its column. */
  predicate SitsIn(t: Token, line: string, lineno: int) {
    t.line == lineno && 1 <= t.col && t.col - 1 + |t.value| <= |line|
    && t.value != [] && line[t.col - 1..t.col - 1 + |t.value|] == t.value
  }

  /** The inner `while pos < line_len` loop, appending to `acc`. */
  function ScanLine(line: string, lineno: int, pos: nat, acc: seq<Token>): (r: Result<seq<Token>, DslError>)
    requires pos <= |line|
    ensures r.Ok? ==> |acc| <= |r.value| && r.value[..|acc|] == acc
    ensures r.Ok? ==> forall k :: |acc| <= k < |r.value| ==> SitsIn(r.value[k], line, lineno)
    ensures r.Err? ==> r.error.SyntaxError?
    decreases |line| - pos
  {
    var p := Span(line, pos, IsBlankChar);
    if p >= |line| || line[p] == '#' then Ok(acc)
    else
      match MatchAt(line, p)
      case None => Err(SyntaxError("unknown token at line " + IntToString(lineno) + " col " + IntToString(p + 1)))
      case Some(m) =>
        var t := TokenAt(line, lineno, p, m);
        TokenSits(line, lineno, p, m);
        var r := ScanLine(line, lineno, m.end, acc + [t]);
        if r.Ok? then ScanPrefix(acc, t, r.value); r else r
  }

  lemma TokenSits(line: string, lineno: int, pos: nat, m: Lexeme)
    requires pos < m.end <= |line|
    ensures SitsIn(TokenAt(line, lineno, pos, m), line, lineno)
  {
  }

  /** What the scan after one more token keeps of the tokens before it. */
  lemma ScanPrefix(acc: seq<Token>, t: Token, rv: seq<Token>)
    requires |acc| + 1 <= |rv| && rv[..|acc| + 1] == acc + [t]
    ensures rv[..|acc|] == acc && rv[|acc|] == t
  {
    assert rv[..|acc|] == rv[..|acc| + 1][..|acc|];
    assert rv[|acc|] == rv[..|acc| + 1][|acc|];
  }

  /** Every token the scanner appends has one of the scanned kinds. */
  lemma {:induction false} ScanLineKinds(line: string, lineno: int, pos: nat, acc: seq<Token>)
    requires pos <= |line|
    requires ScanLine(line, lineno, pos, acc).Ok?
    ensures forall k :: |acc| <= k < |ScanLine(line, lineno, pos, acc).value| ==>
      ScanLine(line, lineno, pos, acc).value[k].kind in ScannedKinds
    decreases |line| - pos
  {
    var p := Span(line, pos, IsBlankChar);
    if !(p >= |line| || line[p] == '#') {
      var m := MatchAt(line, p).value;
      var t := TokenAt(line, lineno, p, m);
      var rv := ScanLine(line, lineno, m.end, acc + [t]).value;
      assert ScanLine(line, lineno, pos, acc).value == rv;
      KindOfScanned(m.group, line[p..m.end]);
      ScanLineKinds(line, lineno, m.end, acc + [t]);
      ScanPrefix(acc, t, rv);
      forall k | |acc| <= k < |rv| ensures rv[k].kind in ScannedKinds {
        if k == |acc| {
          assert rv[k] == t;
        }
      }
    }
  }

  // ---------------------------------------------------------------------------
  // The indent stack

  function Last(s: seq<int>): int
    requires s != []
  {
    s[|s| - 1]
  }

  /** The stack starts at 0 and is strictly increasing. */
  predicate StackOk(s: seq<int>) {
    |s| >= 1 && s[0] == 0 && forall i, j :: 0 <= i < j < |s| ==> s[i] < s[j]
  }

  function Dedents(n: nat, lineno: int): (r: seq<Token>)
    ensures |r| == n && forall k :: 0 <= k < n ==> r[k] == Token("DEDENT", "", lineno, 1)
  {
    seq(n, _ => Token("DEDENT", "", lineno, 1))
  }

  /** `while indent < indent_stack[-1]`: pop and emit a `DEDENT`. */
  function Dedent(stack: seq<int>, indent: nat, lineno: int): (r: (seq<int>, seq<Token>))
    requires StackOk(stack)
    ensures StackOk(r.0) && Last(r.0) <= indent
    ensures |r.0| <= |stack| && r.0 == stack[..|r.0|]
    ensures forall k :: |r.0| <= k < |stack| ==> stack[k] > indent
    ensures r.1 == Dedents(|stack| - |r.0|, lineno)
    decreases |stack|
  {
    if indent < Last(stack) then
      var r := Dedent(stack[..|stack| - 1], indent, lineno);
      (r.0, [Token("DEDENT", "", lineno, 1)] + r.1)
    else (stack, [])
  }

  /** The indentation step of one line: a deeper line pushes its width and
      emits one `INDENT`, then every level above the width is popped with a
      `DEDENT` each. */
  function Layout(stack: seq<int>, indent: nat, lineno: int): (r: (seq<int>, seq<Token>))
    requires StackOk(stack)
  {
    var pushed := if indent > Last(stack) then (stack + [indent], [Token("INDENT", "", lineno, 1)]) else (stack, []);
    var popped := Dedent(pushed.0, indent, lineno);
    (popped.0, pushed.1 + popped.1)
  }

  /** The indent stack stays strictly increasing from 0; a deeper line pushes
      its width with one `INDENT`; otherwise one `DEDENT` is emitted for each
      level above the width, the remaining top being at most the width (a
      width between two levels is accepted). */
  lemma LayoutSpec(stack: seq<int>, indent: nat, lineno: int)
    requires StackOk(stack)
    ensures StackOk(Layout(stack, indent, lineno).0)
    ensures indent > Last(stack) ==>
      Layout(stack, indent, lineno) == (stack + [indent], [Token("INDENT", "", lineno, 1)])
    ensures indent <= Last(stack) ==>
      var r := Layout(stack, indent, lineno);
      r.0 == stack[..|r.0|] && Last(r.0) <= indent
      && (forall k :: |r.0| <= k < |stack| ==> stack[k] > indent)
      && r.1 == Dedents(|stack| - |r.0|, lineno)
  {
    if indent > Last(stack) {
      LayoutPush(stack, indent, lineno);
    } else {
      LayoutPop(stack, indent, lineno);
    }
  }

  lemma LayoutPush(stack: seq<int>, indent: nat, lineno: int)
    requires StackOk(stack) && indent > Last(stack)
    ensures Layout(stack, indent, lineno) == (stack + [indent], [Token("INDENT", "", lineno, 1)])
    ensures StackOk(stack + [indent])
  {
    var s := stack + [indent];
    assert StackOk(s);
    assert Dedent(s, indent, lineno) == (s, []);
    assert [Token("INDENT", "", lineno, 1)] + [] == [Token("INDENT", "", lineno, 1)];
  }

  lemma LayoutPop(stack: seq<int>, indent: nat, lineno: int)
    requires StackOk(stack) && indent <= Last(stack)
    ensures Layout(stack, indent, lineno) == Dedent(stack, indent, lineno)
  {
    assert [] + Dedent(stack, indent, lineno).1 == Dedent(stack, indent, lineno).1;
  }

  // ---------------------------------------------------------------------------
  // Lines and the whole source

  /** `line.strip() == "" or line.lstrip().startswith("#")`. */
  predicate Skipped(line: string) {
    IsBlank(line) || (LeadingSpaces(line) < |line| && line[LeadingSpaces(line)] == '#')
  }

  function Newline(line: string, lineno: int): Token {
    Token("NEWLINE", "", lineno, |line| + 1)
  }

  /** One iteration of the loop over lines. */
  function LineStep(line: string, lineno: int, stack: seq<int>, acc: seq<Token>): (r: Result<(seq<Token>, seq<int>), DslError>)
    requires StackOk(stack)
    ensures r.Ok? ==> StackOk(r.value.1)
    ensures r.Err? ==> r.error.SyntaxError?
  {
    if Skipped(line) then Ok((acc, stack))
    else
      var indent := Span(line, 0, IsSpaceChar);
      var lay := Layout(stack, indent, lineno);
      LayoutSpec(stack, indent, lineno);
      var ts :- ScanLine(line, lineno, indent, acc + lay.1);
      Ok((ts + [Newline(line, lineno)], lay.0))
  }

  /** The loop over lines from index `i` (line number `i + 1`). */
  function LinesFrom(lines: seq<string>, i: nat, stack: seq<int>, acc: seq<Token>): (r: Result<(seq<Token>, seq<int>), DslError>)
    requires StackOk(stack) && i <= |lines|
    ensures r.Ok? ==> StackOk(r.value.1)
    ensures r.Err? ==> r.error.SyntaxError?
    decreases |lines| - i
  {
    if i == |lines| then Ok((acc, stack))
    else
      var step :- LineStep(lines[i], i + 1, stack, acc);
      LinesFrom(lines, i + 1, step.1, step.0)
  }

  /** `tokenize(src)`. With no lines at all, `lineno` is read before it was
      ever bound. */
  function Tokens(src: string): Result<seq<Token>, DslError> {
    var lines := SplitLines(src);
    if lines == [] then Err(UnboundLocalError("lineno"))
    else
      var r :- LinesFrom(lines, 0, [0], []);
      var after := |lines| + 1;
      Ok(r.0 + Dedents(|r.1| - 1, after) + [Token("EOF", "", after, 1)])
  }

  /** `while indent < indent_stack[-1]: indent_stack.pop(); tokens.append(DEDENT)`. */
  method PopLevels(stack: seq<int>, indent: nat, lineno: int) returns (newStack: seq<int>, emitted: seq<Token>)
    requires StackOk(stack)
    ensures (newStack, emitted) == Dedent(stack, indent, lineno)
  {
    newStack, emitted := stack, [];
    while indent < newStack[|newStack| - 1]
      invariant StackOk(newStack)
      invariant Dedent(newStack, indent, lineno).0 == Dedent(stack, indent, lineno).0
      invariant Dedent(stack, indent, lineno).1 == emitted + Dedent(newStack, indent, lineno).1
      decreases |newStack|
    {
      newStack := newStack[..|newStack| - 1];
      emitted := emitted + [Token("DEDENT", "", lineno, 1)];
    }
    assert emitted + [] == emitted;
  }

  /** The indentation step of `tokenize` for one line. */
  method LayoutLine(stack: seq<int>, indent: nat, lineno: int) returns (newStack: seq<int>, emitted: seq<Token>)
    requires StackOk(stack)
    ensures (newStack, emitted) == Layout(stack, indent, lineno)
  {
    var pushed, opening := stack, [];
    if indent > stack[|stack| - 1] {
      opening := [Token("INDENT", "", lineno, 1)];
      pushed := stack + [indent];
    }
    var closed;
    newStack, closed := PopLevels(pushed, indent, lineno);
    emitted := opening + closed;
  }

  /** One iteration of the loop over lines of `tokenize`. */
  method TokenizeLine(line: string, lineno: int, stack: seq<int>, tokens: seq<Token>)
    returns (r: Result<(seq<Token>, seq<int>), DslError>)
    requires StackOk(stack)
    ensures r == LineStep(line, lineno, stack, tokens)
  {
    if Skipped(line) {
      return Ok((tokens, stack));
    }
    var indent := Span(line, 0, IsSpaceChar);
    LayoutSpec(stack, indent, lineno);
    var newStack, emitted := LayoutLine(stack, indent, lineno);
    var scanned := ScanTokens(line, lineno, indent, tokens + emitted);
    if scanned.Err? {
      return Err(scanned.error);
    }
    r := Ok((scanned.value + [Newline(line, lineno)], newStack));
  }

  /** The token loop of `tokenize` for one line, from its indentation on. */
  method ScanTokens(line: string, lineno: int, indent: nat, acc: seq<Token>) returns (r: Result<seq<Token>, DslError>)
    requires indent <= |line|
    ensures r == ScanLine(line, lineno, indent, acc)
  {
    var tokens := acc;
    var pos := indent;
    while pos < |line|
      invariant pos <= |line|
      invariant ScanLine(line, lineno, indent, acc) == ScanLine(line, lineno, pos, tokens)
      decreases |line| - pos
    {
      ghost var start := pos;
      while pos < |line| && (line[pos] == ' ' || line[pos] == '\t')
        invariant start <= pos <= |line|
        invariant Span(line, start, IsBlankChar) == Span(line, pos, IsBlankChar)
      {
        pos := pos + 1;
      }
      if pos >= |line| || line[pos] == '#' {
        break;
      }
      var m := MatchAt(line, pos);
      if m.None? {
        return Err(SyntaxError("unknown token at line " + IntToString(lineno) + " col " + IntToString(pos + 1)));
      }
      tokens := tokens + [TokenAt(line, lineno, pos, m.value)];
      pos := m.value.end;
    }
    r := Ok(tokens);
  }

  /** The loops of `tokenize`, appending to `tokens` and pushing and popping
      `stack`. */
  method Tokenize(src: string) returns (r: Result<seq<Token>, DslError>)
    ensures r == Tokens(src)
  {
    var tokens: seq<Token> := [];
    var stack: seq<int> := [0];
    var lines := SplitLines(src);
    for i := 0 to |lines|
      invariant StackOk(stack)
      invariant LinesFrom(lines, 0, [0], []) == LinesFrom(lines, i, stack, tokens)
    {
      var step := TokenizeLine(lines[i], i + 1, stack, tokens);
      if step.Err? {
        return Err(step.error);
      }
      tokens, stack := step.value.0, step.value.1;
    }
    if |lines| == 0 {
      return Err(UnboundLocalError("lineno"));
    }
    var after := |lines| + 1;
    tokens := CloseLevels(stack, tokens, after);
    tokens := tokens + [Token("EOF", "", after, 1)];
    r := Ok(tokens);
  }

  /** `while len(indent_stack) > 1`: pop and emit a `DEDENT` at end of input. */
  method CloseLevels(stack: seq<int>, tokens: seq<Token>, after: int) returns (ts: seq<Token>)
    requires StackOk(stack)
    ensures ts == tokens + Dedents(|stack| - 1, after)
  {
    var st := stack;
    ts := tokens;
    while |st| > 1
      invariant StackOk(st) && |st| <= |stack|
      invariant ts == tokens + Dedents(|stack| - |st|, after)
    {
      ts := ts + [Token("DEDENT", "", after, 1)];
      st := st[..|st| - 1];
    }
  }

  // ---------------------------------------------------------------------------
  // Properties

  function CountKind(ts: seq<Token>, kind: string): nat {
    if ts == [] then 0 else CountKind(ts[..|ts| - 1], kind) + (if ts[|ts| - 1].kind == kind then 1 else 0)
  }

  lemma {:induction false} CountAppend(a: seq<Token>, b: seq<Token>, kind: string)
    ensures CountKind(a + b, kind) == CountKind(a, kind) + CountKind(b, kind)
    decreases |b|
  {
    if b == [] {
      assert a + b == a;
    } else {
      assert (a + b)[..|a + b| - 1] == a + b[..|b| - 1];
      CountAppend(a, b[..|b| - 1], kind);
    }
  }

  lemma {:induction false} CountDedents(n: nat, lineno: int, kind: string)
    ensures CountKind(Dedents(n, lineno), kind) == if kind == "DEDENT" then n else 0
  {
    if n > 0 {
      assert Dedents(n, lineno)[..n - 1] == Dedents(n - 1, lineno);
      CountDedents(n - 1, lineno, kind);
    }
  }

  lemma {:induction false} CountNone(ts: seq<Token>, kind: string)
    requires forall k :: 0 <= k < |ts| ==> ts[k].kind != kind
    ensures CountKind(ts, kind) == 0
    decreases |ts|
  {
    if ts != [] {
      CountNone(ts[..|ts| - 1], kind);
    }
  }

  /** The `INDENT`s minus the `DEDENT`s emitted so far. */
  function Depth(ts: seq<Token>): int {
    CountKind(ts, "INDENT") - CountKind(ts, "DEDENT")
  }

  lemma DepthAppend(a: seq<Token>, b: seq<Token>)
    ensures Depth(a + b) == Depth(a) + Depth(b)
  {
    CountAppend(a, b, "INDENT");
    CountAppend(a, b, "DEDENT");
  }

  lemma DepthDedents(n: nat, lineno: int)
    ensures Depth(Dedents(n, lineno)) + n == 0
  {
    CountDedents(n, lineno, "INDENT");
    CountDedents(n, lineno, "DEDENT");
  }

  lemma LayoutDepth(stack: seq<int>, indent: nat, lineno: int)
    requires StackOk(stack)
    ensures Depth(Layout(stack, indent, lineno).1) == |Layout(stack, indent, lineno).0| - |stack|
  {
    LayoutSpec(stack, indent, lineno);
    var r := Layout(stack, indent, lineno);
    if indent > Last(stack) {
      var t := Token("INDENT", "", lineno, 1);
      assert r.1 == [t] && [t][..0] == [];
      assert CountKind([t], "INDENT") == 1 && CountKind([t], "DEDENT") == 0;
    } else {
      DepthDedents(|stack| - |r.0|, lineno);
    }
  }

  /** The scanned tokens of a line leave the depth as it was. */
  lemma ScanLineDepth(line: string, lineno: int, pos: nat, acc: seq<Token>)
    requires pos <= |line| && ScanLine(line, lineno, pos, acc).Ok?
    ensures Depth(ScanLine(line, lineno, pos, acc).value) == Depth(acc)
  {
    var ts := ScanLine(line, lineno, pos, acc).value;
    ScanLineKinds(line, lineno, pos, acc);
    var tail := ts[|acc|..];
    assert ts == ts[..|acc|] + tail;
    LayoutFree();
    forall k | 0 <= k < |tail| ensures tail[k].kind != "INDENT" && tail[k].kind != "DEDENT" {
      assert tail[k] == ts[|acc| + k];
    }
    CountNone(tail, "INDENT");
    CountNone(tail, "DEDENT");
    DepthAppend(acc, tail);
  }

  lemma LayoutFree()
    ensures "INDENT" !in ScannedKinds && "DEDENT" !in ScannedKinds
  {
  }

  /** Each line keeps the open `INDENT`s equal to the stack's levels above 0. */
  lemma LineStepDepth(line: string, lineno: int, stack: seq<int>, acc: seq<Token>)
    requires StackOk(stack) && Depth(acc) == |stack| - 1
    requires LineStep(line, lineno, stack, acc).Ok?
    ensures Depth(LineStep(line, lineno, stack, acc).value.0) == |LineStep(line, lineno, stack, acc).value.1| - 1
  {
    if !Skipped(line) {
      var indent := Span(line, 0, IsSpaceChar);
      var lay := Layout(stack, indent, lineno);
      LayoutDepth(stack, indent, lineno);
      DepthAppend(acc, lay.1);
      var ts := ScanLine(line, lineno, indent, acc + lay.1).value;
      ScanLineDepth(line, lineno, indent, acc + lay.1);
      DepthAppend(ts, [Newline(line, lineno)]);
      assert LineStep(line, lineno, stack, acc).value == (ts + [Newline(line, lineno)], lay.0);
    }
  }

  lemma {:induction false} LinesDepth(lines: seq<string>, i: nat, stack: seq<int>, acc: seq<Token>)
    requires StackOk(stack) && i <= |lines| && Depth(acc) == |stack| - 1
    requires LinesFrom(lines, i, stack, acc).Ok?
    ensures Depth(LinesFrom(lines, i, stack, acc).value.0) == |LinesFrom(lines, i, stack, acc).value.1| - 1
    decreases |lines| - i
  {
    if i < |lines| {
      var step := LineStep(lines[i], i + 1, stack, acc).value;
      LineStepDepth(lines[i], i + 1, stack, acc);
      LinesDepth(lines, i + 1, step.1, step.0);
    }
  }

  /** A token list ends with its only `EOF`, and the `INDENT`s and `DEDENT`s
      in it balance. */
  lemma TokensBalanced(src: string)
    requires Tokens(src).Ok?
    ensures var ts := Tokens(src).value;
      ts != [] && ts[|ts| - 1].kind == "EOF"
      && CountKind(ts, "INDENT") == CountKind(ts, "DEDENT")
  {
    var lines := SplitLines(src);
    var res := LinesFrom(lines, 0, [0], []);
    assert lines != [] && res.Ok?;
    var r := res.value;
    var after := |lines| + 1;
    LinesDepth(lines, 0, [0], []);
    ClosedBody(Tokens(src).value, r.0, |r.1| - 1, after);
  }

  /** Closing `n` open blocks after a body of depth `n`, then `EOF`. */
  lemma ClosedBody(ts: seq<Token>, body: seq<Token>, n: nat, after: int)
    requires Depth(body) == n
    requires ts == body + Dedents(n, after) + [Token("EOF", "", after, 1)]
    ensures ts != [] && ts[|ts| - 1].kind == "EOF" && CountKind(ts, "INDENT") == CountKind(ts, "DEDENT")
  {
    var eof := [Token("EOF", "", after, 1)];
    var ds := Dedents(n, after);
    DepthDedents(n, after);
    DepthAppend(body, ds);
    DepthAppend(body + ds, eof);
    EofDepth(after);
  }

  lemma EofDepth(lineno: int)
    ensures Depth([Token("EOF", "", lineno, 1)]) == 0
  {
    var ts := [Token("EOF", "", lineno, 1)];
    assert ts[..0] == [];
    assert ts[0].kind[0] != "INDENT"[0] && ts[0].kind[0] != "DEDENT"[0];
    assert CountKind(ts, "INDENT") == 0 && CountKind(ts, "DEDENT") == 0;
  }

  /** Only a source with no lines at all fails with the unbound `lineno`;
      every other failure is a `SyntaxError`. */
  lemma EmptySourceFails(src: string)
    ensures Tokens(src) == Err(UnboundLocalError("lineno")) <==> src == ""
  {
  }

  /** Lines that are blank or comments emit nothing. */
  lemma {:induction false} SkippedLines(lines: seq<string>, i: nat, stack: seq<int>, acc: seq<Token>)
    requires StackOk(stack) && i <= |lines|
    requires forall k :: i <= k < |lines| ==> Skipped(lines[k])
    ensures LinesFrom(lines, i, stack, acc) == Ok((acc, stack))
    decreases |lines| - i
  {
    if i < |lines| {
      SkippedLines(lines, i + 1, stack, acc);
    }
  }

  /** A source made only of blank and comment lines tokenizes to a lone
      `EOF` on the line after the last. */
  lemma OnlySkippedLines(src: string)
    requires src != "" && forall l :: l in SplitLines(src) ==> Skipped(l)
    ensures Tokens(src) == Ok([Token("EOF", "", |SplitLines(src)| + 1, 1)])
  {
    var lines := SplitLines(src);
    SkippedLines(lines, 0, [0], []);
    var eof := [Token("EOF", "", |lines| + 1, 1)];
    assert Dedents(0, |lines| + 1) == [];
    assert [] + [] + eof == eof;
  }

  /** `==` is two `EQUAL` tokens, because the single `=` alternative comes
      before the operators; `->` is one `ARROW`; `!=`, `>=` and `<=` are one
      `OP` each. */
  lemma TwoCharOperators(line: string, pos: nat)
    requires pos + 2 <= |line|
    ensures line[pos..pos + 2] == "==" ==>
      MatchAt(line, pos) == Some(Lexeme("eq", pos + 1)) && MatchAt(line, pos + 1) == Some(Lexeme("eq", pos + 2))
      && KindOf("eq", "=") == "EQUAL"
    ensures line[pos..pos + 2] == "->" ==>
      MatchAt(line, pos) == Some(Lexeme("op", pos + 2)) && KindOf("op", "->") == "ARROW"
    ensures line[pos..pos + 2] in ["!=", ">=", "<="] ==>
      MatchAt(line, pos) == Some(Lexeme("op", pos + 2)) && KindOf("op", line[pos..pos + 2]) == "OP"
  {
    if line[pos..pos + 2] == "==" {
      assert line[pos] == '=' && line[pos + 1] == '=';
    }
    if line[pos..pos + 2] == "->" {
      assert line[pos] == '-';
    }
    if line[pos..pos + 2] in ["!=", ">=", "<="] {
      assert line[pos] in "!><";
    }
  }
}
