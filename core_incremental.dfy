/** `parse_program` of aissembly_core/parser.py: the source is fed line by line
    into a buffer that is re-parsed after every line. The grammar itself is a
    parameter: `attempt` stands for one `parser.parse(buffer)` followed by the
    `ASTBuilder` transform. */
module IncrementalParse {
  import opened Basics
  import opened PyStr
  import opened CoreAst

  /** The outcome of one parse of the buffer. `Incomplete` covers an
      `UnexpectedEOF` and an `UnexpectedInput` whose token is `$END` or
      `_DEDENT`; `Fail` is any other parse error, or what the transform
      raises (a `VisitError`, as `CoreBuilder.TransformCall` shows), which
      the `try` around the parse does not catch. */
  datatype Attempt = Incomplete | Fail(error: CoreError) | Parsed(stmts: seq<Node>)

  /** The lines of `ls` whose stripped text is not empty, in order. */
  function NonBlank(ls: seq<string>): (r: seq<string>)
    ensures forall l :: l in r ==> Strip(l) != []
    ensures forall l :: l in ls && Strip(l) != [] ==> l in r
    ensures forall l :: l in r ==> l in ls
  {
    if ls == [] then []
    else (if Strip(ls[0]) != [] then [ls[0]] else []) + NonBlank(ls[1..])
  }

  /** `[ln for ln in source.strip().splitlines() if ln.strip()]`. */
  function KeptLines(source: string): seq<string> {
    NonBlank(SplitLines(Strip(source)))
  }

  /** The state the buffering loop reaches from `stmts` and `buffer` after
      consuming `lines`, or the error that ends it. */
  function Feed(attempt: string -> Attempt, lines: seq<string>, stmts: seq<Node>, buffer: string)
    : Result<(seq<Node>, string), CoreError>
  {
    if lines == [] then Ok((stmts, buffer))
    else
      var buf := buffer + lines[0] + "\n";
      match attempt(buf)
      case Incomplete => Feed(attempt, lines[1..], stmts, buf)
      case Fail(e) => Err(e)
      case Parsed(ss) => Feed(attempt, lines[1..], stmts + ss, "")
  }

  /** The final parse of a leftover buffer, where an incomplete parse is an error. */
  function Finish(attempt: string -> Attempt, stmts: seq<Node>, buffer: string): Result<seq<Node>, CoreError> {
    if Strip(buffer) == [] then Ok(stmts)
    else
      match attempt(buffer)
      case Incomplete => Err(SyntaxError("unexpected end of input"))
      case Fail(e) => Err(e)
      case Parsed(ss) => Ok(stmts + ss)
  }

  /** The result of `_parse_once`. */
  function ParseOnceSpec(attempt: string -> Attempt, source: string): Result<seq<Node>, CoreError> {
    var st :- Feed(attempt, KeptLines(source), [], "");
    Finish(attempt, st.0, st.1)
  }

  /** `_parse_once`. */
  method ParseOnce(attempt: string -> Attempt, source: string) returns (r: Result<seq<Node>, CoreError>)
    ensures r == ParseOnceSpec(attempt, source)
  {
    var lines := KeptLines(source);
    var statements: seq<Node> := [];
    var buffer := "";
    for i := 0 to |lines|
      invariant Feed(attempt, lines, [], "") == Feed(attempt, lines[i..], statements, buffer)
    {
      assert lines[i..][1..] == lines[i + 1..];
      buffer := buffer + lines[i] + "\n";
      match attempt(buffer)
      case Incomplete =>
      case Fail(e) =>
        return Err(e);
      case Parsed(ss) =>
        statements := statements + ss;
        buffer := "";
    }
    if Strip(buffer) != [] {
      match attempt(buffer)
      case Incomplete =>
        return Err(SyntaxError("unexpected end of input"));
      case Fail(e) =>
        return Err(e);
      case Parsed(ss) =>
        statements := statements + ss;
    }
    r := Ok(statements);
  }

  /** `parse_program`: the whole parse runs `max(reparse_iterations, 1)` times
      and the last result is returned, which is the result of one parse. */
  method ParseProgram(attempt: string -> Attempt, source: string, reparseIterations: int)
    returns (r: Result<seq<Node>, CoreError>)
    ensures r == ParseOnceSpec(attempt, source)
  {
    var n := if reparseIterations > 1 then reparseIterations else 1;
    r := ParseOnce(attempt, source);
    var k := 1;
    while k < n
      invariant 1 <= k <= n
      invariant r == ParseOnceSpec(attempt, source)
    {
      r := ParseOnce(attempt, source);
      k := k + 1;
    }
  }

  // ---------------------------------------------------------------------------
  // Properties of the buffering loop

  function Concat(chunks: seq<seq<Node>>): seq<Node> {
    if chunks == [] then [] else chunks[0] + Concat(chunks[1..])
  }

  /** When every line parses on its own, the statements are those of the
      lines in order, and nothing is left in the buffer. */
  lemma {:induction false} FeedLineByLine(attempt: string -> Attempt, lines: seq<string>, stmts: seq<Node>,
                                          parsed: seq<seq<Node>>)
    requires |parsed| == |lines|
    requires forall i :: 0 <= i < |lines| ==> attempt(lines[i] + "\n") == Parsed(parsed[i])
    ensures Feed(attempt, lines, stmts, "") == Ok((stmts + Concat(parsed), ""))
  {
    if lines == [] {
      assert stmts + Concat(parsed) == stmts;
    } else {
      assert "" + lines[0] + "\n" == lines[0] + "\n";
      assert attempt("" + lines[0] + "\n") == Parsed(parsed[0]);
      assert Feed(attempt, lines, stmts, "") == Feed(attempt, lines[1..], stmts + parsed[0], "");
      FeedLineByLine(attempt, lines[1..], stmts + parsed[0], parsed[1..]);
      assert stmts + parsed[0] + Concat(parsed[1..]) == stmts + Concat(parsed);
    }
  }

  lemma LineByLineProgram(attempt: string -> Attempt, source: string, parsed: seq<seq<Node>>)
    requires |parsed| == |KeptLines(source)|
    requires forall i :: 0 <= i < |parsed| ==> attempt(KeptLines(source)[i] + "\n") == Parsed(parsed[i])
    ensures ParseOnceSpec(attempt, source) == Ok(Concat(parsed))
  {
    FeedLineByLine(attempt, KeptLines(source), [], parsed);
    assert [] + Concat(parsed) == Concat(parsed);
    assert Strip("") == [];
  }

  /** Feeding the first `j` lines and then the rest from the state reached
      is feeding all the lines. */
  lemma {:induction false} FeedAppend(attempt: string -> Attempt, lines: seq<string>, j: nat,
                                      stmts: seq<Node>, buffer: string)
    requires j <= |lines|
    ensures Feed(attempt, lines, stmts, buffer) ==
      match Feed(attempt, lines[..j], stmts, buffer)
      case Ok((s, b)) => Feed(attempt, lines[j..], s, b)
      case Err(e) => Err(e)
  {
    if j == 0 {
      assert lines[..0] == [] && lines[0..] == lines;
    } else {
      var buf := buffer + lines[0] + "\n";
      assert lines[..j][0] == lines[0] && lines[..j][1..] == lines[1..][..j - 1];
      assert lines[j..] == lines[1..][j - 1..];
      match attempt(buf)
      case Incomplete => FeedAppend(attempt, lines[1..], j - 1, stmts, buf);
      case Fail(_) =>
      case Parsed(ss) => FeedAppend(attempt, lines[1..], j - 1, stmts + ss, "");
    }
  }

  /** An error in any parse the loop reaches ends the whole parse with that
      error, whatever the lines after it hold: line `j` is reached with the
      statements and buffer the earlier lines left, and the parse of the
      buffer with line `j` added fails. */
  lemma LineFails(attempt: string -> Attempt, source: string, j: nat, stmts: seq<Node>, buffer: string, e: CoreError)
    requires j < |KeptLines(source)|
    requires Feed(attempt, KeptLines(source)[..j], [], "") == Ok((stmts, buffer))
    requires attempt(buffer + KeptLines(source)[j] + "\n") == Fail(e)
    ensures ParseOnceSpec(attempt, source) == Err(e)
  {
    var lines := KeptLines(source);
    FeedAppend(attempt, lines, j, [], "");
    assert lines[j..][0] == lines[j];
  }

  /** The first line failing is the case with nothing before it. */
  lemma FirstLineFails(attempt: string -> Attempt, source: string, e: CoreError)
    requires KeptLines(source) != []
    requires attempt(KeptLines(source)[0] + "\n") == Fail(e)
    ensures ParseOnceSpec(attempt, source) == Err(e)
  {
    assert "" + KeptLines(source)[0] + "\n" == KeptLines(source)[0] + "\n";
    LineFails(attempt, source, 0, [], "", e);
  }

  /** While every parse reports "incomplete", the buffer accumulates the lines,
      each followed by a newline. */
  lemma {:induction false} FeedIncomplete(attempt: string -> Attempt, lines: seq<string>, stmts: seq<Node>, buffer: string)
    requires forall b :: attempt(b) == Incomplete
    ensures Feed(attempt, lines, stmts, buffer) == Ok((stmts, buffer + JoinTerminated(lines)))
  {
    if lines == [] {
      assert buffer + JoinTerminated(lines) == buffer;
    } else {
      var buf := buffer + lines[0] + "\n";
      assert Feed(attempt, lines, stmts, buffer) == Feed(attempt, lines[1..], stmts, buf);
      FeedIncomplete(attempt, lines[1..], stmts, buf);
      assert buf + JoinTerminated(lines[1..]) == buffer + JoinTerminated(lines);
    }
  }

  /** Each line followed by a newline. */
  function JoinTerminated(lines: seq<string>): string {
    if lines == [] then "" else lines[0] + "\n" + JoinTerminated(lines[1..])
  }

  /** A source that never parses completely is an error once the input is
      exhausted, not an empty program. */
  lemma NeverCompleteIsError(attempt: string -> Attempt, source: string)
    requires forall b :: attempt(b) == Incomplete
    requires KeptLines(source) != []
    ensures ParseOnceSpec(attempt, source).Err?
    ensures ParseOnceSpec(attempt, source).error.SyntaxError?
  {
    var lines := KeptLines(source);
    FeedIncomplete(attempt, lines, [], "");
    var buf := "" + JoinTerminated(lines);
    assert lines[0] in lines;
    assert Strip(lines[0]) != [];
    StripEmptyIffBlank(lines[0]);
    var k :| 0 <= k < |lines[0]| && !IsSpace(lines[0][k]);
    assert buf[k] == lines[0][k];
    StripEmptyIffBlank(buf);
  }
}
