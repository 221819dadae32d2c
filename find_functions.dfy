/** The call-site scanner of aissembly_core/util/find_functions.py. The regular
    expression it compiles is read here as the deterministic scan it performs:
    at each position a quoted literal is skipped whole, otherwise a call of one
    of the names with a balanced, non-empty argument text is matched, otherwise
    the scan moves on by one character. */
module FindFunctions {
  import opened Basics

  /** One reported call: `m.group(0)`, the name, the text between the outer
      parentheses, and the span. */
  datatype Match = Match(full: string, name: string, params: string, start: nat, end: nat)

  /** `name_or_names`: one name, or a list, tuple or set of names (a set's
      iteration order is whatever the caller hands over). */
  datatype NameSpec = Single(name: string) | Many(names: seq<string>)

  /** The alternatives of the name group, in order. An empty collection
      compiles to the empty group `(?:)`, which matches the empty name. */
  function Alternatives(spec: NameSpec): (r: seq<string>)
    ensures r != []
  {
    match spec
    case Single(n) => [n]
    case Many(ns) => if ns == [] then [""] else ns
  }

  // ---------------------------------------------------------------------------
  // Quoted literals

  /** The end of a quoted literal whose body starts at `i`: the position after
      the first quote `q` not escaped by a backslash; a backslash escapes any
      character, a line break included. */
  function QuotedEnd(t: string, i: nat, q: char): (r: Option<nat>)
    ensures r.Some? ==> i < r.value <= |t| && t[r.value - 1] == q
    decreases |t| - i
  {
    if i >= |t| then None
    else if t[i] == q then Some(i + 1)
    else if t[i] == '\\' then (if i + 1 < |t| then QuotedEnd(t, i + 2, q) else None)
    else QuotedEnd(t, i + 1, q)
  }

  predicate TripleAt(t: string, j: nat, q: char) {
    j + 3 <= |t| && t[j] == q && t[j + 1] == q && t[j + 2] == q
  }

  /** The lazy `[\s\S]*?` of a triple-quoted literal: the position after the
      first closing triple at or after `i`. */
  function TripleEnd(t: string, i: nat, q: char): (r: Option<nat>)
    ensures r.Some? ==> i + 3 <= r.value <= |t| && TripleAt(t, r.value - 3, q)
    ensures r.Some? ==> forall j :: i <= j < r.value - 3 ==> !TripleAt(t, j, q)
    ensures r.None? ==> forall j :: i <= j ==> !TripleAt(t, j, q)
    decreases |t| - i
  {
    if i + 3 > |t| then None
    else if TripleAt(t, i, q) then Some(i + 3)
    else TripleEnd(t, i + 1, q)
  }

  /** The skip branch at `p`: triple double, triple single, double and single
      quoted literals, tried in that order; `Some(e)` is where the scan
      resumes. */
  function SkipLiteral(t: string, p: nat): (r: Option<nat>)
    requires p < |t|
    ensures r.Some? ==> p + 2 <= r.value <= |t| && (t[p] == '"' || t[p] == '\'') && t[r.value - 1] == t[p]
  {
    if TripleAt(t, p, '"') && TripleEnd(t, p + 3, '"').Some? then TripleEnd(t, p + 3, '"')
    else if TripleAt(t, p, '\'') && TripleEnd(t, p + 3, '\'').Some? then TripleEnd(t, p + 3, '\'')
    else if t[p] == '"' then QuotedEnd(t, p + 1, '"')
    else if t[p] == '\'' then QuotedEnd(t, p + 1, '\'')
    else None
  }

  // ---------------------------------------------------------------------------
  // The argument text

  /** A character of the plain-text item `[^()"'\n\r]`. */
  predicate IsPlain(c: char) {
    c != '(' && c != ')' && c != '"' && c != '\'' && c != '\n' && c != '\r'
  }

  /** The end of the longest run of plain characters from `i`. */
  function PlainEnd(t: string, i: nat): (j: nat)
    requires i <= |t|
    ensures i <= j <= |t| && (j < |t| ==> !IsPlain(t[j]))
    ensures forall k :: i <= k < j ==> IsPlain(t[k])
    decreases |t| - i
  {
    if i < |t| && IsPlain(t[i]) then PlainEnd(t, i + 1) else i
  }

  /** The items of the `params` group from `i` up to the `)` that closes it:
      plain runs, quoted strings, nested groups and line breaks, at least one
      when `nonEmpty` is required. `Some(c)` is the position of that `)`. */
  function Items(t: string, i: nat, some: bool): (r: Option<nat>)
    requires i <= |t|
    ensures r.Some? ==> i <= r.value < |t| && t[r.value] == ')' && (some || i < r.value)
    decreases |t| - i, 1
  {
    if i == |t| then None
    else if t[i] == ')' then (if some then Some(i) else None)
    else
      match ItemEnd(t, i)
      case None => None
      case Some(j) => Items(t, j, true)
  }

  /** The end of the one item that starts at `i`. */
  function ItemEnd(t: string, i: nat): (r: Option<nat>)
    requires i < |t| && t[i] != ')'
    ensures r.Some? ==> i < r.value <= |t|
    decreases |t| - i, 0
  {
    if t[i] == '(' then
      match Items(t, i + 1, false)
      case None => None
      case Some(c) => Some(c + 1)
    else if t[i] == '"' || t[i] == '\'' then QuotedEnd(t, i + 1, t[i])
    else if t[i] == '\n' || t[i] == '\r' then Some(i + 1)
    else Some(PlainEnd(t, i))
  }

  /** The end of `[ \t]*`. */
  function BlanksEnd(t: string, i: nat): (j: nat)
    requires i <= |t|
    ensures i <= j <= |t| && forall k :: i <= k < j ==> t[k] == ' ' || t[k] == '\t'
    ensures j < |t| ==> t[j] != ' ' && t[j] != '\t'
    decreases |t| - i
  {
    if i < |t| && (t[i] == ' ' || t[i] == '\t') then BlanksEnd(t, i + 1) else i
  }

  /** A reported call is the text at its span: the name, blanks, `(`, the
      non-empty argument text, `)`. */
  predicate WellFormed(t: string, m: Match) {
    m.start < m.end <= |t| && m.full == t[m.start..m.end] &&
    m.start + |m.name| <= m.end && t[m.start..m.start + |m.name|] == m.name &&
    |m.params| >= 1 && m.start + |m.name| + 1 + |m.params| < m.end && t[m.end - 1] == ')' &&
    t[m.end - 1 - |m.params| - 1] == '(' && m.params == t[m.end - 1 - |m.params|..m.end - 1] &&
    forall k :: m.start + |m.name| <= k < m.end - |m.params| - 2 ==> t[k] == ' ' || t[k] == '\t'
  }

  /** The function branch with the name `n` at `p`. */
  function MatchName(t: string, p: nat, n: string): (r: Option<Match>)
    requires p <= |t|
    ensures r.Some? ==> r.value.start == p && r.value.name == n && WellFormed(t, r.value)
  {
    if p + |n| <= |t| && t[p..p + |n|] == n then
      var k := BlanksEnd(t, p + |n|);
      if k < |t| && t[k] == '(' then
        match Items(t, k + 1, false)
        case None => None
        case Some(c) => Some(Match(t[p..c + 1], n, t[k + 1..c], p, c + 1))
      else None
    else None
  }

  /** The function branch at `p`: the first name, in order, for which the
      whole call matches. */
  function MatchAt(t: string, p: nat, names: seq<string>): (r: Option<Match>)
    requires p <= |t|
    ensures r.Some? ==> r.value.start == p && r.value.name in names && WellFormed(t, r.value)
  {
    if names == [] then None
    else
      match MatchName(t, p, names[0])
      case Some(m) => Some(m)
      case None => MatchAt(t, p, names[1..])
  }

  // ---------------------------------------------------------------------------
  // The scan

  /** The matches `finditer` reports from position `p` on. */
  function Scan(t: string, names: seq<string>, p: nat): (r: seq<Match>)
    requires p <= |t|
    ensures forall k :: 0 <= k < |r| ==> p <= r[k].start && r[k].name in names && WellFormed(t, r[k])
    ensures forall i, j :: 0 <= i < j < |r| ==> r[i].end <= r[j].start
    decreases |t| - p
  {
    if p == |t| then []
    else
      match SkipLiteral(t, p)
      case Some(e) => Scan(t, names, e)
      case None =>
        match MatchAt(t, p, names)
        case Some(m) => [m] + Scan(t, names, m.end)
        case None => Scan(t, names, p + 1)
  }

  /** `find_function_blocks_excluding_strings`. */
  method FindFunctionBlocks(text: string, spec: NameSpec) returns (results: seq<Match>)
    ensures results == Scan(text, Alternatives(spec), 0)
  {
    var names := Alternatives(spec);
    results := [];
    var p := 0;
    while p < |text|
      invariant p <= |text|
      invariant results + Scan(text, names, p) == Scan(text, names, 0)
      decreases |text| - p
    {
      var skip := SkipLiteral(text, p);
      if skip.Some? {
        p := skip.value;
      } else {
        var m := MatchAt(text, p, names);
        if m.Some? {
          assert Scan(text, names, p) == [m.value] + Scan(text, names, m.value.end);
          results := results + [m.value];
          p := m.value.end;
        } else {
          p := p + 1;
        }
      }
    }
    assert results + [] == results;
  }

  /** The scan from `p` stops at position `q` on its way: it moves past a
      skipped literal, past a reported match, or one character on. */
  predicate Reaches(t: string, names: seq<string>, p: nat, q: nat)
    requires p <= |t|
    decreases |t| - p
  {
    p == q ||
    (p < q && p < |t| &&
      match SkipLiteral(t, p)
      case Some(e) => Reaches(t, names, e, q)
      case None =>
        match MatchAt(t, p, names)
        case Some(m) => Reaches(t, names, m.end, q)
        case None => Reaches(t, names, p + 1, q))
  }

  // ---------------------------------------------------------------------------
  // Properties

  /** When the scan reaches a quoted literal, nothing inside it is reported:
      every later match starts after the literal's end. */
  lemma LiteralContentNeverReported(t: string, names: seq<string>, p: nat)
    requires p < |t| && SkipLiteral(t, p).Some?
    ensures forall m :: m in Scan(t, names, p) ==> SkipLiteral(t, p).value <= m.start
  {
  }

  /** A quote with no closing quote after it opens no skipped span. */
  lemma UnterminatedQuoteNotSkipped(t: string, p: nat)
    requires p < |t| && (t[p] == '"' || t[p] == '\'')
    requires forall k :: p < k < |t| ==> t[k] != t[p]
    ensures SkipLiteral(t, p).None?
  {
    var q := t[p];
    assert !TripleAt(t, p, q) by {
      if p + 3 <= |t| { assert t[p + 1] != q; }
    }
    QuotedEndNeedsQuote(t, p + 1, q);
  }

  lemma {:induction false} QuotedEndNeedsQuote(t: string, i: nat, q: char)
    requires forall k :: i <= k < |t| ==> t[k] != q
    ensures QuotedEnd(t, i, q).None?
    decreases |t| - i
  {
    if i < |t| && t[i] != q {
      if t[i] == '\\' && i + 1 < |t| {
        QuotedEndNeedsQuote(t, i + 2, q);
      } else if t[i] != '\\' {
        QuotedEndNeedsQuote(t, i + 1, q);
      }
    }
  }

  /** An empty argument list never matches: `NAME()` is not reported. */
  lemma EmptyCallNotReported(t: string, p: nat, n: string)
    requires p + |n| + 2 <= |t| && t[p..p + |n|] == n && t[p + |n|] == '(' && t[p + |n| + 1] == ')'
    ensures MatchName(t, p, n).None?
  {
  }

  /** A nested empty group `()` makes the whole call fail to match. */
  lemma EmptyGroupFails(t: string, i: nat)
    requires i + 1 < |t| && t[i] == '(' && t[i + 1] == ')'
    ensures ItemEnd(t, i).None?
  {
  }

  /** Names are matched anywhere, with no word boundary before them. */
  lemma NoWordBoundary(x: char, n: string, args: string)
    requires |args| >= 1 && forall k :: 0 <= k < |args| ==> IsPlain(args[k])
    requires x != '"' && x != '\''
    requires n != [] && n[0] != '"' && n[0] != '\''
    ensures var t := [x] + n + "(" + args + ")";
      MatchAt(t, 1, [n]) == Some(Match(n + "(" + args + ")", n, args, 1, |t|))
  {
    var t := [x] + n + "(" + args + ")";
    var k := 1 + |n|;
    var c := k + 1 + |args|;
    assert t[1..k] == n;
    assert BlanksEnd(t, k) == k;
    assert PlainEnd(t, k + 1) == c by {
      PlainRun(t, k + 1, c);
    }
    assert Items(t, k + 1, false) == Some(c);
    assert t[1..c + 1] == n + "(" + args + ")";
    assert t[k + 1..c] == args;
    MatchNameAt(t, 1, n, k, c);
    assert [n][0] == n && [n][1..] == [];
  }

  /** A name followed by blanks, `(`, a balanced argument text and `)`. */
  lemma MatchNameAt(t: string, p: nat, n: string, k: nat, c: nat)
    requires p + |n| <= |t| && t[p..p + |n|] == n
    requires BlanksEnd(t, p + |n|) == k && k < |t| && t[k] == '('
    requires Items(t, k + 1, false) == Some(c)
    ensures MatchName(t, p, n) == Some(Match(t[p..c + 1], n, t[k + 1..c], p, c + 1))
  {
  }

  lemma {:induction false} PlainRun(t: string, i: nat, j: nat)
    requires i <= j < |t| && !IsPlain(t[j])
    requires forall k :: i <= k < j ==> IsPlain(t[k])
    ensures PlainEnd(t, i) == j
    decreases j - i
  {
    if i < j {
      PlainRun(t, i + 1, j);
    }
  }

  /** Every call the scan meets outside the literals it skips is reported. */
  lemma {:induction false} ScanComplete(t: string, names: seq<string>, p: nat, q: nat, m: Match)
    requires p <= q < |t| && Reaches(t, names, p, q)
    requires SkipLiteral(t, q).None? && MatchAt(t, q, names) == Some(m)
    ensures m in Scan(t, names, p)
    decreases |t| - p
  {
    if p < q {
      match SkipLiteral(t, p)
      case Some(e) =>
        assert Reaches(t, names, e, q) && Scan(t, names, p) == Scan(t, names, e);
        ScanComplete(t, names, e, q, m);
      case None =>
        match MatchAt(t, p, names)
        case Some(m') =>
          assert Reaches(t, names, m'.end, q) && Scan(t, names, p) == [m'] + Scan(t, names, m'.end);
          ScanComplete(t, names, m'.end, q, m);
        case None =>
          assert Reaches(t, names, p + 1, q) && Scan(t, names, p) == Scan(t, names, p + 1);
          ScanComplete(t, names, p + 1, q, m);
    } else {
      assert Scan(t, names, p) == [m] + Scan(t, names, m.end);
    }
  }

  /** And every reported call is one the scan met outside the literals it
      skips. */
  lemma {:induction false} ScanSound(t: string, names: seq<string>, p: nat, m: Match)
    requires p <= |t| && m in Scan(t, names, p)
    ensures m.start < |t| && Reaches(t, names, p, m.start)
    ensures SkipLiteral(t, m.start).None? && MatchAt(t, m.start, names) == Some(m)
    decreases |t| - p
  {
    match SkipLiteral(t, p)
    case Some(e) =>
      ScanSound(t, names, e, m);
    case None =>
      match MatchAt(t, p, names)
      case Some(m') =>
        if m != m' {
          ScanSound(t, names, m'.end, m);
        }
      case None =>
        ScanSound(t, names, p + 1, m);
  }
}
