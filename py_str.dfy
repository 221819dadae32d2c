/** The behaviour of Python's `str` that both front ends depend on: the
    whitespace set of `str.isspace`, `strip`, `splitlines`, `split`, `join`,
    `replace`, `str(int)`/`int(str)` and the code-point order that `sorted` uses. */
module PyStr {
  import opened Basics

  // ---------------------------------------------------------------------------
  // Character classes

  /** `c.isspace()` in Python 3. */
  predicate IsSpace(c: char) {
    var n := c as int;
    (0x09 <= n <= 0x0D) || (0x1C <= n <= 0x20) || n == 0x85 || n == 0xA0 || n == 0x1680
    || (0x2000 <= n <= 0x200A) || n == 0x2028 || n == 0x2029 || n == 0x202F
    || n == 0x205F || n == 0x3000
  }

  /** The characters at which `str.splitlines()` ends a line. */
  predicate IsLineBreak(c: char) {
    var n := c as int;
    (0x0A <= n <= 0x0D) || (0x1C <= n <= 0x1E) || n == 0x85 || n == 0x2028 || n == 0x2029
  }

  predicate IsDigit(c: char) { '0' <= c <= '9' }

  predicate AllDigits(s: string) { forall k :: 0 <= k < |s| ==> IsDigit(s[k]) }

  predicate NoBreak(s: string) { forall k :: 0 <= k < |s| ==> !IsLineBreak(s[k]) }

  predicate IsBlank(s: string) { forall k :: 0 <= k < |s| ==> IsSpace(s[k]) }

  // ---------------------------------------------------------------------------
  // strip

  function LeadingSpaces(s: string): (k: nat)
    ensures k <= |s|
    ensures forall i :: 0 <= i < k ==> IsSpace(s[i])
    ensures k < |s| ==> !IsSpace(s[k])
  {
    if s == [] || !IsSpace(s[0]) then 0 else 1 + LeadingSpaces(s[1..])
  }

  function TrailingSpaces(s: string): (k: nat)
    ensures k <= |s|
    ensures forall i :: |s| - k <= i < |s| ==> IsSpace(s[i])
    ensures k < |s| ==> !IsSpace(s[|s| - k - 1])
  {
    if s == [] || !IsSpace(s[|s| - 1]) then 0 else 1 + TrailingSpaces(s[..|s| - 1])
  }

  /** `s.lstrip()`. */
  function LStrip(s: string): string {
    s[LeadingSpaces(s)..]
  }

  /** `s.strip()`: the longest slice of `s` that neither starts nor ends with
      whitespace, everything outside it being whitespace. */
  function Strip(s: string): (r: string)
    ensures LeadingSpaces(s) + |r| <= |s| && r == s[LeadingSpaces(s)..LeadingSpaces(s) + |r|]
    ensures forall i :: 0 <= i < |s| && !(LeadingSpaces(s) <= i < LeadingSpaces(s) + |r|) ==> IsSpace(s[i])
    ensures r != [] ==> !IsSpace(r[0]) && !IsSpace(r[|r| - 1])
  {
    var t := LStrip(s);
    t[..|t| - TrailingSpaces(t)]
  }

  /** `s.strip() == ""` holds exactly for all-whitespace strings. */
  lemma StripEmptyIffBlank(s: string)
    ensures Strip(s) == [] <==> IsBlank(s)
  {
  }

  // ---------------------------------------------------------------------------
  // splitlines and join

  /** Index of the first line break in `s`, or `|s|`. */
  function BreakIndex(s: string): (i: nat)
    ensures i <= |s|
    ensures forall k :: 0 <= k < i ==> !IsLineBreak(s[k])
    ensures i < |s| ==> IsLineBreak(s[i])
  {
    if s == [] || IsLineBreak(s[0]) then 0 else 1 + BreakIndex(s[1..])
  }

  /** Width of the line terminator at `s[i]`: two for "\r\n", one otherwise. */
  function BreakWidth(s: string, i: nat): nat
    requires i < |s|
  {
    if s[i] == '\r' && i + 1 < |s| && s[i + 1] == '\n' then 2 else 1
  }

  /** `s.splitlines()`: the lines of `s` without their terminators; a final
      terminator does not open an empty last line. */
  function SplitLines(s: string): (lines: seq<string>)
    ensures forall l :: l in lines ==> NoBreak(l)
    ensures s == [] <==> lines == []
    decreases |s|
  {
    if s == [] then []
    else
      var i := BreakIndex(s);
      if i == |s| then [s]
      else [s[..i]] + SplitLines(s[i + BreakWidth(s, i)..])
  }

  /** `sep.join(parts)`. */
  function Join(parts: seq<string>, sep: string): string {
    if parts == [] then ""
    else if |parts| == 1 then parts[0]
    else parts[0] + sep + Join(parts[1..], sep)
  }

  lemma BreakIndexAt(l: string, t: string)
    requires NoBreak(l) && t != [] && IsLineBreak(t[0])
    ensures BreakIndex(l + t) == |l|
  {
    var s := l + t;
    assert forall k :: 0 <= k < |l| ==> s[k] == l[k];
    assert s[|l|] == t[0];
  }

  /** Joining break-free lines with "\n" and splitting the text again gives the
      lines back, as long as the last line is not empty. */
  lemma {:induction false} SplitLinesOfJoin(lines: seq<string>)
    requires forall l :: l in lines ==> NoBreak(l)
    requires lines != [] ==> lines[|lines| - 1] != ""
    ensures SplitLines(Join(lines, "\n")) == lines
    decreases |lines|, 2
  {
    if |lines| == 1 {
      assert lines[0] in lines;
      OneLine(lines[0]);
      assert lines == [lines[0]];
    } else if |lines| > 1 {
      JoinStep(lines);
    }
  }

  /** The inductive step: the first line is split off and the rest is joined the same way. */
  lemma {:induction false} JoinStep(lines: seq<string>)
    requires |lines| > 1 && lines[|lines| - 1] != ""
    requires forall l :: l in lines ==> NoBreak(l)
    ensures SplitLines(Join(lines, "\n")) == lines
    decreases |lines|, 1
  {
    assert NoBreak(lines[0]) by { assert lines[0] in lines; }
    SplitJoinStep(lines);
    TailLines(lines);
    assert lines == [lines[0]] + lines[1..];
  }

  lemma SplitJoinStep(lines: seq<string>)
    requires |lines| > 1 && NoBreak(lines[0])
    ensures SplitLines(Join(lines, "\n")) == [lines[0]] + SplitLines(Join(lines[1..], "\n"))
  {
    var rest := Join(lines[1..], "\n");
    assert Join(lines, "\n") == lines[0] + ("\n" + rest);
    SplitAtNewline(lines[0], rest, Join(lines, "\n"));
  }

  lemma TailLines(lines: seq<string>)
    requires |lines| > 1 && lines[|lines| - 1] != ""
    requires forall l :: l in lines ==> NoBreak(l)
    ensures SplitLines(Join(lines[1..], "\n")) == lines[1..]
    decreases |lines|, 0
  {
    var tail := lines[1..];
    assert forall m :: m in tail ==> m in lines;
    assert tail[|tail| - 1] == lines[|lines| - 1];
    SplitLinesOfJoin(tail);
  }

  lemma OneLine(l: string)
    requires NoBreak(l) && l != ""
    ensures SplitLines(Join([l], "\n")) == [l]
  {
    assert Join([l], "\n") == l;
    assert BreakIndex(l) == |l|;
  }

  /** A break-free line, a "\n", then more text: the first line is split off. */
  lemma SplitAtNewline(l: string, rest: string, s: string)
    requires NoBreak(l) && s == l + ("\n" + rest)
    ensures SplitLines(s) == [l] + SplitLines(rest)
  {
    BreakIndexAt(l, "\n" + rest);
    assert BreakWidth(s, |l|) == 1;
    assert s[..|l|] == l;
    assert s[|l| + 1..] == rest;
  }

  // ---------------------------------------------------------------------------
  // find, split(sep) and replace

  predicate OccursAt(s: string, sub: string, k: nat) {
    k + |sub| <= |s| && s[k..k + |sub|] == sub
  }

  /** Index of the first occurrence of `sub` in `s` at or after `from`. */
  function FindFrom(s: string, sub: string, from: nat): (r: Option<nat>)
    requires |sub| > 0
    ensures r.Some? ==> from <= r.value && OccursAt(s, sub, r.value)
    ensures r.Some? ==> forall k :: from <= k < r.value ==> !OccursAt(s, sub, k)
    ensures r.None? ==> forall k :: from <= k ==> !OccursAt(s, sub, k)
    decreases |s| - from
  {
    if from + |sub| > |s| then None
    else if s[from..from + |sub|] == sub then Some(from)
    else FindFrom(s, sub, from + 1)
  }

  /** `sub in s` for a non-empty `sub`. */
  predicate Contains(s: string, sub: string)
    requires |sub| > 0
  {
    FindFrom(s, sub, 0).Some?
  }

  lemma NoOccurrenceBefore(s: string, sub: string, i: nat)
    requires |sub| > 0 && i <= |s|
    requires forall k :: 0 <= k < i ==> !OccursAt(s, sub, k)
    ensures !Contains(s[..i], sub)
  {
    var p := s[..i];
    var r := FindFrom(p, sub, 0);
    if r.Some? {
      var k := r.value;
      assert p[k..k + |sub|] == s[k..k + |sub|];
      assert OccursAt(s, sub, k);
    }
  }

  /** `s.split(sep)` for a non-empty separator: the pieces between the
      leftmost non-overlapping occurrences of `sep`, none of which contains it. */
  function SplitOn(s: string, sep: string): (parts: seq<string>)
    requires |sep| > 0
    ensures |parts| >= 1
    decreases |s|
  {
    match FindFrom(s, sep, 0)
    case None => [s]
    case Some(i) => [s[..i]] + SplitOn(s[i + |sep|..], sep)
  }

  /** No piece of a split contains the separator, and there is more than one
      piece exactly when the separator occurs. */
  lemma {:induction false} SplitOnPieces(s: string, sep: string)
    requires |sep| > 0
    ensures forall p :: p in SplitOn(s, sep) ==> !Contains(p, sep)
    ensures |SplitOn(s, sep)| == 1 <==> !Contains(s, sep)
    decreases |s|
  {
    var f := FindFrom(s, sep, 0);
    if f.Some? {
      var i := f.value;
      var rest := s[i + |sep|..];
      NoOccurrenceBefore(s, sep, i);
      SplitOnPieces(rest, sep);
      assert SplitOn(s, sep) == [s[..i]] + SplitOn(rest, sep);
    }
  }

  /** Joining the pieces of a split with the same separator gives the text back. */
  lemma {:induction false} JoinSplitOn(s: string, sep: string)
    requires |sep| > 0
    ensures Join(SplitOn(s, sep), sep) == s
    decreases |s|
  {
    var f := FindFrom(s, sep, 0);
    if f.Some? {
      var i := f.value;
      var rest := s[i + |sep|..];
      var tail := SplitOn(rest, sep);
      assert SplitOn(s, sep) == [s[..i]] + tail;
      JoinSplitOn(rest, sep);
      assert Join(SplitOn(s, sep), sep) == s[..i] + sep + Join(tail, sep);
      assert s == s[..i] + sep + rest;
    }
  }

  /** `s.replace(old, new)` for a non-empty `old`: every leftmost
      non-overlapping occurrence replaced, in one pass. */
  function Replace(s: string, target: string, replacement: string): (r: string)
    requires |target| > 0
  {
    Join(SplitOn(s, target), replacement)
  }

  // ---------------------------------------------------------------------------
  // str(int) and int(str)

  function DigitChar(d: nat): (c: char)
    requires d < 10
    ensures IsDigit(c)
  {
    (('0' as int) + d) as char
  }

  function NatToString(n: nat): (s: string)
    ensures |s| > 0 && AllDigits(s)
    decreases n
  {
    if n < 10 then [DigitChar(n)] else NatToString(n / 10) + [DigitChar(n % 10)]
  }

  /** `str(i)` for a Python int. */
  function IntToString(i: int): string {
    if i < 0 then "-" + NatToString(-i) else NatToString(i)
  }

  function DigitsValue(s: string): nat
    requires AllDigits(s)
    decreases |s|
  {
    if s == [] then 0 else 10 * DigitsValue(s[..|s| - 1]) + (s[|s| - 1] as int - '0' as int)
  }

  /** The integer spelling of a signed-number token: an optional sign, then digits. */
  predicate IsSignedInt(s: string) {
    |s| > 0 &&
    if s[0] == '+' || s[0] == '-' then |s| > 1 && AllDigits(s[1..]) else AllDigits(s)
  }

  /** `int(s)` on such a spelling. */
  function ParseSignedInt(s: string): int
    requires IsSignedInt(s)
  {
    if s[0] == '-' then -(DigitsValue(s[1..]) as int)
    else if s[0] == '+' then DigitsValue(s[1..])
    else DigitsValue(s)
  }

  lemma {:induction false} NatToStringRoundTrip(n: nat)
    ensures DigitsValue(NatToString(n)) == n
    decreases n
  {
    if n >= 10 {
      NatToStringRoundTrip(n / 10);
      var s := NatToString(n);
      assert s[..|s| - 1] == NatToString(n / 10);
    }
  }

  /** `int(str(i)) == i`: the decimal spelling the unparser prints is read back
      by the number reduction as the same integer. */
  lemma IntToStringRoundTrip(i: int)
    ensures IsSignedInt(IntToString(i)) && ParseSignedInt(IntToString(i)) == i
  {
    if i < 0 {
      NatToStringRoundTrip(-i);
      assert IntToString(i)[1..] == NatToString(-i);
    } else {
      NatToStringRoundTrip(i);
      var s := NatToString(i);
      assert IsDigit(s[0]);
    }
  }

  // ---------------------------------------------------------------------------
  // Code-point order and sorted()

  /** `a < b` on Python strings: lexicographic on code points, a proper prefix first. */
  predicate Less(a: string, b: string) {
    if a == [] then b != []
    else if b == [] then false
    else if a[0] != b[0] then a[0] < b[0]
    else Less(a[1..], b[1..])
  }

  predicate LessEq(a: string, b: string) { a == b || Less(a, b) }

  lemma {:induction false} LessTotal(a: string, b: string)
    ensures a == b || Less(a, b) || Less(b, a)
  {
    if a != [] && b != [] && a[0] == b[0] {
      LessTotal(a[1..], b[1..]);
      if a[1..] == b[1..] {
        assert a == [a[0]] + a[1..] && b == [b[0]] + b[1..];
      }
    }
  }

  lemma {:induction false} LessTransitive(a: string, b: string, c: string)
    requires Less(a, b) && Less(b, c)
    ensures Less(a, c)
  {
    if a != [] && b != [] && c != [] && a[0] == b[0] && b[0] == c[0] {
      LessTransitive(a[1..], b[1..], c[1..]);
    }
  }

  lemma {:induction false} LessIrreflexive(a: string)
    ensures !Less(a, a)
  {
    if a != [] {
      LessIrreflexive(a[1..]);
    }
  }

  predicate SortedStrings(s: seq<string>) {
    forall i, j :: 0 <= i < j < |s| ==> LessEq(s[i], s[j])
  }

  function Insert(x: string, s: seq<string>): (r: seq<string>)
    requires SortedStrings(s)
    ensures multiset(r) == multiset(s) + multiset{x}
    ensures SortedStrings(r)
  {
    if s == [] then [x]
    else if LessEq(x, s[0]) then
      InsertFront(x, s);
      [x] + s
    else
      LessTotal(x, s[0]);
      var t := Insert(x, s[1..]);
      InsertBehind(x, s, t);
      assert s == [s[0]] + s[1..];
      [s[0]] + t
  }

  /** A string no greater than the head goes in front. */
  lemma InsertFront(x: string, s: seq<string>)
    requires SortedStrings(s) && s != [] && LessEq(x, s[0])
    ensures SortedStrings([x] + s)
  {
    forall j | 0 < j < |s| ensures LessEq(x, s[j]) {
      if x != s[0] && s[0] != s[j] { LessTransitive(x, s[0], s[j]); }
    }
  }

  /** The head stays in front of a sorted rest that holds the other strings and `x > s[0]`. */
  lemma InsertBehind(x: string, s: seq<string>, t: seq<string>)
    requires SortedStrings(s) && s != [] && Less(s[0], x)
    requires SortedStrings(t) && multiset(t) == multiset(s[1..]) + multiset{x}
    ensures SortedStrings([s[0]] + t)
  {
    forall j | 0 <= j < |t| ensures LessEq(s[0], t[j]) {
      assert t[j] in multiset(t);
      if t[j] != x {
        assert t[j] in multiset(s[1..]);
        var k :| 0 <= k < |s[1..]| && s[1..][k] == t[j];
        assert s[k + 1] == t[j];
      }
    }
  }

  /** `sorted(keys)` on strings: a permutation of the keys in code-point order. */
  function SortStrings(s: seq<string>): (r: seq<string>)
    ensures multiset(r) == multiset(s)
    ensures SortedStrings(r)
  {
    if s == [] then []
    else
      assert s == s[..|s| - 1] + [s[|s| - 1]];
      Insert(s[|s| - 1], SortStrings(s[..|s| - 1]))
  }

  lemma LessEqAntisymmetric(a: string, b: string)
    requires LessEq(a, b) && LessEq(b, a)
    ensures a == b
  {
    if a != b {
      LessTransitive(a, b, a);
      LessIrreflexive(a);
    }
  }

  /** Sorting has one result: two sorted sequences holding the same strings
      are equal. */
  lemma {:induction false} SortedUnique(a: seq<string>, b: seq<string>)
    requires SortedStrings(a) && SortedStrings(b) && multiset(a) == multiset(b)
    ensures a == b
  {
    if a != [] {
      SameHead(a, b);
      DropHead(a);
      DropHead(b);
      SortedUnique(a[1..], b[1..]);
      assert a == [a[0]] + a[1..] && b == [b[0]] + b[1..];
    } else {
      assert |b| == |multiset(b)|;
    }
  }

  /** Two sorted sequences of the same strings start with the same one. */
  lemma SameHead(a: seq<string>, b: seq<string>)
    requires SortedStrings(a) && SortedStrings(b) && multiset(a) == multiset(b) && a != []
    ensures b != [] && a[0] == b[0]
  {
    assert a[0] in multiset(b) && |b| == |multiset(b)|;
    assert b[0] in multiset(a);
    var i :| 0 <= i < |b| && b[i] == a[0];
    var j :| 0 <= j < |a| && a[j] == b[0];
    assert LessEq(b[0], a[0]) by { if i > 0 { assert LessEq(b[0], b[i]); } }
    assert LessEq(a[0], b[0]) by { if j > 0 { assert LessEq(a[0], a[j]); } }
    LessEqAntisymmetric(a[0], b[0]);
  }

  lemma DropHead(a: seq<string>)
    requires a != []
    ensures multiset(a[1..]) == multiset(a) - multiset{a[0]}
  {
    assert a == [a[0]] + a[1..];
  }

}
