/** The few text operations of the Python runtime that the resolver relies on. */
module Text {

  datatype Option<+T> = None | Some(value: T)

  datatype Result<+T> = Ok(value: T) | Err(reason: string)

  const NEL := '\U{0085}'
  const LINE_SEPARATOR := '\U{2028}'
  const PARAGRAPH_SEPARATOR := '\U{2029}'

  /** The boundaries of `str.splitlines`. */
  predicate IsLineBreak(c: char) {
    c == '\n' || c == '\r' || c == '\U{000B}' || c == '\U{000C}' || c == '\U{001C}' || c == '\U{001D}' || c == '\U{001E}'
    || IsRareBreak(c)
  }

  /** The boundaries of `str.splitlines` that JSON text may contain unescaped. */
  predicate IsRareBreak(c: char) {
    c == NEL || c == LINE_SEPARATOR || c == PARAGRAPH_SEPARATOR
  }

  /** `str.isspace` for one character. */
  predicate IsSpace(c: char) {
    IsLineBreak(c) || c == '\t' || c == '\U{001F}' || c == ' ' || c == '\U{00A0}' || c == '\U{1680}'
    || '\U{2000}' <= c <= '\U{200A}' || c == '\U{202F}' || c == '\U{205F}' || c == '\U{3000}'
  }

  predicate IsOneLine(s: string) {
    forall c <- s :: !IsLineBreak(c)
  }

  predicate StartsWith(s: string, prefix: string) {
    |prefix| <= |s| && s[..|prefix|] == prefix
  }

  function LowerChar(c: char): char {
    if 'A' <= c <= 'Z' then 'a' + (c - 'A') else c
  }

  /** `lower` and `casefold`, on ASCII letters. */
  function Lower(s: string): (lower: string)
    ensures |lower| == |s|
  {
    seq(|s|, i requires 0 <= i < |s| => LowerChar(s[i]))
  }

  predicate IsHexDigit(c: char) {
    '0' <= c <= '9' || 'a' <= c <= 'f'
  }

  /** A lower-case SHA-256 digest. */
  predicate IsHash(s: string) {
    |s| == 64 && forall c <- s :: IsHexDigit(c)
  }

  /** The offset of the first occurrence of a character. */
  function IndexOf(s: string, c: char): (i: nat)
    ensures i <= |s|
    ensures i < |s| ==> s[i] == c
    ensures c !in s[..i]
  {
    if s == "" || s[0] == c then 0
    else
      var i := 1 + IndexOf(s[1..], c);
      assert s[..i] == [s[0]] + s[1..][..i - 1];
      i
  }

  function StripLeft(s: string): string {
    if s != "" && IsSpace(s[0]) then StripLeft(s[1..]) else s
  }

  function StripRight(s: string): string {
    if s != "" && IsSpace(s[|s| - 1]) then StripRight(s[..|s| - 1]) else s
  }

  function Strip(s: string): string {
    StripRight(StripLeft(s))
  }

  /** Text that `strip` leaves alone: every validated identifier and summary. */
  predicate IsTrimmed(s: string) {
    s != "" ==> !IsSpace(s[0]) && !IsSpace(s[|s| - 1])
  }

  lemma StripTrims(s: string)
    ensures IsTrimmed(Strip(s))
    ensures IsTrimmed(s) ==> Strip(s) == s
  {
    StripLeftTrims(s);
    StripRightTrims(StripLeft(s));
  }

  lemma {:induction false} StripLeftTrims(s: string)
    ensures StripLeft(s) != "" ==> !IsSpace(StripLeft(s)[0])
  {
    if s != "" && IsSpace(s[0]) {
      StripLeftTrims(s[1..]);
    }
  }

  lemma {:induction false} StripRightTrims(s: string)
    ensures StripRight(s) <= s
    ensures StripRight(s) != "" ==> !IsSpace(StripRight(s)[|StripRight(s)| - 1])
  {
    if s != "" && IsSpace(s[|s| - 1]) {
      StripRightTrims(s[..|s| - 1]);
    }
  }

  function Join(separator: string, parts: seq<string>): string {
    if |parts| == 0 then ""
    else if |parts| == 1 then parts[0]
    else parts[0] + separator + Join(separator, parts[1..])
  }

  lemma {:induction false} JoinAppend(separator: string, a: seq<string>, b: seq<string>)
    requires a != [] && b != []
    ensures Join(separator, a + b) == Join(separator, a) + separator + Join(separator, b)
  {
    assert (a + b)[0] == a[0];
    if |a| == 1 {
      assert (a + b)[1..] == b;
    } else {
      assert (a + b)[1..] == a[1..] + b;
      JoinAppend(separator, a[1..], b);
    }
  }

  /** The lines of a text, cut at line feeds only: `"\n".join` undone. */
  function Lines(s: string): (lines: seq<string>)
    ensures |lines| >= 1
  {
    if s == "" then [""]
    else if s[0] == '\n' then [""] + Lines(s[1..])
    else
      var rest := Lines(s[1..]);
      [[s[0]] + rest[0]] + rest[1..]
  }

  lemma {:induction false} LinesJoin(s: string)
    ensures Join("\n", Lines(s)) == s
    ensures forall line <- Lines(s) :: '\n' !in line
  {
    if s != "" {
      LinesJoin(s[1..]);
      var rest := Lines(s[1..]);
      if s[0] == '\n' {
        assert Lines(s)[1..] == rest;
      } else {
        assert Lines(s)[1..] == rest[1..];
        assert s == [s[0]] + s[1..];
      }
    }
  }

  lemma {:induction false} LinesSingle(s: string)
    requires '\n' !in s
    ensures Lines(s) == [s]
  {
    if s != "" {
      LinesSingle(s[1..]);
      assert s == [s[0]] + s[1..];
    }
  }

  lemma {:induction false} LinesCons(line: string, rest: string)
    requires '\n' !in line
    ensures Lines(line + "\n" + rest) == [line] + Lines(rest)
  {
    var whole := line + "\n" + rest;
    if line == "" {
      assert whole[1..] == rest;
    } else {
      LinesCons(line[1..], rest);
      assert whole[1..] == line[1..] + "\n" + rest;
      assert line == [line[0]] + line[1..];
    }
  }

  /** Joining newline-free lines and cutting them again is the identity. */
  lemma {:induction false} LinesOfJoin(lines: seq<string>)
    requires lines != [] && forall line <- lines :: '\n' !in line
    ensures Lines(Join("\n", lines)) == lines
  {
    if |lines| == 1 {
      LinesSingle(lines[0]);
    } else {
      LinesOfJoin(lines[1..]);
      LinesCons(lines[0], Join("\n", lines[1..]));
    }
  }

  /** `str.splitlines`. */
  function SplitLines(s: string): (lines: seq<string>)
    ensures forall line <- lines :: IsOneLine(line)
  {
    if s == "" then []
    else
      var end := LineEnd(s);
      if end == |s| then [s]
      else
        var next := if s[end] == '\r' && end + 1 < |s| && s[end + 1] == '\n' then end + 2 else end + 1;
        [s[..end]] + SplitLines(s[next..])
  }

  /** The offset of the first line boundary, or the length of the text. */
  function LineEnd(s: string): (end: nat)
    ensures end <= |s|
    ensures forall i | 0 <= i < end :: !IsLineBreak(s[i])
    ensures end < |s| ==> IsLineBreak(s[end])
  {
    if s == "" || IsLineBreak(s[0]) then 0 else 1 + LineEnd(s[1..])
  }

  function CountBreaks(s: string): nat {
    if s == "" then 0 else (if IsLineBreak(s[0]) then 1 else 0) + CountBreaks(s[1..])
  }

  lemma {:induction false} CountBreaksAppend(a: string, b: string)
    ensures CountBreaks(a + b) == CountBreaks(a) + CountBreaks(b)
  {
    if a == "" {
      assert a + b == b;
    } else {
      CountBreaksAppend(a[1..], b);
      assert (a + b)[1..] == a[1..] + b;
    }
  }

  lemma {:induction false} CountBreaksPositive(s: string)
    ensures CountBreaks(s) > 0 <==> exists c <- s :: IsLineBreak(c)
  {
    if s != "" {
      CountBreaksPositive(s[1..]);
      assert s == [s[0]] + s[1..];
    }
  }

  /** Without carriage returns every boundary character ends one line. */
  lemma {:induction false} SplitLinesCount(s: string)
    requires '\r' !in s
    requires s != "" ==> !IsLineBreak(s[|s| - 1])
    ensures |SplitLines(s)| == if s == "" then 0 else CountBreaks(s) + 1
  {
    if s != "" {
      var end := LineEnd(s);
      CountBreaksPositive(s[..end]);
      if end == |s| {
        assert s[..end] == s;
      } else {
        assert s == s[..end] + [s[end]] + s[end + 1..];
        CountBreaksAppend(s[..end] + [s[end]], s[end + 1..]);
        CountBreaksAppend(s[..end], [s[end]]);
        assert end + 1 < |s|;
        SplitLinesCount(s[end + 1..]);
      }
    }
  }

  lemma LineEndAppend(line: string, c: char, rest: string)
    requires IsOneLine(line)
    requires IsLineBreak(c)
    ensures LineEnd(line + [c] + rest) == |line|
  {
    var whole := line + [c] + rest;
    var end := LineEnd(whole);
    assert whole[|line|] == c;
    assert forall i | 0 <= i < |line| :: whole[i] == line[i] && line[i] in line;
    assert !(end < |line|);
  }

  /** `splitlines` recovers the lines that were joined when none holds a boundary. */
  lemma {:induction false} SplitLinesOfJoin(lines: seq<string>)
    requires forall line <- lines :: line != "" && IsOneLine(line)
    ensures SplitLines(Join("\n", lines)) == lines
  {
    assert forall i | 0 <= i < |lines| :: lines[i] in lines;
    if |lines| == 1 {
      assert LineEnd(lines[0]) == |lines[0]|;
    } else if |lines| > 1 {
      var rest := Join("\n", lines[1..]);
      SplitLinesOfJoin(lines[1..]);
      LineEndAppend(lines[0], '\n', rest);
      var whole := lines[0] + "\n" + rest;
      assert whole[|lines[0]| + 1..] == rest;
      assert whole[..|lines[0]|] == lines[0];
    }
  }

  /** Universal-newline translation applied when a text file is read. */
  function UniversalNewlines(s: string): string {
    if s == "" then ""
    else if s[0] == '\r' then
      "\n" + UniversalNewlines(if |s| > 1 && s[1] == '\n' then s[2..] else s[1..])
    else [s[0]] + UniversalNewlines(s[1..])
  }

  lemma {:induction false} UniversalNewlinesIdentity(s: string)
    requires '\r' !in s
    ensures UniversalNewlines(s) == s
  {
    if s != "" {
      UniversalNewlinesIdentity(s[1..]);
      assert s == [s[0]] + s[1..];
    }
  }

  /** Lexicographic order by code point, as Python compares strings. */
  predicate Le(a: string, b: string) {
    a == "" || (b != "" && (a[0] < b[0] || (a[0] == b[0] && Le(a[1..], b[1..]))))
  }

  lemma {:induction false} LeTotal(a: string, b: string)
    ensures Le(a, b) || Le(b, a)
    ensures Le(a, b) && Le(b, a) ==> a == b
    ensures a == b ==> Le(a, b)
  {
    if a != "" && b != "" && a[0] == b[0] {
      LeTotal(a[1..], b[1..]);
      assert a == [a[0]] + a[1..] && b == [b[0]] + b[1..];
    }
  }

  lemma {:induction false} LeTransitive(a: string, b: string, c: string)
    requires Le(a, b) && Le(b, c)
    ensures Le(a, c)
  {
    if a != "" && a[0] == b[0] && b[0] == c[0] {
      LeTransitive(a[1..], b[1..], c[1..]);
    }
  }

  ghost predicate IsLeast(k: string, keys: set<string>) {
    k in keys && forall other <- keys :: Le(k, other)
  }

  lemma {:induction false} LeastExists(keys: set<string>)
    requires keys != {}
    ensures exists k :: IsLeast(k, keys)
  {
    var x :| x in keys;
    if keys == {x} {
      LeTotal(x, x);
      assert IsLeast(x, keys);
    } else {
      LeastExists(keys - {x});
      var y :| IsLeast(y, keys - {x});
      LeTotal(x, y);
      LeTotal(x, x);
      if Le(x, y) {
        forall other <- keys ensures Le(x, other) {
          if other != x { LeTransitive(x, y, other); }
        }
        assert IsLeast(x, keys);
      } else {
        assert IsLeast(y, keys);
      }
    }
  }

  ghost function Least(keys: set<string>): (k: string)
    requires keys != {}
    ensures IsLeast(k, keys)
  {
    LeastExists(keys);
    var k :| IsLeast(k, keys);
    k
  }

  /** `sorted` of a set of keys. */
  ghost function Sorted(keys: set<string>): (order: seq<string>)
    ensures forall k :: k in order <==> k in keys
    ensures |order| == |keys|
    decreases |keys|
  {
    if keys == {} then [] else [Least(keys)] + Sorted(keys - {Least(keys)})
  }

  ghost predicate Ascending(order: seq<string>) {
    forall i, j | 0 <= i < j < |order| :: order[i] != order[j] && Le(order[i], order[j])
  }

  lemma {:induction false} SortedAscends(keys: set<string>)
    ensures Ascending(Sorted(keys))
    decreases |keys|
  {
    if keys != {} {
      var rest := keys - {Least(keys)};
      var order := Sorted(rest);
      SortedAscends(rest);
      forall i, j | 0 <= i < j < |order| + 1
        ensures ([Least(keys)] + order)[i] != ([Least(keys)] + order)[j]
        ensures Le(([Least(keys)] + order)[i], ([Least(keys)] + order)[j])
      {
        assert order[j - 1] in rest;
      }
    }
  }

  /** `str.split()` with no separator: the maximal runs of non-blank characters. */
  function Words(s: string): seq<string> {
    if s == "" then []
    else if IsSpace(s[0]) then Words(s[1..])
    else
      var n := WordEnd(s);
      [s[..n]] + Words(s[n..])
  }

  function WordEnd(s: string): (n: nat)
    requires s != "" && !IsSpace(s[0])
    ensures 0 < n <= |s|
    ensures forall i | 0 <= i < n :: !IsSpace(s[i])
    ensures n < |s| ==> IsSpace(s[n])
  {
    if |s| == 1 || IsSpace(s[1]) then 1 else 1 + WordEnd(s[1..])
  }
}
