/** The summary shown for a selected memory (`_suggested_fix_text` in `resolver.py`). */
module SuggestedFix {
  import opened Text
  import opened Json
  import opened MemoryMarkdown

  const MAX_SUGGESTION_TEXT_LENGTH := 2_000
  const MARKER := "## Recovery Knowledge"

  function Truncate(s: string, limit: nat): string {
    if |s| <= limit then s else s[..limit]
  }

  /** The first line after the opening one that equals the marker and is followed by another line. */
  function MarkerFrom(lines: seq<string>, start: nat): (i: nat)
    requires start <= |lines|
    ensures start <= i <= |lines|
    decreases |lines| - start
  {
    if start == |lines| || (lines[start] == MARKER && start + 1 < |lines|) then start else MarkerFrom(lines, start + 1)
  }

  function HeadingFrom(lines: seq<string>, start: nat): (i: nat)
    requires start <= |lines|
    ensures start <= i <= |lines|
    decreases |lines| - start
  {
    if start == |lines| || StartsWith(lines[start], "## ") then start else HeadingFrom(lines, start + 1)
  }

  function Unquote(lines: seq<string>): seq<string> {
    if lines == [] then []
    else
      (if lines[0] == ">" then [""]
       else if StartsWith(lines[0], "> ") then [lines[0][2..]]
       else if Strip(lines[0]) != "" then [Strip(lines[0])]
       else [])
      + Unquote(lines[1..])
  }

  function Collapse(s: string): string {
    Join(" ", Words(s))
  }

  function IsTruthy(value: Json): bool {
    match value
    case Null => false
    case Bool(b) => b
    case Int(n) => n != 0
    case Float(literal) => DecimalValue(literal) != 0.0
    case Str(s) => s != ""
    case Arr(items) => items != []
    case Obj(fields) => fields != map[]
  }

  function Title(show: Json -> string, action: Json): string {
    var fields := if action.Obj? then action.fields else map[];
    var value := if IsTruthy(Get(fields, "title")) then Get(fields, "title") else Get(fields, "command");
    if !IsTruthy(value) then "" else Strip(if value.Str? then value.s else show(value))
  }

  function Titles(show: Json -> string, actions: seq<Json>): seq<string> {
    if actions == [] then []
    else (if Title(show, actions[0]) != "" then [Title(show, actions[0])] else []) + Titles(show, actions[1..])
  }

  function Fallback(show: Json -> string, document: Document): string {
    var text := Truncate(Join(" → ", Titles(show, document.dispatchedActions)), MAX_SUGGESTION_TEXT_LENGTH);
    if text == "" then "Apply the selected stored recovery actions." else text
  }

  function Knowledge(lines: seq<string>): string
    requires lines != []
  {
    var marker := MarkerFrom(lines, 1);
    if marker + 1 >= |lines| then ""
    else
      var end := HeadingFrom(lines, marker + 2);
      Collapse(Join(" ", Unquote(SplitLines(Strip(Join("\n", lines[marker + 1..end]))))))
  }

  function SuggestedFixText(show: Json -> string, document: Document): string {
    var lines := Lines(document.body);
    var text := Knowledge(lines);
    if text != "" then Truncate(text, MAX_SUGGESTION_TEXT_LENGTH) else Fallback(show, document)
  }

  // ---------------------------------------------------------------- whitespace

  lemma {:induction false} WordEndAppend(a: string, c: char, b: string)
    requires a != "" && !IsSpace(a[0]) && IsSpace(c)
    ensures WordEnd(a + [c] + b) == WordEnd(a)
  {
    var whole := a + [c] + b;
    if |a| > 1 && !IsSpace(a[1]) {
      WordEndAppend(a[1..], c, b);
      assert whole[1..] == a[1..] + [c] + b;
    }
  }

  lemma WordsSpace(c: char, s: string)
    requires IsSpace(c)
    ensures Words([c] + s) == Words(s)
    ensures Words("") == []
  {
    assert ([c] + s)[1..] == s;
  }

  lemma WordsWord(s: string)
    requires s != "" && !IsSpace(s[0])
    ensures Words(s) == [s[..WordEnd(s)]] + Words(s[WordEnd(s)..])
  {
  }

  /** Splitting on blanks sees nothing of how two texts were joined by one. */
  lemma {:induction false} WordsAppend(a: string, c: char, b: string)
    requires IsSpace(c)
    ensures Words(a + [c] + b) == Words(a) + Words(b)
    decreases |a|
  {
    hide Words, IsSpace, WordEnd;
    if a == "" {
      WordsSpace(c, b);
      assert a + [c] + b == [c] + b;
    } else if IsSpace(a[0]) {
      WordsAppend(a[1..], c, b);
      WordsSpace(a[0], a[1..]);
      WordsSpace(a[0], a[1..] + [c] + b);
      assert a == [a[0]] + a[1..];
      assert a + [c] + b == [a[0]] + (a[1..] + [c] + b);
    } else {
      var n := WordEnd(a);
      var whole := a + [c] + b;
      WordEndAppend(a, c, b);
      WordsAppend(a[n..], c, b);
      WordsWord(a);
      WordsWord(whole);
      assert whole[..n] == a[..n] && whole[n..] == a[n..] + [c] + b;
    }
  }

  /** Where the text continues after its first line. */
  function NextLine(s: string): (next: nat)
    requires LineEnd(s) < |s|
    ensures LineEnd(s) < next <= |s|
  {
    var end := LineEnd(s);
    if s[end] == '\r' && end + 1 < |s| && s[end + 1] == '\n' then end + 2 else end + 1
  }

  lemma SplitStep(s: string)
    requires s != "" && LineEnd(s) < |s|
    ensures SplitLines(s) == [s[..LineEnd(s)]] + SplitLines(s[NextLine(s)..])
  {
  }

  lemma WordsCut(s: string, i: nat)
    requires i < |s| && IsSpace(s[i])
    ensures Words(s) == Words(s[..i]) + Words(s[i + 1..])
  {
    hide Words, IsSpace;
    assert s == s[..i] + [s[i]] + s[i + 1..];
    WordsAppend(s[..i], s[i], s[i + 1..]);
  }

  lemma WordsStep(s: string)
    requires LineEnd(s) < |s|
    ensures Words(s) == Words(s[..LineEnd(s)]) + Words(s[NextLine(s)..])
  {
    hide Words, LineEnd, IsLineBreak, IsRareBreak;
    var end := LineEnd(s);
    QuoteMarkIsText();
    WordsCut(s, end);
    if NextLine(s) == end + 2 {
      var after := s[end + 1..];
      WordsCut(after, 0);
      WordsSpace('\n', "");
      assert after[..0] == "" && after[1..] == s[end + 2..];
    }
  }

  /** Replacing every line boundary by a space keeps the words. */
  lemma {:induction false} WordsOfLines(s: string)
    ensures Words(Join(" ", SplitLines(s))) == Words(s)
    decreases |s|
  {
    if s != "" {
      if LineEnd(s) < |s| {
        SplitStep(s);
        WordsStep(s);
        hide SplitLines, Words, LineEnd, NextLine;
        WordsOfLines(s[NextLine(s)..]);
        JoinTwo(s[..LineEnd(s)], SplitLines(s[NextLine(s)..]));
      } else {
        assert s[..LineEnd(s)] == s;
      }
    }
  }

  lemma JoinTwo(line: string, rest: seq<string>)
    ensures Words(Join(" ", [line] + rest)) == Words(line) + Words(Join(" ", rest))
  {
    assert ([line] + rest)[1..] == rest;
    if rest != [] {
      assert Join(" ", [line] + rest) == line + [' '] + Join(" ", rest);
      WordsAppend(line, ' ', Join(" ", rest));
    }
  }

  // ---------------------------------------------------------------- the quoted section

  lemma {:induction false} UnquoteQuoted(parts: seq<string>, lines: seq<string>)
    requires |lines| == |parts| && forall i | 0 <= i < |parts| :: lines[i] == QuoteLine(parts[i])
    ensures Unquote(lines) == parts
  {
    if parts != [] {
      assert QuoteLine(parts[0])[..1] == ">";
      if parts[0] != "" {
        assert ("> " + parts[0])[2..] == parts[0] && ("> " + parts[0])[..2] == "> ";
      }
      UnquoteQuoted(parts[1..], lines[1..]);
    }
  }

  /** The last line of a text without a trailing boundary ends where the text ends. */
  lemma {:induction false} LastLine(s: string)
    requires s != "" && !IsLineBreak(s[|s| - 1])
    ensures
      var lines := SplitLines(s);
      lines != [] && lines[|lines| - 1] != "" && lines[|lines| - 1][|lines[|lines| - 1]| - 1] == s[|s| - 1]
    decreases |s|
  {
    hide SplitLines;
    if LineEnd(s) < |s| {
      var next := NextLine(s);
      assert next < |s|;
      LastLine(s[next..]);
      SplitStep(s);
    } else {
      SplitWhole(s);
    }
  }

  lemma SplitWhole(s: string)
    requires s != "" && LineEnd(s) == |s|
    ensures SplitLines(s) == [s]
  {
  }

  lemma {:induction false} JoinEnds(lines: seq<string>)
    requires lines != [] && lines[0] != "" && lines[|lines| - 1] != ""
    ensures
      var text := Join("\n", lines);
      && text != "" && text[0] == lines[0][0]
      && text[|text| - 1] == lines[|lines| - 1][|lines[|lines| - 1]| - 1]
    decreases |lines|
  {
    if |lines| == 2 {
      assert lines[1..] == [lines[1]];
    } else if |lines| > 2 {
      if lines[1] != "" {
        JoinEnds(lines[1..]);
      } else {
        JoinLast(lines[1..]);
      }
    }
  }

  lemma {:induction false} JoinLast(lines: seq<string>)
    requires lines != [] && lines[|lines| - 1] != ""
    ensures
      var text := Join("\n", lines);
      text != "" && text[|text| - 1] == lines[|lines| - 1][|lines[|lines| - 1]| - 1]
    decreases |lines|
  {
    if |lines| > 1 { JoinLast(lines[1..]); }
  }

  lemma StripTrailingLineFeed(text: string)
    requires text != "" && !IsSpace(text[0]) && !IsSpace(text[|text| - 1])
    ensures Strip(text + "\n") == text
  {
    assert StripLeft(text + "\n") == text + "\n";
    assert (text + "\n")[..|text|] == text;
    assert StripRight(text) == text;
  }

  /** Stripping the rendered section removes only the blank line that follows the quotation. */
  lemma QuotedText(summary: string)
    requires summary != "" && IsTrimmed(summary)
    ensures Strip(Join("\n", Blockquote(summary) + [""])) == Join("\n", Blockquote(summary))
    ensures |Blockquote(summary)| == |SplitLines(summary)|
    ensures forall i | 0 <= i < |SplitLines(summary)| :: Blockquote(summary)[i] == QuoteLine(SplitLines(summary)[i])
  {
    hide SplitLines, Join, Strip, IsSpace, IsLineBreak, Blockquote;
    var parts, lines := SplitLines(summary), Blockquote(summary);
    LastIsLine(summary);
    BlockquoteParts(summary);
    QuoteMarkIsText();
    JoinEnds(lines);
    JoinAppend("\n", lines, [""]);
    JoinEmpty();
    var text := Join("\n", lines);
    assert text + "\n" + "" == text + "\n";
    StripTrailingLineFeed(text);
  }

  lemma QuoteMarkIsText()
    ensures !IsSpace('>')
    ensures IsSpace('\n')
  {
  }

  lemma LastIsLine(summary: string)
    requires summary != "" && IsTrimmed(summary)
    ensures
      var parts := SplitLines(summary);
      parts != [] && parts[|parts| - 1] != "" && !IsSpace(parts[|parts| - 1][|parts[|parts| - 1]| - 1])
  {
    LastLine(summary);
  }

  lemma BlockquoteParts(summary: string)
    requires SplitLines(summary) != []
    ensures
      var parts, lines := SplitLines(summary), Blockquote(summary);
      && |lines| == |parts|
      && (forall i | 0 <= i < |parts| :: lines[i] == QuoteLine(parts[i]))
      && lines[0] != "" && lines[0][0] == '>'
      && (parts[|parts| - 1] != "" ==>
            && lines[|lines| - 1] != ""
            && lines[|lines| - 1][|lines[|lines| - 1]| - 1] == parts[|parts| - 1][|parts[|parts| - 1]| - 1])
  {
    hide SplitLines, IsLineBreak;
  }

  lemma JoinEmpty()
    ensures Join("\n", [""]) == ""
  {
  }

  /** Unquoting the rendered section gives back the words of the summary. */
  lemma QuotedSection(summary: string)
    requires summary != "" && IsTrimmed(summary)
    ensures
      var text := Strip(Join("\n", Blockquote(summary) + [""]));
      Words(Join(" ", Unquote(SplitLines(text)))) == Words(summary)
  {
    hide Words, Join, Strip, SplitLines, Unquote, Blockquote;
    var parts, lines := SplitLines(summary), Blockquote(summary);
    LastIsLine(summary);
    BlockquoteParts(summary);
    QuotedText(summary);
    QuotedOneLine(parts, lines);
    SplitLinesOfJoin(lines);
    UnquoteQuoted(parts, lines);
    WordsOfLines(summary);
  }

  lemma QuotedOneLine(parts: seq<string>, lines: seq<string>)
    requires forall part <- parts :: IsOneLine(part)
    requires |lines| == |parts| && forall i | 0 <= i < |parts| :: lines[i] == QuoteLine(parts[i])
    ensures forall line <- lines :: line != "" && IsOneLine(line)
  {
    forall line <- lines ensures line != "" && IsOneLine(line) {
      var i :| 0 <= i < |lines| && lines[i] == line;
      assert parts[i] in parts;
    }
  }

  lemma {:induction false} MarkerFound(lines: seq<string>, start: nat, at: nat)
    requires start <= at && at + 1 < |lines| && lines[at] == MARKER
    requires forall i | start <= i < at :: lines[i] != MARKER
    ensures MarkerFrom(lines, start) == at
    decreases at - start
  {
    if start < at { MarkerFound(lines, start + 1, at); }
  }

  lemma {:induction false} HeadingFound(lines: seq<string>, start: nat, at: nat)
    requires start <= at < |lines| && StartsWith(lines[at], "## ")
    requires forall i | start <= i < at :: !StartsWith(lines[i], "## ")
    ensures HeadingFrom(lines, start) == at
    decreases at - start
  {
    if start < at { HeadingFound(lines, start + 1, at); }
  }

  /** Locating the section in any body laid out as opening lines, the quoted summary, and a further heading. */
  lemma KnowledgeFound(before: seq<string>, summary: string, after: seq<string>)
    requires |before| >= 1 && MARKER !in before[1..]
    requires summary != "" && IsTrimmed(summary)
    requires after != [] && StartsWith(after[0], "## ")
    ensures Knowledge(before + [MARKER] + Blockquote(summary) + [""] + after) == Collapse(summary)
  {
    hide Words, Strip, SplitLines, Unquote, Blockquote, Join, MarkerFrom, HeadingFrom, IsSpace;
    var quoted := Blockquote(summary);
    var lines := before + [MARKER] + quoted + [""] + after;
    var at, end := |before|, |before| + 2 + |quoted|;
    MarkerPlace(before, quoted + [""] + after);
    assert lines == before + [MARKER] + (quoted + [""] + after);
    HeadingPlace(before + [MARKER], quoted, after);
    assert lines == (before + [MARKER]) + (quoted + [""]) + after;
    assert lines[at + 1..end] == quoted + [""];
    QuotedSection(summary);
  }

  lemma MarkerPlace(before: seq<string>, rest: seq<string>)
    requires |before| >= 1 && MARKER !in before[1..] && rest != []
    ensures MarkerFrom(before + [MARKER] + rest, 1) == |before|
  {
    var lines := before + [MARKER] + rest;
    assert forall i | 1 <= i < |before| :: lines[i] == before[1..][i - 1] && before[1..][i - 1] in before[1..];
    MarkerFound(lines, 1, |before|);
  }

  lemma HeadingPlace(before: seq<string>, quoted: seq<string>, after: seq<string>)
    requires quoted != [] && forall line <- quoted :: line == "" || line[0] == '>'
    requires after != [] && StartsWith(after[0], "## ")
    ensures HeadingFrom(before + (quoted + [""]) + after, |before| + 1) == |before| + |quoted| + 1
  {
    hide HeadingFrom, StartsWith;
    forall line <- quoted + [""] ensures !StartsWith(line, "## ") {
      NotHeading(line);
    }
    NextHeading(before, quoted + [""], after);
  }

  lemma NextHeading(before: seq<string>, middle: seq<string>, after: seq<string>)
    requires middle != [] && forall line <- middle :: !StartsWith(line, "## ")
    requires after != [] && StartsWith(after[0], "## ")
    ensures HeadingFrom(before + middle + after, |before| + 1) == |before| + |middle|
  {
    hide HeadingFrom, StartsWith;
    var lines := before + middle + after;
    forall i | |before| + 1 <= i < |before| + |middle| ensures !StartsWith(lines[i], "## ") {
      assert lines[i] == middle[i - |before|];
    }
    HeadingFound(lines, |before| + 1, |before| + |middle|);
  }

  lemma NotHeading(line: string)
    requires line == "" || line[0] == '>'
    ensures !StartsWith(line, "## ")
  {
    if |line| >= 3 { assert line[..3][0] == '>'; }
  }

  lemma {:induction false} WordsNonEmpty(s: string)
    requires s != "" && !IsSpace(s[0])
    ensures Collapse(s) != ""
  {
    assert Words(s)[0] == s[..WordEnd(s)];
  }

  /** What follows the recovery summary in a rendered body, from the next heading on. */
  ghost function AfterSummary(draft: Draft, show: Json -> string): seq<string> {
    ["## Lessons"] + BodyLines(draft, show)[|KnowledgeLines(draft)| + 2..]
  }

  lemma BodyLayout(draft: Draft, show: Json -> string)
    ensures |BodyLines(draft, show)| >= |KnowledgeLines(draft)| + 2
    ensures BodyLines(draft, show) == KnowledgeLines(draft) + [""] + AfterSummary(draft, show)
  {
    hide KnowledgeLines, LessonSection, ContextLines, Section, YesNo;
    var body, top := BodyLines(draft, show), KnowledgeLines(draft);
    assert body[..|top|] == top;
    assert body[|top|] == "" && body[|top| + 1] == "## Lessons";
    assert body == body[..|top|] + body[|top|..|top| + 2] + body[|top| + 2..];
  }

  lemma KnowledgeTop(draft: Draft)
    requires IsCanonicalUuid(draft.source.resolutionId)
    ensures
      var before := ["", "# Resolution Memory " + draft.source.resolutionId, "", "## Failure Pattern"]
                    + Blockquote(draft.failureSummary) + [""];
      && KnowledgeLines(draft) == before + [MARKER] + Blockquote(draft.recoverySummary)
      && MARKER !in before[1..]
  {
    var title := "# Resolution Memory " + draft.source.resolutionId;
    var before := ["", title, "", "## Failure Pattern"] + Blockquote(draft.failureSummary) + [""];
    NotMarker(draft.source.resolutionId);
    hide Blockquote;
    assert KnowledgeLines(draft) == before + [MARKER] + Blockquote(draft.recoverySummary);
    forall line <- before[1..] ensures line != MARKER {
      assert line == title || line == "" || line == "## Failure Pattern" || line in Blockquote(draft.failureSummary);
    }
  }

  lemma NotMarker(id: string)
    ensures "# Resolution Memory " + id != MARKER
    ensures "## Failure Pattern" != MARKER
    ensures forall line: string | line == "" || line[0] == '>' :: line != MARKER
  {
    assert ("# Resolution Memory " + id)[1] == ' ' && MARKER[1] == '#';
    assert "## Failure Pattern"[3] == 'F' && MARKER[3] == 'R';
  }

  /** A rendered and re-parsed memory is presented as its own recovery summary, blanks collapsed and cut to the limit. */
  lemma SuggestionIsSummary(draft: Draft, show: Json -> string)
    requires IsPrepared(draft)
    requires draft.recoverySummary != "" && IsTrimmed(draft.recoverySummary)
    ensures SuggestedFixText(show, Rendered(draft, show))
      == Truncate(Collapse(draft.recoverySummary), MAX_SUGGESTION_TEXT_LENGTH)
  {
    PreparedParts(draft);
    BodyPlain(draft, show);
    LinesOfJoin(BodyLines(draft, show));
    BodyLayout(draft, show);
    KnowledgeTop(draft);
    WordsNonEmpty(draft.recoverySummary);
    hide BodyLines, KnowledgeLines, Blockquote, Knowledge, Collapse, Fallback, Lines, IsPrepared, AfterSummary;
    var before := ["", "# Resolution Memory " + draft.source.resolutionId, "", "## Failure Pattern"]
                  + Blockquote(draft.failureSummary) + [""];
    AfterSummaryHeading(draft, show);
    KnowledgeFound(before, draft.recoverySummary, AfterSummary(draft, show));
  }

  lemma AfterSummaryHeading(draft: Draft, show: Json -> string)
    ensures AfterSummary(draft, show) != [] && StartsWith(AfterSummary(draft, show)[0], "## ")
  {
    hide BodyLines;
    BodyLayout(draft, show);
    assert AfterSummary(draft, show)[0] == "## Lessons";
    assert "## Lessons"[..3] == "## ";
  }

  // ---------------------------------------------------------------- what is shown otherwise

  /** Something is always shown, and never more than the limit. */
  lemma SuggestionIsBounded(show: Json -> string, document: Document)
    ensures 1 <= |SuggestedFixText(show, document)| <= 2_000
  {
    hide Knowledge, Lines, Titles, Join;
  }

  /** A text field of an action, unless it is empty. */
  predicate IsSaid(action: Json, key: string, text: string) {
    action.Obj? && Get(action.fields, key) == Str(text) && text != ""
  }

  /** An action is shown by its title, without one by its command, and not at all when both are missing or blank. */
  lemma TitleIs(show: Json -> string, action: Json, title: string, command: string)
    ensures IsSaid(action, "title", title) ==> Title(show, action) == Strip(title)
    ensures action.Obj? && Get(action.fields, "title") in {Null, Str("")} && IsSaid(action, "command", command)
      ==> Title(show, action) == Strip(command)
    ensures action.Obj? && Get(action.fields, "title") in {Null, Str("")} && Get(action.fields, "command") in {Null, Str("")}
      ==> Title(show, action) == ""
  {
    hide Strip;
  }

  /** The titles shown for two lists of actions are those of the one, then those of the other. */
  lemma {:induction false} TitlesAppend(show: Json -> string, a: seq<Json>, b: seq<Json>)
    ensures Titles(show, a + b) == Titles(show, a) + Titles(show, b)
  {
    hide Title;
    if a == [] {
      assert a + b == b;
    } else {
      assert (a + b)[1..] == a[1..] + b;
      TitlesAppend(show, a[1..], b);
    }
  }

  /** Without recovery knowledge the titles are shown, joined by arrows, up to the limit. */
  lemma FallbackIsShown(show: Json -> string, document: Document)
    requires Knowledge(Lines(document.body)) == ""
    ensures
      var shown := Join(" → ", Titles(show, document.dispatchedActions));
      SuggestedFixText(show, document)
      == if shown == "" then "Apply the selected stored recovery actions." else Truncate(shown, 2_000)
  {
    hide Knowledge, Lines, Titles, Join;
  }
}
