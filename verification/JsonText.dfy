/** Which characters printed JSON may contain, and where its line breaks stand. */
module JsonText {
  import opened Text
  import opened Json

  /** A control character can only be a line feed before indentation or a closing bracket. */
  predicate TameAt(style: Style, t: string, i: nat)
    requires i < |t|
  {
    && (t[i] >= ' ' || (style == Indented && t[i] == '\n'))
    && (t[i] == '\n' ==> i + 1 < |t| && (t[i + 1] == ' ' || t[i + 1] == ']' || t[i + 1] == '}'))
  }

  predicate IsTame(style: Style, t: string) {
    forall i | 0 <= i < |t| :: TameAt(style, t, i)
  }

  lemma TameAppend(style: Style, a: string, b: string)
    requires IsTame(style, a) && IsTame(style, b)
    ensures IsTame(style, a + b)
  {
    forall i | 0 <= i < |a + b| ensures TameAt(style, a + b, i) {
      if i < |a| {
        assert TameAt(style, a, i);
      } else {
        assert TameAt(style, b, i - |a|);
      }
    }
  }

  lemma LineFeedTame(t: string)
    requires IsTame(Indented, t)
    requires t != "" && (t[0] == ' ' || t[0] == ']' || t[0] == '}')
    ensures IsTame(Indented, "\n" + t)
  {
    forall i | 0 <= i < |t| + 1 ensures TameAt(Indented, "\n" + t, i) {
      if i > 0 { assert TameAt(Indented, t, i - 1); }
    }
  }

  lemma GapTame(style: Style, level: nat, t: string)
    requires IsTame(style, t)
    requires t != "" && (level > 0 || t[0] == ']' || t[0] == '}')
    ensures IsTame(style, Gap(style, level) + t)
  {
    if style == Compact {
      assert Gap(style, level) + t == t;
    } else {
      var spaces := Spaces(2 * level);
      PlainIsTame(style, spaces);
      TameAppend(style, spaces, t);
      assert level > 0 ==> spaces[0] in spaces;
      LineFeedTame(spaces + t);
      Assoc("\n", spaces, t);
    }
  }

  lemma PlainIsTame(style: Style, t: string)
    requires forall c <- t :: c >= ' '
    ensures IsTame(style, t)
  {
    assert forall i | 0 <= i < |t| :: t[i] in t;
  }

  lemma {:induction false} EscapeIsPlain(s: string)
    ensures forall c <- Escape(s) :: c >= ' '
  {
    if s != "" { EscapeIsPlain(s[1..]); }
  }

  lemma QuoteTame(style: Style, s: string)
    ensures IsTame(style, Quote(s))
  {
    EscapeIsPlain(s);
    PlainIsTame(style, Quote(s));
  }

  lemma ScalarTame(v: Json, style: Style, level: nat)
    requires !v.Arr? && !v.Obj?
    ensures IsTame(style, Print(v, style, level))
  {
    match v
    case Int(n) => PlainIsTame(style, IntText(n));
    case Float(literal) =>
      LiteralShape(literal);
      PlainIsTame(style, literal);
    case Str(s) => QuoteTame(style, s);
    case _ => PlainIsTame(style, Print(v, style, level));
  }

  lemma {:induction false} PrintTame(v: Json, style: Style, level: nat)
    ensures IsTame(style, Print(v, style, level))
    decreases v, 1, 0
  {
    hide IsTame, PrintItems, PrintMembers;
    match v
    case Arr(items) =>
      if items == [] {
        PlainIsTame(style, "[]");
      } else {
        var inner := PrintItems(v, 0, style, level);
        ItemsTame(v, 0, style, level);
        ItemStart(v, 0, style, level, "");
        assert inner + "" == inner;
        BracketTame(style, level, "[", inner);
      }
    case Obj(fields) =>
      if fields == map[] {
        PlainIsTame(style, "{}");
      } else {
        PrintObject(v, style, level);
        var keys := Sorted(fields.Keys);
        MembersTame(v, keys, style, level);
        BracketTame(style, level, "{", PrintMembers(v, keys, style, level));
      }
    case _ => ScalarTame(v, style, level);
  }

  lemma BracketTame(style: Style, level: nat, open: string, inner: string)
    requires open == "[" || open == "{"
    requires IsTame(style, inner) && inner != ""
    ensures IsTame(style, open + (Gap(style, level + 1) + inner))
  {
    GapTame(style, level + 1, inner);
    PlainIsTame(style, open);
    TameAppend(style, open, Gap(style, level + 1) + inner);
  }

  lemma {:induction false} ItemsTame(v: Json, i: nat, style: Style, level: nat)
    requires v.Arr? && i < |v.items|
    ensures IsTame(style, PrintItems(v, i, style, level))
    decreases v, 0, |v.items| - i
  {
    hide IsTame;
    PrintTame(v.items[i], style, level + 1);
    if i + 1 == |v.items| {
      PlainIsTame(style, "]");
      GapTame(style, level, "]");
    } else {
      ItemsTame(v, i + 1, style, level);
      PrintStart(v.items[i + 1], style, level + 1);
      var more := Gap(style, level + 1) + PrintItems(v, i + 1, style, level);
      GapTame(style, level + 1, PrintItems(v, i + 1, style, level));
      PlainIsTame(style, ",");
      TameAppend(style, ",", more);
    }
    TameAppend(style, Print(v.items[i], style, level + 1), AfterItem(v, i, style, level));
  }

  lemma {:induction false} MembersTame(v: Json, keys: seq<string>, style: Style, level: nat)
    requires v.Obj? && keys != [] && forall k <- keys :: k in v.fields
    ensures IsTame(style, PrintMembers(v, keys, style, level))
    ensures PrintMembers(v, keys, style, level) != ""
    decreases v, 0, |keys|
  {
    hide IsTame;
    var value := Print(v.fields[keys[0]], style, level + 1);
    PrintTame(v.fields[keys[0]], style, level + 1);
    QuoteTame(style, keys[0]);
    PlainIsTame(style, Colon(style));
    if |keys| == 1 {
      PlainIsTame(style, "}");
      GapTame(style, level, "}");
    } else {
      MembersTame(v, keys[1..], style, level);
      var more := Gap(style, level + 1) + PrintMembers(v, keys[1..], style, level);
      GapTame(style, level + 1, PrintMembers(v, keys[1..], style, level));
      PlainIsTame(style, ",");
      TameAppend(style, ",", more);
    }
    TameAppend(style, Colon(style), value);
    TameAppend(style, Colon(style) + value, AfterMember(v, keys, style, level));
    TameAppend(style, Quote(keys[0]), Colon(style) + value + AfterMember(v, keys, style, level));
  }

  /** A line of indented JSON: it cannot be a Markdown heading or fence. */
  predicate IsJsonLine(line: string) {
    line != "" && line[0] != '#' && line[0] != '`' && '\n' !in line && '\r' !in line
  }

  lemma {:induction false} TameLines(t: string)
    requires IsTame(Indented, t)
    ensures t != "" && t[0] != '\n' ==> Lines(t)[0] != "" && Lines(t)[0][0] == t[0]
    ensures t == "" ==> Lines(t) == [""]
    ensures forall line <- Lines(t) :: '\n' !in line && '\r' !in line
    ensures forall i | 1 <= i < |Lines(t)| :: IsJsonLine(Lines(t)[i])
  {
    if t != "" {
      var rest := t[1..];
      assert TameAt(Indented, t, 0);
      forall i | 0 <= i < |rest| ensures TameAt(Indented, rest, i) {
        assert TameAt(Indented, t, i + 1);
      }
      TameLines(rest);
      if t[0] == '\n' {
        assert rest[0] == t[1];
      }
    }
  }

  /** The lines of `json.dumps(value, indent=2)`. */
  lemma IndentedLines(v: Json)
    ensures forall line <- Lines(Dumps(v, Indented)) :: IsJsonLine(line)
  {
    PrintTame(v, Indented, 0);
    PrintStart(v, Indented, 0);
    TameLines(Dumps(v, Indented));
  }

  // ---------------------------------------------------------------- rare line boundaries

  predicate HasRareBreakText(s: string) {
    exists c <- s :: IsRareBreak(c)
  }

  /** Some text in the value, a name or a string, holds U+0085, U+2028 or U+2029. */
  predicate HasRareBreak(v: Json) {
    match v
    case Str(s) => HasRareBreakText(s)
    case Arr(items) => exists item <- items :: HasRareBreak(item)
    case Obj(fields) => exists k <- fields :: HasRareBreakText(k) || HasRareBreak(fields[k])
    case _ => false
  }

  lemma RareAppend(a: string, b: string)
    ensures HasRareBreakText(a + b) <==> HasRareBreakText(a) || HasRareBreakText(b)
  {
    if HasRareBreakText(a) {
      var c :| c in a && IsRareBreak(c);
      assert c in a + b;
    }
    if HasRareBreakText(b) {
      var c :| c in b && IsRareBreak(c);
      assert c in a + b;
    }
  }

  lemma {:induction false} RareEscape(s: string)
    ensures HasRareBreakText(Escape(s)) <==> HasRareBreakText(s)
  {
    if s != "" {
      RareEscape(s[1..]);
      assert s == [s[0]] + s[1..];
      RareAppend([s[0]], s[1..]);
      RareAppend(EscapeChar(s[0]), Escape(s[1..]));
      assert HasRareBreakText([s[0]]) <==> IsRareBreak(s[0]);
      if IsRareBreak(s[0]) {
        assert EscapeChar(s[0]) == [s[0]];
      }
    }
  }

  lemma RareQuote(s: string)
    ensures HasRareBreakText(Quote(s)) <==> HasRareBreakText(s)
  {
    RareEscape(s);
    RareAppend("\"", Escape(s));
    RareAppend("\"" + Escape(s), "\"");
  }

  /** Printing in the compact style neither adds nor loses such a character. */
  lemma {:induction false} RarePrint(v: Json, level: nat)
    ensures HasRareBreakText(Print(v, Compact, level)) <==> HasRareBreak(v)
    decreases v, 1, 0
  {
    hide HasRareBreakText;
    match v
    case Str(s) => RareQuote(s);
    case Arr(items) => RareArray(v, level);
    case Obj(fields) => RareObject(v, level);
    case Int(n) => RareNone(IntText(n));
    case Float(literal) =>
      LiteralShape(literal);
      RareNone(literal);
    case _ => RareNone(Print(v, Compact, level));
  }

  lemma {:induction false} RareArray(v: Json, level: nat)
    requires v.Arr?
    ensures HasRareBreakText(Print(v, Compact, level)) <==> exists item <- v.items :: HasRareBreak(item)
    decreases v, 0, |v.items| + 1
  {
    hide HasRareBreakText, HasRareBreak, PrintItems;
    if v.items == [] {
      RareNone("[]");
    } else {
      PrintArray(v, Compact, level);
      RareItems(v, 0, level);
      RareNone("[");
      RareAppend("[", PrintItems(v, 0, Compact, level));
      RareBracket("[", PrintItems(v, 0, Compact, level), level);
      assert v.items[0..] == v.items;
    }
  }

  lemma RareBracket(open: string, inner: string, level: nat)
    ensures open + (Gap(Compact, level + 1) + inner) == open + inner
  {
    assert Gap(Compact, level + 1) + inner == inner;
  }

  lemma {:induction false} RareObject(v: Json, level: nat)
    requires v.Obj?
    ensures HasRareBreakText(Print(v, Compact, level))
      <==> exists k <- v.fields :: HasRareBreakText(k) || HasRareBreak(v.fields[k])
    decreases v, 0, |v.fields| + 1
  {
    hide HasRareBreakText, HasRareBreak, PrintMembers, Print;
    if v.fields == map[] {
      RareEmpty(v, level);
    } else {
      PrintObject(v, Compact, level);
      var keys := Sorted(v.fields.Keys);
      RareMembers(v, keys, level);
      RareNone("{");
      RareAppend("{", PrintMembers(v, keys, Compact, level));
      RareBracket("{", PrintMembers(v, keys, Compact, level), level);
    }
  }

  lemma RareEmpty(v: Json, level: nat)
    requires v == Obj(map[])
    ensures !HasRareBreakText(Print(v, Compact, level))
  {
    RareNone("{}");
  }

  lemma RareNone(t: string)
    requires forall c <- t :: c < '\U{007F}'
    ensures !HasRareBreakText(t)
  {
  }

  lemma {:induction false} RareItems(v: Json, i: nat, level: nat)
    requires v.Arr? && i < |v.items|
    ensures HasRareBreakText(PrintItems(v, i, Compact, level)) <==> exists item <- v.items[i..] :: HasRareBreak(item)
    decreases v, 0, |v.items| - i
  {
    hide HasRareBreakText;
    var head, after := Print(v.items[i], Compact, level + 1), AfterItem(v, i, Compact, level);
    RarePrint(v.items[i], level + 1);
    RareAppend(head, after);
    assert v.items[i..] == [v.items[i]] + v.items[i + 1..];
    if i + 1 == |v.items| {
      RareNone("]");
      assert after == "]";
    } else {
      RareItems(v, i + 1, level);
      RareNone(",");
      RareAppend(",", PrintItems(v, i + 1, Compact, level));
      assert after == "," + PrintItems(v, i + 1, Compact, level);
    }
  }

  lemma {:induction false} RareMembers(v: Json, keys: seq<string>, level: nat)
    requires v.Obj? && keys != [] && forall k <- keys :: k in v.fields
    ensures HasRareBreakText(PrintMembers(v, keys, Compact, level))
      <==> exists k <- keys :: HasRareBreakText(k) || HasRareBreak(v.fields[k])
    decreases v, 0, |keys|
  {
    hide HasRareBreakText;
    var head, after := Print(v.fields[keys[0]], Compact, level + 1), AfterMember(v, keys, Compact, level);
    RarePrint(v.fields[keys[0]], level + 1);
    RareQuote(keys[0]);
    RareNone(":");
    RareAppend(":", head);
    RareAppend(":" + head, after);
    RareAppend(Quote(keys[0]), ":" + head + after);
    assert keys == [keys[0]] + keys[1..];
    if |keys| == 1 {
      RareNone("}");
      assert after == "}";
    } else {
      RareMembers(v, keys[1..], level);
      RareNone(",");
      RareAppend(",", PrintMembers(v, keys[1..], Compact, level));
      assert after == "," + PrintMembers(v, keys[1..], Compact, level);
    }
  }

  // ---------------------------------------------------------------- the last character

  lemma LastItem(v: Json, style: Style)
    requires v.Arr? && v.items != []
    ensures var t := Print(v, style, 0); t != "" && t[|t| - 1] == ']'
  {
    PrintArray(v, style, 0);
    ItemsEnd(v, 0, style, 0);
  }

  lemma {:induction false} ItemsEnd(v: Json, i: nat, style: Style, level: nat)
    requires v.Arr? && i < |v.items|
    ensures var t := PrintItems(v, i, style, level); t != "" && t[|t| - 1] == ']'
    decreases |v.items| - i
  {
    if i + 1 < |v.items| { ItemsEnd(v, i + 1, style, level); }
  }

  lemma LastMember(v: Json, style: Style)
    requires v.Obj? && v.fields != map[]
    ensures var t := Print(v, style, 0); t != "" && t[|t| - 1] == '}'
  {
    PrintObject(v, style, 0);
    MembersEnd(v, Sorted(v.fields.Keys), style, 0);
  }

  lemma {:induction false} MembersEnd(v: Json, keys: seq<string>, style: Style, level: nat)
    requires v.Obj? && keys != [] && forall k <- keys :: k in v.fields
    ensures var t := PrintMembers(v, keys, style, level); t != "" && t[|t| - 1] == '}'
    decreases |keys|
  {
    if |keys| > 1 { MembersEnd(v, keys[1..], style, level); }
  }

  lemma LastOfScalar(v: Json, style: Style)
    requires !v.Arr? && !v.Obj?
    ensures var t := Print(v, style, 0); t != "" && !IsSpace(t[|t| - 1])
  {
    var t := Print(v, style, 0);
    match v
    case Int(n) =>
      IntTextRoundTrip(n);
      LiteralShape(IntText(n));
      assert t[|t| - 1] in t;
    case Float(literal) =>
      LiteralShape(literal);
      assert t[|t| - 1] in t;
    case _ =>
  }

  /** Printed JSON never ends in a blank. */
  lemma PrintEnd(v: Json, style: Style)
    ensures Dumps(v, style) != "" && !IsSpace(Dumps(v, style)[|Dumps(v, style)| - 1])
  {
    hide PrintItems, PrintMembers;
    if v.Arr? && v.items != [] {
      LastItem(v, style);
    } else if v.Obj? && v.fields != map[] {
      LastMember(v, style);
    } else if v.Arr? || v.Obj? {
      assert Dumps(v, style) == "[]" || Dumps(v, style) == "{}";
    } else {
      LastOfScalar(v, style);
    }
  }
}
