/**
 JSON values, the text `json.dumps` writes for them and the reader `json.loads` applies to such text.
 Objects are maps, so equality is Python's dictionary equality: order-insensitive.
 */
module Json {
  import opened Text

  /** A float is carried by its shortest decimal literal, which is what `repr` prints and `float` reads back. */
  type FloatLiteral = s: string | Classify(s) == FloatNumber witness "0.0"

  datatype Json =
    | Null
    | Bool(b: bool)
    | Int(n: int)
    | Float(literal: FloatLiteral)
    | Str(s: string)
    | Arr(items: seq<Json>)
    | Obj(fields: map<string, Json>)

  /** `mapping.get(key)` */
  function Get(fields: map<string, Json>, key: string): Json {
    if key in fields then fields[key] else Null
  }

  // ---------------------------------------------------------------- numbers

  datatype NumberKind = NoNumber | IntNumber | FloatNumber

  datatype Scan = Start | Minus | Zero | Digits | Point | Fraction | Mark | MarkSign | Exponent | Reject

  predicate IsDigit(c: char) {
    '0' <= c <= '9'
  }

  predicate IsNumberChar(c: char) {
    IsDigit(c) || c == '-' || c == '+' || c == '.' || c == 'e' || c == 'E'
  }

  function ScanStep(q: Scan, c: char): Scan {
    match q
    case Start => if c == '-' then Minus else if c == '0' then Zero else if IsDigit(c) then Digits else Reject
    case Minus => if c == '0' then Zero else if IsDigit(c) then Digits else Reject
    case Zero => AfterInteger(c)
    case Digits => if IsDigit(c) then Digits else AfterInteger(c)
    case Point => if IsDigit(c) then Fraction else Reject
    case Fraction => if IsDigit(c) then Fraction else if c == 'e' || c == 'E' then Mark else Reject
    case Mark => if c == '+' || c == '-' then MarkSign else if IsDigit(c) then Exponent else Reject
    case MarkSign => if IsDigit(c) then Exponent else Reject
    case Exponent => if IsDigit(c) then Exponent else Reject
    case Reject => Reject
  }

  function AfterInteger(c: char): Scan {
    if c == '.' then Point else if c == 'e' || c == 'E' then Mark else Reject
  }

  function ScanAll(q: Scan, s: string): Scan
    decreases |s|
  {
    if s == "" then q else ScanAll(ScanStep(q, s[0]), s[1..])
  }

  function Classify(s: string): NumberKind {
    match ScanAll(Start, s)
    case Zero => IntNumber
    case Digits => IntNumber
    case Fraction => FloatNumber
    case Exponent => FloatNumber
    case _ => NoNumber
  }

  lemma {:induction false} ScanReject(s: string)
    ensures ScanAll(Reject, s) == Reject
  {
    if s != "" { ScanReject(s[1..]); }
  }

  lemma {:induction false} ScanAppend(q: Scan, a: string, b: string)
    ensures ScanAll(q, a + b) == ScanAll(ScanAll(q, a), b)
    decreases |a|
  {
    if a == "" {
      assert a + b == b;
    } else {
      ScanAppend(ScanStep(q, a[0]), a[1..], b);
      assert (a + b)[1..] == a[1..] + b;
    }
  }

  lemma {:induction false} ScanNumberChars(q: Scan, s: string)
    requires ScanAll(q, s) != Reject
    ensures forall c <- s :: IsNumberChar(c)
    decreases |s|
  {
    if s != "" {
      if ScanStep(q, s[0]) == Reject { ScanReject(s[1..]); }
      ScanNumberChars(ScanStep(q, s[0]), s[1..]);
      assert s == [s[0]] + s[1..];
    }
  }

  /** Every accepted literal starts like a number and consists of number characters. */
  lemma LiteralShape(s: string)
    requires Classify(s) != NoNumber
    ensures s != "" && (IsDigit(s[0]) || s[0] == '-')
    ensures forall c <- s :: IsNumberChar(c)
  {
    assert s != "";
    if !(IsDigit(s[0]) || s[0] == '-') { ScanReject(s[1..]); }
    ScanNumberChars(Start, s);
  }

  function DigitChar(d: nat): char
    requires d < 10
  {
    '0' + d as char
  }

  function NatText(n: nat): (s: string)
    ensures s != "" && forall c <- s :: IsDigit(c)
  {
    if n < 10 then [DigitChar(n)] else NatText(n / 10) + [DigitChar(n % 10)]
  }

  function IntText(n: int): string {
    if n < 0 then "-" + NatText(-n) else NatText(n)
  }

  function NatValue(s: string): nat {
    if s == "" then 0
    else 10 * NatValue(s[..|s| - 1]) + (if IsDigit(s[|s| - 1]) then (s[|s| - 1] - '0') as nat else 0)
  }

  function IntValue(s: string): int {
    if s != "" && s[0] == '-' then 0 - NatValue(s[1..]) else NatValue(s)
  }

  lemma {:induction false} NatTextRoundTrip(n: nat, q: Scan)
    requires q == Start || q == Minus
    ensures NatValue(NatText(n)) == n
    ensures ScanAll(q, NatText(n)) == if n == 0 then Zero else Digits
  {
    if n < 10 {
      assert NatText(n)[1..] == "";
      assert NatText(n)[..0] == "";
      assert NatValue("") == 0;
    } else {
      NatTextRoundTrip(n / 10, q);
      assert NatText(n)[..|NatText(n)| - 1] == NatText(n / 10);
      ScanAppend(q, NatText(n / 10), [DigitChar(n % 10)]);
      assert ScanAll(ScanStep(Digits, DigitChar(n % 10)), "") == Digits;
    }
  }

  lemma IntTextRoundTrip(n: int)
    ensures Classify(IntText(n)) == IntNumber
    ensures IntValue(IntText(n)) == n
  {
    if n < 0 {
      NatTextRoundTrip(-n, Minus);
      assert IntText(n)[1..] == NatText(-n);
    } else {
      NatTextRoundTrip(n, Start);
      assert NatText(n)[0] in NatText(n);
    }
  }

  function Pow10(n: nat): (r: real)
    ensures r > 0.0
  {
    if n == 0 then 1.0 else 10.0 * Pow10(n - 1)
  }

  /** The number a float literal denotes. */
  function DecimalValue(s: string): real {
    if s != "" && s[0] == '-' then 0.0 - DecimalMagnitude(s[1..]) else DecimalMagnitude(s)
  }

  function DecimalMagnitude(s: string): real {
    var mark := if IndexOf(s, 'e') < |s| then IndexOf(s, 'e') else IndexOf(s, 'E');
    var mantissa := s[..mark];
    var point := IndexOf(mantissa, '.');
    var whole := NatValue(mantissa[..point]) as real;
    var fraction := if point < |mantissa| then NatValue(mantissa[point + 1..]) as real / Pow10(|mantissa| - point - 1) else 0.0;
    var exponent := if mark < |s| then IntValue(s[mark + 1..]) else 0;
    if exponent >= 0 then (whole + fraction) * Pow10(exponent) else (whole + fraction) / Pow10(-exponent)
  }

  /** The number behind a value; in Python `True == 1`. */
  function Numeric(v: Json): Option<real> {
    match v
    case Int(n) => Some(n as real)
    case Float(literal) => Some(DecimalValue(literal))
    case Bool(b) => Some(if b then 1.0 else 0.0)
    case _ => None
  }

  /** Python's `==` on decoded JSON. */
  predicate PyEqual(a: Json, b: Json) {
    match (a, b)
    case (Arr(xs), Arr(ys)) => |xs| == |ys| && forall i | 0 <= i < |xs| :: PyEqual(xs[i], ys[i])
    case (Obj(xs), Obj(ys)) => xs.Keys == ys.Keys && forall k <- xs :: PyEqual(xs[k], ys[k])
    case _ => if Numeric(a).Some? then Numeric(a) == Numeric(b) else a == b
  }

  lemma {:induction false} PyEqualReflexive(a: Json)
    ensures PyEqual(a, a)
    decreases a
  {
    match a
    case Arr(xs) =>
      forall i | 0 <= i < |xs| ensures PyEqual(xs[i], xs[i]) {
        assert xs[i] in xs;
        PyEqualReflexive(xs[i]);
      }
    case Obj(xs) =>
      forall k <- xs ensures PyEqual(xs[k], xs[k]) {
        PyEqualReflexive(xs[k]);
      }
    case _ =>
  }

  // ---------------------------------------------------------------- printing

  datatype Style = Compact | Indented

  function HexChar(d: nat): char
    requires d < 16
  {
    if d < 10 then '0' + d as char else 'a' + (d - 10) as char
  }

  /** RFC 8259 section 7: quotation mark, reverse solidus and U+0000 to U+001F must be escaped. */
  function EscapeChar(c: char): string {
    if c == '"' then "\\\""
    else if c == '\\' then "\\\\"
    else if c == '\n' then "\\n"
    else if c == '\r' then "\\r"
    else if c == '\t' then "\\t"
    else if c == '\U{000C}' then "\\f"
    else if c == '\U{0008}' then "\\b"
    else if c < ' ' then "\\u00" + [HexChar(c as nat / 16), HexChar(c as nat % 16)]
    else [c]
  }

  function Escape(s: string): string {
    if s == "" then "" else EscapeChar(s[0]) + Escape(s[1..])
  }

  function Quote(s: string): string {
    "\"" + Escape(s) + "\""
  }

  function Spaces(n: nat): (s: string)
    ensures |s| == n && forall c <- s :: c == ' '
  {
    if n == 0 then "" else " " + Spaces(n - 1)
  }

  /** The line break and indentation that `indent=2` inserts. */
  function Gap(style: Style, level: nat): string {
    if style == Compact then "" else "\n" + Spaces(2 * level)
  }

  function Colon(style: Style): string {
    if style == Compact then ":" else ": "
  }

  /** `json.dumps(value, ensure_ascii=False, sort_keys=True)`, compact or with `indent=2`. */
  ghost function Print(v: Json, style: Style, level: nat): string
    decreases v, 1, 0
  {
    match v
    case Null => "null"
    case Bool(b) => if b then "true" else "false"
    case Int(n) => IntText(n)
    case Float(literal) => literal
    case Str(s) => Quote(s)
    case Arr(items) =>
      if items == [] then "[]" else "[" + (Gap(style, level + 1) + PrintItems(v, 0, style, level))
    case Obj(fields) =>
      if fields == map[] then "{}"
      else
        assert fields.Keys != {};
        "{" + (Gap(style, level + 1) + PrintMembers(v, Sorted(fields.Keys), style, level))
  }

  ghost function PrintItems(v: Json, i: nat, style: Style, level: nat): string
    requires v.Arr? && i < |v.items|
    decreases v, 0, 2 * (|v.items| - i) + 1
  {
    Print(v.items[i], style, level + 1) + AfterItem(v, i, style, level)
  }

  ghost function AfterItem(v: Json, i: nat, style: Style, level: nat): string
    requires v.Arr? && i < |v.items|
    decreases v, 0, 2 * (|v.items| - i)
  {
    if i + 1 == |v.items| then Gap(style, level) + "]"
    else "," + (Gap(style, level + 1) + PrintItems(v, i + 1, style, level))
  }

  ghost function PrintMembers(v: Json, keys: seq<string>, style: Style, level: nat): string
    requires v.Obj? && keys != [] && forall k <- keys :: k in v.fields
    decreases v, 0, 2 * |keys| + 1
  {
    Quote(keys[0]) + (Colon(style) + Print(v.fields[keys[0]], style, level + 1) + AfterMember(v, keys, style, level))
  }

  ghost function AfterMember(v: Json, keys: seq<string>, style: Style, level: nat): string
    requires v.Obj? && keys != [] && forall k <- keys :: k in v.fields
    decreases v, 0, 2 * |keys|
  {
    if |keys| == 1 then Gap(style, level) + "}"
    else "," + (Gap(style, level + 1) + PrintMembers(v, keys[1..], style, level))
  }

  ghost function Dumps(v: Json, style: Style): string {
    Print(v, style, 0)
  }

  // ---------------------------------------------------------------- reading

  predicate IsBlank(c: char) {
    c == ' ' || c == '\t' || c == '\n' || c == '\r'
  }

  function SkipBlank(s: string): (t: string)
    ensures |t| <= |s|
  {
    if s != "" && IsBlank(s[0]) then SkipBlank(s[1..]) else s
  }

  function TokenLength(s: string): (n: nat)
    ensures n <= |s|
  {
    if s == "" || !IsNumberChar(s[0]) then 0 else 1 + TokenLength(s[1..])
  }

  function HexValue(c: char): Option<nat> {
    if IsDigit(c) then Some((c - '0') as nat)
    else if 'a' <= c <= 'f' then Some((c - 'a') as nat + 10)
    else if 'A' <= c <= 'F' then Some((c - 'A') as nat + 10)
    else None
  }

  function HexCode(s: string): (code: Option<nat>)
    requires |s| >= 4
    ensures code.Some? ==> code.value < 0x10000
  {
    match (HexValue(s[0]), HexValue(s[1]), HexValue(s[2]), HexValue(s[3]))
    case (Some(a), Some(b), Some(c), Some(d)) =>
      if a < 16 && b < 16 && c < 16 && d < 16 then Some(4096 * a + 256 * b + 16 * c + d) else None
    case _ => None
  }

  /** One character of a string body and the number of source characters that spell it. */
  function ReadChar(s: string): (r: Option<(char, nat)>)
    ensures r.Some? ==> 0 < r.value.1 <= |s|
  {
    if s == "" || s[0] < ' ' then None
    else if s[0] != '\\' then Some((s[0], 1))
    else if |s| >= 2 && s[1] != 'u' then
      var c := Unescape(s[1]);
      if c.Some? then Some((c.value, 2)) else None
    else if |s| >= 6 then
      var code := HexCode(s[2..6]);
      if code.Some? && !(0xD800 <= code.value < 0xE000) then Some((code.value as char, 6)) else None
    else None
  }

  /** The rest of a string after its opening quotation mark. */
  function ReadText(s: string): (r: Result<(string, string)>)
    ensures r.Ok? ==> |r.value.1| < |s|
  {
    if s == "" then Err("unterminated string")
    else if s[0] == '"' then Ok(("", s[1..]))
    else
      var c := ReadChar(s);
      if c.None? then Err("bad string") else Prepend(c.value.0, ReadText(s[c.value.1..]))
  }

  function Prepend(c: char, r: Result<(string, string)>): Result<(string, string)> {
    if r.Ok? then Ok(([c] + r.value.0, r.value.1)) else r
  }

  function Unescape(c: char): Option<char> {
    if c == '"' || c == '\\' || c == '/' then Some(c)
    else if c == 'n' then Some('\n')
    else if c == 'r' then Some('\r')
    else if c == 't' then Some('\t')
    else if c == 'f' then Some('\U{000C}')
    else if c == 'b' then Some('\U{0008}')
    else None
  }

  function ReadValue(s: string): (r: Result<(Json, string)>)
    ensures r.Ok? ==> |r.value.1| < |s|
    decreases |s|, 3
  {
    var t := SkipBlank(s);
    if t == "" then Err("no value")
    else if t[0] == '"' then ReadString(t)
    else if t[0] == '[' then ReadArray(t)
    else if t[0] == '{' then ReadObject(t)
    else if StartsWith(t, "null") then Ok((Null, t[4..]))
    else if StartsWith(t, "true") then Ok((Bool(true), t[4..]))
    else if StartsWith(t, "false") then Ok((Bool(false), t[5..]))
    else ReadNumber(t)
  }

  function ReadString(t: string): (r: Result<(Json, string)>)
    requires t != ""
    ensures r.Ok? ==> |r.value.1| < |t|
  {
    var r := ReadText(t[1..]);
    if r.Err? then Err(r.reason) else Ok((Str(r.value.0), r.value.1))
  }

  function ReadArray(t: string): (r: Result<(Json, string)>)
    requires t != ""
    ensures r.Ok? ==> |r.value.1| < |t|
    decreases |t|, 2
  {
    var u := SkipBlank(t[1..]);
    if u != "" && u[0] == ']' then Ok((Arr([]), u[1..]))
    else
      var r := ReadItems(u);
      if r.Err? then Err(r.reason) else Ok((Arr(r.value.0), r.value.1))
  }

  function ReadObject(t: string): (r: Result<(Json, string)>)
    requires t != ""
    ensures r.Ok? ==> |r.value.1| < |t|
    decreases |t|, 2
  {
    var u := SkipBlank(t[1..]);
    if u != "" && u[0] == '}' then Ok((Obj(map[]), u[1..]))
    else
      var r := ReadMembers(u, map[]);
      if r.Err? then Err(r.reason) else Ok((Obj(r.value.0), r.value.1))
  }

  function ReadNumber(t: string): (r: Result<(Json, string)>)
    ensures r.Ok? ==> |r.value.1| < |t|
  {
    var n := TokenLength(t);
    match Classify(t[..n])
    case NoNumber => Err("no value")
    case IntNumber => LiteralShape(t[..n]); Ok((Int(IntValue(t[..n])), t[n..]))
    case FloatNumber => LiteralShape(t[..n]); Ok((Float(t[..n]), t[n..]))
  }

  function ReadItems(s: string): (r: Result<(seq<Json>, string)>)
    ensures r.Ok? ==> |r.value.1| < |s|
    decreases |s|, 4
  {
    var v := ReadValue(s);
    if v.Err? then Err(v.reason) else ReadMoreItems(SkipBlank(v.value.1), v.value.0)
  }

  function ReadMoreItems(t: string, first: Json): (r: Result<(seq<Json>, string)>)
    ensures r.Ok? ==> |r.value.1| < |t|
    decreases |t|, 1
  {
    if t == "" then Err("unterminated array")
    else if t[0] == ']' then Ok(([first], t[1..]))
    else if t[0] == ',' then
      var r := ReadItems(t[1..]);
      if r.Err? then r else Ok(([first] + r.value.0, r.value.1))
    else Err("bad array")
  }

  /** Duplicate names keep the last value, as `json.loads` does. */
  function ReadMembers(s: string, fields: map<string, Json>): (r: Result<(map<string, Json>, string)>)
    ensures r.Ok? ==> |r.value.1| < |s|
    decreases |s|, 4
  {
    var t := SkipBlank(s);
    if t == "" || t[0] != '"' then Err("bad object")
    else
      var k := ReadText(t[1..]);
      if k.Err? then Err(k.reason)
      else
        var u := SkipBlank(k.value.1);
        if u == "" || u[0] != ':' then Err("bad object")
        else
          var v := ReadValue(u[1..]);
          if v.Err? then Err(v.reason)
          else
            ReadMoreMembers(SkipBlank(v.value.1), fields[k.value.0 := v.value.0])
  }

  function ReadMoreMembers(t: string, fields: map<string, Json>): (r: Result<(map<string, Json>, string)>)
    ensures r.Ok? ==> |r.value.1| < |t|
    decreases |t|, 1
  {
    if t == "" then Err("unterminated object")
    else if t[0] == '}' then Ok((fields, t[1..]))
    else if t[0] == ',' then ReadMembers(t[1..], fields)
    else Err("bad object")
  }

  /** `json.loads` */
  function Loads(s: string): Result<Json> {
    var r := ReadValue(s);
    if r.Err? then Err(r.reason)
    else if SkipBlank(r.value.1) == "" then Ok(r.value.0)
    else Err("extra data")
  }

  // ---------------------------------------------------------------- round trip

  lemma {:induction false} SkipBlankPrefix(w: string, t: string)
    requires forall c <- w :: IsBlank(c)
    requires t != "" ==> !IsBlank(t[0])
    ensures SkipBlank(w + t) == t
  {
    if w == "" {
      assert w + t == t;
    } else {
      assert w[0] in w;
      SkipBlankPrefix(w[1..], t);
      assert (w + t)[1..] == w[1..] + t;
    }
  }

  lemma {:induction false} TokenLengthPrefix(token: string, tail: string)
    requires forall c <- token :: IsNumberChar(c)
    requires tail != "" ==> !IsNumberChar(tail[0])
    ensures TokenLength(token + tail) == |token|
  {
    if token == "" {
      assert token + tail == tail;
    } else {
      assert token[0] in token;
      TokenLengthPrefix(token[1..], tail);
      assert (token + tail)[1..] == token[1..] + tail;
    }
  }

  lemma Assoc(a: string, b: string, c: string)
    ensures a + b + c == a + (b + c)
  {
  }

  lemma EscapeUnicode(c: char, rest: string)
    requires c < ' '
    ensures ReadChar("\\u00" + [HexChar(c as nat / 16), HexChar(c as nat % 16)] + rest) == Some((c, 6))
  {
    var n := c as nat;
    var whole := "\\u00" + [HexChar(n / 16), HexChar(n % 16)] + rest;
    assert whole[2..6] == "00" + [HexChar(n / 16), HexChar(n % 16)];
    assert HexValue(HexChar(n / 16)) == Some(n / 16);
    assert HexValue(HexChar(n % 16)) == Some(n % 16);
    assert HexCode(whole[2..6]) == Some(n);
  }

  lemma EscapeCharRead(c: char, rest: string)
    ensures ReadChar(EscapeChar(c) + rest) == Some((c, |EscapeChar(c)|))
    ensures EscapeChar(c)[0] != '"'
  {
    if |EscapeChar(c)| == 6 {
      EscapeUnicode(c, rest);
    } else if |EscapeChar(c)| == 2 {
      assert (EscapeChar(c) + rest)[1] == EscapeChar(c)[1];
    }
  }

  lemma ReadTextStep(c: char, head: string, rest: string, s: string, tail: string)
    requires head != "" && head[0] != '"'
    requires ReadChar(head + rest) == Some((c, |head|))
    requires ReadText(rest) == Ok((s, tail))
    ensures ReadText(head + rest) == Ok(([c] + s, tail))
  {
    assert (head + rest)[|head|..] == rest;
    assert (head + rest)[0] == head[0];
  }

  lemma {:induction false} TextRoundTrip(s: string, tail: string)
    ensures ReadText(Escape(s) + ("\"" + tail)) == Ok((s, tail))
  {
    var end := "\"" + tail;
    if s == "" {
      assert Escape(s) + end == end;
      assert end[1..] == tail;
    } else {
      var rest := Escape(s[1..]) + end;
      TextRoundTrip(s[1..], tail);
      Assoc(EscapeChar(s[0]), Escape(s[1..]), end);
      EscapeCharRead(s[0], rest);
      ReadTextStep(s[0], EscapeChar(s[0]), rest, s[1..], tail);
      assert s == [s[0]] + s[1..];
    }
  }

  lemma GapIsBlank(style: Style, level: nat)
    ensures forall c <- Gap(style, level) :: IsBlank(c)
  {
  }

  /** What printing can start with: never a blank, a closing bracket or a Markdown fence. */
  lemma PrintStart(v: Json, style: Style, level: nat)
    ensures Print(v, style, level) != ""
    ensures
      var c := Print(v, style, level)[0];
      c == '"' || c == '[' || c == '{' || c == 'n' || c == 't' || c == 'f' || IsDigit(c) || c == '-'
  {
    match v
    case Int(n) =>
      IntTextRoundTrip(n);
      LiteralShape(IntText(n));
    case Float(literal) => LiteralShape(literal);
    case _ =>
  }

  lemma PrintArray(v: Json, style: Style, level: nat)
    requires v.Arr? && v.items != []
    ensures Print(v, style, level) == "[" + (Gap(style, level + 1) + PrintItems(v, 0, style, level))
  {
  }

  lemma PrintObject(v: Json, style: Style, level: nat)
    requires v.Obj? && v.fields != map[]
    ensures Sorted(v.fields.Keys) != []
    ensures Print(v, style, level) == "{" + (Gap(style, level + 1) + PrintMembers(v, Sorted(v.fields.Keys), style, level))
    ensures |Sorted(v.fields.Keys)| == |v.fields|
  {
    assert |v.fields.Keys| == |v.fields|;
  }

  predicate EndsToken(tail: string) {
    tail != "" ==> !IsNumberChar(tail[0])
  }

  lemma TokenRead(token: string, tail: string)
    requires Classify(token) != NoNumber
    requires EndsToken(tail)
    ensures TokenLength(token + tail) == |token|
    ensures (token + tail)[..|token|] == token
    ensures (token + tail)[|token|..] == tail
  {
    LiteralShape(token);
    TokenLengthPrefix(token, tail);
  }

  /** Blanks before a value, an item or a member do not matter. */
  lemma BlanksSkipped(w: string, t: string)
    requires forall c <- w :: IsBlank(c)
    requires t != "" && !IsBlank(t[0])
    ensures SkipBlank(w + t) == t && SkipBlank(t) == t
    ensures ReadValue(w + t) == ReadValue(t)
  {
    SkipBlankPrefix(w, t);
    SkipBlankPrefix("", t);
    assert "" + t == t;
  }

  lemma NumberDispatch(t: string)
    requires t != "" && (IsDigit(t[0]) || t[0] == '-')
    ensures ReadValue(t) == ReadNumber(t)
  {
    hide ReadNumber, ReadArray, ReadObject, ReadString;
    assert SkipBlank(t) == t;
  }

  lemma NumberRoundTrip(v: Json, token: string, tail: string)
    requires EndsToken(tail)
    requires v.Int? || v.Float?
    requires token == if v.Int? then IntText(v.n) else v.literal
    ensures ReadValue(token + tail) == Ok((v, tail))
  {
    hide ReadValue, ScanAll;
    if v.Int? { IntTextRoundTrip(v.n); }
    LiteralShape(token);
    TokenRead(token, tail);
    assert (token + tail)[0] == token[0];
    NumberDispatch(token + tail);
  }

  lemma QuoteText(key: string, tail: string)
    ensures Quote(key) + tail == "\"" + (Escape(key) + ("\"" + tail))
    ensures (Quote(key) + tail)[1..] == Escape(key) + ("\"" + tail)
  {
  }

  lemma StringRoundTrip(s: string, tail: string)
    ensures ReadValue(Quote(s) + tail) == Ok((Str(s), tail))
    ensures ReadText((Quote(s) + tail)[1..]) == Ok((s, tail))
  {
    QuoteText(s, tail);
    TextRoundTrip(s, tail);
    BlanksSkipped("", Quote(s) + tail);
  }

  lemma LiteralRoundTrip(v: Json, tail: string)
    requires v.Null? || v.Bool?
    ensures ReadValue(Print(v, Compact, 0) + tail) == Ok((v, tail))
  {
    var text := Print(v, Compact, 0);
    BlanksSkipped("", text + tail);
    assert (text + tail)[..|text|] == text;
    assert (text + tail)[|text|..] == tail;
  }

  lemma EmptyRoundTrip(v: Json, tail: string)
    requires v == Arr([]) || v == Obj(map[])
    ensures ReadValue((if v.Arr? then "[]" else "{}") + tail) == Ok((v, tail))
  {
    var t := (if v.Arr? then "[]" else "{}") + tail;
    BlanksSkipped("", t);
    var u := t[1..];
    BlanksSkipped("", u);
    assert "" + t == t && "" + u == u;
    assert u[1..] == tail;
  }

  lemma OpenArray(gap: string, inner: string, items: seq<Json>, tail: string)
    requires forall c <- gap :: IsBlank(c)
    requires inner != "" && !IsBlank(inner[0]) && inner[0] != ']'
    requires ReadItems(inner) == Ok((items, tail))
    ensures ReadValue("[" + (gap + inner)) == Ok((Arr(items), tail))
  {
    var t := "[" + (gap + inner);
    BlanksSkipped("", t);
    assert "" + t == t;
    assert t[1..] == gap + inner;
    BlanksSkipped(gap, inner);
    assert ReadArray(t) == Ok((Arr(items), tail));
  }

  lemma OpenObject(gap: string, inner: string, fields: map<string, Json>, tail: string)
    requires forall c <- gap :: IsBlank(c)
    requires inner != "" && inner[0] == '"'
    requires ReadMembers(inner, map[]) == Ok((fields, tail))
    ensures ReadValue("{" + (gap + inner)) == Ok((Obj(fields), tail))
  {
    var t := "{" + (gap + inner);
    BlanksSkipped("", t);
    assert "" + t == t;
    assert t[1..] == gap + inner;
    BlanksSkipped(gap, inner);
    assert ReadObject(t) == Ok((Obj(fields), tail));
  }

  /** Reading back a printed value, before any text that cannot extend a number. */
  lemma {:induction false} ValueRoundTrip(v: Json, style: Style, level: nat, tail: string)
    requires EndsToken(tail)
    ensures ReadValue(Print(v, style, level) + tail) == Ok((v, tail))
    decreases v, 1, 0
  {
    hide ReadValue, ReadItems, ReadMembers, SkipBlank, PrintItems, PrintMembers;
    match v
    case Null => LiteralRoundTrip(v, tail);
    case Bool(b) => LiteralRoundTrip(v, tail);
    case Int(n) => NumberRoundTrip(v, IntText(n), tail);
    case Float(literal) => NumberRoundTrip(v, literal, tail);
    case Str(s) => StringRoundTrip(s, tail);
    case Arr(items) => ArrayRoundTrip(v, style, level, tail);
    case Obj(fields) => ObjectRoundTrip(v, style, level, tail);
  }

  lemma {:induction false} ArrayRoundTrip(v: Json, style: Style, level: nat, tail: string)
    requires v.Arr?
    ensures ReadValue(Print(v, style, level) + tail) == Ok((v, tail))
    decreases v, 0, |v.items| + 1
  {
    hide ReadValue, ReadItems, ReadMembers, SkipBlank, PrintItems;
    if v.items == [] {
      EmptyRoundTrip(v, tail);
    } else {
      var gap, inner := Gap(style, level + 1), PrintItems(v, 0, style, level);
      Assoc("[", gap + inner, tail);
      Assoc(gap, inner, tail);
      ItemsRoundTrip(v, 0, style, level, tail);
      ItemStart(v, 0, style, level, tail);
      GapIsBlank(style, level + 1);
      assert v.items[0..] == v.items;
      OpenArray(gap, inner + tail, v.items, tail);
    }
  }

  lemma {:induction false} ObjectRoundTrip(v: Json, style: Style, level: nat, tail: string)
    requires v.Obj?
    ensures ReadValue(Print(v, style, level) + tail) == Ok((v, tail))
    decreases v, 0, |v.fields| + 1
  {
    hide ReadValue, ReadItems, ReadMembers, SkipBlank, PrintMembers, Chosen, Sorted;
    if v.fields == map[] {
      EmptyRoundTrip(v, tail);
    } else {
      ChosenAll(v.fields);
      PrintObject(v, style, level);
      var keys := Sorted(v.fields.Keys);
      var gap, inner := Gap(style, level + 1), PrintMembers(v, keys, style, level);
      Assoc("{", gap + inner, tail);
      Assoc(gap, inner, tail);
      MembersRoundTrip(v, keys, map[], style, level, tail);
      MemberStart(v, keys, style, level, tail);
      GapIsBlank(style, level + 1);
      OpenObject(gap, inner + tail, v.fields, tail);
    }
  }

  lemma ItemStart(v: Json, i: nat, style: Style, level: nat, tail: string)
    requires v.Arr? && i < |v.items|
    ensures
      var t := PrintItems(v, i, style, level) + tail;
      t != "" && !IsBlank(t[0]) && t[0] != ']'
  {
    PrintStart(v.items[i], style, level + 1);
  }

  lemma GapEndsToken(style: Style, level: nat, c: char, rest: string)
    requires !IsNumberChar(c) && !IsBlank(c)
    ensures EndsToken(Gap(style, level) + ([c] + rest))
    ensures SkipBlank(Gap(style, level) + ([c] + rest)) == [c] + rest
  {
    SkipBlankPrefix(Gap(style, level), [c] + rest);
  }

  lemma BlanksSkippedItem(w: string, t: string)
    requires forall c <- w :: IsBlank(c)
    requires t != "" && !IsBlank(t[0])
    ensures ReadItems(w + t) == ReadItems(t)
  {
    BlanksSkipped(w, t);
  }

  lemma ReadLastItem(s: string, x: Json, after: string, tail: string)
    requires ReadValue(s) == Ok((x, after))
    requires SkipBlank(after) == "]" + tail
    ensures ReadItems(s) == Ok(([x], tail))
  {
    assert ("]" + tail)[1..] == tail;
  }

  lemma ReadNextItem(s: string, x: Json, next: string, items: seq<Json>, tail: string)
    requires ReadValue(s) == Ok((x, "," + next))
    requires ReadItems(next) == Ok((items, tail))
    ensures ReadItems(s) == Ok(([x] + items, tail))
  {
    ReadComma("," + next, next);
  }

  lemma ItemsText(v: Json, i: nat, style: Style, level: nat, tail: string)
    requires v.Arr? && i < |v.items|
    ensures
      var text, after := Print(v.items[i], style, level + 1), AfterItem(v, i, style, level) + tail;
      && PrintItems(v, i, style, level) + tail == text + after
      && (i + 1 == |v.items| ==> after == Gap(style, level) + ("]" + tail))
      && (i + 1 < |v.items| ==> after == "," + (Gap(style, level + 1) + (PrintItems(v, i + 1, style, level) + tail)))
  {
    Assoc(Print(v.items[i], style, level + 1), AfterItem(v, i, style, level), tail);
    if i + 1 == |v.items| {
      Assoc(Gap(style, level), "]", tail);
    } else {
      var gap, inner := Gap(style, level + 1), PrintItems(v, i + 1, style, level);
      Assoc(",", gap + inner, tail);
      Assoc(gap, inner, tail);
    }
  }

  lemma {:induction false} ItemsRoundTrip(v: Json, i: nat, style: Style, level: nat, tail: string)
    requires v.Arr? && i < |v.items|
    ensures ReadItems(PrintItems(v, i, style, level) + tail) == Ok((v.items[i..], tail))
    decreases v, 0, |v.items| - i
  {
    hide ReadValue, ReadItems, ReadMembers, SkipBlank, Print, PrintItems, AfterItem;
    var text, after := Print(v.items[i], style, level + 1), AfterItem(v, i, style, level) + tail;
    ItemsText(v, i, style, level, tail);
    if i + 1 == |v.items| {
      GapEndsToken(style, level, ']', tail);
      ValueRoundTrip(v.items[i], style, level + 1, after);
      ReadLastItem(text + after, v.items[i], after, tail);
      assert v.items[i..] == [v.items[i]];
    } else {
      var gap, inner := Gap(style, level + 1), PrintItems(v, i + 1, style, level);
      GapIsBlank(style, level + 1);
      ItemStart(v, i + 1, style, level, tail);
      BlanksSkippedItem(gap, inner + tail);
      ValueRoundTrip(v.items[i], style, level + 1, after);
      ItemsRoundTrip(v, i + 1, style, level, tail);
      ReadNextItem(text + after, v.items[i], gap + (inner + tail), v.items[i + 1..], tail);
      assert v.items[i..] == [v.items[i]] + v.items[i + 1..];
    }
  }

  lemma ReadComma(after: string, next: string)
    requires after == "," + next
    ensures SkipBlank(after) == after && after[1..] == next
  {
  }

  ghost function Chosen(fields: map<string, Json>, keys: seq<string>): map<string, Json> {
    map k | k in fields && k in keys :: fields[k]
  }

  lemma ChosenAll(fields: map<string, Json>)
    ensures map[] + Chosen(fields, Sorted(fields.Keys)) == fields
    ensures fields != map[] ==> Sorted(fields.Keys) != []
  {
    if fields != map[] {
      assert |fields.Keys| == |fields|;
    }
  }

  lemma ChosenStep(all: map<string, Json>, keys: seq<string>, fields: map<string, Json>)
    requires keys != [] && forall k <- keys :: k in all
    ensures fields[keys[0] := all[keys[0]]] + Chosen(all, keys[1..]) == fields + Chosen(all, keys)
  {
    assert keys == [keys[0]] + keys[1..];
  }

  /** One name and its value, up to the separator that follows. */
  lemma ReadMember(key: string, blank: string, text: string, value: Json, after: string, fields: map<string, Json>)
    requires forall c <- blank :: IsBlank(c)
    requires text + after != "" && !IsBlank((text + after)[0])
    requires ReadValue(text + after) == Ok((value, after))
    ensures ReadMembers(Quote(key) + (":" + (blank + (text + after))), fields)
      == ReadMoreMembers(SkipBlank(after), fields[key := value])
  {
    var rest := ":" + (blank + (text + after));
    StringRoundTrip(key, rest);
    BlanksSkipped("", Quote(key) + rest);
    assert "" + (Quote(key) + rest) == Quote(key) + rest;
    assert rest[1..] == blank + (text + after);
    assert SkipBlank(rest) == rest;
    BlanksSkipped(blank, text + after);
  }

  lemma RegroupMember(key: string, colon: string, text: string, after: string, tail: string)
    requires colon != "" && colon[0] == ':'
    ensures key + (colon + text + after) + tail == key + (":" + (colon[1..] + (text + (after + tail))))
  {
    assert colon == ":" + colon[1..];
    Assoc(key, colon + text + after, tail);
    Assoc(colon, text, after);
    Assoc(colon, text + after, tail);
    Assoc(text, after, tail);
    Assoc(":", colon[1..], text + (after + tail));
  }

  lemma ReadLastMember(after: string, fields: map<string, Json>, tail: string)
    requires SkipBlank(after) == "}" + tail
    ensures ReadMoreMembers(SkipBlank(after), fields) == Ok((fields, tail))
  {
    assert ("}" + tail)[1..] == tail;
  }

  lemma ReadNextMember(next: string, fields: map<string, Json>)
    ensures ReadMoreMembers(SkipBlank("," + next), fields) == ReadMembers(next, fields)
  {
    ReadComma("," + next, next);
  }

  lemma MembersText(v: Json, keys: seq<string>, style: Style, level: nat, tail: string)
    requires v.Obj? && keys != [] && forall k <- keys :: k in v.fields
    ensures
      var text, after := Print(v.fields[keys[0]], style, level + 1), AfterMember(v, keys, style, level) + tail;
      && PrintMembers(v, keys, style, level) + tail == Quote(keys[0]) + (":" + (Colon(style)[1..] + (text + after)))
      && (|keys| == 1 ==> after == Gap(style, level) + ("}" + tail))
      && (|keys| > 1 ==> after == "," + (Gap(style, level + 1) + (PrintMembers(v, keys[1..], style, level) + tail)))
  {
    RegroupMember(
      Quote(keys[0]), Colon(style), Print(v.fields[keys[0]], style, level + 1), AfterMember(v, keys, style, level), tail);
    if |keys| == 1 {
      Assoc(Gap(style, level), "}", tail);
    } else {
      var gap, inner := Gap(style, level + 1), PrintMembers(v, keys[1..], style, level);
      Assoc(",", gap + inner, tail);
      Assoc(gap, inner, tail);
    }
  }

  lemma {:induction false} MembersRoundTrip(
      v: Json, keys: seq<string>, fields: map<string, Json>, style: Style, level: nat, tail: string)
    requires v.Obj? && keys != [] && forall k <- keys :: k in v.fields
    ensures ReadMembers(PrintMembers(v, keys, style, level) + tail, fields) == Ok((fields + Chosen(v.fields, keys), tail))
    decreases v, 0, |keys|
  {
    hide ReadValue, ReadItems, ReadMembers, ReadMoreMembers, SkipBlank, Print, PrintMembers, AfterMember, Quote, Chosen;
    var value := v.fields[keys[0]];
    var extended := fields[keys[0] := value];
    var text, after := Print(value, style, level + 1), AfterMember(v, keys, style, level) + tail;
    MembersText(v, keys, style, level, tail);
    PrintStart(value, style, level + 1);
    ChosenStep(v.fields, keys, fields);
    if |keys| == 1 {
      GapEndsToken(style, level, '}', tail);
      ValueRoundTrip(value, style, level + 1, after);
      ReadMember(keys[0], Colon(style)[1..], text, value, after, fields);
      ReadLastMember(after, extended, tail);
      ChosenNothing(v.fields, keys[1..], extended);
    } else {
      var gap, inner := Gap(style, level + 1), PrintMembers(v, keys[1..], style, level);
      ValueRoundTrip(value, style, level + 1, after);
      ReadMember(keys[0], Colon(style)[1..], text, value, after, fields);
      GapIsBlank(style, level + 1);
      MemberStart(v, keys[1..], style, level, tail);
      BlanksSkippedMember(gap, inner + tail, extended);
      ReadNextMember(gap + (inner + tail), extended);
      MembersRoundTrip(v, keys[1..], extended, style, level, tail);
    }
  }

  lemma ChosenNothing(all: map<string, Json>, keys: seq<string>, fields: map<string, Json>)
    requires keys == []
    ensures fields + Chosen(all, keys) == fields
  {
  }

  lemma MemberStart(v: Json, keys: seq<string>, style: Style, level: nat, tail: string)
    requires v.Obj? && keys != [] && forall k <- keys :: k in v.fields
    ensures (PrintMembers(v, keys, style, level) + tail) != "" && (PrintMembers(v, keys, style, level) + tail)[0] == '"'
  {
  }

  lemma BlanksSkippedMember(w: string, t: string, fields: map<string, Json>)
    requires forall c <- w :: IsBlank(c)
    requires t != "" && !IsBlank(t[0])
    ensures ReadMembers(w + t, fields) == ReadMembers(t, fields)
  {
    BlanksSkipped(w, t);
  }

  /** `json.loads(json.dumps(v)) == v`, in either style. */
  lemma LoadsDumps(v: Json, style: Style)
    ensures Loads(Dumps(v, style)) == Ok(v)
  {
    ValueRoundTrip(v, style, 0, "");
    assert Dumps(v, style) + "" == Dumps(v, style);
  }

  /** Canonical text identifies its value, so a hash of it is a hash of the value. */
  lemma DumpsInjective(a: Json, b: Json, style: Style)
    requires Dumps(a, style) == Dumps(b, style)
    ensures a == b
  {
    LoadsDumps(a, style);
    LoadsDumps(b, style);
  }
}
