/** JSON inlined in a script: what `JSON.stringify` prints, the post-pass of `jsonForScript`
    (packages/kyc-node/src/html.ts) and `escapeForScript` (packages/kyc-core/src/verification/bridge.ts),
    and a parser of RFC 8259 texts. Strings are sequences of UTF-16 code units; numbers are opaque tokens. */
module ScriptJson {
  import opened Wrappers

  type Unit = x: int | 0 <= x < 0x10000
  type Text = seq<Unit>

  datatype Json =
    | Null
    | Bool(b: bool)
    | Number(token: Text)
    | Str(s: Text)
    | Arr(items: seq<Json>)
    | Obj(members: seq<Member>)

  datatype Member = Member(name: Text, value: Json)

  const QUOTE: Unit := 0x22
  const COMMA: Unit := 0x2C
  const COLON: Unit := 0x3A
  const LT: Unit := 0x3C
  const OPEN_ARRAY: Unit := 0x5B
  const BACKSLASH: Unit := 0x5C
  const CLOSE_ARRAY: Unit := 0x5D
  const OPEN_OBJECT: Unit := 0x7B
  const CLOSE_OBJECT: Unit := 0x7D
  const LINE_SEPARATOR: Unit := 0x2028
  const PARAGRAPH_SEPARATOR: Unit := 0x2029

  const NULL_TEXT: Text := [0x6E, 0x75, 0x6C, 0x6C]
  const TRUE_TEXT: Text := [0x74, 0x72, 0x75, 0x65]
  const FALSE_TEXT: Text := [0x66, 0x61, 0x6C, 0x73, 0x65]

  predicate Digit(c: Unit) { 0x30 <= c <= 0x39 }

  predicate NumberUnit(c: Unit) {
    Digit(c) || c == 0x2D || c == 0x2B || c == 0x2E || c == 0x65 || c == 0x45
  }

  predicate NumberStart(c: Unit) { Digit(c) || c == 0x2D }

  predicate NumberToken(t: Text) {
    t != [] && NumberStart(t[0]) && forall i :: 0 <= i < |t| ==> NumberUnit(t[i])
  }

  /** Every number in the value is a number token. */
  predicate WellFormed(v: Json) {
    match v
    case Number(t) => NumberToken(t)
    case Arr(items) => forall i :: 0 <= i < |items| ==> WellFormed(items[i])
    case Obj(members) => forall i :: 0 <= i < |members| ==> WellFormed(members[i].value)
    case _ => true
  }

  // ---- printing ----

  predicate HighSurrogate(c: Unit) { 0xD800 <= c <= 0xDBFF }

  predicate LowSurrogate(c: Unit) { 0xDC00 <= c <= 0xDFFF }

  /** The three units the post-pass escapes. */
  predicate ScriptUnsafe(c: Unit) {
    c == LT || c == LINE_SEPARATOR || c == PARAGRAPH_SEPARATOR
  }

  function HexDigit(d: int): Unit
    requires 0 <= d < 16
  {
    if d < 10 then 0x30 + d else 0x61 + d - 10
  }

  /** The six-unit escape: backslash, u, four lower-case hex digits. */
  function UnicodeEscape(c: Unit): Text {
    [BACKSLASH, 0x75, HexDigit(c / 4096), HexDigit(c / 256 % 16), HexDigit(c / 16 % 16), HexDigit(c % 16)]
  }

  /** A unit of a string that is not half of a surrogate pair; `script` also escapes the unsafe three. */
  function Escape(c: Unit, script: bool): Text {
    if c == QUOTE then [BACKSLASH, QUOTE]
    else if c == BACKSLASH then [BACKSLASH, BACKSLASH]
    else if c == 0x08 then [BACKSLASH, 0x62]
    else if c == 0x09 then [BACKSLASH, 0x74]
    else if c == 0x0A then [BACKSLASH, 0x6E]
    else if c == 0x0C then [BACKSLASH, 0x66]
    else if c == 0x0D then [BACKSLASH, 0x72]
    else if c < 0x20 || HighSurrogate(c) || LowSurrogate(c) then UnicodeEscape(c)
    else if script && ScriptUnsafe(c) then UnicodeEscape(c)
    else [c]
  }

  predicate StartsWithPair(s: Text) {
    |s| >= 2 && HighSurrogate(s[0]) && LowSurrogate(s[1])
  }

  function Body(s: Text, script: bool): Text {
    if s == [] then []
    else if StartsWithPair(s) then s[..2] + Body(s[2..], script)
    else Escape(s[0], script) + Body(s[1..], script)
  }

  function Quote(s: Text, script: bool): Text {
    [QUOTE] + Body(s, script) + [QUOTE]
  }

  /** `JSON.stringify` when `script` is false. */
  function Print(v: Json, script: bool): Text
    decreases v, 1
  {
    match v
    case Null => NULL_TEXT
    case Bool(b) => if b then TRUE_TEXT else FALSE_TEXT
    case Number(t) => t
    case Str(s) => Quote(s, script)
    case Arr(items) => [OPEN_ARRAY] + PrintItems(items, script) + [CLOSE_ARRAY]
    case Obj(members) => [OPEN_OBJECT] + PrintMembers(members, script) + [CLOSE_OBJECT]
  }

  function PrintItems(items: seq<Json>, script: bool): Text
    decreases items, 0
  {
    if items == [] then []
    else if |items| == 1 then Print(items[0], script)
    else Print(items[0], script) + [COMMA] + PrintItems(items[1..], script)
  }

  function PrintMembers(members: seq<Member>, script: bool): Text
    decreases members, 0
  {
    if members == [] then []
    else if |members| == 1 then PrintMember(members[0], script)
    else PrintMember(members[0], script) + [COMMA] + PrintMembers(members[1..], script)
  }

  function PrintMember(m: Member, script: bool): Text
    decreases m, 0
  {
    Quote(m.name, script) + [COLON] + Print(m.value, script)
  }

  function Stringify(v: Json): Text {
    Print(v, false)
  }

  // ---- the post-pass ----

  /** `text.replace(/c/g, escape of c)` */
  function Replace(text: Text, c: Unit): Text {
    if text == [] then []
    else (if text[0] == c then UnicodeEscape(c) else [text[0]]) + Replace(text[1..], c)
  }

  /** The three replacements, one after the other. */
  function EscapeForScript(text: Text): Text {
    Replace(Replace(Replace(text, LT), LINE_SEPARATOR), PARAGRAPH_SEPARATOR)
  }

  function JsonForScript(v: Json): Text {
    EscapeForScript(Stringify(v))
  }

  // ---- parsing ----

  predicate Whitespace(c: Unit) {
    c == 0x20 || c == 0x09 || c == 0x0A || c == 0x0D
  }

  function SkipWhitespace(s: Text): (r: Text)
    ensures |r| <= |s|
  {
    if s != [] && Whitespace(s[0]) then SkipWhitespace(s[1..]) else s
  }

  function HexValue(c: Unit): Option<int> {
    if Digit(c) then Some(c - 0x30)
    else if 0x61 <= c <= 0x66 then Some(c - 0x61 + 10)
    else if 0x41 <= c <= 0x46 then Some(c - 0x41 + 10)
    else None
  }

  /** The unit four hex digits stand for. */
  function HexUnit(s: Text): Option<Unit>
    requires |s| == 4
  {
    var a, b, c, d := HexValue(s[0]), HexValue(s[1]), HexValue(s[2]), HexValue(s[3]);
    if a.Some? && b.Some? && c.Some? && d.Some?
    then Some(a.value * 4096 + b.value * 256 + c.value * 16 + d.value) else None
  }

  /** The next unit of a string's body and how many units of the text it takes (section 7). */
  function NextUnit(s: Text): (r: Option<(Unit, nat)>)
    requires s != []
    ensures r.Some? ==> 1 <= r.value.1 <= |s|
  {
    if s[0] == QUOTE || s[0] < 0x20 then None
    else if s[0] != BACKSLASH then Some((s[0], 1))
    else if |s| < 2 then None
    else if s[1] == QUOTE || s[1] == BACKSLASH || s[1] == 0x2F then Some((s[1], 2))
    else if s[1] == 0x62 then Some((0x08, 2))
    else if s[1] == 0x74 then Some((0x09, 2))
    else if s[1] == 0x6E then Some((0x0A, 2))
    else if s[1] == 0x66 then Some((0x0C, 2))
    else if s[1] == 0x72 then Some((0x0D, 2))
    else if s[1] == 0x75 && |s| >= 6 && HexUnit(s[2..6]).Some? then Some((HexUnit(s[2..6]).value, 6))
    else None
  }

  /** A string after its opening quote: its units, and the text behind its closing quote. */
  function ParseBody(s: Text): (r: Option<(Text, Text)>)
    ensures r.Some? ==> |r.value.1| < |s|
    decreases |s|
  {
    if s == [] then None
    else if s[0] == QUOTE then Some(([], s[1..]))
    else
      match NextUnit(s)
      case None => None
      case Some((c, n)) =>
        match ParseBody(s[n..])
        case None => None
        case Some((rest, after)) => Some(([c] + rest, after))
  }

  function NumberRun(s: Text): nat
    ensures NumberRun(s) <= |s|
  {
    if s != [] && NumberUnit(s[0]) then 1 + NumberRun(s[1..]) else 0
  }

  function ParseValue(s: Text): (r: Option<(Json, Text)>)
    ensures r.Some? ==> |r.value.1| < |s|
    decreases |s|, 0
  {
    var t := SkipWhitespace(s);
    if t == [] then None
    else if t[0] == OPEN_ARRAY then
      var u := SkipWhitespace(t[1..]);
      if u != [] && u[0] == CLOSE_ARRAY then Some((Arr([]), u[1..]))
      else match ParseItems(u)
        case None => None
        case Some((items, after)) => Some((Arr(items), after))
    else if t[0] == OPEN_OBJECT then
      var u := SkipWhitespace(t[1..]);
      if u != [] && u[0] == CLOSE_OBJECT then Some((Obj([]), u[1..]))
      else match ParseMembers(u)
        case None => None
        case Some((members, after)) => Some((Obj(members), after))
    else if t[0] == QUOTE then
      match ParseBody(t[1..])
      case None => None
      case Some((str, after)) => Some((Str(str), after))
    else if NULL_TEXT <= t then Some((Null, t[4..]))
    else if TRUE_TEXT <= t then Some((Bool(true), t[4..]))
    else if FALSE_TEXT <= t then Some((Bool(false), t[5..]))
    else if NumberStart(t[0]) then Some((Number(t[..NumberRun(t)]), t[NumberRun(t)..]))
    else None
  }

  function ParseItems(s: Text): (r: Option<(seq<Json>, Text)>)
    ensures r.Some? ==> |r.value.1| < |s|
    decreases |s|, 1
  {
    match ParseValue(s)
    case None => None
    case Some((v, after)) =>
      var t := SkipWhitespace(after);
      if t == [] then None
      else if t[0] == CLOSE_ARRAY then Some(([v], t[1..]))
      else if t[0] == COMMA then
        match ParseItems(t[1..])
        case None => None
        case Some((rest, end)) => Some(([v] + rest, end))
      else None
  }

  function ParseMembers(s: Text): (r: Option<(seq<Member>, Text)>)
    ensures r.Some? ==> |r.value.1| < |s|
    decreases |s|, 1
  {
    match ParseMember(s)
    case None => None
    case Some((m, after)) =>
      var t := SkipWhitespace(after);
      if t == [] then None
      else if t[0] == CLOSE_OBJECT then Some(([m], t[1..]))
      else if t[0] == COMMA then
        match ParseMembers(t[1..])
        case None => None
        case Some((rest, end)) => Some(([m] + rest, end))
      else None
  }

  function ParseMember(s: Text): (r: Option<(Member, Text)>)
    ensures r.Some? ==> |r.value.1| < |s|
    decreases |s|, 0
  {
    var t := SkipWhitespace(s);
    if t == [] || t[0] != QUOTE then None
    else
      match ParseBody(t[1..])
      case None => None
      case Some((name, after)) =>
        var u := SkipWhitespace(after);
        if u == [] || u[0] != COLON then None
        else match ParseValue(u[1..])
          case None => None
          case Some((v, end)) => Some((Member(name, v), end))
  }

  /** `JSON.parse`: one value, and nothing but whitespace behind it. */
  function Parse(s: Text): Option<Json> {
    match ParseValue(s)
    case Some((v, after)) => if SkipWhitespace(after) == [] then Some(v) else None
    case None => None
  }
}
