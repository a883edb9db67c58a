/** Values survive the script: what the post-pass prints parses back, and cannot end the script. */
module ScriptJsonProofs {
  import opened Wrappers
  import opened ScriptJson

  predicate Safe(t: Text) {
    forall i :: 0 <= i < |t| ==> !ScriptUnsafe(t[i])
  }

  // ---- the post-pass, in one pass ----

  function Post(text: Text): Text {
    if text == [] then []
    else (if ScriptUnsafe(text[0]) then UnicodeEscape(text[0]) else [text[0]]) + Post(text[1..])
  }

  lemma {:induction false} ReplaceAdd(a: Text, b: Text, c: Unit)
    ensures Replace(a + b, c) == Replace(a, c) + Replace(b, c)
  {
    if a == [] {
      assert a + b == b;
    } else {
      assert (a + b)[1..] == a[1..] + b;
      ReplaceAdd(a[1..], b, c);
    }
  }

  lemma {:induction false} ReplaceAbsent(t: Text, c: Unit)
    requires c !in t
    ensures Replace(t, c) == t
  {
    if t == [] {
    } else {
      ReplaceAbsent(t[1..], c);
    }
  }

  lemma EscapeIsSafe(c: Unit)
    ensures Safe(UnicodeEscape(c)) && forall i :: 0 <= i < 6 ==> UnicodeEscape(c)[i] < 0x80
  {
  }

  lemma ReplaceOne(u: Unit, c: Unit)
    ensures Replace([u], c) == if u == c then UnicodeEscape(u) else [u]
  {
    assert [u][1..] == [];
  }

  lemma EscapeHead(c: Unit)
    ensures EscapeForScript([c]) == if ScriptUnsafe(c) then UnicodeEscape(c) else [c]
  {
    EscapeIsSafe(c);
    ReplaceOne(c, LT);
    ReplaceOne(c, LINE_SEPARATOR);
    ReplaceOne(c, PARAGRAPH_SEPARATOR);
    if c == LT {
      ReplaceAbsent(UnicodeEscape(c), LINE_SEPARATOR);
      ReplaceAbsent(UnicodeEscape(c), PARAGRAPH_SEPARATOR);
    } else if c == LINE_SEPARATOR {
      ReplaceAbsent(UnicodeEscape(c), PARAGRAPH_SEPARATOR);
    }
  }

  lemma EscapeAdd(a: Text, b: Text)
    ensures EscapeForScript(a + b) == EscapeForScript(a) + EscapeForScript(b)
  {
    ReplaceAdd(a, b, LT);
    ReplaceAdd(Replace(a, LT), Replace(b, LT), LINE_SEPARATOR);
    ReplaceAdd(Replace(Replace(a, LT), LINE_SEPARATOR), Replace(Replace(b, LT), LINE_SEPARATOR), PARAGRAPH_SEPARATOR);
  }

  /** No replacement touches what another one wrote: three passes are one. */
  lemma {:induction false} ThreePassesAreOne(text: Text)
    ensures EscapeForScript(text) == Post(text)
  {
    if text == [] {
    } else {
      assert text == [text[0]] + text[1..];
      EscapeAdd([text[0]], text[1..]);
      EscapeHead(text[0]);
      ThreePassesAreOne(text[1..]);
    }
  }

  lemma {:induction false} PostIsSafe(text: Text)
    ensures Safe(Post(text))
  {
    if text == [] {
    } else {
      EscapeIsSafe(text[0]);
      PostIsSafe(text[1..]);
    }
  }

  /** Whatever text it is given, the post-pass leaves no `<` and no line separator. */
  lemma EscapedTextIsSafe(text: Text)
    ensures Safe(EscapeForScript(text))
    ensures 0x3C !in EscapeForScript(text) && 0x2028 !in EscapeForScript(text) && 0x2029 !in EscapeForScript(text)
  {
    ThreePassesAreOne(text);
    PostIsSafe(text);
  }

  // ---- on printed values the post-pass only escapes inside strings ----

  lemma {:induction false} PostAdd(a: Text, b: Text)
    ensures Post(a + b) == Post(a) + Post(b)
  {
    if a == [] {
      assert a + b == b;
    } else {
      assert (a + b)[1..] == a[1..] + b;
      PostAdd(a[1..], b);
    }
  }

  lemma {:induction false} PostPlain(t: Text)
    requires Safe(t)
    ensures Post(t) == t
  {
    if t == [] {
    } else {
      PostPlain(t[1..]);
    }
  }

  lemma PostEscape(c: Unit)
    ensures Post(Escape(c, false)) == Escape(c, true)
  {
    EscapeIsSafe(c);
    if ScriptUnsafe(c) {
      assert [c][1..] == [];
    } else {
      PostPlain(Escape(c, false));
    }
  }

  lemma {:induction false} PostBody(s: Text)
    ensures Post(Body(s, false)) == Body(s, true)
  {
    if s == [] {
    } else {
      if StartsWithPair(s) {
        PostBody(s[2..]);
        PostPlain(s[..2]);
        PostAdd(s[..2], Body(s[2..], false));
      } else {
        PostBody(s[1..]);
        PostEscape(s[0]);
        PostAdd(Escape(s[0], false), Body(s[1..], false));
      }
    }
  }

  lemma PostQuote(s: Text)
    ensures Post(Quote(s, false)) == Quote(s, true)
  {
    PostBody(s);
    PostPlain([QUOTE]);
    PostAdd([QUOTE] + Body(s, false), [QUOTE]);
    PostAdd([QUOTE], Body(s, false));
  }

  lemma PostWrapped(open: Unit, inner: Text, close: Unit)
    requires !ScriptUnsafe(open) && !ScriptUnsafe(close)
    ensures Post([open] + inner + [close]) == [open] + Post(inner) + [close]
  {
    PostPlain([open]);
    PostPlain([close]);
    PostAdd([open] + inner, [close]);
    PostAdd([open], inner);
  }

  lemma PostJoined(a: Text, separator: Unit, b: Text)
    requires !ScriptUnsafe(separator)
    ensures Post(a + [separator] + b) == Post(a) + [separator] + Post(b)
  {
    PostPlain([separator]);
    PostAdd(a + [separator], b);
    PostAdd(a, [separator]);
  }

  lemma {:induction false} PostPrint(v: Json)
    requires WellFormed(v)
    ensures Post(Print(v, false)) == Print(v, true)
    decreases v, 1
  {
    match v {
      case Null => PostPlain(NULL_TEXT);
      case Bool(b) => PostPlain(if b then TRUE_TEXT else FALSE_TEXT);
      case Number(t) => PostPlain(t);
      case Str(s) => PostQuote(s);
      case Arr(items) =>
        PostItems(items);
        PostWrapped(OPEN_ARRAY, PrintItems(items, false), CLOSE_ARRAY);
      case Obj(members) =>
        PostMembers(members);
        PostWrapped(OPEN_OBJECT, PrintMembers(members, false), CLOSE_OBJECT);
    }
  }

  lemma {:induction false} PostItems(items: seq<Json>)
    requires forall i :: 0 <= i < |items| ==> WellFormed(items[i])
    ensures Post(PrintItems(items, false)) == PrintItems(items, true)
    decreases items, 0
  {
    if items == [] {
    } else {
      PostPrint(items[0]);
      if |items| > 1 {
        PostItems(items[1..]);
        PostJoined(Print(items[0], false), COMMA, PrintItems(items[1..], false));
      }
    }
  }

  lemma {:induction false} PostMembers(members: seq<Member>)
    requires forall i :: 0 <= i < |members| ==> WellFormed(members[i].value)
    ensures Post(PrintMembers(members, false)) == PrintMembers(members, true)
    decreases members, 0
  {
    if members == [] {
    } else {
      PostPrint(members[0].value);
      PostQuote(members[0].name);
      PostJoined(Quote(members[0].name, false), COLON, Print(members[0].value, false));
      if |members| > 1 {
        PostMembers(members[1..]);
        PostJoined(PrintMember(members[0], false), COMMA, PrintMembers(members[1..], false));
      }
    }
  }

  // ---- strings parse back ----

  lemma HexDigitValue(d: int)
    requires 0 <= d < 16
    ensures HexValue(HexDigit(d)) == Some(d)
  {
  }

  lemma Nibbles(c: Unit)
    ensures c == c / 4096 * 4096 + c / 256 % 16 * 256 + c / 16 % 16 * 16 + c % 16
  {
    var x := c / 16;
    var y := x / 16;
    assert c == x * 16 + c % 16 && x == y * 16 + x % 16 && y == y / 16 * 16 + y % 16;
    assert c / 256 == y && c / 4096 == y / 16;
  }

  lemma HexRoundTrip(c: Unit)
    ensures HexUnit(UnicodeEscape(c)[2..6]) == Some(c)
  {
    Nibbles(c);
    HexDigitValue(c / 4096);
    HexDigitValue(c / 256 % 16);
    HexDigitValue(c / 16 % 16);
    HexDigitValue(c % 16);
    var s := UnicodeEscape(c)[2..6];
    assert s[0] == HexDigit(c / 4096) && s[1] == HexDigit(c / 256 % 16);
    assert s[2] == HexDigit(c / 16 % 16) && s[3] == HexDigit(c % 16);
  }

  lemma NextIsEscaped(c: Unit, script: bool, tail: Text)
    ensures var e := Escape(c, script);
            e[0] != QUOTE && NextUnit(e + tail) == Some((c, |e|))
  {
    var e := Escape(c, script);
    if |e| == 6 {
      HexRoundTrip(c);
      assert (e + tail)[2..6] == e[2..6];
    }
  }

  lemma BodyStep(c: Unit, e: Text, tail: Text, s: Text, rest: Text)
    requires e != [] && e[0] != QUOTE && NextUnit(e + tail) == Some((c, |e|))
    requires ParseBody(tail) == Some((s, rest))
    ensures ParseBody(e + tail) == Some(([c] + s, rest))
  {
    assert (e + tail)[|e|..] == tail;
  }

  lemma PairParses(a: Unit, b: Unit, tail: Text, s: Text, rest: Text)
    requires HighSurrogate(a) && LowSurrogate(b) && ParseBody(tail) == Some((s, rest))
    ensures ParseBody([a, b] + tail) == Some(([a, b] + s, rest))
  {
    assert ([b] + tail)[1..] == tail;
    BodyStep(b, [b], tail, s, rest);
    BodyStep(a, [a], [b] + tail, [b] + s, rest);
    assert [a, b] + tail == [a] + ([b] + tail) && [a, b] + s == [a] + ([b] + s);
  }

  lemma UnitParses(c: Unit, script: bool, tail: Text, s: Text, rest: Text)
    requires ParseBody(tail) == Some((s, rest))
    ensures ParseBody(Escape(c, script) + tail) == Some(([c] + s, rest))
  {
    NextIsEscaped(c, script, tail);
    BodyStep(c, Escape(c, script), tail, s, rest);
  }

  lemma EmptyBody(rest: Text)
    ensures ParseBody([QUOTE] + rest) == Some(([], rest))
  {
    assert ([QUOTE] + rest)[1..] == rest;
  }

  lemma Assoc(a: Text, b: Text, c: Text)
    ensures (a + b) + c == a + (b + c)
  {
  }

  lemma {:induction false} BodyParses(s: Text, script: bool, rest: Text)
    ensures ParseBody(Body(s, script) + ([QUOTE] + rest)) == Some((s, rest))
  {
    var end := [QUOTE] + rest;
    if s == [] {
      EmptyBody(rest);
      assert Body(s, script) + end == end;
    } else if StartsWithPair(s) {
      var more := Body(s[2..], script);
      BodyParses(s[2..], script, rest);
      assert Body(s, script) == s[..2] + more && s[..2] == [s[0], s[1]];
      PairParses(s[0], s[1], more + end, s[2..], rest);
      Assoc(s[..2], more, end);
      assert s == s[..2] + s[2..];
    } else {
      var more := Body(s[1..], script);
      BodyParses(s[1..], script, rest);
      assert Body(s, script) == Escape(s[0], script) + more;
      UnitParses(s[0], script, more + end, s[1..], rest);
      Assoc(Escape(s[0], script), more, end);
      assert s == [s[0]] + s[1..];
    }
  }

  // ---- values parse back ----

  /** Text behind a value that cannot be taken for more of it. */
  predicate Delimits(rest: Text) {
    rest == [] || !NumberUnit(rest[0])
  }

  lemma PrintStart(v: Json, script: bool)
    requires WellFormed(v)
    ensures var p := Print(v, script);
            p != [] && !Whitespace(p[0]) && p[0] != CLOSE_ARRAY && p[0] != CLOSE_OBJECT
  {
  }

  lemma {:induction false} RunOfToken(t: Text, rest: Text)
    requires forall i :: 0 <= i < |t| ==> NumberUnit(t[i])
    requires Delimits(rest)
    ensures NumberRun(t + rest) == |t|
  {
    if t == [] {
      assert t + rest == rest;
    } else {
      assert (t + rest)[1..] == t[1..] + rest;
      RunOfToken(t[1..], rest);
    }
  }

  lemma LiteralsDiffer(t: Text, rest: Text)
    requires t == NULL_TEXT || t == TRUE_TEXT || t == FALSE_TEXT
    ensures ParseValue(t + rest) == Some((if t == NULL_TEXT then Null else Bool(t == TRUE_TEXT), rest))
  {
    var s := t + rest;
    assert SkipWhitespace(s) == s;
    assert s[0] == t[0];
    assert t <= s && s[|t|..] == rest;
  }

  lemma NumberParses(t: Text, rest: Text)
    requires NumberToken(t) && Delimits(rest)
    ensures ParseValue(t + rest) == Some((Number(t), rest))
  {
    var s := t + rest;
    RunOfToken(t, rest);
    assert s[0] == t[0] && SkipWhitespace(s) == s;
    assert s[..|t|] == t && s[|t|..] == rest;
  }

  lemma Wrapped(open: Unit, inner: Text, close: Unit, rest: Text)
    ensures ([open] + inner + [close]) + rest == [open] + (inner + ([close] + rest))
  {
  }

  lemma StringParses(str: Text, script: bool, rest: Text)
    ensures ParseValue(Quote(str, script) + rest) == Some((Str(str), rest))
  {
    var body := Body(str, script) + ([QUOTE] + rest);
    BodyParses(str, script, rest);
    Wrapped(QUOTE, Body(str, script), QUOTE, rest);
    assert ([QUOTE] + body)[1..] == body;
  }

  lemma ArrayParses(inner: Text, items: seq<Json>, rest: Text)
    requires inner != [] && SkipWhitespace(inner) == inner
    requires if inner[0] == CLOSE_ARRAY then items == [] && rest == inner[1..]
             else ParseItems(inner) == Some((items, rest))
    ensures ParseValue([OPEN_ARRAY] + inner) == Some((Arr(items), rest))
  {
    assert ([OPEN_ARRAY] + inner)[1..] == inner;
  }

  lemma ObjectParses(inner: Text, members: seq<Member>, rest: Text)
    requires inner != [] && SkipWhitespace(inner) == inner
    requires if inner[0] == CLOSE_OBJECT then members == [] && rest == inner[1..]
             else ParseMembers(inner) == Some((members, rest))
    ensures ParseValue([OPEN_OBJECT] + inner) == Some((Obj(members), rest))
  {
    assert ([OPEN_OBJECT] + inner)[1..] == inner;
  }

  lemma LastItem(s: Text, v: Json, rest: Text)
    requires ParseValue(s) == Some((v, [CLOSE_ARRAY] + rest))
    ensures ParseItems(s) == Some(([v], rest))
  {
    assert ([CLOSE_ARRAY] + rest)[1..] == rest;
  }

  lemma NextItem(s: Text, v: Json, tail: Text, items: seq<Json>, rest: Text)
    requires ParseValue(s) == Some((v, [COMMA] + tail)) && ParseItems(tail) == Some((items, rest))
    ensures ParseItems(s) == Some(([v] + items, rest))
  {
    assert ([COMMA] + tail)[1..] == tail;
  }

  lemma LastMember(s: Text, m: Member, rest: Text)
    requires ParseMember(s) == Some((m, [CLOSE_OBJECT] + rest))
    ensures ParseMembers(s) == Some(([m], rest))
  {
    assert ([CLOSE_OBJECT] + rest)[1..] == rest;
  }

  lemma NextMember(s: Text, m: Member, tail: Text, members: seq<Member>, rest: Text)
    requires ParseMember(s) == Some((m, [COMMA] + tail)) && ParseMembers(tail) == Some((members, rest))
    ensures ParseMembers(s) == Some(([m] + members, rest))
  {
    assert ([COMMA] + tail)[1..] == tail;
  }

  lemma MemberStep(body: Text, name: Text, value: Text, v: Json, rest: Text)
    requires ParseBody(body) == Some((name, [COLON] + value)) && ParseValue(value) == Some((v, rest))
    ensures ParseMember([QUOTE] + body) == Some((Member(name, v), rest))
  {
    assert ([QUOTE] + body)[1..] == body && ([COLON] + value)[1..] == value;
  }

  /** A printed value followed by anything that delimits it parses to that value and that text. */
  lemma {:induction false} ValueParses(v: Json, script: bool, rest: Text)
    requires WellFormed(v) && Delimits(rest)
    ensures ParseValue(Print(v, script) + rest) == Some((v, rest))
    decreases v, 1
  {
    match v {
      case Null => LiteralsDiffer(NULL_TEXT, rest);
      case Bool(b) => LiteralsDiffer(if b then TRUE_TEXT else FALSE_TEXT, rest);
      case Number(t) => NumberParses(t, rest);
      case Str(str) => StringParses(str, script, rest);
      case Arr(items) => ArrParses(items, script, rest);
      case Obj(members) => ObjParses(members, script, rest);
    }
  }

  lemma {:induction false} ArrParses(items: seq<Json>, script: bool, rest: Text)
    requires forall i :: 0 <= i < |items| ==> WellFormed(items[i])
    ensures ParseValue(([OPEN_ARRAY] + PrintItems(items, script) + [CLOSE_ARRAY]) + rest) == Some((Arr(items), rest))
    decreases items, 1
  {
    var printed, end := PrintItems(items, script), [CLOSE_ARRAY] + rest;
    if items == [] {
      assert printed + end == end && end[1..] == rest;
    } else {
      ItemsParse(items, script, rest);
    }
    ArrayParses(printed + end, items, rest);
    Wrapped(OPEN_ARRAY, printed, CLOSE_ARRAY, rest);
  }

  lemma {:induction false} ObjParses(members: seq<Member>, script: bool, rest: Text)
    requires forall i :: 0 <= i < |members| ==> WellFormed(members[i].value)
    ensures ParseValue(([OPEN_OBJECT] + PrintMembers(members, script) + [CLOSE_OBJECT]) + rest)
         == Some((Obj(members), rest))
    decreases members, 1
  {
    var printed, end := PrintMembers(members, script), [CLOSE_OBJECT] + rest;
    if members == [] {
      assert printed + end == end && end[1..] == rest;
    } else {
      MembersParse(members, script, rest);
    }
    ObjectParses(printed + end, members, rest);
    Wrapped(OPEN_OBJECT, printed, CLOSE_OBJECT, rest);
  }

  lemma PrintedHead(v: Json, script: bool, after: Text)
    requires WellFormed(v)
    ensures var s := Print(v, script) + after;
            SkipWhitespace(s) == s && s != [] && s[0] != CLOSE_ARRAY
  {
    PrintStart(v, script);
    assert (Print(v, script) + after)[0] == Print(v, script)[0];
  }

  lemma Joined(a: Text, b: Text, end: Text)
    ensures (a + [COMMA] + b) + end == a + ([COMMA] + (b + end))
  {
  }

  lemma {:induction false} ItemsParse(items: seq<Json>, script: bool, rest: Text)
    requires items != [] && forall i :: 0 <= i < |items| ==> WellFormed(items[i])
    ensures var s := PrintItems(items, script) + ([CLOSE_ARRAY] + rest);
            && SkipWhitespace(s) == s && s != [] && s[0] != CLOSE_ARRAY
            && ParseItems(s) == Some((items, rest))
    decreases items, 0
  {
    var end := [CLOSE_ARRAY] + rest;
    var first := Print(items[0], script);
    if |items| == 1 {
      PrintedHead(items[0], script, end);
      ValueParses(items[0], script, end);
      LastItem(first + end, items[0], rest);
      assert items == [items[0]];
    } else {
      var more := PrintItems(items[1..], script);
      PrintedHead(items[0], script, [COMMA] + (more + end));
      ValueParses(items[0], script, [COMMA] + (more + end));
      ItemsParse(items[1..], script, rest);
      NextItem(first + ([COMMA] + (more + end)), items[0], more + end, items[1..], rest);
      Joined(first, more, end);
      assert items == [items[0]] + items[1..];
    }
  }

  lemma MemberText(m: Member, script: bool, rest: Text)
    ensures PrintMember(m, script) + rest
         == [QUOTE] + (Body(m.name, script) + ([QUOTE] + ([COLON] + (Print(m.value, script) + rest))))
  {
    var printed := Print(m.value, script);
    Assoc(Quote(m.name, script) + [COLON], printed, rest);
    Assoc(Quote(m.name, script), [COLON], printed + rest);
    Wrapped(QUOTE, Body(m.name, script), QUOTE, [COLON] + (printed + rest));
  }

  lemma {:induction false} MemberParses(m: Member, script: bool, rest: Text)
    requires WellFormed(m.value) && Delimits(rest)
    ensures ParseMember(PrintMember(m, script) + rest) == Some((m, rest))
    decreases m, 0
  {
    var value := Print(m.value, script) + rest;
    ValueParses(m.value, script, rest);
    MemberText(m, script, rest);
    BodyParses(m.name, script, [COLON] + value);
    MemberStep(Body(m.name, script) + ([QUOTE] + ([COLON] + value)), m.name, value, m.value, rest);
  }

  lemma MembersHead(members: seq<Member>, script: bool, after: Text)
    requires members != []
    ensures var s := PrintMembers(members, script) + after;
            SkipWhitespace(s) == s && s != [] && s[0] == QUOTE
  {
    assert PrintMember(members[0], script)[0] == QUOTE;
    assert PrintMembers(members, script)[0] == QUOTE;
  }

  lemma {:induction false} MembersParse(members: seq<Member>, script: bool, rest: Text)
    requires members != [] && forall i :: 0 <= i < |members| ==> WellFormed(members[i].value)
    ensures var s := PrintMembers(members, script) + ([CLOSE_OBJECT] + rest);
            && SkipWhitespace(s) == s && s != [] && s[0] != CLOSE_OBJECT
            && ParseMembers(s) == Some((members, rest))
    decreases members, 0
  {
    var end := [CLOSE_OBJECT] + rest;
    var first := PrintMember(members[0], script);
    MembersHead(members, script, end);
    if |members| == 1 {
      MemberParses(members[0], script, end);
      LastMember(first + end, members[0], rest);
      assert members == [members[0]];
    } else {
      var more := PrintMembers(members[1..], script);
      MemberParses(members[0], script, [COMMA] + (more + end));
      MembersParse(members[1..], script, rest);
      NextMember(first + ([COMMA] + (more + end)), members[0], more + end, members[1..], rest);
      Joined(first, more, end);
      assert members == [members[0]] + members[1..];
    }
  }

  // ---- the theorems ----

  lemma InlinedIsPrinted(v: Json)
    requires WellFormed(v)
    ensures JsonForScript(v) == Print(v, true)
  {
    ThreePassesAreOne(Stringify(v));
    PostPrint(v);
  }

  lemma PrintedParses(v: Json, script: bool)
    requires WellFormed(v)
    ensures Parse(Print(v, script)) == Some(v)
  {
    ValueParses(v, script, []);
    assert Print(v, script) + [] == Print(v, script);
  }

  /** `JSON.parse(JSON.stringify(v))` is v. */
  lemma StringifyParses(v: Json)
    requires WellFormed(v)
    ensures Parse(Stringify(v)) == Some(v)
  {
    PrintedParses(v, false);
  }

  /** So is parsing what is inlined in the script, for every value; and the inlined text cannot close the script
      element or break its line. */
  lemma InlinedJsonParsesBack(v: Json)
    requires WellFormed(v)
    ensures Parse(JsonForScript(v)) == Some(v)
    ensures Safe(JsonForScript(v))
    ensures 0x3C !in JsonForScript(v) && 0x2028 !in JsonForScript(v) && 0x2029 !in JsonForScript(v)
  {
    EscapedTextIsSafe(Stringify(v));
    InlinedIsPrinted(v);
    PrintedParses(v, true);
  }

  /** The code unit of a character; those outside the basic plane, which have two, do not occur here. */
  function UnitOf(c: char): Unit {
    if c as int < 0x10000 then c as int else 0xFFFD
  }

  function Units(s: string): Text {
    seq(|s|, i requires 0 <= i < |s| => UnitOf(s[i]))
  }

  predicate PlainText(s: string) {
    '<' !in s && '\U{2028}' !in s && '\U{2029}' !in s
  }

  lemma UnitsAreSafe(s: string)
    requires PlainText(s)
    ensures Safe(Units(s))
  {
    assert forall i :: 0 <= i < |s| ==> s[i] in s;
  }

  const BRIDGE := "window.__kycBridge"
  const CALL_OPENS := BRIDGE + " && " + BRIDGE + ".setToken("
  const CALL_CLOSES := ");\ntrue;"

  /** `createSetTokenScript`: the escaped literal of the token between the call's two halves. */
  function SetTokenScript(token: Text): Text {
    Units(CALL_OPENS) + EscapeForScript(Stringify(Str(token))) + Units(CALL_CLOSES)
  }

  /** The injected call passes exactly the token: read where the argument starts, its literal is the token's and ends
      where the call closes; and nothing in the script is unsafe in a page. */
  lemma InjectedTokenParsesBack(token: Text)
    ensures ParseValue(SetTokenScript(token)[|CALL_OPENS|..]) == Some((Str(token), Units(CALL_CLOSES)))
    ensures Safe(SetTokenScript(token))
  {
    var opens, literal, closes := Units(CALL_OPENS), EscapeForScript(Stringify(Str(token))), Units(CALL_CLOSES);
    EscapedTextIsSafe(Stringify(Str(token)));
    InlinedIsPrinted(Str(token));
    HalvesAreSafe();
    ValueParses(Str(token), true, closes);
    assert SetTokenScript(token) == opens + (literal + closes);
  }

  lemma HalvesAreSafe()
    ensures Safe(Units(CALL_OPENS)) && Safe(Units(CALL_CLOSES)) && Delimits(Units(CALL_CLOSES))
  {
    assert PlainText(BRIDGE) && PlainText(".setToken(") && PlainText(" && ");
    UnitsAreSafe(CALL_OPENS);
    UnitsAreSafe(CALL_CLOSES);
    assert Units(CALL_CLOSES)[0] == 0x29;
  }
}
