/**
 JSON text (RFC 8259): a reader for objects, strings and the three literal names, and the text of
 a value as the encoder writes it, which copies strings without escaping them.
 The reader does not know numbers, arrays and escaped surrogates; the encoder writes none.
 */
module Json {
  import opened Wrappers

  datatype Value = Text(text: string) | Bool(flag: bool) | Null | Object(members: Members)

  /** The members of an object, in order. */
  datatype Members = End | Member(name: string, value: Value, next: Members)

  /** What was read and the text that follows it. */
  datatype Read<T> = Failed | Got(value: T, rest: string)

  // --- the reader ---

  /** Section 2: insignificant whitespace. */
  function Skip(s: string): (r: string)
    ensures |r| <= |s|
  {
    if s != "" && (s[0] == ' ' || s[0] == '\t' || s[0] == '\n' || s[0] == '\r') then Skip(s[1..]) else s
  }

  function Hex(c: char): Option<nat> {
    if '0' <= c <= '9' then Some((c - '0') as nat)
    else if 'a' <= c <= 'f' then Some((c - 'a') as nat + 10)
    else if 'A' <= c <= 'F' then Some((c - 'A') as nat + 10)
    else None
  }

  function ReadHex(s: string): Read<char> {
    if |s| < 4 then Failed
    else
      match (Hex(s[0]), Hex(s[1]), Hex(s[2]), Hex(s[3]))
      case (Some(a), Some(b), Some(c), Some(d)) =>
        var n := ((a * 16 + b) * 16 + c) * 16 + d;
        if n < 0xD800 || 0xE000 <= n < 0x1_0000 then Got(n as char, s[4..]) else Failed
      case _ => Failed
  }

  /** Section 7: what follows a backslash. */
  function ReadEscape(s: string): (r: Read<char>)
    ensures r.Got? ==> |r.rest| < |s|
  {
    if s == "" then Failed
    else if s[0] == '"' || s[0] == '\\' || s[0] == '/' then Got(s[0], s[1..])
    else if s[0] == 'b' then Got(8 as char, s[1..])
    else if s[0] == 'f' then Got(12 as char, s[1..])
    else if s[0] == 'n' then Got('\n', s[1..])
    else if s[0] == 'r' then Got('\r', s[1..])
    else if s[0] == 't' then Got('\t', s[1..])
    else if s[0] == 'u' then ReadHex(s[1..])
    else Failed
  }

  /** Section 7: a string, after its opening quote. */
  function ReadChars(s: string): (r: Read<string>)
    ensures r.Got? ==> |r.rest| < |s|
    decreases |s|
  {
    if s == "" then Failed
    else if s[0] == '"' then Got("", s[1..])
    else if s[0] == '\\' then
      match ReadEscape(s[1..])
      case Failed => Failed
      case Got(c, rest) => Prepend(c, ReadChars(rest))
    else if s[0] < ' ' then Failed
    else Prepend(s[0], ReadChars(s[1..]))
  }

  function Prepend(c: char, r: Read<string>): Read<string> {
    match r
    case Failed => Failed
    case Got(x, rest) => Got([c] + x, rest)
  }

  /** Section 3. */
  function ReadValue(s0: string): (r: Read<Value>)
    ensures r.Got? ==> |r.rest| < |s0|
    decreases |s0|
  {
    var s := Skip(s0);
    if s == "" then Failed
    else if s[0] == '"' then
      match ReadChars(s[1..])
      case Failed => Failed
      case Got(x, rest) => Got(Text(x), rest)
    else if s[0] == '{' then
      var t := Skip(s[1..]);
      if t != "" && t[0] == '}' then Got(Object(End), t[1..])
      else
        match ReadMembers(t)
        case Failed => Failed
        case Got(ms, rest) => Got(Object(ms), rest)
    else if "true" <= s then Got(Bool(true), s[4..])
    else if "false" <= s then Got(Bool(false), s[5..])
    else if "null" <= s then Got(Null, s[4..])
    else Failed
  }

  /** Section 4: one or more members and the closing brace. */
  function ReadMembers(s0: string): (r: Read<Members>)
    ensures r.Got? ==> |r.rest| < |s0|
    decreases |s0|
  {
    var s := Skip(s0);
    if s == "" || s[0] != '"' then Failed
    else
      match ReadChars(s[1..])
      case Failed => Failed
      case Got(name, t0) =>
        var t := Skip(t0);
        if t == "" || t[0] != ':' then Failed
        else
          match ReadValue(t[1..])
          case Failed => Failed
          case Got(v, u0) =>
            var u := Skip(u0);
            if u == "" then Failed
            else if u[0] == '}' then Got(Member(name, v, End), u[1..])
            else if u[0] == ',' then
              match ReadMembers(u[1..])
              case Failed => Failed
              case Got(ms, rest) => Got(Member(name, v, ms), rest)
            else Failed
  }

  /** A JSON text is one value. */
  function Parse(s: string): Option<Value> {
    match ReadValue(s)
    case Failed => None
    case Got(v, rest) => if Skip(rest) == "" then Some(v) else None
  }

  // --- the writer ---

  /** The text of a value, followed by `tail`: no whitespace, strings copied as they are. */
  function Printed(v: Value, tail: string): string
    decreases v, 0
  {
    match v
    case Text(x) => "\"" + (x + ("\"" + tail))
    case Bool(flag) => (if flag then "true" else "false") + tail
    case Null => "null" + tail
    case Object(End) => "{}" + tail
    case Object(ms) => "{" + PrintedMembers(ms, tail)
  }

  /** The members from this one on and the closing brace. */
  function PrintedMembers(ms: Members, tail: string): string
    decreases ms, 0
  {
    match ms
    case End => "}" + tail
    case Member(name, v, next) =>
      "\"" + (name + ("\":" + Printed(v, PrintedNext(next, tail))))
  }

  function PrintedNext(next: Members, tail: string): string
    decreases next, 1
  {
    if next == End then "}" + tail else "," + PrintedMembers(next, tail)
  }

  function Print(v: Value): string {
    Printed(v, "")
  }

  // --- when the text reads back ---

  predicate CleanChar(c: char) {
    c != '"' && c != '\\' && c >= ' '
  }

  predicate Clean(x: string) {
    forall i :: 0 <= i < |x| ==> CleanChar(x[i])
  }

  predicate CleanValue(v: Value) {
    match v
    case Text(x) => Clean(x)
    case Bool(_) => true
    case Null => true
    case Object(ms) => CleanMembers(ms)
  }

  predicate CleanMembers(ms: Members) {
    match ms
    case End => true
    case Member(name, v, next) => Clean(name) && CleanValue(v) && CleanMembers(next)
  }

  lemma {:induction false} CleanCharsRead(x: string, tail: string)
    requires Clean(x)
    ensures ReadChars(x + ("\"" + tail)) == Got(x, tail)
  {
    var s := x + ("\"" + tail);
    if x == "" {
      assert s == "\"" + tail;
    } else {
      assert s[1..] == x[1..] + ("\"" + tail);
      assert CleanChar(x[0]);
      CleanCharsRead(x[1..], tail);
      assert [x[0]] + x[1..] == x;
    }
  }

  lemma {:induction false} CleanValueReads(v: Value, tail: string)
    requires CleanValue(v)
    ensures ReadValue(Printed(v, tail)) == Got(v, tail)
    decreases v
  {
    hide ReadChars;
    var s := Printed(v, tail);
    assert Skip(s) == s;
    match v
    case Text(x) =>
      CleanCharsRead(x, tail);
      assert s[1..] == x + ("\"" + tail);
    case Bool(flag) =>
      if flag {
        assert s == "true" + tail && s[4..] == tail;
      } else {
        assert s == "false" + tail && s[5..] == tail;
      }
    case Null =>
      assert s == "null" + tail && s[4..] == tail;
    case Object(End) =>
      assert s[1..] == "}" + tail;
    case Object(ms) =>
      CleanMembersRead(ms, tail);
      assert s[1..] == PrintedMembers(ms, tail);
  }

  lemma {:induction false} CleanMembersRead(ms: Members, tail: string)
    requires CleanMembers(ms) && ms != End
    ensures ReadMembers(PrintedMembers(ms, tail)) == Got(ms, tail)
    ensures PrintedMembers(ms, tail)[0] == '"'
    decreases ms
  {
    hide ReadChars;
    hide ReadValue;
    var s := PrintedMembers(ms, tail);
    var after := PrintedNext(ms.next, tail);
    var body := Printed(ms.value, after);
    CleanCharsRead(ms.name, ":" + body);
    assert s[1..] == ms.name + ("\"" + (":" + body)) by {
      assert "\":" + body == "\"" + (":" + body);
    }
    CleanValueReads(ms.value, after);
    if ms.next == End {
      assert after[1..] == tail;
    } else {
      CleanMembersRead(ms.next, tail);
      assert after[1..] == PrintedMembers(ms.next, tail);
    }
  }

  // --- and only then ---

  predicate Opener(c: char) {
    c == ',' || c == ':' || c == '{'
  }

  /**
   Text between strings: it starts with neither a quote nor a backslash, and the quote that ends
   it, if there is one, follows a comma, a colon or a brace.
   */
  predicate Gap(s: string) {
    s != "" ==>
      && s[0] != '"' && s[0] != '\\'
      && (|s| > 1 ==> if s[1] == '"' then Opener(s[0]) else Gap(s[1..]))
  }

  /** A string that swallows a gap ends in a comma, a colon or a brace. */
  lemma {:induction false} GapEnds(s: string)
    requires Gap(s)
    ensures var r := ReadChars(s); r.Got? ==> r.value != "" && Opener(r.value[|r.value| - 1])
  {
    if |s| > 1 {
      if s[1] == '"' {
        assert ReadChars(s[1..]) == Got("", s[2..]);
      } else {
        GapEnds(s[1..]);
      }
    }
  }

  /**
   What reading a copied string comes to: it stops at or before the closing quote, with as many
   characters only if the string is clean, or it passes the closing quote, which takes a final
   backslash, and then ends in a comma, a colon or a brace.
   */
  predicate Copied(u: string, tail: string, r: Read<string>) {
    match r
    case Failed => true
    case Got(x, rest) =>
      if |rest| >= |tail| then |x| <= |u| && (|x| == |u| ==> Clean(u) && rest == tail)
      else u != "" && u[|u| - 1] == '\\' && x != "" && Opener(x[|x| - 1])
  }

  lemma {:induction false} CopiedCharsRead(u: string, tail: string)
    requires Gap(tail)
    ensures Copied(u, tail, ReadChars(u + ("\"" + tail)))
    decreases |u|
  {
    hide ReadEscape;
    hide Gap;
    var s := u + ("\"" + tail);
    if u == "" {
      assert s[1..] == tail;
    } else if u == "\\" {
      QuoteEscaped(tail);
      GapEnds(tail);
    } else if u[0] == '\\' {
      EscapeRead(u, tail);
    } else if u[0] == '"' {
      assert ReadChars(s) == Got("", s[1..]);
    } else {
      CopiedCharsRead(u[1..], tail);
      assert s[1..] == u[1..] + ("\"" + tail);
      PlainRead(u, tail, ReadChars(s[1..]));
    }
  }

  lemma PlainRead(u: string, tail: string, r: Read<string>)
    requires u != "" && Copied(u[1..], tail, r)
    ensures CleanChar(u[0]) ==> Copied(u, tail, Prepend(u[0], r))
  {
    if Clean(u[1..]) && CleanChar(u[0]) {
      assert forall i :: 0 < i < |u| ==> u[i] == u[1..][i - 1];
    }
  }

  /** An escape inside a copied string takes two or six of its characters. */
  lemma EscapeTakes(u: string, after: string) returns (k: nat)
    requires |u| >= 2 && u[0] == '\\' && after != "" && after[0] == '"'
    ensures 2 <= k <= |u|
    ensures var r := ReadEscape((u + after)[1..]); r.Got? ==> r.rest == u[k..] + after
  {
    var t := (u + after)[1..];
    assert t == u[1..] + after && t[1..] == u[2..] + after;
    k := 2;
    if u[1] == 'u' {
      if |u| >= 6 {
        k := 6;
        assert t[1..][4..] == u[6..] + after;
      } else {
        assert t[1..][|u| - 2] == '"' && Hex('"') == None;
      }
    }
  }

  lemma QuoteEscaped(tail: string)
    ensures ReadChars("\\" + ("\"" + tail)) == Prepend('"', ReadChars(tail))
  {
    var s := "\\" + ("\"" + tail);
    assert s[1..] == "\"" + tail && s[1..][1..] == tail;
  }

  lemma {:induction false} EscapeRead(u: string, tail: string)
    requires Gap(tail) && |u| >= 2 && u[0] == '\\'
    ensures Copied(u, tail, ReadChars(u + ("\"" + tail)))
    decreases |u|, 0
  {
    hide ReadEscape;
    hide Gap;
    var s := u + ("\"" + tail);
    var k := EscapeTakes(u, "\"" + tail);
    CopiedCharsRead(u[k..], tail);
    assert s[0] == '\\';
    match ReadEscape(s[1..])
    case Failed =>
    case Got(c, rest) =>
      assert ReadChars(s) == Prepend(c, ReadChars(u[k..] + ("\"" + tail)));
  }

  /** A copied string reads back exactly when it is clean. */
  lemma CharsReadBack(x: string, tail: string)
    requires Gap(tail)
    ensures var r := ReadChars(x + ("\"" + tail));
            r.Got? && r.value == x <==> Clean(x)
    ensures var r := ReadChars(x + ("\"" + tail));
            r.Got? && r.value == x ==> r.rest == tail
  {
    CopiedCharsRead(x, tail);
    if Clean(x) {
      CleanCharsRead(x, tail);
    }
  }

  lemma {:induction false} WordGap(w: string, after: string)
    requires Gap(after) && forall i :: 0 <= i < |w| ==> w[i] != '"' && w[i] != '\\'
    ensures Gap(w + after)
  {
    if w == "" {
      assert w + after == after;
    } else {
      WordGap(w[1..], after);
      assert (w + after)[1..] == w[1..] + after;
      if |w| > 1 {
        assert (w + after)[1] == w[1];
      }
    }
  }

  lemma OpenerGap(c: char, after: string)
    requires Opener(c) && after != "" && after[0] == '"'
    ensures Gap([c] + after)
  {
    assert ([c] + after)[1] == '"';
  }

  lemma NextGap(next: Members, tail: string)
    requires Gap(tail)
    ensures Gap(PrintedNext(next, tail))
  {
    if next == End {
      WordGap("}", tail);
    } else {
      OpenerGap(',', PrintedMembers(next, tail));
    }
  }

  /** What follows a name is a gap. */
  lemma ValueGap(v: Value, after: string)
    requires Gap(after)
    ensures Gap(":" + Printed(v, after))
  {
    hide Gap;
    match v
    case Text(x) =>
      OpenerGap(':', Printed(v, after));
    case Bool(flag) =>
      WordGap(if flag then ":true" else ":false", after);
      assert ":" + Printed(v, after) == (if flag then ":true" else ":false") + after;
    case Null =>
      WordGap(":null", after);
      assert ":" + Printed(v, after) == ":null" + after;
    case Object(End) =>
      WordGap(":{}", after);
      assert ":" + Printed(v, after) == ":{}" + after;
    case Object(ms) =>
      var body := PrintedMembers(ms, after);
      OpenerGap('{', body);
      WordGap(":", ['{'] + body);
      assert Printed(v, after) == ['{'] + body;
  }

  lemma {:induction false} OnlyCleanValueReads(v: Value, tail: string)
    requires Gap(tail)
    requires var r := ReadValue(Printed(v, tail)); r.Got? && r.value == v
    ensures CleanValue(v) && ReadValue(Printed(v, tail)).rest == tail
    decreases v
  {
    hide ReadChars;
    hide Gap;
    var s := Printed(v, tail);
    assert Skip(s) == s;
    match v
    case Text(x) =>
      CharsReadBack(x, tail);
      assert s[1..] == x + ("\"" + tail);
    case Bool(flag) =>
      CleanValueReads(v, tail);
    case Null =>
      CleanValueReads(v, tail);
    case Object(End) =>
      CleanValueReads(v, tail);
    case Object(ms) =>
      assert s[1..] == PrintedMembers(ms, tail);
      assert PrintedMembers(ms, tail)[0] == '"';
      OnlyCleanMembersRead(ms, tail);
  }

  lemma {:induction false} OnlyCleanMembersRead(ms: Members, tail: string)
    requires Gap(tail) && ms != End
    requires var r := ReadMembers(PrintedMembers(ms, tail)); r.Got? && r.value == ms
    ensures CleanMembers(ms) && ReadMembers(PrintedMembers(ms, tail)).rest == tail
    decreases ms
  {
    hide ReadChars;
    hide ReadValue;
    hide Gap;
    var s := PrintedMembers(ms, tail);
    var after := PrintedNext(ms.next, tail);
    var body := Printed(ms.value, after);
    NextGap(ms.next, tail);
    ValueGap(ms.value, after);
    assert s[1..] == ms.name + ("\"" + (":" + body)) by {
      assert "\":" + body == "\"" + (":" + body);
    }
    assert Skip(s) == s;
    CharsReadBack(ms.name, ":" + body);
    assert (":" + body)[1..] == body;
    OnlyCleanValueReads(ms.value, after);
    if ms.next == End {
      assert after[1..] == tail;
    } else {
      assert after[1..] == PrintedMembers(ms.next, tail);
      OnlyCleanMembersRead(ms.next, tail);
    }
  }

  /** The text of a value reads back as that value exactly when all its strings are clean. */
  lemma ReadsBackIffClean(v: Value)
    ensures Parse(Print(v)) == Some(v) <==> CleanValue(v)
  {
    if CleanValue(v) {
      CleanValueReads(v, "");
    }
    if Parse(Print(v)) == Some(v) {
      OnlyCleanValueReads(v, "");
    }
  }

  /** A tail follows the text. */
  lemma {:induction false} PrintedAppends(v: Value, tail: string)
    ensures Printed(v, tail) == Print(v) + tail
    decreases v, 0
  {
    match v
    case Text(x) =>
      assert x + ("\"" + tail) == (x + ("\"" + "")) + tail;
    case Bool(_) =>
    case Null =>
    case Object(End) =>
    case Object(ms) =>
      MembersAppend(ms, tail);
  }

  lemma Regroup(name: string, value: string, bare: string, tail: string)
    ensures "\"" + (name + ("\":" + (value + (bare + tail)))) == ("\"" + (name + ("\":" + (value + bare)))) + tail
  {
    assert value + (bare + tail) == (value + bare) + tail;
    assert "\":" + ((value + bare) + tail) == ("\":" + (value + bare)) + tail;
  }

  lemma {:induction false} MembersAppend(ms: Members, tail: string)
    ensures PrintedMembers(ms, tail) == PrintedMembers(ms, "") + tail
    decreases ms, 0
  {
    if ms.Member? {
      var after, bare := PrintedNext(ms.next, tail), PrintedNext(ms.next, "");
      if ms.next != End {
        MembersAppend(ms.next, tail);
      }
      assert after == bare + tail;
      PrintedAppends(ms.value, after);
      PrintedAppends(ms.value, bare);
      Regroup(ms.name, Print(ms.value), bare, tail);
    }
  }
}
