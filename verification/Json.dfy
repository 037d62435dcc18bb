// JSON text as the service writes it (json.dumps with ensure_ascii off) and as
// any reader following RFC 8259 takes it apart, for the values summaries and
// stream payloads are made of.
module Json {
  import opened Options

  datatype Value = Str(text: string) | Arr(items: seq<Value>) | Obj(members: seq<Member>)

  datatype Member = Member(name: string, value: Value)

  // ----- Printer

  const HEX := "0123456789abcdef"

  function Escape(c: char): string {
    if c == '\"' then "\\\""
    else if c == '\\' then "\\\\"
    else if c == '\n' then "\\n"
    else if c == '\r' then "\\r"
    else if c == '\t' then "\\t"
    else if c == '\U{8}' then "\\b"
    else if c == '\U{C}' then "\\f"
    else if c < ' ' then "\\u00" + [HEX[c as int / 16], HEX[c as int % 16]]
    else [c]
  }

  function Escaped(s: string): string {
    if s == "" then "" else Escape(s[0]) + Escaped(s[1..])
  }

  function Quoted(s: string): string {
    "\"" + Escaped(s) + "\""
  }

  function Print(v: Value): string
    decreases v
  {
    match v
    case Str(text) => Quoted(text)
    case Arr(items) => "[" + PrintItems(items) + "]"
    case Obj(members) => "{" + PrintMembers(members) + "}"
  }

  function PrintItems(items: seq<Value>): string
    decreases items
  {
    if items == [] then ""
    else if |items| == 1 then Print(items[0])
    else Print(items[0]) + ", " + PrintItems(items[1..])
  }

  function PrintMember(m: Member): string
    decreases m
  {
    Quoted(m.name) + ": " + Print(m.value)
  }

  function PrintMembers(members: seq<Member>): string
    decreases members
  {
    if members == [] then ""
    else
      var first := PrintMember(members[0]);
      if |members| == 1 then first else first + ", " + PrintMembers(members[1..])
  }

  // ----- Reader

  type Parsed<T> = Option<(T, string)>  // a value and the text after it

  predicate IsSpace(c: char) {
    c == ' ' || c == '\t' || c == '\n' || c == '\r'
  }

  function SkipSpace(s: string): (rest: string)
    ensures |rest| <= |s|
  {
    if s != "" && IsSpace(s[0]) then SkipSpace(s[1..]) else s
  }

  function HexDigit(c: char): Option<nat> {
    if '0' <= c <= '9' then Some(c as int - '0' as int)
    else if 'a' <= c <= 'f' then Some(c as int - 'a' as int + 10)
    else if 'A' <= c <= 'F' then Some(c as int - 'A' as int + 10)
    else None
  }

  function HexValue(s: string): Option<nat> {
    if s == "" then Some(0)
    else
      var high, low := HexValue(s[..|s| - 1]), HexDigit(s[|s| - 1]);
      if high.Some? && low.Some? then Some(high.value * 16 + low.value) else None
  }

  // One escape, after its backslash. Surrogates are not combined: the printer
  // never writes them.
  function Unescape(s: string): (p: Parsed<char>)
    ensures p.Some? ==> |p.value.1| < |s|
  {
    if s == "" then None
    else if s[0] == '\"' || s[0] == '\\' || s[0] == '/' then Some((s[0], s[1..]))
    else if s[0] == 'n' then Some(('\n', s[1..]))
    else if s[0] == 'r' then Some(('\r', s[1..]))
    else if s[0] == 't' then Some(('\t', s[1..]))
    else if s[0] == 'b' then Some(('\U{8}', s[1..]))
    else if s[0] == 'f' then Some(('\U{C}', s[1..]))
    else if s[0] == 'u' && |s| >= 5 then
      var code := HexValue(s[1..5]);
      if code.Some? && code.value < 0xD800 then Some((code.value as char, s[5..])) else None
    else None
  }

  // A string, after its opening quote.
  function ParseText(s: string): (p: Parsed<string>)
    ensures p.Some? ==> |p.value.1| < |s|
    decreases |s|
  {
    if s == "" || s[0] < ' ' then None
    else if s[0] == '\"' then Some(("", s[1..]))
    else
      var first := if s[0] == '\\' then Unescape(s[1..]) else Some((s[0], s[1..]));
      if first == None then None
      else
        var rest := ParseText(first.value.1);
        if rest == None then None else Some(([first.value.0] + rest.value.0, rest.value.1))
  }

  function Parse(s: string): (p: Parsed<Value>)
    ensures p.Some? ==> |p.value.1| < |s|
    decreases |s|, 0
  {
    var t := SkipSpace(s);
    if t == "" then None
    else if t[0] == '\"' then
      var text := ParseText(t[1..]);
      if text == None then None else Some((Str(text.value.0), text.value.1))
    else if t[0] == '[' then
      var u := SkipSpace(t[1..]);
      if u != "" && u[0] == ']' then Some((Arr([]), u[1..]))
      else
        var items := ParseItems(t[1..]);
        if items == None then None else Some((Arr(items.value.0), items.value.1))
    else if t[0] == '{' then
      var u := SkipSpace(t[1..]);
      if u != "" && u[0] == '}' then Some((Obj([]), u[1..]))
      else
        var members := ParseMembers(t[1..]);
        if members == None then None else Some((Obj(members.value.0), members.value.1))
    else None
  }

  // One or more items, and the closing bracket.
  function ParseItems(s: string): (p: Parsed<seq<Value>>)
    ensures p.Some? ==> |p.value.1| < |s|
    decreases |s|, 1
  {
    var first := Parse(s);
    if first == None then None
    else
      var t := SkipSpace(first.value.1);
      if t == "" then None
      else if t[0] == ']' then Some(([first.value.0], t[1..]))
      else if t[0] == ',' then
        var rest := ParseItems(t[1..]);
        if rest == None then None else Some(([first.value.0] + rest.value.0, rest.value.1))
      else None
  }

  function ParseMember(s: string): (p: Parsed<Member>)
    ensures p.Some? ==> |p.value.1| < |s|
    decreases |s|, 1
  {
    var t := SkipSpace(s);
    if t == "" || t[0] != '\"' then None
    else
      var name := ParseText(t[1..]);
      if name == None then None
      else
        var u := SkipSpace(name.value.1);
        if u == "" || u[0] != ':' then None
        else
          var v := Parse(u[1..]);
          if v == None then None else Some((Member(name.value.0, v.value.0), v.value.1))
  }

  function ParseMembers(s: string): (p: Parsed<seq<Member>>)
    ensures p.Some? ==> |p.value.1| < |s|
    decreases |s|, 2
  {
    var first := ParseMember(s);
    if first == None then None
    else
      var t := SkipSpace(first.value.1);
      if t == "" then None
      else if t[0] == '}' then Some(([first.value.0], t[1..]))
      else if t[0] == ',' then
        var rest := ParseMembers(t[1..]);
        if rest == None then None else Some(([first.value.0] + rest.value.0, rest.value.1))
      else None
  }

  // ----- Round trip

  lemma EscapeReads(c: char, rest: string)
    ensures
      var s := Escape(c) + rest;
      && s != "" && s[0] >= ' ' && s[0] != '\"'
      && (if s[0] == '\\' then Unescape(s[1..]) else Some((s[0], s[1..]))) == Some((c, rest))
  {
    var s := Escape(c) + rest;
    if |Escape(c)| == 6 {
      assert s[1..][0] == 'u' && s[1..][5..] == rest;
      HexReads(c);
      assert s[1..][1..5] == Escape(c)[2..6];
    } else if |Escape(c)| == 2 {
      assert s[1..][1..] == rest;
    } else {
      assert s[1..] == rest;
    }
  }

  lemma HexReads(c: char)
    requires |Escape(c)| == 6
    ensures HexValue(Escape(c)[2..6]) == Some(c as int)
  {
    var h := Escape(c)[2..6];
    assert c < ' ' && h == ['0', '0', HEX[c as int / 16], HEX[c as int % 16]];
    assert h[..3] == ['0', '0', HEX[c as int / 16]];
    assert h[..3][..2] == ['0', '0'];
    assert h[..3][..2][..1] == ['0'];
    assert h[..3][..2][..1][..0] == [];
    assert HexValue(h[..3][..2][..1]) == Some(0);
    assert HexValue(h[..3][..2]) == Some(0);
    assert HexDigit(HEX[c as int / 16]) == Some(c as int / 16);
    assert HexValue(h[..3]) == Some(c as int / 16);
    assert HexDigit(HEX[c as int % 16]) == Some(c as int % 16);
  }

  lemma {:induction false} TextRoundTrip(text: string, rest: string)
    ensures ParseText(Escaped(text) + "\"" + rest) == Some((text, rest))
    decreases |text|
  {
    var s := Escaped(text) + "\"" + rest;
    if text == "" {
      assert s == "\"" + rest;
    } else {
      var tail := Escaped(text[1..]) + "\"" + rest;
      assert s == Escape(text[0]) + tail;
      EscapeReads(text[0], tail);
      TextRoundTrip(text[1..], rest);
      assert [text[0]] + text[1..] == text;
    }
  }

  lemma QuotedReads(text: string, rest: string)
    ensures Quoted(text) + rest != "" && (Quoted(text) + rest)[0] == '\"'
    ensures ParseText((Quoted(text) + rest)[1..]) == Some((text, rest))
  {
    TextRoundTrip(text, rest);
    assert (Quoted(text) + rest)[1..] == Escaped(text) + "\"" + rest;
  }

  // One step of each reader, on text whose pieces are already read.

  lemma ItemsEnd(s: string, v: Value, rest: string)
    requires Parse(s) == Some((v, "]" + rest))
    ensures ParseItems(s) == Some(([v], rest))
  {
    assert ("]" + rest)[1..] == rest;
  }

  lemma SpaceBefore(s: string)
    ensures SkipSpace(" " + s) == SkipSpace(s)
  {
    assert (" " + s)[1..] == s;
  }

  lemma ItemsAfterSpace(s: string)
    ensures ParseItems(" " + s) == ParseItems(s)
  {
    SpaceBefore(s);
    assert Parse(" " + s) == Parse(s);
  }

  lemma ItemsGoOn(s: string, v: Value, tail: string, vs: seq<Value>, rest: string)
    requires Parse(s) == Some((v, ", " + tail)) && ParseItems(tail) == Some((vs, rest))
    ensures ParseItems(s) == Some(([v] + vs, rest))
  {
    var t := ", " + tail;
    ItemsAfterSpace(tail);
    assert SkipSpace(t) == t && t[0] == ',' && t[1..] == " " + tail;
  }

  lemma MembersEnd(s: string, m: Member, rest: string)
    requires ParseMember(s) == Some((m, "}" + rest))
    ensures ParseMembers(s) == Some(([m], rest))
  {
    assert ("}" + rest)[1..] == rest;
  }

  lemma MembersAfterSpace(s: string)
    ensures ParseMembers(" " + s) == ParseMembers(s)
  {
    SpaceBefore(s);
    assert ParseMember(" " + s) == ParseMember(s);
  }

  lemma MembersGoOn(s: string, m: Member, tail: string, ms: seq<Member>, rest: string)
    requires ParseMember(s) == Some((m, ", " + tail)) && ParseMembers(tail) == Some((ms, rest))
    ensures ParseMembers(s) == Some(([m] + ms, rest))
  {
    var t := ", " + tail;
    MembersAfterSpace(tail);
    assert SkipSpace(t) == t && t[0] == ',' && t[1..] == " " + tail;
  }

  lemma MemberReads(s: string, name: string, after: string, v: Value, rest: string)
    requires s != "" && s[0] == '\"' && ParseText(s[1..]) == Some((name, ": " + after))
    requires Parse(after) == Some((v, rest))
    ensures ParseMember(s) == Some((Member(name, v), rest))
  {
    var u := ": " + after;
    SpaceBefore(after);
    assert Parse(" " + after) == Parse(after);
    assert SkipSpace(s) == s && SkipSpace(u) == u && u[0] == ':' && u[1..] == " " + after;
  }

  lemma ArrayReads(body: string, vs: seq<Value>, rest: string)
    requires body != "" && !IsSpace(body[0])
    requires if body[0] == ']' then vs == [] && rest == body[1..] else ParseItems(body) == Some((vs, rest))
    ensures Parse("[" + body) == Some((Arr(vs), rest))
  {
    assert ("[" + body)[1..] == body;
  }

  lemma ObjectReads(body: string, ms: seq<Member>, rest: string)
    requires body != "" && !IsSpace(body[0])
    requires if body[0] == '}' then ms == [] && rest == body[1..] else ParseMembers(body) == Some((ms, rest))
    ensures Parse("{" + body) == Some((Obj(ms), rest))
  {
    assert ("{" + body)[1..] == body;
  }

  lemma PrintStarts(v: Value)
    ensures Print(v) != "" && !IsSpace(Print(v)[0]) && Print(v)[0] != ']'
  {
  }

  // Printing and reading back returns the value and leaves the text after it.
  lemma {:induction false} ValueRoundTrip(v: Value, rest: string)
    ensures Parse(Print(v) + rest) == Some((v, rest))
    decreases v, 0
  {
    match v
    case Str(text) => QuotedReads(text, rest);
    case Arr(items) =>
      var body := PrintItems(items) + ("]" + rest);
      assert Print(v) + rest == "[" + body;
      if items != [] {
        ItemsRoundTrip(items, rest);
        PrintStarts(items[0]);
        assert body[0] == Print(items[0])[0];
      }
      ArrayReads(body, items, rest);
    case Obj(members) =>
      var body := PrintMembers(members) + ("}" + rest);
      assert Print(v) + rest == "{" + body;
      if members != [] {
        MembersRoundTrip(members, rest);
        assert body[0] == '\"';
      }
      ObjectReads(body, members, rest);
  }

  lemma Splice(x: string, sep: string, y: string, rest: string)
    ensures (x + sep + y) + rest == x + (sep + (y + rest))
  {
  }

  lemma PrintItemsCons(items: seq<Value>, rest: string)
    requires items != []
    ensures
      PrintItems(items) + ("]" + rest) ==
      Print(items[0]) + (if |items| == 1 then "]" + rest else ", " + (PrintItems(items[1..]) + ("]" + rest)))
  {
    if |items| > 1 {
      Splice(Print(items[0]), ", ", PrintItems(items[1..]), "]" + rest);
    }
  }

  lemma HeadAndTail<T>(s: seq<T>)
    requires s != []
    ensures [s[0]] + s[1..] == s && (|s| == 1 ==> [s[0]] == s)
  {
  }

  lemma {:induction false} ItemsRoundTrip(items: seq<Value>, rest: string)
    requires items != []
    ensures ParseItems(PrintItems(items) + ("]" + rest)) == Some((items, rest))
    decreases items, 1
  {
    PrintItemsCons(items, rest);
    HeadAndTail(items);
    if |items| == 1 {
      ValueRoundTrip(items[0], "]" + rest);
      ItemsEnd(Print(items[0]) + ("]" + rest), items[0], rest);
    } else {
      var tail := PrintItems(items[1..]) + ("]" + rest);
      ItemsRoundTrip(items[1..], rest);
      ValueRoundTrip(items[0], ", " + tail);
      ItemsGoOn(Print(items[0]) + (", " + tail), items[0], tail, items[1..], rest);
    }
  }

  lemma {:induction false} MemberRoundTrip(m: Member, rest: string)
    ensures ParseMember(PrintMember(m) + rest) == Some((m, rest))
    decreases m, 0
  {
    var after := Print(m.value) + rest;
    Splice(Quoted(m.name), ": ", Print(m.value), rest);
    QuotedReads(m.name, ": " + after);
    ValueRoundTrip(m.value, rest);
    MemberReads(Quoted(m.name) + (": " + after), m.name, after, m.value, rest);
  }

  lemma PrintMembersCons(members: seq<Member>, rest: string)
    requires members != []
    ensures
      PrintMembers(members) + ("}" + rest) ==
      PrintMember(members[0]) + (if |members| == 1 then "}" + rest else ", " + (PrintMembers(members[1..]) + ("}" + rest)))
  {
    if |members| > 1 {
      Splice(PrintMember(members[0]), ", ", PrintMembers(members[1..]), "}" + rest);
    }
  }

  lemma {:induction false} MembersRoundTrip(members: seq<Member>, rest: string)
    requires members != []
    ensures ParseMembers(PrintMembers(members) + ("}" + rest)) == Some((members, rest))
    decreases members, 1
  {
    PrintMembersCons(members, rest);
    HeadAndTail(members);
    if |members| == 1 {
      MemberRoundTrip(members[0], "}" + rest);
      MembersEnd(PrintMember(members[0]) + ("}" + rest), members[0], rest);
    } else {
      var tail := PrintMembers(members[1..]) + ("}" + rest);
      MembersRoundTrip(members[1..], rest);
      MemberRoundTrip(members[0], ", " + tail);
      MembersGoOn(PrintMember(members[0]) + (", " + tail), members[0], tail, members[1..], rest);
    }
  }

  // ----- Printed text has no line breaks

  predicate OneLine(s: string) {
    forall i :: 0 <= i < |s| ==> s[i] != '\n' && s[i] != '\r'
  }

  lemma EscapeIsOneLine(c: char)
    ensures OneLine(Escape(c))
  {
  }

  lemma OneLineConcat(a: string, b: string)
    requires OneLine(a) && OneLine(b)
    ensures OneLine(a + b)
  {
  }

  lemma {:induction false} EscapedIsOneLine(s: string)
    ensures OneLine(Escaped(s))
    decreases |s|
  {
    if s != "" {
      EscapedIsOneLine(s[1..]);
      EscapeIsOneLine(s[0]);
      OneLineConcat(Escape(s[0]), Escaped(s[1..]));
    }
  }

  lemma {:induction false} PrintIsOneLine(v: Value)
    ensures OneLine(Print(v))
    decreases v, 0
  {
    match v
    case Str(text) => EscapedIsOneLine(text);
    case Arr(items) => ItemsAreOneLine(items);
    case Obj(members) => MembersAreOneLine(members);
  }

  lemma {:induction false} ItemsAreOneLine(items: seq<Value>)
    ensures OneLine(PrintItems(items))
    decreases items, 1
  {
    if items != [] {
      PrintIsOneLine(items[0]);
      ItemsAreOneLine(items[1..]);
    }
  }

  lemma {:induction false} MembersAreOneLine(members: seq<Member>)
    ensures OneLine(PrintMembers(members))
    decreases members, 1
  {
    if members != [] {
      EscapedIsOneLine(members[0].name);
      PrintIsOneLine(members[0].value);
      assert OneLine(PrintMember(members[0]));
      MembersAreOneLine(members[1..]);
    }
  }

  // Letter by letter, what json.dumps writes.
  lemma EscapesAsPython(c: char)
    ensures Escape('"') == "\\\"" && Escape('\\') == "\\\\"
    ensures Escape('\n') == "\\n" && Escape('\r') == "\\r" && Escape('\t') == "\\t"
    ensures Escape('\U{8}') == "\\b" && Escape('\U{C}') == "\\f"
    ensures Escape('\0') == "\\u0000" && Escape('\U{1F}') == "\\u001f"
    ensures c >= ' ' && c != '"' && c != '\\' ==> Escape(c) == [c]
    ensures Escaped([c]) == Escape(c)
  {
    assert Escaped([c]) == Escape(c) + Escaped([c][1..]);
  }

  lemma PairPrints(a: Value, b: Value)
    ensures Print(Arr([])) == "[]" && Print(Arr([a])) == "[" + Print(a) + "]"
    ensures Print(Arr([a, b])) == "[" + Print(a) + ", " + Print(b) + "]"
  {
    assert [a, b][1..] == [b];
    assert PrintItems([b]) == Print(b);
  }

  lemma MemberPrints(m: Member)
    ensures Print(Obj([])) == "{}" && Print(Obj([m])) == "{" + (Quoted(m.name) + ": " + Print(m.value)) + "}"
  {
    assert PrintMembers([m]) == PrintMember(m);
  }

  lemma MembersPrint(m: Member, n: Member)
    ensures Print(Obj([m, n])) == "{" + (PrintMember(m) + ", " + PrintMember(n)) + "}"
  {
    assert [m, n][1..] == [n];
    assert PrintMembers([n]) == PrintMember(n);
  }
}
