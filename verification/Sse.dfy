// The summary stream: frames as the service packs them, and an event stream
// parser by sections 9.2.5 and 9.2.6 of the WHATWG HTML Standard.
module Sse {
  import opened Options
  import opened Json

  datatype Event = Event(name: string, data: Value)

  // ----- Printer

  function Pack(e: Event): string {
    "event: " + e.name + "\ndata: " + Print(e.data) + "\n\n"
  }

  function PackAll(events: seq<Event>): string {
    if events == [] then "" else Pack(events[0]) + PackAll(events[1..])
  }

  // ----- Parser

  datatype Message = Message(name: string, data: string)

  datatype Buffer = Buffer(name: string, data: string)

  const CLEAR := Buffer("", "")

  predicate IsBreak(c: char) {
    c == '\n' || c == '\r'
  }

  // How many characters come before the end of the line, or of the text.
  function LineLength(s: string): (n: nat)
    ensures n <= |s|
    ensures forall i :: 0 <= i < n ==> !IsBreak(s[i])
    ensures n < |s| ==> IsBreak(s[n])
  {
    if s == "" || IsBreak(s[0]) then 0 else 1 + LineLength(s[1..])
  }

  // The text after a line of length n: CRLF counts as one line end.
  function AfterLine(s: string, n: nat): string
    requires n < |s|
  {
    if s[n] == '\r' && n + 1 < |s| && s[n + 1] == '\n' then s[n + 2..] else s[n + 1..]
  }

  function ColonAt(line: string): (n: nat)
    ensures n <= |line|
    ensures n < |line| ==> line[n] == ':'
  {
    if line == "" || line[0] == ':' then 0 else 1 + ColonAt(line[1..])
  }

  function FieldValue(line: string, colon: nat): string
    requires colon <= |line|
  {
    if colon == |line| then ""
    else if colon + 1 < |line| && line[colon + 1] == ' ' then line[colon + 2..]
    else line[colon + 1..]
  }

  // Fields other than the event's name and data do not show in a message.
  function Field(line: string, b: Buffer): Buffer {
    var colon := ColonAt(line);
    var value := FieldValue(line, colon);
    if line[..colon] == "event" then b.(name := value)
    else if line[..colon] == "data" then b.(data := b.data + value + "\n")
    else b
  }

  function Dispatch(b: Buffer): seq<Message> {
    if b.data == "" then []
    else
      var data := if b.data[|b.data| - 1] == '\n' then b.data[..|b.data| - 1] else b.data;
      [Message(if b.name == "" then "message" else b.name, data)]
  }

  function Messages(s: string, b: Buffer): seq<Message>
    decreases |s|
  {
    var n := LineLength(s);
    if n == |s| then []  // an unfinished line, or event, is discarded
    else if n == 0 then Dispatch(b) + Messages(AfterLine(s, 0), CLEAR)
    else Messages(AfterLine(s, n), Field(s[..n], b))
  }

  const BOM := '\U{FEFF}'

  function Received(stream: string): seq<Message> {
    Messages(if stream != "" && stream[0] == BOM then stream[1..] else stream, CLEAR)
  }

  function Sent(e: Event): Message {
    Message(e.name, Print(e.data))
  }

  function AllSent(events: seq<Event>): seq<Message> {
    seq(|events|, i requires 0 <= i < |events| => Sent(events[i]))
  }

  // Undoing the JSON of a message's data.
  function Decoded(m: Message): Option<Event> {
    var v := Parse(m.data);
    if v.Some? && v.value.1 == "" then Some(Event(m.name, v.value.0)) else None
  }

  predicate ProperName(name: string) {
    name != "" && OneLine(name)
  }

  // ----- Round trip

  lemma {:induction false} LineEndsAt(line: string, rest: string)
    requires OneLine(line)
    ensures LineLength(line + "\n" + rest) == |line|
    ensures AfterLine(line + "\n" + rest, |line|) == rest
    decreases |line|
  {
    var s := line + "\n" + rest;
    if line != "" {
      assert s[1..] == line[1..] + "\n" + rest;
      LineEndsAt(line[1..], rest);
    }
  }

  lemma {:induction false} ColonFollows(field: string, value: string)
    requires forall i :: 0 <= i < |field| ==> field[i] != ':'
    ensures ColonAt(field + ":" + value) == |field|
    decreases |field|
  {
    if field != "" {
      assert (field + ":" + value)[1..] == field[1..] + ":" + value;
      ColonFollows(field[1..], value);
    }
  }

  lemma FieldReads(field: string, value: string)
    requires forall i :: 0 <= i < |field| ==> field[i] != ':'
    ensures
      var line := field + ": " + value;
      ColonAt(line) == |field| && line[..|field|] == field && FieldValue(line, |field|) == value
  {
    var line := field + ": " + value;
    assert line == field + ":" + (" " + value);
    ColonFollows(field, " " + value);
    assert line[|field| + 2..] == value;
  }

  lemma NameFieldReads(name: string)
    ensures Field("event: " + name, CLEAR) == Buffer(name, "")
  {
    FieldReads("event", name);
    assert "event: " + name == "event" + ": " + name;
  }

  lemma DataFieldReads(name: string, data: string)
    ensures Field("data: " + data, Buffer(name, "")) == Buffer(name, data + "\n")
  {
    FieldReads("data", data);
    assert "data: " + data == "data" + ": " + data;
    assert "" + data + "\n" == data + "\n";
  }

  lemma TextLineReads(line: string, rest: string, b: Buffer, c: Buffer)
    requires line != "" && OneLine(line) && Field(line, b) == c
    ensures Messages(line + "\n" + rest, b) == Messages(rest, c)
  {
    LineEndsAt(line, rest);
    assert (line + "\n" + rest)[..|line|] == line;
  }

  lemma BlankLineReads(rest: string, name: string, data: string)
    requires name != ""
    ensures Messages("\n" + rest, Buffer(name, data + "\n")) == [Message(name, data)] + Messages(rest, CLEAR)
  {
    assert ("\n" + rest)[1..] == rest;
    assert (data + "\n")[..|data + "\n"| - 1] == data;
  }

  lemma LinesRead(first: string, second: string, rest: string, name: string, data: string)
    requires first != "" && OneLine(first) && Field(first, CLEAR) == Buffer(name, "")
    requires second != "" && OneLine(second) && Field(second, Buffer(name, "")) == Buffer(name, data + "\n")
    requires name != ""
    ensures
      Messages(first + "\n" + (second + "\n" + ("\n" + rest)), CLEAR) ==
      [Message(name, data)] + Messages(rest, CLEAR)
  {
    TextLineReads(first, second + "\n" + ("\n" + rest), CLEAR, Buffer(name, ""));
    TextLineReads(second, "\n" + rest, Buffer(name, ""), Buffer(name, data + "\n"));
    BlankLineReads(rest, name, data);
  }

  lemma FrameLines(e: Event, rest: string)
    ensures
      Pack(e) + rest ==
      ("event: " + e.name) + "\n" + (("data: " + Print(e.data)) + "\n" + ("\n" + rest))
  {
  }

  lemma FrameReads(e: Event, rest: string)
    requires ProperName(e.name)
    ensures Messages(Pack(e) + rest, CLEAR) == [Sent(e)] + Messages(rest, CLEAR)
  {
    PrintIsOneLine(e.data);
    NameFieldReads(e.name);
    DataFieldReads(e.name, Print(e.data));
    FrameLines(e, rest);
    LinesRead("event: " + e.name, "data: " + Print(e.data), rest, e.name, Print(e.data));
  }

  lemma {:induction false} FramesRead(events: seq<Event>)
    requires forall i :: 0 <= i < |events| ==> ProperName(events[i].name)
    ensures Messages(PackAll(events), CLEAR) == AllSent(events)
    decreases |events|
  {
    if events != [] {
      FrameReads(events[0], PackAll(events[1..]));
      FramesRead(events[1..]);
      assert AllSent(events) == [Sent(events[0])] + AllSent(events[1..]);
    }
  }

  // A parser never reports an improper name.
  lemma {:induction false} NamesAreProper(s: string, b: Buffer)
    requires OneLine(b.name)
    ensures forall i :: 0 <= i < |Messages(s, b)| ==> ProperName(Messages(s, b)[i].name)
    decreases |s|
  {
    var n := LineLength(s);
    if n < |s| {
      if n == 0 {
        NamesAreProper(AfterLine(s, 0), CLEAR);
      } else {
        assert OneLine(s[..n]);
        NamesAreProper(AfterLine(s, n), Field(s[..n], b));
      }
    }
  }

  // The client receives exactly the events packed, if and only if no name is
  // empty or holds a line break.
  lemma {:induction false} StreamRoundTripIff(events: seq<Event>)
    ensures
      Received(PackAll(events)) == AllSent(events) <==>
      forall i :: 0 <= i < |events| ==> ProperName(events[i].name)
  {
    var stream := PackAll(events);
    assert stream == "" || stream[0] == 'e';
    if forall i :: 0 <= i < |events| ==> ProperName(events[i].name) {
      FramesRead(events);
    }
    NamesAreProper(stream, CLEAR);
    if Messages(stream, CLEAR) == AllSent(events) {
      forall i | 0 <= i < |events| ensures ProperName(events[i].name) {
        assert Messages(stream, CLEAR)[i] == Sent(events[i]);
      }
    }
  }

  lemma PayloadRoundTrip(e: Event)
    ensures Decoded(Sent(e)) == Some(e)
  {
    ValueRoundTrip(e.data, "");
    assert Print(e.data) + "" == Print(e.data);
  }
}
