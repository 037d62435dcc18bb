// The summary of a recording, as the detail endpoint shows it and as the stream
// endpoint replays it.
module SummaryStream {
  import opened Options
  import opened Json
  import opened Sse
  import opened Tasks
  import opened Protocol

  // ----- Which results a reader gets to see

  datatype Detail = Detail(status: Status, errorMsg: Option<string>, transcript: Option<string>, summary: Option<Summary>)

  function ToDetail(r: Row): Detail {
    var done := r.status == Done;
    Detail(r.status, r.errorMsg, if done then r.transcript else None, if done then r.summary else None)
  }

  datatype StreamContext = StreamContext(transcript: string, existing: Option<Summary>)

  datatype StreamError = RecordingNotFound | TaskNotFound | NoTranscript | NoLlm

  // What Python's str.strip takes for white space.
  predicate IsBlank(c: char) {
    || '\t' <= c <= '\r' || '\U{1C}' <= c <= ' ' || c == '\U{85}' || c == '\U{A0}' || c == '\U{1680}'
    || '\U{2000}' <= c <= '\U{200A}' || c == '\U{2028}' || c == '\U{2029}' || c == '\U{202F}'
    || c == '\U{205F}' || c == '\U{3000}'
  }

  function Strip(s: string): string {
    if s != "" && IsBlank(s[0]) then Strip(s[1..])
    else if s != "" && IsBlank(s[|s| - 1]) then Strip(s[..|s| - 1])
    else s
  }

  function OrEmpty(s: Option<string>): string {
    if s.Some? then s.value else ""
  }

  // An empty dictionary counts as no summary.
  function Stored(r: Row): Option<Summary> {
    if r.summary.Some? && r.summary.value != [] then r.summary else None
  }

  function PrepareStream(recordingExists: bool, task: Option<Row>, canStream: bool): Result<StreamContext, StreamError> {
    if !recordingExists then Err(RecordingNotFound)
    else if task == None then Err(TaskNotFound)
    else
      var r := task.value;
      if Stored(r).Some? && r.status == Done then Ok(StreamContext(OrEmpty(r.transcript), Stored(r)))
      else if Strip(OrEmpty(r.transcript)) == "" then Err(NoTranscript)
      else if !canStream then Err(NoLlm)
      else Ok(StreamContext(Strip(OrEmpty(r.transcript)), None))
  }

  // The detail tells status and error always, results only of a done task.
  lemma DetailShows(r: Row)
    ensures ToDetail(r).status == r.status && ToDetail(r).errorMsg == r.errorMsg
    ensures r.status == Done ==> ToDetail(r).transcript == r.transcript && ToDetail(r).summary == r.summary
    ensures r.status != Done ==> ToDetail(r).transcript == None && ToDetail(r).summary == None
  {
  }

  predicate AllBlank(s: string) {
    forall i :: 0 <= i < |s| ==> IsBlank(s[i])
  }

  // `t` is s without the blanks around it.
  ghost predicate IsTrimmed(s: string, t: string) {
    && (exists before, after :: AllBlank(before) && AllBlank(after) && before + t + after == s)
    && (t != "" ==> !IsBlank(t[0]) && !IsBlank(t[|t| - 1]))
  }

  lemma BlankBefore(c: char, s: string, t: string)
    requires IsBlank(c) && IsTrimmed(s, t)
    ensures IsTrimmed([c] + s, t) && (AllBlank([c] + s) <==> AllBlank(s))
  {
    var before, after :| AllBlank(before) && AllBlank(after) && before + t + after == s;
    assert AllBlank([c] + before) && ([c] + before) + t + after == [c] + s;
    if AllBlank([c] + s) {
      assert forall i :: 0 <= i < |s| ==> s[i] == ([c] + s)[i + 1];
    }
  }

  lemma BlankAfter(s: string, c: char, t: string)
    requires IsBlank(c) && IsTrimmed(s, t)
    ensures IsTrimmed(s + [c], t) && (AllBlank(s + [c]) <==> AllBlank(s))
  {
    var before, after :| AllBlank(before) && AllBlank(after) && before + t + after == s;
    assert AllBlank(after + [c]) && before + t + (after + [c]) == s + [c];
    if AllBlank(s + [c]) {
      assert forall i :: 0 <= i < |s| ==> s[i] == (s + [c])[i];
    }
  }

  lemma {:induction false} StripTrims(s: string)
    ensures IsTrimmed(s, Strip(s)) && (Strip(s) == "" <==> AllBlank(s))
    decreases |s|
  {
    if s != "" && IsBlank(s[0]) {
      StripTrims(s[1..]);
      BlankBefore(s[0], s[1..], Strip(s[1..]));
      assert [s[0]] + s[1..] == s;
    } else if s != "" && IsBlank(s[|s| - 1]) {
      StripTrims(s[..|s| - 1]);
      BlankAfter(s[..|s| - 1], s[|s| - 1], Strip(s[..|s| - 1]));
      assert s[..|s| - 1] + [s[|s| - 1]] == s;
    } else {
      assert AllBlank("") && "" + s + "" == s;
    }
  }

  // A stored result is replayed with the row's transcript; otherwise a summary is
  // generated from the transcript, trimmed; each error has its own cause.
  lemma StreamPrepared(recordingExists: bool, task: Option<Row>, canStream: bool)
    ensures
      var c := PrepareStream(recordingExists, task, canStream);
      && (c == Err(RecordingNotFound) <==> !recordingExists)
      && (c == Err(TaskNotFound) <==> recordingExists && task == None)
    ensures recordingExists && task.Some? ==>
      var r, c := task.value, PrepareStream(recordingExists, task, canStream);
      var transcript := if r.transcript.Some? then r.transcript.value else "";
      if r.status == Done && r.summary.Some? && r.summary.value != [] then
        c == Ok(StreamContext(transcript, r.summary))
      else
        && (c == Err(NoTranscript) <==> AllBlank(transcript))
        && (c == Err(NoLlm) <==> !AllBlank(transcript) && !canStream)
        && (c.Ok? <==> !AllBlank(transcript) && canStream)
        && (c.Ok? ==> c.value.existing == None && c.value.transcript != "" && IsTrimmed(transcript, c.value.transcript))
  {
    if task.Some? {
      StripTrims(OrEmpty(task.value.transcript));
    }
  }

  // The two endpoints never disagree, in any reachable state: the stream
  // replays exactly when the detail shows a summary, and replays that one.
  lemma {:induction false} ReplayIffDetailShows(
    maxRetries: nat, ops: seq<Op>, start: Time, id: TaskId, canStream: bool)
    requires LegalRun(maxRetries, ops, Empty(start)) && id in Run(ops, Empty(start)).rows
    ensures
      var r := Run(ops, Empty(start)).rows[id];
      var c := PrepareStream(true, Some(r), canStream);
      && ((c.Ok? && c.value.existing.Some?) <==> ToDetail(r).summary.Some?)
      && (c.Ok? && c.value.existing.Some? ==> c.value.existing == ToDetail(r).summary)
      && (c.Ok? && c.value.existing == None ==> c.value.transcript != "" && ToDetail(r).transcript == None)
  {
    InvRun(maxRetries, ops, Empty(start));
  }

  // ----- Replay

  datatype ServiceEvent =
    | Delta(text: string)
    | Finish(summary: Summary)
    | Error(message: string)
    | Other(name: string, payload: Value)

  const REPLAY_CHUNK := 16

  function Wire(e: ServiceEvent): Event {
    match e
    case Delta(text) => Event("delta", Obj([Member("text", Str(text))]))
    case Finish(summary) => Event("done", Obj(summary))
    case Error(message) => Event("error", Obj([Member("message", Str(message))]))
    case Other(name, payload) => Event(name, payload)
  }

  function Wired(events: seq<ServiceEvent>): seq<Event> {
    seq(|events|, i requires 0 <= i < |events| => Wire(events[i]))
  }

  function Texts(events: seq<ServiceEvent>): string {
    if events == [] then ""
    else (if events[0].Delta? then events[0].text else "") + Texts(events[1..])
  }

  // Deltas whose texts make up the stored JSON, all but the last of them full,
  // then the summary itself.
  ghost predicate IsReplay(summary: Summary, events: seq<ServiceEvent>) {
    var deltas := |events| - 1;
    && deltas >= 0 && events[deltas] == Finish(summary)
    && (forall i :: 0 <= i < deltas ==> events[i].Delta? && 0 < |events[i].text| <= 16)
    && (forall i :: 0 <= i < deltas - 1 ==> |events[i].text| == 16)
    && Texts(events) == Print(Obj(summary))
  }

  lemma {:induction false} TextsAppend(events: seq<ServiceEvent>, e: ServiceEvent)
    ensures Texts(events + [e]) == Texts(events) + (if e.Delta? then e.text else "")
    decreases |events|
  {
    if events == [] {
      assert events + [e] == [e];
    } else {
      var all := events + [e];
      assert all[0] == events[0] && all[1..] == events[1..] + [e];
      TextsAppend(events[1..], e);
      assert Texts(all) == (if all[0].Delta? then all[0].text else "") + Texts(all[1..]);
    }
  }

  method ReplayStoredSummary(summary: Summary) returns (events: seq<ServiceEvent>)
    ensures IsReplay(summary, events)
    ensures |events| - 1 == (|Print(Obj(summary))| + 15) / 16
  {
    var raw := Print(Obj(summary));
    events := [];
    var i := 0;
    while i < |raw|
      invariant 0 <= i <= |raw| && (i < |raw| ==> i == REPLAY_CHUNK * |events|)
      invariant |events| == (i + REPLAY_CHUNK - 1) / REPLAY_CHUNK
      invariant forall j :: 0 <= j < |events| ==> events[j].Delta? && 0 < |events[j].text| <= REPLAY_CHUNK
      invariant forall j :: 0 <= j < |events| && (i < |raw| || j < |events| - 1) ==> |events[j].text| == REPLAY_CHUNK
      invariant Texts(events) == raw[..i]
    {
      var next := if i + REPLAY_CHUNK <= |raw| then i + REPLAY_CHUNK else |raw|;
      TextsAppend(events, Delta(raw[i..next]));
      assert raw[..next] == raw[..i] + raw[i..next];
      events := events + [Delta(raw[i..next])];
      i := next;
    }
    assert raw[..i] == raw;
    TextsAppend(events, Finish(summary));
    events := events + [Finish(summary)];
  }

  // The response body; the client may hang up before any event.
  method EventSource(events: seq<ServiceEvent>, hangUp: Option<nat>) returns (body: string, sent: nat)
    ensures sent == (if hangUp.Some? && hangUp.value < |events| then hangUp.value else |events|)
    ensures body == PackAll(Wired(events[..sent]))
  {
    body := "";
    sent := 0;
    while sent < |events| && hangUp != Some(sent)
      invariant 0 <= sent <= |events| && (hangUp.Some? ==> sent <= hangUp.value)
      invariant body == PackAll(Wired(events[..sent]))
    {
      PackOneMore(events, sent);
      body := body + Pack(Wire(events[sent]));
      sent := sent + 1;
    }
  }

  lemma {:induction false} PackAppend(events: seq<Event>, e: Event)
    ensures PackAll(events + [e]) == PackAll(events) + Pack(e)
    decreases |events|
  {
    if events == [] {
      assert events + [e] == [e];
    } else {
      assert (events + [e])[1..] == events[1..] + [e];
      PackAppend(events[1..], e);
    }
  }

  lemma PackOneMore(events: seq<ServiceEvent>, n: nat)
    requires n < |events|
    ensures PackAll(Wired(events[..n + 1])) == PackAll(Wired(events[..n])) + Pack(Wire(events[n]))
  {
    assert Wired(events[..n + 1]) == Wired(events[..n]) + [Wire(events[n])];
    PackAppend(Wired(events[..n]), Wire(events[n]));
  }

  // ----- What the client makes of it

  function TextOf(m: Message): string {
    var e := Decoded(m);
    if m.name == "delta" && e.Some? && e.value.data.Obj? && |e.value.data.members| == 1 &&
       e.value.data.members[0].name == "text" && e.value.data.members[0].value.Str?
    then e.value.data.members[0].value.text
    else ""
  }

  function ClientText(ms: seq<Message>): string {
    if ms == [] then "" else TextOf(ms[0]) + ClientText(ms[1..])
  }

  // What arrives before the client hangs up is a prefix of the events, intact.
  lemma PrefixReachesClient(events: seq<ServiceEvent>, sent: nat)
    requires sent <= |events|
    requires forall i :: 0 <= i < |events| ==> ProperName(Wire(events[i]).name)
    ensures
      var ms := Received(PackAll(Wired(events[..sent])));
      && |ms| == sent
      && forall i :: 0 <= i < sent ==> ms[i] == Sent(Wire(events[i])) && Decoded(ms[i]) == Some(Wire(events[i]))
  {
    StreamRoundTripIff(Wired(events[..sent]));
    forall i | 0 <= i < sent ensures Decoded(Sent(Wire(events[i]))) == Some(Wire(events[i])) {
      PayloadRoundTrip(Wire(events[i]));
    }
  }

  lemma {:induction false} ClientTextIsTexts(events: seq<ServiceEvent>)
    requires forall i :: 0 <= i < |events| ==> events[i].Delta? || events[i].Finish?
    ensures ClientText(AllSent(Wired(events))) == Texts(events)
    decreases |events|
  {
    if events != [] {
      ClientTextIsTexts(events[1..]);
      assert AllSent(Wired(events))[1..] == AllSent(Wired(events[1..]));
      PayloadRoundTrip(Wire(events[0]));
    }
  }

  // A full replay gives the client the stored summary twice over: as text to
  // show while it arrives, and as the final payload.
  lemma ReplayReachesClient(summary: Summary, events: seq<ServiceEvent>)
    requires IsReplay(summary, events)
    ensures
      var ms := Received(PackAll(Wired(events)));
      && |ms| == |events|
      && ClientText(ms) == Print(Obj(summary))
      && Parse(ClientText(ms)) == Some((Obj(summary), ""))
      && Decoded(ms[|ms| - 1]) == Some(Event("done", Obj(summary)))
  {
    assert ProperName("delta") && ProperName("done");
    StreamRoundTripIff(Wired(events));
    ClientTextIsTexts(events);
    ValueRoundTrip(Obj(summary), "");
    assert Print(Obj(summary)) + "" == Print(Obj(summary));
    PayloadRoundTrip(Wire(events[|events| - 1]));
  }

  // What a client decodes from each event, alone in the body.
  lemma EventReachesClient(e: ServiceEvent)
    requires e.Other? ==> ProperName(e.name)
    ensures
      var ms := Received(Pack(Wire(e)));
      && |ms| == 1
      && Decoded(ms[0]) == Some(
           match e
           case Delta(text) => Event("delta", Obj([Member("text", Str(text))]))
           case Finish(summary) => Event("done", Obj(summary))
           case Error(message) => Event("error", Obj([Member("message", Str(message))]))
           case Other(name, payload) => Event(name, payload))
  {
    assert PackAll([Wire(e)]) == Pack(Wire(e)) + PackAll([Wire(e)][1..]);
    assert PackAll([Wire(e)][1..]) == "" && Pack(Wire(e)) + "" == Pack(Wire(e));
    assert ProperName("delta") && ProperName("done") && ProperName("error");
    StreamRoundTripIff([Wire(e)]);
    PayloadRoundTrip(Wire(e));
  }
}
