// Why the fence needs its hypothesis: a run in which a worker, after its
// renewal loop died, reclaims and claims a task it is still working on. Its
// old execution is then let through, and the task ends with the transcript of
// one execution and the summary of another's.
module SelfReclaim {
  import opened Options
  import opened Tasks
  import opened Protocol
  import opened Executions

  const W: WorkerId := "w"
  const OLD: Key := (0, 1)
  const NEW: Key := (0, 2)
  const SUMMARY: Summary := [Json.Member("summary", Json.Str("of the old transcript"))]

  const FIRST: Act := ClaimTasks(Claim({0}, 1, W, 300.0, 0.0))
  const AGAIN: Act := ClaimTasks(Claim({0}, 1, W, 300.0, 301.0))

  // The task's row, its ledger and the live executions, at the joints of the run.

  function RowOf(status: Status, holder: Option<WorkerId>, lease: Option<Time>, transcript: Option<string>,
                 error: Option<string>, retryAt: Time, at: Time, summary: Option<Summary>): Row {
    Row(0, status, 0, holder, retryAt, lease, transcript, error, 0.0, at, summary)
  }

  function At(now: Time, r: Row, claims: nat, transcripts: nat, dones: nat, reclaims: nat,
              live: map<Key, Exec>, answers: set<Answer>): Sys {
    Sys(State(map[0 := r], map[0 := Ledger(claims, transcripts, dones, 0, 0, reclaims, 0, 0.0)], now), live, answers)
  }

  function S0(): Sys { At(0.0, RowOf(Pending, None, None, None, None, 0.0, 0.0, None), 0, 0, 0, 0, map[], {}) }

  function Held(): Row { RowOf(Transcribing, Some(W), Some(300.0), None, None, 0.0, 0.0, None) }

  function S1(now: Time, p: Phase): Sys {
    At(now, Held(), 1, 0, 0, 0, map[OLD := Exec(W, p, false)], {})
  }

  function S2(): Sys {
    At(301.0, RowOf(Pending, None, None, None, Some(""), 301.0, 301.0, None), 1, 0, 0, 1,
       map[OLD := Exec(W, HasTranscript("old"), false)], {})
  }

  function S3(p: Phase): Sys {
    At(301.0, RowOf(Transcribing, Some(W), Some(601.0), None, Some(""), 301.0, 301.0, None), 2, 0, 0, 1,
       map[OLD := Exec(W, HasTranscript("old"), false), NEW := Exec(W, p, false)], {})
  }

  function S4(transcript: string, transcripts: nat, o: Phase, n: Phase, answers: set<Answer>): Sys {
    At(301.0, RowOf(Summarizing, Some(W), Some(601.0), Some(transcript), Some(""), 301.0, 301.0, None),
       2, transcripts, 0, 1, map[OLD := Exec(W, o, false), NEW := Exec(W, n, false)], answers)
  }

  function S5(): Sys {
    At(301.0, RowOf(Done, None, None, Some("new"), None, 301.0, 301.0, Some(SUMMARY)),
       2, 2, 1, 1, map[NEW := Exec(W, InLlm("new"), false)], {Answer(OLD, "old", SUMMARY)})
  }

  lemma Two(maxRetries: nat, a: Act, b: Act, s: Sys, t: Sys, u: Sys) returns (acts: seq<Act>)
    requires Can(maxRetries, a, s) && NoSelfReclaim(a, s) && Do(a, s) == t
    requires Can(maxRetries, b, t) && NoSelfReclaim(b, t) && Do(b, t) == u
    ensures Leads(maxRetries, acts, s, u)
  {
    var first := One(maxRetries, a, s, t);
    var second := One(maxRetries, b, t, u);
    Then(maxRetries, first, second, s, t, u);
    acts := first + second;
  }

  lemma CreateIt(maxRetries: nat) returns (acts: seq<Act>)
    ensures Leads(maxRetries, acts, Idle(0.0), S0())
  {
    acts := One(maxRetries, World(Create(0, 0)), Idle(0.0), S0());
  }

  lemma ClaimIt(maxRetries: nat) returns (acts: seq<Act>)
    ensures Leads(maxRetries, acts, S0(), S1(0.0, Starting))
  {
    ClaimRow();
    ClaimLive();
    acts := One(maxRetries, FIRST, S0(), S1(0.0, Starting));
  }

  lemma ClaimRow()
    ensures Do(FIRST, S0()).base == S1(0.0, Starting).base
  {
    assert Do(FIRST, S0()).base.rows == S1(0.0, Starting).base.rows;
  }

  lemma ClaimLive()
    ensures Do(FIRST, S0()).live == S1(0.0, Starting).live
  {
    assert Claimed(FIRST.claim, S0().base) == {OLD};
  }

  lemma CheckOld(maxRetries: nat) returns (acts: seq<Act>)
    ensures Leads(maxRetries, acts, S1(0.0, Starting), S1(0.0, Entering))
  {
    acts := One(maxRetries, Check(OLD), S1(0.0, Starting), S1(0.0, Entering));
  }

  lemma EnterOld(maxRetries: nat) returns (acts: seq<Act>)
    ensures Leads(maxRetries, acts, S1(0.0, Starting), S1(0.0, InAsr))
  {
    var check := CheckOld(maxRetries);
    var enter := One(maxRetries, Enter(OLD, 300.0), S1(0.0, Entering), S1(0.0, InAsr));
    Then(maxRetries, check, enter, S1(0.0, Starting), S1(0.0, Entering), S1(0.0, InAsr));
    acts := check + enter;
  }

  lemma TranscribeOldAndLapse(maxRetries: nat) returns (acts: seq<Act>)
    ensures Leads(maxRetries, acts, S1(0.0, InAsr), S1(301.0, HasTranscript("old")))
  {
    acts := Two(maxRetries, Transcribe(OLD, "old"), World(Tick(301.0)),
                S1(0.0, InAsr), S1(0.0, HasTranscript("old")), S1(301.0, HasTranscript("old")));
  }

  lemma ReclaimOld(maxRetries: nat) returns (acts: seq<Act>)
    ensures Leads(maxRetries, acts, S1(301.0, HasTranscript("old")), S2())
  {
    acts := One(maxRetries, World(Reclaim({0}, W, false, "", 301.0)), S1(301.0, HasTranscript("old")), S2());
  }

  lemma AgainIsPossible(maxRetries: nat)
    ensures Can(maxRetries, AGAIN, S2()) && !NoSelfReclaim(AGAIN, S2())
  {
    assert OLD in S2().live && S2().live[OLD].worker == W;
  }

  lemma ClaimAgain(maxRetries: nat)
    ensures Can(maxRetries, AGAIN, S2()) && !NoSelfReclaim(AGAIN, S2()) && Do(AGAIN, S2()) == S3(Starting)
  {
    AgainIsPossible(maxRetries);
    AgainRow();
    AgainLive();
  }

  lemma AgainRow()
    ensures Do(AGAIN, S2()).base == S3(Starting).base
  {
    assert Do(AGAIN, S2()).base.rows == S3(Starting).base.rows;
  }

  lemma AgainLive()
    ensures Do(AGAIN, S2()).live == S3(Starting).live
  {
    assert Claimed(AGAIN.claim, S2().base) == {NEW};
  }

  lemma CheckNew(maxRetries: nat) returns (acts: seq<Act>)
    ensures Leads(maxRetries, acts, S3(Starting), S3(Entering))
  {
    acts := One(maxRetries, Check(NEW), S3(Starting), S3(Entering));
  }

  lemma EnterNew(maxRetries: nat) returns (acts: seq<Act>)
    ensures Leads(maxRetries, acts, S3(Starting), S3(InAsr))
  {
    var check := CheckNew(maxRetries);
    var enter := One(maxRetries, Enter(NEW, 300.0), S3(Entering), S3(InAsr));
    Then(maxRetries, check, enter, S3(Starting), S3(Entering), S3(InAsr));
    acts := check + enter;
  }

  lemma TranscribeNew(maxRetries: nat) returns (acts: seq<Act>)
    ensures Leads(maxRetries, acts, S3(InAsr), S3(HasTranscript("new")))
  {
    acts := One(maxRetries, Transcribe(NEW, "new"), S3(InAsr), S3(HasTranscript("new")));
  }

  lemma SaveOldTranscript(maxRetries: nat) returns (acts: seq<Act>)
    ensures Leads(maxRetries, acts, S3(HasTranscript("new")), S4("old", 1, InLlm("old"), HasTranscript("new"), {}))
  {
    OldIsAccepted();
    acts := One(maxRetries, SaveTranscript(OLD), S3(HasTranscript("new")),
                S4("old", 1, InLlm("old"), HasTranscript("new"), {}));
  }

  lemma OldIsAccepted()
    ensures
      Do(SaveTranscript(OLD), S3(HasTranscript("new"))).base == S4("old", 1, InLlm("old"), HasTranscript("new"), {}).base
  {
    var s, t := S3(HasTranscript("new")), S4("old", 1, InLlm("old"), HasTranscript("new"), {});
    assert Do(SaveTranscript(OLD), s).base.rows == t.base.rows;
  }

  lemma SaveNewTranscript(maxRetries: nat) returns (acts: seq<Act>)
    ensures Leads(maxRetries, acts, S4("old", 1, InLlm("old"), HasTranscript("new"), {}),
                  S4("new", 2, InLlm("old"), InLlm("new"), {}))
  {
    acts := One(maxRetries, SaveTranscript(NEW), S4("old", 1, InLlm("old"), HasTranscript("new"), {}),
                S4("new", 2, InLlm("old"), InLlm("new"), {}));
  }

  lemma SummarizeOld(maxRetries: nat) returns (acts: seq<Act>)
    ensures Leads(maxRetries, acts, S4("new", 2, InLlm("old"), InLlm("new"), {}),
                  S4("new", 2, HasSummary("old", SUMMARY), InLlm("new"), {Answer(OLD, "old", SUMMARY)}))
  {
    acts := One(maxRetries, Summarize(OLD, SUMMARY), S4("new", 2, InLlm("old"), InLlm("new"), {}),
                S4("new", 2, HasSummary("old", SUMMARY), InLlm("new"), {Answer(OLD, "old", SUMMARY)}));
  }

  lemma SaveOldSummary(maxRetries: nat) returns (acts: seq<Act>)
    ensures Leads(maxRetries, acts,
                  S4("new", 2, HasSummary("old", SUMMARY), InLlm("new"), {Answer(OLD, "old", SUMMARY)}), S5())
  {
    acts := One(maxRetries, SaveSummary(OLD),
                S4("new", 2, HasSummary("old", SUMMARY), InLlm("new"), {Answer(OLD, "old", SUMMARY)}), S5());
  }

  lemma ToTheLapse(maxRetries: nat) returns (acts: seq<Act>)
    ensures Leads(maxRetries, acts, Idle(0.0), S2())
  {
    var create := CreateIt(maxRetries);
    var claim := ClaimIt(maxRetries);
    Then(maxRetries, create, claim, Idle(0.0), S0(), S1(0.0, Starting));
    var a := create + claim;
    var b := EnterOld(maxRetries);
    var c := TranscribeOldAndLapse(maxRetries);
    var d := ReclaimOld(maxRetries);
    Then(maxRetries, a, b, Idle(0.0), S1(0.0, Starting), S1(0.0, InAsr));
    Then(maxRetries, a + b, c, Idle(0.0), S1(0.0, InAsr), S1(301.0, HasTranscript("old")));
    Then(maxRetries, a + b + c, d, Idle(0.0), S1(301.0, HasTranscript("old")), S2());
    acts := a + b + c + d;
  }

  lemma ToTheTranscripts(maxRetries: nat) returns (acts: seq<Act>)
    ensures Leads(maxRetries, acts, S3(Starting), S4("new", 2, InLlm("old"), InLlm("new"), {}))
  {
    var a := EnterNew(maxRetries);
    var b := TranscribeNew(maxRetries);
    var c := SaveOldTranscript(maxRetries);
    var d := SaveNewTranscript(maxRetries);
    Then(maxRetries, a, b, S3(Starting), S3(InAsr), S3(HasTranscript("new")));
    Then(maxRetries, a + b, c, S3(Starting), S3(HasTranscript("new")), S4("old", 1, InLlm("old"), HasTranscript("new"), {}));
    Then(maxRetries, a + b + c, d, S3(Starting), S4("old", 1, InLlm("old"), HasTranscript("new"), {}),
         S4("new", 2, InLlm("old"), InLlm("new"), {}));
    acts := a + b + c + d;
  }

  lemma ToTheEnd(maxRetries: nat) returns (acts: seq<Act>)
    ensures Leads(maxRetries, acts, S3(Starting), S5())
  {
    var a := ToTheTranscripts(maxRetries);
    var b := SummarizeOld(maxRetries);
    var c := SaveOldSummary(maxRetries);
    var mid := S4("new", 2, HasSummary("old", SUMMARY), InLlm("new"), {Answer(OLD, "old", SUMMARY)});
    Then(maxRetries, a, b, S3(Starting), S4("new", 2, InLlm("old"), InLlm("new"), {}), mid);
    Then(maxRetries, a + b, c, S3(Starting), mid, S5());
    acts := a + b + c;
  }

  // One claim of the run breaks the hypothesis, and the done row then pairs the
  // new transcript with a summary of the old one.
  lemma SelfReclaimMixesResults(maxRetries: nat) returns (before: seq<Act>, after: seq<Act>)
    ensures CanRun(maxRetries, before, Idle(0.0))
    ensures
      var s := DoAll(before, Idle(0.0));
      && Can(maxRetries, AGAIN, s) && !NoSelfReclaim(AGAIN, s)
      && CanRun(maxRetries, after, Do(AGAIN, s))
      && var t := DoAll(after, Do(AGAIN, s));
         && t.base.rows.Keys == {0}
         && t.base.rows[0].status == Done
         && t.base.rows[0].transcript == Some("new")
         && t.base.rows[0].summary == Some(SUMMARY)
         && t.answers == {Answer(OLD, "old", SUMMARY)}
  {
    before := ToTheLapse(maxRetries);
    ClaimAgain(maxRetries);
    after := ToTheEnd(maxRetries);
  }
}
