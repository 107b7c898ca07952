/** A run in which the producer reuses an identity, and the transcript that its host then prepares. */
module ReusedIdentity {
  import opened Basics
  import opened Turns
  import opened Engine
  import opened EngineInvariant
  import opened Transcript
  import opened Likeness
  import opened HostedInvariant

  /** A call that is executed as a batch of its own. */
  ghost predicate Exchanged(n: Machine, end: Machine, call: ToolCall, report: ReportedCall) {
    && Inv(end) && end.pc == Top && end.state.pending == []
    && end.state.batches == n.state.batches + [TurnBatch([call], None, n.state.request.runStep, [report])]
    && end.state.results == n.state.results + [report]
    && end.state.transcript == n.state.transcript + [BatchAt(|n.state.batches|)]
  }

  function Turn(call: ToolCall): TurnPlan {
    ToolTurn([call], [], None)
  }

  lemma Begins(s: State, call: ToolCall) returns (begun: State)
    requires s.pending == [] && call.toolCallId.Some?
    ensures BeginBatch(s, Turn(call), [""]) == Ok(begun) && begun.pending == [call] && begun.plan == Some(Turn(call))
    ensures begun == s.(plan := begun.plan, pending := begun.pending, batches := s.batches + [TurnBatch([call], None, s.request.runStep, [])],
                        transcript := s.transcript + [BatchAt(|s.batches|)])
  {
    IdentifiedIsSame([call], [""]);
    begun := BeginBatch(s, Turn(call), [""]).value;
  }

  /** The answers of the host up to the execution of the call. */
  function Leading(n: Machine, call: ToolCall): seq<Answer> {
    ToPlan(n) + [Invoked(Some(Turn(call)), [""])] + [Observed(true)] + [Signal(false)]
  }

  lemma ReachesCall(n: Machine, call: ToolCall, begun: State)
    requires Inv(n) && n.pc == Top && n.state.pending == [] && BeginBatch(n.state, Turn(call), [""]) == Ok(begun)
    requires begun.pending == [call] && begun.plan == Some(Turn(call))
    ensures Reaches(n, Leading(n, call), Machine(begun, AwaitExecute(call))) && Inv(Machine(begun, AwaitExecute(call)))
  {
    var led := ToPlan(n) + [Invoked(Some(Turn(call)), [""])];
    ReachesPlan(n);
    ReachesNext(n, ToPlan(n), Machine(n.state, AwaitInvoke), Invoked(Some(Turn(call)), [""]), Machine(begun, AwaitObserve(Turn(call))));
    ReachesNext(n, led, Machine(begun, AwaitObserve(Turn(call))), Observed(true), Machine(begun, CheckObserved(Turn(call))));
    ReachesNext(n, led + [Observed(true)], Machine(begun, CheckObserved(Turn(call))), Signal(false), Machine(begun, AwaitExecute(call)));
  }

  lemma Executes(k: Machine, call: ToolCall, report: ReportedCall) returns (end: Machine)
    requires Inv(k) && k.pc == AwaitExecute(call) && k.state.pending == [call] && k.state.batches != []
    requires call.toolCallId == Some(report.toolCallId)
    ensures Inv(end) && PlaysTo(k, [Executed(CallReported(report)), Signal(false)], end, [call])
    ensures end.pc == Top && end.state.pending == [] && end.state.results == k.state.results + [report]
    ensures end.state.batches == Front(k.state.batches) + [WithResult(Last(k.state.batches), report)]
    ensures end.state.transcript == k.state.transcript
  {
    var advanced := Advance(k.state, call, report).value;
    var taken := Machine(advanced, CheckExecuted(CallReported(report)));
    StepKeeps(k, Executed(CallReported(report)));
    end := Machine(advanced.(plan := None), Top);
    TwoAnswers(k, Executed(CallReported(report)), taken, Signal(false), end);
  }

  lemma Exchange(n: Machine, call: ToolCall, report: ReportedCall) returns (answers: seq<Answer>, end: Machine)
    requires Inv(n) && n.pc == Top && n.state.pending == [] && call.toolCallId == Some(report.toolCallId)
    ensures PlaysTo(n, answers, end, [call]) && Exchanged(n, end, call, report)
  {
    var begun := Begins(n.state, call);
    ReachesCall(n, call, begun);
    var k := Machine(begun, AwaitExecute(call));
    end := Executes(k, call, report);
    var done := [Executed(CallReported(report)), Signal(false)];
    answers := Leading(n, call) + done;
    Sequel(n, Leading(n, call), k, [], done, end, [call]);
    assert [] + [call] == [call];
    AnsweredAlone(n.state.batches, TurnBatch([call], None, n.state.request.runStep, []), report);
  }

  lemma AnsweredAlone(before: seq<TurnBatch>, b: TurnBatch, report: ReportedCall)
    requires b.results == []
    ensures var batches := before + [b];
            Front(batches) + [WithResult(Last(batches), report)] == before + [b.(results := [report])]
  {
    assert Front(before + [b]) == before;
    assert [] + [report] == [report];
  }

  lemma Begun(request: TurnRequest)
    ensures Start(request, [], None, []) == Ok(Machine(InitialState(request, []), Top)) && Inv(Machine(InitialState(request, []), Top))
  {
    StartInv(request, [], None, []);
  }

  /** What the host prepares from the results of a run leaves something out, or shows it otherwise than it was. */
  ghost predicate Misled(s: State) {
    RefersTo(s.transcript, |s.batches|)
    && Segments(s.batches, s.transcript, Some(ProjectAll(s.results))) != Segments(s.batches, s.transcript, None)
  }

  /** A run whose producer reuses an identity: the older exchange is shown with the newer result. */
  lemma ReusedIdentityMisleads(request: TurnRequest, call: ToolCall, first: ReportedCall, second: ReportedCall)
    returns (answers: seq<Answer>, end: Machine)
    requires first.toolCallId == second.toolCallId && call.toolCallId == Some(first.toolCallId)
    requires Visible(ProjectReport(first)) != Visible(ProjectReport(second))
    ensures Start(request, [], None, []).Ok? && Inv(Start(request, [], None, []).value)
    ensures PlaysTo(Start(request, [], None, []).value, answers, end, [call, call]) && Misled(end.state)
  {
    Begun(request);
    var m := Start(request, [], None, []).value;
    var a, between := Exchange(m, call, first);
    var b, last := Exchange(between, call, second);
    answers, end := a + b, last;
    Sequel(m, a, between, [call], b, end, [call]);
    assert [call] + [call] == [call, call];
    TwoMislead(end.state, first, second, TurnBatch([call], None, m.state.request.runStep, [first]));
  }

  lemma TwoMislead(s: State, first: ReportedCall, second: ReportedCall, b: TurnBatch)
    requires RefersTo(s.transcript, |s.batches|) && s.results == [first, second]
    requires |s.transcript| == 3 && s.transcript[1] == BatchAt(0) && s.batches != [] && s.batches[0] == b
    requires Complete(b) && b.results == [first]
    requires first.toolCallId == second.toolCallId && Visible(ProjectReport(first)) != Visible(ProjectReport(second))
    ensures Misled(s)
  {
    var views := ProjectAll(s.results);
    assert Last(views) == ProjectReport(second);
    assert !ShowsItself(b.results[0], views);
    assert !EntryShowsItself(s.batches, s.transcript[1], views);
    FilterExact(s.batches, s.transcript, views);
  }
}
