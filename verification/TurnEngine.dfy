/** The engine's mutable objects: each method realises one function of `Engine`. */
module TurnEngine {
  import opened Basics
  import opened Turns
  import opened Engine
  import opened EngineInvariant

  /** The last view filed under each identity, as the dictionary comprehension builds it. */
  function IndexViews(views: seq<ToolResultView>): (index: map<string, ToolResultView>)
    ensures forall id: string :: (id in index <==> Lookup(views, id).Some?)
    ensures forall id: string | id in index :: Lookup(views, id) == Some(index[id])
  {
    if views == [] then map[] else IndexViews(Front(views))[Last(views).toolCallId := Last(views)]
  }

  class EngineState {
    var request: TurnRequest
    var results: seq<ReportedCall>
    var pending: seq<ToolCall>
    var batches: seq<TurnBatch>
    var plan: Option<TurnPlan>
    var output: Option<string>
    var transcript: seq<Entry>

    constructor (request: TurnRequest, toolResults: seq<ReportedCall>)
      ensures Value() == InitialState(request, toolResults)
    {
      this.request, results, pending, batches := request, toolResults, [], [];
      plan, output := None, None;
      transcript := [Text(TextSegment(User, request.prompt))];
    }

    function Value(): State
      reads this
    {
      State(request, results, pending, batches, plan, output, transcript)
    }

    method BeginToolBatch(proposal: TurnPlan, hexes: seq<string>) returns (r: Result<(), EngineError>)
      requires proposal.ToolTurn? && |hexes| == |proposal.calls|
      modifies this
      ensures var spec := BeginBatch(old(Value()), proposal, hexes);
              if spec.Ok? then r == Ok(()) && Value() == spec.value else r == Raise(spec.error) && Value() == old(Value())
    {
      if pending != [] {
        return Raise(UnfinishedBatch);
      }
      var calls := Identified(proposal.calls, hexes);
      if !AllDifferent(CallIds(calls)) {
        return Raise(DuplicateIdentities);
      }
      plan := Some(proposal.(calls := calls));
      transcript := transcript + [BatchAt(|batches|)];
      batches := batches + [TurnBatch(calls, proposal.reasoning, request.runStep, [])];
      pending := pending + calls;
      return Ok(());
    }

    method AdvanceBatch(call: ToolCall, report: ReportedCall) returns (r: Result<(), EngineError>)
      requires pending != [] ==> batches != []
      modifies this
      ensures var spec := Advance(old(Value()), call, report);
              if spec.Ok? then r == Ok(()) && Value() == spec.value else r == Raise(spec.error) && Value() == old(Value())
    {
      if pending == [] || pending[0] != call {
        return Raise(NotActiveCall);
      }
      if Some(report.toolCallId) != call.toolCallId {
        return Raise(ForeignReport);
      }
      results := results + [report];
      batches := Front(batches) + [WithResult(Last(batches), report)];
      pending := pending[1..];
      request := request.(runStep := request.runStep + 1);
      return Ok(());
    }

    /** Rebuilds the transcript entry by entry, skipping unfinished batches and results without a view. */
    method TranscriptSegments(views: Option<seq<ToolResultView>>) returns (segments: seq<ContextSegment>)
      requires RefersTo(transcript, |batches|)
      requires forall i | 0 <= i < |batches| :: |batches[i].results| <= |batches[i].calls|
      ensures segments == Segments(batches, transcript, views)
    {
      var index := if views.Some? then IndexViews(views.value) else map[];
      segments := [];
      for i := 0 to |transcript|
        invariant segments == Segments(batches, transcript[..i], views)
      {
        assert Front(transcript[..i + 1]) == transcript[..i];
        var entry := transcript[i];
        if entry.Text? {
          segments := segments + [entry.segment];
          continue;
        }
        var batch := batches[entry.index];
        if |batch.results| != |batch.calls| {
          continue;
        }
        ghost var before := segments;
        for j := 0 to |batch.results|
          invariant segments == before + ResultSegments(batch, j, views)
        {
          var call, report := batch.calls[j], batch.results[j];
          var projected := ProjectReport(report);
          if views.Some? {
            if report.toolCallId !in index {
              continue;
            }
            projected := index[report.toolCallId];
          }
          segments := segments + [CallSegment(call), ResultSegment(call, report, projected, batch.reasoning)];
        }
      }
      assert transcript[..|transcript|] == transcript;
    }

    /** Replays the completed part of a seed into the freshly begun batch. */
    method ReplaySeed(reports: seq<ReportedCall>) returns (r: Result<(), EngineError>)
      requires batches != []
      modifies this
      ensures var spec := SeedAll(old(Value()), reports);
              if spec.Ok? then r == Ok(()) && Value() == spec.value else r == Raise(spec.error)
    {
      ghost var start := Value();
      for i := 0 to |reports|
        invariant batches != []
        invariant SeedAll(start, reports[..i]) == Ok(Value())
      {
        assert Front(reports[..i + 1]) == reports[..i];
        var report := reports[i];
        if pending == [] || Some(report.toolCallId) != pending[0].toolCallId {
          SeedPrefixRaises(start, reports, i + 1);
          return Raise(SeedNotPrefix);
        }
        batches := Front(batches) + [WithResult(Last(batches), report)];
        if !HasReport(results, report.toolCallId) {
          results := results + [report];
        }
        pending := pending[1..];
      }
      assert reports[..|reports|] == reports;
      return Ok(());
    }
  }

  lemma {:induction false} SeedPrefixRaises(s: State, reports: seq<ReportedCall>, i: nat)
    requires s.batches != [] && i <= |reports| && SeedAll(s, reports[..i]).Raise?
    ensures SeedAll(s, reports) == SeedAll(s, reports[..i])
    decreases |reports|
  {
    if i < |reports| {
      assert Front(reports)[..i] == reports[..i];
      SeedPrefixRaises(s, Front(reports), i);
    } else {
      assert reports[..i] == reports;
    }
  }

  /** Prepares the state a run starts with. */
  method BeginRun(request: TurnRequest, toolResults: seq<ReportedCall>, seed: Option<CallSeed>, hexes: seq<string>)
    returns (r: Result<TurnRun, EngineError>)
    requires seed.Some? ==> |hexes| == |seed.value.calls|
    ensures var spec := Start(request, toolResults, seed, hexes);
            if spec.Ok? then r.Ok? && fresh(r.value) && fresh(r.value.state) && r.value.Here() == spec.value
            else r == Raise(spec.error)
  {
    var state := new EngineState(request, toolResults);
    if seed.Some? {
      if seed.value.runStep.Some? {
        state.request := state.request.(runStep := seed.value.runStep.value);
      }
      if seed.value.calls == [] {
        return Raise(EmptyToolTurn);
      }
      var begun := state.BeginToolBatch(ToolTurn(seed.value.calls, [], seed.value.reasoning), hexes);
      if begun.Raise? {
        return Raise(begun.error);
      }
      var replayed := state.ReplaySeed(seed.value.completedReports);
      if replayed.Raise? {
        return Raise(replayed.error);
      }
      state.request := state.request.(runStep := state.request.runStep + |seed.value.completedReports|);
      state.plan := if state.pending != [] then Some(ToolTurn(state.pending, [], seed.value.reasoning)) else None;
    }
    var run := new TurnRun(state);
    return Ok(run);
  }

  /** The suspended generator: a state, and the question it waits on. */
  class TurnRun {
    const state: EngineState
    var pc: Pc

    constructor (state: EngineState)
      ensures this.state == state && pc == Top
    {
      this.state := state;
      pc := Top;
    }

    function Here(): Machine
      reads this, state
    {
      Machine(state.Value(), pc)
    }

    /** Continues with the host's answer up to the next question. */
    method Resume(a: Answer)
      requires Inv(Here()) && Allowed(pc, a)
      modifies this, state
      ensures Here() == Step(old(Here()), a)
      ensures Inv(Here())
    {
      StepKeeps(Here(), a);
      if a.HostFails? {
        pc := Failed(HostRaised);
        return;
      }
      if a.Signal? && a.cancelled {
        pc := Finished(Aborted);
        return;
      }
      match pc {
        case Top =>
          pc := if state.pending == [] then AwaitSteering else AwaitPrepare;
        case AwaitSteering =>
          if a.messages != [] {
            state.request := state.request.(prompt := AppendMessages(state.request.prompt, a.messages));
            state.transcript := state.transcript + [Text(TextSegment(User, Join(a.messages)))];
          }
          pc := AwaitPrepare;
        case AwaitPrepare =>
          if a.request.None? {
            pc := Finished(Stopped);
          } else {
            state.request := a.request.value;
            pc := CheckPrepared;
          }
        case CheckPrepared =>
          if state.pending == [] {
            pc := AwaitInvoke;
          } else {
            pc := AwaitObserve(state.plan.value);
          }
        case AwaitInvoke =>
          Invoke(a);
        case AwaitObserve(plan) =>
          pc := if a.go then CheckObserved(plan) else Finished(Stopped);
        case CheckObserved(plan) =>
          if plan.FinalTurn? {
            state.transcript := state.transcript + [Text(TextSegment(Assistant, plan.output))];
            pc := AwaitFollowup(plan);
          } else {
            pc := AwaitExecute(state.pending[0]);
          }
        case AwaitFollowup(plan) =>
          if a.messages != [] {
            state.transcript := state.transcript + [Text(TextSegment(User, Join(a.messages)))];
            state.request := state.request.(
              prompt := AppendMessages(state.request.prompt, a.messages),
              runStep := state.request.runStep + 1);
            pc := Top;
          } else {
            pc := AwaitFinish(plan);
          }
        case AwaitFinish(plan) =>
          pc := CheckFinished(plan, a.prompt);
        case CheckFinished(plan, continuation) =>
          if continuation.Some? {
            if continuation.value != state.request.prompt {
              state.transcript := state.transcript + [Text(TextSegment(User, continuation.value))];
            }
            state.request := state.request.(prompt := continuation.value, runStep := state.request.runStep + 1);
            pc := Top;
          } else {
            state.output := Some(plan.output);
            pc := Finished(Completed);
          }
        case AwaitExecute(call) =>
          Execute(call, a.outcome);
        case CheckExecuted(outcome) =>
          if outcome.CallStoppedBeforeReport? || outcome.CallStoppedAfterReport? {
            pc := Finished(Stopped);
          } else {
            state.plan := if state.pending != []
              then Some(ToolTurn([state.pending[0]], [], Last(state.batches).reasoning)) else None;
            pc := Top;
          }
      }
    }

    method Invoke(a: Answer)
      requires Inv(Here()) && pc.AwaitInvoke? && a.Invoked? && Allowed(pc, a)
      modifies this, state
      ensures Here() == Step(old(Here()), a)
    {
      if a.proposal.None? {
        pc := Finished(Stopped);
        return;
      }
      var plan := a.proposal.value;
      if plan.ToolTurn? {
        var begun := state.BeginToolBatch(plan, a.hexes);
        if begun.Raise? {
          pc := Failed(begun.error);
          return;
        }
        plan := state.plan.value;
      }
      pc := AwaitObserve(plan);
    }

    method Execute(call: ToolCall, outcome: Outcome)
      requires Inv(Here()) && pc == AwaitExecute(call)
      modifies this, state
      ensures Here() == Step(old(Here()), Executed(outcome))
    {
      if outcome.CallPaused? {
        pc := Finished(Paused);
        return;
      }
      if outcome.CallReported? || outcome.CallStoppedAfterReport? {
        var advanced := state.AdvanceBatch(call, outcome.report);
        if advanced.Raise? {
          pc := Failed(advanced.error);
          return;
        }
      }
      pc := CheckExecuted(outcome);
    }

    /** Drives the run through the host's answers for as long as they fit its questions. */
    method Drive(answers: seq<Answer>) returns (used: nat)
      requires Inv(Here())
      modifies this, state
      ensures used <= |answers| && (used < |answers| ==> !Allowed(pc, answers[used]))
      ensures Here() == Play(old(Here()), answers)
      ensures Inv(Here())
    {
      used := 0;
      while used < |answers| && Allowed(pc, answers[used])
        invariant used <= |answers| && Inv(Here())
        invariant Play(old(Here()), answers) == Play(Here(), answers[used..])
      {
        StepKeeps(Here(), answers[used]);
        assert answers[used..][1..] == answers[used + 1..];
        Resume(answers[used]);
        used := used + 1;
      }
    }
  }
}
