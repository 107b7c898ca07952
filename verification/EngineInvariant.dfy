/** What holds of a run at every point, whatever its host answers. */
module EngineInvariant {
  import opened Basics
  import opened Turns
  import opened Engine

  // ---- The invariant ----

  /** A batch has distinct identities and its results answer its first calls in order. */
  ghost predicate BatchOk(b: TurnBatch) {
    && b.calls != []
    && (forall i | 0 <= i < |b.calls| :: b.calls[i].toolCallId.Some?)
    && AllDifferent(CallIds(b.calls))
    && IsIdPrefix(b.results, b.calls)
  }

  function Remaining(b: TurnBatch): seq<ToolCall>
    requires |b.results| <= |b.calls|
  {
    b.calls[|b.results|..]
  }

  ghost predicate BatchesOk(batches: seq<TurnBatch>) {
    && (forall i | 0 <= i < |batches| :: BatchOk(batches[i]))
    && (forall i | 0 <= i < |batches| - 1 :: Complete(batches[i]))
  }

  /** Pending is exactly what the last batch still has to answer. */
  ghost predicate PendingOk(s: State)
    requires BatchesOk(s.batches)
  {
    s.pending == if s.batches == [] then [] else Remaining(Last(s.batches))
  }

  /** The batch entries of a transcript, in order. */
  function BatchEntries(transcript: seq<Entry>): seq<nat> {
    if transcript == [] then []
    else if Last(transcript).BatchAt? then BatchEntries(Front(transcript)) + [Last(transcript).index]
    else BatchEntries(Front(transcript))
  }

  function UpTo(n: nat): seq<nat> {
    seq(n, i => i)
  }

  /** Every batch is entered once, in order, and an unfinished one is the last entry of all. */
  ghost predicate TranscriptOk(s: State) {
    && BatchEntries(s.transcript) == UpTo(|s.batches|)
    && RefersTo(s.transcript, |s.batches|)
    && (s.pending != [] ==> s.batches != [] && s.transcript != [] && Last(s.transcript) == BatchAt(|s.batches| - 1))
  }

  /** The current plan is a tool turn that starts with the next pending call. */
  ghost predicate PlanHeadsPending(s: State) {
    s.pending != [] ==>
      s.plan.Some? && s.plan.value.ToolTurn? && s.plan.value.calls != [] && s.plan.value.calls[0] == s.pending[0]
  }

  ghost predicate PlanInHand(s: State, plan: TurnPlan) {
    if plan.FinalTurn? then s.pending == []
    else s.pending != [] && s.plan == Some(plan) && plan.calls != [] && plan.calls[0] == s.pending[0]
  }

  ghost predicate AtPc(s: State, pc: Pc) {
    match pc
    case Top | AwaitPrepare | CheckPrepared => PlanHeadsPending(s)
    case AwaitSteering | AwaitInvoke => s.pending == []
    case AwaitObserve(plan) => PlanInHand(s, plan)
    case CheckObserved(plan) => PlanInHand(s, plan)
    case AwaitFollowup(plan) => plan.FinalTurn? && s.pending == []
    case AwaitFinish(plan) => plan.FinalTurn? && s.pending == []
    case CheckFinished(plan, _) => plan.FinalTurn? && s.pending == []
    case AwaitExecute(call) => s.pending != [] && call == s.pending[0]
    case CheckExecuted(outcome) => !outcome.CallPaused?
    case Finished(status) => (status == Completed ==> s.pending == []) && (status == Paused ==> s.pending != [])
    // The assertions of the engine never fail; only the host, duplicate identities or a foreign report end a run.
    case Failed(error) => error in {HostRaised, DuplicateIdentities, ForeignReport}
  }

  ghost predicate Inv(m: Machine) {
    && BatchesOk(m.state.batches)
    && PendingOk(m.state)
    && TranscriptOk(m.state)
    && AtPc(m.state, m.pc)
  }

  // ---- It holds from the start and is kept by every answer ----

  lemma SayKeepsTranscript(s: State, role: Role, text: string)
    requires TranscriptOk(s) && s.pending == []
    ensures TranscriptOk(Say(s, role, text))
  {
    assert Front(Say(s, role, text).transcript) == s.transcript;
  }

  lemma BeginBatchKeeps(s: State, plan: TurnPlan, hexes: seq<string>)
    requires plan.ToolTurn? && plan.calls != [] && |hexes| == |plan.calls|
    requires BatchesOk(s.batches) && PendingOk(s) && TranscriptOk(s) && s.pending == []
    requires BeginBatch(s, plan, hexes).Ok?
    ensures var t := BeginBatch(s, plan, hexes).value;
            BatchesOk(t.batches) && PendingOk(t) && TranscriptOk(t) && PlanInHand(t, t.plan.value)
  {
    var t := BeginBatch(s, plan, hexes).value;
    assert Front(t.transcript) == s.transcript && Front(t.batches) == s.batches;
    assert Last(t.batches).results == [] && Remaining(Last(t.batches)) == t.pending;
    assert BatchOk(Last(t.batches)) by {
      assert ReportIds([]) == CallIds(Last(t.batches).calls)[..0];
    }
    assert UpTo(|t.batches|) == UpTo(|s.batches|) + [|s.batches|];
  }

  /** Recording the answer of the next pending call keeps the batches in order. */
  lemma WithResultKeeps(s: State, report: ReportedCall)
    requires BatchesOk(s.batches) && PendingOk(s) && s.pending != []
    requires Some(report.toolCallId) == s.pending[0].toolCallId
    ensures var batches := Front(s.batches) + [WithResult(Last(s.batches), report)];
            BatchesOk(batches) && Remaining(Last(batches)) == s.pending[1..]
  {
    var old_ := Last(s.batches);
    var batches := Front(s.batches) + [WithResult(old_, report)];
    var n := |old_.results|;
    assert ReportIds(old_.results + [report]) == CallIds(old_.calls)[..n + 1] by {
      assert ReportIds(old_.results + [report]) == ReportIds(old_.results) + [Some(report.toolCallId)];
      assert CallIds(old_.calls)[..n + 1] == CallIds(old_.calls)[..n] + [CallIds(old_.calls)[n]];
    }
    assert BatchOk(Last(batches));
    assert forall i | 0 <= i < |batches| - 1 :: batches[i] == s.batches[i];
  }

  lemma AdvanceKeeps(s: State, report: ReportedCall)
    requires BatchesOk(s.batches) && PendingOk(s) && TranscriptOk(s) && s.pending != []
    requires Advance(s, s.pending[0], report).Ok?
    ensures var t := Advance(s, s.pending[0], report).value;
            BatchesOk(t.batches) && PendingOk(t) && TranscriptOk(t)
  {
    WithResultKeeps(s, report);
  }

  /** Answers that end the run leave the state alone. */
  lemma EndingStepKeeps(m: Machine, a: Answer)
    requires Inv(m) && Allowed(m.pc, a) && (a.HostFails? || (a.Signal? && a.cancelled))
    ensures Inv(Step(m, a))
  {
  }

  lemma QuietStepKeeps(m: Machine, a: Answer)
    requires Inv(m) && Allowed(m.pc, a) && !a.HostFails? && !(a.Signal? && a.cancelled)
    requires m.pc.Top? || m.pc.AwaitPrepare? || m.pc.CheckPrepared? || m.pc.AwaitObserve? || m.pc.AwaitFinish? || m.pc.CheckExecuted?
    ensures Inv(Step(m, a))
  {
    QuietStepShape(m, a);
    match m.pc
    case Top =>
    case AwaitPrepare =>
    case CheckPrepared =>
    case AwaitObserve(_) =>
    case AwaitFinish(_) =>
    case CheckExecuted(_) =>
  }

  lemma QuietStepShape(m: Machine, a: Answer)
    requires Allowed(m.pc, a) && !a.HostFails? && !(a.Signal? && a.cancelled) && (m.state.pending != [] ==> m.state.batches != [])
    requires m.pc.Top? || m.pc.AwaitPrepare? || m.pc.CheckPrepared? || m.pc.AwaitObserve? || m.pc.AwaitFinish? || m.pc.CheckExecuted?
    ensures var s, t := m.state, Step(m, a).state;
            t.batches == s.batches && t.pending == s.pending && t.transcript == s.transcript
  {
  }

  lemma SpeakingStepKeeps(m: Machine, a: Answer)
    requires Inv(m) && Allowed(m.pc, a) && !a.HostFails? && !(a.Signal? && a.cancelled)
    requires m.pc.AwaitSteering? || m.pc.CheckObserved? || m.pc.AwaitFollowup? || m.pc.CheckFinished?
    ensures Inv(Step(m, a))
  {
    var s := m.state;
    match m.pc
    case AwaitSteering =>
      SayKeepsTranscript(s, User, Join(a.messages));
    case CheckObserved(plan) =>
      if plan.FinalTurn? {
        SayKeepsTranscript(s, Assistant, plan.output);
      }
    case AwaitFollowup(_) =>
      SayKeepsTranscript(s, User, Join(a.messages));
    case CheckFinished(_, continuation) =>
      if continuation.Some? {
        SayKeepsTranscript(s, User, continuation.value);
      }
  }

  lemma InvokeStepKeeps(m: Machine, a: Answer)
    requires Inv(m) && Allowed(m.pc, a) && !a.HostFails? && m.pc.AwaitInvoke?
    ensures Inv(Step(m, a))
  {
    if a.proposal.Some? && a.proposal.value.ToolTurn? && BeginBatch(m.state, a.proposal.value, a.hexes).Ok? {
      BeginBatchKeeps(m.state, a.proposal.value, a.hexes);
    }
  }

  lemma ExecuteStepKeeps(m: Machine, a: Answer)
    requires Inv(m) && Allowed(m.pc, a) && !a.HostFails? && m.pc.AwaitExecute?
    ensures Inv(Step(m, a))
  {
    var s := m.state;
    if a.outcome.CallReported? || a.outcome.CallStoppedAfterReport? {
      var advanced := Advance(s, m.pc.call, a.outcome.report);
      assert Step(m, a) == if advanced.Raise? then Machine(s, Failed(advanced.error)) else Machine(advanced.value, CheckExecuted(a.outcome));
      if advanced.Ok? {
        AdvanceKeeps(s, a.outcome.report);
      }
    }
  }

  lemma StepKeeps(m: Machine, a: Answer)
    requires Inv(m) && Allowed(m.pc, a)
    ensures Inv(Step(m, a))
  {
    if a.HostFails? || (a.Signal? && a.cancelled) {
      EndingStepKeeps(m, a);
    } else {
      match m.pc
      case Top | AwaitPrepare | CheckPrepared | AwaitObserve(_) | AwaitFinish(_) | CheckExecuted(_) => QuietStepKeeps(m, a);
      case AwaitSteering | CheckObserved(_) | AwaitFollowup(_) | CheckFinished(_, _) => SpeakingStepKeeps(m, a);
      case AwaitInvoke => InvokeStepKeeps(m, a);
      case AwaitExecute(_) => ExecuteStepKeeps(m, a);
    }
  }

  /** A replayed report leaves the seed's batch one result longer and the pending calls one shorter. */
  ghost predicate SeededBy(s: State, t: State, reports: seq<ReportedCall>)
    requires s.batches != []
  {
    && BatchesOk(t.batches) && PendingOk(t) && TranscriptOk(t)
    && t.request == s.request && t.plan == s.plan && t.transcript == s.transcript
    && |t.batches| == |s.batches|
    && Last(t.batches) == Last(s.batches).(results := Last(s.batches).results + reports)
    && |reports| <= |s.pending| && t.pending == s.pending[|reports|..]
  }

  lemma SeedOneKeeps(s: State, report: ReportedCall)
    requires s.batches != [] && BatchesOk(s.batches) && PendingOk(s) && TranscriptOk(s)
    requires SeedOne(s, report).Ok?
    ensures SeededBy(s, SeedOne(s, report).value, [report])
  {
    WithResultKeeps(s, report);
  }

  lemma SeededOn(s: State, t: State, u: State, front: seq<ReportedCall>, report: ReportedCall)
    requires s.batches != [] && t.batches != [] && SeededBy(s, t, front) && SeededBy(t, u, [report])
    ensures SeededBy(s, u, front + [report])
  {
    Associative(Last(s.batches).results, front, [report]);
  }

  lemma SeededByNothing(s: State)
    requires s.batches != [] && BatchesOk(s.batches) && PendingOk(s) && TranscriptOk(s)
    ensures SeededBy(s, s, [])
  {
    assert Last(s.batches).results + [] == Last(s.batches).results && s.pending[0..] == s.pending;
  }

  lemma {:induction false} SeedAllKeeps(s: State, reports: seq<ReportedCall>)
    requires s.batches != [] && BatchesOk(s.batches) && PendingOk(s) && TranscriptOk(s)
    requires SeedAll(s, reports).Ok?
    ensures SeededBy(s, SeedAll(s, reports).value, reports)
  {
    if reports == [] {
      SeededByNothing(s);
    } else {
      var front, last := Front(reports), Last(reports);
      var t := SeedAll(s, front).value;
      SeedAllKeeps(s, front);
      SeedOneKeeps(t, last);
      SeededOn(s, t, SeedOne(t, last).value, front, last);
      assert front + [last] == reports;
    }
  }

  lemma StartInv(request: TurnRequest, toolResults: seq<ReportedCall>, seed: Option<CallSeed>, hexes: seq<string>)
    requires seed.Some? ==> |hexes| == |seed.value.calls|
    requires Start(request, toolResults, seed, hexes).Ok?
    ensures Inv(Start(request, toolResults, seed, hexes).value)
  {
    var s := InitialState(request, toolResults);
    assert BatchEntries(Front(s.transcript)) == [];
    if seed.Some? {
      var stepped := if seed.value.runStep.None? then s else s.(request := request.(runStep := seed.value.runStep.value));
      var begun := BeginBatch(stepped, ToolTurn(seed.value.calls, [], seed.value.reasoning), hexes).value;
      BeginBatchKeeps(stepped, ToolTurn(seed.value.calls, [], seed.value.reasoning), hexes);
      SeedAllKeeps(begun, seed.value.completedReports);
    }
  }

  // ---- Whole runs ----

  /** A run: one machine per point, each reached from the one before by an answer the host may give. */
  ghost predicate Run(trace: seq<Machine>, answers: seq<Answer>) {
    && |trace| == |answers| + 1
    && Inv(trace[0])
    && forall i | 0 <= i < |answers| ::
         Allowed(trace[i].pc, answers[i]) && (Inv(trace[i]) ==> trace[i + 1] == Step(trace[i], answers[i]))
  }

  lemma {:induction false} RunKeepsInv(trace: seq<Machine>, answers: seq<Answer>, i: nat)
    requires Run(trace, answers) && i < |trace|
    ensures Inv(trace[i])
  {
    if i > 0 {
      RunKeepsInv(trace, answers, i - 1);
      StepKeeps(trace[i - 1], answers[i - 1]);
    }
  }

  /** Playing answers one after the other, up to the first that does not fit. */
  function Play(m: Machine, answers: seq<Answer>): (end: Machine)
    requires Inv(m)
    ensures Inv(end)
    decreases |answers|
  {
    if answers == [] || !Allowed(m.pc, answers[0]) then m
    else
      StepKeeps(m, answers[0]);
      Play(Step(m, answers[0]), answers[1..])
  }
}
