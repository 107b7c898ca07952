/** What the model is shown of a run: every finished call with its arguments and what its tool returned, and nothing else of it. */
module Exchanges {
  import opened Basics
  import opened Turns
  import opened Engine
  import opened EngineInvariant
  import opened Transcript

  // ---- One exchange ----

  /** A segment of the assistant that asks for a call. */
  predicate Asks(c: ContextSegment, call: ToolCall) {
    && c.role == Assistant && c.content == None && c.metadata == None
    && c.toolCallId == call.toolCallId && c.toolName == Some(call.toolName) && c.arguments == Some(call.arguments)
  }

  /** What a result reads as: its output if there is one, otherwise its error if it failed. */
  function Reads(result: ToolResult): Option<string> {
    if result.output.Some? then result.output else if result.ok then None else result.error
  }

  /** A segment of the tool that answers a call with what was reported for it. */
  predicate AnswersWith(c: ContextSegment, call: ToolCall, report: ReportedCall, reasoning: Option<string>) {
    && c.role == Tool && c.toolCallId == call.toolCallId && c.toolName == Some(call.toolName)
    && c.content == Reads(report.result)
    && c.metadata.Some?
    && c.metadata.value.ok == report.result.ok
    && c.metadata.value.error == (if report.result.ok then None else report.result.error)
    && c.metadata.value.resultId == report.toolCallId
    && c.metadata.value.authorizedArguments == report.authorizedArguments
    && c.metadata.value.reasoning == reasoning
  }

  /** The first n exchanges of a batch stand behind one another. */
  lemma {:induction false} BatchTells(b: TurnBatch, n: nat, j: nat)
    requires j < n <= |b.results| && n <= |b.calls|
    ensures |ResultSegments(b, n, None)| == 2 * n
    ensures Asks(ResultSegments(b, n, None)[2 * j], b.calls[j])
    ensures AnswersWith(ResultSegments(b, n, None)[2 * j + 1], b.calls[j], b.results[j], b.reasoning)
  {
    BatchLength(b, n);
    BatchLength(b, n - 1);
    if j < n - 1 {
      BatchTells(b, n - 1, j);
    }
  }

  lemma {:induction false} BatchLength(b: TurnBatch, n: nat)
    requires n <= |b.results| && n <= |b.calls|
    ensures |ResultSegments(b, n, None)| == 2 * n
  {
    if n > 0 {
      BatchLength(b, n - 1);
    }
  }

  // ---- The whole transcript ----

  /** Where an entry's segments stand. */
  function Before(batches: seq<TurnBatch>, transcript: seq<Entry>, i: nat): nat
    requires RefersTo(transcript, |batches|) && i <= |transcript|
  {
    |Segments(batches, transcript[..i], None)|
  }

  lemma {:induction false} EntryStands(batches: seq<TurnBatch>, transcript: seq<Entry>, i: nat, k: nat)
    requires RefersTo(transcript, |batches|) && i < |transcript| && k < |EntrySegments(batches, transcript[i], None)|
    ensures Before(batches, transcript, i) + k < |Segments(batches, transcript, None)|
    ensures Segments(batches, transcript, None)[Before(batches, transcript, i) + k] == EntrySegments(batches, transcript[i], None)[k]
    decreases |transcript|
  {
    if i < |transcript| - 1 {
      assert Front(transcript)[..i] == transcript[..i];
      EntryStands(batches, Front(transcript), i, k);
    } else {
      assert transcript[..i] == Front(transcript);
    }
  }

  /** The exchanges of a batch that is answered in full stand at a place, every call with what came back for it. */
  ghost predicate Exchanged(shown: seq<ContextSegment>, at: nat, b: TurnBatch) {
    |b.results| == |b.calls| ==> forall j | 0 <= j < |b.calls| :: ExchangedAt(shown, at, b, j)
  }

  ghost predicate ExchangedAt(shown: seq<ContextSegment>, at: nat, b: TurnBatch, j: nat)
    requires j < |b.calls| && j < |b.results|
  {
    && at + 2 * j + 1 < |shown| && Asks(shown[at + 2 * j], b.calls[j])
    && AnswersWith(shown[at + 2 * j + 1], b.calls[j], b.results[j], b.reasoning)
  }

  ghost predicate Shown(batches: seq<TurnBatch>, shown: seq<ContextSegment>, at: nat, entry: Entry) {
    if entry.BatchAt? then entry.index < |batches| && Exchanged(shown, at, batches[entry.index])
    else at < |shown| && shown[at] == entry.segment
  }

  /**
   At every point of every run: a batch that is answered in full is shown with every call, its arguments and
   what came back for it, in order, behind what was entered before it; a text is shown as it was said.
   */
  lemma ExchangesAreShown(trace: seq<Machine>, answers: seq<Answer>, p: nat, i: nat)
    requires Run(trace, answers) && p < |trace| && i < |trace[p].state.transcript|
    ensures Inv(trace[p])
    ensures var s := trace[p].state; Shown(s.batches, SegmentsOf(s, None), Before(s.batches, s.transcript, i), s.transcript[i])
  {
    RunKeepsInv(trace, answers, p);
    EntryIsShown(trace[p].state.batches, trace[p].state.transcript, i);
  }

  lemma EntryIsShown(batches: seq<TurnBatch>, transcript: seq<Entry>, i: nat)
    requires RefersTo(transcript, |batches|) && i < |transcript|
    ensures Shown(batches, Segments(batches, transcript, None), Before(batches, transcript, i), transcript[i])
  {
    if transcript[i].Text? {
      EntryStands(batches, transcript, i, 0);
    } else if Complete(batches[transcript[i].index]) {
      var b := batches[transcript[i].index];
      BatchStands(batches, transcript, i, b);
      forall j: nat | j < |b.calls|
        ensures ExchangedAt(Segments(batches, transcript, None), Before(batches, transcript, i), b, j)
      {
        ExchangeStands(Segments(batches, transcript, None), Before(batches, transcript, i), b, j);
      }
    }
  }

  /** The segments of a batch stand at a place. */
  ghost predicate StandsAt(shown: seq<ContextSegment>, before: nat, told: seq<ContextSegment>) {
    forall k: nat | k < |told| :: before + k < |shown| && shown[before + k] == told[k]
  }

  lemma BatchStands(batches: seq<TurnBatch>, transcript: seq<Entry>, i: nat, b: TurnBatch)
    requires RefersTo(transcript, |batches|) && i < |transcript| && transcript[i].BatchAt?
    requires b == batches[transcript[i].index] && |b.results| == |b.calls|
    ensures StandsAt(Segments(batches, transcript, None), Before(batches, transcript, i), ResultSegments(b, |b.results|, None))
  {
    var told := ResultSegments(b, |b.results|, None);
    forall k: nat | k < |told|
      ensures Before(batches, transcript, i) + k < |Segments(batches, transcript, None)|
      ensures Segments(batches, transcript, None)[Before(batches, transcript, i) + k] == told[k]
    {
      EntryStands(batches, transcript, i, k);
    }
  }

  lemma ExchangeStands(shown: seq<ContextSegment>, before: nat, b: TurnBatch, j: nat)
    requires |b.results| == |b.calls| && j < |b.calls| && StandsAt(shown, before, ResultSegments(b, |b.results|, None))
    ensures ExchangedAt(shown, before, b, j)
  {
    var told := ResultSegments(b, |b.results|, None);
    BatchTells(b, |b.results|, j);
    assert shown[before + 2 * j] == told[2 * j] && shown[before + (2 * j + 1)] == told[2 * j + 1];
    ToldAt(shown, told, before, b, j);
  }

  lemma ToldAt(shown: seq<ContextSegment>, told: seq<ContextSegment>, before: nat, b: TurnBatch, j: nat)
    requires j < |b.calls| && j < |b.results| && 2 * j + 1 < |told| && before + 2 * j + 1 < |shown|
    requires shown[before + 2 * j] == told[2 * j] && shown[before + (2 * j + 1)] == told[2 * j + 1]
    requires Asks(told[2 * j], b.calls[j]) && AnswersWith(told[2 * j + 1], b.calls[j], b.results[j], b.reasoning)
    ensures ExchangedAt(shown, before, b, j)
  {
  }

  // ---- The plan in hand ----

  /** The plan in hand is for the next pending call, with the reasoning of its batch. */
  ghost predicate Reasoned(m: Machine) {
    m.state.pending != [] && m.state.batches != [] ==>
      && (m.state.plan.Some? ==> m.state.plan.value.ToolTurn? && m.state.plan.value.reasoning == Last(m.state.batches).reasoning)
      && (m.pc.AwaitObserve? ==> m.pc.plan.reasoning == Last(m.state.batches).reasoning)
      && (m.pc.CheckObserved? ==> m.pc.plan.reasoning == Last(m.state.batches).reasoning)
  }

  lemma StepKeepsReasoning(m: Machine, a: Answer)
    requires Inv(m) && Allowed(m.pc, a) && Reasoned(m)
    ensures Reasoned(Step(m, a))
  {
    match m.pc
    case AwaitExecute(call) => ExecutedKeepsReasoning(m, a);
    case AwaitInvoke => InvokedKeepsReasoning(m, a);
    case CheckExecuted(_) => CheckedKeepsReasoning(m, a);
    case _ => OtherKeepsReasoning(m, a);
  }

  lemma ExecutedKeepsReasoning(m: Machine, a: Answer)
    requires Inv(m) && m.pc.AwaitExecute? && Allowed(m.pc, a) && Reasoned(m)
    ensures Reasoned(Step(m, a))
  {
  }

  lemma InvokedKeepsReasoning(m: Machine, a: Answer)
    requires Inv(m) && m.pc.AwaitInvoke? && Allowed(m.pc, a)
    ensures Reasoned(Step(m, a))
  {
  }

  lemma CheckedKeepsReasoning(m: Machine, a: Answer)
    requires Inv(m) && m.pc.CheckExecuted? && Allowed(m.pc, a) && Reasoned(m)
    ensures Reasoned(Step(m, a))
  {
  }

  lemma OtherKeepsReasoning(m: Machine, a: Answer)
    requires Inv(m) && Allowed(m.pc, a) && Reasoned(m) && !m.pc.AwaitExecute? && !m.pc.AwaitInvoke? && !m.pc.CheckExecuted?
    ensures Reasoned(Step(m, a))
  {
  }

  /** Over any run, seeded or not, the plan in hand has the reasoning of its batch. */
  lemma {:induction false} RunIsReasoned(trace: seq<Machine>, answers: seq<Answer>, p: nat)
    requires Run(trace, answers) && p < |trace| && Reasoned(trace[0])
    ensures Inv(trace[p]) && Reasoned(trace[p])
  {
    RunKeepsInv(trace, answers, p);
    if p > 0 {
      RunIsReasoned(trace, answers, p - 1);
      StepKeepsReasoning(trace[p - 1], answers[p - 1]);
    }
  }

  lemma StartIsReasoned(request: TurnRequest, given: seq<ReportedCall>, seed: Option<CallSeed>, hexes: seq<string>)
    requires seed.Some? ==> |hexes| == |seed.value.calls|
    requires Start(request, given, seed, hexes).Ok?
    ensures Reasoned(Start(request, given, seed, hexes).value)
  {
    if seed.Some? {
      var s := InitialState(request, given);
      var stepped := if seed.value.runStep.None? then s else s.(request := request.(runStep := seed.value.runStep.value));
      var begun := BeginBatch(stepped, ToolTurn(seed.value.calls, [], seed.value.reasoning), hexes).value;
      SeedKeepsReasoning(begun, seed.value.completedReports);
    }
  }

  lemma {:induction false} SeedKeepsReasoning(s: State, reports: seq<ReportedCall>)
    requires s.batches != [] && SeedAll(s, reports).Ok?
    ensures SeedAll(s, reports).value.batches != []
    ensures Last(SeedAll(s, reports).value.batches).reasoning == Last(s.batches).reasoning
  {
    if reports != [] {
      SeedKeepsReasoning(s, Front(reports));
    }
  }

  // ---- A proposal, and a beginning ----

  /** A call as it is taken up: as proposed, or with a generated identity if it has none. */
  predicate TakenUp(call: ToolCall, proposed: ToolCall, hex: string) {
    if proposed.toolCallId.Some? then call == proposed
    else call == ToolCall(proposed.toolName, proposed.arguments, Some("call-" + hex))
  }

  /**
   A proposed turn is taken up exactly if no identity would occur twice; all of it is kept: its calls are
   pending, its batch is under way at this step with its reasoning, and its facts are there to be recorded.
   Otherwise the run ends with nothing changed.
   */
  lemma ProposalExactly(m: Machine, plan: TurnPlan, hexes: seq<string>) returns (calls: seq<ToolCall>)
    requires Inv(m) && m.pc.AwaitInvoke? && plan.ToolTurn? && plan.calls != [] && |hexes| == |plan.calls|
    ensures |calls| == |plan.calls| && forall i | 0 <= i < |calls| :: TakenUp(calls[i], plan.calls[i], hexes[i])
    ensures var next, s := Step(m, Invoked(Some(plan), hexes)), m.state;
            if AllDifferent(CallIds(calls)) then
              && next.pc == AwaitObserve(ToolTurn(calls, plan.facts, plan.reasoning))
              && next.state.batches == s.batches + [TurnBatch(calls, plan.reasoning, s.request.runStep, [])]
              && next.state.pending == calls && next.state.transcript == s.transcript + [BatchAt(|s.batches|)]
              && next.state.request == s.request && next.state.results == s.results && next.state.output == s.output
            else next == Machine(s, Failed(DuplicateIdentities))
  {
    calls := Identified(plan.calls, hexes);
  }

  /** A run without a seed starts at its request, with the results given and the prompt as the user's first words. */
  lemma StartSays(request: TurnRequest, given: seq<ReportedCall>, hexes: seq<string>)
    ensures var r := Start(request, given, None, hexes);
            && r.Ok? && r.value.pc == Top && r.value.state.request == request && r.value.state.results == given
            && r.value.state.transcript == [Text(TextSegment(User, request.prompt))]
            && r.value.state.batches == [] && r.value.state.pending == []
  {
  }
}
