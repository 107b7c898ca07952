/** The turn engine as a value: what one answer of the host does to a run. */
module Engine {
  import opened Basics
  import opened Turns

  // ---- Transcript ----

  datatype ToolResultView = ToolResultView(
    toolCallId: string,
    toolName: string,
    arguments: map<string, Json>,
    ok: bool,
    output: Option<string>,
    error: Option<string>)

  function ProjectReport(r: ReportedCall): ToolResultView {
    ToolResultView(r.toolCallId, r.finalToolName, r.authorizedArguments, r.result.ok, r.result.output,
                   if r.result.ok then None else r.result.error)
  }

  function ProjectAll(reports: seq<ReportedCall>): (views: seq<ToolResultView>)
    ensures |views| == |reports|
    ensures forall i | 0 <= i < |reports| :: views[i] == ProjectReport(reports[i])
  {
    seq(|reports|, i requires 0 <= i < |reports| => ProjectReport(reports[i]))
  }

  datatype Role = User | Assistant | Tool

  datatype ResultMetadata = ResultMetadata(
    ok: bool,
    error: Option<string>,
    resultId: string,
    authorizedArguments: map<string, Json>,
    reasoning: Option<string>)

  datatype ContextSegment = ContextSegment(
    role: Role,
    content: Option<string>,
    toolCallId: Option<string>,
    toolName: Option<string>,
    arguments: Option<map<string, Json>>,
    metadata: Option<ResultMetadata>)

  function TextSegment(role: Role, text: string): ContextSegment {
    ContextSegment(role, Some(text), None, None, None, None)
  }

  function CallSegment(call: ToolCall): ContextSegment {
    ContextSegment(Assistant, None, call.toolCallId, Some(call.toolName), Some(call.arguments), None)
  }

  function ResultSegment(call: ToolCall, report: ReportedCall, view: ToolResultView, reasoning: Option<string>): ContextSegment {
    ContextSegment(
      Tool,
      if view.output.None? then view.error else view.output,
      call.toolCallId,
      Some(call.toolName),
      None,
      Some(ResultMetadata(view.ok, view.error, report.toolCallId, report.authorizedArguments, reasoning)))
  }

  /** The dictionary built from the views: a later view of an identity replaces an earlier one. */
  function Lookup(views: seq<ToolResultView>, id: string): Option<ToolResultView> {
    if views == [] then None
    else if Last(views).toolCallId == id then Some(Last(views))
    else Lookup(Front(views), id)
  }

  /** How one report is shown: its own projection, or the one filed under its identity. */
  function Shown(report: ReportedCall, views: Option<seq<ToolResultView>>): Option<ToolResultView> {
    if views.None? then Some(ProjectReport(report)) else Lookup(views.value, report.toolCallId)
  }

  function PairSegments(call: ToolCall, report: ReportedCall, reasoning: Option<string>, views: Option<seq<ToolResultView>>): seq<ContextSegment> {
    var shown := Shown(report, views);
    if shown.None? then [] else [CallSegment(call), ResultSegment(call, report, shown.value, reasoning)]
  }

  datatype TurnBatch = TurnBatch(calls: seq<ToolCall>, reasoning: Option<string>, runStep: int, results: seq<ReportedCall>)

  function Complete(b: TurnBatch): bool {
    |b.results| == |b.calls|
  }

  function ResultSegments(b: TurnBatch, n: nat, views: Option<seq<ToolResultView>>): seq<ContextSegment>
    requires n <= |b.results| && n <= |b.calls|
  {
    if n == 0 then []
    else ResultSegments(b, n - 1, views) + PairSegments(b.calls[n - 1], b.results[n - 1], b.reasoning, views)
  }

  /** A transcript entry refers to a batch of the run by position: the batch keeps receiving results after it was entered. */
  datatype Entry = BatchAt(index: nat) | Text(segment: ContextSegment)

  function EntrySegments(batches: seq<TurnBatch>, entry: Entry, views: Option<seq<ToolResultView>>): seq<ContextSegment>
    requires entry.BatchAt? ==> entry.index < |batches|
  {
    match entry
    case Text(segment) => [segment]
    case BatchAt(i) => if Complete(batches[i]) then ResultSegments(batches[i], |batches[i].results|, views) else []
  }

  ghost predicate RefersTo(transcript: seq<Entry>, n: nat) {
    forall i | 0 <= i < |transcript| && transcript[i].BatchAt? :: transcript[i].index < n
  }

  function Segments(batches: seq<TurnBatch>, transcript: seq<Entry>, views: Option<seq<ToolResultView>>): seq<ContextSegment>
    requires RefersTo(transcript, |batches|)
  {
    if transcript == [] then []
    else Segments(batches, Front(transcript), views) + EntrySegments(batches, Last(transcript), views)
  }

  // ---- State ----

  datatype Context = Context(prompt: string, views: seq<ToolResultView>, segments: seq<ContextSegment>)

  datatype TurnRequest = TurnRequest(prompt: string, runStep: int, context: Context)

  datatype State = State(
    request: TurnRequest,
    results: seq<ReportedCall>,
    pending: seq<ToolCall>,
    batches: seq<TurnBatch>,
    plan: Option<TurnPlan>,
    output: Option<string>,
    transcript: seq<Entry>)

  function InitialState(request: TurnRequest, toolResults: seq<ReportedCall>): State {
    State(request, toolResults, [], [], None, None, [Text(TextSegment(User, request.prompt))])
  }

  datatype EngineError =
    | UnfinishedBatch
    | DuplicateIdentities
    | NotActiveCall
    | ForeignReport
    | MissingPlan
    | NoPendingCall
    | EmptyToolTurn
    | SeedNotPrefix
    | HostRaised

  /** Calls without an identity get a generated one; an identity that is present, even an empty one, is kept. */
  function Identified(calls: seq<ToolCall>, hexes: seq<string>): (r: seq<ToolCall>)
    requires |hexes| == |calls|
    ensures |r| == |calls|
    ensures forall i | 0 <= i < |calls| :: r[i].toolCallId.Some?
    ensures forall i | 0 <= i < |calls| && calls[i].toolCallId.Some? :: r[i] == calls[i]
  {
    seq(|calls|, i requires 0 <= i < |calls| =>
      if calls[i].toolCallId.Some? then calls[i] else calls[i].(toolCallId := Some("call-" + hexes[i])))
  }

  function BeginBatch(s: State, plan: TurnPlan, hexes: seq<string>): Result<State, EngineError>
    requires plan.ToolTurn? && |hexes| == |plan.calls|
  {
    if s.pending != [] then Raise(UnfinishedBatch)
    else
      var calls := Identified(plan.calls, hexes);
      if !AllDifferent(CallIds(calls)) then Raise(DuplicateIdentities)
      else
        Ok(s.(plan := Some(plan.(calls := calls)),
              batches := s.batches + [TurnBatch(calls, plan.reasoning, s.request.runStep, [])],
              transcript := s.transcript + [BatchAt(|s.batches|)],
              pending := calls))
  }

  function WithResult(b: TurnBatch, report: ReportedCall): TurnBatch {
    b.(results := b.results + [report])
  }

  function Advance(s: State, call: ToolCall, report: ReportedCall): Result<State, EngineError>
    requires s.pending != [] ==> s.batches != []
  {
    if s.pending == [] || s.pending[0] != call then Raise(NotActiveCall)
    else if Some(report.toolCallId) != call.toolCallId then Raise(ForeignReport)
    else
      Ok(s.(results := s.results + [report],
            batches := Front(s.batches) + [WithResult(Last(s.batches), report)],
            pending := s.pending[1..],
            request := s.request.(runStep := s.request.runStep + 1)))
  }

  // ---- Starting a run ----

  predicate HasReport(reports: seq<ReportedCall>, id: string) {
    exists i | 0 <= i < |reports| :: reports[i].toolCallId == id
  }

  /** One report of the seed: it must answer the next pending call; it joins the run's results unless its identity is there already. */
  function SeedOne(s: State, report: ReportedCall): Result<State, EngineError>
    requires s.pending != [] ==> s.batches != []
  {
    if s.pending == [] || Some(report.toolCallId) != s.pending[0].toolCallId then Raise(SeedNotPrefix)
    else
      Ok(s.(results := if HasReport(s.results, report.toolCallId) then s.results else s.results + [report],
            batches := Front(s.batches) + [WithResult(Last(s.batches), report)],
            pending := s.pending[1..]))
  }

  function SeedAll(s: State, reports: seq<ReportedCall>): (r: Result<State, EngineError>)
    requires s.batches != []
    ensures r.Ok? ==> |r.value.batches| == |s.batches|
  {
    if reports == [] then Ok(s)
    else
      var before := SeedAll(s, Front(reports));
      if before.Raise? then before else SeedOne(before.value, Last(reports))
  }

  function Start(request: TurnRequest, toolResults: seq<ReportedCall>, seed: Option<CallSeed>, hexes: seq<string>): Result<Machine, EngineError>
    requires seed.Some? ==> |hexes| == |seed.value.calls|
  {
    var s := InitialState(request, toolResults);
    if seed.None? then Ok(Machine(s, Top))
    else
      var stepped := if seed.value.runStep.None? then s else s.(request := request.(runStep := seed.value.runStep.value));
      if seed.value.calls == [] then Raise(EmptyToolTurn)
      else
        var begun := BeginBatch(stepped, ToolTurn(seed.value.calls, [], seed.value.reasoning), hexes);
        if begun.Raise? then Raise(begun.error)
        else
          var seeded := SeedAll(begun.value, seed.value.completedReports);
          if seeded.Raise? then Raise(seeded.error)
          else
            var t := seeded.value;
            Ok(Machine(
              t.(request := t.request.(runStep := t.request.runStep + |seed.value.completedReports|),
                 plan := if t.pending != [] then Some(ToolTurn(t.pending, [], seed.value.reasoning)) else None),
              Top))
  }

  // ---- Running ----

  datatype Outcome =
    | CallReported(report: ReportedCall)
    | CallPaused
    | CallStoppedBeforeReport
    | CallStoppedAfterReport(report: ReportedCall)

  datatype Status = Completed | Paused | Stopped | Aborted

  /** Where the run waits for its host: every host call, and every look at the cancellation flag. */
  datatype Pc =
    | Top
    | AwaitSteering
    | AwaitPrepare
    | CheckPrepared
    | AwaitInvoke
    | AwaitObserve(plan: TurnPlan)
    | CheckObserved(plan: TurnPlan)
    | AwaitFollowup(plan: TurnPlan)
    | AwaitFinish(plan: TurnPlan)
    | CheckFinished(plan: TurnPlan, continuation: Option<string>)
    | AwaitExecute(call: ToolCall)
    | CheckExecuted(outcome: Outcome)
    | Finished(status: Status)
    | Failed(error: EngineError)

  datatype Machine = Machine(state: State, pc: Pc)

  datatype Answer =
    | Signal(cancelled: bool)
    | Messages(messages: seq<string>)
    | Prepared(request: Option<TurnRequest>)
    | Invoked(proposal: Option<TurnPlan>, hexes: seq<string>)
    | Observed(go: bool)
    | Continuation(prompt: Option<string>)
    | Executed(outcome: Outcome)
    | HostFails

  /** The answers that fit a question. The host may choose any of them. */
  predicate Allowed(pc: Pc, a: Answer) {
    match pc
    case Top | CheckPrepared | CheckObserved(_) | CheckFinished(_, _) | CheckExecuted(_) => a.Signal?
    case AwaitSteering | AwaitFollowup(_) => a.Messages? || a.HostFails?
    case AwaitPrepare => a.Prepared? || a.HostFails?
    case AwaitInvoke =>
      || a.HostFails?
      || (a.Invoked? && (a.proposal.Some? && a.proposal.value.ToolTurn? ==>
            a.proposal.value.calls != [] && |a.hexes| == |a.proposal.value.calls|))
    case AwaitObserve(_) => a.Observed? || a.HostFails?
    case AwaitFinish(_) => a.Continuation? || a.HostFails?
    case AwaitExecute(_) => a.Executed? || a.HostFails?
    case Finished(_) | Failed(_) => false
  }

  function Join(messages: seq<string>): string {
    if messages == [] then ""
    else if |messages| == 1 then messages[0]
    else Join(Front(messages)) + "\n\n" + Last(messages)
  }

  function AppendMessages(prompt: string, messages: seq<string>): string {
    if prompt != "" then Join([prompt] + messages) else Join(messages)
  }

  function Say(s: State, role: Role, text: string): State {
    s.(transcript := s.transcript + [Text(TextSegment(role, text))])
  }

  function OnSteering(s: State, messages: seq<string>): State {
    if messages == [] then s
    else Say(s, User, Join(messages)).(request := s.request.(prompt := AppendMessages(s.request.prompt, messages)))
  }

  function OnInvoked(s: State, plan: TurnPlan, hexes: seq<string>): Machine
    requires plan.ToolTurn? ==> |hexes| == |plan.calls|
  {
    if plan.FinalTurn? then Machine(s, AwaitObserve(plan))
    else
      var begun := BeginBatch(s, plan, hexes);
      if begun.Raise? then Machine(s, Failed(begun.error))
      else Machine(begun.value, AwaitObserve(begun.value.plan.value))
  }

  function OnFollowup(s: State, plan: TurnPlan, messages: seq<string>): Machine {
    if messages == [] then Machine(s, AwaitFinish(plan))
    else
      Machine(
        Say(s, User, Join(messages)).(request :=
          s.request.(prompt := AppendMessages(s.request.prompt, messages), runStep := s.request.runStep + 1)),
        Top)
  }

  function OnContinuation(s: State, plan: TurnPlan, continuation: Option<string>): Machine {
    if continuation.Some? then
      var said := if continuation.value != s.request.prompt then Say(s, User, continuation.value) else s;
      Machine(said.(request := s.request.(prompt := continuation.value, runStep := s.request.runStep + 1)), Top)
    else
      Machine(s.(output := Some(if plan.FinalTurn? then plan.output else "")), Finished(Completed))
  }

  function OnExecuted(s: State, call: ToolCall, outcome: Outcome): Machine
    requires s.pending != [] ==> s.batches != []
  {
    if outcome.CallPaused? then Machine(s, Finished(Paused))
    else if outcome.CallStoppedBeforeReport? then Machine(s, CheckExecuted(outcome))
    else
      var advanced := Advance(s, call, outcome.report);
      if advanced.Raise? then Machine(s, Failed(advanced.error)) else Machine(advanced.value, CheckExecuted(outcome))
  }

  function AfterExecution(s: State, outcome: Outcome): Machine
    requires s.pending != [] ==> s.batches != []
  {
    if outcome.CallStoppedBeforeReport? || outcome.CallStoppedAfterReport? then Machine(s, Finished(Stopped))
    else
      Machine(
        s.(plan := if s.pending != [] then Some(ToolTurn([s.pending[0]], [], Last(s.batches).reasoning)) else None),
        Top)
  }

  /** From one question of the run to the next. */
  function Step(m: Machine, a: Answer): Machine
    requires Allowed(m.pc, a) && (m.state.pending != [] ==> m.state.batches != [])
  {
    var s := m.state;
    if a.HostFails? then Machine(s, Failed(HostRaised))
    else if a.Signal? && a.cancelled then Machine(s, Finished(Aborted))
    else
      match m.pc
      case Top => Machine(s, if s.pending == [] then AwaitSteering else AwaitPrepare)
      case AwaitSteering => Machine(OnSteering(s, a.messages), AwaitPrepare)
      case AwaitPrepare =>
        if a.request.None? then Machine(s, Finished(Stopped)) else Machine(s.(request := a.request.value), CheckPrepared)
      case CheckPrepared =>
        if s.pending == [] then Machine(s, AwaitInvoke)
        else if s.plan.None? then Machine(s, Failed(MissingPlan))
        else Machine(s, AwaitObserve(s.plan.value))
      case AwaitInvoke =>
        if a.proposal.None? then Machine(s, Finished(Stopped)) else OnInvoked(s, a.proposal.value, a.hexes)
      case AwaitObserve(plan) => Machine(s, if a.go then CheckObserved(plan) else Finished(Stopped))
      case CheckObserved(plan) =>
        if plan.FinalTurn? then Machine(Say(s, Assistant, plan.output), AwaitFollowup(plan))
        else if s.pending == [] then Machine(s, Failed(NoPendingCall))
        else Machine(s, AwaitExecute(s.pending[0]))
      case AwaitFollowup(plan) => OnFollowup(s, plan, a.messages)
      case AwaitFinish(plan) => Machine(s, CheckFinished(plan, a.prompt))
      case CheckFinished(plan, continuation) => OnContinuation(s, plan, continuation)
      case AwaitExecute(call) => OnExecuted(s, call, a.outcome)
      case CheckExecuted(outcome) => AfterExecution(s, outcome)
  }
}
