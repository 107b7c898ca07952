/** A whole run of engine, host and deterministic producer while messages keep arriving. */
module DeterministicRun {
  import opened Basics
  import opened Turns
  import opened FactTree
  import opened Engine
  import opened EngineInvariant
  import opened HostedRun
  import opened Deterministic

  /** The parameters of a run: its prompt, how lines resolve, and whether a slash command was given. */
  datatype Setup = Setup(prompt: string, resolve: Resolver, slash: bool)

  /** The system, with the steering messages that have arrived and those that were handed to the engine. */
  datatype Play = Play(sys: System, arrived: seq<string>, taken: seq<string>)

  /** Either a user steers, or the run does its next step; a tool, when called, answers as given. */
  datatype Event =
    | Arrives(message: string)
    | Goes(ok: bool, output: Option<string>, error: Option<string>, hex: string)

  function Producing(setup: Setup, request: TurnRequest, hex: string): Choice {
    var plan := Produce(setup.resolve, setup.slash, request);
    if plan.None? then CodeRaises
    else ProducerProposes(plan.value, if plan.value.ToolTurn? then seq(|plan.value.calls|, _ => hex) else [])
  }

  function Going(setup: Setup, sys: System, e: Event): Choice
    requires e.Goes?
  {
    if sys.m.pc.AwaitInvoke? then Producing(setup, sys.m.state.request, e.hex)
    else if sys.m.pc.AwaitExecute? && sys.progress.Requested? then
      ToolReturns(ToolResult(sys.m.pc.call.toolName, e.ok, e.output, e.error), sys.m.pc.call.toolName)
    else Continue
  }

  function Occurs(setup: Setup, p: Play, e: Event): Play
    requires Inv(p.sys.m) && ValidStore(p.sys.h.store)
  {
    match e
    case Arrives(message) => Play(Next(p.sys, Steer(message)), p.arrived + [message], p.taken)
    case Goes(_, _, _, _) =>
      Play(Next(p.sys, Going(setup, p.sys, e)), p.arrived, if p.sys.m.pc.AwaitSteering? then p.arrived else p.taken)
  }

  function Opening(setup: Setup): Play {
    var request := TurnRequest(setup.prompt, 1, Context(setup.prompt, [], []));
    Play(System(Machine(InitialState(request, []), Top), FreshHost(EMPTY), Quiet), [], [])
  }

  // ---- The invariant ----

  /** The commands the run has been told so far. */
  function Told(setup: Setup, p: Play): seq<string> {
    Commands(setup.prompt) + CommandsOf(p.taken)
  }

  predicate Answers(setup: Setup, line: string, call: ToolCall) {
    && setup.resolve(line).Some?
    && call.toolCallId.Some? && call.toolCallId.value != ""
    && call == Unidentified(setup.resolve(line).value).(toolCallId := call.toolCallId)
  }

  /** One batch a command, one call a batch, in the order of the commands. */
  ghost predicate BatchesFollow(setup: Setup, told: seq<string>, batches: seq<TurnBatch>) {
    && |batches| <= |told|
    && forall i | 0 <= i < |batches| :: |batches[i].calls| == 1 && Answers(setup, told[i], batches[i].calls[0])
  }

  ghost predicate Reports(call: ToolCall, report: ReportedCall) {
    && Some(report.toolCallId) == call.toolCallId
    && report.finalToolName == call.toolName
    && report.authorizedArguments == call.arguments
  }

  /** One result a finished batch, in the order of the batches. */
  ghost predicate ResultsFollow(s: State) {
    && |s.results| == |s.batches| - |s.pending|
    && forall i | 0 <= i < |s.results| ::
         |s.batches[i].calls| == 1 && s.batches[i].results == [s.results[i]] && Reports(s.batches[i].calls[0], s.results[i])
  }

  function Conclusion(results: seq<ReportedCall>): string {
    if results == [] then "" else TextOf(Last(results).result.output)
  }

  /** A final turn comes after the last command, or at once for a slash command. */
  ghost predicate Concludes(setup: Setup, told: seq<string>, s: State, output: string) {
    if setup.slash then s.results == [] && output == s.request.prompt
    else told != [] && |s.results| == |told| && output == Conclusion(s.results)
  }

  ghost predicate PlanFits(setup: Setup, told: seq<string>, s: State, plan: TurnPlan) {
    && |plan.facts| <= 4
    && (forall i | 0 <= i < |plan.facts| :: !IsExecution(plan.facts[i]))
    && (plan.FinalTurn? ==> Concludes(setup, told, s, plan.output))
  }

  /** Why a run can fail at all: nothing was asked for, or the next line does not resolve. */
  ghost predicate Hopeless(setup: Setup, told: seq<string>, done: nat) {
    !setup.slash && (told == [] || (done < |told| && setup.resolve(told[done]).None?))
  }

  ghost predicate PlayAt(setup: Setup, told: seq<string>, sys: System) {
    var s := sys.m.state;
    match sys.m.pc
    case Top | AwaitSteering | AwaitPrepare => s.pending == []
    case CheckPrepared | AwaitInvoke => s.pending == [] && s.request.context.views == ProjectAll(s.results)
    case AwaitObserve(plan) => PlanFits(setup, told, s, plan) && (sys.progress.Observing? ==> sys.progress.recorded <= |plan.facts|)
    case CheckObserved(plan) => PlanFits(setup, told, s, plan)
    case AwaitFollowup(plan) => PlanFits(setup, told, s, plan)
    case AwaitFinish(plan) => PlanFits(setup, told, s, plan)
    case CheckFinished(plan, continuation) => PlanFits(setup, told, s, plan) && continuation.None?
    case AwaitExecute(call) => sys.progress.Reported? ==> Reports(call, sys.progress.report)
    case CheckExecuted(outcome) => outcome.CallReported? && s.pending == []
    case Finished(status) =>
      && status == Completed && s.pending == []
      && s.output.Some? && Concludes(setup, told, s, s.output.value)
    case Failed(error) => error == HostRaised && s.pending == [] && Hopeless(setup, told, |s.results|)
  }

  ghost predicate PlayInv(setup: Setup, p: Play) {
    var s, told := p.sys.m.state, Told(setup, p);
    && Inv(p.sys.m) && ValidStore(p.sys.h.store)
    && !p.sys.h.cancelled && p.sys.h.followup == []
    && p.arrived == p.taken + p.sys.h.steering
    && Commands(s.request.prompt) == told
    && s.request.runStep == |s.results| + 1
    && (setup.slash ==> s.batches == [])
    && BatchesFollow(setup, told, s.batches) && ResultsFollow(s)
    && PlayAt(setup, told, p.sys)
  }

  lemma OpeningInv(setup: Setup)
    ensures PlayInv(setup, Opening(setup))
  {
    StartInv(Opening(setup).sys.m.state.request, [], None, []);
  }

  // ---- Every event keeps it ----

  lemma ArrivalKeeps(setup: Setup, p: Play, message: string)
    requires PlayInv(setup, p)
    ensures PlayInv(setup, Occurs(setup, p, Arrives(message)))
  {
  }

  /** More commands keep what the earlier ones have led to. */
  lemma MoreIsTold(setup: Setup, told: seq<string>, more: seq<string>, batches: seq<TurnBatch>)
    requires BatchesFollow(setup, told, batches)
    ensures BatchesFollow(setup, told + more, batches)
  {
    forall i | 0 <= i < |batches| ensures Answers(setup, (told + more)[i], batches[i].calls[0]) {
      assert (told + more)[i] == told[i];
    }
  }

  /** What the engine is asked changes neither what was told nor what was done. */
  lemma SameBatches(setup: Setup, p: Play, next: System)
    requires PlayInv(setup, p)
    requires Inv(next.m) && ValidStore(next.h.store)
    requires next.h == p.sys.h.(store := next.h.store, facts := next.h.facts, currentBatch := next.h.currentBatch, batchSeed := next.h.batchSeed)
    requires var s, t := p.sys.m.state, next.m.state;
             && t.batches == s.batches && t.results == s.results && t.pending == s.pending
             && t.request.prompt == s.request.prompt && t.request.runStep == s.request.runStep
    requires PlayAt(setup, Told(setup, p), next)
    ensures PlayInv(setup, Play(next, p.arrived, p.taken))
  {
  }

  lemma AnswerKeeps(setup: Setup, p: Play, a: Answer)
    requires PlayInv(setup, p) && Allowed(p.sys.m.pc, a)
    requires var s, t := p.sys.m.state, Step(p.sys.m, a).state;
             && t.batches == s.batches && t.results == s.results && t.pending == s.pending
             && t.request.prompt == s.request.prompt && t.request.runStep == s.request.runStep
    requires PlayAt(setup, Told(setup, p), Answering(p.sys, a))
    ensures PlayInv(setup, Play(Answering(p.sys, a), p.arrived, p.taken))
  {
    StepKeeps(p.sys.m, a);
    SameBatches(setup, p, Answering(p.sys, a));
  }

  lemma CheckKeeps(setup: Setup, p: Play)
    requires PlayInv(setup, p)
    requires p.sys.m.pc.Top? || p.sys.m.pc.CheckPrepared? || p.sys.m.pc.CheckObserved? || p.sys.m.pc.CheckExecuted?
    ensures PlayInv(setup, Play(Answering(p.sys, Signal(false)), p.arrived, p.taken))
  {
    AnswerKeeps(setup, p, Signal(false));
  }

  lemma FinishKeeps(setup: Setup, p: Play)
    requires PlayInv(setup, p) && p.sys.m.pc.CheckFinished?
    ensures PlayInv(setup, Play(Answering(p.sys, Signal(false)), p.arrived, p.taken))
  {
    AnswerKeeps(setup, p, Signal(false));
  }

  lemma PrepareKeeps(setup: Setup, p: Play)
    requires PlayInv(setup, p) && p.sys.m.pc.AwaitPrepare?
    ensures PlayInv(setup, Play(Answering(p.sys, Prepared(Some(PreparedRequest(p.sys.m.state)))), p.arrived, p.taken))
  {
    AnswerKeeps(setup, p, Prepared(Some(PreparedRequest(p.sys.m.state))));
  }

  lemma EndingKeeps(setup: Setup, p: Play)
    requires PlayInv(setup, p)
    ensures p.sys.m.pc.AwaitFollowup? ==> PlayInv(setup, Play(Answering(p.sys, Messages([])), p.arrived, p.taken))
    ensures p.sys.m.pc.AwaitFinish? ==> PlayInv(setup, Play(Answering(p.sys, Continuation(None)), p.arrived, p.taken))
  {
    if p.sys.m.pc.AwaitFollowup? {
      AnswerKeeps(setup, p, Messages([]));
    } else if p.sys.m.pc.AwaitFinish? {
      AnswerKeeps(setup, p, Continuation(None));
    }
  }

  /** The answer the run gives itself where neither producer nor tool nor steering is asked. */
  function PlainAnswer(sys: System): Answer
    requires Inv(sys.m)
  {
    match sys.m.pc
    case AwaitSteering => Messages(sys.h.steering)
    case AwaitPrepare => Prepared(Some(PreparedRequest(sys.m.state)))
    case AwaitFollowup(_) => Messages([])
    case AwaitFinish(_) => Continuation(None)
    case _ => Signal(false)
  }

  predicate Plain(pc: Pc) {
    !pc.AwaitSteering? && !pc.AwaitInvoke? && !pc.AwaitObserve? && !pc.AwaitExecute? && !pc.Finished? && !pc.Failed?
  }

  lemma PlainOccurs(setup: Setup, p: Play, e: Event)
    requires Inv(p.sys.m) && ValidStore(p.sys.h.store) && e.Goes? && Plain(p.sys.m.pc)
    requires !p.sys.h.cancelled && p.sys.h.followup == []
    ensures Allowed(p.sys.m.pc, PlainAnswer(p.sys))
    ensures Occurs(setup, p, e) == Play(Answering(p.sys, PlainAnswer(p.sys)), p.arrived, p.taken)
  {
    assert p.sys.h.(followup := []) == p.sys.h;
  }

  lemma OverOccurs(setup: Setup, p: Play, e: Event)
    requires Inv(p.sys.m) && ValidStore(p.sys.h.store) && e.Goes? && (p.sys.m.pc.Finished? || p.sys.m.pc.Failed?)
    ensures Occurs(setup, p, e) == p
  {
  }

  lemma PlainKeeps(setup: Setup, p: Play, e: Event)
    requires PlayInv(setup, p) && e.Goes?
    requires Plain(p.sys.m.pc) || p.sys.m.pc.Finished? || p.sys.m.pc.Failed?
    ensures PlayInv(setup, Occurs(setup, p, e))
  {
    if !Plain(p.sys.m.pc) {
      OverOccurs(setup, p, e);
    } else {
      PlainOccurs(setup, p, e);
      PlainAnswerKeeps(setup, p);
    }
  }

  lemma PlainAnswerKeeps(setup: Setup, p: Play)
    requires PlayInv(setup, p) && Plain(p.sys.m.pc) && Allowed(p.sys.m.pc, PlainAnswer(p.sys))
    ensures PlayInv(setup, Play(Answering(p.sys, PlainAnswer(p.sys)), p.arrived, p.taken))
  {
    match p.sys.m.pc
    case CheckFinished(_, _) => FinishKeeps(setup, p);
    case AwaitPrepare => PrepareKeeps(setup, p);
    case AwaitFollowup(_) | AwaitFinish(_) => EndingKeeps(setup, p);
    case _ => CheckKeeps(setup, p);
  }

  /** Steering moves the queue into the prompt, and its commands behind those already told. */
  lemma SteeringKeeps(setup: Setup, p: Play, e: Event)
    requires PlayInv(setup, p) && e.Goes? && p.sys.m.pc.AwaitSteering?
    ensures PlayInv(setup, Occurs(setup, p, e))
  {
    var s, queue := p.sys.m.state, p.sys.h.steering;
    var next := Occurs(setup, p, e);
    StepKeeps(p.sys.m, Messages(queue));
    assert next.sys.m == Machine(OnSteering(s, queue), AwaitPrepare);
    TakenCommands(setup, s.request.prompt, p.taken, queue);
    MoreIsTold(setup, Told(setup, p), CommandsOf(queue), s.batches);
  }

  lemma TakenCommands(setup: Setup, prompt: string, taken: seq<string>, queue: seq<string>)
    requires Commands(prompt) == Commands(setup.prompt) + CommandsOf(taken)
    ensures Commands(AppendMessages(prompt, queue)) == Commands(setup.prompt) + CommandsOf(taken + queue)
    ensures Commands(setup.prompt) + CommandsOf(taken + queue) == Commands(setup.prompt) + CommandsOf(taken) + CommandsOf(queue)
    ensures queue == [] ==> taken + queue == taken
  {
    AppendedCommands(prompt, queue);
    CommandsOfConcat(taken, queue);
    Associative(Commands(setup.prompt), CommandsOf(taken), CommandsOf(queue));
    if queue == [] {
      assert taken + queue == taken;
    }
  }

  // ---- Invocation ----

  /** What the producer makes of a request whose first `done` commands have been executed. */
  lemma Produces(setup: Setup, request: TurnRequest, told: seq<string>, done: nat)
    requires Commands(request.prompt) == told && request.runStep == done + 1 && done <= |told|
    requires |request.context.views| == done && (setup.slash ==> done == 0)
    ensures var plan := Produce(setup.resolve, setup.slash, request);
            && (plan.None? <==> Hopeless(setup, told, done))
            && (plan.Some? ==> (plan.value.FinalTurn? <==> setup.slash || done == |told|))
            && (plan.Some? && plan.value.ToolTurn? ==>
                  setup.resolve(told[done]).Some? && plan.value.calls == [Unidentified(setup.resolve(told[done]).value)])
            && (plan.Some? && plan.value.FinalTurn? ==>
                  plan.value.output == if setup.slash then request.prompt else TextOf(Last(request.context.views).output))
            && (plan.Some? ==>
                  plan.value.facts ==
                  [LoopStepFact(done + 1, Plan), ModelTurnFact(done + 1, request.prompt)]
                  + (if plan.value.ToolTurn? then []
                     else if setup.slash then [ResponseReadyFact(if |request.prompt| <= 200 then request.prompt else request.prompt[..200])]
                     else [LoopStepFact(done + 2, Finalize), ResponseReadyFact(plan.value.output)]))
            && (plan.Some? ==> |plan.value.facts| <= 4 && forall i | 0 <= i < |plan.value.facts| :: !IsExecution(plan.value.facts[i]))
  {
  }

  /** The request that the producer is shown. */
  lemma Shown(setup: Setup, p: Play)
    requires PlayInv(setup, p) && p.sys.m.pc.AwaitInvoke?
    ensures var s, told := p.sys.m.state, Told(setup, p);
            && Commands(s.request.prompt) == told && s.request.runStep == |s.results| + 1
            && s.request.context.views == ProjectAll(s.results)
            && |s.results| <= |told| && (setup.slash ==> s.results == [])
  {
  }

  lemma FinalFits(setup: Setup, told: seq<string>, s: State, plan: TurnPlan)
    requires |plan.facts| <= 4 && (forall i | 0 <= i < |plan.facts| :: !IsExecution(plan.facts[i]))
    requires setup.slash ==> s.results == []
    requires plan.FinalTurn? ==> setup.slash || (told != [] && |s.results| == |told|)
    requires plan.FinalTurn? ==>
               plan.output == if setup.slash then s.request.prompt else if s.results == [] then plan.output else TextOf(Last(ProjectAll(s.results)).output)
    ensures PlanFits(setup, told, s, plan)
  {
  }

  lemma ProducesHere(setup: Setup, p: Play)
    requires PlayInv(setup, p) && p.sys.m.pc.AwaitInvoke?
    ensures var s, told := p.sys.m.state, Told(setup, p);
            var plan := Produce(setup.resolve, setup.slash, s.request);
            && (plan.None? ==> Hopeless(setup, told, |s.results|))
            && (plan.Some? ==> PlanFits(setup, told, s, plan.value))
            && (plan.Some? && plan.value.ToolTurn? ==>
                  && !setup.slash && |s.results| < |told| && setup.resolve(told[|s.results|]).Some?
                  && plan.value.calls == [Unidentified(setup.resolve(told[|s.results|]).value)])
  {
    var s, told := p.sys.m.state, Told(setup, p);
    Shown(setup, p);
    Produces(setup, s.request, told, |s.results|);
    var plan := Produce(setup.resolve, setup.slash, s.request);
    if plan.Some? {
      FinalFits(setup, told, s, plan.value);
    }
  }

  lemma InvokeOccurs(setup: Setup, p: Play, e: Event)
    requires Inv(p.sys.m) && ValidStore(p.sys.h.store) && e.Goes? && p.sys.m.pc.AwaitInvoke?
    ensures Occurs(setup, p, e) == Play(Next(p.sys, Producing(setup, p.sys.m.state.request, e.hex)), p.arrived, p.taken)
  {
  }

  lemma ProposalIs(sys: System, plan: TurnPlan, hexes: seq<string>)
    requires Inv(sys.m) && ValidStore(sys.h.store) && sys.m.pc.AwaitInvoke? && Genuine(ProducerProposes(plan, hexes))
    ensures Next(sys, ProducerProposes(plan, hexes)) == Answering(sys, Invoked(Some(plan), hexes))
  {
  }

  lemma InvokeKeeps(setup: Setup, p: Play, e: Event)
    requires PlayInv(setup, p) && e.Goes? && p.sys.m.pc.AwaitInvoke?
    ensures PlayInv(setup, Occurs(setup, p, e))
  {
    var plan := Produce(setup.resolve, setup.slash, p.sys.m.state.request);
    ProducesHere(setup, p);
    InvokeOccurs(setup, p, e);
    if plan.None? {
      InvokeFails(setup, p);
    } else if plan.value.FinalTurn? {
      InvokeEnds(setup, p, plan.value);
    } else {
      BeginsOne(setup, p, plan.value, e.hex);
      ProposalIs(p.sys, plan.value, seq(|plan.value.calls|, _ => e.hex));
    }
  }

  lemma RaisedIs(sys: System)
    requires Inv(sys.m) && ValidStore(sys.h.store) && sys.m.pc.AwaitInvoke?
    ensures Next(sys, CodeRaises) == System(Machine(sys.m.state, Failed(HostRaised)), sys.h, if sys.progress.Reported? then sys.progress else Quiet)
  {
  }

  lemma InvokeFails(setup: Setup, p: Play)
    requires PlayInv(setup, p) && p.sys.m.pc.AwaitInvoke? && Hopeless(setup, Told(setup, p), |p.sys.m.state.results|)
    ensures PlayInv(setup, Play(Next(p.sys, CodeRaises), p.arrived, p.taken))
  {
    RaisedIs(p.sys);
    SameBatches(setup, p, Next(p.sys, CodeRaises));
  }

  lemma InvokeEnds(setup: Setup, p: Play, plan: TurnPlan)
    requires PlayInv(setup, p) && p.sys.m.pc.AwaitInvoke? && plan.FinalTurn? && PlanFits(setup, Told(setup, p), p.sys.m.state, plan)
    ensures PlayInv(setup, Play(Next(p.sys, ProducerProposes(plan, [])), p.arrived, p.taken))
  {
    ProposalIs(p.sys, plan, []);
    FinalStep(p.sys.m, plan);
    SameBatches(setup, p, System(Machine(p.sys.m.state, AwaitObserve(plan)), p.sys.h, Quiet));
  }

  lemma FinalStep(m: Machine, plan: TurnPlan)
    requires m.pc.AwaitInvoke? && plan.FinalTurn? && (m.state.pending != [] ==> m.state.batches != [])
    ensures Step(m, Invoked(Some(plan), [])) == Machine(m.state, AwaitObserve(plan))
  {
  }

  /** One call more: the batch of the next command. */
  lemma BatchFollows(setup: Setup, told: seq<string>, s: State, plan: TurnPlan, hexes: seq<string>)
    requires BatchesFollow(setup, told, s.batches) && ResultsFollow(s) && s.pending == []
    requires !setup.slash && |s.results| < |told| && setup.resolve(told[|s.results|]).Some?
    requires plan.ToolTurn? && plan.calls == [Unidentified(setup.resolve(told[|s.results|]).value)] && |hexes| == 1
    ensures var begun := BeginBatch(s, plan, hexes);
            && begun.Ok? && BatchesFollow(setup, told, begun.value.batches) && ResultsFollow(begun.value)
            && begun.value.request == s.request && begun.value.results == s.results
            && begun.value.plan.Some? && begun.value.plan.value.facts == plan.facts && begun.value.plan.value.ToolTurn?
  {
    var calls := Identified(plan.calls, hexes);
    assert |calls| == 1 && AllDifferent(CallIds(calls));
    var t := BeginBatch(s, plan, hexes).value;
    assert Answers(setup, told[|s.batches|], calls[0]);
    assert forall i | 0 <= i < |s.batches| :: t.batches[i] == s.batches[i];
  }

  lemma BeginsOne(setup: Setup, p: Play, plan: TurnPlan, hex: string)
    requires PlayInv(setup, p) && p.sys.m.pc.AwaitInvoke? && plan.ToolTurn?
    requires var s, told := p.sys.m.state, Told(setup, p);
             && !setup.slash && |s.results| < |told| && setup.resolve(told[|s.results|]).Some?
             && plan.calls == [Unidentified(setup.resolve(told[|s.results|]).value)]
             && PlanFits(setup, told, s, plan)
    ensures PlayInv(setup, Play(Answering(p.sys, Invoked(Some(plan), seq(|plan.calls|, _ => hex))), p.arrived, p.taken))
  {
    var hexes := seq(|plan.calls|, _ => hex);
    BatchFollows(setup, Told(setup, p), p.sys.m.state, plan, hexes);
    var t := BeginBatch(p.sys.m.state, plan, hexes).value;
    StepKeeps(p.sys.m, Invoked(Some(plan), hexes));
    BeginStep(p.sys.m, plan, hexes, t);
    StateMovesOn(setup, p, Machine(t, AwaitObserve(t.plan.value)));
  }

  lemma BeginStep(m: Machine, plan: TurnPlan, hexes: seq<string>, t: State)
    requires m.pc.AwaitInvoke? && plan.ToolTurn? && plan.calls != [] && |hexes| == |plan.calls|
    requires m.state.pending != [] ==> m.state.batches != []
    requires BeginBatch(m.state, plan, hexes) == Ok(t) && t.plan.Some?
    ensures Step(m, Invoked(Some(plan), hexes)) == Machine(t, AwaitObserve(t.plan.value))
  {
  }

  /** The engine's state changes, all else stays. */
  lemma StateMovesOn(setup: Setup, p: Play, m: Machine)
    requires PlayInv(setup, p) && Inv(m) && !setup.slash
    requires m.state.request.prompt == p.sys.m.state.request.prompt && m.state.request.runStep == |m.state.results| + 1
    requires BatchesFollow(setup, Told(setup, p), m.state.batches) && ResultsFollow(m.state)
    requires PlayAt(setup, Told(setup, p), System(m, p.sys.h, Quiet))
    ensures PlayInv(setup, Play(System(m, p.sys.h, Quiet), p.arrived, p.taken))
  {
  }

  // ---- Observation and execution ----

  lemma ObserveOccurs(setup: Setup, p: Play, e: Event, plan: TurnPlan)
    requires Inv(p.sys.m) && ValidStore(p.sys.h.store) && e.Goes? && p.sys.m.pc == AwaitObserve(plan)
    ensures Occurs(setup, p, e) == Play(ObserveNext(p.sys, plan), p.arrived, p.taken)
  {
  }

  lemma ObserveKeeps(setup: Setup, p: Play, e: Event)
    requires PlayInv(setup, p) && e.Goes? && p.sys.m.pc.AwaitObserve?
    ensures PlayInv(setup, Occurs(setup, p, e))
  {
    var plan := p.sys.m.pc.plan;
    ObserveOccurs(setup, p, e, plan);
    if p.sys.progress.Observing? && p.sys.progress.recorded < |plan.facts| {
      FactKeeps(setup, p, plan, p.sys.progress.recorded);
    } else if p.sys.progress.Observing? {
      ObservationEnds(setup, p);
    } else {
      NoticeKeeps(setup, p, plan);
    }
  }

  lemma FactKeeps(setup: Setup, p: Play, plan: TurnPlan, k: nat)
    requires PlayInv(setup, p) && p.sys.m.pc == AwaitObserve(plan) && k < |plan.facts|
    ensures PlayInv(setup, Play(Recording(p.sys, plan.facts[k], Observing(k + 1)), p.arrived, p.taken))
  {
    RecordEffect(p.sys.h, plan.facts[k]);
    SameBatches(setup, p, Recording(p.sys, plan.facts[k], Observing(k + 1)));
  }

  lemma ObservationEnds(setup: Setup, p: Play)
    requires PlayInv(setup, p) && p.sys.m.pc.AwaitObserve?
    ensures PlayInv(setup, Play(Answering(p.sys, Observed(true)), p.arrived, p.taken))
  {
    AnswerKeeps(setup, p, Observed(true));
  }

  lemma NoticeKeeps(setup: Setup, p: Play, plan: TurnPlan)
    requires PlayInv(setup, p) && p.sys.m.pc == AwaitObserve(plan)
    ensures PlayInv(setup, Play(System(p.sys.m, NoticeBatch(p.sys.h, p.sys.m.state.batches), Observing(0)), p.arrived, p.taken))
  {
    SameBatches(setup, p, System(p.sys.m, NoticeBatch(p.sys.h, p.sys.m.state.batches), Observing(0)));
  }

  lemma ExecuteOccurs(setup: Setup, p: Play, e: Event, call: ToolCall)
    requires Inv(p.sys.m) && ValidStore(p.sys.h.store) && e.Goes? && p.sys.m.pc == AwaitExecute(call)
    ensures Occurs(setup, p, e).arrived == p.arrived && Occurs(setup, p, e).taken == p.taken
    ensures Occurs(setup, p, e).sys ==
            match p.sys.progress
            case Reported(report) => Answering(p.sys, Executed(CallReported(report)))
            case Requested => ToolNext(p.sys, call, ToolResult(call.toolName, e.ok, e.output, e.error), call.toolName)
            case _ => Recording(p.sys, ToolRequestedFact(call), Requested)
  {
  }

  lemma ExecuteKeeps(setup: Setup, p: Play, e: Event)
    requires PlayInv(setup, p) && e.Goes? && p.sys.m.pc.AwaitExecute?
    ensures PlayInv(setup, Occurs(setup, p, e))
  {
    var call := p.sys.m.pc.call;
    ExecuteOccurs(setup, p, e, call);
    match p.sys.progress
    case Reported(report) =>
      TakesReport(setup, p, report);
    case Requested =>
      CompletionKeeps(setup, p, call, ToolResult(call.toolName, e.ok, e.output, e.error));
    case _ =>
      RequestKeeps(setup, p, call);
  }

  lemma CompletionKeeps(setup: Setup, p: Play, call: ToolCall, result: ToolResult)
    requires PlayInv(setup, p) && p.sys.m.pc == AwaitExecute(call) && result.toolName == call.toolName
    ensures PlayInv(setup, Play(ToolNext(p.sys, call, result, call.toolName), p.arrived, p.taken))
  {
    InFlight(setup, p);
    var f := ToolCompletedFact(ReportCall(call, result, call.toolName).value, p.sys.h.batchSeed);
    RecordEffect(p.sys.h, f);
    SameBatches(setup, p, Recording(p.sys, f, Reported(f.report)));
  }

  lemma RequestKeeps(setup: Setup, p: Play, call: ToolCall)
    requires PlayInv(setup, p) && p.sys.m.pc == AwaitExecute(call)
    ensures PlayInv(setup, Play(Recording(p.sys, ToolRequestedFact(call), Requested), p.arrived, p.taken))
  {
    InFlight(setup, p);
    RecordEffect(p.sys.h, ToolRequestedFact(call));
    SameBatches(setup, p, Recording(p.sys, ToolRequestedFact(call), Requested));
  }

  /** The call being executed is the one call of the last batch. */
  lemma InFlight(setup: Setup, p: Play)
    requires PlayInv(setup, p) && p.sys.m.pc.AwaitExecute?
    ensures var s := p.sys.m.state;
            s.batches != [] && s.pending == [p.sys.m.pc.call] && Last(s.batches).calls == s.pending && Last(s.batches).results == []
            && HasIdentity(p.sys.m.pc.call.toolCallId)
  {
    var s := p.sys.m.state;
    assert |Last(s.batches).calls| == 1;
    assert Answers(setup, Told(setup, p)[|s.batches| - 1], Last(s.batches).calls[0]);
  }

  /** The report of the call in flight completes the last batch. */
  lemma ReportFollows(setup: Setup, told: seq<string>, s: State, call: ToolCall, report: ReportedCall)
    requires BatchesFollow(setup, told, s.batches) && ResultsFollow(s) && s.batches != [] && s.pending == [call]
    requires Last(s.batches).calls == s.pending && Last(s.batches).results == [] && Reports(call, report)
    ensures var advanced := Advance(s, call, report);
            && advanced.Ok? && BatchesFollow(setup, told, advanced.value.batches) && ResultsFollow(advanced.value)
            && advanced.value.pending == [] && advanced.value.request == s.request.(runStep := s.request.runStep + 1)
            && |advanced.value.results| == |s.results| + 1
  {
    var t := Advance(s, call, report).value;
    assert forall i | 0 <= i < |t.batches| :: t.batches[i].calls == s.batches[i].calls;
    assert forall i | 0 <= i < |s.results| :: t.results[i] == s.results[i] && t.batches[i] == s.batches[i];
    assert Last(t.batches).results == [report] && t.results[|s.results|] == report;
  }

  lemma AdvanceStep(m: Machine, report: ReportedCall)
    requires m.pc.AwaitExecute? && m.state.pending != [] && m.state.batches != [] && Advance(m.state, m.pc.call, report).Ok?
    ensures Step(m, Executed(CallReported(report))) == Machine(Advance(m.state, m.pc.call, report).value, CheckExecuted(CallReported(report)))
  {
  }

  lemma InHand(setup: Setup, p: Play, report: ReportedCall)
    requires PlayInv(setup, p) && p.sys.m.pc.AwaitExecute? && p.sys.progress == Reported(report)
    ensures Reports(p.sys.m.pc.call, report) && !setup.slash
  {
    InFlight(setup, p);
  }

  lemma TakesReport(setup: Setup, p: Play, report: ReportedCall)
    requires PlayInv(setup, p) && p.sys.m.pc.AwaitExecute? && p.sys.progress == Reported(report)
    ensures PlayInv(setup, Play(Answering(p.sys, Executed(CallReported(report))), p.arrived, p.taken))
  {
    var call := p.sys.m.pc.call;
    InFlight(setup, p);
    InHand(setup, p, report);
    ReportFollows(setup, Told(setup, p), p.sys.m.state, call, report);
    StepKeeps(p.sys.m, Executed(CallReported(report)));
    AdvanceStep(p.sys.m, report);
    StateMovesOn(setup, p, Machine(Advance(p.sys.m.state, call, report).value, CheckExecuted(CallReported(report))));
  }

  lemma OccursKeeps(setup: Setup, p: Play, e: Event)
    requires PlayInv(setup, p)
    ensures PlayInv(setup, Occurs(setup, p, e))
  {
    if e.Arrives? {
      ArrivalKeeps(setup, p, e.message);
    } else {
      match p.sys.m.pc
      case AwaitSteering => SteeringKeeps(setup, p, e);
      case AwaitInvoke => InvokeKeeps(setup, p, e);
      case AwaitObserve(_) => ObserveKeeps(setup, p, e);
      case AwaitExecute(_) => ExecuteKeeps(setup, p, e);
      case _ => PlainKeeps(setup, p, e);
    }
  }
}
