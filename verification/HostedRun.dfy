/**
 Engine, memory host and fact store together, one recorded fact at a time: every point at which a
 process can be cut is a state of this system, and a cut can be followed by a restart from the store.
 */
module HostedRun {
  import opened Basics
  import opened Turns
  import opened Pairing
  import opened FactTree
  import opened Engine
  import opened EngineInvariant
  import opened Recovery

  datatype HostState = HostState(
    facts: seq<TurnFact>,
    store: Store,
    steering: seq<string>,
    followup: seq<string>,
    cancelled: bool,
    currentBatch: Option<nat>,
    batchSeed: Option<CallSeed>)

  /** How far the host is with the question it is answering. */
  datatype Progress =
    | Quiet
    | Observing(recorded: nat)
    | Requested
    | Reported(report: ReportedCall)
    | Refused

  datatype System = System(m: Machine, h: HostState, progress: Progress)

  /** What the surroundings do next: users, the producer, the tools, a crash, or plain continuation. */
  datatype Choice =
    | Steer(message: string)
    | FollowUp(message: string)
    | SetCancelled(flag: bool)
    | Continue
    | ProducerYields(fact: TurnFact)
    | ProducerProposes(plan: TurnPlan, hexes: seq<string>)
    | ToolReturns(result: ToolResult, finalToolName: string)
    | CodeRaises
    | CrashAndRestart(request: TurnRequest, given: seq<ReportedCall>, repair: bool)

  /** Producers report steps, model turns and streams; only the host speaks of executions. */
  ghost predicate Genuine(c: Choice) {
    match c
    case ProducerYields(f) => !IsExecution(f)
    case ProducerProposes(plan, hexes) =>
      && (forall i | 0 <= i < |plan.facts| :: !IsExecution(plan.facts[i]))
      && (plan.ToolTurn? ==> plan.calls != [] && |hexes| == |plan.calls|)
    case _ => true
  }

  /** Every fact is kept by the host; the store gets all but the live stream, and may refuse one. */
  function Record(h: HostState, f: TurnFact): (r: (HostState, bool)) {
    var kept := h.(facts := h.facts + [f]);
    if f.StreamFact? then (kept, true)
    else
      var stored := Append(h.store, [f], []);
      if stored.Raise? then (kept, false) else (kept.(store := stored.value), true)
  }

  function PreparedRequest(s: State): TurnRequest
    requires RefersTo(s.transcript, |s.batches|)
  {
    var views := ProjectAll(s.results);
    s.request.(context := Context(s.request.prompt, views, Segments(s.batches, s.transcript, Some(views))))
  }

  /** The host notices a new batch by identity and derives the snapshot its completions will carry. */
  function NoticeBatch(h: HostState, batches: seq<TurnBatch>): HostState {
    if batches != [] && h.currentBatch != Some(|batches| - 1) then
      h.(currentBatch := Some(|batches| - 1), batchSeed := Some(Snapshot(Last(batches))))
    else h
  }

  function Answering(sys: System, a: Answer): System
    requires Inv(sys.m) && Allowed(sys.m.pc, a)
  {
    System(Step(sys.m, a), sys.h, Quiet)
  }

  /** The run ends in an exception; a completion that is already recorded stays recorded. */
  function Abandoned(sys: System): System
    requires Inv(sys.m) && Allowed(sys.m.pc, HostFails)
  {
    System(Step(sys.m, HostFails), sys.h, if sys.progress.Reported? then sys.progress else Quiet)
  }

  function Recording(sys: System, f: TurnFact, progress: Progress): System {
    var (h, ok) := Record(sys.h, f);
    if ok then System(sys.m, h, progress) else System(Machine(sys.m.state, Failed(HostRaised)), h, Refused)
  }

  function ObserveNext(sys: System, plan: TurnPlan): System
    requires Inv(sys.m) && sys.m.pc == AwaitObserve(plan)
  {
    match sys.progress
    case Observing(k) =>
      if k < |plan.facts| then Recording(sys, plan.facts[k], Observing(k + 1))
      else Answering(sys, Observed(!sys.h.cancelled))
    case _ => System(sys.m, NoticeBatch(sys.h, sys.m.state.batches), Observing(0))
  }

  function ExecuteNext(sys: System, call: ToolCall): System
    requires Inv(sys.m) && sys.m.pc == AwaitExecute(call)
  {
    match sys.progress
    case Reported(report) => Answering(sys, Executed(CallReported(report)))
    case Requested => sys
    case _ => Recording(sys, ToolRequestedFact(call), Requested)
  }

  function ContinueNext(sys: System): System
    requires Inv(sys.m)
  {
    match sys.m.pc
    case Top | CheckPrepared | CheckObserved(_) | CheckFinished(_, _) | CheckExecuted(_) =>
      Answering(sys, Signal(sys.h.cancelled))
    case AwaitSteering => Answering(sys.(h := sys.h.(steering := [])), Messages(sys.h.steering))
    case AwaitFollowup(_) => Answering(sys.(h := sys.h.(followup := [])), Messages(sys.h.followup))
    case AwaitPrepare => Answering(sys, Prepared(Some(PreparedRequest(sys.m.state))))
    case AwaitFinish(_) => Answering(sys, Continuation(None))
    case AwaitObserve(plan) => ObserveNext(sys, plan)
    case AwaitExecute(call) => ExecuteNext(sys, call)
    case AwaitInvoke | Finished(_) | Failed(_) => sys
  }

  function ToolNext(sys: System, call: ToolCall, result: ToolResult, finalToolName: string): System
    requires Inv(sys.m) && sys.m.pc == AwaitExecute(call)
  {
    var report := ReportCall(call, result, finalToolName);
    if report.None? then Abandoned(sys)
    else Recording(sys, ToolCompletedFact(report.value, sys.h.batchSeed), Reported(report.value))
  }

  function FreshHost(store: Store): HostState {
    HostState([], store, [], [], false, None, None)
  }

  lemma {:induction false} UpToIsShorter(facts: seq<TurnFact>)
    ensures |UpToLastCompletion(facts)| <= |facts|
  {
    if facts != [] {
      UpToIsShorter(Front(facts));
    }
  }

  /** The store that a restart reads: as the crash left it, or with its last completion checked out if that is allowed. */
  function Survivor(store: Store, repair: bool): (survivor: Store)
    requires ValidStore(store)
    ensures ValidStore(survivor)
  {
    var n := |UpToLastCompletion(CurrentFacts(store))|;
    if !repair || n == 0 then store
    else
      UpToIsShorter(CurrentFacts(store));
      var moved := Checkout(store, Current(store)[n - 1].sequence);
      if moved.Ok? then moved.value else store
  }

  /** A new engine and a new host over the surviving store, when it yields a seed. */
  function Restarted(store: Store, request: TurnRequest, given: seq<ReportedCall>): Option<System>
    requires ValidStore(store)
  {
    var seed := Restore(CurrentFacts(store));
    if seed.Raise? then None
    else
      var started := Start(request, given, Some(seed.value), seq(|seed.value.calls|, _ => ""));
      if started.Raise? then None else Some(System(started.value, FreshHost(store), Quiet))
  }

  /** One step of the whole; a choice that does not fit the moment changes nothing. */
  function Next(sys: System, c: Choice): System
    requires Inv(sys.m) && ValidStore(sys.h.store) && Genuine(c)
  {
    match c
    case Steer(message) => sys.(h := sys.h.(steering := sys.h.steering + [message]))
    case FollowUp(message) => sys.(h := sys.h.(followup := sys.h.followup + [message]))
    case SetCancelled(flag) => sys.(h := sys.h.(cancelled := flag))
    case Continue => ContinueNext(sys)
    case ProducerYields(fact) => if sys.m.pc.AwaitInvoke? then Recording(sys, fact, Quiet) else sys
    case ProducerProposes(plan, hexes) =>
      if sys.m.pc.AwaitInvoke? then Answering(sys, Invoked(Some(plan), hexes)) else sys
    case ToolReturns(result, name) =>
      if sys.m.pc.AwaitExecute? && sys.progress.Requested? then ToolNext(sys, sys.m.pc.call, result, name) else sys
    case CodeRaises => if Allowed(sys.m.pc, HostFails) then Abandoned(sys) else sys
    case CrashAndRestart(request, given, repair) =>
      var again := Restarted(Survivor(sys.h.store, repair), request, given);
      if again.None? then sys else again.value
  }

  // ---- A chain of runs over one store ----

  /**
   A system with its history: the batches that earlier runs of the chain had finished with when the
   current one was restarted, and the facts that were on the lineage by then.
   */
  datatype Chain = Chain(sys: System, past: seq<TurnBatch>, base: seq<TurnFact>)

  /** All batches of the chain, as recorded: a report is accounted for as soon as it is in the store. */
  function AllBatches(c: Chain): seq<TurnBatch> {
    var all := c.past + c.sys.m.state.batches;
    if c.sys.progress.Reported? && all != [] then Answered(all, c.sys.progress.report) else all
  }

  /** The batches before the one recovery continues with. */
  function BeforeLatest(all: seq<TurnBatch>): seq<TurnBatch>
    requires all != []
  {
    if Last(all).results != [] then Front(all) else if |all| > 1 then all[..|all| - 2] else []
  }

  function NextChain(c: Chain, choice: Choice): Chain
    requires Inv(c.sys.m) && ValidStore(c.sys.h.store) && Genuine(choice)
  {
    var next := Next(c.sys, choice);
    if !choice.CrashAndRestart? then c.(sys := next)
    else
      var store := Survivor(c.sys.h.store, choice.repair);
      if Restarted(store, choice.request, choice.given).None? then c
      else Chain(next, if AllBatches(c) == [] then [] else BeforeLatest(AllBatches(c)), CurrentFacts(store))
  }

  function NonStream(facts: seq<TurnFact>): seq<TurnFact> {
    if facts == [] then []
    else if Last(facts).StreamFact? then NonStream(Front(facts))
    else NonStream(Front(facts)) + [Last(facts)]
  }

  // ---- The invariant of the chain ----

  ghost predicate SeedOk(h: HostState, batches: seq<TurnBatch>) {
    h.currentBatch.Some? ==>
      h.currentBatch.value < |batches| && h.batchSeed == Some(Snapshot(batches[h.currentBatch.value]))
  }

  ghost predicate SeedCurrent(h: HostState, batches: seq<TurnBatch>) {
    batches != [] ==> h.currentBatch == Some(|batches| - 1)
  }

  /** Where the progress of the host can stand for each question. */
  ghost predicate ProgressOk(sys: System) {
    match sys.m.pc
    case AwaitObserve(plan) =>
      && (sys.progress.Quiet? || (sys.progress.Observing? && sys.progress.recorded <= |plan.facts| && SeedCurrent(sys.h, sys.m.state.batches)))
      && (forall i | 0 <= i < |plan.facts| :: !IsExecution(plan.facts[i]))
    case CheckObserved(_) => sys.progress.Quiet? && SeedCurrent(sys.h, sys.m.state.batches)
    case AwaitExecute(call) =>
      && SeedCurrent(sys.h, sys.m.state.batches)
      && (sys.progress.Quiet? || sys.progress.Requested? ||
          (sys.progress.Reported? && Some(sys.progress.report.toolCallId) == call.toolCallId))
    case CheckExecuted(outcome) => sys.progress.Quiet? && outcome.CallReported?
    case Failed(_) => sys.progress.Quiet? || sys.progress.Refused? || sys.progress.Reported?
    case _ => sys.progress.Quiet?
  }

  /** A plan taken up again carries no facts of its own, so nothing is recorded twice for one turn. */
  ghost predicate PlanQuiet(m: Machine) {
    var s := m.state;
    s.pending != [] && s.batches != [] ==>
      match m.pc
      case Top | AwaitPrepare | CheckPrepared => s.plan.Some? && s.plan.value.facts == [] && Last(s.batches).results != []
      case AwaitObserve(plan) => Last(s.batches).results != [] ==> plan.facts == []
      case CheckObserved(plan) => Last(s.batches).results != [] ==> plan.facts == []
      case AwaitExecute(_) =>
        s.plan.Some? && s.plan.value.ToolTurn? && (Last(s.batches).results != [] ==> s.plan.value.facts == [])
      case CheckExecuted(_) => Last(s.batches).results != []
      case _ => true
  }

  /** Did the producer end a turn since the last batch was entered? */
  function TurnEndedSince(transcript: seq<Entry>): bool {
    if transcript == [] || Last(transcript).BatchAt? then false
    else Last(transcript).segment.role == Assistant || TurnEndedSince(Front(transcript))
  }

  /** The step counter never falls behind the last batch, and matches it exactly until a turn ends. */
  ghost predicate StepNumbers(s: State) {
    s.batches != [] ==>
      && Last(s.batches).runStep + |Last(s.batches).results| <= s.request.runStep
      && (!TurnEndedSince(s.transcript) ==> s.request.runStep == Last(s.batches).runStep + |Last(s.batches).results|)
  }

  /** Only a follow-up or a continuation moves the counter, and both come after a turn has ended. */
  ghost predicate EndedOk(m: Machine) {
    (m.pc.AwaitFollowup? || m.pc.AwaitFinish? || m.pc.CheckFinished?) ==> TurnEndedSince(m.state.transcript)
  }

  ghost predicate AskedOk(c: Chain)
    requires ValidStore(c.sys.h.store)
  {
    c.sys.progress.Requested? ==> Asked(AfterLastCompletion(CurrentFacts(c.sys.h.store)))
  }

  /** The lineage is what the host kept, without the live stream, behind what the store held before. */
  ghost predicate HostMatches(c: Chain)
    requires ValidStore(c.sys.h.store)
  {
    && (c.sys.progress.Refused? ==> c.sys.h.facts != [])
    && CurrentFacts(c.sys.h.store) ==
       c.base + NonStream(if c.sys.progress.Refused? then Front(c.sys.h.facts) else c.sys.h.facts)
  }

  ghost predicate ChainInv(c: Chain) {
    var sys := c.sys;
    && Inv(sys.m)
    && ValidStore(sys.h.store)
    && (c.past != [] ==> sys.m.state.batches != [])
    && BatchesOk(c.past + sys.m.state.batches)
    && Sound(CurrentFacts(sys.h.store), AllBatches(c))
    && SeedOk(sys.h, sys.m.state.batches)
    && ProgressOk(sys)
    && PlanQuiet(sys.m)
    && StepNumbers(sys.m.state) && EndedOk(sys.m)
    && AskedOk(c)
    && HostMatches(c)
  }

  function Begun(request: TurnRequest, given: seq<ReportedCall>, cancelled: bool): Chain {
    Chain(System(Machine(InitialState(request, given), Top), FreshHost(EMPTY).(cancelled := cancelled), Quiet), [], [])
  }

  lemma BegunInv(request: TurnRequest, given: seq<ReportedCall>, cancelled: bool)
    ensures ChainInv(Begun(request, given, cancelled))
  {
    var c := Begun(request, given, cancelled);
    StartInv(request, given, None, []);
    assert c.past + c.sys.m.state.batches == [];
    assert CurrentFacts(EMPTY) == [];
    LogEmpty();
  }

  // ---- Recording one fact ----

  lemma RecordEffect(h: HostState, f: TurnFact)
    requires ValidStore(h.store)
    ensures var (kept, ok) := Record(h, f);
            && ValidStore(kept.store)
            && kept == h.(facts := h.facts + [f], store := kept.store)
            && (ok <==> f.StreamFact? || FactError(f).None?)
            && CurrentFacts(kept.store) == CurrentFacts(h.store) + (if ok && !f.StreamFact? then [f] else [])
  {
    if !f.StreamFact? {
      assert Front([f]) == [];
      assert FirstError([f]) == FactError(f);
      if FactError(f).None? {
        assert KeysFor([f], []) == [None];
        assert Front(KeysFor([f], [])) == [];
        assert AdmitAll(h.store, [f], [None]) == Admit(AdmitAll(h.store, [], []), f, None);
        AdmitKeeps(h.store, f, None);
      }
    }
  }

  lemma NonStreamSnoc(base: seq<TurnFact>, facts: seq<TurnFact>, f: TurnFact)
    ensures base + NonStream(facts + [f]) == base + NonStream(facts) + (if f.StreamFact? then [] else [f])
  {
    assert Front(facts + [f]) == facts;
  }

  /** All batches when no report is waiting to be taken over. */
  lemma SettledBatches(c: Chain)
    requires !c.sys.progress.Reported?
    ensures AllBatches(c) == c.past + c.sys.m.state.batches
  {
  }

  lemma LastOfAll(past: seq<TurnBatch>, batches: seq<TurnBatch>)
    requires batches != []
    ensures Last(past + batches) == Last(batches) && Front(past + batches) == past + Front(batches)
  {
  }

  /** The next call of the chain is the engine's next pending call. */
  lemma PendingIsNext(c: Chain)
    requires ChainInv(c) && !c.sys.progress.Reported? && c.sys.m.state.pending != []
    ensures Unanswered(AllBatches(c)) && NextCall(AllBatches(c)) == c.sys.m.state.pending[0]
  {
    LastOfAll(c.past, c.sys.m.state.batches);
  }

  lemma NothingPendingAllAnswered(c: Chain)
    requires ChainInv(c) && !c.sys.progress.Reported? && c.sys.m.state.pending == []
    ensures !Unanswered(AllBatches(c))
  {
    if c.sys.m.state.batches != [] {
      LastOfAll(c.past, c.sys.m.state.batches);
    }
  }
}
