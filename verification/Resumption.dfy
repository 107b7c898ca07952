/** Resume simulates continue, wherever a run with a started batch is cut off before its turn ends. */
module Resumption {
  import opened Basics
  import opened Turns
  import opened FactTree
  import opened Engine
  import opened EngineInvariant
  import opened Likeness
  import opened Recovery
  import opened HostedRun
  import opened HostedInvariant

  /**
   A cut inside a started batch: a call of the last batch is completed on record, its identities are not
   empty, the producer has not ended a turn since, and the run is not over.
   */
  ghost predicate CutInBatch(c: Chain) {
    && ChainInv(c)
    && c.sys.m.state.batches != [] && !TurnEndedSince(c.sys.m.state.transcript)
    && Last(AllBatches(c)).results != [] && NoEmptyIdentity(Last(AllBatches(c)).calls)
    && !c.sys.m.pc.Finished? && !c.sys.m.pc.Failed?
  }

  /** What the interrupted engine still had to be told of a call whose completion is on record. */
  function Settling(sys: System): seq<Answer> {
    if sys.progress.Reported? then [Executed(CallReported(sys.progress.report)), Signal(false)]
    else if sys.m.pc.CheckExecuted? then [Signal(false)]
    else []
  }

  /** The call whose completion is on record though the engine has not taken it over. */
  function Outstanding(sys: System): seq<ToolCall> {
    if sys.progress.Reported? && sys.m.pc.AwaitExecute? then [sys.m.pc.call] else []
  }

  // ---- The restart ----

  lemma LastIsLatest(c: Chain)
    requires CutInBatch(c)
    ensures var all := AllBatches(c); all != [] && AnyCompletion(all) && Latest(all) == Last(all) && BatchOk(Last(all))
    ensures Sound(CurrentFacts(c.sys.h.store), AllBatches(c))
  {
    var all := AllBatches(c);
    assert all != [];
    assert BatchOk(all[|all| - 1]);
  }

  lemma CutRestores(facts: seq<TurnFact>, all: seq<TurnBatch>)
    requires Sound(facts, all) && all != [] && Last(all).results != [] && NoEmptyIdentity(Last(all).calls)
    ensures Restore(facts).Ok?
  {
    RestoreExact(facts, all);
  }

  lemma CutRestarts(c: Chain, request: TurnRequest, given: seq<ReportedCall>)
    requires CutInBatch(c)
    ensures var again := Restarted(c.sys.h.store, request, given);
            again.Some? && BatchOk(Last(AllBatches(c))) && Continues(again.value.m, Last(AllBatches(c)), request)
  {
    LastIsLatest(c);
    CutRestores(CurrentFacts(c.sys.h.store), AllBatches(c));
    RestartedIs(c, request, given);
  }

  // ---- Standing by the same batch ----

  lemma StandsBy(m: Machine, n: Machine, b: TurnBatch, request: TurnRequest)
    requires Inv(m) && m.state.batches != [] && Last(m.state.batches) == b && BatchOk(b) && Continues(n, b, request)
    requires m.state.request.runStep == b.runStep + |b.results|
    ensures Standing(m, n)
  {
  }

  /** Cut off with nothing half done: before, at, or during an execution. */
  lemma QuietCut(c: Chain, request: TurnRequest, given: seq<ReportedCall>)
    requires CutInBatch(c) && !c.sys.progress.Reported? && !c.sys.m.pc.CheckExecuted?
    ensures var again := Restarted(c.sys.h.store, request, given);
            again.Some? && Standing(c.sys.m, again.value.m) && PlanFree(c.sys.m) && BeforeExecution(c.sys.m.pc)
  {
    CutRestarts(c, request, given);
    CutState(c);
    StandsBy(c.sys.m, Restarted(c.sys.h.store, request, given).value.m, Last(AllBatches(c)), request);
  }

  lemma CutState(c: Chain)
    requires CutInBatch(c) && !c.sys.progress.Reported?
    ensures var s := c.sys.m.state;
            && Inv(c.sys.m) && Last(AllBatches(c)) == Last(s.batches)
            && s.request.runStep == Last(s.batches).runStep + |Last(s.batches).results|
    ensures !c.sys.m.pc.CheckExecuted? ==> PlanFree(c.sys.m) && BeforeExecution(c.sys.m.pc)
    ensures c.sys.m.pc.CheckExecuted? ==> c.sys.m.pc.outcome.CallReported?
  {
    SettledBatches(c);
    LastOfAll(c.past, c.sys.m.state.batches);
  }

  /** Cut off after the engine has taken over a report: it is back at its loop head after one more look. */
  lemma CheckCut(c: Chain, request: TurnRequest, given: seq<ReportedCall>)
    requires CutInBatch(c) && c.sys.m.pc.CheckExecuted?
    ensures var again, next := Restarted(c.sys.h.store, request, given), Step(c.sys.m, Signal(false));
            again.Some? && Standing(next, again.value.m) && PlanFree(next) && next.pc == Top
  {
    NothingReportedAtCheck(c);
    CutRestarts(c, request, given);
    CutState(c);
    StepKeeps(c.sys.m, Signal(false));
    BackAtTop(c.sys.m);
    StandsBy(Step(c.sys.m, Signal(false)), Restarted(c.sys.h.store, request, given).value.m, Last(AllBatches(c)), request);
  }

  lemma NothingReportedAtCheck(c: Chain)
    requires ChainInv(c) && c.sys.m.pc.CheckExecuted?
    ensures !c.sys.progress.Reported?
  {
  }

  lemma BackAtTop(m: Machine)
    requires m.pc.CheckExecuted? && m.pc.outcome.CallReported? && (m.state.pending != [] ==> m.state.batches != [])
    ensures var next := Step(m, Signal(false));
            && next.pc == Top && next.state.batches == m.state.batches && next.state.request == m.state.request
            && PlanFree(next)
  {
  }

  /** Cut off with the completion on record and the engine not yet told. */
  lemma ReportedCut(c: Chain, request: TurnRequest, given: seq<ReportedCall>)
    requires CutInBatch(c) && c.sys.progress.Reported?
    ensures c.sys.m.pc.AwaitExecute? && c.sys.m.state.pending != []
    ensures var again := Restarted(c.sys.h.store, request, given);
            var taken := Step(c.sys.m, Executed(CallReported(c.sys.progress.report)));
            && taken.pc.CheckExecuted? && Inv(taken)
            && var next := Step(taken, Signal(false));
               again.Some? && Standing(next, again.value.m) && PlanFree(next) && next.pc == Top
  {
    var report := c.sys.progress.report;
    CutRestarts(c, request, given);
    ReportedState(c);
    TakesOver(c.sys.m, report);
    var taken := Step(c.sys.m, Executed(CallReported(report)));
    TakenState(c, taken);
    StepKeeps(taken, Signal(false));
    BackAtTop(taken);
    StandsBy(Step(taken, Signal(false)), Restarted(c.sys.h.store, request, given).value.m, Last(AllBatches(c)), request);
  }

  lemma ReportedState(c: Chain)
    requires CutInBatch(c) && c.sys.progress.Reported?
    ensures c.sys.m.pc.AwaitExecute? && c.sys.m.state.pending != [] && Inv(c.sys.m) && StepNumbers(c.sys.m.state)
    ensures Some(c.sys.progress.report.toolCallId) == c.sys.m.pc.call.toolCallId
    ensures Last(AllBatches(c)) == WithResult(Last(c.sys.m.state.batches), c.sys.progress.report)
    ensures c.sys.m.state.request.runStep == Last(c.sys.m.state.batches).runStep + |Last(c.sys.m.state.batches).results|
  {
    LastOfAll(c.past, c.sys.m.state.batches);
  }

  lemma TakenState(c: Chain, taken: Machine)
    requires CutInBatch(c) && c.sys.progress.Reported? && c.sys.m.pc.AwaitExecute? && c.sys.m.state.pending != []
    requires taken.state.batches == Answered(c.sys.m.state.batches, c.sys.progress.report)
    requires Advance(c.sys.m.state, c.sys.m.pc.call, c.sys.progress.report).Ok?
    requires taken.state == Advance(c.sys.m.state, c.sys.m.pc.call, c.sys.progress.report).value
    ensures taken.state.batches != [] && Last(taken.state.batches) == Last(AllBatches(c))
    ensures taken.state.request.runStep == Last(AllBatches(c)).runStep + |Last(AllBatches(c)).results|
  {
    ReportedState(c);
  }

  // ---- Resume simulates continue ----

  lemma SettlesTo(c: Chain, request: TurnRequest, given: seq<ReportedCall>) returns (settled: Machine)
    requires CutInBatch(c)
    ensures PlaysTo(c.sys.m, Settling(c.sys), settled, Outstanding(c.sys)) && Inv(settled)
    ensures var again := Restarted(c.sys.h.store, request, given);
            again.Some? && Standing(settled, again.value.m) && PlanFree(settled) && BeforeExecution(settled.pc)
  {
    if c.sys.progress.Reported? {
      ReportedCut(c, request, given);
      settled := SettlesReport(c.sys.m, c.sys.progress.report);
    } else if c.sys.m.pc.CheckExecuted? {
      CheckCut(c, request, given);
      OneAnswer(c.sys.m, Signal(false));
      settled := Step(c.sys.m, Signal(false));
    } else {
      QuietCut(c, request, given);
      PlaysNothing(c.sys.m);
      settled := c.sys.m;
    }
  }

  lemma SettlesReport(m: Machine, report: ReportedCall) returns (settled: Machine)
    requires Inv(m) && m.pc.AwaitExecute?
    requires Step(m, Executed(CallReported(report))).pc.CheckExecuted? && Inv(Step(m, Executed(CallReported(report))))
    ensures settled == Step(Step(m, Executed(CallReported(report))), Signal(false)) && Inv(settled)
    ensures PlaysTo(m, [Executed(CallReported(report)), Signal(false)], settled, [m.pc.call])
  {
    var taken := Step(m, Executed(CallReported(report)));
    settled := Step(taken, Signal(false));
    TwoAnswers(m, Executed(CallReported(report)), taken, Signal(false), settled);
  }

  /**
   Wherever a run is cut off inside a started batch, before its turn ends: recovery succeeds, and the
   restarted run can be led, executing nothing, to where the interrupted one stood: the same question, the
   same pending calls, the same batch with the same results, the same step. A completion that was on record
   and not yet taken over counts as taken over.
   */
  lemma RestartStandsAlike(c: Chain, request: TurnRequest, given: seq<ReportedCall>) returns (lead: seq<Answer>)
    requires CutInBatch(c)
    ensures var again := Restarted(c.sys.h.store, request, given);
            && again.Some? && Inv(again.value.m) && Inv(c.sys.m)
            && PlaysTo(c.sys.m, Settling(c.sys), Play(c.sys.m, Settling(c.sys)), Outstanding(c.sys))
            && Reaches(again.value.m, lead, Play(again.value.m, lead))
            && Alike(Play(c.sys.m, Settling(c.sys)), Play(again.value.m, lead))
  {
    var settled := SettlesTo(c, request, given);
    var n := Restarted(c.sys.h.store, request, given).value.m;
    lead := Lead(n, settled.pc);
    LeadReaches(settled, n);
    LedAlike(settled, n);
  }

  /**
   Hence the restarted run executes exactly the calls that the interrupted run had still to execute, under
   the same answers of the host from there on.
   */
  lemma ResumeSimulatesContinue(c: Chain, request: TurnRequest, given: seq<ReportedCall>, a: seq<Answer>, b: seq<Answer>)
    returns (lead: seq<Answer>)
    requires CutInBatch(c) && SameAnswers(a, b)
    requires Inv(c.sys.m) && Fits(Play(c.sys.m, Settling(c.sys)), a)
    ensures var again := Restarted(c.sys.h.store, request, given);
            && again.Some? && Inv(again.value.m) && Fits(again.value.m, lead) && Executions(again.value.m, lead) == []
            && Fits(again.value.m, lead + b)
            && Executions(again.value.m, lead + b) == Executions(Play(c.sys.m, Settling(c.sys)), a)
    ensures Fits(c.sys.m, Settling(c.sys) + a)
    ensures Executions(c.sys.m, Settling(c.sys) + a) == Outstanding(c.sys) + Executions(Play(c.sys.m, Settling(c.sys)), a)
  {
    lead := RestartStandsAlike(c, request, given);
    var n, settled := Restarted(c.sys.h.store, request, given).value.m, Play(c.sys.m, Settling(c.sys));
    ContinueAlike(c.sys.m, Settling(c.sys), settled, Outstanding(c.sys), n, lead, Play(n, lead), a, b);
  }

  // ---- Cuts between two batches ----

  /**
   A cut after a new batch was begun and before a call of it is completed: recovery succeeds, with the batch
   before it, and no turn was ended in between, so that the new batch has the step after that one's last.
   */
  ghost predicate CutAtStart(c: Chain) {
    && ChainInv(c) && Restore(CurrentFacts(c.sys.h.store)).Ok?
    && c.sys.m.state.batches != [] && Last(AllBatches(c)).results == []
    && AnyCompletion(AllBatches(c)) && Last(AllBatches(c)).runStep == Latest(AllBatches(c)).runStep + |Latest(AllBatches(c)).results|
    && !c.sys.m.pc.Finished? && !c.sys.m.pc.Failed?
  }

  /** The turn that the producer had proposed, as far as the host has to execute it. */
  function Proposal(s: State): TurnPlan
    requires s.batches != [] && s.plan.Some?
  {
    ToolTurn(Last(s.batches).calls, s.plan.value.facts, Last(s.batches).reasoning)
  }

  /** The restarted run is given the same turn and led on to the question of the interrupted one. */
  function LeadAnew(n: Machine, m: Machine): seq<Answer>
    requires m.state.batches != [] && m.state.plan.Some?
  {
    var hexes := seq(|Last(m.state.batches).calls|, _ => "");
    ToPlan(n) + [Invoked(Some(Proposal(m.state)), hexes)]
    + (if m.pc.AwaitObserve? then [] else [Observed(true)]) + (if m.pc.AwaitExecute? then [Signal(false)] else [])
  }

  /** A machine with a new batch, none of whose calls is answered. */
  ghost predicate FreshBatch(m: Machine) {
    && Inv(m) && m.state.batches != [] && Last(m.state.batches).results == []
    && m.state.pending == Last(m.state.batches).calls
    && m.state.plan.Some? && m.state.plan.value.ToolTurn?
    && m.state.request.runStep == Last(m.state.batches).runStep
    && (m.pc == AwaitObserve(m.state.plan.value) || m.pc == CheckObserved(m.state.plan.value) || m.pc == AwaitExecute(m.state.pending[0]))
  }

  lemma StartState(c: Chain)
    requires CutAtStart(c)
    ensures FreshBatch(c.sys.m) && Last(AllBatches(c)) == Last(c.sys.m.state.batches)
  {
    NotReportedAtStart(c);
    SettledBatches(c);
    LastOfAll(c.past, c.sys.m.state.batches);
    FreshIs(c.sys.m);
  }

  lemma NotReportedAtStart(c: Chain)
    requires CutAtStart(c)
    ensures !c.sys.progress.Reported?
  {
  }

  lemma FreshIs(m: Machine)
    requires Inv(m) && PlanQuiet(m) && StepNumbers(m.state) && m.state.batches != [] && Last(m.state.batches).results == []
    requires !m.pc.Finished? && !m.pc.Failed?
    ensures FreshBatch(m)
  {
    var b := Last(m.state.batches);
    assert BatchOk(b) by {
      assert BatchOk(m.state.batches[|m.state.batches| - 1]);
    }
    assert b.calls[0..] == b.calls;
    assert !TurnEndedSince(m.state.transcript);
  }

  /** A new batch begun again on a restarted machine. */
  lemma BeginsAnew(m: Machine, n: Machine) returns (begun: State)
    requires FreshBatch(m) && Inv(n) && n.pc == Top && n.state.pending == [] && n.state.request.runStep == m.state.request.runStep
    ensures begun.pending == m.state.pending && begun.batches == n.state.batches + [Last(m.state.batches)]
    ensures begun.request == n.state.request && begun.plan == Some(Proposal(m.state))
    ensures Reaches(n, LeadAnew(n, m), Machine(begun, if m.pc.AwaitExecute? then m.pc
                                                       else if m.pc.AwaitObserve? then AwaitObserve(Proposal(m.state))
                                                       else CheckObserved(Proposal(m.state))))
  {
    var s, plan, b := n.state, Proposal(m.state), Last(m.state.batches);
    var hexes := seq(|b.calls|, _ => "");
    begun := BeginsAgain(s, b, plan, hexes);
    ReachesPlan(n);
    ReachesNext(n, ToPlan(n), Machine(s, AwaitInvoke), Invoked(Some(plan), hexes), Machine(begun, AwaitObserve(plan)));
    var led := ToPlan(n) + [Invoked(Some(plan), hexes)];
    if m.pc.AwaitObserve? {
      assert LeadAnew(n, m) == led;
    } else {
      ReachesNext(n, led, Machine(begun, AwaitObserve(plan)), Observed(true), Machine(begun, CheckObserved(plan)));
      if m.pc.AwaitExecute? {
        ReachesNext(n, led + [Observed(true)], Machine(begun, CheckObserved(plan)), Signal(false), Machine(begun, m.pc));
        assert LeadAnew(n, m) == led + [Observed(true)] + [Signal(false)];
      } else {
        assert LeadAnew(n, m) == led + [Observed(true)];
      }
    }
  }

  lemma BeginsAgain(s: State, b: TurnBatch, plan: TurnPlan, hexes: seq<string>) returns (begun: State)
    requires BatchOk(b) && b.results == [] && s.pending == [] && s.request.runStep == b.runStep && |hexes| == |b.calls|
    requires plan.ToolTurn? && plan.calls == b.calls && plan.reasoning == b.reasoning
    ensures BeginBatch(s, plan, hexes) == Ok(begun)
    ensures begun.pending == b.calls && begun.batches == s.batches + [b] && begun.request == s.request && begun.plan == Some(plan)
  {
    IdentifiedIsSame(b.calls, hexes);
    begun := BeginBatch(s, plan, hexes).value;
  }

  lemma AnewAlike(m: Machine, begun: State, pc: Pc)
    requires FreshBatch(m) && begun.pending == m.state.pending && begun.batches != [] && Last(begun.batches) == Last(m.state.batches)
    requires begun.request.runStep == m.state.request.runStep && begun.plan == Some(Proposal(m.state))
    requires pc == if m.pc.AwaitExecute? then m.pc
                   else if m.pc.AwaitObserve? then AwaitObserve(Proposal(m.state)) else CheckObserved(Proposal(m.state))
    ensures Alike(m, Machine(begun, pc))
  {
  }

  lemma StartRestarts(c: Chain, request: TurnRequest, given: seq<ReportedCall>)
    requires CutAtStart(c)
    ensures var again := Restarted(c.sys.h.store, request, given);
            again.Some? && Inv(again.value.m) && again.value.m.pc == Top && again.value.m.state.pending == []
            && again.value.m.state.request.runStep == Last(AllBatches(c)).runStep
  {
    RestartedIs(c, request, given);
    LatestIsComplete(AllBatches(c));
  }

  lemma LatestIsComplete(all: seq<TurnBatch>)
    requires BatchesOk(all) && AnyCompletion(all) && Last(all).results == []
    ensures BatchOk(Latest(all)) && Remaining(Latest(all)) == []
  {
    assert Complete(all[|all| - 2]) && BatchOk(all[|all| - 2]);
  }

  /** Given the turn again, the restarted run can be led, executing nothing, to where the interrupted one stood in its new batch. */
  lemma RestartBeginsAnew(c: Chain, request: TurnRequest, given: seq<ReportedCall>) returns (lead: seq<Answer>)
    requires CutAtStart(c)
    ensures var again := Restarted(c.sys.h.store, request, given);
            && again.Some? && Inv(again.value.m) && Inv(c.sys.m)
            && Reaches(again.value.m, lead, Play(again.value.m, lead))
            && Alike(c.sys.m, Play(again.value.m, lead))
  {
    StartState(c);
    StartRestarts(c, request, given);
    var m, n := c.sys.m, Restarted(c.sys.h.store, request, given).value.m;
    lead := LeadAnew(n, m);
    var begun := BeginsAnew(m, n);
    assert Last(begun.batches) == Last(m.state.batches);
    AnewAlike(m, begun, Play(n, lead).pc);
  }

  /** From there it executes exactly the calls that the interrupted run had still to execute. */
  lemma ResumeRepeatsTurn(c: Chain, request: TurnRequest, given: seq<ReportedCall>, a: seq<Answer>, b: seq<Answer>)
    returns (lead: seq<Answer>)
    requires CutAtStart(c) && SameAnswers(a, b) && Inv(c.sys.m) && Fits(c.sys.m, a)
    ensures var again := Restarted(c.sys.h.store, request, given);
            && again.Some? && Inv(again.value.m) && Fits(again.value.m, lead) && Executions(again.value.m, lead) == []
            && Fits(again.value.m, lead + b)
            && Executions(again.value.m, lead + b) == Executions(c.sys.m, a)
  {
    lead := RestartBeginsAnew(c, request, given);
    var n := Restarted(c.sys.h.store, request, given).value.m;
    PlaysNothing(c.sys.m);
    ContinueAlike(c.sys.m, [], c.sys.m, [], n, lead, Play(n, lead), a, b);
  }
}
