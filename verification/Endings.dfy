/** How runs end, and what a cancel puts an end to. */
module Endings {
  import opened Basics
  import opened Turns
  import opened FactTree
  import opened Engine
  import opened EngineInvariant
  import opened HostedRun
  import opened HostedInvariant
  import opened CrashResume

  // ---- How runs end ----

  /** The answers after which a run stops: no request, no turn, no go-ahead, or a call that says so. */
  predicate Stops(pc: Pc, a: Answer) {
    || (pc.AwaitPrepare? && a == Prepared(None))
    || (pc.AwaitInvoke? && a.Invoked? && a.proposal.None?)
    || (pc.AwaitObserve? && a == Observed(false))
    || (pc.CheckExecuted? && a == Signal(false) && (pc.outcome.CallStoppedBeforeReport? || pc.outcome.CallStoppedAfterReport?))
  }

  /** The status of a run tells exactly how it ended; a call is executed exactly behind a look that finds no cancel. */
  lemma EndsExactly(m: Machine, a: Answer)
    requires Inv(m) && Allowed(m.pc, a)
    ensures var pc := Step(m, a).pc;
            && (pc == Finished(Completed) <==> m.pc.CheckFinished? && m.pc.continuation.None? && a == Signal(false))
            && (pc == Finished(Aborted) <==> a == Signal(true))
            && (pc == Finished(Paused) <==> m.pc.AwaitExecute? && a == Executed(CallPaused))
            && (pc == Finished(Stopped) <==> Stops(m.pc, a))
            && (pc == Failed(HostRaised) <==> a.HostFails?)
            && (pc.AwaitExecute? <==> m.pc.CheckObserved? && m.pc.plan.ToolTurn? && a == Signal(false))
            && (pc.AwaitExecute? ==> pc.call == m.state.pending[0])
  {
    match m.pc
    case AwaitExecute(_) =>
    case CheckExecuted(_) =>
    case AwaitInvoke =>
    case _ =>
  }

  // ---- A cancel ----

  /** The calls requested among some facts. */
  function Requests(facts: seq<TurnFact>): seq<ToolCall> {
    if facts == [] then []
    else Requests(Front(facts)) + (if Last(facts).ToolRequestedFact? then [Last(facts).call] else [])
  }

  lemma RequestsSnoc(facts: seq<TurnFact>, f: TurnFact)
    ensures Requests(facts + [f]) == Requests(facts) + (if f.ToolRequestedFact? then [f.call] else [])
  {
    assert Front(facts + [f]) == facts;
  }

  /** The flag is up, no call is in hand, and these are the calls requested so far. */
  ghost predicate Cancelled(sys: System, asked: seq<ToolCall>) {
    sys.h.cancelled && !sys.m.pc.AwaitExecute? && Requests(sys.h.facts) == asked
  }

  lemma RecordingAsksNothing(sys: System, f: TurnFact, progress: Progress, asked: seq<ToolCall>)
    requires Cancelled(sys, asked) && !f.ToolRequestedFact?
    ensures Cancelled(Recording(sys, f, progress), asked)
  {
    RecordingIs(sys, f, progress);
    RequestsSnoc(sys.h.facts, f);
  }

  lemma AnsweringAsksNothing(sys: System, a: Answer, asked: seq<ToolCall>)
    requires Inv(sys.m) && Allowed(sys.m.pc, a) && Cancelled(sys, asked) && (a.Signal? ==> a.cancelled)
    ensures Cancelled(Answering(sys, a), asked)
  {
    EndsExactly(sys.m, a);
  }

  lemma ContinueAsksNothing(sys: System, asked: seq<ToolCall>)
    requires Inv(sys.m) && Cancelled(sys, asked) && ProgressOk(sys)
    ensures Cancelled(ContinueNext(sys), asked)
  {
    match sys.m.pc
    case Top | CheckPrepared | CheckObserved(_) | CheckFinished(_, _) | CheckExecuted(_) => AnsweringAsksNothing(sys, Signal(true), asked);
    case AwaitSteering => AnsweringAsksNothing(sys.(h := sys.h.(steering := [])), Messages(sys.h.steering), asked);
    case AwaitFollowup(_) => AnsweringAsksNothing(sys.(h := sys.h.(followup := [])), Messages(sys.h.followup), asked);
    case AwaitPrepare => AnsweringAsksNothing(sys, Prepared(Some(PreparedRequest(sys.m.state))), asked);
    case AwaitFinish(_) => AnsweringAsksNothing(sys, Continuation(None), asked);
    case AwaitObserve(plan) => ObserveAsksNothing(sys, plan, asked);
    case _ =>
  }

  lemma ObserveAsksNothing(sys: System, plan: TurnPlan, asked: seq<ToolCall>)
    requires Inv(sys.m) && Cancelled(sys, asked) && ProgressOk(sys) && sys.m.pc == AwaitObserve(plan)
    ensures Cancelled(ObserveNext(sys, plan), asked)
  {
    ObserveIs(sys, plan);
    if sys.progress.Observing? {
      if sys.progress.recorded < |plan.facts| {
        RecordingAsksNothing(sys, plan.facts[sys.progress.recorded], Observing(sys.progress.recorded + 1), asked);
      } else {
        AnsweringAsksNothing(sys, Observed(!sys.h.cancelled), asked);
      }
    }
  }

  ghost predicate KeepsFlag(choice: Choice) {
    !choice.CrashAndRestart? && !(choice.SetCancelled? && !choice.flag)
  }

  lemma NextAsksNothing(c: Chain, choice: Choice, asked: seq<ToolCall>)
    requires Inv(c.sys.m) && ValidStore(c.sys.h.store) && ProgressOk(c.sys) && Genuine(choice) && KeepsFlag(choice) && Cancelled(c.sys, asked)
    ensures Cancelled(NextChain(c, choice).sys, asked)
  {
    match choice
    case Steer(_) | FollowUp(_) => FlagsIs(c, choice);
    case SetCancelled(_) => FlagIs(c, choice);
    case Continue =>
      ContinueIs(c);
      ContinueAsksNothing(c.sys, asked);
    case ProducerYields(fact) =>
      ProducerIs(c, choice);
      RecordingAsksNothing(c.sys, fact, Quiet, asked);
    case ProducerProposes(plan, hexes) =>
      ProducerIs(c, choice);
      if c.sys.m.pc.AwaitInvoke? {
        AnsweringAsksNothing(c.sys, Invoked(Some(plan), hexes), asked);
      }
    case ToolReturns(_, _) => ToolIs(c, choice);
    case CodeRaises =>
      ToolIs(c, choice);
      if Allowed(c.sys.m.pc, HostFails) {
        AbandonedIs(c.sys);
      }
  }

  lemma FlagIs(c: Chain, choice: Choice)
    requires Inv(c.sys.m) && ValidStore(c.sys.h.store) && choice.SetCancelled?
    ensures NextChain(c, choice).sys == c.sys.(h := c.sys.h.(cancelled := choice.flag))
  {
  }

  lemma LinkAsksNothing(trace: seq<Chain>, choices: seq<Choice>, k: nat, asked: seq<ToolCall>)
    requires Links(trace, choices) && k < |choices| && SustainedAt(trace, k) && KeepsFlag(choices[k]) && Cancelled(trace[k].sys, asked)
    ensures Cancelled(trace[k + 1].sys, asked)
  {
    assert Sustained(trace, k);
    assert Link(trace, choices, k);
    NextAsksNothing(trace[k], choices[k], asked);
  }

  lemma {:induction false} LinksAskNothing(trace: seq<Chain>, choices: seq<Choice>, i: nat, j: nat, asked: seq<ToolCall>)
    requires Links(trace, choices) && SustainedAt(trace, 0) && i <= j < |trace| && Cancelled(trace[i].sys, asked)
    requires forall k | i <= k < j :: KeepsFlag(choices[k])
    ensures Cancelled(trace[j].sys, asked)
    decreases j
  {
    if i < j {
      LinksAskNothing(trace, choices, i, j - 1, asked);
      LinksKeep(trace, choices, j - 1);
      LinkAsksNothing(trace, choices, j - 1, asked);
    }
  }

  /**
   Once the flag is up and no call is in hand, no further call is ever requested, whatever users, producer
   and tools do, until the flag is taken back or the process is restarted.
   */
  lemma CancelStopsCalls(trace: seq<Chain>, choices: seq<Choice>, i: nat, j: nat)
    requires ChainRun(trace, choices) && i <= j < |trace|
    requires trace[i].sys.h.cancelled && !trace[i].sys.m.pc.AwaitExecute?
    requires forall k | i <= k < j :: KeepsFlag(choices[k])
    ensures Requests(trace[j].sys.h.facts) == Requests(trace[i].sys.h.facts) && !trace[j].sys.m.pc.AwaitExecute?
  {
    StartsInv(trace[0]);
    LinksAskNothing(trace, choices, i, j, Requests(trace[i].sys.h.facts));
  }

  /** A call in hand is the last: once its report is taken over, the next look aborts the run. */
  lemma CallInHandIsLast(m: Machine, outcome: Outcome)
    requires Inv(m) && m.pc.AwaitExecute? && Step(m, Executed(outcome)).pc.CheckExecuted? && Inv(Step(m, Executed(outcome)))
    ensures Step(Step(m, Executed(outcome)), Signal(true)) == Machine(Step(m, Executed(outcome)).state, Finished(Aborted))
  {
    EndsExactly(Step(m, Executed(outcome)), Signal(true));
  }
}
