/** Two chains of runs, from their beginnings on, whose logs cannot be resumed. */
module TornLogs {
  import opened Basics
  import opened Turns
  import opened FactTree
  import opened Engine
  import opened EngineInvariant
  import opened Recovery
  import opened HostedRun
  import opened HostedInvariant
  import opened CrashResume

  // ---- Chains that can come about ----

  ghost predicate EndsIn(trace: seq<Chain>, choices: seq<Choice>, c: Chain) {
    ChainRun(trace, choices) && trace[|trace| - 1] == c
  }

  ghost predicate SomeRunEndsIn(c: Chain) {
    exists trace, choices :: EndsIn(trace, choices, c)
  }

  ghost predicate Reached(c: Chain) {
    forall d: Chain {:trigger SomeRunEndsIn(d)} | d == c :: SomeRunEndsIn(d)
  }

  lemma BegunIsReached(request: TurnRequest)
    ensures SomeRunEndsIn(Begun(request, [], false))
  {
    var c := Begun(request, [], false);
    assert Starts(c);
    assert EndsIn([c], [], c);
  }

  lemma ReachedFits(c: Chain)
    requires Reached(c)
    ensures Inv(c.sys.m) && ValidStore(c.sys.h.store) && StepNumbers(c.sys.m.state)
  {
    ReachedInv(c);
  }

  lemma ReachedInv(c: Chain)
    requires Reached(c)
    ensures ChainInv(c)
  {
    assert SomeRunEndsIn(c);
    var trace, choices :| EndsIn(trace, choices, c);
    ReachableChain(trace, choices, |trace| - 1);
  }

  /** A chain of runs, one link longer. */
  ghost predicate Longer(trace: seq<Chain>, choices: seq<Choice>, more: seq<Chain>, all: seq<Choice>) {
    && |trace| == |choices| + 1 && |more| == |all| + 1 == |trace| + 1
    && trace == more[..|trace|] && choices == all[..|choices|]
  }

  lemma OldLink(trace: seq<Chain>, choices: seq<Choice>, more: seq<Chain>, all: seq<Choice>, i: nat)
    requires Longer(trace, choices, more, all) && i < |choices| && Link(trace, choices, i)
    ensures Link(more, all, i)
  {
    assert more[i] == trace[i] && more[i + 1] == trace[i + 1] && all[i] == choices[i];
  }

  lemma NewLink(trace: seq<Chain>, choices: seq<Choice>, choice: Choice)
    requires |trace| == |choices| + 1 && Genuine(choice) && ChainInv(trace[|choices|])
    ensures Link(trace + [NextChain(trace[|choices|], choice)], choices + [choice], |choices|)
  {
  }

  lemma LinksOn(trace: seq<Chain>, choices: seq<Choice>, more: seq<Chain>, all: seq<Choice>)
    requires Links(trace, choices) && Longer(trace, choices, more, all) && Link(more, all, |choices|)
    ensures Links(more, all)
  {
    forall i: nat | i < |all| ensures Link(more, all, i) {
      if i < |choices| {
        assert Link(trace, choices, i);
        OldLink(trace, choices, more, all, i);
      }
    }
  }

  lemma Goes(c: Chain, choice: Choice) returns (d: Chain)
    requires Reached(c) && Genuine(choice)
    ensures Inv(c.sys.m) && ValidStore(c.sys.h.store)
    ensures Reached(d) && d == NextChain(c, choice)
  {
    assert SomeRunEndsIn(c);
    var trace, choices :| EndsIn(trace, choices, c);
    ReachedInv(c);
    d := NextChain(c, choice);
    Grows(trace, choices, c, choice, d);
  }

  lemma Grows(trace: seq<Chain>, choices: seq<Choice>, c: Chain, choice: Choice, d: Chain)
    requires EndsIn(trace, choices, c) && Genuine(choice) && ChainInv(c) && d == NextChain(c, choice)
    ensures SomeRunEndsIn(d)
  {
    NewLink(trace, choices, choice);
    RunsOn(trace, choices, choice, d);
    assert EndsIn(trace + [d], choices + [choice], d);
  }

  lemma RunsOn(trace: seq<Chain>, choices: seq<Choice>, choice: Choice, d: Chain)
    requires ChainRun(trace, choices) && Link(trace + [d], choices + [choice], |choices|)
    ensures EndsIn(trace + [d], choices + [choice], d)
  {
    LinksOn(trace, choices, trace + [d], choices + [choice]);
  }

  // ---- One step at a time ----

  /** A chain that was never restarted, with its cancel flag down and no messages waiting. */
  ghost predicate Stands(c: Chain, pc: Pc, progress: Progress, batches: seq<TurnBatch>, pending: seq<ToolCall>) {
    && Reached(c) && c.past == [] && c.sys.m.pc == pc && c.sys.progress == progress
    && c.sys.m.state.batches == batches && c.sys.m.state.pending == pending
    && !c.sys.h.cancelled && c.sys.h.steering == []
  }

  lemma Begins(request: TurnRequest) returns (c: Chain)
    ensures Stands(c, Top, Quiet, [], [])
  {
    c := Begun(request, [], false);
    BegunIsReached(request);
  }

  lemma Continues1(c: Chain) returns (d: Chain)
    requires Reached(c)
    ensures Inv(c.sys.m) && ValidStore(c.sys.h.store)
    ensures Reached(d) && d == c.(sys := ContinueNext(c.sys))
  {
    d := Goes(c, Continue);
    ContinueIs(c);
  }

  lemma PassesTop(c: Chain, batches: seq<TurnBatch>) returns (d: Chain)
    requires Stands(c, Top, Quiet, batches, [])
    ensures Stands(d, AwaitSteering, Quiet, batches, [])
    ensures d.sys.h.store == c.sys.h.store
  {
    d := Continues1(c);
  }

  lemma PassesSteering(c: Chain, batches: seq<TurnBatch>) returns (d: Chain)
    requires Stands(c, AwaitSteering, Quiet, batches, [])
    ensures Stands(d, AwaitPrepare, Quiet, batches, [])
    ensures d.sys.h.store == c.sys.h.store
  {
    d := Continues1(c);
  }

  lemma PassesPrepare(c: Chain, batches: seq<TurnBatch>) returns (d: Chain)
    requires Stands(c, AwaitPrepare, Quiet, batches, [])
    ensures Stands(d, CheckPrepared, Quiet, batches, [])
    ensures d.sys.h.store == c.sys.h.store
  {
    d := Continues1(c);
  }

  lemma PassesPrepared(c: Chain, batches: seq<TurnBatch>) returns (d: Chain)
    requires Stands(c, CheckPrepared, Quiet, batches, [])
    ensures Stands(d, AwaitInvoke, Quiet, batches, [])
    ensures d.sys.h.store == c.sys.h.store
  {
    d := Continues1(c);
  }

  lemma Proposes(c: Chain, batches: seq<TurnBatch>, calls: seq<ToolCall>, hexes: seq<string>) returns (d: Chain, b: TurnBatch)
    requires Stands(c, AwaitInvoke, Quiet, batches, []) && calls != [] && |hexes| == |calls|
    requires AllDifferent(CallIds(calls)) && forall i | 0 <= i < |calls| :: calls[i].toolCallId.Some?
    ensures b.calls == calls && b.results == []
    ensures Stands(d, AwaitObserve(ToolTurn(calls, [], None)), Quiet, batches + [b], calls)
    ensures d.sys.h.store == c.sys.h.store
  {
    var plan := ToolTurn(calls, [], None);
    ReachedFits(c);
    ProducerIs(c, ProducerProposes(plan, hexes));
    d := Goes(c, ProducerProposes(plan, hexes));
    BeginningIs(c.sys.m, plan, hexes);
    IdentifiedIsSame(calls, hexes);
    b := TurnBatch(calls, None, c.sys.m.state.request.runStep, []);
  }

  lemma Notices(c: Chain, plan: TurnPlan, batches: seq<TurnBatch>, pending: seq<ToolCall>) returns (d: Chain)
    requires Stands(c, AwaitObserve(plan), Quiet, batches, pending)
    ensures Stands(d, AwaitObserve(plan), Observing(0), batches, pending)
    ensures d.sys.h.store == c.sys.h.store
  {
    ReachedFits(c);
    ObserveIs(c.sys, plan);
    d := Continues1(c);
  }

  lemma Observes(c: Chain, plan: TurnPlan, batches: seq<TurnBatch>, pending: seq<ToolCall>) returns (d: Chain)
    requires Stands(c, AwaitObserve(plan), Observing(0), batches, pending) && plan.facts == []
    ensures Stands(d, CheckObserved(plan), Quiet, batches, pending)
    ensures d.sys.h.store == c.sys.h.store
  {
    ReachedFits(c);
    ObserveIs(c.sys, plan);
    d := Continues1(c);
  }

  lemma PassesObserved(c: Chain, plan: TurnPlan, batches: seq<TurnBatch>, pending: seq<ToolCall>) returns (d: Chain)
    requires Stands(c, CheckObserved(plan), Quiet, batches, pending) && plan.ToolTurn? && pending != []
    ensures Stands(d, AwaitExecute(pending[0]), Quiet, batches, pending)
    ensures d.sys.h.store == c.sys.h.store
  {
    d := Continues1(c);
  }

  lemma Asks(c: Chain, call: ToolCall, batches: seq<TurnBatch>, pending: seq<ToolCall>) returns (d: Chain)
    requires Stands(c, AwaitExecute(call), Quiet, batches, pending) && HasIdentity(call.toolCallId)
    ensures Stands(d, AwaitExecute(call), Requested, batches, pending)
  {
    ReachedFits(c);
    ExecuteIs(c.sys, call);
    RecordingIs(c.sys, ToolRequestedFact(call), Requested);
    RecordEffect(c.sys.h, ToolRequestedFact(call));
    d := Continues1(c);
  }

  const DONE := ToolResult("t", true, None, None)

  function Report(id: string): ReportedCall {
    ReportedCall(id, "t", map[], DONE)
  }

  function Call(id: string): ToolCall {
    ToolCall("t", map[], Some(id))
  }

  lemma Returns(c: Chain, id: string, batches: seq<TurnBatch>, pending: seq<ToolCall>) returns (d: Chain)
    requires Stands(c, AwaitExecute(Call(id)), Requested, batches, pending) && id != ""
    ensures Stands(d, AwaitExecute(Call(id)), Reported(Report(id)), batches, pending)
  {
    ReachedFits(c);
    ToolIs(c, ToolReturns(DONE, "t"));
    ReportsDone(c.sys, id);
    d := Goes(c, ToolReturns(DONE, "t"));
  }

  lemma ReportsDone(sys: System, id: string)
    requires Inv(sys.m) && ValidStore(sys.h.store) && sys.m.pc == AwaitExecute(Call(id)) && id != ""
    ensures var next := ToolNext(sys, Call(id), DONE, "t");
            next == System(sys.m, sys.h.(facts := next.h.facts, store := next.h.store), Reported(Report(id)))
  {
    var f := ToolCompletedFact(Report(id), sys.h.batchSeed);
    RecordingIs(sys, f, Reported(Report(id)));
    RecordEffect(sys.h, f);
  }

  lemma Takes(c: Chain, id: string, batches: seq<TurnBatch>) returns (d: Chain)
    requires Stands(c, AwaitExecute(Call(id)), Reported(Report(id)), batches, [Call(id)]) && batches != []
    ensures Stands(d, CheckExecuted(CallReported(Report(id))), Quiet, Answered(batches, Report(id)), [])
  {
    ReachedFits(c);
    ExecuteIs(c.sys, Call(id));
    TakesOver(c.sys.m, Report(id));
    d := Continues1(c);
  }

  lemma PassesExecuted(c: Chain, outcome: Outcome, batches: seq<TurnBatch>) returns (d: Chain)
    requires Stands(c, CheckExecuted(outcome), Quiet, batches, []) && outcome.CallReported?
    ensures Stands(d, Top, Quiet, batches, [])
  {
    d := Continues1(c);
  }

  // ---- Several steps ----

  lemma Invoked(c: Chain, batches: seq<TurnBatch>) returns (d: Chain)
    requires Stands(c, Top, Quiet, batches, [])
    ensures Stands(d, AwaitInvoke, Quiet, batches, [])
    ensures d.sys.h.store == c.sys.h.store
  {
    d := PassesTop(c, batches);
    d := PassesSteering(d, batches);
    d := PassesPrepare(d, batches);
    d := PassesPrepared(d, batches);
  }

  /** A new batch is about to be executed. */
  lemma StartsBatch(c: Chain, batches: seq<TurnBatch>, calls: seq<ToolCall>, hexes: seq<string>) returns (d: Chain, b: TurnBatch)
    requires Stands(c, Top, Quiet, batches, []) && calls != [] && |hexes| == |calls|
    requires AllDifferent(CallIds(calls)) && forall i | 0 <= i < |calls| :: calls[i].toolCallId.Some?
    ensures b.calls == calls && b.results == []
    ensures Stands(d, AwaitExecute(calls[0]), Quiet, batches + [b], calls)
    ensures d.sys.h.store == c.sys.h.store
  {
    var plan := ToolTurn(calls, [], None);
    d := Invoked(c, batches);
    d, b := Proposes(d, batches, calls, hexes);
    d := Notices(d, plan, batches + [b], calls);
    d := Observes(d, plan, batches + [b], calls);
    d := PassesObserved(d, plan, batches + [b], calls);
  }

  /** The first call of the first batch is completed on record. */
  lemma CompletesFirst(request: TurnRequest, calls: seq<ToolCall>, hexes: seq<string>) returns (d: Chain, b: TurnBatch)
    requires calls != [] && calls[0] == Call("a") && |hexes| == |calls|
    requires AllDifferent(CallIds(calls)) && forall i | 0 <= i < |calls| :: calls[i].toolCallId.Some?
    ensures b.calls == calls && b.results == []
    ensures Stands(d, AwaitExecute(Call("a")), Reported(Report("a")), [b], calls)
  {
    d := Begins(request);
    d, b := StartsBatch(d, [], calls, hexes);
    assert [] + [b] == [b];
    d := Asks(d, Call("a"), [b], calls);
    d := Returns(d, "a", [b], calls);
  }

  // ---- The two logs ----

  lemma FirstTaken(request: TurnRequest) returns (c: Chain, b: TurnBatch)
    ensures b.results != [] && NoEmptyIdentity(b.calls) && Stands(c, CheckExecuted(CallReported(Report("a"))), Quiet, [b], [])
  {
    var first: TurnBatch;
    c, first := CompletesFirst(request, [Call("a")], [""]);
    c := Takes(c, "a", [first]);
    b := WithResult(first, Report("a"));
    AnsweredOne(first, Report("a"));
  }

  lemma AnsweredOne(b: TurnBatch, report: ReportedCall)
    ensures Answered([b], report) == [WithResult(b, report)]
  {
  }

  lemma BatchDone(request: TurnRequest) returns (c: Chain, b: TurnBatch)
    ensures b.results != [] && NoEmptyIdentity(b.calls) && Stands(c, Top, Quiet, [b], [])
    ensures ValidStore(c.sys.h.store) && !Asked(AfterLastCompletion(CurrentFacts(c.sys.h.store)))
  {
    c, b := FirstTaken(request);
    c := PassesExecuted(c, CallReported(Report("a")), [b]);
    NothingAsked(c);
  }

  /** Between batches no request is open. */
  lemma NothingAsked(c: Chain)
    requires Reached(c) && c.sys.m.state.pending == [] && !c.sys.progress.Reported?
    ensures ValidStore(c.sys.h.store) && !Asked(AfterLastCompletion(CurrentFacts(c.sys.h.store)))
  {
    ReachedInv(c);
    NothingPendingAllAnswered(c);
    ChainLogIsSound(c);
    NoneAsked(Log(c), AllBatches(c));
  }

  lemma NoneAsked(facts: seq<TurnFact>, all: seq<TurnBatch>)
    requires Sound(facts, all) && !Unanswered(all)
    ensures !Asked(AfterLastCompletion(facts))
  {
  }

  lemma NewBatchStarts(request: TurnRequest) returns (c: Chain, b: TurnBatch, b': TurnBatch)
    ensures b.results != [] && NoEmptyIdentity(b.calls) && b'.results == []
    ensures Stands(c, AwaitExecute(Call("b")), Quiet, [b, b'], [Call("b")])
    ensures ValidStore(c.sys.h.store) && !Asked(AfterLastCompletion(CurrentFacts(c.sys.h.store)))
  {
    c, b := BatchDone(request);
    c, b' := StartsBatch(c, [b], [Call("b")], [""]);
    assert [b] + [b'] == [b, b'];
  }

  /**
   One batch is done and a second is about to start: recovery succeeds; the request of the second batch's
   first call tears the log, and recovery raises, until that call is completed or the log is repaired.
   */
  lemma FirstRequestTearsLog(request: TurnRequest) returns (c: Chain)
    ensures Reached(c) && ChainInv(c) && ChainInv(NextChain(c, Continue))
    ensures Restore(Log(c)).Ok? && Restore(Log(NextChain(c, Continue))).Raise?
  {
    var b, b';
    c, b, b' := NewBatchStarts(request);
    ReachedInv(c);
    TearsLog(c, b, b');
  }

  lemma TearsLog(c: Chain, b: TurnBatch, b': TurnBatch)
    requires ChainInv(c) && c.past == [] && c.sys.m.pc == AwaitExecute(Call("b")) && c.sys.progress == Quiet
    requires c.sys.m.state.batches == [b, b'] && b.results != [] && NoEmptyIdentity(b.calls) && b'.results == []
    requires !Asked(AfterLastCompletion(Log(c)))
    ensures ChainInv(NextChain(c, Continue))
    ensures Restore(Log(c)).Ok? && Restore(Log(NextChain(c, Continue))).Raise?
  {
    CutAfterRequest(c);
    SettledBatches(c);
    assert AllBatches(c) == [b, b'];
    NoWrongRecovery(c);
  }

  /** A batch whose second identity is empty, once its first call is completed, cannot be recovered. */
  lemma EmptyIdentityTearsLog(request: TurnRequest) returns (c: Chain)
    ensures Reached(c) && ChainInv(c) && AnyCompletion(AllBatches(c))
    ensures Restore(Log(c)) == Raise(BadBatchIdentities)
  {
    var calls := [Call("a"), Call("")];
    assert CallIds(calls)[0] != CallIds(calls)[1];
    var b;
    c, b := CompletesFirst(request, calls, ["", ""]);
    ReachedInv(c);
    assert AllBatches(c) == [WithResult(b, Report("a"))];
    assert !HasIdentity(calls[1].toolCallId);
    EmptyIdentityDefeatsRecovery(c);
  }
}
