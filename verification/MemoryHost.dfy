/** The transient host as an object over a store object; its methods realise the host steps of `HostedRun`. */
module MemoryHost {
  import opened Basics
  import opened Turns
  import opened FactTree
  import opened EventStore
  import opened Engine
  import opened EngineInvariant
  import opened Recovery
  import opened HostedRun

  /** Recording facts one by one, stopping at the first that the store refuses. */
  function RecordAll(h: HostState, facts: seq<TurnFact>): (HostState, bool) {
    if facts == [] then (h, true)
    else
      var (before, ok) := RecordAll(h, Front(facts));
      if !ok then (before, false) else Record(before, Last(facts))
  }

  /** All facts are kept, in order, exactly if the store refuses none of them; the live stream is not offered to it. */
  lemma {:induction false} RecordAllExactly(h: HostState, facts: seq<TurnFact>)
    requires ValidStore(h.store)
    ensures var (kept, ok) := RecordAll(h, facts);
            && ValidStore(kept.store)
            && (ok <==> forall i | 0 <= i < |facts| :: facts[i].StreamFact? || Recordable(facts[i]))
            && (ok ==> kept.facts == h.facts + facts && CurrentFacts(kept.store) == CurrentFacts(h.store) + NonStream(facts))
  {
    if facts != [] {
      var f := Last(facts);
      RecordAllExactly(h, Front(facts));
      RecordEffect(RecordAll(h, Front(facts)).0, f);
      assert facts == Front(facts) + [f];
    }
  }

  lemma {:induction false} RecordAllStops(h: HostState, facts: seq<TurnFact>, i: nat)
    requires i <= |facts| && !RecordAll(h, facts[..i]).1
    ensures RecordAll(h, facts) == RecordAll(h, facts[..i])
    decreases |facts|
  {
    if i < |facts| {
      assert Front(facts)[..i] == facts[..i];
      RecordAllStops(h, Front(facts), i);
    } else {
      assert facts[..i] == facts;
    }
  }

  lemma RecordAllNext(h: HostState, facts: seq<TurnFact>, i: nat)
    requires i < |facts| && RecordAll(h, facts[..i]).1
    ensures RecordAll(h, facts[..i + 1]) == Record(RecordAll(h, facts[..i]).0, facts[i])
  {
    assert Front(facts[..i + 1]) == facts[..i];
  }

  /** A whole call: request, tool, completion. None stands for an exception on the way. */
  function ExecuteCall(h: HostState, call: ToolCall, result: ToolResult, finalToolName: string): (HostState, Option<Outcome>) {
    var (asked, ok) := Record(h, ToolRequestedFact(call));
    if !ok then (asked, None)
    else
      var report := ReportCall(call, result, finalToolName);
      if report.None? then (asked, None)
      else
        var (done, stored) := Record(asked, ToolCompletedFact(report.value, h.batchSeed));
        (done, if stored then Some(CallReported(report.value)) else None)
  }

  class MemoryHost {
    const eventStore: MemoryEventStore
    var facts: seq<TurnFact>
    var steering: seq<string>
    var followup: seq<string>
    var cancelled: bool
    var currentBatch: Option<nat>
    var batchSeed: Option<CallSeed>

    constructor (eventStore: MemoryEventStore)
      ensures this.eventStore == eventStore && Value() == FreshHost(eventStore.State())
    {
      this.eventStore := eventStore;
      facts, steering, followup, cancelled := [], [], [], false;
      currentBatch, batchSeed := None, None;
    }

    function Value(): HostState
      reads this, eventStore
    {
      HostState(facts, eventStore.State(), steering, followup, cancelled, currentBatch, batchSeed)
    }

    ghost predicate Valid()
      reads this, eventStore
    {
      eventStore.Valid()
    }

    method RecordFact(f: TurnFact) returns (ok: bool)
      requires Valid()
      modifies this`facts, eventStore
      ensures Valid() && (Value(), ok) == Record(old(Value()), f)
    {
      facts := facts + [f];
      if f.StreamFact? {
        return true;
      }
      var stored := eventStore.AppendFacts([f], []);
      return stored.Ok?;
    }

    method Steer(message: string)
      modifies this`steering
      ensures Value() == old(Value()).(steering := old(steering) + [message])
    {
      steering := steering + [message];
    }

    method FollowUp(message: string)
      modifies this`followup
      ensures Value() == old(Value()).(followup := old(followup) + [message])
    {
      followup := followup + [message];
    }

    /** Each kind of message is handed out once, oldest first. */
    method DrainMessages(forSteering: bool) returns (messages: seq<string>)
      modifies this`steering, this`followup
      ensures messages == if forSteering then old(steering) else old(followup)
      ensures Value() == if forSteering then old(Value()).(steering := []) else old(Value()).(followup := [])
    {
      if forSteering {
        messages, steering := steering, [];
      } else {
        messages, followup := followup, [];
      }
    }

    method Observe(plan: TurnPlan, batches: seq<TurnBatch>) returns (go: Option<bool>)
      requires Valid()
      modifies this, eventStore
      ensures Valid()
      ensures var (h, ok) := RecordAll(NoticeBatch(old(Value()), batches), plan.facts);
              Value() == h && go == if ok then Some(!old(cancelled)) else None
      ensures go.Some? <==> forall i | 0 <= i < |plan.facts| :: plan.facts[i].StreamFact? || Recordable(plan.facts[i])
      ensures go.Some? ==> facts == old(facts) + plan.facts
    {
      if batches != [] && currentBatch != Some(|batches| - 1) {
        currentBatch := Some(|batches| - 1);
        batchSeed := Some(Snapshot(Last(batches)));
      }
      ghost var noticed := Value();
      RecordAllExactly(noticed, plan.facts);
      for i := 0 to |plan.facts|
        invariant Valid() && cancelled == old(cancelled)
        invariant RecordAll(noticed, plan.facts[..i]) == (Value(), true)
      {
        RecordAllNext(noticed, plan.facts, i);
        var ok := RecordFact(plan.facts[i]);
        if !ok {
          RecordAllStops(noticed, plan.facts, i + 1);
          return None;
        }
      }
      assert plan.facts[..|plan.facts|] == plan.facts;
      return Some(!cancelled);
    }

    method Execute(call: ToolCall, result: ToolResult, finalToolName: string) returns (outcome: Option<Outcome>)
      requires Valid()
      modifies this, eventStore
      ensures Valid() && (Value(), outcome) == ExecuteCall(old(Value()), call, result, finalToolName)
      ensures outcome.Some? <==> HasIdentity(call.toolCallId) && result.toolName == finalToolName
      ensures outcome.Some? ==> outcome.value.CallReported? && Tells(outcome.value.report, call, result, finalToolName)
      ensures outcome.Some? ==>
                facts == old(facts) + [ToolRequestedFact(call), ToolCompletedFact(outcome.value.report, old(batchSeed))]
    {
      ReportExactly(call, result, finalToolName);
      RecordEffect(Value(), ToolRequestedFact(call));
      var asked := RecordFact(ToolRequestedFact(call));
      if !asked {
        return None;
      }
      var report := ReportCall(call, result, finalToolName);
      if report.None? {
        return None;
      }
      RecordEffect(Value(), ToolCompletedFact(report.value, batchSeed));
      var stored := RecordFact(ToolCompletedFact(report.value, batchSeed));
      return if stored then Some(CallReported(report.value)) else None;
    }
  }

  /** The fact-by-fact steps of the system add up to the host's whole `observe`; a refused fact ends the run there. */
  lemma {:induction false} ObserveStepByStep(sys: System, plan: TurnPlan, k: nat)
    requires Inv(sys.m) && sys.m.pc == AwaitObserve(plan) && sys.progress == Observing(0) && k <= |plan.facts|
    ensures var (h, ok) := RecordAll(sys.h, plan.facts[..k]);
            ObserveTimes(sys, plan, k) ==
            if ok then System(sys.m, h, Observing(k)) else System(Machine(sys.m.state, Failed(HostRaised)), h, Refused)
  {
    if k > 0 {
      ObserveStepByStep(sys, plan, k - 1);
      RecordAllOne(sys.h, plan.facts, k);
      ObserveOne(sys, plan, k);
    } else {
      assert plan.facts[..0] == [];
    }
  }

  lemma RecordAllOne(h: HostState, facts: seq<TurnFact>, k: nat)
    requires 0 < k <= |facts|
    ensures var (before, ok) := RecordAll(h, facts[..k - 1]);
            RecordAll(h, facts[..k]) == if ok then Record(before, facts[k - 1]) else (before, false)
  {
    assert Front(facts[..k]) == facts[..k - 1];
  }

  lemma ObserveOne(sys: System, plan: TurnPlan, k: nat)
    requires Inv(sys.m) && sys.m.pc == AwaitObserve(plan) && 0 < k <= |plan.facts|
    ensures var before := ObserveTimes(sys, plan, k - 1);
            && (before.m == sys.m && before.progress == Observing(k - 1) ==>
                  ObserveTimes(sys, plan, k) == Recording(before, plan.facts[k - 1], Observing(k)))
            && (before.m != sys.m ==> ObserveTimes(sys, plan, k) == before)
  {
    var before := ObserveTimes(sys, plan, k - 1);
    if before.m == sys.m && before.progress == Observing(k - 1) {
      ObserveRecords(before, plan, k - 1);
    }
  }

  lemma ObserveRecords(sys: System, plan: TurnPlan, k: nat)
    requires Inv(sys.m) && sys.m.pc == AwaitObserve(plan) && k < |plan.facts| && sys.progress == Observing(k)
    ensures ObserveNext(sys, plan) == Recording(sys, plan.facts[k], Observing(k + 1))
  {
  }

  ghost function ObserveTimes(sys: System, plan: TurnPlan, k: nat): System
    requires Inv(sys.m) && sys.m.pc == AwaitObserve(plan)
  {
    if k == 0 then sys
    else
      var before := ObserveTimes(sys, plan, k - 1);
      if before.m == sys.m then ObserveNext(before, plan) else before
  }

  /** Request, tool and completion of the system add up to the host's whole `execute`. */
  lemma ExecuteStepByStep(sys: System, call: ToolCall, result: ToolResult, name: string)
    requires Inv(sys.m) && ValidStore(sys.h.store) && sys.m.pc == AwaitExecute(call) && sys.progress.Quiet?
    ensures var (h, outcome) := ExecuteCall(sys.h, call, result, name);
            var asked := ExecuteNext(sys, call);
            var done := if asked.progress.Requested? then ToolNext(asked, call, result, name) else asked;
            && done.h == h
            && (outcome.None? ==> done.m.pc == Failed(HostRaised))
            && (outcome.Some? ==> outcome.value.CallReported? && done == System(sys.m, h, Reported(outcome.value.report)))
  {
  }
}
