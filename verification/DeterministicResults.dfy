/** A deterministic run reports what its tools returned, and says what the last of them did. */
module DeterministicResults {
  import opened Basics
  import opened Turns
  import opened FactTree
  import opened Engine
  import opened EngineInvariant
  import opened Recovery
  import opened HostedRun
  import opened HostedInvariant
  import opened Deterministic
  import opened DeterministicRun
  import opened DeterministicOutcome

  // ---- What has come back so far ----

  function ResultsOf(reports: seq<ReportedCall>): (results: seq<ToolResult>)
    ensures |results| == |reports| && forall i | 0 <= i < |reports| :: results[i] == reports[i].result
  {
    seq(|reports|, i requires 0 <= i < |reports| => reports[i].result)
  }

  /** The results taken over, and the one on record that is still to be. */
  function Collected(sys: System): seq<ToolResult> {
    ResultsOf(sys.m.state.results) + (if sys.m.pc.AwaitExecute? && sys.progress.Reported? then [sys.progress.report.result] else [])
  }

  /** What a tool returns with an event: that it runs is what makes the event one of its returns. */
  function Returning(p: Play, e: Event): seq<ToolResult> {
    if e.Goes? && p.sys.m.pc.AwaitExecute? && p.sys.progress.Requested?
    then [ToolResult(p.sys.m.pc.call.toolName, e.ok, e.output, e.error)] else []
  }

  lemma ExecutionCollects(setup: Setup, p: Play, e: Event)
    requires PlayInv(setup, p) && e.Goes? && p.sys.m.pc.AwaitExecute?
    ensures Collected(Occurs(setup, p, e).sys) == Collected(p.sys) + Returning(p, e)
  {
    var call := p.sys.m.pc.call;
    ExecuteOccurs(setup, p, e, call);
    InFlight(setup, p);
    match p.sys.progress
    case Reported(report) => TakingCollects(setup, p, call, report);
    case Requested => ToolIsReported(p.sys, call, ToolResult(call.toolName, e.ok, e.output, e.error), call.toolName);
    case _ => RecordingIs(p.sys, ToolRequestedFact(call), Requested);
  }

  lemma TakingCollects(setup: Setup, p: Play, call: ToolCall, report: ReportedCall)
    requires PlayInv(setup, p) && p.sys.m.pc == AwaitExecute(call) && p.sys.progress == Reported(report)
    ensures Collected(Answering(p.sys, Executed(CallReported(report)))) == Collected(p.sys)
  {
    InFlight(setup, p);
    InHand(setup, p, report);
    TakeCollects(p.sys, call, report);
  }

  lemma TakeCollects(sys: System, call: ToolCall, report: ReportedCall)
    requires Inv(sys.m) && sys.m.pc == AwaitExecute(call) && sys.progress == Reported(report)
    requires sys.m.state.batches != [] && sys.m.state.pending == [call] && Some(report.toolCallId) == call.toolCallId
    ensures Collected(Answering(sys, Executed(CallReported(report)))) == Collected(sys)
  {
    AdvanceStep(sys.m, report);
  }

  lemma AnswerCollects(sys: System, a: Answer)
    requires Inv(sys.m) && Allowed(sys.m.pc, a) && !a.Executed? && !sys.m.pc.AwaitExecute?
    requires Answering(sys, a).m.state.results == sys.m.state.results
    ensures Collected(Answering(sys, a)) == Collected(sys)
  {
  }

  lemma ObservationCollects(setup: Setup, p: Play, e: Event)
    requires PlayInv(setup, p) && e.Goes? && p.sys.m.pc.AwaitObserve?
    ensures Collected(Occurs(setup, p, e).sys) == Collected(p.sys)
  {
    var plan := p.sys.m.pc.plan;
    ObserveOccurs(setup, p, e, plan);
    ObserveIs(p.sys, plan);
    ObservingIs(p.sys, plan);
    ObservingCollects(p.sys, plan);
  }

  lemma ObservingCollects(sys: System, plan: TurnPlan)
    requires Inv(sys.m) && sys.m.pc == AwaitObserve(plan)
    ensures Collected(ObserveNext(sys, plan)) == Collected(sys)
  {
  }

  lemma InvocationCollects(setup: Setup, p: Play, e: Event)
    requires PlayInv(setup, p) && e.Goes? && p.sys.m.pc.AwaitInvoke?
    ensures Collected(Occurs(setup, p, e).sys) == Collected(p.sys)
  {
    InvokeOccurs(setup, p, e);
    ProducesGenuinely(setup, p, e.hex);
    ProducingCollects(p.sys, Producing(setup, p.sys.m.state.request, e.hex));
  }

  lemma ProducingCollects(sys: System, choice: Choice)
    requires Inv(sys.m) && ValidStore(sys.h.store) && sys.m.pc.AwaitInvoke? && Genuine(choice)
    requires choice.ProducerProposes? || choice.CodeRaises?
    ensures Collected(Next(sys, choice)) == Collected(sys)
  {
    if choice.ProducerProposes? {
      ProposalIs(sys, choice.plan, choice.hexes);
      AnswerDescends(sys, Invoked(Some(choice.plan), choice.hexes));
      AnswerCollects(sys, Invoked(Some(choice.plan), choice.hexes));
    } else {
      RaisedIs(sys);
    }
  }

  lemma PlainCollects(setup: Setup, p: Play, e: Event)
    requires PlayInv(setup, p) && e.Goes? && (Plain(p.sys.m.pc) || p.sys.m.pc.AwaitSteering?)
    ensures Collected(Occurs(setup, p, e).sys) == Collected(p.sys)
  {
    Undisturbed(setup, p);
    if p.sys.m.pc.AwaitSteering? {
      SteeringOccurs(setup, p, e);
      AnswerDescends(p.sys, Messages(p.sys.h.steering));
      AnswerCollects(p.sys, Messages(p.sys.h.steering));
    } else {
      PlainOccurs(setup, p, e);
      AnswerDescends(p.sys, PlainAnswer(p.sys));
      AnswerCollects(p.sys, PlainAnswer(p.sys));
    }
  }

  lemma EventCollects(setup: Setup, p: Play, e: Event)
    requires PlayInv(setup, p)
    ensures Collected(Occurs(setup, p, e).sys) == Collected(p.sys) + Returning(p, e)
  {
    if e.Arrives? {
      ArrivalOccurs(setup, p, e.message);
    } else if DeterministicOutcome.Over(p.sys.m.pc) {
      OverOccurs(setup, p, e);
    } else if p.sys.m.pc.AwaitExecute? {
      ExecutionCollects(setup, p, e);
    } else {
      OtherStepCollects(setup, p, e);
    }
  }

  lemma OtherStepCollects(setup: Setup, p: Play, e: Event)
    requires PlayInv(setup, p) && e.Goes? && !DeterministicOutcome.Over(p.sys.m.pc) && !p.sys.m.pc.AwaitExecute?
    ensures Collected(Occurs(setup, p, e).sys) == Collected(p.sys)
  {
    match p.sys.m.pc
    case AwaitInvoke => InvocationCollects(setup, p, e);
    case AwaitObserve(_) => ObservationCollects(setup, p, e);
    case _ => PlainCollects(setup, p, e);
  }

  // ---- Over a run ----

  /** What the tools returned with the first n events, in order. */
  function ReturnedUpTo(events: seq<Event>, plays: seq<Play>, n: nat): seq<ToolResult>
    requires n <= |events| && n <= |plays|
  {
    if n == 0 then [] else ReturnedUpTo(events, plays, n - 1) + Returning(plays[n - 1], events[n - 1])
  }

  lemma {:induction false} CollectedUpTo(setup: Setup, events: seq<Event>, plays: seq<Play>, n: nat)
    requires Played(setup, events, plays) && n <= |events|
    ensures Collected(plays[n].sys) == ReturnedUpTo(events, plays, n)
  {
    if n > 0 {
      CollectedUpTo(setup, events, plays, n - 1);
      CollectedNext(setup, events, plays, n - 1);
    } else {
      NothingCollected(setup);
    }
  }

  lemma NothingCollected(setup: Setup)
    ensures Collected(Opening(setup).sys) == []
  {
  }

  lemma CollectedNext(setup: Setup, events: seq<Event>, plays: seq<Play>, n: nat)
    requires Played(setup, events, plays) && n < |events|
    ensures Collected(plays[n + 1].sys) == Collected(plays[n].sys) + Returning(plays[n], events[n])
  {
    PlayNext(setup, events, plays, n);
    EventCollects(setup, plays[n], events[n]);
  }

  lemma OverResults(setup: Setup, p: Play, done: seq<Completion>)
    requires PlayInv(setup, p) && DeterministicOutcome.Over(p.sys.m.pc) && done == Recorded(p.sys.m.state.batches)
    ensures |done| == |Collected(p.sys)| && forall i | 0 <= i < |done| :: done[i].report.result == Collected(p.sys)[i]
    ensures Said(done) == if Collected(p.sys) == [] then "" else TextOf(Last(Collected(p.sys)).output)
  {
    OverIsSettled(setup, p);
    RecordOfResults(setup, Told(setup, p), p.sys.m.state, done);
  }

  /**
   A run that is over has on record, one completion a return and in that order, exactly what the tools
   returned; a completed one says what the last of them returned as output.
   */
  lemma RunReportsReturns(setup: Setup, events: seq<Event>, plays: seq<Play>)
    requires Played(setup, events, plays) && DeterministicOutcome.Over(plays[|events|].sys.m.pc)
    ensures ValidStore(plays[|events|].sys.h.store)
    ensures var p, returned := plays[|events|], ReturnedUpTo(events, plays, |events|);
            var done := Completions(CurrentFacts(p.sys.h.store));
            && |done| == |returned| && (forall i | 0 <= i < |done| :: done[i].report.result == returned[i])
            && (p.sys.m.pc == Finished(Completed) && !setup.slash ==>
                  returned != [] && p.sys.m.state.output == Some(TextOf(Last(returned).output)))
  {
    var p := plays[|events|];
    RecordOf(setup, events, plays);
    CollectedUpTo(setup, events, plays, |events|);
    PlayedKeepsInv(setup, events, plays, |events|);
    OverResults(setup, p, Completions(CurrentFacts(p.sys.h.store)));
    if !setup.slash {
      ExactAt(setup, p, Completions(CurrentFacts(p.sys.h.store)));
    }
  }
}
