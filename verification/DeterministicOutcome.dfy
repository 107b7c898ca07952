/** A deterministic run ends, and its record holds exactly the commands it was told, in order and once each. */
module DeterministicOutcome {
  import opened Basics
  import opened Turns
  import opened FactTree
  import opened Engine
  import opened EngineInvariant
  import opened Recovery
  import opened HostedRun
  import opened HostedInvariant
  import opened Deterministic
  import opened DeterministicRun

  /** The i-th event takes the run from one point to the next; the invariant, which no event breaks, is what lets it occur. */
  ghost predicate NextPlay(setup: Setup, events: seq<Event>, plays: seq<Play>, i: int) {
    0 <= i < |events| && i + 1 < |plays| && PlayInv(setup, plays[i]) ==> plays[i + 1] == Occurs(setup, plays[i], events[i])
  }

  /** A run: where it is before the first event, and after each of them. */
  ghost predicate Played(setup: Setup, events: seq<Event>, plays: seq<Play>) {
    && |plays| == |events| + 1 && plays[0] == Opening(setup)
    && forall i {:trigger NextPlay(setup, events, plays, i)} :: NextPlay(setup, events, plays, i)
  }

  ghost predicate Held(setup: Setup, plays: seq<Play>, n: int) {
    0 <= n < |plays| && PlayInv(setup, plays[n])
  }

  ghost predicate HeldAt(setup: Setup, plays: seq<Play>, n: nat) {
    forall k {:trigger Held(setup, plays, k)} | k == n :: Held(setup, plays, k)
  }

  lemma HeldNext(setup: Setup, events: seq<Event>, plays: seq<Play>, n: nat)
    requires NextPlay(setup, events, plays, n) && HeldAt(setup, plays, n) && n < |events| && n + 1 < |plays|
    ensures HeldAt(setup, plays, n + 1)
  {
    assert Held(setup, plays, n);
    OccursKeeps(setup, plays[n], events[n]);
  }

  lemma HeldFirst(setup: Setup, plays: seq<Play>)
    requires plays != [] && plays[0] == Opening(setup)
    ensures HeldAt(setup, plays, 0)
  {
    OpeningInv(setup);
  }

  lemma {:induction false} PlayedHolds(setup: Setup, events: seq<Event>, plays: seq<Play>, n: nat)
    requires Played(setup, events, plays) && n <= |events|
    ensures HeldAt(setup, plays, n)
  {
    if n == 0 {
      HeldFirst(setup, plays);
    } else {
      PlayedHolds(setup, events, plays, n - 1);
      assert NextPlay(setup, events, plays, n - 1);
      HeldNext(setup, events, plays, n - 1);
    }
  }

  lemma PlayedKeepsInv(setup: Setup, events: seq<Event>, plays: seq<Play>, n: nat)
    requires Played(setup, events, plays) && n <= |events|
    ensures PlayInv(setup, plays[n])
  {
    PlayedHolds(setup, events, plays, n);
    assert Held(setup, plays, n);
  }

  lemma PlayNext(setup: Setup, events: seq<Event>, plays: seq<Play>, n: nat)
    requires Played(setup, events, plays) && n < |events|
    ensures PlayInv(setup, plays[n]) && plays[n + 1] == Occurs(setup, plays[n], events[n])
  {
    PlayedKeepsInv(setup, events, plays, n);
    assert NextPlay(setup, events, plays, n);
  }

  /** Any events make a run. */
  lemma {:induction false} SomeRun(setup: Setup, events: seq<Event>) returns (plays: seq<Play>)
    ensures Played(setup, events, plays)
  {
    if events == [] {
      plays := [Opening(setup)];
    } else {
      var before := SomeRun(setup, Front(events));
      var next := OneMore(setup, Front(events), before, Last(events));
      plays := before + [next];
      assert Front(events) + [Last(events)] == events;
    }
  }

  lemma OneMore(setup: Setup, events: seq<Event>, plays: seq<Play>, e: Event) returns (next: Play)
    requires Played(setup, events, plays)
    ensures Played(setup, events + [e], plays + [next])
  {
    PlayedKeepsInv(setup, events, plays, |events|);
    next := Occurs(setup, Last(plays), e);
    RunsOn(setup, events, plays, e, next);
  }

  lemma RunsOn(setup: Setup, events: seq<Event>, plays: seq<Play>, e: Event, next: Play)
    requires Played(setup, events, plays) && PlayInv(setup, Last(plays)) && next == Occurs(setup, Last(plays), e)
    ensures Played(setup, events + [e], plays + [next])
  {
    LastPlay(setup, events + [e], plays + [next]);
    Lengthens(setup, events, plays, events + [e], plays + [next]);
  }

  ghost predicate NextAt(setup: Setup, events: seq<Event>, plays: seq<Play>, n: int) {
    forall k {:trigger NextPlay(setup, events, plays, k)} | k == n :: NextPlay(setup, events, plays, k)
  }

  lemma Lengthens(setup: Setup, events: seq<Event>, plays: seq<Play>, longer: seq<Event>, more: seq<Play>)
    requires Played(setup, events, plays) && events <= longer && plays <= more
    requires |longer| == |events| + 1 && |more| == |plays| + 1 && NextAt(setup, longer, more, |events|)
    ensures Played(setup, longer, more)
  {
    forall i ensures NextPlay(setup, longer, more, i) {
      if 0 <= i < |events| {
        assert NextPlay(setup, events, plays, i);
        OldPlay(setup, events, plays, longer, more, i);
      }
    }
  }

  lemma OldPlay(setup: Setup, events: seq<Event>, plays: seq<Play>, longer: seq<Event>, more: seq<Play>, i: nat)
    requires NextPlay(setup, events, plays, i) && i < |events| && i + 1 < |plays| && events <= longer && plays <= more
    ensures NextPlay(setup, longer, more, i)
  {
    assert more[i] == plays[i] && more[i + 1] == plays[i + 1] && longer[i] == events[i];
  }

  lemma LastPlay(setup: Setup, events: seq<Event>, plays: seq<Play>)
    requires events != [] && |plays| == |events| + 1 && PlayInv(setup, plays[|events| - 1])
    requires Last(plays) == Occurs(setup, plays[|events| - 1], Last(events))
    ensures NextAt(setup, events, plays, |events| - 1)
  {
  }

  /** The messages users sent with the first n events, in order. */
  function SentUpTo(events: seq<Event>, n: nat): seq<string>
    requires n <= |events|
  {
    if n == 0 then []
    else SentUpTo(events, n - 1) + (if events[n - 1].Arrives? then [events[n - 1].message] else [])
  }

  function Sent(events: seq<Event>): seq<string> {
    SentUpTo(events, |events|)
  }

  /** How often the run itself did a step within the first n events. */
  function StepsUpTo(events: seq<Event>, n: nat): nat
    requires n <= |events|
  {
    if n == 0 then 0 else StepsUpTo(events, n - 1) + (if events[n - 1].Goes? then 1 else 0)
  }

  predicate Over(pc: Pc) {
    pc.Finished? || pc.Failed?
  }

  // ---- Termination ----

  /** How far a run is from its next execution, or from its end. */
  function Rank(sys: System): int {
    match sys.m.pc
    case CheckExecuted(_) => 21
    case Top => 20
    case AwaitSteering => 19
    case AwaitPrepare => 18
    case CheckPrepared => 17
    case AwaitInvoke => 16
    case AwaitObserve(plan) => if sys.progress.Observing? then 10 + |plan.facts| - sys.progress.recorded else 15
    case CheckObserved(_) => 9
    case AwaitFollowup(_) => 8
    case AwaitFinish(_) => 7
    case CheckFinished(_, _) => 6
    case AwaitExecute(_) => if sys.progress.Reported? then 3 else if sys.progress.Requested? then 4 else 5
    case Finished(_) | Failed(_) => 0
  }

  /** The part of the measure that the run's own steps lower. */
  function Toll(sys: System): int {
    Rank(sys) - 22 * |sys.m.state.results|
  }

  function Measure(setup: Setup, p: Play): int {
    22 * (|Commands(setup.prompt)| + |CommandsOf(p.arrived)|) + Toll(p.sys)
  }

  lemma RankBounded(setup: Setup, p: Play)
    requires PlayInv(setup, p)
    ensures Rank(p.sys) >= 0 && |p.sys.m.state.results| <= |Told(setup, p)|
    ensures p.arrived == p.taken + p.sys.h.steering
  {
  }

  lemma MeasureBounded(setup: Setup, p: Play)
    requires PlayInv(setup, p)
    ensures Measure(setup, p) >= 0
  {
    RankBounded(setup, p);
    CommandsOfConcat(p.taken, p.sys.h.steering);
  }

  /** Between two executions every answer leaves the results alone and lowers the rank. */
  lemma AnswerDescends(sys: System, a: Answer)
    requires Inv(sys.m) && Allowed(sys.m.pc, a) && !a.Executed? && !Over(sys.m.pc)
    requires sys.m.pc.AwaitFollowup? ==> a == Messages([])
    requires sys.m.pc.AwaitFinish? ==> a == Continuation(None)
    requires sys.m.pc.CheckFinished? ==> sys.m.pc.continuation.None?
    requires sys.m.pc.AwaitObserve? && sys.progress.Observing? ==> sys.progress.recorded <= |sys.m.pc.plan.facts|
    requires a.Prepared? || !sys.m.pc.AwaitPrepare?
    ensures Rank(Answering(sys, a)) < Rank(sys)
    ensures Answering(sys, a).m.state.results == sys.m.state.results
  {
    match sys.m.pc
    case AwaitInvoke =>
    case CheckPrepared =>
    case AwaitSteering =>
    case Top =>
    case _ =>
  }

  /** The step has brought the run nearer its end. */
  ghost predicate Nearer(p: Play, q: Play) {
    q.arrived == p.arrived && Toll(q.sys) < Toll(p.sys)
  }

  lemma InvokeDescends(setup: Setup, p: Play, e: Event)
    requires PlayInv(setup, p) && e.Goes? && p.sys.m.pc.AwaitInvoke?
    ensures Nearer(p, Occurs(setup, p, e))
  {
    InvokeOccurs(setup, p, e);
    ProducesGenuinely(setup, p, e.hex);
    ProducingDescends(p.sys, Producing(setup, p.sys.m.state.request, e.hex));
  }

  lemma ProducingDescends(sys: System, choice: Choice)
    requires Inv(sys.m) && ValidStore(sys.h.store) && sys.m.pc.AwaitInvoke? && Genuine(choice)
    requires choice.ProducerProposes? || choice.CodeRaises?
    ensures Toll(Next(sys, choice)) < Toll(sys)
  {
    if choice.ProducerProposes? {
      ProposalDescends(sys, choice.plan, choice);
    } else {
      RaisedIs(sys);
    }
  }

  lemma ProducesGenuinely(setup: Setup, p: Play, hex: string)
    requires PlayInv(setup, p) && p.sys.m.pc.AwaitInvoke?
    ensures var plan, choice := Produce(setup.resolve, setup.slash, p.sys.m.state.request), Producing(setup, p.sys.m.state.request, hex);
            Genuine(choice) && if plan.Some? then choice.ProducerProposes? && choice.plan == plan.value else choice.CodeRaises?
  {
    ProducesHere(setup, p);
  }

  lemma ProposalDescends(sys: System, plan: TurnPlan, choice: Choice)
    requires Inv(sys.m) && ValidStore(sys.h.store) && sys.m.pc.AwaitInvoke?
    requires choice.ProducerProposes? && choice.plan == plan && Genuine(choice)
    ensures Toll(Next(sys, choice)) < Toll(sys)
  {
    ProposalIs(sys, plan, choice.hexes);
    AnswerDescends(sys, Invoked(Some(plan), choice.hexes));
  }

  lemma ExecuteDescends(setup: Setup, p: Play, e: Event)
    requires PlayInv(setup, p) && e.Goes? && p.sys.m.pc.AwaitExecute?
    ensures Nearer(p, Occurs(setup, p, e))
  {
    var call := p.sys.m.pc.call;
    ExecuteOccurs(setup, p, e, call);
    InFlight(setup, p);
    match p.sys.progress
    case Reported(report) =>
      TakingDescends(setup, p, call, report);
    case Requested =>
      var result := ToolResult(call.toolName, e.ok, e.output, e.error);
      ToolDescends(p.sys, call, result);
    case _ =>
      RecordDescends(p.sys, ToolRequestedFact(call), Requested);
  }

  lemma TakingDescends(setup: Setup, p: Play, call: ToolCall, report: ReportedCall)
    requires PlayInv(setup, p) && p.sys.m.pc == AwaitExecute(call) && p.sys.progress == Reported(report)
    ensures Toll(Answering(p.sys, Executed(CallReported(report)))) < Toll(p.sys)
  {
    InFlight(setup, p);
    InHand(setup, p, report);
    TakeDescends(p.sys, call, report);
  }

  lemma TakeDescends(sys: System, call: ToolCall, report: ReportedCall)
    requires Inv(sys.m) && sys.m.pc == AwaitExecute(call) && sys.progress == Reported(report)
    requires sys.m.state.batches != [] && sys.m.state.pending == [call] && Some(report.toolCallId) == call.toolCallId
    ensures Toll(Answering(sys, Executed(CallReported(report)))) < Toll(sys)
  {
    AdvanceStep(sys.m, report);
  }

  lemma RecordDescends(sys: System, f: TurnFact, progress: Progress)
    requires Rank(System(sys.m, sys.h, progress)) < Rank(sys) && Rank(sys) > 0
    ensures Toll(Recording(sys, f, progress)) < Toll(sys)
  {
  }

  lemma ToolDescends(sys: System, call: ToolCall, result: ToolResult)
    requires Inv(sys.m) && sys.m.pc == AwaitExecute(call) && sys.progress.Requested?
    requires HasIdentity(call.toolCallId) && result.toolName == call.toolName
    ensures Toll(ToolNext(sys, call, result, call.toolName)) < Toll(sys)
  {
    var report := ReportCall(call, result, call.toolName).value;
    RecordDescends(sys, ToolCompletedFact(report, sys.h.batchSeed), Reported(report));
  }

  lemma ObservedSoFar(setup: Setup, p: Play)
    requires PlayInv(setup, p) && p.sys.m.pc.AwaitObserve?
    ensures |p.sys.m.pc.plan.facts| <= 4
    ensures p.sys.progress.Observing? ==> p.sys.progress.recorded <= |p.sys.m.pc.plan.facts|
  {
  }

  lemma ObserveDescends(setup: Setup, p: Play, e: Event)
    requires PlayInv(setup, p) && e.Goes? && p.sys.m.pc.AwaitObserve?
    ensures Nearer(p, Occurs(setup, p, e))
  {
    var plan := p.sys.m.pc.plan;
    ObserveOccurs(setup, p, e, plan);
    ObservedSoFar(setup, p);
    ObservingDescends(p.sys, plan);
  }

  lemma ObservingDescends(sys: System, plan: TurnPlan)
    requires Inv(sys.m) && sys.m.pc == AwaitObserve(plan) && |plan.facts| <= 4
    requires sys.progress.Observing? ==> sys.progress.recorded <= |plan.facts|
    ensures Toll(ObserveNext(sys, plan)) < Toll(sys)
  {
    if sys.progress.Observing? && sys.progress.recorded < |plan.facts| {
      RecordDescends(sys, plan.facts[sys.progress.recorded], Observing(sys.progress.recorded + 1));
    } else if sys.progress.Observing? {
      AnswerDescends(sys, Observed(!sys.h.cancelled));
    }
  }

  lemma Undisturbed(setup: Setup, p: Play)
    requires PlayInv(setup, p)
    ensures !p.sys.h.cancelled && p.sys.h.followup == []
    ensures p.sys.m.pc.CheckFinished? ==> p.sys.m.pc.continuation.None?
  {
  }

  lemma PlainDescends(setup: Setup, p: Play, e: Event)
    requires PlayInv(setup, p) && e.Goes? && (Plain(p.sys.m.pc) || p.sys.m.pc.AwaitSteering?)
    ensures Nearer(p, Occurs(setup, p, e))
  {
    Undisturbed(setup, p);
    if p.sys.m.pc.AwaitSteering? {
      SteeringOccurs(setup, p, e);
      AnswerDescends(p.sys, Messages(p.sys.h.steering));
    } else {
      PlainOccurs(setup, p, e);
      AnswerDescends(p.sys, PlainAnswer(p.sys));
    }
  }

  lemma SteeringOccurs(setup: Setup, p: Play, e: Event)
    requires Inv(p.sys.m) && ValidStore(p.sys.h.store) && e.Goes? && p.sys.m.pc.AwaitSteering?
    ensures var q, answered := Occurs(setup, p, e), Answering(p.sys, Messages(p.sys.h.steering));
            q.arrived == p.arrived && q.sys.m == answered.m && q.sys.progress == answered.progress
  {
  }

  lemma StepDescends(setup: Setup, p: Play, e: Event)
    requires PlayInv(setup, p) && e.Goes? && !Over(p.sys.m.pc)
    ensures Nearer(p, Occurs(setup, p, e))
  {
    match p.sys.m.pc
    case AwaitInvoke => InvokeDescends(setup, p, e);
    case AwaitExecute(_) => ExecuteDescends(setup, p, e);
    case AwaitObserve(_) => ObserveDescends(setup, p, e);
    case _ => PlainDescends(setup, p, e);
  }

  lemma ArrivalOccurs(setup: Setup, p: Play, message: string)
    requires Inv(p.sys.m) && ValidStore(p.sys.h.store)
    ensures var q := Occurs(setup, p, Arrives(message));
            q.arrived == p.arrived + [message] && q.sys.m == p.sys.m && q.sys.progress == p.sys.progress
  {
  }

  /** Every step of the run brings its end nearer; only arriving commands put it off. */
  lemma EventMeasured(setup: Setup, p: Play, e: Event)
    requires PlayInv(setup, p)
    ensures var q := Occurs(setup, p, e);
            && (e.Goes? && !Over(p.sys.m.pc) ==> Measure(setup, q) < Measure(setup, p) && q.arrived == p.arrived)
            && (e.Goes? && Over(p.sys.m.pc) ==> q == p)
            && (e.Arrives? ==> Measure(setup, q) == Measure(setup, p) + 22 * |Commands(e.message)| && q.sys.m == p.sys.m
                               && q.arrived == p.arrived + [e.message])
  {
    if e.Arrives? {
      ArrivalOccurs(setup, p, e.message);
      CommandsOfSnoc(p.arrived, e.message);
    } else if Over(p.sys.m.pc) {
      OverOccurs(setup, p, e);
    } else {
      StepDescends(setup, p, e);
    }
  }

  lemma {:induction false} StepsBounded(setup: Setup, events: seq<Event>, plays: seq<Play>, n: nat)
    requires Played(setup, events, plays)
    requires n <= |events|
    ensures var p := plays[n];
            && p.arrived == SentUpTo(events, n)
            && (!Over(p.sys.m.pc) ==>
                  StepsUpTo(events, n) + Measure(setup, p) <= 22 * (|Commands(setup.prompt)| + |CommandsOf(SentUpTo(events, n))|) + 20)
  {
    if n > 0 {
      StepsBounded(setup, events, plays, n - 1);
      StepMeasured(setup, events, plays, n - 1);
    } else {
      OpeningMeasured(setup);
    }
  }

  lemma OpeningMeasured(setup: Setup)
    ensures var p := Opening(setup); p.arrived == [] && Measure(setup, p) == 22 * (|Commands(setup.prompt)| + |CommandsOf([])|) + 20
  {
  }

  lemma StepMeasured(setup: Setup, events: seq<Event>, plays: seq<Play>, n: nat)
    requires Played(setup, events, plays) && n < |events| && plays[n].arrived == SentUpTo(events, n)
    ensures var p, q := plays[n], plays[n + 1];
            && q.arrived == SentUpTo(events, n + 1)
            && (!Over(q.sys.m.pc) ==>
                  && !Over(p.sys.m.pc)
                  && Measure(setup, q) + StepsUpTo(events, n + 1) - 22 * |CommandsOf(SentUpTo(events, n + 1))| <=
                     Measure(setup, p) + StepsUpTo(events, n) - 22 * |CommandsOf(SentUpTo(events, n))|)
  {
    PlayNext(setup, events, plays, n);
    EventAdds(setup, events, n, plays[n]);
  }

  lemma EventAdds(setup: Setup, events: seq<Event>, n: nat, p: Play)
    requires n < |events| && PlayInv(setup, p) && p.arrived == SentUpTo(events, n)
    ensures var q := Occurs(setup, p, events[n]);
            && q.arrived == SentUpTo(events, n + 1)
            && (!Over(q.sys.m.pc) ==>
                  && !Over(p.sys.m.pc)
                  && Measure(setup, q) + StepsUpTo(events, n + 1) - 22 * |CommandsOf(SentUpTo(events, n + 1))| <=
                     Measure(setup, p) + StepsUpTo(events, n) - 22 * |CommandsOf(SentUpTo(events, n))|)
  {
    var e := events[n];
    EventMeasured(setup, p, e);
    if e.Arrives? {
      CommandsOfSnoc(SentUpTo(events, n), e.message);
    }
  }

  /** The run is over after a number of steps that the commands alone determine, however they arrive. */
  lemma Terminates(setup: Setup, events: seq<Event>, plays: seq<Play>)
    requires Played(setup, events, plays)
    requires StepsUpTo(events, |events|) > 22 * (|Commands(setup.prompt)| + |CommandsOf(Sent(events))|) + 20
    ensures Over(plays[|events|].sys.m.pc)
  {
    StepsBounded(setup, events, plays, |events|);
    PlayedKeepsInv(setup, events, plays, |events|);
    MeasureBounded(setup, plays[|events|]);
  }

  // ---- The record ----

  function AsChain(p: Play): Chain {
    Chain(p.sys, [], [])
  }

  function ChoiceOf(setup: Setup, sys: System, e: Event): Choice {
    match e
    case Arrives(message) => Steer(message)
    case Goes(_, _, _, _) => Going(setup, sys, e)
  }

  lemma NoCrash(setup: Setup, sys: System, e: Event)
    ensures !ChoiceOf(setup, sys, e).CrashAndRestart?
  {
  }

  lemma NextUncrashed(c: Chain, choice: Choice)
    requires Inv(c.sys.m) && ValidStore(c.sys.h.store) && Genuine(choice) && !choice.CrashAndRestart?
    ensures NextChain(c, choice) == c.(sys := Next(c.sys, choice))
  {
  }

  lemma OccursIsNext(setup: Setup, p: Play, e: Event)
    requires Inv(p.sys.m) && ValidStore(p.sys.h.store) && Genuine(ChoiceOf(setup, p.sys, e))
    ensures Occurs(setup, p, e).sys == Next(p.sys, ChoiceOf(setup, p.sys, e))
  {
  }

  lemma ChoosesGenuinely(setup: Setup, p: Play, e: Event)
    requires PlayInv(setup, p)
    ensures Genuine(ChoiceOf(setup, p.sys, e))
  {
    if e.Goes? && p.sys.m.pc.AwaitInvoke? {
      ProducesGenuinely(setup, p, e.hex);
    }
  }

  lemma EventKeepsChain(setup: Setup, p: Play, e: Event)
    requires PlayInv(setup, p) && ChainInv(AsChain(p))
    ensures ChainInv(AsChain(Occurs(setup, p, e)))
  {
    ChoosesGenuinely(setup, p, e);
    OccursIsNext(setup, p, e);
    NoCrash(setup, p.sys, e);
    NextUncrashed(AsChain(p), ChoiceOf(setup, p.sys, e));
    NextKeeps(AsChain(p), ChoiceOf(setup, p.sys, e));
  }

  lemma OpeningIsChain(setup: Setup)
    ensures ChainInv(AsChain(Opening(setup)))
  {
    BegunInv(Opening(setup).sys.m.state.request, [], false);
  }

  /** The record after i events is that of a chain of one run. */
  ghost predicate IsChainAt(plays: seq<Play>, i: int) {
    0 <= i < |plays| ==> ChainInv(AsChain(plays[i]))
  }

  ghost predicate ChainsUpTo(plays: seq<Play>, n: nat) {
    forall i {:trigger IsChainAt(plays, i)} :: i <= n ==> IsChainAt(plays, i)
  }

  lemma ChainFrom(setup: Setup, events: seq<Event>, plays: seq<Play>)
    requires Played(setup, events, plays)
    ensures ChainsUpTo(plays, 0)
  {
    OpeningIsChain(setup);
  }

  lemma ChainNext(setup: Setup, events: seq<Event>, plays: seq<Play>, n: nat)
    requires Played(setup, events, plays) && n < |events| && ChainInv(AsChain(plays[n]))
    ensures ChainInv(AsChain(plays[n + 1]))
  {
    PlayNext(setup, events, plays, n);
    EventKeepsChain(setup, plays[n], events[n]);
  }

  lemma ChainOn(setup: Setup, events: seq<Event>, plays: seq<Play>, n: nat)
    requires Played(setup, events, plays) && n < |events| && ChainsUpTo(plays, n)
    ensures ChainsUpTo(plays, n + 1)
  {
    assert IsChainAt(plays, n);
    ChainNext(setup, events, plays, n);
    forall i | i <= n + 1 ensures IsChainAt(plays, i) {
    }
  }

  lemma {:induction false} ChainUpTo(setup: Setup, events: seq<Event>, plays: seq<Play>, n: nat)
    requires Played(setup, events, plays) && n <= |events|
    ensures ChainsUpTo(plays, n)
  {
    if n == 0 {
      ChainFrom(setup, events, plays);
    } else {
      ChainUpTo(setup, events, plays, n - 1);
      ChainOn(setup, events, plays, n - 1);
    }
  }

  lemma PlayIsChain(setup: Setup, events: seq<Event>, plays: seq<Play>, n: nat)
    requires Played(setup, events, plays) && n <= |events|
    ensures ChainInv(AsChain(plays[n]))
  {
    ChainUpTo(setup, events, plays, n);
    assert IsChainAt(plays, n);
  }

  lemma {:induction false} RecordedSingles(all: seq<TurnBatch>, results: seq<ReportedCall>)
    requires |all| == |results| && forall i | 0 <= i < |all| :: all[i].results == [results[i]]
    ensures |Recorded(all)| == |results| && forall i | 0 <= i < |results| :: Recorded(all)[i].report == results[i]
  {
    if all != [] {
      RecordedSingles(Front(all), Front(results));
      assert Tagged(Last(all), 1) == Tagged(Last(all), 0) + [Completion(Last(results), Some(Snapshot(Last(all))))];
    }
  }

  /** The executions of the record are the commands: in order, once each, with the arguments they resolve to. */
  ghost predicate Executes(setup: Setup, commands: seq<string>, done: seq<Completion>) {
    && |done| == |commands|
    && forall i | 0 <= i < |done| ::
         && setup.resolve(commands[i]).Some?
         && done[i].report.finalToolName == setup.resolve(commands[i]).value.toolName
         && done[i].report.authorizedArguments == setup.resolve(commands[i]).value.arguments
  }

  lemma SettledOver(p: Play)
    requires ChainInv(AsChain(p)) && Over(p.sys.m.pc) && p.sys.m.state.pending == []
    ensures AllBatches(AsChain(p)) == p.sys.m.state.batches
  {
    var batches := p.sys.m.state.batches;
    assert [] + batches == batches;
    if p.sys.progress.Reported? && batches != [] {
      OverfullIsWrong(batches, p.sys.progress.report);
    }
  }

  /** A batch that is answered in full takes no further report. */
  lemma OverfullIsWrong(batches: seq<TurnBatch>, report: ReportedCall)
    requires batches != [] && |Last(batches).results| >= |Last(batches).calls|
    ensures !BatchesOk(Answered(batches, report))
  {
    var answered := Answered(batches, report);
    assert answered[|answered| - 1] == WithResult(Last(batches), report);
    assert !BatchOk(answered[|answered| - 1]);
  }

  lemma RecordIs(p: Play)
    requires ChainInv(AsChain(p)) && Over(p.sys.m.pc) && p.sys.m.state.pending == []
    ensures Completions(CurrentFacts(p.sys.h.store)) == Recorded(p.sys.m.state.batches)
  {
    SettledOver(p);
  }

  lemma ResultFollows(setup: Setup, told: seq<string>, s: State, i: nat)
    requires BatchesFollow(setup, told, s.batches) && ResultsFollow(s) && i < |s.results|
    ensures setup.resolve(told[i]).Some?
    ensures s.results[i].finalToolName == setup.resolve(told[i]).value.toolName
    ensures s.results[i].authorizedArguments == setup.resolve(told[i]).value.arguments
  {
    assert Answers(setup, told[i], s.batches[i].calls[0]) && Reports(s.batches[i].calls[0], s.results[i]);
  }

  lemma RecordOfResults(setup: Setup, told: seq<string>, s: State, done: seq<Completion>)
    requires BatchesFollow(setup, told, s.batches) && ResultsFollow(s) && s.pending == [] && done == Recorded(s.batches)
    ensures |done| == |s.results| <= |told|
    ensures forall i | 0 <= i < |done| :: done[i].report == s.results[i]
    ensures Executes(setup, told[..|done|], done)
  {
    RecordedSingles(s.batches, s.results);
    forall i | 0 <= i < |s.results|
      ensures setup.resolve(told[i]).Some?
      ensures s.results[i].finalToolName == setup.resolve(told[i]).value.toolName
      ensures s.results[i].authorizedArguments == setup.resolve(told[i]).value.arguments
    {
      ResultFollows(setup, told, s, i);
    }
  }

  lemma OverIsSettled(setup: Setup, p: Play)
    requires PlayInv(setup, p) && Over(p.sys.m.pc)
    ensures p.sys.m.state.pending == [] && BatchesFollow(setup, Told(setup, p), p.sys.m.state.batches) && ResultsFollow(p.sys.m.state)
    ensures ValidStore(p.sys.h.store)
  {
  }

  /** The record of a run that is over: what its batches say. */
  lemma RecordOf(setup: Setup, events: seq<Event>, plays: seq<Play>)
    requires Played(setup, events, plays)
    requires Over(plays[|events|].sys.m.pc)
    ensures var p := plays[|events|];
            ValidStore(p.sys.h.store) && Completions(CurrentFacts(p.sys.h.store)) == Recorded(p.sys.m.state.batches)
  {
    PlayedKeepsInv(setup, events, plays, |events|);
    OverIsSettled(setup, plays[|events|]);
    PlayIsChain(setup, events, plays, |events|);
    RecordIs(plays[|events|]);
  }

  /** What the run says in the end. */
  function Said(done: seq<Completion>): string {
    if done == [] then "" else TextOf(Last(done).report.result.output)
  }

  lemma SaidIsConclusion(done: seq<Completion>, results: seq<ReportedCall>)
    requires |done| == |results| && forall i | 0 <= i < |done| :: done[i].report == results[i]
    ensures Said(done) == Conclusion(results)
  {
  }

  /** What is known of a run that is over. */
  lemma HowItEnds(setup: Setup, p: Play)
    requires PlayInv(setup, p) && Over(p.sys.m.pc)
    ensures var s, told := p.sys.m.state, Told(setup, p);
            if p.sys.m.pc == Finished(Completed) then s.output.Some? && Concludes(setup, told, s, s.output.value)
            else Hopeless(setup, told, |s.results|)
  {
  }

  // ---- Which messages are taken ----

  /** Is a message that arrives now still waited for: is a command left, or the next drain still to come? */
  predicate Awaited(setup: Setup, p: Play) {
    |p.sys.m.state.results| < |Told(setup, p)| || p.sys.m.pc.CheckExecuted? || p.sys.m.pc.Top? || p.sys.m.pc.AwaitSteering?
  }

  /** The next step is the drain, or leads to it. */
  predicate AtLoopHead(pc: Pc) {
    pc.CheckExecuted? || pc.Top? || pc.AwaitSteering?
  }

  /** A step that takes nothing: a loop head stays one, an execution ends at one, and nothing else comes to one. */
  ghost predicate TakesNothing(setup: Setup, p: Play, q: Play) {
    && q.arrived == p.arrived && q.taken == p.taken
    && (AtLoopHead(p.sys.m.pc) ==> AtLoopHead(q.sys.m.pc) && q.sys.m.state.results == p.sys.m.state.results)
    && (q.sys.m.state.results == p.sys.m.state.results || AtLoopHead(q.sys.m.pc))
    && (!Awaited(setup, p) ==> !AtLoopHead(q.sys.m.pc) && q.sys.m.state.results == p.sys.m.state.results)
  }

  lemma InvokeTakesNothing(setup: Setup, p: Play, e: Event)
    requires PlayInv(setup, p) && e.Goes? && p.sys.m.pc.AwaitInvoke?
    ensures TakesNothing(setup, p, Occurs(setup, p, e))
  {
    InvokeOccurs(setup, p, e);
    var plan := Produce(setup.resolve, setup.slash, p.sys.m.state.request);
    if plan.Some? {
      ProducesGenuinely(setup, p, e.hex);
      ProposedIs(p.sys, plan.value, Producing(setup, p.sys.m.state.request, e.hex));
    } else {
      RaisedIs(p.sys);
    }
  }

  lemma ProposedIs(sys: System, plan: TurnPlan, choice: Choice)
    requires Inv(sys.m) && ValidStore(sys.h.store) && sys.m.pc.AwaitInvoke?
    requires choice.ProducerProposes? && choice.plan == plan && Genuine(choice)
    ensures !AtLoopHead(Next(sys, choice).m.pc) && Next(sys, choice).m.state.results == sys.m.state.results
  {
    ProposalIs(sys, plan, choice.hexes);
    AnswerDescends(sys, Invoked(Some(plan), choice.hexes));
  }

  lemma CallIsAwaited(setup: Setup, p: Play)
    requires PlayInv(setup, p) && p.sys.m.pc.AwaitExecute?
    ensures Awaited(setup, p)
  {
    InFlight(setup, p);
  }

  lemma ExecuteTakesNothing(setup: Setup, p: Play, e: Event)
    requires PlayInv(setup, p) && e.Goes? && p.sys.m.pc.AwaitExecute?
    ensures TakesNothing(setup, p, Occurs(setup, p, e))
  {
    var call := p.sys.m.pc.call;
    CallIsAwaited(setup, p);
    ExecuteOccurs(setup, p, e, call);
    if p.sys.progress.Reported? {
      TakingIs(setup, p, call, p.sys.progress.report);
    } else {
      NotTakenIs(p.sys, call, e);
    }
  }

  lemma TakingIs(setup: Setup, p: Play, call: ToolCall, report: ReportedCall)
    requires PlayInv(setup, p) && p.sys.m.pc == AwaitExecute(call) && p.sys.progress == Reported(report)
    ensures Answering(p.sys, Executed(CallReported(report))).m.pc.CheckExecuted?
  {
    InFlight(setup, p);
    InHand(setup, p, report);
    ReportFollows(setup, Told(setup, p), p.sys.m.state, call, report);
    AdvanceStep(p.sys.m, report);
  }

  lemma NotTakenIs(sys: System, call: ToolCall, e: Event)
    requires Inv(sys.m) && sys.m.pc == AwaitExecute(call) && !sys.progress.Reported? && e.Goes?
    ensures Recording(sys, ToolRequestedFact(call), Requested).m.state == sys.m.state
    ensures ToolNext(sys, call, ToolResult(call.toolName, e.ok, e.output, e.error), call.toolName).m.state == sys.m.state
  {
  }

  lemma ObserveTakesNothing(setup: Setup, p: Play, e: Event)
    requires PlayInv(setup, p) && e.Goes? && p.sys.m.pc.AwaitObserve?
    ensures TakesNothing(setup, p, Occurs(setup, p, e))
  {
    var plan := p.sys.m.pc.plan;
    ObserveOccurs(setup, p, e, plan);
    ObservingIs(p.sys, plan);
  }

  lemma ObservingIs(sys: System, plan: TurnPlan)
    requires Inv(sys.m) && sys.m.pc == AwaitObserve(plan)
    ensures !AtLoopHead(ObserveNext(sys, plan).m.pc) && ObserveNext(sys, plan).m.state.results == sys.m.state.results
  {
  }

  lemma PlainTakesNothing(setup: Setup, p: Play, e: Event)
    requires PlayInv(setup, p) && e.Goes? && Plain(p.sys.m.pc)
    ensures TakesNothing(setup, p, Occurs(setup, p, e))
  {
    Undisturbed(setup, p);
    PlainOccurs(setup, p, e);
    NothingPendingAtTop(setup, p);
    PlainIs(p.sys);
  }

  lemma NothingPendingAtTop(setup: Setup, p: Play)
    requires PlayInv(setup, p)
    ensures p.sys.m.pc.Top? ==> p.sys.m.state.pending == []
    ensures p.sys.m.pc.CheckExecuted? ==> p.sys.m.pc.outcome.CallReported?
  {
  }

  lemma PlainIs(sys: System)
    requires Inv(sys.m) && Plain(sys.m.pc) && (sys.m.pc.CheckFinished? ==> sys.m.pc.continuation.None?)
    requires sys.m.pc.Top? ==> sys.m.state.pending == []
    requires sys.m.pc.CheckExecuted? ==> sys.m.pc.outcome.CallReported?
    requires Allowed(sys.m.pc, PlainAnswer(sys))
    ensures var next := Answering(sys, PlainAnswer(sys)).m;
            next.state.results == sys.m.state.results && (AtLoopHead(next.pc) <==> AtLoopHead(sys.m.pc))
  {
    match sys.m.pc
    case Top =>
    case CheckExecuted(_) =>
    case CheckPrepared =>
    case CheckObserved(_) =>
    case CheckFinished(_, _) =>
    case AwaitPrepare =>
    case _ =>
  }

  lemma DrainTakesAll(setup: Setup, p: Play, e: Event)
    requires Inv(p.sys.m) && ValidStore(p.sys.h.store) && e.Goes? && p.sys.m.pc.AwaitSteering?
    ensures Occurs(setup, p, e).taken == p.arrived && Occurs(setup, p, e).arrived == p.arrived
  {
  }

  lemma StepTakes(setup: Setup, p: Play, e: Event)
    requires PlayInv(setup, p) && e.Goes?
    ensures var q := Occurs(setup, p, e);
            if p.sys.m.pc.AwaitSteering? then q.taken == p.arrived == q.arrived else TakesNothing(setup, p, q)
  {
    match p.sys.m.pc
    case AwaitSteering => DrainTakesAll(setup, p, e);
    case AwaitInvoke => InvokeTakesNothing(setup, p, e);
    case AwaitExecute(_) => ExecuteTakesNothing(setup, p, e);
    case AwaitObserve(_) => ObserveTakesNothing(setup, p, e);
    case Finished(_) | Failed(_) => OverOccurs(setup, p, e);
    case _ => PlainTakesNothing(setup, p, e);
  }

  /** The first n messages have been taken, or have arrived and are waited for. */
  ghost predicate Cared(setup: Setup, p: Play, n: nat) {
    n <= |p.taken| || (n <= |p.arrived| && Awaited(setup, p))
  }

  lemma CaredOn(setup: Setup, p: Play, e: Event, n: nat)
    requires PlayInv(setup, p) && Cared(setup, p, n)
    ensures Cared(setup, Occurs(setup, p, e), n)
  {
    var q := Occurs(setup, p, e);
    if e.Arrives? {
      ArrivalIs(setup, p, e.message);
    } else {
      StepTakes(setup, p, e);
      if p.sys.m.pc.AwaitSteering? {
        RankBounded(setup, p);
      }
    }
  }

  lemma ArrivalIs(setup: Setup, p: Play, message: string)
    requires Inv(p.sys.m) && ValidStore(p.sys.h.store)
    ensures var q := Occurs(setup, p, Arrives(message));
            q.sys.m == p.sys.m && q.taken == p.taken && q.arrived == p.arrived + [message] && (Awaited(setup, q) <==> Awaited(setup, p))
  {
  }

  /** Once nothing is waited for any more, nothing is taken any more. */
  lemma LateOn(setup: Setup, p: Play, e: Event)
    requires PlayInv(setup, p) && !Awaited(setup, p)
    ensures var q := Occurs(setup, p, e); !Awaited(setup, q) && q.taken == p.taken
  {
    if e.Arrives? {
      ArrivalIs(setup, p, e.message);
    } else {
      StepTakes(setup, p, e);
    }
  }

  lemma CaredAtArrival(setup: Setup, events: seq<Event>, plays: seq<Play>, k: nat)
    requires Played(setup, events, plays)
    requires k < |events| && events[k].Arrives? && Awaited(setup, plays[k])
    ensures Cared(setup, plays[k + 1], |SentUpTo(events, k)| + 1)
  {
    PlayNext(setup, events, plays, k);
    ArrivalIs(setup, plays[k], events[k].message);
    StepsBounded(setup, events, plays, k);
  }

  lemma CaredNext(setup: Setup, events: seq<Event>, plays: seq<Play>, j: nat, n: nat)
    requires Played(setup, events, plays)
    requires j < |events| && Cared(setup, plays[j], n)
    ensures Cared(setup, plays[j + 1], n)
  {
    PlayNext(setup, events, plays, j);
    CaredOn(setup, plays[j], events[j], n);
  }

  lemma {:induction false} CaredSince(setup: Setup, events: seq<Event>, plays: seq<Play>, k: nat, j: nat, n: nat)
    requires Played(setup, events, plays)
    requires k <= j <= |events| && Cared(setup, plays[k], n)
    ensures Cared(setup, plays[j], n)
    decreases j
  {
    if k < j {
      CaredSince(setup, events, plays, k, j - 1, n);
      CaredNext(setup, events, plays, j - 1, n);
    }
  }

  /** Nothing is waited for any more, and so much has been taken. */
  ghost predicate Late(setup: Setup, p: Play, taken: seq<string>) {
    !Awaited(setup, p) && p.taken == taken
  }

  lemma LateNext(setup: Setup, events: seq<Event>, plays: seq<Play>, j: nat, taken: seq<string>)
    requires Played(setup, events, plays)
    requires j < |events| && Late(setup, plays[j], taken)
    ensures Late(setup, plays[j + 1], taken)
  {
    PlayNext(setup, events, plays, j);
    LateOn(setup, plays[j], events[j]);
  }

  lemma {:induction false} LateSince(setup: Setup, events: seq<Event>, plays: seq<Play>, k: nat, j: nat, taken: seq<string>)
    requires Played(setup, events, plays)
    requires k <= j <= |events| && Late(setup, plays[k], taken)
    ensures Late(setup, plays[j], taken)
    decreases j
  {
    if k < j {
      LateSince(setup, events, plays, k, j - 1, taken);
      LateNext(setup, events, plays, j - 1, taken);
    }
  }

  /** In the end nothing is left to do, so what was waited for has been taken. */
  lemma EndTaken(setup: Setup, p: Play, n: nat)
    requires PlayInv(setup, p) && !setup.slash && p.sys.m.pc == Finished(Completed) && Cared(setup, p, n)
    ensures n <= |p.taken|
  {
    HowItEnds(setup, p);
  }

  lemma TakenHasArrived(setup: Setup, events: seq<Event>, plays: seq<Play>, n: nat)
    requires Played(setup, events, plays)
    requires n <= |events|
    ensures |plays[n].taken| <= |SentUpTo(events, n)|
  {
    StepsBounded(setup, events, plays, n);
    PlayedKeepsInv(setup, events, plays, n);
    QueueIs(setup, plays[n]);
  }

  lemma QueueIs(setup: Setup, p: Play)
    requires PlayInv(setup, p)
    ensures p.arrived == p.taken + p.sys.h.steering
  {
  }

  /** A message is taken exactly if it arrives while a command is left or before the last drain. */
  lemma TakenExactly(setup: Setup, events: seq<Event>, plays: seq<Play>, k: nat)
    requires Played(setup, events, plays)
    requires !setup.slash && plays[|events|].sys.m.pc == Finished(Completed)
    requires k < |events| && events[k].Arrives?
    ensures |SentUpTo(events, k)| < |plays[|events|].taken| <==> Awaited(setup, plays[k])
  {
    if Awaited(setup, plays[k]) {
      CaredAtArrival(setup, events, plays, k);
      CaredSince(setup, events, plays, k + 1, |events|, |SentUpTo(events, k)| + 1);
      PlayedKeepsInv(setup, events, plays, |events|);
      EndTaken(setup, plays[|events|], |SentUpTo(events, k)| + 1);
    } else {
      LateSince(setup, events, plays, k, |events|, plays[k].taken);
      TakenHasArrived(setup, events, plays, k);
    }
  }

  // ---- The whole ----

  /**
   When the run is over, exactly one of two things has happened. Either it completed: then the record
   holds every command of the prompt and of the steering taken, in order and once each, and the output
   is the last result's. Or it failed, which it does only if nothing was asked for or at the first
   command that does not resolve, with all commands before it executed.
   Of a completed run, taken are exactly the messages that arrived while a command was left or before the
   last drain, and these come before all others; the others are still in the queue.
   */
  lemma DeterministicRunIsExact(setup: Setup, events: seq<Event>, plays: seq<Play>)
    requires Played(setup, events, plays)
    requires Over(plays[|events|].sys.m.pc) && !setup.slash
    ensures ValidStore(plays[|events|].sys.h.store)
    ensures var p := plays[|events|];
            var told, done := Told(setup, p), Completions(CurrentFacts(p.sys.h.store));
            && Sent(events) == p.taken + p.sys.h.steering
            && |done| <= |told| && Executes(setup, told[..|done|], done)
            && (p.sys.m.pc == Finished(Completed) <==>
                  told != [] && |done| == |told| && p.sys.m.state.output == Some(Said(done)))
            && (p.sys.m.pc != Finished(Completed) <==>
                  told == [] || (|done| < |told| && setup.resolve(told[|done|]).None?))
    ensures plays[|events|].sys.m.pc == Finished(Completed) ==>
              forall k: nat | k < |events| && events[k].Arrives? ::
                |SentUpTo(events, k)| < |plays[|events|].taken| <==> Awaited(setup, plays[k])
  {
    var p := plays[|events|];
    StepsBounded(setup, events, plays, |events|);
    RecordOf(setup, events, plays);
    PlayedKeepsInv(setup, events, plays, |events|);
    ExactAt(setup, p, Completions(CurrentFacts(p.sys.h.store)));
    if p.sys.m.pc == Finished(Completed) {
      forall k: nat | k < |events| && events[k].Arrives?
        ensures |SentUpTo(events, k)| < |p.taken| <==> Awaited(setup, plays[k])
      {
        TakenExactly(setup, events, plays, k);
      }
    }
  }

  lemma ExactAt(setup: Setup, p: Play, done: seq<Completion>)
    requires PlayInv(setup, p) && Over(p.sys.m.pc) && !setup.slash && done == Recorded(p.sys.m.state.batches)
    ensures var told := Told(setup, p);
            && p.arrived == p.taken + p.sys.h.steering
            && |done| <= |told| && Executes(setup, told[..|done|], done)
            && (p.sys.m.pc == Finished(Completed) <==>
                  told != [] && |done| == |told| && p.sys.m.state.output == Some(Said(done)))
            && (p.sys.m.pc != Finished(Completed) <==>
                  told == [] || (|done| < |told| && setup.resolve(told[|done|]).None?))
  {
    RankBounded(setup, p);
    OverIsSettled(setup, p);
    RecordOfResults(setup, Told(setup, p), p.sys.m.state, done);
    HowItEnds(setup, p);
    SaidIsConclusion(done, p.sys.m.state.results);
  }

  lemma EchoesAt(setup: Setup, p: Play)
    requires PlayInv(setup, p) && Over(p.sys.m.pc) && setup.slash
    ensures p.sys.m.pc == Finished(Completed) && p.sys.m.state.batches == []
    ensures p.sys.m.state.output == Some(p.sys.m.state.request.prompt)
    ensures Commands(p.sys.m.state.request.prompt) == Commands(setup.prompt) + CommandsOf(p.taken)
  {
  }

  /** A slash command executes nothing and is answered with its own text. */
  lemma SlashCommandIsEchoed(setup: Setup, events: seq<Event>, plays: seq<Play>)
    requires Played(setup, events, plays)
    requires Over(plays[|events|].sys.m.pc) && setup.slash
    ensures ValidStore(plays[|events|].sys.h.store)
    ensures var p := plays[|events|];
            && p.sys.m.pc == Finished(Completed)
            && p.sys.m.state.output == Some(p.sys.m.state.request.prompt)
            && Commands(p.sys.m.state.request.prompt) == Commands(setup.prompt) + CommandsOf(p.taken)
            && Completions(CurrentFacts(p.sys.h.store)) == []
  {
    PlayedKeepsInv(setup, events, plays, |events|);
    EchoesAt(setup, plays[|events|]);
    RecordOf(setup, events, plays);
  }

  // ---- A message that comes too late ----

  function Go(): Event {
    Goes(true, Some("ok"), None, "0")
  }

  function GoTimes(n: nat): seq<Event> {
    seq(n, _ => Go())
  }

  lemma {:induction false} StepsOfGoing(n: nat, k: nat)
    requires k <= n
    ensures StepsUpTo(GoTimes(n), k) == k && SentUpTo(GoTimes(n), k) == []
  {
    if k > 0 {
      StepsOfGoing(n, k - 1);
    }
  }

  lemma ExecutionCompletesNot(sys: System, call: ToolCall, e: Event)
    requires Inv(sys.m) && sys.m.pc == AwaitExecute(call) && e.Goes?
    ensures Recording(sys, ToolRequestedFact(call), Requested).m.pc != Finished(Completed)
    ensures sys.progress.Reported? ==> Answering(sys, Executed(CallReported(sys.progress.report))).m.pc != Finished(Completed)
    ensures ToolNext(sys, call, ToolResult(call.toolName, e.ok, e.output, e.error), call.toolName).m.pc != Finished(Completed)
  {
  }

  lemma ObservationCompletesNot(sys: System, plan: TurnPlan)
    requires Inv(sys.m) && sys.m.pc == AwaitObserve(plan)
    ensures ObserveNext(sys, plan).m.pc != Finished(Completed)
  {
  }

  lemma PlainCompletesNot(sys: System)
    requires Inv(sys.m) && (Plain(sys.m.pc) || sys.m.pc.AwaitSteering?) && !sys.m.pc.CheckFinished?
    requires Allowed(sys.m.pc, PlainAnswer(sys))
    ensures Answering(sys, PlainAnswer(sys)).m.pc != Finished(Completed)
  {
  }

  /** Only the look after the end of a turn completes a run. */
  lemma CompletesFrom(setup: Setup, p: Play, e: Event)
    requires PlayInv(setup, p) && e.Goes? && !Over(p.sys.m.pc) && Occurs(setup, p, e).sys.m.pc == Finished(Completed)
    ensures p.sys.m.pc.CheckFinished?
  {
    match p.sys.m.pc
    case AwaitInvoke => InvokeCompletesNot(setup, p, e);
    case AwaitExecute(call) =>
      ExecuteOccurs(setup, p, e, call);
      ExecutionCompletesNot(p.sys, call, e);
    case AwaitObserve(plan) =>
      ObserveOccurs(setup, p, e, plan);
      ObservationCompletesNot(p.sys, plan);
    case AwaitSteering =>
      SteeringOccurs(setup, p, e);
      PlainCompletesNot(p.sys);
    case CheckFinished(_, _) =>
    case _ =>
      Undisturbed(setup, p);
      PlainOccurs(setup, p, e);
      PlainCompletesNot(p.sys);
  }

  lemma InvokeCompletesNot(setup: Setup, p: Play, e: Event)
    requires PlayInv(setup, p) && e.Goes? && p.sys.m.pc.AwaitInvoke?
    ensures Occurs(setup, p, e).sys.m.pc != Finished(Completed)
  {
    InvokeOccurs(setup, p, e);
    var plan := Produce(setup.resolve, setup.slash, p.sys.m.state.request);
    if plan.Some? {
      ProducesGenuinely(setup, p, e.hex);
      ProposalIs(p.sys, plan.value, Producing(setup, p.sys.m.state.request, e.hex).hexes);
    } else {
      RaisedIs(p.sys);
    }
  }

  function ReadsOnly(line: string): Option<Instruction> {
    Some(Instruction("read", map[]))
  }

  const ONE_COMMAND := Setup("read", ReadsOnly, false)

  /** A run that is told something, all of which resolves, completes. */
  lemma ResolvedCompletes(setup: Setup, events: seq<Event>, plays: seq<Play>)
    requires Played(setup, events, plays)
    requires Over(plays[|events|].sys.m.pc) && !setup.slash && Commands(setup.prompt) != []
    requires forall line :: setup.resolve(line).Some?
    ensures plays[|events|].sys.m.pc == Finished(Completed)
  {
    DeterministicRunIsExact(setup, events, plays);
  }

  /** One step before the end, nothing is waited for any more. */
  lemma NearlyOver(setup: Setup, p: Play)
    requires PlayInv(setup, p) && !setup.slash && !Over(p.sys.m.pc) && Occurs(setup, p, Go()).sys.m.pc == Finished(Completed)
    ensures p.sys.m.pc.CheckFinished? && !Awaited(setup, p)
  {
    CompletesFrom(setup, p, Go());
    NoneLeftAtTheEnd(setup, p);
  }

  lemma NoneLeftAtTheEnd(setup: Setup, p: Play)
    requires PlayInv(setup, p) && !setup.slash && p.sys.m.pc.CheckFinished?
    ensures !Awaited(setup, p)
  {
  }

  /** The look after the end of a turn does not mind what is in the queue. */
  lemma CompletesAllTheSame(setup: Setup, p: Play, message: string)
    requires PlayInv(setup, p) && p.sys.m.pc.CheckFinished? && Occurs(setup, p, Go()).sys.m.pc == Finished(Completed)
    ensures Occurs(setup, Occurs(setup, p, Arrives(message)), Go()).sys.m.pc == Finished(Completed)
  {
    var q := Occurs(setup, p, Arrives(message));
    ArrivalOccurs(setup, p, message);
    OccursKeeps(setup, p, Arrives(message));
    Undisturbed(setup, p);
    Undisturbed(setup, q);
    PlainOccurs(setup, p, Go());
    PlainOccurs(setup, q, Go());
  }

  lemma LateArrival(setup: Setup, p: Play, message: string) returns (q: Play)
    requires PlayInv(setup, p) && !Awaited(setup, p) && p.arrived == []
    ensures q == Occurs(setup, p, Arrives(message))
    ensures PlayInv(setup, q) && !Awaited(setup, q) && q.taken == [] && q.arrived == [message]
  {
    q := Occurs(setup, p, Arrives(message));
    OccursKeeps(setup, p, Arrives(message));
    ArrivalIs(setup, p, message);
    QueueIs(setup, p);
  }

  lemma LateGo(setup: Setup, p: Play) returns (q: Play)
    requires PlayInv(setup, p) && !Awaited(setup, p)
    ensures q == Occurs(setup, p, Go()) && q.taken == p.taken && q.arrived == p.arrived && q.arrived == q.taken + q.sys.h.steering
  {
    q := Occurs(setup, p, Go());
    OccursKeeps(setup, p, Go());
    LateOn(setup, p, Go());
    StepTakes(setup, p, Go());
    QueueIs(setup, q);
  }

  /** The last step of a run that nobody disturbs. */
  lemma LastGoing(setup: Setup) returns (k: nat, plays: seq<Play>)
    ensures Played(setup, GoTimes(k + 1), plays) && !Over(plays[k].sys.m.pc) && Over(plays[k + 1].sys.m.pc)
  {
    var n, all := GoingEnds(setup);
    k := FirstOver(all, n);
    plays := GoingUpTo(setup, n, all, k);
  }

  lemma GoingUpTo(setup: Setup, n: nat, all: seq<Play>, k: nat) returns (plays: seq<Play>)
    requires Played(setup, GoTimes(n), all) && k < n
    ensures Played(setup, GoTimes(k + 1), plays) && plays[k] == all[k] && plays[k + 1] == all[k + 1]
  {
    plays := all[..k + 2];
    RunSoFar(setup, GoTimes(n), all, k + 1);
    FirstGoes(n, k + 1);
  }

  lemma FirstOver(plays: seq<Play>, n: nat) returns (k: nat)
    requires n < |plays| && !Over(plays[0].sys.m.pc) && Over(plays[n].sys.m.pc)
    ensures k < n && !Over(plays[k].sys.m.pc) && Over(plays[k + 1].sys.m.pc)
  {
    k := Turning((i: nat) => i < |plays| && Over(plays[i].sys.m.pc), n);
  }

  /** Left to itself, a run ends. */
  lemma GoingEnds(setup: Setup) returns (n: nat, all: seq<Play>)
    ensures Played(setup, GoTimes(n), all) && !Over(all[0].sys.m.pc) && Over(all[n].sys.m.pc)
  {
    n := 22 * (|Commands(setup.prompt)| + |CommandsOf([])|) + 21;
    all := SomeRun(setup, GoTimes(n));
    StepsOfGoing(n, n);
    Terminates(setup, GoTimes(n), all);
  }

  lemma FirstGoes(n: nat, k: nat)
    requires k <= n
    ensures GoTimes(n)[..k] == GoTimes(k)
  {
  }

  lemma RunSoFar(setup: Setup, events: seq<Event>, plays: seq<Play>, n: nat)
    requires Played(setup, events, plays) && n <= |events|
    ensures Played(setup, events[..n], plays[..n + 1])
  {
    var fewer, sofar := events[..n], plays[..n + 1];
    forall i ensures NextPlay(setup, fewer, sofar, i) {
      assert NextPlay(setup, events, plays, i);
    }
  }

  /** Told something one step before its end, a run ends all the same, and leaves the message in the queue. */
  lemma LateAfterGoing(setup: Setup, k: nat, plays: seq<Play>, message: string) returns (events: seq<Event>, told: seq<Play>)
    requires !setup.slash && Played(setup, GoTimes(k + 1), plays)
    requires !Over(plays[k].sys.m.pc) && plays[k + 1].sys.m.pc == Finished(Completed)
    ensures events == GoTimes(k) + [Arrives(message)] + [Go()] && Played(setup, events, told)
    ensures Last(told).sys.m.pc == Finished(Completed) && Last(told).taken == [] && Last(told).sys.h.steering == [message]
  {
    PlayNext(setup, GoTimes(k + 1), plays, k);
    NothingSent(setup, k, plays);
    var q, end := LateEnd(setup, plays[k], message);
    events := GoTimes(k) + [Arrives(message)] + [Go()];
    told := Retold(setup, k, plays, message, q, end);
  }

  lemma LateEnd(setup: Setup, p: Play, message: string) returns (q: Play, end: Play)
    requires PlayInv(setup, p) && !setup.slash && p.arrived == []
    requires !Over(p.sys.m.pc) && Occurs(setup, p, Go()).sys.m.pc == Finished(Completed)
    ensures q == Occurs(setup, p, Arrives(message)) && PlayInv(setup, q) && end == Occurs(setup, q, Go())
    ensures end.sys.m.pc == Finished(Completed) && end.taken == [] && end.sys.h.steering == [message]
  {
    NearlyOver(setup, p);
    CompletesAllTheSame(setup, p, message);
    q := LateArrival(setup, p, message);
    end := LateGo(setup, q);
  }

  lemma NothingSent(setup: Setup, k: nat, plays: seq<Play>)
    requires Played(setup, GoTimes(k + 1), plays)
    ensures plays[k].arrived == []
  {
    StepsOfGoing(k + 1, k);
    StepsBounded(setup, GoTimes(k + 1), plays, k);
  }

  lemma Retold(setup: Setup, k: nat, plays: seq<Play>, message: string, q: Play, end: Play) returns (told: seq<Play>)
    requires Played(setup, GoTimes(k + 1), plays) && PlayInv(setup, plays[k])
    requires q == Occurs(setup, plays[k], Arrives(message)) && PlayInv(setup, q) && end == Occurs(setup, q, Go())
    ensures Played(setup, GoTimes(k) + [Arrives(message)] + [Go()], told) && Last(told) == end
  {
    RunSoFar(setup, GoTimes(k + 1), plays, k);
    assert GoTimes(k + 1)[..k] == GoTimes(k);
    assert Last(plays[..k + 1]) == plays[k];
    RunsOn(setup, GoTimes(k), plays[..k + 1], Arrives(message), q);
    RunsOn(setup, GoTimes(k) + [Arrives(message)], plays[..k + 1] + [q], Go(), end);
    told := plays[..k + 1] + [q] + [end];
  }

  /** It does happen: a run of one command completes with a message in the queue that came before its last step. */
  lemma LateMessageIsLeft() returns (events: seq<Event>, plays: seq<Play>)
    ensures |events| > 1 && events[|events| - 2] == Arrives("read") && Played(ONE_COMMAND, events, plays)
    ensures Last(plays).sys.m.pc == Finished(Completed) && Last(plays).taken == [] && Last(plays).sys.h.steering == ["read"]
  {
    OneCommand();
    var k, going := LastGoing(ONE_COMMAND);
    ResolvedCompletes(ONE_COMMAND, GoTimes(k + 1), going);
    events, plays := LateAfterGoing(ONE_COMMAND, k, going, "read");
  }
}
