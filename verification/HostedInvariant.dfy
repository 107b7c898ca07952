/** The invariant of a chain of runs is kept by every choice of the surroundings. */
module HostedInvariant {
  import opened Basics
  import opened Turns
  import opened Pairing
  import opened FactTree
  import opened Engine
  import opened EngineInvariant
  import opened Recovery
  import opened HostedRun
  import opened Repair

  /** A change that records nothing and leaves the batches alone. */
  lemma SilentKeeps(c: Chain, next: System)
    requires ChainInv(c) && !c.sys.progress.Reported? && !c.sys.progress.Refused?
    requires Inv(next.m) && next.m.state.batches == c.sys.m.state.batches
    requires StepNumbers(next.m.state) && EndedOk(next.m)
    requires next.h.store == c.sys.h.store && next.h.facts == c.sys.h.facts
    requires SeedOk(next.h, next.m.state.batches) && ProgressOk(next) && PlanQuiet(next.m)
    requires !next.progress.Reported? && !next.progress.Refused? && (next.progress.Requested? ==> c.sys.progress.Requested?)
    ensures ChainInv(c.(sys := next))
  {
    SettledBatches(c);
    SettledBatches(c.(sys := next));
  }

  /** A host that differs in its queues and its flag only. */
  predicate SameRecord(g: HostState, h: HostState) {
    h == g.(steering := h.steering, followup := h.followup, cancelled := h.cancelled)
  }

  lemma FlagsIs(c: Chain, choice: Choice)
    requires Inv(c.sys.m) && ValidStore(c.sys.h.store) && (choice.Steer? || choice.FollowUp? || choice.SetCancelled?)
    ensures var next := NextChain(c, choice); next == c.(sys := c.sys.(h := next.sys.h)) && SameRecord(c.sys.h, next.sys.h)
  {
  }

  lemma FlagsKeep(c: Chain, choice: Choice)
    requires ChainInv(c) && (choice.Steer? || choice.FollowUp? || choice.SetCancelled?)
    ensures ChainInv(NextChain(c, choice))
  {
    FlagsIs(c, choice);
    SameRecordKeeps(c, NextChain(c, choice).sys.h);
  }

  lemma SameRecordKeeps(c: Chain, h: HostState)
    requires ChainInv(c) && SameRecord(c.sys.h, h)
    ensures ChainInv(c.(sys := c.sys.(h := h)))
  {
    assert AllBatches(c.(sys := c.sys.(h := h))) == AllBatches(c);
  }

  // ---- Answers that leave the batches alone ----

  ghost predicate Plainly(m: Machine, a: Answer) {
    && Allowed(m.pc, a)
    && !(a.Executed? && a.outcome != CallPaused && a.outcome != CallStoppedBeforeReport)
    && !(a.Invoked? && a.proposal.Some? && a.proposal.value.ToolTurn?)
  }

  lemma PlainAnswerKeepsBatches(m: Machine, a: Answer)
    requires Inv(m) && Plainly(m, a)
    ensures Step(m, a).state.batches == m.state.batches && Step(m, a).state.pending == m.state.pending
  {
    match m.pc
    case AwaitExecute(_) =>
    case AwaitInvoke =>
    case _ => OtherAnswerKeepsBatches(m, a);
  }

  lemma OtherAnswerKeepsBatches(m: Machine, a: Answer)
    requires Allowed(m.pc, a) && !m.pc.AwaitExecute? && !m.pc.AwaitInvoke? && (m.state.pending != [] ==> m.state.batches != [])
    ensures Step(m, a).state.batches == m.state.batches && Step(m, a).state.pending == m.state.pending
  {
  }

  lemma AbandonedIs(sys: System)
    requires Inv(sys.m) && Allowed(sys.m.pc, HostFails)
    ensures Abandoned(sys) == System(Machine(sys.m.state, Failed(HostRaised)), sys.h, if sys.progress.Reported? then sys.progress else Quiet)
  {
  }

  lemma RaiseKeeps(c: Chain)
    requires ChainInv(c) && Allowed(c.sys.m.pc, HostFails)
    ensures ChainInv(c.(sys := Abandoned(c.sys)))
  {
    AbandonedIs(c.sys);
    FailedKeeps(c);
  }

  lemma NotRefusedYet(c: Chain)
    requires ChainInv(c) && Allowed(c.sys.m.pc, HostFails)
    ensures !c.sys.progress.Refused?
  {
  }

  lemma FailedKeeps(c: Chain)
    requires ChainInv(c) && Allowed(c.sys.m.pc, HostFails)
    ensures ChainInv(c.(sys := System(Machine(c.sys.m.state, Failed(HostRaised)), c.sys.h, if c.sys.progress.Reported? then c.sys.progress else Quiet)))
  {
    NotRefusedYet(c);
    var next := c.(sys := System(Machine(c.sys.m.state, Failed(HostRaised)), c.sys.h, if c.sys.progress.Reported? then c.sys.progress else Quiet));
    assert AllBatches(next) == AllBatches(c);
  }

  lemma SayKeepsNumbers(s: State, role: Role, text: string)
    requires StepNumbers(s)
    ensures StepNumbers(Say(s, role, text))
    ensures role == Assistant ==> TurnEndedSince(Say(s, role, text).transcript)
    ensures TurnEndedSince(s.transcript) ==> TurnEndedSince(Say(s, role, text).transcript)
  {
    assert Front(Say(s, role, text).transcript) == s.transcript;
  }

  predicate Speaks(pc: Pc) {
    pc.AwaitSteering? || pc.CheckObserved? || pc.AwaitFollowup? || pc.CheckFinished?
  }

  lemma PlainStepKeepsNumbers(m: Machine, a: Answer)
    requires Inv(m) && Plainly(m, a) && StepNumbers(m.state) && EndedOk(m)
    requires a.Prepared? && a.request.Some? ==> a.request.value.runStep == m.state.request.runStep
    ensures StepNumbers(Step(m, a).state) && EndedOk(Step(m, a))
  {
    if a.HostFails? || (a.Signal? && a.cancelled) {
      EndingKeepsNumbers(m, a);
    } else if Speaks(m.pc) {
      SpeakingKeepsNumbers(m, a);
    } else {
      SilentKeepsNumbers(m, a);
    }
  }

  lemma EndingKeepsNumbers(m: Machine, a: Answer)
    requires Allowed(m.pc, a) && (a.HostFails? || (a.Signal? && a.cancelled)) && StepNumbers(m.state)
    requires m.state.pending != [] ==> m.state.batches != []
    ensures StepNumbers(Step(m, a).state) && EndedOk(Step(m, a))
  {
  }

  lemma SilentKeepsNumbers(m: Machine, a: Answer)
    requires Plainly(m, a) && StepNumbers(m.state) && EndedOk(m) && !Speaks(m.pc) && !a.HostFails? && !(a.Signal? && a.cancelled)
    requires a.Prepared? && a.request.Some? ==> a.request.value.runStep == m.state.request.runStep
    requires m.state.pending != [] ==> m.state.batches != []
    ensures StepNumbers(Step(m, a).state) && EndedOk(Step(m, a))
  {
    assert Step(m, a).state.batches == m.state.batches && Step(m, a).state.transcript == m.state.transcript;
    assert Step(m, a).state.request.runStep == m.state.request.runStep;
  }

  lemma SpeakingKeepsNumbers(m: Machine, a: Answer)
    requires Plainly(m, a) && StepNumbers(m.state) && EndedOk(m) && Speaks(m.pc) && !a.HostFails? && !(a.Signal? && a.cancelled)
    requires m.state.pending != [] ==> m.state.batches != []
    ensures StepNumbers(Step(m, a).state) && EndedOk(Step(m, a))
  {
    var s := m.state;
    match m.pc
    case AwaitSteering => SayKeepsNumbers(s, User, Join(a.messages));
    case CheckObserved(plan) => SayKeepsNumbers(s, Assistant, if plan.FinalTurn? then plan.output else "");
    case AwaitFollowup(_) => SayKeepsNumbers(s, User, Join(a.messages));
    case CheckFinished(_, continuation) => SayKeepsNumbers(s, User, if continuation.Some? then continuation.value else "");
  }

  lemma PlainStepKeepsQuiet(m: Machine, a: Answer)
    requires Inv(m) && Plainly(m, a) && PlanQuiet(m) && !m.pc.CheckExecuted? && !m.pc.AwaitExecute?
    ensures PlanQuiet(Step(m, a))
  {
  }

  /** The drained messages, the preparation, the end of observation and all checks but the one after an execution. */
  lemma QuietAnswerKeeps(c: Chain, a: Answer, h: HostState)
    requires ChainInv(c) && Plainly(c.sys.m, a) && !c.sys.progress.Reported?
    requires h == c.sys.h.(steering := h.steering, followup := h.followup)
    requires !c.sys.m.pc.CheckExecuted? && !c.sys.m.pc.AwaitExecute? && !c.sys.m.pc.AwaitInvoke?
    requires c.sys.m.pc.AwaitObserve? ==> c.sys.progress.Observing?
    requires a.Prepared? && a.request.Some? ==> a.request.value.runStep == c.sys.m.state.request.runStep
    ensures ChainInv(c.(sys := System(Step(c.sys.m, a), h, Quiet)))
  {
    StepKeeps(c.sys.m, a);
    PlainAnswerKeepsBatches(c.sys.m, a);
    PlainStepKeepsNumbers(c.sys.m, a);
    PlainStepKeepsQuiet(c.sys.m, a);
    QuietProgress(c.sys, a, h);
    SilentKeeps(c, System(Step(c.sys.m, a), h, Quiet));
  }

  lemma QuietProgress(sys: System, a: Answer, h: HostState)
    requires Inv(sys.m) && Plainly(sys.m, a) && ProgressOk(sys) && PlanQuiet(sys.m)
    requires h == sys.h.(steering := h.steering, followup := h.followup)
    requires !sys.m.pc.CheckExecuted? && !sys.m.pc.AwaitExecute? && !sys.m.pc.AwaitInvoke?
    requires sys.m.pc.AwaitObserve? ==> sys.progress.Observing?
    ensures ProgressOk(System(Step(sys.m, a), h, Quiet))
  {
  }

  lemma ExecutedCheckKeeps(c: Chain, cancelled: bool)
    requires ChainInv(c) && c.sys.m.pc.CheckExecuted?
    ensures ChainInv(c.(sys := Answering(c.sys, Signal(cancelled))))
  {
    var a := Signal(cancelled);
    StepKeeps(c.sys.m, a);
    PlainAnswerKeepsBatches(c.sys.m, a);
    PlainStepKeepsNumbers(c.sys.m, a);
    ExecutedCheckQuiet(c.sys.m, a);
    SilentKeeps(c, Answering(c.sys, a));
  }

  lemma ExecutedCheckQuiet(m: Machine, a: Answer)
    requires Inv(m) && m.pc.CheckExecuted? && a.Signal? && PlanQuiet(m)
    ensures PlanQuiet(Step(m, a))
  {
  }

  lemma FinalProposalKeeps(c: Chain, plan: TurnPlan, hexes: seq<string>)
    requires ChainInv(c) && c.sys.m.pc.AwaitInvoke? && Genuine(ProducerProposes(plan, hexes)) && plan.FinalTurn?
    ensures ChainInv(c.(sys := Answering(c.sys, Invoked(Some(plan), hexes))))
  {
    StepKeeps(c.sys.m, Invoked(Some(plan), hexes));
    SilentKeeps(c, Answering(c.sys, Invoked(Some(plan), hexes)));
  }

  // ---- A new batch ----

  lemma BeginningIs(m: Machine, plan: TurnPlan, hexes: seq<string>)
    requires Inv(m) && m.pc.AwaitInvoke? && Genuine(ProducerProposes(plan, hexes)) && plan.ToolTurn?
    ensures var a, begun := Invoked(Some(plan), hexes), BeginBatch(m.state, plan, hexes);
            Step(m, a) == if begun.Raise? then Machine(m.state, Failed(begun.error)) else Machine(begun.value, AwaitObserve(begun.value.plan.value))
  {
  }

  lemma ProposalKeeps(c: Chain, plan: TurnPlan, hexes: seq<string>)
    requires ChainInv(c) && c.sys.m.pc.AwaitInvoke? && Genuine(ProducerProposes(plan, hexes)) && plan.ToolTurn?
    ensures ChainInv(c.(sys := Answering(c.sys, Invoked(Some(plan), hexes))))
  {
    var a := Invoked(Some(plan), hexes);
    StepKeeps(c.sys.m, a);
    BeginningIs(c.sys.m, plan, hexes);
    var begun := BeginBatch(c.sys.m.state, plan, hexes);
    if begun.Raise? {
      SilentKeeps(c, System(Machine(c.sys.m.state, Failed(begun.error)), c.sys.h, Quiet));
    } else {
      BatchBegins(c, plan, hexes, begun.value);
    }
  }

  /** A batch that was just begun: its numbers, and the log that may grow from it. */
  lemma BatchIsNew(s: State, plan: TurnPlan, hexes: seq<string>)
    requires plan.ToolTurn? && |hexes| == |plan.calls| && BeginBatch(s, plan, hexes).Ok?
    ensures var t := BeginBatch(s, plan, hexes).value;
            && t.batches != [] && Front(t.batches) == s.batches && Last(t.batches).results == []
            && Last(t.batches).runStep == s.request.runStep && t.request == s.request
            && t.plan.Some? && t.plan.value.ToolTurn? && t.plan.value.facts == plan.facts
            && StepNumbers(t)
  {
  }

  lemma BatchLogged(c: Chain, b: TurnBatch)
    requires ChainInv(c) && c.sys.m.pc.AwaitInvoke? && BatchOk(b) && b.results == [] && b.runStep == c.sys.m.state.request.runStep
    ensures AllBatches(c) == c.past + c.sys.m.state.batches
    ensures Sound(CurrentFacts(c.sys.h.store), AllBatches(c) + [b])
  {
    NothingPendingAllAnswered(c);
    SettledBatches(c);
    var all, s := AllBatches(c), c.sys.m.state;
    assert all != [] ==> s.batches != [] && Last(all) == Last(s.batches);
    LogBegin(CurrentFacts(c.sys.h.store), all, b);
  }

  lemma BatchBegins(c: Chain, plan: TurnPlan, hexes: seq<string>, t: State)
    requires ChainInv(c) && c.sys.m.pc.AwaitInvoke? && Genuine(ProducerProposes(plan, hexes)) && plan.ToolTurn?
    requires BeginBatch(c.sys.m.state, plan, hexes) == Ok(t) && t.plan.Some? && Inv(Machine(t, AwaitObserve(t.plan.value)))
    ensures ChainInv(c.(sys := System(Machine(t, AwaitObserve(t.plan.value)), c.sys.h, Quiet)))
  {
    var next := c.(sys := System(Machine(t, AwaitObserve(t.plan.value)), c.sys.h, Quiet));
    BatchIsNew(c.sys.m.state, plan, hexes);
    BatchLogged(c, Last(t.batches));
    SettledBatches(next);
    assert c.past + t.batches == AllBatches(c) + [Last(t.batches)];
  }

  // ---- Recording ----

  lemma PlainRecordKeeps(c: Chain, f: TurnFact, progress: Progress)
    requires ChainInv(c) && !IsExecution(f) && !c.sys.progress.Reported? && !c.sys.progress.Refused?
    requires c.sys.m.state.pending != [] ==> Last(c.sys.m.state.batches).results == []
    requires !progress.Reported? && !progress.Requested? && !progress.Refused?
    requires ProgressOk(System(c.sys.m, c.sys.h, progress))
    ensures ChainInv(c.(sys := Recording(c.sys, f, progress)))
  {
    RecordEffect(c.sys.h, f);
    RecordingIs(c.sys, f, progress);
    if f.StreamFact? || FactError(f).None? {
      PlainRecorded(c, Record(c.sys.h, f).0, f, progress);
    } else {
      FactRefused(c, Record(c.sys.h, f).0, f);
    }
  }

  lemma PlainRecorded(c: Chain, h: HostState, f: TurnFact, progress: Progress)
    requires ChainInv(c) && !IsExecution(f) && !c.sys.progress.Reported? && !c.sys.progress.Refused?
    requires c.sys.m.state.pending != [] ==> Last(c.sys.m.state.batches).results == []
    requires !progress.Reported? && !progress.Requested? && !progress.Refused?
    requires ProgressOk(System(c.sys.m, c.sys.h, progress))
    requires ValidStore(h.store) && h == c.sys.h.(facts := c.sys.h.facts + [f], store := h.store)
    requires CurrentFacts(h.store) == CurrentFacts(c.sys.h.store) + (if f.StreamFact? then [] else [f])
    ensures ChainInv(c.(sys := System(c.sys.m, h, progress)))
  {
    NonStreamSnoc(c.base, c.sys.h.facts, f);
    SettledBatches(c);
    SettledBatches(c.(sys := System(c.sys.m, h, progress)));
    PlainIsSound(c, f);
  }

  lemma PlainIsSound(c: Chain, f: TurnFact)
    requires ChainInv(c) && !IsExecution(f) && !c.sys.progress.Reported?
    requires c.sys.m.state.pending != [] ==> Last(c.sys.m.state.batches).results == []
    ensures Sound(CurrentFacts(c.sys.h.store) + (if f.StreamFact? then [] else [f]), AllBatches(c))
  {
    SettledBatches(c);
    if f.StreamFact? {
      assert CurrentFacts(c.sys.h.store) + [] == CurrentFacts(c.sys.h.store);
    } else {
      if c.sys.m.state.pending != [] {
        LastOfAll(c.past, c.sys.m.state.batches);
      } else {
        NothingPendingAllAnswered(c);
      }
      LogPlain(CurrentFacts(c.sys.h.store), AllBatches(c), f);
    }
  }

  lemma NoticeIs(h: HostState, batches: seq<TurnBatch>)
    requires SeedOk(h, batches)
    ensures var noticed := NoticeBatch(h, batches);
            && SeedOk(noticed, batches) && SeedCurrent(noticed, batches)
            && noticed.store == h.store && noticed.facts == h.facts
  {
  }

  lemma NoticeKeeps(c: Chain)
    requires ChainInv(c) && c.sys.m.pc.AwaitObserve? && c.sys.progress.Quiet?
    ensures ChainInv(c.(sys := System(c.sys.m, NoticeBatch(c.sys.h, c.sys.m.state.batches), Observing(0))))
  {
    NoticeIs(c.sys.h, c.sys.m.state.batches);
    SilentKeeps(c, System(c.sys.m, NoticeBatch(c.sys.h, c.sys.m.state.batches), Observing(0)));
  }

  lemma RecordingIs(sys: System, f: TurnFact, progress: Progress)
    ensures var (h, ok) := Record(sys.h, f);
            Recording(sys, f, progress) == if ok then System(sys.m, h, progress) else System(Machine(sys.m.state, Failed(HostRaised)), h, Refused)
  {
  }

  lemma RequestKeeps(c: Chain)
    requires ChainInv(c) && c.sys.m.pc.AwaitExecute? && c.sys.progress.Quiet?
    ensures ChainInv(c.(sys := Recording(c.sys, ToolRequestedFact(c.sys.m.pc.call), Requested)))
  {
    var f := ToolRequestedFact(c.sys.m.pc.call);
    RecordEffect(c.sys.h, f);
    RecordingIs(c.sys, f, Requested);
    if FactError(f).None? {
      RequestRecorded(c, Record(c.sys.h, f).0);
    } else {
      FactRefused(c, Record(c.sys.h, f).0, f);
    }
  }

  lemma RequestRecorded(c: Chain, h: HostState)
    requires ChainInv(c) && c.sys.m.pc.AwaitExecute? && c.sys.progress.Quiet? && HasIdentity(c.sys.m.pc.call.toolCallId)
    requires var f := ToolRequestedFact(c.sys.m.pc.call);
             && ValidStore(h.store) && h == c.sys.h.(facts := c.sys.h.facts + [f], store := h.store)
             && CurrentFacts(h.store) == CurrentFacts(c.sys.h.store) + [f]
    ensures ChainInv(c.(sys := System(c.sys.m, h, Requested)))
  {
    PendingIsNext(c);
    SettledBatches(c);
    SettledBatches(c.(sys := System(c.sys.m, h, Requested)));
    NonStreamSnoc(c.base, c.sys.h.facts, ToolRequestedFact(c.sys.m.pc.call));
    LogRequest(CurrentFacts(c.sys.h.store), AllBatches(c));
  }

  lemma FactRefused(c: Chain, h: HostState, f: TurnFact)
    requires ChainInv(c) && !c.sys.progress.Reported? && !c.sys.progress.Refused?
    requires ValidStore(h.store) && h == c.sys.h.(facts := c.sys.h.facts + [f], store := h.store)
    requires CurrentFacts(h.store) == CurrentFacts(c.sys.h.store)
    ensures ChainInv(c.(sys := System(Machine(c.sys.m.state, Failed(HostRaised)), h, Refused)))
  {
    var next := c.(sys := System(Machine(c.sys.m.state, Failed(HostRaised)), h, Refused));
    SettledBatches(c);
    SettledBatches(next);
    assert Front(h.facts) == c.sys.h.facts;
  }

  lemma CompletionKeeps(c: Chain, result: ToolResult, name: string)
    requires ChainInv(c) && c.sys.m.pc.AwaitExecute? && c.sys.progress.Requested?
    ensures ChainInv(c.(sys := ToolNext(c.sys, c.sys.m.pc.call, result, name)))
  {
    var report := ReportCall(c.sys.m.pc.call, result, name);
    if report.None? {
      RaiseKeeps(c);
    } else {
      ReportKeeps(c, report.value);
    }
  }

  /** What a tool returns is recorded as it is, under the snapshot of the batch in hand, or the run ends. */
  lemma ToolIsReported(sys: System, call: ToolCall, result: ToolResult, name: string)
    requires Inv(sys.m) && ValidStore(sys.h.store) && sys.m.pc == AwaitExecute(call) && sys.progress.Requested?
    ensures var next := ToolNext(sys, call, result, name);
            && ValidStore(next.h.store)
            && if HasIdentity(call.toolCallId) && result.toolName == name then
                 && next.m == sys.m && next.progress.Reported? && Tells(next.progress.report, call, result, name)
                 && CurrentFacts(next.h.store) == CurrentFacts(sys.h.store) + [ToolCompletedFact(next.progress.report, sys.h.batchSeed)]
               else next.m == Machine(sys.m.state, Failed(HostRaised)) && next.h == sys.h
  {
    ReportExactly(call, result, name);
    var report := ReportCall(call, result, name);
    if report.Some? {
      var f := ToolCompletedFact(report.value, sys.h.batchSeed);
      RecordEffect(sys.h, f);
      RecordingIs(sys, f, Reported(report.value));
    } else {
      AbandonedIs(sys);
    }
  }

  /** While a call runs, the completion to come is the next of the last batch. */
  lemma CallInFlight(c: Chain)
    requires ChainInv(c) && c.sys.m.pc.AwaitExecute? && c.sys.progress.Requested?
    ensures var all := AllBatches(c);
            && Unanswered(all)
            && all == c.past + c.sys.m.state.batches
            && NextCall(all) == c.sys.m.pc.call
            && c.sys.h.batchSeed == Some(Snapshot(Last(all)))
  {
    PendingIsNext(c);
    SettledBatches(c);
    LastOfAll(c.past, c.sys.m.state.batches);
    SeedInHand(c.sys.h, c.sys.m.state.batches);
  }

  lemma SeedInHand(h: HostState, batches: seq<TurnBatch>)
    requires SeedOk(h, batches) && SeedCurrent(h, batches) && batches != []
    ensures h.batchSeed == Some(Snapshot(Last(batches)))
  {
  }

  lemma ReportKeeps(c: Chain, report: ReportedCall)
    requires ChainInv(c) && c.sys.m.pc.AwaitExecute? && c.sys.progress.Requested?
    requires Some(report.toolCallId) == c.sys.m.pc.call.toolCallId && report.toolCallId != ""
    ensures ChainInv(c.(sys := Recording(c.sys, ToolCompletedFact(report, c.sys.h.batchSeed), Reported(report))))
  {
    var f := ToolCompletedFact(report, c.sys.h.batchSeed);
    CallInFlight(c);
    LogComplete(CurrentFacts(c.sys.h.store), AllBatches(c), report);
    RecordEffect(c.sys.h, f);
    RecordingIs(c.sys, f, Reported(report));
    NonStreamSnoc(c.base, c.sys.h.facts, f);
    ReportRecorded(c, Record(c.sys.h, f).0, report, f);
  }

  lemma ReportRecorded(c: Chain, h: HostState, report: ReportedCall, f: TurnFact)
    requires ChainInv(c) && c.sys.m.pc.AwaitExecute? && c.sys.progress.Requested?
    requires Some(report.toolCallId) == c.sys.m.pc.call.toolCallId && f.ToolCompletedFact?
    requires ValidStore(h.store) && h == c.sys.h.(facts := c.sys.h.facts + [f], store := h.store)
    requires CurrentFacts(h.store) == CurrentFacts(c.sys.h.store) + [f]
    requires c.base + NonStream(h.facts) == c.base + NonStream(c.sys.h.facts) + [f]
    requires AllBatches(c) != [] && AllBatches(c) == c.past + c.sys.m.state.batches
    requires Sound(CurrentFacts(h.store), Answered(AllBatches(c), report))
    ensures ChainInv(c.(sys := System(c.sys.m, h, Reported(report))))
  {
    RecordedChainInv(c, h, report);
  }

  lemma RecordedChainInv(c: Chain, h: HostState, report: ReportedCall)
    requires ChainInv(c) && c.sys.m.pc.AwaitExecute? && c.sys.progress.Requested?
    requires Some(report.toolCallId) == c.sys.m.pc.call.toolCallId
    requires ValidStore(h.store) && h.currentBatch == c.sys.h.currentBatch && h.batchSeed == c.sys.h.batchSeed
    requires AllBatches(c) != [] && AllBatches(c) == c.past + c.sys.m.state.batches
    requires Sound(CurrentFacts(h.store), Answered(AllBatches(c), report))
    requires CurrentFacts(h.store) == c.base + NonStream(h.facts)
    ensures ChainInv(c.(sys := System(c.sys.m, h, Reported(report))))
  {
  }

  lemma Advances(s: State, report: ReportedCall)
    requires s.pending != [] && s.batches != [] && Some(report.toolCallId) == s.pending[0].toolCallId
    requires StepNumbers(s)
    ensures var advanced := Advance(s, s.pending[0], report);
            && advanced.Ok?
            && advanced.value.batches == Answered(s.batches, report)
            && advanced.value.results == s.results + [report]
            && StepNumbers(advanced.value)
  {
    assert |(Last(s.batches).results + [report])| == |Last(s.batches).results| + 1;
  }

  lemma TakesOver(m: Machine, report: ReportedCall)
    requires Inv(m) && m.pc.AwaitExecute? && Some(report.toolCallId) == m.pc.call.toolCallId
    requires StepNumbers(m.state)
    ensures m.state.batches != []
    ensures var next := Step(m, Executed(CallReported(report)));
            && Inv(next)
            && next == Machine(Advance(m.state, m.pc.call, report).value, CheckExecuted(CallReported(report)))
            && next.state.batches == Answered(m.state.batches, report)
            && next.state.results == m.state.results + [report]
            && StepNumbers(next.state)
  {
    StepKeeps(m, Executed(CallReported(report)));
    Advances(m.state, report);
  }

  /** The engine takes over the recorded report. */
  lemma TakeOverKeeps(c: Chain)
    requires ChainInv(c) && c.sys.m.pc.AwaitExecute? && c.sys.progress.Reported?
    ensures ChainInv(c.(sys := Answering(c.sys, Executed(CallReported(c.sys.progress.report)))))
  {
    var report := c.sys.progress.report;
    var next := c.(sys := Answering(c.sys, Executed(CallReported(report))));
    TakesOver(c.sys.m, report);
    LastOfAll(c.past, c.sys.m.state.batches);
    assert AllBatches(c) == Answered(c.past + c.sys.m.state.batches, report);
    assert c.past + Answered(c.sys.m.state.batches, report) == AllBatches(c);
    assert AllBatches(next) == AllBatches(c);
  }

  // ---- Restarting from the store ----

  lemma IdentifiedIsSame(calls: seq<ToolCall>, hexes: seq<string>)
    requires |hexes| == |calls| && forall i | 0 <= i < |calls| :: calls[i].toolCallId.Some?
    ensures Identified(calls, hexes) == calls
  {
  }

  lemma {:induction false} SeedingSucceeds(s: State, reports: seq<ReportedCall>)
    requires s.batches != [] && BatchesOk(s.batches) && PendingOk(s) && TranscriptOk(s)
    requires IsIdPrefix(reports, s.pending)
    ensures SeedAll(s, reports).Ok?
  {
    if reports != [] {
      var front := Front(reports);
      assert ReportIds(front) == ReportIds(reports)[..|front|];
      assert CallIds(s.pending)[..|front|] == CallIds(s.pending)[..|reports|][..|front|];
      SeedingSucceeds(s, front);
      SeedAllKeeps(s, front);
      var n := |front|;
      assert ReportIds(reports)[n] == CallIds(s.pending)[..|reports|][n];
      assert SeedAll(s, front).value.pending[0] == s.pending[n];
    }
  }

  function SeedOf(b: TurnBatch): CallSeed {
    CallSeed(b.calls, b.reasoning, b.results, Some(b.runStep))
  }

  function Unseeded(b: TurnBatch): TurnBatch {
    b.(results := [])
  }

  /** The state right after the batch of a seed was begun. */
  function Reopened(b: TurnBatch, request: TurnRequest, given: seq<ReportedCall>): State {
    var s := InitialState(request, given);
    State(request.(runStep := b.runStep), given, b.calls, [Unseeded(b)], Some(ToolTurn(b.calls, [], b.reasoning)), None,
          s.transcript + [BatchAt(0)])
  }

  lemma Reopens(b: TurnBatch, request: TurnRequest, given: seq<ReportedCall>)
    requires BatchOk(b)
    ensures var s := InitialState(request, given).(request := request.(runStep := b.runStep));
            BeginBatch(s, ToolTurn(b.calls, [], b.reasoning), seq(|b.calls|, _ => "")) == Ok(Reopened(b, request, given))
    ensures var t := Reopened(b, request, given);
            BatchesOk(t.batches) && PendingOk(t) && TranscriptOk(t)
  {
    var s := InitialState(request, given).(request := request.(runStep := b.runStep));
    IdentifiedIsSame(b.calls, seq(|b.calls|, _ => ""));
    assert BatchEntries(Front(s.transcript)) == [];
    BeginBatchKeeps(s, ToolTurn(b.calls, [], b.reasoning), seq(|b.calls|, _ => ""));
    assert s.batches + [Unseeded(b)] == [Unseeded(b)];
  }

  lemma ReplaysSeed(b: TurnBatch, request: TurnRequest, given: seq<ReportedCall>)
    requires BatchOk(b)
    ensures var replayed := SeedAll(Reopened(b, request, given), b.results);
            && replayed.Ok?
            && replayed.value.batches == [b]
            && replayed.value.pending == Remaining(b)
            && replayed.value.request == request.(runStep := b.runStep)
            && !TurnEndedSince(replayed.value.transcript)
  {
    Reopens(b, request, given);
    var begun := Reopened(b, request, given);
    SeedingSucceeds(begun, b.results);
    SeedAllKeeps(begun, b.results);
    assert [] + b.results == b.results;
    assert Last(SeedAll(begun, b.results).value.batches) == b;
  }

  /** The machine a seed starts: the batch as it was, and its unanswered calls pending. */
  ghost predicate Continues(m: Machine, b: TurnBatch, request: TurnRequest)
    requires BatchOk(b)
  {
    && Inv(m)
    && m.pc == Top
    && m.state.batches == [b]
    && m.state.pending == Remaining(b)
    && m.state.request == request.(runStep := b.runStep + |b.results|)
    && (m.state.pending != [] ==> m.state.plan.Some? && m.state.plan.value.facts == [])
    && !TurnEndedSince(m.state.transcript)
  }

  /** A seed taken from a batch always starts a run, and the run continues that very batch. */
  lemma StartContinues(b: TurnBatch, request: TurnRequest, given: seq<ReportedCall>)
    requires BatchOk(b)
    ensures var started := Start(request, given, Some(SeedOf(b)), seq(|b.calls|, _ => ""));
            started.Ok? && Continues(started.value, b, request)
  {
    Reopens(b, request, given);
    ReplaysSeed(b, request, given);
    var hexes := seq(|b.calls|, _ => "");
    var t := SeedAll(Reopened(b, request, given), b.results).value;
    var plan := if t.pending != [] then Some(ToolTurn(t.pending, [], b.reasoning)) else None;
    assert Start(request, given, Some(SeedOf(b)), hexes) ==
           Ok(Machine(t.(request := t.request.(runStep := t.request.runStep + |b.results|), plan := plan), Top));
    StartInv(request, given, Some(SeedOf(b)), hexes);
  }

  lemma RestartSound(c: Chain)
    requires ChainInv(c) && Restore(CurrentFacts(c.sys.h.store)).Ok?
    ensures var all := AllBatches(c);
            && AnyCompletion(all) && BatchOk(Latest(all)) && Latest(all).results != []
            && Restore(CurrentFacts(c.sys.h.store)).value == SeedOf(Latest(all))
            && Sound(CurrentFacts(c.sys.h.store), BeforeLatest(all) + [Latest(all)])
  {
    var all := AllBatches(c);
    var facts := CurrentFacts(c.sys.h.store);
    RestoreExact(facts, all);
    LatestOk(all);
    if Last(all).results == [] {
      LogForget(facts, all);
    }
  }

  lemma RestartedIs(c: Chain, request: TurnRequest, given: seq<ReportedCall>)
    requires ChainInv(c) && Restore(CurrentFacts(c.sys.h.store)).Ok?
    ensures AnyCompletion(AllBatches(c)) && BatchOk(Latest(AllBatches(c)))
    ensures var again := Restarted(c.sys.h.store, request, given);
            && again.Some?
            && Continues(again.value.m, Latest(AllBatches(c)), request)
            && again.value.h == FreshHost(c.sys.h.store) && again.value.progress == Quiet
  {
    RestartSound(c);
    var b := Latest(AllBatches(c));
    StartContinues(b, request, given);
    RestartedFrom(c.sys.h.store, b, request, given);
  }

  lemma RestartedFrom(store: Store, b: TurnBatch, request: TurnRequest, given: seq<ReportedCall>)
    requires ValidStore(store) && BatchOk(b) && Restore(CurrentFacts(store)) == Ok(SeedOf(b))
    requires Start(request, given, Some(SeedOf(b)), seq(|b.calls|, _ => "")).Ok?
    ensures Restarted(store, request, given) ==
            Some(System(Start(request, given, Some(SeedOf(b)), seq(|b.calls|, _ => "")).value, FreshHost(store), Quiet))
  {
  }

  /** A restart after a repair: what the repaired store yields, and that it is sound. */
  lemma RepairedSound(c: Chain)
    requires ChainInv(c)
    ensures var store := Survivor(c.sys.h.store, true);
            Restore(CurrentFacts(store)).Ok? ==>
              && AnyCompletion(AllBatches(c)) && BatchOk(Latest(AllBatches(c))) && Latest(AllBatches(c)).results != []
              && Restore(CurrentFacts(store)).value == SeedOf(Latest(AllBatches(c)))
              && Sound(CurrentFacts(store), BeforeLatest(AllBatches(c)) + [Latest(AllBatches(c))])
  {
    if AnyCompletion(AllBatches(c)) {
      RepairedIs(c.sys.h.store, AllBatches(c));
    } else {
      NothingToRepair(c.sys.h.store, AllBatches(c));
    }
  }

  lemma RestartKeeps(c: Chain, request: TurnRequest, given: seq<ReportedCall>, repair: bool)
    requires ChainInv(c) && Restarted(Survivor(c.sys.h.store, repair), request, given).Some?
    ensures AllBatches(c) != []
    ensures var store := Survivor(c.sys.h.store, repair);
            ChainInv(Chain(Restarted(store, request, given).value, BeforeLatest(AllBatches(c)), CurrentFacts(store)))
  {
    var store := Survivor(c.sys.h.store, repair);
    if repair {
      RepairedSound(c);
    } else {
      RestartSound(c);
    }
    var b := Latest(AllBatches(c));
    StartContinues(b, request, given);
    RestartedFrom(store, b, request, given);
    FreshChainInv(BeforeLatest(AllBatches(c)), b, CurrentFacts(store), Restarted(store, request, given).value);
  }

  lemma FreshChainInv(past: seq<TurnBatch>, b: TurnBatch, facts: seq<TurnFact>, sys: System)
    requires Inv(sys.m) && sys.m.pc == Top && sys.m.state.batches == [b]
    requires sys.m.state.request.runStep == b.runStep + |b.results|
    requires sys.m.state.pending != [] ==> sys.m.state.plan.Some? && sys.m.state.plan.value.facts == []
    requires b.results != [] && !TurnEndedSince(sys.m.state.transcript)
    requires ValidStore(sys.h.store) && sys == System(sys.m, FreshHost(sys.h.store), Quiet)
    requires CurrentFacts(sys.h.store) == facts && Sound(facts, past + [b])
    ensures ChainInv(Chain(sys, past, facts))
  {
    assert facts + NonStream([]) == facts;
    assert AllBatches(Chain(sys, past, facts)) == past + [b];
  }

  // ---- Every choice ----

  lemma ObserveKeeps(c: Chain, plan: TurnPlan)
    requires ChainInv(c) && c.sys.m.pc == AwaitObserve(plan)
    ensures ChainInv(c.(sys := ObserveNext(c.sys, plan)))
  {
    match c.sys.progress
    case Observing(k) => ObservingKeeps(c, plan, k);
    case _ =>
      ObserveIs(c.sys, plan);
      NoticeKeeps(c);
  }

  lemma ObservingKeeps(c: Chain, plan: TurnPlan, k: nat)
    requires ChainInv(c) && c.sys.m.pc == AwaitObserve(plan) && c.sys.progress == Observing(k)
    ensures ChainInv(c.(sys := ObserveNext(c.sys, plan)))
  {
    ObserveIs(c.sys, plan);
    if k < |plan.facts| {
      PlanFactKeeps(c, plan, k);
    } else {
      ObservationEnds(c, plan);
    }
  }

  lemma ObserveIs(sys: System, plan: TurnPlan)
    requires Inv(sys.m) && sys.m.pc == AwaitObserve(plan)
    ensures ObserveNext(sys, plan) ==
            if !sys.progress.Observing? then System(sys.m, NoticeBatch(sys.h, sys.m.state.batches), Observing(0))
            else if sys.progress.recorded < |plan.facts| then
              Recording(sys, plan.facts[sys.progress.recorded], Observing(sys.progress.recorded + 1))
            else Answering(sys, Observed(!sys.h.cancelled))
  {
  }

  lemma ObservationEnds(c: Chain, plan: TurnPlan)
    requires ChainInv(c) && c.sys.m.pc == AwaitObserve(plan) && c.sys.progress.Observing?
    ensures ChainInv(c.(sys := Answering(c.sys, Observed(!c.sys.h.cancelled))))
  {
    QuietAnswerKeeps(c, Observed(!c.sys.h.cancelled), c.sys.h);
  }

  lemma PlanFactKeeps(c: Chain, plan: TurnPlan, k: nat)
    requires ChainInv(c) && c.sys.m.pc == AwaitObserve(plan) && c.sys.progress == Observing(k) && k < |plan.facts|
    ensures ChainInv(c.(sys := Recording(c.sys, plan.facts[k], Observing(k + 1))))
  {
    PlainRecordKeeps(c, plan.facts[k], Observing(k + 1));
  }

  lemma ExecuteKeeps(c: Chain, call: ToolCall)
    requires ChainInv(c) && c.sys.m.pc == AwaitExecute(call)
    ensures ChainInv(c.(sys := ExecuteNext(c.sys, call)))
  {
    ExecuteIs(c.sys, call);
    match c.sys.progress
    case Reported(_) => TakeOverKeeps(c);
    case Requested =>
    case _ => RequestKeeps(c);
  }

  lemma ExecuteIs(sys: System, call: ToolCall)
    requires Inv(sys.m) && sys.m.pc == AwaitExecute(call)
    ensures ExecuteNext(sys, call) ==
            if sys.progress.Reported? then Answering(sys, Executed(CallReported(sys.progress.report)))
            else if sys.progress.Requested? then sys
            else Recording(sys, ToolRequestedFact(call), Requested)
  {
  }

  lemma CheckKeeps(c: Chain, cancelled: bool)
    requires ChainInv(c) && Allowed(c.sys.m.pc, Signal(cancelled))
    ensures ChainInv(c.(sys := Answering(c.sys, Signal(cancelled))))
  {
    match c.sys.m.pc
    case CheckExecuted(_) => ExecutedCheckKeeps(c, cancelled);
    case _ => QuietAnswerKeeps(c, Signal(cancelled), c.sys.h);
  }

  lemma ContinueKeeps(c: Chain)
    requires ChainInv(c)
    ensures ChainInv(c.(sys := ContinueNext(c.sys)))
  {
    var sys := c.sys;
    match sys.m.pc
    case Top | CheckPrepared | CheckObserved(_) | CheckFinished(_, _) | CheckExecuted(_) => CheckKeeps(c, sys.h.cancelled);
    case AwaitSteering => QuietAnswerKeeps(c, Messages(sys.h.steering), sys.h.(steering := []));
    case AwaitFollowup(_) => QuietAnswerKeeps(c, Messages(sys.h.followup), sys.h.(followup := []));
    case AwaitPrepare => QuietAnswerKeeps(c, Prepared(Some(PreparedRequest(sys.m.state))), sys.h);
    case AwaitFinish(_) => QuietAnswerKeeps(c, Continuation(None), sys.h);
    case AwaitObserve(plan) => ObserveKeeps(c, plan);
    case AwaitExecute(call) => ExecuteKeeps(c, call);
    case _ =>
  }

  lemma ProducerIs(c: Chain, choice: Choice)
    requires Inv(c.sys.m) && ValidStore(c.sys.h.store) && Genuine(choice) && (choice.ProducerYields? || choice.ProducerProposes?)
    ensures NextChain(c, choice) ==
            if !c.sys.m.pc.AwaitInvoke? then c
            else if choice.ProducerYields? then c.(sys := Recording(c.sys, choice.fact, Quiet))
            else c.(sys := Answering(c.sys, Invoked(Some(choice.plan), choice.hexes)))
  {
  }

  lemma ProducerKeeps(c: Chain, choice: Choice)
    requires ChainInv(c) && Genuine(choice) && (choice.ProducerYields? || choice.ProducerProposes?)
    ensures ChainInv(NextChain(c, choice))
  {
    ProducerIs(c, choice);
    if c.sys.m.pc.AwaitInvoke? {
      if choice.ProducerYields? {
        YieldKeeps(c, choice.fact);
      } else if choice.plan.ToolTurn? {
        ProposalKeeps(c, choice.plan, choice.hexes);
      } else {
        FinalProposalKeeps(c, choice.plan, choice.hexes);
      }
    }
  }

  lemma YieldKeeps(c: Chain, f: TurnFact)
    requires ChainInv(c) && c.sys.m.pc.AwaitInvoke? && !IsExecution(f)
    ensures ChainInv(c.(sys := Recording(c.sys, f, Quiet)))
  {
    PlainRecordKeeps(c, f, Quiet);
  }

  lemma ToolKeeps(c: Chain, choice: Choice)
    requires ChainInv(c) && (choice.ToolReturns? || choice.CodeRaises?)
    ensures ChainInv(NextChain(c, choice))
  {
    ToolIs(c, choice);
    if choice.ToolReturns? && c.sys.m.pc.AwaitExecute? && c.sys.progress.Requested? {
      CompletionKeeps(c, choice.result, choice.finalToolName);
    } else if choice.CodeRaises? && Allowed(c.sys.m.pc, HostFails) {
      RaiseKeeps(c);
    }
  }

  lemma ToolIs(c: Chain, choice: Choice)
    requires Inv(c.sys.m) && ValidStore(c.sys.h.store) && (choice.ToolReturns? || choice.CodeRaises?)
    ensures NextChain(c, choice) ==
            if choice.ToolReturns? && c.sys.m.pc.AwaitExecute? && c.sys.progress.Requested? then
              c.(sys := ToolNext(c.sys, c.sys.m.pc.call, choice.result, choice.finalToolName))
            else if choice.CodeRaises? && Allowed(c.sys.m.pc, HostFails) then c.(sys := Abandoned(c.sys))
            else c
  {
  }

  lemma CrashKeeps(c: Chain, choice: Choice)
    requires ChainInv(c) && choice.CrashAndRestart?
    ensures ChainInv(NextChain(c, choice))
  {
    CrashIs(c, choice);
    if Restarted(Survivor(c.sys.h.store, choice.repair), choice.request, choice.given).Some? {
      RestartKeeps(c, choice.request, choice.given, choice.repair);
    }
  }

  lemma CrashIs(c: Chain, choice: Choice)
    requires Inv(c.sys.m) && ValidStore(c.sys.h.store) && choice.CrashAndRestart?
    ensures var store := Survivor(c.sys.h.store, choice.repair);
            var again := Restarted(store, choice.request, choice.given);
            NextChain(c, choice) ==
            if again.None? then c
            else Chain(again.value, if AllBatches(c) == [] then [] else BeforeLatest(AllBatches(c)), CurrentFacts(store))
  {
  }

  lemma NextKeeps(c: Chain, choice: Choice)
    requires ChainInv(c) && Genuine(choice)
    ensures ChainInv(NextChain(c, choice))
  {
    match choice
    case Steer(_) | FollowUp(_) | SetCancelled(_) => FlagsKeep(c, choice);
    case Continue =>
      ContinueKeeps(c);
      assert NextChain(c, choice) == c.(sys := ContinueNext(c.sys));
    case ProducerYields(_) | ProducerProposes(_, _) => ProducerKeeps(c, choice);
    case ToolReturns(_, _) | CodeRaises => ToolKeeps(c, choice);
    case CrashAndRestart(_, _, _) => CrashKeeps(c, choice);
  }
}
