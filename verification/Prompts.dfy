/** What users' messages do to the prompt: nothing that the engine takes from its host is lost before the producer is asked again. */
module Prompts {
  import opened Basics
  import opened Turns
  import opened FactTree
  import opened Engine
  import opened EngineInvariant
  import opened Transcript
  import opened Deterministic
  import opened HostedRun
  import opened HostedInvariant
  import opened CrashResume

  // ---- Texts behind one another ----

  /** A prompt followed by messages in order, each behind a blank line; an empty prompt needs none in front of the first. */
  function Followed(prompt: string, messages: seq<string>): string {
    if messages == [] then prompt
    else if prompt == "" && |messages| == 1 then messages[0]
    else Followed(prompt, Front(messages)) + "\n\n" + Last(messages)
  }

  lemma {:induction false} JoinFollows(messages: seq<string>)
    ensures Join(messages) == Followed("", messages)
  {
    if |messages| > 1 {
      JoinFollows(Front(messages));
    }
  }

  lemma {:induction false} AppendFollows(prompt: string, messages: seq<string>)
    requires prompt != ""
    ensures Join([prompt] + messages) == Followed(prompt, messages)
  {
    if messages != [] {
      assert Front([prompt] + messages) == [prompt] + Front(messages) && Last([prompt] + messages) == Last(messages);
      AppendFollows(prompt, Front(messages));
    } else {
      assert [prompt] + messages == [prompt];
    }
  }

  lemma {:induction false} FollowedStarts(prompt: string, messages: seq<string>)
    ensures prompt <= Followed(prompt, messages)
  {
    if messages != [] && !(prompt == "" && |messages| == 1) {
      FollowedStarts(prompt, Front(messages));
    }
  }

  /** Every message stands in the text somewhere. */
  lemma {:induction false} FollowedHolds(prompt: string, messages: seq<string>, i: nat) returns (before: string, after: string)
    requires i < |messages|
    ensures Followed(prompt, messages) == before + messages[i] + after
    decreases |messages|
  {
    if prompt == "" && |messages| == 1 {
      before, after := "", "";
    } else if i == |messages| - 1 {
      before, after := Followed(prompt, Front(messages)) + "\n\n", "";
    } else {
      before, after := FollowedHolds(prompt, Front(messages), i);
      after := after + "\n\n" + Last(messages);
    }
  }

  /** What a host's messages do to a prompt, in texts and in commands. */
  lemma AppendExactly(prompt: string, messages: seq<string>)
    ensures AppendMessages(prompt, messages) == Followed(prompt, messages)
    ensures Commands(Followed(prompt, messages)) == Commands(prompt) + CommandsOf(messages)
  {
    AppendedCommands(prompt, messages);
    if prompt == "" {
      JoinFollows(messages);
    } else {
      AppendFollows(prompt, messages);
    }
  }

  // ---- One answer ----

  /** The state has gained a text of a user and nothing else but what its request says. */
  ghost predicate Heard(s: State, t: State, text: string) {
    && t.transcript == s.transcript + [Text(TextSegment(User, text))]
    && t.results == s.results && t.pending == s.pending && t.batches == s.batches && t.plan == s.plan && t.output == s.output
  }

  /** Messages that follow up a turn go behind the prompt, become one text of the user and start the next step. */
  lemma FollowupIsHeard(m: Machine, messages: seq<string>)
    requires Inv(m) && m.pc.AwaitFollowup? && messages != []
    ensures var next := Step(m, Messages(messages));
            && next.pc == Top && Heard(m.state, next.state, Followed("", messages))
            && next.state.request == m.state.request.(prompt := Followed(m.state.request.prompt, messages),
                                                      runStep := m.state.request.runStep + 1)
            && Commands(next.state.request.prompt) == Commands(m.state.request.prompt) + CommandsOf(messages)
  {
    AppendExactly(m.state.request.prompt, messages);
    JoinFollows(messages);
  }

  /** Steering goes behind the prompt too, within the same step. */
  lemma SteeringIsHeard(m: Machine, messages: seq<string>)
    requires Inv(m) && m.pc.AwaitSteering? && messages != []
    ensures var next := Step(m, Messages(messages));
            && next.pc == AwaitPrepare && Heard(m.state, next.state, Followed("", messages))
            && next.state.request == m.state.request.(prompt := Followed(m.state.request.prompt, messages))
            && Commands(next.state.request.prompt) == Commands(m.state.request.prompt) + CommandsOf(messages)
  {
    AppendExactly(m.state.request.prompt, messages);
    JoinFollows(messages);
  }

  /** No messages, no change. */
  lemma SilenceIsNothing(m: Machine)
    requires Inv(m)
    ensures m.pc.AwaitSteering? ==> Step(m, Messages([])) == Machine(m.state, AwaitPrepare)
    ensures m.pc.AwaitFollowup? ==> Step(m, Messages([])) == Machine(m.state, AwaitFinish(m.pc.plan))
  {
  }

  /**
   A continuation replaces the prompt and starts the next step; it is a text of the user unless it repeats
   the prompt. Without one the run completes with the output of its final turn.
   */
  lemma ContinuationIsHeard(m: Machine)
    requires Inv(m) && m.pc.CheckFinished?
    ensures var next, s := Step(m, Signal(false)), m.state;
            if m.pc.continuation.Some? then
              var text := m.pc.continuation.value;
              && next.pc == Top
              && next.state.request == s.request.(prompt := text, runStep := s.request.runStep + 1)
              && (if text == s.request.prompt then next.state == s.(request := next.state.request) else Heard(s, next.state, text))
            else
              next == Machine(s.(output := Some(m.pc.plan.output)), Finished(Completed))
  {
  }

  /** The output of a final turn becomes a text of the assistant. */
  lemma FinalTurnIsSaid(m: Machine)
    requires Inv(m) && m.pc.CheckObserved? && m.pc.plan.FinalTurn?
    ensures Step(m, Signal(false)) ==
            Machine(m.state.(transcript := m.state.transcript + [Text(TextSegment(Assistant, m.pc.plan.output))]), AwaitFollowup(m.pc.plan))
  {
  }

  // ---- Until the producer is asked ----

  predicate BeforeAsking(pc: Pc) {
    pc.Top? || pc.AwaitSteering? || pc.AwaitPrepare? || pc.CheckPrepared?
  }

  predicate Over(pc: Pc) {
    pc.Finished? || pc.Failed?
  }

  /** The producer is about to be asked with a prompt that starts with the given text, unless the run is over before. */
  ghost predicate WillAsk(m: Machine, text: string) {
    Over(m.pc) || ((BeforeAsking(m.pc) || m.pc.AwaitInvoke?) && m.state.pending == [] && text <= m.state.request.prompt)
  }

  lemma DrainAsks(m: Machine, messages: seq<string>, text: string)
    requires Inv(m) && m.pc.AwaitSteering? && WillAsk(m, text)
    ensures WillAsk(Step(m, Messages(messages)), text)
  {
    if messages == [] {
      SilenceIsNothing(m);
    } else {
      SteeringIsHeard(m, messages);
      FollowedStarts(m.state.request.prompt, messages);
    }
  }

  lemma CheckAsks(m: Machine, cancelled: bool, text: string)
    requires Inv(m) && (m.pc.Top? || m.pc.CheckPrepared?) && WillAsk(m, text)
    ensures WillAsk(Step(m, Signal(cancelled)), text)
  {
  }

  lemma PrepareAsks(m: Machine, text: string)
    requires Inv(m) && m.pc.AwaitPrepare? && WillAsk(m, text)
    ensures WillAsk(Step(m, Prepared(Some(PreparedRequest(m.state)))), text)
  {
  }

  lemma ContinueAsks(sys: System, text: string)
    requires Inv(sys.m) && WillAsk(sys.m, text) && BeforeAsking(sys.m.pc)
    ensures WillAsk(ContinueNext(sys).m, text)
  {
    match sys.m.pc
    case Top => CheckAsks(sys.m, sys.h.cancelled, text);
    case CheckPrepared => CheckAsks(sys.m, sys.h.cancelled, text);
    case AwaitSteering => DrainAsks(sys.m, sys.h.steering, text);
    case AwaitPrepare => PrepareAsks(sys.m, text);
  }

  lemma OtherChoicesAsk(c: Chain, choice: Choice, text: string)
    requires Inv(c.sys.m) && ValidStore(c.sys.h.store) && Genuine(choice) && !choice.CrashAndRestart? && !choice.Continue?
    requires WillAsk(c.sys.m, text) && (BeforeAsking(c.sys.m.pc) || Over(c.sys.m.pc))
    ensures WillAsk(NextChain(c, choice).sys.m, text)
  {
    match choice
    case Steer(_) | FollowUp(_) | SetCancelled(_) => FlagsIs(c, choice);
    case ProducerYields(_) | ProducerProposes(_, _) => ProducerIs(c, choice);
    case ToolReturns(_, _) | CodeRaises =>
      ToolIs(c, choice);
      if Allowed(c.sys.m.pc, HostFails) {
        AbandonedIs(c.sys);
      }
  }

  lemma OverStays(sys: System)
    requires Inv(sys.m) && Over(sys.m.pc)
    ensures ContinueNext(sys) == sys
  {
  }

  lemma NextAsks(c: Chain, choice: Choice, text: string)
    requires Inv(c.sys.m) && ValidStore(c.sys.h.store) && Genuine(choice) && !choice.CrashAndRestart?
    requires WillAsk(c.sys.m, text) && !c.sys.m.pc.AwaitInvoke?
    ensures WillAsk(NextChain(c, choice).sys.m, text)
  {
    if choice.Continue? {
      ContinueIs(c);
      if Over(c.sys.m.pc) {
        OverStays(c.sys);
      } else {
        ContinueAsks(c.sys, text);
      }
    } else {
      OtherChoicesAsk(c, choice, text);
    }
  }

  lemma LinkAsks(trace: seq<Chain>, choices: seq<Choice>, k: nat, text: string)
    requires Links(trace, choices) && k < |choices| && SustainedAt(trace, k) && !choices[k].CrashAndRestart?
    requires WillAsk(trace[k].sys.m, text) && !trace[k].sys.m.pc.AwaitInvoke?
    ensures WillAsk(trace[k + 1].sys.m, text)
  {
    assert Sustained(trace, k);
    assert Link(trace, choices, k);
    NextAsks(trace[k], choices[k], text);
  }

  lemma {:induction false} LinksAsk(trace: seq<Chain>, choices: seq<Choice>, i: nat, j: nat, text: string)
    requires Links(trace, choices) && SustainedAt(trace, 0) && i <= j < |trace| && WillAsk(trace[i].sys.m, text)
    requires forall k | i <= k < j :: !choices[k].CrashAndRestart? && !trace[k].sys.m.pc.AwaitInvoke?
    ensures WillAsk(trace[j].sys.m, text)
    decreases j
  {
    if i < j {
      LinksAsk(trace, choices, i, j - 1, text);
      LinksKeep(trace, choices, j - 1);
      LinkAsks(trace, choices, j - 1, text);
    }
  }

  // ---- Messages over a run ----

  /** A message waits behind those of its kind that came before it. */
  lemma MessagesQueue(c: Chain, message: string)
    requires Inv(c.sys.m) && ValidStore(c.sys.h.store)
    ensures NextChain(c, Steer(message)).sys == c.sys.(h := c.sys.h.(steering := c.sys.h.steering + [message]))
    ensures NextChain(c, FollowUp(message)).sys == c.sys.(h := c.sys.h.(followup := c.sys.h.followup + [message]))
  {
  }

  /** The messages the engine takes from its host when the run goes on. */
  function Drained(sys: System): seq<string> {
    if sys.m.pc.AwaitSteering? then sys.h.steering else if sys.m.pc.AwaitFollowup? then sys.h.followup else []
  }

  lemma DrainIs(sys: System)
    requires Inv(sys.m) && (sys.m.pc.AwaitSteering? || sys.m.pc.AwaitFollowup?)
    ensures ContinueNext(sys).m == Step(sys.m, Messages(Drained(sys)))
    ensures ContinueNext(sys).h == if sys.m.pc.AwaitSteering? then sys.h.(steering := []) else sys.h.(followup := [])
  {
  }

  lemma DrainedIsHeard(sys: System)
    requires Inv(sys.m) && Drained(sys) != []
    ensures WillAsk(ContinueNext(sys).m, Followed(sys.m.state.request.prompt, Drained(sys)))
  {
    DrainIs(sys);
    if sys.m.pc.AwaitSteering? {
      SteeringIsHeard(sys.m, Drained(sys));
    } else {
      FollowupIsHeard(sys.m, Drained(sys));
    }
  }

  lemma LinkDrains(trace: seq<Chain>, choices: seq<Choice>, i: nat)
    requires Links(trace, choices) && SustainedAt(trace, i) && i < |choices| && choices[i].Continue? && Drained(trace[i].sys) != []
    ensures WillAsk(trace[i + 1].sys.m, Followed(trace[i].sys.m.state.request.prompt, Drained(trace[i].sys)))
  {
    assert Sustained(trace, i);
    assert Link(trace, choices, i);
    ContinueIs(trace[i]);
    DrainedIsHeard(trace[i].sys);
  }

  /**
   Whatever users, host and environment do: the messages that the engine takes from its host, steering and
   follow-ups alike, are in the prompt with which the producer is asked next, in order, behind the prompt
   they came to, and their commands behind its commands.
   */
  lemma DrainedIsAsked(trace: seq<Chain>, choices: seq<Choice>, i: nat, j: nat)
    requires ChainRun(trace, choices) && i < j < |trace| && trace[j].sys.m.pc.AwaitInvoke?
    requires choices[i].Continue? && Drained(trace[i].sys) != []
    requires forall k | i < k < j :: !choices[k].CrashAndRestart? && !trace[k].sys.m.pc.AwaitInvoke?
    ensures var asked, messages := trace[i].sys.m.state.request.prompt, Drained(trace[i].sys);
            && Followed(asked, messages) <= trace[j].sys.m.state.request.prompt
            && Commands(Followed(asked, messages)) == Commands(asked) + CommandsOf(messages)
  {
    var asked, messages := trace[i].sys.m.state.request.prompt, Drained(trace[i].sys);
    AppendExactly(asked, messages);
    StartsInv(trace[0]);
    LinksKeep(trace, choices, i);
    LinkDrains(trace, choices, i);
    LinksAsk(trace, choices, i + 1, j, Followed(asked, messages));
  }

  // ---- What the producer is given ----

  /** What the host prepares: the prompt as it stands, all results, and the transcript seen through them. */
  ghost predicate InContext(s: State) {
    && RefersTo(s.transcript, |s.batches|)
    && s.request.context == Context(s.request.prompt, ProjectAll(s.results), SegmentsOf(s, Some(ProjectAll(s.results))))
  }

  /** What the host prepares changes nothing but the context, and shows the results and the transcript as they are. */
  lemma PreparedIs(m: Machine)
    requires Inv(m)
    ensures PreparedRequest(m.state) == m.state.request.(context := PreparedRequest(m.state).context)
    ensures InContext(m.state.(request := PreparedRequest(m.state)))
  {
  }

  /** With distinct identities the prepared transcript is the unfiltered one: nothing is left out of what the producer sees. */
  lemma PreparedLosesNothing(s: State, given: seq<ReportedCall>)
    requires RefersTo(s.transcript, |s.batches|) && Collects(s, given) && AllDifferent(ReportIds(s.results))
    ensures PreparedRequest(s).context.segments == SegmentsOf(s, None)
  {
    DistinctFilterLosesNothing(s, given);
  }

  ghost predicate SeesAll(m: Machine) {
    (m.pc.CheckPrepared? && m.state.pending == []) || m.pc.AwaitInvoke? ==> InContext(m.state)
  }

  lemma ContinuePrepares(sys: System)
    requires Inv(sys.m) && SeesAll(sys.m)
    ensures SeesAll(ContinueNext(sys).m)
  {
    match sys.m.pc
    case AwaitPrepare => PreparedIs(sys.m);
    case CheckPrepared =>
    case AwaitObserve(plan) => ObserveIs(sys, plan);
    case AwaitExecute(call) => ExecuteIs(sys, call);
    case AwaitSteering => DrainIs(sys);
    case AwaitFollowup(_) => DrainIs(sys);
    case _ =>
  }

  lemma OtherChoicesPrepare(c: Chain, choice: Choice)
    requires Inv(c.sys.m) && ValidStore(c.sys.h.store) && Genuine(choice) && !choice.CrashAndRestart? && !choice.Continue?
    requires SeesAll(c.sys.m)
    ensures SeesAll(NextChain(c, choice).sys.m)
  {
    match choice
    case Steer(_) | FollowUp(_) | SetCancelled(_) => FlagsIs(c, choice);
    case ProducerYields(fact) =>
      ProducerIs(c, choice);
      RecordingIs(c.sys, fact, Quiet);
    case ProducerProposes(plan, hexes) =>
      ProducerIs(c, choice);
      if plan.ToolTurn? && c.sys.m.pc.AwaitInvoke? {
        BeginningIs(c.sys.m, plan, hexes);
      }
    case ToolReturns(_, _) => ToolReturnPrepares(c, choice);
    case CodeRaises =>
      ToolIs(c, choice);
      if Allowed(c.sys.m.pc, HostFails) {
        AbandonedIs(c.sys);
      }
  }

  lemma ToolReturnPrepares(c: Chain, choice: Choice)
    requires Inv(c.sys.m) && ValidStore(c.sys.h.store) && choice.ToolReturns? && SeesAll(c.sys.m)
    ensures SeesAll(NextChain(c, choice).sys.m)
  {
    ToolIs(c, choice);
    if c.sys.m.pc.AwaitExecute? {
      AbandonedIs(c.sys);
    }
  }

  lemma NextPrepares(c: Chain, choice: Choice)
    requires ChainInv(c) && Genuine(choice) && SeesAll(c.sys.m)
    ensures SeesAll(NextChain(c, choice).sys.m)
  {
    match choice
    case Continue =>
      ContinueIs(c);
      ContinuePrepares(c.sys);
    case CrashAndRestart(request, given, repair) => RestartPrepares(c, choice);
    case _ => OtherChoicesPrepare(c, choice);
  }

  lemma RestartPrepares(c: Chain, choice: Choice)
    requires ChainInv(c) && choice.CrashAndRestart? && SeesAll(c.sys.m)
    ensures SeesAll(NextChain(c, choice).sys.m)
  {
    CrashIs(c, choice);
    if Restarted(Survivor(c.sys.h.store, choice.repair), choice.request, choice.given).Some? {
      StartsAtTop(Survivor(c.sys.h.store, choice.repair), choice.request, choice.given);
    }
  }

  lemma StartsAtTop(store: Store, request: TurnRequest, given: seq<ReportedCall>)
    requires ValidStore(store) && Restarted(store, request, given).Some?
    ensures Restarted(store, request, given).value.m.pc == Top
  {
  }

  lemma {:induction false} LinksPrepare(trace: seq<Chain>, choices: seq<Choice>, j: nat)
    requires Links(trace, choices) && SustainedAt(trace, 0) && SeesAll(trace[0].sys.m) && j < |trace|
    ensures SeesAll(trace[j].sys.m)
  {
    if j > 0 {
      LinksPrepare(trace, choices, j - 1);
      LinksKeep(trace, choices, j - 1);
      LinkPrepares(trace, choices, j - 1);
    }
  }

  lemma LinkPrepares(trace: seq<Chain>, choices: seq<Choice>, j: nat)
    requires Links(trace, choices) && j < |choices| && SustainedAt(trace, j) && SeesAll(trace[j].sys.m)
    ensures SeesAll(trace[j + 1].sys.m)
  {
    assert Sustained(trace, j);
    assert Link(trace, choices, j);
    NextPrepares(trace[j], choices[j]);
  }

  /** Whenever the producer is asked, in any chain of runs, it is given the prompt, all results and the transcript as they stand. */
  lemma AskedInContext(trace: seq<Chain>, choices: seq<Choice>, j: nat)
    requires ChainRun(trace, choices) && j < |trace| && trace[j].sys.m.pc.AwaitInvoke?
    ensures InContext(trace[j].sys.m.state)
  {
    StartsInv(trace[0]);
    StartsAtTheTop(trace[0]);
    LinksPrepare(trace, choices, j);
  }

  lemma StartsAtTheTop(c: Chain)
    requires Starts(c)
    ensures c.sys.m.pc == Top
  {
  }
}
