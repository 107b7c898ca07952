/** What a cancel does to a prompt, over every interleaving of the server's threads. */
module AcpCancel {
  import opened Basics
  import opened Turns
  import opened AcpServer
  import opened AcpDiscipline
  import opened AcpResponses

  // ---- What a thread does at a step ----

  ghost predicate TakesStep(e: Event, t: nat) {
    e.Worker? && e.thread == t
  }

  /** Does a cancel of the session reach the server at this step? */
  ghost predicate CancelAt(s: Server, e: Event, session: string) {
    e.Main? && s.main == MarkCancel(session)
  }

  /** How many steps of its own a thread has left at most once its stream has ended. */
  function StepsLeft(pc: ThreadPc): Option<nat> {
    match pc
    case CheckBound => Some(6)
    case CheckLast => Some(5)
    case Answering | Raised => Some(4)
    case Deactivate => Some(3)
    case ForgetRun => Some(2)
    case ReleaseFlag => Some(1)
    case Dead => Some(0)
    case _ => None
  }

  /** Once the stream has ended the steps run out, and only the last look leads to the answer. */
  predicate Later(pc: ThreadPc, next: ThreadPc) {
    && (next.Answering? ==> pc.CheckLast?)
    && (StepsLeft(pc).Some? ==> StepsLeft(next).Some? && StepsLeft(next).value < StepsLeft(pc).value)
  }

  /** At its last look, a thread with a session of the runtime knows of every cancel since it started. */
  lemma LooksAtLast(s: Server, t: nat, input: ThreadInput)
    requires CancelSeen(s) && ThreadReady(s, t, input) && s.threads[t].pc.CheckLast?
    ensures ThreadStep(s, t, input) == WithThread(s, t, s.threads[t].(pc := Answering, cancelled := s.threads[t].asked))
  {
  }

  lemma OwnOrder(s: Server, t: nat, input: ThreadInput)
    requires ThreadReady(s, t, input)
    ensures Later(s.threads[t].pc, ThreadStep(s, t, input).threads[t].pc)
  {
    var pc := s.threads[t].pc;
    if pc.Deactivate? || pc.ForgetRun? || pc.ReleaseFlag? {
      EndsInOrder(s, t, input);
    } else if pc.Answering? || pc.Raised? {
      AnswersInOrder(s, t, input);
    } else if pc.CheckBound? || pc.CheckLast? {
      LooksInOrder(s, t, input);
    } else if pc.BindRuntime? || pc.BindRun? {
      BindsInOrder(s, t, input);
    } else {
      StreamsInOrder(s, t, input);
    }
  }

  lemma StreamsInOrder(s: Server, t: nat, input: ThreadInput)
    requires ThreadReady(s, t, input)
    requires var pc := s.threads[t].pc; pc.Starting? || pc.CheckBefore? || pc.NextChunk? || pc.CheckAfter?
    ensures Later(s.threads[t].pc, ThreadStep(s, t, input).threads[t].pc)
  {
  }

  lemma BindsInOrder(s: Server, t: nat, input: ThreadInput)
    requires ThreadReady(s, t, input) && (s.threads[t].pc.BindRuntime? || s.threads[t].pc.BindRun?)
    ensures Later(s.threads[t].pc, ThreadStep(s, t, input).threads[t].pc)
  {
  }

  lemma LooksInOrder(s: Server, t: nat, input: ThreadInput)
    requires ThreadReady(s, t, input) && (s.threads[t].pc.CheckBound? || s.threads[t].pc.CheckLast?)
    ensures Later(s.threads[t].pc, ThreadStep(s, t, input).threads[t].pc)
  {
  }

  lemma AnswersInOrder(s: Server, t: nat, input: ThreadInput)
    requires ThreadReady(s, t, input) && (s.threads[t].pc.Answering? || s.threads[t].pc.Raised?)
    ensures Later(s.threads[t].pc, ThreadStep(s, t, input).threads[t].pc)
  {
  }

  lemma EndsInOrder(s: Server, t: nat, input: ThreadInput)
    requires ThreadReady(s, t, input) && (s.threads[t].pc.Deactivate? || s.threads[t].pc.ForgetRun? || s.threads[t].pc.ReleaseFlag?)
    ensures Later(s.threads[t].pc, ThreadStep(s, t, input).threads[t].pc)
  {
  }

  /** Other threads change nothing of a thread but the history of cancels, and that by a cancel of its session only. */
  lemma OthersLeave(s: Server, e: Event, t: nat)
    requires Exclusive(s) && Ready(s, e) && t < |s.threads| && !TakesStep(e, t)
    ensures var next := Next(s, e);
            && t < |next.threads|
            && next.threads[t] == if CancelAt(s, e, s.threads[t].session) then s.threads[t].(asked := true) else s.threads[t]
  {
    if e.Worker? {
      ThreadShape(s, e.thread, e.step);
    } else if Quiet(s.main) {
      QuietShape(s, e.input);
    }
  }

  lemma ThreadsGrow(s: Server, e: Event)
    requires Exclusive(s) && Ready(s, e)
    ensures |s.threads| <= |Next(s, e).threads|
    ensures |s.threads| < |Next(s, e).threads| ==>
              e.Main? && !s.main.MarkCancel? && |Next(s, e).threads| == |s.threads| + 1
              && !Last(Next(s, e).threads).asked && Last(Next(s, e).threads).pc.Starting?
  {
    if e.Worker? {
      ThreadShape(s, e.thread, e.step);
    } else if Quiet(s.main) {
      QuietShape(s, e.input);
    }
  }

  // ---- The same along a run ----

  ghost predicate OwnMove(th: Thread, next: Thread) {
    && next.line == th.line && next.session == th.session && next.asked == th.asked && Later(th.pc, next.pc)
    && (next.pc.Answering? ==> th.pc.CheckLast? && next == th.(pc := Answering, cancelled := th.asked))
  }

  lemma OwnMoves(trace: seq<Server>, events: seq<Event>, i: nat, t: nat)
    requires Run(trace, events) && i < |events| && TakesStep(events[i], t)
    ensures t < |trace[i].threads| && |trace[i + 1].threads| == |trace[i].threads|
    ensures OwnMove(trace[i].threads[t], trace[i + 1].threads[t])
  {
    Reached(trace, events, i);
    assert Follows(trace, events, i);
    var s, input := trace[i], events[i].step;
    OwnMoveOf(s, t, input);
  }

  lemma OwnMoveOf(s: Server, t: nat, input: ThreadInput)
    requires Exclusive(s) && ThreadReady(s, t, input)
    ensures var next := ThreadStep(s, t, input);
            && |next.threads| == |s.threads|
            && OwnMove(s.threads[t], next.threads[t])
  {
    ThreadShape(s, t, input);
    OwnOrder(s, t, input);
    if ThreadStep(s, t, input).threads[t].pc.Answering? {
      LooksAtLast(s, t, input);
    }
  }

  lemma OthersMove(trace: seq<Server>, events: seq<Event>, i: nat, t: nat)
    requires Run(trace, events) && i < |events| && t < |trace[i].threads| && !TakesStep(events[i], t)
    ensures t < |trace[i + 1].threads|
    ensures var th := trace[i].threads[t];
            trace[i + 1].threads[t] == if CancelAt(trace[i], events[i], th.session) then th.(asked := true) else th
  {
    Reached(trace, events, i);
    assert Follows(trace, events, i);
    OthersLeave(trace[i], events[i], t);
  }

  lemma Starts(trace: seq<Server>, events: seq<Event>, i: nat)
    requires Run(trace, events) && i < |events|
    ensures |trace[i].threads| <= |trace[i + 1].threads| <= |trace[i].threads| + 1
    ensures |trace[i].threads| < |trace[i + 1].threads| ==>
              var th := Last(trace[i + 1].threads); events[i].Main? && !trace[i].main.MarkCancel? && !th.asked && th.pc.Starting?
  {
    Reached(trace, events, i);
    assert Follows(trace, events, i);
    ThreadsGrow(trace[i], events[i]);
  }

  // ---- The history of cancels ----

  /** Has a cancel of the session reached the server before the point i, with thread t already there? */
  ghost predicate CancelledBefore(trace: seq<Server>, events: seq<Event>, i: nat, t: nat, session: string)
    requires i <= |events| && |trace| == |events| + 1
  {
    exists m: nat :: m < i && t < |trace[m].threads| && CancelAt(trace[m], events[m], session)
  }

  lemma LatestCancel(trace: seq<Server>, events: seq<Event>, i: nat, t: nat, session: string)
    requires 0 < i <= |events| && |trace| == |events| + 1
    ensures CancelledBefore(trace, events, i, t, session) <==>
            CancelledBefore(trace, events, i - 1, t, session)
            || (t < |trace[i - 1].threads| && CancelAt(trace[i - 1], events[i - 1], session))
  {
  }

  lemma {:induction false} NoThreadYet(trace: seq<Server>, events: seq<Event>, i: nat, t: nat, session: string)
    requires Run(trace, events) && i < |trace| && |trace[i].threads| <= t
    ensures !CancelledBefore(trace, events, i, t, session)
  {
    if i > 0 {
      Starts(trace, events, i - 1);
      NoThreadYet(trace, events, i - 1, t, session);
    }
  }

  /** A thread's mark is exactly the history of cancels of its session since it was started. */
  lemma {:induction false} AskedIsHistory(trace: seq<Server>, events: seq<Event>, i: nat, t: nat)
    requires Run(trace, events) && i < |trace| && t < |trace[i].threads|
    ensures trace[i].threads[t].asked <==> CancelledBefore(trace, events, i, t, trace[i].threads[t].session)
  {
    var x := trace[i].threads[t].session;
    Starts(trace, events, i - 1);
    LatestCancel(trace, events, i, t, x);
    if t >= |trace[i - 1].threads| {
      NoThreadYet(trace, events, i - 1, t, x);
    } else {
      if TakesStep(events[i - 1], t) {
        OwnMoves(trace, events, i - 1, t);
      } else {
        OthersMove(trace, events, i - 1, t);
      }
      AskedIsHistory(trace, events, i - 1, t);
    }
  }

  // ---- What a prompt is answered ----

  /** The step at which a thread about to answer has looked for the last time. */
  lemma {:induction false} LastLook(trace: seq<Server>, events: seq<Event>, j: nat, t: nat) returns (i: nat)
    requires Run(trace, events) && j < |trace| && t < |trace[j].threads| && trace[j].threads[t].pc.Answering?
    ensures i < j && t < |trace[i].threads| && TakesStep(events[i], t) && trace[i].threads[t].pc.CheckLast?
    ensures var look := trace[i].threads[t];
            trace[j].threads[t] == look.(pc := Answering, cancelled := look.asked, asked := trace[j].threads[t].asked)
  {
    Starts(trace, events, j - 1);
    if TakesStep(events[j - 1], t) {
      OwnMoves(trace, events, j - 1, t);
      i := j - 1;
    } else {
      OthersMove(trace, events, j - 1, t);
      i := LastLook(trace, events, j - 1, t);
    }
  }

  lemma AnswerOf(trace: seq<Server>, events: seq<Event>, j: nat, t: nat)
    requires Run(trace, events) && j < |events| && TakesStep(events[j], t)
    ensures t < |trace[j].threads| && trace[j].threads[t].line < |trace[j].lines|
    ensures var th := trace[j].threads[t];
            AboutToAnswer(th.pc) && IdOf(trace[j].lines[th.line]).Some? ==>
              trace[j + 1].sent == trace[j].sent + [Answer(th.line, IdOf(trace[j].lines[th.line]), BodyOf(th))]
  {
    assert Follows(trace, events, j);
    if AboutToAnswer(trace[j].threads[t].pc) {
      ThreadAnswers(trace[j], t, events[j].step);
    }
  }

  /**
   Whatever the other threads do in between: a prompt that ends is answered as cancelled exactly if a
   cancel of its session had reached the server after its thread was started and before the thread's last
   look, unless it failed; a later cancel goes unseen.
   */
  lemma CancelIsHonoured(trace: seq<Server>, events: seq<Event>, j: nat, t: nat) returns (i: nat)
    requires Run(trace, events) && j < |events| && TakesStep(events[j], t) && t < |trace[j].threads|
    requires trace[j].threads[t].pc.Answering? && trace[j].threads[t].line < |trace[j].lines|
    requires IdOf(trace[j].lines[trace[j].threads[t].line]).Some?
    ensures i < j && TakesStep(events[i], t) && t < |trace[i].threads| && trace[i].threads[t].pc.CheckLast?
    ensures var th := trace[j].threads[t];
            trace[j + 1].sent == trace[j].sent + [Answer(th.line, IdOf(trace[j].lines[th.line]),
              if th.failedEvent || th.failedStatus then Failure(InternalError)
              else PromptEnded(CancelledBefore(trace, events, i, t, th.session)))]
  {
    AnswerOf(trace, events, j, t);
    i := LastLook(trace, events, j, t);
    AskedIsHistory(trace, events, i, t);
  }

  // ---- Prompts that fail for want of a session ----

  /** Has the runtime named its session? */
  predicate Named(s: Server, session: string) {
    session in s.sessions && s.sessions[session].runtimeId.Some?
  }

  /** Does a prompt of the session take over, at this step, the name that comes with a chunk? */
  ghost predicate NamesAt(s: Server, e: Event, session: string) {
    e.Worker? && e.thread < |s.threads| && s.threads[e.thread].pc.BindRuntime? && s.threads[e.thread].session == session
  }

  ghost predicate NamedBefore(trace: seq<Server>, events: seq<Event>, i: nat, session: string)
    requires i <= |events| && |trace| == |events| + 1
  {
    exists m: nat :: m < i && NamesAt(trace[m], events[m], session)
  }

  lemma LatestName(trace: seq<Server>, events: seq<Event>, i: nat, session: string)
    requires 0 < i <= |events| && |trace| == |events| + 1
    ensures NamedBefore(trace, events, i, session) <==>
            NamedBefore(trace, events, i - 1, session) || NamesAt(trace[i - 1], events[i - 1], session)
  {
  }

  lemma MainNamesNone(s: Server, input: Input, session: string)
    requires MainReady(s, input)
    ensures Named(MainStep(s, input), session) <==> Named(s, session)
  {
  }

  lemma BindingNames(s: Server, t: nat, session: string)
    requires ThreadReady(s, t, Tick) && s.threads[t].pc.BindRuntime?
    ensures Named(ThreadStep(s, t, Tick), session) <==> Named(s, session) || s.threads[t].session == session
  {
  }

  lemma OthersNameNone(s: Server, t: nat, input: ThreadInput, session: string)
    requires ThreadReady(s, t, input) && !s.threads[t].pc.BindRuntime?
    ensures Named(ThreadStep(s, t, input), session) <==> Named(s, session)
  {
  }

  lemma StepNames(s: Server, e: Event, session: string)
    requires Ready(s, e)
    ensures Named(Next(s, e), session) <==> Named(s, session) || NamesAt(s, e, session)
  {
    match e
    case Main(input) => MainNamesNone(s, input, session);
    case Worker(t, input) =>
      if s.threads[t].pc.BindRuntime? {
        BindingNames(s, t, session);
      } else {
        OthersNameNone(s, t, input, session);
      }
  }

  lemma NamesNext(trace: seq<Server>, events: seq<Event>, i: nat, session: string)
    requires Run(trace, events) && i < |events|
    ensures Named(trace[i + 1], session) <==> Named(trace[i], session) || NamesAt(trace[i], events[i], session)
  {
    assert Follows(trace, events, i);
    StepNames(trace[i], events[i], session);
  }

  /** A session is named exactly if some prompt of it has got as far as taking over a chunk. */
  lemma {:induction false} NamedExactly(trace: seq<Server>, events: seq<Event>, i: nat, session: string)
    requires Run(trace, events) && i < |trace|
    ensures Named(trace[i], session) <==> NamedBefore(trace, events, i, session)
  {
    if i > 0 {
      NamedExactly(trace, events, i - 1, session);
      NamesNext(trace, events, i - 1, session);
      LatestName(trace, events, i, session);
    }
  }

  /** Is the thread at the end of its stream, with no name of its session ever taken over? */
  ghost predicate EndsUnnamed(trace: seq<Server>, events: seq<Event>, i: nat, t: nat)
    requires i <= |events| && |trace| == |events| + 1
  {
    t < |trace[i].threads| && trace[i].threads[t].pc.CheckBound? && !NamedBefore(trace, events, i, trace[i].threads[t].session)
  }

  lemma FindsNone(s: Server, t: nat, input: ThreadInput)
    requires ThreadReady(s, t, input)
    ensures var th := s.threads[t];
            ThreadStep(s, t, input).threads[t].pc.Raised? <==> input.Raises? || (th.pc.CheckBound? && !Named(s, th.session))
  {
  }

  /**
   A prompt goes wrong at a step of its own exactly if the runtime raises there, or if its stream has ended,
   by a cancel or by itself, and no prompt of the session has ever taken over a chunk.
   */
  lemma RaisesExactly(trace: seq<Server>, events: seq<Event>, i: nat, t: nat)
    requires Run(trace, events) && i < |events| && TakesStep(events[i], t)
    ensures t < |trace[i].threads| && t < |trace[i + 1].threads|
    ensures trace[i + 1].threads[t].pc.Raised? <==> events[i].step.Raises? || EndsUnnamed(trace, events, i, t)
  {
    OwnMoves(trace, events, i, t);
    NamedExactly(trace, events, i, trace[i].threads[t].session);
    assert Follows(trace, events, i);
    FindsNone(trace[i], t, events[i].step);
  }

  /** A prompt that went wrong did so at a step of that kind, and is answered with an internal error whenever it goes on. */
  lemma RaisedFrom(trace: seq<Server>, events: seq<Event>, j: nat, t: nat) returns (i: nat)
    requires Run(trace, events) && j < |trace| && t < |trace[j].threads| && trace[j].threads[t].pc.Raised?
    ensures i < j && TakesStep(events[i], t) && (events[i].step.Raises? || EndsUnnamed(trace, events, i, t))
    ensures trace[j].threads[t].line < |trace[j].lines|
    ensures var id := IdOf(trace[j].lines[trace[j].threads[t].line]);
            j < |events| && TakesStep(events[j], t) && id.Some? ==>
              trace[j + 1].sent == trace[j].sent + [Answer(trace[j].threads[t].line, id, Failure(InternalError))]
  {
    i := RaisedAt(trace, events, j, t);
    LineIsKnown(trace, events, j, t);
    if j < |events| && TakesStep(events[j], t) {
      AnswerOf(trace, events, j, t);
    }
  }

  lemma LineIsKnown(trace: seq<Server>, events: seq<Event>, j: nat, t: nat)
    requires Run(trace, events) && j < |trace| && t < |trace[j].threads|
    ensures trace[j].threads[t].line < |trace[j].lines|
  {
    Reached(trace, events, j);
  }

  lemma {:induction false} RaisedAt(trace: seq<Server>, events: seq<Event>, j: nat, t: nat) returns (i: nat)
    requires Run(trace, events) && j < |trace| && t < |trace[j].threads| && trace[j].threads[t].pc.Raised?
    ensures i < j && TakesStep(events[i], t) && (events[i].step.Raises? || EndsUnnamed(trace, events, i, t))
  {
    Starts(trace, events, j - 1);
    if TakesStep(events[j - 1], t) {
      RaisesExactly(trace, events, j - 1, t);
      i := j - 1;
    } else {
      OthersMove(trace, events, j - 1, t);
      i := RaisedAt(trace, events, j - 1, t);
    }
  }

  // ---- A prompt whose stream has ended answers in time ----

  function OwnSteps(events: seq<Event>, i: nat, j: nat, t: nat): nat
    requires i <= j <= |events|
  {
    if i == j then 0 else OwnSteps(events, i, j - 1, t) + (if events[j - 1].Worker? && events[j - 1].thread == t then 1 else 0)
  }

  lemma {:induction false} StepsRunOut(trace: seq<Server>, events: seq<Event>, i: nat, j: nat, t: nat)
    requires Run(trace, events) && i <= j < |trace| && t < |trace[i].threads| && StepsLeft(trace[i].threads[t].pc).Some?
    ensures t < |trace[j].threads| && StepsLeft(trace[j].threads[t].pc).Some?
    ensures StepsLeft(trace[j].threads[t].pc).value + OwnSteps(events, i, j, t) <= StepsLeft(trace[i].threads[t].pc).value
    ensures trace[j].threads[t].line == trace[i].threads[t].line
    decreases j
  {
    if i < j {
      StepsRunOut(trace, events, i, j - 1, t);
      if TakesStep(events[j - 1], t) {
        OwnMoves(trace, events, j - 1, t);
      } else {
        OthersMove(trace, events, j - 1, t);
      }
    }
  }

  /**
   A prompt whose stream has ended is never held up by anything: until it is dead its next step is
   possible, after three steps of its own its request has got what it is owed, after six it is dead.
   */
  lemma AnswersInTime(trace: seq<Server>, events: seq<Event>, i: nat, j: nat, t: nat)
    requires Run(trace, events) && i <= j < |trace| && t < |trace[i].threads| && StepsLeft(trace[i].threads[t].pc).Some?
    ensures t < |trace[j].threads| && (!trace[j].threads[t].pc.Dead? ==> ThreadReady(trace[j], t, Tick))
    ensures var line := trace[i].threads[t].line;
            line < |trace[j].lines| && (OwnSteps(events, i, j, t) >= 3 ==> Count(trace[j].sent, line) == Due(trace[j].lines[line]))
    ensures OwnSteps(events, i, j, t) >= 6 ==> trace[j].threads[t].pc.Dead?
  {
    StepsRunOut(trace, events, i, j, t);
    InTime(trace, events, j, t);
  }

  lemma InTime(trace: seq<Server>, events: seq<Event>, j: nat, t: nat)
    requires Run(trace, events) && j < |trace| && t < |trace[j].threads| && StepsLeft(trace[j].threads[t].pc).Some?
    ensures !trace[j].threads[t].pc.Dead? ==> ThreadReady(trace[j], t, Tick)
    ensures trace[j].threads[t].line < |trace[j].lines|
    ensures StepsLeft(trace[j].threads[t].pc).value <= 3 ==>
              Count(trace[j].sent, trace[j].threads[t].line) == Due(trace[j].lines[trace[j].threads[t].line])
  {
    Reached(trace, events, j);
    NotPending(trace[j], t);
  }

  lemma NotPending(s: Server, t: nat)
    requires Accounted(s) && t < |s.threads|
    ensures s.threads[t].line < |s.lines|
    ensures !ThreadPending(s.threads[t].pc) ==> Count(s.sent, s.threads[t].line) == Due(s.lines[s.threads[t].line])
  {
    var n := s.threads[t].line;
    assert forall i | 0 <= i < |s.threads| && s.threads[i].line == n :: i == t;
    assert !ThreadPending(s.threads[t].pc) ==> !InFlight(s, n);
  }

  // ---- Two runs in which a cancel is not honoured ----

  /** A state some run from the start ends in. */
  ghost predicate Reachable(s: Server) {
    exists trace, events :: Run(trace, events) && trace[|trace| - 1] == s
  }

  lemma StartIsReachable()
    ensures Reachable(INITIAL)
  {
    assert Run([INITIAL], []);
  }

  lemma Goes(s: Server, e: Event) returns (r: Server)
    requires Reachable(s) && Ready(s, e)
    ensures Reachable(r) && r == Next(s, e)
  {
    r := Next(s, e);
    var trace, events :| Run(trace, events) && trace[|trace| - 1] == s;
    RunGoes(trace, events, e);
  }

  lemma RunGoes(trace: seq<Server>, events: seq<Event>, e: Event)
    requires Run(trace, events) && Ready(trace[|trace| - 1], e)
    ensures Run(trace + [Next(trace[|trace| - 1], e)], events + [e])
  {
    var trace', events' := trace + [Next(trace[|trace| - 1], e)], events + [e];
    forall i: nat | i < |events'| ensures Follows(trace', events', i) {
      if i < |events| {
        assert Follows(trace, events, i);
      }
    }
  }

  const OPEN := Loaded(JObject(map["jsonrpc" := JString("2.0"), "id" := JNumber(1), "method" := JString("session/new")]))
  const ASK := Loaded(JObject(map["jsonrpc" := JString("2.0"), "id" := JNumber(2), "method" := JString("session/prompt"),
                                  "params" := JObject(map["sessionId" := JString("x"), "prompt" := JString("p")])]))
  const STOP := Loaded(JObject(map["jsonrpc" := JString("2.0"), "id" := JNumber(3), "method" := JString("session/cancel"),
                                   "params" := JObject(map["sessionId" := JString("x")])]))

  lemma OpenDispatches(sessions: map<string, Binding>)
    ensures Dispatch(sessions, OPEN) == Opening(true)
  {
    assert Parse(OPEN.request) == Accepted(Some(Number(1)), NewSession(true));
  }

  lemma AskDispatches(sessions: map<string, Binding>)
    requires "x" in sessions
    ensures Dispatch(sessions, ASK) == CheckActive("x") && IdOf(ASK) == Some(Number(2))
  {
    assert Parse(ASK.request) == Accepted(Some(Number(2)), Prompt(Some("x"), true));
  }

  lemma StopDispatches(sessions: map<string, Binding>)
    requires "x" in sessions
    ensures Dispatch(sessions, STOP) == MarkCancel("x") && IdOf(STOP) == Some(Number(3))
  {
    assert Parse(STOP.request) == Accepted(Some(Number(3)), Cancel(Some("x")));
  }

  /** A server with one session and one prompt thread at most. */
  ghost predicate Stands(s: Server, lines: seq<Line>, b: Binding, threads: seq<Thread>, main: MainPc) {
    && Reachable(s) && s.lines == lines && s.sessions == map["x" := b] && s.threads == threads && s.main == main
    && (threads == [] ==> s.promptThreads == [])
  }

  const UNBOUND := Binding(None, None, false, false)
  const TWO := [OPEN, ASK]
  const FRESH := Thread(1, "x", Starting, false, false, false, false)

  lemma SessionAsked() returns (s: Server)
    ensures Reachable(s) && s == Server([OPEN], map[], false, [], [], Opening(true), [])
  {
    StartIsReachable();
    OpenDispatches(map[]);
    s := Goes(INITIAL, Main(Read(OPEN)));
    assert [] + [OPEN] == [OPEN];
  }

  lemma SessionOpens() returns (s: Server)
    ensures Stands(s, [OPEN], UNBOUND, [], Reading) && !s.promptActive
  {
    s := SessionAsked();
    s := Goes(s, Main(NewId("x")));
    s := Goes(s, Main(Go));
    s := Goes(s, Main(Go));
  }

  lemma PromptAsked() returns (s: Server)
    ensures Stands(s, TWO, UNBOUND, [], TakeFlag("x")) && !s.promptActive
  {
    s := SessionOpens();
    AskDispatches(s.sessions);
    s := Goes(s, Main(Read(ASK)));
    assert [OPEN] + [ASK] == TWO;
    s := Goes(s, Main(Go));
  }

  lemma PromptActivated() returns (s: Server)
    ensures Stands(s, TWO, UNBOUND.(active := true), [], ClearRun("x"))
  {
    s := PromptAsked();
    s := Goes(s, Main(Go));
    s := Goes(s, Main(Go));
  }

  lemma PromptPrepared() returns (s: Server)
    ensures Stands(s, TWO, UNBOUND.(active := true), [], Spawn("x"))
  {
    s := PromptActivated();
    s := Goes(s, Main(Go));
    s := Goes(s, Main(Go));
  }

  lemma PromptSpawned() returns (s: Server)
    ensures Stands(s, TWO, UNBOUND.(active := true), [FRESH], ScanThreads) && s.promptThreads == [0]
  {
    s := PromptPrepared();
    s := Goes(s, Main(Go));
  }

  lemma PromptStarts() returns (s: Server)
    ensures Stands(s, TWO, UNBOUND.(active := true), [FRESH], Reading)
  {
    s := PromptSpawned();
    assert s.promptThreads == [0] && Front([0]) == [];
    s := Goes(s, Main(Go));
  }

  const CHUNK := Chunk("r", None, false, false)
  const NAMED := Binding(Some("r"), None, true, false)

  /** The stream has been asked for its first chunk. */
  lemma PromptStreams() returns (s: Server)
    ensures Stands(s, TWO, UNBOUND.(active := true), [FRESH.(pc := NextChunk)], Reading)
  {
    s := PromptStarts();
    s := Goes(s, Worker(0, Tick));
    s := Goes(s, Worker(0, Tick));
  }

  lemma PromptGetsChunk() returns (s: Server)
    ensures Stands(s, TWO, UNBOUND.(active := true), [FRESH.(pc := BindRuntime(CHUNK))], Reading)
  {
    s := PromptStreams();
    s := Goes(s, Worker(0, Yields(CHUNK)));
    s := Goes(s, Worker(0, Tick));
  }

  lemma PromptBinds() returns (s: Server)
    ensures Stands(s, TWO, NAMED, [FRESH.(pc := CheckBefore)], Reading)
  {
    s := PromptGetsChunk();
    s := Goes(s, Worker(0, Tick));
    s := Goes(s, Worker(0, Tick));
  }

  lemma PromptEnds() returns (s: Server)
    ensures Stands(s, TWO, NAMED, [FRESH.(pc := CheckLast)], Reading)
  {
    s := PromptBinds();
    s := Goes(s, Worker(0, Tick));
    s := Goes(s, Worker(0, Ends));
    s := Goes(s, Worker(0, Tick));
  }

  lemma CancelComes(s: Server, b: Binding, th: Thread) returns (r: Server)
    requires Stands(s, TWO, b, [th], Reading)
    ensures Stands(r, TWO + [STOP], b, [th], MarkCancel("x"))
  {
    StopDispatches(s.sessions);
    r := Goes(s, Main(Read(STOP)));
  }

  /** The thread has looked for the last time when the cancel marks its session. */
  lemma CancelComesLate() returns (s: Server)
    ensures Stands(s, TWO + [STOP], NAMED.(cancelRequested := true), [FRESH.(pc := Answering, asked := true)], ReadActive("x"))
  {
    s := PromptEnds();
    s := CancelComes(s, NAMED, FRESH.(pc := CheckLast));
    s := Goes(s, Worker(0, Tick));
    s := Goes(s, Main(Go));
  }

  /** The prompt is answered as not cancelled, and the canceller is told that the prompt still runs. */
  lemma LateCancelIsLost() returns (s: Server)
    ensures Reachable(s) && |s.threads| == 1 && s.threads[0].asked
    ensures Answer(1, Some(Number(2)), PromptEnded(false)) in s.sent
    ensures Answer(2, Some(Number(3)), CancelTaken(false, true)) in s.sent
  {
    s := CancelTold();
    StopDispatches(s.sessions);
    assert (TWO + [STOP])[2] == STOP;
    s := Goes(s, Main(Go));
  }

  lemma CancelTold() returns (s: Server)
    ensures Stands(s, TWO + [STOP], NAMED.(cancelRequested := true), [FRESH.(pc := Deactivate, asked := true)],
                   Writing(false, CancelTaken(false, true), true))
    ensures Answer(1, Some(Number(2)), PromptEnded(false)) in s.sent
  {
    s := LateAnswer();
    s := Goes(s, Main(Go));
    s := Goes(s, Main(Go));
  }

  lemma LateAnswer() returns (s: Server)
    ensures Stands(s, TWO + [STOP], NAMED.(cancelRequested := true), [FRESH.(pc := Deactivate, asked := true)], ReadRun("x"))
    ensures Answer(1, Some(Number(2)), PromptEnded(false)) in s.sent
  {
    s := LateAnswered();
    s := Goes(s, Main(Go));
    s := Goes(s, Main(Go));
  }

  lemma LateAnswered() returns (s: Server)
    ensures Stands(s, TWO + [STOP], NAMED.(cancelRequested := true), [FRESH.(pc := Deactivate, asked := true)], ReadActive("x"))
    ensures Answer(1, Some(Number(2)), PromptEnded(false)) in s.sent
  {
    s := CancelComesLate();
    AskDispatches(s.sessions);
    s := Goes(s, Worker(0, Tick));
  }

  lemma EarlyMark() returns (s: Server)
    ensures Stands(s, TWO + [STOP], UNBOUND.(active := true, cancelRequested := true), [FRESH.(pc := NextChunk, asked := true)], ReadActive("x"))
  {
    s := PromptStreams();
    s := CancelComes(s, UNBOUND.(active := true), FRESH.(pc := NextChunk));
    s := Goes(s, Main(Go));
  }

  lemma EarlyLook() returns (s: Server)
    ensures Stands(s, TWO + [STOP], UNBOUND.(active := true, cancelRequested := true),
                   [FRESH.(pc := Raised, asked := true, cancelled := true)], ReadActive("x"))
  {
    s := EarlyMark();
    s := Goes(s, Worker(0, Yields(CHUNK)));
    s := Goes(s, Worker(0, Tick));
    s := Goes(s, Worker(0, Tick));
  }

  /** A cancel that is seen at the first chunk of the first prompt is answered as an internal error. */
  lemma EarlyCancelFails() returns (s: Server)
    ensures Reachable(s) && |s.threads| == 1 && s.threads[0].cancelled
    ensures Answer(1, Some(Number(2)), Failure(InternalError)) in s.sent
  {
    s := EarlyLook();
    AskDispatches(s.sessions);
    s := Goes(s, Worker(0, Tick));
  }
}
