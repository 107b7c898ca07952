/** Every request is answered exactly as often as it is owed, and serving ends only when all prompts have answered. */
module AcpResponses {
  import opened Basics
  import opened Turns
  import opened AcpServer
  import opened AcpDiscipline

  // ---- Accounts ----

  /** How many responses a line has got. */
  function Count(sent: seq<Answer>, line: nat): nat {
    if sent == [] then 0 else Count(Front(sent), line) + (if Last(sent).line == line then 1 else 0)
  }

  predicate Attributable(line: Line) {
    line.Loaded? && !Parse(line.request).Rejected?
  }

  predicate Unattributable(line: Line) {
    line.TooLarge? || line.Unparsable? || (line.Loaded? && Parse(line.request).Rejected?)
  }

  /** Is the main thread still to answer its line, or to hand it to a prompt thread? */
  predicate MainPending(pc: MainPc) {
    !pc.Reading? && !pc.ScanThreads? && !pc.JoinAll? && !pc.Exited?
  }

  predicate ThreadPending(pc: ThreadPc) {
    !pc.Deactivate? && !pc.ForgetRun? && !pc.ReleaseFlag? && !pc.Dead?
  }

  ghost predicate ThreadAnswersLater(threads: seq<Thread>, line: nat) {
    exists i :: 0 <= i < |threads| && threads[i].line == line && ThreadPending(threads[i].pc)
  }

  ghost predicate InFlight(s: Server, line: nat) {
    (MainPending(s.main) && line == |s.lines| - 1) || ThreadAnswersLater(s.threads, line)
  }

  predicate LineFits(pc: MainPc, line: Line) {
    if pc.Writing? && pc.always then Unattributable(line) else Attributable(line)
  }

  ghost predicate LinesOk(s: Server) {
    && (MainPending(s.main) ==> s.lines != [] && LineFits(s.main, Last(s.lines)))
    && (forall i | 0 <= i < |s.threads| :: s.threads[i].line < |s.lines| && Attributable(s.lines[s.threads[i].line]))
    && (forall i | 0 <= i < |s.threads| && MainPending(s.main) :: s.threads[i].line < |s.lines| - 1)
    && (forall i, j | 0 <= i < j < |s.threads| :: s.threads[i].line < s.threads[j].line)
  }

  ghost predicate AnswersOk(s: Server) {
    forall k | 0 <= k < |s.sent| :: s.sent[k].line < |s.lines| && s.sent[k].id == IdOf(s.lines[s.sent[k].line])
  }

  function Due(line: Line): nat {
    if Owed(line) then 1 else 0
  }

  ghost predicate Balanced(s: Server) {
    forall n | 0 <= n < |s.lines| :: Count(s.sent, n) == if InFlight(s, n) then 0 else Due(s.lines[n])
  }

  ghost predicate Accounted(s: Server) {
    LinesOk(s) && AnswersOk(s) && Balanced(s)
  }

  lemma CountSnoc(sent: seq<Answer>, a: Answer)
    ensures forall n: nat :: Count(sent + [a], n) == Count(sent, n) + (if a.line == n then 1 else 0)
  {
    assert Front(sent + [a]) == sent;
  }

  lemma {:induction false} CountNone(sent: seq<Answer>, n: nat)
    requires forall k | 0 <= k < |sent| :: sent[k].line < n
    ensures Count(sent, n) == 0
  {
    if sent != [] {
      CountNone(Front(sent), n);
    }
  }

  // ---- Responding balances the account ----

  lemma RespondBalances(s: Server, line: nat, always: bool, body: Body, next: Server)
    requires Accounted(s) && line < |s.lines| && InFlight(s, line)
    requires if always then Unattributable(s.lines[line]) else Attributable(s.lines[line])
    requires next.lines == s.lines && next.sent == Respond(s, line, always, body)
    requires forall n: nat | n < |s.lines| :: InFlight(next, n) <==> InFlight(s, n) && n != line
    ensures AnswersOk(next) && Balanced(next)
  {
    var answer := Answer(line, IdOf(s.lines[line]), body);
    CountSnoc(s.sent, answer);
    forall n | 0 <= n < |s.lines|
      ensures Count(next.sent, n) == if InFlight(next, n) then 0 else Due(s.lines[n])
    {
      if n == line {
        assert Count(s.sent, line) == 0;
      }
    }
  }

  lemma SilentBalances(s: Server, next: Server)
    requires Accounted(s) && next.lines == s.lines && next.sent == s.sent
    requires forall n: nat | n < |s.lines| :: InFlight(next, n) <==> InFlight(s, n)
    ensures AnswersOk(next) && Balanced(next)
  {
  }

  // ---- The main thread ----

  lemma DispatchFits(sessions: map<string, Binding>, line: Line)
    ensures var pc := Dispatch(sessions, line);
            if line.Blank? then pc.Reading? else MainPending(pc) && LineFits(pc, line)
  {
  }

  lemma ReadBalances(s: Server, input: Input)
    requires Accounted(s) && MainReady(s, input) && s.main.Reading? && input.Read?
    ensures Accounted(MainStep(s, input))
  {
    var next, m := MainStep(s, input), |s.lines|;
    DispatchFits(s.sessions, input.line);
    assert Last(next.lines) == input.line;
    CountNone(s.sent, m);
    forall n: nat | n < m ensures InFlight(next, n) <==> InFlight(s, n) {
    }
    assert !ThreadAnswersLater(next.threads, m);
  }

  lemma WriteBalances(s: Server, input: Input)
    requires Accounted(s) && MainReady(s, input) && s.main.Writing?
    ensures Accounted(MainStep(s, input))
  {
    var next, m := MainStep(s, input), |s.lines| - 1;
    assert !ThreadAnswersLater(s.threads, m);
    RespondBalances(s, m, s.main.always, s.main.body, next);
  }

  lemma SpawnHandsOver(s: Server, next: Server, n: nat)
    requires s.main.Spawn? && next.main.ScanThreads? && next.lines == s.lines && s.lines != [] && n < |s.lines|
    requires |next.threads| == |s.threads| + 1 && (forall i | 0 <= i < |s.threads| :: next.threads[i] == s.threads[i])
    requires Last(next.threads).line == |s.lines| - 1 && ThreadPending(Last(next.threads).pc)
    ensures InFlight(next, n) <==> InFlight(s, n)
  {
    if ThreadAnswersLater(s.threads, n) {
      var i :| 0 <= i < |s.threads| && s.threads[i].line == n && ThreadPending(s.threads[i].pc);
      assert next.threads[i] == s.threads[i];
    }
    if n == |s.lines| - 1 {
      assert next.threads[|s.threads|].line == n;
    }
  }

  lemma SpawnBalances(s: Server, input: Input)
    requires Accounted(s) && MainReady(s, input) && s.main.Spawn?
    ensures Accounted(MainStep(s, input))
  {
    var next := MainStep(s, input);
    forall n: nat | n < |s.lines| ensures InFlight(next, n) <==> InFlight(s, n) {
      SpawnHandsOver(s, next, n);
    }
    SilentBalances(s, next);
    assert LinesOk(next);
  }

  lemma MarkBalances(s: Server, input: Input)
    requires Accounted(s) && MainReady(s, input) && s.main.MarkCancel?
    ensures Accounted(MainStep(s, input))
  {
    var next := MainStep(s, input);
    assert forall i | 0 <= i < |s.threads| :: next.threads[i].line == s.threads[i].line && next.threads[i].pc == s.threads[i].pc;
    forall n: nat | n < |s.lines| ensures InFlight(next, n) <==> InFlight(s, n) {
    }
    SilentBalances(s, next);
  }

  lemma OtherShape(s: Server, input: Input)
    requires MainReady(s, input)
    requires !s.main.Writing? && !s.main.Spawn? && !s.main.MarkCancel? && !(s.main.Reading? && input.Read?)
    ensures var next := MainStep(s, input);
            && next.lines == s.lines && next.threads == s.threads && next.sent == s.sent
            && (MainPending(next.main) <==> MainPending(s.main))
            && !(next.main.Writing? && next.main.always)
  {
  }

  lemma OtherBalances(s: Server, input: Input)
    requires Accounted(s) && MainReady(s, input)
    requires !s.main.Writing? && !s.main.Spawn? && !s.main.MarkCancel? && !(s.main.Reading? && input.Read?)
    ensures Accounted(MainStep(s, input))
  {
    OtherShape(s, input);
    SilentBalances(s, MainStep(s, input));
  }

  // ---- Prompt threads ----

  lemma ThreadBalances(s: Server, t: nat, input: ThreadInput)
    requires Accounted(s) && ThreadReady(s, t, input)
    ensures Accounted(ThreadStep(s, t, input))
  {
    var next, th := ThreadStep(s, t, input), s.threads[t];
    ThreadShape(s, t, input);
    ThreadSends(s, t, input);
    assert forall i | 0 <= i < |s.threads| :: next.threads[i].line == s.threads[i].line;
    if AboutToAnswer(th.pc) {
      assert ThreadAnswersLater(s.threads, th.line);
      forall n: nat | n < |s.lines| ensures InFlight(next, n) <==> InFlight(s, n) && n != th.line {
        OneAnswerLeaves(s, t, next, n);
      }
      RespondBalances(s, th.line, false, BodyOf(th), next);
    } else {
      forall n: nat | n < |s.lines| ensures InFlight(next, n) <==> InFlight(s, n) {
        SamePending(s, t, next, n);
      }
      SilentBalances(s, next);
    }
  }

  predicate AboutToAnswer(pc: ThreadPc) {
    pc.Answering? || pc.Raised?
  }

  function BodyOf(th: Thread): Body {
    if th.pc.Raised? || th.failedEvent || th.failedStatus then Failure(InternalError) else PromptEnded(th.cancelled)
  }

  lemma ThreadSends(s: Server, t: nat, input: ThreadInput)
    requires ThreadReady(s, t, input)
    ensures var th, next := s.threads[t], ThreadStep(s, t, input);
            && next.sent == (if AboutToAnswer(th.pc) then Respond(s, th.line, false, BodyOf(th)) else s.sent)
            && (ThreadPending(next.threads[t].pc) <==> ThreadPending(th.pc) && !AboutToAnswer(th.pc))
  {
    if AboutToAnswer(s.threads[t].pc) {
      ThreadAnswers(s, t, input);
    } else {
      ThreadKeepsSilent(s, t, input);
    }
  }

  lemma ThreadAnswers(s: Server, t: nat, input: ThreadInput)
    requires ThreadReady(s, t, input) && AboutToAnswer(s.threads[t].pc)
    ensures var th, next := s.threads[t], ThreadStep(s, t, input);
            next.sent == Respond(s, th.line, false, BodyOf(th)) && !ThreadPending(next.threads[t].pc)
  {
  }

  lemma ThreadKeepsSilent(s: Server, t: nat, input: ThreadInput)
    requires ThreadReady(s, t, input) && !AboutToAnswer(s.threads[t].pc)
    ensures KeepsSilent(s, t, ThreadStep(s, t, input))
  {
    match s.threads[t].pc
    case Starting | NextChunk | CheckBefore | CheckAfter(_) | CheckBound | CheckLast => AloneKeepsSilent(s, t, input);
    case _ => BindingKeepsSilent(s, t, input);
  }

  ghost predicate KeepsSilent(s: Server, t: nat, next: Server)
    requires t < |s.threads| && |next.threads| == |s.threads|
  {
    next.sent == s.sent && (ThreadPending(next.threads[t].pc) <==> ThreadPending(s.threads[t].pc))
  }

  lemma AloneKeepsSilent(s: Server, t: nat, input: ThreadInput)
    requires ThreadReady(s, t, input)
    requires var pc := s.threads[t].pc; pc.Starting? || pc.NextChunk? || pc.CheckBefore? || pc.CheckAfter? || pc.CheckBound? || pc.CheckLast?
    ensures KeepsSilent(s, t, ThreadStep(s, t, input))
  {
  }

  lemma BindingKeepsSilent(s: Server, t: nat, input: ThreadInput)
    requires ThreadReady(s, t, input)
    requires var pc := s.threads[t].pc; pc.BindRuntime? || pc.BindRun? || pc.Deactivate? || pc.ForgetRun? || pc.ReleaseFlag?
    ensures KeepsSilent(s, t, ThreadStep(s, t, input))
  {
  }

  lemma OneAnswerLeaves(s: Server, t: nat, next: Server, n: nat)
    requires LinesOk(s) && t < |s.threads| && n < |s.lines| && s.threads[t].session in s.sessions && OwnOnly(s, t, next)
    requires ThreadPending(s.threads[t].pc) && !ThreadPending(next.threads[t].pc)
    ensures InFlight(next, n) <==> InFlight(s, n) && n != s.threads[t].line
  {
    if ThreadAnswersLater(s.threads, n) && n != s.threads[t].line {
      var i :| 0 <= i < |s.threads| && s.threads[i].line == n && ThreadPending(s.threads[i].pc);
      assert next.threads[i] == s.threads[i];
    }
    if ThreadAnswersLater(next.threads, n) {
      var i :| 0 <= i < |s.threads| && next.threads[i].line == n && ThreadPending(next.threads[i].pc);
      assert i != t && next.threads[i] == s.threads[i];
    }
  }

  lemma SamePending(s: Server, t: nat, next: Server, n: nat)
    requires t < |s.threads| && n < |s.lines| && s.threads[t].session in s.sessions && OwnOnly(s, t, next)
    requires ThreadPending(next.threads[t].pc) <==> ThreadPending(s.threads[t].pc)
    ensures InFlight(next, n) <==> InFlight(s, n)
  {
    assert forall i | 0 <= i < |s.threads| ::
      next.threads[i].line == s.threads[i].line && (ThreadPending(next.threads[i].pc) <==> ThreadPending(s.threads[i].pc));
  }

  lemma AccountedKept(s: Server, e: Event)
    requires Accounted(s) && Ready(s, e)
    ensures Accounted(Next(s, e))
  {
    match e
    case Main(input) =>
      if s.main.Writing? {
        WriteBalances(s, input);
      } else if s.main.Spawn? {
        SpawnBalances(s, input);
      } else if s.main.MarkCancel? {
        MarkBalances(s, input);
      } else if s.main.Reading? && input.Read? {
        ReadBalances(s, input);
      } else {
        OtherBalances(s, input);
      }
    case Worker(t, input) => ThreadBalances(s, t, input);
  }

  // ---- Joining ----

  /** No live thread is ever lost from the list that serving waits for. */
  ghost predicate Listed(s: Server) {
    match s.main
    case JoinAll(rest) => Lists(rest, s.threads)
    case Exited => forall i | 0 <= i < |s.threads| :: s.threads[i].pc.Dead?
    case _ => Lists(s.promptThreads, s.threads)
  }

  ghost predicate Lists(list: seq<nat>, threads: seq<Thread>) {
    && (forall k | 0 <= k < |list| :: list[k] < |threads|)
    && (forall i: nat | i < |threads| && !threads[i].pc.Dead? :: i in list)
  }

  lemma {:induction false} AliveLists(list: seq<nat>, threads: seq<Thread>)
    requires forall k | 0 <= k < |list| :: list[k] < |threads|
    ensures forall i :: i in Alive(list, threads) <==> i in list && !threads[i].pc.Dead?
  {
    if list != [] {
      AliveLists(Front(list), threads);
      assert list == Front(list) + [Last(list)];
    }
  }

  lemma MainKeepsListed(s: Server, input: Input)
    requires Listed(s) && MainReady(s, input)
    ensures Listed(MainStep(s, input))
  {
    match s.main
    case ScanThreads =>
      AliveLists(s.promptThreads, s.threads);
      var alive := Alive(s.promptThreads, s.threads);
      assert forall k | 0 <= k < |alive| :: alive[k] in alive;
      assert Lists(alive, s.threads);
    case JoinAll(rest) =>
    case MarkCancel(x) =>
      assert forall i | 0 <= i < |s.threads| :: AskedThreads(s.threads, x)[i].pc == s.threads[i].pc;
    case Reading =>
      if input.Read? {
        DispatchIs(s.sessions, input.line);
      }
    case _ =>
  }

  lemma ListedKept(s: Server, e: Event)
    requires Listed(s) && Ready(s, e)
    ensures Listed(Next(s, e))
  {
    match e
    case Main(input) => MainKeepsListed(s, input);
    case Worker(t, input) => ThreadShape(s, t, input);
  }

  // ---- Whole runs ----

  ghost predicate Follows(trace: seq<Server>, events: seq<Event>, i: nat)
    requires i < |events| && |trace| == |events| + 1
  {
    Ready(trace[i], events[i]) && trace[i + 1] == Next(trace[i], events[i])
  }

  ghost predicate Run(trace: seq<Server>, events: seq<Event>) {
    && |trace| == |events| + 1
    && trace[0] == INITIAL
    && forall i: nat {:trigger Follows(trace, events, i)} | i < |events| :: Follows(trace, events, i)
  }

  lemma {:induction false} Reached(trace: seq<Server>, events: seq<Event>, i: nat)
    requires Run(trace, events) && i < |trace|
    ensures Exclusive(trace[i]) && Accounted(trace[i]) && Listed(trace[i])
  {
    if i > 0 {
      Reached(trace, events, i - 1);
      assert Follows(trace, events, i - 1);
      ExclusiveKept(trace[i - 1], events[i - 1]);
      AccountedKept(trace[i - 1], events[i - 1]);
      ListedKept(trace[i - 1], events[i - 1]);
    }
  }

  /** At most one prompt runs, and an active session's prompt is the one that holds the flag. */
  lemma AtMostOnePrompt(trace: seq<Server>, events: seq<Event>, i: nat)
    requires Run(trace, events) && i < |trace|
    ensures var s := trace[i];
            && (forall a, b | 0 <= a < |s.threads| && 0 <= b < |s.threads| && !s.threads[a].pc.Dead? && !s.threads[b].pc.Dead? :: a == b)
            && (forall x | x in s.sessions && s.sessions[x].active ::
                  s.promptActive && (MainActivated(s.main, x) || RunsIn(s.threads, x)))
            && (forall x, y | x in s.sessions && y in s.sessions && s.sessions[x].active && s.sessions[y].active :: x == y)
  {
    Reached(trace, events, i);
  }

  /**
   Every line gets at most the response it is owed, under its own identity; one owed nothing gets none;
   one that is neither being handled nor left to a running prompt has got exactly what it is owed.
   */
  lemma ResponseDiscipline(trace: seq<Server>, events: seq<Event>, i: nat, line: nat)
    requires Run(trace, events) && i < |trace| && line < |trace[i].lines|
    ensures var s := trace[i];
            && Count(s.sent, line) <= Due(s.lines[line]) <= 1
            && (!InFlight(s, line) ==> Count(s.sent, line) == Due(s.lines[line]))
            && (forall k | 0 <= k < |s.sent| && s.sent[k].line == line :: s.sent[k].id == IdOf(s.lines[line]))
  {
    Reached(trace, events, i);
  }

  /** Serving returns only after every prompt thread has ended and every line has got what it is owed. */
  lemma ServeReturnsLast(trace: seq<Server>, events: seq<Event>, i: nat)
    requires Run(trace, events) && i < |trace| && trace[i].main.Exited?
    ensures var s := trace[i];
            && (forall t | 0 <= t < |s.threads| :: s.threads[t].pc.Dead?)
            && (forall n | 0 <= n < |s.lines| :: Count(s.sent, n) == Due(s.lines[n]))
            && !s.promptActive && (forall x | x in s.sessions :: !s.sessions[x].active)
  {
    Reached(trace, events, i);
    var s := trace[i];
    assert !SomeAlive(s.threads);
    assert forall n: nat | n < |s.lines| :: !InFlight(s, n);
  }

  /** Until serving returns, some thread can always go on. */
  lemma NeverStuck(trace: seq<Server>, events: seq<Event>, i: nat) returns (e: Event)
    requires Run(trace, events) && i < |trace| && !trace[i].main.Exited?
    ensures Ready(trace[i], e)
  {
    Reached(trace, events, i);
    var s := trace[i];
    match s.main {
      case JoinAll(rest) =>
        if rest != [] && !s.threads[rest[0]].pc.Dead? {
          var pc := s.threads[rest[0]].pc;
          e := Worker(rest[0], if pc.NextChunk? then Ends else Tick);
        } else {
          e := Main(Go);
        }
      case Reading => e := Main(EndOfInput);
      case Opening(_) => e := Main(NewId(Unused(s.sessions.Keys)));
      case CallRuntime(_) => e := Main(CancelRaises(false));
      case _ => e := Main(Go);
    }
  }

  ghost function Longest(names: set<string>): (n: nat)
    ensures forall x | x in names :: |x| <= n
  {
    if names == {} then 0
    else
      var x := Any(names);
      var rest := Longest(names - {x});
      if |x| > rest then |x| else rest
  }

  ghost function Any(names: set<string>): string
    requires names != {}
    ensures Any(names) in names
  {
    var x :| x in names; x
  }

  /** A name that no session has. */
  ghost function Unused(names: set<string>): (name: string)
    ensures name !in names
  {
    seq(Longest(names) + 1, _ => 'a')
  }
}
