/** Under every interleaving: one prompt at a time, one answer for each request that is owed one. */
module AcpDiscipline {
  import opened Basics
  import opened Turns
  import opened AcpServer

  // ---- Mutual exclusion ----

  /** The main thread holds the flag from taking it until a thread is there to give it back. */
  predicate MainHolds(pc: MainPc) {
    pc.SetActive? || pc.ClearRun? || pc.ClearCancel? || pc.Spawn?
  }

  /** At most one thread is not dead; the flag is set exactly while one is, or while the main thread starts one. */
  ghost predicate OneAtATime(s: Server) {
    && (forall i, j | 0 <= i < |s.threads| && 0 <= j < |s.threads| && !s.threads[i].pc.Dead? && !s.threads[j].pc.Dead? :: i == j)
    && (MainHolds(s.main) ==> s.promptActive && forall i | 0 <= i < |s.threads| :: s.threads[i].pc.Dead?)
    && (s.promptActive ==> MainHolds(s.main) || SomeAlive(s.threads))
    && (SomeAlive(s.threads) ==> s.promptActive)
  }

  ghost predicate SomeAlive(threads: seq<Thread>) {
    exists i :: 0 <= i < |threads| && !threads[i].pc.Dead?
  }

  /** Has the thread not yet cleared its binding? */
  predicate Activated(pc: ThreadPc) {
    !pc.ForgetRun? && !pc.ReleaseFlag? && !pc.Dead?
  }

  ghost predicate RunsIn(threads: seq<Thread>, session: string) {
    exists i :: 0 <= i < |threads| && threads[i].session == session && Activated(threads[i].pc)
  }

  predicate MainActivated(pc: MainPc, session: string) {
    pc == ClearRun(session) || pc == ClearCancel(session) || pc == Spawn(session)
  }

  /** A binding is active exactly while its own prompt is being started or runs. */
  ghost predicate ActiveIsHeld(s: Server) {
    forall x | x in s.sessions :: s.sessions[x].active <==> MainActivated(s.main, x) || RunsIn(s.threads, x)
  }

  ghost predicate SessionsKnown(s: Server) {
    && (forall i | 0 <= i < |s.threads| :: s.threads[i].session in s.sessions)
    && (SessionOf(s.main).Some? ==> SessionOf(s.main).value in s.sessions)
    && (s.lines == [] ==> s.main.Reading? || s.main.JoinAll? || s.main.Exited?)
  }

  /** While a prompt runs, its binding's cancel flag says whether a cancel has come since the prompt started. */
  ghost predicate CancelSeen(s: Server) {
    && (forall i | 0 <= i < |s.threads| && !s.threads[i].pc.Dead? ::
          s.threads[i].session in s.sessions && s.sessions[s.threads[i].session].cancelRequested == s.threads[i].asked)
    && (forall i | 0 <= i < |s.threads| :: s.threads[i].cancelled ==> s.threads[i].asked)
    && (s.main.Spawn? ==> s.main.session in s.sessions && !s.sessions[s.main.session].cancelRequested)
  }

  ghost predicate Exclusive(s: Server) {
    SessionsKnown(s) && OneAtATime(s) && ActiveIsHeld(s) && CancelSeen(s)
  }

  /** Steps that neither take the flag nor touch a binding or a thread that exists. */
  predicate Quiet(pc: MainPc) {
    !MainHolds(pc) && !pc.TakeFlag? && !pc.MarkCancel?
  }

  lemma DispatchIs(sessions: map<string, Binding>, line: Line)
    ensures var pc := Dispatch(sessions, line);
            && (pc.Reading? || pc.Writing? || pc.Opening? || pc.CheckActive? || pc.MarkCancel?)
            && (SessionOf(pc).Some? ==> SessionOf(pc).value in sessions)
  {
    if line.Loaded? {
      match Parse(line.request)
      case Accepted(_, Prompt(_, _)) =>
      case Accepted(_, Cancel(_)) =>
      case Accepted(_, _) =>
      case _ =>
    }
  }

  /** The same sessions, perhaps with a new one nobody uses yet. */
  ghost predicate OnlyOpened(before: map<string, Binding>, after: map<string, Binding>) {
    && (forall x | x in before :: x in after && after[x] == before[x])
    && (forall x | x in after && x !in before :: after[x] == Binding(None, None, false, false))
  }

  lemma QuietShape(s: Server, input: Input)
    requires MainReady(s, input) && Quiet(s.main)
    requires s.lines == [] ==> s.main.Reading? || s.main.JoinAll? || s.main.Exited?
    ensures var next := MainStep(s, input);
            && next.threads == s.threads && next.promptActive == s.promptActive && OnlyOpened(s.sessions, next.sessions)
            && !MainHolds(next.main)
            && (SessionOf(next.main).Some? ==> SessionOf(next.main).value in next.sessions)
            && (next.lines == [] ==> next.main.Reading? || next.main.JoinAll? || next.main.Exited?)
  {
    match s.main
    case Reading =>
      if input.Read? {
        DispatchIs(s.sessions, input.line);
      }
    case _ =>
  }

  lemma QuietKeeps(s: Server, input: Input)
    requires Exclusive(s) && MainReady(s, input) && Quiet(s.main)
    ensures Exclusive(MainStep(s, input))
  {
    QuietShape(s, input);
    var next := MainStep(s, input);
    assert ActiveIsHeld(next) by {
      forall x | x in next.sessions ensures next.sessions[x].active <==> RunsIn(next.threads, x) {
        if x !in s.sessions {
          assert forall i | 0 <= i < |s.threads| :: s.threads[i].session != x;
        }
      }
    }
  }

  lemma MarkKeeps(s: Server, input: Input)
    requires Exclusive(s) && MainReady(s, input) && s.main.MarkCancel?
    ensures Exclusive(MainStep(s, input))
  {
    var next := MainStep(s, input);
    assert forall i | 0 <= i < |s.threads| ::
      next.threads[i].pc == s.threads[i].pc && next.threads[i].session == s.threads[i].session;
    assert SomeAlive(next.threads) <==> SomeAlive(s.threads);
    forall y ensures RunsIn(next.threads, y) <==> RunsIn(s.threads, y) {
    }
  }

  lemma SpawnKeeps(s: Server, input: Input)
    requires Exclusive(s) && MainReady(s, input) && s.main.Spawn?
    ensures Exclusive(MainStep(s, input))
  {
    var next, x := MainStep(s, input), s.main.session;
    assert next.threads[|s.threads|].pc == Starting && next.threads[|s.threads|].session == x;
    assert SomeAlive(next.threads);
    forall y ensures RunsIn(next.threads, y) <==> y == x {
    }
    assert forall y :: !RunsIn(s.threads, y);
  }

  lemma StartingKeeps(s: Server, input: Input)
    requires Exclusive(s) && MainReady(s, input) && (s.main.TakeFlag? || s.main.SetActive? || s.main.ClearRun? || s.main.ClearCancel?)
    ensures Exclusive(MainStep(s, input))
  {
    if s.main.TakeFlag? {
      assert !s.promptActive ==> !SomeAlive(s.threads);
    }
  }

  // ---- Threads ----

  /** A live thread is the only one, and the main thread starts none meanwhile. */
  lemma Alone(s: Server, t: nat)
    requires Exclusive(s) && t < |s.threads| && !s.threads[t].pc.Dead?
    ensures s.promptActive && !MainHolds(s.main)
    ensures forall i | 0 <= i < |s.threads| && i != t :: s.threads[i].pc.Dead?
  {
  }

  /** A step of a thread touches its own record, its own binding, the flag and the answers, nothing else. */
  ghost predicate OwnOnly(s: Server, t: nat, next: Server)
    requires t < |s.threads| && s.threads[t].session in s.sessions
  {
    var th := s.threads[t];
    var x := th.session;
    && next.lines == s.lines && next.main == s.main && next.promptThreads == s.promptThreads
    && |next.threads| == |s.threads| && (forall i | 0 <= i < |s.threads| && i != t :: next.threads[i] == s.threads[i])
    && next.sessions.Keys == s.sessions.Keys && (forall y | y in s.sessions && y != x :: next.sessions[y] == s.sessions[y])
    && next.threads[t].line == th.line && next.threads[t].session == x && next.threads[t].asked == th.asked
    && next.sessions[x].cancelRequested == s.sessions[x].cancelRequested
    && next.sessions[x].active == (s.sessions[x].active && !th.pc.Deactivate?)
    && next.promptActive == (s.promptActive && !th.pc.ReleaseFlag?)
    && (next.threads[t].pc.Dead? <==> th.pc.ReleaseFlag?)
    && (Activated(next.threads[t].pc) <==> Activated(th.pc) && !th.pc.Deactivate?)
    && (next.threads[t].cancelled && !th.cancelled ==> s.sessions[x].cancelRequested)
  }

  lemma ThreadShape(s: Server, t: nat, input: ThreadInput)
    requires ThreadReady(s, t, input)
    ensures OwnOnly(s, t, ThreadStep(s, t, input))
  {
    match s.threads[t].pc
    case Starting | NextChunk | CheckBefore | CheckAfter(_) | CheckBound | CheckLast => ThreadAloneShape(s, t, input);
    case Answering | Raised => ThreadAnswersShape(s, t, input);
    case _ => ThreadBindingShape(s, t, input);
  }

  lemma ThreadAloneShape(s: Server, t: nat, input: ThreadInput)
    requires ThreadReady(s, t, input)
    requires var pc := s.threads[t].pc; pc.Starting? || pc.NextChunk? || pc.CheckBefore? || pc.CheckAfter? || pc.CheckBound? || pc.CheckLast?
    ensures OwnOnly(s, t, ThreadStep(s, t, input))
  {
  }

  lemma ThreadAnswersShape(s: Server, t: nat, input: ThreadInput)
    requires ThreadReady(s, t, input) && (s.threads[t].pc.Answering? || s.threads[t].pc.Raised?)
    ensures OwnOnly(s, t, ThreadStep(s, t, input))
  {
  }

  lemma ThreadBindingShape(s: Server, t: nat, input: ThreadInput)
    requires ThreadReady(s, t, input)
    requires var pc := s.threads[t].pc; pc.BindRuntime? || pc.BindRun? || pc.Deactivate? || pc.ForgetRun? || pc.ReleaseFlag?
    ensures OwnOnly(s, t, ThreadStep(s, t, input))
  {
  }

  lemma ThreadKeepsOne(s: Server, t: nat, input: ThreadInput)
    requires Exclusive(s) && ThreadReady(s, t, input)
    ensures OneAtATime(ThreadStep(s, t, input)) && SessionsKnown(ThreadStep(s, t, input))
  {
    Alone(s, t);
    var next := ThreadStep(s, t, input);
    ThreadShape(s, t, input);
    assert s.threads[t].pc.ReleaseFlag? ==> !SomeAlive(next.threads);
    assert !s.threads[t].pc.ReleaseFlag? ==> SomeAlive(next.threads);
  }

  lemma ThreadKeepsActive(s: Server, t: nat, input: ThreadInput)
    requires Exclusive(s) && ThreadReady(s, t, input)
    ensures ActiveIsHeld(ThreadStep(s, t, input))
  {
    Alone(s, t);
    ThreadShape(s, t, input);
    var next, x := ThreadStep(s, t, input), s.threads[t].session;
    forall y | y in s.sessions ensures next.sessions[y].active <==> MainActivated(s.main, y) || RunsIn(next.threads, y) {
      assert RunsIn(s.threads, y) <==> y == x && Activated(s.threads[t].pc);
      assert RunsIn(next.threads, y) <==> y == x && Activated(next.threads[t].pc);
    }
  }

  lemma ThreadKeepsCancel(s: Server, t: nat, input: ThreadInput)
    requires Exclusive(s) && ThreadReady(s, t, input)
    ensures CancelSeen(ThreadStep(s, t, input))
  {
    Alone(s, t);
    ThreadShape(s, t, input);
  }

  lemma ExclusiveKept(s: Server, e: Event)
    requires Exclusive(s) && Ready(s, e)
    ensures Exclusive(Next(s, e))
  {
    match e
    case Main(input) =>
      if Quiet(s.main) {
        QuietKeeps(s, input);
      } else if s.main.MarkCancel? {
        MarkKeeps(s, input);
      } else if s.main.Spawn? {
        SpawnKeeps(s, input);
      } else {
        StartingKeeps(s, input);
      }
    case Worker(t, input) =>
      ThreadKeepsOne(s, t, input);
      ThreadKeepsActive(s, t, input);
      ThreadKeepsCancel(s, t, input);
  }
}
