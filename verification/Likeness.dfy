/** When two engines will do the same from now on, and how a restarted one is brought to where another was cut off. */
module Likeness {
  import opened Basics
  import opened Turns
  import opened Engine
  import opened EngineInvariant

  // ---- Standing alike ----

  /** The two machines wait on the same question, with the same batch before them. */
  ghost predicate SameQuestion(p: Pc, q: Pc) {
    match p
    case AwaitObserve(a) => q.AwaitObserve? && SamePlan(a, q.plan)
    case CheckObserved(a) => q.CheckObserved? && SamePlan(a, q.plan)
    case _ => p == q
  }

  /** Plans for tool turns differ at most in how many of the pending calls they repeat. */
  ghost predicate SamePlan(a: TurnPlan, b: TurnPlan) {
    a == b || (a.ToolTurn? && b.ToolTurn? && a.facts == b.facts)
  }

  ghost predicate Alike(m: Machine, n: Machine) {
    && SameQuestion(m.pc, n.pc)
    && m.state.pending == n.state.pending
    && (m.state.batches == [] <==> n.state.batches == [])
    && (m.state.batches != [] ==> Last(m.state.batches) == Last(n.state.batches))
    && m.state.request.runStep == n.state.request.runStep
    && (m.state.plan.Some? && m.state.pending != [] ==> n.state.plan.Some? && SamePlan(m.state.plan.value, n.state.plan.value))
  }

  /** The hosts answer the same; each prepares its own context but keeps the step. */
  ghost predicate SameAnswer(a: Answer, b: Answer) {
    a == b || (a.Prepared? && b.Prepared? && a.request.Some? && b.request.Some?
               && a.request.value.runStep == b.request.value.runStep)
  }

  lemma AlikeAtChecks(m: Machine, n: Machine, a: Answer)
    requires Inv(m) && Inv(n) && Alike(m, n) && Allowed(m.pc, a) && a.Signal?
    ensures Allowed(n.pc, a) && Alike(Step(m, a), Step(n, a))
  {
    match m.pc
    case Top => AlikeAtOther(m, n, a);
    case CheckPrepared => AlikeAtOther(m, n, a);
    case CheckObserved(_) => AlikeAtObserved(m, n, a);
    case CheckFinished(_, _) => AlikeAtFinished(m, n, a);
    case CheckExecuted(_) => AlikeAtOther(m, n, a);
  }

  lemma AlikeAtObserved(m: Machine, n: Machine, a: Answer)
    requires Inv(m) && Inv(n) && Alike(m, n) && a.Signal? && m.pc.CheckObserved?
    ensures Allowed(n.pc, a) && Alike(Step(m, a), Step(n, a))
  {
  }

  lemma AlikeAtFinished(m: Machine, n: Machine, a: Answer)
    requires Inv(m) && Inv(n) && Alike(m, n) && a.Signal? && m.pc.CheckFinished?
    ensures Allowed(n.pc, a) && Alike(Step(m, a), Step(n, a))
  {
  }

  lemma AlikeAtOther(m: Machine, n: Machine, a: Answer)
    requires Inv(m) && Inv(n) && Alike(m, n) && a.Signal? && (m.pc.Top? || m.pc.CheckPrepared? || m.pc.CheckExecuted?)
    ensures Allowed(n.pc, a) && Alike(Step(m, a), Step(n, a))
  {
  }

  lemma AlikeAtMessages(m: Machine, n: Machine, a: Answer)
    requires Inv(m) && Inv(n) && Alike(m, n) && Allowed(m.pc, a) && a.Messages?
    ensures Allowed(n.pc, a) && Alike(Step(m, a), Step(n, a))
  {
  }

  lemma AlikeAtPrepare(m: Machine, n: Machine, a: Answer, b: Answer)
    requires Inv(m) && Inv(n) && Alike(m, n) && SameAnswer(a, b) && Allowed(m.pc, a) && a.Prepared?
    ensures Allowed(n.pc, b) && Alike(Step(m, a), Step(n, b))
  {
  }

  lemma AlikeAtProducer(m: Machine, n: Machine, a: Answer)
    requires Inv(m) && Inv(n) && Alike(m, n) && Allowed(m.pc, a) && (a.Invoked? || a.Observed? || a.Continuation?)
    ensures Allowed(n.pc, a) && Alike(Step(m, a), Step(n, a))
  {
  }

  lemma AlikeAtCalls(m: Machine, n: Machine, a: Answer)
    requires Inv(m) && Inv(n) && Alike(m, n) && Allowed(m.pc, a) && (a.Executed? || a.HostFails?)
    ensures Allowed(n.pc, a) && Alike(Step(m, a), Step(n, a))
  {
  }

  lemma AlikeStep(m: Machine, n: Machine, a: Answer, b: Answer)
    requires Inv(m) && Inv(n) && Alike(m, n) && SameAnswer(a, b) && Allowed(m.pc, a)
    ensures Allowed(n.pc, b) && Alike(Step(m, a), Step(n, b))
  {
    match a
    case Signal(_) => AlikeAtChecks(m, n, a);
    case Messages(_) => AlikeAtMessages(m, n, a);
    case Prepared(_) => AlikeAtPrepare(m, n, a, b);
    case Invoked(_, _) | Observed(_) | Continuation(_) => AlikeAtProducer(m, n, a);
    case _ => AlikeAtCalls(m, n, a);
  }

  ghost predicate SameAnswers(a: seq<Answer>, b: seq<Answer>) {
    |a| == |b| && forall i | 0 <= i < |a| :: SameAnswer(a[i], b[i])
  }

  ghost predicate Fits(m: Machine, answers: seq<Answer>)
    requires Inv(m)
    decreases |answers|
  {
    answers != [] ==> Allowed(m.pc, answers[0]) && (StepKeeps(m, answers[0]); Fits(Step(m, answers[0]), answers[1..]))
  }

  /** The calls handed to the host for execution while the answers are played. */
  ghost function Executions(m: Machine, answers: seq<Answer>): seq<ToolCall>
    requires Inv(m) && Fits(m, answers)
    decreases |answers|
  {
    if answers == [] then []
    else
      StepKeeps(m, answers[0]);
      (if m.pc.AwaitExecute? then [m.pc.call] else []) + Executions(Step(m, answers[0]), answers[1..])
  }

  /** Two runs that stand alike execute the same calls under the same answers, and stay alike for good. */
  lemma {:induction false} AlikeRunsAgree(m: Machine, n: Machine, a: seq<Answer>, b: seq<Answer>)
    requires Inv(m) && Inv(n) && Alike(m, n) && SameAnswers(a, b) && Fits(m, a)
    ensures Fits(n, b) && Executions(n, b) == Executions(m, a) && Alike(Play(m, a), Play(n, b))
    decreases |a|
  {
    if a != [] {
      AlikeStep(m, n, a[0], b[0]);
      StepKeeps(m, a[0]);
      StepKeeps(n, b[0]);
      AlikeRunsAgree(Step(m, a[0]), Step(n, b[0]), a[1..], b[1..]);
    }
  }

  // ---- Answers in sequence ----

  /** Playing one answer and then others. */
  lemma Head(m: Machine, a: Answer, rest: seq<Answer>)
    requires Inv(m) && Allowed(m.pc, a) && Inv(Step(m, a))
    ensures Fits(m, [a] + rest) <==> Fits(Step(m, a), rest)
    ensures Play(m, [a] + rest) == Play(Step(m, a), rest)
    ensures Fits(m, [a] + rest) ==>
              Executions(m, [a] + rest) == (if m.pc.AwaitExecute? then [m.pc.call] else []) + Executions(Step(m, a), rest)
  {
    assert ([a] + rest)[0] == a && ([a] + rest)[1..] == rest;
  }

  /** What playing some answers comes to. */
  ghost predicate PlaysTo(m: Machine, answers: seq<Answer>, end: Machine, executed: seq<ToolCall>)
    requires Inv(m)
  {
    Fits(m, answers) && Play(m, answers) == end && Executions(m, answers) == executed
  }

  lemma PlaysOneMore(m: Machine, a: Answer, rest: seq<Answer>, end: Machine, executed: seq<ToolCall>)
    requires Inv(m) && Allowed(m.pc, a) && Inv(Step(m, a)) && PlaysTo(Step(m, a), rest, end, executed)
    ensures PlaysTo(m, [a] + rest, end, (if m.pc.AwaitExecute? then [m.pc.call] else []) + executed)
  {
    Head(m, a, rest);
  }

  lemma PlaysItself(m: Machine, answers: seq<Answer>)
    requires Inv(m) && Fits(m, answers)
    ensures PlaysTo(m, answers, Play(m, answers), Executions(m, answers))
  {
  }

  lemma PlaysNothing(m: Machine)
    requires Inv(m)
    ensures PlaysTo(m, [], m, [])
  {
  }

  /** Playing one list of answers and then another. */
  lemma {:induction false} Sequel(m: Machine, first: seq<Answer>, k: Machine, before: seq<ToolCall>,
                                  second: seq<Answer>, end: Machine, executed: seq<ToolCall>)
    requires Inv(m) && PlaysTo(m, first, k, before) && Inv(k) && PlaysTo(k, second, end, executed)
    ensures PlaysTo(m, first + second, end, before + executed)
    decreases |first|, 1
  {
    if first == [] {
      assert first + second == second && before == [] && m == k;
      assert before + executed == executed;
    } else {
      SequelStep(m, first, k, before, second, end, executed);
    }
  }

  lemma {:induction false} SequelStep(m: Machine, first: seq<Answer>, k: Machine, before: seq<ToolCall>,
                                      second: seq<Answer>, end: Machine, executed: seq<ToolCall>)
    requires first != [] && Inv(m) && PlaysTo(m, first, k, before) && Inv(k) && PlaysTo(k, second, end, executed)
    ensures PlaysTo(m, first + second, end, before + executed)
    decreases |first|, 0
  {
    var a, rest := first[0], first[1..];
    var own, later := FirstOf(m, first, k, before);
    Sequel(Step(m, a), rest, k, later, second, end, executed);
    PlaysOneMore(m, a, rest + second, end, later + executed);
    Associative(own, later, executed);
    FirstAndRest(first, second);
  }

  lemma FirstAndRest(first: seq<Answer>, second: seq<Answer>)
    requires first != []
    ensures [first[0]] + (first[1..] + second) == first + second
  {
  }

  lemma FirstOf(m: Machine, first: seq<Answer>, k: Machine, before: seq<ToolCall>) returns (own: seq<ToolCall>, later: seq<ToolCall>)
    requires first != [] && Inv(m) && PlaysTo(m, first, k, before)
    ensures Allowed(m.pc, first[0]) && Inv(Step(m, first[0])) && PlaysTo(Step(m, first[0]), first[1..], k, later)
    ensures own == (if m.pc.AwaitExecute? then [m.pc.call] else []) && before == own + later
  {
    StepKeeps(m, first[0]);
    own := if m.pc.AwaitExecute? then [m.pc.call] else [];
    later := Executions(Step(m, first[0]), first[1..]);
  }

  lemma OneAnswer(m: Machine, a: Answer)
    requires Inv(m) && Allowed(m.pc, a)
    ensures Inv(Step(m, a)) && PlaysTo(m, [a], Step(m, a), if m.pc.AwaitExecute? then [m.pc.call] else [])
  {
    StepKeeps(m, a);
    PlaysNothing(Step(m, a));
    PlaysOneMore(m, a, [], Step(m, a), []);
    assert [a] + [] == [a];
  }

  lemma TwoAnswers(m: Machine, a: Answer, between: Machine, b: Answer, end: Machine)
    requires Inv(m) && Allowed(m.pc, a) && between == Step(m, a) && Inv(between)
    requires Allowed(between.pc, b) && end == Step(between, b) && !between.pc.AwaitExecute?
    ensures Inv(end) && PlaysTo(m, [a, b], end, if m.pc.AwaitExecute? then [m.pc.call] else [])
  {
    OneAnswer(between, b);
    PlaysOneMore(m, a, [b], end, []);
    assert [a] + [b] == [a, b];
  }

  /** Two runs brought to stand alike, and what they execute from there on. */
  lemma ContinueAlike(m: Machine, settle: seq<Answer>, settled: Machine, outstanding: seq<ToolCall>,
                      n: Machine, lead: seq<Answer>, led: Machine, a: seq<Answer>, b: seq<Answer>)
    requires Inv(m) && Inv(n) && Inv(settled) && Inv(led)
    requires PlaysTo(m, settle, settled, outstanding) && Reaches(n, lead, led)
    requires Alike(settled, led) && SameAnswers(a, b) && Fits(settled, a)
    ensures PlaysTo(n, lead + b, Play(led, b), Executions(settled, a))
    ensures PlaysTo(m, settle + a, Play(settled, a), outstanding + Executions(settled, a))
  {
    AlikeRunsAgree(settled, led, a, b);
    PlaysItself(led, b);
    PlaysItself(settled, a);
    Sequel(n, lead, led, [], b, Play(led, b), Executions(led, b));
    Sequel(m, settle, settled, outstanding, a, Play(settled, a), Executions(settled, a));
  }

  /** The answers lead from one machine to the other without anything being executed. */
  ghost predicate Reaches(n: Machine, answers: seq<Answer>, k: Machine)
    requires Inv(n)
  {
    PlaysTo(n, answers, k, [])
  }

  lemma ReachesNext(n: Machine, answers: seq<Answer>, k: Machine, a: Answer, next: Machine)
    requires Inv(n) && Inv(k) && Reaches(n, answers, k) && Allowed(k.pc, a) && !k.pc.AwaitExecute? && next == Step(k, a)
    ensures Inv(next) && Reaches(n, answers + [a], next)
  {
    OneAnswer(k, a);
    Sequel(n, answers, k, [], [a], next, []);
  }

  // ---- Leading a restarted engine to a question ----

  function ToPrepare(n: Machine): seq<Answer> {
    if n.state.pending == [] then [Signal(false), Messages([])] else [Signal(false)]
  }

  function ToPlan(n: Machine): seq<Answer> {
    ToPrepare(n) + [Prepared(Some(n.state.request))] + [Signal(false)]
  }

  function ToObserve(n: Machine, plan: TurnPlan): seq<Answer> {
    if n.state.pending == [] then ToPlan(n) + [Invoked(Some(plan), [])] else ToPlan(n)
  }

  /** What a machine at its loop head is answered until it meets a question of the same iteration. */
  function Lead(n: Machine, pc: Pc): seq<Answer> {
    match pc
    case AwaitSteering => [Signal(false)]
    case AwaitPrepare => ToPrepare(n)
    case CheckPrepared => ToPrepare(n) + [Prepared(Some(n.state.request))]
    case AwaitInvoke => ToPlan(n)
    case AwaitObserve(plan) => ToObserve(n, plan)
    case CheckObserved(plan) => ToObserve(n, plan) + [Observed(true)]
    case AwaitExecute(_) => ToObserve(n, FinalTurn("", [], None)) + [Observed(true)] + [Signal(false)]
    case _ => []
  }

  /** Questions of an iteration up to the execution of a call. */
  predicate BeforeExecution(pc: Pc) {
    pc.Top? || pc.AwaitSteering? || pc.AwaitPrepare? || pc.CheckPrepared? || pc.AwaitInvoke? || pc.AwaitObserve? || pc.CheckObserved? || pc.AwaitExecute?
  }

  /** The same batch with the same calls left, at the same step, and plans without facts of their own. */
  ghost predicate Standing(m: Machine, n: Machine) {
    && Inv(m) && Inv(n) && n.pc == Top
    && m.state.batches != [] && n.state.batches != [] && Last(n.state.batches) == Last(m.state.batches)
    && n.state.pending == m.state.pending && n.state.request.runStep == m.state.request.runStep
    && (n.state.pending != [] ==> n.state.plan.Some? && n.state.plan.value.facts == [])
  }

  ghost predicate PlanFree(m: Machine) {
    m.state.pending != [] ==>
      && (m.state.plan.Some? ==> m.state.plan.value.ToolTurn? && m.state.plan.value.facts == [])
      && (m.pc.AwaitObserve? ==> m.pc.plan.facts == [])
      && (m.pc.CheckObserved? ==> m.pc.plan.facts == [])
  }

  lemma ReachesPrepare(n: Machine)
    requires Inv(n) && n.pc == Top
    ensures Reaches(n, [], n)
    ensures Reaches(n, [Signal(false)], Machine(n.state, if n.state.pending == [] then AwaitSteering else AwaitPrepare))
    ensures Reaches(n, ToPrepare(n), Machine(n.state, AwaitPrepare))
  {
    var s := n.state;
    ReachesNext(n, [], n, Signal(false), Machine(s, if s.pending == [] then AwaitSteering else AwaitPrepare));
    assert [] + [Signal(false)] == [Signal(false)];
    if s.pending == [] {
      ReachesNext(n, [Signal(false)], Machine(s, AwaitSteering), Messages([]), Machine(s, AwaitPrepare));
      assert [Signal(false)] + [Messages([])] == [Signal(false), Messages([])];
    }
  }

  /** Behind the preparation: the invocation, or the plan at hand. */
  function Planning(s: State): Pc {
    if s.pending == [] then AwaitInvoke else if s.plan.Some? then AwaitObserve(s.plan.value) else Failed(MissingPlan)
  }

  lemma ReachesPlan(n: Machine)
    requires Inv(n) && n.pc == Top
    ensures Reaches(n, ToPrepare(n) + [Prepared(Some(n.state.request))], Machine(n.state, CheckPrepared))
    ensures Reaches(n, ToPlan(n), Machine(n.state, Planning(n.state)))
  {
    var s := n.state;
    ReachesPrepare(n);
    ReachesNext(n, ToPrepare(n), Machine(s, AwaitPrepare), Prepared(Some(s.request)), Machine(s, CheckPrepared));
    ReachesNext(n, ToPrepare(n) + [Prepared(Some(s.request))], Machine(s, CheckPrepared), Signal(false), Machine(s, Planning(s)));
  }

  lemma ReachesObserve(n: Machine, plan: TurnPlan)
    requires Inv(n) && n.pc == Top && (n.state.pending == [] ==> plan.FinalTurn?)
    ensures var got := if n.state.pending == [] then plan else n.state.plan.value;
            && (n.state.pending != [] ==> n.state.plan.Some? && n.state.plan.value.ToolTurn?)
            && Reaches(n, ToObserve(n, plan), Machine(n.state, AwaitObserve(got)))
            && Reaches(n, ToObserve(n, plan) + [Observed(true)], Machine(n.state, CheckObserved(got)))
  {
    var s := n.state;
    ReachesPlan(n);
    if s.pending == [] {
      ReachesNext(n, ToPlan(n), Machine(s, AwaitInvoke), Invoked(Some(plan), []), Machine(s, AwaitObserve(plan)));
    }
    var got := if s.pending == [] then plan else s.plan.value;
    ReachesNext(n, ToObserve(n, plan), Machine(s, AwaitObserve(got)), Observed(true), Machine(s, CheckObserved(got)));
  }

  lemma ReachesExecute(n: Machine)
    requires Inv(n) && n.pc == Top && n.state.pending != []
    ensures Reaches(n, Lead(n, AwaitExecute(n.state.pending[0])), Machine(n.state, AwaitExecute(n.state.pending[0])))
  {
    var s, plan := n.state, FinalTurn("", [], None);
    ReachesObserve(n, plan);
    ReachesNext(n, ToObserve(n, plan) + [Observed(true)], Machine(s, CheckObserved(s.plan.value)), Signal(false),
                Machine(s, AwaitExecute(s.pending[0])));
  }

  /** Where the lead ends. */
  function LedTo(n: Machine, pc: Pc): Machine {
    match pc
    case AwaitObserve(plan) => Machine(n.state, AwaitObserve(if n.state.pending != [] && n.state.plan.Some? then n.state.plan.value else plan))
    case CheckObserved(plan) => Machine(n.state, CheckObserved(if n.state.pending != [] && n.state.plan.Some? then n.state.plan.value else plan))
    case _ => Machine(n.state, pc)
  }

  lemma LeadReaches(m: Machine, n: Machine)
    requires Standing(m, n) && BeforeExecution(m.pc)
    ensures Reaches(n, Lead(n, m.pc), LedTo(n, m.pc))
  {
    match m.pc
    case Top | AwaitSteering | AwaitPrepare => ReachesPrepare(n);
    case CheckPrepared | AwaitInvoke => ReachesPlan(n);
    case AwaitObserve(plan) => ReachesObserve(n, plan);
    case CheckObserved(plan) => ReachesObserve(n, plan);
    case AwaitExecute(_) => ReachesExecute(n);
  }

  /** A machine that stands by the same batch can be led to where the other was cut off. */
  lemma LedAlike(m: Machine, n: Machine)
    requires Standing(m, n) && PlanFree(m) && BeforeExecution(m.pc)
    ensures Alike(m, LedTo(n, m.pc))
  {
  }
}
