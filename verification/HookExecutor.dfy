/** Running the commands of a surface: gate, execute, record; with or without a plan. */
module HookExecutor {
  import opened Basics
  import opened Turns
  import opened Lines
  import opened Diagnostics
  import opened HookPlan

  datatype HookAction = Proceed | CancelAction

  datatype ActionPayload = ActionPayload(action: HookAction, diagnostic: Option<string>, guidance: Option<string>)

  /** What running a command comes to; how commands run is a parameter. */
  datatype CommandResult = Ran(stdout: string) | Crashed(message: string)

  type Shell = (Command, Option<int>) -> CommandResult

  datatype Event = Event(
    sequence: int,
    status: string,
    action: HookAction,
    diagnostic: Option<string>,
    guidance: Option<string>,
    error: Option<string>)

  datatype Outcome = Outcome(
    events: seq<Event>,
    lastSequence: int,
    failedError: Option<string>,
    action: HookAction,
    diagnostics: seq<string>)

  function Nothing(sequence: int): Outcome {
    Outcome([], sequence, None, Proceed, [])
  }

  // ---- What a command says ----

  function TextField(fields: map<string, Json>, name: string): Option<string> {
    if name in fields && fields[name].JString? && fields[name].text != "" then Some(fields[name].text) else None
  }

  function ReadAction(stdout: string, parse: string -> Option<Json>): ActionPayload {
    var text := Strip(stdout);
    var payload := if text == "" then None else parse(text);
    if payload.None? || !payload.value.JObject? then ActionPayload(Proceed, None, None)
    else
      var fields := payload.value.fields;
      ActionPayload(if TextField(fields, "action") == Some("cancel") then CancelAction else Proceed,
                    TextField(fields, "diagnostic"), TextField(fields, "guidance"))
  }

  // ---- The loop ----

  datatype Setting = Setting(
    shell: Shell,
    timeout: Option<int>,
    parse: string -> Option<Json>,
    readOnly: bool,
    failClosed: bool,
    honorsCancel: bool,
    errorLabel: string)

  /** What one command does to the outcome, and whether the loop goes on. */
  datatype Effect = Effect(event: Event, diagnostic: Option<string>, failed: Option<string>, cancels: bool, goesOn: bool)

  function EffectOf(c: Setting, command: Command, sequence: int): Effect {
    if c.readOnly then Effect(Event(sequence, "skipped", Proceed, None, None, None), None, None, false, true)
    else
      match c.shell(command, c.timeout)
      case Crashed(message) =>
        var text := c.errorLabel + ": " + message;
        if c.failClosed then
          Effect(Event(sequence, "error", Proceed, Some(text), Some(text), Some(text)), Some(text), Some(text), true, false)
        else Effect(Event(sequence, "error", Proceed, None, None, Some(text)), None, Some(text), false, false)
      case Ran(stdout) =>
        var said := ReadAction(stdout, c.parse);
        var action := if c.honorsCancel then said.action else Proceed;
        Effect(Event(sequence, "ok", action, said.diagnostic, said.guidance, None), said.diagnostic, None,
               action.CancelAction?, action.Proceed?)
  }

  /** A crash of a surface that is not fail-closed ends the run without the diagnostics gathered so far. */
  function Record(c: Setting, before: Outcome, effect: Effect): Outcome {
    var diagnostics := if effect.diagnostic.Some? then AppendDiagnostic(before.diagnostics, effect.diagnostic.value) else before.diagnostics;
    Outcome(before.events + [effect.event], before.lastSequence + 1, effect.failed,
            if effect.cancels then CancelAction else Proceed,
            if effect.failed.Some? && !effect.cancels then [] else diagnostics)
  }

  /** The number of commands attempted: all up to the first that stops the loop. */
  function Attempts(c: Setting, commands: seq<Command>, from: nat): (n: nat)
    requires from <= |commands|
    ensures from <= n <= |commands|
    ensures forall i | from <= i < n - 1 :: EffectOf(c, commands[i], 0).goesOn
    ensures n < |commands| ==> n > from && !EffectOf(c, commands[n - 1], 0).goesOn
    decreases |commands| - from
  {
    if from == |commands| then from
    else if !EffectOf(c, commands[from], 0).goesOn then from + 1
    else Attempts(c, commands, from + 1)
  }

  function RunFirst(c: Setting, commands: seq<Command>, start: int, n: nat): Outcome
    requires n <= |commands|
  {
    if n == 0 then Nothing(start)
    else Record(c, RunFirst(c, commands, start, n - 1), EffectOf(c, commands[n - 1], start + n))
  }

  function RunCommands(c: Setting, commands: seq<Command>, start: int): Outcome {
    RunFirst(c, commands, start, Attempts(c, commands, 0))
  }

  /** What the loop holds after some commands. */
  ghost predicate Reached(c: Setting, commands: seq<Command>, start: int, i: nat, sofar: Outcome)
    requires i <= |commands|
  {
    Attempts(c, commands, 0) == Attempts(c, commands, i) && RunFirst(c, commands, start, i) == sofar
  }

  lemma GoesOn(c: Setting, commands: seq<Command>, start: int, i: nat, sofar: Outcome, effect: Effect)
    requires i < |commands| && Reached(c, commands, start, i, sofar) && sofar.lastSequence == start + i
    requires sofar.failedError.None? && sofar.action.Proceed?
    requires effect == EffectOf(c, commands[i], start + i + 1)
    ensures effect.goesOn ==>
              && Reached(c, commands, start, i + 1, Record(c, sofar, effect))
              && Record(c, sofar, effect).failedError.None? && Record(c, sofar, effect).action.Proceed?
    ensures !effect.goesOn ==> RunCommands(c, commands, start) == Record(c, sofar, effect)
  {
    assert effect.goesOn == EffectOf(c, commands[i], 0).goesOn;
  }

  method RunHookCommands(c: Setting, commands: seq<Command>, start: int) returns (r: Outcome)
    ensures r == RunCommands(c, commands, start)
  {
    var last := start;
    var events: seq<Event>, diagnostics: seq<string> := [], [];
    for i := 0 to |commands|
      invariant Reached(c, commands, start, i, Outcome(events, last, None, Proceed, diagnostics))
      invariant last == start + i
    {
      ghost var sofar := Outcome(events, last, None, Proceed, diagnostics);
      last := last + 1;
      var effect := EffectOf(c, commands[i], last);
      GoesOn(c, commands, start, i, sofar, effect);
      events := events + [effect.event];
      if effect.diagnostic.Some? {
        diagnostics := AppendDiagnostic(diagnostics, effect.diagnostic.value);
      }
      if !effect.goesOn {
        var kept := if effect.failed.Some? && !effect.cancels then [] else diagnostics;
        return Outcome(events, last, effect.failed, if effect.cancels then CancelAction else Proceed, kept);
      }
    }
    return Outcome(events, last, None, Proceed, diagnostics);
  }

  // ---- What an outcome tells ----

  /** Events are numbered without gaps from the one after the start to the last. */
  ghost predicate Contiguous(r: Outcome, start: int) {
    && r.lastSequence == start + |r.events|
    && forall i | 0 <= i < |r.events| :: r.events[i].sequence == start + i + 1
  }

  lemma {:induction false} FirstContiguous(c: Setting, commands: seq<Command>, start: int, n: nat)
    requires n <= |commands|
    ensures Contiguous(RunFirst(c, commands, start, n), start) && |RunFirst(c, commands, start, n).events| == n
  {
    if n > 0 {
      FirstContiguous(c, commands, start, n - 1);
    }
  }

  /** The diagnostics of the attempted commands. */
  function Told(c: Setting, commands: seq<Command>, n: nat): seq<string>
    requires n <= |commands|
  {
    if n == 0 then []
    else
      var d := EffectOf(c, commands[n - 1], 0).diagnostic;
      Told(c, commands, n - 1) + (if d.Some? then [d.value] else [])
  }

  lemma {:induction false} FirstTells(c: Setting, commands: seq<Command>, start: int, n: nat)
    requires n <= |commands| && forall i | 0 <= i < n :: EffectOf(c, commands[i], 0).goesOn
    ensures RunFirst(c, commands, start, n).diagnostics == Bounded(Told(c, commands, n))
  {
    if n > 0 {
      FirstTells(c, commands, start, n - 1);
      var d := EffectOf(c, commands[n - 1], 0).diagnostic;
      if d.Some? {
        AppendKeepsBound(Told(c, commands, n - 1), d.value);
      }
    }
  }

  predicate Crashes(c: Setting, command: Command) {
    !c.readOnly && c.shell(command, c.timeout).Crashed?
  }

  /** Does the command run, and ask for a cancel where that is honoured? */
  predicate AsksToCancel(c: Setting, command: Command) {
    && !c.readOnly && c.honorsCancel
    && var ran := c.shell(command, c.timeout); ran.Ran? && ReadAction(ran.stdout, c.parse).action.CancelAction?
  }

  /** What a command does, by what running it comes to. */
  lemma EffectExact(c: Setting, command: Command, sequence: int)
    ensures var effect := EffectOf(c, command, sequence);
            && (effect.failed.Some? <==> Crashes(c, command))
            && (effect.cancels <==> AsksToCancel(c, command) || (c.failClosed && Crashes(c, command)))
            && (effect.goesOn <==> !Crashes(c, command) && !AsksToCancel(c, command))
            && effect.diagnostic == EffectOf(c, command, 0).diagnostic
  {
  }

  /**
   Every outcome is numbered contiguously and has one event a command attempted: all up to the first that
   crashes or asks to cancel. It fails exactly if the last one attempted crashes; it cancels exactly if that
   one asks for it or a gate that fails closed crashes. Its diagnostics are the first 32 of what was told and
   one sentinel, but for a crash that is not closed, which loses them exactly if any were told.
   */
  lemma OutcomeExact(c: Setting, commands: seq<Command>, start: int)
    ensures var r, n := RunCommands(c, commands, start), Attempts(c, commands, 0);
            && Contiguous(r, start) && |r.events| == n
            && (forall i | 0 <= i < n - 1 :: !Crashes(c, commands[i]) && !AsksToCancel(c, commands[i]))
            && (n < |commands| ==> n > 0 && (Crashes(c, commands[n - 1]) || AsksToCancel(c, commands[n - 1])))
            && (r.failedError.Some? <==> n > 0 && Crashes(c, commands[n - 1]))
            && (r.action.CancelAction? <==>
                  n > 0 && (AsksToCancel(c, commands[n - 1]) || (c.failClosed && Crashes(c, commands[n - 1]))))
            && (r.diagnostics == Bounded(Told(c, commands, n)) <==>
                  (n > 0 && Crashes(c, commands[n - 1]) && !c.failClosed ==> Told(c, commands, n) == []))
            && (n > 0 && Crashes(c, commands[n - 1]) && !c.failClosed ==> r.diagnostics == [])
  {
    var n := Attempts(c, commands, 0);
    FirstContiguous(c, commands, start, n);
    forall i | 0 <= i < n ensures EffectOf(c, commands[i], 0).goesOn <==> !Crashes(c, commands[i]) && !AsksToCancel(c, commands[i]) {
      EffectExact(c, commands[i], 0);
    }
    if n > 0 {
      FirstTells(c, commands, start, n - 1);
      LastTells(c, commands, start, n);
      EffectExact(c, commands[n - 1], start + n);
      BoundedIsEmpty(Told(c, commands, n));
    }
  }

  lemma BoundedIsEmpty(told: seq<string>)
    ensures Bounded(told) == [] <==> told == []
  {
  }

  /** The last command attempted decides on action and failure, and adds its diagnostic. */
  lemma LastTells(c: Setting, commands: seq<Command>, start: int, n: nat)
    requires 0 < n <= |commands|
    requires RunFirst(c, commands, start, n - 1).diagnostics == Bounded(Told(c, commands, n - 1))
    ensures var r, effect := RunFirst(c, commands, start, n), EffectOf(c, commands[n - 1], start + n);
            && r.failedError == effect.failed && (r.action.CancelAction? <==> effect.cancels)
            && r.diagnostics == (if effect.failed.Some? && !effect.cancels then [] else Bounded(Told(c, commands, n)))
  {
    var d := EffectOf(c, commands[n - 1], 0).diagnostic;
    EffectExact(c, commands[n - 1], start + n);
    if d.Some? {
      AppendKeepsBound(Told(c, commands, n - 1), d.value);
    }
  }

  // ---- With and without a plan ----

  datatype Request = Request(
    hooks: Option<Hooks>,
    plan: Option<ResolvedPlan>,
    recursing: bool,
    start: int)

  predicate Silenced(q: Request) {
    ((q.hooks.None? || q.hooks.value.enabled != Some(true)) && (q.plan.None? || !q.plan.value.enabled)) || q.recursing
  }

  /** Whether a tool name passes the patterns; no pattern passes all. */
  predicate ToolMatches(glob: (string, string) -> bool, patterns: seq<string>, toolName: string) {
    patterns == [] || exists i | 0 <= i < |patterns| :: glob(toolName, patterns[i])
  }

  function CommandsAsked(q: Request, surface: string): seq<Command>
    requires q.plan.Some? || q.hooks.Some?
  {
    if q.plan.Some? then CommandsFor(q.plan.value.bindings, surface) else q.hooks.value.commands(surface)
  }

  function TimeoutAsked(q: Request): Option<int>
    requires q.plan.Some? || q.hooks.Some?
  {
    if q.plan.Some? then q.plan.value.timeout else q.hooks.value.timeout
  }

  function RunToolHooks(q: Request, pre: bool, toolName: string, glob: (string, string) -> bool, c: Setting): Outcome {
    if Silenced(q) then Nothing(q.start)
    else if q.hooks.Some? && !ToolMatches(glob, if pre then q.hooks.value.preToolMatch else q.hooks.value.postToolMatch, toolName) then
      Nothing(q.start)
    else
      RunCommands(c.(timeout := TimeoutAsked(q), failClosed := pre, honorsCancel := true),
                  CommandsAsked(q, if pre then "pre_tool" else "post_tool"), q.start)
  }

  predicate HonorsCancel(surface: string) {
    surface in {"pre_tool", "post_tool", "turn_progress", "stuck_detected", "approval_requested", "before_compact"}
  }

  datatype LifecycleError = ToolSurface | UnknownSurface

  function RunLifecycleHooks(q: Request, surface: string, c: Setting): Result<Outcome, LifecycleError> {
    if Silenced(q) then Ok(Nothing(q.start))
    else if surface == "pre_tool" || surface == "post_tool" then Raise(ToolSurface)
    else if !IsSurface(surface) then Raise(UnknownSurface)
    else
      Ok(RunCommands(c.(timeout := TimeoutAsked(q), failClosed := false, honorsCancel := HonorsCancel(surface)),
                     CommandsAsked(q, surface), q.start))
  }

  /** The first command tells a diagnostic, the second crashes. */
  const TELL: Command := ["tell"]
  const CRASH: Command := ["crash"]

  function TellOrCrash(command: Command, timeout: Option<int>): CommandResult {
    if command == TELL then Ran("x") else Crashed("down")
  }

  function TellsD(text: string): Option<Json> {
    Some(JObject(map["diagnostic" := JString("d")]))
  }

  const FRAGILE := Setting(TellOrCrash, None, TellsD, false, false, false, "failed")

  predicate LosesD(r: Outcome) {
    |r.events| == 2 && r.events[0].diagnostic == Some("d") && r.failedError.Some? && r.diagnostics == []
  }

  lemma CrashAfterDiagnostic(c: Setting)
    requires c == FRAGILE.(honorsCancel := c.honorsCancel)
    ensures LosesD(RunCommands(c, [TELL, CRASH], 0))
  {
    var commands := [TELL, CRASH];
    SaysD(c, 1);
    SaysD(c, 0);
    assert !EffectOf(c, commands[1], 0).goesOn && EffectOf(c, commands[0], 0).goesOn;
    assert Attempts(c, commands, 0) == 2;
    var one := Record(c, Nothing(0), EffectOf(c, TELL, 1));
    assert RunFirst(c, commands, 0, 0) == Nothing(0);
    assert RunFirst(c, commands, 0, 1) == one;
    assert RunFirst(c, commands, 0, 2) == Record(c, one, EffectOf(c, CRASH, 2));
  }

  lemma SaysD(c: Setting, sequence: int)
    requires c == FRAGILE.(honorsCancel := c.honorsCancel)
    ensures EffectOf(c, TELL, sequence) == Effect(Event(sequence, "ok", Proceed, Some("d"), None, None), Some("d"), None, false, true)
  {
    StripKeeps("x");
  }

  ghost function Fragile(): Request {
    Request(Some(Hooks(Some(true), "warn", None, _ => [TELL, CRASH], [], [])), None, false, 0)
  }

  /** A diagnostic told before a crash is lost after a tool. */
  lemma DiagnosticIsLostAfterTool(glob: (string, string) -> bool, toolName: string)
    ensures LosesD(RunToolHooks(Fragile(), false, toolName, glob, FRAGILE))
  {
    CrashAfterDiagnostic(FRAGILE.(honorsCancel := true));
  }

  /** So it is on a lifecycle surface. */
  lemma DiagnosticIsLost()
    ensures var r := RunLifecycleHooks(Fragile(), "session_start", FRAGILE); r.Ok? && LosesD(r.value)
  {
    IsSurfaceAt(2);
    CrashAfterDiagnostic(FRAGILE);
  }

  lemma PlanAsksTheSame(p: ResolvedPlan, hooks: Hooks, surface: string)
    requires Materialized(p, hooks) && IsSurface(surface)
    ensures CommandsFor(p.bindings, surface) == hooks.commands(surface)
  {
    var presets, agentSource, planId, revision, digest :|
      NewPlan(Unhashed(hooks, AllPlanned(hooks, |SURFACES|), presets, agentSource, planId, revision), digest) == Ok(p);
    assert p.bindings == BindingsFor(AllPlanned(hooks, |SURFACES|), hooks, agentSource, presets);
    PlanKeepsCommands(hooks, agentSource, presets, surface);
  }

  lemma ToolSurfaces()
    ensures IsSurface("pre_tool") && IsSurface("post_tool")
  {
    assert SURFACES[0].surface == "pre_tool" && SURFACES[1].surface == "post_tool";
  }

  lemma PlanAsksWhen(p: ResolvedPlan, hooks: Hooks)
    requires Materialized(p, hooks)
    ensures p.enabled == (hooks.enabled == Some(true)) && p.timeout == hooks.timeout
  {
  }

  /** Beside its configuration, the plan it materializes to changes nothing. */
  lemma PlanRefinesConfig(hooks: Hooks, p: ResolvedPlan, recursing: bool, start: int, pre: bool, toolName: string,
                          glob: (string, string) -> bool, surface: string, c: Setting)
    requires Materialized(p, hooks)
    ensures var without := Request(Some(hooks), None, recursing, start);
            var planned := Request(Some(hooks), Some(p), recursing, start);
            && RunToolHooks(planned, pre, toolName, glob, c) == RunToolHooks(without, pre, toolName, glob, c)
            && RunLifecycleHooks(planned, surface, c) == RunLifecycleHooks(without, surface, c)
  {
    ToolSurfaces();
    PlanAsksWhen(p, hooks);
    PlanAsksTheSame(p, hooks, if pre then "pre_tool" else "post_tool");
    if IsSurface(surface) {
      PlanAsksTheSame(p, hooks, surface);
    }
  }

  /**
   Instead of its configuration, the plan does the same on every lifecycle surface; on a tool surface it
   does exactly if the tool filter, which a plan does not carry, has nothing to hold back.
   */
  lemma PlanAloneExactly(hooks: Hooks, p: ResolvedPlan, recursing: bool, start: int, pre: bool, toolName: string,
                         glob: (string, string) -> bool, surface: string, c: Setting)
    requires Materialized(p, hooks)
    ensures var without := Request(Some(hooks), None, recursing, start);
            var alone := Request(None, Some(p), recursing, start);
            && RunLifecycleHooks(alone, surface, c) == RunLifecycleHooks(without, surface, c)
            && (RunToolHooks(alone, pre, toolName, glob, c) == RunToolHooks(without, pre, toolName, glob, c) <==>
                  || Silenced(without)
                  || ToolMatches(glob, if pre then hooks.preToolMatch else hooks.postToolMatch, toolName)
                  || hooks.commands(if pre then "pre_tool" else "post_tool") == [])
  {
    var toolSurface := if pre then "pre_tool" else "post_tool";
    ToolSurfaces();
    PlanAsksWhen(p, hooks);
    PlanAsksTheSame(p, hooks, toolSurface);
    if IsSurface(surface) {
      PlanAsksTheSame(p, hooks, surface);
    }
    var run := c.(timeout := hooks.timeout, failClosed := pre, honorsCancel := true);
    OutcomeExact(run, hooks.commands(toolSurface), start);
  }
}
