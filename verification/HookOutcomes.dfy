/** What hooks do to the tool or the surface they hang on, in terms of what their commands print and whether they crash. */
module HookOutcomes {
  import opened Basics
  import opened Turns
  import opened Lines
  import opened Diagnostics
  import opened HookPlan
  import opened HookExecutor

  // ---- One command ----

  /** The object a command printed, if it printed one and nothing else. */
  function Printed(parse: string -> Option<Json>, stdout: string): map<string, Json> {
    if Strip(stdout) != "" && parse(Strip(stdout)).Some? && parse(Strip(stdout)).value.JObject? then parse(Strip(stdout)).value.fields
    else map[]
  }

  /** A field of it that is a text and not empty. */
  ghost predicate Names(fields: map<string, Json>, field: string, text: Option<string>) {
    if field in fields && fields[field].JString? && fields[field].text != "" then text == Some(fields[field].text) else text == None
  }

  /** A command asks to cancel exactly if it prints an object whose action is "cancel"; its other words are read likewise. */
  lemma ReadExactly(stdout: string, parse: string -> Option<Json>)
    ensures var said, fields := ReadAction(stdout, parse), Printed(parse, stdout);
            && (said.action.CancelAction? <==> "action" in fields && fields["action"] == JString("cancel"))
            && Names(fields, "diagnostic", said.diagnostic) && Names(fields, "guidance", said.guidance)
  {
  }

  predicate Crashed(c: Setting, timeout: Option<int>, command: Command) {
    !c.readOnly && c.shell(command, timeout).Crashed?
  }

  /** The command runs and prints that the tool or step be cancelled. */
  predicate SaysCancel(c: Setting, timeout: Option<int>, command: Command) {
    && !c.readOnly && c.shell(command, timeout).Ran?
    && var fields := Printed(c.parse, c.shell(command, timeout).stdout); "action" in fields && fields["action"] == JString("cancel")
  }

  lemma AskingIs(c: Setting, command: Command)
    ensures AsksToCancel(c, command) <==> c.honorsCancel && SaysCancel(c, c.timeout, command)
    ensures Crashes(c, command) <==> Crashed(c, c.timeout, command)
  {
    if c.shell(command, c.timeout).Ran? {
      ReadExactly(c.shell(command, c.timeout).stdout, c.parse);
    }
  }

  // ---- The events of a run ----

  lemma {:induction false} FirstEvents(c: Setting, commands: seq<Command>, start: int, n: nat, i: nat)
    requires i < n <= |commands|
    ensures |RunFirst(c, commands, start, n).events| == n
    ensures RunFirst(c, commands, start, n).events[i] == EffectOf(c, commands[i], start + i + 1).event
  {
    FirstContiguous(c, commands, start, n);
    FirstContiguous(c, commands, start, n - 1);
    if i < n - 1 {
      FirstEvents(c, commands, start, n - 1, i);
    }
  }

  /** The event of a command tells whether it was skipped, ran or crashed, and what it said or how it failed. */
  ghost predicate Reports(e: Event, c: Setting, command: Command) {
    if c.readOnly then e == Event(e.sequence, "skipped", Proceed, None, None, None)
    else
      match c.shell(command, c.timeout)
      case Ran(stdout) =>
        && e.status == "ok" && e.error == None && (e.action.CancelAction? <==> AsksToCancel(c, command))
        && Names(Printed(c.parse, stdout), "diagnostic", e.diagnostic) && Names(Printed(c.parse, stdout), "guidance", e.guidance)
      case Crashed(message) =>
        && e.status == "error" && e.error == Some(c.errorLabel + ": " + message) && e.action.Proceed?
        && e.diagnostic == (if c.failClosed then e.error else None) && e.guidance == e.diagnostic
  }

  lemma EventsTell(c: Setting, commands: seq<Command>, start: int, i: nat)
    requires i < Attempts(c, commands, 0)
    ensures var r := RunCommands(c, commands, start);
            i < |r.events| && r.events[i].sequence == start + i + 1 && Reports(r.events[i], c, commands[i])
  {
    FirstEvents(c, commands, start, Attempts(c, commands, 0), i);
    EventTells(c, commands[i], start + i + 1);
  }

  lemma EventTells(c: Setting, command: Command, sequence: int)
    ensures EffectOf(c, command, sequence).event.sequence == sequence && Reports(EffectOf(c, command, sequence).event, c, command)
  {
    if !c.readOnly && c.shell(command, c.timeout).Ran? {
      ReadExactly(c.shell(command, c.timeout).stdout, c.parse);
    }
  }

  // ---- The hooks of a tool ----

  /** Hooks run if they are switched on, in the configuration or in the plan, and were not started by a hook. */
  predicate SwitchedOn(q: Request) {
    && !q.recursing
    && ((q.hooks.Some? && q.hooks.value.enabled == Some(true)) || (q.plan.Some? && q.plan.value.enabled))
  }

  /** The commands of a surface: those of the plan if there is one, those of the configuration otherwise. */
  ghost predicate Asked(q: Request, surface: string, commands: seq<Command>, timeout: Option<int>) {
    match q.plan
    case Some(p) => commands == CommandsFor(p.bindings, surface) && timeout == p.timeout
    case None => q.hooks.Some? && commands == q.hooks.value.commands(surface) && timeout == q.hooks.value.timeout
  }

  /** Are there patterns, and does the tool fit none of them? */
  predicate FitsNone(glob: (string, string) -> bool, patterns: seq<string>, toolName: string) {
    patterns != [] && forall i | 0 <= i < |patterns| :: !glob(toolName, patterns[i])
  }

  /** Does a configuration restrict the hooks to other tools? */
  predicate HeldBack(q: Request, pre: bool, toolName: string, glob: (string, string) -> bool) {
    q.hooks.Some? && FitsNone(glob, if pre then q.hooks.value.preToolMatch else q.hooks.value.postToolMatch, toolName)
  }

  /** All but the last of the first n commands neither crash nor make the loop stop. */
  ghost predicate RanTo(r: Outcome, c: Setting, commands: seq<Command>, timeout: Option<int>, heeds: bool) {
    && |r.events| <= |commands|
    && (forall i | 0 <= i < |r.events| - 1 ::
          !Crashed(c, timeout, commands[i]) && !(heeds && SaysCancel(c, timeout, commands[i])))
    && (|r.events| < |commands| ==>
          r.events != [] && var last := commands[|r.events| - 1]; Crashed(c, timeout, last) || (heeds && SaysCancel(c, timeout, last)))
  }

  lemma RanExactly(c: Setting, run: Setting, commands: seq<Command>, start: int)
    requires run == c.(timeout := run.timeout, failClosed := run.failClosed, honorsCancel := run.honorsCancel)
    ensures var r, n := RunCommands(run, commands, start), |RunCommands(run, commands, start).events|;
            && RanTo(r, c, commands, run.timeout, run.honorsCancel)
            && (r.failedError.Some? <==> n > 0 && Crashed(c, run.timeout, commands[n - 1]))
            && (r.action.CancelAction? <==>
                  n > 0 && ((run.honorsCancel && SaysCancel(c, run.timeout, commands[n - 1]))
                            || (run.failClosed && Crashed(c, run.timeout, commands[n - 1]))))
  {
    OutcomeExact(run, commands, start);
    forall i | 0 <= i < |commands|
      ensures Crashes(run, commands[i]) <==> Crashed(c, run.timeout, commands[i])
      ensures AsksToCancel(run, commands[i]) <==> run.honorsCancel && SaysCancel(c, run.timeout, commands[i])
    {
      AskingIs(run, commands[i]);
    }
  }

  /**
   The hooks of a tool cancel it exactly if the last of them that was tried asks for it, or crashes and runs
   before the tool: the gate before a tool fails closed, the one after it never holds a crash against it.
   Without hooks for this tool, nothing runs.
   */
  lemma ToolHooksExactly(q: Request, pre: bool, toolName: string, glob: (string, string) -> bool, c: Setting,
                         commands: seq<Command>, timeout: Option<int>)
    requires Asked(q, if pre then "pre_tool" else "post_tool", commands, timeout)
    ensures var r, n := RunToolHooks(q, pre, toolName, glob, c), |RunToolHooks(q, pre, toolName, glob, c).events|;
            if !SwitchedOn(q) || HeldBack(q, pre, toolName, glob) then r == Outcome([], q.start, None, Proceed, [])
            else
              && RanTo(r, c, commands, timeout, true)
              && (r.failedError.Some? <==> n > 0 && Crashed(c, timeout, commands[n - 1]))
              && (r.action.CancelAction? <==>
                    n > 0 && (SaysCancel(c, timeout, commands[n - 1]) || (pre && Crashed(c, timeout, commands[n - 1]))))
  {
    ToolHooksAre(q, pre, toolName, glob, c, commands, timeout);
    if SwitchedOn(q) && !HeldBack(q, pre, toolName, glob) {
      RanExactly(c, c.(timeout := timeout, failClosed := pre, honorsCancel := true), commands, q.start);
    }
  }

  lemma ToolHooksAre(q: Request, pre: bool, toolName: string, glob: (string, string) -> bool, c: Setting,
                     commands: seq<Command>, timeout: Option<int>)
    requires Asked(q, if pre then "pre_tool" else "post_tool", commands, timeout)
    ensures RunToolHooks(q, pre, toolName, glob, c) ==
            if !SwitchedOn(q) || HeldBack(q, pre, toolName, glob) then Nothing(q.start)
            else RunCommands(c.(timeout := timeout, failClosed := pre, honorsCancel := true), commands, q.start)
  {
    SilencedExactly(q);
    if q.hooks.Some? {
      HeldExactly(glob, if pre then q.hooks.value.preToolMatch else q.hooks.value.postToolMatch, toolName);
    }
  }

  lemma HeldExactly(glob: (string, string) -> bool, patterns: seq<string>, toolName: string)
    ensures ToolMatches(glob, patterns, toolName) <==> !FitsNone(glob, patterns, toolName)
  {
  }

  lemma SilencedExactly(q: Request)
    ensures Silenced(q) <==> !SwitchedOn(q)
  {
  }

  // ---- The hooks of a surface ----

  /** The surfaces that besides the tools' can be cancelled. */
  predicate Cancellable(surface: string) {
    surface == "turn_progress" || surface == "stuck_detected" || surface == "approval_requested" || surface == "before_compact"
  }

  /**
   The hooks of any other surface cancel exactly if the surface can be cancelled and the last of them that was
   tried asks for it; no crash ever cancels. The surfaces of tools and unknown ones are refused.
   */
  lemma LifecycleHooksExactly(q: Request, surface: string, c: Setting, commands: seq<Command>, timeout: Option<int>)
    requires Asked(q, surface, commands, timeout)
    ensures var r := RunLifecycleHooks(q, surface, c);
            && (r.Ok? <==> !SwitchedOn(q) || (surface != "pre_tool" && surface != "post_tool" && IsSurface(surface)))
            && (!SwitchedOn(q) ==> r.value == Outcome([], q.start, None, Proceed, []))
            && (r.Ok? && SwitchedOn(q) ==>
                  var n := |r.value.events|;
                  && RanTo(r.value, c, commands, timeout, Cancellable(surface))
                  && (r.value.failedError.Some? <==> n > 0 && Crashed(c, timeout, commands[n - 1]))
                  && (r.value.action.CancelAction? <==> n > 0 && Cancellable(surface) && SaysCancel(c, timeout, commands[n - 1])))
  {
    LifecycleHooksAre(q, surface, c, commands, timeout);
    if SwitchedOn(q) && surface != "pre_tool" && surface != "post_tool" && IsSurface(surface) {
      RanExactly(c, c.(timeout := timeout, failClosed := false, honorsCancel := Cancellable(surface)), commands, q.start);
    }
  }

  lemma LifecycleHooksAre(q: Request, surface: string, c: Setting, commands: seq<Command>, timeout: Option<int>)
    requires Asked(q, surface, commands, timeout)
    ensures RunLifecycleHooks(q, surface, c) ==
            if !SwitchedOn(q) then Ok(Nothing(q.start))
            else if surface == "pre_tool" || surface == "post_tool" then Raise(ToolSurface)
            else if !IsSurface(surface) then Raise(UnknownSurface)
            else Ok(RunCommands(c.(timeout := timeout, failClosed := false, honorsCancel := Cancellable(surface)), commands, q.start))
  {
    SilencedExactly(q);
    HonorsExactly(surface);
  }

  lemma HonorsExactly(surface: string)
    ensures HonorsCancel(surface) <==> surface == "pre_tool" || surface == "post_tool" || Cancellable(surface)
  {
  }

  // ---- The commands of a plan ----

  /** What a plan asks for on a surface: the commands of its bindings for it, in their order. */
  lemma {:induction false} CommandsForExactly(bindings: seq<Binding>, surface: string, i: nat)
    requires i < |bindings| && bindings[i].event == surface
    ensures |CommandsFor(bindings[..i], surface)| < |CommandsFor(bindings, surface)|
    ensures CommandsFor(bindings, surface)[|CommandsFor(bindings[..i], surface)|] == bindings[i].command
    decreases |bindings|
  {
    if i < |bindings| - 1 {
      CommandsForExactly(Front(bindings), surface, i);
      assert Front(bindings)[..i] == bindings[..i];
    } else {
      assert Front(bindings) == bindings[..i];
    }
  }

  /** What a configuration is planned to: every binding carries its surface's phase, and the mode, timeout and sources configured. */
  lemma PlannedCarries(hooks: Hooks, presets: Presets, agentSource: Option<string>, planId: string, revision: int, i: nat)
    requires i < |AllPlanned(hooks, |SURFACES|)|
    ensures var p := Unhashed(hooks, AllPlanned(hooks, |SURFACES|), presets, agentSource, planId, revision);
            && i < |p.bindings| && p.schemaVersion == 2 && p.planId == planId && p.revision == revision
            && p.enabled == (hooks.enabled == Some(true)) && p.failureMode == hooks.failureMode && p.timeout == hooks.timeout
            && var b, planned := p.bindings[i], AllPlanned(hooks, |SURFACES|)[i];
               && b.event == planned.surface.surface && b.phase == planned.surface.phase && b.command == planned.command
               && b.order == i + 1 && b.id == "session:" + b.event + ":" + Decimal(i + 1)
               && b.failureMode == hooks.failureMode && b.timeout == hooks.timeout && b.agentSource == agentSource
               && b.scope == "session" && b.source == "runtime_config" && b.payloadSchema == "runtime.lifecycle.v1"
  {
  }
}
