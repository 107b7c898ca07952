/** A hook configuration resolved into a validated plan: the plan names every command once, in the configured order. */
module HookPlan {
  import opened Basics
  import opened Turns
  import opened Lines

  type Command = seq<string>

  // ---- Surfaces ----

  datatype Descriptor = Descriptor(surface: string, phase: string, eventType: string)

  const SURFACES: seq<Descriptor> := [
    Descriptor("pre_tool", "foreground", "runtime.tool_hook_pre"),
    Descriptor("post_tool", "foreground", "runtime.tool_hook_post"),
    Descriptor("session_start", "foreground", "runtime.session_started"),
    Descriptor("session_end", "foreground", "runtime.session_ended"),
    Descriptor("session_idle", "foreground", "runtime.session_idle"),
    Descriptor("background_task_registered", "background", "runtime.background_task_registered"),
    Descriptor("background_task_started", "background", "runtime.background_task_started"),
    Descriptor("background_task_progress", "background", "runtime.background_task_progress"),
    Descriptor("background_task_completed", "background", "runtime.background_task_completed"),
    Descriptor("background_task_failed", "background", "runtime.background_task_failed"),
    Descriptor("background_task_cancelled", "background", "runtime.background_task_cancelled"),
    Descriptor("background_task_interrupted", "background", "runtime.background_task_interrupted"),
    Descriptor("background_task_notification_enqueued", "background", "runtime.background_task_notification_enqueued"),
    Descriptor("background_task_result_read", "background", "runtime.background_task_result_read"),
    Descriptor("delegated_result_available", "background", "runtime.delegated_result_available"),
    Descriptor("turn_progress", "foreground", "runtime.turn_progress"),
    Descriptor("stuck_detected", "foreground", "runtime.stuck_detected"),
    Descriptor("approval_requested", "foreground", "runtime.approval_requested"),
    Descriptor("question_asked", "foreground", "runtime.question_requested"),
    Descriptor("before_compact", "foreground", "runtime.before_compact")
  ]

  predicate IsSurface(name: string) {
    exists i | 0 <= i < |SURFACES| :: SURFACES[i].surface == name
  }

  lemma SurfacesDiffer(i: nat, j: nat)
    requires i < j < |SURFACES|
    ensures SURFACES[i].surface != SURFACES[j].surface
  {
  }

  // ---- Configuration ----

  datatype Hooks = Hooks(
    enabled: Option<bool>,
    failureMode: string,
    timeout: Option<int>,
    commands: string -> seq<Command>,
    preToolMatch: seq<string>,
    postToolMatch: seq<string>)

  /** What stands in for an absent configuration. */
  const DISABLED := Hooks(Some(false), "warn", Some(30), _ => [], [], [])

  predicate IsArgv(command: Command) {
    command != [] && forall i | 0 <= i < |command| :: command[i] != ""
  }

  datatype Planned = Planned(surface: Descriptor, command: Command)

  function OnSurface(d: Descriptor, commands: seq<Command>): (planned: seq<Planned>)
    ensures |planned| == |commands| && forall i | 0 <= i < |commands| :: planned[i] == Planned(d, commands[i])
  {
    seq(|commands|, i requires 0 <= i < |commands| => Planned(d, commands[i]))
  }

  /** Every command of the first n surfaces, surface by surface. */
  function AllPlanned(hooks: Hooks, n: nat): seq<Planned>
    requires n <= |SURFACES|
  {
    if n == 0 then []
    else AllPlanned(hooks, n - 1) + OnSurface(SURFACES[n - 1], hooks.commands(SURFACES[n - 1].surface))
  }

  // ---- Plans ----

  datatype Binding = Binding(
    id: string,
    event: string,
    command: Command,
    order: int,
    scope: string,
    source: string,
    agentSource: Option<string>,
    failureMode: string,
    timeout: Option<int>,
    payloadSchema: string,
    phase: string,
    metadata: map<string, Json>)

  datatype ResolvedPlan = ResolvedPlan(
    schemaVersion: int,
    planId: string,
    revision: int,
    bindings: seq<Binding>,
    enabled: bool,
    failureMode: string,
    timeout: Option<int>,
    metadata: map<string, Json>,
    hash: string)

  datatype PlanError =
    | BadScope | BadPlanId | BadRevision | UnknownPreset | BadCommand | DuplicateCommand
    | BadSchemaVersion | BadBindings | BadHash | BadPayload

  function Digit(n: nat): char
    requires n < 10
  {
    "0123456789"[n]
  }

  function Decimal(n: nat): (text: string)
    ensures text != "" && forall i | 0 <= i < |text| :: text[i] != ':'
  {
    if n < 10 then [Digit(n)] else Decimal(n / 10) + [Digit(n % 10)]
  }

  lemma DecimalShort(n: nat)
    ensures |Decimal(n)| == 1 <==> n < 10
    ensures Last(Decimal(n)) == Digit(n % 10)
    ensures n >= 10 ==> Front(Decimal(n)) == Decimal(n / 10)
  {
  }

  lemma {:induction false} DecimalInjective(m: nat, n: nat)
    requires Decimal(m) == Decimal(n)
    ensures m == n
  {
    DecimalShort(m);
    DecimalShort(n);
    assert m % 10 == n % 10;
    if m >= 10 {
      DecimalInjective(m / 10, n / 10);
    }
  }

  function BindingId(surface: string, order: nat): string {
    "session:" + surface + ":" + Decimal(order)
  }

  lemma SameTail(a: string, b: string, x: string, y: string)
    requires a + ":" + x == b + ":" + y && |x| <= |y|
    requires forall i | 0 <= i < |y| :: y[i] != ':'
    ensures x == y
  {
    var whole := b + ":" + y;
    assert (a + ":" + x)[|a|] == ':';
    assert forall k | |b| < k < |whole| :: whole[k] == y[k - |b| - 1];
    assert x == whole[|whole| - |x|..] && y == whole[|whole| - |y|..];
  }

  lemma BindingIdsDiffer(s: string, t: string, m: nat, n: nat)
    requires BindingId(s, m) == BindingId(t, n)
    ensures m == n
  {
    if |Decimal(m)| <= |Decimal(n)| {
      SameTail("session:" + s, "session:" + t, Decimal(m), Decimal(n));
    } else {
      SameTail("session:" + t, "session:" + s, Decimal(n), Decimal(m));
    }
    DecimalInjective(m, n);
  }

  // ---- Validation ----

  predicate ModeOk(mode: string) {
    mode == "warn" || mode == "fail"
  }

  predicate BindingOk(b: Binding, order: int) {
    && IsSurface(b.event)
    && Strip(b.id) != ""
    && b.scope == "session"
    && ModeOk(b.failureMode)
    && (b.phase == "foreground" || b.phase == "background")
    && b.payloadSchema == "runtime.lifecycle.v1"
    && b.order == order
    && IsArgv(b.command)
  }

  /** A plan's bindings: each well formed, numbered from one, no identity and no command of an event twice. */
  predicate BindingsOk(bindings: seq<Binding>) {
    && (forall i | 0 <= i < |bindings| :: BindingOk(bindings[i], i + 1))
    && (forall i, j | 0 <= i < j < |bindings| ::
          bindings[i].id != bindings[j].id && (bindings[i].event != bindings[j].event || bindings[i].command != bindings[j].command))
  }

  ghost predicate IdTaken(bindings: seq<Binding>, n: nat, id: string)
    requires n <= |bindings|
  {
    exists j :: 0 <= j < n && bindings[j].id == id
  }

  ghost predicate CommandTaken(bindings: seq<Binding>, n: nat, event: string, command: Command)
    requires n <= |bindings|
  {
    exists j :: 0 <= j < n && bindings[j].event == event && bindings[j].command == command
  }

  /** What a binding adds to those in front of it. */
  ghost predicate Joins(bindings: seq<Binding>, i: nat)
    requires i < |bindings|
  {
    BindingOk(bindings[i], i + 1) && !IdTaken(bindings, i, bindings[i].id) && !CommandTaken(bindings, i, bindings[i].event, bindings[i].command)
  }

  lemma JoinedIsOk(bindings: seq<Binding>)
    ensures BindingsOk(bindings) <==> forall i: nat | i < |bindings| :: Joins(bindings, i)
  {
    if forall i: nat | i < |bindings| :: Joins(bindings, i) {
      forall i, j | 0 <= i < j < |bindings|
        ensures bindings[i].id != bindings[j].id && (bindings[i].event != bindings[j].event || bindings[i].command != bindings[j].command)
      {
        assert Joins(bindings, j);
      }
      forall i | 0 <= i < |bindings| ensures BindingOk(bindings[i], i + 1) {
        assert Joins(bindings, i);
      }
    }
  }

  lemma TakenNext(bindings: seq<Binding>, i: nat)
    requires i < |bindings|
    ensures forall id :: IdTaken(bindings, i + 1, id) <==> IdTaken(bindings, i, id) || id == bindings[i].id
    ensures forall event, command :: CommandTaken(bindings, i + 1, event, command) <==>
              CommandTaken(bindings, i, event, command) || (event == bindings[i].event && command == bindings[i].command)
  {
    var b := bindings[i];
    assert IdTaken(bindings, i + 1, b.id) && CommandTaken(bindings, i + 1, b.event, b.command);
  }

  method CheckEach(bindings: seq<Binding>) returns (ok: bool)
    ensures ok <==> forall i: nat | i < |bindings| :: Joins(bindings, i)
  {
    var seenIds: set<string>, seenBindings: set<(string, Command)> := {}, {};
    for i := 0 to |bindings|
      invariant forall j: nat | j < i :: Joins(bindings, j)
      invariant forall id :: id in seenIds <==> IdTaken(bindings, i, id)
      invariant forall event, command :: (event, command) in seenBindings <==> CommandTaken(bindings, i, event, command)
    {
      var b := bindings[i];
      if !BindingOk(b, i + 1) || b.id in seenIds || (b.event, b.command) in seenBindings {
        assert !Joins(bindings, i);
        return false;
      }
      TakenNext(bindings, i);
      seenIds := seenIds + {b.id};
      seenBindings := seenBindings + {(b.event, b.command)};
    }
    return true;
  }

  /** The constructor's check: one pass with two sets of what was seen. */
  method ValidatePlanBindings(bindings: seq<Binding>) returns (ok: bool)
    ensures ok <==> BindingsOk(bindings)
  {
    ok := CheckEach(bindings);
    JoinedIsOk(bindings);
  }

  /** The digest of a canonical snapshot: any function of it that never yields the empty text. */
  type Digest = d: Json -> string | forall j :: d(j) != "" witness (_ => "0")

  // ---- Payloads ----

  function Texts(texts: seq<string>): (items: Json)
    ensures items.JArray? && |items.items| == |texts| && forall i | 0 <= i < |texts| :: items.items[i] == JString(texts[i])
  {
    JArray(seq(|texts|, i requires 0 <= i < |texts| => JString(texts[i])))
  }

  function Optional(text: Option<string>): Json {
    if text.Some? then JString(text.value) else JNull
  }

  function OptionalNumber(number: Option<int>): Json {
    if number.Some? then JNumber(number.value) else JNull
  }

  function BindingPayload(b: Binding): Json {
    JObject(map["binding_id" := JString(b.id), "event" := JString(b.event), "command" := Texts(b.command),
                "order" := JNumber(b.order), "scope" := JString(b.scope), "source" := JString(b.source),
                "agent_source" := Optional(b.agentSource), "failure_mode" := JString(b.failureMode),
                "timeout_seconds" := OptionalNumber(b.timeout), "payload_schema" := JString(b.payloadSchema),
                "phase" := JString(b.phase), "metadata" := JObject(b.metadata)])
  }

  function BindingPayloads(bindings: seq<Binding>): (items: seq<Json>)
    ensures |items| == |bindings| && forall i | 0 <= i < |bindings| :: items[i] == BindingPayload(bindings[i])
  {
    seq(|bindings|, i requires 0 <= i < |bindings| => BindingPayload(bindings[i]))
  }

  /** The snapshot that the digest is taken of: everything but the digest. */
  function UnsignedFields(p: ResolvedPlan): map<string, Json> {
    map["schema_version" := JNumber(p.schemaVersion), "plan_id" := JString(p.planId), "revision" := JNumber(p.revision),
        "enabled" := JBool(p.enabled), "failure_mode" := JString(p.failureMode), "timeout_seconds" := OptionalNumber(p.timeout),
        "bindings" := JArray(BindingPayloads(p.bindings)), "metadata" := JObject(p.metadata)]
  }

  function Unsigned(p: ResolvedPlan): Json {
    JObject(UnsignedFields(p))
  }

  function ToPayload(p: ResolvedPlan): Json {
    JObject(UnsignedFields(p)["plan_hash" := JString(p.hash)])
  }

  /** The constructor of a plan: it validates, and signs what is not signed yet. */
  function NewPlan(p: ResolvedPlan, digest: Digest): Result<ResolvedPlan, PlanError> {
    if p.schemaVersion != 2 then Raise(BadSchemaVersion)
    else if Strip(p.planId) == "" then Raise(BadPlanId)
    else if p.revision < 1 then Raise(BadRevision)
    else if !BindingsOk(p.bindings) then Raise(BadBindings)
    else if p.hash != "" && p.hash != digest(Unsigned(p)) then Raise(BadHash)
    else Ok(p.(hash := digest(Unsigned(p))))
  }

  function FieldText(fields: map<string, Json>, name: string): Option<string> {
    if name in fields && fields[name].JString? then Some(fields[name].text) else None
  }

  function FieldNumber(fields: map<string, Json>, name: string): Option<int> {
    if name in fields && fields[name].JNumber? then Some(fields[name].number) else None
  }

  predicate IsTexts(items: seq<Json>) {
    forall i | 0 <= i < |items| :: items[i].JString?
  }

  function TextsOf(items: seq<Json>): (texts: seq<string>)
    requires IsTexts(items)
    ensures |texts| == |items| && forall i | 0 <= i < |items| :: texts[i] == items[i].text
  {
    seq(|items|, i requires 0 <= i < |items| => items[i].text)
  }

  function BindingFromPayload(payload: Json): Option<Binding> {
    if !payload.JObject? then None
    else
      var f := payload.fields;
      var id, event, order := FieldText(f, "binding_id"), FieldText(f, "event"), FieldNumber(f, "order");
      var scope, source, mode := FieldText(f, "scope"), FieldText(f, "source"), FieldText(f, "failure_mode");
      var schema, phase := FieldText(f, "payload_schema"), FieldText(f, "phase");
      if id.None? || event.None? || order.None? || scope.None? || source.None? || mode.None? || schema.None? || phase.None? then None
      else if "command" !in f || !f["command"].JArray? || !IsTexts(f["command"].items) then None
      else if "metadata" !in f || !f["metadata"].JObject? then None
      else
        Some(Binding(id.value, event.value, TextsOf(f["command"].items), order.value, scope.value, source.value,
                     FieldText(f, "agent_source"), mode.value, FieldNumber(f, "timeout_seconds"), schema.value, phase.value,
                     f["metadata"].fields))
  }

  function BindingsFromPayload(items: seq<Json>): Option<seq<Binding>> {
    if items == [] then Some([])
    else
      var front, last := BindingsFromPayload(Front(items)), BindingFromPayload(Last(items));
      if front.None? || last.None? then None else Some(front.value + [last.value])
  }

  function FromPayload(payload: Json, digest: Digest): Result<ResolvedPlan, PlanError> {
    if !payload.JObject? then Raise(BadPayload)
    else
      var f := payload.fields;
      var version, id, revision := FieldNumber(f, "schema_version"), FieldText(f, "plan_id"), FieldNumber(f, "revision");
      var mode, hash, timeout := FieldText(f, "failure_mode"), FieldText(f, "plan_hash"), FieldNumber(f, "timeout_seconds");
      if version.None? || id.None? || revision.None? || mode.None? || hash.None? || "timeout_seconds" !in f then Raise(BadPayload)
      else if "bindings" !in f || !f["bindings"].JArray? || "metadata" !in f || !f["metadata"].JObject? then Raise(BadPayload)
      else if "enabled" !in f || !f["enabled"].JBool? || !ModeOk(mode.value) then Raise(BadPayload)
      else if timeout.None? && !f["timeout_seconds"].JNull? then Raise(BadPayload)
      else if timeout.Some? && timeout.value < 0 then Raise(BadPayload)
      else if hash.value == "" then Raise(BadPayload)
      else
        var bindings := BindingsFromPayload(f["bindings"].items);
        if bindings.None? then Raise(BadPayload)
        else
          NewPlan(ResolvedPlan(version.value, id.value, revision.value, bindings.value, f["enabled"].flag, mode.value, timeout,
                       f["metadata"].fields, hash.value), digest)
  }

  lemma TextsRoundTrip(texts: seq<string>)
    ensures IsTexts(Texts(texts).items) && TextsOf(Texts(texts).items) == texts
  {
  }

  lemma BindingTextFields(b: Binding)
    ensures BindingPayload(b).JObject?
    ensures var f := BindingPayload(b).fields;
            && FieldText(f, "binding_id") == Some(b.id) && FieldText(f, "event") == Some(b.event)
            && FieldText(f, "scope") == Some(b.scope) && FieldText(f, "source") == Some(b.source)
            && FieldText(f, "agent_source") == b.agentSource && FieldText(f, "failure_mode") == Some(b.failureMode)
            && FieldText(f, "payload_schema") == Some(b.payloadSchema) && FieldText(f, "phase") == Some(b.phase)
  {
  }

  lemma BindingOtherFields(b: Binding)
    ensures BindingPayload(b).JObject?
    ensures var f := BindingPayload(b).fields;
            && FieldNumber(f, "order") == Some(b.order) && FieldNumber(f, "timeout_seconds") == b.timeout
            && "command" in f && f["command"] == Texts(b.command) && "metadata" in f && f["metadata"] == JObject(b.metadata)
  {
  }

  lemma BindingRoundTrip(b: Binding)
    ensures BindingFromPayload(BindingPayload(b)) == Some(b)
  {
    BindingTextFields(b);
    BindingOtherFields(b);
    TextsRoundTrip(b.command);
  }

  lemma {:induction false} BindingsReadBack(bindings: seq<Binding>, items: seq<Json>)
    requires |items| == |bindings| && forall i | 0 <= i < |items| :: BindingFromPayload(items[i]) == Some(bindings[i])
    ensures BindingsFromPayload(items) == Some(bindings)
  {
    if items != [] {
      BindingsReadBack(Front(bindings), Front(items));
      assert BindingFromPayload(items[|items| - 1]) == Some(Last(bindings));
      assert Front(bindings) + [Last(bindings)] == bindings;
    }
  }

  lemma BindingsRoundTrip(bindings: seq<Binding>)
    ensures BindingsFromPayload(BindingPayloads(bindings)) == Some(bindings)
  {
    var items := BindingPayloads(bindings);
    forall i | 0 <= i < |items| ensures BindingFromPayload(items[i]) == Some(bindings[i]) {
      BindingRoundTrip(bindings[i]);
    }
    BindingsReadBack(bindings, items);
  }

  /** What the reader makes of a payload: its own checks, then the constructor. */
  lemma ReadsBack(p: ResolvedPlan, digest: Digest)
    requires p.hash != ""
    ensures FromPayload(ToPayload(p), digest) ==
            if !ModeOk(p.failureMode) || (p.timeout.Some? && p.timeout.value < 0) then Raise(BadPayload) else NewPlan(p, digest)
  {
    PayloadFields(p);
    BindingsRoundTrip(p.bindings);
  }

  /**
   A constructed plan comes back from its payload unchanged exactly if the reader's own two checks hold of
   it; the constructor makes neither.
   */
  lemma PlanRoundTrip(p: ResolvedPlan, digest: Digest)
    requires NewPlan(p, digest) == Ok(p)
    ensures FromPayload(ToPayload(p), digest) == Ok(p) <==> ModeOk(p.failureMode) && (p.timeout.Some? ==> p.timeout.value >= 0)
    ensures FromPayload(ToPayload(p), digest).Ok? ==> ToPayload(FromPayload(ToPayload(p), digest).value) == ToPayload(p)
  {
    assert p.hash == digest(Unsigned(p));
    ReadsBack(p, digest);
  }

  /** A plan with a timeout of -1: its constructor takes it, the reader of its own payload does not. */
  lemma NegativeTimeoutIsLost(digest: Digest) returns (p: ResolvedPlan)
    ensures p.timeout == Some(-1) && NewPlan(p, digest) == Ok(p) && FromPayload(ToPayload(p), digest) == Raise(BadPayload)
  {
    var unsigned := ResolvedPlan(2, "p", 1, [], true, "warn", Some(-1), map[], "");
    assert Strip("p") != "" by {
      StripKeeps("p");
    }
    p := NewPlan(unsigned, digest).value;
    SignedAgain(unsigned, digest);
    ReadsBack(p, digest);
  }

  /** A plan without bindings and with an unknown failure mode meets the same end. */
  lemma UnknownModeIsLost(digest: Digest) returns (p: ResolvedPlan)
    ensures p.failureMode == "ask" && NewPlan(p, digest) == Ok(p) && FromPayload(ToPayload(p), digest) == Raise(BadPayload)
  {
    var unsigned := ResolvedPlan(2, "p", 1, [], true, "ask", None, map[], "");
    assert Strip("p") != "" by {
      StripKeeps("p");
    }
    p := NewPlan(unsigned, digest).value;
    SignedAgain(unsigned, digest);
    ReadsBack(p, digest);
  }

  lemma PayloadFields(p: ResolvedPlan)
    ensures var f := ToPayload(p).fields;
            && FieldNumber(f, "schema_version") == Some(p.schemaVersion) && FieldText(f, "plan_id") == Some(p.planId)
            && FieldNumber(f, "revision") == Some(p.revision) && FieldText(f, "failure_mode") == Some(p.failureMode)
            && FieldText(f, "plan_hash") == Some(p.hash) && "timeout_seconds" in f && FieldNumber(f, "timeout_seconds") == p.timeout
            && "bindings" in f && f["bindings"] == JArray(BindingPayloads(p.bindings))
            && "metadata" in f && f["metadata"] == JObject(p.metadata) && "enabled" in f && f["enabled"] == JBool(p.enabled)
            && (p.timeout.None? ==> f["timeout_seconds"] == JNull)
  {
  }

  /** A binding a plan may hold, by its fields. */
  lemma BindingExactly(b: Binding, order: int)
    ensures BindingOk(b, order) <==>
            && IsSurface(b.event) && Strip(b.id) != "" && b.scope == "session"
            && (b.failureMode == "warn" || b.failureMode == "fail") && (b.phase == "foreground" || b.phase == "background")
            && b.payloadSchema == "runtime.lifecycle.v1" && b.order == order
            && b.command != [] && forall i | 0 <= i < |b.command| :: b.command[i] != ""
  {
  }

  /** When a plan can be constructed, and that construction signs it and changes nothing else. */
  lemma NewPlanExactly(p: ResolvedPlan, digest: Digest)
    ensures NewPlan(p, digest).Ok? <==>
            && p.schemaVersion == 2 && Strip(p.planId) != "" && p.revision >= 1
            && (p.hash == "" || p.hash == digest(Unsigned(p)))
            && (forall i | 0 <= i < |p.bindings| :: BindingOk(p.bindings[i], i + 1))
            && (forall i, j | 0 <= i < j < |p.bindings| ::
                  && p.bindings[i].id != p.bindings[j].id
                  && (p.bindings[i].event != p.bindings[j].event || p.bindings[i].command != p.bindings[j].command))
    ensures NewPlan(p, digest).Ok? ==> NewPlan(p, digest).value == p.(hash := digest(Unsigned(p)))
  {
  }

  /** What is read from a payload is validated and carries the digest of its own content. */
  lemma ReadPlansAreSigned(payload: Json, digest: Digest)
    requires FromPayload(payload, digest).Ok?
    ensures var p := FromPayload(payload, digest).value;
            && NewPlan(p, digest) == Ok(p) && p.hash == digest(Unsigned(p))
            && FieldText(payload.fields, "plan_hash") == Some(p.hash)
  {
    var p := FromPayload(payload, digest).value;
    assert Unsigned(p) == Unsigned(p.(hash := ""));
  }

  // ---- Materialization ----

  /** Preset references resolve elsewhere to the references kept and their descriptions; None stands for an unknown one. */
  datatype Presets = Presets(refs: seq<string>, described: Json)

  function BindingFor(p: Planned, order: nat, hooks: Hooks, agentSource: Option<string>, presets: Presets): Binding {
    Binding(BindingId(p.surface.surface, order), p.surface.surface, p.command, order, "session", "runtime_config", agentSource,
            hooks.failureMode, hooks.timeout, "runtime.lifecycle.v1", p.surface.phase,
            map["authority" := JString("runtime"), "preset_refs" := Texts(presets.refs)])
  }

  function BindingsFor(planned: seq<Planned>, hooks: Hooks, agentSource: Option<string>, presets: Presets): (bindings: seq<Binding>)
    ensures |bindings| == |planned|
    ensures forall i | 0 <= i < |planned| :: bindings[i] == BindingFor(planned[i], i + 1, hooks, agentSource, presets)
  {
    seq(|planned|, i requires 0 <= i < |planned| => BindingFor(planned[i], i + 1, hooks, agentSource, presets))
  }

  ghost predicate Plannable(planned: seq<Planned>) {
    && (forall i | 0 <= i < |planned| :: IsArgv(planned[i].command))
    && (forall i, j | 0 <= i < j < |planned| ::
          planned[i].surface.surface != planned[j].surface.surface || planned[i].command != planned[j].command)
  }

  function PlanMetadata(agentSource: Option<string>, presets: Presets): map<string, Json> {
    map["scope" := JString("session"), "authority" := JString("runtime"),
        "agent_source" := JString(if agentSource.Some? && agentSource.value != "" then agentSource.value else "current session"),
        "agent_hook_refs" := Texts(presets.refs), "preset_metadata" := presets.described,
        "preset_materialization" := JString("guidance_only"), "execution" := JString("existing_hook_executor")]
  }

  lemma {:induction false} PlannedPrefix(hooks: Hooks, k: nat, n: nat)
    requires k <= n <= |SURFACES|
    ensures AllPlanned(hooks, k) <= AllPlanned(hooks, n)
  {
    if k < n {
      PlannedPrefix(hooks, k, n - 1);
    }
  }

  lemma {:induction false} PlannedSurfaces(hooks: Hooks, n: nat)
    requires n <= |SURFACES|
    ensures forall i | 0 <= i < |AllPlanned(hooks, n)| :: AllPlanned(hooks, n)[i].surface in SURFACES
  {
    if n > 0 {
      PlannedSurfaces(hooks, n - 1);
    }
  }

  lemma StripKeeps(s: string)
    requires s != "" && !IsSpace(s[0])
    ensures Strip(s) != ""
  {
    TrimRightKeeps(s);
  }

  lemma {:induction false} TrimRightKeeps(s: string)
    requires s != "" && !IsSpace(s[0])
    ensures TrimRight(s) != ""
  {
    if IsSpace(Last(s)) {
      TrimRightKeeps(Front(s));
    }
  }

  lemma IdIsText(surface: string, order: nat)
    ensures Strip(BindingId(surface, order)) != ""
  {
    var id := BindingId(surface, order);
    assert id[0] == "session:"[0] == 's';
    StripKeeps(id);
  }

  lemma IsSurfaceAt(i: nat)
    requires i < |SURFACES|
    ensures IsSurface(SURFACES[i].surface)
  {
  }

  lemma PlannedBindingOk(p: Planned, order: nat, hooks: Hooks, agentSource: Option<string>, presets: Presets)
    requires p.surface in SURFACES && IsArgv(p.command)
    ensures BindingOk(BindingFor(p, order, hooks, agentSource, presets), order) <==> ModeOk(hooks.failureMode)
  {
    var i :| 0 <= i < |SURFACES| && SURFACES[i] == p.surface;
    IsSurfaceAt(i);
    IdIsText(p.surface.surface, order);
    PhaseOk(i);
  }

  lemma PhaseOk(i: nat)
    requires i < |SURFACES|
    ensures SURFACES[i].phase == "foreground" || SURFACES[i].phase == "background"
  {
  }

  lemma PlannedPairsDiffer(planned: seq<Planned>, hooks: Hooks, agentSource: Option<string>, presets: Presets, i: nat, j: nat)
    requires i < j < |planned| && Plannable(planned)
    ensures var a := BindingFor(planned[i], i + 1, hooks, agentSource, presets);
            var b := BindingFor(planned[j], j + 1, hooks, agentSource, presets);
            a.id != b.id && (a.event != b.event || a.command != b.command)
  {
    if BindingId(planned[i].surface.surface, i + 1) == BindingId(planned[j].surface.surface, j + 1) {
      BindingIdsDiffer(planned[i].surface.surface, planned[j].surface.surface, i + 1, j + 1);
    }
  }

  /** Nothing that is planned from a configuration fails the validation of the plan, but for an unknown failure mode. */
  lemma MaterializedIsValid(hooks: Hooks, planned: seq<Planned>, agentSource: Option<string>, presets: Presets)
    requires planned == AllPlanned(hooks, |SURFACES|) && Plannable(planned)
    ensures BindingsOk(BindingsFor(planned, hooks, agentSource, presets)) <==> (planned != [] ==> ModeOk(hooks.failureMode))
  {
    var bindings := BindingsFor(planned, hooks, agentSource, presets);
    PlannedSurfaces(hooks, |SURFACES|);
    forall i: nat | i < |bindings| ensures BindingOk(bindings[i], i + 1) <==> ModeOk(hooks.failureMode) {
      PlannedBindingOk(planned[i], i + 1, hooks, agentSource, presets);
    }
    forall i: nat, j: nat | i < j < |bindings|
      ensures bindings[i].id != bindings[j].id && (bindings[i].event != bindings[j].event || bindings[i].command != bindings[j].command)
    {
      PlannedPairsDiffer(planned, hooks, agentSource, presets, i, j);
    }
    BindingsOkWhen(bindings, ModeOk(hooks.failureMode));
  }

  lemma BindingsOkWhen(bindings: seq<Binding>, fine: bool)
    requires forall i: nat | i < |bindings| :: BindingOk(bindings[i], i + 1) <==> fine
    requires forall i: nat, j: nat | i < j < |bindings| ::
               bindings[i].id != bindings[j].id && (bindings[i].event != bindings[j].event || bindings[i].command != bindings[j].command)
    ensures BindingsOk(bindings) <==> (bindings != [] ==> fine)
  {
    if bindings != [] {
      assert BindingOk(bindings[0], 0 + 1) <==> fine;
    }
  }

  predicate Seen(planned: seq<Planned>, seen: set<(string, Command)>) {
    && (forall i | 0 <= i < |planned| :: (planned[i].surface.surface, planned[i].command) in seen)
    && (forall key | key in seen :: exists i :: 0 <= i < |planned| && key == (planned[i].surface.surface, planned[i].command))
  }

  lemma SeenSnoc(planned: seq<Planned>, seen: set<(string, Command)>, p: Planned)
    requires Seen(planned, seen)
    ensures Seen(planned + [p], seen + {(p.surface.surface, p.command)})
    ensures Plannable(planned) ==>
              (Plannable(planned + [p]) <==> IsArgv(p.command) && (p.surface.surface, p.command) !in seen)
  {
    var more, key := planned + [p], (p.surface.surface, p.command);
    assert more[|planned|] == p;
    forall k | k in seen + {key} ensures exists i :: 0 <= i < |more| && k == (more[i].surface.surface, more[i].command) {
      if k in seen {
        var i :| 0 <= i < |planned| && k == (planned[i].surface.surface, planned[i].command);
        assert more[i] == planned[i];
      }
    }
    if Plannable(planned) && IsArgv(p.command) {
      if key in seen {
        var i :| 0 <= i < |planned| && key == (planned[i].surface.surface, planned[i].command);
        assert more[i] == planned[i];
      }
    }
  }

  function PlannedOn(before: seq<Planned>, d: Descriptor, commands: seq<Command>, j: nat): seq<Planned>
    requires j <= |commands|
  {
    if j == 0 then before else PlannedOn(before, d, commands, j - 1) + [Planned(d, commands[j - 1])]
  }

  lemma {:induction false} PlannedOnIs(before: seq<Planned>, d: Descriptor, commands: seq<Command>, j: nat)
    requires j <= |commands|
    ensures PlannedOn(before, d, commands, j) == before + OnSurface(d, commands)[..j]
  {
    if j > 0 {
      PlannedOnIs(before, d, commands, j - 1);
      assert OnSurface(d, commands)[..j] == OnSurface(d, commands)[..j - 1] + [Planned(d, commands[j - 1])];
    }
  }

  lemma WholeSurface(before: seq<Planned>, d: Descriptor, commands: seq<Command>)
    ensures PlannedOn(before, d, commands, |commands|) == before + OnSurface(d, commands)
  {
    PlannedOnIs(before, d, commands, |commands|);
    assert OnSurface(d, commands)[..|commands|] == OnSurface(d, commands);
  }

  /** What cannot be planned stays so, whatever comes behind it. */
  lemma {:induction false} BadStaysBad(before: seq<Planned>, d: Descriptor, commands: seq<Command>, j: nat, k: nat)
    requires j <= k <= |commands| && !Plannable(PlannedOn(before, d, commands, j))
    ensures !Plannable(PlannedOn(before, d, commands, k))
  {
    if j < k {
      BadStaysBad(before, d, commands, j, k - 1);
      BadFront(PlannedOn(before, d, commands, k - 1), Planned(d, commands[k - 1]));
    }
  }

  lemma BadFront(planned: seq<Planned>, p: Planned)
    ensures Plannable(planned + [p]) ==> Plannable(planned)
  {
    var more := planned + [p];
    assert forall i | 0 <= i < |planned| :: more[i] == planned[i];
  }

  /** The commands of one surface behind those planned before. */
  method PlanSurface(d: Descriptor, commands: seq<Command>, before: seq<Planned>, known: set<(string, Command)>)
    returns (r: Result<seq<Planned>, PlanError>, seen: set<(string, Command)>)
    requires Plannable(before) && Seen(before, known)
    ensures r.Ok? <==> Plannable(PlannedOn(before, d, commands, |commands|))
    ensures r.Ok? ==> r.value == PlannedOn(before, d, commands, |commands|) && Seen(r.value, seen)
  {
    var planned := before;
    seen := known;
    for j := 0 to |commands|
      invariant planned == PlannedOn(before, d, commands, j) && Plannable(planned) && Seen(planned, seen)
    {
      var command := commands[j];
      SeenSnoc(planned, seen, Planned(d, command));
      if !IsArgv(command) || (d.surface, command) in seen {
        assert PlannedOn(before, d, commands, j + 1) == planned + [Planned(d, command)];
        BadStaysBad(before, d, commands, j + 1, |commands|);
        return Raise(if !IsArgv(command) then BadCommand else DuplicateCommand), seen;
      }
      planned := planned + [Planned(d, command)];
      seen := seen + {(d.surface, command)};
    }
    return Ok(planned), seen;
  }

  /** Every command of every surface, unless one is no argv or comes twice. */
  method PlanCommands(hooks: Hooks) returns (r: Result<seq<Planned>, PlanError>)
    ensures r.Ok? <==> Plannable(AllPlanned(hooks, |SURFACES|))
    ensures r.Ok? ==> r.value == AllPlanned(hooks, |SURFACES|)
  {
    var planned: seq<Planned>, seen: set<(string, Command)> := [], {};
    for i := 0 to |SURFACES|
      invariant planned == AllPlanned(hooks, i) && Plannable(planned) && Seen(planned, seen)
    {
      WholeSurface(planned, SURFACES[i], hooks.commands(SURFACES[i].surface));
      var more, known := PlanSurface(SURFACES[i], hooks.commands(SURFACES[i].surface), planned, seen);
      if more.Raise? {
        NotPlannable(hooks, i + 1);
        return more;
      }
      planned, seen := more.value, known;
    }
    return Ok(planned);
  }

  lemma NotPlannable(hooks: Hooks, n: nat)
    requires n <= |SURFACES| && !Plannable(AllPlanned(hooks, n))
    ensures !Plannable(AllPlanned(hooks, |SURFACES|))
  {
    PlannedPrefix(hooks, n, |SURFACES|);
  }

  function Unhashed(hooks: Hooks, planned: seq<Planned>, presets: Presets, agentSource: Option<string>, planId: string, revision: int): ResolvedPlan {
    ResolvedPlan(2, planId, revision, BindingsFor(planned, hooks, agentSource, presets), hooks.enabled == Some(true),
                 hooks.failureMode, hooks.timeout, PlanMetadata(agentSource, presets), "")
  }

  /** Is the plan one that this configuration materializes to? */
  ghost predicate Materialized(p: ResolvedPlan, hooks: Hooks) {
    exists presets, agentSource, planId, revision, digest ::
      NewPlan(Unhashed(hooks, AllPlanned(hooks, |SURFACES|), presets, agentSource, planId, revision), digest) == Ok(p)
  }

  /** A configuration is planned exactly if its commands can be; the plan passes its own validation. */
  method Materialize(config: Option<Hooks>, presets: Option<Presets>, agentSource: Option<string>, scope: string, planId: string,
                     revision: int, digest: Digest) returns (r: Result<ResolvedPlan, PlanError>)
    ensures var hooks := if config.Some? then config.value else DISABLED;
            var planned := AllPlanned(hooks, |SURFACES|);
            && (r.Ok? <==> (scope == "session" && Strip(planId) != "" && revision >= 1 && presets.Some? && Plannable(planned)
                            && (planned != [] ==> ModeOk(hooks.failureMode))))
            && (r.Ok? ==>
                  var unhashed := Unhashed(hooks, planned, presets.value, agentSource, planId, revision);
                  r.value == unhashed.(hash := digest(Unsigned(unhashed))) && NewPlan(r.value, digest) == r
                  && Materialized(r.value, hooks))
  {
    if scope != "session" {
      return Raise(BadScope);
    }
    if Strip(planId) == "" {
      return Raise(BadPlanId);
    }
    if revision < 1 {
      return Raise(BadRevision);
    }
    var hooks := if config.Some? then config.value else DISABLED;
    if presets.None? {
      return Raise(UnknownPreset);
    }
    var planned := PlanCommands(hooks);
    if planned.Raise? {
      return Raise(planned.error);
    }
    MaterializedIsValid(hooks, planned.value, agentSource, presets.value);
    var unhashed := Unhashed(hooks, planned.value, presets.value, agentSource, planId, revision);
    r := NewPlan(unhashed, digest);
    if r.Ok? {
      SignedAgain(unhashed, digest);
    }
  }

  lemma SignedAgain(p: ResolvedPlan, digest: Digest)
    requires NewPlan(p, digest).Ok?
    ensures NewPlan(NewPlan(p, digest).value, digest) == NewPlan(p, digest)
  {
    assert UnsignedFields(NewPlan(p, digest).value) == UnsignedFields(p);
  }

  // ---- Commands of a surface ----

  function CommandsFor(bindings: seq<Binding>, surface: string): seq<Command> {
    if bindings == [] then []
    else CommandsFor(Front(bindings), surface) + (if Last(bindings).event == surface then [Last(bindings).command] else [])
  }

  function PlannedFor(planned: seq<Planned>, surface: string): seq<Command> {
    if planned == [] then []
    else PlannedFor(Front(planned), surface) + (if Last(planned).surface.surface == surface then [Last(planned).command] else [])
  }

  lemma {:induction false} BindingsKeepCommands(planned: seq<Planned>, hooks: Hooks, agentSource: Option<string>, presets: Presets, surface: string)
    ensures CommandsFor(BindingsFor(planned, hooks, agentSource, presets), surface) == PlannedFor(planned, surface)
  {
    if planned != [] {
      BindingsKeepCommands(Front(planned), hooks, agentSource, presets, surface);
      assert Front(BindingsFor(planned, hooks, agentSource, presets)) == BindingsFor(Front(planned), hooks, agentSource, presets);
    }
  }

  lemma {:induction false} PlannedForConcat(first: seq<Planned>, second: seq<Planned>, surface: string)
    ensures PlannedFor(first + second, surface) == PlannedFor(first, surface) + PlannedFor(second, surface)
  {
    if second == [] {
      assert first + second == first;
    } else {
      assert Front(first + second) == first + Front(second);
      PlannedForConcat(first, Front(second), surface);
    }
  }

  lemma {:induction false} PlannedForOne(d: Descriptor, commands: seq<Command>, surface: string)
    ensures PlannedFor(OnSurface(d, commands), surface) == if d.surface == surface then commands else []
  {
    if commands != [] {
      PlannedForOne(d, Front(commands), surface);
      assert Front(OnSurface(d, commands)) == OnSurface(d, Front(commands));
    }
  }

  lemma PlannedForNext(hooks: Hooks, n: nat, surface: string)
    requires 0 < n <= |SURFACES|
    ensures var d := SURFACES[n - 1];
            PlannedFor(AllPlanned(hooks, n), surface) ==
            PlannedFor(AllPlanned(hooks, n - 1), surface) + (if d.surface == surface then hooks.commands(d.surface) else [])
  {
    var d := SURFACES[n - 1];
    PlannedForConcat(AllPlanned(hooks, n - 1), OnSurface(d, hooks.commands(d.surface)), surface);
    PlannedForOne(d, hooks.commands(d.surface), surface);
  }

  /** The name of a surface is met once on the way through all of them. */
  ghost predicate MetOnceAt(surface: string, k: nat) {
    forall i | 0 <= i < |SURFACES| :: SURFACES[i].surface == surface <==> i == k
  }

  lemma SurfacesMetOnce(k: nat)
    requires k < |SURFACES|
    ensures MetOnceAt(SURFACES[k].surface, k)
  {
    forall i | 0 <= i < |SURFACES| ensures SURFACES[i].surface == SURFACES[k].surface <==> i == k {
      if i < k {
        SurfacesDiffer(i, k);
      } else if k < i {
        SurfacesDiffer(k, i);
      }
    }
  }

  lemma {:induction false} PlannedForAll(hooks: Hooks, n: nat, k: nat, surface: string)
    requires n <= |SURFACES| && MetOnceAt(surface, k)
    ensures PlannedFor(AllPlanned(hooks, n), surface) == if k < n then hooks.commands(surface) else []
  {
    if n > 0 {
      PlannedForAll(hooks, n - 1, k, surface);
      PlannedForNext(hooks, n, surface);
      assert SURFACES[n - 1].surface == surface <==> n - 1 == k;
    }
  }

  /** A plan gives every surface the very commands the configuration gives it, in order. */
  lemma PlanKeepsCommands(hooks: Hooks, agentSource: Option<string>, presets: Presets, surface: string)
    requires IsSurface(surface)
    ensures CommandsFor(BindingsFor(AllPlanned(hooks, |SURFACES|), hooks, agentSource, presets), surface) == hooks.commands(surface)
  {
    var k :| 0 <= k < |SURFACES| && SURFACES[k].surface == surface;
    SurfacesMetOnce(k);
    PlannedForAll(hooks, |SURFACES|, k, surface);
    BindingsKeepCommands(AllPlanned(hooks, |SURFACES|), hooks, agentSource, presets, surface);
  }
}
