/** What the server answers: every response is of the kind its request asks for, and says what became of it. */
module AcpBodies {
  import opened Basics
  import opened Turns
  import opened Lines
  import opened AcpServer
  import opened AcpDiscipline
  import opened AcpResponses

  // ---- Requests ----

  /** An identity that a request may carry: none, a text or a number. */
  predicate IdOk(fields: map<string, Json>) {
    "id" !in fields || fields["id"].JNull? || fields["id"].JString? || fields["id"].JNumber?
  }

  predicate Versioned(fields: map<string, Json>) {
    "jsonrpc" in fields && fields["jsonrpc"] == JString("2.0")
  }

  predicate NamesMethod(fields: map<string, Json>) {
    "method" in fields && fields["method"].JString? && fields["method"].text != ""
  }

  predicate ParamsOk(fields: map<string, Json>) {
    "params" !in fields || fields["params"].JNull? || fields["params"].JObject?
  }

  /** Which requests are taken, and what the others are told. */
  lemma ParseExactly(request: Json)
    ensures var r := Parse(request);
            if !request.JObject? || !IdOk(request.fields) then r == Rejected(InvalidRequest)
            else if !Versioned(request.fields) || !NamesMethod(request.fields) then r.Refused? && r.code == InvalidRequest
            else if !ParamsOk(request.fields) then r.Refused? && r.code == InvalidParams
            else r.Accepted?
    ensures var r := Parse(request);
            !r.Rejected? ==>
              var id := if "id" in request.fields then request.fields["id"] else JNull;
              r.id == match id case JString(text) => Some(Name(text)) case JNumber(number) => Some(Number(number)) case _ => None
  {
  }

  /** Which method a request that is taken calls, and what it hands over. */
  lemma MethodExactly(name: string, params: map<string, Json>)
    ensures var m := MethodOf(name, params);
            && (m.Initialize? <==> name == "initialize")
            && (m.NewSession? <==> name == "session/new")
            && (m.Prompt? <==> name == "session/prompt")
            && (m.Cancel? <==> name == "session/cancel")
            && (m.NewSession? ==> (m.valid <==> "mcpServers" !in params || params["mcpServers"] == JArray([])))
            && (m.Prompt? || m.Cancel? ==>
                  m.session == if "sessionId" in params && params["sessionId"].JString? && params["sessionId"].text != ""
                               then Some(params["sessionId"].text) else None)
            && (m.Prompt? ==> (m.textOk <==> "prompt" in params && PromptOk(params["prompt"])))
  {
  }

  /** The texts of some blocks, one under the other. */
  function TextLines(items: seq<Json>): string
    requires forall i | 0 <= i < |items| :: TextBlock(items[i])
  {
    if items == [] then ""
    else if |items| == 1 then TextOf(items[0])
    else TextLines(Front(items)) + "\n" + TextOf(Last(items))
  }

  function TextOf(item: Json): string
    requires TextBlock(item)
  {
    item.fields["text"].text
  }

  predicate TextBlock(item: Json) {
    && item.JObject? && "type" in item.fields && item.fields["type"] == JString("text")
    && "text" in item.fields && item.fields["text"].JString?
  }

  lemma {:induction false} LinesAre(items: seq<Json>)
    requires forall i | 0 <= i < |items| :: TextBlock(items[i])
    ensures TextLines(items) == JoinLines(items)
  {
    if |items| > 1 {
      LinesAre(Front(items));
    }
  }

  /** A prompt is a text, or text blocks that are not all blank, of at most 65536 characters. */
  lemma PromptOkExactly(value: Json)
    ensures PromptOk(value) <==>
            || (value.JString? && 0 < |value.text| <= 65536)
            || (value.JArray? && (forall i | 0 <= i < |value.items| :: TextBlock(value.items[i]))
                && 0 < |Strip(TextLines(value.items))| <= 65536)
  {
    if value.JArray? {
      forall i | 0 <= i < |value.items| ensures TextBlock(value.items[i]) <==> IsTextBlock(value.items[i]) {
      }
      if forall i | 0 <= i < |value.items| :: TextBlock(value.items[i]) {
        LinesAre(value.items);
      }
    }
  }

  // ---- Bodies that fit ----

  /** The response to a line is one its request can have. */
  predicate Fits(line: Line, body: Body) {
    match line
    case Blank => false
    case TooLarge => body == Failure(InvalidRequest)
    case Unparsable => body == Failure(ParseError)
    case Loaded(request) =>
      (match Parse(request)
       case Rejected(code) => body == Failure(code)
       case Refused(_, code) => body == Failure(code)
       case Accepted(_, Initialize) => body == Success
       case Accepted(_, NewSession(valid)) => (body == Success && valid) || body == Failure(InvalidParams)
       case Accepted(_, Prompt(_, _)) => body == Failure(InvalidParams) || body == Failure(InternalError) || body.PromptEnded?
       case Accepted(_, Cancel(_)) => body == Failure(InvalidParams) || body == Failure(InternalError) || body.CancelTaken?
       case Accepted(_, Other) => body == Failure(MethodNotFound))
  }

  predicate Calls(line: Line, call: Method) {
    line.Loaded? && Parse(line.request).Accepted? && Parse(line.request).call == call
  }

  predicate CallsPrompt(line: Line) {
    line.Loaded? && Parse(line.request).Accepted? && Parse(line.request).call.Prompt?
  }

  predicate CallsCancel(line: Line) {
    line.Loaded? && Parse(line.request).Accepted? && Parse(line.request).call.Cancel?
  }

  /** Where the main thread stands for the line it handles. */
  predicate Handles(pc: MainPc, line: Line) {
    match pc
    case Writing(_, body, _) => Fits(line, body)
    case Opening(valid) => Calls(line, NewSession(valid))
    case CheckActive(_) | TakeFlag(_) | SetActive(_) | ClearRun(_) | ClearCancel(_) | Spawn(_) => CallsPrompt(line)
    case MarkCancel(_) | ReadActive(_) | ReadRuntime(_) | ReadRun(_) | CallRuntime(_) | ReadStop(_, _) => CallsCancel(line)
    case _ => true
  }

  ghost predicate BodiesFit(s: Server) {
    && (MainPending(s.main) ==> s.lines != [] && Handles(s.main, Last(s.lines)))
    && (forall i | 0 <= i < |s.threads| :: s.threads[i].line < |s.lines| && CallsPrompt(s.lines[s.threads[i].line]))
    && (forall k | 0 <= k < |s.sent| :: s.sent[k].line < |s.lines| && Fits(s.lines[s.sent[k].line], s.sent[k].body))
  }

  lemma DispatchHandles(sessions: map<string, Binding>, line: Line)
    ensures var pc := Dispatch(sessions, line); MainPending(pc) ==> Handles(pc, line)
  {
  }

  lemma ReadFits(s: Server, input: Input)
    requires BodiesFit(s) && MainReady(s, input) && s.main.Reading? && input.Read?
    ensures BodiesFit(MainStep(s, input))
  {
    DispatchHandles(s.sessions, input.line);
    assert Last(s.lines + [input.line]) == input.line;
  }

  lemma WriteFits(s: Server, input: Input)
    requires BodiesFit(s) && MainReady(s, input) && s.main.Writing?
    ensures BodiesFit(MainStep(s, input))
  {
  }

  lemma SpawnFits(s: Server, input: Input)
    requires BodiesFit(s) && MainReady(s, input) && s.main.Spawn?
    ensures BodiesFit(MainStep(s, input))
  {
  }

  lemma MarkFits(s: Server, input: Input)
    requires BodiesFit(s) && MainReady(s, input) && s.main.MarkCancel?
    ensures BodiesFit(MainStep(s, input))
  {
    assert forall i | 0 <= i < |s.threads| :: AskedThreads(s.threads, s.main.session)[i].line == s.threads[i].line;
  }

  lemma OtherHandles(s: Server, input: Input)
    requires MainReady(s, input) && (MainPending(s.main) ==> s.lines != [] && Handles(s.main, Last(s.lines)))
    requires !s.main.Writing? && !s.main.Spawn? && !s.main.MarkCancel? && !(s.main.Reading? && input.Read?)
    ensures MainPending(MainStep(s, input).main) ==> s.lines != [] && Handles(MainStep(s, input).main, Last(s.lines))
  {
  }

  lemma OtherFits(s: Server, input: Input)
    requires BodiesFit(s) && MainReady(s, input)
    requires !s.main.Writing? && !s.main.Spawn? && !s.main.MarkCancel? && !(s.main.Reading? && input.Read?)
    ensures BodiesFit(MainStep(s, input))
  {
    OtherShape(s, input);
    OtherHandles(s, input);
  }

  lemma ThreadFits(s: Server, t: nat, input: ThreadInput)
    requires BodiesFit(s) && ThreadReady(s, t, input)
    ensures BodiesFit(ThreadStep(s, t, input))
  {
    var next := ThreadStep(s, t, input);
    ThreadShape(s, t, input);
    ThreadSends(s, t, input);
    assert forall i | 0 <= i < |s.threads| :: next.threads[i].line == s.threads[i].line;
  }

  lemma StepFits(s: Server, e: Event)
    requires BodiesFit(s) && Ready(s, e)
    ensures BodiesFit(Next(s, e))
  {
    match e
    case Worker(t, input) => ThreadFits(s, t, input);
    case Main(input) =>
      if s.main.Writing? {
        WriteFits(s, input);
      } else if s.main.Spawn? {
        SpawnFits(s, input);
      } else if s.main.MarkCancel? {
        MarkFits(s, input);
      } else if s.main.Reading? && input.Read? {
        ReadFits(s, input);
      } else {
        OtherFits(s, input);
      }
  }

  lemma {:induction false} ReachedFits(trace: seq<Server>, events: seq<Event>, i: nat)
    requires Run(trace, events) && i < |trace|
    ensures BodiesFit(trace[i])
  {
    if i > 0 {
      ReachedFits(trace, events, i - 1);
      assert Follows(trace, events, i - 1);
      StepFits(trace[i - 1], events[i - 1]);
    }
  }

  /** Under every interleaving: whatever has been sent fits the line it answers. */
  lemma EveryAnswerFits(trace: seq<Server>, events: seq<Event>, i: nat, k: nat)
    requires Run(trace, events) && i < |trace| && k < |trace[i].sent|
    ensures trace[i].sent[k].line < |trace[i].lines| && Fits(trace[i].lines[trace[i].sent[k].line], trace[i].sent[k].body)
  {
    ReachedFits(trace, events, i);
  }

  // ---- What decides on the response ----

  /** A session is opened exactly if the request may and there are fewer than 128; then it is there, unbound and idle. */
  lemma OpensExactly(s: Server, input: Input)
    requires MainReady(s, input) && s.main.Opening?
    ensures var next := MainStep(s, input);
            if s.main.valid && |s.sessions| < 128 then
              && next.main == Writing(false, Success, true)
              && next.sessions == s.sessions[input.session := Binding(None, None, false, false)]
            else next.main == Writing(false, Failure(InvalidParams), true) && next.sessions == s.sessions
  {
  }

  /** A prompt is handed on exactly if it names a session that is there, its text will do, the session is idle and no other prompt runs. */
  lemma PromptTakenExactly(s: Server, line: Line)
    requires CallsPrompt(line)
    ensures var call := Parse(line.request).call;
            if call.session.Some? && call.session.value in s.sessions && call.textOk
            then Dispatch(s.sessions, line) == CheckActive(call.session.value)
            else Dispatch(s.sessions, line) == Writing(false, Failure(InvalidParams), true)
  {
  }

  lemma ChecksExactly(s: Server)
    requires MainReady(s, Go)
    ensures s.main.CheckActive? ==>
              MainStep(s, Go) == s.(main := if s.sessions[s.main.session].active then Writing(false, Failure(InvalidParams), true)
                                            else TakeFlag(s.main.session))
    ensures s.main.TakeFlag? ==>
              MainStep(s, Go) == if s.promptActive then s.(main := Writing(false, Failure(InvalidParams), true))
                                 else s.(promptActive := true, main := SetActive(s.main.session))
  {
  }

  /** A cancel asks the runtime exactly if, one look after the other, it finds the session active, named and with a run; it tells what the runtime says. */
  lemma CancelAsksExactly(s: Server, input: Input)
    requires MainReady(s, input)
    ensures s.main.ReadActive? ==>
              MainStep(s, input).main == if s.sessions[s.main.session].active then ReadRuntime(s.main.session) else ReadStop(s.main.session, false)
    ensures s.main.ReadRuntime? ==>
              MainStep(s, input).main == if s.sessions[s.main.session].runtimeId.Some? then ReadRun(s.main.session) else ReadStop(s.main.session, false)
    ensures s.main.ReadRun? ==>
              MainStep(s, input).main == if s.sessions[s.main.session].runId.Some? then CallRuntime(s.main.session) else ReadStop(s.main.session, false)
    ensures s.main.CallRuntime? && input.CancelReturns? ==> MainStep(s, input).main == ReadStop(s.main.session, input.interrupted)
    ensures s.main.CallRuntime? && input.CancelRaises? ==>
              MainStep(s, input).main == Writing(false, Failure(if input.valueError then InvalidParams else InternalError), true)
    ensures s.main.ReadStop? ==>
              MainStep(s, input).main ==
              Writing(false, CancelTaken(s.main.interrupted, s.main.interrupted || s.sessions[s.main.session].active), true)
  {
  }

  /** A prompt fails because of its runtime exactly if some chunk told of a failure, or the last one's session had failed. */
  lemma ChunksTell(s: Server, t: nat)
    requires ThreadReady(s, t, Tick) && s.threads[t].pc.BindRun?
    ensures var th, next := s.threads[t], ThreadStep(s, t, Tick).threads[t];
            && next.failedStatus == th.pc.chunk.failedStatus
            && (next.failedEvent <==> th.failedEvent || th.pc.chunk.failedEvent)
            && next.pc == CheckBefore
  {
  }

  // ---- Names and runs of a session ----

  /** A name that the runtime has given a session is never changed, whatever step is taken. */
  lemma NameStays(s: Server, e: Event, session: string)
    requires Ready(s, e) && session in s.sessions && s.sessions[session].runtimeId.Some?
    ensures session in Next(s, e).sessions && Next(s, e).sessions[session].runtimeId == s.sessions[session].runtimeId
  {
    match e
    case Main(input) => MainKeepsName(s, input, session);
    case Worker(t, input) => WorkerKeepsName(s, t, input, session);
  }

  lemma MainKeepsName(s: Server, input: Input, session: string)
    requires MainReady(s, input) && session in s.sessions
    ensures session in MainStep(s, input).sessions && MainStep(s, input).sessions[session].runtimeId == s.sessions[session].runtimeId
  {
  }

  lemma WorkerKeepsName(s: Server, t: nat, input: ThreadInput, session: string)
    requires ThreadReady(s, t, input) && session in s.sessions && s.sessions[session].runtimeId.Some?
    ensures session in ThreadStep(s, t, input).sessions
    ensures ThreadStep(s, t, input).sessions[session].runtimeId == s.sessions[session].runtimeId
  {
  }

  /** A chunk names the session if it has no name yet, and gives it its run if it has none yet. */
  lemma ChunkNames(s: Server, t: nat)
    requires ThreadReady(s, t, Tick)
    ensures s.threads[t].pc.BindRuntime? ==>
              var x := s.threads[t].session;
              ThreadStep(s, t, Tick).sessions[x] ==
              if s.sessions[x].runtimeId.Some? then s.sessions[x] else s.sessions[x].(runtimeId := Some(s.threads[t].pc.chunk.runtimeId))
    ensures s.threads[t].pc.BindRun? ==>
              var x := s.threads[t].session;
              ThreadStep(s, t, Tick).sessions[x] ==
              if s.sessions[x].runId.Some? then s.sessions[x] else s.sessions[x].(runId := s.threads[t].pc.chunk.runId)
  {
  }

  /** May a prompt of the session still have a run on record: is it past its start and before it forgets the run? */
  predicate MayHaveRun(pc: ThreadPc) {
    !pc.ReleaseFlag? && !pc.Dead?
  }

  ghost predicate SomeRun(threads: seq<Thread>, session: string) {
    exists i :: 0 <= i < |threads| && threads[i].session == session && MayHaveRun(threads[i].pc)
  }

  /** A session without a prompt under way has no run on record. */
  ghost predicate RunsForgotten(s: Server) {
    forall x | x in s.sessions && s.sessions[x].runId.Some? :: SomeRun(s.threads, x)
  }

  lemma MainForgets(s: Server, input: Input)
    requires RunsForgotten(s) && MainReady(s, input)
    ensures RunsForgotten(MainStep(s, input))
  {
    var next := MainStep(s, input);
    MainLeavesRuns(s, input);
    forall x | x in next.sessions && next.sessions[x].runId.Some? ensures SomeRun(next.threads, x) {
      var i :| 0 <= i < |s.threads| && s.threads[i].session == x && MayHaveRun(s.threads[i].pc);
      assert next.threads[i].session == x && next.threads[i].pc == s.threads[i].pc;
    }
  }

  /** The main thread gives no session a run, and leaves every prompt's session and place. */
  lemma MainLeavesRuns(s: Server, input: Input)
    requires MainReady(s, input)
    ensures var next := MainStep(s, input);
            && (forall x | x in next.sessions && next.sessions[x].runId.Some? :: x in s.sessions && s.sessions[x].runId.Some?)
            && |s.threads| <= |next.threads|
            && (forall i | 0 <= i < |s.threads| :: next.threads[i].session == s.threads[i].session && next.threads[i].pc == s.threads[i].pc)
  {
  }

  lemma ThreadForgets(s: Server, t: nat, input: ThreadInput)
    requires Exclusive(s) && RunsForgotten(s) && ThreadReady(s, t, input)
    ensures RunsForgotten(ThreadStep(s, t, input))
  {
    var next, own := ThreadStep(s, t, input), s.threads[t].session;
    ThreadShape(s, t, input);
    OwnRun(s, t, input);
    Alone(s, t);
    forall x | x in next.sessions && next.sessions[x].runId.Some? ensures SomeRun(next.threads, x) {
      assert x == own ==> next.threads[t].session == x;
    }
  }

  /** Once a prompt has forgotten its run there is none. */
  lemma OwnRun(s: Server, t: nat, input: ThreadInput)
    requires ThreadReady(s, t, input)
    ensures var next, x := ThreadStep(s, t, input), s.threads[t].session;
            && x in next.sessions
            && (!MayHaveRun(next.threads[t].pc) ==> next.sessions[x].runId.None? || (s.threads[t].pc.ReleaseFlag? && next.sessions == s.sessions))
  {
    var pc := s.threads[t].pc;
    if pc.ForgetRun? || pc.ReleaseFlag? {
      ForgettingRun(s, t, input);
    } else if pc.Answering? || pc.Raised? || pc.Deactivate? {
      AnsweringRun(s, t, input);
    } else if pc.BindRuntime? || pc.BindRun? {
      BindingRun(s, t, input);
    } else if !pc.Dead? {
      StreamingRun(s, t, input);
    }
  }

  lemma BindingRun(s: Server, t: nat, input: ThreadInput)
    requires ThreadReady(s, t, input) && (s.threads[t].pc.BindRuntime? || s.threads[t].pc.BindRun?)
    ensures s.threads[t].session in ThreadStep(s, t, input).sessions && MayHaveRun(ThreadStep(s, t, input).threads[t].pc)
  {
  }

  lemma ForgettingRun(s: Server, t: nat, input: ThreadInput)
    requires ThreadReady(s, t, input) && (s.threads[t].pc.ForgetRun? || s.threads[t].pc.ReleaseFlag?)
    ensures var next, x := ThreadStep(s, t, input), s.threads[t].session;
            x in next.sessions && (next.sessions[x].runId.None? || (s.threads[t].pc.ReleaseFlag? && next.sessions == s.sessions))
  {
  }

  lemma AnsweringRun(s: Server, t: nat, input: ThreadInput)
    requires ThreadReady(s, t, input) && (s.threads[t].pc.Answering? || s.threads[t].pc.Raised? || s.threads[t].pc.Deactivate?)
    ensures s.threads[t].session in ThreadStep(s, t, input).sessions && MayHaveRun(ThreadStep(s, t, input).threads[t].pc)
  {
  }

  lemma StreamingRun(s: Server, t: nat, input: ThreadInput)
    requires ThreadReady(s, t, input)
    requires var pc := s.threads[t].pc;
             pc.Starting? || pc.CheckBefore? || pc.NextChunk? || pc.CheckAfter? || pc.CheckBound? || pc.CheckLast?
    ensures s.threads[t].session in ThreadStep(s, t, input).sessions && MayHaveRun(ThreadStep(s, t, input).threads[t].pc)
  {
  }

  lemma {:induction false} ReachedForgets(trace: seq<Server>, events: seq<Event>, i: nat)
    requires Run(trace, events) && i < |trace|
    ensures RunsForgotten(trace[i])
  {
    if i > 0 {
      ReachedForgets(trace, events, i - 1);
      Reached(trace, events, i - 1);
      assert Follows(trace, events, i - 1);
      match events[i - 1]
      case Main(input) => MainForgets(trace[i - 1], input);
      case Worker(t, input) => ThreadForgets(trace[i - 1], t, input);
    }
  }

  /** Under every interleaving: a session has a run on record only while a prompt of it is under way. */
  lemma RunsAreForgotten(trace: seq<Server>, events: seq<Event>, i: nat, session: string)
    requires Run(trace, events) && i < |trace| && session in trace[i].sessions
    requires forall t | 0 <= t < |trace[i].threads| && trace[i].threads[t].session == session :: trace[i].threads[t].pc.Dead?
    ensures trace[i].sessions[session].runId == None
  {
    ReachedForgets(trace, events, i);
  }

  /** Three steps prepare a session for its prompt: it is active, and neither a run nor a cancel is on record. */
  lemma PreparesExactly(s: Server, session: string)
    requires s.main == SetActive(session) && MainReady(s, Go)
    ensures var one := MainStep(s, Go);
            && MainReady(one, Go) && MainReady(MainStep(one, Go), Go)
            && var three := MainStep(MainStep(one, Go), Go);
               && three.main == Spawn(session)
               && three.sessions[session] == s.sessions[session].(active := true, runId := None, cancelRequested := false)
               && forall x | x in s.sessions && x != session :: x in three.sessions && three.sessions[x] == s.sessions[x]
  {
  }
}
