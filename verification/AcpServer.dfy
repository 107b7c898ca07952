/**
 The stdio server of the agent client protocol: its main thread and its prompt threads as interleaved
 atomic steps, one for each access to what they share.
 */
module AcpServer {
  import opened Basics
  import opened Turns
  import opened Lines

  const MAX_PROMPT_CHARS := 65536
  const MAX_SESSIONS := 128

  // ---- Requests ----

  datatype RpcId = Name(text: string) | Number(number: int)

  /** A line of input, after the size check and the JSON parser. */
  datatype Line = Blank | TooLarge | Unparsable | Loaded(request: Json)

  datatype ErrorCode = ParseError | InvalidRequest | MethodNotFound | InvalidParams | InternalError

  function Field(fields: map<string, Json>, name: string): Json {
    if name in fields then fields[name] else JNull
  }

  /** The identity of a request, absent and null alike; the outer None stands for an invalid one. */
  function RequestId(value: Json): Option<Option<RpcId>> {
    match value
    case JNull => Some(None)
    case JString(text) => Some(Some(Name(text)))
    case JNumber(number) => Some(Some(Number(number)))
    case _ => None
  }

  datatype Method = Initialize | NewSession(valid: bool) | Prompt(session: Option<string>, textOk: bool) | Cancel(session: Option<string>) | Other

  datatype Parsed =
    | Rejected(code: ErrorCode)                                  // answered even without an identity
    | Refused(id: Option<RpcId>, code: ErrorCode)
    | Accepted(id: Option<RpcId>, call: Method)

  function RequiredString(params: map<string, Json>, name: string): Option<string> {
    match Field(params, name)
    case JString(text) => if text == "" then None else Some(text)
    case _ => None
  }

  predicate IsTextBlock(item: Json) {
    item.JObject? && Field(item.fields, "type") == JString("text") && Field(item.fields, "text").JString?
  }

  function BlockText(item: Json): string {
    if IsTextBlock(item) then Field(item.fields, "text").text else ""
  }

  function JoinLines(items: seq<Json>): string {
    if items == [] then ""
    else if |items| == 1 then BlockText(items[0])
    else JoinLines(Front(items)) + "\n" + BlockText(Last(items))
  }

  /** Is this a prompt the server takes: a text, or a list of text blocks, neither empty nor too long? */
  predicate PromptOk(value: Json) {
    match value
    case JString(text) => text != "" && |text| <= MAX_PROMPT_CHARS
    case JArray(items) =>
      && (forall i | 0 <= i < |items| :: IsTextBlock(items[i]))
      && Strip(JoinLines(items)) != "" && |Strip(JoinLines(items))| <= MAX_PROMPT_CHARS
    case _ => false
  }

  function MethodOf(name: string, params: map<string, Json>): Method {
    if name == "initialize" then Initialize
    else if name == "session/new" then
      NewSession(var servers := if "mcpServers" in params then params["mcpServers"] else JArray([]); servers == JArray([]))
    else if name == "session/prompt" then
      Prompt(RequiredString(params, "sessionId"), PromptOk(Field(params, "prompt")))
    else if name == "session/cancel" then Cancel(RequiredString(params, "sessionId"))
    else Other
  }

  function Parse(request: Json): Parsed {
    if !request.JObject? then Rejected(InvalidRequest)
    else
      var id := RequestId(Field(request.fields, "id"));
      if id.None? then Rejected(InvalidRequest)
      else if Field(request.fields, "jsonrpc") != JString("2.0") then Refused(id.value, InvalidRequest)
      else
        match Field(request.fields, "method")
        case JString(name) =>
          if name == "" then Refused(id.value, InvalidRequest)
          else
            (match Field(request.fields, "params")
             case JNull => Accepted(id.value, MethodOf(name, map[]))
             case JObject(params) => Accepted(id.value, MethodOf(name, params))
             case _ => Refused(id.value, InvalidParams))
        case _ => Refused(id.value, InvalidRequest)
  }

  /** The identity a line is answered under. */
  function IdOf(line: Line): Option<RpcId> {
    if !line.Loaded? then None
    else match Parse(line.request) case Rejected(_) => None case Refused(id, _) => id case Accepted(id, _) => id
  }

  /** Must a line be answered? One that cannot be attributed must; a well-formed one if it has an identity. */
  predicate Owed(line: Line) {
    match line
    case Blank => false
    case TooLarge | Unparsable => true
    case Loaded(request) => Parse(request).Rejected? || IdOf(line).Some?
  }

  // ---- State ----

  datatype Binding = Binding(runtimeId: Option<string>, runId: Option<string>, active: bool, cancelRequested: bool)

  datatype Body =
    | Failure(code: ErrorCode)
    | Success
    | PromptEnded(cancelled: bool)
    | CancelTaken(interrupted: bool, running: bool)

  /** A response, with the number of the line it answers. */
  datatype Answer = Answer(line: nat, id: Option<RpcId>, body: Body)

  datatype ThreadPc =
    | Starting
    | CheckBefore
    | NextChunk
    | CheckAfter(chunk: Chunk)
    | BindRuntime(chunk: Chunk)
    | BindRun(chunk: Chunk)
    | CheckBound
    | CheckLast
    | Answering
    | Raised
    | Deactivate
    | ForgetRun
    | ReleaseFlag
    | Dead

  datatype Chunk = Chunk(runtimeId: string, runId: Option<string>, failedStatus: bool, failedEvent: bool)

  /** `asked` is history: has a cancel reached the session since the thread was started? */
  datatype Thread = Thread(line: nat, session: string, pc: ThreadPc, cancelled: bool, failedEvent: bool, failedStatus: bool, asked: bool)

  datatype MainPc =
    | Reading
    | Writing(always: bool, body: Body, scan: bool)
    | Opening(valid: bool)
    | CheckActive(session: string)
    | TakeFlag(session: string)
    | SetActive(session: string)
    | ClearRun(session: string)
    | ClearCancel(session: string)
    | Spawn(session: string)
    | MarkCancel(session: string)
    | ReadActive(session: string)
    | ReadRuntime(session: string)
    | ReadRun(session: string)
    | CallRuntime(session: string)
    | ReadStop(session: string, interrupted: bool)
    | ScanThreads
    | JoinAll(rest: seq<nat>)
    | Exited

  datatype Server = Server(
    lines: seq<Line>,
    sessions: map<string, Binding>,
    promptActive: bool,
    threads: seq<Thread>,
    promptThreads: seq<nat>,
    main: MainPc,
    sent: seq<Answer>)

  const INITIAL := Server([], map[], false, [], [], Reading, [])

  // ---- The main thread ----

  datatype Input =
    | Read(line: Line)
    | EndOfInput
    | NewId(session: string)
    | CancelReturns(interrupted: bool)
    | CancelRaises(valueError: bool)
    | Go

  /** What follows once a line is parsed; a ValueError of a cancel without identity is only logged. */
  function Dispatch(sessions: map<string, Binding>, line: Line): MainPc {
    match line
    case Blank => Reading
    case TooLarge => Writing(true, Failure(InvalidRequest), false)
    case Unparsable => Writing(true, Failure(ParseError), false)
    case Loaded(request) =>
      (match Parse(request)
      case Rejected(code) => Writing(true, Failure(code), false)
      case Refused(_, code) => Writing(false, Failure(code), false)
      case Accepted(_, Initialize) => Writing(false, Success, true)
      case Accepted(_, NewSession(valid)) => Opening(valid)
      case Accepted(_, Prompt(session, textOk)) =>
        if session.Some? && textOk && session.value in sessions then CheckActive(session.value)
        else Writing(false, Failure(InvalidParams), true)
      case Accepted(_, Cancel(session)) =>
        if session.Some? && session.value in sessions then MarkCancel(session.value)
        else Writing(false, Failure(InvalidParams), true)
      case Accepted(_, Other) => Writing(false, Failure(MethodNotFound), true))
  }

  /** The session a step of the main thread is about. */
  function SessionOf(pc: MainPc): Option<string> {
    match pc
    case CheckActive(x) => Some(x)
    case TakeFlag(x) => Some(x)
    case SetActive(x) => Some(x)
    case ClearRun(x) => Some(x)
    case ClearCancel(x) => Some(x)
    case Spawn(x) => Some(x)
    case MarkCancel(x) => Some(x)
    case ReadActive(x) => Some(x)
    case ReadRuntime(x) => Some(x)
    case ReadRun(x) => Some(x)
    case CallRuntime(x) => Some(x)
    case ReadStop(x, _) => Some(x)
    case _ => None
  }

  /** The inputs a step of the main thread can meet; joining waits for the thread to die. */
  predicate MainReady(s: Server, input: Input) {
    && (SessionOf(s.main).Some? ==> SessionOf(s.main).value in s.sessions)
    && (s.main.Writing? || s.main.Spawn? ==> s.lines != [])
    && match s.main
       case Reading => input.Read? || input.EndOfInput?
       case Opening(_) => input.NewId? && input.session !in s.sessions
       case CallRuntime(_) => input.CancelReturns? || input.CancelRaises?
       case ScanThreads => input.Go? && forall i | 0 <= i < |s.promptThreads| :: s.promptThreads[i] < |s.threads|
       case JoinAll(rest) => input.Go? && (rest != [] ==> rest[0] < |s.threads| && s.threads[rest[0]].pc.Dead?)
       case Exited => false
       case _ => input.Go?
  }

  function Alive(list: seq<nat>, threads: seq<Thread>): seq<nat>
    requires forall i | 0 <= i < |list| :: list[i] < |threads|
  {
    if list == [] then []
    else Alive(Front(list), threads) + (if threads[Last(list)].pc.Dead? then [] else [Last(list)])
  }

  function Respond(s: Server, line: nat, always: bool, body: Body): seq<Answer>
    requires line < |s.lines|
  {
    var id := IdOf(s.lines[line]);
    if id.None? && !always then s.sent else s.sent + [Answer(line, id, body)]
  }

  function AskedThreads(threads: seq<Thread>, session: string): (asked: seq<Thread>)
    ensures |asked| == |threads|
    ensures forall i | 0 <= i < |threads| ::
              asked[i] == if threads[i].session == session then threads[i].(asked := true) else threads[i]
  {
    seq(|threads|, i requires 0 <= i < |threads| =>
      if threads[i].session == session then threads[i].(asked := true) else threads[i])
  }

  function MainStep(s: Server, input: Input): Server
    requires MainReady(s, input)
  {
    match s.main
    case Reading =>
      if input.EndOfInput? then s.(main := JoinAll(s.promptThreads))
      else s.(lines := s.lines + [input.line], main := Dispatch(s.sessions, input.line))
    case Writing(always, body, scan) =>
      s.(sent := Respond(s, |s.lines| - 1, always, body), main := if scan then ScanThreads else Reading)
    case Opening(valid) =>
      if |s.sessions| >= MAX_SESSIONS || !valid then s.(main := Writing(false, Failure(InvalidParams), true))
      else s.(sessions := s.sessions[input.session := Binding(None, None, false, false)], main := Writing(false, Success, true))
    case CheckActive(x) =>
      s.(main := if s.sessions[x].active then Writing(false, Failure(InvalidParams), true) else TakeFlag(x))
    case TakeFlag(x) =>
      if s.promptActive then s.(main := Writing(false, Failure(InvalidParams), true))
      else s.(promptActive := true, main := SetActive(x))
    case SetActive(x) => s.(sessions := s.sessions[x := s.sessions[x].(active := true)], main := ClearRun(x))
    case ClearRun(x) => s.(sessions := s.sessions[x := s.sessions[x].(runId := None)], main := ClearCancel(x))
    case ClearCancel(x) => s.(sessions := s.sessions[x := s.sessions[x].(cancelRequested := false)], main := Spawn(x))
    case Spawn(x) =>
      s.(threads := s.threads + [Thread(|s.lines| - 1, x, Starting, false, false, false, false)],
         promptThreads := s.promptThreads + [|s.threads|],
         main := ScanThreads)
    case MarkCancel(x) =>
      s.(sessions := s.sessions[x := s.sessions[x].(cancelRequested := true)],
         threads := AskedThreads(s.threads, x),
         main := ReadActive(x))
    case ReadActive(x) => s.(main := if s.sessions[x].active then ReadRuntime(x) else ReadStop(x, false))
    case ReadRuntime(x) => s.(main := if s.sessions[x].runtimeId.Some? then ReadRun(x) else ReadStop(x, false))
    case ReadRun(x) => s.(main := if s.sessions[x].runId.Some? then CallRuntime(x) else ReadStop(x, false))
    case CallRuntime(x) =>
      s.(main := if input.CancelRaises? then Writing(false, Failure(if input.valueError then InvalidParams else InternalError), true)
                  else ReadStop(x, input.interrupted))
    case ReadStop(x, interrupted) =>
      s.(main := Writing(false, CancelTaken(interrupted, interrupted || s.sessions[x].active), true))
    case ScanThreads => s.(promptThreads := Alive(s.promptThreads, s.threads), main := Reading)
    case JoinAll(rest) =>
      if rest == [] then s.(promptThreads := [], main := Exited) else s.(main := JoinAll(rest[1..]))
  }

  // ---- A prompt thread ----

  datatype ThreadInput = Tick | Yields(chunk: Chunk) | Ends | Raises

  predicate ThreadReady(s: Server, t: nat, input: ThreadInput) {
    && t < |s.threads| && s.threads[t].session in s.sessions && s.threads[t].line < |s.lines|
    && match s.threads[t].pc
       case Starting => input.Tick? || input.Raises?
       case NextChunk => input.Yields? || input.Ends? || input.Raises?
       case Dead => false
       case _ => input.Tick?
  }

  function WithThread(s: Server, t: nat, thread: Thread): Server
    requires t < |s.threads|
  {
    s.(threads := s.threads[t := thread])
  }

  function WithBinding(s: Server, x: string, b: Binding): Server {
    s.(sessions := s.sessions[x := b])
  }

  function ThreadStep(s: Server, t: nat, input: ThreadInput): Server
    requires ThreadReady(s, t, input)
  {
    var th := s.threads[t];
    var b := s.sessions[th.session];
    match th.pc
    case Starting => WithThread(s, t, th.(pc := if input.Raises? then Raised else CheckBefore))
    case CheckBefore =>
      WithThread(s, t, if b.cancelRequested then th.(cancelled := true, pc := CheckBound) else th.(pc := NextChunk))
    case NextChunk =>
      WithThread(s, t, th.(pc := match input case Yields(chunk) => CheckAfter(chunk) case Ends => CheckBound case _ => Raised))
    case CheckAfter(chunk) =>
      WithThread(s, t, if b.cancelRequested then th.(cancelled := true, pc := CheckBound) else th.(pc := BindRuntime(chunk)))
    case BindRuntime(chunk) =>
      WithThread(WithBinding(s, th.session, if b.runtimeId.None? then b.(runtimeId := Some(chunk.runtimeId)) else b),
                 t, th.(pc := BindRun(chunk)))
    case BindRun(chunk) =>
      WithThread(WithBinding(s, th.session, if b.runId.None? then b.(runId := chunk.runId) else b),
                 t, th.(pc := CheckBefore, failedStatus := chunk.failedStatus, failedEvent := th.failedEvent || chunk.failedEvent))
    case CheckBound => WithThread(s, t, th.(pc := if b.runtimeId.None? then Raised else CheckLast))
    case CheckLast => WithThread(s, t, th.(pc := Answering, cancelled := th.cancelled || b.cancelRequested))
    case Answering =>
      var body := if th.failedEvent || th.failedStatus then Failure(InternalError) else PromptEnded(th.cancelled);
      WithThread(s.(sent := Respond(s, th.line, false, body)), t, th.(pc := Deactivate))
    case Raised =>
      WithThread(s.(sent := Respond(s, th.line, false, Failure(InternalError))), t, th.(pc := Deactivate))
    case Deactivate => WithThread(WithBinding(s, th.session, b.(active := false)), t, th.(pc := ForgetRun))
    case ForgetRun => WithThread(WithBinding(s, th.session, b.(runId := None)), t, th.(pc := ReleaseFlag))
    case ReleaseFlag => WithThread(s.(promptActive := false), t, th.(pc := Dead))
  }

  // ---- Runs ----

  datatype Event = Main(input: Input) | Worker(thread: nat, step: ThreadInput)

  predicate Ready(s: Server, e: Event) {
    match e
    case Main(input) => MainReady(s, input)
    case Worker(t, input) => ThreadReady(s, t, input)
  }

  function Next(s: Server, e: Event): Server
    requires Ready(s, e)
  {
    match e
    case Main(input) => MainStep(s, input)
    case Worker(t, input) => ThreadStep(s, t, input)
  }
}
