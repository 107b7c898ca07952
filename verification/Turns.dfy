/** The values that travel between the turn engine, its host and the fact store. */
module Turns {
  import opened Basics

  datatype Json =
    | JNull
    | JBool(flag: bool)
    | JNumber(number: int)
    | JString(text: string)
    | JArray(items: seq<Json>)
    | JObject(fields: map<string, Json>)

  datatype ToolCall = ToolCall(toolName: string, arguments: map<string, Json>, toolCallId: Option<string>)

  datatype ToolResult = ToolResult(toolName: string, ok: bool, output: Option<string>, error: Option<string>)

  datatype ReportedCall = ReportedCall(
    toolCallId: string,
    finalToolName: string,
    authorizedArguments: map<string, Json>,
    result: ToolResult)

  /** A continuation: the calls of one batch, and how many of them already have reports. */
  datatype CallSeed = CallSeed(
    calls: seq<ToolCall>,
    reasoning: Option<string>,
    completedReports: seq<ReportedCall>,
    runStep: Option<int>)

  datatype Phase = Plan | Finalize

  datatype TurnFact =
    | LoopStepFact(step: int, phase: Phase)
    | ModelTurnFact(turn: int, prompt: string)
    | ResponseReadyFact(preview: string)
    | StreamFact(payload: string)
    | ToolRequestedFact(call: ToolCall)
    | ToolCompletedFact(report: ReportedCall, batch: Option<CallSeed>)

  datatype TurnPlan =
    | ToolTurn(calls: seq<ToolCall>, facts: seq<TurnFact>, reasoning: Option<string>)
    | FinalTurn(output: string, facts: seq<TurnFact>, reasoning: Option<string>)

  /** Facts that open or close the execution of a call. */
  predicate IsExecution(f: TurnFact) {
    f.ToolRequestedFact? || f.ToolCompletedFact?
  }

  /** The identity an execution fact carries. */
  function CallIdOf(f: TurnFact): Option<string>
    requires IsExecution(f)
  {
    if f.ToolRequestedFact? then f.call.toolCallId else Some(f.report.toolCallId)
  }

  /** Python's truth test on an optional identity: absent and empty are both false. */
  predicate HasIdentity(id: Option<string>) {
    id.Some? && id.value != ""
  }

  /** What `report_call` and the checks of `ReportedCall` produce; None when one of them raises. */
  function ReportCall(call: ToolCall, result: ToolResult, finalToolName: string): Option<ReportedCall> {
    if !HasIdentity(call.toolCallId) || result.toolName != finalToolName then None
    else Some(ReportedCall(call.toolCallId.value, finalToolName, call.arguments, result))
  }

  /** A report of a call: under its identity and with its arguments, what the tool returned under the name it ran by. */
  predicate Tells(report: ReportedCall, call: ToolCall, result: ToolResult, finalToolName: string) {
    && Some(report.toolCallId) == call.toolCallId && report.finalToolName == finalToolName
    && report.authorizedArguments == call.arguments && report.result == result
  }

  /** A call is reported exactly if it has an identity and the result names the tool that ran; nothing of the result is lost. */
  lemma ReportExactly(call: ToolCall, result: ToolResult, finalToolName: string)
    ensures var report := ReportCall(call, result, finalToolName);
            && (report.Some? <==> HasIdentity(call.toolCallId) && result.toolName == finalToolName)
            && (report.Some? ==> Tells(report.value, call, result, finalToolName))
  {
  }

  function CallIds(calls: seq<ToolCall>): (ids: seq<Option<string>>)
    ensures |ids| == |calls|
    ensures forall i | 0 <= i < |calls| :: ids[i] == calls[i].toolCallId
  {
    seq(|calls|, i requires 0 <= i < |calls| => calls[i].toolCallId)
  }

  function ReportIds(reports: seq<ReportedCall>): (ids: seq<Option<string>>)
    ensures |ids| == |reports|
    ensures forall i | 0 <= i < |reports| :: ids[i] == Some(reports[i].toolCallId)
  {
    seq(|reports|, i requires 0 <= i < |reports| => Some(reports[i].toolCallId))
  }

  /** The reports answer the first calls, in order. */
  predicate IsIdPrefix(reports: seq<ReportedCall>, calls: seq<ToolCall>) {
    |reports| <= |calls| && ReportIds(reports) == CallIds(calls)[..|reports|]
  }

  datatype Completion = Completion(report: ReportedCall, batch: Option<CallSeed>)

  /** The completions among some facts, in order. */
  function Completions(facts: seq<TurnFact>): (done: seq<Completion>)
  {
    if facts == [] then []
    else if Last(facts).ToolCompletedFact? then
      Completions(Front(facts)) + [Completion(Last(facts).report, Last(facts).batch)]
    else Completions(Front(facts))
  }

  /** The facts recorded after the last completion (all of them when there is none). */
  function AfterLastCompletion(facts: seq<TurnFact>): (tail: seq<TurnFact>)
  {
    if facts == [] || Last(facts).ToolCompletedFact? then []
    else AfterLastCompletion(Front(facts)) + [Last(facts)]
  }
}
