/** From the events of a provider's stream to one turn: accumulation, parsing, ordering and merging of calls. */
module StreamAssembly {
  import opened Basics
  import opened Turns
  import opened Lines
  import opened Sorting

  const PREVIEW_LIMIT: nat := 65536

  datatype Kind = Delta | Content | CallStart | CallDelta | CallEnd | ErrorKind | DoneKind

  datatype Channel = TextChannel | ToolChannel | ReasoningChannel | ErrorChannel

  datatype DoneReason = Stop | ToolCalls | FunctionCall | Length | ContentFilter | DoneCompleted | Unknown | Cancelled | Errored | Unlisted

  datatype StreamEvent = StreamEvent(
    kind: Kind,
    channel: Channel,
    text: Option<string>,
    cancelledError: bool,
    doneReason: Option<DoneReason>,
    callId: Option<string>,
    toolName: Option<string>,
    argumentsDelta: Option<string>,
    ordinal: Option<int>,
    parsedArguments: Option<map<string, Json>>)

  datatype CallState = CallState(
    toolName: Option<string>,
    ordinal: int,
    streamOrder: nat,
    fragments: seq<string>,
    previewFragments: seq<string>,
    previewChars: nat,
    parsed: Option<map<string, Json>>,
    ended: bool)

  /** Why the loop over the stream stopped: a done event, or an error event. */
  datatype Ending = Reached(reason: Option<DoneReason>) | Broken(cancelled: bool)

  /** `ids` holds the keys of `calls` in the order they were entered. */
  datatype Accumulator = Accumulator(
    output: seq<string>,
    reasoning: seq<string>,
    payload: seq<string>,
    payloadOrder: nat,
    ids: seq<string>,
    calls: map<string, CallState>,
    index: nat,
    ending: Option<Ending>)

  const EMPTY := Accumulator([], [], [], 0, [], map[], 0, None)

  predicate IsCallEvent(e: StreamEvent) {
    e.kind.CallStart? || e.kind.CallDelta? || e.kind.CallEnd?
  }

  predicate IsTextEvent(e: StreamEvent, channel: Channel) {
    (e.kind.Delta? || e.kind.Content?) && e.channel == channel && e.text.Some?
  }

  function Min(a: nat, b: nat): nat {
    if a < b then a else b
  }

  // ---- One event ----

  function NewCall(e: StreamEvent, known: nat, index: nat): CallState {
    CallState(e.toolName, if e.ordinal.Some? then e.ordinal.value else known, index, [], [], 0, None, false)
  }

  /** The preview takes what still fits of a fragment. */
  function AddFragment(st: CallState, delta: string): CallState {
    if st.previewChars < PREVIEW_LIMIT then
      var kept := delta[..Min(|delta|, PREVIEW_LIMIT - st.previewChars)];
      st.(fragments := st.fragments + [delta],
          previewFragments := st.previewFragments + [kept],
          previewChars := st.previewChars + |kept|)
    else st.(fragments := st.fragments + [delta])
  }

  function Grow(st: CallState, e: StreamEvent): CallState {
    if e.argumentsDelta.Some? then AddFragment(st, e.argumentsDelta.value) else st
  }

  function Mark(st: CallState, e: StreamEvent): CallState {
    st.(toolName := if e.toolName.Some? then e.toolName else st.toolName,
        parsed := if e.parsedArguments.Some? then e.parsedArguments else st.parsed,
        ended := st.ended || e.kind.CallEnd?)
  }

  function UpdateCall(st: CallState, e: StreamEvent): CallState {
    Mark(Grow(st, e), e)
  }

  function FeedCall(acc: Accumulator, e: StreamEvent): Accumulator {
    if !IsCallEvent(e) || e.callId.None? then acc
    else
      var id := e.callId.value;
      var known := id in acc.calls;
      var st := if known then acc.calls[id] else NewCall(e, |acc.ids|, acc.index);
      acc.(ids := if known then acc.ids else acc.ids + [id], calls := acc.calls[id := UpdateCall(st, e)])
  }

  function FeedText(acc: Accumulator, e: StreamEvent): Accumulator {
    if IsTextEvent(e, TextChannel) then acc.(output := acc.output + [e.text.value])
    else if IsTextEvent(e, ReasoningChannel) then acc.(reasoning := acc.reasoning + [e.text.value])
    else if IsTextEvent(e, ToolChannel) then acc.(payload := acc.payload + [e.text.value], payloadOrder := acc.index)
    else acc
  }

  function FeedEnding(acc: Accumulator, e: StreamEvent): Accumulator {
    if e.kind.ErrorKind? then acc.(ending := Some(Broken(e.cancelledError)))
    else if e.kind.DoneKind? then acc.(ending := Some(Reached(e.doneReason)))
    else acc
  }

  function Feed(acc: Accumulator, e: StreamEvent): Accumulator {
    if acc.ending.Some? then acc
    else
      var fed := FeedEnding(FeedText(FeedCall(acc, e), e), e);
      fed.(index := acc.index + 1)
  }

  function FeedAll(acc: Accumulator, events: seq<StreamEvent>): Accumulator
    decreases |events|
  {
    if events == [] then acc else FeedAll(Feed(acc, events[0]), events[1..])
  }

  lemma {:induction false} FeedConcat(acc: Accumulator, first: seq<StreamEvent>, second: seq<StreamEvent>)
    ensures FeedAll(acc, first + second) == FeedAll(FeedAll(acc, first), second)
    decreases |first|
  {
    if first == [] {
      assert first + second == second;
    } else {
      assert (first + second)[1..] == first[1..] + second;
      FeedConcat(Feed(acc, first[0]), first[1..], second);
    }
  }

  lemma FeedAfterEnding(acc: Accumulator, events: seq<StreamEvent>)
    requires acc.ending.Some?
    ensures FeedAll(acc, events) == acc
    decreases |events|
  {
    if events != [] {
      FeedAfterEnding(acc, events[1..]);
    }
  }

  // ---- What an accumulator always holds ----

  function Concat(parts: seq<string>): string {
    if parts == [] then "" else Concat(Front(parts)) + Last(parts)
  }

  function Take(s: string, n: nat): string {
    s[..Min(n, |s|)]
  }

  /** The preview is the beginning of the arguments. */
  ghost predicate PreviewOk(st: CallState) {
    && Concat(st.previewFragments) == Take(Concat(st.fragments), PREVIEW_LIMIT)
    && st.previewChars == |Concat(st.previewFragments)|
  }

  lemma AddFragmentKeepsPreview(st: CallState, delta: string)
    requires PreviewOk(st)
    ensures PreviewOk(AddFragment(st, delta))
  {
    var grown := AddFragment(st, delta);
    assert Front(grown.fragments) == st.fragments;
    if st.previewChars < PREVIEW_LIMIT {
      assert Front(grown.previewFragments) == st.previewFragments;
      assert Concat(st.previewFragments) == Concat(st.fragments);
    }
  }

  ghost predicate PreviewsOk(calls: map<string, CallState>) {
    forall id | id in calls :: PreviewOk(calls[id])
  }

  ghost predicate OrdersGrow(ids: seq<string>, calls: map<string, CallState>) {
    && (forall i | 0 <= i < |ids| :: ids[i] in calls)
    && (forall i, j | 0 <= i < j < |ids| :: calls[ids[i]].streamOrder < calls[ids[j]].streamOrder)
  }

  /** The calls were entered in the order of their first events, and never at the index of a tool payload. */
  ghost predicate OrdersOk(acc: Accumulator) {
    && AllDifferent(acc.ids)
    && (forall id :: id in acc.ids <==> id in acc.calls)
    && OrdersGrow(acc.ids, acc.calls)
    && (forall id | id in acc.calls :: acc.calls[id].streamOrder < acc.index)
    && acc.payloadOrder <= acc.index
    && (acc.payload != [] ==>
          acc.payloadOrder < acc.index && forall id | id in acc.calls :: acc.calls[id].streamOrder != acc.payloadOrder)
  }

  ghost predicate AccumulatorOk(acc: Accumulator) {
    OrdersOk(acc) && PreviewsOk(acc.calls)
  }

  lemma MarkKeepsPreview(st: CallState, e: StreamEvent)
    requires PreviewOk(st)
    ensures PreviewOk(Mark(st, e))
  {
  }

  lemma UpdateCallKeeps(st: CallState, e: StreamEvent)
    requires PreviewOk(st)
    ensures PreviewOk(UpdateCall(st, e))
  {
    if e.argumentsDelta.Some? {
      AddFragmentKeepsPreview(st, e.argumentsDelta.value);
    }
    MarkKeepsPreview(Grow(st, e), e);
  }

  lemma UpdateCallPlace(st: CallState, e: StreamEvent)
    ensures UpdateCall(st, e).streamOrder == st.streamOrder && UpdateCall(st, e).ordinal == st.ordinal
  {
  }

  function Received(e: StreamEvent): seq<string> {
    if e.argumentsDelta.Some? then [e.argumentsDelta.value] else []
  }

  lemma UpdateCallFields(st: CallState, e: StreamEvent)
    ensures var updated := UpdateCall(st, e);
            && updated.fragments == st.fragments + Received(e)
            && updated.toolName == (if e.toolName.Some? then e.toolName else st.toolName)
            && updated.parsed == (if e.parsedArguments.Some? then e.parsedArguments else st.parsed)
            && updated.ended == (st.ended || e.kind.CallEnd?)
            && updated.streamOrder == st.streamOrder && updated.ordinal == st.ordinal
  {
  }

  lemma FeedCallPreviews(acc: Accumulator, e: StreamEvent)
    requires PreviewsOk(acc.calls)
    ensures PreviewsOk(FeedCall(acc, e).calls)
  {
    if IsCallEvent(e) && e.callId.Some? {
      var id := e.callId.value;
      var st := if id in acc.calls then acc.calls[id] else NewCall(e, |acc.ids|, acc.index);
      UpdateCallKeeps(st, e);
    }
  }

  lemma UpdatedOrders(acc: Accumulator, id: string, st: CallState)
    requires OrdersOk(acc) && id in acc.calls && st.streamOrder == acc.calls[id].streamOrder
    ensures OrdersOk(acc.(calls := acc.calls[id := st], index := acc.index + 1))
  {
  }

  lemma EnteredOrders(acc: Accumulator, id: string, st: CallState)
    requires OrdersOk(acc) && id !in acc.calls && st.streamOrder == acc.index
    ensures OrdersOk(acc.(ids := acc.ids + [id], calls := acc.calls[id := st], index := acc.index + 1))
  {
    var ids, calls := acc.ids + [id], acc.calls[id := st];
    assert OrdersGrow(ids, calls) by {
      forall i, j | 0 <= i < j < |ids| ensures calls[ids[i]].streamOrder < calls[ids[j]].streamOrder {
        assert ids[i] == acc.ids[i] && ids[i] in acc.calls;
      }
    }
  }

  lemma FeedCallOrders(acc: Accumulator, e: StreamEvent)
    requires OrdersOk(acc)
    ensures OrdersOk(FeedCall(acc, e).(index := acc.index + 1))
  {
    if IsCallEvent(e) && e.callId.Some? {
      var id := e.callId.value;
      if id in acc.calls {
        UpdateCallPlace(acc.calls[id], e);
        UpdatedOrders(acc, id, UpdateCall(acc.calls[id], e));
      } else {
        UpdateCallPlace(NewCall(e, |acc.ids|, acc.index), e);
        EnteredOrders(acc, id, UpdateCall(NewCall(e, |acc.ids|, acc.index), e));
      }
    }
  }

  lemma FeedTextOrders(acc: Accumulator, e: StreamEvent)
    requires OrdersOk(acc)
    ensures var fed := FeedEnding(FeedText(acc, e), e).(index := acc.index + 1); OrdersOk(fed) && fed.calls == acc.calls
  {
    var fed := FeedEnding(FeedText(acc, e), e);
    assert fed.ids == acc.ids && fed.calls == acc.calls;
    assert (fed.payload == acc.payload && fed.payloadOrder == acc.payloadOrder) || fed.payloadOrder == acc.index;
  }

  lemma FeedKeeps(acc: Accumulator, e: StreamEvent)
    requires AccumulatorOk(acc)
    ensures AccumulatorOk(Feed(acc, e))
  {
    if acc.ending.None? {
      FeedIs(acc, e);
      if IsCallEvent(e) {
        FeedCallPreviews(acc, e);
        FeedCallOrders(acc, e);
      } else {
        FeedTextOrders(acc, e);
      }
    }
  }

  /** An event feeds the calls or the texts, never both. */
  lemma FeedIs(acc: Accumulator, e: StreamEvent)
    requires acc.ending.None?
    ensures IsCallEvent(e) ==> Feed(acc, e) == FeedCall(acc, e).(index := acc.index + 1)
    ensures !IsCallEvent(e) ==> Feed(acc, e) == FeedEnding(FeedText(acc, e), e).(index := acc.index + 1)
  {
  }

  lemma {:induction false} FeedAllKeeps(acc: Accumulator, events: seq<StreamEvent>)
    requires AccumulatorOk(acc)
    ensures AccumulatorOk(FeedAll(acc, events))
    decreases |events|
  {
    if events != [] {
      FeedKeeps(acc, events[0]);
      FeedAllKeeps(Feed(acc, events[0]), events[1..]);
    }
  }

  /** However the provider cuts the arguments, their preview is their first 65536 characters. */
  lemma PreviewIsPrefix(events: seq<StreamEvent>, id: string)
    requires id in FeedAll(EMPTY, events).calls
    ensures var st := FeedAll(EMPTY, events).calls[id];
            Concat(st.previewFragments) == Take(Concat(st.fragments), 65536)
  {
    FeedAllKeeps(EMPTY, events);
    assert id in FeedAll(EMPTY, events).ids;
  }

  // ---- Calls ----

  /** A JSON parser; None stands for a decoding error. */
  type Parser = string -> Option<Json>

  datatype StreamError =
    | MissingDone
    | StreamCancelled
    | StreamErrored
    | UnsupportedReason
    | MalformedPayload
    | PayloadNotObject
    | EntryNotObject
    | MissingToolName
    | InvalidArguments

  datatype Reading = Skipped | Malformed | Reads(call: ToolCall)

  /** What an accumulated call amounts to: only ended, named calls with an argument object are kept. */
  function ReadCall(id: string, st: CallState, parse: Parser): Reading {
    if !st.ended || st.toolName.None? then Skipped
    else if st.parsed.Some? then Reads(ToolCall(st.toolName.value, st.parsed.value, Some(id)))
    else
      match parse(Concat(st.fragments))
      case None => Malformed
      case Some(JObject(fields)) => Reads(ToolCall(st.toolName.value, fields, Some(id)))
      case Some(_) => Skipped
  }

  datatype Ranked = Ranked(key: Key, call: ToolCall)

  function RankOf(r: Ranked): Key {
    r.key
  }

  function Lifecycle(id: string, st: CallState, parse: Parser): seq<Ranked> {
    var reading := ReadCall(id, st, parse);
    if reading.Reads? then [Ranked(Key(st.streamOrder, 0, st.ordinal), reading.call)] else []
  }

  /** The readable calls among some identities, in the order given. */
  function LifecycleCalls(ids: seq<string>, calls: map<string, CallState>, parse: Parser): seq<Ranked>
    requires forall i | 0 <= i < |ids| :: ids[i] in calls
  {
    if ids == [] then []
    else LifecycleCalls(Front(ids), calls, parse) + Lifecycle(Last(ids), calls[Last(ids)], parse)
  }

  predicate SomeMalformed(ids: seq<string>, calls: map<string, CallState>, parse: Parser)
    requires forall i | 0 <= i < |ids| :: ids[i] in calls
  {
    exists i | 0 <= i < |ids| :: ReadCall(ids[i], calls[ids[i]], parse).Malformed?
  }

  function Field(fields: map<string, Json>, name: string): Json {
    if name in fields then fields[name] else JNull
  }

  function PayloadCall(entry: Json): Result<ToolCall, StreamError> {
    if !entry.JObject? then Raise(EntryNotObject)
    else
      var id, name, arguments := Field(entry.fields, "tool_call_id"), Field(entry.fields, "tool_name"), Field(entry.fields, "arguments");
      if !name.JString? || Strip(name.text) == "" then Raise(MissingToolName)
      else if !arguments.JObject? then Raise(InvalidArguments)
      else Ok(ToolCall(name.text, arguments.fields, if id.JString? then Some(id.text) else None))
  }

  /** All entries as calls, or the error of the first that is none. */
  function PayloadCalls(entries: seq<Json>): Result<seq<ToolCall>, StreamError> {
    if entries == [] then Ok([])
    else
      var front := PayloadCalls(Front(entries));
      if front.Raise? then front
      else
        var last := PayloadCall(Last(entries));
        if last.Raise? then Raise(last.error) else Ok(front.value + [last.value])
  }

  /** A provider repeats its whole payload, so the last part is read first; only then are all parts joined. */
  function PayloadText(parts: seq<string>, parse: Parser): Option<Json>
    requires parts != []
  {
    var last := parse(Last(parts));
    if last.Some? then last else parse(Concat(parts))
  }

  function PayloadEntries(payload: Json): Option<seq<Json>> {
    match payload
    case JArray(items) => Some(items)
    case JObject(fields) =>
      var listed := Field(fields, "tool_calls");
      Some(if listed.JArray? then listed.items else [payload])
    case _ => None
  }

  function ParsePayload(parts: seq<string>, parse: Parser): Result<seq<ToolCall>, StreamError> {
    if parts == [] then Ok([])
    else
      var payload := PayloadText(parts, parse);
      if payload.None? then Raise(MalformedPayload)
      else
        var entries := PayloadEntries(payload.value);
        if entries.None? then Raise(PayloadNotObject) else PayloadCalls(entries.value)
  }

  function RankPayload(calls: seq<ToolCall>, order: nat): (ranked: seq<Ranked>)
    ensures |ranked| == |calls|
    ensures forall i | 0 <= i < |calls| :: ranked[i] == Ranked(Key(order, 1, i), calls[i])
  {
    seq(|calls|, i requires 0 <= i < |calls| => Ranked(Key(order, 1, i), calls[i]))
  }

  function CallsOf(ranked: seq<Ranked>): (calls: seq<ToolCall>)
    ensures |calls| == |ranked|
    ensures forall i | 0 <= i < |ranked| :: calls[i] == ranked[i].call
  {
    seq(|ranked|, i requires 0 <= i < |ranked| => ranked[i].call)
  }

  predicate Mentions(calls: seq<ToolCall>, id: Option<string>) {
    exists i | 0 <= i < |calls| :: calls[i].toolCallId == id
  }

  /** Only the first call of an identity stays; calls without one all stay. */
  function Deduped(calls: seq<ToolCall>): seq<ToolCall> {
    if calls == [] then []
    else if Last(calls).toolCallId.Some? && Mentions(Front(calls), Last(calls).toolCallId) then Deduped(Front(calls))
    else Deduped(Front(calls)) + [Last(calls)]
  }

  predicate Completes(reason: DoneReason) {
    !reason.Cancelled? && !reason.Errored? && !reason.Unlisted?
  }

  function EndingError(ending: Option<Ending>): Option<StreamError> {
    match ending
    case None => Some(MissingDone)
    case Some(Broken(cancelled)) => Some(if cancelled then StreamCancelled else StreamErrored)
    case Some(Reached(None)) => Some(MissingDone)
    case Some(Reached(Some(Cancelled))) => Some(StreamCancelled)
    case Some(Reached(Some(Errored))) => Some(StreamErrored)
    case Some(Reached(Some(reason))) => if Completes(reason) then None else Some(UnsupportedReason)
  }

  /** A turn without its facts: calls if there are any, the text otherwise. */
  datatype Turn = Turn(calls: seq<ToolCall>, output: string, reasoning: Option<string>)

  function OrNone(s: string): Option<string> {
    if s == "" then None else Some(s)
  }

  /**
   The result of a stream, said once for all: the calls in the order of their first appearance, the
   payload's calls standing at its last part, and of each identity the first.
   */
  function Assembled(acc: Accumulator, parse: Parser): Result<Turn, StreamError>
    requires forall i | 0 <= i < |acc.ids| :: acc.ids[i] in acc.calls
  {
    if EndingError(acc.ending).Some? then Raise(EndingError(acc.ending).value)
    else if SomeMalformed(acc.ids, acc.calls, parse) then Raise(MalformedPayload)
    else
      var payload := ParsePayload(acc.payload, parse);
      if payload.Raise? then Raise(payload.error)
      else
        var appeared := LifecycleCalls(acc.ids, acc.calls, parse);
        var cut := Cut(appeared, acc.payloadOrder);
        var merged := CallsOf(appeared[..cut]) + payload.value + CallsOf(appeared[cut..]);
        Ok(Turn(Deduped(merged), Concat(acc.output), OrNone(Concat(acc.reasoning))))
  }

  /** How many of the calls appeared before a position of the stream. */
  function Cut(appeared: seq<Ranked>, order: nat): (n: nat)
    ensures n <= |appeared|
  {
    if appeared == [] || Last(appeared).key.first < order then |appeared| else Cut(Front(appeared), order)
  }

  // ---- The loops ----

  method Accumulate(events: seq<StreamEvent>) returns (acc: Accumulator)
    ensures acc == FeedAll(EMPTY, events) && AccumulatorOk(acc)
  {
    var output: seq<string>, reasoning: seq<string>, payload: seq<string> := [], [], [];
    var payloadOrder, ids: seq<string>, calls: map<string, CallState> := 0, [], map[];
    var i, ending := 0, None;
    while i < |events| && ending.None?
      invariant i <= |events|
      invariant FeedAll(Accumulator(output, reasoning, payload, payloadOrder, ids, calls, i, ending), events[i..]) == FeedAll(EMPTY, events)
    {
      ghost var before := Accumulator(output, reasoning, payload, payloadOrder, ids, calls, i, ending);
      var e := events[i];
      if IsCallEvent(e) && e.callId.Some? {
        var id := e.callId.value;
        if id !in calls {
          calls := calls[id := NewCall(e, |ids|, i)];
          ids := ids + [id];
        }
        calls := calls[id := UpdateCall(calls[id], e)];
      }
      if IsTextEvent(e, TextChannel) {
        output := output + [e.text.value];
      } else if IsTextEvent(e, ReasoningChannel) {
        reasoning := reasoning + [e.text.value];
      } else if IsTextEvent(e, ToolChannel) {
        payload, payloadOrder := payload + [e.text.value], i;
      }
      if e.kind.ErrorKind? {
        ending := Some(Broken(e.cancelledError));
      } else if e.kind.DoneKind? {
        ending := Some(Reached(e.doneReason));
      }
      ghost var after := Accumulator(output, reasoning, payload, payloadOrder, ids, calls, i + 1, ending);
      assert events[i..][0] == e && events[i..][1..] == events[i + 1..];
      assert after == Feed(before, e) by {
        FeedIs(before, e);
      }
      i := i + 1;
    }
    acc := Accumulator(output, reasoning, payload, payloadOrder, ids, calls, i, ending);
    if ending.Some? {
      FeedAfterEnding(acc, events[i..]);
    }
    FeedAllKeeps(EMPTY, events);
  }

  method Merge(calls: seq<ToolCall>) returns (merged: seq<ToolCall>)
    ensures merged == Deduped(calls)
  {
    merged := [];
    var seen: set<string> := {};
    for i := 0 to |calls|
      invariant merged == Deduped(calls[..i])
      invariant forall id :: id in seen <==> Mentions(calls[..i], Some(id))
    {
      var call := calls[i];
      assert Front(calls[..i + 1]) == calls[..i] && Last(calls[..i + 1]) == call;
      MentionsSnoc(calls[..i], call);
      assert calls[..i] + [call] == calls[..i + 1];
      if call.toolCallId.Some? {
        if call.toolCallId.value in seen {
          continue;
        }
        seen := seen + {call.toolCallId.value};
      }
      merged := merged + [call];
    }
    assert calls[..|calls|] == calls;
  }

  lemma MentionsSnoc(calls: seq<ToolCall>, call: ToolCall)
    ensures forall id :: Mentions(calls + [call], id) <==> Mentions(calls, id) || call.toolCallId == id
  {
    forall id ensures Mentions(calls + [call], id) <==> Mentions(calls, id) || call.toolCallId == id {
      if Mentions(calls, id) {
        var i :| 0 <= i < |calls| && calls[i].toolCallId == id;
        assert (calls + [call])[i].toolCallId == id;
      }
      if call.toolCallId == id {
        assert (calls + [call])[|calls|].toolCallId == id;
      }
    }
  }

  // ---- Sorting finds the order of appearance ----

  lemma {:induction false} LifecycleConcat(first: seq<string>, second: seq<string>, calls: map<string, CallState>, parse: Parser)
    requires forall i | 0 <= i < |first| :: first[i] in calls
    requires forall i | 0 <= i < |second| :: second[i] in calls
    ensures LifecycleCalls(first + second, calls, parse) == LifecycleCalls(first, calls, parse) + LifecycleCalls(second, calls, parse)
  {
    if second == [] {
      assert first + second == first;
    } else {
      assert Front(first + second) == first + Front(second);
      LifecycleConcat(first, Front(second), calls, parse);
    }
  }

  /** Sorting the identities only reorders the calls read from them. */
  lemma {:induction false} LifecyclePermuted(ids: seq<string>, calls: map<string, CallState>, parse: Parser, key: string -> Key)
    requires forall i | 0 <= i < |ids| :: ids[i] in calls
    ensures forall i | 0 <= i < |SortBy(ids, key)| :: SortBy(ids, key)[i] in calls
    ensures multiset(LifecycleCalls(SortBy(ids, key), calls, parse)) == multiset(LifecycleCalls(ids, calls, parse))
  {
    if ids != [] {
      var front, x := SortBy(Front(ids), key), Last(ids);
      LifecyclePermuted(Front(ids), calls, parse, key);
      LifecycleInserted(front, x, Place(front, x, key), calls, parse);
    }
  }

  lemma LifecycleInserted(front: seq<string>, x: string, n: nat, calls: map<string, CallState>, parse: Parser)
    requires n <= |front| && x in calls && forall i | 0 <= i < |front| :: front[i] in calls
    ensures forall i | 0 <= i < |front| + 1 :: (front[..n] + [x] + front[n..])[i] in calls
    ensures multiset(LifecycleCalls(front[..n] + [x] + front[n..], calls, parse)) ==
            multiset(LifecycleCalls(front, calls, parse)) + multiset(Lifecycle(x, calls[x], parse))
  {
    LifecycleConcat(front[..n], front[n..], calls, parse);
    LifecycleConcat(front[..n] + [x], front[n..], calls, parse);
    assert front[..n] + front[n..] == front;
    assert Front(front[..n] + [x]) == front[..n];
  }

  lemma MalformedSorted(ids: seq<string>, calls: map<string, CallState>, parse: Parser, key: string -> Key)
    requires forall i | 0 <= i < |ids| :: ids[i] in calls
    requires forall i | 0 <= i < |SortBy(ids, key)| :: SortBy(ids, key)[i] in calls
    ensures SomeMalformed(SortBy(ids, key), calls, parse) <==> SomeMalformed(ids, calls, parse)
  {
    SortSorts(ids, key);
    MalformedPermuted(ids, SortBy(ids, key), calls, parse);
    MalformedPermuted(SortBy(ids, key), ids, calls, parse);
  }

  lemma MalformedPermuted(ids: seq<string>, others: seq<string>, calls: map<string, CallState>, parse: Parser)
    requires multiset(ids) == multiset(others)
    requires forall i | 0 <= i < |ids| :: ids[i] in calls
    requires forall i | 0 <= i < |others| :: others[i] in calls
    ensures SomeMalformed(ids, calls, parse) ==> SomeMalformed(others, calls, parse)
  {
    if SomeMalformed(ids, calls, parse) {
      var i :| 0 <= i < |ids| && ReadCall(ids[i], calls[ids[i]], parse).Malformed?;
      var j := InPermutation(ids, others, i);
    }
  }

  ghost predicate OrderOfSome(order: int, ids: seq<string>, calls: map<string, CallState>) {
    exists k | 0 <= k < |ids| :: ids[k] in calls && order == calls[ids[k]].streamOrder
  }

  ghost predicate RanksGrow(appeared: seq<Ranked>) {
    && (forall i, j | 0 <= i < j < |appeared| :: appeared[i].key.first < appeared[j].key.first)
    && (forall i | 0 <= i < |appeared| :: appeared[i].key.second == 0)
  }

  /** The calls read in the order of their identities stand in the order of the stream. */
  lemma {:induction false} AppearedGrow(ids: seq<string>, calls: map<string, CallState>, parse: Parser)
    requires OrdersGrow(ids, calls)
    ensures var appeared := LifecycleCalls(ids, calls, parse);
            RanksGrow(appeared) && forall i | 0 <= i < |appeared| :: OrderOfSome(appeared[i].key.first, ids, calls)
  {
    if ids != [] {
      var front := LifecycleCalls(Front(ids), calls, parse);
      var appeared := LifecycleCalls(ids, calls, parse);
      AppearedGrow(Front(ids), calls, parse);
      assert appeared == front + Lifecycle(Last(ids), calls[Last(ids)], parse);
      forall i | 0 <= i < |front|
        ensures OrderOfSome(front[i].key.first, ids, calls) && front[i].key.first < calls[Last(ids)].streamOrder
      {
        var k :| 0 <= k < |ids| - 1 && front[i].key.first == calls[Front(ids)[k]].streamOrder;
        assert ids[k] == Front(ids)[k];
      }
      assert OrderOfSome(calls[Last(ids)].streamOrder, ids, calls) by {
        assert ids[|ids| - 1] == Last(ids);
      }
    }
  }

  lemma {:induction false} CutCuts(appeared: seq<Ranked>, order: nat)
    requires forall i, j | 0 <= i < j < |appeared| :: appeared[i].key.first < appeared[j].key.first
    ensures var n := Cut(appeared, order);
            && (forall i | 0 <= i < n :: appeared[i].key.first < order)
            && (forall i | n <= i < |appeared| :: appeared[i].key.first >= order)
  {
    if appeared != [] && Last(appeared).key.first >= order {
      CutCuts(Front(appeared), order);
    }
  }

  /** Stream order, with the payload's calls put in at their place. */
  function InOrder(appeared: seq<Ranked>, payload: seq<ToolCall>, order: nat): seq<Ranked> {
    appeared[..Cut(appeared, order)] + RankPayload(payload, order) + appeared[Cut(appeared, order)..]
  }

  lemma InOrderIsSorted(appeared: seq<Ranked>, payload: seq<ToolCall>, order: nat)
    requires RanksGrow(appeared)
    requires payload != [] ==> forall i | 0 <= i < |appeared| :: appeared[i].key.first != order
    ensures StrictlySorted(InOrder(appeared, payload, order), RankOf)
  {
    CutCuts(appeared, order);
    var cut, n := Cut(appeared, order), |payload|;
    var all := InOrder(appeared, payload, order);
    forall i, j | 0 <= i < j < |all| ensures Below(RankOf(all[i]), RankOf(all[j])) {
      assert all[i] == if i < cut then appeared[i] else if i < cut + n then RankPayload(payload, order)[i - cut] else appeared[i - n];
      assert all[j] == if j < cut then appeared[j] else if j < cut + n then RankPayload(payload, order)[j - cut] else appeared[j - n];
    }
  }

  /** The sorted union of both kinds of calls is the stream order. */
  lemma MergeIsInOrder(appeared: seq<Ranked>, unsorted: seq<Ranked>, payload: seq<ToolCall>, order: nat)
    requires multiset(unsorted) == multiset(appeared) && RanksGrow(appeared)
    requires payload != [] ==> forall i | 0 <= i < |appeared| :: appeared[i].key.first != order
    ensures SortBy(unsorted + RankPayload(payload, order), RankOf) == InOrder(appeared, payload, order)
  {
    var cut, ranked := Cut(appeared, order), RankPayload(payload, order);
    InOrderIsSorted(appeared, payload, order);
    assert multiset(InOrder(appeared, payload, order)) == multiset(appeared) + multiset(ranked) by {
      assert appeared == appeared[..cut] + appeared[cut..];
    }
    SortSorts(unsorted + ranked, RankOf);
    SortedIsUnique(InOrder(appeared, payload, order), SortBy(unsorted + ranked, RankOf), RankOf);
  }

  lemma CallsInOrder(appeared: seq<Ranked>, payload: seq<ToolCall>, order: nat)
    ensures var cut := Cut(appeared, order);
            CallsOf(InOrder(appeared, payload, order)) == CallsOf(appeared[..cut]) + payload + CallsOf(appeared[cut..])
  {
  }

  /** Keys of an accumulator's calls and of its payload never meet. */
  lemma PayloadStandsApart(acc: Accumulator, parse: Parser)
    requires OrdersOk(acc)
    ensures var appeared := LifecycleCalls(acc.ids, acc.calls, parse);
            RanksGrow(appeared)
            && (acc.payload != [] ==> forall i | 0 <= i < |appeared| :: appeared[i].key.first != acc.payloadOrder)
  {
    AppearedGrow(acc.ids, acc.calls, parse);
  }

  method ReadEach(ids: seq<string>, calls: map<string, CallState>, parse: Parser) returns (ranked: Option<seq<Ranked>>)
    requires forall i | 0 <= i < |ids| :: ids[i] in calls
    ensures ranked.None? <==> SomeMalformed(ids, calls, parse)
    ensures ranked.Some? ==> ranked.value == LifecycleCalls(ids, calls, parse)
  {
    var found: seq<Ranked> := [];
    for i := 0 to |ids|
      invariant found == LifecycleCalls(ids[..i], calls, parse)
      invariant forall k | 0 <= k < i :: !ReadCall(ids[k], calls[ids[k]], parse).Malformed?
    {
      assert Front(ids[..i + 1]) == ids[..i];
      var st := calls[ids[i]];
      var reading := ReadCall(ids[i], st, parse);
      if reading.Malformed? {
        return None;
      }
      if reading.Reads? {
        found := found + [Ranked(Key(st.streamOrder, 0, st.ordinal), reading.call)];
      }
    }
    assert ids[..|ids|] == ids;
    return Some(found);
  }

  /** Reading the calls in the order of their ordinals. */
  method ReadCalls(acc: Accumulator, parse: Parser) returns (ranked: Option<seq<Ranked>>)
    requires forall i | 0 <= i < |acc.ids| :: acc.ids[i] in acc.calls
    ensures ranked.None? <==> SomeMalformed(acc.ids, acc.calls, parse)
    ensures ranked.Some? ==> multiset(ranked.value) == multiset(LifecycleCalls(acc.ids, acc.calls, parse))
  {
    var key := id => Key(0, 0, if id in acc.calls then acc.calls[id].ordinal else 0);
    LifecyclePermuted(acc.ids, acc.calls, parse, key);
    MalformedSorted(acc.ids, acc.calls, parse, key);
    ranked := ReadEach(SortBy(acc.ids, key), acc.calls, parse);
  }

  /** The whole of a streaming step: accumulate, read, sort, merge. */
  method Assemble(events: seq<StreamEvent>, parse: Parser) returns (r: Result<Turn, StreamError>)
    ensures AccumulatorOk(FeedAll(EMPTY, events))
    ensures r == Assembled(FeedAll(EMPTY, events), parse)
  {
    var acc := Accumulate(events);
    var wrong := EndingError(acc.ending);
    if wrong.Some? {
      return Raise(wrong.value);
    }
    var ranked := ReadCalls(acc, parse);
    if ranked.None? {
      return Raise(MalformedPayload);
    }
    var payload := ParsePayload(acc.payload, parse);
    if payload.Raise? {
      return Raise(payload.error);
    }
    ghost var appeared := LifecycleCalls(acc.ids, acc.calls, parse);
    PayloadStandsApart(acc, parse);
    MergeIsInOrder(appeared, ranked.value, payload.value, acc.payloadOrder);
    CallsInOrder(appeared, payload.value, acc.payloadOrder);
    var merged := Merge(CallsOf(SortBy(ranked.value + RankPayload(payload.value, acc.payloadOrder), RankOf)));
    return Ok(Turn(merged, Concat(acc.output), OrNone(Concat(acc.reasoning))));
  }
}
