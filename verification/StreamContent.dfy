/** What a streamed turn says, read off the events of the stream alone. */
module StreamContent {
  import opened Basics
  import opened Turns
  import opened Lines
  import opened StreamAssembly
  import opened Fragmentation

  // ---- What the events say up to the first that ends the stream ----

  predicate Ends(e: StreamEvent) {
    e.kind.ErrorKind? || e.kind.DoneKind?
  }

  /** An event that carries text on a channel: a delta, or a whole piece of content. */
  predicate Carries(e: StreamEvent, channel: Channel) {
    (e.kind.Delta? || e.kind.Content?) && e.channel == channel && e.text.Some?
  }

  /** The text on a channel. */
  function Said(events: seq<StreamEvent>, channel: Channel): string
    decreases |events|
  {
    if events == [] || Ends(events[0]) then ""
    else (if Carries(events[0], channel) then events[0].text.value else "") + Said(events[1..], channel)
  }

  /** The parts of the tool payload. */
  function PartsSaid(events: seq<StreamEvent>): seq<string>
    decreases |events|
  {
    if events == [] || Ends(events[0]) then []
    else (if Carries(events[0], ToolChannel) then [events[0].text.value] else []) + PartsSaid(events[1..])
  }

  predicate Speaks(e: StreamEvent, id: string) {
    (e.kind.CallStart? || e.kind.CallDelta? || e.kind.CallEnd?) && e.callId == Some(id)
  }

  /** Is the call mentioned at all? */
  predicate Mentioned(events: seq<StreamEvent>, id: string)
    decreases |events|
  {
    events != [] && !Ends(events[0]) && (Speaks(events[0], id) || Mentioned(events[1..], id))
  }

  /** The last name given to a call. */
  function NameSaid(events: seq<StreamEvent>, id: string): Option<string>
    decreases |events|
  {
    if events == [] || Ends(events[0]) then None
    else Overlaid(if Speaks(events[0], id) then events[0].toolName else None, NameSaid(events[1..], id))
  }

  /** The argument deltas of a call, joined. */
  function ArgumentsSaid(events: seq<StreamEvent>, id: string): string
    decreases |events|
  {
    if events == [] || Ends(events[0]) then ""
    else
      (if Speaks(events[0], id) && events[0].argumentsDelta.Some? then events[0].argumentsDelta.value else "")
      + ArgumentsSaid(events[1..], id)
  }

  /** The last parsed arguments handed over for a call. */
  function ParsedSaid(events: seq<StreamEvent>, id: string): Option<map<string, Json>>
    decreases |events|
  {
    if events == [] || Ends(events[0]) then None
    else Overlaid(if Speaks(events[0], id) then events[0].parsedArguments else None, ParsedSaid(events[1..], id))
  }

  /** Does an event end the call? */
  predicate EndSaid(events: seq<StreamEvent>, id: string)
    decreases |events|
  {
    events != [] && !Ends(events[0]) && ((Speaks(events[0], id) && events[0].kind.CallEnd?) || EndSaid(events[1..], id))
  }

  /** The event that ends the stream. */
  function EndOf(events: seq<StreamEvent>): Option<StreamEvent>
    decreases |events|
  {
    if events == [] then None else if Ends(events[0]) then Some(events[0]) else EndOf(events[1..])
  }

  predicate Completing(reason: DoneReason) {
    || reason.Stop? || reason.ToolCalls? || reason.FunctionCall? || reason.Length? || reason.ContentFilter?
    || reason.DoneCompleted? || reason.Unknown?
  }

  /** The stream ends with a done event of a reason that completes a turn. */
  predicate EndsWell(events: seq<StreamEvent>) {
    && EndOf(events).Some? && EndOf(events).value.kind.DoneKind?
    && EndOf(events).value.doneReason.Some? && Completing(EndOf(events).value.doneReason.value)
  }

  /** What a call comes to: it counts once an event has ended it and one has named it, with the arguments given or parsed. */
  function CallSaid(events: seq<StreamEvent>, id: string, parse: Parser): Reading {
    if !EndSaid(events, id) || NameSaid(events, id).None? then Skipped
    else if ParsedSaid(events, id).Some? then Reads(ToolCall(NameSaid(events, id).value, ParsedSaid(events, id).value, Some(id)))
    else
      var arguments := parse(ArgumentsSaid(events, id));
      if arguments.None? then Malformed
      else if arguments.value.JObject? then Reads(ToolCall(NameSaid(events, id).value, arguments.value.fields, Some(id)))
      else Skipped
  }

  /** Those of some calls that count, in the order given. */
  function CallsSaid(ids: seq<string>, events: seq<StreamEvent>, parse: Parser): seq<ToolCall> {
    if ids == [] then []
    else
      var last := CallSaid(events, Last(ids), parse);
      CallsSaid(Front(ids), events, parse) + (if last.Reads? then [last.call] else [])
  }

  // ---- The accumulator holds just that ----

  /** What an accumulator holds of the texts, once the events have been fed to another. */
  ghost predicate TextsAdd(acc: Accumulator, fed: Accumulator, events: seq<StreamEvent>) {
    && Concat(fed.output) == Concat(acc.output) + Said(events, TextChannel)
    && Concat(fed.reasoning) == Concat(acc.reasoning) + Said(events, ReasoningChannel)
    && fed.payload == acc.payload + PartsSaid(events)
    && fed.ending == (if EndOf(events).None? then None else Some(EndingOf(EndOf(events).value)))
  }

  function EndingOf(e: StreamEvent): Ending {
    if e.kind.ErrorKind? then Broken(e.cancelledError) else StreamAssembly.Reached(e.doneReason)
  }

  lemma {:induction false} TextsHeld(acc: Accumulator, events: seq<StreamEvent>)
    requires acc.ending.None?
    ensures TextsAdd(acc, FeedAll(acc, events), events)
    decreases |events|
  {
    if events != [] {
      var e, rest := events[0], events[1..];
      TextsFed(acc, e);
      assert events == [e] + rest;
      if Ends(e) {
        FeedAllEnded(Feed(acc, e), rest);
        TextsStop(acc, Feed(acc, e), e, rest);
      } else {
        TextsHeld(Feed(acc, e), rest);
        TextsGoOn(acc, Feed(acc, e), FeedAll(Feed(acc, e), rest), e, rest);
      }
    }
  }

  lemma TextsStop(acc: Accumulator, fed: Accumulator, e: StreamEvent, rest: seq<StreamEvent>)
    requires Ends(e) && TextsStep(acc, fed, e)
    ensures TextsAdd(acc, fed, [e] + rest)
  {
    assert ([e] + rest)[0] == e;
  }

  lemma TextsGoOn(acc: Accumulator, next: Accumulator, fed: Accumulator, e: StreamEvent, rest: seq<StreamEvent>)
    requires !Ends(e) && TextsStep(acc, next, e) && TextsAdd(next, fed, rest)
    ensures TextsAdd(acc, fed, [e] + rest)
  {
    assert ([e] + rest)[0] == e && ([e] + rest)[1..] == rest;
  }

  ghost predicate TextsStep(acc: Accumulator, fed: Accumulator, e: StreamEvent) {
    && Concat(fed.output) == Concat(acc.output) + (if !Ends(e) && IsTextEvent(e, TextChannel) then e.text.value else "")
    && Concat(fed.reasoning) == Concat(acc.reasoning) + (if !Ends(e) && IsTextEvent(e, ReasoningChannel) then e.text.value else "")
    && fed.payload == acc.payload + (if !Ends(e) && IsTextEvent(e, ToolChannel) then [e.text.value] else [])
    && fed.ending == (if Ends(e) then Some(EndingOf(e)) else None)
  }

  lemma TextsFed(acc: Accumulator, e: StreamEvent)
    requires acc.ending.None?
    ensures TextsStep(acc, Feed(acc, e), e)
  {
    if IsCallEvent(e) {
      FeedIs(acc, e);
    } else {
      FeedTextFields(acc, e);
      var said := if IsTextEvent(e, TextChannel) then [e.text.value] else [];
      var thought := if IsTextEvent(e, ReasoningChannel) then [e.text.value] else [];
      ConcatAppend(acc.output, said);
      ConcatAppend(acc.reasoning, thought);
      if e.text.Some? {
        ConcatOne(e.text.value);
      }
    }
  }

  /** A record of a call that holds what was said of it before, and what the events say. */
  ghost predicate Holds(st: CallState, before: Option<CallState>, events: seq<StreamEvent>, id: string) {
    && st.toolName == Overlaid(if before.Some? then before.value.toolName else None, NameSaid(events, id))
    && Concat(st.fragments) == (if before.Some? then Concat(before.value.fragments) else "") + ArgumentsSaid(events, id)
    && st.parsed == Overlaid(if before.Some? then before.value.parsed else None, ParsedSaid(events, id))
    && (st.ended <==> (before.Some? && before.value.ended) || EndSaid(events, id))
  }

  function Record(acc: Accumulator, id: string): Option<CallState> {
    if id in acc.calls then Some(acc.calls[id]) else None
  }

  ghost predicate CallsAdd(acc: Accumulator, fed: Accumulator, events: seq<StreamEvent>, id: string) {
    && (id in fed.calls <==> id in acc.calls || Mentioned(events, id))
    && (id in fed.calls ==> Holds(fed.calls[id], Record(acc, id), events, id))
  }

  lemma {:induction false} CallsHeld(acc: Accumulator, events: seq<StreamEvent>, id: string)
    requires acc.ending.None?
    ensures CallsAdd(acc, FeedAll(acc, events), events, id)
    decreases |events|
  {
    if events != [] {
      var e, rest := events[0], events[1..];
      CallFed(acc, e, id);
      TextsFed(acc, e);
      assert events == [e] + rest;
      if Ends(e) {
        FeedAllEnded(Feed(acc, e), rest);
        CallsStop(acc, Feed(acc, e), e, rest, id);
      } else {
        CallsHeld(Feed(acc, e), rest, id);
        CallsGoOn(acc, Feed(acc, e), FeedAll(Feed(acc, e), rest), e, rest, id);
      }
    }
  }

  lemma CallsStop(acc: Accumulator, fed: Accumulator, e: StreamEvent, rest: seq<StreamEvent>, id: string)
    requires Ends(e) && CallStep(acc, fed, e, id)
    ensures CallsAdd(acc, fed, [e] + rest, id)
  {
    assert ([e] + rest)[0] == e;
  }

  lemma CallsGoOn(acc: Accumulator, next: Accumulator, fed: Accumulator, e: StreamEvent, rest: seq<StreamEvent>, id: string)
    requires !Ends(e) && CallStep(acc, next, e, id) && CallsAdd(next, fed, rest, id)
    ensures CallsAdd(acc, fed, [e] + rest, id)
  {
    assert ([e] + rest)[0] == e && ([e] + rest)[1..] == rest;
  }

  ghost predicate CallStep(acc: Accumulator, fed: Accumulator, e: StreamEvent, id: string) {
    && (id in fed.calls <==> id in acc.calls || (!Ends(e) && Speaks(e, id)))
    && (id in fed.calls && !(!Ends(e) && Speaks(e, id)) ==> fed.calls[id] == acc.calls[id])
    && (id in fed.calls && !Ends(e) && Speaks(e, id) ==>
          && fed.calls[id].toolName == Overlaid(if id in acc.calls then acc.calls[id].toolName else None, e.toolName)
          && fed.calls[id].parsed == Overlaid(if id in acc.calls then acc.calls[id].parsed else None, e.parsedArguments)
          && Concat(fed.calls[id].fragments) == (if id in acc.calls then Concat(acc.calls[id].fragments) else "")
                                                + (if e.argumentsDelta.Some? then e.argumentsDelta.value else "")
          && (fed.calls[id].ended <==> (id in acc.calls && acc.calls[id].ended) || e.kind.CallEnd?))
  }

  /** One event: a call event of the identity updates its record or makes one, any other leaves it. */
  lemma CallFed(acc: Accumulator, e: StreamEvent, id: string)
    requires acc.ending.None?
    ensures CallStep(acc, Feed(acc, e), e, id)
  {
    if IsCallEvent(e) {
      FeedIs(acc, e);
      if e.callId.Some? {
        var key := e.callId.value;
        var st := if key in acc.calls then acc.calls[key] else NewCall(e, |acc.ids|, acc.index);
        FeedCallFields(acc, e, key, st);
        UpdateCallFields(st, e);
        ConcatAppend(st.fragments, Received(e));
        if e.argumentsDelta.Some? {
          ConcatOne(e.argumentsDelta.value);
        }
      }
    } else {
      FeedTextFields(acc, e);
    }
  }

  // ---- Where things are said ----

  /** The position at which a call is mentioned first. */
  function MentionAt(events: seq<StreamEvent>, id: string): nat
    requires Mentioned(events, id)
    decreases |events|
  {
    if Speaks(events[0], id) then 0 else 1 + MentionAt(events[1..], id)
  }

  /** The position of the last part of the payload. */
  function LastPartAt(events: seq<StreamEvent>): nat
    requires PartsSaid(events) != []
    decreases |events|
  {
    if PartsSaid(events[1..]) == [] || Ends(events[0]) then 0 else 1 + LastPartAt(events[1..])
  }

  lemma {:induction false} PlaceHeld(acc: Accumulator, events: seq<StreamEvent>, id: string)
    requires acc.ending.None? && (id in acc.calls || Mentioned(events, id))
    ensures var fed := FeedAll(acc, events);
            && id in fed.calls
            && fed.calls[id].streamOrder == if id in acc.calls then acc.calls[id].streamOrder else acc.index + MentionAt(events, id)
    decreases |events|
  {
    if events != [] {
      var e := events[0];
      PlaceFed(acc, e, id);
      TextsFed(acc, e);
      if Ends(e) {
        FeedAllEnded(Feed(acc, e), events[1..]);
      } else {
        PlaceHeld(Feed(acc, e), events[1..], id);
      }
    }
  }

  lemma PlaceFed(acc: Accumulator, e: StreamEvent, id: string)
    requires acc.ending.None?
    ensures Feed(acc, e).index == acc.index + 1
    ensures id in acc.calls ==> id in Feed(acc, e).calls && Feed(acc, e).calls[id].streamOrder == acc.calls[id].streamOrder
    ensures id !in acc.calls && Speaks(e, id) ==> id in Feed(acc, e).calls && Feed(acc, e).calls[id].streamOrder == acc.index
    ensures id !in acc.calls && !Speaks(e, id) ==> id !in Feed(acc, e).calls
  {
    if IsCallEvent(e) {
      FeedIs(acc, e);
      if e.callId.Some? {
        var key := e.callId.value;
        var st := if key in acc.calls then acc.calls[key] else NewCall(e, |acc.ids|, acc.index);
        FeedCallFields(acc, e, key, st);
        UpdateCallFields(st, e);
      }
    } else {
      FeedTextFields(acc, e);
    }
  }

  lemma {:induction false} PartHeld(acc: Accumulator, events: seq<StreamEvent>)
    requires acc.ending.None?
    ensures FeedAll(acc, events).payloadOrder == if PartsSaid(events) == [] then acc.payloadOrder else acc.index + LastPartAt(events)
    decreases |events|
  {
    if events != [] {
      var e := events[0];
      PartFed(acc, e);
      TextsFed(acc, e);
      if Ends(e) {
        FeedAllEnded(Feed(acc, e), events[1..]);
      } else {
        PartHeld(Feed(acc, e), events[1..]);
      }
    }
  }

  lemma PartFed(acc: Accumulator, e: StreamEvent)
    requires acc.ending.None?
    ensures Feed(acc, e).index == acc.index + 1
    ensures Feed(acc, e).payloadOrder == if !Ends(e) && IsTextEvent(e, ToolChannel) then acc.index else acc.payloadOrder
  {
    if IsCallEvent(e) {
      FeedIs(acc, e);
    } else {
      FeedTextFields(acc, e);
    }
  }

  // ---- Reading the calls ----

  lemma ReadingIsSaid(events: seq<StreamEvent>, id: string, parse: Parser)
    requires id in FeedAll(EMPTY, events).calls
    ensures ReadCall(id, FeedAll(EMPTY, events).calls[id], parse) == CallSaid(events, id, parse)
  {
    CallsHeld(EMPTY, events, id);
    HeldIsRead(FeedAll(EMPTY, events).calls[id], events, id, parse);
  }

  lemma HeldIsRead(st: CallState, events: seq<StreamEvent>, id: string, parse: Parser)
    requires Holds(st, None, events, id)
    ensures ReadCall(id, st, parse) == CallSaid(events, id, parse)
  {
    assert "" + ArgumentsSaid(events, id) == ArgumentsSaid(events, id);
  }

  /** Calls that are read as they were said. */
  ghost predicate ReadAsSaid(ids: seq<string>, calls: map<string, CallState>, events: seq<StreamEvent>, parse: Parser) {
    forall i | 0 <= i < |ids| :: ids[i] in calls && ReadCall(ids[i], calls[ids[i]], parse) == CallSaid(events, ids[i], parse)
  }

  lemma AllReadAsSaid(events: seq<StreamEvent>, parse: Parser)
    ensures OrdersOk(FeedAll(EMPTY, events)) && ReadAsSaid(FeedAll(EMPTY, events).ids, FeedAll(EMPTY, events).calls, events, parse)
  {
    FeedAllKeeps(EMPTY, events);
    var acc := FeedAll(EMPTY, events);
    forall i | 0 <= i < |acc.ids|
      ensures acc.ids[i] in acc.calls && ReadCall(acc.ids[i], acc.calls[acc.ids[i]], parse) == CallSaid(events, acc.ids[i], parse)
    {
      assert acc.ids[i] in acc.ids;
      ReadingIsSaid(events, acc.ids[i], parse);
    }
  }

  /** The calls read in some order are the calls said, and each has the place at which it was mentioned first. */
  lemma {:induction false} LifecycleIsSaid(ids: seq<string>, calls: map<string, CallState>, events: seq<StreamEvent>, parse: Parser,
                                           bound: nat, below: bool)
    requires ReadAsSaid(ids, calls, events, parse)
    requires forall i | 0 <= i < |ids| :: if below then calls[ids[i]].streamOrder < bound else calls[ids[i]].streamOrder >= bound
    ensures var read := LifecycleCalls(ids, calls, parse);
            && CallsOf(read) == CallsSaid(ids, events, parse)
            && forall i | 0 <= i < |read| :: if below then read[i].key.first < bound else read[i].key.first >= bound
  {
    if ids != [] {
      LifecycleIsSaid(Front(ids), calls, events, parse, bound, below);
      var front, last := LifecycleCalls(Front(ids), calls, parse), Lifecycle(Last(ids), calls[Last(ids)], parse);
      assert CallsOf(front + last) == CallsOf(front) + CallsOf(last);
    }
  }

  lemma MalformedIsSaid(ids: seq<string>, calls: map<string, CallState>, events: seq<StreamEvent>, parse: Parser)
    requires ReadAsSaid(ids, calls, events, parse)
    ensures SomeMalformed(ids, calls, parse) <==> exists i | 0 <= i < |ids| :: CallSaid(events, ids[i], parse).Malformed?
  {
  }

  // ---- The turn ----

  /** The identities mentioned, each once, in the order in which they are mentioned first. */
  ghost predicate InOrderOfMention(ids: seq<string>, events: seq<StreamEvent>) {
    && AllDifferent(ids)
    && (forall id :: id in ids <==> Mentioned(events, id))
    && (forall i, j | 0 <= i < j < |ids| :: MentionAt(events, ids[i]) < MentionAt(events, ids[j]))
  }

  /** The first m of some identities are mentioned before the last part of the payload, the others behind it. */
  ghost predicate PartAt(ids: seq<string>, events: seq<StreamEvent>, m: nat) {
    && m <= |ids| && (forall i | 0 <= i < |ids| :: Mentioned(events, ids[i]))
    && (PartsSaid(events) != [] ==>
          && (forall i | 0 <= i < m :: MentionAt(events, ids[i]) < LastPartAt(events))
          && (forall i | m <= i < |ids| :: MentionAt(events, ids[i]) > LastPartAt(events)))
  }

  lemma IdsInOrder(events: seq<StreamEvent>)
    ensures OrdersOk(FeedAll(EMPTY, events)) && InOrderOfMention(FeedAll(EMPTY, events).ids, events)
    ensures forall id | id in FeedAll(EMPTY, events).calls ::
              Mentioned(events, id) && FeedAll(EMPTY, events).calls[id].streamOrder == MentionAt(events, id)
  {
    var acc := FeedAll(EMPTY, events);
    FeedAllKeeps(EMPTY, events);
    forall id ensures id in acc.calls <==> Mentioned(events, id) {
      CallsHeld(EMPTY, events, id);
    }
    forall id | id in acc.calls ensures acc.calls[id].streamOrder == MentionAt(events, id) {
      PlaceHeld(EMPTY, events, id);
    }
  }

  /** How many identities come before a position. */
  lemma {:induction false} SplitsAt(ids: seq<string>, calls: map<string, CallState>, order: nat) returns (m: nat)
    requires (forall i | 0 <= i < |ids| :: ids[i] in calls) && OrdersGrow(ids, calls)
    ensures m <= |ids|
    ensures (forall i | 0 <= i < m :: calls[ids[i]].streamOrder < order) && (forall i | m <= i < |ids| :: calls[ids[i]].streamOrder >= order)
  {
    m := |ids|;
    if ids != [] && calls[Last(ids)].streamOrder >= order {
      m := SplitsAt(Front(ids), calls, order);
    }
  }

  /** The identities that come before the payload's place, and the others. */
  ghost predicate SplitAt(acc: Accumulator, m: nat) {
    && OrdersOk(acc) && m <= |acc.ids|
    && (forall i | 0 <= i < m :: acc.calls[acc.ids[i]].streamOrder < acc.payloadOrder)
    && (forall i | m <= i < |acc.ids| :: acc.calls[acc.ids[i]].streamOrder >= acc.payloadOrder)
  }

  lemma CutSplits(ids: seq<string>, calls: map<string, CallState>, order: nat, events: seq<StreamEvent>, m: nat, parse: Parser)
    requires ReadAsSaid(ids, calls, events, parse) && m <= |ids|
    requires forall i | 0 <= i < m :: calls[ids[i]].streamOrder < order
    requires forall i | m <= i < |ids| :: calls[ids[i]].streamOrder >= order
    ensures var read := LifecycleCalls(ids, calls, parse);
            var cut := Cut(read, order);
            && CallsOf(read[..cut]) == CallsSaid(ids[..m], events, parse)
            && CallsOf(read[cut..]) == CallsSaid(ids[m..], events, parse)
  {
    var before, behind := ids[..m], ids[m..];
    SidesRead(ids, calls, m, parse);
    LifecycleIsSaid(before, calls, events, parse, order, true);
    LifecycleIsSaid(behind, calls, events, parse, order, false);
    CutIsBetween(LifecycleCalls(before, calls, parse), LifecycleCalls(behind, calls, parse), order);
  }

  lemma SidesRead(ids: seq<string>, calls: map<string, CallState>, m: nat, parse: Parser)
    requires m <= |ids| && forall i | 0 <= i < |ids| :: ids[i] in calls
    ensures LifecycleCalls(ids, calls, parse) == LifecycleCalls(ids[..m], calls, parse) + LifecycleCalls(ids[m..], calls, parse)
  {
    LifecycleConcat(ids[..m], ids[m..], calls, parse);
    assert ids == ids[..m] + ids[m..];
  }

  lemma {:induction false} CutIs(read: seq<Ranked>, n: nat, order: nat)
    requires n <= |read|
    requires (forall i | 0 <= i < n :: read[i].key.first < order) && (forall i | n <= i < |read| :: read[i].key.first >= order)
    ensures Cut(read, order) == n
  {
    if n < |read| {
      CutIs(Front(read), n, order);
    }
  }

  lemma CutIsBetween(first: seq<Ranked>, second: seq<Ranked>, order: nat)
    requires (forall i | 0 <= i < |first| :: first[i].key.first < order) && (forall i | 0 <= i < |second| :: second[i].key.first >= order)
    ensures Cut(first + second, order) == |first|
    ensures (first + second)[..|first|] == first && (first + second)[|first|..] == second
  {
    CutIs(first + second, |first|, order);
  }

  /**
   When a stream makes a turn and which, from its events: it ends with a reason that completes a turn, no
   ended and named call has unparsable arguments, and its payload can be read. The output is the text, the
   reasoning the thoughts, none if there are none; the calls are those said, in the order of their first
   mention, with the payload's calls where its last part stands, and of each identity the first.
   */
  lemma AssembledExactly(events: seq<StreamEvent>, parse: Parser) returns (ids: seq<string>, m: nat)
    ensures OrdersOk(FeedAll(EMPTY, events)) && InOrderOfMention(ids, events) && PartAt(ids, events, m)
    ensures var r, payload := Assembled(FeedAll(EMPTY, events), parse), ParsePayload(PartsSaid(events), parse);
            && (r.Ok? <==>
                  && EndsWell(events) && payload.Ok?
                  && !(exists i | 0 <= i < |ids| :: CallSaid(events, ids[i], parse).Malformed?))
            && (r.Ok? ==>
                  && r.value.output == Said(events, TextChannel)
                  && r.value.reasoning == (if Said(events, ReasoningChannel) == "" then None else Some(Said(events, ReasoningChannel)))
                  && r.value.calls == Deduped(CallsSaid(ids[..m], events, parse) + payload.value + CallsSaid(ids[m..], events, parse)))
  {
    var acc := FeedAll(EMPTY, events);
    IdsInOrder(events);
    AllReadAsSaid(events, parse);
    ids := acc.ids;
    m := SplitsAt(ids, acc.calls, acc.payloadOrder);
    SplitIsPart(events, m);
    TextsAreSaid(events);
    AssembledFrom(acc, events, m, parse);
  }

  lemma AssembledFrom(acc: Accumulator, events: seq<StreamEvent>, m: nat, parse: Parser)
    requires SplitAt(acc, m) && ReadAsSaid(acc.ids, acc.calls, events, parse)
    ensures var r, payload, ids := Assembled(acc, parse), ParsePayload(acc.payload, parse), acc.ids;
            && (r.Ok? <==>
                  && EndingError(acc.ending).None? && payload.Ok?
                  && !(exists i | 0 <= i < |ids| :: CallSaid(events, ids[i], parse).Malformed?))
            && (r.Ok? ==>
                  && r.value.output == Concat(acc.output)
                  && r.value.reasoning == (if Concat(acc.reasoning) == "" then None else Some(Concat(acc.reasoning)))
                  && r.value.calls == Deduped(CallsSaid(ids[..m], events, parse) + payload.value + CallsSaid(ids[m..], events, parse)))
  {
    MalformedIsSaid(acc.ids, acc.calls, events, parse);
    CutSplits(acc.ids, acc.calls, acc.payloadOrder, events, m, parse);
  }

  lemma SplitIsPart(events: seq<StreamEvent>, m: nat)
    requires SplitAt(FeedAll(EMPTY, events), m)
    ensures PartAt(FeedAll(EMPTY, events).ids, events, m)
  {
    IdsInOrder(events);
    PartHeld(EMPTY, events);
    TextsHeld(EMPTY, events);
  }

  lemma TextsAreSaid(events: seq<StreamEvent>)
    ensures var acc := FeedAll(EMPTY, events);
            && Concat(acc.output) == Said(events, TextChannel) && Concat(acc.reasoning) == Said(events, ReasoningChannel)
            && acc.payload == PartsSaid(events) && (EndingError(acc.ending).None? <==> EndsWell(events))
  {
    TextsHeld(EMPTY, events);
    FromNothing(FeedAll(EMPTY, events), events);
  }

  lemma FromNothing(fed: Accumulator, events: seq<StreamEvent>)
    requires TextsAdd(EMPTY, fed, events)
    ensures Concat(fed.output) == Said(events, TextChannel) && Concat(fed.reasoning) == Said(events, ReasoningChannel)
    ensures fed.payload == PartsSaid(events) && (EndingError(fed.ending).None? <==> EndsWell(events))
  {
    assert "" + Said(events, TextChannel) == Said(events, TextChannel);
    assert "" + Said(events, ReasoningChannel) == Said(events, ReasoningChannel);
    if EndOf(events).Some? {
      EndIs(events);
      match EndOf(events).value.doneReason
      case None =>
      case Some(reason) => CompletesExactly(reason);
    }
  }

  lemma {:induction false} EndIs(events: seq<StreamEvent>)
    requires EndOf(events).Some?
    ensures Ends(EndOf(events).value)
    decreases |events|
  {
    if !Ends(events[0]) {
      EndIs(events[1..]);
    }
  }

  lemma CompletesExactly(reason: DoneReason)
    ensures EndingError(Some(StreamAssembly.Reached(Some(reason)))).None? <==> Completing(reason)
  {
  }

  // ---- The entries of a payload ----

  /** An entry is a call exactly if it is an object with a name that is not blank and an object of arguments. */
  lemma EntryExactly(entry: Json)
    ensures var r := PayloadCall(entry);
            && (r.Ok? <==>
                  && entry.JObject? && "tool_name" in entry.fields && entry.fields["tool_name"].JString?
                  && Strip(entry.fields["tool_name"].text) != ""
                  && "arguments" in entry.fields && entry.fields["arguments"].JObject?)
            && (r.Ok? ==>
                  && r.value.toolName == entry.fields["tool_name"].text && r.value.arguments == entry.fields["arguments"].fields
                  && (r.value.toolCallId.Some? <==> "tool_call_id" in entry.fields && entry.fields["tool_call_id"].JString?)
                  && (r.value.toolCallId.Some? ==> entry.fields["tool_call_id"] == JString(r.value.toolCallId.value)))
  {
  }

  lemma {:induction false} EntriesExactly(entries: seq<Json>)
    ensures var r := PayloadCalls(entries);
            && (r.Ok? <==> forall i | 0 <= i < |entries| :: PayloadCall(entries[i]).Ok?)
            && (r.Ok? ==> |r.value| == |entries| && forall i | 0 <= i < |entries| :: PayloadCall(entries[i]) == Ok(r.value[i]))
  {
    if entries != [] {
      EntriesExactly(Front(entries));
      assert entries == Front(entries) + [Last(entries)];
    }
  }

  /** A payload is a list of entries, an object that lists them, or one entry by itself. */
  lemma PayloadExactly(parts: seq<string>, parse: Parser)
    requires parts != []
    ensures var read := if parse(Last(parts)).Some? then parse(Last(parts)) else parse(Concat(parts));
            ParsePayload(parts, parse) ==
            match read
            case None => Raise(MalformedPayload)
            case Some(JArray(items)) => PayloadCalls(items)
            case Some(JObject(fields)) =>
              if "tool_calls" in fields && fields["tool_calls"].JArray? then PayloadCalls(fields["tool_calls"].items)
              else PayloadCalls([JObject(fields)])
            case Some(_) => Raise(PayloadNotObject)
  {
  }
}
