/** How a provider cuts its deltas makes no difference; how it repeats identities makes none to the engine. */
module Fragmentation {
  import opened Basics
  import opened Turns
  import opened Sorting
  import opened StreamAssembly
  import Engine

  // ---- Cutting a delta ----

  /** What two events say one after the other; the later one counts. */
  function Overlaid<T>(left: Option<T>, right: Option<T>): Option<T> {
    if right.Some? then right else left
  }

  /**
   A call event cut in two: a start and a delta, a delta and an end, or any two events of the call whose
   arguments add up and of which the later names and parsed arguments are those of the whole.
   */
  ghost predicate CutsCall(e: StreamEvent, left: StreamEvent, right: StreamEvent) {
    && IsCallEvent(e) && IsCallEvent(left) && IsCallEvent(right)
    && left.callId == e.callId == right.callId && left.ordinal == e.ordinal
    && Concat(Received(e)) == Concat(Received(left)) + Concat(Received(right))
    && e.toolName == Overlaid(left.toolName, right.toolName)
    && e.parsedArguments == Overlaid(left.parsedArguments, right.parsedArguments)
    && (e.kind.CallEnd? <==> left.kind.CallEnd? || right.kind.CallEnd?)
  }

  predicate IsText(e: StreamEvent) {
    IsTextEvent(e, TextChannel) || IsTextEvent(e, ReasoningChannel) || IsTextEvent(e, ToolChannel)
  }

  /** A text, a thought or a part of the tool payload cut in two. */
  ghost predicate CutsText(e: StreamEvent, left: StreamEvent, right: StreamEvent) {
    && IsText(e) && left.text.Some? && right.text.Some?
    && e.text.value == left.text.value + right.text.value
    && left == e.(text := left.text) && right == e.(text := right.text)
  }

  /** An event whose text or whose part of a call is cut in two. */
  ghost predicate Cuts(e: StreamEvent, left: StreamEvent, right: StreamEvent) {
    CutsCall(e, left, right) || CutsText(e, left, right)
  }

  /** Does a further part of the tool payload come before the stream ends? */
  predicate MoreParts(events: seq<StreamEvent>)
    decreases |events|
  {
    && events != []
    && (IsTextEvent(events[0], ToolChannel) || (!events[0].kind.ErrorKind? && !events[0].kind.DoneKind? && MoreParts(events[1..])))
  }

  /** Positions behind the cut move up by one. */
  function Moved(p: nat, k: int): int {
    if k <= p then k else k + 1
  }

  ghost predicate SameCall(p: nat, a: CallState, b: CallState) {
    && b.toolName == a.toolName && b.ordinal == a.ordinal && b.parsed == a.parsed && b.ended == a.ended
    && b.streamOrder == Moved(p, a.streamOrder)
    && Concat(b.fragments) == Concat(a.fragments)
  }

  ghost predicate SameCalls(p: nat, a: map<string, CallState>, b: map<string, CallState>) {
    a.Keys == b.Keys && forall id | id in a :: SameCall(p, a[id], b[id])
  }

  /** The payloads are the same but for the cut of one part, whose second half stands one position later. */
  ghost predicate SamePayload(p: nat, a: Accumulator, b: Accumulator) {
    && Concat(b.payload) == Concat(a.payload) && (b.payload == [] <==> a.payload == [])
    && (b.payloadOrder == Moved(p, a.payloadOrder) || (a.payload != [] && a.payloadOrder == p && b.payloadOrder == p + 1))
  }

  /** Two accumulators that hold the same, up to the cutting of fragments and one position. */
  ghost predicate Similar(p: nat, a: Accumulator, b: Accumulator) {
    && p < a.index && b.index == a.index + 1
    && Concat(b.output) == Concat(a.output) && Concat(b.reasoning) == Concat(a.reasoning)
    && SamePayload(p, a, b)
    && b.ids == a.ids && SameCalls(p, a.calls, b.calls)
    && b.ending == a.ending
  }

  lemma {:induction false} ConcatAppend(first: seq<string>, second: seq<string>)
    ensures Concat(first + second) == Concat(first) + Concat(second)
  {
    if second == [] {
      assert first + second == first;
    } else {
      assert Front(first + second) == first + Front(second) && Last(first + second) == Last(second);
      ConcatAppend(first, Front(second));
      assert Concat(first + second) == (Concat(first) + Concat(Front(second))) + Last(second);
    }
  }

  lemma ConcatOne(part: string)
    ensures Concat([part]) == part
  {
    assert Front([part]) == [];
  }

  lemma ConcatCut(parts: seq<string>, left: string, right: string)
    ensures Concat(parts + [left] + [right]) == Concat(parts + [left + right])
  {
    ConcatAppend(parts + [left], [right]);
    ConcatAppend(parts, [left]);
    ConcatAppend(parts, [left + right]);
    ConcatOne(left);
    ConcatOne(right);
    ConcatOne(left + right);
  }

  lemma UpdateSame(p: nat, a: CallState, b: CallState, e: StreamEvent)
    requires SameCall(p, a, b)
    ensures SameCall(p, UpdateCall(a, e), UpdateCall(b, e))
  {
    UpdateCallFields(a, e);
    UpdateCallFields(b, e);
    ConcatAppend(a.fragments, Received(e));
    ConcatAppend(b.fragments, Received(e));
  }

  lemma SameCallsUpdate(p: nat, a: map<string, CallState>, b: map<string, CallState>, id: string, x: CallState, y: CallState)
    requires SameCalls(p, a, b) && SameCall(p, x, y)
    ensures SameCalls(p, a[id := x], b[id := y])
  {
  }

  lemma FeedCallSimilar(p: nat, a: Accumulator, b: Accumulator, e: StreamEvent)
    requires Similar(p, a, b) && a.ending.None? && IsCallEvent(e)
    ensures Similar(p, Feed(a, e), Feed(b, e))
  {
    if e.callId.Some? {
      var id := e.callId.value;
      var x := if id in a.calls then a.calls[id] else NewCall(e, |a.ids|, a.index);
      var y := if id in b.calls then b.calls[id] else NewCall(e, |b.ids|, b.index);
      FeedCallFields(a, e, id, x);
      FeedCallFields(b, e, id, y);
      UpdateSame(p, x, y, e);
      SameCallsUpdate(p, a.calls, b.calls, id, UpdateCall(x, e), UpdateCall(y, e));
    } else {
      FeedIs(a, e);
      FeedIs(b, e);
    }
  }

  lemma FeedTextFields(acc: Accumulator, e: StreamEvent)
    requires acc.ending.None? && !IsCallEvent(e)
    ensures var fed := Feed(acc, e);
            && fed.output == acc.output + (if IsTextEvent(e, TextChannel) then [e.text.value] else [])
            && fed.reasoning == acc.reasoning + (if IsTextEvent(e, ReasoningChannel) then [e.text.value] else [])
            && fed.payload == acc.payload + (if IsTextEvent(e, ToolChannel) then [e.text.value] else [])
            && fed.payloadOrder == (if IsTextEvent(e, ToolChannel) then acc.index else acc.payloadOrder)
            && fed.ids == acc.ids && fed.calls == acc.calls && fed.index == acc.index + 1
            && (IsTextEvent(e, TextChannel) || IsTextEvent(e, ReasoningChannel) ==> fed.ending.None?)
            && fed.ending == FeedEnding(acc, e).ending
  {
  }

  lemma FeedTextSimilar(p: nat, a: Accumulator, b: Accumulator, e: StreamEvent)
    requires Similar(p, a, b) && a.ending.None? && !IsCallEvent(e)
    ensures Similar(p, Feed(a, e), Feed(b, e))
  {
    FeedTextFields(a, e);
    FeedTextFields(b, e);
    var said := if IsTextEvent(e, TextChannel) then [e.text.value] else [];
    var thought := if IsTextEvent(e, ReasoningChannel) then [e.text.value] else [];
    ConcatAppend(a.output, said);
    ConcatAppend(b.output, said);
    ConcatAppend(a.reasoning, thought);
    ConcatAppend(b.reasoning, thought);
    var part := if IsTextEvent(e, ToolChannel) then [e.text.value] else [];
    ConcatAppend(a.payload, part);
    ConcatAppend(b.payload, part);
  }

  lemma {:induction false} FeedAllSimilar(p: nat, a: Accumulator, b: Accumulator, events: seq<StreamEvent>)
    requires Similar(p, a, b)
    ensures var x, y := FeedAll(a, events), FeedAll(b, events); Similar(p, x, y)
    decreases |events|
  {
    if events != [] {
      if a.ending.None? {
        if IsCallEvent(events[0]) {
          FeedCallSimilar(p, a, b, events[0]);
        } else {
          FeedTextSimilar(p, a, b, events[0]);
        }
      }
      FeedAllSimilar(p, Feed(a, events[0]), Feed(b, events[0]), events[1..]);
    }
  }

  /** The record both ways of cutting start from: a new one has the name of the event that made it. */
  ghost predicate StartsAs(st: CallState, begun: CallState, e: StreamEvent, left: StreamEvent) {
    begun == st || (begun == st.(toolName := left.toolName) && st.toolName == e.toolName)
  }

  lemma UpdateCut(p: nat, st: CallState, begun: CallState, e: StreamEvent, left: StreamEvent, right: StreamEvent)
    requires CutsCall(e, left, right) && st.streamOrder <= p && StartsAs(st, begun, e, left)
    ensures SameCall(p, UpdateCall(st, e), UpdateCall(UpdateCall(begun, left), right))
  {
    UpdateCallFields(begun, left);
    UpdateCallFields(UpdateCall(begun, left), right);
    UpdateCallFields(st, e);
    ConcatParts(st.fragments, Received(e), Received(left), Received(right));
  }

  lemma ConcatParts(parts: seq<string>, whole: seq<string>, left: seq<string>, right: seq<string>)
    requires Concat(whole) == Concat(left) + Concat(right)
    ensures Concat(parts + left + right) == Concat(parts + whole)
  {
    ConcatAppend(parts, whole);
    ConcatAppend(parts + left, right);
    ConcatAppend(parts, left);
    Associative(Concat(parts), Concat(left), Concat(right));
  }

  lemma FeedCallFields(acc: Accumulator, e: StreamEvent, id: string, st: CallState)
    requires acc.ending.None? && IsCallEvent(e) && e.callId == Some(id)
    requires st == if id in acc.calls then acc.calls[id] else NewCall(e, |acc.ids|, acc.index)
    ensures Feed(acc, e) == acc.(ids := if id in acc.calls then acc.ids else acc.ids + [id],
                                 calls := acc.calls[id := UpdateCall(st, e)], index := acc.index + 1)
  {
  }

  lemma EntrySimilar(acc: Accumulator, ids: seq<string>, id: string, x: CallState, y: CallState)
    requires OrdersOk(acc) && SameCall(acc.index, x, y)
    ensures Similar(acc.index, acc.(ids := ids, calls := acc.calls[id := x], index := acc.index + 1),
                    acc.(ids := ids, calls := acc.calls[id := y], index := acc.index + 2))
  {
  }

  lemma TwoFeeds(acc: Accumulator, left: StreamEvent, right: StreamEvent, id: string, st: CallState)
    requires acc.ending.None? && IsCallEvent(left) && IsCallEvent(right) && left.callId == right.callId == Some(id)
    requires st == if id in acc.calls then acc.calls[id] else NewCall(left, |acc.ids|, acc.index)
    ensures Feed(Feed(acc, left), right) ==
            acc.(ids := if id in acc.calls then acc.ids else acc.ids + [id],
                 calls := acc.calls[id := UpdateCall(UpdateCall(st, left), right)], index := acc.index + 2)
  {
    var ids, y := if id in acc.calls then acc.ids else acc.ids + [id], UpdateCall(st, left);
    FeedCallFields(acc, left, id, st);
    FeedCallFields(acc.(ids := ids, calls := acc.calls[id := y], index := acc.index + 1), right, id, y);
    assert acc.calls[id := y][id := UpdateCall(y, right)] == acc.calls[id := UpdateCall(y, right)];
  }

  lemma CutKnownCall(acc: Accumulator, e: StreamEvent, left: StreamEvent, right: StreamEvent, id: string, st: CallState, begun: CallState)
    requires OrdersOk(acc) && acc.ending.None? && CutsCall(e, left, right) && e.callId == Some(id)
    requires st == if id in acc.calls then acc.calls[id] else NewCall(e, |acc.ids|, acc.index)
    requires begun == if id in acc.calls then acc.calls[id] else NewCall(left, |acc.ids|, acc.index)
    requires st.streamOrder <= acc.index
    ensures Similar(acc.index, Feed(acc, e), Feed(Feed(acc, left), right))
  {
    FeedCallFields(acc, e, id, st);
    TwoFeeds(acc, left, right, id, begun);
    UpdateCut(acc.index, st, begun, e, left, right);
    EntrySimilar(acc, if id in acc.calls then acc.ids else acc.ids + [id], id, UpdateCall(st, e), UpdateCall(UpdateCall(begun, left), right));
  }

  lemma CutCallSimilar(acc: Accumulator, e: StreamEvent, left: StreamEvent, right: StreamEvent)
    requires OrdersOk(acc) && acc.ending.None? && CutsCall(e, left, right)
    ensures Similar(acc.index, Feed(acc, e), Feed(Feed(acc, left), right))
  {
    if e.callId.Some? {
      var id := e.callId.value;
      var known := id in acc.calls;
      CutKnownCall(acc, e, left, right, id, if known then acc.calls[id] else NewCall(e, |acc.ids|, acc.index),
                   if known then acc.calls[id] else NewCall(left, |acc.ids|, acc.index));
    } else {
      FeedIs(acc, e);
      FeedIs(acc, left);
      FeedIs(Feed(acc, left), right);
    }
  }

  /** The two halves of a text, fed one after the other. */
  lemma HalvesFed(acc: Accumulator, e: StreamEvent, left: StreamEvent, right: StreamEvent)
    requires acc.ending.None? && CutsText(e, left, right)
    ensures var fed, halves := Feed(Feed(acc, left), right), [left.text.value] + [right.text.value];
            && fed.output == acc.output + (if IsTextEvent(e, TextChannel) then halves else [])
            && fed.reasoning == acc.reasoning + (if IsTextEvent(e, ReasoningChannel) then halves else [])
            && fed.payload == acc.payload + (if IsTextEvent(e, ToolChannel) then halves else [])
            && fed.payloadOrder == (if IsTextEvent(e, ToolChannel) then acc.index + 1 else acc.payloadOrder)
            && fed.ids == acc.ids && fed.calls == acc.calls && fed.index == acc.index + 2 && fed.ending.None?
  {
    FeedTextFields(acc, left);
    FeedTextFields(Feed(acc, left), right);
  }

  lemma WholeFed(acc: Accumulator, e: StreamEvent)
    requires acc.ending.None? && IsText(e)
    ensures var fed, whole := Feed(acc, e), [e.text.value];
            && fed.output == acc.output + (if IsTextEvent(e, TextChannel) then whole else [])
            && fed.reasoning == acc.reasoning + (if IsTextEvent(e, ReasoningChannel) then whole else [])
            && fed.payload == acc.payload + (if IsTextEvent(e, ToolChannel) then whole else [])
            && fed.payloadOrder == (if IsTextEvent(e, ToolChannel) then acc.index else acc.payloadOrder)
            && fed.ids == acc.ids && fed.calls == acc.calls && fed.index == acc.index + 1 && fed.ending.None?
  {
    FeedTextFields(acc, e);
  }

  lemma HalvesJoin(parts: seq<string>, left: string, right: string, apply: bool)
    ensures Concat(parts + (if apply then [left] + [right] else [])) == Concat(parts + (if apply then [left + right] else []))
  {
    if apply {
      ConcatCut(parts, left, right);
      assert parts + [left] + [right] == parts + ([left] + [right]);
    }
  }

  lemma CutTextSimilar(acc: Accumulator, e: StreamEvent, left: StreamEvent, right: StreamEvent)
    requires OrdersOk(acc) && acc.ending.None? && CutsText(e, left, right)
    ensures Similar(acc.index, Feed(acc, e), Feed(Feed(acc, left), right))
  {
    WholeFed(acc, e);
    HalvesFed(acc, e, left, right);
    HalvesJoin(acc.output, left.text.value, right.text.value, IsTextEvent(e, TextChannel));
    HalvesJoin(acc.reasoning, left.text.value, right.text.value, IsTextEvent(e, ReasoningChannel));
    HalvesJoin(acc.payload, left.text.value, right.text.value, IsTextEvent(e, ToolChannel));
    OwnCallsSame(acc.index, acc.calls);
    CutTextFits(acc, Feed(acc, e), Feed(Feed(acc, left), right), IsTextEvent(e, ToolChannel));
  }

  lemma CutTextFits(acc: Accumulator, a: Accumulator, b: Accumulator, part: bool)
    requires acc.payloadOrder <= acc.index && (acc.payload != [] ==> acc.payloadOrder < acc.index)
    requires a.index == acc.index + 1 && b.index == acc.index + 2 && a.ending == b.ending
    requires Concat(b.output) == Concat(a.output) && Concat(b.reasoning) == Concat(a.reasoning) && Concat(b.payload) == Concat(a.payload)
    requires if part then a.payload != [] && b.payload != [] && a.payloadOrder == acc.index && b.payloadOrder == acc.index + 1
             else a.payload == acc.payload == b.payload && a.payloadOrder == acc.payloadOrder == b.payloadOrder
    requires a.ids == acc.ids == b.ids && a.calls == acc.calls == b.calls && SameCalls(acc.index, acc.calls, acc.calls)
    ensures Similar(acc.index, a, b)
  {
  }

  lemma OwnCallsSame(p: nat, calls: map<string, CallState>)
    requires forall id | id in calls :: calls[id].streamOrder < p
    ensures SameCalls(p, calls, calls)
  {
  }

  // ---- Similar accumulators give the same turn ----

  lemma SameReading(p: nat, id: string, a: CallState, b: CallState, parse: Parser)
    requires SameCall(p, a, b)
    ensures ReadCall(id, a, parse) == ReadCall(id, b, parse)
  {
  }

  /** The same calls at positions that moved. */
  ghost predicate SameRanked(p: nat, a: seq<Ranked>, b: seq<Ranked>) {
    |a| == |b| && forall i | 0 <= i < |a| :: b[i].call == a[i].call && b[i].key.first == Moved(p, a[i].key.first)
  }

  lemma {:induction false} SameLifecycle(p: nat, ids: seq<string>, a: map<string, CallState>, b: map<string, CallState>, parse: Parser)
    requires SameCalls(p, a, b) && forall i | 0 <= i < |ids| :: ids[i] in a
    ensures SameRanked(p, LifecycleCalls(ids, a, parse), LifecycleCalls(ids, b, parse))
    ensures SomeMalformed(ids, a, parse) <==> SomeMalformed(ids, b, parse)
  {
    forall i | 0 <= i < |ids| ensures ReadCall(ids[i], a[ids[i]], parse) == ReadCall(ids[i], b[ids[i]], parse) {
      SameReading(p, ids[i], a[ids[i]], b[ids[i]], parse);
    }
    if ids != [] {
      SameLifecycle(p, Front(ids), a, b, parse);
    }
  }

  /** The place of the payload among the calls is the same, if no call stands at the position of the cut. */
  lemma {:induction false} SameCut(p: nat, a: seq<Ranked>, b: seq<Ranked>, order: nat, moved: nat)
    requires SameRanked(p, a, b)
    requires moved == Moved(p, order) || (order == p && moved == p + 1 && forall i | 0 <= i < |a| :: a[i].key.first != p)
    ensures Cut(b, moved) == Cut(a, order)
  {
    if a != [] && !(Last(a).key.first < order) {
      SameCut(p, Front(a), Front(b), order, moved);
    }
  }

  lemma {:induction false} RankedInOrder(ids: seq<string>, calls: map<string, CallState>, parse: Parser, p: nat)
    requires forall i | 0 <= i < |ids| :: ids[i] in calls && calls[ids[i]].streamOrder != p
    ensures forall i | 0 <= i < |LifecycleCalls(ids, calls, parse)| :: LifecycleCalls(ids, calls, parse)[i].key.first != p
  {
    if ids != [] {
      RankedInOrder(Front(ids), calls, parse, p);
    }
  }

  lemma SamePlace(p: nat, a: Accumulator, b: Accumulator, parse: Parser)
    requires Similar(p, a, b) && OrdersOk(a)
    ensures var x, y := LifecycleCalls(a.ids, a.calls, parse), LifecycleCalls(b.ids, b.calls, parse);
            var cut := Cut(x, a.payloadOrder);
            && Cut(y, b.payloadOrder) == cut
            && CallsOf(x[..cut]) == CallsOf(y[..cut]) && CallsOf(x[cut..]) == CallsOf(y[cut..])
            && (SomeMalformed(a.ids, a.calls, parse) <==> SomeMalformed(b.ids, b.calls, parse))
  {
    SameLifecycle(p, a.ids, a.calls, b.calls, parse);
    if a.payload != [] {
      RankedInOrder(a.ids, a.calls, parse, a.payloadOrder);
    }
    var x, y := LifecycleCalls(a.ids, a.calls, parse), LifecycleCalls(b.ids, b.calls, parse);
    SameCut(p, x, y, a.payloadOrder, b.payloadOrder);
    SameSides(p, x, y, Cut(x, a.payloadOrder));
  }

  lemma SameSides(p: nat, a: seq<Ranked>, b: seq<Ranked>, cut: nat)
    requires SameRanked(p, a, b) && cut <= |a|
    ensures CallsOf(a[..cut]) == CallsOf(b[..cut]) && CallsOf(a[cut..]) == CallsOf(b[cut..])
  {
  }

  /** Similar accumulators give the same turn as soon as their payloads are read alike. */
  lemma SimilarAssemble(p: nat, a: Accumulator, b: Accumulator, parse: Parser)
    requires Similar(p, a, b) && OrdersOk(a) && ParsePayload(b.payload, parse) == ParsePayload(a.payload, parse)
    ensures Assembled(a, parse) == Assembled(b, parse)
  {
    SamePlace(p, a, b, parse);
  }

  // ---- How payloads are read ----

  /** The same joined text and the same last part: all that reading a payload looks at. */
  ghost predicate ReadAlike(a: seq<string>, b: seq<string>) {
    Concat(a) == Concat(b) && (a == [] <==> b == []) && (a != [] ==> Last(a) == Last(b))
  }

  /** A further part behind the cut makes payloads read alike; without one they stay as they were. */
  lemma {:induction false} PartsBehind(p: nat, a: Accumulator, b: Accumulator, events: seq<StreamEvent>)
    requires Similar(p, a, b) && a.ending.None?
    ensures var x, y := FeedAll(a, events), FeedAll(b, events);
            && (ReadAlike(a.payload, b.payload) || MoreParts(events) ==> ReadAlike(x.payload, y.payload))
            && (!MoreParts(events) ==> x.payload == a.payload && y.payload == b.payload)
    decreases |events|
  {
    if events != [] {
      var e := events[0];
      PartNext(p, a, b, e);
      if Feed(a, e).ending.None? {
        PartsBehind(p, Feed(a, e), Feed(b, e), events[1..]);
      } else {
        FeedAllEnded(Feed(a, e), events[1..]);
        FeedAllEnded(Feed(b, e), events[1..]);
      }
    }
  }

  lemma PartNext(p: nat, a: Accumulator, b: Accumulator, e: StreamEvent)
    requires Similar(p, a, b) && a.ending.None?
    ensures var x, y := Feed(a, e), Feed(b, e);
            && Similar(p, x, y)
            && (x.ending.Some? <==> e.kind.ErrorKind? || e.kind.DoneKind?)
            && (IsTextEvent(e, ToolChannel) ==> ReadAlike(x.payload, y.payload))
            && (!IsTextEvent(e, ToolChannel) ==> x.payload == a.payload && y.payload == b.payload)
  {
    if IsCallEvent(e) {
      FeedCallSimilar(p, a, b, e);
      FeedIs(a, e);
      FeedIs(b, e);
    } else {
      FeedTextSimilar(p, a, b, e);
      FeedTextFields(a, e);
      FeedTextFields(b, e);
    }
  }

  lemma {:induction false} FeedAllEnded(acc: Accumulator, events: seq<StreamEvent>)
    requires acc.ending.Some?
    ensures FeedAll(acc, events) == acc
    decreases |events|
  {
    if events != [] {
      FeedAllEnded(acc, events[1..]);
    }
  }

  // ---- Cutting and the turn ----

  lemma StreamsOk(before: seq<StreamEvent>, e: StreamEvent, left: StreamEvent, right: StreamEvent, after: seq<StreamEvent>)
    ensures OrdersOk(FeedAll(EMPTY, before))
    ensures OrdersOk(FeedAll(EMPTY, before + [e] + after)) && OrdersOk(FeedAll(EMPTY, before + [left, right] + after))
  {
    FeedAllKeeps(EMPTY, before);
    FeedAllKeeps(EMPTY, before + [e] + after);
    FeedAllKeeps(EMPTY, before + [left, right] + after);
  }

  lemma AlikeAssemble(p: nat, a: Accumulator, b: Accumulator, after: seq<StreamEvent>, parse: Parser)
    requires Similar(p, a, b) && a.ending.None? && (ReadAlike(a.payload, b.payload) || MoreParts(after))
    requires OrdersOk(FeedAll(a, after)) && OrdersOk(FeedAll(b, after))
    ensures Assembled(FeedAll(b, after), parse) == Assembled(FeedAll(a, after), parse)
  {
    FeedAllSimilar(p, a, b, after);
    PartsBehind(p, a, b, after);
    SimilarAssemble(p, FeedAll(a, after), FeedAll(b, after), parse);
  }

  /**
   Cutting any text or reasoning delta, any part of a call, and any part of the tool payload but the last of
   any stream in two leaves the turn as it is: the same calls in the same order, the same output, the same
   reasoning, or the same error.
   */
  lemma FragmentationInvariance(before: seq<StreamEvent>, e: StreamEvent, left: StreamEvent, right: StreamEvent,
                                after: seq<StreamEvent>, parse: Parser)
    requires Cuts(e, left, right) && (IsTextEvent(e, ToolChannel) ==> MoreParts(after))
    ensures OrdersOk(FeedAll(EMPTY, before + [e] + after)) && OrdersOk(FeedAll(EMPTY, before + [left, right] + after))
    ensures Assembled(FeedAll(EMPTY, before + [left, right] + after), parse) == Assembled(FeedAll(EMPTY, before + [e] + after), parse)
  {
    var acc := FeedAll(EMPTY, before);
    StreamsOk(before, e, left, right, after);
    FedAround(before, e, left, right, after);
    if acc.ending.None? {
      CutSimilar(acc, e, left, right);
      AlikeAssemble(acc.index, Feed(acc, e), Feed(Feed(acc, left), right), after, parse);
    }
  }

  lemma CutSimilar(acc: Accumulator, e: StreamEvent, left: StreamEvent, right: StreamEvent)
    requires OrdersOk(acc) && acc.ending.None? && Cuts(e, left, right)
    ensures var a, b := Feed(acc, e), Feed(Feed(acc, left), right);
            Similar(acc.index, a, b) && a.ending.None? && (!IsTextEvent(e, ToolChannel) ==> ReadAlike(a.payload, b.payload))
  {
    if CutsCall(e, left, right) {
      CutCallSimilar(acc, e, left, right);
      CallKeepsPayload(acc, e);
      CallKeepsPayload(acc, left);
      CallKeepsPayload(Feed(acc, left), right);
    } else {
      CutTextSimilar(acc, e, left, right);
      WholeFed(acc, e);
      HalvesFed(acc, e, left, right);
    }
  }

  lemma CallKeepsPayload(acc: Accumulator, e: StreamEvent)
    requires acc.ending.None? && IsCallEvent(e)
    ensures Feed(acc, e).payload == acc.payload && Feed(acc, e).ending.None?
  {
    FeedIs(acc, e);
  }

  /** What reading the payload comes to, if this is its last part. */
  function ReadFrom(last: string, joined: string, parse: Parser): Option<Json> {
    if parse(last).Some? then parse(last) else parse(joined)
  }

  /**
   Cutting the last part of the tool payload: the payload is read as before exactly if the second half, or
   else the joined text, reads as the whole part did, or else the joined text; and then the turn is the same.
   */
  lemma LastPartExactly(before: seq<StreamEvent>, e: StreamEvent, left: StreamEvent, right: StreamEvent,
                        after: seq<StreamEvent>, parse: Parser)
    requires CutsText(e, left, right) && IsTextEvent(e, ToolChannel) && FeedAll(EMPTY, before).ending.None? && !MoreParts(after)
    ensures var x, y := FeedAll(EMPTY, before + [e] + after), FeedAll(EMPTY, before + [left, right] + after);
            && OrdersOk(x) && OrdersOk(y) && x.payload != [] && y.payload != []
            && (PayloadText(y.payload, parse) == PayloadText(x.payload, parse) <==>
                  ReadFrom(right.text.value, Concat(x.payload), parse) == ReadFrom(e.text.value, Concat(x.payload), parse))
            && (PayloadText(y.payload, parse) == PayloadText(x.payload, parse) ==> Assembled(y, parse) == Assembled(x, parse))
  {
    var acc := FeedAll(EMPTY, before);
    StreamsOk(before, e, left, right, after);
    FedAround(before, e, left, right, after);
    CutSimilar(acc, e, left, right);
    WholeFed(acc, e);
    HalvesFed(acc, e, left, right);
    LastPart(acc, Feed(acc, e), Feed(Feed(acc, left), right), left.text.value, right.text.value, after, parse);
  }

  lemma LastPart(acc: Accumulator, a: Accumulator, b: Accumulator, left: string, right: string, after: seq<StreamEvent>, parse: Parser)
    requires Similar(acc.index, a, b) && a.ending.None? && !MoreParts(after)
    requires a.payload == acc.payload + [left + right] && b.payload == acc.payload + ([left] + [right])
    requires OrdersOk(FeedAll(a, after)) && OrdersOk(FeedAll(b, after))
    ensures var x, y := FeedAll(a, after), FeedAll(b, after);
            && x.payload != [] && y.payload != []
            && (PayloadText(y.payload, parse) == PayloadText(x.payload, parse) <==>
                  ReadFrom(right, Concat(x.payload), parse) == ReadFrom(left + right, Concat(x.payload), parse))
            && (PayloadText(y.payload, parse) == PayloadText(x.payload, parse) ==> Assembled(y, parse) == Assembled(x, parse))
  {
    FeedAllSimilar(acc.index, a, b, after);
    PartsBehind(acc.index, a, b, after);
    var x, y := FeedAll(a, after), FeedAll(b, after);
    if PayloadText(y.payload, parse) == PayloadText(x.payload, parse) {
      SimilarAssemble(acc.index, x, y, parse);
    }
  }

  lemma FedAround(before: seq<StreamEvent>, e: StreamEvent, left: StreamEvent, right: StreamEvent, after: seq<StreamEvent>)
    ensures var acc := FeedAll(EMPTY, before);
            && FeedAll(EMPTY, before + [e] + after) == FeedAll(Feed(acc, e), after)
            && FeedAll(EMPTY, before + [left, right] + after) == FeedAll(Feed(Feed(acc, left), right), after)
            && (acc.ending.Some? ==> Feed(acc, e) == Feed(Feed(acc, left), right))
  {
    FeedConcat(EMPTY, before + [e], after);
    FeedConcat(EMPTY, before, [e]);
    FeedConcat(EMPTY, before + [left, right], after);
    FeedConcat(EMPTY, before, [left, right]);
    FeedOneTwo(FeedAll(EMPTY, before), e, left, right);
  }

  lemma FeedOneTwo(acc: Accumulator, e: StreamEvent, left: StreamEvent, right: StreamEvent)
    ensures FeedAll(acc, [e]) == Feed(acc, e)
    ensures FeedAll(acc, [left, right]) == Feed(Feed(acc, left), right)
  {
    assert [left, right][1..] == [right] && [right][1..] == [] && [e][1..] == [];
    assert FeedAll(acc, [left, right]) == FeedAll(Feed(acc, left), [right]);
  }

  // ---- A payload that is cut and no longer read ----

  /** A parser that knows the empty array only. */
  function Brackets(text: string): Option<Json> {
    if text == "[]" then Some(JArray([])) else None
  }

  function PartOf(text: string): StreamEvent {
    StreamEvent(Delta, ToolChannel, Some(text), false, None, None, None, None, None, None)
  }

  const STOPPED := StreamEvent(DoneKind, TextChannel, None, false, Some(Stop), None, None, None, None, None)

  lemma BracketsAreCut()
    ensures CutsText(PartOf("[]"), PartOf("["), PartOf("]"))
  {
    assert "[" + "]" == "[]";
  }

  /** The part is repeated, whole and then cut in two. */
  ghost function Repeated(cut: bool): Accumulator {
    var e := PartOf("[]");
    FeedAll(EMPTY, [e] + (if cut then [PartOf("["), PartOf("]")] else [e]) + [STOPPED])
  }

  /** A payload that its provider repeats is read from its last part; with that part cut in two it is malformed. */
  lemma CutPayloadIsMalformed()
    ensures CutsText(PartOf("[]"), PartOf("["), PartOf("]"))
    ensures OrdersOk(Repeated(false)) && Assembled(Repeated(false), Brackets).Ok?
    ensures OrdersOk(Repeated(true)) && Assembled(Repeated(true), Brackets) == Raise(MalformedPayload)
  {
    BracketsAreCut();
    RepeatedIsRead();
    RepeatedIsMalformed();
  }

  lemma RepeatedIsRead()
    ensures OrdersOk(Repeated(false)) && Assembled(Repeated(false), Brackets).Ok?
  {
    RepeatedIsFed(PartOf("[]"), PartOf("["), PartOf("]"), [STOPPED]);
    FirstPart();
    WholeIsRead(Feed(EMPTY, PartOf("[]")));
  }

  lemma RepeatedIsMalformed()
    ensures OrdersOk(Repeated(true)) && Assembled(Repeated(true), Brackets) == Raise(MalformedPayload)
  {
    RepeatedIsFed(PartOf("[]"), PartOf("["), PartOf("]"), [STOPPED]);
    FirstPart();
    CutIsMalformed(Feed(EMPTY, PartOf("[]")));
  }

  lemma FirstPart()
    ensures Feed(EMPTY, PartOf("[]")) == Accumulator([], [], ["[]"], 0, [], map[], 1, None)
  {
    PartIsFed(EMPTY, "[]");
    assert [] + ["[]"] == ["[]"];
  }

  lemma RepeatedIsFed(e: StreamEvent, left: StreamEvent, right: StreamEvent, after: seq<StreamEvent>)
    ensures FeedAll(EMPTY, [e] + [e] + after) == FeedAll(Feed(Feed(EMPTY, e), e), after)
    ensures FeedAll(EMPTY, [e] + [left, right] + after) == FeedAll(Feed(Feed(Feed(EMPTY, e), left), right), after)
    ensures OrdersOk(FeedAll(EMPTY, [e] + [e] + after)) && OrdersOk(FeedAll(EMPTY, [e] + [left, right] + after))
  {
    StreamsOk([e], e, left, right, after);
    FedAround([e], e, left, right, after);
    FeedOneTwo(EMPTY, e, left, right);
  }

  lemma WholeIsRead(acc: Accumulator)
    requires acc == Accumulator([], [], ["[]"], 0, [], map[], 1, None)
    ensures var x := FeedAll(Feed(acc, PartOf("[]")), [STOPPED]); OrdersOk(x) ==> Assembled(x, Brackets).Ok?
  {
    PartIsFed(acc, "[]");
    StopIsFed(Feed(acc, PartOf("[]")));
  }

  lemma CutIsMalformed(acc: Accumulator)
    requires acc == Accumulator([], [], ["[]"], 0, [], map[], 1, None)
    ensures var y := FeedAll(Feed(Feed(acc, PartOf("[")), PartOf("]")), [STOPPED]);
            OrdersOk(y) ==> Assembled(y, Brackets) == Raise(MalformedPayload)
  {
    PartIsFed(acc, "[");
    PartIsFed(Feed(acc, PartOf("[")), "]");
    StopIsFed(Feed(Feed(acc, PartOf("[")), PartOf("]")));
    JoinedIsNone();
    assert ["[]"] + ["["] + ["]"] == ["[]", "[", "]"];
  }

  lemma PartIsFed(acc: Accumulator, text: string)
    requires acc.ending.None?
    ensures Feed(acc, PartOf(text)) == acc.(payload := acc.payload + [text], payloadOrder := acc.index, index := acc.index + 1)
  {
  }

  lemma StopIsFed(acc: Accumulator)
    requires acc.ending.None?
    ensures FeedAll(acc, [STOPPED]) == acc.(ending := Some(Reached(Some(Stop))), index := acc.index + 1)
  {
    assert [STOPPED][1..] == [];
  }

  lemma JoinedIsNone()
    ensures Brackets(Concat(["[]", "[", "]"])).None? && Brackets("]").None?
  {
    ConcatAppend(["[]", "["], ["]"]);
    ConcatAppend(["[]"], ["["]);
    ConcatOne("[]");
    ConcatOne("[");
    ConcatOne("]");
    assert ["[]", "["] + ["]"] == ["[]", "[", "]"] && ["[]"] + ["["] == ["[]", "["];
    assert |Concat(["[]", "[", "]"])| == 4;
  }

  // ---- Merging ----

  /** The place at which an identity is mentioned first. */
  ghost predicate FirstAt(calls: seq<ToolCall>, i: int) {
    0 <= i < |calls| && forall k | 0 <= k < i :: calls[k].toolCallId != calls[i].toolCallId
  }

  ghost predicate DistinctIdentities(calls: seq<ToolCall>) {
    forall i, j | 0 <= i < j < |calls| && calls[i].toolCallId.Some? :: calls[i].toolCallId != calls[j].toolCallId
  }

  /** The places that survive merging: calls without an identity, and the first of each identity. */
  function Surviving(calls: seq<ToolCall>): seq<nat> {
    if calls == [] then []
    else if Last(calls).toolCallId.Some? && Mentions(Front(calls), Last(calls).toolCallId) then Surviving(Front(calls))
    else Surviving(Front(calls)) + [|calls| - 1]
  }

  lemma MentionedNotFirst(calls: seq<ToolCall>)
    requires calls != []
    ensures FirstAt(calls, |calls| - 1) <==> !Mentions(Front(calls), Last(calls).toolCallId)
    ensures forall k | 0 <= k < |calls| - 1 :: FirstAt(calls, k) <==> FirstAt(Front(calls), k)
  {
    forall k | 0 <= k < |calls| - 1 ensures FirstAt(calls, k) <==> FirstAt(Front(calls), k) {
      assert forall i | 0 <= i < |calls| - 1 :: Front(calls)[i] == calls[i];
    }
  }

  lemma {:induction false} SurvivingPlaces(calls: seq<ToolCall>)
    ensures forall k :: k in Surviving(calls) ==> 0 <= k < |calls|
    ensures forall k | 0 <= k < |calls| :: k in Surviving(calls) <==> calls[k].toolCallId.None? || FirstAt(calls, k)
  {
    if calls != [] {
      SurvivingPlaces(Front(calls));
      MentionedNotFirst(calls);
    }
  }

  lemma {:induction false} SurvivingInOrder(calls: seq<ToolCall>)
    ensures var places := Surviving(calls);
            && |Deduped(calls)| == |places|
            && (forall i | 0 <= i < |places| :: places[i] < |calls| && Deduped(calls)[i] == calls[places[i]])
            && (forall i, j | 0 <= i < j < |places| :: places[i] < places[j])
  {
    if calls != [] {
      var front, last := Front(calls), Last(calls);
      SurvivingInOrder(front);
      if !(last.toolCallId.Some? && Mentions(front, last.toolCallId)) {
        assert Surviving(calls) == Surviving(front) + [|front|];
        assert Deduped(calls) == Deduped(front) + [last];
      }
    }
  }

  /** Merging keeps exactly these places, in order. */
  lemma MergedExactly(calls: seq<ToolCall>)
    ensures var places := Surviving(calls);
            && |Deduped(calls)| == |places|
            && (forall i | 0 <= i < |places| :: places[i] < |calls| && Deduped(calls)[i] == calls[places[i]])
            && (forall i, j | 0 <= i < j < |places| :: places[i] < places[j])
            && (forall k | 0 <= k < |calls| :: k in places <==> calls[k].toolCallId.None? || FirstAt(calls, k))
  {
    SurvivingInOrder(calls);
    SurvivingPlaces(calls);
  }

  /** Merging leaves no identity twice. */
  lemma MergedDistinct(calls: seq<ToolCall>)
    ensures DistinctIdentities(Deduped(calls))
  {
    MergedExactly(calls);
    var places, merged := Surviving(calls), Deduped(calls);
    forall i, j | 0 <= i < j < |merged| && merged[i].toolCallId.Some? ensures merged[i].toolCallId != merged[j].toolCallId {
      assert places[i] < places[j] && places[j] in places;
      assert calls[places[j]].toolCallId.None? || FirstAt(calls, places[j]);
    }
  }

  /** A generated identity is fresh when it differs from all others. */
  ghost predicate FreshIds(calls: seq<ToolCall>, hexes: seq<string>)
    requires |hexes| == |calls|
  {
    forall i, j | 0 <= i < |calls| && 0 <= j < |calls| && i != j && calls[i].toolCallId.None? ::
      Some("call-" + hexes[i]) != (if calls[j].toolCallId.Some? then calls[j].toolCallId else Some("call-" + hexes[j]))
  }

  /** So the engine never refuses a streamed turn for its identities. */
  lemma StreamedTurnsBegin(acc: Accumulator, parse: Parser, s: Engine.State, hexes: seq<string>)
    requires OrdersOk(acc) && Assembled(acc, parse).Ok?
    requires var calls := Assembled(acc, parse).value.calls; |hexes| == |calls| && FreshIds(calls, hexes)
    requires s.pending == []
    ensures Engine.BeginBatch(s, ToolTurn(Assembled(acc, parse).value.calls, [], None), hexes).Ok?
  {
    var appeared := LifecycleCalls(acc.ids, acc.calls, parse);
    var cut := Cut(appeared, acc.payloadOrder);
    var payload := ParsePayload(acc.payload, parse).value;
    MergedDistinct(CallsOf(appeared[..cut]) + payload + CallsOf(appeared[cut..]));
    IdentifiedDistinct(Assembled(acc, parse).value.calls, hexes);
  }

  lemma IdentifiedDistinct(calls: seq<ToolCall>, hexes: seq<string>)
    requires |hexes| == |calls| && FreshIds(calls, hexes) && DistinctIdentities(calls)
    ensures AllDifferent(CallIds(Engine.Identified(calls, hexes)))
  {
    var identified := Engine.Identified(calls, hexes);
    forall i, j | 0 <= i < j < |identified| ensures CallIds(identified)[i] != CallIds(identified)[j] {
      assert calls[i].toolCallId.Some? ==> calls[i].toolCallId != calls[j].toolCallId;
    }
  }
}
