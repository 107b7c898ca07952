/** The model-facing transcript of a run: its shape, its growth, and when filtering it through result views loses nothing. */
module Transcript {
  import opened Basics
  import opened Turns
  import opened Engine
  import opened EngineInvariant

  function SegmentsOf(s: State, views: Option<seq<ToolResultView>>): seq<ContextSegment>
    requires RefersTo(s.transcript, |s.batches|)
  {
    Segments(s.batches, s.transcript, views)
  }

  // ---- Shape ----

  ghost predicate IsCallSegment(c: ContextSegment) {
    c.role == Assistant && c.toolCallId.Some?
  }

  /** Calls and results come in adjacent pairs of one identity, and in no other way. */
  ghost predicate Paired(segments: seq<ContextSegment>) {
    && (forall i | 0 <= i < |segments| && segments[i].role == Tool ::
          i > 0 && IsCallSegment(segments[i - 1]) && segments[i - 1].toolCallId == segments[i].toolCallId)
    && (forall i | 0 <= i < |segments| && IsCallSegment(segments[i]) ::
          i + 1 < |segments| && segments[i + 1].role == Tool && segments[i + 1].toolCallId == segments[i].toolCallId)
  }

  lemma PairedConcat(a: seq<ContextSegment>, b: seq<ContextSegment>)
    requires Paired(a) && Paired(b)
    ensures Paired(a + b)
  {
    var c := a + b;
    forall i | 0 <= i < |c| && c[i].role == Tool
      ensures i > 0 && IsCallSegment(c[i - 1]) && c[i - 1].toolCallId == c[i].toolCallId
    {
      if i >= |a| {
        assert b[i - |a|].role == Tool;
        assert c[i - 1] == b[i - |a| - 1];
      }
    }
    forall i | 0 <= i < |c| && IsCallSegment(c[i])
      ensures i + 1 < |c| && c[i + 1].role == Tool && c[i + 1].toolCallId == c[i].toolCallId
    {
      if i < |a| {
        assert IsCallSegment(a[i]);
        assert c[i + 1] == a[i + 1];
      } else {
        assert IsCallSegment(b[i - |a|]);
      }
    }
  }

  /** The free text of a transcript never poses as a tool exchange. */
  ghost predicate PlainText(transcript: seq<Entry>) {
    forall i | 0 <= i < |transcript| && transcript[i].Text? ::
      transcript[i].segment.role != Tool && transcript[i].segment.toolCallId.None?
  }

  lemma {:induction false} ResultSegmentsPaired(b: TurnBatch, n: nat, views: Option<seq<ToolResultView>>)
    requires BatchOk(b) && n <= |b.results|
    ensures Paired(ResultSegments(b, n, views))
  {
    if n > 0 {
      ResultSegmentsPaired(b, n - 1, views);
      PairedConcat(ResultSegments(b, n - 1, views), PairSegments(b.calls[n - 1], b.results[n - 1], b.reasoning, views));
    }
  }

  /** Every tool segment directly follows the assistant segment with its identity, filtered or not. */
  lemma {:induction false} SegmentsPaired(batches: seq<TurnBatch>, transcript: seq<Entry>, views: Option<seq<ToolResultView>>)
    requires BatchesOk(batches) && RefersTo(transcript, |batches|) && PlainText(transcript)
    ensures Paired(Segments(batches, transcript, views))
  {
    if transcript != [] {
      SegmentsPaired(batches, Front(transcript), views);
      var entry := Last(transcript);
      if entry.BatchAt? && Complete(batches[entry.index]) {
        ResultSegmentsPaired(batches[entry.index], |batches[entry.index].results|, views);
      }
      PairedConcat(Segments(batches, Front(transcript), views), EntrySegments(batches, entry, views));
    }
  }

  lemma StepKeepsPlainText(m: Machine, a: Answer)
    requires Inv(m) && Allowed(m.pc, a) && PlainText(m.state.transcript)
    ensures PlainText(Step(m, a).state.transcript)
  {
  }

  lemma {:induction false} RunKeepsPlainText(trace: seq<Machine>, answers: seq<Answer>, i: nat)
    requires Run(trace, answers) && i < |trace| && PlainText(trace[0].state.transcript)
    ensures Inv(trace[i]) && PlainText(trace[i].state.transcript)
  {
    RunKeepsInv(trace, answers, i);
    if i > 0 {
      RunKeepsPlainText(trace, answers, i - 1);
      StepKeepsPlainText(trace[i - 1], answers[i - 1]);
    }
  }

  lemma {:induction false} SeedKeepsTranscript(s: State, reports: seq<ReportedCall>)
    requires s.batches != [] && SeedAll(s, reports).Ok?
    ensures SeedAll(s, reports).value.transcript == s.transcript
  {
    if reports != [] {
      SeedKeepsTranscript(s, Front(reports));
    }
  }

  /** Every run starts with plain text, seeded or not. */
  lemma StartsPlain(request: TurnRequest, given: seq<ReportedCall>, seed: Option<CallSeed>, hexes: seq<string>)
    requires seed.Some? ==> |hexes| == |seed.value.calls|
    requires Start(request, given, seed, hexes).Ok?
    ensures PlainText(Start(request, given, seed, hexes).value.state.transcript)
  {
    if seed.Some? {
      var s := InitialState(request, given);
      var stepped := if seed.value.runStep.None? then s else s.(request := request.(runStep := seed.value.runStep.value));
      var begun := BeginBatch(stepped, ToolTurn(seed.value.calls, [], seed.value.reasoning), hexes).value;
      SeedKeepsTranscript(begun, seed.value.completedReports);
    }
  }

  /** At every point of every run that starts, seeded or not, the transcript is paired, filtered or not. */
  lemma RunIsPaired(request: TurnRequest, given: seq<ReportedCall>, seed: Option<CallSeed>, hexes: seq<string>,
                    trace: seq<Machine>, answers: seq<Answer>, i: nat, views: Option<seq<ToolResultView>>)
    requires seed.Some? ==> |hexes| == |seed.value.calls|
    requires Run(trace, answers) && i < |trace| && Start(request, given, seed, hexes) == Ok(trace[0])
    ensures Inv(trace[i]) && Paired(SegmentsOf(trace[i].state, views))
  {
    StartsPlain(request, given, seed, hexes);
    RunKeepsPlainText(trace, answers, i);
    SegmentsPaired(trace[i].state.batches, trace[i].state.transcript, views);
  }

  // ---- Growth ----

  lemma {:induction false} SegmentsDependOnEntered(batches: seq<TurnBatch>, others: seq<TurnBatch>, transcript: seq<Entry>, views: Option<seq<ToolResultView>>)
    requires RefersTo(transcript, |batches|) && RefersTo(transcript, |others|)
    requires forall i | 0 <= i < |transcript| && transcript[i].BatchAt? :: batches[transcript[i].index] == others[transcript[i].index]
    ensures Segments(batches, transcript, views) == Segments(others, transcript, views)
  {
    if transcript != [] {
      SegmentsDependOnEntered(batches, others, Front(transcript), views);
    }
  }

  lemma {:induction false} EntriesBelow(transcript: seq<Entry>, n: nat)
    requires BatchEntries(transcript) == UpTo(n)
    ensures RefersTo(transcript, n)
  {
    if transcript != [] {
      var last := Last(transcript);
      if last.BatchAt? {
        var entries := BatchEntries(transcript);
        assert |entries| == n > 0 && Last(entries) == n - 1;
        assert BatchEntries(Front(transcript)) == Front(entries) == UpTo(n - 1);
        EntriesBelow(Front(transcript), n - 1);
      } else {
        EntriesBelow(Front(transcript), n);
      }
    }
  }

  /** Batches that are entered but not complete contribute nothing, and only the last entry can be one. */
  lemma UnfinishedIsSilent(s: State, views: Option<seq<ToolResultView>>, i: nat)
    requires BatchesOk(s.batches) && PendingOk(s) && TranscriptOk(s)
    requires i < |s.transcript| && s.transcript[i].BatchAt? && !Complete(s.batches[s.transcript[i].index])
    ensures i == |s.transcript| - 1 && s.pending != []
    ensures SegmentsOf(s, views) == Segments(s.batches, Front(s.transcript), views)
  {
    var n := |s.batches| - 1;
    assert s.transcript[i].index == n && s.pending != [];
    if i < |s.transcript| - 1 {
      var front := Front(s.transcript);
      assert BatchEntries(front) == Front(UpTo(n + 1)) == UpTo(n);
      EntriesBelow(front, n);
    }
  }

  /** The transcript as it was, perhaps with one more entry. */
  ghost predicate GrowsByOne(before: seq<Entry>, after: seq<Entry>) {
    after == before || (after != [] && Front(after) == before)
  }

  ghost predicate BatchEntered(s: State, t: State) {
    t.batches != [] && Front(t.batches) == s.batches && Last(t.batches).results == [] && t.transcript != [] && Front(t.transcript) == s.transcript
  }

  ghost predicate BatchAnswered(s: State, t: State) {
    && s.pending != [] && t.transcript == s.transcript && s.batches != [] && |t.batches| == |s.batches|
    && t.results != [] && t.batches == Front(s.batches) + [WithResult(Last(s.batches), Last(t.results))]
    && t.results == s.results + [Last(t.results)]
  }

  /** An answer leaves the batches alone, enters a batch, or answers its next call. */
  lemma StepShapes(m: Machine, a: Answer)
    requires Allowed(m.pc, a) && (m.state.pending != [] ==> m.state.batches != [])
    ensures var s, t := m.state, Step(m, a).state;
            || (t.batches == s.batches && t.results == s.results && GrowsByOne(s.transcript, t.transcript))
            || (t.results == s.results && BatchEntered(s, t))
            || BatchAnswered(s, t)
  {
    if m.pc.AwaitExecute? && a.Executed? {
      ExecutedShapes(m, a);
    } else if m.pc.AwaitInvoke? && a.Invoked? {
      InvokedShapes(m, a);
    }
  }

  lemma ExecutedShapes(m: Machine, a: Answer)
    requires m.pc.AwaitExecute? && a.Executed? && (m.state.pending != [] ==> m.state.batches != [])
    ensures Step(m, a).state == m.state || BatchAnswered(m.state, Step(m, a).state)
  {
  }

  lemma InvokedShapes(m: Machine, a: Answer)
    requires m.pc.AwaitInvoke? && a.Invoked? && Allowed(m.pc, a) && (m.state.pending != [] ==> m.state.batches != [])
    ensures var t := Step(m, a).state; t == m.state || (t.results == m.state.results && BatchEntered(m.state, t))
  {
  }

  /** The unfiltered segments only ever grow at the end. */
  lemma StepExtendsSegments(m: Machine, a: Answer)
    requires Inv(m) && Allowed(m.pc, a)
    ensures Inv(Step(m, a))
    ensures SegmentsOf(m.state, None) <= SegmentsOf(Step(m, a).state, None)
  {
    StepKeeps(m, a);
    StepShapes(m, a);
    var s, t := m.state, Step(m, a).state;
    if t.batches == s.batches && GrowsByOne(s.transcript, t.transcript) {
    } else if BatchEntered(s, t) {
      SegmentsDependOnEntered(s.batches, t.batches, s.transcript, None);
    } else {
      AdvanceExtendsSegments(s, t);
    }
  }

  lemma AdvanceExtendsSegments(s: State, t: State)
    requires BatchesOk(s.batches) && PendingOk(s) && TranscriptOk(s) && s.pending != []
    requires t.transcript == s.transcript && |t.batches| == |s.batches|
    requires Front(t.batches) == Front(s.batches)
    ensures SegmentsOf(s, None) <= SegmentsOf(t, None)
  {
    UnfinishedIsSilent(s, None, |s.transcript| - 1);
    var front := Front(s.transcript);
    var n := |s.batches| - 1;
    assert BatchEntries(s.transcript) == UpTo(n + 1);
    assert BatchEntries(front) == Front(UpTo(n + 1)) == UpTo(n);
    EntriesBelow(front, n);
    SegmentsDependOnEntered(s.batches, t.batches, front, None);
  }

  /** The unfiltered segments of a point of a run. */
  ghost function History(m: Machine): seq<ContextSegment>
    requires Inv(m)
  {
    SegmentsOf(m.state, None)
  }

  lemma StepExtendsHistory(m: Machine, a: Answer)
    requires Inv(m) && Allowed(m.pc, a)
    ensures Inv(Step(m, a)) && History(m) <= History(Step(m, a))
  {
    StepExtendsSegments(m, a);
  }

  lemma NextExtendsHistory(trace: seq<Machine>, answers: seq<Answer>, j: nat)
    requires Run(trace, answers) && 0 < j < |trace| && Inv(trace[j - 1])
    ensures Inv(trace[j]) && History(trace[j - 1]) <= History(trace[j])
  {
    StepExtendsHistory(trace[j - 1], answers[j - 1]);
  }

  /** What grows from each point to the next has grown from any point to any later one. */
  lemma {:induction false} Ascends(grown: seq<seq<ContextSegment>>, i: nat, j: nat)
    requires i <= j < |grown| && forall k | 0 < k < |grown| :: grown[k - 1] <= grown[k]
    ensures grown[i] <= grown[j]
    decreases j - i
  {
    if i < j {
      Ascends(grown, i, j - 1);
      assert grown[j - 1] <= grown[j];
    }
  }

  ghost function Histories(trace: seq<Machine>): seq<seq<ContextSegment>>
    requires forall k | 0 <= k < |trace| :: Inv(trace[k])
  {
    seq(|trace|, k requires 0 <= k < |trace| => History(trace[k]))
  }

  lemma RunExtendsHistory(trace: seq<Machine>, answers: seq<Answer>, i: nat, j: nat)
    requires Run(trace, answers) && i <= j < |trace|
    ensures Inv(trace[i]) && Inv(trace[j]) && History(trace[i]) <= History(trace[j])
  {
    forall k | 0 <= k < |trace| ensures Inv(trace[k]) {
      RunKeepsInv(trace, answers, k);
    }
    forall k | 0 < k < |trace| ensures Histories(trace)[k - 1] <= Histories(trace)[k] {
      NextExtendsHistory(trace, answers, k);
    }
    Ascends(Histories(trace), i, j);
  }

  // ---- Filtering through views ----

  /** What a segment takes from a view. */
  function Visible(v: ToolResultView): (bool, Option<string>, Option<string>) {
    (v.ok, v.error, if v.output.None? then v.error else v.output)
  }

  /** The view filed under a report's identity shows what the report itself would show. */
  ghost predicate ShowsItself(report: ReportedCall, views: seq<ToolResultView>) {
    var shown := Lookup(views, report.toolCallId);
    shown.Some? && Visible(shown.value) == Visible(ProjectReport(report))
  }

  ghost predicate BatchShowsItself(b: TurnBatch, n: nat, views: seq<ToolResultView>)
    requires n <= |b.results|
  {
    forall j | 0 <= j < n :: ShowsItself(b.results[j], views)
  }

  ghost predicate EntryShowsItself(batches: seq<TurnBatch>, entry: Entry, views: seq<ToolResultView>)
    requires entry.BatchAt? ==> entry.index < |batches|
  {
    entry.BatchAt? && Complete(batches[entry.index]) ==>
      BatchShowsItself(batches[entry.index], |batches[entry.index].results|, views)
  }

  ghost predicate AllShowThemselves(batches: seq<TurnBatch>, transcript: seq<Entry>, views: seq<ToolResultView>)
    requires RefersTo(transcript, |batches|)
  {
    forall i | 0 <= i < |transcript| :: EntryShowsItself(batches, transcript[i], views)
  }

  /** Two concatenations of chunks that are pairwise no longer agree only chunk by chunk. */
  lemma EqualChunks<T>(a: seq<T>, b: seq<T>, a': seq<T>, b': seq<T>)
    requires |a| <= |a'| && |b| <= |b'|
    ensures a + b == a' + b' <==> a == a' && b == b'
  {
    if a + b == a' + b' {
      assert |a + b| == |a| + |b| && |a' + b'| == |a'| + |b'|;
      assert a == (a + b)[..|a|] && a' == (a' + b')[..|a'|];
      assert b == (a + b)[|a|..] && b' == (a' + b')[|a'|..];
    }
  }

  lemma PairShows(call: ToolCall, report: ReportedCall, reasoning: Option<string>, views: seq<ToolResultView>)
    ensures |PairSegments(call, report, reasoning, Some(views))| <= |PairSegments(call, report, reasoning, None)|
    ensures PairSegments(call, report, reasoning, Some(views)) == PairSegments(call, report, reasoning, None)
            <==> ShowsItself(report, views)
  {
    var own := ProjectReport(report);
    var shown := Lookup(views, report.toolCallId);
    if shown.Some? {
      var a, b := ResultSegment(call, report, shown.value, reasoning), ResultSegment(call, report, own, reasoning);
      assert a == b <==> Visible(shown.value) == Visible(own);
      assert PairSegments(call, report, reasoning, Some(views))[1] == a;
      assert PairSegments(call, report, reasoning, None)[1] == b;
    }
  }

  lemma {:induction false} BatchShows(b: TurnBatch, n: nat, views: seq<ToolResultView>)
    requires n <= |b.results| && n <= |b.calls|
    ensures |ResultSegments(b, n, Some(views))| <= |ResultSegments(b, n, None)|
    ensures ResultSegments(b, n, Some(views)) == ResultSegments(b, n, None) <==> BatchShowsItself(b, n, views)
  {
    if n > 0 {
      BatchShows(b, n - 1, views);
      PairShows(b.calls[n - 1], b.results[n - 1], b.reasoning, views);
      EqualChunks(
        ResultSegments(b, n - 1, Some(views)), PairSegments(b.calls[n - 1], b.results[n - 1], b.reasoning, Some(views)),
        ResultSegments(b, n - 1, None), PairSegments(b.calls[n - 1], b.results[n - 1], b.reasoning, None));
    }
  }

  /** The filtered transcript is the unfiltered one if and only if every shown report finds itself under its identity. */
  lemma {:induction false} FilterExact(batches: seq<TurnBatch>, transcript: seq<Entry>, views: seq<ToolResultView>)
    requires RefersTo(transcript, |batches|)
    ensures |Segments(batches, transcript, Some(views))| <= |Segments(batches, transcript, None)|
    ensures Segments(batches, transcript, Some(views)) == Segments(batches, transcript, None)
            <==> AllShowThemselves(batches, transcript, views)
  {
    if transcript != [] {
      var entry := Last(transcript);
      FilterExact(batches, Front(transcript), views);
      if entry.BatchAt? && Complete(batches[entry.index]) {
        BatchShows(batches[entry.index], |batches[entry.index].results|, views);
      }
      EqualChunks(
        Segments(batches, Front(transcript), Some(views)), EntrySegments(batches, entry, Some(views)),
        Segments(batches, Front(transcript), None), EntrySegments(batches, entry, None));
      assert transcript == Front(transcript) + [entry];
    }
  }

  lemma {:induction false} LookupDistinct(reports: seq<ReportedCall>, i: nat)
    requires AllDifferent(ReportIds(reports)) && i < |reports|
    ensures Lookup(ProjectAll(reports), reports[i].toolCallId) == Some(ProjectReport(reports[i]))
    decreases |reports|
  {
    var views := ProjectAll(reports);
    assert Front(views) == ProjectAll(Front(reports));
    if i < |reports| - 1 {
      assert ReportIds(reports)[i] != ReportIds(reports)[|reports| - 1];
      assert ReportIds(Front(reports)) == Front(ReportIds(reports));
      LookupDistinct(Front(reports), i);
    }
  }

  // ---- The results of a run ----

  function AllResults(batches: seq<TurnBatch>): seq<ReportedCall> {
    if batches == [] then [] else AllResults(Front(batches)) + Last(batches).results
  }

  lemma {:induction false} AllResultsHold(batches: seq<TurnBatch>, i: nat, j: nat)
    requires i < |batches| && j < |batches[i].results|
    ensures batches[i].results[j] in AllResults(batches)
    decreases |batches|
  {
    if i < |batches| - 1 {
      AllResultsHold(Front(batches), i, j);
    }
  }

  /** A run that was not seeded collects its results in order behind the ones it was given. */
  ghost predicate Collects(s: State, given: seq<ReportedCall>) {
    s.results == given + AllResults(s.batches)
  }

  lemma StepCollects(m: Machine, a: Answer, given: seq<ReportedCall>)
    requires Inv(m) && Allowed(m.pc, a) && Collects(m.state, given)
    ensures Collects(Step(m, a).state, given)
  {
    StepShapes(m, a);
    CollectsOn(m.state, Step(m, a).state, given);
  }

  lemma CollectsOn(s: State, t: State, given: seq<ReportedCall>)
    requires Collects(s, given)
    requires (t.batches == s.batches && t.results == s.results) || (t.results == s.results && BatchEntered(s, t)) || BatchAnswered(s, t)
    ensures Collects(t, given)
  {
    if BatchAnswered(s, t) {
      assert Front(t.batches) == Front(s.batches) && Last(t.batches).results == Last(s.batches).results + [Last(t.results)];
    }
  }

  /**
   With distinct result identities the transcript the host prepares, filtered through the views of
   all results, is the unfiltered one.
   */
  lemma DistinctFilterLosesNothing(s: State, given: seq<ReportedCall>)
    requires RefersTo(s.transcript, |s.batches|) && Collects(s, given)
    requires AllDifferent(ReportIds(s.results))
    ensures SegmentsOf(s, Some(ProjectAll(s.results))) == SegmentsOf(s, None)
  {
    var views := ProjectAll(s.results);
    forall i | 0 <= i < |s.transcript|
      ensures EntryShowsItself(s.batches, s.transcript[i], views)
    {
      var entry := s.transcript[i];
      if entry.BatchAt? {
        var b := s.batches[entry.index];
        forall j | 0 <= j < |b.results|
          ensures ShowsItself(b.results[j], views)
        {
          AllResultsHold(s.batches, entry.index, j);
          assert b.results[j] in given + AllResults(s.batches);
          var k :| 0 <= k < |s.results| && s.results[k] == b.results[j];
          LookupDistinct(s.results, k);
        }
      }
    }
    FilterExact(s.batches, s.transcript, views);
  }

  lemma {:induction false} RunCollects(trace: seq<Machine>, answers: seq<Answer>, i: nat, given: seq<ReportedCall>)
    requires Run(trace, answers) && i < |trace| && Collects(trace[0].state, given)
    ensures Inv(trace[i]) && Collects(trace[i].state, given)
  {
    RunKeepsInv(trace, answers, i);
    if i > 0 {
      RunCollects(trace, answers, i - 1, given);
      StepCollects(trace[i - 1], answers[i - 1], given);
    }
  }

  /** Over a whole run, what the host prepares is the unfiltered transcript as long as no identity comes back. */
  lemma RunFilterLosesNothing(trace: seq<Machine>, answers: seq<Answer>, i: nat, given: seq<ReportedCall>)
    requires Run(trace, answers) && i < |trace| && Collects(trace[0].state, given)
    requires AllDifferent(ReportIds(trace[i].state.results))
    ensures Inv(trace[i])
    ensures SegmentsOf(trace[i].state, Some(ProjectAll(trace[i].state.results))) == SegmentsOf(trace[i].state, None)
  {
    RunCollects(trace, answers, i, given);
    DistinctFilterLosesNothing(trace[i].state, given);
  }
}
