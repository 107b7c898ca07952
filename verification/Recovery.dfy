/**
 The facts a host leaves behind, seen against the batches of its run: which logs can arise, and what
 `restore_batch` answers for every one of them.
 */
module Recovery {
  import opened Basics
  import opened Turns
  import opened Pairing
  import opened FactTree
  import opened Engine
  import opened EngineInvariant

  /** The snapshot that every completion of a batch carries. */
  function Snapshot(b: TurnBatch): CallSeed {
    CallSeed(b.calls, b.reasoning, [], Some(b.runStep))
  }

  function Tagged(b: TurnBatch, n: nat): seq<Completion>
    requires n <= |b.results|
  {
    if n == 0 then [] else Tagged(b, n - 1) + [Completion(b.results[n - 1], Some(Snapshot(b)))]
  }

  /** The completions that the given batches account for: every result once, in order, under its own snapshot. */
  function Recorded(all: seq<TurnBatch>): seq<Completion> {
    if all == [] then [] else Recorded(Front(all)) + Tagged(Last(all), |Last(all).results|)
  }

  /** A batch starts no earlier than after all steps of the batch before it. */
  ghost predicate StepsGrow(all: seq<TurnBatch>) {
    forall i | 0 < i < |all| :: all[i - 1].runStep + |all[i - 1].calls| <= all[i].runStep
  }

  predicate Asked(tail: seq<TurnFact>) {
    exists i | 0 <= i < |tail| :: tail[i].ToolRequestedFact?
  }

  predicate Unanswered(all: seq<TurnBatch>) {
    all != [] && |Last(all).results| < |Last(all).calls|
  }

  function NextCall(all: seq<TurnBatch>): ToolCall
    requires Unanswered(all)
  {
    Last(all).calls[|Last(all).results|]
  }

  /** Since the last completion only the next call was requested; inside a started batch nothing else happened. */
  ghost predicate TailOk(tail: seq<TurnFact>, all: seq<TurnBatch>) {
    && (forall i | 0 <= i < |tail| && tail[i].ToolRequestedFact? :: Unanswered(all) && tail[i].call == NextCall(all))
    && (Unanswered(all) && Last(all).results != [] ==> forall i | 0 <= i < |tail| :: tail[i].ToolRequestedFact?)
  }

  /** The identities with an open request: the next call's, or none. */
  function OpenIds(tail: seq<TurnFact>, all: seq<TurnBatch>): set<string> {
    if Asked(tail) && Unanswered(all) && NextCall(all).toolCallId.Some? then {NextCall(all).toolCallId.value} else {}
  }

  /** The facts up to and including the last completion. */
  function UpToLastCompletion(facts: seq<TurnFact>): seq<TurnFact> {
    if facts == [] then []
    else if Last(facts).ToolCompletedFact? then facts
    else UpToLastCompletion(Front(facts))
  }

  ghost predicate LogOk(facts: seq<TurnFact>, all: seq<TurnBatch>) {
    && Completions(facts) == Recorded(all)
    && Scan(UpToLastCompletion(facts)) == Ok({})
    && TailOk(AfterLastCompletion(facts), all)
    && Scan(facts) == Ok(OpenIds(AfterLastCompletion(facts), all))
  }

  ghost predicate Sound(facts: seq<TurnFact>, all: seq<TurnBatch>) {
    BatchesOk(all) && StepsGrow(all) && LogOk(facts, all)
  }

  // ---- How the log grows ----

  lemma Snoc(facts: seq<TurnFact>, f: TurnFact)
    ensures Front(facts + [f]) == facts && Last(facts + [f]) == f
  {
  }

  lemma LogEmpty()
    ensures Sound([], [])
  {
  }

  /** A fact that is no execution fact may come whenever no batch is half done. */
  lemma LogPlain(facts: seq<TurnFact>, all: seq<TurnBatch>, f: TurnFact)
    requires Sound(facts, all) && !IsExecution(f)
    requires Unanswered(all) ==> Last(all).results == []
    ensures Sound(facts + [f], all)
  {
    Snoc(facts, f);
    var tail := AfterLastCompletion(facts);
    assert AfterLastCompletion(facts + [f]) == tail + [f];
    if Asked(tail) {
      var i :| 0 <= i < |tail| && tail[i].ToolRequestedFact?;
      assert (tail + [f])[i].ToolRequestedFact?;
    }
  }

  lemma RequestShapes(facts: seq<TurnFact>, f: TurnFact)
    requires f.ToolRequestedFact?
    ensures Completions(facts + [f]) == Completions(facts) && UpToLastCompletion(facts + [f]) == UpToLastCompletion(facts)
    ensures AfterLastCompletion(facts + [f]) == AfterLastCompletion(facts) + [f]
    ensures Asked(AfterLastCompletion(facts) + [f])
    ensures Scan(facts).Ok? && HasIdentity(f.call.toolCallId) ==> Scan(facts + [f]) == Ok(Scan(facts).value + {f.call.toolCallId.value})
  {
    Snoc(facts, f);
    assert (AfterLastCompletion(facts) + [f])[|AfterLastCompletion(facts)|].ToolRequestedFact?;
  }

  lemma LogRequest(facts: seq<TurnFact>, all: seq<TurnBatch>)
    requires Sound(facts, all) && Unanswered(all) && HasIdentity(NextCall(all).toolCallId)
    ensures Sound(facts + [ToolRequestedFact(NextCall(all))], all)
    ensures Asked(AfterLastCompletion(facts + [ToolRequestedFact(NextCall(all))]))
  {
    RequestShapes(facts, ToolRequestedFact(NextCall(all)));
    var tail := AfterLastCompletion(facts);
    assert OpenIds(tail, all) + {NextCall(all).toolCallId.value} == {NextCall(all).toolCallId.value};
  }

  function Answered(all: seq<TurnBatch>, report: ReportedCall): seq<TurnBatch>
    requires all != []
  {
    Front(all) + [WithResult(Last(all), report)]
  }

  lemma TaggedExtends(b: TurnBatch, report: ReportedCall, n: nat)
    requires n <= |b.results|
    ensures Tagged(WithResult(b, report), n) == Tagged(b, n)
  {
  }

  lemma RecordedAnswered(all: seq<TurnBatch>, report: ReportedCall)
    requires all != []
    ensures Recorded(Answered(all, report)) == Recorded(all) + [Completion(report, Some(Snapshot(Last(all))))]
  {
    assert Front(Answered(all, report)) == Front(all);
    TaggedExtends(Last(all), report, |Last(all).results|);
  }

  lemma BatchesAnswered(all: seq<TurnBatch>, report: ReportedCall)
    requires BatchesOk(all) && Unanswered(all) && Some(report.toolCallId) == NextCall(all).toolCallId
    ensures BatchesOk(Answered(all, report))
  {
    var b := Last(all);
    var n := |b.results|;
    assert ReportIds(b.results + [report]) == CallIds(b.calls)[..n + 1] by {
      assert ReportIds(b.results + [report]) == ReportIds(b.results) + [Some(report.toolCallId)];
      assert CallIds(b.calls)[..n + 1] == CallIds(b.calls)[..n] + [CallIds(b.calls)[n]];
    }
    assert BatchOk(WithResult(b, report));
    assert forall i | 0 <= i < |all| - 1 :: Answered(all, report)[i] == all[i];
  }

  lemma LogComplete(facts: seq<TurnFact>, all: seq<TurnBatch>, report: ReportedCall)
    requires Sound(facts, all) && Unanswered(all) && Some(report.toolCallId) == NextCall(all).toolCallId
    requires report.toolCallId != "" && Asked(AfterLastCompletion(facts))
    ensures Sound(facts + [ToolCompletedFact(report, Some(Snapshot(Last(all))))], Answered(all, report))
  {
    var f := ToolCompletedFact(report, Some(Snapshot(Last(all))));
    Snoc(facts, f);
    RecordedAnswered(all, report);
    BatchesAnswered(all, report);
    assert AfterLastCompletion(facts + [f]) == [];
    var id := report.toolCallId;
    assert OpenIds(AfterLastCompletion(facts), all) == {id};
    assert {id} - {id} == {};
  }

  /** A new batch may begin once the one before it is answered. */
  lemma LogBegin(facts: seq<TurnFact>, all: seq<TurnBatch>, b: TurnBatch)
    requires Sound(facts, all) && !Unanswered(all) && BatchOk(b) && b.results == []
    requires all != [] ==> Last(all).runStep + |Last(all).calls| <= b.runStep
    ensures Sound(facts, all + [b])
    ensures !Asked(AfterLastCompletion(facts))
  {
    var more := all + [b];
    assert Front(more) == all && Last(more) == b;
    assert !Asked(AfterLastCompletion(facts));
    forall i | 0 <= i < |more| - 1
      ensures Complete(more[i])
    {
      assert more[i] == all[i];
    }
  }

  /** A batch that was begun but left no trace is forgotten by recovery. */
  lemma LogForget(facts: seq<TurnFact>, all: seq<TurnBatch>)
    requires Sound(facts, all) && all != [] && Last(all).results == [] && !Asked(AfterLastCompletion(facts))
    ensures Sound(facts, Front(all))
    ensures !Unanswered(Front(all))
  {
    var front := Front(all);
    assert BatchesOk(front) && StepsGrow(front) by {
      assert forall i | 0 <= i < |front| :: front[i] == all[i];
    }
    if front != [] {
      assert Complete(all[|all| - 2]);
    }
    assert Recorded(all) == Recorded(front);
  }

  // ---- What recovery answers ----

  lemma {:induction false} TrailingTagged(before: seq<Completion>, b: TurnBatch, n: nat)
    requires n <= |b.results|
    ensures TrailingRun(before + Tagged(b, n), Some(Snapshot(b))) == TrailingRun(before, Some(Snapshot(b))) + b.results[..n]
  {
    if n == 0 {
      assert before + Tagged(b, 0) == before;
    } else {
      var done := before + Tagged(b, n);
      assert Front(done) == before + Tagged(b, n - 1);
      TrailingTagged(before, b, n - 1);
      assert b.results[..n] == b.results[..n - 1] + [b.results[n - 1]];
    }
  }

  lemma {:induction false} RecordedEnds(all: seq<TurnBatch>)
    requires all != [] && Last(all).results != []
    ensures Recorded(all) != [] && Last(Recorded(all)).batch == Some(Snapshot(Last(all)))
  {
  }

  /** The reports that carry the last snapshot are the last batch's own results, even if identities are reused. */
  lemma TrailingIsOwn(all: seq<TurnBatch>)
    requires BatchesOk(all) && StepsGrow(all) && all != [] && Last(all).results != []
    ensures TrailingRun(Recorded(all), Some(Snapshot(Last(all)))) == Last(all).results
  {
    var b := Last(all);
    var front := Front(all);
    TrailingTagged(Recorded(front), b, |b.results|);
    assert b.results[..|b.results|] == b.results;
    if front != [] {
      var previous := Last(front);
      assert previous == all[|all| - 2] && Complete(previous) && BatchOk(previous);
      RecordedEnds(front);
      assert previous.runStep < b.runStep;
    }
  }

  /** The batch of the latest completion. */
  function Latest(all: seq<TurnBatch>): TurnBatch
    requires all != [] && (Last(all).results != [] || |all| > 1)
  {
    if Last(all).results != [] then Last(all) else all[|all| - 2]
  }

  ghost predicate AnyCompletion(all: seq<TurnBatch>) {
    all != [] && (Last(all).results != [] || |all| > 1)
  }

  predicate NoEmptyIdentity(calls: seq<ToolCall>) {
    forall i | 0 <= i < |calls| :: HasIdentity(calls[i].toolCallId)
  }

  /** The verdict, stated from the batches alone. */
  ghost function Expected(tail: seq<TurnFact>, all: seq<TurnBatch>): Result<CallSeed, StoreError> {
    if !AnyCompletion(all) then Raise(NothingCompleted)
    else if !NoEmptyIdentity(Latest(all).calls) then Raise(BadBatchIdentities)
    else if Last(all).results == [] && Asked(tail) then Raise(UnsnapshottedRequest)
    else Ok(CallSeed(Latest(all).calls, Latest(all).reasoning, Latest(all).results, Some(Latest(all).runStep)))
  }

  lemma RestoreFromLatest(facts: seq<TurnFact>, all: seq<TurnBatch>)
    requires BatchesOk(all) && StepsGrow(all) && all != [] && Last(all).results != []
    requires Completions(facts) == Recorded(all)
    ensures var b := Last(all);
            Restore(facts) ==
            if !NoEmptyIdentity(b.calls) then Raise(BadBatchIdentities)
            else if !TailBelongs(AfterLastCompletion(facts), Remaining(b)) then Raise(UnsnapshottedRequest)
            else Ok(CallSeed(b.calls, b.reasoning, b.results, Some(b.runStep)))
  {
    RecordedEnds(all);
    TrailingIsOwn(all);
  }

  /** What `restore_batch` answers for any log: the latest batch with exactly its completed results, or an error. */
  lemma RestoreExact(facts: seq<TurnFact>, all: seq<TurnBatch>)
    requires Sound(facts, all)
    ensures Restore(facts) == Expected(AfterLastCompletion(facts), all)
  {
    var tail := AfterLastCompletion(facts);
    if all != [] && Last(all).results != [] {
      RestoreFromLatest(facts, all);
      if Asked(tail) {
        assert NextCall(all) == Remaining(Last(all))[0];
        assert NextCall(all).toolCallId == CallIds(Remaining(Last(all)))[0];
      }
    } else if all != [] && |all| > 1 {
      var front := Front(all);
      assert Last(front) == all[|all| - 2] && Complete(Last(front));
      assert Recorded(all) == Recorded(front);
      assert BatchesOk(front) && StepsGrow(front);
      RestoreFromLatest(facts, front);
      assert Remaining(Last(front)) == [];
    } else if all != [] {
      assert Front(all) == [];
    }
  }

  /** Exactly once: the completed identities are those of the batches, each batch in order, only the last cut short. */
  lemma CompletedInOrder(facts: seq<TurnFact>, all: seq<TurnBatch>)
    requires Sound(facts, all)
    ensures Completions(facts) == Recorded(all)
    ensures forall i | 0 <= i < |all| ::
              && ReportIds(all[i].results) == CallIds(all[i].calls)[..|all[i].results|]
              && AllDifferent(CallIds(all[i].calls))
              && (i < |all| - 1 ==> |all[i].results| == |all[i].calls|)
  {
    forall i | 0 <= i < |all|
      ensures ReportIds(all[i].results) == CallIds(all[i].calls)[..|all[i].results|] && AllDifferent(CallIds(all[i].calls))
    {
      assert BatchOk(all[i]);
    }
  }
}
