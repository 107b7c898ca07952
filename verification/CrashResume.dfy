/**
 What holds of every chain of runs over one store: recovery is never wrong, a restarted run does what
 the interrupted one would have done, nothing is completed twice, and the safe boundaries of engine
 and store agree.
 */
module CrashResume {
  import opened Basics
  import opened Turns
  import opened Pairing
  import opened FactTree
  import opened Engine
  import opened EngineInvariant
  import opened Recovery
  import opened HostedRun
  import opened Repair
  import opened HostedInvariant

  ghost predicate Link(trace: seq<Chain>, choices: seq<Choice>, i: nat)
    requires i < |choices| && |trace| == |choices| + 1
  {
    Genuine(choices[i]) && (ChainInv(trace[i]) ==> trace[i + 1] == NextChain(trace[i], choices[i]))
  }

  ghost predicate Starts(c: Chain) {
    exists request, given, cancelled :: c == Begun(request, given, cancelled)
  }

  ghost predicate Links(trace: seq<Chain>, choices: seq<Choice>) {
    && |trace| == |choices| + 1
    && forall i: nat {:trigger Link(trace, choices, i)} | i < |choices| :: Link(trace, choices, i)
  }

  ghost predicate ChainRun(trace: seq<Chain>, choices: seq<Choice>) {
    Links(trace, choices) && Starts(trace[0])
  }

  lemma StartsInv(c: Chain)
    requires Starts(c)
    ensures ChainInv(c) && c.base == [] && c.past == []
  {
    var request, given, cancelled :| c == Begun(request, given, cancelled);
    BegunInv(request, given, cancelled);
  }

  ghost predicate Sustained(trace: seq<Chain>, i: nat) {
    i < |trace| && ChainInv(trace[i])
  }

  ghost predicate SustainedAt(trace: seq<Chain>, i: nat) {
    forall k: nat {:trigger Sustained(trace, k)} | k == i :: Sustained(trace, k)
  }

  lemma LinkKeeps(trace: seq<Chain>, choices: seq<Choice>, i: nat)
    requires Links(trace, choices) && i < |choices| && SustainedAt(trace, i)
    ensures SustainedAt(trace, i + 1)
  {
    assert Sustained(trace, i);
    assert Link(trace, choices, i);
    NextKeeps(trace[i], choices[i]);
  }

  lemma {:induction false} LinksKeep(trace: seq<Chain>, choices: seq<Choice>, i: nat)
    requires Links(trace, choices) && SustainedAt(trace, 0) && i < |trace|
    ensures SustainedAt(trace, i)
  {
    if i > 0 {
      LinksKeep(trace, choices, i - 1);
      LinkKeeps(trace, choices, i - 1);
    }
  }

  lemma ReachableChain(trace: seq<Chain>, choices: seq<Choice>, i: nat)
    requires ChainRun(trace, choices) && i < |trace|
    ensures ChainInv(trace[i])
  {
    StartsInv(trace[0]);
    LinksKeep(trace, choices, i);
    assert Sustained(trace, i);
  }

  function Log(c: Chain): seq<TurnFact>
    requires ValidStore(c.sys.h.store)
  {
    CurrentFacts(c.sys.h.store)
  }

  // ---- Recovery is never wrong ----

  /**
   Wherever the log is cut, recovery raises or returns the batch of the latest completion with exactly
   its completed results in order, although the producer may reuse call identities across batches.
   */
  lemma NoWrongRecovery(c: Chain)
    requires ChainInv(c)
    ensures Restore(Log(c)) == Expected(AfterLastCompletion(Log(c)), AllBatches(c))
    ensures Restore(Log(c)).Ok? ==>
              && AnyCompletion(AllBatches(c))
              && Restore(Log(c)).value == SeedOf(Latest(AllBatches(c)))
              && Last(Completions(Log(c))).report == Last(Latest(AllBatches(c)).results)
  {
    RestoreExact(Log(c), AllBatches(c));
    if Restore(Log(c)).Ok? {
      LatestReport(AllBatches(c));
    }
  }

  /** So it is at every point of every chain of runs, whatever users, producer, tools and crashes do. */
  lemma EveryCutRecoversRightly(trace: seq<Chain>, choices: seq<Choice>, i: nat)
    requires ChainRun(trace, choices) && i < |trace|
    ensures ChainInv(trace[i])
    ensures Restore(Log(trace[i])).Ok? ==>
              && AnyCompletion(AllBatches(trace[i]))
              && Restore(Log(trace[i])).value == SeedOf(Latest(AllBatches(trace[i])))
  {
    ReachableChain(trace, choices, i);
    NoWrongRecovery(trace[i]);
  }

  lemma NextIsRequest(c: Chain)
    requires Inv(c.sys.m) && ValidStore(c.sys.h.store) && c.sys.m.pc.AwaitExecute? && c.sys.progress.Quiet?
    ensures NextChain(c, Continue) == c.(sys := Recording(c.sys, ToolRequestedFact(c.sys.m.pc.call), Requested))
  {
    ContinueIs(c);
    ExecuteIs(c.sys, c.sys.m.pc.call);
  }

  lemma ContinueIs(c: Chain)
    requires Inv(c.sys.m) && ValidStore(c.sys.h.store)
    ensures NextChain(c, Continue) == c.(sys := ContinueNext(c.sys))
  {
  }

  /** The system once the request of the next call is recorded. */
  lemma RequestIsRecorded(c: Chain)
    requires ChainInv(c) && c.sys.m.pc.AwaitExecute? && c.sys.progress.Quiet? && HasIdentity(c.sys.m.pc.call.toolCallId)
    ensures var asked := NextChain(c, Continue);
            && ChainInv(asked) && asked.sys.progress.Requested? && asked.sys.m == c.sys.m && asked.past == c.past
            && Log(asked) == Log(c) + [ToolRequestedFact(c.sys.m.pc.call)]
  {
    var f := ToolRequestedFact(c.sys.m.pc.call);
    RecordEffect(c.sys.h, f);
    RecordingIs(c.sys, f, Requested);
    NextIsRequest(c);
    RequestRecorded(c, Record(c.sys.h, f).0);
  }

  lemma ChainLogIsSound(c: Chain)
    requires ChainInv(c)
    ensures Sound(Log(c), AllBatches(c))
  {
  }

  lemma SameBatchesAsked(c: Chain, asked: Chain)
    requires c.past == asked.past && c.sys.m == asked.sys.m && !c.sys.progress.Reported? && !asked.sys.progress.Reported?
    ensures AllBatches(asked) == AllBatches(c)
  {
  }

  /** What a further request does to recovery from a log. */
  lemma CutInLog(facts: seq<TurnFact>, all: seq<TurnBatch>, f: TurnFact)
    requires f.ToolRequestedFact? && Unanswered(all) && Sound(facts, all) && Sound(facts + [f], all)
    ensures var before, after := Restore(facts), Restore(facts + [f]);
            && (after == before <==> Last(all).results != [] || before.Raise?)
            && (Last(all).results == [] ==> after.Raise?)
  {
    RequestShapes(facts, f);
    RestoreExact(facts, all);
    RestoreExact(facts + [f], all);
  }

  /**
   Cutting between a request and its completion: recovery answers as before the request if the request
   continues a started batch, or if recovery already raised; for the first call of a batch it now raises.
   */
  lemma CutAfterRequest(c: Chain)
    requires ChainInv(c) && c.sys.m.pc.AwaitExecute? && c.sys.progress.Quiet? && HasIdentity(c.sys.m.pc.call.toolCallId)
    ensures AllBatches(c) != [] && ChainInv(NextChain(c, Continue))
    ensures var before, after := Restore(Log(c)), Restore(Log(NextChain(c, Continue)));
            && (after == before <==> Last(AllBatches(c)).results != [] || before.Raise?)
            && (Last(AllBatches(c)).results == [] ==> after.Raise?)
  {
    var asked := NextChain(c, Continue);
    RequestIsRecorded(c);
    PendingIsNext(c);
    ChainLogIsSound(c);
    ChainLogIsSound(asked);
    SameBatchesAsked(c, asked);
    CutInLog(Log(c), AllBatches(c), ToolRequestedFact(c.sys.m.pc.call));
  }

  // ---- Exactly once ----

  /** The identities of the batches, as far as they were answered. */
  function AnsweredIds(all: seq<TurnBatch>): seq<Option<string>> {
    if all == [] then [] else AnsweredIds(Front(all)) + CallIds(Last(all).calls)[..Min(|Last(all).results|, |Last(all).calls|)]
  }

  function Min(a: nat, b: nat): nat {
    if a < b then a else b
  }

  function CompletionIds(done: seq<Completion>): (ids: seq<Option<string>>)
    ensures |ids| == |done| && forall i | 0 <= i < |done| :: ids[i] == Some(done[i].report.toolCallId)
  {
    seq(|done|, i requires 0 <= i < |done| => Some(done[i].report.toolCallId))
  }

  lemma {:induction false} TaggedIds(b: TurnBatch, n: nat)
    requires BatchOk(b) && n <= |b.results|
    ensures CompletionIds(Tagged(b, n)) == CallIds(b.calls)[..n]
  {
    if n > 0 {
      TaggedIds(b, n - 1);
      assert CompletionIds(Tagged(b, n)) == CompletionIds(Tagged(b, n - 1)) + [Some(b.results[n - 1].toolCallId)];
      assert ReportIds(b.results)[n - 1] == CallIds(b.calls)[..|b.results|][n - 1];
    }
  }

  lemma CompletionIdsConcat(first: seq<Completion>, second: seq<Completion>)
    ensures CompletionIds(first + second) == CompletionIds(first) + CompletionIds(second)
  {
  }

  lemma FrontIsOk(all: seq<TurnBatch>)
    requires BatchesOk(all) && all != []
    ensures BatchesOk(Front(all)) && BatchOk(Last(all)) && |Last(all).results| <= |Last(all).calls|
  {
    var front := Front(all);
    assert forall i | 0 <= i < |front| :: front[i] == all[i];
    assert BatchOk(all[|all| - 1]);
  }

  lemma {:induction false} RecordedIds(all: seq<TurnBatch>)
    requires BatchesOk(all)
    ensures CompletionIds(Recorded(all)) == AnsweredIds(all)
  {
    if all != [] {
      FrontIsOk(all);
      RecordedIds(Front(all));
      TaggedIds(Last(all), |Last(all).results|);
      CompletionIdsConcat(Recorded(Front(all)), Tagged(Last(all), |Last(all).results|));
    }
  }

  /**
   Across any number of crashes and restarts the completions on the lineage are the calls of the
   batches in order, each exactly once; every batch but the last is answered in full.
   */
  lemma CompletedExactlyOnce(c: Chain)
    requires ChainInv(c)
    ensures CompletionIds(Completions(Log(c))) == AnsweredIds(AllBatches(c))
    ensures BatchesOk(AllBatches(c)) && StepsGrow(AllBatches(c))
  {
    RecordedIds(AllBatches(c));
  }

  // ---- A restart always starts ----

  /** At any cut where recovery succeeds, a restart always starts, with the unanswered calls pending. */
  lemma RestartNeverFails(c: Chain, request: TurnRequest, given: seq<ReportedCall>)
    requires ChainInv(c)
    ensures Restarted(c.sys.h.store, request, given).Some? <==> Restore(Log(c)).Ok?
    ensures Restore(Log(c)).Ok? ==>
              && AnyCompletion(AllBatches(c))
              && BatchOk(Latest(AllBatches(c)))
              && Continues(Restarted(c.sys.h.store, request, given).value.m, Latest(AllBatches(c)), request)
  {
    if Restore(Log(c)).Ok? {
      RestartedIs(c, request, given);
    }
  }

  /** An empty identity, which the engine accepts from a producer, makes the whole batch unrecoverable. */
  lemma EmptyIdentityDefeatsRecovery(c: Chain)
    requires ChainInv(c) && AnyCompletion(AllBatches(c))
    ensures !NoEmptyIdentity(Latest(AllBatches(c)).calls) ==> Restore(Log(c)) == Raise(BadBatchIdentities)
  {
    RestoreExact(Log(c), AllBatches(c));
  }

  // ---- The results handed to a restarted run ----

  ghost predicate Clashes(reports: seq<ReportedCall>, given: seq<ReportedCall>) {
    exists i | 0 <= i < |reports| :: HasReport(given, reports[i].toolCallId)
  }

  lemma ClashesSnoc(front: seq<ReportedCall>, last: ReportedCall, given: seq<ReportedCall>)
    ensures Clashes(front + [last], given) <==> Clashes(front, given) || HasReport(given, last.toolCallId)
  {
    var reports := front + [last];
    if Clashes(front, given) {
      var i :| 0 <= i < |front| && HasReport(given, front[i].toolCallId);
      assert HasReport(given, reports[i].toolCallId);
    }
    if HasReport(given, last.toolCallId) {
      assert HasReport(given, reports[|front|].toolCallId);
    }
  }

  /** Behind the given results there are only reports of the seed, fewer than all when one clashes. */
  ghost predicate Joined(results: seq<ReportedCall>, given: seq<ReportedCall>, reports: seq<ReportedCall>) {
    && |given| <= |results| <= |given| + |reports|
    && results[..|given|] == given
    && (!Clashes(reports, given) ==> results == given + reports)
    && (Clashes(reports, given) ==> |results| < |given| + |reports|)
    && (forall k | |given| <= k < |results| :: results[k] in reports)
  }

  lemma JoinOne(results: seq<ReportedCall>, given: seq<ReportedCall>, front: seq<ReportedCall>, last: ReportedCall)
    requires Joined(results, given, front) && AllDifferent(ReportIds(front + [last]))
    ensures HasReport(results, last.toolCallId) <==> HasReport(given, last.toolCallId)
    ensures Joined(if HasReport(results, last.toolCallId) then results else results + [last], given, front + [last])
  {
    var reports := front + [last];
    ClashesSnoc(front, last, given);
    if HasReport(given, last.toolCallId) {
      var i :| 0 <= i < |given| && given[i].toolCallId == last.toolCallId;
      assert results[..|given|][i] == results[i];
    } else {
      forall k | 0 <= k < |results|
        ensures results[k].toolCallId != last.toolCallId
      {
        if k < |given| {
          assert results[..|given|][k] == results[k];
        } else {
          var j :| 0 <= j < |front| && front[j] == results[k];
          assert ReportIds(reports)[j] != ReportIds(reports)[|front|];
        }
      }
    }
  }

  lemma {:induction false} SeededResults(s: State, reports: seq<ReportedCall>)
    requires s.batches != [] && SeedAll(s, reports).Ok? && AllDifferent(ReportIds(reports))
    ensures Joined(SeedAll(s, reports).value.results, s.results, reports)
  {
    if reports != [] {
      var front := Front(reports);
      assert reports == front + [Last(reports)];
      assert ReportIds(front) == ReportIds(reports)[..|front|];
      SeededResults(s, front);
      JoinOne(SeedAll(s, front).value.results, s.results, front, Last(reports));
    }
  }

  /**
   The results given to a restarted run are followed by the seed's completed reports, once each, if and
   only if no identity of the seed is among the given ones; an older result with a reused identity hides the newer.
   */
  lemma SeedResultsExact(s: State, reports: seq<ReportedCall>)
    requires s.batches != [] && SeedAll(s, reports).Ok? && AllDifferent(ReportIds(reports))
    ensures SeedAll(s, reports).value.results == s.results + reports <==> !Clashes(reports, s.results)
  {
    SeededResults(s, reports);
  }

  // ---- Safe boundaries ----

  /** The identities with an open request, at any moment of any chain: none, or the next call's. */
  lemma OpenRequests(c: Chain)
    requires ChainInv(c)
    ensures Scan(Log(c)) == Ok(OpenIds(AfterLastCompletion(Log(c)), AllBatches(c)))
    ensures c.sys.m.state.pending == [] && !c.sys.progress.Reported? ==> CheckPairs(Log(c)).Ok?
    ensures c.sys.progress.Requested? && c.sys.m.pc.AwaitExecute? ==> Scan(Log(c)) == Ok({c.sys.m.pc.call.toolCallId.value})
  {
    if c.sys.m.state.pending == [] && !c.sys.progress.Reported? {
      NothingPendingAllAnswered(c);
    } else if c.sys.progress.Requested? && c.sys.m.pc.AwaitExecute? {
      PendingIsNext(c);
    }
  }

  /**
   The engine's safe boundary is one for the store: with nothing pending, the leaf can be checked out
   (which changes nothing) and forked, and the fork has the same lineage.
   */
  lemma SafeBoundaryAgrees(c: Chain)
    requires ChainInv(c) && c.sys.m.state.pending == [] && !c.sys.progress.Reported? && c.sys.h.store.leaf.At?
    ensures var st := c.sys.h.store;
            && Checkout(st, st.leaf.sequence) == Ok(st)
            && Fork(st, Some(st.leaf.sequence)).Ok?
            && ValidStore(Fork(st, Some(st.leaf.sequence)).value)
            && CurrentFacts(Fork(st, Some(st.leaf.sequence)).value) == Log(c)
  {
    var st := c.sys.h.store;
    OpenRequests(c);
    assert CheckPairs(FactsOf(Lineage(st.entries, At(st.leaf.sequence)))).Ok?;
    assert 1 <= st.leaf.sequence <= st.maxSequence;
    ForkKeeps(st, Some(st.leaf.sequence));
  }

  /** The lineage is what the host kept, less the live stream, behind what an earlier run had left. */
  lemma LineageIsWhatTheHostKept(c: Chain)
    requires ChainInv(c)
    ensures !c.sys.progress.Refused? ==> Log(c) == c.base + NonStream(c.sys.h.facts)
    ensures c.sys.progress.Refused? ==> c.sys.m.pc.Failed? && Log(c) == c.base + NonStream(Front(c.sys.h.facts))
  {
  }

  lemma NextKeepsBase(c: Chain, choice: Choice)
    requires Inv(c.sys.m) && ValidStore(c.sys.h.store) && Genuine(choice) && !choice.CrashAndRestart?
    ensures NextChain(c, choice).base == c.base && NextChain(c, choice).past == c.past
  {
  }

  lemma LinkKeepsBase(trace: seq<Chain>, choices: seq<Choice>, i: nat)
    requires Links(trace, choices) && i < |choices| && SustainedAt(trace, i) && !choices[i].CrashAndRestart?
    ensures trace[i + 1].base == trace[i].base && trace[i + 1].past == trace[i].past
  {
    assert Sustained(trace, i);
    assert Link(trace, choices, i);
    NextKeepsBase(trace[i], choices[i]);
  }

  lemma {:induction false} LinksKeepBase(trace: seq<Chain>, choices: seq<Choice>, i: nat)
    requires Links(trace, choices) && SustainedAt(trace, 0) && i < |trace|
    requires forall k | 0 <= k < i :: !choices[k].CrashAndRestart?
    ensures trace[i].base == trace[0].base && trace[i].past == trace[0].past
  {
    if i > 0 {
      LinksKeepBase(trace, choices, i - 1);
      LinksKeep(trace, choices, i - 1);
      LinkKeepsBase(trace, choices, i - 1);
    }
  }

  lemma LineageOfFreshRun(c: Chain)
    requires ChainInv(c) && c.base == []
    ensures Log(c) == NonStream(if c.sys.progress.Refused? then Front(c.sys.h.facts) else c.sys.h.facts)
  {
    LineageIsWhatTheHostKept(c);
  }

  /** On a fresh store the lineage is exactly the host's facts, less the live stream and a refused last one. */
  lemma FreshLineageIsTheHosts(trace: seq<Chain>, choices: seq<Choice>, i: nat)
    requires ChainRun(trace, choices) && i < |trace|
    requires forall k | 0 <= k < i :: !choices[k].CrashAndRestart?
    ensures ChainInv(trace[i])
    ensures var h := trace[i].sys.h;
            Log(trace[i]) == NonStream(if trace[i].sys.progress.Refused? then Front(h.facts) else h.facts)
  {
    ReachableChain(trace, choices, i);
    StartsInv(trace[0]);
    LinksKeepBase(trace, choices, i);
    LineageOfFreshRun(trace[i]);
  }

  // ---- Repairing a torn log ----

  /**
   A log that was torn at the first request of a new batch cannot be resumed as it is, but it always can
   after checking out its last completion, unless an identity of the latest batch is empty: a restart from
   there starts, continues the latest batch, and is a link of the chain like any other.
   */
  lemma CheckoutRepairs(c: Chain, request: TurnRequest, given: seq<ReportedCall>)
    requires ChainInv(c) && AnyCompletion(AllBatches(c))
    ensures var again := Restarted(Survivor(c.sys.h.store, true), request, given);
            && BatchOk(Latest(AllBatches(c)))
            && (again.Some? <==> NoEmptyIdentity(Latest(AllBatches(c)).calls))
            && (again.Some? ==>
                  && Continues(again.value.m, Latest(AllBatches(c)), request)
                  && NextChain(c, CrashAndRestart(request, given, true)).sys == again.value
                  && ChainInv(NextChain(c, CrashAndRestart(request, given, true))))
  {
    var b, store := Latest(AllBatches(c)), Survivor(c.sys.h.store, true);
    RepairedIs(c.sys.h.store, AllBatches(c));
    if NoEmptyIdentity(b.calls) {
      StartContinues(b, request, given);
      RestartedFrom(store, b, request, given);
      CrashIs(c, CrashAndRestart(request, given, true));
      CrashKeeps(c, CrashAndRestart(request, given, true));
    }
  }
}
