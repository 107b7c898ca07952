/** Repairing a torn log: its last completion can always be checked out, and what is left is a sound log. */
module Repair {
  import opened Basics
  import opened Turns
  import opened Pairing
  import opened FactTree
  import opened Engine
  import opened EngineInvariant
  import opened Recovery
  import opened HostedRun

  lemma LatestOk(all: seq<TurnBatch>)
    requires BatchesOk(all) && AnyCompletion(all)
    ensures BatchOk(Latest(all)) && Latest(all).results != []
    ensures BeforeLatest(all) + [Latest(all)] == if Last(all).results != [] then all else Front(all)
  {
  }

  lemma LatestReport(all: seq<TurnBatch>)
    requires BatchesOk(all) && AnyCompletion(all)
    ensures Latest(all).results != [] && Recorded(all) != []
    ensures Last(Recorded(all)).report == Last(Latest(all).results)
  {
    LatestOk(all);
    if Last(all).results == [] {
      var front := Front(all);
      assert Last(front) == Latest(all) && Recorded(all) == Recorded(front);
    }
  }

  lemma {:induction false} UpToIsPrefix(facts: seq<TurnFact>)
    ensures UpToLastCompletion(facts) <= facts
    ensures Completions(UpToLastCompletion(facts)) == Completions(facts)
    ensures AfterLastCompletion(UpToLastCompletion(facts)) == []
    ensures UpToLastCompletion(facts) == [] <==> Completions(facts) == []
  {
    if facts != [] && !Last(facts).ToolCompletedFact? {
      UpToIsPrefix(Front(facts));
      assert Front(facts) <= facts;
    }
  }

  lemma {:induction false} PathPrefix(entries: map<int, FactEntry>, leaf: Leaf, n: nat)
    requires Tree(entries) && Known(entries, leaf) && 0 < n <= |Lineage(entries, leaf)|
    ensures var at := Lineage(entries, leaf)[n - 1].sequence;
            && at in entries
            && Lineage(entries, At(at)) == Lineage(entries, leaf)[..n]
    decreases if leaf.Root? then 0 else leaf.sequence
  {
    var path := Lineage(entries, leaf);
    assert FiledRight(entries, leaf.sequence);
    if n == |path| {
      assert path[..n] == path;
      assert Last(path) == entries[leaf.sequence];
    } else {
      PathPrefix(entries, entries[leaf.sequence].parent, n);
      assert path[..n] == Lineage(entries, entries[leaf.sequence].parent)[..n];
    }
  }

  lemma KeptIsBalanced(facts: seq<TurnFact>, all: seq<TurnBatch>)
    requires Sound(facts, all) && AnyCompletion(all)
    ensures var kept := UpToLastCompletion(facts);
            && 0 < |kept| <= |facts|
            && facts[..|kept|] == kept
            && CheckPairs(kept).Ok?
            && Completions(kept) == Recorded(all)
            && AfterLastCompletion(kept) == []
  {
    UpToIsPrefix(facts);
    LatestReport(all);
  }

  /** Any balanced prefix of the current lineage can be checked out. */
  lemma CheckoutPrefix(st: Store, n: nat)
    requires ValidStore(st) && 0 < n <= |Current(st)| && CheckPairs(CurrentFacts(st)[..n]).Ok?
    ensures var moved := Checkout(st, Current(st)[n - 1].sequence);
            moved.Ok? && ValidStore(moved.value) && CurrentFacts(moved.value) == CurrentFacts(st)[..n]
  {
    PathPrefix(st.entries, st.leaf, n);
    var at := Current(st)[n - 1].sequence;
    assert FactsOf(Lineage(st.entries, At(at))) == CurrentFacts(st)[..n];
  }

  /** The surviving store after a repair: the lineage up to its last completion. */
  lemma SurvivorKeeps(store: Store, all: seq<TurnBatch>)
    requires ValidStore(store) && Sound(CurrentFacts(store), all) && AnyCompletion(all)
    ensures CurrentFacts(Survivor(store, true)) == UpToLastCompletion(CurrentFacts(store))
  {
    KeptIsBalanced(CurrentFacts(store), all);
    CheckoutPrefix(store, |UpToLastCompletion(CurrentFacts(store))|);
  }

  /** Without any completion there is nothing to check out. */
  lemma SurvivorIsSame(store: Store, all: seq<TurnBatch>)
    requires ValidStore(store) && Sound(CurrentFacts(store), all) && !AnyCompletion(all)
    ensures Survivor(store, true) == store
  {
    UpToIsPrefix(CurrentFacts(store));
    NothingRecorded(all);
  }

  lemma NothingRecorded(all: seq<TurnBatch>)
    requires !AnyCompletion(all)
    ensures Recorded(all) == []
  {
    if all != [] {
      assert Front(all) == [];
    }
  }

  /** What is kept is a sound log of the batches up to the latest. */
  lemma KeptIsSound(facts: seq<TurnFact>, all: seq<TurnBatch>)
    requires Sound(facts, all) && AnyCompletion(all)
    ensures Sound(UpToLastCompletion(facts), BeforeLatest(all) + [Latest(all)])
  {
    var kept := UpToLastCompletion(facts);
    KeptIsBalanced(facts, all);
    LatestOk(all);
    assert Scan(kept) == Ok({});
    if Last(all).results == [] {
      var front := Front(all);
      assert Recorded(all) == Recorded(front);
      assert forall i | 0 <= i < |front| :: front[i] == all[i];
    }
  }

  /** Recovery from a repaired store yields the latest batch, whose log it then is, unless an identity of it is empty. */
  lemma RepairedIs(store: Store, all: seq<TurnBatch>)
    requires ValidStore(store) && Sound(CurrentFacts(store), all) && AnyCompletion(all)
    ensures var kept, b := CurrentFacts(Survivor(store, true)), Latest(all);
            && BatchOk(b) && b.results != [] && Sound(kept, BeforeLatest(all) + [b])
            && Restore(kept) == (if NoEmptyIdentity(b.calls) then Ok(CallSeed(b.calls, b.reasoning, b.results, Some(b.runStep)))
                                 else Raise(BadBatchIdentities))
  {
    SurvivorKeeps(store, all);
    LatestOk(all);
    KeptIsSound(CurrentFacts(store), all);
    LatestLast(all);
    RestoreExact(UpToLastCompletion(CurrentFacts(store)), BeforeLatest(all) + [Latest(all)]);
  }

  lemma LatestLast(all: seq<TurnBatch>)
    requires AnyCompletion(all) && Latest(all).results != []
    ensures var most := BeforeLatest(all) + [Latest(all)];
            most != [] && Last(most) == Latest(all) && AnyCompletion(most) && Latest(most) == Latest(all)
  {
  }

  /** Where nothing was completed a repaired store yields nothing. */
  lemma NothingToRepair(store: Store, all: seq<TurnBatch>)
    requires ValidStore(store) && Sound(CurrentFacts(store), all) && !AnyCompletion(all)
    ensures Restore(CurrentFacts(Survivor(store, true))).Raise?
  {
    SurvivorIsSame(store, all);
    RestoreExact(CurrentFacts(store), all);
  }
}
