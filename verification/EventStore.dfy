/** The in-memory fact store: an object whose methods realise the operations of `FactTree`. */
module EventStore {
  import opened Basics
  import opened Turns
  import opened Pairing
  import opened FactTree
  import opened Paging

  datatype Staged = Staged(entry: FactEntry, key: Option<string>)

  /** The entries once the staged ones are filed, in staging order. */
  ghost function FileAll(entries: map<int, FactEntry>, staged: seq<Staged>): map<int, FactEntry> {
    if staged == [] then entries
    else FileAll(entries, Front(staged))[Last(staged).entry.sequence := Last(staged).entry]
  }

  ghost function KeyAll(dedupe: map<string, int>, staged: seq<Staged>): map<string, int> {
    if staged == [] then dedupe
    else if Last(staged).key.None? then KeyAll(dedupe, Front(staged))
    else KeyAll(dedupe, Front(staged))[Last(staged).key.value := Last(staged).entry.sequence]
  }

  function TipOf(st: Store, staged: seq<Staged>): Leaf {
    if staged == [] then st.leaf else At(st.maxSequence + |staged|)
  }

  /** Filing the staged entries is what recording the facts one by one would do. */
  ghost predicate Stages(st: Store, facts: seq<TurnFact>, keys: seq<Option<string>>, staged: seq<Staged>)
    requires |facts| == |keys|
  {
    && (forall j | 0 <= j < |staged| :: staged[j].entry.sequence == st.maxSequence + 1 + j)
    && AdmitAll(st, facts, keys) ==
       Store(FileAll(st.entries, staged), KeyAll(st.dedupe, staged), TipOf(st, staged), st.maxSequence + |staged|)
  }

  lemma StageOne(st: Store, facts: seq<TurnFact>, keys: seq<Option<string>>, staged: seq<Staged>, fact: TurnFact, key: Option<string>)
    requires |facts| == |keys| && Stages(st, facts, keys, staged)
    ensures var more := staged + [Staged(FactEntry(st.maxSequence + |staged| + 1, TipOf(st, staged), fact), key)];
            if key.Some? && key.value in KeyAll(st.dedupe, staged) then
              Stages(st, facts + [fact], keys + [key], staged)
            else
              && Stages(st, facts + [fact], keys + [key], more)
              && KeyAll(st.dedupe, more).Keys ==
                 KeyAll(st.dedupe, staged).Keys + (if key.Some? then {key.value} else {})
  {
    var more := staged + [Staged(FactEntry(st.maxSequence + |staged| + 1, TipOf(st, staged), fact), key)];
    assert Front(facts + [fact]) == facts && Front(keys + [key]) == keys && Front(more) == staged;
    assert AdmitAll(st, facts + [fact], keys + [key]) == Admit(AdmitAll(st, facts, keys), fact, key);
  }

  lemma {:induction false} FirstErrorWithin(facts: seq<TurnFact>, i: nat)
    requires i < |facts| && FirstError(facts[..i]).None? && FactError(facts[i]).Some?
    ensures FirstError(facts) == FactError(facts[i])
    decreases |facts|
  {
    if i == |facts| - 1 {
      assert Front(facts) == facts[..i];
    } else {
      assert Front(facts)[..i] == facts[..i];
      FirstErrorWithin(Front(facts), i);
    }
  }

  /** The newer part of a lineage is what follows the last completion. */
  lemma {:induction false} TailByCompletion(facts: seq<TurnFact>, at: nat)
    requires at < |facts| && facts[at].ToolCompletedFact?
    requires forall i | at < i < |facts| :: !facts[i].ToolCompletedFact?
    ensures AfterLastCompletion(facts) == facts[at + 1..]
    decreases |facts|
  {
    if at < |facts| - 1 {
      TailByCompletion(Front(facts), at);
      assert facts[at + 1..] == Front(facts)[at + 1..] + [Last(facts)];
    }
  }

  /** What is newer than the latest completion by its sequence is what follows it on the lineage. */
  lemma NewerBySequence(st: Store, leaf: Leaf, at: nat)
    requires ValidStore(st) && Known(st.entries, leaf) && at < |Lineage(st.entries, leaf)|
    requires var facts := FactsOf(Lineage(st.entries, leaf));
             facts[at].ToolCompletedFact? && forall i | at < i < |facts| :: !facts[i].ToolCompletedFact?
    ensures var path := Lineage(st.entries, leaf);
            FactsOf(After(path, path[at].sequence)) == AfterLastCompletion(FactsOf(path))
  {
    LineageIncreasing(st, leaf);
    NewerOnPath(Lineage(st.entries, leaf), at);
  }

  lemma NewerOnPath(path: seq<FactEntry>, at: nat)
    requires Increasing(path) && Positive(path) && at < |path|
    requires path[at].fact.ToolCompletedFact? && forall i | at < i < |path| :: !path[i].fact.ToolCompletedFact?
    ensures FactsOf(After(path, path[at].sequence)) == AfterLastCompletion(FactsOf(path))
  {
    AfterCursor(path, at + 1);
    TailByCompletion(FactsOf(path), at);
    FactsOfRest(path, at + 1);
  }

  lemma FactsOfRest(path: seq<FactEntry>, n: nat)
    requires n <= |path|
    ensures FactsOf(path[n..]) == FactsOf(path)[n..]
  {
  }

  function SequencesOf(staged: seq<Staged>): seq<int> {
    seq(|staged|, j requires 0 <= j < |staged| => staged[j].entry.sequence)
  }

  lemma SequencesStaged(top: int, staged: seq<Staged>)
    requires forall j | 0 <= j < |staged| :: staged[j].entry.sequence == top + 1 + j
    ensures SequencesOf(staged) == SequencesFrom(top, top + |staged|)
  {
  }

  /** What the staging loop has achieved after some facts. */
  ghost predicate StagedSoFar(st: Store, facts: seq<TurnFact>, keys: seq<Option<string>>, staged: seq<Staged>, seen: set<string>)
    requires |facts| == |keys|
  {
    && FirstError(facts).None?
    && Stages(st, facts, keys, staged)
    && KeyAll(st.dedupe, staged).Keys == st.dedupe.Keys + seen
  }

  lemma StagedOneMore(st: Store, facts: seq<TurnFact>, keys: seq<Option<string>>, staged: seq<Staged>, seen: set<string>,
                      fact: TurnFact, key: Option<string>)
    requires |facts| == |keys| && StagedSoFar(st, facts, keys, staged, seen) && FactError(fact).None?
    ensures var known := key.Some? && (key.value in st.dedupe || key.value in seen);
            if known then StagedSoFar(st, facts + [fact], keys + [key], staged, seen)
            else
              StagedSoFar(st, facts + [fact], keys + [key],
                          staged + [Staged(FactEntry(st.maxSequence + |staged| + 1, TipOf(st, staged), fact), key)],
                          if key.Some? then seen + {key.value} else seen)
  {
    assert Front(facts + [fact]) == facts;
    StageOne(st, facts, keys, staged, fact, key);
  }

  /** Numbers the facts to record without recording any. */
  method Stage(st: Store, facts: seq<TurnFact>, keys: seq<Option<string>>) returns (r: Result<seq<Staged>, StoreError>)
    requires keys == [] || |keys| == |facts|
    ensures FirstError(facts).Some? ==> r == Raise(FirstError(facts).value)
    ensures FirstError(facts).None? ==> r.Ok? && Stages(st, facts, KeysFor(facts, keys), r.value)
  {
    ghost var ks := KeysFor(facts, keys);
    var staged: seq<Staged> := [];
    var seen: set<string> := {};
    var tip, watermark := st.leaf, st.maxSequence;
    for i := 0 to |facts|
      invariant watermark == st.maxSequence + |staged| && tip == TipOf(st, staged)
      invariant StagedSoFar(st, facts[..i], ks[..i], staged, seen)
    {
      var fact := facts[i];
      if fact.StreamFact? {
        FirstErrorWithin(facts, i);
        return Raise(LiveOnlyFact);
      }
      if IsExecution(fact) && !HasIdentity(CallIdOf(fact)) {
        FirstErrorWithin(facts, i);
        return Raise(NoCallIdentity);
      }
      var key := if keys != [] then keys[i] else None;
      StagedOneMore(st, facts[..i], ks[..i], staged, seen, fact, key);
      assert facts[..i + 1] == facts[..i] + [fact] && ks[..i + 1] == ks[..i] + [key];
      if key.Some? && (key.value in st.dedupe || key.value in seen) {
        continue;
      }
      if key.Some? {
        seen := seen + {key.value};
      }
      watermark := watermark + 1;
      staged := staged + [Staged(FactEntry(watermark, tip, fact), key)];
      tip := At(watermark);
    }
    assert facts[..|facts|] == facts && ks[..|facts|] == ks;
    return Ok(staged);
  }

  class MemoryEventStore {
    var entries: map<int, FactEntry>
    var dedupe: map<string, int>
    var leaf: Leaf
    var maxSequence: int

    function State(): Store
      reads this
    {
      Store(entries, dedupe, leaf, maxSequence)
    }

    ghost predicate Valid()
      reads this
    {
      ValidStore(State())
    }

    constructor ()
      ensures Valid() && State() == EMPTY
    {
      entries, dedupe, leaf, maxSequence := map[], map[], Root, 0;
    }

    /** All facts are checked before any is recorded, so a raised append changes nothing. */
    method AppendFacts(facts: seq<TurnFact>, keys: seq<Option<string>>) returns (r: Result<seq<int>, StoreError>)
      requires Valid()
      modifies this
      ensures Valid()
      ensures Append(old(State()), facts, keys).Raise? ==>
                r == Raise(Append(old(State()), facts, keys).error) && State() == old(State())
      ensures Append(old(State()), facts, keys).Ok? ==>
                && State() == Append(old(State()), facts, keys).value
                && old(maxSequence) <= maxSequence
                && r == Ok(SequencesFrom(old(maxSequence), maxSequence))
    {
      if keys != [] && |keys| != |facts| {
        return Raise(DedupeArity);
      }
      ghost var before := State();
      var outcome := Stage(State(), facts, keys);
      if outcome.Raise? {
        return Raise(outcome.error);
      }
      var staged := outcome.value;
      AdmitAllKeeps(before, facts, KeysFor(facts, keys));
      assert Append(before, facts, keys) == Ok(AdmitAll(before, facts, KeysFor(facts, keys)));
      var tip, watermark := TipOf(State(), staged), maxSequence + |staged|;
      Commit(staged);
      leaf, maxSequence := tip, watermark;
      SequencesStaged(before.maxSequence, staged);
      return Ok(SequencesOf(staged));
    }

    method Commit(staged: seq<Staged>)
      modifies this
      ensures entries == FileAll(old(entries), staged)
      ensures dedupe == KeyAll(old(dedupe), staged)
      ensures leaf == old(leaf) && maxSequence == old(maxSequence)
    {
      for j := 0 to |staged|
        invariant entries == FileAll(old(entries), staged[..j])
        invariant dedupe == KeyAll(old(dedupe), staged[..j])
        invariant leaf == old(leaf) && maxSequence == old(maxSequence)
      {
        assert Front(staged[..j + 1]) == staged[..j];
        entries := entries[staged[j].entry.sequence := staged[j].entry];
        if staged[j].key.Some? {
          dedupe := dedupe[staged[j].key.value := staged[j].entry.sequence];
        }
      }
      assert staged[..|staged|] == staged;
    }

    /** Walks from a leaf to the root and turns the chain round. */
    method Path(from: Leaf) returns (r: Result<seq<FactEntry>, StoreError>)
      requires Valid()
      ensures r == if Known(entries, from) then Ok(Lineage(entries, from)) else Raise(UnknownAncestor)
    {
      var cursor := from;
      var chain: seq<FactEntry> := [];
      while cursor.At?
        invariant Known(entries, from) <==> Known(entries, cursor)
        invariant Known(entries, from) ==> Lineage(entries, from) == Lineage(entries, cursor) + Turned(chain)
        decreases if cursor.Root? then 0 else if cursor.sequence < 0 then 1 else cursor.sequence + 1
      {
        if cursor.sequence !in entries {
          return Raise(UnknownAncestor);
        }
        var entry := entries[cursor.sequence];
        assert FiledRight(entries, cursor.sequence);
        assert Turned(chain + [entry]) == [entry] + Turned(chain);
        chain := chain + [entry];
        cursor := entry.parent;
      }
      assert Lineage(entries, Root) + Turned(chain) == Turned(chain);
      return Ok(Turned(chain));
    }

    method Read(afterSequence: int, limit: int, leafSequence: Leaf) returns (r: Result<FactPage, StoreError>)
      requires Valid()
      ensures r == ReadPage(State(), afterSequence, limit, leafSequence)
    {
      if limit < 1 || afterSequence < 0 {
        return Raise(BadPage);
      }
      var tip := if leafSequence.Root? then leaf else leafSequence;
      var walked := Path(tip);
      if walked.Raise? {
        return Raise(walked.error);
      }
      var path := walked.value;
      if afterSequence != 0 && !OnPath(path, afterSequence) {
        return Raise(ForeignCursor);
      }
      var selected := After(path, afterSequence);
      return Ok(FactPage(tip, maxSequence, PageOf(selected, limit), NextCursor(selected, limit)));
    }

    method MoveTo(sequence: int) returns (r: Result<(), StoreError>)
      requires Valid()
      modifies this`leaf
      ensures Valid()
      ensures var spec := FactTree.Checkout(old(State()), sequence);
              if spec.Ok? then r == Ok(()) && State() == spec.value else r == Raise(spec.error) && State() == old(State())
      ensures r.Ok? <==> sequence in entries && WholeBlocks(FactsUpTo(old(State()), sequence))
      ensures leaf == if r.Ok? then At(sequence) else old(leaf)
    {
      CheckoutExactly(State(), sequence);
      var walked := Path(At(sequence));
      if walked.Raise? {
        return Raise(walked.error);
      }
      var verdict := RequireCompleteToolPairs(FactsOf(walked.value));
      if verdict.Raise? {
        return Raise(Unpaired(verdict.error));
      }
      leaf := At(sequence);
      return Ok(());
    }

    /** The branch is a new object; nothing in this store changes, then or later, through it. */
    method Branch(sequence: Option<int>) returns (r: Result<MemoryEventStore, StoreError>)
      requires Valid()
      ensures var spec := FactTree.Fork(State(), sequence);
              if spec.Ok? then r.Ok? && fresh(r.value) && r.value.Valid() && r.value.State() == spec.value
              else r == Raise(spec.error)
    {
      if sequence.Some? && sequence.value < 1 {
        return Raise(BadForkSequence);
      }
      var top := if sequence.None? || sequence.value > maxSequence then maxSequence else sequence.value;
      if top == 0 {
        return Raise(EmptyLog);
      }
      var prefix := map k | k in entries && k <= top :: entries[k];
      var walked := Path(At(top));
      var verdict := RequireCompleteToolPairs(FactsOf(walked.value));
      if verdict.Raise? {
        return Raise(Unpaired(verdict.error));
      }
      ForkKeeps(State(), sequence);
      var branch := new MemoryEventStore();
      branch.entries, branch.leaf, branch.maxSequence := prefix, At(top), top;
      return Ok(branch);
    }

    method RestoreBatch() returns (r: Result<CallSeed, StoreError>)
      requires Valid()
      ensures r == Restore(CurrentFacts(State()))
    {
      var walked := Path(leaf);
      var facts := FactsOf(walked.value);
      var completed, latest := CollectCompletions(facts);
      if completed == [] {
        return Raise(NothingCompleted);
      }
      var snapshot := Last(completed).batch;
      if snapshot.None? || snapshot.value.completedReports != [] {
        return Raise(NoSnapshot);
      }
      var batch := snapshot.value;
      var current := CollectTrailing(completed, snapshot);
      if !SoundIdentities(batch.calls) {
        return Raise(BadBatchIdentities);
      }
      if !IsIdPrefix(current, batch.calls) {
        return Raise(NotThePrefix);
      }
      NewerBySequence(State(), leaf, latest);
      if !TailBelongs(FactsOf(After(walked.value, walked.value[latest].sequence)), batch.calls[|current|..]) {
        return Raise(UnsnapshottedRequest);
      }
      return Ok(CallSeed(batch.calls, batch.reasoning, current, batch.runStep));
    }
  }

  method CollectCompletions(facts: seq<TurnFact>) returns (completed: seq<Completion>, latest: int)
    ensures completed == Completions(facts)
    ensures -1 <= latest < |facts| && (latest == -1 <==> completed == [])
    ensures latest >= 0 ==> facts[latest].ToolCompletedFact?
    ensures forall j | latest < j < |facts| :: !facts[j].ToolCompletedFact?
  {
    completed, latest := [], -1;
    for i := 0 to |facts|
      invariant completed == Completions(facts[..i])
      invariant -1 <= latest < i && (latest == -1 <==> completed == [])
      invariant latest >= 0 ==> facts[latest].ToolCompletedFact?
      invariant forall j | latest < j < i :: !facts[j].ToolCompletedFact?
    {
      assert Front(facts[..i + 1]) == facts[..i];
      if facts[i].ToolCompletedFact? {
        completed := completed + [Completion(facts[i].report, facts[i].batch)];
        latest := i;
      }
    }
    assert facts[..|facts|] == facts;
  }

  method CollectTrailing(completed: seq<Completion>, snapshot: Option<CallSeed>) returns (current: seq<ReportedCall>)
    ensures current == TrailingRun(completed, snapshot)
  {
    current := [];
    var i := |completed|;
    assert completed[..i] == completed;
    while i > 0 && completed[i - 1].batch == snapshot
      invariant 0 <= i <= |completed|
      invariant TrailingRun(completed, snapshot) == TrailingRun(completed[..i], snapshot) + current
    {
      assert Front(completed[..i]) == completed[..i - 1];
      current := [completed[i - 1].report] + current;
      i := i - 1;
    }
  }

  function Turned(chain: seq<FactEntry>): seq<FactEntry> {
    seq(|chain|, i requires 0 <= i < |chain| => chain[|chain| - 1 - i])
  }

}
