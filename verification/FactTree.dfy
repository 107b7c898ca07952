/** The append-only fact tree as a value: what each store operation does, and what every run of them keeps. */
module FactTree {
  import opened Basics
  import opened Turns
  import opened Pairing

  /** A position in the tree: before every entry, or at one. */
  datatype Leaf = Root | At(sequence: int)

  datatype FactEntry = FactEntry(sequence: int, parent: Leaf, fact: TurnFact)

  datatype FactPage = FactPage(
    leaf: Leaf,
    maxSequence: int,
    entries: seq<FactEntry>,
    nextAfter: Option<int>)

  datatype StoreError =
    | DedupeArity
    | LiveOnlyFact
    | NoCallIdentity
    | UnknownAncestor
    | BadPage
    | ForeignCursor
    | Unpaired(cause: PairError)
    | NothingCompleted
    | NoSnapshot
    | BadBatchIdentities
    | NotThePrefix
    | UnsnapshottedRequest
    | BadForkSequence
    | EmptyLog

  datatype Store = Store(
    entries: map<int, FactEntry>,
    dedupe: map<string, int>,
    leaf: Leaf,
    maxSequence: int)

  const EMPTY := Store(map[], map[], Root, 0)

  // ---- Lineages ----

  /** Every entry is filed under its own sequence and its parent is an older entry. */
  ghost predicate Tree(entries: map<int, FactEntry>) {
    forall k {:trigger FiledRight(entries, k)} :: k in entries ==> FiledRight(entries, k)
  }

  ghost predicate FiledRight(entries: map<int, FactEntry>, k: int)
  {
    k in entries ==>
    var e := entries[k];
    && 1 <= k == e.sequence
    && Known(entries, e.parent)
    && (e.parent.At? ==> e.parent.sequence < k)
  }

  predicate Known(entries: map<int, FactEntry>, leaf: Leaf) {
    leaf.At? ==> leaf.sequence in entries
  }

  /** The entries from the root down to `leaf`. */
  function Lineage(entries: map<int, FactEntry>, leaf: Leaf): (path: seq<FactEntry>)
    requires Tree(entries) && Known(entries, leaf)
    ensures leaf.Root? ==> path == []
    ensures leaf.At? ==> path != [] && Last(path) == entries[leaf.sequence]
    decreases if leaf.Root? then 0 else leaf.sequence
  {
    if leaf.Root? then []
    else
      assert FiledRight(entries, leaf.sequence);
      Lineage(entries, entries[leaf.sequence].parent) + [entries[leaf.sequence]]
  }

  function FactsOf(path: seq<FactEntry>): (facts: seq<TurnFact>)
    ensures |facts| == |path|
    ensures forall i | 0 <= i < |path| :: facts[i] == path[i].fact
  {
    seq(|path|, i requires 0 <= i < |path| => path[i].fact)
  }

  /** What every reachable store satisfies. */
  ghost predicate ValidStore(st: Store) {
    && Tree(st.entries)
    && st.maxSequence >= 0
    && (forall k :: k in st.entries <==> 1 <= k <= st.maxSequence)
    && Known(st.entries, st.leaf)
    && (st.leaf.Root? <==> st.maxSequence == 0)
    && (forall key | key in st.dedupe :: st.dedupe[key] in st.entries)
  }

  function Current(st: Store): seq<FactEntry>
    requires ValidStore(st)
  {
    Lineage(st.entries, st.leaf)
  }

  function CurrentFacts(st: Store): seq<TurnFact>
    requires ValidStore(st)
  {
    FactsOf(Current(st))
  }

  // ---- Append ----

  /** Why a single fact is refused. */
  function FactError(f: TurnFact): Option<StoreError> {
    if f.StreamFact? then Some(LiveOnlyFact)
    else if IsExecution(f) && !HasIdentity(CallIdOf(f)) then Some(NoCallIdentity)
    else None
  }

  /** The refusal of the earliest refused fact. */
  function FirstError(facts: seq<TurnFact>): Option<StoreError> {
    if facts == [] then None
    else if FirstError(Front(facts)).Some? then FirstError(Front(facts))
    else FactError(Last(facts))
  }

  /** Recording one fact on the current lineage, unless its key was recorded before on any lineage. */
  function Admit(st: Store, fact: TurnFact, key: Option<string>): Store {
    if key.Some? && key.value in st.dedupe then st
    else
      var sequence := st.maxSequence + 1;
      Store(
        st.entries[sequence := FactEntry(sequence, st.leaf, fact)],
        if key.Some? then st.dedupe[key.value := sequence] else st.dedupe,
        At(sequence),
        sequence)
  }

  function AdmitAll(st: Store, facts: seq<TurnFact>, keys: seq<Option<string>>): Store
    requires |facts| == |keys|
  {
    if facts == [] then st
    else Admit(AdmitAll(st, Front(facts), Front(keys)), Last(facts), Last(keys))
  }

  /** An empty tuple of keys means that no fact has one. */
  function KeysFor(facts: seq<TurnFact>, keys: seq<Option<string>>): (ks: seq<Option<string>>)
    ensures keys == [] || |keys| == |facts| ==> |ks| == |facts|
  {
    if keys == [] then seq(|facts|, _ => None) else keys
  }

  function SequencesFrom(low: int, high: int): seq<int>
    requires low <= high
  {
    seq(high - low, i => low + 1 + i)
  }

  function Append(st: Store, facts: seq<TurnFact>, keys: seq<Option<string>>): (r: Result<Store, StoreError>)
  {
    if keys != [] && |keys| != |facts| then Raise(DedupeArity)
    else if FirstError(facts).Some? then Raise(FirstError(facts).value)
    else Ok(AdmitAll(st, facts, KeysFor(facts, keys)))
  }

  // ---- Reading, moving the leaf, forking ----

  function After(path: seq<FactEntry>, cursor: int): (rest: seq<FactEntry>) {
    if path == [] then []
    else After(Front(path), cursor) + (if Last(path).sequence > cursor then [Last(path)] else [])
  }

  predicate OnPath(path: seq<FactEntry>, sequence: int) {
    exists i | 0 <= i < |path| :: path[i].sequence == sequence
  }

  function ReadPage(st: Store, afterSequence: int, limit: int, leafSequence: Leaf): Result<FactPage, StoreError>
    requires ValidStore(st)
  {
    if limit < 1 || afterSequence < 0 then Raise(BadPage)
    else
      var leaf := if leafSequence.Root? then st.leaf else leafSequence;
      if !Known(st.entries, leaf) then Raise(UnknownAncestor)
      else
        var path := Lineage(st.entries, leaf);
        if afterSequence != 0 && !OnPath(path, afterSequence) then Raise(ForeignCursor)
        else
          var selected := After(path, afterSequence);
          Ok(FactPage(leaf, st.maxSequence, PageOf(selected, limit), NextCursor(selected, limit)))
  }

  function PageOf(selected: seq<FactEntry>, limit: int): seq<FactEntry>
    requires limit >= 1
  {
    if |selected| > limit then selected[..limit] else selected
  }

  /** The last sequence of the page, but only when something was left out of it. */
  function NextCursor(selected: seq<FactEntry>, limit: int): Option<int>
    requires limit >= 1
  {
    if |selected| > limit then Some(selected[limit - 1].sequence) else None
  }

  function Checkout(st: Store, sequence: int): Result<Store, StoreError>
    requires ValidStore(st)
  {
    if sequence !in st.entries then Raise(UnknownAncestor)
    else
      var verdict := CheckPairs(FactsOf(Lineage(st.entries, At(sequence))));
      if verdict.Raise? then Raise(Unpaired(verdict.error)) else Ok(st.(leaf := At(sequence)))
  }

  function UpTo(entries: map<int, FactEntry>, leaf: int): map<int, FactEntry> {
    map k | k in entries && k <= leaf :: entries[k]
  }

  /** A fork copies the entries up to its leaf but none of the dedupe keys. */
  function Fork(st: Store, sequence: Option<int>): Result<Store, StoreError>
    requires ValidStore(st)
  {
    if sequence.Some? && sequence.value < 1 then Raise(BadForkSequence)
    else
      var leaf := if sequence.None? || sequence.value > st.maxSequence then st.maxSequence else sequence.value;
      if leaf == 0 then Raise(EmptyLog)
      else
        var verdict := CheckPairs(FactsOf(Lineage(st.entries, At(leaf))));
        if verdict.Raise? then Raise(Unpaired(verdict.error))
        else Ok(Store(UpTo(st.entries, leaf), map[], At(leaf), leaf))
  }

  // ---- Crash recovery ----

  /** The reports of the completions at the end that carry the given snapshot. */
  function TrailingRun(done: seq<Completion>, batch: Option<CallSeed>): (run: seq<ReportedCall>)
    ensures |run| <= |done|
  {
    if done == [] || Last(done).batch != batch then []
    else TrailingRun(Front(done), batch) + [Last(done).report]
  }

  /** The identities of a snapshot are usable: at least one, none empty, all different. */
  predicate SoundIdentities(calls: seq<ToolCall>) {
    && calls != []
    && (forall i | 0 <= i < |calls| :: HasIdentity(calls[i].toolCallId))
    && AllDifferent(CallIds(calls))
  }

  /** Requests newer than the last completion must belong to what is left of its batch, with no model turn in between. */
  predicate TailBelongs(tail: seq<TurnFact>, remaining: seq<ToolCall>) {
    (exists i | 0 <= i < |tail| :: tail[i].ToolRequestedFact?) ==>
      forall i | 0 <= i < |tail| ::
        !tail[i].ModelTurnFact? && (tail[i].ToolRequestedFact? ==> tail[i].call.toolCallId in CallIds(remaining))
  }

  /** What `restore_batch` answers for a lineage that recorded `facts`. */
  function Restore(facts: seq<TurnFact>): Result<CallSeed, StoreError> {
    var done := Completions(facts);
    if done == [] then Raise(NothingCompleted)
    else
      var snapshot := Last(done).batch;
      if snapshot.None? || snapshot.value.completedReports != [] then Raise(NoSnapshot)
      else
        var batch := snapshot.value;
        var current := TrailingRun(done, snapshot);
        if !SoundIdentities(batch.calls) then Raise(BadBatchIdentities)
        else if !IsIdPrefix(current, batch.calls) then Raise(NotThePrefix)
        else if !TailBelongs(AfterLastCompletion(facts), batch.calls[|current|..]) then Raise(UnsnapshottedRequest)
        else Ok(CallSeed(batch.calls, batch.reasoning, current, batch.runStep))
  }

  // ---- Lineages are ordered and never change ----

  lemma {:induction false} LineageOrdered(entries: map<int, FactEntry>, leaf: Leaf)
    requires Tree(entries) && Known(entries, leaf)
    ensures forall i, j | 0 <= i < j < |Lineage(entries, leaf)| ::
              Lineage(entries, leaf)[i].sequence < Lineage(entries, leaf)[j].sequence
    ensures forall i | 0 <= i < |Lineage(entries, leaf)| :: 1 <= Lineage(entries, leaf)[i].sequence <= leaf.sequence
    decreases if leaf.Root? then 0 else leaf.sequence
  {
    if leaf.At? {
      assert FiledRight(entries, leaf.sequence);
      LineageOrdered(entries, entries[leaf.sequence].parent);
    }
  }

  /** Every entry of a path is the parent of the next; the first has none. */
  lemma {:induction false} LineageLinked(entries: map<int, FactEntry>, leaf: Leaf, i: nat)
    requires Tree(entries) && Known(entries, leaf) && i < |Lineage(entries, leaf)|
    ensures Lineage(entries, leaf)[i].parent == if i == 0 then Root else At(Lineage(entries, leaf)[i - 1].sequence)
    decreases if leaf.Root? then 0 else leaf.sequence
  {
    assert FiledRight(entries, leaf.sequence);
    var parent := entries[leaf.sequence].parent;
    if i < |Lineage(entries, leaf)| - 1 {
      LineageLinked(entries, parent, i);
    } else if parent.At? {
      assert FiledRight(entries, parent.sequence);
    }
  }

  ghost predicate Extends(entries: map<int, FactEntry>, more: map<int, FactEntry>) {
    forall k | k in entries :: k in more && entries[k] == more[k]
  }

  /** Whatever else is recorded, the path to a known leaf stays what it was. */
  lemma {:induction false} LineageStable(entries: map<int, FactEntry>, more: map<int, FactEntry>, leaf: Leaf)
    requires Tree(entries) && Tree(more) && Known(entries, leaf) && Extends(entries, more)
    ensures Lineage(more, leaf) == Lineage(entries, leaf)
    decreases if leaf.Root? then 0 else leaf.sequence
  {
    if leaf.At? {
      assert FiledRight(entries, leaf.sequence) && FiledRight(more, leaf.sequence);
      LineageStable(entries, more, entries[leaf.sequence].parent);
    }
  }

  /** Restricting to the older entries keeps the path to any of them. */
  lemma {:induction false} LineageUpTo(entries: map<int, FactEntry>, top: int, leaf: Leaf)
    requires Tree(entries) && Known(UpTo(entries, top), leaf)
    ensures Tree(UpTo(entries, top))
    ensures Lineage(UpTo(entries, top), leaf) == Lineage(entries, leaf)
  {
    var older := UpTo(entries, top);
    forall k ensures FiledRight(older, k) {
      assert FiledRight(entries, k);
    }
    LineageStable(older, entries, leaf);
  }

  // ---- The invariant, operation by operation ----

  lemma AdmitKeeps(st: Store, fact: TurnFact, key: Option<string>)
    requires ValidStore(st)
    ensures ValidStore(Admit(st, fact, key)) && Extends(st.entries, Admit(st, fact, key).entries)
    ensures Current(Admit(st, fact, key)) == Current(st) +
            if key.Some? && key.value in st.dedupe then [] else [FactEntry(st.maxSequence + 1, st.leaf, fact)]
    ensures CurrentFacts(Admit(st, fact, key)) == CurrentFacts(st) +
            if key.Some? && key.value in st.dedupe then [] else [fact]
  {
    var next := Admit(st, fact, key);
    if next != st {
      forall k ensures FiledRight(next.entries, k) {
        assert FiledRight(st.entries, k);
      }
      LineageStable(st.entries, next.entries, st.leaf);
    }
  }

  /** The facts that an append really adds: those whose key was not recorded before, nor earlier in the batch. */
  function Admitted(st: Store, facts: seq<TurnFact>, keys: seq<Option<string>>): seq<TurnFact>
    requires |facts| == |keys|
  {
    if facts == [] then []
    else
      Admitted(st, Front(facts), Front(keys)) +
      if Last(keys).Some? && (Last(keys).value in st.dedupe || Last(keys) in Front(keys)) then [] else [Last(facts)]
  }

  /** After an append the keys on record are the old ones and those of the batch. */
  lemma {:induction false} AdmitAllKeys(st: Store, facts: seq<TurnFact>, keys: seq<Option<string>>)
    requires |facts| == |keys|
    ensures forall key: string :: key in AdmitAll(st, facts, keys).dedupe <==> key in st.dedupe || Some(key) in keys
  {
    if facts != [] {
      AdmitAllKeys(st, Front(facts), Front(keys));
      assert keys == Front(keys) + [Last(keys)];
    }
  }

  lemma {:induction false} AdmitAllKeeps(st: Store, facts: seq<TurnFact>, keys: seq<Option<string>>)
    requires ValidStore(st) && |facts| == |keys|
    ensures var next := AdmitAll(st, facts, keys);
            && ValidStore(next)
            && Extends(st.entries, next.entries)
            && next.maxSequence == st.maxSequence + |Admitted(st, facts, keys)|
            && CurrentFacts(next) == CurrentFacts(st) + Admitted(st, facts, keys)
  {
    if facts != [] {
      var before, key := AdmitAll(st, Front(facts), Front(keys)), Last(keys);
      AdmitAllKeeps(st, Front(facts), Front(keys));
      AdmitAllKeys(st, Front(facts), Front(keys));
      AdmitKeeps(before, Last(facts), key);
      assert (key.Some? && key.value in before.dedupe) <==> (key.Some? && (key.value in st.dedupe || key in Front(keys)));
    }
  }

  /** Once recorded under keys, a batch is never recorded again, whatever lineage it is offered to. */
  lemma {:induction false} AllSeenAdmitsNothing(st: Store, facts: seq<TurnFact>, keys: seq<Option<string>>)
    requires |facts| == |keys|
    requires forall i | 0 <= i < |keys| :: keys[i].Some? && keys[i].value in st.dedupe
    ensures AdmitAll(st, facts, keys) == st
  {
    if facts != [] {
      AllSeenAdmitsNothing(st, Front(facts), Front(keys));
    }
  }

  lemma ReappendIsNoop(st: Store, facts: seq<TurnFact>, keys: seq<Option<string>>)
    requires ValidStore(st) && Append(st, facts, keys).Ok?
    requires |keys| == |facts| && forall i | 0 <= i < |keys| :: keys[i].Some?
    ensures Append(Append(st, facts, keys).value, facts, keys) == Append(st, facts, keys)
  {
    AdmitAllKeys(st, facts, KeysFor(facts, keys));
    AllSeenAdmitsNothing(Append(st, facts, keys).value, facts, KeysFor(facts, keys));
  }

  /** A fork keeps every path it still knows, starts a store of its own, and forgets the keys. */
  lemma ForkKeeps(st: Store, sequence: Option<int>)
    requires ValidStore(st) && Fork(st, sequence).Ok?
    ensures var branch := Fork(st, sequence).value;
            && ValidStore(branch)
            && Extends(branch.entries, st.entries)
            && Current(branch) == Lineage(st.entries, branch.leaf)
            && CheckPairs(CurrentFacts(branch)).Ok?
            && (forall leaf: Leaf | Known(branch.entries, leaf) ::
                  Lineage(branch.entries, leaf) == Lineage(st.entries, leaf))
  {
    var branch := Fork(st, sequence).value;
    LineageUpTo(st.entries, branch.maxSequence, branch.leaf);
    forall leaf: Leaf | Known(branch.entries, leaf)
      ensures Lineage(branch.entries, leaf) == Lineage(st.entries, leaf)
    {
      LineageUpTo(st.entries, branch.maxSequence, leaf);
    }
  }

  lemma AppendOne(st: Store, fact: TurnFact, key: string)
    requires ValidStore(st) && FactError(fact).None?
    ensures Append(st, [fact], [Some(key)]) == Ok(Admit(st, fact, Some(key)))
  {
    assert Front([fact]) == [] && Front([Some(key)]) == [];
    assert FirstError([fact]).None?;
    assert AdmitAll(st, [fact], [Some(key)]) == Admit(AdmitAll(st, [], []), fact, Some(key));
  }

  /**
   A store skips a keyed fact exactly if it has the key on record; a fork of it has none on record, so it
   records the fact whatever the key.
   */
  lemma ForkForgetsKeys(st: Store, sequence: Option<int>, fact: TurnFact, key: string)
    requires ValidStore(st) && Fork(st, sequence).Ok? && FactError(fact).None?
    ensures Append(st, [fact], [Some(key)]) == Ok(st) <==> key in st.dedupe
    ensures var branch := Fork(st, sequence).value;
            && ValidStore(branch)
            && Append(branch, [fact], [Some(key)]).Ok?
            && ValidStore(Append(branch, [fact], [Some(key)]).value)
            && CurrentFacts(Append(branch, [fact], [Some(key)]).value) == CurrentFacts(branch) + [fact]
  {
    ForkKeeps(st, sequence);
    var branch := Fork(st, sequence).value;
    AppendOne(st, fact, key);
    AppendOne(branch, fact, key);
    AdmitKeeps(st, fact, Some(key));
    AdmitKeeps(branch, fact, Some(key));
  }

  // ---- What is refused ----

  /** A fact that may be recorded: it is no live stream, and a request or completion carries an identity. */
  predicate Recordable(f: TurnFact) {
    !f.StreamFact? && (IsExecution(f) ==> HasIdentity(CallIdOf(f)))
  }

  lemma {:induction false} NoErrorExactly(facts: seq<TurnFact>)
    ensures FirstError(facts).None? <==> forall i | 0 <= i < |facts| :: Recordable(facts[i])
  {
    if facts != [] {
      NoErrorExactly(Front(facts));
      assert facts == Front(facts) + [Last(facts)];
    }
  }

  /** The error is that of the first fact that may not be recorded. */
  lemma {:induction false} FirstErrorExactly(facts: seq<TurnFact>) returns (k: nat)
    requires FirstError(facts).Some?
    ensures k < |facts| && !Recordable(facts[k]) && forall i | 0 <= i < k :: Recordable(facts[i])
    ensures FirstError(facts) == Some(if facts[k].StreamFact? then LiveOnlyFact else NoCallIdentity)
  {
    if FirstError(Front(facts)).Some? {
      k := FirstErrorExactly(Front(facts));
    } else {
      k := |facts| - 1;
      NoErrorExactly(Front(facts));
    }
  }

  /** A batch is recorded as a whole if and only if every fact of it may be; keys come one a fact or not at all. */
  lemma AppendAccepts(st: Store, facts: seq<TurnFact>, keys: seq<Option<string>>)
    ensures Append(st, facts, keys).Ok? <==>
            (keys == [] || |keys| == |facts|) && forall i | 0 <= i < |facts| :: Recordable(facts[i])
  {
    NoErrorExactly(facts);
  }

  /** The facts from the root down to an entry. */
  ghost function FactsUpTo(st: Store, sequence: int): seq<TurnFact>
    requires ValidStore(st) && sequence in st.entries
  {
    FactsOf(Lineage(st.entries, At(sequence)))
  }

  /**
   A checkout is allowed exactly at an entry at which every request of its lineage is answered, one identity
   at a time; it moves the leaf there and changes nothing else.
   */
  lemma CheckoutExactly(st: Store, sequence: int)
    requires ValidStore(st)
    ensures Checkout(st, sequence).Ok? <==> sequence in st.entries && WholeBlocks(FactsUpTo(st, sequence))
    ensures Checkout(st, sequence).Ok? ==> Checkout(st, sequence).value == st.(leaf := At(sequence))
  {
    if sequence in st.entries {
      PairingCharacterised(FactsUpTo(st, sequence));
    }
  }

  /** The entry a fork is taken at: the newest, if none is asked for or it is not there yet. */
  function ForkPoint(st: Store, sequence: Option<int>): int {
    if sequence.Some? && sequence.value <= st.maxSequence then sequence.value else st.maxSequence
  }

  /** A fork is allowed exactly at such an entry too; it holds the entries up to it, and its leaf is there. */
  lemma ForkExactly(st: Store, sequence: Option<int>)
    requires ValidStore(st)
    ensures var at := ForkPoint(st, sequence);
            && (Fork(st, sequence).Ok? <==>
                  (sequence.Some? ==> sequence.value >= 1) && at in st.entries && WholeBlocks(FactsUpTo(st, at)))
            && (Fork(st, sequence).Ok? ==>
                  var branch := Fork(st, sequence).value;
                  && branch.leaf == At(at) && branch.maxSequence == at && branch.dedupe == map[]
                  && (forall k :: k in branch.entries <==> 1 <= k <= at)
                  && (forall k | 1 <= k <= at :: k in st.entries && branch.entries[k] == st.entries[k]))
  {
    var at := ForkPoint(st, sequence);
    if at in st.entries {
      PairingCharacterised(FactsUpTo(st, at));
    }
  }

  // ---- Every run of store operations ----

  datatype StoreOp =
    | DoAppend(facts: seq<TurnFact>, keys: seq<Option<string>>)
    | DoCheckout(sequence: int)
    | DoFork(at: Option<int>)

  /** One operation; a raised one leaves the store alone, a fork continues on the branch. */
  function Perform(st: Store, op: StoreOp): Store
    requires ValidStore(st)
  {
    var r := match op
      case DoAppend(facts, keys) => Append(st, facts, keys)
      case DoCheckout(sequence) => Checkout(st, sequence)
      case DoFork(at) => Fork(st, at);
    if r.Ok? then r.value else st
  }

  lemma PerformKeeps(st: Store, op: StoreOp)
    requires ValidStore(st)
    ensures ValidStore(Perform(st, op))
    ensures !op.DoFork? ==> Extends(st.entries, Perform(st, op).entries)
  {
    match op
    case DoAppend(facts, keys) =>
      if Append(st, facts, keys).Ok? {
        AdmitAllKeeps(st, facts, KeysFor(facts, keys));
      }
    case DoCheckout(_) =>
    case DoFork(at) =>
      if Fork(st, at).Ok? {
        ForkKeeps(st, at);
      }
  }

  ghost predicate Run(trace: seq<Store>, ops: seq<StoreOp>) {
    && |trace| == |ops| + 1
    && ValidStore(trace[0])
    && forall i | 0 <= i < |ops| :: ValidStore(trace[i]) ==> trace[i + 1] == Perform(trace[i], ops[i])
  }

  /** The tree invariant holds at every point of every run. */
  lemma {:induction false} RunKeepsTree(trace: seq<Store>, ops: seq<StoreOp>, i: nat)
    requires Run(trace, ops) && i < |trace|
    ensures ValidStore(trace[i])
  {
    if i > 0 {
      RunKeepsTree(trace, ops, i - 1);
      PerformKeeps(trace[i - 1], ops[i - 1]);
    }
  }

  /** Between forks nothing recorded is ever lost or changed, so every old lineage can still be read. */
  lemma {:induction false} RunKeepsLineages(trace: seq<Store>, ops: seq<StoreOp>, i: nat, j: nat, leaf: Leaf)
    requires Run(trace, ops) && i <= j < |trace|
    requires forall k | i <= k < j :: !ops[k].DoFork?
    ensures ValidStore(trace[i]) && ValidStore(trace[j]) && Extends(trace[i].entries, trace[j].entries)
    ensures Known(trace[i].entries, leaf) ==>
              Known(trace[j].entries, leaf) && Lineage(trace[j].entries, leaf) == Lineage(trace[i].entries, leaf)
    decreases j - i
  {
    RunKeepsTree(trace, ops, i);
    RunKeepsTree(trace, ops, j);
    if i < j {
      RunKeepsLineages(trace, ops, i, j - 1, leaf);
      PerformKeeps(trace[j - 1], ops[j - 1]);
    }
    if Known(trace[i].entries, leaf) {
      LineageStable(trace[i].entries, trace[j].entries, leaf);
    }
  }

  /** Whatever the store went through: right after a checkout or a fork no request of the lineage is open. */
  lemma RunMovesBetweenBlocks(trace: seq<Store>, ops: seq<StoreOp>, i: nat)
    requires Run(trace, ops) && i < |ops|
    ensures ValidStore(trace[i]) && ValidStore(trace[i + 1])
    ensures ops[i].DoCheckout? && Checkout(trace[i], ops[i].sequence).Ok? ==> WholeBlocks(CurrentFacts(trace[i + 1]))
    ensures ops[i].DoFork? && Fork(trace[i], ops[i].at).Ok? ==> WholeBlocks(CurrentFacts(trace[i + 1]))
  {
    RunKeepsTree(trace, ops, i);
    RunKeepsTree(trace, ops, i + 1);
    match ops[i]
    case DoAppend(_, _) =>
    case DoCheckout(sequence) => CheckoutExactly(trace[i], sequence);
    case DoFork(at) =>
      if Fork(trace[i], at).Ok? {
        ForkKeeps(trace[i], at);
        PairingCharacterised(CurrentFacts(trace[i + 1]));
      }
  }

  // ---- Reading and recovering, for any lineage ----

  /** A page tells the leaf it was read from and how far the store has got. */
  lemma PageTells(st: Store, afterSequence: int, limit: int, leafSequence: Leaf)
    requires ValidStore(st) && ReadPage(st, afterSequence, limit, leafSequence).Ok?
    ensures var page := ReadPage(st, afterSequence, limit, leafSequence).value;
            && page.maxSequence == st.maxSequence
            && page.leaf == (if leafSequence.Root? then st.leaf else leafSequence)
            && |page.entries| <= limit
            && forall i | 0 <= i < |page.entries| :: page.entries[i] in Lineage(st.entries, page.leaf) && page.entries[i].sequence > afterSequence
  {
    var leaf := if leafSequence.Root? then st.leaf else leafSequence;
    AfterIsNewer(Lineage(st.entries, leaf), afterSequence);
  }

  lemma {:induction false} AfterIsNewer(path: seq<FactEntry>, cursor: int)
    ensures forall i | 0 <= i < |After(path, cursor)| :: After(path, cursor)[i] in path && After(path, cursor)[i].sequence > cursor
  {
    if path != [] {
      AfterIsNewer(Front(path), cursor);
      assert path == Front(path) + [Last(path)];
    }
  }

  /** The place of the latest completion. */
  ghost predicate LatestAt(facts: seq<TurnFact>, k: nat) {
    && k < |facts| && facts[k].ToolCompletedFact?
    && (forall i | k < i < |facts| :: !facts[i].ToolCompletedFact?)
  }

  lemma {:induction false} LatestIs(facts: seq<TurnFact>, k: nat)
    requires LatestAt(facts, k)
    ensures Completions(facts) != [] && Last(Completions(facts)) == Completion(facts[k].report, facts[k].batch)
    ensures AfterLastCompletion(facts) == facts[k + 1..]
  {
    if k < |facts| - 1 {
      var front := Front(facts);
      LatestIs(front, k);
      assert facts[k + 1..] == front[k + 1..] + [Last(facts)];
    }
  }

  lemma {:induction false} NoLatest(facts: seq<TurnFact>)
    requires forall i | 0 <= i < |facts| :: !facts[i].ToolCompletedFact?
    ensures Completions(facts) == []
  {
    if facts != [] {
      NoLatest(Front(facts));
    }
  }

  /** The trailing run is as long as the snapshot reaches back, and no longer. */
  lemma {:induction false} TrailingRunExactly(done: seq<Completion>, batch: Option<CallSeed>)
    ensures var n := |TrailingRun(done, batch)|;
            && (forall i | |done| - n <= i < |done| :: done[i].batch == batch && TrailingRun(done, batch)[i - (|done| - n)] == done[i].report)
            && (n < |done| ==> done[|done| - n - 1].batch != batch)
  {
    if done != [] && Last(done).batch == batch {
      TrailingRunExactly(Front(done), batch);
    }
  }

  /** Behind the latest completion either nothing is requested, or only calls still left, and the model was not asked. */
  ghost predicate TailFits(facts: seq<TurnFact>, k: nat, left: seq<ToolCall>)
    requires k < |facts|
  {
    || (forall i | k < i < |facts| :: !facts[i].ToolRequestedFact?)
    || (forall i | k < i < |facts| ::
          !facts[i].ModelTurnFact? && (facts[i].ToolRequestedFact? ==> facts[i].call.toolCallId in CallIds(left)))
  }

  /**
   For any log at all, however it came about: recovery succeeds exactly if the latest completion carries a
   clean snapshot with sound identities, the reports that carry the same one answer its first calls, and
   what follows fits; it then yields that snapshot with these reports. Without a completion it fails.
   */
  lemma RestoreReads(facts: seq<TurnFact>, k: nat)
    requires LatestAt(facts, k)
    ensures var snapshot := facts[k].batch;
            var reports := TrailingRun(Completions(facts), snapshot);
            && (Restore(facts).Ok? <==>
                  && snapshot.Some? && snapshot.value.completedReports == []
                  && SoundIdentities(snapshot.value.calls) && IsIdPrefix(reports, snapshot.value.calls)
                  && TailFits(facts, k, snapshot.value.calls[|reports|..]))
            && (Restore(facts).Ok? ==> Restore(facts).value == snapshot.value.(completedReports := reports))
  {
    LatestIs(facts, k);
    var tail := facts[k + 1..];
    assert forall i | k < i < |facts| :: tail[i - k - 1] == facts[i];
  }

  lemma RestoreNeedsCompletion(facts: seq<TurnFact>)
    requires forall i | 0 <= i < |facts| :: !facts[i].ToolCompletedFact?
    ensures Restore(facts) == Raise(NothingCompleted)
  {
    NoLatest(facts);
  }
}
