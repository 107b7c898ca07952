/**
 The rule that every recorded tool request is answered before a checkout or fork boundary, and
 what the one-pass scan that enforces it really accepts.
 */
module Pairing {
  import opened Basics
  import opened Turns

  datatype PairError = MissingIdentity | UnmatchedCompletion | SplitBoundary

  /** One step of the scan: `open` holds the requested and not yet completed identities. */
  function ScanStep(open: set<string>, f: TurnFact): Result<set<string>, PairError> {
    if !IsExecution(f) then Ok(open)
    else if !HasIdentity(CallIdOf(f)) then Raise(MissingIdentity)
    else if f.ToolRequestedFact? then Ok(open + {CallIdOf(f).value})
    else if CallIdOf(f).value !in open then Raise(UnmatchedCompletion)
    else Ok(open - {CallIdOf(f).value})
  }

  function ScanFrom(open: set<string>, facts: seq<TurnFact>): Result<set<string>, PairError> {
    if facts == [] then Ok(open)
    else
      var before := ScanFrom(open, Front(facts));
      if before.Raise? then before else ScanStep(before.value, Last(facts))
  }

  function Scan(facts: seq<TurnFact>): Result<set<string>, PairError> {
    ScanFrom({}, facts)
  }

  /** The verdict of `require_complete_tool_pairs`. */
  function CheckPairs(facts: seq<TurnFact>): Result<(), PairError> {
    var scan := Scan(facts);
    if scan.Raise? then Raise(scan.error)
    else if scan.value != {} then Raise(SplitBoundary)
    else Ok(())
  }

  method RequireCompleteToolPairs(facts: seq<TurnFact>) returns (verdict: Result<(), PairError>)
    ensures verdict == CheckPairs(facts)
  {
    var pending: set<string> := {};
    for i := 0 to |facts|
      invariant Scan(facts[..i]) == Ok(pending)
    {
      var f := facts[i];
      assert facts[..i + 1] == facts[..i] + [f];
      if IsExecution(f) {
        if !HasIdentity(CallIdOf(f)) {
          ScanPrefixRaises(facts, i + 1);
          return Raise(MissingIdentity);
        }
        var callId := CallIdOf(f).value;
        if f.ToolRequestedFact? {
          pending := pending + {callId};
        } else if callId !in pending {
          ScanPrefixRaises(facts, i + 1);
          return Raise(UnmatchedCompletion);
        } else {
          pending := pending - {callId};
        }
      }
    }
    assert facts[..|facts|] == facts;
    return if pending != {} then Raise(SplitBoundary) else Ok(());
  }

  /** Scanning a concatenation is scanning its second half from where the first ended. */
  lemma {:induction false} ScanConcat(open: set<string>, a: seq<TurnFact>, b: seq<TurnFact>)
    ensures ScanFrom(open, a + b) ==
            if ScanFrom(open, a).Raise? then ScanFrom(open, a) else ScanFrom(ScanFrom(open, a).value, b)
  {
    if b == [] {
      assert a + b == a;
    } else {
      assert Front(a + b) == a + Front(b);
      ScanConcat(open, a, Front(b));
    }
  }

  lemma ScanPrefixRaises(facts: seq<TurnFact>, i: nat)
    requires i <= |facts| && Scan(facts[..i]).Raise?
    ensures Scan(facts) == Scan(facts[..i])
  {
    assert facts == facts[..i] + facts[i..];
    ScanConcat({}, facts[..i], facts[i..]);
  }

  /** After an accepted prefix, the whole is accepted exactly when the rest is. */
  lemma AcceptedPrefixIsTransparent(a: seq<TurnFact>, b: seq<TurnFact>)
    requires CheckPairs(a).Ok?
    ensures CheckPairs(a + b) == CheckPairs(b)
  {
    ScanConcat({}, a, b);
  }

  // ---- An independent reading of the rule, one call identity at a time ----

  /** The facts about one identity: true for a request, false for a completion. */
  function Projection(facts: seq<TurnFact>, id: string): (p: seq<bool>) {
    if facts == [] then []
    else if IsExecution(Last(facts)) && CallIdOf(Last(facts)) == Some(id) then
      Projection(Front(facts), id) + [Last(facts).ToolRequestedFact?]
    else Projection(Front(facts), id)
  }

  function Repeat(n: nat): (p: seq<bool>)
    ensures |p| == n && forall i | 0 <= i < n :: p[i]
  {
    seq(n, _ => true)
  }

  /** One block per number: that many requests, then one completion. */
  function Blocks(sizes: seq<nat>): (p: seq<bool>) {
    if sizes == [] then [] else Blocks(Front(sizes)) + Repeat(Last(sizes)) + [false]
  }

  ghost predicate IsBlocks(p: seq<bool>, sizes: seq<nat>, rest: nat) {
    (forall i | 0 <= i < |sizes| :: sizes[i] >= 1) && p == Blocks(sizes) + Repeat(rest)
  }

  /** Blocks of one or more requests answered by one completion, then `rest` unanswered requests. */
  ghost predicate BlocksThen(p: seq<bool>, rest: nat) {
    exists sizes: seq<nat> :: IsBlocks(p, sizes, rest)
  }

  ghost predicate SomeBlocks(p: seq<bool>) {
    exists n: nat :: BlocksThen(p, n)
  }

  ghost predicate OpenBlocks(p: seq<bool>) {
    exists n: nat | n > 0 :: BlocksThen(p, n)
  }

  ghost predicate AllIdentified(facts: seq<TurnFact>) {
    forall i | 0 <= i < |facts| :: IsExecution(facts[i]) ==> HasIdentity(CallIdOf(facts[i]))
  }

  /** `open` is exactly the set of identities with an unanswered request, and nothing is malformed. */
  ghost predicate Shaped(facts: seq<TurnFact>, open: set<string>) {
    && AllIdentified(facts)
    && forall id: string ::
         && (id !in open ==> BlocksThen(Projection(facts, id), 0))
         && (id in open ==> OpenBlocks(Projection(facts, id)))
  }

  lemma BlocksEnd(sizes: seq<nat>, rest: nat)
    ensures rest == 0 ==> Blocks(sizes) + Repeat(rest) == Blocks(sizes)
    ensures rest == 0 && sizes != [] ==> Last(Blocks(sizes) + Repeat(rest)) == false
    ensures rest > 0 ==> Last(Blocks(sizes) + Repeat(rest)) == true
  {
  }

  lemma AppendRequest(p: seq<bool>, n: nat)
    requires BlocksThen(p, n)
    ensures BlocksThen(p + [true], n + 1)
  {
    var sizes: seq<nat> :| IsBlocks(p, sizes, n);
    assert p + [true] == Blocks(sizes) + Repeat(n + 1);
    assert IsBlocks(p + [true], sizes, n + 1);
  }

  lemma AppendCompletion(p: seq<bool>, n: nat)
    requires n > 0 && BlocksThen(p, n)
    ensures BlocksThen(p + [false], 0)
  {
    var sizes: seq<nat> :| IsBlocks(p, sizes, n);
    assert Front(sizes + [n]) == sizes;
    assert p + [false] == Blocks(sizes + [n]) + Repeat(0);
    assert IsBlocks(p + [false], sizes + [n], 0);
  }

  /** A projection decomposes in one way only, seen from its last element. */
  lemma BlocksDeterminate(p: seq<bool>, b: bool, n: nat)
    requires BlocksThen(p + [b], n)
    ensures b ==> n > 0 && BlocksThen(p, n - 1)
    ensures !b ==> n == 0 && exists m: nat | m > 0 :: BlocksThen(p, m)
  {
    var sizes: seq<nat> :| IsBlocks(p + [b], sizes, n);
    BlocksEnd(sizes, n);
    if n > 0 {
      assert p == Front(p + [b]) == Blocks(sizes) + Repeat(n - 1);
      assert IsBlocks(p, sizes, n - 1);
    } else {
      assert Blocks(sizes) == p + [b];
      assert sizes != [];
      assert p == Front(p + [b]) == Blocks(Front(sizes)) + Repeat(Last(sizes));
      assert IsBlocks(p, Front(sizes), Last(sizes));
      assert BlocksThen(p, Last(sizes));
    }
  }

  /** A projection cannot both be complete and have unanswered requests. */
  lemma {:induction false} BlocksExclusive(p: seq<bool>, m: nat, n: nat)
    requires BlocksThen(p, m) && BlocksThen(p, n)
    ensures m == n
    decreases |p|
  {
    if p == [] {
      var a: seq<nat> :| IsBlocks(p, a, m);
      var b: seq<nat> :| IsBlocks(p, b, n);
    } else {
      assert p == Front(p) + [Last(p)];
      BlocksDeterminate(Front(p), Last(p), m);
      BlocksDeterminate(Front(p), Last(p), n);
      if Last(p) {
        BlocksExclusive(Front(p), m - 1, n - 1);
      }
    }
  }

  /** The open set reached by the scan describes every projection. */
  lemma {:induction false} ScanImpliesShape(facts: seq<TurnFact>)
    requires Scan(facts).Ok?
    ensures Shaped(facts, Scan(facts).value)
  {
    if facts == [] {
      assert IsBlocks([], [], 0);
      assert BlocksThen([], 0);
      assert forall id: string :: Projection(facts, id) == [];
    } else {
      var f := Last(facts);
      ScanImpliesShape(Front(facts));
      var open := Scan(Front(facts)).value;
      forall id: string
        ensures id !in Scan(facts).value ==> BlocksThen(Projection(facts, id), 0)
        ensures id in Scan(facts).value ==> OpenBlocks(Projection(facts, id))
      {
        ShapeStep(facts, open, id);
      }
    }
  }

  lemma ShapeStep(facts: seq<TurnFact>, open: set<string>, id: string)
    requires facts != [] && Shaped(Front(facts), open) && ScanStep(open, Last(facts)).Ok?
    ensures id !in ScanStep(open, Last(facts)).value ==> BlocksThen(Projection(facts, id), 0)
    ensures id in ScanStep(open, Last(facts)).value ==> OpenBlocks(Projection(facts, id))
  {
    var f := Last(facts);
    var p := Projection(Front(facts), id);
    if IsExecution(f) && CallIdOf(f) == Some(id) {
      var n: nat :| BlocksThen(p, n) && (n > 0 <==> id in open);
      if f.ToolRequestedFact? {
        AppendRequest(p, n);
        assert BlocksThen(Projection(facts, id), n + 1);
      } else {
        AppendCompletion(p, n);
      }
    } else {
      assert Projection(facts, id) == p;
    }
  }

  /** A shape determines the scan: the converse of `ScanImpliesShape`. */
  lemma {:induction false} ShapeImpliesScan(facts: seq<TurnFact>)
    requires AllIdentified(facts)
    requires forall id: string :: SomeBlocks(Projection(facts, id))
    ensures Scan(facts).Ok?
  {
    if facts != [] {
      var f := Last(facts);
      forall id: string
        ensures SomeBlocks(Projection(Front(facts), id))
      {
        var n: nat :| BlocksThen(Projection(facts, id), n);
        if IsExecution(f) && CallIdOf(f) == Some(id) {
          BlocksDeterminate(Projection(Front(facts), id), f.ToolRequestedFact?, n);
          if f.ToolRequestedFact? {
            assert BlocksThen(Projection(Front(facts), id), n - 1);
          }
        } else {
          assert BlocksThen(Projection(Front(facts), id), n);
        }
      }
      ShapeImpliesScan(Front(facts));
      ScanImpliesShape(Front(facts));
      if f.ToolCompletedFact? {
        var id := f.report.toolCallId;
        var p := Projection(Front(facts), id);
        var n: nat :| BlocksThen(Projection(facts, id), n);
        BlocksDeterminate(p, false, n);
        var m: nat :| m > 0 && BlocksThen(p, m);
        if id !in Scan(Front(facts)).value {
          BlocksExclusive(p, m, 0);
        }
      }
    }
  }

  /** The shape determines the open set: the two describe the same thing. */
  lemma ShapeDeterminesScan(facts: seq<TurnFact>, open: set<string>)
    requires Shaped(facts, open)
    ensures Scan(facts) == Ok(open)
  {
    forall id: string ensures SomeBlocks(Projection(facts, id)) {
      if id in open {
        var n: nat :| n > 0 && BlocksThen(Projection(facts, id), n);
      } else {
        assert BlocksThen(Projection(facts, id), 0);
      }
    }
    ShapeImpliesScan(facts);
    ScanImpliesShape(facts);
    var reached := Scan(facts).value;
    forall id: string ensures id in reached <==> id in open {
      if (id in reached) != (id in open) {
        var n: nat :| n > 0 && BlocksThen(Projection(facts, id), n);
        BlocksExclusive(Projection(facts, id), n, 0);
      }
    }
    assert reached == open;
  }

  ghost predicate WholeBlocks(facts: seq<TurnFact>) {
    AllIdentified(facts) && forall id: string :: BlocksThen(Projection(facts, id), 0)
  }

  lemma AcceptedIsWhole(facts: seq<TurnFact>)
    requires CheckPairs(facts).Ok?
    ensures WholeBlocks(facts)
  {
    ScanImpliesShape(facts);
    forall id: string
      ensures BlocksThen(Projection(facts, id), 0)
    {
      assert id !in Scan(facts).value;
    }
  }

  lemma WholeIsAccepted(facts: seq<TurnFact>)
    requires WholeBlocks(facts)
    ensures CheckPairs(facts).Ok?
  {
    forall id: string
      ensures SomeBlocks(Projection(facts, id))
    {
      assert BlocksThen(Projection(facts, id), 0);
    }
    ShapeImpliesScan(facts);
    ScanImpliesShape(facts);
    forall id: string | id in Scan(facts).value
      ensures false
    {
      var n: nat :| n > 0 && BlocksThen(Projection(facts, id), n);
      BlocksExclusive(Projection(facts, id), n, 0);
    }
    assert Scan(facts).value == {};
  }

  /**
   The one-pass set scan accepts a lineage if and only if every execution fact carries an identity
   and, for each identity on its own, the facts form blocks of one or more requests and one completion.
   */
  lemma PairingCharacterised(facts: seq<TurnFact>)
    ensures CheckPairs(facts).Ok? <==> WholeBlocks(facts)
  {
    if CheckPairs(facts).Ok? {
      AcceptedIsWhole(facts);
    } else if WholeBlocks(facts) {
      WholeIsAccepted(facts);
    }
  }
}
