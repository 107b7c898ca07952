/** The list of events a client shows while live output is streaming, retried and pushed again. */
module LiveStream {
  import opened Basics

  /** Live kinds are never persisted; a restart may discard the live output before it. */
  datatype FrameKind = Live(name: string) | Retry | Fallback | Persisted(name: string)

  datatype Frame = Frame(sessionId: string, sequence: int, kind: FrameKind, discards: bool, payload: string)

  predicate IsLive(f: Frame) {
    f.kind.Live?
  }

  predicate Restarts(f: Frame) {
    (f.kind.Retry? || f.kind.Fallback?) && f.discards
  }

  /** The list without the live frames at its end. */
  function Settled(frames: seq<Frame>): (kept: seq<Frame>)
    ensures kept <= frames
    ensures kept != [] ==> !IsLive(Last(kept))
    ensures forall i | |kept| <= i < |frames| :: IsLive(frames[i])
  {
    if frames != [] && IsLive(Last(frames)) then Settled(Front(frames)) else frames
  }

  function ApplyFrame(frames: seq<Frame>, f: Frame): seq<Frame> {
    if Restarts(f) then Settled(frames) + [f] else frames + [f]
  }

  method ApplyLiveStreamEvent(frames: seq<Frame>, f: Frame) returns (r: seq<Frame>)
    ensures r == ApplyFrame(frames, f)
  {
    if !Restarts(f) {
      return frames + [f];
    }
    var end := |frames|;
    while end > 0 && IsLive(frames[end - 1])
      invariant 0 <= end <= |frames|
      invariant Settled(frames[..end]) == Settled(frames)
    {
      assert Front(frames[..end]) == frames[..end - 1];
      end := end - 1;
    }
    return frames[..end] + [f];
  }

  function ApplyAll(frames: seq<Frame>, stream: seq<Frame>): seq<Frame> {
    if stream == [] then frames else ApplyFrame(ApplyAll(frames, Front(stream)), Last(stream))
  }

  // ---- The one-shot filter ----

  /** The next frame that is not live, at or after position i; None when the stream ends first. */
  function NextSettled(stream: seq<Frame>, i: nat): Option<Frame>
    requires i <= |stream|
    decreases |stream| - i
  {
    if i == |stream| then None
    else if !IsLive(stream[i]) then Some(stream[i])
    else NextSettled(stream, i + 1)
  }

  /** A live frame is dropped exactly if the next settled frame is a discarding restart. */
  predicate Survives(stream: seq<Frame>, i: nat)
    requires i < |stream|
  {
    IsLive(stream[i]) ==> var next := NextSettled(stream, i); next.None? || !Restarts(next.value)
  }

  function Survivors(stream: seq<Frame>, n: nat): seq<Frame>
    requires n <= |stream|
  {
    if n == 0 then [] else Survivors(stream, n - 1) + (if Survives(stream, n - 1) then [stream[n - 1]] else [])
  }

  /** Where the live frames at the end begin. */
  function TailStart(stream: seq<Frame>): (n: nat)
    ensures n <= |stream|
    ensures n > 0 ==> !IsLive(stream[n - 1])
    ensures forall i | n <= i < |stream| :: IsLive(stream[i])
  {
    |Settled(stream)|
  }

  lemma {:induction false} NextSnoc(stream: seq<Frame>, f: Frame, i: nat)
    requires i <= |stream|
    ensures NextSettled(stream + [f], i) ==
            if NextSettled(stream, i).Some? then NextSettled(stream, i) else if IsLive(f) then None else Some(f)
    decreases |stream| - i
  {
    if i < |stream| {
      NextSnoc(stream, f, i + 1);
    } else if IsLive(f) {
      assert NextSettled(stream + [f], i + 1) == None;
    }
  }

  lemma {:induction false} NoneInTail(stream: seq<Frame>, i: nat)
    requires i <= |stream|
    ensures NextSettled(stream, i).None? <==> TailStart(stream) <= i
    decreases |stream| - i
  {
    if i < |stream| {
      NoneInTail(stream, i + 1);
    }
  }

  /** Before the tail, later frames change nothing; in the tail all live frames stand or fall together. */
  lemma SurvivesSnoc(stream: seq<Frame>, f: Frame, i: nat)
    requires i < |stream|
    ensures i < TailStart(stream) ==> (Survives(stream + [f], i) <==> Survives(stream, i))
    ensures i >= TailStart(stream) ==> Survives(stream, i) && (Survives(stream + [f], i) <==> !Restarts(f))
  {
    NextSnoc(stream, f, i);
    NoneInTail(stream, i);
  }

  lemma {:induction false} SurvivorsSnoc(stream: seq<Frame>, f: Frame, n: nat)
    requires n <= |stream|
    ensures n <= TailStart(stream) || !Restarts(f) ==> Survivors(stream + [f], n) == Survivors(stream, n)
    ensures n > TailStart(stream) && Restarts(f) ==> Survivors(stream + [f], n) == Survivors(stream, TailStart(stream))
  {
    if n > 0 {
      SurvivorsSnoc(stream, f, n - 1);
      SurvivesSnoc(stream, f, n - 1);
    }
  }

  lemma {:induction false} SettledSurvivors(stream: seq<Frame>, n: nat)
    requires TailStart(stream) <= n <= |stream|
    ensures Settled(Survivors(stream, n)) == Survivors(stream, TailStart(stream))
    ensures Settled(Survivors(stream, n)) <= Survivors(stream, n)
  {
    if n > TailStart(stream) {
      NoneInTail(stream, n - 1);
      assert Front(Survivors(stream, n)) == Survivors(stream, n - 1);
      SettledSurvivors(stream, n - 1);
    } else if n > 0 {
      assert Last(Survivors(stream, n)) == stream[n - 1];
    }
  }

  /** Folding the stream frame by frame gives what the one-shot filter keeps. */
  lemma {:induction false} FoldIsFilter(stream: seq<Frame>)
    ensures ApplyAll([], stream) == Survivors(stream, |stream|)
  {
    if stream != [] {
      var front, f := Front(stream), Last(stream);
      assert front + [f] == stream;
      FoldIsFilter(front);
      SurvivorsSnoc(front, f, |front|);
      assert Survives(stream, |front|) by {
        if IsLive(f) {
          assert NextSettled(stream, |stream|) == None;
        }
      }
      SettledSurvivors(front, |front|);
    }
  }

  // ---- Frames pushed again ----

  /** Is a frame already in the list? A live one has no identity of its own and is judged on its payload. */
  predicate Delivered(frames: seq<Frame>, f: Frame) {
    exists i | 0 <= i < |frames| :: SameFrame(frames[i], f)
  }

  predicate SameFrame(existing: Frame, f: Frame) {
    existing.sessionId == f.sessionId && existing.sequence == f.sequence && (IsLive(f) ==> existing.payload == f.payload)
  }

  function MergeFrame(frames: seq<Frame>, f: Frame): seq<Frame> {
    if Delivered(frames, f) then frames else ApplyFrame(frames, f)
  }

  function MergeAll(frames: seq<Frame>, pushed: seq<Frame>): seq<Frame> {
    if pushed == [] then frames else MergeFrame(MergeAll(frames, Front(pushed)), Last(pushed))
  }

  ghost predicate NoneLive(pushed: seq<Frame>) {
    forall i | 0 <= i < |pushed| :: !IsLive(pushed[i])
  }

  lemma {:induction false} MergeConcat(frames: seq<Frame>, first: seq<Frame>, second: seq<Frame>)
    ensures MergeAll(frames, first + second) == MergeAll(MergeAll(frames, first), second)
  {
    if second == [] {
      assert first + second == first;
    } else {
      assert Front(first + second) == first + Front(second);
      MergeConcat(frames, first, Front(second));
    }
  }

  lemma {:induction false} DeliveredMergeNothing(frames: seq<Frame>, pushed: seq<Frame>)
    requires forall i | 0 <= i < |pushed| :: Delivered(frames, pushed[i])
    ensures MergeAll(frames, pushed) == frames
  {
    if pushed != [] {
      assert forall i | 0 <= i < |Front(pushed)| :: Front(pushed)[i] == pushed[i];
      DeliveredMergeNothing(frames, Front(pushed));
    }
  }

  lemma DeliveredSnoc(frames: seq<Frame>, g: Frame, f: Frame)
    ensures Delivered(frames + [g], f) <==> Delivered(frames, f) || SameFrame(g, f)
  {
    if Delivered(frames, f) {
      var i :| 0 <= i < |frames| && SameFrame(frames[i], f);
      assert (frames + [g])[i] == frames[i];
    }
    if SameFrame(g, f) {
      assert (frames + [g])[|frames|] == g;
    }
  }

  /** Behind a settled frame nothing is dropped any more: merging only appends what is new. */
  lemma {:induction false} MergeBehindSettled(frames: seq<Frame>, pushed: seq<Frame>, f: Frame)
    requires frames != [] && !IsLive(Last(frames)) && NoneLive(pushed) && !IsLive(f)
    ensures var merged := MergeAll(frames, pushed);
            && frames <= merged && !IsLive(Last(merged))
            && (Delivered(merged, f) <==> Delivered(frames, f) || Delivered(pushed, f))
  {
    if pushed != [] {
      var before, last := MergeAll(frames, Front(pushed)), Last(pushed);
      MergeBehindSettled(frames, Front(pushed), f);
      MergeBehindSettled(frames, Front(pushed), last);
      assert pushed == Front(pushed) + [last];
      DeliveredSnoc(Front(pushed), last, f);
      DeliveredSnoc(before, last, f);
      assert Settled(before) == before;
      if Delivered(before, last) && SameFrame(last, f) {
        SameAsDelivered(before, last, f);
      }
    }
  }

  lemma SameAsDelivered(frames: seq<Frame>, g: Frame, f: Frame)
    requires Delivered(frames, g) && SameFrame(g, f) && !IsLive(g) && !IsLive(f)
    ensures Delivered(frames, f)
  {
    var i :| 0 <= i < |frames| && SameFrame(frames[i], g);
    assert SameFrame(frames[i], f);
  }

  /** The first of some frames that a list does not have yet; their number if it has them all. */
  function FirstNew(frames: seq<Frame>, pushed: seq<Frame>): (k: nat)
    ensures k <= |pushed|
    ensures forall i | 0 <= i < k :: Delivered(frames, pushed[i])
    ensures k < |pushed| ==> !Delivered(frames, pushed[k])
  {
    if pushed == [] then 0
    else if FirstNew(frames, Front(pushed)) < |pushed| - 1 then FirstNew(frames, Front(pushed))
    else if Delivered(frames, Last(pushed)) then |pushed| else |pushed| - 1
  }

  /** The list up to its last settled frame. */
  function Sealed(frames: seq<Frame>): seq<Frame> {
    frames[..TailStart(frames)]
  }

  /**
   The one way to lose a persisted frame: the first new frame is a discarding restart, and an earlier
   one was taken for delivered only because a live frame at the end carries the same sequence; it is
   not pushed once more behind the restart.
   */
  ghost predicate Loses(frames: seq<Frame>, pushed: seq<Frame>, j: nat) {
    var k := FirstNew(frames, pushed);
    && k < |pushed| && Restarts(pushed[k])
    && j < k && !Delivered(Sealed(frames), pushed[j])
    && !Delivered(pushed[k + 1..], pushed[j])
  }

  lemma SettledIsSealed(frames: seq<Frame>)
    ensures Settled(frames) == Sealed(frames)
  {
  }

  lemma {:induction false} MergeUpTo(frames: seq<Frame>, pushed: seq<Frame>)
    requires NoneLive(pushed)
    ensures var k := FirstNew(frames, pushed);
            MergeAll(frames, pushed) ==
            if k == |pushed| then frames else MergeAll(ApplyFrame(frames, pushed[k]), pushed[k + 1..])
  {
    var k := FirstNew(frames, pushed);
    DeliveredMergeNothing(frames, pushed[..k]);
    if k < |pushed| {
      assert pushed == pushed[..k] + ([pushed[k]] + pushed[k + 1..]);
      MergeConcat(frames, pushed[..k], [pushed[k]] + pushed[k + 1..]);
      MergeConcat(frames, [pushed[k]], pushed[k + 1..]);
      assert Front([pushed[k]]) == [];
      assert MergeAll(frames, [pushed[k]]) == MergeFrame(frames, pushed[k]);
    } else {
      assert pushed[..k] == pushed;
    }
  }

  lemma OtherKey(frames: seq<Frame>, f: Frame, g: Frame)
    requires Delivered(frames, f) && !Delivered(frames, g) && !IsLive(f) && !IsLive(g)
    ensures !SameFrame(g, f)
  {
    var i :| 0 <= i < |frames| && SameFrame(frames[i], f);
    assert !SameFrame(frames[i], g);
  }

  /** After one pass, exactly the lost frames are missing. */
  lemma MissingAreLost(frames: seq<Frame>, pushed: seq<Frame>, j: nat)
    requires NoneLive(pushed) && j < |pushed|
    ensures Delivered(MergeAll(frames, pushed), pushed[j]) <==> !Loses(frames, pushed, j)
  {
    var k, f := FirstNew(frames, pushed), pushed[j];
    MergeUpTo(frames, pushed);
    SettledIsSealed(frames);
    if k < |pushed| {
      var base := if Restarts(pushed[k]) then Sealed(frames) else frames;
      var rest := pushed[k + 1..];
      assert ApplyFrame(frames, pushed[k]) == base + [pushed[k]];
      MergeBehindSettled(base + [pushed[k]], rest, f);
      DeliveredSnoc(base, pushed[k], f);
      if j > k {
        assert rest[j - k - 1] == f && SameFrame(f, f);
        assert Delivered(rest, f);
      } else if j < k {
        OtherKey(frames, f, pushed[k]);
      }
    }
  }

  lemma {:induction false} MissingShows(frames: seq<Frame>, pushed: seq<Frame>, j: nat)
    requires NoneLive(pushed) && j < |pushed| && !Delivered(frames, pushed[j])
    ensures MergeAll(frames, pushed) != frames
  {
    var k := FirstNew(frames, pushed);
    MergeUpTo(frames, pushed);
    SettledIsSealed(frames);
    var f := pushed[k];
    var next := ApplyFrame(frames, f);
    MergeBehindSettled(next, pushed[k + 1..], f);
    DeliveredSnoc(if Restarts(f) then Sealed(frames) else frames, f, f);
  }

  /** Merging the same persisted frames twice equals merging them once exactly if none is lost. */
  lemma MergeTwiceExactly(frames: seq<Frame>, pushed: seq<Frame>)
    requires NoneLive(pushed)
    ensures MergeAll(MergeAll(frames, pushed), pushed) == MergeAll(frames, pushed) <==>
            forall j: nat | j < |pushed| :: !Loses(frames, pushed, j)
  {
    var once := MergeAll(frames, pushed);
    forall j: nat | j < |pushed| ensures Delivered(once, pushed[j]) <==> !Loses(frames, pushed, j) {
      MissingAreLost(frames, pushed, j);
    }
    if j: nat :| j < |pushed| && Loses(frames, pushed, j) {
      MissingShows(once, pushed, j);
    } else {
      DeliveredMergeNothing(once, pushed);
    }
  }

  /** In particular when no live frame at the end of the list shares a sequence with a pushed frame. */
  lemma MergeTwiceApart(frames: seq<Frame>, pushed: seq<Frame>)
    requires NoneLive(pushed)
    requires forall i, j | TailStart(frames) <= i < |frames| && 0 <= j < |pushed| ::
               frames[i].sessionId != pushed[j].sessionId || frames[i].sequence != pushed[j].sequence
    ensures MergeAll(MergeAll(frames, pushed), pushed) == MergeAll(frames, pushed)
  {
    MergeTwiceExactly(frames, pushed);
    forall j: nat | j < |pushed| ensures !Loses(frames, pushed, j) {
      if j < FirstNew(frames, pushed) {
        var i :| 0 <= i < |frames| && SameFrame(frames[i], pushed[j]);
        assert Sealed(frames)[i] == frames[i];
      }
    }
  }

  /** It does happen: a live frame carries the cursor of a persisted one, and a retry discards it. */
  lemma MergeTwiceCanDiffer()
    ensures var live := Frame("s", 7, Live("graph.provider_stream"), false, "");
            var stored := Frame("s", 7, Persisted("graph.model_turn"), false, "");
            var retry := Frame("s", 8, Retry, true, "");
            var once := MergeAll([live], [stored, retry]);
            once == [retry] && MergeAll(once, [stored, retry]) == [retry, stored]
  {
    var live := Frame("s", 7, Live("graph.provider_stream"), false, "");
    var stored := Frame("s", 7, Persisted("graph.model_turn"), false, "");
    var retry := Frame("s", 8, Retry, true, "");
    var pushed := [stored, retry];
    assert Front(pushed) == [stored] && Front([stored]) == [];
    assert SameFrame([live][0], stored) && Delivered([live], stored);
    assert Front([live]) == [];
    assert MergeAll([live], [stored]) == [live];
    assert MergeAll([live], pushed) == [retry];
    assert MergeAll([retry], [stored]) == [retry, stored];
    assert SameFrame([retry, stored][0], retry);
  }

  // ---- One frame, spelled out ----

  /** A frame goes behind the others; a retry or a fallback that discards first takes away the live frames at the end. */
  lemma ApplyExactly(frames: seq<Frame>, f: Frame) returns (n: nat)
    ensures n <= |frames| && (forall i | n <= i < |frames| :: frames[i].kind.Live?) && (n > 0 ==> !frames[n - 1].kind.Live?)
    ensures ApplyFrame(frames, f) ==
            if (f.kind == Retry || f.kind == Fallback) && f.discards then frames[..n] + [f] else frames + [f]
  {
    n := |Settled(frames)|;
  }

  /** A pushed frame is left out exactly if one of its session and sequence is there; a live one must have the same payload too. */
  lemma MergeExactly(frames: seq<Frame>, f: Frame)
    ensures (exists i :: 0 <= i < |frames| && frames[i].sessionId == f.sessionId && frames[i].sequence == f.sequence
                         && (f.kind.Live? ==> frames[i].payload == f.payload))
            <==> MergeFrame(frames, f) == frames
    ensures MergeFrame(frames, f) != frames ==> MergeFrame(frames, f) == ApplyFrame(frames, f)
  {
    if Delivered(frames, f) {
      var i :| 0 <= i < |frames| && SameFrame(frames[i], f);
    } else {
      AppliedIsNew(frames, f);
      assert forall i | 0 <= i < |frames| :: !SameFrame(frames[i], f);
    }
  }

  lemma AppliedIsNew(frames: seq<Frame>, f: Frame)
    requires !Delivered(frames, f)
    ensures ApplyFrame(frames, f) != frames
  {
    assert SameFrame(Last(ApplyFrame(frames, f)), f);
    if frames != [] {
      assert !SameFrame(frames[|frames| - 1], f);
    }
  }
}
