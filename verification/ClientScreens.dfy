/** What the client's screen shows once its requests are answered: the replies' own sessions, frames and outputs. */
module ClientScreens {
  import opened Basics
  import opened LiveStream
  import opened ClientStore

  // ---- A selection that loads ----

  /** Action k loads the session it was started for, and every other action is stale. */
  ghost predicate Loads(c: Client, k: nat, id: string) {
    && TokensOk(c) && k < |c.actions| && c.actions[k].token == c.store.token && id != ""
    && ((c.actions[k].wait.ChildProbe? && c.actions[k].wait.target == id) || (c.actions[k].wait.Replaying? && c.actions[k].wait.target == id))
    && c.store.view.id == Some(id) && c.store.replay.Loading? && !Locked(c.store.run)
    && (forall j | 0 <= j < |c.actions| && j != k :: Stale(c, j))
  }

  lemma SelectionLoads(c: Client, id: string, knownMain: bool)
    requires TokensOk(c) && Supersedes(c, Select(id, knownMain))
    ensures Loads(Next(c, Select(id, knownMain)), |c.actions|, id)
    ensures Next(c, Select(id, knownMain)).store ==
            c.store.(view := View(Some(id), None, [], None), token := c.store.token + 1, childParent := None, taskOutput := None,
                     replay := Loading, run := RunIdle)
    ensures var wait := Next(c, Select(id, knownMain)).actions[|c.actions|].wait;
            && wait.previous == c.store.view && wait.previousParent == c.store.childParent
            && (wait.Replaying? <==> knownMain)
  {
    TokensGrow(c, Select(id, knownMain));
  }

  /** The replies that end the loading of a selection. */
  predicate Answers(wait: Wait, choice: Choice, k: nat) {
    && choice.Reply? && choice.action == k
    && (choice.reply.Errored? || (choice.reply.Replayed? && wait.Replaying?) || (choice.reply.ChildFound? && wait.ChildProbe?))
  }

  lemma QuietKeepsLoading(c: Client, k: nat, id: string, choice: Choice)
    requires Loads(c, k, id) && !Disturbs(c.store, choice) && !Answers(c.actions[k].wait, choice, k)
    ensures Loads(Next(c, choice), k, id)
  {
    StaysStale(c, choice);
    if choice.Reply? && choice.action < |c.actions| && choice.action != k {
      StaleIsSilent(c, choice.action, choice.reply);
    }
  }

  /** While it loads, the action keeps what was on screen before. */
  lemma QuietKeepsPrevious(c: Client, k: nat, id: string, choice: Choice)
    requires Loads(c, k, id) && !Answers(c.actions[k].wait, choice, k)
    ensures k < |Next(c, choice).actions|
    ensures var wait := Next(c, choice).actions[k].wait;
            && (wait.ChildProbe? || wait.Replaying?)
            && wait.previous == c.actions[k].wait.previous && wait.previousParent == c.actions[k].wait.previousParent
  {
    if choice.Reply? && choice.action != k {
      TokenKeptByReply(c, choice.action, choice.reply);
    }
  }

  /** Nothing in between ends the loading or disturbs it. */
  predicate Undisturbed(c: Client, k: nat, choices: seq<Choice>)
    decreases |choices|
  {
    choices == [] ||
      (k < |c.actions| && !Disturbs(c.store, choices[0]) && !Answers(c.actions[k].wait, choices[0], k)
       && Undisturbed(Next(c, choices[0]), k, choices[1..]))
  }

  lemma {:induction false} LoadingGoesOn(c: Client, k: nat, id: string, choices: seq<Choice>)
    requires Loads(c, k, id) && Undisturbed(c, k, choices)
    ensures Loads(RunFrom(c, choices), k, id)
    ensures RunFrom(c, choices).actions[k].wait.previous == c.actions[k].wait.previous
    ensures RunFrom(c, choices).actions[k].wait.previousParent == c.actions[k].wait.previousParent
    decreases |choices|
  {
    if choices != [] {
      QuietKeepsLoading(c, k, id, choices[0]);
      QuietKeepsPrevious(c, k, id, choices[0]);
      LoadingGoesOn(Next(c, choices[0]), k, id, choices[1..]);
    }
  }

  // ---- What a reply puts on screen ----

  /** The screen shows a session with its frames and output, and the run stands as the session says. */
  ghost predicate Shows(s: Store, id: string, session: Session, frames: seq<Frame>, output: Option<string>) {
    && s.view == View(Some(id), Some(session), frames, output) && s.replay.ReplayDone?
    && s.run == (if session.status.Running? then RunRunning else RunIdle)
    && s.origin == (if session.status.Running? then External else NoOrigin)
  }

  lemma ReplayShows(c: Client, k: nat, id: string, session: Session, frames: seq<Frame>, output: Option<string>)
    requires Loads(c, k, id) && c.actions[k].wait.Replaying?
    ensures var s := Next(c, Reply(k, Replayed(session, frames, output))).store;
            && Shows(s, id, session, frames, output) && s.childParent == session.parent
            && s == c.store.(view := s.view, childParent := s.childParent, run := s.run, origin := s.origin, replay := s.replay)
  {
  }

  /** A child found shows its own session and transcript if there are any, its task's output, and where it belongs. */
  lemma ChildShows(c: Client, k: nat, id: string, task: string, parent: Option<string>, child: Option<Session>,
                   transcript: seq<Frame>, output: Option<string>)
    requires Loads(c, k, id) && c.actions[k].wait.ChildProbe?
    ensures var s, wait := Next(c, Reply(k, ChildFound(task, parent, child, transcript, output))).store, c.actions[k].wait;
            && s.taskOutput == Some(task) && s.view.id == Some(id) && s.view.output == output && s.replay.ReplayDone?
            && (child.Some? ==> Shows(s, id, child.value, transcript, output))
            && (child.None? ==> s.view.state == c.store.view.state && s.view.frames == c.store.view.frames && s.run == RunIdle)
            && s.childParent == (if parent.Some? then parent
                                 else if child.Some? && child.value.parent.Some? then child.value.parent else wait.previous.id)
  {
  }

  /** A selection that fails brings back what was on screen before, or an empty screen if there was nothing to see. */
  lemma FailureRestores(c: Client, k: nat, id: string, aborted: bool)
    requires Loads(c, k, id)
    ensures var s, wait := Next(c, Reply(k, Errored(aborted))).store, c.actions[k].wait;
            if HasTranscript(wait.previous) then
              s == c.store.(view := wait.previous, childParent := wait.previousParent, replay := ReplayFailed)
            else s == c.store.(view := BLANK, childParent := None, replay := ReplayIdle)
  {
  }

  /**
   Over any run: a session that is selected and loads undisturbed is on screen once its reply has come, with
   the reply's own frames and output, whatever pushes, polls and older replies came in between; if loading it
   fails, the screen is what it was before.
   */
  lemma SelectedIsShown(before: seq<Choice>, id: string, knownMain: bool, between: seq<Choice>)
    requires var c := RunFrom(Client(INITIAL, []), before);
             Supersedes(c, Select(id, knownMain)) && Undisturbed(Next(c, Select(id, knownMain)), |c.actions|, between)
    ensures var c := RunFrom(Client(INITIAL, []), before);
            var k, d := |c.actions|, RunFrom(Next(c, Select(id, knownMain)), between);
            && k < |d.actions|
            && (d.actions[k].wait.Replaying? ==>
                  forall session, frames, output :: Shows(Next(d, Reply(k, Replayed(session, frames, output))).store, id, session, frames, output))
            && (HasTranscript(c.store.view) ==>
                  forall aborted :: Next(d, Reply(k, Errored(aborted))).store.view == c.store.view)
            && (!HasTranscript(c.store.view) ==>
                  forall aborted :: Next(d, Reply(k, Errored(aborted))).store.view == BLANK)
  {
    var c := RunFrom(Client(INITIAL, []), before);
    var k := |c.actions|;
    RunKeepsTokens(Client(INITIAL, []), before);
    SelectionLoads(c, id, knownMain);
    LoadingGoesOn(Next(c, Select(id, knownMain)), k, id, between);
    LoadedAnswers(RunFrom(Next(c, Select(id, knownMain)), between), k, id);
  }

  lemma LoadedAnswers(d: Client, k: nat, id: string)
    requires Loads(d, k, id)
    ensures d.actions[k].wait.Replaying? ==>
              forall session, frames, output :: Shows(Next(d, Reply(k, Replayed(session, frames, output))).store, id, session, frames, output)
    ensures forall aborted :: Next(d, Reply(k, Errored(aborted))).store.view ==
              if HasTranscript(d.actions[k].wait.previous) then d.actions[k].wait.previous else BLANK
  {
    if d.actions[k].wait.Replaying? {
      forall session, frames, output
        ensures Shows(Next(d, Reply(k, Replayed(session, frames, output))).store, id, session, frames, output)
      {
        ReplayShows(d, k, id, session, frames, output);
      }
    }
    forall aborted
      ensures Next(d, Reply(k, Errored(aborted))).store.view ==
              if HasTranscript(d.actions[k].wait.previous) then d.actions[k].wait.previous else BLANK
    {
      FailureRestores(d, k, id, aborted);
    }
  }

  // ---- A resume ----

  /** A resume that was left alone shows the session it brings back; one that fails leaves the screen and says so. */
  lemma ResumeShows(c: Client, k: nat)
    requires InFlight(c, k)
    ensures var id := c.actions[k].wait.target;
            && (forall session, frames, output ::
                  Shows(Next(c, Reply(k, Replayed(session, frames, output))).store, id, session, frames, output))
            && (forall aborted :: Next(c, Reply(k, Errored(aborted))).store == c.store.(resuming := false, replay := ReplayDone))
  {
    forall session, frames, output
      ensures Shows(Next(c, Reply(k, Replayed(session, frames, output))).store, c.actions[k].wait.target, session, frames, output)
    {
      ResumedShows(c, k, session, frames, output);
    }
  }

  lemma ResumedShows(c: Client, k: nat, session: Session, frames: seq<Frame>, output: Option<string>)
    requires InFlight(c, k)
    ensures Shows(Next(c, Reply(k, Replayed(session, frames, output))).store, c.actions[k].wait.target, session, frames, output)
  {
  }

  /** Over any run: an undisturbed resume is shown once its reply has come. */
  lemma ResumedIsShown(before: seq<Choice>, resume: Choice, between: seq<Choice>)
    requires var c := RunFrom(Client(INITIAL, []), before);
             && resume.Resume? && Supersedes(c, resume) && !Disturbed(Next(c, resume), between)
             && forall i | 0 <= i < |between| :: !Settles(between[i], |c.actions|)
    ensures var c := RunFrom(Client(INITIAL, []), before);
            var d := RunFrom(Next(c, resume), between);
            && c.store.view.id.Some? && |c.actions| < |d.actions|
            && forall session, frames, output ::
                 Shows(Next(d, Reply(|c.actions|, Replayed(session, frames, output))).store, c.store.view.id.value, session, frames, output)
  {
    var c := RunFrom(Client(INITIAL, []), before);
    var k := |c.actions|;
    RunKeepsTokens(Client(INITIAL, []), before);
    ResumeIsInFlight(c, resume.asked, resume.debugResumable);
    ResumeTargets(c, resume);
    TokensGrow(c, resume);
    FlightEnds(Next(c, resume), k, between);
    ResumeShows(RunFrom(Next(c, resume), between), k);
  }

  lemma ResumeTargets(c: Client, resume: Choice)
    requires resume.Resume? && Supersedes(c, resume)
    ensures |Next(c, resume).actions| == |c.actions| + 1 && Next(c, resume).actions[|c.actions|].wait.Resuming?
    ensures c.store.view.id == Some(Next(c, resume).actions[|c.actions|].wait.target)
  {
  }

  // ---- A local run ----

  /** What a chunk of the current stream puts on screen: its session, its output, and its frame behind the others. */
  lemma ChunkShows(c: Client, k: nat, chunk: Reply)
    requires k < |c.actions| && c.actions[k].wait.Streaming? && c.actions[k].token == c.store.token && chunk.Chunk?
    ensures var d := Next(c, Reply(k, chunk));
            && d.store == c.store.(view := d.store.view)
            && (chunk.snapshot.Some? ==> d.store.view.id == Some(chunk.snapshot.value.id) && d.store.view.state == chunk.snapshot)
            && (chunk.snapshot.None? ==> d.store.view.id == c.store.view.id && d.store.view.state == c.store.view.state)
            && d.store.view.output == (if chunk.output.Some? then chunk.output else c.store.view.output)
            && d.store.view.frames == (if chunk.frame.Some? then ApplyFrame(c.store.view.frames, chunk.frame.value) else c.store.view.frames)
            && d.actions[k].wait.Streaming?
            && (d.actions[k].wait.interrupted <==> c.actions[k].wait.interrupted || (chunk.frame.Some? && chunk.interrupts))
            && (d.actions[k].wait.failed <==> c.actions[k].wait.failed || (chunk.frame.Some? && chunk.fails))
  {
  }

  /** Was the run stopped, by whatever sign: an interruption, a cancel asked for, or the session's own status? */
  predicate Stopped(s: Store, interrupted: bool) {
    interrupted || s.run.Cancelling? || s.cancelRequested || (s.view.state.Some? && s.view.state.value.status.Interrupted?)
  }

  /** How a run ends: idle if it was stopped, otherwise failed if it failed by any sign, otherwise done. */
  lemma StreamEndsExactly(c: Client, k: nat, reply: Reply)
    requires k < |c.actions| && c.actions[k].wait.Streaming? && c.actions[k].token == c.store.token && (reply.Finished? || reply.Errored?)
    ensures var d, wait := Next(c, Reply(k, reply)), c.actions[k].wait;
            var interrupted := if reply.Errored? then reply.aborted else wait.interrupted;
            var failed := reply.Errored? || wait.failed || (c.store.view.state.Some? && c.store.view.state.value.status.Failed?);
            && d.store == c.store.(run := d.store.run, cancelRequested := false)
            && (d.store.run.RunIdle? <==> Stopped(c.store, interrupted))
            && (d.store.run.RunFailed? <==> !Stopped(c.store, interrupted) && failed)
            && (d.store.run.RunDone? <==> !Stopped(c.store, interrupted) && !failed)
  {
  }

  // ---- What starts, and what is turned away ----

  /** A run starts exactly if nothing loads and none is under way; it clears the output, and counts as local. */
  lemma RunStartsExactly(c: Client)
    ensures var d := Next(c, RunTask);
            && (d == c <==> c.store.replay.Loading? || Locked(c.store.run))
            && (d != c ==>
                  && d.actions == c.actions + [Action(c.store.token + 1, Streaming(false, false))]
                  && d.store == c.store.(view := c.store.view.(output := None), token := c.store.token + 1, replay := ReplayIdle,
                                         run := RunRunning, origin := Local, cancelRequested := false))
  {
  }

  /** A resume starts exactly for the session on screen, if it was interrupted, or failed where that may be resumed, and nothing else is under way. */
  lemma ResumeStartsExactly(c: Client, asked: Option<string>, debugResumable: bool)
    ensures var d, s := Next(c, Resume(asked, debugResumable)), c.store;
            && (d != c <==>
                  && s.view.id.Some? && s.view.id.value != "" && (asked.None? || asked == s.view.id)
                  && s.view.state.Some?
                  && (s.view.state.value.status.Interrupted? || (s.view.state.value.status.Failed? && debugResumable))
                  && !s.resuming && !Locked(s.run) && !s.replay.Loading?)
            && (d != c ==>
                  && d.store == s.(token := s.token + 1, replay := Loading, resuming := true)
                  && d.actions == c.actions + [Action(s.token + 1, Resuming(s.view.id.value))])
  {
  }

  /** A selection is turned away only while a local run is under way, unless it leads back to the parent, or for the child on screen. */
  lemma SelectTurnedAway(c: Client, id: string, knownMain: bool)
    ensures var d, s := Next(c, Select(id, knownMain)), c.store;
            && (id != "" ==> (d == c <==>
                  || (Locked(s.run) && s.origin != External && s.childParent != Some(id))
                  || (s.view.id == Some(id) && s.taskOutput.Some? && s.taskOutput.value != "" && s.childParent.Some?)))
            && (id == "" && !(Locked(s.run) && s.origin != External) && s.view.id != Some("") ==>
                  d == c.(store := s.(view := BLANK, childParent := None, taskOutput := None, replay := ReplayIdle, run := RunIdle)))
  {
  }

  /** A push concerns the session on screen only; a frame is merged, a status replaces the old one. */
  lemma PushesExactly(c: Client, frame: Frame, session: Session)
    ensures Next(c, Push(frame)) ==
            if c.store.view.id == Some(frame.sessionId) then
              c.(store := c.store.(view := c.store.view.(frames := MergeFrame(c.store.view.frames, frame))))
            else c
    ensures Next(c, PushState(session)) ==
            if c.store.view.id == Some(session.id) then c.(store := c.store.(view := c.store.view.(state := Some(session)))) else c
  {
  }

  /** A list of sessions clears the screen exactly if it shows a main session with a transcript that is over and no longer listed. */
  lemma ReconcileExactly(c: Client, ids: set<string>)
    ensures var d, s := Next(c, Reconcile(ids)), c.store;
            && d.actions == c.actions
            && (d.store == s || d.store == s.(view := BLANK, replay := ReplayIdle))
            && (s.view.id.Some? && s.view.id.value != "" && s.view.id.value !in ids && s.childParent.None? && !s.replay.Loading?
                && (s.view.state.Some? || s.view.frames != [] || s.view.output.Some?)
                && !(s.view.state.Some? && (s.view.state.value.status.Running? || s.view.state.value.status.Waiting?))
                <==> d.store == s.(view := BLANK, replay := ReplayIdle) && d.store.view != s.view)
  {
  }

  /** A cancel is sent for a run under way that is not being cancelled: a local one if its request is known, another by its run. */
  lemma CancelSentExactly(c: Client, localRun: Option<string>)
    ensures var d, s := Next(c, CancelRun(localRun)), c.store;
            var known := s.view.id.Some? && s.view.id.value != "" && s.view.state.Some? && s.view.state.value.runId.Some?
                         && s.view.state.value.runId.value != "";
            if !s.run.RunRunning? then d == c
            else if s.origin == Local then
              && d.store == s.(run := Cancelling, cancelRequested := true)
              && d.actions == c.actions + (if localRun.Some? then [Action(s.token, CancelSent(localRun.value, false))] else [])
            else if known then
              && d.store == s.(run := Cancelling, cancelRequested := true)
              && d.actions == c.actions + [Action(s.token, CancelSent(s.view.id.value, true))]
            else d == c.(store := s.(run := RunFailed, cancelRequested := false))
  {
  }

  /** The answer to a cancel counts for a run of another client only: it stops it, or fails. */
  lemma CancelAnswered(c: Client, k: nat, reply: Reply)
    requires k < |c.actions| && c.actions[k].wait.CancelSent? && (reply.Finished? || reply.Errored?)
    ensures var d, s, wait := Next(c, Reply(k, reply)).store, c.store, c.actions[k].wait;
            var ours := wait.external && s.token == c.actions[k].token && s.view.id == Some(wait.target);
            d == if ours && reply.Finished? && s.run.Cancelling? then s.(run := RunIdle, cancelRequested := false)
                 else if ours && reply.Errored? then s.(run := RunFailed, cancelRequested := false)
                 else s
  {
  }

  /** Switching the workspace leaves nothing behind but the numbering. */
  lemma SwitchForgets(c: Client)
    ensures Next(c, SwitchWorkspace) == Client(INITIAL.(token := c.store.token + 1), c.actions)
  {
  }
}
