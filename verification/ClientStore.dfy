/** The client's session store: asynchronous actions as atomic steps between their awaits. */
module ClientStore {
  import opened Basics
  import opened LiveStream

  datatype Status = Running | Waiting | Interrupted | Failed | Over

  datatype Session = Session(id: string, status: Status, turn: int, parent: Option<string>, runId: Option<string>)

  datatype ReplayStatus = ReplayIdle | Loading | ReplayDone | ReplayFailed

  datatype RunStatus = RunIdle | RunRunning | Cancelling | RunDone | RunFailed

  datatype Origin = NoOrigin | Local | External

  /** The session on screen. */
  datatype View = View(id: Option<string>, state: Option<Session>, frames: seq<Frame>, output: Option<string>)

  const BLANK := View(None, None, [], None)

  datatype Store = Store(
    view: View,
    token: int,
    childParent: Option<string>,
    taskOutput: Option<string>,
    replay: ReplayStatus,
    resuming: bool,
    run: RunStatus,
    origin: Origin,
    cancelRequested: bool)

  const INITIAL := Store(BLANK, 0, None, None, ReplayIdle, false, RunIdle, NoOrigin, false)

  /** What an action waits for, with what it remembers. */
  datatype Wait =
    | ChildProbe(target: string, previous: View, previousParent: Option<string>)
    | Replaying(target: string, previous: View, previousParent: Option<string>)
    | Resuming(target: string)
    | Streaming(interrupted: bool, failed: bool)
    | CancelSent(target: string, external: bool)
    | Done

  datatype Action = Action(token: int, wait: Wait)

  datatype Client = Client(store: Store, actions: seq<Action>)

  datatype Choice =
    | Select(id: string, knownMain: bool)
    | Resume(asked: Option<string>, debugResumable: bool)
    | RunTask
    | SwitchWorkspace
    | CancelRun(localRun: Option<string>)
    | Push(pushed: Frame)
    | PushState(row: Session)
    | Reconcile(ids: set<string>)
    | Reply(action: nat, reply: Reply)

  datatype Reply =
    | ChildFound(task: string, parent: Option<string>, child: Option<Session>, transcript: seq<Frame>, output: Option<string>)
    | ChildMissing
    | Replayed(session: Session, frames: seq<Frame>, output: Option<string>)
    | Chunk(snapshot: Option<Session>, frame: Option<Frame>, output: Option<string>, interrupts: bool, fails: bool)
    | Finished
    | Errored(aborted: bool)

  predicate Locked(run: RunStatus) {
    run.RunRunning? || run.Cancelling?
  }

  function StatusForReplay(session: Session): RunStatus {
    if session.status.Running? then RunRunning else RunIdle
  }

  function OriginForReplay(session: Session): Origin {
    if session.status.Running? then External else NoOrigin
  }

  predicate HasTranscript(v: View) {
    v.state.Some? || v.frames != [] || v.output.Some?
  }

  // ---- Starting ----

  predicate SelectBlocked(s: Store, id: string) {
    Locked(s.run) && s.origin != External && !(id != "" && s.childParent == Some(id))
  }

  predicate AlreadyBrowsed(s: Store, id: string) {
    s.view.id == Some(id) && s.taskOutput.Some? && s.taskOutput.value != "" && s.childParent.Some?
  }

  function Cleared(s: Store): Store {
    s.(view := BLANK, childParent := None, taskOutput := None, replay := ReplayIdle, run := RunIdle)
  }

  function Selected(s: Store, id: string): Store {
    s.(view := View(Some(id), None, [], None), token := s.token + 1, childParent := None, taskOutput := None,
       replay := Loading, run := RunIdle)
  }

  function StartSelect(c: Client, id: string, knownMain: bool): Client {
    var s := c.store;
    if SelectBlocked(s, id) || AlreadyBrowsed(s, id) then c
    else if id == "" then c.(store := Cleared(s))
    else
      var wait := if knownMain then Replaying(id, s.view, s.childParent) else ChildProbe(id, s.view, s.childParent);
      Client(Selected(s, id), c.actions + [Action(s.token + 1, wait)])
  }

  predicate Resumable(s: Store, target: Option<string>, debugResumable: bool) {
    && target.Some? && target.value != ""
    && s.view.state.Some?
    && (s.view.state.value.status.Interrupted? || (s.view.state.value.status.Failed? && debugResumable))
    && !s.resuming && !Locked(s.run) && s.replay != Loading && s.view.id == target
  }

  function StartResume(c: Client, id: Option<string>, debugResumable: bool): Client {
    var s := c.store;
    var target := if id.Some? then id else s.view.id;
    if !Resumable(s, target, debugResumable) then c
    else
      Client(s.(token := s.token + 1, replay := Loading, resuming := true),
             c.actions + [Action(s.token + 1, Resuming(target.value))])
  }

  function StartRun(c: Client): Client {
    var s := c.store;
    if s.replay == Loading || Locked(s.run) then c
    else
      Client(s.(view := s.view.(output := None), token := s.token + 1, replay := ReplayIdle,
                run := RunRunning, origin := Local, cancelRequested := false),
             c.actions + [Action(s.token + 1, Streaming(false, false))])
  }

  function Switched(s: Store): Store {
    Store(BLANK, s.token + 1, None, None, ReplayIdle, false, RunIdle, NoOrigin, false)
  }

  function StartCancel(c: Client, localRun: Option<string>): Client {
    var s := c.store;
    if !Locked(s.run) || s.run.Cancelling? then c
    else
      var target :=
        if s.origin == Local then localRun
        else if s.view.id.Some? && s.view.id.value != "" && s.view.state.Some? && s.view.state.value.runId.Some?
                && s.view.state.value.runId.value != "" then s.view.id
        else None;
      if target.Some? then
        Client(s.(run := Cancelling, cancelRequested := true), c.actions + [Action(s.token, CancelSent(target.value, s.origin != Local))])
      else if s.origin != Local then c.(store := s.(run := RunFailed, cancelRequested := false))
      else c.(store := s.(run := Cancelling, cancelRequested := true))
  }

  // ---- Pushes ----

  function Pushed(s: Store, f: Frame): Store {
    if s.view.id != Some(f.sessionId) then s else s.(view := s.view.(frames := MergeFrame(s.view.frames, f)))
  }

  function StatePushed(s: Store, session: Session): Store {
    if s.view.id != Some(session.id) then s else s.(view := s.view.(state := Some(session)))
  }

  function Reconciled(s: Store, ids: set<string>): Store {
    var live := s.view.state.Some? && (s.view.state.value.status.Running? || s.view.state.value.status.Waiting?);
    if s.view.id.Some? && s.view.id.value != "" && !live && s.childParent.None? && HasTranscript(s.view)
       && s.replay != Loading && s.view.id.value !in ids
    then s.(view := BLANK, replay := ReplayIdle)
    else s
  }

  // ---- Replies ----

  /** Is the reply still for the session on screen? */
  predicate Current(s: Store, a: Action, target: string) {
    s.token == a.token && s.view.id == Some(target)
  }

  function Restored(s: Store, target: string, previous: View, previousParent: Option<string>): Store {
    if HasTranscript(previous) then s.(view := previous, childParent := previousParent, replay := ReplayFailed)
    else s.(view := BLANK, childParent := None, replay := ReplayIdle)
  }

  function OnProbe(s: Store, a: Action, reply: Reply): (Store, Wait)
    requires a.wait.ChildProbe?
  {
    match reply
    case ChildFound(task, parent, session, transcript, output) =>
      if !Current(s, a, a.wait.target) then (s, Done)
      else
        (s.(view := s.view.(state := if session.Some? then session else s.view.state,
                            frames := if session.Some? then transcript else s.view.frames,
                            output := output),
            taskOutput := Some(task),
            childParent := if parent.Some? then parent
                           else if session.Some? && session.value.parent.Some? then session.value.parent
                           else a.wait.previous.id,
            run := if session.Some? then StatusForReplay(session.value) else RunIdle,
            origin := if session.Some? then OriginForReplay(session.value) else NoOrigin,
            replay := ReplayDone),
         Done)
    case ChildMissing => (s, Replaying(a.wait.target, a.wait.previous, a.wait.previousParent))
    case Errored(_) =>
      (if Current(s, a, a.wait.target) then Restored(s, a.wait.target, a.wait.previous, a.wait.previousParent) else s, Done)
    case _ => (s, a.wait)
  }

  function OnReplaying(s: Store, a: Action, reply: Reply): (Store, Wait)
    requires a.wait.Replaying?
  {
    match reply
    case Replayed(session, frames, output) =>
      if !Current(s, a, a.wait.target) then (s, Done)
      else
        (s.(view := s.view.(state := Some(session), frames := frames, output := output), childParent := session.parent,
            run := StatusForReplay(session), origin := OriginForReplay(session), replay := ReplayDone),
         Done)
    case Errored(_) =>
      (if Current(s, a, a.wait.target) then Restored(s, a.wait.target, a.wait.previous, a.wait.previousParent) else s, Done)
    case _ => (s, a.wait)
  }

  function OnResuming(s: Store, a: Action, reply: Reply): (Store, Wait)
    requires a.wait.Resuming?
  {
    match reply
    case Replayed(session, frames, output) =>
      if !Current(s, a, a.wait.target) then (s, Done)
      else
        (s.(view := s.view.(state := Some(session), frames := frames, output := output), replay := ReplayDone,
            run := StatusForReplay(session), origin := OriginForReplay(session), resuming := false),
         Done)
    case Errored(_) =>
      (if Current(s, a, a.wait.target) then s.(resuming := false, replay := ReplayDone) else s, Done)
    case _ => (s, a.wait)
  }

  /** The stream is over: an interruption, by whatever sign, outranks a failure. */
  function Ended(s: Store, interrupted: bool, failed: bool): Store {
    var status := if s.view.state.Some? then s.view.state.value.status else Over;
    var stopped := interrupted || s.run.Cancelling? || s.cancelRequested || status.Interrupted?;
    s.(run := if stopped then RunIdle else if failed || status.Failed? then RunFailed else RunDone, cancelRequested := false)
  }

  function OnStreaming(s: Store, a: Action, reply: Reply): (Store, Wait)
    requires a.wait.Streaming?
  {
    match reply
    case Chunk(session, frame, output, interrupts, fails) =>
      if s.token != a.token then (s, Done)
      else
        (s.(view := View(
              if session.Some? then Some(session.value.id) else s.view.id,
              if session.Some? then session else s.view.state,
              if frame.Some? then ApplyFrame(s.view.frames, frame.value) else s.view.frames,
              if output.Some? then output else s.view.output)),
         Streaming(a.wait.interrupted || (frame.Some? && interrupts), a.wait.failed || (frame.Some? && fails)))
    case Finished => (if s.token != a.token then s else Ended(s, a.wait.interrupted, a.wait.failed), Done)
    case Errored(aborted) => (if s.token != a.token then s else Ended(s, aborted, true), Done)
    case _ => (s, a.wait)
  }

  function OnCancelSent(s: Store, a: Action, reply: Reply): (Store, Wait)
    requires a.wait.CancelSent?
  {
    var ours := a.wait.external && Current(s, a, a.wait.target);
    match reply
    case Finished => (if ours && s.run.Cancelling? then s.(run := RunIdle, cancelRequested := false) else s, Done)
    case Errored(_) => (if ours then s.(run := RunFailed, cancelRequested := false) else s, Done)
    case _ => (s, a.wait)
  }

  function OnReply(s: Store, a: Action, reply: Reply): (Store, Wait) {
    match a.wait
    case ChildProbe(_, _, _) => OnProbe(s, a, reply)
    case Replaying(_, _, _) => OnReplaying(s, a, reply)
    case Resuming(_) => OnResuming(s, a, reply)
    case Streaming(_, _) => OnStreaming(s, a, reply)
    case CancelSent(_, _) => OnCancelSent(s, a, reply)
    case Done => (s, Done)
  }

  function Answered(c: Client, k: nat, reply: Reply): Client {
    if k >= |c.actions| then c
    else
      var (store, wait) := OnReply(c.store, c.actions[k], reply);
      Client(store, c.actions[k := c.actions[k].(wait := wait)])
  }

  function Next(c: Client, choice: Choice): Client {
    match choice
    case Select(id, knownMain) => StartSelect(c, id, knownMain)
    case Resume(id, debugResumable) => StartResume(c, id, debugResumable)
    case RunTask => StartRun(c)
    case SwitchWorkspace => c.(store := Switched(c.store))
    case CancelRun(localRun) => StartCancel(c, localRun)
    case Push(frame) => c.(store := Pushed(c.store, frame))
    case PushState(session) => c.(store := StatePushed(c.store, session))
    case Reconcile(ids) => c.(store := Reconciled(c.store, ids))
    case Reply(k, reply) => Answered(c, k, reply)
  }

  // ---- The latest operation wins ----

  /** Actions are numbered in the order they start, and none is ahead of the store. */
  ghost predicate TokensOk(c: Client) {
    forall k | 0 <= k < |c.actions| :: c.actions[k].token <= c.store.token
  }

  /** Has a newer operation started since? */
  predicate Stale(c: Client, k: nat) {
    k < |c.actions| && c.actions[k].token < c.store.token
  }

  lemma TokensGrow(c: Client, choice: Choice)
    requires TokensOk(c)
    ensures TokensOk(Next(c, choice)) && c.store.token <= Next(c, choice).store.token
    ensures |c.actions| <= |Next(c, choice).actions|
    ensures forall k | 0 <= k < |c.actions| :: Next(c, choice).actions[k].token == c.actions[k].token
  {
    match choice
    case Reply(k, reply) =>
      if k < |c.actions| {
        match c.actions[k].wait
        case ChildProbe(_, _, _) =>
        case _ =>
      }
    case _ =>
  }

  /** A reply to a stale action changes nothing in the store. */
  lemma StaleIsSilent(c: Client, k: nat, reply: Reply)
    requires TokensOk(c) && Stale(c, k)
    ensures Next(c, Reply(k, reply)).store == c.store
  {
  }

  function RunFrom(c: Client, choices: seq<Choice>): Client
    decreases |choices|
  {
    if choices == [] then c else RunFrom(Next(c, choices[0]), choices[1..])
  }

  lemma {:induction false} RunKeepsTokens(c: Client, choices: seq<Choice>)
    requires TokensOk(c)
    ensures var d := RunFrom(c, choices);
            && TokensOk(d) && c.store.token <= d.store.token && |c.actions| <= |d.actions|
            && forall k | 0 <= k < |c.actions| :: d.actions[k].token == c.actions[k].token
    decreases |choices|
  {
    if choices != [] {
      TokensGrow(c, choices[0]);
      RunKeepsTokens(Next(c, choices[0]), choices[1..]);
    }
  }

  /** Starting a selection, a resume or a run, and switching the workspace, take a new number. */
  predicate Supersedes(c: Client, choice: Choice) {
    Next(c, choice).store.token > c.store.token
  }

  /**
   Whatever happens in between: once an operation has started, no reply to an operation started before
   it changes anything in the store.
   */
  lemma LatestOperationWins(before: seq<Choice>, choice: Choice, between: seq<Choice>, k: nat, reply: Reply)
    requires var c := RunFrom(Client(INITIAL, []), before);
             k < |c.actions| && Supersedes(c, choice)
    ensures var c := RunFrom(Next(RunFrom(Client(INITIAL, []), before), choice), between);
            Next(c, Reply(k, reply)).store == c.store
  {
    var c := RunFrom(Client(INITIAL, []), before);
    RunKeepsTokens(Client(INITIAL, []), before);
    TokensGrow(c, choice);
    RunKeepsTokens(Next(c, choice), between);
    StaleIsSilent(RunFrom(Next(c, choice), between), k, reply);
  }

  /** A selection of a session, a resume, a run and a switch that are not turned away all supersede. */
  lemma WhatSupersedes(c: Client, choice: Choice)
    ensures choice.SwitchWorkspace? ==> Supersedes(c, choice)
    ensures (choice.Select? && choice.id != "") || choice.Resume? || choice.RunTask? ==> Supersedes(c, choice) || Next(c, choice) == c
    ensures !choice.SwitchWorkspace? ==> (Supersedes(c, choice) <==> |Next(c, choice).actions| > |c.actions| && !choice.CancelRun?)
  {
    match choice
    case Reply(k, reply) =>
      TokenKeptByReply(c, k, reply);
    case _ =>
  }

  lemma TokenKeptByReply(c: Client, k: nat, reply: Reply)
    ensures Next(c, Reply(k, reply)).store.token == c.store.token
    ensures |Next(c, Reply(k, reply)).actions| == |c.actions|
  {
    if k < |c.actions| {
      match c.actions[k].wait
      case ChildProbe(_, _, _) =>
      case Replaying(_, _, _) =>
      case Resuming(_) =>
      case Streaming(_, _) =>
      case _ =>
    }
  }

  // ---- Stale replies can be erased from any run ----

  function Kept(c: Client, choices: seq<Choice>): seq<Choice>
    decreases |choices|
  {
    if choices == [] then []
    else
      var choice := choices[0];
      var rest := Kept(Next(c, choice), choices[1..]);
      if choice.Reply? && Stale(c, choice.action) then rest else [choice] + rest
  }

  /** The same store, and the same actions as far as they still matter. */
  ghost predicate Alike(c: Client, d: Client) {
    && c.store == d.store && |c.actions| == |d.actions|
    && forall k | 0 <= k < |c.actions| ::
         c.actions[k].token == d.actions[k].token && (!Stale(c, k) ==> c.actions[k] == d.actions[k])
  }

  lemma AlikeStep(c: Client, d: Client, choice: Choice)
    requires Alike(c, d) && TokensOk(c) && !(choice.Reply? && Stale(c, choice.action))
    ensures Alike(Next(c, choice), Next(d, choice))
  {
    TokensGrow(c, choice);
    if choice.Reply? && choice.action < |c.actions| {
      assert c.actions[choice.action] == d.actions[choice.action];
    }
  }

  lemma StaleStep(c: Client, d: Client, k: nat, reply: Reply)
    requires Alike(c, d) && TokensOk(c) && Stale(c, k)
    ensures Alike(Next(c, Reply(k, reply)), d)
  {
    StaleIsSilent(c, k, reply);
    TokensGrow(c, Reply(k, reply));
  }

  lemma {:induction false} AlikeRuns(c: Client, d: Client, choices: seq<Choice>)
    requires Alike(c, d) && TokensOk(c)
    ensures Alike(RunFrom(c, choices), RunFrom(d, Kept(c, choices)))
    decreases |choices|
  {
    if choices != [] {
      var choice := choices[0];
      TokensGrow(c, choice);
      if choice.Reply? && Stale(c, choice.action) {
        StaleStep(c, d, choice.action, choice.reply);
        AlikeRuns(Next(c, choice), d, choices[1..]);
      } else {
        AlikeStep(c, d, choice);
        AlikeRuns(Next(c, choice), Next(d, choice), choices[1..]);
        assert Kept(c, choices)[1..] == Kept(Next(c, choice), choices[1..]);
      }
    }
  }

  /** Leaving all replies to superseded operations out of a run leads to the same store. */
  lemma StaleRepliesErased(choices: seq<Choice>)
    ensures var c := Client(INITIAL, []);
            RunFrom(c, Kept(c, choices)).store == RunFrom(c, choices).store
  {
    var c := Client(INITIAL, []);
    AlikeRuns(c, c, choices);
  }

  // ---- An emptied selection stays empty ----

  predicate StreamCounts(s: Store, a: Action) {
    a.wait.Streaming? && a.token == s.token
  }

  /** A local stream that still counts holds the run lock; nothing else shares its number but its own cancel. */
  ghost predicate StreamsLocked(c: Client) {
    && TokensOk(c)
    && (forall k | 0 <= k < |c.actions| && StreamCounts(c.store, c.actions[k]) :: Locked(c.store.run) && c.store.origin == Local)
    && (forall j, k | 0 <= j < |c.actions| && 0 <= k < |c.actions| && j != k && StreamCounts(c.store, c.actions[k]) ::
          c.actions[j].token == c.store.token ==> c.actions[j].wait.Done? || (c.actions[j].wait.CancelSent? && !c.actions[j].wait.external))
  }

  lemma StartsKeepStreams(c: Client, choice: Choice)
    requires StreamsLocked(c) && !choice.Reply?
    ensures StreamsLocked(Next(c, choice))
  {
    TokensGrow(c, choice);
    match choice
    case Select(_, _) =>
    case CancelRun(_) =>
    case _ =>
  }

  lemma RepliesKeepStreams(c: Client, k: nat, reply: Reply)
    requires StreamsLocked(c)
    ensures StreamsLocked(Next(c, Reply(k, reply)))
  {
    TokensGrow(c, Reply(k, reply));
    if k < |c.actions| {
      if c.actions[k].token < c.store.token {
        StaleIsSilent(c, k, reply);
      }
      match c.actions[k].wait
      case ChildProbe(_, _, _) =>
      case Replaying(_, _, _) =>
      case Resuming(_) =>
      case Streaming(_, _) =>
      case CancelSent(_, _) =>
      case Done =>
    }
  }

  lemma {:induction false} RunKeepsStreams(c: Client, choices: seq<Choice>)
    requires StreamsLocked(c)
    ensures StreamsLocked(RunFrom(c, choices))
    decreases |choices|
  {
    if choices != [] {
      if choices[0].Reply? {
        RepliesKeepStreams(c, choices[0].action, choices[0].reply);
      } else {
        StartsKeepStreams(c, choices[0]);
      }
      RunKeepsStreams(Next(c, choices[0]), choices[1..]);
    }
  }

  /** Nothing is on screen and no stream counts. */
  ghost predicate Emptied(c: Client) {
    c.store.view == BLANK && forall k | 0 <= k < |c.actions| :: !StreamCounts(c.store, c.actions[k])
  }

  predicate StartsNothing(choice: Choice) {
    !(choice.Select? && choice.id != "") && !choice.RunTask?
  }

  lemma EmptiedStays(c: Client, choice: Choice)
    requires StreamsLocked(c) && Emptied(c) && StartsNothing(choice)
    ensures Emptied(Next(c, choice))
  {
    match choice
    case Reply(k, reply) =>
      if k < |c.actions| {
        match c.actions[k].wait
        case ChildProbe(_, _, _) =>
        case Replaying(_, _, _) =>
        case Resuming(_) =>
        case Streaming(_, _) =>
        case _ =>
      }
    case _ =>
  }

  lemma {:induction false} EmptiedStaysOn(c: Client, choices: seq<Choice>)
    requires StreamsLocked(c) && Emptied(c) && forall i | 0 <= i < |choices| :: StartsNothing(choices[i])
    ensures Emptied(RunFrom(c, choices))
    decreases |choices|
  {
    if choices != [] {
      EmptiedStays(c, choices[0]);
      RunKeepsStreams(c, [choices[0]]);
      assert RunFrom(c, [choices[0]]) == Next(c, choices[0]) by {
        assert [choices[0]][1..] == [];
      }
      EmptiedStaysOn(Next(c, choices[0]), choices[1..]);
    }
  }

  /**
   Emptying the selection takes no new number, and yet whatever was in flight cannot bring a session
   back: until a session is selected or a run started, the screen stays empty.
   */
  lemma ClearedStaysClear(before: seq<Choice>, after: seq<Choice>)
    requires var c := RunFrom(Client(INITIAL, []), before);
             !SelectBlocked(c.store, "") && !AlreadyBrowsed(c.store, "")
    requires forall i | 0 <= i < |after| :: StartsNothing(after[i])
    ensures RunFrom(Next(RunFrom(Client(INITIAL, []), before), Select("", false)), after).store.view == BLANK
  {
    var c := RunFrom(Client(INITIAL, []), before);
    RunKeepsStreams(Client(INITIAL, []), before);
    var cleared := Next(c, Select("", false));
    StartsKeepStreams(c, Select("", false));
    assert Emptied(cleared);
    EmptiedStaysOn(cleared, after);
  }

  // ---- When a resume settles ----

  /** Action k is the resume that loads: its number and its session are current, and every other action is stale. */
  ghost predicate InFlight(c: Client, k: nat) {
    && TokensOk(c) && k < |c.actions| && c.actions[k].wait.Resuming? && c.actions[k].wait.target != ""
    && c.actions[k].token == c.store.token && c.store.view.id == Some(c.actions[k].wait.target)
    && c.store.resuming && c.store.replay.Loading? && !Locked(c.store.run)
    && (forall j | 0 <= j < |c.actions| && j != k :: Stale(c, j))
  }

  /** Action k was the resume that loads, but a newer operation started or nothing is selected any more. */
  ghost predicate CutOff(c: Client, k: nat) {
    TokensOk(c) && (Stale(c, k) || Adrift(c))
  }

  /** Nothing is selected and nothing that counts could select something. */
  ghost predicate Adrift(c: Client) {
    && c.store.view.id.None? && !Locked(c.store.run)
    && (forall j | 0 <= j < |c.actions| :: !Stale(c, j) ==> c.actions[j].wait.Resuming? || c.actions[j].wait.Done?)
  }

  /** The replies that end a resume. */
  predicate Settles(choice: Choice, k: nat) {
    choice.Reply? && choice.action == k && (choice.reply.Replayed? || choice.reply.Errored?)
  }

  /** Selecting, unless the child on screen is selected again, and switching the workspace. */
  predicate Disturbs(s: Store, choice: Choice) {
    choice.SwitchWorkspace? || (choice.Select? && !AlreadyBrowsed(s, choice.id))
  }

  predicate Disturbed(c: Client, choices: seq<Choice>)
    decreases |choices|
  {
    choices != [] && (Disturbs(c.store, choices[0]) || Disturbed(Next(c, choices[0]), choices[1..]))
  }

  /** While a resume loads, what disturbs it is what supersedes it, and besides that the emptied selection alone. */
  lemma DisturbsExactly(c: Client, k: nat, choice: Choice)
    requires InFlight(c, k)
    ensures Disturbs(c.store, choice) <==> Supersedes(c, choice) || (choice.Select? && choice.id == "")
  {
    if choice.Reply? {
      TokenKeptByReply(c, choice.action, choice.reply);
    }
  }

  lemma ResumeIsInFlight(c: Client, asked: Option<string>, debugResumable: bool)
    requires TokensOk(c) && Supersedes(c, Resume(asked, debugResumable))
    ensures InFlight(Next(c, Resume(asked, debugResumable)), |c.actions|)
  {
    TokensGrow(c, Resume(asked, debugResumable));
  }

  lemma StaysStale(c: Client, choice: Choice)
    requires TokensOk(c)
    ensures TokensOk(Next(c, choice)) && |c.actions| <= |Next(c, choice).actions|
    ensures forall j: nat | Stale(c, j) :: Stale(Next(c, choice), j)
    ensures forall j: nat | j < |c.actions| && Stale(Next(c, choice), j) && !Supersedes(c, choice) :: Stale(c, j)
  {
    TokensGrow(c, choice);
    var d := Next(c, choice);
    forall j: nat | j < |c.actions| ensures d.actions[j].token == c.actions[j].token {
    }
  }

  lemma QuietKeepsFlight(c: Client, k: nat, choice: Choice)
    requires InFlight(c, k) && !Disturbs(c.store, choice) && !Settles(choice, k)
    ensures InFlight(Next(c, choice), k)
  {
    StaysStale(c, choice);
    if choice.Reply? && choice.action < |c.actions| && choice.action != k {
      StaleIsSilent(c, choice.action, choice.reply);
    }
  }

  lemma DisturbanceCutsOff(c: Client, k: nat, choice: Choice)
    requires InFlight(c, k) && Disturbs(c.store, choice)
    ensures CutOff(Next(c, choice), k)
  {
    StaysStale(c, choice);
  }

  lemma AdriftKept(c: Client, choice: Choice)
    requires TokensOk(c) && Adrift(c) && !Supersedes(c, choice)
    ensures Adrift(Next(c, choice))
  {
    StaysStale(c, choice);
    if choice.Reply? && choice.action < |c.actions| {
      if Stale(c, choice.action) {
        StaleIsSilent(c, choice.action, choice.reply);
      }
    }
  }

  lemma CutOffKept(c: Client, k: nat, choice: Choice)
    requires k < |c.actions| && CutOff(c, k)
    ensures k < |Next(c, choice).actions| && CutOff(Next(c, choice), k)
  {
    TokensGrow(c, choice);
    if !Stale(Next(c, choice), k) {
      AdriftKept(c, choice);
    }
  }

  /** The wait of a resume changes by its own settling reply only. */
  lemma ResumeWaits(c: Client, k: nat, choice: Choice)
    requires k < |c.actions| && c.actions[k].wait.Resuming? && !Settles(choice, k)
    ensures k < |Next(c, choice).actions| && Next(c, choice).actions[k] == c.actions[k]
  {
    if choice.Reply? && choice.action != k {
      TokenKeptByReply(c, choice.action, choice.reply);
    }
  }

  lemma {:induction false} FlightEnds(c: Client, k: nat, choices: seq<Choice>)
    requires k < |c.actions| && c.actions[k].wait.Resuming?
    requires TokensOk(c) && (InFlight(c, k) || CutOff(c, k))
    requires forall i | 0 <= i < |choices| :: !Settles(choices[i], k)
    ensures var d := RunFrom(c, choices);
            && k < |d.actions| && d.actions[k] == c.actions[k] && TokensOk(d)
            && if InFlight(c, k) && !Disturbed(c, choices) then InFlight(d, k) else CutOff(d, k)
    decreases |choices|
  {
    if choices != [] {
      var choice := choices[0];
      TokensGrow(c, choice);
      ResumeWaits(c, k, choice);
      if CutOff(c, k) {
        CutOffKept(c, k, choice);
        NotBoth(c, k);
        NotBoth(Next(c, choice), k);
      } else if Disturbs(c.store, choice) {
        DisturbanceCutsOff(c, k, choice);
        NotBoth(Next(c, choice), k);
      } else {
        QuietKeepsFlight(c, k, choice);
      }
      FlightEnds(Next(c, choice), k, choices[1..]);
    }
  }

  lemma NotBoth(c: Client, k: nat)
    requires CutOff(c, k)
    ensures !InFlight(c, k)
  {
  }

  /**
   A resume settles exactly if it was left alone: its reply takes the store out of `resuming` if and only
   if, since it started, no session was selected, the selection was not emptied and the workspace not
   switched. A reply that does not settle changes nothing at all.
   */
  lemma ResumeSettlesExactly(before: seq<Choice>, resume: Choice, between: seq<Choice>, reply: Reply)
    requires var c := RunFrom(Client(INITIAL, []), before);
             && resume.Resume? && Supersedes(c, resume) && Settles(Reply(|c.actions|, reply), |c.actions|)
             && forall i | 0 <= i < |between| :: !Settles(between[i], |c.actions|)
    ensures var c := RunFrom(Client(INITIAL, []), before);
            var d := RunFrom(Next(c, resume), between);
            var after := Next(d, Reply(|c.actions|, reply));
            && (d.store.resuming && !after.store.resuming <==> !Disturbed(Next(c, resume), between))
            && (Disturbed(Next(c, resume), between) ==> after.store == d.store)
  {
    var c := RunFrom(Client(INITIAL, []), before);
    var k := |c.actions|;
    RunKeepsTokens(Client(INITIAL, []), before);
    ResumeIsInFlight(c, resume.asked, resume.debugResumable);
    TokensGrow(c, resume);
    FlightEnds(Next(c, resume), k, between);
  }

  // ---- A lost resume ----

  /** The store says that a resume is loading, but no resume can say otherwise any more. */
  ghost predicate ResumeLost(c: Client) {
    && TokensOk(c) && c.store.resuming
    && (Adrift(c) || forall k | 0 <= k < |c.actions| && c.actions[k].wait.Resuming? :: Stale(c, k))
  }

  /** Any selection while a resume loads loses it, the emptied one like any other. */
  lemma SelectionLosesResume(c: Client, k: nat, id: string, knownMain: bool)
    requires InFlight(c, k) && !AlreadyBrowsed(c.store, id)
    ensures ResumeLost(Next(c, Select(id, knownMain)))
  {
    StaysStale(c, Select(id, knownMain));
  }

  lemma LostResumeStays(c: Client, choice: Choice)
    requires ResumeLost(c) && !choice.SwitchWorkspace?
    ensures ResumeLost(Next(c, choice)) && (choice.Resume? ==> Next(c, choice) == c)
  {
    StaysStale(c, choice);
    if Adrift(c) && !Supersedes(c, choice) {
      AdriftKept(c, choice);
    }
    if choice.Reply? {
      TokenKeptByReply(c, choice.action, choice.reply);
      LostReply(c, choice.action, choice.reply);
    }
  }

  lemma LostReply(c: Client, k: nat, reply: Reply)
    requires ResumeLost(c)
    ensures Next(c, Reply(k, reply)).store.resuming
    ensures forall j | 0 <= j < |c.actions| && Next(c, Reply(k, reply)).actions[j].wait.Resuming? :: c.actions[j].wait.Resuming?
  {
    if k < |c.actions| {
      if Stale(c, k) {
        StaleIsSilent(c, k, reply);
      }
    }
  }

  /** From then on, whatever happens, no resume starts and none is reported over, until the workspace is switched. */
  lemma {:induction false} LostResumeStaysLost(c: Client, choices: seq<Choice>, resume: Choice)
    requires ResumeLost(c) && resume.Resume?
    requires forall i | 0 <= i < |choices| :: !choices[i].SwitchWorkspace?
    ensures ResumeLost(RunFrom(c, choices))
    ensures Next(RunFrom(c, choices), resume) == RunFrom(c, choices)
    decreases |choices|
  {
    if choices == [] {
      LostResumeStays(c, resume);
    } else {
      LostResumeStays(c, choices[0]);
      LostResumeStaysLost(Next(c, choices[0]), choices[1..], resume);
    }
  }

  /** The session s, as the runtime reports it after an interruption. */
  const FOUND := Replayed(Session("s", Interrupted, 1, None, None), [], None)

  /** From the start, the session is selected, found interrupted and resumed. */
  ghost function Resumed(): Client {
    Next(Next(Next(Client(INITIAL, []), Select("s", true)), Reply(0, FOUND)), Resume(None, false))
  }

  lemma ResumedIsInFlight()
    ensures InFlight(Resumed(), 1) && Resumed().store.childParent.None?
  {
    var c1 := Next(Client(INITIAL, []), Select("s", true));
    var c2 := Next(c1, Reply(0, FOUND));
    assert c1.store.view.id == Some("s") && c2.store.view.state == Some(FOUND.session);
    ResumeIsInFlight(c2, None, false);
  }

  /** If then the selection is emptied before the reply, the store waits for that resume for good. */
  lemma EmptiedSelectionLosesResume(choices: seq<Choice>)
    requires forall i | 0 <= i < |choices| :: !choices[i].SwitchWorkspace?
    ensures RunFrom(Next(Next(Resumed(), Select("", false)), Reply(1, FOUND)), choices).store.resuming
  {
    ResumedIsInFlight();
    LosesAndStays(Resumed(), choices);
  }

  lemma LosesAndStays(c: Client, choices: seq<Choice>)
    requires InFlight(c, 1) && c.store.childParent.None?
    requires forall i | 0 <= i < |choices| :: !choices[i].SwitchWorkspace?
    ensures RunFrom(Next(Next(c, Select("", false)), Reply(1, FOUND)), choices).store.resuming
  {
    SelectionLosesResume(c, 1, "", false);
    LostResumeStays(Next(c, Select("", false)), Reply(1, FOUND));
    LostResumeStaysLost(Next(Next(c, Select("", false)), Reply(1, FOUND)), choices, Resume(None, false));
  }
}
