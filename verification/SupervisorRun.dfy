/** Whole runs of the account supervisor: commands, the Sync barrier, shutdown, the
    run loop, and what holds of every run in every world. */
module SupervisorRun {
  import opened Bridge
  import opened SupervisorLog
  import opened SupervisorModel
  import opened SupervisorSafety

  // ------------------------------------------------ the Sync barrier

  /** What the drain's select finds. Queued items are always ready, so its default
      branch is taken only when both queues are empty. */
  function Ready(w: World, s: Loop): Choice {
    var choice := w.select(s.polls);
    if CanReceive(s, choice) then choice
    else if s.activityQueue != [] then TakeActivity
    else if s.pairQueue != [] then TakePairEvent
    else Nothing
  }

  /** What arrives while the loop looks at the clock. */
  function Joined(w: World, s: Loop): Loop { Poll(Arrive(s, w.arrives(s.polls))) }

  /** One round of the drain, and whether another follows. */
  function DrainRound(w: World, s: Loop): (Loop, bool)
    requires ValidPolicy(w.policy)
  {
    var (t, fired) := EnforceDueDeadline(w, Joined(w, s));
    if fired then (t, true)
    else
      var choice := Ready(w, t);
      if choice == Nothing then (t, false) else (Receive(w, Poll(t), choice), true)
  }

  function Queued(s: Loop): nat { |s.activityQueue| + |s.pairQueue| }

  function Disturbances(w: World, s: Loop): nat { if s.polls < w.horizon then w.horizon - s.polls else 0 }

  ghost predicate Lower(w: World, s: Loop, t: Loop) {
    || Disturbances(w, t) < Disturbances(w, s)
    || (Disturbances(w, t) == Disturbances(w, s)
        && (Queued(t) < Queued(s) || (Queued(t) == Queued(s) && Rank(w, t) < Rank(w, s))))
  }

  lemma JoinedSafe(w: World, s: Loop)
    requires ValidWorld(w) && Valid(w, s)
    ensures var t := Joined(w, s);
            && Valid(w, t) && t.journal == s.journal && t.polls == s.polls + 1 && t.commands == s.commands
            && Arrived(s.(polls := s.polls + 1), t, w.arrives(s.polls))
            && (Quiet(w, s) ==> Queued(t) == Queued(s) && Rank(w, t) == Rank(w, s))
  {
    hide Note, Sound, Valid, Rank;
    ArriveSafe(w, s, w.arrives(s.polls));
    PollSafe(w, Arrive(s, w.arrives(s.polls)));
  }

  /** One round handles a due deadline or else one ready item; with neither it is the last
      and changes nothing. */
  ghost predicate Drained(w: World, s: Loop, t: Loop, more: bool)
    requires ValidPolicy(w.policy)
  {
    var joined := Joined(w, s);
    var waiting := joined.(polls := joined.polls + if joined.timer.Armed? then 1 else 0);
    var choice := w.select(waiting.polls);
    && Arrived(s.(polls := s.polls + 1), joined, w.arrives(s.polls))
    && if Due(w, joined) then more && Fired(w, joined, t)
       else if CanReceive(waiting, choice) then more && ReceivedAs(w, Poll(waiting), t, choice)
       else if waiting.activityQueue != [] then more && ReceivedAs(w, Poll(waiting), t, TakeActivity)
       else if waiting.pairQueue != [] then more && ReceivedAs(w, Poll(waiting), t, TakePairEvent)
       else !more && t == waiting
  }

  lemma DrainRoundSafe(w: World, s: Loop)
    requires ValidWorld(w) && Valid(w, s)
    ensures var (t, more) := DrainRound(w, s);
            && Drained(w, s, t, more)
            && Valid(w, t) && s.journal.log <= t.journal.log && s.polls < t.polls
            && t.commands == s.commands
            && (more ==> Lower(w, s, t))
            && (!more ==> Queued(t) == 0 && (t.timer.Armed? ==> w.clock(t.polls - 1) < t.timer.deadline))
  {
    hide Note, Sound, Valid, Rank, EnforceDueDeadline, Receive, Joined, DeadlinesLeft, Due, FiredInto, ReceivedAs, Arrived;
    var joined := Joined(w, s);
    JoinedSafe(w, s);
    EnforceDueDeadlineSafe(w, joined);
    var (t, fired) := EnforceDueDeadline(w, joined);
    if !fired {
      PollSafe(w, t);
      ReceiveSafe(w, Poll(t), Ready(w, t));
    }
  }

  /** Sync: everything that is ready is handled before the reply. */
  function Drain(w: World, s: Loop): (t: Loop)
    requires ValidWorld(w) && Valid(w, s)
    ensures Valid(w, t) && s.journal.log <= t.journal.log && s.polls < t.polls
    ensures t.commands == s.commands
    ensures Queued(t) == 0 && (t.timer.Armed? ==> w.clock(t.polls - 1) < t.timer.deadline)
    decreases Disturbances(w, s), Queued(s), Rank(w, s)
  {
    hide *;
    DrainRoundSafe(w, s);
    var (t, more) := DrainRound(w, s);
    assert more ==> Lower(w, s, t);
    if more then Drain(w, t) else t
  }

  /** One round more or less leaves the drain's outcome the same. */
  lemma DrainStep(w: World, s: Loop)
    requires ValidWorld(w) && Valid(w, s)
    ensures var (t, more) := DrainRound(w, s);
            && Valid(w, t) && (more ==> Lower(w, s, t))
            && Drain(w, s) == if more then Drain(w, t) else t
  {
    hide Valid, DrainRound, Lower;
    DrainRoundSafe(w, s);
  }

  // ------------------------------------------------ commands

  /** States from which Start is refused as busy. */
  predicate Engaged(s: Loop) {
    s.pair.Attempt? || s.snapshot.state in
      {Pairing, RepairingCredentials, Connecting, Online, Degraded, State.Backoff, Stopping}
  }

  /** RetryBlocked, and InputsChanged with a new fingerprint: out of Blocked by the
      way that the recorded failure needs. */
  function LeaveBlocked(w: World, s: Loop, cmd: nat): (Loop, Reply) {
    var failure := s.failures.last;
    var reset := ResetFailureHistory(w, s);
    if failure.kind == CredentialsExpired then (BeginCredentialRepair(w, reset, failure, false), Done)
    else if failure.operation == "pair" then (Publish(reset.(snapshot := reset.snapshot.(state := Unpaired))), Done)
    else StartAndDeferReply(w, reset, cmd)
  }

  function HandleCommand(w: World, s: Loop, cmd: nat, command: Command): (Loop, Reply)
    requires ValidWorld(w) && Valid(w, s)
  {
    match command
    case CommandStart =>
      if Engaged(s) then (s, ErrBusy)
      else if s.snapshot.state == Unpaired then (s, ErrPairingNotAllowed)
      else if s.snapshot.state == Blocked then (s, ErrBlocked)
      else StartAndDeferReply(w, ResetFailureHistory(w, s), cmd)
    case CommandRetryBlocked =>
      if s.snapshot.state != Blocked then (s, ErrBlocked) else LeaveBlocked(w, s, cmd)
    case CommandInputsChanged(fingerprint) =>
      if s.snapshot.state != Blocked then (s, ErrBlocked)
      else if fingerprint == "" || fingerprint == s.snapshot.errorFingerprint then (s, ErrFingerprintUnchanged)
      else LeaveBlocked(w, s, cmd)
    case CommandBeginPairing => BeginPairing(w, s)
    case CommandSync => (Drain(w, s), Done)
  }

  /** The reply goes out now, unless it was deferred. */
  function Acknowledge(w: World, s: Loop, cmd: nat, reply: Reply): Loop {
    var accepted := Emit(w, s.(commands := cmd + 1), Accepted(cmd));
    if reply == Deferred then accepted else Emit(w, accepted, Replied(cmd, reply))
  }

  /** Handles a command received from the channel and answers it, now or later. */
  function Dispatch(w: World, s: Loop, command: Command): Loop
    requires ValidWorld(w) && Valid(w, s)
  {
    var cmd := s.commands;
    var (t, reply) := if w.stopCalled(s.polls) then (Poll(s), ErrStopped) else HandleCommand(w, Poll(s), cmd, command);
    Acknowledge(w, t, cmd, reply)
  }

  // ------------------------------------------------ shutdown

  /** Lifecycle.Start returns a Run that nobody has seen before, or none. */
  function Fresh(s: Loop, run: Option<nat>): Option<nat> {
    if run.Some? && run.value !in s.journal.hist.runs.produced then run else None
  }

  function Produce(w: World, s: Loop, run: Option<nat>): Loop {
    if run.Some? then Emit(w, s, RunProduced(s.snapshot.generation, run.value)) else s
  }

  function Stop(w: World, s: Loop, run: Option<nat>): Loop {
    if run.Some? then Emit(w, s, RunStopped(run.value)) else s
  }

  /** With its context cancelled the start worker stops the run it got, unless it has
      answered already. */
  function AwaitWorker(w: World, s: Loop): Loop {
    match s.worker
    case Dialing =>
      var run := Fresh(s, w.dialed(s.polls).0);
      Stop(w, Produce(w, s.(polls := s.polls + 1, worker := Answered(None, w.dialed(s.polls).1)), run), run)
    case Dialed(run, err) => Stop(w, s.(worker := Answered(None, err)), run)
    case _ => s
  }

  function Finished(s: Loop): Loop {
    Publish(s.(repairing := false, pair := NoPair, pairQueue := [], finished := true,
               snapshot := s.snapshot.(state := Stopped)))
  }

  function Shutdown(w: World, s: Loop): Loop {
    var stopping := Publish(s.(
      timer := NoTimer,
      snapshot := s.snapshot.(state := Stopping, livenessDeadline := ZERO, retryAt := ZERO)));
    var joined := AwaitWorker(w, RetireCurrent(w, stopping));
    var unpaired := if s.pair.Attempt? then Emit(w, joined, PairReturned(s.pairEpoch)) else joined;
    Finished(ResolvePendingStart(w, unpaired, ErrStopped))
  }

  /** What Stop leaves behind. Only a run whose worker had answered may still be live. */
  ghost predicate Final(w: World, s: Loop) {
    var h := s.journal.hist;
    && s.finished && Sound(w.policy, s.journal)
    && s.snapshot.state == Stopped && s.snapshot.retryAt == s.snapshot.livenessDeadline == ZERO
    && s.published == s.snapshot
    && s.timer == NoTimer && s.run == NoRun && s.probe == NoProbe && !s.repairing && s.pair == NoPair
    && !s.gate.active && h.runs.gate == None && h.pairings.attempt == None
    && s.pendingStartReply == None && h.replies.waiting == {}
    && h.runs.live == (if s.worker.Answered? && s.worker.run.Some? then {s.worker.run.value} else {})
  }

  // ------------------------------------------------ the run loop and its environment

  function Select(w: World, s: Loop, choice: Choice): Loop
    requires ValidWorld(w) && Valid(w, s)
  {
    match choice
    case TakeCommand(command) => Dispatch(w, s, command)
    case TakeStart => HandleStartResult(w, s)
    case _ => Receive(w, s, choice)
  }

  /** One round of the run loop. */
  function Iterate(w: World, s: Loop): Loop
    requires ValidWorld(w) && Valid(w, s)
  {
    if w.stopCalled(s.polls) then Shutdown(w, Poll(s))
    else
      PollSafe(w, s);
      var (t, fired) := EnforceDueDeadline(w, Poll(s));
      if fired then t
      else
        EnforceDueDeadlineSafe(w, Poll(s));
        PollSafe(w, t);
        Select(w, Poll(t), w.select(t.polls))
  }

  /** What can happen next: a round of the loop, a step of the start worker, an adapter
      callback that reaches the downstream sink, or an item put on a queue. */
  datatype Input =
    | Round
    | StartReturns(run: Option<nat>, err: Option<Error>)
    | WorkerAnswers
    | Callback(generation: nat)
    | Arrives(arrival: Arrival)

  function StartReturned(w: World, s: Loop, run: Option<nat>, err: Option<Error>): Loop {
    if s.worker != Dialing then s
    else Produce(w, s.(worker := Dialed(Fresh(s, run), err)), Fresh(s, run))
  }

  /** A worker whose context is cancelled stops its run before it answers. */
  function WorkerAnswered(w: World, s: Loop): Loop {
    if !s.worker.Dialed? then s
    else if s.start == TimedOut then Stop(w, s.(worker := Answered(None, s.worker.err)), s.worker.run)
    else s.(worker := Answered(s.worker.run, s.worker.err))
  }

  function CalledBack(w: World, s: Loop, generation: nat): Loop {
    if s.gate == Gate(generation, true) then Emit(w, s, Committed(generation)) else s
  }

  function Step(w: World, s: Loop, input: Input): Loop
    requires ValidWorld(w) && (!s.finished ==> Valid(w, s))
  {
    if s.finished then s
    else
      match input
      case Round => Iterate(w, s)
      case StartReturns(run, err) => StartReturned(w, s, run, err)
      case WorkerAnswers => WorkerAnswered(w, s)
      case Callback(generation) => CalledBack(w, s, generation)
      case Arrives(arrival) => Arrive(s, arrival)
  }

  // ------------------------------------------------ safety of commands

  /** A handled command either left the loop valid, or its reply waits for the first attempt. */
  ghost predicate Handled(w: World, s: Loop, t: Loop, cmd: nat, reply: Reply) {
    && s.polls <= t.polls && s.journal.log <= t.journal.log
    && t.commands == s.commands
    && (reply != Deferred ==> Valid(w, t))
    && (reply == Deferred ==>
          && t.start == Outstanding && t.pendingStartReply == Some(cmd)
          && Settled(w, t.(pendingStartReply := None)))
  }

  lemma ResetSafe(w: World, s: Loop)
    requires ValidWorld(w) && Valid(w, s) && s.pair == NoPair && (s.snapshot.state == Stopped || s.snapshot.state == Blocked)
    ensures var t := ResetFailureHistory(w, s);
            && Detached(w, t) && Continues(s, t) && t.pendingStartReply.None?
            && t.failures == NO_FAILURES && t.polls == s.polls && Wrote(s, t, [HistoryCleared])
            && t.snapshot == s.snapshot.(retryAt := ZERO, errorClass := Unset, errorFingerprint := "")
            && (t.journal.hist.repairs.owed ==> s.snapshot.state == Blocked && s.failures.last.kind == CredentialsExpired)
  {
    hide Note, Sound;
  }

  /** Nothing is left running, and nothing is owed. */
  lemma IdleSafe(w: World, s: Loop, state: State)
    requires ValidWorld(w) && Detached(w, s) && s.pendingStartReply.None? && !s.journal.hist.repairs.owed
    requires state in {Stopped, Blocked, Unpaired}
    ensures w.stopCalled(s.polls) && s.snapshot.state == state ==> Valid(w, s)
    ensures Valid(w, Publish(s.(snapshot := s.snapshot.(state := state))))
  {
    hide Note, Sound;
  }

  /** A first attempt is begun, whose outcome will be the reply, unless Stop was called. */
  ghost predicate AttemptAnswered(w: World, s: Loop, t: Loop, reply: Reply) {
    var generation := s.snapshot.generation + 1;
    if w.stopCalled(s.polls) then reply == ErrStopped && t == Poll(s)
    else
      && reply == Deferred && t.failures == s.failures
      && t.snapshot == Snapshot(Connecting, generation, ZERO, ZERO, ZERO, ZERO, Unset, "")
      && Wrote(s, t, [GateOpened(generation), StartCalled(generation)])
  }

  lemma StartAndDeferReplySafe(w: World, s: Loop, cmd: nat)
    requires ValidWorld(w) && Detached(w, s) && s.pendingStartReply.None? && !s.journal.hist.repairs.owed
    requires s.snapshot.state == Stopped || s.snapshot.state == Blocked
    ensures var (t, reply) := StartAndDeferReply(w, s, cmd);
            && Handled(w, s, t, cmd, reply)
            && AttemptAnswered(w, s, t, reply)
  {
    hide Note, Sound, StartGeneration, Detached, Settled, Valid;
    StartGenerationSafe(w, s);
    var (t, reply) := StartGeneration(w, s);
    if reply == Done {
      assert t.(pendingStartReply := None) == t;
    } else {
      PollDetached(w, s);
      IdleSafe(w, t, s.snapshot.state);
    }
  }

  lemma PollDetached(w: World, s: Loop)
    requires ValidWorld(w) && Detached(w, s)
    ensures Detached(w, Poll(s))
  {
    hide Note, Sound;
  }

  lemma LeaveBlockedSafe(w: World, s: Loop, cmd: nat)
    requires ValidWorld(w) && Valid(w, s) && s.snapshot.state == Blocked
    ensures var (t, reply) := LeaveBlocked(w, s, cmd);
            && Handled(w, s, t, cmd, reply) && LeavesBlocked(w, s, t, reply)
  {
    hide Note, Sound, StartAndDeferReply, Detached, Settled, Valid, BeginCredentialRepair, ResetFailureHistory;
    BlockedIsIdle(w, s);
    ResetSafe(w, s);
    var reset := ResetFailureHistory(w, s);
    if s.failures.last.kind == CredentialsExpired {
      BeginCredentialRepairSafe(w, reset, s.failures.last, false);
      SettledIsValid(w, BeginCredentialRepair(w, reset, s.failures.last, false));
    } else if s.failures.last.operation == "pair" {
      IdleSafe(w, reset, Unpaired);
    } else {
      StartAndDeferReplySafe(w, reset, cmd);
    }
  }

  lemma SettledIsValid(w: World, s: Loop)
    requires Settled(w, s) && s.pendingStartReply.None?
    ensures Valid(w, s)
  {
  }

  lemma BlockedIsIdle(w: World, s: Loop)
    requires Valid(w, s) && (s.snapshot.state == Blocked || s.snapshot.state == Stopped)
    ensures s.pair == NoPair
  {
    hide Note, Sound;
  }

  /** What each command is answered, and what it does when it is admitted; a refused one
      changes nothing. */
  ghost predicate Answers(w: World, s: Loop, t: Loop, command: Command, reply: Reply)
    requires ValidWorld(w) && Valid(w, s)
  {
    var state := s.snapshot.state;
    match command
    case CommandStart =>
      if state == Stopped then FreshAttempt(w, s, t, reply)
      else
        && t == s
        && reply == (if state == Blocked then ErrBlocked
                     else if state == Unpaired && s.pair == NoPair then ErrPairingNotAllowed else ErrBusy)
    case CommandRetryBlocked => if state == Blocked then LeavesBlocked(w, s, t, reply) else reply == ErrBlocked && t == s
    case CommandInputsChanged(fingerprint) =>
      if state != Blocked then reply == ErrBlocked && t == s
      else if fingerprint in {"", s.snapshot.errorFingerprint} then reply == ErrFingerprintUnchanged && t == s
      else LeavesBlocked(w, s, t, reply)
    case CommandBeginPairing => PairingAnswered(w, s, t, reply)
    case CommandSync => reply == Done && t == Drain(w, s)
  }

  /** The failure history is cleared, and a first attempt begun. */
  ghost predicate FreshAttempt(w: World, s: Loop, t: Loop, reply: Reply) {
    exists cleared: Loop ::
      && cleared.failures == NO_FAILURES && cleared.polls == s.polls && Wrote(s, cleared, [HistoryCleared])
      && cleared.snapshot == s.snapshot.(retryAt := ZERO, errorClass := Unset, errorFingerprint := "")
      && AttemptAnswered(w, cleared, t, reply)
  }

  /** Out of Blocked by a repair, back to Unpaired, or by a new first attempt, as the recorded
      failure needs. */
  ghost predicate LeavesBlocked(w: World, s: Loop, t: Loop, reply: Reply) {
    var failure := s.failures.last;
    if failure.kind == CredentialsExpired then
      && reply == Done && t.repairing == w.hasRepairer
      && t.failures == NO_FAILURES.(last := failure, repairFailed := !w.hasRepairer)
      && t.snapshot == s.snapshot.(state := if w.hasRepairer then RepairingCredentials else Blocked, retryAt := ZERO,
                                   errorClass := failure.kind, errorFingerprint := failure.fingerprint)
      && Wrote(s, t, [HistoryCleared] + if w.hasRepairer then [RepairBegun(false)] else [])
    else if failure.operation == "pair" then
      && reply == Done && t.failures == NO_FAILURES && Wrote(s, t, [HistoryCleared])
      && t.snapshot == s.snapshot.(state := Unpaired, retryAt := ZERO, errorClass := Unset, errorFingerprint := "")
    else FreshAttempt(w, s, t, reply)
  }

  lemma HandleCommandSafe(w: World, s: Loop, cmd: nat, command: Command)
    requires ValidWorld(w) && Valid(w, s)
    ensures var (t, reply) := HandleCommand(w, s, cmd, command);
            && Handled(w, s, t, cmd, reply) && Answers(w, s, t, command, reply)
  {
    hide Note, Sound, StartAndDeferReply, Detached, Settled, Valid, ResetFailureHistory, LeaveBlocked, BeginPairing;
    match command
    case CommandStart =>
      if s.snapshot.state == Stopped && s.pair == NoPair {
        ResetSafe(w, s);
        StartAndDeferReplySafe(w, ResetFailureHistory(w, s), cmd);
      } else {
        StatesAreKnown(w, s);
        if s.snapshot.state == Stopped || s.snapshot.state == Blocked { BlockedIsIdle(w, s); }
      }
    case CommandRetryBlocked => if s.snapshot.state == Blocked { LeaveBlockedSafe(w, s, cmd); }
    case CommandInputsChanged(_) => if s.snapshot.state == Blocked { LeaveBlockedSafe(w, s, cmd); }
    case CommandBeginPairing => BeginPairingSafe(w, s);
    case CommandSync =>
  }

  lemma StatesAreKnown(w: World, s: Loop)
    requires Valid(w, s)
    ensures s.snapshot.state != Stopping
  {
    hide Note, Sound;
  }

  /** A command the loop takes up is refused once Stop was called; otherwise its answer is
      sent at once, unless it is deferred to the first attempt it started. */
  ghost predicate Dispatched(w: World, s: Loop, t: Loop, command: Command)
    requires ValidWorld(w) && Valid(w, Poll(s))
  {
    var cmd := s.commands;
    if w.stopCalled(s.polls) then
      Wrote(s, t, [Accepted(cmd), Replied(cmd, ErrStopped)]) && t == Poll(s).(commands := cmd + 1, journal := t.journal)
    else exists u: Loop, answer: Reply ::
      && Answers(w, Poll(s), u, command, answer)
      && t == u.(commands := cmd + 1, journal := t.journal)
      && if answer == Deferred then t.pendingStartReply == Some(cmd) && Wrote(u, t, [Accepted(cmd)])
         else Wrote(u, t, [Accepted(cmd), Replied(cmd, answer)])
  }

  lemma DispatchSafe(w: World, s: Loop, command: Command)
    requires ValidWorld(w) && Valid(w, s)
    ensures var t := Dispatch(w, s, command);
            && Valid(w, t) && s.polls < t.polls && s.journal.log <= t.journal.log
            && Valid(w, Poll(s)) && Dispatched(w, s, t, command)
  {
    hide Note, Sound, HandleCommand, Valid, Settled, Answers, Emit;
    var cmd := s.commands;
    PollSafe(w, s);
    HandleCommandSafe(w, Poll(s), cmd, command);
    var (t, reply) := if w.stopCalled(s.polls) then (Poll(s), ErrStopped) else HandleCommand(w, Poll(s), cmd, command);
    if reply == Deferred { DeferSafe(w, t, cmd); } else { AnswerSafe(w, t, cmd, reply); }
  }

  lemma DeferSafe(w: World, s: Loop, cmd: nat)
    requires ValidWorld(w) && Settled(w, s.(pendingStartReply := None))
    requires s.start == Outstanding && s.pendingStartReply == Some(cmd)
    requires cmd == s.commands
    ensures var t := Emit(w, s.(commands := cmd + 1), Accepted(cmd));
            && Valid(w, t) && t == s.(commands := cmd + 1, journal := t.journal)
            && Wrote(s, t, [Accepted(cmd)])
  {
    hide Note, Sound;
  }

  lemma AnswerSafe(w: World, s: Loop, cmd: nat, reply: Reply)
    requires ValidWorld(w) && Valid(w, s) && cmd == s.commands
    ensures var t := Emit(w, Emit(w, s.(commands := cmd + 1), Accepted(cmd)), Replied(cmd, reply));
            && Valid(w, t) && t == s.(commands := cmd + 1, journal := t.journal)
            && Wrote(s, t, [Accepted(cmd), Replied(cmd, reply)])
  {
    hide Note, Sound;
  }

  // ------------------------------------------------ safety of shutdown

  /** Nothing of the connection is left but a start worker. */
  ghost predicate Draining(w: World, s: Loop) {
    && Logged(w, s, Held(s)) && s.run == NoRun && s.probe == NoProbe && s.timer == NoTimer && !s.gate.active
    && s.snapshot.retryAt == s.snapshot.livenessDeadline == ZERO
  }

  lemma DisconnectSafe(w: World, s: Loop)
    requires ValidWorld(w) && Valid(w, s)
    ensures var t := RetireCurrent(w, Publish(s.(
              timer := NoTimer,
              snapshot := s.snapshot.(state := Stopping, livenessDeadline := ZERO, retryAt := ZERO))));
            && Draining(w, t) && Continues(s, t) && t.pair == s.pair && t.pairEpoch == s.pairEpoch
            && t.pendingStartReply == s.pendingStartReply
  {
    hide Note, Sound;
  }

  ghost predicate Awaited(w: World, s: Loop, t: Loop) {
    && Draining(w, t) && s.polls <= t.polls && s.journal.log <= t.journal.log
    && t == s.(polls := t.polls, worker := t.worker, journal := t.journal)
    && !t.worker.Dialing? && !t.worker.Dialed?
  }

  lemma AwaitDialedSafe(w: World, s: Loop)
    requires ValidWorld(w) && Draining(w, s) && s.worker.Dialed?
    ensures Awaited(w, s, AwaitWorker(w, s))
  {
    hide Note, Sound;
  }

  lemma AwaitDialingSafe(w: World, s: Loop)
    requires ValidWorld(w) && Draining(w, s) && s.worker.Dialing?
    ensures Awaited(w, s, AwaitWorker(w, s))
  {
    hide Note, Sound;
  }

  lemma AwaitWorkerSafe(w: World, s: Loop)
    requires ValidWorld(w) && Draining(w, s)
    ensures Awaited(w, s, AwaitWorker(w, s))
  {
    hide Note, Sound, Draining;
    match s.worker
    case Dialing => AwaitDialingSafe(w, s);
    case Dialed(_, _) => AwaitDialedSafe(w, s);
    case _ =>
  }

  lemma FinishSafe(w: World, s: Loop)
    requires ValidWorld(w) && Draining(w, s) && !s.worker.Dialing? && !s.worker.Dialed?
    ensures var unpaired := if s.pair.Attempt? then Emit(w, s, PairReturned(s.pairEpoch)) else s;
            var t := Finished(ResolvePendingStart(w, unpaired, ErrStopped));
            && Final(w, t) && s.journal.log <= t.journal.log && s.polls <= t.polls
            && Informed(s, t, ErrStopped)
  {
    hide Note, Sound;
  }

  lemma RetireKeepsWorker(w: World, s: Loop)
    ensures RetireCurrent(w, s).worker == s.worker && RetireCurrent(w, s).polls == s.polls
  {
    hide Note;
  }

  lemma AwaitedWorker(w: World, s: Loop)
    ensures AwaitWorker(w, s).worker ==
              match s.worker
              case Dialing => Answered(None, w.dialed(s.polls).1)
              case Dialed(_, err) => Answered(None, err)
              case _ => s.worker
  {
    hide Note;
  }

  /** Retiring the connection leaves the start worker alone; awaiting it stops the run of
      a worker that has not answered, and no other. */
  lemma WorkerAtStop(w: World, s: Loop)
    ensures Shutdown(w, s).worker ==
              match s.worker
              case Dialing => Answered(None, w.dialed(s.polls).1)
              case Dialed(_, err) => Answered(None, err)
              case _ => s.worker
  {
    hide Note, RetireCurrent, AwaitWorker;
    var stopping := Publish(s.(
      timer := NoTimer,
      snapshot := s.snapshot.(state := Stopping, livenessDeadline := ZERO, retryAt := ZERO)));
    RetireKeepsWorker(w, stopping);
    AwaitedWorker(w, RetireCurrent(w, stopping));
  }

  /** A run that the start worker has answered with, while nobody has looked. */
  function Unread(s: Loop): set<nat> {
    if s.worker.Answered? && s.worker.run.Some? then {s.worker.run.value} else {}
  }

  lemma ShutdownSafe(w: World, s: Loop)
    requires ValidWorld(w) && Valid(w, s)
    ensures var t := Shutdown(w, s);
            && Final(w, t) && s.journal.log <= t.journal.log && s.polls <= t.polls
            && Informed(s, t, ErrStopped)
            && t.journal.hist.runs.live == Unread(s)
  {
    hide Note, Sound, Valid, Draining, RetireCurrent, AwaitWorker, ResolvePendingStart;
    WorkerAtStop(w, s);
    var stopping := Publish(s.(
      timer := NoTimer,
      snapshot := s.snapshot.(state := Stopping, livenessDeadline := ZERO, retryAt := ZERO)));
    DisconnectSafe(w, s);
    AwaitWorkerSafe(w, RetireCurrent(w, stopping));
    FinishSafe(w, AwaitWorker(w, RetireCurrent(w, stopping)));
  }

  // ------------------------------------------------ safety of every step and every run

  /** What is done with what the select found. */
  ghost predicate Selected(w: World, s: Loop, t: Loop, choice: Choice)
    requires ValidWorld(w) && Valid(w, Poll(s))
  {
    match choice
    case TakeCommand(command) => Dispatched(w, s, t, command)
    case TakeStart => StartHandled(w, s, t)
    case _ => ReceivedAs(w, s, t, choice)
  }

  lemma SelectReceiveSafe(w: World, s: Loop, choice: Choice)
    requires ValidWorld(w) && Valid(w, s) && Valid(w, Poll(s)) && !choice.TakeCommand? && !choice.TakeStart?
    ensures var t := Select(w, s, choice);
            && Valid(w, t) && s.polls <= t.polls && s.journal.log <= t.journal.log
            && Selected(w, s, t, choice)
  {
    hide Note, Sound, Valid, Receive, ReceivedAs, CanReceive, Rank;
    ReceiveSafe(w, s, choice);
  }

  lemma SelectSafe(w: World, s: Loop, choice: Choice)
    requires ValidWorld(w) && Valid(w, s)
    ensures var t := Select(w, s, choice);
            && Valid(w, t) && s.polls <= t.polls && s.journal.log <= t.journal.log
            && Valid(w, Poll(s)) && Selected(w, s, t, choice)
  {
    hide Note, Sound, Valid, Receive, HandleStartResult, Dispatch, Dispatched, StartHandled, ReceivedAs, ValidWorld;
    PollSafe(w, s);
    match choice
    case TakeCommand(command) => DispatchSafe(w, s, command);
    case TakeStart => HandleStartResultSafe(w, s);
    case _ => hide Select, Selected; SelectReceiveSafe(w, s, choice);
  }

  /** The invariant of the whole run: valid until Stop is through, final from then on. */
  ghost predicate Good(w: World, s: Loop) {
    if s.finished then Final(w, s) else Valid(w, s)
  }

  /** One round: Stop, or else a due deadline, or else what the select finds. */
  ghost predicate Rounded(w: World, s: Loop, t: Loop)
    requires ValidWorld(w) && Valid(w, s)
  {
    var checked := Poll(s);
    var waited := checked.(polls := checked.polls + if checked.timer.Armed? then 1 else 0);
    if w.stopCalled(s.polls) then
      Final(w, t) && Informed(s, t, ErrStopped) && t.journal.hist.runs.live == Unread(s)
    else if Due(w, checked) then Fired(w, checked, t)
    else Valid(w, Poll(Poll(waited))) && Selected(w, Poll(waited), t, w.select(waited.polls))
  }

  lemma IterateSafe(w: World, s: Loop)
    requires ValidWorld(w) && Valid(w, s)
    ensures var t := Iterate(w, s);
            && Good(w, t) && t.finished == w.stopCalled(s.polls) && Rounded(w, s, t)
            && s.journal.log <= t.journal.log && s.polls < t.polls
  {
    hide Note, Sound, Valid, Final, EnforceDueDeadline, Select, Shutdown, Fired, Selected, Due;
    PollSafe(w, s);
    if w.stopCalled(s.polls) {
      ShutdownSafe(w, Poll(s));
      FinalIsFinished(w, Shutdown(w, Poll(s)));
    } else {
      EnforceDueDeadlineSafe(w, Poll(s));
      var (t, fired) := EnforceDueDeadline(w, Poll(s));
      PollSafe(w, t);
      if fired { FiredIsValid(w, Poll(s), t); ValidIsRunning(w, t); }
      else {
        PollSafe(w, Poll(t));
        SelectSafe(w, Poll(t), w.select(t.polls));
        ValidIsRunning(w, Select(w, Poll(t), w.select(t.polls)));
      }
    }
  }

  lemma FiredIsValid(w: World, s: Loop, t: Loop)
    requires ValidPolicy(w.policy) && Fired(w, s, t)
    ensures Valid(w, t)
  {
    hide Valid;
  }

  lemma FinalIsFinished(w: World, s: Loop)
    requires Final(w, s)
    ensures s.finished
  {
  }

  lemma ValidIsRunning(w: World, s: Loop)
    requires Valid(w, s)
    ensures !s.finished
  {
  }

  /** What each input does: a run that Lifecycle.Start returned goes to its worker, which
      stops it if the attempt timed out and answers with it otherwise; a callback commits
      exactly through an open gate. */
  ghost predicate Stepped(w: World, s: Loop, t: Loop, input: Input)
    requires ValidWorld(w) && Valid(w, s)
  {
    match input
    case Round => Rounded(w, s, t)
    case StartReturns(run, err) =>
      if s.worker != Dialing then t == s
      else
        var dialed := Fresh(s, run);
        && t == s.(worker := Dialed(dialed, err), journal := t.journal)
        && Wrote(s, t, if dialed.Some? then [RunProduced(s.snapshot.generation, dialed.value)] else [])
    case WorkerAnswers =>
      if !s.worker.Dialed? then t == s
      else
        var (late, run) := (s.start == TimedOut, s.worker.run);
        && t == s.(worker := Answered(if late then None else run, s.worker.err), journal := t.journal)
        && Wrote(s, t, if late && run.Some? then [RunStopped(run.value)] else [])
    case Callback(generation) =>
      && t == s.(journal := t.journal)
      && Wrote(s, t, if s.gate.active && s.gate.generation == generation then [Committed(generation)] else [])
    case Arrives(arrival) => Arrived(s, t, arrival)
  }

  lemma StartReturnedSafe(w: World, s: Loop, run: Option<nat>, err: Option<Error>)
    requires ValidWorld(w) && Valid(w, s)
    ensures var t := StartReturned(w, s, run, err);
            && Valid(w, t) && s.journal.log <= t.journal.log
            && Stepped(w, s, t, StartReturns(run, err))
  {
    StartReturnedStepped(w, s, run, err);
    if s.worker == Dialing {
      WorkerIsInDial(w, s);
      StartReturnedLogged(w, s, run, err);
    }
    hide Note, Sound, Stepped, Logged, InIdle, InPairing, InBackoff, InRepair, InHandshake, InOnline, InDegraded;
  }

  lemma StartReturnedLogged(w: World, s: Loop, run: Option<nat>, err: Option<Error>)
    requires ValidWorld(w) && Logged(w, s, Held(s)) && InDial(s) && s.worker == Dialing
    ensures var t := StartReturned(w, s, run, err);
            && Logged(w, t, Held(t)) && s.journal.log <= t.journal.log
            && t == s.(worker := t.worker, journal := t.journal) && t.worker.Dialed?
            && t.journal.hist == s.journal.hist.(runs := t.journal.hist.runs)
            && t.journal.hist.runs.lastSign == s.journal.hist.runs.lastSign
  {
    hide Note, Sound;
  }

  lemma WorkerIsInDial(w: World, s: Loop)
    requires Valid(w, s) && s.worker != NoWorker
    ensures InDial(s) && SignsKnown(w, s)
  {
    hide Note, Sound, Logged;
  }

  lemma StartReturnedStepped(w: World, s: Loop, run: Option<nat>, err: Option<Error>)
    requires ValidWorld(w) && Valid(w, s)
    ensures Stepped(w, s, StartReturned(w, s, run, err), StartReturns(run, err))
  {
    hide Note, Valid, ValidWorld, Rounded;
  }

  lemma WorkerAnsweredSafe(w: World, s: Loop)
    requires ValidWorld(w) && Valid(w, s)
    ensures var t := WorkerAnswered(w, s);
            && Valid(w, t) && s.journal.log <= t.journal.log
            && Stepped(w, s, t, WorkerAnswers)
  {
    WorkerStepped(w, s);
    if s.worker.Dialed? { WorkerIsInDial(w, s); }
    hide Note, Sound, Stepped, InIdle, InPairing, InBackoff, InRepair, InHandshake, InOnline, InDegraded;
  }

  lemma WorkerStepped(w: World, s: Loop)
    requires ValidWorld(w) && Valid(w, s)
    ensures Stepped(w, s, WorkerAnswered(w, s), WorkerAnswers)
  {
    hide Note, Valid, ValidWorld, Rounded;
  }

  lemma CalledBackSafe(w: World, s: Loop, generation: nat)
    requires ValidWorld(w) && Valid(w, s)
    ensures var t := CalledBack(w, s, generation);
            && Valid(w, t) && s.journal.log <= t.journal.log && Stepped(w, s, t, Callback(generation))
  {
    hide Note, Sound;
  }

  lemma StepSafe(w: World, s: Loop, input: Input)
    requires ValidWorld(w) && Good(w, s)
    ensures var t := Step(w, s, input);
            && Good(w, t) && s.journal.log <= t.journal.log
            && if s.finished then t == s else Stepped(w, s, t, input)
  {
    hide Note, Sound, Valid, Final, Iterate, StartReturned, WorkerAnswered, CalledBack, Arrive, Rounded;
    if !s.finished {
      match input
      case Round => IterateSafe(w, s);
      case StartReturns(run, err) => StartReturnedSafe(w, s, run, err); ValidIsRunning(w, Step(w, s, input));
      case WorkerAnswers => WorkerAnsweredSafe(w, s); ValidIsRunning(w, Step(w, s, input));
      case Callback(generation) => CalledBackSafe(w, s, generation); ValidIsRunning(w, Step(w, s, input));
      case Arrives(arrival) => ArriveSafe(w, s, arrival); ValidIsRunning(w, Step(w, s, input));
    }
  }

  lemma InitialSafe(w: World, state: State)
    requires ValidWorld(w) && (state == Stopped || state == Unpaired)
    ensures Valid(w, Initial(state))
  {
  }

  /** The state after any inputs, from the start of the supervisor. */
  function Run(w: World, state: State, inputs: seq<Input>): (s: Loop)
    requires ValidWorld(w) && (state == Stopped || state == Unpaired)
    ensures Good(w, s)
  {
    if inputs == [] then
      InitialSafe(w, state);
      ValidIsRunning(w, Initial(state));
      Initial(state)
    else
      var before := Run(w, state, inputs[..|inputs| - 1]);
      StepSafe(w, before, inputs[|inputs| - 1]);
      Step(w, before, inputs[|inputs| - 1])
  }
}
