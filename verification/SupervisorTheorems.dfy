/** What holds of every run of the account supervisor, in every world: any clock that
    does not run backwards, any order in which channels become ready, any adapter. */
module SupervisorTheorems {
  import opened Bridge
  import opened Backoff
  import opened SupervisorLog
  import opened SupervisorModel
  import opened SupervisorSafety
  import opened SupervisorRun

  /** The effects of a whole run. */
  function Effects(w: World, state: State, inputs: seq<Input>): seq<Event>
    requires ValidWorld(w) && (state == Stopped || state == Unpaired)
  {
    Run(w, state, inputs).journal.log
  }

  /** Every effect of every run obeyed its rule when it happened. */
  lemma EveryRunIsLawful(w: World, state: State, inputs: seq<Input>)
    requires ValidWorld(w) && (state == Stopped || state == Unpaired)
    ensures Accepts(w.policy, Effects(w, state, inputs))
    ensures Replay(Effects(w, state, inputs)) == Run(w, state, inputs).journal.hist
  {
    hide Run, Sound, Accepts, Replay;
    var s := Run(w, state, inputs);
    GoodIsSound(w, s);
    SoundIsAccepted(w.policy, s.journal);
  }

  lemma GoodIsSound(w: World, s: Loop)
    requires Good(w, s)
    ensures Sound(w.policy, s.journal)
  {
    hide Sound;
  }

  /** Run exclusivity: when a generation starts, each earlier Run has been stopped
      exactly once, and no Run is ever stopped twice. */
  lemma RunExclusivity(w: World, state: State, inputs: seq<Input>, i: nat, j: nat, run: nat)
    requires ValidWorld(w) && (state == Stopped || state == Unpaired)
    ensures var log := Effects(w, state, inputs);
            && (i < j < |log| && log[i].RunProduced? && log[j].StartCalled? ==> StopCount(log, j, log[i].run) == 1)
            && (i < j < |log| && log[i].StartCalled? && log[j].StartCalled? ==> log[i].gen < log[j].gen)
            && StopCount(log, |log|, run) <= 1
  {
    hide Effects, Accepts, Replay, StopCount;
    var log := Effects(w, state, inputs);
    EveryRunIsLawful(w, state, inputs);
    StoppedAtMostOnce(w.policy, log, run);
    if i < j < |log| && log[j].StartCalled? {
      if log[i].RunProduced? { StartsAreExclusive(w.policy, log, i, j); }
      if log[i].StartCalled? { GenerationsIncrease(w.policy, log, i, j); }
    }
  }

  /** Nothing is committed downstream for a generation whose gate was closed, and a
      probe starts only after LivenessTimeout of silence. */
  lemma GateAndSilence(w: World, state: State, inputs: seq<Input>, i: nat, j: nat)
    requires ValidWorld(w) && (state == Stopped || state == Unpaired)
    ensures var log := Effects(w, state, inputs);
            i < j < |log| ==>
              && (log[i].GateClosed? ==> log[j] != Committed(log[i].gen))
              && (log[i].Alive? && log[j].ProbeBegun? && log[j].gen == log[i].gen ==>
                    log[i].at + w.policy.livenessTimeout <= log[j].at)
  {
    hide Effects, Accepts, Replay;
    var log := Effects(w, state, inputs);
    EveryRunIsLawful(w, state, inputs);
    if i < j < |log| {
      if log[i].GateClosed? { NoCommitAfterClose(w.policy, log, i, j); }
      if log[i].Alive? && log[j].ProbeBegun? && log[j].gen == log[i].gen { ProbeOnlyAfterSilence(w.policy, log, i, j); }
    }
  }

  /** Repair before reconnect, whatever commands arrive; and a streak of failures with
      one fingerprint begins at most MaxSameFingerprint - 1 automatic repairs. */
  lemma RepairDiscipline(w: World, state: State, inputs: seq<Input>, i: nat, j: nat)
    requires ValidWorld(w) && (state == Stopped || state == Unpaired)
    ensures var log := Effects(w, state, inputs);
            i < j <= |log| && log[i].Failed? ==>
              && (log[i].kind == CredentialsExpired && j < |log| && log[j].StartCalled? ==>
                    exists m :: i < m < j && log[m] == RepairReturned(true))
              && (log[i].kind != Transient && log[i].fingerprint != "" && OneStreak(log, i, j, log[i].fingerprint) ==>
                    AutomaticRepairs(log, i, j) <= w.policy.maxSameFingerprint - 1)
  {
    hide Effects, Accepts, Replay, OneStreak, AutomaticRepairs;
    var log := Effects(w, state, inputs);
    EveryRunIsLawful(w, state, inputs);
    if i < j <= |log| && log[i].Failed? {
      if log[i].kind == CredentialsExpired && j < |log| && log[j].StartCalled? {
        RepairBeforeReconnect(w.policy, log, i, j);
      }
      if log[i].kind != Transient && log[i].fingerprint != "" && OneStreak(log, i, j, log[i].fingerprint) {
        RepairBudget(w.policy, log, i, j);
      }
    }
  }

  /** Pairing is single flight, waits out a limit, and a closed attempt pairs nobody. */
  lemma PairingDiscipline(w: World, state: State, inputs: seq<Input>, i: nat, j: nat)
    requires ValidWorld(w) && (state == Stopped || state == Unpaired)
    ensures var log := Effects(w, state, inputs);
            i < j < |log| ==>
              && (log[i].PairBegun? && (log[j].PairBegun? || log[j].StartCalled?) ==>
                    exists m :: i < m < j && log[m] == PairReturned(log[i].epoch))
              && (log[i].PairLimited? && log[j].PairBegun? ==> log[i].until <= log[j].at)
              && (log[i].PairClosed? ==> log[j] != PairedUp(log[i].epoch))
  {
    hide Effects, Accepts, Replay;
    var log := Effects(w, state, inputs);
    EveryRunIsLawful(w, state, inputs);
    if i < j < |log| {
      if log[i].PairBegun? && (log[j].PairBegun? || log[j].StartCalled?) { PairingIsSingleFlight(w.policy, log, i, j); }
      if log[i].PairLimited? && log[j].PairBegun? { PairingWaitsForLimit(w.policy, log, i, j); }
      if log[i].PairClosed? { ClosedAttemptNeverPairs(w.policy, log, i, j); }
    }
  }

  /** Exactly one reply per accepted command: while the loop runs, all but the one
      deferred reply are out, and a deferred reply means that a start is outstanding in
      Connecting; after Stop none is left. */
  lemma RepliesExactlyOnce(w: World, state: State, inputs: seq<Input>, cmd: nat)
    requires ValidWorld(w) && (state == Stopped || state == Unpaired)
    ensures var s := Run(w, state, inputs);
            var log := Effects(w, state, inputs);
            && ReplyCount(log, |log|, cmd) ==
                 (if Accepted(cmd) in log && s.pendingStartReply != Some(cmd) then 1 else 0)
            && (s.pendingStartReply.Some? ==> !s.finished && s.start != NoStart && s.snapshot.state == Connecting)
  {
    hide Run, Accepts, Replay, ReplyCount;
    var s := Run(w, state, inputs);
    var log := Effects(w, state, inputs);
    EveryRunIsLawful(w, state, inputs);
    AnsweredOnce(w.policy, log, cmd);
    DebtsAreDeferred(w, s);
  }

  /** The commands still owed a reply are the deferred ones. */
  lemma DebtsAreDeferred(w: World, s: Loop)
    requires Good(w, s)
    ensures var h := s.journal.hist.replies;
            && h.waiting == (if s.pendingStartReply.Some? then {s.pendingStartReply.value} else {})
            && (s.pendingStartReply.Some? ==> !s.finished && s.start != NoStart && s.snapshot.state == Connecting)
  {
    hide Sound;
  }

  // ------------------------------------------------ no stuck state

  /** What each state keeps alive: a timer or an outstanding worker in every state that
      is not idle (until Stop), neither in an idle one. */
  predicate OnDuty(w: World, s: Loop) {
    var still := s.timer == NoTimer && s.start == NoStart && s.run == NoRun && s.probe == NoProbe && !s.repairing;
    match s.snapshot.state
    case Stopped => still && s.pair == NoPair && !s.gate.active
    case Blocked => still && s.pair == NoPair && !s.gate.active
    case Unpaired => still && (s.pair.Attempt? ==> s.pair.expired) && !s.gate.active
    case Pairing => s.pair.Attempt? && !s.pair.expired && !s.gate.active
    case Connecting =>
      && (s.start != NoStart <==> s.worker != NoWorker)
      && (s.start != TimedOut ==> s.timer == Armed(ConnectDeadline, s.connectDeadline))
      && (s.gate.active <==> s.start != TimedOut)
      && (s.start == NoStart ==> s.run.Running?)
    case Online =>
      && s.run.Running? && s.gate.active
      && s.timer.Armed? && s.timer.purpose == LivenessCheck
      && s.timer.deadline <= s.snapshot.livenessDeadline == LastSign(s) + w.policy.livenessTimeout
    case Degraded => s.run.Running? && s.gate.active && s.probe.Probing?
    case Backoff =>
      !s.gate.active && (w.stopCalled(s.polls) || (s.timer.Armed? && s.timer.purpose == BackoffWait && s.snapshot.retryAt <= s.timer.deadline))
    case RepairingCredentials => !s.gate.active && (w.stopCalled(s.polls) || s.repairing)
    case Stopping => false
  }

  lemma NoStuckState(w: World, state: State, inputs: seq<Input>)
    requires ValidWorld(w) && (state == Stopped || state == Unpaired)
    ensures var s := Run(w, state, inputs);
            && (if s.finished then Final(w, s) else InState(w, s) && OnDuty(w, s))
            && (s.gate.active ==> s.gate.generation == s.snapshot.generation)
            && (s.published == s.snapshot || w.stopCalled(s.polls))
  {
    hide Run;
    GoodIsOnDuty(w, Run(w, state, inputs));
  }

  lemma GoodIsOnDuty(w: World, s: Loop)
    requires Good(w, s)
    ensures !s.finished ==> InState(w, s) && OnDuty(w, s)
    ensures s.gate.active ==> s.gate.generation == s.snapshot.generation
    ensures s.published == s.snapshot || w.stopCalled(s.polls)
  {
    hide Sound;
  }

  // ------------------------------------------------ routing and deadlines

  /** The failure would be the MaxSameFingerprint-th in a row, by the log alone. */
  predicate CircuitFull(p: Policy, log: seq<Event>, failure: OpError) {
    failure.fingerprint != "" && InARow(log, |log|, failure.fingerprint) + 1 >= p.maxSameFingerprint
  }

  /** The cap of the next wait, by the transient failures in the log. */
  function NextCap(p: Policy, log: seq<Event>): Duration
    requires ValidPolicy(p)
  {
    CapSpec(p.minBackoff, p.maxBackoff, TransientTries(log, |log|) + 1)
  }

  /** Wherever a failure is routed, the log of the run decides the outcome: the circuit opens
      exactly on the MaxSameFingerprint-th failure in a row with one fingerprint, and the cap
      of the wait grows with the transient failures since the history was cleared. */
  lemma RoutedByHistory(w: World, s: Loop, t: Loop, failure: OpError)
    requires ValidWorld(w) && Sound(w.policy, s.journal) && RoutedTo(w, s, t, failure)
    requires s.journal.hist.repairs.streak == s.failures.sameFingerprint
    requires s.journal.hist.repairs.length == s.failures.sameFailureCount
    requires s.journal.hist.repairs.transients == s.failures.transientAttempt
    ensures var log := s.journal.log;
            var (p, state) := (w.policy, t.snapshot.state);
            match failure.kind
            case AccountUnpaired => state == Unpaired
            case Transient | Unset | Unrecognized =>
              if 0 <= w.random(s.polls) < NextCap(p, log) then
                && state == State.Backoff && t.timer == Armed(BackoffWait, t.snapshot.retryAt)
                && Now(w, Poll(s)) <= t.snapshot.retryAt < Now(w, Poll(s)) + NextCap(p, log)
              else state == Blocked
            case RateLimited =>
              if CircuitFull(p, log, failure) then state == Blocked
              else state == State.Backoff && t.snapshot.retryAt == failure.retryAt
            case CredentialsExpired =>
              if !CircuitFull(p, log, failure) && w.hasRepairer then state == RepairingCredentials && t.repairing
              else state == Blocked
            case _ => state == Blocked
  {
    hide CapSpec, Remembered;
    SoundIsAccepted(w.policy, s.journal);
    FailuresAreCounted(s.journal.log, |s.journal.log|, if failure.fingerprint != "" then failure.fingerprint else "x");
  }

  /** However often transient failures repeat, the supervisor's own timeouts among them, with
      a jitter source that keeps its contract the account goes to Backoff, until less than the
      exponential cap after the clock reading that follows the draw. */
  lemma TransientAlwaysRetries(w: World, s: Loop, failure: OpError)
    requires ValidWorld(w) && Detached(w, s) && !s.journal.hist.repairs.owed
    requires failure in {CONNECT_TIMEOUT_FAILURE, PROBE_TIMEOUT_FAILURE} || failure.kind in {Transient, Unset, Unrecognized}
    requires 0 <= w.random(s.polls) < NextCap(w.policy, s.journal.log)
    ensures var (t, cap) := (RouteFailure(w, s, failure), NextCap(w.policy, s.journal.log));
            && t.snapshot.state == State.Backoff
            && Now(w, Poll(s)) <= t.snapshot.retryAt < Now(w, Poll(s)) + cap
            && t.timer == Armed(BackoffWait, t.snapshot.retryAt)
  {
    hide Sound, Note, RouteFailure, Settled, NextCap, RoutedTo;
    RouteFailureSafe(w, s, failure);
    RoutedByHistory(w, s, RouteFailure(w, s, failure), failure);
  }

  /** A first attempt that fails for expired credentials is repaired before anything else,
      unless the circuit is full or nobody can repair, and its caller is told that class. */
  lemma ExpiredStartIsRepaired(w: World, s: Loop, op: OpError)
    requires ValidWorld(w) && Valid(w, s) && s.start == Outstanding && s.worker.Answered?
    requires s.worker.err == Some(Wrapped(op)) && op.kind == CredentialsExpired && op.fingerprint != ""
    ensures var t := HandleStartResult(w, s);
            && t.snapshot.state ==
                 (if w.hasRepairer && !CircuitFull(w.policy, s.journal.log, op) then RepairingCredentials else Blocked)
            && t.snapshot.errorClass == CredentialsExpired && t.snapshot.errorFingerprint == op.fingerprint
            && exists failure: OpError ::
                 && failure.kind == CredentialsExpired && failure.fingerprint == op.fingerprint
                 && Informed(s, t, ErrFirstAttempt(failure))
  {
    hide Sound, Note, HandleStartResult, CircuitFull, InState, Informed;
    HandleStartResultSafe(w, s);
    RoutedByHistory(w, s, HandleStartResult(w, s), StartFailure(s));
    SameFingerprint(w.policy, s.journal.log, StartFailure(s), op);
  }

  lemma SameFingerprint(p: Policy, log: seq<Event>, a: OpError, b: OpError)
    requires a.fingerprint == b.fingerprint
    ensures CircuitFull(p, log, a) == CircuitFull(p, log, b)
  {
  }

  /** Where the source drops the error of startGeneration, after a repair or a wait, it
      can only be that the supervisor is stopping. */
  lemma DroppedStartErrorIsStop(w: World, s: Loop)
    requires ValidWorld(w) && Valid(w, s)
    ensures s.snapshot.state == State.Backoff && Due(w, s) ==>
              var waited := Poll(ClearTimer(Poll(s)));
              var (t, reply) := StartGeneration(w, waited);
              && EnforceDueDeadline(w, s).0 == (if w.stopCalled(s.polls + 1) then waited else t)
              && reply == if w.stopCalled(s.polls + 2) then ErrStopped else Done
    ensures s.repairing ==>
              var repaired := Emit(w, s.(repairing := false), RepairReturned(true)).(
                failures := s.failures.(repairFailed := false));
              var (t, reply) := StartGeneration(w, repaired);
              && HandleRepairResult(w, s, s.repairEpoch, None) == t
              && reply == if w.stopCalled(s.polls) then ErrStopped else Done
  {
    if s.snapshot.state == State.Backoff && Due(w, s) { WaitStartSafe(w, s); }
    if s.repairing { RepairStartSafe(w, s); }
  }

  lemma WaitStartSafe(w: World, s: Loop)
    requires ValidWorld(w) && Valid(w, s) && s.snapshot.state == State.Backoff && Due(w, s)
    ensures var waited := Poll(ClearTimer(Poll(s)));
            var (t, reply) := StartGeneration(w, waited);
            && EnforceDueDeadline(w, s).0 == (if w.stopCalled(s.polls + 1) then waited else t)
            && reply == if w.stopCalled(s.polls + 2) then ErrStopped else Done
  {
    hide Sound, Note, StartGeneration;
    StartGenerationSafe(w, Poll(ClearTimer(Poll(s))));
  }

  lemma RepairStartSafe(w: World, s: Loop)
    requires ValidWorld(w) && Valid(w, s) && s.repairing
    ensures var repaired := Emit(w, s.(repairing := false), RepairReturned(true)).(
              failures := s.failures.(repairFailed := false));
            var (t, reply) := StartGeneration(w, repaired);
            && HandleRepairResult(w, s, s.repairEpoch, None) == t
            && reply == if w.stopCalled(s.polls) then ErrStopped else Done
  {
    hide Sound, Note, StartGeneration;
    StartGenerationSafe(w, Emit(w, s.(repairing := false), RepairReturned(true)).(
      failures := s.failures.(repairFailed := false)));
  }

  /** At most two deadlines fire in a row without time advancing: if three do, the third
      one read a later clock than the first. */
  lemma AtMostTwoDeadlines(w: World, s: Loop)
    requires ValidWorld(w) && Valid(w, s)
    ensures var (a, first) := EnforceDueDeadline(w, s);
            var (b, second) := EnforceDueDeadline(w, a);
            var (c, third) := EnforceDueDeadline(w, b);
            first && second && third ==> Now(w, s) < Now(w, b)
  {
    hide Sound, Note, EnforceDueDeadline, Valid, Rank;
    EnforceDueDeadlineSafe(w, s);
    var (a, first) := EnforceDueDeadline(w, s);
    EnforceDueDeadlineSafe(w, a);
    var (b, second) := EnforceDueDeadline(w, a);
    EnforceDueDeadlineSafe(w, b);
  }

  // ------------------------------------------------ what Stop leaves behind

  /** When Stop is through, a Run is still live exactly if the start worker had answered
      with it before Stop and nobody had looked: that Run, and no other. Here a worker has
      answered once it is past its look at the context; the send that follows never blocks. */
  lemma StopLeavesRunIff(w: World, s: Loop)
    requires ValidWorld(w) && Valid(w, s)
    ensures Shutdown(w, s).journal.hist.runs.live != {} <==> s.worker.Answered? && s.worker.run.Some?
    ensures s.worker.Answered? && s.worker.run.Some? ==> Shutdown(w, s).journal.hist.runs.live == {s.worker.run.value}
  {
    hide Shutdown, Valid, Final;
    ShutdownSafe(w, s);
  }

  /** A Start is the first thing found, and Stop is called right after it was handled. */
  ghost predicate Hasty(w: World) {
    && ValidWorld(w) && w.select(1) == TakeCommand(CommandStart)
    && !w.stopCalled(0) && !w.stopCalled(2) && !w.stopCalled(3) && w.stopCalled(5)
  }

  lemma HastyWorld() returns (w: World)
    ensures Hasty(w)
  {
    w := World(Policy(1, 1, 1, 1, 1, 1, 1), false, false,
               (i: nat) => 1, (i: nat) => 5 <= i, (i: nat) => 0, (i: nat) => TakeCommand(CommandStart),
               (i: nat) => NoArrival, (i: nat) => (None, None), 0);
  }

  lemma FirstRound(w: World, s: Loop)
    requires Hasty(w) && Valid(w, s) && s.polls == 0 && s.timer == NoTimer
    ensures Valid(w, Poll(Poll(s))) && Iterate(w, s) == Dispatch(w, Poll(Poll(s)), CommandStart)
  {
    hide Dispatch, Valid, Note;
    PollSafe(w, s);
    PollSafe(w, Poll(s));
  }

  lemma FirstStart(w: World, s: Loop)
    requires Hasty(w) && Valid(w, s) && s.polls == 2 && s.snapshot.state == Stopped && s.pair == NoPair && s.run == NoRun && s.start == NoStart
    ensures var t := Dispatch(w, s, CommandStart);
            && t.worker == Dialing && t.start == Outstanding && t.polls == 5 && t.finished == s.finished
            && t.journal.hist.runs.produced == s.journal.hist.runs.produced
  {
    PollSafe(w, s);
    hide Note, Sound, Valid, ValidWorld, LeaveBlocked, BeginPairing, Drain, Due, CanReceive;
  }

  /** The first round takes up the Start: its worker dials, and no Run exists yet. */
  lemma HastyStart(w: World)
    requires Hasty(w) && Valid(w, Initial(Stopped))
    ensures var t := Iterate(w, Initial(Stopped));
            && t.worker == Dialing && t.start == Outstanding && t.polls == 5 && !t.finished
            && t.journal.hist.runs.produced == {}
  {
    FirstRound(w, Initial(Stopped));
    FirstStart(w, Poll(Poll(Initial(Stopped))));
    hide Valid, Iterate, Dispatch, ValidWorld, Note;
  }

  /** A start worker that gets a new Run in time answers with it. */
  lemma WorkerBringsRun(w: World, s: Loop, run: nat)
    requires s.worker == Dialing && s.start == Outstanding && run !in s.journal.hist.runs.produced
    ensures var t := WorkerAnswered(w, StartReturned(w, s, Some(run), None));
            t.worker == Answered(Some(run), None) && t.polls == s.polls && t.finished == s.finished
    ensures StartReturned(w, s, Some(run), None).finished == s.finished
  {
    hide Note;
  }

  /** The round that finds Stop called ends the run; a Run in the worker's answer stays. */
  lemma StopsNow(w: World, s: Loop)
    requires ValidWorld(w) && Good(w, s) && !s.finished && w.stopCalled(s.polls)
    requires s.worker.Answered? && s.worker.run.Some?
    ensures Step(w, s, Round).finished && Step(w, s, Round).journal.hist.runs.live == {s.worker.run.value}
  {
    hide Note, Sound, Shutdown, Valid, Final;
    PollSafe(w, s);
    IterateSafe(w, s);
    StopLeavesRunIff(w, Poll(s));
  }

  lemma AfterFirstRound(w: World)
    requires Hasty(w)
    ensures var s := Run(w, Stopped, [Round]);
            && !s.finished && s.worker == Dialing && s.start == Outstanding && s.polls == 5
            && s.journal.hist.runs.produced == {}
  {
    InitialSafe(w, Stopped);
    HastyStart(w);
    assert Run(w, Stopped, []) == Initial(Stopped);
    assert [Round][..0] == [];
    hide Note, Valid, Final, Iterate, ValidWorld;
  }

  lemma AnswerThenStop(w: World)
    requires Hasty(w)
    ensures var t := Run(w, Stopped, [Round] + [StartReturns(Some(7), None)] + [WorkerAnswers] + [Round]);
            t.finished && t.journal.hist.runs.live == {7}
  {
    hide Note, Valid, Final, Iterate, StartReturned, WorkerAnswered, Run, ValidWorld;
    var returned := [Round] + [StartReturns(Some(7), None)];
    AfterFirstRound(w);
    WorkerBringsRun(w, Run(w, Stopped, [Round]), 7);
    RunThen(w, [Round], StartReturns(Some(7), None));
    RunThen(w, returned, WorkerAnswers);
    RunThen(w, returned + [WorkerAnswers], Round);
    StopsNow(w, Run(w, Stopped, returned + [WorkerAnswers]));
  }

  /** Such a run: a Start is admitted, Lifecycle.Start returns a Run, its worker answers,
      and Stop comes before the loop takes the answer. */
  lemma StopCanLeaveRun()
    ensures exists w, inputs ::
              ValidWorld(w) && Run(w, Stopped, inputs).finished && Run(w, Stopped, inputs).journal.hist.runs.live == {7}
  {
    var w := HastyWorld();
    hide Note, Valid, Final, Run;
    AnswerThenStop(w);
  }

  lemma RunThen(w: World, inputs: seq<Input>, input: Input)
    requires ValidWorld(w)
    ensures Good(w, Run(w, Stopped, inputs))
    ensures Run(w, Stopped, inputs + [input]) == Step(w, Run(w, Stopped, inputs), input)
  {
    hide Step, Valid, Final;
    assert (inputs + [input])[..|inputs + [input]| - 1] == inputs;
  }
}
