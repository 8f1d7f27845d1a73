/** The run loop of internal/bridge/supervisor.go as an object whose methods update its
    fields in place. Each method is proved to compute the function of the same name in
    SupervisorModel, so everything proved of those functions holds of this object. */
module Supervisor {
  import opened Bridge
  import Backoff
  import opened SupervisorLog
  import opened SupervisorModel
  import opened SupervisorSafety
  import opened SupervisorRun
  import M = SupervisorModel
  import R = SupervisorRun

  class SupervisorLoop {
    /** Clock, stop flag, random source and channels, and how often they were asked. */
    const world: World
    var polls: nat
    var activityQueue: seq<Activity>
    var pairQueue: seq<PairEvent>
    var worker: StartWorker

    var snapshot: Snapshot
    var published: Snapshot
    var timer: Timer

    /** How many commands were taken up; a command's number names its response channel. */
    var commands: nat
    var start: StartSlot
    var pendingStartReply: Option<nat>
    var run: RunSlot
    var connectDeadline: Time
    var livenessBaseline: Time

    var failures: Failures
    var probe: ProbeSlot
    var repairEpoch: nat
    var repairing: bool
    var pairEpoch: nat
    var pair: PairSlot
    var gate: Gate
    var finished: bool
    ghost var journal: Journal

    ghost function View(): Loop
      reads this
    {
      Loop(polls, activityQueue, pairQueue, worker, snapshot, published, timer, commands, start, pendingStartReply, run,
           connectDeadline, livenessBaseline, failures, probe, repairEpoch, repairing, pairEpoch, pair, gate, finished, journal)
    }

    constructor (w: World, state: State)
      requires state == Stopped || state == Unpaired
      ensures world == w && View() == Initial(state)
    {
      world := w;
      polls, activityQueue, pairQueue, worker := 0, [], [], NoWorker;
      snapshot := Snapshot(state, 0, ZERO, ZERO, ZERO, ZERO, Unset, "");
      published := Snapshot(state, 0, ZERO, ZERO, ZERO, ZERO, Unset, "");
      timer, commands, start, pendingStartReply, run := NoTimer, 0, NoStart, None, NoRun;
      connectDeadline, livenessBaseline := ZERO, ZERO;
      failures := NO_FAILURES;
      probe, repairEpoch, repairing, pairEpoch, pair := NoProbe, 0, false, 0, NoPair;
      gate, finished, journal := Gate(0, false), false, BLANK;
    }

    // ---------------------------------------------- small steps

    method Now() returns (now: Time)
      modifies this
      ensures View() == Poll(old(View())) && now == M.Now(world, old(View()))
    {
      hide Note, Advance, Sound;
      now := world.clock(polls);
      polls := polls + 1;
    }

    method Stopping() returns (stop: bool)
      modifies this
      ensures View() == Poll(old(View())) && stop == world.stopCalled(old(polls))
    {
      hide Note, Advance, Sound;
      stop := world.stopCalled(polls);
      polls := polls + 1;
    }

    ghost method Record(e: Event)
      modifies this
      ensures View() == Emit(world, old(View()), e)
    {
      hide Note, Advance, Sound;
      journal := Note(world.policy, journal, e);
    }

    method Publish()
      modifies this
      ensures View() == M.Publish(old(View()))
    {
      hide Note, Advance, Sound;
      published := snapshot;
    }

    method ClearTimer()
      modifies this
      ensures View() == M.ClearTimer(old(View()))
    {
      hide Note, Advance, Sound;
      timer := NoTimer;
    }

    method ReplaceTimer(purpose: TimerPurpose, deadline: Time)
      modifies this
      ensures View() == old(View()).(timer := Armed(purpose, deadline))
    {
      timer := Armed(purpose, deadline);
    }

    /** The fence lets the callbacks of this generation through. */
    method Activate(generation: nat)
      modifies this
      ensures View() == Emit(world, old(View()).(gate := Gate(generation, true)), GateOpened(generation))
    {
      hide Note, Advance, Sound;
      gate := Gate(generation, true);
      Record(GateOpened(generation));
    }

    method InstallRun(id: nat)
      modifies this
      ensures View() == old(View()).(run := Running(id, true))
    {
      run := Running(id, true);
    }

    /** clearGenerationContext: the generation's context is cancelled, its gate closed. */
    method ClearGenerationContext()
      modifies this
      ensures View() == Deactivate(world, old(View()))
    {
      hide Note, Advance, Sound;
      if gate.active && gate.generation == snapshot.generation {
        gate := gate.(active := false);
        Record(GateClosed(gate.generation));
      }
    }

    method RetireCurrent()
      modifies this
      ensures View() == M.RetireCurrent(world, old(View()))
    {
      hide Note, Advance, Sound;
      probe := NoProbe;
      ClearGenerationContext();
      if run.Running? {
        ghost var id := run.id;
        run := NoRun;
        Record(RunStopped(id));
      }
    }

    method ResetFailureHistory()
      modifies this
      ensures View() == M.ResetFailureHistory(world, old(View()))
    {
      hide Note, Advance, Sound;
      failures := NO_FAILURES;
      snapshot := snapshot.(retryAt := ZERO, errorClass := Unset, errorFingerprint := "");
      Record(HistoryCleared);
    }

    /** Counts a failure, and says whether the circuit opens. */
    method RecordFingerprint(kind: FailureClass, fingerprint: string) returns (opens: bool)
      modifies this
      ensures View() == old(View()).(failures := failures)
      ensures failures == if kind == Transient then old(failures) else Recorded(old(failures), kind, fingerprint)
      ensures opens == Opens(world.policy, old(failures), kind, fingerprint)
    {
      hide Note, Advance, Sound;
      if kind == Transient {
        return false;
      }
      if fingerprint == "" {
        failures := failures.(sameFingerprint := "", sameFailureCount := 0);
        return false;
      }
      if fingerprint == failures.sameFingerprint {
        failures := failures.(sameFailureCount := failures.sameFailureCount + 1);
      } else {
        failures := failures.(sameFingerprint := fingerprint, sameFailureCount := 1);
      }
      return failures.sameFailureCount >= world.policy.maxSameFingerprint;
    }

    method ResolvePendingStart(answer: Reply)
      modifies this
      ensures View() == M.ResolvePendingStart(world, old(View()), answer)
    {
      hide Note, Advance, Sound;
      if pendingStartReply.Some? {
        ghost var cmd := pendingStartReply.value;
        pendingStartReply := None;
        Record(Replied(cmd, answer));
      }
    }

    // ---------------------------------------------- generations and repairs

    method ArmConnectDeadline(started: Time)
      modifies this
      ensures var deadline := started + world.policy.connectTimeout;
              View() == old(View()).(connectDeadline := deadline, livenessBaseline := started,
                                     timer := Armed(ConnectDeadline, deadline))
    {
      connectDeadline := started + world.policy.connectTimeout;
      livenessBaseline := started;
      ReplaceTimer(ConnectDeadline, connectDeadline);
    }

    method OpenGeneration(started: Time)
      modifies this
      ensures View() == M.OpenGeneration(world, old(View()), started)
    {
      hide Note, Advance, Sound;
      var generation := snapshot.generation + 1;
      snapshot := Snapshot(Connecting, generation, ZERO, ZERO, ZERO, ZERO, Unset, "");
      ArmConnectDeadline(started);
      Publish();
      Activate(generation);
    }

    method StartGeneration() returns (reply: Reply)
      modifies this
      ensures (View(), reply) == M.StartGeneration(world, old(View()))
    {
      hide Note, Advance, Sound, M.OpenGeneration;
      var stop := Stopping();
      if stop {
        return ErrStopped;
      }
      if run.Running? || start != NoStart {
        return ErrBusy;
      }
      var now := Now();
      OpenGeneration(now);
      start := Outstanding;
      worker := Dialing;
      Record(StartCalled(snapshot.generation));
      return Done;
    }

    method StartAndDeferReply(cmd: nat) returns (reply: Reply)
      modifies this
      ensures (View(), reply) == M.StartAndDeferReply(world, old(View()), cmd)
    {
      hide Note, Advance, Sound;
      reply := StartGeneration();
      if reply == Done {
        pendingStartReply := Some(cmd);
        reply := Deferred;
      }
    }

    method BeginCredentialRepair(failure: OpError, ghost automatic: bool)
      modifies this
      ensures View() == M.BeginCredentialRepair(world, old(View()), failure, automatic)
    {
      hide Note, Advance, Sound;
      ClearTimer();
      snapshot := snapshot.(state := RepairingCredentials, retryAt := ZERO,
                            errorClass := failure.kind, errorFingerprint := failure.fingerprint);
      failures := failures.(last := failure, repairFailed := false);
      Publish();
      if !world.hasRepairer {
        failures := failures.(repairFailed := true);
        snapshot := snapshot.(state := Blocked);
        Publish();
        return;
      }
      repairEpoch := repairEpoch + 1;
      repairing := true;
      Record(RepairBegun(automatic));
    }

    method HandleRepairResult(epoch: nat, err: Option<Error>)
      modifies this
      ensures View() == M.HandleRepairResult(world, old(View()), epoch, err)
    {
      hide Note, Advance, Sound;
      if !repairing || epoch != repairEpoch {
        return;
      }
      repairing := false;
      Record(RepairReturned(err.None?));
      if snapshot.state != RepairingCredentials {
        return;
      }
      if err.Some? {
        failures := failures.(repairFailed := true);
        Park();
        return;
      }
      failures := failures.(repairFailed := false);
      var _ := StartGeneration();
    }

    // ---------------------------------------------- failures

    /** Full jitter below `cap`; none from a source that breaks its contract. */
    method DrawJitter(cap: Duration) returns (delay: Option<Duration>)
      modifies this
      ensures View() == Poll(old(View()))
      ensures var draw := world.random(old(View()).polls);
              delay == if 0 <= draw < cap then Some(draw) else None
    {
      var draw := world.random(polls);
      polls := polls + 1;
      if draw < 0 || draw >= cap {
        return None;
      }
      return Some(draw);
    }

    method EnterBackoff(retryAt: Time, deadline: Time)
      modifies this
      ensures var snapshot := old(View()).snapshot.(state := State.Backoff, retryAt := retryAt);
              View() == old(View()).(snapshot := snapshot, published := snapshot, timer := Armed(BackoffWait, deadline))
    {
      snapshot := snapshot.(state := State.Backoff, retryAt := retryAt);
      ReplaceTimer(BackoffWait, deadline);
      Publish();
    }

    method CountTransient() returns (attempt: nat)
      modifies this
      ensures var s := old(View());
              && attempt == s.failures.transientAttempt + 1
              && View() == s.(failures := s.failures.(transientAttempt := attempt))
    {
      attempt := failures.transientAttempt + 1;
      failures := failures.(transientAttempt := attempt);
    }

    method BlockJitter()
      modifies this
      ensures var s := old(View());
              View() == M.Publish(s.(snapshot := s.snapshot.(
                state := Blocked, errorClass := Misconfigured, errorFingerprint := "invalid_jitter_source")))
    {
      snapshot := snapshot.(state := Blocked, errorClass := Misconfigured, errorFingerprint := "invalid_jitter_source");
      Publish();
    }

    method BackOff()
      requires ValidPolicy(world.policy)
      modifies this
      ensures View() == M.BackOff(world, Counted(old(View()), Transient))
    {
      hide Note, Advance, Sound, Backoff.CapSpec, View;
      var attempt := CountTransient();
      var cap := Backoff.BackoffCap(world.policy.minBackoff, world.policy.maxBackoff, attempt);
      var delay := DrawJitter(cap);
      if delay.None? {
        BlockJitter();
        return;
      }
      var now := Now();
      EnterBackoff(now + delay.value, now + delay.value);
    }

    method WaitForRateLimit(retryAt: Time)
      modifies this
      ensures View() == M.WaitForRateLimit(world, old(View()), retryAt)
    {
      hide Note, Advance, Sound;
      var deadline := retryAt;
      var now := Now();
      if deadline < now {
        deadline := Now();
      }
      EnterBackoff(retryAt, deadline);
    }

    method Park()
      modifies this
      ensures View() == M.Park(old(View()))
    {
      snapshot := snapshot.(state := Blocked);
      Publish();
    }

    method EnterUnpaired(failure: OpError)
      modifies this
      ensures View() == M.EnterUnpaired(world, old(View()), failure)
    {
      hide Note, Advance, Sound;
      ResetFailureHistory();
      failures := failures.(last := failure);
      snapshot := snapshot.(errorClass := failure.kind, errorFingerprint := failure.fingerprint, state := Unpaired);
      Publish();
    }

    /** The state in which a transient failure has been counted. */
    static function Counted(s: Loop, kind: FailureClass): Loop {
      if kind != Transient then s
      else s.(failures := s.failures.(transientAttempt := s.failures.transientAttempt + 1))
    }

    /** The failures that the circuit lets through. */
    method Retry(f: OpError)
      requires ValidPolicy(world.policy)
      modifies this
      ensures View() ==
                if f.kind == Transient then M.BackOff(world, Counted(old(View()), Transient))
                else if f.kind == RateLimited then M.WaitForRateLimit(world, old(View()), f.retryAt)
                else if f.kind == CredentialsExpired then M.BeginCredentialRepair(world, old(View()), f, true)
                else M.Park(old(View()))
    {
      hide *;
      match f.kind
      case Transient => BackOff();
      case RateLimited => WaitForRateLimit(f.retryAt);
      case CredentialsExpired => BeginCredentialRepair(f, true);
      case _ => Park();
    }

    method RouteFailure(failure: OpError)
      requires ValidPolicy(world.policy)
      modifies this
      ensures View() == M.RouteFailure(world, old(View()), failure)
    {
      hide Note, Advance, Sound, M.BackOff, M.WaitForRateLimit, M.BeginCredentialRepair, M.EnterUnpaired;
      var f := failure.(kind := Routed(failure.kind));
      snapshot := snapshot.(errorClass := f.kind, errorFingerprint := f.fingerprint,
                            retryAt := ZERO, livenessDeadline := ZERO);
      var opens := RecordFingerprint(f.kind, f.fingerprint);
      failures := failures.(last := f);
      Record(Failed(f.kind, f.fingerprint));
      assert Counted(View(), f.kind) == NoteFailure(world, old(View()), f);
      if f.kind == AccountUnpaired {
        EnterUnpaired(f);
      } else if opens {
        Park();
      } else {
        Retry(f);
      }
    }

    // ---------------------------------------------- one connection

    method HandleConnectTimeout()
      requires ValidPolicy(world.policy)
      modifies this
      ensures View() == M.HandleConnectTimeout(world, old(View()))
    {
      hide Note, Advance, Sound, M.RouteFailure, M.RetireCurrent;
      if snapshot.state != Connecting {
        return;
      }
      ClearTimer();
      if start != NoStart {
        start := TimedOut;
        ClearGenerationContext();
        return;
      }
      if run == NoRun {
        return;
      }
      RetireCurrent();
      RouteFailure(CONNECT_TIMEOUT_FAILURE);
    }

    method TakeAnswer()
      modifies this
      ensures View() == old(View()).(start := NoStart, worker := NoWorker)
    {
      start := NoStart;
      worker := NoWorker;
    }

    /** A run that comes too late is stopped; its gate is closed already or now. */
    method AbandonRun(result: Option<nat>)
      modifies this
      ensures View() == Deactivate(world, R.Stop(world, old(View()), result))
    {
      hide Note, Advance, Sound, Deactivate;
      if result.Some? {
        Record(RunStopped(result.value));
      }
      ClearGenerationContext();
    }

    method HandleStartResult()
      requires ValidPolicy(world.policy)
      modifies this
      ensures View() == M.HandleStartResult(world, old(View()))
    {
      hide Note, Advance, Sound, M.RouteFailure, M.RetireCurrent, M.HandleConnectTimeout, M.ResolvePendingStart, ClassifyFailure;
      if start == NoStart || !worker.Answered? {
        return;
      }
      var answer := worker;
      var timedOut := start == TimedOut;
      TakeAnswer();
      if timedOut {
        AbandonRun(answer.run);
        RouteFailure(CONNECT_TIMEOUT_FAILURE);
        ResolvePendingStart(ErrFirstAttempt(CONNECT_TIMEOUT_FAILURE));
        return;
      }
      if answer.err.Some? {
        if answer.run.Some? {
          InstallRun(answer.run.value);
        }
        ClearTimer();
        RetireCurrent();
        var failure := ClassifyFailure(answer.err.value, "start", "start_failed");
        RouteFailure(failure);
        ResolvePendingStart(ErrFirstAttempt(failure));
        return;
      }
      if answer.run.None? {
        ClearTimer();
        ClearGenerationContext();
        RouteFailure(NIL_RUN_FAILURE);
        ResolvePendingStart(ErrFirstAttempt(NIL_RUN_FAILURE));
        return;
      }
      InstallRun(answer.run.value);
      var now := Now();
      if now >= connectDeadline {
        HandleConnectTimeout();
        ResolvePendingStart(ErrFirstAttempt(CONNECT_TIMEOUT_FAILURE));
        return;
      }
      ResolvePendingStart(Done);
    }

    method HandleRunDone(err: Option<Error>)
      requires ValidPolicy(world.policy)
      modifies this
      ensures View() == M.HandleRunDone(world, old(View()), err)
    {
      hide Note, Advance, Sound, M.RouteFailure, M.RetireCurrent, M.HandleConnectTimeout, ClassifyFailure;
      if run == NoRun {
        return;
      }
      if snapshot.state == Connecting {
        var now := Now();
        if now >= connectDeadline {
          HandleConnectTimeout();
          return;
        }
      }
      ClearTimer();
      RetireCurrent();
      RouteFailure(ClassifyFailure(if err.Some? then err.value else Plain, "run", "run_completed"));
    }

    method RefreshLivenessDeadline()
      modifies this
      ensures View() == M.RefreshLivenessDeadline(world, old(View()))
    {
      var baseline := livenessBaseline;
      if snapshot.lastEventAt > baseline {
        baseline := snapshot.lastEventAt;
      }
      if snapshot.lastProbeOKAt > baseline {
        baseline := snapshot.lastProbeOKAt;
      }
      snapshot := snapshot.(livenessDeadline := baseline + world.policy.livenessTimeout);
    }

    method ScheduleLivenessCheck()
      modifies this
      ensures View() == M.ScheduleLivenessCheck(world, old(View()))
    {
      if snapshot.state != Online {
        return;
      }
      var now := Now();
      var next := now + world.policy.probeEvery;
      if snapshot.livenessDeadline < next {
        next := snapshot.livenessDeadline;
      }
      ReplaceTimer(LivenessCheck, next);
    }

    method Reschedule()
      modifies this
      ensures View() == M.Reschedule(world, old(View()))
    {
      hide M.RefreshLivenessDeadline, M.ScheduleLivenessCheck;
      RefreshLivenessDeadline();
      ScheduleLivenessCheck();
    }

    method EnterOnline(baseline: Time)
      modifies this
      ensures var s := old(View());
              View() == Emit(world, s.(snapshot := s.snapshot.(
                state := Online, retryAt := ZERO, errorClass := Unset, errorFingerprint := "")),
                Alive(s.snapshot.generation, baseline))
    {
      hide Note, Advance, Sound;
      snapshot := snapshot.(state := Online, retryAt := ZERO, errorClass := Unset, errorFingerprint := "");
      Record(Alive(snapshot.generation, baseline));
    }

    method GoOnline(baseline: Time)
      requires run.Running?
      modifies this
      ensures var s := old(View());
              View() == Emit(world, s.(
                run := s.run.(ready := false), timer := NoTimer, livenessBaseline := baseline,
                snapshot := s.snapshot.(state := Online, retryAt := ZERO, errorClass := Unset, errorFingerprint := "")),
                Alive(s.snapshot.generation, baseline))
    {
      hide Note, Advance, Sound;
      run := run.(ready := false);
      ClearTimer();
      livenessBaseline := baseline;
      EnterOnline(baseline);
    }

    method HandleReady(alsoDone: Option<Option<Error>>)
      requires ValidPolicy(world.policy)
      modifies this
      ensures View() == M.HandleReady(world, old(View()), alsoDone)
    {
      hide Note, Advance, Sound, M.HandleRunDone, M.HandleConnectTimeout, M.Reschedule, Emit;
      if run == NoRun {
        return;
      }
      if snapshot.state != Connecting {
        run := run.(ready := false);
        return;
      }
      if alsoDone.Some? {
        HandleRunDone(alsoDone.value);
        return;
      }
      var now := Now();
      if now >= connectDeadline {
        HandleConnectTimeout();
        return;
      }
      var baseline := Now();
      GoOnline(baseline);
      Reschedule();
      Publish();
    }

    method ShowLife(seen: Snapshot, at: Time)
      modifies this
      ensures View() == M.ShowLife(world, old(View()), seen, at)
    {
      hide Note, Advance, Sound, M.ResetFailureHistory;
      Record(Alive(snapshot.generation, at));
      snapshot := seen;
      ResetFailureHistory();
    }

    method HandleActivity(activity: Activity)
      modifies this
      ensures View() == M.HandleActivity(world, old(View()), activity)
    {
      hide Note, Advance, Sound, M.ShowLife, M.Reschedule;
      if activity.generation != snapshot.generation || run == NoRun {
        return;
      }
      var now := Now();
      var at := ClampActivityTime(activity.at, now);
      var seen := snapshot;
      if activity.kind == EventActivity {
        if at > seen.lastEventAt {
          seen := seen.(lastEventAt := at);
        }
      } else if at > seen.lastProbeOKAt {
        seen := seen.(lastProbeOKAt := at);
      }
      ShowLife(seen, at);
      if snapshot.state == Online {
        Reschedule();
      }
      Publish();
    }

    method AwaitProbe(started: Time)
      modifies this
      ensures View() == old(View()).(snapshot := old(snapshot).(state := Degraded), probe := Probing(started, false))
    {
      snapshot := snapshot.(state := Degraded);
      probe := Probing(started, false);
    }

    method BeginProbe()
      modifies this
      ensures View() == M.BeginProbe(world, old(View()))
    {
      hide Note, Advance, Sound;
      if run == NoRun || snapshot.state != Online || probe != NoProbe {
        return;
      }
      var started := Now();
      AwaitProbe(started);
      ReplaceTimer(ProbeDeadline, started + world.policy.probeTimeout);
      Record(ProbeBegun(snapshot.generation, started));
      Publish();
    }

    method ProbeAlive(aliveAt: Time, started: Time)
      modifies this
      ensures View() == M.ProbeAlive(world, old(View()), aliveAt, started)
    {
      hide Note, Advance, Sound, M.ShowLife, M.Reschedule;
      var now := Now();
      var at := ClampActivityTime(aliveAt, now);
      if at < started {
        at := started;
      }
      var seen := snapshot;
      if at > seen.lastProbeOKAt {
        seen := seen.(lastProbeOKAt := at);
      }
      ShowLife(seen, at);
      snapshot := snapshot.(state := Online);
      Reschedule();
      Publish();
    }

    method HandleProbeResult(generation: nat, aliveAt: Time, err: Option<Error>)
      requires ValidPolicy(world.policy)
      modifies this
      ensures View() == M.HandleProbeResult(world, old(View()), generation, aliveAt, err)
    {
      hide Note, Advance, Sound, M.ShowLife, M.Reschedule, M.RouteFailure, M.RetireCurrent, ClassifyFailure, M.ProbeAlive;
      if probe == NoProbe || generation != snapshot.generation {
        return;
      }
      var taken := probe;
      probe := NoProbe;
      ClearTimer();
      if taken.timedOut {
        RetireCurrent();
        RouteFailure(PROBE_TIMEOUT_FAILURE);
        return;
      }
      if err.Some? {
        RetireCurrent();
        RouteFailure(ClassifyFailure(err.value, "probe", "probe_failed"));
        return;
      }
      if run == NoRun || snapshot.state != Degraded {
        return;
      }
      ProbeAlive(aliveAt, taken.started);
    }

    // ---------------------------------------------- pairing

    method EnterPairing()
      modifies this
      ensures var s := old(View());
              View() == M.Publish(s.(timer := NoTimer, pairEpoch := s.pairEpoch + 1, pair := Attempt(false, ZERO), pairQueue := [],
                snapshot := s.snapshot.(state := Pairing, retryAt := ZERO, errorClass := Unset, errorFingerprint := "")))
    {
      ClearTimer();
      snapshot := snapshot.(state := Pairing, retryAt := ZERO, errorClass := Unset, errorFingerprint := "");
      Publish();
      pairEpoch := pairEpoch + 1;
      pair := Attempt(false, ZERO);
      pairQueue := [];
    }

    method BeginPairing() returns (reply: Reply)
      modifies this
      ensures (View(), reply) == M.BeginPairing(world, old(View()))
    {
      hide Note, Advance, Sound;
      if !world.hasPairer {
        return ErrPairerUnavailable;
      }
      if pair.Attempt? {
        return ErrPairingInProgress;
      }
      if snapshot.state != Unpaired {
        return ErrPairingNotAllowed;
      }
      var now := Now();
      if snapshot.retryAt != ZERO && now < snapshot.retryAt {
        return ErrPairingRateLimited;
      }
      EnterPairing();
      Record(PairBegun(pairEpoch, now));
      return Done;
    }

    /** Back to Unpaired with the attempt still draining. */
    method ClosePairing(closed: PairSlot, next: Snapshot)
      modifies this
      ensures var s := old(View());
              View() == Emit(world, s.(timer := NoTimer, pair := closed, snapshot := next), PairClosed(s.pairEpoch))
    {
      hide Note, Advance, Sound;
      ClearTimer();
      pair := closed;
      Record(PairClosed(pairEpoch));
      snapshot := next;
    }

    method ExpirePairing()
      modifies this
      ensures View() == M.ExpirePairing(world, old(View()))
    {
      hide Note, Advance, Sound;
      if pair == NoPair || snapshot.state != Pairing {
        return;
      }
      ClosePairing(pair.(expired := true),
                   snapshot.(state := Unpaired, retryAt := ZERO, errorClass := Unset, errorFingerprint := ""));
      Publish();
    }

    method BlockPairing(event: PairEvent)
      modifies this
      ensures View() == M.BlockPairing(world, old(View()), event)
    {
      hide Note, Advance, Sound;
      ClosePairing(Attempt(true, ZERO),
                   snapshot.(state := Unpaired, retryAt := event.expiresAt,
                             errorClass := RateLimited, errorFingerprint := event.message));
      Record(PairLimited(event.expiresAt));
      Publish();
    }

    method HandlePairEvent(epoch: nat, event: PairEvent)
      modifies this
      ensures View() == M.HandlePairEvent(world, old(View()), epoch, event)
    {
      hide Note, Advance, Sound, M.BlockPairing;
      if pair == NoPair || epoch != pairEpoch || snapshot.state != Pairing {
        return;
      }
      if event.kind == AttemptBlocked {
        BlockPairing(event);
        return;
      }
      if (event.kind == Qr || event.kind == Code) && event.expiresAt != ZERO {
        pair := pair.(expiresAt := event.expiresAt);
        var now := Now();
        if now >= pair.expiresAt {
          ExpirePairing();
          return;
        }
        ReplaceTimer(PairExpiry, event.expiresAt);
      }
    }

    method TakePairing()
      modifies this
      ensures View() == old(View()).(pair := NoPair, pairQueue := [], timer := NoTimer)
    {
      pair := NoPair;
      pairQueue := [];
      ClearTimer();
    }

    method LeavePairing(failure: OpError, next: State, retryAt: Time)
      modifies this
      ensures var s := old(View());
              View() == s.(failures := s.failures.(last := failure),
                           snapshot := s.snapshot.(errorClass := failure.kind, errorFingerprint := failure.fingerprint,
                                                   retryAt := retryAt, state := next))
    {
      failures := failures.(last := failure);
      snapshot := snapshot.(errorClass := failure.kind, errorFingerprint := failure.fingerprint,
                            retryAt := retryAt, state := next);
    }

    method FailPairing(failure: OpError, ghost returned: Event)
      modifies this
      ensures View() == M.FailPairing(world, old(View()), failure, returned)
    {
      hide Note, Advance, Sound, View;
      if failure.kind == RateLimited {
        LeavePairing(failure, Unpaired, failure.retryAt);
        Record(PairLimited(failure.retryAt));
      } else if NeedsUser(failure.kind) {
        LeavePairing(failure, Blocked, ZERO);
      } else {
        LeavePairing(failure, Unpaired, ZERO);
      }
      Record(returned);
      Publish();
    }

    method JudgePairing()
      requires pair.Attempt?
      modifies this
      ensures View() == M.JudgePairing(world, old(View()))
    {
      if pair.expiresAt != ZERO {
        var now := Now();
        if now >= pair.expiresAt {
          ExpirePairing();
        }
      }
    }

    method FinishPairing(err: Option<Error>)
      requires pair.Attempt?
      modifies this
      ensures View() == M.FinishPairing(world, old(View()), err)
    {
      hide Note, Advance, Sound, M.FailPairing, ClassifyFailure;
      ghost var returned := PairReturned(pairEpoch);
      var expired := pair.expired;
      TakePairing();
      if expired {
        if snapshot.state == Pairing {
          snapshot := snapshot.(state := Unpaired);
          Publish();
        }
        Record(returned);
        return;
      }
      if err.None? {
        Record(PairedUp(pairEpoch));
        snapshot := snapshot.(state := Stopped, retryAt := ZERO, errorClass := Unset, errorFingerprint := "");
        Record(returned);
        Publish();
        return;
      }
      FailPairing(ClassifyFailure(err.value, "pair", "pair_failed"), returned);
    }

    method HandlePairResult(epoch: nat, err: Option<Error>)
      modifies this
      ensures View() == M.HandlePairResult(world, old(View()), epoch, err)
    {
      hide Note, Advance, Sound, M.JudgePairing, M.FinishPairing;
      if pair == NoPair || epoch != pairEpoch {
        return;
      }
      JudgePairing();
      FinishPairing(err);
    }

    // ---------------------------------------------- deadlines and receives

    method FireDeadline(purpose: TimerPurpose)
      requires ValidPolicy(world.policy)
      modifies this
      ensures View() == M.FireDeadline(world, old(View()), purpose)
    {
      hide Note, Advance, Sound, M.HandleConnectTimeout, M.BeginProbe, M.ScheduleLivenessCheck, M.StartGeneration, M.ExpirePairing;
      match purpose
      case ConnectDeadline => HandleConnectTimeout();
      case LivenessCheck =>
        if snapshot.state == Online {
          var now := Now();
          if now >= snapshot.livenessDeadline {
            BeginProbe();
          } else {
            ScheduleLivenessCheck();
          }
        }
      case BackoffWait =>
        if snapshot.state == State.Backoff {
          var stop := Stopping();
          if !stop {
            var _ := StartGeneration();
          }
        }
      case ProbeDeadline =>
        if probe.Probing? && snapshot.state == Degraded {
          probe := probe.(timedOut := true);
        }
      case PairExpiry =>
        if pair.Attempt? && pair.expiresAt != ZERO {
          var now := Now();
          if now >= pair.expiresAt {
            ExpirePairing();
          }
        }
    }

    method EnforceDueDeadline() returns (fired: bool)
      requires ValidPolicy(world.policy)
      modifies this
      ensures (View(), fired) == M.EnforceDueDeadline(world, old(View()))
    {
      hide Note, Advance, Sound, M.FireDeadline;
      if timer == NoTimer || timer.deadline == ZERO {
        return false;
      }
      var now := Now();
      if now < timer.deadline {
        return false;
      }
      var purpose := timer.purpose;
      ClearTimer();
      FireDeadline(purpose);
      return true;
    }

    method Receive(choice: Choice)
      requires ValidPolicy(world.policy)
      modifies this
      ensures View() == M.Receive(world, old(View()), choice)
    {
      hide Note, Advance, Sound, M.HandleActivity, M.HandleReady, M.HandleRunDone, M.HandleProbeResult,
        M.HandleRepairResult, M.HandlePairEvent, M.HandlePairResult;
      match choice
      case TakeActivity =>
        if activityQueue != [] {
          var activity := activityQueue[0];
          activityQueue := activityQueue[1..];
          HandleActivity(activity);
        }
      case TakeReady(alsoDone) =>
        if run.Running? && run.ready {
          HandleReady(alsoDone);
        }
      case TakeDone(err) =>
        if run.Running? {
          HandleRunDone(err);
        }
      case TakeProbe(generation, aliveAt, err) => HandleProbeResult(generation, aliveAt, err);
      case TakeRepair(epoch, err) => HandleRepairResult(epoch, err);
      case TakePairEvent =>
        if pairQueue != [] {
          var event := pairQueue[0];
          pairQueue := pairQueue[1..];
          HandlePairEvent(pairEpoch, event);
        }
      case TakePair(epoch, err) => HandlePairResult(epoch, err);
      case _ =>
    }

    method Arrive(arrival: Arrival)
      modifies this
      ensures View() == M.Arrive(old(View()), arrival)
    {
      match arrival
      case NoArrival =>
      case ActivityArrives(a) =>
        if |activityQueue| < ACTIVITY_CAPACITY {
          activityQueue := activityQueue + [a];
        }
      case PairEventArrives(e) =>
        if pair.Attempt? && !pair.expired && |pairQueue| < PAIR_EVENT_CAPACITY {
          pairQueue := pairQueue + [e];
        }
    }

    /** drainReadyWork: the loop ends although queues, clock and environment keep changing. */
    method DrainReadyWork()
      requires ValidWorld(world) && Valid(world, View())
      modifies this
      ensures View() == Drain(world, old(View()))
    {
      hide Drain, DrainRound, Valid, Queued, Rank, Disturbances;
      while true
        invariant Valid(world, View()) && Drain(world, View()) == Drain(world, old(View()))
        decreases Disturbances(world, View()), Queued(View()), Rank(world, View())
      {
        ghost var before := View();
        DrainRoundSafe(world, before);
        var more := DrainOnce();
        DrainStep(world, before);
        if !more {
          return;
        }
      }
    }

    /** One turn of the drain: a due deadline, or whatever the select finds ready. */
    method DrainOnce() returns (more: bool)
      requires ValidPolicy(world.policy)
      modifies this
      ensures (View(), more) == DrainRound(world, old(View()))
    {
      hide Note, Advance, Sound, M.EnforceDueDeadline, M.Receive, CanReceive;
      var arrival := world.arrives(polls);
      Arrive(arrival);
      polls := polls + 1;
      assert View() == Joined(world, old(View()));
      var fired := EnforceDueDeadline();
      if fired {
        return true;
      }
      var choice := PickReady();
      if choice == Nothing {
        return false;
      }
      polls := polls + 1;
      Receive(choice);
      return true;
    }

    method IsReady(choice: Choice) returns (ready: bool)
      ensures ready == CanReceive(View(), choice)
    {
      match choice
      case TakeActivity => ready := activityQueue != [];
      case TakeReady(_) => ready := run.Running? && run.ready;
      case TakeDone(_) => ready := run.Running?;
      case TakeProbe(generation, _, _) => ready := probe.Probing? && generation == snapshot.generation;
      case TakeRepair(epoch, _) => ready := repairing && epoch == repairEpoch;
      case TakePairEvent => ready := pairQueue != [];
      case TakePair(epoch, _) => ready := pair.Attempt? && epoch == pairEpoch;
      case _ => ready := false;
    }

    method PickReady() returns (choice: Choice)
      ensures choice == Ready(world, View())
    {
      hide Note, Advance, Sound;
      choice := world.select(polls);
      var ready := IsReady(choice);
      if !ready {
        if activityQueue != [] {
          return TakeActivity;
        } else if pairQueue != [] {
          return TakePairEvent;
        }
        return Nothing;
      }
    }

    // ---------------------------------------------- commands

    method LeaveBlocked(cmd: nat) returns (reply: Reply)
      modifies this
      ensures (View(), reply) == R.LeaveBlocked(world, old(View()), cmd)
    {
      hide Note, Advance, Sound, M.ResetFailureHistory, M.BeginCredentialRepair, M.StartAndDeferReply;
      var failure := failures.last;
      ResetFailureHistory();
      if failure.kind == CredentialsExpired {
        BeginCredentialRepair(failure, false);
        return Done;
      }
      if failure.operation == "pair" {
        snapshot := snapshot.(state := Unpaired);
        Publish();
        return Done;
      }
      reply := StartAndDeferReply(cmd);
    }

    method HandleCommand(cmd: nat, command: Command) returns (reply: Reply)
      requires ValidWorld(world) && Valid(world, View())
      modifies this
      ensures (View(), reply) == R.HandleCommand(world, old(View()), cmd, command)
    {
      hide Note, Advance, Sound, Valid, M.ResetFailureHistory, M.StartAndDeferReply, R.LeaveBlocked, M.BeginPairing, Drain;
      match command
      case CommandStart =>
        if pair.Attempt? || snapshot.state in
          {Pairing, RepairingCredentials, Connecting, Online, Degraded, State.Backoff, State.Stopping} {
          return ErrBusy;
        }
        if snapshot.state == Unpaired {
          return ErrPairingNotAllowed;
        }
        if snapshot.state == Blocked {
          return ErrBlocked;
        }
        ResetFailureHistory();
        reply := StartAndDeferReply(cmd);
      case CommandRetryBlocked =>
        if snapshot.state != Blocked {
          return ErrBlocked;
        }
        reply := LeaveBlocked(cmd);
      case CommandInputsChanged(fingerprint) =>
        if snapshot.state != Blocked {
          return ErrBlocked;
        }
        if fingerprint == "" || fingerprint == snapshot.errorFingerprint {
          return ErrFingerprintUnchanged;
        }
        reply := LeaveBlocked(cmd);
      case CommandBeginPairing => reply := BeginPairing();
      case CommandSync =>
        DrainReadyWork();
        reply := Done;
    }

    method Accept(cmd: nat)
      modifies this
      ensures View() == Emit(world, old(View()).(commands := cmd + 1), Accepted(cmd))
    {
      hide Note, Advance, Sound;
      commands := cmd + 1;
      Record(Accepted(cmd));
    }

    /** The reply goes out now, unless it was deferred. */
    method Acknowledge(cmd: nat, reply: Reply)
      modifies this
      ensures View() == R.Acknowledge(world, old(View()), cmd, reply)
    {
      hide Note, Advance, Sound, Emit;
      Accept(cmd);
      if reply != Deferred {
        Record(Replied(cmd, reply));
      }
    }

    method Dispatch(command: Command)
      requires ValidWorld(world) && Valid(world, View())
      modifies this
      ensures View() == R.Dispatch(world, old(View()), command)
    {
      hide Note, Advance, Sound, Valid, R.HandleCommand, R.Acknowledge;
      PollSafe(world, View());
      var cmd := commands;
      var reply := ErrStopped;
      var stop := Stopping();
      if !stop {
        reply := HandleCommand(cmd, command);
      }
      Acknowledge(cmd, reply);
    }

    // ---------------------------------------------- the run loop

    /** The start worker, with its context cancelled, is joined. */
    method AwaitWorker()
      modifies this
      ensures View() == R.AwaitWorker(world, old(View()))
    {
      hide Note, Advance, Sound;
      match worker
      case Dialing =>
        var (run, err) := world.dialed(polls);
        ghost var novel := Fresh(View(), run);
        polls := polls + 1;
        worker := Answered(None, err);
        if novel.Some? {
          Record(RunProduced(snapshot.generation, novel.value));
          Record(RunStopped(novel.value));
        }
      case Dialed(run, err) =>
        worker := Answered(None, err);
        if run.Some? {
          Record(RunStopped(run.value));
        }
      case _ =>
    }

    method Shutdown()
      modifies this
      ensures View() == R.Shutdown(world, old(View()))
    {
      hide Note, Advance, Sound, R.AwaitWorker, M.RetireCurrent, M.ResolvePendingStart;
      ghost var attempt, epoch := pair, pairEpoch;
      EnterStopping();
      RetireCurrent();
      AwaitWorker();
      if attempt.Attempt? {
        Record(PairReturned(epoch));
      }
      ResolvePendingStart(ErrStopped);
      ForgetWorkers();
      Finish();
    }

    method EnterStopping()
      modifies this
      ensures var s := old(View());
              View() == M.Publish(s.(timer := NoTimer,
                snapshot := s.snapshot.(state := State.Stopping, livenessDeadline := ZERO, retryAt := ZERO)))
    {
      ClearTimer();
      snapshot := snapshot.(state := State.Stopping, livenessDeadline := ZERO, retryAt := ZERO);
      Publish();
    }

    method ForgetWorkers()
      modifies this
      ensures View() == old(View()).(repairing := false, pair := NoPair, pairQueue := [])
    {
      repairing := false;
      pair := NoPair;
      pairQueue := [];
    }

    method Finish()
      modifies this
      ensures var s := old(View());
              View() == M.Publish(s.(finished := true, snapshot := s.snapshot.(state := Stopped)))
    {
      finished := true;
      snapshot := snapshot.(state := Stopped);
      Publish();
    }

    method Select(choice: Choice)
      requires ValidWorld(world) && Valid(world, View())
      modifies this
      ensures View() == R.Select(world, old(View()), choice)
    {
      hide Note, Advance, Sound, Valid, M.Receive, M.HandleStartResult, R.Dispatch;
      match choice
      case TakeCommand(command) => Dispatch(command);
      case TakeStart => HandleStartResult();
      case _ => Receive(choice);
    }

    /** One round of the run loop. */
    method Iterate()
      requires ValidWorld(world) && Valid(world, View())
      modifies this
      ensures View() == R.Iterate(world, old(View()))
    {
      hide Note, Advance, Sound, Valid, M.EnforceDueDeadline, R.Select, R.Shutdown;
      PollSafe(world, View());
      var stop := Stopping();
      if stop {
        Shutdown();
        return;
      }
      EnforceDueDeadlineSafe(world, View());
      var fired := EnforceDueDeadline();
      if fired {
        return;
      }
      PollSafe(world, View());
      var choice := world.select(polls);
      polls := polls + 1;
      Select(choice);
    }

    // ---------------------------------------------- the environment

    /** Lifecycle.Start returns in its worker, with a Run that is new. */
    method StartReturned(result: Option<nat>, err: Option<Error>)
      requires Fresh(View(), result) == result
      modifies this
      ensures View() == R.StartReturned(world, old(View()), result, err)
    {
      hide Note, Advance, Sound;
      if worker == Dialing {
        worker := Dialed(result, err);
        if result.Some? {
          Record(RunProduced(snapshot.generation, result.value));
        }
      }
    }

    method WorkerAnswered()
      modifies this
      ensures View() == R.WorkerAnswered(world, old(View()))
    {
      hide Note, Advance, Sound;
      if worker.Dialed? {
        var dialed := worker;
        if start == TimedOut {
          worker := Answered(None, dialed.err);
          if dialed.run.Some? {
            Record(RunStopped(dialed.run.value));
          }
        } else {
          worker := Answered(dialed.run, dialed.err);
        }
      }
    }

    /** generationSink.forward, up to the downstream sink. */
    method CalledBack(generation: nat) returns (accepted: bool)
      modifies this
      ensures View() == R.CalledBack(world, old(View()), generation)
      ensures accepted == old(gate == Gate(generation, true))
    {
      hide Note, Advance, Sound;
      accepted := gate == Gate(generation, true);
      if accepted {
        Record(Committed(generation));
      }
    }

    /** One step of the loop or its environment, as in SupervisorRun. */
    method Step(input: Input)
      requires ValidWorld(world) && Good(world, View())
      requires input.StartReturns? ==> Fresh(View(), input.run) == input.run
      modifies this
      ensures View() == R.Step(world, old(View()), input) && Good(world, View())
    {
      hide Note, Advance, Sound, Valid, Final, R.Iterate, R.StartReturned, R.WorkerAnswered, R.CalledBack, M.Arrive;
      StepSafe(world, View(), input);
      if !finished {
        match input
        case Round => Iterate();
        case StartReturns(result, err) => StartReturned(result, err);
        case WorkerAnswers => WorkerAnswered();
        case Callback(generation) => var _ := CalledBack(generation);
        case Arrives(arrival) => Arrive(arrival);
      }
    }
  }
}
