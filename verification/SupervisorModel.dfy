/** The account supervisor's run loop as functions on its state: one function per
    handler of internal/bridge/supervisor.go. The class in Supervisor.dfy is proved
    to compute exactly these functions; SupervisorSafety.dfy proves what they keep.

    Everything the loop reads from outside (clock, stop flag, random source, which
    channel a select takes) comes from a `World`: an arbitrary answer for every
    poll, numbered in the order the loop asks. A theorem for all worlds is a theorem
    for every behaviour of the environment. */
module SupervisorModel {
  import opened Bridge
  import opened Backoff
  import opened SupervisorLog

  datatype TimerPurpose = ConnectDeadline | LivenessCheck | BackoffWait | ProbeDeadline | PairExpiry
  datatype Timer = NoTimer | Armed(purpose: TimerPurpose, deadline: Time)

  datatype ActivityKind = EventActivity | BeatActivity
  datatype Activity = Activity(generation: nat, kind: ActivityKind, at: Time)

  datatype PairKind = Qr | Code | Instruction | AttemptBlocked
  datatype PairEvent = PairEvent(kind: PairKind, expiresAt: Time, message: string)

  /** The goroutine that calls Lifecycle.Start. `Dialed`: Start has returned but the
      worker has not looked at its context yet. `Answered`: its result is in the channel. */
  datatype StartWorker =
    | NoWorker
    | Dialing
    | Dialed(run: Option<nat>, err: Option<Error>)
    | Answered(run: Option<nat>, err: Option<Error>)

  /** startResults and startTimedOut; timing out cancels the worker's context. */
  datatype StartSlot = NoStart | Outstanding | TimedOut

  /** run with its ready channel, which is dropped once readiness is seen; the done
      channel and the context live exactly as long as the run. */
  datatype RunSlot = NoRun | Running(id: nat, ready: bool)

  /** probeResults, probeStarted and probeTimedOut. */
  datatype ProbeSlot = NoProbe | Probing(started: Time, timedOut: bool)

  /** pairActive with its channels and sink, pairExpired and pairExpiresAt. */
  datatype PairSlot = NoPair | Attempt(expired: bool, expiresAt: Time)

  /** generationFence. */
  datatype Gate = Gate(generation: nat, active: bool)

  datatype Failures = Failures(
    transientAttempt: nat,
    sameFingerprint: string,
    sameFailureCount: nat,
    last: OpError,
    repairFailed: bool)

  const NO_FAILURES := Failures(0, "", 0, NO_FAILURE, false)

  datatype Command =
    | CommandStart
    | CommandRetryBlocked
    | CommandInputsChanged(fingerprint: string)
    | CommandBeginPairing
    | CommandSync

  /** What a select finds, with the value received. Receives from channels the loop
      does not hold are ignored, as a nil channel is never ready. */
  datatype Choice =
    | Nothing
    | TakeCommand(command: Command)
    | TakeActivity
    | TakeReady(alsoDone: Option<Option<Error>>)
    | TakeDone(err: Option<Error>)
    | TakeStart
    | TakeProbe(generation: nat, aliveAt: Time, err: Option<Error>)
    | TakeRepair(epoch: nat, err: Option<Error>)
    | TakePairEvent
    | TakePair(epoch: nat, err: Option<Error>)

  datatype Arrival = NoArrival | ActivityArrives(activity: Activity) | PairEventArrives(event: PairEvent)

  const ACTIVITY_CAPACITY := 256
  const PAIR_EVENT_CAPACITY := 32

  /** `horizon`: from this poll on the clock stands still and nothing arrives any more. */
  datatype World = World(
    policy: Policy,
    hasRepairer: bool,
    hasPairer: bool,
    clock: nat -> Time,
    stopCalled: nat -> bool,
    random: nat -> int,
    select: nat -> Choice,
    arrives: nat -> Arrival,
    dialed: nat -> (Option<nat>, Option<Error>),
    horizon: nat)

  /** Time does not run backwards, Stop is final, and interference is finite. */
  ghost predicate ValidWorld(w: World) {
    && ValidPolicy(w.policy)
    && (forall i: nat :: 0 < w.clock(i))
    && (forall i: nat, j: nat :: i <= j ==> w.clock(i) <= w.clock(j))
    && (forall i: nat, j: nat :: i <= j && w.stopCalled(i) ==> w.stopCalled(j))
    && (forall i: nat :: w.horizon <= i ==> w.clock(i) == w.clock(w.horizon) && w.arrives(i) == NoArrival)
  }

  datatype Loop = Loop(
    polls: nat,
    activityQueue: seq<Activity>,
    pairQueue: seq<PairEvent>,
    worker: StartWorker,
    snapshot: Snapshot,
    published: Snapshot,
    timer: Timer,
    commands: nat,
    start: StartSlot,
    pendingStartReply: Option<nat>,
    run: RunSlot,
    connectDeadline: Time,
    livenessBaseline: Time,
    failures: Failures,
    probe: ProbeSlot,
    repairEpoch: nat,
    repairing: bool,
    pairEpoch: nat,
    pair: PairSlot,
    gate: Gate,
    finished: bool,
    journal: Journal)

  function Initial(state: State): Loop
    requires state == Stopped || state == Unpaired
  {
    var snapshot := Snapshot(state, 0, ZERO, ZERO, ZERO, ZERO, Unset, "");
    Loop(0, [], [], NoWorker, snapshot, snapshot, NoTimer, 0, NoStart, None, NoRun, ZERO, ZERO, NO_FAILURES,
         NoProbe, 0, false, 0, NoPair, Gate(0, false), false, BLANK)
  }

  // ------------------------------------------------ small steps

  function Now(w: World, s: Loop): Time { w.clock(s.polls) }

  function Poll(s: Loop): Loop { s.(polls := s.polls + 1) }

  function Emit(w: World, s: Loop, e: Event): Loop { s.(journal := Note(w.policy, s.journal, e)) }

  function Publish(s: Loop): Loop { s.(published := s.snapshot) }

  function ClearTimer(s: Loop): Loop { s.(timer := NoTimer) }

  function LastSign(s: Loop): Time {
    Max(s.livenessBaseline, Max(s.snapshot.lastEventAt, s.snapshot.lastProbeOKAt))
  }

  function Deactivate(w: World, s: Loop): Loop {
    if s.gate.active && s.gate.generation == s.snapshot.generation
    then Emit(w, s.(gate := s.gate.(active := false)), GateClosed(s.gate.generation))
    else s
  }

  /** Closes the gate, then stops and forgets the installed run. */
  function RetireCurrent(w: World, s: Loop): Loop {
    var closed := Deactivate(w, s.(probe := NoProbe));
    if closed.run.Running? then Emit(w, closed.(run := NoRun), RunStopped(closed.run.id)) else closed
  }

  function ResetFailureHistory(w: World, s: Loop): Loop {
    Emit(w, s.(failures := NO_FAILURES,
               snapshot := s.snapshot.(retryAt := ZERO, errorClass := Unset, errorFingerprint := "")),
         HistoryCleared)
  }

  /** The counters after one failure: the attempts of the backoff, or the circuit's. */
  function Recorded(f: Failures, kind: FailureClass, fingerprint: string): Failures {
    if kind == Transient then f.(transientAttempt := f.transientAttempt + 1)
    else if fingerprint == "" then f.(sameFingerprint := "", sameFailureCount := 0)
    else f.(sameFingerprint := fingerprint,
            sameFailureCount := if fingerprint == f.sameFingerprint then f.sameFailureCount + 1 else 1)
  }

  /** Whether one more failure of this class and fingerprint opens the circuit. */
  predicate Opens(p: Policy, f: Failures, kind: FailureClass, fingerprint: string) {
    kind != Transient && fingerprint != "" && Recorded(f, kind, fingerprint).sameFailureCount >= p.maxSameFingerprint
  }

  /** Delivers the outcome of the first attempt to the caller who waits for it. */
  function ResolvePendingStart(w: World, s: Loop, answer: Reply): Loop {
    if s.pendingStartReply.Some?
    then Emit(w, s.(pendingStartReply := None), Replied(s.pendingStartReply.value, answer))
    else s
  }

  // ------------------------------------------------ generations and repairs

  /** The bookkeeping of a new generation, up to its open gate. */
  function OpenGeneration(w: World, s: Loop, started: Time): Loop {
    var generation := s.snapshot.generation + 1;
    var snapshot := Snapshot(Connecting, generation, ZERO, ZERO, ZERO, ZERO, Unset, "");
    var deadline := started + w.policy.connectTimeout;
    Emit(w, s.(
      snapshot := snapshot, published := snapshot,
      connectDeadline := deadline, livenessBaseline := started,
      timer := Armed(ConnectDeadline, deadline),
      gate := Gate(generation, true)), GateOpened(generation))
  }

  function StartGeneration(w: World, s: Loop): (Loop, Reply) {
    var checked := Poll(s);
    if w.stopCalled(s.polls) then (checked, ErrStopped)
    else if s.run.Running? || s.start != NoStart then (checked, ErrBusy)
    else
      var ready := OpenGeneration(w, Poll(checked), Now(w, checked));
      (Emit(w, ready.(start := Outstanding, worker := Dialing), StartCalled(ready.snapshot.generation)), Done)
  }

  function StartAndDeferReply(w: World, s: Loop, cmd: nat): (Loop, Reply) {
    var (started, reply) := StartGeneration(w, s);
    if reply != Done then (started, reply)
    else (started.(pendingStartReply := Some(cmd)), Deferred)
  }

  function BeginCredentialRepair(w: World, s: Loop, failure: OpError, automatic: bool): Loop {
    var entered := Publish(s.(
      timer := NoTimer,
      snapshot := s.snapshot.(state := RepairingCredentials, retryAt := ZERO,
                              errorClass := failure.kind, errorFingerprint := failure.fingerprint),
      failures := s.failures.(last := failure, repairFailed := false)));
    if !w.hasRepairer then
      Publish(entered.(failures := entered.failures.(repairFailed := true),
                       snapshot := entered.snapshot.(state := Blocked)))
    else
      Emit(w, entered.(repairEpoch := s.repairEpoch + 1, repairing := true), RepairBegun(automatic))
  }

  function HandleRepairResult(w: World, s: Loop, epoch: nat, err: Option<Error>): Loop {
    if !s.repairing || epoch != s.repairEpoch then s
    else
      var answered := Emit(w, s.(repairing := false), RepairReturned(err.None?));
      if answered.snapshot.state != RepairingCredentials then answered
      else if err.Some? then
        Publish(answered.(failures := s.failures.(repairFailed := true),
                          snapshot := s.snapshot.(state := Blocked)))
      else StartGeneration(w, answered.(failures := s.failures.(repairFailed := false))).0
  }

  // ------------------------------------------------ failures

  function Routed(kind: FailureClass): (r: FailureClass)
    ensures r != Unset && r != Unrecognized
    ensures kind != Unset && kind != Unrecognized ==> r == kind
  {
    if kind == Unset || kind == Unrecognized then Transient else kind
  }

  function Park(s: Loop): Loop { Publish(s.(snapshot := s.snapshot.(state := Blocked))) }

  /** A transient failure that has been counted: full jitter below the exponential cap. */
  function BackOff(w: World, s: Loop): Loop
    requires ValidPolicy(w.policy)
  {
    var cap := CapSpec(w.policy.minBackoff, w.policy.maxBackoff, s.failures.transientAttempt);
    var draw := w.random(s.polls);
    var drawn := Poll(s);
    if draw < 0 || draw >= cap then
      Publish(drawn.(snapshot := s.snapshot.(state := Blocked, errorClass := Misconfigured,
                                             errorFingerprint := "invalid_jitter_source")))
    else
      var retryAt := Now(w, drawn) + draw;
      Publish(Poll(drawn).(snapshot := s.snapshot.(state := Backoff, retryAt := retryAt),
                           timer := Armed(BackoffWait, retryAt)))
  }

  function WaitForRateLimit(w: World, s: Loop, retryAt: Time): Loop {
    var asked := Poll(s);
    var late := retryAt < Now(w, s);
    var deadline := if late then Now(w, asked) else retryAt;
    Publish((if late then Poll(asked) else asked).(
      snapshot := s.snapshot.(state := Backoff, retryAt := retryAt),
      timer := Armed(BackoffWait, deadline)))
  }

  /** Writes a failure into the snapshot, the journal and the circuit's counters. */
  function NoteFailure(w: World, s: Loop, f: OpError): Loop {
    Emit(w, s.(
      failures := Recorded(s.failures, f.kind, f.fingerprint).(last := f),
      snapshot := s.snapshot.(errorClass := f.kind, errorFingerprint := f.fingerprint,
                              retryAt := ZERO, livenessDeadline := ZERO)), Failed(f.kind, f.fingerprint))
  }

  /** No linked account exists: idle until an explicit user action. */
  function EnterUnpaired(w: World, s: Loop, f: OpError): Loop {
    var cleared := ResetFailureHistory(w, s);
    Publish(cleared.(failures := cleared.failures.(last := f),
                     snapshot := cleared.snapshot.(errorClass := f.kind, errorFingerprint := f.fingerprint,
                                                   state := Unpaired)))
  }

  /** The routing table. (The source records an AccountUnpaired fingerprint nowhere;
      here it is recorded and cleared at once.) */
  function RouteFailure(w: World, s: Loop, failure: OpError): Loop
    requires ValidPolicy(w.policy)
  {
    var f := failure.(kind := Routed(failure.kind));
    var noted := NoteFailure(w, s, f);
    if f.kind == AccountUnpaired then EnterUnpaired(w, noted, f)
    else if Opens(w.policy, s.failures, f.kind, f.fingerprint) then Park(noted)
    else if f.kind == Transient then BackOff(w, noted)
    else if f.kind == RateLimited then WaitForRateLimit(w, noted, f.retryAt)
    else if f.kind == CredentialsExpired then BeginCredentialRepair(w, noted, f, true)
    else Park(noted)
  }

  // ------------------------------------------------ one connection

  function HandleConnectTimeout(w: World, s: Loop): Loop
    requires ValidPolicy(w.policy)
  {
    if s.snapshot.state != Connecting then s
    else if s.start != NoStart then Deactivate(w, ClearTimer(s).(start := TimedOut))
    else if s.run == NoRun then ClearTimer(s)
    else RouteFailure(w, RetireCurrent(w, ClearTimer(s)), CONNECT_TIMEOUT_FAILURE)
  }

  const NIL_RUN_FAILURE := OpError(Misconfigured, "start", ZERO, "lifecycle_nil_run")

  /** The start worker's answer. The source also discards an answer of another
      generation; there is none, since one worker answers before the next is started. */
  function HandleStartResult(w: World, s: Loop): Loop
    requires ValidPolicy(w.policy)
  {
    if s.start == NoStart || !s.worker.Answered? then s
    else
      var answer := s.worker;
      var taken := s.(start := NoStart, worker := NoWorker);
      if s.start == TimedOut then
        var stopped := if answer.run.Some? then Emit(w, taken, RunStopped(answer.run.value)) else taken;
        ResolvePendingStart(w, RouteFailure(w, Deactivate(w, stopped), CONNECT_TIMEOUT_FAILURE),
                            ErrFirstAttempt(CONNECT_TIMEOUT_FAILURE))
      else if answer.err.Some? then
        var installed := if answer.run.Some? then taken.(run := Running(answer.run.value, true)) else taken;
        var failure := ClassifyFailure(answer.err.value, "start", "start_failed");
        ResolvePendingStart(w, RouteFailure(w, RetireCurrent(w, ClearTimer(installed)), failure),
                            ErrFirstAttempt(failure))
      else if answer.run.None? then
        ResolvePendingStart(w, RouteFailure(w, Deactivate(w, ClearTimer(taken)), NIL_RUN_FAILURE),
                            ErrFirstAttempt(NIL_RUN_FAILURE))
      else
        var installed := taken.(run := Running(answer.run.value, true));
        if Now(w, installed) >= s.connectDeadline
        then ResolvePendingStart(w, HandleConnectTimeout(w, Poll(installed)), ErrFirstAttempt(CONNECT_TIMEOUT_FAILURE))
        else ResolvePendingStart(w, Poll(installed), Done)
  }

  function HandleRunDone(w: World, s: Loop, err: Option<Error>): Loop
    requires ValidPolicy(w.policy)
  {
    if s.run == NoRun then s
    else
      var connecting := s.snapshot.state == Connecting;
      var asked := if connecting then Poll(s) else s;
      if connecting && Now(w, s) >= s.connectDeadline then HandleConnectTimeout(w, asked)
      else RouteFailure(w, RetireCurrent(w, ClearTimer(asked)),
                        ClassifyFailure(if err.Some? then err.value else Plain, "run", "run_completed"))
  }

  function RefreshLivenessDeadline(w: World, s: Loop): Loop {
    s.(snapshot := s.snapshot.(livenessDeadline := LastSign(s) + w.policy.livenessTimeout))
  }

  function ScheduleLivenessCheck(w: World, s: Loop): Loop {
    if s.snapshot.state != Online then s
    else
      var next := Now(w, s) + w.policy.probeEvery;
      Poll(s).(timer := Armed(LivenessCheck, Min(next, s.snapshot.livenessDeadline)))
  }

  /** A fresh liveness deadline, and the next look at it. */
  function Reschedule(w: World, s: Loop): Loop { ScheduleLivenessCheck(w, RefreshLivenessDeadline(w, s)) }

  /** Positive liveness: `seen` carries the new sign, and the failure history is forgotten. */
  function ShowLife(w: World, s: Loop, seen: Snapshot, at: Time): Loop {
    ResetFailureHistory(w, Emit(w, s.(snapshot := seen), Alive(s.snapshot.generation, at)))
  }

  /** A terminal completion or the connect deadline wins over readiness. */
  function HandleReady(w: World, s: Loop, alsoDone: Option<Option<Error>>): Loop
    requires ValidPolicy(w.policy)
  {
    if s.run == NoRun then s
    else if s.snapshot.state != Connecting then s.(run := s.run.(ready := false))
    else if alsoDone.Some? then HandleRunDone(w, s, alsoDone.value)
    else if Now(w, s) >= s.connectDeadline then HandleConnectTimeout(w, Poll(s))
    else
      var asked := Poll(s);
      var baseline := Now(w, asked);
      var online := Emit(w, Poll(asked).(
        run := s.run.(ready := false), timer := NoTimer, livenessBaseline := baseline,
        snapshot := s.snapshot.(state := Online, retryAt := ZERO, errorClass := Unset, errorFingerprint := "")),
        Alive(s.snapshot.generation, baseline));
      Publish(Reschedule(w, online))
  }

  function HandleActivity(w: World, s: Loop, activity: Activity): Loop {
    if activity.generation != s.snapshot.generation || s.run == NoRun then s
    else
      var at := ClampActivityTime(activity.at, Now(w, s));
      var seen := if activity.kind == EventActivity
        then s.snapshot.(lastEventAt := Max(s.snapshot.lastEventAt, at))
        else s.snapshot.(lastProbeOKAt := Max(s.snapshot.lastProbeOKAt, at));
      var alive := ShowLife(w, Poll(s), seen, at);
      Publish(if alive.snapshot.state == Online then Reschedule(w, alive) else alive)
  }

  function BeginProbe(w: World, s: Loop): Loop {
    if s.run == NoRun || s.snapshot.state != Online || s.probe != NoProbe then s
    else
      var started := Now(w, s);
      Publish(Emit(w, Poll(s).(
        snapshot := s.snapshot.(state := Degraded),
        probe := Probing(started, false),
        timer := Armed(ProbeDeadline, started + w.policy.probeTimeout)),
        ProbeBegun(s.snapshot.generation, started)))
  }

  const PROBE_TIMEOUT_FAILURE := OpError(Transient, "probe", ZERO, "probe_timeout")

  /** A good probe proves life no earlier than it was begun. */
  function ProbeAlive(w: World, s: Loop, aliveAt: Time, started: Time): Loop {
    var at := Max(ClampActivityTime(aliveAt, Now(w, s)), started);
    var seen := s.snapshot.(lastProbeOKAt := Max(s.snapshot.lastProbeOKAt, at));
    var alive := ShowLife(w, Poll(s), seen, at);
    Publish(Reschedule(w, alive.(snapshot := alive.snapshot.(state := Online))))
  }

  function HandleProbeResult(w: World, s: Loop, generation: nat, aliveAt: Time, err: Option<Error>): Loop
    requires ValidPolicy(w.policy)
  {
    if s.probe == NoProbe || generation != s.snapshot.generation then s
    else
      var taken := ClearTimer(s.(probe := NoProbe));
      if s.probe.timedOut then RouteFailure(w, RetireCurrent(w, taken), PROBE_TIMEOUT_FAILURE)
      else if err.Some? then
        RouteFailure(w, RetireCurrent(w, taken), ClassifyFailure(err.value, "probe", "probe_failed"))
      else if s.run == NoRun || s.snapshot.state != Degraded then taken
      else ProbeAlive(w, taken, aliveAt, s.probe.started)
  }

  // ------------------------------------------------ pairing

  function BeginPairing(w: World, s: Loop): (Loop, Reply) {
    if !w.hasPairer then (s, ErrPairerUnavailable)
    else if s.pair.Attempt? then (s, ErrPairingInProgress)
    else if s.snapshot.state != Unpaired then (s, ErrPairingNotAllowed)
    else
      var now := Now(w, s);
      var asked := Poll(s);
      if s.snapshot.retryAt != ZERO && now < s.snapshot.retryAt then (asked, ErrPairingRateLimited)
      else
        var epoch := s.pairEpoch + 1;
        (Emit(w, Publish(asked.(
           timer := NoTimer,
           snapshot := s.snapshot.(state := Pairing, retryAt := ZERO, errorClass := Unset, errorFingerprint := ""),
           pairEpoch := epoch, pair := Attempt(false, ZERO), pairQueue := [])), PairBegun(epoch, now)),
         Done)
  }

  function ExpirePairing(w: World, s: Loop): (t: Loop)
    ensures t.pair == NoPair <==> s.pair == NoPair
  {
    if s.pair == NoPair || s.snapshot.state != Pairing then s
    else
      Publish(Emit(w, s.(
        timer := NoTimer, pair := s.pair.(expired := true),
        snapshot := s.snapshot.(state := Unpaired, retryAt := ZERO, errorClass := Unset, errorFingerprint := "")),
        PairClosed(s.pairEpoch)))
  }

  function BlockPairing(w: World, s: Loop, event: PairEvent): Loop {
    var closed := Emit(w, s.(
      timer := NoTimer, pair := Attempt(true, ZERO),
      snapshot := s.snapshot.(state := Unpaired, retryAt := event.expiresAt,
                              errorClass := RateLimited, errorFingerprint := event.message)),
      PairClosed(s.pairEpoch));
    Publish(Emit(w, closed, PairLimited(event.expiresAt)))
  }

  function HandlePairEvent(w: World, s: Loop, epoch: nat, event: PairEvent): Loop {
    if s.pair == NoPair || epoch != s.pairEpoch || s.snapshot.state != Pairing then s
    else if event.kind == AttemptBlocked then BlockPairing(w, s, event)
    else if (event.kind == Qr || event.kind == Code) && event.expiresAt != ZERO then
      var dated := Poll(s.(pair := s.pair.(expiresAt := event.expiresAt)));
      if Now(w, s) >= event.expiresAt then ExpirePairing(w, dated)
      else dated.(timer := Armed(PairExpiry, event.expiresAt))
    else s
  }

  /** An attempt whose code has run out by now is expired before its result counts. */
  function JudgePairing(w: World, s: Loop): (t: Loop)
    requires s.pair.Attempt?
    ensures t.pair.Attempt?
  {
    if s.pair.expiresAt == ZERO then s
    else if Now(w, s) >= s.pair.expiresAt then ExpirePairing(w, Poll(s))
    else Poll(s)
  }

  function FinishPairing(w: World, s: Loop, err: Option<Error>): Loop
    requires s.pair.Attempt?
  {
    var returned := PairReturned(s.pairEpoch);
    var taken := s.(pair := NoPair, pairQueue := [], timer := NoTimer);
    if s.pair.expired then
      Emit(w, if s.snapshot.state == Pairing
              then Publish(taken.(snapshot := s.snapshot.(state := Unpaired))) else taken, returned)
    else if err.None? then
      Publish(Emit(w, Emit(w, taken, PairedUp(s.pairEpoch)).(
        snapshot := s.snapshot.(state := Stopped, retryAt := ZERO, errorClass := Unset, errorFingerprint := "")),
        returned))
    else FailPairing(w, taken, ClassifyFailure(err.value, "pair", "pair_failed"), returned)
  }

  function FailPairing(w: World, s: Loop, failure: OpError, returned: Event): Loop {
    var noted := s.(
      failures := s.failures.(last := failure),
      snapshot := s.snapshot.(errorClass := failure.kind, errorFingerprint := failure.fingerprint, retryAt := ZERO));
    if failure.kind == RateLimited then
      Publish(Emit(w, Emit(w, noted.(snapshot := noted.snapshot.(state := Unpaired, retryAt := failure.retryAt)),
                           PairLimited(failure.retryAt)), returned))
    else
      Publish(Emit(w, noted.(snapshot := noted.snapshot.(
        state := if NeedsUser(failure.kind) then Blocked else Unpaired)), returned))
  }

  /** The classes that park the account until the user acts. */
  predicate NeedsUser(kind: FailureClass) {
    kind == ReauthRequired || kind == UpgradeRequired || kind == Misconfigured || kind == Unsupported
  }

  function HandlePairResult(w: World, s: Loop, epoch: nat, err: Option<Error>): Loop {
    if s.pair == NoPair || epoch != s.pairEpoch then s
    else FinishPairing(w, JudgePairing(w, s), err)
  }

  // ------------------------------------------------ deadlines and selects

  predicate Due(w: World, s: Loop) {
    s.timer.Armed? && s.timer.deadline != ZERO && Now(w, s) >= s.timer.deadline
  }

  function EnforceDueDeadline(w: World, s: Loop): (Loop, bool)
    requires ValidPolicy(w.policy)
  {
    var asked := if s.timer.Armed? && s.timer.deadline != ZERO then Poll(s) else s;
    if !Due(w, s) then (asked, false)
    else (FireDeadline(w, ClearTimer(asked), s.timer.purpose), true)
  }

  function FireDeadline(w: World, s: Loop, purpose: TimerPurpose): Loop
    requires ValidPolicy(w.policy)
  {
    match purpose
    case ConnectDeadline => HandleConnectTimeout(w, s)
    case LivenessCheck =>
      if s.snapshot.state != Online then s
      else if Now(w, s) >= s.snapshot.livenessDeadline then BeginProbe(w, Poll(s))
      else ScheduleLivenessCheck(w, Poll(s))
    case BackoffWait =>
      if s.snapshot.state != Backoff then s
      else if w.stopCalled(s.polls) then Poll(s)
      else StartGeneration(w, Poll(s)).0
    case ProbeDeadline =>
      if s.probe.Probing? && s.snapshot.state == Degraded then s.(probe := s.probe.(timedOut := true)) else s
    case PairExpiry =>
      if s.pair == NoPair || s.pair.expiresAt == ZERO then s
      else if Now(w, s) >= s.pair.expiresAt then ExpirePairing(w, Poll(s)) else Poll(s)
  }

  /** The channel receives that both the run loop and the drain handle. */
  function Receive(w: World, s: Loop, choice: Choice): Loop
    requires ValidPolicy(w.policy)
  {
    match choice
    case TakeActivity =>
      if s.activityQueue == [] then s
      else HandleActivity(w, s.(activityQueue := s.activityQueue[1..]), s.activityQueue[0])
    case TakeReady(alsoDone) => if s.run.Running? && s.run.ready then HandleReady(w, s, alsoDone) else s
    case TakeDone(err) => if s.run.Running? then HandleRunDone(w, s, err) else s
    case TakeProbe(generation, aliveAt, err) => HandleProbeResult(w, s, generation, aliveAt, err)
    case TakeRepair(epoch, err) => HandleRepairResult(w, s, epoch, err)
    case TakePairEvent =>
      if s.pairQueue == [] then s
      else HandlePairEvent(w, s.(pairQueue := s.pairQueue[1..]), s.pairEpoch, s.pairQueue[0])
    case TakePair(epoch, err) => HandlePairResult(w, s, epoch, err)
    case _ => s
  }

  /** Whether the select can take this case. */
  predicate CanReceive(s: Loop, choice: Choice) {
    match choice
    case TakeActivity => s.activityQueue != []
    case TakeReady(_) => s.run.Running? && s.run.ready
    case TakeDone(_) => s.run.Running?
    case TakeProbe(generation, _, _) => s.probe.Probing? && generation == s.snapshot.generation
    case TakeRepair(epoch, _) => s.repairing && epoch == s.repairEpoch
    case TakePairEvent => s.pairQueue != []
    case TakePair(epoch, _) => s.pair.Attempt? && epoch == s.pairEpoch
    case _ => false
  }

  function Arrive(s: Loop, arrival: Arrival): Loop {
    match arrival
    case NoArrival => s
    case ActivityArrives(a) =>
      if |s.activityQueue| < ACTIVITY_CAPACITY then s.(activityQueue := s.activityQueue + [a]) else s
    case PairEventArrives(e) =>
      if s.pair.Attempt? && !s.pair.expired && |s.pairQueue| < PAIR_EVENT_CAPACITY
      then s.(pairQueue := s.pairQueue + [e]) else s
  }
}
