/** The invariant of the account supervisor, and that every handler keeps it. */
module SupervisorSafety {
  import opened Bridge
  import opened Backoff
  import opened SupervisorLog
  import opened SupervisorModel

  // ------------------------------------------------ the invariant

  /** The runs that exist and have not been stopped. */
  function Held(s: Loop): set<nat> {
    if s.run.Running? then {s.run.id}
    else if (s.worker.Dialed? || s.worker.Answered?) && s.worker.run.Some? then {s.worker.run.value}
    else {}
  }

  /** The journal and the loop tell the same story, with `held` the live runs. */
  ghost predicate Logged(w: World, s: Loop, held: set<nat>) {
    var h := s.journal.hist;
    && Sound(w.policy, s.journal)
    && !s.finished
    && h.runs.gen == s.snapshot.generation
    && h.runs.gate == (if s.gate.active then Some(s.gate.generation) else None)
    && (s.gate.active ==> s.gate.generation == s.snapshot.generation)
    && h.runs.live == held
    && h.repairs.streak == s.failures.sameFingerprint
    && h.repairs.length == s.failures.sameFailureCount
    && h.repairs.transients == s.failures.transientAttempt
    && (h.repairs.streak != "" ==> h.repairs.automatic <= s.failures.sameFailureCount)
    && h.replies.accepted == s.commands
    && h.replies.waiting == (if s.pendingStartReply.Some? then {s.pendingStartReply.value} else {})
    && (s.pendingStartReply.Some? ==> s.pendingStartReply.value < s.commands)
    && h.pairings.attempt == (if s.pair.Attempt? then Some(s.pairEpoch) else None)
    && h.pairings.lastEpoch == s.pairEpoch
    && (s.pair.Attempt? ==> h.pairings.doomed == s.pair.expired)
  }

  /** No connection in progress. */
  predicate Bare(s: Loop) {
    s.start == NoStart && s.worker == NoWorker && s.run == NoRun && s.probe == NoProbe && !s.gate.active
  }

  /** What the idle states hold: nothing, except a closed pairing attempt that drains. */
  predicate InIdle(s: Loop) {
    && Bare(s) && !s.repairing && s.timer == NoTimer
    && match s.snapshot.state
       case Stopped => s.pair == NoPair
       case Blocked => s.pair == NoPair
       case Unpaired => s.pair.Attempt? ==> s.pair.expired
       case _ => false
  }

  predicate InPairing(s: Loop) {
    && s.snapshot.state == Pairing && Bare(s) && !s.repairing
    && s.pair.Attempt? && !s.pair.expired
    && s.timer == (if s.pair.expiresAt == ZERO then NoTimer else Armed(PairExpiry, s.pair.expiresAt))
  }

  /** A wait has a deadline no earlier than RetryAt (none only once Stop was called). */
  predicate InBackoff(w: World, s: Loop) {
    && s.snapshot.state == Backoff && Bare(s) && !s.repairing && s.pair == NoPair
    && (|| (s.timer.Armed? && s.timer.purpose == BackoffWait && s.snapshot.retryAt <= s.timer.deadline != ZERO)
        || (w.stopCalled(s.polls) && s.timer == NoTimer))
  }

  predicate InRepair(w: World, s: Loop) {
    && s.snapshot.state == RepairingCredentials && Bare(s) && s.pair == NoPair && s.timer == NoTimer
    && (s.repairing || w.stopCalled(s.polls))
  }

  /** Connecting with the start worker outstanding; after the deadline the gate is
      closed and only the worker's answer is awaited. */
  predicate InDial(s: Loop) {
    && s.snapshot.state == Connecting
    && s.run == NoRun && s.probe == NoProbe && !s.repairing && s.pair == NoPair
    && s.worker != NoWorker
    && (|| (s.start == Outstanding && s.gate.active && s.timer == Armed(ConnectDeadline, s.connectDeadline))
        || (s.start == TimedOut && !s.gate.active && s.timer == NoTimer))
  }

  predicate Connected(s: Loop, state: State, listening: bool) {
    && s.snapshot.state == state && s.run.Running? && s.run.ready == listening
    && s.start == NoStart && s.worker == NoWorker && !s.repairing && s.pair == NoPair && s.gate.active
  }

  /** Connecting with a run that is not ready yet. */
  predicate InHandshake(s: Loop) {
    Connected(s, Connecting, true) && s.probe == NoProbe && s.timer == Armed(ConnectDeadline, s.connectDeadline)
  }

  /** Online: the timer is the liveness check, due no later than the liveness deadline. */
  predicate InOnline(w: World, s: Loop) {
    && Connected(s, Online, false) && s.probe == NoProbe
    && s.timer.Armed? && s.timer.purpose == LivenessCheck
    && ZERO < s.timer.deadline <= s.snapshot.livenessDeadline
    && s.snapshot.livenessDeadline == LastSign(s) + w.policy.livenessTimeout
  }

  predicate InDegraded(w: World, s: Loop) {
    && Connected(s, Degraded, false) && s.probe.Probing?
    && s.timer == (if s.probe.timedOut then NoTimer
                   else Armed(ProbeDeadline, s.probe.started + w.policy.probeTimeout))
    && ZERO < s.probe.started <= Now(w, s)
  }

  predicate SignsKnown(w: World, s: Loop) {
    && s.journal.hist.runs.lastSign <= LastSign(s) <= Now(w, s)
    && (s.snapshot.state == Connecting || s.journal.hist.runs.lastSign == LastSign(s))
    && ZERO < s.livenessBaseline
    && s.connectDeadline > ZERO
  }

  /** The slots, timer and gate are exactly those the state requires. */
  predicate InState(w: World, s: Loop) {
    || InIdle(s) || InPairing(s) || InBackoff(w, s) || InRepair(w, s)
    || (InDial(s) && SignsKnown(w, s))
    || (InHandshake(s) && SignsKnown(w, s))
    || (InOnline(w, s) && SignsKnown(w, s))
    || (InDegraded(w, s) && SignsKnown(w, s))
  }

  /** A routed credentials-expired failure waits for its repair. */
  predicate RepairAwaited(s: Loop) {
    s.journal.hist.repairs.owed ==>
      && (s.snapshot.state == Blocked || s.snapshot.state == RepairingCredentials)
      && s.failures.last.kind == CredentialsExpired
  }

  /** A pairing limit that is not over yet is still enforced by RetryAt. */
  predicate PairLimitKept(w: World, s: Loop) {
    || s.journal.hist.pairings.limit <= Now(w, s)
    || (s.snapshot.state == Unpaired && s.snapshot.retryAt == s.journal.hist.pairings.limit)
  }

  /** The invariant, up to the deferred reply, which is resolved last. */
  ghost predicate Settled(w: World, s: Loop) {
    && Logged(w, s, Held(s)) && RepairAwaited(s) && PairLimitKept(w, s) && InState(w, s)
    && (s.published == s.snapshot || w.stopCalled(s.polls))
  }

  ghost predicate Valid(w: World, s: Loop) {
    && Settled(w, s)
    && (s.pendingStartReply.Some? ==> s.start != NoStart)
  }

  /** No connection, no worker, no timer: a failure can be routed or a generation started. */
  ghost predicate Detached(w: World, s: Loop) {
    && Logged(w, s, {}) && Bare(s) && !s.repairing && s.pair == NoPair && s.timer == NoTimer
    && s.journal.hist.pairings.limit <= Now(w, s)
  }

  /** What a handler does to the queues and the past; it accepts no command. */
  ghost predicate Continues(s: Loop, t: Loop) {
    && s.polls <= t.polls
    && t.commands == s.commands
    && t.activityQueue == s.activityQueue
    && |t.pairQueue| <= |s.pairQueue|
    && s.journal.log <= t.journal.log
  }

  /** The effects a handler has, in order. */
  ghost predicate Wrote(s: Loop, t: Loop, effects: seq<Event>) {
    t.journal.log == s.journal.log + effects
  }

  lemma Chain(s: Loop, t: Loop, u: Loop)
    requires Continues(s, t) && Continues(t, u)
    ensures Continues(s, u)
  {
  }

  // ------------------------------------------------ generations and repairs

  /** The gate of the next generation may be opened. */
  lemma OpenGenerationSafe(w: World, s: Loop, started: Time)
    requires ValidWorld(w) && Detached(w, s)
    ensures var t := OpenGeneration(w, s, started);
            var generation := s.snapshot.generation + 1;
            var snapshot := Snapshot(Connecting, generation, ZERO, ZERO, ZERO, ZERO, Unset, "");
            var deadline := started + w.policy.connectTimeout;
            && t == s.(snapshot := snapshot, published := snapshot, connectDeadline := deadline,
                       livenessBaseline := started, timer := Armed(ConnectDeadline, deadline),
                       gate := Gate(generation, true), journal := t.journal)
            && Sound(w.policy, t.journal) && Wrote(s, t, [GateOpened(generation)])
            && t.journal.hist == s.journal.hist.(runs := s.journal.hist.runs.(gate := Some(generation)))
  {
    hide Note, Sound;
  }

  lemma StartGenerationSafe(w: World, s: Loop)
    requires ValidWorld(w) && Detached(w, s) && !s.journal.hist.repairs.owed
    ensures var (t, reply) := StartGeneration(w, s);
            && Continues(s, t) && t.pendingStartReply == s.pendingStartReply
            && reply == (if w.stopCalled(s.polls) then ErrStopped else Done)
            && (reply == ErrStopped ==> t == Poll(s) && w.stopCalled(t.polls))
            && (reply == Done ==>
                  && Settled(w, t) && t.start == Outstanding && t.failures == s.failures
                  && t.snapshot == Snapshot(Connecting, s.snapshot.generation + 1, ZERO, ZERO, ZERO, ZERO, Unset, "")
                  && t.connectDeadline == Now(w, Poll(s)) + w.policy.connectTimeout
                  && Wrote(s, t, [GateOpened(t.snapshot.generation), StartCalled(t.snapshot.generation)]))
  {
    hide Note, Sound, OpenGeneration;
    var asked := Poll(Poll(s));
    assert Detached(w, asked);
    OpenGenerationSafe(w, asked, Now(w, Poll(s)));
  }

  /** A new repair is outstanding, or the account is blocked for want of a repairer. */
  predicate RepairEntered(w: World, s: Loop, t: Loop, failure: OpError) {
    && t.repairing == w.hasRepairer && (w.hasRepairer ==> t.repairEpoch == s.repairEpoch + 1)
    && t.snapshot == s.snapshot.(state := if w.hasRepairer then RepairingCredentials else Blocked, retryAt := ZERO,
                                 errorClass := failure.kind, errorFingerprint := failure.fingerprint)
    && t.failures == s.failures.(last := failure, repairFailed := !w.hasRepairer)
  }

  lemma BeginCredentialRepairSafe(w: World, s: Loop, failure: OpError, automatic: bool)
    requires ValidWorld(w) && Detached(w, s) && failure.kind == CredentialsExpired
    requires automatic && s.failures.sameFingerprint != "" ==>
               && s.journal.hist.repairs.automatic < s.failures.sameFailureCount
               && s.failures.sameFailureCount < w.policy.maxSameFingerprint
    ensures var t := BeginCredentialRepair(w, s, failure, automatic);
            && Settled(w, t) && Continues(s, t) && t.pendingStartReply == s.pendingStartReply
            && RepairEntered(w, s, t, failure)
            && Wrote(s, t, if w.hasRepairer then [RepairBegun(automatic)] else [])
            && t.polls == s.polls
  {
    hide Note, Sound;
  }

  // ------------------------------------------------ failures

  /** What a routed failure is remembered by: in the snapshot, as the last failure, and in
      the circuit's counters, which an unpaired account starts afresh. */
  predicate Remembered(s: Loop, t: Loop, failure: OpError) {
    var kind := Routed(failure.kind);
    && t.failures.last == failure.(kind := kind)
    && t.snapshot.livenessDeadline == ZERO
    && (t.snapshot.errorClass, t.snapshot.errorFingerprint) ==
         (if kind == Transient && t.snapshot.state == Blocked then (Misconfigured, "invalid_jitter_source")
          else (kind, failure.fingerprint))
    && if kind == AccountUnpaired then t.failures.sameFailureCount == t.failures.transientAttempt == 0
       else
         && t.failures.sameFailureCount == Recorded(s.failures, kind, failure.fingerprint).sameFailureCount
         && t.failures.transientAttempt == s.failures.transientAttempt + if kind == Transient then 1 else 0
  }

  /** Where a routed failure leaves the account. */
  ghost predicate RoutedTo(w: World, s: Loop, t: Loop, failure: OpError)
    requires ValidPolicy(w.policy)
  {
    var kind := Routed(failure.kind);
    && Remembered(s, t, failure)
    && if kind == AccountUnpaired then t.snapshot.state == Unpaired
    else if Opens(w.policy, s.failures, kind, failure.fingerprint) then t.snapshot.state == Blocked
    else if kind == Transient then
      var cap := CapSpec(w.policy.minBackoff, w.policy.maxBackoff, s.failures.transientAttempt + 1);
      if 0 <= w.random(s.polls) < cap
      then t.snapshot.state == Backoff && Now(w, Poll(s)) <= t.snapshot.retryAt < Now(w, Poll(s)) + cap
           && t.timer == Armed(BackoffWait, t.snapshot.retryAt)
      else t.snapshot.state == Blocked
    else if kind == RateLimited then
      && t.snapshot.state == Backoff && t.snapshot.retryAt == failure.retryAt
      && t.timer == Armed(BackoffWait, if failure.retryAt < Now(w, s) then Now(w, Poll(s)) else failure.retryAt)
    else if kind == CredentialsExpired && w.hasRepairer then
      t.snapshot.state == RepairingCredentials && t.repairing
    else t.snapshot.state == Blocked
  }

  /** What routing a failure writes down: its class and fingerprint, and what follows from them. */
  ghost predicate RouteWrote(w: World, s: Loop, t: Loop, failure: OpError) {
    var kind := Routed(failure.kind);
    Wrote(s, t, [Failed(kind, failure.fingerprint)] +
      if kind == AccountUnpaired then [HistoryCleared]
      else if t.snapshot.state == RepairingCredentials then [RepairBegun(true)] else [])
  }

  /** The routing depends on the counters and the draw alone. */
  lemma RoutedAlike(w: World, s: Loop, u: Loop, t: Loop, failure: OpError)
    requires ValidPolicy(w.policy) && RoutedTo(w, s, t, failure) && u.failures == s.failures && u.polls == s.polls
    ensures RoutedTo(w, u, t, failure)
  {
  }

  lemma NoteFailureSafe(w: World, s: Loop, failure: OpError)
    requires ValidWorld(w) && Detached(w, s) && !s.journal.hist.repairs.owed
    ensures var f := failure.(kind := Routed(failure.kind));
            var t := NoteFailure(w, s, f);
            && Detached(w, t) && Continues(s, t) && t.polls == s.polls
            && t.pendingStartReply == s.pendingStartReply
            && Wrote(s, t, [Failed(f.kind, f.fingerprint)])
            && t.failures == Recorded(s.failures, f.kind, f.fingerprint).(last := f)
            && t.snapshot == s.snapshot.(errorClass := f.kind, errorFingerprint := f.fingerprint,
                                         retryAt := ZERO, livenessDeadline := ZERO)
            && (t.journal.hist.repairs.owed ==> f.kind == CredentialsExpired)
            && (f.kind != Transient && f.fingerprint != "" ==>
                  t.journal.hist.repairs.automatic < t.failures.sameFailureCount)
  {
    hide Note, Sound;
  }

  lemma ParkSafe(w: World, s: Loop)
    requires ValidWorld(w) && Detached(w, s)
    requires s.journal.hist.repairs.owed ==> s.failures.last.kind == CredentialsExpired
    ensures var t := Park(s); Settled(w, t) && Continues(s, t) && Wrote(s, t, []) && t.snapshot.state == Blocked
  {
    hide Note, Sound;
  }

  lemma EnterUnpairedSafe(w: World, s: Loop, f: OpError)
    requires ValidWorld(w) && Detached(w, s) && !s.journal.hist.repairs.owed
    ensures var t := EnterUnpaired(w, s, f);
            && Settled(w, t) && Continues(s, t) && t.pendingStartReply == s.pendingStartReply && t.start == NoStart
            && Wrote(s, t, [HistoryCleared]) && t.snapshot.state == Unpaired
  {
    hide Note, Sound;
  }

  lemma BackOffSafe(w: World, s: Loop)
    requires ValidWorld(w) && Detached(w, s) && !s.journal.hist.repairs.owed
    ensures var t := BackOff(w, s);
            var cap := CapSpec(w.policy.minBackoff, w.policy.maxBackoff, s.failures.transientAttempt);
            && Settled(w, t) && Continues(s, t) && Wrote(s, t, [])
            && if 0 <= w.random(s.polls) < cap
               then t.snapshot.state == Backoff && Now(w, Poll(s)) <= t.snapshot.retryAt < Now(w, Poll(s)) + cap
                    && t.timer == Armed(BackoffWait, t.snapshot.retryAt)
               else t.snapshot.state == Blocked
  {
    hide Note, Sound, CapSpec;
  }

  lemma WaitForRateLimitSafe(w: World, s: Loop, retryAt: Time)
    requires ValidWorld(w) && Detached(w, s) && !s.journal.hist.repairs.owed
    ensures var t := WaitForRateLimit(w, s, retryAt);
            && Settled(w, t) && Continues(s, t) && Wrote(s, t, [])
            && t.snapshot.state == Backoff && t.snapshot.retryAt == retryAt
            && t.timer == Armed(BackoffWait, if retryAt < Now(w, s) then Now(w, Poll(s)) else retryAt)
  {
    hide Note, Sound;
  }

  lemma TransientRemembered(w: World, s: Loop, failure: OpError)
    requires ValidPolicy(w.policy) && Routed(failure.kind) == Transient
    ensures Remembered(s, RouteFailure(w, s, failure), failure)
  {
    hide Note, Sound, CapSpec, EnterUnpaired, WaitForRateLimit, BeginCredentialRepair;
  }

  lemma OtherRemembered(w: World, s: Loop, failure: OpError)
    requires ValidPolicy(w.policy) && Routed(failure.kind) != Transient && Routed(failure.kind) != AccountUnpaired
    ensures Remembered(s, RouteFailure(w, s, failure), failure)
  {
    hide Note, Sound, CapSpec, EnterUnpaired, BackOff;
  }

  lemma RouteRemembers(w: World, s: Loop, failure: OpError)
    requires ValidPolicy(w.policy)
    ensures Remembered(s, RouteFailure(w, s, failure), failure)
  {
    if Routed(failure.kind) == AccountUnpaired {
      hide Note, Sound, BackOff, WaitForRateLimit, BeginCredentialRepair;
    } else {
      hide *;
      if Routed(failure.kind) == Transient { TransientRemembered(w, s, failure); } else { OtherRemembered(w, s, failure); }
    }
  }

  /** Routing a failure from a torn-down connection restores the invariant, in the
      state the routing table names. */
  lemma RouteFailureSafe(w: World, s: Loop, failure: OpError)
    requires ValidWorld(w) && Detached(w, s) && !s.journal.hist.repairs.owed
    ensures var t := RouteFailure(w, s, failure);
            && Settled(w, t) && Continues(s, t) && t.pendingStartReply == s.pendingStartReply
            && t.start == NoStart && t.run == NoRun
            && RoutedTo(w, s, t, failure) && RouteWrote(w, s, t, failure)
  {
    hide *;
    RouteLeads(w, s, failure);
    RouteWrites(w, s, failure);
    RouteSettles(w, s, failure);
  }

  lemma RouteLeads(w: World, s: Loop, failure: OpError)
    requires ValidWorld(w) && Detached(w, s) && !s.journal.hist.repairs.owed
    ensures var t := RouteFailure(w, s, failure);
            RoutedTo(w, s, t, failure)
  {
    hide Note, Sound, CapSpec, NoteFailure, Settled, Remembered, Continues, Wrote;
    RouteRemembers(w, s, failure);
    var f := failure.(kind := Routed(failure.kind));
    NoteFailureSafe(w, s, failure);
    var noted := NoteFailure(w, s, f);
    if f.kind == AccountUnpaired { EnterUnpairedSafe(w, noted, f); }
    else if Opens(w.policy, s.failures, f.kind, f.fingerprint) { ParkSafe(w, noted); }
    else if f.kind == Transient { BackOffSafe(w, noted); }
    else if f.kind == RateLimited { WaitForRateLimitSafe(w, noted, f.retryAt); }
    else if f.kind == CredentialsExpired { BeginCredentialRepairSafe(w, noted, f, true); }
    else { ParkSafe(w, noted); }
  }

  lemma RouteWrites(w: World, s: Loop, failure: OpError)
    requires ValidWorld(w) && Detached(w, s) && !s.journal.hist.repairs.owed
    ensures RouteWrote(w, s, RouteFailure(w, s, failure), failure)
  {
    hide Note, Sound, CapSpec, NoteFailure, Settled, Continues;
    var f := failure.(kind := Routed(failure.kind));
    NoteFailureSafe(w, s, failure);
    var noted := NoteFailure(w, s, f);
    if f.kind == AccountUnpaired { EnterUnpairedSafe(w, noted, f); }
    else if Opens(w.policy, s.failures, f.kind, f.fingerprint) { ParkSafe(w, noted); }
    else if f.kind == Transient { BackOffSafe(w, noted); }
    else if f.kind == RateLimited { WaitForRateLimitSafe(w, noted, f.retryAt); }
    else if f.kind == CredentialsExpired { BeginCredentialRepairSafe(w, noted, f, true); }
    else { ParkSafe(w, noted); }
  }

  lemma RouteSettles(w: World, s: Loop, failure: OpError)
    requires ValidWorld(w) && Detached(w, s) && !s.journal.hist.repairs.owed
    ensures var t := RouteFailure(w, s, failure);
            && Settled(w, t) && Continues(s, t) && t.pendingStartReply == s.pendingStartReply
            && t.start == NoStart && t.run == NoRun
  {
    hide Note, Sound, CapSpec, NoteFailure, Settled, Wrote;
    var f := failure.(kind := Routed(failure.kind));
    NoteFailureSafe(w, s, failure);
    var noted := NoteFailure(w, s, f);
    if f.kind == AccountUnpaired { EnterUnpairedSafe(w, noted, f); }
    else if Opens(w.policy, s.failures, f.kind, f.fingerprint) { ParkSafe(w, noted); }
    else if f.kind == Transient { BackOffSafe(w, noted); }
    else if f.kind == RateLimited { WaitForRateLimitSafe(w, noted, f.retryAt); }
    else if f.kind == CredentialsExpired { BeginCredentialRepairSafe(w, noted, f, true); }
    else { ParkSafe(w, noted); }
  }

  // ------------------------------------------------ one connection

  /** How many more receives and deadlines the loop can handle once the clock stands
      still and the queues are empty. */
  function Rank(w: World, s: Loop): nat {
    match s.snapshot.state
    case Pairing => if Due(w, s) then 4 else 3
    case Unpaired => if s.pair.Attempt? then 1 else 0
    case RepairingCredentials => if s.repairing then 2 else 0
    case Backoff => if Due(w, s) then 2 else 0
    case Connecting => (if s.start != NoStart then 0 else 10) + if Due(w, s) then 1 else 0
    case Online => if Due(w, s) then 7 else 4
    case Degraded =>
      // A probe older than LivenessTimeout may prove so little that the next one is due at once.
      (if s.probe.Probing? && Now(w, s) < s.probe.started + w.policy.livenessTimeout then 5 else 8)
      + if Due(w, s) then 1 else 0
    case _ => 0
  }

  /** From here on the clock stands still and nothing arrives. */
  predicate Quiet(w: World, s: Loop) { w.horizon <= s.polls }

  lemma PollSafe(w: World, s: Loop)
    requires ValidWorld(w)
    ensures Settled(w, s) ==> Settled(w, Poll(s))
    ensures Valid(w, s) ==> Valid(w, Poll(s))
    ensures Continues(s, Poll(s))
    ensures Quiet(w, s) ==> Rank(w, Poll(s)) == Rank(w, s)
  {
    hide Note, Sound;
  }

  /** A connection without start worker that may be torn down. */
  ghost predicate Closable(w: World, s: Loop) {
    && Logged(w, s, Held(s)) && !s.journal.hist.repairs.owed
    && s.start == NoStart && s.worker == NoWorker && !s.repairing && s.pair == NoPair
    && s.journal.hist.pairings.limit <= Now(w, s)
  }

  lemma RetireCurrentSafe(w: World, s: Loop)
    requires ValidWorld(w) && Closable(w, s)
    ensures var t := RetireCurrent(w, ClearTimer(s));
            && Detached(w, t) && Continues(s, t) && t.pendingStartReply == s.pendingStartReply
            && !t.journal.hist.repairs.owed && t.polls == s.polls && t.failures == s.failures
  {
    hide Note, Sound;
  }

  /** Tearing a connection down and routing the failure. */
  lemma DropSafe(w: World, s: Loop, failure: OpError)
    requires ValidWorld(w) && Closable(w, s)
    ensures var t := RouteFailure(w, RetireCurrent(w, ClearTimer(s)), failure);
            && Settled(w, t) && Continues(s, t) && t.pendingStartReply == s.pendingStartReply
            && t.start == NoStart && t.run == NoRun && Rank(w, t) <= 2
            && RoutedTo(w, s, t, failure)
  {
    hide Note, Sound, RouteFailure, RetireCurrent, Logged, Detached, CapSpec;
    RetireCurrentSafe(w, s);
    RouteFailureSafe(w, RetireCurrent(w, ClearTimer(s)), failure);
  }

  lemma HandleConnectTimeoutSafe(w: World, s: Loop)
    requires ValidWorld(w) && Settled(w, s) && s.snapshot.state == Connecting
    ensures var t := HandleConnectTimeout(w, s);
            && Settled(w, t) && Continues(s, t) && t.pendingStartReply == s.pendingStartReply
            && t == HandleConnectTimeout(w, ClearTimer(s))
            && (if s.start != NoStart then
                  && t.start == TimedOut && !t.gate.active && t.snapshot == s.snapshot && Rank(w, t) == 0
                  && t.failures == s.failures && t.worker == s.worker
                else t.start == NoStart && t.run == NoRun && Rank(w, t) <= 2
                     && RoutedTo(w, s, t, CONNECT_TIMEOUT_FAILURE))
  {
    hide Note, Sound, RouteFailure, RetireCurrent;
    if s.start == NoStart { DropSafe(w, s, CONNECT_TIMEOUT_FAILURE); }
  }

  /** From `s` to `t` the waiting caller, if there is one, got this answer. */
  ghost predicate Informed(s: Loop, t: Loop, answer: Reply) {
    && t.pendingStartReply.None?
    && (s.pendingStartReply.Some? ==>
          t.journal.log != [] && t.journal.log[|t.journal.log| - 1] == Replied(s.pendingStartReply.value, answer))
  }

  lemma ResolvePendingStartSafe(w: World, s: Loop, answer: Reply)
    requires ValidWorld(w) && Settled(w, s)
    ensures var t := ResolvePendingStart(w, s, answer);
            && Valid(w, t) && Continues(s, t) && Informed(s, t, answer)
            && t == s.(pendingStartReply := None, journal := t.journal)
  {
    hide Note, Sound;
  }

  /** Whether the start worker came back in time with a run and no error. */
  predicate InTime(w: World, s: Loop)
    requires s.worker.Answered?
  {
    s.start == Outstanding && s.worker.err.None? && s.worker.run.Some? && Now(w, s) < s.connectDeadline
  }

  /** The failure of an attempt whose run is not installed: the error of the worker that
      was in time with one, a missing run, or else the connect deadline. */
  function StartFailure(s: Loop): OpError
    requires s.worker.Answered?
  {
    if s.start == Outstanding && s.worker.err.Some? then ClassifyFailure(s.worker.err.value, "start", "start_failed")
    else if s.start == Outstanding && s.worker.run.None? then NIL_RUN_FAILURE
    else CONNECT_TIMEOUT_FAILURE
  }

  /** The run is installed exactly when the worker was in time with it, and then the first
      attempt is reported as a success. Otherwise no run is left, and the same failure is
      routed and reported. */
  ghost predicate Concluded(w: World, s: Loop, t: Loop)
    requires s.worker.Answered? && ValidPolicy(w.policy)
  {
    var asked := s.start == Outstanding && s.worker.err.None? && s.worker.run.Some?;
    && Valid(w, t) && Continues(s, t) && t.start == NoStart
    && if InTime(w, s) then
         && t.run == Running(s.worker.run.value, true) && t.snapshot == s.snapshot && t.failures == s.failures
         && Informed(s, t, Done)
       else
         && t.run == NoRun
         && RoutedTo(w, if asked then Poll(s) else s, t, StartFailure(s))
         && Informed(s, t, ErrFirstAttempt(StartFailure(s)))
  }

  /** Once the worker's answer is taken, its run is stopped or installed. */
  lemma TakeAnswer(w: World, s: Loop)
    requires ValidWorld(w) && Valid(w, s) && s.start != NoStart && s.worker.Answered?
    ensures var taken := s.(start := NoStart, worker := NoWorker);
            var stopped := if s.worker.run.Some? then Emit(w, taken, RunStopped(s.worker.run.value)) else taken;
            var installed := if s.worker.run.Some? then taken.(run := Running(s.worker.run.value, true)) else taken;
            && Closable(w, stopped) && s.run == NoRun && s.probe == NoProbe && Continues(s, stopped)
            && s.snapshot.state == Connecting && Closable(w, installed)
            && (s.start == TimedOut ==> s.timer == NoTimer)
            && (s.start == Outstanding && s.worker.run.Some? ==> Settled(w, installed))
  {
    hide Note, Sound;
  }

  /** Once its failure is routed, the waiting caller is told. */
  lemma ReportSafe(w: World, s: Loop, u: Loop, answer: Reply)
    requires ValidWorld(w) && Settled(w, u) && Continues(s, u) && u.pendingStartReply == s.pendingStartReply
    ensures var t := ResolvePendingStart(w, u, answer);
            && Valid(w, t) && Continues(s, t) && Informed(s, t, answer)
            && t == u.(pendingStartReply := None, journal := t.journal)
  {
    hide Note, Sound, Settled, Valid, ResolvePendingStart;
    ResolvePendingStartSafe(w, u, answer);
  }

  /** Reporting a failure leaves it where it was routed to. */
  lemma StillRouted(w: World, s: Loop, r: Loop, u: Loop, t: Loop, failure: OpError)
    requires ValidPolicy(w.policy) && RoutedTo(w, r, u, failure) && r.failures == s.failures && r.polls == s.polls
    requires t == u.(pendingStartReply := None, journal := t.journal)
    ensures RoutedTo(w, s, t, failure)
  {
    hide CapSpec;
  }

  /** The start worker answered without a usable run, or too late. */
  lemma StartAbandonedSafe(w: World, s: Loop)
    requires ValidWorld(w) && Valid(w, s) && s.start != NoStart && s.worker.Answered?
    requires s.start == TimedOut || (s.worker.err.None? && s.worker.run.None?)
    ensures Concluded(w, s, HandleStartResult(w, s))
  {
    hide Note, Sound, RouteFailure, RetireCurrent, ResolvePendingStart, HandleConnectTimeout, ClassifyFailure, CapSpec, Rank;
    hide Valid, Settled, Closable, Detached, RoutedTo, Informed;
    TakeAnswer(w, s);
    var taken := s.(start := NoStart, worker := NoWorker);
    var stopped := if s.worker.run.Some? then Emit(w, taken, RunStopped(s.worker.run.value)) else taken;
    var failure := StartFailure(s);
    DeactivateSafe(w, stopped);
    var closed := Deactivate(w, ClearTimer(stopped));
    RouteFailureSafe(w, closed, failure);
    var routed := RouteFailure(w, closed, failure);
    ReportSafe(w, s, routed, ErrFirstAttempt(failure));
    StillRouted(w, s, closed, routed, ResolvePendingStart(w, routed, ErrFirstAttempt(failure)), failure);
  }

  /** The start worker answered in time with an error, and possibly a run to stop. */
  lemma StartFailedSafe(w: World, s: Loop)
    requires ValidWorld(w) && Valid(w, s) && s.start == Outstanding && s.worker.Answered? && s.worker.err.Some?
    ensures Concluded(w, s, HandleStartResult(w, s))
  {
    hide Note, Sound, RouteFailure, RetireCurrent, ResolvePendingStart, HandleConnectTimeout, ClassifyFailure, CapSpec, Rank;
    hide Valid, Settled, Closable, Detached, RoutedTo, Informed;
    TakeAnswer(w, s);
    var taken := s.(start := NoStart, worker := NoWorker);
    var installed := if s.worker.run.Some? then taken.(run := Running(s.worker.run.value, true)) else taken;
    var failure := StartFailure(s);
    DropSafe(w, installed, failure);
    var routed := RouteFailure(w, RetireCurrent(w, ClearTimer(installed)), failure);
    ReportSafe(w, s, routed, ErrFirstAttempt(failure));
    StillRouted(w, s, installed, routed, ResolvePendingStart(w, routed, ErrFirstAttempt(failure)), failure);
  }

  /** The start worker answered in time with a run. */
  lemma StartSucceededSafe(w: World, s: Loop)
    requires ValidWorld(w) && Valid(w, s) && s.start == Outstanding
    requires s.worker.Answered? && s.worker.err.None? && s.worker.run.Some?
    ensures Concluded(w, s, HandleStartResult(w, s))
  {
    hide Note, Sound, RouteFailure, RetireCurrent, ResolvePendingStart, HandleConnectTimeout, ClassifyFailure, CapSpec, Rank;
    hide Valid, Settled, Closable, Detached, RoutedTo, Informed;
    TakeAnswer(w, s);
    var installed := s.(start := NoStart, worker := NoWorker, run := Running(s.worker.run.value, true));
    PollSafe(w, installed);
    if Now(w, installed) >= s.connectDeadline {
      HandleConnectTimeoutSafe(w, Poll(installed));
      var routed := HandleConnectTimeout(w, Poll(installed));
      ReportSafe(w, s, routed, ErrFirstAttempt(CONNECT_TIMEOUT_FAILURE));
      StillRouted(w, Poll(s), Poll(installed), routed,
                  ResolvePendingStart(w, routed, ErrFirstAttempt(CONNECT_TIMEOUT_FAILURE)), CONNECT_TIMEOUT_FAILURE);
    } else {
      ReportSafe(w, s, Poll(installed), Done);
    }
  }

  /** Whatever the start worker answers is concluded; before it answers nothing happens. */
  ghost predicate StartHandled(w: World, s: Loop, t: Loop)
    requires ValidPolicy(w.policy)
  {
    if s.start != NoStart && s.worker.Answered? then Concluded(w, s, t) else t == s
  }

  lemma HandleStartResultSafe(w: World, s: Loop)
    requires ValidWorld(w) && Valid(w, s)
    ensures var t := HandleStartResult(w, s);
            Valid(w, t) && Continues(s, t) && StartHandled(w, s, t)
  {
    if s.start != NoStart && s.worker.Answered? {
      hide HandleStartResult, Valid, RoutedTo, Informed, Note, Sound, StartFailure;
      if s.start == TimedOut || (s.worker.err.None? && s.worker.run.None?) { StartAbandonedSafe(w, s); }
      else if s.worker.err.Some? { StartFailedSafe(w, s); }
      else { StartSucceededSafe(w, s); }
    }
  }

  /** Closing the gate of a connection whose worker is gone leaves it detached. */
  lemma DeactivateSafe(w: World, s: Loop)
    requires ValidWorld(w) && Closable(w, s) && s.run == NoRun && s.probe == NoProbe
    ensures var t := Deactivate(w, ClearTimer(s));
            && Detached(w, t) && Continues(s, t) && t.pendingStartReply == s.pendingStartReply
            && !t.journal.hist.repairs.owed
  {
    hide Note, Sound;
  }

  /** A completed run is retired and its failure routed, as a connect timeout if that is due. */
  ghost predicate RunEnded(w: World, s: Loop, t: Loop, err: Option<Error>)
    requires ValidPolicy(w.policy)
  {
    var asked := if s.snapshot.state == Connecting then Poll(s) else s;
    && t.run == NoRun
    && RoutedTo(w, asked, t,
         if s.snapshot.state == Connecting && Now(w, s) >= s.connectDeadline then CONNECT_TIMEOUT_FAILURE
         else ClassifyFailure(if err.Some? then err.value else Plain, "run", "run_completed"))
  }

  lemma HandleRunDoneSafe(w: World, s: Loop, err: Option<Error>)
    requires ValidWorld(w) && Valid(w, s)
    ensures var t := HandleRunDone(w, s, err);
            && Valid(w, t) && Continues(s, t)
            && (if s.run.Running? then RunEnded(w, s, t, err) && Rank(w, t) <= 2 else t == s)
  {
    hide Note, Sound, RouteFailure, RetireCurrent, HandleConnectTimeout, ClassifyFailure, CapSpec, RoutedTo;
    if s.run.Running? {
      PollSafe(w, s);
      var asked := if s.snapshot.state == Connecting then Poll(s) else s;
      if s.snapshot.state == Connecting && Now(w, s) >= s.connectDeadline {
        HandleConnectTimeoutSafe(w, asked);
      } else {
        DropSafe(w, asked, ClassifyFailure(if err.Some? then err.value else Plain, "run", "run_completed"));
      }
    }
  }

  /** A run whose signs of life are known, whatever the state and timer. */
  ghost predicate Beating(w: World, s: Loop) {
    && Closable(w, s) && s.pendingStartReply.None?
    && s.run.Running? && s.gate.active && SignsKnown(w, s)
  }

  lemma RescheduleSafe(w: World, s: Loop)
    requires ValidWorld(w) && Beating(w, s)
    requires s.snapshot.state == Online && !s.run.ready && s.probe == NoProbe
    ensures var t := Publish(Reschedule(w, s));
            && Valid(w, t) && Continues(s, t) && t.snapshot.state == Online
            && t.snapshot == s.snapshot.(livenessDeadline := LastSign(s) + w.policy.livenessTimeout)
            && t.failures == s.failures && LastSign(t) == LastSign(s) && t.livenessBaseline == s.livenessBaseline
            && t.run == s.run && t.probe == s.probe && Wrote(s, t, [])
            && t.timer.deadline == Min(Now(w, s) + w.policy.probeEvery, t.snapshot.livenessDeadline)
  {
    hide Note, Sound;
  }

  lemma ShowLifeSafe(w: World, s: Loop, seen: Snapshot, at: Time)
    requires ValidWorld(w) && Beating(w, s) && at <= Now(w, s)
    requires seen == s.snapshot.(lastEventAt := Max(s.snapshot.lastEventAt, at))
          || seen == s.snapshot.(lastProbeOKAt := Max(s.snapshot.lastProbeOKAt, at))
    ensures var t := ShowLife(w, s, seen, at);
            && Beating(w, t) && Continues(s, t) && t.polls == s.polls
            && t.failures == NO_FAILURES
            && t == s.(failures := NO_FAILURES, journal := t.journal,
                       snapshot := seen.(retryAt := ZERO, errorClass := Unset, errorFingerprint := ""))
            && LastSign(t) == Max(LastSign(s), at)
            && Wrote(s, t, [Alive(s.snapshot.generation, at), HistoryCleared])
  {
    hide Note, Sound;
  }

  lemma BeatingPoll(w: World, s: Loop)
    requires ValidWorld(w) && Beating(w, s)
    ensures Beating(w, Poll(s)) && Now(w, s) <= Now(w, Poll(s))
  {
    hide Note, Sound;
  }

  /** Online from `baseline` on, with nothing left of an earlier failure but its counters. */
  ghost predicate WentOnline(s: Loop, t: Loop, baseline: Time)
    requires s.run.Running?
  {
    && t.snapshot == s.snapshot.(state := Online, retryAt := ZERO, errorClass := Unset, errorFingerprint := "",
                                 livenessDeadline := t.snapshot.livenessDeadline)
    && t.livenessBaseline == baseline && t.failures == s.failures && t.run == s.run.(ready := false)
    && Wrote(s, t, [Alive(s.snapshot.generation, baseline)])
  }

  lemma GoOnlineSafe(w: World, s: Loop)
    requires ValidWorld(w) && Valid(w, s) && s.snapshot.state == Connecting && s.run.Running?
    requires Now(w, s) < s.connectDeadline
    ensures var t := HandleReady(w, s, None);
            && Valid(w, t) && Continues(s, t) && WentOnline(s, t, Now(w, Poll(s)))
            && (Quiet(w, s) ==> Rank(w, t) == 4)
  {
    hide Note, Sound, Reschedule;
    var asked := Poll(s);
    var online := Emit(w, Poll(asked).(
      run := s.run.(ready := false), timer := NoTimer, livenessBaseline := Now(w, asked),
      snapshot := s.snapshot.(state := Online, retryAt := ZERO, errorClass := Unset, errorFingerprint := "")),
      Alive(s.snapshot.generation, Now(w, asked)));
    RescheduleSafe(w, online);
  }

  /** Readiness leads to Online exactly when neither a completion nor the deadline comes first. */
  ghost predicate ReadyHandled(w: World, s: Loop, t: Loop, alsoDone: Option<Option<Error>>)
    requires ValidPolicy(w.policy) && s.run.Running?
  {
    if alsoDone.Some? then RunEnded(w, s, t, alsoDone.value)
    else if Now(w, s) >= s.connectDeadline then t.run == NoRun && RoutedTo(w, Poll(s), t, CONNECT_TIMEOUT_FAILURE)
    else WentOnline(s, t, Now(w, Poll(s)))
  }

  lemma HandleReadySafe(w: World, s: Loop, alsoDone: Option<Option<Error>>)
    requires ValidWorld(w) && Valid(w, s) && s.run.Running? && s.run.ready
    ensures var t := HandleReady(w, s, alsoDone);
            && Valid(w, t) && Continues(s, t) && ReadyHandled(w, s, t, alsoDone)
            && (Quiet(w, s) ==> Rank(w, t) < Rank(w, s))
  {
    hide Note, Sound, HandleRunDone, HandleConnectTimeout, ScheduleLivenessCheck, RefreshLivenessDeadline, RoutedTo, RunEnded, WentOnline;
    PollSafe(w, s);
    if alsoDone.Some? { HandleRunDoneSafe(w, s, alsoDone.value); }
    else if Now(w, s) >= s.connectDeadline { HandleConnectTimeoutSafe(w, Poll(s)); }
    else { GoOnlineSafe(w, s); }
  }

  /** A valid loop with a run is beating; shown life, it stays in its state. */
  lemma LiveRunSafe(w: World, s: Loop, seen: Snapshot, at: Time)
    requires ValidWorld(w) && Valid(w, s) && s.run.Running? && at <= Now(w, s)
    requires seen == s.snapshot.(lastEventAt := Max(s.snapshot.lastEventAt, at))
          || seen == s.snapshot.(lastProbeOKAt := Max(s.snapshot.lastProbeOKAt, at))
    ensures var t := ShowLife(w, Poll(s), seen, at);
            && Beating(w, t) && Continues(s, t) && t.failures == NO_FAILURES
            && t.snapshot.state == s.snapshot.state
            && LastSign(t) == LastSign(Publish(t)) == Max(LastSign(s), at)
            && t.snapshot == seen.(retryAt := ZERO, errorClass := Unset, errorFingerprint := "")
            && t.run == s.run && t.probe == s.probe
            && Wrote(s, t, [Alive(s.snapshot.generation, at), HistoryCleared])
            && (s.snapshot.state == Online ==> !t.run.ready && t.probe == NoProbe)
            && (s.snapshot.state != Online ==> Valid(w, Publish(t)) && Continues(s, Publish(t)))
  {
    hide Note, Sound, ShowLife;
    BeatingPoll(w, s);
    ShowLifeSafe(w, Poll(s), seen, at);
  }

  /** The snapshot with the new sign of life. */
  function Seen(w: World, s: Loop, activity: Activity): Snapshot {
    var at := ClampActivityTime(activity.at, Now(w, s));
    if activity.kind == EventActivity
    then s.snapshot.(lastEventAt := Max(s.snapshot.lastEventAt, at))
    else s.snapshot.(lastProbeOKAt := Max(s.snapshot.lastProbeOKAt, at))
  }

  /** What activity of the live generation does: it is dated, kept apart by kind, and
      clears the failure history. */
  ghost predicate Livened(w: World, s: Loop, t: Loop, activity: Activity) {
    var at := ClampActivityTime(activity.at, Now(w, s));
    && Valid(w, t) && Continues(s, t)
    && t.failures == NO_FAILURES && t.run == s.run && t.probe == s.probe
    && t.snapshot == Seen(w, s, activity).(retryAt := ZERO, errorClass := Unset, errorFingerprint := "",
                                           livenessDeadline := t.snapshot.livenessDeadline)
    && LastSign(t) == Max(LastSign(s), at)
    && Wrote(s, t, [Alive(s.snapshot.generation, at), HistoryCleared])
  }

  lemma ActivityOnlineSafe(w: World, s: Loop, activity: Activity)
    requires ValidWorld(w) && Valid(w, s) && s.run.Running? && s.snapshot.state == Online
    requires activity.generation == s.snapshot.generation
    ensures Livened(w, s, HandleActivity(w, s, activity), activity)
  {
    hide Note, Sound, Reschedule, ShowLife, Valid, Beating, Continues, ValidWorld, LastSign;
    var at := ClampActivityTime(activity.at, Now(w, s));
    LiveRunSafe(w, s, Seen(w, s, activity), at);
    var alive := ShowLife(w, Poll(s), Seen(w, s, activity), at);
    RescheduleSafe(w, alive);
    Chain(s, alive, Publish(Reschedule(w, alive)));
  }

  lemma ActivityElsewhereSafe(w: World, s: Loop, activity: Activity)
    requires ValidWorld(w) && Valid(w, s) && s.run.Running? && s.snapshot.state != Online
    requires activity.generation == s.snapshot.generation
    ensures Livened(w, s, HandleActivity(w, s, activity), activity)
  {
    hide Note, Sound, Reschedule, ShowLife, Valid, Beating, Continues, ValidWorld, LastSign;
    LiveRunSafe(w, s, Seen(w, s, activity), ClampActivityTime(activity.at, Now(w, s)));
  }

  /** A callback of another generation, or one that outlives its run, changes nothing;
      any other renews liveness and clears the failure history. */
  ghost predicate ActivityHandled(w: World, s: Loop, t: Loop, activity: Activity) {
    if activity.generation != s.snapshot.generation || s.run == NoRun then t == s else Livened(w, s, t, activity)
  }

  lemma HandleActivitySafe(w: World, s: Loop, activity: Activity)
    requires ValidWorld(w) && Valid(w, s)
    ensures var t := HandleActivity(w, s, activity);
            Valid(w, t) && Continues(s, t) && ActivityHandled(w, s, t, activity)
  {
    hide Note, Sound, Reschedule, ShowLife, Valid, ValidWorld;
    if activity.generation == s.snapshot.generation && s.run.Running? {
      hide HandleActivity;
      if s.snapshot.state == Online { ActivityOnlineSafe(w, s, activity); } else { ActivityElsewhereSafe(w, s, activity); }
    }
  }

  /** Degraded, with a probe begun now and its deadline armed. */
  ghost predicate ProbeStarted(w: World, s: Loop, t: Loop) {
    && t.snapshot == s.snapshot.(state := Degraded) && t.run == s.run && t.failures == s.failures
    && t.probe == Probing(Now(w, s), false)
    && t.timer == Armed(ProbeDeadline, Now(w, s) + w.policy.probeTimeout)
    && Wrote(s, t, [ProbeBegun(s.snapshot.generation, Now(w, s))])
  }

  lemma BeginProbeSafe(w: World, s: Loop)
    requires ValidWorld(w) && Valid(w, s) && s.snapshot.state == Online
    requires s.snapshot.livenessDeadline <= Now(w, s)
    ensures var t := BeginProbe(w, ClearTimer(s));
            && Valid(w, t) && Continues(s, t) && ProbeStarted(w, s, t)
            && (Quiet(w, s) ==> Rank(w, t) == 5)
  {
    hide Note, Sound;
    if Quiet(w, s) { ProbeRank(w, s); }
    hide Rank;
  }

  lemma ProbeRank(w: World, s: Loop)
    requires ValidWorld(w) && Quiet(w, s) && s.run.Running? && s.snapshot.state == Online && s.probe == NoProbe
    ensures Rank(w, BeginProbe(w, ClearTimer(s))) == 5
  {
    hide Note, Sound;
  }

  /** Back Online, with a sign of life no earlier than the probe was begun and no later than
      now, and with the failure history cleared. */
  ghost predicate ProbedAlive(w: World, s: Loop, t: Loop, aliveAt: Time)
    requires s.probe.Probing?
  {
    var at := Max(ClampActivityTime(aliveAt, Now(w, s)), s.probe.started);
    && t.snapshot == s.snapshot.(state := Online, lastProbeOKAt := Max(s.snapshot.lastProbeOKAt, at),
                                 retryAt := ZERO, errorClass := Unset, errorFingerprint := "",
                                 livenessDeadline := t.snapshot.livenessDeadline)
    && t.failures == NO_FAILURES && t.run == s.run && s.probe.started <= LastSign(t)
    && Wrote(s, t, [Alive(s.snapshot.generation, at), HistoryCleared])
  }

  lemma ProbeAliveSafe(w: World, s: Loop, aliveAt: Time)
    requires ValidWorld(w) && Valid(w, s) && s.probe.Probing? && !s.probe.timedOut
    ensures var t := HandleProbeResult(w, s, s.snapshot.generation, aliveAt, None);
            && Valid(w, t) && Continues(s, t) && ProbedAlive(w, s, t, aliveAt)
            && (Quiet(w, s) ==> Rank(w, t) < Rank(w, s))
  {
    hide Note, Sound, Reschedule, ShowLife, RouteFailure, RetireCurrent;
    var taken := Poll(ClearTimer(s.(probe := NoProbe)));
    var at := Max(ClampActivityTime(aliveAt, Now(w, s)), s.probe.started);
    var seen := s.snapshot.(lastProbeOKAt := Max(s.snapshot.lastProbeOKAt, at));
    BeatingPoll(w, s);
    ShowLifeSafe(w, taken, seen, at);
    var alive := ShowLife(w, taken, seen, at);
    RescheduleSafe(w, alive.(snapshot := alive.snapshot.(state := Online)));
  }

  lemma ProbeFailedSafe(w: World, s: Loop, aliveAt: Time, err: Option<Error>)
    requires ValidWorld(w) && Valid(w, s) && s.probe.Probing? && (s.probe.timedOut || err.Some?)
    ensures var t := HandleProbeResult(w, s, s.snapshot.generation, aliveAt, err);
            && Valid(w, t) && Continues(s, t) && Rank(w, t) <= 2 < Rank(w, s) && t.run == NoRun
            && RoutedTo(w, s, t, if s.probe.timedOut then PROBE_TIMEOUT_FAILURE
                                 else ClassifyFailure(err.value, "probe", "probe_failed"))
  {
    hide Note, Sound, RouteFailure, RetireCurrent, ClassifyFailure, CapSpec, Reschedule, ShowLife, RoutedTo;
    var failure := if s.probe.timedOut then PROBE_TIMEOUT_FAILURE
                   else ClassifyFailure(err.value, "probe", "probe_failed");
    DropSafe(w, s.(probe := NoProbe), failure);
    RoutedAlike(w, s.(probe := NoProbe), s, HandleProbeResult(w, s, s.snapshot.generation, aliveAt, err), failure);
  }

  /** A good probe returns to Online, a failed or late one retires the run and routes the
      failure, a stale one changes nothing. */
  ghost predicate ProbeHandled(w: World, s: Loop, t: Loop, generation: nat, aliveAt: Time, err: Option<Error>)
    requires ValidPolicy(w.policy)
  {
    if s.probe == NoProbe || generation != s.snapshot.generation then t == s
    else if !s.probe.timedOut && err.None? then ProbedAlive(w, s, t, aliveAt)
    else t.run == NoRun && RoutedTo(w, s, t, if s.probe.timedOut then PROBE_TIMEOUT_FAILURE
                                             else ClassifyFailure(err.value, "probe", "probe_failed"))
  }

  lemma HandleProbeResultSafe(w: World, s: Loop, generation: nat, aliveAt: Time, err: Option<Error>)
    requires ValidWorld(w) && Valid(w, s)
    ensures var t := HandleProbeResult(w, s, generation, aliveAt, err);
            && Valid(w, t) && Continues(s, t) && ProbeHandled(w, s, t, generation, aliveAt, err)
            && (s.probe.Probing? && generation == s.snapshot.generation && Quiet(w, s) ==> Rank(w, t) < Rank(w, s))
  {
    hide Valid, Rank, Note, Sound, RouteFailure, RetireCurrent, ProbeAlive, RoutedTo, ClassifyFailure, LastSign, ProbedAlive;
    if s.probe.Probing? && generation == s.snapshot.generation {
      hide HandleProbeResult, Continues;
      if !s.probe.timedOut && err.None? {
        ProbeAliveSafe(w, s, aliveAt);
      } else {
        ProbeFailedSafe(w, s, aliveAt, err);
      }
    }
  }

  /** Success starts the next generation, unless Stop was called, and forgets no failure;
      failure blocks; results of other repairs change nothing. */
  ghost predicate RepairHandled(w: World, s: Loop, t: Loop, epoch: nat, err: Option<Error>) {
    if !s.repairing || epoch != s.repairEpoch then t == s
    else
      && !t.repairing
      && t.failures == s.failures.(repairFailed := err.Some?)
      && if err.Some? then t.snapshot == s.snapshot.(state := Blocked) && Wrote(s, t, [RepairReturned(false)])
         else if w.stopCalled(s.polls) then t.start == NoStart && t.snapshot == s.snapshot && Wrote(s, t, [RepairReturned(true)])
         else
           var generation := s.snapshot.generation + 1;
           && t.start == Outstanding && t.snapshot.state == Connecting && t.snapshot.generation == generation
           && Wrote(s, t, [RepairReturned(true), GateOpened(generation), StartCalled(generation)])
  }

  lemma RepairSucceededSafe(w: World, s: Loop)
    requires ValidWorld(w) && Valid(w, s) && s.repairing
    ensures var t := HandleRepairResult(w, s, s.repairEpoch, None);
            && Valid(w, t) && Continues(s, t) && (Quiet(w, s) ==> Rank(w, t) < Rank(w, s))
            && RepairHandled(w, s, t, s.repairEpoch, None)
  {
    hide Note, Sound, StartGeneration;
    var answered := Emit(w, s.(repairing := false), RepairReturned(true));
    var cleared := answered.(failures := s.failures.(repairFailed := false));
    StartGenerationSafe(w, cleared);
  }

  lemma RepairFailedSafe(w: World, s: Loop, err: Error)
    requires ValidWorld(w) && Valid(w, s) && s.repairing
    ensures var t := HandleRepairResult(w, s, s.repairEpoch, Some(err));
            Valid(w, t) && Continues(s, t) && RepairHandled(w, s, t, s.repairEpoch, Some(err)) && Rank(w, t) < Rank(w, s)
  {
    hide Note, Sound, StartGeneration;
  }

  lemma HandleRepairResultSafe(w: World, s: Loop, epoch: nat, err: Option<Error>)
    requires ValidWorld(w) && Valid(w, s)
    ensures var t := HandleRepairResult(w, s, epoch, err);
            && Valid(w, t) && Continues(s, t) && RepairHandled(w, s, t, epoch, err)
            && (s.repairing && epoch == s.repairEpoch && Quiet(w, s) ==> Rank(w, t) < Rank(w, s))
  {
    hide Note, Sound, Valid, Rank, ValidWorld, StartGeneration, Wrote;
    if s.repairing && epoch == s.repairEpoch {
      hide HandleRepairResult, Continues;
      if err.None? { RepairSucceededSafe(w, s); } else { RepairFailedSafe(w, s, err.value); }
    }
  }

  // ------------------------------------------------ pairing

  /** A new attempt is open, and nothing of an earlier one is left to be read. */
  ghost predicate PairingEntered(w: World, s: Loop, t: Loop) {
    && t.snapshot == s.snapshot.(state := Pairing, retryAt := ZERO, errorClass := Unset, errorFingerprint := "")
    && t.pairEpoch == s.pairEpoch + 1 && t.pair == Attempt(false, ZERO) && t.pairQueue == []
    && t.failures == s.failures
    && Wrote(s, t, [PairBegun(t.pairEpoch, Now(w, s))])
  }

  lemma AdmitPairingSafe(w: World, s: Loop)
    requires ValidWorld(w) && Valid(w, s) && w.hasPairer && s.pair == NoPair && s.snapshot.state == Unpaired
    requires s.snapshot.retryAt == ZERO || s.snapshot.retryAt <= Now(w, s)
    ensures var (t, reply) := BeginPairing(w, s);
            && Valid(w, t) && Continues(s, t) && reply == Done
            && t.pendingStartReply == s.pendingStartReply && PairingEntered(w, s, t)
  {
    hide Note, Sound, Rank;
  }

  /** Pairing is admitted only from Unpaired, with no attempt outstanding, and not
      before the time a blocked or rate-limited outcome named; a refusal says which of
      these is missing and changes nothing. */
  ghost predicate PairingAnswered(w: World, s: Loop, t: Loop, reply: Reply) {
    var waits := s.snapshot.retryAt != ZERO && Now(w, s) < s.snapshot.retryAt;
    && reply == (if !w.hasPairer then ErrPairerUnavailable
                 else if s.pair.Attempt? then ErrPairingInProgress
                 else if s.snapshot.state != Unpaired then ErrPairingNotAllowed
                 else if waits then ErrPairingRateLimited else Done)
    && if reply == Done then PairingEntered(w, s, t) else t == s.(polls := t.polls)
  }

  lemma BeginPairingSafe(w: World, s: Loop)
    requires ValidWorld(w) && Valid(w, s)
    ensures var (t, reply) := BeginPairing(w, s);
            && Valid(w, t) && Continues(s, t) && PairingAnswered(w, s, t, reply)
            && t.pendingStartReply == s.pendingStartReply
  {
    hide Note, Sound, Valid, PairingEntered;
    if w.hasPairer && s.pair == NoPair && s.snapshot.state == Unpaired {
      PollSafe(w, s);
      if s.snapshot.retryAt == ZERO || s.snapshot.retryAt <= Now(w, s) {
        AdmitPairingSafe(w, s);
        hide BeginPairing;
      }
    }
  }

  /** An open attempt, whatever its timer and expiry. */
  ghost predicate OpenAttempt(w: World, s: Loop) {
    && Logged(w, s, {}) && Bare(s) && !s.repairing && s.pendingStartReply.None?
    && s.snapshot.state == Pairing && s.pair.Attempt? && !s.pair.expired
    && !s.journal.hist.repairs.owed && s.journal.hist.pairings.limit <= Now(w, s)
  }

  /** The attempt is closed, and the account Unpaired while it drains. */
  ghost predicate Expired(s: Loop, t: Loop) {
    && s.pair.Attempt? && t.pair.Attempt? && t.pair.expired && t.pairEpoch == s.pairEpoch
    && t.snapshot == s.snapshot.(state := Unpaired, retryAt := ZERO, errorClass := Unset, errorFingerprint := "")
    && t.failures == s.failures
    && Wrote(s, t, [PairClosed(s.pairEpoch)])
  }

  lemma ExpirePairingSafe(w: World, s: Loop)
    requires ValidWorld(w) && OpenAttempt(w, s)
    ensures var t := ExpirePairing(w, s);
            && Valid(w, t) && Continues(s, t) && Expired(s, t)
            && t.pair == s.pair.(expired := true) && Rank(w, t) == 1
  {
    hide Note, Sound;
  }

  /** A blocked attempt is closed, and no other may begin before the time it names. */
  ghost predicate Limited(s: Loop, t: Loop, event: PairEvent) {
    && t.pair == Attempt(true, ZERO) && t.failures == s.failures
    && t.snapshot == s.snapshot.(state := Unpaired, retryAt := event.expiresAt,
                                 errorClass := RateLimited, errorFingerprint := event.message)
    && Wrote(s, t, [PairClosed(s.pairEpoch), PairLimited(event.expiresAt)])
  }

  lemma BlockPairingSafe(w: World, s: Loop, event: PairEvent)
    requires ValidWorld(w) && OpenAttempt(w, s)
    ensures var t := BlockPairing(w, s, event);
            && Valid(w, t) && Continues(s, t) && Limited(s, t, event) && Rank(w, t) == 1
  {
    hide Note, Sound;
  }

  /** Events of old epochs or after the attempt was closed change nothing; a blocked event
      closes it until its time; a dated code arms the expiry or expires at once. */
  ghost predicate PairEventHandled(w: World, s: Loop, t: Loop, epoch: nat, event: PairEvent) {
    var dated := (event.kind == Qr || event.kind == Code) && event.expiresAt != ZERO;
    if s.pair == NoPair || epoch != s.pairEpoch || s.snapshot.state != Pairing then t == s
    else if event.kind == AttemptBlocked then Limited(s, t, event)
    else if !dated then t == s
    else if Now(w, s) >= event.expiresAt then Expired(s, t)
    else t == Poll(s).(pair := Attempt(false, event.expiresAt), timer := Armed(PairExpiry, event.expiresAt))
  }

  lemma HandlePairEventSafe(w: World, s: Loop, epoch: nat, event: PairEvent)
    requires ValidWorld(w) && Valid(w, s)
    ensures var t := HandlePairEvent(w, s, epoch, event);
            Valid(w, t) && Continues(s, t) && PairEventHandled(w, s, t, epoch, event)
  {
    if s.pair.Attempt? && epoch == s.pairEpoch && s.snapshot.state == Pairing {
      hide Note, Sound, ExpirePairing, BlockPairing;
      if event.kind == AttemptBlocked { BlockPairingSafe(w, s, event); }
      else if (event.kind == Qr || event.kind == Code) && event.expiresAt != ZERO {
        var dated := Poll(s.(pair := s.pair.(expiresAt := event.expiresAt)));
        if Now(w, s) >= event.expiresAt { ExpirePairingSafe(w, dated); }
      }
    }
  }

  /** An attempt that was closed, or whose code has run out by now. */
  predicate RunOut(w: World, s: Loop)
    requires s.pair.Attempt?
  {
    s.pair.expired || (s.pair.expiresAt != ZERO && s.pair.expiresAt <= Now(w, s))
  }

  lemma JudgePairingSafe(w: World, s: Loop)
    requires ValidWorld(w) && Valid(w, s) && s.pair.Attempt?
    ensures var t := JudgePairing(w, s);
            && Valid(w, t) && Continues(s, t) && t.pair.Attempt? && t.pairEpoch == s.pairEpoch
            && (t.pair.expired <==> RunOut(w, s))
            && (if RunOut(w, s) && !s.pair.expired then Expired(s, t)
                else t.snapshot == s.snapshot && t.failures == s.failures && Wrote(s, t, []))
  {
    hide Note, Sound;
    PollSafe(w, s);
    if s.snapshot.state == Pairing && s.pair.expiresAt != ZERO && Now(w, s) >= s.pair.expiresAt {
      ExpirePairingSafe(w, Poll(s));
    }
  }

  /** A failed attempt ends in Unpaired or Blocked and is remembered as the last failure;
      only a rate limit names a time, before which no other attempt may begin. */
  ghost predicate PairFailed(s: Loop, t: Loop, failure: OpError) {
    var limited := failure.kind == RateLimited;
    var parked := failure.kind in {ReauthRequired, UpgradeRequired, Misconfigured, Unsupported};
    && t.snapshot == s.snapshot.(state := if parked then Blocked else Unpaired,
                                 retryAt := if limited then failure.retryAt else ZERO,
                                 errorClass := failure.kind, errorFingerprint := failure.fingerprint)
    && t.failures == s.failures.(last := failure)
    && Wrote(s, t, if limited then [PairLimited(failure.retryAt), PairReturned(s.pairEpoch)] else [PairReturned(s.pairEpoch)])
  }

  lemma LimitPairingSafe(w: World, s: Loop, failure: OpError)
    requires ValidWorld(w) && OpenAttempt(w, s) && failure.kind == RateLimited
    ensures var t := FailPairing(w, s.(pair := NoPair, pairQueue := [], timer := NoTimer), failure, PairReturned(s.pairEpoch));
            Valid(w, t) && Continues(s, t) && PairFailed(s, t, failure) && t.pair == NoPair && t.pairQueue == []
  {
    hide Note, Sound, Rank;
  }

  lemma EndPairingSafe(w: World, s: Loop, failure: OpError)
    requires ValidWorld(w) && OpenAttempt(w, s) && failure.kind != RateLimited
    ensures var t := FailPairing(w, s.(pair := NoPair, pairQueue := [], timer := NoTimer), failure, PairReturned(s.pairEpoch));
            Valid(w, t) && Continues(s, t) && PairFailed(s, t, failure) && t.pair == NoPair && t.pairQueue == []
  {
    hide Note, Sound, Rank;
  }

  lemma FailPairingSafe(w: World, s: Loop, failure: OpError)
    requires ValidWorld(w) && OpenAttempt(w, s)
    ensures var t := FailPairing(w, s.(pair := NoPair, pairQueue := [], timer := NoTimer), failure, PairReturned(s.pairEpoch));
            Valid(w, t) && Continues(s, t) && PairFailed(s, t, failure) && t.pair == NoPair && t.pairQueue == []
  {
    hide *;
    if failure.kind == RateLimited { LimitPairingSafe(w, s, failure); } else { EndPairingSafe(w, s, failure); }
  }

  /** Where the result of an attempt that is not closed takes the account: success to
      Stopped, a failure to Unpaired or Blocked. One that is closed changes nothing more. */
  ghost predicate PairingEnded(s: Loop, t: Loop, err: Option<Error>)
    requires s.pair.Attempt?
  {
    && t.pair == NoPair && t.pairQueue == []
    && if s.pair.expired then
         t.snapshot == s.snapshot && t.failures == s.failures && Wrote(s, t, [PairReturned(s.pairEpoch)])
       else if err.None? then
         && t.snapshot == s.snapshot.(state := Stopped, retryAt := ZERO, errorClass := Unset, errorFingerprint := "")
         && t.failures == s.failures && Wrote(s, t, [PairedUp(s.pairEpoch), PairReturned(s.pairEpoch)])
       else PairFailed(s, t, ClassifyFailure(err.value, "pair", "pair_failed"))
  }

  lemma AttemptRanks(w: World, s: Loop)
    requires Valid(w, s) && s.pair.Attempt?
    ensures Rank(w, s) > 0 && (s.pair.expired ==> s.snapshot.state == Unpaired)
  {
    hide Note, Sound;
  }

  /** A closed attempt has drained: the account stays Unpaired, its retry time too. */
  lemma DrainPairingSafe(w: World, s: Loop, err: Option<Error>)
    requires ValidWorld(w) && Valid(w, s) && s.pair.Attempt? && s.pair.expired
    ensures var t := FinishPairing(w, s, err);
            Valid(w, t) && Continues(s, t) && PairingEnded(s, t, err) && t.snapshot.state == Unpaired
  {
    hide Note, Sound, Rank, FailPairing;
  }

  lemma PairUpSafe(w: World, s: Loop)
    requires ValidWorld(w) && OpenAttempt(w, s)
    ensures var t := FinishPairing(w, s, None);
            Valid(w, t) && Continues(s, t) && PairingEnded(s, t, None)
  {
    hide Note, Sound, Rank, FailPairing;
  }

  lemma FinishPairingSafe(w: World, s: Loop, err: Option<Error>)
    requires ValidWorld(w) && Valid(w, s) && s.pair.Attempt?
    ensures var t := FinishPairing(w, s, err);
            Valid(w, t) && Continues(s, t) && PairingEnded(s, t, err) && Rank(w, t) == 0
  {
    AttemptRanks(w, s);
    hide Note, Sound, FailPairing, ClassifyFailure;
    if s.pair.expired { DrainPairingSafe(w, s, err); }
    else if err.None? { PairUpSafe(w, s); }
    else { FailPairingSafe(w, s, ClassifyFailure(err.value, "pair", "pair_failed")); }
  }

  /** An attempt that was closed, or whose code has run out by the time its result
      arrives, never moves the account to Stopped: it is expired first, if it was open. */
  ghost predicate PairingHandled(w: World, s: Loop, t: Loop, epoch: nat, err: Option<Error>) {
    if s.pair == NoPair || epoch != s.pairEpoch then t == s
    else exists judged: Loop ::
      && judged.pair.Attempt? && judged.pair.expired == RunOut(w, s) && judged.pairEpoch == s.pairEpoch
      && (if RunOut(w, s) && !s.pair.expired then Expired(s, judged)
          else judged.snapshot == s.snapshot && judged.failures == s.failures && Wrote(s, judged, []))
      && PairingEnded(judged, t, err)
  }

  lemma HandlePairResultSafe(w: World, s: Loop, epoch: nat, err: Option<Error>)
    requires ValidWorld(w) && Valid(w, s)
    ensures var t := HandlePairResult(w, s, epoch, err);
            && Valid(w, t) && Continues(s, t) && PairingHandled(w, s, t, epoch, err)
            && (s.pair.Attempt? && epoch == s.pairEpoch ==> Rank(w, t) < Rank(w, s))
  {
    if s.pair.Attempt? && epoch == s.pairEpoch {
      AttemptRanks(w, s);
      hide Note, Sound, JudgePairing, FinishPairing, Valid, Rank, PairingEnded, RunOut, Expired, Wrote;
      JudgePairingSafe(w, s);
      FinishPairingSafe(w, JudgePairing(w, s), err);
      Chain(s, JudgePairing(w, s), HandlePairResult(w, s, epoch, err));
      hide Continues;
    }
  }

  // ------------------------------------------------ deadlines

  /** How many deadlines can fire in a row while the clock stands still. */
  function DeadlinesLeft(w: World, s: Loop): nat {
    if !Due(w, s) then 0 else if s.timer.purpose == ConnectDeadline then 2 else 1
  }

  /** Where a fired deadline takes the loop from each state that has one. */
  ghost predicate FiredInto(w: World, s: Loop, t: Loop)
    requires ValidPolicy(w.policy)
  {
    match s.snapshot.state
    case Connecting =>
      if s.start != NoStart then t.start == TimedOut && !t.gate.active && t.snapshot == s.snapshot
      else t.run == NoRun && RoutedTo(w, Poll(s), t, CONNECT_TIMEOUT_FAILURE)
    case Online =>
      if Now(w, Poll(s)) >= s.snapshot.livenessDeadline then ProbeStarted(w, Poll(Poll(s)), t)
      else t.snapshot == s.snapshot && t.timer.Armed? && Now(w, Poll(s)) < t.timer.deadline
    case Backoff =>
      if w.stopCalled(s.polls + 2) then t.snapshot == s.snapshot
      else t.start == Outstanding && t.snapshot.generation == s.snapshot.generation + 1 && t.failures == s.failures
    case Degraded => s.probe.Probing? && t.probe == s.probe.(timedOut := true) && t.snapshot == s.snapshot
    case Pairing => Expired(s, t)
    case _ => false
  }

  /** What one fired deadline keeps, does and uses up. */
  ghost predicate Fired(w: World, s: Loop, t: Loop)
    requires ValidPolicy(w.policy)
  {
    && Valid(w, t) && Continues(s, t) && FiredInto(w, s, t)
    && (Quiet(w, s) ==> Rank(w, t) < Rank(w, s))
    && (Now(w, t) == Now(w, s) ==> DeadlinesLeft(w, t) < DeadlinesLeft(w, s))
  }

  lemma FireConnectSafe(w: World, s: Loop)
    requires ValidWorld(w) && Valid(w, s) && Due(w, s) && s.snapshot.state == Connecting
    ensures Fired(w, s, FireDeadline(w, ClearTimer(Poll(s)), ConnectDeadline))
  {
    hide Note, Sound, HandleConnectTimeout;
    PollSafe(w, s);
    HandleConnectTimeoutSafe(w, Poll(s));
  }

  lemma FireProbeStartSafe(w: World, s: Loop)
    requires ValidWorld(w) && Valid(w, s) && Due(w, s) && s.snapshot.state == Online
    requires Now(w, Poll(s)) >= s.snapshot.livenessDeadline
    ensures Fired(w, s, FireDeadline(w, ClearTimer(Poll(s)), LivenessCheck))
  {
    hide Note, Sound, BeginProbe;
    PollSafe(w, s);
    PollSafe(w, Poll(s));
    BeginProbeSafe(w, Poll(Poll(s)));
    assert Poll(ClearTimer(Poll(s))) == ClearTimer(Poll(Poll(s)));
  }

  lemma FirePutOffSafe(w: World, s: Loop)
    requires ValidWorld(w) && Valid(w, s) && Due(w, s) && s.snapshot.state == Online
    requires Now(w, Poll(s)) < s.snapshot.livenessDeadline
    ensures Fired(w, s, FireDeadline(w, ClearTimer(Poll(s)), LivenessCheck))
    ensures FireDeadline(w, ClearTimer(Poll(s)), LivenessCheck).snapshot == s.snapshot
  {
    hide Note, Sound;
  }

  lemma FireLivenessSafe(w: World, s: Loop)
    requires ValidWorld(w) && Valid(w, s) && Due(w, s) && s.snapshot.state == Online
    ensures Fired(w, s, FireDeadline(w, ClearTimer(Poll(s)), LivenessCheck))
    ensures Now(w, Poll(s)) < s.snapshot.livenessDeadline ==>
              FireDeadline(w, ClearTimer(Poll(s)), LivenessCheck).snapshot == s.snapshot
  {
    hide *;
    if Now(w, Poll(s)) >= s.snapshot.livenessDeadline { FireProbeStartSafe(w, s); } else { FirePutOffSafe(w, s); }
  }

  lemma FireBackoffSafe(w: World, s: Loop)
    requires ValidWorld(w) && Valid(w, s) && Due(w, s) && s.snapshot.state == Backoff
    ensures Fired(w, s, FireDeadline(w, ClearTimer(Poll(s)), BackoffWait))
  {
    hide Note, Sound, StartGeneration;
    var ready := Poll(ClearTimer(Poll(s)));
    if !w.stopCalled(s.polls + 1) { StartGenerationSafe(w, ready); }
  }

  lemma FireProbeSafe(w: World, s: Loop)
    requires ValidWorld(w) && Valid(w, s) && Due(w, s) && s.snapshot.state == Degraded
    ensures Fired(w, s, FireDeadline(w, ClearTimer(Poll(s)), ProbeDeadline))
  {
    hide Note, Sound;
  }

  lemma FireExpirySafe(w: World, s: Loop)
    requires ValidWorld(w) && Valid(w, s) && Due(w, s) && s.snapshot.state == Pairing
    ensures Fired(w, s, FireDeadline(w, ClearTimer(Poll(s)), PairExpiry))
  {
    hide Note, Sound, ExpirePairing;
    ExpirePairingSafe(w, Poll(ClearTimer(Poll(s))));
  }

  /** The timer's purpose is the one its state needs. */
  lemma DueStates(w: World, s: Loop)
    requires ValidWorld(w) && Valid(w, s) && s.timer.Armed?
    ensures s.timer.deadline != ZERO
    ensures (s.snapshot.state, s.timer.purpose) in
              {(Connecting, ConnectDeadline), (Online, LivenessCheck), (State.Backoff, BackoffWait),
               (Degraded, ProbeDeadline), (Pairing, PairExpiry)}
  {
    hide Note, Sound;
  }

  /** A due deadline fires, and at a standing clock at most two fire in a row. */
  lemma EnforceDueDeadlineSafe(w: World, s: Loop)
    requires ValidWorld(w) && Valid(w, s)
    ensures var (t, fired) := EnforceDueDeadline(w, s);
            && Valid(w, t) && Continues(s, t)
            && fired == Due(w, s)
            && (fired ==> Fired(w, s, t))
            && (!fired ==> t == if s.timer.Armed? then Poll(s) else s)
            && (!fired && s.timer.Armed? ==> Now(w, s) < s.timer.deadline)
            && (!fired && Quiet(w, s) ==> Rank(w, t) == Rank(w, s))
  {
    hide Note, Sound, FireDeadline, Valid, Rank, DeadlinesLeft;
    PollSafe(w, s);
    if s.timer.Armed? { DueStates(w, s); }
    if Due(w, s) {
      match s.timer.purpose
      case ConnectDeadline => FireConnectSafe(w, s);
      case LivenessCheck => FireLivenessSafe(w, s);
      case BackoffWait => FireBackoffSafe(w, s);
      case ProbeDeadline => FireProbeSafe(w, s);
      case PairExpiry => FireExpirySafe(w, s);
    }
  }

  /** What is done with the item received. */
  ghost predicate ReceivedAs(w: World, s: Loop, t: Loop, choice: Choice)
    requires ValidPolicy(w.policy)
  {
    match choice
    case TakeActivity =>
      if s.activityQueue == [] then t == s
      else ActivityHandled(w, s.(activityQueue := s.activityQueue[1..]), t, s.activityQueue[0])
    case TakeReady(alsoDone) => if s.run.Running? && s.run.ready then ReadyHandled(w, s, t, alsoDone) else t == s
    case TakeDone(err) => if s.run.Running? then RunEnded(w, s, t, err) else t == s
    case TakeProbe(generation, aliveAt, err) => ProbeHandled(w, s, t, generation, aliveAt, err)
    case TakeRepair(epoch, err) => RepairHandled(w, s, t, epoch, err)
    case TakePairEvent =>
      if s.pairQueue == [] then t == s
      else PairEventHandled(w, s.(pairQueue := s.pairQueue[1..]), t, s.pairEpoch, s.pairQueue[0])
    case TakePair(epoch, err) => PairingHandled(w, s, t, epoch, err)
    case _ => t == s
  }

  /** What one receive keeps and, on a channel the loop holds, uses up. */
  ghost predicate Received(w: World, s: Loop, t: Loop, choice: Choice)
    requires ValidPolicy(w.policy)
  {
    && ReceivedAs(w, s, t, choice)
    && Valid(w, t) && s.polls <= t.polls && s.journal.log <= t.journal.log
    && t.commands == s.commands
    && |t.activityQueue| <= |s.activityQueue| && |t.pairQueue| <= |s.pairQueue|
    && (CanReceive(s, choice) && Quiet(w, s) ==>
          || |t.activityQueue| < |s.activityQueue|
          || |t.pairQueue| < |s.pairQueue|
          || Rank(w, t) < Rank(w, s))
  }

  lemma QueuesAreFree(w: World, s: Loop, activities: seq<Activity>, events: seq<PairEvent>)
    requires Valid(w, s)
    ensures Valid(w, s.(activityQueue := activities, pairQueue := events))
  {
    hide Note, Sound;
  }

  lemma ReceiveQueuedSafe(w: World, s: Loop, choice: Choice)
    requires ValidWorld(w) && Valid(w, s) && (choice.TakeActivity? || choice.TakePairEvent?)
    ensures Received(w, s, Receive(w, s, choice), choice)
  {
    hide Note, Sound, HandleActivity, HandlePairEvent, Rank, Valid, ActivityHandled, PairEventHandled;
    if choice.TakeActivity? && s.activityQueue != [] {
      QueuesAreFree(w, s, s.activityQueue[1..], s.pairQueue);
      HandleActivitySafe(w, s.(activityQueue := s.activityQueue[1..]), s.activityQueue[0]);
    } else if choice.TakePairEvent? && s.pairQueue != [] {
      QueuesAreFree(w, s, s.activityQueue, s.pairQueue[1..]);
      HandlePairEventSafe(w, s.(pairQueue := s.pairQueue[1..]), s.pairEpoch, s.pairQueue[0]);
    }
  }

  lemma ReceiveFromRunSafe(w: World, s: Loop, choice: Choice)
    requires ValidWorld(w) && Valid(w, s) && (choice.TakeReady? || choice.TakeDone?)
    ensures Received(w, s, Receive(w, s, choice), choice)
  {
    hide Note, Sound, HandleReady, HandleRunDone, ReadyHandled, RunEnded;
    if choice.TakeDone? { HandleRunDoneSafe(w, s, choice.err); }
    else if s.run.Running? && s.run.ready { HandleReadySafe(w, s, choice.alsoDone); }
  }

  lemma ReceiveFromWorkerSafe(w: World, s: Loop, choice: Choice)
    requires ValidWorld(w) && Valid(w, s) && (choice.TakeProbe? || choice.TakeRepair? || choice.TakePair?)
    ensures Received(w, s, Receive(w, s, choice), choice)
  {
    hide Note, Sound, HandleProbeResult, HandleRepairResult, HandlePairResult, ProbeHandled, RepairHandled, PairingHandled;
    match choice
    case TakeProbe(generation, aliveAt, err) => HandleProbeResultSafe(w, s, generation, aliveAt, err);
    case TakeRepair(epoch, err) => HandleRepairResultSafe(w, s, epoch, err);
    case TakePair(epoch, err) => HandlePairResultSafe(w, s, epoch, err);
  }

  /** Every receive keeps the invariant and, on a channel the loop holds, uses up an
      item of a queue or some rank. */
  lemma ReceiveSafe(w: World, s: Loop, choice: Choice)
    requires ValidWorld(w) && Valid(w, s)
    ensures Received(w, s, Receive(w, s, choice), choice)
  {
    if choice.TakeActivity? || choice.TakePairEvent? { ReceiveQueuedSafe(w, s, choice); }
    else if choice.TakeReady? || choice.TakeDone? { ReceiveFromRunSafe(w, s, choice); }
    else if choice.TakeProbe? || choice.TakeRepair? || choice.TakePair? { ReceiveFromWorkerSafe(w, s, choice); }
  }

  /** An arrival joins the end of its queue while there is room, and while its attempt is open. */
  predicate Arrived(s: Loop, t: Loop, arrival: Arrival) {
    match arrival
    case NoArrival => t == s
    case ActivityArrives(a) => t == s.(activityQueue := s.activityQueue + if |s.activityQueue| < 256 then [a] else [])
    case PairEventArrives(e) =>
      var open := s.pair.Attempt? && !s.pair.expired && |s.pairQueue| < 32;
      t == s.(pairQueue := s.pairQueue + if open then [e] else [])
  }

  lemma ArriveSafe(w: World, s: Loop, arrival: Arrival)
    requires ValidWorld(w) && Valid(w, s)
    ensures var t := Arrive(s, arrival);
            && Valid(w, t) && t.polls == s.polls && t.journal == s.journal && t.commands == s.commands
            && Arrived(s, t, arrival)
  {
    hide Note, Sound;
  }
}
