/** What one account supervisor does to the world, as a log of effects, together
    with the rules every effect must obey when it happens. The run loop in
    Supervisor.dfy appends to such a log; the lemmas here turn the step-by-step
    rules into statements about any two points of a whole run. */
module SupervisorLog {
  import opened Bridge

  datatype Event =
    | GateOpened(gen: nat)                        // generationFence.activate
    | GateClosed(gen: nat)                        // generationFence.deactivate of the open generation
    | Committed(gen: nat)                         // a callback reached the downstream sink
    | StartCalled(gen: nat)                       // Lifecycle.Start is handed to its worker
    | RunProduced(gen: nat, run: nat)             // Lifecycle.Start returned a Run
    | RunStopped(run: nat)                        // Run.Stop was called and joined
    | Alive(gen: nat, at: Time)                   // readiness, an event, a beat or a good probe
    | ProbeBegun(gen: nat, at: Time)
    | Failed(kind: FailureClass, fingerprint: string)   // a failure was routed
    | HistoryCleared                              // positive liveness, a user command or AccountUnpaired
    | RepairBegun(automatic: bool)                // automatic: begun by routing a failure
    | RepairReturned(ok: bool)
    | Accepted(cmd: nat)                          // its handler has run and a reply is owed
    | Replied(cmd: nat, answer: Reply)            // its response channel is written
    | PairBegun(epoch: nat, at: Time)
    | PairClosed(epoch: nat)                      // the attempt expired or was blocked
    | PairLimited(until: Time)                    // the blocked or rate-limited outcome
    | PairedUp(epoch: nat)                        // the attempt moved the account to Stopped
    | PairReturned(epoch: nat)

  /** Generations, their gate, the runs produced and still live, and the latest sign of life. */
  datatype Runs = Runs(gen: nat, gate: Option<nat>, produced: set<nat>, live: set<nat>, lastSign: Time)

  /** Whether a repair is owed, the current streak of non-transient failures with its length
      and its automatic repairs, and the transient failures since the history was cleared. */
  datatype Repairs = Repairs(owed: bool, streak: string, length: nat, automatic: nat, transients: nat)

  /** How many commands were accepted, in order, and which still wait for their reply. */
  datatype Replies = Replies(accepted: nat, waiting: set<nat>)

  /** The outstanding pairing attempt, the newest epoch, and when pairing may begin again. */
  datatype Pairings = Pairings(attempt: Option<nat>, lastEpoch: nat, doomed: bool, limit: Time)

  datatype History = History(runs: Runs, repairs: Repairs, replies: Replies, pairings: Pairings)

  const INITIAL := History(
    Runs(0, None, {}, {}, ZERO), Repairs(false, "", 0, 0, 0), Replies(0, {}), Pairings(None, 0, false, ZERO))

  /** The rule each effect obeys at the moment it happens. */
  predicate Permitted(p: Policy, h: History, e: Event) {
    match e
    case GateOpened(g) => h.runs.gate.None? && g == h.runs.gen + 1
    case GateClosed(g) => h.runs.gate == Some(g) && g == h.runs.gen
    case Committed(g) => h.runs.gate == Some(g)
    case StartCalled(g) =>
      && g == h.runs.gen + 1 && h.runs.gate == Some(g)
      && h.runs.live == {}
      && !h.repairs.owed
      && h.pairings.attempt.None?
    case RunProduced(g, r) => g == h.runs.gen && r !in h.runs.produced
    case RunStopped(r) => r in h.runs.live
    case Alive(g, _) => g == h.runs.gen
    case ProbeBegun(g, at) => g == h.runs.gen && h.runs.lastSign + p.livenessTimeout <= at
    case Failed(_, _) => true
    case HistoryCleared => true
    case RepairBegun(automatic) =>
      automatic && h.repairs.streak != "" ==> h.repairs.automatic + 1 < p.maxSameFingerprint
    case RepairReturned(_) => true
    case Accepted(c) => c == h.replies.accepted
    case Replied(c, _) => c in h.replies.waiting
    case PairBegun(n, at) =>
      h.pairings.attempt.None? && n == h.pairings.lastEpoch + 1 && h.pairings.limit <= at
    case PairClosed(n) => h.pairings.attempt == Some(n)
    case PairLimited(_) => true
    case PairedUp(n) => h.pairings.attempt == Some(n) && !h.pairings.doomed
    case PairReturned(n) => h.pairings.attempt == Some(n)
  }

  function AdvanceRuns(r: Runs, e: Event): Runs {
    match e
    case GateOpened(g) => r.(gate := Some(g))
    case GateClosed(_) => r.(gate := None)
    case StartCalled(g) => r.(gen := g, lastSign := ZERO)
    case RunProduced(_, id) => r.(produced := r.produced + {id}, live := r.live + {id})
    case RunStopped(id) => r.(live := r.live - {id})
    case Alive(_, at) => r.(lastSign := Max(r.lastSign, at))
    case _ => r
  }

  function AdvanceRepairs(r: Repairs, e: Event): Repairs {
    match e
    case Failed(kind, fingerprint) =>
      var owed := r.owed || kind == CredentialsExpired;
      if kind == Transient then r.(owed := owed, transients := r.transients + 1)
      else if fingerprint == "" then Repairs(owed, "", 0, 0, r.transients)
      else if fingerprint == r.streak then r.(owed := owed, length := r.length + 1)
      else Repairs(owed, fingerprint, 1, 0, r.transients)
    case HistoryCleared => Repairs(r.owed, "", 0, 0, 0)
    case RepairBegun(automatic) => if automatic then r.(automatic := r.automatic + 1) else r
    case RepairReturned(ok) => r.(owed := r.owed && !ok)
    case _ => r
  }

  function AdvanceReplies(r: Replies, e: Event): Replies {
    match e
    case Accepted(c) => Replies(r.accepted + 1, r.waiting + {c})
    case Replied(c, _) => r.(waiting := r.waiting - {c})
    case _ => r
  }

  function AdvancePairings(r: Pairings, e: Event): Pairings {
    match e
    case PairBegun(n, _) => r.(attempt := Some(n), lastEpoch := n, doomed := false)
    case PairClosed(_) => r.(doomed := true)
    case PairLimited(until) => r.(limit := Max(r.limit, until))
    case PairReturned(_) => r.(attempt := None)
    case _ => r
  }

  function Advance(h: History, e: Event): History {
    History(AdvanceRuns(h.runs, e), AdvanceRepairs(h.repairs, e),
            AdvanceReplies(h.replies, e), AdvancePairings(h.pairings, e))
  }

  /** The history after the first `k` effects. */
  function At(log: seq<Event>, k: nat): History
    requires k <= |log|
  {
    if k == 0 then INITIAL else Advance(At(log, k - 1), log[k - 1])
  }

  function Replay(log: seq<Event>): History {
    At(log, |log|)
  }

  /** The first `k` effects each obeyed their rule. */
  predicate AcceptsTo(p: Policy, log: seq<Event>, k: nat)
    requires k <= |log|
  {
    k == 0 || (AcceptsTo(p, log, k - 1) && Permitted(p, At(log, k - 1), log[k - 1]))
  }

  predicate Accepts(p: Policy, log: seq<Event>) {
    AcceptsTo(p, log, |log|)
  }

  /** In an accepted log, effect `k` obeyed its rule and led to the next history. */
  lemma {:induction false} Moment(p: Policy, log: seq<Event>, n: nat, k: nat)
    requires k < n <= |log| && AcceptsTo(p, log, n)
    ensures AcceptsTo(p, log, k)
    ensures Permitted(p, At(log, k), log[k])
    ensures At(log, k + 1) == Advance(At(log, k), log[k])
    decreases n
  {
    if k < n - 1 { Moment(p, log, n - 1, k); }
  }

  /** Effect `i` obeyed its rule and led from `past[i]` to `past[i + 1]`. */
  ghost predicate StepAt(p: Policy, log: seq<Event>, past: seq<History>, i: nat)
    requires |past| == |log| + 1 && i < |log|
  {
    Permitted(p, past[i], log[i]) && past[i + 1] == Advance(past[i], log[i])
  }

  /** `past` lists the histories the log went through, each effect obeying its rule. */
  ghost predicate Traced(p: Policy, log: seq<Event>, past: seq<History>) {
    && |past| == |log| + 1
    && past[0] == INITIAL
    && forall i :: 0 <= i < |log| ==> StepAt(p, log, past, i)
  }

  /** Appending a permitted effect keeps the log traced. */
  lemma Append(p: Policy, log: seq<Event>, past: seq<History>, e: Event)
    requires Traced(p, log, past) && Permitted(p, past[|log|], e)
    ensures Traced(p, log + [e], past + [Advance(past[|log|], e)])
  {
    var longer, later := log + [e], past + [Advance(past[|log|], e)];
    forall i | 0 <= i < |longer| ensures StepAt(p, longer, later, i) {
      assert i < |log| ==> StepAt(p, log, past, i);
    }
  }

  /** A log together with the histories it went through. */
  datatype Journal = Journal(log: seq<Event>, past: seq<History>, hist: History)

  const BLANK := Journal([], [INITIAL], INITIAL)

  ghost predicate Sound(p: Policy, j: Journal) {
    Traced(p, j.log, j.past) && j.hist == j.past[|j.log|]
  }

  /** Writes down one effect; the journal stays sound if the effect was permitted. */
  function Note(p: Policy, j: Journal, e: Event): (r: Journal)
    ensures r.log == j.log + [e] && r.hist == Advance(j.hist, e)
    ensures Sound(p, j) && Permitted(p, j.hist, e) ==> Sound(p, r)
  {
    var next := Advance(j.hist, e);
    assert Sound(p, j) && Permitted(p, j.hist, e) ==> Traced(p, j.log + [e], j.past + [next]) by {
      if Sound(p, j) && Permitted(p, j.hist, e) { Append(p, j.log, j.past, e); }
    }
    Journal(j.log + [e], j.past + [next], next)
  }

  /** A traced log is accepted, and its last history is the replayed one. */
  lemma {:induction false} TracedTo(p: Policy, log: seq<Event>, past: seq<History>, k: nat)
    requires Traced(p, log, past) && k <= |log|
    ensures AcceptsTo(p, log, k) && At(log, k) == past[k]
  {
    if k > 0 {
      TracedTo(p, log, past, k - 1);
      assert StepAt(p, log, past, k - 1);
    }
  }

  lemma SoundIsAccepted(p: Policy, j: Journal)
    requires Sound(p, j)
    ensures Accepts(p, j.log) && Replay(j.log) == j.hist
  {
    TracedTo(p, j.log, j.past, |j.log|);
  }

  // ---------------------------------------------------------------- runs

  /** How often `run` is stopped by the first `k` effects. */
  function StopCount(log: seq<Event>, k: nat, run: nat): nat
    requires k <= |log|
  {
    if k == 0 then 0 else StopCount(log, k - 1, run) + if log[k - 1] == RunStopped(run) then 1 else 0
  }

  /** The stops of a run are exactly the runs that were produced and are no longer live. */
  lemma {:induction false} StopsAreRecorded(p: Policy, log: seq<Event>, k: nat, run: nat)
    requires k <= |log| && AcceptsTo(p, log, k)
    ensures var h := At(log, k);
            && h.runs.live <= h.runs.produced
            && StopCount(log, k, run) == if run in h.runs.produced && run !in h.runs.live then 1 else 0
  {
    if k > 0 {
      StopsAreRecorded(p, log, k - 1, run);
    }
  }

  lemma {:induction false} ProducedIsRecorded(log: seq<Event>, i: nat, k: nat)
    requires i < k <= |log| && log[i].RunProduced?
    ensures log[i].run in At(log, k).runs.produced
    decreases k
  {
    if i < k - 1 { ProducedIsRecorded(log, i, k - 1); }
  }

  /** Run exclusivity: whenever a generation is started, every Run ever produced
      before has been stopped exactly once. */
  lemma StartsAreExclusive(p: Policy, log: seq<Event>, i: nat, j: nat)
    requires Accepts(p, log) && i < j < |log|
    requires log[i].RunProduced? && log[j].StartCalled?
    ensures StopCount(log, j, log[i].run) == 1
  {
    Moment(p, log, |log|, j);
    ProducedIsRecorded(log, i, j);
    StopsAreRecorded(p, log, j, log[i].run);
  }

  /** No Run is ever stopped twice. */
  lemma StoppedAtMostOnce(p: Policy, log: seq<Event>, run: nat)
    requires Accepts(p, log)
    ensures StopCount(log, |log|, run) <= 1
  {
    StopsAreRecorded(p, log, |log|, run);
  }

  lemma {:induction false} GenerationOnlyGrows(p: Policy, log: seq<Event>, j: nat, k: nat)
    requires j <= k <= |log| && AcceptsTo(p, log, k)
    ensures At(log, j).runs.gen <= At(log, k).runs.gen
    decreases k
  {
    if j < k {
      GenerationOnlyGrows(p, log, j, k - 1);
    }
  }

  /** Generations only increase from one Lifecycle.Start to the next. */
  lemma GenerationsIncrease(p: Policy, log: seq<Event>, i: nat, j: nat)
    requires Accepts(p, log) && i < j < |log|
    requires log[i].StartCalled? && log[j].StartCalled?
    ensures log[i].gen < log[j].gen
  {
    Moment(p, log, |log|, j);
    Moment(p, log, j, i);
    GenerationOnlyGrows(p, log, i + 1, j);
  }

  // ---------------------------------------------------------------- gate

  /** What the gate was closed for stays behind: every later gate is newer. */
  lemma {:induction false} ClosedGateStaysClosed(p: Policy, log: seq<Event>, i: nat, k: nat)
    requires i < k <= |log| && AcceptsTo(p, log, k) && log[i].GateClosed?
    ensures var h := At(log, k);
            log[i].gen <= h.runs.gen && h.runs.gate != Some(log[i].gen)
    decreases k
  {
    if i < k - 1 { ClosedGateStaysClosed(p, log, i, k - 1); }
  }

  /** No downstream commit of a generation follows the closing of its gate. */
  lemma NoCommitAfterClose(p: Policy, log: seq<Event>, i: nat, j: nat)
    requires Accepts(p, log) && i < j < |log| && log[i].GateClosed?
    ensures log[j] != Committed(log[i].gen)
  {
    Moment(p, log, |log|, j);
    ClosedGateStaysClosed(p, log, i, j);
  }

  // ---------------------------------------------------------------- liveness

  lemma {:induction false} SignsAreRemembered(p: Policy, log: seq<Event>, i: nat, k: nat)
    requires i < k <= |log| && AcceptsTo(p, log, k) && log[i].Alive?
    ensures var h := At(log, k);
            log[i].gen <= h.runs.gen && (log[i].gen == h.runs.gen ==> log[i].at <= h.runs.lastSign)
    decreases k
  {
    if i < k - 1 {
      SignsAreRemembered(p, log, i, k - 1);
    }
  }

  /** A probe starts only after LivenessTimeout of silence: every sign of life of
      that generation is at least that old. */
  lemma ProbeOnlyAfterSilence(p: Policy, log: seq<Event>, i: nat, j: nat)
    requires Accepts(p, log) && i < j < |log|
    requires log[i].Alive? && log[j].ProbeBegun? && log[j].gen == log[i].gen
    ensures log[i].at + p.livenessTimeout <= log[j].at
  {
    Moment(p, log, |log|, j);
    SignsAreRemembered(p, log, i, j);
  }

  // ---------------------------------------------------------------- repair

  lemma {:induction false} OwedUntilRepaired(log: seq<Event>, i: nat, k: nat)
    requires i < k <= |log|
    requires log[i].Failed? && log[i].kind == CredentialsExpired
    requires forall m :: i < m < k ==> log[m] != RepairReturned(true)
    ensures At(log, k).repairs.owed
    decreases k
  {
    if i < k - 1 { OwedUntilRepaired(log, i, k - 1); }
  }

  /** Repair before reconnect: between a routed credentials-expired failure and the
      next generation some repair has returned nil. */
  lemma RepairBeforeReconnect(p: Policy, log: seq<Event>, i: nat, j: nat)
    requires Accepts(p, log) && i < j < |log|
    requires log[i].Failed? && log[i].kind == CredentialsExpired && log[j].StartCalled?
    ensures exists m :: i < m < j && log[m] == RepairReturned(true)
  {
    if forall m :: i < m < j ==> log[m] != RepairReturned(true) {
      Moment(p, log, |log|, j);
      OwedUntilRepaired(log, i, j);
      assert false;
    }
  }

  function AutomaticRepairs(log: seq<Event>, lo: nat, hi: nat): nat
    requires lo <= hi <= |log|
    decreases hi
  {
    if lo == hi then 0
    else AutomaticRepairs(log, lo, hi - 1) + if log[hi - 1] == RepairBegun(true) then 1 else 0
  }

  /** A stretch of the log with one failure streak: nothing clears the history, and
      every non-transient failure in it reports `fingerprint`. */
  ghost predicate OneStreak(log: seq<Event>, lo: nat, hi: nat, fingerprint: string)
    requires lo <= hi <= |log|
  {
    forall m :: lo <= m < hi ==>
      && log[m] != HistoryCleared
      && (log[m].Failed? && log[m].kind != Transient ==> log[m].fingerprint == fingerprint)
  }

  lemma {:induction false} StreakIsCounted(p: Policy, log: seq<Event>, i: nat, k: nat)
    requires i < k <= |log| && AcceptsTo(p, log, k)
    requires log[i].Failed? && log[i].kind != Transient && log[i].fingerprint != ""
    requires OneStreak(log, i, k, log[i].fingerprint)
    ensures var h := At(log, k);
            && h.repairs.streak == log[i].fingerprint
            && AutomaticRepairs(log, i, k) <= h.repairs.automatic
    ensures AutomaticRepairs(log, i, k) < p.maxSameFingerprint || AutomaticRepairs(log, i, k) == 0
    decreases k
  {
    if i < k - 1 { StreakIsCounted(p, log, i, k - 1); }
  }

  /** The circuit: as long as neither liveness nor the user intervenes, a streak of
      non-transient failures with one fingerprint begins at most
      MaxSameFingerprint - 1 automatic repairs. */
  lemma RepairBudget(p: Policy, log: seq<Event>, i: nat, j: nat)
    requires ValidPolicy(p) && Accepts(p, log) && i < j <= |log|
    requires log[i].Failed? && log[i].kind != Transient && log[i].fingerprint != ""
    requires OneStreak(log, i, j, log[i].fingerprint)
    ensures AutomaticRepairs(log, i, j) <= p.maxSameFingerprint - 1
  {
    if j < |log| { Moment(p, log, |log|, j); }
    StreakIsCounted(p, log, i, j);
  }

  /** How many of the latest non-transient failures, back to where the history was cleared,
      reported this fingerprint without another one in between. */
  function InARow(log: seq<Event>, k: nat, fingerprint: string): nat
    requires k <= |log|
  {
    if k == 0 || log[k - 1] == HistoryCleared then 0
    else if !log[k - 1].Failed? || log[k - 1].kind == Transient then InARow(log, k - 1, fingerprint)
    else if log[k - 1].fingerprint != fingerprint then 0
    else InARow(log, k - 1, fingerprint) + 1
  }

  /** How many transient failures there were since the history was cleared. */
  function TransientTries(log: seq<Event>, k: nat): nat
    requires k <= |log|
  {
    if k == 0 || log[k - 1] == HistoryCleared then 0
    else TransientTries(log, k - 1) + if log[k - 1].Failed? && log[k - 1].kind == Transient then 1 else 0
  }

  /** The two counters of the history count what their names say. */
  lemma {:induction false} FailuresAreCounted(log: seq<Event>, k: nat, fingerprint: string)
    requires k <= |log| && fingerprint != ""
    ensures var r := At(log, k).repairs;
            && InARow(log, k, fingerprint) == (if fingerprint == r.streak then r.length else 0)
            && TransientTries(log, k) == r.transients
  {
    if k > 0 { FailuresAreCounted(log, k - 1, fingerprint); }
  }

  // ---------------------------------------------------------------- replies

  function ReplyCount(log: seq<Event>, k: nat, cmd: nat): nat
    requires k <= |log|
  {
    if k == 0 then 0 else ReplyCount(log, k - 1, cmd) + if log[k - 1].Replied? && log[k - 1].cmd == cmd then 1 else 0
  }

  lemma {:induction false} RepliesAreRecorded(p: Policy, log: seq<Event>, k: nat, cmd: nat)
    requires k <= |log| && AcceptsTo(p, log, k)
    ensures var h := At(log, k).replies;
            && (cmd in h.waiting ==> cmd < h.accepted)
            && ReplyCount(log, k, cmd) == if cmd < h.accepted && cmd !in h.waiting then 1 else 0
  {
    if k > 0 {
      RepliesAreRecorded(p, log, k - 1, cmd);
    }
  }

  lemma {:induction false} AcceptedIsRecorded(p: Policy, log: seq<Event>, k: nat, cmd: nat)
    requires k <= |log| && AcceptsTo(p, log, k)
    ensures cmd < At(log, k).replies.accepted <==> Accepted(cmd) in log[..k]
  {
    if k > 0 {
      AcceptedIsRecorded(p, log, k - 1, cmd);
      assert log[..k] == log[..k - 1] + [log[k - 1]];
    }
  }

  /** Every command is answered at most once, and only when it was accepted. */
  lemma AnsweredOnce(p: Policy, log: seq<Event>, cmd: nat)
    requires Accepts(p, log)
    ensures ReplyCount(log, |log|, cmd) ==
              if Accepted(cmd) in log && cmd !in Replay(log).replies.waiting then 1 else 0
  {
    RepliesAreRecorded(p, log, |log|, cmd);
    AcceptedIsRecorded(p, log, |log|, cmd);
    assert log[..|log|] == log;
  }

  // ---------------------------------------------------------------- pairing

  lemma {:induction false} LimitOnlyGrows(log: seq<Event>, i: nat, k: nat)
    requires i < k <= |log| && log[i].PairLimited?
    ensures log[i].until <= At(log, k).pairings.limit
    decreases k
  {
    if i < k - 1 { LimitOnlyGrows(log, i, k - 1); }
  }

  /** After a blocked or rate-limited outcome no pairing begins before its time. */
  lemma PairingWaitsForLimit(p: Policy, log: seq<Event>, i: nat, j: nat)
    requires Accepts(p, log) && i < j < |log|
    requires log[i].PairLimited? && log[j].PairBegun?
    ensures log[i].until <= log[j].at
  {
    Moment(p, log, |log|, j);
    LimitOnlyGrows(log, i, j);
  }

  lemma {:induction false} AttemptStaysOpen(p: Policy, log: seq<Event>, i: nat, k: nat)
    requires i < k <= |log| && AcceptsTo(p, log, k) && log[i].PairBegun?
    requires forall m :: i < m < k ==> log[m] != PairReturned(log[i].epoch)
    ensures At(log, k).pairings.attempt == Some(log[i].epoch)
    decreases k
  {
    if i < k - 1 { AttemptStaysOpen(p, log, i, k - 1); }
  }

  /** Pairing is single flight: a second attempt, or a connection, begins only after
      the first attempt's worker has returned. */
  lemma PairingIsSingleFlight(p: Policy, log: seq<Event>, i: nat, j: nat)
    requires Accepts(p, log) && i < j < |log|
    requires log[i].PairBegun? && (log[j].PairBegun? || log[j].StartCalled?)
    ensures exists m :: i < m < j && log[m] == PairReturned(log[i].epoch)
  {
    if forall m :: i < m < j ==> log[m] != PairReturned(log[i].epoch) {
      Moment(p, log, |log|, j);
      AttemptStaysOpen(p, log, i, j);
      assert false;
    }
  }

  lemma {:induction false} ClosedAttemptIsDoomed(p: Policy, log: seq<Event>, i: nat, k: nat)
    requires i < k <= |log| && AcceptsTo(p, log, k) && log[i].PairClosed?
    ensures var h := At(log, k);
            && log[i].epoch <= h.pairings.lastEpoch
            && (h.pairings.attempt == Some(log[i].epoch) ==> h.pairings.doomed)
            && (h.pairings.attempt.Some? ==> h.pairings.attempt.value <= h.pairings.lastEpoch)
    decreases k
  {
    if i < k - 1 {
      ClosedAttemptIsDoomed(p, log, i, k - 1);
    } else {
      AttemptIsNumbered(p, log, i);
    }
  }

  lemma {:induction false} AttemptIsNumbered(p: Policy, log: seq<Event>, k: nat)
    requires k <= |log| && AcceptsTo(p, log, k)
    ensures var h := At(log, k); h.pairings.attempt.Some? ==> h.pairings.attempt.value <= h.pairings.lastEpoch
  {
    if k > 0 {
      AttemptIsNumbered(p, log, k - 1);
    }
  }

  /** An expired or blocked attempt never moves the account to Stopped. */
  lemma ClosedAttemptNeverPairs(p: Policy, log: seq<Event>, i: nat, j: nat)
    requires Accepts(p, log) && i < j < |log| && log[i].PairClosed?
    ensures log[j] != PairedUp(log[i].epoch)
  {
    Moment(p, log, |log|, j);
    ClosedAttemptIsDoomed(p, log, i, j);
  }
}
