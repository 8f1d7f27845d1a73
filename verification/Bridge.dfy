/** The values the account supervisor works with: states, failures, policy and
    the snapshot it publishes (internal/bridge/state.go, types.go, contracts.go). */
module Bridge {

  datatype Option<+T> = None | Some(value: T)

  /** A point in time, in units after Go's zero time. ZERO is `time.Time{}`, which
      the source uses as "not set". */
  type Time = int
  const ZERO: Time := 0

  type Duration = int

  /** `int64`, the width of a Go duration. */
  const MAX_DURATION: Duration := 0x7FFF_FFFF_FFFF_FFFF

  datatype State =
    | Stopped | Unpaired | Pairing | Connecting | Online | Degraded
    | Backoff | RepairingCredentials | Blocked | Stopping

  /** The failure classes, the empty class, and any class the supervisor does not know. */
  datatype FailureClass =
    | Transient | RateLimited | CredentialsExpired | AccountUnpaired
    | ReauthRequired | UpgradeRequired | Misconfigured | Unsupported
    | Unset | Unrecognized

  datatype OpError = OpError(kind: FailureClass, operation: string, retryAt: Time, fingerprint: string)

  const NO_FAILURE := OpError(Unset, "", ZERO, "")

  /** A Go error, seen as `errors.As` sees it: it either carries an OpError or not. */
  datatype Error = Plain | Wrapped(op: OpError)

  /** What a command is answered. */
  datatype Reply =
    | Done
    | Deferred                       // errStartReplyDeferred: answered later
    | ErrStopped
    | ErrBusy
    | ErrBlocked
    | ErrPairingNotAllowed
    | ErrPairerUnavailable
    | ErrPairingInProgress
    | ErrPairingRateLimited
    | ErrFingerprintUnchanged
    | ErrFirstAttempt(failure: OpError)

  datatype Policy = Policy(
    connectTimeout: Duration,
    probeEvery: Duration,
    probeTimeout: Duration,
    livenessTimeout: Duration,
    minBackoff: Duration,
    maxBackoff: Duration,
    maxSameFingerprint: int)

  /** What NewSupervisor checks before it accepts a policy. */
  predicate ValidPolicy(p: Policy) {
    && 0 < p.connectTimeout
    && 0 < p.probeEvery
    && 0 < p.probeTimeout
    && 0 < p.livenessTimeout
    && 0 < p.minBackoff <= p.maxBackoff <= MAX_DURATION
    && 0 < p.maxSameFingerprint
  }

  datatype Snapshot = Snapshot(
    state: State,
    generation: nat,
    lastEventAt: Time,
    lastProbeOKAt: Time,
    livenessDeadline: Time,
    retryAt: Time,
    errorClass: FailureClass,
    errorFingerprint: string)

  function Max(a: int, b: int): (r: int)
    ensures a <= r && b <= r && r in {a, b}
  {
    if a < b then b else a
  }

  function Min(a: int, b: int): (r: int)
    ensures r <= a && r <= b && r in {a, b}
  {
    if a < b then a else b
  }

  /** A reported time is never taken from the future, and an unset one means now. */
  function ClampActivityTime(at: Time, now: Time): (r: Time)
    ensures r <= now
    ensures r == at || r == now
    ensures at != ZERO && at <= now ==> r == at
    ensures at == ZERO ==> r == now
  {
    if at == ZERO || at > now then now else at
  }

  /** Keeps what the error carries and fills its gaps, so that every routed failure has a
      class, an operation and a fingerprint. */
  function ClassifyFailure(err: Error, operation: string, fallback: string): (f: OpError)
    requires operation != "" && fallback != ""
    ensures f.kind != Unset && f.operation != "" && f.fingerprint != ""
    ensures err.Plain? ==> f == OpError(Transient, operation, ZERO, fallback)
    ensures err.Wrapped? ==>
              && f.retryAt == err.op.retryAt
              && (err.op.kind != Unset ==> f.kind == err.op.kind)
              && (err.op.operation != "" ==> f.operation == err.op.operation)
              && (err.op.fingerprint != "" ==> f.fingerprint == err.op.fingerprint)
    ensures err.Wrapped? ==>
              f.kind in {err.op.kind, Transient} && f.operation in {err.op.operation, operation}
              && f.fingerprint in {err.op.fingerprint, fallback}
  {
    var found := if err.Wrapped? then err.op else NO_FAILURE;
    OpError(
      if found.kind == Unset then Transient else found.kind,
      if found.operation == "" then operation else found.operation,
      found.retryAt,
      if found.fingerprint == "" then fallback else found.fingerprint)
  }

  const CONNECT_TIMEOUT_FAILURE := OpError(Transient, "connect", ZERO, "connect_timeout")
}
