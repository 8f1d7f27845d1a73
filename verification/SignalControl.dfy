/** cmd/signal_supervisor.go: Connect, restartUnpaired, StopAndUnpair, Stop and the
    goroutine that awaits a stopped supervisor, interleaved at their mutex sections. */
module SignalControl {
  import opened Bridge

  /** The fields under the mutex. Supervisors are numbered in order of construction. */
  datatype Fields = Fields(supervisor: nat, supervisorStopped: bool, stopping: bool, closed: bool)

  datatype Admission = Refused | Elsewhere | Admitted

  // ------------------------------------------------ the sections under the mutex

  /** The first section of Connect; `built` numbers a new supervisor, if one can be built. */
  function Active(f: Fields, built: Option<nat>): (Fields, Option<nat>) {
    if f.closed || f.stopping then (f, None)
    else if f.supervisorStopped then
      if built.None? then (f, None)
      else (f.(supervisor := built.value, supervisorStopped := false), Some(built.value))
    else (f, Some(f.supervisor))
  }

  function EnterRestart(f: Fields, previous: nat): (Fields, Admission) {
    if f.closed then (f, Refused)
    else if f.stopping || f.supervisor != previous then (f, Elsewhere)
    else (f.(stopping := true), Admitted)
  }

  /** The last section of restartUnpaired builds the replacement itself. */
  function LeaveRestart(f: Fields, built: Option<nat>): (Fields, Option<nat>) {
    if f.closed || built.None? then (MarkStopped(f), None)
    else (f.(supervisor := built.value, supervisorStopped := false, stopping := false), built)
  }

  function EnterUnpair(f: Fields): (Fields, Admission) {
    if f.closed || f.stopping then (f, Refused) else (f.(stopping := true), Admitted)
  }

  function MarkStopped(f: Fields): Fields { f.(supervisorStopped := true, stopping := false) }

  function LeaveAwait(f: Fields, sup: nat): Fields {
    if f.supervisor == sup && !f.closed then MarkStopped(f) else f
  }

  function EnterStop(f: Fields): Fields { f.(closed := true, stopping := true) }

  // ------------------------------------------------ the object

  class Control {
    var supervisor: nat
    var supervisorStopped: bool
    var stopping: bool
    var closed: bool

    function View(): Fields
      reads this
    {
      Fields(supervisor, supervisorStopped, stopping, closed)
    }

    constructor (first: nat)
      ensures View() == Fields(first, false, false, false)
    {
      supervisor, supervisorStopped, stopping, closed := first, false, false, false;
    }

    method AdmitConnect(built: Option<nat>) returns (active: Option<nat>)
      modifies this
      ensures (View(), active) == Active(old(View()), built)
    {
      if closed || stopping {
        return None;
      }
      if supervisorStopped {
        if built.None? {
          return None;
        }
        supervisor := built.value;
        supervisorStopped := false;
      }
      return Some(supervisor);
    }

    method EnterRestartUnpaired(previous: nat) returns (admission: Admission)
      modifies this
      ensures (View(), admission) == EnterRestart(old(View()), previous)
    {
      if closed {
        return Refused;
      }
      if stopping || supervisor != previous {
        return Elsewhere;
      }
      stopping := true;
      return Admitted;
    }

    method LeaveRestartUnpaired(built: Option<nat>) returns (restarted: Option<nat>)
      modifies this
      ensures (View(), restarted) == LeaveRestart(old(View()), built)
    {
      if closed {
        LeaveStopped();
        return None;
      }
      if built.None? {
        LeaveStopped();
        return None;
      }
      supervisor := built.value;
      supervisorStopped := false;
      stopping := false;
      return Some(supervisor);
    }

    method EnterStopAndUnpair() returns (admission: Admission)
      modifies this
      ensures (View(), admission) == EnterUnpair(old(View()))
    {
      if closed || stopping {
        return Refused;
      }
      stopping := true;
      return Admitted;
    }

    /** The last section of StopAndUnpair, and of Stop whether or not it timed out. */
    method LeaveStopped()
      modifies this
      ensures View() == MarkStopped(old(View()))
    {
      supervisorStopped := true;
      stopping := false;
    }

    method LeaveAwaitStopped(sup: nat)
      modifies this
      ensures View() == LeaveAwait(old(View()), sup)
    {
      if supervisor == sup && !closed {
        LeaveStopped();
      }
    }

    method EnterStopControl()
      modifies this
      ensures View() == EnterStop(old(View()))
    {
      closed := true;
      stopping := true;
    }
  }

  // ------------------------------------------------ callers and supervisors

  datatype Role = Restarting | Unpairing | Awaiting | Closing

  /** Inside Supervisor.Stop; past it; past the unpair callback. `GaveUp`: Stop timed out. */
  datatype Phase = InStop | Joined | UnpairDone | GaveUp

  datatype Caller = Caller(role: Role, sup: nat, phase: Phase)

  /** `built`: how many supervisors exist; `joined`: those whose run loop has exited. */
  datatype System = System(fields: Fields, built: nat, joined: set<nat>, callers: map<nat, Caller>)

  const START := System(Fields(0, false, false, false), 1, {}, map[])

  datatype Step =
    | CallConnect(buildable: bool)
    | CallRestart(id: nat, sup: nat)
    | CallUnpair(id: nat)
    | CallStop(id: nat)
    | StopReturns(id: nat, ok: bool)
    | RunUnpair(id: nat)
    | Leave(id: nat, buildable: bool)
    | SupervisorExits(sup: nat)

  function Called(s: System, id: nat, fields: Fields, admission: Admission, role: Role): System {
    if id in s.callers || admission != Admitted then s
    else s.(fields := fields, callers := s.callers[id := Caller(role, s.fields.supervisor, InStop)])
  }

  /** Supervisor.Stop returns nil only after the join; with the background context it
      returns only then. After an error a goroutine awaits the join, or Stop gives up. */
  function StopReturned(s: System, id: nat, c: Caller, ok: bool): System {
    if c.phase != InStop || ((ok || c.role == Awaiting) && c.sup !in s.joined) then s
    else if ok || c.role == Awaiting then s.(callers := s.callers[id := c.(phase := Joined)])
    else if c.role == Closing then s.(callers := s.callers[id := c.(phase := GaveUp)])
    else s.(callers := s.callers[id := c.(role := Awaiting)])
  }

  function Left(s: System, id: nat, c: Caller, buildable: bool): System {
    var gone := s.(callers := s.callers - {id});
    if c.phase == InStop || (c.role == Unpairing && c.phase != UnpairDone) then s
    else match c.role
      case Restarting =>
        var (fields, built) := LeaveRestart(s.fields, if buildable then Some(s.built) else None);
        gone.(fields := fields, built := if built.Some? then s.built + 1 else s.built)
      case Awaiting => gone.(fields := LeaveAwait(s.fields, c.sup))
      case _ => gone.(fields := MarkStopped(s.fields))
  }

  function Connected(s: System, buildable: bool): System {
    var (fields, active) := Active(s.fields, if buildable then Some(s.built) else None);
    s.(fields := fields, built := if active == Some(s.built) then s.built + 1 else s.built)
  }

  function Next(s: System, step: Step): System {
    match step
    case CallConnect(buildable) => Connected(s, buildable)
    case CallRestart(id, sup) =>
      Called(s, id, EnterRestart(s.fields, sup).0, EnterRestart(s.fields, sup).1, Restarting)
    case CallUnpair(id) => Called(s, id, EnterUnpair(s.fields).0, EnterUnpair(s.fields).1, Unpairing)
    case CallStop(id) => Called(s, id, EnterStop(s.fields), Admitted, Closing)
    case StopReturns(id, ok) => if id in s.callers then StopReturned(s, id, s.callers[id], ok) else s
    case RunUnpair(id) =>
      if id in s.callers && s.callers[id].role == Unpairing && s.callers[id].phase == Joined
      then s.(callers := s.callers[id := s.callers[id].(phase := UnpairDone)]) else s
    case Leave(id, buildable) => if id in s.callers then Left(s, id, s.callers[id], buildable) else s
    case SupervisorExits(sup) => if sup < s.built then s.(joined := s.joined + {sup}) else s
  }

  function Run(steps: seq<Step>): System {
    if steps == [] then START else Next(Run(steps[..|steps| - 1]), steps[|steps| - 1])
  }

  // ------------------------------------------------ the invariant

  predicate Holds(s: System, id: nat) {
    id in s.callers && s.callers[id].role != Closing
  }

  /** At most one caller holds the `stopping` token, and before close it is out exactly
      when the flag is set. */
  ghost predicate OneHolder(s: System) {
    && (forall i, j :: Holds(s, i) && Holds(s, j) ==> i == j)
    && (!s.fields.closed ==> (s.fields.stopping <==> exists i :: Holds(s, i)))
  }

  ghost predicate Honest(s: System) {
    forall id :: id in s.callers ==>
      var c := s.callers[id];
      && c.sup == s.fields.supervisor
      && (c.role == Closing ==> s.fields.closed)
      && (c.phase == Joined || c.phase == UnpairDone ==> c.sup in s.joined)
      && (c.phase == GaveUp ==> c.role == Closing)
      && (c.phase == UnpairDone ==> c.role == Unpairing)
  }

  /** Every supervisor but the current one is joined; before close the current one too
      once it is marked as stopped. (A Stop that gives up marks it all the same.) */
  ghost predicate OneSupervisor(s: System) {
    && s.built == s.fields.supervisor + 1
    && (forall k :: 0 <= k < s.fields.supervisor ==> k in s.joined)
    && (forall k :: k in s.joined ==> k < s.built)
    && (s.fields.supervisorStopped && !s.fields.closed ==> s.fields.supervisor in s.joined)
  }

  ghost predicate Valid(s: System) {
    OneHolder(s) && Honest(s) && OneSupervisor(s)
  }

  lemma NobodyBetween(s: System)
    requires Valid(s) && !s.fields.closed && !s.fields.stopping
    ensures s.callers == map[]
  {
    assert forall id :: id in s.callers ==> Holds(s, id);
    assert s.callers.Keys == {};
  }

  lemma CallSafe(s: System, step: Step)
    requires Valid(s) && (step.CallRestart? || step.CallUnpair? || step.CallStop?)
    ensures Valid(Next(s, step))
  {
    var t := Next(s, step);
    assert forall i :: i != step.id ==> (Holds(t, i) <==> Holds(s, i));
    if t != s && !step.CallStop? { assert Holds(t, step.id); }
  }

  lemma CallerSafe(s: System, step: Step)
    requires Valid(s) && (step.StopReturns? || step.RunUnpair? || step.SupervisorExits?)
    ensures Valid(Next(s, step))
  {
    var t := Next(s, step);
    assert forall i :: Holds(t, i) <==> Holds(s, i);
  }

  /** A holder that leaves takes the token with it, so that nobody else works on the
      supervisor it may replace. */
  lemma LeaveSafe(s: System, id: nat, buildable: bool)
    requires Valid(s)
    ensures Valid(Next(s, Leave(id, buildable)))
  {
    var t := Next(s, Leave(id, buildable));
    if t != s {
      assert forall i :: Holds(t, i) <==> Holds(s, i) && i != id;
      if s.callers[id].role != Closing {
        assert Holds(s, id);
        assert forall i :: i in t.callers ==> s.callers[i].role == Closing || Holds(s, i);
      }
    }
  }

  lemma ConnectSafe(s: System, buildable: bool)
    requires Valid(s)
    ensures Valid(Next(s, CallConnect(buildable)))
  {
    if Next(s, CallConnect(buildable)) != s { NobodyBetween(s); }
  }

  lemma NextSafe(s: System, step: Step)
    requires Valid(s)
    ensures Valid(Next(s, step))
  {
    match step
    case CallConnect(buildable) => ConnectSafe(s, buildable);
    case CallRestart(_, _) => CallSafe(s, step);
    case CallUnpair(_) => CallSafe(s, step);
    case CallStop(_) => CallSafe(s, step);
    case Leave(id, buildable) => LeaveSafe(s, id, buildable);
    case _ => CallerSafe(s, step);
  }

  lemma {:induction false} RunSafe(steps: seq<Step>)
    ensures Valid(Run(steps))
  {
    if steps != [] {
      RunSafe(steps[..|steps| - 1]);
      NextSafe(Run(steps[..|steps| - 1]), steps[|steps| - 1]);
    }
  }

  // ------------------------------------------------ what every interleaving keeps

  /** At any time at most one supervisor has not been joined, and before close the
      `stopping` flag is set exactly while one caller works towards clearing it. */
  lemma AtMostOneSupervisor(steps: seq<Step>, i: nat, j: nat)
    ensures var s := Run(steps);
            && (i < s.built && j < s.built && i !in s.joined && j !in s.joined ==> i == j)
            && (!s.fields.closed ==> (s.fields.stopping <==> exists id :: Holds(s, id)))
  {
    RunSafe(steps);
  }

  /** A replacement, by Connect or by restartUnpaired, is built only when every earlier
      supervisor has been joined, and never after close. */
  lemma BuildsOnlyAfterJoin(steps: seq<Step>, step: Step, k: nat)
    ensures var (s, t) := (Run(steps), Run(steps + [step]));
            && s.built <= t.built <= s.built + 1
            && (s.built < t.built ==> !s.fields.closed && (k < s.built ==> k in s.joined))
  {
    RunSafe(steps);
    assert (steps + [step])[..|steps + [step]| - 1] == steps;
  }

  /** The unpair callback runs only when every supervisor has been joined. */
  lemma UnpairsOnlyAfterJoin(steps: seq<Step>, id: nat, k: nat)
    ensures var (s, t) := (Run(steps), Run(steps + [RunUnpair(id)]));
            t != s ==> (k < s.built ==> k in s.joined)
  {
    RunSafe(steps);
    assert (steps + [RunUnpair(id)])[..|steps + [RunUnpair(id)]| - 1] == steps;
  }

  /** Close is final: from then on no supervisor is built. */
  lemma ClosedForGood(steps: seq<Step>, step: Step)
    ensures var (s, t) := (Run(steps), Run(steps + [step]));
            s.fields.closed ==> t.fields.closed && t.built == s.built
  {
    assert (steps + [step])[..|steps + [step]| - 1] == steps;
  }

  // ------------------------------------------------ what every caller gets

  ghost predicate SomebodyHolds(s: System) { exists id :: Holds(s, id) }

  /** Before close and while nobody holds the token, every Connect gets a supervisor: the
      current one while it runs, and a new one once it was marked as stopped, if it can be
      built. Otherwise nobody gets one, and nothing changes. */
  lemma ConnectsIff(steps: seq<Step>, buildable: bool)
    ensures var (s, t) := (Run(steps), Run(steps + [CallConnect(buildable)]));
            var active := Active(s.fields, if buildable then Some(s.built) else None).1;
            && (active.Some? <==>
                  !s.fields.closed && !SomebodyHolds(s) && (s.fields.supervisorStopped ==> buildable))
            && (active.Some? ==>
                  && active.value == (if s.fields.supervisorStopped then s.built else s.fields.supervisor)
                  && t.fields.supervisor == active.value < t.built && !t.fields.supervisorStopped)
            && (active.Some? && s.fields.supervisorStopped ==> t.built == s.built + 1 && active.value !in t.joined)
            && (active.Some? && !s.fields.supervisorStopped ==> t == s)
            && (active.None? ==> t == s)
  {
    RunSafe(steps);
    Then(steps, CallConnect(buildable));
  }

  /** Exactly the callers that come while nobody holds the token are let in before close,
      to restart only the current supervisor; Stop is let in always. */
  lemma IsLetInIff(steps: seq<Step>, id: nat, sup: nat)
    requires id !in Run(steps).callers
    ensures var s := Run(steps);
            var (restarting, unpairing, closing) := (Next(s, CallRestart(id, sup)), Next(s, CallUnpair(id)), Next(s, CallStop(id)));
            && (id in restarting.callers <==> !s.fields.closed && !SomebodyHolds(s) && sup == s.fields.supervisor)
            && (id in unpairing.callers <==> !s.fields.closed && !SomebodyHolds(s))
            && id in closing.callers && closing.fields == s.fields.(closed := true, stopping := true)
            && (id in restarting.callers ==> restarting.callers[id] == Caller(Restarting, sup, InStop) && restarting.fields.stopping)
            && (id in unpairing.callers ==> unpairing.callers[id] == Caller(Unpairing, s.fields.supervisor, InStop) && unpairing.fields.stopping)
            && (id !in restarting.callers ==> restarting == s)
            && (id !in unpairing.callers ==> unpairing == s)
  {
    RunSafe(steps);
  }

  /** A restart is refused exactly after close; before, one that is not let in finds the
      supervisor in other hands or already replaced. */
  lemma RestartIsElsewhereIff(steps: seq<Step>, sup: nat)
    ensures var s := Run(steps);
            var admission := EnterRestart(s.fields, sup).1;
            && (admission == Refused <==> s.fields.closed)
            && (admission == Elsewhere <==> !s.fields.closed && (SomebodyHolds(s) || sup != s.fields.supervisor))
  {
    RunSafe(steps);
  }

  /** A Supervisor.Stop that fails leaves the token, except for Stop itself, with the
      goroutine that awaits the join; that one marks nothing after close. */
  lemma AwaitsAfterFailure(steps: seq<Step>, id: nat, buildable: bool)
    requires id in Run(steps).callers
    ensures var (s, c) := (Run(steps), Run(steps).callers[id]);
            var (t, u) := (Next(s, StopReturns(id, false)), Next(s, Leave(id, buildable)));
            && (c.phase == InStop ==>
                  match c.role
                  case Closing => t == s.(callers := s.callers[id := c.(phase := GaveUp)])
                  case Awaiting => id in t.callers && (t.callers[id].phase == Joined <==> s.fields.supervisor in s.joined)
                  case _ => Holds(t, id) && t == s.(callers := s.callers[id := c.(role := Awaiting)]))
            && (c.role == Awaiting && c.phase == Joined ==>
                  u.callers == s.callers - {id} && u.fields ==
                    if s.fields.closed then s.fields else s.fields.(supervisorStopped := true, stopping := false))
  {
    RunSafe(steps);
  }

  // ------------------------------------------------ no deadlock

  lemma Then(steps: seq<Step>, step: Step)
    ensures Run(steps + [step]) == Next(Run(steps), step)
  {
    assert (steps + [step])[..|steps + [step]| - 1] == steps;
  }

  /** The only caller between two sections works on the current supervisor. */
  predicate Alone(s: System, id: nat) {
    && !s.fields.closed && s.built == s.fields.supervisor + 1
    && id in s.callers && s.callers == map[id := s.callers[id]]
    && s.callers[id].role != Closing && s.callers[id].phase != GaveUp && s.callers[id].sup == s.fields.supervisor
    && (s.callers[id].phase == UnpairDone ==> s.callers[id].role == Unpairing)
  }

  /** The token is free: a restart has built the replacement if it could, and everybody else
      leaves the supervisor marked as stopped. */
  ghost predicate Finished(s: System, t: System, role: Role, buildable: bool) {
    && t.callers == map[] && !t.fields.stopping && !t.fields.closed
    && if role == Restarting && buildable
       then t.built == s.built + 1 && t.fields.supervisor == s.built && !t.fields.supervisorStopped
       else t.built == s.built && t.fields.supervisor == s.fields.supervisor && t.fields.supervisorStopped
  }

  lemma HolderIsAlone(s: System, id: nat)
    requires Valid(s) && Holds(s, id) && !s.fields.closed
    ensures Alone(s, id)
  {
    assert forall i :: i in s.callers ==> Holds(s, i);
    assert s.callers.Keys == {id};
  }

  /** The supervisor exits and is joined, the account is unpaired if that was asked for, and
      the caller leaves: steps that come too early or too late change nothing. */
  lemma AloneFinishes(s: System, id: nat, buildable: bool)
    requires Alone(s, id)
    ensures var t := Next(Next(s, SupervisorExits(s.fields.supervisor)), StopReturns(id, true));
            Finished(s, Next(Next(t, RunUnpair(id)), Leave(id, buildable)), s.callers[id].role, buildable)
  {
    var exited := Next(s, SupervisorExits(s.fields.supervisor));
    assert exited == s.(joined := s.joined + {s.fields.supervisor});
    var joined := Next(exited, StopReturns(id, true));
    assert Alone(joined, id) && joined.callers[id].phase != InStop && joined.fields == s.fields;
    var unpaired := Next(joined, RunUnpair(id));
    assert Alone(unpaired, id) && unpaired.fields == s.fields && unpaired.callers[id].role == s.callers[id].role;
    assert unpaired.callers - {id} == map[];
  }

  /** No deadlock: from wherever a run has got to, before close the holder of the token can
      come to its end with the steps of its supervisor and itself alone. */
  lemma HolderCanFinish(steps: seq<Step>, id: nat, buildable: bool)
    requires Holds(Run(steps), id) && !Run(steps).fields.closed
    ensures exists more ::
              Finished(Run(steps), Run(steps + more), Run(steps).callers[id].role, buildable)
  {
    var s := Run(steps);
    RunSafe(steps);
    HolderIsAlone(s, id);
    AloneFinishes(s, id, buildable);
    hide Run, Next, Finished;
    var (a, b, c, d) := (SupervisorExits(s.fields.supervisor), StopReturns(id, true), RunUnpair(id), Leave(id, buildable));
    Then(steps, a);
    Then(steps + [a], b);
    Then(steps + [a] + [b], c);
    Then(steps + [a] + [b] + [c], d);
    assert steps + [a] + [b] + [c] + [d] == steps + [a, b, c, d];
  }
}
