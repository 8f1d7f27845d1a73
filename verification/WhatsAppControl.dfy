/** cmd/whatsapp_supervisor.go: the control that replaces a terminally stopped supervisor.
    Every section under the mutex is one atomic step; Supervisor.Stop, the wait for pair
    watchers and the unpair callback happen between such sections, so that any number of
    callers interleave. */
module WhatsAppControl {
  import opened Bridge

  /** The fields under the mutex. Supervisors are numbered in order of construction. */
  datatype Fields = Fields(
    supervisor: nat,
    supervisorStopped: bool,
    stopping: bool,
    closed: bool,
    pairWatchActive: bool,
    pairWatchEpoch: nat)

  // ------------------------------------------------ the sections under the mutex

  datatype Admission = Refused | Elsewhere | Admitted

  /** activeSupervisor; `built` is the number a new supervisor gets, if one can be built. */
  function Active(f: Fields, built: Option<nat>): (Fields, Option<nat>) {
    if f.closed || f.stopping then (f, None)
    else if f.supervisorStopped then
      if built.None? then (f, None)
      else (f.(supervisor := built.value, supervisorStopped := false), Some(built.value))
    else (f, Some(f.supervisor))
  }

  function EnterRebuild(f: Fields, sup: nat): (Fields, Admission) {
    if f.closed || f.stopping then (f, Refused)
    else if f.supervisor != sup then (f, Elsewhere)
    else (f.(stopping := true), Admitted)
  }

  function LeaveRebuild(f: Fields, sup: nat): (Fields, bool) {
    if f.closed then (f.(stopping := false), false)
    else if f.supervisor == sup then (f.(supervisorStopped := true, pairWatchActive := false, stopping := false), true)
    else (f.(stopping := false), true)
  }

  function EnterUnpair(f: Fields): (Fields, Admission) {
    if f.closed || f.stopping then (f, Refused) else (f.(stopping := true), Admitted)
  }

  /** The last section of StopAndUnpair and of Stop. */
  function MarkStopped(f: Fields): Fields {
    f.(supervisorStopped := true, stopping := false, pairWatchActive := false)
  }

  function LeaveAwait(f: Fields, sup: nat): Fields {
    if f.supervisor == sup && !f.closed then MarkStopped(f) else f
  }

  function EnterStop(f: Fields): Fields { f.(closed := true, stopping := true) }

  function StartWatcher(f: Fields, sup: nat): (Fields, Option<nat>) {
    if f.closed || f.stopping || f.supervisor != sup || f.pairWatchActive then (f, None)
    else (f.(pairWatchEpoch := f.pairWatchEpoch + 1, pairWatchActive := true), Some(f.pairWatchEpoch + 1))
  }

  function LeaveWatcher(f: Fields, sup: nat, epoch: nat): Fields {
    if f.supervisor == sup && f.pairWatchEpoch == epoch then f.(pairWatchActive := false) else f
  }

  // ------------------------------------------------ the object

  class Control {
    var supervisor: nat
    var supervisorStopped: bool
    var stopping: bool
    var closed: bool
    var pairWatchActive: bool
    var pairWatchEpoch: nat

    function View(): Fields
      reads this
    {
      Fields(supervisor, supervisorStopped, stopping, closed, pairWatchActive, pairWatchEpoch)
    }

    constructor (first: nat)
      ensures View() == Fields(first, false, false, false, false, 0)
    {
      supervisor, pairWatchEpoch := first, 0;
      supervisorStopped, stopping, closed, pairWatchActive := false, false, false, false;
    }

    method ActiveSupervisor(built: Option<nat>) returns (active: Option<nat>)
      modifies this
      ensures (View(), active) == Active(old(View()), built)
    {
      if closed || stopping {
        return None;
      }
      if supervisorStopped {
        if built.None? {
          return None;
        }
        supervisor := built.value;
        supervisorStopped := false;
      }
      return Some(supervisor);
    }

    method EnterRebuildUnpaired(sup: nat) returns (admission: Admission)
      modifies this
      ensures (View(), admission) == EnterRebuild(old(View()), sup)
    {
      if closed || stopping {
        return Refused;
      }
      if supervisor != sup {
        return Elsewhere;
      }
      stopping := true;
      return Admitted;
    }

    method LeaveRebuildUnpaired(sup: nat) returns (onward: bool)
      modifies this
      ensures (View(), onward) == LeaveRebuild(old(View()), sup)
    {
      if closed {
        stopping := false;
        return false;
      }
      if supervisor == sup {
        supervisorStopped := true;
        pairWatchActive := false;
      }
      stopping := false;
      return true;
    }

    method EnterStopAndUnpair() returns (admission: Admission)
      modifies this
      ensures (View(), admission) == EnterUnpair(old(View()))
    {
      if closed || stopping {
        return Refused;
      }
      stopping := true;
      return Admitted;
    }

    method LeaveStopped()
      modifies this
      ensures View() == MarkStopped(old(View()))
    {
      supervisorStopped := true;
      stopping := false;
      pairWatchActive := false;
    }

    method LeaveAwaitStopped(sup: nat)
      modifies this
      ensures View() == LeaveAwait(old(View()), sup)
    {
      if supervisor == sup && !closed {
        LeaveStopped();
      }
    }

    method EnterStopControl()
      modifies this
      ensures View() == EnterStop(old(View()))
    {
      closed := true;
      stopping := true;
    }

    method StartPairWatcher(sup: nat) returns (epoch: Option<nat>)
      modifies this
      ensures (View(), epoch) == StartWatcher(old(View()), sup)
    {
      if closed || stopping || supervisor != sup || pairWatchActive {
        return None;
      }
      pairWatchEpoch := pairWatchEpoch + 1;
      pairWatchActive := true;
      return Some(pairWatchEpoch);
    }

    method LeavePairWatcher(sup: nat, epoch: nat)
      modifies this
      ensures View() == LeaveWatcher(old(View()), sup, epoch)
    {
      if supervisor == sup && pairWatchEpoch == epoch {
        pairWatchActive := false;
      }
    }
  }

  // ------------------------------------------------ callers, watchers and supervisors

  /** Who is between two sections: a caller of rebuildUnpairedSupervisor, StopAndUnpair or
      Stop, or the goroutine that waits on after a failed Supervisor.Stop. */
  datatype Role = Rebuilding | Unpairing | Awaiting | Closing

  /** How far: inside Supervisor.Stop; past it; past the wait for the pair watchers; past
      the unpair callback. */
  datatype Phase = InStop | Joined | Drained | UnpairDone

  datatype Caller = Caller(role: Role, sup: nat, phase: Phase)

  /** A pair watcher, until its WaitGroup entry is done; `leaving` once it has cleaned up. */
  datatype Watcher = Watcher(sup: nat, leaving: bool)

  /** `built`: how many supervisors exist; `joined`: those whose run loop has exited. */
  datatype System = System(
    fields: Fields,
    built: nat,
    joined: set<nat>,
    callers: map<nat, Caller>,
    watchers: map<nat, Watcher>)

  const START := System(Fields(0, false, false, false, false, 0), 1, {}, map[], map[])

  datatype Step =
    | CallActive(buildable: bool)
    | CallRebuild(id: nat, sup: nat)
    | CallUnpair(id: nat)
    | CallStop(id: nat)
    | StopReturns(id: nat, ok: bool)
    | WatchersDone(id: nat)
    | RunUnpair(id: nat)
    | Leave(id: nat)
    | Watch(sup: nat)
    | WatcherLeaves(epoch: nat)
    | WatcherDone(epoch: nat)
    | SupervisorExits(sup: nat)

  function Called(s: System, id: nat, fields: Fields, admission: Admission, role: Role): System {
    if id in s.callers || admission != Admitted then s
    else s.(fields := fields, callers := s.callers[id := Caller(role, s.fields.supervisor, InStop)])
  }

  /** Supervisor.Stop returns nil only after the join; with the background context it
      returns only then. After an error a goroutine awaits the join, or Stop gives up. */
  function StopReturned(s: System, id: nat, c: Caller, ok: bool): System {
    if c.phase != InStop || ((ok || c.role == Awaiting) && c.sup !in s.joined) then s
    else if ok || c.role == Awaiting then s.(callers := s.callers[id := c.(phase := Joined)])
    else if c.role == Closing then s.(callers := s.callers - {id})
    else s.(callers := s.callers[id := c.(role := Awaiting)])
  }

  /** The last section of each kind of caller. */
  function Left(s: System, id: nat, c: Caller): System {
    if (c.role == Unpairing && c.phase != UnpairDone) || (c.role != Unpairing && c.phase != Drained) then s
    else s.(callers := s.callers - {id}, fields :=
      match c.role
      case Rebuilding => LeaveRebuild(s.fields, c.sup).0
      case Unpairing => MarkStopped(s.fields)
      case Awaiting => LeaveAwait(s.fields, c.sup)
      case Closing => MarkStopped(s.fields))
  }

  function Watched(s: System, sup: nat): System {
    var (fields, epoch) := StartWatcher(s.fields, sup);
    if epoch.None? then s else s.(fields := fields, watchers := s.watchers[epoch.value := Watcher(sup, false)])
  }

  function Activated(s: System, buildable: bool): System {
    var (fields, active) := Active(s.fields, if buildable then Some(s.built) else None);
    s.(fields := fields, built := if active == Some(s.built) then s.built + 1 else s.built)
  }

  function Next(s: System, step: Step): System {
    match step
    case CallActive(buildable) => Activated(s, buildable)
    case CallRebuild(id, sup) =>
      Called(s, id, EnterRebuild(s.fields, sup).0, EnterRebuild(s.fields, sup).1, Rebuilding)
    case CallUnpair(id) => Called(s, id, EnterUnpair(s.fields).0, EnterUnpair(s.fields).1, Unpairing)
    case CallStop(id) => Called(s, id, EnterStop(s.fields), Admitted, Closing)
    case StopReturns(id, ok) => if id in s.callers then StopReturned(s, id, s.callers[id], ok) else s
    case WatchersDone(id) =>
      if id in s.callers && s.callers[id].phase == Joined && s.watchers == map[]
      then s.(callers := s.callers[id := s.callers[id].(phase := Drained)]) else s
    case RunUnpair(id) =>
      if id in s.callers && s.callers[id].role == Unpairing && s.callers[id].phase == Drained
      then s.(callers := s.callers[id := s.callers[id].(phase := UnpairDone)]) else s
    case Leave(id) => if id in s.callers then Left(s, id, s.callers[id]) else s
    case Watch(sup) => Watched(s, sup)
    case WatcherLeaves(epoch) =>
      if epoch in s.watchers && !s.watchers[epoch].leaving
      then s.(fields := LeaveWatcher(s.fields, s.watchers[epoch].sup, epoch),
              watchers := s.watchers[epoch := s.watchers[epoch].(leaving := true)]) else s
    case WatcherDone(epoch) =>
      if epoch in s.watchers && s.watchers[epoch].leaving then s.(watchers := s.watchers - {epoch}) else s
    case SupervisorExits(sup) => if sup < s.built then s.(joined := s.joined + {sup}) else s
  }

  function Run(steps: seq<Step>): System {
    if steps == [] then START else Next(Run(steps[..|steps| - 1]), steps[|steps| - 1])
  }

  // ------------------------------------------------ the invariant

  /** The holder of the `stopping` token: everyone between sections but a closer. */
  predicate Holds(s: System, id: nat) {
    id in s.callers && s.callers[id].role != Closing
  }

  /** At most one caller holds the token, and before close it is out exactly when
      `stopping` is set, so the flag can never be left behind. */
  ghost predicate OneHolder(s: System) {
    && (forall i, j :: Holds(s, i) && Holds(s, j) ==> i == j)
    && (!s.fields.closed ==> (s.fields.stopping <==> exists i :: Holds(s, i)))
  }

  /** Callers work on the current supervisor, and are as far as they claim. */
  ghost predicate Honest(s: System) {
    forall id :: id in s.callers ==>
      var c := s.callers[id];
      && c.sup == s.fields.supervisor
      && (c.role == Closing ==> s.fields.closed)
      && (c.phase != InStop ==> c.sup in s.joined)
      && (c.phase == Drained || c.phase == UnpairDone ==> s.watchers == map[])
      && (c.phase == UnpairDone ==> c.role == Unpairing)
  }

  /** Every supervisor but the current one is joined, and the current one too once it
      is marked as stopped. */
  ghost predicate OneSupervisor(s: System) {
    && s.built == s.fields.supervisor + 1
    && (forall k :: 0 <= k < s.fields.supervisor ==> k in s.joined)
    && (forall k :: k in s.joined ==> k < s.built)
    && (s.fields.supervisorStopped ==> s.fields.supervisor in s.joined)
  }

  /** Only the newest watcher may not have cleaned up yet, and it holds the slot. */
  ghost predicate OneWatcher(s: System) {
    forall e :: e in s.watchers ==>
      && e <= s.fields.pairWatchEpoch && s.watchers[e].sup <= s.fields.supervisor
      && (!s.watchers[e].leaving ==> e == s.fields.pairWatchEpoch && s.fields.pairWatchActive)
  }

  ghost predicate Valid(s: System) {
    OneHolder(s) && Honest(s) && OneSupervisor(s) && OneWatcher(s)
  }

  /** With neither flag set nobody is between two sections. */
  lemma NobodyBetween(s: System)
    requires Valid(s) && !s.fields.closed && !s.fields.stopping
    ensures s.callers == map[]
  {
    assert forall id :: id in s.callers ==> Holds(s, id);
    assert s.callers.Keys == {};
  }

  lemma CallSafe(s: System, step: Step)
    requires Valid(s) && (step.CallRebuild? || step.CallUnpair? || step.CallStop?)
    ensures Valid(Next(s, step))
  {
    var t := Next(s, step);
    assert forall i :: i != step.id ==> (Holds(t, i) <==> Holds(s, i));
    if t != s && !step.CallStop? { assert Holds(t, step.id); }
  }

  lemma CallerSafe(s: System, step: Step)
    requires Valid(s) && (step.StopReturns? || step.WatchersDone? || step.RunUnpair?)
    ensures Valid(Next(s, step))
  {
    var t := Next(s, step);
    assert forall i :: Holds(t, i) <==> Holds(s, i);
  }

  lemma LeaveSafe(s: System, id: nat)
    requires Valid(s)
    ensures Valid(Next(s, Leave(id)))
  {
    var t := Next(s, Leave(id));
    if t != s {
      assert forall i :: Holds(t, i) <==> Holds(s, i) && i != id;
      if s.callers[id].role != Closing { assert Holds(s, id); }
    }
  }

  lemma ActiveSafe(s: System, buildable: bool)
    requires Valid(s)
    ensures Valid(Next(s, CallActive(buildable)))
  {
    var t := Next(s, CallActive(buildable));
    if t != s { NobodyBetween(s); }
  }

  lemma WatcherSafe(s: System, step: Step)
    requires Valid(s) && (step.Watch? || step.WatcherLeaves? || step.WatcherDone? || step.SupervisorExits?)
    ensures Valid(Next(s, step))
  {
    var t := Next(s, step);
    assert forall i :: Holds(t, i) <==> Holds(s, i);
    if step.Watch? && t != s { NobodyBetween(s); }
  }

  lemma NextSafe(s: System, step: Step)
    requires Valid(s)
    ensures Valid(Next(s, step))
  {
    match step
    case CallActive(buildable) => ActiveSafe(s, buildable);
    case CallRebuild(_, _) => CallSafe(s, step);
    case CallUnpair(_) => CallSafe(s, step);
    case CallStop(_) => CallSafe(s, step);
    case StopReturns(_, _) => CallerSafe(s, step);
    case WatchersDone(_) => CallerSafe(s, step);
    case RunUnpair(_) => CallerSafe(s, step);
    case Leave(id) => LeaveSafe(s, id);
    case _ => WatcherSafe(s, step);
  }

  lemma {:induction false} RunSafe(steps: seq<Step>)
    ensures Valid(Run(steps))
  {
    if steps != [] {
      RunSafe(steps[..|steps| - 1]);
      NextSafe(Run(steps[..|steps| - 1]), steps[|steps| - 1]);
    }
  }

  // ------------------------------------------------ what every interleaving keeps

  /** At any time at most one supervisor has not been joined, and before close the
      `stopping` flag is set exactly while one caller works towards clearing it. */
  lemma AtMostOneSupervisor(steps: seq<Step>, i: nat, j: nat)
    ensures var s := Run(steps);
            && (i < s.built && j < s.built && i !in s.joined && j !in s.joined ==> i == j)
            && (!s.fields.closed ==> (s.fields.stopping <==> exists id :: Holds(s, id)))
  {
    RunSafe(steps);
  }

  /** A replacement is built only when every earlier supervisor has been joined, and
      never after close. */
  lemma BuildsOnlyAfterJoin(steps: seq<Step>, step: Step, k: nat)
    ensures var (s, t) := (Run(steps), Run(steps + [step]));
            && s.built <= t.built <= s.built + 1
            && (s.built < t.built ==> !s.fields.closed && (k < s.built ==> k in s.joined))
  {
    RunSafe(steps);
    assert (steps + [step])[..|steps + [step]| - 1] == steps;
  }

  /** The unpair callback runs only when every supervisor has been joined and every pair
      watcher has exited. */
  lemma UnpairsOnlyAfterJoin(steps: seq<Step>, id: nat, k: nat)
    ensures var (s, t) := (Run(steps), Run(steps + [RunUnpair(id)]));
            t != s ==> s.watchers == map[] && (k < s.built ==> k in s.joined)
  {
    RunSafe(steps);
    assert (steps + [RunUnpair(id)])[..|steps + [RunUnpair(id)]| - 1] == steps;
  }

  /** Close is final: from then on nothing is built and no watcher starts. */
  lemma ClosedForGood(steps: seq<Step>, step: Step)
    ensures var (s, t) := (Run(steps), Run(steps + [step]));
            s.fields.closed ==> t.fields.closed && t.built == s.built && t.watchers.Keys <= s.watchers.Keys
  {
    assert (steps + [step])[..|steps + [step]| - 1] == steps;
  }

  // ------------------------------------------------ what every caller gets

  ghost predicate SomebodyHolds(s: System) { exists id :: Holds(s, id) }

  /** Before close and while nobody holds the token, every caller gets a supervisor: the
      current one while it runs, and a new one once it was marked as stopped, if it can be
      built. Otherwise nobody gets one, and nothing changes. */
  lemma GetsSupervisorIff(steps: seq<Step>, buildable: bool)
    ensures var (s, t) := (Run(steps), Run(steps + [CallActive(buildable)]));
            var active := Active(s.fields, if buildable then Some(s.built) else None).1;
            && (active.Some? <==>
                  !s.fields.closed && !SomebodyHolds(s) && (s.fields.supervisorStopped ==> buildable))
            && (active.Some? ==>
                  && active.value == (if s.fields.supervisorStopped then s.built else s.fields.supervisor)
                  && t.fields.supervisor == active.value < t.built && !t.fields.supervisorStopped)
            && (active.Some? && s.fields.supervisorStopped ==> t.built == s.built + 1 && active.value !in t.joined)
            && (active.Some? && !s.fields.supervisorStopped ==> t == s)
            && (active.None? ==> t == s)
  {
    RunSafe(steps);
    assert (steps + [CallActive(buildable)])[..|steps + [CallActive(buildable)]| - 1] == steps;
  }

  /** Exactly the callers that come while nobody holds the token are let in before close,
      to rebuild only the current supervisor; Stop is let in always. */
  lemma IsLetInIff(steps: seq<Step>, id: nat, sup: nat)
    requires id !in Run(steps).callers
    ensures var s := Run(steps);
            var (rebuilding, unpairing, closing) := (Next(s, CallRebuild(id, sup)), Next(s, CallUnpair(id)), Next(s, CallStop(id)));
            && (id in rebuilding.callers <==> !s.fields.closed && !SomebodyHolds(s) && sup == s.fields.supervisor)
            && (id in unpairing.callers <==> !s.fields.closed && !SomebodyHolds(s))
            && id in closing.callers && closing.fields == s.fields.(closed := true, stopping := true)
            && (id in rebuilding.callers ==> rebuilding.callers[id] == Caller(Rebuilding, sup, InStop) && rebuilding.fields.stopping)
            && (id in unpairing.callers ==> unpairing.callers[id] == Caller(Unpairing, s.fields.supervisor, InStop) && unpairing.fields.stopping)
            && (id !in rebuilding.callers ==> rebuilding == s)
            && (id !in unpairing.callers ==> unpairing == s)
  {
    RunSafe(steps);
  }

  /** And one that is not let in to rebuild is refused, unless only the supervisor was
      replaced meanwhile. */
  lemma RebuildIsElsewhereIff(steps: seq<Step>, sup: nat)
    ensures var s := Run(steps);
            var admission := EnterRebuild(s.fields, sup).1;
            && (admission == Refused <==> s.fields.closed || SomebodyHolds(s))
            && (admission == Elsewhere <==> !s.fields.closed && !SomebodyHolds(s) && sup != s.fields.supervisor)
  {
    RunSafe(steps);
  }

  /** A watcher starts exactly for the current supervisor, before close, while nobody holds
      the token and the slot is free. */
  lemma WatcherStartsIff(steps: seq<Step>, sup: nat)
    ensures var (s, t) := (Run(steps), Next(Run(steps), Watch(sup)));
            if !s.fields.closed && !SomebodyHolds(s) && sup == s.fields.supervisor && !s.fields.pairWatchActive
            then t.fields.pairWatchEpoch !in s.watchers && t.fields.pairWatchActive
                 && t.watchers == s.watchers[t.fields.pairWatchEpoch := Watcher(sup, false)]
            else t == s
  {
    RunSafe(steps);
  }

  /** A Supervisor.Stop that fails leaves the token, except for Stop itself, with the
      goroutine that awaits the join. */
  lemma AwaitsAfterFailure(steps: seq<Step>, id: nat)
    requires id in Run(steps).callers && Run(steps).callers[id].phase == InStop
    ensures var (s, t) := (Run(steps), Next(Run(steps), StopReturns(id, false)));
            match s.callers[id].role
            case Closing => t == s.(callers := s.callers - {id})
            case Awaiting => id in t.callers && (t.callers[id].phase == Joined <==> s.fields.supervisor in s.joined)
            case _ => Holds(t, id) && t == s.(callers := s.callers[id := Caller(Awaiting, s.fields.supervisor, InStop)])
  {
    RunSafe(steps);
  }

  /** A rebuild goes on to a new supervisor exactly if there was no close meanwhile, and then
      the next caller gets one; it gives the token back in any case. */
  lemma RebuildGoesOnIff(steps: seq<Step>, id: nat)
    requires id in Run(steps).callers && Run(steps).callers[id] == Caller(Rebuilding, Run(steps).fields.supervisor, Drained)
    ensures var s := Run(steps);
            var (fields, onward) := LeaveRebuild(s.fields, s.callers[id].sup);
            && Next(s, Leave(id)).fields == fields && !fields.stopping
            && (onward <==> !s.fields.closed)
            && (onward <==> Active(fields, Some(s.built)).1 == Some(s.built))
            && (!onward ==> fields == s.fields.(stopping := false))
  {
    RunSafe(steps);
  }

  // ------------------------------------------------ no deadlock

  function Extended(s: System, more: seq<Step>): System {
    if more == [] then s else Next(Extended(s, more[..|more| - 1]), more[|more| - 1])
  }

  lemma {:induction false} ExtendedTwice(s: System, first: seq<Step>, second: seq<Step>)
    ensures Extended(s, first + second) == Extended(Extended(s, first), second)
  {
    if second == [] {
      assert first + second == first;
    } else {
      var all := first + second;
      assert all[..|all| - 1] == first + second[..|second| - 1];
      ExtendedTwice(s, first, second[..|second| - 1]);
    }
  }

  lemma {:induction false} RunExtended(steps: seq<Step>, more: seq<Step>)
    ensures Run(steps + more) == Extended(Run(steps), more)
  {
    if more == [] {
      assert steps + more == steps;
    } else {
      var all := steps + more;
      assert all[..|all| - 1] == steps + more[..|more| - 1];
      RunExtended(steps, more[..|more| - 1]);
    }
  }

  lemma OneMore(s: System, step: Step, more: seq<Step>)
    ensures Extended(s, [step] + more) == Extended(Next(s, step), more)
  {
    ExtendedTwice(s, [step], more);
    assert [step][..0] == [];
    assert Extended(s, [step]) == Next(s, step);
  }

  /** The only caller between two sections works on the current supervisor. */
  predicate Alone(s: System, id: nat) {
    && !s.fields.closed && s.built == s.fields.supervisor + 1
    && id in s.callers && s.callers == map[id := s.callers[id]]
    && s.callers[id].role != Closing && s.callers[id].sup == s.fields.supervisor
  }

  /** The token is free, and this supervisor is marked as stopped. */
  ghost predicate Finished(t: System, sup: nat) {
    && t.callers == map[] && t.built == sup + 1
    && t.fields.supervisor == sup && t.fields.supervisorStopped
    && !t.fields.stopping && !t.fields.closed && !t.fields.pairWatchActive
  }

  lemma HolderIsAlone(s: System, id: nat)
    requires Valid(s) && Holds(s, id) && !s.fields.closed
    ensures Alone(s, id)
  {
    assert forall i :: i in s.callers ==> Holds(s, i);
    assert s.callers.Keys == {id};
  }

  lemma WatcherGone(s: System, e: nat) returns (t: System)
    requires e in s.watchers
    ensures t == Next(Next(s, WatcherLeaves(e)), WatcherDone(e)) && |t.watchers| < |s.watchers|
    ensures t == s.(watchers := t.watchers, fields := s.fields.(pairWatchActive := t.fields.pairWatchActive))
  {
    var u := Next(s, WatcherLeaves(e));
    assert u == s.(watchers := u.watchers, fields := s.fields.(pairWatchActive := u.fields.pairWatchActive));
    assert e in u.watchers && u.watchers[e].leaving && u.watchers.Keys == s.watchers.Keys;
    t := Next(u, WatcherDone(e));
    assert t == u.(watchers := u.watchers - {e});
    hide Next;
    assert t.watchers.Keys == s.watchers.Keys - {e};
    assert |t.watchers.Keys| < |s.watchers.Keys|;
  }

  /** The watchers can leave without any caller. */
  lemma {:induction false} WatchersCanLeave(s: System) returns (more: seq<Step>)
    ensures var t := Extended(s, more);
            t == s.(watchers := map[], fields := s.fields.(pairWatchActive := t.fields.pairWatchActive))
    decreases |s.watchers|
  {
    if e :| e in s.watchers {
      var t := WatcherGone(s, e);
      hide Next, Extended;
      var rest := WatchersCanLeave(t);
      OneMore(Next(s, WatcherLeaves(e)), WatcherDone(e), rest);
      OneMore(s, WatcherLeaves(e), [WatcherDone(e)] + rest);
      more := [WatcherLeaves(e)] + ([WatcherDone(e)] + rest);
    } else {
      more := [];
      assert s.watchers == map[];
    }
  }

  lemma FinishDrained(s: System, id: nat) returns (more: seq<Step>)
    requires Alone(s, id) && (s.callers[id].phase == Drained || (s.callers[id].phase == UnpairDone && s.callers[id].role == Unpairing))
    ensures Finished(Extended(s, more), s.fields.supervisor)
  {
    var t := Next(s, RunUnpair(id));
    var u := Next(t, Leave(id));
    assert u.callers == map[];
    OneMore(t, Leave(id), []);
    OneMore(s, RunUnpair(id), [Leave(id)] + []);
    more := [RunUnpair(id)] + ([Leave(id)] + []);
  }

  lemma FinishJoined(s: System, id: nat) returns (more: seq<Step>)
    requires Alone(s, id) && s.callers[id].phase == Joined
    ensures Finished(Extended(s, more), s.fields.supervisor)
  {
    hide Finished;
    var leaving := WatchersCanLeave(s);
    var t := Extended(s, leaving);
    var u := Next(t, WatchersDone(id));
    var rest := FinishDrained(u, id);
    OneMore(t, WatchersDone(id), rest);
    ExtendedTwice(s, leaving, [WatchersDone(id)] + rest);
    more := leaving + ([WatchersDone(id)] + rest);
  }

  lemma FinishInStop(s: System, id: nat) returns (more: seq<Step>)
    requires Alone(s, id) && s.callers[id].phase == InStop
    ensures Finished(Extended(s, more), s.fields.supervisor)
  {
    hide Finished;
    var t := Next(s, SupervisorExits(s.fields.supervisor));
    var u := Next(t, StopReturns(id, true));
    var rest := FinishJoined(u, id);
    OneMore(t, StopReturns(id, true), rest);
    OneMore(s, SupervisorExits(s.fields.supervisor), [StopReturns(id, true)] + rest);
    more := [SupervisorExits(s.fields.supervisor)] + ([StopReturns(id, true)] + rest);
  }

  /** No deadlock: from wherever a run has got to, before close the holder of the token can
      come to its end with the steps of its supervisor, the watchers and itself; the token
      is free then, and the next caller gets a new supervisor. */
  lemma HolderCanFinish(steps: seq<Step>, id: nat)
    requires Holds(Run(steps), id) && !Run(steps).fields.closed
    ensures exists more ::
              && Finished(Run(steps + more), Run(steps).fields.supervisor)
              && Run(steps + more + [CallActive(true)]).fields.supervisor == Run(steps).built
  {
    var s := Run(steps);
    RunSafe(steps);
    HolderIsAlone(s, id);
    hide Extended, Run;
    var more;
    match s.callers[id].phase {
      case InStop => more := FinishInStop(s, id);
      case Joined => more := FinishJoined(s, id);
      case _ => more := FinishDrained(s, id);
    }
    RunExtended(steps, more);
    var t := Run(steps + more);
    Then(steps + more, CallActive(true), t, Next(t, CallActive(true)));
  }

  // ------------------------------------------------ the watcher's slot

  /** The watcher's slot is taken only while a watcher of the current supervisor holds it. */
  ghost predicate SlotHonest(s: System) {
    s.fields.pairWatchActive ==>
      exists e :: e in s.watchers && !s.watchers[e].leaving && s.watchers[e].sup == s.fields.supervisor
  }

  predicate Builds(s: System, step: Step) {
    step.CallActive? && step.buildable && s.fields.supervisorStopped && !s.fields.closed && !s.fields.stopping
  }

  /** Every step keeps the slot honest but one: a supervisor replaced while a watcher is
      active leaves a slot that this watcher will not give back. */
  lemma SlotStep(s: System, step: Step)
    requires Valid(s) && SlotHonest(s)
    ensures SlotHonest(Next(s, step)) <==> !(Builds(s, step) && s.fields.pairWatchActive)
  {
    NextSafe(s, step);
    var t := Next(s, step);
    if Builds(s, step) {
      assert t.fields.supervisor == s.built;
      assert forall e :: e in s.watchers && !s.watchers[e].leaving ==> s.watchers[e].sup != s.built;
    } else if s.fields.pairWatchActive && t.fields.pairWatchActive {
      var e :| e in s.watchers && !s.watchers[e].leaving && s.watchers[e].sup == s.fields.supervisor;
      assert e in t.watchers && !t.watchers[e].leaving && t.watchers[e].sup == t.fields.supervisor;
    } else if t.fields.pairWatchActive {
      assert t.fields.pairWatchEpoch in t.watchers;
    }
  }

  /** The slot is taken, and every watcher that has not cleaned up belongs to an earlier
      supervisor. */
  ghost predicate Stuck(s: System) {
    s.fields.pairWatchActive
    && forall e :: e in s.watchers && !s.watchers[e].leaving ==> s.watchers[e].sup < s.fields.supervisor
  }

  /** A slot that is not honest is stuck, and then no watcher of any supervisor can start. */
  lemma StuckOrHonest(s: System, sup: nat)
    requires Valid(s)
    ensures Stuck(s) <==> !SlotHonest(s)
    ensures Stuck(s) ==> Next(s, Watch(sup)) == s
  {
  }

  /** The last section of a caller who marks the current supervisor as stopped. */
  predicate Clears(s: System, step: Step) {
    step.Leave? && step.id in s.callers &&
    match s.callers[step.id]
    case Caller(Unpairing, _, phase) => phase == UnpairDone
    case Caller(Closing, _, phase) => phase == Drained
    case Caller(_, _, phase) => phase == Drained && !s.fields.closed
  }

  /** Nothing frees a stuck slot but the supervisor being marked as stopped. */
  lemma StuckStep(s: System, step: Step)
    requires Valid(s) && Stuck(s)
    ensures Stuck(Next(s, step)) <==> !Clears(s, step)
    ensures Next(s, step).watchers.Keys <= s.watchers.Keys
  {
  }

  /** From a stuck slot on no watcher starts until a caller marks the supervisor as stopped. */
  lemma {:induction false} StuckUntilStopped(before: seq<Step>, after: seq<Step>)
    requires Stuck(Run(before))
    requires forall k :: 0 <= k < |after| ==> !Clears(Run(before + after[..k]), after[k])
    ensures Stuck(Run(before + after)) && Run(before + after).watchers.Keys <= Run(before).watchers.Keys
    decreases |after|
  {
    hide Next, Run, Stuck, Clears, Valid;
    if after == [] {
      assert before + after == before;
    } else {
      var (init, last) := (after[..|after| - 1], after[|after| - 1]);
      forall k | 0 <= k < |init| ensures !Clears(Run(before + init[..k]), init[k]) {
        assert init[..k] == after[..k];
      }
      StuckUntilStopped(before, init);
      RunSafe(before + init);
      StuckStep(Run(before + init), last);
      assert before + after == (before + init) + [last];
      Then(before + init, last, Run(before + init), Next(Run(before + init), last));
    }
  }

  /** Every stuck slot has such a replacement behind it: over any run without one the slot
      stays honest. */
  lemma {:induction false} StuckNeedsRebuild(steps: seq<Step>)
    requires !SlotHonest(Run(steps))
    ensures exists k :: 0 <= k < |steps| && SlotHonest(Run(steps[..k]))
                        && Builds(Run(steps[..k]), steps[k]) && Run(steps[..k]).fields.pairWatchActive
  {
    if steps != [] {
      var (init, last) := (steps[..|steps| - 1], steps[|steps| - 1]);
      if SlotHonest(Run(init)) {
        RunSafe(init);
        SlotStep(Run(init), last);
        assert steps[..|init|] == init;
      } else {
        StuckNeedsRebuild(init);
        var k :| 0 <= k < |init| && SlotHonest(Run(init[..k]))
                 && Builds(Run(init[..k]), init[k]) && Run(init[..k]).fields.pairWatchActive;
        assert steps[..k] == init[..k] && steps[k] == init[k];
      }
    }
  }

  /** Such a run: pairing is admitted, the account is stopped and unpaired, the watcher
      of the stopped supervisor starts, and a new supervisor is built before the watcher
      leaves. The slot is taken although nobody watches. */
  lemma SlotCanStick()
    ensures exists steps ::
              var s := Run(steps);
              && s.callers == map[] && s.watchers == map[] && !s.fields.stopping && !s.fields.closed
              && s.fields.pairWatchActive && Next(s, Watch(s.fields.supervisor)) == s
  {
    var called := START.(fields := START.fields.(stopping := true), callers := map[0 := Caller(Unpairing, 0, InStop)]);
    Then([], CallUnpair(0), START, called);
    var r1 := [CallUnpair(0), SupervisorExits(0)];
    Then([CallUnpair(0)], SupervisorExits(0), called, called.(joined := {0}));
    var joined := called.(joined := {0}, callers := map[0 := Caller(Unpairing, 0, Joined)]);
    Then(r1, StopReturns(0, true), called.(joined := {0}), joined);
    var r2 := r1 + [StopReturns(0, true)];
    Then(r2, WatchersDone(0), joined, joined.(callers := map[0 := Caller(Unpairing, 0, Drained)]));
    var r3 := r2 + [WatchersDone(0)];
    var unpaired := joined.(callers := map[0 := Caller(Unpairing, 0, UnpairDone)]);
    Then(r3, RunUnpair(0), joined.(callers := map[0 := Caller(Unpairing, 0, Drained)]), unpaired);
    var r4 := r3 + [RunUnpair(0)];
    var stopped := System(START.fields.(supervisorStopped := true), 1, {0}, map[], map[]);
    Then(r4, Leave(0), unpaired, stopped);
    var r5 := r4 + [Leave(0)];
    var watching := stopped.(fields := stopped.fields.(pairWatchEpoch := 1, pairWatchActive := true), watchers := map[1 := Watcher(0, false)]);
    Then(r5, Watch(0), stopped, watching);
    var rebuilt := watching.(built := 2, fields := watching.fields.(supervisor := 1, supervisorStopped := false));
    Then(r5 + [Watch(0)], CallActive(true), watching, rebuilt);
    var r6 := r5 + [Watch(0)] + [CallActive(true)];
    Then(r6, WatcherLeaves(1), rebuilt, rebuilt.(watchers := map[1 := Watcher(0, true)]));
    Then(r6 + [WatcherLeaves(1)], WatcherDone(1), rebuilt.(watchers := map[1 := Watcher(0, true)]), rebuilt.(watchers := map[]));
    var s := Run(r6 + [WatcherLeaves(1)] + [WatcherDone(1)]);
    assert Next(s, Watch(s.fields.supervisor)) == s;
  }

  lemma Then(steps: seq<Step>, step: Step, s: System, t: System)
    requires Run(steps) == s && Next(s, step) == t
    ensures Run(steps + [step]) == t
  {
    assert (steps + [step])[..|steps + [step]| - 1] == steps;
  }
}
