/** The repair pacer of cmd/google_supervisor.go (acquireRepairCooldown and
    waitForRepairCooldown): one token admits one caller at a time, who waits until the
    minimum interval since the last admitted repair is over. */
module Pacer {
  import opened Bridge

  /** The repairer's fields. `gate` counts the tokens in the channel, once it exists. */
  datatype Fields = Fields(gate: Option<nat>, lastRepairAt: Time, pacedCount: nat)

  function WithGate(f: Fields): Fields { if f.gate.None? then f.(gate := Some(1)) else f }

  function Taken(f: Fields): Fields
    requires f.gate.Some? && f.gate.value > 0
  {
    f.(gate := Some(f.gate.value - 1))
  }

  function Released(f: Fields): Fields
    requires f.gate.Some?
  {
    f.(gate := Some(f.gate.value + 1))
  }

  function Stamped(f: Fields, now: Time): Fields { f.(lastRepairAt := now) }

  /** How long to wait at `now`, if at all. */
  function Delay(f: Fields, minInterval: Duration, now: Time): Option<Duration> {
    var elapsed := now - f.lastRepairAt;
    if minInterval > 0 && f.lastRepairAt != ZERO && elapsed < minInterval then Some(minInterval - elapsed) else None
  }

  function Assessed(f: Fields, minInterval: Duration, now: Time): (Fields, Option<Duration>) {
    var wait := Delay(f, minInterval, now);
    (if wait.Some? then f.(pacedCount := f.pacedCount + 1) else f, wait)
  }

  class Repairer {
    const minInterval: Duration
    var gate: Option<nat>
    var lastRepairAt: Time
    var pacedCount: nat

    function View(): Fields
      reads this
    {
      Fields(gate, lastRepairAt, pacedCount)
    }

    constructor (interval: Duration)
      ensures minInterval == interval && View() == Fields(None, ZERO, 0)
    {
      minInterval, gate, lastRepairAt, pacedCount := interval, None, ZERO, 0;
    }

    method MakeGate()
      modifies this
      ensures View() == WithGate(old(View())) && gate.Some?
    {
      if gate.None? {
        gate := Some(1);
      }
    }

    method TakeToken() returns (taken: bool)
      requires gate.Some?
      modifies this
      ensures taken <==> old(gate).value > 0
      ensures View() == if taken then Taken(old(View())) else old(View())
    {
      if gate.value == 0 {
        return false;
      }
      gate := Some(gate.value - 1);
      return true;
    }

    method Release()
      requires gate.Some?
      modifies this
      ensures View() == Released(old(View()))
    {
      gate := Some(gate.value + 1);
    }

    method Assess(now: Time) returns (wait: Option<Duration>)
      modifies this
      ensures (View(), wait) == Assessed(old(View()), minInterval, now)
    {
      var elapsed := now - lastRepairAt;
      if minInterval > 0 && lastRepairAt != ZERO && elapsed < minInterval {
        pacedCount := pacedCount + 1;
        return Some(minInterval - elapsed);
      }
      return None;
    }

    method Stamp(now: Time)
      modifies this
      ensures View() == Stamped(old(View()), now)
    {
      lastRepairAt := now;
    }
  }

  // ------------------------------------------------ concurrent callers

  /** Before the select; with the token but before the context check; about to look at the
      clock; in the timer's select; past it; about to give the token back. */
  datatype Phase = Selecting | Checking | Assessing | Sleeping(until: Time) | Ready | Leaving

  /** `admitted`: when repairs were admitted. The clock does not run backwards. */
  datatype System = System(fields: Fields, clock: Time, callers: map<nat, Phase>, admitted: seq<Time>)

  const START := System(Fields(None, ZERO, 0), 1, map[], [])

  datatype Step =
    | Tick(span: nat)
    | Call(id: nat)                        // r.mu: the gate exists from here on
    | Take(id: nat)                        // the select receives the token
    | GiveUp(id: nat)                      // the select sees the context cancelled
    | CheckContext(id: nat, cancelled: bool)
    | AssessAt(id: nat)                    // r.mu: compare clock and last repair
    | Wake(id: nat, cancelled: bool)       // the timer fired; then the context check
    | Cancel(id: nat)                      // cancelled while sleeping
    | StampAt(id: nat)                     // r.mu: the repair is admitted
    | GiveBack(id: nat)                    // the deferred release

  function Become(s: System, id: nat, phase: Phase): System { s.(callers := s.callers[id := phase]) }

  function Next(minInterval: Duration, s: System, step: Step): System {
    match step
    case Tick(span) => s.(clock := s.clock + span)
    case Call(id) =>
      if id in s.callers then s else Become(s, id, Selecting).(fields := WithGate(s.fields))
    case Take(id) =>
      if id in s.callers && s.callers[id] == Selecting && s.fields.gate.Some? && s.fields.gate.value > 0
      then Become(s, id, Checking).(fields := Taken(s.fields)) else s
    case GiveUp(id) =>
      if id in s.callers && s.callers[id] == Selecting then s.(callers := s.callers - {id}) else s
    case CheckContext(id, cancelled) =>
      if id in s.callers && s.callers[id] == Checking
      then Become(s, id, if cancelled then Leaving else Assessing) else s
    case AssessAt(id) =>
      if id in s.callers && s.callers[id] == Assessing then
        var (fields, wait) := Assessed(s.fields, minInterval, s.clock);
        Become(s, id, if wait.None? then Ready else Sleeping(s.clock + wait.value)).(fields := fields)
      else s
    case Wake(id, cancelled) =>
      if id in s.callers && s.callers[id].Sleeping? && s.callers[id].until <= s.clock
      then Become(s, id, if cancelled then Leaving else Ready) else s
    case Cancel(id) =>
      if id in s.callers && s.callers[id].Sleeping? then Become(s, id, Leaving) else s
    case StampAt(id) =>
      if id in s.callers && s.callers[id] == Ready
      then Become(s, id, Leaving).(fields := Stamped(s.fields, s.clock), admitted := s.admitted + [s.clock]) else s
    case GiveBack(id) =>
      if id in s.callers && s.callers[id] == Leaving && s.fields.gate.Some?
      then s.(callers := s.callers - {id}, fields := Released(s.fields)) else s
  }

  function Run(minInterval: Duration, steps: seq<Step>): System {
    if steps == [] then START else Next(minInterval, Run(minInterval, steps[..|steps| - 1]), steps[|steps| - 1])
  }

  // ------------------------------------------------ the invariant

  predicate Holds(s: System, id: nat) { id in s.callers && s.callers[id] != Selecting }

  /** The token is in the channel or held by exactly one caller. */
  ghost predicate OneToken(s: System) {
    && (forall i, j :: Holds(s, i) && Holds(s, j) ==> i == j)
    && match s.fields.gate
       case None => s.callers == map[]
       case Some(tokens) => tokens == if exists i :: Holds(s, i) then 0 else 1
  }

  /** Every repair so far was at least the interval after the one before. */
  ghost predicate Spaced(minInterval: Duration, admitted: seq<Time>) {
    forall i, j :: 0 <= i < j < |admitted| ==> admitted[i] + minInterval <= admitted[j]
  }

  ghost predicate Valid(minInterval: Duration, s: System) {
    && OneToken(s) && 0 < s.clock
    && Spaced(minInterval, s.admitted)
    && (if s.admitted == [] then s.fields.lastRepairAt == ZERO
        else s.fields.lastRepairAt == s.admitted[|s.admitted| - 1] && 0 < s.fields.lastRepairAt <= s.clock)
    && (forall id :: id in s.callers && s.admitted != [] ==>
          && (s.callers[id] == Ready ==> s.fields.lastRepairAt + minInterval <= s.clock)
          && (s.callers[id].Sleeping? ==> s.callers[id].until == s.fields.lastRepairAt + minInterval))
    && (forall id :: id in s.callers && s.callers[id].Sleeping? ==> s.admitted != [])
  }

  lemma TokenSafe(minInterval: Duration, s: System, step: Step)
    requires OneToken(s)
    ensures OneToken(Next(minInterval, s, step))
  {
    var t := Next(minInterval, s, step);
    if step.Tick? {
      assert forall i :: Holds(t, i) <==> Holds(s, i);
    } else if t != s {
      assert forall i :: i != step.id ==> (Holds(t, i) <==> Holds(s, i));
      assert Holds(t, step.id) || !Holds(t, step.id);
      assert Holds(s, step.id) || !Holds(s, step.id);
    }
  }

  lemma NextSafe(minInterval: Duration, s: System, step: Step)
    requires Valid(minInterval, s)
    ensures Valid(minInterval, Next(minInterval, s, step))
  {
    TokenSafe(minInterval, s, step);
    if step.StampAt? {
      assert forall i :: i in s.callers && i != step.id && Holds(s, step.id) ==> !Holds(s, i);
    }
  }

  lemma {:induction false} RunSafe(minInterval: Duration, steps: seq<Step>)
    ensures Valid(minInterval, Run(minInterval, steps))
  {
    if steps != [] {
      RunSafe(minInterval, steps[..|steps| - 1]);
      NextSafe(minInterval, Run(minInterval, steps[..|steps| - 1]), steps[|steps| - 1]);
    }
  }

  // ------------------------------------------------ what every interleaving keeps

  /** For any number of concurrent and cancelled callers, admitted repairs are pairwise at
      least the minimum interval apart. */
  lemma RepairsArePaced(minInterval: Duration, steps: seq<Step>, i: nat, j: nat)
    ensures var admitted := Run(minInterval, steps).admitted;
            i < j < |admitted| ==> admitted[i] + minInterval <= admitted[j]
  {
    RunSafe(minInterval, steps);
  }

  /** There is exactly one token, in the channel or with one caller; so the caller who
      gives it back always finds room in a channel of capacity one. */
  lemma ExactlyOneToken(minInterval: Duration, steps: seq<Step>, i: nat, j: nat)
    ensures var s := Run(minInterval, steps);
            && (Holds(s, i) ==> s.fields.gate == Some(0))
            && (Holds(s, i) && Holds(s, j) ==> i == j)
            && (s.fields.gate.Some? && (forall k :: !Holds(s, k)) ==> s.fields.gate == Some(1))
  {
    RunSafe(minInterval, steps);
  }

  /** Only an admitted repair moves lastRepairAt, to the moment it is admitted. */
  lemma OnlyAdmissionMovesThePace(minInterval: Duration, steps: seq<Step>, step: Step)
    ensures var (s, t) := (Run(minInterval, steps), Run(minInterval, steps + [step]));
            if step.StampAt? && step.id in s.callers && s.callers[step.id] == Ready
            then t.admitted == s.admitted + [s.clock] && t.fields.lastRepairAt == s.clock
            else t.admitted == s.admitted && t.fields.lastRepairAt == s.fields.lastRepairAt
  {
    assert (steps + [step])[..|steps + [step]| - 1] == steps;
  }

  /** The first moment from which the next repair may be admitted. */
  function Earliest(minInterval: Duration, s: System): Time {
    if s.admitted == [] then s.clock else s.admitted[|s.admitted| - 1] + minInterval
  }

  /** A caller takes the token exactly if nobody has it; who has it goes on at once exactly
      if the interval is over, and else sleeps until then and is counted; and a sleeper wakes
      exactly then. */
  lemma GoesOnIff(minInterval: Duration, steps: seq<Step>, id: nat)
    requires id in Run(minInterval, steps).callers
    ensures var s := Run(minInterval, steps);
            var (taken, assessed, woken) := (Next(minInterval, s, Take(id)), Next(minInterval, s, AssessAt(id)), Next(minInterval, s, Wake(id, false)));
            var over := Earliest(minInterval, s) <= s.clock;
            match s.callers[id]
            case Selecting =>
              && taken.callers[id] == (if exists j :: Holds(s, j) then Selecting else Checking)
              && Next(minInterval, s, GiveUp(id)) == s.(callers := s.callers - {id})
            case Checking =>
              && Next(minInterval, s, CheckContext(id, false)).callers[id] == Assessing
              && Next(minInterval, s, CheckContext(id, true)).callers[id] == Leaving
            case Assessing =>
              && assessed.callers[id] == (if over then Ready else Sleeping(Earliest(minInterval, s)))
              && assessed.fields.pacedCount == s.fields.pacedCount + if over then 0 else 1
            case Sleeping(until) => until == Earliest(minInterval, s) && woken.callers[id] == if over then Ready else s.callers[id]
            case Ready => over && Next(minInterval, s, StampAt(id)).admitted == s.admitted + [s.clock]
            case Leaving => id !in Next(minInterval, s, GiveBack(id)).callers
  {
    RunSafe(minInterval, steps);
    hide Run, Spaced;
    if Run(minInterval, steps).callers[id] != Selecting { hide Holds; }
  }

  /** The way of a caller that nobody cancels. */
  function Passage(id: nat, span: nat): seq<Step> {
    [Take(id), CheckContext(id, false), AssessAt(id), Tick(span), Wake(id, false), StampAt(id)]
  }

  /** A caller that waits while nobody has the token is admitted once it moves and the clock
      has reached the earliest moment: not only never too early, but never later either. */
  lemma AdmittedOnTimeIff(minInterval: Duration, steps: seq<Step>, id: nat, span: nat)
    requires var s := Run(minInterval, steps);
             id in s.callers && s.callers[id] == Selecting && forall j :: !Holds(s, j)
    ensures var (s, t) := (Run(minInterval, steps), Run(minInterval, steps + Passage(id, span)));
            t.admitted == if Earliest(minInterval, s) <= s.clock + span then s.admitted + [s.clock + span] else s.admitted
  {
    hide Run, Next, Valid;
    var s := Run(minInterval, steps);
    RunSafe(minInterval, steps);
    PassageOf(minInterval, s, id, span);
    var (a, b, c) := (Take(id), CheckContext(id, false), AssessAt(id));
    var (d, e, f) := (Tick(span), Wake(id, false), StampAt(id));
    Then(minInterval, steps, a);
    Then(minInterval, steps + [a], b);
    Then(minInterval, steps + [a] + [b], c);
    Then(minInterval, steps + [a] + [b] + [c], d);
    Then(minInterval, steps + [a] + [b] + [c] + [d], e);
    Then(minInterval, steps + [a] + [b] + [c] + [d] + [e], f);
    assert steps + [a] + [b] + [c] + [d] + [e] + [f] == steps + Passage(id, span);
  }

  lemma PassageOf(minInterval: Duration, s: System, id: nat, span: nat)
    requires Valid(minInterval, s) && id in s.callers && s.callers[id] == Selecting && forall j :: !Holds(s, j)
    ensures var assessed := Next(minInterval, Next(minInterval, Next(minInterval, s, Take(id)), CheckContext(id, false)), AssessAt(id));
            var woken := Next(minInterval, Next(minInterval, assessed, Tick(span)), Wake(id, false));
            Next(minInterval, woken, StampAt(id)).admitted ==
              if Earliest(minInterval, s) <= s.clock + span then s.admitted + [s.clock + span] else s.admitted
  {
  }

  predicate IsOf(step: Step, id: nat) { !step.Tick? && step.id == id }

  /** The three places where a caller with the token sees its context cancelled: right after
      it took the token, while it sleeps, and when it wakes. */
  predicate Cancels(s: System, step: Step) {
    match step
    case CheckContext(id, cancelled) => cancelled && id in s.callers && s.callers[id] == Checking
    case Cancel(id) => id in s.callers && s.callers[id].Sleeping?
    case Wake(id, cancelled) =>
      cancelled && id in s.callers && s.callers[id].Sleeping? && s.callers[id].until <= s.clock
    case _ => false
  }

  lemma Then(minInterval: Duration, steps: seq<Step>, step: Step)
    ensures Run(minInterval, steps + [step]) == Next(minInterval, Run(minInterval, steps), step)
  {
    assert (steps + [step])[..|steps + [step]| - 1] == steps;
  }

  /** While one caller has the token, the others change neither it nor the pace. */
  lemma OthersWait(minInterval: Duration, s: System, step: Step, id: nat)
    requires Valid(minInterval, s) && Holds(s, id) && !IsOf(step, id)
    ensures var t := Next(minInterval, s, step);
            && t.fields == s.fields && t.admitted == s.admitted
            && id in t.callers && t.callers[id] == s.callers[id]
  {
    assert s.fields.gate == Some(0);
    assert !step.Tick? ==> !Holds(s, step.id);
  }

  lemma {:induction false} AllOthersWait(minInterval: Duration, before: seq<Step>, others: seq<Step>, id: nat)
    requires Holds(Run(minInterval, before), id) && forall k :: 0 <= k < |others| ==> !IsOf(others[k], id)
    ensures var (s, t) := (Run(minInterval, before), Run(minInterval, before + others));
            && t.fields == s.fields && t.admitted == s.admitted
            && id in t.callers && t.callers[id] == s.callers[id]
    decreases |others|
  {
    hide Run, Next, Valid;
    if others == [] {
      assert before + others == before;
    } else {
      var (init, last) := (others[..|others| - 1], others[|others| - 1]);
      AllOthersWait(minInterval, before, init, id);
      RunSafe(minInterval, before + init);
      OthersWait(minInterval, Run(minInterval, before + init), last, id);
      assert before + others == (before + init) + [last];
      Then(minInterval, before + init, last);
    }
  }

  lemma CancelLeaves(minInterval: Duration, s: System, cancel: Step)
    requires Valid(minInterval, s) && Cancels(s, cancel)
    ensures var t := Next(minInterval, s, cancel);
            && t.fields == s.fields && t.admitted == s.admitted
            && cancel.id in t.callers && t.callers[cancel.id] == Leaving
  {
  }

  lemma GiveBackFrees(minInterval: Duration, s: System, id: nat)
    requires Valid(minInterval, s) && id in s.callers && s.callers[id] == Leaving
    ensures var t := Next(minInterval, s, GiveBack(id));
            && t.fields == s.fields.(gate := Some(1)) && t.admitted == s.admitted
            && id !in t.callers && forall j :: !Holds(t, j)
  {
    assert Holds(s, id);
    assert forall j :: Holds(Next(minInterval, s, GiveBack(id)), j) ==> Holds(s, j) && j != id;
  }

  /** A caller that is cancelled with the token in hand, at whichever point, gives it back
      whatever the others do in between, and leaves everything else as it was. */
  lemma CancelledCallerGivesBack(minInterval: Duration, before: seq<Step>, cancel: Step, others: seq<Step>)
    requires Cancels(Run(minInterval, before), cancel)
    requires forall k :: 0 <= k < |others| ==> !IsOf(others[k], cancel.id)
    ensures var s := Run(minInterval, before);
            var t := Run(minInterval, before + [cancel] + others + [GiveBack(cancel.id)]);
            && t.fields == s.fields.(gate := Some(1)) && t.admitted == s.admitted
            && cancel.id !in t.callers && forall id :: !Holds(t, id)
  {
    hide Run, Next, Valid;
    var cancelled := before + [cancel];
    RunSafe(minInterval, before);
    CancelLeaves(minInterval, Run(minInterval, before), cancel);
    Then(minInterval, before, cancel);
    AllOthersWait(minInterval, cancelled, others, cancel.id);
    RunSafe(minInterval, cancelled + others);
    GiveBackFrees(minInterval, Run(minInterval, cancelled + others), cancel.id);
    Then(minInterval, cancelled + others, GiveBack(cancel.id));
  }
}
