/** The generation fence of internal/bridge/supervisor.go, which adapter callbacks cross
    concurrently with the run loop: a callback holds the read lock from its check to the
    end of its downstream commit, activate and deactivate write under the write lock. */
module Fence {
  datatype Fence = Fence(generation: nat, active: bool)

  function Activated(f: Fence, g: nat): Fence { Fence(g, true) }

  function Deactivated(f: Fence, g: nat): Fence { if f.generation == g then f.(active := false) else f }

  predicate Admits(f: Fence, g: nat) { f.active && f.generation == g }

  class GenerationFence {
    var generation: nat
    var active: bool

    function View(): Fence
      reads this
    {
      Fence(generation, active)
    }

    constructor ()
      ensures View() == Fence(0, false)
    {
      generation, active := 0, false;
    }

    method Activate(g: nat)
      modifies this
      ensures View() == Activated(old(View()), g)
    {
      generation := g;
      active := true;
    }

    method Deactivate(g: nat)
      modifies this
      ensures View() == Deactivated(old(View()), g)
    {
      if generation == g {
        active := false;
      }
    }

    /** The check of generationSink, under the read lock. */
    method Check(g: nat) returns (current: bool)
      ensures current <==> Admits(View(), g)
    {
      current := active && generation == g;
    }
  }

  // ------------------------------------------------ threads

  datatype Write = Activate(g: nat) | Deactivate(g: nat)

  /** The run loop is the only writer: waiting for the lock, holding it, done writing. */
  datatype Writer = Idle | Locking(op: Write) | Holding(op: Write) | Written(op: Write)

  /** A callback bound to generation g: waiting for the read lock, holding it before the
      check, or committing downstream. */
  datatype Callback = Waiting(g: nat) | Reading(g: nat) | Committing(g: nat)

  /** `newest`: the newest generation that activate was called for. `retired`: the
      generations whose deactivate has returned. */
  datatype System = System(
    fence: Fence, writer: Writer, callbacks: map<nat, Callback>, newest: nat, retired: set<nat>)

  const START := System(Fence(0, false), Idle, map[], 0, {})

  datatype Step =
    | CallActivate            // startGeneration, for the next generation
    | CallDeactivate(g: nat)  // clearGenerationContext
    | Lock
    | DoWrite
    | Unlock
    | Arrive(id: nat, g: nat)
    | ReadLock(id: nat)
    | CheckFence(id: nat)
    | CommitDone(id: nat)

  predicate WriterHolds(w: Writer) { w.Holding? || w.Written? }

  ghost predicate ReaderHolds(s: System) {
    exists id :: id in s.callbacks && !s.callbacks[id].Waiting?
  }

  /** One atomic step; a step that its thread cannot take changes nothing. */
  ghost function Next(s: System, step: Step): System {
    match step
    case CallActivate =>
      if s.writer.Idle? then s.(writer := Locking(Activate(s.newest + 1)), newest := s.newest + 1) else s
    case CallDeactivate(g) =>
      if s.writer.Idle? && g <= s.newest then s.(writer := Locking(Deactivate(g))) else s
    case Lock =>
      if s.writer.Locking? && !ReaderHolds(s) then s.(writer := Holding(s.writer.op)) else s
    case DoWrite =>
      if !s.writer.Holding? then s
      else s.(writer := Written(s.writer.op),
              fence := if s.writer.op.Activate? then Activated(s.fence, s.writer.op.g)
                       else Deactivated(s.fence, s.writer.op.g))
    case Unlock =>
      if !s.writer.Written? then s
      else s.(writer := Idle,
              retired := if s.writer.op.Deactivate? then s.retired + {s.writer.op.g} else s.retired)
    case Arrive(id, g) => if id in s.callbacks then s else s.(callbacks := s.callbacks[id := Waiting(g)])
    case ReadLock(id) =>
      if id in s.callbacks && s.callbacks[id].Waiting? && !WriterHolds(s.writer)
      then s.(callbacks := s.callbacks[id := Reading(s.callbacks[id].g)]) else s
    case CheckFence(id) =>
      if id in s.callbacks && s.callbacks[id].Reading? then
        if Admits(s.fence, s.callbacks[id].g) then s.(callbacks := s.callbacks[id := Committing(s.callbacks[id].g)])
        else s.(callbacks := s.callbacks - {id})
      else s
    case CommitDone(id) =>
      if id in s.callbacks && s.callbacks[id].Committing? then s.(callbacks := s.callbacks - {id}) else s
  }

  ghost function RunFrom(s: System, steps: seq<Step>): System {
    if steps == [] then s else Next(RunFrom(s, steps[..|steps| - 1]), steps[|steps| - 1])
  }

  ghost predicate Commits(s: System, g: nat) {
    exists id :: id in s.callbacks && s.callbacks[id] == Committing(g)
  }

  // ------------------------------------------------ the invariant

  ghost predicate Valid(s: System) {
    && s.fence.generation <= s.newest
    && (WriterHolds(s.writer) ==> !ReaderHolds(s))
    && (forall id :: id in s.callbacks && s.callbacks[id].Committing? ==> Admits(s.fence, s.callbacks[id].g))
    && ((s.writer.Locking? || s.writer.Holding?) && s.writer.op.Activate? ==>
          s.writer.op.g == s.newest && s.newest !in s.retired && s.fence.generation < s.newest)
    && (!s.writer.Idle? ==> s.writer.op.g <= s.newest)
    && (s.writer.Written? && s.writer.op.Deactivate? ==> !Admits(s.fence, s.writer.op.g))
    && (forall g :: g in s.retired ==> g <= s.newest && !Admits(s.fence, g))
  }

  lemma WriterSafe(s: System, step: Step)
    requires Valid(s) && (step.CallActivate? || step.CallDeactivate? || step.Lock? || step.DoWrite? || step.Unlock?)
    ensures Valid(Next(s, step)) && s.fence.generation <= Next(s, step).fence.generation
  {
    if WriterHolds(s.writer) {
      assert forall id :: id in s.callbacks ==> s.callbacks[id].Waiting?;
    }
  }

  lemma NextSafe(s: System, step: Step)
    requires Valid(s)
    ensures var t := Next(s, step);
            Valid(t) && s.retired <= t.retired && s.fence.generation <= t.fence.generation
  {
    if step.CallActivate? || step.CallDeactivate? || step.Lock? || step.DoWrite? || step.Unlock? {
      WriterSafe(s, step);
    } else if WriterHolds(s.writer) {
      assert forall id :: id in s.callbacks ==> s.callbacks[id].Waiting?;
    }
  }

  lemma {:induction false} RunSafe(s: System, steps: seq<Step>)
    requires Valid(s)
    ensures var t := RunFrom(s, steps);
            Valid(t) && s.retired <= t.retired && s.fence.generation <= t.fence.generation
  {
    if steps != [] {
      RunSafe(s, steps[..|steps| - 1]);
      NextSafe(RunFrom(s, steps[..|steps| - 1]), steps[|steps| - 1]);
    }
  }

  // ------------------------------------------------ what every interleaving keeps

  /** Once deactivate(g) has returned, no downstream commit of g is in progress, and none
      is begun by any later step, however the callbacks interleave. */
  lemma NoCommitAfterDeactivate(before: seq<Step>, after: seq<Step>, g: nat)
    requires g in RunFrom(START, before).retired
    ensures !Commits(RunFrom(RunFrom(START, before), after), g)
  {
    RunSafe(START, before);
    RunSafe(RunFrom(START, before), after);
  }

  /** A commit in progress belongs to the active generation, which cannot be closed or
      replaced before the commit is done. */
  lemma CommitsAreCurrent(steps: seq<Step>, step: Step, g: nat)
    ensures var s := RunFrom(START, steps);
            var t := RunFrom(START, steps + [step]);
            && (Commits(s, g) ==> Admits(s.fence, g) && t.fence == s.fence)
            && s.fence.generation <= t.fence.generation
  {
    RunSafe(START, steps);
    NextSafe(RunFrom(START, steps), step);
    assert (steps + [step])[..|steps + [step]| - 1] == steps;
  }

  // ------------------------------------------------ what every callback gets

  /** A callback at the fence commits exactly if its generation is the active one, and is
      dropped otherwise; it is kept waiting only while the run loop holds the lock. */
  lemma PassesIff(s: System, id: nat, bound: nat)
    ensures id !in s.callbacks ==> Next(s, Arrive(id, bound)).callbacks == s.callbacks[id := Waiting(bound)]
    ensures id in s.callbacks ==>
            match s.callbacks[id]
            case Waiting(g) => Next(s, ReadLock(id)).callbacks[id] == if WriterHolds(s.writer) then Waiting(g) else Reading(g)
            case Reading(g) =>
              var t := Next(s, CheckFence(id));
              if s.fence == Fence(g, true) then t.callbacks[id] == Committing(g) else t.callbacks == s.callbacks - {id}
            case Committing(_) => Next(s, CommitDone(id)).callbacks == s.callbacks - {id}
  {
  }

  /** Once the callbacks that hold the read lock are through, the run loop's call takes
      effect: activate opens the fence for the newest generation alone, deactivate closes it
      for its generation and for no other. */
  lemma CallTakesEffect(s: System, call: Step)
    requires Valid(s) && s.writer.Idle? && !ReaderHolds(s)
    requires call.CallActivate? || (call.CallDeactivate? && call.g <= s.newest)
    ensures var t := Next(Next(Next(Next(s, call), Lock), DoWrite), Unlock);
            && t.writer.Idle? && t.callbacks == s.callbacks
            && if call.CallActivate? then t.newest == s.newest + 1 && t.fence == Fence(t.newest, true) && t.retired == s.retired
               else t.newest == s.newest && t.retired == s.retired + {call.g}
                    && t.fence == Fence(s.fence.generation, s.fence.active && s.fence.generation != call.g)
  {
    var t := Next(s, call);
    assert !ReaderHolds(t);
  }
}
