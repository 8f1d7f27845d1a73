/** Scheduled sends: the guarded updates of internal/db/scheduled.go, driven by the loop of
    internal/app/scheduler.go. Each UPDATE is one atomic step; any number of schedulers and
    cancels interleave, and a scheduler may hold a due list that has gone stale. */
module Scheduled {
  import opened Bridge

  datatype Status = Pending | Sending | Sent | Failed | Canceled

  datatype Row = Row(status: Status, attempts: nat, sendAt: int)

  type Table = map<string, Row>

  const MAX_ATTEMPTS := 5

  // ------------------------------------------------ the statements

  function SetStatus(t: Table, id: string, from: Status, into: Status): (Table, bool) {
    if id in t && t[id].status == from then (t[id := t[id].(status := into)], true) else (t, false)
  }

  function Claim(t: Table, id: string): (Table, bool) { SetStatus(t, id, Pending, Sending) }

  function Cancel(t: Table, id: string): (Table, bool) { SetStatus(t, id, Pending, Canceled) }

  function MarkSent(t: Table, id: string): Table {
    if id in t then t[id := t[id].(status := Sent)] else t
  }

  /** MarkScheduledMessageFailed and RevertScheduledMessageToPending count the attempt. */
  function CountAttempt(t: Table, id: string, into: Status): Table {
    if id in t then t[id := t[id].(status := into, attempts := t[id].attempts + 1)] else t
  }

  /** What a scheduler read about a message when it loaded the due list. */
  datatype Due = Due(id: string, attempts: nat)

  /** retryOrFail decides by the attempts it read. */
  function RetryOrFail(t: Table, due: Due): Table {
    CountAttempt(t, due.id, if due.attempts + 1 >= MAX_ATTEMPTS then Failed else Pending)
  }

  /** GetDueScheduledMessages: the pending rows whose time has come, oldest first. */
  ghost predicate IsDueList(t: Table, now: int, list: seq<Due>) {
    && (forall k :: 0 <= k < |list| ==>
          && list[k].id in t && t[list[k].id].status == Pending && t[list[k].id].sendAt <= now
          && list[k].attempts == t[list[k].id].attempts)
    && (forall id :: id in t && t[id].status == Pending && t[id].sendAt <= now ==> exists k :: 0 <= k < |list| && list[k].id == id)
    && (forall j, k :: 0 <= j < k < |list| ==> list[j].id != list[k].id && t[list[j].id].sendAt <= t[list[k].id].sendAt)
  }

  // ------------------------------------------------ one scheduler's loop, undisturbed

  /** What a send comes to: the route is not ready, the transport fails, or it is sent. */
  datatype Transport = Unready | SendError | Delivered

  function SendOne(t: Table, due: Due, transport: Transport): Table {
    var (claimed, won) := Claim(t, due.id);
    if !won then claimed
    else if transport == Delivered then MarkSent(claimed, due.id) else RetryOrFail(claimed, due)
  }

  function SendAll(t: Table, list: seq<Due>, transport: string -> Transport): Table {
    if list == [] then t
    else SendOne(SendAll(t, list[..|list| - 1], transport), list[|list| - 1], transport(list[|list| - 1].id))
  }

  class Store {
    var rows: Table

    method ClaimScheduledMessage(id: string) returns (won: bool)
      modifies this
      ensures (rows, won) == Claim(old(rows), id)
    {
      if id in rows && rows[id].status == Pending {
        rows := rows[id := rows[id].(status := Sending)];
        return true;
      }
      return false;
    }

    method CancelScheduledMessage(id: string) returns (canceled: bool)
      modifies this
      ensures (rows, canceled) == Cancel(old(rows), id)
    {
      if id in rows && rows[id].status == Pending {
        rows := rows[id := rows[id].(status := Canceled)];
        return true;
      }
      return false;
    }

    method MarkScheduledMessageSent(id: string)
      modifies this
      ensures rows == MarkSent(old(rows), id)
    {
      if id in rows {
        rows := rows[id := rows[id].(status := Sent)];
      }
    }

    method Count(id: string, into: Status)
      modifies this
      ensures rows == CountAttempt(old(rows), id, into)
    {
      if id in rows {
        rows := rows[id := rows[id].(status := into, attempts := rows[id].attempts + 1)];
      }
    }
  }

  method SendScheduledMessage(store: Store, due: Due, transport: Transport)
    modifies store
    ensures store.rows == SendOne(old(store.rows), due, transport)
  {
    var won := store.ClaimScheduledMessage(due.id);
    if !won {
      return;
    }
    if transport == Delivered {
      store.MarkScheduledMessageSent(due.id);
    } else if due.attempts + 1 >= MAX_ATTEMPTS {
      store.Count(due.id, Failed);
    } else {
      store.Count(due.id, Pending);
    }
  }

  /** What one undisturbed try makes of a pending message. */
  function Tried(was: Row, transport: Transport): Row {
    if transport == Delivered then was.(status := Sent)
    else was.(attempts := was.attempts + 1, status := if was.attempts + 1 >= MAX_ATTEMPTS then Failed else Pending)
  }

  ghost predicate Listed(list: seq<Due>, k: nat, id: string)
    requires k <= |list|
  {
    exists j :: 0 <= j < k && list[j].id == id
  }

  /** Of an undisturbed due list, every message up to `k` has been tried exactly once. */
  lemma {:induction false} TriesEachOnce(t: Table, now: int, list: seq<Due>, k: nat, transport: string -> Transport, id: string)
    requires IsDueList(t, now, list) && k <= |list| && id in t
    ensures var after := SendAll(t, list[..k], transport);
            && id in after
            && after[id] == if Listed(list, k, id) then Tried(t[id], transport(id)) else t[id]
  {
    if k > 0 {
      assert list[..k][..k - 1] == list[..k - 1];
      TriesEachOnce(t, now, list, k - 1, transport, id);
      var due := list[k - 1];
      assert Listed(list, k, id) <==> Listed(list, k - 1, id) || due.id == id;
      var before := SendAll(t, list[..k - 1], transport);
      assert SendAll(t, list[..k], transport) == SendOne(before, due, transport(due.id));
      if due.id == id {
        assert !Listed(list, k - 1, id);
        hide SendAll;
      } else {
        hide SendAll, Tried, Listed, IsDueList;
      }
    }
  }

  /** processDueScheduledMessages over an undisturbed store: every due message is tried
      exactly once, its outcome is recorded, and nothing else changes. */
  method ProcessDue(store: Store, now: int, list: seq<Due>, transport: string -> Transport)
    requires IsDueList(store.rows, now, list)
    modifies store
    ensures forall id :: id in old(store.rows) ==>
              id in store.rows &&
              var was := old(store.rows)[id];
              store.rows[id] == if was.status == Pending && was.sendAt <= now then Tried(was, transport(id)) else was
  {
    ghost var before := store.rows;
    for k := 0 to |list|
      invariant store.rows == SendAll(before, list[..k], transport)
    {
      assert list[..k + 1][..k] == list[..k];
      SendScheduledMessage(store, list[k], transport(list[k].id));
    }
    forall id | id in before
      ensures id in store.rows && store.rows[id] ==
                if before[id].status == Pending && before[id].sendAt <= now then Tried(before[id], transport(id)) else before[id]
    {
      TriesEachOnce(before, now, list, |list|, transport, id);
      assert list[..|list|] == list;
      assert Listed(list, |list|, id) <==> before[id].status == Pending && before[id].sendAt <= now;
    }
  }

  // ------------------------------------------------ schedulers that interleave

  /** Between its steps a scheduler has a due list and is done with the head, has claimed
      it, has sent it, or has failed to. */
  datatype Phase = Choosing | Claimed | Dispatched | Faulted

  datatype Worker = Worker(due: seq<Due>, phase: Phase)

  /** `used`: every id ever created. `claims` and `sends` count what happened; `canceled`
      holds the ids whose cancel returned true. */
  datatype System = System(
    rows: Table, used: set<string>, workers: map<nat, Worker>,
    claims: multiset<string>, sends: multiset<string>, canceled: set<string>)

  const START := System(map[], {}, map[], multiset{}, multiset{}, {})

  datatype Step =
    | Create(id: string, sendAt: int)
    | Load(w: nat, now: int, list: seq<Due>)
    | TryClaim(w: nat)
    | Deliver(w: nat)                    // the transport reports success
    | Fault(w: nat)                      // the route is not ready, or the transport fails
    | Settle(w: nat, written: bool)      // the status update; its error is ignored
    | CancelOne(id: string)
    | DeleteOne(id: string)
    | Crash(w: nat)

  function SetWorker(s: System, w: nat, worker: Worker): System { s.(workers := s.workers[w := worker]) }

  predicate At(s: System, w: nat, phase: Phase) {
    w in s.workers && s.workers[w].phase == phase && s.workers[w].due != []
  }

  function Head(s: System, w: nat): Due
    requires w in s.workers && s.workers[w].due != []
  {
    s.workers[w].due[0]
  }

  function Claiming(s: System, w: nat): System
    requires At(s, w, Choosing)
  {
    var id := Head(s, w).id;
    var (rows, won) := Claim(s.rows, id);
    if won then SetWorker(s, w, s.workers[w].(phase := Claimed)).(rows := rows, claims := s.claims + multiset{id})
    else SetWorker(s, w, Worker(s.workers[w].due[1..], Choosing))
  }

  function Settled(s: System, w: nat, written: bool): System
    requires w in s.workers && s.workers[w].due != []
  {
    var rows := if !written then s.rows
      else if s.workers[w].phase == Dispatched then MarkSent(s.rows, Head(s, w).id)
      else RetryOrFail(s.rows, Head(s, w));
    SetWorker(s, w, Worker(s.workers[w].due[1..], Choosing)).(rows := rows)
  }

  ghost function Next(s: System, step: Step): System {
    match step
    case Create(id, sendAt) =>
      if id in s.used then s else s.(rows := s.rows[id := Row(Pending, 0, sendAt)], used := s.used + {id})
    case Load(w, now, list) =>
      if (w in s.workers && s.workers[w].due != []) || !IsDueList(s.rows, now, list) then s
      else SetWorker(s, w, Worker(list, Choosing))
    case TryClaim(w) => if At(s, w, Choosing) then Claiming(s, w) else s
    case Deliver(w) =>
      if At(s, w, Claimed)
      then SetWorker(s, w, s.workers[w].(phase := Dispatched)).(sends := s.sends + multiset{Head(s, w).id}) else s
    case Fault(w) => if At(s, w, Claimed) then SetWorker(s, w, s.workers[w].(phase := Faulted)) else s
    case Settle(w, written) => if At(s, w, Dispatched) || At(s, w, Faulted) then Settled(s, w, written) else s
    case CancelOne(id) =>
      var (rows, canceled) := Cancel(s.rows, id);
      if canceled then s.(rows := rows, canceled := s.canceled + {id}) else s
    case DeleteOne(id) => s.(rows := s.rows - {id})
    case Crash(w) => s.(workers := s.workers - {w})
  }

  ghost function Run(steps: seq<Step>): System {
    if steps == [] then START else Next(Run(steps[..|steps| - 1]), steps[|steps| - 1])
  }

  // ------------------------------------------------ the invariant

  predicate Owns(s: System, w: nat, id: string) {
    w in s.workers && s.workers[w].due != [] && s.workers[w].phase != Choosing && Head(s, w).id == id
  }

  /** What the owner of a message may have done with it so far. */
  ghost predicate OwnersKnown(s: System) {
    && (forall w, v, id :: Owns(s, w, id) && Owns(s, v, id) ==> w == v)
    && (forall w, id :: Owns(s, w, id) ==>
          && id in s.used && id !in s.canceled
          && (id in s.rows ==> s.rows[id].status == Sending)
          && s.sends[id] == (if s.workers[w].phase == Dispatched then 1 else 0))
  }

  ghost predicate RowsKnown(s: System) {
    && (forall id :: id in s.rows ==> id in s.used)
    && (forall id :: id in s.rows && s.rows[id].status != Sending && s.rows[id].status != Sent ==> s.sends[id] == 0)
    && (forall id :: id in s.rows && s.rows[id].status == Sent ==> s.sends[id] == 1)
    && (forall id :: s.sends[id] <= 1 && (id !in s.used ==> s.sends[id] == 0))
    && (forall id :: id in s.canceled ==>
          id in s.used && s.sends[id] == 0 && (id in s.rows ==> s.rows[id].status == Canceled))
  }

  ghost predicate Valid(s: System) { OwnersKnown(s) && RowsKnown(s) }

  lemma ClaimSafe(s: System, w: nat)
    requires Valid(s)
    ensures Valid(Next(s, TryClaim(w)))
  {
    var t := Next(s, TryClaim(w));
    assert forall v, id :: v != w ==> (Owns(t, v, id) <==> Owns(s, v, id));
  }

  lemma LoadSafe(s: System, step: Step)
    requires Valid(s) && (step.Load? || step.Crash?)
    ensures Valid(Next(s, step))
  {
    var t := Next(s, step);
    assert forall v, id :: Owns(t, v, id) ==> Owns(s, v, id) && t.workers[v].phase == s.workers[v].phase;
  }

  lemma WorkSafe(s: System, step: Step)
    requires Valid(s) && (step.Deliver? || step.Fault?)
    ensures Valid(Next(s, step))
  {
    var t := Next(s, step);
    assert forall v, id :: Owns(t, v, id) <==> Owns(s, v, id);
    assert forall v, id :: v != step.w && Owns(t, v, id) ==> t.workers[v].phase == s.workers[v].phase;
    assert At(s, step.w, Claimed) ==> Owns(s, step.w, Head(s, step.w).id);
  }

  lemma SettleSafe(s: System, w: nat, written: bool)
    requires Valid(s)
    ensures Valid(Next(s, Settle(w, written)))
  {
    var t := Next(s, Settle(w, written));
    assert forall v, id :: v != w ==> (Owns(t, v, id) <==> Owns(s, v, id));
    if At(s, w, Dispatched) || At(s, w, Faulted) {
      assert Owns(s, w, Head(s, w).id);
    }
  }

  lemma StoreSafe(s: System, step: Step)
    requires Valid(s) && (step.Create? || step.CancelOne? || step.DeleteOne?)
    ensures Valid(Next(s, step))
  {
    var t := Next(s, step);
    assert forall v, id :: Owns(t, v, id) <==> Owns(s, v, id);
  }

  lemma NextSafe(s: System, step: Step)
    requires Valid(s)
    ensures Valid(Next(s, step))
  {
    if step.TryClaim? { ClaimSafe(s, step.w); }
    else if step.Create? || step.CancelOne? || step.DeleteOne? { StoreSafe(s, step); }
    else if step.Settle? { SettleSafe(s, step.w, step.written); }
    else if step.Deliver? || step.Fault? { WorkSafe(s, step); }
    else { LoadSafe(s, step); }
  }

  lemma {:induction false} RunSafe(steps: seq<Step>)
    ensures Valid(Run(steps))
  {
    if steps != [] {
      RunSafe(steps[..|steps| - 1]);
      NextSafe(Run(steps[..|steps| - 1]), steps[|steps| - 1]);
    }
  }

  // ------------------------------------------------ what every interleaving keeps

  /** At most one scheduler owns a message, and it is sent successfully at most once. */
  lemma SentAtMostOnce(steps: seq<Step>, w: nat, v: nat, id: string)
    ensures var s := Run(steps);
            && s.sends[id] <= 1
            && (Owns(s, w, id) && Owns(s, v, id) ==> w == v)
            && (id in s.rows && s.rows[id].status == Sent ==> s.sends[id] == 1)
  {
    RunSafe(steps);
  }

  lemma CancelsStand(s: System, step: Step)
    ensures s.canceled <= Next(s, step).canceled
  {
  }

  /** A message whose cancel succeeded was not sent before and is not sent later. */
  lemma {:induction false} CanceledIsNeverSent(before: seq<Step>, after: seq<Step>, id: string)
    requires id in Run(before).canceled
    ensures id in Run(before + after).canceled && Run(before + after).sends[id] == 0
    decreases |after|
  {
    hide Next, Run;
    if after == [] {
      assert before + after == before;
      CanceledIsUnsent(before, id);
    } else {
      var (init, last) := (after[..|after| - 1], after[|after| - 1]);
      CanceledIsNeverSent(before, init, id);
      assert before + after == (before + init) + [last];
      Then(before + init, last);
      CancelsStand(Run(before + init), last);
      CanceledIsUnsent(before + after, id);
    }
  }

  lemma CanceledIsUnsent(steps: seq<Step>, id: string)
    requires id in Run(steps).canceled
    ensures Run(steps).sends[id] == 0
  {
    hide Run, Next, OwnersKnown;
    RunSafe(steps);
  }

  lemma Then(steps: seq<Step>, step: Step)
    ensures Run(steps + [step]) == Next(Run(steps), step)
  {
    assert (steps + [step])[..|steps + [step]| - 1] == steps;
  }

  // ------------------------------------------------ what every try and every cancel comes to

  /** A cancel succeeds exactly while the message is pending, and otherwise changes nothing. */
  lemma CancelSucceedsIff(steps: seq<Step>, id: string)
    ensures var (s, t) := (Run(steps), Run(steps + [CancelOne(id)]));
            if id in s.rows && s.rows[id].status == Pending
            then id in t.canceled && t.rows == s.rows[id := s.rows[id].(status := Canceled)]
            else t == s
  {
    Then(steps, CancelOne(id));
  }

  /** A claim is won exactly while the message is pending; who loses it goes on with the
      next message of the list. */
  lemma ClaimIsWonIff(steps: seq<Step>, w: nat)
    requires At(Run(steps), w, Choosing)
    ensures var (s, t) := (Run(steps), Run(steps + [TryClaim(w)]));
            var id := Head(s, w).id;
            && (Owns(t, w, id) && t.rows == s.rows[id := s.rows[id].(status := Sending)] && t.claims[id] == s.claims[id] + 1
                <==> id in s.rows && s.rows[id].status == Pending)
            && (!(id in s.rows && s.rows[id].status == Pending) ==>
                  t == s.(workers := s.workers[w := Worker(s.workers[w].due[1..], Choosing)]))
  {
    Then(steps, TryClaim(w));
  }

  /** A step of somebody else that does not delete the message. */
  predicate Foreign(step: Step, w: nat, id: string) {
    match step
    case Create(_, _) => true
    case Load(v, _, _) => v != w
    case TryClaim(v) => v != w
    case Deliver(v) => v != w
    case Fault(v) => v != w
    case Settle(v, _) => v != w
    case CancelOne(_) => true
    case DeleteOne(other) => other != id
    case Crash(v) => v != w
  }

  /** Nobody else touches a message while a scheduler owns it. */
  ghost predicate Untouched(s: System, t: System, w: nat, id: string) {
    && w in s.workers && w in t.workers && t.workers[w] == s.workers[w]
    && id in s.rows && id in t.rows && t.rows[id] == s.rows[id] && t.sends[id] == s.sends[id]
  }

  lemma OwnedIsUntouched(s: System, w: nat, id: string, step: Step)
    requires Valid(s) && Owns(s, w, id) && id in s.rows && Foreign(step, w, id)
    ensures Untouched(s, Next(s, step), w, id)
  {
    if step.Settle? && (At(s, step.w, Dispatched) || At(s, step.w, Faulted)) {
      assert Owns(s, step.w, Head(s, step.w).id);
    }
    if step.Deliver? && At(s, step.w, Claimed) {
      assert Owns(s, step.w, Head(s, step.w).id);
    }
  }

  lemma {:induction false} OwnedStaysUntouched(before: seq<Step>, others: seq<Step>, w: nat, id: string)
    requires Owns(Run(before), w, id) && id in Run(before).rows
    requires forall step :: step in others ==> Foreign(step, w, id)
    ensures Untouched(Run(before), Run(before + others), w, id)
    decreases |others|
  {
    hide Next, Run, Valid, Foreign;
    if others == [] {
      assert before + others == before;
    } else {
      var (init, last) := (others[..|others| - 1], others[|others| - 1]);
      OwnedStaysUntouched(before, init, w, id);
      RunSafe(before + init);
      OwnedIsUntouched(Run(before + init), w, id, last);
      assert before + others == (before + init) + [last];
      Then(before + init, last);
    }
  }

  /** A sent message is marked so; a fault counts as an attempt, and ends it at the fifth that
      the due list knew of. */
  function Ended(was: Row, due: Due, sent: bool): Row {
    if sent then Row(Sent, was.attempts, was.sendAt)
    else Row(if due.attempts + 1 >= MAX_ATTEMPTS then Failed else Pending, was.attempts + 1, was.sendAt)
  }

  /** The worker's own steps on the message it owns. */
  lemma ClaimDispatchSettle(s: System, w: nat, id: string, sent: bool)
    requires Valid(s) && w in s.workers && s.workers[w].due != [] && Head(s, w).id == id && id in s.rows
    ensures s.workers[w].phase == Choosing && s.rows[id].status == Pending ==>
              var t := Next(s, TryClaim(w));
              Owns(t, w, id) && t.workers[w] == s.workers[w].(phase := Claimed) && id in t.rows
              && t.rows[id] == s.rows[id].(status := Sending) && t.sends[id] == s.sends[id] == 0
    ensures s.workers[w].phase == Claimed ==>
              var t := Next(s, if sent then Deliver(w) else Fault(w));
              Owns(t, w, id) && t.workers[w] == s.workers[w].(phase := if sent then Dispatched else Faulted)
              && t.rows == s.rows && t.sends[id] == s.sends[id] + if sent then 1 else 0
    ensures s.workers[w].phase == (if sent then Dispatched else Faulted) ==>
              var t := Next(s, Settle(w, true));
              id in t.rows && t.sends == s.sends && w in t.workers && t.workers[w] == Worker(s.workers[w].due[1..], Choosing)
              && t.rows[id] == Ended(s.rows[id], Head(s, w), sent)
  {
  }

  /** A pending message that a scheduler comes to is claimed, and then sent once and marked
      as sent, or counted as one more attempt: whatever the other schedulers, cancels and
      deletes of other messages do in between. */
  lemma ClaimedIsSettled(before: seq<Step>, w: nat, some: seq<Step>, sent: bool, others: seq<Step>)
    requires At(Run(before), w, Choosing) && Head(Run(before), w).id in Run(before).rows
    requires Run(before).rows[Head(Run(before), w).id].status == Pending
    requires forall step :: step in some || step in others ==> Foreign(step, w, Head(Run(before), w).id)
    ensures var s := Run(before);
            var t := Run(before + [TryClaim(w)] + some + [if sent then Deliver(w) else Fault(w)] + others + [Settle(w, true)]);
            var id := Head(s, w).id;
            && id in t.rows && t.rows[id] == Ended(s.rows[id], Head(s, w), sent) && t.sends[id] == (if sent then 1 else 0)
            && w in t.workers && t.workers[w] == Worker(s.workers[w].due[1..], Choosing)
  {
    hide Next, Run, Valid, Foreign;
    var id := Head(Run(before), w).id;
    var step := if sent then Deliver(w) else Fault(w);
    var claimed := before + [TryClaim(w)];
    var done := claimed + some + [step];
    RunSafe(before);
    ClaimDispatchSettle(Run(before), w, id, sent);
    Then(before, TryClaim(w));
    OwnedStaysUntouched(claimed, some, w, id);
    RunSafe(claimed + some);
    ClaimDispatchSettle(Run(claimed + some), w, id, sent);
    Then(claimed + some, step);
    OwnedStaysUntouched(done, others, w, id);
    RunSafe(done + others);
    ClaimDispatchSettle(Run(done + others), w, id, sent);
    Then(done + others, Settle(w, true));
  }

  // ------------------------------------------------ one scheduler

  /** Only scheduler 0 works. */
  predicate Single(steps: seq<Step>) {
    forall k :: 0 <= k < |steps| ==>
      match steps[k]
      case Load(w, _, _) => w == 0
      case _ => true
  }

  /** What the scheduler read about its message still holds. */
  predicate IsFresh(s: System, due: Due) {
    due.id in s.rows && (s.rows[due.id].status == Pending || Owns(s, 0, due.id)) ==>
      due.attempts == s.rows[due.id].attempts
  }

  ghost predicate FreshList(s: System) {
    0 in s.workers ==>
      var due := s.workers[0].due;
      && (forall j, k :: 0 <= j < k < |due| ==> due[j].id != due[k].id)
      && (forall k :: 0 <= k < |due| ==> due[k].id in s.used && IsFresh(s, due[k]))
  }

  ghost predicate Counted(s: System) {
    && (forall id :: id in s.rows && s.rows[id].status == Pending ==> s.claims[id] == s.rows[id].attempts < MAX_ATTEMPTS)
    && (forall id :: id in s.rows && Owns(s, 0, id) ==> s.claims[id] == s.rows[id].attempts + 1)
    && (forall id :: s.claims[id] <= MAX_ATTEMPTS && (id !in s.used ==> s.claims[id] == 0))
  }

  /** With one scheduler the due list never goes stale where it matters. */
  ghost predicate Budgeted(s: System) {
    s.workers.Keys <= {0} && FreshList(s) && Counted(s)
  }

  lemma BudgetStore(s: System, step: Step)
    requires Valid(s) && Budgeted(s) && (step.Create? || step.CancelOne? || step.DeleteOne?)
    ensures Budgeted(Next(s, step))
  {
    assert forall id :: Owns(Next(s, step), 0, id) <==> Owns(s, 0, id);
  }

  lemma BudgetLoad(s: System, step: Step)
    requires Valid(s) && Budgeted(s) && (step.Load? || step.Crash?) && step.w == 0
    ensures Budgeted(Next(s, step))
  {
    assert forall id :: Owns(Next(s, step), 0, id) ==> Owns(s, 0, id);
  }

  lemma BudgetClaim(s: System, w: nat)
    requires Valid(s) && Budgeted(s)
    ensures Budgeted(Next(s, TryClaim(w)))
  {
    var t := Next(s, TryClaim(w));
    if At(s, w, Choosing) {
      var id := Head(s, w).id;
      assert IsFresh(s, s.workers[0].due[0]);
      assert forall i :: i != id ==> !Owns(t, 0, i);
      assert forall k :: 0 <= k < |s.workers[0].due| ==> IsFresh(s, s.workers[0].due[k]);
    }
  }

  lemma BudgetWork(s: System, step: Step)
    requires Valid(s) && Budgeted(s) && (step.Deliver? || step.Fault?)
    ensures Budgeted(Next(s, step))
  {
    assert forall id :: Owns(Next(s, step), 0, id) <==> Owns(s, 0, id);
    assert 0 in s.workers ==> forall k :: 0 <= k < |s.workers[0].due| ==> IsFresh(s, s.workers[0].due[k]);
  }

  lemma BudgetSettle(s: System, w: nat, written: bool)
    requires Valid(s) && Budgeted(s)
    ensures Budgeted(Next(s, Settle(w, written)))
  {
    var t := Next(s, Settle(w, written));
    if At(s, w, Dispatched) || At(s, w, Faulted) {
      assert Owns(s, 0, Head(s, 0).id) && IsFresh(s, Head(s, 0));
      assert forall i :: !Owns(t, 0, i);
      assert forall k :: 0 <= k < |s.workers[0].due| ==> IsFresh(s, s.workers[0].due[k]);
    }
  }

  lemma BudgetStep(s: System, step: Step)
    requires Valid(s) && Budgeted(s) && (step.Load? ==> step.w == 0)
    ensures Budgeted(Next(s, step))
  {
    hide Valid, Budgeted;
    match step
    case TryClaim(w) => BudgetClaim(s, w);
    case Settle(w, written) => BudgetSettle(s, w, written);
    case Deliver(_) => BudgetWork(s, step);
    case Fault(_) => BudgetWork(s, step);
    case Load(_, _, _) => BudgetLoad(s, step);
    case Crash(w) => if w == 0 { BudgetLoad(s, step); } else { OnlyZero(s, w); }
    case _ => BudgetStore(s, step);
  }

  lemma OnlyZero(s: System, w: nat)
    requires Budgeted(s) && w != 0
    ensures Budgeted(Next(s, Crash(w)))
  {
    assert s.workers - {w} == s.workers;
  }

  lemma {:induction false} BudgetRun(steps: seq<Step>)
    requires Single(steps)
    ensures Budgeted(Run(steps))
  {
    if steps != [] {
      var init := steps[..|steps| - 1];
      assert forall k :: 0 <= k < |init| ==> init[k] == steps[k];
      BudgetRun(init);
      RunSafe(init);
      BudgetStep(Run(init), steps[|steps| - 1]);
    }
  }

  /** One scheduler claims a message at most five times; after the fifth time it is not
      pending any more, and a recorded fault leaves it Failed. */
  lemma FiveClaimsThenFailed(steps: seq<Step>, id: string)
    requires Single(steps)
    ensures var s := Run(steps);
            && s.claims[id] <= MAX_ATTEMPTS
            && (s.claims[id] == MAX_ATTEMPTS && id in s.rows ==> s.rows[id].status != Pending)
            && (At(s, 0, Faulted) && Head(s, 0).id == id && id in s.rows ==>
                  var t := Next(s, Settle(0, true));
                  t.rows[id].status == if s.claims[id] == MAX_ATTEMPTS then Failed else Pending)
  {
    BudgetRun(steps);
    RunSafe(steps);
    assert At(Run(steps), 0, Faulted) && Head(Run(steps), 0).id == id ==> Owns(Run(steps), 0, id);
  }

  // ------------------------------------------------ any number of schedulers

  /** What was claimed is what the row has counted, and the claim it has not counted. */
  predicate Tallied(s: System, id: string) {
    && (id !in s.used ==> s.claims[id] == 0)
    && (id in s.rows ==>
          s.claims[id] == s.rows[id].attempts + if s.rows[id].status == Sending || s.rows[id].status == Sent then 1 else 0)
  }

  lemma TallySettle(s: System, w: nat, written: bool, id: string)
    requires Valid(s) && Tallied(s, id)
    ensures Tallied(Next(s, Settle(w, written)), id)
  {
    if At(s, w, Dispatched) || At(s, w, Faulted) {
      assert Owns(s, w, Head(s, w).id);
    }
  }

  lemma TallyStep(s: System, step: Step, id: string)
    requires Valid(s) && Tallied(s, id)
    ensures Tallied(Next(s, step), id)
  {
    if step.Settle? {
      TallySettle(s, step.w, step.written, id);
    } else if step.TryClaim? || step.Create? || step.CancelOne? {
      hide OwnersKnown;
    } else {
      hide OwnersKnown, RowsKnown, IsDueList;
    }
  }

  lemma {:induction false} TallyRun(steps: seq<Step>, id: string)
    ensures Tallied(Run(steps), id)
  {
    if steps != [] {
      TallyRun(steps[..|steps| - 1], id);
      RunSafe(steps[..|steps| - 1]);
      TallyStep(Run(steps[..|steps| - 1]), steps[|steps| - 1], id);
    }
  }

  /** Five claims at most, and no sixth to come: a pending message has attempts left. */
  predicate InBudget(s: System, id: string) {
    && s.claims[id] <= MAX_ATTEMPTS
    && (id in s.rows && s.rows[id].status == Pending ==> s.rows[id].attempts < MAX_ATTEMPTS)
  }

  /** A fault is recorded of a message on its last attempt, by a scheduler whose due list
      shows fewer attempts than the row has. */
  predicate Overruns(s: System, step: Step, id: string) {
    && step.Settle? && step.written && At(s, step.w, Faulted) && Head(s, step.w).id == id && id in s.rows
    && Head(s, step.w).attempts + 1 < MAX_ATTEMPTS <= s.rows[id].attempts + 1
  }

  lemma SettleBudget(s: System, w: nat, written: bool, id: string)
    requires Valid(s) && Tallied(s, id) && InBudget(s, id)
    ensures InBudget(Next(s, Settle(w, written)), id) <==> !Overruns(s, Settle(w, written), id)
  {
    if At(s, w, Dispatched) || At(s, w, Faulted) {
      assert Owns(s, w, Head(s, w).id);
    }
  }

  lemma StepBudget(s: System, step: Step, id: string)
    requires Valid(s) && Tallied(s, id) && InBudget(s, id)
    ensures InBudget(Next(s, step), id) <==> !Overruns(s, step, id)
  {
    if step.Settle? {
      SettleBudget(s, step.w, step.written, id);
    } else if step.TryClaim? || step.Create? || step.CancelOne? {
      hide OwnersKnown;
    } else {
      hide OwnersKnown, RowsKnown, IsDueList;
    }
  }

  /** Over any interleaving of schedulers, cancels and crashes a step keeps a message in its
      budget unless it is the recording of a fault from a stale due list. */
  lemma StaleListOverrunsBudget(steps: seq<Step>, step: Step, id: string)
    requires InBudget(Run(steps), id)
    ensures InBudget(Run(steps + [step]), id) <==> !Overruns(Run(steps), step, id)
  {
    hide Next, Run, Valid, Tallied, InBudget, Overruns;
    RunSafe(steps);
    TallyRun(steps, id);
    StepBudget(Run(steps), step, id);
    Then(steps, step);
  }

  /** Every sixth claim has such a step behind it. */
  lemma {:induction false} SixthClaimNeedsStaleList(steps: seq<Step>, id: string)
    requires !InBudget(Run(steps), id)
    ensures exists k :: 0 <= k < |steps| && InBudget(Run(steps[..k]), id) && Overruns(Run(steps[..k]), steps[k], id)
  {
    if steps != [] {
      var (init, last) := (steps[..|steps| - 1], steps[|steps| - 1]);
      hide Run, Overruns, InBudget;
      assert steps == init + [last];
      if InBudget(Run(init), id) {
        StaleListOverrunsBudget(init, last, id);
        assert steps[..|init|] == init;
      } else {
        SixthClaimNeedsStaleList(init, id);
        var k :| 0 <= k < |init| && InBudget(Run(init[..k]), id) && Overruns(Run(init[..k]), init[k], id);
        assert steps[..k] == init[..k] && steps[k] == init[k];
      }
    }
  }

  lemma DeleteStep(steps: seq<Step>, other: string)
    requires other in Run(steps).rows
    ensures Run(steps + [DeleteOne(other)]) == Run(steps).(rows := Run(steps).rows - {other})
    ensures |Run(steps).rows - {other}| < |Run(steps).rows|
  {
    Then(steps, DeleteOne(other));
    hide Run;
    var rows := Run(steps).rows;
    assert rows.Keys == (rows - {other}).Keys + {other};
  }

  /** Until only one message is left, the others are deleted. */
  lemma {:induction false} LeaveOne(steps: seq<Step>, id: string) returns (more: seq<Step>)
    requires id in Run(steps).rows
    ensures Run(steps + more) == Run(steps).(rows := map[id := Run(steps).rows[id]])
    decreases |Run(steps).rows|
  {
    hide Run, Next;
    var rows := Run(steps).rows;
    if other :| other in rows && other != id {
      DeleteStep(steps, other);
      var rest := LeaveOne(steps + [DeleteOne(other)], id);
      more := [DeleteOne(other)] + rest;
      assert steps + more == steps + [DeleteOne(other)] + rest;
    } else {
      more := [];
      assert steps + more == steps;
      assert rows == map[id := rows[id]];
    }
  }

  /** A scheduler that crashes and comes back claims the one message that is due. */
  lemma ReclaimOne(s: System, w: nat, id: string)
    requires id in s.rows && s.rows == map[id := s.rows[id]] && s.rows[id].status == Pending
    ensures var due := [Due(id, s.rows[id].attempts)];
            Next(Next(Next(s, Crash(w)), Load(w, s.rows[id].sendAt, due)), TryClaim(w)).claims == s.claims + multiset{id}
  {
    var due := [Due(id, s.rows[id].attempts)];
    var crashed := Next(s, Crash(w));
    assert due[0] == Due(id, s.rows[id].attempts);
    assert IsDueList(crashed.rows, s.rows[id].sendAt, due);
    var loaded := Next(crashed, Load(w, s.rows[id].sendAt, due));
    assert loaded.workers[w] == Worker(due, Choosing);
  }

  lemma OverrunLeavesPending(steps: seq<Step>, step: Step, id: string)
    requires InBudget(Run(steps), id) && Overruns(Run(steps), step, id)
    ensures var s := Run(steps + [step]);
            id in s.rows && s.rows[id].status == Pending && s.claims[id] == s.rows[id].attempts == MAX_ATTEMPTS
  {
    hide Run;
    RunSafe(steps);
    TallyRun(steps, id);
    Then(steps, step);
    assert Owns(Run(steps), step.w, id);
  }

  /** And every such step can be followed by a sixth claim. */
  lemma SixthClaimFollows(steps: seq<Step>, step: Step, id: string)
    requires InBudget(Run(steps), id) && Overruns(Run(steps), step, id)
    ensures exists more :: Run(steps + [step] + more).claims[id] > MAX_ATTEMPTS
  {
    hide Next, Run, InBudget;
    var overrun := steps + [step];
    OverrunLeavesPending(steps, step, id);
    var s := Run(overrun);
    var deletes := LeaveOne(overrun, id);
    var t := Run(overrun + deletes);
    var load := Load(step.w, s.rows[id].sendAt, [Due(id, s.rows[id].attempts)]);
    ReclaimOne(t, step.w, id);
    Then(overrun + deletes, Crash(step.w));
    Then(overrun + deletes + [Crash(step.w)], load);
    Then(overrun + deletes + [Crash(step.w)] + [load], TryClaim(step.w));
    var more := deletes + [Crash(step.w)] + [load] + [TryClaim(step.w)];
    assert overrun + more == overrun + deletes + [Crash(step.w)] + [load] + [TryClaim(step.w)];
    assert Run(overrun + more).claims[id] > MAX_ATTEMPTS;
  }

  // ------------------------------------------------ two schedulers

  /** Scheduler 0 has faulted `n` times on message "m"; scheduler 1 still holds the due
      list it loaded at the start. */
  ghost predicate Staged(s: System, n: nat) {
    && s.rows == map["m" := Row(Pending, n, 0)]
    && s.workers == map[0 := Worker([], Choosing), 1 := Worker([Due("m", 0)], Choosing)]
    && s.claims["m"] == n
  }

  /** Scheduler `w` claims the only message of its list, faults and records it. */
  lemma FaultOnce(s: System, w: nat, due: Due)
    requires w in s.workers && s.workers[w] == Worker([due], Choosing) && due.id in s.rows && s.rows[due.id].status == Pending
    ensures var t := Next(Next(Next(s, TryClaim(w)), Fault(w)), Settle(w, true));
            && t.rows == RetryOrFail(s.rows, due)
            && t.workers == s.workers[w := Worker([], Choosing)]
            && t.claims == s.claims + multiset{due.id}
  {
    var claimed := Next(s, TryClaim(w));
    assert claimed.workers[w] == Worker([due], Claimed);
    var faulted := Next(claimed, Fault(w));
    assert faulted.workers == s.workers[w := Worker([due], Faulted)];
    assert [due][1..] == [];
    assert RetryOrFail(faulted.rows, due) == RetryOrFail(s.rows, due);
  }

  lemma FaultRound(steps: seq<Step>, w: nat, due: Due) returns (longer: seq<Step>)
    requires var s := Run(steps);
             w in s.workers && s.workers[w] == Worker([due], Choosing) && due.id in s.rows && s.rows[due.id].status == Pending
    ensures var (s, t) := (Run(steps), Run(longer));
            && t.rows == RetryOrFail(s.rows, due)
            && t.workers == s.workers[w := Worker([], Choosing)]
            && t.claims == s.claims + multiset{due.id}
  {
    hide Next, RetryOrFail, Run;
    Then(steps, TryClaim(w));
    Then(steps + [TryClaim(w)], Fault(w));
    longer := steps + [TryClaim(w)] + [Fault(w)] + [Settle(w, true)];
    Then(steps + [TryClaim(w)] + [Fault(w)], Settle(w, true));
    FaultOnce(Run(steps), w, due);
  }

  /** An idle scheduler loads the one message that is due. */
  lemma LoadOne(s: System, w: nat, due: Due)
    requires due.id in s.rows && s.rows == map[due.id := Row(Pending, due.attempts, 0)]
    requires w in s.workers ==> s.workers[w].due == []
    ensures Next(s, Load(w, 0, [due])) == SetWorker(s, w, Worker([due], Choosing))
  {
    assert [due][0] == due;
  }

  lemma {:induction false} Stage(n: nat) returns (steps: seq<Step>)
    requires n < MAX_ATTEMPTS
    ensures Staged(Run(steps), n)
  {
    if n == 0 {
      Then([], Create("m", 0));
      assert [] + [Create("m", 0)] == [Create("m", 0)];
      var created := Next(START, Create("m", 0));
      LoadOne(created, 1, Due("m", 0));
      hide Next;
      Then([Create("m", 0)], Load(1, 0, [Due("m", 0)]));
      steps := Join([Create("m", 0)] + [Load(1, 0, [Due("m", 0)])]);
    } else {
      hide Run, Next;
      var before := Stage(n - 1);
      var due := Due("m", n - 1);
      LoadOne(Run(before), 0, due);
      Then(before, Load(0, 0, [due]));
      steps := FaultRound(before + [Load(0, 0, [due])], 0, due);
    }
  }

  /** Scheduler 0 joins with nothing to do. */
  lemma Join(steps: seq<Step>) returns (longer: seq<Step>)
    requires var s := Run(steps);
             s.rows == map["m" := Row(Pending, 0, 0)] && s.workers == map[1 := Worker([Due("m", 0)], Choosing)]
             && s.claims["m"] == 0
    ensures Staged(Run(longer), 0)
  {
    Then(steps, Load(0, -1, []));
    longer := steps + [Load(0, -1, [])];
  }

  /** With two schedulers the attempt budget can be overrun: a run that claims one message
      six times and leaves it pending. */
  lemma TwoSchedulersOverrun()
    ensures exists steps :: Run(steps).claims["m"] > MAX_ATTEMPTS
  {
    var four := Stage(4);
    var five := FaultRound(four, 1, Due("m", 0));
    hide Next, Run;
    LoadOne(Run(five), 0, Due("m", 5));
    Then(five, Load(0, 0, [Due("m", 5)]));
    var six := FaultRound(five + [Load(0, 0, [Due("m", 5)])], 0, Due("m", 5));
    assert Run(six).claims["m"] == 6;
  }
}
