/** The cookie-request rendezvous of internal/cookiebridge/bridge.go: one waiter slot, one
    pending slot, and channels of capacity one between hosts, callers and repliers. */
module CookieBridge {
  import opened Bridge
  import opened Strings

  type Cookies = map<string, string>

  const REQUIRED := ["SID", "HSID", "SSID", "APISID", "SAPISID", "OSID"]

  /** ValidateCookies. */
  predicate ValidCookies(c: Cookies) {
    forall k :: 0 <= k < |REQUIRED| ==> REQUIRED[k] in c && !Blank(c[REQUIRED[k]])
  }

  // ------------------------------------------------ the sections under the mutex

  /** The two slots. Hosts that wait and calls that request are numbered; the number of a
      call stands for its random request ID and for its reply channel. */
  datatype Slots = Slots(waiter: Option<nat>, pending: Option<nat>)

  datatype Admission = Offline | InFlight | Admitted(waiter: nat)

  function Begin(s: Slots, call: nat): (Slots, Admission) {
    if s.waiter.None? then (s, Offline)
    else if s.pending.Some? then (s, InFlight)
    else (s.(pending := Some(call)), Admitted(s.waiter.value))
  }

  function Dropped(s: Slots, call: nat): Slots { if s.pending == Some(call) then s.(pending := None) else s }

  function Vacated(s: Slots, host: nat): Slots { if s.waiter == Some(host) then s.(waiter := None) else s }

  class Registry {
    var waiter: Option<nat>
    var pending: Option<nat>

    function View(): Slots
      reads this
    {
      Slots(waiter, pending)
    }

    constructor ()
      ensures View() == Slots(None, None)
    {
      waiter, pending := None, None;
    }

    /** Wait: takes the slot; the host it supersedes is to be cancelled. */
    method EnterWait(host: nat) returns (superseded: Option<nat>, handOver: Option<nat>)
      modifies this
      ensures superseded == old(waiter) && handOver == old(pending)
      ensures View() == old(View()).(waiter := Some(host))
    {
      superseded := waiter;
      waiter := Some(host);
      handOver := pending;
    }

    method LeaveWait(host: nat)
      modifies this
      ensures View() == Vacated(old(View()), host)
    {
      if waiter == Some(host) {
        waiter := None;
      }
    }

    method BeginRequest(call: nat) returns (admission: Admission)
      modifies this
      ensures (View(), admission) == Begin(old(View()), call)
    {
      if waiter.None? {
        return Offline;
      }
      if pending.Some? {
        return InFlight;
      }
      pending := Some(call);
      return Admitted(waiter.value);
    }

    /** Reply: only the pending request can be answered, and only once. */
    method TakePending(id: nat) returns (known: bool)
      modifies this
      ensures known == (old(pending) == Some(id)) && View() == Dropped(old(View()), id)
    {
      if pending != Some(id) {
        return false;
      }
      pending := None;
      return true;
    }

    method ClearPending(call: nat)
      modifies this
      ensures View() == Dropped(old(View()), call)
    {
      if pending == Some(call) {
        pending := None;
      }
    }
  }

  // ------------------------------------------------ hosts, calls and repliers

  datatype HostPhase = Handing(request: nat) | Waiting | Leaving | Gone

  /** `ch`: the request in the host's channel; `closes`: how often its cancel channel was
      closed (closing it twice would panic). */
  datatype Host = Host(phase: HostPhase, ch: Option<nat>, closes: nat)

  /** What a Reply brings: the request ID it bears, the number of this Reply, and the
      cookies unless it reports an error. */
  datatype Answer = Answer(id: nat, replier: nat, cookies: Option<Cookies>)

  datatype Outcome = BridgeOffline | AlreadyInFlight | TimedOut | ReplyFailed | Got(answer: Answer)

  /** About to hand its request over; about to withdraw it; in the select; about to clear
      the slot after a timeout or cancellation; returned. */
  datatype CallPhase = Sending(host: nat) | Retreating | Selecting | Expiring | Returned(outcome: Outcome)

  /** `sends`: how often a reply was put into the call's channel. */
  datatype Call = Call(phase: CallPhase, replyCh: Option<Answer>, sends: nat)

  /** A Reply that took the slot: about to send; sent; or found the channel full. */
  datatype ReplierPhase = Holding | Sent | AlreadyConsumed

  datatype Replier = Replier(answer: Answer, phase: ReplierPhase)

  datatype System = System(
    slots: Slots, hosts: map<nat, Host>, calls: map<nat, Call>, repliers: map<nat, Replier>)

  const START := System(Slots(None, None), map[], map[], map[])

  datatype Step =
    | Wait(host: nat)
    | HandOver(host: nat)
    | WaitReturns(host: nat, receives: bool)  // with a request, or cancelled, superseded or idle
    | Vacate(host: nat)
    | Request(call: nat)
    | Deliver(call: nat)
    | Retreat(call: nat)
    | Expire(call: nat)
    | Clear(call: nat)
    | Receive(call: nat)
    | TakeReply(answer: Answer)
    | SendReply(replier: nat)

  function SetHost(s: System, h: nat, host: Host): System { s.(hosts := s.hosts[h := host]) }

  function SetCall(s: System, c: nat, call: Call): System { s.(calls := s.calls[c := call]) }

  function Superseded(s: System): map<nat, Host> {
    match s.slots.waiter
    case Some(h) => if h in s.hosts then s.hosts[h := s.hosts[h].(closes := s.hosts[h].closes + 1)] else s.hosts
    case None => s.hosts
  }

  function Waited(s: System, h: nat): System {
    if h in s.hosts then s
    else
      var phase := if s.slots.pending.Some? then Handing(s.slots.pending.value) else Waiting;
      s.(slots := s.slots.(waiter := Some(h)), hosts := Superseded(s)[h := Host(phase, None, 0)])
  }

  function Requested(s: System, c: nat): System {
    if c in s.calls then s
    else
      var (slots, admission) := Begin(s.slots, c);
      var phase := match admission
        case Offline => Returned(BridgeOffline)
        case InFlight => Returned(AlreadyInFlight)
        case Admitted(h) => Sending(h);
      SetCall(s, c, Call(phase, None, 0)).(slots := slots)
  }

  /** A non-blocking send into the host's channel. */
  function Delivered(s: System, c: nat, h: nat): System
    requires c in s.calls
  {
    if h in s.hosts && s.hosts[h].ch.None?
    then SetHost(SetCall(s, c, s.calls[c].(phase := Selecting)), h, s.hosts[h].(ch := Some(c)))
    else SetCall(s, c, s.calls[c].(phase := Retreating))
  }

  function Judged(a: Answer): Outcome {
    if a.cookies.None? || !ValidCookies(a.cookies.value) then ReplyFailed else Got(a)
  }

  /** A non-blocking send into the call's reply channel. */
  function Answered(s: System, r: nat): System
    requires r in s.repliers
  {
    var replier := s.repliers[r];
    var c := replier.answer.id;
    if c in s.calls && s.calls[c].replyCh.None?
    then SetCall(s, c, s.calls[c].(replyCh := Some(replier.answer), sends := s.calls[c].sends + 1))
         .(repliers := s.repliers[r := replier.(phase := Sent)])
    else s.(repliers := s.repliers[r := replier.(phase := AlreadyConsumed)])
  }

  predicate CallIs(s: System, c: nat, phase: CallPhase) { c in s.calls && s.calls[c].phase == phase }

  function NextHost(s: System, step: Step): System {
    match step
    case Wait(h) => Waited(s, h)
    case HandOver(h) =>
      if h in s.hosts && s.hosts[h].phase.Handing?
      then SetHost(s, h, s.hosts[h].(phase := Waiting,
                                     ch := if s.hosts[h].ch.None? then Some(s.hosts[h].phase.request) else s.hosts[h].ch))
      else s
    case WaitReturns(h, receives) =>
      if h in s.hosts && s.hosts[h].phase == Waiting && (receives ==> s.hosts[h].ch.Some?)
      then SetHost(s, h, s.hosts[h].(phase := Leaving, ch := if receives then None else s.hosts[h].ch)) else s
    case Vacate(h) =>
      if h in s.hosts && s.hosts[h].phase == Leaving
      then SetHost(s, h, s.hosts[h].(phase := Gone)).(slots := Vacated(s.slots, h)) else s
    case _ => s
  }

  function NextCall(s: System, step: Step): System {
    match step
    case Request(c) => Requested(s, c)
    case Deliver(c) =>
      if c in s.calls && s.calls[c].phase.Sending? then Delivered(s, c, s.calls[c].phase.host) else s
    case Retreat(c) =>
      if CallIs(s, c, Retreating)
      then SetCall(s, c, s.calls[c].(phase := Returned(BridgeOffline))).(slots := Dropped(s.slots, c)) else s
    case Expire(c) => if CallIs(s, c, Selecting) then SetCall(s, c, s.calls[c].(phase := Expiring)) else s
    case Clear(c) =>
      if CallIs(s, c, Expiring)
      then SetCall(s, c, s.calls[c].(phase := Returned(TimedOut))).(slots := Dropped(s.slots, c)) else s
    case Receive(c) =>
      if CallIs(s, c, Selecting) && s.calls[c].replyCh.Some?
      then SetCall(s, c, s.calls[c].(phase := Returned(Judged(s.calls[c].replyCh.value)), replyCh := None)) else s
    case _ => s
  }

  function Next(s: System, step: Step): System {
    match step
    case TakeReply(answer) =>
      if answer.replier in s.repliers || s.slots.pending != Some(answer.id) then s
      else s.(slots := Dropped(s.slots, answer.id), repliers := s.repliers[answer.replier := Replier(answer, Holding)])
    case SendReply(r) => if r in s.repliers && s.repliers[r].phase == Holding then Answered(s, r) else s
    case _ => NextCall(NextHost(s, step), step)
  }

  function Run(steps: seq<Step>): System {
    if steps == [] then START else Next(Run(steps[..|steps| - 1]), steps[|steps| - 1])
  }

  // ------------------------------------------------ the invariant

  predicate InFlightCall(s: System, c: nat) { c in s.calls && !s.calls[c].phase.Returned? }

  /** The slots name a host that still waits and was never cancelled, and a call that has
      not returned and has got no reply. */
  ghost predicate SlotsAreLive(s: System) {
    && (s.slots.waiter.Some? ==>
          && s.slots.waiter.value in s.hosts
          && s.hosts[s.slots.waiter.value].phase != Gone && s.hosts[s.slots.waiter.value].closes == 0)
    && (s.slots.pending.Some? ==>
          InFlightCall(s, s.slots.pending.value) && s.calls[s.slots.pending.value].sends == 0)
  }

  ghost predicate ClosedOnce(s: System) {
    forall h :: h in s.hosts ==> s.hosts[h].closes <= 1
  }

  /** One Reply per request has taken the slot, and then the slot is empty for good. */
  ghost predicate OneReplier(s: System) {
    && (forall r, q :: r in s.repliers && q in s.repliers && s.repliers[r].answer.id == s.repliers[q].answer.id ==> r == q)
    && (forall r :: r in s.repliers ==>
          && s.repliers[r].answer.replier == r
          && s.repliers[r].answer.id in s.calls
          && s.slots.pending != Some(s.repliers[r].answer.id)
          && s.repliers[r].phase != AlreadyConsumed
          && (s.repliers[r].phase == Holding ==> s.calls[s.repliers[r].answer.id].sends == 0))
  }

  /** The answer was sent to this call by a Reply that bore its ID. */
  predicate Delivery(s: System, c: nat, a: Answer) {
    a.id == c && a.replier in s.repliers && s.repliers[a.replier] == Replier(a, Sent)
  }

  ghost predicate OwnAnswers(s: System) {
    forall c :: c in s.calls ==>
      var call := s.calls[c];
      && call.sends <= 1
      && (call.replyCh.Some? ==> call.sends == 1 && Delivery(s, c, call.replyCh.value))
      && (call.phase.Returned? && call.phase.outcome.Got? ==>
            var a := call.phase.outcome.answer;
            Delivery(s, c, a) && a.cookies.Some? && ValidCookies(a.cookies.value))
  }

  ghost predicate Valid(s: System) {
    SlotsAreLive(s) && ClosedOnce(s) && OneReplier(s) && OwnAnswers(s)
  }

  lemma HostSafe(s: System, step: Step)
    requires Valid(s)
    ensures Valid(NextHost(s, step))
  {
    hide ValidCookies;
    var t := NextHost(s, step);
    assert t.calls == s.calls && t.repliers == s.repliers;
    assert forall c, a :: Delivery(s, c, a) ==> Delivery(t, c, a);
  }

  lemma RequestSafe(s: System, c: nat)
    requires Valid(s)
    ensures Valid(NextCall(s, Request(c)))
  {
    hide ValidCookies;
    var t := NextCall(s, Request(c));
    assert forall d, a :: Delivery(s, d, a) ==> Delivery(t, d, a);
  }

  /** The half of the invariant about the slots, and the half about the replies. */
  ghost predicate Live(s: System) { SlotsAreLive(s) && ClosedOnce(s) }

  ghost predicate Answering(s: System) { OneReplier(s) && OwnAnswers(s) }

  lemma DeliverLive(s: System, c: nat)
    requires Valid(s)
    ensures Live(NextCall(s, Deliver(c)))
  {
    hide OneReplier, OwnAnswers;
  }

  lemma DeliverAnswering(s: System, c: nat)
    requires Valid(s)
    ensures Answering(NextCall(s, Deliver(c)))
  {
    hide ValidCookies, SlotsAreLive, ClosedOnce;
    var t := NextCall(s, Deliver(c));
    assert forall d, a :: Delivery(s, d, a) ==> Delivery(t, d, a);
  }

  predicate Returning(step: Step) { step.Retreat? || step.Expire? || step.Clear? || step.Receive? }

  lemma ReceiveAnswering(s: System, c: nat)
    requires Valid(s)
    ensures Answering(NextCall(s, Receive(c)))
  {
    hide ValidCookies, SlotsAreLive, ClosedOnce;
    var t := NextCall(s, Receive(c));
    assert forall d, a :: Delivery(s, d, a) ==> Delivery(t, d, a);
  }

  lemma ReturnLive(s: System, step: Step)
    requires Valid(s) && Returning(step)
    ensures Live(NextCall(s, step))
  {
    hide OneReplier, Judged, ValidCookies;
  }

  lemma ReturnAnswering(s: System, step: Step)
    requires Valid(s) && Returning(step)
    ensures Answering(NextCall(s, step))
  {
    if step.Receive? {
      hide *;
      ReceiveAnswering(s, step.call);
    } else {
      hide ValidCookies, SlotsAreLive, ClosedOnce;
      var t := NextCall(s, step);
      assert forall d, a :: Delivery(s, d, a) ==> Delivery(t, d, a);
    }
  }

  lemma TakeLive(s: System, answer: Answer)
    requires Valid(s)
    ensures Live(Next(s, TakeReply(answer)))
  {
    hide OneReplier, OwnAnswers;
  }

  lemma TakeAnswering(s: System, answer: Answer)
    requires Valid(s)
    ensures Answering(Next(s, TakeReply(answer)))
  {
    hide ValidCookies, ClosedOnce;
    var t := Next(s, TakeReply(answer));
    assert forall d, a :: Delivery(s, d, a) ==> Delivery(t, d, a);
  }

  lemma SendLive(s: System, r: nat)
    requires Valid(s)
    ensures Live(Next(s, SendReply(r)))
  {
    hide OwnAnswers;
    if r in s.repliers {
      assert s.slots.pending != Some(s.repliers[r].answer.id);
    }
  }

  lemma SendAnswering(s: System, r: nat)
    requires Valid(s)
    ensures Answering(Next(s, SendReply(r)))
  {
    hide ValidCookies, SlotsAreLive, ClosedOnce;
    var t := Next(s, SendReply(r));
    assert forall d, a :: Delivery(s, d, a) ==> Delivery(t, d, a);
  }

  lemma NextSafe(s: System, step: Step)
    requires Valid(s)
    ensures Valid(Next(s, step))
  {
    hide SlotsAreLive, ClosedOnce, OneReplier, OwnAnswers;
    if step.TakeReply? { TakeLive(s, step.answer); TakeAnswering(s, step.answer); }
    else if step.SendReply? { SendLive(s, step.replier); SendAnswering(s, step.replier); }
    else if step.Request? { RequestSafe(s, step.call); }
    else if step.Deliver? { DeliverLive(s, step.call); DeliverAnswering(s, step.call); }
    else if Returning(step) { ReturnLive(s, step); ReturnAnswering(s, step); }
    else { HostSafe(s, step); }
  }

  lemma {:induction false} RunSafe(steps: seq<Step>)
    ensures Valid(Run(steps))
  {
    if steps != [] {
      RunSafe(steps[..|steps| - 1]);
      NextSafe(Run(steps[..|steps| - 1]), steps[|steps| - 1]);
    }
  }

  // ------------------------------------------------ what every interleaving keeps

  /** A call returns only valid cookies that a Reply bearing its own request ID sent. */
  lemma OnlyOwnCookies(steps: seq<Step>, c: nat, a: Answer)
    requires CallIs(Run(steps), c, Returned(Got(a)))
    ensures a.id == c && a.cookies.Some? && ValidCookies(a.cookies.value)
    ensures a.replier in Run(steps).repliers && Run(steps).repliers[a.replier] == Replier(a, Sent)
  {
    RunSafe(steps);
  }

  /** Each reply channel gets at most one send, so no Reply ever finds its channel full;
      and no cancel channel is closed twice. */
  lemma ChannelsUsedOnce(steps: seq<Step>, c: nat, h: nat, r: nat)
    ensures var s := Run(steps);
            && (c in s.calls ==> s.calls[c].sends <= 1)
            && (r in s.repliers ==> s.repliers[r].phase != AlreadyConsumed)
            && (h in s.hosts ==> s.hosts[h].closes <= 1)
  {
    RunSafe(steps);
  }

  /** No outcome wedges the registry: the pending slot belongs to a call that has not
      returned, so once every call has, the next one is refused only for want of a host. */
  lemma NeverWedged(steps: seq<Step>, c: nat)
    ensures var s := Run(steps);
            && (s.slots.pending.Some? ==> InFlightCall(s, s.slots.pending.value))
            && ((forall d :: d in s.calls ==> s.calls[d].phase.Returned?) && c !in s.calls ==>
                  (CallIs(Next(s, Request(c)), c, Returned(BridgeOffline)) <==> s.slots.waiter.None?)
                  && !CallIs(Next(s, Request(c)), c, Returned(AlreadyInFlight)))
            && (s.slots.waiter.Some? ==> s.slots.waiter.value in s.hosts && s.hosts[s.slots.waiter.value].phase != Gone)
  {
    RunSafe(steps);
  }

  // ------------------------------------------------ what every call gets

  /** A call that has not returned holds the slot, or a Reply bearing its ID took it. */
  ghost predicate Wanted(s: System) {
    forall c: nat :: InFlightCall(s, c) ==> s.slots.pending == Some(c) || exists r :: r in s.repliers && s.repliers[r].answer.id == c
  }

  lemma NextWanted(s: System, step: Step)
    requires Wanted(s)
    ensures Wanted(Next(s, step))
  {
    hide Superseded, Judged;
    var t := Next(s, step);
    forall c: nat | InFlightCall(t, c) && t.slots.pending != Some(c)
      ensures exists r :: r in t.repliers && t.repliers[r].answer.id == c
    {
      if step.TakeReply? && t != s && step.answer.id == c {
        assert t.repliers[step.answer.replier].answer.id == c;
      } else {
        assert InFlightCall(s, c);
        var r :| r in s.repliers && s.repliers[r].answer.id == c;
        assert t.repliers[r].answer.id == c;
      }
    }
  }

  lemma {:induction false} RunWanted(steps: seq<Step>)
    ensures Wanted(Run(steps))
  {
    if steps != [] {
      hide Next, Wanted;
      RunWanted(steps[..|steps| - 1]);
      NextWanted(Run(steps[..|steps| - 1]), steps[|steps| - 1]);
    } else {
      hide Next;
    }
  }

  /** A call is refused exactly for want of a host or because another is in flight;
      otherwise its request is put before the waiting host. */
  lemma RequestReachesHost(s: System, c: nat)
    requires Valid(s) && c !in s.calls
    ensures var t := Next(s, Request(c));
            && (CallIs(t, c, Returned(BridgeOffline)) <==> s.slots.waiter.None?)
            && (CallIs(t, c, Returned(AlreadyInFlight)) <==> s.slots.waiter.Some? && s.slots.pending.Some?)
            && (InFlightCall(t, c) ==>
                  && t.slots.pending == Some(c)
                  && var h := s.slots.waiter.value;
                     if s.hosts[h].ch.None?
                     then CallIs(Next(t, Deliver(c)), c, Selecting) && Next(t, Deliver(c)).hosts[h].ch == Some(c)
                     else CallIs(Next(Next(t, Deliver(c)), Retreat(c)), c, Returned(BridgeOffline))
                          && Next(Next(t, Deliver(c)), Retreat(c)).slots.pending.None?)
  {
  }

  /** A host that comes takes the slot and cancels the one that had it; a request that is
      pending is handed to it. */
  lemma NewHostTakesOver(s: System, h: nat)
    requires Valid(s) && h !in s.hosts
    ensures var t := Next(Next(s, Wait(h)), HandOver(h));
            && t.slots == s.slots.(waiter := Some(h)) && t.hosts[h] == Host(Waiting, s.slots.pending, 0)
            && (forall g :: g in s.hosts ==>
                  && g in t.hosts
                  && t.hosts[g] == s.hosts[g].(closes := s.hosts[g].closes + if s.slots.waiter == Some(g) then 1 else 0))
  {
  }

  /** A waiting host returns with the request in its channel if there is one, or for want of
      a request in any case, and then frees the slot unless another host has it. */
  lemma WaitEnds(s: System, h: nat, receives: bool)
    requires h in s.hosts && s.hosts[h].phase == Waiting
    ensures var t := Next(Next(s, WaitReturns(h, receives)), Vacate(h));
            if receives && s.hosts[h].ch.None? then t == s
            else t.hosts[h] == s.hosts[h].(phase := Gone, ch := if receives then None else s.hosts[h].ch)
                 && t.slots == s.slots.(waiter := if s.slots.waiter == Some(h) then None else s.slots.waiter)
  {
  }

  /** A call in its select can give up whatever has come meanwhile; then the slot is not its
      own any more. */
  lemma CallGivesUp(s: System, c: nat)
    requires CallIs(s, c, Selecting)
    ensures var t := Next(Next(s, Expire(c)), Clear(c));
            && CallIs(t, c, Returned(TimedOut)) && t.hosts == s.hosts && t.repliers == s.repliers
            && t.slots == s.slots.(pending := if s.slots.pending == Some(c) then None else s.slots.pending)
  {
  }

  /** The six cookies that a reply must bring, none of them blank. */
  lemma AllSixAreNeeded(c: Cookies)
    ensures ValidCookies(c) <==>
              forall name :: name in {"SID", "HSID", "SSID", "APISID", "SAPISID", "OSID"} ==> name in c && !Blank(c[name])
  {
    assert REQUIRED[0] == "SID" && REQUIRED[1] == "HSID" && REQUIRED[2] == "SSID";
    assert REQUIRED[3] == "APISID" && REQUIRED[4] == "SAPISID" && REQUIRED[5] == "OSID";
  }

  /** A Reply to a call that has returned is refused for good. */
  lemma ReturnedTakesNoReply(steps: seq<Step>, answer: Answer)
    requires answer.id in Run(steps).calls && Run(steps).calls[answer.id].phase.Returned?
    ensures Next(Run(steps), TakeReply(answer)) == Run(steps)
  {
    RunSafe(steps);
  }

  predicate Usable(a: Answer) { a.cookies.Some? && ValidCookies(a.cookies.value) }

  /** What a call with this answer in its channel returns. */
  lemma ReceiveReturnsIff(s: System, c: nat, a: Answer)
    requires CallIs(s, c, Selecting) && s.calls[c].replyCh == Some(a)
    ensures CallIs(Next(s, Receive(c)), c, Returned(Got(a))) <==> Usable(a)
    ensures CallIs(Next(s, Receive(c)), c, Returned(ReplyFailed)) <==> !Usable(a)
    ensures Next(s, Receive(c)).calls[c].replyCh.None?
  {
  }

  /** `first` occurs, and `next` after it. */
  ghost predicate Follows(steps: seq<Step>, first: Step, next: Step) {
    exists j, k :: 0 <= j < k < |steps| && steps[j] == first && steps[k] == next
  }

  /** How far an answer that took the slot has come. */
  ghost predicate OnItsWay(s: System, a: Answer, sent: bool, received: bool) {
    && a.id in s.calls && a.replier in s.repliers
    && s.repliers[a.replier] == Replier(a, if sent then Sent else Holding)
    && var call := s.calls[a.id];
       if received then call.phase == Returned(if Usable(a) then Got(a) else ReplyFailed)
       else call.phase == Selecting && call.replyCh == if sent then Some(a) else None
  }

  lemma AnswerMoves(s: System, a: Answer, sent: bool, received: bool, step: Step)
    requires Valid(s) && OnItsWay(s, a, sent, received) && step != Expire(a.id)
    ensures OnItsWay(Next(s, step), a, sent || step == SendReply(a.replier), received || (sent && step == Receive(a.id)))
  {
    hide ValidCookies, SlotsAreLive, ClosedOnce, Superseded;
    if step.Receive? && step.call == a.id && sent && !received { ReceiveReturnsIff(s, a.id, a); }
  }

  /** A Reply that bears the ID of a call in its select, the first to do so, is what the
      call returns: whatever else happens meanwhile, short of the call's timeout, it has
      returned exactly these cookies once the Reply was sent and then received. */
  lemma {:induction false} OwnReplyIsReturned(steps: seq<Step>, a: Answer, more: seq<Step>)
    requires CallIs(Run(steps), a.id, Selecting) && a.replier !in Run(steps).repliers
    requires forall r :: r in Run(steps).repliers ==> Run(steps).repliers[r].answer.id != a.id
    requires Expire(a.id) !in more
    ensures var t := Run(steps + [TakeReply(a)] + more);
            && OnItsWay(t, a, SendReply(a.replier) in more, Follows(more, SendReply(a.replier), Receive(a.id)))
            && (CallIs(t, a.id, Returned(Got(a))) <==> Usable(a) && Follows(more, SendReply(a.replier), Receive(a.id)))
  {
    hide Next, Valid, Usable, OnItsWay;
    var (all, send, receive) := (steps + [TakeReply(a)] + more, SendReply(a.replier), Receive(a.id));
    if more == [] {
      assert all == steps + [TakeReply(a)] && all[..|all| - 1] == steps;
      ReplyIsTaken(steps, a);
    } else {
      var (before, step) := (more[..|more| - 1], more[|more| - 1]);
      assert all[..|all| - 1] == steps + [TakeReply(a)] + before;
      assert more == before + [step];
      OwnReplyIsReturned(steps, a, before);
      RunSafe(steps + [TakeReply(a)] + before);
      FollowsSplits(before, step, send, receive);
      AnswerMoves(Run(steps + [TakeReply(a)] + before), a, send in before, Follows(before, send, receive), step);
    }
    WhereItIs(Run(all), a, send in more, Follows(more, send, receive));
  }

  lemma WhereItIs(s: System, a: Answer, sent: bool, received: bool)
    requires OnItsWay(s, a, sent, received)
    ensures CallIs(s, a.id, Returned(Got(a))) <==> Usable(a) && received
  {
  }

  lemma ReplyIsTaken(steps: seq<Step>, a: Answer)
    requires CallIs(Run(steps), a.id, Selecting) && a.replier !in Run(steps).repliers
    requires forall r :: r in Run(steps).repliers ==> Run(steps).repliers[r].answer.id != a.id
    ensures OnItsWay(Next(Run(steps), TakeReply(a)), a, false, false)
  {
    RunSafe(steps);
    RunWanted(steps);
    hide Run;
    assert InFlightCall(Run(steps), a.id);
  }

  lemma FollowsSplits(before: seq<Step>, step: Step, first: Step, next: Step)
    ensures Follows(before + [step], first, next) <==> Follows(before, first, next) || (first in before && step == next)
  {
    var all := before + [step];
    if Follows(all, first, next) {
      var j, k :| 0 <= j < k < |all| && all[j] == first && all[k] == next;
      assert before[j] == first;
      if k < |before| { assert before[k] == next; }
    }
    if Follows(before, first, next) {
      var j, k :| 0 <= j < k < |before| && before[j] == first && before[k] == next;
      assert all[j] == first && all[k] == next;
    }
    if first in before && step == next {
      var j :| 0 <= j < |before| && before[j] == first;
      assert all[j] == first && all[|before|] == next;
    }
  }
}
