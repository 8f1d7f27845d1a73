/** What a carry pass promises: it is safe, total, idempotent and resumable. */
module CarrySafety {
  import opened Bridge
  import opened Strings
  import opened Carry

  ghost predicate Grows(a: Rows, b: Rows) {
    forall s :: s in a ==> s in b && b[s] == a[s]
  }

  lemma OneIntentOnlyAdds(p: Progress, i: Intent, blobs: map<string, Blob>, now: int, trouble: Trouble)
    ensures var q := CarryOne(p, i, blobs, now, trouble);
            && Grows(p.target.rows, q.target.rows) && p.target.blobs <= q.target.blobs
            && q.target.conversations == p.target.conversations
  {
    hide Prepare;
  }

  lemma {:induction false} RowsOnlyGrow(job: Job, t: Target, j: nat, k: nat)
    requires j <= k <= |job.intents|
    ensures Grows(After(job, t, j).target.rows, After(job, t, k).target.rows)
    ensures After(job, t, j).target.blobs <= After(job, t, k).target.blobs
    ensures After(job, t, k).target.conversations == After(job, t, j).target.conversations
    ensures After(job, t, j).aborted ==> After(job, t, k) == After(job, t, j)
    decreases k
  {
    hide CarryOne;
    if j < k {
      RowsOnlyGrow(job, t, j, k - 1);
      OneIntentOnlyAdds(After(job, t, k - 1), job.intents[k - 1], job.blobs, job.clock(k - 1), job.trouble(k - 1));
    }
  }

  // ------------------------------------------------ safe

  predicate Unsent(i: Intent) { i.state == Queued || i.state == NotDispatched }

  /** The row a carried intent becomes: everything it had, in the fresh conversation. */
  predicate CopyOf(row: Row, i: Intent, conversations: Directory, now: int) {
    && (i.accountID, i.remoteConversationID) in conversations
    && row.conversationID == conversations[(i.accountID, i.remoteConversationID)].conversationID
    && row.outboxID == i.outboxID && row.accountID == i.accountID && row.kind == i.kind && row.key == i.key
    && row.payloadHash == i.payloadHash && row.operation == i.operation
    && row.transportRequestID == i.transportRequestID && row.sendAgainOf == None
    && Some(row.localMessageID) == i.localMessageID && row.occurredAt == i.occurredAt
    && row.body == i.body && row.replyTo == i.replyTo
    && row.intact && row.attachment == (if i.kind == Media then Some(i.attachment) else None)
    && row.scheduledFor == (if i.scheduledFor == 0 then now else i.scheduledFor)
  }

  /** Only an unsent text or media intent gets ready, as an exact copy. */
  lemma ReadyIsCopy(blobs: map<string, Blob>, conversations: Directory, i: Intent, now: int)
    ensures var prepared := Prepare(blobs, conversations, i);
            prepared.Ready? ==>
              && Unsent(i) && (i.kind == Text || i.kind == Media)
              && CopyOf(Stored(prepared.row, now), i, conversations, now)
              && Slot(prepared.row.accountID, prepared.row.key) == SlotOf(i)
              && prepared.row.scheduledFor == i.scheduledFor
              && (i.kind == Media ==> prepared.copy == Some(i.attachment.blob))
  {
  }

  /** Rows that were there stay as they were; every new row is the copy of an unsent
      intent, and its attachment has been copied too. Nothing else is ever enqueued. */
  lemma {:induction false} OnlyUnsentIsEnqueued(job: Job, t: Target, k: nat, s: Slot)
    requires k <= |job.intents|
    ensures var rows := After(job, t, k).target.rows;
            && (s in t.rows ==> s in rows && rows[s] == t.rows[s])
            && (s in rows && s !in t.rows ==>
                  exists n :: 0 <= n < k && SlotOf(job.intents[n]) == s && Unsent(job.intents[n])
                              && CopyOf(rows[s], job.intents[n], t.conversations, job.clock(n))
                              && (rows[s].attachment.Some? ==>
                                    rows[s].attachment.value.blob in After(job, t, k).target.blobs))
  {
    hide CopyOf, CarryOne;
    RowsOnlyGrow(job, t, 0, k);
    assert After(job, t, 0).target == t;
    if k > 0 {
      hide After;
      OnlyUnsentIsEnqueued(job, t, k - 1, s);
      RowsOnlyGrow(job, t, k - 1, k);
      var rows := After(job, t, k).target.rows;
      if s in rows && s !in After(job, t, k - 1).target.rows {
        NewRowIsCopy(job, t, k, s);
      }
    }
  }

  /** The row that intent k - 1 adds. */
  lemma NewRowIsCopy(job: Job, t: Target, k: nat, s: Slot)
    requires 0 < k <= |job.intents|
    requires s in After(job, t, k).target.rows && s !in After(job, t, k - 1).target.rows
    ensures var i := job.intents[k - 1];
            var row := After(job, t, k).target.rows[s];
            && SlotOf(i) == s && Unsent(i) && CopyOf(row, i, t.conversations, job.clock(k - 1))
            && (row.attachment.Some? ==> row.attachment.value.blob in After(job, t, k).target.blobs)
  {
    hide Prepare;
    RowsOnlyGrow(job, t, 0, k - 1);
    ReadyIsCopy(job.blobs, t.conversations, job.intents[k - 1], job.clock(k - 1));
  }

  // ------------------------------------------------ total

  /** What is decided about an intent that does not abort the pass. */
  function VerdictOn(t: Target, i: Intent, blobs: map<string, Blob>, now: int): Verdict {
    match Prepare(blobs, t.conversations, i)
    case NotReady(reason, _) => Uncarryable(reason)
    case Broken(_) => Uncarryable(KindUnsupported)
    case Ready(row, _) =>
      var result := Enqueue(t.rows, row, now).1;
      if result.Damaged? then Uncarryable(DifferentIntent) else Judge(result, i, row.conversationID)
  }

  /** What the pass decided about intent `k`, once it got past it. */
  function VerdictAt(job: Job, t: Target, k: nat): Verdict
    requires k < |job.intents|
  {
    VerdictOn(After(job, t, k).target, job.intents[k], job.blobs, job.clock(k))
  }

  /** The entries of the first `k` intents that were carried, in order. */
  function CarriedEntries(job: Job, t: Target, k: nat): seq<Entry>
    requires k <= |job.intents|
  {
    if k == 0 then []
    else CarriedEntries(job, t, k - 1) + if VerdictAt(job, t, k - 1) == Carried then [Entry(job.intents[k - 1], None)] else []
  }

  /** The entries of those that could not be carried, in order, with their reasons. */
  function UncarryableEntries(job: Job, t: Target, k: nat): seq<Entry>
    requires k <= |job.intents|
  {
    if k == 0 then []
    else
      var verdict := VerdictAt(job, t, k - 1);
      UncarryableEntries(job, t, k - 1)
        + if verdict.Uncarryable? then [Entry(job.intents[k - 1], Some(verdict.reason))] else []
  }

  function Presents(job: Job, t: Target, k: nat): nat
    requires k <= |job.intents|
  {
    if k == 0 then 0 else Presents(job, t, k - 1) + if VerdictAt(job, t, k - 1) == Present then 1 else 0
  }

  /** A carried intent was not in the fresh store before and is there now; a present one
      was there already, with the same identity, and its row is untouched. */
  lemma VerdictsAreTrue(job: Job, t: Target, k: nat)
    requires k < |job.intents| && !After(job, t, k + 1).aborted
    ensures var (before, after) := (After(job, t, k).target.rows, After(job, t, k + 1).target.rows);
            var i := job.intents[k];
            match VerdictAt(job, t, k)
            case Carried => SlotOf(i) !in before && SlotOf(i) in after && CopyOf(after[SlotOf(i)], i, t.conversations, job.clock(k))
            case Present =>
              && SlotOf(i) in before && after == before
              && (i.accountID, i.remoteConversationID) in t.conversations
              && SameIntent(before[SlotOf(i)], i, t.conversations[(i.accountID, i.remoteConversationID)].conversationID)
            case Uncarryable(_) => Grows(before, after)
  {
    hide Prepare;
    RowsOnlyGrow(job, t, 0, k);
    RowsOnlyGrow(job, t, k, k + 1);
    ReadyIsCopy(job.blobs, t.conversations, job.intents[k], job.clock(k));
  }

  /** An intent that does not abort the pass adds one entry to the report, or is present. */
  lemma FiledOnce(p: Progress, i: Intent, blobs: map<string, Blob>, now: int, trouble: Trouble)
    requires !CarryOne(p, i, blobs, now, trouble).aborted
    ensures var (before, after) := (p.report, CarryOne(p, i, blobs, now, trouble).report);
            var verdict := VerdictOn(p.target, i, blobs, now);
            && after.reported == before.reported
            && after.carried == before.carried + (if verdict == Carried then [Entry(i, None)] else [])
            && after.uncarryable == before.uncarryable +
                 (if verdict.Uncarryable? then [Entry(i, Some(verdict.reason))] else [])
  {
    hide Prepare;
  }

  /** The report names exactly the intents that were carried, and those that could not be
      with their reasons, each once and in order; the rest were present. The maybe-sent rows
      are all reported, none of them carried. */
  lemma {:induction false} EveryIntentIsAccountedFor(job: Job, t: Target, k: nat)
    requires k <= |job.intents| && !After(job, t, k).aborted
    ensures var report := After(job, t, k).report;
            && report.carried == CarriedEntries(job, t, k)
            && report.uncarryable == UncarryableEntries(job, t, k)
            && |report.carried| + |report.uncarryable| + Presents(job, t, k) == k
            && report.reported == Reports(job.review)
  {
    if k > 0 {
      EveryIntentIsAccountedFor(job, t, k - 1);
      FiledOnce(After(job, t, k - 1), job.intents[k - 1], job.blobs, job.clock(k - 1), job.trouble(k - 1));
      hide Prepare, CarryOne;
    }
  }

  // ------------------------------------------------ which intents are carried

  /** Its conversation is in the fresh store. */
  predicate Located(i: Intent, conversations: Directory) {
    !Blank(i.remoteConversationID) && (i.accountID, i.remoteConversationID) in conversations
  }

  /** The message it was to send is still there. */
  predicate HasMessage(i: Intent) {
    i.messagePresent && i.localMessageID.Some? && !Blank(i.localMessageID.value) && i.occurredAt > 0
  }

  predicate HasMetadata(a: Attachment) { !Blank(a.blob.hash) && a.blob.size > 0 && !Blank(a.mime) }

  /** It names its message, and its attachment if it is a media intent. */
  predicate Described(i: Intent) {
    HasMessage(i) && (i.kind == Text || (i.kind == Media && HasMetadata(i.attachment)))
  }

  /** Its attachment can be read from the old store, and is the one that it names. */
  predicate Attached(i: Intent, blobs: map<string, Blob>) {
    i.kind == Media ==> i.attachment.blob.hash in blobs && blobs[i.attachment.blob.hash] == i.attachment.blob
  }

  predicate Columns(i: Intent, conversationID: string) {
    && !Blank(i.outboxID) && !Blank(i.accountID) && !Blank(conversationID) && !Blank(i.key)
    && !Blank(i.payloadHash) && !Blank(i.operation) && !Blank(i.transportRequestID) && 0 <= i.scheduledFor
  }

  predicate Sendable(i: Intent, conversations: Directory, blobs: map<string, Blob>) {
    && Unsent(i) && Located(i, conversations) && Described(i) && Attached(i, blobs)
    && var conversation := conversations[(i.accountID, i.remoteConversationID)];
       conversation.accountID == i.accountID && Columns(i, conversation.conversationID)
  }

  /** The row in an intent's slot was enqueued for the same operation on the same payload. */
  predicate Agreeing(there: Row, i: Intent, conversationID: string) {
    && there.operation == i.operation && there.conversationID == conversationID
    && there.payloadHash == i.payloadHash && there.sendAgainOf == None
  }

  /** And it is this very intent. */
  predicate Identical(there: Row, i: Intent, conversationID: string) {
    && Agreeing(there, i, conversationID) && there.kind == i.kind && there.scheduledFor == i.scheduledFor
    && there.accountID == i.accountID && there.key == i.key
  }

  /** What makes the pass give up: a source that lists a sent intent, a conversation of
      another account, an attachment larger than stated, blank columns, or a damaged row. */
  predicate Aborts(i: Intent, t: Target, blobs: map<string, Blob>) {
    || !Unsent(i)
    || (Located(i, t.conversations) &&
          var conversation := t.conversations[(i.accountID, i.remoteConversationID)];
          || conversation.accountID != i.accountID
          || (Described(i) && i.kind == Media && i.attachment.blob.hash in blobs
              && blobs[i.attachment.blob.hash].size > i.attachment.blob.size)
          || (Described(i) && Attached(i, blobs) && !Columns(i, conversation.conversationID))
          || (Sendable(i, t.conversations, blobs) && SlotOf(i) in t.rows
              && Agreeing(t.rows[SlotOf(i)], i, conversation.conversationID) && !t.rows[SlotOf(i)].intact))
  }

  /** The first obstacle of an intent that cannot be carried. */
  predicate Obstacle(reason: Reason, i: Intent, t: Target, blobs: map<string, Blob>) {
    var located := Located(i, t.conversations);
    match reason
    case NoRemoteConversation => Blank(i.remoteConversationID)
    case UnresolvedConversation => !Blank(i.remoteConversationID) && !located
    case NoMessage => located && !HasMessage(i)
    case KindUnsupported => located && HasMessage(i) && (i.kind == Reaction || i.kind == Read)
    case NoBlobMetadata => located && HasMessage(i) && i.kind == Media && !HasMetadata(i.attachment)
    case BlobUnavailable => located && Described(i) && i.kind == Media && i.attachment.blob.hash !in blobs
    case BlobCorrupt => located && Described(i) && i.attachment.blob.hash in blobs && !Attached(i, blobs)
    case KeyTaken =>
      && Sendable(i, t.conversations, blobs) && SlotOf(i) in t.rows
      && !Agreeing(t.rows[SlotOf(i)], i, t.conversations[(i.accountID, i.remoteConversationID)].conversationID)
    case DifferentIntent =>
      && Sendable(i, t.conversations, blobs)
      && var conversationID := t.conversations[(i.accountID, i.remoteConversationID)].conversationID;
         if SlotOf(i) !in t.rows then i.scheduledFor == 0
         else Agreeing(t.rows[SlotOf(i)], i, conversationID) && !Identical(t.rows[SlotOf(i)], i, conversationID)
  }

  /** What gets ready is exactly what can be sent, in its conversation's row. */
  lemma ReadyIff(blobs: map<string, Blob>, conversations: Directory, i: Intent)
    ensures Prepare(blobs, conversations, i).Ready? <==> Sendable(i, conversations, blobs)
    ensures Sendable(i, conversations, blobs) ==>
              Prepare(blobs, conversations, i).row.conversationID ==
                conversations[(i.accountID, i.remoteConversationID)].conversationID
  {
    hide Blank;
  }

  lemma NotReadyIff(blobs: map<string, Blob>, t: Target, i: Intent, reason: Reason)
    requires !Aborts(i, t, blobs)
    ensures var prepared := Prepare(blobs, t.conversations, i);
            && !prepared.Broken?
            && (prepared.NotReady? && prepared.reason == reason <==>
                  !Sendable(i, t.conversations, blobs) && Obstacle(reason, i, t, blobs))
  {
    hide Blank, Agreeing, Identical;
  }

  /** The decision about every intent that does not abort the pass: it is carried exactly if
      it can be sent, its key is free and it has a schedule; present exactly if its key holds
      this very intent; and uncarryable exactly for its first obstacle. */
  lemma VerdictIff(t: Target, i: Intent, blobs: map<string, Blob>, now: int, reason: Reason)
    requires !Aborts(i, t, blobs) && 0 < now
    ensures var verdict := VerdictOn(t, i, blobs, now);
            var sendable := Sendable(i, t.conversations, blobs);
            && (verdict == Carried <==> sendable && SlotOf(i) !in t.rows && i.scheduledFor != 0)
            && (verdict == Present <==>
                  && sendable && SlotOf(i) in t.rows
                  && Identical(t.rows[SlotOf(i)], i, t.conversations[(i.accountID, i.remoteConversationID)].conversationID))
            && (verdict == Uncarryable(reason) <==> Obstacle(reason, i, t, blobs))
  {
    NotReadyIff(blobs, t, i, reason);
    ReadyIff(blobs, t.conversations, i);
    ReadyIsCopy(blobs, t.conversations, i, now);
    hide Blank, Prepare, HasMessage, HasMetadata, Columns;
  }

  /** And it aborts the pass exactly for one of those reasons or an error of the stores. */
  lemma AbortsIff(p: Progress, i: Intent, blobs: map<string, Blob>, now: int, trouble: Trouble)
    requires !p.aborted
    ensures CarryOne(p, i, blobs, now, trouble).aborted <==>
              || trouble == AtLookup || Aborts(i, p.target, blobs)
              || (trouble == AtEnqueue && Sendable(i, p.target.conversations, blobs))
  {
    ReadyIff(blobs, p.target.conversations, i);
    ReadyIsCopy(blobs, p.target.conversations, i, now);
    if !Aborts(i, p.target, blobs) {
      NotReadyIff(blobs, p.target, i, KeyTaken);
      hide Blank, Prepare;
    } else if !Sendable(i, p.target.conversations, blobs) {
      BrokenIff(blobs, p.target, i);
      hide Blank, Prepare;
    } else {
      hide Blank, Prepare;
    }
  }

  lemma BrokenIff(blobs: map<string, Blob>, t: Target, i: Intent)
    requires Aborts(i, t, blobs) && !Sendable(i, t.conversations, blobs)
    ensures Prepare(blobs, t.conversations, i).Broken?
  {
    hide Blank;
  }

  /** An intent that can be sent and has a schedule, whose key neither the fresh store nor an
      earlier intent uses, is carried by every pass that completes: the report names it and
      the fresh store holds its copy. */
  lemma SendableIsCarried(job: Job, t: Target, n: nat)
    requires !Pass(job, t).aborted && n < |job.intents| && 0 < job.clock(n)
    requires Sendable(job.intents[n], t.conversations, job.blobs) && job.intents[n].scheduledFor != 0
    requires SlotOf(job.intents[n]) !in t.rows
    requires forall m :: 0 <= m < n ==> SlotOf(job.intents[m]) != SlotOf(job.intents[n])
    ensures var (p, i) := (Pass(job, t), job.intents[n]);
            && Entry(i, None) in p.report.carried
            && SlotOf(i) in p.target.rows && CopyOf(p.target.rows[SlotOf(i)], i, t.conversations, job.clock(n))
  {
    var i := job.intents[n];
    RowsOnlyGrow(job, t, 0, n);
    RowsOnlyGrow(job, t, n, n + 1);
    RowsOnlyGrow(job, t, n + 1, |job.intents|);
    OnlyUnsentIsEnqueued(job, t, n, SlotOf(i));
    assert After(job, t, 0).target == t;
    hide After, CopyOf, CarryOne, Sendable, Aborts;
    var before := After(job, t, n);
    OneIntent(job, t, n);
    AbortsIff(before, i, job.blobs, job.clock(n), job.trouble(n));
    VerdictIff(before.target, i, job.blobs, job.clock(n), KeyTaken);
    VerdictsAreTrue(job, t, n);
    EveryIntentIsAccountedFor(job, t, |job.intents|);
    CarriedIsListed(job, t, n, |job.intents|);
  }

  lemma OneIntent(job: Job, t: Target, n: nat)
    requires n < |job.intents| && !After(job, t, n + 1).aborted
    ensures !After(job, t, n).aborted
    ensures After(job, t, n + 1) == CarryOne(After(job, t, n), job.intents[n], job.blobs, job.clock(n), job.trouble(n))
  {
    hide CarryOne;
  }

  lemma {:induction false} CarriedIsListed(job: Job, t: Target, n: nat, k: nat)
    requires n < k <= |job.intents| && VerdictAt(job, t, n) == Carried
    ensures Entry(job.intents[n], None) in CarriedEntries(job, t, k)
    decreases k
  {
    hide VerdictAt;
    if n < k - 1 { CarriedIsListed(job, t, n, k - 1); }
  }

  // ------------------------------------------------ idempotent

  /** `t` has had this intent dealt with: its row is there if it gets ready at all. */
  ghost predicate Handled(blobs: map<string, Blob>, i: Intent, t: Target) {
    match Prepare(blobs, t.conversations, i)
    case NotReady(_, copy) => copy.Some? ==> copy.value in t.blobs
    case Broken(_) => false
    case Ready(row, copy) =>
      && SlotOf(i) in t.rows && !Enqueue(t.rows, row, 0).1.Damaged?
      && (copy.Some? ==> copy.value in t.blobs)
  }

  lemma HandledAtOnce(p: Progress, i: Intent, blobs: map<string, Blob>, now: int, trouble: Trouble)
    requires !CarryOne(p, i, blobs, now, trouble).aborted
    ensures Handled(blobs, i, CarryOne(p, i, blobs, now, trouble).target)
  {
    hide Prepare;
    ReadyIsCopy(blobs, p.target.conversations, i, now);
  }

  lemma HandledStays(blobs: map<string, Blob>, i: Intent, t: Target, u: Target)
    requires Handled(blobs, i, t) && Grows(t.rows, u.rows) && t.blobs <= u.blobs && t.conversations == u.conversations
    ensures Handled(blobs, i, u)
  {
    hide Prepare;
    ReadyIsCopy(blobs, t.conversations, i, 0);
  }

  lemma PassHandles(job: Job, t: Target, k: nat, n: nat)
    requires n < k <= |job.intents| && !After(job, t, k).aborted
    ensures Handled(job.blobs, job.intents[n], After(job, t, k).target)
  {
    hide Prepare, Handled;
    RowsOnlyGrow(job, t, n + 1, k);
    HandledAtOnce(After(job, t, n), job.intents[n], job.blobs, job.clock(n), job.trouble(n));
    HandledStays(job.blobs, job.intents[n], After(job, t, n + 1).target, After(job, t, k).target);
  }

  /** Passing an intent again that has been dealt with changes nothing and carries nothing. */
  lemma HandledIsSkipped(p: Progress, i: Intent, blobs: map<string, Blob>, now: int, trouble: Trouble)
    requires Handled(blobs, i, p.target)
    ensures var q := CarryOne(p, i, blobs, now, trouble);
            q.target == p.target && q.report.carried == p.report.carried && (trouble == Fine ==> q.aborted == false || p.aborted)
  {
    hide Prepare;
    ReadyIsCopy(blobs, p.target.conversations, i, now);
    assert forall b :: b in p.target.blobs ==> p.target.blobs + {b} == p.target.blobs;
  }

  /** A second pass over the same old store, at any later time and whatever errors it
      meets, carries nothing and leaves the fresh store as it is. */
  lemma {:induction false} SecondPassCarriesNothing(job: Job, t: Target, again: Job, k: nat)
    requires !Pass(job, t).aborted
    requires again.intents == job.intents && again.blobs == job.blobs && k <= |job.intents|
    ensures var p := After(again, Pass(job, t).target, k);
            p.target == Pass(job, t).target && p.report.carried == []
  {
    hide CarryOne, Prepare, Handled;
    if k > 0 {
      SecondPassCarriesNothing(job, t, again, k - 1);
      PassHandles(job, t, |job.intents|, k - 1);
      HandledIsSkipped(After(again, Pass(job, t).target, k - 1), job.intents[k - 1], job.blobs, again.clock(k - 1), again.trouble(k - 1));
    }
  }

  // ------------------------------------------------ resumable

  /** The same old store, at another time and with other store errors. */
  predicate SameWork(a: Job, b: Job) { a.intents == b.intents && a.blobs == b.blobs }

  ghost predicate Untroubled(job: Job) { forall k :: job.trouble(k) == Fine }

  /** What the old store's schema demands (0005_outbox.sql: scheduled_for_ms > 0). */
  predicate Scheduled(job: Job) { forall k :: 0 <= k < |job.intents| ==> job.intents[k].scheduledFor != 0 }

  /** Two stores with the same rows: passing one intent keeps them the same, whatever the
      clocks, unless one pass meets an error. */
  lemma InStep(p: Progress, q: Progress, i: Intent, blobs: map<string, Blob>, now: int, later: int, trouble: Trouble)
    requires i.scheduledFor != 0 && !p.aborted && !q.aborted
    requires p.target.rows == q.target.rows && p.target.conversations == q.target.conversations
    ensures var (a, b) := (CarryOne(p, i, blobs, now, trouble), CarryOne(q, i, blobs, later, Fine));
            && (!a.aborted ==>
                  && !b.aborted && a.target.rows == b.target.rows
                  && a.target.blobs - p.target.blobs <= b.target.blobs && b.target.blobs - q.target.blobs <= a.target.blobs)
            && (a.aborted ==> a.target.rows == p.target.rows && a.target.blobs - p.target.blobs <= b.target.blobs)
            && (trouble == Fine ==> a.aborted == b.aborted && a.target.rows == b.target.rows)
  {
    hide Prepare, WellFormed, Judge;
    ReadyIsCopy(blobs, p.target.conversations, i, now);
  }

  /** An interrupted pass has got exactly as far as the straight one had after some intent,
      but for the blob it was about to attach. */
  lemma {:induction false} InterruptedPass(first: Job, straight: Job, t: Target, k: nat) returns (a: nat)
    requires SameWork(first, straight) && Untroubled(straight) && Scheduled(straight) && k <= |first.intents|
    ensures a <= k && !After(straight, t, a).aborted
    ensures !After(first, t, k).aborted ==> a == k
    ensures var (stopped, reached) := (After(first, t, k).target, After(straight, t, a).target);
            && stopped.rows == reached.rows && reached.blobs <= stopped.blobs
            && (a == |first.intents| || !After(first, t, k).aborted ==> stopped.blobs == reached.blobs)
            && (a < |first.intents| ==> stopped.blobs <= After(straight, t, a + 1).target.blobs)
  {
    hide CarryOne;
    if k == 0 {
      a := 0;
      if |first.intents| > 0 { RowsOnlyGrow(straight, t, 0, 1); }
    } else {
      a := InterruptedPass(first, straight, t, k - 1);
      if !After(first, t, k - 1).aborted {
        var (p, q) := (After(first, t, k - 1), After(straight, t, k - 1));
        RowsOnlyGrow(first, t, 0, k - 1);
        RowsOnlyGrow(straight, t, 0, k - 1);
        RowsOnlyGrow(first, t, k - 1, k);
        RowsOnlyGrow(straight, t, k - 1, k);
        InStep(p, q, first.intents[k - 1], first.blobs, first.clock(k - 1), straight.clock(k - 1), first.trouble(k - 1));
        if !After(first, t, k).aborted {
          a := k;
          if k < |first.intents| { RowsOnlyGrow(straight, t, k, k + 1); }
        }
      }
    }
  }

  /** Resuming skips what is already there. */
  lemma {:induction false} ResumeSkips(straight: Job, resumed: Job, t: Target, stopped: Target, a: nat, k: nat)
    requires SameWork(resumed, straight) && Untroubled(resumed) && k <= a <= |straight.intents|
    requires !After(straight, t, a).aborted
    requires stopped.rows == After(straight, t, a).target.rows && After(straight, t, a).target.blobs <= stopped.blobs
    requires stopped.conversations == t.conversations
    ensures !After(resumed, stopped, k).aborted && After(resumed, stopped, k).target == stopped
  {
    hide CarryOne, Handled;
    if k > 0 {
      ResumeSkips(straight, resumed, t, stopped, a, k - 1);
      RowsOnlyGrow(straight, t, 0, a);
      PassHandles(straight, t, a, k - 1);
      HandledStays(straight.blobs, straight.intents[k - 1], After(straight, t, a).target, stopped);
      HandledIsSkipped(After(resumed, stopped, k - 1), straight.intents[k - 1], straight.blobs, resumed.clock(k - 1), Fine);
    }
  }

  /** From there on the resumed pass and the straight one do the same. */
  lemma {:induction false} ResumeCatchesUp(straight: Job, resumed: Job, t: Target, stopped: Target, a: nat, k: nat)
    requires SameWork(resumed, straight) && Untroubled(resumed) && Untroubled(straight) && Scheduled(straight)
    requires a <= k <= |straight.intents| && !After(straight, t, a).aborted
    requires stopped.rows == After(straight, t, a).target.rows && After(straight, t, a).target.blobs <= stopped.blobs
    requires stopped.conversations == t.conversations
    ensures var (r, s) := (After(resumed, stopped, k), After(straight, t, k));
            && r.aborted == s.aborted && r.target.rows == s.target.rows
            && r.target.blobs == s.target.blobs + stopped.blobs && r.target.conversations == s.target.conversations
    decreases k
  {
    hide CarryOne;
    if k == a {
      ResumeSkips(straight, resumed, t, stopped, a, a);
      RowsOnlyGrow(straight, t, 0, a);
    } else {
      ResumeCatchesUp(straight, resumed, t, stopped, a, k - 1);
      var (p, q) := (After(resumed, stopped, k - 1), After(straight, t, k - 1));
      RowsOnlyGrow(resumed, stopped, k - 1, k);
      RowsOnlyGrow(straight, t, k - 1, k);
      if !q.aborted {
        InStep(p, q, straight.intents[k - 1], straight.blobs, resumed.clock(k - 1), straight.clock(k - 1), Fine);
        InStep(q, p, straight.intents[k - 1], straight.blobs, straight.clock(k - 1), resumed.clock(k - 1), Fine);
      }
    }
  }

  /** A pass that was cut short anywhere, even between a blob and its row, followed by a
      full pass at any later time, leaves the fresh store as one full pass does. */
  lemma ResumedPassEqualsOnePass(first: Job, resumed: Job, straight: Job, t: Target, k: nat)
    requires SameWork(first, straight) && SameWork(resumed, straight)
    requires Untroubled(resumed) && Untroubled(straight) && Scheduled(straight) && k <= |first.intents|
    ensures var p := Pass(resumed, After(first, t, k).target);
            p.target == Pass(straight, t).target && p.aborted == Pass(straight, t).aborted
  {
    hide After;
    var n := |straight.intents|;
    var stopped := After(first, t, k).target;
    var a := InterruptedPass(first, straight, t, k);
    RowsOnlyGrow(first, t, 0, k);
    assert After(first, t, 0).target == t by { StartsAt(first, t); }
    ResumeCatchesUp(straight, resumed, t, stopped, a, n);
    RowsOnlyGrow(straight, t, if a < n then a + 1 else a, n);
    var (r, s) := (After(resumed, stopped, n).target, After(straight, t, n).target);
    assert r.blobs == s.blobs;
  }

  lemma StartsAt(job: Job, t: Target)
    ensures After(job, t, 0).target == t
  {
  }

  // ------------------------------------------------ schedules

  /** An intent that can be sent and whose key is free is always inserted; the pass reports it
      as carried exactly when it has a schedule. Without one the row is stored as due now,
      no longer matches the intent, and is reported as uncarryable. */
  lemma InsertedIsCarriedIffScheduled(p: Progress, i: Intent, blobs: map<string, Blob>, now: int)
    requires Sendable(i, p.target.conversations, blobs) && SlotOf(i) !in p.target.rows && 0 < now
    ensures var q := CarryOne(p, i, blobs, now, Fine);
            && SlotOf(i) in q.target.rows
            && (q.report.carried == p.report.carried + [Entry(i, None)] <==> i.scheduledFor != 0)
            && (i.scheduledFor == 0 ==> q.report.uncarryable == p.report.uncarryable + [Entry(i, Some(DifferentIntent))])
  {
    ReadyIff(blobs, p.target.conversations, i);
    hide Prepare;
    ReadyIsCopy(blobs, p.target.conversations, i, now);
    assert p.report.carried != p.report.carried + [Entry(i, None)] by {
      assert |p.report.carried| != |p.report.carried + [Entry(i, None)]|;
    }
  }

  /** And on every later pass: the row that a completed pass stored for it stays, and the
      intent is uncarryable again. */
  lemma UnscheduledStaysUncarryable(job: Job, t: Target, again: Job, n: nat)
    requires !Pass(job, t).aborted && n < |job.intents| && job.intents[n].scheduledFor == 0 && 0 < job.clock(n)
    requires Sendable(job.intents[n], t.conversations, job.blobs)
    requires SlotOf(job.intents[n]) !in After(job, t, n).target.rows
    requires SameWork(again, job)
    ensures SlotOf(job.intents[n]) in Pass(job, t).target.rows
    ensures VerdictAt(job, t, n) == VerdictAt(again, Pass(job, t).target, n) == Uncarryable(DifferentIntent)
  {
    var i := job.intents[n];
    ReadyIff(job.blobs, t.conversations, i);
    RowsOnlyGrow(job, t, 0, n);
    RowsOnlyGrow(job, t, n, n + 1);
    RowsOnlyGrow(job, t, n + 1, |job.intents|);
    RowsOnlyGrow(job, t, 0, |job.intents|);
    SecondPassCarriesNothing(job, t, again, n);
    StoredUnscheduled(After(job, t, n), i, job.blobs, job.clock(n), job.trouble(n));
    assert After(job, t, 0).target == t;
    hide CarryOne, Prepare;
    LaterUnscheduled(Pass(job, t).target, i, job.blobs, job.clock(n), again.clock(n));
  }

  lemma StoredUnscheduled(p: Progress, i: Intent, blobs: map<string, Blob>, now: int, trouble: Trouble)
    requires i.scheduledFor == 0 && 0 < now && SlotOf(i) !in p.target.rows
    requires Prepare(blobs, p.target.conversations, i).Ready? && !CarryOne(p, i, blobs, now, trouble).aborted
    ensures var rows := CarryOne(p, i, blobs, now, trouble).target.rows;
            SlotOf(i) in rows && rows[SlotOf(i)] == Stored(Prepare(blobs, p.target.conversations, i).row, now)
    ensures VerdictOn(p.target, i, blobs, now) == Uncarryable(DifferentIntent)
  {
    hide Prepare;
    ReadyIsCopy(blobs, p.target.conversations, i, now);
  }

  lemma LaterUnscheduled(t: Target, i: Intent, blobs: map<string, Blob>, now: int, later: int)
    requires i.scheduledFor == 0 && 0 < now && Prepare(blobs, t.conversations, i).Ready?
    requires SlotOf(i) in t.rows && t.rows[SlotOf(i)] == Stored(Prepare(blobs, t.conversations, i).row, now)
    ensures VerdictOn(t, i, blobs, later) == Uncarryable(DifferentIntent)
  {
    hide Prepare;
    ReadyIsCopy(blobs, t.conversations, i, now);
  }

  /** Such an intent: it is sent from the fresh store although the report says it was not carried. */
  lemma UnscheduledIsCarriedButReported()
    ensures exists i: Intent, conversations: Directory ::
              var p := Progress(Target(conversations, map[], {}), Report([], [], []), false);
              var q := CarryOne(p, i, map[], 5, Fine);
              SlotOf(i) in q.target.rows && q.report.carried == [] && q.report.uncarryable == [Entry(i, Some(DifferentIntent))]
  {
    var i := Intent("x", "x", "x", Text, Queued, "x", "x", "x", "x", 0, Some("x"), true, 1, "x", None,
                    Attachment(Blob("", 0), "", ""));
    var conversations: Directory := map[("x", "x") := Conversation("x", "x")];
    var p := Progress(Target(conversations, map[], {}), Report([], [], []), false);
    assert !Blank("x") by { assert "x"[0] in "x"; }
    InsertedIsCarriedIffScheduled(p, i, map[], 5);
    assert CarryOne(p, i, map[], 5, Fine).report.carried == [];
  }
}
