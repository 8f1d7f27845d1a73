/** The outbox carry of internal/cutover/carry.go: copying provably unsent intents from an
    old store into a fresh one, over the enqueue contract of internal/storage/sqlite/outbox.go. */
module Carry {
  import opened Bridge
  import opened Strings

  datatype Kind = Text | Media | Reaction | Read

  datatype SendState = Queued | NotDispatched | Dispatching | Uncertain | StoreFailed | Confirmed | Rejected | Canceled

  datatype Blob = Blob(hash: string, size: int)

  datatype Attachment = Attachment(blob: Blob, mime: string, filename: string)

  datatype Intent = Intent(
    outboxID: string,
    accountID: string,
    remoteConversationID: string,
    kind: Kind,
    state: SendState,
    key: string,
    payloadHash: string,
    operation: string,
    transportRequestID: string,
    scheduledFor: int,
    localMessageID: Option<string>,
    messagePresent: bool,
    occurredAt: int,
    body: string,
    replyTo: Option<string>,
    attachment: Attachment)

  datatype Conversation = Conversation(accountID: string, conversationID: string)

  /** An outbox row with its optimistic message and its attachment. `intact`: the message is
      still its active outgoing pair, and a media row still has its attachment. */
  datatype Row = Row(
    outboxID: string,
    accountID: string,
    conversationID: string,
    kind: Kind,
    key: string,
    payloadHash: string,
    operation: string,
    transportRequestID: string,
    sendAgainOf: Option<string>,
    scheduledFor: int,
    localMessageID: string,
    occurredAt: int,
    body: string,
    replyTo: Option<string>,
    attachment: Option<Attachment>,
    intact: bool)

  /** What UNIQUE(account_id, idempotency_key) keeps apart. */
  datatype Slot = Slot(account: string, key: string)

  function SlotOf(i: Intent): Slot { Slot(i.accountID, i.key) }

  type Rows = map<Slot, Row>
  type Directory = map<(string, string), Conversation>

  /** The fresh store; conversations are looked up by account and remote ID;
      blobs are content-addressed, so a second put of the same content changes nothing. */
  datatype Target = Target(conversations: Directory, rows: Rows, blobs: set<Blob>)

  datatype Reason =
    | NoRemoteConversation | UnresolvedConversation | NoMessage | NoBlobMetadata | BlobUnavailable
    | BlobCorrupt | KindUnsupported | KeyTaken | DifferentIntent

  datatype Verdict = Carried | Present | Uncarryable(reason: Reason)

  datatype Entry = Entry(intent: Intent, reason: Option<Reason>)

  datatype Report = Report(carried: seq<Entry>, reported: seq<Entry>, uncarryable: seq<Entry>)

  // ------------------------------------------------ one intent

  /** Outcome of everything before the enqueue: it depends on the old store and the
      conversations alone. `copy` is the blob that has been put by then. */
  datatype Preparation =
    | NotReady(reason: Reason, copy: Option<Blob>)
    | Broken(copy: Option<Blob>)
    | Ready(row: Row, copy: Option<Blob>)

  function RowFor(i: Intent, conversation: Conversation, attachment: Option<Attachment>): Row
    requires i.localMessageID.Some?
  {
    Row(i.outboxID, i.accountID, conversation.conversationID, i.kind, i.key, i.payloadHash, i.operation,
        i.transportRequestID, None, i.scheduledFor, i.localMessageID.value, i.occurredAt, i.body, i.replyTo, attachment, true)
  }

  /** validateNewOutboxItem: anything else aborts the pass. */
  predicate WellFormed(r: Row) {
    && !Blank(r.outboxID) && !Blank(r.accountID) && !Blank(r.conversationID) && !Blank(r.key)
    && !Blank(r.payloadHash) && !Blank(r.operation) && !Blank(r.transportRequestID) && 0 <= r.scheduledFor
  }

  function Checked(row: Row, copy: Option<Blob>): Preparation {
    if WellFormed(row) then Ready(row, copy) else Broken(copy)
  }

  function PrepareMedia(blobs: map<string, Blob>, i: Intent, conversation: Conversation): Preparation
    requires i.localMessageID.Some?
  {
    var want := i.attachment.blob;
    if Blank(want.hash) || want.size <= 0 || Blank(i.attachment.mime) then NotReady(NoBlobMetadata, None)
    else if want.hash !in blobs then NotReady(BlobUnavailable, None)
    else
      var copied := blobs[want.hash];
      if copied.size > want.size then Broken(None)
      else if copied != want then NotReady(BlobCorrupt, Some(copied))
      else Checked(RowFor(i, conversation, Some(i.attachment)), Some(copied))
  }

  function Prepare(blobs: map<string, Blob>, conversations: Directory, i: Intent): Preparation {
    if i.state != Queued && i.state != NotDispatched then Broken(None)
    else if Blank(i.remoteConversationID) then NotReady(NoRemoteConversation, None)
    else if (i.accountID, i.remoteConversationID) !in conversations then NotReady(UnresolvedConversation, None)
    else
      var conversation := conversations[(i.accountID, i.remoteConversationID)];
      if conversation.accountID != i.accountID then Broken(None)
      else if !i.messagePresent || i.localMessageID.None? || Blank(i.localMessageID.value) || i.occurredAt <= 0 then
        NotReady(NoMessage, None)
      else
        match i.kind
        case Text => Checked(RowFor(i, conversation, None), None)
        case Media => PrepareMedia(blobs, i, conversation)
        case _ => NotReady(KindUnsupported, None)
  }

  datatype Enqueued = Inserted(row: Row) | Existing(row: Row) | Conflict | Damaged

  /** An unset schedule means now. */
  function Stored(row: Row, now: int): Row {
    row.(scheduledFor := if row.scheduledFor == 0 then now else row.scheduledFor)
  }

  /** INSERT … ON CONFLICT DO NOTHING, then compare with the row that is there; a row that
      agrees but has lost its message or attachment is an error. */
  function Enqueue(rows: Rows, row: Row, now: int): (Rows, Enqueued) {
    var slot := Slot(row.accountID, row.key);
    if slot !in rows then (rows[slot := Stored(row, now)], Inserted(Stored(row, now)))
    else
      var there := rows[slot];
      if there.operation != row.operation || there.conversationID != row.conversationID
        || there.payloadHash != row.payloadHash || there.sendAgainOf != row.sendAgainOf
      then (rows, Conflict)
      else if there.intact then (rows, Existing(there)) else (rows, Damaged)
  }

  /** validateExistingCarry: the row in the fresh store is this intent. */
  predicate SameIntent(there: Row, i: Intent, conversationID: string) {
    && there.accountID == i.accountID && there.conversationID == conversationID && there.kind == i.kind
    && there.key == i.key && there.payloadHash == i.payloadHash && there.operation == i.operation
    && there.scheduledFor == i.scheduledFor
  }

  function Judge(result: Enqueued, i: Intent, conversationID: string): Verdict
    requires !result.Damaged?
  {
    match result
    case Conflict => Uncarryable(KeyTaken)
    case Inserted(row) => if SameIntent(row, i, conversationID) then Carried else Uncarryable(DifferentIntent)
    case Existing(row) => if SameIntent(row, i, conversationID) then Present else Uncarryable(DifferentIntent)
  }

  // ------------------------------------------------ one pass

  /** Errors of the stores that abort the pass: before anything is done for an intent, or
      after its blob was copied (the enqueue transaction rolls back). */
  datatype Trouble = Fine | AtLookup | AtEnqueue

  /** The quiescent old store, and the clock and store errors the pass meets, by intent. */
  datatype Job = Job(
    review: seq<Intent>,
    intents: seq<Intent>,
    blobs: map<string, Blob>,
    clock: nat -> int,
    trouble: nat -> Trouble)

  datatype Progress = Progress(target: Target, report: Report, aborted: bool)

  function Copied(t: Target, copy: Option<Blob>): Target {
    if copy.None? then t else t.(blobs := t.blobs + {copy.value})
  }

  function Filed(report: Report, i: Intent, v: Verdict): Report {
    match v
    case Carried => report.(carried := report.carried + [Entry(i, None)])
    case Present => report
    case Uncarryable(reason) => report.(uncarryable := report.uncarryable + [Entry(i, Some(reason))])
  }

  /** The pass over one intent that is ready for the enqueue. */
  function Settle(p: Progress, i: Intent, row: Row, now: int): Progress {
    var (rows, result) := Enqueue(p.target.rows, row, now);
    if result.Damaged? then p.(aborted := true)
    else Progress(p.target.(rows := rows), Filed(p.report, i, Judge(result, i, row.conversationID)), false)
  }

  function CarryOne(p: Progress, i: Intent, blobs: map<string, Blob>, now: int, trouble: Trouble): Progress {
    var prepared := Prepare(blobs, p.target.conversations, i);
    var copied := p.(target := Copied(p.target, prepared.copy));
    if trouble == AtLookup then p.(aborted := true)
    else match prepared
      case NotReady(reason, _) => copied.(report := Filed(p.report, i, Uncarryable(reason)))
      case Broken(_) => copied.(aborted := true)
      case Ready(row, _) => if trouble == AtEnqueue then copied.(aborted := true) else Settle(copied, i, row, now)
  }

  function Reports(review: seq<Intent>): seq<Entry> {
    seq(|review|, k requires 0 <= k < |review| => Entry(review[k], None))
  }

  /** The pass after its first `k` intents. */
  function After(job: Job, t: Target, k: nat): Progress
    requires k <= |job.intents|
  {
    if k == 0 then Progress(t, Report([], Reports(job.review), []), false)
    else
      var p := After(job, t, k - 1);
      if p.aborted then p
      else CarryOne(p, job.intents[k - 1], job.blobs, job.clock(k - 1), job.trouble(k - 1))
  }

  function Pass(job: Job, t: Target): Progress { After(job, t, |job.intents|) }

  // ------------------------------------------------ the loop

  class FreshStore {
    const conversations: Directory
    var rows: Rows
    var blobs: set<Blob>

    function View(): Target
      reads this
    {
      Target(conversations, rows, blobs)
    }

    method Put(blob: Blob)
      modifies this
      ensures View() == Copied(old(View()), Some(blob))
    {
      blobs := blobs + {blob};
    }

    method EnqueueOutgoing(row: Row, now: int) returns (result: Enqueued)
      modifies this
      ensures (rows, result) == Enqueue(old(rows), row, now) && View() == old(View()).(rows := rows)
    {
      var slot := Slot(row.accountID, row.key);
      if slot !in rows {
        var stored := row.(scheduledFor := if row.scheduledFor == 0 then now else row.scheduledFor);
        rows := rows[slot := stored];
        return Inserted(stored);
      }
      var there := rows[slot];
      if there.operation != row.operation || there.conversationID != row.conversationID
        || there.payloadHash != row.payloadHash || there.sendAgainOf != row.sendAgainOf {
        return Conflict;
      }
      if !there.intact {
        return Damaged;
      }
      return Existing(there);
    }
  }

  /** CarryPendingOutbox: `failed` means that it returned an error beside its report. */
  method CarryPendingOutbox(job: Job, target: FreshStore) returns (report: Report, failed: bool)
    modifies target
    ensures Progress(target.View(), report, failed) == Pass(job, old(target.View()))
  {
    report := Report([], [], []);
    for k := 0 to |job.review|
      invariant report == Report([], Reports(job.review[..k]), [])
      invariant target.View() == old(target.View())
    {
      report := report.(reported := report.reported + [Entry(job.review[k], None)]);
    }
    assert job.review[..|job.review|] == job.review;
    for k := 0 to |job.intents|
      invariant Progress(target.View(), report, false) == After(job, old(target.View()), k)
    {
      var aborted;
      report, aborted := CarryIntent(job, k, report, target);
      if aborted {
        AbortIsFinal(job, old(target.View()), k + 1, |job.intents|);
        return report, true;
      }
    }
    failed := false;
  }

  method CarryIntent(job: Job, k: nat, report: Report, target: FreshStore) returns (next: Report, aborted: bool)
    requires k < |job.intents|
    modifies target
    ensures Progress(target.View(), next, aborted) ==
              CarryOne(Progress(old(target.View()), report, false), job.intents[k], job.blobs, job.clock(k), job.trouble(k))
  {
    var i := job.intents[k];
    if job.trouble(k) == AtLookup {
      return report, true;
    }
    var prepared := Prepare(job.blobs, target.conversations, i);
    if prepared.copy.Some? {
      target.Put(prepared.copy.value);
    }
    match prepared
    case NotReady(reason, _) =>
      return report.(uncarryable := report.uncarryable + [Entry(i, Some(reason))]), false;
    case Broken(_) =>
      return report, true;
    case Ready(row, _) =>
      if job.trouble(k) == AtEnqueue {
        return report, true;
      }
      var result := target.EnqueueOutgoing(row, job.clock(k));
      if result.Damaged? {
        return report, true;
      }
      if result.Conflict? {
        return report.(uncarryable := report.uncarryable + [Entry(i, Some(KeyTaken))]), false;
      }
      if !SameIntent(result.row, i, row.conversationID) {
        return report.(uncarryable := report.uncarryable + [Entry(i, Some(DifferentIntent))]), false;
      }
      if result.Inserted? {
        return report.(carried := report.carried + [Entry(i, None)]), false;
      }
      return report, false;
  }

  lemma {:induction false} AbortIsFinal(job: Job, t: Target, j: nat, k: nat)
    requires j <= k <= |job.intents| && After(job, t, j).aborted
    ensures After(job, t, k) == After(job, t, j)
    decreases k
  {
    if j < k { AbortIsFinal(job, t, j, k - 1); }
  }
}
