/** The messages table and its full-text index: internal/db/messages.go, db.go (rebuildFTS),
    repair.go and conversations.go. Tables are sequences of rows in scan order; one
    transaction is one step. */
module SearchIndex {
  import opened Bridge
  import opened Strings

  /** The columns that stand for the three merge rules of upsertMessageTx: content keeps its
      old value against an empty one, the timestamp against one that is not positive,
      and everything else is last-writer-wins. */
  datatype Message = Message(
    id: string, conversationID: string, body: string, mediaID: string, timestampMS: int, status: string)

  /** A row of messages_fts. */
  datatype Row = Row(id: string, body: string)

  /** Of the conversations table only which ids it has. */
  datatype Tables = Tables(messages: seq<Message>, index: seq<Row>, conversations: set<string>)

  type Where = Message -> bool

  // ------------------------------------------------ statements on tables

  /** The messages with this id: none or one. */
  function Find(messages: seq<Message>, id: string): seq<Message> {
    if messages == [] then []
    else (if messages[0].id == id then [messages[0]] else []) + Find(messages[1..], id)
  }

  function Lookup(index: seq<Row>, id: string): seq<Row> {
    if index == [] then []
    else (if index[0].id == id then [index[0]] else []) + Lookup(index[1..], id)
  }

  function Merged(stored: Message, m: Message): Message {
    Message(stored.id, m.conversationID,
            if m.body != "" then m.body else stored.body,
            if m.mediaID != "" then m.mediaID else stored.mediaID,
            if m.timestampMS > 0 then m.timestampMS else stored.timestampMS,
            m.status)
  }

  /** INSERT … ON CONFLICT(message_id) DO UPDATE. */
  function Upserted(messages: seq<Message>, m: Message): seq<Message> {
    if messages == [] then [m]
    else if messages[0].id == m.id then [Merged(messages[0], m)] + messages[1..]
    else [messages[0]] + Upserted(messages[1..], m)
  }

  /** DELETE FROM messages WHERE … */
  function Without(messages: seq<Message>, where: Where): seq<Message> {
    if messages == [] then []
    else (if where(messages[0]) then [] else [messages[0]]) + Without(messages[1..], where)
  }

  /** DELETE FROM messages_fts WHERE message_id IN … */
  function Unindexed(index: seq<Row>, ids: set<string>): seq<Row> {
    if index == [] then []
    else (if index[0].id in ids then [] else [index[0]]) + Unindexed(index[1..], ids)
  }

  /** INSERT INTO messages_fts … SELECT message_id, body FROM messages. */
  function Listing(messages: seq<Message>): seq<Row> {
    if messages == [] then [] else [Row(messages[0].id, messages[0].body)] + Listing(messages[1..])
  }

  function Updated(messages: seq<Message>, change: Message -> Message): seq<Message> {
    if messages == [] then [] else [change(messages[0])] + Updated(messages[1..], change)
  }

  function Matching(messages: seq<Message>, where: Where): set<string> {
    set k | 0 <= k < |messages| && where(messages[k]) :: messages[k].id
  }

  // ------------------------------------------------ the operations

  /** syncMessageSearchIndex. */
  function Synced(index: seq<Row>, id: string, body: string): seq<Row> {
    Unindexed(index, {id}) + [Row(id, body)]
  }

  function BodyOf(messages: seq<Message>, id: string): string {
    var found := Find(messages, id);
    if found == [] then "" else found[0].body
  }

  /** UpsertMessage, UpsertMessageAndReportNew and RecordOutgoingMessage. */
  function Upsert(t: Tables, m: Message): Tables {
    var messages := Upserted(t.messages, m);
    t.(messages := messages, index := Synced(t.index, m.id, BodyOf(messages, m.id)))
  }

  /** deleteMessages: the index rows go with the messages. */
  function Delete(t: Tables, where: Where): Tables {
    t.(messages := Without(t.messages, where), index := Unindexed(t.index, Matching(t.messages, where)))
  }

  function InConversation(id: string): Where { (m: Message) => m.conversationID == id }

  function Moved(source: string, target: string): Message -> Message {
    (m: Message) => if m.conversationID == source then m.(conversationID := target) else m
  }

  function FilledIn(blank: Where): Message -> Message {
    (m: Message) => if blank(m) then m.(body := REPAIRED_BODY) else m
  }

  /** DeleteConversation deletes from the table alone. */
  function DeleteConversation(t: Tables, id: string): Tables {
    t.(messages := Without(t.messages, InConversation(id)), conversations := t.conversations - {id})
  }

  function Known(t: Tables, id: string): Tables { t.(conversations := t.conversations + {id}) }

  /** MergeConversationIDs, unless there is nothing to merge. */
  function Merge(t: Tables, source: string, target: string): Tables {
    if source == "" || target == "" || source == target || source !in t.conversations then t
    else t.(messages := Updated(t.messages, Moved(source, target)),
            conversations := t.conversations + {target} - {source})
  }

  function ForceRebuild(t: Tables): Tables { t.(index := Listing(t.messages)) }

  /** rebuildFTS, at startup: only when the counts differ. */
  function Rebuild(t: Tables): Tables { if |t.index| == |t.messages| then t else ForceRebuild(t) }

  const REPAIRED_BODY := "[Unsupported Signal message]"

  /** The transaction of the repair: junk is deleted, blank bodies are filled in. */
  function RepairTables(t: Tables, junk: Where, blank: Where): Tables {
    t.(messages := Updated(Without(t.messages, junk), FilledIn(blank)))
  }

  /** Repair forces a rebuild once it has deleted or filled in anything. */
  function Repair(t: Tables, junk: Where, blank: Where): Tables {
    var repaired := RepairTables(t, junk, blank);
    if |Without(t.messages, junk)| < |t.messages| || Matching(Without(t.messages, junk), blank) != {}
    then ForceRebuild(repaired) else repaired
  }

  class Store {
    var messages: seq<Message>
    var index: seq<Row>
    var conversations: set<string>

    function View(): Tables
      reads this
    {
      Tables(messages, index, conversations)
    }

    method SyncMessageSearchIndex(id: string, body: string)
      modifies this`index
      ensures index == Synced(old(index), id, body)
    {
      index := Unindexed(index, {id});
      index := index + [Row(id, body)];
    }

    /** Reports whether the message was absent before. */
    method UpsertMessageAndReportNew(m: Message) returns (isNew: bool)
      modifies this
      ensures View() == Upsert(old(View()), m)
      ensures isNew <==> Find(old(messages), m.id) == []
    {
      isNew := Find(messages, m.id) == [];
      messages := Upserted(messages, m);
      var body := BodyOf(messages, m.id);
      SyncMessageSearchIndex(m.id, body);
    }

    method DeleteMessages(where: Where)
      modifies this
      ensures View() == Delete(old(View()), where)
    {
      index := Unindexed(index, Matching(messages, where));
      messages := Without(messages, where);
    }

    method RebuildFTS()
      modifies this
      ensures View() == Rebuild(old(View()))
    {
      if |index| == |messages| {
        return;
      }
      ForceRebuildFTS();
    }

    method ForceRebuildFTS()
      modifies this
      ensures View() == ForceRebuild(old(View()))
    {
      index := [];
      index := index + Listing(messages);
    }

    method DropConversation(id: string)
      modifies this
      ensures View() == if Blank(id) then old(View()) else DeleteConversation(old(View()), id)
    {
      if Blank(id) {
        return;
      }
      messages := Without(messages, InConversation(id));
      conversations := conversations - {id};
    }

    method UpsertConversation(id: string)
      modifies this
      ensures View() == Known(old(View()), id)
    {
      conversations := conversations + {id};
    }

    method MergeConversationIDs(source: string, target: string)
      modifies this
      ensures View() == Merge(old(View()), source, target)
    {
      if source == "" || target == "" || source == target {
        return;
      }
      if source !in conversations {
        return;
      }
      messages := Updated(messages, Moved(source, target));
      conversations := conversations + {target} - {source};
    }

    method RepairLegacy(junk: Where, blank: Where)
      modifies this
      ensures View() == Repair(old(View()), junk, blank)
    {
      var before := |messages|;
      messages := Without(messages, junk);
      var deleted := |messages| < before;
      var filled := Matching(messages, blank) != {};
      messages := Updated(messages, FilledIn(blank));
      if deleted || filled {
        ForceRebuildFTS();
      }
    }
  }

  // ------------------------------------------------ the invariant

  ghost predicate UniqueIDs(messages: seq<Message>) {
    forall id :: |Find(messages, id)| <= 1
  }

  /** Each message has exactly one index row, with its body. Other rows may be left over. */
  ghost predicate Agrees(t: Tables) {
    && UniqueIDs(t.messages)
    && forall id :: Find(t.messages, id) != [] ==> Lookup(t.index, id) == Listing(Find(t.messages, id))
  }

  /** No row is left over. */
  ghost predicate Exact(t: Tables) {
    Agrees(t) && forall id :: Find(t.messages, id) == [] ==> Lookup(t.index, id) == []
  }

  // ------------------------------------------------ how lookups see the statements

  lemma {:induction false} FindUpserted(messages: seq<Message>, m: Message, id: string)
    ensures Find(Upserted(messages, m), id) ==
              if id != m.id then Find(messages, id)
              else if Find(messages, id) == [] then [m]
              else [Merged(Find(messages, id)[0], m)] + Find(messages, id)[1..]
  {
    assert messages != [] ==> Merged(messages[0], m).id == messages[0].id;
    hide Merged;
    if messages != [] {
      var (first, rest) := (messages[0], messages[1..]);
      var found := Find(rest, id);
      assert ([first] + found)[1..] == found;
      if first.id == m.id {
        assert Upserted(messages, m)[1..] == rest;
      } else {
        FindUpserted(rest, m, id);
        var head := if first.id == id then [first] else [];
        assert Upserted(messages, m)[1..] == Upserted(rest, m);
        assert Find(Upserted(messages, m), id) == head + Find(Upserted(rest, m), id);
        assert Find(messages, id) == head + found;
        assert id == m.id ==> Find(messages, id) == found;
      }
    }
  }

  lemma {:induction false} FindWithout(messages: seq<Message>, where: Where, id: string)
    ensures Find(Without(messages, where), id) == Without(Find(messages, id), where)
  {
    if messages != [] {
      FindWithout(messages[1..], where, id);
      FindAppend(if where(messages[0]) then [] else [messages[0]], Without(messages[1..], where), id);
      var found := if messages[0].id == id then [messages[0]] else [];
      WithoutAppend(found, Find(messages[1..], id), where);
      assert found != [] ==> found[1..] == [];
    }
  }

  lemma {:induction false} FindAppend(a: seq<Message>, b: seq<Message>, id: string)
    ensures Find(a + b, id) == Find(a, id) + Find(b, id)
  {
    if a == [] {
      assert a + b == b;
    } else {
      var h := if a[0].id == id then [a[0]] else [];
      assert (a + b)[1..] == a[1..] + b;
      FindAppend(a[1..], b, id);
      assert Find(a + b, id) == h + (Find(a[1..], id) + Find(b, id));
    }
  }

  lemma {:induction false} WithoutAppend(a: seq<Message>, b: seq<Message>, where: Where)
    ensures Without(a + b, where) == Without(a, where) + Without(b, where)
  {
    if a == [] {
      assert a + b == b;
    } else {
      var h := if where(a[0]) then [] else [a[0]];
      assert (a + b)[1..] == a[1..] + b;
      WithoutAppend(a[1..], b, where);
      assert Without(a + b, where) == h + (Without(a[1..], where) + Without(b, where));
    }
  }

  lemma {:induction false} LookupAppend(a: seq<Row>, b: seq<Row>, id: string)
    ensures Lookup(a + b, id) == Lookup(a, id) + Lookup(b, id)
  {
    if a == [] {
      assert a + b == b;
    } else {
      var h := if a[0].id == id then [a[0]] else [];
      assert (a + b)[1..] == a[1..] + b;
      LookupAppend(a[1..], b, id);
      assert Lookup(a + b, id) == h + (Lookup(a[1..], id) + Lookup(b, id));
    }
  }

  lemma {:induction false} LookupUnindexed(index: seq<Row>, ids: set<string>, id: string)
    ensures Lookup(Unindexed(index, ids), id) == if id in ids then [] else Lookup(index, id)
  {
    if index != [] {
      LookupUnindexed(index[1..], ids, id);
      LookupAppend(if index[0].id in ids then [] else [index[0]], Unindexed(index[1..], ids), id);
    }
  }

  lemma {:induction false} LookupListing(messages: seq<Message>, id: string)
    ensures Lookup(Listing(messages), id) == Listing(Find(messages, id))
  {
    if messages != [] {
      LookupListing(messages[1..], id);
      var (m, rest) := (messages[0], Find(messages[1..], id));
      assert Listing(messages)[1..] == Listing(messages[1..]);
      if m.id == id {
        assert ([m] + rest)[1..] == rest;
      } else {
        assert Find(messages, id) == rest;
      }
    }
  }

  /** A change that keeps ids acts on what a lookup finds. */
  lemma {:induction false} FindUpdated(messages: seq<Message>, change: Message -> Message, id: string)
    requires forall m :: change(m).id == m.id
    ensures Find(Updated(messages, change), id) == Updated(Find(messages, id), change)
  {
    if messages != [] {
      FindUpdated(messages[1..], change, id);
      var (m, rest) := (messages[0], Find(messages[1..], id));
      assert Updated(messages, change)[1..] == Updated(messages[1..], change);
      if m.id == id {
        assert ([m] + rest)[1..] == rest;
      } else {
        assert Find(messages, id) == rest;
      }
    }
  }

  lemma {:induction false} FindMeansMember(messages: seq<Message>, id: string)
    ensures Find(messages, id) != [] <==> exists k :: 0 <= k < |messages| && messages[k].id == id
    ensures forall m :: m in Find(messages, id) <==> m in messages && m.id == id
  {
    if messages != [] {
      FindMeansMember(messages[1..], id);
      if messages[0].id != id && exists k :: 0 <= k < |messages| && messages[k].id == id {
        var k :| 0 <= k < |messages| && messages[k].id == id;
        assert messages[1..][k - 1].id == id;
      }
      assert messages == [messages[0]] + messages[1..];
    }
  }

  // ------------------------------------------------ every operation keeps the agreement

  lemma UpsertAgrees(t: Tables, m: Message)
    requires Agrees(t)
    ensures Agrees(Upsert(t, m))
  {
    var u := Upsert(t, m);
    forall id
      ensures |Find(u.messages, id)| <= 1
      ensures Find(u.messages, id) != [] ==> Lookup(u.index, id) == Listing(Find(u.messages, id))
    {
      FindUpserted(t.messages, m, id);
      var found := Find(t.messages, id);
      assert found != [] ==> found[1..] == [];
      if id == m.id { UpsertedRow(t, m); } else { RowsOfOthers(t, m, id); }
    }
  }

  /** An upsert leaves one row of the message, with its body. */
  lemma UpsertedRow(t: Tables, m: Message)
    requires |Find(Upserted(t.messages, m), m.id)| == 1
    ensures Lookup(Upsert(t, m).index, m.id) == Listing(Find(Upserted(t.messages, m), m.id))
  {
    var found := Find(Upserted(t.messages, m), m.id);
    var row := Row(m.id, BodyOf(Upserted(t.messages, m), m.id));
    LookupUnindexed(t.index, {m.id}, m.id);
    LookupAppend(Unindexed(t.index, {m.id}), [row], m.id);
    assert Lookup([row], m.id) == [row];
    FindMeansMember(Upserted(t.messages, m), m.id);
    assert found == [found[0]] && found[0] in found;
    assert Listing([found[0]]) == [row];
  }

  lemma RowsOfOthers(t: Tables, m: Message, id: string)
    requires id != m.id
    ensures Lookup(Upsert(t, m).index, id) == Lookup(t.index, id)
  {
    var row := Row(m.id, BodyOf(Upserted(t.messages, m), m.id));
    LookupUnindexed(t.index, {m.id}, id);
    LookupAppend(Unindexed(t.index, {m.id}), [row], id);
  }

  lemma DeleteAgrees(t: Tables, where: Where)
    requires Agrees(t)
    ensures Agrees(Delete(t, where))
  {
    var u := Delete(t, where);
    forall id
      ensures |Find(u.messages, id)| <= 1
      ensures Find(u.messages, id) != [] ==> Lookup(u.index, id) == Listing(Find(u.messages, id))
    {
      FindWithout(t.messages, where, id);
      LookupUnindexed(t.index, Matching(t.messages, where), id);
      OnlyMatchingGo(t.messages, where, id);
    }
  }

  /** With unique ids a surviving message is not among the deleted ids. */
  lemma OnlyMatchingGo(messages: seq<Message>, where: Where, id: string)
    requires |Find(messages, id)| <= 1
    ensures Without(Find(messages, id), where) != [] ==>
              id !in Matching(messages, where) && Without(Find(messages, id), where) == Find(messages, id)
  {
    FindMeansMember(messages, id);
    if Find(messages, id) != [] {
      assert Find(messages, id) == [Find(messages, id)[0]];
      assert Find(messages, id)[1..] == [];
      var found := Find(messages, id)[0];
      forall k | 0 <= k < |messages| && messages[k].id == id ensures messages[k] == found {
        assert messages[k] in Find(messages, id);
      }
      assert Without([found], where) == if where(found) then [] else [found];
    }
  }

  /** Deleting messages behind the index's back leaves rows over, but none wrong. */
  lemma RawDeleteAgrees(t: Tables, where: Where)
    requires Agrees(t)
    ensures Agrees(t.(messages := Without(t.messages, where)))
  {
    forall id
      ensures |Find(Without(t.messages, where), id)| <= 1
      ensures Find(Without(t.messages, where), id) != [] ==>
                Lookup(t.index, id) == Listing(Find(Without(t.messages, where), id))
    {
      FindWithout(t.messages, where, id);
      OnlyMatchingGo(t.messages, where, id);
    }
  }

  lemma MergeAgrees(t: Tables, source: string, target: string)
    requires Agrees(t)
    ensures Agrees(Merge(t, source, target))
  {
    forall id
      ensures |Find(Merge(t, source, target).messages, id)| <= 1
      ensures Listing(Find(Merge(t, source, target).messages, id)) == Listing(Find(t.messages, id))
    {
      FindUpdated(t.messages, Moved(source, target), id);
    }
    forall id | Find(Merge(t, source, target).messages, id) != [] ensures Find(t.messages, id) != [] {
      FindUpdated(t.messages, Moved(source, target), id);
    }
  }

  lemma RebuildIsExact(t: Tables)
    requires UniqueIDs(t.messages)
    ensures Exact(ForceRebuild(t))
  {
    forall id ensures Lookup(Listing(t.messages), id) == Listing(Find(t.messages, id)) {
      LookupListing(t.messages, id);
    }
  }

  lemma UpdateAgrees(t: Tables, change: Message -> Message)
    requires UniqueIDs(t.messages) && forall m :: change(m).id == m.id
    ensures UniqueIDs(Updated(t.messages, change))
  {
    forall id ensures |Find(Updated(t.messages, change), id)| <= 1 {
      FindUpdated(t.messages, change, id);
    }
  }

  lemma RepairAgrees(t: Tables, junk: Where, blank: Where)
    requires Agrees(t)
    ensures Agrees(Repair(t, junk, blank))
  {
    var kept := Without(t.messages, junk);
    RawDeleteAgrees(t, junk);
    UpdateAgrees(t.(messages := kept), FilledIn(blank));
    RebuildIsExact(RepairTables(t, junk, blank));
    MatchingMeans(kept, blank);
    if Matching(kept, blank) == {} { NothingFilledIn(kept, blank); }
  }

  /** Bodies that read as if filled in already stay as they are. */
  lemma {:induction false} NothingFilledIn(messages: seq<Message>, blank: Where)
    requires forall m :: m in messages && blank(m) ==> m.body == REPAIRED_BODY
    ensures Updated(messages, FilledIn(blank)) == messages
  {
    if messages != [] { NothingFilledIn(messages[1..], blank); }
  }

  lemma MatchingMeans(messages: seq<Message>, where: Where)
    ensures forall m :: m in messages && where(m) ==> m.id in Matching(messages, where)
  {
  }

  // ------------------------------------------------ whole runs

  datatype Op =
    | Deliver(m: Message)
    | DeleteWhere(where: Where)
    | KnowConversation(id: string)  // UpsertConversation
    | DropConversation(id: string)
    | MergeConversations(source: string, target: string)
    | RepairStore(junk: Where, blank: Where)
    | Restart                      // rebuildFTS

  function Apply(t: Tables, op: Op): Tables {
    match op
    case Deliver(m) => Upsert(t, m)
    case DeleteWhere(where) => Delete(t, where)
    case KnowConversation(id) => Known(t, id)
    case DropConversation(id) => if Blank(id) then t else DeleteConversation(t, id)
    case MergeConversations(source, target) =>
      Merge(t, source, target)
    case RepairStore(junk, blank) => Repair(t, junk, blank)
    case Restart => Rebuild(t)
  }

  function After(t: Tables, ops: seq<Op>): Tables {
    if ops == [] then t else Apply(After(t, ops[..|ops| - 1]), ops[|ops| - 1])
  }

  lemma ApplyAgrees(t: Tables, op: Op)
    requires Agrees(t)
    ensures Agrees(Apply(t, op))
  {
    match op
    case Deliver(m) => UpsertAgrees(t, m);
    case DeleteWhere(where) => DeleteAgrees(t, where);
    case KnowConversation(_) =>
    case DropConversation(id) => RawDeleteAgrees(t, InConversation(id));
    case MergeConversations(source, target) => MergeAgrees(t, source, target);
    case RepairStore(junk, blank) => RepairAgrees(t, junk, blank);
    case Restart => RebuildIsExact(t);
  }

  /** After any sequence of operations each message has exactly one index row, carrying its body. */
  lemma {:induction false} RunAgrees(t: Tables, ops: seq<Op>)
    requires Agrees(t)
    ensures Agrees(After(t, ops))
  {
    if ops != [] {
      RunAgrees(t, ops[..|ops| - 1]);
      ApplyAgrees(After(t, ops[..|ops| - 1]), ops[|ops| - 1]);
    }
  }

  // ------------------------------------------------ what a search returns

  /** The message of this id exists and passes the filters on messages. */
  predicate Joins(messages: seq<Message>, id: string, where: Where) {
    Find(messages, id) != [] && where(Find(messages, id)[0])
  }

  /** The joined search: an index row counts if its body matches and its message exists and
      passes the filters. */
  function Search(index: seq<Row>, messages: seq<Message>, matches: string -> bool, where: Where): seq<string> {
    if index == [] then []
    else (if matches(index[0].body) && Joins(messages, index[0].id, where) then [index[0].id] else [])
         + Search(index[1..], messages, matches, where)
  }

  lemma {:induction false} SearchCounts(index: seq<Row>, messages: seq<Message>, matches: string -> bool, where: Where, id: string)
    ensures multiset(Search(index, messages, matches, where))[id] ==
              if !Joins(messages, id, where) then 0 else |Search(Lookup(index, id), messages, matches, where)|
  {
    if index != [] {
      var row := index[0];
      var head := if matches(row.body) && Joins(messages, row.id, where) then [row.id] else [];
      var (tail, rest) := (Search(index[1..], messages, matches, where), Lookup(index[1..], id));
      SearchCounts(index[1..], messages, matches, where, id);
      assert multiset(head + tail) == multiset(head) + multiset(tail);
      if row.id == id {
        assert ([row] + rest)[1..] == rest;
        assert Lookup(index, id) == [row] + rest;
      } else {
        assert Lookup(index, id) == rest;
      }
    }
  }

  lemma SearchOneRow(m: Message, messages: seq<Message>, matches: string -> bool, where: Where)
    requires Find(messages, m.id) == [m]
    ensures Search(Listing([m]), messages, matches, where) == if matches(m.body) && where(m) then [m.id] else []
  {
    assert Listing([m]) == [Row(m.id, m.body)];
    assert [Row(m.id, m.body)][1..] == [];
  }

  lemma SearchAgreeing(u: Tables, matches: string -> bool, where: Where, id: string)
    requires Agrees(u)
    ensures multiset(Search(u.index, u.messages, matches, where))[id] ==
              if Joins(u.messages, id, where) && matches(Find(u.messages, id)[0].body) then 1 else 0
  {
    SearchCounts(u.index, u.messages, matches, where, id);
    FindMeansMember(u.messages, id);
    hide Find, Lookup, Listing, Search;
    var found := Find(u.messages, id);
    if found != [] {
      assert found == [found[0]] && found[0] in found;
      SearchOneRow(found[0], u.messages, matches, where);
    }
  }

  /** A search returns each message that matches and passes the filters exactly once, and
      nothing else. */
  lemma SearchIsComplete(t: Tables, ops: seq<Op>, matches: string -> bool, where: Where, id: string)
    requires Agrees(t)
    ensures var u := After(t, ops);
            multiset(Search(u.index, u.messages, matches, where))[id] ==
              if Joins(u.messages, id, where) && matches(Find(u.messages, id)[0].body) then 1 else 0
  {
    hide After, Find, Search, Agrees;
    RunAgrees(t, ops);
    SearchAgreeing(After(t, ops), matches, where, id);
  }

  // ------------------------------------------------ what each operation makes of a message

  predicate Delivers(op: Op, id: string) { op.Deliver? && op.m.id == id }

  predicate Deletes(op: Op, m: Message) {
    match op
    case DeleteWhere(where) => where(m)
    case DropConversation(id) => !Blank(id) && m.conversationID == id
    case RepairStore(junk, _) => junk(m)
    case _ => false
  }

  predicate Merges(t: Tables, op: Op) {
    && op.MergeConversations? && op.source != "" && op.target != "" && op.source != op.target
    && op.source in t.conversations
  }

  /** A message is there after an operation exactly if it was delivered, or was there and
      was not deleted. */
  lemma SurvivesIff(t: Tables, op: Op, id: string)
    requires Agrees(t)
    ensures Find(Apply(t, op).messages, id) != [] <==>
              Delivers(op, id) || (Find(t.messages, id) != [] && !Deletes(op, Find(t.messages, id)[0]))
  {
    var found := Find(t.messages, id);
    assert found != [] ==> found[1..] == [];
    match op
    case Deliver(m) => FindUpserted(t.messages, m, id);
    case DeleteWhere(where) => FindWithout(t.messages, where, id);
    case KnowConversation(_) =>
    case DropConversation(c) => FindWithout(t.messages, InConversation(c), id);
    case MergeConversations(source, target) => FindUpdated(t.messages, Moved(source, target), id);
    case RepairStore(junk, blank) =>
      FindWithout(t.messages, junk, id);
      FindUpdated(Without(t.messages, junk), FilledIn(blank), id);
    case Restart =>
  }

  /** The columns of a message that was there before and is there after: content and
      timestamp are what was delivered only if that is worth keeping, the rest is what was
      delivered in any case; a merge moves it, and a repair fills it in. */
  ghost predicate ColumnsBecome(t: Tables, op: Op, was: Message, now: Message) {
    var delivered := Delivers(op, was.id);
    && now.id == was.id
    && now.status == (if delivered then op.m.status else was.status)
    && now.mediaID == (if delivered && op.m.mediaID != "" then op.m.mediaID else was.mediaID)
    && now.timestampMS == (if delivered && op.m.timestampMS > 0 then op.m.timestampMS else was.timestampMS)
    && now.conversationID ==
         (if delivered then op.m.conversationID
          else if Merges(t, op) && was.conversationID == op.source then op.target
          else was.conversationID)
    && now.body ==
         (if delivered && op.m.body != "" then op.m.body
          else if op.RepairStore? && op.blank(was) then REPAIRED_BODY
          else was.body)
  }

  ghost predicate Becomes(t: Tables, op: Op, before: seq<Message>, after: seq<Message>) {
    after != [] ==>
      if before == [] then op.Deliver? && after == [op.m]
      else |after| == 1 && ColumnsBecome(t, op, before[0], after[0])
  }

  /** Every operation acts on the message of every id as said; only a delivery makes one. */
  lemma MessageBecomes(t: Tables, op: Op, id: string)
    requires Agrees(t)
    ensures Becomes(t, op, Find(t.messages, id), Find(Apply(t, op).messages, id))
  {
    FindMeansMember(t.messages, id);
    var found := Find(t.messages, id);
    assert found != [] ==> found == [found[0]] && found[0] in found;
    hide Find, Agrees, Blank, Upserted, Without, Updated, Upsert, Delete, Repair, Merge, DeleteConversation, Rebuild, Merges, ColumnsBecome;
    match op
    case Deliver(m) => UpsertBecomes(t, m, id);
    case DeleteWhere(where) => DeleteBecomes(t, op, where, id);
    case KnowConversation(_) => Unchanged(t, op, found);
    case DropConversation(c) =>
      if Blank(c) { Unchanged(t, op, found); } else { DeleteBecomes(t, op, InConversation(c), id); }
    case MergeConversations(source, target) => MergeBecomes(t, source, target, id);
    case RepairStore(junk, blank) => RepairBecomes(t, junk, blank, id);
    case Restart => Unchanged(t, op, found);
  }

  lemma Unchanged(t: Tables, op: Op, found: seq<Message>)
    requires op.KnowConversation? || op.DropConversation? || op.DeleteWhere? || op.Restart?
    requires |found| <= 1
    ensures Becomes(t, op, found, found)
  {
  }

  /** The one row an operation rewrites, by itself. */
  lemma RowBecomes(t: Tables, op: Op, was: Message)
    ensures op.Deliver? ==> ColumnsBecome(t, op, was, if was.id == op.m.id then Merged(was, op.m) else was)
    ensures op.MergeConversations? ==>
              ColumnsBecome(t, op, was, if Merges(t, op) then Moved(op.source, op.target)(was) else was)
    ensures op.RepairStore? ==> ColumnsBecome(t, op, was, FilledIn(op.blank)(was))
  {
  }

  lemma UpsertBecomes(t: Tables, m: Message, id: string)
    requires |Find(t.messages, id)| <= 1 && forall n :: n in Find(t.messages, id) ==> n.id == id
    ensures Becomes(t, Deliver(m), Find(t.messages, id), Find(Upsert(t, m).messages, id))
  {
    hide Find, Upserted, Synced, BodyOf, Merges, Merged, ColumnsBecome;
    FindUpserted(t.messages, m, id);
    var found := Find(t.messages, id);
    if found != [] {
      assert found[0] in found && found[1..] == [];
      RowBecomes(t, Deliver(m), found[0]);
    }
  }

  lemma DeleteBecomes(t: Tables, op: Op, where: Where, id: string)
    requires op.DropConversation? || op.DeleteWhere?
    requires |Find(t.messages, id)| <= 1
    ensures Becomes(t, op, Find(t.messages, id), Find(Without(t.messages, where), id))
  {
    OneKept(t.messages, where, id);
  }

  lemma MergeBecomes(t: Tables, source: string, target: string, id: string)
    requires |Find(t.messages, id)| <= 1
    ensures Becomes(t, MergeConversations(source, target), Find(t.messages, id), Find(Merge(t, source, target).messages, id))
  {
    hide Find, Updated, ColumnsBecome;
    OneUpdated(t.messages, Moved(source, target), id);
    var found := Find(t.messages, id);
    if found != [] { RowBecomes(t, MergeConversations(source, target), found[0]); }
  }

  lemma RepairBecomes(t: Tables, junk: Where, blank: Where, id: string)
    requires |Find(t.messages, id)| <= 1
    ensures Becomes(t, RepairStore(junk, blank), Find(t.messages, id), Find(Repair(t, junk, blank).messages, id))
  {
    hide Find, Updated, Without, Matching, ColumnsBecome, FilledIn;
    OneKept(t.messages, junk, id);
    OneUpdated(Without(t.messages, junk), FilledIn(blank), id) by { FillingKeepsIDs(blank); }
    assert Repair(t, junk, blank).messages == RepairTables(t, junk, blank).messages;
    hide Repair, ForceRebuild;
    var found := Find(t.messages, id);
    if found != [] { RowBecomes(t, RepairStore(junk, blank), found[0]); }
  }

  lemma FillingKeepsIDs(blank: Where)
    ensures forall m :: FilledIn(blank)(m).id == m.id
  {
  }

  lemma OneUpdated(messages: seq<Message>, change: Message -> Message, id: string)
    requires |Find(messages, id)| <= 1 && forall m :: change(m).id == m.id
    ensures var found := Find(messages, id);
            Find(Updated(messages, change), id) == if found == [] then [] else [change(found[0])]
  {
    FindUpdated(messages, change, id);
    var found := Find(messages, id);
    assert found != [] ==> found[1..] == [];
  }

  lemma OneKept(messages: seq<Message>, where: Where, id: string)
    requires |Find(messages, id)| <= 1
    ensures var found := Find(messages, id);
            Find(Without(messages, where), id) == if found != [] && where(found[0]) then [] else found
  {
    FindWithout(messages, where, id);
    var found := Find(messages, id);
    assert found != [] ==> found[1..] == [];
  }

  /** Only a merge or an explicit mention adds a conversation, only a merge or an explicit
      delete drops one. */
  lemma ConversationIsKnownIff(t: Tables, op: Op, c: string)
    ensures c in Apply(t, op).conversations <==>
              || (op.KnowConversation? && op.id == c)
              || (Merges(t, op) && op.target == c)
              || (c in t.conversations && !(op.DropConversation? && op.id == c && !Blank(c)) && !(Merges(t, op) && op.source == c))
  {
  }

  /** The index rows of an id go with its message, and no other rows do. */
  lemma DeleteClearsRows(t: Tables, where: Where, id: string)
    requires Agrees(t)
    ensures var (found, u) := (Find(t.messages, id), Delete(t, where));
            Lookup(u.index, id) == if found != [] && where(found[0]) then [] else Lookup(t.index, id)
  {
    LookupUnindexed(t.index, Matching(t.messages, where), id);
    FindMeansMember(t.messages, id);
    MatchingMeans(t.messages, where);
    var found := Find(t.messages, id);
    assert found != [] ==> found[0] in found;
    if found != [] && !where(found[0]) {
      assert found == [found[0]];
      assert forall m :: m in t.messages && m.id == id ==> m in found;
    }
  }

  /** Without a conversation dropped behind its back the index stays exact. */
  lemma ApplyIsExact(t: Tables, op: Op)
    requires Exact(t) && !op.DropConversation?
    ensures Exact(Apply(t, op))
  {
    ApplyAgrees(t, op);
    if op.RepairStore? {
      RepairIsExact(t, op.junk, op.blank);
    } else if op.Restart? {
      RebuildIsExact(t);
    } else {
      forall id | Find(Apply(t, op).messages, id) == [] ensures Lookup(Apply(t, op).index, id) == [] {
        SurvivesIff(t, op, id);
        if op.DeleteWhere? { DeleteClearsRows(t, op.where, id); }
        if op.Deliver? { RowsOfOthers(t, op.m, id); }
      }
    }
  }

  lemma RepairIsExact(t: Tables, junk: Where, blank: Where)
    requires Exact(t)
    ensures Exact(Repair(t, junk, blank))
  {
    RepairedIsUnique(t, junk, blank);
    RebuildIsExact(RepairTables(t, junk, blank));
    var kept := Without(t.messages, junk);
    MatchingMeans(kept, blank);
    NoneGone(t.messages, junk);
    hide Exact, Without, Matching;
    if Matching(kept, blank) == {} && |kept| == |t.messages| { NothingFilledIn(kept, blank); }
  }

  /** A repair that finds nothing to delete and nothing to fill in leaves the index alone. */
  lemma RepairOfCleanStore(t: Tables, junk: Where, blank: Where)
    requires forall m :: m in t.messages ==> !junk(m) && !blank(m)
    ensures Repair(t, junk, blank) == t
  {
    NothingDeleted(t.messages, junk);
    NothingFilledIn(t.messages, blank);
  }

  lemma {:induction false} NoneGone(messages: seq<Message>, where: Where)
    ensures |Without(messages, where)| <= |messages|
    ensures |Without(messages, where)| == |messages| ==> Without(messages, where) == messages
  {
    if messages != [] { NoneGone(messages[1..], where); }
  }

  /** So while no conversation is dropped, every run keeps the index exactly the table. */
  lemma {:induction false} RunIsExact(t: Tables, ops: seq<Op>)
    requires Exact(t) && forall op :: op in ops ==> !op.DropConversation?
    ensures Exact(After(t, ops))
  {
    hide Exact, Apply;
    if ops != [] {
      RunIsExact(t, ops[..|ops| - 1]);
      ApplyIsExact(After(t, ops[..|ops| - 1]), ops[|ops| - 1]);
    }
  }

  // ------------------------------------------------ columns over whole runs

  /** The delivery whose column stands: the last one that is worth keeping, or else the one
      that made the message, or what was there at the start. */
  function Source(t: Tables, ops: seq<Op>, id: string, worth: Where): Option<Message> {
    if ops == [] then (var found := Find(t.messages, id); if found == [] then None else Some(found[0]))
    else
      var (before, op) := (ops[..|ops| - 1], ops[|ops| - 1]);
      if Delivers(op, id) && (worth(op.m) || Find(After(t, before).messages, id) == []) then Some(op.m)
      else Source(t, before, id, worth)
  }

  /** The conversation named by the last delivery, followed through the merges since. */
  function Placed(t: Tables, ops: seq<Op>, id: string): string {
    if ops == [] then (var found := Find(t.messages, id); if found == [] then "" else found[0].conversationID)
    else
      var (before, op) := (ops[..|ops| - 1], ops[|ops| - 1]);
      if Delivers(op, id) then op.m.conversationID
      else if Merges(After(t, before), op) && Placed(t, before, id) == op.source then op.target
      else Placed(t, before, id)
  }

  const Always: Where := (m: Message) => true
  const HasMedia: Where := (m: Message) => m.mediaID != ""
  const HasTime: Where := (m: Message) => m.timestampMS > 0

  /** A status is the last one delivered, whatever else that delivery left empty; media and
      timestamp are the last ones delivered that were set; and the conversation is the last
      one delivered, followed through merges. */
  lemma {:induction false} ColumnsAreLastDelivered(t: Tables, ops: seq<Op>, id: string)
    requires Agrees(t) && Find(After(t, ops).messages, id) != []
    ensures var stored := Find(After(t, ops).messages, id)[0];
            var (status, media, time) := (Source(t, ops, id, Always), Source(t, ops, id, HasMedia), Source(t, ops, id, HasTime));
            && status.Some? && stored.status == status.value.status
            && media.Some? && stored.mediaID == media.value.mediaID
            && time.Some? && stored.timestampMS == time.value.timestampMS
            && stored.conversationID == Placed(t, ops, id)
  {
    if ops != [] {
      var (before, op) := (ops[..|ops| - 1], ops[|ops| - 1]);
      RunAgrees(t, before);
      FindMeansMember(After(t, before).messages, id);
      MessageBecomes(After(t, before), op, id);
      hide Apply, Agrees;
      var found := Find(After(t, before).messages, id);
      if found != [] {
        assert found[0] in found;
        ColumnsAreLastDelivered(t, before, id);
      } else {
        SurvivesIff(After(t, before), op, id) by { RunAgrees(t, before); }
      }
    }
  }

  // ------------------------------------------------ what the merged body is

  /** The last non-empty body delivered for `id` while its message lasted, read backwards. */
  function LastBody(t: Tables, ops: seq<Op>, id: string): string {
    if ops == [] then BodyOf(t.messages, id)
    else
      var (before, op) := (ops[..|ops| - 1], ops[|ops| - 1]);
      if op.Deliver? && op.m.id == id && op.m.body != "" then op.m.body
      else if op.RepairStore? && (exists m :: m in Find(After(t, before).messages, id) && !op.junk(m) && op.blank(m)) then REPAIRED_BODY
      else if Find(After(t, before).messages, id) == [] then ""
      else LastBody(t, before, id)
  }

  /** The one message an update or delete leaves for an id. */
  lemma ApplyToBody(t: Tables, op: Op, id: string)
    requires Agrees(t) && Find(Apply(t, op).messages, id) != []
    ensures BodyOf(Apply(t, op).messages, id) ==
              if op.Deliver? && op.m.id == id && op.m.body != "" then op.m.body
              else if op.RepairStore? && (exists m :: m in Find(t.messages, id) && !op.junk(m) && op.blank(m)) then REPAIRED_BODY
              else BodyOf(t.messages, id)
  {
    MessageBecomes(t, op, id);
    SurvivesIff(t, op, id);
    FindMeansMember(t.messages, id);
    hide Find, Apply, Agrees, Blank, Merges;
    var found := Find(t.messages, id);
    assert found != [] ==> found == [found[0]] && found[0] in found;
  }

  /** The stored body, and with it the indexed one, is the last non-empty body delivered. */
  lemma {:induction false} BodyIsLastDelivered(t: Tables, ops: seq<Op>, id: string)
    requires Agrees(t) && Find(After(t, ops).messages, id) != []
    ensures BodyOf(After(t, ops).messages, id) == LastBody(t, ops, id)
    ensures Lookup(After(t, ops).index, id) == [Row(id, LastBody(t, ops, id))]
  {
    RunAgrees(t, ops);
    if ops != [] {
      var (before, op) := (ops[..|ops| - 1], ops[|ops| - 1]);
      RunAgrees(t, before);
      ApplyToBody(After(t, before), op, id);
      if Find(After(t, before).messages, id) != [] { BodyIsLastDelivered(t, before, id); }
    }
    var found := Find(After(t, ops).messages, id);
    FindMeansMember(After(t, ops).messages, id);
    assert found == [found[0]] && found[0] in found;
    assert Listing(found) == [Row(id, found[0].body)];
  }

  // ------------------------------------------------ counts, and rows left over

  lemma {:induction false} CountsAreLookups(index: seq<Row>, r: Row)
    ensures multiset(index)[r] == multiset(Lookup(index, r.id))[r]
  {
    if index != [] {
      CountsAreLookups(index[1..], r);
      assert index == [index[0]] + index[1..];
    }
  }

  lemma {:induction false} ListingLength(messages: seq<Message>)
    ensures |Listing(messages)| == |messages|
  {
    if messages != [] { ListingLength(messages[1..]); }
  }

  /** While the tables agree, equal row counts mean that the index is exactly the table:
      the cheap check of rebuildFTS never skips a rebuild that is needed. */
  lemma EqualCountsAreExact(t: Tables)
    requires Agrees(t)
    ensures multiset(Listing(t.messages)) <= multiset(t.index)
    ensures |t.index| == |t.messages| ==> multiset(t.index) == multiset(Listing(t.messages))
    ensures Exact(Rebuild(t))
  {
    var (listed, indexed) := (multiset(Listing(t.messages)), multiset(t.index));
    forall r ensures listed[r] <= indexed[r] {
      CountsAreLookups(Listing(t.messages), r);
      CountsAreLookups(t.index, r);
      LookupListing(t.messages, r.id);
    }
    ListingLength(t.messages);
    if |t.index| == |t.messages| {
      assert |indexed - listed| == 0;
      assert indexed == listed;
      forall id | Find(t.messages, id) == [] ensures Lookup(t.index, id) == [] {
        LookupListing(t.messages, id);
        NoRowNoLookup(t.messages, t.index, id);
      }
    } else {
      RebuildIsExact(t);
    }
  }

  lemma NoRowNoLookup(messages: seq<Message>, index: seq<Row>, id: string)
    requires multiset(index) == multiset(Listing(messages)) && Find(messages, id) == []
    ensures Lookup(index, id) == []
  {
    LookupListing(messages, id);
    LookupFinds(index, id);
    var found := Lookup(index, id);
    forall r: Row ensures multiset(found)[r] == 0 {
      CountsAreLookups(index, r);
      CountsAreLookups(Listing(messages), r);
    }
    assert |multiset(found)| == 0;
  }

  lemma {:induction false} LookupFinds(index: seq<Row>, id: string)
    ensures forall r :: r in Lookup(index, id) ==> r.id == id
  {
    if index != [] { LookupFinds(index[1..], id); }
  }

  /** DeleteConversation leaves stale index rows exactly when the conversation has messages. */
  lemma DropIsExactIffEmpty(t: Tables, id: string)
    requires Exact(t)
    ensures Exact(DeleteConversation(t, id)) <==> (forall m :: m in t.messages ==> m.conversationID != id)
  {
    var u := DeleteConversation(t, id);
    RawDeleteAgrees(t, InConversation(id));
    if m :| m in t.messages && m.conversationID == id {
      FindMeansMember(t.messages, m.id);
      FindWithout(t.messages, InConversation(id), m.id);
      assert Find(t.messages, m.id) == [m];
      assert Find(u.messages, m.id) == [];
      assert Lookup(u.index, m.id) == Listing([m]);
    } else {
      NothingDeleted(t.messages, InConversation(id));
    }
  }

  lemma {:induction false} NothingDeleted(messages: seq<Message>, where: Where)
    requires forall m :: m in messages ==> !where(m)
    ensures Without(messages, where) == messages
  {
    if messages != [] { NothingDeleted(messages[1..], where); }
  }

  /** Between the transaction of a repair and the rebuild it forces, the index agrees with
      the table exactly when no surviving body was filled in with a new text. */
  lemma InterruptedRepairAgreesIff(t: Tables, junk: Where, blank: Where)
    requires Agrees(t)
    ensures Agrees(RepairTables(t, junk, blank)) <==>
              (forall m :: m in Without(t.messages, junk) && blank(m) ==> m.body == REPAIRED_BODY)
  {
    hide Agrees, Without;
    var kept := t.(messages := Without(t.messages, junk));
    RawDeleteAgrees(t, junk);
    assert RepairTables(t, junk, blank) == kept.(messages := Updated(kept.messages, FilledIn(blank)));
    if m :| m in kept.messages && blank(m) && m.body != REPAIRED_BODY {
      NewBodyDisagrees(kept, blank, m);
    } else {
      SameBodiesAgree(kept, blank);
    }
  }

  lemma NewBodyDisagrees(t: Tables, blank: Where, m: Message)
    requires Agrees(t) && m in t.messages && blank(m) && m.body != REPAIRED_BODY
    ensures !Agrees(t.(messages := Updated(t.messages, FilledIn(blank))))
  {
    FindMeansMember(t.messages, m.id);
    OneUpdated(t.messages, FilledIn(blank), m.id);
    assert Find(t.messages, m.id) == [m];
    hide Find, Lookup, Updated;
    assert Listing([m]) == [Row(m.id, m.body)];
    assert Listing([FilledIn(blank)(m)]) == [Row(m.id, REPAIRED_BODY)];
  }

  lemma SameBodiesAgree(t: Tables, blank: Where)
    requires Agrees(t) && forall m :: m in t.messages && blank(m) ==> m.body == REPAIRED_BODY
    ensures Agrees(t.(messages := Updated(t.messages, FilledIn(blank))))
  {
    NothingFilledIn(t.messages, blank);
  }

  /** If the rebuild never comes, the next restart repairs the index, unless the row counts
      are equal and a surviving body was filled in: then it stays wrong. */
  lemma RestartAfterInterruptedRepair(t: Tables, junk: Where, blank: Where)
    requires Agrees(t)
    ensures var u := RepairTables(t, junk, blank);
            Agrees(Rebuild(u)) <==>
              !(|u.index| == |u.messages|
                && exists m :: m in Without(t.messages, junk) && blank(m) && m.body != REPAIRED_BODY)
  {
    hide RepairTables;
    var u := RepairTables(t, junk, blank);
    InterruptedRepairAgreesIff(t, junk, blank);
    RepairedIsUnique(t, junk, blank);
    RebuildIsExact(u);
  }

  lemma RepairedIsUnique(t: Tables, junk: Where, blank: Where)
    requires Agrees(t)
    ensures UniqueIDs(RepairTables(t, junk, blank).messages)
  {
    RawDeleteAgrees(t, junk);
    UpdateAgrees(t.(messages := Without(t.messages, junk)), FilledIn(blank));
  }

  /** A store with one blank message whose repair was interrupted: the counts are equal, and
      the restart keeps the old body in the index. */
  lemma RestartCanKeepStaleBody()
    ensures exists t, junk, blank ::
              Exact(t) && !Agrees(Rebuild(RepairTables(t, junk, blank)))
  {
    var m := Message("m", "c", "", "", 1, "received");
    var t := Tables([m], [Row("m", "")], {"c"});
    var junk: Where := (n: Message) => false;
    var blank: Where := (n: Message) => n.body == "";
    assert t.messages[1..] == [] && t.index[1..] == [];
    assert Exact(t) by {
      assert forall id :: Find(t.messages, id) == if id == "m" then [m] else [];
      assert forall id :: Lookup(t.index, id) == if id == "m" then [Row("m", "")] else [];
    }
    assert Without(t.messages, junk) == [m];
    var u := RepairTables(t, junk, blank);
    assert [m][1..] == [] && Updated([m], FilledIn(blank)) == [FilledIn(blank)(m)];
    assert |u.messages| == 1;
    assert m in Without(t.messages, junk);
    RestartAfterInterruptedRepair(t, junk, blank);
  }
}
