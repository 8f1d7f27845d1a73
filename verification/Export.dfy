/** The paged export: cmd/export.go (loadExportMessages), the after-cursor query of
    internal/db/messages.go, and SortChronological and Range of internal/export/export.go. */
module Export {
  import opened Strings
  import opened Timeline

  /** Inclusive; a zero side is unbounded. */
  datatype Range = Range(sinceMS: int, untilMS: int)

  predicate Contains(r: Range, at: int) {
    (r.sinceMS == 0 || at >= r.sinceMS) && (r.untilMS == 0 || at <= r.untilMS)
  }

  function Within(r: Range): Where { (m: Message) => Contains(r, m.timestampMS) }

  /** The range as the loader reads it: an `until` that is not positive is open. */
  function Read(r: Range): Range { r.(untilMS := if r.untilMS > 0 then r.untilMS else 0) }

  /** What an export should hold: the messages of the window, oldest first. */
  function Window(table: seq<Message>, conversationID: string, r: Range): seq<Message> {
    Filter(Sort(Filter(table, In(conversationID))), Within(r))
  }

  /** The window holds exactly the messages of the conversation from `since` to `until`, both
      included, each bound only if it is set; and it holds them in order. */
  lemma WindowIs(table: seq<Message>, conversationID: string, r: Range)
    requires Keyed(table)
    ensures Ascending(Window(table, conversationID, r))
    ensures forall m :: m in Window(table, conversationID, r) <==>
              && m in table && m.conversationID == conversationID
              && !(r.sinceMS != 0 && m.timestampMS < r.sinceMS) && !(r.untilMS != 0 && m.timestampMS > r.untilMS)
  {
    hide Filter, Sort, Keyed, Ascending;
    var found := Filter(table, In(conversationID));
    FilterKeyed(table, In(conversationID));
    SortAscends(found);
    FilterAscends(Sort(found), Within(r));
    SortMembers(found);
    forall m ensures m in Window(table, conversationID, r) <==> m in table && In(conversationID)(m) && Within(r)(m) {
      FilterMembers(Sort(found), Within(r), m);
      FilterMembers(table, In(conversationID), m);
      assert m in Sort(found) <==> m in multiset(found);
    }
  }

  // ------------------------------------------------ the query

  datatype Cursor = Cursor(ms: int, id: string)

  predicate Past(m: Message, c: Cursor) {
    m.timestampMS > c.ms || (c.id != "" && m.timestampMS == c.ms && Less(c.id, m.messageID))
  }

  function PastCursor(c: Cursor): Where { (m: Message) => Past(m, c) }

  function Take(s: seq<Message>, limit: nat): seq<Message> { if |s| <= limit then s else s[..limit] }

  /** GetMessagesByConversationAfter: WHERE, ORDER BY and LIMIT. */
  function QueryAfter(table: seq<Message>, conversationID: string, c: Cursor, limit: nat): seq<Message> {
    Take(Sort(Filter(Filter(table, In(conversationID)), PastCursor(c))), limit)
  }

  // ------------------------------------------------ SortChronological

  /** Drops every message whose non-empty id was seen before. */
  function Dedup(s: seq<Message>): seq<Message> {
    if s == [] then []
    else
      var (init, last) := (s[..|s| - 1], s[|s| - 1]);
      Dedup(init) + if last.messageID != "" && exists i :: 0 <= i < |init| && init[i].messageID == last.messageID
                    then [] else [last]
  }

  /** The message at `k` has no id, or is the first with its id. */
  predicate IsFirst(s: seq<Message>, k: nat)
    requires k < |s|
  {
    s[k].messageID != "" ==> forall i :: 0 <= i < k ==> s[i].messageID != s[k].messageID
  }

  ghost predicate Rises(ks: seq<nat>, n: nat) {
    && (forall i :: 0 <= i < |ks| ==> ks[i] < n)
    && forall i, j :: 0 <= i < j < |ks| ==> ks[i] < ks[j]
  }

  /** What is kept is, in order, exactly every message without an id and the first message
      of every id. */
  lemma {:induction false} DedupKeepsFirsts(s: seq<Message>) returns (kept: seq<nat>)
    ensures Rises(kept, |s|) && |Dedup(s)| == |kept|
    ensures forall i :: 0 <= i < |kept| ==> Dedup(s)[i] == s[kept[i]]
    ensures forall k :: 0 <= k < |s| ==> (IsFirst(s, k) <==> k in kept)
  {
    if s == [] { return []; }
    var (init, last) := (s[..|s| - 1], |s| - 1);
    var before := DedupKeepsFirsts(init);
    DedupStep(s);
    hide Dedup;
    forall k | 0 <= k < last ensures IsFirst(s, k) <==> k in before { FirstInInit(s, k); }
    assert last !in before;
    kept := before + if IsFirst(s, last) then [last] else [];
  }

  lemma FirstInInit(s: seq<Message>, k: nat)
    requires k < |s| - 1
    ensures IsFirst(s, k) <==> IsFirst(s[..|s| - 1], k)
  {
  }

  lemma DedupStep(s: seq<Message>)
    requires s != []
    ensures Dedup(s) == Dedup(s[..|s| - 1]) + if IsFirst(s, |s| - 1) then [s[|s| - 1]] else []
  {
    var (init, id) := (s[..|s| - 1], s[|s| - 1].messageID);
    if IsFirst(s, |s| - 1) {
      assert forall i :: 0 <= i < |init| ==> init[i] == s[i];
      assert id == "" || !exists i :: 0 <= i < |init| && init[i].messageID == id;
    } else {
      var i :| 0 <= i < |init| && s[i].messageID == id;
      assert init[i].messageID == id;
    }
  }

  /** So no id is left twice. */
  lemma DedupIsDistinct(s: seq<Message>, i: nat, j: nat)
    requires i < j < |Dedup(s)| && Dedup(s)[i].messageID != ""
    ensures Dedup(s)[i].messageID != Dedup(s)[j].messageID
  {
    var kept := DedupKeepsFirsts(s);
    assert kept[j] in kept && IsFirst(s, kept[j]);
    assert kept[i] < kept[j];
  }

  method SortChronological(msgs: seq<Message>) returns (out: seq<Message>)
    ensures out == Sort(Dedup(msgs))
  {
    var seen: set<string> := {};
    out := [];
    for k := 0 to |msgs|
      invariant out == Dedup(msgs[..k])
      invariant seen == set i | 0 <= i < k && msgs[i].messageID != "" :: msgs[i].messageID
    {
      var m := msgs[k];
      assert msgs[..k + 1][..k] == msgs[..k];
      if m.messageID != "" {
        if m.messageID in seen {
          continue;
        }
        seen := seen + {m.messageID};
      }
      out := out + [m];
    }
    assert msgs[..|msgs|] == msgs;
    out := Sort(out);
  }

  /** On a chronological list without repeated ids the final sort and dedup change nothing. */
  lemma {:induction false} ChronologicalIsKept(s: seq<Message>)
    requires Ascending(s) && Keyed(s)
    ensures Dedup(s) == s && Sort(Dedup(s)) == s
  {
    if s != [] { ChronologicalIsKept(s[..|s| - 1]); }
    SortIsIdentity(s);
  }

  // ------------------------------------------------ pages

  /** All messages of the conversation past the cursor, in order. */
  function Rest(table: seq<Message>, conversationID: string, c: Cursor): seq<Message> {
    Filter(Sort(Filter(table, In(conversationID))), PastCursor(c))
  }

  lemma QueryIsRest(table: seq<Message>, conversationID: string, c: Cursor, limit: nat)
    requires Keyed(table)
    ensures QueryAfter(table, conversationID, c, limit) == Take(Rest(table, conversationID, c), limit)
    ensures Ascending(Rest(table, conversationID, c)) && Keyed(Rest(table, conversationID, c))
  {
    FilterKeyed(table, In(conversationID));
    SortFilter(Filter(table, In(conversationID)), PastCursor(c));
    FilterKeyed(Filter(table, In(conversationID)), PastCursor(c));
    SortKeyed(Filter(Filter(table, In(conversationID)), PastCursor(c)));
  }

  lemma SortKeyed(s: seq<Message>)
    requires Keyed(s)
    ensures Keyed(Sort(s))
  {
    SortMembers(s);
    SortAscends(s);
    var sorted := Sort(s);
    forall i, j | 0 <= i < j < |sorted| ensures sorted[i].messageID != sorted[j].messageID {
      BeforeIsTotal(sorted[i], sorted[j]);
      BeforeIsTotal(sorted[j], sorted[j]);
      assert sorted[i] in multiset(s) && sorted[j] in multiset(s);
      OneMessagePerKey(s, sorted[i], sorted[j]);
    }
  }

  lemma OneMessagePerKey(s: seq<Message>, m: Message, n: Message)
    requires Keyed(s) && m in s && n in s && m != n
    ensures m.messageID != n.messageID
  {
  }

  /** After a page, the next cursor leaves exactly what the page did not show. */
  lemma NextPage(table: seq<Message>, conversationID: string, c: Cursor, k: nat)
    requires Keyed(table) && 0 < k <= |Rest(table, conversationID, c)|
    requires Rest(table, conversationID, c)[k - 1].messageID != ""
    ensures var last := Rest(table, conversationID, c)[k - 1];
            Rest(table, conversationID, Cursor(last.timestampMS, last.messageID)) == Rest(table, conversationID, c)[k..]
  {
    var all := Sort(Filter(table, In(conversationID)));
    var rest := Rest(table, conversationID, c);
    var last := rest[k - 1];
    var next := Cursor(last.timestampMS, last.messageID);
    QueryIsRest(table, conversationID, c, 0);
    RestIsStored(table, conversationID, c, last);
    FilterTwice(all, c, next, last);
    forall i | 0 <= i < |rest| ensures PastCursor(next)(rest[i]) <==> k <= i {
      BeforeIsTotal(rest[i], last);
      BeforeIsTotal(last, rest[i]);
      if i < k - 1 { assert Before(rest[i], last); }
      if k <= i { assert Before(last, rest[i]); }
    }
    FilterIsSuffix(rest, PastCursor(next), k);
  }

  /** What is past a later cursor is past the earlier one. */
  lemma {:induction false} FilterTwice(s: seq<Message>, c: Cursor, next: Cursor, last: Message)
    requires Past(last, c) && next == Cursor(last.timestampMS, last.messageID) && next.id != ""
    ensures Filter(s, PastCursor(next)) == Filter(Filter(s, PastCursor(c)), PastCursor(next))
  {
    if s != [] {
      var (init, m) := (s[..|s| - 1], s[|s| - 1]);
      FilterTwice(init, c, next, last);
      if Past(m, next) && m.timestampMS == c.ms == last.timestampMS && c.id != "" {
        LessIsTransitive(c.id, last.messageID, m.messageID);
      }
      FilterAppend(Filter(init, PastCursor(c)), if Past(m, c) then [m] else [], PastCursor(next));
      assert Past(m, next) ==> Past(m, c);
    }
  }

  // ------------------------------------------------ the paging loop

  function UpTo(r: Range): Where { (m: Message) => !(r.untilMS > 0 && m.timestampMS > r.untilMS) }

  /** Appends a page up to the end of the window, and says whether that end was seen. */
  method AppendPage(rows: seq<Message>, page: seq<Message>, r: Range) returns (next: seq<Message>, stop: bool)
    requires Ascending(page)
    ensures next == rows + Filter(page, UpTo(r))
    ensures stop <==> exists k :: 0 <= k < |page| && !UpTo(r)(page[k])
  {
    next := rows;
    for k := 0 to |page|
      invariant next == rows + page[..k] && forall i :: 0 <= i < k ==> UpTo(r)(page[i])
    {
      if r.untilMS > 0 && page[k].timestampMS > r.untilMS {
        FilterIsPrefix(page, UpTo(r), k);
        return next, true;
      }
      next := next + [page[k]];
    }
    FilterIsPrefix(page, UpTo(r), |page|);
    assert page[..|page|] == page;
    stop := false;
  }

  /** Past the end of the window nothing else belongs to it. */
  lemma StopIsFinal(rest: seq<Message>, n: nat, r: Range)
    requires Ascending(rest) && n <= |rest| && exists k :: 0 <= k < n && !UpTo(r)(rest[k])
    ensures Filter(rest, UpTo(r)) == Filter(rest[..n], UpTo(r))
  {
    var k :| 0 <= k < n && !UpTo(r)(rest[k]);
    assert rest == rest[..n] + rest[n..];
    FilterAppend(rest[..n], rest[n..], UpTo(r));
    forall m | m in rest[n..] ensures !UpTo(r)(m) {
      var i :| n <= i < |rest| && rest[i] == m;
      assert Before(rest[k], rest[i]);
    }
    FilterAll(rest[n..], UpTo(r));
  }

  /** Rows with an empty id at a page boundary, or without a positive timestamp, are outside
      the cursor's reach. */
  ghost predicate Reachable(table: seq<Message>) {
    Keyed(table) && forall m :: m in table ==> m.messageID != "" && 0 < m.timestampMS
  }

  /** Pages through the store, of any page size, oldest first. */
  method LoadExportMessages(table: seq<Message>, conversationID: string, r: Range, pageSize: nat) returns (result: seq<Message>)
    requires 0 < pageSize && Reachable(table)
    ensures result == Window(table, conversationID, Read(r))
    ensures Ascending(result)
  {
    hide Rest, QueryAfter, Window, Filter, Sort, Dedup, UpTo, Ascending, Keyed, Read;
    var rows: seq<Message> := [];
    var after := Cursor(if r.sinceMS > 0 then r.sinceMS - 1 else 0, "");
    StartsWithWindow(table, conversationID, r, after);
    while true
      invariant rows + Filter(Rest(table, conversationID, after), UpTo(r)) == Window(table, conversationID, Read(r))
      decreases |Rest(table, conversationID, after)|
    {
      QueryIsRest(table, conversationID, after, pageSize);
      ghost var rest := Rest(table, conversationID, after);
      var page := QueryAfter(table, conversationID, after, pageSize);
      PageAscends(rest, |page|);
      assert page == rest[..|page|] && rest == page + rest[|page|..];
      FilterAppend(page, rest[|page|..], UpTo(r));
      var stop;
      rows, stop := AppendPage(rows, page, r);
      if stop {
        StopIsFinal(rest, |page|, r);
        break;
      }
      if |page| < pageSize {
        FilterAll([], UpTo(r));
        break;
      }
      var last := page[|page| - 1];
      RestIsStored(table, conversationID, after, last);
      NextPage(table, conversationID, after, |page|);
      after := Cursor(last.timestampMS, last.messageID);
    }
    result := SortChronological(rows);
    ChronologicalIsKept(rows);
  }

  lemma PageAscends(rest: seq<Message>, k: nat)
    requires Ascending(rest) && k <= |rest|
    ensures Ascending(rest[..k])
  {
  }

  lemma RestIsStored(table: seq<Message>, conversationID: string, c: Cursor, m: Message)
    requires m in Rest(table, conversationID, c)
    ensures m in table && Past(m, c)
  {
    var found := Filter(table, In(conversationID));
    FilterMembers(Sort(found), PastCursor(c), m);
    SortMembers(found);
    assert m in multiset(found);
    FilterMembers(table, In(conversationID), m);
  }

  /** The first cursor and the stop at `until` cut out exactly the window. */
  lemma StartsWithWindow(table: seq<Message>, conversationID: string, r: Range, c: Cursor)
    requires Keyed(table) && c == Cursor(if r.sinceMS > 0 then r.sinceMS - 1 else 0, "")
    requires forall m :: m in table ==> 0 < m.timestampMS
    ensures var (rest, window) := (Rest(table, conversationID, c), Window(table, conversationID, Read(r)));
            Filter(rest, UpTo(r)) == window && Ascending(window) && Keyed(window)
  {
    var found := Filter(table, In(conversationID));
    var (all, rest) := (Sort(found), Rest(table, conversationID, c));
    FilterKeyed(table, In(conversationID));
    SortAscends(found);
    SortKeyed(found);
    FilterAscends(all, PastCursor(c));
    FilterAscends(rest, UpTo(r));
    FilterAscends(all, Within(Read(r)));
    FilterKeyed(all, Within(Read(r)));
    forall m ensures m in Filter(rest, UpTo(r)) <==> m in Filter(all, Within(Read(r))) {
      FilterMembers(rest, UpTo(r), m);
      FilterMembers(all, PastCursor(c), m);
      FilterMembers(all, Within(Read(r)), m);
      SortMembers(found);
      assert m in all <==> m in multiset(found);
      FilterMembers(table, In(conversationID), m);
    }
    AscendingIsUnique(Filter(rest, UpTo(r)), Filter(all, Within(Read(r))));
  }

  /** With a negative `until` Range.Contains lets nothing through. */
  lemma NegativeUntilIsEmpty(table: seq<Message>, conversationID: string, r: Range)
    requires Reachable(table) && r.untilMS < 0
    ensures Window(table, conversationID, r) == []
  {
    var found := Filter(table, In(conversationID));
    SortMembers(found);
    forall m | m in Sort(found) ensures !Within(r)(m) {
      assert m in multiset(found);
      FilterMembers(table, In(conversationID), m);
    }
    FilterAll(Sort(found), Within(r));
  }

  /** So what the loader returns is the window of Range.Contains exactly when `until` is not
      negative, or there is nothing to return. */
  lemma LoadedIsWindowIff(table: seq<Message>, conversationID: string, r: Range)
    requires Reachable(table)
    ensures Window(table, conversationID, Read(r)) == Window(table, conversationID, r) <==>
              0 <= r.untilMS || Window(table, conversationID, Read(r)) == []
  {
    hide Window;
    if r.untilMS < 0 { NegativeUntilIsEmpty(table, conversationID, r); }
  }

  /** The loader returns the window of Range.Contains, from every store and conversation,
      exactly for the ranges whose `until` is not negative. */
  lemma LoaderAgreesWithContains(r: Range)
    ensures (forall table, conversationID :: Reachable(table) ==>
               Window(table, conversationID, Read(r)) == Window(table, conversationID, r))
            <==> 0 <= r.untilMS
  {
    if r.untilMS < 0 {
      var m := Message("c", "m", 1 + if r.sinceMS > 0 then r.sinceMS else 0, "");
      LoadedIsWindowIff([m], "c", r);
      WindowIs([m], "c", Read(r));
      assert m in [m] && m in Window([m], "c", Read(r));
      hide Window;
    }
  }
}
