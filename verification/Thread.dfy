/** The thread view of cmd/thread.go: the newest messages are fetched newest first, those
    before `since` are dropped in place, and the slice is reversed in place. */
module Thread {
  import opened Strings
  import opened Timeline

  function Until(untilMS: int): Where { (m: Message) => untilMS > 0 ==> m.timestampMS < untilMS + 1 }

  function Since(sinceMS: int): Where { (m: Message) => sinceMS > 0 ==> m.timestampMS >= sinceMS }

  /** LIMIT: a negative limit means none. */
  function Limited(s: seq<Message>, limit: int): seq<Message> {
    if limit < 0 || |s| <= limit then s else s[..limit]
  }

  /** GetMessagesByConversation and, with a bound, GetMessagesByConversationBefore. */
  function Query(table: seq<Message>, conversationID: string, untilMS: int, limit: int): seq<Message> {
    Limited(Reversed(Sort(Filter(Filter(table, In(conversationID)), Until(untilMS)))), limit)
  }

  /** The messages of the window, oldest first. */
  function Window(table: seq<Message>, conversationID: string, sinceMS: int, untilMS: int): seq<Message> {
    Filter(Filter(Sort(Filter(table, In(conversationID))), Until(untilMS)), Since(sinceMS))
  }

  /** The last `limit` of them. */
  function Newest(s: seq<Message>, limit: int): seq<Message> {
    if limit < 0 || |s| <= limit then s else s[|s| - limit..]
  }

  /** The window holds exactly the messages of the conversation from `since` to `until`, both
      included, each bound only if it is positive; and it holds them in order. */
  lemma WindowIs(table: seq<Message>, conversationID: string, sinceMS: int, untilMS: int)
    requires Keyed(table)
    ensures Ascending(Window(table, conversationID, sinceMS, untilMS))
    ensures forall m :: m in Window(table, conversationID, sinceMS, untilMS) <==>
              && m in table && m.conversationID == conversationID
              && !(sinceMS > 0 && m.timestampMS < sinceMS) && !(untilMS > 0 && m.timestampMS > untilMS)
  {
    hide Filter, Sort, Keyed, Ascending;
    var found := Filter(table, In(conversationID));
    FilterKeyed(table, In(conversationID));
    SortAscends(found);
    FilterAscends(Sort(found), Until(untilMS));
    FilterAscends(Filter(Sort(found), Until(untilMS)), Since(sinceMS));
    SortMembers(found);
    forall m
      ensures m in Window(table, conversationID, sinceMS, untilMS) <==>
                m in table && In(conversationID)(m) && Until(untilMS)(m) && Since(sinceMS)(m)
    {
      FilterMembers(Filter(Sort(found), Until(untilMS)), Since(sinceMS), m);
      FilterMembers(Sort(found), Until(untilMS), m);
      FilterMembers(table, In(conversationID), m);
      assert m in Sort(found) <==> m in multiset(found);
    }
  }

  // ------------------------------------------------ in place

  /** Filtering over msgs[:0]: the kept messages move to the front, in order. */
  method DropBefore(msgs: array<Message>, sinceMS: int) returns (kept: nat)
    modifies msgs
    ensures kept <= msgs.Length
    ensures msgs[..kept] == Filter(old(msgs[..]), Since(sinceMS))
  {
    ghost var was := msgs[..];
    kept := 0;
    if sinceMS <= 0 {
      FilterAll(msgs[..], Since(sinceMS));
      return msgs.Length;
    }
    for k := 0 to msgs.Length
      invariant kept <= k
      invariant msgs[..kept] == Filter(was[..k], Since(sinceMS))
      invariant forall i :: k <= i < msgs.Length ==> msgs[i] == was[i]
    {
      hide Filter;
      FilterStep(was, Since(sinceMS), k);
      ghost var front := msgs[..kept];
      if msgs[k].timestampMS >= sinceMS {
        msgs[kept] := msgs[k];
        kept := kept + 1;
        assert msgs[..kept] == front + [was[k]];
      }
    }
    assert was[..msgs.Length] == was;
  }

  /** reverseMessages, over the first `n` messages. */
  method ReverseMessages(msgs: array<Message>, n: nat)
    requires n <= msgs.Length
    modifies msgs
    ensures msgs[..n] == Reversed(old(msgs[..n]))
  {
    var i, j := 0, n - 1;
    while i < j
      invariant 0 <= i <= j + 1 && i + j == n - 1
      invariant forall k :: 0 <= k < i ==> msgs[k] == old(msgs[n - 1 - k]) && msgs[n - 1 - k] == old(msgs[k])
      invariant forall k :: i <= k <= j ==> msgs[k] == old(msgs[k])
    {
      msgs[i], msgs[j] := msgs[j], msgs[i];
      i, j := i + 1, j - 1;
    }
    IsReversed(old(msgs[..n]), msgs[..n]);
  }

  lemma IsReversed(was: seq<Message>, now: seq<Message>)
    requires |now| == |was| && forall k :: 0 <= k < |was| ==> now[k] == was[|was| - 1 - k]
    ensures now == Reversed(was)
  {
    ReversedLength(was);
    forall k | 0 <= k < |was| ensures now[k] == Reversed(was)[k] {
      ReversedAt(was, k);
    }
  }

  lemma {:induction false} ReversedLength(s: seq<Message>)
    ensures |Reversed(s)| == |s|
  {
    if s != [] { ReversedLength(s[..|s| - 1]); }
  }

  lemma {:induction false} ReversedAt(s: seq<Message>, k: nat)
    requires k < |s|
    ensures |Reversed(s)| == |s| && Reversed(s)[k] == s[|s| - 1 - k]
  {
    ReversedLength(s);
    if k > 0 { ReversedAt(s[..|s| - 1], k - 1); }
  }

  // ------------------------------------------------ what a thread shows

  /** Taking the newest `limit` messages first and then dropping those before `since` gives
      exactly the newest `limit` messages of the window, oldest first. */
  method LoadConversationMessages(table: seq<Message>, conversationID: string, sinceMS: int, untilMS: int, limit: int)
      returns (result: seq<Message>)
    requires Keyed(table)
    ensures result == Newest(Window(table, conversationID, sinceMS, untilMS), limit)
  {
    var found := Query(table, conversationID, untilMS, limit);
    var msgs := new Message[|found|](k requires 0 <= k < |found| => found[k]);
    assert msgs[..] == found;
    var kept := DropBefore(msgs, sinceMS);
    ReverseMessages(msgs, kept);
    result := msgs[..kept];
    NewestOfWindow(table, conversationID, sinceMS, untilMS, limit);
  }

  lemma NewestOfWindow(table: seq<Message>, conversationID: string, sinceMS: int, untilMS: int, limit: int)
    requires Keyed(table)
    ensures Reversed(Filter(Query(table, conversationID, untilMS, limit), Since(sinceMS))) ==
              Newest(Window(table, conversationID, sinceMS, untilMS), limit)
  {
    var found := Filter(table, In(conversationID));
    FilterKeyed(table, In(conversationID));
    SortFilter(found, Until(untilMS));
    var bounded := Filter(Sort(found), Until(untilMS));
    LimitReversed(bounded, limit);
    var newest := Newest(bounded, limit);
    FilterReversed(newest, Since(sinceMS));
    ReversedTwice(Filter(newest, Since(sinceMS)));
    NewestFiltered(bounded, sinceMS, limit);
  }

  /** The first `limit` of the reversed are the reversed last `limit`. */
  lemma LimitReversed(s: seq<Message>, limit: int)
    ensures Limited(Reversed(s), limit) == Reversed(Newest(s, limit))
  {
    ReversedLength(s);
    if 0 <= limit < |s| {
      var tail := s[|s| - limit..];
      ReversedLength(tail);
      forall k | 0 <= k < limit ensures Reversed(s)[..limit][k] == Reversed(tail)[k] {
        ReversedAt(s, k);
        ReversedAt(tail, k);
      }
    }
  }

  lemma {:induction false} ReversedTwice(s: seq<Message>)
    ensures Reversed(Reversed(s)) == s
  {
    ReversedLength(s);
    ReversedLength(Reversed(s));
    forall k | 0 <= k < |s| ensures Reversed(Reversed(s))[k] == s[k] {
      ReversedAt(Reversed(s), k);
      ReversedAt(s, |s| - 1 - k);
    }
  }

  lemma {:induction false} FilterReversed(s: seq<Message>, where: Where)
    ensures Filter(Reversed(s), where) == Reversed(Filter(s, where))
  {
    if s != [] {
      var (init, last) := (s[..|s| - 1], s[|s| - 1]);
      FilterReversed(init, where);
      FilterAppend([last], Reversed(init), where);
      assert Filter([last], where) == if where(last) then [last] else [];
      if where(last) {
        assert Filter(s, where)[..|Filter(s, where)| - 1] == Filter(init, where);
      } else {
        assert Filter(s, where) == Filter(init, where);
      }
    }
  }

  /** In ascending order, what `since` keeps is a suffix, so it commutes with taking the newest. */
  lemma {:induction false} NewestFiltered(s: seq<Message>, sinceMS: int, limit: int)
    requires Ascending(s)
    ensures Filter(Newest(s, limit), Since(sinceMS)) == Newest(Filter(s, Since(sinceMS)), limit)
  {
    var k := FirstSince(s, sinceMS);
    FilterIsSuffix(s, Since(sinceMS), k);
    if 0 <= limit < |s| {
      var tail := s[|s| - limit..];
      var cut := if |s| - limit <= k then k - (|s| - limit) else 0;
      assert forall i :: 0 <= i < |tail| ==> tail[i] == s[|s| - limit + i];
      FilterIsSuffix(tail, Since(sinceMS), cut);
    }
  }

  /** Where the messages from `since` on begin. */
  lemma {:induction false} FirstSince(s: seq<Message>, sinceMS: int) returns (k: nat)
    requires Ascending(s)
    ensures k <= |s| && forall i :: 0 <= i < |s| ==> (Since(sinceMS)(s[i]) <==> k <= i)
  {
    if s == [] || !Since(sinceMS)(s[|s| - 1]) {
      k := |s|;
      forall i | 0 <= i < |s| ensures !Since(sinceMS)(s[i]) {
        if i < |s| - 1 { assert Before(s[i], s[|s| - 1]); }
      }
    } else {
      k := FirstSince(s[..|s| - 1], sinceMS);
      forall i | 0 <= i < |s| ensures Since(sinceMS)(s[i]) <==> k <= i {
        if i < |s| - 1 { assert s[..|s| - 1][i] == s[i]; }
      }
    }
  }
}
