/** Messages in (timestamp, id) order, and what sorting and filtering make of them. */
module Timeline {
  import opened Strings

  datatype Message = Message(conversationID: string, messageID: string, timestampMS: int, body: string)

  type Where = Message -> bool

  function In(conversationID: string): Where { (m: Message) => m.conversationID == conversationID }

  predicate Before(m: Message, n: Message) {
    m.timestampMS < n.timestampMS || (m.timestampMS == n.timestampMS && Less(m.messageID, n.messageID))
  }

  /** Strictly increasing, so without duplicates. */
  ghost predicate Ascending(s: seq<Message>) {
    forall i, j :: 0 <= i < j < |s| ==> Before(s[i], s[j])
  }

  /** message_id is the primary key. */
  ghost predicate Keyed(s: seq<Message>) {
    forall i, j :: 0 <= i < j < |s| ==> s[i].messageID != s[j].messageID
  }

  lemma BeforeIsTotal(m: Message, n: Message)
    ensures !Before(m, m)
    ensures m.messageID != n.messageID ==> (Before(m, n) <==> !Before(n, m))
    ensures Before(m, n) ==> !Before(n, m)
  {
    LessIsTotal(m.messageID, n.messageID);
    LessIsTotal(n.messageID, m.messageID);
  }

  lemma BeforeIsTransitive(m: Message, n: Message, o: Message)
    requires Before(m, n) && Before(n, o)
    ensures Before(m, o)
  {
    if m.timestampMS == n.timestampMS == o.timestampMS {
      LessIsTransitive(m.messageID, n.messageID, o.messageID);
    }
  }

  function Filter(s: seq<Message>, where: Where): seq<Message> {
    if s == [] then [] else Filter(s[..|s| - 1], where) + if where(s[|s| - 1]) then [s[|s| - 1]] else []
  }

  /** Puts a message behind all that are not after it. */
  function Insert(s: seq<Message>, m: Message): seq<Message> {
    if s == [] || !Before(m, s[|s| - 1]) then s + [m] else Insert(s[..|s| - 1], m) + [s[|s| - 1]]
  }

  /** A stable sort. */
  function Sort(s: seq<Message>): seq<Message> {
    if s == [] then [] else Insert(Sort(s[..|s| - 1]), s[|s| - 1])
  }

  function Reversed(s: seq<Message>): seq<Message> {
    if s == [] then [] else [s[|s| - 1]] + Reversed(s[..|s| - 1])
  }

  // ------------------------------------------------ filters

  lemma FilterStep(s: seq<Message>, where: Where, k: nat)
    requires k < |s|
    ensures Filter(s[..k + 1], where) == Filter(s[..k], where) + if where(s[k]) then [s[k]] else []
  {
    assert s[..k + 1][..k] == s[..k];
  }

  lemma {:induction false} FilterMembers(s: seq<Message>, where: Where, m: Message)
    ensures m in Filter(s, where) <==> m in s && where(m)
  {
    if s != [] {
      FilterMembers(s[..|s| - 1], where, m);
      assert s == s[..|s| - 1] + [s[|s| - 1]];
    }
  }

  /** A filter keeps the order. */
  lemma {:induction false} FilterAscends(s: seq<Message>, where: Where)
    requires Ascending(s)
    ensures Ascending(Filter(s, where))
  {
    if s != [] {
      var (init, last) := (s[..|s| - 1], s[|s| - 1]);
      FilterAscends(init, where);
      forall i | 0 <= i < |Filter(init, where)| ensures Before(Filter(init, where)[i], last) {
        FilterMembers(init, where, Filter(init, where)[i]);
      }
    }
  }

  lemma {:induction false} FilterAppend(s: seq<Message>, t: seq<Message>, where: Where)
    ensures Filter(s + t, where) == Filter(s, where) + Filter(t, where)
  {
    if t == [] {
      assert s + t == s;
    } else {
      assert (s + t)[..|s + t| - 1] == s + t[..|t| - 1];
      FilterAppend(s, t[..|t| - 1], where);
    }
  }

  lemma {:induction false} FilterAll(s: seq<Message>, where: Where)
    ensures (forall m :: m in s ==> where(m)) ==> Filter(s, where) == s
    ensures (forall m :: m in s ==> !where(m)) ==> Filter(s, where) == []
  {
    if s != [] {
      FilterAll(s[..|s| - 1], where);
      assert s == s[..|s| - 1] + [s[|s| - 1]];
    }
  }

  /** A filter that lets through everything from some point on, and nothing before, is a suffix. */
  lemma FilterIsSuffix(s: seq<Message>, where: Where, k: nat)
    requires k <= |s|
    requires forall i :: 0 <= i < |s| ==> (where(s[i]) <==> k <= i)
    ensures Filter(s, where) == s[k..]
  {
    hide Filter;
    assert s == s[..k] + s[k..];
    FilterAppend(s[..k], s[k..], where);
    FilterAll(s[..k], where);
    FilterAll(s[k..], where);
  }

  lemma FilterIsPrefix(s: seq<Message>, where: Where, k: nat)
    requires k <= |s|
    requires forall i :: 0 <= i < |s| ==> (where(s[i]) <==> i < k)
    ensures Filter(s, where) == s[..k]
  {
    hide Filter;
    assert s == s[..k] + s[k..];
    FilterAppend(s[..k], s[k..], where);
    FilterAll(s[..k], where);
    FilterAll(s[k..], where);
  }

  // ------------------------------------------------ sorting

  lemma {:induction false} InsertMembers(s: seq<Message>, m: Message)
    ensures multiset(Insert(s, m)) == multiset(s) + multiset{m}
  {
    if s != [] && Before(m, s[|s| - 1]) {
      InsertMembers(s[..|s| - 1], m);
      assert s == s[..|s| - 1] + [s[|s| - 1]];
    }
  }

  lemma {:induction false} SortMembers(s: seq<Message>)
    ensures multiset(Sort(s)) == multiset(s)
  {
    if s != [] {
      SortMembers(s[..|s| - 1]);
      InsertMembers(Sort(s[..|s| - 1]), s[|s| - 1]);
      assert s == s[..|s| - 1] + [s[|s| - 1]];
    }
  }

  lemma {:induction false} InsertAscends(s: seq<Message>, m: Message)
    requires Ascending(s) && forall n :: n in s ==> n.messageID != m.messageID
    ensures Ascending(Insert(s, m))
  {
    if s != [] {
      var (init, last) := (s[..|s| - 1], s[|s| - 1]);
      BeforeIsTotal(last, m);
      if Before(m, last) {
        InsertAscends(init, m);
        InsertMembers(init, m);
        forall i | 0 <= i < |Insert(init, m)| ensures Before(Insert(init, m)[i], last) {
          assert Insert(init, m)[i] in multiset(Insert(init, m));
        }
      } else {
        forall i | 0 <= i < |s| ensures Before(s[i], m) {
          if i < |s| - 1 { BeforeIsTransitive(s[i], last, m); }
        }
      }
    }
  }

  /** Sorting a table gives its messages in strictly ascending order. */
  lemma {:induction false} SortAscends(s: seq<Message>)
    requires Keyed(s)
    ensures Ascending(Sort(s))
  {
    if s != [] {
      var (init, last) := (s[..|s| - 1], s[|s| - 1]);
      SortAscends(init);
      SortMembers(init);
      forall n | n in Sort(init) ensures n.messageID != last.messageID {
        assert n in multiset(init);
      }
      InsertAscends(Sort(init), last);
    }
  }

  lemma LastIsApart(s: seq<Message>)
    requires Ascending(s) && s != []
    ensures forall o :: o in s[..|s| - 1] <==> o in s && o != s[|s| - 1]
  {
    var (init, last) := (s[..|s| - 1], s[|s| - 1]);
    assert s == init + [last];
    forall i | 0 <= i < |init| ensures init[i] != last {
      BeforeIsTotal(init[i], last);
      BeforeIsTotal(last, last);
    }
  }

  /** Two ascending sequences with the same messages are the same. */
  lemma {:induction false} AscendingIsUnique(s: seq<Message>, t: seq<Message>)
    requires Ascending(s) && Ascending(t) && forall m :: m in s <==> m in t
    ensures s == t
  {
    assert s != [] ==> s[0] in s;
    assert t != [] ==> t[0] in t;
    if s != [] && t != [] {
      var (m, n) := (s[|s| - 1], t[|t| - 1]);
      assert m in t && n in s;
      var i :| 0 <= i < |t| && t[i] == m;
      var j :| 0 <= j < |s| && s[j] == n;
      BeforeIsTotal(m, n);
      assert m == n;
      var (init, rest) := (s[..|s| - 1], t[..|t| - 1]);
      LastIsApart(s);
      LastIsApart(t);
      forall o: Message ensures o in init <==> o in rest {
        assert o in init <==> o in s && o != m;
      }
      AscendingIsUnique(init, rest);
      assert s == init + [m] && t == rest + [m];
    }
  }

  /** Filtering a table and sorting commute. */
  lemma SortFilter(s: seq<Message>, where: Where)
    requires Keyed(s)
    ensures Sort(Filter(s, where)) == Filter(Sort(s), where)
    ensures Ascending(Sort(Filter(s, where)))
  {
    FilterKeyed(s, where);
    SortAscends(s);
    SortAscends(Filter(s, where));
    FilterAscends(Sort(s), where);
    SortMembers(s);
    SortMembers(Filter(s, where));
    forall m ensures m in Sort(Filter(s, where)) <==> m in Filter(Sort(s), where) {
      FilterMembers(s, where, m);
      FilterMembers(Sort(s), where, m);
      assert m in Sort(s) <==> m in multiset(s);
      assert m in Sort(Filter(s, where)) <==> m in multiset(Filter(s, where));
    }
    AscendingIsUnique(Sort(Filter(s, where)), Filter(Sort(s), where));
  }

  lemma {:induction false} FilterKeyed(s: seq<Message>, where: Where)
    requires Keyed(s)
    ensures Keyed(Filter(s, where))
  {
    if s != [] {
      var (init, last) := (s[..|s| - 1], s[|s| - 1]);
      FilterKeyed(init, where);
      forall i | 0 <= i < |Filter(init, where)| ensures Filter(init, where)[i].messageID != last.messageID {
        FilterMembers(init, where, Filter(init, where)[i]);
      }
    }
  }

  /** Sorting what ascends changes nothing. */
  lemma SortIsIdentity(s: seq<Message>)
    requires Ascending(s)
    ensures Sort(s) == s
  {
    if s != [] {
      SortIsIdentity(s[..|s| - 1]);
      if |s| > 1 { BeforeIsTotal(s[|s| - 2], s[|s| - 1]); }
    }
  }
}
