/** mergeReaction of internal/db/tapback.go: a list of emoji entries, each with a count and
    its actors, edited in place. */
module Reactions {
  import opened Strings

  datatype Reaction = Reaction(emoji: string, count: int, actors: seq<string>)

  // ------------------------------------------------ the edits

  function IndexOf(list: seq<string>, v: string): int {
    if list == [] then -1
    else if list[0] == v then 0
    else var k := IndexOf(list[1..], v); if k < 0 then -1 else k + 1
  }

  function WithoutActor(r: Reaction, actor: string): Reaction {
    var k := IndexOf(r.actors, actor);
    if k < 0 || k >= |r.actors| then r
    else r.(actors := r.actors[..k] + r.actors[k + 1..], count := if r.count > 0 then r.count - 1 else r.count)
  }

  function WithActor(r: Reaction, actor: string): Reaction {
    if IndexOf(r.actors, actor) < 0 then r.(actors := r.actors + [actor], count := r.count + 1) else r
  }

  /** Removal edits every entry for the emoji. */
  function Removed(rs: seq<Reaction>, emoji: string, actor: string): seq<Reaction> {
    if rs == [] then []
    else Removed(rs[..|rs| - 1], emoji, actor)
         + [if rs[|rs| - 1].emoji == emoji then WithoutActor(rs[|rs| - 1], actor) else rs[|rs| - 1]]
  }

  /** The first entry for the emoji, or the length. */
  function Position(rs: seq<Reaction>, emoji: string): (k: nat)
    ensures k <= |rs|
    ensures k < |rs| ==> rs[k].emoji == emoji
    ensures forall i :: 0 <= i < k ==> rs[i].emoji != emoji
  {
    if rs == [] then 0
    else
      var k := Position(rs[..|rs| - 1], emoji);
      if k < |rs| - 1 then k else if rs[|rs| - 1].emoji == emoji then |rs| - 1 else |rs|
  }

  /** Adding edits the first entry for the emoji, or appends one. */
  function Added(rs: seq<Reaction>, emoji: string, actor: string): seq<Reaction> {
    var k := Position(rs, emoji);
    if k < |rs| then rs[k := WithActor(rs[k], actor)] else rs + [Reaction(emoji, 1, [actor])]
  }

  predicate Kept(r: Reaction) { r.count > 0 && !Blank(r.emoji) }

  function Compacted(rs: seq<Reaction>): seq<Reaction> {
    if rs == [] then []
    else Compacted(rs[..|rs| - 1]) + if Kept(rs[|rs| - 1]) then [rs[|rs| - 1]] else []
  }

  predicate Holds(rs: seq<Reaction>, emoji: string, actor: string) {
    exists i :: 0 <= i < |rs| && rs[i].emoji == emoji && IndexOf(rs[i].actors, actor) >= 0
  }

  /** Whether the edit does anything, and the list it leaves. */
  function Merge(rs: seq<Reaction>, emoji: string, actor: string, remove: bool): (seq<Reaction>, bool) {
    if remove then
      if Holds(rs, emoji, actor) then (Compacted(Removed(rs, emoji, actor)), true) else (rs, false)
    else
      var k := Position(rs, emoji);
      if k < |rs| && IndexOf(rs[k].actors, actor) >= 0 then (rs, false)
      else (Compacted(Added(rs, emoji, actor)), true)
  }

  method IndexOfString(list: seq<string>, v: string) returns (k: int)
    ensures k == IndexOf(list, v)
    ensures if v in list then 0 <= k < |list| && list[k] == v && v !in list[..k] else k == -1
  {
    for i := 0 to |list|
      invariant v !in list[..i]
    {
      if list[i] == v {
        IndexOfFinds(list, v, i);
        return i;
      }
      assert list[..i + 1] == list[..i] + [list[i]];
    }
    assert list[..|list|] == list;
    IndexOfMissing(list, v);
    return -1;
  }

  lemma {:induction false} IndexOfFinds(list: seq<string>, v: string, i: nat)
    requires i < |list| && list[i] == v && v !in list[..i]
    ensures IndexOf(list, v) == i
  {
    if i > 0 {
      assert list[0] == list[..i][0];
      assert list[1..][..i - 1] == list[..i][1..];
      IndexOfFinds(list[1..], v, i - 1);
    }
  }

  lemma {:induction false} IndexOfMissing(list: seq<string>, v: string)
    requires v !in list
    ensures IndexOf(list, v) == -1
  {
    if list != [] { IndexOfMissing(list[1..], v); }
  }

  lemma {:induction false} IndexOfMeans(list: seq<string>, v: string)
    ensures -1 <= IndexOf(list, v) < |list|
    ensures IndexOf(list, v) >= 0 <==> v in list
    ensures IndexOf(list, v) >= 0 ==> list[IndexOf(list, v)] == v
  {
    if list != [] { IndexOfMeans(list[1..], v); }
  }

  /** The loops of mergeReaction, on any decoded list. */
  method MergeReaction(existing: seq<Reaction>, emoji: string, actor: string, remove: bool)
      returns (next: seq<Reaction>, changed: bool)
    ensures (next, changed) == Merge(existing, emoji, actor, remove)
  {
    var rs := existing;
    if remove {
      rs, changed := RemoveActor(existing, emoji, actor);
    } else {
      rs, changed := AddActor(existing, emoji, actor);
    }
    if !changed {
      return existing, false;
    }
    next := [];
    for i := 0 to |rs|
      invariant next == Compacted(rs[..i])
    {
      assert rs[..i + 1][..i] == rs[..i];
      if rs[i].count > 0 && !Blank(rs[i].emoji) {
        next := next + [rs[i]];
      }
    }
    assert rs[..|rs|] == rs;
  }

  /** Entry `i` edited, the edited part is one longer. */
  lemma RemovedStep(existing: seq<Reaction>, rs: seq<Reaction>, i: nat, emoji: string, actor: string)
    requires |rs| == |existing| && i < |rs|
    requires rs[..i] == Removed(existing[..i], emoji, actor) && rs[i..] == existing[i..]
    ensures rs[i] == existing[i]
    ensures var next := rs[i := if rs[i].emoji == emoji then WithoutActor(rs[i], actor) else rs[i]];
            next[..i + 1] == Removed(existing[..i + 1], emoji, actor) && next[i + 1..] == existing[i + 1..]
  {
    assert rs[i] == rs[i..][0] == existing[i..][0];
    assert rs[i + 1..] == rs[i..][1..] == existing[i + 1..];
    assert existing[..i + 1][..i] == existing[..i];
    var next := rs[i := if rs[i].emoji == emoji then WithoutActor(rs[i], actor) else rs[i]];
    assert next[..i + 1] == rs[..i] + [next[i]];
    assert next[i + 1..] == rs[i + 1..];
  }

  method RemoveActor(existing: seq<Reaction>, emoji: string, actor: string) returns (rs: seq<Reaction>, changed: bool)
    ensures rs == Removed(existing, emoji, actor) && changed == Holds(existing, emoji, actor)
  {
    rs, changed := existing, false;
    for i := 0 to |existing|
      invariant |rs| == |existing|
      invariant rs[..i] == Removed(existing[..i], emoji, actor) && rs[i..] == existing[i..]
      invariant changed == exists j :: 0 <= j < i && existing[j].emoji == emoji && IndexOf(existing[j].actors, actor) >= 0
    {
      var r := rs[i];
      RemovedStep(existing, rs, i, emoji, actor);
      if r.emoji == emoji {
        var k := IndexOfString(r.actors, actor);
        if k >= 0 {
          rs := rs[i := r.(actors := r.actors[..k] + r.actors[k + 1..],
                           count := if r.count > 0 then r.count - 1 else r.count)];
          changed := true;
        }
      }
    }
    assert existing[..|existing|] == existing && rs[..|existing|] == rs;
  }

  method AddActor(existing: seq<Reaction>, emoji: string, actor: string) returns (rs: seq<Reaction>, changed: bool)
    ensures changed ==> rs == Added(existing, emoji, actor)
    ensures changed <==> !(Position(existing, emoji) < |existing|
                           && IndexOf(existing[Position(existing, emoji)].actors, actor) >= 0)
  {
    rs := existing;
    for i := 0 to |existing|
      invariant rs == existing && forall j :: 0 <= j < i ==> existing[j].emoji != emoji
    {
      if existing[i].emoji == emoji {
        assert Position(existing, emoji) == i;
        var k := IndexOfString(existing[i].actors, actor);
        if k < 0 {
          rs := rs[i := rs[i].(actors := rs[i].actors + [actor], count := rs[i].count + 1)];
          return rs, true;
        }
        return rs, false;
      }
    }
    rs := rs + [Reaction(emoji, 1, [actor])];
    changed := true;
  }

  // ------------------------------------------------ what the list means

  ghost predicate Distinct(s: seq<string>) { forall i, j :: 0 <= i < j < |s| ==> s[i] != s[j] }

  /** One entry per emoji, none blank; the count is the number of actors, and positive. */
  ghost predicate WellFormed(rs: seq<Reaction>) {
    && (forall i, j :: 0 <= i < j < |rs| ==> rs[i].emoji != rs[j].emoji)
    && (forall i :: 0 <= i < |rs| ==>
          !Blank(rs[i].emoji) && Distinct(rs[i].actors) && rs[i].count == |rs[i].actors| > 0)
  }

  /** Who reacted with what. */
  ghost function Actors(rs: seq<Reaction>, emoji: string): set<string> {
    var k := Position(rs, emoji);
    if k < |rs| then set a | a in rs[k].actors else {}
  }

  ghost predicate AllKept(rs: seq<Reaction>) { forall i :: 0 <= i < |rs| ==> Kept(rs[i]) }

  lemma {:induction false} CompactIsIdentity(rs: seq<Reaction>)
    requires AllKept(rs)
    ensures Compacted(rs) == rs
  {
    hide Kept;
    if rs != [] {
      var (init, last) := (rs[..|rs| - 1], rs[|rs| - 1]);
      CompactIsIdentity(init);
      assert Compacted(rs) == init + [last] == rs;
    }
  }

  lemma PositionAt(rs: seq<Reaction>, emoji: string, k: nat)
    requires k < |rs| && rs[k].emoji == emoji && forall i, j :: 0 <= i < j < |rs| ==> rs[i].emoji != rs[j].emoji
    ensures Position(rs, emoji) == k
  {
  }

  lemma RemovedAt(rs: seq<Reaction>, emoji: string, actor: string)
    requires WellFormed(rs)
    ensures var k := Position(rs, emoji);
            Removed(rs, emoji, actor) == if k < |rs| then rs[k := WithoutActor(rs[k], actor)] else rs
  {
    RemovedLength(rs, emoji, actor);
    forall i | 0 <= i < |rs|
      ensures Removed(rs, emoji, actor)[i] == if rs[i].emoji == emoji then WithoutActor(rs[i], actor) else rs[i]
    {
      RemovedIndex(rs, emoji, actor, i);
    }
    var k := Position(rs, emoji);
    assert forall i :: 0 <= i < |rs| && rs[i].emoji == emoji ==> i == k;
  }

  lemma {:induction false} RemovedLength(rs: seq<Reaction>, emoji: string, actor: string)
    ensures |Removed(rs, emoji, actor)| == |rs|
  {
    if rs != [] { RemovedLength(rs[..|rs| - 1], emoji, actor); }
  }

  lemma {:induction false} RemovedIndex(rs: seq<Reaction>, emoji: string, actor: string, i: nat)
    requires i < |rs|
    ensures |Removed(rs, emoji, actor)| == |rs|
    ensures Removed(rs, emoji, actor)[i] == if rs[i].emoji == emoji then WithoutActor(rs[i], actor) else rs[i]
  {
    RemovedLength(rs, emoji, actor);
    RemovedLength(rs[..|rs| - 1], emoji, actor);
    if i < |rs| - 1 { RemovedIndex(rs[..|rs| - 1], emoji, actor, i); }
  }

  /** Compaction drops the one entry that is not kept. */
  lemma {:induction false} CompactAt(rs: seq<Reaction>, k: nat)
    requires k < |rs| && forall i :: 0 <= i < |rs| && i != k ==> Kept(rs[i])
    ensures Compacted(rs) == if Kept(rs[k]) then rs else rs[..k] + rs[k + 1..]
  {
    hide Kept;
    var (init, last) := (rs[..|rs| - 1], rs[|rs| - 1]);
    assert rs == init + [last];
    if k == |rs| - 1 {
      CompactIsIdentity(init);
      assert rs[..k] + rs[k + 1..] == init;
    } else {
      CompactAt(init, k);
      assert rs[..k] == init[..k] && rs[k + 1..] == init[k + 1..] + [last];
      assert rs[..k] + rs[k + 1..] == (init[..k] + init[k + 1..]) + [last];
    }
  }

  lemma AddPresent(rs: seq<Reaction>, emoji: string, actor: string)
    requires WellFormed(rs) && Position(rs, emoji) < |rs|
    ensures var k := Position(rs, emoji);
            Merge(rs, emoji, actor, false) ==
              if actor in rs[k].actors then (rs, false)
              else (rs[k := Reaction(emoji, rs[k].count + 1, rs[k].actors + [actor])], true)
  {
    hide Compacted, Blank;
    var k := Position(rs, emoji);
    IndexOfMeans(rs[k].actors, actor);
    CompactAt(rs[k := WithActor(rs[k], actor)], k);
  }

  lemma AddAbsent(rs: seq<Reaction>, emoji: string, actor: string)
    requires WellFormed(rs) && Position(rs, emoji) == |rs|
    ensures Merge(rs, emoji, actor, false) == (if Blank(emoji) then rs else rs + [Reaction(emoji, 1, [actor])], true)
  {
    hide Compacted, Blank;
    var longer := rs + [Reaction(emoji, 1, [actor])];
    CompactAt(longer, |rs|);
    assert longer[..|rs|] + longer[|rs| + 1..] == rs;
  }

  /** What adding does to a well-formed list. */
  lemma AddShape(rs: seq<Reaction>, emoji: string, actor: string)
    requires WellFormed(rs)
    ensures var k := Position(rs, emoji);
            Merge(rs, emoji, actor, false) ==
              if k == |rs| then (if Blank(emoji) then rs else rs + [Reaction(emoji, 1, [actor])], true)
              else if actor in rs[k].actors then (rs, false)
              else (rs[k := Reaction(emoji, rs[k].count + 1, rs[k].actors + [actor])], true)
  {
    hide Merge, WellFormed;
    if Position(rs, emoji) < |rs| { AddPresent(rs, emoji, actor); } else { AddAbsent(rs, emoji, actor); }
  }

  /** What removing does: an entry without actors disappears. */
  lemma RemoveShape(rs: seq<Reaction>, emoji: string, actor: string)
    requires WellFormed(rs)
    ensures var k := Position(rs, emoji);
            Merge(rs, emoji, actor, true) ==
              if k == |rs| || actor !in rs[k].actors then (rs, false)
              else if |rs[k].actors| == 1 then (rs[..k] + rs[k + 1..], true)
              else (rs[k := WithoutActor(rs[k], actor)], true)
  {
    var k := Position(rs, emoji);
    RemovedAt(rs, emoji, actor);
    assert forall i :: 0 <= i < |rs| && rs[i].emoji == emoji ==> i == k;
    if k < |rs| {
      IndexOfMeans(rs[k].actors, actor);
      var edited := rs[k := WithoutActor(rs[k], actor)];
      CompactAt(edited, k);
      assert edited[..k] + edited[k + 1..] == rs[..k] + rs[k + 1..];
    }
  }

  /** Taking one of several distinct actors out. */
  lemma ActorTakenOut(actors: seq<string>, actor: string)
    requires Distinct(actors) && actor in actors
    ensures var k := IndexOf(actors, actor);
            && 0 <= k < |actors|
            && Distinct(actors[..k] + actors[k + 1..])
            && forall a :: a in actors[..k] + actors[k + 1..] <==> a in actors && a != actor
  {
    IndexOfMeans(actors, actor);
    var k := IndexOf(actors, actor);
    var rest := actors[..k] + actors[k + 1..];
    assert forall i :: 0 <= i < |rest| ==> rest[i] == if i < k then actors[i] else actors[i + 1];
    forall a | a in actors && a != actor ensures a in rest {
      var i :| 0 <= i < |actors| && actors[i] == a;
      assert rest[if i < k then i else i - 1] == a;
    }
  }

  ghost predicate GoodEntry(r: Reaction) {
    !Blank(r.emoji) && Distinct(r.actors) && r.count == |r.actors| > 0
  }

  lemma EditIsWellFormed(rs: seq<Reaction>, k: nat, r: Reaction)
    requires WellFormed(rs) && k < |rs| && r.emoji == rs[k].emoji && GoodEntry(r)
    ensures WellFormed(rs[k := r])
  {
    var next := rs[k := r];
    assert forall i :: 0 <= i < |next| ==> next[i] == if i == k then r else rs[i];
  }

  lemma DropIsWellFormed(rs: seq<Reaction>, k: nat)
    requires WellFormed(rs) && k < |rs|
    ensures WellFormed(rs[..k] + rs[k + 1..])
  {
    var next := rs[..k] + rs[k + 1..];
    assert forall i :: 0 <= i < |next| ==> next[i] == if i < k then rs[i] else rs[i + 1];
  }

  lemma AppendIsWellFormed(rs: seq<Reaction>, r: Reaction)
    requires WellFormed(rs) && GoodEntry(r) && Position(rs, r.emoji) == |rs|
    ensures WellFormed(rs + [r])
  {
  }

  lemma WithoutIsGood(r: Reaction, actor: string)
    requires GoodEntry(r) && actor in r.actors && |r.actors| > 1
    ensures GoodEntry(WithoutActor(r, actor))
    ensures forall a :: a in WithoutActor(r, actor).actors <==> a in r.actors && a != actor
  {
    ActorTakenOut(r.actors, actor);
  }

  /** Merging keeps lists well formed. */
  lemma MergeIsWellFormed(rs: seq<Reaction>, emoji: string, actor: string, remove: bool)
    requires WellFormed(rs)
    ensures WellFormed(Merge(rs, emoji, actor, remove).0)
  {
    hide Merge;
    var k := Position(rs, emoji);
    assert k < |rs| ==> GoodEntry(rs[k]);
    if remove {
      RemoveShape(rs, emoji, actor);
      if k < |rs| && actor in rs[k].actors {
        hide WellFormed;
        if |rs[k].actors| == 1 {
          DropIsWellFormed(rs, k);
        } else {
          WithoutIsGood(rs[k], actor);
          EditIsWellFormed(rs, k, WithoutActor(rs[k], actor));
        }
      }
    } else {
      AddShape(rs, emoji, actor);
      hide WellFormed;
      if k == |rs| {
        if !Blank(emoji) { AppendIsWellFormed(rs, Reaction(emoji, 1, [actor])); }
      } else if actor !in rs[k].actors {
        EditIsWellFormed(rs, k, Reaction(emoji, rs[k].count + 1, rs[k].actors + [actor]));
      }
    }
  }

  lemma SetOfAppended(s: seq<string>, v: string)
    ensures (set a | a in s + [v]) == (set a | a in s) + {v}
  {
  }

  lemma PresentAddRefines(rs: seq<Reaction>, emoji: string, actor: string, other: string)
    requires WellFormed(rs) && Position(rs, emoji) < |rs|
    ensures Actors(Merge(rs, emoji, actor, false).0, other) ==
              if other != emoji then Actors(rs, other) else Actors(rs, emoji) + {actor}
  {
    hide Merge, Blank;
    AddShape(rs, emoji, actor);
    var k := Position(rs, emoji);
    if actor in rs[k].actors {
      hide WellFormed;
      assert Actors(rs, emoji) + {actor} == Actors(rs, emoji);
    } else {
      EditedActors(rs, k, Reaction(emoji, rs[k].count + 1, rs[k].actors + [actor]), other);
      SetOfAppended(rs[k].actors, actor);
      hide WellFormed;
    }
  }

  lemma AddRefines(rs: seq<Reaction>, emoji: string, actor: string, other: string)
    requires WellFormed(rs)
    ensures Actors(Merge(rs, emoji, actor, false).0, other) ==
              if other != emoji || Blank(emoji) then Actors(rs, other) else Actors(rs, emoji) + {actor}
  {
    hide Merge, Blank;
    var k := Position(rs, emoji);
    if k < |rs| {
      assert !Blank(rs[k].emoji);
      hide WellFormed;
      PresentAddRefines(rs, emoji, actor, other);
    } else {
      AddShape(rs, emoji, actor);
      MergeIsWellFormed(rs, emoji, actor, false);
      if !Blank(emoji) { AppendedActors(rs, emoji, actor, other); }
      hide WellFormed;
      assert Actors(rs, emoji) == {};
    }
  }

  lemma RemoveRefines(rs: seq<Reaction>, emoji: string, actor: string, other: string)
    requires WellFormed(rs)
    ensures Actors(Merge(rs, emoji, actor, true).0, other) ==
              if other != emoji then Actors(rs, other) else Actors(rs, emoji) - {actor}
  {
    hide Merge, Blank;
    MergeIsWellFormed(rs, emoji, actor, true);
    RemoveShape(rs, emoji, actor);
    var k := Position(rs, emoji);
    if k < |rs| && actor in rs[k].actors {
      assert GoodEntry(rs[k]);
      if |rs[k].actors| == 1 {
        DroppedActors(rs, k, other);
        assert rs[k].actors == [rs[k].actors[0]];
      } else {
        WithoutIsGood(rs[k], actor);
        EditedActors(rs, k, WithoutActor(rs[k], actor), other);
      }
    }
  }

  /** Merging inserts the actor into, or removes it from, the emoji's set of actors, and
      leaves every other emoji alone. */
  lemma MergeRefines(rs: seq<Reaction>, emoji: string, actor: string, remove: bool, other: string)
    requires WellFormed(rs)
    ensures Actors(Merge(rs, emoji, actor, remove).0, other) ==
              if other != emoji || Blank(emoji) then Actors(rs, other)
              else if remove then Actors(rs, emoji) - {actor}
              else Actors(rs, emoji) + {actor}
  {
    hide Merge, Blank;
    if remove {
      RemoveRefines(rs, emoji, actor, other);
      assert Blank(emoji) ==> Actors(rs, emoji) == {};
    } else {
      AddRefines(rs, emoji, actor, other);
    }
  }

  lemma {:induction false} SamePositions(rs: seq<Reaction>, next: seq<Reaction>, emoji: string)
    requires |next| == |rs| && forall i :: 0 <= i < |rs| ==> next[i].emoji == rs[i].emoji
    ensures Position(next, emoji) == Position(rs, emoji)
  {
    if rs != [] { SamePositions(rs[..|rs| - 1], next[..|rs| - 1], emoji); }
  }

  lemma EditedActors(rs: seq<Reaction>, k: nat, r: Reaction, other: string)
    requires k < |rs| && r.emoji == rs[k].emoji && WellFormed(rs)
    ensures Actors(rs[k := r], other) == if other == r.emoji then set a | a in r.actors else Actors(rs, other)
  {
    SamePositions(rs, rs[k := r], other);
    PositionAt(rs, r.emoji, k);
  }

  lemma DroppedActors(rs: seq<Reaction>, k: nat, other: string)
    requires k < |rs| && WellFormed(rs) && WellFormed(rs[..k] + rs[k + 1..])
    ensures Actors(rs[..k] + rs[k + 1..], other) == if other == rs[k].emoji then {} else Actors(rs, other)
  {
    var next := rs[..k] + rs[k + 1..];
    assert forall i :: 0 <= i < |next| ==> next[i] == if i < k then rs[i] else rs[i + 1];
    hide WellFormed;
    var i := Position(rs, other);
    if i < |rs| && i != k { PositionAt(next, other, if i < k then i else i - 1); }
  }

  lemma AppendedActors(rs: seq<Reaction>, emoji: string, actor: string, other: string)
    requires WellFormed(rs) && Position(rs, emoji) == |rs| && WellFormed(rs + [Reaction(emoji, 1, [actor])])
    ensures Actors(rs + [Reaction(emoji, 1, [actor])], other) == if other == emoji then {actor} else Actors(rs, other)
  {
    var next := rs + [Reaction(emoji, 1, [actor])];
    assert next[..|next| - 1] == rs;
  }

  lemma {:induction false} DistinctCount(s: seq<string>)
    requires Distinct(s)
    ensures |set a | a in s| == |s|
  {
    if s != [] {
      var (init, last) := (s[..|s| - 1], s[|s| - 1]);
      DistinctCount(init);
      assert s == init + [last];
      assert (set a | a in s) == (set a | a in init) + {last};
    }
  }

  /** An entry's count is the number of its actors, and positive. */
  lemma CountIsActors(rs: seq<Reaction>, i: nat)
    requires WellFormed(rs) && i < |rs|
    ensures rs[i].count == |Actors(rs, rs[i].emoji)| > 0
  {
    PositionAt(rs, rs[i].emoji, i);
    DistinctCount(rs[i].actors);
  }

  /** Adding again does nothing. */
  lemma AddIsIdempotent(rs: seq<Reaction>, emoji: string, actor: string)
    requires WellFormed(rs) && !Blank(emoji)
    ensures var once := Merge(rs, emoji, actor, false).0;
            Merge(once, emoji, actor, false) == (once, false)
  {
    AddShape(rs, emoji, actor);
    MergeIsWellFormed(rs, emoji, actor, false);
    var once := Merge(rs, emoji, actor, false).0;
    AddShape(once, emoji, actor);
    var k := Position(rs, emoji);
    PositionAt(once, emoji, k);
  }

  /** Adding a new actor and removing it again restores the list. */
  lemma AddThenRemoveRestores(rs: seq<Reaction>, emoji: string, actor: string)
    requires WellFormed(rs) && !Blank(emoji) && actor !in Actors(rs, emoji)
    ensures Merge(Merge(rs, emoji, actor, false).0, emoji, actor, true) == (rs, true)
  {
    hide Merge;
    AddShape(rs, emoji, actor);
    MergeIsWellFormed(rs, emoji, actor, false);
    var once := Merge(rs, emoji, actor, false).0;
    var k := Position(rs, emoji);
    PositionAt(once, emoji, k);
    RemoveShape(once, emoji, actor);
    if k < |rs| {
      var actors := rs[k].actors;
      assert actor !in actors;
      assert (actors + [actor])[..|actors|] == actors;
      IndexOfFinds(actors + [actor], actor, |actors|);
      assert (actors + [actor])[|actors| + 1..] == [];
      assert WithoutActor(once[k], actor) == rs[k];
      assert once[k := rs[k]] == rs;
    } else {
      assert once[..k] + once[k + 1..] == rs;
    }
  }

  /** The reported change is a real one, except that adding a blank emoji claims a change
      and leaves the list as it is. */
  lemma ChangedIsRealIff(rs: seq<Reaction>, emoji: string, actor: string, remove: bool)
    requires WellFormed(rs)
    ensures var (next, changed) := Merge(rs, emoji, actor, remove);
            (changed <==> next != rs) <==> (remove || !Blank(emoji))
  {
    var k := Position(rs, emoji);
    if remove { RemoveShape(rs, emoji, actor); } else { AddShape(rs, emoji, actor); }
    if remove && k < |rs| && actor in rs[k].actors && |rs[k].actors| > 1 {
      ActorTakenOut(rs[k].actors, actor);
      assert |WithoutActor(rs[k], actor).actors| < |rs[k].actors|;
    }
  }
}
