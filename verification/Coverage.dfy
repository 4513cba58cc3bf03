/**
 When the assignor leaves a partition to nobody. The cap on a member's share can keep every subscriber
 from taking one more; here is exactly for which subscriptions that can happen.
 */
module Coverage {
  import opened Sets
  import opened Coordinator
  import M = Marriage

  function Subscribers(subs: Subscriptions, topic: Topic): set<MemberId> {
    set id | id in subs && topic in subs[id]
  }

  /** The partitions a group of members may have. */
  function PartsFor(subs: Subscriptions, parts: map<Topic, set<nat>>, ids: set<MemberId>): set<Part> {
    set id, t, p | id in ids && id in subs && t in subs[id] && t in parts && p in parts[t] :: (t, p)
  }

  /** Some subscribers of the topic have, between them, room for every partition they may have. */
  ghost predicate Roomy(subs: Subscriptions, parts: map<Topic, set<nat>>, topic: Topic) {
    exists ids: set<MemberId> ::
      ids != {} && ids <= Subscribers(subs, topic) && |PartsFor(subs, parts, ids)| <= Cap(subs, parts) * |ids|
  }

  // ---------- room means coverage ----------

  lemma HeldIn(subs: Subscriptions, parts: map<Topic, set<nat>>, assignment: map<MemberId, seq<Part>>,
               ids: set<MemberId>)
    requires Subscribed(subs, parts, assignment)
    ensures PartsOf(ids, assignment) <= PartsFor(subs, parts, ids)
  {
    forall tp | tp in PartsOf(ids, assignment) ensures tp in PartsFor(subs, parts, ids) {
      var id :| id in ids && id in assignment && tp in assignment[id];
      assert tp.0 in subs[id] && tp in Wanted(subs, parts);
      WantedIs(subs, parts, tp);
      assert tp == (tp.0, tp.1);
    }
  }

  lemma WantedIs(subs: Subscriptions, parts: map<Topic, set<nat>>, tp: Part)
    ensures tp in Wanted(subs, parts) <==> Subscribers(subs, tp.0) != {} && tp.0 in parts && tp.1 in parts[tp.0]
  {
    if Subscribers(subs, tp.0) != {} && tp.0 in parts && tp.1 in parts[tp.0] {
      var id :| id in Subscribers(subs, tp.0);
      assert tp == (tp.0, tp.1) && tp.0 in subs[id];
    }
    if tp in Wanted(subs, parts) {
      var id :| id in subs && tp.0 in subs[id] && tp.0 in parts && tp.1 in parts[tp.0];
      assert id in Subscribers(subs, tp.0);
    }
  }

  lemma RoomCovers(subs: Subscriptions, parts: map<Topic, set<nat>>, assignment: map<MemberId, seq<Part>>, tp: Part)
    requires Balanced(subs, parts, assignment) && tp in Wanted(subs, parts) && Roomy(subs, parts, tp.0)
    ensures Owned(assignment, tp)
  {
    if !Owned(assignment, tp) {
      hide Wanted, Cap, Disjoint;
      var cap := Cap(subs, parts);
      var ids: set<MemberId> :| ids != {} && ids <= Subscribers(subs, tp.0) &&
                                |PartsFor(subs, parts, ids)| <= cap * |ids|;
      FullMembers(ids, assignment, cap);
      HeldIn(subs, parts, assignment, ids);
      MayHave(subs, parts, ids, tp);
      assert tp !in PartsOf(ids, assignment);
      Smaller(PartsOf(ids, assignment), PartsFor(subs, parts, ids) - {tp});
      assert false;
    }
  }

  lemma MayHave(subs: Subscriptions, parts: map<Topic, set<nat>>, ids: set<MemberId>, tp: Part)
    requires ids != {} && ids <= Subscribers(subs, tp.0) && tp in Wanted(subs, parts)
    ensures tp in PartsFor(subs, parts, ids)
  {
    WantedIs(subs, parts, tp);
    var id :| id in ids;
    assert tp == (tp.0, tp.1) && id in subs && tp.0 in subs[id];
  }

  // ---------- no room means that it can be left out ----------

  /** One place for each partition a subscriber may get. */
  function Places(ids: set<MemberId>, cap: nat): set<(MemberId, nat)> {
    set id, i | id in ids && 0 <= i < cap :: (id, i)
  }

  lemma {:induction false} PlacesCount(ids: set<MemberId>, cap: nat)
    ensures |Places(ids, cap)| == cap * |ids|
    decreases |ids|
  {
    if ids == {} {
      assert Places(ids, cap) == {};
    } else {
      var id :| id in ids;
      PlacesCount(ids - {id}, cap);
      OwnPlaces(id, cap);
      assert Places(ids, cap) == Places(ids - {id}, cap) + Places({id}, cap);
      assert Places(ids - {id}, cap) !! Places({id}, cap);
      OneMoreTimes(cap, |ids - {id}|, |ids|);
    }
  }

  lemma {:induction false} OwnPlaces(id: MemberId, cap: nat)
    ensures |Places({id}, cap)| == cap
  {
    if cap == 0 {
      assert Places({id}, 0) == {};
    } else {
      OwnPlaces(id, cap - 1);
      assert Places({id}, cap) == Places({id}, cap - 1) + {(id, cap - 1)};
    }
  }

  /** What each place may be given, all but one partition. */
  ghost function Likes(subs: Subscriptions, parts: map<Topic, set<nat>>, tp: Part): map<(MemberId, nat), set<Part>> {
    map q | q in Places(Subscribers(subs, tp.0), Cap(subs, parts)) :: PartsFor(subs, parts, {q.0}) - {tp}
  }

  lemma NoRoomIsEnough(subs: Subscriptions, parts: map<Topic, set<nat>>, tp: Part)
    requires !Roomy(subs, parts, tp.0)
    ensures M.Enough(Likes(subs, parts, tp))
  {
    hide Cap;
    var cap, likes := Cap(subs, parts), Likes(subs, parts, tp);
    forall group: set<(MemberId, nat)> | group <= likes.Keys ensures |group| <= |M.Liked(likes, group)| {
      if group != {} {
        var ids := set q | q in group :: q.0;
        GroupLikes(subs, parts, tp, group, ids);
        assert group <= Places(ids, cap);
        Smaller(group, Places(ids, cap));
        PlacesCount(ids, cap);
        assert ids <= Subscribers(subs, tp.0);
        var some :| some in group;
        assert some.0 in ids;
        assert cap * |ids| < |PartsFor(subs, parts, ids)|;
        OneLess(PartsFor(subs, parts, ids), tp);
      }
    }
  }

  lemma OneLess(s: set<Part>, tp: Part)
    ensures |s| - 1 <= |s - {tp}|
  {
    if tp in s { assert s == s - {tp} + {tp}; } else { assert s == s - {tp}; }
  }

  lemma GroupLikes(subs: Subscriptions, parts: map<Topic, set<nat>>, tp: Part, group: set<(MemberId, nat)>,
                   ids: set<MemberId>)
    requires group <= Likes(subs, parts, tp).Keys && ids == set q | q in group :: q.0
    ensures M.Liked(Likes(subs, parts, tp), group) == PartsFor(subs, parts, ids) - {tp}
  {
    var likes := Likes(subs, parts, tp);
    forall x | x in PartsFor(subs, parts, ids) - {tp} ensures x in M.Liked(likes, group) {
      var id :| id in ids && id in subs && x.0 in subs[id] && x.0 in parts && x.1 in parts[x.0];
      var q :| q in group && q.0 == id;
      assert x == (x.0, x.1) && x in PartsFor(subs, parts, {id});
      assert x in likes[q];
    }
    forall x | x in M.Liked(likes, group) ensures x in PartsFor(subs, parts, ids) - {tp} {
      var q :| q in group && q in likes && x in likes[q];
      var id :| id in {q.0} && id in subs && x.0 in subs[id] && x.0 in parts && x.1 in parts[x.0];
      assert id in ids && x == (x.0, x.1);
    }
  }

  /** The shares a matching gives the subscribers; everybody else has nothing yet. */
  ghost function SharesOf(subs: Subscriptions, topic: Topic, cap: nat,
                          m: map<(MemberId, nat), Part>): map<MemberId, seq<Part>>
    requires forall id: MemberId, i: nat :: id in Subscribers(subs, topic) && i < cap ==> (id, i) in m
  {
    map id | id in subs :: if topic in subs[id] then Share(id, cap, m) else []
  }

  ghost function Share(id: MemberId, cap: nat, m: map<(MemberId, nat), Part>): (s: seq<Part>)
    requires forall i: nat :: i < cap ==> (id, i) in m
    ensures |s| == cap && forall i :: 0 <= i < cap ==> s[i] == m[(id, i)]
  {
    seq(cap, i requires 0 <= i < cap => m[(id, i)])
  }

  lemma Placed(subs: Subscriptions, parts: map<Topic, set<nat>>, tp: Part, m: map<(MemberId, nat), Part>)
    requires M.Matches(Likes(subs, parts, tp), m)
    ensures forall id: MemberId, i: nat :: id in Subscribers(subs, tp.0) && i < Cap(subs, parts) ==>
              (id, i) in m && m[(id, i)] in PartsFor(subs, parts, {id}) - {tp}
  {
    hide Cap, PartsFor;
    var cap, likes := Cap(subs, parts), Likes(subs, parts, tp);
    forall id: MemberId, i: nat | id in Subscribers(subs, tp.0) && i < cap
      ensures (id, i) in m && m[(id, i)] in PartsFor(subs, parts, {id}) - {tp}
    {
      assert (id, i) in Places(Subscribers(subs, tp.0), cap);
      assert (id, i) in likes && m[(id, i)] in likes[(id, i)];
    }
  }

  ghost predicate Injective(m: map<(MemberId, nat), Part>) {
    forall a, b :: a in m && b in m && a != b ==> m[a] != m[b]
  }

  lemma MatchesOnce(likes: map<(MemberId, nat), set<Part>>, m: map<(MemberId, nat), Part>)
    requires M.Matches(likes, m)
    ensures Injective(m)
  {
  }

  lemma SharesDiffer(subs: Subscriptions, topic: Topic, cap: nat, m: map<(MemberId, nat), Part>)
    requires forall id: MemberId, i: nat :: id in Subscribers(subs, topic) && i < cap ==> (id, i) in m
    requires Injective(m)
    ensures Disjoint(SharesOf(subs, topic, cap, m))
  {
    var start := SharesOf(subs, topic, cap, m);
    forall a, b, x | a in start && b in start && a != b && x in start[a] ensures x !in start[b] {
      var i :| 0 <= i < |start[a]| && start[a][i] == x;
      assert a in Subscribers(subs, topic) && (a, i) in m;
      forall j | 0 <= j < |start[b]| ensures start[b][j] != x {
        assert b in Subscribers(subs, topic) && (b, j) in m && (a, i) != (b, j);
      }
    }
    forall a | a in start ensures NoDuplicates(start[a]) {
      forall i, j | 0 <= i < j < |start[a]| ensures start[a][i] != start[a][j] {
        assert a in Subscribers(subs, topic) && (a, i) in m && (a, j) in m && (a, i) != (a, j);
      }
    }
  }

  lemma SharesWanted(subs: Subscriptions, parts: map<Topic, set<nat>>, tp: Part, cap: nat,
                     m: map<(MemberId, nat), Part>, id: MemberId, x: Part)
    requires forall a: MemberId, i: nat ::
               a in Subscribers(subs, tp.0) && i < cap ==> (a, i) in m && m[(a, i)] in PartsFor(subs, parts, {a}) - {tp}
    requires id in subs && x in SharesOf(subs, tp.0, cap, m)[id]
    ensures x != tp && Keepable(subs, Wanted(subs, parts), id, x)
  {
    hide PartsFor, Wanted;
    var share := SharesOf(subs, tp.0, cap, m)[id];
    var i :| 0 <= i < |share| && share[i] == x;
    assert id in Subscribers(subs, tp.0);
    assert m[(id, i)] in PartsFor(subs, parts, {id}) - {tp};
    LikedIs(subs, parts, id, x);
  }

  /** Shares that are disjoint, without the one partition, and full for those who subscribe to its topic. */
  ghost predicate FullShares(subs: Subscriptions, wanted: set<Part>, cap: nat, tp: Part,
                             start: map<MemberId, seq<Part>>)
  {
    && start.Keys == subs.Keys && WithinCap(start, cap) && Disjoint(start) && !Owned(start, tp)
    && (forall id, x :: id in start && x in start[id] ==> Keepable(subs, wanted, id, x))
    && (forall id :: id in start && id in Subscribers(subs, tp.0) ==> |start[id]| == cap)
  }

  /** Matched shares are such. */
  lemma SharesOk(subs: Subscriptions, parts: map<Topic, set<nat>>, tp: Part, cap: nat, m: map<(MemberId, nat), Part>)
    requires forall id: MemberId, i: nat :: id in Subscribers(subs, tp.0) && i < cap ==>
               (id, i) in m && m[(id, i)] in PartsFor(subs, parts, {id}) - {tp}
    requires Injective(m)
    ensures FullShares(subs, Wanted(subs, parts), cap, tp, SharesOf(subs, tp.0, cap, m))
  {
    hide Wanted, Disjoint, Keepable, PartsFor;
    SharesDiffer(subs, tp.0, cap, m);
    var start := SharesOf(subs, tp.0, cap, m);
    forall id, x | id in start && x in start[id] ensures x != tp && Keepable(subs, Wanted(subs, parts), id, x) {
      SharesWanted(subs, parts, tp, cap, m, id, x);
    }
  }

  lemma LikedIs(subs: Subscriptions, parts: map<Topic, set<nat>>, id: MemberId, x: Part)
    requires x in PartsFor(subs, parts, {id})
    ensures Keepable(subs, Wanted(subs, parts), id, x)
  {
    var a :| a in {id} && a in subs && x.0 in subs[a] && x.0 in parts && x.1 in parts[x.0];
    assert a == id && x == (x.0, x.1);
  }

  /** Hands out every partition but one, whoever can take it. */
  lemma {:induction false} HandOut(subs: Subscriptions, wanted: set<Part>, cap: nat, start: map<MemberId, seq<Part>>,
                                   current: map<MemberId, seq<Part>>, todo: set<Part>, tp: Part)
    returns (final: map<MemberId, seq<Part>>)
    requires Handing(subs, wanted, cap, start, current, todo) && tp in todo
    ensures Handing(subs, wanted, cap, start, final, {tp})
    decreases |todo|
  {
    if todo == {tp} {
      final := current;
    } else {
      var x :| x in todo && x != tp;
      assert current.Keys == subs.Keys;
      if id :| id in subs && x.0 in subs[id] && |current[id]| < cap {
        Give(subs, wanted, cap, start, current, todo, x, id);
        final := HandOut(subs, wanted, cap, start, current[id := current[id] + [x]], todo - {x}, tp);
      } else {
        LeaveOut(subs, wanted, cap, start, current, todo, x);
        final := HandOut(subs, wanted, cap, start, current, todo - {x}, tp);
      }
    }
  }

  lemma HandedBalanced(subs: Subscriptions, parts: map<Topic, set<nat>>, start: map<MemberId, seq<Part>>,
                       final: map<MemberId, seq<Part>>)
    requires Handing(subs, Wanted(subs, parts), Cap(subs, parts), start, final, {})
    ensures Balanced(subs, parts, final)
  {
    var wanted := Wanted(subs, parts);
    hide Wanted, Cap, Disjoint;
    forall id, x | id in final && x in final[id]
      ensures id in subs && x.0 in subs[id] && x in wanted
    {
      assert Keepable(subs, wanted, id, x);
    }
  }

  /** Where no subscribers have room for all they may have, some balanced assignment leaves the partition out. */
  lemma NoRoomLeavesOut(subs: Subscriptions, parts: map<Topic, set<nat>>, tp: Part)
    returns (assignment: map<MemberId, seq<Part>>)
    requires tp in Wanted(subs, parts) && !Roomy(subs, parts, tp.0)
    ensures Balanced(subs, parts, assignment) && !Owned(assignment, tp)
  {
    hide Roomy, Likes, M.Enough, M.Matches, Cap, Handing, WithinCap, Disjoint, Share;
    var wanted, cap := Wanted(subs, parts), Cap(subs, parts);
    NoRoomIsEnough(subs, parts, tp);
    var m := M.Marry(Likes(subs, parts, tp));
    Placed(subs, parts, tp, m);
    assert Injective(m) by { MatchesOnce(Likes(subs, parts, tp), m); }
    SharesOk(subs, parts, tp, cap, m);
    var start := SharesOf(subs, tp.0, cap, m);
    hide Wanted, SharesOf;
    var todo := set x | x in wanted && !Owned(start, x);
    StartHanding(subs, wanted, cap, start);
    assignment := HandOut(subs, wanted, cap, start, start, todo, tp);
    LastUnowned(subs, wanted, cap, start, assignment, tp);
    LeaveOut(subs, wanted, cap, start, assignment, {tp}, tp);
    assert {tp} - {tp} == {};
    HandedBalanced(subs, parts, start, assignment);
  }

  lemma LastUnowned(subs: Subscriptions, wanted: set<Part>, cap: nat, start: map<MemberId, seq<Part>>,
                    final: map<MemberId, seq<Part>>, tp: Part)
    requires Handing(subs, wanted, cap, start, final, {tp})
    requires forall id :: id in Subscribers(subs, tp.0) ==> id in start && cap <= |start[id]|
    ensures !Owned(final, tp) && forall id :: id in subs && tp.0 in subs[id] ==> id in final && cap <= |final[id]|
  {
    forall id | id in subs && tp.0 in subs[id] ensures id in final && cap <= |final[id]| {
      assert id in Subscribers(subs, tp.0);
      assert start[id] <= final[id];
    }
  }

  // ---------- the exact condition ----------

  /**
   A partition is owned in every balanced assignment if and only if some of its subscribers have room,
   between them, for every partition they may have.
   */
  lemma CoveredExactly(subs: Subscriptions, parts: map<Topic, set<nat>>, tp: Part)
    requires tp in Wanted(subs, parts)
    ensures (forall assignment: map<MemberId, seq<Part>> :: Balanced(subs, parts, assignment) ==> Owned(assignment, tp))
            <==> Roomy(subs, parts, tp.0)
  {
    hide Roomy, Balanced, Owned, Wanted;
    if Roomy(subs, parts, tp.0) {
      forall assignment: map<MemberId, seq<Part>> | Balanced(subs, parts, assignment) ensures Owned(assignment, tp) {
        RoomCovers(subs, parts, assignment, tp);
      }
    } else {
      var assignment := NoRoomLeavesOut(subs, parts, tp);
    }
  }

  /**
   A partition left out stays left out: a rebalance with the same members and partitions gives the full ones
   nothing new.
   */
  lemma LeftOutStays(previous: map<MemberId, seq<Part>>, subs: Subscriptions, parts: map<Topic, set<nat>>,
                     assignment: map<MemberId, seq<Part>>, tp: Part)
    requires Balanced(subs, parts, previous) && tp in Wanted(subs, parts) && !Owned(previous, tp)
    requires Rebalanced(previous, subs, parts, assignment)
    ensures !Owned(assignment, tp)
  {
    if Owned(assignment, tp) {
      hide Wanted, Cap, Disjoint;
      var id :| id in assignment && tp in assignment[id];
      var cap := Cap(subs, parts);
      assert id in subs && tp.0 in subs[id];
      assert |previous[id]| == cap && |assignment[id]| <= cap;
      forall x | x in previous[id] ensures x in assignment[id] || cap <= |KeptOf(previous[id], assignment[id])| {
        assert x.0 in subs[id] && x in Wanted(subs, parts);
      }
      assert NoDuplicates(previous[id]) && NoDuplicates(assignment[id]) by {
        OwnOnce(previous, id);
        OwnOnce(assignment, id);
      }
      FullKept(previous[id], assignment[id], cap, tp);
      assert false;
    }
  }

  lemma OwnOnce(assignment: map<MemberId, seq<Part>>, id: MemberId)
    requires Disjoint(assignment) && id in assignment
    ensures NoDuplicates(assignment[id])
  {
  }

  lemma FullKept(previous: seq<Part>, now: seq<Part>, cap: nat, tp: Part)
    requires NoDuplicates(previous) && NoDuplicates(now) && |previous| == cap && |now| <= cap
    requires forall x :: x in previous ==> x in now || cap <= |KeptOf(previous, now)|
    ensures tp in now ==> tp in previous
  {
    var had, has := set x | x in previous, set x | x in now;
    ListSize(previous);
    ListSize(now);
    var kept := KeptOf(previous, now);
    if kept != had {
      var x :| x in had && x !in kept;
      Smaller(kept, had - {x});
    }
    if tp in now && tp !in previous {
      Smaller(had, has - {tp});
      assert false;
    }
  }

  // ---------- two special cases ----------

  /** If all members subscribe to the same topics, no partition is left out. */
  lemma SameTopicsCovered(subs: Subscriptions, parts: map<Topic, set<nat>>, assignment: map<MemberId, seq<Part>>,
                          tp: Part)
    requires Balanced(subs, parts, assignment) && tp in Wanted(subs, parts)
    requires forall a, b :: a in subs && b in subs ==> subs[a] == subs[b]
    ensures Owned(assignment, tp)
  {
    var ids := subs.Keys;
    WantedIs(subs, parts, tp);
    var who :| who in Subscribers(subs, tp.0);
    assert ids <= Subscribers(subs, tp.0) by {
      forall id | id in ids ensures tp.0 in subs[id] { assert subs[id] == subs[who]; }
    }
    assert PartsFor(subs, parts, ids) == Wanted(subs, parts);
    assert |ids| == |subs| && 0 < |subs|;
    CeilCovers(|Wanted(subs, parts)|, |subs|);
    RoomCovers(subs, parts, assignment, tp);
  }

  lemma {:induction false} AtMostFull(ids: set<MemberId>, assignment: map<MemberId, seq<Part>>, cap: nat)
    requires Disjoint(assignment) && ids <= assignment.Keys && WithinCap(assignment, cap)
    ensures |PartsOf(ids, assignment)| <= cap * |ids|
    decreases |ids|
  {
    if ids == {} {
      assert PartsOf(ids, assignment) == {};
    } else {
      var id :| id in ids;
      hide PartsOf, Disjoint;
      AtMostFull(ids - {id}, assignment, cap);
      OneMore(ids, id, assignment);
      OneMoreTimes(cap, |ids - {id}|, |ids|);
    }
  }

  /**
   Partitions that outnumber what the members subscribed to them may have: every balanced assignment leaves
   one out.
   */
  lemma CrowdedLeavesOut(subs: Subscriptions, parts: map<Topic, set<nat>>, assignment: map<MemberId, seq<Part>>,
                         crowd: set<Part>, ids: set<MemberId>) returns (tp: Part)
    requires Balanced(subs, parts, assignment) && crowd <= Wanted(subs, parts) && ids <= subs.Keys
    requires forall x, id :: x in crowd && id in subs && x.0 in subs[id] ==> id in ids
    requires Cap(subs, parts) * |ids| < |crowd|
    ensures tp in crowd && !Owned(assignment, tp)
  {
    hide Wanted, Cap, Disjoint;
    AtMostFull(ids, assignment, Cap(subs, parts));
    if forall x :: x in crowd ==> Owned(assignment, x) {
      forall x | x in crowd ensures x in PartsOf(ids, assignment) {
        var id :| id in assignment && x in assignment[id];
      }
      Smaller(crowd, PartsOf(ids, assignment));
      assert false;
    }
    tp :| tp in crowd && !Owned(assignment, tp);
  }

  const MixedSubs: Subscriptions := map["a" := {"x"}, "b" := {"y"}]
  const MixedParts: map<Topic, set<nat>> := map["x" := {0, 1, 2}, "y" := {0}]

  lemma MixedCap()
    ensures Wanted(MixedSubs, MixedParts) == {("x", 0), ("x", 1), ("x", 2), ("y", 0)} && Cap(MixedSubs, MixedParts) == 2
  {
    assert MixedSubs.Keys == {"a", "b"} && "a" != "b" && "x" != "y";
    assert |MixedSubs| == |MixedSubs.Keys| == 2;
    assert Wanted(MixedSubs, MixedParts) == {("x", 0), ("x", 1), ("x", 2), ("y", 0)} by {
      assert MixedSubs["a"] == {"x"} && MixedSubs["b"] == {"y"} && MixedParts["x"] == {0, 1, 2} &&
             MixedParts["y"] == {0};
    }
  }

  /** With three partitions of one topic for one member of two, every balanced assignment leaves one of them out. */
  lemma MixedTopicsLeaveOut(assignment: map<MemberId, seq<Part>>) returns (tp: Part)
    requires Balanced(MixedSubs, MixedParts, assignment)
    ensures tp in {("x", 0), ("x", 1), ("x", 2)} && !Owned(assignment, tp)
  {
    hide Balanced, Cap, Wanted;
    MixedCap();
    var crowd: set<Part> := {("x", 0), ("x", 1), ("x", 2)};
    assert "x" != "y" && |crowd| == 3 && |{"a"}| == 1;
    tp := CrowdedLeavesOut(MixedSubs, MixedParts, assignment, crowd, {"a"});
  }
}
