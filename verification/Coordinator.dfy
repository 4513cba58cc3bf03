/**
 A consumer group: members join, heartbeat, leave and expire, and every change of membership or
 subscription reassigns the partitions of the subscribed topics, keeping what can be kept.
 */
module Coordinator {
  import opened Basics
  import opened Sets

  type Topic = string
  type MemberId = string
  /** A topic and a partition number. */
  type Part = (Topic, nat)

  const MAX_TOPICS_PER_MEMBER: nat := 100
  const MAX_MEMBERS_PER_GROUP: nat := 1000

  datatype Member = Member(topics: set<Topic>, lastHeartbeat: nat, owner: string)

  /** The topics of each member. */
  type Subscriptions = map<MemberId, set<Topic>>

  /** The caller of an operation. */
  datatype Caller = Caller(keyId: string, admin: bool)

  // ---------- what an assignment promises ----------

  /** Every existing partition of a topic somebody subscribed to. */
  function Wanted(subs: Subscriptions, parts: map<Topic, set<nat>>): set<Part> {
    set id, t, p | id in subs && t in subs[id] && t in parts && p in parts[t] :: (t, p)
  }

  function CeilDiv(n: nat, m: nat): nat
    requires 0 < m
  {
    (n + m - 1) / m
  }

  function Cap(subs: Subscriptions, parts: map<Topic, set<nat>>): nat {
    if |subs| == 0 then 0 else CeilDiv(|Wanted(subs, parts)|, |subs|)
  }

  predicate NoDuplicates<T(==)>(s: seq<T>) {
    forall i, j :: 0 <= i < j < |s| ==> s[i] != s[j]
  }

  /** No partition is assigned twice, to one member or to two. */
  predicate Disjoint(assignment: map<MemberId, seq<Part>>) {
    && (forall a :: a in assignment ==> NoDuplicates(assignment[a]))
    && (forall a, b, tp :: a in assignment && b in assignment && a != b && tp in assignment[a] ==> tp !in assignment[b])
  }

  predicate Owned(assignment: map<MemberId, seq<Part>>, tp: Part) {
    exists id :: id in assignment && tp in assignment[id]
  }

  /** Members get only existing partitions of topics they subscribed to. */
  predicate Subscribed(subs: Subscriptions, parts: map<Topic, set<nat>>, assignment: map<MemberId, seq<Part>>) {
    forall id, tp :: id in assignment && tp in assignment[id] ==>
      id in subs && tp.0 in subs[id] && tp in Wanted(subs, parts)
  }

  predicate WithinCap(assignment: map<MemberId, seq<Part>>, cap: nat) {
    forall id :: id in assignment ==> |assignment[id]| <= cap
  }

  /** A partition is left out only if every subscriber is at the cap. */
  predicate Maximal(subs: Subscriptions, parts: map<Topic, set<nat>>, assignment: map<MemberId, seq<Part>>, cap: nat) {
    forall tp, id :: tp in Wanted(subs, parts) && !Owned(assignment, tp) && id in subs && tp.0 in subs[id] ==>
      id in assignment && cap <= |assignment[id]|
  }

  /** Of the partitions a member had, those it has now. */
  function KeptOf(previous: seq<Part>, now: seq<Part>): set<Part> {
    set tp | tp in previous && tp in now
  }

  /** A member that still could have a partition it had loses it only when it kept as many of them as the cap allows. */
  predicate Sticky(previous: map<MemberId, seq<Part>>, subs: Subscriptions, parts: map<Topic, set<nat>>,
                   assignment: map<MemberId, seq<Part>>, cap: nat) {
    forall id, tp ::
      id in previous && tp in previous[id] && id in subs && tp.0 in subs[id] && tp in Wanted(subs, parts) ==>
      id in assignment && (tp in assignment[id] || cap <= |KeptOf(previous[id], assignment[id])|)
  }

  predicate Balanced(subs: Subscriptions, parts: map<Topic, set<nat>>, assignment: map<MemberId, seq<Part>>) {
    && assignment.Keys == subs.Keys && Disjoint(assignment) && Subscribed(subs, parts, assignment)
    && WithinCap(assignment, Cap(subs, parts)) && Maximal(subs, parts, assignment, Cap(subs, parts))
  }

  /** The outcome of a rebalance. */
  predicate Rebalanced(previous: map<MemberId, seq<Part>>, subs: Subscriptions, parts: map<Topic, set<nat>>,
                       assignment: map<MemberId, seq<Part>>) {
    Balanced(subs, parts, assignment) && Sticky(previous, subs, parts, assignment, Cap(subs, parts))
  }

  // ---------- pass one: keep what can be kept ----------

  /** A partition a member may keep. */
  predicate Keepable(subs: Subscriptions, wanted: set<Part>, id: MemberId, tp: Part) {
    id in subs && tp.0 in subs[id] && tp in wanted
  }

  /** One member's share of the previous assignment, up to the cap. */
  method KeepShare(topics: set<Topic>, prev: seq<Part>, wanted: set<Part>, cap: nat) returns (kept: seq<Part>)
    requires NoDuplicates(prev)
    ensures NoDuplicates(kept) && |kept| <= cap
    ensures forall tp :: tp in kept ==> tp in prev && tp in wanted && tp.0 in topics
    ensures forall tp :: tp in prev && tp in wanted && tp.0 in topics ==> tp in kept || |kept| == cap
  {
    kept := [];
    var i := 0;
    while i < |prev|
      invariant 0 <= i <= |prev| && NoDuplicates(kept) && |kept| <= cap
      invariant forall tp :: tp in kept ==> tp in prev[..i] && tp in wanted && tp.0 in topics
      invariant forall tp :: tp in prev[..i] && tp in wanted && tp.0 in topics ==> tp in kept || |kept| == cap
    {
      var tp := prev[i];
      assert tp !in prev[..i];
      assert prev[..i + 1] == prev[..i] + [tp];
      if tp in wanted && tp.0 in topics && |kept| < cap { kept := kept + [tp]; }
      i := i + 1;
    }
    assert prev[..i] == prev;
  }

  /** Kept shares: parts of the previous lists, within the cap, and complete unless at the cap. */
  predicate Shares(previous: map<MemberId, seq<Part>>, subs: Subscriptions, wanted: set<Part>, cap: nat,
                   current: map<MemberId, seq<Part>>, todo: set<MemberId>) {
    && current.Keys == subs.Keys && WithinCap(current, cap)
    && (forall a :: a in current ==> NoDuplicates(current[a]))
    && (forall a, tp ::
          a in current && tp in current[a] ==>
            a !in todo && a in previous && tp in previous[a] && Keepable(subs, wanted, a, tp))
    && (forall a, tp :: a in previous && a !in todo && tp in previous[a] && Keepable(subs, wanted, a, tp) ==>
          tp in current[a] || |current[a]| == cap)
  }

  method PassOne(previous: map<MemberId, seq<Part>>, subs: Subscriptions, wanted: set<Part>, cap: nat)
    returns (current: map<MemberId, seq<Part>>)
    requires Disjoint(previous)
    ensures Shares(previous, subs, wanted, cap, current, {}) && Disjoint(current)
  {
    hide Shares;
    SharesStart(previous, subs, wanted, cap);
    current := map id | id in subs :: [];
    var todo := previous.Keys;
    while todo != {}
      invariant todo <= previous.Keys && Shares(previous, subs, wanted, cap, current, todo)
      decreases |todo|
    {
      var id :| id in todo;
      if id in subs {
        var kept := KeepShare(subs[id], previous[id], wanted, cap);
        SharesStep(previous, subs, wanted, cap, current, todo, id, kept);
        current := current[id := kept];
      } else {
        SharesSkip(previous, subs, wanted, cap, current, todo, id);
      }
      todo := todo - {id};
    }
    SharesDisjoint(previous, subs, wanted, cap, current);
  }

  lemma SharesStart(previous: map<MemberId, seq<Part>>, subs: Subscriptions, wanted: set<Part>, cap: nat)
    ensures Shares(previous, subs, wanted, cap, map id | id in subs :: [], previous.Keys)
  {
  }

  lemma SharesSkip(previous: map<MemberId, seq<Part>>, subs: Subscriptions, wanted: set<Part>, cap: nat,
                   current: map<MemberId, seq<Part>>, todo: set<MemberId>, id: MemberId)
    requires Shares(previous, subs, wanted, cap, current, todo) && id !in subs
    ensures Shares(previous, subs, wanted, cap, current, todo - {id})
  {
  }

  lemma SharesStep(previous: map<MemberId, seq<Part>>, subs: Subscriptions, wanted: set<Part>, cap: nat,
                   current: map<MemberId, seq<Part>>, todo: set<MemberId>, id: MemberId, kept: seq<Part>)
    requires Shares(previous, subs, wanted, cap, current, todo) && id in todo && id in subs && id in previous
    requires NoDuplicates(kept) && |kept| <= cap
    requires forall tp :: tp in kept ==> tp in previous[id] && Keepable(subs, wanted, id, tp)
    requires forall tp :: tp in previous[id] && Keepable(subs, wanted, id, tp) ==> tp in kept || |kept| == cap
    ensures Shares(previous, subs, wanted, cap, current[id := kept], todo - {id})
  {
    hide NoDuplicates, Keepable;
  }

  lemma SharesDisjoint(previous: map<MemberId, seq<Part>>, subs: Subscriptions, wanted: set<Part>, cap: nat,
                       current: map<MemberId, seq<Part>>)
    requires Disjoint(previous) && Shares(previous, subs, wanted, cap, current, {})
    ensures Disjoint(current)
  {
  }

  // ---------- pass two: hand out the rest ----------

  /** The least loaded subscriber below the cap. */
  method LeastLoaded(subs: Subscriptions, current: map<MemberId, seq<Part>>, topic: Topic, cap: nat)
    returns (best: Option<MemberId>)
    requires current.Keys == subs.Keys
    ensures best.Some? ==> best.value in subs && topic in subs[best.value] && |current[best.value]| < cap
    ensures best.Some? ==> forall id :: id in subs && topic in subs[id] ==> |current[best.value]| <= |current[id]|
    ensures best.None? ==> forall id :: id in subs && topic in subs[id] ==> cap <= |current[id]|
  {
    best := None;
    var todo := subs.Keys;
    while todo != {}
      invariant todo <= subs.Keys
      invariant best.Some? ==> best.value in subs && topic in subs[best.value] && |current[best.value]| < cap
      invariant best.Some? ==>
                  forall id :: id in subs && id !in todo && topic in subs[id] ==> |current[best.value]| <= |current[id]|
      invariant best.None? ==> forall id :: id in subs && id !in todo && topic in subs[id] ==> cap <= |current[id]|
      decreases |todo|
    {
      var id :| id in todo;
      todo := todo - {id};
      if topic in subs[id] && |current[id]| < cap && (best.None? || |current[id]| < |current[best.value]|) {
        best := Some(id);
      }
    }
  }

  /** In the middle of handing out: `todo` are the partitions nobody has yet and nobody was asked about. */
  ghost predicate Handing(subs: Subscriptions, wanted: set<Part>, cap: nat, start: map<MemberId, seq<Part>>,
                          current: map<MemberId, seq<Part>>, todo: set<Part>) {
    && current.Keys == subs.Keys && start.Keys == subs.Keys && WithinCap(current, cap) && Disjoint(current) &&
       todo <= wanted
    && (forall id, tp :: id in current && tp in current[id] ==> Keepable(subs, wanted, id, tp) && tp !in todo)
    && (forall id :: id in current ==> start[id] <= current[id])
    && (forall tp, id ::
          tp in wanted && tp !in todo && !Owned(current, tp) && id in subs && tp.0 in subs[id] ==> cap <= |current[id]|)
  }

  lemma GiveDisjoint(current: map<MemberId, seq<Part>>, id: MemberId, tp: Part)
    requires Disjoint(current) && id in current && !Owned(current, tp)
    ensures Disjoint(current[id := current[id] + [tp]])
  {
    var next := current[id := current[id] + [tp]];
    assert forall a :: a in current ==> tp !in current[a];
  }

  /** Giving an unowned partition to a subscriber below the cap. */
  lemma Give(subs: Subscriptions, wanted: set<Part>, cap: nat, start: map<MemberId, seq<Part>>,
             current: map<MemberId, seq<Part>>, todo: set<Part>, tp: Part, id: MemberId)
    requires Handing(subs, wanted, cap, start, current, todo) && tp in todo
    requires id in subs && tp.0 in subs[id] && |current[id]| < cap
    ensures Handing(subs, wanted, cap, start, current[id := current[id] + [tp]], todo - {tp})
  {
    hide Disjoint;
    var next := current[id := current[id] + [tp]];
    assert !Owned(current, tp);
    GiveDisjoint(current, id, tp);
    assert tp in next[id];
    OwnedStays(current, id, tp);
    forall x, a | x in wanted && x !in todo - {tp} && !Owned(next, x) && a in subs && x.0 in subs[a]
      ensures cap <= |next[a]|
    {
      assert x != tp && !Owned(current, x);
    }
  }

  lemma OwnedStays(current: map<MemberId, seq<Part>>, id: MemberId, tp: Part)
    requires id in current
    ensures forall x :: Owned(current, x) ==> Owned(current[id := current[id] + [tp]], x)
  {
    var next := current[id := current[id] + [tp]];
    forall x | Owned(current, x) ensures Owned(next, x) {
      var b :| b in current && x in current[b];
      assert x in next[b];
    }
  }

  lemma LeaveOut(subs: Subscriptions, wanted: set<Part>, cap: nat, start: map<MemberId, seq<Part>>,
                 current: map<MemberId, seq<Part>>, todo: set<Part>, tp: Part)
    requires Handing(subs, wanted, cap, start, current, todo) && tp in todo
    requires forall id :: id in subs && tp.0 in subs[id] ==> cap <= |current[id]|
    ensures Handing(subs, wanted, cap, start, current, todo - {tp})
  {
  }

  method PassTwo(subs: Subscriptions, wanted: set<Part>, cap: nat, start: map<MemberId, seq<Part>>)
    returns (current: map<MemberId, seq<Part>>)
    requires start.Keys == subs.Keys && WithinCap(start, cap) && Disjoint(start)
    requires forall id, tp :: id in start && tp in start[id] ==> Keepable(subs, wanted, id, tp)
    ensures Handing(subs, wanted, cap, start, current, {})
  {
    hide Handing;
    current := start;
    var todo := set tp | tp in wanted && !Owned(start, tp);
    StartHanding(subs, wanted, cap, start);
    while todo != {}
      invariant Handing(subs, wanted, cap, start, current, todo) && current.Keys == subs.Keys
      decreases |todo|
    {
      var tp :| tp in todo;
      var best := LeastLoaded(subs, current, tp.0, cap);
      if best.Some? {
        Give(subs, wanted, cap, start, current, todo, tp, best.value);
        current := current[best.value := current[best.value] + [tp]];
      } else {
        LeaveOut(subs, wanted, cap, start, current, todo, tp);
      }
      todo := todo - {tp};
    }
  }

  lemma StartHanding(subs: Subscriptions, wanted: set<Part>, cap: nat, start: map<MemberId, seq<Part>>)
    requires start.Keys == subs.Keys && WithinCap(start, cap) && Disjoint(start)
    requires forall id, tp :: id in start && tp in start[id] ==> Keepable(subs, wanted, id, tp)
    ensures Handing(subs, wanted, cap, start, start, set tp | tp in wanted && !Owned(start, tp))
  {
    forall id, tp | id in start && tp in start[id] ensures Owned(start, tp) { }
  }

  /** Both passes: the new assignment of the group. */
  method Recompute(previous: map<MemberId, seq<Part>>, subs: Subscriptions, parts: map<Topic, set<nat>>)
    returns (assignment: map<MemberId, seq<Part>>)
    requires Disjoint(previous)
    ensures Rebalanced(previous, subs, parts, assignment)
  {
    hide Handing, Shares, Disjoint, WithinCap;
    if |subs| == 0 {
      assignment := map[];
      EmptyBalanced(previous, subs, parts);
      return;
    }
    var wanted := Wanted(subs, parts);
    var cap := CeilDiv(|wanted|, |subs|);
    var kept := PassOne(previous, subs, wanted, cap);
    SharesKeep(previous, subs, wanted, cap, kept);
    assignment := PassTwo(subs, wanted, cap, kept);
    Outcome(previous, subs, parts, kept, assignment);
  }

  lemma EmptyBalanced(previous: map<MemberId, seq<Part>>, subs: Subscriptions, parts: map<Topic, set<nat>>)
    requires |subs| == 0
    ensures Rebalanced(previous, subs, parts, map[])
  {
    assert subs == map[];
  }

  lemma SharesKeep(previous: map<MemberId, seq<Part>>, subs: Subscriptions, wanted: set<Part>, cap: nat,
                   kept: map<MemberId, seq<Part>>)
    requires Shares(previous, subs, wanted, cap, kept, {})
    ensures kept.Keys == subs.Keys && WithinCap(kept, cap)
    ensures forall id, tp :: id in kept && tp in kept[id] ==> Keepable(subs, wanted, id, tp)
  {
  }

  lemma Outcome(previous: map<MemberId, seq<Part>>, subs: Subscriptions, parts: map<Topic, set<nat>>,
                kept: map<MemberId, seq<Part>>, assignment: map<MemberId, seq<Part>>)
    requires |subs| > 0 && Shares(previous, subs, Wanted(subs, parts), Cap(subs, parts), kept, {})
    requires Handing(subs, Wanted(subs, parts), Cap(subs, parts), kept, assignment, {})
    ensures Rebalanced(previous, subs, parts, assignment)
  {
    var wanted, cap := Wanted(subs, parts), Cap(subs, parts);
    hide Wanted, Cap, Disjoint;
    forall id, tp | id in previous && tp in previous[id] && id in subs && tp.0 in subs[id] && tp in wanted
      ensures id in assignment && (tp in assignment[id] || cap <= |KeptOf(previous[id], assignment[id])|)
    {
      assert Keepable(subs, wanted, id, tp);
      assert kept[id] <= assignment[id];
      KeepsMany(previous[id], kept[id], assignment[id]);
    }
    forall id, tp | id in assignment && tp in assignment[id] ensures id in subs && tp.0 in subs[id] && tp in wanted {
      assert Keepable(subs, wanted, id, tp);
    }
  }

  lemma KeepsMany(previous: seq<Part>, kept: seq<Part>, now: seq<Part>)
    requires NoDuplicates(kept) && kept <= now && forall tp :: tp in kept ==> tp in previous
    ensures |kept| <= |KeptOf(previous, now)|
  {
    ListSize(kept);
    Smaller((set tp | tp in kept), KeptOf(previous, now));
  }

  // ---------- counting partitions ----------

  function PartsOf(ids: set<MemberId>, assignment: map<MemberId, seq<Part>>): set<Part> {
    set id, tp | id in ids && id in assignment && tp in assignment[id] :: tp
  }

  lemma {:induction false} ListSize(s: seq<Part>)
    requires NoDuplicates(s)
    ensures |set tp | tp in s| == |s|
  {
    if s != [] {
      var front, x := s[..|s| - 1], s[|s| - 1];
      ListSize(front);
      assert x !in front;
      assert (set tp | tp in s) == (set tp | tp in front) + {x} by { assert s == front + [x]; }
    }
  }

  /** Members at the cap hold, between them, at least cap times their number of partitions. */
  lemma {:induction false} FullMembers(ids: set<MemberId>, assignment: map<MemberId, seq<Part>>, cap: nat)
    requires Disjoint(assignment) && ids <= assignment.Keys && forall id :: id in ids ==> cap <= |assignment[id]|
    ensures cap * |ids| <= |PartsOf(ids, assignment)|
    decreases |ids|
  {
    if ids != {} {
      var id :| id in ids;
      hide PartsOf, Disjoint;
      FullMembers(ids - {id}, assignment, cap);
      OneMore(ids, id, assignment);
      OneMoreTimes(cap, |ids - {id}|, |ids|);
    }
  }

  lemma OneMore(ids: set<MemberId>, id: MemberId, assignment: map<MemberId, seq<Part>>)
    requires Disjoint(assignment) && ids <= assignment.Keys && id in ids
    ensures |PartsOf(ids, assignment)| == |PartsOf(ids - {id}, assignment)| + |assignment[id]|
  {
    var rest, own := PartsOf(ids - {id}, assignment), set tp | tp in assignment[id];
    ListSize(assignment[id]);
    assert PartsOf(ids, assignment) == rest + own && rest !! own;
  }

  lemma OneMoreTimes(cap: nat, n: nat, m: nat)
    requires m == n + 1
    ensures cap * m == cap * n + cap
  {
  }

  /** The fair share is the least number that, given to every member, covers all partitions. */
  lemma FairShare(n: nat, m: nat, c: nat)
    requires 0 < m
    ensures n <= m * c <==> CeilDiv(n, m) <= c
  {
    var q := CeilDiv(n, m);
    assert n <= m * q < n + m;
    if q <= c {
      assert m * q <= m * c;
    } else {
      assert m * (c + 1) <= m * q;
      assert m * (c + 1) == m * c + m;
    }
  }

  lemma CeilCovers(n: nat, m: nat)
    requires 0 < m
    ensures n <= CeilDiv(n, m) * m
  {
  }

  // ---------- the group ----------

  datatype Group = Group(generation: nat, members: map<MemberId, Member>, assignment: map<MemberId, seq<Part>>)

  function Subs(members: map<MemberId, Member>): Subscriptions {
    map id | id in members :: members[id].topics
  }

  /** The members heard from recently enough. */
  function Heard(members: map<MemberId, Member>, now: nat, timeout: nat): map<MemberId, Member> {
    map id | id in members && now <= members[id].lastHeartbeat + timeout :: members[id]
  }

  datatype Refusal = NoTopics | TooManyTopics | UnknownTopic | GroupFull | Forbidden

  datatype JoinReply = Joined(generation: nat, assignment: seq<Part>) | Refused(why: Refusal)

  datatype HeartbeatReply =
    | Alive(generation: nat)
    | RebalanceRequired(current: nat)
    | UnknownMember(current: nat)
    | Denied

  /** Nothing a member could see has changed. */
  ghost predicate Unmoved(g: Group, g': Group) {
    g'.generation == g.generation && g'.assignment == g.assignment && Subs(g'.members) == Subs(g.members)
  }

  /** What one operation does to a group when the broker has these partitions: nothing to see, or a new generation. */
  ghost predicate Moves(g: Group, g': Group, parts: map<Topic, set<nat>>) {
    || Unmoved(g, g')
    || (g'.generation == g.generation + 1 && Rebalanced(g.assignment, Subs(g'.members), parts, g'.assignment))
  }

  // ---------- what one operation does to the members ----------

  /** An operation on a group, with the time it happens at. */
  datatype Op =
    | JoinAs(caller: Caller, id: MemberId, topics: set<Topic>, now: nat)
    | Beat(caller: Caller, id: MemberId, now: nat)
    | LeaveAs(caller: Caller, id: MemberId)
    | Expire(now: nat, timeout: nat)

  /** A member may be changed by the key that joined it and by an admin. */
  predicate MayChange(members: map<MemberId, Member>, caller: Caller, id: MemberId) {
    id in members && (members[id].owner == caller.keyId || caller.admin)
  }

  predicate Admits(members: map<MemberId, Member>, caller: Caller, id: MemberId, topics: set<Topic>,
                   parts: map<Topic, set<nat>>) {
    && 0 < |topics| <= MAX_TOPICS_PER_MEMBER && topics <= parts.Keys
    && (if id in members then MayChange(members, caller, id) else |members| < MAX_MEMBERS_PER_GROUP)
  }

  /** `id` is a member, last heard of at `now`, and the others are as they were. */
  ghost predicate HeardOf(members: map<MemberId, Member>, members': map<MemberId, Member>, id: MemberId, now: nat) {
    && members'.Keys == members.Keys + {id} && members'[id].lastHeartbeat == now
    && (forall x :: x in members && x != id ==> members'[x] == members[x])
  }

  ghost predicate Does(members: map<MemberId, Member>, members': map<MemberId, Member>, op: Op,
                       parts: map<Topic, set<nat>>) {
    match op
    case JoinAs(caller, id, topics, now) =>
      if Admits(members, caller, id, topics, parts) then
        && HeardOf(members, members', id, now) && members'[id].topics == topics
        && members'[id].owner == (if id in members then members[id].owner else caller.keyId)
      else members' == members
    case Beat(caller, id, now) =>
      if MayChange(members, caller, id) then
        && HeardOf(members, members', id, now) && members'[id].topics == members[id].topics
        && members'[id].owner == members[id].owner
      else members' == members
    case LeaveAs(caller, id) => members' == if MayChange(members, caller, id) then members - {id} else members
    case Expire(now, timeout) => members' == Heard(members, now, timeout)
  }

  lemma JoinDoes(members: map<MemberId, Member>, caller: Caller, id: MemberId, topics: set<Topic>,
                 parts: map<Topic, set<nat>>, now: nat)
    ensures var owner := if id in members then members[id].owner else caller.keyId;
            var members' := if Admits(members, caller, id, topics, parts) then members[id := Member(topics, now, owner)]
                            else members;
            Does(members, members', JoinAs(caller, id, topics, now), parts)
  {
    hide Admits;
  }

  class GroupState {
    var generation: nat
    var members: map<MemberId, Member>
    var assignment: map<MemberId, seq<Part>>

    ghost function Value(): Group
      reads this
    {
      Group(generation, members, assignment)
    }

    ghost predicate Valid()
      reads this
    {
      Disjoint(assignment) && assignment.Keys == members.Keys
    }

    constructor ()
      ensures Valid() && Value() == Group(0, map[], map[])
    {
      generation, members, assignment := 0, map[], map[];
    }

    /** Bumps the generation and reassigns everything. */
    method Rebalance(parts: map<Topic, set<nat>>)
      requires Disjoint(assignment)
      modifies this
      ensures Valid() && members == old(members) && generation == old(generation) + 1
      ensures Rebalanced(old(assignment), Subs(members), parts, assignment)
    {
      hide Disjoint, Subscribed, WithinCap, Maximal, Sticky, Cap;
      var next := Recompute(assignment, Subs(members), parts);
      generation := generation + 1;
      assignment := next;
    }

    method Join(caller: Caller, id: MemberId, topics: set<Topic>, parts: map<Topic, set<nat>>, now: nat)
      returns (r: JoinReply)
      requires Valid()
      modifies this
      ensures Valid() && Moves(old(Value()), Value(), parts)
      ensures r.Refused? <==> topics == {} || |topics| > MAX_TOPICS_PER_MEMBER || !(topics <= parts.Keys)
                              || (id !in old(members) && MAX_MEMBERS_PER_GROUP <= |old(members)|)
                              || (id in old(members) && old(members)[id].owner != caller.keyId && !caller.admin)
      ensures topics == {} ==> r == Refused(NoTopics)
      ensures |topics| > MAX_TOPICS_PER_MEMBER ==> r == Refused(TooManyTopics)
      ensures 0 < |topics| <= MAX_TOPICS_PER_MEMBER && !(topics <= parts.Keys) ==> r == Refused(UnknownTopic)
      ensures r.Refused? ==> (r.why == GroupFull ==> id !in old(members)) && (r.why == Forbidden ==> id in old(members))
      ensures Does(old(members), members, JoinAs(caller, id, topics, now), parts)
      ensures r.Joined? <==> Admits(old(members), caller, id, topics, parts)
      ensures r.Refused? ==> Value() == old(Value())
      ensures r.Joined? ==>
                members.Keys == old(members).Keys + {id} && members[id].topics == topics &&
                r == Joined(generation, assignment[id])
      ensures r.Joined? ==> (generation == old(generation) <==> id in old(members) && old(members)[id].topics == topics)
      ensures generation != old(generation) ==> Rebalanced(old(assignment), Subs(members), parts, assignment)
    {
      hide Disjoint, Rebalanced, Does;
      JoinDoes(members, caller, id, topics, parts, now);
      if topics == {} { return Refused(NoTopics); }
      if |topics| > MAX_TOPICS_PER_MEMBER { return Refused(TooManyTopics); }
      if !(topics <= parts.Keys) { return Refused(UnknownTopic); }
      if id !in members && MAX_MEMBERS_PER_GROUP <= |members| { return Refused(GroupFull); }
      if id in members && members[id].owner != caller.keyId && !caller.admin { return Refused(Forbidden); }
      var changed := id !in members || members[id].topics != topics;
      var owner := if id in members then members[id].owner else caller.keyId;
      members := members[id := Member(topics, now, owner)];
      if changed {
        Rebalance(parts);
      } else {
        assert Subs(members) == Subs(old(members));
      }
      r := Joined(generation, assignment[id]);
    }

    method Heartbeat(caller: Caller, id: MemberId, seen: nat, now: nat) returns (r: HeartbeatReply)
      requires Valid()
      modifies this`members
      ensures Valid() && Unmoved(old(Value()), Value())
      ensures r == if id !in old(members) then UnknownMember(generation)
                   else if old(members)[id].owner != caller.keyId && !caller.admin then Denied
                   else if seen != generation then RebalanceRequired(generation) else Alive(generation)
      ensures forall parts :: Does(old(members), members, Beat(caller, id, now), parts)
    {
      hide Disjoint;
      if id !in members { return UnknownMember(generation); }
      if members[id].owner != caller.keyId && !caller.admin { return Denied; }
      members := members[id := members[id].(lastHeartbeat := now)];
      assert Subs(members) == Subs(old(members));
      r := if seen != generation then RebalanceRequired(generation) else Alive(generation);
    }

    method Leave(caller: Caller, id: MemberId, parts: map<Topic, set<nat>>) returns (ok: bool)
      requires Valid()
      modifies this
      ensures Valid() && Moves(old(Value()), Value(), parts)
      ensures ok <==> id !in old(members) || old(members)[id].owner == caller.keyId || caller.admin
      ensures members == if ok then old(members) - {id} else old(members)
      ensures Does(old(members), members, LeaveAs(caller, id), parts)
      ensures ok && id in old(members) ==>
                generation == old(generation) + 1 && Rebalanced(old(assignment), Subs(members), parts, assignment)
    {
      hide Disjoint, Rebalanced;
      if id in members && members[id].owner != caller.keyId && !caller.admin { return false; }
      if id in members {
        members := members - {id};
        Rebalance(parts);
      }
      ok := true;
    }

    method ExpireStale(now: nat, timeout: nat, parts: map<Topic, set<nat>>)
      requires Valid()
      modifies this
      ensures Valid() && Moves(old(Value()), Value(), parts)
      ensures members == Heard(old(members), now, timeout) && Does(old(members), members, Expire(now, timeout), parts)
      ensures members != old(members) ==>
                generation == old(generation) + 1 && Rebalanced(old(assignment), Subs(members), parts, assignment)
    {
      hide Disjoint, Rebalanced;
      var stale := set id | id in members && members[id].lastHeartbeat + timeout < now;
      assert members - stale == Heard(members, now, timeout);
      if stale != {} {
        members := members - stale;
        Rebalance(parts);
      } else {
        assert members - stale == members;
      }
    }
  }

  // ---------- every run ----------

  /** A run of operations; `ps[i]` are the broker's partitions at the `i`th of them. */
  ghost predicate Run(gs: seq<Group>, ps: seq<map<Topic, set<nat>>>) {
    && gs != [] && gs[0] == Group(0, map[], map[]) && |ps| == |gs| - 1
    && (forall i :: 0 <= i < |ps| ==> Moves(gs[i], gs[i + 1], ps[i]))
  }

  /** The broker's partitions at the last rebalance before moment `i`. */
  function LastParts(gs: seq<Group>, ps: seq<map<Topic, set<nat>>>, i: nat): map<Topic, set<nat>>
    requires i < |gs| && |ps| == |gs| - 1
  {
    if i == 0 then map[]
    else if gs[i].generation == gs[i - 1].generation then LastParts(gs, ps, i - 1) else ps[i - 1]
  }

  /**
   At every moment of every run of joins, leaves, heartbeats and expiries the members' partitions are
   disjoint, subscribed to, within the fair share of the partitions there were at the last rebalance, and
   of those left out only when every subscriber is full.
   */
  lemma {:induction false} AlwaysBalanced(gs: seq<Group>, ps: seq<map<Topic, set<nat>>>, i: nat)
    requires Run(gs, ps) && i < |gs|
    ensures Balanced(Subs(gs[i].members), LastParts(gs, ps, i), gs[i].assignment)
  {
    hide Balanced;
    if i == 0 {
      EmptyBalanced(map[], map[], map[]);
      assert Subs(map[]) == map[];
      RebalancedIs(map[], map[], map[], map[]);
    } else {
      AlwaysBalanced(gs, ps, i - 1);
      assert Moves(gs[i - 1], gs[i - 1 + 1], ps[i - 1]);
      if !Unmoved(gs[i - 1], gs[i]) {
        RebalancedIs(gs[i - 1].assignment, Subs(gs[i].members), ps[i - 1], gs[i].assignment);
      }
    }
  }

  lemma RebalancedIs(previous: map<MemberId, seq<Part>>, subs: Subscriptions, parts: map<Topic, set<nat>>,
                     assignment: map<MemberId, seq<Part>>)
    requires Rebalanced(previous, subs, parts, assignment)
    ensures Balanced(subs, parts, assignment)
  {
  }

  lemma {:induction false} GenerationsGrow(gs: seq<Group>, ps: seq<map<Topic, set<nat>>>, i: nat, j: nat)
    requires Run(gs, ps) && i <= j < |gs|
    ensures gs[i].generation <= gs[j].generation
    ensures gs[i].generation == gs[j].generation ==>
              gs[i].assignment == gs[j].assignment && Subs(gs[i].members) == Subs(gs[j].members)
    decreases j
  {
    if i < j {
      GenerationsGrow(gs, ps, i, j - 1);
      assert Moves(gs[j - 1], gs[j - 1 + 1], ps[j - 1]);
    }
  }

  /** One generation never names two assignments. */
  lemma GenerationNamesOne(gs: seq<Group>, ps: seq<map<Topic, set<nat>>>, i: nat, j: nat)
    requires Run(gs, ps) && i < |gs| && j < |gs| && gs[i].generation == gs[j].generation
    ensures gs[i].assignment == gs[j].assignment
  {
    if i <= j { GenerationsGrow(gs, ps, i, j); } else { GenerationsGrow(gs, ps, j, i); }
  }

  // ---------- who is in the group ----------

  /** A run in which the operations are known. */
  ghost predicate TimedRun(gs: seq<Group>, ps: seq<map<Topic, set<nat>>>, ops: seq<Op>) {
    && Run(gs, ps) && |ops| == |ps|
    && (forall i :: 0 <= i < |ops| ==> Does(gs[i].members, gs[i + 1].members, ops[i], ps[i]))
  }

  /** The operation is a join or heartbeat of `id` that was accepted. */
  predicate Hears(members: map<MemberId, Member>, op: Op, parts: map<Topic, set<nat>>, id: MemberId) {
    match op
    case JoinAs(caller, x, topics, _) => x == id && Admits(members, caller, x, topics, parts)
    case Beat(caller, x, _) => x == id && MayChange(members, caller, x)
    case _ => false
  }

  /** The operation takes out `id`, last heard of at `t`: a leave that was accepted, or an expiry past its timeout. */
  predicate Removes(members: map<MemberId, Member>, op: Op, id: MemberId, t: nat) {
    match op
    case LeaveAs(caller, x) => x == id && MayChange(members, caller, x)
    case Expire(now, timeout) => t + timeout < now
    case _ => false
  }

  lemma HeardStep(members: map<MemberId, Member>, members': map<MemberId, Member>, op: Op,
                  parts: map<Topic, set<nat>>, id: MemberId)
    requires Does(members, members', op, parts)
    ensures Hears(members, op, parts, id) ==> id in members' && members'[id].lastHeartbeat == op.now
    ensures !Hears(members, op, parts, id) ==>
              (id in members' <==> id in members && !Removes(members, op, id, members[id].lastHeartbeat))
    ensures !Hears(members, op, parts, id) && id in members' ==> members'[id] == members[id]
  {
  }

  /**
   In every run, a member last heard of at `t` is in the group exactly as long as it has not left and no
   expiry came more than the timeout after `t`.
   */
  lemma {:induction false} MemberExactly(gs: seq<Group>, ps: seq<map<Topic, set<nat>>>, ops: seq<Op>, k: nat, i: nat,
                                         id: MemberId)
    requires TimedRun(gs, ps, ops) && k < i <= |ops| && Hears(gs[k].members, ops[k], ps[k], id)
    requires forall j :: k < j < i ==> !Hears(gs[j].members, ops[j], ps[j], id)
    ensures id in gs[i].members <==> forall j :: k < j < i ==> !Removes(gs[j].members, ops[j], id, ops[k].now)
    ensures id in gs[i].members ==> gs[i].members[id].lastHeartbeat == ops[k].now
    decreases i
  {
    hide Does, Removes, Moves, Admits, MayChange;
    HeardStep(gs[i - 1].members, gs[i - 1 + 1].members, ops[i - 1], ps[i - 1], id);
    if k < i - 1 {
      MemberExactly(gs, ps, ops, k, i - 1, id);
      if id in gs[i].members {
        forall j | k < j < i ensures !Removes(gs[j].members, ops[j], id, ops[k].now) {}
      }
    }
  }

  /** Nobody is in the group without having joined. */
  lemma {:induction false} NeverHeard(gs: seq<Group>, ps: seq<map<Topic, set<nat>>>, ops: seq<Op>, i: nat, id: MemberId)
    requires TimedRun(gs, ps, ops) && i <= |ops|
    requires forall j :: 0 <= j < i ==> !Hears(gs[j].members, ops[j], ps[j], id)
    ensures id !in gs[i].members
    decreases i
  {
    hide Does, Hears, Removes;
    if 0 < i {
      HeardStep(gs[i - 1].members, gs[i - 1 + 1].members, ops[i - 1], ps[i - 1], id);
      NeverHeard(gs, ps, ops, i - 1, id);
    }
  }

  /** The owner of a member is the key that joined it, whoever sends its heartbeats. */
  lemma {:induction false} OwnerStays(gs: seq<Group>, ps: seq<map<Topic, set<nat>>>, ops: seq<Op>, i: nat, j: nat,
                                      id: MemberId)
    requires TimedRun(gs, ps, ops) && i <= j <= |ops| && forall k :: i <= k <= j ==> id in gs[k].members
    ensures gs[j].members[id].owner == gs[i].members[id].owner
    decreases j
  {
    if i < j {
      OwnerStays(gs, ps, ops, i, j - 1, id);
      assert Does(gs[j - 1].members, gs[j - 1 + 1].members, ops[j - 1], ps[j - 1]);
    }
  }
}
