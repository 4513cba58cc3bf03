/** Retention: which sealed segments to delete, and taking them out of the partition. */
module Retention {
  import opened Basics
  import opened Bytes
  import opened StorageRecord
  import opened StorageIndex
  import opened StorageSegment
  import opened StorageScan
  import opened StoragePartition

  /** What retention looks at: base, size in bytes, and the newest timestamp, if there is a record. */
  datatype Info = Info(base: nat, size: nat, newest: Option<int>)

  predicate Distinct(segs: seq<Info>) {
    forall i, j :: 0 <= i < j < |segs| ==> segs[i].base < segs[j].base
  }

  function Total(segs: seq<Info>): nat {
    if segs == [] then 0 else segs[0].size + Total(segs[1..])
  }

  /** Bytes left once the victims are gone. */
  function Left(segs: seq<Info>, victims: set<nat>): nat {
    if segs == [] then 0 else (if segs[0].base in victims then 0 else segs[0].size) + Left(segs[1..], victims)
  }

  function BasesOf(segs: seq<Info>): set<nat> {
    set i | 0 <= i < |segs| :: segs[i].base
  }

  predicate TooOld(s: Info, cutoff: Option<int>) {
    cutoff.Some? && s.newest.Some? && s.newest.value < cutoff.value
  }

  /** The sealed segments past the age limit. */
  function Aged(segs: seq<Info>, cutoff: Option<int>): set<nat> {
    set i | 0 <= i < |segs| && TooOld(segs[i], cutoff) :: segs[i].base
  }

  // ---------- sums ----------

  lemma {:induction false} TotalConcat(a: seq<Info>, b: seq<Info>)
    ensures Total(a + b) == Total(a) + Total(b)
  {
    if a == [] {
      assert a + b == b;
    } else {
      assert (a + b)[1..] == a[1..] + b;
      TotalConcat(a[1..], b);
    }
  }

  lemma {:induction false} LeftConcat(a: seq<Info>, b: seq<Info>, victims: set<nat>)
    ensures Left(a + b, victims) == Left(a, victims) + Left(b, victims)
  {
    if a == [] {
      assert a + b == b;
    } else {
      assert (a + b)[1..] == a[1..] + b;
      LeftConcat(a[1..], b, victims);
    }
  }

  lemma {:induction false} LeftAtMost(segs: seq<Info>, victims: set<nat>)
    ensures Left(segs, victims) <= Total(segs)
  {
    if segs != [] { LeftAtMost(segs[1..], victims); }
  }

  /** Victims that are not among the segments make no difference. */
  lemma {:induction false} LeftSame(segs: seq<Info>, a: set<nat>, b: set<nat>)
    requires forall i :: 0 <= i < |segs| ==> (segs[i].base in a <==> segs[i].base in b)
    ensures Left(segs, a) == Left(segs, b)
  {
    if segs != [] { LeftSame(segs[1..], a, b); }
  }

  lemma LeftPush(segs: seq<Info>, i: nat, victims: set<nat>)
    requires i < |segs|
    ensures Left(segs[..i + 1], victims) ==
              Left(segs[..i], victims) + if segs[i].base in victims then 0 else segs[i].size
    ensures Total(segs[..i + 1]) == Total(segs[..i]) + segs[i].size
  {
    assert segs[..i + 1] == segs[..i] + [segs[i]];
    LeftConcat(segs[..i], [segs[i]], victims);
    TotalConcat(segs[..i], [segs[i]]);
    assert [segs[i]][1..] == [];
  }

  lemma LeftSplit(segs: seq<Info>, i: nat, victims: set<nat>)
    requires i <= |segs|
    ensures Left(segs, victims) == Left(segs[..i], victims) + Left(segs[i..], victims)
    ensures Total(segs) == Total(segs[..i]) + Total(segs[i..])
  {
    assert segs == segs[..i] + segs[i..];
    LeftConcat(segs[..i], segs[i..], victims);
    TotalConcat(segs[..i], segs[i..]);
  }

  // ---------- the plan ----------

  /** Enough is deleted: what is left fits, or only the active segment is left. */
  predicate Enough(segs: seq<Info>, limit: nat, victims: set<nat>)
    requires segs != []
  {
    Left(segs, victims) <= limit || BasesOf(segs[..|segs| - 1]) <= victims
  }

  /** Oldest first: deleting the first `k` segments is enough, and deleting fewer of the first is not. */
  ghost predicate ShortestPrefix(segs: seq<Info>, limit: nat, k: nat)
    requires segs != []
  {
    && k < |segs| && Enough(segs, limit, BasesOf(segs[..k]))
    && (forall j :: 0 <= j < k ==> !Enough(segs, limit, BasesOf(segs[..j])))
  }

  /** Oldest first: mark segments until the rest fits, not counting the marked ones further on. */
  method MarkBySize(segs: seq<Info>, limit: nat, aged: set<nat>) returns (victims: set<nat>, ghost k: nat)
    requires segs != [] && Distinct(segs) && aged <= BasesOf(segs[..|segs| - 1])
    ensures ShortestPrefix(segs, limit, k) && victims == aged + BasesOf(segs[..k])
    ensures aged <= victims <= BasesOf(segs[..|segs| - 1]) && Enough(segs, limit, victims)
  {
    hide Left, Total, BasesOf, Enough, Distinct;
    victims, k := aged, 0;
    var total := TotalSize(segs);
    NoneMarked(segs, limit, aged);
    var n := |segs| - 1;
    if total <= limit {
      EnoughMarked(segs, limit, 0, {});
      return;
    }
    var over := total - limit;
    var i := 0;
    while i < n
      invariant 0 <= k <= i <= n && victims == aged + BasesOf(segs[..k])
      invariant over == Excess(segs, limit, i) && (k < i ==> over == 0 == Excess(segs, limit, k))
      invariant forall j :: 0 <= j < k ==> !Enough(segs, limit, BasesOf(segs[..j]))
    {
      ExcessPush(segs, limit, i);
      if over > 0 {
        TooFew(segs, limit, i);
        BasesPush(segs, i);
        k := i + 1;
      }
      if segs[i].base in victims {
        over := over - Min(over, segs[i].size);
      } else {
        if over == 0 { break; }
        over := over - Min(over, segs[i].size);
        victims := victims + {segs[i].base};
      }
      i := i + 1;
    }
    EnoughMarked(segs, limit, k, BasesOf(segs[..k]));
    EnoughMarked(segs, limit, k, victims);
    BasesWithin(segs, k, n);
  }

  /** Bytes over the limit that are still to be found after the first `i` segments. */
  function Excess(segs: seq<Info>, limit: nat, i: nat): nat
    requires i <= |segs|
  {
    var gone := limit + Total(segs[..i]);
    Total(segs) - Min(gone, Total(segs))
  }

  lemma ExcessPush(segs: seq<Info>, limit: nat, i: nat)
    requires i < |segs|
    ensures Excess(segs, limit, i + 1) == Excess(segs, limit, i) - Min(Excess(segs, limit, i), segs[i].size)
  {
    LeftPush(segs, i, {});
  }

  lemma NoneMarked(segs: seq<Info>, limit: nat, aged: set<nat>)
    requires segs != []
    ensures BasesOf(segs[..0]) == {} && aged == aged + BasesOf(segs[..0])
    ensures Excess(segs, limit, 0) == Total(segs) - Min(limit, Total(segs))
    ensures Total(segs) <= limit ==> Enough(segs, limit, aged)
  {
    assert segs[..0] == [];
    LeftAtMost(segs, aged);
  }

  lemma EnoughMarked(segs: seq<Info>, limit: nat, i: nat, victims: set<nat>)
    requires Distinct(segs) && i < |segs| && BasesOf(segs[..i]) <= victims
    requires i == |segs| - 1 || Excess(segs, limit, i) == 0
    ensures Enough(segs, limit, victims)
  {
    PrefixLeft(segs, i);
    LeftMonotone(segs, BasesOf(segs[..i]), victims);
  }

  method TotalSize(segs: seq<Info>) returns (total: nat)
    ensures total == Total(segs)
  {
    total := 0;
    var i := 0;
    assert segs[0..] == segs;
    while i < |segs|
      invariant 0 <= i <= |segs| && Total(segs) == total + Total(segs[i..])
    {
      assert segs[i..][1..] == segs[i + 1..];
      total := total + segs[i].size;
      i := i + 1;
    }
  }

  lemma NoVictims(segs: seq<Info>)
    ensures Left(segs, {}) == Total(segs)
  {
    if segs != [] { NoVictims(segs[1..]); }
  }

  lemma BasesPush(segs: seq<Info>, i: nat)
    requires i < |segs|
    ensures BasesOf(segs[..i + 1]) == BasesOf(segs[..i]) + {segs[i].base}
  {
    var a, b := segs[..i + 1], segs[..i];
    forall x | x in BasesOf(b) ensures x in BasesOf(a) {
      var j :| 0 <= j < |b| && b[j].base == x;
      assert a[j] == b[j];
    }
    forall x | x in BasesOf(a) ensures x in BasesOf(b) || x == segs[i].base {
      var j :| 0 <= j < |a| && a[j].base == x;
      if j < i { assert b[j] == a[j]; }
    }
    assert a[i].base == segs[i].base;
  }

  lemma BasesWithin(segs: seq<Info>, i: nat, n: nat)
    requires i <= n <= |segs|
    ensures BasesOf(segs[..i]) <= BasesOf(segs[..n])
  {
    forall x | x in BasesOf(segs[..i]) ensures x in BasesOf(segs[..n]) {
      var j :| 0 <= j < |segs[..i]| && segs[..i][j].base == x;
      assert segs[..n][j].base == x;
    }
  }

  lemma NotBefore(segs: seq<Info>, i: nat)
    requires Distinct(segs) && i < |segs|
    ensures segs[i].base !in BasesOf(segs[..i])
  {
  }

  lemma {:induction false} LeftAll(segs: seq<Info>, victims: set<nat>)
    requires forall i :: 0 <= i < |segs| ==> segs[i].base in victims
    ensures Left(segs, victims) == 0
  {
    if segs != [] { LeftAll(segs[1..], victims); }
  }

  /** Deleting the first `i` segments leaves the bytes of the rest. */
  lemma PrefixLeft(segs: seq<Info>, i: nat)
    requires Distinct(segs) && i <= |segs|
    ensures Left(segs, BasesOf(segs[..i])) == Total(segs) - Total(segs[..i]) && Total(segs[..i]) <= Total(segs)
  {
    var v := BasesOf(segs[..i]);
    LeftSplit(segs, i, v);
    forall j | 0 <= j < i ensures segs[..i][j].base in v { assert segs[..i][j].base in v; }
    LeftAll(segs[..i], v);
    LeftSame(segs[i..], v, {});
    NoVictims(segs[i..]);
  }

  lemma {:induction false} LeftMonotone(segs: seq<Info>, a: set<nat>, b: set<nat>)
    requires a <= b
    ensures Left(segs, b) <= Left(segs, a)
  {
    if segs != [] { LeftMonotone(segs[1..], a, b); }
  }

  /** While there is still something over, the prefix so far was not enough. */
  lemma TooFew(segs: seq<Info>, limit: nat, i: nat)
    requires Distinct(segs) && i < |segs| - 1 && 0 < Excess(segs, limit, i)
    ensures !Enough(segs, limit, BasesOf(segs[..i]))
  {
    PrefixLeft(segs, i);
    NotBefore(segs, i);
    assert segs[..|segs| - 1][i].base == segs[i].base;
    assert segs[i].base in BasesOf(segs[..|segs| - 1]);
  }

  /** The segments to delete, under an optional age limit and an optional size limit. */
  method PlanVictims(segs: seq<Info>, cutoff: Option<int>, limit: Option<nat>) returns (victims: set<nat>, ghost k: nat)
    requires segs != [] && Distinct(segs)
    ensures victims <= BasesOf(segs[..|segs| - 1]) && Aged(segs[..|segs| - 1], cutoff) <= victims
    ensures limit.Some? ==> Enough(segs, limit.value, victims)
    ensures limit.None? ==> victims == Aged(segs[..|segs| - 1], cutoff) && k == 0
    ensures limit.Some? ==>
              ShortestPrefix(segs, limit.value, k) && victims == Aged(segs[..|segs| - 1], cutoff) + BasesOf(segs[..k])
  {
    k := 0;
    var n := |segs| - 1;
    victims := {};
    if |segs| <= 1 {
      assert segs[..0] == [];
      if limit.Some? { assert BasesOf(segs[..0]) == {}; }
      return;
    }
    if cutoff.Some? {
      var i := 0;
      while i < n
        invariant 0 <= i <= n && victims == Aged(segs[..i], cutoff)
      {
        AgedPush(segs, i, cutoff);
        if segs[i].newest.Some? && segs[i].newest.value < cutoff.value { victims := victims + {segs[i].base}; }
        i := i + 1;
      }
    }
    AgedWithin(segs[..n], cutoff);
    if limit.Some? { victims, k := MarkBySize(segs, limit.value, victims); }
  }

  /** A shorter run of the oldest segments, with those that are too old, would have been enough and is less. */
  ghost predicate Needless(segs: seq<Info>, limit: nat, aged: set<nat>, k: nat)
    requires segs != [] && k <= |segs|
  {
    exists j :: 0 <= j < k && Enough(segs, limit, aged + BasesOf(segs[..j]))
                && aged + BasesOf(segs[..j]) != aged + BasesOf(segs[..k])
  }

  /**
   More is deleted than it takes if and only if what is left from the last segment on that is marked for its size
   alone, without those that are too old, is within the limit.
   */
  lemma NeedlessExactly(segs: seq<Info>, limit: nat, aged: set<nat>, k: nat, r: nat)
    requires Distinct(segs) && r < k < |segs| && segs[r].base !in aged
    requires forall i :: r < i < k ==> segs[i].base in aged
    ensures Needless(segs, limit, aged, k) <==> Left(segs[r..], aged) <= limit
  {
    hide Left, BasesOf, Distinct;
    var v := aged + BasesOf(segs[..r]);
    LeftFrom(segs, r, aged);
    NotBefore(segs, r);
    SealedBase(segs, r);
    BasesPush(segs, r);
    BasesWithin(segs, r + 1, k);
    if Needless(segs, limit, aged, k) {
      var j :| 0 <= j < k && Enough(segs, limit, aged + BasesOf(segs[..j]))
               && aged + BasesOf(segs[..j]) != aged + BasesOf(segs[..k]);
      if r < j { AgedAlready(segs, aged, j, k); }
      BasesWithin(segs, j, r);
      LeftMonotone(segs, aged + BasesOf(segs[..j]), v);
    }
  }

  /** When all that are marked are too old, nothing is needless. */
  lemma AllAged(segs: seq<Info>, limit: nat, aged: set<nat>, k: nat)
    requires k < |segs| && forall i :: 0 <= i < k ==> segs[i].base in aged
    ensures !Needless(segs, limit, aged, k)
  {
    hide Enough, BasesOf;
    forall j | 0 <= j < k ensures aged + BasesOf(segs[..j]) == aged + BasesOf(segs[..k]) {
      AgedAlready(segs, aged, j, k);
    }
  }

  lemma {:induction false} AgedAlready(segs: seq<Info>, aged: set<nat>, j: nat, k: nat)
    requires j <= k <= |segs| && forall i :: j <= i < k ==> segs[i].base in aged
    ensures aged + BasesOf(segs[..j]) == aged + BasesOf(segs[..k])
    decreases k
  {
    hide BasesOf;
    if j < k {
      AgedAlready(segs, aged, j, k - 1);
      BasesPush(segs, k - 1);
    }
  }

  lemma SealedBase(segs: seq<Info>, r: nat)
    requires r < |segs| - 1
    ensures segs[r].base in BasesOf(segs[..|segs| - 1])
  {
    assert segs[..|segs| - 1][r].base == segs[r].base;
  }

  lemma LeftFrom(segs: seq<Info>, r: nat, aged: set<nat>)
    requires Distinct(segs) && r <= |segs|
    ensures Left(segs, aged + BasesOf(segs[..r])) == Left(segs[r..], aged)
  {
    hide Left;
    var v := aged + BasesOf(segs[..r]);
    LeftSplit(segs, r, v);
    forall j | 0 <= j < r ensures segs[..r][j].base in v { assert segs[..r][j].base in BasesOf(segs[..r]); }
    LeftAll(segs[..r], v);
    LeftSame(segs[r..], v, aged);
  }

  /**
   It happens: here deleting the second segment, which is too old, is enough, and
   the first one is deleted all the same.
   */
  lemma NeedlessVictim()
    ensures var segs := [Info(0, 10, Some(9)), Info(1, 10, Some(1)), Info(2, 5, None)];
            && Aged(segs[..2], Some(5)) == {1} && Enough(segs, 15, {1})
            && ShortestPrefix(segs, 15, 1) && Aged(segs[..2], Some(5)) + BasesOf(segs[..1]) == {0, 1}
            && Needless(segs, 15, Aged(segs[..2], Some(5)), 1)
  {
    var segs := [Info(0, 10, Some(9)), Info(1, 10, Some(1)), Info(2, 5, None)];
    assert segs[..2] == [segs[0], segs[1]] && segs[..1] == [segs[0]] && segs[..0] == [];
    assert Aged(segs[..2], Some(5)) == {1} by {
      assert segs[..2][1].base in Aged(segs[..2], Some(5));
    }
    assert segs[..1][0].base in BasesOf(segs[..1]);
    assert segs[..2][0].base in BasesOf(segs[..2]);
    LeftThree(segs[0], segs[1], segs[2], {1});
    LeftThree(segs[0], segs[1], segs[2], {0});
    LeftThree(segs[0], segs[1], segs[2], {});
    assert !Enough(segs, 15, {}) && BasesOf(segs[..0]) == {};
    assert {1} + BasesOf(segs[..0]) == {1} && {1} + BasesOf(segs[..1]) == {0, 1};
    forall j | 0 <= j < 1 ensures !Enough(segs, 15, BasesOf(segs[..j])) { assert j == 0; }
  }

  lemma LeftThree(a: Info, b: Info, c: Info, victims: set<nat>)
    ensures Left([a, b, c], victims) ==
              (if a.base in victims then 0 else a.size) + (if b.base in victims then 0 else b.size) +
              if c.base in victims then 0 else c.size
  {
    assert [a, b, c][1..] == [b, c] && [b, c][1..] == [c] && [c][1..] == [];
    assert Left([c], victims) == if c.base in victims then 0 else c.size;
  }

  lemma AgedPush(segs: seq<Info>, i: nat, cutoff: Option<int>)
    requires i < |segs|
    ensures Aged(segs[..i + 1], cutoff) ==
              Aged(segs[..i], cutoff) + if TooOld(segs[i], cutoff) then {segs[i].base} else {}
  {
    var a, b := segs[..i + 1], segs[..i];
    forall x | x in Aged(b, cutoff) ensures x in Aged(a, cutoff) {
      var j :| 0 <= j < |b| && TooOld(b[j], cutoff) && b[j].base == x;
      assert a[j] == b[j];
    }
    forall x | x in Aged(a, cutoff) ensures x in Aged(b, cutoff) || (TooOld(segs[i], cutoff) && x == segs[i].base) {
      var j :| 0 <= j < |a| && TooOld(a[j], cutoff) && a[j].base == x;
      if j < i { assert b[j] == a[j]; }
    }
    if TooOld(segs[i], cutoff) { assert a[i] == segs[i]; }
  }

  lemma AgedWithin(segs: seq<Info>, cutoff: Option<int>)
    ensures Aged(segs, cutoff) <= BasesOf(segs) && (cutoff.None? ==> Aged(segs, cutoff) == {})
  {
    forall x | x in Aged(segs, cutoff) ensures x in BasesOf(segs) {
      var j :| 0 <= j < |segs| && TooOld(segs[j], cutoff) && segs[j].base == x;
      assert segs[j].base in BasesOf(segs);
    }
  }

  // ---------- taking segments out ----------

  /** The segments that stay: the active one, and every sealed one that is no victim. */
  function Stay(segments: seq<Segment>, victims: set<nat>): seq<Segment> {
    if |segments| <= 1 then segments
    else (if segments[0].base in victims then [] else [segments[0]]) + Stay(segments[1..], victims)
  }

  function StayLists(segments: seq<Segment>, lists: seq<seq<Record>>, victims: set<nat>): seq<seq<Record>>
    requires |segments| == |lists|
  {
    if |segments| <= 1 then lists
    else (if segments[0].base in victims then [] else [lists[0]]) + StayLists(segments[1..], lists[1..], victims)
  }

  lemma ChainedTail(crc: Checksum, segments: seq<Segment>, lists: seq<seq<Record>>, next: nat)
    requires Chained(crc, segments, lists, next) && |segments| > 1
    ensures Chained(crc, segments[1..], lists[1..], next)
    ensures Holds(crc, segments[0], lists[0]) && Below(lists[0], segments[1].base) &&
            segments[0].base < segments[1].base
  {
    hide Holds;
    assert Holds(crc, segments[0], lists[0]) && Below(lists[0], EndOf(segments, 0, next));
    forall i | 0 <= i < |segments| - 1
      ensures Holds(crc, segments[1..][i], lists[1..][i]) && Below(lists[1..][i], EndOf(segments[1..], i, next))
    {
      assert Holds(crc, segments[i + 1], lists[i + 1]) && Below(lists[i + 1], EndOf(segments, i + 1, next));
    }
  }

  lemma ChainedCons(crc: Checksum, seg: Segment, rs: seq<Record>, segments: seq<Segment>, lists: seq<seq<Record>>,
                    next: nat)
    requires Chained(crc, segments, lists, next) && Holds(crc, seg, rs) && Below(rs, segments[0].base) &&
             seg.base < segments[0].base
    ensures Chained(crc, [seg] + segments, [rs] + lists, next)
  {
    hide Holds, Below, EndOf;
    var s, l := [seg] + segments, [rs] + lists;
    forall i | 0 <= i < |s| ensures Holds(crc, s[i], l[i]) && Below(l[i], EndOf(s, i, next)) {
      EndOfCons(seg, segments, i, next);
      if i > 0 { ChainedAt(crc, segments, lists, next, i - 1); }
    }
    forall i, j | 0 <= i < j < |s| ensures s[i].base < s[j].base {
      if i > 0 { ChainedRises(crc, segments, lists, next, i - 1, j - 1); }
      else if j > 1 { ChainedRises(crc, segments, lists, next, 0, j - 1); }
    }
  }

  lemma EndOfCons(seg: Segment, segments: seq<Segment>, i: nat, next: nat)
    requires segments != [] && i <= |segments|
    ensures EndOf([seg] + segments, i, next) == if i == 0 then segments[0].base else EndOf(segments, i - 1, next)
  {
  }

  lemma ChainedAt(crc: Checksum, segments: seq<Segment>, lists: seq<seq<Record>>, next: nat, i: nat)
    requires Chained(crc, segments, lists, next) && i < |segments|
    ensures |segments| == |lists| && Holds(crc, segments[i], lists[i]) && Below(lists[i], EndOf(segments, i, next))
  {
  }

  lemma ChainedRises(crc: Checksum, segments: seq<Segment>, lists: seq<seq<Record>>, next: nat, i: nat, j: nat)
    requires Chained(crc, segments, lists, next) && i < j < |segments|
    ensures segments[i].base < segments[j].base
  {
  }

  lemma {:induction false} StayChained(crc: Checksum, segments: seq<Segment>, lists: seq<seq<Record>>, next: nat,
                                       victims: set<nat>)
    requires Chained(crc, segments, lists, next)
    ensures var s, l := Stay(segments, victims), StayLists(segments, lists, victims);
            && Chained(crc, s, l, next) && segments[0].base <= s[0].base
            && s[|s| - 1] == segments[|segments| - 1] && l[|l| - 1] == lists[|lists| - 1]
    decreases |segments|
  {
    hide Chained, Holds, Below, Stay, StayLists;
    ChainedLength(crc, segments, lists, next);
    if |segments| <= 1 {
      StayAll(segments, lists, victims);
    } else {
      StayStep(segments, lists, victims);
      ChainedTail(crc, segments, lists, next);
      StayChained(crc, segments[1..], lists[1..], next, victims);
      var s, l := Stay(segments[1..], victims), StayLists(segments[1..], lists[1..], victims);
      ChainedLength(crc, s, l, next);
      BelowMore(lists[0], segments[1].base, s[0].base);
      ChainedCons(crc, segments[0], lists[0], s, l, next);
    }
  }

  lemma StayStep(segments: seq<Segment>, lists: seq<seq<Record>>, victims: set<nat>)
    requires |segments| == |lists| && |segments| > 1
    ensures var s, l := Stay(segments[1..], victims), StayLists(segments[1..], lists[1..], victims);
            var gone := segments[0].base in victims;
            && Stay(segments, victims) == (if gone then s else [segments[0]] + s)
            && StayLists(segments, lists, victims) == if gone then l else [lists[0]] + l
  {
    var s, l := Stay(segments[1..], victims), StayLists(segments[1..], lists[1..], victims);
    assert [] + s == s && [] + l == l;
  }

  lemma BelowMore(rs: seq<Record>, a: nat, b: nat)
    requires Below(rs, a) && a <= b
    ensures Below(rs, b)
  {
  }

  method FilterSegments(segments: seq<Segment>, victims: set<nat>) returns (kept: seq<Segment>)
    requires segments != []
    ensures kept == Stay(segments, victims)
  {
    kept := [];
    var i, n := 0, |segments| - 1;
    assert segments[0..] == segments;
    while i < n
      invariant 0 <= i <= n && Stay(segments, victims) == kept + Stay(segments[i..], victims)
    {
      assert segments[i..][1..] == segments[i + 1..];
      if segments[i].base !in victims { kept := kept + [segments[i]]; }
      i := i + 1;
    }
    assert segments[n..] == [segments[n]];
    kept := kept + [segments[n]];
  }

  lemma StayAll(segments: seq<Segment>, lists: seq<seq<Record>>, victims: set<nat>)
    requires |segments| == |lists| <= 1
    ensures Stay(segments, victims) == segments && StayLists(segments, lists, victims) == lists
  {
  }

  /** Takes the victims out of the partition; the start moves forward, if at all, and the end stays. */
  method DropSegments(p: Partition, victims: set<nat>)
    requires p.Valid()
    modifies p
    ensures p.Valid() && p.nextOffset == old(p.nextOffset) && old(p.startOffset) <= p.startOffset
    ensures p.segments == Stay(old(p.segments), victims)
    ensures |old(p.segments)| == |old(p.lists)| &&
            p.Contents() == Flat(StayLists(old(p.segments), old(p.lists), victims))
  {
    hide Chained, Holds, LastIndexed, Flat, Stay, StayLists;
    ChainedLength(p.crc, p.segments, p.lists, p.nextOffset);
    StayChained(p.crc, p.segments, p.lists, p.nextOffset, victims);
    if |p.segments| <= 1 {
      StayAll(p.segments, p.lists, victims);
      return;
    }
    var kept := FilterSegments(p.segments, victims);
    ghost var lists := StayLists(p.segments, p.lists, victims);
    ChainedLength(p.crc, kept, lists, p.nextOffset);
    p.segments := kept;
    p.startOffset := kept[0].base;
    p.lists := lists;
  }

  // ---------- the plan, carried out ----------

  function SizeInBytes(segments: seq<Segment>): nat {
    if segments == [] then 0 else |segments[0].log| + SizeInBytes(segments[1..])
  }

  /** What the plan is made from: the segments, with the newest timestamp of each. */
  function Infos(segments: seq<Segment>, newest: seq<Option<int>>): (infos: seq<Info>)
    requires |segments| == |newest|
    ensures |infos| == |segments| && forall i :: 0 <= i < |infos| ==> infos[i].base == segments[i].base
    ensures forall i :: 0 <= i < |infos| ==> infos[i].size == |segments[i].log| && infos[i].newest == newest[i]
  {
    if segments == [] then []
    else [Info(segments[0].base, |segments[0].log|, newest[0])] + Infos(segments[1..], newest[1..])
  }

  lemma {:induction false} StayBytes(segments: seq<Segment>, newest: seq<Option<int>>, victims: set<nat>)
    requires |segments| == |newest| && segments != [] && segments[|segments| - 1].base !in victims
    ensures SizeInBytes(Stay(segments, victims)) == Left(Infos(segments, newest), victims)
  {
    if |segments| > 1 {
      StayBytes(segments[1..], newest[1..], victims);
      assert Infos(segments, newest)[1..] == Infos(segments[1..], newest[1..]);
      var rest := Stay(segments[1..], victims);
      if segments[0].base in victims { assert [] + rest == rest; } else { assert ([segments[0]] + rest)[1..] == rest; }
    } else {
      assert segments[1..] == [] && newest[1..] == [];
    }
  }

  lemma {:induction false} OnlyActive(segments: seq<Segment>, victims: set<nat>)
    requires segments != [] && forall i :: 0 <= i < |segments| - 1 ==> segments[i].base in victims
    ensures Stay(segments, victims) == [segments[|segments| - 1]]
  {
    if |segments| > 1 {
      forall i | 0 <= i < |segments[1..]| - 1
        ensures segments[1..][i].base in victims
      {
        assert segments[1..][i] == segments[i + 1];
      }
      OnlyActive(segments[1..], victims);
    }
  }

  /** Once the planned victims are gone, the partition is within its size limit or down to its active segment. */
  lemma LimitEnforced(segments: seq<Segment>, newest: seq<Option<int>>, limit: nat, victims: set<nat>)
    requires |segments| == |newest| && segments != [] && Distinct(Infos(segments, newest))
    requires victims <= BasesOf(Infos(segments, newest)[..|segments| - 1]) &&
             Enough(Infos(segments, newest), limit, victims)
    ensures SizeInBytes(Stay(segments, victims)) <= limit || Stay(segments, victims) == [segments[|segments| - 1]]
  {
    var infos, n := Infos(segments, newest), |segments| - 1;
    NotBefore(infos, n);
    StayBytes(segments, newest, victims);
    if limit < Left(infos, victims) {
      forall i | 0 <= i < n ensures segments[i].base in victims { assert infos[..n][i].base in BasesOf(infos[..n]); }
      OnlyActive(segments, victims);
    }
  }

  lemma ChainedDistinct(crc: Checksum, segments: seq<Segment>, lists: seq<seq<Record>>, next: nat,
                        newest: seq<Option<int>>)
    requires Chained(crc, segments, lists, next) && |segments| == |newest|
    ensures Distinct(Infos(segments, newest))
  {
  }

  /** A sealed segment goes exactly if its newest record is older than the cutoff, or it is among the oldest `k`. */
  predicate Goes(newest: Option<int>, cutoff: Option<int>, i: nat, k: nat) {
    i < k || (cutoff.Some? && newest.Some? && newest.value < cutoff.value)
  }

  lemma GoesExactly(infos: seq<Info>, cutoff: Option<int>, k: nat, i: nat)
    requires Distinct(infos) && i < |infos| - 1 && k < |infos|
    ensures infos[i].base in Aged(infos[..|infos| - 1], cutoff) + BasesOf(infos[..k]) <==>
            Goes(infos[i].newest, cutoff, i, k)
  {
    var sealed := infos[..|infos| - 1];
    if infos[i].base in Aged(sealed, cutoff) {
      var j :| 0 <= j < |sealed| && TooOld(sealed[j], cutoff) && sealed[j].base == infos[i].base;
      assert infos[j].base == infos[i].base;
    }
    if infos[i].base in BasesOf(infos[..k]) {
      var j :| 0 <= j < k && infos[..k][j].base == infos[i].base;
      assert infos[j].base == infos[i].base;
    }
    if i < k { assert infos[..k][i].base in BasesOf(infos[..k]); }
    if TooOld(infos[i], cutoff) { assert sealed[i].base in Aged(sealed, cutoff); }
  }

  lemma PlanExactly(segments: seq<Segment>, newest: seq<Option<int>>, cutoff: Option<int>, k: nat, victims: set<nat>)
    requires |segments| == |newest| && k < |segments| && Distinct(Infos(segments, newest))
    requires victims == Aged(Infos(segments, newest)[..|newest| - 1], cutoff) + BasesOf(Infos(segments, newest)[..k])
    ensures forall i :: 0 <= i < |segments| - 1 ==> (segments[i].base in victims <==> Goes(newest[i], cutoff, i, k))
  {
    hide Aged, BasesOf, Distinct, Goes;
    forall i | 0 <= i < |segments| - 1 ensures segments[i].base in victims <==> Goes(newest[i], cutoff, i, k) {
      GoesExactly(Infos(segments, newest), cutoff, k, i);
    }
  }

  lemma NoPrefix(infos: seq<Info>)
    ensures BasesOf(infos[..0]) == {}
  {
  }

  lemma PrefixWithin(infos: seq<Info>, limit: nat, k: nat)
    requires infos != [] && ShortestPrefix(infos, limit, k)
    ensures k < |infos|
  {
    hide Enough;
  }

  /** Plans and carries out retention: the partition is then within its size limit, or down to its active segment. */
  method Reap(p: Partition, newest: seq<Option<int>>, cutoff: Option<int>, limit: Option<nat>)
    returns (victims: set<nat>, ghost k: nat)
    requires p.Valid() && |p.segments| == |newest|
    modifies p
    ensures p.Valid() && p.nextOffset == old(p.nextOffset) && old(p.startOffset) <= p.startOffset
    ensures p.segments == Stay(old(p.segments), victims)
    ensures |old(p.segments)| == |old(p.lists)| &&
            p.Contents() == Flat(StayLists(old(p.segments), old(p.lists), victims))
    ensures limit.Some? ==> SizeInBytes(p.segments) <= limit.value || |p.segments| == 1
    ensures Aged(Infos(old(p.segments), newest)[..|newest| - 1], cutoff) <= victims
    ensures var infos := Infos(old(p.segments), newest);
            var aged := Aged(infos[..|newest| - 1], cutoff);
            if limit.None? then victims == aged
            else ShortestPrefix(infos, limit.value, k) && victims == aged + BasesOf(infos[..k])
    ensures limit.None? ==> k == 0
    ensures forall i :: 0 <= i < |newest| - 1 ==>
              (old(p.segments)[i].base in victims <==> Goes(newest[i], cutoff, i, k))
  {
    hide Goes, Chained, Holds, LastIndexed, Flat, Stay, StayLists, Enough, ShortestPrefix, Aged, Distinct, Infos;
    ChainedLength(p.crc, p.segments, p.lists, p.nextOffset);
    ChainedDistinct(p.crc, p.segments, p.lists, p.nextOffset, newest);
    victims, k := PlanVictims(Infos(p.segments, newest), cutoff, limit);
    NoPrefix(Infos(p.segments, newest));
    if limit.Some? { PrefixWithin(Infos(p.segments, newest), limit.value, k); }
    PlanExactly(p.segments, newest, cutoff, k, victims);
    if limit.Some? { LimitEnforced(p.segments, newest, limit.value, victims); }
    DropSegments(p, victims);
  }

  /** Retention only takes records away. */
  lemma {:induction false} StayIn(segments: seq<Segment>, lists: seq<seq<Record>>, victims: set<nat>)
    requires |segments| == |lists|
    ensures forall r :: r in Flat(StayLists(segments, lists, victims)) ==> r in Flat(lists)
  {
    if |segments| > 1 {
      StayIn(segments[1..], lists[1..], victims);
      var rest := StayLists(segments[1..], lists[1..], victims);
      if segments[0].base in victims { assert [] + rest == rest; } else { assert ([lists[0]] + rest)[1..] == rest; }
    }
  }
}
