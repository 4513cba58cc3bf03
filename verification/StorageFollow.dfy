/**
 A consumer that keeps polling while the partition changes: records are appended, segments rolled,
 compacted and removed between polls, and a poll reads the watermark before it reads the segments.
 */
module StorageFollow {
  import opened Basics
  import opened StorageRecord
  import opened StorageIndex
  import opened StorageSegment
  import opened StorageCursor
  import opened StorageScan
  import opened StorageReach
  import opened StoragePartition
  import opened Compaction
  import opened Retention

  // ---------- one poll with an old watermark ----------

  function LastBase(bases: seq<nat>): nat
    requires bases != []
  {
    bases[|bases| - 1]
  }

  /** Where a walk that finds nothing ends: past every segment it looked at. */
  lemma {:induction false} EmptyWalkEnds(bases: seq<nat>, lists: seq<seq<Record>>, i: nat, target: nat, effective: nat,
                                         maxRecords: nat, maxBytes: nat, hi: nat)
    requires Ordered(bases, lists) && i < |lists|
    requires PollFrom(bases, lists, i, target, effective, maxRecords, maxBytes, hi).out == []
    ensures PollFrom(bases, lists, i, target, effective, maxRecords, maxBytes, hi).next
            == Max(effective, Max(hi, if i + 1 < |bases| then LastBase(bases) else 0))
    decreases |lists| - i
  {
    hide ReadOf;
    var e := Max(effective, if i + 1 < |bases| then bases[i + 1] else hi);
    assert PollFrom(bases, lists, i, target, effective, maxRecords, maxBytes, hi)
        == PollFrom(bases, lists, i + 1, target, e, maxRecords, maxBytes, hi);
    if i + 1 < |lists| {
      EmptyWalkEnds(bases, lists, i + 1, target, e, maxRecords, maxBytes, hi);
    }
  }

  /** Where a poll that finds nothing sends the consumer. */
  lemma EmptyPollEnds(bases: seq<nat>, lists: seq<seq<Record>>, target: nat, maxRecords: nat, maxBytes: nat, hi: nat)
    requires Ordered(bases, lists) && bases != [] && 0 < maxRecords && target < hi
    requires PollOf(bases, lists, bases[0], target, maxRecords, maxBytes, hi).out == []
    ensures PollOf(bases, lists, bases[0], target, maxRecords, maxBytes, hi).next
            == Max(Max(target, bases[0]), Max(hi, LastBase(bases)))
  {
    hide PollFrom;
    var t := Max(target, bases[0]);
    var i := SegmentFor(bases, t);
    SegmentForIs(bases, t);
    EmptyWalkEnds(bases, lists, i, t, t, maxRecords, maxBytes, hi);
  }

  lemma FlatOrdered(bases: seq<nat>, lists: seq<seq<Record>>)
    requires Ordered(bases, lists) && bases != []
    ensures Increasing(Flat(lists)) && AtLeast(Flat(lists), bases[0])
  {
    hide Ordered, Increasing, AtLeast;
    assert |bases| == |lists| by { OrderedLength(bases, lists); }
    FlatIncreasing(bases, lists, |lists|);
    assert lists[..|lists|] == lists;
  }

  lemma SomePollTakes(rs: seq<Record>, target: nat, hi: nat, out: seq<Record>, next: nat)
    requires Increasing(rs) && out != [] && Range(rs, target, hi) == out + Range(rs, next, hi) && target < next
    ensures next <= hi ==> Range(rs, target, next) == out
  {
    hide Range;
    if next <= hi {
      RangeSplit(rs, target, next, hi);
      SamePrefix(out, Range(rs, target, next), Range(rs, next, hi));
    }
  }

  lemma NextWithin(bases: seq<nat>, lists: seq<seq<Record>>, target: nat, maxRecords: nat, maxBytes: nat, hi: nat)
    requires Ordered(bases, lists) && bases != [] && 0 < maxRecords && target < hi
    ensures var p := PollOf(bases, lists, bases[0], target, maxRecords, maxBytes, hi); p.out != [] ==> p.next <= hi
  {
    hide Range, Flat, PollFrom, Ordered, SegmentFor;
    var t := Max(target, bases[0]);
    assert |bases| == |lists| by { OrderedLength(bases, lists); }
    WalkSplits(bases, lists, SegmentFor(bases, t), t, t, maxRecords, maxBytes, hi);
  }

  lemma NothingBeforeStart(rs: seq<Record>, start: nat, lo: nat)
    requires AtLeast(rs, start) && lo <= start
    ensures Range(rs, lo, start) == []
  {
    RangeNone(rs, lo, start);
  }

  /**
   A poll leaves out nothing before the offset it sends the consumer to exactly when, if there is a record
   below the watermark it saw, the reader can get to one in the segment that should answer, and if there
   is none, no record lies between that watermark and the newest segment it saw.
   */
  lemma PollLeavesOutNothing(bases: seq<nat>, lists: seq<seq<Record>>, target: nat, maxRecords: nat, maxBytes: nat,
                             hi: nat)
    requires Ordered(bases, lists) && bases != [] && 0 < maxRecords && target < hi
    ensures var p := PollSeen(bases, lists, bases[0], target, maxRecords, maxBytes, hi);
            Range(Flat(lists), target, p.next) == p.out
            <==> if Range(Flat(lists), target, hi) != [] then PollFinds(bases, lists, bases[0], target, maxBytes, hi)
                 else Range(Flat(lists), hi, LastBase(bases)) == []
  {
    hide Range, Flat, PollOf, Ordered, Increasing, AtLeast, SeenLists, PollFinds, Passed;
    OrderedLength(bases, lists);
    var seen := SeenLists(bases, lists, Max(target, bases[0]), WindowFor(maxBytes));
    PartsOrdered(bases, lists, seen);
    var p := PollSeen(bases, lists, bases[0], target, maxRecords, maxBytes, hi);
    var all := Flat(lists);
    FlatOrdered(bases, lists);
    PollSeenSplits(bases, lists, bases[0], target, maxRecords, maxBytes, hi);
    if Range(all, target, hi) == [] {
      NothingGiven(bases, lists, seen, target, maxRecords, maxBytes, hi);
      EmptyPollEnds(bases, seen, target, maxRecords, maxBytes, hi);
      EmptyRange(all, bases, target, hi, p.next);
    } else if PollFinds(bases, lists, bases[0], target, maxBytes, hi) {
      if p.out == [] { PastEnd(all, p.next, hi); }
      NextWithin(bases, seen, target, maxRecords, maxBytes, hi);
      SomePollTakes(all, target, hi, p.out, p.next);
    } else {
      FirstPassed(all, target, hi, p);
    }
  }

  lemma NothingGiven(bases: seq<nat>, lists: seq<seq<Record>>, seen: seq<seq<Record>>, target: nat, maxRecords: nat,
                     maxBytes: nat, hi: nat)
    requires Parts(lists, seen) && Ordered(bases, seen) && bases != [] && 0 < maxRecords && target < hi &&
             |bases| == |seen|
    requires Range(Flat(lists), target, hi) == []
    ensures PollOf(bases, seen, bases[0], target, maxRecords, maxBytes, hi).out == []
  {
    hide Range, Flat, PollOf, Ordered;
    var p := PollOf(bases, seen, bases[0], target, maxRecords, maxBytes, hi);
    SeenOffsets(bases, seen, bases[0], target, maxRecords, maxBytes, hi);
    if p.out != [] {
      PartsFlat(lists, seen);
      var r := p.out[0];
      assert r in p.out && r in Flat(lists);
      RangeHas(Flat(lists), target, hi, r);
    }
  }

  lemma FirstPassed(all: seq<Record>, target: nat, hi: nat, p: Poll)
    requires Passed(all, target, hi, p)
    ensures Range(all, target, p.next) != p.out
  {
    hide Range;
    var r := Range(all, target, hi)[0];
    RangeIn(all, target, hi, 0);
    RangeHas(all, target, p.next, r);
  }

  /** An empty poll passes over exactly the records between the watermark and the newest segment. */
  lemma EmptyRange(all: seq<Record>, bases: seq<nat>, target: nat, hi: nat, next: nat)
    requires Increasing(all) && bases != [] && AtLeast(all, bases[0]) && target < hi && Range(all, target, hi) == []
    requires next == Max(Max(target, bases[0]), Max(hi, LastBase(bases)))
    ensures Range(all, target, next) == [] <==> Range(all, hi, LastBase(bases)) == []
  {
    hide Range, Increasing, AtLeast;
    RangeSplit(all, target, hi, next);
    if hi <= LastBase(bases) {
      RangeSplit(all, hi, LastBase(bases), next);
      if LastBase(bases) < next { StartsAt(all, bases, LastBase(bases), next); }
      else { PastEnd(all, LastBase(bases), next); }
    } else {
      PastEnd(all, hi, LastBase(bases));
      if hi < next { StartsAt(all, bases, hi, next); }
      else { PastEnd(all, hi, next); }
    }
  }

  lemma StartsAt(all: seq<Record>, bases: seq<nat>, lo: nat, next: nat)
    requires bases != [] && AtLeast(all, bases[0]) && lo <= next == bases[0]
    ensures Range(all, lo, next) == []
  {
    NothingBeforeStart(all, bases[0], lo);
  }

  function Rec(offset: nat): Record {
    Record(offset, 0, None, [])
  }

  lemma TwoOrdered()
    ensures Ordered([0, 11], [[Rec(4), Rec(10)], []])
  {
  }

  /**
   A watermark of 10 read before record 10 is appended and its segment sealed at 11: with nothing left in
   [5, 10) the poll sends the consumer to 11, past record 10.
   */
  lemma OldWatermarkSkips()
    ensures var bases, lists := [0, 11], [[Rec(4), Rec(10)], []];
            && Ordered(bases, lists) && PollSeen(bases, lists, 0, 5, 100, 1000, 10) == Poll([], 11)
            && Range(Flat(lists), 5, 11) == [Rec(10)]
  {
    hide PollSeen, PollOf, Seen, Range, Flat, Ordered, DiskSize, Legible;
    var bases, lists := [0, 11], [[Rec(4), Rec(10)], []];
    TwoOrdered();
    TwoSmall();
    SeesAll(bases, lists, 5, WindowFor(1000));
    PollSeenIs(bases, lists, 0, 5, 100, 1000, 10);
    PlainSkips();
  }

  lemma TwoSmall()
    ensures AllWithin([Rec(4), Rec(10)], WindowFor(1000)) && AllWithin([], WindowFor(1000))
  {
  }

  lemma PlainSkips()
    ensures var bases, lists := [0, 11], [[Rec(4), Rec(10)], []];
            PollOf(bases, lists, 0, 5, 100, 1000, 10) == Poll([], 11) && Range(Flat(lists), 5, 11) == [Rec(10)]
  {
    var a: seq<Record> := [Rec(4), Rec(10)];
    var bases, lists := [0, 11], [a, []];
    assert FromOffset(a, 5) == [Rec(10)] by { assert a[1..] == [Rec(10)]; }
    assert ReadOf(a, 5, 100, 1000, 10) == [];
    assert ReadOf([], 5, 100, 1000, 10) == [];
    assert PollFrom(bases, lists, 2, 5, 11, 100, 1000, 10) == Poll([], 11);
    assert PollFrom(bases, lists, 1, 5, 11, 100, 1000, 10) == Poll([], 11);
    assert PollFrom(bases, lists, 0, 5, 5, 100, 1000, 10) == Poll([], 11);
    assert SegmentFor(bases, 5) == 0;
    assert lists[1..] == [[]] && Flat([[]]) == [] + Flat([]) == [];
    assert Flat(lists) == a;
    assert a[1..] == [Rec(10)] && [Rec(10)][1..] == [];
  }

  // ---------- polling on while the partition changes ----------

  /** What one poll sees: the watermark, then the segments; `end` is where the partition ends by then. */
  datatype Moment = Moment(bases: seq<nat>, lists: seq<seq<Record>>, hi: nat, end: nat)

  ghost predicate Sound(m: Moment) {
    && Ordered(m.bases, m.lists) && m.bases != [] && LastBase(m.bases) <= m.end && m.hi <= m.end
  }

  /** Between two moments records may disappear and new ones may appear, but only past the old end. */
  ghost predicate Evolves(m: Moment, m': Moment) {
    m.end <= m'.end && forall r :: r in Flat(m'.lists) ==> r in Flat(m.lists) || m.end <= r.offset
  }

  /** No segment was opened past the watermark the poll goes by. */
  ghost predicate Settled(m: Moment) {
    m.bases != [] && LastBase(m.bases) <= m.hi
  }

  ghost predicate History(ms: seq<Moment>) {
    && (forall k :: 0 <= k < |ms| ==> Sound(ms[k]))
    && (forall k :: 0 <= k < |ms| - 1 ==> Evolves(ms[k], ms[k + 1]))
  }

  /** A partition, between operations, whose end is read together with its segments. */
  function MomentOf(segments: seq<Segment>, lists: seq<seq<Record>>, next: nat): Moment {
    Moment(Bases(segments), lists, next, next)
  }

  lemma PartitionSettled(p: Partition)
    requires p.Valid()
    ensures var m := MomentOf(p.segments, p.lists, p.nextOffset); Sound(m) && Settled(m)
  {
    ChainedOrdered(p.crc, p.segments, p.lists, p.nextOffset);
  }

  /** Appending, with however many rolls, only adds records past the end. */
  lemma AppendEvolves(m: Moment, m': Moment, rs: seq<AppendRecord>, now: int)
    requires Flat(m'.lists) == Flat(m.lists) + Assign(m.end, rs, now).added && m'.end == Assign(m.end, rs, now).next
    ensures Evolves(m, m')
  {
    hide Flat, Assign;
    AssignIncreases(m.end, rs, now);
  }

  /** Compaction takes records away and adds none. */
  lemma CompactEvolves(m: Moment, m': Moment, cutoff: int)
    requires m.lists != [] && Flat(m'.lists) == CompactedContents(m.lists, cutoff) && m'.end == m.end
    ensures Evolves(m, m')
  {
    hide Flat, CompactedContents;
    CompactedIn(m.lists, cutoff);
  }

  /** So does removing old segments. */
  lemma DropEvolves(m: Moment, m': Moment, segments: seq<Segment>, victims: set<nat>)
    requires |segments| == |m.lists| && Flat(m'.lists) == Flat(StayLists(segments, m.lists, victims)) && m'.end == m.end
    ensures Evolves(m, m')
  {
    hide Flat, StayLists;
    StayIn(segments, m.lists, victims);
  }

  function PollAt(m: Moment, target: nat, maxRecords: nat, maxBytes: nat): Poll
    requires |m.bases| == |m.lists| && m.bases != []
  {
    PollSeen(m.bases, m.lists, m.bases[0], target, maxRecords, maxBytes, m.hi)
  }

  /** The poll sees no segment opened past its watermark, and gets to the next record if there is one. */
  ghost predicate Smooth(m: Moment, target: nat, maxBytes: nat)
    requires |m.bases| == |m.lists|
  {
    Settled(m) && (target < m.hi ==> PollFinds(m.bases, m.lists, m.bases[0], target, maxBytes, m.hi))
  }

  ghost predicate Pollable(ms: seq<Moment>) {
    forall k :: 0 <= k < |ms| ==> |ms[k].bases| == |ms[k].lists| && ms[k].bases != []
  }

  /** Everything the consumer got from its first `k` polls, and where it then stands. */
  ghost function Followed(ms: seq<Moment>, from: nat, maxRecords: nat, maxBytes: nat, k: nat): Poll
    requires k <= |ms| && Pollable(ms)
  {
    if k == 0 then Poll([], from)
    else
      var before := Followed(ms, from, maxRecords, maxBytes, k - 1);
      var p := PollAt(ms[k - 1], before.next, maxRecords, maxBytes);
      Poll(before.out + p.out, p.next)
  }

  /** A smooth poll gives exactly the records up to where it sends the consumer, which is within the partition. */
  lemma SmoothPoll(m: Moment, target: nat, maxRecords: nat, maxBytes: nat)
    requires Sound(m) && |m.bases| == |m.lists| && Smooth(m, target, maxBytes) && 0 < maxRecords
    ensures var p := PollAt(m, target, maxRecords, maxBytes);
            target <= p.next <= Max(target, m.end) && Range(Flat(m.lists), target, p.next) == p.out
  {
    hide Range, Flat, Ordered, Increasing, AtLeast, PollFinds, SeenLists;
    var all := Flat(m.lists);
    if m.hi <= target {
      PastEnd(all, target, target);
    } else {
      PollTakes(m, target, maxRecords, maxBytes);
    }
  }

  lemma PollTakes(m: Moment, target: nat, maxRecords: nat, maxBytes: nat)
    requires Sound(m) && |m.bases| == |m.lists| && Smooth(m, target, maxBytes) && 0 < maxRecords && target < m.hi
    ensures |m.bases| == |m.lists|
    ensures var p := PollAt(m, target, maxRecords, maxBytes);
            target <= p.next <= m.end && Range(Flat(m.lists), target, p.next) == p.out
  {
    hide Range, Flat, Ordered, PollOf, Increasing, AtLeast, PollFinds, SeenLists;
    PollSeenSplits(m.bases, m.lists, m.bases[0], target, maxRecords, maxBytes, m.hi);
    PastEnd(Flat(m.lists), m.hi, LastBase(m.bases));
    PollLeavesOutNothing(m.bases, m.lists, target, maxRecords, maxBytes, m.hi);
    var seen := SeenLists(m.bases, m.lists, Max(target, m.bases[0]), WindowFor(maxBytes));
    PartsOrdered(m.bases, m.lists, seen);
    if PollAt(m, target, maxRecords, maxBytes).out != [] {
      NextWithin(m.bases, seen, target, maxRecords, maxBytes, m.hi);
    } else {
      EmptyPollEnds(m.bases, seen, target, maxRecords, maxBytes, m.hi);
      FirstBase(m.bases, m.lists);
    }
  }

  lemma FirstBase(bases: seq<nat>, lists: seq<seq<Record>>)
    requires Ordered(bases, lists) && bases != []
    ensures bases[0] <= LastBase(bases)
  {
  }

  /** The consumer's records so far against the partition as last seen. */
  ghost predicate UpToDate(got: Poll, from: nat, all: seq<Record>, end: nat) {
    && from <= got.next <= Max(from, end)
    && Increasing(got.out)
    && (forall k :: 0 <= k < |got.out| ==> from <= got.out[k].offset < got.next)
    && (forall r :: r in all && from <= r.offset < got.next ==> r in got.out)
  }

  lemma StillUpToDate(got: Poll, from: nat, m: Moment, m': Moment)
    requires UpToDate(got, from, Flat(m.lists), m.end) && Evolves(m, m')
    ensures UpToDate(got, from, Flat(m'.lists), m'.end)
  {
    hide Flat;
  }

  lemma MoreUpToDate(got: Poll, from: nat, all: seq<Record>, end: nat, p: Poll)
    requires UpToDate(got, from, all, end) && Increasing(all)
    requires got.next <= p.next <= Max(got.next, end) && Range(all, got.next, p.next) == p.out
    ensures UpToDate(Poll(got.out + p.out, p.next), from, all, end)
  {
    hide Range;
    var c, out := got.next, got.out + p.out;
    forall k | 0 <= k < |p.out| ensures c <= p.out[k].offset < p.next { RangeIn(all, c, p.next, k); }
    assert Increasing(p.out) by { RangeIncreasing(all, c, p.next); }
    forall r | r in all && from <= r.offset < p.next ensures r in out {
      if c <= r.offset { RangeHas(all, c, p.next, r); }
    }
  }

  lemma {:induction false} FollowsOn(ms: seq<Moment>, from: nat, maxRecords: nat, maxBytes: nat, k: nat)
    requires History(ms) && Pollable(ms) && 0 < maxRecords && k < |ms|
    requires forall j :: 0 <= j <= k ==> Smooth(ms[j], Followed(ms, from, maxRecords, maxBytes, j).next, maxBytes)
    ensures UpToDate(Followed(ms, from, maxRecords, maxBytes, k + 1), from, Flat(ms[k].lists), ms[k].end)
    decreases k
  {
    hide Flat, PollAt, UpToDate, Evolves, Increasing, AtLeast, Smooth, Followed, Ordered, Range;
    assert Sound(ms[k]);
    var before := Followed(ms, from, maxRecords, maxBytes, k);
    FollowedStep(ms, from, maxRecords, maxBytes, k);
    if k == 0 {
      NothingGot(from, Flat(ms[0].lists), ms[0].end);
    } else {
      FollowsOn(ms, from, maxRecords, maxBytes, k - 1);
      assert Evolves(ms[k - 1], ms[k - 1 + 1]);
      StillUpToDate(before, from, ms[k - 1], ms[k]);
    }
    SmoothPoll(ms[k], before.next, maxRecords, maxBytes);
    FlatOrdered(ms[k].bases, ms[k].lists);
    var p := PollAt(ms[k], before.next, maxRecords, maxBytes);
    MoreUpToDate(before, from, Flat(ms[k].lists), ms[k].end, p);
  }

  lemma FollowedStep(ms: seq<Moment>, from: nat, maxRecords: nat, maxBytes: nat, k: nat)
    requires k < |ms| && Pollable(ms)
    ensures var before := Followed(ms, from, maxRecords, maxBytes, k);
            var p := PollAt(ms[k], before.next, maxRecords, maxBytes);
            Followed(ms, from, maxRecords, maxBytes, k + 1) == Poll(before.out + p.out, p.next)
    ensures Followed(ms, from, maxRecords, maxBytes, 0) == Poll([], from)
  {
    hide PollAt;
  }

  lemma NothingGot(from: nat, all: seq<Record>, end: nat)
    ensures UpToDate(Poll([], from), from, all, end)
  {
  }

  /**
   However the partition grows, rolls, is compacted and loses old segments between polls, if each poll is
   smooth: what the consumer got has no repetition and is in offset order, and it includes every record
   the partition still holds from where the consumer began up to where it stands.
   */
  lemma FollowingMissesNothing(ms: seq<Moment>, from: nat, maxRecords: nat, maxBytes: nat)
    requires History(ms) && Pollable(ms) && 0 < maxRecords && ms != []
    requires forall j :: 0 <= j < |ms| ==> Smooth(ms[j], Followed(ms, from, maxRecords, maxBytes, j).next, maxBytes)
    ensures var got := Followed(ms, from, maxRecords, maxBytes, |ms|);
            && Increasing(got.out)
            && forall r :: r in Flat(ms[|ms| - 1].lists) && from <= r.offset < got.next ==> r in got.out
  {
    hide Flat, Followed, History, Smooth;
    FollowsOn(ms, from, maxRecords, maxBytes, |ms| - 1);
  }
}
