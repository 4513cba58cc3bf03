/**
 Polling with the windowed reader. A record longer than the window can be out of the reader's reach;
 here is exactly when a read, a poll and a consumer that polls on are still what the plain scan gives.
 */
module StorageReach {
  import opened Basics
  import opened StorageRecord
  import opened StorageCursor
  import opened StorageIndex
  import opened StorageSegment
  import opened StorageScan

  // ---------- one segment ----------

  /** Scanning only the first `m` records gives the first `m` of what scanning all of them gives. */
  lemma {:induction false} TakePart(rs: seq<Record>, m: nat, n: nat, bytes: nat, maxRecords: nat, maxBytes: nat,
                                    watermark: nat)
    requires m <= |rs|
    ensures var full := TakeUpTo(rs, n, bytes, maxRecords, maxBytes, watermark);
            TakeUpTo(rs[..m], n, bytes, maxRecords, maxBytes, watermark) == full[..Min(m, |full|)]
  {
    hide DiskSize;
    if m == 0 {
      assert rs[..0] == [];
    } else {
      assert rs[..m][0] == rs[0] && rs[..m][1..] == rs[1..][..m - 1];
      TakePart(rs[1..], m - 1, n + 1, bytes + DiskSize(rs[0]), maxRecords, maxBytes, watermark);
    }
  }

  /** Cutting the records cuts what lies from the target on. */
  lemma {:induction false} FromPart(rs: seq<Record>, v: nat, target: nat)
    requires v <= |rs|
    ensures var all := FromOffset(rs, target); var skip := |rs| - |all|;
            skip >= 0 && FromOffset(rs[..v], target) == all[..if v <= skip then 0 else v - skip]
  {
    if rs != [] {
      if v == 0 {
        FromPart(rs[1..], 0, target);
        assert rs[..0] == [] && rs[1..][..0] == [];
      } else {
        assert rs[..v][0] == rs[0] && rs[..v][1..] == rs[1..][..v - 1];
        if rs[0].offset < target { FromPart(rs[1..], v - 1, target); }
      }
    }
  }

  /** The place just past the last record a plain read gives. */
  function ReadEnd(rs: seq<Record>, target: nat, maxRecords: nat, maxBytes: nat, watermark: nat): int {
    |rs| - |FromOffset(rs, target)| + |ReadOf(rs, target, maxRecords, maxBytes, watermark)|
  }

  /** The first `v` records include all that the plain read gives. */
  predicate ReadStops(rs: seq<Record>, v: nat, target: nat, maxRecords: nat, maxBytes: nat, watermark: nat) {
    || ReadOf(rs, target, maxRecords, maxBytes, watermark) == []
    || ReadEnd(rs, target, maxRecords, maxBytes, watermark) <= v
  }

  lemma ReadSeenIs(rs: seq<Record>, v: nat, target: nat, maxRecords: nat, maxBytes: nat, watermark: nat)
    requires v <= |rs|
    ensures var part := ReadOf(rs[..v], target, maxRecords, maxBytes, watermark);
            var full := ReadOf(rs, target, maxRecords, maxBytes, watermark);
            part <= full && (part == full <==> ReadStops(rs, v, target, maxRecords, maxBytes, watermark))
  {
    hide FromOffset, TakeUpTo;
    var all := FromOffset(rs, target);
    FromPart(rs, v, target);
    var skip := |rs| - |all|;
    TakePart(all, if v <= skip then 0 else v - skip, 0, 0, maxRecords, maxBytes, watermark);
  }

  lemma ReadEndIn(rs: seq<Record>, target: nat, maxRecords: nat, maxBytes: nat, watermark: nat)
    ensures 0 <= ReadEnd(rs, target, maxRecords, maxBytes, watermark) <= |rs|
  {
    hide FromOffset, TakeUpTo;
    FromPart(rs, |rs|, target);
    TakeLess(FromOffset(rs, target), 0, 0, maxRecords, maxBytes, watermark);
  }

  lemma {:induction false} TakeLess(rs: seq<Record>, n: nat, bytes: nat, maxRecords: nat, maxBytes: nat, watermark: nat)
    ensures |TakeUpTo(rs, n, bytes, maxRecords, maxBytes, watermark)| <= |rs|
  {
    if rs != [] { TakeLess(rs[1..], n + 1, bytes + DiskSize(rs[0]), maxRecords, maxBytes, watermark); }
  }

  /**
   A read with the windowed reader is the plain read if and only if, of the records from where the index sends
   it up to the last one the plain read gives, it misses none.
   */
  lemma ReadSeenExactly(base: nat, rs: seq<Record>, target: nat, maxRecords: nat, maxBytes: nat, watermark: nat)
    ensures var window, k := WindowFor(maxBytes), StartAt(base, rs, target);
            var full := ReadOf(rs, target, maxRecords, maxBytes, watermark);
            var end := ReadEnd(rs, target, maxRecords, maxBytes, watermark);
            && 0 <= end <= |rs|
            && (ReadOf(rs[..Seen(base, rs, target, window)], target, maxRecords, maxBytes, watermark) == full
                <==> full == [] || end <= k || Readable(rs[k..], end - k, 0, window, 0))
  {
    hide ReadOf, Seen, StartAt, Readable, ReadEnd;
    var window := WindowFor(maxBytes);
    ReadSeenIs(rs, Seen(base, rs, target, window), target, maxRecords, maxBytes, watermark);
    ReadEndIn(rs, target, maxRecords, maxBytes, watermark);
    SeenExactly(base, rs, target, window, ReadEnd(rs, target, maxRecords, maxBytes, watermark));
  }

  /** A read that gives anything gives a first part of what is there, also when it cannot see everything. */
  lemma SeenSplits(rs: seq<Record>, v: nat, target: nat, maxRecords: nat, maxBytes: nat, hi: nat)
    requires Increasing(rs) && v <= |rs| && 0 < maxRecords
    ensures var out := ReadOf(rs[..v], target, maxRecords, maxBytes, hi);
            if out == [] then Range(rs[..v], target, hi) == []
            else FirstPart(rs, target, hi, out) && out[|out| - 1] in rs[..v] && Range(rs[..v], target, hi) != []
  {
    hide Range, ReadOf;
    var seen, rest := rs[..v], rs[v..];
    ReadSplits(seen, target, maxRecords, maxBytes, hi);
    var out := ReadOf(seen, target, maxRecords, maxBytes, hi);
    if out != [] {
      var last := out[|out| - 1];
      assert rs == seen + rest;
      RangeConcat(seen, rest, target, hi);
      RangeConcat(seen, rest, last.offset + 1, hi);
      forall k | 0 <= k < |rest| ensures last.offset < rest[k].offset { assert rest[k] == rs[v + k]; }
      RangeFrom(rest, target, last.offset + 1, hi);
      assert out + Range(seen, last.offset + 1, hi) + Range(rest, last.offset + 1, hi)
          == out + (Range(seen, last.offset + 1, hi) + Range(rest, last.offset + 1, hi));
    }
  }

  // ---------- one poll ----------

  /** What of each segment a poll for `target` can get to. */
  function SeenLists(bases: seq<nat>, lists: seq<seq<Record>>, target: nat, window: nat): (seen: seq<seq<Record>>)
    requires |bases| == |lists|
    ensures Parts(lists, seen)
  {
    seq(|lists|, i requires 0 <= i < |lists| => lists[i][..Seen(bases[i], lists[i], target, window)])
  }

  lemma SeenAt(bases: seq<nat>, lists: seq<seq<Record>>, target: nat, window: nat, i: nat)
    requires |bases| == |lists| && i < |lists|
    ensures SeenLists(bases, lists, target, window)[i] == lists[i][..Seen(bases[i], lists[i], target, window)]
  {
  }

  /** Every list is a first part of its counterpart. */
  predicate Parts(lists: seq<seq<Record>>, seen: seq<seq<Record>>) {
    |seen| == |lists| && forall i :: 0 <= i < |lists| ==> PartOf(seen[i], lists[i])
  }

  predicate PartOf(a: seq<Record>, b: seq<Record>) {
    |a| <= |b| && a == b[..|a|]
  }

  /** One poll as the windowed reader answers it. */
  function PollSeen(bases: seq<nat>, lists: seq<seq<Record>>, start: nat, target: nat, maxRecords: nat, maxBytes: nat,
                    watermark: nat): Poll
    requires |bases| == |lists|
  {
    PollOf(bases, SeenLists(bases, lists, Max(target, start), WindowFor(maxBytes)), start, target, maxRecords, maxBytes,
           watermark)
  }

  /** A poll stays within what was asked for. */
  lemma SeenLimited(bases: seq<nat>, lists: seq<seq<Record>>, start: nat, target: nat, maxRecords: nat, maxBytes: nat,
                    watermark: nat)
    requires |bases| == |lists|
    ensures Limited(PollSeen(bases, lists, start, target, maxRecords, maxBytes, watermark), maxRecords, maxBytes,
                    watermark)
  {
    hide Limited, PollOf, SeenLists;
    PollBounded(bases, SeenLists(bases, lists, Max(target, start), WindowFor(maxBytes)), start, target, maxRecords,
                maxBytes, watermark);
  }

  lemma PartsOrdered(bases: seq<nat>, lists: seq<seq<Record>>, seen: seq<seq<Record>>)
    requires Ordered(bases, lists) && Parts(lists, seen)
    ensures Ordered(bases, seen)
  {
    forall i | 0 <= i < |seen|
      ensures Increasing(seen[i]) && AtLeast(seen[i], bases[i]) && (i + 1 < |seen| ==> Below(seen[i], bases[i + 1]))
    {
      assert PartOf(seen[i], lists[i]);
    }
  }

  lemma {:induction false} PartsFlat(lists: seq<seq<Record>>, seen: seq<seq<Record>>)
    requires Parts(lists, seen)
    ensures forall r :: r in Flat(seen) ==> r in Flat(lists)
  {
    if lists != [] {
      assert PartOf(seen[0], lists[0]);
      assert Parts(lists[1..], seen[1..]) by {
        forall i | 0 <= i < |lists[1..]|
          ensures PartOf(seen[1..][i], lists[1..][i])
        {
          assert PartOf(seen[i + 1], lists[i + 1]);
        }
      }
      PartsFlat(lists[1..], seen[1..]);
    }
  }

  /** From segment `i` on, the first that has a record in range shows the reader one. */
  predicate Finds(lists: seq<seq<Record>>, seen: seq<seq<Record>>, i: nat, target: nat, hi: nat)
    requires |seen| == |lists|
    decreases |lists| - i
  {
    if |lists| <= i then true
    else if Range(lists[i], target, hi) == [] then Finds(lists, seen, i + 1, target, hi)
    else Range(seen[i], target, hi) != []
  }

  /** Of a segment the reader gets to a record in range if and only if it misses none up to the first of them. */
  lemma FindsExactly(base: nat, rs: seq<Record>, target: nat, hi: nat, window: nat, k: nat)
    requires k < |rs| && target <= rs[k].offset < hi && forall j :: 0 <= j < k ==> rs[j].offset < target
    ensures var s := StartAt(base, rs, target);
            Range(rs[..Seen(base, rs, target, window)], target, hi) != []
            <==> k < s || Readable(rs[s..], k + 1 - s, 0, window, 0)
  {
    hide Seen, StartAt, Readable, Range;
    var v := Seen(base, rs, target, window);
    SeenExactly(base, rs, target, window, k + 1);
    if k < v {
      assert rs[..v][k] == rs[k];
      RangeHas(rs[..v], target, hi, rs[k]);
    } else {
      RangeNone(rs[..v], target, hi);
    }
  }

  /** The first record of the range neither was given nor will be: it lies before where the reader goes on. */
  predicate Passed(all: seq<Record>, target: nat, hi: nat, p: Poll) {
    var range := Range(all, target, hi); range != [] && range[0].offset < p.next && range[0] !in p.out
  }

  lemma OutFrom(bases: seq<nat>, seen: seq<seq<Record>>, i: nat, target: nat, effective: nat, maxRecords: nat,
                maxBytes: nat, hi: nat)
    requires Ordered(bases, seen) && i < |seen|
    ensures var p := PollFrom(bases, seen, i, target, effective, maxRecords, maxBytes, hi);
            forall r :: r in p.out ==> bases[i] <= r.offset
    decreases |seen| - i
  {
    var out := ReadOf(seen[i], target, maxRecords, maxBytes, hi);
    if out == [] {
      if i + 1 < |seen| {
        OutFrom(bases, seen, i + 1, target, Max(effective, bases[i + 1]), maxRecords, maxBytes, hi);
      }
    } else {
      TakenIn(seen[i], target, maxRecords, maxBytes, hi);
    }
  }

  lemma TakenIn(rs: seq<Record>, target: nat, maxRecords: nat, maxBytes: nat, hi: nat)
    ensures forall r :: r in ReadOf(rs, target, maxRecords, maxBytes, hi) ==> r in rs
  {
    FromIn(rs, target);
    TakeIn(FromOffset(rs, target), 0, 0, maxRecords, maxBytes, hi);
  }

  lemma {:induction false} RangeOfPart(a: seq<Record>, b: seq<Record>, lo: nat, hi: nat)
    requires PartOf(a, b) && Range(b, lo, hi) == []
    ensures Range(a, lo, hi) == []
  {
    assert b == a + b[|a|..];
    RangeConcat(a, b[|a|..], lo, hi);
  }

  /** At a segment whose records in range are out of reach, the first of them is passed over. */
  lemma PassesOver(bases: seq<nat>, lists: seq<seq<Record>>, seen: seq<seq<Record>>, i: nat, target: nat,
                   effective: nat,
                   maxRecords: nat, maxBytes: nat, hi: nat)
    requires Ordered(bases, lists) && Ordered(bases, seen) && i < |lists| && 0 < maxRecords
    requires Range(lists[i], target, hi) != [] && ReadOf(seen[i], target, maxRecords, maxBytes, hi) == []
    ensures Passed(Flat(lists[i..]), target, hi, PollFrom(bases, seen, i, target, effective, maxRecords, maxBytes, hi))
  {
    hide Range, ReadOf, Flat, Ordered;
    var r := Range(lists[i], target, hi)[0];
    RangeIn(lists[i], target, hi, 0);
    FlatHead(lists, i);
    RangeConcat(lists[i], Flat(lists[i + 1..]), target, hi);
    OrderedLength(bases, lists);
    OrderedLength(bases, seen);
    var e := Max(effective, if i + 1 < |bases| then bases[i + 1] else hi);
    var p := PollFrom(bases, seen, i + 1, target, e, maxRecords, maxBytes, hi);
    assert PollFrom(bases, seen, i, target, effective, maxRecords, maxBytes, hi) == p;
    WalkSplits(bases, seen, i + 1, target, e, maxRecords, maxBytes, hi);
    if i + 1 < |seen| {
      OutFrom(bases, seen, i + 1, target, e, maxRecords, maxBytes, hi);
      EndsBelow(bases, lists, i, r);
    }
  }

  lemma EndsBelow(bases: seq<nat>, lists: seq<seq<Record>>, i: nat, r: Record)
    requires Ordered(bases, lists) && i + 1 < |lists| && r in lists[i]
    ensures i + 1 < |bases| && r.offset < bases[i + 1]
  {
    assert Below(lists[i], bases[i + 1]);
  }

  /** The walk finds the first part of the range if the reader can, and otherwise passes over a record of it. */
  lemma {:induction false} WalkFinds(bases: seq<nat>, lists: seq<seq<Record>>, seen: seq<seq<Record>>, i: nat,
                                     target: nat, effective: nat,
                                     maxRecords: nat, maxBytes: nat, hi: nat)
    requires Ordered(bases, lists) && Parts(lists, seen) && Ordered(bases, seen) && i <= |lists| && 0 < maxRecords
    requires i == |lists| ==> hi <= effective
    ensures var p := PollFrom(bases, seen, i, target, effective, maxRecords, maxBytes, hi); var all := Flat(lists[i..]);
            if !Finds(lists, seen, i, target, hi) then Passed(all, target, hi, p)
            else if p.out == [] then Range(all, target, hi) == []
            else FirstPart(all, target, hi, p.out)
    decreases |lists| - i
  {
    hide FirstPart, ReadOf, Range, Flat, Ordered, Passed, PartOf;
    OrderedLength(bases, lists);
    OrderedLength(bases, seen);
    if i == |lists| {
      NothingLeft(lists, target, hi);
    } else {
      var out := ReadOf(seen[i], target, maxRecords, maxBytes, hi);
      var e := Max(effective, if i + 1 < |bases| then bases[i + 1] else hi);
      SeenSegment(bases, lists, seen, i, target, maxRecords, maxBytes, hi);
      if Range(lists[i], target, hi) == [] {
        WalkFinds(bases, lists, seen, i + 1, target, e, maxRecords, maxBytes, hi);
        var p := PollFrom(bases, seen, i + 1, target, e, maxRecords, maxBytes, hi);
        SkipSegment(lists, i, target, hi, p.out);
        assert PollFrom(bases, seen, i, target, effective, maxRecords, maxBytes, hi) == p;
        if !Finds(lists, seen, i, target, hi) { PassedOn(lists, i, target, hi, p); }
      } else if out == [] {
        PassesOver(bases, lists, seen, i, target, effective, maxRecords, maxBytes, hi);
      }
    }
  }

  lemma PassedOn(lists: seq<seq<Record>>, i: nat, target: nat, hi: nat, p: Poll)
    requires i < |lists| && Range(lists[i], target, hi) == [] && Passed(Flat(lists[i + 1..]), target, hi, p)
    ensures Passed(Flat(lists[i..]), target, hi, p)
  {
    hide Flat, Range;
    FlatHead(lists, i);
    RangeConcat(lists[i], Flat(lists[i + 1..]), target, hi);
    assert [] + Range(Flat(lists[i + 1..]), target, hi) == Range(Flat(lists[i + 1..]), target, hi);
  }

  /** What the reader gets of one segment, against the segment and all that follow. */
  lemma SeenSegment(bases: seq<nat>, lists: seq<seq<Record>>, seen: seq<seq<Record>>, i: nat, target: nat,
                    maxRecords: nat, maxBytes: nat, hi: nat)
    requires Ordered(bases, lists) && Parts(lists, seen) && i < |lists| && 0 < maxRecords
    ensures var out := ReadOf(seen[i], target, maxRecords, maxBytes, hi);
            && (out == [] <==> Range(seen[i], target, hi) == [])
            && (Range(lists[i], target, hi) == [] ==> out == [])
            && (out != [] ==> FirstPart(Flat(lists[i..]), target, hi, out))
  {
    hide ReadOf, Range, Flat, FirstPart;
    OrderedAt(bases, lists, i);
    assert PartOf(seen[i], lists[i]);
    var v := |seen[i]|;
    assert seen[i] == lists[i][..v];
    SeenSplits(lists[i], v, target, maxRecords, maxBytes, hi);
    var out := ReadOf(seen[i], target, maxRecords, maxBytes, hi);
    if out != [] { FirstInSegment(bases, lists, i, target, hi, out) by { assert out[|out| - 1] in lists[i][..v]; } }
    if Range(lists[i], target, hi) == [] { RangeOfPart(seen[i], lists[i], target, hi); }
  }

  /** The records of the range, given or still ahead: what one poll owes. */
  ghost predicate Splits(all: seq<Record>, target: nat, hi: nat, p: Poll) {
    Range(all, target, hi) == p.out + Range(all, p.next, hi)
  }

  lemma PassedSplitsNot(all: seq<Record>, target: nat, hi: nat, p: Poll)
    requires Passed(all, target, hi, p)
    ensures !Splits(all, target, hi, p)
  {
    hide Range;
    var r := Range(all, target, hi)[0];
    var ahead := Range(all, p.next, hi);
    forall k | 0 <= k < |ahead| ensures ahead[k] != r { RangeIn(all, p.next, hi, k); }
  }

  /** Which segments a poll for `target` may answer from, and what the reader sees of them. */
  predicate PollFinds(bases: seq<nat>, lists: seq<seq<Record>>, start: nat, target: nat, maxBytes: nat, hi: nat)
    requires |bases| == |lists|
  {
    var t := Max(target, start);
    Finds(lists, SeenLists(bases, lists, t, WindowFor(maxBytes)), SegmentFor(bases, t), t, hi)
  }

  /**
   A poll as the windowed reader answers it moves on, and leaves out no record below the watermark if and
   only if, of the first segment with a record in range, the reader can get to one.
   */
  lemma PollSeenSplits(bases: seq<nat>, lists: seq<seq<Record>>, start: nat, target: nat, maxRecords: nat,
                       maxBytes: nat, hi: nat)
    requires Ordered(bases, lists) && bases != [] && start == bases[0] && 0 < maxRecords && target < hi
    ensures var p := PollSeen(bases, lists, start, target, maxRecords, maxBytes, hi);
            && target < p.next && (p.out == [] ==> hi <= p.next)
            && (forall r :: r in p.out ==> target <= r.offset < p.next)
            && (Splits(Flat(lists), target, hi, p) <==> PollFinds(bases, lists, start, target, maxBytes, hi))
            && (!PollFinds(bases, lists, start, target, maxBytes, hi) ==> Passed(Flat(lists), target, hi, p))
  {
    hide Range, Flat, PollFrom, Ordered, SegmentFor, SeenLists, Splits, Passed, Finds, FirstPart;
    OrderedLength(bases, lists);
    var t := Max(target, start);
    var i := SegmentFor(bases, t);
    var seen := SeenLists(bases, lists, t, WindowFor(maxBytes));
    PartsOrdered(bases, lists, seen);
    var p := PollSeen(bases, lists, start, target, maxRecords, maxBytes, hi);
    PollSplits(bases, seen, start, target, maxRecords, maxBytes, hi);
    SeenOffsets(bases, seen, start, target, maxRecords, maxBytes, hi);
    SegmentIn(bases, t);
    WalkFinds(bases, lists, seen, i, t, t, maxRecords, maxBytes, hi);
    if !PollFinds(bases, lists, start, target, maxBytes, hi) {
      PassedAll(bases, lists, start, target, hi, p);
      PassedSplitsNot(Flat(lists), target, hi, p);
    } else {
      FoundSplits(bases, lists, start, target, hi, p);
    }
  }

  lemma SegmentIn(bases: seq<nat>, t: nat)
    requires bases != []
    ensures SegmentFor(bases, t) < |bases|
  {
  }

  lemma PassedAll(bases: seq<nat>, lists: seq<seq<Record>>, start: nat, target: nat, hi: nat, p: Poll)
    requires Ordered(bases, lists) && bases != [] && start == bases[0] &&
             SegmentFor(bases, Max(target, start)) <= |lists|
    requires Passed(Flat(lists[SegmentFor(bases, Max(target, start))..]), Max(target, start), hi, p)
    ensures Passed(Flat(lists), target, hi, p)
  {
    hide Range, Flat, Ordered, SegmentFor;
    var t := Max(target, start);
    StartIsFirst(bases, lists, target, hi);
    SkipsNothing(bases, lists, t, t, hi);
  }

  lemma FoundSplits(bases: seq<nat>, lists: seq<seq<Record>>, start: nat, target: nat, hi: nat, p: Poll)
    requires Ordered(bases, lists) && bases != [] && start == bases[0] &&
             SegmentFor(bases, Max(target, start)) <= |lists|
    requires var all := Flat(lists[SegmentFor(bases, Max(target, start))..]);
             if p.out == [] then hi <= p.next && Range(all, Max(target, start), hi) == []
             else FirstPart(all, Max(target, start), hi, p.out) && p.next == p.out[|p.out| - 1].offset + 1
    ensures Splits(Flat(lists), target, hi, p)
  {
    hide Range, Flat, Ordered, SegmentFor;
    var t := Max(target, start);
    StartIsFirst(bases, lists, target, hi);
    SkipsNothing(bases, lists, t, t, hi);
    if p.out == [] {
      PastEnd(Flat(lists), p.next, hi);
    } else {
      SkipsNothing(bases, lists, t, Max(t, p.next), hi);
    }
  }

  lemma SeenOffsets(bases: seq<nat>, seen: seq<seq<Record>>, start: nat, target: nat, maxRecords: nat, maxBytes: nat,
                    hi: nat)
    requires Ordered(bases, seen) && bases != [] && start == bases[0] && 0 < maxRecords && target < hi
    ensures var p := PollOf(bases, seen, start, target, maxRecords, maxBytes, hi);
            && (forall r :: r in p.out ==> target <= r.offset < p.next && r in Flat(seen))
            && (p.out != [] ==> p.next == p.out[|p.out| - 1].offset + 1 && p.next <= hi)
  {
    hide Range, Flat, PollFrom, Ordered, SegmentFor;
    OrderedLength(bases, seen);
    var t := Max(target, start);
    var p := PollOf(bases, seen, start, target, maxRecords, maxBytes, hi);
    var all := Flat(seen);
    assert Increasing(all) by { FlatIncreasing(bases, seen, |seen|); assert seen[..|seen|] == seen; }
    PollSplits(bases, seen, start, target, maxRecords, maxBytes, hi);
    SegmentIn(bases, t);
    WalkSplits(bases, seen, SegmentFor(bases, t), t, t, maxRecords, maxBytes, hi);
    if p.out != [] {
      RangeSplit(all, target, p.next, hi);
      SamePrefix(p.out, Range(all, target, p.next), Range(all, p.next, hi));
      forall r | r in p.out ensures target <= r.offset < p.next && r in all {
        var k :| 0 <= k < |p.out| && p.out[k] == r;
        RangeIn(all, target, p.next, k);
      }
    }
  }

  // ---------- the same poll as the plain scan's ----------

  /** The segment that answers the plain poll shows the reader as much as that poll takes. */
  predicate Answers(lists: seq<seq<Record>>, seen: seq<seq<Record>>, i: nat, target: nat, maxRecords: nat,
                    maxBytes: nat, hi: nat)
    requires Parts(lists, seen)
    decreases |lists| - i
  {
    if |lists| <= i then true
    else if ReadOf(lists[i], target, maxRecords, maxBytes, hi) ==
           [] then Answers(lists, seen, i + 1, target, maxRecords, maxBytes, hi)
    else assert PartOf(seen[i], lists[i]); ReadStops(lists[i], |seen[i]|, target, maxRecords, maxBytes, hi)
  }

  lemma {:induction false} WalkAnswers(bases: seq<nat>, lists: seq<seq<Record>>, seen: seq<seq<Record>>, i: nat,
                                       target: nat, effective: nat,
                                       maxRecords: nat, maxBytes: nat, hi: nat)
    requires Ordered(bases, lists) && Parts(lists, seen) && Ordered(bases, seen) && i <= |lists| && 0 < maxRecords &&
             target < hi
    ensures var p := PollFrom(bases, seen, i, target, effective, maxRecords, maxBytes, hi);
            var plain := PollFrom(bases, lists, i, target, effective, maxRecords, maxBytes, hi);
            p == plain <==> Answers(lists, seen, i, target, maxRecords, maxBytes, hi)
    decreases |lists| - i
  {
    hide ReadOf, ReadStops, Ordered;
    OrderedLength(bases, lists);
    OrderedLength(bases, seen);
    if i < |lists| {
      var e := Max(effective, if i + 1 < |bases| then bases[i + 1] else hi);
      var part, full := ReadOf(seen[i], target, maxRecords, maxBytes, hi), ReadOf(lists[i], target, maxRecords,
                                                                                  maxBytes, hi);
      assert PartOf(seen[i], lists[i]);
      assert seen[i] == lists[i][..|seen[i]|];
      ReadSeenIs(lists[i], |seen[i]|, target, maxRecords, maxBytes, hi);
      if full == [] {
        WalkAnswers(bases, lists, seen, i + 1, target, e, maxRecords, maxBytes, hi);
      } else if part == [] && i + 1 < |seen| {
        OutFrom(bases, seen, i + 1, target, e, maxRecords, maxBytes, hi);
        TakenIn(lists[i], target, maxRecords, maxBytes, hi);
        EndsBelow(bases, lists, i, full[0]);
      }
    }
  }

  /**
   A poll as the windowed reader answers it is the poll of the plain scan if and only if the plain scan
   stops, in the segment that answers, where the reader's records end.
   */
  lemma PollSeenIsPlain(bases: seq<nat>, lists: seq<seq<Record>>, start: nat, target: nat, maxRecords: nat,
                        maxBytes: nat, hi: nat)
    requires Ordered(bases, lists) && bases != [] && 0 < maxRecords && target < hi && Max(target, start) < hi
    ensures var t := Max(target, start); var seen := SeenLists(bases, lists, t, WindowFor(maxBytes));
            PollSeen(bases, lists, start, target, maxRecords, maxBytes, hi) ==
              PollOf(bases, lists, start, target, maxRecords, maxBytes, hi)
            <==> Answers(lists, seen, SegmentFor(bases, t), t, maxRecords, maxBytes, hi)
  {
    hide PollFrom, Ordered, SegmentFor, SeenLists, Answers;
    OrderedLength(bases, lists);
    var t := Max(target, start);
    var seen := SeenLists(bases, lists, t, WindowFor(maxBytes));
    PartsOrdered(bases, lists, seen);
    SegmentIn(bases, t);
    WalkAnswers(bases, lists, seen, SegmentFor(bases, t), t, t, maxRecords, maxBytes, hi);
  }

  // ---------- records within the window ----------

  /** When every record is within the window, the reader sees everything. */
  lemma SeesAll(bases: seq<nat>, lists: seq<seq<Record>>, target: nat, window: nat)
    requires |bases| == |lists| && forall i :: 0 <= i < |lists| ==> AllWithin(lists[i], window)
    ensures SeenLists(bases, lists, target, window) == lists
  {
    hide StartAt, Reached;
    forall i | 0 <= i < |lists| ensures Seen(bases[i], lists[i], target, window) == |lists[i]| {
      var k := StartAt(bases[i], lists[i], target);
      assert AllWithin(lists[i], window);
      ReachesAll(lists[i][k..], 0, window, 0);
    }
    assert forall i :: 0 <= i < |lists| ==> lists[i][..|lists[i]|] == lists[i];
  }

  lemma {:induction false} FindsAll(lists: seq<seq<Record>>, i: nat, target: nat, hi: nat)
    ensures Finds(lists, lists, i, target, hi)
    decreases |lists| - i
  {
    if i < |lists| { FindsAll(lists, i + 1, target, hi); }
  }

  // ---------- polling on ----------

  /** Everything a consumer gets from the windowed reader that polls from `target` until it reaches the watermark. */
  function PollOn(bases: seq<nat>, lists: seq<seq<Record>>, start: nat, target: nat, maxRecords: nat, maxBytes: nat,
                  hi: nat): seq<Record>
    requires Ordered(bases, lists) && bases != [] && start == bases[0] && 0 < maxRecords
    decreases hi - Min(target, hi)
  {
    if hi <= target then []
    else
      PollSeenSplits(bases, lists, start, target, maxRecords, maxBytes, hi);
      var p := PollSeen(bases, lists, start, target, maxRecords, maxBytes, hi);
      p.out + PollOn(bases, lists, start, p.next, maxRecords, maxBytes, hi)
  }

  /** At each of those polls the reader can get to a record of the segment that should answer. */
  predicate Unhindered(bases: seq<nat>, lists: seq<seq<Record>>, start: nat, target: nat, maxRecords: nat,
                       maxBytes: nat, hi: nat)
    requires Ordered(bases, lists) && bases != [] && start == bases[0] && 0 < maxRecords
    decreases hi - Min(target, hi)
  {
    if hi <= target then true
    else
      PollSeenSplits(bases, lists, start, target, maxRecords, maxBytes, hi);
      PollFinds(bases, lists, start, target, maxBytes, hi)
      && Unhindered(bases, lists, start, PollSeen(bases, lists, start, target, maxRecords, maxBytes, hi).next,
                    maxRecords, maxBytes, hi)
  }

  lemma {:induction false} PollOnFrom(bases: seq<nat>, lists: seq<seq<Record>>, start: nat, target: nat,
                                      maxRecords: nat, maxBytes: nat, hi: nat)
    requires Ordered(bases, lists) && bases != [] && start == bases[0] && 0 < maxRecords
    ensures forall r :: r in PollOn(bases, lists, start, target, maxRecords, maxBytes, hi) ==> target <= r.offset
    decreases hi - Min(target, hi)
  {
    if target < hi {
      hide PollSeen, Ordered, Splits;
      OrderedLength(bases, lists);
      PollSeenSplits(bases, lists, start, target, maxRecords, maxBytes, hi);
      var p := PollSeen(bases, lists, start, target, maxRecords, maxBytes, hi);
      PollOnFrom(bases, lists, start, p.next, maxRecords, maxBytes, hi);
    }
  }

  /**
   Polling on with the windowed reader yields each record below the watermark exactly once, in order, if
   and only if none of the polls is hindered; a record once passed over is never given.
   */
  lemma {:induction false} PollingReaches(bases: seq<nat>, lists: seq<seq<Record>>, start: nat, target: nat,
                                          maxRecords: nat, maxBytes: nat, hi: nat)
    requires Ordered(bases, lists) && bases != [] && start == bases[0] && 0 < maxRecords
    ensures PollOn(bases, lists, start, target, maxRecords, maxBytes, hi) == Range(Flat(lists), target, hi)
            <==> Unhindered(bases, lists, start, target, maxRecords, maxBytes, hi)
    decreases hi - Min(target, hi)
  {
    hide PollSeen, Ordered, Range, Flat, PollFinds;
    OrderedLength(bases, lists);
    var all := Flat(lists);
    if hi <= target {
      PastEnd(all, target, hi);
    } else {
      PollSeenSplits(bases, lists, start, target, maxRecords, maxBytes, hi);
      var p := PollSeen(bases, lists, start, target, maxRecords, maxBytes, hi);
      var more := PollOn(bases, lists, start, p.next, maxRecords, maxBytes, hi);
      PollingReaches(bases, lists, start, p.next, maxRecords, maxBytes, hi);
      if PollFinds(bases, lists, start, target, maxBytes, hi) {
        assert p.out + more == p.out + Range(all, p.next, hi) <==> more == Range(all, p.next, hi) by {
          SameSuffix(p.out, more, Range(all, p.next, hi));
        }
      } else {
        assert Range(all, target, hi)[0] in Range(all, target, hi);
        PollOnFrom(bases, lists, start, p.next, maxRecords, maxBytes, hi);
      }
    }
  }

  lemma SameSuffix(a: seq<Record>, b: seq<Record>, c: seq<Record>)
    ensures a + b == a + c <==> b == c
  {
    assert (a + b)[|a|..] == b && (a + c)[|a|..] == c;
  }

  // ---------- a case ----------

  /** With no record longer than the window, no poll is hindered: polling on gives the whole range. */
  lemma {:induction false} SmallPolling(bases: seq<nat>, lists: seq<seq<Record>>, start: nat, target: nat,
                                        maxRecords: nat, maxBytes: nat, hi: nat)
    requires Ordered(bases, lists) && bases != [] && start == bases[0] && 0 < maxRecords && |bases| == |lists|
    requires forall i :: 0 <= i < |lists| ==> AllWithin(lists[i], WindowFor(maxBytes))
    ensures Unhindered(bases, lists, start, target, maxRecords, maxBytes, hi)
    ensures PollOn(bases, lists, start, target, maxRecords, maxBytes, hi) == Range(Flat(lists), target, hi)
    decreases hi - Min(target, hi)
  {
    hide PollSeen, Ordered, Range, Flat, Finds, SegmentFor, AllWithin, SeenLists, PollOn;
    if target < hi {
      PollSeenSplits(bases, lists, start, target, maxRecords, maxBytes, hi);
      var t := Max(target, start);
      SeesAll(bases, lists, t, WindowFor(maxBytes));
      FindsAll(lists, SegmentFor(bases, t), t, hi);
      SmallPolling(bases, lists, start, PollSeen(bases, lists, start, target, maxRecords, maxBytes, hi).next,
                   maxRecords, maxBytes, hi);
    }
    PollingReaches(bases, lists, start, target, maxRecords, maxBytes, hi);
  }

  /**
   A record of five megabytes at the start of a segment: even a poll for eight megabytes does not get to
   it, gives nothing, and sends the consumer past it and past the small record that follows.
   */
  lemma LongRecordSkipped(v: seq<byte>)
    requires |v| == 5 * 1024 * 1024
    ensures var rs := [Record(0, 0, None, v), Record(1, 0, None, [])];
            && AllStorable(rs) && Legible(rs[0]) && Legible(rs[1]) && Ordered([0], [rs])
            && PollSeen([0], [rs], 0, 0, 10000, 8 * 1024 * 1024, 2) == Poll([], 2)
  {
    hide PollSeen, PollOf, Seen;
    var rs := [Record(0, 0, None, v), Record(1, 0, None, [])];
    var w := WindowFor(8 * 1024 * 1024);
    NothingSeen(rs, w);
    assert SeenLists([0], [rs], 0, w) == [[]];
    EmptyPoll();
    PollSeenIs([0], [rs], 0, 0, 10000, 8 * 1024 * 1024, 2);
  }

  lemma PollSeenIs(bases: seq<nat>, lists: seq<seq<Record>>, start: nat, target: nat, maxRecords: nat, maxBytes: nat,
                   hi: nat)
    requires |bases| == |lists|
    ensures PollSeen(bases, lists, start, target, maxRecords, maxBytes, hi)
         == PollOf(bases, SeenLists(bases, lists, Max(target, start), WindowFor(maxBytes)), start, target, maxRecords,
                   maxBytes, hi)
  {
  }

  lemma NothingSeen(rs: seq<Record>, window: nat)
    requires rs != [] && rs[0].offset == 0 && window < DiskSize(rs[0]) && Increasing(rs)
    ensures Seen(0, rs, 0, window) == 0
  {
    hide SparseOf, Floor, DiskSize, Relative;
    StartSkips(0, rs, 0);
    assert StartAt(0, rs, 0) == 0;
    assert rs[0..] == rs;
  }

  lemma EmptyPoll()
    ensures PollOf([0], [[]], 0, 0, 10000, 8 * 1024 * 1024, 2) == Poll([], 2)
  {
    assert PollFrom([0], [[]], 1, 0, 2, 10000, 8 * 1024 * 1024, 2) == Poll([], 2);
    assert PollFrom([0], [[]], 0, 0, 0, 10000, 8 * 1024 * 1024, 2) == Poll([], 2);
  }
}
