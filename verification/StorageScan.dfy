/** Polling: what one read of a chain of segments gives, and that reading on from there is a plain scan. */
module StorageScan {
  import opened Basics
  import opened StorageRecord
  import opened StorageIndex
  import opened StorageSegment

  /** The records with offsets from `lo` up to but not including `hi`. */
  function Range(rs: seq<Record>, lo: nat, hi: nat): seq<Record> {
    if rs == [] then []
    else (if lo <= rs[0].offset < hi then [rs[0]] else []) + Range(rs[1..], lo, hi)
  }

  function Flat(lists: seq<seq<Record>>): seq<Record> {
    if lists == [] then [] else lists[0] + Flat(lists[1..])
  }

  predicate Below(rs: seq<Record>, end: nat) {
    forall k :: 0 <= k < |rs| ==> rs[k].offset < end
  }

  /** The lists fill ranges that follow each other: list `i` lies in `[bases[i], bases[i+1])`. */
  predicate Ordered(bases: seq<nat>, lists: seq<seq<Record>>) {
    && |bases| == |lists|
    && (forall i, j :: 0 <= i < j < |bases| ==> bases[i] < bases[j])
    && (forall i :: 0 <= i < |lists| ==> Increasing(lists[i]) && AtLeast(lists[i], bases[i]))
    && (forall i :: 0 <= i < |lists| - 1 ==> Below(lists[i], bases[i + 1]))
  }

  /** The last segment whose base is at or below the target, or the first. */
  function SegmentFor(bases: seq<nat>, target: nat): (i: nat)
    ensures bases != [] ==> i < |bases|
  {
    if bases == [] then 0
    else if |bases| == 1 || target < bases[1] then 0 else 1 + SegmentFor(bases[1..], target)
  }

  datatype Poll = Poll(out: seq<Record>, next: nat)

  /** Walk forward from segment `i` until one has records; past the last, report the watermark. */
  function PollFrom(bases: seq<nat>, lists: seq<seq<Record>>, i: nat, target: nat, effective: nat,
                    maxRecords: nat, maxBytes: nat, watermark: nat): Poll
    requires |bases| == |lists|
    decreases |lists| - i
  {
    if |lists| <= i then Poll([], effective)
    else
      var out := ReadOf(lists[i], target, maxRecords, maxBytes, watermark);
      if out != [] then Poll(out, out[|out| - 1].offset + 1)
      else PollFrom(bases, lists, i + 1, target, Max(effective, if i + 1 < |bases| then bases[i + 1] else watermark),
                    maxRecords, maxBytes, watermark)
  }

  function PollOf(bases: seq<nat>, lists: seq<seq<Record>>, start: nat, target: nat,
                  maxRecords: nat, maxBytes: nat, watermark: nat): Poll
    requires |bases| == |lists|
  {
    if watermark <= target || maxRecords == 0 then Poll([], target)
    else
      var t := Max(target, start);
      PollFrom(bases, lists, SegmentFor(bases, t), t, t, maxRecords, maxBytes, watermark)
  }

  /** No more than was asked for, though one record may be of any size, and all of it below the watermark. */
  predicate Limited(p: Poll, maxRecords: nat, maxBytes: nat, watermark: nat) {
    && |p.out| <= maxRecords && (1 < |p.out| ==> SizeOf(p.out) <= maxBytes)
    && forall k :: 0 <= k < |p.out| ==> p.out[k].offset < watermark
  }

  lemma {:induction false} PollFromBounded(bases: seq<nat>, lists: seq<seq<Record>>, i: nat, target: nat,
                                           effective: nat, maxRecords: nat, maxBytes: nat, watermark: nat)
    requires |bases| == |lists|
    ensures Limited(PollFrom(bases, lists, i, target, effective, maxRecords, maxBytes, watermark), maxRecords, maxBytes,
                    watermark)
    decreases |lists| - i
  {
    hide ReadOf, SizeOf;
    if i < |lists| {
      ReadLongest(lists[i], target, maxRecords, maxBytes, watermark);
      var on := Max(effective, if i + 1 < |bases| then bases[i + 1] else watermark);
      PollFromBounded(bases, lists, i + 1, target, on, maxRecords, maxBytes, watermark);
    }
  }

  lemma PollBounded(bases: seq<nat>, lists: seq<seq<Record>>, start: nat, target: nat, maxRecords: nat, maxBytes: nat,
                    watermark: nat)
    requires |bases| == |lists|
    ensures Limited(PollOf(bases, lists, start, target, maxRecords, maxBytes, watermark), maxRecords, maxBytes,
                    watermark)
  {
    hide PollFrom, SizeOf;
    if target < watermark && maxRecords != 0 {
      var t := Max(target, start);
      PollFromBounded(bases, lists, SegmentFor(bases, t), t, t, maxRecords, maxBytes, watermark);
    }
  }

  // ---------- ranges ----------

  lemma {:induction false} RangeConcat(a: seq<Record>, b: seq<Record>, lo: nat, hi: nat)
    ensures Range(a + b, lo, hi) == Range(a, lo, hi) + Range(b, lo, hi)
  {
    if a == [] {
      assert a + b == b;
    } else {
      assert (a + b)[1..] == a[1..] + b;
      RangeConcat(a[1..], b, lo, hi);
    }
  }

  lemma {:induction false} RangeNone(rs: seq<Record>, lo: nat, hi: nat)
    requires forall k :: 0 <= k < |rs| ==> rs[k].offset < lo || hi <= rs[k].offset
    ensures Range(rs, lo, hi) == []
  {
    if rs != [] { RangeNone(rs[1..], lo, hi); }
  }

  /** Moving the lower end over offsets nothing has changes nothing. */
  lemma {:induction false} RangeFrom(rs: seq<Record>, lo: nat, lo': nat, hi: nat)
    requires lo <= lo' && forall k :: 0 <= k < |rs| ==> !(lo <= rs[k].offset < lo')
    ensures Range(rs, lo, hi) == Range(rs, lo', hi)
  {
    if rs != [] { RangeFrom(rs[1..], lo, lo', hi); }
  }

  /** `out` is the first part of the range from `lo`, and what is left of it starts after `out`. */
  ghost predicate FirstPart(rs: seq<Record>, lo: nat, hi: nat, out: seq<Record>) {
    && out != [] && lo <= out[|out| - 1].offset < hi
    && Range(rs, lo, hi) == out + Range(rs, out[|out| - 1].offset + 1, hi)
  }

  lemma RangeHead(rs: seq<Record>, lo: nat, hi: nat)
    requires rs != []
    ensures Range(rs, lo, hi) ==
              if lo <= rs[0].offset < hi then [rs[0]] + Range(rs[1..], lo, hi) else Range(rs[1..], lo, hi)
  {
  }

  lemma TailRange(rs: seq<Record>, lo: nat, hi: nat)
    requires rs != [] && Increasing(rs) && lo <= rs[0].offset < hi
    ensures Range(rs, lo, hi) == [rs[0]] + Range(rs[1..], rs[0].offset + 1, hi)
  {
    hide Range;
    RangeHead(rs, lo, hi);
    RangeFrom(rs[1..], lo, rs[0].offset + 1, hi);
  }

  lemma FirstOne(rs: seq<Record>, lo: nat, hi: nat)
    requires rs != [] && Increasing(rs) && lo <= rs[0].offset < hi
    ensures FirstPart(rs, lo, hi, [rs[0]])
  {
    hide Range, Increasing;
    TailRange(rs, lo, hi);
    RangeHead(rs, rs[0].offset + 1, hi);
  }

  lemma FirstMore(rs: seq<Record>, lo: nat, hi: nat, out: seq<Record>)
    requires rs != [] && Increasing(rs) && lo <= rs[0].offset < hi && FirstPart(rs[1..], rs[0].offset + 1, hi, out)
    ensures FirstPart(rs, lo, hi, [rs[0]] + out)
  {
    hide Range, Increasing;
    TailRange(rs, lo, hi);
    var all, next := [rs[0]] + out, out[|out| - 1].offset + 1;
    assert all[|all| - 1] == out[|out| - 1];
    RangeHead(rs, next, hi);
    assert [rs[0]] + (out + Range(rs[1..], next, hi)) == all + Range(rs[1..], next, hi);
  }

  lemma {:induction false} TakeFirst(rs: seq<Record>, lo: nat, n: nat, bytes: nat, maxRecords: nat, maxBytes: nat,
                                     hi: nat)
    requires Increasing(rs) && AtLeast(rs, lo)
    ensures var out := TakeUpTo(rs, n, bytes, maxRecords, maxBytes, hi); out != [] ==> FirstPart(rs, lo, hi, out)
  {
    hide DiskSize, FirstPart, Range;
    var out := TakeUpTo(rs, n, bytes, maxRecords, maxBytes, hi);
    if out != [] {
      FirstOne(rs, lo, hi);
      if n + 1 < maxRecords {
        var more := TakeUpTo(rs[1..], n + 1, bytes + DiskSize(rs[0]), maxRecords, maxBytes, hi);
        TakeFirst(rs[1..], rs[0].offset + 1, n + 1, bytes + DiskSize(rs[0]), maxRecords, maxBytes, hi);
        if more != [] { FirstMore(rs, lo, hi, more); } else { assert [rs[0]] + more == [rs[0]]; }
      }
    }
  }

  lemma TakeNone(rs: seq<Record>, lo: nat, maxRecords: nat, maxBytes: nat, hi: nat)
    requires Increasing(rs) && AtLeast(rs, lo)
    requires TakeUpTo(rs, 0, 0, maxRecords, maxBytes, hi) == []
    ensures Range(rs, lo, hi) == []
  {
    RangeNone(rs, lo, hi);
  }

  lemma {:induction false} SkippedRange(rs: seq<Record>, target: nat, lo: nat, hi: nat)
    requires Increasing(rs) && target <= lo
    ensures Range(FromOffset(rs, target), lo, hi) == Range(rs, lo, hi)
    ensures Increasing(FromOffset(rs, target)) && AtLeast(FromOffset(rs, target), target)
  {
    if rs != [] && rs[0].offset < target { SkippedRange(rs[1..], target, lo, hi); }
  }

  /** One segment's read: nothing only if nothing is there, and otherwise a first part of what is there. */
  lemma ReadSplits(rs: seq<Record>, target: nat, maxRecords: nat, maxBytes: nat, hi: nat)
    requires Increasing(rs) && 0 < maxRecords
    ensures var out := ReadOf(rs, target, maxRecords, maxBytes, hi);
            if out == [] then Range(rs, target, hi) == [] else FirstPart(rs, target, hi, out) && out[|out| - 1] in rs
  {
    hide FromOffset, TakeUpTo, Range, Increasing, AtLeast, FirstPart;
    var from := FromOffset(rs, target);
    SkippedRange(rs, target, target, hi);
    var out := ReadOf(rs, target, maxRecords, maxBytes, hi);
    if hi <= target {
      PastEnd(rs, target, hi);
    } else if out == [] {
      TakeNone(from, target, maxRecords, maxBytes, hi);
    } else {
      TakeFirst(from, target, 0, 0, maxRecords, maxBytes, hi);
      assert FirstPart(rs, target, hi, out) by { FirstSkipped(rs, target, hi, out); }
      assert out[|out| - 1] in rs by { LastTaken(rs, target, maxRecords, maxBytes, hi); }
    }
  }

  lemma FirstSkipped(rs: seq<Record>, target: nat, hi: nat, out: seq<Record>)
    requires Increasing(rs) && FirstPart(FromOffset(rs, target), target, hi, out)
    ensures FirstPart(rs, target, hi, out)
  {
    hide FromOffset, Range, Increasing, AtLeast;
    SkippedRange(rs, target, target, hi);
    SkippedRange(rs, target, out[|out| - 1].offset + 1, hi);
  }

  lemma LastTaken(rs: seq<Record>, target: nat, maxRecords: nat, maxBytes: nat, hi: nat)
    ensures var out := ReadOf(rs, target, maxRecords, maxBytes, hi); out != [] ==> out[|out| - 1] in rs
  {
    FromIn(rs, target);
    TakeIn(FromOffset(rs, target), 0, 0, maxRecords, maxBytes, hi);
  }

  lemma {:induction false} FromIn(rs: seq<Record>, target: nat)
    ensures forall r :: r in FromOffset(rs, target) ==> r in rs
  {
    if rs != [] { FromIn(rs[1..], target); }
  }

  lemma {:induction false} TakeIn(rs: seq<Record>, n: nat, bytes: nat, maxRecords: nat, maxBytes: nat, hi: nat)
    ensures forall r :: r in TakeUpTo(rs, n, bytes, maxRecords, maxBytes, hi) ==> r in rs
  {
    if rs != [] { TakeIn(rs[1..], n + 1, bytes + DiskSize(rs[0]), maxRecords, maxBytes, hi); }
  }

  // ---------- one poll ----------

  lemma {:induction false} OffsetsFrom(bases: seq<nat>, lists: seq<seq<Record>>, i: nat, k: nat)
    requires Ordered(bases, lists) && i <= |lists| && k < |Flat(lists[i..])|
    ensures i < |lists| && bases[i] <= Flat(lists[i..])[k].offset
    decreases |lists| - i
  {
    if i < |lists| {
      assert lists[i..][1..] == lists[i + 1..];
      if |lists[i]| <= k {
        OffsetsFrom(bases, lists, i + 1, k - |lists[i]|);
      }
    }
  }

  lemma {:induction false} OffsetsBefore(bases: seq<nat>, lists: seq<seq<Record>>, i: nat, k: nat)
    requires Ordered(bases, lists) && i < |lists| && k < |Flat(lists[..i])|
    ensures Flat(lists[..i])[k].offset < bases[i]
    decreases i
  {
    if i > 0 {
      FlatPush(lists, i - 1);
      if k < |Flat(lists[..i - 1])| {
        OffsetsBefore(bases, lists, i - 1, k);
      } else {
        assert Below(lists[i - 1], bases[i - 1 + 1]);
      }
    }
  }

  lemma FlatPush(lists: seq<seq<Record>>, i: nat)
    requires i < |lists|
    ensures Flat(lists[..i + 1]) == Flat(lists[..i]) + lists[i]
  {
    FlatConcat(lists[..i], [lists[i]]);
    assert lists[..i + 1] == lists[..i] + [lists[i]];
    assert [lists[i]][1..] == [];
  }

  lemma {:induction false} FlatConcat(a: seq<seq<Record>>, b: seq<seq<Record>>)
    ensures Flat(a + b) == Flat(a) + Flat(b)
  {
    if a == [] {
      assert a + b == b;
    } else {
      assert (a + b)[1..] == a[1..] + b;
      FlatConcat(a[1..], b);
    }
  }

  lemma {:induction false} SegmentForIs(bases: seq<nat>, target: nat)
    requires bases != [] && forall i, j :: 0 <= i < j < |bases| ==> bases[i] < bases[j]
    ensures var i := SegmentFor(bases, target);
            (i > 0 ==> bases[i] <= target) && (i + 1 < |bases| ==> target < bases[i + 1])
  {
    if |bases| > 1 && bases[1] <= target { SegmentForIs(bases[1..], target); }
  }

  /** The segments before the one that is read from hold nothing at or past the target. */
  lemma SkipsNothing(bases: seq<nat>, lists: seq<seq<Record>>, target: nat, lo: nat, hi: nat)
    requires Ordered(bases, lists) && bases != [] && target <= lo && bases[0] <= target
    ensures SegmentFor(bases, target) < |lists|
    ensures Range(Flat(lists), lo, hi) == Range(Flat(lists[SegmentFor(bases, target)..]), lo, hi)
  {
    hide Range, Flat, SegmentFor;
    var i := SegmentFor(bases, target);
    SegmentForIs(bases, target);
    assert lists == lists[..i] + lists[i..];
    FlatConcat(lists[..i], lists[i..]);
    RangeConcat(Flat(lists[..i]), Flat(lists[i..]), lo, hi);
    forall k | 0 <= k < |Flat(lists[..i])|
      ensures Flat(lists[..i])[k].offset < lo
    {
      OffsetsBefore(bases, lists, i, k);
    }
    RangeNone(Flat(lists[..i]), lo, hi);
    assert [] + Range(Flat(lists[i..]), lo, hi) == Range(Flat(lists[i..]), lo, hi);
  }

  lemma {:induction false} RangeShrinks(rs: seq<Record>, lo: nat, lo': nat, hi: nat)
    requires lo <= lo' && Range(rs, lo, hi) == []
    ensures Range(rs, lo', hi) == []
  {
    if rs != [] { RangeShrinks(rs[1..], lo, lo', hi); }
  }

  lemma FlatHead(lists: seq<seq<Record>>, i: nat)
    requires i < |lists|
    ensures Flat(lists[i..]) == lists[i] + Flat(lists[i + 1..])
  {
    assert lists[i..][1..] == lists[i + 1..];
  }

  /** A first part of one segment is a first part of it and all that follow. */
  lemma FirstInSegment(bases: seq<nat>, lists: seq<seq<Record>>, i: nat, lo: nat, hi: nat, out: seq<Record>)
    requires Ordered(bases, lists) && i < |lists| && FirstPart(lists[i], lo, hi, out) && out[|out| - 1] in lists[i]
    ensures FirstPart(Flat(lists[i..]), lo, hi, out)
  {
    hide Range, Flat;
    var rest, next := Flat(lists[i + 1..]), out[|out| - 1].offset + 1;
    FlatHead(lists, i);
    RangeConcat(lists[i], rest, lo, hi);
    RangeConcat(lists[i], rest, next, hi);
    forall k | 0 <= k < |rest| ensures next <= rest[k].offset {
      OffsetsFrom(bases, lists, i + 1, k);
      assert Below(lists[i], bases[i + 1]);
    }
    RangeFrom(rest, lo, next, hi);
  }

  /** A segment with nothing in range can be left out. */
  lemma SkipSegment(lists: seq<seq<Record>>, i: nat, lo: nat, hi: nat, out: seq<Record>)
    requires i < |lists| && Range(lists[i], lo, hi) == []
    ensures Range(Flat(lists[i..]), lo, hi) == Range(Flat(lists[i + 1..]), lo, hi)
    ensures FirstPart(Flat(lists[i + 1..]), lo, hi, out) ==> FirstPart(Flat(lists[i..]), lo, hi, out)
  {
    hide Range, Flat;
    var rest := Flat(lists[i + 1..]);
    FlatHead(lists, i);
    RangeConcat(lists[i], rest, lo, hi);
    assert [] + Range(rest, lo, hi) == Range(rest, lo, hi);
    if FirstPart(rest, lo, hi, out) {
      var next := out[|out| - 1].offset + 1;
      RangeConcat(lists[i], rest, next, hi);
      RangeShrinks(lists[i], lo, next, hi);
      assert [] + Range(rest, next, hi) == Range(rest, next, hi);
    }
  }

  /** The walk finds the first part of the range, or learns that the range is empty. */
  lemma {:induction false} WalkSplits(bases: seq<nat>, lists: seq<seq<Record>>, i: nat, target: nat, effective: nat,
                                      maxRecords: nat, maxBytes: nat, hi: nat)
    requires Ordered(bases, lists) && i <= |lists| && 0 < maxRecords && (i == |lists| ==> hi <= effective)
    ensures var p := PollFrom(bases, lists, i, target, effective, maxRecords, maxBytes, hi);
            if p.out == [] then hi <= p.next && Range(Flat(lists[i..]), target, hi) == []
            else p.next == p.out[|p.out| - 1].offset + 1 && FirstPart(Flat(lists[i..]), target, hi, p.out)
    decreases |lists| - i
  {
    hide FirstPart, ReadOf, Range, Flat, Ordered;
    OrderedLength(bases, lists);
    if i == |lists| {
      NothingLeft(lists, target, hi);
    } else {
      var out := ReadOf(lists[i], target, maxRecords, maxBytes, hi);
      assert Increasing(lists[i]) by { OrderedAt(bases, lists, i); }
      ReadSplits(lists[i], target, maxRecords, maxBytes, hi);
      if out != [] {
        FirstInSegment(bases, lists, i, target, hi, out);
      } else {
        var e := Max(effective, if i + 1 < |bases| then bases[i + 1] else hi);
        WalkSplits(bases, lists, i + 1, target, e, maxRecords, maxBytes, hi);
        SkipSegment(lists, i, target, hi, PollFrom(bases, lists, i + 1, target, e, maxRecords, maxBytes, hi).out);
      }
    }
  }

  lemma OrderedAt(bases: seq<nat>, lists: seq<seq<Record>>, i: nat)
    requires Ordered(bases, lists) && i < |lists|
    ensures Increasing(lists[i])
  {
  }

  lemma NothingLeft(lists: seq<seq<Record>>, lo: nat, hi: nat)
    ensures Range(Flat(lists[|lists|..]), lo, hi) == []
  {
  }

  lemma StartIsFirst(bases: seq<nat>, lists: seq<seq<Record>>, target: nat, hi: nat)
    requires Ordered(bases, lists) && bases != []
    ensures Range(Flat(lists), target, hi) == Range(Flat(lists), Max(target, bases[0]), hi)
  {
    assert lists[0..] == lists;
    forall k | 0 <= k < |Flat(lists)| ensures bases[0] <= Flat(lists)[k].offset { OffsetsFrom(bases, lists, 0, k); }
    RangeFrom(Flat(lists), target, Max(target, bases[0]), hi);
  }

  /** One poll below the watermark moves on and leaves out nothing. */
  lemma PollSplits(bases: seq<nat>, lists: seq<seq<Record>>, start: nat, target: nat, maxRecords: nat, maxBytes: nat,
                   hi: nat)
    requires Ordered(bases, lists) && bases != [] && start == bases[0] && 0 < maxRecords && target < hi
    ensures var p := PollOf(bases, lists, start, target, maxRecords, maxBytes, hi);
            && target < p.next && Range(Flat(lists), target, hi) == p.out + Range(Flat(lists), p.next, hi)
            && (p.out == [] ==> hi <= p.next)
  {
    hide Range, Flat, PollFrom, Ordered, SegmentFor;
    var t := Max(target, start);
    var i := SegmentFor(bases, t);
    assert |bases| == |lists| by { OrderedLength(bases, lists); }
    var p := PollOf(bases, lists, start, target, maxRecords, maxBytes, hi);
    StartIsFirst(bases, lists, target, hi);
    SkipsNothing(bases, lists, t, t, hi);
    WalkSplits(bases, lists, i, t, t, maxRecords, maxBytes, hi);
    SkipsNothing(bases, lists, t, Max(t, p.next), hi);
    if p.out == [] { PastEnd(Flat(lists), p.next, hi); }
  }

  lemma OrderedLength(bases: seq<nat>, lists: seq<seq<Record>>)
    requires Ordered(bases, lists)
    ensures |bases| == |lists|
  {
  }

  lemma PastEnd(rs: seq<Record>, lo: nat, hi: nat)
    requires hi <= lo
    ensures Range(rs, lo, hi) == []
  {
    RangeNone(rs, lo, hi);
  }

  /** The records of ordered segments, put together, increase and lie from the first base on. */
  lemma {:induction false} FlatIncreasing(bases: seq<nat>, lists: seq<seq<Record>>, n: nat)
    requires Ordered(bases, lists) && n <= |lists|
    ensures Increasing(Flat(lists[..n]))
    ensures n > 0 ==> AtLeast(Flat(lists[..n]), bases[0])
    ensures n < |lists| ==> Below(Flat(lists[..n]), bases[n])
    decreases n
  {
    if n > 0 {
      FlatIncreasing(bases, lists, n - 1);
      FlatPush(lists, n - 1);
      if n < |lists| { assert Below(lists[n - 1], bases[n - 1 + 1]); }
      assert n > 1 ==> bases[0] < bases[n - 1];
      JoinIncreasing(Flat(lists[..n - 1]), lists[n - 1], bases[n - 1]);
    } else {
      assert lists[..0] == [];
    }
  }

  lemma JoinIncreasing(a: seq<Record>, b: seq<Record>, at: nat)
    requires Increasing(a) && Increasing(b) && Below(a, at) && AtLeast(b, at)
    ensures Increasing(a + b)
  {
  }

  // ---------- ranges of increasing records ----------

  lemma {:induction false} RangeSplit(rs: seq<Record>, a: nat, b: nat, c: nat)
    requires Increasing(rs) && a <= b <= c
    ensures Range(rs, a, c) == Range(rs, a, b) + Range(rs, b, c)
  {
    hide Range, Increasing;
    if rs == [] {
      RangeNil(a, b);
      RangeNil(b, c);
      RangeNil(a, c);
    } else {
      assert Increasing(rs[1..]) by { TailIncreasing(rs); }
      RangeSplit(rs[1..], a, b, c);
      RangeHead(rs, a, c);
      RangeHead(rs, a, b);
      RangeHead(rs, b, c);
      if b <= rs[0].offset { NoneBefore(rs, a, b); }
      var y, z := Range(rs[1..], a, b), Range(rs[1..], b, c);
      JoinHead(rs[0], y, z);
    }
  }

  lemma RangeNil(a: nat, b: nat)
    ensures Range([], a, b) == []
  {
  }

  lemma TailIncreasing(rs: seq<Record>)
    requires rs != [] && Increasing(rs)
    ensures Increasing(rs[1..])
  {
  }

  lemma NoneBefore(rs: seq<Record>, a: nat, b: nat)
    requires rs != [] && Increasing(rs) && b <= rs[0].offset
    ensures Range(rs[1..], a, b) == []
  {
    RangeNone(rs[1..], a, b);
  }

  lemma JoinHead(r: Record, y: seq<Record>, z: seq<Record>)
    ensures [r] + (y + z) == [r] + y + z && (y == [] ==> [r] + z == y + ([r] + z))
  {
  }

  lemma {:induction false} RangeIn(rs: seq<Record>, a: nat, b: nat, k: nat)
    requires k < |Range(rs, a, b)|
    ensures a <= Range(rs, a, b)[k].offset < b && Range(rs, a, b)[k] in rs
  {
    if a <= rs[0].offset < b {
      if k > 0 { RangeIn(rs[1..], a, b, k - 1); }
    } else {
      RangeIn(rs[1..], a, b, k);
    }
  }

  lemma {:induction false} RangeIncreasing(rs: seq<Record>, a: nat, b: nat)
    requires Increasing(rs)
    ensures Increasing(Range(rs, a, b))
  {
    if rs != [] {
      RangeIncreasing(rs[1..], a, b);
      var rest := Range(rs[1..], a, b);
      forall k | 0 <= k < |rest| ensures rs[0].offset < rest[k].offset {
        RangeIn(rs[1..], a, b, k);
        var j :| 0 <= j < |rs[1..]| && rs[1..][j] == rest[k];
        assert rs[0].offset < rs[j + 1].offset;
      }
    }
  }

  lemma {:induction false} RangeHas(rs: seq<Record>, lo: nat, hi: nat, r: Record)
    requires r in rs && lo <= r.offset < hi
    ensures r in Range(rs, lo, hi)
  {
    if rs[0] != r { RangeHas(rs[1..], lo, hi, r); }
  }

  lemma SamePrefix(a: seq<Record>, b: seq<Record>, c: seq<Record>)
    requires a + c == b + c
    ensures a == b
  {
    assert |a| == |b|;
    assert a == (a + c)[..|a|] && b == (b + c)[..|b|];
  }

  // ---------- polling on ----------

  /** Everything a consumer gets that polls from `target` until it reaches the watermark. */
  function PollAll(bases: seq<nat>, lists: seq<seq<Record>>, start: nat, target: nat, maxRecords: nat, maxBytes: nat,
                   hi: nat): seq<Record>
    requires Ordered(bases, lists) && bases != [] && start == bases[0] && 0 < maxRecords
    decreases hi - Min(target, hi)
  {
    if hi <= target then []
    else
      PollSplits(bases, lists, start, target, maxRecords, maxBytes, hi);
      var p := PollOf(bases, lists, start, target, maxRecords, maxBytes, hi);
      p.out + PollAll(bases, lists, start, p.next, maxRecords, maxBytes, hi)
  }

  /** Polling on ends, and yields each record below the watermark exactly once, in order. */
  lemma {:induction false} PollingIsScan(bases: seq<nat>, lists: seq<seq<Record>>, start: nat, target: nat,
                                         maxRecords: nat, maxBytes: nat, hi: nat)
    requires Ordered(bases, lists) && bases != [] && start == bases[0] && 0 < maxRecords
    ensures PollAll(bases, lists, start, target, maxRecords, maxBytes, hi) == Range(Flat(lists), target, hi)
    decreases hi - Min(target, hi)
  {
    if hi <= target {
      RangeNone(Flat(lists), target, hi);
    } else {
      PollSplits(bases, lists, start, target, maxRecords, maxBytes, hi);
      var p := PollOf(bases, lists, start, target, maxRecords, maxBytes, hi);
      PollingIsScan(bases, lists, start, p.next, maxRecords, maxBytes, hi);
    }
  }
}
