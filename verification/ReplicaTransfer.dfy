/**
 Copying a partition to a lagging follower in chunks. Each chunk but the last moves the follower
 forward, so the transfer ends; here is exactly when the follower then has all of the leader's records.
 */
module ReplicaTransfer {
  import opened Basics
  import opened Bytes
  import opened StorageRecord
  import opened StorageCursor
  import opened StorageIndex
  import opened StorageSegment
  import opened StorageScan
  import opened StorageReach
  import opened StoragePartition

  /** The bytes of state one chunk carries, and of the snapshot's end at its front. */
  const SNAPSHOT_CHUNK_BYTES: nat := 1024 * 1024
  const END_FIELD: nat := 8

  /** The smallest window a partition is ever read with. */
  const SMALL_WINDOW: nat := 16 * 1024

  /** Bytes a record takes in a chunk. */
  function ChunkSize(r: Record): nat {
    8 + 8 + 4 + KeyLength(r.key) + 4 + |r.value|
  }

  function ChunkBytes(rs: seq<Record>): nat {
    if rs == [] then 0 else ChunkSize(rs[0]) + ChunkBytes(rs[1..])
  }

  // ---------- ranges of increasing records ----------

  lemma {:induction false} RangeBelow(rs: seq<Record>, a: nat, b: nat, c: nat)
    requires a <= b <= c
    ensures Range(Range(rs, a, c), 0, b) == Range(rs, a, b)
  {
    if rs == [] {
    } else {
      hide Range;
      RangeBelow(rs[1..], a, b, c);
      RangeHead(rs, a, c);
      RangeHead(rs, a, b);
      var inner, rest := Range(rs, a, c), Range(rs[1..], a, c);
      if a <= rs[0].offset < c {
        assert inner[0] == rs[0] && inner[1..] == rest;
        RangeHead(inner, 0, b);
      }
    }
  }

  /** One poll inside a chunk that leaves out nothing: what it adds below `end`. */
  lemma PollTakes(rs: seq<Record>, cursor: nat, next: nat, end: nat, hi: nat, out: seq<Record>)
    requires Increasing(rs) && cursor < end <= hi && cursor < next
    requires Range(rs, cursor, hi) == out + Range(rs, next, hi) && (out == [] ==> hi <= next)
    ensures Range(out, 0, end) == Range(rs, cursor, Min(next, end))
  {
    if next <= hi {
      RangeSplit(rs, cursor, next, hi);
      assert out == Range(rs, cursor, next) by { SamePrefix(out, Range(rs, cursor, next), Range(rs, next, hi)); }
      if end <= next {
        RangeBelow(rs, cursor, end, next);
      } else {
        forall k | 0 <= k < |out| ensures out[k].offset < end { RangeIn(rs, cursor, next, k); }
        AllOf(out, end);
      }
    } else {
      RangeNone(rs, next, hi);
      assert out + [] == out;
      RangeBelow(rs, cursor, end, hi);
    }
  }

  lemma {:induction false} AllOf(rs: seq<Record>, end: nat)
    requires forall k :: 0 <= k < |rs| ==> rs[k].offset < end
    ensures Range(rs, 0, end) == rs
  {
    if rs != [] {
      AllOf(rs[1..], end);
      assert rs == [rs[0]] + rs[1..];
    }
  }

  // ---------- chunks ----------

  /** The leader's partition as a transfer reads it. */
  datatype Source = Source(bases: seq<nat>, lists: seq<seq<Record>>, start: nat, hi: nat)

  predicate Good(s: Source) {
    Ordered(s.bases, s.lists) && s.bases != [] && s.start == s.bases[0]
  }

  function PollAt(s: Source, cursor: nat, many: nat, budget: nat): Poll
    requires |s.bases| == |s.lists|
  {
    PollSeen(s.bases, s.lists, s.start, cursor, many, budget, s.hi)
  }

  predicate FindsAt(s: Source, cursor: nat, budget: nat)
    requires |s.bases| == |s.lists|
  {
    PollFinds(s.bases, s.lists, s.start, cursor, budget, s.hi)
  }

  lemma PollMoves(s: Source, cursor: nat, many: nat, budget: nat)
    requires Good(s) && 0 < many && cursor < s.hi
    ensures |s.bases| == |s.lists| && Increasing(Flat(s.lists))
    ensures var p := PollAt(s, cursor, many, budget);
            && cursor < p.next && (p.out == [] ==> s.hi <= p.next)
            && (forall r :: r in p.out ==> cursor <= r.offset < p.next)
            && (p.out != [] ==> p.next == p.out[|p.out| - 1].offset + 1)
            && (FindsAt(s, cursor, budget) ==>
                  Range(Flat(s.lists), cursor, s.hi) == p.out + Range(Flat(s.lists), p.next, s.hi))
            && (!FindsAt(s, cursor, budget) ==> Passed(Flat(s.lists), cursor, s.hi, p))
            && Increasing(p.out) && forall r :: r in p.out ==> r in Flat(s.lists)
  {
    hide Range, Flat, PollFrom, Ordered, SegmentFor, SeenLists, Passed, PollFinds, Increasing;
    OrderedLength(s.bases, s.lists);
    PollSeenSplits(s.bases, s.lists, s.start, cursor, many, budget, s.hi);
    var seen := SeenLists(s.bases, s.lists, Max(cursor, s.start), WindowFor(budget));
    PartsOrdered(s.bases, s.lists, seen);
    SeenOffsets(s.bases, seen, s.start, cursor, many, budget, s.hi);
    OutIncreasing(s.bases, seen, s.start, cursor, many, budget, s.hi);
    PartsFlat(s.lists, seen);
    FlatSorted(s.bases, s.lists);
  }

  lemma FlatSorted(bases: seq<nat>, lists: seq<seq<Record>>)
    requires Ordered(bases, lists)
    ensures Increasing(Flat(lists))
  {
    hide Flat;
    FlatIncreasing(bases, lists, |lists|);
    assert lists[..|lists|] == lists;
  }

  lemma OutIncreasing(bases: seq<nat>, seen: seq<seq<Record>>, start: nat, target: nat, many: nat, budget: nat, hi: nat)
    requires Ordered(bases, seen) && bases != [] && start == bases[0] && 0 < many && target < hi
    ensures |bases| == |seen| && Increasing(PollOf(bases, seen, start, target, many, budget, hi).out)
  {
    hide Range, Flat, PollOf, Ordered, Increasing;
    OrderedLength(bases, seen);
    FlatSorted(bases, seen);
    PollSplits(bases, seen, start, target, many, budget, hi);
    RangeIncreasing(Flat(seen), target, hi);
    var p := PollOf(bases, seen, start, target, many, budget, hi);
    PrefixIncreasing(p.out, Range(Flat(seen), p.next, hi));
  }

  lemma PrefixIncreasing(a: seq<Record>, b: seq<Record>)
    requires Increasing(a + b)
    ensures Increasing(a)
  {
    forall i, j | 0 <= i < j < |a|
      ensures a[i].offset < a[j].offset
    {
      assert (a + b)[i] == a[i] && (a + b)[j] == a[j];
    }
  }

  lemma PollAdvances(s: Source, cursor: nat, many: nat, budget: nat)
    requires Good(s) && 0 < many && cursor < s.hi
    ensures |s.bases| == |s.lists| && cursor < PollAt(s, cursor, many, budget).next
  {
    PollMoves(s, cursor, many, budget);
  }

  datatype Chunk = Chunk(out: seq<Record>, cursor: nat)

  /** The records of a chunk from `c` on, with `bytes` of it filled, and where the chunk ends. */
  function ChunkFrom(s: Source, c: nat, end: nat, bytes: nat, maxBytes: nat, many: nat): Chunk
    requires Good(s) && 0 < many
    decreases s.hi - Min(c, s.hi)
  {
    if end <= c || maxBytes <= bytes || s.hi <= c then Chunk([], c)
    else
      PollAdvances(s, c, many, maxBytes - bytes);
      var p := PollAt(s, c, many, maxBytes - bytes);
      var more := Range(p.out, 0, end);
      var rest := ChunkFrom(s, p.next, end, bytes + ChunkBytes(more), maxBytes, many);
      Chunk(more + rest.out, rest.cursor)
  }

  /** At each poll of a chunk the reader gets to the next record, if there is one before the end. */
  predicate ChunkClear(s: Source, c: nat, end: nat, bytes: nat, maxBytes: nat, many: nat)
    requires Good(s) && 0 < many
    decreases s.hi - Min(c, s.hi)
  {
    if end <= c || maxBytes <= bytes || s.hi <= c then true
    else
      PollAdvances(s, c, many, maxBytes - bytes);
      var p := PollAt(s, c, many, maxBytes - bytes);
      (Range(Flat(s.lists), c, end) == [] || FindsAt(s, c, maxBytes - bytes))
      && ChunkClear(s, p.next, end, bytes + ChunkBytes(Range(p.out, 0, end)), maxBytes, many)
  }

  predicate Full(s: Source, c: nat, end: nat, bytes: nat, maxBytes: nat) {
    end <= c || maxBytes <= bytes || s.hi <= c
  }

  /** One poll of a chunk. */
  lemma ChunkStep(s: Source, c: nat, end: nat, bytes: nat, maxBytes: nat, many: nat)
    requires Good(s) && 0 < many && |s.bases| == |s.lists|
    ensures Full(s, c, end, bytes, maxBytes) ==>
              ChunkFrom(s, c, end, bytes, maxBytes, many) == Chunk([], c) &&
              ChunkClear(s, c, end, bytes, maxBytes, many)
    ensures !Full(s, c, end, bytes, maxBytes) ==>
              var p := PollAt(s, c, many, maxBytes - bytes); var more := Range(p.out, 0, end);
              var rest := ChunkFrom(s, p.next, end, bytes + ChunkBytes(more), maxBytes, many);
              && ChunkFrom(s, c, end, bytes, maxBytes, many) == Chunk(more + rest.out, rest.cursor)
              && (ChunkClear(s, c, end, bytes, maxBytes, many) <==>
                    (Range(Flat(s.lists), c, end) == [] || FindsAt(s, c, maxBytes - bytes))
                    && ChunkClear(s, p.next, end, bytes + ChunkBytes(more), maxBytes, many))
  {
    hide PollAt, Flat, FindsAt, Range, Good, ChunkBytes, Increasing;
  }

  /** What a chunk holds lies between where it starts and ends. */
  ghost predicate Within(s: Source, ch: Chunk, c: nat, end: nat) {
    && c <= ch.cursor && Increasing(ch.out)
    && forall r :: r in ch.out ==> c <= r.offset < end && r.offset < ch.cursor && r in Flat(s.lists)
  }

  /** A chunk that is not the last moved on, and ends after its last record. */
  ghost predicate Ends(ch: Chunk, c: nat, end: nat) {
    c < ch.cursor < end ==> ch.out != [] && ch.cursor == ch.out[|ch.out| - 1].offset + 1
  }

  lemma {:induction false} ChunkBounds(s: Source, c: nat, end: nat, bytes: nat, maxBytes: nat, many: nat)
    requires Good(s) && 0 < many && end <= s.hi
    ensures var ch := ChunkFrom(s, c, end, bytes, maxBytes, many);
            Within(s, ch, c, end) && Ends(ch, c, end) && (c < end && bytes < maxBytes ==> c < ch.cursor)
    decreases s.hi - Min(c, s.hi)
  {
    hide PollAt, Flat, FindsAt, Increasing, Range, Good, ChunkFrom, ChunkClear, ChunkBytes, Within, Ends;
    GoodLength(s);
    ChunkStep(s, c, end, bytes, maxBytes, many);
    if Full(s, c, end, bytes, maxBytes) {
      EmptyChunk(s, c, end);
    } else {
      PollMoves(s, c, many, maxBytes - bytes);
      var p := PollAt(s, c, many, maxBytes - bytes);
      var more := Range(p.out, 0, end);
      var bytes' := bytes + ChunkBytes(more);
      ChunkBounds(s, p.next, end, bytes', maxBytes, many);
      ChunkGrows(s, c, end, p, ChunkFrom(s, p.next, end, bytes', maxBytes, many));
    }
  }

  lemma GoodLength(s: Source)
    requires Good(s)
    ensures |s.bases| == |s.lists|
  {
  }

  lemma EmptyChunk(s: Source, c: nat, end: nat)
    ensures Within(s, Chunk([], c), c, end) && Ends(Chunk([], c), c, end)
  {
  }

  lemma ChunkGrows(s: Source, c: nat, end: nat, p: Poll, rest: Chunk)
    requires Within(s, rest, p.next, end) && Ends(rest, p.next, end) && end <= s.hi
    requires c < p.next && (p.out == [] ==> s.hi <= p.next) && Increasing(p.out)
    requires forall r :: r in p.out ==> c <= r.offset < p.next && r in Flat(s.lists)
    requires p.out != [] ==> p.next == p.out[|p.out| - 1].offset + 1
    ensures var ch := Chunk(Range(p.out, 0, end) + rest.out, rest.cursor);
            Within(s, ch, c, end) && Ends(ch, c, end) && c < ch.cursor
  {
    hide Range, Flat, Increasing;
    var more := Range(p.out, 0, end);
    RangeIncreasing(p.out, 0, end);
    forall r | r in more ensures c <= r.offset < end && r.offset < p.next && r in Flat(s.lists) {
      var k :| 0 <= k < |more| && more[k] == r;
      RangeIn(p.out, 0, end, k);
    }
    ChunkJoins(more, rest.out, p.next);
    if p.next < end {
      forall k | 0 <= k < |p.out| ensures p.out[k].offset < end { assert p.out[k] in p.out; }
      AllOf(p.out, end);
    }
  }

  lemma ChunkJoins(a: seq<Record>, b: seq<Record>, at: nat)
    requires Increasing(a) && Increasing(b) && (forall r :: r in a ==> r.offset < at) &&
             forall r :: r in b ==> at <= r.offset
    ensures Increasing(a + b)
  {
    JoinIncreasing(a, b, at);
  }

  /** A chunk holds exactly the leader's records up to where it ends if and only if no poll for it was hindered. */
  lemma {:induction false} ChunkExact(s: Source, c: nat, end: nat, bytes: nat, maxBytes: nat, many: nat)
    requires Good(s) && 0 < many && end <= s.hi
    ensures var ch := ChunkFrom(s, c, end, bytes, maxBytes, many);
            ch.out == Range(Flat(s.lists), c, Min(ch.cursor, Max(end, c))) <==>
            ChunkClear(s, c, end, bytes, maxBytes, many)
    decreases s.hi - Min(c, s.hi)
  {
    hide PollAt, Flat, FindsAt, Increasing, Range, Good, ChunkFrom, ChunkClear, ChunkBytes, Passed;
    GoodLength(s);
    ChunkStep(s, c, end, bytes, maxBytes, many);
    var all := Flat(s.lists);
    if Full(s, c, end, bytes, maxBytes) {
      PastEnd(all, c, c);
    } else {
      PollMoves(s, c, many, maxBytes - bytes);
      var p := PollAt(s, c, many, maxBytes - bytes);
      var more := Range(p.out, 0, end);
      var bytes' := bytes + ChunkBytes(more);
      ChunkBounds(s, p.next, end, bytes', maxBytes, many);
      ChunkExact(s, p.next, end, bytes', maxBytes, many);
      var rest := ChunkFrom(s, p.next, end, bytes', maxBytes, many);
      if Range(all, c, end) == [] || FindsAt(s, c, maxBytes - bytes) {
        assert more == Range(all, c, Min(p.next, end)) by {
          if FindsAt(s, c, maxBytes - bytes) {
            PollTakes(all, c, p.next, end, s.hi, p.out);
          } else {
            NothingTaken(all, c, end, p);
          }
        }
        if end <= p.next { ChunkStep(s, p.next, end, bytes', maxBytes, many); }
        RestJoins(all, c, p.next, end, rest);
      } else {
        FirstMissing(all, c, end, s.hi, p, rest);
      }
    }
  }

  /** With nothing before the end, a poll adds nothing to the chunk. */
  lemma NothingTaken(all: seq<Record>, c: nat, end: nat, p: Poll)
    requires Range(all, c, end) == [] && c < p.next && (forall r :: r in p.out ==> c <= r.offset && r in all)
    ensures Range(p.out, 0, end) == Range(all, c, Min(p.next, end))
  {
    hide Range;
    forall k | 0 <= k < |p.out| ensures end <= p.out[k].offset {
      assert p.out[k] in p.out;
      if p.out[k].offset < end { RangeHas(all, c, end, p.out[k]); }
    }
    RangeNone(p.out, 0, end);
    forall k | 0 <= k < |all| ensures all[k].offset < c || Min(p.next, end) <= all[k].offset {
      if c <= all[k].offset < end { RangeHas(all, c, end, all[k]); }
    }
    RangeNone(all, c, Min(p.next, end));
  }

  lemma RestJoins(all: seq<Record>, c: nat, next: nat, end: nat, rest: Chunk)
    requires Increasing(all) && c < next <= rest.cursor && c < end && (end <= next ==> rest.out == [])
    ensures Range(all, c, Min(next, end)) + rest.out == Range(all, c, Min(rest.cursor, end))
            <==> rest.out == Range(all, next, Min(rest.cursor, Max(end, next)))
  {
    hide Range;
    var head := Range(all, c, Min(next, end));
    if next < end {
      RangeSplit(all, c, next, Min(rest.cursor, end));
      SameSuffix(head, rest.out, Range(all, next, Min(rest.cursor, end)));
    } else {
      PastEnd(all, next, Min(rest.cursor, next));
      assert head + [] == head;
    }
  }

  lemma FirstMissing(all: seq<Record>, c: nat, end: nat, hi: nat, p: Poll, rest: Chunk)
    requires Increasing(all) && c < end <= hi && Passed(all, c, hi, p) && Range(all, c, end) != []
    requires p.next <= rest.cursor && forall r :: r in rest.out ==> p.next <= r.offset
    ensures Range(p.out, 0, end) + rest.out != Range(all, c, Min(rest.cursor, end))
  {
    hide Range, Increasing;
    var r := Range(all, c, hi)[0];
    RangeSplit(all, c, end, hi);
    assert r == Range(all, c, end)[0];
    RangeIn(all, c, end, 0);
    RangeHas(all, c, Min(rest.cursor, end), r);
    var more := Range(p.out, 0, end);
    forall k | 0 <= k < |more| ensures more[k] != r { RangeIn(p.out, 0, end, k); }
  }

  // ---------- the whole transfer ----------

  /** The records the follower gets, chunk after chunk, each read from where it then ends. */
  function TransferFrom(s: Source, from: nat, end: nat, maxBytes: nat, many: nat): seq<Record>
    requires Good(s) && 0 < many && END_FIELD < maxBytes && end <= s.hi
    decreases end - Min(from, end)
  {
    ChunkBounds(s, from, end, END_FIELD, maxBytes, many);
    var ch := ChunkFrom(s, from, end, END_FIELD, maxBytes, many);
    if end <= ch.cursor then ch.out else ch.out + TransferFrom(s, ch.cursor, end, maxBytes, many)
  }

  predicate TransferClear(s: Source, from: nat, end: nat, maxBytes: nat, many: nat)
    requires Good(s) && 0 < many && END_FIELD < maxBytes && end <= s.hi
    decreases end - Min(from, end)
  {
    ChunkBounds(s, from, end, END_FIELD, maxBytes, many);
    var ch := ChunkFrom(s, from, end, END_FIELD, maxBytes, many);
    ChunkClear(s, from, end, END_FIELD, maxBytes, many) &&
    (end <= ch.cursor || TransferClear(s, ch.cursor, end, maxBytes, many))
  }

  lemma {:induction false} TransferBounds(s: Source, from: nat, end: nat, maxBytes: nat, many: nat)
    requires Good(s) && 0 < many && END_FIELD < maxBytes && end <= s.hi
    ensures forall r :: r in TransferFrom(s, from, end, maxBytes, many) ==> from <= r.offset
    decreases end - Min(from, end)
  {
    hide ChunkFrom, Good;
    ChunkBounds(s, from, end, END_FIELD, maxBytes, many);
    var ch := ChunkFrom(s, from, end, END_FIELD, maxBytes, many);
    if ch.cursor < end { TransferBounds(s, ch.cursor, end, maxBytes, many); }
  }

  /**
   The follower gets exactly the leader's records up to the end of the snapshot if and only if no poll of
   the transfer was hindered; a record once passed over is never sent.
   */
  lemma {:induction false} TransferExact(s: Source, from: nat, end: nat, maxBytes: nat, many: nat)
    requires Good(s) && 0 < many && END_FIELD < maxBytes && end <= s.hi && from <= end
    ensures TransferFrom(s, from, end, maxBytes, many) == Range(Flat(s.lists), from, end)
            <==> TransferClear(s, from, end, maxBytes, many)
    decreases end - from
  {
    hide ChunkFrom, ChunkClear, Good, Flat, Range, Increasing;
    var all := Flat(s.lists);
    assert Increasing(all) by { GoodSorted(s); }
    ChunkBounds(s, from, end, END_FIELD, maxBytes, many);
    ChunkExact(s, from, end, END_FIELD, maxBytes, many);
    var ch := ChunkFrom(s, from, end, END_FIELD, maxBytes, many);
    if ch.cursor < end {
      TransferExact(s, ch.cursor, end, maxBytes, many);
      TransferBounds(s, ch.cursor, end, maxBytes, many);
      var rest := TransferFrom(s, ch.cursor, end, maxBytes, many);
      RangeSplit(all, from, ch.cursor, end);
      PartsMatch(ch.out, rest, all, from, ch.cursor, end);
    }
  }

  lemma GoodSorted(s: Source)
    requires Good(s)
    ensures Increasing(Flat(s.lists))
  {
    FlatSorted(s.bases, s.lists);
  }

  /** Two parts on either side of `at` match a range exactly if each matches its side. */
  lemma PartsMatch(a: seq<Record>, b: seq<Record>, all: seq<Record>, from: nat, at: nat, end: nat)
    requires (forall r :: r in a ==> r.offset < at) && (forall r :: r in b ==> at <= r.offset)
    ensures a + b == Range(all, from, at) + Range(all, at, end) <==>
            a == Range(all, from, at) && b == Range(all, at, end)
  {
    hide Range;
    var x, y := Range(all, from, at), Range(all, at, end);
    forall k | 0 <= k < |x| ensures x[k].offset < at { RangeIn(all, from, at, k); }
    forall k | 0 <= k < |y| ensures at <= y[k].offset { RangeIn(all, at, end, k); }
    Early(a, b, at);
    Early(x, y, at);
    if a == x { SameSuffix(a, b, y); }
  }

  lemma Early(a: seq<Record>, b: seq<Record>, at: nat)
    requires (forall r :: r in a ==> r.offset < at) && (forall r :: r in b ==> at <= r.offset)
    ensures Range(a + b, 0, at) == a
  {
    hide Range;
    RangeConcat(a, b, 0, at);
    forall k | 0 <= k < |a| ensures a[k].offset < at { assert a[k] in a; }
    forall k | 0 <= k < |b| ensures at <= b[k].offset { assert b[k] in b; }
    AllOf(a, at);
    RangeNone(b, 0, at);
  }

  /** Records within the smallest window are never passed over. */
  lemma {:induction false} SmallChunk(s: Source, c: nat, end: nat, bytes: nat, maxBytes: nat, many: nat)
    requires Good(s) && 0 < many && forall i :: 0 <= i < |s.lists| ==> AllWithin(s.lists[i], SMALL_WINDOW)
    ensures ChunkClear(s, c, end, bytes, maxBytes, many)
    decreases s.hi - Min(c, s.hi)
  {
    hide Flat, Range, PollAt, FindsAt, AllWithin, Good, ChunkFrom, ChunkClear, ChunkBytes, Passed, Increasing;
    GoodLength(s);
    ChunkStep(s, c, end, bytes, maxBytes, many);
    if !Full(s, c, end, bytes, maxBytes) {
      PollMoves(s, c, many, maxBytes - bytes);
      SmallFinds(s, c, maxBytes - bytes);
      var p := PollAt(s, c, many, maxBytes - bytes);
      SmallChunk(s, p.next, end, bytes + ChunkBytes(Range(p.out, 0, end)), maxBytes, many);
    }
  }

  lemma SmallFinds(s: Source, c: nat, budget: nat)
    requires |s.bases| == |s.lists| && forall i :: 0 <= i < |s.lists| ==> AllWithin(s.lists[i], SMALL_WINDOW)
    ensures FindsAt(s, c, budget)
  {
    hide Finds, SegmentFor, AllWithin, SeenLists;
    var w := WindowFor(budget);
    forall i | 0 <= i < |s.lists| ensures AllWithin(s.lists[i], w) { WiderWindow(s.lists[i], SMALL_WINDOW, w); }
    SeesAll(s.bases, s.lists, Max(c, s.start), w);
    FindsAll(s.lists, SegmentFor(s.bases, Max(c, s.start)), Max(c, s.start), s.hi);
  }

  lemma WiderWindow(rs: seq<Record>, a: nat, b: nat)
    requires AllWithin(rs, a) && a <= b
    ensures AllWithin(rs, b)
  {
  }

  lemma {:induction false} SmallTransfer(s: Source, from: nat, end: nat, maxBytes: nat, many: nat)
    requires Good(s) && 0 < many && END_FIELD < maxBytes && end <= s.hi
    requires forall i :: 0 <= i < |s.lists| ==> AllWithin(s.lists[i], SMALL_WINDOW)
    ensures TransferClear(s, from, end, maxBytes, many)
    decreases end - Min(from, end)
  {
    hide ChunkFrom, ChunkClear, Good, AllWithin;
    SmallChunk(s, from, end, END_FIELD, maxBytes, many);
    ChunkBounds(s, from, end, END_FIELD, maxBytes, many);
    var ch := ChunkFrom(s, from, end, END_FIELD, maxBytes, many);
    if ch.cursor < end { SmallTransfer(s, ch.cursor, end, maxBytes, many); }
  }

  /** A leader with one record of two megabytes: the first chunk is the last, and empty. */
  lemma LongRecordLost(v: seq<byte>, many: nat)
    requires |v| == 2 * 1024 * 1024 && 0 < many
    ensures var r := Record(0, 0, None, v); var s := Source([0], [[r]], 0, 1);
            && Storable(r) && Legible(r) && Good(s) &&
               ChunkFrom(s, 0, 1, END_FIELD, SNAPSHOT_CHUNK_BYTES, many) == Chunk([], 1)
  {
    hide PollSeen, PollOf, Seen;
    var r := Record(0, 0, None, v);
    var s := Source([0], [[r]], 0, 1);
    var budget := SNAPSHOT_CHUNK_BYTES - END_FIELD;
    NothingSeen([r], WindowFor(budget));
    assert SeenLists([0], [[r]], 0, WindowFor(budget)) == [[]];
    EmptyPollOf(many, budget);
    PollSeenIs([0], [[r]], 0, 0, many, budget, 1);
    assert PollAt(s, 0, many, budget) == Poll([], 1);
    assert ChunkFrom(s, 1, 1, END_FIELD + ChunkBytes([]), SNAPSHOT_CHUNK_BYTES, many) == Chunk([], 1);
  }

  lemma EmptyPollOf(many: nat, budget: nat)
    requires 0 < many
    ensures PollOf([0], [[]], 0, 0, many, budget, 1) == Poll([], 1)
  {
    assert PollFrom([0], [[]], 1, 0, 1, many, budget, 1) == Poll([], 1);
    assert PollFrom([0], [[]], 0, 0, 0, many, budget, 1) == Poll([], 1);
  }

  // ---------- the leader ----------

  ghost function SourceOf(p: Partition): Source
    reads p
  {
    Source(Bases(p.segments), p.lists, p.startOffset, p.nextOffset)
  }

  lemma PartitionGood(p: Partition)
    requires p.Valid()
    ensures Good(SourceOf(p)) && |p.segments| == |p.lists|
  {
    ChainedLength(p.crc, p.segments, p.lists, p.nextOffset);
    ChainedOrdered(p.crc, p.segments, p.lists, p.nextOffset);
  }

  /** The records of a poll below `end`, and the bytes they add to a chunk. */
  method TakeBelow(rs: seq<Record>, end: nat, bytes: nat) returns (out: seq<Record>, total: nat)
    ensures out == Range(rs, 0, end) && total == bytes + ChunkBytes(out)
  {
    hide Range, ChunkBytes, ChunkSize;
    out, total := [], bytes;
    var i := 0;
    assert rs[0..] == rs && out + Range(rs, 0, end) == Range(rs, 0, end);
    NoBytes();
    while i < |rs|
      invariant 0 <= i <= |rs| && Range(rs, 0, end) == out + Range(rs[i..], 0, end) && total == bytes + ChunkBytes(out)
    {
      RangeAt(rs, i, end);
      assert out + ([rs[i]] + Range(rs[i + 1..], 0, end)) == out + [rs[i]] + Range(rs[i + 1..], 0, end);
      if rs[i].offset < end {
        ChunkBytesPush(out, rs[i]);
        out := out + [rs[i]];
        total := total + ChunkSize(rs[i]);
      }
      i := i + 1;
    }
    assert rs[i..] == [] && out + [] == out;
    RangeNil(0, end);
  }

  lemma NoBytes()
    ensures ChunkBytes([]) == 0
  {
  }

  lemma RangeAt(rs: seq<Record>, i: nat, end: nat)
    requires i < |rs|
    ensures var rest := Range(rs[i + 1..], 0, end);
            Range(rs[i..], 0, end) == if rs[i].offset < end then [rs[i]] + rest else rest
  {
    assert rs[i..][1..] == rs[i + 1..] && [] + Range(rs[i + 1..], 0, end) == Range(rs[i + 1..], 0, end);
  }

  lemma {:induction false} ChunkBytesPush(rs: seq<Record>, r: Record)
    ensures ChunkBytes(rs + [r]) == ChunkBytes(rs) + ChunkSize(r)
  {
    if rs == [] {
      assert [r][1..] == [];
    } else {
      assert (rs + [r])[1..] == rs[1..] + [r];
      ChunkBytesPush(rs[1..], r);
    }
  }

  /** A chunk of the leader's records from `from` on. */
  method ReadChunk(p: Partition, from: nat, end: nat, maxBytes: nat, many: nat) returns (out: seq<Record>, done: bool)
    requires p.Valid() && 0 < many
    ensures Good(SourceOf(p))
    ensures var ch := ChunkFrom(SourceOf(p), from, end, END_FIELD, maxBytes, many);
            out == ch.out && (done <==> end <= ch.cursor)
  {
    hide Range, Chained, LastIndexed, PollAt, Flat, FindsAt, Passed, Good, ChunkFrom, ChunkClear, ChunkBytes,
         Increasing;
    hide Partition.Valid, SourceOf;
    PartitionGood(p);
    ghost var s := SourceOf(p);
    GoodLength(s);
    ghost var ch := ChunkFrom(s, from, end, END_FIELD, maxBytes, many);
    var c: nat, bytes: nat := from, END_FIELD;
    out := [];
    while c < end && bytes < maxBytes
      invariant ch.out == out + ChunkFrom(s, c, end, bytes, maxBytes, many).out
      invariant ch.cursor == ChunkFrom(s, c, end, bytes, maxBytes, many).cursor
      decreases s.hi - Min(c, s.hi)
    {
      var rs, next := PollSource(p, s, c, many, maxBytes - bytes);
      var more, total := TakeBelow(rs, end, bytes);
      ChunkLoop(s, c, end, bytes, maxBytes, many);
      out := out + more;
      if next <= c { break; }
      c, bytes := next, total;
    }
    ChunkStep(s, c, end, bytes, maxBytes, many);
    done := end <= c;
  }

  /** One turn of the loop that fills a chunk. */
  lemma ChunkLoop(s: Source, c: nat, end: nat, bytes: nat, maxBytes: nat, many: nat)
    requires Good(s) && 0 < many && |s.bases| == |s.lists| && c < end && bytes < maxBytes
    ensures var p := PollAt(s, c, many, maxBytes - bytes); var more := Range(p.out, 0, end);
            var ch := ChunkFrom(s, c, end, bytes, maxBytes, many);
            if p.next <= c then more == [] && ch == Chunk([], c)
            else
              var rest := ChunkFrom(s, p.next, end, bytes + ChunkBytes(more), maxBytes, many);
              && ch == Chunk(more + rest.out, rest.cursor) && s.hi - Min(p.next, s.hi) < s.hi - Min(c, s.hi)
  {
    hide Range, PollAt, Flat, FindsAt, Passed, Good, ChunkFrom, ChunkClear, ChunkBytes, Increasing;
    ChunkStep(s, c, end, bytes, maxBytes, many);
    if s.hi <= c {
      NoPoll(s, c, many, maxBytes - bytes);
      RangeNone([], 0, end);
    } else {
      PollMoves(s, c, many, maxBytes - bytes);
    }
  }

  method PollSource(p: Partition, ghost s: Source, c: nat, many: nat, budget: nat) returns (rs: seq<Record>, next: nat)
    requires p.Valid() && s == SourceOf(p) && |s.bases| == |s.lists|
    ensures Poll(rs, next) == PollAt(s, c, many, budget)
  {
    hide Chained, LastIndexed, PollSeen;
    var watermark;
    rs, next, watermark := p.ReadRecords(c, many, budget);
  }

  lemma NoPoll(s: Source, c: nat, many: nat, budget: nat)
    requires |s.bases| == |s.lists| && s.hi <= c
    ensures PollAt(s, c, many, budget) == Poll([], c)
  {
  }

  // ---------- the follower ----------

  function Explicit(rs: seq<Record>): (a: seq<AppendRecord>)
    ensures |a| == |rs|
  {
    if rs == [] then []
    else [AppendRecord(rs[0].key, rs[0].value, Some(rs[0].timestamp), Some(rs[0].offset))] + Explicit(rs[1..])
  }

  /** Records past the end, in order, are stored as they are. */
  lemma {:induction false} AssignExplicit(next: nat, rs: seq<Record>, now: int)
    requires Increasing(rs) && AtLeast(rs, next)
    ensures var a := Assign(next, Explicit(rs), now);
            a.added == rs && a.next == if rs == [] then next else rs[|rs| - 1].offset + 1
    decreases |rs|
  {
    if rs != [] {
      hide Increasing, AtLeast;
      TailIncreasing(rs);
      TailAtLeast(rs, next);
      ExplicitHead(rs);
      AssignExplicit(rs[0].offset + 1, rs[1..], now);
      assert rs == [rs[0]] + rs[1..];
    }
  }

  lemma TailAtLeast(rs: seq<Record>, next: nat)
    requires rs != [] && Increasing(rs) && AtLeast(rs, next)
    ensures AtLeast(rs[1..], rs[0].offset + 1) && next <= rs[0].offset
  {
  }

  lemma ExplicitHead(rs: seq<Record>)
    requires rs != []
    ensures Explicit(rs)[0] == AppendRecord(rs[0].key, rs[0].value, Some(rs[0].timestamp), Some(rs[0].offset))
    ensures Explicit(rs)[1..] == Explicit(rs[1..])
  {
  }

  lemma {:induction false} AssignedStorable(next: nat, rs: seq<Record>, now: int)
    requires AllStorable(rs)
    ensures AllStorable(Assign(next, Explicit(rs), now).added)
    decreases |rs|
  {
    if rs != [] {
      hide Storable;
      ExplicitHead(rs);
      AssignedStorable(if rs[0].offset < next then next else rs[0].offset + 1, rs[1..], now);
    }
  }

  /** Stores what of a chunk is past the end; the last chunk also moves the end to the snapshot's. */
  method ApplyChunk(q: Partition, rs: seq<Record>, end: nat, done: bool, now: int)
    requires q.Valid() && AllStorable(rs)
    modifies q
    ensures var a := Assign(old(q.nextOffset), Explicit(rs), now);
            && q.Valid() && q.Contents() == old(q.Contents()) + a.added &&
               q.nextOffset == if done then Max(a.next, end) else a.next
  {
    hide Chained, Flat, AllStorable, LastIndexed, Assign;
    AssignedStorable(q.nextOffset, rs, now);
    var offsets := q.AppendBatch(Explicit(rs), now);
    if done { q.AdvanceTo(end); }
  }

  /** The records of a valid partition can be stored again. */
  lemma ContentsStorable(p: Partition)
    requires p.Valid()
    ensures AllStorable(p.Contents()) && Increasing(p.Contents())
  {
    hide Holds, Storable;
    ChainedOrdered(p.crc, p.segments, p.lists, p.nextOffset);
    FlatIncreasing(Bases(p.segments), p.lists, |p.lists|);
    assert p.lists[..|p.lists|] == p.lists;
    forall i | 0 <= i < |p.lists| ensures AllStorable(p.lists[i]) { HeldStorable(p.crc, p.segments[i], p.lists[i]); }
    FlatStorable(p.lists);
  }

  lemma HeldStorable(crc: Checksum, seg: Segment, rs: seq<Record>)
    requires Holds(crc, seg, rs)
    ensures AllStorable(rs)
  {
  }

  /**
   Chunk after chunk, each read from where the follower says it ends: the transfer ends, and the
   follower's records then go on with those the chunks carried.
   */
  method Transfer(leader: Partition, follower: Partition, end: nat, maxBytes: nat, many: nat, now: int)
    requires leader != follower && leader.Valid() && follower.Valid()
    requires 0 < many && END_FIELD < maxBytes && end <= leader.nextOffset && follower.nextOffset <= end
    modifies follower
    ensures follower.Valid() && follower.nextOffset == end && Good(SourceOf(leader))
    ensures follower.Contents() ==
              old(follower.Contents()) + TransferFrom(SourceOf(leader), old(follower.nextOffset), end, maxBytes, many)
  {
    hide Chained, LastIndexed, Flat, Increasing, AllStorable, AtLeast, ChunkFrom, Good, Storable, Assign;
    PartitionGood(leader);
    ContentsStorable(leader);
    ghost var s, start := SourceOf(leader), follower.nextOffset;
    ghost var got := TransferFrom(s, start, end, maxBytes, many);
    var done := false;
    while !done
      invariant leader.Valid() && follower.Valid() && SourceOf(leader) == s && start <= follower.nextOffset <= end
      invariant if done then follower.nextOffset == end && follower.Contents() == old(follower.Contents()) + got
                else follower.Contents() + TransferFrom(s, follower.nextOffset, end, maxBytes, many) ==
                       old(follower.Contents()) + got
      decreases !done, end - follower.nextOffset
    {
      var from := follower.nextOffset;
      ghost var mine := follower.Contents();
      var out, last := ReadChunk(leader, from, end, maxBytes, many);
      ChunkBounds(s, from, end, END_FIELD, maxBytes, many);
      ghost var cursor := ChunkFrom(s, from, end, END_FIELD, maxBytes, many).cursor;
      done := last;
      ChunkStored(s, out, from, end, cursor, now);
      ApplyChunk(follower, out, end, done, now);
      if !done { TransferStep(mine, out, TransferFrom(s, cursor, end, maxBytes, many)); }
    }
  }

  lemma TransferStep(mine: seq<Record>, out: seq<Record>, rest: seq<Record>)
    ensures mine + (out + rest) == mine + out + rest
  {
  }

  /** A chunk can be stored whole, and then the follower ends where the chunk did, or at its last record. */
  lemma ChunkStored(s: Source, out: seq<Record>, from: nat, end: nat, cursor: nat, now: int)
    requires AllStorable(Flat(s.lists)) && Increasing(out) && from <= end
    requires forall r :: r in out ==> from <= r.offset < end && r in Flat(s.lists)
    requires cursor < end ==> out != [] && cursor == out[|out| - 1].offset + 1
    ensures AllStorable(out)
    ensures var a := Assign(from, Explicit(out), now);
            a.added == out && (if cursor < end then a.next == cursor else a.next <= end)
  {
    hide Storable, Flat, Assign;
    forall k | 0 <= k < |out| ensures Storable(out[k]) && from <= out[k].offset { assert out[k] in out; }
    AssignExplicit(from, out, now);
    if out != [] { assert out[|out| - 1] in out; }
  }

  /** If the follower held the leader's records up to where it ended, it now holds them up to the end. */
  lemma TransferAgrees(all: seq<Record>, mine: seq<Record>, from: nat, end: nat)
    requires Increasing(all) && from <= end && mine == Range(all, 0, from)
    ensures mine + Range(all, from, end) == Range(all, 0, end)
  {
    RangeSplit(all, 0, from, end);
  }
}
