/** One segment: a log file and its sparse index. Reading it is reading its list of records. */
module StorageSegment {
  import opened Basics
  import opened Bytes
  import opened StorageRecord
  import opened StorageCursor
  import opened StorageIndex

  const READ_WINDOW_BYTES: nat := 256 * 1024

  datatype Segment = Segment(base: nat, log: seq<byte>, index: seq<Entry>)

  /** The segment's files hold exactly the records `rs`. */
  ghost predicate Holds(crc: Checksum, seg: Segment, rs: seq<Record>) {
    && AllStorable(rs) && Increasing(rs) && AtLeast(rs, seg.base)
    && seg.log == EncodeRecords(crc, rs) && seg.index == SparseOf(seg.base, rs, 0, None)
  }

  // ---------- the plain scan ----------

  /** The records from the first at or past `target`. */
  function FromOffset(rs: seq<Record>, target: nat): seq<Record> {
    if rs == [] then [] else if rs[0].offset < target then FromOffset(rs[1..], target) else rs
  }

  /** As many as fit: below the watermark, at most `maxRecords`, and all but the first within `maxBytes`. */
  function TakeUpTo(rs: seq<Record>, n: nat, bytes: nat, maxRecords: nat, maxBytes: nat, watermark: nat): seq<Record> {
    if rs == [] || watermark <= rs[0].offset || (0 < n && maxBytes < bytes + DiskSize(rs[0])) then []
    else if maxRecords <= n + 1 then [rs[0]]
    else [rs[0]] + TakeUpTo(rs[1..], n + 1, bytes + DiskSize(rs[0]), maxRecords, maxBytes, watermark)
  }

  function ReadOf(rs: seq<Record>, target: nat, maxRecords: nat, maxBytes: nat, watermark: nat): seq<Record> {
    if maxRecords == 0 || watermark <= target then []
    else TakeUpTo(FromOffset(rs, target), 0, 0, maxRecords, maxBytes, watermark)
  }

  function WindowFor(maxBytes: nat): nat {
    Max(16 * 1024, Min(maxBytes + INDEX_INTERVAL_BYTES, READ_WINDOW_BYTES * 16))
  }

  // ---------- a read is as long as it may be ----------

  /** What holds of the records taken, when `n` records of `bytes` bytes were taken before. */
  predicate Longest(rs: seq<Record>, out: seq<Record>, n: nat, bytes: nat, maxRecords: nat, maxBytes: nat,
                    watermark: nat) {
    && out <= rs && n + |out| <= maxRecords && (forall k :: 0 <= k < |out| ==> out[k].offset < watermark)
    && (out != [] && 1 < n + |out| ==> bytes + SizeOf(out) <= maxBytes)
    && (|out| < |rs| ==>
        || n + |out| == maxRecords || watermark <= rs[|out|].offset
        || (0 < n + |out| && maxBytes < bytes + SizeOf(out) + DiskSize(rs[|out|])))
  }

  lemma LongestHead(r: Record, rs: seq<Record>, out: seq<Record>, n: nat, bytes: nat, maxRecords: nat, maxBytes: nat,
                    watermark: nat)
    requires r.offset < watermark && (0 < n ==> bytes + DiskSize(r) <= maxBytes)
    requires Longest(rs, out, n + 1, bytes + DiskSize(r), maxRecords, maxBytes, watermark)
    ensures Longest([r] + rs, [r] + out, n, bytes, maxRecords, maxBytes, watermark)
  {
    hide DiskSize;
    assert ([r] + out)[1..] == out;
    assert SizeOf([r] + out) == DiskSize(r) + SizeOf(out);
    if |out| < |rs| { assert ([r] + rs)[|out| + 1] == rs[|out|]; }
  }

  lemma {:induction false} TakesLongest(rs: seq<Record>, n: nat, bytes: nat, maxRecords: nat, maxBytes: nat,
                                        watermark: nat)
    requires n < maxRecords
    ensures var out := TakeUpTo(rs, n, bytes, maxRecords, maxBytes, watermark);
            Longest(rs, out, n, bytes, maxRecords, maxBytes, watermark)
    decreases |rs|
  {
    hide DiskSize, Longest;
    if rs != [] && rs[0].offset < watermark && !(0 < n && maxBytes < bytes + DiskSize(rs[0])) {
      var more := bytes + DiskSize(rs[0]);
      assert rs == [rs[0]] + rs[1..];
      if n + 1 < maxRecords {
        TakesLongest(rs[1..], n + 1, more, maxRecords, maxBytes, watermark);
        var rest := TakeUpTo(rs[1..], n + 1, more, maxRecords, maxBytes, watermark);
        LongestHead(rs[0], rs[1..], rest, n, bytes, maxRecords, maxBytes, watermark);
      } else {
        NothingMore(rs[1..], n + 1, more, maxRecords, maxBytes, watermark);
        LongestHead(rs[0], rs[1..], [], n, bytes, maxRecords, maxBytes, watermark);
        assert [rs[0]] + [] == [rs[0]];
      }
    } else {
      NothingMore(rs, n, bytes, maxRecords, maxBytes, watermark);
    }
  }

  lemma NothingMore(rs: seq<Record>, n: nat, bytes: nat, maxRecords: nat, maxBytes: nat, watermark: nat)
    requires n <= maxRecords
    requires rs != [] && rs[0].offset < watermark && !(0 < n && maxBytes < bytes + DiskSize(rs[0])) ==> n == maxRecords
    ensures Longest(rs, [], n, bytes, maxRecords, maxBytes, watermark)
  {
    hide DiskSize;
  }

  /**
   A read of a list returns its records from the target on, below the watermark, and as many as both limits
   allow; one record is returned whatever its size.
   */
  lemma ReadLongest(rs: seq<Record>, target: nat, maxRecords: nat, maxBytes: nat, watermark: nat)
    ensures var out, rest := ReadOf(rs, target, maxRecords, maxBytes, watermark), FromOffset(rs, target);
            && out <= rest && |out| <= maxRecords && (1 < |out| ==> SizeOf(out) <= maxBytes)
            && (forall k :: 0 <= k < |out| ==> out[k].offset < watermark)
            && (|out| < |rest| && |out| < maxRecords && target < watermark ==>
                watermark <= rest[|out|].offset || (out != [] && maxBytes < SizeOf(out) + DiskSize(rest[|out|])))
  {
    hide DiskSize, TakeUpTo, FromOffset;
    if 0 < maxRecords && target < watermark {
      TakesLongest(FromOffset(rs, target), 0, 0, maxRecords, maxBytes, watermark);
    }
  }

  // ---------- facts about the scan ----------

  lemma {:induction false} FromOffsetSkips(rs: seq<Record>, target: nat, k: nat)
    requires k <= |rs| && forall j :: 0 <= j < k ==> rs[j].offset < target
    ensures FromOffset(rs, target) == FromOffset(rs[k..], target)
    decreases k
  {
    if k > 0 {
      assert rs[1..][k - 1..] == rs[k..];
      FromOffsetSkips(rs[1..], target, k - 1);
    } else {
      assert rs[0..] == rs;
    }
  }

  /** The loop of the reader, record by record. */
  function ScanOn(rs: seq<Record>, n: nat, bytes: nat, target: nat, maxRecords: nat, maxBytes: nat,
                  watermark: nat): seq<Record> {
    if rs == [] || watermark <= rs[0].offset then []
    else if rs[0].offset < target then ScanOn(rs[1..], n, bytes, target, maxRecords, maxBytes, watermark)
    else if 0 < n && maxBytes < bytes + DiskSize(rs[0]) then []
    else if maxRecords <= n + 1 then [rs[0]]
    else [rs[0]] + ScanOn(rs[1..], n + 1, bytes + DiskSize(rs[0]), target, maxRecords, maxBytes, watermark)
  }

  lemma {:induction false} ScanTakes(rs: seq<Record>, n: nat, bytes: nat, target: nat, maxRecords: nat, maxBytes: nat,
                                     watermark: nat)
    requires forall j :: 0 <= j < |rs| ==> target <= rs[j].offset
    ensures ScanOn(rs, n, bytes, target, maxRecords, maxBytes, watermark) ==
              TakeUpTo(rs, n, bytes, maxRecords, maxBytes, watermark)
  {
    if rs != [] { ScanTakes(rs[1..], n + 1, bytes + DiskSize(rs[0]), target, maxRecords, maxBytes, watermark); }
  }

  lemma {:induction false} ScanReads(rs: seq<Record>, target: nat, maxRecords: nat, maxBytes: nat, watermark: nat)
    requires Increasing(rs) && 0 < maxRecords && target < watermark
    ensures ScanOn(rs, 0, 0, target, maxRecords, maxBytes, watermark) ==
              ReadOf(rs, target, maxRecords, maxBytes, watermark)
  {
    if rs != [] {
      if rs[0].offset < target {
        ScanReads(rs[1..], target, maxRecords, maxBytes, watermark);
      } else {
        ScanTakes(rs, 0, 0, target, maxRecords, maxBytes, watermark);
      }
    }
  }

  /** Where a position in the file is the start of record `k`. */
  lemma FileFrom(crc: Checksum, rs: seq<Record>, k: nat)
    requires AllStorable(rs) && k <= |rs|
    ensures |EncodeRecords(crc, rs)| == SizeOf(rs) && SizeOf(rs[..k]) <= SizeOf(rs)
    ensures EncodeRecords(crc, rs)[SizeOf(rs[..k])..] == EncodeRecords(crc, rs[k..])
    ensures k < |rs| ==> SizeOf(rs[..k]) < SizeOf(rs)
  {
    hide EncodeRecord, EncodeRecords;
    assert rs == rs[..k] + rs[k..];
    EncodeConcat(crc, rs[..k], rs[k..]);
    EncodedSize(crc, rs[..k]);
    EncodedSize(crc, rs);
    SizeConcat(rs[..k], rs[k..]);
  }

  /** The record the floor entry of the index sends a reader of `target` to. */
  function StartAt(base: nat, rs: seq<Record>, target: nat): (k: nat)
    ensures k <= |rs|
  {
    var f := Floor(SparseOf(base, rs, 0, None), Relative(base, target));
    WholeRecords(rs, if f.None? then 0 else f.value.1)
  }

  /**
   How many of the records a reader of `target` can get to: those before its start, and those it reaches from
   there.
   */
  function Seen(base: nat, rs: seq<Record>, target: nat, window: nat): (n: nat)
    ensures n <= |rs|
  {
    var k := StartAt(base, rs, target);
    k + Reached(rs[k..], 0, window, 0)
  }

  /** The reader gets to the first `n` records if and only if it misses none of those from its start on. */
  lemma SeenExactly(base: nat, rs: seq<Record>, target: nat, window: nat, n: nat)
    requires n <= |rs|
    ensures var k := StartAt(base, rs, target);
            n <= Seen(base, rs, target, window) <==> n <= k || Readable(rs[k..], n - k, 0, window, 0)
  {
    hide StartAt, Reached, Readable;
    var k := StartAt(base, rs, target);
    if k < n { ReachedExactly(rs[k..], n - k, 0, window, 0); }
  }

  lemma StartSkips(base: nat, rs: seq<Record>, target: nat)
    requires Increasing(rs) && AtLeast(rs, base)
    ensures var f := Floor(SparseOf(base, rs, 0, None), Relative(base, target)); var k := StartAt(base, rs, target);
            (if f.None? then 0 else f.value.1) == SizeOf(rs[..k]) && forall j :: 0 <= j < k ==> rs[j].offset < target
  {
    hide SparseOf, Floor, Relative;
    var k := FloorSkips(base, rs, target);
    WholeAt(rs, k);
  }

  lemma {:induction false} WholeAt(rs: seq<Record>, k: nat)
    requires k <= |rs|
    ensures WholeRecords(rs, SizeOf(rs[..k])) == k
    decreases k
  {
    if k > 0 {
      assert rs[..k][1..] == rs[1..][..k - 1];
      WholeAt(rs[1..], k - 1);
    } else {
      assert rs[..0] == [];
    }
  }

  /** Reads with the index and the windowed reader: what the plain scan gives of the records the reader gets to. */
  method ReadFrom(crc: Checksum, seg: Segment, ghost rs: seq<Record>, target: nat, maxRecords: nat, maxBytes: nat,
                  watermark: nat)
    returns (out: seq<Record>)
    requires Holds(crc, seg, rs)
    ensures out ==
              ReadOf(rs[..Seen(seg.base, rs, target, WindowFor(maxBytes))], target, maxRecords, maxBytes, watermark)
  {
    hide EncodeRecord, EncodeRecords, SparseOf, Floor, ScanOn, SizeOf, Storable, AllStorable, Relative, Reached,
         StartAt, Seen;
    hide FromOffset, TakeUpTo, AtRecord, Increasing, AtLeast;
    out := [];
    if maxRecords == 0 || watermark <= target { return; }
    SparseAscends(seg.base, rs, 0, None);
    var f := FloorSearch(seg.index, Relative(seg.base, target));
    var start := if f.None? then 0 else f.value.1;
    ghost var k := StartAt(seg.base, rs, target);
    StartSkips(seg.base, rs, target);
    FileFrom(crc, rs, k);
    ghost var end := Seen(seg.base, rs, target, WindowFor(maxBytes));
    SeenFrom(rs, k, end, target, maxRecords, maxBytes, watermark) by {
      SeenIs(seg.base, rs, target, WindowFor(maxBytes));
    }
    if |seg.log| <= start { return; }
    var cursor := new RecordCursor(crc, seg.log, start, |seg.log|, WindowFor(maxBytes));
    NoTail(crc);
    StandsAt(cursor, rs, k, []) by { TailStorable(crc, rs, k); }
    SeenIs(seg.base, rs, target, WindowFor(maxBytes));
    out := ScanWith(cursor, rs, k, end, target, maxRecords, maxBytes, watermark);
  }

  lemma TailStorable(crc: Checksum, rs: seq<Record>, k: nat)
    requires AllStorable(rs) && k <= |rs|
    ensures AllStorable(rs[k..]) && EncodeRecords(crc, rs[k..]) + [] == EncodeRecords(crc, rs[k..])
  {
  }

  lemma SeenIs(base: nat, rs: seq<Record>, target: nat, window: nat)
    ensures var k := StartAt(base, rs, target);
            k <= Seen(base, rs, target, window) == k + Reached(rs[k..], 0, window, 0)
  {
  }

  /** Scanning from the start up to what is seen reads what is seen. */
  lemma SeenFrom(rs: seq<Record>, k: nat, end: nat, target: nat, maxRecords: nat, maxBytes: nat, watermark: nat)
    requires Increasing(rs) && k <= end <= |rs| && (forall j :: 0 <= j < k ==> rs[j].offset < target) &&
             0 < maxRecords && target < watermark
    ensures ScanOn(rs[k..end], 0, 0, target, maxRecords, maxBytes, watermark) ==
              ReadOf(rs[..end], target, maxRecords, maxBytes, watermark)
    ensures k == |rs| ==> ReadOf(rs[..end], target, maxRecords, maxBytes, watermark) == []
  {
    hide ScanOn;
    FromOffsetSkips(rs[..end], target, k);
    assert rs[..end][k..] == rs[k..end];
    ScanReads(rs[k..end], target, maxRecords, maxBytes, watermark);
  }

  lemma NoTail(crc: Checksum)
    ensures TornTail(crc, [])
  {
  }

  /** The reader's loop over the records from the `k`th up to the `end`th, where it stops. */
  method ScanWith(cursor: RecordCursor, ghost rs: seq<Record>, ghost k: nat, ghost end: nat,
                  target: nat, maxRecords: nat, maxBytes: nat, watermark: nat)
    returns (out: seq<Record>)
    requires AtRecord(cursor, rs, k, [], end) && k <= end <= |rs| && 0 < maxRecords
    modifies cursor
    ensures out == ScanOn(rs[k..end], 0, 0, target, maxRecords, maxBytes, watermark)
  {
    hide AtRecord, DiskSize, ScanOn;
    out := [];
    var bytes: nat := 0;
    ghost var i := k;
    ghost var ahead := rs[..end];
    assert ahead[k..] == rs[k..end];
    while true
      invariant k <= i <= end && AtRecord(cursor, rs, i, [], end) && |out| < maxRecords
      invariant ScanOn(ahead[k..], 0, 0, target, maxRecords, maxBytes, watermark)
             == out + ScanOn(ahead[i..], |out|, bytes, target, maxRecords, maxBytes, watermark)
      decreases end - i
    {
      ScanStep(ahead, i, |out|, bytes, target, maxRecords, maxBytes, watermark);
      var r := NextAt(cursor, rs, i, [], end);
      if !r.Got? { break; }
      i := i + 1;
      var rec := r.record;
      if watermark <= rec.offset { break; }
      if rec.offset < target { continue; }
      var size := DiskSize(rec);
      if out != [] && maxBytes < bytes + size { break; }
      bytes := bytes + size;
      out := out + [rec];
      if maxRecords <= |out| { break; }
    }
  }

  /** The loop of the reader at record `i`. */
  lemma ScanStep(rs: seq<Record>, i: nat, n: nat, bytes: nat, target: nat, maxRecords: nat, maxBytes: nat,
                 watermark: nat)
    requires i <= |rs|
    ensures var here := ScanOn(rs[i..], n, bytes, target, maxRecords, maxBytes, watermark);
            if i == |rs| || watermark <= rs[i].offset then here == []
            else if rs[i].offset < target then here ==
                   ScanOn(rs[i + 1..], n, bytes, target, maxRecords, maxBytes, watermark)
            else if 0 < n && maxBytes < bytes + DiskSize(rs[i]) then here == []
            else if maxRecords <= n + 1 then here == [rs[i]]
            else here ==
                   [rs[i]] + ScanOn(rs[i + 1..], n + 1, bytes + DiskSize(rs[i]), target, maxRecords, maxBytes,
                                    watermark)
  {
    if i < |rs| { assert rs[i..][1..] == rs[i + 1..]; }
  }

  // ---------- reading record by record ----------

  /** Nothing, or a strict, non-empty prefix of a record. */
  ghost predicate TornTail(crc: Checksum, tail: seq<byte>) {
    tail == [] ||
    exists r: Record, cut: nat :: Storable(r) && 0 < cut < DiskSize(r) && tail == EncodeRecord(crc, r)[..cut]
  }

  /** One step of the reader over records followed by a torn tail. */
  lemma TornStep(crc: Checksum, rs: seq<Record>, tail: seq<byte>, have: nat, window: nat)
    requires AllStorable(rs) && TornTail(crc, tail)
    ensures var rest := EncodeRecords(crc, rs) + tail; var next := NextOf(crc, rest, have, window);
            if rs != [] && !Missed(rs[0], have, window) then
              next == Got(rs[0]) && Advance(crc, rest, have, window) == DiskSize(rs[0])
              && rest[DiskSize(rs[0])..] == EncodeRecords(crc, rs[1..]) + tail
            else (if rs == [] && tail == [] then next == End else next.Failed?) && Advance(crc, rest, have, window) == 0
  {
    hide NextOf, EncodeRecord, Missed;
    if rs != [] {
      GivesNext(crc, rs, tail, have, window);
    } else {
      assert EncodeRecords(crc, rs) + tail == tail;
      if tail == [] {
        EndOfFile(crc, have, window);
      } else {
        var r: Record, cut: nat :| Storable(r) && 0 < cut < DiskSize(r) && tail == EncodeRecord(crc, r)[..cut];
        FailsAtTorn(crc, r, cut, have, window);
      }
    }
  }

  /** One step of the reader at record `i` of the file. */
  lemma TornStepAt(crc: Checksum, rs: seq<Record>, i: nat, tail: seq<byte>, have: nat, window: nat)
    requires AllStorable(rs) && TornTail(crc, tail) && i <= |rs|
    ensures var rest := EncodeRecords(crc, rs[i..]) + tail; var next := NextOf(crc, rest, have, window);
            if i < |rs| && !Missed(rs[i], have, window) then
              next == Got(rs[i]) && Advance(crc, rest, have, window) == DiskSize(rs[i])
              && rest[DiskSize(rs[i])..] == EncodeRecords(crc, rs[i + 1..]) + tail
            else (if i == |rs| && tail == [] then next == End else next.Failed?) &&
                 Advance(crc, rest, have, window) == 0
  {
    hide NextOf, Advance, EncodeRecord, EncodeRecords, Missed, TornTail;
    TornStep(crc, rs[i..], tail, have, window);
    if i < |rs| { assert rs[i..][1..] == rs[i + 1..]; }
  }

  /** One record on, what will be reached is the same. */
  lemma ReachedStep(rs: seq<Record>, i: nat, have: nat, window: nat, tail: nat)
    requires i <= |rs|
    ensures var n := Reached(rs[i..], have, window, tail);
            if i < |rs| && !Missed(rs[i], have, window)
            then n ==
              1 + Reached(rs[i + 1..], HaveAfter(have, DiskSize(rs[i]), window, SizeOf(rs[i..]) + tail), window, tail)
            else n == 0
  {
    hide Missed, HaveAfter;
    if i < |rs| { assert rs[i..][1..] == rs[i + 1..]; }
  }

  /** The cursor stands at record `i` of a file that holds the records and then the tail, and will get to `end`. */
  ghost predicate AtRecord(c: RecordCursor, rs: seq<Record>, i: nat, tail: seq<byte>, end: nat)
    reads c
  {
    && c.Valid() && AllStorable(rs) && TornTail(c.crc, tail)
    && i <= |rs| && c.Rest() == EncodeRecords(c.crc, rs[i..]) + tail
    && end == i + Reached(rs[i..], |c.Buffered()|, c.window, |tail|)
  }

  /** A new cursor at the start of record `k` stands there. */
  lemma StandsAt(c: RecordCursor, rs: seq<Record>, k: nat, tail: seq<byte>)
    requires c.Valid() && AllStorable(rs) && TornTail(c.crc, tail) && k <= |rs| && c.buf == []
    requires c.limit == |c.file| && c.file[c.pos..] == EncodeRecords(c.crc, rs[k..]) + tail
    ensures AtRecord(c, rs, k, tail, k + Reached(rs[k..], 0, c.window, |tail|))
  {
    hide EncodeRecords, Reached, TornTail, Storable, AllStorable;
    assert c.file[c.pos..|c.file|] == c.file[c.pos..];
    assert c.Buffered() == [];
  }

  /** One step: the record the cursor stands at, up to the `end`th; then the end of the file or a failure. */
  method NextAt(c: RecordCursor, ghost rs: seq<Record>, ghost i: nat, ghost tail: seq<byte>, ghost end: nat)
    returns (r: Next)
    requires AtRecord(c, rs, i, tail, end)
    modifies c
    ensures i <= end <= |rs|
    ensures i < end ==> r == Got(rs[i]) && AtRecord(c, rs, i + 1, tail, end) && c.pos == old(c.pos) + DiskSize(rs[i])
    ensures i == end ==> c.pos == old(c.pos) && c.Valid() && if end == |rs| && tail == [] then r == End else r.Failed?
  {
    hide EncodeRecord, EncodeRecords, NextOf, Advance, DiskSize, Storable, AllStorable, TornTail, Missed, HaveAfter,
         Reached, SizeOf;
    hide RecordCursor.Valid, RecordCursor.Rest, RecordCursor.Buffered;
    ghost var have := |c.Buffered()|;
    ghost var rest := c.Rest();
    TornStepAt(c.crc, rs, i, tail, have, c.window);
    ReachedStep(rs, i, have, c.window, |tail|);
    RestSize(c.crc, rs, i, tail);
    r := c.NextRecord();
  }

  lemma RestSize(crc: Checksum, rs: seq<Record>, i: nat, tail: seq<byte>)
    requires AllStorable(rs) && i <= |rs|
    ensures |EncodeRecords(crc, rs[i..]) + tail| == SizeOf(rs[i..]) + |tail|
  {
    EncodedSize(crc, rs[i..]);
  }

  lemma EndReached(c: RecordCursor, rs: seq<Record>, end: nat)
    requires AtRecord(c, rs, |rs|, [], end)
    ensures c.pos == c.limit
  {
    assert rs[|rs|..] == [];
  }

  lemma EndOfFile(crc: Checksum, have: nat, window: nat)
    ensures EncodeRecords(crc, []) == [] && NextOf(crc, [], have, window) == End && Advance(crc, [], have, window) == 0
  {
  }
}
