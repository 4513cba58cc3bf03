/**
 Recovery of segments after a stop. The index is rebuilt from the records; a log cut at any byte keeps
 its whole records, up to the first the reader cannot get to; and trusting a sealed segment's own index
 gives what a full scan gives.
 */
module StorageRecovery {
  import opened Basics
  import opened Bytes
  import opened StorageRecord
  import opened StorageCursor
  import opened StorageIndex
  import opened StorageSegment
  import opened StorageScan
  import opened StoragePartition

  datatype SegmentScan = SegmentScan(entries: seq<Entry>, nextOffset: nat, validBytes: nat, damaged: bool,
                                     trusted: bool)

  function NextAfter(base: nat, rs: seq<Record>): nat {
    if rs == [] then base else rs[|rs| - 1].offset + 1
  }

  /** What a scan of a file of `size` bytes finds when its whole records are `rs`. */
  function FullScan(base: nat, rs: seq<Record>, size: nat): SegmentScan {
    SegmentScan(SparseOf(base, rs, 0, None), NextAfter(base, rs), SizeOf(rs), SizeOf(rs) != size, false)
  }

  // ---------- files with a torn tail ----------

  /** Cutting a file of records at any byte leaves its whole records and a torn tail. */
  lemma {:induction false} CutFile(crc: Checksum, rs: seq<Record>, cut: nat) returns (tail: seq<byte>)
    requires AllStorable(rs) && cut <= |EncodeRecords(crc, rs)|
    ensures EncodeRecords(crc, rs)[..cut] == EncodeRecords(crc, rs[..WholeRecords(rs, cut)]) + tail &&
            TornTail(crc, tail)
  {
    hide EncodeRecord, TornTail, Storable, DiskSize;
    var all := EncodeRecords(crc, rs);
    if rs == [] {
      tail := [];
      NoTail(crc);
    } else {
      var x, rest := EncodeRecord(crc, rs[0]), EncodeRecords(crc, rs[1..]);
      if cut < |x| {
        tail := x[..cut];
        assert all[..cut] == [] + tail;
        TornIs(crc, rs[0], cut);
      } else {
        assert all[..cut] == x + rest[..cut - |x|];
        tail := CutFile(crc, rs[1..], cut - |x|);
        var k := WholeRecords(rs[1..], cut - |x|);
        assert rs[..1 + k][1..] == rs[1..][..k];
        assert all[..cut] == x + EncodeRecords(crc, rs[1..][..k]) + tail;
      }
    }
  }

  lemma TornIs(crc: Checksum, r: Record, cut: nat)
    requires Storable(r) && cut < DiskSize(r)
    ensures TornTail(crc, EncodeRecord(crc, r)[..cut])
  {
    hide EncodeRecord;
  }

  // ---------- the full scan ----------

  /** The records a scan gets to in a file that holds `rs` and then `tail` bytes of a torn one. */
  function Scannable(rs: seq<Record>, tail: nat): (kept: seq<Record>)
    ensures |kept| <= |rs| && kept == rs[..|kept|]
  {
    rs[..Reached(rs, 0, READ_WINDOW_BYTES, tail)]
  }

  /** Reads every record, rebuilding the index; stops at the first that is torn or out of reach. */
  method ScanFull(crc: Checksum, base: nat, file: seq<byte>, ghost rs: seq<Record>, ghost tail: seq<byte>)
    returns (scan: SegmentScan)
    requires AllStorable(rs) && TornTail(crc, tail)
    requires file == EncodeRecords(crc, rs) + tail
    ensures scan == FullScan(base, Scannable(rs, |tail|), |file|)
  {
    hide AtRecord, Scanned, DiskSize, TornTail, EncodeRecords, Reached;
    var entries: seq<Entry>, next: nat, valid: nat, damaged := [], base, 0, false;
    var last: Option<nat> := None;
    var c := new RecordCursor(crc, file, 0, |file|, READ_WINDOW_BYTES);
    ghost var i := 0;
    assert file[0..] == file && rs[0..] == rs && rs[..0] == [];
    ghost var end := Reached(rs, 0, READ_WINDOW_BYTES, |tail|);
    StandsAt(c, rs, 0, tail);
    NothingScanned(base);
    while true
      invariant 0 <= i <= end && AtRecord(c, rs, i, tail, end)
      invariant c.pos == valid && Scanned(base, rs[..i], entries, last, next, valid) && !damaged
      decreases end - i
    {
      var pos := c.pos;
      var r := NextAt(c, rs, i, tail, end);
      if r.End? { break; }
      if r.Failed? {
        damaged := true;
        break;
      }
      ScanPush(base, rs[..i], entries, last, next, valid, r.record);
      assert rs[..i] + [rs[i]] == rs[..i + 1];
      if WantsEntry(last, pos) {
        entries := entries + [(Relative(base, r.record.offset), pos)];
        last := Some(pos);
      }
      next := r.record.offset + 1;
      valid := c.pos;
      i := i + 1;
    }
    SizeIs(crc, rs, tail);
    KeptSize(rs, end);
    ScanDone(base, rs[..end], entries, last, next, valid);
    scan := SegmentScan(entries, next, valid, damaged || valid != |file|, false);
  }

  /** What a scan has accumulated after the records `seen`. */
  ghost predicate Scanned(base: nat, seen: seq<Record>, entries: seq<Entry>, last: Option<nat>, next: nat, valid: nat) {
    && entries == SparseOf(base, seen, 0, None) && last == LastIndexed(seen, 0, None)
    && next == NextAfter(base, seen) && valid == SizeOf(seen)
  }

  lemma NothingScanned(base: nat)
    ensures Scanned(base, [], [], None, base, 0)
  {
  }

  lemma ScanPush(base: nat, seen: seq<Record>, entries: seq<Entry>, last: Option<nat>, next: nat, valid: nat, r: Record)
    requires Scanned(base, seen, entries, last, next, valid)
    ensures var wants := WantsEntry(last, valid);
            Scanned(base, seen + [r], if wants then entries + [(Relative(base, r.offset), valid)] else entries,
                    if wants then Some(valid) else last, r.offset + 1, valid + DiskSize(r))
  {
    hide SparseOf, LastIndexed;
    SparsePush(base, seen, r, 0, None);
    SizeConcat(seen, [r]);
    assert [r][1..] == [];
    assert entries + [] == entries;
  }

  lemma ScanDone(base: nat, seen: seq<Record>, entries: seq<Entry>, last: Option<nat>, next: nat, valid: nat)
    requires Scanned(base, seen, entries, last, next, valid)
    ensures entries == SparseOf(base, seen, 0, None) && next == NextAfter(base, seen) && valid == SizeOf(seen)
  {
  }

  lemma SizeIs(crc: Checksum, rs: seq<Record>, tail: seq<byte>)
    requires AllStorable(rs)
    ensures |EncodeRecords(crc, rs) + tail| == SizeOf(rs) + |tail|
  {
    EncodedSize(crc, rs);
  }

  lemma KeptSize(rs: seq<Record>, k: nat)
    requires k <= |rs|
    ensures SizeOf(rs[..k]) <= SizeOf(rs) && (k < |rs| ==> SizeOf(rs[..k]) < SizeOf(rs)) &&
            (k == |rs| ==> rs[..k] == rs)
  {
    assert rs == rs[..k] + rs[k..];
    SizeConcat(rs[..k], rs[k..]);
  }

  /** What a scan keeps of a log that held `rs` and was cut at `cut`: of its whole records, those it gets to. */
  function CutKept(rs: seq<Record>, cut: nat): (kept: seq<Record>)
    ensures |kept| <= WholeRecords(rs, cut) && kept == rs[..|kept|]
  {
    var whole := rs[..WholeRecords(rs, cut)];
    Scannable(whole, if SizeOf(whole) <= cut then cut - SizeOf(whole) else 0)
  }

  /** A segment whose log was cut at any byte recovers its whole records, as far as the scan gets to them. */
  method ScanCut(crc: Checksum, base: nat, file: seq<byte>, ghost rs: seq<Record>, ghost cut: nat)
    returns (scan: SegmentScan)
    requires AllStorable(rs)
    requires cut <= |EncodeRecords(crc, rs)| && file == EncodeRecords(crc, rs)[..cut]
    ensures var kept := CutKept(rs, cut);
            && scan == FullScan(base, kept, cut) && scan.validBytes <= cut
            && file[..scan.validBytes] == EncodeRecords(crc, kept)
            && (WholeRecords(rs, cut) < |rs| ==> cut < SizeOf(rs[..WholeRecords(rs, cut) + 1]))
  {
    hide EncodeRecords, SparseOf, WholeRecords, Reached;
    ghost var whole := rs[..WholeRecords(rs, cut)];
    ghost var tail := CutFile(crc, rs, cut);
    scan := ScanFull(crc, base, file, whole, tail);
    SizeIs(crc, whole, tail);
    assert |EncodeRecords(crc, rs)[..cut]| == cut;
    WholeFits(rs, cut);
    PrefixBytes(crc, whole, Scannable(whole, |tail|), tail);
  }

  /** The bytes of a first part of the records are the first bytes of the file. */
  lemma PrefixBytes(crc: Checksum, rs: seq<Record>, kept: seq<Record>, tail: seq<byte>)
    requires AllStorable(rs) && |kept| <= |rs| && kept == rs[..|kept|]
    ensures AllStorable(kept) && SizeOf(kept) <= |EncodeRecords(crc, rs) + tail|
    ensures (EncodeRecords(crc, rs) + tail)[..SizeOf(kept)] == EncodeRecords(crc, kept)
  {
    hide EncodeRecords, SizeOf, AllStorable;
    var rest := rs[|kept|..];
    assert rs == kept + rest;
    assert AllStorable(kept) && AllStorable(rest) by { PartsStorable(rs, |kept|); }
    EncodeConcat(crc, kept, rest);
    EncodedSize(crc, kept);
    var k, x := EncodeRecords(crc, kept), EncodeRecords(crc, rest);
    assert (k + x + tail)[..|k|] == k;
  }

  lemma PartsStorable(rs: seq<Record>, k: nat)
    requires AllStorable(rs) && k <= |rs|
    ensures AllStorable(rs[..k]) && AllStorable(rs[k..])
  {
  }

  // ---------- trusting the index of a sealed segment ----------

  ghost predicate EntryFor(base: nat, rs: seq<Record>, e: Entry) {
    exists k: nat :: k < |rs| && e == (Relative(base, rs[k].offset), SizeOf(rs[..k]))
  }

  predicate BothAscend(entries: seq<Entry>) {
    forall i :: 0 <= i < |entries| - 1 ==> entries[i].0 < entries[i + 1].0 && entries[i].1 < entries[i + 1].1
  }

  /** An index of the records: entries of records, in order, that thin to the sparse index. */
  ghost predicate IndexFor(base: nat, rs: seq<Record>, entries: seq<Entry>) {
    && (entries == [] <==> rs == []) && BothAscend(entries)
    && (rs != [] ==> entries[0] == (Relative(base, rs[0].offset), 0))
    && (forall i :: 0 <= i < |entries| ==> EntryFor(base, rs, entries[i]))
    && Thin(entries, None) == SparseOf(base, rs, 0, None)
  }

  lemma {:induction false} DenseEntries(base: nat, rs: seq<Record>, pos: nat, i: nat)
    requires i < |DenseOf(base, rs, pos)|
    ensures |DenseOf(base, rs, pos)| == |rs|
    ensures DenseOf(base, rs, pos)[i] == (Relative(base, rs[i].offset), pos + SizeOf(rs[..i]))
  {
    if i == 0 {
      assert rs[..0] == [];
      if |rs| > 1 { DenseEntries(base, rs[1..], pos + DiskSize(rs[0]), 0); }
    } else {
      DenseEntries(base, rs[1..], pos + DiskSize(rs[0]), i - 1);
      assert rs[..i][1..] == rs[1..][..i - 1];
    }
  }

  /** The index written one entry per record is an index of the records. */
  lemma DenseIsIndex(base: nat, rs: seq<Record>)
    requires Increasing(rs) && AtLeast(rs, base)
    ensures IndexFor(base, rs, DenseOf(base, rs, 0))
  {
    var d := DenseOf(base, rs, 0);
    ThinDense(base, rs, 0, None);
    forall i | 0 <= i < |d| ensures EntryFor(base, rs, d[i]) { DenseEntries(base, rs, 0, i); }
    forall i | 0 <= i < |d| - 1 ensures d[i].0 < d[i + 1].0 && d[i].1 < d[i + 1].1 {
      DenseEntries(base, rs, 0, i);
      DenseEntries(base, rs, 0, i + 1);
      assert rs[..i + 1] == rs[..i] + [rs[i]];
      SizeConcat(rs[..i], [rs[i]]);
    }
  }

  lemma {:induction false} SparseBeyond(base: nat, rs: seq<Record>, pos: nat, last: Option<nat>, i: nat)
    requires i < |SparseOf(base, rs, pos, last)|
    ensures pos <= SparseOf(base, rs, pos, last)[i].1
  {
    if WantsEntry(last, pos) {
      if i > 0 { SparseBeyond(base, rs[1..], pos + DiskSize(rs[0]), Some(pos), i - 1); }
    } else {
      SparseBeyond(base, rs[1..], pos + DiskSize(rs[0]), last, i);
    }
  }

  lemma {:induction false} SparseSpaced(base: nat, rs: seq<Record>, pos: nat, last: Option<nat>)
    ensures forall i :: 0 <= i < |SparseOf(base, rs, pos, last)| - 1 ==>
              SparseOf(base, rs, pos, last)[i].1 < SparseOf(base, rs, pos, last)[i + 1].1
  {
    if rs != [] {
      var next := pos + DiskSize(rs[0]);
      if WantsEntry(last, pos) {
        SparseSpaced(base, rs[1..], next, Some(pos));
        if SparseOf(base, rs[1..], next, Some(pos)) != [] { SparseBeyond(base, rs[1..], next, Some(pos), 0); }
      } else {
        SparseSpaced(base, rs[1..], next, last);
      }
    }
  }

  /** So is the sparse one. */
  lemma SparseIsIndex(base: nat, rs: seq<Record>)
    requires Increasing(rs) && AtLeast(rs, base)
    ensures IndexFor(base, rs, SparseOf(base, rs, 0, None))
  {
    var d := SparseOf(base, rs, 0, None);
    ThinSparse(base, rs, 0, None);
    SparseAscends(base, rs, 0, None);
    SparseSpaced(base, rs, 0, None);
    forall i | 0 <= i < |d| ensures EntryFor(base, rs, d[i]) { var k := EntryOfRecord(base, rs, 0, None, d[i]); }
  }

  /** Walks the records from the last index entry: the last of them, if they run to the end of the file and in reach. */
  method WalkTail(crc: Checksum, base: nat, file: seq<byte>, start: nat, rel: nat, ghost rs: seq<Record>)
    returns (last: Option<Record>)
    requires AllStorable(rs) && rs != [] && base <= rs[0].offset && rel == rs[0].offset - base
    requires start <= |file| && file[start..] == EncodeRecords(crc, rs)
    ensures last == if Reached(rs, 0, READ_WINDOW_BYTES, 0) == |rs| then Some(rs[|rs| - 1]) else None
  {
    hide AtRecord, EncodeRecords, TornTail, Reached;
    var c := new RecordCursor(crc, file, start, |file|, READ_WINDOW_BYTES);
    last := None;
    var first := true;
    ghost var i := 0;
    assert rs[0..] == rs && EncodeRecords(crc, rs) + [] == EncodeRecords(crc, rs);
    NoTail(crc);
    ghost var end := Reached(rs, 0, READ_WINDOW_BYTES, 0);
    StandsAt(c, rs, 0, []);
    while true
      invariant 0 <= i <= end && AtRecord(c, rs, i, [], end) && c.limit == |file|
      invariant (first <==> i == 0) && (0 < i ==> last == Some(rs[i - 1]))
      decreases end - i
    {
      if i == |rs| { EndReached(c, rs, end); }
      var r := NextAt(c, rs, i, [], end);
      if r.End? { break; }
      if r.Failed? { return None; }
      if first && (r.record.offset < base || r.record.offset - base != rel) { return None; }
      first := false;
      last := Some(r.record);
      i := i + 1;
    }
    if c.pos != |file| { return None; }
  }

  /**
   The index of a sealed segment is trusted: it is there, and the reader gets to the first and to the last
   records.
   */
  ghost predicate Trusted(rs: seq<Record>, index: Option<seq<Entry>>) {
    && index.Some?
    && (rs == [] ||
        (index.value != [] && !Missed(rs[0], 0, MIN_WINDOW) && TailReached(rs, index.value[|index.value| - 1].1)))
  }

  ghost predicate TailReached(rs: seq<Record>, pos: nat) {
    var k := WholeRecords(rs, pos); Readable(rs[k..], |rs| - k, 0, READ_WINDOW_BYTES, 0)
  }

  /**
   Recovers a sealed segment from its index. Given an index of the records it agrees with a full scan
   that gets to everything, and it gives up exactly when the index is missing or the reader does not get
   to the first record in the smallest window, or to those after the last entry.
   */
  method ScanTrusted(crc: Checksum, base: nat, file: seq<byte>, index: Option<seq<Entry>>, ghost rs: seq<Record>)
    returns (r: Option<SegmentScan>)
    requires AllStorable(rs) && Increasing(rs) && AtLeast(rs, base)
    requires file == EncodeRecords(crc, rs) && (index.Some? ==> IndexFor(base, rs, index.value))
    ensures r.Some? ==> r.value == FullScan(base, rs, |file|).(trusted := true)
    ensures r.Some? <==> Trusted(rs, index)
  {
    hide EncodeRecords, SparseOf, AllStorable, EntryFor, Thin, Increasing, AtLeast, Reached, Missed, SizeOf, BothAscend,
         TailReached;
    if index.None? { return None; }
    var entries := index.value;
    SizeIs(crc, rs, []);
    assert file + [] == file;
    SizeZero(rs);
    if |file| == 0 {
      NothingScanned(base);
      return Some(SegmentScan([], base, 0, false, true));
    }
    if entries[0].1 != 0 { return None; }
    var ascends := CheckAscends(entries);
    if !ascends { return None; }
    var (lastRel, lastPos) := entries[|entries| - 1];
    ghost var k := LastEntry(crc, base, rs, entries);
    if |file| <= lastPos { return None; }
    var first := ReadsFirst(crc, base, file, entries[0].0, rs);
    if !first { return None; }
    TailStart(base, rs, k, lastPos);
    var last := WalkTail(crc, base, file, lastPos, lastRel, rs[k..]);
    if last.None? { return None; }
    var thin := ThinIndex(entries);
    r := Some(SegmentScan(thin, last.value.offset + 1, |file|, false, true));
  }

  /** The first record, read with the smallest window, is where the index says. */
  method ReadsFirst(crc: Checksum, base: nat, file: seq<byte>, rel: nat, ghost rs: seq<Record>) returns (ok: bool)
    requires AllStorable(rs) && AtLeast(rs, base) && rs != [] && file == EncodeRecords(crc, rs) &&
             rel == Relative(base, rs[0].offset)
    ensures ok <==> !Missed(rs[0], 0, MIN_WINDOW)
  {
    hide EncodeRecords, NextOf, Advance, Missed, HaveAfter;
    var c := new RecordCursor(crc, file, 0, |file|, MIN_WINDOW);
    assert file[0..|file|] == file;
    FirstRead(crc, rs);
    var first := c.NextRecord();
    if !first.Got? { return false; }
    ok := base <= first.record.offset && first.record.offset - base == rel;
  }

  lemma TailStart(base: nat, rs: seq<Record>, k: nat, pos: nat)
    requires AllStorable(rs) && AtLeast(rs, base) && k < |rs| && pos == SizeOf(rs[..k])
    ensures AllStorable(rs[k..]) && base <= rs[k].offset && Relative(base, rs[k].offset) == rs[k].offset - base
    ensures TailReached(rs, pos) <==> Reached(rs[k..], 0, READ_WINDOW_BYTES, 0) == |rs[k..]|
  {
    hide Reached, Readable;
    WholeAt(rs, k);
    ReachedExactly(rs[k..], |rs| - k, 0, READ_WINDOW_BYTES, 0);
  }

  lemma SizeZero(rs: seq<Record>)
    ensures SizeOf(rs) == 0 <==> rs == []
  {
  }

  method CheckAscends(entries: seq<Entry>) returns (ok: bool)
    ensures ok <==> BothAscend(entries)
  {
    var i := 0;
    while i + 1 < |entries|
      invariant 0 <= i && (i < |entries| || (i == 0 && entries == []))
      invariant forall k :: 0 <= k < i ==> entries[k].0 < entries[k + 1].0 && entries[k].1 < entries[k + 1].1
    {
      if entries[i + 1].0 <= entries[i].0 || entries[i + 1].1 <= entries[i].1 { return false; }
      i := i + 1;
    }
    ok := true;
  }

  lemma LastEntry(crc: Checksum, base: nat, rs: seq<Record>, entries: seq<Entry>) returns (k: nat)
    requires IndexFor(base, rs, entries) && entries != [] && AllStorable(rs)
    ensures k < |rs| && entries[|entries| - 1] == (Relative(base, rs[k].offset), SizeOf(rs[..k]))
    ensures SizeOf(rs[..k]) < SizeOf(rs) && |EncodeRecords(crc, rs)| == SizeOf(rs)
    ensures EncodeRecords(crc, rs)[SizeOf(rs[..k])..] == EncodeRecords(crc, rs[k..])
  {
    assert EntryFor(base, rs, entries[|entries| - 1]);
    k :| k < |rs| && entries[|entries| - 1] == (Relative(base, rs[k].offset), SizeOf(rs[..k]));
    FileFrom(crc, rs, k);
  }

  lemma FirstRead(crc: Checksum, rs: seq<Record>)
    requires AllStorable(rs) && rs != []
    ensures var next := NextOf(crc, EncodeRecords(crc, rs), 0, MIN_WINDOW);
            if Missed(rs[0], 0, MIN_WINDOW) then next.Failed? else next == Got(rs[0])
  {
    hide NextOf, Advance, Missed, EncodeRecords;
    GivesNext(crc, rs, [], 0, MIN_WINDOW);
    assert EncodeRecords(crc, rs) + [] == EncodeRecords(crc, rs);
  }

  // ---------- the whole partition ----------

  /** The two files of one segment; no index when its file is missing or malformed. */
  datatype Files = Files(base: nat, log: seq<byte>, index: Option<seq<Entry>>)

  datatype Recovered = Recovered(segments: seq<Segment>, nextOffset: nat, lastIndexPos: Option<nat>)

  ghost predicate Recoverable(rs: seq<Record>, base: nat) {
    AllStorable(rs) && Increasing(rs) && AtLeast(rs, base)
  }

  /** The files of a sealed segment that holds `rs`, with an index of them or none. */
  ghost predicate Intact(crc: Checksum, f: Files, rs: seq<Record>) {
    Recoverable(rs, f.base) && f.log == EncodeRecords(crc, rs) &&
    (f.index.Some? ==> IndexFor(f.base, rs, f.index.value))
  }

  /** The files of an active segment that held `rs`, cut at some byte. */
  ghost predicate CutShort(crc: Checksum, f: Files, rs: seq<Record>, cut: nat) {
    Recoverable(rs, f.base) && cut <= |EncodeRecords(crc, rs)| && f.log == EncodeRecords(crc, rs)[..cut]
  }

  /** A directory of sealed segments and an active one that may be torn. */
  ghost predicate Directory(crc: Checksum, files: seq<Files>, lists: seq<seq<Record>>, cut: nat) {
    && |files| == |lists|
    && (forall i, j :: 0 <= i < j < |files| ==> files[i].base < files[j].base)
    && (forall i :: 0 <= i < |files| - 1 ==> Intact(crc, files[i], lists[i]) && Below(lists[i], files[i + 1].base))
    && (files != [] ==> CutShort(crc, files[|files| - 1], lists[|lists| - 1], cut))
  }

  /** What is left of a sealed segment: everything if its index is trusted, else what a scan gets to. */
  ghost function SealedKept(f: Files, rs: seq<Record>): (kept: seq<Record>)
    ensures |kept| <= |rs| && kept == rs[..|kept|]
  {
    if Trusted(rs, f.index) then assert rs == rs[..|rs|]; rs else Scannable(rs, 0)
  }

  /** What is left of the `i`th segment. */
  ghost function KeptAt(files: seq<Files>, lists: seq<seq<Record>>, cut: nat, i: nat): (kept: seq<Record>)
    requires |files| == |lists| && i < |lists|
    ensures |kept| <= |lists[i]| && kept == lists[i][..|kept|]
  {
    if i < |lists| - 1 then SealedKept(files[i], lists[i]) else CutKept(lists[i], cut)
  }

  ghost function Kept(files: seq<Files>, lists: seq<seq<Record>>, cut: nat): (kept: seq<seq<Record>>)
    requires |files| == |lists|
    ensures |kept| == Max(|lists|, 1)
  {
    if lists == [] then [[]] else seq(|lists|, i requires 0 <= i < |lists| => KeptAt(files, lists, cut, i))
  }

  lemma KeptIs(files: seq<Files>, lists: seq<seq<Record>>, cut: nat, i: nat)
    requires |files| == |lists| && i < |lists|
    ensures Kept(files, lists, cut)[i] ==
              if i < |lists| - 1 then SealedKept(files[i], lists[i]) else CutKept(lists[i], cut)
  {
  }

  /** A sealed segment: its own index if it can be trusted, a full scan otherwise. */
  method RecoverSealed(crc: Checksum, f: Files, ghost rs: seq<Record>) returns (scan: SegmentScan)
    requires Intact(crc, f, rs)
    ensures scan.(trusted := false) == FullScan(f.base, SealedKept(f, rs), |f.log|)
  {
    hide EncodeRecords, SparseOf, IndexFor, Scannable, Trusted;
    var trusted := ScanTrusted(crc, f.base, f.log, f.index, rs);
    SizeIs(crc, rs, []);
    assert f.log + [] == f.log && EncodeRecords(crc, rs) + [] == f.log;
    if trusted.Some? {
      scan := trusted.value;
    } else {
      NoTail(crc);
      scan := ScanFull(crc, f.base, f.log, rs, []);
    }
  }

  lemma {:induction false} LastEntryPos(base: nat, rs: seq<Record>, pos: nat, last: Option<nat>)
    ensures var d := SparseOf(base, rs, pos, last);
            LastIndexed(rs, pos, last) == if d == [] then last else Some(d[|d| - 1].1)
  {
    if rs != [] {
      LastEntryPos(base, rs[1..], pos + DiskSize(rs[0]), if WantsEntry(last, pos) then Some(pos) else last);
    }
  }

  /** A recovered segment holds what is left of its records. */
  lemma PartHolds(crc: Checksum, base: nat, log: seq<byte>, rs: seq<Record>, kept: seq<Record>, scan: SegmentScan)
    requires Recoverable(rs, base) && |kept| <= |rs| && kept == rs[..|kept|]
    requires scan.(trusted := false) == FullScan(base, kept, |log|)
    requires AllStorable(kept) && scan.validBytes <= |log| && log[..scan.validBytes] == EncodeRecords(crc, kept)
    ensures Holds(crc, Segment(base, log[..scan.validBytes], scan.entries), kept) &&
            scan.nextOffset == NextAfter(base, kept)
    ensures LastIndexed(kept, 0, None) ==
              (if scan.entries == [] then None else Some(scan.entries[|scan.entries| - 1].1))
  {
    hide EncodeRecords, SparseOf, LastIndexed, Increasing, AtLeast, AllStorable, SizeOf;
    PartSorted(rs, kept, base);
    LastEntryPos(base, kept, 0, None);
  }

  lemma PartSorted(rs: seq<Record>, kept: seq<Record>, base: nat)
    requires Increasing(rs) && AtLeast(rs, base) && |kept| <= |rs| && kept == rs[..|kept|]
    ensures Increasing(kept) && AtLeast(kept, base)
  {
  }

  lemma SealedHolds(crc: Checksum, f: Files, rs: seq<Record>, scan: SegmentScan)
    requires Intact(crc, f, rs) && scan.(trusted := false) == FullScan(f.base, SealedKept(f, rs), |f.log|)
    ensures var kept := SealedKept(f, rs);
            && scan.validBytes <= |f.log| && Holds(crc, Segment(f.base, f.log[..scan.validBytes], scan.entries), kept)
            && scan.nextOffset == NextAfter(f.base, kept)
  {
    hide EncodeRecords, SparseOf, IndexFor, SealedKept, Holds;
    PrefixBytes(crc, rs, SealedKept(f, rs), []);
    assert EncodeRecords(crc, rs) + [] == f.log;
    PartHolds(crc, f.base, f.log, rs, SealedKept(f, rs), scan);
  }

  lemma ActiveHolds(crc: Checksum, f: Files, rs: seq<Record>, cut: nat, scan: SegmentScan)
    requires CutShort(crc, f, rs, cut)
    requires var kept := CutKept(rs, cut);
             && scan == FullScan(f.base, kept, cut) && scan.validBytes <= |f.log|
             && AllStorable(kept) && f.log[..scan.validBytes] == EncodeRecords(crc, kept)
    ensures var kept := CutKept(rs, cut);
            && Holds(crc, Segment(f.base, f.log[..scan.validBytes], scan.entries), kept)
            && scan.nextOffset == NextAfter(f.base, kept)
            && LastIndexed(kept, 0, None) ==
                 (if scan.entries == [] then None else Some(scan.entries[|scan.entries| - 1].1))
  {
    hide EncodeRecords, SparseOf, LastIndexed, CutKept, Holds;
    PartHolds(crc, f.base, f.log, rs, CutKept(rs, cut), scan);
  }

  /** The records of a segment end below the base of the next, so its next offset is no further. */
  lemma NextWithin(base: nat, rs: seq<Record>, end: nat)
    requires Below(rs, end) && base <= end
    ensures NextAfter(base, rs) <= end
  {
  }

  ghost predicate SameBases(segments: seq<Segment>, files: seq<Files>) {
    |segments| == |files| && forall k :: 0 <= k < |segments| ==> segments[k].base == files[k].base
  }

  ghost predicate AllHold(crc: Checksum, segments: seq<Segment>, lists: seq<seq<Record>>) {
    |segments| == |lists| && forall k :: 0 <= k < |segments| ==> Holds(crc, segments[k], lists[k])
  }

  /** The sealed segments, oldest first. */
  method RecoverSealedAll(crc: Checksum, files: seq<Files>, ghost lists: seq<seq<Record>>, ghost cut: nat)
    returns (segments: seq<Segment>, next: nat)
    requires Directory(crc, files, lists, cut) && files != []
    ensures SameBases(segments, files[..|files| - 1]) && AllHold(crc, segments, Kept(files, lists, cut)[..|files| - 1])
    ensures next <= files[|files| - 1].base
  {
    hide Holds, FullScan, Intact, SealedKept, CutKept, Kept, Below, Directory, NextAfter;
    DirectoryBases(crc, files, lists, cut);
    ghost var kept := Kept(files, lists, cut);
    var i := 0;
    segments, next := [], files[0].base;
    while i < |files| - 1
      invariant 0 <= i <= |files| - 1 && SameBases(segments, files[..i]) && AllHold(crc, segments, kept[..i])
      invariant next <= files[i].base
    {
      SealedIntact(crc, files, lists, cut, i);
      KeptIs(files, lists, cut, i);
      var scan := RecoverSealed(crc, files[i], lists[i]);
      SealedHolds(crc, files[i], lists[i], scan);
      BelowPart(lists[i], kept[i], files[i + 1].base);
      NextWithin(files[i].base, kept[i], files[i + 1].base);
      next := Max(next, scan.nextOffset);
      segments := segments + [Segment(files[i].base, files[i].log[..scan.validBytes], scan.entries)];
      i := i + 1;
    }
  }

  lemma RecoveredChain(crc: Checksum, files: seq<Files>, lists: seq<seq<Record>>, cut: nat, sealed: seq<Segment>,
                       active: Segment)
    requires Directory(crc, files, lists, cut) && files != []
    requires SameBases(sealed, files[..|files| - 1]) && AllHold(crc, sealed, Kept(files, lists, cut)[..|files| - 1])
    requires active.base == files[|files| - 1].base && Holds(crc, active, Kept(files, lists, cut)[|lists| - 1])
    ensures var kept := Kept(files, lists, cut);
            Chained(crc, sealed + [active], kept, NextAfter(active.base, kept[|lists| - 1])) &&
            SameBases(sealed + [active], files)
  {
    hide Holds, Directory, Kept, Below;
    DirectoryBases(crc, files, lists, cut);
    var kept, segments, n := Kept(files, lists, cut), sealed + [active], |lists| - 1;
    var next := NextAfter(active.base, kept[n]);
    HoldsBelow(crc, active, kept[n]);
    forall k | 0 <= k < |segments|
      ensures Holds(crc, segments[k], kept[k]) && Below(kept[k], EndOf(segments, k, next))
    {
      if k < n {
        assert Holds(crc, sealed[k], kept[..n][k]);
        KeptBelow(crc, files, lists, cut, k);
        assert segments[k + 1].base == files[k + 1].base;
      }
    }
  }

  lemma DirectoryBases(crc: Checksum, files: seq<Files>, lists: seq<seq<Record>>, cut: nat)
    requires Directory(crc, files, lists, cut)
    ensures |files| == |lists| && forall i, j :: 0 <= i < j < |files| ==> files[i].base < files[j].base
  {
  }

  lemma KeptBelow(crc: Checksum, files: seq<Files>, lists: seq<seq<Record>>, cut: nat, k: nat)
    requires Directory(crc, files, lists, cut) && k + 1 < |files|
    ensures Below(Kept(files, lists, cut)[k], files[k + 1].base)
  {
    hide Intact, CutShort, SealedKept, CutKept, Kept;
    KeptIs(files, lists, cut, k);
    assert Below(lists[k], files[k + 1].base);
  }

  lemma BelowPart(rs: seq<Record>, kept: seq<Record>, end: nat)
    requires Below(rs, end) && |kept| <= |rs| && kept == rs[..|kept|]
    ensures Below(kept, end)
  {
  }

  /**
   Opens a partition directory: of every segment what recovery gets to is as it was, whatever byte the
   active log was cut at.
   */
  method RecoverPartition(crc: Checksum, files: seq<Files>, ghost lists: seq<seq<Record>>, ghost cut: nat)
    returns (rec: Recovered)
    requires Directory(crc, files, lists, cut)
    ensures var kept := Kept(files, lists, cut); var n := |rec.segments| - 1;
            && Chained(crc, rec.segments, kept, rec.nextOffset)
            && rec.nextOffset == NextAfter(rec.segments[n].base, kept[n])
            && rec.lastIndexPos == LastIndexed(kept[n], 0, None)
    ensures files != [] ==> SameBases(rec.segments, files)
  {
    hide Holds, LastIndexed, FullScan, WholeRecords, Chained, CutShort, CutKept, Kept, Directory, AllHold,
         EncodeRecords, Below;
    DirectoryBases(crc, files, lists, cut);
    if files == [] {
      assert Kept(files, lists, cut) == [[]] by { NothingKept(files, cut); }
      EmptyChain(crc);
      return Recovered([Segment(0, [], [])], 0, None);
    }
    var sealed, next := RecoverSealedAll(crc, files, lists, cut);
    var f := files[|files| - 1];
    ghost var rs := lists[|lists| - 1];
    assert CutShort(crc, f, rs, cut) by { ActiveCut(crc, files, lists, cut); }
    CutIsRecoverable(crc, f, rs, cut);
    var scan := ScanCut(crc, f.base, f.log, rs, cut);
    ActiveHolds(crc, f, rs, cut, scan);
    var active := Segment(f.base, f.log[..scan.validBytes], scan.entries);
    KeptIs(files, lists, cut, |lists| - 1);
    RecoveredChain(crc, files, lists, cut, sealed, active);
    HoldsBelow(crc, active, CutKept(rs, cut));
    rec := Recovered(sealed + [active], Max(next, scan.nextOffset),
                     if scan.entries == [] then None else Some(scan.entries[|scan.entries| - 1].1));
  }

  lemma SealedIntact(crc: Checksum, files: seq<Files>, lists: seq<seq<Record>>, cut: nat, i: nat)
    requires Directory(crc, files, lists, cut) && i + 1 < |files|
    ensures Intact(crc, files[i], lists[i]) && Below(lists[i], files[i + 1].base)
  {
  }

  lemma NothingKept(files: seq<Files>, cut: nat)
    requires files == []
    ensures Kept(files, [], cut) == [[]]
  {
  }

  lemma ActiveCut(crc: Checksum, files: seq<Files>, lists: seq<seq<Record>>, cut: nat)
    requires Directory(crc, files, lists, cut) && files != []
    ensures CutShort(crc, files[|files| - 1], lists[|lists| - 1], cut)
  {
  }

  /** Opens a partition on a directory, ready to append after the last record recovered. */
  method OpenPartition(crc: Checksum, segmentBytes: nat, files: seq<Files>, ghost lists: seq<seq<Record>>,
                       ghost cut: nat)
    returns (p: Partition)
    requires Directory(crc, files, lists, cut)
    ensures fresh(p) && p.Valid() && p.Contents() == Flat(Kept(files, lists, cut)) && p.segmentBytes == segmentBytes
    ensures files != [] ==> p.startOffset == files[0].base
    ensures forall r :: r in p.Contents() ==> r.offset < p.nextOffset
  {
    hide Chained, Holds, LastIndexed, Kept, Flat, Directory, NextAfter, Partition.Valid;
    var rec := RecoverPartition(crc, files, lists, cut);
    DirectoryBases(crc, files, lists, cut);
    ghost var kept := Kept(files, lists, cut);
    assert |rec.segments| == |kept| && 0 < |kept| by { ChainedLength(crc, rec.segments, kept, rec.nextOffset); }
    assert rec.segments[|rec.segments| - 1].base <= rec.nextOffset by {
      ChainedLast(crc, rec.segments, kept, rec.nextOffset);
    }
    p := new Partition.Reopen(crc, segmentBytes, rec.segments, rec.nextOffset, rec.lastIndexPos, kept);
    ChainedEnds(crc, rec.segments, kept, rec.nextOffset);
  }

  lemma ChainedLast(crc: Checksum, segments: seq<Segment>, lists: seq<seq<Record>>, next: nat)
    requires Chained(crc, segments, lists, next) &&
             next == NextAfter(segments[|segments| - 1].base, lists[|segments| - 1])
    ensures segments[|segments| - 1].base <= next
  {
    hide Holds;
    var n := |segments| - 1;
    assert Holds(crc, segments[n], lists[n]);
    HoldsBelow(crc, segments[n], lists[n]);
  }

  lemma ChainedEnds(crc: Checksum, segments: seq<Segment>, lists: seq<seq<Record>>, next: nat)
    requires Chained(crc, segments, lists, next) && segments[|segments| - 1].base <= next
    ensures forall r :: r in Flat(lists) ==> r.offset < next
  {
    hide Flat, Holds;
    var n := |lists| - 1;
    ChainedOrdered(crc, segments, lists, next);
    FlatIncreasing(Bases(segments), lists, n);
    FlatPush(lists, n);
    assert lists[..n + 1] == lists;
    assert Below(lists[n], EndOf(segments, n, next));
  }

  lemma EmptyChain(crc: Checksum)
    ensures Chained(crc, [Segment(0, [], [])], [[]], 0) && LastIndexed([], 0, None) == None
  {
    NothingHeld(crc, 0);
  }

  lemma CutIsRecoverable(crc: Checksum, f: Files, rs: seq<Record>, cut: nat)
    requires CutShort(crc, f, rs, cut)
    ensures AllStorable(rs)
    ensures cut <= |EncodeRecords(crc, rs)| && f.log == EncodeRecords(crc, rs)[..cut] && |f.log| == cut
  {
  }

  lemma HoldsBelow(crc: Checksum, seg: Segment, rs: seq<Record>)
    requires Holds(crc, seg, rs)
    ensures Below(rs, NextAfter(seg.base, rs)) && seg.base <= NextAfter(seg.base, rs)
  {
    if rs != [] { assert rs[|rs| - 1].offset < NextAfter(seg.base, rs); }
  }

  // ---------- when nothing is lost ----------

  /** What recovery should keep: everything sealed, and the whole records of the active segment. */
  ghost function Whole(lists: seq<seq<Record>>, cut: nat): seq<seq<Record>> {
    if lists == [] then [[]] else lists[|lists| - 1 := lists[|lists| - 1][..WholeRecords(lists[|lists| - 1], cut)]]
  }

  /**
   Recovery misses nothing: no record of a sealed segment whose index is not trusted, and none of the whole
   records of the active one.
   */
  ghost predicate GetsTo(files: seq<Files>, lists: seq<seq<Record>>, cut: nat)
    requires |files| == |lists|
  {
    && (forall i ::
          0 <= i < |lists| - 1 ==>
            Trusted(lists[i], files[i].index) || Readable(lists[i], |lists[i]|, 0, READ_WINDOW_BYTES, 0))
    && (lists != [] ==> TailReadable(lists[|lists| - 1], cut))
  }

  /** None of the whole records before the cut is missed, with what is left of the next one behind them. */
  ghost predicate TailReadable(rs: seq<Record>, cut: nat) {
    var whole := rs[..WholeRecords(rs, cut)];
    Readable(whole, |whole|, 0, READ_WINDOW_BYTES, if SizeOf(whole) <= cut then cut - SizeOf(whole) else 0)
  }

  lemma ScansAll(rs: seq<Record>)
    ensures |Scannable(rs, 0)| == |rs| <==> Readable(rs, |rs|, 0, READ_WINDOW_BYTES, 0)
  {
    hide Reached, Readable;
    ReachedExactly(rs, |rs|, 0, READ_WINDOW_BYTES, 0);
  }

  lemma CutKeepsAll(rs: seq<Record>, cut: nat)
    ensures |CutKept(rs, cut)| == WholeRecords(rs, cut) <==> TailReadable(rs, cut)
  {
    hide Reached, Readable, WholeRecords;
    var whole := rs[..WholeRecords(rs, cut)];
    ReachedExactly(whole, |whole|, 0, READ_WINDOW_BYTES, if SizeOf(whole) <= cut then cut - SizeOf(whole) else 0);
  }

  /**
   Recovery keeps every sealed record and every whole record of the active segment if and only if it misses
   none of them, record by record.
   */
  lemma RecoveryKeepsAll(files: seq<Files>, lists: seq<seq<Record>>, cut: nat)
    requires |files| == |lists|
    ensures Kept(files, lists, cut) == Whole(lists, cut) <==> GetsTo(files, lists, cut)
  {
    hide Scannable, CutKept, Trusted, WholeRecords, Kept, Readable, TailReadable;
    if lists == [] {
      assert Kept(files, lists, cut) == [[]] by { NothingKept(files, cut); }
    } else {
      var kept, whole, n := Kept(files, lists, cut), Whole(lists, cut), |lists| - 1;
      KeptIs(files, lists, cut, n);
      CutKeepsAll(lists[n], cut);
      forall i | 0 <= i < n
        ensures kept[i] == whole[i] <==>
                Trusted(lists[i], files[i].index) || Readable(lists[i], |lists[i]|, 0, READ_WINDOW_BYTES, 0)
      {
        KeptIs(files, lists, cut, i);
        ScansAll(lists[i]);
        assert lists[i][..|lists[i]|] == lists[i];
      }
      if GetsTo(files, lists, cut) {
        assert forall i :: 0 <= i < |lists| ==> kept[i] == whole[i];
      }
    }
  }

  /** It does when no record is longer than the recovery window. */
  lemma SmallRecordsKept(files: seq<Files>, lists: seq<seq<Record>>, cut: nat)
    requires |files| == |lists| && forall i :: 0 <= i < |lists| ==> AllWithin(lists[i], READ_WINDOW_BYTES)
    ensures Kept(files, lists, cut) == Whole(lists, cut)
  {
    hide Trusted, WholeRecords, Missed, HaveAt;
    RecoveryKeepsAll(files, lists, cut);
    forall i | 0 <= i < |lists| ensures Readable(lists[i], |lists[i]|, 0, READ_WINDOW_BYTES, 0) {
      SmallReadable(lists[i], 0, READ_WINDOW_BYTES, 0);
    }
    if lists != [] {
      var rs := lists[|lists| - 1];
      var whole := rs[..WholeRecords(rs, cut)];
      SmallReadable(whole, 0, READ_WINDOW_BYTES, if SizeOf(whole) <= cut then cut - SizeOf(whole) else 0);
    }
  }

  /** A record of 300 KiB, alone and whole in the active segment, is cut off by recovery. */
  lemma LongRecordCutOff(v: seq<byte>)
    requires |v| == 300 * 1024
    ensures var r := Record(0, 0, None, v);
            && Storable(r) && Legible(r) && WholeRecords([r], DiskSize(r)) == 1 && CutKept([r], DiskSize(r)) == []
  {
    var r := Record(0, 0, None, v);
    var rs := [r];
    assert rs[1..] == [] && WholeRecords(rs, DiskSize(r)) == 1 && rs[..1] == rs;
    assert Missed(rs[0], 0, READ_WINDOW_BYTES);
    assert Reached(rs, 0, READ_WINDOW_BYTES, 0) == 0;
    assert SizeOf(rs) == DiskSize(r);
  }
}
