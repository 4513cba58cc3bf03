/**
 Compaction and recovery seen through the files: whatever stops the swap of files and the recovery that
 follows, the directory then holds exactly the records before the compaction or those after it.
 */
module CompactionFiles {
  import opened Basics
  import opened Bytes
  import opened StorageRecord
  import opened StorageIndex
  import opened StorageSegment
  import opened StorageScan
  import opened StoragePartition
  import opened StorageRecovery
  import opened Compaction
  import W = CompactionSwap

  // ---------- index files ----------

  const INDEX_ENTRY_LEN: nat := 16

  /** Relative offset and file position of every entry, eight bytes each. */
  function IndexBytes(entries: seq<Entry>): (b: seq<byte>)
    ensures |b| == INDEX_ENTRY_LEN * |entries|
  {
    if entries == [] then [] else Be(entries[0].0, 8) + Be(entries[0].1, 8) + IndexBytes(entries[1..])
  }

  function ReadEntries(b: seq<byte>): seq<Entry> {
    if |b| < INDEX_ENTRY_LEN then [] else [(FromBe(b[..8]), FromBe(b[8..16]))] + ReadEntries(b[16..])
  }

  /** The entries of an index file; none when its size is off. */
  function LoadIndex(b: seq<byte>): Option<seq<Entry>> {
    if |b| % INDEX_ENTRY_LEN != 0 then None else Some(ReadEntries(b))
  }

  predicate EntryFits(e: Entry) {
    e.0 < 0x1_0000_0000_0000_0000 && e.1 < 0x1_0000_0000_0000_0000
  }

  lemma {:induction false} EntriesBack(entries: seq<Entry>)
    requires forall i :: 0 <= i < |entries| ==> EntryFits(entries[i])
    ensures ReadEntries(IndexBytes(entries)) == entries
  {
    if entries != [] {
      hide FromBe, Be;
      var e, rest := entries[0], IndexBytes(entries[1..]);
      var b := Be(e.0, 8) + Be(e.1, 8) + rest;
      Widths();
      BeRoundTrip(e.0, 8);
      BeRoundTrip(e.1, 8);
      assert b[..8] == Be(e.0, 8) && b[8..16] == Be(e.1, 8) && b[16..] == rest;
      EntriesBack(entries[1..]);
    }
  }

  /** An index file reads back as what was written. */
  lemma IndexRoundTrip(entries: seq<Entry>)
    requires forall i :: 0 <= i < |entries| ==> EntryFits(entries[i])
    ensures LoadIndex(IndexBytes(entries)) == Some(entries)
  {
    hide IndexBytes, ReadEntries, EntryFits;
    EntriesBack(entries);
    WholeEntries(|entries|);
  }

  lemma WholeEntries(n: nat)
    ensures INDEX_ENTRY_LEN * n % INDEX_ENTRY_LEN == 0
  {
  }

  lemma {:induction false} SparseFits(base: nat, rs: seq<Record>, pos: nat, last: Option<nat>, i: nat)
    requires AllStorable(rs) && pos + SizeOf(rs) < 0x1_0000_0000_0000_0000 && i < |SparseOf(base, rs, pos, last)|
    ensures EntryFits(SparseOf(base, rs, pos, last)[i])
  {
    assert Storable(rs[0]);
    if WantsEntry(last, pos) {
      if i > 0 { SparseFits(base, rs[1..], pos + DiskSize(rs[0]), Some(pos), i - 1); }
    } else {
      SparseFits(base, rs[1..], pos + DiskSize(rs[0]), last, i);
    }
  }

  // ---------- a directory as a list of segments ----------

  /** The two files of the segment at `base`, as recovery opens them. */
  function OpenFiles(files: map<W.Name, seq<byte>>, base: nat): Files
    requires W.LogFile(base) in files
  {
    Files(base, files[W.LogFile(base)],
          if W.IndexFile(base) in files then LoadIndex(files[W.IndexFile(base)]) else None)
  }

  /** The segments of a directory: one for each log file, by rising base. */
  ghost predicate Lists(files: map<W.Name, seq<byte>>, fs: seq<Files>) {
    && (forall i, j :: 0 <= i < j < |fs| ==> fs[i].base < fs[j].base)
    && (forall i :: 0 <= i < |fs| ==> W.LogFile(fs[i].base) in files && fs[i] == OpenFiles(files, fs[i].base))
    && (forall b :: W.LogFile(b) in files ==> HasBase(fs, b))
  }

  ghost predicate HasBase(fs: seq<Files>, b: nat) {
    exists i :: 0 <= i < |fs| && fs[i].base == b
  }

  predicate Rising(bs: seq<nat>) {
    forall i, j :: 0 <= i < j < |bs| ==> bs[i] < bs[j]
  }

  lemma {:induction false} RisingOnce(a: seq<nat>, b: seq<nat>)
    requires Rising(a) && Rising(b) && forall x :: x in a <==> x in b
    ensures a == b
  {
    assert a == [] ==> b == [] by {
      if b != [] { assert b[0] in b; }
    }
    if a != [] {
      assert a[0] in b;
      assert b[0] in a;
      forall x ensures x in a[1..] <==> x in b[1..] {
        TailHas(a, x);
        TailHas(b, x);
      }
      RisingOnce(a[1..], b[1..]);
      assert a == [a[0]] + a[1..] && b == [b[0]] + b[1..];
    }
  }

  lemma TailHas(a: seq<nat>, x: nat)
    requires Rising(a) && a != []
    ensures x in a[1..] <==> x in a && x != a[0]
    ensures x in a ==> a[0] <= x
  {
    if x in a && x != a[0] {
      var i :| 0 <= i < |a| && a[i] == x;
      assert a[1..][i - 1] == x;
    }
  }

  function BasesIn(fs: seq<Files>): (bs: seq<nat>)
    ensures |bs| == |fs| && forall i :: 0 <= i < |fs| ==> bs[i] == fs[i].base
  {
    seq(|fs|, i requires 0 <= i < |fs| => fs[i].base)
  }

  lemma ListedBases(files: map<W.Name, seq<byte>>, fs: seq<Files>, b: nat)
    requires Lists(files, fs)
    ensures b in BasesIn(fs) <==> W.LogFile(b) in files
    ensures Rising(BasesIn(fs))
  {
    hide OpenFiles;
    if W.LogFile(b) in files {
      assert HasBase(fs, b);
      var i :| 0 <= i < |fs| && fs[i].base == b;
      assert BasesIn(fs)[i] == b;
    }
  }

  /** A directory lists in one way only. */
  lemma ListedSame(files: map<W.Name, seq<byte>>, fs: seq<Files>, gs: seq<Files>)
    requires Lists(files, fs) && Lists(files, gs)
    ensures fs == gs
  {
    hide HasBase, Rising, OpenFiles;
    forall b ensures b in BasesIn(fs) <==> b in BasesIn(gs) {
      ListedBases(files, fs, b);
      ListedBases(files, gs, b);
    }
    ListedBases(files, fs, 0);
    ListedBases(files, gs, 0);
    RisingOnce(BasesIn(fs), BasesIn(gs));
    forall i | 0 <= i < |fs| ensures fs[i] == gs[i] { assert BasesIn(fs)[i] == BasesIn(gs)[i]; }
  }

  // ---------- the swap ----------

  function SealedBases(fs: seq<Files>): seq<nat> {
    if |fs| <= 1 then [] else [fs[0].base] + SealedBases(fs[1..])
  }

  lemma {:induction false} SealedBasesAre(fs: seq<Files>, b: nat)
    ensures b in SealedBases(fs) <==> exists i :: 0 <= i < |fs| - 1 && fs[i].base == b
  {
    if |fs| > 1 {
      SealedBasesAre(fs[1..], b);
      if b in SealedBases(fs[1..]) {
        var i :| 0 <= i < |fs[1..]| - 1 && fs[1..][i].base == b;
        assert fs[i + 1].base == b;
      }
      if i :| 0 <= i < |fs| - 1 && fs[i].base == b {
        if i > 0 { assert fs[1..][i - 1].base == b; }
      }
    }
  }

  /** The swap that puts `seg` in the place of the sealed segments of a directory. */
  function PlanFor(fs: seq<Files>, seg: Segment): W.Plan
    requires fs != []
  {
    W.Plan(fs[0].base, SealedBases(fs[1..]), seg.log, IndexBytes(seg.index))
  }

  /** The segments after the swap. */
  function After(fs: seq<Files>, seg: Segment): seq<Files>
    requires fs != []
  {
    [Files(fs[0].base, seg.log, Some(seg.index)), fs[|fs| - 1]]
  }

  lemma VictimsAre(fs: seq<Files>, b: nat)
    requires fs != []
    ensures b in SealedBases(fs[1..]) <==> exists i :: 0 < i < |fs| - 1 && fs[i].base == b
  {
    SealedBasesAre(fs[1..], b);
    if i :| 0 < i < |fs| - 1 && fs[i].base == b { assert fs[1..][i - 1].base == b; }
    if i :| 0 <= i < |fs[1..]| - 1 && fs[1..][i].base == b { assert fs[i + 1].base == b; }
  }

  /** After the swap the directory lists the compacted segment and the active one. */
  lemma SwapLists(d: W.Dir, fs: seq<Files>, seg: Segment)
    requires Lists(W.Segments(d), fs) && |fs| >= 2
    requires forall i :: 0 <= i < |seg.index| ==> EntryFits(seg.index[i])
    ensures Lists(W.Compacted(d, PlanFor(fs, seg)), After(fs, seg)) && fs[0].base !in PlanFor(fs, seg).victims
  {
    hide SealedBases, IndexBytes, LoadIndex, EntryFits, HasBase;
    var p, n := PlanFor(fs, seg), |fs| - 1;
    var files := W.Compacted(d, p);
    var active := fs[n].base;
    IndexRoundTrip(seg.index);
    VictimsAre(fs, fs[0].base);
    VictimsAre(fs, active);
    assert fs[0].base < active;
    assert active !in p.victims && fs[0].base !in p.victims by {
      forall i | 0 < i < n ensures fs[0].base < fs[i].base < active { }
    }
    assert OpenFiles(files, fs[0].base) == After(fs, seg)[0];
    KeepsFiles(d, p, active);
    assert W.LogFile(active) in W.Segments(d) && fs[n] == OpenFiles(W.Segments(d), active);
    assert OpenFiles(files, active) == fs[n];
    forall b | W.LogFile(b) in files ensures HasBase(After(fs, seg), b) { OnlyTwo(d, fs, seg, b); }
  }

  lemma OnlyTwo(d: W.Dir, fs: seq<Files>, seg: Segment, b: nat)
    requires Lists(W.Segments(d), fs) && |fs| >= 2 && W.LogFile(b) in W.Compacted(d, PlanFor(fs, seg))
    ensures HasBase(After(fs, seg), b)
  {
    hide SealedBases, OpenFiles;
    var after := After(fs, seg);
    if b == fs[0].base {
      assert after[0].base == b;
    } else {
      assert W.LogFile(b) in W.Segments(d) && b !in SealedBases(fs[1..]);
      assert HasBase(fs, b);
      var i :| 0 <= i < |fs| && fs[i].base == b;
      VictimsAre(fs, b);
      assert i == |fs| - 1;
      assert after[1].base == b;
    }
  }

  lemma KeepsFiles(d: W.Dir, p: W.Plan, base: nat)
    requires base != p.base && base !in p.victims
    ensures var a, b := W.Segments(d), W.Compacted(d, p);
            && (W.LogFile(base) in a <==> W.LogFile(base) in b) &&
               (W.LogFile(base) in a ==> a[W.LogFile(base)] == b[W.LogFile(base)])
            && (W.IndexFile(base) in a <==> W.IndexFile(base) in b)
            && (W.IndexFile(base) in a ==> a[W.IndexFile(base)] == b[W.IndexFile(base)])
  {
  }

  // ---------- records ----------

  /** With the compacted records in place of the sealed ones, the directory is again one recovery can open. */
  lemma CompactedDirectory(crc: Checksum, fs: seq<Files>, lists: seq<seq<Record>>, cut: nat, seg: Segment,
                           kept: seq<Record>)
    requires Directory(crc, fs, lists, cut) && |fs| >= 2 && seg.base == fs[0].base && Holds(crc, seg, kept)
    requires forall r :: r in kept ==> r in Flat(lists[..|lists| - 1])
    ensures Directory(crc, After(fs, seg), [kept, lists[|lists| - 1]], cut)
  {
    hide Flat, IndexFor, EncodeRecords, SparseOf;
    var n := |fs| - 1;
    SparseIsIndex(seg.base, kept);
    forall k | 0 <= k < |kept| ensures kept[k].offset < fs[n].base {
      assert kept[k] in kept;
      SealedBelow(crc, fs, lists, cut, n, kept[k]);
    }
    assert CutShort(crc, fs[n], lists[n], cut);
  }

  lemma {:induction false} SealedBelow(crc: Checksum, fs: seq<Files>, lists: seq<seq<Record>>, cut: nat, n: nat,
                                       r: Record)
    requires Directory(crc, fs, lists, cut) && n < |fs| && r in Flat(lists[..n])
    ensures r.offset < fs[n].base
    decreases n
  {
    hide Intact, CutShort, Flat;
    if n == 0 {
      assert lists[..0] == [];
      NothingFlat();
    } else {
      FlatPush(lists, n - 1);
      assert Below(lists[n - 1], fs[n - 1 + 1].base);
      if r in Flat(lists[..n - 1]) { SealedBelow(crc, fs, lists, cut, n - 1, r); }
    }
  }

  lemma NothingFlat()
    ensures Flat([]) == []
  {
  }

  /** A swap as it went: where it stopped, the recoveries that stopped too, and what the next one swept away. */
  datatype Accident = Accident(stop: W.Stop, crashes: seq<W.Crash>, names: seq<W.Name>)

  /** The directory as the accident leaves it, before the recovery that runs to its end. */
  function LeftBy(d: W.Dir, p: W.Plan, a: Accident): W.Dir {
    W.InterruptedAll(W.Stopped(d, p, a.stop), a.crashes)
  }

  /** What happened is possible, and `found` is what the recovery then opens. */
  ghost predicate Happened(d: W.Dir, p: W.Plan, a: Accident, found: seq<Files>) {
    && W.StopOk(p, a.stop) && (forall i :: 0 <= i < |a.crashes| ==> W.CrashOk(a.crashes[i]))
    && W.Listed(W.Finish(LeftBy(d, p, a)), a.names)
    && Lists(W.Segments(W.Recover(LeftBy(d, p, a), a.names)), found)
  }

  /** `seg` is what compaction made of the sealed segments of a directory. */
  ghost predicate Replaces(crc: Checksum, d: W.Dir, fs: seq<Files>, lists: seq<seq<Record>>, cut: nat, seg: Segment,
                           kept: seq<Record>)
  {
    && d.marker == None && Lists(W.Segments(d), fs) && Directory(crc, fs, lists, cut) && |fs| >= 2
    && seg.base == fs[0].base && Holds(crc, seg, kept) && |seg.log| < 0x1_0000_0000_0000_0000
  }

  /**
   The crash-atomic compaction, in records: wherever the swap stops and however often recovery is stopped
   too, the directory the next complete recovery opens holds the records as they were, if the marker was
   not yet durable, and otherwise the kept ones in the place of the sealed ones; the active segment, cut
   wherever it was, is the same.
   */
  lemma CrashKeepsRecords(crc: Checksum, d: W.Dir, fs: seq<Files>, lists: seq<seq<Record>>, cut: nat, seg: Segment,
                          kept: seq<Record>, a: Accident, found: seq<Files>)
    requires Replaces(crc, d, fs, lists, cut, seg, kept) && Happened(d, PlanFor(fs, seg), a, found)
    requires |lists| > 0 && forall r :: r in kept ==> r in Flat(lists[..|lists| - 1])
    ensures found == if a.stop.Preparing? then fs else After(fs, seg)
    ensures Directory(crc, found, if a.stop.Preparing? then lists else [kept, lists[|lists| - 1]], cut)
  {
    hide Lists, Directory, Holds, Flat, PlanFor, W.Segments, W.Recover, LeftBy, W.Compacted,
         W.Listed, W.CrashOk, W.StopOk, After, Happened;
    IndexFits(crc, seg, kept);
    SwapLists(d, fs, seg);
    PlanBase(fs, seg);
    FoundIs(d, PlanFor(fs, seg), a, found);
    if a.stop.Preparing? {
      ListedSame(W.Segments(d), found, fs);
    } else {
      ListedSame(W.Compacted(d, PlanFor(fs, seg)), found, After(fs, seg));
      CompactedDirectory(crc, fs, lists, cut, seg, kept);
    }
  }

  lemma FoundIs(d: W.Dir, p: W.Plan, a: Accident, found: seq<Files>)
    requires d.marker == None && p.base !in p.victims && Happened(d, p, a, found)
    ensures Lists(if a.stop.Preparing? then W.Segments(d) else W.Compacted(d, p), found)
  {
    hide Lists, W.Segments, W.Recover, W.InterruptedAll, W.Stopped, W.Compacted, W.Listed, W.CrashOk, W.StopOk,
         W.Finish;
    W.CrashAtomic(d, p, a.stop, a.crashes, a.names);
  }

  lemma PlanBase(fs: seq<Files>, seg: Segment)
    requires fs != []
    ensures PlanFor(fs, seg).base == fs[0].base
  {
  }

  lemma IndexFits(crc: Checksum, seg: Segment, kept: seq<Record>)
    requires Holds(crc, seg, kept) && |seg.log| < 0x1_0000_0000_0000_0000
    ensures forall i :: 0 <= i < |seg.index| ==> EntryFits(seg.index[i])
  {
    hide SparseOf, EncodeRecords;
    EncodedSize(crc, kept);
    forall i | 0 <= i < |seg.index| ensures EntryFits(seg.index[i]) { SparseFits(seg.base, kept, 0, None, i); }
  }

  /**
   Compacting the sealed segments of a directory and opening it after any crash: the partition holds what
   recovery gets to of the records as they were, or of the newest of each key and the active segment.
   */
  method OpenAfterCrash(crc: Checksum, segmentBytes: nat, ghost d: W.Dir, ghost fs: seq<Files>,
                        ghost lists: seq<seq<Record>>, ghost cut: nat, ghost seg: Segment, ghost cutoff: int,
                        ghost a: Accident, found: seq<Files>) returns (p: Partition)
    requires |lists| > 0 && Replaces(crc, d, fs, lists, cut, seg, Compacted(lists, cutoff)[0])
    requires Happened(d, PlanFor(fs, seg), a, found)
    ensures fresh(p) && p.Valid()
    ensures var now := if a.stop.Preparing? then lists else Compacted(lists, cutoff);
            |found| == |now| && p.Contents() == Flat(Kept(found, now, cut))
  {
    hide Lists, Directory, Holds, Flat, PlanFor, KeepNewest, Kept, Happened;
    ghost var n := |lists| - 1;
    ghost var now := if a.stop.Preparing? then lists else Compacted(lists, cutoff);
    KeptIn(Flat(lists[..n]), {}, cutoff);
    CrashKeepsRecords(crc, d, fs, lists, cut, seg, Compacted(lists, cutoff)[0], a, found);
    DirectoryBases(crc, found, now, cut);
    p := OpenPartition(crc, segmentBytes, found, now, cut);
  }

  /** The records after compaction, by segment: the newest of each key of the sealed ones, and the active ones. */
  function Compacted(lists: seq<seq<Record>>, cutoff: int): (now: seq<seq<Record>>)
    requires |lists| > 0
    ensures |now| == 2
  {
    [KeepNewest(Flat(lists[..|lists| - 1]), {}, cutoff), lists[|lists| - 1]]
  }
}
