/**
 The two durable stores of a Raft node. The in-memory one keeps the entries in a list; the file-backed
 one appends encoded entries to a log file and remembers where each starts. The second refines the first.
 */
module RaftStore {
  import opened Basics
  import opened Bytes
  import opened RaftTypes
  import opened RaftNode
  import opened RaftDurable

  const ENTRY_HEADER: nat := 24
  const MAX_ENTRY_BYTES: nat := 512 * 1024 * 1024

  // ---------- the format of one entry ----------

  function Body(e: LogEntry): seq<byte> {
    Be(e.term, 8) + Be(e.index, 8) + e.payload
  }

  /** Length of checksum and body, checksum, body. */
  function EncodeEntry(crc: Checksum, e: LogEntry): (r: seq<byte>)
    ensures |r| == ENTRY_HEADER + |e.payload|
  {
    Be(4 + |Body(e)|, 4) + Be(crc(Body(e)), 4) + Body(e)
  }

  /** Entries the format can carry: numbers of 64 bits and a length the reader accepts. */
  predicate Encodable(e: LogEntry) {
    e.term < 0x1_0000_0000_0000_0000 && e.index < 0x1_0000_0000_0000_0000 && 20 + |e.payload| <= MAX_ENTRY_BYTES
  }

  predicate AllEncodable(es: seq<LogEntry>) {
    forall k :: 0 <= k < |es| ==> Encodable(es[k])
  }

  function EncodeAll(crc: Checksum, es: seq<LogEntry>): seq<byte> {
    if es == [] then [] else EncodeEntry(crc, es[0]) + EncodeAll(crc, es[1..])
  }

  /** The entry at the front of `bytes` and its size; `None` when it is short or damaged. */
  function ReadEntry(crc: Checksum, bytes: seq<byte>): (r: Option<(LogEntry, nat)>)
    ensures r.Some? ==> ENTRY_HEADER <= r.value.1 <= |bytes| && r.value.1 == ENTRY_HEADER + |r.value.0.payload|
  {
    if |bytes| < ENTRY_HEADER then None
    else
      var len := FromBe(bytes[..4]);
      if len < 20 || MAX_ENTRY_BYTES < len || |bytes| < 4 + len then None
      else
        var body := bytes[8..4 + len];
        if crc(body) != FromBe(bytes[4..8]) then None
        else Some((LogEntry(FromBe(body[..8]), FromBe(body[8..16]), body[16..]), 4 + len))
  }

  /** All entries up to the first that cannot be read. */
  function DecodeLog(crc: Checksum, bytes: seq<byte>): seq<LogEntry>
    decreases |bytes|
  {
    match ReadEntry(crc, bytes)
    case None => []
    case Some((e, n)) => [e] + DecodeLog(crc, bytes[n..])
  }

  /** Index and file position of each entry, when the first starts at `base`. */
  function Positions(es: seq<LogEntry>, base: nat): (r: seq<(LogIndex, nat)>)
    ensures |r| == |es|
  {
    if es == [] then [] else [(es[0].index, base)] + Positions(es[1..], base + ENTRY_HEADER + |es[0].payload|)
  }

  // ---------- round trips ----------

  lemma BodyBack(e: LogEntry)
    requires Encodable(e)
    ensures var b := Body(e);
            |b| == 16 + |e.payload| && FromBe(b[..8]) == e.term && FromBe(b[8..16]) == e.index && b[16..] == e.payload
  {
    Widths();
    BeRoundTrip(e.term, 8);
    BeRoundTrip(e.index, 8);
    var b := Body(e);
    assert b[..8] == Be(e.term, 8);
    assert b[8..16] == Be(e.index, 8);
  }

  lemma HeaderBack(crc: Checksum, e: LogEntry, rest: seq<byte>)
    requires Encodable(e)
    ensures var x := EncodeEntry(crc, e) + rest;
            FromBe(x[..4]) == 4 + |Body(e)| && FromBe(x[4..8]) == crc(Body(e)) && x[8..8 + |Body(e)|] == Body(e)
  {
    Widths();
    BeRoundTrip(4 + |Body(e)|, 4);
    BeRoundTrip(crc(Body(e)), 4);
    var x := EncodeEntry(crc, e) + rest;
    assert x[..4] == Be(4 + |Body(e)|, 4);
    assert x[4..8] == Be(crc(Body(e)), 4);
  }

  lemma ReadsBack(crc: Checksum, e: LogEntry, rest: seq<byte>)
    requires Encodable(e)
    ensures ReadEntry(crc, EncodeEntry(crc, e) + rest) == Some((e, |EncodeEntry(crc, e)|))
  {
    hide EncodeEntry, Body;
    HeaderBack(crc, e, rest);
    BodyBack(e);
  }

  /** What is read is what was written: the bytes taken are the encoding of the entry. */
  lemma ReadIsEncoded(crc: Checksum, bytes: seq<byte>)
    requires ReadEntry(crc, bytes).Some?
    ensures var (e, n) := ReadEntry(crc, bytes).value; Encodable(e) && EncodeEntry(crc, e) == bytes[..n]
  {
    var (e, n) := ReadEntry(crc, bytes).value;
    var body := bytes[8..n];
    Widths();
    BeBack(bytes[..4]);
    BeBack(bytes[4..8]);
    BeBack(body[..8]);
    BeBack(body[8..16]);
    assert Body(e) == body;
    assert bytes[..n] == bytes[..4] + bytes[4..8] + body;
  }

  /** A strict prefix of an encoded entry is not mistaken for an entry. */
  lemma ReadsTorn(crc: Checksum, e: LogEntry, cut: nat)
    requires Encodable(e) && cut < |EncodeEntry(crc, e)|
    ensures ReadEntry(crc, EncodeEntry(crc, e)[..cut]) == None
  {
    var x := EncodeEntry(crc, e);
    if ENTRY_HEADER <= cut {
      HeaderBack(crc, e, []);
      assert x + [] == x;
      assert x[..cut][..4] == x[..4];
    }
  }

  /** Whole entries followed by a strict prefix of one more reload as the whole entries. */
  lemma {:induction false} DecodeTorn(crc: Checksum, es: seq<LogEntry>, e: LogEntry, cut: nat)
    requires AllEncodable(es) && Encodable(e) && cut < |EncodeEntry(crc, e)|
    ensures DecodeLog(crc, EncodeAll(crc, es) + EncodeEntry(crc, e)[..cut]) == es
  {
    hide EncodeEntry, ReadEntry;
    var tail := EncodeEntry(crc, e)[..cut];
    if es == [] {
      assert EncodeAll(crc, es) + tail == tail;
      ReadsTorn(crc, e, cut);
    } else {
      var x, rest := EncodeEntry(crc, es[0]), EncodeAll(crc, es[1..]) + tail;
      assert EncodeAll(crc, es) + tail == x + rest;
      ReadsBack(crc, es[0], rest);
      assert (x + rest)[|x|..] == rest;
      DecodeTorn(crc, es[1..], e, cut);
    }
  }

  lemma DecodeAll(crc: Checksum, es: seq<LogEntry>)
    requires AllEncodable(es)
    ensures DecodeLog(crc, EncodeAll(crc, es)) == es
  {
    DecodeTorn(crc, es, LogEntry(0, 0, []), 0);
    assert EncodeAll(crc, es) + EncodeEntry(crc, LogEntry(0, 0, []))[..0] == EncodeAll(crc, es);
  }

  /** How many whole entries a file cut at `cut` still holds. */
  function WholeEntries(es: seq<LogEntry>, cut: nat): (k: nat)
    ensures k <= |es|
  {
    if es == [] || cut < ENTRY_HEADER + |es[0].payload| then 0
    else 1 + WholeEntries(es[1..], cut - (ENTRY_HEADER + |es[0].payload|))
  }

  /** A log file cut at any byte reloads as the longest run of whole entries before the cut. */
  lemma {:induction false} DecodeCut(crc: Checksum, es: seq<LogEntry>, cut: nat)
    requires AllEncodable(es) && cut <= |EncodeAll(crc, es)|
    ensures DecodeLog(crc, EncodeAll(crc, es)[..cut]) == es[..WholeEntries(es, cut)]
  {
    hide ReadEntry;
    var all := EncodeAll(crc, es);
    if es == [] {
      DecodeAll(crc, es);
    } else {
      var x, rest := EncodeEntry(crc, es[0]), EncodeAll(crc, es[1..]);
      if cut < |x| {
        assert all[..cut] == x[..cut];
        ReadsTorn(crc, es[0], cut);
      } else {
        assert all[..cut] == x + rest[..cut - |x|];
        ReadsBack(crc, es[0], rest[..cut - |x|]);
        assert (x + rest[..cut - |x|])[|x|..] == rest[..cut - |x|];
        DecodeCut(crc, es[1..], cut - |x|);
        var k := WholeEntries(es[1..], cut - |x|);
        assert es[..1 + k] == [es[0]] + es[1..][..k];
      }
    }
  }

  // ---------- files as sequences of entries ----------

  lemma {:induction false} EncodeConcat(crc: Checksum, a: seq<LogEntry>, b: seq<LogEntry>)
    ensures EncodeAll(crc, a + b) == EncodeAll(crc, a) + EncodeAll(crc, b)
  {
    hide EncodeEntry;
    if a == [] {
      assert a + b == b;
    } else {
      assert (a + b)[1..] == a[1..] + b;
      EncodeConcat(crc, a[1..], b);
    }
  }

  lemma {:induction false} PositionsConcat(crc: Checksum, a: seq<LogEntry>, b: seq<LogEntry>, base: nat)
    ensures Positions(a + b, base) == Positions(a, base) + Positions(b, base + |EncodeAll(crc, a)|)
  {
    hide EncodeEntry;
    if a == [] {
      assert a + b == b;
    } else {
      assert (a + b)[1..] == a[1..] + b;
      PositionsConcat(crc, a[1..], b, base + ENTRY_HEADER + |a[0].payload|);
    }
  }

  /** Entry `k` starts where the entries before it end. */
  lemma PositionAt(crc: Checksum, es: seq<LogEntry>, k: nat, base: nat)
    requires k < |es|
    ensures Positions(es, base)[k] == (es[k].index, base + |EncodeAll(crc, es[..k])|)
    ensures Positions(es, base)[..k] == Positions(es[..k], base)
    ensures EncodeAll(crc, es) == EncodeAll(crc, es[..k]) + EncodeAll(crc, es[k..])
  {
    hide EncodeEntry;
    assert es == es[..k] + es[k..];
    PositionsConcat(crc, es[..k], es[k..], base);
    EncodeConcat(crc, es[..k], es[k..]);
  }

  // ---------- operations a store accepts ----------

  /** Appends continue the log without gaps and carry encodable entries. */
  ghost predicate Fits(log: seq<LogEntry>) {
    (exists first: nat :: Contiguous(log, first)) && AllEncodable(log)
  }

  ghost predicate OpFits(d: Disk, op: PersistOp) {
    op.Append? ==> Fits(d.log + op.entries)
  }

  ghost predicate OpsFit(d: Disk, ops: seq<PersistOp>)
    decreases |ops|
  {
    ops == [] || (OpFits(d, ops[0]) && OpsFit(ApplyOp(d, ops[0]), ops[1..]))
  }

  // ---------- the in-memory store ----------

  lemma BelowStep(es: seq<LogEntry>, i: nat, from: LogIndex)
    requires i < |es|
    ensures Below(es[i..], from) ==
              if es[i].index < from then [es[i]] + Below(es[i + 1..], from) else Below(es[i + 1..], from)
  {
    assert es[i..][1..] == es[i + 1..] && [] + Below(es[i + 1..], from) == Below(es[i + 1..], from);
  }

  lemma BelowOfNone(from: LogIndex)
    ensures Below([], from) == []
  {
  }

  lemma AboveStep(es: seq<LogEntry>, i: nat, through: LogIndex)
    requires i < |es|
    ensures Above(es[i..], through) ==
              if through < es[i].index then [es[i]] + Above(es[i + 1..], through) else Above(es[i + 1..], through)
  {
    assert es[i..][1..] == es[i + 1..] && [] + Above(es[i + 1..], through) == Above(es[i + 1..], through);
  }

  lemma AboveOfNone(through: LogIndex)
    ensures Above([], through) == []
  {
  }

  class MemStore {
    var disk: Disk

    constructor ()
      ensures disk == Disk(0, None, [], None)
    {
      disk := Disk(0, None, [], None);
    }

    method RetainBelow(from: LogIndex)
      modifies this
      ensures disk == old(disk).(log := Below(old(disk).log, from))
    {
      hide Below;
      var es, kept, i := disk.log, [], 0;
      assert es[0..] == es && kept + Below(es, from) == Below(es, from);
      while i < |es|
        invariant 0 <= i <= |es| && disk == old(disk)
        invariant Below(es, from) == kept + Below(es[i..], from)
      {
        BelowStep(es, i, from);
        var rest := Below(es[i + 1..], from);
        assert kept + ([es[i]] + rest) == kept + [es[i]] + rest;
        if es[i].index < from { kept := kept + [es[i]]; }
        i := i + 1;
      }
      BelowOfNone(from);
      assert es[i..] == [] && kept + [] == kept;
      disk := disk.(log := kept);
    }

    method RetainAbove(through: LogIndex)
      modifies this
      ensures disk == old(disk).(log := Above(old(disk).log, through))
    {
      hide Above;
      var es, kept, i := disk.log, [], 0;
      assert es[0..] == es && kept + Above(es, through) == Above(es, through);
      while i < |es|
        invariant 0 <= i <= |es| && disk == old(disk)
        invariant Above(es, through) == kept + Above(es[i..], through)
      {
        AboveStep(es, i, through);
        var rest := Above(es[i + 1..], through);
        assert kept + ([es[i]] + rest) == kept + [es[i]] + rest;
        if through < es[i].index { kept := kept + [es[i]]; }
        i := i + 1;
      }
      AboveOfNone(through);
      assert es[i..] == [] && kept + [] == kept;
      disk := disk.(log := kept);
    }

    method Persist(ops: seq<PersistOp>)
      modifies this
      ensures disk == ApplyOps(old(disk), ops)
    {
      var i := 0;
      while i < |ops|
        invariant 0 <= i <= |ops|
        invariant ApplyOps(disk, ops[i..]) == ApplyOps(old(disk), ops)
      {
        assert ops[i..][1..] == ops[i + 1..];
        match ops[i] {
          case HardState(t, v) => disk := disk.(term := t, votedFor := v);
          case Append(es) => disk := disk.(log := disk.log + es);
          case TruncateFrom(f) => RetainBelow(f);
          case CompactThrough(t) => RetainAbove(t);
        }
        i := i + 1;
      }
    }

    method SaveSnapshot(snap: Snapshot)
      modifies this
      ensures disk == old(disk).(snapshot := Some(snap))
    {
      disk := disk.(snapshot := Some(snap));
    }
  }

  // ---------- the file-backed store ----------

  /** How many of the positions, which are in index order, lie before index `from`. */
  function CountBefore(positions: seq<(LogIndex, nat)>, from: LogIndex): (k: nat)
    ensures k <= |positions|
    ensures forall j :: 0 <= j < k ==> positions[j].0 < from
    ensures k < |positions| ==> from <= positions[k].0
  {
    if positions == [] || from <= positions[0].0 then 0 else 1 + CountBefore(positions[1..], from)
  }

  lemma CountInLog(es: seq<LogEntry>, first: nat, base: nat, from: LogIndex)
    requires Contiguous(es, first)
    ensures CountBefore(Positions(es, base), from) == if from <= first then 0 else Min(from - first, |es|)
  {
    if es != [] && es[0].index < from { CountInLog(es[1..], first + 1, base + ENTRY_HEADER + |es[0].payload|, from); }
  }

  /** The file and what the store remembers of it stand for the entries `log`. */
  ghost predicate Shows(crc: Checksum, log: seq<LogEntry>, file: seq<byte>, positions: seq<(LogIndex, nat)>, len: nat) {
    Fits(log) && file == EncodeAll(crc, log) && positions == Positions(log, 0) && len == |file|
  }

  lemma AppendShows(crc: Checksum, log: seq<LogEntry>, es: seq<LogEntry>, file: seq<byte>,
                    positions: seq<(LogIndex, nat)>, len: nat)
    requires Shows(crc, log, file, positions, len) && Fits(log + es)
    ensures Shows(crc, log + es, file + EncodeAll(crc, es), positions + Positions(es, len), len + |EncodeAll(crc, es)|)
  {
    hide Positions, EncodeAll;
    EncodeConcat(crc, log, es);
    PositionsConcat(crc, log, es, 0);
  }

  lemma CutShows(crc: Checksum, log: seq<LogEntry>, from: LogIndex, file: seq<byte>, positions: seq<(LogIndex, nat)>,
                 len: nat)
    requires Shows(crc, log, file, positions, len)
    ensures var cut := CountBefore(positions, from);
            if cut == |positions| then Below(log, from) == log
            else positions[cut].1 <= |file| &&
                 Shows(crc, Below(log, from), file[..positions[cut].1], positions[..cut], positions[cut].1)
  {
    hide Positions, EncodeAll, CountBefore, Below;
    var cut := CountBefore(positions, from);
    var first: nat :| Contiguous(log, first);
    CountInLog(log, first, 0, from);
    BelowContiguous(log, first, from);
    if cut == |positions| {
      assert log[..cut] == log;
    } else {
      PositionAt(crc, log, cut, 0);
      assert Contiguous(log[..cut], first);
    }
  }

  lemma SuffixShows(crc: Checksum, log: seq<LogEntry>, through: LogIndex, file: seq<byte>,
                    positions: seq<(LogIndex, nat)>, len: nat)
    requires Shows(crc, log, file, positions, len)
    ensures Fits(Above(log, through))
    ensures positions == [] || through < positions[0].0 ==> Above(log, through) == log
    ensures var k := CountBefore(positions, through + 1);
            if k == |positions| then Above(log, through) == []
            else positions[k].1 <= len && DecodeLog(crc, file[positions[k].1..len]) == Above(log, through)
  {
    hide Positions, EncodeAll, CountBefore, Above, DecodeLog;
    var k := CountBefore(positions, through + 1);
    var first: nat :| Contiguous(log, first);
    CountInLog(log, first, 0, through + 1);
    AboveContiguous(log, first, through);
    SuffixFits(log, first, k);
    assert Above(log, through) == log[k..];
    if k < |positions| {
      PositionAt(crc, log, k, 0);
      assert file[positions[k].1..len] == EncodeAll(crc, log[k..]);
      DecodeAll(crc, log[k..]);
    }
    if log != [] {
      PositionAt(crc, log, 0, 0);
      assert log[0..] == log;
    }
  }

  class FileStore {
    const crc: Checksum
    var term: Term
    var votedFor: Option<NodeId>
    var snapshot: Option<Snapshot>
    /** The bytes of the log file. */
    var file: seq<byte>
    var positions: seq<(LogIndex, nat)>
    var len: nat
    /** The entries the file stands for. */
    ghost var log: seq<LogEntry>

    ghost predicate Valid()
      reads this
    {
      Shows(crc, log, file, positions, len)
    }

    ghost function Value(): Disk
      reads this
    {
      Disk(term, votedFor, log, snapshot)
    }

    constructor (crc: Checksum)
      ensures Valid() && Value() == Disk(0, None, [], None)
    {
      this.crc := crc;
      term, votedFor, snapshot := 0, None, None;
      file, positions, len := [], [], 0;
      log := [];
      assert Contiguous([], 0);
    }

    method Append(es: seq<LogEntry>)
      requires Valid() && Fits(log + es)
      modifies this
      ensures Valid() && Value() == old(Value()).(log := old(log) + es)
    {
      hide Shows, EncodeAll, Positions, Fits;
      assert es == [] ==> log + es == log;
      if es == [] { return; }
      var buf, added := EncodeBatch(crc, es, len);
      AppendShows(crc, log, es, file, positions, len);
      file := file + buf;
      len := len + |buf|;
      positions := positions + added;
      log := log + es;
    }

    method Truncate(from: LogIndex)
      requires Valid()
      modifies this
      ensures Valid() && Value() == old(Value()).(log := Below(old(log), from))
    {
      hide Shows, CountBefore, Below;
      var cut := CountBefore(positions, from);
      CutShows(crc, log, from, file, positions, len);
      if cut < |positions| {
        var pos := positions[cut].1;
        file := file[..pos];
        positions := positions[..cut];
        len := pos;
        log := Below(log, from);
      }
    }

    /** The entries past `through`, read back from the file. */
    method ReadAfter(through: LogIndex) returns (es: seq<LogEntry>)
      requires Valid()
      ensures es == Above(log, through)
    {
      hide Shows, CountBefore, Above, DecodeLog, EncodeAll, Positions;
      var first := CountBefore(positions, through + 1);
      SuffixShows(crc, log, through, file, positions, len);
      if first == |positions| { return []; }
      assert len == |file| by { ShownLength(crc, log, file, positions, len); }
      var at, valid;
      es, at, valid := Decode(crc, file[positions[first].1..len]);
    }

    method Rewrite(es: seq<LogEntry>)
      requires Fits(es)
      modifies this
      ensures Valid() && Value() == old(Value()).(log := es)
    {
      var buf, added := EncodeBatch(crc, es, 0);
      file, positions, len := buf, added, |buf|;
      log := es;
    }

    method Compact(through: LogIndex)
      requires Valid()
      modifies this
      ensures Valid() && Value() == old(Value()).(log := Above(old(log), through))
    {
      hide Shows, CountBefore, Above, DecodeLog, Fits;
      SuffixShows(crc, log, through, file, positions, len);
      if |positions| == 0 || through < positions[0].0 { return; }
      var keep := ReadAfter(through);
      Rewrite(keep);
    }

    /** Every accepted sequence of operations has the effect it has on the in-memory store. */
    method Persist(ops: seq<PersistOp>)
      requires Valid() && OpsFit(Value(), ops)
      modifies this
      ensures Valid() && Value() == ApplyOps(old(Value()), ops)
    {
      hide Shows, Fits, Below, Above;
      var i := 0;
      while i < |ops|
        invariant 0 <= i <= |ops| && Valid() && OpsFit(Value(), ops[i..])
        invariant ApplyOps(Value(), ops[i..]) == ApplyOps(old(Value()), ops)
      {
        assert ops[i..][1..] == ops[i + 1..];
        match ops[i] {
          case HardState(t, v) => term, votedFor := t, v;
          case Append(es) => Append(es);
          case TruncateFrom(f) => Truncate(f);
          case CompactThrough(t) => Compact(t);
        }
        i := i + 1;
      }
    }

    method SaveSnapshot(snap: Snapshot)
      requires Valid()
      modifies this
      ensures Valid() && Value() == old(Value()).(snapshot := Some(snap))
    {
      snapshot := Some(snap);
    }

    /**
     Reopen the log file: the entries up to the first that cannot be read come back, provided their
     indices have no gap, and whatever follows them is cut off.
     */
    method Load() returns (r: Option<seq<LogEntry>>)
      modifies this
      ensures r == if Gapless(DecodeLog(crc, old(file))) then Some(DecodeLog(crc, old(file))) else None
      ensures r.Some? ==> Valid() && Value() == old(Value()).(log := r.value)
    {
      hide DecodeLog, EncodeAll, Positions, Fits;
      var entries, at, valid := Decode(crc, file);
      if valid < |file| { file := file[..valid]; }
      var i := 0;
      while i + 1 < |entries|
        invariant 0 <= i && (i < |entries| || (i == 0 && entries == []))
        invariant forall k :: 0 <= k < i ==> entries[k + 1].index == entries[k].index + 1
      {
        if entries[i + 1].index != entries[i].index + 1 { return None; }
        i := i + 1;
      }
      positions, len := at, valid;
      log := entries;
      assert Fits(entries) by { GaplessFits(entries); }
      r := Some(entries);
    }
  }

  predicate Gapless(es: seq<LogEntry>) {
    forall k :: 0 <= k < |es| - 1 ==> es[k + 1].index == es[k].index + 1
  }

  lemma GaplessFits(es: seq<LogEntry>)
    requires Gapless(es) && AllEncodable(es)
    ensures Fits(es)
  {
    if es == [] {
      assert Contiguous(es, 0);
    } else {
      forall k | 0 <= k < |es| ensures es[k].index == es[0].index + k { GaplessAt(es, k); }
      assert Contiguous(es, es[0].index);
    }
  }

  lemma {:induction false} GaplessAt(es: seq<LogEntry>, k: nat)
    requires Gapless(es) && k < |es|
    ensures es[k].index == es[0].index + k
  {
    if k > 0 {
      GaplessAt(es, k - 1);
      assert es[k - 1 + 1].index == es[k - 1].index + 1;
    }
  }

  /** A crash in the middle of appending a batch leaves, after reopening, the log and part of the batch. */
  lemma TornAppendReloads(crc: Checksum, log: seq<LogEntry>, es: seq<LogEntry>, cut: nat) returns (m: nat)
    requires Fits(log + es) && cut <= |EncodeAll(crc, es)|
    ensures m <= |es|
    ensures var back := DecodeLog(crc, EncodeAll(crc, log) + EncodeAll(crc, es)[..cut]);
            back == log + es[..m] && Gapless(back)
  {
    hide EncodeAll, DecodeLog;
    var all, at := log + es, |EncodeAll(crc, log)| + cut;
    EncodeConcat(crc, log, es);
    assert EncodeAll(crc, all)[..at] == EncodeAll(crc, log) + EncodeAll(crc, es)[..cut];
    DecodeCut(crc, all, at);
    WholePast(crc, log, es, cut);
    m := WholeEntries(all, at) - |log|;
    assert all[..|log| + m] == log + es[..m];
    var first: nat :| Contiguous(all, first);
  }

  lemma {:induction false} WholePast(crc: Checksum, log: seq<LogEntry>, es: seq<LogEntry>, cut: nat)
    ensures |log| <= WholeEntries(log + es, |EncodeAll(crc, log)| + cut)
  {
    if log != [] {
      assert (log + es)[1..] == log[1..] + es;
      WholePast(crc, log[1..], es, cut);
    }
  }

  lemma ShownLength(crc: Checksum, log: seq<LogEntry>, file: seq<byte>, positions: seq<(LogIndex, nat)>, len: nat)
    requires Shows(crc, log, file, positions, len)
    ensures len == |file|
  {
  }

  lemma SuffixFits(log: seq<LogEntry>, first: nat, k: nat)
    requires Contiguous(log, first) && AllEncodable(log) && k <= |log|
    ensures Fits(log[k..])
  {
    assert Contiguous(log[k..], first + k);
  }

  /** The bytes of a batch of entries and where each of them will be in the file. */
  method EncodeBatch(crc: Checksum, es: seq<LogEntry>, base: nat) returns (buf: seq<byte>, at: seq<(LogIndex, nat)>)
    ensures buf == EncodeAll(crc, es) && at == Positions(es, base)
  {
    buf, at := [], [];
    var i := 0;
    while i < |es|
      invariant 0 <= i <= |es|
      invariant buf == EncodeAll(crc, es[..i]) && at == Positions(es[..i], base)
    {
      BatchStep(crc, es, i, base);
      at := at + [(es[i].index, base + |buf|)];
      buf := buf + EncodeEntry(crc, es[i]);
      i := i + 1;
    }
    assert es[..i] == es;
  }

  lemma BatchStep(crc: Checksum, es: seq<LogEntry>, i: nat, base: nat)
    requires i < |es|
    ensures EncodeAll(crc, es[..i + 1]) == EncodeAll(crc, es[..i]) + EncodeEntry(crc, es[i])
    ensures Positions(es[..i + 1], base) == Positions(es[..i], base) + [(es[i].index, base + |EncodeAll(crc, es[..i])|)]
  {
    hide EncodeEntry;
    assert es[..i + 1] == es[..i] + [es[i]];
    EncodeConcat(crc, es[..i], [es[i]]);
    PositionsConcat(crc, es[..i], [es[i]], base);
    assert [es[i]][1..] == [];
    assert EncodeAll(crc, [es[i]]) == EncodeEntry(crc, es[i]) + [];
  }

  lemma {:induction false} DecodeStep(crc: Checksum, bytes: seq<byte>, es: seq<LogEntry>, valid: nat)
    requires valid <= |bytes| && bytes[..valid] == EncodeAll(crc, es)
    requires ReadEntry(crc, bytes[valid..]).Some?
    ensures var (e, n) := ReadEntry(crc, bytes[valid..]).value;
            && Encodable(e) && bytes[..valid + n] == EncodeAll(crc, es + [e])
            && Positions(es + [e], 0) == Positions(es, 0) + [(e.index, valid)]
            && DecodeLog(crc, bytes[valid..]) == [e] + DecodeLog(crc, bytes[valid + n..])
  {
    hide EncodeEntry;
    var (e, n) := ReadEntry(crc, bytes[valid..]).value;
    ReadIsEncoded(crc, bytes[valid..]);
    assert bytes[..valid + n] == bytes[..valid] + bytes[valid..][..n];
    assert bytes[valid..][n..] == bytes[valid + n..];
    BatchStep(crc, es + [e], |es|, 0);
    assert (es + [e])[..|es|] == es && (es + [e])[..|es| + 1] == es + [e];
  }

  /** Entries, their positions, and the length of the part of the file they fill. */
  method Decode(crc: Checksum, bytes: seq<byte>) returns (es: seq<LogEntry>, at: seq<(LogIndex, nat)>, valid: nat)
    ensures es == DecodeLog(crc, bytes) && at == Positions(es, 0) && AllEncodable(es)
    ensures valid <= |bytes| && bytes[..valid] == EncodeAll(crc, es)
  {
    hide EncodeEntry, EncodeAll, Positions, ReadEntry, DecodeLog;
    es, at, valid := [], [], 0;
    assert bytes[0..] == bytes;
    NothingRead(crc);
    while |bytes| - valid >= ENTRY_HEADER
      invariant valid <= |bytes| && bytes[..valid] == EncodeAll(crc, es)
      invariant DecodeLog(crc, bytes) == es + DecodeLog(crc, bytes[valid..])
      invariant at == Positions(es, 0) && AllEncodable(es)
    {
      var r := ReadEntry(crc, bytes[valid..]);
      if r.None? {
        DecodeStops(crc, bytes[valid..]);
        return;
      }
      DecodeStep(crc, bytes, es, valid);
      var (e, n) := r.value;
      at := at + [(e.index, valid)];
      es := es + [e];
      valid := valid + n;
    }
    DecodeStops(crc, bytes[valid..]);
  }

  lemma NothingRead(crc: Checksum)
    ensures EncodeAll(crc, []) == [] && Positions([], 0) == []
  {
  }

  lemma DecodeStops(crc: Checksum, bytes: seq<byte>)
    requires |bytes| < ENTRY_HEADER || ReadEntry(crc, bytes).None?
    ensures DecodeLog(crc, bytes) == []
  {
  }
}
