/**
 A partition: a chain of segments, the last of which is written. What it holds is one list of records
 with strictly increasing offsets; appending, rolling and reading are stated against that list.
 */
module StoragePartition {
  import opened Basics
  import opened Bytes
  import opened StorageRecord
  import opened StorageIndex
  import opened StorageSegment
  import opened StorageScan
  import opened StorageReach

  /** A record to append: without an offset it gets the next one; with one below the end it was applied before. */
  datatype AppendRecord = AppendRecord(key: Option<seq<byte>>, value: seq<byte>, timestamp: Option<int>,
                                       offset: Option<nat>)

  datatype Assigned = Assigned(offsets: seq<nat>, added: seq<Record>, next: nat)

  function RecordAt(r: AppendRecord, offset: nat, now: int): Record {
    Record(offset, if r.timestamp.Some? then r.timestamp.value else now, r.key, r.value)
  }

  /** The offset each record gets and the records that are new, when the partition ends at `next`. */
  function Assign(next: nat, rs: seq<AppendRecord>, now: int): (a: Assigned)
    ensures |a.offsets| == |rs| && next <= a.next
    decreases |rs|
  {
    if rs == [] then Assigned([], [], next)
    else if rs[0].offset.Some? && rs[0].offset.value < next then
      var rest := Assign(next, rs[1..], now);
      rest.(offsets := [rs[0].offset.value] + rest.offsets)
    else
      var o := if rs[0].offset.Some? then rs[0].offset.value else next;
      var rest := Assign(o + 1, rs[1..], now);
      Assigned([o] + rest.offsets, [RecordAt(rs[0], o, now)] + rest.added, rest.next)
  }

  // ---------- what an append stores ----------

  /** The offset of record `i` lies at or past the end, and past the offsets of all records before it. */
  ghost predicate IsNew(next: nat, offsets: seq<nat>, i: nat)
    requires i < |offsets|
  {
    next <= offsets[i] && forall j :: 0 <= j < i ==> offsets[j] < offsets[i]
  }

  /** A record keeps the offset it came with; without one it gets the first that is free. */
  ghost predicate Placed(next: nat, offsets: seq<nat>, given: Option<nat>, i: nat)
    requires i < |offsets|
  {
    if given.Some? then offsets[i] == given.value
    else IsNew(next, offsets, i) && (offsets[i] == next || exists j :: 0 <= j < i && offsets[i] == offsets[j] + 1)
  }

  predicate Stores(stored: Record, r: AppendRecord, offset: nat, now: int) {
    && stored.offset == offset && stored.key == r.key && stored.value == r.value
    && (if r.timestamp.Some? then stored.timestamp == r.timestamp.value else stored.timestamp == now)
  }

  ghost predicate StoredIn(added: seq<Record>, r: AppendRecord, offset: nat, now: int) {
    exists j :: 0 <= j < |added| && Stores(added[j], r, offset, now)
  }

  ghost predicate ComesFrom(stored: Record, next: nat, rs: seq<AppendRecord>, offsets: seq<nat>, now: int)
    requires |offsets| == |rs|
  {
    exists i :: 0 <= i < |rs| && IsNew(next, offsets, i) && Stores(stored, rs[i], offsets[i], now)
  }

  /** What is added is every new record of the batch, field by field, and nothing else. */
  ghost predicate Delivers(next: nat, rs: seq<AppendRecord>, offsets: seq<nat>, added: seq<Record>, next': nat,
                           now: int) {
    && |offsets| == |rs| && Increasing(added)
    && next' == (if added == [] then next else added[|added| - 1].offset + 1)
    && (forall i :: 0 <= i < |rs| ==> Placed(next, offsets, rs[i].offset, i))
    && (forall i :: 0 <= i < |rs| && IsNew(next, offsets, i) ==> StoredIn(added, rs[i], offsets[i], now))
    && (forall r :: r in added ==> ComesFrom(r, next, rs, offsets, now))
    && ((forall i :: 0 <= i < |rs| ==> rs[i].offset.None?) ==> forall i :: 0 <= i < |rs| ==> offsets[i] == next + i)
  }

  /** Where the records after the first are assigned from. */
  function After(next: nat, r: AppendRecord): nat {
    if r.offset.None? then next + 1 else Max(next, r.offset.value + 1)
  }

  lemma AssignHead(next: nat, rs: seq<AppendRecord>, now: int)
    requires rs != []
    ensures var a, rest := Assign(next, rs, now), Assign(After(next, rs[0]), rs[1..], now);
            && a.offsets == [if rs[0].offset.Some? then rs[0].offset.value else next] + rest.offsets
            && a.added == (if a.offsets[0] < next then [] else [RecordAt(rs[0], a.offsets[0], now)]) + rest.added
            && After(next, rs[0]) == Max(next, a.offsets[0] + 1)
  {
  }

  lemma NewTail(next: nat, offsets: seq<nat>, i: nat)
    requires 0 < i < |offsets|
    ensures IsNew(next, offsets, i) <==> IsNew(Max(next, offsets[0] + 1), offsets[1..], i - 1)
  {
    var rest := offsets[1..];
    if IsNew(Max(next, offsets[0] + 1), rest, i - 1) {
      forall j | 0 <= j < i ensures offsets[j] < offsets[i] {
        if 0 < j { assert rest[j - 1] < rest[i - 1]; }
      }
    }
  }

  lemma {:induction false} AssignPlaces(next: nat, rs: seq<AppendRecord>, now: int, i: nat)
    requires i < |rs|
    ensures Placed(next, Assign(next, rs, now).offsets, rs[i].offset, i)
    decreases i
  {
    hide Assign, IsNew;
    AssignHead(next, rs, now);
    var a, next' := Assign(next, rs, now), After(next, rs[0]);
    if i == 0 {
      assert rs[0].offset.None? ==> IsNew(next, a.offsets, 0) by { NewFirst(next, a.offsets); }
    } else {
      AssignPlaces(next', rs[1..], now, i - 1);
      NewTail(next, a.offsets, i);
      PlacedTail(next, a.offsets, rs[i].offset, i);
    }
  }

  lemma NewFirst(next: nat, offsets: seq<nat>)
    requires offsets != []
    ensures IsNew(next, offsets, 0) <==> next <= offsets[0]
  {
  }

  lemma PlacedTail(next: nat, offsets: seq<nat>, given: Option<nat>, i: nat)
    requires 0 < i < |offsets| && Placed(Max(next, offsets[0] + 1), offsets[1..], given, i - 1)
    ensures Placed(next, offsets, given, i)
  {
    hide IsNew;
    var rest := offsets[1..];
    NewTail(next, offsets, i);
    if given.None? && offsets[i] != next && offsets[i] != offsets[0] + 1 {
      var j :| 0 <= j < i - 1 && rest[i - 1] == rest[j] + 1;
      assert offsets[i] == offsets[j + 1] + 1;
    }
  }

  lemma {:induction false} AssignStores(next: nat, rs: seq<AppendRecord>, now: int, i: nat)
    requires i < |rs| && IsNew(next, Assign(next, rs, now).offsets, i)
    ensures StoredIn(Assign(next, rs, now).added, rs[i], Assign(next, rs, now).offsets[i], now)
    decreases i
  {
    hide Assign, IsNew;
    AssignHead(next, rs, now);
    var a, rest := Assign(next, rs, now), Assign(After(next, rs[0]), rs[1..], now);
    if i == 0 {
      NewFirst(next, a.offsets);
      assert Stores(a.added[0], rs[0], a.offsets[0], now);
    } else {
      NewTail(next, a.offsets, i);
      AssignStores(After(next, rs[0]), rs[1..], now, i - 1);
      var j :| 0 <= j < |rest.added| && Stores(rest.added[j], rs[i], a.offsets[i], now);
      assert a.added[j + |a.added| - |rest.added|] == rest.added[j];
    }
  }

  lemma {:induction false} AssignOnly(next: nat, rs: seq<AppendRecord>, now: int, r: Record)
    requires r in Assign(next, rs, now).added
    ensures ComesFrom(r, next, rs, Assign(next, rs, now).offsets, now)
    decreases |rs|
  {
    hide IsNew;
    if rs != [] {
      hide Assign;
      AssignHead(next, rs, now);
      var a, next' := Assign(next, rs, now), After(next, rs[0]);
      var rest := Assign(next', rs[1..], now);
      if r in rest.added {
        AssignOnly(next', rs[1..], now, r);
        var i :| 0 <= i < |rs| - 1 && IsNew(next', rest.offsets, i) && Stores(r, rs[1..][i], rest.offsets[i], now);
        NewTail(next, a.offsets, i + 1);
        assert IsNew(next, a.offsets, i + 1) && Stores(r, rs[i + 1], a.offsets[i + 1], now);
      } else {
        NewFirst(next, a.offsets);
        assert IsNew(next, a.offsets, 0) && Stores(r, rs[0], a.offsets[0], now);
      }
    }
  }

  lemma {:induction false} AssignCounts(next: nat, rs: seq<AppendRecord>, now: int, i: nat)
    requires i < |rs| && forall k :: 0 <= k < |rs| ==> rs[k].offset.None?
    ensures Assign(next, rs, now).offsets[i] == next + i
    decreases i
  {
    AssignHead(next, rs, now);
    if 0 < i { AssignCounts(next + 1, rs[1..], now, i - 1); }
  }

  lemma {:induction false} AssignIncreases(next: nat, rs: seq<AppendRecord>, now: int)
    ensures var a := Assign(next, rs, now);
            && Increasing(a.added) && AtLeast(a.added, next)
            && a.next == if a.added == [] then next else a.added[|a.added| - 1].offset + 1
    decreases |rs|
  {
    if rs != [] {
      AssignHead(next, rs, now);
      AssignIncreases(After(next, rs[0]), rs[1..], now);
    }
  }

  lemma AssignDelivers(next: nat, rs: seq<AppendRecord>, now: int)
    ensures var a := Assign(next, rs, now); Delivers(next, rs, a.offsets, a.added, a.next, now)
  {
    hide Assign, IsNew, Placed, StoredIn, ComesFrom, Increasing, AtLeast;
    var a := Assign(next, rs, now);
    AssignIncreases(next, rs, now);
    forall i | 0 <= i < |rs| ensures Placed(next, a.offsets, rs[i].offset, i) { AssignPlaces(next, rs, now, i); }
    forall i | 0 <= i < |rs| && IsNew(next, a.offsets, i)
      ensures StoredIn(a.added, rs[i], a.offsets[i], now)
    {
      AssignStores(next, rs, now, i);
    }
    forall r | r in a.added ensures ComesFrom(r, next, rs, a.offsets, now) { AssignOnly(next, rs, now, r); }
    if forall i :: 0 <= i < |rs| ==> rs[i].offset.None? {
      forall i | 0 <= i < |rs| ensures a.offsets[i] == next + i { AssignCounts(next, rs, now, i); }
    }
  }

  // ---------- chains of segments ----------

  /** Where the records of segment `i` end: at the base of the next segment, or at `next`. */
  function EndOf(segments: seq<Segment>, i: nat, next: nat): nat
    requires i < |segments|
  {
    if i + 1 < |segments| then segments[i + 1].base else next
  }

  /** The segments hold the lists, in ranges that follow each other. */
  ghost predicate Chained(crc: Checksum, segments: seq<Segment>, lists: seq<seq<Record>>, next: nat) {
    && |segments| == |lists| && 0 < |segments|
    && (forall i, j :: 0 <= i < j < |segments| ==> segments[i].base < segments[j].base)
    && (forall i ::
          0 <= i < |segments| ==> Holds(crc, segments[i], lists[i]) && Below(lists[i], EndOf(segments, i, next)))
  }

  lemma FlatLast(lists: seq<seq<Record>>, rs: seq<Record>)
    requires lists != []
    ensures Flat(lists[|lists| - 1 := rs]) == Flat(lists[..|lists| - 1]) + rs
  {
    var front := lists[..|lists| - 1];
    assert lists[|lists| - 1 := rs] == front + [rs];
    FlatConcat(front, [rs]);
    assert [rs][1..] == [];
  }

  lemma {:induction false} FlatStorable(lists: seq<seq<Record>>)
    requires forall i :: 0 <= i < |lists| ==> AllStorable(lists[i])
    ensures AllStorable(Flat(lists))
  {
    if lists != [] { FlatStorable(lists[1..]); }
  }

  lemma FlatExtend(lists: seq<seq<Record>>, rs: seq<Record>)
    requires lists != []
    ensures Flat(lists[|lists| - 1 := lists[|lists| - 1] + rs]) == Flat(lists) + rs
  {
    var n := |lists| - 1;
    FlatLast(lists, lists[n] + rs);
    FlatLast(lists, lists[n]);
    assert lists[n := lists[n]] == lists;
  }

  // ---------- writing a batch ----------

  /** Records written to the batch but not yet to the segment. */
  datatype Batch = Batch(log: seq<byte>, entries: seq<Entry>, last: Option<nat>, next: nat, count: nat)

  const EmptyBatch := Batch([], [], None, 0, 0)

  function Newest(b: Batch, last: Option<nat>): Option<nat> {
    if b.last.Some? then b.last else last
  }

  ghost predicate BatchHolds(crc: Checksum, b: Batch, pend: seq<Record>, base: nat, size: nat, last: Option<nat>) {
    && AllStorable(pend) && b.log == EncodeRecords(crc, pend) && b.entries == SparseOf(base, pend, size, last)
    && Newest(b, last) == LastIndexed(pend, size, last) && b.count == |pend|
    && (pend != [] ==> b.next == pend[|pend| - 1].offset + 1)
  }

  function Push(crc: Checksum, b: Batch, r: Record, base: nat, size: nat, last: Option<nat>): Batch
    requires Storable(r)
  {
    var pos := size + |b.log|;
    var wants := WantsEntry(Newest(b, last), pos);
    Batch(b.log + EncodeRecord(crc, r), b.entries + (if wants then [(Relative(base, r.offset), pos)] else []),
          if wants then Some(pos) else b.last, r.offset + 1, b.count + 1)
  }

  lemma PushHolds(crc: Checksum, b: Batch, pend: seq<Record>, r: Record, base: nat, size: nat, last: Option<nat>)
    requires BatchHolds(crc, b, pend, base, size, last) && Storable(r)
    ensures BatchHolds(crc, Push(crc, b, r, base, size, last), pend + [r], base, size, last)
  {
    hide EncodeRecord, Storable, SparseOf, LastIndexed;
    SparsePush(base, pend, r, size, last);
    EncodedSize(crc, pend);
    EncodeConcat(crc, pend, [r]);
    assert [r][1..] == [];
    assert EncodeRecords(crc, [r]) == EncodeRecord(crc, r) + [];
  }

  /** The segment once a batch is written to it. */
  function Written(seg: Segment, b: Batch): Segment {
    Segment(seg.base, seg.log + b.log, seg.index + b.entries)
  }

  lemma WrittenHolds(crc: Checksum, seg: Segment, rs: seq<Record>, b: Batch, pend: seq<Record>)
    requires Holds(crc, seg, rs) && BatchHolds(crc, b, pend, seg.base, |seg.log|, LastIndexed(rs, 0, None))
    requires Increasing(rs + pend) && AtLeast(pend, seg.base)
    ensures Holds(crc, Written(seg, b), rs + pend)
    ensures LastIndexed(rs + pend, 0, None) == Newest(b, LastIndexed(rs, 0, None))
  {
    hide EncodeRecord, EncodeRecords, Storable, SparseOf, LastIndexed;
    EncodeConcat(crc, rs, pend);
    EncodedSize(crc, rs);
    SparseConcat(seg.base, rs, pend, 0, None);
  }

  lemma ChainedWrite(crc: Checksum, segments: seq<Segment>, lists: seq<seq<Record>>, next: nat, b: Batch,
                     pend: seq<Record>)
    requires Chained(crc, segments, lists, next) && pend != [] && Increasing(pend)
    requires var n := |segments| - 1;
             && BatchHolds(crc, b, pend, segments[n].base, |segments[n].log|, LastIndexed(lists[n], 0, None))
             && AtLeast(pend, Max(next, segments[n].base))
    ensures var n := |segments| - 1;
            && Chained(crc, segments[n := Written(segments[n], b)], lists[n := lists[n] + pend], b.next)
            && Newest(b, LastIndexed(lists[n], 0, None)) == LastIndexed(lists[n] + pend, 0, None)
  {
    hide Holds, BatchHolds, LastIndexed;
    var n := |segments| - 1;
    assert Holds(crc, segments[n], lists[n]) && Below(lists[n], next);
    assert b.next == pend[|pend| - 1].offset + 1 by {
      BatchNext(crc, b, pend, segments[n].base, |segments[n].log|, LastIndexed(lists[n], 0, None));
    }
    assert Increasing(lists[n] + pend) by { HoldsIncreasing(crc, segments[n], lists[n]); }
    WrittenHolds(crc, segments[n], lists[n], b, pend);
    var segments', lists' := segments[n := Written(segments[n], b)], lists[n := lists[n] + pend];
    forall i | 0 <= i < |segments|
      ensures Holds(crc, segments'[i], lists'[i]) && Below(lists'[i], EndOf(segments', i, b.next))
    {
      if i < n { assert Holds(crc, segments[i], lists[i]) && EndOf(segments', i, b.next) == EndOf(segments, i, next); }
    }
  }

  lemma BatchNext(crc: Checksum, b: Batch, pend: seq<Record>, base: nat, size: nat, last: Option<nat>)
    requires BatchHolds(crc, b, pend, base, size, last)
    ensures b.count == |pend| && (pend != [] ==> b.next == pend[|pend| - 1].offset + 1)
  {
  }

  lemma HoldsIncreasing(crc: Checksum, seg: Segment, rs: seq<Record>)
    requires Holds(crc, seg, rs)
    ensures Increasing(rs)
  {
  }

  lemma ChainedAdvance(crc: Checksum, segments: seq<Segment>, lists: seq<seq<Record>>, next: nat, next': nat)
    requires Chained(crc, segments, lists, next) && next <= next'
    ensures Chained(crc, segments, lists, next')
  {
    hide Holds;
    forall i | 0 <= i < |segments|
      ensures Holds(crc, segments[i], lists[i]) && Below(lists[i], EndOf(segments, i, next'))
    {
      assert Holds(crc, segments[i], lists[i]) && Below(lists[i], EndOf(segments, i, next));
    }
  }

  lemma ChainedRoll(crc: Checksum, segments: seq<Segment>, lists: seq<seq<Record>>, next: nat, base: nat)
    requires Chained(crc, segments, lists, next) && segments[|segments| - 1].base < base && next <= base
    ensures Chained(crc, segments + [Segment(base, [], [])], lists + [[]], next)
  {
    hide Holds;
    var segments', lists' := segments + [Segment(base, [], [])], lists + [[]];
    assert Holds(crc, Segment(base, [], []), []) by { NothingHeld(crc, base); }
    forall i | 0 <= i < |segments'|
      ensures Holds(crc, segments'[i], lists'[i]) && Below(lists'[i], EndOf(segments', i, next))
    {
      if i < |segments| { assert Holds(crc, segments[i], lists[i]) && Below(lists[i], EndOf(segments, i, next)); }
    }
  }

  lemma NothingHeld(crc: Checksum, base: nat)
    ensures Holds(crc, Segment(base, [], []), []) && LastIndexed([], 0, None) == None
  {
  }

  // ---------- how records are spread over segments ----------

  /** The lists once the records of the batch are written to the last of them. */
  function WithBatch(lists: seq<seq<Record>>, pend: seq<Record>): seq<seq<Record>>
    requires lists != []
  {
    lists[|lists| - 1 := lists[|lists| - 1] + pend]
  }

  lemma BatchNone(lists: seq<seq<Record>>)
    requires lists != []
    ensures WithBatch(lists, []) == lists
  {
    var last := lists[|lists| - 1];
    assert last + [] == last;
  }

  lemma BatchMore(lists: seq<seq<Record>>, pend: seq<Record>, r: Record)
    requires lists != []
    ensures WithBatch(WithBatch(lists, pend), [r]) == WithBatch(lists, pend + [r])
  {
    var last := lists[|lists| - 1];
    assert last + pend + [r] == last + (pend + [r]);
  }

  lemma BatchRolled(lists: seq<seq<Record>>, r: Record)
    ensures WithBatch(lists + [[]], [r]) == lists + [[r]]
  {
    var none: seq<Record> := [];
    assert none + [r] == [r];
  }

  /**
   From the segment that was active on, a segment outgrows the limit only by holding one record, and a
   new one is started only when the next record would not have fit.
   */
  ghost predicate Packed(before: seq<seq<Record>>, lists: seq<seq<Record>>, limit: nat)
    requires before != []
  {
    var n := |before| - 1;
    && |before| <= |lists| && lists[..n] == before[..n] && before[n] <= lists[n]
    && (forall i :: n <= i < |lists| ==> Bounded(lists[i], limit) || (i == n && lists[i] == before[i]))
    && (forall i :: n <= i < |lists| - 1 ==> Closed(lists, i, limit))
  }

  predicate Bounded(rs: seq<Record>, limit: nat) {
    SizeOf(rs) <= limit || |rs| <= 1
  }

  predicate Closed(lists: seq<seq<Record>>, i: nat, limit: nat)
    requires i + 1 < |lists|
  {
    lists[i] != [] && lists[i + 1] != [] && Overflows(lists[i], lists[i + 1][0], limit)
  }

  predicate Overflows(rs: seq<Record>, r: Record, limit: nat) {
    limit < SizeOf(rs) + DiskSize(r)
  }

  lemma SizeOne(r: Record)
    ensures SizeOf([r]) == DiskSize(r) && 0 < DiskSize(r)
  {
    assert [r][1..] == [];
  }

  lemma PackedStart(lists: seq<seq<Record>>, limit: nat)
    requires lists != []
    ensures Packed(lists, WithBatch(lists, []), limit)
  {
    BatchNone(lists);
  }

  lemma PackedGrow(before: seq<seq<Record>>, lists: seq<seq<Record>>, limit: nat, r: Record)
    requires before != [] && Packed(before, lists, limit)
    requires var active := lists[|lists| - 1]; active == [] || !Overflows(active, r, limit)
    ensures Packed(before, WithBatch(lists, [r]), limit)
  {
    hide DiskSize, SizeOf;
    var n, lists' := |before| - 1, WithBatch(lists, [r]);
    SizeConcat(lists[|lists| - 1], [r]);
    SizeOne(r);
    forall i | n <= i < |lists'| - 1 ensures Closed(lists', i, limit) {
      assert Closed(lists, i, limit);
    }
  }

  lemma PackedRoll(before: seq<seq<Record>>, lists: seq<seq<Record>>, limit: nat, r: Record)
    requires before != [] && Packed(before, lists, limit)
    requires var active := lists[|lists| - 1]; active != [] && Overflows(active, r, limit)
    ensures Packed(before, lists + [[r]], limit)
  {
    hide DiskSize, SizeOf, Overflows;
    var n, lists' := |before| - 1, lists + [[r]];
    forall i | n <= i < |lists'| - 1 ensures Closed(lists', i, limit) {
      if i < |lists| - 1 { assert Closed(lists, i, limit); }
    }
  }

  function Active(lists: seq<seq<Record>>): seq<Record> {
    if lists == [] then [] else lists[|lists| - 1]
  }

  /** One more record, in the active segment or in a new one. */
  lemma PackedAdd(before: seq<seq<Record>>, lists: seq<seq<Record>>, limit: nat, r: Record)
    requires before != [] && Packed(before, lists, limit)
    ensures var size := SizeOf(Active(lists));
            if 0 < size && limit < size + DiskSize(r) then Packed(before, lists + [[r]], limit)
            else Packed(before, WithBatch(lists, [r]), limit)
  {
    hide DiskSize, SizeOf, Packed, WithBatch;
    assert lists != [] by { PackedLength(before, lists, limit); }
    var size := SizeOf(Active(lists));
    NoSize(Active(lists));
    if 0 < size && limit < size + DiskSize(r) {
      PackedRoll(before, lists, limit, r);
    } else {
      PackedGrow(before, lists, limit, r);
    }
  }

  lemma PackedLength(before: seq<seq<Record>>, lists: seq<seq<Record>>, limit: nat)
    requires before != [] && Packed(before, lists, limit)
    ensures lists != []
  {
  }

  /** The bytes of the active segment and of the batch are those of their records. */
  lemma WrittenSize(crc: Checksum, segments: seq<Segment>, lists: seq<seq<Record>>, next: nat, b: Batch,
                    pend: seq<Record>, last: Option<nat>)
    requires Chained(crc, segments, lists, next)
    requires BatchHolds(crc, b, pend, segments[|segments| - 1].base, |segments[|segments| - 1].log|, last)
    ensures |segments[|segments| - 1].log| + |b.log| == SizeOf(Active(WithBatch(lists, pend)))
  {
    hide DiskSize, Storable, EncodeRecord, SparseOf, LastIndexed;
    var n := |segments| - 1;
    assert Holds(crc, segments[n], lists[n]);
    EncodedSize(crc, lists[n]);
    EncodedSize(crc, pend);
    SizeConcat(lists[n], pend);
  }

  lemma NoSize(rs: seq<Record>)
    ensures SizeOf(rs) == 0 <==> rs == []
  {
    if rs != [] { SizeOne(rs[0]); }
  }

  // ---------- the partition ----------

  class Partition {
    const crc: Checksum
    const segmentBytes: nat
    var segments: seq<Segment>
    var lastIndexPos: Option<nat>
    var nextOffset: nat
    var startOffset: nat
    /** The records of each segment. */
    ghost var lists: seq<seq<Record>>

    /** Between a roll and the write that follows it, the active segment may start past the end. */
    ghost predicate Open()
      reads this
    {
      && Chained(crc, segments, lists, nextOffset)
      && lastIndexPos == LastIndexed(lists[|lists| - 1], 0, None)
      && startOffset == segments[0].base
    }

    ghost predicate Valid()
      reads this
    {
      Open() && segments[|segments| - 1].base <= nextOffset
    }

    ghost function Contents(): seq<Record>
      reads this
    {
      Flat(lists)
    }

    constructor (crc: Checksum, segmentBytes: nat)
      ensures Valid() && Contents() == [] && nextOffset == 0
    {
      this.crc, this.segmentBytes := crc, segmentBytes;
      segments := [Segment(0, [], [])];
      lastIndexPos, nextOffset, startOffset := None, 0, 0;
      lists := [[]];
    }

    /** A partition on what recovery found. */
    constructor Reopen(crc: Checksum, segmentBytes: nat, segments: seq<Segment>, next: nat, last: Option<nat>,
                       ghost lists: seq<seq<Record>>)
      requires Chained(crc, segments, lists, next) && segments[|segments| - 1].base <= next
      requires last == LastIndexed(lists[|lists| - 1], 0, None)
      ensures Valid() && Contents() == Flat(lists) && nextOffset == next && this.segments == segments &&
              this.lists == lists
      ensures this.crc == crc && this.segmentBytes == segmentBytes && startOffset == segments[0].base
    {
      hide Chained, LastIndexed, Flat;
      ChainedLength(crc, segments, lists, next);
      this.crc, this.segmentBytes := crc, segmentBytes;
      this.segments, this.lists := segments, lists;
      lastIndexPos, nextOffset, startOffset := last, next, segments[0].base;
    }

    /** Writes the batch to the active segment and publishes it. */
    method Commit(b: Batch, ghost pend: seq<Record>)
      requires Open() &&
               BatchHolds(crc, b, pend, segments[|segments| - 1].base, |segments[|segments| - 1].log|, lastIndexPos)
      requires Increasing(pend) && AtLeast(pend, Max(nextOffset, segments[|segments| - 1].base))
      modifies this
      ensures Open() && Contents() == old(Contents()) + pend
      ensures lists == WithBatch(old(lists), pend)
      ensures nextOffset == if pend == [] then old(nextOffset) else b.next
      ensures |segments| == old(|segments|) && segments[0].base == old(segments[0].base)
      ensures segments[|segments| - 1].base == old(segments[|segments| - 1].base)
      ensures segments[|segments| - 1].log == old(segments[|segments| - 1].log) + b.log
    {
      hide Chained, BatchHolds, LastIndexed, Flat;
      ghost var n := |segments| - 1;
      ChainedLength(crc, segments, lists, nextOffset);
      BatchNext(crc, b, pend, segments[n].base, |segments[n].log|, lastIndexPos);
      FlatExtend(lists, pend);
      if b.count == 0 {
        assert pend == [] && lists[n] + pend == lists[n];
        BatchEmpty(crc, b, segments[n].base, |segments[n].log|, lastIndexPos);
        return;
      }
      ChainedWrite(crc, segments, lists, nextOffset, b, pend);
      if b.last.Some? { lastIndexPos := b.last; }
      segments := segments[|segments| - 1 := Written(segments[|segments| - 1], b)];
      nextOffset := b.next;
      lists := lists[n := lists[n] + pend];
    }

    /** Seals the active segment and starts a new one at `base`. */
    method Roll(base: nat)
      requires Valid() && segments[|segments| - 1].base < base && nextOffset <= base
      modifies this
      ensures Open() && Contents() == old(Contents()) && nextOffset == old(nextOffset)
      ensures segments == old(segments) + [Segment(base, [], [])] && lastIndexPos == None && lists == old(lists) + [[]]
    {
      hide Chained, LastIndexed;
      ghost var none: seq<seq<Record>> := [[]];
      ChainedRoll(crc, segments, lists, nextOffset, base);
      ChainedLength(crc, segments, lists, nextOffset);
      NothingHeld(crc, base);
      FlatConcat(lists, none);
      assert none[1..] == [] && Flat(lists) + [] == Flat(lists);
      segments := segments + [Segment(base, [], [])];
      lists := lists + none;
      lastIndexPos := None;
    }

    /** In the middle of an append: `b` holds the records `pend`, and the next offset will be `next`. */
    ghost predicate Writing(b: Batch, pend: seq<Record>, next: nat)
      reads this
    {
      && Open() && nextOffset <= next && segments[|segments| - 1].base <= next
      && BatchHolds(crc, b, pend, segments[|segments| - 1].base, |segments[|segments| - 1].log|, lastIndexPos)
      && Increasing(pend) && AtLeast(pend, Max(nextOffset, segments[|segments| - 1].base)) && Below(pend, next)
      && (if pend == [] then next == nextOffset else b.next == next)
    }

    /** Adds one record to the batch, starting a new segment first if the active one would overflow. */
    method Add(rec: Record, b: Batch, ghost pend: seq<Record>, ghost next: nat, ghost before: seq<seq<Record>>)
      returns (b': Batch, ghost pend': seq<Record>)
      requires Writing(b, pend, next) && Storable(rec) && next <= rec.offset
      requires before != [] && lists != [] && Packed(before, WithBatch(lists, pend), segmentBytes)
      modifies this
      ensures Writing(b', pend', rec.offset + 1) && startOffset == old(startOffset)
      ensures Contents() + pend' == old(Contents()) + pend + [rec]
      ensures lists != [] && Packed(before, WithBatch(lists, pend'), segmentBytes)
    {
      hide Chained, BatchHolds, LastIndexed, Flat, Push, Storable, DiskSize, Packed, SizeOf, WithBatch, Active;
      ChainedLength(crc, segments, lists, nextOffset);
      b', pend' := b, pend;
      var size := |segments[|segments| - 1].log| + |b.log|;
      ghost var full := WithBatch(lists, pend);
      WrittenSize(crc, segments, lists, nextOffset, b, pend, lastIndexPos);
      PackedAdd(before, full, segmentBytes, rec);
      if 0 < size && segmentBytes < size + DiskSize(rec) {
        WrittenBelow(crc, segments, lists, nextOffset, b, pend, lastIndexPos);
        assert pend != [] ==> segments[|segments| - 1].base <= pend[0].offset < next;
        Commit(b, pend);
        Roll(rec.offset);
        EmptyHolds(crc, rec.offset, 0, None);
        b', pend' := EmptyBatch, [];
        BatchRolled(full, rec);
        assert pend' + [rec] == [rec];
      } else {
        BatchMore(lists, pend, rec);
      }
      ghost var active := segments[|segments| - 1];
      PushHolds(crc, b', pend', rec, active.base, |active.log|, lastIndexPos);
      b' := Push(crc, b', rec, segments[|segments| - 1].base, |segments[|segments| - 1].log|, lastIndexPos);
      pend' := pend' + [rec];
      BatchNext(crc, b', pend', active.base, |active.log|, lastIndexPos);
    }

    /**
     Appends records: each new one is stored under the offset it was assigned, in order, after all that
     was there; those already applied are skipped. Segments are rolled when a record would not fit.
     */
    method AppendBatch(rs: seq<AppendRecord>, now: int) returns (offsets: seq<nat>)
      requires Valid() && AllStorable(Assign(nextOffset, rs, now).added)
      modifies this
      ensures Valid() && startOffset == old(startOffset)
      ensures var a := Assign(old(nextOffset), rs, now);
              Contents() == old(Contents()) + a.added && nextOffset == a.next && offsets == a.offsets
      ensures old(Contents()) <= Contents() &&
              Delivers(old(nextOffset), rs, offsets, Contents()[|old(Contents())|..], nextOffset, now)
      ensures old(lists) != [] && Packed(old(lists), lists, segmentBytes)
    {
      hide Chained, BatchHolds, LastIndexed, Flat, Assign, Assigning, Delivers, Packed, WithBatch;
      ghost var all := Assign(nextOffset, rs, now);
      var next: nat, b := nextOffset, EmptyBatch;
      ghost var pend: seq<Record>, done: seq<Record> := [], [];
      offsets := [];
      ChainedLength(crc, segments, lists, nextOffset);
      EmptyHolds(crc, segments[|segments| - 1].base, |segments[|segments| - 1].log|, lastIndexPos);
      PackedStart(lists, segmentBytes);
      var i := 0;
      assert rs[0..] == rs && Assigning(all, [], [], all) by { AssigningStart(all); }
      while i < |rs|
        invariant 0 <= i <= |rs| && Writing(b, pend, next) && startOffset == old(startOffset)
        invariant Assigning(all, offsets, done, Assign(next, rs[i..], now))
        invariant Contents() + pend == old(Contents()) + done
        invariant lists != [] && Packed(old(lists), WithBatch(lists, pend), segmentBytes)
      {
        AssigningStep(all, offsets, done, next, rs, i, now);
        var r := rs[i];
        if r.offset.Some? && r.offset.value < next {
          offsets := offsets + [r.offset.value];
        } else {
          var offset := if r.offset.Some? then r.offset.value else next;
          b, pend := Add(RecordAt(r, offset, now), b, pend, next, old(lists));
          done := done + [RecordAt(r, offset, now)];
          offsets := offsets + [offset];
          next := offset + 1;
        }
        i := i + 1;
      }
      AssigningEnd(all, offsets, done, next, rs, now);
      Finish(b, pend, next);
      AssignDelivers(old(nextOffset), rs, now);
      assert Contents()[|old(Contents())|..] == all.added;
    }

    /**
     One poll: records from `target` on out of one segment, and where to poll next, as far as the windowed
     reader gets to them.
     */
    method ReadRecords(target: nat, maxRecords: nat, maxBytes: nat)
      returns (out: seq<Record>, next: nat, watermark: nat)
      requires Valid()
      ensures |segments| == |lists| &&
              Poll(out, next) == PollSeen(Bases(segments), lists, startOffset, target, maxRecords, maxBytes, nextOffset)
      ensures watermark == nextOffset
    {
      hide Holds, ReadOf, SeenLists, Seen, LastIndexed;
      watermark := nextOffset;
      out, next := [], target;
      if watermark <= target || maxRecords == 0 { return; }
      var t := Max(target, startOffset);
      ghost var seen := SeenLists(Bases(segments), lists, t, WindowFor(maxBytes));
      var i := SegmentFor(Bases(segments), t);
      var effective := t;
      while i < |segments|
        invariant out == []
        invariant PollSeen(Bases(segments), lists, startOffset, target, maxRecords, maxBytes, nextOffset)
               == PollFrom(Bases(segments), seen, i, t, effective, maxRecords, maxBytes, nextOffset)
        decreases |segments| - i
      {
        out := ReadFrom(crc, segments[i], lists[i], t, maxRecords, maxBytes, watermark);
        SeenAt(Bases(segments), lists, t, WindowFor(maxBytes), i);
        if out != [] {
          next := out[|out| - 1].offset + 1;
          return;
        }
        effective := Max(effective, if i + 1 < |segments| then segments[i + 1].base else watermark);
        i := i + 1;
      }
      next := effective;
    }

    /** The end moves forward without a write; offsets in between hold nothing. */
    method AdvanceTo(offset: nat)
      requires Valid()
      modifies this
      ensures Valid() && Contents() == old(Contents()) && nextOffset == Max(old(nextOffset), offset) &&
              startOffset == old(startOffset)
    {
      hide Chained, LastIndexed, Flat;
      ChainedLength(crc, segments, lists, nextOffset);
      ChainedAdvance(crc, segments, lists, nextOffset, Max(nextOffset, offset));
      nextOffset := Max(nextOffset, offset);
    }

    /** The last batch of an append. */
    method Finish(b: Batch, ghost pend: seq<Record>, ghost next: nat)
      requires Writing(b, pend, next)
      modifies this
      ensures Valid() && startOffset == old(startOffset) && nextOffset == next && Contents() == old(Contents()) + pend
      ensures lists == WithBatch(old(lists), pend)
    {
      hide Chained, BatchHolds, LastIndexed, Flat, Storable;
      ChainedLength(crc, segments, lists, nextOffset);
      Commit(b, pend);
    }
  }

  function Bases(segments: seq<Segment>): (bases: seq<nat>)
    ensures |bases| == |segments| && forall i :: 0 <= i < |bases| ==> bases[i] == segments[i].base
  {
    if segments == [] then [] else [segments[0].base] + Bases(segments[1..])
  }

  lemma ChainedOrdered(crc: Checksum, segments: seq<Segment>, lists: seq<seq<Record>>, next: nat)
    requires Chained(crc, segments, lists, next)
    ensures Ordered(Bases(segments), lists)
  {
    forall i | 0 <= i < |lists| ensures Increasing(lists[i]) && AtLeast(lists[i], Bases(segments)[i]) {
      assert Holds(crc, segments[i], lists[i]);
    }
    forall i | 0 <= i < |lists| - 1 ensures Below(lists[i], Bases(segments)[i + 1]) {
      assert Below(lists[i], EndOf(segments, i, next));
    }
  }

  lemma AssignStep(next: nat, rs: seq<AppendRecord>, i: nat, now: int)
    requires i < |rs|
    ensures var a := Assign(next, rs[i..], now);
            if rs[i].offset.Some? && rs[i].offset.value < next then
              var rest := Assign(next, rs[i + 1..], now);
              a.offsets == [rs[i].offset.value] + rest.offsets && a.added == rest.added && a.next == rest.next
            else
              var o := if rs[i].offset.Some? then rs[i].offset.value else next;
              var rest := Assign(o + 1, rs[i + 1..], now);
              && a.offsets == [o] + rest.offsets && a.added == [RecordAt(rs[i], o, now)] + rest.added &&
                 a.next == rest.next
              && (AllStorable(a.added) ==> Storable(RecordAt(rs[i], o, now)) && AllStorable(rest.added))
  {
    hide Storable;
    assert rs[i..][1..] == rs[i + 1..];
    var a := Assign(next, rs[i..], now);
    if AllStorable(a.added) && !(rs[i].offset.Some? && rs[i].offset.value < next) {
      assert Storable(a.added[0]);
      assert a.added[1..] == Assign(a.offsets[0] + 1, rs[i + 1..], now).added;
    }
  }

  /** Of the assignment `all`, the offsets and records so far are out and `a` is still to come. */
  ghost predicate Assigning(all: Assigned, offsets: seq<nat>, done: seq<Record>, a: Assigned) {
    all.offsets == offsets + a.offsets && all.added == done + a.added && all.next == a.next && AllStorable(a.added)
  }

  lemma AssigningStart(all: Assigned)
    ensures AllStorable(all.added) ==> Assigning(all, [], [], all)
  {
    assert [] + all.offsets == all.offsets && [] + all.added == all.added;
  }

  lemma AssigningStep(all: Assigned, offsets: seq<nat>, done: seq<Record>, next: nat, rs: seq<AppendRecord>, i: nat,
                      now: int)
    requires i < |rs| && Assigning(all, offsets, done, Assign(next, rs[i..], now))
    ensures if rs[i].offset.Some? && rs[i].offset.value < next then
              Assigning(all, offsets + [rs[i].offset.value], done, Assign(next, rs[i + 1..], now))
            else
              var o := if rs[i].offset.Some? then rs[i].offset.value else next;
              Storable(RecordAt(rs[i], o, now))
              && Assigning(all, offsets + [o], done + [RecordAt(rs[i], o, now)], Assign(o + 1, rs[i + 1..], now))
  {
    hide Assign, Storable;
    AssignStep(next, rs, i, now);
  }

  lemma AssigningEnd(all: Assigned, offsets: seq<nat>, done: seq<Record>, next: nat, rs: seq<AppendRecord>, now: int)
    requires Assigning(all, offsets, done, Assign(next, rs[|rs|..], now))
    ensures all == Assigned(offsets, done, next)
  {
    assert rs[|rs|..] == [] && offsets + [] == offsets && done + [] == done;
  }

  lemma ChainedLength(crc: Checksum, segments: seq<Segment>, lists: seq<seq<Record>>, next: nat)
    requires Chained(crc, segments, lists, next)
    ensures |segments| == |lists| && 0 < |segments|
  {
  }

  lemma EmptyHolds(crc: Checksum, base: nat, size: nat, last: Option<nat>)
    ensures BatchHolds(crc, EmptyBatch, [], base, size, last)
  {
  }

  /** If anything is written or about to be, the active segment starts before the end. */
  lemma WrittenBelow(crc: Checksum, segments: seq<Segment>, lists: seq<seq<Record>>, next: nat, b: Batch,
                     pend: seq<Record>, last: Option<nat>)
    requires Chained(crc, segments, lists, next)
    requires BatchHolds(crc, b, pend, segments[|segments| - 1].base, |segments[|segments| - 1].log|, last)
    ensures 0 < |segments[|segments| - 1].log| ==> segments[|segments| - 1].base < next
    ensures 0 < |b.log| ==> pend != []
  {
    var n := |segments| - 1;
    assert Holds(crc, segments[n], lists[n]) && Below(lists[n], next);
    if 0 < |segments[n].log| { assert lists[n][0].offset < next; }
  }

  lemma BatchEmpty(crc: Checksum, b: Batch, base: nat, size: nat, last: Option<nat>)
    requires BatchHolds(crc, b, [], base, size, last)
    ensures b.log == []
  {
  }
}
