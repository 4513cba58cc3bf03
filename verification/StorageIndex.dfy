/** The sparse index of a segment: a function of the segment's records, however it is produced. */
module StorageIndex {
  import opened Basics
  import opened StorageRecord

  const INDEX_INTERVAL_BYTES: nat := 4096

  /** Relative offset and file position. */
  type Entry = (nat, nat)

  predicate WantsEntry(last: Option<nat>, pos: nat) {
    last.None? || last.value + INDEX_INTERVAL_BYTES <= pos
  }

  function Relative(base: nat, offset: nat): nat {
    if offset < base then 0 else offset - base
  }

  /** The index of records that start at byte `pos`, when the entry before them is at `last`. */
  function SparseOf(base: nat, rs: seq<Record>, pos: nat, last: Option<nat>): seq<Entry> {
    if rs == [] then []
    else if WantsEntry(last, pos)
    then [(Relative(base, rs[0].offset), pos)] + SparseOf(base, rs[1..], pos + DiskSize(rs[0]), Some(pos))
    else SparseOf(base, rs[1..], pos + DiskSize(rs[0]), last)
  }

  /** Position of the newest entry after indexing the records. */
  function LastIndexed(rs: seq<Record>, pos: nat, last: Option<nat>): Option<nat> {
    if rs == [] then last
    else LastIndexed(rs[1..], pos + DiskSize(rs[0]), if WantsEntry(last, pos) then Some(pos) else last)
  }

  lemma {:induction false} SparseConcat(base: nat, a: seq<Record>, b: seq<Record>, pos: nat, last: Option<nat>)
    ensures SparseOf(base, a + b, pos, last)
         == SparseOf(base, a, pos, last) + SparseOf(base, b, pos + SizeOf(a), LastIndexed(a, pos, last))
    ensures LastIndexed(a + b, pos, last) == LastIndexed(b, pos + SizeOf(a), LastIndexed(a, pos, last))
  {
    hide DiskSize;
    if a == [] {
      assert a + b == b;
    } else {
      assert (a + b)[1..] == a[1..] + b;
      SparseConcat(base, a[1..], b, pos + DiskSize(a[0]), if WantsEntry(last, pos) then Some(pos) else last);
    }
  }

  /** One more record: whether it gets an entry depends only on the newest entry. */
  lemma SparsePush(base: nat, rs: seq<Record>, r: Record, pos: nat, last: Option<nat>)
    ensures var at, prev := pos + SizeOf(rs), LastIndexed(rs, pos, last);
            && SparseOf(base, rs + [r], pos, last)
               == SparseOf(base, rs, pos,
                           last) + (if WantsEntry(prev, at) then [(Relative(base, r.offset), at)] else [])
            && LastIndexed(rs + [r], pos, last) == (if WantsEntry(prev, at) then Some(at) else prev)
  {
    SparseConcat(base, rs, [r], pos, last);
    assert [r][1..] == [];
  }

  // ---------- thinning ----------

  /** One entry per record, as indexes were once written. */
  function DenseOf(base: nat, rs: seq<Record>, pos: nat): seq<Entry> {
    if rs == [] then [] else [(Relative(base, rs[0].offset), pos)] + DenseOf(base, rs[1..], pos + DiskSize(rs[0]))
  }

  function Thin(entries: seq<Entry>, last: Option<nat>): seq<Entry> {
    if entries == [] then []
    else if WantsEntry(last, entries[0].1) then [entries[0]] + Thin(entries[1..], Some(entries[0].1))
    else Thin(entries[1..], last)
  }

  /** Thinning a dense index gives the sparse one. */
  lemma {:induction false} ThinDense(base: nat, rs: seq<Record>, pos: nat, last: Option<nat>)
    ensures Thin(DenseOf(base, rs, pos), last) == SparseOf(base, rs, pos, last)
  {
    if rs != [] {
      var d := DenseOf(base, rs, pos);
      assert d[1..] == DenseOf(base, rs[1..], pos + DiskSize(rs[0]));
      ThinDense(base, rs[1..], pos + DiskSize(rs[0]), if WantsEntry(last, pos) then Some(pos) else last);
    }
  }

  /** Thinning a sparse index changes nothing. */
  lemma {:induction false} ThinSparse(base: nat, rs: seq<Record>, pos: nat, last: Option<nat>)
    ensures Thin(SparseOf(base, rs, pos, last), last) == SparseOf(base, rs, pos, last)
  {
    if rs != [] {
      var next := pos + DiskSize(rs[0]);
      if WantsEntry(last, pos) {
        assert SparseOf(base, rs, pos, last)[1..] == SparseOf(base, rs[1..], next, Some(pos));
        ThinSparse(base, rs[1..], next, Some(pos));
      } else {
        ThinSparse(base, rs[1..], next, last);
      }
    }
  }

  method ThinIndex(entries: seq<Entry>) returns (out: seq<Entry>)
    ensures out == Thin(entries, None)
  {
    out := [];
    var i := 0;
    assert entries[0..] == entries;
    while i < |entries|
      invariant 0 <= i <= |entries|
      invariant Thin(entries, None) == out + Thin(entries[i..], if out == [] then None else Some(out[|out| - 1].1))
    {
      assert entries[i..][1..] == entries[i + 1..];
      if out == [] || out[|out| - 1].1 + INDEX_INTERVAL_BYTES <= entries[i].1 { out := out + [entries[i]]; }
      i := i + 1;
    }
    assert entries[i..] == [];
  }

  // ---------- lookup ----------

  predicate Ascending(entries: seq<Entry>) {
    forall i, j :: 0 <= i < j < |entries| ==> entries[i].0 < entries[j].0
  }

  /** The last entry at or below `target`. */
  function Floor(entries: seq<Entry>, target: nat): (r: Option<Entry>)
  {
    if entries == [] then None
    else if entries[|entries| - 1].0 <= target then Some(entries[|entries| - 1])
    else Floor(entries[..|entries| - 1], target)
  }

  /** A binary search over the ascending entries, as the index does it. */
  method FloorSearch(entries: seq<Entry>, target: nat) returns (r: Option<Entry>)
    requires Ascending(entries)
    ensures r == Floor(entries, target)
  {
    var lo, hi := 0, |entries|;
    while lo < hi
      invariant 0 <= lo <= hi <= |entries|
      invariant forall k :: 0 <= k < lo ==> entries[k].0 <= target
      invariant forall k :: hi <= k < |entries| ==> target < entries[k].0
    {
      var mid := (lo + hi) / 2;
      if entries[mid].0 <= target { lo := mid + 1; } else { hi := mid; }
    }
    FloorIs(entries, target, lo);
    r := if lo == 0 then None else Some(entries[lo - 1]);
  }

  lemma {:induction false} FloorIs(entries: seq<Entry>, target: nat, n: nat)
    requires n <= |entries| && (forall k :: 0 <= k < n ==> entries[k].0 <= target)
    requires forall k :: n <= k < |entries| ==> target < entries[k].0
    ensures Floor(entries, target) == if n == 0 then None else Some(entries[n - 1])
    decreases |entries|
  {
    if n < |entries| { FloorIs(entries[..|entries| - 1], target, n); }
  }

  // ---------- the index leads to the right place ----------

  predicate Increasing(rs: seq<Record>) {
    forall i, j :: 0 <= i < j < |rs| ==> rs[i].offset < rs[j].offset
  }

  predicate AtLeast(rs: seq<Record>, base: nat) {
    forall k :: 0 <= k < |rs| ==> base <= rs[k].offset
  }

  /** Every entry of the index belongs to a record that starts where it says. */
  lemma {:induction false} EntryOfRecord(base: nat, rs: seq<Record>, pos: nat, last: Option<nat>, e: Entry)
    returns (k: nat)
    requires e in SparseOf(base, rs, pos, last)
    ensures k < |rs| && e == (Relative(base, rs[k].offset), pos + SizeOf(rs[..k]))
  {
    var next := pos + DiskSize(rs[0]);
    if WantsEntry(last, pos) && e == (Relative(base, rs[0].offset), pos) {
      k := 0;
    } else {
      k := EntryOfRecord(base, rs[1..], next, if WantsEntry(last, pos) then Some(pos) else last, e);
      assert rs[..k + 1][1..] == rs[1..][..k];
      k := k + 1;
    }
  }

  lemma {:induction false} SparseAscends(base: nat, rs: seq<Record>, pos: nat, last: Option<nat>)
    requires Increasing(rs) && AtLeast(rs, base)
    ensures Ascending(SparseOf(base, rs, pos, last))
  {
    if rs != [] {
      var next, prev := pos + DiskSize(rs[0]), if WantsEntry(last, pos) then Some(pos) else last;
      SparseAscends(base, rs[1..], next, prev);
      if WantsEntry(last, pos) {
        var rest := SparseOf(base, rs[1..], next, prev);
        forall j | 0 <= j < |rest| ensures rs[0].offset - base < rest[j].0 {
          var k := EntryOfRecord(base, rs[1..], next, prev, rest[j]);
        }
      }
    }
  }

  /** Reading from the floor entry skips only records below the target. */
  lemma FloorSkips(base: nat, rs: seq<Record>, target: nat) returns (k: nat)
    requires Increasing(rs) && AtLeast(rs, base)
    ensures k <= |rs| && (k == 0 || k < |rs|)
    ensures var f := Floor(SparseOf(base, rs, 0, None), Relative(base, target));
            (if f.None? then 0 else f.value.1) == SizeOf(rs[..k])
    ensures forall j :: 0 <= j < k ==> rs[j].offset < target
  {
    var entries := SparseOf(base, rs, 0, None);
    var f := Floor(entries, Relative(base, target));
    k := 0;
    if f.Some? {
      FloorIn(entries, Relative(base, target));
      k := EntryOfRecord(base, rs, 0, None, f.value);
      if target < base { assert rs[k].offset == base; }
    }
  }

  /** Before every record, and fewer than the interval's bytes away, is an entry. */
  lemma {:induction false} EntryBefore(base: nat, rs: seq<Record>, pos: nat, last: Option<nat>, k: nat)
    returns (i: nat, e: Entry)
    requires k < |rs| && (last.Some? ==> last.value + INDEX_INTERVAL_BYTES <= pos + SizeOf(rs[..k]))
    ensures i <= k && e in SparseOf(base, rs, pos, last) && e.0 == Relative(base, rs[i].offset)
    ensures pos + SizeOf(rs[..k]) < e.1 + INDEX_INTERVAL_BYTES
    decreases k
  {
    hide DiskSize;
    if k == 0 {
      i, e := 0, (Relative(base, rs[0].offset), pos);
    } else {
      var next, at := pos + DiskSize(rs[0]), pos + SizeOf(rs[..k]);
      assert rs[..k][1..] == rs[1..][..k - 1];
      var prev := if WantsEntry(last, pos) then Some(pos) else last;
      if prev.Some? && at < prev.value + INDEX_INTERVAL_BYTES {
        i, e := 0, (Relative(base, rs[0].offset), pos);
      } else {
        i, e := EntryBefore(base, rs[1..], next, prev, k - 1);
        i := i + 1;
      }
    }
  }

  lemma {:induction false} SizeGrows(rs: seq<Record>, i: nat, k: nat)
    requires i <= k <= |rs|
    ensures SizeOf(rs[..i]) <= SizeOf(rs[..k])
  {
    hide DiskSize;
    SizeConcat(rs[..i], rs[i..k]);
    assert rs[..i] + rs[i..k] == rs[..k];
  }

  lemma {:induction false} FloorNewest(entries: seq<Entry>, target: nat, e: Entry)
    requires e in entries && e.0 <= target && Ascending(entries)
    ensures Floor(entries, target).Some? && e.0 <= Floor(entries, target).value.0
    decreases |entries|
  {
    var last := entries[|entries| - 1];
    if target < last.0 { FloorNewest(entries[..|entries| - 1], target, e); }
  }

  /** The entry a lookup of a record's offset finds lies fewer than the interval's bytes before the record. */
  lemma FloorNear(base: nat, rs: seq<Record>, k: nat)
    requires Increasing(rs) && AtLeast(rs, base) && k < |rs|
    ensures var f := Floor(SparseOf(base, rs, 0, None), Relative(base, rs[k].offset));
            f.Some? && f.value.1 <= SizeOf(rs[..k]) < f.value.1 + INDEX_INTERVAL_BYTES
  {
    hide SparseOf, SizeOf, Floor;
    var entries, target := SparseOf(base, rs, 0, None), Relative(base, rs[k].offset);
    var i, e := EntryBefore(base, rs, 0, None, k);
    SparseAscends(base, rs, 0, None);
    FloorNewest(entries, target, e);
    FloorIn(entries, target);
    var f := Floor(entries, target).value;
    var ke := EntryOfRecord(base, rs, 0, None, e);
    var kf := EntryOfRecord(base, rs, 0, None, f);
    SizeGrows(rs, kf, k);
    SizeGrows(rs, ke, kf);
  }

  lemma {:induction false} FloorIn(entries: seq<Entry>, target: nat)
    requires Floor(entries, target).Some?
    ensures Floor(entries, target).value in entries && Floor(entries, target).value.0 <= target
    decreases |entries|
  {
    if target < entries[|entries| - 1].0 { FloorIn(entries[..|entries| - 1], target); }
  }
}
