/**
 Compaction of the sealed segments of a partition: what survives, that the meaning of the log is kept,
 and the two passes that compute and write the survivors.
 */
module Compaction {
  import opened Basics
  import opened Bytes
  import opened StorageRecord
  import opened StorageCursor
  import opened StorageIndex
  import opened StorageSegment
  import opened StorageScan
  import opened StoragePartition

  type Key = seq<byte>

  // ---------- the meaning of a log ----------

  /** The current value of every key: the newest record counts, and an empty value means deleted. */
  function View(rs: seq<Record>): map<Key, seq<byte>> {
    if rs == [] then map[]
    else
      var v, r := View(rs[..|rs| - 1]), rs[|rs| - 1];
      match r.key
      case None => v
      case Some(k) => if r.value == [] then v - {k} else v[k := r.value]
  }

  /** The records without a key, in order. */
  function Keyless(rs: seq<Record>): seq<Record> {
    if rs == [] then []
    else Keyless(rs[..|rs| - 1]) + if rs[|rs| - 1].key.None? then [rs[|rs| - 1]] else []
  }

  // ---------- what survives ----------

  /** A tombstone older than the cutoff. */
  predicate Expired(r: Record, cutoff: int) {
    r.value == [] && r.timestamp < cutoff
  }

  /** Newest first: everything without a key, and of each key not yet seen the newest record unless expired. */
  function KeepNewest(rs: seq<Record>, seen: set<Key>, cutoff: int): seq<Record> {
    if rs == [] then []
    else
      var front, r := rs[..|rs| - 1], rs[|rs| - 1];
      match r.key
      case None => KeepNewest(front, seen, cutoff) + [r]
      case Some(k) =>
        if k in seen then KeepNewest(front, seen, cutoff)
        else KeepNewest(front, seen + {k}, cutoff) + if Expired(r, cutoff) then [] else [r]
  }

  // ---------- meaning is kept ----------

  lemma ViewPush(rs: seq<Record>, r: Record)
    ensures View(rs + [r]) ==
            match r.key
            case None => View(rs)
            case Some(k) => if r.value == [] then View(rs) - {k} else View(rs)[k := r.value]
  {
    assert (rs + [r])[..|rs|] == rs;
  }

  /** Of the keys not yet seen, the survivors show the same values. */
  lemma {:induction false} KeepsView(rs: seq<Record>, seen: set<Key>, cutoff: int)
    ensures View(KeepNewest(rs, seen, cutoff)) == View(rs) - seen
  {
    if rs == [] {
      assert View(rs) - seen == map[];
    } else {
      hide View;
      var front, r := rs[..|rs| - 1], rs[|rs| - 1];
      assert rs == front + [r];
      ViewPush(front, r);
      match r.key
      case None =>
        KeepsView(front, seen, cutoff);
        ViewPush(KeepNewest(front, seen, cutoff), r);
      case Some(k) =>
        if k in seen {
          KeepsView(front, seen, cutoff);
        } else {
          KeepsView(front, seen + {k}, cutoff);
          ViewPush(KeepNewest(front, seen + {k}, cutoff), r);
          assert KeepNewest(front, seen + {k}, cutoff) + [] == KeepNewest(front, seen + {k}, cutoff);
          NewestOfKey(View(front), seen, k, r.value);
        }
    }
  }

  lemma NewestOfKey<V>(view: map<Key, V>, seen: set<Key>, k: Key, v: V)
    requires k !in seen
    ensures view - (seen + {k}) == view - {k} - seen == view - (seen + {k}) - {k}
    ensures (view - (seen + {k}))[k := v] == view[k := v] - seen
  {
  }

  /** What follows is read on top of the view of what came before. */
  lemma {:induction false} ViewOnTop(a: seq<Record>, b: seq<Record>, c: seq<Record>)
    requires View(a) == View(b)
    ensures View(a + c) == View(b + c)
  {
    hide View;
    if c == [] {
      assert a + c == a && b + c == b;
    } else {
      var front, r := c[..|c| - 1], c[|c| - 1];
      ViewOnTop(a, b, front);
      ViewPush(a + front, r);
      ViewPush(b + front, r);
      assert a + c == a + front + [r] && b + c == b + front + [r];
    }
  }

  /** Replacing the sealed records by their survivors keeps the view of the whole partition. */
  lemma CompactionKeepsView(sealed: seq<Record>, active: seq<Record>, cutoff: int)
    ensures View(KeepNewest(sealed, {}, cutoff) + active) == View(sealed + active)
  {
    KeepsView(sealed, {}, cutoff);
    assert View(sealed) - {} == View(sealed);
    ViewOnTop(KeepNewest(sealed, {}, cutoff), sealed, active);
  }

  lemma KeylessPush(rs: seq<Record>, r: Record)
    ensures Keyless(rs + [r]) == Keyless(rs) + if r.key.None? then [r] else []
  {
    assert (rs + [r])[..|rs|] == rs;
  }

  /** Every record without a key survives, in order. */
  lemma {:induction false} KeepsKeyless(rs: seq<Record>, seen: set<Key>, cutoff: int)
    ensures Keyless(KeepNewest(rs, seen, cutoff)) == Keyless(rs)
  {
    if rs != [] {
      var front, r := rs[..|rs| - 1], rs[|rs| - 1];
      match r.key
      case None =>
        KeepsKeyless(front, seen, cutoff);
        KeylessPush(KeepNewest(front, seen, cutoff), r);
      case Some(k) =>
        var seen' := if k in seen then seen else seen + {k};
        KeepsKeyless(front, seen', cutoff);
        KeylessPush(KeepNewest(front, seen', cutoff), r);
        assert KeepNewest(front, seen', cutoff) + [] == KeepNewest(front, seen', cutoff);
    }
  }

  /** A second pass at the same cutoff finds nothing more to drop. */
  lemma {:induction false} KeepsAgain(rs: seq<Record>, seen: set<Key>, cutoff: int)
    ensures KeepNewest(KeepNewest(rs, seen, cutoff), seen, cutoff) == KeepNewest(rs, seen, cutoff)
  {
    if rs != [] {
      var front, r := rs[..|rs| - 1], rs[|rs| - 1];
      match r.key
      case None =>
        KeepsAgain(front, seen, cutoff);
        assert (KeepNewest(front, seen, cutoff) + [r])[..|KeepNewest(front, seen, cutoff)|] ==
                 KeepNewest(front, seen, cutoff);
      case Some(k) =>
        if k in seen {
          KeepsAgain(front, seen, cutoff);
        } else {
          var kept := KeepNewest(front, seen + {k}, cutoff);
          KeepsAgain(front, seen + {k}, cutoff);
          if Expired(r, cutoff) {
            assert kept + [] == kept;
            SeenAway(kept, seen, k, cutoff);
            HasNoKey(front, seen + {k}, k, cutoff);
          } else {
            assert (kept + [r])[..|kept|] == kept;
          }
        }
    }
  }

  predicate NoKey(rs: seq<Record>, k: Key) {
    forall i :: 0 <= i < |rs| ==> rs[i].key != Some(k)
  }

  lemma {:induction false} HasNoKey(rs: seq<Record>, seen: set<Key>, k: Key, cutoff: int)
    requires k in seen
    ensures NoKey(KeepNewest(rs, seen, cutoff), k)
  {
    if rs != [] {
      var front, r := rs[..|rs| - 1], rs[|rs| - 1];
      match r.key
      case None => HasNoKey(front, seen, k, cutoff);
      case Some(x) => HasNoKey(front, if x in seen then seen else seen + {x}, k, cutoff);
    }
  }

  /** A key that does not occur may be counted as seen or not. */
  lemma {:induction false} SeenAway(rs: seq<Record>, seen: set<Key>, k: Key, cutoff: int)
    ensures NoKey(rs, k) ==> KeepNewest(rs, seen + {k}, cutoff) == KeepNewest(rs, seen, cutoff)
  {
    if rs != [] && NoKey(rs, k) {
      var front, r := rs[..|rs| - 1], rs[|rs| - 1];
      assert r.key != Some(k);
      match r.key
      case None => SeenAway(front, seen, k, cutoff);
      case Some(x) =>
        SeenAway(front, if x in seen then seen else seen + {x}, k, cutoff);
        assert seen + {k} + {x} == seen + {x} + {k};
    }
  }

  // ---------- pass one: the newest offset of every key ----------

  datatype Latest = Latest(offset: nat, drop: bool)

  function Note(latest: map<Key, Latest>, r: Record, cutoff: int): map<Key, Latest> {
    match r.key
    case None => latest
    case Some(k) =>
      if k in latest && r.offset < latest[k].offset then latest
      else latest[k := Latest(r.offset, Expired(r, cutoff))]
  }

  function LatestOf(rs: seq<Record>, cutoff: int): map<Key, Latest> {
    if rs == [] then map[] else Note(LatestOf(rs[..|rs| - 1], cutoff), rs[|rs| - 1], cutoff)
  }

  /** What the second pass keeps, record by record. */
  predicate Survives(r: Record, latest: map<Key, Latest>) {
    match r.key
    case None => true
    case Some(k) => k in latest && latest[k].offset == r.offset && !latest[k].drop
  }

  function Survivors(rs: seq<Record>, latest: map<Key, Latest>): seq<Record> {
    if rs == [] then []
    else Survivors(rs[..|rs| - 1], latest) + if Survives(rs[|rs| - 1], latest) then [rs[|rs| - 1]] else []
  }

  /** Position `i` holds the last record of its key. */
  predicate NewestAt(rs: seq<Record>, i: nat)
    requires i < |rs|
  {
    rs[i].key.Some? && forall j :: i < j < |rs| ==> rs[j].key != rs[i].key
  }

  /** The map of pass one knows exactly the last record of every key. */
  lemma {:induction false} LatestIs(rs: seq<Record>, cutoff: int, i: nat)
    requires Increasing(rs) && i < |rs| && rs[i].key.Some?
    ensures var k := rs[i].key.value;
            && k in LatestOf(rs, cutoff) && rs[i].offset <= LatestOf(rs, cutoff)[k].offset
            && (NewestAt(rs, i) <==> LatestOf(rs, cutoff)[k].offset == rs[i].offset)
            && (NewestAt(rs, i) ==> LatestOf(rs, cutoff)[k].drop == Expired(rs[i], cutoff))
    decreases |rs|
  {
    var front, r, k := rs[..|rs| - 1], rs[|rs| - 1], rs[i].key.value;
    LatestBelow(front, cutoff, k);
    if i < |rs| - 1 {
      LatestIs(front, cutoff, i);
      if r.key == Some(k) {
        assert rs[|rs| - 1].key == rs[i].key;
      } else if NewestAt(front, i) {
        assert forall j :: i < j < |rs| ==> rs[j].key != rs[i].key by {
          forall j | i < j < |rs| ensures rs[j].key != rs[i].key {
            if j < |rs| - 1 { assert front[j].key != front[i].key; }
          }
        }
      } else {
        var j :| i < j < |front| && front[j].key == front[i].key;
        assert rs[j].key == rs[i].key;
      }
    }
  }

  /** Offsets in the map are offsets of records, so below what comes later. */
  lemma {:induction false} LatestBelow(rs: seq<Record>, cutoff: int, k: Key)
    requires Increasing(rs)
    ensures k in LatestOf(rs, cutoff) ==>
              exists i :: 0 <= i < |rs| && rs[i].offset == LatestOf(rs, cutoff)[k].offset && rs[i].key == Some(k)
    decreases |rs|
  {
    if rs != [] && k in LatestOf(rs, cutoff) {
      var front, r := rs[..|rs| - 1], rs[|rs| - 1];
      LatestBelow(front, cutoff, k);
      if k in LatestOf(front, cutoff) {
        var i :| 0 <= i < |front| && front[i].offset == LatestOf(front, cutoff)[k].offset && front[i].key == Some(k);
        assert rs[i] == front[i];
      }
      if r.key == Some(k) { assert rs[|rs| - 1].key == Some(k); }
    }
  }

  function KeysOf(rs: seq<Record>): set<Key> {
    set i | 0 <= i < |rs| && rs[i].key.Some? :: rs[i].key.value
  }

  /** The second pass, filtering by the map, keeps exactly the newest records. */
  lemma {:induction false} FilterIsNewest(rs: seq<Record>, cutoff: int, n: nat)
    requires Increasing(rs) && n <= |rs|
    ensures Survivors(rs[..n], LatestOf(rs, cutoff)) == KeepNewest(rs[..n], KeysOf(rs[n..]), cutoff)
    decreases n
  {
    if n > 0 {
      var r, seen := rs[n - 1], KeysOf(rs[n..]);
      assert rs[..n][..n - 1] == rs[..n - 1];
      FilterIsNewest(rs, cutoff, n - 1);
      KeysBefore(rs, n);
      if r.key.None? || r.key.value in seen { assert KeysOf(rs[n - 1..]) == seen; }
      if r.key.Some? {
        LatestIs(rs, cutoff, n - 1);
        NewestSeen(rs, n);
      }
    }
  }

  lemma KeysBefore(rs: seq<Record>, n: nat)
    requires 0 < n <= |rs|
    ensures KeysOf(rs[n - 1..]) == KeysOf(rs[n..]) + (if rs[n - 1].key.Some? then {rs[n - 1].key.value} else {})
  {
    var a, b := rs[n - 1..], rs[n..];
    assert a == [rs[n - 1]] + b;
    forall k | k in KeysOf(b) ensures k in KeysOf(a) {
      var i :| 0 <= i < |b| && b[i].key.Some? && b[i].key.value == k;
      assert a[i + 1] == b[i];
    }
    forall k | k in KeysOf(a) ensures k in KeysOf(b) || a[0].key == Some(k) {
      var i :| 0 <= i < |a| && a[i].key.Some? && a[i].key.value == k;
      if i > 0 { assert b[i - 1] == a[i]; }
    }
    if rs[n - 1].key.Some? { assert a[0].key == rs[n - 1].key; }
  }

  lemma NewestSeen(rs: seq<Record>, n: nat)
    requires 0 < n <= |rs| && rs[n - 1].key.Some?
    ensures NewestAt(rs, n - 1) <==> rs[n - 1].key.value !in KeysOf(rs[n..])
  {
    var k := rs[n - 1].key.value;
    if k in KeysOf(rs[n..]) {
      var i :| 0 <= i < |rs[n..]| && rs[n..][i].key.Some? && rs[n..][i].key.value == k;
      assert rs[n + i].key == rs[n - 1].key;
    }
    if !NewestAt(rs, n - 1) {
      var j :| n - 1 < j < |rs| && rs[j].key == rs[n - 1].key;
      assert rs[n..][j - n].key == Some(k);
    }
  }

  lemma SurvivorsAreNewest(rs: seq<Record>, cutoff: int)
    requires Increasing(rs)
    ensures Survivors(rs, LatestOf(rs, cutoff)) == KeepNewest(rs, {}, cutoff)
  {
    FilterIsNewest(rs, cutoff, |rs|);
    assert rs[..|rs|] == rs && KeysOf(rs[|rs|..]) == {};
  }

  /**
   A record stays if it has no key, or if it is the last of its key and is no tombstone from before the
   cutoff.
   */
  predicate Stays(rs: seq<Record>, i: nat, cutoff: int)
    requires i < |rs|
  {
    rs[i].key.None? || (NewestAt(rs, i) && (rs[i].value != [] || cutoff <= rs[i].timestamp))
  }

  lemma {:induction false} SurvivorsOf(rs: seq<Record>, latest: map<Key, Latest>, r: Record)
    ensures r in Survivors(rs, latest) <==> r in rs && Survives(r, latest)
  {
    hide Survives;
    if rs != [] {
      assert rs == rs[..|rs| - 1] + [rs[|rs| - 1]];
      SurvivorsOf(rs[..|rs| - 1], latest, r);
    }
  }

  /** Exactly the records that should stay survive. */
  lemma KeptExactly(rs: seq<Record>, cutoff: int, i: nat)
    requires Increasing(rs) && i < |rs|
    ensures rs[i] in KeepNewest(rs, {}, cutoff) <==> Stays(rs, i, cutoff)
  {
    hide LatestOf, KeepNewest, Survivors, Increasing, NewestAt;
    SurvivorsAreNewest(rs, cutoff);
    SurvivorsOf(rs, LatestOf(rs, cutoff), rs[i]);
    if rs[i].key.Some? { LatestIs(rs, cutoff, i); }
  }

  // ---------- the counts ----------

  function Undropped(latest: map<Key, Latest>): set<Key> {
    set k | k in latest && !latest[k].drop
  }

  /** The keys, beyond those seen, whose newest record is not expired. */
  function LiveKeys(rs: seq<Record>, seen: set<Key>, cutoff: int): set<Key> {
    if rs == [] then {}
    else
      var front, r := rs[..|rs| - 1], rs[|rs| - 1];
      match r.key
      case None => LiveKeys(front, seen, cutoff)
      case Some(k) =>
        if k in seen then LiveKeys(front, seen, cutoff)
        else LiveKeys(front, seen + {k}, cutoff) + if Expired(r, cutoff) then {} else {k}
  }

  lemma {:induction false} LiveUnseen(rs: seq<Record>, seen: set<Key>, cutoff: int)
    ensures LiveKeys(rs, seen, cutoff) !! seen
  {
    if rs != [] {
      var front, r := rs[..|rs| - 1], rs[|rs| - 1];
      if r.key.None? || r.key.value in seen {
        LiveUnseen(front, seen, cutoff);
      } else {
        LiveUnseen(front, seen + {r.key.value}, cutoff);
      }
    }
  }

  lemma {:induction false} CountKept(rs: seq<Record>, seen: set<Key>, cutoff: int)
    ensures |KeepNewest(rs, seen, cutoff)| == |Keyless(rs)| + |LiveKeys(rs, seen, cutoff)|
  {
    if rs != [] {
      var front, r := rs[..|rs| - 1], rs[|rs| - 1];
      match r.key
      case None => CountKept(front, seen, cutoff);
      case Some(k) =>
        if k in seen {
          CountKept(front, seen, cutoff);
        } else {
          CountKept(front, seen + {k}, cutoff);
          LiveUnseen(front, seen + {k}, cutoff);
        }
    }
  }

  /** The keys of the map that are not to be dropped are the live ones. */
  lemma {:induction false} LiveAre(rs: seq<Record>, cutoff: int, n: nat, k: Key)
    requires Increasing(rs) && n <= |rs|
    ensures k in LiveKeys(rs[..n], KeysOf(rs[n..]), cutoff) <==>
            k !in KeysOf(rs[n..]) && k in KeysOf(rs[..n]) && k in LatestOf(rs, cutoff) && !LatestOf(rs, cutoff)[k].drop
    decreases n
  {
    if n > 0 {
      var r, seen := rs[n - 1], KeysOf(rs[n..]);
      assert rs[..n][..n - 1] == rs[..n - 1];
      LiveAre(rs, cutoff, n - 1, k);
      KeysBefore(rs, n);
      if r.key.None? || r.key.value in seen { assert KeysOf(rs[n - 1..]) == seen; }
      KeysPush(rs, n);
      LiveUnseen(rs[..n - 1], KeysOf(rs[n - 1..]), cutoff);
      if r.key.Some? {
        LatestIs(rs, cutoff, n - 1);
        NewestSeen(rs, n);
      }
    }
  }

  lemma KeysPush(rs: seq<Record>, n: nat)
    requires 0 < n <= |rs|
    ensures KeysOf(rs[..n]) == KeysOf(rs[..n - 1]) + (if rs[n - 1].key.Some? then {rs[n - 1].key.value} else {})
  {
    var a, b := rs[..n], rs[..n - 1];
    forall k | k in KeysOf(b) ensures k in KeysOf(a) {
      var i :| 0 <= i < |b| && b[i].key.Some? && b[i].key.value == k;
      assert a[i] == b[i];
    }
    forall k | k in KeysOf(a) ensures k in KeysOf(b) || rs[n - 1].key == Some(k) {
      var i :| 0 <= i < |a| && a[i].key.Some? && a[i].key.value == k;
      if i < n - 1 { assert b[i] == a[i]; }
    }
    if rs[n - 1].key.Some? { assert a[n - 1].key == rs[n - 1].key; }
  }

  lemma {:induction false} LatestKeys(rs: seq<Record>, cutoff: int)
    ensures LatestOf(rs, cutoff).Keys == KeysOf(rs)
    decreases |rs|
  {
    if rs != [] {
      LatestKeys(rs[..|rs| - 1], cutoff);
      KeysPush(rs, |rs|);
      assert rs[..|rs|] == rs;
    }
  }

  /** The number of records pass one announces is the number pass two keeps. */
  lemma CountsAgree(rs: seq<Record>, cutoff: int)
    requires Increasing(rs)
    ensures |Survivors(rs, LatestOf(rs, cutoff))| == |Keyless(rs)| + |Undropped(LatestOf(rs, cutoff))|
  {
    SurvivorsAreNewest(rs, cutoff);
    CountKept(rs, {}, cutoff);
    LatestKeys(rs, cutoff);
    assert rs[..|rs|] == rs && KeysOf(rs[|rs|..]) == {};
    forall k
      ensures k in LiveKeys(rs, {}, cutoff) <==> k in Undropped(LatestOf(rs, cutoff))
    {
      LiveAre(rs, cutoff, |rs|, k);
    }
    assert LiveKeys(rs, {}, cutoff) == Undropped(LatestOf(rs, cutoff));
  }

  // ---------- the two passes ----------

  /** The reader misses no record of a segment. */
  ghost predicate InReach(rs: seq<Record>) {
    Readable(rs, |rs|, 0, READ_WINDOW_BYTES, 0)
  }

  ghost predicate AllInReach(lists: seq<seq<Record>>) {
    forall i :: 0 <= i < |lists| ==> InReach(lists[i])
  }

  /** Every record of a sealed segment; `None` as soon as one cannot be read. */
  method ReadSegment(crc: Checksum, seg: Segment, ghost rs: seq<Record>) returns (out: Option<seq<Record>>)
    requires Holds(crc, seg, rs)
    ensures out == if InReach(rs) then Some(rs) else None
  {
    hide AtRecord, EncodeRecords, Holds, Reached, TornTail, Readable;
    HoldsLog(crc, seg, rs);
    ReachedExactly(rs, |rs|, 0, READ_WINDOW_BYTES, 0);
    var c := new RecordCursor(crc, seg.log, 0, |seg.log|, READ_WINDOW_BYTES);
    var read: seq<Record> := [];
    ghost var i := 0;
    ghost var end := Reached(rs, 0, READ_WINDOW_BYTES, 0);
    assert seg.log[0..] == seg.log && rs[0..] == rs && EncodeRecords(crc, rs) + [] == EncodeRecords(crc, rs);
    NoTail(crc);
    StandsAt(c, rs, 0, []);
    while true
      invariant 0 <= i <= end && read == rs[..i] && AtRecord(c, rs, i, [], end)
      decreases end - i
    {
      var r := NextAt(c, rs, i, [], end);
      if r.End? {
        assert rs[..i] == rs;
        return Some(read);
      }
      if r.Failed? { return None; }
      assert rs[..i + 1] == rs[..i] + [rs[i]];
      read := read + [r.record];
      i := i + 1;
    }
  }

  lemma HoldsLog(crc: Checksum, seg: Segment, rs: seq<Record>)
    requires Holds(crc, seg, rs)
    ensures AllStorable(rs) && seg.log == EncodeRecords(crc, rs)
  {
  }

  ghost predicate AllHeld(crc: Checksum, segments: seq<Segment>, lists: seq<seq<Record>>) {
    |segments| == |lists| && forall i :: 0 <= i < |segments| ==> Holds(crc, segments[i], lists[i])
  }

  lemma LatestPush(rs: seq<Record>, r: Record, cutoff: int)
    ensures LatestOf(rs + [r], cutoff) == Note(LatestOf(rs, cutoff), r, cutoff)
    ensures Keyless(rs + [r]) == Keyless(rs) + if r.key.None? then [r] else []
  {
    assert (rs + [r])[..|rs|] == rs;
  }

  /** Pass one: the newest offset of every key, and the counts. `None` if a segment is unreadable. */
  method PassOne(crc: Checksum, sealed: seq<Segment>, ghost lists: seq<seq<Record>>, cutoff: int)
    returns (latest: map<Key, Latest>, total: nat, keyless: nat, ok: bool)
    requires AllHeld(crc, sealed, lists)
    ensures ok <==> AllInReach(lists)
    ensures ok ==>
              latest == LatestOf(Flat(lists), cutoff) && total == |Flat(lists)| && keyless == |Keyless(Flat(lists))|
  {
    hide Flat, LatestOf, Keyless, Holds, InReach;
    latest, total, keyless, ok := map[], 0, 0, true;
    ghost var done: seq<Record> := [];
    NothingYet(cutoff);
    var i := 0;
    assert lists[..0] == [];
    while i < |sealed|
      invariant 0 <= i <= |sealed| && done == Flat(lists[..i]) && forall k :: 0 <= k < i ==> InReach(lists[k])
      invariant latest == LatestOf(done, cutoff) && total == |done| && keyless == |Keyless(done)|
    {
      var rs := ReadSegment(crc, sealed[i], lists[i]);
      if rs.None? { return latest, total, keyless, false; }
      FlatPush(lists, i);
      var j := 0;
      ghost var before := done;
      while j < |rs.value|
        invariant 0 <= j <= |rs.value| && done == before + rs.value[..j]
        invariant latest == LatestOf(done, cutoff) && total == |done| && keyless == |Keyless(done)|
      {
        var r := rs.value[j];
        LatestPush(done, r, cutoff);
        total := total + 1;
        match r.key {
          case None => keyless := keyless + 1;
          case Some(k) =>
            if !(k in latest && r.offset < latest[k].offset) {
              latest := latest[k := Latest(r.offset, r.value == [] && r.timestamp < cutoff)];
            }
        }
        done := done + [r];
        j := j + 1;
      }
      i := i + 1;
    }
    assert lists[..i] == lists;
  }

  lemma NothingYet(cutoff: int)
    ensures LatestOf([], cutoff) == map[] && Keyless([]) == [] && Flat([]) == []
  {
  }

  lemma SurvivorsPush(rs: seq<Record>, r: Record, latest: map<Key, Latest>)
    ensures Survivors(rs + [r], latest) == Survivors(rs, latest) + if Survives(r, latest) then [r] else []
  {
    assert (rs + [r])[..|rs|] == rs;
  }

  /** The output of pass two so far: the survivors of `done`, encoded and indexed. */
  ghost predicate Output(crc: Checksum, base: nat, kept: seq<Record>, log: seq<byte>, index: seq<Entry>,
                         last: Option<nat>) {
    && AllStorable(kept) && log == EncodeRecords(crc, kept) && index == SparseOf(base, kept, 0, None) &&
       last == LastIndexed(kept, 0, None)
  }

  lemma OutputPush(crc: Checksum, base: nat, kept: seq<Record>, log: seq<byte>, index: seq<Entry>, last: Option<nat>,
                   r: Record)
    requires Output(crc, base, kept, log, index, last) && Storable(r)
    ensures var wants := WantsEntry(last, |log|);
            Output(crc, base, kept + [r], log + EncodeRecord(crc, r),
                   if wants then index + [(Relative(base, r.offset), |log|)]
                   else index, if wants then Some(|log|) else last)
  {
    hide EncodeRecord, Storable, SparseOf, LastIndexed;
    SparsePush(base, kept, r, 0, None);
    EncodedSize(crc, kept);
    EncodeConcat(crc, kept, [r]);
    assert [r][1..] == [];
    assert EncodeRecords(crc, [r]) == EncodeRecord(crc, r) + [];
    assert index + [] == index;
  }

  lemma OutputEmpty(crc: Checksum, base: nat)
    ensures Output(crc, base, [], [], [], None)
  {
  }

  lemma HoldsStorable(crc: Checksum, seg: Segment, rs: seq<Record>, j: nat)
    requires Holds(crc, seg, rs) && j < |rs|
    ensures Storable(rs[j]) && seg.base <= rs[j].offset
  {
  }

  /** Pass two: writes the survivors and their index. */
  method WriteSurvivors(crc: Checksum, sealed: seq<Segment>, ghost lists: seq<seq<Record>>, latest: map<Key, Latest>,
                        base: nat)
    returns (log: seq<byte>, index: seq<Entry>, ok: bool)
    requires AllHeld(crc, sealed, lists) && forall i :: 0 <= i < |sealed| ==> base <= sealed[i].base
    ensures ok <==> AllInReach(lists)
    ensures AllStorable(Survivors(Flat(lists), latest))
    ensures ok ==>
              log == EncodeRecords(crc, Survivors(Flat(lists), latest)) &&
              index == SparseOf(base, Survivors(Flat(lists), latest), 0, None)
  {
    hide Flat, Survivors, Holds, Output, EncodeRecord, Survives, InReach, AllStorable;
    SurvivorsStorable(crc, sealed, lists, latest);
    log, index, ok := [], [], true;
    var last: Option<nat> := None;
    ghost var done: seq<Record> := [];
    assert lists[..0] == [];
    NothingYet(0);
    NoSurvivors(latest);
    OutputEmpty(crc, base);
    var i := 0;
    while i < |sealed|
      invariant 0 <= i <= |sealed| && done == Flat(lists[..i]) && forall k :: 0 <= k < i ==> InReach(lists[k])
      invariant Output(crc, base, Survivors(done, latest), log, index, last)
    {
      var rs := ReadSegment(crc, sealed[i], lists[i]);
      if rs.None? { return log, index, false; }
      FlatPush(lists, i);
      var j := 0;
      ghost var before := done;
      while j < |rs.value|
        invariant 0 <= j <= |rs.value| && done == before + rs.value[..j]
        invariant Output(crc, base, Survivors(done, latest), log, index, last)
      {
        var r := rs.value[j];
        HoldsStorable(crc, sealed[i], lists[i], j);
        SurvivorsPush(done, r, latest);
        if Survives(r, latest) {
          if r.offset < base { return log, index, false; }
          OutputPush(crc, base, Survivors(done, latest), log, index, last, r);
          var at := |log|;
          log := log + EncodeRecord(crc, r);
          if WantsEntry(last, at) {
            index := index + [(Relative(base, r.offset), at)];
            last := Some(at);
          }
        } else {
          assert Survivors(done, latest) + [] == Survivors(done, latest);
        }
        done := done + [r];
        j := j + 1;
      }
      i := i + 1;
    }
    assert lists[..i] == lists;
    OutputIs(crc, base, Survivors(done, latest), log, index, last);
  }

  lemma SurvivorsStorable(crc: Checksum, sealed: seq<Segment>, lists: seq<seq<Record>>, latest: map<Key, Latest>)
    requires AllHeld(crc, sealed, lists)
    ensures AllStorable(Survivors(Flat(lists), latest))
  {
    hide Holds, Storable, Survivors, Flat;
    forall i | 0 <= i < |lists| ensures AllStorable(lists[i]) {
      assert Holds(crc, sealed[i], lists[i]);
      HoldsLog(crc, sealed[i], lists[i]);
    }
    FlatStorable(lists);
    var kept := Survivors(Flat(lists), latest);
    SurvivorsIn(Flat(lists), latest);
    forall k | 0 <= k < |kept| ensures Storable(kept[k]) { assert kept[k] in kept; }
  }

  lemma {:induction false} SurvivorsIn(rs: seq<Record>, latest: map<Key, Latest>)
    ensures forall r :: r in Survivors(rs, latest) ==> r in rs
  {
    if rs != [] { SurvivorsIn(rs[..|rs| - 1], latest); }
  }

  lemma NoSurvivors(latest: map<Key, Latest>)
    ensures Survivors([], latest) == []
  {
  }

  lemma OutputIs(crc: Checksum, base: nat, kept: seq<Record>, log: seq<byte>, index: seq<Entry>, last: Option<nat>)
    requires Output(crc, base, kept, log, index, last)
    ensures AllStorable(kept) && log == EncodeRecords(crc, kept) && index == SparseOf(base, kept, 0, None)
  {
  }

  // ---------- survivors as a segment ----------

  /** Survivors are records of the list, in its order. */
  lemma {:induction false} KeptIn(rs: seq<Record>, seen: set<Key>, cutoff: int)
    ensures forall r :: r in KeepNewest(rs, seen, cutoff) ==> r in rs
    ensures |KeepNewest(rs, seen, cutoff)| <= |rs|
    ensures |KeepNewest(rs, seen, cutoff)| == |rs| ==> KeepNewest(rs, seen, cutoff) == rs
  {
    if rs != [] {
      var front, r := rs[..|rs| - 1], rs[|rs| - 1];
      assert rs == front + [r];
      match r.key
      case None => KeptIn(front, seen, cutoff);
      case Some(k) => KeptIn(front, if k in seen then seen else seen + {k}, cutoff);
    }
  }

  lemma {:induction false} KeptIncreasing(rs: seq<Record>, seen: set<Key>, cutoff: int)
    requires Increasing(rs)
    ensures Increasing(KeepNewest(rs, seen, cutoff))
  {
    if rs != [] {
      var front, r := rs[..|rs| - 1], rs[|rs| - 1];
      var seen' := if r.key.None? || r.key.value in seen then seen else seen + {r.key.value};
      KeptIncreasing(front, seen', cutoff);
      KeptIn(front, seen', cutoff);
      var kept := KeepNewest(front, seen', cutoff);
      forall i | 0 <= i < |kept| ensures kept[i].offset < r.offset {
        assert kept[i] in front;
        var j :| 0 <= j < |front| && front[j] == kept[i];
        assert rs[j].offset < rs[|rs| - 1].offset;
      }
    }
  }

  datatype Report = Report(kept: nat, dropped: nat)

  /** The compacted segment that replaces the sealed ones; `None` when nothing would be dropped. */
  method CompactSealed(crc: Checksum, sealed: seq<Segment>, ghost lists: seq<seq<Record>>, cutoff: int)
    returns (r: Option<(Segment, Report)>)
    requires AllHeld(crc, sealed, lists) && sealed != [] && Increasing(Flat(lists)) &&
             AtLeast(Flat(lists), sealed[0].base)
    requires forall i :: 0 <= i < |sealed| ==> sealed[0].base <= sealed[i].base
    ensures var rs := Flat(lists); var kept := KeepNewest(rs, {}, cutoff);
            match r
            case None => !AllInReach(lists) || kept == rs
            case Some((seg, report)) =>
              && AllInReach(lists) && seg.base == sealed[0].base && Holds(crc, seg, kept) && |kept| < |rs|
              && report == Report(|kept|, |rs| - |kept|)
  {
    hide Flat, LatestOf, Keyless, Holds, KeepNewest, Survivors, AllHeld, AllInReach, EncodeRecords, SparseOf,
         Increasing;
    var latest, total, keyless, ok := PassOne(crc, sealed, lists, cutoff);
    if !ok { return None; }
    ghost var rs := Flat(lists);
    ghost var survivors := KeepNewest(rs, {}, cutoff);
    SurvivorsAreNewest(rs, cutoff);
    CountsAgree(rs, cutoff);
    KeptIn(rs, {}, cutoff);
    KeptIncreasing(rs, {}, cutoff);
    var kept := keyless + |Undropped(latest)|;
    if total == kept { return None; }
    var log, index, written := WriteSurvivors(crc, sealed, lists, latest, sealed[0].base);
    if !written { return None; }
    var seg := Segment(sealed[0].base, log, index);
    assert AtLeast(survivors, seg.base) by { KeptAtLeast(rs, survivors, seg.base); }
    assert Holds(crc, seg, survivors) by { OutputHolds(crc, seg, survivors); }
    r := Some((seg, Report(kept, total - kept)));
  }

  lemma KeptAtLeast(rs: seq<Record>, kept: seq<Record>, base: nat)
    requires AtLeast(rs, base) && forall r :: r in kept ==> r in rs
    ensures AtLeast(kept, base)
  {
    forall k | 0 <= k < |kept| ensures base <= kept[k].offset { assert kept[k] in rs; }
  }

  lemma OutputHolds(crc: Checksum, seg: Segment, kept: seq<Record>)
    requires AllStorable(kept) && Increasing(kept) && AtLeast(kept, seg.base)
    requires seg.log == EncodeRecords(crc, kept) && seg.index == SparseOf(seg.base, kept, 0, None)
    ensures Holds(crc, seg, kept)
  {
  }

  /** The chain with its sealed segments replaced by the compacted one. */
  lemma ChainedCompact(crc: Checksum, segments: seq<Segment>, lists: seq<seq<Record>>, next: nat, seg: Segment,
                       kept: seq<Record>)
    requires Chained(crc, segments, lists, next) && |segments| >= 2
    requires seg.base == segments[0].base && Holds(crc, seg, kept)
    requires forall r :: r in kept ==> r in Flat(lists[..|lists| - 1])
    ensures Chained(crc, [seg, segments[|segments| - 1]], [kept, lists[|lists| - 1]], next)
  {
    hide Holds, Flat;
    var n := |segments| - 1;
    var active := segments[n];
    assert Below(kept, active.base) by {
      hide Chained;
      ChainedLength(crc, segments, lists, next);
      ChainedOrdered(crc, segments, lists, next);
      FlatIncreasing(Bases(segments), lists, n);
      BelowKept(Flat(lists[..n]), kept, active.base);
    }
    assert Holds(crc, active, lists[n]) && Below(lists[n], EndOf(segments, n, next));
  }

  lemma BelowKept(rs: seq<Record>, kept: seq<Record>, end: nat)
    requires Below(rs, end) && forall r :: r in kept ==> r in rs
    ensures Below(kept, end)
  {
    forall k | 0 <= k < |kept| ensures kept[k].offset < end { assert kept[k] in kept; }
  }

  lemma SealedHeld(crc: Checksum, segments: seq<Segment>, lists: seq<seq<Record>>, next: nat)
    requires Chained(crc, segments, lists, next)
    ensures var n := |segments| - 1;
            && AllHeld(crc, segments[..n], lists[..n]) && Increasing(Flat(lists[..n])) &&
               (n > 0 ==> AtLeast(Flat(lists[..n]), segments[0].base))
            && Flat(lists) == Flat(lists[..n]) + lists[n]
  {
    hide Holds, Flat, Chained, Increasing, AtLeast;
    var n := |segments| - 1;
    ChainedLength(crc, segments, lists, next);
    ChainedOrdered(crc, segments, lists, next);
    FlatIncreasing(Bases(segments), lists, n);
    FlatPush(lists, n);
    assert lists[..n + 1] == lists;
    ChainedHolds(crc, segments, lists, next);
  }

  lemma ChainedHolds(crc: Checksum, segments: seq<Segment>, lists: seq<seq<Record>>, next: nat)
    requires Chained(crc, segments, lists, next)
    ensures |segments| == |lists| && forall i :: 0 <= i < |segments| ==> Holds(crc, segments[i], lists[i])
  {
    hide Holds;
  }

  lemma FlatPair(a: seq<Record>, b: seq<Record>)
    ensures Flat([a, b]) == a + b
  {
    assert [a, b][1..] == [b] && [b][1..] == [];
    assert Flat([b]) == b + [];
  }

  /** The records of a partition once its sealed segments are compacted; unreadable ones are left alone. */
  ghost function CompactedContents(lists: seq<seq<Record>>, cutoff: int): seq<Record>
    requires lists != []
  {
    var n := |lists| - 1;
    if AllInReach(lists[..n]) then KeepNewest(Flat(lists[..n]), {}, cutoff) + lists[n] else Flat(lists)
  }

  /** Record `i` of the partition is in no sealed segment, or these cannot be read, or it should stay. */
  ghost predicate StaysIn(lists: seq<seq<Record>>, i: nat, cutoff: int)
    requires lists != []
  {
    var sealed := Flat(lists[..|lists| - 1]);
    !AllInReach(lists[..|lists| - 1]) || |sealed| <= i || Stays(sealed, i, cutoff)
  }

  lemma CompactedExactly(lists: seq<seq<Record>>, cutoff: int, i: nat)
    requires lists != [] && Increasing(Flat(lists)) && i < |Flat(lists)|
    ensures Flat(lists)[i] in CompactedContents(lists, cutoff) <==> StaysIn(lists, i, cutoff)
  {
    hide Flat, KeepNewest, AllInReach, Stays;
    var n, all := |lists| - 1, Flat(lists);
    var sealed := Flat(lists[..n]);
    FlatPush(lists, n);
    assert lists[..n + 1] == lists && all == sealed + lists[n];
    if i < |sealed| {
      assert all[i] !in lists[n] by { NotLater(sealed, lists[n], i); }
      assert Increasing(sealed) by { FrontIncreasing(sealed, lists[n]); }
      KeptExactly(sealed, cutoff, i);
      assert all[i] == sealed[i];
    } else {
      assert all[i] == lists[n][i - |sealed|];
    }
  }

  lemma NotLater(a: seq<Record>, b: seq<Record>, i: nat)
    requires Increasing(a + b) && i < |a|
    ensures a[i] !in b
  {
    forall j | 0 <= j < |b| ensures b[j] != a[i] {
      assert (a + b)[i].offset < (a + b)[|a| + j].offset;
    }
  }

  lemma FrontIncreasing(a: seq<Record>, b: seq<Record>)
    requires Increasing(a + b)
    ensures Increasing(a)
  {
    forall i, j | 0 <= i < j < |a| ensures a[i].offset < a[j].offset {
      assert (a + b)[i].offset < (a + b)[j].offset;
    }
  }

  /** The records in order, and which of them are left. */
  ghost predicate CompactedFrom(lists: seq<seq<Record>>, after: seq<Record>, cutoff: int)
    requires lists != []
  {
    && Increasing(after) && (forall r :: r in after ==> r in Flat(lists))
    && (forall i :: 0 <= i < |Flat(lists)| ==> (Flat(lists)[i] in after <==> StaysIn(lists, i, cutoff)))
  }

  lemma ChainedCompacted(crc: Checksum, segments: seq<Segment>, lists: seq<seq<Record>>, next: nat, cutoff: int)
    requires Chained(crc, segments, lists, next)
    ensures lists != [] && CompactedFrom(lists, CompactedContents(lists, cutoff), cutoff)
  {
    hide Chained, Flat, CompactedContents, StaysIn, Increasing;
    ChainedLength(crc, segments, lists, next);
    ChainedOrdered(crc, segments, lists, next);
    FlatIncreasing(Bases(segments), lists, |lists|);
    assert lists[..|lists|] == lists;
    CompactedIn(lists, cutoff);
    CompactedIncreasing(lists, cutoff);
    forall i | 0 <= i < |Flat(lists)|
      ensures Flat(lists)[i] in CompactedContents(lists, cutoff) <==> StaysIn(lists, i, cutoff)
    {
      CompactedExactly(lists, cutoff, i);
    }
  }

  lemma CompactedIncreasing(lists: seq<seq<Record>>, cutoff: int)
    requires lists != [] && Increasing(Flat(lists))
    ensures Increasing(CompactedContents(lists, cutoff))
  {
    hide Flat, KeepNewest, AllInReach, Increasing;
    var n := |lists| - 1;
    var sealed := Flat(lists[..n]);
    var kept := KeepNewest(sealed, {}, cutoff);
    FlatPush(lists, n);
    assert lists[..n + 1] == lists;
    FrontIncreasing(sealed, lists[n]);
    KeptIncreasing(sealed, {}, cutoff);
    KeptIn(sealed, {}, cutoff);
    FewerIncreasing(sealed, kept, lists[n]);
  }

  lemma FewerIncreasing(a: seq<Record>, kept: seq<Record>, b: seq<Record>)
    requires Increasing(a + b) && Increasing(kept) && forall r :: r in kept ==> r in a
    ensures Increasing(kept + b)
  {
    forall i, j | 0 <= i < |kept| && 0 <= j < |b| ensures kept[i].offset < b[j].offset {
      assert kept[i] in kept;
      var k :| 0 <= k < |a| && a[k] == kept[i];
      assert (a + b)[k].offset < (a + b)[|a| + j].offset;
    }
    forall i, j | 0 <= i < j < |b| ensures b[i].offset < b[j].offset {
      assert (a + b)[|a| + i].offset < (a + b)[|a| + j].offset;
    }
  }

  /**
   Compacts a partition: of its sealed records, if they can all be read, the newest of each key and those
   without key are left. Its view and its records without key are as before, offsets are not reused, and
   the partition is again one chain of segments with a correct index.
   */
  method CompactPartition(p: Partition, cutoff: int) returns (report: Option<Report>)
    requires p.Valid()
    modifies p
    ensures p.Valid() && p.nextOffset == old(p.nextOffset) && p.startOffset == old(p.startOffset)
    ensures old(p.lists) != [] && p.Contents() == CompactedContents(old(p.lists), cutoff)
    ensures CompactedFrom(old(p.lists), p.Contents(), cutoff)
    ensures View(p.Contents()) == View(old(p.Contents())) && Keyless(p.Contents()) == Keyless(old(p.Contents()))
    ensures report.None? ==> p.Contents() == old(p.Contents())
    ensures report.Some? ==> |p.Contents()| + report.value.dropped == |old(p.Contents())| && report.value.dropped > 0
  {
    hide Chained, Flat, LastIndexed, Holds, KeepNewest, View, Keyless, AllHeld, Increasing, AllInReach, CompactedFrom;
    ChainedLength(p.crc, p.segments, p.lists, p.nextOffset);
    ChainedCompacted(p.crc, p.segments, p.lists, p.nextOffset, cutoff);
    var n := |p.segments| - 1;
    SealedHeld(p.crc, p.segments, p.lists, p.nextOffset);
    if n == 0 {
      NothingSealed(p.lists, cutoff);
      return None;
    }
    ghost var rs, act := Flat(p.lists[..n]), p.lists[n];
    ChainedBases(p.crc, p.segments, p.lists, p.nextOffset);
    var r := CompactSealed(p.crc, p.segments[..n], p.lists[..n], cutoff);
    if r.None? { return None; }
    var (seg, rep) := r.value;
    ghost var kept := KeepNewest(rs, {}, cutoff);
    KeptIn(rs, {}, cutoff);
    ChainedCompact(p.crc, p.segments, p.lists, p.nextOffset, seg, kept);
    CompactionKeepsView(rs, act, cutoff);
    KeepsKeyless(rs, {}, cutoff);
    KeylessConcat(kept, act);
    KeylessConcat(rs, act);
    FlatPair(kept, act);
    p.segments := [seg, p.segments[n]];
    p.lists := [kept, act];
    report := Some(rep);
  }

  lemma NothingSealed(lists: seq<seq<Record>>, cutoff: int)
    requires |lists| == 1
    ensures CompactedContents(lists, cutoff) == Flat(lists)
  {
    assert lists[..0] == [] && lists[1..] == [];
    assert KeepNewest([], {}, cutoff) == [];
    assert Flat(lists) == lists[0] + [];
  }

  /** Compaction only takes records away. */
  lemma CompactedIn(lists: seq<seq<Record>>, cutoff: int)
    requires lists != []
    ensures forall r :: r in CompactedContents(lists, cutoff) ==> r in Flat(lists)
  {
    hide Flat, KeepNewest, AllInReach;
    var n := |lists| - 1;
    KeptIn(Flat(lists[..n]), {}, cutoff);
    FlatPush(lists, n);
    assert lists[..n + 1] == lists;
  }

  lemma ChainedBases(crc: Checksum, segments: seq<Segment>, lists: seq<seq<Record>>, next: nat)
    requires Chained(crc, segments, lists, next)
    ensures forall i :: 0 <= i < |segments| ==> segments[0].base <= segments[i].base
  {
    forall i | 0 <= i < |segments| ensures segments[0].base <= segments[i].base {
      if i > 0 { assert segments[0].base < segments[i].base; }
    }
  }

  lemma {:induction false} KeylessConcat(a: seq<Record>, b: seq<Record>)
    ensures Keyless(a + b) == Keyless(a) + Keyless(b)
    decreases |b|
  {
    if b == [] {
      assert a + b == a;
    } else {
      assert (a + b)[..|a + b| - 1] == a + b[..|b| - 1];
      KeylessConcat(a, b[..|b| - 1]);
    }
  }
}
