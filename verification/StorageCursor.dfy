/** The windowed reader of a segment file, and the plain scan it stands for. */
module StorageCursor {
  import opened Basics
  import opened Bytes
  import opened StorageRecord

  const MIN_WINDOW: nat := 4096

  datatype Next = End | Got(record: Record) | Failed(error: DecodeError)

  /** The record at the front announces more bytes than a window holds. */
  predicate Oversize(rest: seq<byte>, window: nat) {
    var p := PeekRecordLen(rest); p.Length? && window < p.size
  }

  /**
   What the reader answers at a point with `rest` still before its limit and `have` bytes of it in its
   buffer: a record longer than the window is missed exactly when not even its length is buffered.
   */
  function NextOf(crc: Checksum, rest: seq<byte>, have: nat, window: nat): Next {
    if rest == [] then End
    else if have < RECORD_LEN_FIELD && Oversize(rest, window) then Failed(Truncated)
    else match DecodeRecord(crc, rest) case Ok(r, _) => Got(r) case Err(e) => Failed(e)
  }

  /** Bytes the reader moves on by: nothing unless it gave out a record. */
  function Advance(crc: Checksum, rest: seq<byte>, have: nat, window: nat): (n: nat)
    ensures n <= |rest| && (NextOf(crc, rest, have, window).Got? ==> 0 < n)
  {
    if NextOf(crc, rest, have, window).Got? then DecodeRecord(crc, rest).size else 0
  }

  /** Bytes left in the buffer after a record of `size` bytes, with `rest` bytes to the limit before it. */
  function HaveAfter(have: nat, size: nat, window: nat, rest: nat): nat {
    if size <= have then have - size
    else
      var filled := Min(Max(if have < RECORD_LEN_FIELD then RECORD_LEN_FIELD else size, window), rest);
      if size <= filled then filled - size else 0
  }

  // ---------- decoding part of what is there ----------

  lemma PeekPrefix(b: seq<byte>, rest: seq<byte>)
    requires b <= rest && RECORD_LEN_FIELD <= |b|
    ensures PeekRecordLen(b) == PeekRecordLen(rest)
  {
    assert b[..4] == rest[..4];
  }

  /** With the whole announced record buffered, decoding the buffer is decoding the file. */
  lemma DecodeWhole(crc: Checksum, b: seq<byte>, rest: seq<byte>)
    requires b <= rest && RECORD_LEN_FIELD <= |b|
    requires PeekRecordLen(b).Length? ==> PeekRecordLen(b).size <= |b|
    ensures DecodeRecord(crc, b) == DecodeRecord(crc, rest)
  {
    hide DecodeBody;
    assert b[..4] == rest[..4];
    var n := FromBe(b[..4]);
    if CheckBodyLen(n).Some? { assert b[4..4 + n] == rest[4..4 + n]; }
  }

  // ---------- the reader ----------

  class RecordCursor {
    const crc: Checksum
    const file: seq<byte>
    const limit: nat
    const window: nat
    var pos: nat
    var buf: seq<byte>
    var bufStart: nat

    ghost predicate Valid()
      reads this
    {
      && pos <= limit <= |file| && MIN_WINDOW <= window
      && bufStart + |buf| <= limit && buf == file[bufStart..bufStart + |buf|]
    }

    /** What is still to be read. */
    ghost function Rest(): seq<byte>
      reads this
      requires Valid()
    {
      file[pos..limit]
    }

    constructor (crc: Checksum, file: seq<byte>, start: nat, limit: nat, window: nat)
      requires start <= limit <= |file|
      ensures Valid() && this.crc == crc && this.file == file && pos == start && this.limit == limit
      ensures this.window == Max(window, MIN_WINDOW) && buf == []
    {
      this.crc, this.file, this.limit := crc, file, limit;
      this.window := Max(window, MIN_WINDOW);
      pos, buf, bufStart := start, [], start;
    }

    function Buffered(): (b: seq<byte>)
      reads this
      requires Valid()
      ensures b <= Rest()
    {
      if pos < bufStart || bufStart + |buf| <= pos then [] else buf[pos - bufStart..]
    }

    method Refill(atLeast: nat)
      requires Valid()
      modifies this
      ensures Valid() && pos == old(pos) && Buffered() == Rest()[..Min(Max(atLeast, window), |Rest()|)]
    {
      var want := Min(Max(atLeast, window), limit - pos);
      buf := file[pos..pos + want];
      bufStart := pos;
      assert Rest()[..want] == buf;
    }

    method NextRecord() returns (r: Next)
      requires Valid()
      modifies this
      ensures Valid()
      ensures r == NextOf(crc, old(Rest()), |old(Buffered())|, window)
      ensures pos == old(pos) + Advance(crc, old(Rest()), |old(Buffered())|, window)
      ensures Rest() == old(Rest())[pos - old(pos)..]
      ensures r.Got? ==> |Buffered()| == HaveAfter(|old(Buffered())|, pos - old(pos), window, |old(Rest())|)
    {
      hide DecodeRecord, PeekRecordLen, Oversize, HaveAfter, Fetched;
      if limit <= pos { return End; }
      var refilled := false;
      while true
        invariant Valid() && pos == old(pos) && pos < limit
        invariant !refilled ==> Buffered() == old(Buffered())
        invariant refilled ==> Fetched(crc, Buffered(), Rest(), |old(Buffered())|, window)
        decreases !refilled
      {
        Decoding(crc, Buffered(), Rest(), |old(Buffered())|, window, refilled);
        match DecodeRecord(crc, Buffered()) {
          case Ok(rec, n) =>
            pos := pos + n;
            return Got(rec);
          case Err(e) =>
            if e != Truncated && e != Eof { return Failed(e); }
            if refilled { return Failed(Truncated); }
            var peeked := PeekRecordLen(Buffered());
            if peeked.Implausible? { return Failed(Invalid); }
            var need := if peeked.Length? then peeked.size else RECORD_LEN_FIELD;
            if limit < pos + need { return Failed(Truncated); }
            Refill(need);
            refilled := true;
        }
      }
    }
  }

  /** The buffer after the one refill. */
  ghost predicate Fetched(crc: Checksum, b: seq<byte>, rest: seq<byte>, have: nat, window: nat) {
    && b <= rest && RECORD_LEN_FIELD <= |b|
    && (Oversize(rest, window) && have < RECORD_LEN_FIELD ==> |b| == Min(window, |rest|))
    && (PeekRecordLen(rest).Length? && !(Oversize(rest, window) && have < RECORD_LEN_FIELD) ==>
          PeekRecordLen(rest).size <= |b| || |b| == |rest|)
    && (DecodeRecord(crc, rest).Ok? ==> Wanted(have, |b|, rest, window))
  }

  /** The refill asked for the announced length, or for the length field; nothing whole was buffered. */
  ghost predicate Wanted(have: nat, filled: nat, rest: seq<byte>, window: nat) {
    var p := PeekRecordLen(rest);
    if have < RECORD_LEN_FIELD then filled == Min(Max(RECORD_LEN_FIELD, window), |rest|)
    else p.Length? && have < p.size && filled == Min(Max(p.size, window), |rest|)
  }

  /** A decoded record has the length it announced. */
  lemma DecodedSize(crc: Checksum, b: seq<byte>)
    requires DecodeRecord(crc, b).Ok?
    ensures PeekRecordLen(b) == Length(DecodeRecord(crc, b).size)
  {
  }

  lemma Decoding(crc: Checksum, b: seq<byte>, rest: seq<byte>, have: nat, window: nat, refilled: bool)
    requires b <= rest && rest != [] && MIN_WINDOW <= window
    requires if refilled then Fetched(crc, b, rest, have, window) else have == |b|
    ensures var d := DecodeRecord(crc, b);
            d.Ok? ==> d.size <= |b| && HaveAfter(have, d.size, window, |rest|) == |b| - d.size
    ensures var d := DecodeRecord(crc, b);
            if d.Ok? || (d.error != Truncated && d.error != Eof) then
              (d.Ok? ==> DecodeRecord(crc, rest) == d) &&
              NextOf(crc, rest, have, window) == (if d.Ok? then Got(d.record) else Failed(d.error))
            else if refilled then NextOf(crc, rest, have, window) == Failed(Truncated)
            else
              var p := PeekRecordLen(b);
              var need := if p.Length? then p.size else RECORD_LEN_FIELD;
              && !p.Implausible?
              && (|rest| < need ==> NextOf(crc, rest, have, window) == Failed(Truncated))
              && (need <= |rest| ==> Fetched(crc, rest[..Min(Max(need, window), |rest|)], rest, have, window))
  {
    hide DecodeRecord, PeekRecordLen;
    if |b| == |rest| { assert b == rest; }
    if DecodeRecord(crc, b).Ok? { DecodedSize(crc, b); }
    if RECORD_LEN_FIELD <= |b| { PeekPrefix(b, rest); }
    var whole := RECORD_LEN_FIELD <= |b| && (PeekRecordLen(b).Length? ==> PeekRecordLen(b).size <= |b|);
    if whole { DecodeWhole(crc, b, rest); } else { NotWhole(crc, b); }
    if !refilled && !whole {
      if |rest| < RECORD_LEN_FIELD || (PeekRecordLen(b).Length? && |rest| < PeekRecordLen(b).size) {
        PeekShort(crc, rest);
      } else {
        PeekPrefix(rest[..Min(Max(if PeekRecordLen(b).Length? then PeekRecordLen(b).size else 4, window), |rest|)],
                   rest);
      }
    }
    PeekShort(crc, b);
  }

  lemma NotWhole(crc: Checksum, b: seq<byte>)
    requires !(RECORD_LEN_FIELD <= |b| && (PeekRecordLen(b).Length? ==> PeekRecordLen(b).size <= |b|))
    ensures DecodeRecord(crc, b) == Err(if b == [] then Eof else Truncated)
  {
  }

  lemma PeekShort(crc: Checksum, b: seq<byte>)
    ensures |b| < RECORD_LEN_FIELD <==> PeekRecordLen(b).Unknown?
    ensures PeekRecordLen(b).Length? && |b| < PeekRecordLen(b).size ==> DecodeRecord(crc, b) == Err(Truncated)
    ensures 0 < |b| < RECORD_LEN_FIELD ==> DecodeRecord(crc, b) == Err(Truncated)
    ensures PeekRecordLen(b).Implausible? ==> DecodeRecord(crc, b) == Err(Invalid)
    ensures DecodeRecord(crc, b) == Err(Eof) ==> b == []
  {
  }

  // ---------- reading a file of records ----------

  /**
   What keeps the reader from a whole record: a length no decoder believes, or one past the window with
   nothing buffered.
   */
  predicate Missed(r: Record, have: nat, window: nat) {
    !Legible(r) || (have < RECORD_LEN_FIELD && window < DiskSize(r))
  }

  /**
   A whole record is given out exactly unless its length is beyond belief, or it is longer than the
   window and fewer bytes than its length field happen to be buffered.
   */
  lemma GivesRecord(crc: Checksum, r: Record, rest: seq<byte>, have: nat, window: nat)
    requires Storable(r)
    ensures var all := EncodeRecord(crc, r) + rest;
            && (NextOf(crc, all, have, window) == Got(r) <==> !Missed(r, have, window))
            && (if Missed(r, have, window) then NextOf(crc, all, have, window).Failed?
                else Advance(crc, all, have, window) == DiskSize(r))
  {
    hide EncodeRecord, DecodeRecord;
    DecodeBack(crc, r, rest);
    PrefixBack(crc, r, EncodeRecord(crc, r) + rest);
  }

  /** At a torn record the reader fails and stays where it is. */
  lemma FailsAtTorn(crc: Checksum, r: Record, cut: nat, have: nat, window: nat)
    requires Storable(r) && 0 < cut < DiskSize(r)
    ensures NextOf(crc, EncodeRecord(crc, r)[..cut], have, window).Failed?
    ensures Advance(crc, EncodeRecord(crc, r)[..cut], have, window) == 0
  {
    DecodeTorn(crc, r, cut);
  }

  /** How many of the records the reader gives out before the first it misses, with `tail` bytes after them. */
  function Reached(rs: seq<Record>, have: nat, window: nat, tail: nat): (n: nat)
    ensures n <= |rs|
  {
    if rs == [] || Missed(rs[0], have, window) then 0
    else 1 + Reached(rs[1..], HaveAfter(have, DiskSize(rs[0]), window, SizeOf(rs) + tail), window, tail)
  }

  predicate AllWithin(rs: seq<Record>, window: nat) {
    forall k :: 0 <= k < |rs| ==> Legible(rs[k]) && DiskSize(rs[k]) <= window
  }

  /** Records no longer than the window are all reached, whatever the buffer holds. */
  lemma {:induction false} ReachesAll(rs: seq<Record>, have: nat, window: nat, tail: nat)
    requires AllWithin(rs, window)
    ensures Reached(rs, have, window, tail) == |rs|
  {
    if rs != [] {
      hide Legible, DiskSize;
      assert !Missed(rs[0], have, window);
      ReachesAll(rs[1..], HaveAfter(have, DiskSize(rs[0]), window, SizeOf(rs) + tail), window, tail);
    }
  }

  /** The bytes that are buffered when the reader comes to record `k`. */
  function HaveAt(rs: seq<Record>, k: nat, have: nat, window: nat, tail: nat): nat
    requires k <= |rs|
    decreases k
  {
    if k == 0 then have
    else HaveAt(rs[1..], k - 1, HaveAfter(have, DiskSize(rs[0]), window, SizeOf(rs) + tail), window, tail)
  }

  /** None of the first `n` records is missed when the reader comes to it. */
  ghost predicate Readable(rs: seq<Record>, n: nat, have: nat, window: nat, tail: nat)
    requires n <= |rs|
  {
    forall k :: 0 <= k < n ==> !Missed(rs[k], HaveAt(rs, k, have, window, tail), window)
  }

  /** The reader gives out the first `n` records if and only if it misses none of them, record by record. */
  lemma {:induction false} ReachedExactly(rs: seq<Record>, n: nat, have: nat, window: nat, tail: nat)
    requires n <= |rs|
    ensures n <= Reached(rs, have, window, tail) <==> Readable(rs, n, have, window, tail)
    decreases n
  {
    hide Missed, HaveAfter, SizeOf, DiskSize;
    if n > 0 {
      var next := HaveAfter(have, DiskSize(rs[0]), window, SizeOf(rs) + tail);
      ReachedExactly(rs[1..], n - 1, next, window, tail);
      assert HaveAt(rs, 0, have, window, tail) == have;
      if Readable(rs, n, have, window, tail) {
        forall k | 0 <= k < n - 1 ensures !Missed(rs[1..][k], HaveAt(rs[1..], k, next, window, tail), window) {
          assert !Missed(rs[k + 1], HaveAt(rs, k + 1, have, window, tail), window);
        }
      } else if !Missed(rs[0], have, window) {
        var k :| 0 <= k < n && Missed(rs[k], HaveAt(rs, k, have, window, tail), window);
        assert Missed(rs[1..][k - 1], HaveAt(rs[1..], k - 1, next, window, tail), window);
      }
    }
  }

  lemma SmallReadable(rs: seq<Record>, have: nat, window: nat, tail: nat)
    requires AllWithin(rs, window)
    ensures Readable(rs, |rs|, have, window, tail)
  {
    hide Legible, DiskSize, HaveAt;
  }

  /** In a file of records the reader gives out the next record, or misses it. */
  lemma GivesNext(crc: Checksum, rs: seq<Record>, tail: seq<byte>, have: nat, window: nat)
    requires AllStorable(rs) && rs != []
    ensures var rest := EncodeRecords(crc, rs) + tail;
            && rest[DiskSize(rs[0])..] == EncodeRecords(crc, rs[1..]) + tail
            && if Missed(rs[0], have, window) then NextOf(crc, rest, have, window).Failed?
               else NextOf(crc, rest, have, window) == Got(rs[0]) && Advance(crc, rest, have, window) == DiskSize(rs[0])
  {
    hide EncodeRecord, NextOf, Advance;
    var x, more := EncodeRecord(crc, rs[0]), EncodeRecords(crc, rs[1..]) + tail;
    assert EncodeRecords(crc, rs) + tail == x + more;
    GivesRecord(crc, rs[0], more, have, window);
  }
}
