/** One event record as it lies in a segment file: its encoding, its decoding, and what a torn one reads as. */
module StorageRecord {
  import opened Basics
  import opened Bytes

  datatype Record = Record(offset: nat, timestamp: int, key: Option<seq<byte>>, value: seq<byte>)

  datatype DecodeError = Eof | Truncated | CrcMismatch | Invalid

  datatype Decoded = Ok(record: Record, size: nat) | Err(error: DecodeError)

  const HEADER_LEN: nat := 20
  const VALUE_LEN_FIELD: nat := 4
  const CRC_LEN: nat := 4
  const RECORD_LEN_FIELD: nat := 4
  const MAX_RECORD_BODY_BYTES: nat := 256 * 1024 * 1024

  function KeyLength(key: Option<seq<byte>>): nat {
    match key case None => 0 case Some(k) => |k|
  }

  function BodyLength(r: Record): nat {
    HEADER_LEN + KeyLength(r.key) + VALUE_LEN_FIELD + |r.value| + CRC_LEN
  }

  /** Bytes a record takes on disk, length prefix and checksum included. */
  function DiskSize(r: Record): nat {
    RECORD_LEN_FIELD + BodyLength(r)
  }

  /** Records the format can carry: every number fits its field. */
  predicate Storable(r: Record) {
    && r.offset < 0x1_0000_0000_0000_0000
    && -0x8000_0000_0000_0000 <= r.timestamp < 0x8000_0000_0000_0000
    && KeyLength(r.key) < 0x8000_0000 && BodyLength(r) < 0x1_0000_0000
  }

  /** Records a decoder accepts; the encoder does not ask. */
  predicate Legible(r: Record) {
    BodyLength(r) <= MAX_RECORD_BODY_BYTES
  }

  /** Offset, timestamp, key length (-1 for none), key, value length, value. */
  function Content(r: Record): (c: seq<byte>)
    requires Storable(r)
    ensures |c| == BodyLength(r) - CRC_LEN
  {
    Widths();
    Be(r.offset, 8) + SignedBe(r.timestamp, 8)
    + SignedBe(if r.key.None? then -1 else |r.key.value|, 4) + (if r.key.None? then [] else r.key.value)
    + Be(|r.value|, 4) + r.value
  }

  function EncodeRecord(crc: Checksum, r: Record): (b: seq<byte>)
    requires Storable(r)
    ensures |b| == DiskSize(r)
  {
    Be(BodyLength(r), 4) + Content(r) + Be(crc(Content(r)), 4)
  }

  /** The body length a prefix announces; `None` when it is implausible. */
  function CheckBodyLen(raw: nat): Option<nat> {
    if raw < HEADER_LEN + VALUE_LEN_FIELD + CRC_LEN || MAX_RECORD_BODY_BYTES < raw then None else Some(raw)
  }

  function DecodeBody(crc: Checksum, body: seq<byte>): Decoded
    requires HEADER_LEN + VALUE_LEN_FIELD + CRC_LEN <= |body|
  {
    var keyLen := FromSignedBe(body[16..20]);
    if keyLen < -1 then Err(Invalid)
    else
      var kl := if keyLen == -1 then 0 else keyLen;
      var p := HEADER_LEN + kl;
      if |body| < p + VALUE_LEN_FIELD then Err(Truncated)
      else
        var valueLen := FromBe(body[p..p + 4]);
        if p + 4 + valueLen + CRC_LEN != |body| then Err(Invalid)
        else if FromBe(body[p + 4 + valueLen..]) != crc(body[..p + 4 + valueLen]) then Err(CrcMismatch)
        else Ok(Record(FromBe(body[..8]), FromSignedBe(body[8..16]),
                       if keyLen == -1 then None else Some(body[20..p]), body[p + 4..p + 4 + valueLen]),
                RECORD_LEN_FIELD + |body|)
  }

  /** The record at the front of `buf`. */
  function DecodeRecord(crc: Checksum, buf: seq<byte>): (r: Decoded)
    ensures r.Ok? ==> 32 <= r.size <= |buf|
  {
    if buf == [] then Err(Eof)
    else if |buf| < RECORD_LEN_FIELD then Err(Truncated)
    else match CheckBodyLen(FromBe(buf[..4]))
      case None => Err(Invalid)
      case Some(n) =>
        if |buf| < RECORD_LEN_FIELD + n then Err(Truncated) else DecodeBody(crc, buf[4..4 + n])
  }

  /** The whole length of the record at the front, once its prefix is there. */
  datatype Peeked = Unknown | Length(size: nat) | Implausible

  function PeekRecordLen(buf: seq<byte>): Peeked {
    if |buf| < RECORD_LEN_FIELD then Unknown
    else match CheckBodyLen(FromBe(buf[..4])) case None => Implausible case Some(n) => Length(RECORD_LEN_FIELD + n)
  }

  // ---------- round trip ----------

  /** Where the six parts of a record's content lie. */
  lemma ContentParts(r: Record)
    requires Storable(r)
    ensures var c := Content(r); var p := HEADER_LEN + KeyLength(r.key);
            && |c| == p + 4 + |r.value|
            && c[..8] == Be(r.offset, 8) && c[8..16] == SignedBe(r.timestamp, 8)
            && c[16..20] == SignedBe(if r.key.None? then -1 else |r.key.value|, 4)
            && (r.key.Some? ==> c[20..p] == r.key.value)
            && c[p..p + 4] == Be(|r.value|, 4) && c[p + 4..] == r.value
  {
    hide Be, SignedBe;
    var c := Content(r);
    var kl := if r.key.None? then -1 else |r.key.value|;
    var k := if r.key.None? then [] else r.key.value;
    Widths();
    SignedRoundTrip(r.timestamp, 8);
    SignedRoundTrip(kl, 4);
    var head := Be(r.offset, 8) + SignedBe(r.timestamp, 8) + SignedBe(kl, 4);
    assert c == head + (k + (Be(|r.value|, 4) + r.value));
    var p := HEADER_LEN + |k|;
    assert c[20..p] == k && c[p..p + 4] == Be(|r.value|, 4) && c[p + 4..] == r.value;
  }

  lemma ContentBack(r: Record)
    requires Storable(r)
    ensures var c := Content(r); var p := HEADER_LEN + KeyLength(r.key);
            && FromBe(c[..8]) == r.offset && FromSignedBe(c[8..16]) == r.timestamp
            && FromSignedBe(c[16..20]) == (if r.key.None? then -1 else |r.key.value|)
            && (r.key.Some? ==> c[20..p] == r.key.value)
            && FromBe(c[p..p + 4]) == |r.value| && c[p + 4..] == r.value
  {
    hide Content, Be, SignedBe, FromBe, FromSignedBe;
    ContentParts(r);
    Widths();
    BeRoundTrip(r.offset, 8);
    SignedRoundTrip(r.timestamp, 8);
    SignedRoundTrip(if r.key.None? then -1 else |r.key.value|, 4);
    BeRoundTrip(|r.value|, 4);
  }

  lemma BodyBack(crc: Checksum, r: Record)
    requires Storable(r)
    ensures DecodeBody(crc, Content(r) + Be(crc(Content(r)), 4)) == Ok(r, DiskSize(r))
  {
    hide Content;
    var c := Content(r);
    var body := c + Be(crc(c), 4);
    ContentBack(r);
    Widths();
    BeRoundTrip(crc(c), 4);
    var p := HEADER_LEN + KeyLength(r.key);
    assert body[..8] == c[..8] && body[8..16] == c[8..16] && body[16..20] == c[16..20];
    assert body[20..p] == c[20..p] && body[p..p + 4] == c[p..p + 4];
    assert body[p + 4..|c|] == c[p + 4..] && body[..|c|] == c && body[|c|..] == Be(crc(c), 4);
  }

  lemma PrefixBack(crc: Checksum, r: Record, buf: seq<byte>)
    requires Storable(r) && 4 <= |buf| && (buf <= EncodeRecord(crc, r) || EncodeRecord(crc, r) <= buf)
    ensures FromBe(buf[..4]) == BodyLength(r)
    ensures CheckBodyLen(BodyLength(r)) == if Legible(r) then Some(BodyLength(r)) else None
  {
    hide Content;
    Widths();
    BeRoundTrip(BodyLength(r), 4);
    assert buf[..4] == EncodeRecord(crc, r)[..4];
    assert EncodeRecord(crc, r)[..4] == Be(BodyLength(r), 4);
  }

  /** Decoding an encoded record, whatever follows it, gives it back, unless it is too long to be believed. */
  lemma DecodeBack(crc: Checksum, r: Record, rest: seq<byte>)
    requires Storable(r)
    ensures DecodeRecord(crc, EncodeRecord(crc, r) + rest) == if Legible(r) then Ok(r, DiskSize(r)) else Err(Invalid)
  {
    hide DecodeBody, Content;
    var buf := EncodeRecord(crc, r) + rest;
    PrefixBack(crc, r, buf);
    BodyBack(crc, r);
    assert buf[4..4 + BodyLength(r)] == Content(r) + Be(crc(Content(r)), 4);
  }

  /** A strict prefix of a record is never taken for a record. */
  lemma DecodeTorn(crc: Checksum, r: Record, cut: nat)
    requires Storable(r) && cut < DiskSize(r)
    ensures DecodeRecord(crc, EncodeRecord(crc, r)[..cut])
            == Err(if cut == 0 then Eof else if cut < RECORD_LEN_FIELD || Legible(r) then Truncated else Invalid)
  {
    hide EncodeRecord;
    if 4 <= cut { PrefixBack(crc, r, EncodeRecord(crc, r)[..cut]); }
  }

  /** The parts of a body, put together again. */
  lemma BodyParts(body: seq<byte>, p: nat, end: nat)
    requires 20 <= p && p + 4 <= end <= |body|
    ensures body ==
            body[..8] + body[8..16] + body[16..20] + body[20..p] + body[p..p + 4] + body[p + 4..end] + body[end..]
  {
  }

  lemma BodyIsEncoded(crc: Checksum, body: seq<byte>)
    requires HEADER_LEN + VALUE_LEN_FIELD + CRC_LEN <= |body| <= MAX_RECORD_BODY_BYTES && DecodeBody(crc, body).Ok?
    ensures var r := DecodeBody(crc, body).record;
            Storable(r) && BodyLength(r) == |body| && Content(r) + Be(crc(Content(r)), 4) == body
  {
    hide Be, FromBe, SignedBe, FromSignedBe, FitsSigned, Pow256;
    var r := DecodeBody(crc, body).record;
    var p := HEADER_LEN + KeyLength(r.key);
    var end := p + 4 + |r.value|;
    Widths();
    BeBack(body[..8]);
    SignedBack(body[8..16]);
    SignedBack(body[16..20]);
    BeBack(body[p..p + 4]);
    BeBack(body[end..]);
    SignedFits(r.timestamp);
    BodyParts(body, p, end);
    assert Content(r) == body[..end];
  }

  lemma SignedFits(n: int)
    ensures FitsSigned(n, 8) <==> -0x8000_0000_0000_0000 <= n < 0x8000_0000_0000_0000
  {
    Widths();
  }

  /** What decodes is an encoded record: any change the checksum can see makes the bytes unreadable. */
  lemma DecodedIsEncoded(crc: Checksum, buf: seq<byte>)
    requires DecodeRecord(crc, buf).Ok?
    ensures var Ok(r, size) := DecodeRecord(crc, buf);
            Storable(r) && Legible(r) && size == DiskSize(r) && EncodeRecord(crc, r) == buf[..size]
  {
    hide DecodeBody, Content, Be, FromBe;
    var n := FromBe(buf[..4]);
    Widths();
    BeBack(buf[..4]);
    BodyIsEncoded(crc, buf[4..4 + n]);
    SizeIs(crc, buf[4..4 + n]);
    assert buf[..4 + n] == buf[..4] + buf[4..4 + n];
  }

  lemma SizeIs(crc: Checksum, body: seq<byte>)
    requires HEADER_LEN + VALUE_LEN_FIELD + CRC_LEN <= |body| && DecodeBody(crc, body).Ok?
    ensures DecodeBody(crc, body).size == RECORD_LEN_FIELD + |body|
  {
    hide FromBe, FromSignedBe;
  }

  // ---------- whole files ----------

  predicate AllStorable(rs: seq<Record>) {
    forall k :: 0 <= k < |rs| ==> Storable(rs[k])
  }

  function EncodeRecords(crc: Checksum, rs: seq<Record>): seq<byte>
    requires AllStorable(rs)
  {
    if rs == [] then [] else EncodeRecord(crc, rs[0]) + EncodeRecords(crc, rs[1..])
  }

  function SizeOf(rs: seq<Record>): nat {
    if rs == [] then 0 else DiskSize(rs[0]) + SizeOf(rs[1..])
  }

  lemma {:induction false} EncodedSize(crc: Checksum, rs: seq<Record>)
    requires AllStorable(rs)
    ensures |EncodeRecords(crc, rs)| == SizeOf(rs)
  {
    if rs != [] { EncodedSize(crc, rs[1..]); }
  }

  lemma {:induction false} EncodeConcat(crc: Checksum, a: seq<Record>, b: seq<Record>)
    requires AllStorable(a) && AllStorable(b)
    ensures AllStorable(a + b) && EncodeRecords(crc, a + b) == EncodeRecords(crc, a) + EncodeRecords(crc, b)
  {
    hide EncodeRecord;
    if a == [] {
      assert a + b == b;
    } else {
      assert (a + b)[1..] == a[1..] + b;
      EncodeConcat(crc, a[1..], b);
    }
  }

  lemma {:induction false} SizeConcat(a: seq<Record>, b: seq<Record>)
    ensures SizeOf(a + b) == SizeOf(a) + SizeOf(b)
  {
    if a == [] {
      assert a + b == b;
    } else {
      assert (a + b)[1..] == a[1..] + b;
      SizeConcat(a[1..], b);
    }
  }

  /** How many whole records lie before byte `cut`. */
  function WholeRecords(rs: seq<Record>, cut: nat): (k: nat)
    ensures k <= |rs|
  {
    if rs == [] || cut < DiskSize(rs[0]) then 0 else 1 + WholeRecords(rs[1..], cut - DiskSize(rs[0]))
  }

  /** The records kept fill no more than the cut, and one more would not fit. */
  lemma {:induction false} WholeFits(rs: seq<Record>, cut: nat)
    ensures var k := WholeRecords(rs, cut); SizeOf(rs[..k]) <= cut && (k < |rs| ==> cut < SizeOf(rs[..k + 1]))
  {
    if rs != [] && DiskSize(rs[0]) <= cut {
      var k := WholeRecords(rs[1..], cut - DiskSize(rs[0]));
      WholeFits(rs[1..], cut - DiskSize(rs[0]));
      assert rs[..k + 1][1..] == rs[1..][..k];
      if k + 1 < |rs| { assert rs[..k + 2][1..] == rs[1..][..k + 1]; }
    } else if rs != [] {
      assert rs[..1][1..] == [];
    }
  }
}
