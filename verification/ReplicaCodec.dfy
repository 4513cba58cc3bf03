/** Data entries as bytes: the leader encodes a batch, every replica decodes it. */
module ReplicaCodec {
  import opened Basics
  import opened Bytes
  import opened Replica

  const ENTRY_V1: byte := 1

  /** A decoded entry; the second form is the older one, whose offset is its log index less one. */
  datatype Decoded = Batch(command: Command) | Legacy(key: Option<seq<byte>>, value: seq<byte>)

  function EncodeKey(key: Option<seq<byte>>): seq<byte>
    requires key.Some? ==> |key.value| < 0x8000_0000
  {
    Widths();
    match key
    case Some(k) => SignedBe(|k|, 4) + k
    case None => SignedBe(-1, 4)
  }

  predicate Small(p: Payload) {
    && -0x8000_0000_0000_0000 <= p.timestamp < 0x8000_0000_0000_0000
    && (p.key.Some? ==> |p.key.value| < 0x8000_0000) && |p.value| < 0x1_0000_0000
  }

  function EncodePayload(p: Payload): seq<byte>
    requires Small(p)
  {
    Widths();
    SignedBe(p.timestamp, 8) + EncodeKey(p.key) + Be(|p.value|, 4) + p.value
  }

  predicate AllSmall(ps: seq<Payload>) {
    forall i :: 0 <= i < |ps| ==> Small(ps[i])
  }

  function EncodePayloads(ps: seq<Payload>): seq<byte>
    requires AllSmall(ps)
  {
    if ps == [] then [] else EncodePayload(ps[0]) + EncodePayloads(ps[1..])
  }

  predicate Encodable(c: Command) {
    && c.proposal < 0x1_0000_0000_0000_0000 && c.base < 0x1_0000_0000_0000_0000
    && |c.records| < 0x1_0000_0000 && AllSmall(c.records)
  }

  function EncodeBatch(c: Command): seq<byte>
    requires Encodable(c)
  {
    [ENTRY_V1] + Be(c.proposal, 8) + Be(c.base, 8) + Be(|c.records|, 4) + EncodePayloads(c.records)
  }

  // ---------- decoding: each step takes bytes off the front ----------

  datatype Taken<T> = Taken(value: T, rest: seq<byte>) | Short

  function Take(b: seq<byte>, n: nat): (r: Taken<seq<byte>>)
    ensures r.Taken? ==> |r.rest| + n == |b|
  {
    if n <= |b| then Taken(b[..n], b[n..]) else Short
  }

  function TakeKey(b: seq<byte>): (r: Taken<Option<seq<byte>>>)
    ensures r.Taken? ==> |r.rest| < |b|
  {
    match Take(b, 4)
    case Short => Short
    case Taken(len, rest) =>
      var n := FromSignedBe(len);
      if n < 0 then Taken(None, rest)
      else match Take(rest, n)
        case Short => Short
        case Taken(k, more) => Taken(Some(k), more)
  }

  function TakeValue(b: seq<byte>): (r: Taken<seq<byte>>)
    ensures r.Taken? ==> |r.rest| < |b|
  {
    match Take(b, 4)
    case Short => Short
    case Taken(len, rest) => Take(rest, FromBe(len))
  }

  function TakePayload(b: seq<byte>): (r: Taken<Payload>)
    ensures r.Taken? ==> |r.rest| < |b|
  {
    match Take(b, 8)
    case Short => Short
    case Taken(ts, r1) =>
      match TakeKey(r1)
      case Short => Short
      case Taken(key, r2) =>
        match TakeValue(r2)
        case Short => Short
        case Taken(value, r3) => Taken(Payload(FromSignedBe(ts), key, value), r3)
  }

  function TakePayloads(b: seq<byte>, n: nat): Taken<seq<Payload>> {
    if n == 0 then Taken([], b)
    else match TakePayload(b)
      case Short => Short
      case Taken(p, rest) =>
        match TakePayloads(rest, n - 1)
        case Short => Short
        case Taken(ps, more) => Taken([p] + ps, more)
  }

  function DecodeCommand(b: seq<byte>): Option<Decoded> {
    if b != [] && b[0] == ENTRY_V1 then
      if |b| < 21 then None
      else match TakePayloads(b[21..], FromBe(b[17..21]))
        case Short => None
        case Taken(ps, rest) => if rest != [] then None else Some(Batch(Command(FromBe(b[1..9]), FromBe(b[9..17]), ps)))
    else match TakeKey(b)
      case Short => None
      case Taken(key, r1) =>
        match TakeValue(r1)
        case Short => None
        case Taken(value, rest) => if rest != [] then None else Some(Legacy(key, value))
  }

  /** Base offset and count of a batch, without reading its records. */
  function BatchSpan(b: seq<byte>): Option<(nat, nat)> {
    if |b| < 21 || b[0] != ENTRY_V1 then None else Some((FromBe(b[9..17]), FromBe(b[17..21])))
  }

  // ---------- round trip ----------

  lemma TakesFront(a: seq<byte>, rest: seq<byte>)
    ensures Take(a + rest, |a|) == Taken(a, rest)
  {
    assert (a + rest)[..|a|] == a && (a + rest)[|a|..] == rest;
  }

  lemma TakesKey(key: Option<seq<byte>>, rest: seq<byte>)
    requires key.Some? ==> |key.value| < 0x8000_0000
    ensures TakeKey(EncodeKey(key) + rest) == Taken(key, rest)
  {
    hide SignedBe, FromSignedBe;
    Widths();
    match key
    case None =>
      SignedRoundTrip(-1, 4);
      TakesFront(SignedBe(-1, 4), rest);
    case Some(k) =>
      SignedRoundTrip(|k|, 4);
      assert EncodeKey(key) + rest == SignedBe(|k|, 4) + (k + rest);
      TakesFront(SignedBe(|k|, 4), k + rest);
      TakesFront(k, rest);
  }

  lemma TakesValue(value: seq<byte>, rest: seq<byte>)
    requires |value| < 0x1_0000_0000
    ensures TakeValue(Be(|value|, 4) + value + rest) == Taken(value, rest)
  {
    Widths();
    BeRoundTrip(|value|, 4);
    assert Be(|value|, 4) + value + rest == Be(|value|, 4) + (value + rest);
    TakesFront(Be(|value|, 4), value + rest);
    TakesFront(value, rest);
  }

  lemma TakesPayload(p: Payload, rest: seq<byte>)
    requires Small(p)
    ensures TakePayload(EncodePayload(p) + rest) == Taken(p, rest)
  {
    hide TakeKey, TakeValue, EncodeKey, SignedBe, FromSignedBe;
    Widths();
    SignedRoundTrip(p.timestamp, 8);
    var v := Be(|p.value|, 4) + p.value + rest;
    assert EncodePayload(p) + rest == SignedBe(p.timestamp, 8) + (EncodeKey(p.key) + v);
    TakesFront(SignedBe(p.timestamp, 8), EncodeKey(p.key) + v);
    TakesKey(p.key, v);
    TakesValue(p.value, rest);
  }

  lemma {:induction false} TakesPayloads(ps: seq<Payload>, rest: seq<byte>)
    requires AllSmall(ps)
    ensures TakePayloads(EncodePayloads(ps) + rest, |ps|) == Taken(ps, rest)
  {
    hide TakePayload, EncodePayload;
    if ps == [] {
      assert EncodePayloads(ps) + rest == rest;
    } else {
      var more := EncodePayloads(ps[1..]) + rest;
      assert EncodePayloads(ps) + rest == EncodePayload(ps[0]) + more;
      TakesPayload(ps[0], more);
      TakesPayloads(ps[1..], rest);
      assert [ps[0]] + ps[1..] == ps;
    }
  }

  lemma HeaderBack(c: Command)
    requires Encodable(c)
    ensures var b := EncodeBatch(c);
            && |b| >= 21 && b[0] == ENTRY_V1 && FromBe(b[1..9]) == c.proposal && FromBe(b[9..17]) == c.base
            && FromBe(b[17..21]) == |c.records| && b[21..] == EncodePayloads(c.records)
  {
    hide EncodePayloads;
    Widths();
    BeRoundTrip(c.proposal, 8);
    BeRoundTrip(c.base, 8);
    BeRoundTrip(|c.records|, 4);
    var b := EncodeBatch(c);
    assert b[1..9] == Be(c.proposal, 8) && b[9..17] == Be(c.base, 8) && b[17..21] == Be(|c.records|, 4);
  }

  /** What a replica decodes is what the leader proposed, and the span tells its offsets. */
  lemma BatchRoundTrip(c: Command)
    requires Encodable(c)
    ensures DecodeCommand(EncodeBatch(c)) == Some(Batch(c))
    ensures BatchSpan(EncodeBatch(c)) == Some((c.base, |c.records|))
  {
    hide EncodeBatch, EncodePayloads, TakePayloads;
    HeaderBack(c);
    TakesPayloads(c.records, []);
    assert EncodePayloads(c.records) + [] == EncodePayloads(c.records);
  }
}
