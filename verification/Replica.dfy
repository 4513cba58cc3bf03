/**
 A partition kept by a Raft group: applying committed entries, re-applying some of them, and copying the
 state in chunks all lead to the leader's records.
 */
module Replica {
  import opened Basics
  import opened StorageRecord
  import opened StorageIndex
  import opened StorageScan
  import opened StoragePartition

  /** What a record of a data entry carries besides its offset. */
  datatype Payload = Payload(timestamp: int, key: Option<seq<byte>>, value: seq<byte>)

  /** A data entry: the offset of its first record, assigned by the leader, and the records. */
  datatype Command = Command(proposal: nat, base: nat, records: seq<Payload>)

  /** What a replica's partition holds and where it ends. */
  datatype Replica = Replica(records: seq<Record>, next: nat)

  // ---------- applying ----------

  /** The records of an entry, each under the offset the leader gave it. */
  function ToAppend(base: nat, ps: seq<Payload>): (rs: seq<AppendRecord>)
    ensures |rs| == |ps|
    decreases |ps|
  {
    if ps == [] then []
    else [AppendRecord(ps[0].key, ps[0].value, Some(ps[0].timestamp), Some(base))] + ToAppend(base + 1, ps[1..])
  }

  function ToRecords(base: nat, ps: seq<Payload>): (rs: seq<Record>)
    ensures |rs| == |ps|
    decreases |ps|
  {
    if ps == [] then [] else [Record(base, ps[0].timestamp, ps[0].key, ps[0].value)] + ToRecords(base + 1, ps[1..])
  }

  /** Record by record and field by field, what the entry carries, under consecutive offsets. */
  lemma {:induction false} RecordsAt(base: nat, ps: seq<Payload>, i: nat)
    requires i < |ps|
    ensures var r := ToRecords(base, ps)[i];
            r.offset == base + i && r.timestamp == ps[i].timestamp && r.key == ps[i].key && r.value == ps[i].value
    decreases i
  {
    if 0 < i { RecordsAt(base + 1, ps[1..], i - 1); }
  }

  function Apply(r: Replica, c: Command): Replica {
    var a := Assign(r.next, ToAppend(c.base, c.records), 0);
    Replica(r.records + a.added, a.next)
  }

  function ApplyAll(r: Replica, cs: seq<Command>): Replica
    decreases |cs|
  {
    if cs == [] then r else ApplyAll(Apply(r, cs[0]), cs[1..])
  }

  function EndOfCmd(c: Command): nat {
    c.base + |c.records|
  }

  /** Each entry's offsets come after those of the entries before it. */
  predicate Rising(cs: seq<Command>) {
    forall i, j :: 0 <= i < j < |cs| ==> EndOfCmd(cs[i]) <= cs[j].base
  }

  /** What the entries hold, one after the other. */
  function Content(cs: seq<Command>): seq<Record> {
    if cs == [] then [] else ToRecords(cs[0].base, cs[0].records) + Content(cs[1..])
  }

  /** The records carry their timestamps, so the local clock plays no part. */
  lemma {:induction false} ClockIrrelevant(next: nat, base: nat, ps: seq<Payload>, now: int)
    ensures Assign(next, ToAppend(base, ps), now) == Assign(next, ToAppend(base, ps), 0)
    decreases |ps|
  {
    if ps != [] {
      assert ToAppend(base, ps)[1..] == ToAppend(base + 1, ps[1..]);
      ClockIrrelevant(next, base + 1, ps[1..], now);
      ClockIrrelevant(base + 1, base + 1, ps[1..], now);
    }
  }

  /** Applying records that are all past the end stores them as they are. */
  lemma {:induction false} AssignFresh(next: nat, base: nat, ps: seq<Payload>)
    requires next <= base
    ensures var a := Assign(next, ToAppend(base, ps), 0);
            a.added == ToRecords(base, ps) && a.next == if ps == [] then next else base + |ps|
    decreases |ps|
  {
    if ps != [] {
      assert ToAppend(base, ps)[1..] == ToAppend(base + 1, ps[1..]);
      AssignFresh(base + 1, base + 1, ps[1..]);
    }
  }

  /** Applying records that are all below the end stores nothing. */
  lemma {:induction false} AssignOld(next: nat, base: nat, ps: seq<Payload>)
    requires base + |ps| <= next
    ensures var a := Assign(next, ToAppend(base, ps), 0); a.added == [] && a.next == next
    decreases |ps|
  {
    if ps != [] {
      assert ToAppend(base, ps)[1..] == ToAppend(base + 1, ps[1..]);
      AssignOld(next, base + 1, ps[1..]);
    }
  }

  /** Re-applying an entry is a no-op. */
  lemma ApplyAgain(r: Replica, c: Command)
    requires EndOfCmd(c) <= r.next
    ensures Apply(r, c) == r
  {
    AssignOld(r.next, c.base, c.records);
    assert r.records + [] == r.records;
  }

  lemma ApplyNew(r: Replica, c: Command)
    requires r.next <= c.base
    ensures Apply(r, c) ==
              Replica(r.records + ToRecords(c.base, c.records), if c.records == [] then r.next else EndOfCmd(c))
  {
    AssignFresh(r.next, c.base, c.records);
  }

  /** Every entry that holds records lies before the replica's end. */
  ghost predicate Covers(next: nat, cs: seq<Command>) {
    forall i :: 0 <= i < |cs| ==> cs[i].records == [] || EndOfCmd(cs[i]) <= next
  }

  /** From an end no later than the first entry, applying stores exactly the entries' content. */
  lemma {:induction false} ApplyContent(r: Replica, cs: seq<Command>)
    requires Rising(cs) && (cs != [] ==> r.next <= cs[0].base)
    ensures ApplyAll(r, cs).records == r.records + Content(cs)
    ensures r.next <= ApplyAll(r, cs).next && Covers(ApplyAll(r, cs).next, cs)
    decreases |cs|
  {
    hide Apply;
    if cs == [] {
      assert r.records + Content(cs) == r.records;
    } else {
      ApplyNew(r, cs[0]);
      var r1, rest := Apply(r, cs[0]), cs[1..];
      RisingTail(cs);
      ApplyContent(r1, rest);
      assert r.records + (ToRecords(cs[0].base, cs[0].records) + Content(rest)) == r1.records + Content(rest);
      CoversHead(cs, ApplyAll(r1, rest).next);
    }
  }

  lemma RisingTail(cs: seq<Command>)
    requires Rising(cs) && cs != []
    ensures Rising(cs[1..]) && (|cs| > 1 ==> EndOfCmd(cs[0]) <= cs[1].base)
  {
  }

  lemma CoversHead(cs: seq<Command>, next: nat)
    requires cs != [] && Covers(next, cs[1..]) && (cs[0].records == [] || EndOfCmd(cs[0]) <= next)
    ensures Covers(next, cs)
  {
    forall i | 0 <= i < |cs| ensures cs[i].records == [] || EndOfCmd(cs[i]) <= next {
      if i > 0 { assert cs[i] == cs[1..][i - 1]; }
    }
  }

  lemma {:induction false} ApplyConcat(r: Replica, a: seq<Command>, b: seq<Command>)
    ensures ApplyAll(r, a + b) == ApplyAll(ApplyAll(r, a), b)
    decreases |a|
  {
    if a == [] {
      assert a + b == b;
    } else {
      assert (a + b)[1..] == a[1..] + b;
      ApplyConcat(Apply(r, a[0]), a[1..], b);
    }
  }

  /** Entries that are all applied change nothing, in whatever number and order they come again. */
  lemma {:induction false} ApplyOld(r: Replica, cs: seq<Command>)
    requires Covers(r.next, cs)
    ensures ApplyAll(r, cs) == r
    decreases |cs|
  {
    if cs != [] {
      if cs[0].records == [] {
        assert r.records + [] == r.records;
      } else {
        ApplyAgain(r, cs[0]);
      }
      ApplyOld(r, cs[1..]);
    }
  }

  const Empty := Replica([], 0)

  /**
   Replica agreement: however often a replica goes back and re-applies entries it had applied, once it
   has applied the whole log it holds exactly the log's content, the same on every replica.
   */
  lemma ReplayAgrees(log: seq<Command>, k: nat, j: nat, again: seq<Command>)
    requires Rising(log) && j <= k <= |log|
    requires forall i :: 0 <= i < |again| ==> again[i] in log[..k]
    ensures ApplyAll(ApplyAll(ApplyAll(Empty, log[..k]), again), log[j..]) == ApplyAll(Empty, log)
    ensures ApplyAll(Empty, log).records == Content(log)
  {
    hide ApplyAll, Content, Covers, Rising;
    RisingPrefix(log, k);
    PrefixCovers(log[..k]);
    var s := ApplyAll(Empty, log[..k]);
    CoversSome(s.next, log[..k], again);
    ApplyOld(s, again);
    ApplyFrom(s, log, j, k);
    assert log == log[..k] + log[k..];
    ApplyConcat(Empty, log[..k], log[k..]);
    PrefixCovers(log);
  }

  lemma PrefixCovers(log: seq<Command>)
    requires Rising(log)
    ensures var r := ApplyAll(Empty, log); r.records == Content(log) && Covers(r.next, log)
  {
    hide ApplyAll, Content, Covers, Rising;
    ApplyContent(Empty, log);
    assert [] + Content(log) == Content(log);
  }

  /** Going back to entry `j` after the first `k` is going on from `k`. */
  lemma ApplyFrom(s: Replica, log: seq<Command>, j: nat, k: nat)
    requires j <= k <= |log| && Covers(s.next, log[..k])
    ensures ApplyAll(s, log[j..]) == ApplyAll(s, log[k..])
  {
    hide ApplyAll, Covers;
    forall i | 0 <= i < |log[j..k]| ensures log[j..k][i] in log[..k] { assert log[j..k][i] == log[..k][j + i]; }
    CoversSome(s.next, log[..k], log[j..k]);
    ApplyOld(s, log[j..k]);
    assert log[j..] == log[j..k] + log[k..];
    ApplyConcat(s, log[j..k], log[k..]);
  }

  lemma RisingPrefix(log: seq<Command>, k: nat)
    requires Rising(log) && k <= |log|
    ensures Rising(log[..k])
  {
  }

  lemma CoversSome(next: nat, cs: seq<Command>, some: seq<Command>)
    requires Covers(next, cs) && forall i :: 0 <= i < |some| ==> some[i] in cs
    ensures Covers(next, some)
  {
  }

  // ---------- offsets for new entries ----------

  /** The data entries of a log; elections leave entries without data. */
  function DataOf(log: seq<Option<Command>>): seq<Command> {
    if log == [] then []
    else DataOf(log[..|log| - 1]) + if log[|log| - 1].Some? then [log[|log| - 1].value] else []
  }

  function EndOfAll(cs: seq<Command>): nat {
    if cs == [] then 0 else EndOfCmd(cs[|cs| - 1])
  }

  /** The offset past the newest data entry of a log and past the end of the partition. */
  function Assignable(log: seq<Option<Command>>, end: nat): nat {
    Max(EndOfAll(DataOf(log)), end)
  }

  /** Where the next proposal starts: the log is searched from its end for a data entry. */
  method NextAssignable(log: seq<Option<Command>>, end: nat) returns (n: nat)
    ensures n == Assignable(log, end)
  {
    var i := |log|;
    assert log[..i] == log;
    while 0 < i
      invariant 0 <= i <= |log| && DataOf(log) == DataOf(log[..i])
    {
      assert log[..i][..i - 1] == log[..i - 1];
      if log[i - 1].Some? { return Max(EndOfCmd(log[i - 1].value), end); }
      i := i - 1;
    }
    n := end;
  }

  /**
   Offsets keep rising: with the entries compacted away applied, an entry proposed at the next
   assignable offset lies after every entry before it, also those a former leader left uncommitted.
   */
  lemma ProposalRises(compacted: seq<Command>, log: seq<Option<Command>>, end: nat, c: Command)
    requires Rising(compacted + DataOf(log)) && (forall i :: 0 <= i < |compacted| ==> EndOfCmd(compacted[i]) <= end)
    requires c.base == Assignable(log, end)
    ensures Rising(compacted + DataOf(log) + [c])
  {
    var d, n := DataOf(log), |compacted|;
    var all := compacted + d;
    forall i | 0 <= i < |all| ensures EndOfCmd(all[i]) <= c.base {
      if i >= n && i < |all| - 1 {
        assert EndOfCmd(all[i]) <= all[|all| - 1].base;
        assert all[|all| - 1] == d[|d| - 1];
      }
    }
    forall i, j | 0 <= i < j < |all + [c]| ensures EndOfCmd((all + [c])[i]) <= (all + [c])[j].base {
      if j < |all| { assert EndOfCmd(all[i]) <= all[j].base; }
    }
  }

  // ---------- answering those who wait ----------

  function Offsets(base: nat, n: nat): seq<nat>
    decreases n
  {
    if n == 0 then [] else [base] + Offsets(base + 1, n - 1)
  }

  lemma {:induction false} OffsetsAt(base: nat, n: nat, i: nat)
    requires i < n
    ensures |Offsets(base, n)| == n && Offsets(base, n)[i] == base + i
    decreases n
  {
    if 1 < n { OffsetsAt(base + 1, n - 1, if 0 < i then i - 1 else 0); }
  }

  /** The offsets reported are the leader's, whether the records were new or known. */
  lemma {:induction false} ReportsLeaders(next: nat, base: nat, ps: seq<Payload>, now: int)
    ensures Assign(next, ToAppend(base, ps), now).offsets == Offsets(base, |ps|)
    decreases |ps|
  {
    if ps != [] {
      assert ToAppend(base, ps)[1..] == ToAppend(base + 1, ps[1..]);
      ReportsLeaders(next, base + 1, ps[1..], now);
      ReportsLeaders(base + 1, base + 1, ps[1..], now);
    }
  }

  datatype Answer = Stored(offsets: seq<nat>) | Superseded

  class ApplyLoop {
    const partition: Partition
    /** Proposals waiting, with the log index they were given once that is known. */
    var waiters: map<nat, Option<nat>>

    constructor (partition: Partition)
      ensures this.partition == partition && waiters == map[]
    {
      this.partition := partition;
      waiters := map[];
    }

    /**
     Applies a committed entry. Its own proposer is told its offsets; a proposer whose index has passed
     without its entry is told that it was replaced; nobody else is answered.
     */
    method ApplyEntry(index: nat, c: Command, now: int) returns (answers: map<nat, Answer>)
      requires partition.Valid() && AllStorable(Assign(partition.nextOffset, ToAppend(c.base, c.records), now).added)
      modifies this, partition
      ensures partition.Valid()
      ensures Replica(partition.Contents(), partition.nextOffset) ==
                Apply(Replica(old(partition.Contents()), old(partition.nextOffset)), c)
      ensures forall p :: p in answers <==>
                p in old(waiters) &&
                (p == c.proposal || (old(waiters)[p].Some? && old(waiters)[p].value <= index))
      ensures forall p ::
                p in answers ==>
                  answers[p] == if p == c.proposal then Stored(Offsets(c.base, |c.records|)) else Superseded
      ensures waiters == old(waiters) - answers.Keys
    {
      hide Chained, Flat, LastIndexed, AllStorable, Assign, Offsets;
      ClockIrrelevant(partition.nextOffset, c.base, c.records, now);
      ReportsLeaders(partition.nextOffset, c.base, c.records, now);
      var offsets := partition.AppendBatch(ToAppend(c.base, c.records), now);
      answers, waiters := Answers(waiters, c.proposal, index, offsets);
    }
  }

  /** Who is answered when an entry has been applied, and who goes on waiting. */
  method Answers(waiters: map<nat, Option<nat>>, proposal: nat, index: nat, offsets: seq<nat>)
    returns (answers: map<nat, Answer>, left: map<nat, Option<nat>>)
    ensures forall p :: p in answers <==>
              p in waiters && (p == proposal || (waiters[p].Some? && waiters[p].value <= index))
    ensures forall p :: p in answers ==> answers[p] == if p == proposal then Stored(offsets) else Superseded
    ensures left == waiters - answers.Keys
  {
    answers, left := map[], waiters;
    if proposal in left {
      answers := answers[proposal := Stored(offsets)];
      left := left - {proposal};
    }
    var superseded := set p | p in left && Passed(left[p], index);
    answers := answers + map p | p in superseded :: Superseded;
    left := left - superseded;
  }

  predicate Passed(given: Option<nat>, index: nat) {
    given.Some? && given.value <= index
  }
}
