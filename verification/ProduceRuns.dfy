/**
 Produce requests of many producers at once. A request decides its records under its producer's lock. Its
 partitions are then written in any order, with other producers' writes in between, and once all are written
 its sequences are noted and the lock is released. A request that stops half-way notes nothing.
 */
module ProduceRuns {
  import opened Basics
  import opened Producers
  import opened Dataplane

  datatype Flying = Flying(topic: string, rs: seq<Item>, ds: seq<Decision>, written: map<nat, nat>)

  /** A decided request, and where the new records of each partition it has written begin. */
  type Flight = f: Flying | |f.rs| == |f.ds| witness Flying("", [], [], map[])

  /** The logs and windows, and the request each producer's lock is held for. */
  datatype System = System(world: World, flights: map<string, Flight>)

  function NewOf(f: Flight, p: nat): seq<int> {
    NewFor(f.rs, f.ds, p)
  }

  // ---------- steps ----------

  ghost predicate Begin(c: System, c': System, pid: string, topic: string, sent: seq<Sent>) {
    && pid !in c.flights && Numbered(sent).Some?
    && var rs := Numbered(sent).value;
       var d := Decide(WindowsOf(c.world, pid), topic, map[], rs);
       d.Some? && c' == c.(flights := c.flights[pid := Flying(topic, rs, d.value, map[])])
  }

  ghost predicate Write(c: System, c': System, pid: string, p: nat) {
    && pid in c.flights
    && var f := c.flights[pid];
       var slot := (f.topic, p);
       var log := LogAt(c.world.logs, slot);
       && p !in f.written && NewOf(f, p) != []
       && c' == System(c.world.(logs := c.world.logs[slot := log + Entries(pid, NewOf(f, p))]),
                       c.flights[pid := f.(written := f.written[p := |log|])])
  }

  /** The window once what the request wrote to partition `p` is noted. */
  function Settled(w: Option<Window>, f: Flight, p: nat): Option<Window> {
    if p in f.written then NoteAll(w, NewOf(f, p), f.written[p]) else w
  }

  ghost predicate Noted(w: World, w': World, pid: string, f: Flight) {
    && w'.logs == w.logs
    && (forall p: nat ::
          WindowAt(WindowsOf(w', pid), (f.topic, p)) == Settled(WindowAt(WindowsOf(w, pid), (f.topic, p)), f, p))
    && (forall slot: Slot ::
          slot.0 != f.topic ==> WindowAt(WindowsOf(w', pid), slot) == WindowAt(WindowsOf(w, pid), slot))
    && (forall other: string :: other != pid ==> WindowsOf(w', other) == WindowsOf(w, other))
  }

  ghost predicate Complete(f: Flight) {
    forall p: nat :: NewOf(f, p) != [] ==> p in f.written
  }

  ghost predicate Finish(c: System, c': System, pid: string) {
    && pid in c.flights && Complete(c.flights[pid])
    && Noted(c.world, c'.world, pid, c.flights[pid]) && c'.flights == c.flights - {pid}
  }

  /** A write fails or the client goes away: the lock is released and nothing is noted. */
  ghost predicate Stop(c: System, c': System, pid: string) {
    pid in c.flights && c' == c.(flights := c.flights - {pid})
  }

  /** A record without a producer. */
  ghost predicate Plain(c: System, c': System, slot: Slot, e: Entry) {
    e.producer == None && c' == c.(world := c.world.(logs := c.world.logs[slot := LogAt(c.world.logs, slot) + [e]]))
  }

  /** Any step, except that a request only stops before it has written anything. */
  ghost predicate Next(c: System, c': System) {
    || (exists pid, topic, sent :: Begin(c, c', pid, topic, sent))
    || (exists pid, p :: Write(c, c', pid, p))
    || (exists pid :: Finish(c, c', pid))
    || (exists pid :: Stop(c, c', pid) && c.flights[pid].written == map[])
    || (exists slot, e :: Plain(c, c', slot, e))
  }

  ghost predicate Run(cs: seq<System>) {
    cs != [] && cs[0] == System(World(map[], map[]), map[]) && forall i :: 0 <= i < |cs| - 1 ==> Next(cs[i], cs[i + 1])
  }

  // ---------- what every step keeps ----------

  /** The window a producer will have for the partition once the request in flight is noted. */
  function Pending(c: System, pid: string, slot: Slot): Option<Window> {
    var w := WindowAt(WindowsOf(c.world, pid), slot);
    if pid in c.flights && c.flights[pid].topic == slot.0 then Settled(w, c.flights[pid], slot.1) else w
  }

  ghost predicate Remembered(c: System, pid: string, slot: Slot) {
    Remembers(Mine(LogAt(c.world.logs, slot), pid), Pending(c, pid, slot))
  }

  ghost predicate StandAt(log: seq<Entry>, pid: string, seqs: seq<int>, base: nat) {
    base + |seqs| <= |log| && log[base..base + |seqs|] == Entries(pid, seqs)
  }

  /** The request is still decided as it was, and what it answers is in the logs. */
  ghost predicate FlightOk(w: World, pid: string, f: Flight) {
    && Decide(WindowsOf(w, pid), f.topic, map[], f.rs) == Some(f.ds)
    && (forall p: nat ::
          p in f.written ==> NewOf(f, p) != [] && StandAt(LogAt(w.logs, (f.topic, p)), pid, NewOf(f, p), f.written[p]))
    && (forall k :: 0 <= k < |f.rs| && f.ds[k].Known? ==>
          WrittenAt(w, pid, (f.topic, f.rs[k].partition), f.rs[k].sequence, f.ds[k].offset))
  }

  ghost predicate Inv(c: System) {
    && (forall pid: string, slot: Slot :: Remembered(c, pid, slot))
    && (forall pid: string :: pid in c.flights ==> FlightOk(c.world, pid, c.flights[pid]))
  }

  ghost predicate Grew(w: World, w': World) {
    forall slot: Slot :: LogAt(w.logs, slot) <= LogAt(w'.logs, slot)
  }

  lemma FlightStays(w: World, w': World, pid: string, f: Flight)
    requires FlightOk(w, pid, f) && WindowsOf(w', pid) == WindowsOf(w, pid) && Grew(w, w')
    ensures FlightOk(w', pid, f)
  {
    hide Decide, Entries, NewFor;
    forall p: nat | p in f.written ensures StandAt(LogAt(w'.logs, (f.topic, p)), pid, NewOf(f, p), f.written[p]) {
      StandsStill(LogAt(w.logs, (f.topic, p)), LogAt(w'.logs, (f.topic, p)), pid, NewOf(f, p), f.written[p]);
    }
    forall k | 0 <= k < |f.rs| && f.ds[k].Known?
      ensures WrittenAt(w', pid, (f.topic, f.rs[k].partition), f.rs[k].sequence, f.ds[k].offset)
    {
      assert LogAt(w.logs, (f.topic, f.rs[k].partition)) <= LogAt(w'.logs, (f.topic, f.rs[k].partition));
    }
  }

  lemma StandsStill(log: seq<Entry>, log': seq<Entry>, pid: string, seqs: seq<int>, base: nat)
    requires StandAt(log, pid, seqs, base) && log <= log'
    ensures StandAt(log', pid, seqs, base)
  {
    hide Entries;
    assert log'[..|log|] == log;
    assert log'[base..base + |seqs|] == log[base..base + |seqs|];
  }

  /** A producer without a request in flight has windows that remember its logs. */
  lemma SettledProducer(c: System, pid: string)
    requires Inv(c) && pid !in c.flights
    ensures ProducerOk(c.world, pid)
  {
    forall slot: Slot ensures SlotOk(c.world, pid, slot) { assert Remembered(c, pid, slot); }
  }

  lemma BeginKeeps(c: System, c': System, pid: string, topic: string, sent: seq<Sent>)
    requires Inv(c) && Begin(c, c', pid, topic, sent)
    ensures Inv(c')
  {
    hide Remembers, Mine, Numbered, Decide, ProducerOk, StandAt;
    var f := c'.flights[pid];
    SettledProducer(c, pid);
    forall k | 0 <= k < |f.rs| && f.ds[k].Known?
      ensures WrittenAt(c.world, pid, (topic, f.rs[k].partition), f.rs[k].sequence, f.ds[k].offset)
    {
      KnownByWindow(WindowsOf(c.world, pid), topic, map[], f.rs, k);
      DuplicateWritten(c.world, pid, (topic, f.rs[k].partition), f.rs[k].sequence, f.ds[k].offset);
    }
    forall other: string, slot: Slot ensures Remembered(c', other, slot) { assert Remembered(c, other, slot); }
  }

  lemma WriteRemembered(c: System, c': System, pid: string, p: nat)
    requires Inv(c) && Write(c, c', pid, p)
    ensures Remembered(c', pid, (c.flights[pid].topic, p))
  {
    hide Remembers, Mine, Decide, Check, NewFor, Entries, NoteAll, Steps;
    var f := c.flights[pid];
    var slot := (f.topic, p);
    var win := WindowAt(WindowsOf(c.world, pid), slot);
    assert Remembered(c, pid, slot);
    DecideFollows(WindowsOf(c.world, pid), f.topic, map[], f.rs, p);
    WriteRemembers(LogAt(c.world.logs, slot), pid, win, NewOf(f, p));
  }

  lemma WriteKeeps(c: System, c': System, pid: string, p: nat)
    requires Inv(c) && Write(c, c', pid, p)
    ensures Inv(c')
  {
    hide Remembers, Mine, Decide, NewFor, Entries, NoteAll, FlightOk;
    var f := c.flights[pid];
    var slot := (f.topic, p);
    forall other: string, s: Slot ensures Remembered(c', other, s) {
      assert Remembered(c, other, s);
      if s != slot {
      } else if other == pid {
        WriteRemembered(c, c', pid, p);
      } else {
        OthersUntouched(LogAt(c.world.logs, slot), pid, other, NewOf(f, p));
      }
    }
    forall other: string | other in c'.flights ensures FlightOk(c'.world, other, c'.flights[other]) {
      FlightStays(c.world, c'.world, other, c.flights[other]);
      if other == pid { WroteStands(c'.world, pid, f, LogAt(c.world.logs, slot), p); }
    }
  }

  lemma WroteStands(w: World, pid: string, f: Flight, log: seq<Entry>, p: nat)
    requires FlightOk(w, pid, f) && NewOf(f, p) != [] && LogAt(w.logs, (f.topic, p)) == log + Entries(pid, NewOf(f, p))
    ensures FlightOk(w, pid, f.(written := f.written[p := |log|]))
  {
    hide Decide, Entries, NewFor;
    var es := Entries(pid, NewOf(f, p));
    assert (log + es)[|log|..|log| + |es|] == es;
  }

  lemma FinishKeeps(c: System, c': System, pid: string)
    requires Inv(c) && Finish(c, c', pid)
    ensures Inv(c')
  {
    hide Remembers, Mine, Decide, NewFor, NoteAll, FlightOk, Complete;
    forall other: string, slot: Slot ensures Remembered(c', other, slot) {
      assert Remembered(c, other, slot);
      assert slot == (slot.0, slot.1);
    }
    forall other: string | other in c'.flights ensures FlightOk(c'.world, other, c'.flights[other]) {
      FlightStays(c.world, c'.world, other, c.flights[other]);
    }
  }

  lemma PlainKeeps(c: System, c': System, slot: Slot, e: Entry)
    requires Inv(c) && Plain(c, c', slot, e)
    ensures Inv(c')
  {
    hide Remembers, Mine, FlightOk, Settled;
    forall pid: string, s: Slot ensures Remembered(c', pid, s) {
      assert Remembered(c, pid, s);
      if s == slot {
        MinePush(LogAt(c.world.logs, slot), e, pid);
        assert Mine(LogAt(c.world.logs, slot), pid) + [] == Mine(LogAt(c.world.logs, slot), pid);
      }
    }
    forall pid: string | pid in c'.flights ensures FlightOk(c'.world, pid, c'.flights[pid]) {
      FlightStays(c.world, c'.world, pid, c.flights[pid]);
    }
  }

  // ---------- requests that stop ----------

  /** Noting a non-empty run of new sequences moves the window on. */
  lemma {:induction false} NotedLast(w: Option<Window>, seqs: seq<int>, at: nat)
    requires Steps(seqs) && seqs != [] && Check(w, seqs[0]) == Accept
    ensures NoteAll(w, seqs, at).Some? &&
            NoteAll(w, seqs, at).value.lastSeen == seqs[|seqs| - 1] == seqs[0] + |seqs| - 1
    ensures w.Some? ==> w.value.lastSeen < NoteAll(w, seqs, at).value.lastSeen
  {
    hide LastWindow, Find;
    var front := seqs[..|seqs| - 1];
    if front != [] {
      assert Steps(front) by {
        forall k | 0 <= k < |front| - 1 ensures front[k + 1] == front[k] + 1 { assert seqs[k + 1] == seqs[k] + 1; }
      }
      NotedLast(w, front, at);
      assert seqs[|front| - 1 + 1] == seqs[|front| - 1] + 1;
    }
  }

  /** A request that stops leaves every window true if and only if it has not written anything. */
  lemma StopKeepsExactly(c: System, c': System, pid: string)
    requires Inv(c) && Stop(c, c', pid)
    ensures Inv(c') <==> c.flights[pid].written == map[]
  {
    hide Mine, Decide, NewFor, NoteAll, Check, FlightOk, LastWindow, Consecutive;
    var f := c.flights[pid];
    if f.written == map[] {
      forall other: string, slot: Slot ensures Remembered(c', other, slot) { assert Remembered(c, other, slot); }
    } else {
      var p :| p in f.written;
      var slot, win := (f.topic, p), WindowAt(WindowsOf(c.world, pid), (f.topic, p));
      FlightNew(c.world, pid, f, p);
      NotedLast(win, NewOf(f, p), f.written[p]);
      assert Remembered(c, pid, slot);
      assert !Remembered(c', pid, slot);
    }
  }

  lemma FlightNew(w: World, pid: string, f: Flight, p: nat)
    requires FlightOk(w, pid, f)
    ensures Steps(NewOf(f, p)) && (p in f.written ==> NewOf(f, p) != [])
    ensures NewOf(f, p) != [] ==> Check(WindowAt(WindowsOf(w, pid), (f.topic, p)), NewOf(f, p)[0]) == Accept
  {
    hide Check, StandAt;
    DecideFollows(WindowsOf(w, pid), f.topic, map[], f.rs, p);
  }

  /** If it has, the retry is decided as before and writes the same sequences once more. */
  lemma StoppedRetryRepeats(c: System, stopped: System, pid: string, p: nat, sent: seq<Sent>, again: System,
                            wrote: System, k: nat)
    requires Inv(c) && Stop(c, stopped, pid) && p in c.flights[pid].written && Numbered(sent) == Some(c.flights[pid].rs)
    requires Begin(stopped, again, pid, c.flights[pid].topic, sent) && Write(again, wrote, pid, p)
    requires k < |NewOf(c.flights[pid], p)|
    ensures var slot := (c.flights[pid].topic, p); var s := NewOf(c.flights[pid], p)[k];
            exists a: nat, b: nat ::
              a < b && WrittenAt(wrote.world, pid, slot, s, a) && WrittenAt(wrote.world, pid, slot, s, b)
  {
    hide Mine, Decide, NewFor, NoteAll, Numbered, Remembered, WrittenAt, Entries;
    var f := c.flights[pid];
    assert FlightOk(c.world, pid, f);
    var log, base := LogAt(c.world.logs, (f.topic, p)), f.written[p];
    WrittenTwice(wrote.world, pid, (f.topic, p), log, NewOf(f, p), base, k);
    assert base + k < |log| + k;
  }

  lemma WrittenTwice(w: World, pid: string, slot: Slot, log: seq<Entry>, seqs: seq<int>, base: nat, k: nat)
    requires LogAt(w.logs, slot) == log + Entries(pid, seqs) && StandAt(log, pid, seqs, base) && k < |seqs|
    ensures WrittenAt(w, pid, slot, seqs[k], base + k) && WrittenAt(w, pid, slot, seqs[k], |log| + k)
  {
    hide Entries;
    EntryAt(pid, seqs, k);
    assert log[base..base + |seqs|][k] == log[base + k];
  }

  // ---------- every run ----------

  lemma NextKeeps(c: System, c': System)
    requires Inv(c) && Next(c, c')
    ensures Inv(c')
  {
    hide Inv, Begin, Write, Finish, Stop, Plain;
    if pid, topic, sent :| Begin(c, c', pid, topic, sent) {
      BeginKeeps(c, c', pid, topic, sent);
    } else if pid, p :| Write(c, c', pid, p) {
      WriteKeeps(c, c', pid, p);
    } else if pid :| Finish(c, c', pid) {
      FinishKeeps(c, c', pid);
    } else if slot, e :| Plain(c, c', slot, e) {
      PlainKeeps(c, c', slot, e);
    } else {
      HarmlessStop(c, c');
    }
  }

  lemma HarmlessStop(c: System, c': System)
    requires Inv(c) && exists pid :: Stop(c, c', pid) && c.flights[pid].written == map[]
    ensures Inv(c')
  {
    hide Inv;
    var pid :| Stop(c, c', pid) && c.flights[pid].written == map[];
    StopKeepsExactly(c, c', pid);
  }

  lemma {:induction false} RunInv(cs: seq<System>, i: nat)
    requires Run(cs) && i < |cs|
    ensures Inv(cs[i])
  {
    hide Next;
    if i > 0 {
      RunInv(cs, i - 1);
      assert Next(cs[i - 1], cs[i - 1 + 1]);
      NextKeeps(cs[i - 1], cs[i]);
    }
  }

  /** In every run, a producer's sequence is written at most once to a partition. */
  lemma WrittenAtMostOnce(cs: seq<System>, i: nat, slot: Slot, pid: string, s: int, a: nat, b: nat)
    requires Run(cs) && i < |cs| && WrittenAt(cs[i].world, pid, slot, s, a) && WrittenAt(cs[i].world, pid, slot, s, b)
    ensures a == b
  {
    hide Run, Pending, Mine;
    RunInv(cs, i);
    assert Remembered(cs[i], pid, slot);
    var log := LogAt(cs[i].world.logs, slot);
    var j := MineAt(log, pid, a);
    var k := MineAt(log, pid, b);
    ConsecutiveAt(Mine(log, pid), j);
    ConsecutiveAt(Mine(log, pid), k);
  }

  /** In every run, the sequences of a producer on a partition are consecutive, in offset order. */
  lemma SequencesConsecutive(cs: seq<System>, i: nat, slot: Slot, pid: string)
    requires Run(cs) && i < |cs|
    ensures Consecutive(Mine(LogAt(cs[i].world.logs, slot), pid))
  {
    hide Run, Pending, Mine, Consecutive;
    RunInv(cs, i);
    assert Remembered(cs[i], pid, slot);
    NothingConsecutive();
  }

  lemma NothingConsecutive()
    ensures Consecutive([])
  {
  }

  /** In every run, a record written long ago is recognised, while it is in the window, with the offset it has. */
  lemma RetryAnswered(cs: seq<System>, i: nat, slot: Slot, pid: string, s: int, o: nat)
    requires Run(cs) && i < |cs| && pid !in cs[i].flights && WrittenAt(cs[i].world, pid, slot, s, o)
    ensures var c := Check(WindowAt(WindowsOf(cs[i].world, pid), slot), s);
            if InWindow(cs[i].world, pid, slot, s) then c == Duplicate(o) else c.TooLow?
  {
    hide Run, Inv, ProducerOk, Check;
    RunInv(cs, i);
    SettledProducer(cs[i], pid);
    WrittenChecks(cs[i].world, pid, slot, s, o);
  }

  // ---------- retrying a request ----------

  /** The offset a request answers record `k` with. */
  function AnswerOf(f: Flight, k: nat): nat
    requires k < |f.rs|
  {
    var p := f.rs[k].partition;
    match f.ds[k]
    case Known(o) => o
    case New => (if p in f.written then f.written[p] else 0) + |NewFor(f.rs[..k], f.ds[..k], p)|
  }

  function Answers(f: Flight): (os: seq<nat>)
    ensures |os| == |f.rs| && forall k :: 0 <= k < |f.rs| ==> os[k] == AnswerOf(f, k)
  {
    seq(|f.rs|, k requires 0 <= k < |f.rs| => AnswerOf(f, k))
  }

  /** Each record of a complete request stands at the offset it is answered with. */
  lemma AnswerStands(w: World, pid: string, f: Flight, k: nat)
    requires FlightOk(w, pid, f) && Complete(f) && k < |f.rs|
    ensures WrittenAt(w, pid, (f.topic, f.rs[k].partition), f.rs[k].sequence, AnswerOf(f, k))
  {
    hide Decide, NewFor, Entries;
    if f.ds[k].New? {
      var p := f.rs[k].partition;
      var seqs, at := NewOf(f, p), |NewFor(f.rs[..k], f.ds[..k], p)|;
      RankOfNew(f.rs, f.ds, k);
      EntryAt(pid, seqs, at);
      var log, base := LogAt(w.logs, (f.topic, p)), f.written[p];
      assert log[base..base + |seqs|][at] == log[base + at];
    }
  }

  lemma NextGrows(c: System, c': System)
    requires Next(c, c')
    ensures Grew(c.world, c'.world)
  {
    hide Decide, NewFor, Numbered, Settled, Complete;
  }

  lemma {:induction false} RunGrows(cs: seq<System>, i: nat, j: nat)
    requires Run(cs) && i <= j < |cs|
    ensures Grew(cs[i].world, cs[j].world)
    decreases j
  {
    hide Next;
    if i < j {
      RunGrows(cs, i, j - 1);
      assert Next(cs[j - 1], cs[j - 1 + 1]);
      NextGrows(cs[j - 1], cs[j]);
    }
  }

  lemma AnswersStand(cs: seq<System>, i: nat, j: nat, pid: string)
    requires Run(cs) && i < j < |cs| && Finish(cs[i], cs[i + 1], pid)
    ensures var f := cs[i].flights[pid]; AllWritten(cs[j].world, pid, f.topic, f.rs, Answers(f))
  {
    hide Run, Decide, FlightOk, Complete, Noted, Remembered, AnswerOf;
    var f := cs[i].flights[pid];
    RunInv(cs, i);
    RunGrows(cs, i, j);
    forall k | 0 <= k < |f.rs|
      ensures WrittenAt(cs[j].world, pid, (f.topic, f.rs[k].partition), f.rs[k].sequence, AnswerOf(f, k))
    {
      AnswerStands(cs[i].world, pid, f, k);
      assert LogAt(cs[i].world.logs, (f.topic, f.rs[k].partition)) <= LogAt(cs[j].world.logs,
                                                                            (f.topic, f.rs[k].partition));
    }
  }

  /**
   Idempotence over runs: whatever happens after a request has finished, sending it again is answered with the
   offsets of the first time exactly as long as all its sequences are in the windows, and is rejected afterwards.
   Either way it has nothing to write.
   */
  lemma RetryIsIdempotent(cs: seq<System>, i: nat, j: nat, pid: string, p: nat)
    requires Run(cs) && i < j < |cs| && Finish(cs[i], cs[i + 1], pid) && pid !in cs[j].flights
    ensures var f := cs[i].flights[pid];
            var d := Decide(WindowsOf(cs[j].world, pid), f.topic, map[], f.rs);
            && d == (if AllInWindow(cs[j].world, pid, f.topic, f.rs) then Some(AllKnown(Answers(f))) else None)
            && (d.Some? ==> NewFor(f.rs, d.value, p) == [])
  {
    hide Run, Inv, Complete, Noted, ProducerOk, AllWritten, AllInWindow, Decide;
    var f := cs[i].flights[pid];
    RunInv(cs, j);
    SettledProducer(cs[j], pid);
    AnswersStand(cs, i, j, pid);
    DecideWritten(cs[j].world, pid, f.topic, f.rs, Answers(f));
    NothingNew(f.rs, Answers(f), p);
  }

  ghost predicate AllNew(f: Flight) {
    forall k :: 0 <= k < |f.ds| ==> f.ds[k].New?
  }

  lemma {:induction false} NewForHas(rs: seq<Item>, ds: seq<Decision>, p: nat, at: nat) returns (k: nat)
    requires |rs| == |ds| && at < |NewFor(rs, ds, p)|
    ensures k < |rs| && ds[k].New? && rs[k].partition == p && rs[k].sequence == NewFor(rs, ds, p)[at]
  {
    var rest := NewFor(rs[1..], ds[1..], p);
    if ds[0].New? && rs[0].partition == p {
      if at == 0 { k := 0; } else { k := NewForHas(rs[1..], ds[1..], p, at - 1); k := k + 1; }
    } else {
      assert NewFor(rs, ds, p) == [] + rest == rest;
      k := NewForHas(rs[1..], ds[1..], p, at);
      k := k + 1;
    }
  }

  lemma {:induction false} StepsAt(seqs: seq<int>, k: nat)
    requires Steps(seqs) && k < |seqs|
    ensures seqs[k] == seqs[0] + k
  {
    if k > 0 {
      StepsAt(seqs, k - 1);
      assert seqs[k - 1 + 1] == seqs[k - 1] + 1;
    }
  }

  /**
   A request of new records that is retried at once is answered exactly when no partition got more than 128 of
   them.
   */
  lemma RetryAtOnce(c: System, c': System, pid: string)
    requires Inv(c) && Finish(c, c', pid) && AllNew(c.flights[pid])
    ensures var f := c.flights[pid];
            var d := Decide(WindowsOf(c'.world, pid), f.topic, map[], f.rs);
            if forall p: nat :: |NewOf(f, p)| <= WINDOW then d == Some(AllKnown(Answers(f))) else d == None
  {
    hide Complete, Noted, Decide, AnswerOf, FlightOk, AllInWindow, ProducerOk, Remembered, WrittenAt;
    var f := c.flights[pid];
    FinishKeeps(c, c', pid);
    SettledProducer(c', pid);
    forall k | 0 <= k < |f.rs|
      ensures WrittenAt(c'.world, pid, (f.topic, f.rs[k].partition), f.rs[k].sequence, AnswerOf(f, k))
    {
      AnswerStands(c.world, pid, f, k);
      SameLogs(c, c', pid, (f.topic, f.rs[k].partition), f.rs[k].sequence, AnswerOf(f, k));
    }
    DecideWritten(c'.world, pid, f.topic, f.rs, Answers(f));
    WindowAtOnce(c, c', pid);
  }

  lemma SameLogs(c: System, c': System, pid: string, slot: Slot, s: int, o: nat)
    requires Finish(c, c', pid) && WrittenAt(c.world, pid, slot, s, o)
    ensures WrittenAt(c'.world, pid, slot, s, o)
  {
  }

  lemma WindowAtOnce(c: System, c': System, pid: string)
    requires Inv(c) && Finish(c, c', pid) && AllNew(c.flights[pid])
    ensures var f := c.flights[pid];
            AllInWindow(c'.world, pid, f.topic, f.rs) <==> forall p: nat :: |NewOf(f, p)| <= WINDOW
  {
    hide Inv, Complete, Noted, InWindow, NewFor;
    var f := c.flights[pid];
    if p: nat :| |NewOf(f, p)| > WINDOW {
      var k := NewForHas(f.rs, f.ds, p, 0);
      FinishedWindow(c, c', pid, p, 0);
      assert !InWindow(c'.world, pid, (f.topic, f.rs[k].partition), f.rs[k].sequence);
    } else {
      forall k | 0 <= k < |f.rs| ensures InWindow(c'.world, pid, (f.topic, f.rs[k].partition), f.rs[k].sequence) {
        RankOfNew(f.rs, f.ds, k);
        FinishedWindow(c, c', pid, f.rs[k].partition, |NewFor(f.rs[..k], f.ds[..k], f.rs[k].partition)|);
      }
    }
  }

  /** After a request has finished, its new sequences are in the window as far as the window reaches. */
  lemma FinishedWindow(c: System, c': System, pid: string, p: nat, at: nat)
    requires Inv(c) && Finish(c, c', pid) && at < |NewOf(c.flights[pid], p)|
    ensures var f := c.flights[pid];
            InWindow(c'.world, pid, (f.topic, p), NewOf(f, p)[at]) <==> |NewOf(f, p)| - at <= WINDOW
  {
    hide Remembered, FlightOk, NewFor, NoteAll, Check, Steps;
    var f := c.flights[pid];
    FlightNew(c.world, pid, f, p);
    NotedLast(WindowAt(WindowsOf(c.world, pid), (f.topic, p)), NewOf(f, p), f.written[p]);
    StepsAt(NewOf(f, p), at);
  }

  /** Sequences `from` to `n - 1`, all for partition `p`. */
  function Counted(p: nat, from: nat, n: nat): (rs: seq<Item>)
    requires from <= n
    ensures |rs| == n - from
    decreases n - from
  {
    if from == n then [] else [Item(p, from)] + Counted(p, from + 1, n)
  }

  function News(n: nat): (ds: seq<Decision>)
    ensures |ds| == n
  {
    if n == 0 then [] else [New] + News(n - 1)
  }

  lemma {:induction false} CountedAccepted(topic: string, tentative: map<nat, int>, p: nat, from: nat, n: nat)
    requires from <= n && (if from == 0 then p !in tentative else p in tentative && tentative[p] == from - 1)
    ensures Decide(map[], topic, tentative, Counted(p, from, n)) == Some(News(n - from))
    ensures NewFor(Counted(p, from, n), News(n - from), p) == seq(n - from, i => from + i)
    decreases n - from
  {
    if from < n {
      var rs := Counted(p, from, n);
      CountedAccepted(topic, tentative[p := from], p, from + 1, n);
      assert rs[0] == Item(p, from) && rs[1..] == Counted(p, from + 1, n);
      assert News(n - from)[1..] == News(n - from - 1);
      assert seq(n - from, i => from + i) == [from] + seq(n - from - 1, i => from + 1 + i);
    }
  }

  lemma {:induction false} CountedElsewhere(p: nat, q: nat, from: nat, n: nat)
    requires from <= n && p != q
    ensures NewFor(Counted(p, from, n), News(n - from), q) == []
    decreases n - from
  {
    if from < n {
      CountedElsewhere(p, q, from + 1, n);
      assert Counted(p, from, n)[1..] == Counted(p, from + 1, n) && News(n - from)[1..] == News(n - from - 1);
    }
  }

  /**
   A producer's first request of `n` records for one partition is accepted; retried at once it is answered iff
   `n <= 128`.
   */
  lemma FirstRequestRetried(c: System, c': System, pid: string, topic: string, p: nat, n: nat)
    requires Inv(c) && WindowsOf(c.world, pid) == map[] && Finish(c, c', pid)
    requires c.flights[pid].topic == topic && c.flights[pid].rs == Counted(p, 0, n)
    ensures Decide(WindowsOf(c.world, pid), topic, map[], Counted(p, 0, n)).Some?
    ensures Decide(WindowsOf(c'.world, pid), topic, map[], Counted(p, 0, n)).Some? <==> n <= WINDOW
  {
    hide Complete, Noted, Decide, Remembered, NewFor;
    var f := c.flights[pid];
    assert FlightOk(c.world, pid, f);
    CountedAccepted(topic, map[], p, 0, n);
    assert |NewOf(f, p)| == n;
    forall q: nat | q != p ensures NewOf(f, q) == [] { CountedElsewhere(p, q, 0, n); }
    NewsNew(n);
    RetryAtOnce(c, c', pid);
  }

  lemma {:induction false} NewsNew(n: nat)
    ensures forall k :: 0 <= k < n ==> News(n)[k].New?
  {
    if n > 0 { NewsNew(n - 1); }
  }

  // ---------- a request on its own ----------

  /** Since `w` nothing happened but the writes of the producer's request. */
  ghost predicate Alone(w: World, c: System, pid: string) {
    && pid in c.flights && c.world.windows == w.windows
    && var f := c.flights[pid];
       && (forall p: nat :: p in f.written ==> f.written[p] == |LogAt(w.logs, (f.topic, p))|)
       && (forall p: nat :: LogAt(c.world.logs, (f.topic, p)) ==
             LogAt(w.logs, (f.topic, p)) + Entries(pid, if p in f.written then NewOf(f, p) else []))
       && (forall slot: Slot :: slot.0 != f.topic ==> LogAt(c.world.logs, slot) == LogAt(w.logs, slot))
  }

  lemma AloneStart(c: System, c': System, pid: string, topic: string, sent: seq<Sent>)
    requires Begin(c, c', pid, topic, sent)
    ensures Alone(c.world, c', pid)
  {
    hide Decide, Numbered, NewFor;
    forall p: nat ensures LogAt(c.world.logs, (topic, p)) + Entries(pid, []) == LogAt(c.world.logs, (topic, p)) {
      NoEntries(pid, LogAt(c.world.logs, (topic, p)));
    }
  }

  lemma AloneStep(w: World, c: System, c': System, pid: string, p: nat)
    requires Alone(w, c, pid) && Write(c, c', pid, p)
    ensures Alone(w, c', pid) && c'.flights[pid].(written := map[]) == c.flights[pid].(written := map[])
  {
    hide Entries, NewFor;
    var f, f' := c.flights[pid], c'.flights[pid];
    NoEntries(pid, LogAt(w.logs, (f.topic, p)));
    forall r: nat
      ensures LogAt(c'.world.logs, (f.topic, r)) ==
              LogAt(w.logs, (f.topic, r)) + Entries(pid, if r in f'.written then NewOf(f', r) else [])
    {
      assert NewOf(f', r) == NewOf(f, r);
    }
  }

  lemma AloneEnd(w: World, c: System, c': System, pid: string)
    requires Alone(w, c, pid) && Finish(c, c', pid)
    ensures var f := c.flights[pid]; Wrote(w, c'.world, pid, f.topic, f.rs, f.ds)
  {
    hide Entries, NewFor, NoteAll;
    var f := c.flights[pid];
    forall p: nat
      ensures LogAt(c'.world.logs, (f.topic, p)) == LogAt(w.logs, (f.topic, p)) + Entries(pid, NewOf(f, p))
      ensures WindowAt(WindowsOf(c'.world, pid), (f.topic, p))
           == NoteAll(WindowAt(WindowsOf(w, pid), (f.topic, p)), NewOf(f, p), |LogAt(w.logs, (f.topic, p))|)
    {
      NoNotes(WindowAt(WindowsOf(w, pid), (f.topic, p)), |LogAt(w.logs, (f.topic, p))|);
    }
  }

  ghost predicate Writes(c: System, c': System, pid: string) {
    exists p :: Write(c, c', pid, p)
  }

  /** Steps of one request with nothing in between do what the request does on its own. */
  lemma AloneIsRequest(cs: seq<System>, pid: string, topic: string, sent: seq<Sent>)
    requires |cs| >= 3 && Begin(cs[0], cs[1], pid, topic, sent) && Finish(cs[|cs| - 2], cs[|cs| - 1], pid)
    requires forall i :: 1 <= i < |cs| - 2 ==> Writes(cs[i], cs[i + 1], pid)
    ensures Request(cs[0].world, cs[|cs| - 1].world, pid, topic, sent)
  {
    hide Alone, Write, Decide, Numbered, Finish, Wrote;
    AloneStart(cs[0], cs[1], pid, topic, sent);
    var f := cs[1].flights[pid];
    var i := 1;
    while i < |cs| - 2
      invariant 1 <= i <= |cs| - 2 && Alone(cs[0].world, cs[i], pid)
      invariant pid in cs[i].flights && cs[i].flights[pid].(written := map[]) == f.(written := map[])
    {
      assert Writes(cs[i], cs[i + 1], pid);
      var p :| Write(cs[i], cs[i + 1], pid, p);
      AloneStep(cs[0].world, cs[i], cs[i + 1], pid, p);
      StillFlying(cs[i], cs[i + 1], pid, p);
      i := i + 1;
    }
    AloneEnd(cs[0].world, cs[i], cs[i + 1], pid);
  }

  lemma StillFlying(c: System, c': System, pid: string, p: nat)
    requires Write(c, c', pid, p)
    ensures pid in c.flights && pid in c'.flights
  {
  }
}
