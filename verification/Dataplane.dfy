/**
 The produce path: decide every record of a request against the producer's windows, write the new ones
 partition by partition, then note them. A rejected request writes nothing.
 */
module Dataplane {
  import opened Basics
  import opened Producers

  /** A record of a request: the partition it was routed to and its sequence, if it carries one. */
  datatype Sent = Sent(partition: nat, sequence: Option<int>)

  /** A record with a proper sequence. */
  datatype Item = Item(partition: nat, sequence: int)

  /** With a producer id, every record needs a sequence that is not negative. */
  function Numbered(rs: seq<Sent>): (r: Option<seq<Item>>)
    ensures r.Some? ==> |r.value| == |rs|
  {
    if rs == [] then Some([])
    else
      var rest := Numbered(rs[1..]);
      if rs[0].sequence.None? || rs[0].sequence.value < 0 || rest.None? then None
      else Some([Item(rs[0].partition, rs[0].sequence.value)] + rest.value)
  }

  datatype Decision = New | Known(offset: nat)

  // ---------- deciding ----------

  function WindowAt(windows: map<Slot, Window>, slot: Slot): Option<Window> {
    if slot in windows then Some(windows[slot]) else None
  }

  /** After the first new record for a partition, the following ones must be consecutive. */
  function DecideOne(windows: map<Slot, Window>, topic: string, tentative: map<nat, int>, r: Item): Outcome {
    if r.partition in tentative then
      if r.sequence == tentative[r.partition] + 1 then Accept else Gap(tentative[r.partition] + 1, r.sequence)
    else Check(WindowAt(windows, (topic, r.partition)), r.sequence)
  }

  function Before(ds: seq<Decision>, rest: Option<seq<Decision>>): Option<seq<Decision>> {
    if rest.None? then None else Some(ds + rest.value)
  }

  lemma BeforeBefore(ds: seq<Decision>, more: seq<Decision>, rest: Option<seq<Decision>>)
    ensures Before(ds, Before(more, rest)) == Before(ds + more, rest) && Before([], rest) == rest
  {
    if rest.Some? { assert ds + (more + rest.value) == ds + more + rest.value && [] + rest.value == rest.value; }
  }

  /** The decisions for all records; `None` when one of them makes the request fail. */
  function Decide(windows: map<Slot, Window>, topic: string, tentative: map<nat, int>,
                  rs: seq<Item>): (d: Option<seq<Decision>>)
    ensures d.Some? ==> |d.value| == |rs|
    decreases |rs|
  {
    if rs == [] then Some([])
    else match DecideOne(windows, topic, tentative, rs[0])
      case Accept =>
        Before([New], Decide(windows, topic, tentative[rs[0].partition := rs[0].sequence], rs[1..]))
      case Duplicate(o) => Before([Known(o)], Decide(windows, topic, tentative, rs[1..]))
      case TooLow(_) => None
      case Gap(_, _) => None
  }

  // ---------- when a request is accepted ----------

  /** The sequences of the records for one partition, in order. */
  function OfPart(rs: seq<Item>, p: nat): seq<int> {
    if rs == [] then [] else (if rs[0].partition == p then [rs[0].sequence] else []) + OfPart(rs[1..], p)
  }

  predicate Runs(from: int, seqs: seq<int>) {
    forall j :: 0 <= j < |seqs| ==> seqs[j] == from + j
  }

  /** The first `k` are duplicates; the next, if any, may be written, and all that follow run on from it. */
  predicate AcceptableAt(w: Option<Window>, seqs: seq<int>, k: nat)
    requires k <= |seqs|
  {
    && (forall j :: 0 <= j < k ==> Check(w, seqs[j]).Duplicate?)
    && (k < |seqs| ==> Check(w, seqs[k]).Accept? && Runs(seqs[k], seqs[k..]))
  }

  predicate Acceptable(w: Option<Window>, seqs: seq<int>) {
    exists k :: 0 <= k <= |seqs| && AcceptableAt(w, seqs, k)
  }

  ghost predicate Goes(windows: map<Slot, Window>, topic: string, tentative: map<nat, int>, rs: seq<Item>, p: nat) {
    if p in tentative then Runs(tentative[p] + 1, OfPart(rs, p))
    else Acceptable(WindowAt(windows, (topic, p)), OfPart(rs, p))
  }

  lemma RunsHead(from: int, s: int, rest: seq<int>)
    ensures Runs(from, [s] + rest) <==> s == from && Runs(from + 1, rest)
  {
    var seqs := [s] + rest;
    if Runs(from, seqs) {
      assert seqs[0] == from;
      forall j | 0 <= j < |rest| ensures rest[j] == from + 1 + j { assert seqs[j + 1] == from + (j + 1); }
    }
    if s == from && Runs(from + 1, rest) {
      forall j | 0 <= j < |seqs| ensures seqs[j] == from + j { if 0 < j { assert seqs[j] == rest[j - 1]; } }
    }
  }

  lemma AcceptableHead(w: Option<Window>, s: int, rest: seq<int>)
    ensures Acceptable(w, [s] + rest) <==>
            || (Check(w, s).Accept? && Runs(s + 1, rest))
            || (Check(w, s).Duplicate? && Acceptable(w, rest))
  {
    hide Check, Runs;
    var seqs := [s] + rest;
    RunsHead(s, s, rest);
    assert seqs[0..] == seqs;
    if Acceptable(w, seqs) {
      var k :| 0 <= k <= |seqs| && AcceptableAt(w, seqs, k);
      if 0 < k {
        assert Check(w, seqs[0]).Duplicate?;
        ShiftBack(w, s, rest, k);
      }
    }
    if Check(w, s).Accept? && Runs(s + 1, rest) { assert AcceptableAt(w, seqs, 0); }
    if Check(w, s).Duplicate? && Acceptable(w, rest) {
      var k :| 0 <= k <= |rest| && AcceptableAt(w, rest, k);
      ShiftOn(w, s, rest, k);
    }
  }

  lemma ShiftBack(w: Option<Window>, s: int, rest: seq<int>, k: nat)
    requires 0 < k <= |rest| + 1 && AcceptableAt(w, [s] + rest, k)
    ensures AcceptableAt(w, rest, k - 1)
  {
    hide Check, Runs;
    var seqs := [s] + rest;
    forall j | 0 <= j < k - 1 ensures Check(w, rest[j]).Duplicate? { assert Check(w, seqs[j + 1]).Duplicate?; }
    assert seqs[k..] == rest[k - 1..];
  }

  lemma ShiftOn(w: Option<Window>, s: int, rest: seq<int>, k: nat)
    requires k <= |rest| && AcceptableAt(w, rest, k) && Check(w, s).Duplicate?
    ensures AcceptableAt(w, [s] + rest, k + 1)
  {
    hide Check, Runs;
    var seqs := [s] + rest;
    forall j | 0 <= j < k + 1 ensures Check(w, seqs[j]).Duplicate? {
      if 0 < j { assert Check(w, rest[j - 1]).Duplicate?; }
    }
    assert seqs[k + 1..] == rest[k..];
  }

  /** What the first record leaves to be decided about each partition. */
  lemma GoesHead(windows: map<Slot, Window>, topic: string, tentative: map<nat, int>, rs: seq<Item>, p: nat)
    requires rs != []
    ensures var o := DecideOne(windows, topic, tentative, rs[0]);
            var next := if o.Accept? then tentative[rs[0].partition := rs[0].sequence] else tentative;
            Goes(windows, topic, tentative, rs, p) <==>
            (p != rs[0].partition || o.Accept? || o.Duplicate?) && Goes(windows, topic, next, rs[1..], p)
  {
    hide Check, Runs, Acceptable;
    var s, rest := rs[0].sequence, OfPart(rs[1..], p);
    if p == rs[0].partition {
      assert OfPart(rs, p) == [s] + rest;
      if p in tentative {
        RunsHead(tentative[p] + 1, s, rest);
      } else {
        AcceptableHead(WindowAt(windows, (topic, p)), s, rest);
      }
    } else {
      assert OfPart(rs, p) == [] + rest == rest;
    }
  }

  /**
   A request is accepted exactly if, partition by partition, its records are first some that are known,
   then a run without gaps from the first that may be written.
   */
  lemma {:induction false} AcceptedExactly(windows: map<Slot, Window>, topic: string, tentative: map<nat, int>,
                                           rs: seq<Item>)
    ensures Decide(windows, topic, tentative, rs).Some? <==> forall p: nat :: Goes(windows, topic, tentative, rs, p)
    decreases |rs|
  {
    hide DecideOne, Goes;
    if rs == [] {
      forall p: nat ensures Goes(windows, topic, tentative, rs, p) { NothingGoes(windows, topic, tentative, p); }
    } else {
      var o, p0 := DecideOne(windows, topic, tentative, rs[0]), rs[0].partition;
      var next := if o.Accept? then tentative[p0 := rs[0].sequence] else tentative;
      AcceptedExactly(windows, topic, next, rs[1..]);
      forall p: nat
        ensures Goes(windows, topic, tentative, rs, p) <==>
                (p != p0 || o.Accept? || o.Duplicate?) && Goes(windows, topic, next, rs[1..], p)
      {
        GoesHead(windows, topic, tentative, rs, p);
      }
      if !o.Accept? && !o.Duplicate? { assert !Goes(windows, topic, tentative, rs, p0); }
      DecideHead(windows, topic, tentative, rs);
      if forall p: nat :: Goes(windows, topic, tentative, rs, p) {
        forall p: nat ensures Goes(windows, topic, next, rs[1..], p) {
          assert Goes(windows, topic, tentative, rs, p);
        }
      }
    }
  }

  lemma NothingGoes(windows: map<Slot, Window>, topic: string, tentative: map<nat, int>, p: nat)
    ensures Goes(windows, topic, tentative, [], p)
  {
    var none: seq<int> := [];
    assert OfPart([], p) == none;
    assert AcceptableAt(WindowAt(windows, (topic, p)), none, 0);
  }

  lemma DecideHead(windows: map<Slot, Window>, topic: string, tentative: map<nat, int>, rs: seq<Item>)
    requires rs != []
    ensures var o := DecideOne(windows, topic, tentative, rs[0]);
            var next := if o.Accept? then tentative[rs[0].partition := rs[0].sequence] else tentative;
            Decide(windows, topic, tentative, rs).Some? <==>
            (o.Accept? || o.Duplicate?) && Decide(windows, topic, next, rs[1..]).Some?
  {
    hide DecideOne;
  }

  /** With a producer id, a request is taken up exactly if every record has a sequence that is not negative. */
  lemma {:induction false} NumberedExactly(sent: seq<Sent>)
    ensures var r := Numbered(sent);
            && (r.Some? <==> forall i :: 0 <= i < |sent| ==> sent[i].sequence.Some? && 0 <= sent[i].sequence.value)
            && (r.Some? ==> forall i :: 0 <= i < |sent| ==>
                              r.value[i].partition == sent[i].partition &&
                              Some(r.value[i].sequence) == sent[i].sequence)
  {
    if sent != [] {
      NumberedExactly(sent[1..]);
      var fits := forall i :: 0 <= i < |sent| ==> sent[i].sequence.Some? && 0 <= sent[i].sequence.value;
      if fits {
        assert forall i :: 0 <= i < |sent[1..]| ==> sent[1..][i] == sent[i + 1];
      } else {
        var i :| 0 <= i < |sent| && !(sent[i].sequence.Some? && 0 <= sent[i].sequence.value);
        if 0 < i { assert sent[1..][i - 1] == sent[i]; }
      }
    }
  }

  /** The sequences of the new records of one partition, in order. */
  function NewFor(rs: seq<Item>, ds: seq<Decision>, p: nat): seq<int>
    requires |rs| == |ds|
  {
    if rs == [] then []
    else (if ds[0].New? && rs[0].partition == p then [rs[0].sequence] else []) + NewFor(rs[1..], ds[1..], p)
  }

  predicate Steps(seqs: seq<int>) {
    forall k :: 0 <= k < |seqs| - 1 ==> seqs[k + 1] == seqs[k] + 1
  }

  /** The new records of each partition follow on without a gap, from where the window or the request left off. */
  lemma {:induction false} DecideFollows(windows: map<Slot, Window>, topic: string, tentative: map<nat, int>,
                                         rs: seq<Item>, p: nat)
    requires Decide(windows, topic, tentative, rs).Some?
    ensures var seqs := NewFor(rs, Decide(windows, topic, tentative, rs).value, p);
            && Steps(seqs)
            && (seqs != [] ==>
                  if p in tentative then seqs[0] == tentative[p] + 1
                  else Check(WindowAt(windows, (topic, p)), seqs[0]) == Accept)
    decreases |rs|
  {
    if rs != [] {
      hide Check, Steps;
      var ds := Decide(windows, topic, tentative, rs).value;
      var next := if ds[0].New? then tentative[rs[0].partition := rs[0].sequence] else tentative;
      assert Decide(windows, topic, next, rs[1..]) == Some(ds[1..]);
      DecideFollows(windows, topic, next, rs[1..], p);
      StepsOn(rs[0].sequence, NewFor(rs[1..], ds[1..], p));
    } else {
      assert NewFor(rs, [], p) == [];
    }
  }

  lemma StepsOn(s: int, rest: seq<int>)
    requires Steps(rest)
    ensures [] + rest == rest
    ensures rest == [] || rest[0] == s + 1 ==> Steps([s] + rest)
  {
    if rest == [] || rest[0] == s + 1 {
      forall k | 0 <= k < |rest| ensures ([s] + rest)[k + 1] == ([s] + rest)[k] + 1 {
        if k > 0 { assert rest[k - 1 + 1] == rest[k - 1] + 1; }
      }
    }
  }

  // ---------- writing and noting ----------

  function Entries(pid: string, seqs: seq<int>): (es: seq<Entry>)
    ensures |es| == |seqs|
  {
    if seqs == [] then [] else Entries(pid, seqs[..|seqs| - 1]) + [Entry(Some(pid), seqs[|seqs| - 1])]
  }

  /** The window after noting sequences written from offset `at` on. */
  function NoteAll(w: Option<Window>, seqs: seq<int>, at: nat): Option<Window> {
    if seqs == [] then w else Some(Note(NoteAll(w, seqs[..|seqs| - 1], at), seqs[|seqs| - 1], at + |seqs| - 1))
  }

  /** Writing and noting an accepted run keeps the window true. */
  lemma {:induction false} WriteRemembers(log: seq<Entry>, pid: string, w: Option<Window>, seqs: seq<int>)
    requires Remembers(Mine(log, pid), w) && Steps(seqs) && (seqs != [] ==> Check(w, seqs[0]) == Accept)
    ensures Remembers(Mine(log + Entries(pid, seqs), pid), NoteAll(w, seqs, |log|))
    ensures seqs != [] ==> NoteAll(w, seqs, |log|).Some? && NoteAll(w, seqs, |log|).value.lastSeen == seqs[|seqs| - 1]
  {
    hide Remembers, Mine, Note, Check;
    if seqs == [] {
      assert log + Entries(pid, seqs) == log;
    } else {
      var front, s := seqs[..|seqs| - 1], seqs[|seqs| - 1];
      assert Steps(front) by {
        forall k | 0 <= k < |front| - 1 ensures front[k + 1] == front[k] + 1 { assert seqs[k + 1] == seqs[k] + 1; }
      }
      WriteRemembers(log, pid, w, front);
      var before, w' := log + Entries(pid, front), NoteAll(w, front, |log|);
      if front != [] {
        assert seqs[|front| - 1 + 1] == seqs[|front| - 1] + 1;
        AcceptsNext(w');
      }
      WriteOne(before, pid, w', s);
      assert log + Entries(pid, seqs) == before + [Entry(Some(pid), s)];
    }
  }

  lemma AcceptsNext(w: Option<Window>)
    requires w.Some?
    ensures Check(w, w.value.lastSeen + 1) == Accept
  {
  }

  lemma WriteOne(log: seq<Entry>, pid: string, w: Option<Window>, s: int)
    requires Remembers(Mine(log, pid), w) && Check(w, s) == Accept
    ensures Remembers(Mine(log + [Entry(Some(pid), s)], pid), Some(Note(w, s, |log|))) &&
            Note(w, s, |log|).lastSeen == s
  {
    NoteRemembers(Mine(log, pid), w, s, |log|);
    MinePush(log, Entry(Some(pid), s), pid);
  }

  lemma {:induction false} OthersUntouched(log: seq<Entry>, pid: string, other: string, seqs: seq<int>)
    requires other != pid
    ensures Mine(log + Entries(pid, seqs), other) == Mine(log, other)
  {
    if seqs == [] {
      assert log + Entries(pid, seqs) == log;
    } else {
      var front := seqs[..|seqs| - 1];
      OthersUntouched(log, pid, other, front);
      MinePush(log + Entries(pid, front), Entry(Some(pid), seqs[|seqs| - 1]), other);
      assert log + Entries(pid, seqs) == log + Entries(pid, front) + [Entry(Some(pid), seqs[|seqs| - 1])];
    }
  }

  // ---------- requests ----------

  datatype World = World(logs: map<Slot, seq<Entry>>, windows: map<string, map<Slot, Window>>)

  datatype Produced = Produced(partition: nat, offset: nat, duplicate: bool)

  function LogAt(logs: map<Slot, seq<Entry>>, slot: Slot): seq<Entry> {
    if slot in logs then logs[slot] else []
  }

  function WindowsOf(w: World, pid: string): map<Slot, Window> {
    if pid in w.windows then w.windows[pid] else map[]
  }

  /** The answer for record `i`: the offset it has or gets. */
  function AnswerAt(logs: map<Slot, seq<Entry>>, topic: string, rs: seq<Item>, ds: seq<Decision>, i: nat): Produced
    requires |rs| == |ds| && i < |rs|
  {
    var p := rs[i].partition;
    match ds[i]
    case Known(o) => Produced(p, o, true)
    case New => Produced(p, |LogAt(logs, (topic, p))| + |NewFor(rs[..i], ds[..i], p)|, false)
  }

  /** What an accepted request does to every partition of every topic, and to every window of its producer. */
  ghost predicate Wrote(w: World, w': World, pid: string, topic: string, rs: seq<Item>, ds: seq<Decision>)
    requires |rs| == |ds|
  {
    && (forall p: nat :: LogAt(w'.logs, (topic, p)) == LogAt(w.logs, (topic, p)) + Entries(pid, NewFor(rs, ds, p)))
    && (forall slot: Slot :: slot.0 != topic ==> LogAt(w'.logs, slot) == LogAt(w.logs, slot))
    && (forall p: nat :: WindowAt(WindowsOf(w', pid), (topic, p))
                      == NoteAll(WindowAt(WindowsOf(w, pid), (topic, p)), NewFor(rs, ds, p),
                                 |LogAt(w.logs, (topic, p))|))
    && (forall slot: Slot ::
          slot.0 != topic ==> WindowAt(WindowsOf(w', pid), slot) == WindowAt(WindowsOf(w, pid), slot))
    && (forall other: string :: other != pid ==> WindowsOf(w', other) == WindowsOf(w, other))
  }

  /** One produce request: rejected and nothing changes, or every record decided, written and noted. */
  ghost predicate Request(w: World, w': World, pid: string, topic: string, sent: seq<Sent>) {
    match Numbered(sent)
    case None => w' == w
    case Some(rs) =>
      var d := Decide(WindowsOf(w, pid), topic, map[], rs);
      if d.None? then w' == w else Wrote(w, w', pid, topic, rs, d.value)
  }

  /** Every window of every producer remembers what the logs hold. */
  ghost predicate Inv(w: World) {
    forall pid: string, slot: Slot :: SlotOk(w, pid, slot)
  }

  ghost predicate ProducerOk(w: World, pid: string) {
    forall slot: Slot :: SlotOk(w, pid, slot)
  }

  ghost predicate SlotOk(w: World, pid: string, slot: Slot) {
    Remembers(Mine(LogAt(w.logs, slot), pid), WindowAt(WindowsOf(w, pid), slot))
  }

  lemma RequestKeepsInv(w: World, w': World, pid: string, topic: string, sent: seq<Sent>)
    requires Inv(w) && Request(w, w', pid, topic, sent)
    ensures Inv(w')
  {
    hide Remembers, Mine, Numbered;
    var rs := if Numbered(sent).Some? then Numbered(sent).value else [];
    var d := if Numbered(sent).Some? then Decide(WindowsOf(w, pid), topic, map[], rs) else None;
    if d.Some? {
      forall other: string, slot: Slot ensures SlotOk(w', other, slot) {
        assert SlotOk(w, other, slot);
        if slot.0 == topic {
          var seqs := NewFor(rs, d.value, slot.1);
          assert slot == (topic, slot.1);
          assert LogAt(w'.logs, (topic, slot.1)) == LogAt(w.logs, (topic, slot.1)) + Entries(pid, seqs);
          if other == pid {
            DecideFollows(WindowsOf(w, pid), topic, map[], rs, slot.1);
            WriteRemembers(LogAt(w.logs, slot), pid, WindowAt(WindowsOf(w, pid), slot), seqs);
          } else {
            OthersUntouched(LogAt(w.logs, slot), pid, other, seqs);
          }
        } else {
          assert LogAt(w'.logs, slot) == LogAt(w.logs, slot);
        }
      }
    }
  }

  /** Where in `Mine` an entry of the log is. */
  lemma {:induction false} MineAt(log: seq<Entry>, pid: string, o: nat) returns (k: nat)
    requires o < |log| && log[o].producer == Some(pid)
    ensures k < |Mine(log, pid)| && Mine(log, pid)[k] == (log[o].sequence, o)
  {
    var front := log[..|log| - 1];
    if o == |log| - 1 {
      k := |Mine(front, pid)|;
    } else {
      k := MineAt(front, pid, o);
    }
  }

  lemma {:induction false} MineOffsets(log: seq<Entry>, pid: string, k: nat)
    requires k < |Mine(log, pid)|
    ensures var (s, o) := Mine(log, pid)[k]; o < |log| && log[o] == Entry(Some(pid), s)
  {
    var front := log[..|log| - 1];
    if k < |Mine(front, pid)| {
      MineOffsets(front, pid, k);
      assert front[Mine(front, pid)[k].1] == log[Mine(front, pid)[k].1];
    }
  }

  // ---------- retrying a request ----------

  /** At offset `o` of the partition stands the producer's record with sequence `s`. */
  predicate WrittenAt(w: World, pid: string, slot: Slot, s: int, o: nat) {
    o < |LogAt(w.logs, slot)| && LogAt(w.logs, slot)[o] == Entry(Some(pid), s)
  }

  /** The sequence is among the last 128 the producer's window for the partition covers. */
  predicate InWindow(w: World, pid: string, slot: Slot, s: int) {
    var x := WindowAt(WindowsOf(w, pid), slot);
    x.Some? && x.value.lastSeen - WINDOW < s
  }

  /** A sequence that was written is a duplicate with its offset, or too low once it left the window. */
  lemma WrittenChecks(w: World, pid: string, slot: Slot, s: int, o: nat)
    requires ProducerOk(w, pid) && WrittenAt(w, pid, slot, s, o)
    ensures var c := Check(WindowAt(WindowsOf(w, pid), slot), s);
            if InWindow(w, pid, slot, s) then c == Duplicate(o) else c.TooLow?
  {
    hide Find, LastWindow, Mine;
    assert SlotOk(w, pid, slot);
    var log := LogAt(w.logs, slot);
    var mine := Mine(log, pid);
    var k := MineAt(log, pid, o);
    ConsecutiveAt(mine, k);
    ConsecutiveAt(mine, |mine| - 1);
    CheckIs(mine, WindowAt(WindowsOf(w, pid), slot), s);
  }

  function AllKnown(os: seq<nat>): seq<Decision> {
    if os == [] then [] else [Known(os[0])] + AllKnown(os[1..])
  }

  ghost predicate AllWritten(w: World, pid: string, topic: string, rs: seq<Item>, os: seq<nat>) {
    |os| == |rs| && forall k :: 0 <= k < |rs| ==> WrittenAt(w, pid, (topic, rs[k].partition), rs[k].sequence, os[k])
  }

  ghost predicate AllInWindow(w: World, pid: string, topic: string, rs: seq<Item>) {
    forall k :: 0 <= k < |rs| ==> InWindow(w, pid, (topic, rs[k].partition), rs[k].sequence)
  }

  /** A request of records that are all written is answered with their offsets, or rejected as too old. */
  lemma {:induction false} DecideWritten(w: World, pid: string, topic: string, rs: seq<Item>, os: seq<nat>)
    requires ProducerOk(w, pid) && AllWritten(w, pid, topic, rs, os)
    ensures Decide(WindowsOf(w, pid), topic, map[], rs) ==
              if AllInWindow(w, pid, topic, rs) then Some(AllKnown(os)) else None
    decreases |rs|
  {
    if rs != [] {
      hide ProducerOk, WrittenAt, InWindow, Check;
      assert WrittenAt(w, pid, (topic, rs[0].partition), rs[0].sequence, os[0]);
      WrittenChecks(w, pid, (topic, rs[0].partition), rs[0].sequence, os[0]);
      assert AllWritten(w, pid, topic, rs[1..], os[1..]);
      DecideWritten(w, pid, topic, rs[1..], os[1..]);
      WindowHead(w, pid, topic, rs);
    }
  }

  lemma WindowHead(w: World, pid: string, topic: string, rs: seq<Item>)
    requires rs != []
    ensures AllInWindow(w, pid, topic, rs) <==>
            InWindow(w, pid, (topic, rs[0].partition), rs[0].sequence) && AllInWindow(w, pid, topic, rs[1..])
  {
    hide InWindow;
    var rest := rs[1..];
    if AllInWindow(w, pid, topic, rs) {
      forall k | 0 <= k < |rest| ensures InWindow(w, pid, (topic, rest[k].partition), rest[k].sequence) {
        assert rest[k] == rs[k + 1];
      }
    } else {
      var k :| 0 <= k < |rs| && !InWindow(w, pid, (topic, rs[k].partition), rs[k].sequence);
      if k > 0 { assert rest[k - 1] == rs[k]; }
    }
  }

  /** A record is decided to be known only by the window. */
  lemma {:induction false} KnownByWindow(windows: map<Slot, Window>, topic: string, tentative: map<nat, int>,
                                         rs: seq<Item>, k: nat)
    requires Decide(windows, topic, tentative, rs).Some? && k < |rs| &&
             Decide(windows, topic, tentative, rs).value[k].Known?
    ensures Check(WindowAt(windows, (topic, rs[k].partition)), rs[k].sequence) ==
              Duplicate(Decide(windows, topic, tentative, rs).value[k].offset)
    decreases |rs|
  {
    hide Check;
    var ds := Decide(windows, topic, tentative, rs).value;
    if k > 0 {
      var next := if ds[0].New? then tentative[rs[0].partition := rs[0].sequence] else tentative;
      assert Decide(windows, topic, next, rs[1..]) == Some(ds[1..]);
      KnownByWindow(windows, topic, next, rs[1..], k - 1);
    }
  }

  /** The rank of a new record is its place among the sequences written to its partition. */
  lemma RankOfNew(rs: seq<Item>, ds: seq<Decision>, k: nat)
    requires |rs| == |ds| && k < |rs| && ds[k].New?
    ensures var p := rs[k].partition; var at := |NewFor(rs[..k], ds[..k], p)|;
            at < |NewFor(rs, ds, p)| && NewFor(rs, ds, p)[at] == rs[k].sequence
  {
    var p := rs[k].partition;
    NewForPush(rs, ds, k, p);
    assert rs == rs[..k + 1] + rs[k + 1..] && ds == ds[..k + 1] + ds[k + 1..];
    NewForConcat(rs[..k + 1], ds[..k + 1], rs[k + 1..], ds[k + 1..], p);
  }

  lemma EntryAt(pid: string, seqs: seq<int>, at: nat)
    requires at < |seqs|
    ensures Entries(pid, seqs)[at] == Entry(Some(pid), seqs[at])
  {
  }

  /** After an accepted request, each of its records stands at the offset it was answered with. */
  lemma AnswerIsWritten(w: World, w': World, pid: string, topic: string, rs: seq<Item>, ds: seq<Decision>, k: nat)
    requires ProducerOk(w, pid) && Decide(WindowsOf(w, pid), topic, map[], rs) == Some(ds) &&
             Wrote(w, w', pid, topic, rs, ds) && k < |rs|
    ensures WrittenAt(w', pid, (topic, rs[k].partition), rs[k].sequence, AnswerAt(w.logs, topic, rs, ds, k).offset)
  {
    hide Decide, Mine, Check, Find, Remembers, NewFor, Entries, NoteAll;
    var p := rs[k].partition;
    var slot := (topic, p);
    assert LogAt(w'.logs, (topic, p)) == LogAt(w.logs, (topic, p)) + Entries(pid, NewFor(rs, ds, p));
    if ds[k].New? {
      RankOfNew(rs, ds, k);
      EntryAt(pid, NewFor(rs, ds, p), |NewFor(rs[..k], ds[..k], p)|);
    } else {
      KnownByWindow(WindowsOf(w, pid), topic, map[], rs, k);
      DuplicateWritten(w, pid, slot, rs[k].sequence, ds[k].offset);
    }
  }

  function Offsets(results: seq<Produced>): (os: seq<nat>)
    ensures |os| == |results| && forall k :: 0 <= k < |os| ==> os[k] == results[k].offset
  {
    seq(|results|, k requires 0 <= k < |results| => results[k].offset)
  }

  lemma AnswersWritten(w: World, w': World, pid: string, topic: string, rs: seq<Item>, ds: seq<Decision>,
                       results: seq<Produced>)
    requires ProducerOk(w, pid) && Decide(WindowsOf(w, pid), topic, map[], rs) == Some(ds)
    requires Wrote(w, w', pid, topic, rs, ds) && |results| == |rs|
    requires forall k :: 0 <= k < |rs| ==> results[k] == AnswerAt(w.logs, topic, rs, ds, k)
    ensures AllWritten(w', pid, topic, rs, Offsets(results))
  {
    hide ProducerOk, Wrote, Decide, WrittenAt, AnswerAt;
    forall k | 0 <= k < |rs|
      ensures WrittenAt(w', pid, (topic, rs[k].partition), rs[k].sequence, Offsets(results)[k])
    {
      AnswerIsWritten(w, w', pid, topic, rs, ds, k);
    }
  }

  lemma DuplicateWritten(w: World, pid: string, slot: Slot, s: int, o: nat)
    requires ProducerOk(w, pid) && Check(WindowAt(WindowsOf(w, pid), slot), s) == Duplicate(o)
    ensures WrittenAt(w, pid, slot, s, o)
  {
    hide Find, LastWindow, Mine;
    assert SlotOk(w, pid, slot);
    var mine := Mine(LogAt(w.logs, slot), pid);
    CheckIs(mine, WindowAt(WindowsOf(w, pid), slot), s);
    var n := |mine|;
    assert n > 0;
    MineOffsets(LogAt(w.logs, slot), pid, n - 1 - (mine[n - 1].0 - s));
  }

  lemma {:induction false} NothingNew(rs: seq<Item>, os: seq<nat>, p: nat)
    requires |rs| == |os|
    ensures |AllKnown(os)| == |rs| && NewFor(rs, AllKnown(os), p) == []
  {
    if rs != [] { NothingNew(rs[1..], os[1..], p); }
  }

  // ---------- the request as the broker runs it ----------

  lemma NewForPush(rs: seq<Item>, ds: seq<Decision>, k: nat, p: nat)
    requires |rs| == |ds| && k < |rs|
    ensures NewFor(rs[..k + 1], ds[..k + 1], p) ==
              NewFor(rs[..k], ds[..k], p) + if ds[k].New? && rs[k].partition == p then [rs[k].sequence] else []
  {
    NewForConcat(rs[..k], ds[..k], [rs[k]], [ds[k]], p);
    assert rs[..k + 1] == rs[..k] + [rs[k]] && ds[..k + 1] == ds[..k] + [ds[k]];
    assert [rs[k]][1..] == [] && [ds[k]][1..] == [];
  }

  lemma {:induction false} NewForConcat(a: seq<Item>, da: seq<Decision>, b: seq<Item>, db: seq<Decision>, p: nat)
    requires |a| == |da| && |b| == |db|
    ensures NewFor(a + b, da + db, p) == NewFor(a, da, p) + NewFor(b, db, p)
  {
    if a == [] {
      assert a + b == b && da + db == db;
    } else {
      assert (a + b)[1..] == a[1..] + b && (da + db)[1..] == da[1..] + db;
      NewForConcat(a[1..], da[1..], b, db, p);
    }
  }

  /** How many new records for the same partition come before record `i`. */
  function Rank(rs: seq<Item>, ds: seq<Decision>, i: nat): nat
    requires |rs| == |ds| && i < |rs|
  {
    |NewFor(rs[..i], ds[..i], rs[i].partition)|
  }

  /** The new records of one partition: where they are in the request, and their sequences. */
  datatype Batch = Batch(at: seq<nat>, seqs: seq<int>)

  function BatchFor(groups: map<nat, Batch>, p: nat): Batch {
    if p in groups then groups[p] else Batch([], [])
  }

  /** The first `k` records are grouped by partition. */
  ghost predicate Grouped(rs: seq<Item>, ds: seq<Decision>, k: nat, p: nat, b: Batch)
    requires |rs| == |ds| && k <= |rs|
  {
    && b.seqs == NewFor(rs[..k], ds[..k], p) && |b.at| == |b.seqs|
    && (forall j ::
          0 <= j < |b.at| ==>
            b.at[j] < k && rs[b.at[j]].partition == p && ds[b.at[j]].New? && Rank(rs, ds, b.at[j]) == j)
    && (forall i: nat ::
          i < k && rs[i].partition == p && ds[i].New? ==> Rank(rs, ds, i) < |b.at| && b.at[Rank(rs, ds, i)] == i)
  }

  lemma GroupedPush(rs: seq<Item>, ds: seq<Decision>, k: nat, p: nat, b: Batch)
    requires |rs| == |ds| && k < |rs| && Grouped(rs, ds, k, p, b)
    ensures Grouped(rs, ds, k + 1, p,
                    if ds[k].New? && rs[k].partition == p then Batch(b.at + [k], b.seqs + [rs[k].sequence]) else b)
  {
    hide Decide;
    NewForPush(rs, ds, k, p);
    if !(ds[k].New? && rs[k].partition == p) { assert NewFor(rs[..k], ds[..k], p) + [] == NewFor(rs[..k], ds[..k], p); }
  }

  method NumberAll(sent: seq<Sent>) returns (r: Option<seq<Item>>)
    ensures r == Numbered(sent)
  {
    var items: seq<Item> := [];
    var i := |sent|;
    assert sent[i..] == [];
    while 0 < i
      invariant 0 <= i <= |sent| && Numbered(sent[i..]) == Some(items)
    {
      assert sent[i - 1..][1..] == sent[i..];
      if sent[i - 1].sequence.None? || sent[i - 1].sequence.value < 0 {
        NotNumbered(sent, i - 1);
        return None;
      }
      items := [Item(sent[i - 1].partition, sent[i - 1].sequence.value)] + items;
      i := i - 1;
    }
    assert sent[0..] == sent;
    r := Some(items);
  }

  lemma {:induction false} NotNumbered(sent: seq<Sent>, i: nat)
    requires i < |sent| && (sent[i].sequence.None? || sent[i].sequence.value < 0)
    ensures Numbered(sent) == None
  {
    if i > 0 { NotNumbered(sent[1..], i - 1); }
  }

  /** Decides every record before any is written. */
  method DecideAll(windows: map<Slot, Window>, topic: string, rs: seq<Item>) returns (d: Option<seq<Decision>>)
    ensures d == Decide(windows, topic, map[], rs)
  {
    var tentative: map<nat, int>, ds: seq<Decision> := map[], [];
    var i := 0;
    assert rs[0..] == rs;
    BeforeBefore([], [], Decide(windows, topic, map[], rs));
    while i < |rs|
      invariant 0 <= i <= |rs| && |ds| == i
      invariant Decide(windows, topic, map[], rs) == Before(ds, Decide(windows, topic, tentative, rs[i..]))
    {
      assert rs[i..][1..] == rs[i + 1..];
      var o := DecideOne(windows, topic, tentative, rs[i]);
      match o {
        case Accept =>
          tentative := tentative[rs[i].partition := rs[i].sequence];
          BeforeBefore(ds, [New], Decide(windows, topic, tentative, rs[i + 1..]));
          ds := ds + [New];
        case Duplicate(prev) =>
          BeforeBefore(ds, [Known(prev)], Decide(windows, topic, tentative, rs[i + 1..]));
          ds := ds + [Known(prev)];
        case TooLow(_) => return None;
        case Gap(_, _) => return None;
      }
      i := i + 1;
    }
    assert rs[i..] == [] && ds + [] == ds;
    d := Some(ds);
  }

  method GroupNew(rs: seq<Item>, ds: seq<Decision>) returns (groups: map<nat, Batch>)
    requires |rs| == |ds|
    ensures forall p: nat :: Grouped(rs, ds, |rs|, p, BatchFor(groups, p))
  {
    hide Grouped;
    groups := map[];
    var i := 0;
    forall p: nat ensures Grouped(rs, ds, 0, p, Batch([], [])) { GroupedNone(rs, ds, p); }
    while i < |rs|
      invariant 0 <= i <= |rs| && forall p: nat :: Grouped(rs, ds, i, p, BatchFor(groups, p))
    {
      ghost var before := groups;
      if ds[i].New? {
        var b := BatchFor(groups, rs[i].partition);
        groups := groups[rs[i].partition := Batch(b.at + [i], b.seqs + [rs[i].sequence])];
      }
      forall p: nat
        ensures Grouped(rs, ds, i + 1, p, BatchFor(groups, p))
      {
        GroupedPush(rs, ds, i, p, BatchFor(before, p));
      }
      i := i + 1;
    }
  }

  lemma GroupedNone(rs: seq<Item>, ds: seq<Decision>, p: nat)
    requires |rs| == |ds|
    ensures Grouped(rs, ds, 0, p, Batch([], []))
  {
    assert rs[..0] == [] && ds[..0] == [];
  }

  class Broker {
    var logs: map<Slot, seq<Entry>>
    var windows: map<string, map<Slot, Window>>

    ghost function Value(): World
      reads this
    {
      World(logs, windows)
    }

    constructor ()
      ensures Value() == World(map[], map[])
    {
      logs, windows := map[], map[];
    }

    /** Notes a batch's sequences in a window, the first at offset `base`. */
    method NoteEach(start: Option<Window>, seqs: seq<int>, base: nat) returns (w: Option<Window>)
      ensures w == NoteAll(start, seqs, base) && (seqs != [] ==> w.Some?)
    {
      hide Note;
      w := start;
      var j := 0;
      while j < |seqs|
        invariant 0 <= j <= |seqs| && w == NoteAll(start, seqs[..j], base) && (j > 0 ==> w.Some?)
      {
        assert seqs[..j + 1][..j] == seqs[..j];
        w := Some(Note(w, seqs[j], base + j));
        j := j + 1;
      }
      assert seqs[..j] == seqs;
    }

    /** Writes one partition's batch and notes its sequences; gives the offset of its first record. */
    method WriteBatch(pid: string, slot: Slot, b: Batch) returns (base: nat)
      modifies this
      ensures base == |LogAt(old(logs), slot)| && WroteBatch(old(Value()), Value(), pid, slot, b.seqs)
    {
      base := |LogAt(logs, slot)|;
      logs := logs[slot := LogAt(logs, slot) + Entries(pid, b.seqs)];
      var mine := if pid in windows then windows[pid] else map[];
      var w := WindowAt(mine, slot);
      w := NoteEach(w, b.seqs, base);
      if b.seqs != [] { windows := windows[pid := mine[slot := w.value]]; }
    }

    /** A produce request with a producer id: the answers for its records, or `None` when it is rejected. */
    method Produce(pid: string, topic: string, sent: seq<Sent>) returns (r: Option<seq<Produced>>)
      modifies this
      ensures Request(old(Value()), Value(), pid, topic, sent)
      ensures match Numbered(sent)
              case None => r.None?
              case Some(rs) =>
                var d := Decide(WindowsOf(old(Value()), pid), topic, map[], rs);
                if d.None? then r.None?
                else r.Some? && |r.value| == |rs| &&
                     forall i :: 0 <= i < |rs| ==> r.value[i] == AnswerAt(old(logs), topic, rs, d.value, i)
      ensures r.Some? && ProducerOk(old(Value()), pid) ==>
                Numbered(sent).Some? && AllWritten(Value(), pid, topic, Numbered(sent).value, Offsets(r.value))
    {
      var numbered := NumberAll(sent);
      if numbered.None? { return None; }
      var rs := numbered.value;
      hide Writing, Answered, Grouped, WroteBatch, Wrote, DecideOne, AllWritten, Offsets, ProducerOk;
      var d := DecideAll(if pid in windows then windows[pid] else map[], topic, rs);
      if d.None? { return None; }
      var ds := d.value;
      var groups := GroupNew(rs, ds);
      var results := FirstAnswers(rs, ds);
      var todo := groups.Keys;
      ghost var w := Value();
      WritingStart(w, pid, topic, rs, ds, groups);
      AnsweredStart(w.logs, topic, rs, ds, groups, results);
      while todo != {}
        invariant todo <= groups.Keys && Writing(w, Value(), pid, topic, rs, ds, todo)
        invariant |results| == |rs| && Answered(w.logs, topic, rs, ds, todo, results)
        decreases |todo|
      {
        var p :| p in todo;
        assert Grouped(rs, ds, |rs|, p, BatchFor(groups, p));
        ghost var before := Value();
        StillThere(w, before, pid, topic, rs, ds, todo, p);
        GroupedAt(rs, ds, p, groups[p]);
        var base := WriteBatch(pid, (topic, p), groups[p]);
        WritingStep(w, before, Value(), pid, topic, rs, ds, todo, p, groups[p]);
        var filled := Fill(results, groups[p].at, p, base, |rs|);
        AnsweredStep(w.logs, topic, rs, ds, todo, p, groups[p], results, filled, base);
        results := filled;
        todo := todo - {p};
      }
      WritingEnd(w, Value(), pid, topic, rs, ds);
      AnsweredEnd(w.logs, topic, rs, ds, results);
      if ProducerOk(w, pid) { AnswersWritten(w, Value(), pid, topic, rs, ds, results); }
      r := Some(results);
    }
  }

  // ---------- partition by partition ----------

  /** Of the partitions of the topic, those in `todo` are still as they were; the others are written and noted. */
  ghost predicate Writing(w: World, w': World, pid: string, topic: string, rs: seq<Item>, ds: seq<Decision>,
                          todo: set<nat>)
    requires |rs| == |ds|
  {
    && (forall p: nat :: PartDone(w, w', pid, topic, p, if p in todo then [] else NewFor(rs, ds, p)))
    && (forall slot: Slot :: slot.0 != topic ==> SlotSame(w, w', pid, slot))
    && (forall other: string :: other != pid ==> WindowsOf(w', other) == WindowsOf(w, other))
  }

  ghost predicate PartDone(w: World, w': World, pid: string, topic: string, p: nat, seqs: seq<int>) {
    && LogAt(w'.logs, (topic, p)) == LogAt(w.logs, (topic, p)) + Entries(pid, seqs)
    && WindowAt(WindowsOf(w', pid), (topic, p)) ==
         NoteAll(WindowAt(WindowsOf(w, pid), (topic, p)), seqs, |LogAt(w.logs, (topic, p))|)
  }

  ghost predicate SlotSame(w: World, w': World, pid: string, slot: Slot) {
    LogAt(w'.logs, slot) == LogAt(w.logs, slot) &&
    WindowAt(WindowsOf(w', pid), slot) == WindowAt(WindowsOf(w, pid), slot)
  }

  lemma NothingDone(w: World, pid: string, topic: string, p: nat)
    ensures PartDone(w, w, pid, topic, p, [])
  {
    assert LogAt(w.logs, (topic, p)) + Entries(pid, []) == LogAt(w.logs, (topic, p));
  }

  lemma WritingStart(w: World, pid: string, topic: string, rs: seq<Item>, ds: seq<Decision>, groups: map<nat, Batch>)
    requires |rs| == |ds| && forall p: nat :: Grouped(rs, ds, |rs|, p, BatchFor(groups, p))
    ensures Writing(w, w, pid, topic, rs, ds, groups.Keys)
  {
    forall p: nat ensures PartDone(w, w, pid, topic, p, if p in groups.Keys then [] else NewFor(rs, ds, p)) {
      NothingDone(w, pid, topic, p);
      assert Grouped(rs, ds, |rs|, p, BatchFor(groups, p));
      assert rs[..|rs|] == rs && ds[..|ds|] == ds;
    }
  }

  /** The effect of writing one batch, as maps. */
  ghost predicate WroteBatch(w1: World, w2: World, pid: string, slot: Slot, seqs: seq<int>) {
    var win, base := WindowAt(WindowsOf(w1, pid), slot), |LogAt(w1.logs, slot)|;
    && w2.logs == w1.logs[slot := LogAt(w1.logs, slot) + Entries(pid, seqs)]
    && if seqs == [] then w2.windows == w1.windows
       else NoteAll(win, seqs, base).Some? &&
            w2.windows == w1.windows[pid := WindowsOf(w1, pid)[slot := NoteAll(win, seqs, base).value]]
  }

  /** And slot by slot. */
  lemma BatchEffects(w1: World, w2: World, pid: string, slot: Slot, seqs: seq<int>)
    requires WroteBatch(w1, w2, pid, slot, seqs)
    ensures LogAt(w2.logs, slot) == LogAt(w1.logs, slot) + Entries(pid, seqs)
    ensures WindowAt(WindowsOf(w2, pid), slot) ==
              NoteAll(WindowAt(WindowsOf(w1, pid), slot), seqs, |LogAt(w1.logs, slot)|)
    ensures forall s: Slot :: s != slot ==> SlotSame(w1, w2, pid, s)
    ensures forall other: string :: other != pid ==> WindowsOf(w2, other) == WindowsOf(w1, other)
  {
    hide Entries, Note;
  }

  lemma WritingStep(w: World, w1: World, w2: World, pid: string, topic: string, rs: seq<Item>, ds: seq<Decision>,
                    todo: set<nat>, p: nat, b: Batch)
    requires |rs| == |ds| && Writing(w, w1, pid, topic, rs, ds, todo) && p in todo && Grouped(rs, ds, |rs|, p, b)
    requires WroteBatch(w1, w2, pid, (topic, p), b.seqs)
    ensures Writing(w, w2, pid, topic, rs, ds, todo - {p})
  {
    hide Entries, NewFor, Grouped, NoteAll, WroteBatch, LogAt, WindowAt, WindowsOf;
    GroupedSeqs(rs, ds, p, b);
    BatchEffects(w1, w2, pid, (topic, p), b.seqs);
    forall q: nat ensures PartDone(w, w2, pid, topic, q, if q in todo - {p} then [] else NewFor(rs, ds, q)) {
      assert PartDone(w, w1, pid, topic, q, if q in todo then [] else NewFor(rs, ds, q));
      if q == p {
        NoEntries(pid, LogAt(w.logs, (topic, p)));
        NoNotes(WindowAt(WindowsOf(w, pid), (topic, p)), |LogAt(w.logs, (topic, p))|);
      } else {
        assert SlotSame(w1, w2, pid, (topic, q));
      }
    }
    forall slot: Slot | slot.0 != topic ensures SlotSame(w, w2, pid, slot) {
      assert SlotSame(w, w1, pid, slot);
      assert SlotSame(w1, w2, pid, slot);
    }
  }

  lemma NoNotes(w: Option<Window>, at: nat)
    ensures NoteAll(w, [], at) == w
  {
  }

  lemma GroupedAt(rs: seq<Item>, ds: seq<Decision>, p: nat, b: Batch)
    requires |rs| == |ds| && Grouped(rs, ds, |rs|, p, b)
    ensures (forall j :: 0 <= j < |b.at| ==> b.at[j] < |rs|) &&
            (forall i, j :: 0 <= i < j < |b.at| ==> b.at[i] != b.at[j])
  {
    forall i, j | 0 <= i < j < |b.at| ensures b.at[i] != b.at[j] {
      assert Rank(rs, ds, b.at[i]) == i && Rank(rs, ds, b.at[j]) == j;
    }
  }

  lemma StillThere(w: World, w': World, pid: string, topic: string, rs: seq<Item>, ds: seq<Decision>, todo: set<nat>,
                   p: nat)
    requires |rs| == |ds| && Writing(w, w', pid, topic, rs, ds, todo) && p in todo
    ensures LogAt(w'.logs, (topic, p)) == LogAt(w.logs, (topic, p))
  {
    assert PartDone(w, w', pid, topic, p, []);
    NoEntries(pid, LogAt(w.logs, (topic, p)));
  }

  lemma GroupedSeqs(rs: seq<Item>, ds: seq<Decision>, p: nat, b: Batch)
    requires |rs| == |ds| && Grouped(rs, ds, |rs|, p, b)
    ensures b.seqs == NewFor(rs, ds, p)
  {
    assert rs[..|rs|] == rs && ds[..|ds|] == ds;
  }

  lemma NoEntries(pid: string, log: seq<Entry>)
    ensures log + Entries(pid, []) == log
  {
  }

  lemma WritingEnd(w: World, w': World, pid: string, topic: string, rs: seq<Item>, ds: seq<Decision>)
    requires |rs| == |ds| && Writing(w, w', pid, topic, rs, ds, {})
    ensures Wrote(w, w', pid, topic, rs, ds)
  {
    hide Entries, NewFor, NoteAll;
    forall p: nat
      ensures LogAt(w'.logs, (topic, p)) == LogAt(w.logs, (topic, p)) + Entries(pid, NewFor(rs, ds, p))
      ensures WindowAt(WindowsOf(w', pid), (topic, p)) ==
                NoteAll(WindowAt(WindowsOf(w, pid), (topic, p)), NewFor(rs, ds, p), |LogAt(w.logs, (topic, p))|)
    {
      assert PartDone(w, w', pid, topic, p, NewFor(rs, ds, p));
    }
    forall slot: Slot | slot.0 != topic
      ensures LogAt(w'.logs, slot) == LogAt(w.logs, slot) &&
              WindowAt(WindowsOf(w', pid), slot) == WindowAt(WindowsOf(w, pid), slot)
    {
      assert SlotSame(w, w', pid, slot);
    }
  }

  /** The answers given so far: all but those for new records of the partitions in `todo`. */
  ghost predicate Answered(logs: map<Slot, seq<Entry>>, topic: string, rs: seq<Item>, ds: seq<Decision>, todo: set<nat>,
                           results: seq<Produced>)
    requires |rs| == |ds| == |results|
  {
    forall i ::
      0 <= i < |rs| && (ds[i].Known? || rs[i].partition !in todo) ==> results[i] == AnswerAt(logs, topic, rs, ds, i)
  }

  method FirstAnswers(rs: seq<Item>, ds: seq<Decision>) returns (results: seq<Produced>)
    requires |rs| == |ds|
    ensures |results| == |rs| &&
            forall i :: 0 <= i < |rs| && ds[i].Known? ==> results[i] == Produced(rs[i].partition, ds[i].offset, true)
  {
    results := [];
    while |results| < |rs|
      invariant |results| <= |rs|
      invariant forall i ::
                  0 <= i < |results| && ds[i].Known? ==> results[i] == Produced(rs[i].partition, ds[i].offset, true)
    {
      var i := |results|;
      results := results + [Produced(rs[i].partition, if ds[i].Known? then ds[i].offset else 0, ds[i].Known?)];
    }
  }

  method Fill(results: seq<Produced>, at: seq<nat>, p: nat, base: nat, ghost n: nat) returns (filled: seq<Produced>)
    requires |results| == n && (forall j :: 0 <= j < |at| ==> at[j] < n) &&
             (forall i, j :: 0 <= i < j < |at| ==> at[i] != at[j])
    ensures |filled| == n && (forall j :: 0 <= j < |at| ==> filled[at[j]] == Produced(p, base + j, false))
    ensures forall i :: 0 <= i < n && i !in at ==> filled[i] == results[i]
  {
    filled := results;
    var j := 0;
    while j < |at|
      invariant 0 <= j <= |at| && |filled| == n
      invariant forall k :: 0 <= k < j ==> filled[at[k]] == Produced(p, base + k, false)
      invariant forall i :: 0 <= i < n && i !in at[..j] ==> filled[i] == results[i]
    {
      assert at[..j + 1] == at[..j] + [at[j]];
      filled := filled[at[j] := Produced(p, base + j, false)];
      j := j + 1;
    }
    assert at[..j] == at;
  }

  lemma AnsweredStart(logs: map<Slot, seq<Entry>>, topic: string, rs: seq<Item>, ds: seq<Decision>, groups: map<nat,
                      Batch>, results: seq<Produced>)
    requires |rs| == |ds| == |results| && forall p: nat :: Grouped(rs, ds, |rs|, p, BatchFor(groups, p))
    requires forall i :: 0 <= i < |rs| && ds[i].Known? ==> results[i] == Produced(rs[i].partition, ds[i].offset, true)
    ensures Answered(logs, topic, rs, ds, groups.Keys, results)
  {
    forall i | 0 <= i < |rs| && ds[i].New? ensures rs[i].partition in groups.Keys {
      assert Grouped(rs, ds, |rs|, rs[i].partition, BatchFor(groups, rs[i].partition));
    }
  }

  lemma AnsweredStep(logs: map<Slot, seq<Entry>>, topic: string, rs: seq<Item>, ds: seq<Decision>, todo: set<nat>,
                     p: nat, b: Batch,
                     results: seq<Produced>, filled: seq<Produced>, base: nat)
    requires |rs| == |ds| == |results| == |filled| && p in todo && Grouped(rs, ds, |rs|, p, b) &&
             Answered(logs, topic, rs, ds, todo, results)
    requires base == |LogAt(logs, (topic, p))|
    requires forall j :: 0 <= j < |b.at| ==> filled[b.at[j]] == Produced(p, base + j, false)
    requires forall i :: 0 <= i < |rs| && i !in b.at ==> filled[i] == results[i]
    ensures Answered(logs, topic, rs, ds, todo - {p}, filled)
  {
    hide NewFor;
    forall i | 0 <= i < |rs| && (ds[i].Known? || rs[i].partition !in todo - {p})
      ensures filled[i] == AnswerAt(logs, topic, rs, ds, i)
    {
      if ds[i].New? && rs[i].partition == p {
        assert b.at[Rank(rs, ds, i)] == i;
      } else {
        assert i !in b.at;
      }
    }
  }

  lemma AnsweredEnd(logs: map<Slot, seq<Entry>>, topic: string, rs: seq<Item>, ds: seq<Decision>,
                    results: seq<Produced>)
    requires |rs| == |ds| == |results| && Answered(logs, topic, rs, ds, {}, results)
    ensures forall i :: 0 <= i < |rs| ==> results[i] == AnswerAt(logs, topic, rs, ds, i)
  {
  }
}
