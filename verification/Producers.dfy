/**
 Idempotent produce: a producer numbers its records, and a retried record is answered with the offset
 it was first written at instead of being written again.
 */
module Producers {
  import opened Basics

  const WINDOW: nat := 128

  /** The sequences remembered for one producer on one partition: the newest, and the last few with their offsets. */
  datatype Window = Window(lastSeen: int, lastOffset: nat, recent: seq<(int, nat)>)

  datatype Outcome = Accept | Duplicate(offset: nat) | TooLow(lastSeen: int) | Gap(expected: int, got: int)

  /** The offset remembered for a sequence, oldest first. */
  function Find(recent: seq<(int, nat)>, sequence: int): Option<nat> {
    if recent == [] then None else if recent[0].0 == sequence then Some(recent[0].1) else Find(recent[1..], sequence)
  }

  function Check(w: Option<Window>, sequence: int): Outcome {
    match w
    case None => Accept
    case Some(x) =>
      if sequence == x.lastSeen + 1 then Accept
      else if x.lastSeen < sequence then Gap(x.lastSeen + 1, sequence)
      else match Find(x.recent, sequence)
        case Some(o) => Duplicate(o)
        case None => if sequence == x.lastSeen then Duplicate(x.lastOffset) else TooLow(x.lastSeen)
  }

  function LastWindow(recent: seq<(int, nat)>): seq<(int, nat)> {
    if |recent| <= WINDOW then recent else recent[|recent| - WINDOW..]
  }

  function Note(w: Option<Window>, sequence: int, offset: nat): Window {
    var x := if w.Some? then w.value else Window(0, 0, []);
    var newer := x.recent == [] || x.lastSeen < sequence;
    Window(if newer then sequence else x.lastSeen, if newer then offset else x.lastOffset,
           LastWindow(x.recent + [(sequence, offset)]))
  }

  // ---------- what the window stands for ----------

  /** A record in a partition; its offset is its position. */
  datatype Entry = Entry(producer: Option<string>, sequence: int)

  /** The records of one producer, as sequence and offset, in order. */
  function Mine(log: seq<Entry>, pid: string): seq<(int, nat)> {
    if log == [] then []
    else Mine(log[..|log| - 1], pid)
         + if log[|log| - 1].producer == Some(pid) then [(log[|log| - 1].sequence, |log| - 1)] else []
  }

  predicate Consecutive(mine: seq<(int, nat)>) {
    forall k :: 0 <= k < |mine| - 1 ==> mine[k + 1].0 == mine[k].0 + 1
  }

  /** The window remembers exactly the end of what the producer wrote, which is without gaps or repeats. */
  ghost predicate Remembers(mine: seq<(int, nat)>, w: Option<Window>) {
    match w
    case None => mine == []
    case Some(x) =>
      && mine != [] && Consecutive(mine)
      && x.lastSeen == mine[|mine| - 1].0 && x.lastOffset == mine[|mine| - 1].1 && x.recent == LastWindow(mine)
  }

  lemma {:induction false} ConsecutiveAt(mine: seq<(int, nat)>, k: nat)
    requires Consecutive(mine) && k < |mine|
    ensures mine[k].0 == mine[0].0 + k
  {
    if k > 0 {
      ConsecutiveAt(mine, k - 1);
      assert mine[k - 1 + 1].0 == mine[k - 1].0 + 1;
    }
  }

  lemma {:induction false} FindIs(recent: seq<(int, nat)>, sequence: int)
    requires Consecutive(recent)
    ensures Find(recent, sequence) ==
            if recent != [] && recent[0].0 <= sequence < recent[0].0 + |recent| then
              Some(recent[sequence - recent[0].0].1)
            else None
  {
    if recent != [] {
      assert Consecutive(recent[1..]) by {
        forall k | 0 <= k < |recent[1..]| - 1
          ensures recent[1..][k + 1].0 == recent[1..][k].0 + 1
        {
          assert recent[k + 1 + 1].0 == recent[k + 1].0 + 1;
        }
      }
      if |recent| > 1 { assert recent[0 + 1].0 == recent[0].0 + 1; }
      FindIs(recent[1..], sequence);
    }
  }

  lemma WindowConsecutive(mine: seq<(int, nat)>)
    requires Consecutive(mine)
    ensures Consecutive(LastWindow(mine))
  {
    var from := |mine| - |LastWindow(mine)|;
    forall k | 0 <= k < |LastWindow(mine)| - 1 ensures LastWindow(mine)[k + 1].0 == LastWindow(mine)[k].0 + 1 {
      assert mine[from + k + 1].0 == mine[from + k].0 + 1;
    }
  }

  /**
   The check, against what the producer really wrote: the next sequence (or any first one) is accepted,
   any of the last 128 is answered with the offset it has, later ones are gaps, earlier ones too low.
   */
  lemma CheckIs(mine: seq<(int, nat)>, w: Option<Window>, sequence: int)
    requires Remembers(mine, w)
    ensures var n := |mine|;
            if n == 0 then Check(w, sequence) == Accept
            else
              var last := mine[n - 1].0;
              if sequence == last + 1 then Check(w, sequence) == Accept
              else if last < sequence then Check(w, sequence) == Gap(last + 1, sequence)
              else if last - Min(n, WINDOW) < sequence then
                Check(w, sequence) == Duplicate(mine[n - 1 - (last - sequence)].1) &&
                mine[n - 1 - (last - sequence)].0 == sequence
              else Check(w, sequence) == TooLow(last)
  {
    if mine != [] {
      var n, recent := |mine|, LastWindow(mine);
      WindowConsecutive(mine);
      FindIs(recent, sequence);
      ConsecutiveAt(mine, n - 1);
      ConsecutiveAt(recent, |recent| - 1);
      assert recent[|recent| - 1] == mine[n - 1];
      var last := mine[n - 1].0;
      if last - Min(n, WINDOW) < sequence <= last {
        var k := n - 1 - (last - sequence);
        ConsecutiveAt(mine, k);
        assert recent[sequence - recent[0].0] == mine[k];
      }
    }
  }

  /** Noting the record just written keeps the window true, if it was accepted. */
  lemma NoteRemembers(mine: seq<(int, nat)>, w: Option<Window>, sequence: int, offset: nat)
    requires Remembers(mine, w) && Check(w, sequence) == Accept
    ensures Remembers(mine + [(sequence, offset)], Some(Note(w, sequence, offset)))
  {
    CheckIs(mine, w, sequence);
    var next := mine + [(sequence, offset)];
    assert Consecutive(next) by {
      forall k | 0 <= k < |next| - 1 ensures next[k + 1].0 == next[k].0 + 1 {
        if k < |mine| - 1 { assert mine[k + 1].0 == mine[k].0 + 1; }
      }
    }
    assert LastWindow(LastWindow(mine) + [(sequence, offset)]) == LastWindow(next);
  }

  lemma MinePush(log: seq<Entry>, e: Entry, pid: string)
    ensures Mine(log + [e], pid) == Mine(log, pid) + if e.producer == Some(pid) then [(e.sequence, |log|)] else []
  {
    assert (log + [e])[..|log|] == log;
  }

  // ---------- the state of one producer ----------

  type Slot = (string, nat)

  class ProducerState {
    var windows: map<Slot, Window>

    constructor ()
      ensures windows == map[]
    {
      windows := map[];
    }

    function WindowOf(slot: Slot): Option<Window>
      reads this
    {
      if slot in windows then Some(windows[slot]) else None
    }

    method CheckSequence(slot: Slot, sequence: int) returns (o: Outcome)
      ensures o == Check(WindowOf(slot), sequence)
    {
      if slot !in windows { return Accept; }
      var w := windows[slot];
      if sequence == w.lastSeen + 1 { return Accept; }
      if w.lastSeen < sequence { return Gap(w.lastSeen + 1, sequence); }
      var i := 0;
      assert w.recent[0..] == w.recent;
      while i < |w.recent|
        invariant 0 <= i <= |w.recent| && Find(w.recent, sequence) == Find(w.recent[i..], sequence)
      {
        assert w.recent[i..][1..] == w.recent[i + 1..];
        if w.recent[i].0 == sequence { return Duplicate(w.recent[i].1); }
        i := i + 1;
      }
      if sequence == w.lastSeen { return Duplicate(w.lastOffset); }
      o := TooLow(w.lastSeen);
    }

    method Record(slot: Slot, sequence: int, offset: nat)
      modifies this
      ensures windows == old(windows)[slot := Note(old(WindowOf(slot)), sequence, offset)]
    {
      var w := if slot in windows then windows[slot] else Window(0, 0, []);
      if w.recent == [] || w.lastSeen < sequence { w := w.(lastSeen := sequence, lastOffset := offset); }
      var recent := w.recent + [(sequence, offset)];
      ghost var all := recent;
      while |recent| > WINDOW
        invariant |recent| >= Min(|all|, WINDOW) && |recent| <= |all| && recent == all[|all| - |recent|..]
      {
        recent := recent[1..];
      }
      windows := windows[slot := w.(recent := recent)];
    }
  }
}
