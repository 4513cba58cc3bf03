/**
 Group commit of a partition with `flush_every_records` = 1 and no failing fsync. Writers, rolls and
 the interval flusher interleave at every point where a lock is free or held by another; an fsync covers
 the writes that reached the file before it began. No append returns before all its writes are durable.
 */
module GroupCommit {
  import opened Basics

  type Thread = nat
  type File = nat

  /** The newest write, or a point from which somebody wants everything durable. */
  datatype Mark = Mark(number: nat, file: File)

  /** Where a thread is. Its own writes, if it is an append, are the numbers past `from` up to `mark.number`. */
  datatype Pc =
    | Idle
    | Appending(from: nat)
    | Waiting(from: nat, mark: Mark)
    | Fsyncing(from: nat, mark: Mark, target: Mark, covered: nat)
    | Returned(from: nat, mark: Mark)

  /**
   Writes are numbered from 1 in order; `fileOf[s - 1]` is the file write `s` went to. `durable` are the
   writes an fsync has covered.
   */
  datatype State = State(
    fileOf: seq<File>,
    durable: set<nat>,
    active: File,
    latest: Mark,
    synced: nat,
    appender: Option<Thread>,
    syncer: Option<Thread>,
    pc: map<Thread, Pc>)

  function PcOf(s: State, t: Thread): Pc {
    if t in s.pc then s.pc[t] else Idle
  }

  /** The file write `w` went to. */
  function Home(fileOf: seq<File>, w: nat): File
    requires 1 <= w <= |fileOf|
  {
    fileOf[w - 1]
  }

  function WritesTo(fileOf: seq<File>, f: File, upTo: nat): set<nat> {
    set w: nat | 1 <= w <= Min(upTo, |fileOf|) && Home(fileOf, w) == f
  }

  // ---------- steps ----------

  datatype Step =
    | Begin(t: Thread)
    | Commit(t: Thread)
    | Roll(t: Thread, file: File)
    | End(t: Thread)
    | Flush(t: Thread)
    | Skip(t: Thread)
    | Load(t: Thread)
    | Fsynced(t: Thread)
    | Leave(t: Thread)

  ghost predicate Enabled(s: State, step: Step) {
    match step
    case Begin(t) => s.appender == None && PcOf(s, t).Idle?
    case Commit(t) => s.appender == Some(t) && PcOf(s, t).Appending?
    case Roll(t, f) => s.appender == Some(t) && PcOf(s, t).Appending? && s.active < f
    case End(t) => s.appender == Some(t) && PcOf(s, t).Appending?
    case Flush(t) => PcOf(s, t).Idle? && 0 < s.latest.number
    case Skip(t) => s.syncer == None && PcOf(s, t).Waiting? && PcOf(s, t).mark.number <= s.synced
    case Load(t) => s.syncer == None && PcOf(s, t).Waiting? && s.synced < PcOf(s, t).mark.number
    case Fsynced(t) => s.syncer == Some(t) && PcOf(s, t).Fsyncing?
    case Leave(t) => PcOf(s, t).Returned?
  }

  /** The newest handles if they are this writer's, its own otherwise. */
  function Target(s: State, mark: Mark): Mark {
    if s.latest.file == mark.file then s.latest else mark
  }

  function Next(s: State, step: Step): State {
    match step
    // The writer takes the appender lock.
    case Begin(t) => s.(appender := Some(t), pc := s.pc[t := Appending(|s.fileOf|)])
    // Bytes reach the active file, then the write is numbered and published.
    case Commit(t) =>
      var w := |s.fileOf| + 1;
      s.(fileOf := s.fileOf + [s.active], latest := Mark(w, s.active))
    // The sealed file is fsynced before the next one is created.
    case Roll(t, f) => s.(durable := s.durable + WritesTo(s.fileOf, s.active, |s.fileOf|), active := f)
    // The lock is released; an append that wrote something waits for its newest write.
    case End(t) =>
      var from := if PcOf(s, t).Appending? then PcOf(s, t).from else 0;
      s.(appender := None, pc := s.pc[t := if from < |s.fileOf| then Waiting(from, s.latest) else Idle])
    // The flusher wants everything so far durable.
    case Flush(t) => s.(pc := s.pc[t := Waiting(s.latest.number, s.latest)])
    case Skip(t) =>
      var pc := PcOf(s, t);
      if pc.Waiting? then s.(pc := s.pc[t := Returned(pc.from, pc.mark)]) else s
    // Holding the sync lock, the waiter picks the handles to fsync; the fsync begins.
    case Load(t) =>
      var pc := PcOf(s, t);
      if pc.Waiting? then
        s.(syncer := Some(t), pc := s.pc[t := Fsyncing(pc.from, pc.mark, Target(s, pc.mark), |s.fileOf|)])
      else s
    // The fsync returns; what it covered is durable, and the waiter says so.
    case Fsynced(t) =>
      var pc := PcOf(s, t);
      if pc.Fsyncing? then
        s.(durable := s.durable + WritesTo(s.fileOf, pc.target.file, pc.covered),
           synced := Max(s.synced, pc.target.number), syncer := None, pc := s.pc[t := Returned(pc.from, pc.mark)])
      else s
    case Leave(t) => s.(pc := s.pc[t := Idle])
  }

  ghost predicate Init(s: State) {
    s.fileOf == [] && s.durable == {} && s.latest == Mark(0, s.active) && s.synced == 0 && s.appender == None &&
    s.syncer == None && s.pc == map[]
  }

  ghost predicate Run(states: seq<State>, steps: seq<Step>) {
    && |states| == |steps| + 1 && Init(states[0])
    && forall i :: 0 <= i < |steps| ==> Enabled(states[i], steps[i]) && states[i + 1] == Next(states[i], steps[i])
  }

  // ---------- the invariant ----------

  ghost predicate DurableUpTo(durable: set<nat>, n: nat) {
    forall w: nat :: 1 <= w <= n ==> w in durable
  }

  /** Files are used one after the other, and every write to an earlier file than the active one is durable. */
  ghost predicate FilesOk(fileOf: seq<File>, durable: set<nat>, active: File) {
    && (forall v: nat, w: nat :: 1 <= v < w <= |fileOf| ==> Home(fileOf, v) <= Home(fileOf, w))
    && (forall w: nat :: 1 <= w <= |fileOf| ==> Home(fileOf, w) <= active)
    && (forall w: nat :: 1 <= w <= |fileOf| && Home(fileOf, w) < active ==> w in durable)
  }

  /** A mark is a write and the file it went to. */
  ghost predicate MarkOk(fileOf: seq<File>, m: Mark) {
    m.number <= |fileOf| && (0 < m.number ==> Home(fileOf, m.number) == m.file)
  }

  ghost predicate PcOk(fileOf: seq<File>, synced: nat, pc: Pc) {
    match pc
    case Idle => true
    case Appending(from) => from <= |fileOf|
    case Waiting(from, mark) => MarkOk(fileOf, mark) && 0 < mark.number
    case Fsyncing(from, mark, target, covered) =>
      MarkOk(fileOf, mark) && MarkOk(fileOf, target) && 0 < mark.number <= target.number <= covered <= |fileOf|
    case Returned(from, mark) => mark.number <= synced
  }

  ghost predicate PcsOk(fileOf: seq<File>, synced: nat, pc: map<Thread, Pc>) {
    forall t :: t in pc ==> PcOk(fileOf, synced, pc[t])
  }

  ghost predicate Inv(s: State) {
    && FilesOk(s.fileOf, s.durable, s.active) && DurableUpTo(s.durable, s.synced)
    && s.latest.number == |s.fileOf| && MarkOk(s.fileOf, s.latest)
    && PcsOk(s.fileOf, s.synced, s.pc)
  }

  /** An fsync of the file of a write, begun once all writes up to it were in, makes them all durable. */
  lemma FsyncCovers(fileOf: seq<File>, durable: set<nat>, active: File, target: Mark, covered: nat)
    requires FilesOk(fileOf, durable, active) && MarkOk(fileOf, target) && 0 < target.number <= covered <= |fileOf|
    ensures DurableUpTo(durable + WritesTo(fileOf, target.file, covered), target.number)
  {
    forall w: nat | 1 <= w <= target.number ensures w in durable + WritesTo(fileOf, target.file, covered) {
      assert Home(fileOf, w) <= Home(fileOf, target.number) <= active;
      if Home(fileOf, w) == target.file { assert w in WritesTo(fileOf, target.file, covered); }
    }
  }

  lemma RollSeals(fileOf: seq<File>, durable: set<nat>, active: File, f: File)
    requires FilesOk(fileOf, durable, active) && active < f
    ensures FilesOk(fileOf, durable + WritesTo(fileOf, active, |fileOf|), f)
  {
    forall w: nat | 1 <= w <= |fileOf|
      ensures Home(fileOf, w) <= f && w in durable + WritesTo(fileOf, active, |fileOf|)
    {
      assert Home(fileOf, w) <= active;
      if Home(fileOf, w) == active { assert w in WritesTo(fileOf, active, |fileOf|); }
    }
  }

  lemma WriteExtends(fileOf: seq<File>, durable: set<nat>, active: File, synced: nat, pc: map<Thread, Pc>)
    requires FilesOk(fileOf, durable, active) && PcsOk(fileOf, synced, pc)
    ensures FilesOk(fileOf + [active], durable, active) && MarkOk(fileOf + [active], Mark(|fileOf| + 1, active))
    ensures PcsOk(fileOf + [active], synced, pc)
  {
    var f := fileOf + [active];
    assert forall w: nat :: 1 <= w <= |fileOf| ==> Home(f, w) == Home(fileOf, w);
    forall t | t in pc ensures PcOk(f, synced, pc[t]) { assert PcOk(fileOf, synced, pc[t]); }
  }

  lemma PcsStay(fileOf: seq<File>, synced: nat, synced': nat, pc: map<Thread, Pc>, t: Thread, x: Pc)
    requires PcsOk(fileOf, synced, pc) && synced <= synced' && PcOk(fileOf, synced', x)
    ensures PcsOk(fileOf, synced', pc[t := x])
  {
    var pc' := pc[t := x];
    forall u | u in pc' ensures PcOk(fileOf, synced', pc'[u]) { if u != t { assert PcOk(fileOf, synced, pc[u]); } }
  }

  lemma StepKeepsInv(s: State, step: Step)
    requires Inv(s) && Enabled(s, step)
    ensures Inv(Next(s, step))
  {
    hide FilesOk, PcsOk, WritesTo;
    var pc := PcOf(s, step.t);
    assert PcOk(s.fileOf, s.synced, pc) by { PcIs(s, step.t); }
    match step
    case Begin(t) => PcsStay(s.fileOf, s.synced, s.synced, s.pc, t, Appending(|s.fileOf|));
    case Commit(t) => WriteExtends(s.fileOf, s.durable, s.active, s.synced, s.pc);
    case Roll(t, f) => RollSeals(s.fileOf, s.durable, s.active, f);
    case End(t) =>
      PcsStay(s.fileOf, s.synced, s.synced, s.pc, t, if pc.from < |s.fileOf| then Waiting(pc.from, s.latest) else Idle);
    case Flush(t) => PcsStay(s.fileOf, s.synced, s.synced, s.pc, t, Waiting(s.latest.number, s.latest));
    case Skip(t) => PcsStay(s.fileOf, s.synced, s.synced, s.pc, t, Returned(pc.from, pc.mark));
    case Load(t) =>
      PcsStay(s.fileOf, s.synced, s.synced, s.pc, t, Fsyncing(pc.from, pc.mark, Target(s, pc.mark), |s.fileOf|));
    case Fsynced(t) =>
      FsyncCovers(s.fileOf, s.durable, s.active, pc.target, pc.covered);
      MoreDurable(s.fileOf, s.durable, s.durable + WritesTo(s.fileOf, pc.target.file, pc.covered), s.active);
      PcsStay(s.fileOf, s.synced, Max(s.synced, pc.target.number), s.pc, t, Returned(pc.from, pc.mark));
    case Leave(t) => PcsStay(s.fileOf, s.synced, s.synced, s.pc, t, Idle);
  }

  lemma PcIs(s: State, t: Thread)
    requires Inv(s)
    ensures PcOk(s.fileOf, s.synced, PcOf(s, t))
  {
  }

  lemma MoreDurable(fileOf: seq<File>, a: set<nat>, b: set<nat>, active: File)
    requires FilesOk(fileOf, a, active) && a <= b
    ensures FilesOk(fileOf, b, active)
  {
  }

  lemma {:induction false} RunInv(states: seq<State>, steps: seq<Step>, i: nat)
    requires Run(states, steps) && i < |states|
    ensures Inv(states[i])
  {
    if i > 0 {
      RunInv(states, steps, i - 1);
      assert Enabled(states[i - 1], steps[i - 1]) && states[i - 1 + 1] == Next(states[i - 1], steps[i - 1]);
      StepKeepsInv(states[i - 1], steps[i - 1]);
    }
  }

  // ---------- nobody waits for ever ----------

  /** A lock is held by exactly the thread that is where its holder would be. */
  ghost predicate LocksOk(s: State) {
    forall t: Thread ::
      (s.syncer == Some(t) <==> PcOf(s, t).Fsyncing?) && (s.appender == Some(t) <==> PcOf(s, t).Appending?)
  }

  lemma {:induction false} RunLocks(states: seq<State>, steps: seq<Step>, i: nat)
    requires Run(states, steps) && i < |states|
    ensures LocksOk(states[i])
  {
    if i > 0 {
      RunLocks(states, steps, i - 1);
      assert Enabled(states[i - 1], steps[i - 1]) && states[i - 1 + 1] == Next(states[i - 1], steps[i - 1]);
      StepKeepsLocks(states[i - 1], steps[i - 1]);
    }
  }

  lemma StepKeepsLocks(s: State, step: Step)
    requires LocksOk(s) && Enabled(s, step)
    ensures LocksOk(Next(s, step))
  {
    hide WritesTo, Target;
    var s' := Next(s, step);
    forall t: Thread
      ensures (s'.syncer == Some(t) <==> PcOf(s', t).Fsyncing?) && (s'.appender == Some(t) <==> PcOf(s', t).Appending?)
    {
      assert s.syncer == Some(t) <==> PcOf(s, t).Fsyncing?;
      assert s.syncer == Some(step.t) <==> PcOf(s, step.t).Fsyncing?;
    }
  }

  ghost predicate CanTake(s: State, steps: seq<Step>)
    decreases |steps|
  {
    steps == [] || (Enabled(s, steps[0]) && CanTake(Next(s, steps[0]), steps[1..]))
  }

  ghost function After(s: State, steps: seq<Step>): State
    decreases |steps|
  {
    if steps == [] then s else After(Next(s, steps[0]), steps[1..])
  }

  lemma OneStep(s: State, step: Step)
    requires Enabled(s, step)
    ensures CanTake(s, [step]) && After(s, [step]) == Next(s, step)
  {
    assert [step][1..] == [];
  }

  /** The steps a waiter needs once the sync lock is free. */
  lemma FreeToReturn(s: State, t: Thread) returns (more: seq<Step>)
    requires s.syncer == None && PcOf(s, t).Waiting?
    ensures |more| <= 2 && CanTake(s, more) && PcOf(After(s, more), t).Returned?
  {
    hide WritesTo, Target;
    if PcOf(s, t).mark.number <= s.synced {
      more := [Skip(t)];
      OneStep(s, Skip(t));
    } else {
      more := [Load(t), Fsynced(t)];
      OneStep(Next(s, Load(t)), Fsynced(t));
      assert more[1..] == [Fsynced(t)];
    }
  }

  /**
   At every moment of every run, whoever waits for its writes has at most three steps to its return: the
   fsync in progress, if there is one, and then its own; no other thread has to move.
   */
  lemma WaiterReturns(states: seq<State>, steps: seq<Step>, i: nat, t: Thread) returns (more: seq<Step>)
    requires Run(states, steps) && i < |states| && (PcOf(states[i], t).Waiting? || PcOf(states[i], t).Fsyncing?)
    ensures |more| <= 3 && CanTake(states[i], more) && PcOf(After(states[i], more), t).Returned?
  {
    hide Run, WritesTo, Target;
    var s := states[i];
    RunLocks(states, steps, i);
    if s.syncer == None {
      more := FreeToReturn(s, t);
    } else {
      var u := s.syncer.value;
      var s1 := Next(s, Fsynced(u));
      more := [];
      if u != t { more := FreeToReturn(s1, t); }
      assert ([Fsynced(u)] + more)[1..] == more;
      more := [Fsynced(u)] + more;
    }
  }

  /** One fsync serves every waiter whose writes were in by the time it began. */
  lemma FsyncIsShared(s: State, t: Thread, u: Thread)
    requires Inv(s) && Enabled(s, Load(t)) && PcOf(s, t).mark.file == s.latest.file && u != t && PcOf(s, u).Waiting?
    ensures var s' := Next(Next(s, Load(t)), Fsynced(t)); Enabled(s', Skip(u)) && PcOf(s', t).Returned?
  {
    hide WritesTo;
    PcIs(s, u);
  }

  // ---------- what callers are promised ----------

  /** Write `w` is one a thread has made or waits for. */
  predicate Owns(pc: Pc, w: nat, count: nat) {
    match pc
    case Idle => false
    case Appending(from) => from < w <= count
    case Waiting(from, mark) => from < w <= mark.number
    case Fsyncing(from, mark, _, _) => from < w <= mark.number
    case Returned(from, mark) => from < w <= mark.number
  }

  /** Until it has returned to its caller, an append keeps waiting for the writes it made. */
  lemma OwnsStays(s: State, step: Step, t: Thread, w: nat)
    requires Inv(s) && Enabled(s, step) && step != Leave(t) && Owns(PcOf(s, t), w, |s.fileOf|)
    ensures Owns(PcOf(Next(s, step), t), w, |Next(s, step).fileOf|)
  {
  }

  lemma OwnsFirst(s: State, t: Thread)
    requires Inv(s) && Enabled(s, Commit(t))
    ensures var s' := Next(s, Commit(t)); Owns(PcOf(s', t), |s.fileOf| + 1, |s'.fileOf|)
  {
    PcIs(s, t);
  }

  lemma {:induction false} OwnsOn(states: seq<State>, steps: seq<Step>, k: nat, j: nat, t: Thread)
    requires Run(states, steps) && k < j < |states| && steps[k] == Commit(t)
    requires forall i :: k < i < j ==> steps[i] != Leave(t)
    ensures Owns(PcOf(states[j], t), |states[k].fileOf| + 1, |states[j].fileOf|)
    decreases j
  {
    hide Inv, Next, Enabled, Owns;
    RunInv(states, steps, j - 1);
    assert Enabled(states[j - 1], steps[j - 1]) && states[j - 1 + 1] == Next(states[j - 1], steps[j - 1]);
    if j == k + 1 {
      OwnsFirst(states[k], t);
    } else {
      OwnsOn(states, steps, k, j - 1, t);
      OwnsStays(states[j - 1], steps[j - 1], t, |states[k].fileOf| + 1);
    }
  }

  /** In every interleaving, when an append returns, each write it made, in whatever segment, is on disk. */
  lemma ReturnedIsDurable(states: seq<State>, steps: seq<Step>, k: nat, j: nat, t: Thread)
    requires Run(states, steps) && k < j < |states| && steps[k] == Commit(t)
    requires (forall i :: k < i < j ==> steps[i] != Leave(t)) && PcOf(states[j], t).Returned?
    ensures |states[k].fileOf| + 1 in states[j].durable
  {
    OwnsOn(states, steps, k, j, t);
    RunInv(states, steps, j);
    PcIs(states[j], t);
  }

  /** Every write numbered up to `synced` is durable, and stays so. */
  lemma SyncedIsDurable(states: seq<State>, steps: seq<Step>, i: nat, j: nat, w: nat)
    requires Run(states, steps) && i <= j < |states| && 1 <= w <= states[i].synced
    ensures w in states[j].durable
  {
    RunInv(states, steps, i);
    DurableStays(states, steps, i, j, w);
  }

  lemma {:induction false} DurableStays(states: seq<State>, steps: seq<Step>, i: nat, j: nat, w: nat)
    requires Run(states, steps) && i <= j < |states| && w in states[i].durable
    ensures w in states[j].durable
    decreases j
  {
    if i < j {
      DurableStays(states, steps, i, j - 1, w);
      assert states[j - 1 + 1] == Next(states[j - 1], steps[j - 1]);
    }
  }
}
