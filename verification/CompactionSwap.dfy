/**
 The swap of compacted files into a partition directory, step by step, and the recovery that finishes
 or undoes it. Directory operations are durable once the directory is synced: a crash before that leaves
 any of them done and any not. It may come anywhere in the swap and in recovery itself, any number of times.
 */
module CompactionSwap {
  import opened Basics

  datatype Name = LogFile(base: nat) | IndexFile(base: nat) | TmpLog(base: nat) | TmpIndex(base: nat)

  /** Written durably before the first rename: what the compaction is about to do. */
  datatype Marker = Marker(base: nat, victims: seq<nat>)

  datatype Dir = Dir(files: map<Name, seq<byte>>, marker: Option<Marker>)

  datatype DirOp =
    | Write(name: Name, bytes: seq<byte>)
    | Rename(src: Name, dst: Name)
    | Remove(name: Name)
    | SetMarker(m: Marker)
    | ClearMarker

  predicate IsTmp(n: Name) {
    n.TmpLog? || n.TmpIndex?
  }

  /** What a partition opens: the files that are not temporary. */
  function Segments(d: Dir): map<Name, seq<byte>> {
    map n | n in d.files && !IsTmp(n) :: d.files[n]
  }

  function Apply(d: Dir, op: DirOp): Dir {
    match op
    case Write(n, b) => d.(files := d.files[n := b])
    case Rename(src, dst) => if src in d.files then d.(files := (d.files - {src})[dst := d.files[src]]) else d
    case Remove(n) => d.(files := d.files - {n})
    case SetMarker(m) => d.(marker := Some(m))
    case ClearMarker => d.(marker := None)
  }

  function ApplyAll(d: Dir, ops: seq<DirOp>): Dir
    decreases |ops|
  {
    if ops == [] then d else ApplyAll(Apply(d, ops[0]), ops[1..])
  }

  /** The operations a crash leaves done, by their place in the program. */
  function Pick(ops: seq<DirOp>, some: set<nat>): seq<DirOp> {
    if ops == [] then []
    else Pick(ops[..|ops| - 1], some) + if |ops| - 1 in some then [ops[|ops| - 1]] else []
  }

  function Removals(victims: seq<nat>): seq<DirOp> {
    if victims == [] then [] else [Remove(LogFile(victims[0])), Remove(IndexFile(victims[0]))] + Removals(victims[1..])
  }

  // ---------- the swap and the recovery ----------

  datatype Plan = Plan(base: nat, victims: seq<nat>, log: seq<byte>, index: seq<byte>)

  function Prepare(p: Plan): seq<DirOp> {
    [Write(TmpLog(p.base), p.log), Write(TmpIndex(p.base), p.index)]
  }

  function Replace(p: Plan): seq<DirOp> {
    [Rename(TmpLog(p.base), LogFile(p.base)), Rename(TmpIndex(p.base), IndexFile(p.base))] + Removals(p.victims)
  }

  /**
   What a crash during the swap leaves: temporary files, missing or holding anything; behind the durable
   marker, any of the renames and removals; or everything.
   */
  datatype Stop = Preparing(tmp: map<Name, seq<byte>>) | Replacing(some: set<nat>) | Finished

  ghost predicate StopOk(p: Plan, s: Stop) {
    s.Preparing? ==> s.tmp.Keys <= {TmpLog(p.base), TmpIndex(p.base)}
  }

  /** The directory once the marker is durable, before the first rename. */
  function Marked(d: Dir, p: Plan): Dir {
    Apply(ApplyAll(d, Prepare(p)), SetMarker(Marker(p.base, p.victims)))
  }

  function Stopped(d: Dir, p: Plan, s: Stop): Dir {
    match s
    case Preparing(tmp) => d.(files := d.files + tmp)
    case Replacing(some) => ApplyAll(Marked(d, p), Pick(Replace(p), some))
    case Finished => Apply(ApplyAll(Marked(d, p), Replace(p)), ClearMarker)
  }

  /** What completes the compaction a marker announces; without a marker there is nothing to do. */
  function FinishOps(d: Dir): seq<DirOp> {
    match d.marker
    case None => []
    case Some(m) =>
      (if TmpLog(m.base) in d.files then [Rename(TmpLog(m.base), LogFile(m.base))] else [])
      + (if TmpIndex(m.base) in d.files then [Rename(TmpIndex(m.base), IndexFile(m.base))] else [])
      + Removals(m.victims)
  }

  function SweepOps(names: seq<Name>): seq<DirOp> {
    if names == [] then [] else [Remove(names[0])] + SweepOps(names[1..])
  }

  /** The temporary files the sweep finds, in the order the directory lists them. */
  ghost predicate Listed(d: Dir, names: seq<Name>) {
    (forall i :: 0 <= i < |names| ==> IsTmp(names[i])) && (forall n :: n in d.files && IsTmp(n) ==> n in names)
  }

  function Finish(d: Dir): Dir {
    if d.marker.None? then d else Apply(ApplyAll(d, FinishOps(d)), ClearMarker)
  }

  /** A recovery that runs to its end. */
  function Recover(d: Dir, names: seq<Name>): Dir {
    ApplyAll(Finish(d), SweepOps(names))
  }

  /** A recovery stopped with some of its renames and removals done, or later with some files swept away. */
  datatype Crash = Finishing(some: set<nat>) | Sweeping(names: seq<Name>)

  function Interrupted(d: Dir, c: Crash): Dir {
    match c
    case Finishing(some) => ApplyAll(d, Pick(FinishOps(d), some))
    case Sweeping(names) => ApplyAll(Finish(d), SweepOps(names))
  }

  function InterruptedAll(d: Dir, cs: seq<Crash>): Dir
    decreases |cs|
  {
    if cs == [] then d else InterruptedAll(Interrupted(d, cs[0]), cs[1..])
  }

  // ---------- the two outcomes ----------

  predicate VictimName(p: Plan, n: Name) {
    (n.LogFile? || n.IndexFile?) && n.base in p.victims
  }

  /** The files after the compaction. */
  function Compacted(d: Dir, p: Plan): map<Name, seq<byte>> {
    (map n | n in d.files && !IsTmp(n) && !VictimName(p, n) :: d.files[n])
    [LogFile(p.base) := p.log][IndexFile(p.base) := p.index]
  }

  // ---------- phases ----------

  /** Before the marker: the segments are untouched. */
  ghost predicate Before(d0: Dir, d: Dir) {
    d.marker == None && Segments(d) == Segments(d0)
  }

  /** With the marker: each new file is in place or waiting, victims may be gone, all else is untouched. */
  ghost predicate During(d0: Dir, p: Plan, d: Dir) {
    && d.marker == Some(Marker(p.base, p.victims))
    && Waiting(d, TmpLog(p.base), LogFile(p.base), p.log)
    && Waiting(d, TmpIndex(p.base), IndexFile(p.base), p.index)
    && (forall n :: Other(p, n) ==> (n in d.files <==> n in d0.files) && (n in d.files ==> d.files[n] == d0.files[n]))
  }

  predicate Waiting(d: Dir, tmp: Name, dst: Name, bytes: seq<byte>) {
    if tmp in d.files then d.files[tmp] == bytes else dst in d.files && d.files[dst] == bytes
  }

  predicate Other(p: Plan, n: Name) {
    !IsTmp(n) && !VictimName(p, n) && n != LogFile(p.base) && n != IndexFile(p.base)
  }

  ghost predicate After(d0: Dir, p: Plan, d: Dir) {
    d.marker == None && Segments(d) == Compacted(d0, p)
  }

  // ---------- operations within a phase ----------

  /** The operations a marked directory is finished with. */
  predicate Harmless(p: Plan, op: DirOp) {
    || op == Rename(TmpLog(p.base), LogFile(p.base))
    || op == Rename(TmpIndex(p.base), IndexFile(p.base))
    || (op.Remove? && VictimName(p, op.name))
  }

  predicate AllHarmless(p: Plan, ops: seq<DirOp>) {
    forall i :: 0 <= i < |ops| ==> Harmless(p, ops[i])
  }

  lemma HarmlessStays(d0: Dir, p: Plan, d: Dir, op: DirOp)
    requires During(d0, p, d) && Harmless(p, op) && p.base !in p.victims
    ensures During(d0, p, Apply(d, op))
  {
  }

  lemma {:induction false} HarmlessRun(d0: Dir, p: Plan, d: Dir, ops: seq<DirOp>)
    requires During(d0, p, d) && AllHarmless(p, ops) && p.base !in p.victims
    ensures During(d0, p, ApplyAll(d, ops))
    decreases |ops|
  {
    hide During, Harmless;
    if ops != [] {
      assert Harmless(p, ops[0]);
      HarmlessStays(d0, p, d, ops[0]);
      HarmlessRun(d0, p, Apply(d, ops[0]), ops[1..]);
    }
  }

  lemma {:induction false} RemovalsHarmless(p: Plan, victims: seq<nat>)
    requires forall i :: 0 <= i < |victims| ==> victims[i] in p.victims
    ensures AllHarmless(p, Removals(victims))
  {
    if victims != [] {
      assert victims[0] in p.victims;
      RemovalsHarmless(p, victims[1..]);
    }
  }

  lemma {:induction false} PickHarmless(p: Plan, ops: seq<DirOp>, some: set<nat>)
    requires AllHarmless(p, ops)
    ensures AllHarmless(p, Pick(ops, some))
  {
    hide Harmless;
    if ops != [] { PickHarmless(p, ops[..|ops| - 1], some); }
  }

  lemma ReplaceHarmless(p: Plan)
    ensures AllHarmless(p, Replace(p))
  {
    RemovalsHarmless(p, p.victims);
  }

  /** Removing temporary files touches no segment. */
  lemma RemoveTmp(d: Dir, n: Name)
    requires IsTmp(n)
    ensures Segments(Apply(d, Remove(n))) == Segments(d) && Apply(d, Remove(n)).marker == d.marker
  {
  }

  lemma {:induction false} SweepKeeps(d: Dir, ops: seq<DirOp>)
    requires forall i :: 0 <= i < |ops| ==> ops[i].Remove? && IsTmp(ops[i].name)
    ensures Segments(ApplyAll(d, ops)) == Segments(d) && ApplyAll(d, ops).marker == d.marker
    decreases |ops|
  {
    if ops != [] {
      assert ops[0].Remove? && IsTmp(ops[0].name);
      RemoveTmp(d, ops[0].name);
      SweepKeeps(Apply(d, ops[0]), ops[1..]);
    }
  }

  lemma {:induction false} SweepIs(names: seq<Name>)
    requires forall i :: 0 <= i < |names| ==> IsTmp(names[i])
    ensures forall i :: 0 <= i < |SweepOps(names)| ==> SweepOps(names)[i].Remove? && IsTmp(SweepOps(names)[i].name)
  {
    if names != [] { SweepIs(names[1..]); }
  }

  lemma {:induction false} ApplyConcat(d: Dir, a: seq<DirOp>, b: seq<DirOp>)
    ensures ApplyAll(d, a + b) == ApplyAll(ApplyAll(d, a), b)
    decreases |a|
  {
    if a == [] {
      assert a + b == b;
    } else {
      assert (a + b)[1..] == a[1..] + b;
      ApplyConcat(Apply(d, a[0]), a[1..], b);
    }
  }

  // ---------- completing a marked directory ----------

  /** Everything the marker announces is done. */
  ghost predicate Complete(p: Plan, d: Dir) {
    && TmpLog(p.base) !in d.files && TmpIndex(p.base) !in d.files
    && (forall n :: n in d.files ==> !VictimName(p, n))
  }

  lemma ClearEnds(d0: Dir, p: Plan, d: Dir)
    requires During(d0, p, d) && Complete(p, d) && p.base !in p.victims
    ensures After(d0, p, Apply(d, ClearMarker))
  {
    var d' := Apply(d, ClearMarker);
    assert Segments(d') == Compacted(d0, p) by {
      forall n ensures n in Segments(d') <==> n in Compacted(d0, p) {
        if n != LogFile(p.base) && n != IndexFile(p.base) && !IsTmp(n) && !VictimName(p, n) { assert Other(p, n); }
      }
      forall n | n in Segments(d') ensures Segments(d')[n] == Compacted(d0, p)[n] {
        if n != LogFile(p.base) && n != IndexFile(p.base) { assert Other(p, n); }
      }
    }
  }

  lemma {:induction false} RemovedAll(d: Dir, victims: seq<nat>)
    ensures forall n ::
              n in ApplyAll(d, Removals(victims)).files ==>
                n in d.files && ((n.LogFile? || n.IndexFile?) ==> n.base !in victims)
    decreases |victims|
  {
    if victims != [] {
      var rest := Removals(victims[1..]);
      var d1 := Apply(d, Remove(LogFile(victims[0])));
      var d2 := Apply(d1, Remove(IndexFile(victims[0])));
      var ops := Removals(victims);
      assert ops[0] == Remove(LogFile(victims[0])) && ops[1..] == [Remove(IndexFile(victims[0]))] + rest;
      assert ops[1..][0] == Remove(IndexFile(victims[0])) && ops[1..][1..] == rest;
      RemovedAll(d2, victims[1..]);
    }
  }

  /** After the renames and removals nothing announced is left to do. */
  lemma RenamesComplete(p: Plan, d: Dir, first: seq<DirOp>, second: seq<DirOp>)
    requires first == [Rename(TmpLog(p.base), LogFile(p.base))] || (first == [] && TmpLog(p.base) !in d.files)
    requires second == [Rename(TmpIndex(p.base), IndexFile(p.base))] || (second == [] && TmpIndex(p.base) !in d.files)
    ensures Complete(p, ApplyAll(d, first + second + Removals(p.victims)))
  {
    ApplyConcat(d, first + second, Removals(p.victims));
    ApplyConcat(d, first, second);
    var d1 := ApplyAll(d, first);
    assert TmpLog(p.base) !in d1.files && (TmpIndex(p.base) in d1.files ==> TmpIndex(p.base) in d.files) by {
      if first != [] { assert first[1..] == []; }
    }
    var d2 := ApplyAll(d1, second);
    assert TmpLog(p.base) !in d2.files && TmpIndex(p.base) !in d2.files by {
      if second != [] { assert second[1..] == []; }
    }
    RemovedAll(d2, p.victims);
  }

  lemma FinishDoes(p: Plan, d: Dir)
    requires d.marker == Some(Marker(p.base, p.victims))
    ensures AllHarmless(p, FinishOps(d)) && Complete(p, ApplyAll(d, FinishOps(d)))
  {
    var first := if TmpLog(p.base) in d.files then [Rename(TmpLog(p.base), LogFile(p.base))] else [];
    var second := if TmpIndex(p.base) in d.files then [Rename(TmpIndex(p.base), IndexFile(p.base))] else [];
    assert FinishOps(d) == first + second + Removals(p.victims);
    RenamesComplete(p, d, first, second);
    RemovalsHarmless(p, p.victims);
  }

  /** A marked directory, finished, holds exactly the compacted files. */
  lemma FinishEnds(d0: Dir, p: Plan, d: Dir)
    requires During(d0, p, d) && p.base !in p.victims
    ensures After(d0, p, Finish(d))
  {
    hide Complete, After, FinishOps, Harmless;
    FinishDoes(p, d);
    HarmlessRun(d0, p, d, FinishOps(d));
    ClearEnds(d0, p, ApplyAll(d, FinishOps(d)));
  }

  // ---------- crashes ----------

  ghost predicate CrashOk(c: Crash) {
    c.Sweeping? ==> forall i :: 0 <= i < |c.names| ==> IsTmp(c.names[i])
  }

  lemma SweepSome(d: Dir, names: seq<Name>)
    requires forall i :: 0 <= i < |names| ==> IsTmp(names[i])
    ensures Segments(ApplyAll(d, SweepOps(names))) == Segments(d) && ApplyAll(d, SweepOps(names)).marker == d.marker
  {
    SweepIs(names);
    SweepKeeps(d, SweepOps(names));
  }

  /** A recovery stopped anywhere leaves an unmarked directory's segments alone. */
  lemma UnmarkedStays(d: Dir, c: Crash)
    requires d.marker == None && CrashOk(c)
    ensures Interrupted(d, c).marker == None && Segments(Interrupted(d, c)) == Segments(d)
  {
    if c.Sweeping? { SweepSome(d, c.names); }
  }

  /** Stopped in a marked directory, it leaves it marked or has finished the compaction. */
  lemma MarkedStays(d0: Dir, p: Plan, d: Dir, c: Crash)
    requires During(d0, p, d) && CrashOk(c) && p.base !in p.victims
    ensures During(d0, p, Interrupted(d, c)) || After(d0, p, Interrupted(d, c))
  {
    hide During, Harmless, FinishOps, Complete, Finish;
    MarkedBy(d0, p, d);
    match c
    case Finishing(some) =>
      FinishDoes(p, d);
      PickHarmless(p, FinishOps(d), some);
      HarmlessRun(d0, p, d, Pick(FinishOps(d), some));
    case Sweeping(names) =>
      FinishEnds(d0, p, d);
      SweepSome(Finish(d), names);
  }

  lemma MarkedBy(d0: Dir, p: Plan, d: Dir)
    requires During(d0, p, d)
    ensures d.marker == Some(Marker(p.base, p.victims))
  {
  }

  lemma {:induction false} CrashesStay(d0: Dir, p: Plan, d: Dir, cs: seq<Crash>)
    requires p.base !in p.victims && forall i :: 0 <= i < |cs| ==> CrashOk(cs[i])
    ensures Before(d0, d) ==> Before(d0, InterruptedAll(d, cs))
    ensures During(d0, p, d) || After(d0, p, d) ==>
              During(d0, p, InterruptedAll(d, cs)) || After(d0, p, InterruptedAll(d, cs))
    decreases |cs|
  {
    hide During, Interrupted;
    if cs != [] {
      assert CrashOk(cs[0]);
      if d.marker == None { UnmarkedStays(d, cs[0]); }
      if During(d0, p, d) { MarkedStays(d0, p, d, cs[0]); }
      CrashesStay(d0, p, Interrupted(d, cs[0]), cs[1..]);
    }
  }

  // ---------- the swap itself ----------

  lemma PrepareKeeps(d0: Dir, p: Plan, tmp: map<Name, seq<byte>>)
    requires d0.marker == None && StopOk(p, Preparing(tmp))
    ensures Before(d0, Stopped(d0, p, Preparing(tmp)))
  {
  }

  lemma PrepareIs(d0: Dir, p: Plan)
    ensures ApplyAll(d0, Prepare(p)) == d0.(files := d0.files[TmpLog(p.base) := p.log][TmpIndex(p.base) := p.index])
  {
    var first, second := Write(TmpLog(p.base), p.log), Write(TmpIndex(p.base), p.index);
    assert Prepare(p) == [first] + [second] && [first][1..] == [] && [second][1..] == [];
    ApplyConcat(d0, [first], [second]);
    assert ApplyAll(d0, [first]) == Apply(d0, first);
    assert ApplyAll(Apply(d0, first), [second]) == Apply(Apply(d0, first), second);
  }

  lemma MarkedStarts(d0: Dir, p: Plan)
    ensures During(d0, p, Marked(d0, p))
  {
    PrepareIs(d0, p);
  }

  lemma SwapPhases(d0: Dir, p: Plan, s: Stop)
    requires d0.marker == None && p.base !in p.victims && StopOk(p, s)
    ensures s.Preparing? ==> Before(d0, Stopped(d0, p, s))
    ensures s.Replacing? ==> During(d0, p, Stopped(d0, p, s))
    ensures s.Finished? ==> After(d0, p, Stopped(d0, p, s))
  {
    hide During, Complete, Harmless;
    var marked := Marked(d0, p);
    MarkedStarts(d0, p);
    ReplaceHarmless(p);
    match s
    case Preparing(tmp) => PrepareKeeps(d0, p, tmp);
    case Replacing(some) =>
      PickHarmless(p, Replace(p), some);
      HarmlessRun(d0, p, marked, Pick(Replace(p), some));
    case Finished =>
      HarmlessRun(d0, p, marked, Replace(p));
      var first, second := [Rename(TmpLog(p.base), LogFile(p.base))], [Rename(TmpIndex(p.base), IndexFile(p.base))];
      assert Replace(p) == first + second + Removals(p.victims);
      RenamesComplete(p, marked, first, second);
      ClearEnds(d0, p, ApplyAll(marked, Replace(p)));
  }

  /**
   Wherever the swap stops and however often recovery is stopped too, the next recovery that runs to
   its end finds exactly the segments before the compaction, if the marker was not yet durable, and
   exactly those after it otherwise. Nothing temporary is left.
   */
  lemma CrashAtomic(d0: Dir, p: Plan, s: Stop, cs: seq<Crash>, names: seq<Name>)
    requires d0.marker == None && p.base !in p.victims && StopOk(p, s)
    requires forall i :: 0 <= i < |cs| ==> CrashOk(cs[i])
    requires Listed(Finish(InterruptedAll(Stopped(d0, p, s), cs)), names)
    ensures var r := Recover(InterruptedAll(Stopped(d0, p, s), cs), names);
            && r.marker == None && (forall n :: n in r.files ==> !IsTmp(n))
            && Segments(r) == if s.Preparing? then Segments(d0) else Compacted(d0, p)
  {
    hide During, Stopped, Interrupted, Finish;
    SwapPhases(d0, p, s);
    var d := InterruptedAll(Stopped(d0, p, s), cs);
    CrashesStay(d0, p, Stopped(d0, p, s), cs);
    if d.marker == None { FinishNothing(d); }
    if During(d0, p, d) { FinishEnds(d0, p, d); }
    SweepAll(Finish(d), names);
  }

  lemma FinishNothing(d: Dir)
    requires d.marker == None
    ensures Finish(d) == d
  {
  }

  lemma {:induction false} SweptAway(d: Dir, names: seq<Name>)
    ensures forall n :: n in ApplyAll(d, SweepOps(names)).files ==> n in d.files && n !in names
    decreases |names|
  {
    if names != [] {
      assert SweepOps(names)[1..] == SweepOps(names[1..]);
      SweptAway(Apply(d, Remove(names[0])), names[1..]);
    }
  }

  lemma SweepAll(d: Dir, names: seq<Name>)
    requires Listed(d, names)
    ensures var r := ApplyAll(d, SweepOps(names));
            Segments(r) == Segments(d) && r.marker == d.marker && forall n :: n in r.files ==> !IsTmp(n)
  {
    SweepIs(names);
    SweepKeeps(d, SweepOps(names));
    SweptAway(d, names);
  }
}
