/**
 The in-memory Raft log with a compacted prefix: its queries and updates as functions on values, and
 the mutable log the node owns, each of whose methods is proved to compute the matching function.
 */
module RaftLog {
  import opened Basics
  import opened RaftTypes

  datatype Log = Log(entries: seq<LogEntry>, baseIndex: LogIndex, baseTerm: Term)

  // ---------- queries ----------

  function LastIndex(l: Log): LogIndex {
    if l.entries == [] then l.baseIndex else l.entries[|l.entries| - 1].index
  }

  function LastTerm(l: Log): Term {
    if l.entries == [] then l.baseTerm else l.entries[|l.entries| - 1].term
  }

  function Get(l: Log, index: LogIndex): Option<LogEntry> {
    if l.entries == [] || index < l.entries[0].index then None
    else if index - l.entries[0].index < |l.entries| then Some(l.entries[index - l.entries[0].index])
    else None
  }

  /** `Some(0)` at index 0; `None` inside the compacted prefix or past the end. */
  function TermAt(l: Log, index: LogIndex): Option<Term> {
    if index == 0 then Some(0)
    else if index == l.baseIndex then Some(l.baseTerm)
    else if index < l.baseIndex then None
    else match Get(l, index) case Some(e) => Some(e.term) case None => None
  }

  /** The entries from `start` to the end of the log. */
  function EntriesFrom(l: Log, start: LogIndex): seq<LogEntry> {
    if start == 0 || l.entries == [] || LastIndex(l) < start then []
    else
      var skip := start - Min(start, l.entries[0].index);
      if skip <= |l.entries| then l.entries[skip..] else []
  }

  /** How many of `es[i..]` fit in a message that already holds `i` entries and `bytes` of payload. */
  function FitCount(es: seq<LogEntry>, i: nat, bytes: nat, maxEntries: nat, maxBytes: nat): (n: nat)
    requires i <= |es|
    ensures i <= n <= |es|
    ensures i == 0 && es != [] ==> 0 < n
    decreases |es| - i
  {
    if i == |es| then i
    else if 0 < i && (maxEntries <= i || maxBytes < bytes + |es[i].payload|) then i
    else FitCount(es, i + 1, bytes + |es[i].payload|, maxEntries, maxBytes)
  }

  function SliceBounded(l: Log, start: LogIndex, maxEntries: nat, maxBytes: nat): seq<LogEntry> {
    var rest := EntriesFrom(l, start);
    rest[..FitCount(rest, 0, 0, maxEntries, maxBytes)]
  }

  // ---------- updates ----------

  function CutFrom(l: Log, cut: LogIndex): Log {
    if cut <= l.baseIndex || l.entries == [] || cut <= l.entries[0].index then l.(entries := [])
    else l.(entries := l.entries[..Min(cut - l.entries[0].index, |l.entries|)])
  }

  function CompactTo(l: Log, cut: LogIndex, cutTerm: Term): Log {
    if cut <= l.baseIndex then l
    else
      var drop := if l.entries == [] then 0 else Min(cut + 1 - Min(cut + 1, l.entries[0].index), |l.entries|);
      Log(l.entries[drop..], cut, cutTerm)
  }

  predicate KeepsSuffix(l: Log, lastIndex: LogIndex, lastTerm: Term) {
    TermAt(l, lastIndex) == Some(lastTerm) && l.baseIndex <= lastIndex
  }

  function Install(l: Log, lastIndex: LogIndex, lastTerm: Term): Log {
    if KeepsSuffix(l, lastIndex, lastTerm) then CompactTo(l, lastIndex, lastTerm)
    else Log([], lastIndex, lastTerm)
  }

  datatype Scan = Scan(skip: nat, conflict: bool)

  /** Skip the entries the log already holds; stop at a conflict or past the end. */
  function ScanFrom(l: Log, start: LogIndex, es: seq<LogEntry>, skip: nat): (r: Scan)
    requires skip <= |es|
    ensures skip <= r.skip <= |es| && (r.conflict ==> r.skip < |es|)
    decreases |es| - skip
  {
    if skip == |es| then Scan(skip, false)
    else if start + skip <= l.baseIndex then ScanFrom(l, start, es, skip + 1)
    else match TermAt(l, start + skip)
      case None => Scan(skip, false)
      case Some(t) => if t == es[skip].term then ScanFrom(l, start, es, skip + 1) else Scan(skip, true)
  }

  function Renumber(es: seq<LogEntry>, first: LogIndex): (r: seq<LogEntry>)
    ensures |r| == |es|
  {
    seq(|es|, i requires 0 <= i < |es| => es[i].(index := first + i))
  }

  datatype AppendOutcome = Refused | Appended(log: Log, firstChanged: Option<LogIndex>)

  function AppendAt(l: Log, start: LogIndex, es: seq<LogEntry>, committed: LogIndex): AppendOutcome {
    var scan := ScanFrom(l, start, es, 0);
    if scan.conflict && start + scan.skip <= committed then Refused
    else if scan.skip == |es| then Appended(l, None)
    else
      var kept := if scan.conflict then CutFrom(l, start + scan.skip) else l;
      var first := LastIndex(kept) + 1;
      Appended(kept.(entries := kept.entries + Renumber(es[scan.skip..], first)), Some(first))
  }

  // ---------- the log a node owns ----------

  class MutableLog {
    var entries: seq<LogEntry>
    var baseIndex: LogIndex
    var baseTerm: Term

    constructor (l: Log)
      ensures Value() == l
    {
      entries, baseIndex, baseTerm := l.entries, l.baseIndex, l.baseTerm;
    }

    function Value(): Log
      reads this
    {
      Log(entries, baseIndex, baseTerm)
    }

    method Bounded(start: LogIndex, maxEntries: nat, maxBytes: nat) returns (out: seq<LogEntry>)
      ensures out == SliceBounded(Value(), start, maxEntries, maxBytes)
    {
      out := [];
      if start == 0 || entries == [] || LastIndex(Value()) < start {
        return;
      }
      var rest := EntriesFrom(Value(), start);
      var bytes: nat, i := 0, 0;
      while i < |rest|
        invariant 0 <= i <= |rest| && out == rest[..i]
        invariant FitCount(rest, 0, 0, maxEntries, maxBytes) == FitCount(rest, i, bytes, maxEntries, maxBytes)
      {
        if out != [] && (maxEntries <= |out| || maxBytes < bytes + |rest[i].payload|) {
          break;
        }
        bytes := bytes + |rest[i].payload|;
        out := out + [rest[i]];
        i := i + 1;
      }
    }

    method TruncateFrom(cut: LogIndex)
      modifies this
      ensures Value() == CutFrom(old(Value()), cut)
    {
      if cut <= baseIndex || entries == [] || cut <= entries[0].index {
        entries := [];
        return;
      }
      var keep := cut - entries[0].index;
      if keep < |entries| {
        entries := entries[..keep];
      }
    }

    method CompactThrough(cut: LogIndex, cutTerm: Term)
      modifies this
      ensures Value() == CompactTo(old(Value()), cut, cutTerm)
    {
      if cut <= baseIndex {
        return;
      }
      var drop := 0;
      if entries != [] {
        drop := if entries[0].index < cut + 1 then cut + 1 - entries[0].index else 0;
        drop := Min(drop, |entries|);
      }
      entries := entries[drop..];
      baseIndex, baseTerm := cut, cutTerm;
    }

    method InstallSnapshot(lastIndex: LogIndex, lastTerm: Term) returns (kept: bool)
      modifies this
      ensures Value() == Install(old(Value()), lastIndex, lastTerm)
      ensures kept == KeepsSuffix(old(Value()), lastIndex, lastTerm)
    {
      kept := TermAt(Value(), lastIndex) == Some(lastTerm) && baseIndex <= lastIndex;
      if kept {
        CompactThrough(lastIndex, lastTerm);
      } else {
        entries := [];
        baseIndex, baseTerm := lastIndex, lastTerm;
      }
    }

    /** Appends `es` at `start`; refuses, unchanged, to cut at or below `committed`. */
    method Append(start: LogIndex, es: seq<LogEntry>, committed: LogIndex)
      returns (ok: bool, firstChanged: Option<LogIndex>)
      modifies this
      ensures AppendAt(old(Value()), start, es, committed) ==
              if ok then Appended(Value(), firstChanged) else Refused
      ensures !ok ==> Value() == old(Value())
    {
      var skip, conflict := 0, false;
      while skip < |es|
        invariant skip <= |es| && !conflict && Value() == old(Value())
        invariant ScanFrom(Value(), start, es, 0) == ScanFrom(Value(), start, es, skip)
      {
        if start + skip <= baseIndex {
          skip := skip + 1;
          continue;
        }
        var t := TermAt(Value(), start + skip);
        if t == Some(es[skip].term) {
          skip := skip + 1;
        } else if t.Some? {
          if start + skip <= committed {
            return false, None;
          }
          conflict := true;
          break;
        } else {
          break;
        }
      }
      assert ScanFrom(Value(), start, es, 0) == Scan(skip, conflict);
      if conflict {
        TruncateFrom(start + skip);
      }
      if skip == |es| {
        return true, None;
      }
      var first := LastIndex(Value()) + 1;
      var added: seq<LogEntry>, i := [], skip;
      while i < |es|
        invariant skip <= i <= |es|
        invariant added == Renumber(es[skip..i], first)
      {
        added := added + [es[i].(index := first + (i - skip))];
        i := i + 1;
      }
      assert es[skip..i] == es[skip..];
      entries := entries + added;
      return true, Some(first);
    }
  }

  // ---------- the log a compacted log stands for ----------

  /** `full` is the whole history: `l` holds its suffix past `baseIndex`. */
  ghost predicate Represents(l: Log, full: seq<LogEntry>) {
    && l.baseIndex <= |full|
    && l.entries == full[l.baseIndex..]
    && l.baseTerm == (if l.baseIndex == 0 then 0 else full[l.baseIndex - 1].term)
    && Indexed(full)
  }

  ghost predicate Indexed(full: seq<LogEntry>) {
    forall k :: 0 <= k < |full| ==> full[k].index == k + 1
  }

  lemma RepresentsEnd(l: Log, full: seq<LogEntry>)
    requires Represents(l, full)
    ensures LastIndex(l) == |full|
    ensures LastTerm(l) == if full == [] then 0 else full[|full| - 1].term
  {
  }

  lemma RepresentsGet(l: Log, full: seq<LogEntry>, i: LogIndex)
    requires Represents(l, full)
    ensures Get(l, i) == if l.baseIndex < i <= |full| then Some(full[i - 1]) else None
    ensures TermAt(l, i) ==
            if i == 0 then Some(0) else if l.baseIndex <= i <= |full| then Some(full[i - 1].term) else None
  {
  }

  lemma RepresentsSlice(l: Log, full: seq<LogEntry>, start: LogIndex, maxEntries: nat, maxBytes: nat)
    requires Represents(l, full) && l.baseIndex < start <= |full| + 1
    ensures EntriesFrom(l, start) == full[start - 1..]
    ensures var out := SliceBounded(l, start, maxEntries, maxBytes);
            start - 1 + |out| <= |full| && out == full[start - 1..start - 1 + |out|] && (start <= |full| ==> out != [])
  {
    hide FitCount;
    if start <= |full| {
      assert full[l.baseIndex..][start - l.entries[0].index..] == full[start - 1..];
    }
  }

  lemma RepresentsCut(l: Log, full: seq<LogEntry>, cut: LogIndex)
    requires Represents(l, full) && l.baseIndex < cut <= |full|
    ensures Represents(CutFrom(l, cut), full[..cut - 1])
  {
    assert full[..cut - 1][l.baseIndex..] == full[l.baseIndex..][..cut - 1 - l.baseIndex];
  }

  lemma RepresentsCompact(l: Log, full: seq<LogEntry>, cut: LogIndex, cutTerm: Term)
    requires Represents(l, full) && l.baseIndex < cut <= |full| && cutTerm == full[cut - 1].term
    ensures Represents(CompactTo(l, cut, cutTerm), full)
  {
    assert full[l.baseIndex..][cut - l.baseIndex..] == full[cut..];
  }
}
