/** The data entries of a Raft log, and what a replica holds that has applied the first entries of one. */
module ReplicaLog {
  import opened Basics
  import opened RaftTypes
  import R = Replica
  import K = ReplicaCodec

  /** The batch of records an entry carries, if it carries one. */
  function CmdOf(payload: seq<byte>): Option<R.Command> {
    match K.DecodeCommand(payload)
    case None => None
    case Some(d) => if d.Batch? then Some(d.command) else None
  }

  lemma NoData()
    ensures CmdOf([]) == None
  {
  }

  function Cmds(es: seq<LogEntry>): (cs: seq<Option<R.Command>>)
    ensures |cs| == |es| && forall i :: 0 <= i < |es| ==> cs[i] == CmdOf(es[i].payload)
  {
    seq(|es|, i requires 0 <= i < |es| => CmdOf(es[i].payload))
  }

  function Data(es: seq<LogEntry>): seq<R.Command> {
    R.DataOf(Cmds(es))
  }

  /** What a replica holds once it has applied these entries from the start. */
  function State(l: seq<LogEntry>): R.Replica {
    R.ApplyAll(R.Empty, Data(l))
  }

  // ---------- offsets that rise ----------

  ghost predicate EndsBy(e: LogEntry, offset: nat) {
    var c := CmdOf(e.payload); c.Some? ==> R.EndOfCmd(c.value) <= offset
  }

  /** Entry `k`, if it carries records, gives them offsets past all entries before it. */
  ghost predicate RiseAt(l: seq<LogEntry>, k: nat)
    requires k < |l|
  {
    var c := CmdOf(l[k].payload);
    c.Some? ==> c.value.records != [] && forall j :: 0 <= j < k ==> EndsBy(l[j], c.value.base)
  }

  ghost predicate Rises(l: seq<LogEntry>) {
    forall k :: 0 <= k < |l| ==> RiseAt(l, k)
  }

  lemma RisesPrefix(l: seq<LogEntry>, m: seq<LogEntry>)
    requires Rises(m) && l <= m
    ensures Rises(l)
  {
    hide CmdOf, EndsBy;
    forall k | 0 <= k < |l| ensures RiseAt(l, k) {
      assert RiseAt(m, k);
      assert forall j :: 0 <= j <= k ==> l[j] == m[j];
    }
  }

  // ---------- the data of a log ----------

  lemma DataPush(l: seq<LogEntry>, e: LogEntry)
    ensures var c := CmdOf(e.payload); Data(l + [e]) == if c.Some? then Data(l) + [c.value] else Data(l)
  {
    hide CmdOf;
    assert Cmds(l + [e])[..|l|] == Cmds(l);
    assert Data(l) + [] == Data(l);
  }

  lemma DataNone()
    ensures Data([]) == []
  {
  }

  lemma {:induction false} DataFrom(l: seq<LogEntry>, c: R.Command) returns (j: nat)
    requires c in Data(l)
    ensures j < |l| && CmdOf(l[j].payload) == Some(c)
  {
    hide CmdOf;
    var front := l[..|l| - 1];
    assert l == front + [l[|l| - 1]];
    DataPush(front, l[|l| - 1]);
    if c in Data(front) { j := DataFrom(front, c); } else { j := |l| - 1; }
  }

  lemma {:induction false} DataHas(l: seq<LogEntry>, j: nat)
    requires j < |l| && CmdOf(l[j].payload).Some?
    ensures CmdOf(l[j].payload).value in Data(l)
  {
    hide CmdOf, Data;
    var front := l[..|l| - 1];
    assert l == front + [l[|l| - 1]];
    DataPush(front, l[|l| - 1]);
    if j < |front| { DataHas(front, j); }
  }

  lemma {:induction false} DataMore(l: seq<LogEntry>, m: seq<LogEntry>)
    requires l <= m
    ensures Data(l) <= Data(m)
    decreases |m|
  {
    hide CmdOf, Data;
    if |l| == |m| {
      assert l == m;
    } else {
      var front := m[..|m| - 1];
      assert m == front + [m[|m| - 1]] && l <= front;
      DataPush(front, m[|m| - 1]);
      DataMore(l, front);
    }
  }

  /** The commands of a log that rises rise, and none is empty. */
  lemma {:induction false} DataRises(l: seq<LogEntry>)
    requires Rises(l)
    ensures R.Rising(Data(l)) && forall c :: c in Data(l) ==> c.records != []
  {
    hide CmdOf, Data, Rises;
    if l == [] {
      DataNone();
    } else {
      var front, e := l[..|l| - 1], l[|l| - 1];
      assert l == front + [e];
      DataPush(front, e);
      RisesPrefix(front, l);
      DataRises(front);
      assert RiseAt(l, |front|) by { RisesAt(l, |front|); }
      if CmdOf(e.payload).Some? {
        forall i | 0 <= i < |Data(front)| ensures R.EndOfCmd(Data(front)[i]) <= CmdOf(e.payload).value.base {
          var j := DataFrom(front, Data(front)[i]);
          assert EndsBy(l[j], CmdOf(e.payload).value.base);
        }
      }
    }
  }

  lemma RisesAt(l: seq<LogEntry>, k: nat)
    requires Rises(l) && k < |l|
    ensures RiseAt(l, k)
  {
  }

  /** The newest data entry ends past all others. */
  lemma EndsLast(l: seq<LogEntry>, j: nat)
    requires Rises(l) && j < |l|
    ensures EndsBy(l[j], R.EndOfAll(Data(l)))
  {
    hide CmdOf, Data, Rises;
    if CmdOf(l[j].payload).Some? {
      DataHas(l, j);
      DataRises(l);
      var c := CmdOf(l[j].payload).value;
      var i :| 0 <= i < |Data(l)| && Data(l)[i] == c;
    }
  }

  /** An entry proposed at the next assignable offset of a compacted log gets offsets past its whole history. */
  lemma AssignedPast(l: seq<LogEntry>, base: nat, next: nat, at: nat, j: nat)
    requires Rises(l) && base <= |l| && j < |l| && at == R.Assignable(Cmds(l[base..]), next)
    requires j < base ==> EndsBy(l[j], next)
    ensures EndsBy(l[j], at)
  {
    hide CmdOf, Rises, R.DataOf;
    if base <= j {
      assert Rises(l[base..]) by { RisesSuffix(l, base); }
      EndsLast(l[base..], j - base);
    }
  }

  lemma RisesSuffix(l: seq<LogEntry>, base: nat)
    requires Rises(l) && base <= |l|
    ensures Rises(l[base..])
  {
    hide CmdOf, EndsBy;
    forall k | 0 <= k < |l[base..]| ensures RiseAt(l[base..], k) {
      assert RiseAt(l, base + k);
      forall j | 0 <= j < k ensures l[base..][j] == l[base + j] { }
    }
  }

  // ---------- states ----------

  lemma StatePush(l: seq<LogEntry>, e: LogEntry)
    ensures var c := CmdOf(e.payload); State(l + [e]) == if c.Some? then R.Apply(State(l), c.value) else State(l)
  {
    hide CmdOf, Data, R.Apply;
    DataPush(l, e);
    var c := CmdOf(e.payload);
    if c.Some? {
      R.ApplyConcat(R.Empty, Data(l), [c.value]);
      assert [c.value][1..] == [];
    }
  }

  /** The state holds the content of the entries, ends where they end, and covers each of them. */
  lemma StateIs(l: seq<LogEntry>)
    requires Rises(l)
    ensures State(l).records == R.Content(Data(l)) && R.Covers(State(l).next, Data(l))
    ensures State(l).next == R.EndOfAll(Data(l))
  {
    hide CmdOf, Data, Rises, R.ApplyAll, R.Content, R.Covers, R.Rising;
    DataRises(l);
    R.ApplyContent(R.Empty, Data(l));
    assert [] + R.Content(Data(l)) == R.Content(Data(l));
    StateNext(l);
  }

  lemma {:induction false} StateNext(l: seq<LogEntry>)
    requires Rises(l)
    ensures State(l).next == R.EndOfAll(Data(l))
  {
    hide CmdOf, Data, Rises, R.Apply, State;
    if l == [] {
      DataNone();
      assert State([]) == R.Empty by { StateNone(); }
    } else {
      var front, e := l[..|l| - 1], l[|l| - 1];
      assert l == front + [e];
      RisesPrefix(front, l);
      StateNext(front);
      DataPush(front, e);
      StatePush(front, e);
      RisesAt(l, |front|);
      var c := CmdOf(e.payload);
      if c.Some? {
        assert R.EndOfAll(Data(front)) <= c.value.base by {
          if Data(front) != [] {
            var j := DataFrom(front, Data(front)[|Data(front)| - 1]);
            assert EndsBy(l[j], c.value.base);
          }
        }
        R.ApplyNew(State(front), c.value);
      }
    }
  }

  lemma StateNone()
    ensures State([]) == R.Empty
  {
    DataNone();
  }

  /** More entries, more records; and the same end means the same state. */
  lemma StateMore(l: seq<LogEntry>, m: seq<LogEntry>)
    requires Rises(m) && l <= m
    ensures State(l).records <= State(m).records && State(l).next <= State(m).next
    ensures State(m).next == State(l).next ==> State(m) == State(l)
  {
    hide CmdOf, Data, Rises, State;
    RisesPrefix(l, m);
    StateIs(l);
    StateIs(m);
    DataMore(l, m);
    DataRises(m);
    var a, b := Data(l), Data(m);
    assert b == a + b[|a|..];
    ContentConcat(a, b[|a|..]);
    if |a| < |b| {
      assert b[|b| - 1] in b;
      if a != [] { assert R.EndOfCmd(a[|a| - 1]) <= b[|b| - 1].base by { assert b[|a| - 1] == a[|a| - 1]; } }
    } else {
      assert a == b;
      SameData(l, m);
    }
  }

  lemma SameData(l: seq<LogEntry>, m: seq<LogEntry>)
    requires Data(l) == Data(m)
    ensures State(l) == State(m)
  {
  }

  lemma {:induction false} ContentConcat(a: seq<R.Command>, b: seq<R.Command>)
    ensures R.Content(a + b) == R.Content(a) + R.Content(b)
  {
    if a == [] {
      assert a + b == b;
    } else {
      assert (a + b)[1..] == a[1..] + b;
      ContentConcat(a[1..], b);
    }
  }

  /** Applying an entry again that is among those applied changes nothing. */
  lemma AppliesAgain(l: seq<LogEntry>, j: nat)
    requires Rises(l) && j < |l| && CmdOf(l[j].payload).Some?
    ensures R.Apply(State(l), CmdOf(l[j].payload).value) == State(l)
  {
    hide CmdOf, Data, Rises, State, R.Apply;
    var c := CmdOf(l[j].payload).value;
    StateIs(l);
    DataHas(l, j);
    DataRises(l);
    var i :| 0 <= i < |Data(l)| && Data(l)[i] == c;
    R.ApplyAgain(State(l), c);
  }

  /** The state holds every record of every entry applied. */
  lemma {:induction false} StateHas(l: seq<LogEntry>, j: nat)
    requires Rises(l) && j < |l| && CmdOf(l[j].payload).Some?
    ensures var c := CmdOf(l[j].payload).value;
            forall r :: r in R.ToRecords(c.base, c.records) ==> r in State(l).records
  {
    hide CmdOf, Data, Rises, State, R.ToRecords;
    StateIs(l);
    DataHas(l, j);
    ContentHas(Data(l), CmdOf(l[j].payload).value);
  }

  lemma {:induction false} ContentHas(cs: seq<R.Command>, c: R.Command)
    requires c in cs
    ensures forall r :: r in R.ToRecords(c.base, c.records) ==> r in R.Content(cs)
  {
    hide R.ToRecords;
    if cs[0] != c { ContentHas(cs[1..], c); }
  }
}
