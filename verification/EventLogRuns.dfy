/** What every run of the event log keeps, and what compaction can and cannot take away. */
module EventLogRuns {
  import opened Lists
  import opened EventLog

  /** One operation with the environment's part in it: which writes succeed, which rows of a failed batch stay. */
  datatype Op =
    | Append(event: Event, ioOk: bool)
    | Batch(events: seq<Event>, lands: seq<bool>)
    | Compact(olderThan: int, keepMin: nat)
    | Reopen

  ghost predicate WellFormed(op: Op) {
    op.Batch? ==> |op.events| == |op.lands|
  }

  function Exec(s: LogState, op: Op): LogState
    requires WellFormed(op)
  {
    match op
    case Append(e, ioOk) => Appended(s, e, ioOk)
    case Batch(es, lands) => BatchAppended(s, es, lands)
    case Compact(olderThan, keepMin) => Compacted(s, olderThan, keepMin)
    case Reopen => Opened(s.nodeID, s.rows)
  }

  ghost predicate AllWellFormed(ops: seq<Op>) {
    forall op :: op in ops ==> WellFormed(op)
  }

  function Run(s: LogState, ops: seq<Op>): LogState
    requires AllWellFormed(ops)
    decreases |ops|
  {
    if ops == [] then s else Run(Exec(s, ops[0]), ops[1..])
  }

  /** What an append stores: the caller's event under the next number, its source filled in if it had none. */
  lemma AppendStores(s: LogState, e: Event)
    requires forall r :: r in s.rows ==> r.event.id != e.id
    ensures var source := if e.sourceNode == "" then s.nodeID else e.sourceNode;
      Exec(s, Append(e, true)) ==
      LogState(s.nodeID, s.counter + 1, s.rows + [Row(s.counter + 1, e.(sourceNode := source))])
  {
  }

  /** What a compaction deletes: the rows older than the limit of which more than keepMin numbers lie ahead. */
  lemma CompactDeletesIff(s: LogState, olderThan: int, keepMin: nat, r: Row)
    requires r in s.rows
    ensures r !in Exec(s, Compact(olderThan, keepMin)).rows <==>
        r.event.timestamp < olderThan && r.num + keepMin < s.counter
  {
  }

  lemma {:induction false} BatchGrowsAtTheEnd(s: LogState, events: seq<Event>, lands: seq<bool>)
    requires LogInv(s) && |events| == |lands|
    ensures LogInv(BatchAppended(s, events, lands))
    ensures s.rows <= BatchAppended(s, events, lands).rows
    ensures s.counter <= BatchAppended(s, events, lands).counter
    ensures forall i :: |s.rows| <= i < |BatchAppended(s, events, lands).rows| ==>
        BatchAppended(s, events, lands).rows[i].num > s.counter
    decreases |events|
  {
    if events != [] {
      var s1 := Appended(s, events[0], lands[0]);
      AppendKeepsInv(s, events[0], lands[0]);
      BatchGrowsAtTheEnd(s1, events[1..], lands[1..]);
      var s2 := BatchAppended(s, events, lands);
      forall i | |s.rows| <= i < |s2.rows|
        ensures s2.rows[i].num > s.counter
      {
        assert i < |s1.rows| ==> s2.rows[i] == s1.rows[i];
      }
    }
  }

  /**
   * One operation keeps the key constraints, and a row that was not there before is numbered above the counter,
   * hence above every live row. Only Append and AppendBatch add rows, and they add them at the end.
   */
  lemma StepNumbersAbove(s: LogState, op: Op)
    requires LogInv(s) && WellFormed(op)
    ensures LogInv(Exec(s, op))
    ensures forall r :: r in Exec(s, op).rows && r !in s.rows ==> s.counter < r.num
    ensures op.Append? || op.Batch? ==> s.rows <= Exec(s, op).rows
    ensures op.Compact? || op.Reopen? ==> forall r :: r in Exec(s, op).rows ==> r in s.rows
  {
    match op
    case Append(e, ioOk) =>
      AppendKeepsInv(s, e, ioOk);
    case Batch(es, lands) =>
      BatchGrowsAtTheEnd(s, es, lands);
      var s' := Exec(s, op);
      forall r | r in s'.rows && r !in s.rows
        ensures s.counter < r.num
      {
        var i :| 0 <= i < |s'.rows| && s'.rows[i] == r;
        assert i < |s.rows| ==> s.rows[i] == r;
      }
    case Compact(olderThan, keepMin) =>
      CompactKeepsInv(s, olderThan, keepMin);
    case Reopen =>
  }

  /** Every run keeps ids and numbers unique, rows in append order, and every number at most the counter. */
  lemma {:induction false} RunKeepsInv(s: LogState, ops: seq<Op>)
    requires LogInv(s) && AllWellFormed(ops)
    ensures LogInv(Run(s, ops))
    decreases |ops|
  {
    if ops != [] {
      StepNumbersAbove(s, ops[0]);
      RunKeepsInv(Exec(s, ops[0]), ops[1..]);
    }
  }

  // ------------------------------------------------------------------ the counter across restarts

  lemma CompactKeepsTheNewestAtTheCounter(s: LogState, olderThan: int, keepMin: nat)
    requires LogInv(s) && s.rows != [] && Top(s.rows) == s.counter
    ensures Compacted(s, olderThan, keepMin).rows != []
    ensures Top(Compacted(s, olderThan, keepMin).rows) == s.counter
  {
    TopIsLast(s.rows);
    assert s.rows[|s.rows| - 1] in Compacted(s, olderThan, keepMin).rows;
    CompactKeepsInv(s, olderThan, keepMin);
  }

  lemma {:induction false} IdleRunKeepsCounter(s: LogState, ops: seq<Op>)
    requires LogInv(s) && s.rows != [] && Top(s.rows) == s.counter
    requires forall op :: op in ops ==> op.Compact? || op.Reopen?
    requires AllWellFormed(ops)
    ensures Run(s, ops).counter == s.counter
    decreases |ops|
  {
    if ops != [] {
      StepNumbersAbove(s, ops[0]);
      if ops[0].Compact? {
        CompactKeepsTheNewestAtTheCounter(s, ops[0].olderThan, ops[0].keepMin);
      }
      IdleRunKeepsCounter(Exec(s, ops[0]), ops[1..]);
    }
  }

  /** After a successful append, compactions and restarts in any order leave the counter exactly where it was. */
  lemma ReopenRecoversTheCounter(s: LogState, e: Event, ops: seq<Op>)
    requires LogInv(s) && e.id !in Ids(s.rows)
    requires forall op :: op in ops ==> op.Compact? || op.Reopen?
    ensures Run(Appended(s, e, true), ops).counter == s.counter + 1
    ensures Opened(s.nodeID, Run(Appended(s, e, true), ops).rows).counter == s.counter + 1
  {
    var s1 := Appended(s, e, true);
    AppendKeepsInv(s, e, true);
    TopIsLast(s1.rows);
    IdleRunKeepsCounter(s1, ops);
    IdleRunKeepsCounter(s1, ops + [Reopen]);
    RunThenOne(s1, ops, Reopen);
  }

  lemma {:induction false} RunThenOne(s: LogState, ops: seq<Op>, op: Op)
    requires AllWellFormed(ops) && WellFormed(op)
    ensures Run(s, ops + [op]) == Exec(Run(s, ops), op)
    ensures Run(s, ops).nodeID == s.nodeID
    decreases |ops|
  {
    if ops == [] {
      assert ops + [op] == [op];
    } else {
      assert (ops + [op])[1..] == ops[1..] + [op];
      RunThenOne(Exec(s, ops[0]), ops[1..], op);
      if ops[0].Batch? {
        BatchKeepsNode(s, ops[0].events, ops[0].lands);
      }
    }
  }

  lemma BatchKeepsNode(s: LogState, events: seq<Event>, lands: seq<bool>)
    requires |events| == |lands|
    ensures BatchAppended(s, events, lands).nodeID == s.nodeID
    decreases |events|
  {
  }

  // ------------------------------------------------------------------ numbers over the whole history

  /** The rows an operation stores. */
  function NewRows(s: LogState, op: Op): seq<Row>
    requires WellFormed(op)
  {
    if (op.Append? || op.Batch?) && |s.rows| <= |Exec(s, op).rows| then Exec(s, op).rows[|s.rows|..] else []
  }

  /** Every row a run stores, in order, including rows compacted since. */
  function Assigned(s: LogState, ops: seq<Op>): seq<Row>
    requires AllWellFormed(ops)
    decreases |ops|
  {
    if ops == [] then [] else NewRows(s, ops[0]) + Assigned(Exec(s, ops[0]), ops[1..])
  }

  /** The compaction spares the newest row: it is recent, or within keepMin of the counter. */
  predicate SparesNewest(s: LogState, olderThan: int, keepMin: nat) {
    s.rows == []
    || olderThan <= s.rows[|s.rows| - 1].event.timestamp
    || s.counter <= s.rows[|s.rows| - 1].num + keepMin
  }

  ghost predicate AlwaysSparesNewest(s: LogState, ops: seq<Op>)
    requires AllWellFormed(ops)
    decreases |ops|
  {
    ops == []
    || (&& (ops[0].Compact? ==> SparesNewest(s, ops[0].olderThan, ops[0].keepMin))
        && AlwaysSparesNewest(Exec(s, ops[0]), ops[1..]))
  }

  lemma NewestStays(s: LogState, op: Op)
    requires LogInv(s) && WellFormed(op)
    requires op.Compact? ==> SparesNewest(s, op.olderThan, op.keepMin)
    ensures Top(s.rows) <= Top(Exec(s, op).rows)
    ensures Top(s.rows) <= s.counter
  {
    StepNumbersAbove(s, op);
    if s.rows != [] {
      TopIsLast(s.rows);
      var newest := s.rows[|s.rows| - 1];
      assert newest in s.rows;
      if op.Append? || op.Batch? {
        assert Exec(s, op).rows[|s.rows| - 1] == newest;
      }
      assert newest in Exec(s, op).rows;
    }
  }

  lemma NothingAscends()
    ensures Ascending([])
  {
  }

  lemma TailIsNew(s: LogState, op: Op)
    requires LogInv(s) && WellFormed(op) && (op.Append? || op.Batch?)
    ensures TableInv(Exec(s, op).rows) && |s.rows| <= |Exec(s, op).rows|
    ensures forall i :: |s.rows| <= i < |Exec(s, op).rows| ==> s.counter < Exec(s, op).rows[i].num
  {
    StepNumbersAbove(s, op);
    if op.Batch? {
      BatchGrowsAtTheEnd(s, op.events, op.lands);
    }
  }

  lemma StepRaisesTop(s: LogState, op: Op)
    requires LogInv(s) && WellFormed(op)
    requires op.Compact? ==> SparesNewest(s, op.olderThan, op.keepMin)
    ensures Top(s.rows) <= Top(Exec(s, op).rows)
    ensures Ascending(NewRows(s, op))
    ensures forall r :: r in NewRows(s, op) ==> Top(s.rows) < r.num <= Top(Exec(s, op).rows)
  {
    NothingAscends();
    hide LogInv, TableInv, SparesNewest, Exec, Ascending;
    NewestStays(s, op);
    if op.Append? || op.Batch? {
      TailIsNew(s, op);
      TailOf(Exec(s, op).rows, |s.rows|, s.counter);
    }
  }

  lemma TailOf(rows: seq<Row>, n: nat, c: nat)
    requires TableInv(rows) && n <= |rows|
    requires forall i :: n <= i < |rows| ==> c < rows[i].num
    ensures Ascending(rows[n..])
    ensures forall r :: r in rows[n..] ==> c < r.num <= Top(rows)
  {
  }

  /** While compactions spare the newest row, no number is ever stored twice, restarts included. */
  lemma {:induction false} NumbersNeverReused(s: LogState, ops: seq<Op>)
    requires LogInv(s) && AllWellFormed(ops) && AlwaysSparesNewest(s, ops)
    ensures forall r :: r in Assigned(s, ops) ==> Top(s.rows) < r.num
    ensures Ascending(Assigned(s, ops))
    decreases |ops|
  {
    hide NewRows, Exec, SparesNewest, Ascending, LogInv;
    NothingAscends();
    if ops != [] {
      StepNumbersAbove(s, ops[0]);
      StepRaisesTop(s, ops[0]);
      NumbersNeverReused(Exec(s, ops[0]), ops[1..]);
      AscendingConcat(NewRows(s, ops[0]), Assigned(Exec(s, ops[0]), ops[1..]), Top(Exec(s, ops[0]).rows));
    }
  }

  lemma AscendingConcat(a: seq<Row>, b: seq<Row>, n: nat)
    requires Ascending(a) && Ascending(b)
    requires forall r :: r in a ==> r.num <= n
    requires forall r :: r in b ==> n < r.num
    ensures Ascending(a + b)
  {
    forall i, j | 0 <= i < j < |a + b|
      ensures (a + b)[i].num < (a + b)[j].num
    {
      if i < |a| && |a| <= j {
        assert a[i] in a && b[j - |a|] in b;
      }
    }
  }

  /**
   * The condition is exact: compact, restart, append. The new number exceeds the old maximum
   * if and only if the compaction spared the newest row.
   */
  lemma ReuseIffNewestDeleted(s: LogState, olderThan: int, keepMin: nat, e: Event)
    requires LogInv(s) && s.rows != [] && e.id !in Ids(s.rows)
    ensures var s1 := Opened(s.nodeID, Compacted(s, olderThan, keepMin).rows);
            Top(s.rows) < Appended(s1, e, true).counter <==> SparesNewest(s, olderThan, keepMin)
  {
    var left := Compacted(s, olderThan, keepMin).rows;
    var newest := s.rows[|s.rows| - 1];
    TopIsLast(s.rows);
    CompactKeepsInv(s, olderThan, keepMin);
    assert newest in left <==> SparesNewest(s, olderThan, keepMin);
    if newest !in left && left != [] {
      TopIsLast(left);
      OlderThanNewest(s.rows, left[|left| - 1]);
    }
    assert Ids(left) <= Ids(s.rows);
  }

  lemma OlderThanNewest(rows: seq<Row>, r: Row)
    requires TableInv(rows) && r in rows && r != rows[|rows| - 1]
    ensures r.num < rows[|rows| - 1].num
  {
  }

  // ------------------------------------------------------------------ compaction and readers

  /** Rows within keepMin of the counter survive, so a reader whose cursor is that close sees no difference. */
  lemma CompactionInvisibleNearTheHead(s: LogState, olderThan: int, keepMin: nat, f: QueryFilter)
    requires LogInv(s)
    requires s.counter <= f.afterSequence + keepMin + 1
    ensures forall r :: r in s.rows && s.counter <= r.num + keepMin ==> r in Compacted(s, olderThan, keepMin).rows
    ensures QueryResult(Compacted(s, olderThan, keepMin).rows, f) == QueryResult(s.rows, f)
  {
    SelectTwice(s.rows, Survives(olderThan, MinKeep(s.counter, keepMin)), Admits(f));
  }

  function Recent(rows: seq<Row>, n: nat): seq<Row> {
    if n < |rows| then rows[|rows| - n..] else rows
  }

  /** The documented promise: the most recent `keepMin` rows survive, whatever the age limit. */
  ghost predicate KeepsTheMostRecent(s: LogState, keepMin: nat) {
    forall olderThan :: forall r :: r in Recent(s.rows, keepMin) ==> r in Compacted(s, olderThan, keepMin).rows
  }

  /** The promise holds if and only if the oldest row it covers, if any, is numbered within keepMin of the counter. */
  lemma KeepsTheMostRecentIff(s: LogState, keepMin: nat)
    requires LogInv(s)
    ensures KeepsTheMostRecent(s, keepMin) <==>
        Recent(s.rows, keepMin) == [] || s.counter <= Recent(s.rows, keepMin)[0].num + keepMin
  {
    if Recent(s.rows, keepMin) == [] {
      return;
    }
    var oldest := Recent(s.rows, keepMin)[0];
    var limit := oldest.event.timestamp + 1;
    var minKeep := MinKeep(s.counter, keepMin);
    if s.counter > oldest.num + keepMin {
      assert !Survives(limit, minKeep)(oldest);
      assert oldest in Recent(s.rows, keepMin) && oldest !in Compacted(s, limit, keepMin).rows;
    } else {
      forall olderThan, r | r in Recent(s.rows, keepMin)
        ensures r in Compacted(s, olderThan, keepMin).rows
      {
        var i :| 0 <= i < |Recent(s.rows, keepMin)| && Recent(s.rows, keepMin)[i] == r;
        assert oldest.num <= r.num;
        assert r in s.rows && Survives(olderThan, minKeep)(r);
      }
    }
  }

  /** No number was burned: the rows carry the last |rows| numbers. */
  ghost predicate GapFree(s: LogState) {
    |s.rows| <= s.counter && forall i :: 0 <= i < |s.rows| ==> s.rows[i].num == s.counter - |s.rows| + 1 + i
  }

  /** A log without gaps keeps at least the smaller of its size and keepMin. */
  lemma GapFreeKeepsEnough(s: LogState, olderThan: int, keepMin: nat)
    requires LogInv(s) && GapFree(s)
    ensures |Compacted(s, olderThan, keepMin).rows| >= if keepMin < |s.rows| then keepMin else |s.rows|
  {
    var n := if keepMin < |s.rows| then |s.rows| - keepMin else 0;
    SelectKeepsSuffix(s.rows, n, Survives(olderThan, MinKeep(s.counter, keepMin)));
  }

  /** Appends that fail without landing. */
  function Failing(events: seq<Event>): seq<Op> {
    if events == [] then [] else [Append(events[0], false)] + Failing(events[1..])
  }

  lemma {:induction false} FailingBurnsNumbers(s: LogState, events: seq<Event>)
    ensures AllWellFormed(Failing(events)) && Run(s, Failing(events)) == s.(counter := s.counter + |events|)
    decreases |events|
  {
    if events != [] {
      var rest := Failing(events[1..]);
      FailingBurnsNumbers(Exec(s, Append(events[0], false)), events[1..]);
      assert Failing(events)[1..] == rest;
    }
  }

  lemma OneRowThenFailing(nodeID: string, e: Event, failed: seq<Event>)
    ensures AllWellFormed([Append(e, true)] + Failing(failed))
    ensures Run(Opened(nodeID, []), [Append(e, true)] + Failing(failed))
            == LogState(nodeID, 1 + |failed|, [Row(1, Stamped(nodeID, e))])
  {
    var s0 := Opened(nodeID, []);
    var s1 := Exec(s0, Append(e, true));
    var ops := [Append(e, true)] + Failing(failed);
    assert s1 == LogState(nodeID, 1, [Row(1, Stamped(nodeID, e))]);
    hide Exec, Failing, Opened;
    FailingBurnsNumbers(s1, failed);
    assert ops[1..] == Failing(failed) && ops[0] == Append(e, true);
  }

  lemma OneRowKeptIff(s: LogState, e: Event, keepMin: nat)
    requires s.counter >= 1 && s.rows == [Row(1, e)]
    ensures KeepsTheMostRecent(s, keepMin) <==> keepMin == 0 || s.counter <= keepMin + 1
    ensures Compacted(s, e.timestamp + 1, keepMin).rows == [] <==> s.counter > keepMin + 1
  {
    hide KeepsTheMostRecent;
    KeepsTheMostRecentIff(s, keepMin);
    if s.counter > keepMin + 1 {
      SelectNone(s.rows, Survives(e.timestamp + 1, MinKeep(s.counter, keepMin)));
    } else {
      SelectAll(s.rows, Survives(e.timestamp + 1, MinKeep(s.counter, keepMin)));
    }
  }

  /**
   * A new log, one append, then appends that fail: the promise of keepMin holds exactly while no more than keepMin have
   * failed, and after one more the log can be emptied.
   */
  lemma BurnedNumbersDefeatKeepMin(nodeID: string, e: Event, failed: seq<Event>, keepMin: nat)
    ensures AllWellFormed([Append(e, true)] + Failing(failed))
    ensures var s := Run(Opened(nodeID, []), [Append(e, true)] + Failing(failed));
      && (KeepsTheMostRecent(s, keepMin) <==> keepMin == 0 || |failed| <= keepMin)
      && (Compacted(s, e.timestamp + 1, keepMin).rows == [] <==> |failed| > keepMin)
  {
    hide Run, Compacted, KeepsTheMostRecent, Failing, Opened;
    OneRowThenFailing(nodeID, e, failed);
    OneRowKeptIff(LogState(nodeID, 1 + |failed|, [Row(1, Stamped(nodeID, e))]), Stamped(nodeID, e), keepMin);
  }

  lemma RunOfThree(s: LogState, a: Op, b: Op, c: Op)
    requires WellFormed(a) && WellFormed(b) && WellFormed(c)
    ensures Run(s, [a, b, c]) == Exec(Exec(Exec(s, a), b), c)
  {
    hide Exec;
    var s1, s2 := Exec(s, a), Exec(Exec(s, a), b);
    assert [a, b, c][1..] == [b, c] && [b, c][1..] == [c] && [c][1..] == [];
    assert Run(s2, [c]) == Exec(s2, c);
    assert Run(s1, [b, c]) == Run(s2, [c]);
  }

  /** A burned number is not kept back: after a restart a row gets it exactly if the newest row was at the counter. */
  lemma BurnedNumberIsSpentAgain(s: LogState, e: Event, f: Event)
    requires LogInv(s) && f.id !in Ids(s.rows)
    ensures var t := Run(s, [Append(e, false), Reopen, Append(f, true)]);
      && t.rows == s.rows + [Row(t.counter, Stamped(s.nodeID, f))] && t.counter <= s.counter + 1
      && (t.counter == s.counter + 1 <==> Top(s.rows) == s.counter)
  {
    RunOfThree(s, Append(e, false), Reopen, Append(f, true));
    hide Run;
  }
}
