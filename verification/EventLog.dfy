/** The append-only event log of one MEL instance (internal/eventlog/eventlog.go). */
module EventLog {
  import opened Lists

  /** The caller's part of a kernel event: everything but the number the log assigns and the checksum. */
  datatype Event = Event(
    id: string, kind: string, timestamp: int, clock: nat, sourceNode: string, sourceRegion: string,
    subject: string, data: string, metadata: map<string, string>, policyVersion: string, causalParent: string)

  /** A row of kernel_event_log. */
  datatype Row = Row(num: nat, event: Event)

  /** The table in ascending number order, and the counter held in memory. */
  datatype LogState = LogState(nodeID: string, counter: nat, rows: seq<Row>)

  // ------------------------------------------------------------------ the table

  ghost predicate Ascending(rows: seq<Row>) {
    forall i, j :: 0 <= i < j < |rows| ==> rows[i].num < rows[j].num
  }

  ghost predicate UniqueIds(rows: seq<Row>) {
    forall i, j :: 0 <= i < j < |rows| ==> rows[i].event.id != rows[j].event.id
  }

  /** The key constraints of the schema: event_id and sequence_num are unique; numbers start at 1. */
  ghost predicate TableInv(rows: seq<Row>) {
    && Ascending(rows)
    && UniqueIds(rows)
    && forall r :: r in rows ==> 1 <= r.num
  }

  ghost predicate LogInv(s: LogState) {
    TableInv(s.rows) && forall r :: r in s.rows ==> r.num <= s.counter
  }

  function Ids(rows: seq<Row>): set<string> {
    set r | r in rows :: r.event.id
  }

  /** MAX(sequence_num), 0 on the empty table. */
  function Top(rows: seq<Row>): (t: nat)
    ensures forall r :: r in rows ==> r.num <= t
    ensures t == 0 || exists r :: r in rows && r.num == t
  {
    if rows == [] then 0
    else
      assert rows == rows[..|rows| - 1] + [rows[|rows| - 1]];
      var t, n := Top(rows[..|rows| - 1]), rows[|rows| - 1].num;
      if n > t then n else t
  }

  // ------------------------------------------------------------------ effects of the operations

  /** Append fills an empty source in before it writes. */
  function Stamped(nodeID: string, e: Event): Event {
    if e.sourceNode == "" then e.(sourceNode := nodeID) else e
  }

  /** The row lands unless its id is taken or the write fails; the number is spent either way. */
  function Appended(s: LogState, e: Event, ioOk: bool): LogState {
    var n := s.counter + 1;
    if ioOk && e.id !in Ids(s.rows)
    then s.(counter := n, rows := s.rows + [Row(n, Stamped(s.nodeID, e))])
    else s.(counter := n)
  }

  /** A batch of which `lands` says which inserts survive the script; a taken id never does. */
  function BatchAppended(s: LogState, events: seq<Event>, lands: seq<bool>): LogState
    requires |events| == |lands|
    decreases |events|
  {
    if events == [] then s
    else BatchAppended(Appended(s, events[0], lands[0]), events[1..], lands[1..])
  }

  function MinKeep(counter: nat, keepMin: nat): nat {
    if counter > keepMin then counter - keepMin else 0
  }

  function Survives(olderThan: int, minKeep: nat): Row -> bool {
    (r: Row) => !(r.event.timestamp < olderThan && r.num < minKeep)
  }

  function Compacted(s: LogState, olderThan: int, keepMin: nat): LogState {
    s.(rows := Select(s.rows, Survives(olderThan, MinKeep(s.counter, keepMin))))
  }

  /** A process that opens the table anew. */
  function Opened(nodeID: string, rows: seq<Row>): LogState {
    LogState(nodeID, Top(rows), rows)
  }

  // ------------------------------------------------------------------ queries

  datatype QueryFilter = QueryFilter(
    afterSequence: nat, beforeSequence: nat, eventTypes: seq<string>, sourceNode: string, sourceRegion: string,
    subject: string, since: Option<int>, until: Option<int>, limit: int)

  /** What a caller asks for: an unset field does not restrict. */
  function Admits(f: QueryFilter): Row -> bool {
    (r: Row) =>
      && f.afterSequence < r.num
      && (f.beforeSequence > 0 ==> r.num < f.beforeSequence)
      && (f.eventTypes != [] ==> r.event.kind in f.eventTypes)
      && (f.sourceNode != "" ==> r.event.sourceNode == f.sourceNode)
      && (f.sourceRegion != "" ==> r.event.sourceRegion == f.sourceRegion)
      && (f.subject != "" ==> r.event.subject == f.subject)
      && (f.since.Some? ==> f.since.value <= r.event.timestamp)
      && (f.until.Some? ==> r.event.timestamp <= f.until.value)
  }

  const DEFAULT_LIMIT := 1000
  const LIMIT_CAP := 100000

  function EffectiveLimit(limit: int): nat {
    if limit <= 0 then DEFAULT_LIMIT else if limit > LIMIT_CAP then LIMIT_CAP else limit
  }

  function QueryResult(rows: seq<Row>, f: QueryFilter): seq<Row> {
    Take(Select(rows, Admits(f)), EffectiveLimit(f.limit))
  }

  /** One clause of the WHERE text. */
  datatype Condition =
    | After(n: nat) | Before(n: nat) | TypeIn(types: seq<string>) | SourceIs(node: string) | RegionIs(region: string)
    | SubjectIs(subject: string) | Since(t: int) | Until(t: int)

  predicate Holds(c: Condition, r: Row) {
    match c
    case After(n) => r.num > n
    case Before(n) => r.num < n
    case TypeIn(types) => r.event.kind in types
    case SourceIs(node) => r.event.sourceNode == node
    case RegionIs(region) => r.event.sourceRegion == region
    case SubjectIs(subject) => r.event.subject == subject
    case Since(t) => r.event.timestamp >= t
    case Until(t) => r.event.timestamp <= t
  }

  predicate HoldAll(conditions: seq<Condition>, r: Row) {
    forall c | c in conditions :: Holds(c, r)
  }

  /** The WHERE clause: a conjunction, true when there is no condition. */
  function Where(conditions: seq<Condition>): Row -> bool {
    (r: Row) => HoldAll(conditions, r)
  }

  /** The clauses of a filter, in the order the query text lists them. */
  function Clauses(f: QueryFilter): seq<Condition> {
    var c0 := With(With([], f.afterSequence > 0, After(f.afterSequence)), f.beforeSequence > 0,
      Before(f.beforeSequence));
    var c1 := With(With(c0, f.eventTypes != [], TypeIn(f.eventTypes)), f.sourceNode != "", SourceIs(f.sourceNode));
    var c2 := With(With(c1, f.sourceRegion != "", RegionIs(f.sourceRegion)), f.subject != "", SubjectIs(f.subject));
    With(With(c2, f.since.Some?, Since(f.since.GetOr(0))), f.until.Some?, Until(f.until.GetOr(0)))
  }

  // ------------------------------------------------------------------ the object

  class Log {
    const nodeID: string
    var sequenceNum: nat
    var rows: seq<Row>
    var appended: nat
    var queried: nat
    var compacted: nat

    ghost predicate Valid()
      reads this
    {
      LogInv(State())
    }

    function State(): LogState
      reads this
    {
      LogState(nodeID, sequenceNum, rows)
    }

    /** Opens a log over a stored table and recovers the counter from it. */
    constructor Open(nodeID: string, stored: seq<Row>)
      requires TableInv(stored)
      ensures Valid()
      ensures State() == Opened(nodeID, stored)
      ensures appended == 0 && queried == 0 && compacted == 0
    {
      this.nodeID := nodeID;
      rows := stored;
      sequenceNum := Top(stored);
      appended := 0;
      queried := 0;
      compacted := 0;
    }

    /** Appends one event. The caller's event is stamped in place whether or not the row lands. */
    method Append(event: Event, ioOk: bool) returns (seqNum: Option<nat>, stamped: Event)
      requires Valid()
      modifies this
      ensures Valid()
      ensures State() == Appended(old(State()), event, ioOk)
      ensures stamped == Stamped(nodeID, event)
      ensures seqNum.Some? <==> ioOk && event.id !in Ids(old(rows))
      ensures seqNum.Some? ==> seqNum.value == old(sequenceNum) + 1 && Row(seqNum.value, stamped) in rows
      ensures appended == old(appended) + (if seqNum.Some? then 1 else 0)
      ensures queried == old(queried) && compacted == old(compacted)
    {
      AppendKeepsInv(State(), event, ioOk);
      sequenceNum := sequenceNum + 1;
      stamped := event;
      if stamped.sourceNode == "" {
        stamped := stamped.(sourceNode := nodeID);
      }
      // INSERT: the primary key refuses a taken id.
      if !ioOk || event.id in Ids(rows) {
        return None, stamped;
      }
      rows := rows + [Row(sequenceNum, stamped)];
      appended := appended + 1;
      seqNum := Some(sequenceNum);
    }

    /** Appends a batch as one script; reports success only when the script ran through. */
    method AppendBatch(events: seq<Event>, lands: seq<bool>, ioOk: bool) returns (ok: bool)
      requires Valid()
      requires |events| == |lands|
      modifies this
      ensures Valid()
      ensures State() == BatchAppended(old(State()), events, lands)
      ensures ok <==> events == [] || (ioOk && |rows| == |old(rows)| + |events|)
      ensures appended == old(appended) + (if ok then |events| else 0)
      ensures queried == old(queried) && compacted == old(compacted)
    {
      if events == [] {
        return true;
      }
      ghost var before := State();
      var allLanded := true;
      for i := 0 to |events|
        invariant Valid()
        invariant |rows| <= |old(rows)| + i
        invariant allLanded <==> |rows| == |old(rows)| + i
        invariant appended == old(appended) && queried == old(queried) && compacted == old(compacted)
        invariant BatchAppended(before, events, lands) == BatchAppended(State(), events[i..], lands[i..])
      {
        ghost var s := State();
        AppendKeepsInv(s, events[i], lands[i]);
        sequenceNum := sequenceNum + 1;
        if lands[i] && events[i].id !in Ids(rows) {
          rows := rows + [Row(sequenceNum, Stamped(nodeID, events[i]))];
        } else {
          allLanded := false;
        }
        assert State() == Appended(s, events[i], lands[i]);
        assert events[i..][1..] == events[i + 1..] && lands[i..][1..] == lands[i + 1..];
      }
      ok := ioOk && allLanded;
      if ok {
        appended := appended + |events|;
      }
    }

    /** Builds the WHERE clauses the filter asks for and runs the SELECT; one that fails is not counted. */
    method Query(filter: QueryFilter, ioOk: bool) returns (result: Option<seq<Row>>)
      requires Valid()
      modifies this`queried
      ensures Valid() && queried == old(queried) + (if ioOk then 1 else 0)
      ensures result == if ioOk then Some(QueryResult(rows, filter)) else None
    {
      var conditions: seq<Condition> := [];
      if filter.afterSequence > 0 {
        conditions := conditions + [After(filter.afterSequence)];
      }
      if filter.beforeSequence > 0 {
        conditions := conditions + [Before(filter.beforeSequence)];
      }
      if |filter.eventTypes| > 0 {
        conditions := conditions + [TypeIn(filter.eventTypes)];
      }
      if filter.sourceNode != "" {
        conditions := conditions + [SourceIs(filter.sourceNode)];
      }
      if filter.sourceRegion != "" {
        conditions := conditions + [RegionIs(filter.sourceRegion)];
      }
      if filter.subject != "" {
        conditions := conditions + [SubjectIs(filter.subject)];
      }
      if filter.since.Some? {
        conditions := conditions + [Since(filter.since.value)];
      }
      if filter.until.Some? {
        conditions := conditions + [Until(filter.until.value)];
      }
      assert conditions == Clauses(filter);
      var limit := DEFAULT_LIMIT;
      if filter.limit > 0 {
        limit := filter.limit;
        if limit > LIMIT_CAP {
          limit := LIMIT_CAP;
        }
      }
      if !ioOk {
        return None;
      }
      result := Some(Take(Select(rows, Where(conditions)), limit));
      queried := queried + 1;
      WhereIsAdmits(rows, filter);
    }

    /**
     * Deletes rows that are both old and far behind the counter. The number reported is what a second connection
     * answers to SELECT changes(), if it answers; it is zero otherwise.
     */
    method Compact(olderThan: int, keepMin: nat, ioOk: bool, changes: Option<nat>) returns (deleted: Option<nat>)
      requires Valid()
      modifies this
      ensures Valid() && deleted == if ioOk then Some(changes.GetOr(0)) else None
      ensures State() == if ioOk then Compacted(old(State()), olderThan, keepMin) else old(State())
      ensures compacted == old(compacted) + deleted.GetOr(0)
      ensures appended == old(appended) && queried == old(queried)
    {
      hide Select, Survives, TableInv, LogInv;
      var minKeepSeq := 0;
      if sequenceNum > keepMin {
        minKeepSeq := sequenceNum - keepMin;
      }
      if !ioOk {
        return None;
      }
      CompactKeepsInv(State(), olderThan, keepMin);
      rows := Select(rows, Survives(olderThan, minKeepSeq));
      deleted := Some(0);
      if changes.Some? {
        compacted := compacted + changes.value;
        deleted := changes;
      }
    }
  }

  // ------------------------------------------------------------------ proofs about single operations

  lemma HoldAllWith(cs: seq<Condition>, on: bool, c: Condition, r: Row)
    ensures HoldAll(With(cs, on, c), r) <==> HoldAll(cs, r) && (on ==> Holds(c, r))
  {
    if on {
      assert forall x :: x in cs + [c] <==> x in cs || x == c;
      if HoldAll(cs + [c], r) {
        assert forall x :: x in cs ==> x in cs + [c];
        assert c in cs + [c];
      }
    }
  }

  lemma HoldAllWithTwo(cs: seq<Condition>, on: bool, c: Condition, on': bool, c': Condition, r: Row)
    ensures HoldAll(With(With(cs, on, c), on', c'), r) <==>
        HoldAll(cs, r) && (on ==> Holds(c, r)) && (on' ==> Holds(c', r))
  {
    HoldAllWith(cs, on, c, r);
    HoldAllWith(With(cs, on, c), on', c', r);
  }

  /** The conjunction the query builds is the filter the caller asked for. */
  lemma WhereIsAdmits(rows: seq<Row>, f: QueryFilter)
    requires TableInv(rows)
    ensures Select(rows, Where(Clauses(f))) == Select(rows, Admits(f))
  {
    forall r | r in rows
      ensures Where(Clauses(f))(r) == Admits(f)(r)
    {
      ClausesMean(f, r);
    }
    SelectSame(rows, Where(Clauses(f)), Admits(f));
  }

  lemma NoneHold(r: Row)
    ensures HoldAll([], r)
  {
  }

  lemma ClausesMean(f: QueryFilter, r: Row)
    requires 1 <= r.num
    ensures Where(Clauses(f))(r) == Admits(f)(r)
  {
    hide HoldAll, With;
    NoneHold(r);
    var c0 := With(With([], f.afterSequence > 0, After(f.afterSequence)), f.beforeSequence > 0,
      Before(f.beforeSequence));
    var c1 := With(With(c0, f.eventTypes != [], TypeIn(f.eventTypes)), f.sourceNode != "", SourceIs(f.sourceNode));
    var c2 := With(With(c1, f.sourceRegion != "", RegionIs(f.sourceRegion)), f.subject != "", SubjectIs(f.subject));
    HoldAllWithTwo([], f.afterSequence > 0, After(f.afterSequence), f.beforeSequence > 0, Before(f.beforeSequence), r);
    HoldAllWithTwo(c0, f.eventTypes != [], TypeIn(f.eventTypes), f.sourceNode != "", SourceIs(f.sourceNode), r);
    HoldAllWithTwo(c1, f.sourceRegion != "", RegionIs(f.sourceRegion), f.subject != "", SubjectIs(f.subject), r);
    HoldAllWithTwo(c2, f.since.Some?, Since(f.since.GetOr(0)), f.until.Some?, Until(f.until.GetOr(0)), r);
  }

  lemma AppendKeepsInv(s: LogState, e: Event, ioOk: bool)
    requires LogInv(s)
    ensures LogInv(Appended(s, e, ioOk))
  {
    forall i | 0 <= i < |s.rows|
      ensures s.rows[i] in s.rows
    {
    }
  }

  lemma SelectKeepsTable(rows: seq<Row>, p: Row -> bool)
    requires TableInv(rows)
    ensures TableInv(Select(rows, p))
  {
    var at := SelectIndices(rows, p);
  }

  lemma CompactKeepsInv(s: LogState, olderThan: int, keepMin: nat)
    requires LogInv(s)
    ensures LogInv(Compacted(s, olderThan, keepMin))
  {
    SelectKeepsTable(s.rows, Survives(olderThan, MinKeep(s.counter, keepMin)));
  }

  /** In an ascending table the newest row carries the maximum. */
  lemma TopIsLast(rows: seq<Row>)
    requires TableInv(rows) && rows != []
    ensures Top(rows) == rows[|rows| - 1].num
  {
    assert rows[|rows| - 1] in rows;
  }

  /**
   * What a query promises: matching rows in ascending order, none skipped. A matching row is missing only
   * when the answer is full, and then it lies beyond everything returned.
   */
  lemma {:induction false} QueryIsAPrefixOfTheMatches(rows: seq<Row>, f: QueryFilter)
    requires TableInv(rows)
    ensures TableInv(QueryResult(rows, f))
    ensures |QueryResult(rows, f)| <= EffectiveLimit(f.limit)
    ensures forall r :: r in QueryResult(rows, f) ==> r in rows && Admits(f)(r)
    ensures forall r :: r in rows && Admits(f)(r) && r !in QueryResult(rows, f) ==>
        |QueryResult(rows, f)| == EffectiveLimit(f.limit) && Top(QueryResult(rows, f)) < r.num
  {
    var all := Select(rows, Admits(f));
    SelectKeepsTable(rows, Admits(f));
    PrefixLeavesTheLarger(all, EffectiveLimit(f.limit));
  }

  lemma TakeHas(all: seq<Row>, n: nat, i: nat)
    requires i < |all|
    ensures i < |Take(all, n)| ==> all[i] in Take(all, n)
  {
    if i < |Take(all, n)| {
      assert Take(all, n)[i] == all[i];
    }
  }

  lemma PrefixLeavesTheLarger(all: seq<Row>, n: nat)
    requires TableInv(all)
    ensures TableInv(Take(all, n)) && |Take(all, n)| <= n
    ensures forall r :: r in Take(all, n) ==> r in all
    ensures forall r :: r in all && r !in Take(all, n) ==> |Take(all, n)| == n && Top(Take(all, n)) < r.num
  {
    var some := Take(all, n);
    forall r | r in all && r !in some
      ensures |some| == n && Top(some) < r.num
    {
      var i :| 0 <= i < |all| && all[i] == r;
      TakeHas(all, n, i);
      if Top(some) > 0 {
        var t :| t in some && t.num == Top(some);
        var j :| 0 <= j < |some| && some[j] == t;
        assert all[j] == t;
      }
    }
  }
}
