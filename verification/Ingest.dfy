/** The evicting cache of seen ids against the primary key of the log. */
module Ingest {
  import opened EventLog
  import opened Federation

  function EventsOf(rows: seq<Row>): (es: seq<Event>)
    ensures |es| == |rows| && forall i :: 0 <= i < |rows| ==> es[i] == rows[i].event
  {
    seq(|rows|, i requires 0 <= i < |rows| => rows[i].event)
  }

  /** What reaches a node's log: an event from a peer, with what the cache keeps after it, or a local one. */
  datatype Arrival = Synced(event: SyncEvent, kept: set<string>) | Local(event': Event)

  /** Arrivals handled with the cache in front of the log. */
  function Cached(b: Inbox, arrivals: seq<Arrival>): Inbox {
    if arrivals == [] then b
    else
      var before, last := Cached(b, arrivals[..|arrivals| - 1]), arrivals[|arrivals| - 1];
      match last
      case Synced(se, kept) => IngestOne(before, se, kept, true)
      case Local(e) => before.(log := Appended(before.log, e, true))
  }

  /** Arrivals handled by the log alone: every synced event is appended, and the key refuses the known ones. */
  function Uncached(log: LogState, landed: seq<Event>, arrivals: seq<Arrival>): (LogState, seq<Event>) {
    if arrivals == [] then (log, landed)
    else
      var (before, events) := Uncached(log, landed, arrivals[..|arrivals| - 1]);
      match arrivals[|arrivals| - 1]
      case Synced(se, kept) =>
        (Appended(before, FromSync(se), true),
         if Lands(before, FromSync(se), true) then events + [Stamped(before.nodeID, FromSync(se))] else events)
      case Local(e) => (Appended(before, e, true), events)
  }

  ghost predicate EvictionsHonest(b: Inbox, arrivals: seq<Arrival>) {
    forall i :: 0 <= i < |arrivals| && arrivals[i].Synced? ==>
      Evicts(Cached(b, arrivals[..i]).dedup, arrivals[i].event.eventID, arrivals[i].kept)
  }

  /** Same events in the same order; the numbers may differ, since a refused append burns one. */
  ghost predicate SameEvents(a: LogState, b: LogState) {
    a.nodeID == b.nodeID && EventsOf(a.rows) == EventsOf(b.rows)
  }

  lemma SameEventsSameIds(a: LogState, b: LogState)
    requires SameEvents(a, b)
    ensures Ids(a.rows) == Ids(b.rows)
  {
    forall id | id in Ids(a.rows)
      ensures id in Ids(b.rows)
    {
      var i :| 0 <= i < |a.rows| && a.rows[i].event.id == id;
      assert EventsOf(a.rows)[i] == b.rows[i].event;
      assert b.rows[i] in b.rows;
    }
    forall id | id in Ids(b.rows)
      ensures id in Ids(a.rows)
    {
      var i :| 0 <= i < |b.rows| && b.rows[i].event.id == id;
      assert EventsOf(a.rows)[i] == b.rows[i].event;
      assert a.rows[i] in a.rows;
    }
  }

  lemma AppendBoth(a: LogState, b: LogState, e: Event)
    requires SameEvents(a, b)
    ensures SameEvents(Appended(a, e, true), Appended(b, e, true))
    ensures Lands(a, e, true) == Lands(b, e, true)
    ensures Ids(Appended(a, e, true).rows) == Ids(a.rows) + {e.id}
  {
    SameEventsSameIds(a, b);
    var a' := Appended(a, e, true);
    if e.id !in Ids(a.rows) {
      assert EventsOf(a'.rows) == EventsOf(a.rows) + [Stamped(a.nodeID, e)];
      assert EventsOf(Appended(b, e, true).rows) == EventsOf(b.rows) + [Stamped(b.nodeID, e)];
      IdsOfAppend(a.rows, a'.rows[|a.rows|]);
    }
  }

  lemma IdsOfAppend(rows: seq<Row>, r: Row)
    ensures Ids(rows + [r]) == Ids(rows) + {r.event.id}
  {
    assert forall x :: x in rows + [r] <==> x in rows || x == r;
  }

  /**
   * The cache refines the key: over any run of synced and local arrivals, with any honest eviction, the log holds
   * the same events in the same order and the kernel sees the same calls as with no cache at all.
   */
  lemma {:induction false} CacheRefinesPrimaryKey(b: Inbox, arrivals: seq<Arrival>)
    requires b.dedup <= Ids(b.log.rows)
    requires EvictionsHonest(b, arrivals)
    ensures SameEvents(Cached(b, arrivals).log, Uncached(b.log, b.landed, arrivals).0)
    ensures Cached(b, arrivals).landed == Uncached(b.log, b.landed, arrivals).1
    ensures Cached(b, arrivals).dedup <= Ids(Cached(b, arrivals).log.rows)
  {
    if arrivals != [] {
      var n := |arrivals| - 1;
      var front, last := arrivals[..n], arrivals[n];
      assert forall i :: 0 <= i < n ==> front[..i] == arrivals[..i];
      CacheRefinesPrimaryKey(b, front);
      var c, u := Cached(b, front), Uncached(b.log, b.landed, front).0;
      SameEventsSameIds(c.log, u);
      match last
      case Synced(se, kept) =>
        AppendBoth(c.log, u, FromSync(se));
        assert last == arrivals[n] && arrivals[..n] == front;
        assert Evicts(c.dedup, se.eventID, kept);
      case Local(e) =>
        AppendBoth(c.log, u, e);
    }
  }

  ghost predicate GrewByWhatLanded(b: Inbox, x: Inbox) {
    && LogInv(x.log) && x.log.nodeID == b.log.nodeID
    && b.log.rows <= x.log.rows && b.landed <= x.landed
    && EventsOf(x.log.rows) == EventsOf(b.log.rows) + x.landed[|b.landed|..]
  }

  lemma GrewByOneMore(b: Inbox, y: Inbox, se: SyncEvent, kept: set<string>, ioOk: bool)
    requires GrewByWhatLanded(b, y)
    ensures GrewByWhatLanded(b, IngestOne(y, se, kept, ioOk))
  {
    var x := IngestOne(y, se, kept, ioOk);
    AppendKeepsInv(y.log, FromSync(se), ioOk);
    if x.log.rows != y.log.rows {
      var r := x.log.rows[|y.log.rows|];
      assert x.log.rows == y.log.rows + [r] && x.landed == y.landed + [r.event];
      assert EventsOf(x.log.rows) == EventsOf(y.log.rows) + [r.event];
      assert x.landed[|b.landed|..] == y.landed[|b.landed|..] + [r.event];
    } else {
      assert x.landed == y.landed;
    }
  }

  /**
   * Whatever the cache forgets and whichever writes fail, the log grows by exactly the events handed to the kernel:
   * each stored once, handed over once, and counted.
   */
  lemma {:induction false} StoredExactlyWhatLanded(
    b: Inbox, events: seq<SyncEvent>, kept: seq<set<string>>, io: seq<bool>, n: nat)
    requires LogInv(b.log)
    requires n <= |events| && n <= |kept| && n <= |io|
    ensures GrewByWhatLanded(b, Ingested(b, events, kept, io, n))
  {
    if n > 0 {
      StoredExactlyWhatLanded(b, events, kept, io, n - 1);
      GrewByOneMore(b, Ingested(b, events, kept, io, n - 1), events[n - 1], kept[n - 1], io[n - 1]);
    }
  }

  /** The i-th event is new to the cache and its write goes through, or meets the id in the log. */
  ghost predicate WriteWorks(b: Inbox, events: seq<SyncEvent>, kept: seq<set<string>>, io: seq<bool>, i: nat)
    requires i < |events| && i < |kept| && i < |io|
  {
    events[i].eventID !in Ingested(b, events, kept, io, i).dedup && io[i]
  }

  /** The ids of the first n events whose writes work. */
  ghost function Written(b: Inbox, events: seq<SyncEvent>, kept: seq<set<string>>, io: seq<bool>, n: nat): set<string>
    requires n <= |events| && n <= |kept| && n <= |io|
  {
    if n == 0 then {}
    else
      Written(b, events, kept, io, n - 1)
      + if WriteWorks(b, events, kept, io, n - 1) then {events[n - 1].eventID} else {}
  }

  lemma {:induction false} WrittenHas(
    b: Inbox, events: seq<SyncEvent>, kept: seq<set<string>>, io: seq<bool>, n: nat, id: string)
    requires n <= |events| && n <= |kept| && n <= |io|
    ensures id in Written(b, events, kept, io, n) <==>
        exists i :: 0 <= i < n && WriteWorks(b, events, kept, io, i) && events[i].eventID == id
  {
    hide WriteWorks;
    if n > 0 {
      WrittenHas(b, events, kept, io, n - 1, id);
    }
  }

  lemma IdsAfterOne(y: Inbox, se: SyncEvent, kept: set<string>, ioOk: bool)
    ensures Ids(IngestOne(y, se, kept, ioOk).log.rows) ==
            Ids(y.log.rows) + (if se.eventID !in y.dedup && ioOk then {se.eventID} else {})
  {
    var x := IngestOne(y, se, kept, ioOk);
    if x.log.rows != y.log.rows {
      IdsOfAppend(y.log.rows, x.log.rows[|y.log.rows|]);
    }
  }

  /**
   * The log ends up with the ids it had and those of the writes that worked, whatever the cache remembered or forgot.
   */
  lemma {:induction false} IdsAfter(b: Inbox, events: seq<SyncEvent>, kept: seq<set<string>>, io: seq<bool>, n: nat)
    requires n <= |events| && n <= |kept| && n <= |io|
    ensures Ids(Ingested(b, events, kept, io, n).log.rows) == Ids(b.log.rows) + Written(b, events, kept, io, n)
  {
    hide Ids, IngestOne;
    if n > 0 {
      IdsAfter(b, events, kept, io, n - 1);
      IdsAfterOne(Ingested(b, events, kept, io, n - 1), events[n - 1], kept[n - 1], io[n - 1]);
    }
  }

  /** The log lacks the id, and each time it comes in the batch it is remembered as seen or its write fails. */
  ghost predicate Lost(b: Inbox, events: seq<SyncEvent>, kept: seq<set<string>>, io: seq<bool>, id: string)
    requires |events| == |kept| == |io|
  {
    id !in Ids(b.log.rows) && forall i :: 0 <= i < |events| && events[i].eventID == id ==> !WriteWorks(b, events, kept, io, i)
  }

  /** A batch is stored completely if and only if none of its ids is lost, for any cache, batch and failures. */
  lemma BatchStoredIffNoneLost(b: Inbox, events: seq<SyncEvent>, kept: seq<set<string>>, io: seq<bool>)
    requires |events| == |kept| == |io|
    ensures (forall i :: 0 <= i < |events| ==> events[i].eventID in Ids(Ingested(b, events, kept, io, |events|).log.rows))
            <==> (forall i :: 0 <= i < |events| ==> !Lost(b, events, kept, io, events[i].eventID))
  {
    hide Ids, Ingested, WriteWorks;
    IdsAfter(b, events, kept, io, |events|);
    forall i | 0 <= i < |events|
      ensures events[i].eventID in Written(b, events, kept, io, |events|) <==>
          exists j :: 0 <= j < |events| && WriteWorks(b, events, kept, io, j) && events[j].eventID == events[i].eventID
    {
      WrittenHas(b, events, kept, io, |events|, events[i].eventID);
    }
  }

  ghost predicate DistinctIds(events: seq<SyncEvent>) {
    forall i, j :: 0 <= i < j < |events| ==> events[i].eventID != events[j].eventID
  }

  /** At its turn the event is not in the log, and the cache remembers it or its write fails. */
  ghost predicate DroppedAt(b: Inbox, events: seq<SyncEvent>, kept: seq<set<string>>, io: seq<bool>, i: nat)
    requires i < |events| && i < |kept| && i < |io|
  {
    var y := Ingested(b, events, kept, io, i);
    events[i].eventID !in Ids(y.log.rows) && (events[i].eventID in y.dedup || !io[i])
  }

  lemma LostIffDropped(b: Inbox, events: seq<SyncEvent>, kept: seq<set<string>>, io: seq<bool>, i: nat)
    requires |events| == |kept| == |io| && DistinctIds(events) && i < |events|
    ensures Lost(b, events, kept, io, events[i].eventID) <==> DroppedAt(b, events, kept, io, i)
  {
    hide Ids, Ingested;
    IdsAfter(b, events, kept, io, i);
    WrittenHas(b, events, kept, io, i, events[i].eventID);
  }

  /**
   * When no id comes twice: the batch is stored completely if and only if no write failed on an id the log did not have
   * and no id was remembered without being in the log.
   */
  lemma BatchStoredIffNoWriteFailed(b: Inbox, events: seq<SyncEvent>, kept: seq<set<string>>, io: seq<bool>)
    requires |events| == |kept| == |io| && DistinctIds(events)
    ensures (forall i :: 0 <= i < |events| ==> events[i].eventID in Ids(Ingested(b, events, kept, io, |events|).log.rows))
            <==> (forall i :: 0 <= i < |events| ==> !DroppedAt(b, events, kept, io, i))
  {
    hide Ids, Ingested, Lost, DroppedAt, DistinctIds;
    BatchStoredIffNoneLost(b, events, kept, io);
    forall i | 0 <= i < |events|
      ensures Lost(b, events, kept, io, events[i].eventID) <==> DroppedAt(b, events, kept, io, i)
    {
      LostIffDropped(b, events, kept, io, i);
    }
  }

  /** A failed write is not retried: delivering the event again stores it only if the first write succeeded. */
  lemma RedeliveryDoesNotHelp(b: Inbox, se: SyncEvent, kept: set<string>, kept': set<string>, ioOk: bool)
    requires se.eventID !in b.dedup && se.eventID !in Ids(b.log.rows)
    requires Evicts(b.dedup, se.eventID, kept)
    ensures se.eventID in Ids(IngestOne(IngestOne(b, se, kept, ioOk), se, kept', true).log.rows) <==> ioOk
  {
    if ioOk {
      IdsOfAppend(b.log.rows, IngestOne(b, se, kept, ioOk).log.rows[|b.log.rows|]);
    }
  }
}
