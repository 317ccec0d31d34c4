/** One federation manager: peers, event sync, failure detection (internal/federation/manager.go, types.go). */
module Federation {
  import opened Lists
  import opened EventLog

  // ------------------------------------------------------------------ types

  datatype PeerState = Active | Suspected | Partitioned | Decommission | Unknown

  datatype SyncScope = SyncScope(
    eventTypes: seq<string>, regions: seq<string>, transports: seq<string>,
    nodeSubsets: seq<string>, policyDomains: seq<string>, excludeTypes: seq<string>)

  datatype Peer = Peer(
    region: string, state: PeerState, lastSeen: int, lastSyncSeq: nat, trustLevel: int, scope: SyncScope, joinedAt: int)

  datatype SyncEvent = SyncEvent(
    eventID: string, num: nat, kind: string, timestamp: int, clock: nat, sourceNode: string, sourceRegion: string,
    subject: string, data: string)

  datatype SyncRequest = SyncRequest(fromNodeID: string, afterSequence: nat, maxEvents: int, scope: SyncScope)

  datatype SyncResponse = SyncResponse(fromNodeID: string, events: seq<SyncEvent>, lastSequence: nat, hasMore: bool)

  datatype Heartbeat = Heartbeat(
    nodeID: string, region: string, timestamp: int, lastSequenceNum: nat, policyVersion: string)

  datatype ConflictType = DivergentPolicy | SplitBrain

  datatype Conflict = Conflict(kind: ConflictType, detectedAt: int, nodeA: string, nodeB: string)

  datatype SplitBrainPolicy = SplitBrainPolicy(
    restrictAutopilot: bool, requireApproval: bool, maxAutonomousActions: int)

  datatype Config = Config(
    heartbeatIntervalSeconds: int, suspectAfterMissed: int, partitionAfterMissed: int, syncBatchSize: int,
    defaultSyncScope: SyncScope, policy: SplitBrainPolicy)

  const DEDUP_CAP := 100000
  const DEDUP_AGE := 3600
  const NOTIFY_CAP := 64

  // ------------------------------------------------------------------ sync scope

  /** A restriction applies only when listed, and the region and transport ones only when the event has the field. */
  predicate InScope(scope: SyncScope, kind: string, region: string, transport: string) {
    && kind !in scope.excludeTypes
    && (scope.eventTypes != [] ==> kind in scope.eventTypes)
    && (scope.regions != [] && region != "" ==> region in scope.regions)
    && (scope.transports != [] && transport != "" ==> transport in scope.transports)
  }

  function RowInScope(scope: SyncScope): Row -> bool {
    (r: Row) => InScope(scope, r.event.kind, r.event.sourceRegion, r.event.subject)
  }

  method Contains(list: seq<string>, s: string) returns (found: bool)
    ensures found == (s in list)
  {
    found := false;
    for i := 0 to |list|
      invariant s !in list[..i]
    {
      if list[i] == s {
        return true;
      }
    }
  }

  method Matches(scope: SyncScope, kind: string, region: string, transport: string) returns (m: bool)
    ensures m == InScope(scope, kind, region, transport)
  {
    var excluded := Contains(scope.excludeTypes, kind);
    if excluded {
      return false;
    }
    if |scope.eventTypes| > 0 {
      var found := Contains(scope.eventTypes, kind);
      if !found {
        return false;
      }
    }
    if |scope.regions| > 0 && region != "" {
      var found := Contains(scope.regions, region);
      if !found {
        return false;
      }
    }
    if |scope.transports| > 0 && transport != "" {
      var found := Contains(scope.transports, transport);
      if !found {
        return false;
      }
    }
    return true;
  }

  // ------------------------------------------------------------------ serving and ingesting

  function ToSync(r: Row): SyncEvent {
    SyncEvent(r.event.id, r.num, r.event.kind, r.event.timestamp, r.event.clock, r.event.sourceNode,
              r.event.sourceRegion, r.event.subject, r.event.data)
  }

  function ToSyncAll(rows: seq<Row>): (s: seq<SyncEvent>)
    ensures |s| == |rows| && forall i :: 0 <= i < |rows| ==> s[i] == ToSync(rows[i])
  {
    if rows == [] then [] else ToSyncAll(rows[..|rows| - 1]) + [ToSync(rows[|rows| - 1])]
  }

  /** Metadata, policy version and causal parent do not travel. */
  function FromSync(s: SyncEvent): Event {
    Event(s.eventID, s.kind, s.timestamp, s.clock, s.sourceNode, s.sourceRegion, s.subject, s.data, map[], "", "")
  }

  function BatchSize(batch: nat, requested: int): nat {
    if 0 < requested < batch then requested else batch
  }

  function AfterFilter(after: nat, limit: int): QueryFilter {
    QueryFilter(after, 0, [], "", "", "", None, None, limit)
  }

  function RowsAfter(rows: seq<Row>, after: nat): seq<Row> {
    Select(rows, Admits(AfterFilter(after, 0)))
  }

  /** The next rows a server looks at; the limit of a query caps the batch. */
  function Window(rows: seq<Row>, batch: nat, req: SyncRequest): seq<Row> {
    var n := BatchSize(batch, req.maxEvents);
    Take(RowsAfter(rows, req.afterSequence), if n < LIMIT_CAP then n else LIMIT_CAP)
  }

  function Served(rows: seq<Row>, batch: nat, req: SyncRequest): seq<Row> {
    Select(Window(rows, batch, req), RowInScope(req.scope))
  }

  lemma LimitDoesNotMatter(rows: seq<Row>, after: nat, limit: int)
    ensures Select(rows, Admits(AfterFilter(after, limit))) == RowsAfter(rows, after)
  {
    SelectSame(rows, Admits(AfterFilter(after, limit)), Admits(AfterFilter(after, 0)));
  }

  /** Asking for one row more than the batch, and dropping it, gives the window and says whether rows remain. */
  lemma WindowByQuery(rows: seq<Row>, batch: nat, req: SyncRequest, n: nat)
    requires n == BatchSize(batch, req.maxEvents)
    ensures var q := QueryResult(rows, AfterFilter(req.afterSequence, n + 1));
            && Window(rows, batch, req) == (if |q| > n then q[..n] else q)
            && (|q| > n <==> |RowsAfter(rows, req.afterSequence)| > n && n < LIMIT_CAP)
  {
    LimitDoesNotMatter(rows, req.afterSequence, n + 1);
  }

  method FilterByScope(events: seq<Row>, scope: SyncScope) returns (filtered: seq<Row>)
    ensures filtered == Select(events, RowInScope(scope))
  {
    filtered := [];
    for i := 0 to |events|
      invariant filtered == Select(events[..i], RowInScope(scope))
    {
      var m := Matches(scope, events[i].event.kind, events[i].event.sourceRegion, events[i].event.subject);
      SelectSnoc(events, i, RowInScope(scope));
      if m {
        filtered := filtered + [events[i]];
      }
    }
    assert events[..|events|] == events;
  }

  /** What an ingest works on: the log, the remembered ids, and the events handed to the kernel so far. */
  datatype Inbox = Inbox(log: LogState, dedup: set<string>, landed: seq<Event>)

  predicate Lands(log: LogState, e: Event, ioOk: bool) {
    ioOk && e.id !in Ids(log.rows)
  }

  /** Log, cache and stored event after one event: a remembered id is skipped, any other is appended. */
  datatype Outcome = Outcome(log: LogState, dedup: set<string>, stored: Option<Event>)

  function Step(log: LogState, dedup: set<string>, se: SyncEvent, kept: set<string>, ioOk: bool): Outcome {
    if se.eventID in dedup then Outcome(log, dedup, None)
    else
      var e := FromSync(se);
      Outcome(Appended(log, e, ioOk), kept, if Lands(log, e, ioOk) then Some(Stamped(log.nodeID, e)) else None)
  }

  function IngestOne(b: Inbox, se: SyncEvent, kept: set<string>, ioOk: bool): Inbox {
    var o := Step(b.log, b.dedup, se, kept, ioOk);
    Inbox(o.log, o.dedup, b.landed + OneOrNone(o.stored))
  }

  /** The first `n` events of a batch, with what the cache kept after each and which writes succeeded. */
  function Ingested(b: Inbox, events: seq<SyncEvent>, kept: seq<set<string>>, io: seq<bool>, n: nat): Inbox
    requires n <= |events| && n <= |kept| && n <= |io|
  {
    if n == 0 then b else IngestOne(Ingested(b, events, kept, io, n - 1), events[n - 1], kept[n - 1], io[n - 1])
  }

  /** Eviction only forgets, and never the id just marked. */
  predicate Evicts(before: set<string>, id: string, kept: set<string>) {
    id in kept && kept <= before + {id}
  }

  ghost predicate EvictsThroughout(b: Inbox, events: seq<SyncEvent>, kept: seq<set<string>>, io: seq<bool>, n: nat)
    requires n <= |events| && n <= |kept| && n <= |io|
  {
    forall i :: 0 <= i < n && events[i].eventID !in Ingested(b, events, kept, io, i).dedup ==>
      Evicts(Ingested(b, events, kept, io, i).dedup, events[i].eventID, kept[i])
  }

  lemma {:induction false} IngestedExtends(
    b: Inbox, events: seq<SyncEvent>, kept: seq<set<string>>, io: seq<bool>,
    kept': seq<set<string>>, n: nat)
    requires n <= |events| && n <= |kept| && n <= |io| && kept <= kept'
    ensures Ingested(b, events, kept, io, n) == Ingested(b, events, kept', io, n)
  {
    if n > 0 {
      IngestedExtends(b, events, kept, io, kept', n - 1);
    }
  }

  // ------------------------------------------------------------------ failure detection

  /** The mutable part of the manager the detector works on. */
  datatype Detector = Detector(peers: map<string, Peer>, splitBrain: bool, actions: nat, conflicts: seq<Conflict>)

  function Interval(cfg: Config): int {
    if cfg.heartbeatIntervalSeconds == 0 then 30 else cfg.heartbeatIntervalSeconds
  }

  function SuspectThreshold(cfg: Config): int {
    Interval(cfg) * cfg.suspectAfterMissed
  }

  function PartitionThreshold(cfg: Config): int {
    Interval(cfg) * cfg.partitionAfterMissed
  }

  function Aged(cfg: Config, now: int, p: Peer): Peer {
    if p.state.Decommission? then p
    else if now - p.lastSeen > PartitionThreshold(cfg) then p.(state := Partitioned)
    else if now - p.lastSeen > SuspectThreshold(cfg) && p.state.Active? then p.(state := Suspected)
    else p
  }

  function AgedPeers(cfg: Config, now: int, peers: map<string, Peer>): (aged: map<string, Peer>)
    ensures aged.Keys == peers.Keys
  {
    map id | id in peers :: Aged(cfg, now, peers[id])
  }

  function PartitionedIds(peers: map<string, Peer>): set<string> {
    set id | id in peers && peers[id].state.Partitioned?
  }

  predicate Majority(peers: map<string, Peer>) {
    2 * |PartitionedIds(peers)| > |peers|
  }

  function Checked(cfg: Config, nodeID: string, now: int, d: Detector): Detector {
    var peers := AgedPeers(cfg, now, d.peers);
    if Majority(peers) && !d.splitBrain
    then Detector(peers, true, 0, d.conflicts + [Conflict(SplitBrain, now, nodeID, "multiple")])
    else d.(peers := peers, splitBrain := Majority(peers))
  }

  function Known(cfg: Config, now: int, d: Detector, hb: Heartbeat): Peer {
    if hb.nodeID in d.peers then d.peers[hb.nodeID]
    else Peer(hb.region, Active, 0, 0, 1, cfg.defaultSyncScope, now)
  }

  function Heard(
    cfg: Config, nodeID: string, kernelPolicy: Option<string>, now: int, d: Detector, hb: Heartbeat): Detector {
    var p := Known(cfg, now, d, hb).(lastSeen := hb.timestamp, state := Active);
    var diverges := kernelPolicy.Some? && kernelPolicy.value != "" && hb.policyVersion != ""
                    && kernelPolicy.value != hb.policyVersion;
    d.(peers := d.peers[hb.nodeID := p],
       conflicts := if diverges then d.conflicts + [Conflict(DivergentPolicy, now, nodeID, hb.nodeID)] else d.conflicts)
  }

  predicate MayExecute(policy: SplitBrainPolicy, d: Detector) {
    !d.splitBrain
    || (!policy.requireApproval && !(policy.restrictAutopilot && d.actions >= policy.maxAutonomousActions))
  }

  /** The loop body of CheckPartitions for one peer; `counted` says whether it adds to the partitioned count. */
  method AgePeer(cfg: Config, now: int, p: Peer) returns (aged: Peer, counted: bool)
    ensures aged == Aged(cfg, now, p)
    ensures counted == aged.state.Partitioned?
  {
    var heartbeatInterval := cfg.heartbeatIntervalSeconds;
    if heartbeatInterval == 0 {
      heartbeatInterval := 30;
    }
    aged, counted := p, false;
    if p.state.Decommission? {
      return;
    }
    var sinceSeen := now - p.lastSeen;
    var suspectThreshold := heartbeatInterval * cfg.suspectAfterMissed;
    var partitionThreshold := heartbeatInterval * cfg.partitionAfterMissed;
    if sinceSeen > partitionThreshold && !p.state.Partitioned? {
      aged, counted := p.(state := Partitioned), true;
    } else if sinceSeen > suspectThreshold && p.state.Active? {
      aged := p.(state := Suspected);
    } else if p.state.Partitioned? {
      counted := true;
    }
  }

  ghost function Only(m: map<string, Peer>, keys: set<string>): map<string, Peer>
    requires keys <= m.Keys
  {
    map k | k in keys :: m[k]
  }

  lemma OneLess(source: map<string, Peer>, target: map<string, Peer>, todo: set<string>, id: string)
    requires source.Keys == target.Keys && todo <= source.Keys && id in todo
    ensures (target + Only(source, todo))[id] == source[id]
    ensures (target + Only(source, todo))[id := target[id]] == target + Only(source, todo - {id})
  {
  }

  lemma NoneLeft(source: map<string, Peer>, target: map<string, Peer>)
    requires source.Keys == target.Keys
    ensures target + Only(source, {}) == target
    ensures target + Only(source, source.Keys) == source
  {
  }

  lemma CountOneMore(counted: set<string>, todo: set<string>, id: string)
    requires id in todo
    ensures |counted - (todo - {id})| == |counted - todo| + (if id in counted then 1 else 0)
  {
    assert counted - (todo - {id}) == (counted - todo) + (if id in counted then {id} else {});
  }

  function Recent(seen: map<string, int>, since: int): set<string> {
    set id | id in seen && since <= seen[id]
  }

  /**
   * All of the recent ids are kept while they are no more than the cap. Beyond it one at most is forgotten, and one is,
   * if any was marked before now and none is the empty string.
   */
  ghost predicate OneForgotten(seen: map<string, int>, recent: set<string>, kept: set<string>, now: int)
    requires recent <= seen.Keys
  {
    && kept <= recent
    && (|recent| <= 100000 ==> kept == recent)
    && (forall j, k :: j in recent - kept && k in recent - kept ==> j == k)
    && (|recent| > 100000 && "" !in recent && (exists k :: k in recent && seen[k] < now) ==> kept != recent)
  }

  // ------------------------------------------------------------------ the object

  class Manager {
    const config: Config
    const nodeID: string
    const evtLog: Log?
    var kernelPolicy: Option<string>   // None when the manager runs without a kernel
    var applied: seq<Event>            // events handed to kernel.Apply
    var peers: map<string, Peer>
    var conflicts: seq<Conflict>
    var dedup: map<string, int>
    var pushQueue: seq<string>
    var splitBrainDetected: bool
    var autonomousActionCount: nat

    ghost predicate Valid()
      reads this, evtLog
    {
      config.syncBatchSize >= 1 && (evtLog != null ==> evtLog.Valid())
    }

    function Det(): Detector
      reads this
    {
      Detector(peers, splitBrainDetected, autonomousActionCount, conflicts)
    }

    function Box(): Inbox
      requires evtLog != null
      reads this, evtLog
    {
      Inbox(evtLog.State(), dedup.Keys, applied)
    }

    constructor (config: Config, nodeID: string, evtLog: Log?, kernelPolicy: Option<string>, peers: map<string, Peer>)
      requires config.syncBatchSize >= 1 && (evtLog != null ==> evtLog.Valid())
      ensures Valid()
      ensures this.config == config && this.nodeID == nodeID && this.evtLog == evtLog &&
        this.kernelPolicy == kernelPolicy
      ensures Det() == Detector(peers, false, 0, []) && dedup == map[] && applied == [] && pushQueue == []
    {
      this.config, this.nodeID, this.evtLog, this.kernelPolicy := config, nodeID, evtLog, kernelPolicy;
      this.peers, conflicts, splitBrainDetected, autonomousActionCount := peers, [], false, 0;
      dedup, applied, pushQueue := map[], [], [];
    }

    /**
     * Registers a peer, with its state if one is given; a manager never lists itself. A peer that cannot be persisted
     * stays registered.
     */
    method AddPeer(id: string, peer: Peer, state: Option<PeerState>, now: int, persistOk: bool) returns (ok: bool)
      modifies this`peers
      ensures ok <==> id != nodeID && persistOk
      ensures peers == if id == nodeID then old(peers)
                       else old(peers)[id := peer.(joinedAt := now, state := state.GetOr(Unknown))]
    {
      if id == nodeID {
        return false;
      }
      var added := peer.(joinedAt := now);
      if state.None? {
        added := added.(state := Unknown);
      } else {
        added := added.(state := state.value);
      }
      peers := peers[id := added];
      ok := persistOk;
    }

    method ProcessHeartbeat(hb: Heartbeat, now: int)
      modifies this
      ensures Det() == Heard(config, nodeID, kernelPolicy, now, old(Det()), hb)
      ensures pushQueue == old(pushQueue) + (if hb.lastSequenceNum > Known(config, now, old(Det()), hb).lastSyncSeq
                                               && |old(pushQueue)| < 64 then [hb.nodeID] else [])
      ensures dedup == old(dedup) && applied == old(applied) && kernelPolicy == old(kernelPolicy)
    {
      if hb.nodeID !in peers {
        peers := peers[hb.nodeID := Peer(hb.region, Active, 0, 0, 1, config.defaultSyncScope, now)];
      }
      var peer := peers[hb.nodeID];
      peers := peers[hb.nodeID := peer.(lastSeen := hb.timestamp, state := Active)];
      if hb.lastSequenceNum > peer.lastSyncSeq && |pushQueue| < NOTIFY_CAP {
        pushQueue := pushQueue + [hb.nodeID];
      }
      if kernelPolicy.Some? {
        if kernelPolicy.value != "" && hb.policyVersion != "" && kernelPolicy.value != hb.policyVersion {
          conflicts := conflicts + [Conflict(DivergentPolicy, now, nodeID, hb.nodeID)];
        }
      }
    }

    /** Answers a pull: the next window of the log after the cursor, filtered by the requester's scope. */
    method HandleSyncRequest(req: SyncRequest, queryOk: bool) returns (resp: Option<SyncResponse>)
      requires Valid()
      modifies evtLog
      ensures Valid() && (evtLog != null ==> evtLog.State() == old(evtLog.State()))
      ensures resp.Some? <==> evtLog != null && req.fromNodeID in peers && peers[req.fromNodeID].trustLevel >= 1 && queryOk
      ensures resp.Some? ==>
          && resp.value.events == ToSyncAll(Served(evtLog.rows, config.syncBatchSize, req))
          && resp.value.fromNodeID == nodeID
          && (resp.value.hasMore <==> |RowsAfter(evtLog.rows, req.afterSequence)| > BatchSize(config.syncBatchSize, req.maxEvents)
                                      && BatchSize(config.syncBatchSize, req.maxEvents) < LIMIT_CAP)
          && resp.value.lastSequence == if resp.value.events == [] then 0
                                        else resp.value.events[|resp.value.events| - 1].num
    {
      if evtLog == null || req.fromNodeID !in peers || peers[req.fromNodeID].trustLevel < 1 {
        return None;
      }
      var maxEvents := config.syncBatchSize;
      if req.maxEvents > 0 && req.maxEvents < maxEvents {
        maxEvents := req.maxEvents;
      }
      var answer := evtLog.Query(AfterFilter(req.afterSequence, maxEvents + 1), queryOk);
      if answer.None? {
        return None;
      }
      var events := answer.value;
      var hasMore := |events| > maxEvents;
      if hasMore {
        events := events[..maxEvents];
      }
      WindowByQuery(evtLog.rows, config.syncBatchSize, req, maxEvents);
      var filtered := FilterByScope(events, req.scope);
      var lastSeq := 0;
      if |filtered| > 0 {
        lastSeq := filtered[|filtered| - 1].num;
      }
      resp := Some(SyncResponse(nodeID, ToSyncAll(filtered), lastSeq, hasMore));
    }

    /** Marks an id as seen, then evicts: everything older than an hour, and if still over the cap the oldest. */
    method Remember(id: string, now: int)
      modifies this`dedup
      ensures Evicts(old(dedup).Keys, id, dedup.Keys)
      ensures forall k :: k in dedup ==> dedup[k] == old(dedup)[id := now][k]
      ensures |old(dedup)[id := now]| <= 100000 ==> dedup == old(dedup)[id := now]
      ensures |old(dedup)[id := now]| > 100000 ==>
          (forall k :: k in dedup ==> now - 3600 <= dedup[k])
      ensures |old(dedup)[id := now]| > 100000 ==>
          OneForgotten(old(dedup)[id := now], Recent(old(dedup)[id := now], now - 3600), dedup.Keys, now)
      ensures forall k :: k in old(dedup)[id := now] && k !in dedup ==>
          && old(dedup)[id := now][k] < now
          && (now - 3600 <= old(dedup)[id := now][k] ==> forall j :: j in dedup ==> old(dedup)[id := now][k] <= dedup[j])
    {
      dedup := dedup[id := now];
      if |dedup| > DEDUP_CAP {
        ghost var full := dedup;
        var cutoff := now - DEDUP_AGE;
        var todo := dedup.Keys;
        while todo != {}
          invariant todo <= full.Keys
          invariant dedup.Keys <= full.Keys && forall k :: k in dedup ==> dedup[k] == full[k]
          invariant forall k :: k in full ==> (k in dedup <==> (k in todo || cutoff <= full[k]))
          decreases todo
        {
          var k :| k in todo;
          todo := todo - {k};
          if dedup[k] < cutoff {
            dedup := dedup - {k};
          }
        }
        ghost var recent := dedup.Keys;
        assert recent == Recent(full, cutoff);
        if |dedup| > DEDUP_CAP {
          var oldest, oldestKey := now, "";
          todo := dedup.Keys;
          while todo != {}
            invariant todo <= dedup.Keys && oldest <= now
            invariant oldest < now ==> oldestKey in dedup && dedup[oldestKey] == oldest
            invariant oldest == now ==> oldestKey == ""
            invariant forall k :: k in dedup && k !in todo ==> oldest <= dedup[k]
            decreases todo
          {
            var k :| k in todo;
            todo := todo - {k};
            if dedup[k] < oldest {
              oldest, oldestKey := dedup[k], k;
            }
          }
          if oldestKey != "" {
            dedup := dedup - {oldestKey};
          }
        }
      }
    }

    /** One turn of the ingest loop; `landed` says whether the event was stored. */
    method IngestEvent(se: SyncEvent, now: int, ioOk: bool) returns (landed: Option<Event>)
      requires Valid() && evtLog != null
      modifies this`dedup, this`applied, evtLog
      ensures Valid()
      ensures se.eventID !in old(dedup) ==> Evicts(old(dedup).Keys, se.eventID, dedup.Keys)
      ensures Outcome(evtLog.State(), dedup.Keys, landed) == Step(old(evtLog.State()), old(dedup).Keys, se, dedup.Keys, ioOk)
      ensures applied == old(applied) + (if kernelPolicy.Some? then OneOrNone(landed) else [])
    {
      if se.eventID in dedup {
        return None;
      }
      Remember(se.eventID, now);
      var seqNum, stamped := evtLog.Append(FromSync(se), ioOk);
      if seqNum.None? {
        return None;
      }
      if kernelPolicy.Some? {
        applied := applied + [stamped];
      }
      landed := Some(stamped);
    }

    /** The ingest loop over one batch; returns the number of events stored. */
    method IngestAll(
      events: seq<SyncEvent>, clock: seq<int>, io: seq<bool>) returns (n: nat, ghost kept: seq<set<string>>)
      requires Valid() && evtLog != null
      requires |clock| == |io| == |events|
      modifies this`dedup, this`applied, evtLog
      ensures Valid() && |kept| == |events|
      ensures EvictsThroughout(old(Box()), events, kept, io, |events|)
      ensures var b := Ingested(old(Box()), events, kept, io, |events|);
          && evtLog.State() == b.log && dedup.Keys == b.dedup
          && |b.landed| == |old(applied)| + n
          && applied == (if kernelPolicy.Some? then b.landed else old(applied))
    {
      hide Step, Evicts, Ingested, EvictsThroughout;
      kept, n := [], 0;
      ghost var box := Box();
      NothingIngested(box, events, kept, io);
      ghost var landed := applied;
      for i := 0 to |events|
        invariant Valid() && |kept| == i
        invariant Inbox(evtLog.State(), dedup.Keys, landed) == Ingested(box, events, kept, io, i)
        invariant EvictsThroughout(box, events, kept, io, i)
        invariant |landed| == |old(applied)| + n
        invariant applied == if kernelPolicy.Some? then landed else old(applied)
      {
        ghost var before := kept;
        var stored := IngestEvent(events[i], clock[i], io[i]);
        kept := kept + [dedup.Keys];
        landed := landed + OneOrNone(stored);
        if stored.Some? {
          n := n + 1;
        }
        KeptGrows(box, events, before, io, kept, i);
      }
    }

    /** Stores the events a peer sent, skipping known ids, and moves that peer's cursor to the last one. */
    method IngestSyncedEvents(fromNodeID: string, events: seq<SyncEvent>, clock: seq<int>, io: seq<bool>)
      returns (ingested: Option<nat>, ghost kept: seq<set<string>>)
      requires Valid()
      requires |clock| == |io| == |events|
      modifies this, evtLog
      ensures Valid()
      ensures ingested.Some? <==> evtLog != null && fromNodeID in old(peers)
      ensures ingested.None? ==> Det() == old(Det()) && dedup == old(dedup) && applied == old(applied)
      ensures ingested.None? && evtLog != null ==> evtLog.State() == old(evtLog.State())
      ensures ingested.Some? ==> |kept| == |events| && EvictsThroughout(old(Box()), events, kept, io, |events|)
      ensures ingested.Some? ==>
          var b := Ingested(old(Box()), events, kept, io, |events|);
          && evtLog.State() == b.log && dedup.Keys == b.dedup
          && |b.landed| == |old(applied)| + ingested.value
          && applied == (if kernelPolicy.Some? then b.landed else old(applied))
      ensures ingested.Some? && events != [] ==>
          peers == old(peers)[fromNodeID := old(peers)[fromNodeID].(lastSyncSeq := events[|events| - 1].num)]
      ensures events == [] ==> peers == old(peers)
      ensures Det() == old(Det()).(peers := peers) && kernelPolicy == old(kernelPolicy) && pushQueue == old(pushQueue)
    {
      kept := [];
      if evtLog == null || fromNodeID !in peers {
        return None, kept;
      }
      var n;
      n, kept := IngestAll(events, clock, io);
      if |events| > 0 {
        peers := peers[fromNodeID := peers[fromNodeID].(lastSyncSeq := events[|events| - 1].num)];
      }
      ingested := Some(n);
    }

    /** Pulls once from a peer: request after the cursor, answer, ingest. An empty or failed answer changes nothing. */
    method PullFromSinglePeer(peer: string, server: Manager, delivered: bool, now: int, writes: nat -> bool)
      returns (ghost kept: seq<set<string>>)
      requires Valid() && server.Valid() && evtLog != null && server != this && server.evtLog != evtLog
      requires peer in peers
      modifies this, evtLog, server.evtLog
      ensures Valid() && server.Valid()
      ensures server.evtLog != null ==> server.evtLog.State() == old(server.evtLog.State())
      ensures
          var req := SyncRequest(nodeID, old(peers)[peer].lastSyncSeq, config.syncBatchSize, old(peers)[peer].scope);
          var answered := delivered && server.evtLog != null && nodeID in server.peers
                          && server.peers[nodeID].trustLevel >= 1;
          if answered && Served(old(server.evtLog.rows), server.config.syncBatchSize, req) != [] then
            var events := ToSyncAll(Served(old(server.evtLog.rows), server.config.syncBatchSize, req));
            && |kept| == |events|
            && var io := seq(|events|, writes);
               var b := Ingested(old(Box()), events, kept, io, |events|);
            && EvictsThroughout(old(Box()), events, kept, io, |events|)
            && evtLog.State() == b.log && dedup.Keys == b.dedup
            && peers == old(peers)[peer := old(peers)[peer].(lastSyncSeq := events[|events| - 1].num)]
          else
            evtLog.State() == old(evtLog.State()) && dedup == old(dedup) && peers == old(peers)
    {
      kept := [];
      var req := SyncRequest(nodeID, peers[peer].lastSyncSeq, config.syncBatchSize, peers[peer].scope);
      if !delivered {
        return;
      }
      var resp := server.HandleSyncRequest(req, true);
      if resp.None? {
        return;
      }
      var events := resp.value.events;
      if |events| > 0 {
        var n;
        n, kept := IngestSyncedEvents(peer, events, seq(|events|, i => now), seq(|events|, writes));
      }
    }

    /** The loop over the peers: marks the silent ones and counts the partitioned. */
    method AgePeers(now: int) returns (partitionedCount: nat)
      modifies this`peers
      ensures peers == AgedPeers(config, now, old(peers))
      ensures partitionedCount == |PartitionedIds(peers)|
    {
      hide Only, Aged;
      partitionedCount := 0;
      ghost var source, target := peers, AgedPeers(config, now, peers);
      var todo := peers.Keys;
      NoneLeft(source, target);
      while todo != {}
        invariant todo <= source.Keys
        invariant peers == target + Only(source, todo)
        invariant partitionedCount == |PartitionedIds(target) - todo|
        decreases todo
      {
        var id :| id in todo;
        var left := todo - {id};
        CountOneMore(PartitionedIds(target), todo, id);
        OneLess(source, target, todo, id);
        var aged, counted := AgePeer(config, now, peers[id]);
        peers := peers[id := aged];
        if counted {
          partitionedCount := partitionedCount + 1;
        }
        todo := left;
      }
      NoneLeft(source, target);
      assert PartitionedIds(target) - {} == PartitionedIds(target);
    }

    /** Ages every peer and raises or clears the split-brain flag. */
    method CheckPartitions(now: int) returns (newConflicts: seq<Conflict>)
      modifies this
      ensures Det() == Checked(config, nodeID, now, old(Det()))
      ensures conflicts == old(conflicts) + newConflicts
      ensures dedup == old(dedup) && applied == old(applied) && kernelPolicy == old(kernelPolicy) &&
        pushQueue == old(pushQueue)
    {
      newConflicts := [];
      var partitionedCount := AgePeers(now);
      var totalPeers := |peers|;
      if totalPeers > 0 && partitionedCount > totalPeers / 2 {
        if !splitBrainDetected {
          splitBrainDetected := true;
          autonomousActionCount := 0;
          var conflict := Conflict(SplitBrain, now, nodeID, "multiple");
          newConflicts := newConflicts + [conflict];
          conflicts := conflicts + [conflict];
        }
      } else if splitBrainDetected && partitionedCount <= totalPeers / 2 {
        splitBrainDetected := false;
      }
    }

    method CanExecuteAutonomously() returns (may: bool)
      ensures may == MayExecute(config.policy, Det())
    {
      if !splitBrainDetected {
        return true;
      }
      if config.policy.requireApproval {
        return false;
      }
      if config.policy.restrictAutopilot && autonomousActionCount >= config.policy.maxAutonomousActions {
        return false;
      }
      return true;
    }

    method RecordAutonomousAction()
      modifies this`autonomousActionCount
      ensures Det() == old(Det()).(actions := old(autonomousActionCount) + 1)
    {
      autonomousActionCount := autonomousActionCount + 1;
    }
  }

  lemma NothingIngested(b: Inbox, events: seq<SyncEvent>, kept: seq<set<string>>, io: seq<bool>)
    ensures Ingested(b, events, kept, io, 0) == b && EvictsThroughout(b, events, kept, io, 0)
  {
  }

  lemma KeptGrows(
    b: Inbox, events: seq<SyncEvent>, kept: seq<set<string>>, io: seq<bool>, kept': seq<set<string>>, n: nat)
    requires n < |events| && n == |kept| && n < |io| && |kept'| == n + 1 && kept <= kept'
    requires EvictsThroughout(b, events, kept, io, n)
    requires events[n].eventID !in Ingested(b, events, kept, io, n).dedup ==>
        Evicts(Ingested(b, events, kept, io, n).dedup, events[n].eventID, kept'[n])
    ensures Ingested(b, events, kept, io, n) == Ingested(b, events, kept', io, n)
    ensures EvictsThroughout(b, events, kept', io, n + 1)
    ensures Ingested(b, events, kept', io, n + 1) == IngestOne(Ingested(b, events, kept, io, n), events[n], kept'[n], io[n])
  {
    hide IngestOne, Evicts;
    forall i | 0 <= i <= n
      ensures Ingested(b, events, kept, io, i) == Ingested(b, events, kept', io, i)
    {
      IngestedExtends(b, events, kept, io, kept', i);
    }
  }
}
