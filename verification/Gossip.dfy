/**
 * Any number of instances pulling from each other. A pull is not atomic: it reads its cursor, is answered, marks and
 * stores events one at a time, and finally moves the cursor, and every other pull, append, eviction, compaction or
 * restart may happen in between.
 */
module Gossip {
  import opened Lists
  import opened EventLog
  import opened Federation
  import CatchUp

  /**
   * An instance. `stored` and `handed` are history: every id its log ever accepted, and every (peer, id) given to
   * IngestSyncedEvents since the process started.
   */
  datatype Node = Node(
    log: LogState, dedup: set<string>, peers: map<string, Peer>, batch: nat,
    stored: set<string>, handed: set<(string, string)>)

  datatype Phase =
    | Requested(after: nat)
    | Ingesting(events: seq<SyncEvent>, next: nat, marked: bool)

  datatype Pull = Pull(puller: string, server: string, phase: Phase)

  /** `origin` is history: for each id, what instances themselves appended under it, as far as it travels. */
  datatype World = World(nodes: map<string, Node>, pulls: map<nat, Pull>, origin: map<string, set<Event>>)

  datatype Step =
    | LocalAppend(n: string, event: Event, ioOk: bool)
    | Compaction(n: string, olderThan: int, keepMin: nat)
    | Eviction(n: string, gone: set<string>)
    | Discover(n: string, peer: string, link: Peer)
    | Restart(n: string)
    | Start(pid: nat, puller: string, server: string)
    | Serve(pid: nat)
    | Lose(pid: nat)
    | Mark(pid: nat)
    | Store(pid: nat, ioOk: bool)
    | Finish(pid: nat)

  // ------------------------------------------------------------------ the steps

  /** The part of an event that travels. */
  function Payload(e: Event): Event {
    e.(metadata := map[], policyVersion := "", causalParent := "")
  }

  /** The server knows the puller and trusts it at least for reading. */
  predicate Answers(server: Node, puller: string) {
    puller in server.peers && server.peers[puller].trustLevel >= 1
  }

  /** The number up to which a pull will move the cursor, or has read it. */
  function Reach(pull: Pull): nat {
    match pull.phase
    case Requested(after) => after
    case Ingesting(events, next, marked) => if events == [] then 0 else events[|events| - 1].num
  }

  /** No peer's cursor or open pull lies above the newest live row, so recovery of the counter cannot undercut it. */
  ghost predicate SafeToRestart(w: World, n: string)
    requires n in w.nodes
  {
    && (forall p :: p in w.nodes && n in w.nodes[p].peers ==> w.nodes[p].peers[n].lastSyncSeq <= Top(w.nodes[n].log.rows))
    && (forall pid :: pid in w.pulls && w.pulls[pid].server == n ==> Reach(w.pulls[pid]) <= Top(w.nodes[n].log.rows))
  }

  ghost predicate Linked(w: World, p: string, s: string) {
    p in w.nodes && s in w.nodes && s in w.nodes[p].peers
  }

  ghost predicate InFlight(w: World, pid: nat) {
    pid in w.pulls && Linked(w, w.pulls[pid].puller, w.pulls[pid].server)
  }

  ghost predicate CanServe(w: World, pid: nat) {
    InFlight(w, pid) && w.pulls[pid].phase.Requested?
  }

  ghost predicate CanMark(w: World, pid: nat) {
    InFlight(w, pid) && var ph := w.pulls[pid].phase; ph.Ingesting? && !ph.marked && ph.next < |ph.events|
  }

  ghost predicate CanStore(w: World, pid: nat) {
    InFlight(w, pid) && var ph := w.pulls[pid].phase; ph.Ingesting? && ph.marked && ph.next < |ph.events|
  }

  ghost predicate CanFinish(w: World, pid: nat) {
    InFlight(w, pid) && var ph := w.pulls[pid].phase; ph.Ingesting? && ph.events != [] && ph.next == |ph.events|
  }

  ghost predicate Enabled(w: World, step: Step) {
    match step
    case LocalAppend(n, e, ioOk) => n in w.nodes
    case Compaction(n, olderThan, keepMin) => n in w.nodes
    case Eviction(n, gone) => n in w.nodes
    case Discover(n, peer, link) => n in w.nodes && peer !in w.nodes[n].peers && link.lastSyncSeq == 0
    case Restart(n) => n in w.nodes && SafeToRestart(w, n)
    case Start(pid, p, s) => pid !in w.pulls && Linked(w, p, s) && w.nodes[p].peers[s].trustLevel >= 1
    case Serve(pid) => CanServe(w, pid) && Answers(w.nodes[w.pulls[pid].server], w.pulls[pid].puller)
    case Lose(pid) => CanServe(w, pid)
    case Mark(pid) => CanMark(w, pid)
    case Store(pid, ioOk) => CanStore(w, pid)
    case Finish(pid) => CanFinish(w, pid)
  }

  function Forgotten(peers: map<string, Peer>): map<string, Peer> {
    map s | s in peers :: peers[s].(lastSyncSeq := 0)
  }

  ghost function Answer(w: World, pull: Pull): seq<SyncEvent>
    requires Linked(w, pull.puller, pull.server) && pull.phase.Requested?
  {
    var p, s := w.nodes[pull.puller], w.nodes[pull.server];
    ToSyncAll(Served(s.log.rows, s.batch, SyncRequest(pull.puller, pull.phase.after, p.batch, p.peers[pull.server].scope)))
  }

  function IdsOf(server: string, events: seq<SyncEvent>): set<(string, string)> {
    set e | e in events :: (server, e.eventID)
  }

  function OriginsOf(w: World, id: string): set<Event> {
    if id in w.origin then w.origin[id] else {}
  }

  ghost function DoAppend(w: World, n: string, e: Event, ioOk: bool): World
    requires n in w.nodes
  {
    var node := w.nodes[n];
    var lands := Lands(node.log, e, ioOk);
    var stored := if lands then node.stored + {e.id} else node.stored;
    w.(nodes := w.nodes[n := node.(log := Appended(node.log, e, ioOk), stored := stored)],
       origin := if lands then w.origin[e.id := OriginsOf(w, e.id) + {Payload(Stamped(node.log.nodeID, e))}] else w.origin)
  }

  ghost function DoRestart(w: World, n: string): World
    requires n in w.nodes
  {
    var node := w.nodes[n];
    w.(nodes := w.nodes[n := node.(log := Opened(node.log.nodeID, node.log.rows), dedup := {},
                                   peers := Forgotten(node.peers), handed := {})],
       pulls := map pid | pid in w.pulls && w.pulls[pid].puller != n :: w.pulls[pid])
  }

  ghost function DoServe(w: World, pid: nat): World
    requires CanServe(w, pid)
  {
    var pull := w.pulls[pid];
    var events := Answer(w, pull);
    var node := w.nodes[pull.puller];
    if events == [] then w.(pulls := w.pulls - {pid})
    else
      w.(pulls := w.pulls[pid := pull.(phase := Ingesting(events, 0, false))],
         nodes := w.nodes[pull.puller := node.(handed := node.handed + IdsOf(pull.server, events))])
  }

  /** The first half of an ingest turn: a remembered id is skipped, any other is marked. */
  ghost function DoMark(w: World, pid: nat): World
    requires CanMark(w, pid)
  {
    var pull, node := w.pulls[pid], w.nodes[w.pulls[pid].puller];
    var id := pull.phase.events[pull.phase.next].eventID;
    if id in node.dedup then w.(pulls := w.pulls[pid := pull.(phase := pull.phase.(next := pull.phase.next + 1))])
    else
      w.(pulls := w.pulls[pid := pull.(phase := pull.phase.(marked := true))],
         nodes := w.nodes[pull.puller := node.(dedup := node.dedup + {id})])
  }

  /** The second half: append the marked event to the log. */
  ghost function DoStore(w: World, pid: nat, ioOk: bool): World
    requires CanStore(w, pid)
  {
    var pull, node := w.pulls[pid], w.nodes[w.pulls[pid].puller];
    var e := FromSync(pull.phase.events[pull.phase.next]);
    var stored := if Lands(node.log, e, ioOk) then node.stored + {e.id} else node.stored;
    w.(pulls := w.pulls[pid := pull.(phase := pull.phase.(next := pull.phase.next + 1, marked := false))],
       nodes := w.nodes[pull.puller := node.(log := Appended(node.log, e, ioOk), stored := stored)])
  }

  ghost function DoFinish(w: World, pid: nat): World
    requires CanFinish(w, pid)
  {
    var pull, node := w.pulls[pid], w.nodes[w.pulls[pid].puller];
    var link := node.peers[pull.server].(lastSyncSeq := Reach(pull));
    w.(pulls := w.pulls - {pid}, nodes := w.nodes[pull.puller := node.(peers := node.peers[pull.server := link])])
  }

  ghost function WithNode(w: World, n: string, node: Node): World {
    w.(nodes := w.nodes[n := node])
  }

  ghost function Exec(w: World, step: Step): World
    requires Enabled(w, step)
  {
    match step
    case LocalAppend(n, e, ioOk) => DoAppend(w, n, e, ioOk)
    case Compaction(n, olderThan, keepMin) =>
      WithNode(w, n, w.nodes[n].(log := Compacted(w.nodes[n].log, olderThan, keepMin)))
    case Eviction(n, gone) => WithNode(w, n, w.nodes[n].(dedup := w.nodes[n].dedup - gone))
    case Discover(n, peer, link) => WithNode(w, n, w.nodes[n].(peers := w.nodes[n].peers[peer := link]))
    case Restart(n) => DoRestart(w, n)
    case Start(pid, p, s) => w.(pulls := w.pulls[pid := Pull(p, s, Requested(w.nodes[p].peers[s].lastSyncSeq))])
    case Serve(pid) => DoServe(w, pid)
    case Lose(pid) => w.(pulls := w.pulls - {pid})
    case Mark(pid) => DoMark(w, pid)
    case Store(pid, ioOk) => DoStore(w, pid, ioOk)
    case Finish(pid) => DoFinish(w, pid)
  }

  ghost predicate CanRun(w: World, steps: seq<Step>)
    decreases |steps|
  {
    steps == [] || (Enabled(w, steps[0]) && CanRun(Exec(w, steps[0]), steps[1..]))
  }

  ghost function Run(w: World, steps: seq<Step>): World
    requires CanRun(w, steps)
    decreases |steps|
  {
    if steps == [] then w else Run(Exec(w, steps[0]), steps[1..])
  }

  // ------------------------------------------------------------------ cursor safety

  /** Every in-scope row of s numbered up to k has been handed to p's ingest. */
  ghost predicate CursorSafe(w: World, p: string, s: string, k: nat)
    requires Linked(w, p, s)
  {
    && k <= w.nodes[s].log.counter
    && forall r :: r in w.nodes[s].log.rows && r.num <= k && RowInScope(w.nodes[p].peers[s].scope)(r) ==>
         (s, r.event.id) in w.nodes[p].handed
  }

  ghost predicate NodeOk(node: Node) {
    LogInv(node.log) && node.log.nodeID != "" && node.batch >= 1 && Ids(node.log.rows) <= node.stored
  }

  ghost predicate PhaseOk(ph: Phase) {
    ph.Ingesting? ==> ph.events != [] && ph.next <= |ph.events| && (ph.marked ==> ph.next < |ph.events|)
  }

  ghost predicate PullSafe(w: World, pid: nat) {
    && InFlight(w, pid) && PhaseOk(w.pulls[pid].phase)
    && CursorSafe(w, w.pulls[pid].puller, w.pulls[pid].server, Reach(w.pulls[pid]))
  }

  ghost predicate Inv(w: World) {
    && (forall n :: n in w.nodes ==> NodeOk(w.nodes[n]))
    && (forall p, s :: Linked(w, p, s) ==> CursorSafe(w, p, s, w.nodes[p].peers[s].lastSyncSeq))
    && (forall pid :: pid in w.pulls ==> PullSafe(w, pid))
  }

  /** A node after it worked on without restarting: its new rows are numbered above its old counter. */
  ghost predicate Later(a: Node, b: Node) {
    && a.log.counter <= b.log.counter
    && (forall r :: r in b.log.rows ==> r in a.log.rows || a.log.counter < r.num)
    && a.handed <= b.handed
    && (forall s :: s in a.peers ==> s in b.peers && b.peers[s].scope == a.peers[s].scope)
  }

  ghost predicate AllLater(w: World, w': World) {
    w'.nodes.Keys == w.nodes.Keys && forall n :: n in w.nodes ==> Later(w.nodes[n], w'.nodes[n])
  }

  lemma SafeStaysSafe(w: World, w': World, p: string, s: string, k: nat)
    requires AllLater(w, w') && Linked(w, p, s) && CursorSafe(w, p, s, k)
    ensures Linked(w', p, s) && CursorSafe(w', p, s, k)
  {
  }

  /** Only node n may differ, and it has moved on. */
  ghost predicate OneNode(w: World, w': World, n: string) {
    && n in w.nodes && w'.nodes.Keys == w.nodes.Keys
    && (forall m :: m in w.nodes && m != n ==> w'.nodes[m] == w.nodes[m])
    && Later(w.nodes[n], w'.nodes[n]) && NodeOk(w'.nodes[n])
  }

  /** Only the touched pulls may differ; any may be gone. */
  ghost predicate PullsOutside(w: World, w': World, touched: set<nat>) {
    forall q :: q in w'.pulls && q !in touched ==> q in w.pulls && w'.pulls[q] == w.pulls[q]
  }

  ghost predicate CursorUnmoved(w: World, w': World, n: string, s: string) {
    Linked(w, n, s) && Linked(w', n, s) && w'.nodes[n].peers[s].lastSyncSeq == w.nodes[n].peers[s].lastSyncSeq
  }

  lemma OneNodeIsLater(w: World, w': World, n: string)
    requires OneNode(w, w', n)
    ensures AllLater(w, w')
  {
  }

  lemma OneChangeKeepsInv(w: World, w': World, n: string, touched: set<nat>)
    requires Inv(w) && OneNode(w, w', n) && PullsOutside(w, w', touched)
    requires forall s :: Linked(w', n, s) && !CursorUnmoved(w, w', n, s) ==>
        CursorSafe(w', n, s, w'.nodes[n].peers[s].lastSyncSeq)
    requires forall q :: q in touched && q in w'.pulls ==> PullSafe(w', q)
    ensures Inv(w')
  {
    assert AllLater(w, w');
    forall p, s | Linked(w', p, s)
      ensures CursorSafe(w', p, s, w'.nodes[p].peers[s].lastSyncSeq)
    {
      if p != n || CursorUnmoved(w, w', n, s) {
        assert Linked(w, p, s);
        SafeStaysSafe(w, w', p, s, w.nodes[p].peers[s].lastSyncSeq);
      }
    }
    forall q | q in w'.pulls
      ensures PullSafe(w', q)
    {
      if q !in touched {
        SafeStaysSafe(w, w', w.pulls[q].puller, w.pulls[q].server, Reach(w.pulls[q]));
      }
    }
  }

  // ------------------------------------------------------------------ one lemma per step

  lemma AppendKeepsNode(node: Node, e: Event, ioOk: bool, stored: set<string>)
    requires NodeOk(node)
    requires stored == if Lands(node.log, e, ioOk) then node.stored + {e.id} else node.stored
    ensures var node' := node.(log := Appended(node.log, e, ioOk), stored := stored);
            NodeOk(node') && Later(node, node')
  {
    AppendKeepsInv(node.log, e, ioOk);
  }

  lemma LocalAppendKeepsInv(w: World, n: string, e: Event, ioOk: bool)
    requires Inv(w) && n in w.nodes
    ensures Inv(DoAppend(w, n, e, ioOk))
  {
    var w' := DoAppend(w, n, e, ioOk);
    AppendKeepsNode(w.nodes[n], e, ioOk, w'.nodes[n].stored);
    OneChangeKeepsInv(w, w', n, {});
  }

  lemma PullStaysSafe(w: World, w': World, pid: nat)
    requires AllLater(w, w') && pid in w.pulls && PullSafe(w, pid) && pid in w'.pulls && PhaseOk(w'.pulls[pid].phase)
    requires w'.pulls[pid].puller == w.pulls[pid].puller && w'.pulls[pid].server == w.pulls[pid].server
    requires Reach(w'.pulls[pid]) == Reach(w.pulls[pid])
    ensures PullSafe(w', pid)
  {
    SafeStaysSafe(w, w', w.pulls[pid].puller, w.pulls[pid].server, Reach(w.pulls[pid]));
  }

  lemma CompactionKeepsInv(w: World, n: string, olderThan: int, keepMin: nat)
    requires Inv(w) && n in w.nodes
    ensures Inv(Exec(w, Compaction(n, olderThan, keepMin)))
  {
    CompactKeepsInv(w.nodes[n].log, olderThan, keepMin);
    OneChangeKeepsInv(w, Exec(w, Compaction(n, olderThan, keepMin)), n, {});
  }

  lemma EvictionKeepsInv(w: World, n: string, gone: set<string>)
    requires Inv(w) && n in w.nodes
    ensures Inv(Exec(w, Eviction(n, gone)))
  {
    OneChangeKeepsInv(w, Exec(w, Eviction(n, gone)), n, {});
  }

  lemma DiscoverKeepsInv(w: World, n: string, peer: string, link: Peer)
    requires Inv(w) && Enabled(w, Discover(n, peer, link))
    ensures Inv(Exec(w, Discover(n, peer, link)))
  {
    OneChangeKeepsInv(w, Exec(w, Discover(n, peer, link)), n, {});
  }

  lemma StartKeepsInv(w: World, pid: nat, p: string, s: string)
    requires Inv(w) && Enabled(w, Start(pid, p, s))
    ensures Inv(Exec(w, Start(pid, p, s)))
  {
    var w' := Exec(w, Start(pid, p, s));
    assert CursorSafe(w, p, s, w.nodes[p].peers[s].lastSyncSeq);
    assert AllLater(w, w');
    SafeStaysSafe(w, w', p, s, w.nodes[p].peers[s].lastSyncSeq);
    OneChangeKeepsInv(w, w', p, {pid});
  }

  lemma LoseKeepsInv(w: World, pid: nat)
    requires Inv(w) && Enabled(w, Lose(pid))
    ensures Inv(Exec(w, Lose(pid)))
  {
    OneChangeKeepsInv(w, Exec(w, Lose(pid)), w.pulls[pid].puller, {pid});
  }

  /** A pull that goes on without changing what it will move the cursor to. */
  lemma PullGoesOn(w: World, w': World, pid: nat)
    requires Inv(w) && pid in w.pulls && pid in w'.pulls
    requires OneNode(w, w', w.pulls[pid].puller) && PullsOutside(w, w', {pid})
    requires w'.nodes[w.pulls[pid].puller].peers == w.nodes[w.pulls[pid].puller].peers
    requires w'.pulls[pid].puller == w.pulls[pid].puller && w'.pulls[pid].server == w.pulls[pid].server
    requires Reach(w'.pulls[pid]) == Reach(w.pulls[pid]) && PhaseOk(w'.pulls[pid].phase)
    ensures Inv(w')
  {
    OneNodeIsLater(w, w', w.pulls[pid].puller);
    PullStaysSafe(w, w', pid);
    OneChangeKeepsInv(w, w', w.pulls[pid].puller, {pid});
  }

  lemma MarkedPull(w: World, pid: nat)
    requires CanMark(w, pid)
    ensures var pull, after := w.pulls[pid], DoMark(w, pid).pulls;
      && pid in after && after[pid].puller == pull.puller && after[pid].server == pull.server
      && Reach(after[pid]) == Reach(pull) && (PhaseOk(pull.phase) ==> PhaseOk(after[pid].phase))
      && PullsOutside(w, DoMark(w, pid), {pid})
  {
    hide NodeOk, Later;
  }

  lemma MarkedNode(w: World, pid: nat)
    requires CanMark(w, pid) && NodeOk(w.nodes[w.pulls[pid].puller])
    ensures OneNode(w, DoMark(w, pid), w.pulls[pid].puller)
    ensures DoMark(w, pid).nodes[w.pulls[pid].puller].peers == w.nodes[w.pulls[pid].puller].peers
  {
    hide LogInv, Ids;
  }

  lemma MarkKeepsInv(w: World, pid: nat)
    requires Inv(w) && CanMark(w, pid)
    ensures Inv(DoMark(w, pid))
  {
    hide NodeOk, Later, OneNode, PullsOutside, Reach, CursorSafe, DoMark;
    assert PhaseOk(w.pulls[pid].phase);
    MarkedPull(w, pid);
    MarkedNode(w, pid);
    PullGoesOn(w, DoMark(w, pid), pid);
  }

  lemma StoreKeepsInv(w: World, pid: nat, ioOk: bool)
    requires Inv(w) && CanStore(w, pid)
    ensures Inv(DoStore(w, pid, ioOk))
  {
    hide LogInv, CursorSafe, Ids, RowInScope, Appended, FromSync, Lands;
    var w' := DoStore(w, pid, ioOk);
    var pull := w.pulls[pid];
    AppendKeepsNode(w.nodes[pull.puller], FromSync(pull.phase.events[pull.phase.next]), ioOk,
      w'.nodes[pull.puller].stored);
    PullGoesOn(w, w', pid);
  }

  lemma FinishKeepsInv(w: World, pid: nat)
    requires Inv(w) && CanFinish(w, pid)
    ensures Inv(DoFinish(w, pid))
  {
    hide LogInv, Ids, RowInScope, CursorSafe;
    var w' := DoFinish(w, pid);
    var pull := w.pulls[pid];
    OneNodeIsLater(w, w', pull.puller);
    SafeStaysSafe(w, w', pull.puller, pull.server, Reach(pull));
    OneChangeKeepsInv(w, w', pull.puller, {pid});
  }

  lemma AnsweredIdsAreHanded(server: string, rows: seq<Row>)
    ensures forall r :: r in rows ==> (server, r.event.id) in IdsOf(server, ToSyncAll(rows))
    ensures rows != [] ==> ToSyncAll(rows) != [] && ToSyncAll(rows)[|rows| - 1].num == rows[|rows| - 1].num
  {
    forall r | r in rows
      ensures (server, r.event.id) in IdsOf(server, ToSyncAll(rows))
    {
      var i :| 0 <= i < |rows| && rows[i] == r;
      assert ToSyncAll(rows)[i] in ToSyncAll(rows);
    }
  }

  lemma AnswerIsSafe(w: World, w': World, pull: Pull, events: seq<SyncEvent>)
    requires Linked(w, pull.puller, pull.server) && pull.phase.Requested?
    requires CursorSafe(w, pull.puller, pull.server, pull.phase.after)
    requires events == Answer(w, pull) && events != []
    requires LogInv(w.nodes[pull.server].log)
    requires AllLater(w, w') && w'.nodes[pull.server].log == w.nodes[pull.server].log
    requires w'.nodes[pull.puller].handed == w.nodes[pull.puller].handed + IdsOf(pull.server, events)
    ensures CursorSafe(w', pull.puller, pull.server, events[|events| - 1].num)
  {
    var p, s := w.nodes[pull.puller], w.nodes[pull.server];
    var req := SyncRequest(pull.puller, pull.phase.after, p.batch, p.peers[pull.server].scope);
    var rows := Served(s.log.rows, s.batch, req);
    AnsweredIdsAreHanded(pull.server, rows);
    CatchUp.AnswerIsComplete(s.log.rows, s.batch, req);
    assert rows[|rows| - 1] in rows;
  }

  /** The answer to a safe cursor is a safe step forward. */
  lemma ServeKeepsInv(w: World, pid: nat)
    requires Inv(w) && CanServe(w, pid)
    ensures Inv(DoServe(w, pid))
  {
    hide LogInv, Ids, RowInScope, CursorSafe;
    var pull := w.pulls[pid];
    if Answer(w, pull) == [] {
      OneChangeKeepsInv(w, DoServe(w, pid), pull.puller, {pid});
    } else {
      PullAnswered(w, DoServe(w, pid), pid, Answer(w, pull));
    }
  }

  lemma PullAnswered(w: World, w': World, pid: nat, events: seq<SyncEvent>)
    requires Inv(w) && CanServe(w, pid) && pid in w'.pulls
    requires events == Answer(w, w.pulls[pid]) && events != []
    requires var pull := w.pulls[pid];
             && w'.pulls[pid] == pull.(phase := Ingesting(events, 0, false))
             && OneNode(w, w', pull.puller) && PullsOutside(w, w', {pid})
             && w'.nodes[pull.puller].peers == w.nodes[pull.puller].peers
             && w'.nodes[pull.puller].log == w.nodes[pull.puller].log
             && w'.nodes[pull.puller].handed == w.nodes[pull.puller].handed + IdsOf(pull.server, events)
    ensures Inv(w')
  {
    var pull := w.pulls[pid];
    OneNodeIsLater(w, w', pull.puller);
    AnswerIsSafe(w, w', pull, events);
    OneChangeKeepsInv(w, w', pull.puller, {pid});
  }

  lemma RestartKeepsInv(w: World, n: string)
    requires Inv(w) && n in w.nodes && SafeToRestart(w, n)
    ensures Inv(DoRestart(w, n))
  {
    var w' := DoRestart(w, n);
    forall p, s | Linked(w', p, s)
      ensures CursorSafe(w', p, s, w'.nodes[p].peers[s].lastSyncSeq)
    {
      assert Linked(w, p, s);
      if p != n {
        assert CursorSafe(w, p, s, w.nodes[p].peers[s].lastSyncSeq);
      }
    }
    forall pid | pid in w'.pulls
      ensures PullSafe(w', pid)
    {
      assert w'.pulls[pid] == w.pulls[pid];
    }
  }

  /** Every step keeps every cursor safe. */
  lemma StepKeepsInv(w: World, step: Step)
    requires Inv(w) && Enabled(w, step)
    ensures Inv(Exec(w, step))
  {
    match step
    case LocalAppend(n, e, ioOk) => LocalAppendKeepsInv(w, n, e, ioOk);
    case Compaction(n, olderThan, keepMin) => CompactionKeepsInv(w, n, olderThan, keepMin);
    case Eviction(n, gone) => EvictionKeepsInv(w, n, gone);
    case Discover(n, peer, link) => DiscoverKeepsInv(w, n, peer, link);
    case Restart(n) => RestartKeepsInv(w, n);
    case Start(pid, p, s) => StartKeepsInv(w, pid, p, s);
    case Serve(pid) => ServeKeepsInv(w, pid);
    case Lose(pid) => LoseKeepsInv(w, pid);
    case Mark(pid) => MarkKeepsInv(w, pid);
    case Store(pid, ioOk) => StoreKeepsInv(w, pid, ioOk);
    case Finish(pid) => FinishKeepsInv(w, pid);
  }

  /** Fresh processes over whatever is stored: no pull in flight, no cursor set, nothing remembered. */
  ghost predicate Init(w: World) {
    && w.pulls == map[]
    && forall n :: n in w.nodes ==>
         var node := w.nodes[n];
         && NodeOk(node) && node.stored == Ids(node.log.rows) && node.dedup == {} && node.handed == {}
         && (forall s :: s in node.peers ==> node.peers[s].lastSyncSeq == 0)
         && (forall r :: r in node.log.rows ==>
               && r.event.sourceNode != "" && r.event.id in w.origin
               && Payload(r.event) in w.origin[r.event.id])
  }

  /**
   * Cursor safety: in every reachable state, whatever the interleaving, each in-scope row of a peer's log numbered
   * up to the puller's LastSyncSeq has been handed to its ingest.
   */
  lemma {:induction false} CursorsAlwaysSafe(w: World, steps: seq<Step>)
    requires Init(w) && CanRun(w, steps)
    ensures Inv(Run(w, steps))
  {
    RunKeepsInv(w, steps);
  }

  lemma {:induction false} RunKeepsInv(w: World, steps: seq<Step>)
    requires Inv(w) && CanRun(w, steps)
    ensures Inv(Run(w, steps))
    decreases |steps|
  {
    if steps != [] {
      StepKeepsInv(w, steps[0]);
      RunKeepsInv(Exec(w, steps[0]), steps[1..]);
    }
  }

  // ------------------------------------------------------------------ the machine and the manager

  /** An event the cache remembers costs one step and changes no instance, like the skipped turn of the ingest loop. */
  lemma SkippedTurnIsIngestStep(w: World, pid: nat, kept: set<string>, ioOk: bool)
    requires CanMark(w, pid)
    requires var pull := w.pulls[pid]; pull.phase.events[pull.phase.next].eventID in w.nodes[pull.puller].dedup
    ensures var pull, node := w.pulls[pid], w.nodes[w.pulls[pid].puller];
      && Exec(w, Mark(pid)).nodes == w.nodes
      && Federation.Step(node.log, node.dedup, pull.phase.events[pull.phase.next], kept, ioOk)
         == Outcome(node.log, node.dedup, None)
  {
  }

  /** Marking, evicting and storing in a row is one turn of the manager's ingest loop. */
  lemma TurnIsIngestStep(w: World, pid: nat, kept: set<string>, ioOk: bool)
    requires CanMark(w, pid)
    requires var pull := w.pulls[pid]; var id := pull.phase.events[pull.phase.next].eventID;
      id !in w.nodes[pull.puller].dedup && Evicts(w.nodes[pull.puller].dedup, id, kept)
    ensures var pull, node := w.pulls[pid], w.nodes[w.pulls[pid].puller];
      var se := pull.phase.events[pull.phase.next];
      var gone := node.dedup + {se.eventID} - kept;
      var turn := Federation.Step(node.log, node.dedup, se, kept, ioOk);
      && CanMark(w, pid) && var w1 := Exec(w, Mark(pid));
         var w2 := Exec(w1, Eviction(pull.puller, gone));
      && CanStore(w2, pid) && var w3 := Exec(w2, Store(pid, ioOk));
      && w3.nodes.Keys == w.nodes.Keys && (forall n :: n in w.nodes && n != pull.puller ==> w3.nodes[n] == w.nodes[n])
      && w3.nodes[pull.puller].log == turn.log && w3.nodes[pull.puller].dedup == turn.dedup
      && w3.nodes[pull.puller].stored == node.stored + (if turn.stored.Some? then {turn.stored.value.id} else {})
      && w3.pulls == w.pulls[pid := pull.(phase := pull.phase.(next := pull.phase.next + 1))]
  {
    var pull, node := w.pulls[pid], w.nodes[w.pulls[pid].puller];
    var se := pull.phase.events[pull.phase.next];
    assert node.dedup + {se.eventID} - (node.dedup + {se.eventID} - kept) == kept;
  }

  // ------------------------------------------------------------------ the steps of a pull and a restart, told on the fields

  /** Who pulls and who answers, what a pull asks after, and where it leaves the cursor. */
  lemma PullMeans(w: World, pid: nat, p: string, s: string)
    ensures Enabled(w, Start(pid, p, s)) ==>
      && w.nodes[p].peers[s].trustLevel >= 1
      && Exec(w, Start(pid, p, s)) == w.(pulls := w.pulls[pid := Pull(p, s, Requested(w.nodes[p].peers[s].lastSyncSeq))])
    ensures Enabled(w, Start(pid, p, s)) <==>
      && pid !in w.pulls && p in w.nodes && s in w.nodes && s in w.nodes[p].peers
      && w.nodes[p].peers[s].trustLevel >= 1
    ensures pid in w.pulls && w.pulls[pid].phase.Requested? && w.pulls[pid].puller == p && w.pulls[pid].server == s
            && Linked(w, p, s) ==>
      (Enabled(w, Serve(pid)) <==> p in w.nodes[s].peers && w.nodes[s].peers[p].trustLevel >= 1)
    ensures Enabled(w, Finish(pid)) ==>
      var pull := w.pulls[pid]; var node, events := w.nodes[pull.puller], pull.phase.events;
      && pull.phase.next == |events| > 0
      && Exec(w, Finish(pid)) == World(
        w.nodes[pull.puller := node.(peers := node.peers[pull.server :=
          node.peers[pull.server].(lastSyncSeq := events[|events| - 1].num)])],
        w.pulls - {pid}, w.origin)
  {
  }

  /** A restart keeps the rows, counts on from the highest, and forgets ids, cursors and the pulls it had open. */
  lemma RestartMeans(w: World, n: string)
    requires Enabled(w, Restart(n))
    ensures var a, u := w.nodes[n], Exec(w, Restart(n));
      var b := u.nodes[n];
      && b.log.rows == a.log.rows && b.dedup == {} && b.batch == a.batch && b.peers.Keys == a.peers.Keys
      && (forall r :: r in a.log.rows ==> r.num <= b.log.counter)
      && (b.log.counter > 0 ==> exists r :: r in a.log.rows && r.num == b.log.counter)
      && (forall s :: s in b.peers ==> b.peers[s] == a.peers[s].(lastSyncSeq := 0))
      && (forall pid :: pid in u.pulls <==> pid in w.pulls && w.pulls[pid].puller != n)
  {
  }
}
