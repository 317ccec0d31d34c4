/** Gossip over any pull graph: it cannot go on forever, and where it stops all logs hold the same ids. */
module Convergence {
  import opened EventLog
  import opened Federation
  import opened Gossip
  import opened Delivery
  import CatchUp

  /** p may pull from s and s answers it. */
  ghost predicate Edge(w: World, p: string, s: string) {
    Linked(w, p, s) && w.nodes[p].peers[s].trustLevel >= 1 && Answers(w.nodes[s], p)
  }

  /** What a pull started now would be answered with. */
  ghost function Next(w: World, p: string, s: string): seq<SyncEvent>
    requires Linked(w, p, s)
  {
    Answer(w, Pull(p, s, Requested(w.nodes[p].peers[s].lastSyncSeq)))
  }

  // ------------------------------------------------------------------ one pull, carried through

  predicate Turn(pid: nat, step: Step) {
    match step
    case Mark(q) => q == pid
    case Store(q, ioOk) => q == pid
    case Eviction(n, gone) => true
    case _ => false
  }

  /** The steps of gossip alone: no new event, no compaction, no restart, and writes that succeed. */
  predicate GossipOnly(step: Step) {
    match step
    case Start(_, _, _) => true
    case Serve(_) => true
    case Lose(_) => true
    case Mark(_) => true
    case Store(_, ioOk) => ioOk
    case Finish(_) => true
    case Eviction(_, _) => true
    case _ => false
  }

  /** A pull with no other pull beside it: start, answer, any turns of its ingest loop, finish. */
  ghost predicate WholePull(w: World, steps: seq<Step>, pid: nat, p: string, s: string) {
    && |steps| >= 3 && steps[0] == Start(pid, p, s) && steps[1] == Serve(pid) && steps[|steps| - 1] == Finish(pid)
    && (forall i :: 2 <= i < |steps| - 1 ==> Turn(pid, steps[i]))
    && CanRun(w, steps)
  }

  /** Ids known to the federation and absent from a log. */
  ghost function Missing(w: World): set<(string, string)> {
    set n, id | n in w.nodes && id in w.origin && id !in Ids(w.nodes[n].log.rows) :: (n, id)
  }

  /** Rows of a peer above the puller's cursor. */
  ghost function Beyond(w: World): set<(string, string, nat)> {
    set p, s, r | p in w.nodes && s in w.nodes[p].peers && s in w.nodes && r in w.nodes[s].log.rows
                  && w.nodes[p].peers[s].lastSyncSeq < r.num :: (p, s, r.num)
  }

  /** Inside the ingest of pull pid by p: only p's cache and the end of p's log may have changed. */
  ghost predicate Underway(w: World, v: World, pid: nat, p: string) {
    && v.origin == w.origin && v.nodes.Keys == w.nodes.Keys && p in w.nodes
    && (forall n :: n in w.nodes ==> v.nodes[n].peers == w.nodes[n].peers)
    && (forall n :: n in w.nodes && n != p ==> v.nodes[n].log.rows == w.nodes[n].log.rows)
    && w.nodes[p].log.rows <= v.nodes[p].log.rows
    && (w.nodes[p].log.rows != v.nodes[p].log.rows ==>
          exists id :: id in Ids(v.nodes[p].log.rows) && id !in Ids(w.nodes[p].log.rows))
    && v.pulls.Keys == w.pulls.Keys + {pid} && v.pulls[pid].puller == p && v.pulls[pid].phase.Ingesting?
  }

  lemma MarkUnderway(w: World, v: World, pid: nat, p: string)
    requires Underway(w, v, pid, p) && CanMark(v, pid)
    ensures Underway(w, DoMark(v, pid), pid, p)
    ensures DoMark(v, pid).pulls[pid].server == v.pulls[pid].server
    ensures DoMark(v, pid).pulls[pid].phase.events == v.pulls[pid].phase.events
  {
    assert DoMark(v, pid).nodes[p].log == v.nodes[p].log;
  }

  lemma StoreUnderway(w: World, v: World, pid: nat, p: string, ioOk: bool)
    requires Underway(w, v, pid, p) && CanStore(v, pid)
    ensures Underway(w, DoStore(v, pid, ioOk), pid, p)
    ensures DoStore(v, pid, ioOk).pulls[pid].server == v.pulls[pid].server
    ensures DoStore(v, pid, ioOk).pulls[pid].phase.events == v.pulls[pid].phase.events
  {
    var v' := DoStore(v, pid, ioOk);
    var e := FromSync(v.pulls[pid].phase.events[v.pulls[pid].phase.next]);
    var before, after := v.nodes[p].log.rows, v'.nodes[p].log.rows;
    if Lands(v.nodes[p].log, e, ioOk) {
      assert after[|before|].event.id == e.id && after[|before|] in after;
      assert e.id in Ids(after);
      assert Ids(w.nodes[p].log.rows) <= Ids(before);
    } else {
      assert after == before;
    }
  }

  lemma EvictionUnderway(w: World, v: World, pid: nat, p: string, n: string, gone: set<string>)
    requires Underway(w, v, pid, p) && n in v.nodes
    ensures Underway(w, Exec(v, Eviction(n, gone)), pid, p)
  {
    assert Exec(v, Eviction(n, gone)).nodes[p].log == v.nodes[p].log;
  }

  lemma TurnUnderway(w: World, v: World, pid: nat, p: string, step: Step)
    requires Underway(w, v, pid, p) && Enabled(v, step) && Turn(pid, step)
    ensures Underway(w, Exec(v, step), pid, p)
    ensures Exec(v, step).pulls[pid].server == v.pulls[pid].server
    ensures Exec(v, step).pulls[pid].phase.events == v.pulls[pid].phase.events
  {
    hide DoMark, DoStore, DoAppend, DoServe, DoRestart, DoFinish, Underway, Ids;
    match step {
      case Mark(q) => MarkUnderway(w, v, pid, p);
      case Store(q, ioOk) => StoreUnderway(w, v, pid, p, ioOk);
      case Eviction(n, gone) => EvictionUnderway(w, v, pid, p, n, gone);
    }
  }

  lemma FinishEffect(w: World, v: World, pid: nat, p: string)
    requires Underway(w, v, pid, p) && CanFinish(v, pid)
    ensures var s, events := v.pulls[pid].server, v.pulls[pid].phase.events;
            && events != [] && Linked(v, p, s)
            && Pulled(w, DoFinish(v, pid), pid, p, s, events[|events| - 1].num)
  {
    hide Ids;
    assert DoFinish(v, pid).nodes[p].log == v.nodes[p].log;
  }

  /** The turns of the ingest loop up to and including the finish. */
  lemma {:induction false} IngestRuns(w: World, v: World, steps: seq<Step>, pid: nat, p: string)
    requires Underway(w, v, pid, p) && CanRun(v, steps)
    requires |steps| >= 1 && steps[|steps| - 1] == Finish(pid)
    requires forall i :: 0 <= i < |steps| - 1 ==> Turn(pid, steps[i])
    ensures var u := Run(v, steps);
            var s, events := v.pulls[pid].server, v.pulls[pid].phase.events;
            && events != [] && Linked(v, p, s)
            && Pulled(w, u, pid, p, s, events[|events| - 1].num)
    decreases |steps|
  {
    hide DoMark, DoStore, DoAppend, DoServe, DoRestart, DoFinish, Ids, Appended, Pulled;
    var step := steps[0];
    if |steps| == 1 {
      assert Run(v, steps) == DoFinish(v, pid) by {
        assert steps[1..] == [];
      }
      FinishEffect(w, v, pid, p);
    } else {
      TurnUnderway(w, v, pid, p, step);
      IngestRuns(w, Exec(v, step), steps[1..], pid, p);
    }
  }

  /** What a whole pull does to logs and cursors. */
  ghost predicate Pulled(w: World, u: World, pid: nat, p: string, s: string, k: nat) {
    && Linked(w, p, s) && u.origin == w.origin && u.nodes.Keys == w.nodes.Keys && u.pulls.Keys == w.pulls.Keys - {pid}
    && (forall n :: n in w.nodes && n != p ==>
          u.nodes[n].log.rows == w.nodes[n].log.rows && u.nodes[n].peers == w.nodes[n].peers)
    && u.nodes[p].peers == w.nodes[p].peers[s := w.nodes[p].peers[s].(lastSyncSeq := k)]
    && w.nodes[p].log.rows <= u.nodes[p].log.rows
    && (w.nodes[p].log.rows != u.nodes[p].log.rows ==>
          exists id :: id in Ids(u.nodes[p].log.rows) && id !in Ids(w.nodes[p].log.rows))
  }

  lemma AfterTwo(w: World, steps: seq<Step>)
    requires CanRun(w, steps) && |steps| >= 2
    ensures Enabled(w, steps[0]) && Enabled(Exec(w, steps[0]), steps[1])
    ensures CanRun(Exec(Exec(w, steps[0]), steps[1]), steps[2..])
    ensures Run(w, steps) == Run(Exec(Exec(w, steps[0]), steps[1]), steps[2..])
  {
    var rest := steps[1..];
    assert rest[0] == steps[1] && rest[1..] == steps[2..];
    assert CanRun(Exec(w, steps[0]), rest);
  }

  /** Starting a pull and having it answered changes no log and no cursor. */
  lemma StartedAndServed(w: World, pid: nat, p: string, s: string)
    requires Enabled(w, Start(pid, p, s))
    ensures CanServe(Exec(w, Start(pid, p, s)), pid)
    ensures var v := DoServe(Exec(w, Start(pid, p, s)), pid);
            if Next(w, p, s) == [] then pid !in v.pulls
            else Underway(w, v, pid, p) && v.pulls[pid].server == s && v.pulls[pid].phase.events == Next(w, p, s)
  {
    AnsweredUnderway(w, Exec(w, Start(pid, p, s)), pid, p, s);
  }

  lemma AnsweredUnderway(w: World, v: World, pid: nat, p: string, s: string)
    requires Linked(w, p, s) && v.nodes == w.nodes && v.origin == w.origin
    requires v.pulls.Keys == w.pulls.Keys + {pid} &&
      v.pulls[pid] == Pull(p, s, Requested(w.nodes[p].peers[s].lastSyncSeq))
    ensures CanServe(v, pid)
    ensures var u := DoServe(v, pid);
            if Next(w, p, s) == [] then pid !in u.pulls
            else Underway(w, u, pid, p) && u.pulls[pid].server == s && u.pulls[pid].phase.events == Next(w, p, s)
  {
    assert Linked(v, p, s);
    assert Answer(v, v.pulls[pid]) == Next(w, p, s);
    var u := DoServe(v, pid);
    assert u.nodes[p].log == w.nodes[p].log && u.nodes[p].peers == w.nodes[p].peers;
  }

  lemma WholePullEffect(w: World, steps: seq<Step>, pid: nat, p: string, s: string)
    requires WholePull(w, steps, pid, p, s)
    ensures Linked(w, p, s) && Next(w, p, s) != []
    ensures Pulled(w, Run(w, steps), pid, p, s, Next(w, p, s)[|Next(w, p, s)| - 1].num)
  {
    AfterTwo(w, steps);
    StartedAndServed(w, pid, p, s);
    var v, tail := DoServe(Exec(w, Start(pid, p, s)), pid), steps[2..];
    SomeStepUses(v, tail, pid);
    IngestRuns(w, v, tail, pid, p);
  }

  /** A run that finishes pull pid without starting it began with it in flight. */
  lemma {:induction false} SomeStepUses(v: World, steps: seq<Step>, pid: nat)
    requires CanRun(v, steps) && |steps| >= 1 && steps[|steps| - 1] == Finish(pid)
    requires forall i :: 0 <= i < |steps| - 1 ==> Turn(pid, steps[i])
    ensures pid in v.pulls
    decreases |steps|
  {
    if |steps| > 1 {
      SomeStepUses(Exec(v, steps[0]), steps[1..], pid);
    }
  }

  // ------------------------------------------------------------------ termination

  lemma CursorAdvances(w: World, p: string, s: string)
    requires Linked(w, p, s) && LogInv(w.nodes[s].log) && Next(w, p, s) != []
    ensures var k := Next(w, p, s)[|Next(w, p, s)| - 1].num;
            w.nodes[p].peers[s].lastSyncSeq < k && (p, s, k) in Beyond(w)
  {
    var node, server := w.nodes[p], w.nodes[s];
    var req := SyncRequest(p, node.peers[s].lastSyncSeq, node.batch, node.peers[s].scope);
    var rows := Served(server.log.rows, server.batch, req);
    CatchUp.AnswerIsComplete(server.log.rows, server.batch, req);
    assert rows[|rows| - 1] in rows;
  }

  /** Lexicographic measure: a pull stores an id its node missed, or it stores nothing and moves its cursor up. */
  lemma PullDecreasesMeasure(w: World, u: World, pid: nat, p: string, s: string)
    requires Inv(w) && Faithful(u) && Linked(w, p, s) && Next(w, p, s) != []
    requires Inv(u) && Pulled(w, u, pid, p, s, Next(w, p, s)[|Next(w, p, s)| - 1].num)
    ensures Missing(u) < Missing(w) || (Missing(u) == Missing(w) && Beyond(u) < Beyond(w))
  {
    hide CursorSafe, PhaseOk, InFlight, RowFaithful, EventFaithful, StoredSomewhere, LogInv, Beyond;
    var k := Next(w, p, s)[|Next(w, p, s)| - 1].num;
    CursorAdvances(w, p, s);
    assert Ids(w.nodes[p].log.rows) <= Ids(u.nodes[p].log.rows);
    MissingShrinks(w, u, p);
    if w.nodes[p].log.rows != u.nodes[p].log.rows {
      var id :| id in Ids(u.nodes[p].log.rows) && id !in Ids(w.nodes[p].log.rows);
      assert NodeOk(u.nodes[p]);
      assert id in u.nodes[p].stored;
      assert (p, id) in Missing(w) && (p, id) !in Missing(u);
    } else {
      assert forall n :: n in w.nodes ==> u.nodes[n].log.rows == w.nodes[n].log.rows;
      BeyondShrinks(w, u, pid, p, s, k);
    }
  }

  lemma MissingShrinks(w: World, u: World, p: string)
    requires u.origin == w.origin && u.nodes.Keys == w.nodes.Keys && p in w.nodes
    requires forall n :: n in w.nodes && n != p ==> u.nodes[n].log.rows == w.nodes[n].log.rows
    requires Ids(w.nodes[p].log.rows) <= Ids(u.nodes[p].log.rows)
    ensures Missing(u) <= Missing(w)
    ensures w.nodes[p].log.rows == u.nodes[p].log.rows ==> Missing(u) == Missing(w)
  {
    forall x | x in Missing(u)
      ensures x in Missing(w)
    {
      assert x.0 in w.nodes && x.1 in w.origin && x.1 !in Ids(u.nodes[x.0].log.rows);
    }
  }

  lemma BeyondShrinks(w: World, u: World, pid: nat, p: string, s: string, k: nat)
    requires Pulled(w, u, pid, p, s, k) && w.nodes[p].peers[s].lastSyncSeq < k && (p, s, k) in Beyond(w)
    requires forall n :: n in w.nodes ==> u.nodes[n].log.rows == w.nodes[n].log.rows
    ensures Beyond(u) < Beyond(w)
  {
    forall x | x in Beyond(u)
      ensures x in Beyond(w)
    {
      var r :| r in u.nodes[x.1].log.rows && u.nodes[x.0].peers[x.1].lastSyncSeq < r.num && r.num == x.2;
      assert x.0 in w.nodes && x.1 in w.nodes[x.0].peers && x.1 in w.nodes && r in w.nodes[x.1].log.rows;
      assert w.nodes[x.0].peers[x.1].lastSyncSeq <= u.nodes[x.0].peers[x.1].lastSyncSeq;
    }
    assert (p, s, k) !in Beyond(u);
  }

  /** One link of an endless gossip: a pull that was answered with something. */
  ghost predicate PullsOnce(w: World, u: World) {
    exists steps, pid, p, s :: WholePull(w, steps, pid, p, s) && u == Run(w, steps)
  }

  /** There is no endless sequence of answered pulls, whatever the writes and evictions do. */
  lemma {:induction false} NoEndlessGossip(f: nat -> World, i: nat)
    requires Inv(f(i)) && Faithful(f(i))
    requires forall j: nat :: PullsOnce(f(j), f(j + 1))
    ensures false
    decreases Missing(f(i)), Beyond(f(i))
  {
    hide Faithful, CanRun, Missing, Beyond, Run, Turn, PullSafe, NodeOk, CursorSafe;
    var w, u := f(i), f(i + 1);
    assert PullsOnce(w, u);
    var steps, pid, p, s :| WholePull(w, steps, pid, p, s) && u == Run(w, steps);
    WholePullEffect(w, steps, pid, p, s);
    RunIsFaithful(w, steps);
    PullDecreasesMeasure(w, u, pid, p, s);
    NoEndlessGossip(f, i + 1);
  }

  // ------------------------------------------------------------------ agreement

  predicate Open(scope: SyncScope) {
    scope.eventTypes == scope.regions == scope.transports == scope.excludeTypes == []
  }

  /** No answer is being ingested, and no answered pull would bring anything. */
  ghost predicate Quiet(w: World) {
    && (forall pid :: pid in w.pulls ==> w.pulls[pid].phase.Requested?)
    && forall p, s :: Edge(w, p, s) ==> Next(w, p, s) == []
  }

  ghost predicate AllOpen(w: World) {
    forall p, s :: Edge(w, p, s) ==> Open(w.nodes[p].peers[s].scope)
  }

  /** No log was compacted: what was stored is still there. */
  ghost predicate Complete(w: World) {
    forall n :: n in w.nodes ==> Ids(w.nodes[n].log.rows) == w.nodes[n].stored
  }

  ghost predicate Path(w: World, a: string, b: string, via: seq<string>)
    decreases |via|
  {
    if via == [] then a == b else Edge(w, a, via[0]) && Path(w, via[0], b, via[1..])
  }

  ghost predicate StronglyConnected(w: World) {
    forall a, b :: a in w.nodes && b in w.nodes ==> exists via :: Path(w, a, b, via)
  }

  ghost predicate Agreed(w: World) {
    forall n :: n in w.nodes ==> Ids(w.nodes[n].log.rows) == w.origin.Keys
  }

  lemma OpenAnswerEmptyMeansCaughtUp(w: World, p: string, s: string)
    requires Inv(w) && Edge(w, p, s) && Open(w.nodes[p].peers[s].scope) && Next(w, p, s) == []
    ensures forall r :: r in w.nodes[s].log.rows ==> r.num <= w.nodes[p].peers[s].lastSyncSeq
  {
    var node, server := w.nodes[p], w.nodes[s];
    var c := node.peers[s].lastSyncSeq;
    forall r | r in server.log.rows
      ensures r.num <= c
    {
      if c < r.num {
        OpenNextIsNotEmpty(server, SyncRequest(p, c, node.batch, node.peers[s].scope), r);
      }
    }
  }

  lemma OpenNextIsNotEmpty(server: Node, req: SyncRequest, r: Row)
    requires NodeOk(server) && Open(req.scope) && r in server.log.rows && req.afterSequence < r.num
    ensures Served(server.log.rows, server.batch, req) != []
  {
    CatchUp.AfterIsSorted(server.log.rows, req.afterSequence);
    assert r in RowsAfter(server.log.rows, req.afterSequence);
    var w := Window(server.log.rows, server.batch, req);
    assert w != [] && w[0] in w && RowInScope(req.scope)(w[0]);
    assert w[0] in Served(server.log.rows, server.batch, req);
  }

  lemma EdgeIncludes(w: World, p: string, s: string)
    requires Inv(w) && AllAccounted(w) && Complete(w) && AllOpen(w) && Quiet(w) && Edge(w, p, s)
    ensures Ids(w.nodes[s].log.rows) <= Ids(w.nodes[p].log.rows)
  {
    OpenAnswerEmptyMeansCaughtUp(w, p, s);
    forall id | id in Ids(w.nodes[s].log.rows)
      ensures id in Ids(w.nodes[p].log.rows)
    {
      var r :| r in w.nodes[s].log.rows && r.event.id == id;
      assert CursorSafe(w, p, s, w.nodes[p].peers[s].lastSyncSeq);
      assert RowInScope(w.nodes[p].peers[s].scope)(r);
      assert (s, id) in w.nodes[p].handed && Accounted(w, p);
    }
  }

  lemma {:induction false} PathIncludes(w: World, a: string, b: string, via: seq<string>)
    requires Inv(w) && AllAccounted(w) && Complete(w) && AllOpen(w) && Quiet(w)
    requires a in w.nodes && b in w.nodes && Path(w, a, b, via)
    ensures Ids(w.nodes[b].log.rows) <= Ids(w.nodes[a].log.rows)
    decreases |via|
  {
    if via != [] {
      EdgeIncludes(w, a, via[0]);
      PathIncludes(w, via[0], b, via[1..]);
    }
  }

  /** When gossip over a strongly connected graph has gone quiet, every log holds exactly the ids ever logged. */
  lemma QuietMeansAgreed(w: World)
    requires Inv(w) && AllAccounted(w) && Faithful(w) && Complete(w) && AllOpen(w) && StronglyConnected(w)
    requires Quiet(w)
    ensures Agreed(w)
  {
    hide Inv, AllAccounted, AllOpen, Quiet, Path, RowFaithful, EventFaithful, Ids, Edge;
    forall n | n in w.nodes
      ensures Ids(w.nodes[n].log.rows) == w.origin.Keys
    {
      forall id | id in w.origin
        ensures id in Ids(w.nodes[n].log.rows)
      {
        assert StoredSomewhere(w, id);
        var m :| m in w.nodes && id in w.nodes[m].stored;
        var via :| Path(w, n, m, via);
        PathIncludes(w, n, m, via);
      }
      forall id | id in Ids(w.nodes[n].log.rows)
        ensures id in w.origin
      {
        assert id in w.nodes[n].stored;
      }
    }
  }

  lemma FreshStart(w: World)
    requires Init(w)
    ensures Inv(w) && AllAccounted(w) && Complete(w)
  {
  }

  /** The same for every reachable state of the interleaved machine, provided no log compacts and writes succeed. */
  lemma ReachableQuietMeansAgreed(w: World, steps: seq<Step>)
    requires Init(w) && (forall id :: id in w.origin ==> StoredSomewhere(w, id)) && CanRun(w, steps)
    requires forall step :: step in steps ==> WritesSucceed(step) && !step.Compaction?
    requires var e := Run(w, steps); AllOpen(e) && StronglyConnected(e) && Quiet(e)
    ensures Agreed(Run(w, steps))
  {
    hide *;
    FreshStart(w);
    InitIsFaithful(w);
    RunAccounts(w, steps);
    RunIsFaithful(w, steps);
    RunStaysComplete(w, steps);
    QuietMeansAgreed(Run(w, steps));
  }

  lemma IdsOfAppended(log: LogState, e: Event, ioOk: bool)
    ensures Ids(Appended(log, e, ioOk).rows) == Ids(log.rows) + (if Lands(log, e, ioOk) then {e.id} else {})
  {
    var rows := Appended(log, e, ioOk).rows;
    if Lands(log, e, ioOk) {
      assert forall r :: r in rows <==> r in log.rows || r == rows[|log.rows|];
    }
  }

  lemma StepStaysComplete(w: World, step: Step)
    requires Complete(w) && Enabled(w, step) && !step.Compaction?
    ensures Complete(Exec(w, step))
  {
    match step
    case LocalAppend(n, e, ioOk) => IdsOfAppended(w.nodes[n].log, e, ioOk);
    case Store(pid, ioOk) =>
      var ph := w.pulls[pid].phase;
      IdsOfAppended(w.nodes[w.pulls[pid].puller].log, FromSync(ph.events[ph.next]), ioOk);
    case _ =>
  }

  lemma {:induction false} RunStaysComplete(w: World, steps: seq<Step>)
    requires Complete(w) && CanRun(w, steps) && forall step :: step in steps ==> !step.Compaction?
    ensures Complete(Run(w, steps))
    decreases |steps|
  {
    if steps != [] {
      StepStaysComplete(w, steps[0]);
      RunStaysComplete(Exec(w, steps[0]), steps[1..]);
    }
  }

  // ------------------------------------------------------------------ agreement can always be reached

  lemma {:induction false} RunConcat(w: World, a: seq<Step>, b: seq<Step>)
    requires CanRun(w, a) && CanRun(Run(w, a), b)
    ensures CanRun(w, a + b) && Run(w, a + b) == Run(Run(w, a), b)
    decreases |a|
  {
    if a == [] {
      assert a + b == b;
    } else {
      assert (a + b)[1..] == a[1..] + b && (a + b)[0] == a[0];
      RunConcat(Exec(w, a[0]), a[1..], b);
    }
  }

  /** An answered pull can always be carried through: the turns its ingest loop has left, then the finish. */
  lemma {:induction false} CarryThrough(v: World, pid: nat) returns (steps: seq<Step>)
    requires Inv(v) && pid in v.pulls && v.pulls[pid].phase.Ingesting?
    ensures CanRun(v, steps) && |steps| >= 1 && steps[|steps| - 1] == Finish(pid)
    ensures forall i :: 0 <= i < |steps| - 1 ==> Turn(pid, steps[i])
    ensures forall step :: step in steps ==> WritesSucceed(step) && !step.Compaction?
    decreases |v.pulls[pid].phase.events| - v.pulls[pid].phase.next, !v.pulls[pid].phase.marked
  {
    hide LogInv, CursorSafe, Ids, NodeOk, Appended;
    assert PullSafe(v, pid);
    var ph := v.pulls[pid].phase;
    if ph.next == |ph.events| {
      steps := [Finish(pid)];
      assert steps[1..] == [];
    } else {
      var step := if ph.marked then Store(pid, true) else Mark(pid);
      StepKeepsInv(v, step);
      var rest := CarryThrough(Exec(v, step), pid);
      steps := [step] + rest;
      assert steps[1..] == rest;
    }
  }

  lemma PrependTwo(w: World, a: Step, b: Step, rest: seq<Step>)
    requires Enabled(w, a) && Enabled(Exec(w, a), b) && CanRun(Exec(Exec(w, a), b), rest)
    ensures CanRun(w, [a, b] + rest)
  {
    var more := [b] + rest;
    assert more[1..] == rest;
    assert ([a, b] + rest)[1..] == more;
    assert CanRun(Exec(w, a), more);
  }

  lemma TurnsShift(two: seq<Step>, rest: seq<Step>, pid: nat)
    requires |two| == 2 && |rest| >= 1 && forall i :: 0 <= i < |rest| - 1 ==> Turn(pid, rest[i])
    ensures forall i :: 2 <= i < |two + rest| - 1 ==> Turn(pid, (two + rest)[i])
    ensures (two + rest)[|two + rest| - 1] == rest[|rest| - 1]
  {
    forall i | 2 <= i < |two + rest| - 1
      ensures Turn(pid, (two + rest)[i])
    {
      assert (two + rest)[i] == rest[i - 2];
    }
  }

  /** Wherever a pull would be answered with something, a whole pull can be run. */
  lemma PullOnce(w: World, p: string, s: string) returns (steps: seq<Step>, pid: nat)
    requires Inv(w) && w.pulls == map[] && Edge(w, p, s) && Next(w, p, s) != []
    ensures WholePull(w, steps, pid, p, s)
    ensures forall step :: step in steps ==> WritesSucceed(step) && !step.Compaction?
  {
    pid := 0;
    var rest := ServeAndCarry(w, pid, p, s);
    steps := Assemble(w, Start(pid, p, s), Serve(pid), rest, pid);
  }

  lemma ServeAndCarry(w: World, pid: nat, p: string, s: string) returns (rest: seq<Step>)
    requires Inv(w) && pid !in w.pulls && Edge(w, p, s) && Next(w, p, s) != []
    ensures Enabled(w, Start(pid, p, s)) && Enabled(Exec(w, Start(pid, p, s)), Serve(pid))
    ensures CanRun(Exec(Exec(w, Start(pid, p, s)), Serve(pid)), rest)
    ensures |rest| >= 1 && rest[|rest| - 1] == Finish(pid)
    ensures forall i :: 0 <= i < |rest| - 1 ==> Turn(pid, rest[i])
    ensures forall step :: step in rest ==> WritesSucceed(step) && !step.Compaction?
  {
    var v := StartAndServe(w, pid, p, s);
    rest := CarryThrough(v, pid);
  }

  lemma Assemble(w: World, a: Step, b: Step, rest: seq<Step>, pid: nat) returns (steps: seq<Step>)
    requires Enabled(w, a) && Enabled(Exec(w, a), b) && CanRun(Exec(Exec(w, a), b), rest)
    requires |rest| >= 1 && forall i :: 0 <= i < |rest| - 1 ==> Turn(pid, rest[i])
    requires a.Start? && b.Serve? && forall step :: step in rest ==> WritesSucceed(step) && !step.Compaction?
    ensures |steps| >= 3 && steps[0] == a && steps[1] == b && steps[|steps| - 1] == rest[|rest| - 1]
    ensures forall i :: 2 <= i < |steps| - 1 ==> Turn(pid, steps[i])
    ensures CanRun(w, steps)
    ensures forall step :: step in steps ==> WritesSucceed(step) && !step.Compaction?
  {
    steps := [a, b] + rest;
    PrependTwo(w, a, b, rest);
    TurnsShift([a, b], rest, pid);
  }

  lemma StartAndServe(w: World, pid: nat, p: string, s: string) returns (v: World)
    requires Inv(w) && pid !in w.pulls && Edge(w, p, s) && Next(w, p, s) != []
    ensures Enabled(w, Start(pid, p, s)) && Enabled(Exec(w, Start(pid, p, s)), Serve(pid))
    ensures v == Exec(Exec(w, Start(pid, p, s)), Serve(pid))
    ensures Inv(v) && pid in v.pulls && v.pulls[pid].phase.Ingesting?
  {
    StartedAndServed(w, pid, p, s);
    StartKeepsInv(w, pid, p, s);
    var v1 := Exec(w, Start(pid, p, s));
    assert v1.nodes == w.nodes && v1.pulls[pid].server == s && v1.pulls[pid].puller == p;
    ServeKeepsInv(v1, pid);
    v := DoServe(v1, pid);
  }

  lemma PulledKeepsEdges(w: World, u: World, pid: nat, p: string, s: string, k: nat)
    requires Pulled(w, u, pid, p, s, k)
    ensures forall a, b :: Edge(w, a, b) <==> Edge(u, a, b)
    ensures forall a, b :: Edge(w, a, b) ==> u.nodes[a].peers[b].scope == w.nodes[a].peers[b].scope
  {
    assert u.nodes[p].peers.Keys == w.nodes[p].peers.Keys;
  }

  lemma {:induction false} SameEdgesSamePaths(w: World, u: World, a: string, b: string, via: seq<string>)
    requires forall x, y :: Edge(w, x, y) <==> Edge(u, x, y)
    requires Path(w, a, b, via)
    ensures Path(u, a, b, via)
    decreases |via|
  {
    if via != [] {
      SameEdgesSamePaths(w, u, via[0], b, via[1..]);
    }
  }

  lemma StaysConnected(w: World, u: World)
    requires StronglyConnected(w) && u.nodes.Keys == w.nodes.Keys
    requires forall x, y :: Edge(w, x, y) <==> Edge(u, x, y)
    ensures StronglyConnected(u)
  {
    forall a, b | a in u.nodes && b in u.nodes
      ensures exists via :: Path(u, a, b, via)
    {
      var via :| Path(w, a, b, via);
      SameEdgesSamePaths(w, u, a, b, via);
    }
  }

  /** A reachable state between pulls, over an open and strongly connected graph. */
  ghost predicate Ready(w: World) {
    && Inv(w) && AllAccounted(w) && Faithful(w) && Complete(w)
    && w.pulls == map[] && AllOpen(w) && StronglyConnected(w)
  }

  lemma ReadyAfterPull(w: World, steps: seq<Step>, pid: nat, p: string, s: string)
    requires Ready(w) && WholePull(w, steps, pid, p, s)
    requires forall step :: step in steps ==> WritesSucceed(step) && !step.Compaction?
    ensures var u := Run(w, steps);
            && Ready(u) && u.origin == w.origin
            && (Missing(u) < Missing(w) || (Missing(u) == Missing(w) && Beyond(u) < Beyond(w)))
  {
    hide Inv, AllAccounted, Faithful, Complete, StronglyConnected, Missing, Beyond;
    var u := Run(w, steps);
    WholePullEffect(w, steps, pid, p, s);
    RunIsFaithful(w, steps);
    RunAccounts(w, steps);
    RunStaysComplete(w, steps);
    PullDecreasesMeasure(w, u, pid, p, s);
    PulledKeepsEdges(w, u, pid, p, s, Next(w, p, s)[|Next(w, p, s)| - 1].num);
    StaysConnected(w, u);
    assert u.pulls.Keys == {};
  }

  lemma WholePullIsGossip(w: World, steps: seq<Step>, pid: nat, p: string, s: string)
    requires WholePull(w, steps, pid, p, s) && forall step :: step in steps ==> WritesSucceed(step)
    ensures forall step :: step in steps ==> GossipOnly(step)
  {
    hide CanRun;
    forall i | 0 <= i < |steps|
      ensures GossipOnly(steps[i])
    {
      assert steps[i] in steps;
      assert 2 <= i < |steps| - 1 ==> Turn(pid, steps[i]);
    }
  }

  /** From any state with nothing in flight, finitely many pulls bring every log to the same ids. */
  lemma {:induction false} GossipReachesAgreement(w: World) returns (steps: seq<Step>)
    requires Ready(w)
    ensures CanRun(w, steps) && Agreed(Run(w, steps)) && Run(w, steps).origin == w.origin
    ensures Ready(Run(w, steps)) && Quiet(Run(w, steps)) && forall step :: step in steps ==> GossipOnly(step)
    decreases Missing(w), Beyond(w)
  {
    if Quiet(w) {
      QuietMeansAgreed(w);
      steps := [];
    } else {
      var p, s :| Edge(w, p, s) && Next(w, p, s) != [];
      var first, pid := PullOnce(w, p, s);
      ReadyAfterPull(w, first, pid, p, s);
      WholePullIsGossip(w, first, pid, p, s);
      var rest := GossipReachesAgreement(Run(w, first));
      RunConcat(w, first, rest);
      steps := first + rest;
    }
  }
}
