/** What arrives: no handed event is lost while writes succeed, and every copy carries its origin's payload. */
module Delivery {
  import opened EventLog
  import opened Federation
  import opened Gossip

  // ------------------------------------------------------------------ nothing handed is lost

  /** The pull still has the id to work on. */
  predicate PendingIn(pull: Pull, p: string, id: string) {
    && pull.puller == p && pull.phase.Ingesting? && pull.phase.next <= |pull.phase.events|
    && exists i :: pull.phase.next <= i < |pull.phase.events| && pull.phase.events[i].eventID == id
  }

  /** The pull has marked the id and not yet written it. */
  predicate MarkedIn(pull: Pull, p: string, id: string) {
    && pull.puller == p && pull.phase.Ingesting? && pull.phase.marked && pull.phase.next < |pull.phase.events|
    && pull.phase.events[pull.phase.next].eventID == id
  }

  ghost predicate Pending(w: World, p: string, id: string) {
    exists pid :: pid in w.pulls && PendingIn(w.pulls[pid], p, id)
  }

  ghost predicate Marked(w: World, p: string, id: string) {
    exists pid :: pid in w.pulls && MarkedIn(w.pulls[pid], p, id)
  }

  /** Every handed id is stored or still worked on; every remembered id is stored or about to be written. */
  ghost predicate Accounted(w: World, p: string)
    requires p in w.nodes
  {
    && (forall x :: x in w.nodes[p].handed ==> x.1 in w.nodes[p].stored || Pending(w, p, x.1))
    && (forall id :: id in w.nodes[p].dedup ==> id in w.nodes[p].stored || Marked(w, p, id))
  }

  ghost predicate AllAccounted(w: World) {
    forall p :: p in w.nodes ==> Accounted(w, p)
  }

  predicate Busy(pull: Pull) {
    pull.phase.Ingesting? && pull.phase.next < |pull.phase.events|
  }

  /** Node p forgot nothing it stored, gained no obligation, and its busy pulls go on as they were. */
  ghost predicate NoNewDebt(w: World, w': World, p: string) {
    && p in w.nodes && p in w'.nodes
    && w'.nodes[p].handed <= w.nodes[p].handed && w'.nodes[p].dedup <= w.nodes[p].dedup
    && w.nodes[p].stored <= w'.nodes[p].stored
    && ((w'.nodes[p].handed == {} && w'.nodes[p].dedup == {})
        || forall pid :: pid in w.pulls && w.pulls[pid].puller == p && Busy(w.pulls[pid]) ==>
             pid in w'.pulls && w'.pulls[pid] == w.pulls[pid])
  }

  lemma NoNewDebtKeepsAccount(w: World, w': World, p: string)
    requires NoNewDebt(w, w', p) && Accounted(w, p)
    ensures Accounted(w', p)
  {
    forall x | x in w'.nodes[p].handed
      ensures x.1 in w'.nodes[p].stored || Pending(w', p, x.1)
    {
      if x.1 !in w.nodes[p].stored {
        var pid :| pid in w.pulls && PendingIn(w.pulls[pid], p, x.1);
        assert PendingIn(w'.pulls[pid], p, x.1);
      }
    }
    forall id | id in w'.nodes[p].dedup
      ensures id in w'.nodes[p].stored || Marked(w', p, id)
    {
      if id !in w.nodes[p].stored {
        var pid :| pid in w.pulls && MarkedIn(w.pulls[pid], p, id);
        assert MarkedIn(w'.pulls[pid], p, id);
      }
    }
  }

  lemma ServeAccounts(w: World, w': World, pid: nat, events: seq<SyncEvent>)
    requires CanServe(w, pid) && Accounted(w, w.pulls[pid].puller)
    requires var pull, node := w.pulls[pid], w.nodes[w.pulls[pid].puller];
             && w'.pulls == w.pulls[pid := pull.(phase := Ingesting(events, 0, false))]
             && w'.nodes == w.nodes[pull.puller := node.(handed := node.handed + IdsOf(pull.server, events))]
    ensures Accounted(w', w.pulls[pid].puller)
  {
    var p := w.pulls[pid].puller;
    forall x | x in w'.nodes[p].handed && x.1 !in w'.nodes[p].stored
      ensures Pending(w', p, x.1)
    {
      if x in w.nodes[p].handed {
        var q :| q in w.pulls && PendingIn(w.pulls[q], p, x.1);
        assert PendingIn(w'.pulls[q], p, x.1);
      } else {
        var i :| 0 <= i < |events| && events[i].eventID == x.1;
        assert PendingIn(w'.pulls[pid], p, x.1);
      }
    }
    forall id | id in w'.nodes[p].dedup && id !in w.nodes[p].stored
      ensures Marked(w', p, id)
    {
      var q :| q in w.pulls && MarkedIn(w.pulls[q], p, id);
      assert MarkedIn(w'.pulls[q], p, id);
    }
  }

  /** Moving a pull past an id that is settled elsewhere keeps every handed id accounted for. */
  lemma AdvanceKeepsPending(w: World, w': World, pid: nat, id: string, p: string)
    requires pid in w.pulls && Busy(w.pulls[pid]) && w.pulls[pid].puller == p
    requires w.pulls[pid].phase.events[w.pulls[pid].phase.next].eventID == id
    requires var ph := w.pulls[pid].phase;
             w'.pulls == w.pulls[pid := w.pulls[pid].(phase := ph.(next := ph.next + 1, marked := false))]
    ensures forall x :: Pending(w, p, x) && x != id ==> Pending(w', p, x)
    ensures forall x :: Marked(w, p, x) && x != id ==> Marked(w', p, x)
  {
    forall x | Pending(w, p, x) && x != id
      ensures Pending(w', p, x)
    {
      var q :| q in w.pulls && PendingIn(w.pulls[q], p, x);
      assert PendingIn(w'.pulls[q], p, x);
    }
    forall x | Marked(w, p, x) && x != id
      ensures Marked(w', p, x)
    {
      var q :| q in w.pulls && MarkedIn(w.pulls[q], p, x);
      assert q != pid;
      assert MarkedIn(w'.pulls[q], p, x);
    }
  }

  lemma SkipAccounts(w: World, pid: nat)
    requires CanMark(w, pid) && Accounted(w, w.pulls[pid].puller)
    requires w.pulls[pid].phase.events[w.pulls[pid].phase.next].eventID in w.nodes[w.pulls[pid].puller].dedup
    ensures Accounted(DoMark(w, pid), w.pulls[pid].puller)
  {
    var w', pull := DoMark(w, pid), w.pulls[pid];
    var p, id := pull.puller, pull.phase.events[pull.phase.next].eventID;
    AdvanceKeepsPending(w, w', pid, id, p);
    if id !in w.nodes[p].stored {
      // Another pull marked it: that one still has it to write.
      var q :| q in w.pulls && MarkedIn(w.pulls[q], p, id);
      assert w'.pulls[q] == w.pulls[q];
      assert PendingIn(w'.pulls[q], p, id) && MarkedIn(w'.pulls[q], p, id);
    }
  }

  lemma MarkAccounts(w: World, pid: nat)
    requires CanMark(w, pid) && Accounted(w, w.pulls[pid].puller)
    requires w.pulls[pid].phase.events[w.pulls[pid].phase.next].eventID !in w.nodes[w.pulls[pid].puller].dedup
    ensures Accounted(DoMark(w, pid), w.pulls[pid].puller)
  {
    var w', pull := DoMark(w, pid), w.pulls[pid];
    var p, id := pull.puller, pull.phase.events[pull.phase.next].eventID;
    forall x | Pending(w, p, x)
      ensures Pending(w', p, x)
    {
      var q :| q in w.pulls && PendingIn(w.pulls[q], p, x);
      assert PendingIn(w'.pulls[q], p, x);
    }
    forall x | Marked(w, p, x) || x == id
      ensures Marked(w', p, x)
    {
      if x == id {
        assert MarkedIn(w'.pulls[pid], p, x);
      } else {
        var q :| q in w.pulls && MarkedIn(w.pulls[q], p, x);
        assert MarkedIn(w'.pulls[q], p, x);
      }
    }
  }

  lemma StoreAccounts(w: World, pid: nat)
    requires CanStore(w, pid) && NodeOk(w.nodes[w.pulls[pid].puller]) && Accounted(w, w.pulls[pid].puller)
    ensures Accounted(DoStore(w, pid, true), w.pulls[pid].puller)
  {
    var w', pull := DoStore(w, pid, true), w.pulls[pid];
    var p, id := pull.puller, pull.phase.events[pull.phase.next].eventID;
    AdvanceKeepsPending(w, w', pid, id, p);
    assert id in w'.nodes[p].stored;
  }

  /** A run in which no write of an ingested event fails for another reason than a known id. */
  predicate WritesSucceed(step: Step) {
    step.Store? ==> step.ioOk
  }

  lemma ServeAccountsAll(w: World, pid: nat)
    requires CanServe(w, pid) && AllAccounted(w)
    ensures AllAccounted(DoServe(w, pid))
  {
    var w' := DoServe(w, pid);
    forall p | p in w'.nodes
      ensures Accounted(w', p)
    {
      if p == w.pulls[pid].puller && Answer(w, w.pulls[pid]) != [] {
        ServeAccounts(w, w', pid, Answer(w, w.pulls[pid]));
      } else {
        NoNewDebtKeepsAccount(w, w', p);
      }
    }
  }

  lemma MarkAccountsAll(w: World, pid: nat)
    requires CanMark(w, pid) && AllAccounted(w)
    ensures AllAccounted(DoMark(w, pid))
  {
    forall p | p in DoMark(w, pid).nodes
      ensures Accounted(DoMark(w, pid), p)
    {
      var ph := w.pulls[pid].phase;
      if p != w.pulls[pid].puller {
        NoNewDebtKeepsAccount(w, DoMark(w, pid), p);
      } else if ph.events[ph.next].eventID in w.nodes[p].dedup {
        SkipAccounts(w, pid);
      } else {
        MarkAccounts(w, pid);
      }
    }
  }

  lemma StoreAccountsAll(w: World, pid: nat)
    requires Inv(w) && CanStore(w, pid) && AllAccounted(w)
    ensures AllAccounted(DoStore(w, pid, true))
  {
    forall p | p in DoStore(w, pid, true).nodes
      ensures Accounted(DoStore(w, pid, true), p)
    {
      if p == w.pulls[pid].puller {
        StoreAccounts(w, pid);
      } else {
        NoNewDebtKeepsAccount(w, DoStore(w, pid, true), p);
      }
    }
  }

  lemma NoDebtAnywhere(w: World, w': World)
    requires w'.nodes.Keys == w.nodes.Keys && AllAccounted(w)
    requires forall p :: p in w.nodes ==> NoNewDebt(w, w', p)
    ensures AllAccounted(w')
  {
    forall p | p in w'.nodes
      ensures Accounted(w', p)
    {
      NoNewDebtKeepsAccount(w, w', p);
    }
  }

  lemma NodeOnlyAccounts(w: World, n: string, node: Node)
    requires AllAccounted(w) && n in w.nodes
    requires node.handed == w.nodes[n].handed && node.dedup <= w.nodes[n].dedup && node.stored == w.nodes[n].stored
    ensures AllAccounted(WithNode(w, n, node))
  {
    NoDebtAnywhere(w, WithNode(w, n, node));
  }

  lemma PullsOnlyAccount(w: World, pulls: map<nat, Pull>)
    requires AllAccounted(w)
    requires forall pid :: pid in w.pulls && Busy(w.pulls[pid]) ==> pid in pulls && pulls[pid] == w.pulls[pid]
    ensures AllAccounted(w.(pulls := pulls))
  {
    NoDebtAnywhere(w, w.(pulls := pulls));
  }

  lemma FinishAccountsAll(w: World, pid: nat)
    requires CanFinish(w, pid) && AllAccounted(w)
    ensures AllAccounted(DoFinish(w, pid))
  {
    NoDebtAnywhere(w, DoFinish(w, pid));
  }

  lemma RestartAccountsAll(w: World, n: string)
    requires n in w.nodes && AllAccounted(w)
    ensures AllAccounted(DoRestart(w, n))
  {
    NoDebtAnywhere(w, DoRestart(w, n));
  }

  lemma AppendAccountsAll(w: World, n: string, e: Event, ioOk: bool)
    requires n in w.nodes && AllAccounted(w)
    ensures AllAccounted(DoAppend(w, n, e, ioOk))
  {
    NoDebtAnywhere(w, DoAppend(w, n, e, ioOk));
  }

  lemma StepAccounts(w: World, step: Step)
    requires Inv(w) && Enabled(w, step) && AllAccounted(w) && WritesSucceed(step)
    ensures AllAccounted(Exec(w, step))
  {
    hide Inv, Accounted, Appended, Lands;
    match step
    case Serve(pid) => ServeAccountsAll(w, pid);
    case Mark(pid) => MarkAccountsAll(w, pid);
    case Store(pid, ioOk) => StoreAccountsAll(w, pid);
    case Finish(pid) => FinishAccountsAll(w, pid);
    case Restart(n) => RestartAccountsAll(w, n);
    case LocalAppend(n, e, ioOk) => AppendAccountsAll(w, n, e, ioOk);
    case Compaction(n, olderThan, keepMin) =>
      NodeOnlyAccounts(w, n, w.nodes[n].(log := Compacted(w.nodes[n].log, olderThan, keepMin)));
    case Eviction(n, gone) => NodeOnlyAccounts(w, n, w.nodes[n].(dedup := w.nodes[n].dedup - gone));
    case Discover(n, peer, link) => NodeOnlyAccounts(w, n, w.nodes[n].(peers := w.nodes[n].peers[peer := link]));
    case Start(pid, p, s) => PullsOnlyAccount(w, Exec(w, step).pulls);
    case Lose(pid) => PullsOnlyAccount(w, w.pulls - {pid});
  }

  lemma {:induction false} RunAccounts(w: World, steps: seq<Step>)
    requires Inv(w) && AllAccounted(w) && CanRun(w, steps)
    requires forall step :: step in steps ==> WritesSucceed(step)
    ensures Inv(Run(w, steps)) && AllAccounted(Run(w, steps))
    decreases |steps|
  {
    if steps != [] {
      StepKeepsInv(w, steps[0]);
      StepAccounts(w, steps[0]);
      RunAccounts(Exec(w, steps[0]), steps[1..]);
    }
  }

  /**
   * No event lost: after any interleaving in which writes succeed, once no pull is in flight, every in-scope row a
   * peer still holds up to the puller's cursor has been stored by the puller.
   */
  lemma NothingLost(w: World, steps: seq<Step>, p: string, s: string, r: Row)
    requires Init(w) && CanRun(w, steps)
    requires forall step :: step in steps ==> WritesSucceed(step)
    requires var e := Run(w, steps);
             && e.pulls == map[] && Linked(e, p, s) && r in e.nodes[s].log.rows
             && r.num <= e.nodes[p].peers[s].lastSyncSeq && RowInScope(e.nodes[p].peers[s].scope)(r)
    ensures r.event.id in Run(w, steps).nodes[p].stored
  {
    RunAccounts(w, steps);
    var e := Run(w, steps);
    assert CursorSafe(e, p, s, e.nodes[p].peers[s].lastSyncSeq);
    assert (s, r.event.id) in e.nodes[p].handed;
  }

  // ------------------------------------------------------------------ every copy is the original

  ghost predicate RowFaithful(w: World, r: Row) {
    r.event.sourceNode != "" && r.event.id in w.origin && Payload(r.event) in w.origin[r.event.id]
  }

  ghost predicate EventFaithful(w: World, e: SyncEvent) {
    e.sourceNode != "" && e.eventID in w.origin && FromSync(e) in w.origin[e.eventID]
  }

  ghost predicate Faithful(w: World) {
    && (forall n, r :: n in w.nodes && r in w.nodes[n].log.rows ==> RowFaithful(w, r))
    && (forall pid, e :: pid in w.pulls && w.pulls[pid].phase.Ingesting? && e in w.pulls[pid].phase.events ==>
          EventFaithful(w, e))
    && (forall n, id :: n in w.nodes && id in w.nodes[n].stored ==> id in w.origin)
    && (forall id :: id in w.origin ==> StoredSomewhere(w, id))
  }

  ghost predicate StoredSomewhere(w: World, id: string) {
    exists n :: n in w.nodes && id in w.nodes[n].stored
  }

  /** Origins are never forgotten, nothing stored is forgotten, and what is new in logs and pulls is faithful. */
  ghost predicate FaithfulStep(w: World, w': World) {
    && w'.nodes.Keys == w.nodes.Keys
    && (forall id :: id in w.origin ==> id in w'.origin && w.origin[id] <= w'.origin[id])
    && (forall id :: id in w'.origin && id !in w.origin ==> StoredSomewhere(w', id))
    && (forall n, r :: n in w'.nodes && r in w'.nodes[n].log.rows ==> r in w.nodes[n].log.rows || RowFaithful(w', r))
    && (forall n :: n in w'.nodes ==> w.nodes[n].stored <= w'.nodes[n].stored)
    && (forall n, id :: n in w'.nodes && id in w'.nodes[n].stored ==> id in w.nodes[n].stored || id in w'.origin)
    && (forall pid, e :: pid in w'.pulls && w'.pulls[pid].phase.Ingesting? && e in w'.pulls[pid].phase.events ==>
          (pid in w.pulls && w.pulls[pid].phase.Ingesting? && e in w.pulls[pid].phase.events) || EventFaithful(w', e))
  }

  lemma FaithfulStepKeeps(w: World, w': World)
    requires Faithful(w) && FaithfulStep(w, w')
    ensures Faithful(w')
  {
    forall id | id in w'.origin
      ensures StoredSomewhere(w', id)
    {
      if id in w.origin {
        var n :| n in w.nodes && id in w.nodes[n].stored;
        assert n in w'.nodes && id in w'.nodes[n].stored;
      }
    }
    forall n, r | n in w'.nodes && r in w'.nodes[n].log.rows
      ensures RowFaithful(w', r)
    {
      if r in w.nodes[n].log.rows {
        assert RowFaithful(w, r);
      }
    }
    forall pid, e | pid in w'.pulls && w'.pulls[pid].phase.Ingesting? && e in w'.pulls[pid].phase.events
      ensures EventFaithful(w', e)
    {
      if pid in w.pulls && w.pulls[pid].phase.Ingesting? && e in w.pulls[pid].phase.events {
        assert EventFaithful(w, e);
      }
    }
  }

  lemma AppendIsFaithful(w: World, n: string, e: Event, ioOk: bool)
    requires Inv(w) && Faithful(w) && n in w.nodes
    ensures Faithful(DoAppend(w, n, e, ioOk))
  {
    hide CursorSafe, PullSafe, LogInv;
    var w' := DoAppend(w, n, e, ioOk);
    assert NodeOk(w.nodes[n]);
    if Lands(w.nodes[n].log, e, ioOk) {
      assert e.id in w'.nodes[n].stored;
      assert RowFaithful(w', w'.nodes[n].log.rows[|w.nodes[n].log.rows|]);
    }
    FaithfulStepKeeps(w, w');
  }

  lemma AnswerIsFaithful(w: World, pull: Pull)
    requires Faithful(w) && Linked(w, pull.puller, pull.server) && pull.phase.Requested?
    ensures forall e :: e in Answer(w, pull) ==> EventFaithful(w, e)
  {
    var p, s := w.nodes[pull.puller], w.nodes[pull.server];
    var rows := Served(s.log.rows, s.batch, SyncRequest(pull.puller, pull.phase.after, p.batch,
      p.peers[pull.server].scope));
    forall e | e in Answer(w, pull)
      ensures EventFaithful(w, e)
    {
      var i :| 0 <= i < |rows| && ToSync(rows[i]) == e;
      assert rows[i] in rows && rows[i] in s.log.rows;
      assert RowFaithful(w, rows[i]);
    }
  }

  lemma ServeIsFaithful(w: World, pid: nat)
    requires Faithful(w) && CanServe(w, pid)
    ensures Faithful(DoServe(w, pid))
  {
    AnswerIsFaithful(w, w.pulls[pid]);
    FaithfulStepKeeps(w, DoServe(w, pid));
  }

  lemma StoreIsFaithful(w: World, pid: nat, ioOk: bool)
    requires Faithful(w) && CanStore(w, pid)
    ensures Faithful(DoStore(w, pid, ioOk))
  {
    var w', pull := DoStore(w, pid, ioOk), w.pulls[pid];
    var se := pull.phase.events[pull.phase.next];
    assert se in pull.phase.events;
    assert EventFaithful(w, se);
    var e := FromSync(se);
    var log := w.nodes[pull.puller].log;
    if Lands(log, e, ioOk) {
      assert RowFaithful(w', w'.nodes[pull.puller].log.rows[|log.rows|]);
    }
    FaithfulStepKeeps(w, w');
  }

  lemma NodeOnlyIsFaithful(w: World, n: string, node: Node)
    requires Faithful(w) && n in w.nodes
    requires node.stored == w.nodes[n].stored && forall r :: r in node.log.rows ==> r in w.nodes[n].log.rows
    ensures Faithful(WithNode(w, n, node))
  {
    FaithfulStepKeeps(w, WithNode(w, n, node));
  }

  lemma PullsOnlyIsFaithful(w: World, pulls: map<nat, Pull>)
    requires Faithful(w)
    requires forall pid :: pid in pulls ==> pulls[pid].phase.Requested? || (pid in w.pulls && pulls[pid] == w.pulls[pid])
    ensures Faithful(w.(pulls := pulls))
  {
    FaithfulStepKeeps(w, w.(pulls := pulls));
  }

  lemma MarkIsFaithful(w: World, pid: nat)
    requires Faithful(w) && CanMark(w, pid)
    ensures Faithful(DoMark(w, pid))
  {
    FaithfulStepKeeps(w, DoMark(w, pid));
  }

  lemma FinishIsFaithful(w: World, pid: nat)
    requires Faithful(w) && CanFinish(w, pid)
    ensures Faithful(DoFinish(w, pid))
  {
    FaithfulStepKeeps(w, DoFinish(w, pid));
  }

  lemma RestartIsFaithful(w: World, n: string)
    requires Faithful(w) && n in w.nodes
    ensures Faithful(DoRestart(w, n))
  {
    FaithfulStepKeeps(w, DoRestart(w, n));
  }

  lemma StepIsFaithful(w: World, step: Step)
    requires Inv(w) && Faithful(w) && Enabled(w, step)
    ensures Faithful(Exec(w, step))
  {
    hide Inv, Faithful, Appended, Lands;
    match step
    case LocalAppend(n, e, ioOk) => AppendIsFaithful(w, n, e, ioOk);
    case Serve(pid) => ServeIsFaithful(w, pid);
    case Store(pid, ioOk) => StoreIsFaithful(w, pid, ioOk);
    case Mark(pid) => MarkIsFaithful(w, pid);
    case Finish(pid) => FinishIsFaithful(w, pid);
    case Restart(n) => RestartIsFaithful(w, n);
    case Compaction(n, olderThan, keepMin) =>
      NodeOnlyIsFaithful(w, n, w.nodes[n].(log := Compacted(w.nodes[n].log, olderThan, keepMin)));
    case Eviction(n, gone) => NodeOnlyIsFaithful(w, n, w.nodes[n].(dedup := w.nodes[n].dedup - gone));
    case Discover(n, peer, link) => NodeOnlyIsFaithful(w, n, w.nodes[n].(peers := w.nodes[n].peers[peer := link]));
    case Start(pid, p, s) => PullsOnlyIsFaithful(w, Exec(w, step).pulls);
    case Lose(pid) => PullsOnlyIsFaithful(w, w.pulls - {pid});
  }

  lemma {:induction false} RunIsFaithful(w: World, steps: seq<Step>)
    requires Inv(w) && Faithful(w) && CanRun(w, steps)
    ensures Inv(Run(w, steps)) && Faithful(Run(w, steps))
    decreases |steps|
  {
    if steps != [] {
      StepKeepsInv(w, steps[0]);
      StepIsFaithful(w, steps[0]);
      RunIsFaithful(Exec(w, steps[0]), steps[1..]);
    }
  }

  /**
   * Integrity over any number of hops: whatever stands in a log was appended by some instance under that id, apart from
   * metadata, policy version and causal parent, which do not travel.
   */
  lemma CopiesAreOriginals(w: World, steps: seq<Step>, n: string, r: Row)
    requires Init(w) && (forall id :: id in w.origin ==> StoredSomewhere(w, id)) && CanRun(w, steps)
    requires n in Run(w, steps).nodes && r in Run(w, steps).nodes[n].log.rows
    ensures r.event.id in Run(w, steps).origin && Payload(r.event) in Run(w, steps).origin[r.event.id]
  {
    InitIsFaithful(w);
    RunIsFaithful(w, steps);
    assert RowFaithful(Run(w, steps), r);
  }

  /** Two logs that hold an id hold the same event, unless instances appended different events under it themselves. */
  lemma CopiesAgree(w: World, steps: seq<Step>, a: string, b: string, r: Row, r': Row)
    requires Init(w) && (forall id :: id in w.origin ==> StoredSomewhere(w, id)) && CanRun(w, steps)
    requires var e := Run(w, steps);
             a in e.nodes && b in e.nodes && r in e.nodes[a].log.rows && r' in e.nodes[b].log.rows
    requires r.event.id == r'.event.id
    ensures Payload(r.event) == Payload(r'.event)
            || exists x, y :: {x, y} <= OriginsOf(Run(w, steps), r.event.id) && x != y
  {
    hide Run, Init, CanRun;
    CopiesAreOriginals(w, steps, a, r);
    CopiesAreOriginals(w, steps, b, r');
    if Payload(r.event) != Payload(r'.event) {
      assert {Payload(r.event), Payload(r'.event)} <= OriginsOf(Run(w, steps), r.event.id);
    }
  }

  lemma InitIsFaithful(w: World)
    requires Init(w) && forall id :: id in w.origin ==> StoredSomewhere(w, id)
    ensures Faithful(w)
  {
    forall n, id | n in w.nodes && id in w.nodes[n].stored
      ensures id in w.origin
    {
      var r :| r in w.nodes[n].log.rows && r.event.id == id;
    }
  }
}
