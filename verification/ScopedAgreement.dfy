/**
 * Where fair gossip ends up when links have scopes: every cursor stops at the first position past its start where the
 * puller stalls, and every log holds what it held at first and what its links brought up to there.
 */
module ScopedAgreement {
  import opened Lists
  import opened EventLog
  import opened Federation
  import opened Gossip
  import opened Delivery
  import opened Convergence
  import opened EventualAgreement
  import CatchUp

  // ------------------------------------------------------------------ where a link stops

  /**
   * The cursor at which pulling again and again from the log that s has in v stops, starting where the link stood in
   * w0.
   */
  ghost function End(w0: World, v: World, p: string, s: string): nat {
    if Linked(v, p, s) && TableInv(v.nodes[s].log.rows) then
      CatchUp.CatchUp(v.nodes[s].log.rows, BatchSize(v.nodes[s].batch, v.nodes[p].batch),
                      v.nodes[p].peers[s].scope, Cursor(w0, p, s)).0
    else 0
  }

  lemma ServedByBatch(rows: seq<Row>, batch: nat, asked: nat, id: string, after: nat, scope: SyncScope)
    ensures Served(rows, batch, SyncRequest(id, after, asked, scope))
            == Served(rows, BatchSize(batch, asked), CatchUp.Request(BatchSize(batch, asked), scope, after))
  {
  }

  /** What a shorter log answers, the log it grows into answers as well. */
  lemma PrefixIsServed(a: seq<Row>, b: seq<Row>, batch: nat, req: SyncRequest)
    requires a <= b
    ensures forall r :: r in Served(a, batch, req) ==> r in Served(b, batch, req)
  {
    hide Admits, RowInScope, Select;
    var c := b[|a|..];
    assert b == a + c;
    SelectAppend(a, c, Admits(AfterFilter(req.afterSequence, 0)));
    var x, y := Window(a, batch, req), Window(b, batch, req);
    assert x <= y;
    assert y == x + y[|x|..];
    SelectAppend(x, y[|x|..], RowInScope(req.scope));
  }

  /** The link cannot be answered from the end, and no answer from below leads past it. */
  lemma EndIsAStall(w0: World, v: World, p: string, s: string)
    requires Linked(v, p, s) && TableInv(v.nodes[s].log.rows)
    ensures Cursor(w0, p, s) <= End(w0, v, p, s)
    ensures Served(v.nodes[s].log.rows, v.nodes[s].batch,
                   SyncRequest(p, End(w0, v, p, s), v.nodes[p].batch, v.nodes[p].peers[s].scope)) == []
  {
    hide Cursor, Served, CatchUp.CatchUp;
    var b := BatchSize(v.nodes[s].batch, v.nodes[p].batch);
    CatchUp.DeliversUpToTheCursor(v.nodes[s].log.rows, b, v.nodes[p].peers[s].scope, Cursor(w0, p, s));
    ServedByBatch(v.nodes[s].log.rows, v.nodes[s].batch, v.nodes[p].batch, p, End(w0, v, p, s),
      v.nodes[p].peers[s].scope);
  }

  lemma AnswersStayBelowEnd(w0: World, v: World, p: string, s: string, rows: seq<Row>, after: nat)
    requires Linked(v, p, s) && TableInv(v.nodes[s].log.rows)
    requires rows <= v.nodes[s].log.rows && after <= End(w0, v, p, s)
    ensures forall r :: r in Served(rows, v.nodes[s].batch, SyncRequest(p, after, v.nodes[p].batch, v.nodes[p].peers[s].scope)) ==>
        r.num <= End(w0, v, p, s)
  {
    hide Cursor, Served, End;
    var all, sb, pb, scope := v.nodes[s].log.rows, v.nodes[s].batch, v.nodes[p].batch, v.nodes[p].peers[s].scope;
    var b, end := BatchSize(sb, pb), End(w0, v, p, s);
    EndIsAStall(w0, v, p, s);
    PrefixIsServed(rows, all, sb, SyncRequest(p, after, pb, scope));
    ServedByBatch(all, sb, pb, p, after, scope);
    ServedByBatch(all, sb, pb, p, end, scope);
    CatchUp.CannotPassAStall(all, b, scope, after, end);
  }

  /** Any stall at or past the start lies at or past the end. */
  lemma EndIsTheFirstStall(w0: World, v: World, p: string, s: string, g: nat)
    requires Linked(v, p, s) && TableInv(v.nodes[s].log.rows) && Cursor(w0, p, s) <= g
    requires Served(v.nodes[s].log.rows, v.nodes[s].batch,
                    SyncRequest(p, g, v.nodes[p].batch, v.nodes[p].peers[s].scope)) == []
    ensures End(w0, v, p, s) <= g
  {
    hide Cursor, Served, CatchUp.CatchUp;
    var all, sb, pb, scope := v.nodes[s].log.rows, v.nodes[s].batch, v.nodes[p].batch, v.nodes[p].peers[s].scope;
    ServedByBatch(all, sb, pb, p, g, scope);
    CatchUp.StaysBehind(all, BatchSize(sb, pb), scope, Cursor(w0, p, s), g);
  }

  // ------------------------------------------------------------------ what stays within

  /** The link p to s brings this id: s holds it in scope, past where the link stood in w0 and up to its end. */
  ghost predicate Brought(w0: World, v: World, p: string, s: string, id: string) {
    && Edge(v, p, s)
    && exists r :: r in v.nodes[s].log.rows && r.event.id == id && RowInScope(v.nodes[p].peers[s].scope)(r)
                   && Cursor(w0, p, s) < r.num <= End(w0, v, p, s)
  }

  ghost predicate PullWithin(w0: World, v: World, u: World, pull: Pull) {
    && Linked(u, pull.puller, pull.server) && u.nodes[pull.puller].peers[pull.server].trustLevel >= 1
    && Cursor(w0, pull.puller, pull.server) < Target(pull) && Reach(pull) <= End(w0, v, pull.puller, pull.server)
    && (pull.phase.Ingesting? ==>
          forall e :: e in pull.phase.events ==> Brought(w0, v, pull.puller, pull.server, e.eventID))
  }

  ghost predicate CursorWithin(w0: World, v: World, u: World, p: string, s: string) {
    Cursor(w0, p, s) <= Cursor(u, p, s) <= End(w0, v, p, s)
  }

  ghost predicate LogWithin(w0: World, v: World, u: World, p: string) {
    p in u.nodes && p in w0.nodes
    && forall id :: id in Ids(u.nodes[p].log.rows) ==>
         id in Ids(w0.nodes[p].log.rows) || exists s :: Brought(w0, v, p, s, id)
  }

  /** Everything in u stays within what the links can bring on the way from w0 to the logs of v. */
  ghost predicate AllWithin(w0: World, v: World, u: World) {
    && (forall p, s :: Linked(u, p, s) ==> CursorWithin(w0, v, u, p, s))
    && (forall pid :: pid in u.pulls ==> PullWithin(w0, v, u, u.pulls[pid]))
    && forall p :: p in u.nodes ==> LogWithin(w0, v, u, p)
  }

  lemma StartsWithin(w: World, v: World)
    requires w.pulls == map[] && KinWorlds(w, v) && Good(v)
    ensures AllWithin(w, v, w)
  {
    hide Cursor, End, KinWorlds, Brought;
    forall p, s | Linked(w, p, s)
      ensures CursorWithin(w, v, w, p, s)
    {
      KinKeepsEdges(w, v, p, s);
      assert NodeOk(v.nodes[s]);
      EndIsAStall(w, v, p, s);
    }
  }

  /** What u and v have in common on a link. */
  ghost predicate SameLink(u: World, v: World, p: string, s: string) {
    && Linked(u, p, s) && Linked(v, p, s)
    && v.nodes[p].batch == u.nodes[p].batch && v.nodes[s].batch == u.nodes[s].batch
    && v.nodes[p].peers[s].scope == u.nodes[p].peers[s].scope
    && u.nodes[s].log.rows <= v.nodes[s].log.rows
    && TableInv(u.nodes[s].log.rows) && TableInv(v.nodes[s].log.rows)
  }

  lemma LinkIsSame(u: World, v: World, p: string, s: string)
    requires KinWorlds(u, v) && Good(v) && Inv(u) && Linked(u, p, s)
    ensures SameLink(u, v, p, s)
  {
    KinKeepsEdges(u, v, p, s);
    assert Kin(u.nodes[p], v.nodes[p]) && Kin(u.nodes[s], v.nodes[s]);
    assert NodeOk(v.nodes[s]) && NodeOk(u.nodes[s]);
  }

  lemma RowIsBrought(w0: World, v: World, u: World, p: string, s: string, after: nat, e: SyncEvent)
    requires SameLink(u, v, p, s) && Edge(v, p, s)
    requires Cursor(w0, p, s) <= after <= End(w0, v, p, s)
    requires e in Answer(u, Pull(p, s, Requested(after)))
    ensures Brought(w0, v, p, s, e.eventID) && Cursor(w0, p, s) < e.num <= End(w0, v, p, s)
  {
    hide Cursor, End, Served, Edge;
    var rows := u.nodes[s].log.rows;
    var req := SyncRequest(p, after, u.nodes[p].batch, u.nodes[p].peers[s].scope);
    AnswersStayBelowEnd(w0, v, p, s, rows, after);
    var r := AnswerRow(rows, u.nodes[s].batch, req, e);
    assert r in v.nodes[s].log.rows;
  }

  /** An answer brings what the link may bring. */
  lemma AnswerIsBrought(w0: World, v: World, u: World, p: string, s: string, after: nat)
    requires KinWorlds(u, v) && Good(v) && Inv(u) && Edge(u, p, s)
    requires Cursor(w0, p, s) <= after <= End(w0, v, p, s)
    ensures Linked(u, p, s) && forall e :: e in Answer(u, Pull(p, s, Requested(after))) ==>
        Brought(w0, v, p, s, e.eventID) && Cursor(w0, p, s) < e.num <= End(w0, v, p, s)
  {
    hide Cursor, End, Answer, Brought, KinWorlds, Inv, Good, SameLink, Answers;
    KinKeepsEdges(u, v, p, s);
    LinkIsSame(u, v, p, s);
    forall e | e in Answer(u, Pull(p, s, Requested(after)))
      ensures Brought(w0, v, p, s, e.eventID) && Cursor(w0, p, s) < e.num <= End(w0, v, p, s)
    {
      RowIsBrought(w0, v, u, p, s, after, e);
    }
  }

  lemma AnswerRow(rows: seq<Row>, batch: nat, req: SyncRequest, e: SyncEvent) returns (r: Row)
    requires TableInv(rows) && e in ToSyncAll(Served(rows, batch, req))
    ensures r in Served(rows, batch, req) && e.eventID == r.event.id && e.num == r.num
    ensures r in rows && RowInScope(req.scope)(r) && req.afterSequence < r.num
  {
    hide RowInScope;
    var served := Served(rows, batch, req);
    var i :| 0 <= i < |served| && ToSync(served[i]) == e;
    r := served[i];
    assert r in served;
    CatchUp.AnswerIsComplete(rows, batch, req);
  }

  lemma CursorsStayWithin(w0: World, v: World, u: World, u': World, step: Step)
    requires AllWithin(w0, v, u) && CursorMoves(u, u', step) && KinWorlds(u, u')
    ensures forall p, s :: Linked(u', p, s) ==> CursorWithin(w0, v, u', p, s)
  {
    hide Cursor, End, KinWorlds, Brought, LogWithin, Linked;
    forall p, s | Linked(u', p, s)
      ensures CursorWithin(w0, v, u', p, s)
    {
      KinKeepsEdges(u, u', p, s);
      assert CursorWithin(w0, v, u, p, s);
      if Cursor(u', p, s) != Cursor(u, p, s) {
        assert PullWithin(w0, v, u, u.pulls[step.pid]);
      }
    }
  }

  lemma PullStaysWithin(w0: World, v: World, u: World, u': World, pull: Pull, pull': Pull)
    requires PullWithin(w0, v, u, pull) && KinWorlds(u, u') && On(pull', pull.puller, pull.server)
    requires Target(pull) <= Target(pull') && Reach(pull') == Reach(pull)
    requires pull'.phase.Ingesting? ==> pull.phase.Ingesting? && pull'.phase.events == pull.phase.events
    ensures PullWithin(w0, v, u', pull')
  {
    hide Cursor, End, KinWorlds, Brought;
    KinKeepsEdges(u, u', pull.puller, pull.server);
  }

  lemma StartStaysWithin(w0: World, v: World, u: World, pid: nat, p: string, s: string)
    requires AllWithin(w0, v, u) && Enabled(u, Start(pid, p, s))
    ensures PullWithin(w0, v, Exec(u, Start(pid, p, s)), Exec(u, Start(pid, p, s)).pulls[pid])
  {
    hide End, Brought, LogWithin;
    assert CursorWithin(w0, v, u, p, s);
  }

  lemma ServedPull(u: World, pid: nat)
    requires CanServe(u, pid) && pid in DoServe(u, pid).pulls
    ensures Answer(u, u.pulls[pid]) != []
    ensures DoServe(u, pid).pulls[pid] == u.pulls[pid].(phase := Ingesting(Answer(u, u.pulls[pid]), 0, false))
    ensures KinWorlds(u, DoServe(u, pid))
  {
    hide Answer, IdsOf;
  }

  lemma IngestingIsWithin(w0: World, v: World, u: World, p: string, s: string, events: seq<SyncEvent>)
    requires Linked(u, p, s) && u.nodes[p].peers[s].trustLevel >= 1 && events != []
    requires forall e :: e in events ==>
        Brought(w0, v, p, s, e.eventID) && Cursor(w0, p, s) < e.num <= End(w0, v, p, s)
    ensures PullWithin(w0, v, u, Pull(p, s, Ingesting(events, 0, false)))
  {
    hide Cursor, End, Brought;
    assert events[|events| - 1] in events;
  }

  lemma ServeStaysWithin(w0: World, v: World, u: World, pid: nat, p: string, s: string, after: nat)
    requires KinWorlds(u, v) && Good(v) && Inv(u) && Edge(u, p, s)
    requires CanServe(u, pid) && u.pulls[pid] == Pull(p, s, Requested(after)) && pid in DoServe(u, pid).pulls
    requires Cursor(w0, p, s) <= after <= End(w0, v, p, s)
    ensures PullWithin(w0, v, DoServe(u, pid), DoServe(u, pid).pulls[pid])
  {
    hide Cursor, End, Answer, Brought, KinWorlds, Inv, Good, PullWithin, DoServe, CanServe, Answers;
    ServedPull(u, pid);
    AnswerIsBrought(w0, v, u, p, s, after);
    KinKeepsEdges(u, DoServe(u, pid), p, s);
    IngestingIsWithin(w0, v, DoServe(u, pid), p, s, Answer(u, Pull(p, s, Requested(after))));
  }

  lemma AnsweringPull(w0: World, v: World, u: World, pid: nat) returns (p: string, s: string, after: nat)
    requires Enabled(u, Serve(pid)) && pid in u.pulls && PullWithin(w0, v, u, u.pulls[pid])
    ensures CanServe(u, pid) && u.pulls[pid] == Pull(p, s, Requested(after)) && Edge(u, p, s)
    ensures Cursor(w0, p, s) <= after <= End(w0, v, p, s)
  {
    hide Cursor, End;
    p, s, after := u.pulls[pid].puller, u.pulls[pid].server, u.pulls[pid].phase.after;
  }

  /** What a step leaves of a pull it does not open or answer. */
  lemma OtherPullsGoOn(u: World, step: Step, q: nat)
    requires Enabled(u, step) && GossipOnly(step) && q in Exec(u, step).pulls
    requires !(step.Start? && step.pid == q) && !(step.Serve? && step.pid == q)
    ensures q in u.pulls
    ensures var a, b := u.pulls[q], Exec(u, step).pulls[q];
      && On(b, a.puller, a.server) && Target(a) == Target(b) && Reach(b) == Reach(a)
      && (b.phase.Ingesting? ==> a.phase.Ingesting? && b.phase.events == a.phase.events)
  {
    hide Answer, FromSync, Appended;
  }

  lemma PullsStayWithin(w0: World, v: World, u: World, step: Step, q: nat)
    requires AllWithin(w0, v, u) && KinWorlds(u, v) && Good(v) && Inv(u)
    requires Enabled(u, step) && GossipOnly(step) && q in Exec(u, step).pulls
    ensures PullWithin(w0, v, Exec(u, step), Exec(u, step).pulls[q])
  {
    hide Cursor, End, Brought, LogWithin, KinWorlds, Inv, Good, PullWithin, DoServe, DoMark, DoStore, DoFinish,
      DoRestart, DoAppend;
    if step.Start? && step.pid == q {
      StartStaysWithin(w0, v, u, q, step.puller, step.server);
    } else if step.Serve? && step.pid == q {
      assert q in u.pulls && PullWithin(w0, v, u, u.pulls[q]);
      var p, s, after := AnsweringPull(w0, v, u, q);
      ServeStaysWithin(w0, v, u, q, p, s, after);
    } else {
      OtherPullsGoOn(u, step, q);
      StepIsKin(u, step);
      PullStaysWithin(w0, v, u, Exec(u, step), u.pulls[q], Exec(u, step).pulls[q]);
    }
  }

  /** A step adds to a log only the id of an event that a pull of that node is ingesting. */
  lemma NewIdsAreIngested(u: World, step: Step, p: string, id: string)
    requires Enabled(u, step) && GossipOnly(step) && p in u.nodes && p in Exec(u, step).nodes
    requires id in Ids(Exec(u, step).nodes[p].log.rows) && id !in Ids(u.nodes[p].log.rows)
    ensures exists q, e :: q in u.pulls && u.pulls[q].puller == p && u.pulls[q].phase.Ingesting?
                           && e in u.pulls[q].phase.events && e.eventID == id
  {
    hide Answer;
    match step {
      case Store(q, ioOk) =>
        var ph := u.pulls[q].phase;
        IdsOfAppended(u.nodes[u.pulls[q].puller].log, FromSync(ph.events[ph.next]), ioOk);
        assert ph.events[ph.next] in ph.events;
      case _ =>
    }
  }

  lemma LogsStayWithin(w0: World, v: World, u: World, step: Step, p: string)
    requires AllWithin(w0, v, u) && Enabled(u, step) && GossipOnly(step) && p in Exec(u, step).nodes && p in u.nodes
    ensures LogWithin(w0, v, Exec(u, step), p)
  {
    hide Exec, Enabled, Cursor, End, Brought, Ids;
    assert LogWithin(w0, v, u, p);
    forall id | id in Ids(Exec(u, step).nodes[p].log.rows)
      ensures id in Ids(w0.nodes[p].log.rows) || exists s :: Brought(w0, v, p, s, id)
    {
      if id !in Ids(u.nodes[p].log.rows) {
        NewIdsAreIngested(u, step, p, id);
        var q, e :| q in u.pulls && u.pulls[q].puller == p && u.pulls[q].phase.Ingesting?
                    && e in u.pulls[q].phase.events && e.eventID == id;
        assert PullWithin(w0, v, u, u.pulls[q]);
        assert Brought(w0, v, p, u.pulls[q].server, id);
      }
    }
  }

  lemma StepStaysWithin(w0: World, v: World, u: World, step: Step)
    requires AllWithin(w0, v, u) && KinWorlds(u, v) && Good(v) && Inv(u) && Enabled(u, step) && GossipOnly(step)
    ensures AllWithin(w0, v, Exec(u, step))
  {
    hide Exec, Enabled, KinWorlds, Good, Inv, CursorWithin, PullWithin, LogWithin, CursorMoves;
    var u' := Exec(u, step);
    StepIsKin(u, step);
    StepMovesCursors(u, step);
    CursorsStayWithin(w0, v, u, u', step);
    forall q | q in u'.pulls
      ensures PullWithin(w0, v, u', u'.pulls[q])
    {
      PullsStayWithin(w0, v, u, step, q);
    }
    SameKeys(u, u');
    forall p | p in u'.nodes
      ensures LogWithin(w0, v, u', p)
    {
      LogsStayWithin(w0, v, u, step, p);
    }
  }

  // ------------------------------------------------------------------ the whole execution

  /** Once the logs have settled, every state is on the way to them. */
  lemma TowardsTheEnd(w: nat -> World, st: nat -> Step, tau: nat, i: nat)
    requires Execution(w, st) && Settled(w, tau)
    ensures KinWorlds(w(i), w(tau))
  {
    hide StepAt, Good, SamePeers;
    if i <= tau {
      KinAt(w, st, i, tau);
    } else {
      KinAt(w, st, tau, i);
      assert SameRows(w(tau), w(i));
      forall n | n in w(i).nodes
        ensures Kin(w(i).nodes[n], w(tau).nodes[n])
      {
        assert Kin(w(tau).nodes[n], w(i).nodes[n]);
        PeersBothWays(w(tau).nodes[n].peers, w(i).nodes[n].peers);
      }
    }
  }

  lemma PeersBothWays(a: map<string, Peer>, b: map<string, Peer>)
    requires SamePeers(a, b)
    ensures SamePeers(b, a)
  {
  }

  lemma {:induction false} WithinAt(w: nat -> World, st: nat -> Step, tau: nat, i: nat)
    requires Execution(w, st) && Settled(w, tau) && w(0).pulls == map[]
    ensures AllWithin(w(0), w(tau), w(i))
    decreases i
  {
    hide Exec, Enabled, KinWorlds, Inv, AllAccounted, Faithful, Complete, AllWithin, Settled;
    GoodAt(w, st, tau);
    if i == 0 {
      TowardsTheEnd(w, st, tau, 0);
      StartsWithin(w(0), w(tau));
    } else {
      WithinAt(w, st, tau, i - 1);
      TowardsTheEnd(w, st, tau, i - 1);
      GoodAt(w, st, i - 1);
      assert StepAt(w, st, i - 1);
      StepStaysWithin(w(0), w(tau), w(i - 1), st(i - 1));
    }
  }

  /** At rest everything in scope up to the cursor is stored. */
  lemma StoredUpToTheCursor(u: World, p: string, s: string, r: Row)
    requires Good(u) && Quiet(u) && Linked(u, p, s) && r in u.nodes[s].log.rows
    requires r.num <= Cursor(u, p, s) && RowInScope(u.nodes[p].peers[s].scope)(r)
    ensures r.event.id in Ids(u.nodes[p].log.rows)
  {
    hide Faithful, RowInScope, Ids;
    assert CursorSafe(u, p, s, u.nodes[p].peers[s].lastSyncSeq);
    assert (s, r.event.id) in u.nodes[p].handed && Accounted(u, p);
  }

  lemma RestsAtTheEnd(w0: World, u: World, p: string, s: string)
    requires Good(u) && Quiet(u) && Edge(u, p, s) && CursorWithin(w0, u, u, p, s)
    ensures Cursor(u, p, s) == End(w0, u, p, s)
  {
    hide End, CatchUp.CatchUp, Served;
    assert Next(u, p, s) == [];
    assert NodeOk(u.nodes[s]);
    EndIsTheFirstStall(w0, u, p, s, Cursor(u, p, s));
  }

  /** The cursor of every link is at its end, and every log holds exactly what it held and what its links brought. */
  ghost predicate SettledAtTheEnds(w0: World, u: World) {
    && (forall p, s :: Edge(u, p, s) ==> Cursor(u, p, s) == End(w0, u, p, s))
    && forall p, id :: p in u.nodes && p in w0.nodes ==>
         (id in Ids(u.nodes[p].log.rows) <==> id in Ids(w0.nodes[p].log.rows) || exists s :: Brought(w0, u, p, s, id))
  }

  lemma SettlesAtTheEnds(w0: World, u: World)
    requires Good(u) && Quiet(u) && KinWorlds(w0, u) && AllWithin(w0, u, u)
    ensures SettledAtTheEnds(w0, u)
  {
    hide Good, Quiet, Cursor, End, Ids, Brought, CursorWithin;
    forall p, s | Edge(u, p, s)
      ensures Cursor(u, p, s) == End(w0, u, p, s)
    {
      RestsAtTheEnd(w0, u, p, s);
    }
    forall p, id | p in u.nodes && p in w0.nodes
      ensures id in Ids(u.nodes[p].log.rows) <==> id in Ids(w0.nodes[p].log.rows) || exists s :: Brought(w0, u, p, s, id)
    {
      assert LogWithin(w0, u, u, p);
      KeptIds(w0, u, p);
      if s :| Brought(w0, u, p, s, id) {
        BroughtOverAnEdge(w0, u, p, s, id);
        BroughtIsStored(w0, u, p, s, id);
      }
    }
  }

  lemma KeptIds(w0: World, u: World, p: string)
    requires KinWorlds(w0, u) && p in w0.nodes && p in u.nodes
    ensures Ids(w0.nodes[p].log.rows) <= Ids(u.nodes[p].log.rows)
  {
    hide Ids;
    assert Kin(w0.nodes[p], u.nodes[p]);
    PrefixIds(w0.nodes[p].log.rows, u.nodes[p].log.rows);
  }

  lemma BroughtOverAnEdge(w0: World, u: World, p: string, s: string, id: string)
    requires Brought(w0, u, p, s, id)
    ensures Edge(u, p, s)
  {
    hide Edge;
  }

  lemma BroughtIsStored(w0: World, u: World, p: string, s: string, id: string)
    requires Good(u) && Quiet(u) && Brought(w0, u, p, s, id) && Cursor(u, p, s) == End(w0, u, p, s)
    ensures p in u.nodes && id in Ids(u.nodes[p].log.rows)
  {
    hide Good, Quiet, Cursor, End, Ids, RowInScope;
    var r :| r in u.nodes[s].log.rows && r.event.id == id && RowInScope(u.nodes[p].peers[s].scope)(r)
             && Cursor(w0, p, s) < r.num <= End(w0, u, p, s);
    StoredUpToTheCursor(u, p, s, r);
  }

  /**
   * Scoped agreement: in every fair endless execution that begins with no open pull, whatever the scopes and links, from
   * some time on every cursor stands at the first stall past its start, and every log holds exactly what it held and,
   * for each link, the rows of the peer's final log that are in scope up to that stall.
   */
  lemma FairGossipSettlesAtTheEnds(w: nat -> World, st: nat -> Step) returns (tau: nat)
    requires Execution(w, st) && Fair(w, st) && w(0).pulls == map[]
    ensures forall i: nat :: i >= tau ==> SettledAtTheEnds(w(0), w(i)) && SameRows(w(tau), w(i))
  {
    hide StepAt, Good, Fair, Quiet, AllStill, KinWorlds, AllWithin, SettledAtTheEnds, SameRows;
    tau := GossipSettles(w, st);
    forall i: nat | i >= tau
      ensures SettledAtTheEnds(w(0), w(i))
    {
      KinAt(w, st, tau, i);
      SameKeys(w(tau), w(i));
      SettledLater(w, tau, i);
      WithinAt(w, st, i, i);
      GoodAt(w, st, i);
      KinAt(w, st, 0, i);
      SettlesAtTheEnds(w(0), w(i));
    }
  }
}
