/** What each part of a sync scope means for the answers of a peer, and for what a log can come to hold. */
module ScopeLaws {
  import opened Lists
  import opened EventLog
  import opened Federation
  import opened Gossip

  // ------------------------------------------------------------------ one answer

  lemma Cuts(rows: seq<Row>, batch: nat, req: SyncRequest, scope: SyncScope, keeps: Row -> bool)
    requires forall r :: RowInScope(scope)(r) <==> RowInScope(req.scope)(r) && keeps(r)
    ensures Served(rows, batch, req.(scope := scope)) == Select(Served(rows, batch, req), keeps)
  {
    hide RowInScope, RowsAfter;
    SelectBoth(Window(rows, batch, req), RowInScope(req.scope), keeps, RowInScope(scope));
  }

  /** Excluding one more type takes the events of that type out of the answer, and no others. */
  lemma ExcludingCuts(rows: seq<Row>, batch: nat, req: SyncRequest, t: string)
    ensures Served(rows, batch, req.(scope := req.scope.(excludeTypes := req.scope.excludeTypes + [t])))
            == Select(Served(rows, batch, req), (r: Row) => r.event.kind != t)
  {
    hide Served;
    Cuts(rows, batch, req, req.scope.(excludeTypes := req.scope.excludeTypes + [t]), (r: Row) => r.event.kind != t);
  }

  /** Listing types, regions or transports cuts the unlisted answer; an event without a region or transport stays. */
  lemma ListingCuts(rows: seq<Row>, batch: nat, req: SyncRequest, list: seq<string>)
    requires list != []
    ensures req.scope.eventTypes == [] ==>
      Served(rows, batch, req.(scope := req.scope.(eventTypes := list)))
      == Select(Served(rows, batch, req), (r: Row) => r.event.kind in list)
    ensures req.scope.regions == [] ==>
      Served(rows, batch, req.(scope := req.scope.(regions := list)))
      == Select(Served(rows, batch, req), (r: Row) => r.event.sourceRegion == "" || r.event.sourceRegion in list)
    ensures req.scope.transports == [] ==>
      Served(rows, batch, req.(scope := req.scope.(transports := list)))
      == Select(Served(rows, batch, req), (r: Row) => r.event.subject == "" || r.event.subject in list)
  {
    hide Served;
    if req.scope.eventTypes == [] {
      Cuts(rows, batch, req, req.scope.(eventTypes := list), (r: Row) => r.event.kind in list);
    }
    if req.scope.regions == [] {
      Cuts(rows, batch, req, req.scope.(regions := list),
           (r: Row) => r.event.sourceRegion == "" || r.event.sourceRegion in list);
    }
    if req.scope.transports == [] {
      Cuts(rows, batch, req, req.scope.(transports := list),
           (r: Row) => r.event.subject == "" || r.event.subject in list);
    }
  }

  /**
   * A scope without lists answers with the next rows after the cursor, whatever node subsets and policy domains it names:
   * at most the batch, the number asked for and a hundred thousand, and fewer only when the log ends.
   */
  lemma UnlistedAnswer(rows: seq<Row>, batch: nat, req: SyncRequest)
    requires req.scope.eventTypes == [] && req.scope.regions == [] && req.scope.transports == []
    requires req.scope.excludeTypes == []
    ensures var answer, all := Served(rows, batch, req), Select(rows, (r: Row) => r.num > req.afterSequence);
      && answer <= all && |answer| <= batch && |answer| <= 100000 && (req.maxEvents > 0 ==> |answer| <= req.maxEvents)
      && (|answer| < |all| ==> |answer| == batch || |answer| == 100000 || |answer| == req.maxEvents)
  {
    var window := Window(rows, batch, req);
    SelectAll(window, RowInScope(req.scope));
    SelectSame(rows, Admits(AfterFilter(req.afterSequence, 0)), (r: Row) => r.num > req.afterSequence);
  }

  /** What travels of a row, field by field, and what the receiver makes of it. */
  lemma EventTravels(r: Row)
    ensures var m := ToSync(r);
      && m.eventID == r.event.id && m.num == r.num && m.kind == r.event.kind && m.timestamp == r.event.timestamp
      && m.clock == r.event.clock && m.sourceNode == r.event.sourceNode && m.sourceRegion == r.event.sourceRegion
      && m.subject == r.event.subject && m.data == r.event.data
      && FromSync(m) == r.event.(metadata := map[], policyVersion := "", causalParent := "")
  {
  }

  // ------------------------------------------------------------------ any run

  /** Every link of n excludes this type. */
  ghost predicate Shuts(w: World, n: string, t: string) {
    n in w.nodes && forall s :: s in w.nodes[n].peers ==> t in w.nodes[n].peers[s].scope.excludeTypes
  }

  /** The event stands in an answer that n is ingesting. */
  ghost predicate UnderWay(w: World, n: string, pid: nat, e: SyncEvent) {
    && pid in w.pulls && w.pulls[pid].puller == n && w.pulls[pid].phase.Ingesting?
    && e in w.pulls[pid].phase.events
  }

  /** No event of this type is on its way into n. */
  ghost predicate NoneUnderWay(w: World, n: string, t: string) {
    forall pid, e :: UnderWay(w, n, pid, e) ==> e.kind != t
  }

  /** The step is an append of this event by n itself. */
  predicate AppendsAt(step: Step, n: string, e: Event) {
    step.LocalAppend? && step.n == n && step.event.id == e.id && step.event.kind == e.kind
  }

  /** Links come and never change their scope, so those of an earlier state are among those of a later one. */
  lemma ShutBefore(w: World, step: Step, n: string, t: string)
    requires Enabled(w, step) && n in w.nodes && Shuts(Exec(w, step), n, t)
    ensures Shuts(w, n, t)
  {
    hide Answer, Appended, Compacted, Opened, SafeToRestart, IdsOf, OriginsOf;
    var u := Exec(w, step);
    forall s | s in w.nodes[n].peers
      ensures t in w.nodes[n].peers[s].scope.excludeTypes
    {
      assert s in u.nodes[n].peers && u.nodes[n].peers[s].scope == w.nodes[n].peers[s].scope;
    }
  }

  lemma {:induction false} ShutFromTheStart(w: World, steps: seq<Step>, n: string, t: string)
    requires CanRun(w, steps) && n in w.nodes && Shuts(Run(w, steps), n, t)
    ensures Shuts(w, n, t)
    decreases |steps|
  {
    hide Exec, Enabled, Shuts;
    if steps != [] {
      KeepsNode(w, steps[0], n);
      ShutFromTheStart(Exec(w, steps[0]), steps[1..], n, t);
      ShutBefore(w, steps[0], n, t);
    }
  }

  lemma KeepsNode(w: World, step: Step, n: string)
    requires Enabled(w, step) && n in w.nodes
    ensures n in Exec(w, step).nodes
  {
    hide Answer, Appended, Compacted, Opened, SafeToRestart, IdsOf, OriginsOf;
  }

  lemma AnswerHasNone(w: World, pull: Pull, t: string)
    requires Linked(w, pull.puller, pull.server) && pull.phase.Requested? && Shuts(w, pull.puller, t)
    ensures forall e :: e in Answer(w, pull) ==> e.kind != t
  {
    hide Window, RowInScope;
    var p, s := w.nodes[pull.puller], w.nodes[pull.server];
    var rows := Served(s.log.rows, s.batch, SyncRequest(pull.puller, pull.phase.after, p.batch,
      p.peers[pull.server].scope));
    forall e | e in Answer(w, pull)
      ensures e.kind != t
    {
      var i :| 0 <= i < |rows| && ToSync(rows[i]) == e;
      assert rows[i] in rows && RowInScope(p.peers[pull.server].scope)(rows[i]);
      ShutKindIsOut(p.peers[pull.server].scope, rows[i], t);
    }
  }

  lemma ShutKindIsOut(scope: SyncScope, r: Row, t: string)
    requires t in scope.excludeTypes && RowInScope(scope)(r)
    ensures r.event.kind != t
  {
  }

  lemma StillNoneUnderWay(w: World, step: Step, n: string, t: string)
    requires Enabled(w, step) && Shuts(w, n, t) && NoneUnderWay(w, n, t)
    ensures NoneUnderWay(Exec(w, step), n, t)
  {
    hide Answer, Appended, Compacted, Opened, SafeToRestart, IdsOf, OriginsOf, Shuts;
    var u := Exec(w, step);
    forall pid, e | UnderWay(u, n, pid, e)
      ensures e.kind != t
    {
      if step.Serve? && pid == step.pid {
        AnswerHasNone(w, w.pulls[pid], t);
      } else {
        assert UnderWay(w, n, pid, e);
      }
    }
  }

  /** A row that a step adds to n was appended there, or comes from an event on its way into n. */
  lemma NewRowComesFrom(w: World, step: Step, n: string, r: Row)
    requires Enabled(w, step) && n in w.nodes && n in Exec(w, step).nodes
    requires r in Exec(w, step).nodes[n].log.rows && r !in w.nodes[n].log.rows
    ensures AppendsAt(step, n, r.event)
            || exists pid, e :: UnderWay(w, n, pid, e) && e.kind == r.event.kind
  {
    hide Answer, SafeToRestart, IdsOf, OriginsOf, Ids;
    match step {
      case Store(pid, ioOk) =>
        var ph := w.pulls[pid].phase;
        assert UnderWay(w, n, pid, ph.events[ph.next]);
      case _ =>
    }
  }

  /**
   * Whatever instances do, a type that every link of an instance excludes does not come in: each event of that type in
   * its log was there at the start or was appended by the instance itself.
   */
  lemma {:induction false} ExcludedTypeStaysOut(w: World, steps: seq<Step>, n: string, t: string, r: Row)
    requires CanRun(w, steps) && n in w.nodes && n in Run(w, steps).nodes
    requires Shuts(Run(w, steps), n, t) && NoneUnderWay(w, n, t)
    requires r in Run(w, steps).nodes[n].log.rows && r.event.kind == t
    ensures r in w.nodes[n].log.rows || exists step :: step in steps && AppendsAt(step, n, r.event)
    decreases |steps|
  {
    hide Exec, Enabled, Shuts, NoneUnderWay;
    if steps != [] {
      var u := Exec(w, steps[0]);
      ShutFromTheStart(w, steps, n, t);
      KeepsNode(w, steps[0], n);
      StillNoneUnderWay(w, steps[0], n, t);
      ExcludedTypeStaysOut(u, steps[1..], n, t, r);
      if r in u.nodes[n].log.rows && r !in w.nodes[n].log.rows {
        NewRowComesFrom(w, steps[0], n, r);
        NoSuchEvent(w, n, t);
        assert steps[0] in steps;
      }
    }
  }

  lemma NoSuchEvent(w: World, n: string, t: string)
    requires NoneUnderWay(w, n, t)
    ensures !exists pid, e :: UnderWay(w, n, pid, e) && e.kind == t
  {
  }
}
