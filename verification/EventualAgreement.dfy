/**
 * Eventual agreement of the interleaved machine: pulls overlap in any way and cursors move backwards, yet in every fair
 * endless execution without new events all logs come to hold the same ids, and stay so.
 */
module EventualAgreement {
  import opened EventLog
  import opened Federation
  import opened Gossip
  import opened Delivery
  import opened Convergence
  import CatchUp

  // ------------------------------------------------------------------ endless executions

  ghost predicate StepAt(w: nat -> World, st: nat -> Step, i: nat) {
    GossipOnly(st(i)) && Enabled(w(i), st(i)) && w(i + 1) == Exec(w(i), st(i))
  }

  ghost predicate Good(w: World) {
    Inv(w) && AllAccounted(w) && Faithful(w) && Complete(w)
  }

  /** An endless execution from a reachable state. */
  ghost predicate Execution(w: nat -> World, st: nat -> Step) {
    Good(w(0)) && forall i: nat :: StepAt(w, st, i)
  }

  lemma {:induction false} GoodAt(w: nat -> World, st: nat -> Step, i: nat)
    requires Execution(w, st)
    ensures Good(w(i))
    decreases i
  {
    hide Inv, AllAccounted, Faithful, Complete, Exec, Enabled;
    if i > 0 {
      GoodAt(w, st, i - 1);
      assert StepAt(w, st, i - 1);
      StepKeepsInv(w(i - 1), st(i - 1));
      StepAccounts(w(i - 1), st(i - 1));
      StepIsFaithful(w(i - 1), st(i - 1));
      StepStaysComplete(w(i - 1), st(i - 1));
    }
  }

  // ------------------------------------------------------------------ what gossip never changes

  ghost predicate SamePeers(a: map<string, Peer>, b: map<string, Peer>) {
    a.Keys == b.Keys && forall s :: s in a ==> b[s] == a[s].(lastSyncSeq := b[s].lastSyncSeq)
  }

  ghost predicate Kin(a: Node, b: Node) {
    b.batch == a.batch && SamePeers(a.peers, b.peers) && a.log.rows <= b.log.rows
  }

  /** Membership, links, scopes and origins stay; logs only grow. */
  ghost predicate KinWorlds(w: World, v: World) {
    v.nodes.Keys == w.nodes.Keys && v.origin == w.origin && forall n :: n in w.nodes ==> Kin(w.nodes[n], v.nodes[n])
  }

  lemma StepIsKin(w: World, step: Step)
    requires Enabled(w, step) && GossipOnly(step)
    ensures KinWorlds(w, Exec(w, step))
  {
    hide Answer, Lands, IdsOf, FromSync;
  }

  lemma KinTransitive(u: World, v: World, w: World)
    requires KinWorlds(u, v) && KinWorlds(v, w)
    ensures KinWorlds(u, w)
  {
  }

  lemma {:induction false} KinAt(w: nat -> World, st: nat -> Step, i: nat, j: nat)
    requires Execution(w, st) && i <= j
    ensures KinWorlds(w(i), w(j))
    decreases j
  {
    hide Exec, Enabled, Good;
    if i < j {
      KinAt(w, st, i, j - 1);
      assert StepAt(w, st, j - 1);
      StepIsKin(w(j - 1), st(j - 1));
      KinTransitive(w(i), w(j - 1), w(j));
    }
  }

  lemma KinKeepsEdges(w: World, v: World, p: string, s: string)
    requires KinWorlds(w, v)
    ensures Linked(w, p, s) <==> Linked(v, p, s)
    ensures Edge(w, p, s) <==> Edge(v, p, s)
    ensures Linked(w, p, s) ==> v.nodes[p].peers[s].scope == w.nodes[p].peers[s].scope
    ensures Linked(w, p, s) ==> v.nodes[p].peers[s].trustLevel == w.nodes[p].peers[s].trustLevel
  {
    if p in w.nodes {
      assert Kin(w.nodes[p], v.nodes[p]);
    }
    if s in w.nodes {
      assert Kin(w.nodes[s], v.nodes[s]);
    }
  }

  // ------------------------------------------------------------------ the logs settle

  ghost predicate SameRows(w: World, v: World) {
    forall n :: n in w.nodes && n in v.nodes ==> v.nodes[n].log.rows == w.nodes[n].log.rows
  }

  /** A log that grew has an id it lacked. */
  lemma GrownLogHasNewId(a: seq<Row>, b: seq<Row>) returns (id: string)
    requires TableInv(b) && a <= b && a != b
    ensures id in Ids(b) && id !in Ids(a)
  {
    var r := b[|a|];
    id := r.event.id;
    assert r in b;
    forall x | x in a
      ensures x.event.id != id
    {
      var i :| 0 <= i < |a| && a[i] == x;
      assert b[i] == x;
    }
  }

  lemma MissingOnlyShrinks(w: World, v: World)
    requires KinWorlds(w, v) && Good(v)
    ensures Missing(v) <= Missing(w)
    ensures Missing(v) == Missing(w) ==> SameRows(w, v)
  {
    forall n | n in w.nodes
      ensures Ids(w.nodes[n].log.rows) <= Ids(v.nodes[n].log.rows)
    {
      assert Kin(w.nodes[n], v.nodes[n]);
      PrefixIds(w.nodes[n].log.rows, v.nodes[n].log.rows);
    }
    forall x | x in Missing(v)
      ensures x in Missing(w)
    {
      assert x.0 in w.nodes && x.1 in w.origin && x.1 !in Ids(v.nodes[x.0].log.rows);
    }
    if Missing(v) == Missing(w) {
      forall n | n in w.nodes
        ensures v.nodes[n].log.rows == w.nodes[n].log.rows
      {
        SettledNode(w, v, n);
      }
    }
  }

  lemma PrefixIds(a: seq<Row>, b: seq<Row>)
    requires a <= b
    ensures Ids(a) <= Ids(b)
  {
    assert forall r :: r in a ==> r in b;
  }

  lemma SettledNode(w: World, v: World, n: string)
    requires KinWorlds(w, v) && Good(v) && n in w.nodes && Missing(v) == Missing(w)
    ensures v.nodes[n].log.rows == w.nodes[n].log.rows
  {
    var a, b := w.nodes[n].log.rows, v.nodes[n].log.rows;
    assert Kin(w.nodes[n], v.nodes[n]) && NodeOk(v.nodes[n]);
    if a != b {
      var id := GrownLogHasNewId(a, b);
      assert id in v.nodes[n].stored;
      NewIdWasMissing(w, v, n, id);
    }
  }

  lemma NewIdWasMissing(w: World, v: World, n: string, id: string)
    requires n in w.nodes && n in v.nodes && v.origin == w.origin && id in w.origin
    requires id in Ids(v.nodes[n].log.rows) && id !in Ids(w.nodes[n].log.rows)
    ensures Missing(v) != Missing(w)
  {
    assert (n, id) in Missing(w) && (n, id) !in Missing(v);
  }

  ghost predicate Settled(w: nat -> World, t: nat) {
    forall i: nat :: i >= t ==> SameRows(w(t), w(i))
  }

  /** From some time on no log changes: what is missing shrinks and cannot shrink for ever. */
  lemma {:induction false} LogsSettle(w: nat -> World, st: nat -> Step, t: nat) returns (tau: nat)
    requires Execution(w, st)
    ensures tau >= t && Settled(w, tau)
    decreases Missing(w(t))
  {
    hide Good, StepAt, KinWorlds, Missing, SameRows;
    if j: nat :| j >= t && Missing(w(j)) != Missing(w(t)) {
      KinAt(w, st, t, j);
      GoodAt(w, st, j);
      MissingOnlyShrinks(w(t), w(j));
      tau := LogsSettle(w, st, j);
    } else {
      tau := t;
      forall i: nat | i >= t
        ensures SameRows(w(t), w(i))
      {
        KinAt(w, st, t, i);
        GoodAt(w, st, i);
        MissingOnlyShrinks(w(t), w(i));
      }
    }
  }

  // ------------------------------------------------------------------ the cursors settle

  ghost function Cursor(w: World, p: string, s: string): nat {
    if Linked(w, p, s) then w.nodes[p].peers[s].lastSyncSeq else 0
  }

  /** The lowest number a pull can still move the cursor to. */
  function Target(pull: Pull): nat {
    match pull.phase
    case Requested(after) => after + 1
    case Ingesting(_, _, _) => Reach(pull)
  }

  predicate On(pull: Pull, p: string, s: string) {
    pull.puller == p && pull.server == s
  }

  /** The open pulls on a link that may still set its cursor to c or below. */
  ghost function Low(w: World, p: string, s: string, c: nat): set<nat> {
    set pid | pid in w.pulls && On(w.pulls[pid], p, s) && Target(w.pulls[pid]) <= c
  }

  lemma AnswerIsAbove(w: World, pid: nat)
    requires Inv(w) && CanServe(w, pid) && Answer(w, w.pulls[pid]) != []
    ensures var events := Answer(w, w.pulls[pid]); var n := events[|events| - 1].num;
      && w.pulls[pid].phase.after < n
      && exists r :: r in w.nodes[w.pulls[pid].server].log.rows && r.num == n
  {
    var pull := w.pulls[pid];
    var p, s := w.nodes[pull.puller], w.nodes[pull.server];
    var req := SyncRequest(pull.puller, pull.phase.after, p.batch, p.peers[pull.server].scope);
    var rows := Served(s.log.rows, s.batch, req);
    assert NodeOk(s);
    AnsweredIdsAreHanded(pull.server, rows);
    CatchUp.AnswerIsComplete(s.log.rows, s.batch, req);
    assert rows[|rows| - 1] in rows;
  }

  /** What one step does to the pulls: it opens one at its cursor, answers one, closes one, or moves one along. */
  ghost predicate PullMoves(w: World, v: World, step: Step) {
    && (forall q :: q in v.pulls && q in w.pulls ==>
          && On(v.pulls[q], w.pulls[q].puller, w.pulls[q].server)
          && Target(w.pulls[q]) <= Target(v.pulls[q]))
    && (forall q :: q in v.pulls && q !in w.pulls ==>
          Target(v.pulls[q]) == Cursor(w, v.pulls[q].puller, v.pulls[q].server) + 1)
  }

  ghost predicate CursorMoves(w: World, v: World, step: Step) {
    forall p, s :: Cursor(v, p, s) != Cursor(w, p, s) ==>
      && step.Finish? && step.pid in w.pulls && step.pid !in v.pulls
      && On(w.pulls[step.pid], p, s) && w.pulls[step.pid].phase.Ingesting?
      && Cursor(v, p, s) == Target(w.pulls[step.pid])
  }

  /** Where a pull stands after a step: where it stood, at the cursor it read, or at a row of its server. */
  ghost predicate ReachMoves(w: World, v: World) {
    forall q :: q in v.pulls ==>
      || (&& q in w.pulls && On(v.pulls[q], w.pulls[q].puller, w.pulls[q].server)
          && Reach(v.pulls[q]) == Reach(w.pulls[q]))
      || Reach(v.pulls[q]) == Cursor(w, v.pulls[q].puller, v.pulls[q].server)
      || (v.pulls[q].server in w.nodes && RowNumbered(w.nodes[v.pulls[q].server].log.rows, Reach(v.pulls[q])))
  }

  ghost predicate RowNumbered(rows: seq<Row>, n: nat) {
    exists r :: r in rows && r.num == n
  }

  lemma StartMovesPulls(w: World, pid: nat, p: string, s: string)
    requires Enabled(w, Start(pid, p, s))
    ensures PullMoves(w, Exec(w, Start(pid, p, s)), Start(pid, p, s)) && ReachMoves(w, Exec(w, Start(pid, p, s)))
  {
  }

  lemma ServeMovesPulls(w: World, pid: nat)
    requires Inv(w) && CanServe(w, pid)
    ensures PullMoves(w, DoServe(w, pid), Serve(pid)) && ReachMoves(w, DoServe(w, pid))
  {
    hide Answer, Inv;
    if Answer(w, w.pulls[pid]) != [] {
      AnswerIsAbove(w, pid);
    }
  }

  lemma TurnMovesPulls(w: World, pid: nat, ioOk: bool)
    ensures CanMark(w, pid) ==> PullMoves(w, DoMark(w, pid), Mark(pid)) && ReachMoves(w, DoMark(w, pid))
    ensures CanStore(w, pid) ==>
        PullMoves(w, DoStore(w, pid, ioOk), Store(pid, ioOk)) && ReachMoves(w, DoStore(w, pid, ioOk))
  {
    hide FromSync, Appended, Cursor;
  }

  lemma FewerPullsMove(w: World, v: World, step: Step)
    requires forall q :: q in v.pulls ==> q in w.pulls && v.pulls[q] == w.pulls[q]
    ensures PullMoves(w, v, step) && ReachMoves(w, v)
  {
  }

  lemma StepMovesPulls(w: World, step: Step)
    requires Inv(w) && Enabled(w, step) && GossipOnly(step)
    ensures PullMoves(w, Exec(w, step), step) && ReachMoves(w, Exec(w, step))
  {
    hide PullMoves, ReachMoves, Inv, DoMark, DoStore, DoServe;
    match step {
      case Start(pid, p, s) => StartMovesPulls(w, pid, p, s);
      case Serve(pid) => ServeMovesPulls(w, pid);
      case Mark(pid) => TurnMovesPulls(w, pid, true);
      case Store(pid, ioOk) => TurnMovesPulls(w, pid, ioOk);
      case Lose(_) => FewerPullsMove(w, Exec(w, step), step);
      case Finish(_) => FewerPullsMove(w, Exec(w, step), step);
      case Eviction(_, _) => FewerPullsMove(w, Exec(w, step), step);
    }
  }

  lemma StepMovesCursors(w: World, step: Step)
    requires Enabled(w, step) && GossipOnly(step)
    ensures CursorMoves(w, Exec(w, step), step)
  {
    hide Answer, FromSync;
  }

  /** While the cursor is at c or above no pull joins the low ones, and setting it to c or below uses one up. */
  lemma LowShrinks(w: World, v: World, step: Step, p: string, s: string, c: nat)
    requires PullMoves(w, v, step) && CursorMoves(w, v, step) && c <= Cursor(w, p, s)
    ensures Low(v, p, s, c) <= Low(w, p, s, c)
    ensures Cursor(v, p, s) != Cursor(w, p, s) && Cursor(v, p, s) <= c ==> Low(v, p, s, c) < Low(w, p, s, c)
  {
    hide Cursor, Target;
    if Cursor(v, p, s) != Cursor(w, p, s) && Cursor(v, p, s) <= c {
      assert step.pid in Low(w, p, s, c) && step.pid !in Low(v, p, s, c);
    }
  }

  /** The cursor of a link stays between c and b from time t on. */
  ghost predicate Within(w: nat -> World, p: string, s: string, t: nat, c: nat, b: nat) {
    forall i: nat :: i >= t ==> c <= Cursor(w(i), p, s) <= b
  }

  ghost predicate Still(w: nat -> World, p: string, s: string, t: nat) {
    forall i: nat :: i >= t ==> Cursor(w(i), p, s) == Cursor(w(t), p, s)
  }

  lemma LowAtStep(w: nat -> World, st: nat -> Step, i: nat, p: string, s: string, c: nat)
    requires Execution(w, st) && c <= Cursor(w(i), p, s)
    ensures Low(w(i + 1), p, s, c) <= Low(w(i), p, s, c)
    ensures Cursor(w(i + 1), p, s) != Cursor(w(i), p, s) && Cursor(w(i + 1), p, s) <= c ==>
        Low(w(i + 1), p, s, c) < Low(w(i), p, s, c)
  {
    hide Exec, Enabled, Cursor, Low, PullMoves, ReachMoves, CursorMoves, Inv;
    GoodAt(w, st, i);
    assert StepAt(w, st, i);
    StepMovesPulls(w(i), st(i));
    StepMovesCursors(w(i), st(i));
    LowShrinks(w(i), w(i + 1), st(i), p, s, c);
  }

  lemma {:induction false} LowOverTime(
    w: nat -> World, st: nat -> Step, i: nat, j: nat, p: string, s: string, c: nat, b: nat)
    requires Execution(w, st) && i <= j && Within(w, p, s, i, c, b)
    ensures Low(w(j), p, s, c) <= Low(w(i), p, s, c)
    ensures Cursor(w(i), p, s) > c && Cursor(w(j), p, s) == c ==> Low(w(j), p, s, c) < Low(w(i), p, s, c)
    decreases j
  {
    hide Cursor, Low, StepAt, Good;
    if i < j {
      LowOverTime(w, st, i, j - 1, p, s, c, b);
      LowAtStep(w, st, j - 1, p, s, c);
    }
  }

  /** A cursor that stays within bounds comes to rest: low pulls run out, or the lower bound rises. */
  lemma {:induction false} CursorSettles(w: nat -> World, st: nat -> Step, p: string, s: string, t: nat, c: nat, b: nat)
    returns (tau: nat)
    requires Execution(w, st) && Within(w, p, s, t, c, b)
    ensures tau >= t && Still(w, p, s, tau)
    decreases b - c, Low(w(t), p, s, c)
  {
    hide Cursor, Low, StepAt, Good;
    assert c <= Cursor(w(t), p, s) <= b;
    if j: nat :| j >= t && Cursor(w(j), p, s) > c {
      assert Cursor(w(j), p, s) <= b;
      LowOverTime(w, st, t, j, p, s, c, b);
      if k: nat :| k >= j && Cursor(w(k), p, s) <= c {
        assert c <= Cursor(w(k), p, s);
        LowOverTime(w, st, j, k, p, s, c, b);
        tau := CursorSettles(w, st, p, s, k, c, b);
      } else {
        tau := CursorSettles(w, st, p, s, j, c + 1, b);
      }
    } else {
      tau := t;
    }
  }

  // ------------------------------------------------------------------ bounds

  /** The cursor of a link and its open pulls stand at b or below. */
  ghost predicate Under(w: World, p: string, s: string, b: nat) {
    Cursor(w, p, s) <= b && forall pid :: pid in w.pulls && On(w.pulls[pid], p, s) ==> Reach(w.pulls[pid]) <= b
  }

  lemma UnderTheCounter(w: World, p: string, s: string)
    requires Inv(w) && Linked(w, p, s)
    ensures Under(w, p, s, w.nodes[s].log.counter)
  {
    assert CursorSafe(w, p, s, w.nodes[p].peers[s].lastSyncSeq);
    forall pid | pid in w.pulls && On(w.pulls[pid], p, s)
      ensures Reach(w.pulls[pid]) <= w.nodes[s].log.counter
    {
      assert PullSafe(w, pid);
    }
  }

  lemma StaysUnder(w: World, v: World, step: Step, p: string, s: string, b: nat)
    requires Under(w, p, s, b) && ReachMoves(w, v) && CursorMoves(w, v, step)
    requires s in w.nodes && forall n: nat :: RowNumbered(w.nodes[s].log.rows, n) ==> n <= b
    ensures Under(v, p, s, b)
  {
    hide Cursor, RowNumbered;
  }

  lemma RowsUnderTheCounter(log: LogState, n: nat)
    requires LogInv(log) && RowNumbered(log.rows, n)
    ensures n <= log.counter
  {
  }

  lemma {:induction false} UnderAt(w: nat -> World, st: nat -> Step, t: nat, i: nat, p: string, s: string)
    requires Execution(w, st) && Settled(w, t) && i >= t && Linked(w(t), p, s)
    ensures Under(w(i), p, s, w(t).nodes[s].log.counter)
    decreases i
  {
    hide Inv, AllAccounted, Faithful, Complete, Exec, Enabled;
    hide Under, Cursor, PullMoves, ReachMoves, CursorMoves, RowNumbered;
    GoodAt(w, st, t);
    if i == t {
      UnderTheCounter(w(t), p, s);
    } else {
      var b := w(t).nodes[s].log.counter;
      UnderAt(w, st, t, i - 1, p, s);
      GoodAt(w, st, i - 1);
      assert StepAt(w, st, i - 1);
      StepMovesPulls(w(i - 1), st(i - 1));
      StepMovesCursors(w(i - 1), st(i - 1));
      SettledNumbers(w, st, t, i - 1, s);
      StaysUnder(w(i - 1), w(i), st(i - 1), p, s, b);
    }
  }

  lemma SettledNumbers(w: nat -> World, st: nat -> Step, t: nat, i: nat, s: string)
    requires Execution(w, st) && Settled(w, t) && i >= t && s in w(t).nodes
    ensures s in w(i).nodes
    ensures forall n: nat :: RowNumbered(w(i).nodes[s].log.rows, n) ==> n <= w(t).nodes[s].log.counter
  {
    hide RowNumbered, AllAccounted, Faithful, Complete, StepAt;
    GoodAt(w, st, t);
    KinAt(w, st, t, i);
    assert SameRows(w(t), w(i)) && NodeOk(w(t).nodes[s]);
    forall n: nat | RowNumbered(w(i).nodes[s].log.rows, n)
      ensures n <= w(t).nodes[s].log.counter
    {
      RowsUnderTheCounter(w(t).nodes[s].log, n);
    }
  }

  /** Once the logs have settled, so does the cursor of every link. */
  lemma LinkSettles(w: nat -> World, st: nat -> Step, t: nat, p: string, s: string) returns (tau: nat)
    requires Execution(w, st) && Settled(w, t) && Linked(w(t), p, s)
    ensures tau >= t && Still(w, p, s, tau)
  {
    hide Cursor, StepAt, Good, Settled;
    var b := w(t).nodes[s].log.counter;
    forall i: nat | i >= t
      ensures 0 <= Cursor(w(i), p, s) <= b
    {
      UnderAt(w, st, t, i, p, s);
    }
    tau := CursorSettles(w, st, p, s, t, 0, b);
  }

  lemma {:induction false} LinksSettle(w: nat -> World, st: nat -> Step, t: nat, links: set<(string, string)>)
    returns (tau: nat)
    requires Execution(w, st) && Settled(w, t)
    requires forall l :: l in links ==> Linked(w(t), l.0, l.1)
    ensures tau >= t && forall l :: l in links ==> Still(w, l.0, l.1, tau)
    decreases links
  {
    hide Cursor, StepAt, Good, Settled, Linked;
    tau := t;
    if links != {} {
      var l :| l in links;
      var first := LinkSettles(w, st, t, l.0, l.1);
      var others := LinksSettle(w, st, t, links - {l});
      tau := if first > others then first else others;
      forall k | k in links
        ensures Still(w, k.0, k.1, tau)
      {
        if k == l {
          StillLater(w, k.0, k.1, first, tau);
        } else {
          StillLater(w, k.0, k.1, others, tau);
        }
      }
    }
  }

  lemma StillLater(w: nat -> World, p: string, s: string, t: nat, u: nat)
    requires Still(w, p, s, t) && t <= u
    ensures Still(w, p, s, u)
  {
    hide Cursor;
    assert Cursor(w(u), p, s) == Cursor(w(t), p, s);
  }

  // ------------------------------------------------------------------ fairness

  /** The pull is open from t to j and gone right after. */
  ghost predicate Leaves(w: nat -> World, pid: nat, t: nat, j: nat) {
    t <= j && (forall k: nat :: t <= k <= j ==> pid in w(k).pulls) && pid !in w(j + 1).pulls
  }

  ghost predicate EveryPullEnds(w: nat -> World) {
    forall t: nat, pid: nat :: pid in w(t).pulls ==> exists j: nat :: Leaves(w, pid, t, j)
  }

  /** At time j the peer answers a pull that read its cursor at time i. */
  ghost predicate ServedAt(w: nat -> World, st: nat -> Step, p: string, s: string, i: nat, j: nat, pid: nat) {
    && i <= j && st(j) == Serve(pid) && pid in w(j).pulls
    && w(j).pulls[pid] == Pull(p, s, Requested(Cursor(w(i), p, s)))
  }

  ghost predicate ServedAgain(w: nat -> World, st: nat -> Step, p: string, s: string, t: nat) {
    exists i: nat, j: nat, pid: nat :: t <= i && ServedAt(w, st, p, s, i, j, pid)
  }

  /** Every open pull ends, and on every link pulls are started and answered again and again. */
  ghost predicate Fair(w: nat -> World, st: nat -> Step) {
    && EveryPullEnds(w)
    && forall p, s, t: nat :: Edge(w(t), p, s) ==> ServedAgain(w, st, p, s, t)
  }

  /** A pull that is being ingested goes on with the same events until it finishes and moves the cursor. */
  lemma IngestingStep(w: World, step: Step, pid: nat)
    requires Inv(w) && Enabled(w, step) && GossipOnly(step) && pid in w.pulls && w.pulls[pid].phase.Ingesting?
    ensures var v, pull := Exec(w, step), w.pulls[pid];
      if pid in v.pulls then
        On(v.pulls[pid], pull.puller, pull.server) && v.pulls[pid].phase.Ingesting? && Reach(v.pulls[pid]) == Reach(pull)
      else Cursor(v, pull.puller, pull.server) == Reach(pull)
  {
    hide Answer, CursorSafe, FromSync, Appended, NodeOk;
    assert PullSafe(w, pid);
  }

  lemma {:induction false} IngestingEnds(
    w: nat -> World, st: nat -> Step, pid: nat, i: nat, j: nat, p: string, s: string, n: nat)
    requires Execution(w, st) && Leaves(w, pid, i, j)
    requires On(w(i).pulls[pid], p, s) && w(i).pulls[pid].phase.Ingesting? && Reach(w(i).pulls[pid]) == n
    ensures Cursor(w(j + 1), p, s) == n
    decreases j - i
  {
    hide Exec, Enabled, Cursor, Inv, AllAccounted, Faithful, Complete, Reach;
    GoodAt(w, st, i);
    assert StepAt(w, st, i);
    assert pid in w(i).pulls;
    IngestingStep(w(i), st(i), pid);
    if i < j {
      assert pid in w(i + 1).pulls;
      IngestingEnds(w, st, pid, i + 1, j, p, s, n);
    }
  }

  lemma ServedWorld(w: nat -> World, st: nat -> Step, j: nat, pid: nat)
    requires Execution(w, st) && st(j) == Serve(pid)
    ensures CanServe(w(j), pid) && w(j + 1) == DoServe(w(j), pid)
    ensures Answers(w(j).nodes[w(j).pulls[pid].server], w(j).pulls[pid].puller)
  {
    hide Good, DoServe;
    assert StepAt(w, st, j);
  }

  lemma ServeIngests(w: World, pid: nat)
    requires CanServe(w, pid) && Answer(w, w.pulls[pid]) != []
    ensures var v, events := DoServe(w, pid), Answer(w, w.pulls[pid]);
      && pid in v.pulls && On(v.pulls[pid], w.pulls[pid].puller, w.pulls[pid].server)
      && v.pulls[pid].phase.Ingesting? && Reach(v.pulls[pid]) == events[|events| - 1].num
  {
    hide Answer;
  }

  lemma IngestingMoves(w: nat -> World, st: nat -> Step, pid: nat, i: nat, p: string, s: string, n: nat)
    requires Execution(w, st) && EveryPullEnds(w) && pid in w(i).pulls
    requires On(w(i).pulls[pid], p, s) && w(i).pulls[pid].phase.Ingesting? && Reach(w(i).pulls[pid]) == n
    ensures exists m: nat :: m > i && Cursor(w(m), p, s) == n
  {
    hide Cursor, Good, StepAt, Reach;
    var e: nat :| Leaves(w, pid, i, e);
    IngestingEnds(w, st, pid, i, e, p, s, n);
    assert e + 1 > i;
  }

  /** What is being ingested right after a pull was answered with something. */
  lemma AnsweredState(w: nat -> World, st: nat -> Step, p: string, s: string, j: nat, pid: nat, after: nat)
    requires Execution(w, st) && st(j) == Serve(pid) && pid in w(j).pulls &&
      w(j).pulls[pid] == Pull(p, s, Requested(after))
    requires CanServe(w(j), pid) && Answer(w(j), w(j).pulls[pid]) != []
    ensures pid in w(j + 1).pulls && On(w(j + 1).pulls[pid], p, s) && w(j + 1).pulls[pid].phase.Ingesting?
    ensures Reach(w(j + 1).pulls[pid]) > after
  {
    hide AllAccounted, Faithful, Complete, Answer, Inv, DoServe, Reach, CanServe, StepAt, Linked;
    GoodAt(w, st, j);
    ServedWorld(w, st, j, pid);
    AnswerIsAbove(w(j), pid);
    ServeIngests(w(j), pid);
  }

  /** An answer that brings something moves the cursor above where the pull read it, sooner or later. */
  lemma AnswerMovesCursor(w: nat -> World, st: nat -> Step, p: string, s: string, j: nat, pid: nat, after: nat)
    requires Execution(w, st) && EveryPullEnds(w)
    requires st(j) == Serve(pid) && pid in w(j).pulls && w(j).pulls[pid] == Pull(p, s, Requested(after))
    requires CanServe(w(j), pid) && Answer(w(j), w(j).pulls[pid]) != []
    ensures exists m: nat :: m > j && Cursor(w(m), p, s) > after
  {
    hide Cursor, Good, Answer, Reach, CanServe, StepAt;
    AnsweredState(w, st, p, s, j, pid, after);
    IngestingMoves(w, st, pid, j + 1, p, s, Reach(w(j + 1).pulls[pid]));
  }

  // ------------------------------------------------------------------ after everything has settled

  /** The cursor of every link rests. */
  ghost predicate AllStill(w: nat -> World, t: nat) {
    forall p, s :: Linked(w(t), p, s) ==> Still(w, p, s, t)
  }

  /** A pull that reads a resting cursor is answered with nothing. */
  lemma RestingAnswerIsEmpty(w: nat -> World, st: nat -> Step, tau: nat, p: string, s: string, j: nat, pid: nat)
    requires Execution(w, st) && EveryPullEnds(w) && Still(w, p, s, tau) && j >= tau
    requires st(j) == Serve(pid) && pid in w(j).pulls && w(j).pulls[pid] == Pull(p, s, Requested(Cursor(w(tau), p, s)))
    requires CanServe(w(j), pid)
    ensures Answer(w(j), w(j).pulls[pid]) == []
  {
    hide Cursor, Good, Answer, StepAt;
    if Answer(w(j), w(j).pulls[pid]) != [] {
      AnswerMovesCursor(w, st, p, s, j, pid, Cursor(w(tau), p, s));
    }
  }

  lemma SameAnswer(w: World, v: World, p: string, s: string)
    requires KinWorlds(w, v) && SameRows(w, v) && Linked(w, p, s) && Cursor(w, p, s) == Cursor(v, p, s)
    ensures Linked(v, p, s) && Next(v, p, s) == Next(w, p, s)
  {
    KinKeepsEdges(w, v, p, s);
    assert Kin(w.nodes[p], v.nodes[p]) && Kin(w.nodes[s], v.nodes[s]);
  }

  ghost predicate NothingNext(w: World) {
    forall p, s :: Edge(w, p, s) ==> Next(w, p, s) == []
  }

  lemma NextIsAnswer(w: World, p: string, s: string)
    requires Linked(w, p, s)
    ensures Next(w, p, s) == Answer(w, Pull(p, s, Requested(Cursor(w, p, s))))
  {
  }

  /** On a link that is served again, a resting cursor means that no answer brings anything, then or later. */
  lemma EdgeHasNothingNext(w: nat -> World, st: nat -> Step, tau: nat, p: string, s: string, i: nat)
    requires Execution(w, st) && Fair(w, st) && Settled(w, tau) && Still(w, p, s, tau) && i >= tau
    requires Edge(w(i), p, s)
    ensures Next(w(i), p, s) == []
  {
    hide Good, Answer, StepAt, Cursor, KinWorlds, SameRows, EveryPullEnds, Next;
    KinAt(w, st, tau, i);
    KinKeepsEdges(w(tau), w(i), p, s);
    var a: nat, j: nat, pid: nat :| tau <= a && ServedAt(w, st, p, s, a, j, pid);
    ServedWorld(w, st, j, pid);
    assert Cursor(w(a), p, s) == Cursor(w(tau), p, s);
    assert Cursor(w(j), p, s) == Cursor(w(tau), p, s);
    assert Cursor(w(i), p, s) == Cursor(w(tau), p, s);
    RestingAnswerIsEmpty(w, st, tau, p, s, j, pid);
    KinAt(w, st, tau, j);
    KinKeepsEdges(w(tau), w(j), p, s);
    NextIsAnswer(w(j), p, s);
    SameAnswer(w(tau), w(j), p, s);
    SameAnswer(w(tau), w(i), p, s);
  }

  lemma NothingNextAt(w: nat -> World, st: nat -> Step, tau: nat, i: nat)
    requires Execution(w, st) && Fair(w, st) && Settled(w, tau) && AllStill(w, tau) && i >= tau
    ensures NothingNext(w(i))
  {
    hide Good, StepAt, Next, Settled, Fair, Still, KinWorlds;
    forall p, s | Edge(w(i), p, s)
      ensures Next(w(i), p, s) == []
    {
      KinAt(w, st, tau, i);
      KinKeepsEdges(w(tau), w(i), p, s);
      EdgeHasNothingNext(w, st, tau, p, s, i);
    }
  }

  // ------------------------------------------------------------------ the old pulls drain

  /** A pull that has read the present cursor and waits for its answer. */
  ghost predicate Young(w: World, pull: Pull) {
    && Linked(w, pull.puller, pull.server) && w.nodes[pull.puller].peers[pull.server].trustLevel >= 1
    && pull.phase == Requested(Cursor(w, pull.puller, pull.server))
  }

  ghost predicate Old(w: nat -> World, tau: nat, i: nat, pid: nat) {
    forall k: nat :: tau <= k <= i ==> pid in w(k).pulls
  }

  lemma NewPullIsYoung(w: World, step: Step, pid: nat)
    requires Enabled(w, step) && GossipOnly(step) && pid in Exec(w, step).pulls && pid !in w.pulls
    ensures var pull := Exec(w, step).pulls[pid];
      && Linked(w, pull.puller, pull.server) && w.nodes[pull.puller].peers[pull.server].trustLevel >= 1
      && pull.phase == Requested(Cursor(w, pull.puller, pull.server))
  {
    hide Answer, FromSync, Appended;
  }

  lemma WaitingPullKeeps(w: World, step: Step, pid: nat)
    requires Enabled(w, step) && GossipOnly(step) && pid in Exec(w, step).pulls
    requires InFlight(w, pid) && w.pulls[pid].phase.Requested?
    requires step == Serve(pid) ==> Answer(w, w.pulls[pid]) == []
    ensures Exec(w, step).pulls[pid] == w.pulls[pid]
  {
    hide Answer, FromSync, Appended;
  }

  lemma ServedEdge(w: World, pid: nat)
    requires Enabled(w, Serve(pid)) && Young(w, w.pulls[pid]) && NothingNext(w)
    ensures Answer(w, w.pulls[pid]) == []
  {
    hide Next, Answer, Cursor;
    NextIsAnswer(w, w.pulls[pid].puller, w.pulls[pid].server);
  }

  lemma YoungStays(w: World, v: World, pull: Pull)
    requires KinWorlds(w, v) && Young(w, pull) &&
      Cursor(v, pull.puller, pull.server) == Cursor(w, pull.puller, pull.server)
    ensures Young(v, pull)
  {
    hide Cursor, KinWorlds;
    KinKeepsEdges(w, v, pull.puller, pull.server);
  }

  /** Where nothing is next and cursors rest, young pulls stay young, and a pull that is opened is young. */
  lemma StepKeepsYoung(w: World, step: Step, pid: nat)
    requires Enabled(w, step) && GossipOnly(step) && NothingNext(w) && pid in Exec(w, step).pulls
    requires forall p, s :: Linked(w, p, s) ==> Cursor(Exec(w, step), p, s) == Cursor(w, p, s)
    requires pid in w.pulls ==> Young(w, w.pulls[pid])
    ensures Young(Exec(w, step), Exec(w, step).pulls[pid])
  {
    hide Exec, Enabled, Cursor, KinWorlds, NothingNext, Linked;
    StepIsKin(w, step);
    if pid in w.pulls {
      if step == Serve(pid) {
        ServedEdge(w, pid);
      }
      YoungIsInFlight(w, pid);
      WaitingPullKeeps(w, step, pid);
      YoungStays(w, Exec(w, step), w.pulls[pid]);
    } else {
      NewPullIsYoung(w, step, pid);
      YoungStays(w, Exec(w, step), Exec(w, step).pulls[pid]);
    }
  }

  lemma YoungIsInFlight(w: World, pid: nat)
    requires pid in w.pulls && Young(w, w.pulls[pid])
    ensures InFlight(w, pid) && w.pulls[pid].phase.Requested?
  {
  }

  lemma {:induction false} YoungOrOld(w: nat -> World, st: nat -> Step, tau: nat, i: nat, pid: nat)
    requires Execution(w, st) && Fair(w, st) && Settled(w, tau) && AllStill(w, tau) && i >= tau
    requires pid in w(i).pulls
    ensures Old(w, tau, i, pid) || Young(w(i), w(i).pulls[pid])
    decreases i
  {
    hide Good, Exec, Enabled, Young, Settled, Fair, AllStill, NothingNext, Cursor;
    if i > tau && !Old(w, tau, i, pid) {
      assert StepAt(w, st, i - 1);
      NothingNextAt(w, st, tau, i - 1);
      CursorsRest(w, st, tau, i - 1);
      if pid in w(i - 1).pulls {
        OldGrows(w, tau, i, pid);
        YoungOrOld(w, st, tau, i - 1, pid);
      }
      StepKeepsYoung(w(i - 1), st(i - 1), pid);
    }
  }

  lemma OldGrows(w: nat -> World, tau: nat, i: nat, pid: nat)
    requires i > tau && pid in w(i).pulls
    ensures Old(w, tau, i - 1, pid) ==> Old(w, tau, i, pid)
  {
  }

  lemma CursorsRest(w: nat -> World, st: nat -> Step, tau: nat, i: nat)
    requires Execution(w, st) && AllStill(w, tau) && i >= tau
    ensures forall p, s :: Linked(w(i), p, s) ==> Cursor(w(i + 1), p, s) == Cursor(w(i), p, s)
  {
    hide Good, StepAt, Cursor, KinWorlds, Linked;
    forall p, s | Linked(w(i), p, s)
      ensures Cursor(w(i + 1), p, s) == Cursor(w(i), p, s)
    {
      KinAt(w, st, tau, i);
      KinKeepsEdges(w(tau), w(i), p, s);
      assert Still(w, p, s, tau);
      assert Cursor(w(i), p, s) == Cursor(w(tau), p, s) == Cursor(w(i + 1), p, s);
    }
  }

  /** A time by which the given open pulls have all ended. */
  lemma {:induction false} DrainTime(w: nat -> World, tau: nat, pids: set<nat>) returns (u: nat)
    requires EveryPullEnds(w) && forall pid :: pid in pids ==> pid in w(tau).pulls
    ensures u >= tau && forall pid, i: nat :: pid in pids && i >= u ==> !Old(w, tau, i, pid)
    decreases pids
  {
    hide Old, Leaves;
    u := tau;
    if pids != {} {
      var pid :| pid in pids;
      var j: nat :| Leaves(w, pid, tau, j);
      LeavesMeansGone(w, pid, tau, j);
      var others := DrainTime(w, tau, pids - {pid});
      u := if j + 1 > others then j + 1 else others;
      forall q, i: nat | q in pids && i >= u
        ensures !Old(w, tau, i, q)
      {
        if q == pid {
          GoneIsNotOld(w, tau, i, pid, j + 1);
        }
      }
    }
  }

  lemma LeavesMeansGone(w: nat -> World, pid: nat, t: nat, j: nat)
    requires Leaves(w, pid, t, j)
    ensures t <= j + 1 && pid !in w(j + 1).pulls
  {
  }

  lemma GoneIsNotOld(w: nat -> World, tau: nat, i: nat, pid: nat, k: nat)
    requires tau <= k <= i && pid !in w(k).pulls
    ensures !Old(w, tau, i, pid)
  {
  }

  lemma OldWasThere(w: nat -> World, tau: nat, i: nat, pid: nat)
    requires i >= tau && Old(w, tau, i, pid)
    ensures pid in w(tau).pulls
  {
  }

  /** With the old pulls gone, only pulls waiting for an empty answer are left. */
  lemma QuietAt(w: nat -> World, st: nat -> Step, tau: nat, i: nat)
    requires Execution(w, st) && Fair(w, st) && Settled(w, tau) && AllStill(w, tau) && i >= tau
    requires forall pid :: pid in w(tau).pulls ==> !Old(w, tau, i, pid)
    ensures Quiet(w(i))
  {
    hide Good, StepAt, Settled, Fair, AllStill, Cursor, Old;
    NothingNextAt(w, st, tau, i);
    forall pid | pid in w(i).pulls
      ensures w(i).pulls[pid].phase.Requested?
    {
      YoungOrOld(w, st, tau, i, pid);
      if Old(w, tau, i, pid) {
        OldWasThere(w, tau, i, pid);
      }
    }
  }

  ghost function Links(w: World): set<(string, string)> {
    set p, s | p in w.nodes && s in w.nodes[p].peers && s in w.nodes :: (p, s)
  }

  lemma SameGraph(w: nat -> World, st: nat -> Step, i: nat)
    requires Execution(w, st) && AllOpen(w(0)) && StronglyConnected(w(0))
    ensures AllOpen(w(i)) && StronglyConnected(w(i))
  {
    hide Good, StepAt, Edge, AllOpen, StronglyConnected, KinWorlds;
    KinAt(w, st, 0, i);
    forall p, s
      ensures Edge(w(0), p, s) <==> Edge(w(i), p, s)
    {
      KinKeepsEdges(w(0), w(i), p, s);
    }
    StaysOpen(w(0), w(i));
    SameKeys(w(0), w(i));
    StaysConnected(w(0), w(i));
  }

  lemma StaysOpen(w: World, v: World)
    requires KinWorlds(w, v) && AllOpen(w)
    ensures AllOpen(v)
  {
    hide Open, KinWorlds;
    forall p, s | Edge(v, p, s)
      ensures Open(v.nodes[p].peers[s].scope)
    {
      KinKeepsEdges(w, v, p, s);
    }
  }

  lemma SameKeys(w: World, v: World)
    requires KinWorlds(w, v)
    ensures v.nodes.Keys == w.nodes.Keys
  {
  }

  /**
   * Whatever the scopes: logs and cursors come to rest, and then no answer is ingested and none would bring anything.
   */
  lemma GossipSettles(w: nat -> World, st: nat -> Step) returns (tau: nat)
    requires Execution(w, st) && Fair(w, st)
    ensures Settled(w, tau) && AllStill(w, tau) && forall i: nat :: i >= tau ==> Quiet(w(i))
  {
    hide StepAt, Cursor, Quiet, KinWorlds, SameRows, Old, Good;
    var t0 := LogsSettle(w, st, 0);
    var t1 := LinksSettle(w, st, t0, Links(w(t0)));
    KinAt(w, st, t0, t1);
    SameKeys(w(t0), w(t1));
    SettledLater(w, t0, t1);
    forall p, s | Linked(w(t1), p, s)
      ensures Still(w, p, s, t1)
    {
      KinKeepsEdges(w(t0), w(t1), p, s);
      assert (p, s) in Links(w(t0));
    }
    tau := DrainTime(w, t1, w(t1).pulls.Keys);
    forall i: nat | i >= tau
      ensures Quiet(w(i))
    {
      QuietAt(w, st, t1, i);
    }
    KinAt(w, st, t1, tau);
    SameKeys(w(t1), w(tau));
    SettledLater(w, t1, tau);
    AllStillLater(w, t1, tau);
  }

  lemma AllStillLater(w: nat -> World, t: nat, u: nat)
    requires AllStill(w, t) && t <= u && KinWorlds(w(t), w(u))
    ensures AllStill(w, u)
  {
    hide Cursor, KinWorlds, Still;
    forall p, s | Linked(w(u), p, s)
      ensures Still(w, p, s, u)
    {
      KinKeepsEdges(w(t), w(u), p, s);
      StillLater(w, p, s, t, u);
    }
  }

  /**
   * Eventual agreement: in every endless execution in which open pulls end and every link is served again and again,
   * from some time on every log holds exactly the ids ever logged. The graph is strongly connected and scopes are open;
   * pulls interleave freely, caches evict freely, and cursors may move backwards.
   */
  lemma FairGossipAgrees(w: nat -> World, st: nat -> Step) returns (tau: nat)
    requires Execution(w, st) && Fair(w, st) && AllOpen(w(0)) && StronglyConnected(w(0))
    ensures forall i: nat :: i >= tau ==> Agreed(w(i))
  {
    hide StepAt, AllOpen, StronglyConnected, Agreed, Quiet, Settled, AllStill;
    tau := GossipSettles(w, st);
    forall i: nat | i >= tau
      ensures Agreed(w(i))
    {
      GoodAt(w, st, i);
      SameGraph(w, st, i);
      QuietMeansAgreed(w(i));
    }
  }

  lemma SettledLater(w: nat -> World, t: nat, u: nat)
    requires Settled(w, t) && t <= u && w(t).nodes.Keys == w(u).nodes.Keys
    ensures Settled(w, u)
  {
    assert SameRows(w(t), w(u));
    forall i: nat | i >= u
      ensures SameRows(w(u), w(i))
    {
      assert SameRows(w(t), w(i));
    }
  }

  // ------------------------------------------------------------------ fair executions exist

  /** The state after the first i steps of a run. */
  ghost function After(w: World, steps: seq<Step>, i: nat): World
    decreases |steps|
  {
    if i == 0 || steps == [] || !Enabled(w, steps[0]) then w else After(Exec(w, steps[0]), steps[1..], i - 1)
  }

  lemma {:induction false} AfterAll(w: World, steps: seq<Step>)
    requires CanRun(w, steps)
    ensures After(w, steps, |steps|) == Run(w, steps)
    decreases |steps|
  {
    hide Enabled, Exec;
    if steps != [] {
      AfterAll(Exec(w, steps[0]), steps[1..]);
    }
  }

  lemma {:induction false} AfterOneMore(w: World, steps: seq<Step>, i: nat)
    requires CanRun(w, steps) && i < |steps|
    ensures Enabled(After(w, steps, i), steps[i]) && After(w, steps, i + 1) == Exec(After(w, steps, i), steps[i])
    decreases |steps|
  {
    hide Enabled, Exec;
    if i > 0 {
      AfterOneMore(Exec(w, steps[0]), steps[1..], i - 1);
    } else {
      assert After(Exec(w, steps[0]), steps[1..], 0) == Exec(w, steps[0]);
    }
  }

  /** The link whose turn it is at time j. */
  ghost function Turn(links: seq<(string, string)>, j: nat): (string, string)
    requires links != []
  {
    links[Cycle(|links|, j / 2)]
  }

  /** k modulo m, and the sum of t copies of m. */
  function Cycle(m: nat, k: nat): (r: nat)
    requires m > 0
    ensures r < m
  {
    if k < m then k else Cycle(m, k - m)
  }

  function Rounds(m: nat, t: nat): nat {
    if t == 0 then 0 else m + Rounds(m, t - 1)
  }

  ghost function Asking(q: World, l: (string, string)): World {
    q.(pulls := map[0 := Pull(l.0, l.1, Requested(Cursor(q, l.0, l.1)))])
  }

  /** At rest, link after link is pulled and answered with nothing; without links, nothing is evicted for ever. */
  ghost function Resting(q: World, links: seq<(string, string)>, j: nat): World {
    if links != [] && j % 2 == 1 then Asking(q, Turn(links, j)) else q
  }

  ghost function RestingStep(links: seq<(string, string)>, idle: string, j: nat): Step {
    if links == [] then Eviction(idle, {})
    else if j % 2 == 0 then Start(0, Turn(links, j).0, Turn(links, j).1)
    else Serve(0)
  }

  /** First the run, then rest. */
  ghost function RunThenRest(w: World, steps: seq<Step>, links: seq<(string, string)>): nat -> World {
    (i: nat) => WorldAt(w, steps, links, i)
  }

  ghost function WorldAt(w: World, steps: seq<Step>, links: seq<(string, string)>, i: nat): World {
    if i < |steps| then After(w, steps, i) else Resting(After(w, steps, |steps|), links, i - |steps|)
  }

  ghost function RunThenRestSteps(steps: seq<Step>, links: seq<(string, string)>, idle: string): nat -> Step {
    (i: nat) => NextStep(steps, links, idle, i)
  }

  ghost function NextStep(steps: seq<Step>, links: seq<(string, string)>, idle: string, i: nat): Step {
    if i < |steps| then steps[i] else RestingStep(links, idle, i - |steps|)
  }

  ghost predicate RestingLinks(q: World, links: seq<(string, string)>) {
    && (forall i :: 0 <= i < |links| ==> Edge(q, links[i].0, links[i].1))
    && forall p, s :: Edge(q, p, s) ==> (p, s) in links
  }

  lemma {:induction false} ListOf(links: set<(string, string)>) returns (list: seq<(string, string)>)
    ensures forall l :: l in list <==> l in links
    decreases links
  {
    list := [];
    if l :| l in links {
      var rest := ListOf(links - {l});
      list := [l] + rest;
    }
  }

  lemma LinksOf(q: World) returns (links: seq<(string, string)>)
    ensures RestingLinks(q, links)
  {
    hide Edge;
    var edges := set l | l in Links(q) && Edge(q, l.0, l.1);
    links := ListOf(edges);
    forall p, s | Edge(q, p, s)
      ensures (p, s) in links
    {
      EdgeIsLinked(q, p, s);
      assert (p, s) in Links(q);
    }
    assert forall i :: 0 <= i < |links| ==> links[i] in links;
  }

  lemma EdgeIsLinked(w: World, p: string, s: string)
    requires Edge(w, p, s)
    ensures Linked(w, p, s)
  {
  }

  lemma AsksAtRest(q: World, l: (string, string))
    requires q.pulls == map[] && Edge(q, l.0, l.1)
    ensures Enabled(q, Start(0, l.0, l.1)) && Exec(q, Start(0, l.0, l.1)) == Asking(q, l)
  {
  }

  lemma AnsweredWithNothing(q: World, l: (string, string))
    requires q.pulls == map[] && Edge(q, l.0, l.1) && Next(q, l.0, l.1) == []
    ensures Enabled(Asking(q, l), Serve(0)) && Exec(Asking(q, l), Serve(0)) == q
  {
    var w := Asking(q, l);
    assert Linked(w, l.0, l.1) && CanServe(w, 0);
    assert Answer(w, w.pulls[0]) == Next(q, l.0, l.1);
    assert w.pulls - {0} == map[];
  }

  lemma EvictsNothing(q: World, idle: string)
    requires idle in q.nodes
    ensures Enabled(q, Eviction(idle, {})) && Exec(q, Eviction(idle, {})) == q
  {
    assert q.nodes[idle].(dedup := q.nodes[idle].dedup - {}) == q.nodes[idle];
  }

  lemma RestsForEver(q: World, links: seq<(string, string)>, idle: string, j: nat)
    requires q.pulls == map[] && NothingNext(q) && RestingLinks(q, links) && idle in q.nodes
    ensures var step := RestingStep(links, idle, j);
      GossipOnly(step) && Enabled(Resting(q, links, j), step) && Resting(q, links, j + 1) == Exec(Resting(q, links, j), step)
  {
    hide Enabled, Exec, Edge, Asking, Next;
    if links == [] {
      EvictsNothing(q, idle);
    } else {
      var l := Turn(links, j);
      assert Edge(q, l.0, l.1);
      if j % 2 == 0 {
        assert (j + 1) / 2 == j / 2;
        AsksAtRest(q, l);
      } else {
        AnsweredWithNothing(q, l);
      }
    }
  }

  lemma RunThenRestIsStepwise(w0: World, steps: seq<Step>, links: seq<(string, string)>, idle: string, i: nat)
    requires CanRun(w0, steps) && forall step :: step in steps ==> GossipOnly(step)
    requires var q := Run(w0, steps); q.pulls == map[] && NothingNext(q) && RestingLinks(q, links) && idle in q.nodes
    ensures StepAt(RunThenRest(w0, steps, links), RunThenRestSteps(steps, links, idle), i)
  {
    hide Enabled, Exec, Run, CanRun, After, Resting, RestingStep, NothingNext, RestingLinks;
    AfterAll(w0, steps);
    if i < |steps| {
      AfterOneMore(w0, steps, i);
      RestingAtFirst(Run(w0, steps), links);
    } else {
      RestsForEver(Run(w0, steps), links, idle, i - |steps|);
    }
  }

  lemma RestingAtFirst(q: World, links: seq<(string, string)>)
    ensures Resting(q, links, 0) == q
  {
  }

  /** A pull that is open now and not open later ends in between. */
  lemma {:induction false} GoneLater(w: nat -> World, pid: nat, t: nat, u: nat) returns (j: nat)
    requires t < u && pid in w(t).pulls && pid !in w(u).pulls
    ensures Leaves(w, pid, t, j)
    decreases u - t
  {
    if pid in w(t + 1).pulls {
      j := GoneLater(w, pid, t + 1, u);
      forall k: nat | t <= k <= j
        ensures pid in w(k).pulls
      {
        assert k == t || t + 1 <= k;
      }
    } else {
      j := t;
    }
  }

  lemma PullsEndAtRest(w0: World, steps: seq<Step>, links: seq<(string, string)>)
    requires After(w0, steps, |steps|).pulls == map[]
    ensures EveryPullEnds(RunThenRest(w0, steps, links))
  {
    var w := RunThenRest(w0, steps, links);
    forall t: nat, pid: nat | pid in w(t).pulls
      ensures exists j: nat :: Leaves(w, pid, t, j)
    {
      var n := |steps|;
      if t < n {
        assert w(n) == WorldAt(w0, steps, links, n) && w(n).pulls == map[];
        var j := GoneLater(w, pid, t, n);
      } else {
        assert w(t) == WorldAt(w0, steps, links, t) && (t - n) % 2 == 1;
        assert (t + 1 - n) % 2 == 0;
        assert w(t + 1) == WorldAt(w0, steps, links, t + 1) && w(t + 1).pulls == map[];
        var j := GoneLater(w, pid, t, t + 1);
      }
    }
  }

  lemma {:induction false} CycleOfRounds(m: nat, at: nat, t: nat)
    requires at < m
    ensures Cycle(m, at + Rounds(m, t)) == at && Rounds(m, t) >= t
  {
    if t > 0 {
      CycleOfRounds(m, at, t - 1);
    }
  }

  lemma TurnComesAgain(w0: World, steps: seq<Step>, links: seq<(string, string)>, idle: string, at: nat, t: nat)
    requires at < |links|
    ensures ServedAgain(RunThenRest(w0, steps, links), RunThenRestSteps(steps, links, idle), links[at].0, links[at].1, t)
  {
    hide After, Cursor, Rounds, Cycle;
    var w, st := RunThenRest(w0, steps, links), RunThenRestSteps(steps, links, idle);
    var x := at + Rounds(|links|, t);
    CycleOfRounds(|links|, at, t);
    var i := |steps| + 2 * x;
    assert (2 * x) / 2 == x && (2 * x + 1) / 2 == x;
    assert Turn(links, 2 * x + 1) == links[at];
    var q := After(w0, steps, |steps|);
    assert w(i) == WorldAt(w0, steps, links, i) == q;
    assert w(i + 1) == WorldAt(w0, steps, links, i + 1) == Asking(q, links[at]);
    assert st(i + 1) == NextStep(steps, links, idle, i + 1) == Serve(0);
    assert ServedAt(w, st, links[at].0, links[at].1, i, i + 1, 0);
  }

  lemma EveryLinkComesAgain(w0: World, steps: seq<Step>, links: seq<(string, string)>, idle: string)
    requires var w, st := RunThenRest(w0, steps, links), RunThenRestSteps(steps, links, idle);
      Execution(w, st) && RestingLinks(w(|steps|), links)
    ensures var w, st := RunThenRest(w0, steps, links), RunThenRestSteps(steps, links, idle);
      forall p, s, t: nat :: Edge(w(t), p, s) ==> ServedAgain(w, st, p, s, t)
  {
    hide Edge, StepAt, Good, RunThenRest, RunThenRestSteps, ServedAgain, KinWorlds;
    var w, st := RunThenRest(w0, steps, links), RunThenRestSteps(steps, links, idle);
    forall p, s, t: nat | Edge(w(t), p, s)
      ensures ServedAgain(w, st, p, s, t)
    {
      KinAt(w, st, 0, t);
      KinAt(w, st, 0, |steps|);
      KinKeepsEdges(w(0), w(t), p, s);
      KinKeepsEdges(w(0), w(|steps|), p, s);
      var at :| 0 <= at < |links| && links[at] == (p, s);
      TurnComesAgain(w0, steps, links, idle, at, t);
    }
  }

  lemma RunThenRestExecutes(w0: World, steps: seq<Step>, links: seq<(string, string)>, idle: string)
    requires Good(w0) && CanRun(w0, steps) && forall step :: step in steps ==> GossipOnly(step)
    requires var q := Run(w0, steps); q.pulls == map[] && NothingNext(q) && RestingLinks(q, links) && idle in q.nodes
    ensures Execution(RunThenRest(w0, steps, links), RunThenRestSteps(steps, links, idle))
  {
    hide StepAt, Good, Run, CanRun, NothingNext, RestingLinks;
    StartsThere(w0, steps, links);
    forall i: nat
      ensures StepAt(RunThenRest(w0, steps, links), RunThenRestSteps(steps, links, idle), i)
    {
      RunThenRestIsStepwise(w0, steps, links, idle, i);
    }
  }

  lemma RestWorld(w0: World, steps: seq<Step>, links: seq<(string, string)>)
    requires CanRun(w0, steps)
    ensures RunThenRest(w0, steps, links)(|steps|) == Run(w0, steps) == After(w0, steps, |steps|)
  {
    hide After, Run, CanRun;
    AfterAll(w0, steps);
    assert RunThenRest(w0, steps, links)(|steps|) == WorldAt(w0, steps, links, |steps|);
    RestingAtFirst(After(w0, steps, |steps|), links);
  }

  lemma RunThenRestIsFair(w0: World, steps: seq<Step>, links: seq<(string, string)>, idle: string)
    requires Good(w0) && CanRun(w0, steps) && forall step :: step in steps ==> GossipOnly(step)
    requires var q := Run(w0, steps); q.pulls == map[] && NothingNext(q) && RestingLinks(q, links) && idle in q.nodes
    ensures var w, st := RunThenRest(w0, steps, links), RunThenRestSteps(steps, links, idle);
      w(0) == w0 && Execution(w, st) && Fair(w, st)
  {
    hide Good, Run, CanRun, NothingNext, RestingLinks, Execution, EveryPullEnds, RunThenRest, RunThenRestSteps, After,
      ServedAgain;
    RunThenRestExecutes(w0, steps, links, idle);
    RestWorld(w0, steps, links);
    StartsThere(w0, steps, links);
    PullsEndAtRest(w0, steps, links);
    EveryLinkComesAgain(w0, steps, links, idle);
  }

  lemma QuietHasNothingNext(w: World)
    requires Quiet(w)
    ensures NothingNext(w)
  {
  }

  /**
   * The hypotheses of eventual agreement can be met from anywhere: every state at rest, whatever its logs hold, begins a
   * fair execution.
   */
  lemma FairExecutionExists(w0: World) returns (w: nat -> World, st: nat -> Step)
    requires Ready(w0) && w0.nodes != map[]
    ensures w(0) == w0 && Execution(w, st) && Fair(w, st) && AllOpen(w(0)) && StronglyConnected(w(0))
  {
    hide Run, CanRun, NothingNext, RestingLinks, Quiet, Agreed, Execution, Fair, RunThenRest, RunThenRestSteps;
    hide Inv, AllAccounted, Faithful, Complete, AllOpen, StronglyConnected;
    var steps := GossipReachesAgreement(w0);
    var q := Run(w0, steps);
    QuietHasNothingNext(q);
    var links := LinksOf(q);
    KeepsNodes(w0, steps);
    var idle :| idle in w0.nodes;
    RunThenRestIsFair(w0, steps, links, idle);
    w, st := RunThenRest(w0, steps, links), RunThenRestSteps(steps, links, idle);
  }

  lemma StartsThere(w0: World, steps: seq<Step>, links: seq<(string, string)>)
    ensures RunThenRest(w0, steps, links)(0) == w0
  {
  }

  lemma {:induction false} KeepsNodes(w: World, steps: seq<Step>)
    requires CanRun(w, steps) && forall step :: step in steps ==> GossipOnly(step)
    ensures Run(w, steps).nodes.Keys == w.nodes.Keys
    decreases |steps|
  {
    hide Enabled, Exec, Kin;
    if steps != [] {
      StepIsKin(w, steps[0]);
      KeepsNodes(Exec(w, steps[0]), steps[1..]);
    }
  }
}
