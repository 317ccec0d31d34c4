/** Operator approval of control actions (internal/db/trust.go): a guarded update between two reads. */
module Approval {
  import opened AuditInsert
  import opened Lists
  import opened Text

  /** The columns of control_actions that deciding an action reads or writes. */
  datatype ActionRow = ActionRow(
    state: string, result: string, closure: string, completedAt: string, expiresAt: string,
    approvedBy: string, approvedAt: string, rejectedBy: string, rejectedAt: string, note: string,
    collected: nat, bypass: bool, bypassActor: string, bypassReason: string)

  type Table = map<string, ActionRow>

  datatype Decision =
    | Approve(who: string, note: string, bypass: bool, bypassActor: string, bypassReason: string)
    | Reject(who: string, note: string)

  datatype Error = InvalidId | LoadFailed | NotFound | NotPending | UpdateFailed | NotVerified | StillPending

  const PENDING_APPROVAL := "pending_approval"

  predicate Pending(t: Table, id: string) {
    id in t && t[id].state == PENDING_APPROVAL
  }

  /** What the SET clause of approve or reject leaves in the row. */
  function Decided(r: ActionRow, d: Decision, now: string): ActionRow {
    match d
    case Approve(who, note, bypass, actor, reason) =>
      r.(state := "pending", result := "approved", approvedBy := Stored(who), approvedAt := Stored(now),
         note := Stored(note), bypass := bypass, bypassActor := Stored(actor), bypassReason := Stored(reason),
         collected := 1)
    case Reject(who, note) =>
      r.(state := "completed", result := "rejected", closure := "rejected_by_operator", rejectedBy := Stored(who),
         rejectedAt := Stored(now), note := Stored(note), completedAt := Stored(now))
  }

  /** UPDATE ... WHERE id = ... AND lifecycle_state = 'pending_approval'. */
  function Decide(t: Table, id: string, d: Decision, now: string): Table {
    if Pending(t, id) then t[id := Decided(t[id], d, now)] else t
  }

  predicate Stale(r: ActionRow, now: string) {
    r.state == PENDING_APPROVAL && r.expiresAt != "" && !Less(Stored(now), r.expiresAt)
  }

  function Expired(r: ActionRow, now: string): ActionRow {
    r.(state := "completed", result := "approval_expired", closure := "approval_expired", completedAt := Stored(now))
  }

  function Swept(t: Table, now: string): Table {
    map id | id in t :: if Stale(t[id], now) then Expired(t[id], now) else t[id]
  }

  /** Which statement of a call fails; a failed statement has no effect. */
  datatype Faults = Faults(load: bool, update: bool, verify: bool)

  /** What the first read answers. */
  function Refusal(t: Table, id: string, fails: bool): Option<Error> {
    if !ValidInput(id) then Some(InvalidId)
    else if TrimSpace(id) == "" then Some(NotFound)
    else if fails then Some(LoadFailed)
    else if id !in t then Some(NotFound)
    else if t[id].state != PENDING_APPROVAL then Some(NotPending)
    else None
  }

  /** What a call that nobody overlaps returns. */
  function Answer(t: Table, id: string, f: Faults): Option<Error> {
    if Refusal(t, id, f.load).Some? then Refusal(t, id, f.load)
    else if f.update then Some(UpdateFailed)
    else if f.verify then Some(NotVerified)
    else None
  }

  datatype Lookup = Failed(invalid: bool) | Missing | Found(row: ActionRow)

  class Store {
    var actions: Table

    constructor (actions: Table)
      ensures this.actions == actions
    {
      this.actions := actions;
    }

    method ControlActionByID(id: string, fails: bool) returns (found: Lookup)
      ensures found ==
              if TrimSpace(id) == "" then Missing
              else if !ValidInput(id) then Failed(true)
              else if fails then Failed(false)
              else if id in actions then Found(actions[id]) else Missing
    {
      if TrimSpace(id) == "" {
        return Missing;
      }
      var safeID := ValidateSQLInput(id);
      if safeID.None? || fails {
        return Failed(safeID.None?);
      }
      return if id in actions then Found(actions[id]) else Missing;
    }

    /** Approve and reject differ in the SET clause alone. An error leaves the table as it was, but for one. */
    method DecideControlAction(id: string, d: Decision, now: string, f: Faults) returns (error: Option<Error>)
      modifies this
      ensures error == Answer(old(actions), id, f) && error != Some(StillPending)
      ensures error.None? || error == Some(NotVerified) ==>
          Pending(old(actions), id) && actions == old(actions)[id := Decided(old(actions)[id], d, now)]
      ensures error.Some? && error != Some(NotVerified) ==> actions == old(actions)
    {
      var safeID := ValidateSQLInput(id);
      if safeID.None? {
        return Some(InvalidId);
      }
      var before := ControlActionByID(id, f.load);
      match before {
        case Failed(_) => return Some(LoadFailed);
        case Missing => return Some(NotFound);
        case Found(row) =>
          if row.state != PENDING_APPROVAL {
            return Some(NotPending);
          }
      }
      if f.update {
        return Some(UpdateFailed);
      }
      actions := Decide(actions, id, d, now);
      var after := ControlActionByID(id, f.verify);
      if !after.Found? {
        return Some(NotVerified);
      }
      if after.row.state == PENDING_APPROVAL {
        return Some(StillPending);
      }
      return None;
    }

    method ApproveControlAction(
      id: string, approvedBy: string, note: string, bypass: bool, actor: string, reason: string, now: string, f: Faults)
      returns (error: Option<Error>)
      modifies this
      ensures error == Answer(old(actions), id, f)
      ensures error.None? || error == Some(NotVerified) ==>
          Pending(old(actions), id) && actions == old(actions)[id := old(actions)[id].(
            state := "pending", result := "approved", collected := 1, note := Stored(note),
            approvedBy := Stored(approvedBy), approvedAt := Stored(now),
            bypass := bypass, bypassActor := Stored(actor), bypassReason := Stored(reason))]
      ensures error.Some? && error != Some(NotVerified) ==> actions == old(actions)
    {
      error := DecideControlAction(id, Approve(approvedBy, note, bypass, actor, reason), now, f);
    }

    method RejectControlAction(id: string, rejectedBy: string, note: string, now: string, f: Faults)
      returns (error: Option<Error>)
      modifies this
      ensures error == Answer(old(actions), id, f)
      ensures error.None? || error == Some(NotVerified) ==>
          Pending(old(actions), id) && actions == old(actions)[id := old(actions)[id].(
            state := "completed", result := "rejected", closure := "rejected_by_operator", note := Stored(note),
            rejectedBy := Stored(rejectedBy), rejectedAt := Stored(now), completedAt := Stored(now))]
      ensures error.Some? && error != Some(NotVerified) ==> actions == old(actions)
    {
      error := DecideControlAction(id, Reject(rejectedBy, note), now, f);
    }

    method ExpireStaleApprovalActions(now: string)
      modifies this
      ensures actions.Keys == old(actions).Keys
      ensures forall id :: id in actions ==>
          if Stale(old(actions)[id], now)
          then actions[id].state == "completed" && actions[id].closure == "approval_expired"
          else actions[id] == old(actions)[id]
      ensures actions == Swept(old(actions), now)
    {
      actions := map id | id in actions :: if Stale(actions[id], now) then Expired(actions[id], now) else actions[id];
    }
  }

  // ------------------------------------------------------------------ deadlines and errors, told on the row

  /** A pending action whose deadline is set and has come. */
  predicate Overdue(r: ActionRow, now: string) {
    r.state == "pending_approval" && r.expiresAt != "" && (r.expiresAt == now || Less(r.expiresAt, now))
  }

  /** A sweep closes the overdue actions and touches no other; none is left, and an earlier sweep finds none either. */
  lemma SweepClosesOverdue(t: Table, now: string, earlier: string, id: string)
    requires ValidInput(now) && ValidInput(earlier) && (earlier == now || Less(earlier, now)) && id in t
    ensures Swept(t, now).Keys == t.Keys
    ensures Swept(t, now)[id] ==
      if Overdue(t[id], now)
      then t[id].(state := "completed", result := "approval_expired", closure := "approval_expired", completedAt := now)
      else t[id]
    ensures !Overdue(Swept(t, now)[id], now) && Swept(Swept(t, now), earlier)[id] == Swept(t, now)[id]
  {
    hide Less;
    LessTotal(now, t[id].expiresAt);
    LessTotal(earlier, t[id].expiresAt);
    if Less(t[id].expiresAt, earlier) && Less(earlier, now) {
      LessTransitive(t[id].expiresAt, earlier, now);
    }
  }

  /** Which error a call returns, from the first that applies. */
  lemma ErrorsMean(t: Table, id: string, f: Faults)
    ensures var found := TrimSpace(id) != "" && !f.load && id in t;
      var pending := found && t[id].state == "pending_approval";
      && (Answer(t, id, f) == Some(InvalidId) <==> !ValidInput(id))
      && (Answer(t, id, f) == Some(NotFound) <==>
            ValidInput(id) && (TrimSpace(id) == "" || (!f.load && id !in t)))
      && (Answer(t, id, f) == Some(LoadFailed) <==> ValidInput(id) && TrimSpace(id) != "" && f.load)
      && (Answer(t, id, f) == Some(NotPending) <==> ValidInput(id) && found && !pending)
      && (Answer(t, id, f) == Some(UpdateFailed) <==> ValidInput(id) && pending && f.update)
      && (Answer(t, id, f) == Some(NotVerified) <==> ValidInput(id) && pending && !f.update && f.verify)
      && (Answer(t, id, f) == None <==> ValidInput(id) && pending && !f.update && !f.verify)
  {
    hide ValidInput, TrimSpace;
  }

  // ------------------------------------------------------------------ interleaved callers

  /** How far a call has come. `hit` records whether its guarded update matched; the code never learns it. */
  datatype Progress = Start | Seen | Written(hit: bool) | Done(error: Option<Error>, hit: bool)

  datatype Call = Call(id: string, decision: Decision, now: string, at: Progress)

  datatype World = World(table: Table, calls: seq<Call>)

  /** One statement of call i, an expiry sweep, an executor's write, or a new action. */
  datatype Step =
    | Advance(i: nat, fails: bool)
    | Sweep(now: string)
    | Execute(id: string, row: ActionRow)
    | Propose(id: string, row: ActionRow)

  /** Everything in a row that tells how it was decided. */
  datatype Verdict = Verdict(
    approvedBy: string, approvedAt: string, rejectedBy: string, rejectedAt: string, note: string, collected: nat)

  function VerdictOf(r: ActionRow): Verdict {
    Verdict(r.approvedBy, r.approvedAt, r.rejectedBy, r.rejectedAt, r.note, r.collected)
  }

  predicate Undecided(r: ActionRow) {
    r.approvedBy == "" && r.approvedAt == "" && r.rejectedBy == "" && r.rejectedAt == ""
  }

  /** The executor only moves actions that have left pending_approval, and does not touch the decision. */
  predicate Enabled(w: World, s: Step) {
    match s
    case Advance(i, _) => i < |w.calls| && !w.calls[i].at.Done?
    case Sweep(_) => true
    case Execute(id, row) =>
      && id in w.table && !Pending(w.table, id) && row.state != PENDING_APPROVAL
      && VerdictOf(row) == VerdictOf(w.table[id])
    case Propose(id, row) => id !in w.table && Undecided(row)
  }

  function Advanced(t: Table, c: Call, fails: bool): (Table, Progress) {
    match c.at
    case Start =>
      var refusal := Refusal(t, c.id, fails);
      (t, if refusal.Some? then Done(refusal, false) else Seen)
    case Seen =>
      if fails then (t, Done(Some(UpdateFailed), false))
      else (Decide(t, c.id, c.decision, c.now), Written(Pending(t, c.id)))
    case Written(hit) =>
      (t, Done(if fails || c.id !in t then Some(NotVerified)
               else if Pending(t, c.id) then Some(StillPending) else None, hit))
    case Done(_, _) => (t, c.at)
  }

  function Exec(w: World, s: Step): World
    requires Enabled(w, s)
  {
    match s
    case Advance(i, fails) =>
      var (t, at) := Advanced(w.table, w.calls[i], fails);
      World(t, w.calls[i := w.calls[i].(at := at)])
    case Sweep(now) => w.(table := Swept(w.table, now))
    case Execute(id, row) => w.(table := w.table[id := row])
    case Propose(id, row) => w.(table := w.table[id := row])
  }

  ghost predicate CanRun(w: World, steps: seq<Step>)
    decreases |steps|
  {
    steps == [] || (Enabled(w, steps[0]) && CanRun(Exec(w, steps[0]), steps[1..]))
  }

  ghost function Run(w: World, steps: seq<Step>): World
    requires CanRun(w, steps)
    decreases |steps|
  {
    if steps == [] then w else Run(Exec(w, steps[0]), steps[1..])
  }

  /** How often an action leaves pending_approval in a run. */
  ghost function Departures(w: World, steps: seq<Step>, id: string): nat
    requires CanRun(w, steps)
    decreases |steps|
  {
    if steps == [] then 0
    else
      var next := Exec(w, steps[0]);
      (if Pending(w.table, id) && !Pending(next.table, id) then 1 else 0) + Departures(next, steps[1..], id)
  }

  /** An action that is not pending stays so, and keeps its verdict. */
  predicate Settled(t: Table, id: string, v: Verdict) {
    id in t && !Pending(t, id) && VerdictOf(t[id]) == v
  }

  lemma StepSettles(w: World, s: Step, id: string, v: Verdict)
    requires Enabled(w, s) && Settled(w.table, id, v)
    ensures Settled(Exec(w, s).table, id, v)
  {
  }

  /** A verdict is final: nothing that happens afterwards decides the action again. */
  lemma {:induction false} VerdictIsFinal(w: World, steps: seq<Step>, id: string, v: Verdict)
    requires CanRun(w, steps) && Settled(w.table, id, v)
    ensures Settled(Run(w, steps).table, id, v) && Departures(w, steps, id) == 0
    decreases |steps|
  {
    if steps != [] {
      StepSettles(w, steps[0], id, v);
      VerdictIsFinal(Exec(w, steps[0]), steps[1..], id, v);
    }
  }

  /** Whatever callers, sweeps and executors do, an action leaves pending_approval at most once. */
  lemma {:induction false} DecidedAtMostOnce(w: World, steps: seq<Step>, id: string)
    requires CanRun(w, steps)
    ensures Departures(w, steps, id) <= 1
    decreases |steps|
  {
    if steps != [] {
      var next := Exec(w, steps[0]);
      if Pending(w.table, id) && !Pending(next.table, id) {
        VerdictIsFinal(next, steps[1..], id, VerdictOf(next.table[id]));
      } else {
        DecidedAtMostOnce(next, steps[1..], id);
      }
    }
  }

  // ------------------------------------------------------------------ what a row and a return value tell

  /** Never an approver beside a rejecter, and neither while the action is pending. */
  predicate RowOk(r: ActionRow) {
    && ((r.approvedBy == "" && r.approvedAt == "") || (r.rejectedBy == "" && r.rejectedAt == ""))
    && (r.state == PENDING_APPROVAL ==> Undecided(r))
  }

  function Own(c: Call, v: Verdict): bool {
    match c.decision
    case Approve(who, note, _, _, _) =>
      v.approvedBy == Stored(who) && v.approvedAt == Stored(c.now) && v.note == Stored(note) && v.collected == 1
      && v.rejectedBy == "" && v.rejectedAt == ""
    case Reject(who, note) =>
      v.rejectedBy == Stored(who) && v.rejectedAt == Stored(c.now) && v.note == Stored(note)
      && v.approvedBy == "" && v.approvedAt == ""
  }

  /** What is known of a call from where it stands. */
  predicate CallOk(t: Table, c: Call) {
    match c.at
    case Start => true
    case Seen => c.id in t
    case Written(hit) => c.id in t && !Pending(t, c.id) && (hit ==> Own(c, VerdictOf(t[c.id])))
    case Done(error, hit) =>
      && (error.None? || hit ==> c.id in t && !Pending(t, c.id))
      && (hit ==> Own(c, VerdictOf(t[c.id])))
      && (hit ==> error.None? || error == Some(NotVerified))
      && error != Some(StillPending)
  }

  ghost predicate Inv(w: World) {
    && (forall id :: id in w.table ==> RowOk(w.table[id]))
    && (forall i :: 0 <= i < |w.calls| ==> CallOk(w.table, w.calls[i]))
  }

  lemma StepKeepsRows(w: World, s: Step)
    requires Enabled(w, s) && Inv(w)
    ensures forall id :: id in Exec(w, s).table ==> RowOk(Exec(w, s).table[id])
  {
  }

  /** What a step cannot take from a call that does not move. */
  lemma StepKeepsOthers(w: World, s: Step, c: Call)
    requires Enabled(w, s) && CallOk(w.table, c)
    ensures CallOk(Exec(w, s).table, c)
  {
    var t := Exec(w, s).table;
    if c.id in w.table && !Pending(w.table, c.id) {
      StepSettles(w, s, c.id, VerdictOf(w.table[c.id]));
    }
  }

  lemma AdvanceKeepsOwn(t: Table, c: Call, fails: bool)
    requires CallOk(t, c) && (c.id in t ==> RowOk(t[c.id]))
    ensures CallOk(Advanced(t, c, fails).0, c.(at := Advanced(t, c, fails).1))
  {
  }

  lemma StepKeepsInv(w: World, s: Step)
    requires Enabled(w, s) && Inv(w)
    ensures Inv(Exec(w, s))
  {
    StepKeepsRows(w, s);
    var next := Exec(w, s);
    forall i | 0 <= i < |next.calls|
      ensures CallOk(next.table, next.calls[i])
    {
      assert CallOk(w.table, w.calls[i]);
      if s.Advance? && s.i == i {
        AdvanceKeepsOwn(w.table, w.calls[i], s.fails);
      } else {
        StepKeepsOthers(w, s, w.calls[i]);
      }
    }
  }

  /**
   * In every run: no row names both an approver and a rejecter; a call that returned an error changed nothing
   * unless it could not read the row back; no call finds its action still pending; a call whose update matched
   * finds its own decision in the row.
   */
  lemma {:induction false} RunKeepsInv(w: World, steps: seq<Step>)
    requires CanRun(w, steps) && Inv(w)
    ensures Inv(Run(w, steps))
    decreases |steps|
  {
    if steps != [] {
      StepKeepsInv(w, steps[0]);
      RunKeepsInv(Exec(w, steps[0]), steps[1..]);
    }
  }

  ghost predicate Waits(steps: seq<Step>, i: nat) {
    forall s :: s in steps ==> !s.Advance? || s.i != i
  }

  lemma {:induction false} WaitingCallKeeps(w: World, steps: seq<Step>, i: nat)
    requires CanRun(w, steps) && i < |w.calls| && Waits(steps, i)
    ensures |Run(w, steps).calls| == |w.calls| && Run(w, steps).calls[i] == w.calls[i]
    decreases |steps|
  {
    if steps != [] {
      assert steps[0] in steps;
      WaitingCallKeeps(Exec(w, steps[0]), steps[1..], i);
    }
  }

  lemma {:induction false} StillPendingIff(w: World, steps: seq<Step>, id: string)
    requires CanRun(w, steps) && Pending(w.table, id)
    ensures Pending(Run(w, steps).table, id) <==> Departures(w, steps, id) == 0
    decreases |steps|
  {
    if steps != [] {
      var next := Exec(w, steps[0]);
      if Pending(next.table, id) {
        StillPendingIff(next, steps[1..], id);
      } else {
        assert id in next.table;
        VerdictIsFinal(next, steps[1..], id, VerdictOf(next.table[id]));
      }
    }
  }

  /** A caller's own decision is the one stored exactly when nobody took the action between its read and its update. */
  lemma OwnDecisionStoredIff(w: World, between: seq<Step>, i: nat)
    requires Inv(w) && CanRun(w, between) && i < |w.calls| && Waits(between, i)
    requires w.calls[i].at.Seen? && Pending(w.table, w.calls[i].id)
    ensures var c, t := w.calls[i], Run(w, between).table;
      var (after, at) := Advanced(t, c, false);
      && |Run(w, between).calls| == |w.calls| && Run(w, between).calls[i] == c
      && (at == Written(true) <==> Departures(w, between, c.id) == 0)
      && (Departures(w, between, c.id) == 0 ==> c.id in after && Own(c, VerdictOf(after[c.id])))
      && (Departures(w, between, c.id) != 0 ==> after == t && at == Written(false))
  {
    WaitingCallKeeps(w, between, i);
    StillPendingIff(w, between, w.calls[i].id);
    RunKeepsInv(w, between);
  }

  /** The class and the machine agree: three statements of one call with nobody in between are one method call. */
  lemma AloneIsTheMethod(t: Table, id: string, d: Decision, now: string, f: Faults)
    ensures
      var c := Call(id, d, now, Start);
      var (t1, at1) := Advanced(t, c, f.load);
      var (t2, at2) := Advanced(t1, c.(at := at1), f.update);
      var (t3, at3) := Advanced(t2, c.(at := at2), f.verify);
      && at3.Done? && at3.error == Answer(t, id, f)
      && t3 == if at3.error.None? || at3.error == Some(NotVerified) then t[id := Decided(t[id], d, now)] else t
  {
  }

  lemma DecidedIsNotPending(r: ActionRow, d: Decision, now: string)
    ensures Decided(r, d, now).state != PENDING_APPROVAL
  {
  }

  lemma Reads(w: World, i: nat, w': World)
    requires i < |w.calls| && w.calls[i].at == Start && Refusal(w.table, w.calls[i].id, false).None?
    requires w' == w.(calls := w.calls[i := w.calls[i].(at := Seen)])
    ensures Enabled(w, Advance(i, false)) && Exec(w, Advance(i, false)) == w'
  {
  }

  lemma Writes(w: World, i: nat, t: Table, w': World)
    requires i < |w.calls| && w.calls[i].at == Seen
    requires t == Decide(w.table, w.calls[i].id, w.calls[i].decision, w.calls[i].now)
    requires w' == World(t, w.calls[i := w.calls[i].(at := Written(Pending(w.table, w.calls[i].id)))])
    ensures Enabled(w, Advance(i, false)) && Exec(w, Advance(i, false)) == w'
  {
  }

  lemma Confirms(w: World, i: nat, w': World)
    requires i < |w.calls| && w.calls[i].at.Written? && w.calls[i].id in w.table && !Pending(w.table, w.calls[i].id)
    requires w' == w.(calls := w.calls[i := w.calls[i].(at := Done(None, w.calls[i].at.hit))])
    ensures Enabled(w, Advance(i, false)) && Exec(w, Advance(i, false)) == w'
  {
  }

  const BOTH := [Advance(0, false), Advance(1, false)]

  /** One statement of each of two calls at the front of a run. */
  lemma BothMove(w: World, w1: World, w2: World, rest: seq<Step>)
    requires Enabled(w, Advance(0, false)) && Exec(w, Advance(0, false)) == w1
    requires Enabled(w1, Advance(1, false)) && Exec(w1, Advance(1, false)) == w2
    ensures CanRun(w, BOTH + rest) <==> CanRun(w2, rest)
    ensures CanRun(w, BOTH + rest) ==> Run(w, BOTH + rest) == Run(w2, rest)
  {
    hide Exec, Enabled;
    var steps := BOTH + rest;
    assert steps[1..][1..] == rest;
    assert steps[0] == Advance(0, false) && steps[1..][0] == Advance(1, false);
  }

  /** Approver and rejecter read, then write, then read again: both are told they succeeded, and only the first did. */
  lemma RacingCallersBothSucceed(t: Table, id: string, a: Decision, b: Decision, now: string)
    requires Pending(t, id) && ValidInput(id) && TrimSpace(id) != ""
    ensures
      var w := World(t, [Call(id, a, now, Start), Call(id, b, now, Start)]);
      var steps := BOTH + (BOTH + (BOTH + []));
      && CanRun(w, steps)
      && Run(w, steps) == World(t[id := Decided(t[id], a, now)],
                                [Call(id, a, now, Done(None, true)), Call(id, b, now, Done(None, false))])
  {
    hide Decided, TrimSpace, ValidInput, Stored;
    DecidedIsNotPending(t[id], a, now);
    var ca, cb := Call(id, a, now, Start), Call(id, b, now, Start);
    var t' := t[id := Decided(t[id], a, now)];
    var w0 := World(t, [ca, cb]);
    var w1 := World(t, [ca.(at := Seen), cb]);
    var w2 := World(t, [ca.(at := Seen), cb.(at := Seen)]);
    var w3 := World(t', [ca.(at := Written(true)), cb.(at := Seen)]);
    var w4 := World(t', [ca.(at := Written(true)), cb.(at := Written(false))]);
    var w5 := World(t', [ca.(at := Done(None, true)), cb.(at := Written(false))]);
    var w6 := World(t', [ca.(at := Done(None, true)), cb.(at := Done(None, false))]);
    Reads(w0, 0, w1);
    Reads(w1, 1, w2);
    Writes(w2, 0, t', w3);
    Writes(w3, 1, t', w4);
    Confirms(w4, 0, w5);
    Confirms(w5, 1, w6);
    hide Exec, Enabled;
    BothMove(w4, w5, w6, []);
    BothMove(w2, w3, w4, BOTH + []);
    BothMove(w0, w1, w2, BOTH + (BOTH + []));
  }
}
