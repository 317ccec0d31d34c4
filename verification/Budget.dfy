/** The action budget (internal/control/control.go) over the LIMIT-truncated action history (internal/db/control.go). */
module Budget {
  import opened AuditInsert
  import opened Lists
  import opened Text

  datatype Action = Action(created: string, kind: string, target: string, state: string, result: string)

  const EXECUTED_SUCCESSFULLY := "executed_successfully"
  const EXECUTED_NOOP := "executed_noop"
  const RESTART_TRANSPORT := "restart_transport"
  const MAX_ACTIONS_CAP := 100
  const MIN_COOLDOWN := 10
  const MAX_ROWS := 10000
  const HEADROOM := 10

  // ------------------------------------------------------------------ reading the history

  datatype Clause =
    | Target(name: string)
    | Kind(name: string)
    | Since(time: string)
    | Until(time: string)
    | State(name: string)

  predicate Meets(c: Clause, a: Action) {
    match c
    case Target(name) => a.target == name
    case Kind(name) => a.kind == name
    case Since(time) => !Less(a.created, time)
    case Until(time) => !Less(time, a.created)
    case State(name) => a.state == name
  }

  predicate MeetsAll(clauses: seq<Clause>, a: Action) {
    forall c :: c in clauses ==> Meets(c, a)
  }

  lemma WithMeans(clauses: seq<Clause>, asked: bool, c: Clause, a: Action)
    ensures MeetsAll(With(clauses, asked, c), a) <==> MeetsAll(clauses, a) && (asked ==> Meets(c, a))
  {
    if asked {
      assert c in clauses + [c] && forall d :: d in clauses ==> d in clauses + [c];
    }
  }

  lemma ClausesMean(target: string, kind: string, start: string, end: string, state: string, a: Action)
    ensures
      var c1 := With([], !Blank(target), Target(Stored(target)));
      var c2 := With(c1, !Blank(kind), Kind(Stored(kind)));
      var c3 := With(c2, !Blank(start), Since(Stored(start)));
      var c4 := With(c3, !Blank(end), Until(Stored(end)));
      var c5 := With(c4, !Blank(state), State(Stored(TrimSpace(state))));
      MeetsAll(c5, a) <==> Wanted(target, kind, start, end, state, a)
  {
    hide Blank, Stored, TrimSpace, MeetsAll;
    var c1 := With([], !Blank(target), Target(Stored(target)));
    var c2 := With(c1, !Blank(kind), Kind(Stored(kind)));
    var c3 := With(c2, !Blank(start), Since(Stored(start)));
    var c4 := With(c3, !Blank(end), Until(Stored(end)));
    NothingAsked(a);
    WithMeans([], !Blank(target), Target(Stored(target)), a);
    WithMeans(c1, !Blank(kind), Kind(Stored(kind)), a);
    WithMeans(c2, !Blank(start), Since(Stored(start)), a);
    WithMeans(c3, !Blank(end), Until(Stored(end)), a);
    WithMeans(c4, !Blank(state), State(Stored(TrimSpace(state))), a);
  }

  lemma NothingAsked(a: Action)
    ensures MeetsAll([], a)
  {
  }

  predicate Blank(s: string) {
    TrimSpace(s) == ""
  }

  /** What the WHERE clause asks of a row; a blank argument asks nothing. */
  predicate Wanted(target: string, kind: string, start: string, end: string, state: string, a: Action) {
    && (Blank(target) || a.target == Stored(target))
    && (Blank(kind) || a.kind == Stored(kind))
    && (Blank(start) || !Less(a.created, Stored(start)))
    && (Blank(end) || !Less(Stored(end), a.created))
    && (Blank(state) || a.state == Stored(TrimSpace(state)))
  }

  function Asked(target: string, kind: string, start: string, end: string, state: string): Action -> bool {
    a => Wanted(target, kind, start, end, state, a)
  }

  function Clamp(limit: int): (n: nat)
    ensures 1 <= n <= MAX_ROWS
    ensures 1 <= limit <= 10000 ==> n == limit
    ensures limit <= 0 ==> n == 100
    ensures limit > 10000 ==> n == 10000
  {
    if limit <= 0 then 100 else if limit > MAX_ROWS then MAX_ROWS else limit
  }

  function Drop<T>(xs: seq<T>, n: nat): seq<T> {
    if n <= |xs| then xs[n..] else []
  }

  ghost predicate NewestFirst(rows: seq<Action>) {
    forall i, j :: 0 <= i < j < |rows| ==> !Less(rows[i].created, rows[j].created)
  }

  /** A result of ORDER BY created_at DESC: the rows of the table, newest first, ties in any order. */
  ghost predicate ListsNewestFirst(listing: seq<Action>, table: seq<Action>) {
    NewestFirst(listing) && multiset(listing) == multiset(table)
  }

  /** The control_actions table. `listing` is the order in which the database happens to list it for a query. */
  class History {
    var actions: seq<Action>

    constructor (actions: seq<Action>)
      ensures this.actions == actions
    {
      this.actions := actions;
    }

    method ControlActions(
      target: string, kind: string, start: string, end: string, state: string, limit: int, offset: int,
      listing: seq<Action>, fails: bool)
      returns (rows: Option<seq<Action>>)
      requires ListsNewestFirst(listing, actions)
      ensures rows == if fails then None
                      else Some(Take(Drop(Select(listing, Asked(target, kind, start, end, state)),
                                          if offset < 0 then 0 else offset), Clamp(limit)))
    {
      var clauses: seq<Clause> := [];
      if !Blank(target) {
        clauses := clauses + [Target(Stored(target))];
      }
      if !Blank(kind) {
        clauses := clauses + [Kind(Stored(kind))];
      }
      if !Blank(start) {
        clauses := clauses + [Since(Stored(start))];
      }
      if !Blank(end) {
        clauses := clauses + [Until(Stored(end))];
      }
      if !Blank(state) {
        clauses := clauses + [State(Stored(TrimSpace(state)))];
      }
      forall a
        ensures MeetsAll(clauses, a) == Wanted(target, kind, start, end, state, a)
      {
        ClausesMean(target, kind, start, end, state, a);
      }
      if fails {
        return None;
      }
      SelectSame(listing, a => MeetsAll(clauses, a), Asked(target, kind, start, end, state));
      var from := if offset < 0 then 0 else offset;
      rows := Some(Take(Drop(Select(listing, a => MeetsAll(clauses, a)), from), Clamp(limit)));
    }

    /** Reads at most Max + 10 rows of the window; an unreadable history denies. */
    method BudgetSatisfied(
      policy: Policy, kind: string, start: string, listing: seq<Action>, fails: bool) returns (ok: bool)
      requires ListsNewestFirst(listing, actions)
      ensures ok <==>
          policy.maxActions <= 0
          || (!fails && WithinBudget(policy, kind, Newest(policy, Window(listing, start))))
    {
      hide Asked, Window, Select, Executed, Restarted, ListsNewestFirst;
      if policy.maxActions <= 0 {
        return true;
      }
      var answer := ControlActions("", "", start, "", "", policy.maxActions + HEADROOM, 0, listing, fails);
      if answer.None? {
        return false;
      }
      var rows := answer.value;
      WindowByQuery(listing, start);
      var executedCount := CountExecuted(rows);
      if executedCount >= policy.maxActions {
        return false;
      }
      if kind != RESTART_TRANSPORT || policy.restartCap <= 0 {
        return true;
      }
      var restartCount := CountRestarts(rows);
      return restartCount < policy.restartCap;
    }
  }

  /** With every other argument blank the query asks for the window alone. */
  lemma WindowByQuery(actions: seq<Action>, start: string)
    ensures Drop(Select(actions, Asked("", "", start, "", "")), 0) == Window(actions, start)
  {
    SelectSame(actions, Asked("", "", start, "", ""), a => InWindow(start, a));
  }

  method CountExecuted(rows: seq<Action>) returns (executedCount: nat)
    ensures executedCount == |Select(rows, Executed)|
  {
    executedCount := 0;
    for i := 0 to |rows|
      invariant executedCount == |Select(rows[..i], Executed)|
    {
      SelectSnoc(rows, i, Executed);
      if rows[i].result == EXECUTED_SUCCESSFULLY || rows[i].result == EXECUTED_NOOP {
        executedCount := executedCount + 1;
      }
    }
    assert rows[..|rows|] == rows;
  }

  method CountRestarts(rows: seq<Action>) returns (restartCount: nat)
    ensures restartCount == |Select(rows, Restarted)|
  {
    restartCount := 0;
    for i := 0 to |rows|
      invariant restartCount == |Select(rows[..i], Restarted)|
    {
      SelectSnoc(rows, i, Restarted);
      if rows[i].kind == RESTART_TRANSPORT
         && (rows[i].result == EXECUTED_SUCCESSFULLY || rows[i].result == EXECUTED_NOOP) {
        restartCount := restartCount + 1;
      }
    }
    assert rows[..|rows|] == rows;
  }

  // ------------------------------------------------------------------ the budget

  datatype Config = Config(
    mode: string, allowedActions: seq<string>, maxActions: int, cooldown: int, actionTimeout: int, minConfidence: real,
    allowMeshLevel: bool, allowRestart: bool, allowSuppression: bool, windowSeconds: int, restartCap: int)

  datatype Policy = Policy(
    mode: string, allowedActions: seq<string>, maxActions: int, cooldown: int, minConfidence: real,
    allowMeshLevel: bool, allowRestart: bool, allowSuppression: bool, windowSeconds: int, restartCap: int)

  /**
   * The configured limits, held to the compiled-in bounds. The action timeout is bounded too, but is not part of a
   * policy.
   */
  function PolicyFromConfig(c: Config): (p: Policy)
    ensures p.maxActions > 0 ==> Clamp(p.maxActions + HEADROOM) == p.maxActions + HEADROOM
    ensures c.maxActions > 100 ==> p.maxActions == 100
    ensures 0 < c.cooldown < 10 ==> p.cooldown == 10
    ensures p == Policy(c.mode, c.allowedActions, p.maxActions, p.cooldown, c.minConfidence,
                        c.allowMeshLevel, c.allowRestart, c.allowSuppression, c.windowSeconds, c.restartCap)
    ensures c.maxActions <= 100 ==> p.maxActions == c.maxActions
    ensures c.cooldown <= 0 || c.cooldown >= 10 ==> p.cooldown == c.cooldown
  {
    Policy(
      c.mode, c.allowedActions,
      if c.maxActions > MAX_ACTIONS_CAP then MAX_ACTIONS_CAP else c.maxActions,
      if c.cooldown > 0 && c.cooldown < MIN_COOLDOWN then MIN_COOLDOWN else c.cooldown,
      c.minConfidence, c.allowMeshLevel, c.allowRestart, c.allowSuppression, c.windowSeconds, c.restartCap)
  }

  predicate Executed(a: Action) {
    a.result == EXECUTED_SUCCESSFULLY || a.result == EXECUTED_NOOP
  }

  predicate Unexecuted(a: Action) {
    !Executed(a)
  }

  predicate Restarted(a: Action) {
    a.kind == RESTART_TRANSPORT && Executed(a)
  }

  predicate InWindow(start: string, a: Action) {
    Blank(start) || !Less(a.created, Stored(start))
  }

  /** All actions of the window, newest first. */
  function Window(actions: seq<Action>, start: string): seq<Action> {
    Select(actions, a => InWindow(start, a))
  }

  /** The part of the window the query returns. */
  function Newest(policy: Policy, window: seq<Action>): seq<Action> {
    Take(window, Clamp(policy.maxActions + HEADROOM))
  }

  predicate RestartLimited(policy: Policy, kind: string) {
    kind == RESTART_TRANSPORT && policy.restartCap > 0
  }

  /** Fewer executed actions than the maximum, and fewer executed restarts than the cap when a restart is asked for. */
  predicate WithinBudget(policy: Policy, kind: string, rows: seq<Action>) {
    && |Select(rows, Executed)| < policy.maxActions
    && (RestartLimited(policy, kind) ==> |Select(rows, Restarted)| < policy.restartCap)
  }

  // ------------------------------------------------------------------ the budget, told by results and times

  predicate Succeeded(a: Action) {
    a.result == "executed_successfully" || a.result == "executed_noop"
  }

  /** So many of the rows have a result that counts. */
  function Successes(rows: seq<Action>): nat {
    if rows == [] then 0 else Successes(rows[1..]) + (if Succeeded(rows[0]) then 1 else 0)
  }

  /** So many of them are restarts of a transport. */
  function RestartSuccesses(rows: seq<Action>): nat {
    if rows == [] then 0
    else RestartSuccesses(rows[1..]) + (if Succeeded(rows[0]) && rows[0].kind == "restart_transport" then 1 else 0)
  }

  lemma {:induction false} SelectedAreSuccesses(rows: seq<Action>)
    ensures |Select(rows, Executed)| == Successes(rows) && |Select(rows, Restarted)| == RestartSuccesses(rows)
    decreases |rows|
  {
    if rows != [] {
      SelectedAreSuccesses(rows[1..]);
    }
  }

  /**
   * Of the newest rows of the window, ten more than the maximum but no more than ten thousand, as many successes as the
   * maximum deny; with fewer the answer is yes, except that a restart is denied by as many restarts as a positive cap.
   */
  lemma SuccessesDecide(policy: Policy, kind: string, window: seq<Action>)
    requires policy.maxActions > 0
    ensures
      var n := if policy.maxActions + 10 > 10000 then 10000 else policy.maxActions + 10;
      var newest := if |window| <= n then window else window[..n];
      && (Successes(newest) >= policy.maxActions ==> !WithinBudget(policy, kind, Newest(policy, window)))
      && (Successes(newest) < policy.maxActions && (kind != "restart_transport" || policy.restartCap <= 0) ==>
            WithinBudget(policy, kind, Newest(policy, window)))
      && (Successes(newest) < policy.maxActions && kind == "restart_transport" && policy.restartCap > 0 ==>
            (WithinBudget(policy, kind, Newest(policy, window)) <==> RestartSuccesses(newest) < policy.restartCap))
  {
    SelectedAreSuccesses(Newest(policy, window));
  }

  /** A start that can be stored: the window is what was created at or after it. */
  lemma WindowMeans(actions: seq<Action>, start: string)
    requires ValidInput(start) && TrimSpace(start) != ""
    ensures Window(actions, start) == Select(actions, (a: Action) => a.created == start || Less(start, a.created))
  {
    forall a: Action
      ensures InWindow(start, a) <==> a.created == start || Less(start, a.created)
    {
      LessTotal(a.created, start);
    }
    SelectSame(actions, a => InWindow(start, a), (a: Action) => a.created == start || Less(start, a.created));
  }

  /** Each argument that is not blank cuts the answer to the rows it names; blank ones leave the table as it is. */
  lemma ArgumentsCut(rows: seq<Action>, target: string, kind: string, start: string, end: string, state: string,
                     x: string)
    requires ValidInput(x) && TrimSpace(x) == x && x != ""
    ensures Select(rows, Asked("", "", "", "", "")) == rows
    ensures Select(rows, Asked(x, kind, start, end, state))
            == Select(Select(rows, Asked("", kind, start, end, state)), (a: Action) => a.target == x)
    ensures Select(rows, Asked(target, x, start, end, state))
            == Select(Select(rows, Asked(target, "", start, end, state)), (a: Action) => a.kind == x)
    ensures Select(rows, Asked(target, kind, x, end, state))
            == Select(Select(rows, Asked(target, kind, "", end, state)), (a: Action) => !Less(a.created, x))
    ensures Select(rows, Asked(target, kind, start, x, state))
            == Select(Select(rows, Asked(target, kind, start, "", state)), (a: Action) => !Less(x, a.created))
    ensures Select(rows, Asked(target, kind, start, end, x))
            == Select(Select(rows, Asked(target, kind, start, end, "")), (a: Action) => a.state == x)
  {
    hide Select, Less;
    SelectAll(rows, Asked("", "", "", "", ""));
    SelectBoth(rows, Asked("", kind, start, end, state), (a: Action) => a.target == x,
               Asked(x, kind, start, end, state));
    SelectBoth(rows, Asked(target, "", start, end, state), (a: Action) => a.kind == x,
               Asked(target, x, start, end, state));
    SelectBoth(rows, Asked(target, kind, "", end, state), (a: Action) => !Less(a.created, x),
               Asked(target, kind, x, end, state));
    SelectBoth(rows, Asked(target, kind, start, "", state), (a: Action) => !Less(x, a.created),
               Asked(target, kind, start, x, state));
    SelectBoth(rows, Asked(target, kind, start, end, ""), (a: Action) => a.state == x,
               Asked(target, kind, start, end, x));
  }

  lemma TakeCounts<T(!new)>(xs: seq<T>, n: nat, p: T -> bool)
    ensures |Select(Take(xs, n), p)| <= |Select(xs, p)|
  {
    if n < |xs| {
      assert xs == xs[..n] + xs[n..];
      SelectAppend(xs[..n], xs[n..], p);
    }
  }

  lemma {:induction false} ExecutedOrNot(rows: seq<Action>)
    ensures |Select(rows, Executed)| + |Select(rows, Unexecuted)| == |rows|
  {
    if rows != [] {
      ExecutedOrNot(rows[1..]);
    }
  }

  /** Looking at the newest rows alone never denies what the whole window allows. */
  lemma NeverDeniesWhatTheWindowAllows(policy: Policy, kind: string, window: seq<Action>)
    requires WithinBudget(policy, kind, window)
    ensures WithinBudget(policy, kind, Newest(policy, window))
  {
    TakeCounts(window, Clamp(policy.maxActions + HEADROOM), Executed);
    TakeCounts(window, Clamp(policy.maxActions + HEADROOM), Restarted);
  }

  /** How many unexecuted rows among the newest the truncated count can stand. */
  function Slack(policy: Policy): int {
    Clamp(policy.maxActions + HEADROOM) - policy.maxActions
  }

  /**
   * When the whole window has spent the budget, the truncated check denies as well exactly when the window was not cut,
   * or no more of its newest rows are unexecuted than the slack, or they hold the capped number of restarts.
   */
  lemma TruncationDeniesIff(policy: Policy, kind: string, window: seq<Action>)
    requires policy.maxActions > 0 && !WithinBudget(policy, kind, window)
    ensures var newest := Newest(policy, window);
      !WithinBudget(policy, kind, newest) <==>
        || |window| <= Clamp(policy.maxActions + HEADROOM)
        || |Select(newest, Unexecuted)| <= Slack(policy)
        || (RestartLimited(policy, kind) && |Select(newest, Restarted)| >= policy.restartCap)
  {
    ExecutedOrNot(Newest(policy, window));
  }

  /** With a configured policy, ten unexecuted rows or fewer in the window leave the truncated check exact. */
  lemma ExactWithTenUnexecuted(c: Config, kind: string, window: seq<Action>)
    requires PolicyFromConfig(c).maxActions > 0 && |Select(window, Unexecuted)| <= HEADROOM
    ensures var policy := PolicyFromConfig(c);
      WithinBudget(policy, kind, Newest(policy, window)) <==> WithinBudget(policy, kind, window)
  {
    var policy := PolicyFromConfig(c);
    TakeCounts(window, Clamp(policy.maxActions + HEADROOM), Unexecuted);
    if WithinBudget(policy, kind, window) {
      NeverDeniesWhatTheWindowAllows(policy, kind, window);
    } else {
      TruncationDeniesIff(policy, kind, window);
    }
  }

  lemma HiddenRows(policy: Policy, kind: string, recent: seq<Action>, older: seq<Action>)
    requires policy.maxActions > 0 && Clamp(policy.maxActions + HEADROOM) == policy.maxActions + HEADROOM
    requires |recent| >= policy.maxActions + HEADROOM && |older| >= policy.maxActions
    requires (forall a :: a in recent ==> Unexecuted(a)) && (forall a :: a in older ==> Executed(a))
    ensures WithinBudget(policy, kind, Newest(policy, recent + older)) && !WithinBudget(policy, kind, recent + older)
  {
    hide Select;
    var newest := Newest(policy, recent + older);
    assert newest == recent[..policy.maxActions + HEADROOM];
    assert forall a :: a in newest ==> a in recent;
    SelectNone(newest, Executed);
    SelectNone(newest, Restarted);
    SelectAppend(recent, older, Executed);
    SelectAll(older, Executed);
  }

  /** Enough recent rows that were not executed push every executed action out of sight; the budget is granted again. */
  lemma UnexecutedRowsHideTheRest(c: Config, kind: string, recent: seq<Action>, older: seq<Action>)
    requires var policy := PolicyFromConfig(c);
      && policy.maxActions > 0 && |recent| >= policy.maxActions + HEADROOM
      && (forall a :: a in recent ==> Unexecuted(a)) && (forall a :: a in older ==> Executed(a))
      && |older| >= policy.maxActions
    ensures var policy := PolicyFromConfig(c);
      && WithinBudget(policy, kind, Newest(policy, recent + older))
      && !WithinBudget(policy, kind, recent + older)
  {
    hide WithinBudget, Newest, Executed, Unexecuted;
    HiddenRows(PolicyFromConfig(c), kind, recent, older);
  }

  /** The rows that are read are the newest of the window: none left out is newer than one that is counted. */
  lemma NewestAreNewest(policy: Policy, listing: seq<Action>, start: string, a: Action, b: Action)
    requires NewestFirst(listing)
    requires a in Newest(policy, Window(listing, start))
    requires b in Window(listing, start)[|Newest(policy, Window(listing, start))|..]
    ensures !Less(a.created, b.created)
  {
    var window := Window(listing, start);
    var newest := Newest(policy, window);
    var at := SelectIndices(listing, a => InWindow(start, a));
    var i :| 0 <= i < |newest| && newest[i] == a;
    var j :| |newest| <= j < |window| && window[j] == b;
    assert at[i] < at[j];
  }

  /** What the whole window says does not depend on how the database lists the table. */
  lemma WindowIgnoresListing(policy: Policy, kind: string, listing: seq<Action>, table: seq<Action>, start: string)
    requires ListsNewestFirst(listing, table)
    ensures WithinBudget(policy, kind, Window(listing, start)) == WithinBudget(policy, kind, Window(table, start))
    ensures |Window(listing, start)| == |Window(table, start)|
  {
    SelectPermuted(listing, table, a => InWindow(start, a));
    SelectPermuted(Window(listing, start), Window(table, start), Executed);
    SelectPermuted(Window(listing, start), Window(table, start), Restarted);
  }

  lemma SelectPermuted(xs: seq<Action>, ys: seq<Action>, p: Action -> bool)
    requires multiset(xs) == multiset(ys)
    ensures multiset(Select(xs, p)) == multiset(Select(ys, p)) && |Select(xs, p)| == |Select(ys, p)|
  {
    forall a
      ensures multiset(Select(xs, p))[a] == multiset(Select(ys, p))[a]
    {
      SelectCounts(xs, p, a);
      SelectCounts(ys, p, a);
    }
    assert |multiset(Select(xs, p))| == |Select(xs, p)| && |multiset(Select(ys, p))| == |Select(ys, p)|;
  }

  lemma {:induction false} SelectCounts(xs: seq<Action>, p: Action -> bool, a: Action)
    ensures multiset(Select(xs, p))[a] == if p(a) then multiset(xs)[a] else 0
  {
    if xs != [] {
      SelectCounts(xs[1..], p, a);
      assert xs == [xs[0]] + xs[1..];
    }
  }
}
