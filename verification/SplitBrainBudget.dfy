/** The action budget of a split-brain episode under workers that ask first and record later. */
module SplitBrainBudget {
  import opened Federation
  import opened Detection

  /**
   * The manager with k workers. `allowed` are the workers told they may act and not yet done; `recorded` is history:
   * actions recorded since the current episode began.
   */
  datatype Fleet = Fleet(det: Detector, allowed: set<nat>, recorded: nat)

  datatype Move =
    | Ask(worker: nat)
    | Act(worker: nat)
    | GiveUp(worker: nat)
    | Sense(input: Input)

  predicate CanMove(k: nat, f: Fleet, m: Move) {
    match m
    case Ask(w) => w < k && w !in f.allowed
    case Act(w) => w in f.allowed
    case GiveUp(w) => w in f.allowed
    case Sense(input) => true
  }

  function Moved(h: Host, f: Fleet, m: Move): Fleet {
    match m
    case Ask(w) => if MayExecute(h.cfg.policy, f.det) then f.(allowed := f.allowed + {w}) else f
    case Act(w) => Fleet(f.det.(actions := f.det.actions + 1), f.allowed - {w}, f.recorded + 1)
    case GiveUp(w) => f.(allowed := f.allowed - {w})
    case Sense(input) =>
      var det := React(h, f.det, input);
      Fleet(det, f.allowed, if !f.det.splitBrain && det.splitBrain then 0 else f.recorded)
  }

  ghost predicate CanPlay(h: Host, k: nat, f: Fleet, moves: seq<Move>)
    decreases |moves|
  {
    moves == [] || (CanMove(k, f, moves[0]) && CanPlay(h, k, Moved(h, f, moves[0]), moves[1..]))
  }

  function Play(h: Host, f: Fleet, moves: seq<Move>): Fleet
    decreases |moves|
  {
    if moves == [] then f else Play(h, Moved(h, f, moves[0]), moves[1..])
  }

  /** M + k - 1 with a budget of M >= 1; only the k permissions from before the episode if approval is required. */
  function Bound(policy: SplitBrainPolicy, k: nat): nat
    requires policy.requireApproval || policy.restrictAutopilot
  {
    if policy.requireApproval || policy.maxAutonomousActions < 1 then k
    else policy.maxAutonomousActions - 1 + k
  }

  predicate Restricted(policy: SplitBrainPolicy) {
    policy.requireApproval || policy.restrictAutopilot
  }

  /**
   * At most k permissions are out; during an episode the counter is the tally, and tally plus permissions is bounded.
   */
  ghost predicate BudgetInv(policy: SplitBrainPolicy, k: nat, f: Fleet)
    requires Restricted(policy)
  {
    && (forall w :: w in f.allowed ==> w < k) && |f.allowed| <= k
    && (f.det.splitBrain ==> f.recorded == f.det.actions && f.recorded + |f.allowed| <= Bound(policy, k))
  }

  function Below(n: nat): (s: set<nat>)
    ensures forall w: nat :: w in s <==> w < n
    ensures |s| == n
  {
    if n == 0 then {} else Below(n - 1) + {n - 1}
  }

  lemma AtMostK(s: set<nat>, k: nat)
    requires forall w :: w in s ==> w < k
    ensures |s| <= k
  {
    assert s <= Below(k);
    SubsetSize(s, Below(k));
  }

  lemma SubsetSize<T>(a: set<T>, b: set<T>)
    requires a <= b
    ensures |a| <= |b|
  {
    assert b == a + (b - a);
  }

  lemma MoveKeepsBudget(h: Host, k: nat, f: Fleet, m: Move)
    requires Restricted(h.cfg.policy) && BudgetInv(h.cfg.policy, k, f) && CanMove(k, f, m)
    ensures BudgetInv(h.cfg.policy, k, Moved(h, f, m))
  {
    AtMostK(Moved(h, f, m).allowed, k);
  }

  /** In every run of k workers and the detector, an episode records at most M + k - 1 actions. */
  lemma {:induction false} EpisodeIsBounded(h: Host, k: nat, f: Fleet, moves: seq<Move>)
    requires Restricted(h.cfg.policy) && BudgetInv(h.cfg.policy, k, f) && CanPlay(h, k, f, moves)
    ensures Play(h, f, moves).det.splitBrain ==> Play(h, f, moves).recorded <= Bound(h.cfg.policy, k)
    decreases |moves|
  {
    if moves != [] {
      MoveKeepsBudget(h, k, f, moves[0]);
      EpisodeIsBounded(h, k, Moved(h, f, moves[0]), moves[1..]);
    }
  }

  // ------------------------------------------------------------------ the bound is reached

  lemma {:induction false} PlayConcat(h: Host, k: nat, f: Fleet, a: seq<Move>, b: seq<Move>)
    requires CanPlay(h, k, f, a) && CanPlay(h, k, Play(h, f, a), b)
    ensures CanPlay(h, k, f, a + b) && Play(h, f, a + b) == Play(h, Play(h, f, a), b)
    decreases |a|
  {
    if a == [] {
      assert a + b == b;
    } else {
      assert (a + b)[0] == a[0] && (a + b)[1..] == a[1..] + b;
      PlayConcat(h, k, Moved(h, f, a[0]), a[1..], b);
    }
  }

  /** Worker 0 alone spends n of the budget. */
  lemma {:induction false} SpendAlone(h: Host, k: nat, f: Fleet, n: nat) returns (moves: seq<Move>)
    requires k >= 1 && f.allowed == {} && f.det.splitBrain && f.recorded == f.det.actions
    requires !h.cfg.policy.requireApproval && f.det.actions + n <= h.cfg.policy.maxAutonomousActions
    ensures CanPlay(h, k, f, moves)
    ensures Play(h, f, moves) == Fleet(f.det.(actions := f.det.actions + n), {}, f.recorded + n)
    decreases n
  {
    if n == 0 {
      moves := [];
    } else {
      var f1 := Moved(h, f, Ask(0));
      var f2 := Moved(h, f1, Act(0));
      assert f2 == Fleet(f.det.(actions := f.det.actions + 1), {}, f.recorded + 1);
      var rest := SpendAlone(h, k, f2, n - 1);
      var more := [Act(0)] + rest;
      assert more[1..] == rest;
      assert CanPlay(h, k, f1, more) && Play(h, f1, more) == Play(h, f2, rest);
      moves := [Ask(0)] + more;
      assert moves[1..] == more;
    }
  }

  /** Workers n, ..., k - 1 all ask while one action is left in the budget: all are told yes. */
  lemma {:induction false} AllAsk(h: Host, k: nat, f: Fleet, n: nat) returns (moves: seq<Move>)
    requires n <= k && f.allowed == Below(n)
    requires MayExecute(h.cfg.policy, f.det)
    ensures CanPlay(h, k, f, moves) && Play(h, f, moves) == f.(allowed := Below(k))
    decreases k - n
  {
    if n == k {
      moves := [];
    } else {
      var f1 := Moved(h, f, Ask(n));
      assert Below(n + 1) == Below(n) + {n};
      var rest := AllAsk(h, k, f1, n + 1);
      moves := [Ask(n)] + rest;
      assert moves[1..] == rest;
    }
  }

  lemma {:induction false} AllAct(h: Host, k: nat, f: Fleet, n: nat) returns (moves: seq<Move>)
    requires f.allowed == Below(n)
    ensures CanPlay(h, k, f, moves)
    ensures Play(h, f, moves) == Fleet(f.det.(actions := f.det.actions + n), {}, f.recorded + n)
    decreases n
  {
    if n == 0 {
      assert f.allowed == {};
      moves := [];
    } else {
      var f1 := Moved(h, f, Act(n - 1));
      assert Below(n) - {n - 1} == Below(n - 1);
      var rest := AllAct(h, k, f1, n - 1);
      moves := [Act(n - 1)] + rest;
      assert moves[1..] == rest;
    }
  }

  /** A fresh episode: the flag is up, nothing recorded, nobody holds a permission. */
  ghost predicate FreshEpisode(f: Fleet) {
    f.det.splitBrain && f.det.actions == 0 && f.recorded == 0 && f.allowed == {}
  }

  /** The bound is exact: for every M >= 1 and k >= 1 some run of one episode records M + k - 1 actions. */
  lemma BoundIsReached(h: Host, k: nat, f: Fleet) returns (moves: seq<Move>)
    requires k >= 1 && FreshEpisode(f)
    requires h.cfg.policy.restrictAutopilot && !h.cfg.policy.requireApproval && h.cfg.policy.maxAutonomousActions >= 1
    ensures CanPlay(h, k, f, moves)
    ensures Play(h, f, moves).det.splitBrain && Play(h, f, moves).recorded == h.cfg.policy.maxAutonomousActions + k - 1
  {
    var m := h.cfg.policy.maxAutonomousActions;
    var a := SpendAlone(h, k, f, m - 1);
    var f1 := Play(h, f, a);
    assert f1.allowed == Below(0);
    var b := AllAsk(h, k, f1, 0);
    var f2 := Play(h, f1, b);
    var c := AllAct(h, k, f2, k);
    PlayConcat(h, k, f, a, b);
    PlayConcat(h, k, f, a + b, c);
    moves := a + b + c;
  }

  ghost predicate NeverExceeds(h: Host, k: nat, f: Fleet, limit: int) {
    forall moves :: CanPlay(h, k, f, moves) && Play(h, f, moves).det.splitBrain ==> Play(h, f, moves).recorded <= limit
  }

  /** The configured maximum itself is kept by every run if and only if there is at most one worker. */
  lemma MaximumKeptIffOneWorker(h: Host, k: nat, f: Fleet)
    requires FreshEpisode(f)
    requires h.cfg.policy.restrictAutopilot && !h.cfg.policy.requireApproval && h.cfg.policy.maxAutonomousActions >= 1
    ensures NeverExceeds(h, k, f, h.cfg.policy.maxAutonomousActions) <==> k <= 1
  {
    if k <= 1 {
      forall moves | CanPlay(h, k, f, moves) && Play(h, f, moves).det.splitBrain
        ensures Play(h, f, moves).recorded <= h.cfg.policy.maxAutonomousActions
      {
        EpisodeIsBounded(h, k, f, moves);
      }
    } else {
      var moves := BoundIsReached(h, k, f);
    }
  }

  // ------------------------------------------------------------------ who may act

  /**
   * After any run that ends with a check: with at most half of the peers partitioned everything is allowed; otherwise what
   * is allowed needs no approval and, under a restricted autopilot, a counter below the maximum, which is zero when the
   * check found the majority first.
   */
  lemma PermissionIff(h: Host, d: Detector, inputs: seq<Input>, now: int)
    ensures var e := Watch(h, d, inputs + [Check(now)]);
      var cut := set id | id in e.peers && e.peers[id].state.Partitioned?;
      && (2 * |cut| <= |e.peers| ==> MayExecute(h.cfg.policy, e))
      && (2 * |cut| > |e.peers| ==>
            (MayExecute(h.cfg.policy, e) <==>
               !h.cfg.policy.requireApproval
               && (h.cfg.policy.restrictAutopilot ==> e.actions < h.cfg.policy.maxAutonomousActions)))
      && (2 * |cut| > |e.peers| && !Watch(h, d, inputs).splitBrain ==> e.actions == 0)
  {
    hide Watch, AgedPeers;
    WatchSnoc(h, d, inputs, Check(now));
    var e := Watch(h, d, inputs + [Check(now)]);
    assert (set id | id in e.peers && e.peers[id].state.Partitioned?) == PartitionedIds(e.peers);
  }

  // ------------------------------------------------------------------ when the counter is reset

  /**
   * A check that raises the flag clears the counter; every other input leaves it as it was, also one that lowers the
   * flag.
   */
  lemma CounterAfter(h: Host, d: Detector, input: Input)
    ensures var e := React(h, d, input);
      && e.actions == (if !d.splitBrain && e.splitBrain then 0 else d.actions)
      && (d.splitBrain && !e.splitBrain ==> (e.actions == 0 <==> d.actions == 0))
  {
  }

  /**
   * The variant that is documented: the counter is cleared when an episode is resolved, besides when one is detected.
   */
  function ResetOnResolution(h: Host, f: Fleet, m: Move): Fleet {
    var g := Moved(h, f, m);
    if f.det.splitBrain && !g.det.splitBrain then g.(det := g.det.(actions := 0)) else g
  }

  function PlayReset(h: Host, f: Fleet, moves: seq<Move>): Fleet
    decreases |moves|
  {
    if moves == [] then f else PlayReset(h, ResetOnResolution(h, f, moves[0]), moves[1..])
  }

  /** Alike but for the counter, which agrees during an episode. */
  predicate Alike(f: Fleet, g: Fleet) {
    && g == f.(det := f.det.(actions := g.det.actions))
    && (f.det.splitBrain ==> g.det.actions == f.det.actions)
  }

  lemma MoveKeepsAlike(h: Host, f: Fleet, g: Fleet, m: Move)
    requires Alike(f, g)
    ensures Alike(Moved(h, f, m), ResetOnResolution(h, g, m))
    ensures MayExecute(h.cfg.policy, f.det) == MayExecute(h.cfg.policy, g.det)
  {
    hide AgedPeers, Majority, Known;
    match m {
      case Sense(input) => ReactIgnoresCounter(h, f.det, g.det, input);
      case _ =>
    }
  }

  lemma ReactIgnoresCounter(h: Host, d: Detector, e: Detector, input: Input)
    requires e == d.(actions := e.actions)
    ensures var x, y := React(h, d, input), React(h, e, input);
      && y == x.(actions := y.actions)
      && y.actions == (if !e.splitBrain && y.splitBrain then 0 else e.actions)
      && x.actions == (if !d.splitBrain && x.splitBrain then 0 else d.actions)
  {
    hide AgedPeers, Majority, Known;
    assert e.peers == d.peers && e.splitBrain == d.splitBrain && e.conflicts == d.conflicts;
    match input {
      case Beat(hb, at) => KnownIgnoresCounter(h, d, e, hb, at);
      case _ =>
    }
  }

  lemma KnownIgnoresCounter(h: Host, d: Detector, e: Detector, hb: Heartbeat, at: int)
    requires e.peers == d.peers
    ensures Known(h.cfg, at, e, hb) == Known(h.cfg, at, d, hb)
  {
  }

  /**
   * Whether the counter is cleared at resolution as well cannot be told from any permission, record, flag or conflict:
   * in every run of workers and detector the two variants agree on everything but the counter between episodes.
   */
  lemma {:induction false} ResettingAtResolutionIsInvisible(h: Host, k: nat, f: Fleet, g: Fleet, moves: seq<Move>)
    requires Alike(f, g) && CanPlay(h, k, f, moves)
    ensures Alike(Play(h, f, moves), PlayReset(h, g, moves))
    ensures MayExecute(h.cfg.policy, Play(h, f, moves).det) == MayExecute(h.cfg.policy, PlayReset(h, g, moves).det)
    decreases |moves|
  {
    hide Moved, ResetOnResolution, CanMove;
    if moves != [] {
      MoveKeepsAlike(h, f, g, moves[0]);
      ResettingAtResolutionIsInvisible(h, k, Moved(h, f, moves[0]), ResetOnResolution(h, g, moves[0]), moves[1..]);
    }
  }
}
