/** Merging two kernel states (internal/consistency/consistency.go, over the state of internal/kernel/types.go). */
module Consistency {
  import opened Lists
  import opened Text

  // ------------------------------------------------------------------ states

  datatype NodeScore = NodeScore(
    nodeId: string, transport: string, health: real, trust: real, activity: real, anomaly: real, composite: real,
    classification: string, updatedAt: int, eventId: string)

  datatype TransportScore = TransportScore(
    transport: string, health: real, reliability: real, anomalyRate: real, classification: string, updatedAt: int,
    eventId: string)

  datatype ActionState = ActionState(
    actionId: string, kind: string, target: string, lifecycle: string, proposedAt: int, executedAt: int, completedAt: int,
    result: string, owner: string, coordination: string)

  datatype FreezeState = FreezeState(
    id: string, scopeType: string, scopeValue: string, reason: string, createdAt: int, expiresAt: int)

  datatype NodeInfo = NodeInfo(num: int, id: string, longName: string, shortName: string, lastSeen: int, region: string)

  datatype RegionHealth = RegionHealth(
    id: string, nodes: int, healthy: int, degraded: int, failing: int, overall: real, lastUpdateAt: int, isolated: bool)

  datatype State = State(
    nodes: map<string, NodeScore>, transports: map<string, TransportScore>, actions: map<string, ActionState>,
    freezes: map<string, FreezeState>, policyVersion: string, lastEventId: string, lastSequence: nat, clock: nat,
    registry: map<int, NodeInfo>, regions: map<string, RegionHealth>)

  // ------------------------------------------------------------------ what merging means, entry by entry

  function Min(a: real, b: real): real {
    if a < b then a else b
  }

  function Max(a: real, b: real): real {
    if a > b then a else b
  }

  /** The rank of a lifecycle; completed and rejected share the highest. */
  function LifecycleOrder(lifecycle: string): nat {
    match lifecycle
    case "proposed" => 1
    case "approved" => 2
    case "running" => 3
    case "completed" => 4
    case "rejected" => 4
    case _ => 0
  }

  function WorseNode(l: NodeScore, r: NodeScore): NodeScore {
    if r.composite < l.composite then
      l.(composite := r.composite, classification := r.classification,
         anomaly := Max(l.anomaly, r.anomaly), health := Min(l.health, r.health))
    else l
  }

  function WorseTransport(l: TransportScore, r: TransportScore): TransportScore {
    if l.classification != r.classification && r.health < l.health then
      l.(health := r.health, classification := r.classification, anomalyRate := Max(l.anomalyRate, r.anomalyRate))
    else l
  }

  function FurtherAction(l: ActionState, r: ActionState): ActionState {
    if LifecycleOrder(r.lifecycle) > LifecycleOrder(l.lifecycle) then r else l
  }

  function KeptFreeze(l: FreezeState, r: FreezeState): FreezeState {
    l
  }

  function LaterSeen(l: NodeInfo, r: NodeInfo): NodeInfo {
    if r.lastSeen > l.lastSeen then r else l
  }

  function LaterUpdate(l: RegionHealth, r: RegionHealth): RegionHealth {
    if r.lastUpdateAt > l.lastUpdateAt then r else l
  }

  /** The entries of both maps; where both have one, `pick` decides. */
  function Union<K, V>(l: map<K, V>, r: map<K, V>, pick: (V, V) -> V): (m: map<K, V>)
    ensures m.Keys == l.Keys + r.Keys
    ensures forall k :: k in m ==> m[k] == if k in l && k in r then pick(l[k], r[k]) else if k in l then l[k] else r[k]
  {
    map k | k in l.Keys + r.Keys :: if k in l && k in r then pick(l[k], r[k]) else if k in l then l[k] else r[k]
  }

  function Merge(l: State, r: State): State {
    State(
      Union(l.nodes, r.nodes, WorseNode), Union(l.transports, r.transports, WorseTransport),
      Union(l.actions, r.actions, FurtherAction), Union(l.freezes, r.freezes, KeptFreeze),
      Greater(l.policyVersion, r.policyVersion), l.lastEventId, l.lastSequence,
      if r.clock > l.clock then r.clock else l.clock,
      Union(l.registry, r.registry, LaterSeen), Union(l.regions, r.regions, LaterUpdate))
  }

  // ------------------------------------------------------------------ what is reported

  datatype Level = Minor | Major | Critical

  datatype Strategy = LastWriteWins | ScoreDominance | PolicyPrecedence | UnionMerge

  datatype Category = Node | Transport | Action | Freeze | Policy

  /** A divergence without the text of its resolution. */
  datatype Finding = Finding(
    category: Category, key: string, local: string, remote: string, level: Level, strategy: Strategy)

  /** How a score is written, with three decimals, and the time a call reads off the clock. */
  datatype Env = Env(show: real -> string, now: int)

  datatype Divergence = Divergence(found: Finding, resolution: string, at: int)

  const ADDED := "added from remote"
  const TOOK_WORSE := "took worse score from remote"
  const KEPT_LOCAL := "kept local (worse or equal)"

  /** The order in which each map of the remote state is enumerated. */
  datatype Orders = Orders(
    nodes: seq<string>, transports: seq<string>, actions: seq<string>, freezes: seq<string>, registry: seq<int>,
    regions: seq<string>)

  predicate Enumerates<K(==)>(order: seq<K>, keys: set<K>) {
    && (forall i, j :: 0 <= i < j < |order| ==> order[i] != order[j])
    && (forall i :: 0 <= i < |order| ==> order[i] in keys)
    && forall k :: k in keys ==> k in order
  }

  predicate Fits(o: Orders, s: State) {
    && Enumerates(o.nodes, s.nodes.Keys) && Enumerates(o.transports, s.transports.Keys)
    && Enumerates(o.actions, s.actions.Keys) && Enumerates(o.freezes, s.freezes.Keys)
    && Enumerates(o.registry, s.registry.Keys) && Enumerates(o.regions, s.regions.Keys)
  }

  /** What is reported for one entry of the remote node scores; the resolution is written later. */
  function NodeFinding(l: map<string, NodeScore>, r: map<string, NodeScore>): string -> Option<Finding> {
    id =>
      if id !in r then None
      else if id !in l then Some(Finding(Node, id, "missing", r[id].classification, Minor, UnionMerge))
      else if l[id].classification != r[id].classification then
        Some(Finding(Node, id + ".classification", l[id].classification, r[id].classification, Major, ScoreDominance))
      else None
  }

  function TransportDivergence(
    env: Env, l: map<string, TransportScore>, r: map<string, TransportScore>): string -> Option<Divergence>
  {
    id =>
      if id !in r then None
      else if id !in l then
        Some(Divergence(Finding(Transport, id, "missing", env.show(r[id].health), Minor, UnionMerge), ADDED, env.now))
      else if l[id].classification != r[id].classification then
        Some(Divergence(
          Finding(Transport, id + ".classification", l[id].classification, r[id].classification, Major, ScoreDominance),
          if WorseTransport(l[id], r[id]) == l[id] then KEPT_LOCAL else TOOK_WORSE, env.now))
      else None
  }

  function ActionDivergence(
    env: Env, l: map<string, ActionState>, r: map<string, ActionState>): string -> Option<Divergence> {
    id =>
      if id !in r then None
      else if id !in l then
        Some(Divergence(Finding(Action, id, "missing", r[id].lifecycle, Critical, UnionMerge), ADDED, env.now))
      else if l[id].lifecycle != r[id].lifecycle then
        Some(Divergence(
          Finding(Action, id + ".lifecycle", l[id].lifecycle, r[id].lifecycle, Critical, LastWriteWins),
          if FurtherAction(l[id], r[id]) == l[id] then "kept local (more advanced lifecycle)"
          else "took more advanced lifecycle from remote", env.now))
      else None
  }

  function FreezeDivergence(
    env: Env, l: map<string, FreezeState>, r: map<string, FreezeState>): string -> Option<Divergence> {
    id =>
      if id !in r || id in l then None
      else Some(Divergence(Finding(Freeze, id, "missing", r[id].reason, Critical, UnionMerge),
                           "added freeze from remote (safety: keep all freezes)", env.now))
  }

  function PolicyDivergences(env: Env, l: string, r: string): seq<Divergence> {
    if l != r && r != "" then
      [Divergence(Finding(Policy, "policy_version", l, r, Critical, PolicyPrecedence),
                  if Greater(l, r) == r then "adopted remote policy version" else "kept local policy version", env.now)]
    else []
  }

  /** What is reported for the entries of a map, in the order of their enumeration. */
  function Collect<K, D>(order: seq<K>, of: K -> Option<D>): seq<D> {
    if order == [] then [] else Collect(order[..|order| - 1], of) + OneOrNone(of(order[|order| - 1]))
  }

  lemma CollectSnoc<K, D>(order: seq<K>, of: K -> Option<D>, i: nat)
    requires i < |order|
    ensures Collect(order[..i + 1], of) == Collect(order[..i], of) + OneOrNone(of(order[i]))
  {
    assert order[..i + 1][..i] == order[..i];
  }

  /** Everything reported for a pair of states, behind the divergences of the nodes. */
  function Others(env: Env, l: State, r: State, o: Orders): seq<Divergence> {
    Collect(o.transports, TransportDivergence(env, l.transports, r.transports))
    + Collect(o.actions, ActionDivergence(env, l.actions, r.actions))
    + Collect(o.freezes, FreezeDivergence(env, l.freezes, r.freezes))
    + PolicyDivergences(env, l.policyVersion, r.policyVersion)
  }

  function Found(ds: seq<Divergence>): (f: seq<Finding>)
    ensures |f| == |ds|
  {
    seq(|ds|, i requires 0 <= i < |ds| => ds[i].found)
  }

  // ------------------------------------------------------------------ the algorithm

  /** A shared node whose remote score is lower although the classifications agree: nothing is reported for it. */
  predicate Unreported(id: string, l: map<string, NodeScore>, r: map<string, NodeScore>) {
    id in l && id in r && l[id].classification == r[id].classification && r[id].composite < l[id].composite
  }

  /** A shared node that gives nothing to do. */
  predicate Unchanged(id: string, l: map<string, NodeScore>, r: map<string, NodeScore>) {
    id in l && id in r && l[id].classification == r[id].classification && l[id].composite <= r[id].composite
  }

  /** What was done to a node that is reported. */
  function OwnText(id: string, l: map<string, NodeScore>, r: map<string, NodeScore>): string
    requires id in r
  {
    if id !in l then ADDED else if r[id].composite < l[id].composite then TOOK_WORSE else KEPT_LOCAL
  }

  /** What the turn of a node that is not reported writes into the last divergence, which has this key. */
  function Overwrite(key: string, id: string, l: map<string, NodeScore>, r: map<string, NodeScore>): Option<string> {
    if Unreported(id, l, r) then Some(TOOK_WORSE)
    else if Unchanged(id, l, r) && key == id + ".classification" then Some(KEPT_LOCAL)
    else None
  }

  /** The list after one turn of the node loop: a new divergence, or at most one text changed. */
  function AfterNode(env: Env, ds: seq<Divergence>, id: string, l: map<string, NodeScore>, r: map<string, NodeScore>): (out: seq<Divergence>)
    requires id in r
    ensures Found(out) == Found(ds) + OneOrNone(NodeFinding(l, r)(id))
  {
    var f := NodeFinding(l, r)(id);
    if f.Some? then
      FoundSnoc(ds, Divergence(f.value, OwnText(id, l, r), env.now));
      ds + [Divergence(f.value, OwnText(id, l, r), env.now)]
    else if ds == [] then ds
    else
      var text := Overwrite(ds[|ds| - 1].found.key, id, l, r);
      if text.Some? then SetResolution(ds, text.value) else ds
  }

  function NodeList(
    env: Env, order: seq<string>, l: map<string, NodeScore>, r: map<string, NodeScore>): (ds: seq<Divergence>)
    requires forall id :: id in order ==> id in r
    ensures Found(ds) == Collect(order, NodeFinding(l, r))
  {
    if order == [] then []
    else AfterNode(env, NodeList(env, order[..|order| - 1], l, r), order[|order| - 1], l, r)
  }

  /** The list of divergences CompareAndResolve gives for the two states. */
  ghost predicate Listed(env: Env, l: State, r: State, o: Orders, ds: seq<Divergence>)
    requires Fits(o, r)
  {
    ds == NodeList(env, o.nodes, l.nodes, r.nodes) + Others(env, l, r, o)
  }

  /** The node loop reaches such a node with an empty list and writes to its last element. */
  ghost predicate Panics(order: seq<string>, l: map<string, NodeScore>, r: map<string, NodeScore>) {
    exists i :: 0 <= i < |order| && Unreported(order[i], l, r) && Collect(order[..i], NodeFinding(l, r)) == []
  }

  /** A map whose first n remote entries have been merged in. */
  ghost predicate Partly<K(
    !new), V>(m: map<K, V>, l: map<K, V>, r: map<K, V>, pick: (V, V) -> V, order: seq<K>, n: nat) {
    && n <= |order|
    && (forall k :: k in m <==> k in l || k in order[..n])
    && (forall k :: k in m ==> k in l || k in r)
    && forall k :: k in m ==>
         m[k] == if k in order[..n] && k in l && k in r then pick(l[k], r[k]) else if k in l then l[k] else r[k]
  }

  lemma PartlyStart<K(!new), V>(l: map<K, V>, r: map<K, V>, pick: (V, V) -> V, order: seq<K>)
    ensures Partly(l, l, r, pick, order, 0)
  {
  }

  lemma PartlyStep<K(!new), V>(
    m: map<K, V>, l: map<K, V>, r: map<K, V>, pick: (V, V) -> V, order: seq<K>, n: nat, m': map<K, V>)
    requires n < |order| && Enumerates(order, r.Keys) && Partly(m, l, r, pick, order, n)
    requires var k := order[n]; m' == m[k := if k in l then pick(l[k], r[k]) else r[k]]
    ensures Partly(m', l, r, pick, order, n + 1)
  {
    assert order[..n + 1] == order[..n] + [order[n]];
  }

  lemma PartlyEntry<K(!new), V>(m: map<K, V>, l: map<K, V>, r: map<K, V>, pick: (V, V) -> V, order: seq<K>, n: nat)
    requires n < |order| && Enumerates(order, r.Keys) && Partly(m, l, r, pick, order, n)
    ensures order[n] in r && (order[n] in m <==> order[n] in l) && (order[n] in l ==> m[order[n]] == l[order[n]])
  {
    assert order[n] !in order[..n];
  }

  lemma WhollyMerged<K(!new), V>(m: map<K, V>, l: map<K, V>, r: map<K, V>, pick: (V, V) -> V, order: seq<K>)
    requires Enumerates(order, r.Keys) && Partly(m, l, r, pick, order, |order|)
    ensures m == Union(l, r, pick)
  {
    assert order[..|order|] == order;
  }

  /** Writes the resolution of the last divergence. */
  function SetResolution(ds: seq<Divergence>, text: string): (out: seq<Divergence>)
    requires |ds| > 0
    ensures Found(out) == Found(ds) && out[..|ds| - 1] == ds[..|ds| - 1] && out[|ds| - 1].resolution == text
  {
    ds[|ds| - 1 := ds[|ds| - 1].(resolution := text)]
  }

  lemma FoundSnoc(ds: seq<Divergence>, d: Divergence)
    ensures Found(ds + [d]) == Found(ds) + [d.found]
  {
  }

  /** One turn of the loop over remote node scores; it fails when it writes to the last element of an empty list. */
  method MergeNode(env: Env, id: string, ghost l: map<string, NodeScore>, r: map<string, NodeScore>,
                   merged: map<string, NodeScore>, divergences: seq<Divergence>)
    returns (panicked: bool, ds: seq<Divergence>, m: map<string, NodeScore>)
    requires id in r && (id in merged <==> id in l) && (id in l ==> merged[id] == l[id])
    ensures panicked <==> Unreported(id, l, r) && divergences == []
    ensures !panicked ==> m == merged[id := if id in l then WorseNode(l[id], r[id]) else r[id]]
    ensures !panicked ==> ds == AfterNode(env, divergences, id, l, r)
  {
    panicked, ds, m := false, divergences, merged;
    if id !in merged {
      m := merged[id := r[id]];
      ds := ds + [Divergence(Finding(Node, id, "missing", r[id].classification, Minor, UnionMerge), ADDED, env.now)];
      return;
    }
    var score := merged[id];
    if score.classification != r[id].classification {
      ds := ds + [Divergence(
        Finding(Node, id + ".classification", score.classification, r[id].classification, Major, ScoreDominance), "",
          env.now)];
    }
    if r[id].composite < score.composite {
      score := score.(composite := r[id].composite, classification := r[id].classification,
                      anomaly := Max(score.anomaly, r[id].anomaly), health := Min(score.health, r[id].health));
      m := merged[id := score];
      if |ds| == 0 {
        panicked := true;
        return;
      }
      ds := SetResolution(ds, TOOK_WORSE);
    } else {
      if |ds| > 0 && ds[|ds| - 1].found.key == id + ".classification" {
        ds := SetResolution(ds, KEPT_LOCAL);
      }
      assert m == merged[id := merged[id]];
    }
  }

  lemma NodeListSnoc(env: Env, order: seq<string>, l: map<string, NodeScore>, r: map<string, NodeScore>, i: nat)
    requires i < |order| && forall id :: id in order ==> id in r
    ensures NodeList(env, order[..i + 1], l, r) == AfterNode(env, NodeList(env, order[..i], l, r), order[i], l, r)
    ensures NodeList(env, order[..i], l, r) == [] <==> Collect(order[..i], NodeFinding(l, r)) == []
  {
    hide AfterNode;
    assert order[..i + 1][..i] == order[..i];
  }

  method MergeNodes(env: Env, l: map<string, NodeScore>, r: map<string, NodeScore>, order: seq<string>)
    returns (panicked: bool, divergences: seq<Divergence>, merged: map<string, NodeScore>)
    requires Enumerates(order, r.Keys)
    ensures panicked <==> Panics(order, l, r)
    ensures !panicked ==> merged == Union(l, r, WorseNode) && divergences == NodeList(env, order, l, r)
  {
    hide WorseNode, NodeFinding, Unreported;
    divergences, merged := [], l;
    for i := 0 to |order|
      invariant Partly(merged, l, r, WorseNode, order, i) && divergences == NodeList(env, order[..i], l, r)
      invariant forall j :: 0 <= j < i ==> !(Unreported(order[j], l, r) && Collect(order[..j], NodeFinding(l, r)) == [])
    {
      PartlyEntry(merged, l, r, WorseNode, order, i);
      NodeListSnoc(env, order, l, r, i);
      ghost var before := merged;
      panicked, divergences, merged := MergeNode(env, order[i], l, r, merged, divergences);
      if panicked {
        return;
      }
      PartlyStep(before, l, r, WorseNode, order, i, merged);
    }
    WhollyMerged(merged, l, r, WorseNode, order);
    assert order[..|order|] == order;
    panicked := false;
  }

  /** One turn of the loop over remote transport scores. */
  method MergeTransport(env: Env, id: string, ghost l: map<string, TransportScore>,
                        r: map<string, TransportScore>, merged: map<string, TransportScore>)
    returns (ds: seq<Divergence>, m: map<string, TransportScore>)
    requires id in r && (id in merged <==> id in l) && (id in l ==> merged[id] == l[id])
    ensures m == merged[id := if id in l then WorseTransport(l[id], r[id]) else r[id]]
    ensures ds == OneOrNone(TransportDivergence(env, l, r)(id))
  {
    ds, m := [], merged;
    if id !in merged {
      m := merged[id := r[id]];
      ds := [Divergence(Finding(Transport, id, "missing", env.show(r[id].health), Minor, UnionMerge), ADDED, env.now)];
      return;
    }
    var score := merged[id];
    if score.classification != r[id].classification {
      var found := Finding(
        Transport, id + ".classification", score.classification, r[id].classification, Major, ScoreDominance);
      if r[id].health < score.health {
        score := score.(health := r[id].health, classification := r[id].classification,
                        anomalyRate := Max(score.anomalyRate, r[id].anomalyRate));
        ds := [Divergence(found, TOOK_WORSE, env.now)];
      } else {
        ds := [Divergence(found, KEPT_LOCAL, env.now)];
      }
    }
    m := merged[id := score];
  }

  method MergeTransports(
    env: Env, l: map<string, TransportScore>, r: map<string, TransportScore>, order: seq<string>)
    returns (divergences: seq<Divergence>, merged: map<string, TransportScore>)
    requires Enumerates(order, r.Keys)
    ensures merged == Union(l, r, WorseTransport)
    ensures divergences == Collect(order, TransportDivergence(env, l, r))
  {
    hide WorseTransport, TransportDivergence, Union;
    divergences, merged := [], l;
    for i := 0 to |order|
      invariant Partly(merged, l, r, WorseTransport, order, i)
      invariant divergences == Collect(order[..i], TransportDivergence(env, l, r))
    {
      PartlyEntry(merged, l, r, WorseTransport, order, i);
      CollectSnoc(order, TransportDivergence(env, l, r), i);
      ghost var before := merged;
      var ds;
      ds, merged := MergeTransport(env, order[i], l, r, merged);
      divergences := divergences + ds;
      PartlyStep(before, l, r, WorseTransport, order, i, merged);
    }
    WhollyMerged(merged, l, r, WorseTransport, order);
    assert order[..|order|] == order;
  }

  /** One turn of the loop over remote actions. */
  method MergeAction(
    env: Env, id: string, ghost l: map<string, ActionState>, r: map<string, ActionState>, merged: map<string, ActionState>)
    returns (ds: seq<Divergence>, m: map<string, ActionState>)
    requires id in r && (id in merged <==> id in l) && (id in l ==> merged[id] == l[id])
    ensures m == merged[id := if id in l then FurtherAction(l[id], r[id]) else r[id]]
    ensures ds == OneOrNone(ActionDivergence(env, l, r)(id))
  {
    hide LifecycleOrder;
    ds, m := [], merged;
    if id !in merged {
      m := merged[id := r[id]];
      ds := [Divergence(Finding(Action, id, "missing", r[id].lifecycle, Critical, UnionMerge), ADDED, env.now)];
      return;
    }
    var action := merged[id];
    if action.lifecycle != r[id].lifecycle {
      var found := Finding(Action, id + ".lifecycle", action.lifecycle, r[id].lifecycle, Critical, LastWriteWins);
      if LifecycleOrder(r[id].lifecycle) > LifecycleOrder(action.lifecycle) {
        action := r[id];
        ds := [Divergence(found, "took more advanced lifecycle from remote", env.now)];
      } else {
        ds := [Divergence(found, "kept local (more advanced lifecycle)", env.now)];
      }
    }
    m := merged[id := action];
  }

  method MergeActions(env: Env, l: map<string, ActionState>, r: map<string, ActionState>, order: seq<string>)
    returns (divergences: seq<Divergence>, merged: map<string, ActionState>)
    requires Enumerates(order, r.Keys)
    ensures merged == Union(l, r, FurtherAction)
    ensures divergences == Collect(order, ActionDivergence(env, l, r))
  {
    hide FurtherAction, ActionDivergence, Union;
    divergences, merged := [], l;
    for i := 0 to |order|
      invariant Partly(merged, l, r, FurtherAction, order, i)
      invariant divergences == Collect(order[..i], ActionDivergence(env, l, r))
    {
      PartlyEntry(merged, l, r, FurtherAction, order, i);
      CollectSnoc(order, ActionDivergence(env, l, r), i);
      ghost var before := merged;
      var ds;
      ds, merged := MergeAction(env, order[i], l, r, merged);
      divergences := divergences + ds;
      PartlyStep(before, l, r, FurtherAction, order, i, merged);
    }
    WhollyMerged(merged, l, r, FurtherAction, order);
    assert order[..|order|] == order;
  }

  method MergeFreezes(env: Env, l: map<string, FreezeState>, r: map<string, FreezeState>, order: seq<string>)
    returns (divergences: seq<Divergence>, merged: map<string, FreezeState>)
    requires Enumerates(order, r.Keys)
    ensures merged == Union(l, r, KeptFreeze)
    ensures divergences == Collect(order, FreezeDivergence(env, l, r))
  {
    hide Partly, Union, Enumerates;
    PartlyStart(l, r, KeptFreeze, order);
    divergences, merged := [], l;
    for i := 0 to |order|
      invariant Partly(merged, l, r, KeptFreeze, order, i)
      invariant divergences == Collect(order[..i], FreezeDivergence(env, l, r))
    {
      PartlyEntry(merged, l, r, KeptFreeze, order, i);
      CollectSnoc(order, FreezeDivergence(env, l, r), i);
      var id := order[i];
      ghost var before := merged;
      if id !in merged {
        merged := merged[id := r[id]];
        divergences := divergences + [Divergence(
          Finding(Freeze, id, "missing", r[id].reason, Critical, UnionMerge),
          "added freeze from remote (safety: keep all freezes)", env.now)];
      }
      assert id in before ==> merged == before[id := merged[id]];
      PartlyStep(before, l, r, KeptFreeze, order, i, merged);
    }
    WhollyMerged(merged, l, r, KeptFreeze, order);
    assert order[..|order|] == order;
  }

  method MergeRegistry(
    l: map<int, NodeInfo>, r: map<int, NodeInfo>, order: seq<int>) returns (merged: map<int, NodeInfo>)
    requires Enumerates(order, r.Keys)
    ensures merged == Union(l, r, LaterSeen)
  {
    merged := l;
    for i := 0 to |order|
      invariant Partly(merged, l, r, LaterSeen, order, i)
    {
      PartlyEntry(merged, l, r, LaterSeen, order, i);
      var num := order[i];
      ghost var before := merged;
      if num !in merged || r[num].lastSeen > merged[num].lastSeen {
        merged := merged[num := r[num]];
      }
      assert num in before ==> merged == before[num := merged[num]];
      PartlyStep(before, l, r, LaterSeen, order, i, merged);
    }
    WhollyMerged(merged, l, r, LaterSeen, order);
  }

  method MergeRegions(l: map<string, RegionHealth>, r: map<string, RegionHealth>, order: seq<string>)
    returns (merged: map<string, RegionHealth>)
    requires Enumerates(order, r.Keys)
    ensures merged == Union(l, r, LaterUpdate)
  {
    merged := l;
    for i := 0 to |order|
      invariant Partly(merged, l, r, LaterUpdate, order, i)
    {
      PartlyEntry(merged, l, r, LaterUpdate, order, i);
      var id := order[i];
      ghost var before := merged;
      if id !in merged || r[id].lastUpdateAt > merged[id].lastUpdateAt {
        merged := merged[id := r[id]];
      }
      assert id in before ==> merged == before[id := merged[id]];
      PartlyStep(before, l, r, LaterUpdate, order, i, merged);
    }
    WhollyMerged(merged, l, r, LaterUpdate, order);
  }

  /** The merged state does not depend on the order of enumeration; whether there is one does. */
  method CompareAndResolve(env: Env, l: State, r: State, o: Orders)
    returns (panicked: bool, divergences: seq<Divergence>, resolved: State)
    requires Fits(o, r)
    ensures panicked <==> Panics(o.nodes, l.nodes, r.nodes)
    ensures !panicked ==> resolved == Merge(l, r)
    ensures !panicked ==> Listed(env, l, r, o, divergences)
  {
    hide Enumerates, Union, Panics, Collect;
    resolved := l;
    var nodes, found;
    panicked, found, nodes := MergeNodes(env, l.nodes, r.nodes, o.nodes);
    if panicked {
      return true, [], l;
    }
    var ts, transports := MergeTransports(env, l.transports, r.transports, o.transports);
    var acts, actions := MergeActions(env, l.actions, r.actions, o.actions);
    var fs, freezes := MergeFreezes(env, l.freezes, r.freezes, o.freezes);
    var policyVersion, ps := ResolvePolicy(env, l.policyVersion, r.policyVersion);
    var registry := MergeRegistry(l.registry, r.registry, o.registry);
    var regions := MergeRegions(l.regions, r.regions, o.regions);
    var clock := l.clock;
    if r.clock > clock {
      clock := r.clock;
    }
    resolved := State(
      nodes, transports, actions, freezes, policyVersion, l.lastEventId, l.lastSequence, clock, registry, regions);
    divergences := found + (ts + acts + fs + ps);
    assert divergences[..|found|] == found && divergences[|found|..] == ts + acts + fs + ps;
  }

  method ResolvePolicy(env: Env, l: string, r: string) returns (version: string, divergences: seq<Divergence>)
    ensures version == Greater(l, r) && divergences == PolicyDivergences(env, l, r)
  {
    version, divergences := l, [];
    LessTotal(l, r);
    if l != r && r != "" {
      var found := Finding(Policy, "policy_version", l, r, Critical, PolicyPrecedence);
      if Less(l, r) {
        version := r;
        divergences := [Divergence(found, "adopted remote policy version", env.now)];
      } else {
        divergences := [Divergence(found, "kept local policy version", env.now)];
      }
    }
  }

  // ------------------------------------------------------------------ convergence

  datatype Report = Report(
    converged: bool, divergenceCount: nat, criticalCount: nat, majorCount: nat, minorCount: nat,
    divergences: seq<Divergence>)

  function OfLevel(level: Level): Divergence -> bool {
    (d: Divergence) => d.found.level == level
  }

  lemma LevelsAreThree(ds: seq<Divergence>)
    ensures |Select(ds, OfLevel(Critical))| + |Select(ds, OfLevel(Major))| + |Select(ds, OfLevel(Minor))| == |ds|
  {
  }

  method CountLevels(divergences: seq<Divergence>) returns (critical: nat, major: nat, minor: nat)
    ensures critical == |Select(divergences, OfLevel(Critical))| && major == |Select(divergences, OfLevel(Major))|
    ensures critical + major + minor == |divergences|
  {
    hide Select;
    SelectOfNone();
    critical, major, minor := 0, 0, 0;
    for i := 0 to |divergences|
      invariant critical == |Select(divergences[..i], OfLevel(Critical))|
      invariant major == |Select(divergences[..i], OfLevel(Major))|
      invariant minor == |Select(divergences[..i], OfLevel(Minor))|
    {
      assert divergences[..i + 1] == divergences[..i] + [divergences[i]];
      SelectAppend(divergences[..i], [divergences[i]], OfLevel(Critical));
      SelectAppend(divergences[..i], [divergences[i]], OfLevel(Major));
      SelectAppend(divergences[..i], [divergences[i]], OfLevel(Minor));
      SelectOne(divergences[i], OfLevel(Critical));
      SelectOne(divergences[i], OfLevel(Major));
      SelectOne(divergences[i], OfLevel(Minor));
      match divergences[i].found.level {
        case Critical => critical := critical + 1;
        case Major => major := major + 1;
        case Minor => minor := minor + 1;
      }
    }
    assert divergences[..|divergences|] == divergences;
    LevelsAreThree(divergences);
  }

  lemma SelectOfNone()
    ensures forall p: Divergence -> bool :: Select([], p) == []
  {
  }

  lemma SelectOne(d: Divergence, p: Divergence -> bool)
    ensures Select([d], p) == if p(d) then [d] else []
  {
  }

  /** Counts the divergences by level; only minor ones are compatible with convergence. */
  method CheckConvergence(env: Env, a: State, b: State, o: Orders) returns (report: Option<Report>)
    requires Fits(o, b)
    ensures report.None? <==> Panics(o.nodes, a.nodes, b.nodes)
    ensures report.Some? ==>
      var r := report.value;
      && Listed(env, a, b, o, r.divergences) && r.divergenceCount == |r.divergences|
      && r.criticalCount + r.majorCount + r.minorCount == |r.divergences|
      && r.criticalCount == |Select(r.divergences, OfLevel(Critical))|
      && r.majorCount == |Select(r.divergences, OfLevel(Major))|
      && (r.converged <==> forall d :: d in r.divergences ==> d.found.level == Minor)
  {
    hide Fits, Panics, Listed, Merge, Select, OfLevel;
    var panicked, divergences, resolved := CompareAndResolve(env, a, b, o);
    if panicked {
      return None;
    }
    var critical, major, minor := CountLevels(divergences);
    OnlyMinorIff(divergences);
    return Some(Report(critical == 0 && major == 0, |divergences|, critical, major, minor, divergences));
  }

  lemma OnlyMinorIff(ds: seq<Divergence>)
    ensures |Select(ds, OfLevel(Critical))| == 0 && |Select(ds, OfLevel(Major))| == 0 <==>
            forall d :: d in ds ==> d.found.level == Minor
  {
    var critical, major := Select(ds, OfLevel(Critical)), Select(ds, OfLevel(Major));
    if critical != [] {
      assert critical[0] in critical;
    }
    if major != [] {
      assert major[0] in major;
    }
    forall d | d in ds
      ensures d.found.level == Critical ==> d in critical
      ensures d.found.level == Major ==> d in major
    {
    }
  }
}
