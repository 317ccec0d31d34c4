/** What merging guarantees on the part of the state it treats as a lattice, and where whole states fall short. */
module MergeLattice {
  import opened Consistency
  import opened Text

  // ------------------------------------------------------------------ the projection and its join

  datatype Summary = Summary(
    composites: map<string, real>, transports: set<string>, ranks: map<string, nat>, freezes: set<string>,
    policy: string, seen: map<int, int>, updated: map<string, int>, clock: nat)

  function Project(s: State): Summary {
    Summary(Composites(s.nodes), s.transports.Keys, Ranks(s.actions), s.freezes.Keys, s.policyVersion,
            Seen(s.registry), Updated(s.regions), s.clock)
  }

  function Higher(a: nat, b: nat): nat {
    if b > a then b else a
  }

  function Later(a: int, b: int): int {
    if b > a then b else a
  }

  /** Worst score, furthest lifecycle, newest time, highest policy and clock; every key of either side. */
  function Join(x: Summary, y: Summary): Summary {
    Summary(
      Union(x.composites, y.composites, Min), x.transports + y.transports, Union(x.ranks, y.ranks, Higher),
      x.freezes + y.freezes, Greater(x.policy, y.policy), Union(x.seen, y.seen, Later), Union(x.updated, y.updated, Later),
      Higher(x.clock, y.clock))
  }

  function Composites(m: map<string, NodeScore>): map<string, real> {
    map id | id in m :: m[id].composite
  }

  function Ranks(m: map<string, ActionState>): map<string, nat> {
    map id | id in m :: LifecycleOrder(m[id].lifecycle)
  }

  function Seen(m: map<int, NodeInfo>): map<int, int> {
    map num | num in m :: m[num].lastSeen
  }

  function Updated(m: map<string, RegionHealth>): map<string, int> {
    map id | id in m :: m[id].lastUpdateAt
  }

  lemma CompositesJoin(a: map<string, NodeScore>, b: map<string, NodeScore>)
    ensures Composites(Union(a, b, WorseNode)) == Union(Composites(a), Composites(b), Min)
  {
  }

  lemma RanksJoin(a: map<string, ActionState>, b: map<string, ActionState>)
    ensures Ranks(Union(a, b, FurtherAction)) == Union(Ranks(a), Ranks(b), Higher)
  {
    hide LifecycleOrder;
  }

  lemma SeenJoin(a: map<int, NodeInfo>, b: map<int, NodeInfo>)
    ensures Seen(Union(a, b, LaterSeen)) == Union(Seen(a), Seen(b), Later)
  {
  }

  lemma UpdatedJoin(a: map<string, RegionHealth>, b: map<string, RegionHealth>)
    ensures Updated(Union(a, b, LaterUpdate)) == Union(Updated(a), Updated(b), Later)
  {
  }

  /** Merging two states joins their summaries. */
  lemma MergeIsJoin(a: State, b: State)
    ensures Project(Merge(a, b)) == Join(Project(a), Project(b))
  {
    hide Composites, Ranks, Seen, Updated, Greater;
    CompositesJoin(a.nodes, b.nodes);
    RanksJoin(a.actions, b.actions);
    SeenJoin(a.registry, b.registry);
    UpdatedJoin(a.regions, b.regions);
  }

  // ------------------------------------------------------------------ semilattice laws

  ghost predicate Semilattice<V(!new)>(pick: (V, V) -> V) {
    && (forall a, b :: pick(a, b) == pick(b, a))
    && (forall a, b, c :: pick(pick(a, b), c) == pick(a, pick(b, c)))
    && forall a :: pick(a, a) == a
  }

  lemma UnionLaws<K, V(!new)>(x: map<K, V>, y: map<K, V>, z: map<K, V>, pick: (V, V) -> V)
    requires Semilattice(pick)
    ensures Union(x, y, pick) == Union(y, x, pick)
    ensures Union(Union(x, y, pick), z, pick) == Union(x, Union(y, z, pick), pick)
    ensures Union(x, x, pick) == x
  {
    assert Union(x, y, pick) == Union(y, x, pick);
    var l, r := Union(Union(x, y, pick), z, pick), Union(x, Union(y, z, pick), pick);
    assert l.Keys == r.Keys;
    forall k | k in l
      ensures l[k] == r[k]
    {
    }
    assert Union(x, x, pick) == x;
  }

  lemma GreaterLaws(a: string, b: string, c: string)
    ensures Greater(a, b) == Greater(b, a) && Greater(Greater(a, b), c) == Greater(a, Greater(b, c)) &&
      Greater(a, a) == a
  {
    LessTotal(a, b);
    LessTotal(b, c);
    LessTotal(a, c);
    if Less(a, b) && Less(b, c) {
      LessTransitive(a, b, c);
    }
    if Less(c, b) && Less(b, a) {
      LessTransitive(c, b, a);
    }
  }

  lemma MinIsSemilattice()
    ensures Semilattice(Min)
  {
  }

  lemma HigherIsSemilattice()
    ensures Semilattice(Higher)
  {
  }

  lemma LaterIsSemilattice()
    ensures Semilattice(Later)
  {
  }

  /** Join is commutative, associative and idempotent. */
  lemma JoinLaws(x: Summary, y: Summary, z: Summary)
    ensures Join(x, y) == Join(y, x) && Join(Join(x, y), z) == Join(x, Join(y, z)) && Join(x, x) == x
  {
    hide Semilattice, Union, Min, Higher, Later, Greater;
    MinIsSemilattice();
    HigherIsSemilattice();
    LaterIsSemilattice();
    UnionLaws(x.composites, y.composites, z.composites, Min);
    UnionLaws(x.ranks, y.ranks, z.ranks, Higher);
    UnionLaws(x.seen, y.seen, z.seen, Later);
    UnionLaws(x.updated, y.updated, z.updated, Later);
    GreaterLaws(x.policy, y.policy, z.policy);
    HigherLaws(x.clock, y.clock, z.clock);
    SetLaws(x.transports, y.transports, z.transports);
    SetLaws(x.freezes, y.freezes, z.freezes);
  }

  lemma HigherLaws(a: nat, b: nat, c: nat)
    ensures Higher(a, b) == Higher(b, a) && Higher(Higher(a, b), c) == Higher(a, Higher(b, c)) && Higher(a, a) == a
  {
  }

  lemma SetLaws(a: set<string>, b: set<string>, c: set<string>)
    ensures a + b == b + a && (a + b) + c == a + (b + c) && a + a == a
  {
  }

  // ------------------------------------------------------------------ any order of merging

  /** Who merged whom: the leaves are the states the nodes started from. */
  datatype Tree = Leaf(state: State) | Merged(local: Tree, remote: Tree)

  function Leaves(t: Tree): set<State> {
    match t
    case Leaf(s) => {s}
    case Merged(l, r) => Leaves(l) + Leaves(r)
  }

  function Outcome(t: Tree): State {
    match t
    case Leaf(s) => s
    case Merged(l, r) => Merge(Outcome(l), Outcome(r))
  }

  predicate Leq(x: Summary, y: Summary) {
    Join(x, y) == y
  }

  lemma LeqTransitive(x: Summary, y: Summary, z: Summary)
    requires Leq(x, y) && Leq(y, z)
    ensures Leq(x, z)
  {
    hide Join;
    JoinLaws(x, y, z);
  }

  lemma LeqAntisymmetric(x: Summary, y: Summary)
    requires Leq(x, y) && Leq(y, x)
    ensures x == y
  {
    hide Join;
    JoinLaws(x, y, x);
  }

  lemma JoinIsAbove(x: Summary, y: Summary)
    ensures Leq(x, Join(x, y)) && Leq(y, Join(x, y))
  {
    hide Join;
    JoinLaws(x, x, y);
    JoinLaws(x, y, y);
    JoinLaws(y, y, x);
    JoinLaws(y, x, x);
  }

  lemma JoinIsLeast(x: Summary, y: Summary, u: Summary)
    requires Leq(x, u) && Leq(y, u)
    ensures Leq(Join(x, y), u)
  {
    hide Join;
    JoinLaws(x, y, u);
  }

  /** Every state that went in is below the outcome. */
  lemma {:induction false} OutcomeIsAbove(t: Tree, s: State)
    requires s in Leaves(t)
    ensures Leq(Project(s), Project(Outcome(t)))
  {
    hide Join, Project, Merge, Leq;
    match t {
      case Leaf(_) => LeqReflexive(Project(s));
      case Merged(l, r) =>
        var x, y := Project(Outcome(l)), Project(Outcome(r));
        MergeIsJoin(Outcome(l), Outcome(r));
        JoinIsAbove(x, y);
        if s in Leaves(l) {
          OutcomeIsAbove(l, s);
          LeqTransitive(Project(s), x, Join(x, y));
        } else {
          OutcomeIsAbove(r, s);
          LeqTransitive(Project(s), y, Join(x, y));
        }
    }
  }

  lemma LeqReflexive(x: Summary)
    ensures Leq(x, x)
  {
    JoinLaws(x, x, x);
  }

  /** The outcome is below everything that all of them are below. */
  lemma {:induction false} OutcomeIsLeast(t: Tree, u: Summary)
    requires forall s :: s in Leaves(t) ==> Leq(Project(s), u)
    ensures Leq(Project(Outcome(t)), u)
  {
    hide Join, Project, Merge, Leq;
    match t {
      case Leaf(s) => assert s in Leaves(t);
      case Merged(l, r) =>
        OutcomeIsLeast(l, u);
        OutcomeIsLeast(r, u);
        MergeIsJoin(Outcome(l), Outcome(r));
        JoinIsLeast(Project(Outcome(l)), Project(Outcome(r)), u);
    }
  }

  /** Two trees over the same states, however they repeat, nest and order them, agree on the summary. */
  lemma TreesAgree(t: Tree, t': Tree)
    requires Leaves(t) == Leaves(t')
    ensures Project(Outcome(t)) == Project(Outcome(t'))
  {
    hide Join, Project, Merge, Leq, Leaves, Outcome;
    forall s | s in Leaves(t)
      ensures Leq(Project(s), Project(Outcome(t))) && Leq(Project(s), Project(Outcome(t')))
    {
      OutcomeIsAbove(t, s);
      OutcomeIsAbove(t', s);
    }
    OutcomeIsLeast(t, Project(Outcome(t')));
    OutcomeIsLeast(t', Project(Outcome(t)));
    LeqAntisymmetric(Project(Outcome(t)), Project(Outcome(t')));
  }

  // ------------------------------------------------------------------ whole states

  ghost predicate Absorbs<V(!new)>(pick: (V, V) -> V) {
    (forall a, b :: pick(pick(a, b), b) == pick(a, b)) && forall a :: pick(a, a) == a
  }

  lemma UnionAbsorbs<K, V(!new)>(x: map<K, V>, y: map<K, V>, pick: (V, V) -> V)
    requires Absorbs(pick)
    ensures Union(Union(x, y, pick), y, pick) == Union(x, y, pick)
  {
  }

  /** Merging the same remote state again changes nothing, on whole states. */
  lemma MergingAgainChangesNothing(a: State, b: State)
    ensures Merge(Merge(a, b), b) == Merge(a, b) && Merge(a, a) == a
  {
    hide Union, Less;
    UnionAbsorbs(a.nodes, b.nodes, WorseNode);
    UnionAbsorbs(a.transports, b.transports, WorseTransport);
    UnionAbsorbs(a.actions, b.actions, FurtherAction);
    UnionAbsorbs(a.freezes, b.freezes, KeptFreeze);
    UnionAbsorbs(a.registry, b.registry, LaterSeen);
    UnionAbsorbs(a.regions, b.regions, LaterUpdate);
    LessTotal(a.policyVersion, b.policyVersion);
    LessTotal(b.policyVersion, b.policyVersion);
    LessTotal(a.policyVersion, a.policyVersion);
    SelfUnion(a);
  }

  lemma SelfUnion(a: State)
    ensures Union(a.nodes, a.nodes, WorseNode) == a.nodes &&
      Union(a.transports, a.transports, WorseTransport) == a.transports
    ensures Union(a.actions, a.actions, FurtherAction) == a.actions &&
      Union(a.freezes, a.freezes, KeptFreeze) == a.freezes
    ensures Union(a.registry, a.registry, LaterSeen) == a.registry &&
      Union(a.regions, a.regions, LaterUpdate) == a.regions
  {
  }

  /** The class that is kept belongs to the score that is kept, for every shared node. */
  lemma ClassFollowsScore(a: State, b: State, id: string)
    requires id in a.nodes && id in b.nodes
    ensures var m := Merge(a, b).nodes[id];
      && m.composite == Min(a.nodes[id].composite, b.nodes[id].composite)
      && (m.classification == b.nodes[id].classification || m.classification == a.nodes[id].classification)
      && (b.nodes[id].composite < a.nodes[id].composite ==> m.classification == b.nodes[id].classification)
      && (a.nodes[id].composite < b.nodes[id].composite ==> m.classification == a.nodes[id].classification)
  {
  }

  /** The worse health is what results exactly when the classes differ or the local health is the worse already. */
  lemma WorseHealthTakenIff(a: State, b: State, name: string)
    requires name in a.transports && name in b.transports
    ensures Merge(a, b).transports[name].health == Min(a.transports[name].health, b.transports[name].health) <==>
            a.transports[name].classification != b.transports[name].classification
            || a.transports[name].health <= b.transports[name].health
  {
  }

  /** Anomaly scores depend on who merges: a better local score keeps its own, whatever the remote saw. */
  lemma AnomalyAgreesIff(a: NodeScore, b: NodeScore)
    ensures WorseNode(a, b).anomaly == WorseNode(b, a).anomaly <==>
            (if b.composite < a.composite then a.anomaly <= b.anomaly
             else if a.composite < b.composite then b.anomaly <= a.anomaly else a.anomaly == b.anomaly)
  {
  }
}
