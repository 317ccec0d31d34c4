/** When merging panics, when two states count as converged, and what a mutual exchange achieves. */
module Exchange {
  import opened Consistency
  import opened Lists
  import opened Text

  // ------------------------------------------------------------------ the panic

  lemma {:induction false} CollectHas<K, D>(order: seq<K>, of: K -> Option<D>, d: D)
    ensures d in Collect(order, of) <==> exists i :: 0 <= i < |order| && of(order[i]) == Some(d)
  {
    if order != [] {
      var n := |order| - 1;
      CollectHas(order[..n], of, d);
      if d in Collect(order, of) && d !in Collect(order[..n], of) {
        assert of(order[n]) == Some(d);
      }
      if i :| 0 <= i < |order| && of(order[i]) == Some(d) {
        if i < n {
          assert of(order[..n][i]) == Some(d);
        }
      }
    }
  }

  lemma {:induction false} CollectEmptyIff<K, D>(order: seq<K>, of: K -> Option<D>)
    ensures Collect(order, of) == [] <==> forall i :: 0 <= i < |order| ==> of(order[i]).None?
  {
    if order != [] {
      CollectEmptyIff(order[..|order| - 1], of);
    }
  }

  /** The order that enumerates one key first. */
  lemma {:induction false} EnumerateFrom(keys: set<string>, first: string) returns (order: seq<string>)
    requires first in keys
    ensures Enumerates(order, keys) && order[0] == first
    decreases |keys|
  {
    var others := keys - {first};
    if next :| next in others {
      var rest := EnumerateFrom(others, next);
      order := [first] + rest;
    } else {
      order := [first];
    }
  }

  /** Some enumeration of the remote nodes panics exactly when a shared node scores lower under the same class. */
  lemma SomeOrderPanicsIff(l: map<string, NodeScore>, r: map<string, NodeScore>)
    ensures (exists order :: Enumerates(order, r.Keys) && Panics(order, l, r)) <==> exists id :: Unreported(id, l, r)
  {
    if id :| Unreported(id, l, r) {
      var order := EnumerateFrom(r.Keys, id);
      assert order[..0] == [] && Unreported(order[0], l, r);
      assert Panics(order, l, r);
    }
  }

  /** Every enumeration panics exactly when there is such a node and nothing at all to report about the nodes. */
  lemma EveryOrderPanicsIff(l: map<string, NodeScore>, r: map<string, NodeScore>)
    ensures (forall order :: Enumerates(order, r.Keys) ==> Panics(order, l, r)) <==>
            (exists id :: Unreported(id, l, r)) && (forall id :: id in r ==> NodeFinding(l, r)(id).None?)
  {
    if (exists id :: Unreported(id, l, r)) && (forall id :: id in r ==> NodeFinding(l, r)(id).None?) {
      var id :| Unreported(id, l, r);
      forall order | Enumerates(order, r.Keys)
        ensures Panics(order, l, r)
      {
        var i :| 0 <= i < |order| && order[i] == id;
        CollectEmptyIff(order[..i], NodeFinding(l, r));
      }
    }
    if forall order :: Enumerates(order, r.Keys) ==> Panics(order, l, r) {
      if r.Keys == {} {
        assert Enumerates([], r.Keys);
      } else {
        forall id | id in r
          ensures NodeFinding(l, r)(id).None?
        {
          var order := EnumerateFrom(r.Keys, id);
          PanicMeansSilence(order, l, r);
        }
        var some :| some in r.Keys;
        var order := EnumerateFrom(r.Keys, some);
        assert Panics(order, l, r);
      }
    }
  }

  /** A panic happens before anything is reported, and not at an entry that is reported. */
  lemma PanicMeansSilence(order: seq<string>, l: map<string, NodeScore>, r: map<string, NodeScore>)
    requires order != [] && Panics(order, l, r)
    ensures NodeFinding(l, r)(order[0]).None?
  {
    var i :| 0 <= i < |order| && Unreported(order[i], l, r) && Collect(order[..i], NodeFinding(l, r)) == [];
    CollectEmptyIff(order[..i], NodeFinding(l, r));
    if i > 0 {
      assert NodeFinding(l, r)(order[..i][0]).None?;
    }
  }

  // ------------------------------------------------------------------ when two states count as converged

  predicate SameClass(a: State, b: State) {
    && (forall id :: id in a.nodes && id in b.nodes ==> a.nodes[id].classification == b.nodes[id].classification)
    && (forall id :: id in a.transports && id in b.transports ==>
          a.transports[id].classification == b.transports[id].classification)
  }

  predicate SameSafety(a: State, b: State) {
    && (forall id :: id in b.actions ==> id in a.actions && a.actions[id].lifecycle == b.actions[id].lifecycle)
    && (forall id :: id in b.freezes ==> id in a.freezes)
    && (a.policyVersion == b.policyVersion || b.policyVersion == "")
  }

  predicate NothingNew(a: State, b: State) {
    (forall id :: id in b.nodes ==> id in a.nodes) && (forall id :: id in b.transports ==> id in a.transports)
  }

  ghost predicate AllMinor(ds: seq<Divergence>) {
    forall d :: d in ds ==> d.found.level == Minor
  }

  ghost predicate AllMinorFindings(fs: seq<Finding>) {
    forall f :: f in fs ==> f.level == Minor
  }

  lemma LevelsOfFound(ds: seq<Divergence>)
    ensures AllMinor(ds) <==> AllMinorFindings(Found(ds))
  {
    forall i | 0 <= i < |ds|
      ensures ds[i] in ds && Found(ds)[i] in Found(ds) && Found(ds)[i] == ds[i].found
    {
    }
    if AllMinorFindings(Found(ds)) {
      forall d | d in ds
        ensures d.found.level == Minor
      {
        var i :| 0 <= i < |ds| && ds[i] == d;
        assert Found(ds)[i] in Found(ds);
      }
    }
  }

  lemma FindingLevels(order: seq<string>, keys: set<string>, of: string -> Option<Finding>)
    requires Enumerates(order, keys)
    ensures AllMinorFindings(Collect(order, of)) <==>
            forall id :: id in keys && of(id).Some? ==> of(id).value.level == Minor
    ensures Collect(order, of) == [] <==> forall id :: id in keys ==> of(id).None?
  {
    CollectEmptyIff(order, of);
    forall id | id in keys && of(id).Some?
      ensures of(id).value in Collect(order, of)
    {
      var i :| 0 <= i < |order| && order[i] == id;
      CollectHas(order, of, of(id).value);
    }
    forall f | f in Collect(order, of)
      ensures exists id :: id in keys && of(id) == Some(f)
    {
      CollectHas(order, of, f);
      var i :| 0 <= i < |order| && of(order[i]) == Some(f);
    }
  }

  lemma NodePart(a: State, b: State, o: Orders, ds: seq<Divergence>)
    requires Enumerates(o.nodes, b.nodes.Keys) && Found(ds) == Collect(o.nodes, NodeFinding(a.nodes, b.nodes))
    ensures AllMinor(ds) <==>
            forall id :: id in a.nodes && id in b.nodes ==> a.nodes[id].classification == b.nodes[id].classification
    ensures ds == [] <==> AllMinor(ds) && forall id :: id in b.nodes ==> id in a.nodes
  {
    hide Collect, Enumerates, AllMinor, AllMinorFindings;
    FindingLevels(o.nodes, b.nodes.Keys, NodeFinding(a.nodes, b.nodes));
    LevelsOfFound(ds);
  }

  /** For the other maps: the levels of what is collected. */
  lemma CollectedLevels(order: seq<string>, keys: set<string>, of: string -> Option<Divergence>)
    requires Enumerates(order, keys)
    ensures AllMinor(Collect(order, of)) <==>
            forall id :: id in keys && of(id).Some? ==> of(id).value.found.level == Minor
    ensures Collect(order, of) == [] <==> forall id :: id in keys ==> of(id).None?
  {
    CollectEmptyIff(order, of);
    forall id | id in keys && of(id).Some?
      ensures of(id).value in Collect(order, of)
    {
      var i :| 0 <= i < |order| && order[i] == id;
      CollectHas(order, of, of(id).value);
    }
    forall d | d in Collect(order, of)
      ensures exists id :: id in keys && of(id) == Some(d)
    {
      CollectHas(order, of, d);
      var i :| 0 <= i < |order| && of(order[i]) == Some(d);
    }
  }

  lemma AllMinorAppend(ds: seq<Divergence>, es: seq<Divergence>)
    ensures AllMinor(ds + es) <==> AllMinor(ds) && AllMinor(es)
    ensures ds + es == [] <==> ds == [] && es == []
  {
    if AllMinor(ds + es) {
      assert forall d :: d in ds ==> d in ds + es;
      assert forall d :: d in es ==> d in ds + es;
    }
  }

  lemma TransportPart(env: Env, a: State, b: State, order: seq<string>)
    requires Enumerates(order, b.transports.Keys)
    ensures var ds := Collect(order, TransportDivergence(env, a.transports, b.transports));
      && (AllMinor(ds) <==>
            forall id :: id in a.transports && id in b.transports ==>
              a.transports[id].classification == b.transports[id].classification)
      && (ds == [] <==> AllMinor(ds) && forall id :: id in b.transports ==> id in a.transports)
  {
    hide Collect, AllMinor, Enumerates;
    CollectedLevels(order, b.transports.Keys, TransportDivergence(env, a.transports, b.transports));
  }

  lemma ActionPart(env: Env, a: State, b: State, order: seq<string>)
    requires Enumerates(order, b.actions.Keys)
    ensures var ds := Collect(order, ActionDivergence(env, a.actions, b.actions));
      && (AllMinor(ds) <==>
            forall id :: id in b.actions ==> id in a.actions && a.actions[id].lifecycle == b.actions[id].lifecycle)
      && (ds == [] <==> AllMinor(ds))
  {
    hide Collect, AllMinor, Enumerates, FurtherAction;
    CollectedLevels(order, b.actions.Keys, ActionDivergence(env, a.actions, b.actions));
  }

  lemma FreezePart(env: Env, a: State, b: State, order: seq<string>)
    requires Enumerates(order, b.freezes.Keys)
    ensures var ds := Collect(order, FreezeDivergence(env, a.freezes, b.freezes));
      && (AllMinor(ds) <==> forall id :: id in b.freezes ==> id in a.freezes)
      && (ds == [] <==> AllMinor(ds))
  {
    hide Collect, AllMinor, Enumerates;
    CollectedLevels(order, b.freezes.Keys, FreezeDivergence(env, a.freezes, b.freezes));
  }

  lemma OtherParts(env: Env, a: State, b: State, o: Orders)
    requires Fits(o, b)
    ensures AllMinor(Others(env, a, b, o)) <==>
        && (forall id :: id in a.transports && id in b.transports ==>
              a.transports[id].classification == b.transports[id].classification)
        && SameSafety(a, b)
    ensures Others(env, a, b, o) == [] <==>
            AllMinor(Others(env, a, b, o)) && forall id :: id in b.transports ==> id in a.transports
  {
    hide Collect, AllMinor, Enumerates, TransportDivergence, ActionDivergence, FreezeDivergence, PolicyDivergences;
    var ts := Collect(o.transports, TransportDivergence(env, a.transports, b.transports));
    var acts := Collect(o.actions, ActionDivergence(env, a.actions, b.actions));
    var fs := Collect(o.freezes, FreezeDivergence(env, a.freezes, b.freezes));
    var ps := PolicyDivergences(env, a.policyVersion, b.policyVersion);
    TransportPart(env, a, b, o.transports);
    ActionPart(env, a, b, o.actions);
    FreezePart(env, a, b, o.freezes);
    PolicyPart(env, a.policyVersion, b.policyVersion);
    AllMinorAppend(ts, acts);
    AllMinorAppend(ts + acts, fs);
    AllMinorAppend(ts + acts + fs, ps);
  }

  lemma PolicyPart(env: Env, l: string, r: string)
    ensures AllMinor(PolicyDivergences(env, l, r)) <==> l == r || r == ""
    ensures PolicyDivergences(env, l, r) == [] <==> l == r || r == ""
  {
    if l != r && r != "" {
      assert PolicyDivergences(env, l, r)[0] in PolicyDivergences(env, l, r);
    }
  }

  /**
   * What the verdict says of the states: converged is one classification and safety state; empty is nothing new too.
   */
  lemma VerdictMeans(env: Env, a: State, b: State, o: Orders, ds: seq<Divergence>)
    requires Fits(o, b) && Listed(env, a, b, o, ds)
    ensures AllMinor(ds) <==> SameClass(a, b) && SameSafety(a, b)
    ensures ds == [] <==> SameClass(a, b) && SameSafety(a, b) && NothingNew(a, b)
  {
    hide Others, Collect, AllMinor, SameSafety;
    var n := |NodeList(env, o.nodes, a.nodes, b.nodes)|;
    assert ds[..n] == NodeList(env, o.nodes, a.nodes, b.nodes);
    NodePart(a, b, o, ds[..n]);
    OtherParts(env, a, b, o);
    assert ds == ds[..n] + ds[n..];
    AllMinorAppend(ds[..n], ds[n..]);
  }

  // ------------------------------------------------------------------ mutual exchange

  /** Where both sides hold equal measures under different names, each keeps its own. */
  predicate NodeTie(a: NodeScore, b: NodeScore) {
    a.composite == b.composite && a.classification != b.classification
  }

  predicate TransportTie(a: TransportScore, b: TransportScore) {
    a.health == b.health && a.classification != b.classification
  }

  predicate ActionTie(a: ActionState, b: ActionState) {
    LifecycleOrder(a.lifecycle) == LifecycleOrder(b.lifecycle) && a.lifecycle != b.lifecycle
  }

  predicate NoTies(a: State, b: State) {
    && (forall id :: id in a.nodes && id in b.nodes ==> !NodeTie(a.nodes[id], b.nodes[id]))
    && (forall id :: id in a.transports && id in b.transports ==> !TransportTie(a.transports[id], b.transports[id]))
    && (forall id :: id in a.actions && id in b.actions ==> !ActionTie(a.actions[id], b.actions[id]))
  }

  /** The second comparison never panics: after the exchange shared scores are equal. */
  lemma NoPanicAfterExchange(a: State, b: State, order: seq<string>)
    ensures !Panics(order, Merge(a, b).nodes, Merge(b, a).nodes)
  {
    hide Collect, NodeFinding;
    forall id
      ensures !Unreported(id, Merge(a, b).nodes, Merge(b, a).nodes)
    {
      SharedScoresAgree(a.nodes, b.nodes, id);
    }
  }

  lemma SharedScoresAgree(a: map<string, NodeScore>, b: map<string, NodeScore>, id: string)
    ensures !Unreported(id, Union(a, b, WorseNode), Union(b, a, WorseNode))
  {
  }

  lemma NothingNewAfterExchange(a: State, b: State)
    ensures NothingNew(Merge(a, b), Merge(b, a))
  {
    hide WorseNode, WorseTransport, FurtherAction;
  }

  lemma NodeClassesAfter(a: map<string, NodeScore>, b: map<string, NodeScore>, id: string)
    requires id in Union(a, b, WorseNode) && id in Union(b, a, WorseNode)
    ensures Union(a, b, WorseNode)[id].classification == Union(b, a, WorseNode)[id].classification <==>
            !(id in a && id in b && NodeTie(a[id], b[id]))
  {
  }

  lemma TransportClassesAfter(a: map<string, TransportScore>, b: map<string, TransportScore>, id: string)
    requires id in Union(a, b, WorseTransport) && id in Union(b, a, WorseTransport)
    ensures Union(a, b, WorseTransport)[id].classification == Union(b, a, WorseTransport)[id].classification <==>
            !(id in a && id in b && TransportTie(a[id], b[id]))
  {
  }

  lemma LifecyclesAfter(a: map<string, ActionState>, b: map<string, ActionState>, id: string)
    requires id in Union(a, b, FurtherAction) && id in Union(b, a, FurtherAction)
    ensures Union(a, b, FurtherAction)[id].lifecycle == Union(b, a, FurtherAction)[id].lifecycle <==>
            !(id in a && id in b && ActionTie(a[id], b[id]))
  {
    hide LifecycleOrder;
  }

  lemma SameClassAfterIff(a: State, b: State)
    ensures SameClass(Merge(a, b), Merge(b, a)) <==>
        && (forall id :: id in a.nodes && id in b.nodes ==> !NodeTie(a.nodes[id], b.nodes[id]))
        && (forall id :: id in a.transports && id in b.transports ==> !TransportTie(a.transports[id], b.transports[id]))
  {
    hide WorseNode, WorseTransport, FurtherAction, NodeTie, TransportTie;
    var x, y := Merge(a, b), Merge(b, a);
    forall id | id in x.nodes && id in y.nodes
      ensures x.nodes[id].classification == y.nodes[id].classification <==>
              !(id in a.nodes && id in b.nodes && NodeTie(a.nodes[id], b.nodes[id]))
    {
      NodeClassesAfter(a.nodes, b.nodes, id);
    }
    forall id | id in x.transports && id in y.transports
      ensures x.transports[id].classification == y.transports[id].classification <==>
              !(id in a.transports && id in b.transports && TransportTie(a.transports[id], b.transports[id]))
    {
      TransportClassesAfter(a.transports, b.transports, id);
    }
  }

  lemma SameSafetyAfterIff(a: State, b: State)
    ensures SameSafety(Merge(a, b), Merge(b, a)) <==>
        forall id :: id in a.actions && id in b.actions ==> !ActionTie(a.actions[id], b.actions[id])
  {
    hide WorseNode, WorseTransport, FurtherAction, ActionTie, Less;
    var x, y := Merge(a, b), Merge(b, a);
    LessTotal(a.policyVersion, b.policyVersion);
    forall id | id in x.actions && id in y.actions
      ensures x.actions[id].lifecycle == y.actions[id].lifecycle <==>
              !(id in a.actions && id in b.actions && ActionTie(a.actions[id], b.actions[id]))
    {
      LifecyclesAfter(a.actions, b.actions, id);
    }
  }

  /** After each side has merged the other, they converge, with nothing to report, exactly when no tie exists. */
  lemma ExchangeConvergesIff(env: Env, a: State, b: State, o: Orders, ds: seq<Divergence>)
    requires Fits(o, Merge(b, a)) && Listed(env, Merge(a, b), Merge(b, a), o, ds)
    ensures AllMinor(ds) <==> NoTies(a, b)
    ensures ds == [] <==> NoTies(a, b)
    ensures !Panics(o.nodes, Merge(a, b).nodes, Merge(b, a).nodes)
  {
    hide SameClass, SameSafety, AllMinor, Listed, Merge, Panics, Fits;
    NoPanicAfterExchange(a, b, o.nodes);
    NothingNewAfterExchange(a, b);
    VerdictMeans(env, Merge(a, b), Merge(b, a), o, ds);
    SameClassAfterIff(a, b);
    SameSafetyAfterIff(a, b);
  }
}
