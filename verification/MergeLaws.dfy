/** What the merged state holds and what is reported, told without the functions that pick between two entries. */
module MergeLaws {
  import opened Consistency
  import opened Lists
  import opened Text

  // ------------------------------------------------------------------ lifecycles

  /**
   * The course of an action, by the lifecycles that the handlers of internal/kernel/kernel.go:404-457 and 644-670 set. The
   * handlers do not look at the lifecycle they replace.
   */
  predicate Follows(before: string, after: string) {
    || (before == "proposed" && after == "approved")
    || (before == "proposed" && after == "rejected")
    || (before == "approved" && after == "running")
    || (before == "running" && after == "completed")
  }

  predicate Terminal(lifecycle: string) {
    lifecycle == "completed" || lifecycle == "rejected"
  }

  predicate KnownLifecycle(lifecycle: string) {
    lifecycle in ["proposed", "approved", "running", "completed", "rejected"]
  }

  /** A course of one or more events from one lifecycle to the other. */
  ghost predicate Course(path: seq<string>, from: string, to: string) {
    && |path| >= 2 && path[0] == from && path[|path| - 1] == to
    && forall i :: 0 <= i < |path| - 1 ==> Follows(path[i], path[i + 1])
  }

  ghost predicate Reaches(from: string, to: string) {
    exists path :: Course(path, from, to)
  }

  lemma {:induction false} CourseRaisesTheRank(path: seq<string>, from: string, to: string)
    requires Course(path, from, to)
    ensures LifecycleOrder(from) < LifecycleOrder(to)
    decreases |path|
  {
    assert Follows(path[0], path[1]);
    if |path| > 2 {
      CourseRaisesTheRank(path[1..], path[1], to);
    }
  }

  /** The remote lifecycle overtakes the local one: it lies further on, ends the action, or is the one that is known. */
  ghost predicate Overtakes(local: string, remote: string) {
    || Reaches(local, remote)
    || (Terminal(remote) && KnownLifecycle(local) && !Terminal(local))
    || (KnownLifecycle(remote) && !KnownLifecycle(local))
  }

  lemma OvertakesIff(local: string, remote: string)
    ensures Overtakes(local, remote) <==> LifecycleOrder(remote) > LifecycleOrder(local)
  {
    if path :| Course(path, local, remote) {
      CourseRaisesTheRank(path, local, remote);
    }
    if LifecycleOrder(remote) > LifecycleOrder(local) && KnownLifecycle(local) && !Terminal(remote) {
      if local == "proposed" && remote == "running" {
        assert Course(["proposed", "approved", "running"], local, remote);
      } else {
        assert Course([local, remote], local, remote);
      }
    }
  }

  /**
   * Of a shared action the whole remote row is kept when its lifecycle overtakes, and otherwise the whole local one: in
   * particular when the local lifecycle lies further on, when both end the action, and when the remote one is unknown.
   */
  lemma FurtherLifecycleWins(a: State, b: State, id: string)
    requires id in a.actions && id in b.actions
    ensures var l, r := a.actions[id], b.actions[id];
      && Merge(a, b).actions[id] == (if Overtakes(l.lifecycle, r.lifecycle) then r else l)
      && (Reaches(r.lifecycle, l.lifecycle) ==> Merge(a, b).actions[id] == l)
      && (Terminal(l.lifecycle) && Terminal(r.lifecycle) ==> Merge(a, b).actions[id] == l)
      && (!KnownLifecycle(r.lifecycle) ==> Merge(a, b).actions[id] == l)
  {
    hide Overtakes, Reaches;
    OvertakesIff(a.actions[id].lifecycle, b.actions[id].lifecycle);
    OvertakesIff(b.actions[id].lifecycle, a.actions[id].lifecycle);
    assert Reaches(b.actions[id].lifecycle, a.actions[id].lifecycle) ==>
        Overtakes(b.actions[id].lifecycle, a.actions[id].lifecycle) by {
      ReachingOvertakes(b.actions[id].lifecycle, a.actions[id].lifecycle);
    }
  }

  lemma ReachingOvertakes(local: string, remote: string)
    ensures Reaches(local, remote) ==> Overtakes(local, remote)
  {
    hide Reaches;
  }

  // ------------------------------------------------------------------ scores, freezes, policy, clock

  predicate LesserOf(m: real, x: real, y: real) {
    m <= x && m <= y && (m == x || m == y)
  }

  predicate GreaterOf(m: real, x: real, y: real) {
    m >= x && m >= y && (m == x || m == y)
  }

  /** Entries of one side alone are taken over as they are. */
  lemma OneSidedEntriesStay(a: State, b: State)
    ensures var m := Merge(a, b);
      && m.nodes.Keys == a.nodes.Keys + b.nodes.Keys && m.transports.Keys == a.transports.Keys + b.transports.Keys
      && m.actions.Keys == a.actions.Keys + b.actions.Keys && m.freezes.Keys == a.freezes.Keys + b.freezes.Keys
      && m.registry.Keys == a.registry.Keys + b.registry.Keys && m.regions.Keys == a.regions.Keys + b.regions.Keys
      && OneSided(m.nodes, a.nodes, b.nodes) && OneSided(m.transports, a.transports, b.transports)
      && OneSided(m.actions, a.actions, b.actions) && OneSided(m.freezes, a.freezes, b.freezes)
      && OneSided(m.registry, a.registry, b.registry) && OneSided(m.regions, a.regions, b.regions)
  {
  }

  predicate OneSided<K(!new), V(==)>(m: map<K, V>, l: map<K, V>, r: map<K, V>) {
    && (forall k :: k in l && k !in r ==> k in m && m[k] == l[k])
    && forall k :: k in r && k !in l ==> k in m && m[k] == r[k]
  }

  /** Of a shared node a lower remote score takes over with its class and the worse of health and anomaly. */
  lemma LowerScoreDominates(a: State, b: State, id: string)
    requires id in a.nodes && id in b.nodes
    ensures var l, r, m := a.nodes[id], b.nodes[id], Merge(a, b).nodes[id];
      if l.composite <= r.composite then m == l
      else
        && m.composite == r.composite && m.classification == r.classification
        && LesserOf(m.health, l.health, r.health) && GreaterOf(m.anomaly, l.anomaly, r.anomaly)
        && m == NodeScore(l.nodeId, l.transport, m.health, l.trust, l.activity, m.anomaly, r.composite,
                          r.classification, l.updatedAt, l.eventId)
  {
  }

  /** Of a shared transport a lower remote health takes over with its class, if the classes differ. */
  lemma LowerHealthDominates(a: State, b: State, id: string)
    requires id in a.transports && id in b.transports
    ensures var l, r, m := a.transports[id], b.transports[id], Merge(a, b).transports[id];
      if l.classification == r.classification || l.health <= r.health then m == l
      else
        && GreaterOf(m.anomalyRate, l.anomalyRate, r.anomalyRate)
        && m == TransportScore(l.transport, r.health, l.reliability, m.anomalyRate, r.classification, l.updatedAt,
                               l.eventId)
  {
  }

  /**
   * Shared registry and region entries: the later one whole, the local one if neither is; freezes stay as they were.
   */
  lemma LaterEntryWins(a: State, b: State, num: int, region: string, freeze: string)
    ensures num in a.registry && num in b.registry ==>
      Merge(a, b).registry[num] ==
      if a.registry[num].lastSeen < b.registry[num].lastSeen then b.registry[num] else a.registry[num]
    ensures region in a.regions && region in b.regions ==>
      Merge(a, b).regions[region] ==
      if a.regions[region].lastUpdateAt < b.regions[region].lastUpdateAt then b.regions[region] else a.regions[region]
    ensures freeze in a.freezes && freeze in b.freezes ==> Merge(a, b).freezes[freeze] == a.freezes[freeze]
  {
  }

  /** The remote policy version is adopted when it is larger at the first difference or a longer continuation. */
  lemma LargerPolicyWins(a: State, b: State)
    ensures var m := Merge(a, b);
      && m.policyVersion == (if exists n: nat :: PartAt(a.policyVersion, b.policyVersion, n)
                             then b.policyVersion else a.policyVersion)
      && m.lastEventId == a.lastEventId && m.lastSequence == a.lastSequence
      && m.clock >= a.clock && m.clock >= b.clock && (m.clock == a.clock || m.clock == b.clock)
  {
    hide Less, PartAt, Union;
    LessMeans(a.policyVersion, b.policyVersion);
  }

  // ------------------------------------------------------------------ what is reported

  /** What stands in the list because of one element of an enumeration. */
  lemma {:induction false} CollectHas<K, D>(order: seq<K>, of: K -> Option<D>, k: K)
    requires k in order && of(k).Some?
    ensures of(k).value in Collect(order, of)
    decreases |order|
  {
    var n := |order| - 1;
    if order[n] != k {
      assert order == order[..n] + [order[n]];
      CollectHas(order[..n], of, k);
    }
  }

  /** What a list of divergences holds about one entry of the remote state, whatever the resolution of nodes. */
  ghost predicate Tells(ds: seq<Divergence>, f: Finding, resolution: string, at: int) {
    Divergence(f, resolution, at) in ds
  }

  lemma InOthers(env: Env, a: State, b: State, o: Orders, ds: seq<Divergence>)
    requires Fits(o, b) && Listed(env, a, b, o, ds)
    ensures forall d :: d in Collect(o.transports, TransportDivergence(env, a.transports, b.transports)) ==> d in ds
    ensures forall d :: d in Collect(o.actions, ActionDivergence(env, a.actions, b.actions)) ==> d in ds
    ensures forall d :: d in Collect(o.freezes, FreezeDivergence(env, a.freezes, b.freezes)) ==> d in ds
    ensures forall d :: d in PolicyDivergences(env, a.policyVersion, b.policyVersion) ==> d in ds
  {
    hide Collect, TransportDivergence, ActionDivergence, FreezeDivergence, PolicyDivergences, NodeList, Fits;
  }

  /** A new or differing action is reported as critical, with a text that says which row was kept. */
  lemma ActionIsReported(env: Env, a: State, b: State, o: Orders, ds: seq<Divergence>, id: string)
    requires Fits(o, b) && Listed(env, a, b, o, ds) && id in b.actions
    ensures id !in a.actions ==>
      Tells(ds, Finding(Action, id, "missing", b.actions[id].lifecycle, Critical, UnionMerge), "added from remote", env.now)
    ensures id in a.actions && a.actions[id].lifecycle != b.actions[id].lifecycle ==>
      var l, r := a.actions[id], b.actions[id];
      Tells(ds, Finding(Action, id + ".lifecycle", l.lifecycle, r.lifecycle, Critical, LastWriteWins),
            if Overtakes(l.lifecycle, r.lifecycle) then "took more advanced lifecycle from remote"
            else "kept local (more advanced lifecycle)", env.now)
  {
    hide Collect, Overtakes, LifecycleOrder, Listed;
    InOthers(env, a, b, o, ds);
    if id !in a.actions || a.actions[id].lifecycle != b.actions[id].lifecycle {
      CollectHas(o.actions, ActionDivergence(env, a.actions, b.actions), id);
      if id in a.actions {
        OvertakesIff(a.actions[id].lifecycle, b.actions[id].lifecycle);
      }
    }
  }

  lemma HealthIsTakenIff(l: TransportScore, r: TransportScore)
    requires l.classification != r.classification
    ensures WorseTransport(l, r) == l <==> l.health <= r.health
  {
  }

  /** So is a transport, as minor when it is new and as major when the classes differ. */
  lemma TransportIsReported(env: Env, a: State, b: State, o: Orders, ds: seq<Divergence>, id: string)
    requires Fits(o, b) && Listed(env, a, b, o, ds) && id in b.transports
    ensures id !in a.transports ==>
      Tells(ds, Finding(Transport, id, "missing", env.show(b.transports[id].health), Minor, UnionMerge),
            "added from remote", env.now)
    ensures id in a.transports && a.transports[id].classification != b.transports[id].classification ==>
      var l, r := a.transports[id], b.transports[id];
      Tells(ds, Finding(Transport, id + ".classification", l.classification, r.classification, Major, ScoreDominance),
            if r.health < l.health then "took worse score from remote" else "kept local (worse or equal)", env.now)
  {
    hide Collect, Listed;
    InOthers(env, a, b, o, ds);
    if id !in a.transports || a.transports[id].classification != b.transports[id].classification {
      CollectHas(o.transports, TransportDivergence(env, a.transports, b.transports), id);
      if id in a.transports {
        HealthIsTakenIff(a.transports[id], b.transports[id]);
      }
    }
  }

  /** A new freeze and a differing policy version are reported as critical. */
  lemma SafetyIsReported(env: Env, a: State, b: State, o: Orders, ds: seq<Divergence>, id: string)
    requires Fits(o, b) && Listed(env, a, b, o, ds)
    ensures id in b.freezes && id !in a.freezes ==>
      Tells(ds, Finding(Freeze, id, "missing", b.freezes[id].reason, Critical, UnionMerge),
            "added freeze from remote (safety: keep all freezes)", env.now)
    ensures a.policyVersion != b.policyVersion && b.policyVersion != "" ==>
      Tells(ds, Finding(Policy, "policy_version", a.policyVersion, b.policyVersion, Critical, PolicyPrecedence),
            if exists n: nat :: PartAt(a.policyVersion, b.policyVersion, n) then "adopted remote policy version"
            else "kept local policy version", env.now)
  {
    hide Collect, Less, PartAt, Listed;
    InOthers(env, a, b, o, ds);
    LessMeans(a.policyVersion, b.policyVersion);
    if id in b.freezes && id !in a.freezes {
      CollectHas(o.freezes, FreezeDivergence(env, a.freezes, b.freezes), id);
    }
    if a.policyVersion != b.policyVersion && b.policyVersion != "" {
      assert PolicyDivergences(env, a.policyVersion, b.policyVersion)[0] in ds;
    }
  }

  /** Nodes are reported like transports; the text of a node may be overwritten, what was found is not. */
  lemma NodeIsReported(env: Env, a: State, b: State, o: Orders, ds: seq<Divergence>, id: string)
    requires Fits(o, b) && Listed(env, a, b, o, ds) && id in b.nodes
    ensures id !in a.nodes ==>
      Finding(Node, id, "missing", b.nodes[id].classification, Minor, UnionMerge) in Found(ds)
    ensures id in a.nodes && a.nodes[id].classification != b.nodes[id].classification ==>
      Finding(Node, id + ".classification", a.nodes[id].classification, b.nodes[id].classification, Major,
              ScoreDominance) in Found(ds)
  {
    hide Collect;
    var nodes := NodeList(env, o.nodes, a.nodes, b.nodes);
    if id !in a.nodes || a.nodes[id].classification != b.nodes[id].classification {
      CollectHas(o.nodes, NodeFinding(a.nodes, b.nodes), id);
      var f := NodeFinding(a.nodes, b.nodes)(id).value;
      var i :| 0 <= i < |nodes| && Found(nodes)[i] == f;
      assert ds[i] == nodes[i] && Found(ds)[i] == f;
    }
  }

  /** The own text of a reported node says what became of its row. */
  lemma OwnTextMeans(a: State, b: State, id: string)
    requires id in b.nodes
    ensures id !in a.nodes <==> OwnText(id, a.nodes, b.nodes) == "added from remote"
    ensures id in a.nodes && Merge(a, b).nodes[id] != a.nodes[id] <==>
        OwnText(id, a.nodes, b.nodes) == "took worse score from remote"
    ensures id in a.nodes && Merge(a, b).nodes[id] == a.nodes[id] <==>
        OwnText(id, a.nodes, b.nodes) == "kept local (worse or equal)"
  {
    assert "added from remote"[0] != "took worse score from remote"[0];
    assert "kept local (worse or equal)"[0] != "took worse score from remote"[0];
    assert "kept local (worse or equal)"[0] != "added from remote"[0];
  }
}
