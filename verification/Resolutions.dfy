/** The resolution texts of node divergences: which ones are overwritten on behalf of another node. */
module Resolutions {
  import opened Consistency
  import opened Exchange
  import opened Lists

  predicate Reported(id: string, l: map<string, NodeScore>, r: map<string, NodeScore>) {
    id in r && NodeFinding(l, r)(id).Some?
  }

  /** Where the divergence of the p-th remote node stands in the list. */
  function Place(order: seq<string>, l: map<string, NodeScore>, r: map<string, NodeScore>, p: nat): nat
    requires p < |order| && forall id :: id in order ==> id in r
  {
    |Collect(order[..p], NodeFinding(l, r))|
  }

  /** The text the first n turns leave for the p-th remote node, if it is reported. */
  function TextAfter(
    env: Env, order: seq<string>, l: map<string, NodeScore>, r: map<string, NodeScore>, p: nat, n: nat): string
    requires p < n <= |order| && (forall id :: id in order ==> id in r) && Reported(order[p], l, r)
  {
    PlaceIsInList(order, l, r, p, n);
    NodeList(env, order[..n], l, r)[Place(order, l, r, p)].resolution
  }

  predicate Quiet(order: seq<string>, l: map<string, NodeScore>, r: map<string, NodeScore>, p: nat, n: nat)
    requires p < n <= |order|
  {
    forall j :: p < j < n ==> !Reported(order[j], l, r)
  }

  lemma {:induction false} PlaceIsInList(
    order: seq<string>, l: map<string, NodeScore>, r: map<string, NodeScore>, p: nat, n: nat)
    requires p < n <= |order| && (forall id :: id in order ==> id in r) && Reported(order[p], l, r)
    ensures var found := Collect(order[..n], NodeFinding(l, r));
      && Place(order, l, r, p) < |found| && found[Place(order, l, r, p)] == NodeFinding(l, r)(order[p]).value
      && (|found| == Place(order, l, r, p) + 1 <==> Quiet(order, l, r, p, n))
    decreases n
  {
    hide NodeFinding;
    CollectSnoc(order, NodeFinding(l, r), n - 1);
    if p < n - 1 {
      PlaceIsInList(order, l, r, p, n - 1);
      assert order[n - 1] in r;
    }
  }

  lemma OwnTextAtFirst(env: Env, order: seq<string>, l: map<string, NodeScore>, r: map<string, NodeScore>, p: nat)
    requires p < |order| && (forall id :: id in order ==> id in r) && Reported(order[p], l, r)
    ensures TextAfter(env, order, l, r, p, p + 1) == OwnText(order[p], l, r)
  {
    hide NodeFinding, OwnText;
    NodeListSnoc(env, order, l, r, p);
  }

  /** One more turn changes the text of the p-th node only if nothing was reported since and the turn overwrites. */
  lemma OneMoreTurn(env: Env, order: seq<string>, l: map<string, NodeScore>, r: map<string, NodeScore>, p: nat, n: nat)
    requires p < n < |order| && (forall id :: id in order ==> id in r) && Reported(order[p], l, r)
    ensures var text := Overwrite(NodeFinding(l, r)(order[p]).value.key, order[n], l, r);
      TextAfter(env, order, l, r, p, n + 1) ==
      if Quiet(order, l, r, p, n) && !Reported(order[n], l, r) && text.Some? then text.value
      else TextAfter(env, order, l, r, p, n)
  {
    hide NodeFinding, OwnText, Overwrite;
    var before, after := NodeList(env, order[..n], l, r), NodeList(env, order[..n + 1], l, r);
    NodeListSnoc(env, order, l, r, n);
    PlaceIsInList(order, l, r, p, n);
    assert order[n] in r;
    assert before[Place(order, l, r, p)].found == Found(before)[Place(order, l, r, p)];
  }

  /** Another node whose turn may touch the text of a reported one. */
  predicate Touches(id: string, other: string, l: map<string, NodeScore>, r: map<string, NodeScore>) {
    Unreported(other, l, r) || (Unchanged(other, l, r) && id !in l && id == other + ".classification")
  }

  lemma SuffixIsInjective(a: string, b: string)
    ensures a + ".classification" == b + ".classification" <==> a == b
  {
    assert (a + ".classification")[..|a|] == a && (b + ".classification")[..|b|] == b;
  }

  /** Overwriting never writes the node's own text, unless both say that the worse score was taken. */
  lemma OverwriteMeans(id: string, other: string, l: map<string, NodeScore>, r: map<string, NodeScore>)
    requires Reported(id, l, r) && id != other
    ensures var text := Overwrite(NodeFinding(l, r)(id).value.key, other, l, r);
      && (text.Some? <==> Touches(id, other, l, r))
      && (text.Some? ==> (text.value == OwnText(id, l, r) <==> OwnText(id, l, r) == TOOK_WORSE))
  {
    SuffixIsInjective(id, other);
  }

  /** After the p-th remote node and before the next reported one, the q-th touches its text. */
  predicate TouchedAt(order: seq<string>, l: map<string, NodeScore>, r: map<string, NodeScore>, p: nat, q: nat)
    requires p < q < |order|
  {
    Quiet(order, l, r, p, q + 1) && Touches(order[p], order[q], l, r)
  }

  lemma TouchedAtTurn(order: seq<string>, l: map<string, NodeScore>, r: map<string, NodeScore>, p: nat, q: nat)
    requires p < q < |order|
    ensures TouchedAt(order, l, r, p, q) <==>
      Quiet(order, l, r, p, q) && !Reported(order[q], l, r) && Touches(order[p], order[q], l, r)
  {
    hide Touches, Reported;
  }

  lemma UnreportedIsQuiet(id: string, other: string, l: map<string, NodeScore>, r: map<string, NodeScore>)
    requires Touches(id, other, l, r)
    ensures !Reported(other, l, r)
  {
  }

  lemma {:induction false} WrongAfterIff(
    env: Env, order: seq<string>, l: map<string, NodeScore>, r: map<string, NodeScore>, p: nat, n: nat)
    requires p < n <= |order| && Enumerates(order, r.Keys) && (forall id :: id in order ==> id in r)
    requires Reported(order[p], l, r)
    ensures TextAfter(env, order, l, r, p, n) != OwnText(order[p], l, r) <==>
        OwnText(order[p], l, r) != TOOK_WORSE && exists q :: p < q < n && TouchedAt(order, l, r, p, q)
    decreases n
  {
    hide NodeFinding, OwnText, Overwrite, TextAfter, Touches, TouchedAt, Quiet, Reported;
    if n == p + 1 {
      OwnTextAtFirst(env, order, l, r, p);
    } else {
      var q := n - 1;
      WrongAfterIff(env, order, l, r, p, q);
      OneMoreTurn(env, order, l, r, p, q);
      OverwriteMeans(order[p], order[q], l, r);
      if Touches(order[p], order[q], l, r) {
        UnreportedIsQuiet(order[p], order[q], l, r);
      }
      TouchedAtTurn(order, l, r, p, q);
    }
  }

  /** The text that a finished loop over a map enumerated in this order leaves for the p-th node. */
  function TextOf(env: Env, order: seq<string>, l: map<string, NodeScore>, r: map<string, NodeScore>, p: nat): string
    requires p < |order| && (forall id :: id in order ==> id in r) && Reported(order[p], l, r)
  {
    TextAfter(env, order, l, r, p, |order|)
  }

  /** It is the resolution in the list the merge returns. */
  lemma TextIsListed(env: Env, order: seq<string>, l: map<string, NodeScore>, r: map<string, NodeScore>, p: nat)
    requires p < |order| && (forall id :: id in order ==> id in r) && Reported(order[p], l, r)
    ensures var ds, i := NodeList(env, order, l, r), Place(order, l, r, p);
      i < |ds| && ds[i] == Divergence(NodeFinding(l, r)(order[p]).value, TextOf(env, order, l, r, p), env.now)
  {
    hide NodeFinding;
    assert order[..|order|] == order;
    PlaceIsInList(order, l, r, p, |order|);
    var ds, i := NodeList(env, order, l, r), Place(order, l, r, p);
    assert Found(ds)[i] == ds[i].found;
    AllAtOneTime(env, order, l, r);
  }

  lemma {:induction false} AllAtOneTime(
    env: Env, order: seq<string>, l: map<string, NodeScore>, r: map<string, NodeScore>)
    requires forall id :: id in order ==> id in r
    ensures forall i :: 0 <= i < |NodeList(env, order, l, r)| ==> NodeList(env, order, l, r)[i].at == env.now
  {
    hide NodeFinding, OwnText, Overwrite;
    if order != [] {
      AllAtOneTime(env, order[..|order| - 1], l, r);
    }
  }

  /**
   * For a given order: the text reported for a node is not its own exactly when its own is not "took worse score from
   * remote" and, before the next reported node, a node comes that is worse without a change of class or whose key the
   * test of line 218 mistakes for it.
   */
  lemma WrongTextIff(env: Env, order: seq<string>, l: map<string, NodeScore>, r: map<string, NodeScore>, p: nat)
    requires Enumerates(order, r.Keys) && (forall id :: id in order ==> id in r) && p < |order| && Reported(order[p], l, r)
    ensures TextOf(env, order, l, r, p) != OwnText(order[p], l, r) <==>
        OwnText(order[p], l, r) != TOOK_WORSE && exists q :: p < q < |order| && TouchedAt(order, l, r, p, q)
  {
    WrongAfterIff(env, order, l, r, p, |order|);
  }

  // ------------------------------------------------------------------ over all orders

  /** The loop does not panic in this order and leaves a wrong text for its p-th node. */
  ghost predicate Mislabels(
    env: Env, order: seq<string>, l: map<string, NodeScore>, r: map<string, NodeScore>, p: nat) {
    && Enumerates(order, r.Keys) && (forall id :: id in order ==> id in r) && !Panics(order, l, r)
    && p < |order| && Reported(order[p], l, r) && TextOf(env, order, l, r, p) != OwnText(order[p], l, r)
  }

  ghost predicate CanMislabel(id: string, other: string, l: map<string, NodeScore>, r: map<string, NodeScore>) {
    other in r && Reported(id, l, r) && OwnText(id, l, r) != TOOK_WORSE && Touches(id, other, l, r)
  }

  lemma EnumerateFromTwo(keys: set<string>, first: string, second: string) returns (order: seq<string>)
    requires first in keys && second in keys && first != second
    ensures Enumerates(order, keys) && |order| >= 2 && order[0] == first && order[1] == second
  {
    var rest := EnumerateFrom(keys - {first}, second);
    order := [first] + rest;
  }

  lemma ReportedFirstDoesNotPanic(order: seq<string>, l: map<string, NodeScore>, r: map<string, NodeScore>)
    requires order != [] && Reported(order[0], l, r)
    ensures !Panics(order, l, r)
  {
    if Panics(order, l, r) {
      PanicMeansSilence(order, l, r);
    }
  }

  lemma MislabelledFirst(env: Env, order: seq<string>, l: map<string, NodeScore>, r: map<string, NodeScore>)
    requires Enumerates(order, r.Keys) && |order| >= 2 && CanMislabel(order[0], order[1], l, r)
    ensures Mislabels(env, order, l, r, 0)
  {
    hide NodeFinding, OwnText, Touches, TextOf;
    ReportedFirstDoesNotPanic(order, l, r);
    UnreportedIsQuiet(order[0], order[1], l, r);
    assert forall id :: id in order ==> id in r;
    WrongTextIff(env, order, l, r, 0);
    assert TouchedAt(order, l, r, 0, 1);
  }

  /**
   * Over all orders: some enumeration finishes and leaves a wrong text exactly when there is a reported node whose own
   * text is not "took worse score from remote" and a node that can touch it.
   */
  lemma SomeOrderMislabelsIff(env: Env, l: map<string, NodeScore>, r: map<string, NodeScore>)
    ensures (exists order, p: nat :: Mislabels(env, order, l, r, p)) <==> exists id, other :: CanMislabel(id, other, l, r)
  {
    hide NodeFinding, OwnText, TextOf;
    if order, p: nat :| Mislabels(env, order, l, r, p) {
      WrongTextIff(env, order, l, r, p);
      var q :| p < q < |order| && TouchedAt(order, l, r, p, q);
      assert CanMislabel(order[p], order[q], l, r);
    }
    if id, other :| CanMislabel(id, other, l, r) {
      UnreportedIsQuiet(id, other, l, r);
      var order := EnumerateFromTwo(r.Keys, id, other);
      MislabelledFirst(env, order, l, r);
    }
  }

  // ------------------------------------------------------------------ two inputs

  function Scored(composite: real, classification: string): NodeScore {
    NodeScore("", "", 0.0, 0.0, 0.0, 0.0, composite, classification, 0, "")
  }

  /** The new node "a" is reported as if a worse score had been taken for it; that was node "b". */
  lemma WorseScoreOverwrites(env: Env)
    ensures var l := map["b" := Scored(0.9, "healthy")];
      var r := map["a" := Scored(0.8, "healthy"), "b" := Scored(0.5, "healthy")];
      Mislabels(env, ["a", "b"], l, r, 0)
  {
    var l := map["b" := Scored(0.9, "healthy")];
    var r := map["a" := Scored(0.8, "healthy"), "b" := Scored(0.5, "healthy")];
    MislabelledFirst(env, ["a", "b"], l, r);
  }

  /** A new node named "x.classification" is reported as kept when node "x", in which nothing differs, comes next. */
  lemma KeyCollisionOverwrites(env: Env)
    ensures var l := map["x" := Scored(0.5, "healthy")];
      var r := map["x.classification" := Scored(0.8, "healthy"), "x" := Scored(0.5, "healthy")];
      Mislabels(env, ["x.classification", "x"], l, r, 0)
  {
    var l := map["x" := Scored(0.5, "healthy")];
    var r := map["x.classification" := Scored(0.8, "healthy"), "x" := Scored(0.5, "healthy")];
    assert "x" + ".classification" == "x.classification";
    MislabelledFirst(env, ["x.classification", "x"], l, r);
  }
}
