/** Repeated pulls of one peer against a log that does not change: what is delivered, and when the puller stalls. */
module CatchUp {
  import opened Lists
  import opened EventLog
  import opened Federation

  /** Rows are all above the cursor, ascending, and nothing of the log above the cursor is missing. */
  lemma AfterIsSorted(rows: seq<Row>, c: nat)
    requires TableInv(rows)
    ensures TableInv(RowsAfter(rows, c))
    ensures forall r :: r in RowsAfter(rows, c) <==> r in rows && c < r.num
  {
    SelectKeepsTable(rows, Admits(AfterFilter(c, 0)));
  }

  /**
   * A non-empty answer contains every in-scope row of the log between the cursor and its own last row,
   * and nothing else. This is what makes the last number a safe cursor.
   */
  lemma AnswerIsComplete(rows: seq<Row>, batch: nat, req: SyncRequest)
    requires TableInv(rows)
    requires Served(rows, batch, req) != []
    ensures var s := Served(rows, batch, req);
            var last := s[|s| - 1].num;
            && TableInv(s)
            && req.afterSequence < last
            && (forall r :: r in s <==> r in rows && RowInScope(req.scope)(r) && req.afterSequence < r.num <= last)
  {
    hide RowInScope, Admits, Select;
    var all, w, s := RowsAfter(rows, req.afterSequence), Window(rows, batch, req), Served(rows, batch, req);
    AfterIsSorted(rows, req.afterSequence);
    assert w <= all;
    assert TableInv(w);
    SelectKeepsTable(w, RowInScope(req.scope));
    var top := s[|s| - 1];
    assert top in s;
    var t :| 0 <= t < |w| && w[t] == top;
    forall r | r in rows && RowInScope(req.scope)(r) && req.afterSequence < r.num <= top.num
      ensures r in s
    {
      var i :| 0 <= i < |all| && all[i] == r;
      assert all[t] == w[t];
      assert i <= t;
      assert w[i] == r;
    }
    forall r | r in s
      ensures r in rows && req.afterSequence < r.num <= top.num
    {
      assert r in w && r in all;
      var j :| 0 <= j < |s| && s[j] == r;
    }
  }

  // ------------------------------------------------------------------ catching up

  function Request(batch: nat, scope: SyncScope, c: nat): SyncRequest {
    SyncRequest("", c, batch, scope)
  }

  /** Pulls until an answer is empty: the final cursor, and all rows delivered on the way. */
  ghost function CatchUp(rows: seq<Row>, batch: nat, scope: SyncScope, c: nat): (nat, seq<Row>)
    requires TableInv(rows)
    decreases |RowsAfter(rows, c)|
  {
    var s := Served(rows, batch, Request(batch, scope, c));
    if s == [] then (c, [])
    else
      AnswerIsComplete(rows, batch, Request(batch, scope, c));
      var c1 := s[|s| - 1].num;
      FewerRemain(rows, c, c1);
      var (end, more) := CatchUp(rows, batch, scope, c1);
      (end, s + more)
  }

  lemma FewerRemain(rows: seq<Row>, c: nat, c1: nat)
    requires TableInv(rows) && c < c1 && exists r :: r in rows && r.num == c1
    ensures |RowsAfter(rows, c1)| < |RowsAfter(rows, c)|
  {
    var p := SuffixAfter(rows, c, c1);
    AfterIsSorted(rows, c);
    var r :| r in rows && r.num == c1;
    var k :| 0 <= k < |RowsAfter(rows, c)| && RowsAfter(rows, c)[k] == r;
    assert k < p;
  }

  /** A higher cursor sees a suffix of what a lower one sees. */
  lemma SuffixAfter(rows: seq<Row>, c: nat, g: nat) returns (p: nat)
    requires TableInv(rows) && c <= g
    ensures p <= |RowsAfter(rows, c)|
    ensures RowsAfter(rows, g) == RowsAfter(rows, c)[p..]
    ensures forall k :: 0 <= k < p ==> RowsAfter(rows, c)[k].num <= g
    ensures forall k :: p <= k < |RowsAfter(rows, c)| ==> g < RowsAfter(rows, c)[k].num
  {
    AfterIsSorted(rows, c);
    p := CutAbove(RowsAfter(rows, c), g);
    SelectTwice(rows, Admits(AfterFilter(c, 0)), Admits(AfterFilter(g, 0)));
  }

  lemma AdmittedAfter(g: nat, r: Row)
    ensures Admits(AfterFilter(g, 0))(r) <==> g < r.num
  {
  }

  lemma CutAbove(all: seq<Row>, g: nat) returns (p: nat)
    requires TableInv(all)
    ensures p <= |all|
    ensures RowsAfter(all, g) == all[p..]
    ensures forall k :: 0 <= k < p ==> all[k].num <= g
    ensures forall k :: p <= k < |all| ==> g < all[k].num
  {
    hide RowsAfter;
    p := 0;
    while p < |all| && all[p].num <= g
      invariant p <= |all|
      invariant forall k :: 0 <= k < p ==> all[k].num <= g
    {
      p := p + 1;
    }
    SelectedFrom(all, p, g);
  }

  lemma SelectedFrom(all: seq<Row>, p: nat, g: nat)
    requires p <= |all|
    requires forall k :: 0 <= k < p ==> all[k].num <= g
    requires forall k :: p <= k < |all| ==> g < all[k].num
    ensures RowsAfter(all, g) == all[p..]
  {
    hide Admits, AfterFilter, Select;
    var above := Admits(AfterFilter(g, 0));
    forall r
      ensures above(r) <==> g < r.num
    {
      AdmittedAfter(g, r);
    }
    assert all == all[..p] + all[p..];
    SelectAppend(all[..p], all[p..], above);
    SelectNone(all[..p], above);
    SelectAll(all[p..], above);
  }

  /** Catching up delivers exactly the in-scope rows up to the final cursor, and ends where an answer is empty. */
  lemma {:induction false} DeliversUpToTheCursor(rows: seq<Row>, batch: nat, scope: SyncScope, c: nat)
    requires TableInv(rows)
    ensures var (end, got) := CatchUp(rows, batch, scope, c);
            && c <= end
            && (forall r :: r in got <==> r in rows && RowInScope(scope)(r) && c < r.num <= end)
            && Served(rows, batch, Request(batch, scope, end)) == []
    decreases |RowsAfter(rows, c)|
  {
    var s := Served(rows, batch, Request(batch, scope, c));
    if s != [] {
      AnswerIsComplete(rows, batch, Request(batch, scope, c));
      var c1 := s[|s| - 1].num;
      FewerRemain(rows, c, c1);
      DeliversUpToTheCursor(rows, batch, scope, c1);
    }
  }

  // ------------------------------------------------------------------ the stall

  /** From cursor g the answer is empty although an in-scope row lies ahead: a whole batch is out of scope. */
  ghost predicate Stuck(rows: seq<Row>, batch: nat, scope: SyncScope, g: nat) {
    && Served(rows, batch, Request(batch, scope, g)) == []
    && exists r :: r in rows && RowInScope(scope)(r) && g < r.num
  }

  /** What an empty answer means: the next `batch` rows, or all that remain, are out of scope. */
  lemma EmptyAnswerIff(rows: seq<Row>, batch: nat, scope: SyncScope, g: nat)
    ensures Served(rows, batch, Request(batch, scope, g)) == []
            <==> forall r :: r in Take(RowsAfter(rows, g), if batch < LIMIT_CAP then batch else LIMIT_CAP) ==> !RowInScope(scope)(r)
  {
    var w := Window(rows, batch, Request(batch, scope, g));
    if forall r :: r in w ==> !RowInScope(scope)(r) {
      SelectNone(w, RowInScope(scope));
    } else {
      var r :| r in w && RowInScope(scope)(r);
      assert r in Select(w, RowInScope(scope));
    }
  }

  /** A row answered from a low cursor is also answered from any higher cursor that is still below it. */
  lemma AnsweredFromHigher(rows: seq<Row>, batch: nat, scope: SyncScope, c: nat, g: nat, r: Row)
    requires TableInv(rows) && c <= g < r.num
    requires r in Served(rows, batch, Request(batch, scope, c))
    ensures r in Served(rows, batch, Request(batch, scope, g))
  {
    var p := SuffixAfter(rows, c, g);
    var w, w' := Window(rows, batch, Request(batch, scope, c)), Window(rows, batch, Request(batch, scope, g));
    var m :| 0 <= m < |w| && w[m] == r;
    assert RowsAfter(rows, c)[m] == r;
    assert RowsAfter(rows, g)[m - p] == r;
    assert w'[m - p] == r;
  }

  /** An answer never jumps over a cursor position at which the puller would be stuck. */
  lemma CannotPassAStall(rows: seq<Row>, batch: nat, scope: SyncScope, c: nat, g: nat)
    requires TableInv(rows) && c <= g
    requires Served(rows, batch, Request(batch, scope, g)) == []
    ensures forall r :: r in Served(rows, batch, Request(batch, scope, c)) ==> r.num <= g
  {
    forall r | r in Served(rows, batch, Request(batch, scope, c))
      ensures r.num <= g
    {
      if g < r.num {
        AnsweredFromHigher(rows, batch, scope, c, g, r);
      }
    }
  }

  lemma {:induction false} StaysBehind(rows: seq<Row>, batch: nat, scope: SyncScope, c: nat, g: nat)
    requires TableInv(rows) && c <= g
    requires Served(rows, batch, Request(batch, scope, g)) == []
    ensures CatchUp(rows, batch, scope, c).0 <= g
    decreases |RowsAfter(rows, c)|
  {
    var s := Served(rows, batch, Request(batch, scope, c));
    if s != [] {
      CannotPassAStall(rows, batch, scope, c, g);
      AnswerIsComplete(rows, batch, Request(batch, scope, c));
      var top := s[|s| - 1];
      assert top in s;
      FewerRemain(rows, c, top.num);
      StaysBehind(rows, batch, scope, top.num, g);
    }
  }

  /**
   * Catching up from c delivers every in-scope row above c if and only if the log holds, at or above c, no
   * position from which a whole batch is out of scope while an in-scope row still lies ahead.
   */
  lemma CatchUpCompleteIffNoStall(rows: seq<Row>, batch: nat, scope: SyncScope, c: nat)
    requires TableInv(rows)
    ensures (forall r :: r in rows && RowInScope(scope)(r) && c < r.num ==> r in CatchUp(rows, batch, scope, c).1)
            <==> !(exists g :: c <= g && Stuck(rows, batch, scope, g))
  {
    DeliversUpToTheCursor(rows, batch, scope, c);
    var end := CatchUp(rows, batch, scope, c).0;
    if g :| c <= g && Stuck(rows, batch, scope, g) {
      StaysBehind(rows, batch, scope, c, g);
      var r :| r in rows && RowInScope(scope)(r) && g < r.num;
      assert r !in CatchUp(rows, batch, scope, c).1;
    }
    if r :| r in rows && RowInScope(scope)(r) && c < r.num && r !in CatchUp(rows, batch, scope, c).1 {
      assert c <= end && Stuck(rows, batch, scope, end);
    }
  }

  lemma OpenScopeAnswers(rows: seq<Row>, batch: nat, scope: SyncScope, g: nat, r: Row)
    requires TableInv(rows) && batch >= 1 && r in rows && g < r.num
    requires scope.eventTypes == scope.regions == scope.transports == scope.excludeTypes == []
    ensures Served(rows, batch, Request(batch, scope, g)) != []
  {
    AfterIsSorted(rows, g);
    assert r in RowsAfter(rows, g);
    var w := Window(rows, batch, Request(batch, scope, g));
    assert w[0] in w && RowInScope(scope)(w[0]);
    EmptyAnswerIff(rows, batch, scope, g);
  }

  /** With a scope that excludes nothing there is no such position, so everything above the cursor arrives. */
  lemma OpenScopeDeliversEverything(rows: seq<Row>, batch: nat, scope: SyncScope, c: nat)
    requires TableInv(rows) && batch >= 1
    requires scope.eventTypes == scope.regions == scope.transports == scope.excludeTypes == []
    ensures forall r :: r in rows && c < r.num ==> r in CatchUp(rows, batch, scope, c).1
  {
    DeliversUpToTheCursor(rows, batch, scope, c);
    var end := CatchUp(rows, batch, scope, c).0;
    forall r | r in rows && c < r.num
      ensures r in CatchUp(rows, batch, scope, c).1
    {
      if end < r.num {
        OpenScopeAnswers(rows, batch, scope, end, r);
      }
      assert RowInScope(scope)(r);
    }
  }
}
