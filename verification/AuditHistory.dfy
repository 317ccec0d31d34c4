/** What an accepted audit log commits to: the head hash binds every chained row, and deletions show. */
module AuditHistory {
  import opened AuditChain

  /** Everything the verifier hashes for the chained rows of a list. */
  function Inputs(k: Crypto, rows: seq<AuditRow>): set<string> {
    if rows == [] || Legacy(rows[|rows| - 1]) then {}
    else
      var m := |rows| - 1;
      Inputs(k, rows[..m]) + {Canonical(k, rows[m]), ChainInput(Head(rows[..m]), rows[m].contentHash)}
  }

  /** Two different texts, one hashed for each list, with one hash: a collision that can be read off the lists. */
  ghost predicate Collide(k: Crypto, a: seq<AuditRow>, b: seq<AuditRow>) {
    exists x, y :: x in Inputs(k, a) && y in Inputs(k, b) && x != y && k.hash(x) == k.hash(y)
  }

  lemma CollideWith(k: Crypto, a: seq<AuditRow>, b: seq<AuditRow>, x: string, y: string)
    requires x in Inputs(k, a) && y in Inputs(k, b) && k.hash(x) == k.hash(y)
    ensures x == y || Collide(k, a, b)
  {
  }

  lemma CollideGrows(k: Crypto, a: seq<AuditRow>, b: seq<AuditRow>, a': seq<AuditRow>, b': seq<AuditRow>)
    requires Inputs(k, a) <= Inputs(k, a') && Inputs(k, b) <= Inputs(k, b')
    ensures Collide(k, a, b) ==> Collide(k, a', b')
  {
  }

  lemma HeadIsDigest(k: Crypto, rows: seq<AuditRow>)
    requires WritesDigests(k) && Accepted(k, rows)
    ensures Head(rows) == "" || IsDigest(Head(rows))
  {
    hide Linked, Canonical, IsDigest, WritesDigests;
    if rows != [] {
      var m := |rows| - 1;
      assert RowOk(k, rows, m);
      LinkedWritesDigests(k, Head(rows[..m]), rows[m]);
    }
  }

  /** The part before the last row and the last row of a list whose head is a chained row. */
  lemma LastIsLinked(k: Crypto, rows: seq<AuditRow>) returns (before: seq<AuditRow>, last: AuditRow)
    requires WritesDigests(k) && Accepted(k, rows) && Head(rows) != ""
    ensures rows == before + [last] && before == rows[..|rows| - 1] && Accepted(k, before)
    ensures !Legacy(last) && Linked(k, Head(before), last)
    ensures Head(before) == "" || IsDigest(Head(before))
    ensures Canonical(k, last) in Inputs(k, rows) && ChainInput(Head(before), last.contentHash) in Inputs(k, rows)
    ensures Inputs(k, before) <= Inputs(k, rows)
    ensures Chained(rows) == Chained(before) + [last]
  {
    hide Linked, Canonical, ChainInput, IsDigest, WritesDigests;
    var m := |rows| - 1;
    before, last := rows[..m], rows[m];
    assert RowOk(k, rows, m);
    AcceptedPrefix(k, rows, m);
    HeadIsDigest(k, before);
  }

  lemma ChainInputBinds(p: string, c: string, q: string, d: string)
    requires ChainInput(p, c) == ChainInput(q, d)
    requires IsDigest(c) && IsDigest(d) && (p == "" || IsDigest(p)) && (q == "" || IsDigest(q))
    ensures p == q && c == d
  {
    if p != "" && q != "" {
      assert (p + "\n" + c)[..64] == p && (q + "\n" + d)[..64] == q;
      assert (p + "\n" + c)[65..] == c && (q + "\n" + d)[65..] == d;
    } else {
      assert |ChainInput(p, c)| == (if p == "" then 64 else 129);
      assert |ChainInput(q, d)| == (if q == "" then 64 else 129);
    }
  }

  /** Two linked rows with one chain hash are one row, or two of the texts hashed for them collide. */
  lemma LastRowBinds(k: Crypto, a: seq<AuditRow>, b: seq<AuditRow>, before: seq<AuditRow>, before': seq<AuditRow>,
                     last: AuditRow, last': AuditRow)
    requires WritesDigests(k) && last.chainHash == last'.chainHash
    requires Linked(k, Head(before), last) && Linked(k, Head(before'), last')
    requires (Head(before) == "" || IsDigest(Head(before))) && (Head(before') == "" || IsDigest(Head(before')))
    requires Canonical(k, last) in Inputs(k, a) && ChainInput(Head(before), last.contentHash) in Inputs(k, a)
    requires Canonical(k, last') in Inputs(k, b) && ChainInput(Head(before'), last'.contentHash) in Inputs(k, b)
    ensures (Head(before) == Head(before') && last == last') || Collide(k, a, b)
  {
    hide Canonical, Inputs, Collide;
    CollideWith(k, a, b, ChainInput(Head(before), last.contentHash), ChainInput(Head(before'), last'.contentHash));
    if !Collide(k, a, b) {
      ChainInputBinds(Head(before), last.contentHash, Head(before'), last'.contentHash);
      CollideWith(k, a, b, Canonical(k, last), Canonical(k, last'));
      CanonicalIsInjective(k, last, last');
    }
  }

  lemma NoHeadNoChain(rows: seq<AuditRow>)
    requires Head(rows) == ""
    ensures Chained(rows) == []
  {
  }

  /** Two accepted logs with one head hash hold the same chained rows, or a collision is in hand. */
  lemma {:induction false} HeadBindsHistory(k: Crypto, a: seq<AuditRow>, b: seq<AuditRow>)
    requires WritesDigests(k) && Accepted(k, a) && Accepted(k, b)
    requires Head(a) == Head(b) != ""
    ensures Chained(a) == Chained(b) || Collide(k, a, b)
    decreases |a|
  {
    hide Linked, Inputs, Collide, Accepted;
    var before, last := LastIsLinked(k, a);
    var before', last' := LastIsLinked(k, b);
    LastRowBinds(k, a, b, before, before', last, last');
    if !Collide(k, a, b) {
      if Head(before) == "" {
        NoHeadNoChain(before);
        NoHeadNoChain(before');
      } else {
        HeadBindsHistory(k, before, before');
        CollideGrows(k, before, before', a, b);
      }
    }
  }

  // ------------------------------------------------------------------ deletions

  function Without(rows: seq<AuditRow>, i: nat, j: nat): seq<AuditRow>
    requires i <= j <= |rows|
  {
    rows[..i] + rows[j..]
  }

  lemma HeadAt(rows: seq<AuditRow>, n: nat)
    requires n <= |rows|
    ensures Head(rows[..n]) == if n == 0 then "" else rows[n - 1].chainHash
  {
  }

  /** Joining two parts keeps acceptance when the second part was accepted after the same head. */
  lemma SameHeadSameVerdict(k: Crypto, rows: seq<AuditRow>, i: nat, j: nat)
    requires i <= j <= |rows| && Accepted(k, rows) && Head(rows[..i]) == Head(rows[..j])
    ensures Accepted(k, Without(rows, i, j))
  {
    hide Linked;
    var w := Without(rows, i, j);
    forall n | 0 <= n < |w|
      ensures RowOk(k, w, n)
    {
      if n < i {
        assert w[..n] == rows[..n] && RowOk(k, rows, n);
      } else {
        var m := n + j - i;
        assert RowOk(k, rows, m);
        HeadAt(w, n);
        HeadAt(rows, m);
        HeadAt(rows, i);
        HeadAt(rows, j);
      }
    }
  }

  /** In an accepted list a row after a chained row is chained, so its predecessor hash fixes the head before it. */
  lemma SuccessorFixesHead(k: Crypto, rows: seq<AuditRow>, i: nat, j: nat)
    requires WritesDigests(k)
    requires i < j < |rows| && Accepted(k, rows) && !Legacy(rows[j - 1]) && Accepted(k, Without(rows, i, j))
    ensures Head(rows[..i]) == Head(rows[..j])
  {
    hide Linked;
    var w := Without(rows, i, j);
    assert w[..i] == rows[..i] && w[i] == rows[j];
    HeadAt(rows, j);
    assert RowOk(k, rows, j) && RowOk(k, w, i);
    LinkedNamesPrevious(k, Head(rows[..j]), rows[j]);
    LinkedNamesPrevious(k, Head(rows[..i]), rows[j]);
  }

  lemma LinkedNamesPrevious(k: Crypto, prev: string, r: AuditRow)
    ensures Linked(k, prev, r) ==> r.prevHash == prev
  {
  }

  lemma {:induction false} ChainedGrowsTo(k: Crypto, rows: seq<AuditRow>, i: nat, j: nat)
    requires i < j <= |rows| && Accepted(k, rows) && !Legacy(rows[j - 1])
    ensures |Chained(rows[..i])| < |Chained(rows[..j])|
    decreases j
  {
    assert rows[..j][..j - 1] == rows[..j - 1];
    if i < j - 1 {
      if Legacy(rows[j - 2]) {
        NoChainBefore(k, rows, i, j - 1);
      } else {
        ChainedGrowsTo(k, rows, i, j - 1);
      }
    }
  }

  lemma NoChainBefore(k: Crypto, rows: seq<AuditRow>, i: nat, j: nat)
    requires i < j <= |rows| && Accepted(k, rows) && Legacy(rows[j - 1])
    ensures Head(rows[..i]) == "" && Chained(rows[..i]) == []
    decreases j
  {
    hide Linked;
    assert RowOk(k, rows, j - 1);
    HeadAt(rows, j - 1);
    if i == j - 1 {
      NoHeadNoChain(rows[..i]);
    } else {
      NoChainBefore(k, rows, i, j - 1);
    }
  }

  lemma {:induction false} InputsOfPrefix(k: Crypto, rows: seq<AuditRow>, n: nat)
    requires n <= |rows| && Accepted(k, rows)
    ensures Inputs(k, rows[..n]) <= Inputs(k, rows)
    decreases |rows|
  {
    hide Linked, Canonical, ChainInput;
    var m := |rows| - 1;
    if n <= m {
      AcceptedPrefix(k, rows, m);
      assert rows[..m][..n] == rows[..n];
      InputsOfPrefix(k, rows[..m], n);
      if Legacy(rows[m]) {
        NoChainBefore(k, rows, n, m + 1);
        HeadAt(rows, n);
      }
    } else {
      assert rows[..n] == rows;
    }
  }

  /**
   * Deleting the rows from i up to j is accepted exactly when they reach the end of the log or the row
   * before j was never chained; any other deletion that passes exhibits a collision.
   */
  lemma DeletionAcceptedIff(k: Crypto, rows: seq<AuditRow>, i: nat, j: nat)
    requires WritesDigests(k) && Accepted(k, rows) && i < j <= |rows|
    ensures j == |rows| || Legacy(rows[j - 1]) ==> Accepted(k, Without(rows, i, j))
    ensures Accepted(k, Without(rows, i, j)) ==> j == |rows| || Legacy(rows[j - 1]) || Collide(k, rows, rows)
  {
    hide Linked, Inputs, Collide, Accepted;
    if j == |rows| {
      assert Without(rows, i, j) == rows[..i];
      AcceptedPrefix(k, rows, i);
    } else if Legacy(rows[j - 1]) {
      NoChainBefore(k, rows, i, j);
      HeadAt(rows, j);
      SameHeadSameVerdict(k, rows, i, j);
    } else if Accepted(k, Without(rows, i, j)) {
      SuccessorFixesHead(k, rows, i, j);
      AcceptedPrefix(k, rows, i);
      AcceptedPrefix(k, rows, j);
      HeadAt(rows, j);
      HeadBindsHistory(k, rows[..i], rows[..j]);
      ChainedGrowsTo(k, rows, i, j);
      InputsOfPrefix(k, rows, i);
      InputsOfPrefix(k, rows, j);
      CollideGrows(k, rows[..i], rows[..j], rows, rows);
    }
  }
}
