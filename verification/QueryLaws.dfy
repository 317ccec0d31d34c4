/** What each part of a query means for its answer, without the WHERE clause. */
module QueryLaws {
  import opened Lists
  import opened EventLog

  /** The rows that match, before the limit. */
  function Matches(rows: seq<Row>, f: QueryFilter): seq<Row> {
    Select(rows, Admits(f))
  }

  const NO_FILTER := QueryFilter(0, 0, [], "", "", "", None, None, 0)

  /** A filter with nothing set matches the whole table. */
  lemma NothingAskedMatchesAll(rows: seq<Row>)
    requires TableInv(rows)
    ensures Matches(rows, NO_FILTER) == rows
  {
    SelectAll(rows, Admits(NO_FILTER));
  }

  lemma Cuts(rows: seq<Row>, f: QueryFilter, g: QueryFilter, keeps: Row -> bool)
    requires forall r :: Admits(g)(r) <==> Admits(f)(r) && keeps(r)
    ensures Matches(rows, g) == Select(Matches(rows, f), keeps)
  {
    hide Admits;
    SelectBoth(rows, Admits(f), keeps, Admits(g));
  }

  /** Setting one more number or time cuts the answer to the rows beyond it, before it, or on its side of the time. */
  lemma BoundsCut(rows: seq<Row>, f: QueryFilter, n: nat, t: int)
    ensures f.afterSequence == 0 && TableInv(rows) ==>
      Matches(rows, f.(afterSequence := n)) == Select(Matches(rows, f), (r: Row) => r.num > n)
    ensures f.beforeSequence == 0 && n > 0 ==>
      Matches(rows, f.(beforeSequence := n)) == Select(Matches(rows, f), (r: Row) => r.num < n)
    ensures f.since.None? ==>
      Matches(rows, f.(since := Some(t))) == Select(Matches(rows, f), (r: Row) => r.event.timestamp >= t)
    ensures f.until.None? ==>
      Matches(rows, f.(until := Some(t))) == Select(Matches(rows, f), (r: Row) => r.event.timestamp <= t)
  {
    hide Select, Matches, TableInv;
    if f.afterSequence == 0 && TableInv(rows) {
      AfterCuts(rows, f, n);
    }
    if f.beforeSequence == 0 && n > 0 {
      Cuts(rows, f, f.(beforeSequence := n), (r: Row) => r.num < n);
    }
    if f.since.None? {
      Cuts(rows, f, f.(since := Some(t)), (r: Row) => r.event.timestamp >= t);
    }
    if f.until.None? {
      Cuts(rows, f, f.(until := Some(t)), (r: Row) => r.event.timestamp <= t);
    }
  }

  lemma AfterCuts(rows: seq<Row>, f: QueryFilter, n: nat)
    requires f.afterSequence == 0 && TableInv(rows)
    ensures Matches(rows, f.(afterSequence := n)) == Select(Matches(rows, f), (r: Row) => r.num > n)
  {
    SelectBoth(rows, Admits(f), (r: Row) => r.num > n, Admits(f.(afterSequence := n)));
  }

  /** Setting one more name cuts the answer to the rows that carry it. */
  lemma NamesCut(rows: seq<Row>, f: QueryFilter, name: string, kinds: seq<string>)
    requires name != "" && kinds != []
    ensures f.eventTypes == [] ==>
      Matches(rows, f.(eventTypes := kinds)) == Select(Matches(rows, f), (r: Row) => r.event.kind in kinds)
    ensures f.sourceNode == "" ==>
      Matches(rows, f.(sourceNode := name)) == Select(Matches(rows, f), (r: Row) => r.event.sourceNode == name)
    ensures f.sourceRegion == "" ==>
      Matches(rows, f.(sourceRegion := name)) == Select(Matches(rows, f), (r: Row) => r.event.sourceRegion == name)
    ensures f.subject == "" ==>
      Matches(rows, f.(subject := name)) == Select(Matches(rows, f), (r: Row) => r.event.subject == name)
  {
    hide Select, Matches;
    if f.eventTypes == [] {
      Cuts(rows, f, f.(eventTypes := kinds), (r: Row) => r.event.kind in kinds);
    }
    if f.sourceNode == "" {
      Cuts(rows, f, f.(sourceNode := name), (r: Row) => r.event.sourceNode == name);
    }
    if f.sourceRegion == "" {
      Cuts(rows, f, f.(sourceRegion := name), (r: Row) => r.event.sourceRegion == name);
    }
    if f.subject == "" {
      Cuts(rows, f, f.(subject := name), (r: Row) => r.event.subject == name);
    }
  }

  /** The answer is the first matches: a thousand when no limit is set, never more than a hundred thousand. */
  lemma LimitMeans(rows: seq<Row>, f: QueryFilter)
    ensures var answer, all := QueryResult(rows, f), Matches(rows, f);
      && answer <= all && |answer| <= 100000
      && (f.limit <= 0 ==> |answer| <= 1000) && (f.limit > 0 ==> |answer| <= f.limit)
      && (|answer| < |all| ==> |answer| == if f.limit <= 0 then 1000 else if f.limit < 100000 then f.limit else 100000)
  {
  }
}
