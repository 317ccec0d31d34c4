/** Optional values, and the selection of rows out of a table kept as a sequence. */
module Lists {

  datatype Option<+T> = None | Some(value: T) {
    function GetOr(default: T): T {
      if Some? then value else default
    }
  }

  /** The elements of `xs` that satisfy `p`, in their order. */
  function Select<T(!new)>(xs: seq<T>, p: T -> bool): (r: seq<T>)
    ensures |r| <= |xs|
    ensures forall x :: x in r <==> x in xs && p(x)
  {
    if xs == [] then []
    else
      assert xs == [xs[0]] + xs[1..];
      (if p(xs[0]) then [xs[0]] else []) + Select(xs[1..], p)
  }

  /** At most the first `n` elements. */
  function Take<T>(xs: seq<T>, n: nat): seq<T> {
    if |xs| <= n then xs else xs[..n]
  }

  function OneOrNone<T>(x: Option<T>): seq<T> {
    if x.Some? then [x.value] else []
  }

  /** A list that grows only when asked. */
  function With<T>(xs: seq<T>, asked: bool, x: T): seq<T> {
    if asked then xs + [x] else xs
  }

  lemma SelectAppend<T(!new)>(xs: seq<T>, ys: seq<T>, p: T -> bool)
    ensures Select(xs + ys, p) == Select(xs, p) + Select(ys, p)
  {
    if xs == [] {
      assert xs + ys == ys;
    } else {
      assert (xs + ys)[1..] == xs[1..] + ys;
      SelectAppend(xs[1..], ys, p);
    }
  }

  lemma SelectSnoc<T(!new)>(xs: seq<T>, i: nat, p: T -> bool)
    requires i < |xs|
    ensures Select(xs[..i + 1], p) == Select(xs[..i], p) + if p(xs[i]) then [xs[i]] else []
  {
    assert xs[..i + 1] == xs[..i] + [xs[i]];
    SelectAppend(xs[..i], [xs[i]], p);
  }

  lemma SelectAll<T(!new)>(xs: seq<T>, p: T -> bool)
    requires forall x :: x in xs ==> p(x)
    ensures Select(xs, p) == xs
  {
    if xs != [] {
      SelectAll(xs[1..], p);
    }
  }

  lemma SelectNone<T(!new)>(xs: seq<T>, p: T -> bool)
    requires forall x :: x in xs ==> !p(x)
    ensures Select(xs, p) == []
  {
    if xs != [] {
      SelectNone(xs[1..], p);
    }
  }

  lemma SelectKeepsSuffix<T(!new)>(xs: seq<T>, n: nat, p: T -> bool)
    requires n <= |xs| && forall i :: n <= i < |xs| ==> p(xs[i])
    ensures |Select(xs, p)| >= |xs| - n
  {
    assert xs == xs[..n] + xs[n..];
    SelectAppend(xs[..n], xs[n..], p);
    SelectAll(xs[n..], p);
  }

  /** Selecting twice with predicates of which the first drops nothing the second wants. */
  lemma SelectTwice<T(!new)>(xs: seq<T>, p: T -> bool, q: T -> bool)
    requires forall x :: x in xs && q(x) ==> p(x)
    ensures Select(Select(xs, p), q) == Select(xs, q)
  {
    if xs != [] {
      SelectTwice(xs[1..], p, q);
      SelectAppend(if p(xs[0]) then [xs[0]] else [], Select(xs[1..], p), q);
    }
  }

  /** Selecting by a conjunction is selecting twice. */
  lemma SelectBoth<T(!new)>(xs: seq<T>, p: T -> bool, q: T -> bool, both: T -> bool)
    requires forall x :: x in xs ==> (both(x) <==> p(x) && q(x))
    ensures Select(xs, both) == Select(Select(xs, p), q)
  {
    if xs != [] {
      SelectBoth(xs[1..], p, q, both);
      SelectAppend(if p(xs[0]) then [xs[0]] else [], Select(xs[1..], p), q);
    }
  }

  /** Two predicates that agree on the list select the same elements. */
  lemma SelectSame<T(!new)>(xs: seq<T>, p: T -> bool, q: T -> bool)
    requires forall x :: x in xs ==> p(x) == q(x)
    ensures Select(xs, p) == Select(xs, q)
  {
    if xs != [] {
      SelectSame(xs[1..], p, q);
    }
  }

  lemma SelectCons<T(!new)>(xs: seq<T>, p: T -> bool)
    requires xs != []
    ensures Select(xs, p) == (if p(xs[0]) then [xs[0]] else []) + Select(xs[1..], p)
  {
  }

  /** Where the selected elements stand: selection keeps the order of the list. */
  lemma SelectIndices<T(!new)>(xs: seq<T>, p: T -> bool) returns (at: seq<nat>)
    ensures |at| == |Select(xs, p)|
    ensures forall i :: 0 <= i < |at| ==> at[i] < |xs| && xs[at[i]] == Select(xs, p)[i]
    ensures forall i, j :: 0 <= i < j < |at| ==> at[i] < at[j]
  {
    if xs == [] {
      at := [];
    } else {
      hide Select;
      SelectCons(xs, p);
      var rest := SelectIndices(xs[1..], p);
      if p(xs[0]) {
        at := [0] + Shifted(rest);
        assert forall i :: 0 < i < |at| ==> at[i] == rest[i - 1] + 1;
      } else {
        at := Shifted(rest);
      }
    }
  }

  function Shifted(at: seq<nat>): (r: seq<nat>)
    ensures |r| == |at| && forall i :: 0 <= i < |at| ==> r[i] == at[i] + 1
  {
    seq(|at|, i requires 0 <= i < |at| => at[i] + 1)
  }
}
