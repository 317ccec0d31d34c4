/** The keys of a map in increasing order: one listing, however the map is enumerated. */
module KeyOrder {
  import opened Text

  ghost predicate Increasing(keys: seq<string>) {
    forall i, j :: 0 <= i < j < |keys| ==> Less(keys[i], keys[j])
  }

  ghost predicate Covers(keys: seq<string>, all: set<string>) {
    forall k :: k in keys <==> k in all
  }

  ghost predicate First(all: set<string>, k: string) {
    k in all && forall j :: j in all && j != k ==> Less(k, j)
  }

  lemma {:induction false} HasFirst(all: set<string>)
    requires all != {}
    ensures exists k :: First(all, k)
    decreases |all|
  {
    var k :| k in all;
    var others := all - {k};
    if others == {} {
      assert forall j :: j in all ==> j in others || j == k;
      assert First(all, k);
    } else {
      HasFirst(others);
      var m :| First(others, m);
      LessTotal(k, m);
      if Less(m, k) {
        assert First(all, m);
      } else {
        forall j | j in all && j != k
          ensures Less(k, j)
        {
          if j != m {
            LessTransitive(k, m, j);
          }
        }
        assert First(all, k);
      }
    }
  }

  lemma ConsIncreasing(all: set<string>, k: string, keys: seq<string>)
    requires First(all, k) && Increasing(keys) && Covers(keys, all - {k})
    ensures Increasing([k] + keys) && Covers([k] + keys, all)
  {
    forall i, j | 0 <= i < j < |[k] + keys|
      ensures Less(([k] + keys)[i], ([k] + keys)[j])
    {
      assert keys[j - 1] in all - {k};
    }
  }

  /** The keys in increasing order. */
  ghost function SortedKeys(all: set<string>): (keys: seq<string>)
    ensures Increasing(keys) && Covers(keys, all)
    decreases |all|
  {
    if all == {} then []
    else
      HasFirst(all);
      var k :| First(all, k);
      ConsIncreasing(all, k, SortedKeys(all - {k}));
      [k] + SortedKeys(all - {k})
  }

  /** There is one increasing listing of a set. */
  lemma {:induction false} SortedIsUnique(a: seq<string>, b: seq<string>, all: set<string>)
    requires Increasing(a) && Increasing(b) && Covers(a, all) && Covers(b, all)
    ensures a == b
    decreases |a|
  {
    EmptyCovers(a, all);
    EmptyCovers(b, all);
    if all != {} {
      SameFirst(a, b, all);
      TailLists(a, all);
      TailLists(b, all);
      SortedIsUnique(a[1..], b[1..], all - {a[0]});
      assert a == [a[0]] + a[1..] && b == [b[0]] + b[1..];
    }
  }

  lemma EmptyCovers(a: seq<string>, all: set<string>)
    requires Covers(a, all)
    ensures a == [] <==> all == {}
  {
    if a != [] {
      assert a[0] in all;
    } else {
      assert forall k :: k in all ==> k in a;
    }
  }

  lemma SameFirst(a: seq<string>, b: seq<string>, all: set<string>)
    requires Increasing(a) && Increasing(b) && Covers(a, all) && Covers(b, all) && a != [] && b != []
    ensures a[0] == b[0]
  {
    assert b[0] in all && a[0] in all;
    var i :| 0 <= i < |a| && a[i] == b[0];
    var j :| 0 <= j < |b| && b[j] == a[0];
    LessTotal(a[0], b[0]);
  }

  lemma TailLists(a: seq<string>, all: set<string>)
    requires Increasing(a) && Covers(a, all) && a != []
    ensures Increasing(a[1..]) && Covers(a[1..], all - {a[0]})
  {
    forall k
      ensures k in a[1..] <==> k in all - {a[0]}
    {
      LessTotal(a[0], k);
      assert a == [a[0]] + a[1..];
      assert k in a <==> k in all;
    }
  }

  /** `for k := range m` into a slice, in whatever order, and then sort.Strings. */
  method CollectSorted(all: set<string>) returns (keys: seq<string>)
    ensures keys == SortedKeys(all)
  {
    keys := [];
    var left := all;
    while left != {}
      invariant left <= all && Increasing(keys) && Covers(keys, all - left)
      decreases |left|
    {
      var k :| k in left;
      var grown := Insert(keys, k);
      assert Covers(grown, all - (left - {k})) by {
        forall x
          ensures x in grown <==> x in all - (left - {k})
        {
          assert x in keys <==> x in all - left;
        }
      }
      keys := grown;
      left := left - {k};
    }
    assert all - left == all;
    SortedIsUnique(keys, SortedKeys(all), all);
  }

  method Insert(keys: seq<string>, k: string) returns (grown: seq<string>)
    requires Increasing(keys) && k !in keys
    ensures Increasing(grown) && forall x :: x in grown <==> x in keys || x == k
  {
    var n := 0;
    while n < |keys| && Less(keys[n], k)
      invariant 0 <= n <= |keys| && forall i :: 0 <= i < n ==> Less(keys[i], k)
    {
      n := n + 1;
    }
    grown := keys[..n] + [k] + keys[n..];
    InsertedAt(keys, k, n);
  }

  lemma InsertedAt(keys: seq<string>, k: string, n: nat)
    requires Increasing(keys) && k !in keys && n <= |keys| && (forall i :: 0 <= i < n ==> Less(keys[i], k))
    requires n < |keys| ==> !Less(keys[n], k)
    ensures Increasing(keys[..n] + [k] + keys[n..])
    ensures forall x :: x in keys[..n] + [k] + keys[n..] <==> x in keys || x == k
  {
    var grown := keys[..n] + [k] + keys[n..];
    forall i | n <= i < |keys|
      ensures Less(k, keys[i])
    {
      assert keys[n] in keys;
      LessTotal(k, keys[n]);
      if i > n {
        LessTransitive(k, keys[n], keys[i]);
      }
    }
    forall i, j | 0 <= i < j < |grown|
      ensures Less(grown[i], grown[j])
    {
      assert grown[i] == if i < n then keys[i] else if i == n then k else keys[i - 1];
      assert grown[j] == if j < n then keys[j] else if j == n then k else keys[j - 1];
    }
    assert keys == keys[..n] + keys[n..];
  }
}
