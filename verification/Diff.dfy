/** Configuration diff (internal/config/diff.go): the entries of diffMaps, as a patch from one tree to the other. */
module Diff {
  import opened Json
  import JsonParser

  type Fields = map<string, Value>

  datatype Change = Added(after: Value) | Removed(before: Value) | Changed(before: Value, after: Value)

  /** An entry carries the dotted path that is shown, and here also the keys it was built from. */
  datatype Entry = Entry(path: string, keys: seq<string>, change: Change)

  function Dot(prefix: string, key: string): string {
    if prefix == "" then key else prefix + "." + key
  }

  function Dotted(keys: seq<string>): string {
    if keys == [] then "" else Dot(Dotted(keys[..|keys| - 1]), keys[|keys| - 1])
  }

  /** The tree b differs from the tree a at these keys by this change, and the difference lies no deeper. */
  predicate Differs(keys: seq<string>, c: Change, a: Fields, b: Fields)
    decreases |keys|
  {
    && keys != []
    && var k := keys[0];
       if |keys| > 1 then
         k in a && k in b && a[k].Obj? && b[k].Obj? && Differs(keys[1..], c, a[k].fields, b[k].fields)
       else
         match c
         case Removed(before) => k in a && k !in b && before == a[k]
         case Added(after) => k !in a && k in b && after == b[k]
         case Changed(before, after) =>
           k in a && k in b && before == a[k] && after == b[k] && a[k] != b[k] && !(a[k].Obj? && b[k].Obj?)
  }

  /** The entry belongs below `prefix` in the diff of a and b. */
  predicate Below(prefix: seq<string>, e: Entry, a: Fields, b: Fields) {
    && prefix < e.keys && e.path == Dotted(e.keys)
    && Differs(e.keys[|prefix|..], e.change, a, b)
  }

  ghost predicate Distinct(out: seq<Entry>) {
    forall i, j :: 0 <= i < j < |out| ==> out[i].keys != out[j].keys
  }

  // ------------------------------------------------------------------ facts about differences

  /** A path leads to one difference. */
  lemma {:induction false} OneChangePerPath(keys: seq<string>, c: Change, d: Change, a: Fields, b: Fields)
    requires Differs(keys, c, a, b) && Differs(keys, d, a, b)
    ensures c == d
    decreases |keys|
  {
    if |keys| > 1 {
      OneChangePerPath(keys[1..], c, d, a[keys[0]].fields, b[keys[0]].fields);
    }
  }

  lemma {:induction false} EqualTreesDoNotDiffer(keys: seq<string>, c: Change, a: Fields)
    ensures !Differs(keys, c, a, a)
    decreases |keys|
  {
    if |keys| > 1 && keys[0] in a && a[keys[0]].Obj? {
      EqualTreesDoNotDiffer(keys[1..], c, a[keys[0]].fields);
    }
  }

  lemma {:induction false} UnequalTreesDiffer(a: Fields, b: Fields) returns (keys: seq<string>, c: Change)
    requires a != b
    ensures Differs(keys, c, a, b)
    decreases Obj(a)
  {
    if k :| k in a && k !in b {
      keys, c := [k], Removed(a[k]);
    } else if k :| k in b && k !in a {
      keys, c := [k], Added(b[k]);
    } else {
      var k := UnequalAt(a, b);
      if a[k].Obj? && b[k].Obj? {
        keys, c := UnequalTreesDiffer(a[k].fields, b[k].fields);
        assert ([k] + keys)[1..] == keys;
        keys := [k] + keys;
      } else {
        keys, c := [k], Changed(a[k], b[k]);
      }
    }
  }

  lemma UnequalAt(a: Fields, b: Fields) returns (k: string)
    requires a != b && (forall k :: k in a ==> k in b) && (forall k :: k in b ==> k in a)
    ensures k in a && k in b && a[k] != b[k]
  {
    assert a.Keys == b.Keys;
    k :| k in a && a[k] != b[k];
  }

  // ------------------------------------------------------------------ the algorithm

  /** jsonEqual compares the canonical texts, which is comparing the trees. */
  method JsonEqual(a: Value, b: Value) returns (same: bool)
    ensures same <==> a == b
  {
    var ba := new Buffer();
    WriteSortedJSON(ba, a);
    var bb := new Buffer();
    WriteSortedJSON(bb, b);
    JsonParser.PrintIsInjective(a, b);
    assert ba.text == Print(a) && bb.text == Print(b);
    same := ba.text == bb.text;
  }

  /** The entries for one key. */
  method DiffKey(k: string, path: string, keys: seq<string>, a: Fields, b: Fields) returns (out: seq<Entry>)
    requires (k in a || k in b) && keys != [] && keys[|keys| - 1] == k && path == Dotted(keys)
    ensures Distinct(out)
    ensures forall e :: e in out <==> keys <= e.keys && Below(keys[..|keys| - 1], e, a, b)
    decreases Obj(a), 0
  {
    var prefix := keys[..|keys| - 1];
    OnlyKey(keys, a, b);
    if k in a && k !in b {
      out := [Entry(path, keys, Removed(a[k]))];
    } else if k !in a && k in b {
      out := [Entry(path, keys, Added(b[k]))];
    } else {
      var same := JsonEqual(a[k], b[k]);
      if same {
        NothingBelowEqual(keys, a, b);
        out := [];
      } else if a[k].Obj? && b[k].Obj? {
        out := DiffMaps(path, keys, a[k].fields, b[k].fields);
        forall e
          ensures e in out <==> keys <= e.keys && Below(prefix, e, a, b)
        {
          DeeperIffBelow(keys, e, a, b);
        }
      } else {
        out := [Entry(path, keys, Changed(a[k], b[k]))];
      }
    }
  }

  /** When the key is not an object on both sides, no entry lies deeper than the key itself. */
  lemma OnlyKey(keys: seq<string>, a: Fields, b: Fields)
    requires keys != [] && var k := keys[|keys| - 1]; k in a || k in b
    ensures var k := keys[|keys| - 1];
      !(k in a && k in b && a[k].Obj? && b[k].Obj?) ==>
        forall e: Entry :: keys <= e.keys && Below(keys[..|keys| - 1], e, a, b) ==> e.keys == keys && e.path == Dotted(keys)
  {
    var n := |keys| - 1;
    var k := keys[n];
    forall e: Entry | keys <= e.keys && Below(keys[..n], e, a, b) && !(k in a && k in b && a[k].Obj? && b[k].Obj?)
      ensures e.keys == keys
    {
      assert e.keys[n..][0] == keys[n];
      assert |e.keys[n..]| == 1;
    }
  }

  lemma NothingBelowEqual(keys: seq<string>, a: Fields, b: Fields)
    requires keys != [] && var k := keys[|keys| - 1]; k in a && k in b && a[k] == b[k]
    ensures forall e: Entry :: keys <= e.keys ==> !Below(keys[..|keys| - 1], e, a, b)
  {
    var n := |keys| - 1;
    forall e: Entry | keys <= e.keys
      ensures !Below(keys[..n], e, a, b)
    {
      assert e.keys[n..][0] == keys[n];
      if a[keys[n]].Obj? {
        EqualTreesDoNotDiffer(e.keys[n..][1..], e.change, a[keys[n]].fields);
      }
    }
  }

  lemma DeeperIffBelow(keys: seq<string>, e: Entry, a: Fields, b: Fields)
    requires keys != [] && var k := keys[|keys| - 1]; k in a && k in b && a[k].Obj? && b[k].Obj?
    ensures var k := keys[|keys| - 1];
      Below(keys, e, a[k].fields, b[k].fields) <==> keys <= e.keys && Below(keys[..|keys| - 1], e, a, b)
  {
    var n := |keys| - 1;
    if keys <= e.keys {
      assert e.keys[n..][0] == keys[n] && e.keys[n..][1..] == e.keys[n + 1..];
      assert keys[..n] <= e.keys;
    }
  }

  /** Walks the keys of both sides in whatever order the maps give them. */
  method DiffMaps(prefix: string, keys: seq<string>, a: Fields, b: Fields) returns (out: seq<Entry>)
    requires prefix == Dotted(keys)
    ensures Distinct(out)
    ensures forall e :: e in out <==> Below(keys, e, a, b)
    decreases Obj(a), 1
  {
    out := [];
    var left := a.Keys + b.Keys;
    while left != {}
      invariant left <= a.Keys + b.Keys && Distinct(out)
      invariant Walked(out, keys, left, a, b)
      decreases |left|
    {
      var k :| k in left;
      var path := k;
      if prefix != "" {
        path := prefix + "." + k;
      }
      assert (keys + [k])[..|keys|] == keys;
      var entries := DiffKey(k, path, keys + [k], a, b);
      WalkedGrows(out, entries, keys, left, k, a, b);
      out := out + entries;
      left := left - {k};
    }
    forall e | Below(keys, e, a, b)
      ensures e in out
    {
      assert e.keys[|keys|..] != [];
    }
  }

  /** The entries so far are those whose next key is not left. */
  ghost predicate Walked(out: seq<Entry>, keys: seq<string>, left: set<string>, a: Fields, b: Fields) {
    forall e :: e in out <==> Below(keys, e, a, b) && e.keys[|keys|] !in left
  }

  lemma WalkedGrows(
    out: seq<Entry>, more: seq<Entry>, keys: seq<string>, left: set<string>, k: string, a: Fields, b: Fields)
    requires Walked(out, keys, left, a, b) && Distinct(out) && Distinct(more) && k in left
    requires forall e :: e in more <==> keys + [k] <= e.keys && Below(keys, e, a, b)
    ensures Walked(out + more, keys, left - {k}, a, b) && Distinct(out + more)
  {
    hide Differs, Dotted;
    forall e: Entry
      ensures e in out + more <==> Below(keys, e, a, b) && e.keys[|keys|] !in left - {k}
    {
      if Below(keys, e, a, b) {
        assert keys + [k] <= e.keys <==> e.keys[|keys|] == k;
      }
    }
    forall i, j | 0 <= i < |out| && 0 <= j < |more|
      ensures out[i].keys != more[j].keys
    {
      assert out[i] in out && more[j] in more;
      assert more[j].keys[|keys|] == k;
    }
  }

  method Diff(a: Fields, b: Fields) returns (out: seq<Entry>)
    ensures IsDiff(out, a, b)
    ensures out == [] <==> a == b
  {
    out := DiffMaps("", [], a, b);
    forall e
      ensures e in out <==> e.path == Dotted(e.keys) && Differs(e.keys, e.change, a, b)
    {
      assert e.keys[0..] == e.keys;
    }
    EmptyIffEqual(out, a, b);
  }

  // ------------------------------------------------------------------ the diff is a patch

  /** Every difference once, and nothing else. */
  ghost predicate IsDiff(out: seq<Entry>, a: Fields, b: Fields) {
    && Distinct(out)
    && forall e :: e in out <==> e.path == Dotted(e.keys) && Differs(e.keys, e.change, a, b)
  }

  lemma DifferingTreesAreUnequal(keys: seq<string>, c: Change, a: Fields, b: Fields)
    requires Differs(keys, c, a, b)
    ensures a != b
  {
    EqualTreesDoNotDiffer(keys, c, a);
  }

  lemma EmptyIffEqual(out: seq<Entry>, a: Fields, b: Fields)
    requires IsDiff(out, a, b)
    ensures out == [] <==> a == b
  {
    if out != [] {
      assert out[0] in out;
      DifferingTreesAreUnequal(out[0].keys, out[0].change, a, b);
    }
    if a != b {
      var keys, c := UnequalTreesDiffer(a, b);
      assert Entry(Dotted(keys), keys, c) in out;
    }
  }

  /** Carries out one entry: puts, replaces or deletes what stands at its keys. */
  function Patch(m: Fields, keys: seq<string>, c: Change): Fields
    decreases |keys|
  {
    if keys == [] then m
    else if |keys| > 1 then
      if keys[0] in m && m[keys[0]].Obj? then m[keys[0] := Obj(Patch(m[keys[0]].fields, keys[1..], c))] else m
    else if c.Removed? then m - {keys[0]}
    else m[keys[0] := c.after]
  }

  function ApplyAll(m: Fields, out: seq<Entry>): Fields
    decreases |out|
  {
    if out == [] then m else ApplyAll(Patch(m, out[0].keys, out[0].change), out[1..])
  }

  /** Carrying out one difference removes that difference and no other. */
  lemma {:induction false} PatchSettlesOne(
    a: Fields, b: Fields, keys: seq<string>, c: Change, keys': seq<string>, c': Change)
    requires Differs(keys, c, a, b)
    ensures Differs(keys', c', Patch(a, keys, c), b) <==> Differs(keys', c', a, b) && keys' != keys
    decreases |keys|
  {
    var p := Patch(a, keys, c);
    if keys' != [] && keys'[0] == keys[0] {
      var k := keys[0];
      assert keys == [k] + keys[1..] && keys' == [k] + keys'[1..];
      if |keys| > 1 {
        PatchSettlesOne(a[k].fields, b[k].fields, keys[1..], c, keys'[1..], c');
        assert p[k] == Obj(Patch(a[k].fields, keys[1..], c));
      } else {
        LeafSettled(a, b, k, c, keys', c');
      }
    } else if keys' != [] {
      assert keys'[0] in p <==> keys'[0] in a;
      assert keys'[0] in a ==> p[keys'[0]] == a[keys'[0]];
    }
  }

  lemma LeafSettled(a: Fields, b: Fields, k: string, c: Change, keys': seq<string>, c': Change)
    requires Differs([k], c, a, b) && keys' != [] && keys'[0] == k
    ensures Differs(keys', c', Patch(a, [k], c), b) <==> Differs(keys', c', a, b) && keys' != [k]
  {
    var p := Patch(a, [k], c);
    assert k in p <==> k in b;
    assert k in b ==> p[k] == b[k];
    if |keys'| > 1 && k in b && b[k].Obj? {
      EqualTreesDoNotDiffer(keys'[1..], c', b[k].fields);
    }
    if |keys'| == 1 {
      assert keys' == [k];
    }
  }

  lemma PatchKeepsDiff(a: Fields, b: Fields, out: seq<Entry>)
    requires IsDiff(out, a, b) && out != []
    ensures IsDiff(out[1..], Patch(a, out[0].keys, out[0].change), b)
  {
    var e0 := out[0];
    assert e0 in out && out == [e0] + out[1..];
    forall e
      ensures e in out[1..] <==> e.path == Dotted(e.keys) && Differs(e.keys, e.change, Patch(a, e0.keys, e0.change), b)
    {
      PatchSettlesOne(a, b, e0.keys, e0.change, e.keys, e.change);
      if e in out && e.keys == e0.keys {
        OneChangePerPath(e.keys, e.change, e0.change, a, b);
      }
    }
  }

  /** Applying the diff of a and b to a, entry by entry in the order it came out, gives b. */
  lemma {:induction false} DiffIsAPatch(a: Fields, b: Fields, out: seq<Entry>)
    requires IsDiff(out, a, b)
    ensures ApplyAll(a, out) == b
    decreases |out|
  {
    EmptyIffEqual(out, a, b);
    if out != [] {
      PatchKeepsDiff(a, b, out);
      DiffIsAPatch(Patch(a, out[0].keys, out[0].change), b, out[1..]);
    }
  }

  // ------------------------------------------------------------------ what the dotted paths tell

  predicate PlainKey(k: string) {
    k != "" && '.' !in k
  }

  predicate Plain(keys: seq<string>) {
    forall k :: k in keys ==> PlainKey(k)
  }

  /** A nested path and the single key spelled like it are shown alike. */
  lemma DottedIsAmbiguous(keys: seq<string>)
    requires |keys| > 1
    ensures Dotted([Dotted(keys)]) == Dotted(keys) && [Dotted(keys)] != keys
  {
    assert [Dotted(keys)][..0] == [];
  }

  /** Keys that are not empty and hold no dot are told apart by their dotted paths. */
  lemma {:induction false} DottedIsInjective(p: seq<string>, q: seq<string>)
    requires Plain(p) && Plain(q) && Dotted(p) == Dotted(q)
    ensures p == q
    decreases |p|
  {
    EmptyDotted(p);
    EmptyDotted(q);
    if p != [] {
      var m, n := |p| - 1, |q| - 1;
      assert p[m] in p && q[n] in q;
      assert Plain(p[..m]) && Plain(q[..n]);
      EmptyDotted(p[..m]);
      EmptyDotted(q[..n]);
      LastDot(Dotted(p[..m]), p[m], Dotted(q[..n]), q[n]);
      DottedIsInjective(p[..m], q[..n]);
      assert p == p[..m] + [p[m]] && q == q[..n] + [q[n]];
    }
  }

  lemma EmptyDotted(p: seq<string>)
    requires Plain(p)
    ensures Dotted(p) == "" <==> p == []
  {
    if p != [] {
      assert p[|p| - 1] in p;
    }
  }

  lemma LastDot(x: string, k: string, y: string, l: string)
    requires PlainKey(k) && PlainKey(l) && Dot(x, k) == Dot(y, l)
    ensures x == y && k == l
  {
    var s := Dot(x, k);
    if |k| < |l| {
      DotAt(x, k, y, l);
    } else if |l| < |k| {
      DotAt(y, l, x, k);
    } else if x == "" || y == "" {
      assert |s| == |k| || |s| == |x| + 1 + |k|;
      assert |s| == |l| || |s| == |y| + 1 + |l|;
    } else {
      assert s[..|x|] == x && s[..|y|] == y && s[|x| + 1..] == k && s[|y| + 1..] == l;
    }
  }

  /** The shorter key is preceded by a dot that would lie inside the longer one. */
  lemma DotAt(x: string, k: string, y: string, l: string)
    requires PlainKey(k) && PlainKey(l) && |k| < |l|
    ensures Dot(x, k) != Dot(y, l)
  {
    var s, t := Dot(x, k), Dot(y, l);
    if |s| == |t| && x != "" {
      assert s[|s| - |k| - 1] == '.';
      assert t[|t| - |k| - 1] == l[|l| - |k| - 1];
      assert l[|l| - |k| - 1] in l;
    }
  }

  // ------------------------------------------------------------------ the diff of two configurations

  /**
   * In every object reached through objects, all keys are plain or no value is an object. The tree of a Config is so:
   * its tags are plain, and reason_weights, the one map with free keys, holds integers.
   */
  predicate Tidy(m: Fields)
    decreases Obj(m)
  {
    && ((forall k :: k in m ==> PlainKey(k)) || (forall k :: k in m ==> !m[k].Obj?))
    && forall k :: k in m && m[k].Obj? ==> Tidy(m[k].fields)
  }

  function Suffix(keys: seq<string>): string {
    if keys == [] then "" else "." + (keys[0] + Suffix(keys[1..]))
  }

  /** Written from the left, each further key follows a dot. */
  lemma {:induction false} DottedFromLeft(keys: seq<string>)
    requires keys != [] && (|keys| > 1 ==> keys[0] != "")
    ensures "." + Dotted(keys) == Suffix(keys) && (|keys| > 1 ==> Dotted(keys) != "")
    decreases |keys|
  {
    var n := |keys| - 1;
    if n == 0 {
      assert keys[..0] == [];
    } else {
      DottedFromLeft(keys[..n]);
      SuffixSnoc(keys[..n], keys[n]);
      assert keys == keys[..n] + [keys[n]];
      if n == 1 {
        assert keys[..1] == [keys[0]] && keys[..1][..0] == [];
      }
      assert "." + (Dotted(keys[..n]) + "." + keys[n]) == ("." + Dotted(keys[..n])) + ("." + keys[n]);
    }
  }

  lemma {:induction false} SuffixSnoc(keys: seq<string>, k: string)
    ensures Suffix(keys + [k]) == Suffix(keys) + ("." + k)
  {
    if keys == [] {
      assert keys + [k] == [k];
    } else {
      SuffixSnoc(keys[1..], k);
      assert (keys + [k])[1..] == keys[1..] + [k];
      var rest := Suffix(keys[1..]);
      assert "." + (keys[0] + (rest + ("." + k))) == ("." + (keys[0] + rest)) + ("." + k);
    }
  }

  lemma ShorterKeyDiffers(k: string, x: string, m: string, y: string)
    requires PlainKey(m) && (x == "" || x[0] == '.') && |k| < |m|
    ensures k + x != m + y
  {
    assert (m + y)[|k|] == m[|k|] && m[|k|] in m;
    if x == "" {
      assert |k + x| == |k| && |m + y| > |k|;
    } else {
      assert (k + x)[|k|] == '.';
    }
  }

  /** A plain key ends at the first dot. */
  lemma PlainKeyEnds(k: string, x: string, m: string, y: string)
    requires PlainKey(k) && PlainKey(m) && (x == "" || x[0] == '.') && (y == "" || y[0] == '.')
    requires k + x == m + y
    ensures k == m && x == y
  {
    if |k| < |m| {
      ShorterKeyDiffers(k, x, m, y);
    } else if |m| < |k| {
      ShorterKeyDiffers(m, y, k, x);
    } else {
      assert (k + x)[..|k|] == k && (m + y)[..|m|] == m && (k + x)[|k|..] == x && (m + y)[|m|..] == y;
    }
  }

  /** Where one of two differences lies deeper, both start with a plain key. */
  lemma DeeperMeansPlain(p: seq<string>, c: Change, q: seq<string>, d: Change, a: Fields, b: Fields)
    requires Differs(p, c, a, b) && Differs(q, d, a, b) && Tidy(a) && Tidy(b) && |p| > 1
    ensures PlainKey(p[0]) && PlainKey(q[0])
  {
    assert p[0] in a && a[p[0]].Obj? && p[0] in b && b[p[0]].Obj?;
    assert q[0] in a || q[0] in b;
  }

  lemma {:induction false} SameSuffixSamePath(
    p: seq<string>, c: Change, q: seq<string>, d: Change, a: Fields, b: Fields)
    requires Differs(p, c, a, b) && Differs(q, d, a, b) && Tidy(a) && Tidy(b) && Suffix(p) == Suffix(q)
    ensures p == q
    decreases |p|
  {
    var x, y := Suffix(p[1..]), Suffix(q[1..]);
    assert p == [p[0]] + p[1..] && q == [q[0]] + q[1..];
    assert (p[0] + x) == Suffix(p)[1..] == Suffix(q)[1..] == (q[0] + y);
    if |p| == 1 && |q| == 1 {
      assert p[1..] == [] && q[1..] == [];
      assert p[0] == p[0] + x && q[0] == q[0] + y;
    } else {
      if |p| > 1 {
        DeeperMeansPlain(p, c, q, d, a, b);
      } else {
        DeeperMeansPlain(q, d, p, c, a, b);
      }
      PlainKeyEnds(p[0], x, q[0], y);
      SuffixIsEmpty(p[1..]);
      SuffixIsEmpty(q[1..]);
      if |p| > 1 {
        var k := p[0];
        SameSuffixSamePath(p[1..], c, q[1..], d, a[k].fields, b[k].fields);
      }
    }
  }

  lemma SuffixIsEmpty(keys: seq<string>)
    ensures Suffix(keys) == "" <==> keys == []
  {
  }

  lemma SamePathSameKeys(p: seq<string>, c: Change, q: seq<string>, d: Change, a: Fields, b: Fields)
    requires Differs(p, c, a, b) && Differs(q, d, a, b) && Tidy(a) && Tidy(b) && Dotted(p) == Dotted(q)
    ensures p == q
  {
    hide Suffix, Dotted, Differs, Tidy;
    NonEmptyPath(p, c, a, b);
    NonEmptyPath(q, d, a, b);
    if |p| == 1 && |q| == 1 {
      OneKey(p);
      OneKey(q);
    } else {
      if |p| > 1 {
        DeeperMeansPlain(p, c, q, d, a, b);
      } else {
        DeeperMeansPlain(q, d, p, c, a, b);
      }
      DottedFromLeft(p);
      DottedFromLeft(q);
      SameSuffixSamePath(p, c, q, d, a, b);
    }
  }

  lemma NonEmptyPath(p: seq<string>, c: Change, a: Fields, b: Fields)
    requires Differs(p, c, a, b)
    ensures p != []
  {
  }

  lemma OneKey(p: seq<string>)
    requires |p| == 1
    ensures Dotted(p) == p[0]
  {
    assert p[..0] == [];
  }

  /** The diff of two tidy trees, hence of two configurations, shows every difference under a path of its own. */
  lemma PathsAreDistinct(out: seq<Entry>, a: Fields, b: Fields)
    requires IsDiff(out, a, b) && Tidy(a) && Tidy(b)
    ensures forall i, j :: 0 <= i < j < |out| ==> out[i].path != out[j].path
  {
    hide Dotted, Differs, Tidy;
    forall i, j | 0 <= i < j < |out|
      ensures out[i].path != out[j].path
    {
      var e, f := out[i], out[j];
      assert e in out && f in out;
      if Dotted(e.keys) == Dotted(f.keys) {
        SamePathSameKeys(e.keys, e.change, f.keys, f.change, a, b);
      }
    }
  }

  function Clashing(n: NumberText): Fields {
    map["a" := Obj(map["b" := Num(n)]), "a.b" := Num(n)]
  }

  const NESTED := Entry("a.b", ["a", "b"], Changed(Num("1"), Num("2")))
  const SPELLED := Entry("a.b", ["a.b"], Changed(Num("1"), Num("2")))

  lemma SpelledAlike()
    ensures Dotted(NESTED.keys) == "a.b" == Dotted(SPELLED.keys)
  {
    assert ["a", "b"][..1] == ["a"] && ["a"][..0] == [] && ["a.b"][..0] == [];
  }

  lemma BothDiffer()
    ensures Differs(NESTED.keys, NESTED.change, Clashing("1"), Clashing("2"))
    ensures Differs(SPELLED.keys, SPELLED.change, Clashing("1"), Clashing("2"))
  {
    var a, b := Clashing("1"), Clashing("2");
    assert NESTED.keys[1..] == ["b"];
    assert Differs(["b"], NESTED.change, a["a"].fields, b["a"].fields);
  }

  lemma ClashingIsNotTidy(n: NumberText)
    ensures !Tidy(Clashing(n))
  {
    assert "a.b"[1] == '.';
    assert "a.b" in Clashing(n) && !PlainKey("a.b") && Clashing(n)["a"].Obj?;
  }

  /** Outside that shape two entries can share a path: a nested key beside a key that is spelled like its path. */
  lemma TwoEntriesOnePath(out: seq<Entry>)
    requires IsDiff(out, Clashing("1"), Clashing("2"))
    ensures !Tidy(Clashing("1")) && !Tidy(Clashing("2"))
    ensures exists i, j :: 0 <= i < |out| && 0 <= j < |out| && i != j && out[i].path == out[j].path
  {
    hide Dotted, Differs, Tidy, Clashing;
    ClashingIsNotTidy("1");
    ClashingIsNotTidy("2");
    SpelledAlike();
    BothDiffer();
    assert NESTED in out && SPELLED in out;
    var i :| 0 <= i < |out| && out[i] == NESTED;
    var j :| 0 <= j < |out| && out[j] == SPELLED;
    assert NESTED.keys != SPELLED.keys;
  }
}
