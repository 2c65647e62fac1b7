/**
 * A Python `dict` as the tracker uses it: keys keep their insertion order,
 * and assigning to an existing key replaces its value in place.
 */
module Dict {
  import opened Wrappers

  /** Entries in insertion order; `Put` keeps the keys distinct. */
  type ODict<V> = seq<(string, V)>

  function Keys<V>(d: ODict<V>): (ks: seq<string>)
    ensures |ks| == |d| && forall i :: 0 <= i < |d| ==> ks[i] == d[i].0
  {
    seq(|d|, i requires 0 <= i < |d| => d[i].0)
  }

  function Values<V>(d: ODict<V>): (vs: seq<V>)
    ensures |vs| == |d| && forall i :: 0 <= i < |d| ==> vs[i] == d[i].1
  {
    seq(|d|, i requires 0 <= i < |d| => d[i].1)
  }

  predicate Distinct<T(==)>(s: seq<T>) {
    forall i, j :: 0 <= i < j < |s| ==> s[i] != s[j]
  }

  /** `d[k]`: `None` where Python raises KeyError. */
  function Get<V>(d: ODict<V>, k: string): (r: Option<V>)
    ensures r.None? <==> k !in Keys(d)
  {
    if d == [] then None else if d[0].0 == k then Some(d[0].1) else Get(d[1..], k)
  }

  /** `d[k] = v`. */
  function Put<V>(d: ODict<V>, k: string, v: V): ODict<V>
  {
    if d == [] then [(k, v)]
    else if d[0].0 == k then [(k, v)] + d[1..]
    else [d[0]] + Put(d[1..], k, v)
  }

  /** Assigning to a new key appends it; to a present key keeps the key order. */
  lemma {:induction false} PutKeys<V>(d: ODict<V>, k: string, v: V)
    ensures Keys(Put(d, k, v)) == if k in Keys(d) then Keys(d) else Keys(d) + [k]
  {
    if d == [] {
      assert Keys(Put(d, k, v)) == [k];
    } else {
      KeysCons(d[0], d[1..]);
      assert [d[0]] + d[1..] == d;
      if d[0].0 == k {
        KeysCons((k, v), d[1..]);
      } else {
        PutKeys(d[1..], k, v);
        KeysCons(d[0], Put(d[1..], k, v));
        assert k in Keys(d) <==> k in Keys(d[1..]);
      }
    }
  }

  lemma KeysCons<V>(p: (string, V), d: ODict<V>)
    ensures Keys([p] + d) == [p.0] + Keys(d)
  {
  }

  /** The assigned key reads back its new value; every other key reads as before. */
  lemma {:induction false} PutGet<V>(d: ODict<V>, k: string, v: V, k': string)
    ensures Get(Put(d, k, v), k') == if k' == k then Some(v) else Get(d, k')
  {
    if d != [] && d[0].0 != k {
      PutGet(d[1..], k, v, k');
    }
  }

  /** Assignments to distinct keys starting from `{}` give exactly those keys in order. */
  function PutAll<V>(d: ODict<V>, ks: seq<string>, vs: seq<V>): ODict<V>
    requires |ks| == |vs|
    decreases |ks|
  {
    if ks == [] then d else PutAll(Put(d, ks[0], vs[0]), ks[1..], vs[1..])
  }

  /** Five assignments in a row, written out. */
  lemma PutAllFive<V>(d: ODict<V>, ks: seq<string>, vs: seq<V>)
    requires |ks| == 5 && |vs| == 5
    ensures PutAll(d, ks, vs) ==
      Put(Put(Put(Put(Put(d, ks[0], vs[0]), ks[1], vs[1]), ks[2], vs[2]), ks[3], vs[3]), ks[4], vs[4])
  {
    var k1, v1 := ks[1..], vs[1..];
    var k2, v2 := k1[1..], v1[1..];
    var k3, v3 := k2[1..], v2[1..];
    var k4, v4 := k3[1..], v3[1..];
    var k5, v5 := k4[1..], v4[1..];
    assert k1[0] == ks[1] && k2[0] == ks[2] && k3[0] == ks[3] && k4[0] == ks[4] && k5 == [];
    assert v1[0] == vs[1] && v2[0] == vs[2] && v3[0] == vs[3] && v4[0] == vs[4] && v5 == [];
    var d1 := Put(d, ks[0], vs[0]);
    var d2 := Put(d1, ks[1], vs[1]);
    var d3 := Put(d2, ks[2], vs[2]);
    var d4 := Put(d3, ks[3], vs[3]);
    assert PutAll(d4, k4, v4) == PutAll(Put(d4, ks[4], vs[4]), k5, v5);
    assert PutAll(d3, k3, v3) == PutAll(d4, k4, v4);
    assert PutAll(d2, k2, v2) == PutAll(d3, k3, v3);
    assert PutAll(d1, k1, v1) == PutAll(d2, k2, v2);
    assert PutAll(d, ks, vs) == PutAll(d1, k1, v1);
  }

  /** Assigning distinct keys one after another into `{}` gives exactly those keys, in that order, each with its value. */
  lemma PutAllFromEmpty<V>(ks: seq<string>, vs: seq<V>)
    requires |ks| == |vs| && Distinct(ks)
    ensures PutAll([], ks, vs) == Zip(ks, vs)
  {
    assert Keys<V>([]) + ks == ks;
    PutAllAppend([], ks, vs);
  }

  function Zip<V>(ks: seq<string>, vs: seq<V>): (d: ODict<V>)
    requires |ks| == |vs|
    ensures |d| == |ks| && forall i :: 0 <= i < |ks| ==> d[i] == (ks[i], vs[i])
  {
    seq(|ks|, i requires 0 <= i < |ks| => (ks[i], vs[i]))
  }

  lemma {:induction false} PutAllAppend<V>(d: ODict<V>, ks: seq<string>, vs: seq<V>)
    requires |ks| == |vs| && Distinct(Keys(d) + ks)
    ensures PutAll(d, ks, vs) == d + Zip(ks, vs)
    decreases |ks|
  {
    if ks != [] {
      assert ks[0] !in Keys(d) by {
        forall i | 0 <= i < |d| ensures Keys(d)[i] != ks[0] {
          assert (Keys(d) + ks)[i] == Keys(d)[i] && (Keys(d) + ks)[|d|] == ks[0];
        }
      }
      PutNew(d, ks[0], vs[0]);
      assert Keys(d + [(ks[0], vs[0])]) == Keys(d) + [ks[0]];
      assert Keys(d) + [ks[0]] + ks[1..] == Keys(d) + ks;
      PutAllAppend(d + [(ks[0], vs[0])], ks[1..], vs[1..]);
      assert d + [(ks[0], vs[0])] + Zip(ks[1..], vs[1..]) == d + Zip(ks, vs);
    }
  }

  lemma {:induction false} PutNew<V>(d: ODict<V>, k: string, v: V)
    requires k !in Keys(d)
    ensures Put(d, k, v) == d + [(k, v)]
  {
    if d != [] {
      assert Keys(d)[0] == d[0].0;
      assert Keys(d[1..]) == Keys(d)[1..];
      PutNew(d[1..], k, v);
      assert d == [d[0]] + d[1..];
    }
  }

  /** A dictionary built from a key list and a value list lists them back. */
  lemma ZipKeysValues<V>(ks: seq<string>, vs: seq<V>)
    requires |ks| == |vs|
    ensures Keys(Zip(ks, vs)) == ks && Values(Zip(ks, vs)) == vs
  {
  }

  lemma ZipGet<V>(ks: seq<string>, vs: seq<V>, i: nat)
    requires |ks| == |vs| && Distinct(ks) && i < |ks|
    ensures Keys(Zip(ks, vs)) == ks
    ensures Get(Zip(ks, vs), ks[i]) == Some(vs[i])
  {
    GetAt(Zip(ks, vs), i);
  }

  /** In a dictionary with distinct keys, the key at position `i` reads the value at position `i`. */
  lemma {:induction false} GetAt<V>(d: ODict<V>, i: nat)
    requires Distinct(Keys(d)) && i < |d|
    ensures Get(d, d[i].0) == Some(d[i].1)
  {
    if i > 0 {
      assert Keys(d)[0] != Keys(d)[i];
      assert Distinct(Keys(d[1..])) by {
        forall a, b | 0 <= a < b < |d[1..]| ensures Keys(d[1..])[a] != Keys(d[1..])[b] {
          assert Keys(d[1..])[a] == Keys(d)[a + 1] && Keys(d[1..])[b] == Keys(d)[b + 1];
        }
      }
      GetAt(d[1..], i - 1);
    }
  }

  lemma DistinctTail<V>(d: ODict<V>)
    requires |d| > 0 && Distinct(Keys(d))
    ensures Distinct(Keys(d[1..]))
  {
    forall a, b | 0 <= a < b < |d[1..]| ensures Keys(d[1..])[a] != Keys(d[1..])[b] {
      assert Keys(d[1..])[a] == Keys(d)[a + 1] && Keys(d[1..])[b] == Keys(d)[b + 1];
    }
  }

  /** Assigning to a present key replaces the value at that key's position and nothing else. */
  lemma {:induction false} PutAt<V>(d: ODict<V>, i: nat, v: V)
    requires Distinct(Keys(d)) && i < |d|
    ensures Put(d, d[i].0, v) == d[i := (d[i].0, v)]
  {
    if i > 0 {
      assert Keys(d)[0] != Keys(d)[i];
      DistinctTail(d);
      PutAt(d[1..], i - 1, v);
      assert d[i := (d[i].0, v)] == [d[0]] + d[1..][i - 1 := (d[i].0, v)];
    }
  }

  /** Assigning the same distinct keys a second time keeps the keys and their order and replaces every value. */
  lemma PutAllOverwrite<V>(ks: seq<string>, v1: seq<V>, v2: seq<V>)
    requires |ks| == |v1| == |v2| && Distinct(ks)
    ensures PutAll(Zip(ks, v1), ks, v2) == Zip(ks, v2)
  {
    assert v2[..0] + v1[0..] == v1;
    PutAllOverwriteFrom(ks, v1, v2, 0);
  }

  lemma {:induction false} PutAllOverwriteFrom<V>(ks: seq<string>, v1: seq<V>, v2: seq<V>, i: nat)
    requires |ks| == |v1| == |v2| && Distinct(ks) && i <= |ks|
    ensures PutAll(Zip(ks, v2[..i] + v1[i..]), ks[i..], v2[i..]) == Zip(ks, v2)
    decreases |ks| - i
  {
    if i == |ks| {
      assert v2[..i] + v1[i..] == v2;
    } else {
      var d := Zip(ks, v2[..i] + v1[i..]);
      assert Keys(d) == ks;
      PutAt(d, i, v2[i]);
      assert d[i := (ks[i], v2[i])] == Zip(ks, v2[..i + 1] + v1[i + 1..]);
      assert ks[i..][1..] == ks[i + 1..] && v2[i..][1..] == v2[i + 1..];
      PutAllOverwriteFrom(ks, v1, v2, i + 1);
    }
  }
}
