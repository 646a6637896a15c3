/** Window._elements: a Python dict from string keys to widgets. Python
    dicts iterate in insertion order, and draw_elements and update_elements
    iterate it, so the key order is part of the model. */
module OrderedDict {
  import opened Outcomes

  /** `keys` lists the keys in iteration order; `entries` holds the values. */
  datatype Dict<V> = Dict(keys: seq<string>, entries: map<string, V>) {

    /** Each key listed once, and exactly the keys that have a value. */
    ghost predicate Valid()
    {
      Distinct(keys) && forall k :: k in keys <==> k in entries
    }

    /** d[k] = v: a new key goes last, an existing key keeps its place and
        gets the new value. */
    function Put(k: string, v: V): (r: Dict<V>)
      requires Valid()
      ensures r.Valid()
      ensures r.entries == entries[k := v]
      ensures k in entries ==> r.keys == keys
      ensures k !in entries ==> r.keys == keys + [k]
    {
      if k in keys then Dict(keys, entries[k := v]) else Dict(keys + [k], entries[k := v])
    }

    /** del d[k] on a present key: only that key goes, and the others keep
        their order. */
    function Remove(k: string): (r: Dict<V>)
      requires Valid() && k in entries
      ensures r.Valid()
      ensures r.entries == entries - {k}
      ensures exists i :: 0 <= i < |keys| && keys[i] == k && r.keys == keys[..i] + keys[i + 1..]
    {
      assert exists i :: 0 <= i < |keys| && keys[i] == k && Drop(keys, k) == keys[..i] + keys[i + 1..] by {
        var i :| 0 <= i < |keys| && keys[i] == k;
        DropAt(keys, i);
      }
      Dict(Drop(keys, k), entries - {k})
    }

    /** d.values(): the values in key order. */
    function Values(): (vs: seq<V>)
      requires Valid()
      ensures |vs| == |keys|
      ensures forall i :: 0 <= i < |keys| ==> vs[i] == entries[keys[i]]
    {
      seq(|keys|, i requires 0 <= i < |keys| => entries[keys[i]])
    }
  }

  /** The empty dict a Window starts with. */
  function Empty<V>(): (d: Dict<V>)
    ensures d.Valid() && d.entries == map[] && d.keys == []
  {
    Dict([], map[])
  }

  /** The sequence without any occurrence of `k`, the rest in their order. */
  function Drop(s: seq<string>, k: string): (r: seq<string>)
    ensures forall x :: x in r <==> x in s && x != k
    ensures Distinct(s) ==> Distinct(r)
    ensures |r| <= |s|
    decreases |s|
  {
    if s == [] then []
    else
      var init, last := s[..|s| - 1], s[|s| - 1];
      assert Distinct(s) ==> Distinct(init) && last !in init;
      if last == k then Drop(init, k) else Drop(init, k) + [last]
  }

  /** Dropping a key listed exactly once shortens the sequence by one. */
  lemma {:induction false} DropLengthOfPresent(s: seq<string>, k: string)
    requires Distinct(s) && k in s
    ensures |Drop(s, k)| == |s| - 1
    decreases |s|
  {
    var n := |s| - 1;
    if s[n] != k {
      assert k in s[..n];
      DropLengthOfPresent(s[..n], k);
    } else {
      assert k !in s[..n];
      DropOfAbsent(s[..n], k);
    }
  }

  /** Dropping the key at index `i` of a sequence without repeats cuts out
      exactly that index and keeps the others in their order. */
  lemma {:induction false} DropAt(s: seq<string>, i: nat)
    requires Distinct(s) && i < |s|
    ensures Drop(s, s[i]) == s[..i] + s[i + 1..]
    decreases |s|
  {
    var n := |s| - 1;
    var init := s[..n];
    if i == n {
      DropOfAbsent(init, s[i]);
      assert s[i + 1..] == [];
    } else {
      assert init[i] == s[i] && s[i] in init;
      DropAt(init, i);
      assert init[..i] == s[..i];
      assert init[i + 1..] + [s[n]] == s[i + 1..];
    }
  }

  /** Dropping a key that is not listed changes nothing. */
  lemma {:induction false} DropOfAbsent(s: seq<string>, k: string)
    requires k !in s
    ensures Drop(s, k) == s
    decreases |s|
  {
    if s != [] {
      DropOfAbsent(s[..|s| - 1], k);
      assert s[..|s| - 1] + [s[|s| - 1]] == s;
    }
  }

  /** Writing a key then reading it gives the written value; other keys read
      as before. */
  lemma PutThenGet<V>(d: Dict<V>, k: string, v: V, other: string)
    requires d.Valid()
    ensures d.Put(k, v).entries[k] == v
    ensures other != k ==> (other in d.Put(k, v).entries <==> other in d.entries)
    ensures other != k && other in d.entries ==> d.Put(k, v).entries[other] == d.entries[other]
  {
  }

  /** Iterating after d[k] = v with a new key: its value comes last. */
  lemma PutAppends<V>(d: Dict<V>, k: string, v: V)
    requires d.Valid() && k !in d.entries
    ensures d.Put(k, v).Values() == d.Values() + [v]
  {
    var vs, rvs := d.Values(), d.Put(k, v).Values();
    assert |rvs| == |vs| + 1;
    forall j | 0 <= j < |rvs| ensures rvs[j] == (vs + [v])[j] {
    }
  }

  /** Iterating after d[k] = v with an existing key: its value is replaced
      where it stood, and nothing else changes. */
  lemma PutReplaces<V>(d: Dict<V>, k: string, v: V)
    requires d.Valid() && k in d.entries
    ensures exists i :: 0 <= i < |d.keys| && d.keys[i] == k && d.Put(k, v).Values() == d.Values()[i := v]
  {
    assert k in d.keys;
    var i :| 0 <= i < |d.keys| && d.keys[i] == k;
    var vs, rvs := d.Values(), d.Put(k, v).Values();
    assert |rvs| == |vs|;
    forall j | 0 <= j < |vs| ensures rvs[j] == vs[i := v][j] {
      if j != i {
        DistinctIndex(d.keys, i, j);
      }
    }
  }

  /** Iterating after del d[k], for the key at index `i`: its value is cut
      out where it stood, and the other values keep their order. */
  lemma RemoveCutsOut<V>(d: Dict<V>, i: nat)
    requires d.Valid() && i < |d.keys|
    ensures d.keys[i] in d.entries
    ensures d.Remove(d.keys[i]).Values() == d.Values()[..i] + d.Values()[i + 1..]
  {
    var k := d.keys[i];
    assert k in d.entries;
    DropAt(d.keys, i);
    var r := d.Remove(k);
    var vs, rvs := d.Values(), r.Values();
    var cut := vs[..i] + vs[i + 1..];
    assert |rvs| == |cut|;
    forall j | 0 <= j < |rvs| ensures rvs[j] == cut[j] {
      var m := CutAt(d.keys, i, j);
      var m' := CutAt(vs, i, j);
      DistinctIndex(d.keys, i, m);
    }
    assert rvs == cut;
  }

  /** Index `j` of a sequence with index `i` cut out is index `m` of the
      original, the one after it from `i` on. */
  lemma CutAt<T>(s: seq<T>, i: nat, j: nat) returns (m: nat)
    requires i < |s| && j < |s| - 1
    ensures m == (if j < i then j else j + 1) && m < |s| && m != i
    ensures (s[..i] + s[i + 1..])[j] == s[m]
  {
    m := if j < i then j else j + 1;
  }

  /** Writing a present key twice keeps it where it was first listed. */
  lemma PutKeepsOrder<V>(d: Dict<V>, k: string, v: V, w: V)
    requires d.Valid()
    ensures d.Put(k, v).Put(k, w).keys == d.Put(k, w).keys
    ensures d.Put(k, v).Put(k, w).entries == d.Put(k, w).entries
  {
  }
}
