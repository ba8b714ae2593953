/** A Python `dict` with string keys, as the association list it behaves
    like: entries in insertion order, each key once, and assignment to an
    existing key overwrites its value in place. */
module PyDict {
  import opened Outcomes

  type Dict<V> = seq<(string, V)>

  /** No key appears twice. */
  ghost predicate DistinctKeys<V>(d: Dict<V>) {
    forall i, j :: 0 <= i < j < |d| ==> d[i].0 != d[j].0
  }

  /** `d.keys()` as a set. */
  function Keys<V>(d: Dict<V>): set<string> {
    set i | 0 <= i < |d| :: d[i].0
  }

  lemma KeysCons<V>(d: Dict<V>)
    requires d != []
    ensures Keys(d) == {d[0].0} + Keys(d[1..])
  {
    forall key | key in Keys(d) ensures key in {d[0].0} + Keys(d[1..]) {
      var i :| 0 <= i < |d| && d[i].0 == key;
      if i > 0 { assert d[1..][i - 1].0 == key; }
    }
    forall key | key in Keys(d[1..]) ensures key in Keys(d) {
      var i :| 0 <= i < |d[1..]| && d[1..][i].0 == key;
      assert d[i + 1].0 == key;
    }
  }

  /** `d[k]` read as an option: the value of the first entry for `k`, and
      `None` when there is none. */
  function Get<V>(d: Dict<V>, k: string): (r: Option<V>)
    ensures r.Some? <==> k in Keys(d)
    ensures forall i :: 0 <= i < |d| && d[i].0 == k && (forall j :: 0 <= j < i ==> d[j].0 != k) ==>
      r == Some(d[i].1)
  {
    if d == [] then None
    else
      KeysCons(d);
      if d[0].0 == k then Some(d[0].1) else Get(d[1..], k)
  }

  /** `d[k] = v`: overwrite the entry for `k` where it stands, or append one. */
  function Put<V>(d: Dict<V>, k: string, v: V): (r: Dict<V>)
    ensures Keys(r) == Keys(d) + {k}
    ensures Get(r, k) == Some(v)
    ensures forall k' :: k' != k ==> Get(r, k') == Get(d, k')
    ensures |r| == if k in Keys(d) then |d| else |d| + 1
  {
    if d == [] then
      var r := [(k, v)];
      KeysCons(r);
      r
    else
      KeysCons(d);
      if d[0].0 == k then
        var r := [(k, v)] + d[1..];
        assert r[1..] == d[1..];
        KeysCons(r);
        r
      else
        var r := [d[0]] + Put(d[1..], k, v);
        assert r[1..] == Put(d[1..], k, v);
        KeysCons(r);
        r
  }

  /** Assignment keeps the keys distinct. */
  lemma {:induction false} PutDistinct<V>(d: Dict<V>, k: string, v: V)
    requires DistinctKeys(d)
    ensures DistinctKeys(Put(d, k, v))
    decreases |d|
  {
    if d != [] && d[0].0 != k {
      PutDistinct(d[1..], k, v);
      var rest := Put(d[1..], k, v);
      var r := Put(d, k, v);
      assert r == [d[0]] + rest;
      forall j | 0 <= j < |rest| ensures rest[j].0 != d[0].0 {
        assert rest[j].0 in Keys(rest);
        if rest[j].0 != k {
          var i :| 0 <= i < |d[1..]| && d[1..][i].0 == rest[j].0;
          assert d[i + 1].0 == rest[j].0;
        }
      }
      forall i, j | 0 <= i < j < |r| ensures r[i].0 != r[j].0 {
        assert r[j] == rest[j - 1];
        if i > 0 {
          assert r[i] == rest[i - 1];
        }
      }
    }
  }

  /** `d.values()` in insertion order. */
  function Values<V>(d: Dict<V>): (r: seq<V>)
    ensures |r| == |d|
    ensures forall i :: 0 <= i < |d| ==> r[i] == d[i].1
  {
    if d == [] then [] else [d[0].1] + Values(d[1..])
  }

  /** Every value of the dict belongs to an entry whose key can be looked up. */
  lemma {:induction false} GetEntry<V>(d: Dict<V>, i: nat)
    requires DistinctKeys(d) && i < |d|
    ensures Get(d, d[i].0) == Some(d[i].1)
    decreases |d|
  {
    if i > 0 {
      assert d[0].0 != d[i].0;
      assert d[1..][i - 1] == d[i];
      GetEntry(d[1..], i - 1);
    }
  }
}
