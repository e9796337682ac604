/** A Python dict, which iterates in insertion order, as the list of its (key, value)
    items. Assigning to an existing key changes its value and keeps its position. */
module OrderedDict {
  import opened Seqs

  type Dict<K, V> = seq<(K, V)>

  function Keys<K, V>(d: Dict<K, V>): (ks: seq<K>)
    ensures |ks| == |d|
    ensures forall i :: 0 <= i < |d| ==> ks[i] == d[i].0
  {
    if d == [] then [] else [d[0].0] + Keys(d[1..])
  }

  function Values<K, V>(d: Dict<K, V>): (vs: seq<V>)
    ensures |vs| == |d|
    ensures forall i :: 0 <= i < |d| ==> vs[i] == d[i].1
  {
    if d == [] then [] else [d[0].1] + Values(d[1..])
  }

  /** d[k] for a key that is present. */
  function Get<K(==), V>(d: Dict<K, V>, k: K): (v: V)
    requires k in Keys(d)
  {
    if d[0].0 == k then d[0].1 else Get(d[1..], k)
  }

  /** d[k] = v. */
  function Put<K(==), V>(d: Dict<K, V>, k: K, v: V): (updated: Dict<K, V>)
  {
    if d == [] then [(k, v)]
    else if d[0].0 == k then [(k, v)] + d[1..]
    else [d[0]] + Put(d[1..], k, v)
  }

  /** After d[k] = v an existing key keeps its position and a new key goes last; k
      holds v and every other key keeps its value. */
  lemma {:induction false} PutFacts<K, V>(d: Dict<K, V>, k: K, v: V)
    ensures Keys(Put(d, k, v)) == if k in Keys(d) then Keys(d) else Keys(d) + [k]
    ensures k in Keys(Put(d, k, v)) && Get(Put(d, k, v), k) == v
    ensures forall k' :: k' in Keys(d) && k' != k ==> Get(Put(d, k, v), k') == Get(d, k')
  {
    if d != [] && d[0].0 != k {
      PutFacts(d[1..], k, v);
    }
  }

  /** d[k] = v leaves every other key present with its value. */
  lemma PutKeepsOthers<K, V>(d: Dict<K, V>, k: K, v: V, other: K)
    requires other in Keys(d) && other != k
    ensures other in Keys(Put(d, k, v)) && Get(Put(d, k, v), other) == Get(d, other)
  {
    PutFacts(d, k, v);
    var ks := Keys(d);
    assert Keys(Put(d, k, v)) == if k in ks then ks else ks + [k];
  }

  /** Assigning v to k changes the total of the values by v minus what k held. */
  lemma {:induction false} PutSum<K>(d: Dict<K, int>, k: K, v: int)
    ensures Sum(Values(Put(d, k, v))) == Sum(Values(d)) - (if k in Keys(d) then Get(d, k) else 0) + v
  {
    if d == [] {
    } else if d[0].0 == k {
      assert Values(Put(d, k, v)) == [v] + Values(d[1..]);
    } else {
      PutSum(d[1..], k, v);
      assert Values(Put(d, k, v)) == [d[0].1] + Values(Put(d[1..], k, v));
    }
  }

  /** With distinct keys, looking up the key of entry j gives the value of entry j. */
  lemma {:induction false} GetAt<K, V>(d: Dict<K, V>, j: nat)
    requires Distinct(Keys(d))
    requires j < |d|
    ensures Get(d, d[j].0) == d[j].1
  {
    if j > 0 {
      assert Keys(d)[0] != Keys(d)[j];
      assert Keys(d[1..]) == Keys(d)[1..];
      GetAt(d[1..], j - 1);
    }
  }
}
