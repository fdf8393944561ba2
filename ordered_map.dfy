/**
 * Python's insertion-ordered `dict`, as a sequence of key/value pairs with
 * distinct keys. Assigning to an existing key replaces its value where it
 * stands; assigning to a new key appends; `del` drops the pair.
 */
module OrderedMaps {
  import opened Wrappers

  /** No key appears twice. */
  predicate Distinct<K(==), V>(d: seq<(K, V)>) {
    forall i, j :: 0 <= i < j < |d| ==> d[i].0 != d[j].0
  }

  /** The keys, in insertion order (`list(d.keys())`). */
  function Keys<K, V>(d: seq<(K, V)>): (ks: seq<K>)
    ensures |ks| == |d| && forall i :: 0 <= i < |d| ==> ks[i] == d[i].0
  {
    seq(|d|, i requires 0 <= i < |d| => d[i].0)
  }

  /** The values, in insertion order (`list(d.values())`). */
  function Values<K, V>(d: seq<(K, V)>): (vs: seq<V>)
    ensures |vs| == |d| && forall i :: 0 <= i < |d| ==> vs[i] == d[i].1
  {
    seq(|d|, i requires 0 <= i < |d| => d[i].1)
  }

  /** The position of key `k`, if present. */
  function Position<K(==), V>(d: seq<(K, V)>, k: K): (r: Option<nat>)
    ensures r.Some? ==> r.value < |d| && d[r.value].0 == k
    ensures forall i :: 0 <= i < |d| && (r.None? || i < r.value) ==> d[i].0 != k
  {
    if |d| == 0 then None
    else if d[0].0 == k then Some(0)
    else match Position(d[1..], k)
      case None => None
      case Some(i) => Some(i + 1)
  }

  /** `k in d` */
  predicate HasKey<K(==), V>(d: seq<(K, V)>, k: K) {
    Position(d, k).Some?
  }

  /** `d.get(k)` */
  function Get<K(==), V>(d: seq<(K, V)>, k: K): Option<V> {
    match Position(d, k)
    case None => None
    case Some(i) => Some(d[i].1)
  }

  /** `d[k] = v` */
  function Put<K(==), V>(d: seq<(K, V)>, k: K, v: V): (r: seq<(K, V)>)
    ensures HasKey(d, k) ==> |r| == |d| && Keys(r) == Keys(d)
    ensures !HasKey(d, k) ==> r == d + [(k, v)]
  {
    match Position(d, k)
    case None => d + [(k, v)]
    case Some(i) => d[i := (k, v)]
  }

  /** `d.pop(k, None)`: removes the pair for `k`, if any. */
  function Remove<K(==), V>(d: seq<(K, V)>, k: K): (r: seq<(K, V)>)
    ensures |r| <= |d|
    ensures forall i :: 0 <= i < |r| ==> r[i] in d && r[i].0 != k
    ensures forall i :: 0 <= i < |d| && d[i].0 != k ==> d[i] in r
    decreases |d|
  {
    if |d| == 0 then []
    else if d[0].0 == k then Remove(d[1..], k)
    else [d[0]] + Remove(d[1..], k)
  }

  /** In a dictionary with distinct keys, lookup agrees with pair membership. */
  lemma GetIn<K, V>(d: seq<(K, V)>, k: K, v: V)
    requires Distinct(d)
    ensures Get(d, k) == Some(v) <==> (k, v) in d
  {
    if (k, v) in d {
      var j :| 0 <= j < |d| && d[j] == (k, v);
      var i := Position(d, k).value;
      assert i == j;
    }
  }

  lemma HasKeyIn<K, V>(d: seq<(K, V)>, k: K)
    ensures HasKey(d, k) <==> exists v :: (k, v) in d
  {
    if HasKey(d, k) {
      var i := Position(d, k).value;
      assert (k, d[i].1) in d;
    }
  }

  /** `k in d` is membership in the key list. */
  lemma HasKeyKeys<K, V>(d: seq<(K, V)>, k: K)
    ensures HasKey(d, k) <==> k in Keys(d)
  {
    if k in Keys(d) {
      var i :| 0 <= i < |d| && Keys(d)[i] == k;
      assert d[i].0 == k;
    }
  }

  /** After `d[k] = v` the keys are those of `d` and `k`. */
  lemma PutHasKey<K, V>(d: seq<(K, V)>, k: K, v: V, k': K)
    ensures HasKey(Put(d, k, v), k') <==> k' == k || HasKey(d, k')
  {
    HasKeyKeys(d, k');
    HasKeyKeys(Put(d, k, v), k');
    HasKeyKeys(d, k);
    HasKeyKeys(Put(d, k, v), k);
    if !HasKey(d, k) {
      assert Keys(d + [(k, v)]) == Keys(d) + [k];
    }
  }

  /** After `d[k] = v`, `k` maps to `v`, every other key keeps its value, and
      no key is duplicated. */
  lemma PutGet<K, V>(d: seq<(K, V)>, k: K, v: V, k': K)
    requires Distinct(d)
    ensures Distinct(Put(d, k, v))
    ensures Get(Put(d, k, v), k') == if k' == k then Some(v) else Get(d, k')
  {
    var r := Put(d, k, v);
    assert Distinct(r);
    if k' == k {
      GetIn(r, k, v);
    } else {
      assert forall w :: (k', w) in r <==> (k', w) in d;
      if Get(d, k').Some? {
        GetIn(d, k', Get(d, k').value);
        GetIn(r, k', Get(d, k').value);
      } else if Get(r, k').Some? {
        GetIn(r, k', Get(r, k').value);
        GetIn(d, k', Get(r, k').value);
      }
    }
  }

  /** Removal keeps keys distinct. */
  lemma {:induction false} RemoveDistinct<K, V>(d: seq<(K, V)>, k: K)
    requires Distinct(d)
    ensures Distinct(Remove(d, k))
    decreases |d|
  {
    if |d| > 0 {
      var t := Remove(d[1..], k);
      RemoveDistinct(d[1..], k);
      if d[0].0 != k {
        assert Remove(d, k) == [d[0]] + t;
        forall i | 0 <= i < |t|
          ensures t[i].0 != d[0].0
        {
          var j :| 0 <= j < |d[1..]| && d[1..][j] == t[i];
          assert d[j + 1] == t[i];
        }
      }
    }
  }

  /** Removal keeps keys distinct, drops `k` and keeps every other key. */
  lemma {:induction false} RemoveGet<K, V>(d: seq<(K, V)>, k: K, k': K)
    requires Distinct(d)
    ensures Distinct(Remove(d, k))
    ensures Get(Remove(d, k), k') == if k' == k then None else Get(d, k')
  {
    var r := Remove(d, k);
    RemoveDistinct(d, k);
    if Get(r, k').Some? {
      GetIn(r, k', Get(r, k').value);
      GetIn(d, k', Get(r, k').value);
    } else if k' != k && Get(d, k').Some? {
      GetIn(d, k', Get(d, k').value);
      GetIn(r, k', Get(d, k').value);
    }
  }

  /** Removing an absent key changes nothing. */
  lemma {:induction false} RemoveAbsent<K, V>(d: seq<(K, V)>, k: K)
    requires !HasKey(d, k)
    ensures Remove(d, k) == d
    decreases |d|
  {
    if |d| > 0 {
      assert d[0].0 != k;
      RemoveAbsent(d[1..], k);
      assert [d[0]] + d[1..] == d;
    }
  }

  /** In a dictionary, `del d[k]` of a stored key cuts the pair out where it
      stands: the pairs before and after it keep their order. */
  lemma {:induction false} RemoveCut<K, V>(d: seq<(K, V)>, k: K)
    requires Distinct(d) && HasKey(d, k)
    ensures Remove(d, k) == d[..Position(d, k).value] + d[Position(d, k).value + 1..]
    decreases |d|
  {
    DistinctTail(d);
    if d[0].0 == k {
      RemoveCutHead(d, k);
    } else {
      var p := Position(d[1..], k).value;
      RemoveCut(d[1..], k);
      RemoveCutLater(d, k, p);
    }
  }

  /** The stored key is the first: the rest is returned as it is. */
  lemma {:induction false} RemoveCutHead<K, V>(d: seq<(K, V)>, k: K)
    requires Distinct(d) && d != [] && d[0].0 == k
    ensures Remove(d, k) == d[1..]
  {
    var tail := d[1..];
    forall i | 0 <= i < |tail|
      ensures tail[i].0 != k
    {
      assert tail[i] == d[i + 1];
    }
    RemoveAbsent(tail, k);
  }

  /** The stored key is at `p` in the rest: the cut there carries over. */
  lemma {:induction false} RemoveCutLater<K, V>(d: seq<(K, V)>, k: K, p: nat)
    requires d != [] && d[0].0 != k && Position(d[1..], k) == Some(p)
    requires Remove(d[1..], k) == d[1..][..p] + d[1..][p + 1..]
    ensures Position(d, k) == Some(p + 1)
    ensures Remove(d, k) == d[..p + 1] + d[p + 2..]
  {
    assert Remove(d, k) == [d[0]] + Remove(d[1..], k);
    SliceAfterHead(d, p);
  }

  /** Cutting `p` out of the rest, then putting the head back, cuts `p + 1`
      out of the whole. */
  lemma {:induction false} SliceAfterHead<T>(d: seq<T>, p: nat)
    requires p + 1 < |d|
    ensures [d[0]] + (d[1..][..p] + d[1..][p + 1..]) == d[..p + 1] + d[p + 2..]
  {
    assert d[..p + 1] == [d[0]] + d[1..][..p];
    assert d[p + 2..] == d[1..][p + 1..];
  }

  /** The pairs after the first still have distinct keys. */
  lemma {:induction false} DistinctTail<K, V>(d: seq<(K, V)>)
    requires Distinct(d) && d != []
    ensures Distinct(d[1..])
  {
    var tail := d[1..];
    forall i, j | 0 <= i < j < |tail|
      ensures tail[i].0 != tail[j].0
    {
      assert tail[i] == d[i + 1] && tail[j] == d[j + 1];
    }
  }
}
