/** A JavaScript plain object (`Record<string, V>`) as the ordered list of its
    entries, so that `Object.keys` / `Object.entries` order is part of the
    model. Keys are distinct in every object JavaScript can build. */
module Records {
  import opened Wrappers

  type Record<V> = seq<(string, V)>

  /** `Object.keys(r)`, in insertion order. */
  function Keys<V>(r: Record<V>): (ks: seq<string>)
    ensures |ks| == |r|
    ensures forall i :: 0 <= i < |r| ==> ks[i] == r[i].0
  {
    seq(|r|, i requires 0 <= i < |r| => r[i].0)
  }

  ghost predicate DistinctKeys<V>(r: Record<V>) {
    forall i, j :: 0 <= i < j < |r| ==> r[i].0 != r[j].0
  }

  /** `r[k]`: the value stored under `k`, or none (`undefined`). */
  function Get<V>(r: Record<V>, k: string): (v: Option<V>)
    ensures v.None? <==> k !in Keys(r)
  {
    if r == [] then None
    else if r[0].0 == k then Some(r[0].1)
    else
      assert Keys(r) == [r[0].0] + Keys(r[1..]);
      Get(r[1..], k)
  }

  /** What a lookup finds is the value of the first entry stored under the key. */
  lemma {:induction false} GetFindsStored<V>(r: Record<V>, k: string)
    ensures Get(r, k).Some? ==>
      exists i :: 0 <= i < |r| && r[i] == (k, Get(r, k).value) && forall j :: 0 <= j < i ==> r[j].0 != k
  {
    if r != [] && r[0].0 != k {
      GetFindsStored(r[1..], k);
      if Get(r, k).Some? {
        var i :| 0 <= i < |r[1..]| && r[1..][i] == (k, Get(r, k).value) && forall j :: 0 <= j < i ==> r[1..][j].0 != k;
        assert r[i + 1] == (k, Get(r, k).value);
      }
    }
  }

  /** `{ ...r, [k]: v }`: an existing key keeps its position and takes the new
      value; a new key is appended at the end. */
  function Set<V>(r: Record<V>, k: string, v: V): (r': Record<V>)
    ensures Get(r', k) == Some(v)
    ensures forall k' :: k' != k ==> Get(r', k') == Get(r, k')
    ensures |r'| == if k in Keys(r) then |r| else |r| + 1
    ensures forall i :: 0 <= i < |r| ==> r'[i].0 == r[i].0
    ensures k !in Keys(r) ==> r'[|r|] == (k, v)
  {
    if r == [] then [(k, v)]
    else if r[0].0 == k then [(k, v)] + r[1..]
    else
      assert Keys(r) == [r[0].0] + Keys(r[1..]);
      [r[0]] + Set(r[1..], k, v)
  }

  /** Setting one key keeps the keys of an object distinct. */
  lemma SetKeepsKeysDistinct<V>(r: Record<V>, k: string, v: V)
    requires DistinctKeys(r)
    ensures DistinctKeys(Set(r, k, v))
  {
    var r' := Set(r, k, v);
    forall i, j | 0 <= i < j < |r'| ensures r'[i].0 != r'[j].0 {
      if j == |r| {
        assert k !in Keys(r);
        assert Keys(r)[i] == r[i].0;
      }
    }
  }

  /** `{ ...r, ...p }`: the entries of `p` set one by one, in order. */
  function Spread<V>(r: Record<V>, p: Record<V>): (r': Record<V>)
    requires DistinctKeys(p)
    ensures forall k :: Get(r', k) == if k in Keys(p) then Get(p, k) else Get(r, k)
    decreases |p|
  {
    if p == [] then r
    else
      assert Keys(p) == [p[0].0] + Keys(p[1..]);
      assert p[0].0 !in Keys(p[1..]);
      Spread(Set(r, p[0].0, p[0].1), p[1..])
  }

  /** Spreading into an empty object yields the same entries (a shallow copy). */
  lemma SpreadCopies<V>(p: Record<V>)
    requires DistinctKeys(p)
    ensures Spread([], p) == p
  {
    CopyAppends([], p);
  }

  lemma {:induction false} CopyAppends<V>(r: Record<V>, p: Record<V>)
    requires DistinctKeys(r + p)
    ensures DistinctKeys(p)
    ensures Spread(r, p) == r + p
    decreases |p|
  {
    DistinctParts(r, p);
    if p != [] {
      var q, rest := r + [p[0]], p[1..];
      assert q + rest == r + p;
      CopyAppends(q, rest);
      SetAppendsNewKey(r, p[0].0, p[0].1);
      assert Spread(r, p) == Spread(q, rest);
    }
  }

  /** Distinct keys in `r + p` give distinct keys in `p`, none of them a key of `r`. */
  lemma DistinctParts<V>(r: Record<V>, p: Record<V>)
    requires DistinctKeys(r + p)
    ensures DistinctKeys(p)
    ensures forall j :: 0 <= j < |p| ==> p[j].0 !in Keys(r)
  {
    forall i, j | 0 <= i < j < |p| ensures p[i].0 != p[j].0 {
      assert (r + p)[|r| + i] == p[i] && (r + p)[|r| + j] == p[j];
    }
    forall i, j | 0 <= i < |r| && 0 <= j < |p| ensures r[i].0 != p[j].0 {
      assert (r + p)[i] == r[i] && (r + p)[|r| + j] == p[j];
    }
  }

  lemma SetAppendsNewKey<V>(r: Record<V>, k: string, v: V)
    requires k !in Keys(r)
    ensures Set(r, k, v) == r + [(k, v)]
  {
    var r' := Set(r, k, v);
    assert forall i :: 0 <= i < |r| ==> r'[i] == r[i] by {
      forall i | 0 <= i < |r| ensures r'[i] == r[i] {
        SetKeepsOtherEntries(r, k, v, i);
      }
    }
  }

  lemma {:induction false} SetKeepsOtherEntries<V>(r: Record<V>, k: string, v: V, i: nat)
    requires i < |r| && r[i].0 != k
    requires forall j :: 0 <= j < i ==> r[j].0 != k
    ensures Set(r, k, v)[i] == r[i]
  {
    if i > 0 {
      SetKeepsOtherEntries(r[1..], k, v, i - 1);
    }
  }
}
