/**
 * Python dicts as association lists.  A `Dict<V>` lists its entries in
 * insertion order, as Python 3 dicts iterate them; every operation below
 * is the value-level counterpart of the dict operation named beside it.
 */
module Dicts {
  import opened Wrappers

  type Dict<V> = seq<(string, V)>

  /** list(d): the keys in iteration order. */
  function Keys<V>(d: Dict<V>): seq<string> {
    seq(|d|, i requires 0 <= i < |d| => d[i].0)
  }

  /** The keys of a non-empty dict: its first key, then the keys of the rest. */
  lemma KeysTail<V>(d: Dict<V>)
    requires d != []
    ensures forall k :: k in Keys(d) <==> k == d[0].0 || k in Keys(d[1..])
  {
    assert Keys(d) == [d[0].0] + Keys(d[1..]);
  }

  /** No key occurs twice: every dict Python builds has this shape. */
  predicate Unique<V>(d: Dict<V>) {
    forall i, j :: 0 <= i < j < |d| ==> d[i].0 != d[j].0
  }

  /** d.get(k): the value of the first entry with key k. */
  function Get<V>(d: Dict<V>, k: string): (r: Option<V>)
    ensures r.None? <==> k !in Keys(d)
    ensures r.Some? ==> (k, r.value) in d
  {
    if d == [] then None
    else if d[0].0 == k then
      assert Keys(d)[0] == k;
      Some(d[0].1)
    else
      KeysTail(d);
      Get(d[1..], k)
  }

  /** d[k] = v: an existing key keeps its place, a new key goes last. */
  function Set<V>(d: Dict<V>, k: string, v: V): (r: Dict<V>)
    ensures Get(r, k) == Some(v)
    ensures forall k' :: k' != k ==> Get(r, k') == Get(d, k')
  {
    if d == [] then [(k, v)]
    else if d[0].0 == k then [(k, v)] + d[1..]
    else [d[0]] + Set(d[1..], k, v)
  }

  /** The keys after d[k] = v: unchanged for an existing key, k appended for a new one. */
  lemma {:induction false} SetKeys<V>(d: Dict<V>, k: string, v: V)
    ensures Keys(Set(d, k, v)) == if k in Keys(d) then Keys(d) else Keys(d) + [k]
  {
    if d != [] {
      KeysTail(d);
      KeysCons(d[0], d[1..]);
      assert [d[0]] + d[1..] == d;
      if d[0].0 == k {
        KeysCons((k, v), d[1..]);
      } else {
        var rest := Set(d[1..], k, v);
        SetKeys(d[1..], k, v);
        KeysCons(d[0], rest);
      }
    }
  }

  lemma KeysCons<V>(e: (string, V), t: Dict<V>)
    ensures Keys([e] + t) == [e.0] + Keys(t)
  {
    var l := [e] + t;
    forall i | 0 <= i < |l| ensures Keys(l)[i] == ([e.0] + Keys(t))[i] {
      if i > 0 {
        assert l[i] == t[i - 1];
      }
    }
  }

  /** del d[k], for a key that is present (callers check first). */
  function Del<V>(d: Dict<V>, k: string): (r: Dict<V>)
    ensures Get(r, k) == None
    ensures forall k' :: k' != k ==> Get(r, k') == Get(d, k')
    ensures forall e :: e in r ==> e in d && e.0 != k
  {
    if d == [] then []
    else if d[0].0 == k then Del(d[1..], k)
    else
      var rest := Del(d[1..], k);
      assert Keys([d[0]] + rest) == [d[0].0] + Keys(rest);
      [d[0]] + rest
  }

  /** d.update(e): the entries of e, in order, assigned into d. */
  function Update<V>(d: Dict<V>, e: Dict<V>): (r: Dict<V>)
    ensures forall k :: k !in Keys(e) ==> Get(r, k) == Get(d, k)
    ensures Unique(e) ==> forall k :: k in Keys(e) ==> Get(r, k) == Get(e, k)
    decreases |e|
  {
    if e == [] then d
    else
      KeysTail(e);
      assert Unique(e) ==> Unique(e[1..]) && e[0].0 !in Keys(e[1..]);
      Update(Set(d, e[0].0, e[0].1), e[1..])
  }

  /** Every entry of d[k] = v is an entry of d or the new one. */
  lemma {:induction false} SetEntries<V>(d: Dict<V>, k: string, v: V)
    ensures forall e :: e in Set(d, k, v) ==> e in d || e == (k, v)
  {
    if d != [] && d[0].0 != k {
      SetEntries(d[1..], k, v);
    }
  }

  /** Assigning a new key appends its entry. */
  lemma {:induction false} SetAppends<V>(d: Dict<V>, k: string, v: V)
    requires k !in Keys(d)
    ensures Set(d, k, v) == d + [(k, v)]
  {
    if d != [] {
      KeysTail(d);
      var tail := d[1..];
      SetAppends(tail, k, v);
      calc {
        Set(d, k, v);
        [d[0]] + Set(tail, k, v);
        [d[0]] + (tail + [(k, v)]);
        { assert d == [d[0]] + tail; }
        d + [(k, v)];
      }
    }
  }

  lemma SetKeepsUnique<V>(d: Dict<V>, k: string, v: V)
    requires Unique(d)
    ensures Unique(Set(d, k, v))
  {
    var r := Set(d, k, v);
    SetKeys(d, k, v);
    forall i, j | 0 <= i < j < |r| ensures r[i].0 != r[j].0 {
      assert Keys(r)[i] == r[i].0 && Keys(r)[j] == r[j].0;
      if k !in Keys(d) {
        assert Keys(r) == Keys(d) + [k];
      } else {
        assert Keys(r) == Keys(d);
        assert Keys(d)[i] == d[i].0 && Keys(d)[j] == d[j].0;
      }
    }
  }

  lemma DelKeepsUnique<V>(d: Dict<V>, k: string)
    requires Unique(d)
    ensures Unique(Del(d, k))
  {
    if d != [] {
      DelKeepsUnique(d[1..], k);
      var rest := Del(d[1..], k);
      if d[0].0 != k {
        forall e | e in rest ensures e.0 != d[0].0 {
          assert e in d[1..];
        }
      }
    }
  }
}
