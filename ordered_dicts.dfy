/** Python dictionaries with string keys, which keep their insertion order: the
    relation data bag a client sends and the nested `OrderedDict` that groups it
    by prefix. */
module OrderedDicts {
  import opened PyValues

  /** A dict as its items in insertion order. */
  type Dict<V> = seq<(string, V)>

  /** No key appears twice, as in every Python dict. */
  ghost predicate UniqueKeys<V>(d: Dict<V>)
  {
    forall i, j :: 0 <= i < j < |d| ==> d[i].0 != d[j].0
  }

  /** The position of `k`, or -1 when `k` is not a key. */
  function IndexOf<V>(d: Dict<V>, k: string): (i: int)
    ensures -1 <= i < |d|
    ensures 0 <= i ==> d[i].0 == k && forall j :: 0 <= j < i ==> d[j].0 != k
    ensures i < 0 ==> forall j :: 0 <= j < |d| ==> d[j].0 != k
  {
    if d == [] then -1
    else if d[0].0 == k then 0
    else
      var j := IndexOf(d[1..], k);
      if j < 0 then -1 else j + 1
  }

  /** `k in d`. */
  predicate Has<V>(d: Dict<V>, k: string)
  {
    0 <= IndexOf(d, k)
  }

  /** `d.get(k)`: the value of `k`, or `None`. */
  function Get<V>(d: Dict<V>, k: string): (r: Option<V>)
    ensures r.Some? <==> Has(d, k)
  {
    var i := IndexOf(d, k);
    if i < 0 then None else Some(d[i].1)
  }

  /** Without repeated keys, every item is what its key looks up. */
  lemma GetAt<V>(d: Dict<V>, j: int)
    requires UniqueKeys(d) && 0 <= j < |d|
    ensures Get(d, d[j].0) == Some(d[j].1)
  {
  }

  /** The keys, in order. */
  function Keys<V>(d: Dict<V>): (ks: seq<string>)
    ensures |ks| == |d| && forall i :: 0 <= i < |d| ==> ks[i] == d[i].0
  {
    seq(|d|, i requires 0 <= i < |d| => d[i].0)
  }

  /** `d.keys()` lists exactly the keys of `d`, each once when the keys are
      unique, in insertion order. */
  lemma KeysOrder<V>(d: Dict<V>)
    ensures forall k :: k in Keys(d) <==> Has(d, k)
    ensures UniqueKeys(d) ==> forall i, j :: 0 <= i < j < |Keys(d)| ==> Keys(d)[i] != Keys(d)[j]
  {
    var ks := Keys(d);
    forall k ensures k in ks <==> Has(d, k) {
      if k in ks {
        var i :| 0 <= i < |ks| && ks[i] == k;
        assert d[i].0 == k;
      }
      if Has(d, k) {
        var i := IndexOf(d, k);
        assert ks[i] == k;
      }
    }
  }

  /** `d[k] = v`: a present key keeps its place and takes the new value, a new
      key goes last. */
  function Set<V>(d: Dict<V>, k: string, v: V): (r: Dict<V>)
    ensures UniqueKeys(d) ==> UniqueKeys(r)
    ensures Get(r, k) == Some(v)
    ensures forall k' :: k' != k ==> Get(r, k') == Get(d, k')
    ensures Has(d, k) ==> Keys(r) == Keys(d)
    ensures !Has(d, k) ==> r == d + [(k, v)]
  {
    var i := IndexOf(d, k);
    if i < 0 then
      var r := d + [(k, v)];
      assert forall m :: 0 <= m < |d| ==> r[m] == d[m];
      assert r[|d|].0 == k;
      assert IndexOf(r, k) == |d|;
      forall k' | k' != k ensures Get(r, k') == Get(d, k') {
        if Has(d, k') {
          var j := IndexOf(d, k');
          assert r[j] == d[j];
          assert IndexOf(r, k') == j;
        } else {
          assert IndexOf(r, k') < 0;
        }
      }
      r
    else
      var r := d[i := (k, v)];
      assert Keys(r) == Keys(d);
      r
  }

  /** `d.pop(k)` for a key that is present: the item is removed, the others keep
      their order. */
  function Pop<V>(d: Dict<V>, k: string): (r: Dict<V>)
    requires UniqueKeys(d) && Has(d, k)
    ensures UniqueKeys(r) && |r| == |d| - 1
    ensures Get(r, k) == None
    ensures forall k' :: k' != k ==> Get(r, k') == Get(d, k')
  {
    var i := IndexOf(d, k);
    var r := d[..i] + d[i + 1..];
    assert forall j :: 0 <= j < |r| ==> r[j] == if j < i then d[j] else d[j + 1];
    forall k' | k' != k ensures Get(r, k') == Get(d, k') {
      if Has(d, k') {
        var j := IndexOf(d, k');
        assert r[if j < i then j else j - 1] == d[j];
        GetAt(r, if j < i then j else j - 1);
      }
    }
    r
  }

  /** `d[to] = d[from]` followed by `d.pop(from)`: the value moves to a new key. */
  function Move<V>(d: Dict<V>, from: string, to: string): (r: Dict<V>)
    requires UniqueKeys(d) && Has(d, from) && from != to
    ensures UniqueKeys(r)
    ensures forall k :: Get(r, k) == if k == to then Get(d, from) else if k == from then None else Get(d, k)
  {
    Pop(Set(d, to, Get(d, from).value), from)
  }

  /** Creating a key with a placeholder and then setting it is the same as setting
      it once: the pattern `if k not in d: d[k] = {}` followed by `d[k] = v`. */
  lemma SetOverNew<V>(d: Dict<V>, k: string, placeholder: V, v: V)
    requires !Has(d, k)
    ensures Set(Set(d, k, placeholder), k, v) == Set(d, k, v)
  {
    var created := Set(d, k, placeholder);
    assert created == d + [(k, placeholder)];
    assert IndexOf(created, k) == |d|;
    assert created[|d| := (k, v)] == d + [(k, v)];
  }

  /** Dropping the last item of a dict without repeated keys leaves one without
      that item's key. */
  lemma UniqueInit<V>(d: Dict<V>)
    requires UniqueKeys(d) && d != []
    ensures UniqueKeys(d[..|d| - 1]) && !Has(d[..|d| - 1], d[|d| - 1].0)
  {
    var init := d[..|d| - 1];
    forall j | 0 <= j < |init| ensures init[j] == d[j] && init[j].0 != d[|d| - 1].0 {
    }
  }

  /** Looking up a key in a dict extended by a new key. */
  lemma GetSnoc<V>(d: Dict<V>, k: string, v: V, k': string)
    requires !Has(d, k)
    ensures Get(d + [(k, v)], k') == if k' == k then Some(v) else Get(d, k')
  {
    assert Set(d, k, v) == d + [(k, v)];
  }
}
