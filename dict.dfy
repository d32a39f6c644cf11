/** A Python `dict` with string keys: its entries in insertion order. Assigning to a
    key that is present replaces the value where it stands; a new key goes last. */
module OrderedDict {
  import opened Optional

  type Dict<V> = seq<(string, V)>

  /** `list(d.keys())` */
  function Keys<V>(d: Dict<V>): (ks: seq<string>)
    ensures |ks| == |d|
    ensures forall i :: 0 <= i < |d| ==> ks[i] == d[i].0
  {
    if d == [] then [] else [d[0].0] + Keys(d[1..])
  }

  /** No key appears twice, as in every Python dict. */
  predicate Distinct<V>(d: Dict<V>) {
    forall i, j :: 0 <= i < j < |d| ==> d[i].0 != d[j].0
  }

  /** `d.get(k)` */
  function Get<V>(d: Dict<V>, k: string): (r: Option<V>)
    ensures r.Some? <==> k in Keys(d)
    ensures r.Some? ==> (k, r.value) in d
  {
    if d == [] then None else if d[0].0 == k then Some(d[0].1) else Get(d[1..], k)
  }

  /** `d[k] = v` */
  function Put<V>(d: Dict<V>, k: string, v: V): Dict<V> {
    if d == [] then [(k, v)]
    else if d[0].0 == k then [(k, v)] + d[1..]
    else [d[0]] + Put(d[1..], k, v)
  }

  lemma {:induction false} PutGet<V>(d: Dict<V>, k: string, v: V, k': string)
    ensures Get(Put(d, k, v), k') == if k' == k then Some(v) else Get(d, k')
  {
    if d != [] && d[0].0 != k {
      PutGet(d[1..], k, v, k');
    }
  }

  /** A present key keeps its place; a new key is appended. */
  lemma {:induction false} PutKeys<V>(d: Dict<V>, k: string, v: V)
    ensures Keys(Put(d, k, v)) == if k in Keys(d) then Keys(d) else Keys(d) + [k]
  {
    if d != [] && d[0].0 != k {
      PutKeys(d[1..], k, v);
      assert Keys(d) == [d[0].0] + Keys(d[1..]);
    }
  }

  /** On a key that is not present, `Put` appends the entry. */
  lemma {:induction false} PutAbsent<V>(d: Dict<V>, k: string, v: V)
    requires k !in Keys(d)
    ensures Put(d, k, v) == d + [(k, v)]
  {
    if d != [] {
      assert d[0].0 in Keys(d);
      assert Keys(d) == [d[0].0] + Keys(d[1..]);
      PutAbsent(d[1..], k, v);
    }
  }

  /** Every entry after `Put` is the new one or an old one. */
  lemma {:induction false} PutEntries<V>(d: Dict<V>, k: string, v: V)
    ensures forall e :: e in Put(d, k, v) ==> e == (k, v) || e in d
  {
    if d != [] && d[0].0 != k {
      PutEntries(d[1..], k, v);
    }
  }

  lemma PutDistinct<V>(d: Dict<V>, k: string, v: V)
    requires Distinct(d)
    ensures Distinct(Put(d, k, v))
  {
    var d' := Put(d, k, v);
    PutKeys(d, k, v);
    var ks, ks' := Keys(d), Keys(d');
    forall i, j | 0 <= i < j < |d'| ensures d'[i].0 != d'[j].0 {
      assert ks'[i] == d'[i].0 && ks'[j] == d'[j].0;
      if k !in ks && j == |ks| {
        assert ks[i] == d[i].0;
      } else {
        assert ks[i] == d[i].0 && ks[j] == d[j].0;
      }
    }
  }

  /** In a dict whose keys are distinct, `len(d)` is the number of keys. */
  lemma DistinctKeysCount<V>(d: Dict<V>)
    requires Distinct(d)
    ensures |set e | e in d :: e.0| == |d|
  {
    if d != [] {
      DistinctTail(d);
      DistinctKeysCount(d[1..]);
      var rest := set e | e in d[1..] :: e.0;
      assert (set e | e in d :: e.0) == {d[0].0} + rest;
      assert d[0].0 !in rest;
    }
  }

  lemma DistinctTail<V>(d: Dict<V>)
    requires Distinct(d) && d != []
    ensures Distinct(d[1..])
  {
    forall i, j | 0 <= i < j < |d| - 1 ensures d[1..][i].0 != d[1..][j].0 {
      assert d[1..][i] == d[i + 1] && d[1..][j] == d[j + 1];
    }
  }
}

/** The values the analyses produce: what `json.loads` yields and what the service
    layer stores (numbers are integers here). */
module Json {
  import opened OrderedDict

  datatype Json =
    | Null
    | Bool(b: bool)
    | Num(n: int)
    | Str(s: string)
    | Arr(items: seq<Json>)
    | Obj(members: Dict<Json>)
}
