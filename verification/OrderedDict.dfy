/** Python's insertion-ordered `dict` (and `OrderedDict`): the keys in order, beside the mapping. */
module OrderedDict {

  datatype Option<+T> = None | Some(value: T)

  predicate Distinct<T(==)>(xs: seq<T>) {
    forall i, j :: 0 <= i < j < |xs| ==> xs[i] != xs[j]
  }

  /** The sequence with every occurrence of `x` taken out. */
  function Without<T(==,!new)>(xs: seq<T>, x: T): (r: seq<T>)
    ensures forall y :: y in r <==> y in xs && y != x
    ensures |r| <= |xs|
    ensures x !in xs ==> r == xs
    ensures Distinct(xs) ==> Distinct(r) && (x in xs ==> |r| == |xs| - 1)
  {
    if xs == [] then []
    else
      var rest := Without(xs[1..], x);
      assert Distinct(xs) ==> Distinct(xs[1..]) && xs[0] !in xs[1..];
      assert forall y :: y in xs <==> y == xs[0] || y in xs[1..];
      if xs[0] == x then rest else [xs[0]] + rest
  }

  lemma ConcatAssoc<T>(a: seq<T>, b: seq<T>, c: seq<T>)
    ensures a + b + c == a + (b + c)
  {
  }

  lemma ConcatEmpty<T>(a: seq<T>)
    ensures a + [] == a && [] + a == a
  {
  }

  datatype Dict<K(==,!new), V> = Dict(keys: seq<K>, at: map<K, V>) {

    ghost predicate Valid() {
      Distinct(keys) && forall k :: k in keys <==> k in at
    }

    /** `d[k] = v`: an existing key keeps its place, a new one goes last. */
    function Put(k: K, v: V): (d: Dict<K, V>)
      ensures Valid() ==> d.Valid()
      ensures d.at == at[k := v]
    {
      Dict(if k in at then keys else keys + [k], at[k := v])
    }

    /** `d.pop(k, None)`. */
    function Remove(k: K): (d: Dict<K, V>)
      ensures Valid() ==> d.Valid()
      ensures d.at == at - {k}
    {
      Dict(Without(keys, k), at - {k})
    }

    /** `d.get(k)`. */
    function Get(k: K): (r: Option<V>)
      ensures r.Some? <==> k in at
    {
      if k in at then Some(at[k]) else None
    }
  }
}
