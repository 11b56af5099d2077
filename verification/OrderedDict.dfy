/** A dictionary that remembers the order in which its keys were first put. */
module OrderedDict {
  import opened Common

  datatype Dict<K, V> = Dict(order: seq<K>, items: map<K, V>)
  {
    ghost predicate Valid() {
      Distinct(order) && (forall k | k in order :: k in items) && (forall k | k in items :: k in order)
    }
  }

  function Empty<K, V>(): Dict<K, V> {
    Dict([], map[])
  }

  function Without<K(==)>(s: seq<K>, k: K): seq<K> {
    if s == [] then [] else if s[0] == k then Without(s[1..], k) else [s[0]] + Without(s[1..], k)
  }

  /** Replacing a value keeps the key's place; a new key goes to the end. */
  function Put<K(==), V>(d: Dict<K, V>, k: K, v: V): Dict<K, V> {
    Dict(if k in d.items then d.order else d.order + [k], d.items[k := v])
  }

  function Remove<K(==), V>(d: Dict<K, V>, k: K): Dict<K, V> {
    if k in d.items then Dict(Without(d.order, k), d.items - {k}) else d
  }

  lemma {:induction false} WithoutAbsent<K>(s: seq<K>, k: K)
    requires k !in s
    ensures Without(s, k) == s
  {
    if s == [] {
    } else {
      WithoutAbsent(s[1..], k);
    }
  }

  /** In a sequence without repeats exactly the one occurrence goes, and the rest keeps its order. */
  lemma {:induction false} WithoutAt<K>(s: seq<K>, i: nat)
    requires Distinct(s) && i < |s|
    ensures Without(s, s[i]) == s[..i] + s[i + 1..]
  {
    if i == 0 {
      WithoutAbsent(s[1..], s[0]);
    } else {
      WithoutAt(s[1..], i - 1);
      assert s[1..][..i - 1] == s[1..i];
      assert s[1..][i..] == s[i + 1..];
      assert [s[0]] + s[1..i] == s[..i];
    }
  }

  lemma PutValid<K, V>(d: Dict<K, V>, k: K, v: V)
    requires d.Valid()
    ensures Put(d, k, v).Valid()
    ensures |Put(d, k, v).order| == |d.order| + (if k in d.items then 0 else 1)
  {
  }

  /** A known key keeps its place, a new one goes last; the value is the new one, and all others stay. */
  lemma PutPlaces<K, V>(d: Dict<K, V>, k: K, v: V)
    ensures k in d.items ==> Put(d, k, v).order == d.order
    ensures k !in d.items ==> Put(d, k, v).order == d.order + [k]
    ensures k in Put(d, k, v).items && Put(d, k, v).items[k] == v && Put(d, k, v).items - {k} == d.items - {k}
  {
  }

  lemma RemoveValid<K, V>(d: Dict<K, V>, k: K)
    requires d.Valid()
    ensures Remove(d, k).Valid() && k !in Remove(d, k).items
    ensures |Remove(d, k).order| == |d.order| - (if k in d.items then 1 else 0)
  {
    if k in d.items {
      var i :| 0 <= i < |d.order| && d.order[i] == k;
      WithoutAt(d.order, i);
    }
  }

  /** Taking out what was just put leaves what taking it out at once would have left. */
  lemma RemovePut<K, V>(d: Dict<K, V>, k: K, v: V)
    requires d.Valid()
    ensures Remove(Put(d, k, v), k) == Remove(d, k)
  {
    if k !in d.items {
      PutValid(d, k, v);
      WithoutAt(d.order + [k], |d.order|);
      assert (d.order + [k])[..|d.order|] == d.order;
      assert d.items[k := v] - {k} == d.items;
    } else {
      assert d.items[k := v] - {k} == d.items - {k};
    }
  }
}
