/** A JavaScript `Map`: a finite map that also remembers the order in which its keys were
    inserted. Setting an existing key keeps its place; deleting and setting it moves it last. */
module OrderedMaps {

  ghost predicate NoDup<T>(s: seq<T>) {
    forall i, j :: 0 <= i < j < |s| ==> s[i] != s[j]
  }

  /** `s` without the first occurrence of `k`. */
  function Without<T(==)>(s: seq<T>, k: T): seq<T> {
    if s == [] then []
    else if s[0] == k then s[1..]
    else [s[0]] + Without(s[1..], k)
  }

  lemma {:induction false} WithoutMembers<T>(s: seq<T>, k: T)
    requires NoDup(s)
    ensures NoDup(Without(s, k))
    ensures forall x | x in Without(s, k) :: x in s && x != k
    ensures forall x | x in s :: x in Without(s, k) || x == k
    ensures |Without(s, k)| == if k in s then |s| - 1 else |s|
  {
    if s != [] {
      WithoutMembers(s[1..], k);
      assert s == [s[0]] + s[1..];
      assert forall x :: x in s <==> x == s[0] || x in s[1..];
      if s[0] != k {
        var r := Without(s[1..], k);
        assert s[0] !in r;
        assert forall x :: x in [s[0]] + r <==> x == s[0] || x in r;
      }
    }
  }

  datatype OrderedMap<K(==), V> = OrderedMap(order: seq<K>, vals: map<K, V>) {

    ghost predicate Valid() {
      NoDup(order) && (forall k | k in order :: k in vals) && (forall k | k in vals :: k in order)
    }

    function Size(): nat { |order| }

    function Set(k: K, v: V): OrderedMap<K, V> {
      OrderedMap(if k in vals then order else order + [k], vals[k := v])
    }

    function Delete(k: K): OrderedMap<K, V> {
      if k in vals then OrderedMap(Without(order, k), vals - {k}) else this
    }

    lemma SetValid(k: K, v: V)
      requires Valid()
      ensures Set(k, v).Valid()
    {
      if k !in vals {
        assert forall x :: x in order + [k] <==> x in order || x == k;
      }
    }

    lemma DeleteValid(k: K)
      requires Valid()
      ensures Delete(k).Valid()
      ensures Delete(k).vals == vals - {k}
      ensures Delete(k).Size() == if k in vals then Size() - 1 else Size()
    {
      WithoutMembers(order, k);
    }
  }

  function EmptyMap<K(==), V>(): OrderedMap<K, V> { OrderedMap([], map[]) }

  /** The keys of `order` have strictly increasing ranks. */
  ghost predicate RankedBy<K>(order: seq<K>, rank: map<K, nat>) {
    && (forall i :: 0 <= i < |order| ==> order[i] in rank)
    && (forall i, j :: 0 <= i < j < |order| ==> rank[order[i]] < rank[order[j]])
  }

  lemma RankedCons<K>(k: K, r: seq<K>, rank: map<K, nat>)
    requires k in rank && RankedBy(r, rank)
    requires forall i | 0 <= i < |r| :: r[i] in rank && rank[k] < rank[r[i]]
    ensures RankedBy([k] + r, rank)
  {
  }

  lemma {:induction false} WithoutRanked<K>(order: seq<K>, k: K, rank: map<K, nat>)
    requires NoDup(order) && RankedBy(order, rank)
    ensures RankedBy(Without(order, k), rank)
  {
    if order != [] && order[0] != k {
      var rest := order[1..];
      WithoutRanked(rest, k, rank);
      WithoutMembers(rest, k);
      var r := Without(rest, k);
      forall i | 0 <= i < |r| ensures r[i] in rank && rank[order[0]] < rank[r[i]] {
        assert r[i] in rest;
        var j :| 0 <= j < |rest| && rest[j] == r[i];
        assert order[j + 1] == r[i];
      }
      RankedCons(order[0], r, rank);
    }
  }
}
