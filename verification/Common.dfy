/** Definitions shared by several components: an option type and facts about set cardinality. */
module Common {

  datatype Option<+T> = None | Some(value: T)

  function Min(a: int, b: int): int {
    if a <= b then a else b
  }

  function Max(a: int, b: int): int {
    if a >= b then a else b
  }

  /** The values a map takes on a set of keys. */
  function Image<K, V>(m: map<K, V>, keys: set<K>): set<V>
    requires keys <= m.Keys
  {
    set k | k in keys :: m[k]
  }

  ghost predicate Injective<K, V>(m: map<K, V>) {
    forall k, l :: k in m && l in m && m[k] == m[l] ==> k == l
  }

  /** An injective map sends a set of keys to a set of values of the same size. */
  lemma {:induction false} ImageSize<K, V>(m: map<K, V>, keys: set<K>)
    requires keys <= m.Keys && Injective(m)
    ensures |Image(m, keys)| == |keys|
    decreases keys
  {
    if keys != {} {
      var k :| k in keys;
      ImageSize(m, keys - {k});
      assert Image(m, keys) == Image(m, keys - {k}) + {m[k]};
    }
  }

  /** The elements of a sequence. */
  function Elements<T>(s: seq<T>): set<T> {
    set x | x in s
  }

  predicate Distinct<T(==)>(s: seq<T>) {
    forall i, j :: 0 <= i < j < |s| ==> s[i] != s[j]
  }

  lemma ElementsInit<T>(s: seq<T>)
    requires s != []
    ensures Elements(s) == Elements(s[..|s| - 1]) + {s[|s| - 1]}
    ensures Distinct(s) ==> s[|s| - 1] !in Elements(s[..|s| - 1]) && Distinct(s[..|s| - 1])
  {
  }

  lemma ElementsTail<T>(s: seq<T>)
    requires s != []
    ensures Elements(s) == {s[0]} + Elements(s[1..])
    ensures Distinct(s) ==> s[0] !in Elements(s[1..]) && Distinct(s[1..])
  {
  }

  /** A sequence without repetitions is as long as its set of elements is large. */
  lemma {:induction false} DistinctSize<T>(s: seq<T>)
    requires Distinct(s)
    ensures |Elements(s)| == |s|
  {
    if s != [] {
      ElementsInit(s);
      DistinctSize(s[..|s| - 1]);
    }
  }

  /** The numbers below `k`. */
  function Below(k: nat): (r: set<nat>)
    ensures forall i: nat :: i in r <==> i < k
  {
    if k == 0 then {} else Below(k - 1) + {k - 1}
  }

  /** Removing a present key shrinks a map by one. */
  lemma MapRemoveSize<K, V>(m: map<K, V>, k: K)
    requires k in m
    ensures |m - {k}| == |m| - 1
  {
    assert (m - {k}).Keys == m.Keys - {k};
    assert |m| == |m.Keys| && |m - {k}| == |(m - {k}).Keys|;
  }

  /** Storing under a key grows a map by one exactly when the key is new. */
  lemma MapStoreSize<K, V>(m: map<K, V>, k: K, v: V)
    ensures |m[k := v]| == if k in m then |m| else |m| + 1
  {
    assert m[k := v].Keys == m.Keys + {k};
    assert |m| == |m.Keys| && |m[k := v]| == |m[k := v].Keys|;
  }

  /** From step `i` on some step sets, and no later one clears, before `m`. */
  ghost predicate LastSet(sets: int -> bool, clears: int -> bool, i: int, m: int) {
    exists j :: i <= j < m && sets(j) && forall k :: j < k < m ==> !clears(k)
  }

  /**
   A property that every step sets, clears or keeps: not holding at `i`, it holds at `m` if and only if
   some step in between sets it and no later step clears it.
  */
  lemma {:induction false} SetAndNotCleared(holds: int -> bool, sets: int -> bool, clears: int -> bool, i: int, m: int)
    requires i <= m && !holds(i)
    requires forall k :: i <= k < m ==> (holds(k + 1) <==> sets(k) || (holds(k) && !clears(k)))
    ensures holds(m) <==> LastSet(sets, clears, i, m)
    decreases m - i
  {
    if i < m {
      SetAndNotCleared(holds, sets, clears, i, m - 1);
      assert holds(m - 1 + 1) <==> sets(m - 1) || (holds(m - 1) && !clears(m - 1));
    }
  }
}
