/** Sequence helpers standing for the JavaScript built-ins the engine leans on:
    `[...new Set(xs)]`, `Array.prototype.filter` and the stable
    `Array.prototype.sort` with a numeric comparator. */
module Seqs {

  /** No element occurs twice. */
  predicate Distinct<T(==)>(s: seq<T>) {
    forall i, j | 0 <= i < j < |s| :: s[i] != s[j]
  }

  /** `[...new Set(s)]`: the elements of `s` in order of first occurrence, each once. */
  function Dedup<T(==,!new)>(s: seq<T>): (r: seq<T>)
    ensures Distinct(r)
    ensures forall x :: x in r <==> x in s
    ensures |r| <= |s|
  {
    if s == [] then []
    else
      var d := Dedup(s[..|s| - 1]);
      assert s == s[..|s| - 1] + [s[|s| - 1]];
      if s[|s| - 1] in d then d else d + [s[|s| - 1]]
  }

  /** On a sequence without repetitions `new Set` changes nothing. */
  lemma {:induction false} DedupOfDistinct<T(!new)>(s: seq<T>)
    requires Distinct(s)
    ensures Dedup(s) == s
  {
    if s != [] {
      DedupOfDistinct(s[..|s| - 1]);
      assert s[|s| - 1] !in s[..|s| - 1];
      assert s == s[..|s| - 1] + [s[|s| - 1]];
    }
  }

  /** `s.filter(p)`: the elements satisfying `p`, in order. */
  function Filter<T(!new)>(s: seq<T>, p: T -> bool): (r: seq<T>)
    ensures |r| <= |s|
    ensures forall x :: x in r <==> x in s && p(x)
  {
    if s == [] then []
    else
      assert s == s[..|s| - 1] + [s[|s| - 1]];
      Filter(s[..|s| - 1], p) + if p(s[|s| - 1]) then [s[|s| - 1]] else []
  }

  /** Filtering commutes with concatenation. */
  lemma {:induction false} FilterAppend<T(!new)>(a: seq<T>, b: seq<T>, p: T -> bool)
    ensures Filter(a + b, p) == Filter(a, p) + Filter(b, p)
  {
    if b != [] {
      FilterAppend(a, b[..|b| - 1], p);
      assert (a + b)[..|a + b| - 1] == a + b[..|b| - 1];
    } else {
      assert a + b == a;
    }
  }

  /** `s.map(f)`. */
  function Map<A, B>(s: seq<A>, f: A -> B): seq<B> {
    if s == [] then [] else Map(s[..|s| - 1], f) + [f(s[|s| - 1])]
  }

  /** The mapped sequence has one image per element, in order. */
  lemma {:induction false} MapOk<A, B>(s: seq<A>, f: A -> B)
    ensures |Map(s, f)| == |s|
    ensures forall i | 0 <= i < |s| :: Map(s, f)[i] == f(s[i])
  {
    if s != [] {
      MapOk(s[..|s| - 1], f);
    }
  }

  /** The elements of the mapped sequence are the images of the elements. */
  lemma {:induction false} MapMember<A, B>(s: seq<A>, f: A -> B, y: B)
    ensures y in Map(s, f) <==> exists x | x in s :: y == f(x)
  {
    MapOk(s, f);
    if y in Map(s, f) {
      var i :| 0 <= i < |s| && Map(s, f)[i] == y;
      assert s[i] in s;
    }
    if exists x | x in s :: y == f(x) {
      var x :| x in s && y == f(x);
      var i :| 0 <= i < |s| && s[i] == x;
      assert Map(s, f)[i] == y;
    }
  }

  /** `s.flatMap(f)`: the images of the elements, one after another. */
  function FlatMap<A, B>(s: seq<A>, f: A -> seq<B>): seq<B> {
    if s == [] then [] else FlatMap(s[..|s| - 1], f) + f(s[|s| - 1])
  }

  /** An element of the flattened sequence is in the image of some element. */
  lemma {:induction false} FlatMapMember<A, B>(s: seq<A>, f: A -> seq<B>, y: B)
    ensures y in FlatMap(s, f) <==> exists k | 0 <= k < |s| :: y in f(s[k])
  {
    if s != [] {
      var front := s[..|s| - 1];
      FlatMapMember(front, f, y);
      if exists k | 0 <= k < |front| :: y in f(front[k]) {
        var k :| 0 <= k < |front| && y in f(front[k]);
        assert s[k] == front[k];
      }
      if exists k | 0 <= k < |s| :: y in f(s[k]) {
        var k :| 0 <= k < |s| && y in f(s[k]);
        if k < |front| {
          assert front[k] == s[k];
        }
      }
    }
  }

  /** Filtering keeps a sequence free of repetitions. */
  lemma {:induction false} FilterDistinct<T(!new)>(s: seq<T>, p: T -> bool)
    requires Distinct(s)
    ensures Distinct(Filter(s, p))
  {
    if s != [] {
      var front, last := s[..|s| - 1], s[|s| - 1];
      FilterDistinct(front, p);
      assert last !in front;
    }
  }

  /** An element of a sequence without repetitions occurs once. */
  lemma {:induction false} DistinctCount<T>(s: seq<T>, x: T)
    requires Distinct(s)
    ensures multiset(s)[x] <= 1
  {
    if s != [] {
      var front, last := s[..|s| - 1], s[|s| - 1];
      DistinctCount(front, x);
      assert s == front + [last];
      assert last !in front;
    }
  }

  /** A permutation of a sequence without repetitions has none. */
  lemma {:induction false} PermutationDistinct<T>(a: seq<T>, b: seq<T>)
    requires multiset(a) == multiset(b) && Distinct(a)
    ensures Distinct(b)
  {
    forall i, j | 0 <= i < j < |b| ensures b[i] != b[j] {
      if b[i] == b[j] {
        assert b == b[..j] + b[j..];
        assert b[i] in b[..j] && b[j] in b[j..];
        assert multiset(b)[b[i]] >= 2;
        DistinctCount(a, b[i]);
      }
    }
  }

  /** Appending one element to the input appends its image to the output. */
  lemma {:induction false} MapSnoc<A, B>(s: seq<A>, x: A, f: A -> B)
    ensures Map(s + [x], f) == Map(s, f) + [f(x)]
  {
    assert (s + [x])[..|s|] == s;
  }

  /** Appending one element keeps the deduplicated sequence when the element
      was seen before, and appends it otherwise: the `seen` set idiom. */
  lemma {:induction false} DedupSnoc<T(!new)>(s: seq<T>, x: T)
    ensures Dedup(s + [x]) == if x in s then Dedup(s) else Dedup(s) + [x]
  {
    assert (s + [x])[..|s|] == s;
  }

  /** `m[k] = v` for each pair in turn, on an empty object: a later write to
      the same key overwrites an earlier one. */
  function Assigned<K(==), V>(pairs: seq<(K, V)>): map<K, V> {
    if pairs == [] then map[]
    else Assigned(pairs[..|pairs| - 1])[pairs[|pairs| - 1].0 := pairs[|pairs| - 1].1]
  }

  /** The keys are the keys written. */
  lemma {:induction false} AssignedKeys<K, V>(pairs: seq<(K, V)>, k: K)
    ensures k in Assigned(pairs) <==> exists i | 0 <= i < |pairs| :: pairs[i].0 == k
  {
    if pairs != [] {
      var front := pairs[..|pairs| - 1];
      AssignedKeys(front, k);
      if exists i | 0 <= i < |front| :: front[i].0 == k {
        var i :| 0 <= i < |front| && front[i].0 == k;
        assert pairs[i].0 == k;
      }
      if exists i | 0 <= i < |pairs| :: pairs[i].0 == k {
        var i :| 0 <= i < |pairs| && pairs[i].0 == k;
        if i < |front| {
          assert front[i].0 == k;
        }
      }
    }
  }

  /** A key holds the value of its last write. */
  lemma {:induction false} AssignedLast<K, V>(pairs: seq<(K, V)>, i: nat)
    requires i < |pairs|
    requires forall j | i < j < |pairs| :: pairs[j].0 != pairs[i].0
    ensures pairs[i].0 in Assigned(pairs) && Assigned(pairs)[pairs[i].0] == pairs[i].1
  {
    if i < |pairs| - 1 {
      var front := pairs[..|pairs| - 1];
      AssignedLast(front, i);
    }
  }

  // ---------------------------------------------------------------------------
  // Stable sort by an integer key, the behaviour of `Array.prototype.sort` with a
  // comparator `(x, y) => key(x) - key(y)` (the sort is stable since ES2019).
  // ---------------------------------------------------------------------------

  /** Ascending by `key`. */
  predicate SortedBy<T>(s: seq<T>, key: T -> int) {
    forall i, j | 0 <= i < j < |s| :: key(s[i]) <= key(s[j])
  }

  /** Inserts `x` behind every element whose key is not larger. */
  function InsertBy<T>(s: seq<T>, x: T, key: T -> int): (r: seq<T>)
    ensures multiset(r) == multiset(s) + multiset{x}
    ensures |r| == |s| + 1
  {
    if s == [] || key(s[|s| - 1]) <= key(x) then s + [x]
    else
      assert s == s[..|s| - 1] + [s[|s| - 1]];
      InsertBy(s[..|s| - 1], x, key) + [s[|s| - 1]]
  }

  /** Insertion sort: stable and ascending by `key`. */
  function SortBy<T>(s: seq<T>, key: T -> int): (r: seq<T>)
    ensures multiset(r) == multiset(s)
    ensures |r| == |s|
  {
    if s == [] then []
    else
      assert s == s[..|s| - 1] + [s[|s| - 1]];
      InsertBy(SortBy(s[..|s| - 1], key), s[|s| - 1], key)
  }

  /** The elements of `s` whose key is `k`, in order. */
  function Stratum<T>(s: seq<T>, key: T -> int, k: int): seq<T> {
    if s == [] then []
    else Stratum(s[..|s| - 1], key, k) + if key(s[|s| - 1]) == k then [s[|s| - 1]] else []
  }

  lemma {:induction false} StratumAppend<T>(a: seq<T>, b: seq<T>, key: T -> int, k: int)
    ensures Stratum(a + b, key, k) == Stratum(a, key, k) + Stratum(b, key, k)
  {
    if b != [] {
      StratumAppend(a, b[..|b| - 1], key, k);
      assert (a + b)[..|a + b| - 1] == a + b[..|b| - 1];
    } else {
      assert a + b == a;
    }
  }

  lemma {:induction false} InsertBySorted<T>(s: seq<T>, x: T, key: T -> int)
    requires SortedBy(s, key)
    ensures SortedBy(InsertBy(s, x, key), key)
    ensures forall y | y in InsertBy(s, x, key) :: y in s || y == x
  {
    if s == [] || key(s[|s| - 1]) <= key(x) {
    } else {
      var init := s[..|s| - 1];
      InsertBySorted(init, x, key);
      var r := InsertBy(init, x, key);
      assert forall y | y in r :: key(y) <= key(s[|s| - 1]) by {
        forall y | y in r ensures key(y) <= key(s[|s| - 1]) {
          if y in init {
            var i :| 0 <= i < |init| && init[i] == y;
            assert s[i] == y;
          }
        }
      }
    }
  }

  /** The sort yields an ascending permutation. */
  lemma {:induction false} SortBySorted<T>(s: seq<T>, key: T -> int)
    ensures SortedBy(SortBy(s, key), key)
  {
    if s != [] {
      SortBySorted(s[..|s| - 1], key);
      InsertBySorted(SortBy(s[..|s| - 1], key), s[|s| - 1], key);
    }
  }

  lemma {:induction false} StratumSingle<T>(x: T, key: T -> int, k: int)
    ensures Stratum([x], key, k) == if key(x) == k then [x] else []
  {
    assert [x][..0] == [];
  }

  lemma {:induction false} InsertByStratum<T>(s: seq<T>, x: T, key: T -> int, k: int)
    requires SortedBy(s, key)
    ensures Stratum(InsertBy(s, x, key), key, k) == Stratum(s, key, k) + if key(x) == k then [x] else []
  {
    StratumSingle(x, key, k);
    if s == [] || key(s[|s| - 1]) <= key(x) {
      StratumAppend(s, [x], key, k);
    } else {
      var init, last := s[..|s| - 1], s[|s| - 1];
      var xs := if key(x) == k then [x] else [];
      var ls := if key(last) == k then [last] else [];
      assert SortedBy(init, key) by {
        forall i, j | 0 <= i < j < |init| ensures key(init[i]) <= key(init[j]) {
          assert init[i] == s[i] && init[j] == s[j];
        }
      }
      assert Stratum(s, key, k) == Stratum(init, key, k) + ls;
      calc {
        Stratum(InsertBy(s, x, key), key, k);
        Stratum(InsertBy(init, x, key) + [last], key, k);
        { StratumAppend(InsertBy(init, x, key), [last], key, k); StratumSingle(last, key, k); }
        Stratum(InsertBy(init, x, key), key, k) + ls;
        { InsertByStratum(init, x, key, k); }
        Stratum(init, key, k) + xs + ls;
        { assert xs == [] || ls == []; } // key(x) < key(last): never the same stratum
        Stratum(init, key, k) + ls + xs;
      }
    }
  }

  /** Stability: the elements with any one key keep their relative order. */
  lemma {:induction false} SortByStable<T>(s: seq<T>, key: T -> int, k: int)
    ensures Stratum(SortBy(s, key), key, k) == Stratum(s, key, k)
  {
    if s != [] {
      SortByStable(s[..|s| - 1], key, k);
      SortBySorted(s[..|s| - 1], key);
      InsertByStratum(SortBy(s[..|s| - 1], key), s[|s| - 1], key, k);
    }
  }

  lemma {:induction false} StratumHead<T>(s: seq<T>, key: T -> int, i: nat)
    requires i < |s|
    requires forall j | 0 <= j < i :: key(s[j]) != key(s[i])
    ensures Stratum(s, key, key(s[i])) != [] && Stratum(s, key, key(s[i]))[0] == s[i]
  {
    var k := key(s[i]);
    if i == |s| - 1 {
      StratumEmpty(s[..i], key, k);
    } else {
      StratumHead(s[..|s| - 1], key, i);
    }
  }

  lemma {:induction false} StratumEmpty<T>(s: seq<T>, key: T -> int, k: int)
    requires forall j | 0 <= j < |s| :: key(s[j]) != k
    ensures Stratum(s, key, k) == []
  {
    if s != [] {
      StratumEmpty(s[..|s| - 1], key, k);
    }
  }

  /** The head of the sorted sequence, the `sort(...)[0]` idiom: an element
      with the least key, and the earliest such element of the input. */
  lemma {:induction false} SortByHead<T>(s: seq<T>, key: T -> int) returns (i: nat)
    requires s != []
    ensures i < |s| && SortBy(s, key)[0] == s[i]
    ensures forall j | 0 <= j < |s| :: key(s[i]) <= key(s[j])
    ensures forall j | 0 <= j < i :: key(s[j]) > key(s[i])
  {
    var r := SortBy(s, key);
    var h := SortedHead(s, key);
    var m := key(r[0]);
    i := FirstWithKey(s, key, m, h);
    StratumHead(s, key, i);
    StratumHead(r, key, 0);
    SortByStable(s, key, m);
  }

  /** The head of the sorted sequence is an element of least key. */
  lemma {:induction false} SortedHead<T>(s: seq<T>, key: T -> int) returns (h: nat)
    requires s != []
    ensures h < |s| && s[h] == SortBy(s, key)[0]
    ensures forall j | 0 <= j < |s| :: key(s[h]) <= key(s[j])
  {
    var r := SortBy(s, key);
    SortBySorted(s, key);
    assert r[0] in multiset(r);
    h :| 0 <= h < |s| && s[h] == r[0];
    forall j | 0 <= j < |s| ensures key(r[0]) <= key(s[j]) {
      assert s[j] in multiset(s);
      var t :| 0 <= t < |r| && r[t] == s[j];
    }
  }

  /** The first element whose key is `m`, given that `s[j]` has key `m`. */
  lemma {:induction false} FirstWithKey<T>(s: seq<T>, key: T -> int, m: int, j: nat) returns (i: nat)
    requires j < |s| && key(s[j]) == m
    ensures i <= j && key(s[i]) == m && forall t | 0 <= t < i :: key(s[t]) != m
    decreases j
  {
    if key(s[0]) == m {
      i := 0;
    } else {
      var i' := FirstWithKey(s[1..], key, m, j - 1);
      i := i' + 1;
      forall t | 0 <= t < i ensures key(s[t]) != m {
        if t > 0 {
          assert s[t] == s[1..][t - 1];
        }
      }
    }
  }
}
