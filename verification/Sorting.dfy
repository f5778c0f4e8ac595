/** `Array.prototype.sort` with a numeric comparator: a stable sort in ascending key order.
    A comparator that subtracts keys treats `Infinity - Infinity` (NaN) as "equal", so missing
    keys sort last and keep their order; `Infinity` below plays that part. */
module Sorting {

  datatype SortKey = Finite(value: real) | Infinity

  predicate AtMost(a: SortKey, b: SortKey) {
    b.Infinity? || (a.Finite? && a.value <= b.value)
  }

  function Insert<T>(x: T, s: seq<T>, key: T -> SortKey): (r: seq<T>)
    ensures |r| == |s| + 1
    ensures forall j :: 0 <= j < |r| ==> r[j] == x || r[j] in s
  {
    if s == [] || AtMost(key(x), key(s[0])) then [x] + s else [s[0]] + Insert(x, s[1..], key)
  }

  function StableSort<T>(s: seq<T>, key: T -> SortKey): (r: seq<T>)
    ensures |r| == |s|
  {
    if s == [] then [] else Insert(s[0], StableSort(s[1..], key), key)
  }

  ghost predicate Ascending<T>(s: seq<T>, key: T -> SortKey) {
    forall i, j :: 0 <= i < j < |s| ==> AtMost(key(s[i]), key(s[j]))
  }

  function Filter<T>(s: seq<T>, p: T -> bool): (r: seq<T>)
    ensures |r| <= |s|
  {
    if s == [] then [] else if p(s[0]) then [s[0]] + Filter(s[1..], p) else Filter(s[1..], p)
  }

  function Map<T, U>(s: seq<T>, f: T -> U): (r: seq<U>)
    ensures |r| == |s| && forall i :: 0 <= i < |s| ==> r[i] == f(s[i])
  {
    seq(|s|, i requires 0 <= i < |s| => f(s[i]))
  }

  function Reverse<T>(s: seq<T>): (r: seq<T>)
    ensures |r| == |s| && forall i :: 0 <= i < |s| ==> r[i] == s[|s| - 1 - i]
  {
    seq(|s|, i requires 0 <= i < |s| => s[|s| - 1 - i])
  }

  lemma {:induction false} FilterFrom<T>(s: seq<T>, p: T -> bool, i: nat) returns (j: nat)
    requires i < |Filter(s, p)|
    ensures j < |s| && s[j] == Filter(s, p)[i] && p(s[j])
  {
    if p(s[0]) {
      if i == 0 { j := 0; } else { j := FilterFrom(s[1..], p, i - 1); j := j + 1; }
    } else {
      j := FilterFrom(s[1..], p, i);
      j := j + 1;
    }
  }

  lemma {:induction false} FilterTo<T>(s: seq<T>, p: T -> bool, j: nat) returns (i: nat)
    requires j < |s| && p(s[j])
    ensures i < |Filter(s, p)| && s[j] == Filter(s, p)[i]
  {
    if j == 0 { i := 0; } else {
      i := FilterTo(s[1..], p, j - 1);
      if p(s[0]) { i := i + 1; }
    }
  }

  lemma {:induction false} InsertAscending<T>(x: T, s: seq<T>, key: T -> SortKey)
    requires Ascending(s, key)
    ensures Ascending(Insert(x, s, key), key)
  {
    if s == [] || AtMost(key(x), key(s[0])) {
    } else {
      InsertAscending(x, s[1..], key);
      var r := Insert(x, s[1..], key);
      forall j | 0 <= j < |r| ensures AtMost(key(s[0]), key(r[j])) {
        if r[j] != x {
          var i :| 1 <= i < |s| && r[j] == s[i];
        }
      }
    }
  }

  lemma {:induction false} InsertPermutes<T>(x: T, s: seq<T>, key: T -> SortKey)
    ensures multiset(Insert(x, s, key)) == multiset{x} + multiset(s)
  {
    if s == [] || AtMost(key(x), key(s[0])) {
    } else {
      InsertPermutes(x, s[1..], key);
      assert s == [s[0]] + s[1..];
    }
  }

  /** The result is in order and is a permutation of the input. */
  lemma {:induction false} SortFacts<T>(s: seq<T>, key: T -> SortKey)
    ensures Ascending(StableSort(s, key), key)
    ensures multiset(StableSort(s, key)) == multiset(s)
  {
    if s != [] {
      SortFacts(s[1..], key);
      InsertAscending(s[0], StableSort(s[1..], key), key);
      InsertPermutes(s[0], StableSort(s[1..], key), key);
      assert s == [s[0]] + s[1..];
    }
  }

  /** Where the i-th sorted element comes from. */
  lemma SortedFrom<T>(s: seq<T>, key: T -> SortKey, i: nat) returns (j: nat)
    requires i < |s|
    ensures j < |s| && s[j] == StableSort(s, key)[i]
  {
    SortFacts(s, key);
    assert StableSort(s, key)[i] in multiset(s);
    j :| 0 <= j < |s| && s[j] == StableSort(s, key)[i];
  }

  /** Where the j-th element goes. */
  lemma SortedTo<T>(s: seq<T>, key: T -> SortKey, j: nat) returns (i: nat)
    requires j < |s|
    ensures i < |s| && s[j] == StableSort(s, key)[i]
  {
    SortFacts(s, key);
    assert s[j] in multiset(StableSort(s, key));
    i :| 0 <= i < |s| && s[j] == StableSort(s, key)[i];
  }

  /** Sorting a sequence that is already in order changes nothing: ties keep their order. */
  lemma {:induction false} SortOfAscending<T>(s: seq<T>, key: T -> SortKey)
    requires Ascending(s, key)
    ensures StableSort(s, key) == s
  {
    if s != [] {
      assert Ascending(s[1..], key);
      SortOfAscending(s[1..], key);
      assert s == [s[0]] + s[1..];
    }
  }

  lemma {:induction false} InsertFilter<T>(x: T, s: seq<T>, key: T -> SortKey, p: T -> bool)
    requires Ascending(s, key)
    ensures Filter(Insert(x, s, key), p) == if p(x) then Insert(x, Filter(s, p), key) else Filter(s, p)
  {
    if s == [] || AtMost(key(x), key(s[0])) {
      assert ([x] + s)[1..] == s;
      if Filter(s, p) != [] { var j := FilterFrom(s, p, 0); }
    } else {
      InsertFilter(x, s[1..], key, p);
      assert ([s[0]] + Insert(x, s[1..], key))[1..] == Insert(x, s[1..], key);
      if p(s[0]) {
        assert Filter(s, p)[1..] == Filter(s[1..], p);
      }
    }
  }

  /** Dropping elements before or after sorting gives the same sequence (stability). */
  lemma {:induction false} SortFilter<T>(s: seq<T>, key: T -> SortKey, p: T -> bool)
    ensures StableSort(Filter(s, p), key) == Filter(StableSort(s, key), p)
  {
    if s != [] {
      SortFilter(s[1..], key, p);
      SortFacts(s[1..], key);
      InsertFilter(s[0], StableSort(s[1..], key), key, p);
      if p(s[0]) {
        assert Filter(s, p)[1..] == Filter(s[1..], p);
      }
    }
  }

  lemma {:induction false} InsertMap<T, U>(x: T, s: seq<T>, key: T -> SortKey, f: T -> U, key': U -> SortKey)
    requires key'(f(x)) == key(x)
    requires forall i :: 0 <= i < |s| ==> key'(f(s[i])) == key(s[i])
    ensures Map(Insert(x, s, key), f) == Insert(f(x), Map(s, f), key')
  {
    if s == [] || AtMost(key(x), key(s[0])) {
    } else {
      InsertMap(x, s[1..], key, f, key');
      assert Map(s, f)[1..] == Map(s[1..], f);
    }
  }

  /** A change that leaves the sort key alone can be made before or after sorting. */
  lemma {:induction false} SortMap<T, U>(s: seq<T>, key: T -> SortKey, f: T -> U, key': U -> SortKey)
    requires forall i :: 0 <= i < |s| ==> key'(f(s[i])) == key(s[i])
    ensures Map(StableSort(s, key), f) == StableSort(Map(s, f), key')
  {
    if s != [] {
      SortMap(s[1..], key, f, key');
      var t := StableSort(s[1..], key);
      forall i | 0 <= i < |t| ensures key'(f(t[i])) == key(t[i]) {
        var j := SortedFrom(s[1..], key, i);
        assert s[j + 1] == t[i];
      }
      InsertMap(s[0], t, key, f, key');
      assert Map(s, f)[1..] == Map(s[1..], f);
    }
  }

  lemma {:induction false} FilterMap<T>(s: seq<T>, f: T -> T, p: T -> bool)
    requires forall i :: 0 <= i < |s| ==> p(f(s[i])) == p(s[i])
    ensures Filter(Map(s, f), p) == Map(Filter(s, p), f)
  {
    if s != [] {
      FilterMap(s[1..], f, p);
      assert Map(s, f)[1..] == Map(s[1..], f);
    }
  }

  ghost predicate Differ<T, U>(s: seq<T>, tag: T -> U) {
    forall i, j :: 0 <= i < j < |s| ==> tag(s[i]) != tag(s[j])
  }

  lemma {:induction false} InsertDiffer<T, U>(x: T, s: seq<T>, key: T -> SortKey, tag: T -> U)
    requires Differ(s, tag) && forall i :: 0 <= i < |s| ==> tag(s[i]) != tag(x)
    ensures Differ(Insert(x, s, key), tag)
  {
    if s == [] || AtMost(key(x), key(s[0])) {
    } else {
      InsertDiffer(x, s[1..], key, tag);
    }
  }

  /** Elements with pairwise different tags keep them under sorting. */
  lemma {:induction false} SortDiffer<T, U>(s: seq<T>, key: T -> SortKey, tag: T -> U)
    requires Differ(s, tag)
    ensures Differ(StableSort(s, key), tag)
  {
    if s != [] {
      SortDiffer(s[1..], key, tag);
      var t := StableSort(s[1..], key);
      forall i | 0 <= i < |t| ensures tag(t[i]) != tag(s[0]) {
        var j := SortedFrom(s[1..], key, i);
        assert s[j + 1] == t[i];
      }
      InsertDiffer(s[0], t, key, tag);
    }
  }

  lemma {:induction false} FilterDiffer<T, U>(s: seq<T>, p: T -> bool, tag: T -> U)
    requires Differ(s, tag)
    ensures Differ(Filter(s, p), tag)
  {
    if s != [] {
      FilterDiffer(s[1..], p, tag);
      var rest := Filter(s[1..], p);
      forall i | 0 <= i < |rest| ensures tag(rest[i]) != tag(s[0]) {
        var j := FilterFrom(s[1..], p, i);
        assert s[j + 1] == rest[i];
      }
    }
  }

  /** `down` is the comparator of `key` with its arguments exchanged, on finite keys. */
  ghost predicate Opposite<T>(x: T, key: T -> SortKey, down: T -> SortKey) {
    key(x).Finite? && down(x) == Finite(-key(x).value)
  }

  lemma ReverseCons<T>(x: T, s: seq<T>)
    ensures Reverse([x] + s) == Reverse(s) + [x]
  {}

  lemma {:induction false} InsertLast<T>(x: T, s: seq<T>, y: T, key: T -> SortKey)
    requires key(x) != key(y)
    requires forall i :: 0 <= i < |s| ==> !AtMost(key(y), key(s[i]))
    ensures AtMost(key(x), key(y)) ==> Insert(x, s + [y], key) == Insert(x, s, key) + [y]
    ensures !AtMost(key(x), key(y)) ==> Insert(x, s + [y], key) == s + [y, x]
  {
    if s == [] {
    } else {
      assert (s + [y])[1..] == s[1..] + [y];
      InsertLast(x, s[1..], y, key);
      assert s == [s[0]] + s[1..];
    }
  }

  lemma {:induction false} InsertReversed<T>(x: T, s: seq<T>, key: T -> SortKey, down: T -> SortKey)
    requires Opposite(x, key, down) && forall i :: 0 <= i < |s| ==> Opposite(s[i], key, down)
    requires Ascending(s, key) && Differ(s, key) && forall i :: 0 <= i < |s| ==> key(s[i]) != key(x)
    ensures Insert(x, Reverse(s), down) == Reverse(Insert(x, s, key))
  {
    if s == [] {
      ReverseCons(x, s);
    } else {
      var y, t := s[0], s[1..];
      assert s == [y] + t;
      ReverseCons(y, t);
      InsertReversed(x, t, key, down);
      InsertLast(x, Reverse(t), y, down);
      if AtMost(key(x), key(y)) {
        ReverseCons(x, s);
        assert Reverse(t) + [y, x] == Reverse(s) + [x];
      } else {
        ReverseCons(y, Insert(x, t, key));
      }
    }
  }

  /** With the keys of `s` pairwise different, sorting the other way gives the reversal. */
  lemma {:induction false} SortReversed<T>(s: seq<T>, key: T -> SortKey, down: T -> SortKey)
    requires forall i :: 0 <= i < |s| ==> Opposite(s[i], key, down)
    requires Differ(s, key)
    ensures StableSort(s, down) == Reverse(StableSort(s, key))
  {
    if s != [] {
      var t := StableSort(s[1..], key);
      SortReversed(s[1..], key, down);
      SortFacts(s[1..], key);
      SortDiffer(s[1..], key, key);
      forall i | 0 <= i < |t| ensures Opposite(t[i], key, down) && key(t[i]) != key(s[0]) {
        var j := SortedFrom(s[1..], key, i);
        assert s[j + 1] == t[i];
      }
      InsertReversed(s[0], t, key, down);
    }
  }

  // ---------- ties ----------

  lemma {:induction false} FilterAscending<T>(s: seq<T>, p: T -> bool, key: T -> SortKey)
    requires Ascending(s, key)
    ensures Ascending(Filter(s, p), key)
  {
    if s != [] {
      var rest := Filter(s[1..], p);
      assert Ascending(s[1..], key);
      FilterAscending(s[1..], p, key);
      if p(s[0]) {
        forall j | 0 <= j < |rest| ensures AtMost(key(s[0]), key(rest[j])) { var k := FilterFrom(s[1..], p, j); }
      }
    }
  }

  lemma {:induction false} FilterKeepsOrder<T>(s: seq<T>, p: T -> bool, i: nat, j: nat) returns (a: nat, b: nat)
    requires i < j < |s| && p(s[i]) && p(s[j])
    ensures a < b < |Filter(s, p)| && Filter(s, p)[a] == s[i] && Filter(s, p)[b] == s[j]
  {
    if i == 0 {
      a := 0;
      b := FilterTo(s[1..], p, j - 1);
      b := b + 1;
    } else {
      a, b := FilterKeepsOrder(s[1..], p, i - 1, j - 1);
      if p(s[0]) { a, b := a + 1, b + 1; }
    }
  }

  /** Sorting an ordered list by another key keeps it ordered among equals. */
  lemma TiesKeepOrder<T>(s: seq<T>, first: T -> SortKey, key: T -> SortKey, i: nat, j: nat)
    requires Ascending(s, first) && i < j < |s| && key(StableSort(s, key)[i]) == key(StableSort(s, key)[j])
    ensures AtMost(first(StableSort(s, key)[i]), first(StableSort(s, key)[j]))
  {
    var sorted := StableSort(s, key);
    var p := (x: T) => key(x) == key(sorted[i]);
    SortFilter(s, key, p);
    forall a, b | 0 <= a < b < |Filter(s, p)| ensures AtMost(key(Filter(s, p)[a]), key(Filter(s, p)[b])) {
      var x := FilterFrom(s, p, a);
      var y := FilterFrom(s, p, b);
    }
    SortOfAscending(Filter(s, p), key);
    FilterAscending(s, p, first);
    var a, b := FilterKeepsOrder(sorted, p, i, j);
  }
}
