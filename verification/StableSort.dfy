/** The insertion sort the program writes out twice: over match candidates by score
    (internal/matching/engine.go) and over dashboard alerts by time (internal/dashboard/service.go).

    `Sort` is the stable sort by a real key. `StableSortIsUnique` says that it is the only ordered
    arrangement that keeps elements of equal key in their original order. */
module StableSort {

  /** x put behind the last element whose key does not exceed its own. */
  function Insert<T>(s: seq<T>, x: T, key: T -> real): (r: seq<T>)
    ensures |r| == |s| + 1
  {
    if s == [] || key(s[|s| - 1]) <= key(x) then s + [x]
    else Insert(s[..|s| - 1], x, key) + [s[|s| - 1]]
  }

  function Sort<T>(s: seq<T>, key: T -> real): (r: seq<T>)
    ensures |r| == |s|
  {
    if s == [] then [] else Insert(Sort(s[..|s| - 1], key), s[|s| - 1], key)
  }

  ghost predicate Ordered<T>(s: seq<T>, key: T -> real)
  {
    forall i, j :: 0 <= i < j < |s| ==> key(s[i]) <= key(s[j])
  }

  /** The elements of s whose key is k, in order. */
  function Class<T>(s: seq<T>, key: T -> real, k: real): (r: seq<T>)
    ensures |r| <= |s|
  {
    if s == [] then []
    else Class(s[..|s| - 1], key, k) + (if key(s[|s| - 1]) == k then [s[|s| - 1]] else [])
  }

  // ---------------------------------------------------------------- the algorithm

  lemma {:induction false} InsertAt<T>(s: seq<T>, x: T, key: T -> real, j: nat)
    requires j <= |s|
    requires j == 0 || key(s[j - 1]) <= key(x)
    requires forall k :: j <= k < |s| ==> key(x) < key(s[k])
    ensures Insert(s, x, key) == s[..j] + [x] + s[j..]
  {
    var n := |s|;
    if j < n {
      InsertAt(s[..n - 1], x, key, j);
      assert s[..n - 1][..j] == s[..j];
      assert s[j..] == s[..n - 1][j..] + [s[n - 1]];
    } else {
      assert s[..j] + [x] + s[j..] == s + [x];
    }
  }

  /** The inner loop: swaps element i down to its place. */
  method Sink<T>(a: array<T>, i: nat, key: T -> real)
    requires 0 < i < a.Length
    modifies a
    ensures a[..i + 1] == Insert(old(a[..i]), old(a[i]), key)
    ensures a[i + 1..] == old(a[i + 1..])
  {
    ghost var s, x := a[..i], a[i];
    var j := i;
    while j > 0 && key(a[j]) < key(a[j - 1])
      invariant 0 <= j <= i
      invariant a[j] == x
      invariant forall k :: 0 <= k < j ==> a[k] == s[k]
      invariant forall k :: j <= k < i ==> a[k + 1] == s[k] && key(x) < key(s[k])
      invariant forall k :: i < k < a.Length ==> a[k] == old(a[k])
    {
      a[j], a[j - 1] := a[j - 1], a[j];
      j := j - 1;
    }
    InsertAt(s, x, key, j);
    assert a[..i + 1] == s[..j] + [x] + s[j..];
  }

  method InsertionSort<T>(a: array<T>, key: T -> real)
    modifies a
    ensures a[..] == Sort(old(a[..]), key)
  {
    ghost var was := a[..];
    var i := 1;
    assert 1 <= |was| ==> was[..1][..0] == [] && Sort(was[..1], key) == was[..1];
    while i < a.Length
      invariant 1 <= i && (i <= a.Length || a[..] == was == [])
      invariant i <= a.Length ==> a[..i] == Sort(was[..i], key) && a[i..] == was[i..]
    {
      Sink(a, i, key);
      assert was[..i + 1][..i] == was[..i];
      i := i + 1;
    }
    assert i == a.Length ==> a[..i] == a[..] && was[..i] == was;
  }

  // ---------------------------------------------------------------- what the result is

  lemma {:induction false} InsertPermutes<T>(s: seq<T>, x: T, key: T -> real)
    ensures multiset(Insert(s, x, key)) == multiset(s) + multiset{x}
  {
    if s != [] && key(x) < key(s[|s| - 1]) {
      var n := |s| - 1;
      InsertPermutes(s[..n], x, key);
      assert s == s[..n] + [s[n]];
    }
  }

  lemma OrderedSnoc<T>(s: seq<T>, x: T, key: T -> real)
    requires Ordered(s, key) && forall y <- s :: key(y) <= key(x)
    ensures Ordered(s + [x], key)
  {
    assert forall i | 0 <= i < |s| :: s[i] in s;
  }

  lemma {:induction false} InsertOrders<T>(s: seq<T>, x: T, key: T -> real)
    requires Ordered(s, key)
    ensures Ordered(Insert(s, x, key), key)
  {
    if s == [] || key(s[|s| - 1]) <= key(x) {
      OrderedSnoc(s, x, key);
    } else {
      var n := |s| - 1;
      InsertOrders(s[..n], x, key);
      InsertPermutes(s[..n], x, key);
      var r := Insert(s[..n], x, key);
      forall y | y in r ensures key(y) <= key(s[n]) {
        assert y in multiset(r);
        assert y == x || y in s[..n];
      }
      OrderedSnoc(r, s[n], key);
    }
  }

  lemma {:induction false} SortOrders<T>(s: seq<T>, key: T -> real)
    ensures Ordered(Sort(s, key), key)
    ensures multiset(Sort(s, key)) == multiset(s)
  {
    if s != [] {
      var n := |s| - 1;
      SortOrders(s[..n], key);
      InsertOrders(Sort(s[..n], key), s[n], key);
      InsertPermutes(Sort(s[..n], key), s[n], key);
      assert s == s[..n] + [s[n]];
    }
  }

  ghost predicate SameClasses<T>(s: seq<T>, t: seq<T>, key: T -> real)
  {
    forall k :: Class(s, key, k) == Class(t, key, k)
  }

  lemma {:induction false} ClassOfSnoc<T>(s: seq<T>, x: T, key: T -> real, k: real)
    ensures Class(s + [x], key, k) == Class(s, key, k) + (if key(x) == k then [x] else [])
  {
    assert (s + [x])[..|s|] == s;
  }

  lemma ClassOfTwo<T>(s: seq<T>, x: T, y: T, key: T -> real, k: real)
    requires key(x) != key(y)
    ensures Class(s + [x] + [y], key, k) == Class(s + [y] + [x], key, k)
  {
    ClassOfSnoc(s, x, key, k);
    ClassOfSnoc(s, y, key, k);
    ClassOfSnoc(s + [x], y, key, k);
    ClassOfSnoc(s + [y], x, key, k);
  }

  lemma {:induction false} InsertIsStable<T>(s: seq<T>, x: T, key: T -> real, k: real)
    ensures Class(Insert(s, x, key), key, k) == Class(s + [x], key, k)
  {
    if s != [] && key(x) < key(s[|s| - 1]) {
      var init, last := s[..|s| - 1], s[|s| - 1];
      InsertIsStable(init, x, key, k);
      ClassOfSnoc(Insert(init, x, key), last, key, k);
      ClassOfSnoc(init + [x], last, key, k);
      ClassOfTwo(init, x, last, key, k);
      assert init + [last] == s;
    }
  }

  /** Elements of equal key keep their original order. */
  lemma {:induction false} SortIsStable<T>(s: seq<T>, key: T -> real, k: real)
    ensures Class(Sort(s, key), key, k) == Class(s, key, k)
  {
    if s != [] {
      var n := |s| - 1;
      SortIsStable(s[..n], key, k);
      InsertIsStable(Sort(s[..n], key), s[n], key, k);
      ClassOfSnoc(Sort(s[..n], key), s[n], key, k);
    }
  }

  lemma {:induction false} ClassNonEmpty<T>(s: seq<T>, key: T -> real, k: real)
    ensures Class(s, key, k) != [] <==> exists i :: 0 <= i < |s| && key(s[i]) == k
  {
    if s != [] {
      var n := |s| - 1;
      ClassNonEmpty(s[..n], key, k);
      if i :| 0 <= i < |s| && key(s[i]) == k {
        assert i == n || key(s[..n][i]) == k;
      }
    }
  }

  lemma LastKeyBound<T>(s: seq<T>, t: seq<T>, key: T -> real)
    requires s != [] && Ordered(t, key)
    requires SameClasses(s, t, key)
    ensures t != [] && key(s[|s| - 1]) <= key(t[|t| - 1])
  {
    var k := key(s[|s| - 1]);
    ClassNonEmpty(s, key, k);
    ClassNonEmpty(t, key, k);
    var i :| 0 <= i < |t| && key(t[i]) == k;
  }

  lemma LastIsShared<T>(s: seq<T>, t: seq<T>, key: T -> real)
    requires s != [] && t != [] && Ordered(s, key) && Ordered(t, key)
    requires SameClasses(s, t, key) && SameClasses(t, s, key)
    ensures s[|s| - 1] == t[|t| - 1]
  {
    LastKeyBound(s, t, key);
    LastKeyBound(t, s, key);
    var m, n := |s| - 1, |t| - 1;
    var c := Class(s, key, key(s[m]));
    assert c == Class(s[..m], key, key(s[m])) + [s[m]];
    assert c == Class(t[..n], key, key(t[n])) + [t[n]];
    assert c[|c| - 1] == s[m] && c[|c| - 1] == t[n];
  }

  lemma PrefixClasses<T>(s: seq<T>, t: seq<T>, key: T -> real)
    requires s != [] && t != [] && s[|s| - 1] == t[|t| - 1] && SameClasses(s, t, key)
    ensures SameClasses(s[..|s| - 1], t[..|t| - 1], key)
  {
    var m, n := |s| - 1, |t| - 1;
    forall k ensures Class(s[..m], key, k) == Class(t[..n], key, k) {
      var a, b := Class(s[..m], key, k), Class(t[..n], key, k);
      assert Class(s, key, k) == Class(t, key, k);
      if key(s[m]) == k {
        assert a + [s[m]] == b + [t[n]];
        assert a == (a + [s[m]])[..|a|] && b == (b + [t[n]])[..|b|];
      } else {
        assert a + [] == a && b + [] == b;
      }
    }
  }

  lemma {:induction false} OrderedByClasses<T>(s: seq<T>, t: seq<T>, key: T -> real)
    requires Ordered(s, key) && Ordered(t, key)
    requires SameClasses(s, t, key) && SameClasses(t, s, key)
    ensures s == t
    decreases |s|
  {
    if s == [] {
      if t != [] {
        LastKeyBound(t, s, key);
      }
    } else {
      LastKeyBound(s, t, key);
      LastIsShared(s, t, key);
      PrefixClasses(s, t, key);
      PrefixClasses(t, s, key);
      var m, n := |s| - 1, |t| - 1;
      OrderedByClasses(s[..m], t[..n], key);
      assert s == s[..m] + [s[m]] && t == t[..n] + [t[n]];
    }
  }

  /** The sort's result is determined: t is ordered and keeps every class of equal keys in its
      original order exactly when it is Sort(s). */
  lemma StableSortIsUnique<T>(s: seq<T>, t: seq<T>, key: T -> real)
    ensures t == Sort(s, key) <==> Ordered(t, key) && SameClasses(t, s, key)
  {
    var r := Sort(s, key);
    SortOrders(s, key);
    forall k ensures Class(r, key, k) == Class(s, key, k) {
      SortIsStable(s, key, k);
    }
    if Ordered(t, key) && SameClasses(t, s, key) {
      forall k ensures Class(t, key, k) == Class(r, key, k) {
        assert Class(t, key, k) == Class(s, key, k);
      }
      assert SameClasses(r, t, key);
      OrderedByClasses(t, r, key);
    }
  }
}
