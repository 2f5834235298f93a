/**
 * `Array.prototype.sort` with a comparator that orders by a two-part key, larger first:
 * `(b.major - a.major) || (b.minor - a.minor)`. The engine's sort is stable, modelled as an
 * insertion sort that places each element after every element it does not beat.
 */
module StableSort {
  datatype Key = Key(major: real, minor: real)

  /** a comes strictly before b: a larger major part, or an equal one and a larger minor part. */
  predicate Above(a: Key, b: Key)
  {
    a.major > b.major || (a.major == b.major && a.minor > b.minor)
  }

  /** No element is beaten by a later one. */
  predicate SortedBy<T>(s: seq<T>, key: T -> Key)
  {
    forall i, j :: 0 <= i < j < |s| ==> !Above(key(s[j]), key(s[i]))
  }

  /** Insert x after the longest prefix it does not beat. */
  function Insert<T>(s: seq<T>, x: T, key: T -> Key): (r: seq<T>)
    ensures |r| == |s| + 1
    ensures multiset(r) == multiset(s) + multiset{x}
    decreases |s|
  {
    if s == [] then [x]
    else if Above(key(x), key(s[0])) then [x] + s
    else
      assert s == [s[0]] + s[1..];
      [s[0]] + Insert(s[1..], x, key)
  }

  /** Every element of Insert(s, x) is x or an element of s. */
  lemma InsertElements<T>(s: seq<T>, x: T, key: T -> Key, y: T)
    ensures y in Insert(s, x, key) <==> y == x || y in s
  {
    assert y in Insert(s, x, key) <==> y in multiset(Insert(s, x, key));
  }

  lemma {:induction false} InsertSorted<T>(s: seq<T>, x: T, key: T -> Key)
    requires SortedBy(s, key)
    ensures SortedBy(Insert(s, x, key), key)
    decreases |s|
  {
    if s != [] && !Above(key(x), key(s[0])) {
      var rest := s[1..];
      assert SortedBy(rest, key) by {
        forall i, j | 0 <= i < j < |rest| ensures !Above(key(rest[j]), key(rest[i])) {
          assert rest[i] == s[i + 1] && rest[j] == s[j + 1];
        }
      }
      InsertSorted(rest, x, key);
      var tail := Insert(rest, x, key);
      var r := [s[0]] + tail;
      forall j | 0 < j < |r| ensures !Above(key(r[j]), key(r[0])) {
        InsertElements(rest, x, key, r[j]);
        assert r[j] in tail;
        if r[j] != x {
          var m :| 0 <= m < |rest| && rest[m] == r[j];
          assert s[m + 1] == r[j];
        }
      }
      assert forall i, j :: 0 < i < j < |r| ==> r[i] == tail[i - 1] && r[j] == tail[j - 1];
    } else if s != [] {
      var r := [x] + s;
      assert forall i, j :: 0 < i < j < |r| ==> r[i] == s[i - 1] && r[j] == s[j - 1];
      forall j | 0 < j < |r| ensures !Above(key(r[j]), key(r[0])) {
        assert r[j] == s[j - 1];
        if j > 1 {
          assert !Above(key(s[j - 1]), key(s[0]));
        }
      }
    }
  }

  /** The sort: a permutation of its input, ordered by the key, larger first. */
  function Sort<T>(s: seq<T>, key: T -> Key): (r: seq<T>)
    ensures multiset(r) == multiset(s)
    ensures |r| == |s|
    ensures SortedBy(r, key)
    decreases |s|
  {
    if s == [] then []
    else
      var init := Sort(s[..|s| - 1], key);
      InsertSorted(init, s[|s| - 1], key);
      assert s == s[..|s| - 1] + [s[|s| - 1]];
      Insert(init, s[|s| - 1], key)
  }

  /** The first element of a non-empty sorted permutation is beaten by no element of the input. */
  lemma SortFirstIsMaximal<T>(s: seq<T>, key: T -> Key, x: T)
    requires x in s
    ensures |Sort(s, key)| > 0
    ensures !Above(key(x), key(Sort(s, key)[0]))
  {
    var r := Sort(s, key);
    assert x in multiset(s);
    assert x in multiset(r);
    var j :| 0 <= j < |r| && r[j] == x;
    if j > 0 {
      assert !Above(key(r[j]), key(r[0]));
    }
  }

  /** Every element of the sorted sequence comes from the input, and every input element is in it. */
  lemma SortElements<T>(s: seq<T>, key: T -> Key, x: T)
    ensures x in Sort(s, key) <==> x in s
  {
    assert x in Sort(s, key) <==> x in multiset(Sort(s, key));
    assert x in s <==> x in multiset(s);
  }

  /** The elements of s whose key is k, in their order in s. */
  function WithKey<T>(s: seq<T>, key: T -> Key, k: Key): (r: seq<T>)
    ensures |r| <= |s|
    ensures forall i :: 0 <= i < |r| ==> key(r[i]) == k
    decreases |s|
  {
    if s == [] then [] else (if key(s[0]) == k then [s[0]] else []) + WithKey(s[1..], key, k)
  }

  lemma {:induction false} WithKeyAppend<T>(a: seq<T>, b: seq<T>, key: T -> Key, k: Key)
    ensures WithKey(a + b, key, k) == WithKey(a, key, k) + WithKey(b, key, k)
    decreases |a|
  {
    if a == [] {
      assert a + b == b;
    } else {
      assert (a + b)[1..] == a[1..] + b;
      WithKeyAppend(a[1..], b, key, k);
    }
  }

  /** No element has the key k: none is kept. */
  lemma {:induction false} WithKeyNone<T>(s: seq<T>, key: T -> Key, k: Key)
    requires forall i :: 0 <= i < |s| ==> key(s[i]) != k
    ensures WithKey(s, key, k) == []
    decreases |s|
  {
    if s != [] {
      WithKeyNone(s[1..], key, k);
    }
  }

  /**
   * Inserting into a sorted sequence puts x after every element with the same key: among the
   * elements with x's key, x comes last, and the others keep their order.
   */
  lemma {:induction false} InsertStable<T>(s: seq<T>, x: T, key: T -> Key, k: Key)
    requires SortedBy(s, key)
    ensures WithKey(Insert(s, x, key), key, k) == WithKey(s, key, k) + (if key(x) == k then [x] else [])
    decreases |s|
  {
    if s == [] {
    } else if Above(key(x), key(s[0])) {
      assert ([x] + s)[1..] == s;
      if key(x) == k {
        forall i | 0 <= i < |s| ensures key(s[i]) != k {
          if i > 0 {
            assert !Above(key(s[i]), key(s[0]));
          }
        }
        WithKeyNone(s, key, k);
      }
    } else {
      var rest := s[1..];
      assert SortedBy(rest, key) by {
        forall i, j | 0 <= i < j < |rest| ensures !Above(key(rest[j]), key(rest[i])) {
          assert rest[i] == s[i + 1] && rest[j] == s[j + 1];
        }
      }
      InsertStable(rest, x, key, k);
      assert ([s[0]] + Insert(rest, x, key))[1..] == Insert(rest, x, key);
    }
  }

  /** The sort is stable: the elements with any one key come out in their input order. */
  lemma {:induction false} SortStable<T>(s: seq<T>, key: T -> Key, k: Key)
    ensures WithKey(Sort(s, key), key, k) == WithKey(s, key, k)
    decreases |s|
  {
    if s != [] {
      var init := s[..|s| - 1];
      var last := s[|s| - 1];
      var one := if key(last) == k then [last] else [];
      assert s == init + [last];
      assert Sort(s, key) == Insert(Sort(init, key), last, key);
      InsertStable(Sort(init, key), last, key, k);
      SortStable(init, key, k);
      assert WithKey([last], key, k) == one by {
        assert [last][1..] == [];
      }
      WithKeyAppend(init, [last], key, k);
    }
  }
}
