/**
  Python's `list.sort(key=...)` and `sorted(..., key=...)` are stable: elements are ordered by
  their key and elements with equal keys keep their original relative order. This module gives
  that sort as an insertion sort over an integer key and proves both halves of the promise.
*/
module StableSort {

  /** `s` is ordered by non-decreasing key. */
  ghost predicate SortedBy<T>(s: seq<T>, key: T -> int) {
    forall i, j :: 0 <= i < j < |s| ==> key(s[i]) <= key(s[j])
  }

  /** The elements of `s` whose key is `k`, in their order in `s`. */
  function WithKey<T>(s: seq<T>, key: T -> int, k: int): (r: seq<T>)
    ensures |r| <= |s|
  {
    if s == [] then []
    else (if key(s[0]) == k then [s[0]] else []) + WithKey(s[1..], key, k)
  }

  /** Places `x` after every element of `s` whose key is at most `key(x)`. */
  function Insert<T>(s: seq<T>, x: T, key: T -> int): (r: seq<T>)
    ensures |r| == |s| + 1
    ensures multiset(r) == multiset(s) + multiset{x}
  {
    if s == [] || key(x) < key(s[0]) then [x] + s
    else
      assert s == [s[0]] + s[1..];
      [s[0]] + Insert(s[1..], x, key)
  }

  /** Stable sort by ascending key: each element in turn is inserted behind its equals. */
  function Sort<T>(s: seq<T>, key: T -> int): (r: seq<T>)
    ensures |r| == |s|
    ensures multiset(r) == multiset(s)
  {
    if s == [] then []
    else
      assert s == s[..|s| - 1] + [s[|s| - 1]];
      Insert(Sort(s[..|s| - 1], key), s[|s| - 1], key)
  }

  lemma {:induction false} WithKeyAppend<T>(a: seq<T>, b: seq<T>, key: T -> int, k: int)
    ensures WithKey(a + b, key, k) == WithKey(a, key, k) + WithKey(b, key, k)
  {
    if a != [] {
      assert (a + b)[1..] == a[1..] + b;
      WithKeyAppend(a[1..], b, key, k);
    } else {
      assert a + b == b;
    }
  }

  /** Inserting into a sorted sequence keeps it sorted. */
  lemma {:induction false} InsertSorted<T>(s: seq<T>, x: T, key: T -> int)
    requires SortedBy(s, key)
    ensures SortedBy(Insert(s, x, key), key)
  {
    if s != [] && key(x) >= key(s[0]) {
      InsertSorted(s[1..], x, key);
      var tail := Insert(s[1..], x, key);
      assert multiset(tail) == multiset(s[1..]) + multiset{x};
      forall j | 0 <= j < |tail| ensures key(s[0]) <= key(tail[j]) {
        assert tail[j] in multiset(tail);
        if tail[j] != x {
          assert tail[j] in multiset(s[1..]);
          var m :| 0 <= m < |s[1..]| && s[1..][m] == tail[j];
          assert s[1..][m] == s[m + 1];
        }
      }
    }
  }

  /**
    Among elements that share a key, the inserted element comes last: the equal-key
    subsequence of the result is that of `s` followed by `x`.
  */
  lemma {:induction false} InsertWithKey<T>(s: seq<T>, x: T, key: T -> int, k: int)
    requires SortedBy(s, key)
    ensures WithKey(Insert(s, x, key), key, k) == WithKey(s + [x], key, k)
  {
    WithKeyAppend(s, [x], key, k);
    if s == [] {
    } else if key(x) < key(s[0]) {
      // every element of s has a key above key(x), so none of them has key k when k == key(x)
      WithKeyAppend([x], s, key, k);
      if key(x) == k {
        WithKeyAbove(s, key, k);
      }
    } else {
      SortedTail(s, key);
      InsertWithKey(s[1..], x, key, k);
      WithKeyAppend(s[1..], [x], key, k);
      InsertBehindHead(s, x, key, k);
    }
  }

  /** When `x` goes behind the head of `s`, the head's contribution to `WithKey` comes first. */
  lemma {:induction false} InsertBehindHead<T>(s: seq<T>, x: T, key: T -> int, k: int)
    requires s != [] && key(s[0]) <= key(x)
    requires WithKey(Insert(s[1..], x, key), key, k) == WithKey(s[1..], key, k) + WithKey([x], key, k)
    ensures WithKey(Insert(s, x, key), key, k) == WithKey(s, key, k) + WithKey([x], key, k)
  {
    var head := if key(s[0]) == k then [s[0]] else [];
    var a, b := WithKey(s[1..], key, k), WithKey([x], key, k);
    WithKeyCons(s[0], Insert(s[1..], x, key), key, k);
    assert WithKey(s, key, k) == head + a;
    assert head + (a + b) == (head + a) + b;
  }

  /** An element placed behind the head of a sequence is inserted into its tail. */
  lemma {:induction false} InsertBehind<T>(y: T, t: seq<T>, x: T, key: T -> int)
    requires key(y) <= key(x)
    ensures Insert([y] + t, x, key) == [y] + Insert(t, x, key)
  {
    assert ([y] + t)[0] == y && ([y] + t)[1..] == t;
  }

  /** `WithKey` of a sequence with a given first element. */
  lemma {:induction false} WithKeyCons<T>(y: T, t: seq<T>, key: T -> int, k: int)
    ensures WithKey([y] + t, key, k) == (if key(y) == k then [y] else []) + WithKey(t, key, k)
  {
    assert ([y] + t)[1..] == t;
  }

  /** No element of a sorted sequence whose first key exceeds `k` has key `k`. */
  lemma {:induction false} WithKeyAbove<T>(s: seq<T>, key: T -> int, k: int)
    requires SortedBy(s, key)
    requires s != [] ==> k < key(s[0])
    ensures WithKey(s, key, k) == []
  {
    if s != [] {
      assert |s| > 1 ==> key(s[0]) <= key(s[1]);
      WithKeyAbove(s[1..], key, k);
    }
  }

  /** The insertion sort orders by key. */
  lemma {:induction false} SortSorted<T>(s: seq<T>, key: T -> int)
    ensures SortedBy(Sort(s, key), key)
  {
    if s != [] {
      SortSorted(s[..|s| - 1], key);
      InsertSorted(Sort(s[..|s| - 1], key), s[|s| - 1], key);
    }
  }

  /** The insertion sort is stable: for every key, the elements with that key keep their order. */
  lemma {:induction false} SortStable<T>(s: seq<T>, key: T -> int, k: int)
    ensures WithKey(Sort(s, key), key, k) == WithKey(s, key, k)
  {
    if s != [] {
      var init := s[..|s| - 1];
      SortStable(init, key, k);
      SortSorted(init, key);
      InsertWithKey(Sort(init, key), s[|s| - 1], key, k);
      WithKeyAppend(Sort(init, key), [s[|s| - 1]], key, k);
      WithKeyAppend(init, [s[|s| - 1]], key, k);
      assert s == init + [s[|s| - 1]];
    }
  }

  /** Sorting a sorted list with one element appended inserts that element behind its equals. */
  lemma {:induction false} SortOfSortedAppend<T>(s: seq<T>, x: T, key: T -> int)
    requires SortedBy(s, key)
    ensures Sort(s + [x], key) == Insert(s, x, key)
  {
    assert (s + [x])[..|s|] == s;
    SortOfSorted(s, key);
  }

  /** Sorting an already sorted list changes nothing. */
  lemma {:induction false} SortOfSorted<T>(s: seq<T>, key: T -> int)
    requires SortedBy(s, key)
    ensures Sort(s, key) == s
  {
    if s != [] {
      var init, x := s[..|s| - 1], s[|s| - 1];
      assert init + [x] == s;
      SortedInit(init, x, key);
      SortOfSorted(init, key);
      InsertLast(init, x, key);
      assert Sort(s, key) == Insert(Sort(init, key), x, key);
    }
  }

  /** Dropping the last element of a sorted sequence leaves it sorted, below that element. */
  lemma {:induction false} SortedInit<T>(init: seq<T>, x: T, key: T -> int)
    requires SortedBy(init + [x], key)
    ensures SortedBy(init, key)
    ensures forall i | 0 <= i < |init| :: key(init[i]) <= key(x)
  {
    var s := init + [x];
    assert forall i | 0 <= i < |init| :: s[i] == init[i];
    assert s[|init|] == x;
  }

  /** Dropping the first element of a sorted sequence leaves it sorted. */
  lemma {:induction false} SortedTail<T>(s: seq<T>, key: T -> int)
    requires SortedBy(s, key) && s != []
    ensures SortedBy(s[1..], key)
  {
  }

  /** Inserting an element whose key is at least every key already there appends it. */
  lemma {:induction false} InsertLast<T>(s: seq<T>, x: T, key: T -> int)
    requires forall i | 0 <= i < |s| :: key(s[i]) <= key(x)
    ensures Insert(s, x, key) == s + [x]
  {
    if s != [] {
      InsertLast(s[1..], x, key);
      assert s == [s[0]] + s[1..];
    }
  }
}
