/** The stable sort JavaScript arrays perform with a comparator that
    subtracts integer keys: ascending by the key, elements with
    equal keys kept in their input order. Written as an insertion sort
    that inserts each element after every element whose key is not larger. */
module Sorting {

  ghost predicate SortedBy<T>(s: seq<T>, key: T -> int)
  {
    forall i, j :: 0 <= i < j < |s| ==> key(s[i]) <= key(s[j])
  }

  /** Inserts `x` into `s` after the leading elements whose key is not
      larger than `x`'s. */
  function Insert<T>(x: T, s: seq<T>, key: T -> int): (r: seq<T>)
    ensures |r| == |s| + 1
    ensures multiset(r) == multiset(s) + multiset{x}
  {
    if s == [] || key(x) < key(s[0]) then
      [x] + s
    else
      assert s == [s[0]] + s[1..];
      [s[0]] + Insert(x, s[1..], key)
  }

  /** Every element of the result is `x` or an element of `s`. */
  lemma InsertMembers<T>(x: T, s: seq<T>, key: T -> int, y: T)
    requires y in Insert(x, s, key)
    ensures y == x || y in s
  {
    assert y in multiset(Insert(x, s, key));
  }

  /** A lower bound of `x` and of every element of `s` bounds the result. */
  lemma InsertAbove<T>(x: T, s: seq<T>, key: T -> int, b: int)
    requires key(x) >= b
    requires forall i :: 0 <= i < |s| ==> key(s[i]) >= b
    ensures forall i :: 0 <= i < |Insert(x, s, key)| ==> key(Insert(x, s, key)[i]) >= b
  {
    var r := Insert(x, s, key);
    forall i | 0 <= i < |r| ensures key(r[i]) >= b {
      InsertMembers(x, s, key, r[i]);
    }
  }

  /** Inserting into a sorted sequence keeps it sorted. */
  lemma {:induction false} InsertSorted<T>(x: T, s: seq<T>, key: T -> int)
    requires SortedBy(s, key)
    ensures SortedBy(Insert(x, s, key), key)
  {
    if s != [] && key(x) >= key(s[0]) {
      var tail := s[1..];
      var rest := Insert(x, tail, key);
      assert SortedBy(tail, key);
      InsertSorted(x, tail, key);
      InsertAbove(x, tail, key, key(s[0]));
      var r := Insert(x, s, key);
      assert r == [s[0]] + rest;
      forall i, j | 0 <= i < j < |r| ensures key(r[i]) <= key(r[j]) {
        if i == 0 {
          assert r[j] == rest[j - 1];
        } else {
          assert r[i] == rest[i - 1] && r[j] == rest[j - 1];
        }
      }
    }
  }

  /** Sorts `s` ascending by `key`; stable because the last element is
      inserted after every earlier element with the same key. */
  function SortBy<T>(s: seq<T>, key: T -> int): (r: seq<T>)
    ensures |r| == |s|
  {
    if s == [] then [] else Insert(s[|s| - 1], SortBy(s[..|s| - 1], key), key)
  }

  /** The sort is a permutation of its input. */
  lemma {:induction false} SortByPermutes<T>(s: seq<T>, key: T -> int)
    ensures multiset(SortBy(s, key)) == multiset(s)
  {
    if s != [] {
      var init, last := s[..|s| - 1], s[|s| - 1];
      SortByPermutes(init, key);
      assert s == init + [last];
    }
  }

  /** The sort orders its result by the key. */
  lemma {:induction false} SortByOrders<T>(s: seq<T>, key: T -> int)
    ensures SortedBy(SortBy(s, key), key)
  {
    if s != [] {
      var init := s[..|s| - 1];
      SortByOrders(init, key);
      InsertSorted(s[|s| - 1], SortBy(init, key), key);
    }
  }

  /** The elements of `s` whose key is `k`, in their order in `s`. */
  function WithKey<T>(s: seq<T>, key: T -> int, k: int): (r: seq<T>)
    ensures |r| <= |s|
  {
    if s == [] then [] else (if key(s[0]) == k then [s[0]] else []) + WithKey(s[1..], key, k)
  }

  /** Selecting by key distributes over concatenation. */
  lemma {:induction false} WithKeyAppend<T>(a: seq<T>, b: seq<T>, key: T -> int, k: int)
    ensures WithKey(a + b, key, k) == WithKey(a, key, k) + WithKey(b, key, k)
  {
    if a != [] {
      WithKeyAppend(a[1..], b, key, k);
      assert (a + b)[0] == a[0] && (a + b)[1..] == a[1..] + b;
      var head := if key(a[0]) == k then [a[0]] else [];
      assert WithKey(a + b, key, k) == head + (WithKey(a[1..], key, k) + WithKey(b, key, k));
      AppendAssociates(head, WithKey(a[1..], key, k), WithKey(b, key, k));
    } else {
      assert a + b == b;
    }
  }

  /** A single element is selected exactly when its key is `k`. */
  lemma WithKeySingle<T>(x: T, key: T -> int, k: int)
    ensures WithKey([x], key, k) == if key(x) == k then [x] else []
  {
    assert [x][1..] == [];
  }

  /** Nothing is selected when every key is above `k`. */
  lemma {:induction false} WithKeyAbove<T>(s: seq<T>, key: T -> int, k: int)
    requires forall i :: 0 <= i < |s| ==> key(s[i]) > k
    ensures WithKey(s, key, k) == []
  {
    if s != [] {
      WithKeyAbove(s[1..], key, k);
    }
  }

  /** The first element selected is the first element of `s` with key `k`. */
  lemma {:induction false} WithKeyFirst<T>(s: seq<T>, key: T -> int, i: int)
    requires 0 <= i < |s|
    requires forall j :: 0 <= j < i ==> key(s[j]) != key(s[i])
    ensures WithKey(s, key, key(s[i])) != [] && WithKey(s, key, key(s[i]))[0] == s[i]
  {
    if i > 0 {
      assert s[1..][i - 1] == s[i] && key(s[0]) != key(s[i]);
      WithKeyFirst(s[1..], key, i - 1);
    }
  }

  /** Inserting into a sorted sequence puts `x` after every element with
      the same key. */
  lemma {:induction false} InsertWithKey<T>(x: T, s: seq<T>, key: T -> int, k: int)
    requires SortedBy(s, key)
    ensures WithKey(Insert(x, s, key), key, k) == WithKey(s, key, k) + (if key(x) == k then [x] else [])
  {
    if s == [] {
      assert Insert(x, s, key) == [x];
      WithKeySingle(x, key, k);
    } else if key(x) < key(s[0]) {
      InsertFrontWithKey(x, s, key, k);
    } else {
      assert SortedBy(s[1..], key);
      InsertWithKey(x, s[1..], key, k);
      InsertPastWithKey(x, s, key, k);
    }
  }

  /** `x` goes in front of a sorted sequence whose keys are all larger. */
  lemma InsertFrontWithKey<T>(x: T, s: seq<T>, key: T -> int, k: int)
    requires SortedBy(s, key) && s != [] && key(x) < key(s[0])
    ensures WithKey(Insert(x, s, key), key, k) == WithKey(s, key, k) + (if key(x) == k then [x] else [])
  {
    var r := Insert(x, s, key);
    assert r == [x] + s;
    assert r[0] == x && r[1..] == s;
    if key(x) == k {
      assert forall i :: 0 <= i < |s| ==> key(s[0]) <= key(s[i]);
      WithKeyAbove(s, key, k);
    }
  }

  /** `x` goes past the first element: the selection of the rest decides. */
  lemma InsertPastWithKey<T>(x: T, s: seq<T>, key: T -> int, k: int)
    requires s != [] && key(x) >= key(s[0])
    requires WithKey(Insert(x, s[1..], key), key, k) == WithKey(s[1..], key, k) + (if key(x) == k then [x] else [])
    ensures WithKey(Insert(x, s, key), key, k) == WithKey(s, key, k) + (if key(x) == k then [x] else [])
  {
    var r := Insert(x, s, key);
    var rest := Insert(x, s[1..], key);
    var head := if key(s[0]) == k then [s[0]] else [];
    var xs := if key(x) == k then [x] else [];
    var selected := WithKey(s[1..], key, k);
    assert r == [s[0]] + rest;
    assert r[0] == s[0] && r[1..] == rest;
    assert WithKey(r, key, k) == head + (selected + xs);
    assert WithKey(s, key, k) == head + selected;
    AppendAssociates(head, selected, xs);
  }

  lemma AppendAssociates<T>(a: seq<T>, b: seq<T>, c: seq<T>)
    ensures a + (b + c) == (a + b) + c
  {
  }

  /** Inserting the last element into the sorted front: its key-`k`
      elements are those of the sorted front, then the last element if its
      key is `k`. */
  lemma {:induction false} InsertLastWithKey<T>(init: seq<T>, last: T, key: T -> int, k: int)
    ensures WithKey(Insert(last, SortBy(init, key), key), key, k)
            == WithKey(SortBy(init, key), key, k) + WithKey([last], key, k)
  {
    SortByOrders(init, key);
    InsertWithKey(last, SortBy(init, key), key, k);
    WithKeySingle(last, key, k);
  }

  /** The sort is stable: the elements of any one key keep their order. */
  lemma {:induction false} SortByStable<T>(s: seq<T>, key: T -> int, k: int)
    ensures WithKey(SortBy(s, key), key, k) == WithKey(s, key, k)
  {
    if s != [] {
      var init, last := s[..|s| - 1], s[|s| - 1];
      assert s == init + [last];
      calc {
        WithKey(SortBy(s, key), key, k);
        WithKey(Insert(last, SortBy(init, key), key), key, k);
        { InsertLastWithKey(init, last, key, k); }
        WithKey(SortBy(init, key), key, k) + WithKey([last], key, k);
        { SortByStable(init, key, k); }
        WithKey(init, key, k) + WithKey([last], key, k);
        { WithKeyAppend(init, [last], key, k); }
        WithKey(s, key, k);
      }
    }
  }

  /** Element 0 of the sort is the first of the elements with the least key. */
  lemma SortByHead<T>(s: seq<T>, key: T -> int, i: int)
    requires 0 <= i < |s|
    requires forall j :: 0 <= j < |s| ==> key(s[i]) <= key(s[j])
    requires forall j :: 0 <= j < i ==> key(s[i]) < key(s[j])
    ensures SortBy(s, key)[0] == s[i]
  {
    var r := SortBy(s, key);
    SortByPermutes(s, key);
    SortByOrders(s, key);
    assert r[0] in multiset(s);
    assert s[i] in multiset(r);
    var m := key(s[i]);
    assert key(r[0]) == m;
    SortByStable(s, key, m);
    WithKeyFirst(s, key, i);
    assert WithKey(r, key, m)[0] == r[0];
  }
}
