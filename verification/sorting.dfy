/** LINQ's `OrderBy(key)`: a stable sort on an integer key, written as an
    insertion sort that places each element before every later element whose
    key is not smaller. */
module Sorting {

  ghost predicate SortedBy<T>(s: seq<T>, key: T -> int)
  {
    forall i, j :: 0 <= i < j < |s| ==> key(s[i]) <= key(s[j])
  }

  ghost predicate KeysAtLeast<T>(s: seq<T>, key: T -> int, bound: int)
  {
    forall i :: 0 <= i < |s| ==> bound <= key(s[i])
  }

  /** Inserts `x` into `t` in front of the first element whose key is at
      least `key(x)`. */
  function Insert<T>(x: T, t: seq<T>, key: T -> int): (r: seq<T>)
    ensures multiset(r) == multiset(t) + multiset{x}
    ensures |r| == |t| + 1
  {
    if t == [] || key(x) <= key(t[0]) then [x] + t
    else
      assert t == [t[0]] + t[1..];
      [t[0]] + Insert(x, t[1..], key)
  }

  /** A sorted sequence stays sorted when an element is inserted, and a lower
      bound of all keys survives when the new key respects it. */
  lemma {:induction false} InsertSorted<T>(x: T, t: seq<T>, key: T -> int, bound: int)
    requires SortedBy(t, key)
    ensures SortedBy(Insert(x, t, key), key)
    ensures KeysAtLeast(t, key, bound) && bound <= key(x) ==> KeysAtLeast(Insert(x, t, key), key, bound)
  {
    if t == [] || key(x) <= key(t[0]) {
      var r := [x] + t;
      assert KeysAtLeast(t, key, key(x)) by {
        forall i | 0 <= i < |t| ensures key(x) <= key(t[i]) {
          if 0 < i { assert key(t[0]) <= key(t[i]); }
        }
      }
      assert SortedBy(r, key) by {
        forall i, j | 0 <= i < j < |r| ensures key(r[i]) <= key(r[j]) {
          if i > 0 { assert r[i] == t[i - 1] && r[j] == t[j - 1]; }
          else { assert r[j] == t[j - 1]; }
        }
      }
    } else {
      var rest := t[1..];
      assert SortedBy(rest, key);
      assert KeysAtLeast(rest, key, key(t[0])) by {
        forall i | 0 <= i < |rest| ensures key(t[0]) <= key(rest[i]) {
          assert rest[i] == t[i + 1];
        }
      }
      InsertSorted(x, rest, key, key(t[0]));
      var inner := Insert(x, rest, key);
      var r := [t[0]] + inner;
      assert SortedBy(r, key) by {
        forall i, j | 0 <= i < j < |r| ensures key(r[i]) <= key(r[j]) {
          assert r[j] == inner[j - 1];
          if i > 0 { assert r[i] == inner[i - 1]; }
        }
      }
      if KeysAtLeast(t, key, bound) && bound <= key(x) {
        assert KeysAtLeast(rest, key, bound) by {
          forall i | 0 <= i < |rest| ensures bound <= key(rest[i]) {
            assert rest[i] == t[i + 1];
          }
        }
        InsertSorted(x, rest, key, bound);
      }
    }
  }

  function SortBy<T>(s: seq<T>, key: T -> int): (r: seq<T>)
    ensures multiset(r) == multiset(s)
    ensures SortedBy(r, key)
  {
    if s == [] then []
    else
      var sorted := SortBy(s[1..], key);
      assert s == [s[0]] + s[1..];
      InsertSorted(s[0], sorted, key, 0);
      Insert(s[0], sorted, key)
  }

  /** The elements of `s` whose key is `k`, in their order in `s`. */
  function WithKey<T>(s: seq<T>, key: T -> int, k: int): seq<T>
  {
    if s == [] then []
    else if key(s[0]) == k then [s[0]] + WithKey(s[1..], key, k)
    else WithKey(s[1..], key, k)
  }

  /** Insertion puts `x` after nothing of its own key: every element it
      passes has a smaller key. */
  lemma {:induction false} InsertWithKey<T>(x: T, t: seq<T>, key: T -> int, k: int)
    ensures WithKey(Insert(x, t, key), key, k)
         == (if key(x) == k then [x] + WithKey(t, key, k) else WithKey(t, key, k))
  {
    if t == [] || key(x) <= key(t[0]) {
      assert ([x] + t)[1..] == t;
    } else {
      InsertWithKey(x, t[1..], key, k);
      var r := [t[0]] + Insert(x, t[1..], key);
      assert r[1..] == Insert(x, t[1..], key);
    }
  }

  /** Stability: for every key, the elements carrying it appear in the sorted
      result in the same order as in the input. */
  lemma {:induction false} SortByStable<T>(s: seq<T>, key: T -> int, k: int)
    ensures WithKey(SortBy(s, key), key, k) == WithKey(s, key, k)
  {
    if s != [] {
      SortByStable(s[1..], key, k);
      InsertWithKey(s[0], SortBy(s[1..], key), key, k);
    }
  }

  /** Sorting a sequence that is already in key order leaves it as it is:
      the sort is stable, so no two elements trade places. */
  lemma {:induction false} SortByOfSorted<T>(s: seq<T>, key: T -> int)
    requires SortedBy(s, key)
    ensures SortBy(s, key) == s
  {
    if s != [] {
      var rest := s[1..];
      SortedTail(s, key);
      SortByOfSorted(rest, key);
      assert rest != [] ==> key(s[0]) <= key(rest[0]) by {
        if rest != [] { assert rest[0] == s[1]; }
      }
      InsertFront(s[0], rest, key);
      assert s == [s[0]] + rest;
    }
  }

  /** An element no larger than the head of a sequence goes in front. */
  lemma InsertFront<T>(x: T, t: seq<T>, key: T -> int)
    requires t != [] ==> key(x) <= key(t[0])
    ensures Insert(x, t, key) == [x] + t
  {
  }

  /** The tail of a sequence in key order is in key order. */
  lemma SortedTail<T>(s: seq<T>, key: T -> int)
    requires s != [] && SortedBy(s, key)
    ensures SortedBy(s[1..], key)
  {
    var rest := s[1..];
    forall i, j | 0 <= i < j < |rest| ensures key(rest[i]) <= key(rest[j]) {
      assert rest[i] == s[i + 1] && rest[j] == s[j + 1];
    }
  }
}
