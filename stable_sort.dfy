/**
 * Stable sorting by descending integer key, the behaviour of
 * `array.sort((a, b) => key(b) - key(a))` in JavaScript, whose sort is
 * stable. Both the todo list's importance sort and the message queue's
 * priority sort are this operation.
 */
module StableSort {

  /** Keys never increase from left to right. */
  ghost predicate SortedDesc<T>(s: seq<T>, key: T -> int)
  {
    forall i, j :: 0 <= i < j < |s| ==> key(s[i]) >= key(s[j])
  }

  /** The elements of s whose key is k, in their order in s. */
  function WithKey<T>(s: seq<T>, key: T -> int, k: int): (r: seq<T>)
    ensures |r| <= |s|
  {
    if s == [] then []
    else (if key(s[0]) == k then [s[0]] else []) + WithKey(s[1..], key, k)
  }

  /** Places x after every leading element whose key is at least key(x). */
  function InsertDesc<T>(s: seq<T>, x: T, key: T -> int): (r: seq<T>)
    ensures |r| == |s| + 1
  {
    if s == [] then [x]
    else if key(s[0]) >= key(x) then [s[0]] + InsertDesc(s[1..], x, key)
    else [x] + s
  }

  /** The stable descending sort: each element in turn is inserted after the
      elements already placed whose key is at least its own. */
  function SortDesc<T>(s: seq<T>, key: T -> int): (r: seq<T>)
    ensures |r| == |s|
  {
    if s == [] then [] else InsertDesc(SortDesc(s[..|s| - 1], key), s[|s| - 1], key)
  }

  lemma {:induction false} InsertDescPermutes<T>(s: seq<T>, x: T, key: T -> int)
    ensures multiset(InsertDesc(s, x, key)) == multiset(s) + multiset{x}
  {
    if s != [] && key(s[0]) >= key(x) {
      InsertDescPermutes(s[1..], x, key);
      assert s == [s[0]] + s[1..];
    }
  }

  lemma {:induction false} InsertDescSorted<T>(s: seq<T>, x: T, key: T -> int)
    requires SortedDesc(s, key)
    ensures SortedDesc(InsertDesc(s, x, key), key)
  {
    if s != [] && key(s[0]) >= key(x) {
      InsertDescSorted(s[1..], x, key);
      var r := InsertDesc(s, x, key);
      InsertDescPermutes(s[1..], x, key);
      forall j | 1 <= j < |r| ensures key(r[0]) >= key(r[j]) {
        assert r[j] in multiset(InsertDesc(s[1..], x, key));
        assert r[j] in multiset(s[1..]) + multiset{x};
      }
    }
  }

  /** Inserting x into a sorted sequence keeps, for every key, the elements of that key
      in order, with x last among its own key. */
  lemma {:induction false} InsertDescStable<T>(s: seq<T>, x: T, key: T -> int, k: int)
    requires SortedDesc(s, key)
    ensures WithKey(InsertDesc(s, x, key), key, k)
            == WithKey(s, key, k) + (if key(x) == k then [x] else [])
  {
    if s == [] {
    } else if key(s[0]) >= key(x) {
      var r := InsertDesc(s, x, key);
      var head := if key(s[0]) == k then [s[0]] else [];
      InsertDescStable(s[1..], x, key, k);
      assert r[0] == s[0] && r[1..] == InsertDesc(s[1..], x, key);
      assert WithKey(r, key, k) == head + WithKey(r[1..], key, k);
      assert WithKey(s, key, k) == head + WithKey(s[1..], key, k);
    } else {
      // every element of s has a key below key(x), so none has key k when key(x) == k
      if key(x) == k {
        forall i | 0 <= i < |s| ensures key(s[i]) != k {
          assert i == 0 || key(s[0]) >= key(s[i]);
        }
        NoneWithKey(s, key, k);
      }
      assert ([x] + s)[1..] == s;
    }
  }

  lemma {:induction false} NoneWithKey<T>(s: seq<T>, key: T -> int, k: int)
    requires forall i :: 0 <= i < |s| ==> key(s[i]) != k
    ensures WithKey(s, key, k) == []
  {
    if s != [] {
      NoneWithKey(s[1..], key, k);
    }
  }

  lemma {:induction false} WithKeyAppend<T>(s: seq<T>, t: seq<T>, key: T -> int, k: int)
    ensures WithKey(s + t, key, k) == WithKey(s, key, k) + WithKey(t, key, k)
  {
    if s == [] {
      assert s + t == t;
    } else {
      var u := s + t;
      var head := if key(s[0]) == k then [s[0]] else [];
      assert u[0] == s[0] && u[1..] == s[1..] + t;
      WithKeyAppend(s[1..], t, key, k);
      assert WithKey(u, key, k) == head + WithKey(s[1..] + t, key, k);
      assert WithKey(s, key, k) == head + WithKey(s[1..], key, k);
    }
  }

  /** The result is sorted by descending key. */
  lemma {:induction false} SortDescSorted<T>(s: seq<T>, key: T -> int)
    ensures SortedDesc(SortDesc(s, key), key)
  {
    if s != [] {
      SortDescSorted(s[..|s| - 1], key);
      InsertDescSorted(SortDesc(s[..|s| - 1], key), s[|s| - 1], key);
    }
  }

  /** The result is a permutation of the input. */
  lemma {:induction false} SortDescPermutes<T>(s: seq<T>, key: T -> int)
    ensures multiset(SortDesc(s, key)) == multiset(s)
  {
    if s != [] {
      var init := s[..|s| - 1];
      SortDescPermutes(init, key);
      InsertDescPermutes(SortDesc(init, key), s[|s| - 1], key);
      assert s == init + [s[|s| - 1]];
    }
  }

  /** The sort is stable: elements with equal keys keep their relative order. */
  lemma {:induction false} SortDescStable<T>(s: seq<T>, key: T -> int, k: int)
    ensures WithKey(SortDesc(s, key), key, k) == WithKey(s, key, k)
  {
    if s != [] {
      var init, x := s[..|s| - 1], s[|s| - 1];
      SortDescStable(init, key, k);
      SortDescSorted(init, key);
      InsertDescStable(SortDesc(init, key), x, key, k);
      assert s == init + [x];
      WithKeyAppend(init, [x], key, k);
      assert WithKey([x], key, k) == (if key(x) == k then [x] else []) by {
        assert [x][1..] == [];
      }
    }
  }

  /** Inserting into a sorted sequence: the element lands after exactly the prefix of
      elements whose key is at least its own. */
  lemma {:induction false} InsertDescSplits<T>(s: seq<T>, x: T, key: T -> int)
    requires SortedDesc(s, key)
    ensures var n := CountAtLeast(s, key(x), key);
            n <= |s| && InsertDesc(s, x, key) == s[..n] + [x] + s[n..]
  {
    if s != [] && key(s[0]) >= key(x) {
      InsertDescSplits(s[1..], x, key);
      var n := CountAtLeast(s[1..], key(x), key);
      assert s[1..][..n] == s[1..n + 1];
      assert s[..n + 1] == [s[0]] + s[1..n + 1];
      assert s[1..][n..] == s[n + 1..];
    }
  }

  /** The length of the leading run of elements whose key is at least k. */
  function CountAtLeast<T>(s: seq<T>, k: int, key: T -> int): (n: nat)
    ensures n <= |s|
    ensures forall i :: 0 <= i < n ==> key(s[i]) >= k
    ensures n < |s| ==> key(s[n]) < k
  {
    if s == [] || key(s[0]) < k then 0 else 1 + CountAtLeast(s[1..], k, key)
  }

  /** A sorted sequence with one more element added at the end sorts to the insertion
      of that element: pushing then sorting is an ordered insert. */
  lemma SortAfterPush<T>(s: seq<T>, x: T, key: T -> int)
    requires SortedDesc(s, key)
    ensures SortDesc(s + [x], key) == InsertDesc(s, x, key)
  {
    assert (s + [x])[..|s|] == s;
    SortedFixpoint(s, key);
  }

  /** Sorting an already sorted sequence changes nothing. */
  lemma {:induction false} SortedFixpoint<T>(s: seq<T>, key: T -> int)
    requires SortedDesc(s, key)
    ensures SortDesc(s, key) == s
  {
    if s != [] {
      var init, x := s[..|s| - 1], s[|s| - 1];
      SortedFixpoint(init, key);
      InsertLast(init, x, key);
      assert init + [x] == s;
    }
  }

  lemma {:induction false} InsertLast<T>(s: seq<T>, x: T, key: T -> int)
    requires forall i :: 0 <= i < |s| ==> key(s[i]) >= key(x)
    ensures InsertDesc(s, x, key) == s + [x]
  {
    if s != [] {
      InsertLast(s[1..], x, key);
      assert s == [s[0]] + s[1..];
    }
  }
}
