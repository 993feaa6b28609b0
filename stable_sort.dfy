/**
 * Python's `sorted(xs, key=k)` for a key that is a naive datetime: a stable
 * sort. It is written here as an insertion sort that puts each element after
 * every element whose key is not greater, and is characterised by three
 * lemmas: the result is ordered, it is a permutation of the input, and for
 * every key value the elements carrying it keep their input order.
 */
module StableSort {
  import opened Dates

  predicate SortedBy<T>(s: seq<T>, key: T -> Wall) {
    forall i, j :: 0 <= i < j < |s| ==> WallLe(key(s[i]), key(s[j]))
  }

  /** Inserts `x` into `s` after the last element whose key is not greater than `x`'s. */
  function Insert<T>(s: seq<T>, x: T, key: T -> Wall): seq<T>
  {
    if |s| == 0 || WallLe(key(s[|s| - 1]), key(x)) then s + [x]
    else Insert(s[..|s| - 1], x, key) + [s[|s| - 1]]
  }

  function SortBy<T>(s: seq<T>, key: T -> Wall): seq<T>
  {
    if |s| == 0 then [] else Insert(SortBy(s[..|s| - 1], key), s[|s| - 1], key)
  }

  /** The elements of `s` whose key is `w`, in their order in `s`. */
  function WithKey<T>(s: seq<T>, key: T -> Wall, w: Wall): seq<T>
  {
    if |s| == 0 then []
    else WithKey(s[..|s| - 1], key, w) + (if key(s[|s| - 1]) == w then [s[|s| - 1]] else [])
  }

  lemma {:induction false} WithKeyAppend<T>(a: seq<T>, b: seq<T>, key: T -> Wall, w: Wall)
    ensures WithKey(a + b, key, w) == WithKey(a, key, w) + WithKey(b, key, w)
    decreases |b|
  {
    if |b| == 0 {
      assert a + b == a;
    } else {
      var n := |b| - 1;
      assert (a + b)[..|a + b| - 1] == a + b[..n];
      assert (a + b)[|a + b| - 1] == b[n];
      WithKeyAppend(a, b[..n], key, w);
    }
  }

  lemma {:induction false} InsertPermutes<T>(s: seq<T>, x: T, key: T -> Wall)
    ensures |Insert(s, x, key)| == |s| + 1
    ensures multiset(Insert(s, x, key)) == multiset(s) + multiset{x}
  {
    if |s| == 0 || WallLe(key(s[|s| - 1]), key(x)) {
    } else {
      var n := |s| - 1;
      InsertPermutes(s[..n], x, key);
      assert s == s[..n] + [s[n]];
    }
  }

  lemma {:induction false} InsertSorted<T>(s: seq<T>, x: T, key: T -> Wall)
    requires SortedBy(s, key)
    ensures SortedBy(Insert(s, x, key), key)
  {
    if |s| == 0 {
    } else if WallLe(key(s[|s| - 1]), key(x)) {
      var r := s + [x];
      forall i, j | 0 <= i < j < |r|
        ensures WallLe(key(r[i]), key(r[j]))
      {
        if j == |s| && i < |s| - 1 {
          WallLeTransitive(key(s[i]), key(s[|s| - 1]), key(x));
        }
      }
    } else {
      var n := |s| - 1;
      var t := Insert(s[..n], x, key);
      InsertSorted(s[..n], x, key);
      InsertPermutes(s[..n], x, key);
      WallLeTotal(key(s[n]), key(x));
      var r := t + [s[n]];
      forall i, j | 0 <= i < j < |r|
        ensures WallLe(key(r[i]), key(r[j]))
      {
        if j == |t| {
          var e := t[i];
          assert e in multiset(t);
          if e != x {
            assert e in multiset(s[..n]);
            var k :| 0 <= k < n && s[..n][k] == e;
          }
        }
      }
    }
  }

  lemma {:induction false} InsertWithKey<T>(s: seq<T>, x: T, key: T -> Wall, w: Wall)
    ensures WithKey(Insert(s, x, key), key, w) == WithKey(s, key, w) + (if key(x) == w then [x] else [])
  {
    if |s| == 0 || WallLe(key(s[|s| - 1]), key(x)) {
      WithKeyAppend(s, [x], key, w);
    } else {
      var n := |s| - 1;
      InsertWithKey(s[..n], x, key, w);
      WithKeyAppend(Insert(s[..n], x, key), [s[n]], key, w);
      if key(x) == w && key(s[n]) == w {
        WallLeReflexive(key(x));
        assert false;
      }
    }
  }

  lemma {:induction false} SortByPermutes<T>(s: seq<T>, key: T -> Wall)
    ensures |SortBy(s, key)| == |s|
    ensures multiset(SortBy(s, key)) == multiset(s)
  {
    if |s| > 0 {
      var n := |s| - 1;
      SortByPermutes(s[..n], key);
      InsertPermutes(SortBy(s[..n], key), s[n], key);
      assert s == s[..n] + [s[n]];
    }
  }

  lemma {:induction false} SortBySorted<T>(s: seq<T>, key: T -> Wall)
    ensures SortedBy(SortBy(s, key), key)
  {
    if |s| > 0 {
      SortBySorted(s[..|s| - 1], key);
      InsertSorted(SortBy(s[..|s| - 1], key), s[|s| - 1], key);
    }
  }

  lemma {:induction false} SortByStable<T>(s: seq<T>, key: T -> Wall, w: Wall)
    ensures WithKey(SortBy(s, key), key, w) == WithKey(s, key, w)
  {
    if |s| > 0 {
      var n := |s| - 1;
      SortByStable(s[..n], key, w);
      InsertWithKey(SortBy(s[..n], key), s[n], key, w);
    }
  }
}
