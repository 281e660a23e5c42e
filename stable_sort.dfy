/**
 * Python's stable sort in descending key order: `sorted(xs, key=k, reverse=True)` and
 * `xs.sort(key=k, reverse=True)`. Elements with equal keys keep their input order.
 */
module StableSort {

  /** Keys never increase along the sequence. */
  ghost predicate SortedDesc<T>(s: seq<T>, key: T -> real)
  {
    forall i, j :: 0 <= i < j < |s| ==> key(s[i]) >= key(s[j])
  }

  /** The elements of `s` whose key is `c`, in the order they occur in `s`. */
  function WithKey<T>(s: seq<T>, key: T -> real, c: real): seq<T>
  {
    if |s| == 0 then []
    else WithKey(s[..|s| - 1], key, c) + (if key(s[|s| - 1]) == c then [s[|s| - 1]] else [])
  }

  /**
   * Inserts `x` into a descending sequence behind every element whose key is at least
   * `key(x)`, so that `x` comes after the earlier elements it ties with.
   */
  function InsertDesc<T>(x: T, s: seq<T>, key: T -> real): (r: seq<T>)
    ensures |r| == |s| + 1
    ensures multiset(r) == multiset(s) + multiset{x}
  {
    if |s| == 0 then [x]
    else if key(s[0]) >= key(x) then
      assert s == [s[0]] + s[1..];
      [s[0]] + InsertDesc(x, s[1..], key)
    else [x] + s
  }

  lemma {:induction false} InsertDescSorted<T>(x: T, s: seq<T>, key: T -> real)
    requires SortedDesc(s, key)
    ensures SortedDesc(InsertDesc(x, s, key), key)
  {
    if |s| > 0 {
      var r := InsertDesc(x, s, key);
      if key(s[0]) >= key(x) {
        var t := InsertDesc(x, s[1..], key);
        InsertDescSorted(x, s[1..], key);
        assert r == [s[0]] + t;
        forall k | 0 <= k < |t|
          ensures key(s[0]) >= key(t[k])
        {
          assert t[k] in multiset(t);
          assert t[k] in multiset(s[1..]) || t[k] == x;
          if t[k] != x {
            var m :| 0 <= m < |s[1..]| && s[1..][m] == t[k];
            assert s[m + 1] == t[k];
          }
        }
      }
    }
  }

  /** Insertion sort, taking the elements in input order. */
  function SortDesc<T>(xs: seq<T>, key: T -> real): (r: seq<T>)
    ensures |r| == |xs|
    ensures multiset(r) == multiset(xs)
  {
    if |xs| == 0 then []
    else
      var rest := SortDesc(xs[..|xs| - 1], key);
      assert xs == xs[..|xs| - 1] + [xs[|xs| - 1]];
      InsertDesc(xs[|xs| - 1], rest, key)
  }

  /** A single element is already sorted. */
  lemma SortDescSingle<T>(x: T, key: T -> real)
    ensures SortDesc([x], key) == [x]
  {
    assert [x][..0] == [];
  }

  /** The sort keeps exactly the elements it was given. */
  lemma SortDescMembers<T>(xs: seq<T>, key: T -> real)
    ensures forall x :: x in SortDesc(xs, key) <==> x in xs
  {
    var r := SortDesc(xs, key);
    forall x ensures x in r <==> x in xs {
      assert x in r <==> x in multiset(r);
      assert x in xs <==> x in multiset(xs);
    }
  }

  /** An element the first `k` places of the sorted sequence leave out ranks no higher than any of them. */
  lemma SortDescPrefixDominates<T>(xs: seq<T>, key: T -> real, k: nat, x: T, y: T)
    requires k <= |xs|
    requires x in xs && x !in SortDesc(xs, key)[..k] && y in SortDesc(xs, key)[..k]
    ensures key(x) <= key(y)
  {
    var r := SortDesc(xs, key);
    SortDescSorted(xs, key);
    SortDescMembers(xs, key);
    var j :| 0 <= j < |r| && r[j] == x;
    var i :| 0 <= i < k && r[..k][i] == y;
    assert j >= k;
  }

  /** The result of the sort is in descending key order. */
  lemma {:induction false} SortDescSorted<T>(xs: seq<T>, key: T -> real)
    ensures SortedDesc(SortDesc(xs, key), key)
  {
    if |xs| > 0 {
      SortDescSorted(xs[..|xs| - 1], key);
      InsertDescSorted(xs[|xs| - 1], SortDesc(xs[..|xs| - 1], key), key);
    }
  }

  lemma {:induction false} WithKeyAppend<T>(u: seq<T>, v: seq<T>, key: T -> real, c: real)
    ensures WithKey(u + v, key, c) == WithKey(u, key, c) + WithKey(v, key, c)
  {
    if |v| > 0 {
      var n := |v|;
      assert (u + v)[..|u + v| - 1] == u + v[..n - 1];
      WithKeyAppend(u, v[..n - 1], key, c);
    } else {
      assert u + v == u;
    }
  }

  lemma {:induction false} WithKeyAbsent<T>(s: seq<T>, key: T -> real, c: real)
    requires forall k :: 0 <= k < |s| ==> key(s[k]) < c
    ensures WithKey(s, key, c) == []
  {
    if |s| > 0 {
      WithKeyAbsent(s[..|s| - 1], key, c);
    }
  }

  lemma WithKeySingle<T>(a: T, key: T -> real, c: real)
    ensures WithKey([a], key, c) == if key(a) == c then [a] else []
  {
    assert [a][..0] == [];
  }

  /** The tail of a descending sequence is descending, and its head has the largest key. */
  lemma SortedDescTail<T>(s: seq<T>, key: T -> real)
    requires |s| > 0 && SortedDesc(s, key)
    ensures SortedDesc(s[1..], key)
    ensures forall k :: 0 <= k < |s| ==> key(s[k]) <= key(s[0])
  {
  }

  /** Putting `head` in front of two sequences whose `c`-keyed elements differ by `extra` keeps that difference. */
  lemma WithKeyCons<T>(head: T, s: seq<T>, t: seq<T>, key: T -> real, c: real, extra: seq<T>)
    requires WithKey(t, key, c) == WithKey(s, key, c) + extra
    ensures WithKey([head] + t, key, c) == WithKey([head] + s, key, c) + extra
  {
    WithKeyAppend([head], s, key, c);
    WithKeyAppend([head], t, key, c);
  }

  /** `x` placed in front of a sequence whose keys all lie below `key(x)`. */
  lemma WithKeyFront<T>(x: T, s: seq<T>, key: T -> real, c: real)
    requires forall k :: 0 <= k < |s| ==> key(s[k]) < key(x)
    ensures WithKey([x] + s, key, c) == WithKey(s, key, c) + (if key(x) == c then [x] else [])
  {
    WithKeySingle(x, key, c);
    WithKeyAppend([x], s, key, c);
    if key(x) == c {
      WithKeyAbsent(s, key, c);
    }
  }

  lemma {:induction false} InsertDescWithKey<T>(x: T, s: seq<T>, key: T -> real, c: real)
    requires SortedDesc(s, key)
    ensures WithKey(InsertDesc(x, s, key), key, c)
         == WithKey(s, key, c) + (if key(x) == c then [x] else [])
  {
    if |s| == 0 {
      WithKeySingle(x, key, c);
      assert InsertDesc(x, s, key) == [x];
    } else {
      SortedDescTail(s, key);
      if key(s[0]) >= key(x) {
        InsertDescWithKey(x, s[1..], key, c);
        WithKeyCons(s[0], s[1..], InsertDesc(x, s[1..], key), key, c, if key(x) == c then [x] else []);
        assert [s[0]] + s[1..] == s;
      } else {
        WithKeyFront(x, s, key, c);
      }
    }
  }

  /** Stability: for every key value, the elements with that key keep their input order. */
  lemma {:induction false} SortDescStable<T>(xs: seq<T>, key: T -> real, c: real)
    ensures WithKey(SortDesc(xs, key), key, c) == WithKey(xs, key, c)
  {
    if |xs| > 0 {
      var n := |xs|;
      SortDescStable(xs[..n - 1], key, c);
      SortDescSorted(xs[..n - 1], key);
      InsertDescWithKey(xs[n - 1], SortDesc(xs[..n - 1], key), key, c);
    }
  }
}
