/**
 * Python's `list.sort(key=..., reverse=...)`, as a sort under an ordering
 * `le` ("may come before"), which must be a total preorder: every two items
 * are comparable and the relation is transitive. A key sort with
 * `reverse=True` is `le(a, b) := key(a) >= key(b)`.
 */
module Sorting {

  ghost predicate TotalPreorder<T(!new)>(le: (T, T) -> bool) {
    (forall a, b :: le(a, b) || le(b, a)) &&
    (forall a, b, c :: le(a, b) && le(b, c) ==> le(a, c))
  }

  ghost predicate SortedBy<T>(s: seq<T>, le: (T, T) -> bool) {
    forall i, j :: 0 <= i < j < |s| ==> le(s[i], s[j])
  }

  /** Inserts `x` after every item that may come before it. */
  method InsertSorted<T(!new)>(r: seq<T>, x: T, le: (T, T) -> bool) returns (r': seq<T>)
    requires TotalPreorder(le)
    requires SortedBy(r, le)
    ensures SortedBy(r', le)
    ensures multiset(r') == multiset(r) + multiset{x}
  {
    var j := 0;
    while j < |r| && le(r[j], x)
      invariant 0 <= j <= |r|
      invariant forall k :: 0 <= k < j ==> le(r[k], x)
    {
      j := j + 1;
    }
    // Everything from j on may come after x.
    forall k | j <= k < |r|
      ensures le(x, r[k])
    {
      assert !le(r[j], x);
      assert le(x, r[j]);
      if k > j { assert le(r[j], r[k]); }
    }
    r' := r[..j] + [x] + r[j..];
    assert r == r[..j] + r[j..];
    SpliceSorted(r, j, x, le);
  }

  /** Putting `x` between a prefix that may come before it and a suffix that may come after it keeps the order. */
  lemma SpliceSorted<T>(r: seq<T>, j: nat, x: T, le: (T, T) -> bool)
    requires j <= |r| && SortedBy(r, le)
    requires forall k :: 0 <= k < j ==> le(r[k], x)
    requires forall k :: j <= k < |r| ==> le(x, r[k])
    ensures SortedBy(r[..j] + [x] + r[j..], le)
  {
    var r' := r[..j] + [x] + r[j..];
    forall a, b | 0 <= a < b < |r'|
      ensures le(r'[a], r'[b])
    {
      if b < j {
        assert r'[a] == r[a] && r'[b] == r[b];
      } else if b == j {
        assert r'[a] == r[a] && r'[b] == x;
      } else if a < j {
        assert r'[a] == r[a] && r'[b] == r[b - 1];
      } else if a == j {
        assert r'[a] == x && r'[b] == r[b - 1];
      } else {
        assert r'[a] == r[a - 1] && r'[b] == r[b - 1];
      }
    }
  }

  /** Sorts `s`: the result is ordered by `le` and is a permutation of `s`. */
  method SortBy<T(!new)>(s: seq<T>, le: (T, T) -> bool) returns (r: seq<T>)
    requires TotalPreorder(le)
    ensures SortedBy(r, le)
    ensures multiset(r) == multiset(s)
  {
    r := [];
    var i := 0;
    while i < |s|
      invariant 0 <= i <= |s|
      invariant SortedBy(r, le)
      invariant multiset(r) == multiset(s[..i])
    {
      r := InsertSorted(r, s[i], le);
      assert s[..i + 1] == s[..i] + [s[i]];
      i := i + 1;
    }
    assert s[..|s|] == s;
  }

  /**
   * In a sorted sequence every item after position k may come after every
   * item before it: the first k items are the "top k".
   */
  lemma {:induction false} PrefixIsTop<T(!new)>(s: seq<T>, k: nat, le: (T, T) -> bool)
    requires SortedBy(s, le)
    requires k <= |s|
    ensures forall x, y :: x in multiset(s[k..]) && y in multiset(s[..k]) ==> le(y, x)
  {
    forall x, y | x in multiset(s[k..]) && y in multiset(s[..k])
      ensures le(y, x)
    {
      assert x in s[k..];
      assert y in s[..k];
      var a :| 0 <= a < k && s[a] == y;
      var b :| k <= b < |s| && s[b] == x;
    }
  }

  /**
   * The first k items of a sorted permutation of `pool` are a top-k of
   * `pool`: they are drawn from it, and every item of `pool` left out may come
   * after each of them.
   */
  lemma PrefixIsTopOf<T(!new)>(s: seq<T>, pool: seq<T>, k: nat, le: (T, T) -> bool)
    requires SortedBy(s, le)
    requires multiset(s) == multiset(pool)
    requires k <= |s|
    ensures multiset(s[..k]) <= multiset(pool)
    ensures forall x, y :: x in multiset(pool) - multiset(s[..k]) && y in multiset(s[..k]) ==> le(y, x)
  {
    assert s == s[..k] + s[k..];
    assert multiset(pool) - multiset(s[..k]) == multiset(s[k..]);
    PrefixIsTop(s, k, le);
  }
}
