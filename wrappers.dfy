/** Optional values: Python's `None` and "no data" results of a fetch. */
module Wrappers {

  datatype Option<+T> = None | Some(value: T) {

    /** The value, or `default` when there is none (Python's `x or default`). */
    function GetOr(default: T): T {
      match this
      case Some(v) => v
      case None => default
    }
  }

  /** The values `f` yields over `xs`, in order, skipping the elements it yields none for. */
  function Kept<T, U>(xs: seq<T>, f: T -> Option<U>): (r: seq<U>)
    ensures |r| <= |xs|
  {
    if xs == [] then []
    else Kept(xs[..|xs| - 1], f) + (match f(xs[|xs| - 1]) case Some(u) => [u] case None => [])
  }

  /** A value is kept exactly when some element yields it. */
  lemma {:induction false} KeptMembers<T, U>(xs: seq<T>, f: T -> Option<U>, u: U)
    ensures u in Kept(xs, f) <==> exists i :: 0 <= i < |xs| && f(xs[i]) == Some(u)
    decreases |xs|
  {
    if xs != [] {
      var m := |xs| - 1;
      KeptMembers(xs[..m], f, u);
      if u in Kept(xs[..m], f) {
        var i :| 0 <= i < m && f(xs[..m][i]) == Some(u);
        assert f(xs[i]) == Some(u);
      }
      if exists i :: 0 <= i < |xs| && f(xs[i]) == Some(u) {
        var i :| 0 <= i < |xs| && f(xs[i]) == Some(u);
        if i < m {
          assert f(xs[..m][i]) == Some(u);
        }
      }
    }
  }

  /** Keeping over a non-empty sequence: what its first element yields, then the rest kept. */
  lemma KeptCons<T, U>(xs: seq<T>, f: T -> Option<U>)
    requires xs != []
    ensures Kept(xs, f) == (match f(xs[0]) case Some(u) => [u] case None => []) + Kept(xs[1..], f)
  {
    assert [xs[0]] + xs[1..] == xs;
    assert [xs[0]][..0] == [];
    KeptSplit([xs[0]], xs[1..], f);
  }

  /** Keeping distributes over concatenation. */
  lemma {:induction false} KeptSplit<T, U>(xs: seq<T>, ys: seq<T>, f: T -> Option<U>)
    ensures Kept(xs + ys, f) == Kept(xs, f) + Kept(ys, f)
    decreases |ys|
  {
    if ys == [] {
      assert xs + ys == xs;
    } else {
      var m := |ys| - 1;
      assert (xs + ys)[..|xs + ys| - 1] == xs + ys[..m];
      assert (xs + ys)[|xs + ys| - 1] == ys[m];
      KeptSplit(xs, ys[..m], f);
    }
  }
}
