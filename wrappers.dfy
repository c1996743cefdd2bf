/** Optional values and results with an error, shared by every module. */
module Wrappers {

  /** A value that may be missing (Go's nil pointer or "not found"). */
  datatype Option<+T> = None | Some(value: T)

  /** A value or an error; the error is usually Go's error text. */
  datatype Result<+T, +E> = Ok(value: T) | Err(error: E)

  /** errors.Wrap: nil stays nil, otherwise the message is prefixed. */
  function Wrap(e: Option<string>, prefix: string): (w: Option<string>)
    ensures w.None? <==> e.None?
    ensures e.Some? ==> w.value == prefix + ": " + e.value
  {
    if e.None? then None else Some(prefix + ": " + e.value)
  }

  // Small facts about sequences built one element at a time.

  lemma SnocTail<T>(xs: seq<T>, x: T)
    requires |xs| > 0
    ensures (xs + [x])[0] == xs[0] && (xs + [x])[1..] == xs[1..] + [x]
  {
  }

  lemma ConsSnoc<T>(x: T, xs: seq<T>, y: T)
    ensures [x] + (xs + [y]) == ([x] + xs) + [y]
  {
  }

  lemma TakeSnoc<T>(xs: seq<T>, i: nat)
    requires i < |xs|
    ensures xs[..i + 1] == xs[..i] + [xs[i]] && |xs[..i]| == i
  {
  }

  /** The concatenation of f(0, xs[0]), f(1, xs[1]), ... in order. */
  function ConcatIndexed<T, U>(xs: seq<T>, f: (nat, T) -> seq<U>): seq<U>
    decreases |xs|
  {
    if |xs| == 0 then [] else ConcatIndexed(xs[..|xs| - 1], f) + f(|xs| - 1, xs[|xs| - 1])
  }

  /** An element of the concatenation comes from one of its pieces. */
  lemma {:induction false} ConcatIndexedIn<T, U>(xs: seq<T>, f: (nat, T) -> seq<U>, u: U)
    ensures u in ConcatIndexed(xs, f) <==> exists i :: 0 <= i < |xs| && u in f(i, xs[i])
    decreases |xs|
  {
    if |xs| > 0 {
      var n := |xs| - 1;
      ConcatIndexedIn(xs[..n], f, u);
      if u in ConcatIndexed(xs[..n], f) {
        var i :| 0 <= i < n && u in f(i, xs[..n][i]);
        assert xs[..n][i] == xs[i];
      } else if u !in f(n, xs[n]) {
        forall i | 0 <= i < |xs|
          ensures u !in f(i, xs[i])
        {
          if i < n {
            assert xs[..n][i] == xs[i];
          }
        }
      }
    }
  }

  /** The concatenation taken one more element at a time. */
  lemma ConcatIndexedTake<T, U>(xs: seq<T>, f: (nat, T) -> seq<U>, i: nat)
    requires i < |xs|
    ensures ConcatIndexed(xs[..i + 1], f) == ConcatIndexed(xs[..i], f) + f(i, xs[i])
  {
    assert xs[..i + 1][..i] == xs[..i];
  }

  /** Elements from index `k` on that add nothing can be dropped. */
  lemma {:induction false} ConcatIndexedUpTo<T, U>(xs: seq<T>, f: (nat, T) -> seq<U>, k: nat)
    requires k <= |xs|
    requires forall i :: k <= i < |xs| ==> f(i, xs[i]) == []
    ensures ConcatIndexed(xs, f) == ConcatIndexed(xs[..k], f)
    decreases |xs|
  {
    if |xs| > k {
      var n := |xs| - 1;
      assert xs[..n][..k] == xs[..k];
      assert forall i :: k <= i < n ==> xs[..n][i] == xs[i];
      ConcatIndexedUpTo(xs[..n], f, k);
      assert f(n, xs[n]) == [];
      assert ConcatIndexed(xs, f) == ConcatIndexed(xs[..n], f) + [];
    } else {
      assert xs[..k] == xs;
    }
  }

  /** A concatenation to which only the first three elements add anything. */
  lemma ConcatIndexedFirstThree<T, U>(xs: seq<T>, f: (nat, T) -> seq<U>)
    requires |xs| >= 1
    requires forall i :: 3 <= i < |xs| ==> f(i, xs[i]) == []
    ensures ConcatIndexed(xs, f) ==
      f(0, xs[0]) + (if |xs| > 1 then f(1, xs[1]) else []) + (if |xs| > 2 then f(2, xs[2]) else [])
  {
    var m := if |xs| < 3 then |xs| else 3;
    ConcatIndexedUpTo(xs, f, m);
    ConcatIndexedPrefix(xs, f, m);
  }

  /** The concatenation of the first one, two or three elements written out. */
  lemma ConcatIndexedPrefix<T, U>(xs: seq<T>, f: (nat, T) -> seq<U>, m: nat)
    requires 1 <= m <= 3 && m <= |xs|
    ensures ConcatIndexed(xs[..m], f) ==
      f(0, xs[0]) + (if m > 1 then f(1, xs[1]) else []) + (if m > 2 then f(2, xs[2]) else [])
  {
    var c1 := ConcatIndexed(xs[..1], f);
    ConcatIndexedTake(xs, f, 0);
    assert xs[..0] == [];
    assert c1 == f(0, xs[0]);
    if m > 1 {
      ConcatIndexedTake(xs, f, 1);
      var c2 := ConcatIndexed(xs[..2], f);
      assert c2 == c1 + f(1, xs[1]);
      if m > 2 {
        ConcatIndexedTake(xs, f, 2);
      }
    }
  }

}
