/**
  The round-robin cursor both scanner revisions use to pick a nameserver: an
  unsigned 32-bit counter that is atomically incremented before each pick,
  and the pick `Nameservers[counter % len(Nameservers)]`.
 */
module Rotation {
  import opened Wrappers

  newtype uint32 = x: int | 0 <= x < 0x1_0000_0000

  /** The nameserver chosen for cursor value `idx`; `None` is Go's division-by-zero panic. */
  function NSAt(ns: seq<string>, idx: uint32): (r: Option<string>)
    ensures r.None? <==> |ns| == 0
    ensures r.Some? ==> r.value == ns[idx as int % |ns|]
  {
    if |ns| == 0 then None else Some(ns[idx as int % |ns|])
  }

  /** atomic.AddUint32(&idx, 1): one increment, wrapping from 2^32-1 to 0. */
  function Next(c: uint32): (r: uint32)
    ensures r as int == (c as int + 1) % 0x1_0000_0000
  {
    if c == 0xFFFF_FFFF then 0 else c + 1
  }

  /** The cursor after the k-th call, starting from `start`. */
  function Cursor(start: uint32, k: nat): uint32
    decreases k
  {
    if k == 0 then start else Next(Cursor(start, k - 1))
  }

  /** A multiple of n is 0 or at least n away from 0. */
  lemma MulRange(n: int, q: int)
    requires n > 0
    ensures q == 0 || n * q >= n || n * q <= -n
  {
    if q >= 1 {
      assert n * q == n + n * (q - 1);
    } else if q <= -1 {
      assert n * q == -n + n * (q + 1);
    }
  }

  /** Euclidean division has a unique quotient and remainder. */
  lemma DivModUnique(x: int, n: int, q: int, r: int)
    requires n > 0 && 0 <= r < n && x == n * q + r
    ensures x % n == r
  {
    var q0, r0 := x / n, x % n;
    assert x == n * q0 + r0;
    assert n * (q - q0) == n * q - n * q0;
    MulRange(n, q - q0);
  }

  /** One more call after k calls is the (k+1)-th call. */
  lemma CursorStep(start: uint32, k: nat)
    ensures Cursor(Cursor(start, k), 1) == Cursor(start, k + 1)
  {
  }

  /** k calls after j calls are j+k calls. */
  lemma {:induction false} CursorSum(start: uint32, j: nat, k: nat)
    ensures Cursor(Cursor(start, j), k) == Cursor(start, j + k)
    decreases k
  {
    if k > 0 {
      CursorSum(start, j, k - 1);
    }
  }

  /** The cursor is the start plus the number of calls, modulo 2^32. */
  lemma {:induction false} CursorMod(start: uint32, k: nat)
    ensures Cursor(start, k) as int == (start as int + k) % 0x1_0000_0000
    decreases k
  {
    var m := 0x1_0000_0000;
    if k == 0 {
      DivModUnique(start as int, m, 0, start as int);
    } else {
      CursorMod(start, k - 1);
      var x := start as int + k - 1;
      var q, r := x / m, x % m;
      assert x == m * q + r;
      if r + 1 < m {
        DivModUnique(x + 1, m, q, r + 1);
        DivModUnique(r + 1, m, 0, r + 1);
      } else {
        assert m * (q + 1) == m * q + m;
        DivModUnique(x + 1, m, q + 1, 0);
        DivModUnique(r + 1, m, 1, 0);
      }
    }
  }

  /**
    Without wrap-around, `|ns|` consecutive calls visit every server: each
    index is reached by one of the calls.
   */
  lemma RoundRobin(ns: seq<string>, start: uint32, i: nat)
    requires 0 < |ns| && i < |ns|
    requires start as int + |ns| < 0x1_0000_0000
    ensures exists k :: 1 <= k <= |ns| && NSAt(ns, Cursor(start, k)) == Some(ns[i])
  {
    var n := |ns|;
    var m := i - start as int - 1;
    var d := m / n;
    var k := m % n + 1;
    assert m == n * d + (k - 1);
    assert start as int + k == n * (-d) + i;
    DivModUnique(start as int + k, n, -d, i);
    CursorNoWrap(start, k);
  }

  /** Before the wrap, the cursor is the start plus the number of calls. */
  lemma CursorNoWrap(start: uint32, k: nat)
    requires start as int + k < 0x1_0000_0000
    ensures Cursor(start, k) as int == start as int + k
  {
    CursorMod(start, k);
    DivModUnique(start as int + k, 0x1_0000_0000, 0, start as int + k);
  }

  /** Distinct calls in such a window pick distinct indices, so each server is visited exactly once. */
  lemma RoundRobinDistinct(ns: seq<string>, start: uint32, k1: nat, k2: nat)
    requires 0 < |ns| && 1 <= k1 < k2 <= |ns|
    requires start as int + |ns| < 0x1_0000_0000
    ensures Cursor(start, k1) as int % |ns| != Cursor(start, k2) as int % |ns|
  {
    CursorNoWrap(start, k1);
    CursorNoWrap(start, k2);
    CloseResidues(start as int + k1, start as int + k2, |ns|);
  }

  /** Two numbers less than n apart have different remainders modulo n. */
  lemma CloseResidues(a: int, b: int, n: int)
    requires n > 0 && a < b < a + n
    ensures a % n != b % n
  {
    var qa, qb, ra, rb := a / n, b / n, a % n, b % n;
    assert a == n * qa + ra && 0 <= ra < n;
    assert b == n * qb + rb && 0 <= rb < n;
    if ra == rb {
      assert n * (qb - qa) == n * qb - n * qa;
      assert n * (qb - qa) == b - a;
      MulRange(n, qb - qa);
    }
  }

  /**
    At the 32-bit wrap a server can be chosen twice in a row: with three
    servers the cursor values 2^32-1 and 0 both pick the first one.
   */
  lemma WrapRepeats(ns: seq<string>)
    requires |ns| == 3
    ensures Cursor(0xFFFF_FFFE, 1) == 0xFFFF_FFFF && Cursor(0xFFFF_FFFE, 2) == 0
    ensures NSAt(ns, Cursor(0xFFFF_FFFE, 1)) == NSAt(ns, Cursor(0xFFFF_FFFE, 2)) == Some(ns[0])
  {
  }

}
