/** The dispatcher's round-robin cursor: one 64-bit counter, incremented before each use and reduced
    modulo the length of the list it picks from (relay-node/mesh/dispatcher.go). */
module RoundRobin {

  const WRAP := 0x1_0000_0000_0000_0000

  /** The cursor after `k` increments from `rr`. */
  function Cursor(rr: nat, k: nat): nat {
    (rr + k) % WRAP
  }

  /** How often `k` increments from `rr` pick position `i` of a list of `n`. */
  function Picks(rr: nat, k: nat, n: nat, i: nat): nat
    requires n > 0
  {
    if k == 0 then 0 else Picks(rr, k - 1, n, i) + if Cursor(rr, k) % n == i then 1 else 0
  }

  function Floor(k: nat, n: nat): nat
    requires n > 0
  {
    k / n
  }

  function Ceiling(k: nat, n: nat): nat
    requires n > 0
  {
    (k + n - 1) / n
  }

  /** Each position gets its share of the picks, rounded one way or the other. */
  ghost predicate Fair(rr: nat, k: nat, n: nat)
    requires n > 0
  {
    forall i :: 0 <= i < n ==> Floor(k, n) <= Picks(rr, k, n, i) <= Ceiling(k, n)
  }

  /** Moving the cursor one at a time is counting: the k-th of a run of picks uses Cursor(rr, k). */
  lemma CursorSteps(rr: nat, k: nat)
    ensures Cursor(Cursor(rr, k), 1) == Cursor(rr, k + 1)
  {
    var q, r := (rr + k) / WRAP, (rr + k) % WRAP;
    assert rr + k == q * WRAP + r;
    if r + 1 < WRAP {
      Division(q, r + 1, WRAP);
      Division(0, r + 1, WRAP);
    } else {
      Division(q + 1, 0, WRAP);
      Division(1, 0, WRAP);
    }
  }

  // ---- A cursor that never wraps ----

  /** How many of the `k` numbers after `a` leave remainder `i`. */
  ghost function Hits(a: nat, k: nat, n: nat, i: nat): nat
    requires n > 0
  {
    if k == 0 then 0 else Hits(a, k - 1, n, i) + if (a + k) % n == i then 1 else 0
  }

  lemma {:induction false} HitsFromZero(k: nat, n: nat, i: nat)
    requires k <= n && i < n
    ensures Hits(0, k, n, i) == if 1 <= i <= k || (i == 0 && k == n) then 1 else 0
  {
    if k > 0 {
      HitsFromZero(k - 1, n, i);
      if k < n {
        Division(0, k, n);
      } else {
        Division(1, 0, n);
      }
    }
  }

  lemma {:induction false} HitsSplit(a: nat, j: nat, k: nat, n: nat, i: nat)
    requires n > 0
    ensures Hits(a, j + k, n, i) == Hits(a, j, n, i) + Hits(a + j, k, n, i)
  {
    if k > 0 {
      HitsSplit(a, j, k - 1, n, i);
      assert a + (j + k) == (a + j) + k;
    }
  }

  /** Quotient and remainder are the only way to split a number over `n`. */
  lemma Division(q: nat, r: nat, n: nat)
    requires r < n
    ensures (q * n + r) / n == q && (q * n + r) % n == r
  {
    var x := q * n + r;
    var q', r' := x / n, x % n;
    assert x == q' * n + r';
    if q' < q {
      Gap(q', q, n);
    } else if q < q' {
      Gap(q, q', n);
    }
  }

  lemma {:induction false} Gap(q: nat, p: nat, n: nat)
    requires q < p
    ensures q * n + n <= p * n
    decreases p
  {
    assert p * n == (p - 1) * n + n;
    if q < p - 1 {
      Gap(q, p - 1, n);
    }
  }

  lemma AddMultiple(a: nat, m: nat, n: nat)
    requires n > 0
    ensures (a + m * n) % n == a % n && (a + m * n) / n == a / n + m
  {
    var q, r := a / n, a % n;
    assert a == q * n + r;
    assert a + m * n == (q + m) * n + r;
    Division(q + m, r, n);
  }

  lemma SameRemainder(a: nat, n: nat)
    requires n > 0
    ensures (a + n) % n == a % n && (a + n) / n == a / n + 1
  {
    AddMultiple(a, 1, n);
  }

  /** Any `n` consecutive numbers leave each remainder once. */
  lemma {:induction false} FullTurn(a: nat, n: nat, i: nat)
    requires n > 0 && i < n
    ensures Hits(a, n, n, i) == 1
  {
    if a == 0 {
      HitsFromZero(n, n, i);
    } else {
      FullTurn(a - 1, n, i);
      HitsSplit(a - 1, 1, n, n, i);
      HitsSplit(a - 1, n, 1, n, i);
      SameRemainder(a, n);
      assert Hits(a - 1, 1, n, i) == Hits(a - 1, 0, n, i) + if a % n == i then 1 else 0;
      assert Hits(a - 1 + n, 1, n, i) == Hits(a - 1 + n, 0, n, i) + if (a - 1 + n + 1) % n == i then 1 else 0;
    }
  }

  lemma ShortRun(a: nat, k: nat, n: nat, i: nat)
    requires i < n && k < n
    ensures Hits(a, k, n, i) <= if k == 0 then 0 else 1
  {
    FullTurn(a, n, i);
    HitsSplit(a, k, n - k, n, i);
  }

  lemma {:induction false} HitsAreFair(a: nat, k: nat, n: nat, i: nat)
    requires n > 0 && i < n
    ensures Floor(k, n) <= Hits(a, k, n, i) <= Ceiling(k, n)
    decreases k
  {
    hide Floor, Ceiling, Hits;
    Quotients(k, n);
    if k < n {
      ShortRun(a, k, n, i);
    } else {
      FullTurn(a, n, i);
      HitsSplit(a, n, k - n, n, i);
      HitsAreFair(a + n, k - n, n, i);
    }
  }

  lemma Quotients(k: nat, n: nat)
    requires n > 0
    ensures k < n ==> Floor(k, n) == 0 && Ceiling(k, n) == if k == 0 then 0 else 1
    ensures k >= n ==> Floor(k, n) == Floor(k - n, n) + 1 && Ceiling(k, n) == Ceiling(k - n, n) + 1
  {
    if k < n {
      Division(0, k, n);
      if k == 0 {
        Division(0, n - 1, n);
      } else {
        Division(1, k - 1, n);
      }
    } else {
      SameRemainder(k - n, n);
      SameRemainder(k - 1, n);
    }
  }

  // ---- The 64-bit cursor ----

  lemma ModMod(x: nat, n: nat)
    requires n > 0 && WRAP % n == 0
    ensures x % WRAP % n == x % n
  {
    var q, m := x / WRAP, WRAP / n;
    assert x == q * WRAP + x % WRAP;
    assert WRAP == m * n;
    assert x == x % WRAP + (q * m) * n;
    AddMultiple(x % WRAP, q * m, n);
  }

  lemma CursorRemainder(x: nat, n: nat)
    requires n > 0 && (x < WRAP || WRAP % n == 0)
    ensures x % WRAP % n == x % n
  {
    if x < WRAP {
      Division(0, x, WRAP);
    } else {
      ModMod(x, n);
    }
  }

  lemma {:induction false} PicksAreHits(rr: nat, k: nat, n: nat, i: nat)
    requires n > 0 && (rr + k < WRAP || WRAP % n == 0)
    ensures Picks(rr, k, n, i) == Hits(rr, k, n, i)
  {
    if k > 0 {
      PicksAreHits(rr, k - 1, n, i);
      CursorRemainder(rr + k, n);
    }
  }

  /** While the cursor does not wrap, or when the list length divides 2^64, any number of consecutive
      picks from one unchanged list is spread as evenly as it can be. */
  lemma PicksAreFair(rr: nat, k: nat, n: nat)
    requires n > 0 && (rr + k < WRAP || WRAP % n == 0)
    ensures Fair(rr, k, n)
  {
    forall i | 0 <= i < n ensures Floor(k, n) <= Picks(rr, k, n, i) <= Ceiling(k, n) {
      PicksAreHits(rr, k, n, i);
      HitsAreFair(rr, k, n, i);
    }
  }

  /** Across the wrap, the turn that ends on the last cursor values misses the last position. */
  lemma {:induction false} WrapMisses(n: nat, k: nat)
    requires 0 < n <= WRAP && WRAP % n != 0 && k <= n
    ensures Picks(WRAP - 1 - WRAP % n, k, n, n - 1) == 0
  {
    if k > 0 {
      WrapMisses(n, k - 1);
      CursorAtWrap(n, k);
    }
  }

  lemma CursorAtWrap(n: nat, k: nat)
    requires 0 < n <= WRAP && WRAP % n != 0 && 0 < k <= n
    ensures Cursor(WRAP - 1 - WRAP % n, k) % n < n - 1
  {
    var r, q := WRAP % n, WRAP / n;
    assert WRAP == q * n + r;
    if k <= r {
      Division(0, q * n + (k - 1), WRAP);
      Division(q, k - 1, n);
    } else {
      Division(1, k - 1 - r, WRAP);
      Division(0, k - 1 - r, n);
    }
  }

  /** The cursor is fair to a list of `n` over every run of picks exactly when `n` divides 2^64. */
  lemma FairForeverIff(n: nat)
    requires 0 < n <= WRAP
    ensures (forall rr, k :: 0 <= rr < WRAP && 0 <= k ==> Fair(rr, k, n)) <==> WRAP % n == 0
  {
    if WRAP % n == 0 {
      forall rr: nat, k: nat | rr < WRAP ensures Fair(rr, k, n) {
        PicksAreFair(rr, k, n);
      }
    } else {
      WrapMisses(n, n);
      assert !Fair(WRAP - 1 - WRAP % n, n, n);
    }
  }
}
