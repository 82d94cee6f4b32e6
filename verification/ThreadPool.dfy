/** EventLoopThreadPool.cpp: round-robin choice of the loop that serves a new connection. Loop 0 is the base
    loop, loops 1 to n are the pool's. */
module ThreadPools {
  /** `next_` after one call. */
  function Advance(next: nat, n: nat): nat {
    if n == 0 then next else if next + 1 >= n then 0 else next + 1
  }

  /** The loop `next_` stands for; an empty pool hands out the base loop. */
  function Chosen(n: nat, next: nat): nat {
    if n == 0 then 0 else 1 + next
  }

  function Advances(n: nat, k: nat): nat {
    if k == 0 then 0 else Advance(Advances(n, k - 1), n)
  }

  /** The loop given to the connection after `k` earlier ones. */
  function LoopOf(n: nat, k: nat): (l: nat)
    ensures l <= n
  {
    if n == 0 then 0 else 1 + k % n
  }

  lemma Multiples(d: int, n: int)
    requires n > 0
    ensures d > 0 ==> d * n >= n
    ensures d < 0 ==> d * n <= -n
  {
  }

  lemma DivModUnique(k: nat, n: nat, q: nat, r: nat)
    requires n > 0 && r < n && k == q * n + r
    ensures k / n == q && k % n == r
  {
    var d := k / n - q;
    assert d * n == r - k % n;
    Multiples(d, n);
  }

  lemma DivModStep(k: nat, n: nat)
    requires n > 0
    ensures k % n + 1 < n ==> (k + 1) % n == k % n + 1 && (k + 1) / n == k / n
    ensures k % n + 1 == n ==> (k + 1) % n == 0 && (k + 1) / n == k / n + 1
  {
    if k % n + 1 < n {
      DivModUnique(k + 1, n, k / n, k % n + 1);
    } else {
      assert (k / n + 1) * n == (k / n) * n + n;
      DivModUnique(k + 1, n, k / n + 1, 0);
    }
  }

  /** The wrapped counter is the number of earlier calls modulo the number of loops. */
  lemma {:induction false} AdvancesIsMod(n: nat, k: nat)
    requires n > 0
    ensures Advances(n, k) == k % n
    decreases k
  {
    if k > 0 {
      AdvancesIsMod(n, k - 1);
      DivModStep(k - 1, n);
      assert (k - 1) % n < n;
    }
  }

  /** The counter that is advanced and wrapped picks the loop by the remainder. */
  lemma ChosenIsLoopOf(n: nat, k: nat)
    ensures Chosen(n, Advances(n, k)) == LoopOf(n, k)
  {
    if n > 0 {
      AdvancesIsMod(n, k);
    }
  }

  /** How many of the first `k` connections went to loop `l`. */
  function Load(n: nat, k: nat, l: nat): nat {
    if k == 0 then 0 else Load(n, k - 1, l) + if LoopOf(n, k - 1) == l then 1 else 0
  }

  lemma {:induction false} LoadFormula(n: nat, k: nat, l: nat)
    requires 1 <= l <= n
    ensures Load(n, k, l) == k / n + if l - 1 < k % n then 1 else 0
    decreases k
  {
    if k == 0 {
      DivModUnique(0, n, 0, 0);
    } else {
      LoadFormula(n, k - 1, l);
      DivModStep(k - 1, n);
      assert (k - 1) % n < n;
    }
  }

  /** After any number of connections the loads of two pool loops differ by at most one. */
  lemma LoadsBalanced(n: nat, k: nat, a: nat, b: nat)
    requires 1 <= a <= n && 1 <= b <= n
    ensures Load(n, k, a) <= Load(n, k, b) + 1
  {
    LoadFormula(n, k, a);
    LoadFormula(n, k, b);
  }

  class EventLoopThreadPool {
    const loops: nat
    var next: nat
    ghost var served: nat

    ghost predicate Valid()
      reads this
    {
      next == Advances(loops, served)
    }

    constructor (loops: nat)
      ensures Valid() && this.loops == loops && served == 0
    {
      this.loops, next, served := loops, 0, 0;
    }

    /** The connection served after `k` others goes to loop `1 + k mod n`, or to the base loop when the
        pool has no threads. */
    method GetNextLoop() returns (loop: nat)
      requires Valid()
      modifies this
      ensures Valid() && served == old(served) + 1
      ensures loop == LoopOf(loops, old(served))
    {
      loop := 0;
      if loops > 0 {
        AdvancesIsMod(loops, served);
        loop := 1 + next;
        next := next + 1;
        if next >= loops {
          next := 0;
        }
      }
      served := served + 1;
    }
  }
}
