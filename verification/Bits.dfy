/** The power-of-two masks of the ring buffers. */
module Bits {
  /** Bitwise and. */
  function And(a: nat, b: nat): nat {
    if a == 0 || b == 0 then 0
    else 2 * And(a / 2, b / 2) + (if a % 2 == 1 && b % 2 == 1 then 1 else 0)
  }

  predicate PowerOfTwo(n: nat) {
    n == 1 || (n > 1 && n % 2 == 0 && PowerOfTwo(n / 2))
  }

  lemma {:induction false} AndSelf(n: nat)
    ensures And(n, n) == n
  {
    if n > 0 {
      AndSelf(n / 2);
    }
  }

  /** The constructor's check accepts exactly the powers of two. */
  lemma {:induction false} CheckIsPowerOfTwo(n: nat)
    requires n >= 1
    ensures And(n, n - 1) == 0 <==> PowerOfTwo(n)
  {
    if n > 1 {
      if n % 2 == 0 {
        assert (n - 1) / 2 == n / 2 - 1;
        CheckIsPowerOfTwo(n / 2);
      } else {
        assert (n - 1) / 2 == n / 2;
        AndSelf(n / 2);
      }
    }
  }

  lemma ModHalves(p: nat, n: nat)
    requires n >= 1
    ensures p % (2 * n) == 2 * ((p / 2) % n) + p % 2
  {
    var q, r := (p / 2) / n, (p / 2) % n;
    assert p == 2 * (q * n + r) + p % 2;
    assert p == q * (2 * n) + (2 * r + p % 2);
    ModUnique(p, 2 * n, q, 2 * r + p % 2);
  }

  lemma AtLeastOne(k: int, n: nat)
    requires k >= 1
    ensures k * n >= n
  {
    assert (k - 1) * n >= 0;
    assert k * n == (k - 1) * n + n;
  }

  lemma Distribute(a: int, b: int, n: int)
    ensures (a - b) * n == a * n - b * n
  {
  }

  lemma ModUnique(p: nat, n: nat, q: nat, r: nat)
    requires n >= 1 && p == q * n + r && r < n
    ensures p % n == r
  {
    var q', r' := p / n, p % n;
    assert p == q' * n + r';
    Distribute(q, q', n);
    Distribute(q', q, n);
    if q > q' {
      AtLeastOne(q - q', n);
    } else if q < q' {
      AtLeastOne(q' - q, n);
    }
  }

  /** The mask takes the remainder. */
  lemma {:induction false} MaskIsModulo(p: nat, n: nat)
    requires PowerOfTwo(n)
    ensures And(p, n - 1) == p % n
  {
    if n > 1 {
      MaskIsModulo(p / 2, n / 2);
      ModHalves(p, n / 2);
      assert (n - 1) / 2 == n / 2 - 1 && (n - 1) % 2 == 1;
    }
  }

  /** Two positions of one slot are a whole turn apart. */
  lemma TurnsApart(a: nat, b: nat, n: nat)
    requires n >= 1 && a % n == b % n && a < b
    ensures a + n <= b
  {
    var qa, qb := a / n, b / n;
    assert a == qa * n + a % n && b == qb * n + b % n;
    Distribute(qb, qa, n);
    Distribute(qa, qb, n);
    if qb > qa {
      AtLeastOne(qb - qa, n);
    } else if qb < qa {
      AtLeastOne(qa - qb, n);
    }
  }

  lemma NextTurn(a: nat, n: nat)
    requires n >= 1
    ensures (a + n) % n == a % n
  {
    ModUnique(a + n, n, a / n + 1, a % n);
  }
}
