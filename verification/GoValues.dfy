/** Values and arithmetic of Go: nil, and integer division, which truncates toward zero. */
module GoValues {

  datatype Option<T> = None | Some(value: T)

  /** A slice or a map; comparison tells nil from empty. */
  datatype Nilable<T> = Nil | Of(value: T)

  function Quotient(a: int, n: int): int
    requires n > 0
  {
    if a >= 0 then a / n else -((-a) / n)
  }

  lemma Times(k: int, n: int)
    requires n > 0
    ensures k >= 1 ==> k * n >= n
    ensures k <= -1 ==> k * n <= -n
  {
    if k >= 1 {
      assert (k - 1) * n >= 0;
    } else if k <= -1 {
      assert (k + 1) * n <= 0;
    }
  }

  lemma UniqueQuotient(x: int, d: int, r: int, q: int, n: int)
    requires n > 0 && x == d * n + r && 0 <= r < n && q * n <= x < q * n + n
    ensures d == q
  {
    Times(d - q, n);
    assert (d - q) * n == d * n - q * n;
  }

  lemma QuotientIs(x: int, q: int, n: int)
    requires n > 0 && q * n <= x < q * n + n
    ensures x / n == q
  {
    var d, r := x / n, x % n;
    UniqueQuotient(x, d, r, q, n);
  }

  lemma ProductQuotient(a: nat, n: int)
    requires n > 0
    ensures a * n / n == a
  {
    QuotientIs(a * n, a, n);
  }

  /** `q` is what is left of `a` when it is divided by `n` and the fraction is dropped. */
  predicate Truncated(a: int, n: int, q: int) {
    if a >= 0 then q * n <= a < q * n + n else q * n - n < a <= q * n
  }

  lemma Divides(b: nat, n: int)
    requires n > 0
    ensures b / n * n <= b < b / n * n + n
  {
    var d, r := b / n, b % n;
    assert b == d * n + r;
  }

  /** Truncation toward zero fixes the quotient, whatever the sign. */
  lemma QuotientTruncates(a: int, n: int, q: int)
    requires n > 0
    ensures Truncated(a, n, q) <==> q == Quotient(a, n)
  {
    var b := if a >= 0 then a else -a;
    var p := if a >= 0 then q else -q;
    assert p * n == if a >= 0 then q * n else -(q * n);
    Divides(b, n);
    if Truncated(a, n, q) {
      QuotientIs(b, p, n);
    }
  }

  /** Scaling up and down again is exact. */
  lemma ScaledQuotient(a: int, n: int)
    requires n > 0
    ensures Quotient(a * n, n) == a
  {
    if a >= 0 {
      ProductQuotient(a, n);
    } else {
      ProductQuotient(-a, n);
      assert -(a * n) == (-a) * n && a * n < 0;
    }
  }

  lemma Product(b: int, n: int)
    requires n > 1 && b > 0
    ensures b * n > b
  {
    assert b * (n - 1) > 0;
  }

  /** Dividing without having scaled loses something, unless there is one zone or no node. */
  lemma UnscaledQuotient(a: int, n: int)
    requires n > 0
    ensures Quotient(a, n) == a <==> n == 1 || a == 0
  {
    var b := if a >= 0 then a else -a;
    if n > 1 && b > 0 && b / n == b {
      Product(b, n);
    }
  }

  lemma ScaledSign(a: int, n: int)
    requires n > 0
    ensures a * n > 0 <==> a > 0
    ensures a != 0 ==> (a * n == a <==> n == 1)
  {
    if a > 0 {
      assert a * n >= a;
      assert n > 1 ==> a * n == a + a * (n - 1) && a * (n - 1) > 0;
    } else if a < 0 {
      assert a * n <= a;
      assert n > 1 ==> a * n == a + a * (n - 1) && a * (n - 1) < 0;
    }
  }
}
