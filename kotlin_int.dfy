/** Kotlin `Int` division, as the app uses it. */
module KotlinInt {

  /** `a / b` on Kotlin `Int`: the quotient is truncated toward zero (Dafny's `/` is
      Euclidean and differs from it when `a` is negative). Every divisor in the app is positive. */
  function Div(a: int, b: int): (q: int)
    requires b > 0
    ensures a >= 0 ==> q * b <= a < q * b + b
    ensures a < 0 ==> q * b - b < a <= q * b
    ensures a >= 0 ==> q == a / b
  {
    if a >= 0 then a / b else -((-a) / b)
  }

  /** For a non-negative dividend and a positive divisor, the truncated quotient is the
      unique `q` with `q * b <= a < q * b + b`. */
  lemma DivUnique(a: int, b: int, q: int)
    requires a >= 0 && b > 0
    requires q * b <= a < q * b + b
    ensures Div(a, b) == q
  {
    var d := Div(a, b);
    if d < q {
      MulMonotone(d + 1, q, b);
    } else if d > q {
      MulMonotone(q + 1, d, b);
    }
  }

  lemma MulMonotone(x: int, y: int, b: int)
    requires x <= y && b >= 0
    ensures x * b <= y * b
  {
    assert y * b - x * b == (y - x) * b;
  }

  /** Dividing by the same positive number keeps the order of non-negative dividends. */
  lemma DivMonotone(a: int, b: int, n: int)
    requires 0 <= a <= b && n > 0
    ensures a / n <= b / n
  {
    if a / n > b / n {
      MulMonotone(b / n + 1, a / n, n);
    }
  }

  /** A floor percentage `c * 100 / n` of a part `c` of a positive whole `n` lies in 0..100
      and reaches 100 exactly when the part is the whole. */
  lemma PercentBounds(c: int, n: int)
    requires 0 <= c <= n && n > 0
    ensures 0 <= c * 100 / n <= 100
    ensures c * 100 / n == 100 <==> c == n
  {
    MulMonotone(c, n, 100);
    DivMonotone(c * 100, n * 100, n);
    DivUnique(n * 100, n, 100);
    if c < n {
      MulMonotone(c, n - 1, 100);
      MulMonotone(c * 100 / n, 100, n);
    }
  }

  /** The floor quotient `x / n` reaches `k` exactly when `x` reaches `k * n`. */
  lemma DivAtLeast(x: int, n: int, k: int)
    requires x >= 0 && n > 0
    ensures x / n >= k <==> x >= k * n
  {
    if x / n >= k {
      MulMonotone(k, x / n, n);
    } else {
      MulMonotone(x / n + 1, k, n);
    }
  }
}
