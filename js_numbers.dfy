/** JavaScript number operations the game relies on, for integer operands. */
module JsNumbers {

  /** JavaScript's `%`: the remainder takes the sign of the dividend. */
  function JsRemainder(a: int, b: int): (r: int)
    requires b != 0
    ensures a >= 0 ==> 0 <= r < (if b > 0 then b else -b)
    ensures a >= 0 && b > 0 ==> r == a % b
    ensures a < 0 ==> -(if b > 0 then b else -b) < r <= 0
  {
    var m := if b > 0 then b else -b;
    if a >= 0 then a % m else -((-a) % m)
  }

  /** The remainder of a dividend below three times the divisor. */
  lemma SmallRemainder(a: int, n: int)
    requires n > 0 && 0 <= a < 3 * n
    ensures a % n == if a < n then a else if a < 2 * n then a - n else a - 2 * n
  {
    if a < n {
      RemainderUnique(a, n, 0, a);
    } else if a < 2 * n {
      RemainderUnique(a, n, 1, a - n);
    } else {
      RemainderUnique(a, n, 2, a - 2 * n);
    }
  }

  /** Euclidean division is unique: a quotient and a remainder in range are the ones `/` and `%` give. */
  lemma RemainderUnique(a: int, n: int, q: int, r: int)
    requires n > 0 && a == q * n + r && 0 <= r < n
    ensures a % n == r
  {
    var d := q - a / n;
    assert d * n == a % n - r;
    MultipleBound(d, n);
  }

  /** A non-zero multiple of a positive `n` is at least `n` away from zero. */
  lemma {:induction false} MultipleBound(d: int, n: int)
    requires n > 0
    ensures d >= 1 ==> d * n >= n
    ensures d <= -1 ==> d * n <= -n
    decreases if d < 0 then -d else d
  {
    if d > 1 {
      MultipleBound(d - 1, n);
      assert d * n == (d - 1) * n + n;
    } else if d < -1 {
      MultipleBound(d + 1, n);
      assert d * n == (d + 1) * n - n;
    }
  }
}
