/** Kotlin's `Int` and its `%` (`rem`), with the truncating `/` that defines
    it. Kotlin's `/` truncates toward zero and its `%` is the remainder of that
    division, so the remainder takes the sign of the dividend. Dafny's own `/`
    and `%` are Euclidean, so both are written out here. */
module KotlinInt {

  /** A Kotlin `Int`: a signed 32-bit two's-complement integer. */
  newtype Int32 = x: int | -0x8000_0000 <= x < 0x8000_0000

  function Abs(x: int): (r: nat)
    ensures r == x || r == -x
  {
    if x < 0 then -x else x
  }

  /** Kotlin's `a / b` on mathematical integers: the quotient truncated toward
      zero. The JVM raises ArithmeticException when `b == 0`. */
  function Div(a: int, b: int): (q: int)
    requires b != 0
  {
    var n := Abs(a) / Abs(b);
    if (a < 0) == (b < 0) then n else -n
  }

  /** Kotlin's `a % b`: the remainder of truncated division. It is smaller than
      the divisor in magnitude, no larger than the dividend in magnitude, and
      never of the opposite sign to the dividend. The JVM raises
      ArithmeticException when `b == 0`. */
  function Rem(a: int, b: int): (r: int)
    requires b != 0
    ensures Abs(r) < Abs(b)
    ensures Abs(r) <= Abs(a)
    ensures a >= 0 ==> r >= 0
    ensures a <= 0 ==> r <= 0
  {
    ModBounds(Abs(a), Abs(b));
    var m := Abs(a) % Abs(b);
    if a < 0 then -m else m
  }

  /** The Euclidean remainder of naturals is below the divisor and no larger
      than the dividend. */
  lemma {:induction false} ModBounds(x: nat, d: nat)
    requires d > 0
    ensures x % d < d && x % d <= x
  {
    if x >= d {
      var q := x / d;
      assert x == q * d + x % d;
      MulNonNegative(q, d);
    }
  }

  /** Multiplication commutes with taking magnitudes. */
  lemma AbsMul(x: int, y: int)
    ensures Abs(x * y) == Abs(x) * Abs(y)
  {
    if x < 0 && y < 0 {
      assert x * y == (-x) * (-y);
    } else if x < 0 {
      assert x * y == -((-x) * y);
    } else if y < 0 {
      assert x * y == -(x * (-y));
    }
  }

  /** The defining identity of Kotlin's `rem`: `a == (a / b) * b + a % b`. */
  lemma {:induction false} DivRem(a: int, b: int)
    requires b != 0
    ensures a == Div(a, b) * b + Rem(a, b)
  {
    var q, r := Div(a, b), Rem(a, b);
    var n, m := Abs(a) / Abs(b), Abs(a) % Abs(b);
    assert Abs(a) == n * Abs(b) + m;
    assert Abs(q) == n && Abs(r) == m;
    AbsMul(q, b);
    if a < 0 {
      assert q * b <= 0 && r <= 0;
    } else {
      assert q * b >= 0 && r >= 0;
    }
  }

  lemma MulSub(x: int, y: int, b: int)
    ensures (x - y) * b == x * b - y * b
  {
  }

  /** A nonzero multiple of `b` is at least as large as `b` in magnitude. */
  lemma {:induction false} MultipleMagnitude(k: int, b: int)
    requires k != 0
    ensures Abs(k * b) >= Abs(b)
  {
    AbsMul(k, b);
    var n, d := Abs(k), Abs(b);
    MulSub(n, 1, d);
    MulNonNegative(n - 1, d);
  }

  lemma MulNonNegative(x: nat, y: nat)
    ensures x * y >= 0
  {
  }

  /** Kotlin's `rem` is the only remainder of `a` by `b` that is smaller than
      `b` in magnitude and does not have the opposite sign to `a`. */
  lemma {:induction false} RemUnique(a: int, b: int, q: int, r: int)
    requires b != 0
    requires a == q * b + r
    requires Abs(r) < Abs(b)
    requires a >= 0 ==> r >= 0
    requires a <= 0 ==> r <= 0
    ensures r == Rem(a, b)
    ensures q == Div(a, b)
  {
    var q', r' := Div(a, b), Rem(a, b);
    DivRem(a, b);
    MulSub(q', q, b);
    assert (q' - q) * b == r - r';
    if a >= 0 {
      assert 0 <= r < Abs(b) && 0 <= r' < Abs(b);
    } else {
      assert 0 <= -r < Abs(b) && 0 <= -r' < Abs(b);
    }
    assert Abs(r - r') < Abs(b);
    if q' != q {
      MultipleMagnitude(q' - q, b);
      assert false;
    }
  }

  /** On a non-negative dividend and a positive divisor Kotlin's `%` and the
      Euclidean `%` agree. */
  lemma {:induction false} RemAgreesWithModOnNaturals(a: int, b: int)
    requires a >= 0 && b > 0
    ensures Rem(a, b) == a % b
  {
  }

  /** On a negative dividend and a positive divisor the two remainders agree
      on an exact multiple, where both are 0, and otherwise differ by exactly
      the divisor. */
  lemma {:induction false} RemAndModOnNegatives(a: int, b: int)
    requires a < 0 && b > 0
    ensures Rem(a, b) == 0 ==> a % b == 0
    ensures Rem(a, b) != 0 ==> a % b == Rem(a, b) + b
  {
    var q, r := Div(a, b), Rem(a, b);
    DivRem(a, b);
    var e, m := a / b, a % b;
    // The Euclidean remainder candidate built from Kotlin's quotient.
    var r2, q2 := if r == 0 then 0 else r + b, if r == 0 then q else q - 1;
    MulSub(q, 1, b);
    assert a == q2 * b + r2;
    assert 0 <= r2 < b;
    MulSub(e, q2, b);
    assert (e - q2) * b == r2 - m;
    if e != q2 {
      MultipleMagnitude(e - q2, b);
      assert false;
    }
  }

  /** For example, `-7 % 3` is -1 in Kotlin and 2 in Euclidean arithmetic. */
  lemma RemDiffersFromModOnNegatives()
    ensures Rem(-7, 3) == -1 && -7 % 3 == 2
  {
  }
}
