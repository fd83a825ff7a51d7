/**
 * The four integer tools of the math server. Python integers are
 * unbounded, like Dafny's `int`, so no wrap-around is modelled; `//` is
 * Python's floor division, which is not Dafny's Euclidean `/` when the
 * divisor is negative.
 */
module BasicMath {
  import opened Wrappers

  /** `a // 0` raises ZeroDivisionError. */
  datatype MathError = ZeroDivisionError

  /** `add(a, b)`: the sum of two integers. */
  function Add(a: int, b: int): int
  {
    a + b
  }

  /** `subtract(a, b)`: the difference of two integers. */
  function Subtract(a: int, b: int): int
  {
    a - b
  }

  /** `multiply(a, b)`: the product of two integers. */
  function Multiply(a: int, b: int): int
  {
    a * b
  }

  /**
   * `q` is the floor of `a / b`: the largest integer whose multiple of `b`
   * does not pass `a` on the side of zero that `b` lies on.
   */
  ghost predicate IsFloorQuotient(a: int, b: int, q: int)
  {
    (b > 0 && q * b <= a < q * b + b) || (b < 0 && q * b >= a > q * b + b)
  }

  /** Floor division for a non-zero divisor, built from Euclidean division. */
  function FloorDiv(a: int, b: int): (q: int)
    requires b != 0
    ensures IsFloorQuotient(a, b, q)
  {
    if b > 0 then a / b
    else
      var d := -b;
      var q := (-a) / d;
      assert q * d <= -a < q * d + d;
      assert q * b == -(q * d);
      q
  }

  /** `divide(a, b)`, that is `a // b`: floor division, an error for `b == 0`. */
  function Divide(a: int, b: int): (r: Result<int, MathError>)
    ensures r.Failure? <==> b == 0
    ensures r.Success? ==> IsFloorQuotient(a, b, r.value)
  {
    if b == 0 then Failure(ZeroDivisionError) else Success(FloorDiv(a, b))
  }

  /** Multiplying by a positive number keeps the order of its factors. */
  lemma MultiplyPositiveMonotone(x: int, y: int, b: int)
    requires x < y && b > 0
    ensures x * b + b <= y * b
  {
    assert (y - x) * b >= b by {
      assert y - x >= 1;
    }
    assert y * b - x * b == (y - x) * b;
  }

  /** Floor quotients are unique: at most one integer meets the characterisation. */
  lemma {:induction false} FloorQuotientUnique(a: int, b: int, q1: int, q2: int)
    requires IsFloorQuotient(a, b, q1) && IsFloorQuotient(a, b, q2)
    ensures q1 == q2
  {
    if b > 0 {
      if q1 < q2 { MultiplyPositiveMonotone(q1, q2, b); }
      if q2 < q1 { MultiplyPositiveMonotone(q2, q1, b); }
    } else {
      assert -a < q1 * -b + -b && -a < q2 * -b + -b by {
        assert q1 * -b == -(q1 * b) && q2 * -b == -(q2 * b);
      }
      assert q1 * -b <= -a && q2 * -b <= -a by {
        assert q1 * -b == -(q1 * b) && q2 * -b == -(q2 * b);
      }
      if q1 < q2 { MultiplyPositiveMonotone(q1, q2, -b); }
      if q2 < q1 { MultiplyPositiveMonotone(q2, q1, -b); }
    }
  }

  /**
   * `divide` returns exactly the floor quotient: any integer meeting the
   * floor characterisation is what `divide` returns.
   */
  lemma DivideIsFloorDivision(a: int, b: int, q: int)
    requires IsFloorQuotient(a, b, q)
    ensures Divide(a, b) == Success(q)
  {
    FloorQuotientUnique(a, b, q, Divide(a, b).value);
  }

  /** For a positive divisor, floor division coincides with Dafny's `/`. */
  lemma DivideByPositive(a: int, b: int)
    requires b > 0
    ensures Divide(a, b) == Success(a / b)
  {
  }

  /**
   * For a negative divisor that does not divide evenly, floor division is
   * one below Dafny's Euclidean quotient: `7 // -2 == -4` while `7 / -2 == -3`.
   */
  lemma DivideByNegative(a: int, b: int)
    requires b < 0
    ensures Divide(a, b) == Success(if a % b == 0 then a / b else a / b - 1)
  {
    var q := if a % b == 0 then a / b else a / b - 1;
    var e := a / b;
    assert a == e * b + a % b && 0 <= a % b < -b;
    if a % b == 0 {
      assert q * b == a;
    } else {
      assert q * b == e * b - b;
    }
    DivideIsFloorDivision(a, b, q);
  }

  /** The example calls documented beside the server: add 1 and 2, multiply 2 and 5. */
  lemma DocumentedCalls()
    ensures Add(1, 2) == 3
    ensures Multiply(2, 5) == 10
    ensures Divide(7, -2) == Success(-4) && 7 / -2 == -3
  {
    DivideIsFloorDivision(7, -2, -4);
  }

  /** `subtract` undoes `add`: no overflow on unbounded integers. */
  lemma SubtractUndoesAdd(a: int, b: int)
    ensures Subtract(Add(a, b), b) == a
    ensures Add(Subtract(a, b), b) == a
  {
  }

  /** `divide` undoes `multiply` for every non-zero factor, of either sign. */
  lemma DivideUndoesMultiply(a: int, b: int)
    requires b != 0
    ensures Divide(Multiply(a, b), b) == Success(a)
  {
    assert IsFloorQuotient(a * b, b, a);
    DivideIsFloorDivision(a * b, b, a);
  }
}
