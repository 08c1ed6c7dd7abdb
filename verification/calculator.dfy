/** The four arithmetic operations of the calculator, over exact reals.
    Division reports a zero divisor through `DivResult` instead of raising. */
module Calculator {

  /** The message the service sends for a division by zero. */
  const DivByZeroMessage: string := "Cannot divide by zero"

  datatype DivResult = Ok(value: real) | DivByZero

  /** `a + b`: the unique number from which subtracting either operand
      leaves the other. */
  function Add(a: real, b: real): (r: real)
    ensures r - b == a && r - a == b
  {
    a + b
  }

  /** `a - b`: the unique number that, added back to `b`, gives `a`. */
  function Subtract(a: real, b: real): (r: real)
    ensures r + b == a
    ensures Add(r, b) == a
  {
    a - b
  }

  /** `a * b`: dividing by a non-zero operand recovers the other one, and a
      zero operand makes the product zero. */
  function Multiply(a: real, b: real): (r: real)
    ensures b != 0.0 ==> r / b == a
    ensures a != 0.0 ==> r / a == b
    ensures a == 0.0 || b == 0.0 ==> r == 0.0
  {
    a * b
  }

  /** `a / b`, or `DivByZero` exactly when the divisor is zero; the divisor is
      tested before any division is done. A successful quotient times the
      divisor gives back the dividend. */
  function Divide(a: real, b: real): (r: DivResult)
    ensures r.DivByZero? <==> b == 0.0
    ensures r.Ok? ==> Multiply(r.value, b) == a
  {
    if b == 0.0 then DivByZero else Ok(a / b)
  }

  /** Adding and then subtracting the same operand is the identity, and
      the sum and the difference of `a` and `b` add up to `2a`. */
  lemma AddSubtractInverse(a: real, b: real)
    ensures Subtract(Add(a, b), b) == a
    ensures Add(Subtract(a, b), b) == a
    ensures Add(a, b) + Subtract(a, b) == 2.0 * a
  {
  }

  /** Multiplying by zero gives zero whatever the other operand. */
  lemma MultiplyByZero(a: real)
    ensures Multiply(a, 0.0) == 0.0 && Multiply(0.0, a) == 0.0
  {
  }

  /** Division undoes multiplication by a non-zero divisor, and any dividend
      over a zero divisor is refused. */
  lemma DivideInvertsMultiply(a: real, b: real)
    ensures b != 0.0 ==> Divide(Multiply(a, b), b) == Ok(a)
    ensures Divide(a, 0.0) == DivByZero
  {
  }

  /** The unit-test expectations on the four functions. */
  lemma UnitTestCases()
    ensures Add(2.0, 3.0) == 5.0
    ensures Add(-1.0, -1.0) == -2.0
    ensures Add(5.0, 0.0) == 5.0
    ensures Subtract(5.0, 3.0) == 2.0
    ensures Subtract(3.0, 5.0) == -2.0
    ensures Multiply(4.0, 3.0) == 12.0
    ensures Multiply(5.0, 0.0) == 0.0
    ensures Multiply(-2.0, 3.0) == -6.0
    ensures Divide(10.0, 2.0) == Ok(5.0)
    ensures Divide(7.0, 2.0) == Ok(3.5)
    ensures Divide(10.0, 0.0) == DivByZero
    ensures Add(1000000.0, 2000000.0) == 3000000.0
    ensures Add(0.1, 0.2) == 0.3
  {
  }
}
