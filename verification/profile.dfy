/**
 The motion profile planner: splits a move of `n` steps into acceleration,
 constant-speed and deceleration phase step counts.

 `Scara::runMotor` computes the nominal ramp length `a = maxSpeed^2 / (2*accel)`
 in floating point (Scara.cpp:144); here it is the exact rational `num / den` with
 `num = maxSpeed^2` and `den = 2*accel`, and truncation of a non-negative
 value is integer division.
 */
module Profile {
  import opened Hardware

  /** Phase step counts of one move, and which profile shape was chosen. */
  datatype Plan = Plan(accel: nat, cruise: nat, decel: nat, triangular: bool)

  /** Steps the plan schedules in all three phases. */
  function Total(p: Plan): nat {
    p.accel + p.cruise + p.decel
  }

  /** The profile split for a move of `n` steps on an axis with the given speed and acceleration. */
  function Split(n: nat, maxSpeed: int, accel: int): (p: Plan)
    requires accel > 0
    // triangular exactly when the two nominal ramps cover the move
    ensures p.triangular <==> 2 * (maxSpeed * maxSpeed) >= n * (2 * accel)
    ensures p.accel == p.decel
    // a triangular move ramps up over half the steps and straight back down
    ensures p.triangular ==> p.cruise == 0 && 2 * p.accel <= n < 2 * p.accel + 2
    // a trapezoidal ramp is the truncated nominal ramp length
    ensures !p.triangular ==>
              p.accel * (2 * accel) <= maxSpeed * maxSpeed < (p.accel + 1) * (2 * accel)
    // the constant phase is the truncated distance left between the two nominal ramps
    ensures !p.triangular ==>
              p.cruise * (2 * accel) <= n * (2 * accel) - 2 * (maxSpeed * maxSpeed) < (p.cruise + 1) * (2 * accel)
  {
    var num := maxSpeed * maxSpeed;
    var den := 2 * accel;
    if 2 * num >= n * den then
      Plan(n / 2, 0, n / 2, true)
    else
      var ramp := Trunc(num, den);
      Plan(ramp, Trunc(n * den - 2 * num, den), ramp, false)
  }

  /** Truncation of the non-negative rational `x / d`: the largest whole number not above it. */
  function Trunc(x: nat, d: int): (q: nat)
    requires d > 0
    ensures q * d <= x < (q + 1) * d
  {
    var r := x % d;
    assert x == (x / d) * d + r;
    assert (x / d + 1) * d == (x / d) * d + d;
    x / d
  }

  /** The phases never schedule more steps than requested, and lose at most two to truncation. */
  lemma {:induction false} SplitBounds(n: nat, maxSpeed: int, accel: int)
    requires accel > 0
    ensures Total(Split(n, maxSpeed, accel)) <= n
    ensures n - 2 <= Total(Split(n, maxSpeed, accel))
    ensures Split(n, maxSpeed, accel).triangular ==> Total(Split(n, maxSpeed, accel)) == n - n % 2
  {
    var p := Split(n, maxSpeed, accel);
    var num, den := maxSpeed * maxSpeed, 2 * accel;
    if !p.triangular {
      var A, C := p.accel, p.cruise;
      // A*den <= num < (A+1)*den and C*den <= n*den - 2*num < (C+1)*den
      assert (2 * A + C) * den <= n * den by {
        assert (2 * A + C) * den == 2 * (A * den) + C * den;
      }
      assert n * den < (2 * A + C + 3) * den by {
        assert (2 * A + C + 3) * den == 2 * ((A + 1) * den) + (C + 1) * den;
      }
      MulMonotone(2 * A + C, n, den);
      MulMonotone(n, 2 * A + C + 3, den);
    }
  }

  /** Cancelling a positive factor from a product inequality. */
  lemma MulMonotone(x: int, y: int, d: int)
    requires d > 0
    ensures x * d <= y * d ==> x <= y
    ensures x * d < y * d ==> x < y
  {
    if x > y {
      assert x * d - y * d == (x - y) * d;
    }
    if x >= y {
      assert x * d - y * d == (x - y) * d;
    }
  }

  /** A whole number pinned between `b*d` and `(b+1)*d` after scaling by `d` is `b`. */
  lemma FloorUnique(a: int, b: int, d: int)
    requires d > 0
    requires b * d <= a * d < (b + 1) * d
    ensures a == b
  {
    MulMonotone(b, a, d);
    MulMonotone(a, b + 1, d);
  }

  /** When the nominal ramp length is a whole number of steps, a trapezoidal plan loses nothing. */
  lemma {:induction false} WholeRampIsLossless(n: nat, maxSpeed: int, accel: int)
    requires accel > 0
    requires (maxSpeed * maxSpeed) % (2 * accel) == 0
    requires !Split(n, maxSpeed, accel).triangular
    ensures Total(Split(n, maxSpeed, accel)) == n
  {
    var p := Split(n, maxSpeed, accel);
    ExactSplit(n, maxSpeed * maxSpeed, 2 * accel, p.accel, p.cruise);
  }

  /** The trapezoidal split, stated over the ramp numerator and denominator, is exact when they divide. */
  lemma ExactSplit(n: int, num: int, den: int, ramp: int, cruise: int)
    requires den > 0 && num % den == 0
    requires ramp * den <= num < (ramp + 1) * den
    requires cruise * den <= n * den - 2 * num < (cruise + 1) * den
    ensures 2 * ramp + cruise == n
  {
    var q := num / den;
    assert num == q * den;
    FloorUnique(q, ramp, den);
    assert n * den - 2 * num == (n - 2 * q) * den;
    FloorUnique(n - 2 * q, cruise, den);
  }
}
