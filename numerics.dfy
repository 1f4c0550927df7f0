/** Arithmetic shared by the planner and the mission controller: the C maths
    library taken as given, the degree/radian macros, and the C conversions
    (float-to-int cast, floating division) written out over the reals. */
module Numerics {

  /** The C maths library functions the planner calls. Nothing is known about
      them except what `Sane` states; every other value they return is free. */
  datatype Libm = Libm(
    cos: imap<real, real>,
    sin: imap<real, real>,
    atan2: imap<(real, real), real>,
    asin: imap<real, real>,
    sqrt: imap<real, real>)

  /** The library calls themselves. Methods call these rather than the
      fields of Libm, so that a value computed in a method and the same
      value in a specification function are one and the same term. */
  function Cos(m: Libm, x: real): real { if x in m.cos then m.cos[x] else 0.0 }
  function Sin(m: Libm, x: real): real { if x in m.sin then m.sin[x] else 0.0 }
  function Atan2(m: Libm, y: real, x: real): real { if (y, x) in m.atan2 then m.atan2[(y, x)] else 0.0 }
  function Asin(m: Libm, x: real): real { if x in m.asin then m.asin[x] else 0.0 }
  function Sqrt(m: Libm, x: real): real { if x in m.sqrt then m.sqrt[x] else 0.0 }

  /** The decimal the degree/radian macros write for pi, a little below the
      double nearest to pi (M_PI). */
  const Pi: real := 3.141592653589793

  /** DEG2RAD, with the constant written out so that the conversion stays linear. */
  function Deg2Rad(deg: real): (rad: real)
    ensures deg == 180.0 ==> rad == Pi
    ensures rad * 180.0 == deg * 3.141592653589793
  {
    deg * 3.141592653589793 / 180.0
  }

  /** RAD2DEG, the inverse of Deg2Rad. */
  function Rad2Deg(rad: real): (deg: real)
    ensures -Pi <= rad <= Pi ==> -180.0 <= deg <= 180.0
    ensures Deg2Rad(deg) == rad
  {
    rad * 180.0 / 3.141592653589793
  }

  /** The facts of the real library that the planner relies on: cos and sin
      at 180 degrees as the double-precision library returns them (cos(pi)
      is exactly -1, sin(pi) is a tiny positive number), asin(0) = 0, and
      atan2 answering within [-pi, pi]. */
  ghost predicate Sane(m: Libm)
  {
    && Cos(m, Deg2Rad(180.0)) == -1.0
    && -1.0 < Sin(m, Deg2Rad(180.0)) < 1.0
    && Asin(m, 0.0) == 0.0
    && forall y: real, x: real :: -Pi <= Atan2(m, y, x) <= Pi
  }

  /** The C conversion of a floating value to an integer: truncation toward zero. */
  function Trunc(x: real): (n: int)
    ensures 0.0 <= x ==> n as real <= x < n as real + 1.0
    ensures x <= 0.0 ==> n as real - 1.0 < x <= n as real
  {
    if x >= 0.0 then x.Floor else -((-x).Floor)
  }

  /** Floating division. A zero divisor (NaN or an infinity in IEEE
      arithmetic) is given the value 0 here. */
  function Quot(a: real, b: real): (q: real)
    ensures b != 0.0 ==> q * b == a
    ensures a == 0.0 ==> q == 0.0
  {
    if b == 0.0 then 0.0 else a / b
  }
}
