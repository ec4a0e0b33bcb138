/** The few ECMAScript Number operations the core relies on, stated over
    exact reals and unbounded integers. Dafny's `%` is Euclidean; the
    JavaScript `%` truncates toward zero, so it is written out here. */
module JsNumber {

  /** Math.min of two numbers. */
  function Min(a: real, b: real): (r: real)
    ensures r <= a && r <= b && (r == a || r == b)
  {
    if a < b then a else b
  }

  /** Math.max of two numbers. */
  function Max(a: real, b: real): (r: real)
    ensures r >= a && r >= b && (r == a || r == b)
  {
    if a > b then a else b
  }

  /** Math.min of two integers (the chunk size at audio-processor.js:326).
      Min and IntMin are the same operation on the two number sorts the
      model uses: frame counts stay integers, phases and pan values reals. */
  function IntMin(a: int, b: int): (r: int)
    ensures r <= a && r <= b && (r == a || r == b)
  {
    if a < b then a else b
  }

  /** Math.abs. */
  function Abs(x: real): (r: real)
    ensures r >= 0.0 && (r == x || r == -x)
  {
    if x < 0.0 then -x else x
  }

  /** Math.floor: the greatest integer not above x. */
  function Floor(x: real): (r: int)
    ensures r as real <= x < r as real + 1.0
  {
    x.Floor
  }

  /** Truncation toward zero, as ToIntegerOrInfinity (and so setInt16) applies it. */
  function Trunc(x: real): (r: int)
    ensures x >= 0.0 ==> r as real <= x < r as real + 1.0
    ensures x < 0.0 ==> r as real - 1.0 < x <= r as real
  {
    if x >= 0.0 then x.Floor else -((-x).Floor)
  }

  /** The `%` operator on Numbers: x - m * trunc(x / m), with the sign of x. */
  function Rem(x: real, m: real): (r: real)
    requires m > 0.0
    ensures x >= 0.0 ==> 0.0 <= r < m
    ensures x < 0.0 ==> -m < r <= 0.0
  {
    var q := Trunc(x / m);
    DivBounds(x, m, q);
    x - m * (q as real)
  }

  /** The `%` operator on integer-valued Numbers (truncating, sign of the dividend). */
  function IntRem(a: int, n: int): (r: int)
    requires n > 0
    ensures a >= 0 ==> 0 <= r < n && r == a % n
    ensures a < 0 ==> -n < r <= 0
  {
    if a >= 0 then a % n else -((-a) % n)
  }

  lemma DivBounds(x: real, m: real, q: int)
    requires m > 0.0
    requires q == Trunc(x / m)
    ensures x >= 0.0 ==> 0.0 <= x - m * (q as real) < m
    ensures x < 0.0 ==> -m < x - m * (q as real) <= 0.0
  {
    var y := x / m;
    SignOfQuotient(x, m, y);
    Remainder(x, m, y, q as real);
  }

  /** x - m*q == m*(y - q), with the bounds on y - q carried over. */
  lemma Remainder(x: real, m: real, y: real, q: real)
    requires m > 0.0 && x == m * y
    requires y >= 0.0 ==> q <= y < q + 1.0
    requires y < 0.0 ==> q - 1.0 < y <= q
    ensures y >= 0.0 ==> 0.0 <= x - m * q < m
    ensures y < 0.0 ==> -m < x - m * q <= 0.0
  {
    var t := y - q;
    assert x - m * q == m * t;
    if y >= 0.0 {
      ProductBounds(m, t);
    } else {
      ProductBoundsNeg(m, t);
    }
  }

  lemma SignOfQuotient(x: real, m: real, y: real)
    requires m > 0.0 && x == m * y
    ensures x >= 0.0 <==> y >= 0.0
  {
  }

  lemma ProductBounds(m: real, t: real)
    requires m > 0.0 && 0.0 <= t < 1.0
    ensures 0.0 <= m * t < m
  {
  }

  lemma ProductBoundsNeg(m: real, t: real)
    requires m > 0.0 && -1.0 < t <= 0.0
    ensures -m < m * t <= 0.0
  {
  }

  /** Within one period the remainder is the dividend itself. */
  lemma RemOfSmall(x: real, m: real)
    requires 0.0 <= x < m
    ensures Rem(x, m) == x
  {
    QuotientBelowOne(x, m);
  }

  /** Adding one period does not change the remainder of a non-negative number. */
  lemma RemShift(x: real, m: real)
    requires x >= 0.0 && m > 0.0
    ensures Rem(x + m, m) == Rem(x, m)
  {
    DivShift(x, m);
    assert Trunc((x + m) / m) == Trunc(x / m) + 1;
  }

  /** Between one and two periods, one period is taken off. */
  lemma RemOfSecondPeriod(x: real, m: real)
    requires m <= x < m + m
    ensures Rem(x, m) == x - m
  {
    RemShift(x - m, m);
    RemOfSmall(x - m, m);
  }

  lemma QuotientBelowOne(x: real, m: real)
    requires 0.0 <= x < m
    ensures 0.0 <= x / m < 1.0
  {
    var y := x / m;
    assert x == m * y;
    SignOfQuotient(x, m, y);
  }

  lemma QuotientAtMostOne(x: real, m: real)
    requires m > 0.0 && x <= m
    ensures x / m <= 1.0
  {
    var y := x / m;
    assert x == m * y;
  }

  lemma DivShift(x: real, m: real)
    requires m > 0.0
    ensures (x + m) / m == x / m + 1.0
  {
    var y, z := x / m, (x + m) / m;
    assert x == m * y;
    assert x + m == m * z;
    Cancel(m, z, y + 1.0);
  }

  lemma Cancel(m: real, a: real, b: real)
    requires m > 0.0 && m * a == m * b
    ensures a == b
  {
    assert m * (a - b) == 0.0;
  }

  /** A draw in [0, 1) scaled by a non-negative n stays in [0, n). */
  lemma ScaleBelow(x: real, n: real)
    requires 0.0 <= x < 1.0 && n >= 0.0
    ensures 0.0 <= x * n && (n > 0.0 ==> x * n < n)
  {
    if n > 0.0 {
      assert (1.0 - x) * n > 0.0;
    }
  }

  /** The floor of a number in [0, n) is an index below n. */
  lemma FloorBelow(x: real, n: nat)
    requires 0.0 <= x < n as real
    ensures 0 <= Floor(x) < n
  {
  }
}
