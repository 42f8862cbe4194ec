/** Plane geometry over exact reals: 2D vectors, linear interpolation, and
    rotation by whole quarter turns.

    Angles are measured in half-turns: the value 1.0 stands for pi radians and
    2.0 for a full turn. With that unit every angle the orientation controller
    produces is a rational multiple of the unit and all its arithmetic is exact. */
module Geometry {

  /** pi radians */
  const HalfTurn: real := 1.0
  /** 2 pi radians */
  const FullTurn: real := 2.0

  /** A 2D vector: a size (width, height), a point or an offset. */
  datatype Vec2 = Vec2(x: real, y: real) {
    function Plus(v: Vec2): Vec2 { Vec2(x + v.x, y + v.y) }
    function Scale(k: real): Vec2 { Vec2(k * x, k * y) }
    function Swapped(): Vec2 { Vec2(y, x) }
    predicate NonNegative() { x >= 0.0 && y >= 0.0 }
  }

  function Abs(a: real): (r: real)
    ensures r >= 0.0 && r >= a && r >= -a
  {
    if a < 0.0 then -a else a
  }

  function Min(a: real, b: real): real { if a <= b then a else b }
  function Max(a: real, b: real): real { if a <= b then b else a }

  /** x is an integer. */
  predicate IsWhole(x: real) { x.Floor as real == x }

  /** a and b differ by a whole number of full turns, i.e. they name the same direction. */
  predicate SameDirection(a: real, b: real) { IsWhole((a - b) / FullTurn) }

  lemma WholeOfInt(n: int)
    ensures IsWhole(n as real)
  {
  }

  lemma WholeSum(x: real, y: real)
    requires IsWhole(x) && IsWhole(y)
    ensures IsWhole(x + y) && IsWhole(x - y)
  {
    var m, n := x.Floor, y.Floor;
    WholeOfInt(m + n);
    WholeOfInt(m - n);
  }

  lemma SameDirectionSymmetric(a: real, b: real)
    requires SameDirection(a, b)
    ensures SameDirection(b, a)
  {
    WholeSum(0.0, (a - b) / FullTurn);
    WholeOfInt(0);
    assert (b - a) / FullTurn == 0.0 - (a - b) / FullTurn;
  }

  lemma SameDirectionTransitive(a: real, b: real, c: real)
    requires SameDirection(a, b) && SameDirection(b, c)
    ensures SameDirection(a, c)
  {
    WholeSum((a - b) / FullTurn, (b - c) / FullTurn);
    assert (a - c) / FullTurn == (a - b) / FullTurn + (b - c) / FullTurn;
  }

  /** Two different angles naming the same direction are at least a full turn apart. */
  lemma {:induction false} SameDirectionApart(a: real, b: real)
    requires SameDirection(a, b) && a != b
    ensures Abs(a - b) >= FullTurn
  {
    var k := ((a - b) / FullTurn).Floor;
    assert a - b == FullTurn * k as real;
    assert k != 0;
  }

  /** Within a half turn of c there is at most one angle of each direction,
      so such an angle is as close to c as any angle of its direction. */
  lemma {:induction false} NearestOfDirection(r: real, c: real, a: real)
    requires SameDirection(a, r) && Abs(r - c) <= HalfTurn
    ensures Abs(r - c) <= Abs(a - c)
  {
    if a != r {
      SameDirectionApart(a, r);
    }
  }

  /** a is a whole number of quarter turns (a multiple of pi/2 radians). */
  predicate IsQuarterTurn(a: real) { IsWhole(2.0 * a) }

  /** Which of the four quarter-turn directions a points to: 0, 1, 2 or 3 quarter turns. */
  function QuarterIndex(a: real): (k: int)
    requires IsQuarterTurn(a)
    ensures 0 <= k < 4
  {
    (2.0 * a).Floor % 4
  }

  /** The exact cosine at a quarter-turn angle. */
  function Cos(a: real): (r: real)
    requires IsQuarterTurn(a)
    ensures r == 1.0 || r == 0.0 || r == -1.0
  {
    [1.0, 0.0, -1.0, 0.0][QuarterIndex(a)]
  }

  /** The exact sine at a quarter-turn angle. */
  function Sin(a: real): (r: real)
    requires IsQuarterTurn(a)
    ensures r == 1.0 || r == 0.0 || r == -1.0
  {
    [0.0, 1.0, 0.0, -1.0][QuarterIndex(a)]
  }

  /** Cosine and sine repeat after every full turn. */
  lemma {:induction false} QuarterTurnPeriodic(a: real, b: real)
    requires IsQuarterTurn(b) && SameDirection(a, b)
    ensures IsQuarterTurn(a)
    ensures QuarterIndex(a) == QuarterIndex(b)
    ensures Cos(a) == Cos(b) && Sin(a) == Sin(b)
  {
    var k := ((a - b) / FullTurn).Floor;
    var m := (2.0 * b).Floor;
    assert k as real == (a - b) / FullTurn;
    assert m as real == 2.0 * b;
    assert 2.0 * a == (m + 4 * k) as real;
    WholeOfInt(m + 4 * k);
    FullTurnsKeepQuarter(m, k);
  }

  lemma FullTurnsKeepQuarter(m: int, k: int)
    ensures (m + 4 * k) % 4 == m % 4
  {
  }

  /** v rotated counter-clockwise by the quarter-turn angle a. */
  function Rotate(a: real, v: Vec2): Vec2
    requires IsQuarterTurn(a)
  {
    Vec2(v.x * Cos(a) - v.y * Sin(a), v.x * Sin(a) + v.y * Cos(a))
  }

  /** The product of two non-negative numbers is non-negative. */
  lemma NonNegativeProduct(d: real, p: real)
    requires d >= 0.0 && p >= 0.0
    ensures d * p >= 0.0
  {
  }

  /** Scaling by 0 or 1, and scaling 0. */
  lemma ScaleEnds(d: real, p: real)
    ensures p == 0.0 ==> d * p == 0.0
    ensures p == 1.0 ==> d * p == d
    ensures d == 0.0 ==> d * p == 0.0
  {
  }

  /** Linear interpolation from a (at p == 0) to b (at p == 1). */
  function Lerp(a: real, b: real, p: real): (r: real)
    ensures p == 0.0 ==> r == a
    ensures p == 1.0 ==> r == b
    ensures a == b ==> r == a
  {
    ScaleEnds(b - a, p);
    a + (b - a) * p
  }

  /** Between its end points the interpolation stays between them. */
  lemma {:induction false} LerpBetween(a: real, b: real, p: real)
    requires 0.0 <= p <= 1.0
    ensures Min(a, b) <= Lerp(a, b, p) <= Max(a, b)
  {
    // with the two products non-negative, the goal is linear in the monomials a * p and b * p
    if a <= b {
      NonNegativeProduct(b - a, p);
      NonNegativeProduct(b - a, 1.0 - p);
    } else {
      NonNegativeProduct(a - b, p);
      NonNegativeProduct(a - b, 1.0 - p);
    }
  }

  /** Interpolation moves monotonically from a towards b as p grows. */
  lemma {:induction false} LerpMonotone(a: real, b: real, p: real, q: real)
    requires p <= q
    ensures a >= b ==> Lerp(a, b, q) <= Lerp(a, b, p)
    ensures a <= b ==> Lerp(a, b, p) <= Lerp(a, b, q)
  {
    if a >= b {
      NonNegativeProduct(a - b, q - p);
    } else {
      NonNegativeProduct(b - a, q - p);
    }
  }

  /** The further an interpolation has progressed, the closer it is to its end point. */
  lemma {:induction false} LerpApproachesTarget(a: real, b: real, p: real, q: real)
    requires 0.0 <= p <= q <= 1.0
    ensures Abs(Lerp(a, b, q) - b) <= Abs(Lerp(a, b, p) - b)
  {
    LerpBetween(a, b, p);
    LerpBetween(a, b, q);
    LerpMonotone(a, b, p, q);
  }

  /** Componentwise linear interpolation of two vectors. */
  function LerpVec(a: Vec2, b: Vec2, p: real): (r: Vec2)
    ensures p == 0.0 ==> r == a
    ensures p == 1.0 ==> r == b
    ensures a == b ==> r == a
    ensures 0.0 <= p <= 1.0 ==> Min(a.x, b.x) <= r.x <= Max(a.x, b.x) && Min(a.y, b.y) <= r.y <= Max(a.y, b.y)
  {
    if 0.0 <= p <= 1.0 then
      LerpBetween(a.x, b.x, p);
      LerpBetween(a.y, b.y, p);
      Vec2(Lerp(a.x, b.x, p), Lerp(a.y, b.y, p))
    else Vec2(Lerp(a.x, b.x, p), Lerp(a.y, b.y, p))
  }

  /** An affine map of the plane, applied right to left: first translate by
      offset, then rotate about the origin by angle, then translate by pivot. */
  datatype Transform = Transform(pivot: Vec2, angle: real, offset: Vec2)

  const Identity: Transform := Transform(Vec2(0.0, 0.0), 0.0, Vec2(0.0, 0.0))

  function Apply(t: Transform, p: Vec2): Vec2
    requires IsQuarterTurn(t.angle)
  {
    t.pivot.Plus(Rotate(t.angle, p.Plus(t.offset)))
  }

  /** The rectangle with corners (0, 0) and size, mapped through t, is exactly
      the rectangle with corners (0, 0) and frame: a quarter-turn rotation
      keeps rectangles axis-aligned, so the images of two opposite corners
      determine the image rectangle. */
  predicate CoversFrame(t: Transform, size: Vec2, frame: Vec2)
    requires IsQuarterTurn(t.angle)
  {
    var p := Apply(t, Vec2(0.0, 0.0));
    var q := Apply(t, size);
    && Min(p.x, q.x) == 0.0 && Max(p.x, q.x) == frame.x
    && Min(p.y, q.y) == 0.0 && Max(p.y, q.y) == frame.y
  }
}
