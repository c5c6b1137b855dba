/** Plane geometry used by the ball state machine.

    Distances are compared squared over `real`, so no square root is
    needed: for a non-negative limit L, `distance(a, b) > L` holds exactly
    when `Dist2(a, b) > L * L`.
 */
module Geometry {

  /** A point or a vector of the plane. */
  datatype Vec = Vec(x: real, y: real)

  function Add(a: Vec, b: Vec): Vec {
    Vec(a.x + b.x, a.y + b.y)
  }

  function Sub(a: Vec, b: Vec): Vec {
    Vec(a.x - b.x, a.y - b.y)
  }

  function Scale(v: Vec, k: real): Vec {
    Vec(v.x * k, v.y * k)
  }

  function Dot(a: Vec, b: Vec): real {
    a.x * b.x + a.y * b.y
  }

  function Cross(a: Vec, b: Vec): real {
    a.x * b.y - a.y * b.x
  }

  function Sq(r: real): (s: real)
    ensures s >= 0.0
  {
    r * r
  }

  /** Squared Euclidean distance. */
  function Dist2(a: Vec, b: Vec): (d: real)
    ensures d >= 0.0
  {
    Sq(a.x - b.x) + Sq(a.y - b.y)
  }

  /** The closed disc of radius `r` centred at `c` contains `p`. */
  predicate InCircle(c: Vec, p: Vec, r: real) {
    Dist2(c, p) <= r * r
  }

  /** The contract of the `isInCircle(cx, cy, px, py, r)` helper: membership
      of the closed disc. Its body lives in the utilities, which are not part
      of this model, so the model takes it as a parameter with this contract. */
  ghost predicate ValidInCircle(inCircle: (Vec, Vec, real) -> bool) {
    forall c: Vec, p: Vec, r: real {:trigger inCircle(c, p, r)} :: inCircle(c, p, r) <==> InCircle(c, p, r)
  }

  /** The contract of the engine's `Distance.Between`: a non-negative number
      whose square is the squared distance. */
  ghost predicate ValidDistance(distance: (Vec, Vec) -> real) {
    forall a: Vec, b: Vec {:trigger distance(a, b)} ::
      distance(a, b) >= 0.0 && distance(a, b) * distance(a, b) == Dist2(a, b)
  }

  /** `q` is the point of the circle of radius `r` around `c` that lies on
      the ray from `c` through `p`. */
  predicate OnRayAtRadius(c: Vec, p: Vec, r: real, q: Vec) {
    && Dist2(c, q) == r * r
    && Cross(Sub(q, c), Sub(p, c)) == 0.0
    && Dot(Sub(q, c), Sub(p, c)) > 0.0
  }

  /** The contract of `closestPointToCircle(cx, cy, px, py, r)`: for a
      point outside the circle it returns the point of the circle nearest
      to it. Its body lives in the utilities, which are not part of this
      model, so the model takes it as a parameter with this contract. */
  ghost predicate ValidClosest(closest: (Vec, Vec, real) -> Vec) {
    forall c: Vec, p: Vec, r: real {:trigger closest(c, p, r)} ::
      r > 0.0 && !InCircle(c, p, r) ==> OnRayAtRadius(c, p, r, closest(c, p, r))
  }

  lemma MulNonNegative(x: real, y: real)
    requires x >= 0.0 && y >= 0.0
    ensures x * y >= 0.0
  {
  }

  /** Comparing a distance with a non-negative limit is comparing the
      squared distance with the squared limit. */
  lemma FartherIffSquares(distance: (Vec, Vec) -> real, a: Vec, b: Vec, limit: real)
    requires ValidDistance(distance) && limit >= 0.0
    ensures distance(a, b) > limit <==> Dist2(a, b) > limit * limit
  {
    var d := distance(a, b);
    var sq := Dist2(a, b);
    var lim2 := limit * limit;
    assert d >= 0.0 && d * d == sq;
    if d > limit {
      assert d * d - limit * d == d * (d - limit);
      assert d * (d - limit) > 0.0;
      assert limit * d - lim2 == limit * (d - limit);
      MulNonNegative(limit, d - limit);
      assert d * d > limit * d;
      assert limit * d >= lim2;
      assert sq > lim2;
    } else {
      assert limit * d - d * d == d * (limit - d);
      assert d * (limit - d) >= 0.0;
      assert lim2 - limit * d == limit * (limit - d);
      MulNonNegative(limit, limit - d);
      assert sq <= lim2;
    }
  }

  /** A point on the ray at radius `r` is in the closed disc of radius `r`. */
  lemma OnRayIsInCircle(c: Vec, p: Vec, r: real, q: Vec)
    requires OnRayAtRadius(c, p, r, q)
    ensures InCircle(c, q, r)
  {
  }

  /** The projection of a point that lies on the positive x-axis side of the
      centre is pinned down completely: it is the centre shifted by `r`
      along the x-axis. */
  lemma {:induction false} OnRayAlongX(c: Vec, p: Vec, r: real, q: Vec)
    requires r > 0.0 && p.y == c.y && p.x > c.x
    requires OnRayAtRadius(c, p, r, q)
    ensures q == Vec(c.x + r, c.y)
  {
    var u := q.x - c.x;
    var v := q.y - c.y;
    var w := p.x - c.x;
    assert w > 0.0;
    assert Cross(Sub(q, c), Sub(p, c)) == u * 0.0 - v * w;
    assert v * w == 0.0;
    assert v == 0.0;
    assert Dot(Sub(q, c), Sub(p, c)) == u * w;
    assert u * w > 0.0;
    assert u > 0.0;
    assert u * u == r * r;
    assert (u - r) * (u + r) == 0.0;
    assert u + r > 0.0;
    assert u - r == 0.0;
  }
}
