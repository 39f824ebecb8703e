/** Value-level geometry of monster movement (src/entities/monster.py
    `move_towards_target` and `start_fleeing`): the capped turn towards a
    heading, the step along the heading, and the clamped flee point. */
module Motion {
  import opened Common
  import opened Constants

  function Abs(a: real): (r: real)
    ensures r >= 0.0 && (r == a || r == -a)
  {
    if a < 0.0 then -a else a
  }

  /** `(target - direction + pi) % (2 pi) - pi`: the signed heading error,
      wrapped into one turn. */
  function AngleDiff(target: real, direction: real): (r: real)
    ensures -PI <= r < PI
  {
    PyMod(target - direction + PI, 2.0 * PI) - PI
  }

  /** The new heading after one tick: a turn of at most `maxRotation`
      towards `target`, or `target` itself when it is that close. */
  function Turn(direction: real, target: real, maxRotation: real): real
  {
    var diff := AngleDiff(target, direction);
    if Abs(diff) > maxRotation then
      (if diff > 0.0 then direction + maxRotation else direction - maxRotation)
    else target
  }

  /** Python's `%` is determined by any decomposition `a = q*m + r` with
      `0 <= r < m`. */
  lemma {:induction false} PyModOfDecomposition(a: real, m: real, q: int, r: real)
    requires m > 0.0 && 0.0 <= r < m && a == q as real * m + r
    ensures PyMod(a, m) == r
  {
    var f := r / m;
    assert a / m == q as real + f;
    FractionInUnit(r, m);
    assert (a / m).Floor == q;
    assert PyMod(a, m) == a - q as real * m;
  }

  lemma FractionInUnit(r: real, m: real)
    requires m > 0.0 && 0.0 <= r < m
    ensures 0.0 <= r / m < 1.0
  {
    QuotientNonNeg(r, m);
    QuotientPositive(m - r, m);
    assert m / m == 1.0;
    assert (m - r) / m == m / m - r / m;
  }

  lemma QuotientPositive(a: real, m: real)
    requires a > 0.0 && m > 0.0
    ensures a / m > 0.0
  {
  }

  lemma QuotientNonNeg(a: real, m: real)
    requires a >= 0.0 && m > 0.0
    ensures a / m >= 0.0
  {
  }

  /** The decomposition behind `PyMod`. */
  lemma PyModDecomposes(a: real, m: real)
    requires m > 0.0
    ensures a == (a / m).Floor as real * m + PyMod(a, m)
  {
  }

  /** A capped turn never overshoots the target heading: it either lands on
      the target, or shrinks the remaining heading error by exactly the
      turn made, without changing its side. */
  lemma {:induction false} TurnProgress(direction: real, target: real, maxRotation: real)
    requires maxRotation >= 0.0
    ensures Abs(AngleDiff(target, direction)) <= maxRotation ==>
      Turn(direction, target, maxRotation) == target && AngleDiff(target, target) == 0.0
    ensures Abs(AngleDiff(target, direction)) > maxRotation ==>
      Abs(AngleDiff(target, Turn(direction, target, maxRotation)))
        == Abs(AngleDiff(target, direction)) - maxRotation
  {
    var m := 2.0 * PI;
    var a := target - direction + PI;
    var q := (a / m).Floor;
    var diff := AngleDiff(target, direction);
    PyModDecomposes(a, m);
    assert a == q as real * m + (diff + PI);
    if Abs(diff) <= maxRotation {
      PyModOfDecomposition(target - target + PI, m, 0, PI);
    } else if diff > 0.0 {
      var nd := direction + maxRotation;
      PyModOfDecomposition(target - nd + PI, m, q, diff + PI - maxRotation);
      assert AngleDiff(target, nd) == diff - maxRotation;
    } else {
      var nd := direction - maxRotation;
      PyModOfDecomposition(target - nd + PI, m, q, diff + PI + maxRotation);
      assert AngleDiff(target, nd) == diff + maxRotation;
    }
  }

  /** `x += cos(direction) * distance; y += sin(direction) * distance`. */
  function Step(libm: Libm, x: real, y: real, direction: real, distance: real): (real, real)
  {
    (x + libm.cos(direction) * distance, y + libm.sin(direction) * distance)
  }

  /** With a cosine and sine that lie on the unit circle, a step covers
      exactly the requested distance. */
  lemma {:induction false} StepLength(libm: Libm, x: real, y: real, direction: real, distance: real)
    requires libm.cos(direction) * libm.cos(direction) + libm.sin(direction) * libm.sin(direction) == 1.0
    ensures SqDist(x, y, Step(libm, x, y, direction, distance).0, Step(libm, x, y, direction, distance).1)
      == distance * distance
  {
    var c := libm.cos(direction);
    var s := libm.sin(direction);
    var p := Step(libm, x, y, direction, distance);
    assert x - p.0 == -(c * distance);
    assert y - p.1 == -(s * distance);
    calc {
      SqDist(x, y, p.0, p.1);
      (c * distance) * (c * distance) + (s * distance) * (s * distance);
      { assert (c * distance) * (c * distance) == (c * c) * (distance * distance);
        assert (s * distance) * (s * distance) == (s * s) * (distance * distance); }
      (c * c + s * s) * (distance * distance);
      distance * distance;
    }
  }

  /** Where a monster is and which way it faces: `x`, `y`, `direction` and
      the last `target_direction`. */
  datatype Pose = Pose(x: real, y: real, direction: real, targetDirection: real)

  /** `move_towards_target`: aim at `(dx, dy)`, turn towards it by at most
      `pi * dt`, then step `distance` along the new heading. */
  function MoveTowards(libm: Libm, p: Pose, dx: real, dy: real, dt: real, distance: real): Pose
  {
    var target := libm.atan2(dy, dx);
    var dir := Turn(p.direction, target, PI * dt);
    var pos := Step(libm, p.x, p.y, dir, distance);
    Pose(pos.0, pos.1, dir, target)
  }

  /** One move records the new aim, leaves a heading error smaller by the
      full turn allowance (or none at all), and covers exactly the requested
      distance when cosine and sine lie on the unit circle. */
  lemma {:induction false} MoveTowardsSpec(libm: Libm, p: Pose, dx: real, dy: real, dt: real, distance: real)
    requires dt >= 0.0
    requires var dir := MoveTowards(libm, p, dx, dy, dt, distance).direction;
      libm.cos(dir) * libm.cos(dir) + libm.sin(dir) * libm.sin(dir) == 1.0
    ensures var r := MoveTowards(libm, p, dx, dy, dt, distance);
      && r.targetDirection == libm.atan2(dy, dx)
      && Abs(AngleDiff(r.targetDirection, r.direction))
           == Max(0.0, Abs(AngleDiff(r.targetDirection, p.direction)) - PI * dt)
      && SqDist(p.x, p.y, r.x, r.y) == distance * distance
  {
    var r := MoveTowards(libm, p, dx, dy, dt, distance);
    TurnProgress(p.direction, r.targetDirection, PI * dt);
    StepLength(libm, p.x, p.y, r.direction, distance);
  }

  /** The single-file build's flee step: the same turn, but the position
      moves straight along `(dx, dy)` normalised, `(dx / dist) * speed * dt`. */
  function FleeStraight(libm: Libm, p: Pose, dx: real, dy: real, dt: real, speed: real): Pose
    requires libm.SqrtPositive() && dx * dx + dy * dy > 0.0
  {
    var target := libm.atan2(dy, dx);
    var dir := Turn(p.direction, target, PI * dt);
    var dist := libm.sqrt(dx * dx + dy * dy);
    Pose(p.x + dx / dist * speed * dt, p.y + dy / dist * speed * dt, dir, target)
  }

  /** With an exact square root the straight flee step covers exactly
      `speed * dt`, whatever the heading. */
  lemma {:induction false} FleeStraightLength(libm: Libm, p: Pose, dx: real, dy: real, dt: real, speed: real)
    requires libm.SqrtPositive() && dx * dx + dy * dy > 0.0
    requires libm.sqrt(dx * dx + dy * dy) * libm.sqrt(dx * dx + dy * dy) == dx * dx + dy * dy
    ensures var r := FleeStraight(libm, p, dx, dy, dt, speed);
      SqDist(p.x, p.y, r.x, r.y) == (speed * dt) * (speed * dt)
  {
    var r := FleeStraight(libm, p, dx, dy, dt, speed);
    var s := libm.sqrt(dx * dx + dy * dy);
    var k := speed * dt;
    var u := dx / s;
    var v := dy / s;
    assert r.x - p.x == u * k && r.y - p.y == v * k;
    assert u * s == dx && v * s == dy;
    assert (u * u + v * v) * (s * s) == dx * dx + dy * dy;
    assert u * u + v * v == 1.0;
    calc {
      SqDist(p.x, p.y, r.x, r.y);
      (u * k) * (u * k) + (v * k) * (v * k);
      { assert (u * k) * (u * k) == (u * u) * (k * k);
        assert (v * k) * (v * k) == (v * v) * (k * k); }
      (u * u + v * v) * (k * k);
      k * k;
    }
  }

  /** The point a frightened monster runs to: its position mirrored through
      itself away from its target, clamped into the world square. */
  function FleePoint(x: real, y: real, tx: real, ty: real): (p: (real, real))
    ensures 0.0 <= p.0 <= WORLD_SIZE && 0.0 <= p.1 <= WORLD_SIZE
    ensures 0.0 <= x + (x - tx) <= WORLD_SIZE ==> p.0 == x + (x - tx)
    ensures 0.0 <= y + (y - ty) <= WORLD_SIZE ==> p.1 == y + (y - ty)
  {
    (Clamp(x + (x - tx), 0.0, WORLD_SIZE), Clamp(y + (y - ty), 0.0, WORLD_SIZE))
  }

  /** Clamping one coordinate of the mirror point never brings it closer to
      the threat than the monster itself, as long as the monster is inside
      the world. */
  lemma FleeCoordinateNotNearer(x: real, tx: real)
    requires 0.0 <= x <= WORLD_SIZE
    ensures Abs(Clamp(x + (x - tx), 0.0, WORLD_SIZE) - tx) >= Abs(x - tx)
  {
  }

  /** So the flee point is at least as far from the threat as the monster. */
  lemma {:induction false} FleePointNotNearer(x: real, y: real, tx: real, ty: real)
    requires 0.0 <= x <= WORLD_SIZE && 0.0 <= y <= WORLD_SIZE
    ensures SqDist(FleePoint(x, y, tx, ty).0, FleePoint(x, y, tx, ty).1, tx, ty) >= SqDist(x, y, tx, ty)
  {
    var p := FleePoint(x, y, tx, ty);
    FleeCoordinateNotNearer(x, tx);
    FleeCoordinateNotNearer(y, ty);
    SquareGrows(p.0 - tx, x - tx);
    SquareGrows(p.1 - ty, y - ty);
  }

  lemma SquareGrows(a: real, b: real)
    requires Abs(a) >= Abs(b)
    ensures a * a >= b * b
  {
    SquareOfAbs(a);
    SquareOfAbs(b);
    SquaresMonotone(Abs(b), Abs(a));
  }

  lemma SquareOfAbs(a: real)
    ensures Abs(a) * Abs(a) == a * a
  {
    if a < 0.0 {
      assert Abs(a) * Abs(a) == (-a) * (-a);
    }
  }
}
