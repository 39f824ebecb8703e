/** Small value-level helpers shared by the whole model: an option type,
    clamping, squared distances and the floating-point library functions the
    game calls (square root, cosine, sine, atan2), which the model receives
    from its caller instead of computing them. */
module Common {

  datatype Option<T> = None | Some(value: T)

  function Max(a: real, b: real): (r: real)
    ensures r >= a && r >= b && (r == a || r == b)
  {
    if a >= b then a else b
  }

  function Min(a: real, b: real): (r: real)
    ensures r <= a && r <= b && (r == a || r == b)
  {
    if a <= b then a else b
  }

  function MinNat(a: nat, b: nat): (r: nat)
    ensures r <= a && r <= b && (r == a || r == b)
  {
    if a <= b then a else b
  }

  /** Python's `max(lo, min(v, hi))`. */
  function Clamp(v: real, lo: real, hi: real): (r: real)
    requires lo <= hi
    ensures lo <= r <= hi
    ensures lo <= v <= hi ==> r == v
    ensures v < lo ==> r == lo
    ensures v > hi ==> r == hi
  {
    Max(lo, Min(v, hi))
  }

  /** Squared Euclidean distance; every `sqrt(...) <= r` test of the game is
      `SqDist(...) <= r * r` here. */
  function SqDist(x1: real, y1: real, x2: real, y2: real): (d: real)
    ensures d >= 0.0
  {
    SquareNonNeg(x1 - x2);
    SquareNonNeg(y1 - y2);
    (x1 - x2) * (x1 - x2) + (y1 - y2) * (y1 - y2)
  }

  lemma SquareNonNeg(a: real)
    ensures a * a >= 0.0
  {
    if a < 0.0 {
      ProductPositive(-a, -a);
      assert a * a == (-a) * (-a);
    } else if a > 0.0 {
      ProductPositive(a, a);
    }
  }

  lemma SqDistSymmetric(x1: real, y1: real, x2: real, y2: real)
    ensures SqDist(x1, y1, x2, y2) == SqDist(x2, y2, x1, y1)
  {
  }

  /** For a non-negative radius, `d <= r` on true distances is `d^2 <= r^2`. */
  lemma SquaresMonotone(a: real, b: real)
    requires 0.0 <= a && 0.0 <= b
    ensures a <= b <==> a * a <= b * b
    ensures a < b <==> a * a < b * b
  {
    assert (b - a) * (b + a) == b * b - a * a;
    if a < b {
      ProductPositive(b - a, b + a);
    } else if b < a {
      ProductPositive(a - b, a + b);
      assert (a - b) * (a + b) == a * a - b * b;
    }
  }

  lemma ProductPositive(x: real, y: real)
    requires x > 0.0 && y > 0.0
    ensures x * y > 0.0
  {
  }

  lemma ProductMonotone(x: real, y: real, m: real)
    requires x <= y && m > 0.0
    ensures x * m <= y * m
    ensures x < y ==> x * m < y * m
  {
    if x < y {
      ProductPositive(y - x, m);
      assert (y - x) * m == y * m - x * m;
    }
  }

  /** The floating-point library calls the game makes (math.sqrt, math.cos,
      math.sin, math.atan2). They are transcendental, so the model takes them
      from its caller. */
  datatype Libm = Libm(
    sqrt: real -> real,
    cos: real -> real,
    sin: real -> real,
    atan2: (real, real) -> real)
  {
    /** The one property of the square root the model relies on: a positive
        argument has a positive root, so dividing by the root of a positive
        squared distance is safe. */
    ghost predicate SqrtPositive()
    {
      forall v: real :: v > 0.0 ==> sqrt(v) > 0.0
    }
  }

  /** Position of the first occurrence of `x` in `s`. */
  function IndexOf<T(==)>(s: seq<T>, x: T): (i: nat)
    requires x in s
    ensures i < |s| && s[i] == x && x !in s[..i]
  {
    if s[0] == x then 0
    else
      assert x in s[1..];
      1 + IndexOf(s[1..], x)
  }

  /** `list.remove(x)`: drop the first occurrence; Python raises a ValueError
      when `x` is absent. Everything else keeps its order. */
  function RemoveFirst<T(==)>(s: seq<T>, x: T): (r: seq<T>)
    requires x in s
    ensures |r| == |s| - 1
    ensures multiset(r) == multiset(s) - multiset{x}
  {
    var i := IndexOf(s, x);
    assert s == s[..i] + [x] + s[i + 1..];
    s[..i] + s[i + 1..]
  }

  /** Python's float `%` for a positive modulus: the result has the sign of
      the divisor, so it lies in [0, m). */
  function PyMod(a: real, m: real): (r: real)
    requires m > 0.0
    ensures 0.0 <= r < m
  {
    var q := (a / m).Floor;
    FloorBounds(a / m);
    var x := a / m;
    var y := q as real + 1.0;
    ProductMonotone(q as real, x, m);
    ProductMonotone(x, y, m);
    assert x * m == a;
    assert a < y * m;
    assert y * m == q as real * m + m;
    a - q as real * m
  }

  lemma FloorBounds(x: real)
    ensures x.Floor as real <= x < x.Floor as real + 1.0
  {
  }
}
