/** Real-number stand-ins for the numeric primitives the gear generator uses:
    numpy's cos, sin, sqrt and pi, its linspace sampling, Python's round, and
    plane points with the rotations and translations applied to every curve. */
module RealMath {

  type PositiveReal = x: real | x > 0.0 witness 1.0

  /** The numeric primitives, left uninterpreted except that pi is
      positive. `nan` is the value a coordinate takes when numpy divides by
      a zero vector length, and `round1` is Python's round(x, 1). */
  datatype Math = Math(
    cos: real -> real,
    sin: real -> real,
    sqrt: real -> real,
    pi: PositiveReal,
    nan: real,
    round1: real -> real)

  /** cos² + sin² = 1 and cos within [-1, 1] at one angle. */
  ghost predicate UnitAt(m: Math, a: real)
  {
    m.cos(a) * m.cos(a) + m.sin(a) * m.sin(a) == 1.0 && -1.0 <= m.cos(a) <= 1.0
  }

  /** sqrt is the non-negative square root at one argument. */
  ghost predicate SqrtAt(m: Math, x: real)
  {
    0.0 <= x ==> 0.0 <= m.sqrt(x) && m.sqrt(x) * m.sqrt(x) == x
  }

  /** The facts about the primitives that the proofs rely on. Each fact is
      stated per argument and is brought in by the lemmas Unit and Root. */
  ghost predicate Valid(m: Math)
  {
    && m.cos(0.0) == 1.0
    && (forall a :: UnitAt(m, a))
    && (forall x :: SqrtAt(m, x))
  }

  /** cos and sin repeat after 2π at one angle. */
  ghost predicate TurnAt(m: Math, a: real)
  {
    m.cos(a + 2.0 * m.pi) == m.cos(a) && m.sin(a + 2.0 * m.pi) == m.sin(a)
  }

  /** cos and sin repeat every 2π. */
  ghost predicate Periodic(m: Math)
  {
    forall a :: TurnAt(m, a)
  }

  /** round1 keeps the order of one pair of arguments. */
  ghost predicate RoundOrderAt(m: Math, x: real, y: real)
  {
    x <= y ==> m.round1(x) <= m.round1(y)
  }

  /** Rounding to one decimal never reverses the order of two numbers, as
      Python's round(x, 1) does not. */
  ghost predicate RoundsMonotone(m: Math)
  {
    forall x, y :: RoundOrderAt(m, x, y)
  }

  lemma Unit(m: Math, a: real)
    requires Valid(m)
    ensures m.cos(a) * m.cos(a) + m.sin(a) * m.sin(a) == 1.0
    ensures -1.0 <= m.cos(a) <= 1.0
  {
    assert UnitAt(m, a);
  }

  lemma RoundOrder(m: Math, x: real, y: real)
    requires RoundsMonotone(m) && x <= y
    ensures m.round1(x) <= m.round1(y)
  {
    assert RoundOrderAt(m, x, y);
  }

  lemma Root(m: Math, x: real)
    requires Valid(m) && 0.0 <= x
    ensures 0.0 <= m.sqrt(x) && m.sqrt(x) * m.sqrt(x) == x
  {
    assert SqrtAt(m, x);
  }

  lemma FullTurn(m: Math, a: real)
    requires Periodic(m)
    ensures m.cos(a + 2.0 * m.pi) == m.cos(a) && m.sin(a + 2.0 * m.pi) == m.sin(a)
  {
    assert TurnAt(m, a);
  }

  /** A whole turn from zero lands back on zero. */
  lemma ZeroTurn(m: Math)
    requires Periodic(m)
    ensures m.cos(2.0 * m.pi) == m.cos(0.0) && m.sin(2.0 * m.pi) == m.sin(0.0)
  {
    assert TurnAt(m, 0.0);
    assert 0.0 + 2.0 * m.pi == 2.0 * m.pi;
  }

  datatype Point = Point(x: real, y: real)

  /** A sampled curve: the rows (x, y, 0) of the arrays the generators build. */
  type Curve = seq<Point>

  const Origin := Point(0.0, 0.0)

  function Add(p: Point, q: Point): Point { Point(p.x + q.x, p.y + q.y) }

  function Sub(p: Point, q: Point): Point { Point(p.x - q.x, p.y - q.y) }

  function Scale(k: real, p: Point): Point { Point(k * p.x, k * p.y) }

  /** Squared length. */
  function Norm2(p: Point): real { p.x * p.x + p.y * p.y }

  function Dist2(p: Point, q: Point): real { Norm2(Sub(p, q)) }

  /** (r cos a, r sin a). */
  function Polar(m: Math, r: real, a: real): Point { Point(r * m.cos(a), r * m.sin(a)) }

  /** Rotation about the origin by `a`, written as the generators write it:
      (x cos a - y sin a, x sin a + y cos a). */
  function Rotate(m: Math, p: Point, a: real): Point
  {
    Point(p.x * m.cos(a) - p.y * m.sin(a), p.x * m.sin(a) + p.y * m.cos(a))
  }

  function NanPoint(m: Math): Point { Point(m.nan, m.nan) }

  /** A curve whose last sample repeats its first. */
  predicate Closed(c: Curve) { |c| > 0 && c[|c| - 1] == c[0] }

  /** Every sample of `c` lies on the circle of radius `r` about `centre`. */
  ghost predicate OnCircle(c: Curve, centre: Point, r: real)
  {
    forall k :: 0 <= k < |c| ==> Dist2(c[k], centre) == r * r
  }

  /** np.linspace(lo, hi, n): n samples, both ends included; numpy computes
      sample k as lo + k * ((hi - lo) / (n - 1)). */
  function Linspace(lo: real, hi: real, n: nat): (r: seq<real>)
    ensures |r| == n
    ensures n >= 1 ==> r[0] == lo
  {
    seq(n, k requires 0 <= k < n =>
      if n == 1 then lo else lo + (k as real) * ((hi - lo) / ((n - 1) as real)))
  }

  /** np.linspace(lo, hi, n, endpoint=False): n samples, `hi` left out. */
  function LinspaceOpen(lo: real, hi: real, n: nat): (r: seq<real>)
    ensures |r| == n
    ensures n >= 1 ==> r[0] == lo
  {
    seq(n, k requires 0 <= k < n => lo + (k as real) * ((hi - lo) / (n as real)))
  }

  /** k steps of (hi - lo)/d, for 0 <= k <= d, stay within [lo, hi]. */
  lemma StepWithin(lo: real, hi: real, k: nat, d: nat)
    requires lo <= hi && 0 < d && k <= d
    ensures lo <= lo + (k as real) * ((hi - lo) / (d as real)) <= hi
    ensures k == d ==> lo + (k as real) * ((hi - lo) / (d as real)) == hi
    ensures k < d && lo < hi ==> lo + (k as real) * ((hi - lo) / (d as real)) < hi
  {
    var step := (hi - lo) / (d as real);
    assert step * (d as real) == hi - lo;
    assert 0.0 <= step;
    var ks := (k as real) * step;
    var ds := (d as real) * step;
    assert 0.0 <= ks;
    assert ds - ks == ((d - k) as real) * step;
    assert 0.0 <= ((d - k) as real) * step;
    assert ks <= ds;
    if k == d {
      assert ks == ds;
    }
    if k < d && lo < hi {
      assert 0.0 < step;
      assert 0.0 < ((d - k) as real) * step;
      assert ks < ds;
    }
  }

  /** The last of two or more np.linspace samples is `hi`. */
  lemma LinspaceLast(lo: real, hi: real, n: nat)
    requires n >= 2
    ensures Linspace(lo, hi, n)[n - 1] == hi
  {
    var d := (n - 1) as real;
    assert d * ((hi - lo) / d) == hi - lo;
  }

  /** The last sample of np.linspace is `hi`, and every sample lies between the ends. */
  lemma LinspaceRange(lo: real, hi: real, n: nat)
    requires lo <= hi
    ensures n >= 2 ==> Linspace(lo, hi, n)[n - 1] == hi
    ensures forall k :: 0 <= k < n ==> lo <= Linspace(lo, hi, n)[k] <= hi
  {
    var r := Linspace(lo, hi, n);
    forall k | 0 <= k < n
      ensures lo <= r[k] <= hi
      ensures n >= 2 && k == n - 1 ==> r[k] == hi
    {
      if n > 1 {
        StepWithin(lo, hi, k, n - 1);
      }
    }
  }

  /** With the end point left out, every sample lies below `hi`. */
  lemma LinspaceOpenRange(lo: real, hi: real, n: nat)
    requires lo < hi
    ensures forall k :: 0 <= k < n ==> lo <= LinspaceOpen(lo, hi, n)[k] < hi
  {
    var r := LinspaceOpen(lo, hi, n);
    forall k | 0 <= k < n
      ensures lo <= r[k] < hi
    {
      StepWithin(lo, hi, k, n);
    }
  }

  /** Python's round(x) on a float: nearest integer, ties to the even one. */
  function RoundHalfEven(x: real): (r: int)
    ensures -0.5 <= x - r as real <= 0.5
    ensures x - r as real == 0.5 || x - r as real == -0.5 ==> r % 2 == 0
  {
    var f := x.Floor;
    var frac := x - f as real;
    if frac < 0.5 then f
    else if frac > 0.5 then f + 1
    else if f % 2 == 0 then f
    else f + 1
  }

  lemma RoundOfInteger(n: int)
    ensures RoundHalfEven(n as real) == n
  {
  }

  lemma RotateNorm(m: Math, p: Point, a: real)
    requires Valid(m)
    ensures Norm2(Rotate(m, p, a)) == Norm2(p)
  {
    var c, s := m.cos(a), m.sin(a);
    Unit(m, a);
    calc {
      Norm2(Rotate(m, p, a));
      (p.x * c - p.y * s) * (p.x * c - p.y * s) + (p.x * s + p.y * c) * (p.x * s + p.y * c);
      (p.x * p.x + p.y * p.y) * (c * c + s * s);
    }
  }

  /** Rotation distributes over the sum of two points. */
  lemma RotateAdd(m: Math, p: Point, q: Point, a: real)
    ensures Rotate(m, Add(p, q), a) == Add(Rotate(m, p, a), Rotate(m, q, a))
  {
  }

  lemma RotateDist(m: Math, p: Point, q: Point, a: real)
    requires Valid(m)
    ensures Dist2(Rotate(m, p, a), Rotate(m, q, a)) == Dist2(p, q)
  {
    RotateAdd(m, Sub(p, q), q, a);
    assert Add(Sub(p, q), q) == p;
    assert Sub(Rotate(m, p, a), Rotate(m, q, a)) == Rotate(m, Sub(p, q), a);
    RotateNorm(m, Sub(p, q), a);
  }

  lemma PolarNorm(m: Math, r: real, a: real)
    requires Valid(m)
    ensures Norm2(Polar(m, r, a)) == r * r
  {
    var c, s := m.cos(a), m.sin(a);
    Unit(m, a);
    calc {
      Norm2(Polar(m, r, a));
      (r * c) * (r * c) + (r * s) * (r * s);
      r * r * (c * c + s * s);
    }
  }

  /** Rotating by 0 changes nothing. */
  lemma RotateZero(m: Math, p: Point)
    requires Valid(m)
    ensures Rotate(m, p, 0.0) == p
  {
    var s := m.sin(0.0);
    Unit(m, 0.0);
    assert s * s == 0.0;
    if s != 0.0 {
      assert s * s > 0.0;
    }
  }

  lemma SqrtOfSquare(m: Math, x: real)
    requires Valid(m) && 0.0 <= x
    ensures m.sqrt(x * x) == x
  {
    var r := m.sqrt(x * x);
    Root(m, x * x);
    if r < x {
      SquareStrictlyMonotone(r, x);
    } else if r > x {
      SquareStrictlyMonotone(x, r);
    }
  }

  lemma SquareStrictlyMonotone(a: real, b: real)
    requires 0.0 <= a < b
    ensures a * a < b * b
  {
    var aa, ab, bb := a * a, a * b, b * b;
    assert aa <= ab;
    assert ab < bb;
  }

  lemma SqrtPositive(m: Math, x: real)
    requires Valid(m) && 0.0 < x
    ensures m.sqrt(x) > 0.0
  {
    Root(m, x);
  }

  /** (ac + bd)² <= (a² + b²)(c² + d²) in the plane. */
  lemma CauchySchwarz(p: Point, q: Point)
    ensures (p.x * q.x + p.y * q.y) * (p.x * q.x + p.y * q.y) <= Norm2(p) * Norm2(q)
  {
    var d := p.x * q.y - p.y * q.x;
    assert Norm2(p) * Norm2(q) - (p.x * q.x + p.y * q.y) * (p.x * q.x + p.y * q.y) == d * d;
  }

  lemma ScaleNorm(k: real, p: Point)
    ensures Norm2(Scale(k, p)) == k * k * Norm2(p)
  {
  }

  /** Moving p by offset/s along the normal (-d.y, d.x) of a direction d of
      length s lands exactly `offset` from p, perpendicular to d, on the
      normal's side when the offset is positive. */
  lemma OffsetAlongNormal(p: Point, d: Point, offset: real, s: real)
    requires s > 0.0 && s * s == Norm2(d)
    ensures var v := Sub(Point(p.x + (offset / s) * (-d.y), p.y + (offset / s) * d.x), p);
            && Norm2(v) == offset * offset
            && v.x * d.x + v.y * d.y == 0.0
            && (offset > 0.0 ==> v.x * (-d.y) + v.y * d.x > 0.0)
  {
    var k := offset / s;
    var v := Sub(Point(p.x + k * (-d.y), p.y + k * d.x), p);
    assert v == Scale(k, Point(-d.y, d.x));
    ScaleNorm(k, Point(-d.y, d.x));
    var n2 := Norm2(d);
    assert Norm2(Point(-d.y, d.x)) == n2;
    assert k * s == offset;
    var kk := k * k;
    assert kk * n2 == (k * s) * (k * s);
    assert v.x * (-d.y) + v.y * d.x == k * n2;
    if offset > 0.0 {
      assert k > 0.0;
      assert n2 > 0.0;
      var kn := k * n2;
      assert kn > 0.0;
    }
  }

  lemma QuotientBelowOne(e: real, s: real)
    requires 0.0 <= e < s
    ensures 0.0 <= e / s < 1.0
  {
  }

  lemma ProductPositive(x: real, y: real)
    requires x > 0.0 && y > 0.0
    ensures x * y > 0.0
  {
  }

  /** |u - w|² = |u|² - 2 u.w + |w|². */
  lemma NormOfDifference(u: Point, w: Point)
    ensures Norm2(Sub(u, w)) == Norm2(u) - 2.0 * (u.x * w.x + u.y * w.y) + Norm2(w)
  {
  }

  lemma SquareBound(x: real, q: real)
    requires 0.0 <= q && x * x <= q * q
    ensures x <= q
  {
    if x > q {
      SquareStrictlyMonotone(q, x);
    }
  }

  /** A unit vector less a vector of length q < 1 is at least 1 - q long. */
  lemma UnitMinusShorter(u: Point, w: Point, q: real)
    requires Norm2(u) == 1.0 && Norm2(w) == q * q && 0.0 <= q < 1.0
    ensures Norm2(Sub(u, w)) >= (1.0 - q) * (1.0 - q) > 0.0
  {
    var dot := u.x * w.x + u.y * w.y;
    CauchySchwarz(u, w);
    SquareBound(dot, q);
    NormOfDifference(u, w);
    GapSquare(q);
  }

  lemma GapSquare(q: real)
    requires q < 1.0
    ensures (1.0 - q) * (1.0 - q) == 1.0 - 2.0 * q + q * q
    ensures (1.0 - q) * (1.0 - q) > 0.0
  {
    SquareStrictlyMonotone(0.0, 1.0 - q);
  }

  /** cos and sin repeat after n full turns. */
  lemma {:induction false} PeriodicTurns(m: Math, a: real, n: nat)
    requires Periodic(m)
    ensures m.cos(a + 2.0 * m.pi * n as real) == m.cos(a)
    ensures m.sin(a + 2.0 * m.pi * n as real) == m.sin(a)
  {
    if n > 0 {
      var k: nat := n - 1;
      PeriodicTurns(m, a, k);
      var b := a + 2.0 * m.pi * k as real;
      FullTurn(m, b);
      var c := a + 2.0 * m.pi * n as real;
      assert c == b + 2.0 * m.pi;
      assert m.cos(c) == m.cos(b + 2.0 * m.pi);
      assert m.sin(c) == m.sin(b + 2.0 * m.pi);
    } else {
      var c := a + 2.0 * m.pi * n as real;
      assert c == a;
      assert m.cos(c) == m.cos(a) && m.sin(c) == m.sin(a);
    }
  }

  /** Indexing into a concatenation of three sequences. */
  lemma ConcatHead<T>(a: seq<T>, b: seq<T>, c: seq<T>)
    ensures |a + b + c| == |a| + |b| + |c|
    ensures forall i :: 0 <= i < |a| ==> (a + b + c)[i] == a[i]
  {
  }

  lemma ConcatMid<T>(a: seq<T>, b: seq<T>, c: seq<T>)
    ensures |a + b + c| == |a| + |b| + |c|
    ensures forall i :: |a| <= i < |a| + |b| ==> (a + b + c)[i] == b[i - |a|]
  {
  }

  lemma ConcatTail<T>(a: seq<T>, b: seq<T>, c: seq<T>)
    ensures |a + b + c| == |a| + |b| + |c|
    ensures forall i :: |a| + |b| <= i < |a| + |b| + |c| ==> (a + b + c)[i] == c[i - |a| - |b|]
  {
  }

  lemma ConcatIndex<T>(a: seq<T>, b: seq<T>, c: seq<T>)
    ensures forall i :: 0 <= i < |a| ==> (a + b + c)[i] == a[i]
    ensures forall i :: |a| <= i < |a| + |b| ==> (a + b + c)[i] == b[i - |a|]
    ensures forall i :: |a| + |b| <= i < |a| + |b| + |c| ==> (a + b + c)[i] == c[i - |a| - |b|]
  {
  }
}
