/** Shared vocabulary: optional values, 3-vectors, the three.js MathUtils
    helpers over the reals, and the host math primitives the program calls
    (Math.sqrt, Math.sin, Math.cos, Math.atan2), which the model takes as
    parameters rather than defining. */
module Common {

  datatype Option<+T> = None | Some(value: T)

  /** An opaque listener closure registered with an `on` method; only its
      identity and the order of registration matter. */
  type ListenerId = nat

  /** A THREE.Vector3 as a value. */
  datatype Vec3 = Vec3(x: real, y: real, z: real)

  /** The transform of a THREE.Object3D: position and Euler rotation. */
  class Object3D {
    var px: real
    var py: real
    var pz: real
    var rx: real
    var ry: real
    var rz: real

    /** `mesh.position.set(0, 0, 0)` on a fresh group. */
    constructor ()
      ensures px == 0.0 && py == 0.0 && pz == 0.0
      ensures rx == 0.0 && ry == 0.0 && rz == 0.0
    {
      px, py, pz := 0.0, 0.0, 0.0;
      rx, ry, rz := 0.0, 0.0, 0.0;
    }
  }

  /** Math.PI as a double. */
  const PI: real := 3.141592653589793

  function Abs(x: real): (r: real)
    ensures r >= 0.0 && (r == x || r == -x)
  {
    if x < 0.0 then -x else x
  }

  function Min(a: real, b: real): (r: real)
    ensures r <= a && r <= b && (r == a || r == b)
  {
    if a <= b then a else b
  }

  function Max(a: real, b: real): (r: real)
    ensures r >= a && r >= b && (r == a || r == b)
  {
    if a >= b then a else b
  }

  /** Math.sign. */
  function Sign(x: real): (r: real)
    ensures r * x == Abs(x)
    ensures r == 0.0 <==> x == 0.0
  {
    if x > 0.0 then 1.0 else if x < 0.0 then -1.0 else 0.0
  }

  /** THREE.MathUtils.lerp(x, y, t) = (1 - t) * x + t * y. */
  function Lerp(x: real, y: real, t: real): (r: real)
    ensures t == 0.0 ==> r == x
    ensures t == 1.0 ==> r == y
    ensures x == y ==> r == x
  {
    (1.0 - t) * x + t * y
  }

  /** For a factor in [0,1] the interpolant lies between its two ends. */
  lemma LerpBetween(x: real, y: real, t: real)
    requires 0.0 <= t <= 1.0
    ensures Min(x, y) <= Lerp(x, y, t) <= Max(x, y)
  {
    if x <= y {
      MulNonneg(t, y - x);
      MulNonneg(1.0 - t, y - x);
      assert Lerp(x, y, t) == x + t * (y - x) == y - (1.0 - t) * (y - x);
    } else {
      MulNonneg(t, x - y);
      MulNonneg(1.0 - t, x - y);
      assert Lerp(x, y, t) == y + (1.0 - t) * (x - y) == x - t * (x - y);
    }
  }

  lemma MulNonneg(a: real, b: real)
    requires 0.0 <= a && 0.0 <= b
    ensures 0.0 <= a * b
  {
  }

  lemma MulPos(a: real, b: real)
    requires 0.0 < a && 0.0 < b
    ensures 0.0 < a * b
  {
  }

  /** A product with a positive factor is zero only when the other factor
      is. */
  lemma ZeroProduct(a: real, b: real)
    requires b > 0.0
    ensures a * b == 0.0 ==> a == 0.0
  {
    if a > 0.0 {
      MulPos(a, b);
    } else if a < 0.0 {
      MulPos(-a, b);
      assert (-a) * b == -(a * b);
    }
  }

  /** Multiplying by a non-negative factor preserves <=. */
  lemma MulMono(a: real, b: real, c: real)
    requires 0.0 <= a && b <= c
    ensures a * b <= a * c
  {
    MulNonneg(a, c - b);
    assert a * c - a * b == a * (c - b);
  }

  /** Scaling by a factor in [0, 1] never increases a non-negative value. */
  lemma MulAtMostOne(a: real, b: real)
    requires 0.0 <= a && 0.0 <= b <= 1.0
    ensures 0.0 <= a * b <= a
  {
    MulNonneg(a, b);
    MulMono(a, b, 1.0);
  }

  /** The `a + (b - a) * t` form of interpolation used by Vector3.lerp and
      by hand-written blends. */
  function Mix(a: real, b: real, t: real): (r: real)
    ensures r == Lerp(a, b, t)
  {
    a + (b - a) * t
  }

  /** THREE.MathUtils.clamp(v, lo, hi) = Math.max(lo, Math.min(hi, v)). */
  function Clamp(v: real, lo: real, hi: real): (r: real)
    requires lo <= hi
    ensures lo <= r <= hi
    ensures lo <= v <= hi ==> r == v
    ensures v < lo ==> r == lo
    ensures v > hi ==> r == hi
  {
    Max(lo, Min(hi, v))
  }

  function ClampInt(v: int, lo: int, hi: int): (r: int)
    requires lo <= hi
    ensures lo <= r <= hi
    ensures lo <= v <= hi ==> r == v
    ensures v < lo ==> r == lo
    ensures v > hi ==> r == hi
  {
    if v < lo then lo else if v > hi then hi else v
  }

  /** Vector3.lerp: each component moves by alpha times the gap. */
  function LerpVec(a: Vec3, b: Vec3, alpha: real): (r: Vec3)
    ensures alpha == 0.0 ==> r == a
    ensures alpha == 1.0 ==> r == b
  {
    Vec3(Mix(a.x, b.x, alpha), Mix(a.y, b.y, alpha), Mix(a.z, b.z, alpha))
  }

  /** The host math primitives the program calls. */
  datatype Prims = Prims(
    sqrt: real -> real,
    sin: real -> real,
    cos: real -> real,
    atan2: (real, real) -> real)

  /** What the model relies on about the primitives: sqrt is the
      non-negative square root, sine and cosine lie in [-1, 1]. */
  ghost predicate Sound(m: Prims)
  {
    && (forall v :: 0.0 <= v ==> 0.0 <= m.sqrt(v) && m.sqrt(v) * m.sqrt(v) == v)
    && (forall a :: -1.0 <= m.sin(a) <= 1.0)
    && (forall a :: -1.0 <= m.cos(a) <= 1.0)
  }

  /** Euclidean length in the horizontal plane. */
  function Dist2D(m: Prims, x: real, z: real): real
  {
    m.sqrt(x * x + z * z)
  }

  lemma SquareNonneg(a: real)
    ensures 0.0 <= a * a
  {
    if a < 0.0 {
      MulNonneg(-a, -a);
      assert a * a == (-a) * (-a);
    } else {
      MulNonneg(a, a);
    }
  }

  /** A horizontal distance is positive off the origin. */
  lemma DistPos(m: Prims, a: real, b: real)
    requires Sound(m) && (a != 0.0 || b != 0.0)
    ensures 0.0 < Dist2D(m, a, b)
  {
    SquareNonneg(a);
    SquareNonneg(b);
    if a != 0.0 {
      assert Abs(a) * Abs(a) == a * a;
      DistBelow(m, a, b, Abs(a));
    } else {
      assert Abs(b) * Abs(b) == b * b;
      DistBelow(m, a, b, Abs(b));
    }
  }

  /** A horizontal distance is below a bound exactly when its square is. */
  lemma DistBelow(m: Prims, a: real, b: real, r: real)
    requires Sound(m) && 0.0 <= r
    ensures Dist2D(m, a, b) < r <==> a * a + b * b < r * r
  {
    SquareNonneg(a);
    SquareNonneg(b);
    SqrtBelow(m, a * a + b * b, r);
  }

  /** A square root is below a bound exactly when the square is. */
  lemma SqrtBelow(m: Prims, v: real, b: real)
    requires Sound(m) && 0.0 <= v && 0.0 <= b
    ensures m.sqrt(v) < b <==> v < b * b
  {
    var r := m.sqrt(v);
    assert 0.0 <= r && r * r == v;
    if r < b {
      MulMono(r, r, b);
      assert r * b < b * b by {
        assert b * b - r * b == b * (b - r);
        assert b * (b - r) > 0.0;
      }
      calc {
        v;
      == r * r;
      <= r * b;
      <  b * b;
      }
    } else {
      MulMono(b, b, r);
      MulMono(r, b, r);
      calc {
        b * b;
      <= b * r;
      == r * b;
      <= r * r;
      == v;
      }
    }
  }
}
