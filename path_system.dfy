/** The dirt paths from the spawn point to every pension
    (src/world/PathSystem.js). Each path is a ribbon: 41 centre points
    along a gently curved line draped on the terrain, two edge vertices and
    two colours per point, and two triangles joining each point to the
    next. The buffers are built by appending inside index loops, as in the
    source; `Math.random` draws are a parameter (one stream, in the order
    the source draws), and so are the edge colour and the primitives. */
module Paths {
  import opened Common
  import opened Constants
  import Terrain

  /** `segments` and `baseWidth`. */
  const SEGMENTS: nat := 40
  const BASE_WIDTH: real := 2.2
  /** Points per path: `segments + 1`. */
  const POINT_COUNT: nat := SEGMENTS + 1
  /** Random draws per path: one per point for the curve's side, one per
      point for the colour variation (2 · 41). */
  const DRAWS_PER_PATH: nat := 82

  /** The geometry of one path, as handed to the scene. */
  datatype PathMesh = PathMesh(points: seq<Vec3>, vertices: seq<real>, colors: seq<real>, indices: seq<nat>)

  function Sub(a: Vec3, b: Vec3): Vec3
  {
    Vec3(a.x - b.x, a.y - b.y, a.z - b.z)
  }

  /** `Vector3.normalize`: divides by the length, or by 1 for the zero
      vector. */
  function Normalize(m: Prims, v: Vec3): Vec3
  {
    var len := m.sqrt(v.x * v.x + v.y * v.y + v.z * v.z);
    var d := if len == 0.0 then 1.0 else len;
    Vec3(v.x / d, v.y / d, v.z / d)
  }

  /** The length of the straight line's horizontal normal
      `(-(to.z - from.z), to.x - from.x)`, by which the bulge is scaled. */
  function Span(m: Prims, from: Vec3, to: Vec3): real
  {
    Dist2D(m, -(to.z - from.z), to.x - from.x)
  }

  /** Centre point `i` of the path from `from` to `to`: the straight line's
      point at `t = i / 40`, pushed sideways along the line's normal by a
      bulge `sin(t·π)·5·0.3` and dropped onto the terrain 0.06 above it.
      The random side (`coin > 0.5`) flips only the x part of the push. */
  function PathPoint(m: Prims, terrain: Terrain.Terrain, from: Vec3, to: Vec3, i: nat, coin: real): Vec3
    reads terrain.positions
    requires terrain.positions.Length == 3 * Terrain.VERTEX_COUNT
    requires Span(m, from, to) != 0.0
  {
    var t := i as real / SEGMENTS as real;
    var x := Lerp(from.x, to.x, t);
    var z := Lerp(from.z, to.z, t);
    var perpX := -(to.z - from.z);
    var perpZ := to.x - from.x;
    var len := Span(m, from, to);
    var curve := m.sin(t * PI) * 5.0;
    var side := if coin > 0.5 then 1.0 else -1.0;
    var cx := x + (perpX / len) * curve * side * 0.3;
    var cz := z + (perpZ / len) * curve * 0.3;
    Vec3(cx, terrain.HeightAt(cx, cz) + 0.06, cz)
  }

  /** The first `k` centre points; point `i` uses draw `r0 + i`. */
  function Points(m: Prims, terrain: Terrain.Terrain, from: Vec3, to: Vec3, rng: nat -> real, r0: nat, k: nat): (ps: seq<Vec3>)
    reads terrain.positions
    requires terrain.positions.Length == 3 * Terrain.VERTEX_COUNT
    requires Span(m, from, to) != 0.0
    ensures |ps| == k
  {
    if k == 0 then []
    else Points(m, terrain, from, to, rng, r0, k - 1) + [PathPoint(m, terrain, from, to, k - 1, rng(r0 + k - 1))]
  }

  /** The unit direction of the path at point `i`: towards the next point,
      and for the last point from the previous one. */
  function Direction(m: Prims, points: seq<Vec3>, i: nat): Vec3
    requires 2 <= |points| && i < |points|
  {
    if i < |points| - 1 then Normalize(m, Sub(points[i + 1], points[i]))
    else Normalize(m, Sub(points[i], points[i - 1]))
  }

  /** The half-width at point `i`: the base half-width scaled by a smooth
      noise in [0.7, 1.0]. */
  function HalfWidth(m: Prims, i: nat, count: nat): real
    requires 2 <= count
  {
    var t := i as real / (count - 1) as real;
    (BASE_WIDTH / 2.0) * (0.85 + m.sin(t * 12.0) * 0.1 + m.sin(t * 5.3) * 0.05)
  }

  /** The last point has no successor and takes the direction of the last
      segment, the same as the point before it. */
  lemma DirectionAtEnd(m: Prims, points: seq<Vec3>)
    requires 2 <= |points|
    ensures Direction(m, points, |points| - 1) == Direction(m, points, |points| - 2)
  {
  }

  /** The half-width stays within 0.7 and 1 times half the base width. */
  lemma HalfWidthRange(m: Prims, i: nat, count: nat)
    requires Sound(m) && 2 <= count
    ensures 0.77 <= HalfWidth(m, i, count) <= 1.1
  {
    var t := i as real / (count - 1) as real;
    var a, b := m.sin(t * 12.0), m.sin(t * 5.3);
    assert -1.0 <= a <= 1.0 && -1.0 <= b <= 1.0;
    assert 0.7 <= 0.85 + a * 0.1 + b * 0.05 <= 1.0;
  }

  /** The two edge vertices of point `i`, six numbers: the left edge, then
      the right one, each offset by the half-width along the horizontal
      normal of the direction, with a small opposite vertical jitter. */
  function EdgeVertices(m: Prims, points: seq<Vec3>, i: nat): (vs: seq<real>)
    requires 2 <= |points| && i < |points|
    ensures |vs| == 6
  {
    var p := points[i];
    var dir := Direction(m, points, i);
    var perp := Vec3(-dir.z, 0.0, dir.x);
    var halfW := HalfWidth(m, i, |points|);
    var jitter := m.sin(i as real * 1.7) * 0.15;
    [p.x - perp.x * halfW, p.y + jitter * 0.02, p.z - perp.z * halfW,
     p.x + perp.x * halfW, p.y - jitter * 0.02, p.z + perp.z * halfW]
  }

  /** The two edge colours of one point: the edge colour with its red and
      green raised on the left and lowered on the right by one variation
      drawn from [-0.02, 0.02). */
  function EdgeColors(edge: Vec3, r: real): (cs: seq<real>)
    ensures |cs| == 6
  {
    var v := r * 0.04 - 0.02;
    [edge.x + v, edge.y + v, edge.z, edge.x - v, edge.y - v, edge.z]
  }

  /** For a draw in [0, 1) the two edges vary in opposite directions by
      less than 0.02 each, on red and green only, so they average to the
      edge colour. */
  lemma EdgeColorsBalanced(edge: Vec3, r: real)
    requires 0.0 <= r < 1.0
    ensures var cs := EdgeColors(edge, r);
      && cs[0] + cs[3] == 2.0 * edge.x && cs[1] + cs[4] == 2.0 * edge.y
      && cs[2] == edge.z && cs[5] == edge.z
      && -0.02 <= cs[0] - edge.x < 0.02 && cs[0] - edge.x == cs[1] - edge.y
  {
  }

  /** The two triangles joining point `i` to point `i + 1`: they use only
      the two vertices of each of those points. */
  function Quad(i: nat): (q: seq<nat>)
    ensures |q| == 6
    ensures forall j :: 0 <= j < 6 ==> 2 * i <= q[j] <= 2 * i + 3
  {
    [2 * i, 2 * i + 1, 2 * i + 2, 2 * i + 1, 2 * i + 3, 2 * i + 2]
  }

  /** The vertex buffer of the first `k` points. */
  function VertexStrip(m: Prims, points: seq<Vec3>, k: nat): seq<real>
    requires 2 <= |points| && k <= |points|
  {
    if k == 0 then [] else VertexStrip(m, points, k - 1) + EdgeVertices(m, points, k - 1)
  }

  /** The colour buffer of the first `k` points; point `i` uses draw
      `r0 + i`. */
  function ColorStrip(edge: Vec3, rng: nat -> real, r0: nat, k: nat): seq<real>
  {
    if k == 0 then [] else ColorStrip(edge, rng, r0, k - 1) + EdgeColors(edge, rng(r0 + k - 1))
  }

  /** The index buffer of the first `k` segments. */
  function Strip(k: nat): seq<nat>
  {
    if k == 0 then [] else Strip(k - 1) + Quad(k - 1)
  }

  /** The whole mesh `_createPath` builds from `from` to `to` with draws
      from `r0` on. */
  function PathFor(m: Prims, terrain: Terrain.Terrain, from: Vec3, to: Vec3, edge: Vec3, rng: nat -> real, r0: nat): PathMesh
    reads terrain.positions
    requires terrain.positions.Length == 3 * Terrain.VERTEX_COUNT
    requires Span(m, from, to) != 0.0
  {
    var points := Points(m, terrain, from, to, rng, r0, POINT_COUNT);
    PathMesh(points, VertexStrip(m, points, |points|), ColorStrip(edge, rng, r0 + |points|, |points|), Strip(|points| - 1))
  }

  /** Each point contributes six numbers to a buffer. */
  lemma {:induction false} StripLengths(m: Prims, points: seq<Vec3>, edge: Vec3, rng: nat -> real, r0: nat, k: nat)
    requires 2 <= |points| && k <= |points|
    ensures |VertexStrip(m, points, k)| == 6 * k
    ensures |ColorStrip(edge, rng, r0, k)| == 6 * k
    ensures |Strip(k)| == 6 * k
  {
    VertexStripLength(m, points, k);
    if k > 0 {
      StripLengths(m, points, edge, rng, r0, k - 1);
    }
  }

  /** Segment `i`'s six indices are the triangles (2i, 2i+1, 2i+2) and
      (2i+1, 2i+3, 2i+2), and every index names one of the `2k + 2`
      vertices of the first `k + 1` points. */
  lemma {:induction false} StripIndices(k: nat)
    ensures |Strip(k)| == 6 * k
    ensures forall i :: 0 <= i < k ==> Strip(k)[6 * i..6 * i + 6] == Quad(i)
    ensures forall j :: 0 <= j < |Strip(k)| ==> Strip(k)[j] < 2 * k + 2
  {
    if k > 0 {
      StripIndices(k - 1);
      var prev := Strip(k - 1);
      var quad := Quad(k - 1);
      assert Strip(k) == prev + quad;
      forall i | 0 <= i < k
        ensures Strip(k)[6 * i..6 * i + 6] == Quad(i)
      {
        BlockOf(prev, quad, i);
      }
      StripBound(prev, quad, 2 * k + 2);
    }
  }

  /** Appending six indices below `bound` to indices below it keeps every
      index below it. */
  lemma StripBound(prev: seq<nat>, quad: seq<nat>, bound: nat)
    requires forall j :: 0 <= j < |prev| ==> prev[j] < bound
    requires forall j :: 0 <= j < |quad| ==> quad[j] < bound
    ensures forall j :: 0 <= j < |prev + quad| ==> (prev + quad)[j] < bound
  {
  }

  /** Point `i`'s six vertex numbers sit at `6i` in the vertex buffer. */
  lemma {:induction false} VertexStripAt(m: Prims, points: seq<Vec3>, k: nat, i: nat)
    requires 2 <= |points| && i < k <= |points|
    ensures |VertexStrip(m, points, k)| == 6 * k
    ensures VertexStrip(m, points, k)[6 * i..6 * i + 6] == EdgeVertices(m, points, i)
  {
    VertexStripLength(m, points, k - 1);
    var prev := VertexStrip(m, points, k - 1);
    var block := EdgeVertices(m, points, k - 1);
    assert VertexStrip(m, points, k) == prev + block;
    BlockOf(prev, block, i);
    if i < k - 1 {
      VertexStripAt(m, points, k - 1, i);
    }
  }

  /** The vertex buffer of `k` points holds six numbers per point. */
  lemma {:induction false} VertexStripLength(m: Prims, points: seq<Vec3>, k: nat)
    requires 2 <= |points| && k <= |points|
    ensures |VertexStrip(m, points, k)| == 6 * k
  {
    if k > 0 {
      VertexStripLength(m, points, k - 1);
    }
  }

  /** Appending a block of six keeps the earlier blocks and puts the new
      one last. */
  lemma BlockOf<T>(prev: seq<T>, block: seq<T>, i: nat)
    requires |block| == 6 && (6 * i + 6 <= |prev| || 6 * i == |prev|)
    ensures 6 * i + 6 <= |prev| ==> (prev + block)[6 * i..6 * i + 6] == prev[6 * i..6 * i + 6]
    ensures 6 * i == |prev| ==> (prev + block)[6 * i..6 * i + 6] == block
  {
  }

  /** The two edge vertices of a point are symmetric about it in the
      ground plane, and the rung between them is perpendicular to the
      path's direction there. */
  lemma RungAcrossPath(m: Prims, points: seq<Vec3>, i: nat)
    requires 2 <= |points| && i < |points|
    ensures var vs := EdgeVertices(m, points, i);
      var dir := Direction(m, points, i);
      && vs[0] + vs[3] == 2.0 * points[i].x
      && vs[1] + vs[4] == 2.0 * points[i].y
      && vs[2] + vs[5] == 2.0 * points[i].z
      && (vs[3] - vs[0]) * dir.x + (vs[5] - vs[2]) * dir.z == 0.0
  {
    var dir := Direction(m, points, i);
    var halfW := HalfWidth(m, i, |points|);
    assert (2.0 * -dir.z * halfW) * dir.x + (2.0 * dir.x * halfW) * dir.z == 0.0;
  }

  /** Point `i` of the first `k` is `PathPoint` at `i`, with draw `r0 + i`. */
  lemma {:induction false} PointsAt(m: Prims, terrain: Terrain.Terrain, from: Vec3, to: Vec3, rng: nat -> real, r0: nat, k: nat, i: nat)
    requires terrain.positions.Length == 3 * Terrain.VERTEX_COUNT
    requires Span(m, from, to) != 0.0
    requires i < k
    ensures Points(m, terrain, from, to, rng, r0, k)[i] == PathPoint(m, terrain, from, to, i, rng(r0 + i))
  {
    if i < k - 1 {
      PointsAt(m, terrain, from, to, rng, r0, k - 1, i);
    }
  }

  /** `_createPath`'s first loop: the 41 centre points. */
  method CreatePoints(m: Prims, terrain: Terrain.Terrain, from: Vec3, to: Vec3, rng: nat -> real, r0: nat) returns (points: seq<Vec3>)
    requires terrain.positions.Length == 3 * Terrain.VERTEX_COUNT
    requires Span(m, from, to) != 0.0
    ensures points == Points(m, terrain, from, to, rng, r0, POINT_COUNT)
  {
    points := [];
    for i := 0 to POINT_COUNT
      invariant points == Points(m, terrain, from, to, rng, r0, i)
    {
      points := points + [PathPoint(m, terrain, from, to, i, rng(r0 + i))];
    }
  }

  /** `_createPath`'s second loop, over the centre points: per point its two
      vertices and two colours (point `i` uses draw `r0 + i`), and for every
      point but the last the two triangles to the next one. */
  method Ribbon(m: Prims, points: seq<Vec3>, edge: Vec3, rng: nat -> real, r0: nat) returns (vertices: seq<real>, colors: seq<real>, indices: seq<nat>)
    requires 2 <= |points|
    ensures vertices == VertexStrip(m, points, |points|)
    ensures colors == ColorStrip(edge, rng, r0, |points|)
    ensures indices == Strip(|points| - 1)
  {
    vertices, colors, indices := [], [], [];
    for i := 0 to |points|
      invariant vertices == VertexStrip(m, points, i)
      invariant colors == ColorStrip(edge, rng, r0, i)
      invariant indices == Strip(if i < |points| then i else |points| - 1)
    {
      vertices := vertices + EdgeVertices(m, points, i);
      colors := colors + EdgeColors(edge, rng(r0 + i));
      if i < |points| - 1 {
        indices := indices + Quad(i);
      }
    }
  }

  /** The shape of every path: 41 points, point `i` being `PathPoint` at
      `i`; 246 vertex numbers and 246 colour numbers; 240 indices, the
      segment `i` ones being the two triangles of `Quad(i)` and every one
      naming one of the 82 vertices; point `i`'s vertices at `6i`. */
  lemma PathShape(m: Prims, terrain: Terrain.Terrain, from: Vec3, to: Vec3, edge: Vec3, rng: nat -> real, r0: nat)
    requires terrain.positions.Length == 3 * Terrain.VERTEX_COUNT
    requires Span(m, from, to) != 0.0
    ensures var mesh := PathFor(m, terrain, from, to, edge, rng, r0);
      && |mesh.points| == POINT_COUNT
      && (forall i :: 0 <= i < POINT_COUNT ==> mesh.points[i] == PathPoint(m, terrain, from, to, i, rng(r0 + i)))
      && |mesh.vertices| == 6 * POINT_COUNT && |mesh.colors| == 6 * POINT_COUNT
      && (forall i :: 0 <= i < POINT_COUNT ==> mesh.vertices[6 * i..6 * i + 6] == EdgeVertices(m, mesh.points, i))
      && |mesh.indices| == 6 * SEGMENTS
      && (forall i :: 0 <= i < SEGMENTS ==> mesh.indices[6 * i..6 * i + 6] == Quad(i))
      && (forall j :: 0 <= j < |mesh.indices| ==> mesh.indices[j] < 2 * POINT_COUNT)
  {
    var points := Points(m, terrain, from, to, rng, r0, POINT_COUNT);
    StripLengths(m, points, edge, rng, r0 + |points|, |points|);
    StripIndices(|points| - 1);
    PointsAll(m, terrain, from, to, rng, r0);
    VertexBlocks(m, points);
  }

  /** Every one of the 41 points is `PathPoint` at its index. */
  lemma PointsAll(m: Prims, terrain: Terrain.Terrain, from: Vec3, to: Vec3, rng: nat -> real, r0: nat)
    requires terrain.positions.Length == 3 * Terrain.VERTEX_COUNT
    requires Span(m, from, to) != 0.0
    ensures forall i :: 0 <= i < POINT_COUNT ==>
      Points(m, terrain, from, to, rng, r0, POINT_COUNT)[i] == PathPoint(m, terrain, from, to, i, rng(r0 + i))
  {
    forall i | 0 <= i < POINT_COUNT
      ensures Points(m, terrain, from, to, rng, r0, POINT_COUNT)[i] == PathPoint(m, terrain, from, to, i, rng(r0 + i))
    {
      PointsAt(m, terrain, from, to, rng, r0, POINT_COUNT, i);
    }
  }

  /** Every point's six vertex numbers sit at six times its index. */
  lemma VertexBlocks(m: Prims, points: seq<Vec3>)
    requires 2 <= |points|
    ensures |VertexStrip(m, points, |points|)| == 6 * |points|
    ensures forall i :: 0 <= i < |points| ==>
      VertexStrip(m, points, |points|)[6 * i..6 * i + 6] == EdgeVertices(m, points, i)
  {
    VertexStripAt(m, points, |points|, 0);
    forall i | 0 <= i < |points|
      ensures VertexStrip(m, points, |points|)[6 * i..6 * i + 6] == EdgeVertices(m, points, i)
    {
      VertexStripAt(m, points, |points|, i);
    }
  }

  /** `_createPath(from, to)`: the centre points, then the ribbon over
      them; the mesh is `PathFor`, whose shape `PathShape` states. */
  method CreatePath(m: Prims, terrain: Terrain.Terrain, from: Vec3, to: Vec3, edge: Vec3, rng: nat -> real, r0: nat) returns (mesh: PathMesh)
    requires terrain.positions.Length == 3 * Terrain.VERTEX_COUNT
    requires Span(m, from, to) != 0.0
    ensures mesh == PathFor(m, terrain, from, to, edge, rng, r0)
  {
    var points := CreatePoints(m, terrain, from, to, rng, r0);
    var vertices, colors, indices := Ribbon(m, points, edge, rng, r0 + |points|);
    mesh := PathMesh(points, vertices, colors, indices);
  }

  /** Where the path to a pension ends: its registry position, at ground
      level. */
  function Target(p: Pension): Vec3
  {
    Vec3(p.x, 0.0, p.z)
  }

  const ORIGIN: Vec3 := Vec3(0.0, 0.0, 0.0)

  /** A pension off the spawn point gives its path a direction. */
  lemma AwayFromOrigin(m: Prims, p: Pension)
    requires Sound(m) && (p.x != 0.0 || p.z != 0.0)
    ensures Span(m, ORIGIN, Target(p)) > 0.0
  {
    DistPos(m, -(p.z - 0.0), p.x - 0.0);
  }

  /** `meshes` holds the first `k` paths to `ps`, path `j` using the draws
      from `82j` on. */
  ghost predicate PathsTo(m: Prims, terrain: Terrain.Terrain, edge: Vec3, rng: nat -> real, ps: seq<Pension>, meshes: seq<PathMesh>, k: nat)
    reads terrain.positions
    requires terrain.positions.Length == 3 * Terrain.VERTEX_COUNT
    requires k <= |ps| && forall j :: 0 <= j < |ps| ==> Span(m, ORIGIN, Target(ps[j])) != 0.0
  {
    && |meshes| == k
    && forall j :: 0 <= j < k ==>
         meshes[j] == PathFor(m, terrain, ORIGIN, Target(ps[j]), edge, rng, DRAWS_PER_PATH * j)
  }

  /** Appending the path to `ps[k]` extends the prefix by one. */
  lemma PathsToExtend(m: Prims, terrain: Terrain.Terrain, edge: Vec3, rng: nat -> real, ps: seq<Pension>, meshes: seq<PathMesh>, k: nat, mesh: PathMesh)
    requires terrain.positions.Length == 3 * Terrain.VERTEX_COUNT
    requires k < |ps| && forall j :: 0 <= j < |ps| ==> Span(m, ORIGIN, Target(ps[j])) != 0.0
    requires PathsTo(m, terrain, edge, rng, ps, meshes, k)
    requires mesh == PathFor(m, terrain, ORIGIN, Target(ps[k]), edge, rng, DRAWS_PER_PATH * k)
    ensures PathsTo(m, terrain, edge, rng, ps, meshes + [mesh], k + 1)
  {
    forall j | 0 <= j < k + 1
      ensures (meshes + [mesh])[j] == PathFor(m, terrain, ORIGIN, Target(ps[j]), edge, rng, DRAWS_PER_PATH * j)
    {
      if j < k {
        assert (meshes + [mesh])[j] == meshes[j];
      }
    }
  }

  /** The constructor's loop over `ps`: one path from the origin to each,
      in order, path `k` using the draws from `82k` on. */
  method CreatePathsTo(m: Prims, terrain: Terrain.Terrain, edge: Vec3, rng: nat -> real, ps: seq<Pension>) returns (meshes: seq<PathMesh>)
    requires terrain.positions.Length == 3 * Terrain.VERTEX_COUNT
    requires forall k :: 0 <= k < |ps| ==> Span(m, ORIGIN, Target(ps[k])) != 0.0
    ensures PathsTo(m, terrain, edge, rng, ps, meshes, |ps|)
  {
    meshes := [];
    for k := 0 to |ps|
      invariant PathsTo(m, terrain, edge, rng, ps, meshes, k)
    {
      var mesh := CreatePath(m, terrain, ORIGIN, Target(ps[k]), edge, rng, DRAWS_PER_PATH * k);
      PathsToExtend(m, terrain, edge, rng, ps, meshes, k, mesh);
      meshes := meshes + [mesh];
    }
  }

  /** The constructor: one path from the origin to every pension, in
      registry order. No pension sits on the spawn point, so every path has
      a direction. */
  method CreatePaths(m: Prims, terrain: Terrain.Terrain, edge: Vec3, rng: nat -> real) returns (meshes: seq<PathMesh>)
    requires Sound(m)
    requires terrain.positions.Length == 3 * Terrain.VERTEX_COUNT
    ensures |meshes| == |PENSIONS|
    ensures forall k :: 0 <= k < |PENSIONS| ==>
      Span(m, ORIGIN, Target(PENSIONS[k])) > 0.0
      && meshes[k] == PathFor(m, terrain, ORIGIN, Target(PENSIONS[k]), edge, rng, DRAWS_PER_PATH * k)
  {
    forall k | 0 <= k < |PENSIONS|
      ensures Span(m, ORIGIN, Target(PENSIONS[k])) > 0.0
    {
      AwayFromOrigin(m, PENSIONS[k]);
    }
    meshes := CreatePathsTo(m, terrain, edge, rng, PENSIONS);
  }
}
