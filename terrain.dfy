/** The height field (src/world/Terrain.js): a (S+1) x (S+1) vertex grid
    over a square world centred on the origin. Every vertex height is the
    natural (noise) height, faded to zero around the spawn point and then
    blended, pension by pension in registry order, toward each pension's
    natural centre height. Queries interpolate the grid bilinearly. */
module Terrain {
  import opened Common
  import opened Constants

  /** Vertices per row and column: TERRAIN_SEGMENTS + 1. */
  const GRID_SIZE: nat := 129
  /** GRID_SIZE * GRID_SIZE. */
  const VERTEX_COUNT: nat := 16641
  const HALF_SIZE: real := WORLD_SIZE / 2.0
  const SEGMENT_SIZE: real := WORLD_SIZE / (TERRAIN_SEGMENTS as real)

  const SPAWN_RADIUS: real := 25.0
  const FLAT_RADIUS: real := 14.0
  const TRANSITION_RADIUS: real := 30.0

  /** An entry of `_pensionData`: anchor and the natural height there. */
  datatype PensionPad = PensionPad(x: real, z: real, centerY: real)

  /** `_pensionData` as the constructor builds it, one pad per pension in
      registry order, centre height sampled from the natural height. */
  function PadsOf(natural: (real, real) -> real, ps: seq<Pension>): (pads: seq<PensionPad>)
    ensures |pads| == |ps|
    ensures forall i :: 0 <= i < |ps| ==>
      pads[i] == PensionPad(ps[i].x, ps[i].z, natural(ps[i].x, ps[i].z))
  {
    if ps == [] then []
    else [PensionPad(ps[0].x, ps[0].z, natural(ps[0].x, ps[0].z))] + PadsOf(natural, ps[1..])
  }

  // ---------------------------------------------------------------------
  // _computeHeight, as specification functions

  /** The spawn fade: inside SPAWN_RADIUS the height is scaled by d / 25. */
  function SpawnFade(y: real, d: real): (r: real)
    ensures 0.0 <= d < SPAWN_RADIUS ==> r == y * (d / SPAWN_RADIUS)
    ensures d >= SPAWN_RADIUS ==> r == y
    ensures d == 0.0 ==> r == 0.0
  {
    if d < SPAWN_RADIUS then
      var t := Max(0.0, 1.0 - d / SPAWN_RADIUS);
      y * (1.0 - t)
    else y
  }

  /** The smoothstep weight of a pension at distance d (only used below
      TRANSITION_RADIUS). */
  function PadWeight(d: real): (s: real)
    requires d < TRANSITION_RADIUS
  {
    var t := if d < FLAT_RADIUS then 1.0 else 1.0 - (d - FLAT_RADIUS) / (TRANSITION_RADIUS - FLAT_RADIUS);
    t * t * (3.0 - 2.0 * t)
  }

  /** The weight is 1 inside the flat radius and lies in [0, 1] up to the
      transition radius. */
  lemma PadWeightBounds(d: real)
    requires 0.0 <= d < TRANSITION_RADIUS
    ensures 0.0 <= PadWeight(d) <= 1.0
    ensures d < FLAT_RADIUS ==> PadWeight(d) == 1.0
  {
    if d >= FLAT_RADIUS {
      var t := 1.0 - (d - FLAT_RADIUS) / (TRANSITION_RADIUS - FLAT_RADIUS);
      assert 0.0 < t <= 1.0;
      SmoothstepBounds(t);
    }
  }

  /** t^2 (3 - 2t) maps [0, 1] into [0, 1]. */
  lemma SmoothstepBounds(t: real)
    requires 0.0 <= t <= 1.0
    ensures 0.0 <= t * t * (3.0 - 2.0 * t) <= 1.0
  {
    MulNonneg(t, t);
    MulMono(t, t, 1.0);
    MulNonneg(t * t, 3.0 - 2.0 * t);
    // 1 - t^2 (3 - 2t) = (1 - t)^2 (1 + 2t)
    assert 1.0 - t * t * (3.0 - 2.0 * t) == (1.0 - t) * (1.0 - t) * (1.0 + 2.0 * t);
    MulNonneg(1.0 - t, 1.0 - t);
    MulNonneg((1.0 - t) * (1.0 - t), 1.0 + 2.0 * t);
  }

  /** One iteration of the pension loop of `_computeHeight`. */
  function BlendStep(y: real, p: PensionPad, d: real): real
  {
    if d < TRANSITION_RADIUS then
      var smooth := PadWeight(d);
      y * (1.0 - smooth) + p.centerY * smooth
    else y
  }

  lemma BlendStepInside(y: real, p: PensionPad, d: real, smooth: real)
    requires d < TRANSITION_RADIUS && smooth == PadWeight(d)
    ensures BlendStep(y, p, d) == y * (1.0 - smooth) + p.centerY * smooth
  {
  }

  /** The blend is convex: the result lies between the height so far and the
      pension's centre height; at or beyond the transition radius nothing
      changes, and inside the flat radius the centre height replaces it. */
  lemma BlendStepProps(y: real, p: PensionPad, d: real)
    requires 0.0 <= d
    ensures Min(y, p.centerY) <= BlendStep(y, p, d) <= Max(y, p.centerY)
    ensures d >= TRANSITION_RADIUS ==> BlendStep(y, p, d) == y
    ensures d < FLAT_RADIUS ==> BlendStep(y, p, d) == p.centerY
  {
    if d < TRANSITION_RADIUS {
      PadWeightBounds(d);
      LerpBetween(y, p.centerY, PadWeight(d));
      assert BlendStep(y, p, d) == Lerp(y, p.centerY, PadWeight(d));
    }
  }

  /** Distance from (x, z) to a pension anchor. */
  function PadDist(m: Prims, p: PensionPad, x: real, z: real): real
  {
    Dist2D(m, x - p.x, z - p.z)
  }

  /** The pension loop as a left fold over the pads in order. */
  function BlendAll(m: Prims, y: real, pads: seq<PensionPad>, x: real, z: real): real
    decreases |pads|
  {
    if pads == [] then y
    else BlendAll(m, BlendStep(y, pads[0], PadDist(m, pads[0], x, z)), pads[1..], x, z)
  }

  /** Peeling pad k off the front of the suffix pads[k..]. */
  lemma BlendAllUnroll(m: Prims, y: real, pads: seq<PensionPad>, k: nat, x: real, z: real)
    requires k < |pads|
    ensures BlendAll(m, y, pads[k..], x, z)
         == BlendAll(m, BlendStep(y, pads[k], Dist2D(m, x - pads[k].x, z - pads[k].z)), pads[k + 1..], x, z)
  {
    assert pads[k..][1..] == pads[k + 1..];
  }

  /** `_computeHeight(x, z)`. */
  function HeightSpec(m: Prims, natural: (real, real) -> real, pads: seq<PensionPad>, x: real, z: real): real
  {
    BlendAll(m, SpawnFade(natural(x, z), Dist2D(m, x, z)), pads, x, z)
  }

  /** Registry order is the tie-break: a point inside the flat radius of
      pad k gets exactly that pad's centre height as long as every LATER pad
      is at least TRANSITION_RADIUS away, whatever the earlier pads did. */
  lemma {:induction false} LastFlatPadWins(m: Prims, y: real, pads: seq<PensionPad>, x: real, z: real, k: nat)
    requires Sound(m) && k < |pads|
    requires PadDist(m, pads[k], x, z) < FLAT_RADIUS
    requires forall j :: k < j < |pads| ==> PadDist(m, pads[j], x, z) >= TRANSITION_RADIUS
    ensures BlendAll(m, y, pads, x, z) == pads[k].centerY
    decreases k
  {
    var d0 := PadDist(m, pads[0], x, z);
    assert 0.0 <= d0;
    BlendStepProps(y, pads[0], d0);
    if k == 0 {
      PastPadsUnchanged(m, BlendStep(y, pads[0], d0), pads[1..], x, z);
    } else {
      LastFlatPadWins(m, BlendStep(y, pads[0], d0), pads[1..], x, z, k - 1);
    }
  }

  /** Pads all at or beyond the transition radius leave the height alone. */
  lemma {:induction false} PastPadsUnchanged(m: Prims, y: real, pads: seq<PensionPad>, x: real, z: real)
    requires Sound(m)
    requires forall j :: 0 <= j < |pads| ==> PadDist(m, pads[j], x, z) >= TRANSITION_RADIUS
    ensures BlendAll(m, y, pads, x, z) == y
  {
    if pads != [] {
      assert PadDist(m, pads[0], x, z) >= TRANSITION_RADIUS;
      PastPadsUnchanged(m, y, pads[1..], x, z);
    }
  }

  /** The registry's anchors: the pad of every later pension is at least
      30 units from an earlier pension's anchor. */
  lemma RegistrySpacing(m: Prims, natural: (real, real) -> real, k: nat, j: nat)
    requires Sound(m) && k < j < |PENSIONS|
    ensures PadDist(m, PadsOf(natural, PENSIONS)[j], PENSIONS[k].x, PENSIONS[k].z) >= TRANSITION_RADIUS
  {
    var pad := PadsOf(natural, PENSIONS)[j];
    assert pad.x == PENSIONS[j].x && pad.z == PENSIONS[j].z;
    AnchorsApart(k, j);
    FarPad(m, pad, PENSIONS[k].x, PENSIONS[k].z);
  }

  /** The squared distance from (x, z) to (px, pz). */
  function SqGap(x: real, z: real, px: real, pz: real): real
  {
    (x - px) * (x - px) + (z - pz) * (z - pz)
  }

  /** A point whose squared distance to an anchor is at least 30 * 30 is
      outside that pad's transition ring. */
  lemma FarPad(m: Prims, p: PensionPad, x: real, z: real)
    requires Sound(m)
    requires SqGap(x, z, p.x, p.z) >= 900.0
    ensures PadDist(m, p, x, z) >= TRANSITION_RADIUS
  {
    DistBelow(m, x - p.x, z - p.z, TRANSITION_RADIUS);
  }

  /** Squared distances between the registry's anchors, pair by pair. */
  lemma AnchorsApart(k: nat, j: nat)
    requires k < j < |PENSIONS|
    ensures SqGap(PENSIONS[k].x, PENSIONS[k].z, PENSIONS[j].x, PENSIONS[j].z) >= 900.0
  {
    var a, b := PENSIONS[k], PENSIONS[j];
    var dx, dz := a.x - b.x, a.z - b.z;
    if k == 0 {
      if j == 1 { assert dx == 170.0; } else if j == 2 { assert dz == -150.0; }
      else if j == 3 { assert dz == -180.0; } else if j == 4 { assert dx == 175.0; }
      else { assert dx == 140.0; }
    } else if k == 1 {
      if j == 2 { assert dx == -175.0; } else if j == 3 { assert dz == -160.0; }
      else if j == 4 { assert dz == -100.0; } else { assert dz == 30.0 && dx == -30.0; }
    } else if k == 2 {
      if j == 3 { assert dx == 85.0; } else if j == 4 { assert dx == 180.0; }
      else { assert dx == 145.0; }
    } else if k == 3 {
      if j == 4 { assert dx == 95.0; } else { assert dx == 60.0; }
    } else {
      assert dz == 130.0;
    }
  }

  /** A pad's own anchor lies inside its flat radius. */
  lemma AtAnchor(m: Prims, p: PensionPad, x: real, z: real)
    requires Sound(m) && p.x == x && p.z == z
    ensures PadDist(m, p, x, z) < FLAT_RADIUS
  {
    DistBelow(m, 0.0, 0.0, FLAT_RADIUS);
  }

  /** Flattening invariant at the anchors: `_computeHeight` at a pension's
      anchor is exactly that pension's natural centre height. */
  lemma AnchorIsFlat(m: Prims, natural: (real, real) -> real, k: nat)
    requires Sound(m) && k < |PENSIONS|
    ensures HeightSpec(m, natural, PadsOf(natural, PENSIONS), PENSIONS[k].x, PENSIONS[k].z)
            == natural(PENSIONS[k].x, PENSIONS[k].z)
  {
    var pads := PadsOf(natural, PENSIONS);
    var x, z := PENSIONS[k].x, PENSIONS[k].z;
    AtAnchor(m, pads[k], x, z);
    forall j | k < j < |pads|
      ensures PadDist(m, pads[j], x, z) >= TRANSITION_RADIUS
    {
      RegistrySpacing(m, natural, k, j);
    }
    LastFlatPadWins(m, SpawnFade(natural(x, z), Dist2D(m, x, z)), pads, x, z, k);
  }

  // ---------------------------------------------------------------------
  // getHeightAt, as specification functions

  /** A world coordinate as a fractional grid index. */
  function GridCoord(x: real): real
  {
    ((x + HALF_SIZE) / WORLD_SIZE) * (TERRAIN_SEGMENTS as real)
  }

  /** The cell index: floor of the grid coordinate, clamped to [0, S-1]. */
  function Cell(g: real): (i: int)
    ensures 0 <= i <= TERRAIN_SEGMENTS - 1
  {
    ClampInt(g.Floor, 0, TERRAIN_SEGMENTS - 1)
  }

  /** Inside the world the fractional offset from the cell lies in [0, 1]. */
  lemma FracInUnit(x: real)
    requires -HALF_SIZE <= x <= HALF_SIZE
    ensures 0.0 <= GridCoord(x) - Cell(GridCoord(x)) as real <= 1.0
  {
    var g := GridCoord(x);
    assert 0.0 <= g <= TERRAIN_SEGMENTS as real;
    assert g.Floor as real <= g < g.Floor as real + 1.0;
  }

  /** Outside the world the cell is the edge cell and the offset is measured
      from it (so it may leave [0, 1]). */
  lemma OutsideClampsToEdge(x: real)
    ensures x < -HALF_SIZE ==> Cell(GridCoord(x)) == 0 && GridCoord(x) < 0.0
    ensures x >= HALF_SIZE ==> Cell(GridCoord(x)) == TERRAIN_SEGMENTS - 1
  {
    var g := GridCoord(x);
    if x < -HALF_SIZE {
      assert g < 0.0;
      assert g.Floor < 0;
    }
    if x >= HALF_SIZE {
      assert g >= TERRAIN_SEGMENTS as real;
      assert g.Floor >= TERRAIN_SEGMENTS;
    }
  }

  /** Bilinear interpolation of the four corners of a cell. */
  function Bilinear(y00: real, y10: real, y01: real, y11: real, fx: real, fz: real): (h: real)
    ensures fx == 0.0 && fz == 0.0 ==> h == y00
    ensures fx == 1.0 && fz == 0.0 ==> h == y10
    ensures fx == 0.0 && fz == 1.0 ==> h == y01
    ensures fx == 1.0 && fz == 1.0 ==> h == y11
  {
    var y0 := Mix(y00, y10, fx);
    var y1 := Mix(y01, y11, fx);
    Mix(y0, y1, fz)
  }

  /** With both offsets in [0, 1] the interpolant lies between the lowest
      and the highest corner. */
  lemma BilinearBetween(y00: real, y10: real, y01: real, y11: real, fx: real, fz: real)
    requires 0.0 <= fx <= 1.0 && 0.0 <= fz <= 1.0
    ensures Min(Min(y00, y10), Min(y01, y11)) <= Bilinear(y00, y10, y01, y11, fx, fz)
                                              <= Max(Max(y00, y10), Max(y01, y11))
  {
    LerpBetween(y00, y10, fx);
    LerpBetween(y01, y11, fx);
    LerpBetween(Mix(y00, y10, fx), Mix(y01, y11, fx), fz);
  }

  /** The x coordinate of grid column ix (PlaneGeometry laid flat). */
  function ColumnX(ix: nat): real
  {
    (ix as real) * SEGMENT_SIZE - HALF_SIZE
  }

  /** At a grid line the grid coordinate is exactly the line's index. */
  lemma GridCoordAtLine(ix: nat)
    requires ix <= TERRAIN_SEGMENTS
    ensures GridCoord(ColumnX(ix)) == ix as real
  {
  }

  // ---------------------------------------------------------------------
  // The terrain object

  class Terrain {
    /** `_naturalHeight`: the three-octave noise sum, left abstract. */
    const natural: (real, real) -> real
    const m: Prims
    /** `_pensionData`. */
    const pads: seq<PensionPad>
    /** The vertex buffer of the plane geometry, x, y, z per vertex. */
    const positions: array<real>

    function X(i: nat): real
      reads positions
      requires i < VERTEX_COUNT && positions.Length == 3 * VERTEX_COUNT
    {
      positions[3 * i]
    }

    function Y(i: nat): real
      reads positions
      requires i < VERTEX_COUNT && positions.Length == 3 * VERTEX_COUNT
    {
      positions[3 * i + 1]
    }

    function Z(i: nat): real
      reads positions
      requires i < VERTEX_COUNT && positions.Length == 3 * VERTEX_COUNT
    {
      positions[3 * i + 2]
    }

    /** The plane is laid out row by row: vertex iz * (S+1) + ix sits at
        (ColumnX(ix), ColumnX(iz)). */
    ghost predicate LaidOut()
      reads positions
    {
      && positions.Length == 3 * VERTEX_COUNT
      && forall i :: 0 <= i < VERTEX_COUNT ==>
           X(i) == ColumnX(i % GRID_SIZE) && Z(i) == ColumnX(i / GRID_SIZE)
    }

    /** Every vertex carries `_computeHeight` of its own x and z. */
    ghost predicate Displaced()
      reads positions
      requires positions.Length == 3 * VERTEX_COUNT
    {
      forall i :: 0 <= i < VERTEX_COUNT ==> Y(i) == HeightSpec(m, natural, pads, X(i), Z(i))
    }

    ghost predicate Valid()
      reads positions
    {
      && Sound(m)
      && pads == PadsOf(natural, PENSIONS)
      && LaidOut()
      && Displaced()
    }

    constructor (natural: (real, real) -> real, m: Prims)
      requires Sound(m)
      ensures Valid()
      ensures this.natural == natural && this.m == m
      ensures fresh(positions)
    {
      var data: seq<PensionPad> := [];
      for k := 0 to |PENSIONS|
        invariant data == PadsOf(natural, PENSIONS[..k])
      {
        var p := PENSIONS[k];
        assert PENSIONS[..k + 1] == PENSIONS[..k] + [p];
        PadsOfAppend(natural, PENSIONS[..k], p);
        data := data + [PensionPad(p.x, p.z, natural(p.x, p.z))];
      }
      assert PENSIONS[..|PENSIONS|] == PENSIONS;
      this.natural := natural;
      this.m := m;
      this.pads := data;
      this.positions := new real[3 * VERTEX_COUNT];
      new;
      LayOutPlane();
      Displace();
    }

    /** PlaneGeometry(W, W, S, S) rotated to lie in the x-z plane, with every
        height 0. */
    method LayOutPlane()
      requires positions.Length == 3 * VERTEX_COUNT
      modifies positions
      ensures LaidOut()
    {
      for i := 0 to VERTEX_COUNT
        invariant forall j :: 0 <= j < i ==>
          X(j) == ColumnX(j % GRID_SIZE) && Z(j) == ColumnX(j / GRID_SIZE)
      {
        positions[3 * i] := ColumnX(i % GRID_SIZE);
        positions[3 * i + 1] := 0.0;
        positions[3 * i + 2] := ColumnX(i / GRID_SIZE);
      }
    }

    /** `_computeHeight`: the natural height, the spawn fade, then the
        pension blends in registry order. */
    method ComputeHeight(x: real, z: real) returns (y: real)
      ensures y == HeightSpec(m, natural, pads, x, z)
    {
      y := FadeNearSpawn(natural(x, z), x, z);
      ghost var y0 := y;
      for k := 0 to |pads|
        invariant BlendAll(m, y, pads[k..], x, z) == BlendAll(m, y0, pads, x, z)
      {
        var p := pads[k];
        var dx := x - p.x;
        var dz := z - p.z;
        var dist := Dist2D(m, dx, dz);
        BlendAllUnroll(m, y, pads, k, x, z);
        y := BlendPad(y, p, dist);
      }
      assert pads[|pads|..] == [];
    }

    /** The spawn fade of `_computeHeight`, statement by statement as the
        source writes it; `SpawnFade` specifies it. */
    method FadeNearSpawn(natural: real, x: real, z: real) returns (y: real)
      ensures y == SpawnFade(natural, Dist2D(m, x, z))
    {
      y := natural;
      var distFromCenter := Dist2D(m, x, z);
      if distFromCenter < SPAWN_RADIUS {
        var t := Max(0.0, 1.0 - distFromCenter / SPAWN_RADIUS);
        y := y * (1.0 - t);
      }
    }

    /** One pass of the pension loop of `_computeHeight`, statement by
        statement as the source writes it; `BlendStep` specifies it. */
    method BlendPad(y: real, p: PensionPad, dist: real) returns (r: real)
      ensures r == BlendStep(y, p, dist)
    {
      r := y;
      if dist < TRANSITION_RADIUS {
        var t := if dist < FLAT_RADIUS then 1.0 else 1.0 - (dist - FLAT_RADIUS) / (TRANSITION_RADIUS - FLAT_RADIUS);
        var smooth := t * t * (3.0 - 2.0 * t);
        r := y * (1.0 - smooth) + p.centerY * smooth;
        BlendStepInside(y, p, dist, smooth);
      }
    }

    /** `_displace`: every vertex's y becomes `_computeHeight` of its x and z;
        x and z are untouched. */
    method Displace()
      requires positions.Length == 3 * VERTEX_COUNT
      modifies positions
      ensures forall i :: 0 <= i < VERTEX_COUNT ==> X(i) == old(X(i)) && Z(i) == old(Z(i))
      ensures Displaced()
    {
      for i := 0 to VERTEX_COUNT
        invariant forall j :: 0 <= j < VERTEX_COUNT ==> X(j) == old(X(j)) && Z(j) == old(Z(j))
        invariant forall j :: 0 <= j < i ==> Y(j) == HeightSpec(m, natural, pads, X(j), Z(j))
      {
        var x := positions[3 * i];
        var z := positions[3 * i + 2];
        var y := ComputeHeight(x, z);
        positions[3 * i + 1] := y;
      }
    }

    /** The four corner heights of the cell that (x, z) falls in. */
    function Corners(x: real, z: real): (c: (real, real, real, real))
      reads positions
      requires positions.Length == 3 * VERTEX_COUNT
    {
      var ix := Cell(GridCoord(x));
      var iz := Cell(GridCoord(z));
      (Y(iz * GRID_SIZE + ix), Y(iz * GRID_SIZE + (ix + 1)),
       Y((iz + 1) * GRID_SIZE + ix), Y((iz + 1) * GRID_SIZE + (ix + 1)))
    }

    /** `getHeightAt`: bilinear interpolation in the clamped cell; defined
        for every (x, z), with no error path. */
    function HeightAt(x: real, z: real): real
      reads positions
      requires positions.Length == 3 * VERTEX_COUNT
    {
      var gx := GridCoord(x);
      var gz := GridCoord(z);
      var ix := Cell(gx);
      var iz := Cell(gz);
      var fx := gx - ix as real;
      var fz := gz - iz as real;
      var c := Corners(x, z);
      Bilinear(c.0, c.1, c.2, c.3, fx, fz)
    }

    /** Inside the world the query lies between the lowest and the highest
        corner of its cell. */
    lemma HeightAtBetweenCorners(x: real, z: real)
      requires positions.Length == 3 * VERTEX_COUNT
      requires -HALF_SIZE <= x <= HALF_SIZE && -HALF_SIZE <= z <= HALF_SIZE
      ensures var c := Corners(x, z);
        Min(Min(c.0, c.1), Min(c.2, c.3)) <= HeightAt(x, z) <= Max(Max(c.0, c.1), Max(c.2, c.3))
    {
      FracInUnit(x);
      FracInUnit(z);
      var c := Corners(x, z);
      BilinearBetween(c.0, c.1, c.2, c.3, GridCoord(x) - Cell(GridCoord(x)) as real, GridCoord(z) - Cell(GridCoord(z)) as real);
    }

    /** At a grid vertex the query returns that vertex's stored height, also
        on the last row and column, where the clamped cell is reached with
        an offset of 1. */
    lemma VertexExact(ix: nat, iz: nat)
      requires positions.Length == 3 * VERTEX_COUNT
      requires ix <= TERRAIN_SEGMENTS && iz <= TERRAIN_SEGMENTS
      ensures HeightAt(ColumnX(ix), ColumnX(iz)) == Y(iz * GRID_SIZE + ix)
    {
      GridCoordAtLine(ix);
      GridCoordAtLine(iz);
      assert (ix as real).Floor == ix;
      assert (iz as real).Floor == iz;
    }

    /** Querying the terrain at a vertex's own coordinates gives
        `_computeHeight` there. */
    lemma QueryAtVertex(ix: nat, iz: nat)
      requires Valid()
      requires ix <= TERRAIN_SEGMENTS && iz <= TERRAIN_SEGMENTS
      ensures HeightAt(ColumnX(ix), ColumnX(iz)) == HeightSpec(m, natural, pads, ColumnX(ix), ColumnX(iz))
    {
      VertexExact(ix, iz);
      StoredAtVertex(ix, iz);
    }

    /** The vertex in row iz, column ix stores `_computeHeight` of that
        grid point. */
    lemma StoredAtVertex(ix: nat, iz: nat)
      requires LaidOut() && Displaced()
      requires ix <= TERRAIN_SEGMENTS && iz <= TERRAIN_SEGMENTS
      ensures iz * GRID_SIZE + ix < VERTEX_COUNT
      ensures Y(iz * GRID_SIZE + ix) == HeightSpec(m, natural, pads, ColumnX(ix), ColumnX(iz))
    {
      var i := iz * GRID_SIZE + ix;
      IndexSplit(ix, iz);
      assert X(i) == ColumnX(ix) && Z(i) == ColumnX(iz);
    }
  }

  /** Vertex iz * (S+1) + ix is in row iz, column ix. */
  lemma IndexSplit(ix: nat, iz: nat)
    requires ix < GRID_SIZE && iz < GRID_SIZE
    ensures iz * GRID_SIZE + ix < VERTEX_COUNT
    ensures (iz * GRID_SIZE + ix) % GRID_SIZE == ix && (iz * GRID_SIZE + ix) / GRID_SIZE == iz
  {
    assert iz * GRID_SIZE <= TERRAIN_SEGMENTS * GRID_SIZE;
  }

  lemma PadsOfAppend(natural: (real, real) -> real, ps: seq<Pension>, p: Pension)
    ensures PadsOf(natural, ps + [p]) == PadsOf(natural, ps) + [PensionPad(p.x, p.z, natural(p.x, p.z))]
  {
  }
}
