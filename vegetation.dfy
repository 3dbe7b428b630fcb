/** Scattering vegetation over the terrain (src/world/Vegetation.js). Trees
    are placed by bounded attempt loops that write one transform per placed
    instance into every mesh of an instanced asset, skipping spots near the
    spawn point or a pension and spots where the noise density is low; when
    a tree asset is missing, procedural trunks and crowns are placed
    instead. What one attempt draws from `Math.random`, the 2-D noise and
    the asset registry are parameters. */
module Vegetation {
  import opened Common
  import opened Constants
  import Terrain

  /** The default exclusion radii of `_isExcluded`. */
  const SPAWN_RADIUS: real := 15.0
  const PENSION_RADIUS: real := 18.0
  /** `_createTrees`: three tree assets, 45 instances each. */
  const TREE_TYPES: seq<string> := ["tree_pine", "tree_oak", "tree_birch"]
  const TREES_PER_TYPE: nat := 45
  /** The procedural trees placed when a tree asset is missing: 45 · 3. */
  const FALLBACK_TREES: nat := 135

  /** The distance from (x, z) to pension `p`, as `Math.sqrt` computes it. */
  function PensionDist(m: Prims, x: real, z: real, p: Pension): real
  {
    Dist2D(m, x - p.x, z - p.z)
  }

  /** (x, z) lies strictly inside the circle of radius `r` around `p`. */
  predicate Within(x: real, z: real, p: Pension, r: real)
  {
    (x - p.x) * (x - p.x) + (z - p.z) * (z - p.z) < r * r
  }

  /** The computed distance is below `r` exactly when the point is within
      `r`. */
  lemma PensionDistBelow(m: Prims, x: real, z: real, p: Pension, r: real)
    requires Sound(m) && 0.0 <= r
    ensures PensionDist(m, x, z, p) < r <==> Within(x, z, p, r)
  {
    DistBelow(m, x - p.x, z - p.z, r);
  }

  /** Whether (x, z) lies within `r` of one of the pensions of `ps` from
      index `i` on. */
  function NearPension(m: Prims, x: real, z: real, r: real, ps: seq<Pension>, i: nat): bool
    decreases |ps| - i
  {
    if i >= |ps| then false
    else PensionDist(m, x, z, ps[i]) < r || NearPension(m, x, z, r, ps, i + 1)
  }

  /** `_isExcluded(x, z, spawnRadius, pensionRadius)`: too close to the
      spawn point or to a pension, checked in registry order. */
  function IsExcluded(m: Prims, x: real, z: real, spawnRadius: real, pensionRadius: real): bool
  {
    Dist2D(m, x, z) < spawnRadius || NearPension(m, x, z, pensionRadius, PENSIONS, 0)
  }

  /** The pension scan finds a pension exactly when one lies within `r`. */
  lemma {:induction false} NearPensionIff(m: Prims, x: real, z: real, r: real, ps: seq<Pension>, i: nat)
    requires Sound(m) && 0.0 <= r
    ensures NearPension(m, x, z, r, ps, i) <==> exists k :: i <= k < |ps| && Within(x, z, ps[k], r)
    decreases |ps| - i
  {
    if i < |ps| {
      NearPensionIff(m, x, z, r, ps, i + 1);
      PensionDistBelow(m, x, z, ps[i], r);
      if !Within(x, z, ps[i], r) {
        assert (exists k :: i <= k < |ps| && Within(x, z, ps[k], r)) ==> exists k :: i + 1 <= k < |ps| && Within(x, z, ps[k], r);
      }
    }
  }

  /** A spot is excluded exactly when it lies strictly inside the spawn
      circle or strictly inside the circle around some pension. */
  lemma IsExcludedIff(m: Prims, x: real, z: real, spawnRadius: real, pensionRadius: real)
    requires Sound(m) && 0.0 <= spawnRadius && 0.0 <= pensionRadius
    ensures IsExcluded(m, x, z, spawnRadius, pensionRadius) <==>
      || x * x + z * z < spawnRadius * spawnRadius
      || exists k :: 0 <= k < |PENSIONS| && Within(x, z, PENSIONS[k], pensionRadius)
  {
    DistBelow(m, x, z, spawnRadius);
    NearPensionIff(m, x, z, pensionRadius, PENSIONS, 0);
  }

  /** What a placement callback returns for a successful attempt. */
  datatype Spot = Spot(x: real, z: real, scale: real, rotation: real)

  /** The matrix `makeRotationY(rotation)`, then a uniform `scale`, then
      `setPosition(x, y, z)`. */
  datatype Transform = Transform(x: real, y: real, z: real, scale: real, rotation: real)

  /** The transform a spot gets, on the terrain. */
  function PoseOf(terrain: Terrain.Terrain, s: Spot): Transform
    reads terrain.positions
    requires terrain.positions.Length == 3 * Terrain.VERTEX_COUNT
  {
    Transform(s.x, terrain.HeightAt(s.x, s.z), s.z, s.scale, s.rotation)
  }

  /** The spots of the successful attempts among the first `n`, in order:
      an attempt that returns null takes no slot. */
  function Successes(place: nat -> Option<Spot>, n: nat): (s: seq<Spot>)
    ensures |s| <= n
  {
    if n == 0 then []
    else Successes(place, n - 1) + (if place(n - 1).Some? then [place(n - 1).value] else [])
  }

  /** Later attempts only add to the successes. */
  lemma {:induction false} SuccessesGrow(place: nat -> Option<Spot>, a: nat, b: nat)
    requires a <= b
    ensures Successes(place, a) <= Successes(place, b)
  {
    if a < b {
      SuccessesGrow(place, a, b - 1);
    }
  }

  /** An asset part: one geometry-material pair. */
  datatype Part = Part(geometry: string, material: string)

  /** A `THREE.InstancedMesh`: a fixed buffer of instance transforms and
      the number of instances drawn. */
  class InstancedMesh {
    const part: Part
    const matrices: array<Transform>
    var count: nat

    /** A mesh for `capacity` instances, all drawn. */
    constructor (part: Part, capacity: nat)
      ensures this.part == part && matrices.Length == capacity && count == capacity
      ensures fresh(matrices)
    {
      this.part := part;
      matrices := new Transform[capacity](_ => Transform(0.0, 0.0, 0.0, 1.0, 0.0));
      count := capacity;
    }
  }

  /** Every mesh in `meshes` has room for `n` instances. */
  ghost predicate Capacity(meshes: seq<InstancedMesh>, n: nat)
  {
    forall k :: 0 <= k < |meshes| ==> meshes[k].matrices.Length == n
  }

  /** `for (const mesh of meshes) mesh.setMatrixAt(i, t)`: slot `i` of
      every mesh holds `t`, and no other slot changes. */
  method SetMatrixAll(meshes: seq<InstancedMesh>, i: nat, t: Transform, ghost n: nat)
    requires Capacity(meshes, n) && i < n
    modifies set k | 0 <= k < |meshes| :: meshes[k].matrices
    ensures forall k :: 0 <= k < |meshes| ==> meshes[k].matrices[i] == t
    ensures forall k, j :: 0 <= k < |meshes| && 0 <= j < n && j != i ==>
      meshes[k].matrices[j] == old(meshes[k].matrices[j])
  {
    for k := 0 to |meshes|
      invariant forall k' :: 0 <= k' < k ==> meshes[k'].matrices[i] == t
      invariant forall k', j :: 0 <= k' < |meshes| && 0 <= j < n && j != i ==>
        meshes[k'].matrices[j] == old(meshes[k'].matrices[j])
    {
      meshes[k].matrices[i] := t;
    }
  }

  /** `parts.map(part => new THREE.InstancedMesh(..., count))`. */
  method NewMeshes(parts: seq<Part>, count: nat) returns (meshes: seq<InstancedMesh>)
    ensures |meshes| == |parts| && Capacity(meshes, count)
    ensures forall k :: 0 <= k < |meshes| ==> meshes[k].part == parts[k] && meshes[k].count == count
    ensures forall k :: 0 <= k < |meshes| ==> fresh(meshes[k].matrices)
  {
    meshes := [];
    for k := 0 to |parts|
      invariant |meshes| == k && Capacity(meshes, count)
      invariant forall j :: 0 <= j < k ==> meshes[j].part == parts[j] && meshes[j].count == count
      invariant forall j :: 0 <= j < k ==> fresh(meshes[j].matrices)
    {
      var mesh := new InstancedMesh(parts[k], count);
      meshes := meshes + [mesh];
    }
  }

  /** The attempt loop of `_placeInstanced`: attempts run while fewer than
      `4 · count` were made and fewer than `count` were placed; a null
      result takes an attempt but no slot, and each success's transform
      goes to the next slot of every mesh. */
  method Scatter(meshes: seq<InstancedMesh>, count: nat, place: nat -> Option<Spot>, terrain: Terrain.Terrain)
    returns (attempts: nat, placed: nat)
    requires terrain.positions.Length == 3 * Terrain.VERTEX_COUNT
    requires Capacity(meshes, count)
    modifies set k | 0 <= k < |meshes| :: meshes[k].matrices
    ensures attempts <= 4 * count && placed <= count
    ensures attempts == 4 * count || placed == count
    ensures placed == |Successes(place, attempts)|
    ensures forall k, i :: 0 <= k < |meshes| && 0 <= i < placed ==>
      meshes[k].matrices[i] == PoseOf(terrain, Successes(place, attempts)[i])
  {
    attempts, placed := 0, 0;
    while attempts < count * 4 && placed < count
      invariant attempts <= 4 * count && placed <= count
      invariant placed == |Successes(place, attempts)|
      invariant forall k, i :: 0 <= k < |meshes| && 0 <= i < placed ==>
        meshes[k].matrices[i] == PoseOf(terrain, Successes(place, attempts)[i])
      decreases 4 * count - attempts
    {
      var result := place(attempts);
      if result.Some? {
        var t := PoseOf(terrain, result.value);
        SetMatrixAll(meshes, placed, t, count);
        placed := placed + 1;
      }
      attempts := attempts + 1;
    }
  }

  /** `for (const mesh of meshes) mesh.count = placed`. */
  method SetCounts(meshes: seq<InstancedMesh>, placed: nat)
    modifies set k | 0 <= k < |meshes| :: meshes[k]
    ensures forall k :: 0 <= k < |meshes| ==> meshes[k].count == placed
  {
    for k := 0 to |meshes|
      invariant forall j :: 0 <= j < k ==> meshes[j].count == placed
    {
      meshes[k].count := placed;
    }
  }

  /** `_placeInstanced(assetName, count, placeFn)` for an asset whose parts
      are `parts` (null when the asset has none): one mesh per part with
      room for `count`, filled by the attempt loop, and every mesh draws
      exactly the placed instances. So the meshes hold the first `count`
      successes of `4 · count` attempts, or all of them if fewer. */
  method PlaceInstanced(parts: Option<seq<Part>>, count: nat, place: nat -> Option<Spot>, terrain: Terrain.Terrain)
    returns (meshes: Option<seq<InstancedMesh>>, attempts: nat, placed: nat)
    requires terrain.positions.Length == 3 * Terrain.VERTEX_COUNT
    ensures parts.None? <==> meshes.None?
    ensures parts.None? ==> attempts == 0 && placed == 0
    ensures parts.Some? ==>
      && |meshes.value| == |parts.value|
      && attempts <= 4 * count && placed <= count
      && placed == |Successes(place, attempts)|
      && placed == (if |Successes(place, 4 * count)| < count then |Successes(place, 4 * count)| else count)
      && forall k :: 0 <= k < |meshes.value| ==>
           && meshes.value[k].part == parts.value[k]
           && meshes.value[k].matrices.Length == count && meshes.value[k].count == placed
           && forall i :: 0 <= i < placed ==>
                meshes.value[k].matrices[i] == PoseOf(terrain, Successes(place, 4 * count)[i])
  {
    attempts, placed := 0, 0;
    if parts.None? {
      return None, attempts, placed;
    }
    var ms := NewMeshes(parts.value, count);
    attempts, placed := Scatter(ms, count, place, terrain);
    SuccessesGrow(place, attempts, 4 * count);
    SetCounts(ms, placed);
    meshes := Some(ms);
  }

  /** The random numbers one placement attempt draws, each in [0, 1): the
      two coordinates, then the scale and the rotation. */
  datatype Draw = Draw(x: real, z: real, scale: real, rotation: real)

  predicate DrawValid(d: Draw)
  {
    && 0.0 <= d.x < 1.0 && 0.0 <= d.z < 1.0
    && 0.0 <= d.scale < 1.0 && 0.0 <= d.rotation < 1.0
  }

  /** `(Math.random() - 0.5) * WORLD_SIZE * 0.9`. */
  function WorldCoord(u: real): real
  {
    (u - 0.5) * WORLD_SIZE * 0.9
  }

  /** Below this noise density no tree grows. */
  const DENSITY_CUTOFF: real := -0.2

  /** One tree placement attempt: a spot over 90% of the world, rejected
      when excluded or where the noise density is below the cutoff,
      otherwise scaled by `0.7 + r · scaleSpan` and turned by `r · 2π`. */
  function Candidate(m: Prims, noise: (real, real) -> real, d: Draw, scaleSpan: real): Option<Spot>
  {
    var x := WorldCoord(d.x);
    var z := WorldCoord(d.z);
    if !Grows(m, noise, x, z) then None
    else Some(Spot(x, z, 0.7 + d.scale * scaleSpan, d.rotation * PI * 2.0))
  }

  /** A tree may grow at (x, z): the spot is not excluded and the noise
      density there is not below the cutoff. */
  predicate Grows(m: Prims, noise: (real, real) -> real, x: real, z: real)
  {
    !IsExcluded(m, x, z, SPAWN_RADIUS, PENSION_RADIUS) && noise(x * 0.01, z * 0.01) >= DENSITY_CUTOFF
  }

  /** The placement callback of `_createTrees`: scale span 0.7. */
  function TreePlace(m: Prims, noise: (real, real) -> real, draws: nat -> Draw): nat -> Option<Spot>
  {
    (a: nat) => Candidate(m, noise, draws(a), 0.7)
  }

  /** An attempt of `_createFallbackTrees`: scale span 0.8. */
  function FallbackPlace(m: Prims, noise: (real, real) -> real, draws: nat -> Draw): nat -> Option<Spot>
  {
    (a: nat) => Candidate(m, noise, draws(a), 0.8)
  }

  /** A drawn coordinate lies in the middle 90% of the world. */
  lemma WorldCoordRange(u: real)
    requires 0.0 <= u < 1.0
    ensures -225.0 <= WorldCoord(u) < 225.0
  {
  }

  /** A tree grows at a spot exactly when it is at least 15 from the spawn
      point, at least 18 from every pension and of density at least -0.2. */
  lemma GrowsIff(m: Prims, noise: (real, real) -> real, x: real, z: real)
    requires Sound(m)
    ensures Grows(m, noise, x, z) <==>
      && x * x + z * z >= SPAWN_RADIUS * SPAWN_RADIUS
      && (forall k :: 0 <= k < |PENSIONS| ==> !Within(x, z, PENSIONS[k], PENSION_RADIUS))
      && noise(x * 0.01, z * 0.01) >= DENSITY_CUTOFF
  {
    IsExcludedIff(m, x, z, SPAWN_RADIUS, PENSION_RADIUS);
  }

  /** An attempt succeeds exactly when a tree grows at its drawn spot; a
      placed spot is that spot, in the middle 90% of the world, with scale
      in [0.7, 0.7 + scaleSpan) and rotation in [0, 2π). */
  lemma CandidateSpot(m: Prims, noise: (real, real) -> real, d: Draw, scaleSpan: real)
    requires DrawValid(d) && 0.0 < scaleSpan
    ensures Candidate(m, noise, d, scaleSpan).Some? <==> Grows(m, noise, WorldCoord(d.x), WorldCoord(d.z))
    ensures var r := Candidate(m, noise, d, scaleSpan);
      r.Some? ==>
        && r.value.x == WorldCoord(d.x) && r.value.z == WorldCoord(d.z)
        && -225.0 <= r.value.x < 225.0 && -225.0 <= r.value.z < 225.0
        && 0.7 <= r.value.scale < 0.7 + scaleSpan
        && 0.0 <= r.value.rotation < 2.0 * PI
  {
    WorldCoordRange(d.x);
    WorldCoordRange(d.z);
    MulNonneg(d.scale, scaleSpan);
    MulMono(scaleSpan, d.scale, 1.0);
    assert d.scale * scaleSpan == scaleSpan * d.scale;
  }

  /** Raises a transform by `h` times its scale (`setPosition(x, y + h *
      scale, z)`). */
  function Lift(t: Transform, h: real): (r: Transform)
    ensures r.x == t.x && r.z == t.z && r.scale == t.scale && r.rotation == t.rotation
    ensures r.y - t.y == h * t.scale
  {
    t.(y := t.y + h * t.scale)
  }

  /** The procedural trunk and crown of a fallback tree. */
  const TRUNK: Part := Part("CylinderGeometry(0.15, 0.25, 2.0, 5)", "MeshStandardMaterial(0x6b4226)")
  const CROWN: Part := Part("ConeGeometry(1.5, 3.5, 6)", "MeshStandardMaterial(0x3a6b2a)")

  /** The attempt loop of `_createFallbackTrees`: attempts run while fewer
      than `3 · count` were made and fewer than `count` trees were placed;
      each success puts a trunk and a crown at the next slot. */
  method Plant(trunks: InstancedMesh, crowns: InstancedMesh, count: nat, place: nat -> Option<Spot>, terrain: Terrain.Terrain)
    returns (attempts: nat, placed: nat)
    requires terrain.positions.Length == 3 * Terrain.VERTEX_COUNT
    requires trunks.matrices.Length == count && crowns.matrices.Length == count
    requires trunks.matrices != crowns.matrices
    modifies trunks.matrices, crowns.matrices
    ensures attempts <= 3 * count && placed <= count
    ensures attempts == 3 * count || placed == count
    ensures placed == |Successes(place, attempts)|
    ensures forall i :: 0 <= i < placed ==>
      && trunks.matrices[i] == Lift(PoseOf(terrain, Successes(place, attempts)[i]), 1.0)
      && crowns.matrices[i] == Lift(PoseOf(terrain, Successes(place, attempts)[i]), 2.8)
  {
    attempts, placed := 0, 0;
    ghost var done: seq<Spot> := [];
    while attempts < count * 3 && placed < count
      invariant attempts <= 3 * count && placed <= count
      invariant done == Successes(place, attempts) && placed == |done|
      invariant forall i :: 0 <= i < placed ==>
        && trunks.matrices[i] == Lift(PoseOf(terrain, done[i]), 1.0)
        && crowns.matrices[i] == Lift(PoseOf(terrain, done[i]), 2.8)
      decreases 3 * count - attempts
    {
      var result := place(attempts);
      if result.Some? {
        var t := PoseOf(terrain, result.value);
        trunks.matrices[placed] := Lift(t, 1.0);
        crowns.matrices[placed] := Lift(t, 2.8);
        placed := placed + 1;
        done := done + [result.value];
      }
      attempts := attempts + 1;
    }
  }

  /** `_createFallbackTrees(count)`: up to `3 · count` attempts place up to
      `count` trees; the i-th success puts a trunk 1.0 scale and a crown
      2.8 scale above the ground at its spot, and both meshes draw exactly
      the placed trees. */
  method CreateFallbackTrees(m: Prims, noise: (real, real) -> real, draws: nat -> Draw, count: nat, terrain: Terrain.Terrain)
    returns (trunks: InstancedMesh, crowns: InstancedMesh, placed: nat)
    requires terrain.positions.Length == 3 * Terrain.VERTEX_COUNT
    ensures fresh(trunks) && fresh(crowns) && fresh(trunks.matrices) && fresh(crowns.matrices)
    ensures trunks.part == TRUNK && crowns.part == CROWN
    ensures trunks.matrices.Length == count && crowns.matrices.Length == count
    ensures var s := Successes(FallbackPlace(m, noise, draws), 3 * count);
      && placed == (if |s| < count then |s| else count)
      && trunks.count == placed && crowns.count == placed
      && forall i :: 0 <= i < placed ==>
           && trunks.matrices[i] == Lift(PoseOf(terrain, s[i]), 1.0)
           && crowns.matrices[i] == Lift(PoseOf(terrain, s[i]), 2.8)
  {
    var place := FallbackPlace(m, noise, draws);
    trunks := new InstancedMesh(TRUNK, count);
    crowns := new InstancedMesh(CROWN, count);
    var attempts;
    attempts, placed := Plant(trunks, crowns, count, place, terrain);
    SuccessesGrow(place, attempts, 3 * count);
    trunks.count := placed;
    crowns.count := placed;
  }

  /** `_createTrees`: if any of the three tree assets is missing, 135
      fallback trees; otherwise 45 instances of each tree asset, each type
      with its own attempt draws. The result is how many trees of each kind
      were placed (one entry for the fallback). */
  method CreateTrees(m: Prims, noise: (real, real) -> real, has: string -> bool,
                     parts: string -> Option<seq<Part>>, draws: nat -> nat -> Draw, terrain: Terrain.Terrain)
    returns (fallback: bool, placed: seq<nat>)
    requires terrain.positions.Length == 3 * Terrain.VERTEX_COUNT
    ensures fallback <==> exists t :: 0 <= t < |TREE_TYPES| && !has(TREE_TYPES[t])
    ensures fallback ==>
      var s := Successes(FallbackPlace(m, noise, draws(0)), 3 * FALLBACK_TREES);
      placed == [if |s| < FALLBACK_TREES then |s| else FALLBACK_TREES]
    ensures !fallback ==>
      && |placed| == |TREE_TYPES|
      && forall t :: 0 <= t < |TREE_TYPES| ==>
           var s := Successes(TreePlace(m, noise, draws(t)), 4 * TREES_PER_TYPE);
           placed[t] == if parts(TREE_TYPES[t]).None? then 0
                        else if |s| < TREES_PER_TYPE then |s| else TREES_PER_TYPE
  {
    for t := 0 to |TREE_TYPES|
      invariant forall j :: 0 <= j < t ==> has(TREE_TYPES[j])
    {
      if !has(TREE_TYPES[t]) {
        var trunks, crowns, n := CreateFallbackTrees(m, noise, draws(0), FALLBACK_TREES, terrain);
        return true, [n];
      }
    }
    placed := [];
    for t := 0 to |TREE_TYPES|
      invariant |placed| == t
      invariant forall j :: 0 <= j < t ==>
        var s := Successes(TreePlace(m, noise, draws(j)), 4 * TREES_PER_TYPE);
        placed[j] == if parts(TREE_TYPES[j]).None? then 0
                     else if |s| < TREES_PER_TYPE then |s| else TREES_PER_TYPE
    {
      var meshes, attempts, n := PlaceInstanced(parts(TREE_TYPES[t]), TREES_PER_TYPE, TreePlace(m, noise, draws(t)), terrain);
      placed := placed + [n];
    }
    fallback := false;
  }
}
