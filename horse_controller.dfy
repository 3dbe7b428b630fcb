/** The horse's locomotion (src/entities/HorseController.js): target speed
    from the held keys, an asymmetric approach to it, the snaps to a
    standstill, turning by keys or by the analog stick, the square fence,
    and the ground probe that places the horse on the terrain. */
module HorseControl {
  import opened Common
  import opened Constants
  import Input
  import Terrain

  /** The fence: half the side of the square the horse may roam. */
  const FENCE: real := WORLD_SIZE * 0.45
  /** The speed the backward key asks for. */
  const BACKWARD_SPEED: real := -WALK_SPEED * BACKWARD_FACTOR
  /** Distance of the front and back ground probes from the centre. */
  const PROBE_DISTANCE: real := 1.2

  /** The `movementState` getter's classes. */
  datatype MovementState = Idle | Walk | Trot | Gallop

  /** `movementState`: bands of |speed| with bounds 0.5, walk + 1 and
      trot + 1. */
  function StateOf(speed: real): (s: MovementState)
    ensures s == Idle <==> Abs(speed) < 0.5
    ensures s == Walk <==> 0.5 <= Abs(speed) < WALK_SPEED + 1.0
    ensures s == Trot <==> WALK_SPEED + 1.0 <= Abs(speed) < TROT_SPEED + 1.0
    ensures s == Gallop <==> TROT_SPEED + 1.0 <= Abs(speed)
  {
    var absSpeed := Abs(speed);
    if absSpeed < 0.5 then Idle
    else if absSpeed < WALK_SPEED + 1.0 then Walk
    else if absSpeed < TROT_SPEED + 1.0 then Trot
    else Gallop
  }

  function Rank(s: MovementState): nat
  {
    match s
    case Idle => 0
    case Walk => 1
    case Trot => 2
    case Gallop => 3
  }

  /** The bands are ordered: a faster horse is never in a slower class. */
  lemma StateMonotone(a: real, b: real)
    requires Abs(a) <= Abs(b)
    ensures Rank(StateOf(a)) <= Rank(StateOf(b))
  {
  }

  /** The speed the held keys ask for: backward wins over forward; forward
      is a trot, or a gallop with the gallop key; nothing held is a halt. */
  function TargetSpeed(forward: bool, backward: bool, gallop: bool): (t: real)
    ensures backward ==> t == BACKWARD_SPEED
    ensures !backward && forward ==> t == (if gallop then GALLOP_SPEED else TROT_SPEED)
    ensures !backward && !forward ==> t == 0.0
    ensures BACKWARD_SPEED <= t <= GALLOP_SPEED
  {
    var target := if forward then (if gallop then GALLOP_SPEED else TROT_SPEED) else 0.0;
    if backward then -WALK_SPEED * BACKWARD_FACTOR else target
  }

  /** One step of the speed: lerp towards the target at rate 12 when
      speeding up and 14 otherwise (factor capped at 1), then the two
      snaps to a standstill. */
  function NextSpeed(speed: real, target: real, dt: real): real
  {
    var rate := (if target > speed then ACCELERATION else DECELERATION) * dt;
    var lerped := Lerp(speed, target, Min(rate, 1.0));
    var snapped := if Abs(lerped) < 0.5 && target == 0.0 then 0.0 else lerped;
    if snapped < 0.0 && target >= 0.0 then 0.0 else snapped
  }

  /** For dt >= 0 the new speed lies between the old speed and the target;
      a halt never leaves a crawl below 0.5; a non-negative target never
      leaves the horse backing up. */
  lemma NextSpeedProps(speed: real, target: real, dt: real)
    requires 0.0 <= dt
    ensures var r := NextSpeed(speed, target, dt);
      && Min(speed, target) <= r <= Max(speed, target)
      && (target == 0.0 ==> r == 0.0 || Abs(r) >= 0.5)
      && (target >= 0.0 ==> r >= 0.0)
  {
    var rate := (if target > speed then ACCELERATION else DECELERATION) * dt;
    assert 0.0 <= rate;
    LerpBetween(speed, target, Min(rate, 1.0));
  }

  /** At a halt the controller reports `idle` exactly when it stands still. */
  lemma HaltIdleIsStill(speed: real, dt: real)
    requires 0.0 <= dt
    ensures StateOf(NextSpeed(speed, 0.0, dt)) == Idle <==> NextSpeed(speed, 0.0, dt) == 0.0
  {
    NextSpeedProps(speed, 0.0, dt);
  }

  /** Turning is sharper when slow: 1.5 at rest down to 1 at full gallop. */
  function TurnMultiplier(speed: real): real
  {
    1.0 + (1.0 - Abs(speed) / GALLOP_SPEED) * 0.5
  }

  lemma TurnMultiplierRange(speed: real)
    requires Abs(speed) <= GALLOP_SPEED
    ensures 1.0 <= TurnMultiplier(speed) <= 1.5
    ensures speed == 0.0 ==> TurnMultiplier(speed) == 1.5
  {
    assert 0.0 <= Abs(speed) / GALLOP_SPEED <= 1.0;
  }

  /** The analog stick's response curve: signed square. */
  function AnalogCurve(raw: real): real
  {
    Sign(raw) * raw * raw
  }

  /** The curve keeps the stick's sign and its centre: the stick steers
      exactly when it is off-centre, and in the direction it is pushed. */
  lemma AnalogCurveSign(raw: real)
    ensures AnalogCurve(raw) == 0.0 <==> raw == 0.0
    ensures raw > 0.0 ==> AnalogCurve(raw) > 0.0
    ensures raw < 0.0 ==> AnalogCurve(raw) < 0.0
  {
    if raw > 0.0 {
      MulPos(raw, raw);
      calc {
        AnalogCurve(raw);
        == raw * raw;
        > 0.0;
      }
    } else if raw < 0.0 {
      var n := -raw;
      MulPos(n, n);
      assert AnalogCurve(raw) == -(n * n);
      calc {
        AnalogCurve(raw);
        == -(n * n);
        < 0.0;
      }
    }
  }

  /** The new heading: a non-zero stick steers (0.7 of the key rate);
      otherwise left adds and right subtracts the key rate. */
  function NextRotation(rotation: real, speed: real, rawAnalog: real, left: bool, right: bool, dt: real): real
  {
    var mult := TurnMultiplier(speed);
    var analog := AnalogCurve(rawAnalog);
    if analog != 0.0 then rotation - TURN_SPEED * mult * analog * 0.7 * dt
    else
      var afterLeft := if left then rotation + TURN_SPEED * mult * dt else rotation;
      if right then afterLeft - TURN_SPEED * mult * dt else afterLeft
  }

  /** The stick takes precedence: while it is off-centre the keys do not
      matter; with it centred, holding both keys cancels out. */
  lemma AnalogPrecedence(rotation: real, speed: real, rawAnalog: real, dt: real,
                         l1: bool, r1: bool, l2: bool, r2: bool)
    ensures rawAnalog != 0.0 ==>
      NextRotation(rotation, speed, rawAnalog, l1, r1, dt) == NextRotation(rotation, speed, rawAnalog, l2, r2, dt)
    ensures rawAnalog == 0.0 ==>
      NextRotation(rotation, speed, rawAnalog, true, true, dt) == rotation
      && NextRotation(rotation, speed, rawAnalog, false, false, dt) == rotation
  {
    AnalogCurveSign(rawAnalog);
  }

  /** Unit heading in the ground plane: (0, 0, -1) turned about y by the
      rotation. */
  function Heading(m: Prims, rotation: real): (real, real)
  {
    (-m.sin(rotation), -m.cos(rotation))
  }

  /** One axis of the move: advance by the heading component times
      speed * dt, then clamp to the fence. */
  function FenceStep(p: real, dir: real, speed: real, dt: real): (r: real)
    ensures -FENCE <= r <= FENCE
    ensures -FENCE <= p + dir * (speed * dt) <= FENCE ==> r == p + dir * (speed * dt)
  {
    Clamp(p + dir * (speed * dt), -FENCE, FENCE)
  }

  /** The ground target: the highest of the three probes, plus 0.2. */
  function GroundTarget(hCenter: real, hFront: real, hBack: real): (g: real)
    ensures g - 0.2 >= hCenter && g - 0.2 >= hFront && g - 0.2 >= hBack
    ensures g - 0.2 == hCenter || g - 0.2 == hFront || g - 0.2 == hBack
  {
    Max(Max(hCenter, hFront), hBack) + 0.2
  }

  /** The lean the turn asks for: the stick's opposite when off-centre,
      else +1 for left and -1 for right, scaled by 0.08 and the speed ratio. */
  function LeanTarget(speed: real, rawAnalog: real, left: bool, right: bool): real
  {
    var turning := if rawAnalog != 0.0 then -rawAnalog
                   else (if left then 1.0 else 0.0) - (if right then 1.0 else 0.0);
    turning * 0.08 * (speed / GALLOP_SPEED)
  }

  /** The target speed for the keys currently held. */
  function HeldTarget(input: Input.InputManager): real
    reads input
  {
    TargetSpeed(input.IsPressed(Input.Forward), input.IsPressed(Input.Backward), input.IsPressed(Input.Gallop))
  }

  /** Terrain height at the centre, front and back probes of a position
      and heading. */
  function Probes(terrain: Terrain.Terrain, m: Prims, x: real, z: real, rotation: real): (real, real, real)
    reads terrain.positions
    requires terrain.positions.Length == 3 * Terrain.VERTEX_COUNT
  {
    var (hx, hz) := Heading(m, rotation);
    (terrain.HeightAt(x, z),
     terrain.HeightAt(x + hx * PROBE_DISTANCE, z + hz * PROBE_DISTANCE),
     terrain.HeightAt(x - hx * PROBE_DISTANCE, z - hz * PROBE_DISTANCE))
  }

  class HorseController {
    const input: Input.InputManager
    const terrain: Terrain.Terrain
    /** The horse's mesh, moved in place. */
    const mesh: Object3D
    const m: Prims

    var speed: real
    var currentRotation: real
    var frozen: bool
    var smoothY: real
    var smoothPitch: real
    var smoothLean: real
    var yInitialized: bool

    /** The speed stays between the backward speed and the gallop speed. */
    ghost predicate Valid()
      reads this
    {
      && terrain.positions.Length == 3 * Terrain.VERTEX_COUNT
      && BACKWARD_SPEED <= speed <= GALLOP_SPEED
    }

    constructor (mesh: Object3D, input: Input.InputManager, terrain: Terrain.Terrain, m: Prims)
      requires terrain.positions.Length == 3 * Terrain.VERTEX_COUNT
      ensures Valid()
      ensures this.mesh == mesh && this.input == input && this.terrain == terrain && this.m == m
      ensures speed == 0.0 && currentRotation == 0.0 && !frozen
      ensures smoothY == 0.0 && smoothPitch == 0.0 && smoothLean == 0.0 && !yInitialized
    {
      this.mesh := mesh;
      this.input := input;
      this.terrain := terrain;
      this.m := m;
      speed := 0.0;
      currentRotation := 0.0;
      frozen := false;
      smoothY := 0.0;
      smoothPitch := 0.0;
      smoothLean := 0.0;
      yInitialized := false;
    }

    /** `update(dt)`. Frozen, nothing changes. Otherwise speed, heading,
        position (fenced), height and the three smoothed angles advance. */
    method Update(dt: real)
      requires Valid() && 0.0 <= dt
      modifies this, mesh
      ensures Valid()
      ensures old(frozen) ==> unchanged(this) && unchanged(mesh)
      ensures !old(frozen) ==>
        && speed == NextSpeed(old(speed), HeldTarget(input), dt)
        && currentRotation == NextRotation(old(currentRotation), speed, input.analogX,
                                           input.IsPressed(Input.Left), input.IsPressed(Input.Right), dt)
        && mesh.px == FenceStep(old(mesh.px), Heading(m, currentRotation).0, speed, dt)
        && mesh.pz == FenceStep(old(mesh.pz), Heading(m, currentRotation).1, speed, dt)
        && frozen == old(frozen) && yInitialized
      ensures !old(frozen) ==>
        var p := Probes(terrain, m, mesh.px, mesh.pz, currentRotation);
        smoothY == Lerp(if old(yInitialized) then old(smoothY) else GroundTarget(p.0, p.1, p.2),
                        GroundTarget(p.0, p.1, p.2), 8.0 * dt)
      ensures !old(frozen) && !old(yInitialized) ==>
        var p := Probes(terrain, m, mesh.px, mesh.pz, currentRotation);
        smoothY == GroundTarget(p.0, p.1, p.2)
      ensures !old(frozen) ==>
        var p := Probes(terrain, m, mesh.px, mesh.pz, currentRotation);
        smoothPitch == Lerp(old(smoothPitch), m.atan2(p.1 - p.2, 2.0 * PROBE_DISTANCE), 4.0 * dt)
      ensures !old(frozen) ==>
        smoothLean == Lerp(old(smoothLean), LeanTarget(speed, input.analogX,
                           input.IsPressed(Input.Left), input.IsPressed(Input.Right)), 5.0 * dt)
      ensures !old(frozen) ==>
        && mesh.py == smoothY && mesh.ry == currentRotation
        && mesh.rx == smoothPitch && mesh.rz == smoothLean
        && -FENCE <= mesh.px <= FENCE && -FENCE <= mesh.pz <= FENCE
    {
      if frozen {
        return;
      }
      Advance(dt);
    }

    /** One unfrozen frame: the move, then the ground following at the new
        position and heading. */
    method Advance(dt: real)
      requires Valid() && 0.0 <= dt
      modifies this`speed, this`currentRotation, this`smoothY, this`yInitialized, this`smoothPitch, this`smoothLean
      modifies mesh`px, mesh`pz, mesh`py, mesh`rx, mesh`ry, mesh`rz
      ensures Valid()
      ensures speed == NextSpeed(old(speed), HeldTarget(input), dt)
      ensures currentRotation == NextRotation(old(currentRotation), speed, input.analogX,
                                              input.IsPressed(Input.Left), input.IsPressed(Input.Right), dt)
      ensures mesh.px == FenceStep(old(mesh.px), Heading(m, currentRotation).0, speed, dt)
      ensures mesh.pz == FenceStep(old(mesh.pz), Heading(m, currentRotation).1, speed, dt)
      ensures yInitialized
      ensures var p := Probes(terrain, m, mesh.px, mesh.pz, currentRotation);
        smoothY == Lerp(if old(yInitialized) then old(smoothY) else GroundTarget(p.0, p.1, p.2),
                        GroundTarget(p.0, p.1, p.2), 8.0 * dt)
      ensures !old(yInitialized) ==>
        var p := Probes(terrain, m, mesh.px, mesh.pz, currentRotation);
        smoothY == GroundTarget(p.0, p.1, p.2)
      ensures var p := Probes(terrain, m, mesh.px, mesh.pz, currentRotation);
        smoothPitch == Lerp(old(smoothPitch), m.atan2(p.1 - p.2, 2.0 * PROBE_DISTANCE), 4.0 * dt)
      ensures smoothLean == Lerp(old(smoothLean), LeanTarget(speed, input.analogX,
                                 input.IsPressed(Input.Left), input.IsPressed(Input.Right)), 5.0 * dt)
      ensures mesh.py == smoothY && mesh.ry == currentRotation
        && mesh.rx == smoothPitch && mesh.rz == smoothLean
    {
      Locomote(dt);
      ghost var probes := Probes(terrain, m, mesh.px, mesh.pz, currentRotation);
      FollowGround(dt);
      assert probes == Probes(terrain, m, mesh.px, mesh.pz, currentRotation);
    }

    /** Lines 36-80 of `update`: speed, heading and the fenced move. */
    method Locomote(dt: real)
      requires Valid() && 0.0 <= dt
      modifies this`speed, this`currentRotation, mesh`px, mesh`pz
      ensures Valid()
      ensures speed == NextSpeed(old(speed), HeldTarget(input), dt)
      ensures currentRotation == NextRotation(old(currentRotation), speed, input.analogX,
                                              input.IsPressed(Input.Left), input.IsPressed(Input.Right), dt)
      ensures mesh.px == FenceStep(old(mesh.px), Heading(m, currentRotation).0, speed, dt)
      ensures mesh.pz == FenceStep(old(mesh.pz), Heading(m, currentRotation).1, speed, dt)
    {
      var forward, backward := input.IsPressed(Input.Forward), input.IsPressed(Input.Backward);
      var gallop := input.IsPressed(Input.Gallop);
      var targetSpeed := TargetSpeed(forward, backward, gallop);
      var newSpeed := NextSpeed(speed, targetSpeed, dt);
      NextSpeedProps(speed, targetSpeed, dt);
      var rotation := NextRotation(currentRotation, newSpeed, input.analogX,
                                   input.IsPressed(Input.Left), input.IsPressed(Input.Right), dt);
      var (dirX, dirZ) := Heading(m, rotation);
      var cx := FenceStep(mesh.px, dirX, newSpeed, dt);
      var cz := FenceStep(mesh.pz, dirZ, newSpeed, dt);
      speed, currentRotation := newSpeed, rotation;
      mesh.px, mesh.pz := cx, cz;
    }

    /** Lines 82-117 of `update`: the ground probe, the smoothed height and
        the smoothed pitch and lean, copied onto the mesh. */
    method FollowGround(dt: real)
      requires Valid()
      modifies this`smoothY, this`yInitialized, this`smoothPitch, this`smoothLean
      modifies mesh`py, mesh`rx, mesh`ry, mesh`rz
      ensures var p := old(Probes(terrain, m, mesh.px, mesh.pz, currentRotation));
        smoothY == Lerp(if old(yInitialized) then old(smoothY) else GroundTarget(p.0, p.1, p.2),
                        GroundTarget(p.0, p.1, p.2), 8.0 * dt)
      ensures !old(yInitialized) ==>
        var p := old(Probes(terrain, m, mesh.px, mesh.pz, currentRotation));
        smoothY == GroundTarget(p.0, p.1, p.2)
      ensures var p := old(Probes(terrain, m, mesh.px, mesh.pz, currentRotation));
        smoothPitch == Lerp(old(smoothPitch), m.atan2(p.1 - p.2, 2.0 * PROBE_DISTANCE), 4.0 * dt)
      ensures smoothLean == Lerp(old(smoothLean), LeanTarget(speed, input.analogX,
                                 input.IsPressed(Input.Left), input.IsPressed(Input.Right)), 5.0 * dt)
      ensures yInitialized
      ensures speed == old(speed) && currentRotation == old(currentRotation)
      ensures mesh.px == old(mesh.px) && mesh.pz == old(mesh.pz)
      ensures mesh.py == smoothY && mesh.ry == currentRotation && mesh.rx == smoothPitch && mesh.rz == smoothLean
    {
      var probes := Probes(terrain, m, mesh.px, mesh.pz, currentRotation);
      Settle(probes.0, probes.1, probes.2, dt);
    }

    /** The smoothing half of `FollowGround`, given the three probe heights. */
    method Settle(hCenter: real, hFront: real, hBack: real, dt: real)
      modifies this`smoothY, this`yInitialized, this`smoothPitch, this`smoothLean
      modifies mesh`py, mesh`rx, mesh`ry, mesh`rz
      ensures smoothY == Lerp(if old(yInitialized) then old(smoothY) else GroundTarget(hCenter, hFront, hBack),
                              GroundTarget(hCenter, hFront, hBack), 8.0 * dt)
      ensures !old(yInitialized) ==> smoothY == GroundTarget(hCenter, hFront, hBack)
      ensures smoothPitch == Lerp(old(smoothPitch), m.atan2(hFront - hBack, 2.0 * PROBE_DISTANCE), 4.0 * dt)
      ensures smoothLean == Lerp(old(smoothLean), LeanTarget(speed, input.analogX,
                                 input.IsPressed(Input.Left), input.IsPressed(Input.Right)), 5.0 * dt)
      ensures yInitialized
      ensures mesh.px == old(mesh.px) && mesh.pz == old(mesh.pz)
      ensures mesh.py == smoothY && mesh.ry == currentRotation && mesh.rx == smoothPitch && mesh.rz == smoothLean
    {
      var groundY := GroundTarget(hCenter, hFront, hBack);
      var startY := if yInitialized then smoothY else groundY;
      smoothY, yInitialized := Lerp(startY, groundY, 8.0 * dt), true;
      smoothPitch := Lerp(smoothPitch, m.atan2(hFront - hBack, 2.0 * PROBE_DISTANCE), 4.0 * dt);
      smoothLean := Lerp(smoothLean, LeanTarget(speed, input.analogX,
                         input.IsPressed(Input.Left), input.IsPressed(Input.Right)), 5.0 * dt);
      mesh.py, mesh.ry, mesh.rx, mesh.rz := smoothY, currentRotation, smoothPitch, smoothLean;
    }
  }
}
