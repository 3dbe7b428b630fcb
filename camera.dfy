/** The follow camera's mode machine (src/core/Camera.js): Follow mode eases
    the offsets towards their targets; a cinematic orbit overrides it until
    it completes (targets take the final pose, then the callback runs) or
    is stopped (targets reset, no callback). The camera's world position,
    the yaw quaternion and the shake offsets are not modelled. */
module Camera {
  import opened Common
  import opened Constants

  const CINEMATIC_DURATION: real := 2000.0
  const CINEMATIC_END_RADIUS: real := 12.0
  const CINEMATIC_END_Y: real := 6.0
  const CINEMATIC_END_LOOK_AT: Vec3 := Vec3(0.0, 1.5, -1.0)
  /** The orbit sweeps 0.83 of a half turn. */
  const CINEMATIC_SWEEP: real := PI * 0.83

  /** The `_cinematic` record. `callback` is the optional closure passed to
      `playCinematic`. */
  datatype Cinematic = Cinematic(
    startTime: real, duration: real,
    startAngle: real, startRadius: real, startY: real,
    endAngle: real, endRadius: real, endY: real,
    startLookAt: Vec3, endLookAt: Vec3,
    callback: Option<ListenerId>)

  /** `Math.min(elapsed / duration, 1)`. */
  function Progress(elapsed: real, duration: real): (t: real)
    requires duration > 0.0
    ensures t <= 1.0
    ensures elapsed >= duration ==> t == 1.0
    ensures 0.0 <= elapsed ==> 0.0 <= t
  {
    Min(elapsed / duration, 1.0)
  }

  /** The cubic ease-out `1 - (1 - t)^3`. */
  function EaseOut(t: real): real
  {
    1.0 - (1.0 - t) * (1.0 - t) * (1.0 - t)
  }

  /** The ease-out starts at 0, ends at 1 and stays in [0, 1] between. */
  lemma EaseOutRange(t: real)
    requires 0.0 <= t <= 1.0
    ensures 0.0 <= EaseOut(t) <= 1.0
    ensures t == 0.0 ==> EaseOut(t) == 0.0
    ensures t == 1.0 ==> EaseOut(t) == 1.0
  {
    var u := 1.0 - t;
    var u2 := u * u;
    var u3 := u2 * u;
    assert EaseOut(t) == 1.0 - u3;
    MulAtMostOne(u, u);
    MulAtMostOne(u2, u);
    if t == 0.0 {
      assert u == 1.0 && u2 == 1.0 && u3 == 1.0;
    }
    if t == 1.0 {
      assert u == 0.0 && u2 == 0.0 && u3 == 0.0;
    }
  }

  /** The ease-out never moves backwards. */
  lemma EaseOutMonotone(s: real, t: real)
    requires 0.0 <= s <= t <= 1.0
    ensures EaseOut(s) <= EaseOut(t)
  {
    var a := 1.0 - t;
    var b := 1.0 - s;
    MulNonneg(a, a);
    MulMono(a * a, a, b);
    MulMono(a, a, b);
    MulMono(b, a, b);
    MulNonneg(a, b);
    MulMono(a * b, a, b);
    assert a * a * a <= a * a * b <= a * b * b;
    assert a * b * b == b * a * b;
    MulMono(b * b, a, b);
    assert b * b * a == b * a * b;
  }

  /** The orbit position at an eased fraction: angle, radius and height
      each interpolated between their start and end. */
  function OrbitOffset(m: Prims, cin: Cinematic, eased: real): Vec3
  {
    var angle := cin.startAngle + (cin.endAngle - cin.startAngle) * eased;
    var radius := cin.startRadius + (cin.endRadius - cin.startRadius) * eased;
    var y := cin.startY + (cin.endY - cin.startY) * eased;
    Vec3(m.sin(angle) * radius, y, m.cos(angle) * radius)
  }

  /** The orbit `playCinematic` installs from the current offset. */
  function NewCinematic(m: Prims, offset: Vec3, lookAtOffset: Vec3, now: real, callback: Option<ListenerId>): Cinematic
  {
    var startAngle := m.atan2(offset.x, offset.z);
    Cinematic(now, CINEMATIC_DURATION,
              startAngle, Dist2D(m, offset.x, offset.z), offset.y,
              startAngle + PI * 0.83, CINEMATIC_END_RADIUS, CINEMATIC_END_Y,
              lookAtOffset, CINEMATIC_END_LOOK_AT, callback)
  }

  /** Every cinematic lasts 2000 ms, ends at radius 12 and height 6 facing
      (0, 1.5, -1), and sweeps 0.83 pi from where the camera was; with a
      sound sqrt it starts at the camera's current distance. At eased 0 and
      1 the orbit is at its two ends. */
  lemma NewCinematicShape(m: Prims, offset: Vec3, lookAtOffset: Vec3, now: real, callback: Option<ListenerId>)
    ensures var cin := NewCinematic(m, offset, lookAtOffset, now, callback);
      && cin.duration == 2000.0 && cin.endRadius == 12.0 && cin.endY == 6.0
      && cin.endAngle - cin.startAngle == CINEMATIC_SWEEP
      && cin.startY == offset.y && cin.startLookAt == lookAtOffset
      && cin.endLookAt == Vec3(0.0, 1.5, -1.0) && cin.callback == callback
      && OrbitOffset(m, cin, 1.0) == Vec3(m.sin(cin.endAngle) * 12.0, 6.0, m.cos(cin.endAngle) * 12.0)
      && OrbitOffset(m, cin, 0.0).y == offset.y
  {
  }

  /** Once the duration has elapsed the orbit stands at its end pose and
      the look-at at its end point, which is what the targets take over. */
  lemma CinematicEndPose(m: Prims, cin: Cinematic, now: real)
    requires cin.duration > 0.0 && now - cin.startTime >= cin.duration
    ensures var eased := EaseOut(Progress(now - cin.startTime, cin.duration));
      && OrbitOffset(m, cin, eased) == OrbitOffset(m, cin, 1.0)
      && OrbitOffset(m, cin, eased).y == cin.endY
      && LerpVec(cin.startLookAt, cin.endLookAt, eased) == cin.endLookAt
  {
    EaseOutRange(1.0);
  }

  class Camera {
    const m: Prims
    /** `target` is set and `_initialized`. */
    var hasTarget: bool
    var offset: Vec3
    var targetOffset: Vec3
    var lookAtOffset: Vec3
    var targetLookAtOffset: Vec3
    var cinematic: Option<Cinematic>
    /** `_targetSpeedRatio || 0`: undefined until first set, which the
        update reads as 0. */
    var targetSpeedRatio: real
    var smoothShake: real
    var smoothFov: real
    /** `instance.fov`. */
    var fov: real
    var shakeTime: real

    constructor (m: Prims)
      ensures this.m == m && !hasTarget
      ensures offset == CAMERA_OFFSET && targetOffset == CAMERA_OFFSET
      ensures lookAtOffset == CAMERA_LOOK_AT_OFFSET && targetLookAtOffset == CAMERA_LOOK_AT_OFFSET
      ensures cinematic.None? && targetSpeedRatio == 0.0 && smoothShake == 0.0
      ensures smoothFov == CAMERA_FOV && fov == CAMERA_FOV && shakeTime == 0.0
    {
      this.m := m;
      hasTarget := false;
      offset := CAMERA_OFFSET;
      targetOffset := CAMERA_OFFSET;
      lookAtOffset := CAMERA_LOOK_AT_OFFSET;
      targetLookAtOffset := CAMERA_LOOK_AT_OFFSET;
      cinematic := None;
      targetSpeedRatio := 0.0;
      smoothShake := 0.0;
      smoothFov := CAMERA_FOV;
      fov := CAMERA_FOV;
      shakeTime := 0.0;
    }

    /** `setTarget`: from now on `update` runs. */
    method SetTarget()
      modifies this`hasTarget
      ensures hasTarget
    {
      hasTarget := true;
    }

    /** `isCinematicActive`. */
    predicate IsCinematicActive()
      reads this
    {
      cinematic.Some?
    }

    /** `setApproachMode`: ignored during a cinematic; otherwise the offset
        target becomes the approach or the default offset and the look-at
        target the default. */
    method SetApproachMode(active: bool)
      modifies this`targetOffset, this`targetLookAtOffset
      ensures IsCinematicActive() ==> targetOffset == old(targetOffset) && targetLookAtOffset == old(targetLookAtOffset)
      ensures !IsCinematicActive() ==>
        && targetOffset == (if active then CAMERA_APPROACH_OFFSET else CAMERA_OFFSET)
        && targetLookAtOffset == CAMERA_LOOK_AT_OFFSET
    {
      if cinematic.Some? {
        return;
      }
      targetOffset := if active then CAMERA_APPROACH_OFFSET else CAMERA_OFFSET;
      targetLookAtOffset := CAMERA_LOOK_AT_OFFSET;
    }

    /** `playCinematic(callback)` at time `now`: installs a fresh orbit
        from the current offset, replacing any active one. */
    method PlayCinematic(now: real, callback: Option<ListenerId>)
      modifies this`cinematic
      ensures cinematic == Some(NewCinematic(m, offset, lookAtOffset, now, callback))
    {
      var startAngle := m.atan2(offset.x, offset.z);
      var startRadius := Dist2D(m, offset.x, offset.z);
      var startY := offset.y;
      var endAngle := startAngle + PI * 0.83;
      var cin := Cinematic(now, 2000.0, startAngle, startRadius, startY,
                           endAngle, 12.0, 6.0, lookAtOffset, Vec3(0.0, 1.5, -1.0), callback);
      assert cin == NewCinematic(m, offset, lookAtOffset, now, callback);
      cinematic := Some(cin);
    }

    /** `stopCinematic`: the orbit is dropped without its callback and both
        targets return to the defaults. */
    method StopCinematic()
      modifies this`cinematic, this`targetOffset, this`targetLookAtOffset
      ensures !IsCinematicActive()
      ensures targetOffset == CAMERA_OFFSET && targetLookAtOffset == CAMERA_LOOK_AT_OFFSET
    {
      cinematic := None;
      targetOffset := CAMERA_OFFSET;
      targetLookAtOffset := CAMERA_LOOK_AT_OFFSET;
    }

    /** `setSpeedRatio`: capped at 1. */
    method SetSpeedRatio(ratio: real)
      modifies this`targetSpeedRatio
      ensures targetSpeedRatio <= 1.0
      ensures targetSpeedRatio == ratio || (ratio > 1.0 && targetSpeedRatio == 1.0)
    {
      targetSpeedRatio := Min(ratio, 1.0);
    }

    /** The shake and field-of-view smoothing at the head of `update`. */
    method Smooth(dt: real)
      modifies this`smoothShake, this`smoothFov, this`fov, this`shakeTime
      ensures smoothShake == Lerp(old(smoothShake), targetSpeedRatio, 3.0 * dt)
      ensures smoothFov == Lerp(old(smoothFov), CAMERA_FOV + smoothShake * 7.0, 3.0 * dt)
      ensures fov == (if Abs(old(fov) - smoothFov) > 0.05 then smoothFov else old(fov))
      ensures shakeTime == old(shakeTime) + dt * (8.0 + smoothShake * 12.0)
    {
      smoothShake := Lerp(smoothShake, targetSpeedRatio, 3.0 * dt);
      var targetFov := CAMERA_FOV + smoothShake * 7.0;
      smoothFov := Lerp(smoothFov, targetFov, 3.0 * dt);
      if Abs(fov - smoothFov) > 0.05 {
        fov := smoothFov;
      }
      shakeTime := shakeTime + dt * (8.0 + smoothShake * 12.0);
    }

    /** The cinematic branch of `update` at time `now`. */
    method StepCinematic(now: real) returns (called: Option<ListenerId>)
      requires cinematic.Some? && cinematic.value.duration > 0.0
      modifies this`offset, this`lookAtOffset, this`targetOffset, this`targetLookAtOffset, this`cinematic
      ensures var cin := old(cinematic).value;
        var t := Progress(now - cin.startTime, cin.duration);
        && offset == OrbitOffset(m, cin, EaseOut(t))
        && lookAtOffset == LerpVec(cin.startLookAt, cin.endLookAt, EaseOut(t))
        && (t >= 1.0 ==> targetOffset == offset && targetLookAtOffset == lookAtOffset
                         && cinematic.None? && called == cin.callback)
        && (t < 1.0 ==> targetOffset == old(targetOffset) && targetLookAtOffset == old(targetLookAtOffset)
                        && cinematic == old(cinematic) && called.None?)
    {
      var cin := cinematic.value;
      var t := Progress(now - cin.startTime, cin.duration);
      var eased := EaseOut(t);
      offset := OrbitOffset(m, cin, eased);
      lookAtOffset := LerpVec(cin.startLookAt, cin.endLookAt, eased);
      called := None;
      if t >= 1.0 {
        targetOffset := offset;
        targetLookAtOffset := lookAtOffset;
        cinematic := None;
        called := cin.callback;
      }
    }

    /** The Follow branch of `update`: both offsets ease towards their
        targets at rate 2 per second. */
    method FollowTargets(dt: real)
      modifies this`offset, this`lookAtOffset
      ensures offset == LerpVec(old(offset), targetOffset, 2.0 * dt)
      ensures lookAtOffset == LerpVec(old(lookAtOffset), targetLookAtOffset, 2.0 * dt)
    {
      offset := LerpVec(offset, targetOffset, 2.0 * dt);
      lookAtOffset := LerpVec(lookAtOffset, targetLookAtOffset, 2.0 * dt);
    }

    /** The mode logic of `update(dt)` at time `now`. Without a target
        nothing happens. During a cinematic the offsets follow the orbit;
        once its progress reaches 1 the targets take the final pose, the
        orbit is cleared and only then its callback is returned as called.
        In Follow mode the offsets ease towards their targets. */
    method Update(dt: real, now: real) returns (called: Option<ListenerId>)
      requires cinematic.Some? ==> cinematic.value.duration > 0.0
      modifies this
      ensures cinematic.Some? ==> cinematic.value.duration > 0.0
      ensures !old(hasTarget) ==> unchanged(this) && called.None?
      ensures old(hasTarget) && old(cinematic).None? ==>
        && offset == LerpVec(old(offset), targetOffset, 2.0 * dt)
        && lookAtOffset == LerpVec(old(lookAtOffset), targetLookAtOffset, 2.0 * dt)
        && targetOffset == old(targetOffset) && targetLookAtOffset == old(targetLookAtOffset)
        && cinematic.None? && called.None?
      ensures old(hasTarget) && old(cinematic).Some? ==>
        var cin := old(cinematic).value;
        var t := Progress(now - cin.startTime, cin.duration);
        && offset == OrbitOffset(m, cin, EaseOut(t))
        && lookAtOffset == LerpVec(cin.startLookAt, cin.endLookAt, EaseOut(t))
        && (t >= 1.0 ==> targetOffset == offset && targetLookAtOffset == lookAtOffset
                         && cinematic.None? && called == cin.callback)
        && (t < 1.0 ==> targetOffset == old(targetOffset) && targetLookAtOffset == old(targetLookAtOffset)
                        && cinematic == old(cinematic) && called.None?)
      ensures old(hasTarget) ==>
        && hasTarget && targetSpeedRatio == old(targetSpeedRatio)
        && smoothShake == Lerp(old(smoothShake), targetSpeedRatio, 3.0 * dt)
        && smoothFov == Lerp(old(smoothFov), CAMERA_FOV + smoothShake * 7.0, 3.0 * dt)
        && fov == (if Abs(old(fov) - smoothFov) > 0.05 then smoothFov else old(fov))
        && shakeTime == old(shakeTime) + dt * (8.0 + smoothShake * 12.0)
    {
      called := None;
      if !hasTarget {
        return;
      }
      Smooth(dt);
      if cinematic.Some? {
        called := StepCinematic(now);
      } else {
        FollowTargets(dt);
      }
    }
  }
}
