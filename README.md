# A verified model of the horse-riding game's core logic

This project is a Dafny model of the rule-based core of a small three.js game. In the game a horse roams a square world with six horse pensions ("pensions"). The player approaches a pension, watches a short camera orbit and reads its information panel. The goal is to find an ethical pension: quest 1 asks the player to visit the showpiece domain, and quest 2 asks them to choose an ethical pension.

The model covers these parts of the game:

- **Clock** (`time.dfy`): the frame clock, with a 50 ms cap on the frame delta.
- **Constants** (`constants.dfy`): the fixed configuration, including the pension registry in declaration order.
- **Terrain** (`terrain.dfy`): the height field.
  - Natural height, faded around the spawn point and flattened smoothly around each pension.
  - A vertex buffer written in place.
  - Bilinear height queries over a clamped grid.
- **HorseControl** (`horse_controller.dfy`): the horse's locomotion.
  - Target speed, easing and snaps to a standstill.
  - Turning, the square fence and the ground probe.
- **Horses** (`horse.dfy`): the horse's animation choice.
  - Root-motion stripping of the position tracks, done in place.
  - Guarded action switches, emotes, and the gait chosen from the speed.
- **Locations** (`location_manager.dfy`): the proximity tracker.
  - The nearest pension and the in-range flag.
  - The `approach`/`leave` edges and the cached minimap data.
- **Camera** (`camera.dfy`): the camera mode machine.
  - Follow mode, approach mode and cinematic orbits with a cubic ease-out.
  - Stop without the callback versus completion with it.
- **Input** (`input_manager.dfy`): the key state.
  - The key table, edge-triggered listener calls and release on blur.
  - The joystick dead zone and mutually exclusive directions.
- **Experiences** (`experience.dfy`): the quest and interaction state machine.
  - The singleton, the quest transitions and the interact decision.
  - The panel's continue/choose handlers, the restart mapping and the quest hint.
- **Dust** (`dust_system.dfy`): the dust particle pool, used as a ring buffer.
  - The emission timer, bursts and particle life cycle.
- **Paths** (`path_system.dfy`): the dirt-path ribbons, one per pension.
  - Their point, vertex, colour and triangle-index buffers.
- **Vegetation** (`vegetation.dfy`): tree placement.
  - Bounded attempt loops and the exclusion zones.
  - The fallback to procedural trees.
- **Loading** (`loading_screen.dfy`): the loading screen's monotone progress, status message and dots.
- **Hud** (`hud.dfy`): the HUD's quest-target rule, dot sizes and speed labels.

How the source's constructs are represented:

- **Objects whose fields the game updates** are classes with `modifies` clauses. This covers the clock, terrain, controller, horse, tracker, camera, input, experience, dust pool, loading screen and instanced meshes.
- **In-place buffers** are arrays: the terrain vertices, the dust pool and the animation tracks.
- **Pure rules** are functions, each with lemmas that state what it promises.
- **Numbers** are mathematical reals, not IEEE floats.
- **Host primitives** are parameters: `Math.sqrt`, `Math.sin`, `Math.cos` and `Math.atan2`, the simplex noise, and every `Math.random` draw. The model assumes only that the square root is a true non-negative root and that sine and cosine lie in [-1, 1].
- **Listener closures** are opaque ids. An operation that calls listeners returns the calls it makes, in order.

Two behaviours of the code worth knowing when reading the model:

- **Nearest location.** Out of interaction range, the nearest location depends only on the current distances, and the tracker keeps no previous choice (src/locations/LocationManager.js:142-148).
- **Replacing cinematics.** `playCinematic` replaces an active cinematic (src/core/Camera.js:65); the interact handler guards against starting one while another runs (src/Experience.js:127).

## Model

| member | source | states |
|---|---|---|
| Clock.Time.constructor | src/core/Time.js:2-10 | the first tick runs inside the constructor: no listeners, the delta is the first reading's gap capped at 50 ms, and the elapsed time equals it |
| Clock.Time.Tick | src/core/Time.js:12-21 | the delta is the gap since the last tick capped at 50 ms, the elapsed time grows by exactly that delta, and the listeners are called once each in registration order |
| Clock.Time.On | src/core/Time.js:23-25 | only the 'tick' event appends the listener; any other event name leaves the list unchanged |
| Clock.Time.DeltaSeconds | src/core/Time.js:27-29 | the delta in seconds (times 1000 gives the delta back), hence at most 0.05 |
| Hud.IsQuestTargetCases | src/ui/HUD.js:150-155 | no hint marks nothing; the hinted key marks its location; an ethical hint marks every ethical location; and nothing else is ever marked |
| Hud.DotRadius | src/ui/HUD.js:93 | a quest-target dot has radius 5·dpr, any other 3.5·dpr, both positive |
| Hud.SpeedLabels | src/ui/HUD.js:157-166 | idle shows the empty label and is the only state that does; walk, trot and gallop show 'Pas', 'Trot' and 'Galop'; any other state string shows the empty label |
| Loading.Round | src/ui/LoadingScreen.js:66 | `Math.round`: the integer within half a unit of its argument, halves going up |
| Loading.MessageIndex | src/ui/LoadingScreen.js:38-41 | min(floor(target·5), 4) is always a valid index of the five messages |
| Loading.MessageIndexMonotone | src/ui/LoadingScreen.js:38-41 | the index never decreases as the target grows, is 4 from a target of 0.8 on, and below that is floor(target·5) |
| Loading.PercentBounds | src/ui/LoadingScreen.js:66 | a display in [0, 1] shows a percentage in [0, 100] |
| Loading.Dots | src/ui/LoadingScreen.js:31 | `'.'.repeat(n)`: exactly n dots |
| Loading.LoadingScreen.constructor | src/ui/LoadingScreen.js:10-26 | display, target, message index and dot count all start at zero |
| Loading.LoadingScreen.TickDots | src/ui/LoadingScreen.js:28-33 | the dot count cycles 0, 1, 2, 3, 0 and the text is that many dots |
| Loading.LoadingScreen.SetProgress | src/ui/LoadingScreen.js:35-46 | the target becomes the max of its value and the new progress, so it never decreases; the message index follows it and never decreases; the message is swapped exactly when the index changes |
| Loading.LoadingScreen.Step | src/ui/LoadingScreen.js:57-66 | with a gap above 0.001 the display moves 6 % of the way to the target, otherwise it snaps to the target; it never overshoots; the percentage is round(display·100) and lies in [0, 100] |
| Constants.FindPension | src/utils/Constants.js:26-75 | looking a key up in the registry returns an entry with that key, or nothing exactly when no entry has it |
| Terrain.PadsOf | src/world/Terrain.js:10-18 | one pad per pension, in registry order, at its anchor with the natural height there |
| Terrain.SpawnFade | src/world/Terrain.js:172-176 | within 25 of the spawn the height is scaled by distance / 25, so it is 0 at the spawn; farther away it is unchanged |
| Terrain.PadWeightBounds | src/world/Terrain.js:182-188 | a pension's smoothstep weight lies in [0, 1] inside the transition radius 30 and is 1 inside the flat radius 14 |
| Terrain.SmoothstepBounds | src/world/Terrain.js:188 | the smoothstep t²(3 - 2t) maps [0, 1] into [0, 1] |
| Terrain.BlendStepInside | src/world/Terrain.js:184-190 | inside the transition radius the height becomes the weighted mix of itself and the pension's centre height |
| Terrain.BlendStepProps | src/world/Terrain.js:178-191 | one pension's blend lies between the height and the centre height, leaves the height alone at distance 30 or more and flattens it to the centre height within 14 |
| Terrain.BlendAllUnroll | src/world/Terrain.js:178-191 | blending from pension k on is pension k's blend followed by the remaining ones |
| Terrain.LastFlatPadWins | src/world/Terrain.js:178-191 | a point within 14 of pension k and 30 or more from every later pension gets exactly pension k's centre height |
| Terrain.PastPadsUnchanged | src/world/Terrain.js:178-191 | a point 30 or more from every pension keeps its faded natural height |
| Terrain.RegistrySpacing | src/utils/Constants.js:26-75 | every anchor of the registry is 30 or more from every later pension |
| Terrain.FarPad | src/world/Terrain.js:179-184 | a squared gap of 900 or more puts a point outside the transition radius |
| Terrain.AnchorsApart | src/utils/Constants.js:26-75 | the registry's anchors are pairwise at least 30 apart |
| Terrain.AtAnchor | src/world/Terrain.js:179-185 | a pension's own anchor is within its flat radius |
| Terrain.AnchorIsFlat | src/world/Terrain.js:169-194 | the terrain height at each pension's anchor is exactly its natural height there: each pension stands on a flat pad |
| Terrain.Cell | src/world/Terrain.js:206-207 | the cell index is clamped to [0, S - 1] |
| Terrain.FracInUnit | src/world/Terrain.js:203-210 | inside the world the fractional part of the grid coordinate lies in [0, 1] |
| Terrain.OutsideClampsToEdge | src/world/Terrain.js:203-210 | outside the world the query uses the edge cell, extrapolating from it |
| Terrain.Bilinear | src/world/Terrain.js:222-224 | the interpolation returns each corner height at its corner |
| Terrain.BilinearBetween | src/world/Terrain.js:222-224 | for fractions in [0, 1] the interpolation lies between the lowest and the highest corner |
| Terrain.GridCoordAtLine | src/world/Terrain.js:203-204 | the x of grid column i maps back to grid coordinate i |
| Terrain.Terrain.constructor | src/world/Terrain.js:6-26 | the pads are those of the registry, the plane is laid out row by row and every vertex carries the computed height of its own x and z |
| Terrain.Terrain.LayOutPlane | src/world/Terrain.js:20-24 | vertex iz·129 + ix sits at column ix and row iz of the plane |
| Terrain.Terrain.ComputeHeight | src/world/Terrain.js:169-194 | the height is the natural height, faded near the spawn, then blended pension by pension in registry order |
| Terrain.Terrain.FadeNearSpawn | src/world/Terrain.js:172-176 | the spawn fade of the natural height at the point's distance from the origin |
| Terrain.Terrain.BlendPad | src/world/Terrain.js:179-190 | one pension's blend at the given distance |
| Terrain.Terrain.Displace | src/world/Terrain.js:151-160 | every vertex keeps its x and z and gets the computed height at them |
| Terrain.Terrain.HeightAtBetweenCorners | src/world/Terrain.js:202-225 | inside the world a query lies between the lowest and the highest corner of its cell |
| Terrain.Terrain.VertexExact | src/world/Terrain.js:202-225 | at a grid vertex, the last row and column included, the query returns that vertex's stored height |
| Terrain.Terrain.QueryAtVertex | src/world/Terrain.js:202-225 | at every grid vertex the query returns exactly the computed height there |
| Terrain.Terrain.StoredAtVertex | src/world/Terrain.js:151-160 | the vertex at column ix and row iz stores the computed height of that column and row |
| Terrain.IndexSplit | src/world/Terrain.js:212-215 | index iz·129 + ix is a vertex and splits back into column ix and row iz |
| HorseControl.StateOf | src/entities/HorseController.js:25-31 | the movement state is idle, walk, trot or gallop exactly when \|speed\| lies in the matching band (below 0.5, below walk + 1, below trot + 1, beyond) |
| HorseControl.StateMonotone | src/entities/HorseController.js:25-31 | a faster horse is never in a slower movement state |
| HorseControl.TargetSpeed | src/entities/HorseController.js:36-44 | backward wins with the backward speed; forward alone asks for a trot, or a gallop with the gallop key; nothing held asks for 0; the target always lies between the backward and the gallop speed |
| HorseControl.NextSpeedProps | src/entities/HorseController.js:46-54 | for dt >= 0 the new speed lies between the old speed and the target; at a halt it is 0 or at least 0.5 in magnitude; a non-negative target never leaves the horse going backwards |
| HorseControl.HaltIdleIsStill | src/entities/HorseController.js:25-54 | at a halt the state is idle exactly when the speed is 0 |
| HorseControl.TurnMultiplierRange | src/entities/HorseController.js:56 | the turn multiplier lies in [1, 1.5] up to full gallop and is 1.5 at rest |
| HorseControl.AnalogCurveSign | src/entities/HorseController.js:58-60 | the signed-square stick curve is 0 exactly for a centred stick and keeps the stick's sign |
| HorseControl.AnalogPrecedence | src/entities/HorseController.js:60-69 | an off-centre stick makes the left and right keys irrelevant; with the stick centred, both keys or neither leave the heading as it was |
| HorseControl.FenceStep | src/entities/HorseController.js:71-80 | the new coordinate is always inside the fence (±45% of the world size) and is the unclamped step whenever that step stays inside |
| HorseControl.GroundTarget | src/entities/HorseController.js:94 | the ground target is 0.2 above the highest of the three probes: at least each of them and equal to one |
| HorseControl.HorseController.constructor | src/entities/HorseController.js:8-23 | at rest, heading 0, not frozen, smoothing state zeroed and the height not yet initialised |
| HorseControl.HorseController.Update | src/entities/HorseController.js:33-118 | frozen, nothing changes; otherwise the speed, heading and fenced position advance by the step functions, the height eases at rate 8 towards the ground target (starting from it the first time), pitch eases at rate 4 towards atan2 of the front/back slope over 2.4, lean at rate 5, and the mesh shows exactly these values, inside the fence |
| HorseControl.HorseController.Advance | src/entities/HorseController.js:36-117 | one unfrozen step: locomotion followed by the ground follow, probes taken at the new position and heading |
| HorseControl.HorseController.Locomote | src/entities/HorseController.js:36-80 | speed, heading and fenced position are those of the step functions; height and angles are untouched |
| HorseControl.HorseController.FollowGround | src/entities/HorseController.js:82-117 | the three probes at 1.2 ahead and behind drive the eased height, pitch and lean; position, speed and heading stay as they were |
| HorseControl.HorseController.Settle | src/entities/HorseController.js:94-117 | from given probe heights: the first call starts the height at the ground target, the eased values follow their Lerp rates, and the mesh carries them |
| Horses.StrippedProps | src/entities/Horse.js:185-191 | stripping keeps every y value, pins every x to the bind x and every z to the bind z, and stripping twice is stripping once |
| Horses.Track.constructor | src/entities/Horse.js:179 | a track holds its name and its own value buffer |
| Horses.LastDot | src/entities/Horse.js:180 | the index found is -1 or a '.', and no '.' follows it |
| Horses.LastDotJoin | src/entities/Horse.js:180 | in `target.prop` with a dot-free property, the last dot is the one after the target |
| Horses.SplitJoin | src/entities/Horse.js:180-182 | splitting `target.prop` at its last dot gives back the property and the target |
| Horses.RootPositionTracks | src/entities/Horse.js:171-184 | a `target.prop` track is rewritten exactly when its property is `position` and its target is one of the model's root bones (`root_04`, `pelvis_05`) |
| Horses.StripTrack | src/entities/Horse.js:185-191 | the buffer in place becomes its stripped form |
| Horses.StripRootMotion | src/entities/Horse.js:170-195 | every value buffer that a position track of a present root bone uses is stripped in place, exactly once in effect even when several tracks share it; every other buffer is left as it was, and a non-root track is rewritten only through a buffer it shares with a root-position track |
| Horses.ThroughStep | src/entities/Horse.js:178-191 | scanning one more track reaches track i exactly when it was already reached or that track is a root-position track sharing its buffer |
| Horses.Play | src/entities/Horse.js:203-216 | playing a clip keeps the mixer consistent and never touches the time scales |
| Horses.PlayGuards | src/entities/Horse.js:203-216 | the current clip or an unknown one changes nothing; otherwise the clip becomes current by action and by name; playing twice is playing once |
| Horses.Scale | src/entities/Horse.js:197-201 | setting the time scale keeps the current action and the set of clips |
| Horses.ScaleGuards | src/entities/Horse.js:197-201 | without a current action nothing changes; only a change by more than 0.01 is written, only on the current action; a repeated write does nothing |
| Horses.GaitBands | src/entities/Horse.js:265-289 | the speed bands of `update`: sprint above 20 at scale in [0.8, 1.2], gallop above 15 in [0.7, 1.2], trot above 10 in [0.6, 1.1], walk above 0.3 in [0.5, 1.0], a slow turning horse walks at 0.35 and any other rests; the scale follows the speed until its bound |
| Horses.PoolIndex | src/entities/Horse.js:294 | a draw in [0, 1) always picks an entry of the idle pool |
| Horses.IdlePoolKeepsPlaying | src/entities/Horse.js:29-33 | every idle-pool clip contains `Idle`, so the idle fallback never interrupts a clip the pool picked |
| Horses.Horse.constructor | src/entities/Horse.js:54-72 | not ready, not emoting, idle timer 0, first idle interval 4 + 3r for the draw r, empty mixer |
| Horses.Horse.FinishLoad | src/entities/Horse.js:149-161 | every loaded clip gets an action at time scale 1 and earlier actions keep theirs; without clips the mixer is unchanged; with the idle clip present (and not already current) it becomes current; without any idle action the current clip is unchanged; the horse is ready |
| Horses.Horse.PlayAction | src/entities/Horse.js:203-216 | the mixer becomes `Play` of the old one |
| Horses.Horse.SetTimeScale | src/entities/Horse.js:197-201 | the mixer becomes `Scale` of the old one |
| Horses.Horse.PlayEmote | src/entities/Horse.js:218-247 | before loading, during an emote, for an unknown emote or a missing clip nothing changes; otherwise the horse emotes and the emote clip becomes current by action and by name, time scales untouched |
| Horses.Horse.OnFinished | src/entities/Horse.js:238-245 | the end of the emote's own action ends the emote, clears the current name and plays idle; the end of any other action is ignored |
| Horses.Horse.Update | src/entities/Horse.js:253-305 | before loading or while emoting nothing changes; a moving or turning horse plays its gait at its scale and resets the idle timer; a resting one accumulates idle time and, once the interval is reached, plays a pool clip and draws an interval in [4, 10), otherwise falls back to idle unless an idle or fidget plays |
| Locations.ClosestIsFirstMinimum | src/locations/LocationManager.js:118-130 | the scan finds an entry exactly when there are locations; its distance is minimal, and every earlier location is strictly farther, so ties go to the earliest location in registry order |
| Locations.ClosestIndex | src/locations/LocationManager.js:121-130 | the chosen index is a valid location index |
| Locations.ClosestEntry | src/locations/LocationManager.js:118-130 | the closest record exists exactly when there are locations and carries that location's key, index and distance |
| Locations.ClassifyProps | src/locations/LocationManager.js:135-149 | in range exactly when the closest distance is below 20, the nearest then being the closest; out of range the nearest is the closest below 35 and null otherwise; nothing depends on the previous state |
| Locations.Deliver | src/locations/LocationManager.js:140-147 | one call per listener, in registration order, each with the same entry |
| Locations.DeliverAppend | src/locations/LocationManager.js:100 | a listener registered last is called last |
| Locations.Edges | src/locations/LocationManager.js:132-149 | no event when the in-range flag keeps its value (even if the nearest changes); `approach` with the new closest entry on the false-to-true edge; `leave` with the previous nearest entry on the true-to-false edge |
| Locations.HexRoundTrip | src/locations/LocationManager.js:160 | n hexadecimal digits of a value below 16ⁿ read back as that value |
| Locations.HexColor | src/locations/LocationManager.js:160 | the minimap colour is '#' followed by six digits |
| Locations.ColorRoundTrip | src/locations/LocationManager.js:160 | the six digits after '#' read back as the 24-bit colour they were made from |
| Locations.LocationManager.constructor | src/locations/LocationManager.js:22-47 | one location per pension, in registry order, standing on the terrain at the pension's x and z; out of range, no nearest location, empty listener lists for the three known events, no cache |
| Locations.LocationManager.On | src/locations/LocationManager.js:99-101 | appends to a known event's list only; an unknown event name changes nothing |
| Locations.LocationManager.Fire | src/locations/LocationManager.js:140-147 | the event's listeners are called in order with the entry; none for an unknown event |
| Locations.LocationManager.Distances | src/locations/LocationManager.js:124 | one horse-to-location distance per location, in registry order |
| Locations.LocationManager.Update | src/locations/LocationManager.js:118-150 | the new in-range flag and nearest entry are the classification of the closest entry (first minimum in registry order), and the calls made are exactly the edge events between the old and new flag |
| Locations.LocationManager.GetLocationsWorldData | src/locations/LocationManager.js:152-168 | the first call builds one entry per pension in registry order (key, name, colour string, ethical flag, x, z) and caches it; later calls return the cached list unchanged |
| Locations.HashRoundTrip | src/locations/LocationManager.js:160 | the digits after the `#` of a location colour read back as the colour value they were made from |
| Camera.Progress | src/core/Camera.js:119 | t = min(elapsed/duration, 1): at most 1, exactly 1 once the duration has elapsed, never negative for a non-negative elapsed time |
| Camera.EaseOutRange | src/core/Camera.js:120 | the cubic ease-out 1 − (1 − t)³ lies in [0, 1] on [0, 1], with eased(0) = 0 and eased(1) = 1 |
| Camera.EaseOutMonotone | src/core/Camera.js:120 | the ease-out never decreases on [0, 1] |
| Camera.NewCinematicShape | src/core/Camera.js:56-74 | every cinematic lasts 2000 ms, ends at radius 12 and height 6 looking at (0, 1.5, −1), sweeps 0.83π from the current angle, keeps the current height and look-at as its start and carries the given callback; the orbit at eased 0 and 1 is at its two ends |
| Camera.CinematicEndPose | src/core/Camera.js:119-138 | once the duration has elapsed the orbit stands at its end pose and the look-at at its end point |
| Camera.Camera.constructor | src/core/Camera.js:9-38 | no target yet, no cinematic; offsets and their targets at the defaults, field of view at its default, shake at rest and the speed ratio 0 |
| Camera.Camera.SetTarget | src/core/Camera.js:40-48 | from now on `update` runs |
| Camera.Camera.SetApproachMode | src/core/Camera.js:50-54 | a no-op while a cinematic is active; otherwise the offset target becomes the approach or the default offset and the look-at target the default |
| Camera.Camera.PlayCinematic | src/core/Camera.js:56-74 | installs exactly the new orbit built from the current offset, replacing any active cinematic |
| Camera.Camera.StopCinematic | src/core/Camera.js:76-80 | clears the cinematic without calling its callback and resets both targets to the defaults |
| Camera.Camera.SetSpeedRatio | src/core/Camera.js:86-88 | the stored ratio is the given one capped at 1 |
| Camera.Camera.Smooth | src/core/Camera.js:98-108 | shake intensity and field of view ease at rate 3, the projection field of view is written only when it is more than 0.05 off, and the shake clock advances |
| Camera.Camera.StepCinematic | src/core/Camera.js:116-143 | the offsets follow the orbit at the eased progress; at t ≥ 1 the targets take the final pose, the cinematic is cleared and its callback is the one call made; before that nothing else changes and no callback runs |
| Camera.Camera.FollowTargets | src/core/Camera.js:146-147 | both offsets move towards their targets at rate 2 |
| Camera.Camera.Update | src/core/Camera.js:95-158 | without a target nothing changes and no callback runs; otherwise the smoothing runs, then either the cinematic step or the follow easing, with the targets untouched in follow mode |
| Input.MapKey | src/core/InputManager.js:36-53 | a code has an action exactly when it is one of the 13 bound codes; any other key code maps to null |
| Input.KeyTable | src/core/InputManager.js:37-51 | the bindings: Z, W and ArrowUp forward; Q, A and ArrowLeft left; S and ArrowDown backward; D and ArrowRight right; both Shifts gallop; E interact |
| Input.CodeFor | src/core/InputManager.js:37-51 | every action has a bound code |
| Input.Notify | src/core/InputManager.js:204-208 | one call `fn(pressed)` per listener, in registration order |
| Input.NotifyAppend | src/core/InputManager.js:199-208 | a listener registered last is called last |
| Input.ClampedInUnit | src/core/InputManager.js:74-86 | after clamping the thumb to radius 55, both normalised components lie in [−1, 1] |
| Input.DeadZoned | src/core/InputManager.js:88-90 | an axis inside the 0.35 dead zone reads 0; a non-zero reading is the axis itself, outside the dead zone |
| Input.InputManager.constructor | src/core/InputManager.js:2-6 | no key recorded, no listener, analog at zero |
| Input.InputManager.IsPressed | src/core/InputManager.js:195-197 | true exactly when the action is recorded as held; false for an action never touched |
| Input.InputManager.On | src/core/InputManager.js:199-202 | the listener goes to the end of its action's list, creating the list if needed; nothing else changes |
| Input.InputManager.Emit | src/core/InputManager.js:204-208 | the action's listeners are called in registration order with `pressed`; no call when it has none |
| Input.InputManager.KeyDown | src/core/InputManager.js:8-17 | an unbound code changes nothing; an action already held neither changes nor emits; otherwise it becomes held and `true` is emitted once |
| Input.InputManager.KeyUp | src/core/InputManager.js:19-25 | a bound action becomes released and `false` is emitted, even when it was not held; an unbound code changes nothing |
| Input.InputManager.Blur | src/core/InputManager.js:27-29 | every recorded action becomes released, no action is held afterwards, and nothing is emitted |
| Input.InputManager.UpdateJoystick | src/core/InputManager.js:67-109 | the analog values are the dead-zoned normalised axes; the four directions are set from the axes, so forward and backward are never both held, nor left and right; each direction that changed emits its new state, in the order forward, backward, left, right |
| Input.InputManager.ResetJoystick | src/core/InputManager.js:111-122 | analog back to zero; every direction released; a `false` emitted only for each direction that was held; gallop and interact untouched |
| Input.InputManager.SetButton | src/core/InputManager.js:148-192 | a touch button sets its action's state and always emits it |
| Input.Edge | src/core/InputManager.js:96-108 | a direction emits nothing when unchanged and its new state when changed |
| Input.ReleaseAllProps | src/core/InputManager.js:116-121 | releasing a list of actions releases each listed action, leaves every other as it was, and emits one `false` exactly for each listed action that was held |
| Experiences.RestartQuest | src/Experience.js:252-262 | the restart button always resumes quest 1 or quest 2 |
| Experiences.RestartMapping | src/Experience.js:252-262 | a quest-1 save resumes at quest 2 exactly when the showpiece was the last location viewed; a quest-2 save resumes at quest 2 exactly after an unethical choice; any other save restarts quest 1 |
| Experiences.QuestHintTargets | src/Experience.js:277-282 | with the hint, the minimap marks exactly the showpiece in quest 1, exactly the ethical pensions in quest 2, and nothing otherwise |
| Experiences.CelebrationCompletes | src/Experience.js:210-232 | only an ethical choice during quest 2 completes the quests and reports the completion; every other choice leaves the quest state as it was |
| Experiences.InstanceSlot.constructor | src/Experience.js:17 | the static instance starts empty |
| Experiences.Construct | src/Experience.js:19-46 | the first construction builds and records a fresh experience (not started, no quest, nothing viewed, panel hidden); every later one returns that same instance and builds nothing |
| Experiences.Experience.constructor | src/Experience.js:19-46 | not started, quest state 'none', no location viewed, panel and prompt hidden |
| Experiences.Experience.Start | src/Experience.js:72-79 | the game is started and quest 1 begins |
| Experiences.Experience.StartQuest1 | src/Experience.js:87-90 | the quest state becomes 'quest1' |
| Experiences.Experience.StartQuest2 | src/Experience.js:92-95 | the quest state becomes 'quest2' |
| Experiences.Experience.CompleteQuests | src/Experience.js:97-100 | the quest state becomes 'complete' |
| Experiences.Experience.OnApproach | src/Experience.js:105-109 | ignored while the info panel is visible; otherwise the prompt shows and, unless a cinematic is active, the offset target becomes the approach offset and the look-at target the default; during a cinematic both targets are kept |
| Experiences.Experience.OnLeave | src/Experience.js:111-114 | the prompt hides; unless a cinematic is active both camera targets return to the defaults, and during one they are kept |
| Experiences.Experience.OnInteract | src/Experience.js:144-147 | a release does nothing; a press has exactly the outcomes of `doInteract`, branch by branch (closing the visit, nothing during a cinematic, starting a visit in range) |
| Experiences.Experience.DoInteract | src/Experience.js:116-142 | before the start nothing changes; with the panel visible it hides the panel, stops the cinematic, leaves approach mode and unfreezes the horse; during a cinematic nothing changes; in range of a nearest location it records the key, halts and freezes the horse and starts exactly the new cinematic with the show-panel closure, leaving the camera targets as they were; otherwise nothing changes. Closing a visit leaves the prompt and the last viewed key as they were |
| Experiences.Experience.ShowPanel | src/Experience.js:138-140 | the cinematic's closure opens the panel on the location it captured |
| Experiences.Experience.CameraStep | src/Experience.js:138-140 | the camera steps exactly as `Camera.Camera.Update` states (nothing without a target, eased follow, orbit with targets taking the end pose on completion, shake and field-of-view smoothing); the panel opens exactly when that step completes a cinematic carrying the show-panel closure, and otherwise stays as it was |
| Experiences.Experience.OnContinue | src/Experience.js:157-165 | panel hidden, cinematic stopped, approach mode off, horse released; quest 1 advances to quest 2 exactly when the last location viewed is the showpiece, and the quest state is otherwise unchanged |
| Experiences.Experience.OnChoose | src/Experience.js:151-155 | the cinematic stops and the horse is released; the celebration's outcome and quest state are those of the chosen pension's ethical flag, and the restart listener captures them |
| Experiences.Experience.Celebrate | src/Experience.js:168-240 | panel and prompt hide; an ethical choice in quest 2 completes the quests, an ethical one elsewhere and an unethical one leave the quest as it was; the restart listener captures the state right after |
| Experiences.Experience.OnRestart | src/Experience.js:240-263 | a pending restart puts the horse at the origin facing forward at rest, resets both camera targets to the defaults unless a cinematic is active (during one they are kept), and resumes the quest `RestartQuest` maps to, once only; without one nothing changes |
| Experiences.Experience.FrameUpdate | src/Experience.js:266-288 | once started and the world is ready, the hint targets the showpiece in quest 1, the ethical pensions in quest 2, and is null otherwise, and the camera's speed ratio is |speed| / 32 capped at 1; before that the ratio is untouched and there is no hint |
| Dust.EmitCount | src/world/DustSystem.js:121 | a burst has 3 particles above speed 20 and 2 otherwise |
| Dust.Spawn | src/world/DustSystem.js:126-141 | a revived particle is alive at age 0 with lifetime in [0.5, 0.9), start size in [1.5, 3), start alpha in [0.15, 0.25) and upward speed in [0.8, 2) |
| Dust.NextSlot | src/world/DustSystem.js:123-124 | the ring index advances to (n + 1) mod the pool size and stays in the pool |
| Dust.SlotAfter | src/world/DustSystem.js:122-124 | the j-th slot after the ring index is (start + j) mod the pool size, at ring offset j |
| Dust.OffsetOfSlot | src/world/DustSystem.js:122-124 | that slot is the only one at ring offset j, so a burst revives distinct slots |
| Dust.Aged | src/world/DustSystem.js:89-99 | a dead particle is untouched; a live one ages by dt and stays alive exactly while its used fraction of life is below 1 |
| Dust.LifeCycle | src/world/DustSystem.js:92-108 | while alive a particle's size lies in [start, 3 × start) and its alpha in (0, start]; once its life is used up it dies with size and alpha 0 |
| Dust.Grows | src/world/DustSystem.js:107 | the size factor 1 + 2t keeps a size in [s, 3s) for t in [0, 1) |
| Dust.Fades | src/world/DustSystem.js:108 | the alpha factor 1 - t keeps an alpha in (0, a] for t in [0, 1) |
| Dust.BurstInterval | src/world/DustSystem.js:74 | the interval between bursts is positive, at most the base interval, and half of it above speed 20 |
| Dust.BurstsAreFloor | src/world/DustSystem.js:73-78 | a timer that ends in [0, interval) after b bursts from an accumulated t has released exactly floor(t / interval) bursts |
| Dust.DustSystem.constructor | src/world/DustSystem.js:3-67 | a pool of 40 slots (15 on touch devices) with emit interval 0.06 (0.12), every particle dead, every size, alpha and position 0, no active particles, timer and ring index 0 |
| Dust.DustSystem.Revive | src/world/DustSystem.js:126-136 | slot i gets the particle and the position; every other slot is unchanged |
| Dust.DustSystem.Emit | src/world/DustSystem.js:120-143 | the slots at ring offsets below the burst size get spawned particles at jittered positions, every other slot is unchanged, and the ring index advances by the burst size |
| Dust.DustSystem.Release | src/world/DustSystem.js:75-78 | the timer ends below the interval, having lost exactly one interval per burst; from a non-negative timer the burst count is floor(timer / interval); the ring index advances by bursts × burst size; each slot at ring offset j below the number of particles emitted holds the spawn (particle and position) of the last particle that landed on it, and every other slot keeps its record and position |
| Dust.DustSystem.ReleaseBurst | src/world/DustSystem.js:75-78 | one loop turn: burst b releases particles b·c to b·c + c − 1 of the run, so the per-slot last-particle description holds for one more burst and the ring index advances by c |
| Dust.LastHit | src/world/DustSystem.js:122-124 | of the first e particles emitted round the ring, the one that last lands at offset j: it lands there, it is among the first e, and no later one lands there |
| Dust.LastHitUnique | src/world/DustSystem.js:122-124 | a particle that lands at offset j with no later one landing there is the last hit |
| Dust.BurstHits | src/world/DustSystem.js:121-124 | a burst of c from ring position start + e hits the slot at burst offset k < c with particle e + k; every slot it misses keeps its last hit, and reached-or-not is unchanged for it |
| Dust.ReleaseStep | src/world/DustSystem.js:75-77 | one burst keeps a slot's record equal to the description after e particles, now after e + c |
| Dust.ReleaseStepAll | src/world/DustSystem.js:75-77 | the same for every slot of the pool |
| Dust.DrawOfBurst | src/world/DustSystem.js:122-141 | particle k of burst b reads the k-th draw record of that burst |
| Dust.DustSystem.EmitPhase | src/world/DustSystem.js:70-81 | at speed 6 or below the timer resets and nothing is emitted, so every slot keeps its record; above it the timer accumulates dt and releases floor((timer + dt) / interval) bursts, with each slot holding the last particle that landed on it |
| Dust.DustSystem.AgeSlot | src/world/DustSystem.js:89-108 | slot i's particle, size, alpha and position become their aged values; every other slot is unchanged |
| Dust.DustSystem.AgeAll | src/world/DustSystem.js:87-109 | every slot is aged by dt and the count returned is the number of live particles |
| Dust.DustSystem.Update | src/world/DustSystem.js:69-118 | below speed 6 the timer resets and nothing is emitted; above it the timer keeps the remainder below the interval (halved above 20) and, from a non-negative start, the number of bursts is exactly floor((timer + dt) / interval), each burst emitting `EmitCount` particles on consecutive ring slots; the pool after emission (`mid`, `midPos`) holds in each slot the last particle emitted onto it or its old record; every slot's particle, size, alpha and position are then those of `mid` aged by dt, so dead particles are untouched and a particle whose life is used up dies with size and alpha 0; the active count is the number of live particles, at most the pool size, and the buffers are flagged dirty exactly when this frame or the previous one had live particles |
| Paths.EdgeColorsBalanced | src/world/PathSystem.js:73-82 | the left and right edge colours vary by one draw in [-0.02, 0.02) in opposite directions on red and green only, so they average to the edge colour |
| Paths.Quad | src/world/PathSystem.js:84-88 | the two triangles of segment i have six indices, all among the two vertices of point i and of point i + 1 |
| Paths.StripLengths | src/world/PathSystem.js:44-89 | after k points the vertex and colour buffers hold 6k numbers and the index strip 6k indices |
| Paths.StripIndices | src/world/PathSystem.js:84-88 | the index strip of k segments is the concatenation of their quads, and every index names one of the first 2k + 2 vertices |
| Paths.VertexStripAt | src/world/PathSystem.js:51-71 | the six vertex numbers pushed for point i sit at 6i in the buffer |
| Paths.VertexStripLength | src/world/PathSystem.js:68-71 | each point adds exactly six vertex numbers |
| Paths.RungAcrossPath | src/world/PathSystem.js:51-71 | the two edge vertices of a point are symmetric about it, and the rung between them is perpendicular to the path's direction there |
| Paths.PointsAt | src/world/PathSystem.js:29-42 | centre point i is the straight line's point at i / 40 pushed sideways by the sine bulge and set 0.06 above the terrain, with the i-th random draw choosing the side |
| Paths.PointsAll | src/world/PathSystem.js:29-42 | all 41 centre points are of that form |
| Paths.VertexBlocks | src/world/PathSystem.js:51-71 | every point's edge vertices sit at their block of the vertex buffer |
| Paths.CreatePoints | src/world/PathSystem.js:25-42 | the point loop produces the 41 centre points `Points` describes |
| Paths.Ribbon | src/world/PathSystem.js:44-89 | the ribbon loop produces the vertex strip, the colour strip and the index strip of its points |
| Paths.PathShape | src/world/PathSystem.js:24-95 | every path has 41 centre points, 246 vertex and 246 colour numbers, 240 indices arranged as one quad per segment, all naming one of its 82 vertices, and point i's vertices at 6i |
| Paths.CreatePath | src/world/PathSystem.js:24-101 | the path built is the one `PathFor` describes |
| Paths.AwayFromOrigin | src/world/PathSystem.js:34-36 | a pension off the spawn point gives a non-zero normal length, so the path's division is defined |
| Paths.PathsToExtend | src/world/PathSystem.js:18-21 | one more path, built with the next 82 draws, extends the list of paths to the next pension |
| Paths.CreatePathsTo | src/world/PathSystem.js:18-21 | one path per pension, in order, path j using draws 82j onwards |
| Paths.CreatePaths | src/world/PathSystem.js:5-22 | exactly one path from the origin to every pension of the registry, each well defined |
| Paths.DirectionAtEnd | src/world/PathSystem.js:53-58 | the last point, having no successor, takes the direction of the last segment, the same as the point before it |
| Paths.HalfWidthRange | src/world/PathSystem.js:62-64 | the half-width noise keeps every half-width between 0.7 and 1 times half the base width 2.2 |
| Vegetation.PensionDistBelow | src/world/Vegetation.js:23 | a point is nearer than r to a pension exactly when its squared gap is below r² |
| Vegetation.NearPensionIff | src/world/Vegetation.js:21-24 | the pension loop reports a hit exactly when some remaining pension is nearer than the radius |
| Vegetation.IsExcludedIff | src/world/Vegetation.js:19-26 | a spot is excluded exactly when it is nearer than the spawn radius to the origin or nearer than the pension radius to some pension |
| Vegetation.Successes | src/world/Vegetation.js:40-56 | the successful attempts among the first n are at most n, in attempt order, a null attempt taking no slot |
| Vegetation.SuccessesGrow | src/world/Vegetation.js:40-56 | later attempts only append to the successes |
| Vegetation.InstancedMesh.constructor | src/world/Vegetation.js:235-236 | an instanced mesh of the given part with a fresh buffer of `count` transforms, all drawn |
| Vegetation.SetMatrixAll | src/world/Vegetation.js:52-54 | every mesh gets the transform at slot i and no other slot changes |
| Vegetation.NewMeshes | src/world/Vegetation.js:33-38 | one fresh mesh per asset part, each with capacity `count` |
| Vegetation.Scatter | src/world/Vegetation.js:40-56 | attempts stop at 4 × count or once count spots are placed; the placed count is the number of successes and slot i of every mesh holds the i-th success on the terrain |
| Vegetation.SetCounts | src/world/Vegetation.js:58-62 | every mesh draws exactly the placed instances |
| Vegetation.PlaceInstanced | src/world/Vegetation.js:28-65 | no parts gives null and places nothing; otherwise one mesh per part, min(count, successes in 4 × count attempts) instances drawn, instance i of each at the i-th success on the terrain |
| Vegetation.WorldCoordRange | src/world/Vegetation.js:80-81 | a drawn coordinate lies in the middle 90% of the world, [-225, 225) |
| Vegetation.GrowsIff | src/world/Vegetation.js:82-85 | a tree grows exactly at least 15 from the spawn, at least 18 from every pension and where the noise density is at least -0.2 |
| Vegetation.CandidateSpot | src/world/Vegetation.js:79-92 | an attempt succeeds exactly when a tree grows at its drawn spot; the spot returned is that one, with scale in [0.7, 0.7 + span) and rotation in [0, 2π) |
| Vegetation.Lift | src/world/Vegetation.js:256-259 | raising a transform changes only its height, by h times its scale |
| Vegetation.Plant | src/world/Vegetation.js:241-262 | attempts stop at 3 × count or once count trees are placed; the placed count is the number of successes; tree i's trunk sits 1.0 × scale and its crown 2.8 × scale above the i-th success on the terrain |
| Vegetation.CreateFallbackTrees | src/world/Vegetation.js:229-270 | a trunk mesh and a crown mesh of capacity `count`, each drawing min(count, successes in 3 × count attempts) trees placed as `Plant` describes |
| Vegetation.CreateTrees | src/world/Vegetation.js:67-94 | any missing tree asset switches to 135 fallback trees; otherwise each of the three types places min(45, successes in 180 attempts) trees, or none when its parts are missing |

## Left out

- Rendering is not modelled: shaders, materials, textures, colour management, shadows, geometry normals, scene insertion, `needsUpdate` flags and `frustumCulled`. This includes the terrain material's fragment shader and the dust point shader. They are GPU work done by the graphics library.
- Sky, lighting, renderer, post-processing, the ambient particles and the asset manager's asynchronous model loading are not part of this model.
- The pension decorations, the per-pension location objects, their `update(dt)` and the beacon pulsing are left out. The tracker keeps only each location's key, position and registry data.
- Everything that only touches the DOM is not modelled:
  - the welcome screen, interaction prompt, quest banner, information panel, HUD canvas drawing and touch-control visibility;
  - the celebration screen's texts and icons;
  - the loading screen's element updates and fade-out.
  
  The handlers keep only the state they read and write: panel and prompt visibility, and the quest state.
- Scheduling is not modelled: `requestAnimationFrame`, `setTimeout`, `performance.now` and promises. Times and frame deltas are parameters, the clock reading included. `Experience`'s asynchronous world creation, and its ordering with the welcome screen, are not modelled; the world being ready is a parameter of the frame update.
- Host math is not defined: the simplex noise, `Math.random`, `Math.sqrt`, the trigonometric functions and `Vector3.applyAxisAngle` are parameters. IEEE rounding, NaN and `Float32Array` single precision are not modelled. Numbers are exact reals.
- Camera.Camera.Update: the camera's world position, its yaw quaternion slerp, the shake offsets and the look-at call are not modelled. Only the offsets, their targets, the field of view, the shake intensity and the cinematic state are.
- Camera.Camera.constructor: `_targetSpeedRatio` is undefined in the source until first set and is read as `|| 0`. The model starts it at 0.
- Horses.Horse.Update: the horse's update receives the controller's new speed and the turn inputs as parameters. The call into the controller is modelled by `HorseControl.HorseController.Update`, and `mixer.update(dt)` is not modelled. The mixer is reduced to the known clips with their time scales, the current action and the current name. Fades, weights and loop modes are not modelled.
- Horses.Horse.FinishLoad: glTF loading, bounding-box scaling and material fixes are left out. Loading is reduced to registering the clips and playing the idle clip. Root-motion stripping is `Horses.StripRootMotion`.
- Horses.StripRootMotion: the tracks' buffers are modelled as arrays that several tracks may share, as glTF loaders produce for channels reading one accessor; how the loader decides the sharing is not modelled.
- Horses.Horse.PlayEmote: the mixer's `finished` event is not modelled. The listener it registers is the method `Horses.Horse.OnFinished`, called with the action that finished.
- Experiences.Experience.Celebrate: the source adds a new once-only restart listener at every celebration. The model keeps one pending restart, the latest. Two celebrations without a restart click in between would leave two listeners in the source.
- Experiences.Experience.FrameUpdate: the world update, the HUD update and the renderer call are modelled separately, or not at all. This method keeps the quest hint and the camera's speed ratio.
- Vegetation.CreateTrees: each placement attempt draws from its own four-number record (coordinates, scale, rotation). In the source a rejected attempt draws only its two coordinates from one shared `Math.random` stream. The values used for a placed tree are the same; the order in which the draws are consumed is not.
- Input.MapKey: the binding table is a plain map; a JavaScript object lookup would also find inherited members for names such as "toString", which browser key codes never are.
- Hud.SpeedLabels: the labels table is a plain map, for the same reason; only the four state names reach it.
- Locations.LocationManager.On: the listener lists are a plain map keyed by 'approach' and 'leave'; in JavaScript an inherited name such as "toString" passes the lookup and the push then throws, which this model does not reproduce (it ignores every other name).
- Dust.DustSystem.Update: each burst reads a three-particle draw record even when it emits only two particles, so the order of `Math.random` draws across bursts is not the source's.
- Only the trees are modelled in the vegetation: the bushes, rocks, grass clumps, grass blades and flowers are left out. They run the same attempt loop (`Vegetation.PlaceInstanced`) with other constants, or plain loops without attempts.
- The pool size and emission interval depend on whether the device has touch. The model takes this as a constructor parameter instead of reading `window`.
- The instance matrix of a placed tree is kept as its position, uniform scale and yaw, not as a 4×4 matrix.
