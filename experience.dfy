/** The game's quest and interaction state machine (src/Experience.js):
    the singleton, the quest transitions, the approach/leave handlers, the
    interact decision, the info panel's choose and continue handlers, the
    restart branch of the celebration, and the quest hint of the frame
    update. The screens themselves (banner, prompt, panel, celebration) are
    DOM and appear here only as the state the handlers read and write. */
module Experiences {
  import opened Common
  import opened Constants
  import Camera
  import HorseControl
  import Locations
  import Hud

  /** `questState`: 'none', 'quest1', 'quest2' or 'complete'. */
  datatype QuestState = NoQuest | Quest1 | Quest2 | Complete

  /** The closure `doInteract` hands to `playCinematic`: it shows the info
      panel for the location being visited. */
  const SHOW_PANEL: ListenerId := 0

  /** The three outcomes `_celebrate` shows. */
  datatype Verdict = QuestCompleted | EthicalElsewhere | Unethical

  /** What the restart button's listener captured: the quest state right
      after the choice and whether the chosen pension was ethical. */
  datatype Restart = Restart(saved: QuestState, ethical: bool)

  /** `config.ethical` of the PENSIONS entry with that key; a key outside
      the registry (which the locations never produce) counts as not
      ethical. */
  predicate EthicalKey(key: string)
  {
    FindPension(key).Some? && FindPension(key).value.ethical
  }

  /** The quest the restart button resumes. */
  function RestartQuest(saved: QuestState, lastViewed: Option<string>, ethical: bool): (q: QuestState)
    ensures q == Quest1 || q == Quest2
  {
    if saved == Quest1 then
      if lastViewed == Some("showpiece") then Quest2 else Quest1
    else if saved == Quest2 && !ethical then Quest2
    else Quest1
  }

  /** The restart mapping: quest 1 resumes at quest 2 once the showpiece
      was viewed; quest 2 resumes at quest 2 after an unethical choice; a
      completed or unstarted game and an ethical quest-2 choice restart at
      quest 1. Progress is never lost: a quest-2 save never drops back to
      quest 1 unless the choice was ethical. */
  lemma RestartMapping(saved: QuestState, lastViewed: Option<string>, ethical: bool)
    ensures saved == Quest1 ==> (RestartQuest(saved, lastViewed, ethical) == Quest2 <==> lastViewed == Some("showpiece"))
    ensures saved == Quest2 ==> (RestartQuest(saved, lastViewed, ethical) == Quest2 <==> !ethical)
    ensures saved == Complete || saved == NoQuest ==> RestartQuest(saved, lastViewed, ethical) == Quest1
  {
  }

  /** The quest hint `_update` passes to the HUD. */
  function QuestHintFor(q: QuestState): Option<Hud.QuestHint>
  {
    match q
    case Quest1 => Some(Hud.QuestHint(Some("showpiece"), false))
    case Quest2 => Some(Hud.QuestHint(None, true))
    case _ => None
  }

  /** With the hint, the minimap marks exactly the showpiece during quest 1,
      exactly the ethical pensions during quest 2, and nothing otherwise. */
  lemma QuestHintTargets(q: QuestState, loc: Locations.WorldEntry)
    ensures Hud.IsQuestTarget(loc, QuestHintFor(q)) <==>
      (q == Quest1 && loc.key == "showpiece") || (q == Quest2 && loc.ethical)
  {
    Hud.IsQuestTargetCases(loc, QuestHintFor(q));
  }

  /** The outcome `_celebrate` reports and the quest state it leaves. */
  function Celebration(q: QuestState, ethical: bool): (QuestState, Verdict)
  {
    if q == Quest2 && ethical then (Complete, QuestCompleted)
    else if ethical then (q, EthicalElsewhere)
    else (q, Unethical)
  }

  /** Only an ethical choice during quest 2 completes the quests; every
      other choice leaves the quest state as it was. */
  lemma CelebrationCompletes(q: QuestState, ethical: bool)
    ensures Celebration(q, ethical).0 == Complete <==> (q == Quest2 && ethical) || q == Complete
    ensures Celebration(q, ethical).1 == QuestCompleted <==> q == Quest2 && ethical
    ensures !(q == Quest2 && ethical) ==> Celebration(q, ethical).0 == q
  {
  }

  /** `Experience.instance`, the one static slot of the class. */
  class InstanceSlot {
    var instance: Experience?

    constructor ()
      ensures instance == null
    {
      instance := null;
    }
  }

  /** `new Experience(canvas)`: the first call builds and records the
      experience; every later call returns that same object and builds
      nothing. */
  method Construct(slot: InstanceSlot, camera: Camera.Camera, controller: HorseControl.HorseController,
                   locations: Locations.LocationManager) returns (e: Experience)
    modifies slot
    ensures old(slot.instance) != null ==> e == old(slot.instance) && slot.instance == e
    ensures old(slot.instance) == null ==>
      && fresh(e) && slot.instance == e
      && e.camera == camera && e.controller == controller && e.locations == locations
      && !e.started && e.questState == NoQuest && e.lastViewed.None? && e.panel.None?
  {
    if slot.instance != null {
      return slot.instance;
    }
    e := new Experience(camera, controller, locations);
    slot.instance := e;
  }

  class Experience {
    const camera: Camera.Camera
    /** `world.horse.controller`. */
    const controller: HorseControl.HorseController
    /** `world.locationManager`. */
    const locations: Locations.LocationManager

    var started: bool
    var questState: QuestState
    /** `_lastViewedLocation`. */
    var lastViewed: Option<string>
    /** The info panel: the key it shows while visible, `None` while
        hidden (`isVisible` is `panel.Some?`). */
    var panel: Option<string>
    /** Whether the interaction prompt is shown. */
    var promptVisible: bool
    /** The key captured by the latest show-panel closure. */
    var cinematicKey: Option<string>
    /** The pending once-only restart listener, if a celebration is shown. */
    var pendingRestart: Option<Restart>

    /** Every cinematic the camera holds has a positive duration. */
    ghost predicate Valid()
      reads this, camera
    {
      camera.cinematic.Some? ==> camera.cinematic.value.duration > 0.0
    }

    constructor (camera: Camera.Camera, controller: HorseControl.HorseController, locations: Locations.LocationManager)
      ensures this.camera == camera && this.controller == controller && this.locations == locations
      ensures !started && questState == NoQuest && lastViewed.None? && panel.None?
      ensures !promptVisible && cinematicKey.None? && pendingRestart.None?
    {
      this.camera := camera;
      this.controller := controller;
      this.locations := locations;
      started := false;
      questState := NoQuest;
      lastViewed := None;
      panel := None;
      promptVisible := false;
      cinematicKey := None;
      pendingRestart := None;
    }

    /** The welcome screen's start: the game runs and quest 1 begins. */
    method Start()
      modifies this`started, this`questState
      ensures started && questState == Quest1
    {
      started := true;
      StartQuest1();
    }

    /** `_startQuest1`. */
    method StartQuest1()
      modifies this`questState
      ensures questState == Quest1
    {
      questState := Quest1;
    }

    /** `_startQuest2`. */
    method StartQuest2()
      modifies this`questState
      ensures questState == Quest2
    {
      questState := Quest2;
    }

    /** `_completeQuests`. */
    method CompleteQuests()
      modifies this`questState
      ensures questState == Complete
    {
      questState := Complete;
    }

    /** The location manager's `approach` listener: ignored while the info
        panel is visible; otherwise the prompt shows and the camera enters
        approach mode. */
    method OnApproach()
      modifies this`promptVisible, camera`targetOffset, camera`targetLookAtOffset
      ensures old(panel).Some? ==>
        && promptVisible == old(promptVisible)
        && camera.targetOffset == old(camera.targetOffset)
        && camera.targetLookAtOffset == old(camera.targetLookAtOffset)
      ensures old(panel).None? ==> promptVisible
      ensures old(panel).None? && camera.cinematic.None? ==>
        camera.targetOffset == CAMERA_APPROACH_OFFSET && camera.targetLookAtOffset == CAMERA_LOOK_AT_OFFSET
      ensures camera.cinematic.Some? ==>
        camera.targetOffset == old(camera.targetOffset) && camera.targetLookAtOffset == old(camera.targetLookAtOffset)
    {
      if panel.Some? {
        return;
      }
      promptVisible := true;
      camera.SetApproachMode(true);
    }

    /** The `leave` listener: the prompt hides and approach mode ends. */
    method OnLeave()
      modifies this`promptVisible, camera`targetOffset, camera`targetLookAtOffset
      ensures !promptVisible
      ensures camera.cinematic.None? ==>
        camera.targetOffset == CAMERA_OFFSET && camera.targetLookAtOffset == CAMERA_LOOK_AT_OFFSET
      ensures camera.cinematic.Some? ==>
        camera.targetOffset == old(camera.targetOffset) && camera.targetLookAtOffset == old(camera.targetLookAtOffset)
    {
      promptVisible := false;
      camera.SetApproachMode(false);
    }

    /** The `interact` input listener: a release does nothing and a press
        runs `doInteract`, with the outcomes `DoInteract` states. */
    method OnInteract(pressed: bool, now: real)
      requires Valid()
      modifies this`panel, this`promptVisible, this`lastViewed, this`cinematicKey
      modifies camera`cinematic, camera`targetOffset, camera`targetLookAtOffset
      modifies controller`speed, controller`frozen
      ensures Valid()
      ensures !pressed || !old(started) ==> unchanged(this, camera, controller)
      ensures pressed && old(started) && old(panel).Some? ==>
        && panel.None? && camera.cinematic.None? && !controller.frozen
        && camera.targetOffset == CAMERA_OFFSET && camera.targetLookAtOffset == CAMERA_LOOK_AT_OFFSET
        && lastViewed == old(lastViewed) && controller.speed == old(controller.speed)
        && promptVisible == old(promptVisible) && cinematicKey == old(cinematicKey)
      ensures pressed && old(started) && old(panel).None? && old(camera.cinematic).Some? ==> unchanged(this, camera, controller)
      ensures pressed && old(started) && old(panel).None? && old(camera.cinematic).None? ==>
        if locations.isInRange && locations.nearestLocation.Some? then
          var key := locations.nearestLocation.value.key;
          && lastViewed == Some(key) && cinematicKey == Some(key) && !promptVisible
          && controller.speed == 0.0 && controller.frozen && panel.None?
          && camera.targetOffset == old(camera.targetOffset) && camera.targetLookAtOffset == old(camera.targetLookAtOffset)
          && camera.cinematic == Some(Camera.NewCinematic(camera.m, camera.offset, camera.lookAtOffset, now, Some(SHOW_PANEL)))
        else unchanged(this, camera, controller)
    {
      if pressed {
        DoInteract(now);
      }
    }

    /** `doInteract` at time `now`. Before the start nothing happens. With
        the panel open it closes the visit: panel hidden, cinematic stopped,
        approach mode off, horse released. During a cinematic nothing
        happens. In range of a location it starts a visit: the location is
        recorded, the horse halts and freezes, and the cinematic starts with
        the show-panel closure. Otherwise nothing happens. */
    method DoInteract(now: real)
      requires Valid()
      modifies this`panel, this`promptVisible, this`lastViewed, this`cinematicKey
      modifies camera`cinematic, camera`targetOffset, camera`targetLookAtOffset
      modifies controller`speed, controller`frozen
      ensures Valid()
      ensures !old(started) ==> unchanged(this, camera, controller)
      ensures old(started) && old(panel).Some? ==>
        && panel.None? && camera.cinematic.None? && !controller.frozen
        && camera.targetOffset == CAMERA_OFFSET && camera.targetLookAtOffset == CAMERA_LOOK_AT_OFFSET
        && lastViewed == old(lastViewed) && controller.speed == old(controller.speed)
        && promptVisible == old(promptVisible) && cinematicKey == old(cinematicKey)
      ensures old(started) && old(panel).None? && old(camera.cinematic).Some? ==> unchanged(this, camera, controller)
      ensures old(started) && old(panel).None? && old(camera.cinematic).None? ==>
        if locations.isInRange && locations.nearestLocation.Some? then
          var key := locations.nearestLocation.value.key;
          && lastViewed == Some(key) && cinematicKey == Some(key) && !promptVisible
          && controller.speed == 0.0 && controller.frozen && panel.None?
          && camera.targetOffset == old(camera.targetOffset) && camera.targetLookAtOffset == old(camera.targetLookAtOffset)
          && camera.cinematic == Some(Camera.NewCinematic(camera.m, camera.offset, camera.lookAtOffset, now, Some(SHOW_PANEL)))
        else unchanged(this, camera, controller)
    {
      if !started {
        return;
      }
      if panel.Some? {
        panel := None;
        camera.StopCinematic();
        camera.SetApproachMode(false);
        controller.frozen := false;
        return;
      }
      if camera.IsCinematicActive() {
        return;
      }
      if locations.isInRange && locations.nearestLocation.Some? {
        var key := locations.nearestLocation.value.key;
        promptVisible := false;
        lastViewed := Some(key);
        controller.speed := 0.0;
        controller.frozen := true;
        cinematicKey := Some(key);
        camera.PlayCinematic(now, Some(SHOW_PANEL));
      }
    }

    /** The show-panel closure: the panel opens on the captured location. */
    method ShowPanel()
      modifies this`panel
      ensures cinematicKey.Some? ==> panel == cinematicKey
      ensures cinematicKey.None? ==> panel == old(panel)
    {
      if cinematicKey.Some? {
        panel := cinematicKey;
      }
    }

    /** The camera step at the end of `_update`: the camera steps as
        `Camera.Update` states, and when that completes a cinematic
        carrying the show-panel closure, the panel opens on the captured
        location; otherwise the panel is as it was. */
    method CameraStep(dt: real, now: real)
      requires Valid()
      modifies this`panel, camera
      ensures Valid()
      ensures !old(camera.hasTarget) ==> unchanged(camera)
      ensures old(camera.hasTarget) && old(camera.cinematic).None? ==>
        && camera.offset == LerpVec(old(camera.offset), camera.targetOffset, 2.0 * dt)
        && camera.lookAtOffset == LerpVec(old(camera.lookAtOffset), camera.targetLookAtOffset, 2.0 * dt)
        && camera.targetOffset == old(camera.targetOffset) && camera.targetLookAtOffset == old(camera.targetLookAtOffset)
        && camera.cinematic.None?
      ensures old(camera.hasTarget) && old(camera.cinematic).Some? ==>
        var cin := old(camera.cinematic).value;
        var t := Camera.Progress(now - cin.startTime, cin.duration);
        && camera.offset == Camera.OrbitOffset(camera.m, cin, Camera.EaseOut(t))
        && camera.lookAtOffset == LerpVec(cin.startLookAt, cin.endLookAt, Camera.EaseOut(t))
        && (t >= 1.0 ==> camera.targetOffset == camera.offset && camera.targetLookAtOffset == camera.lookAtOffset
                         && camera.cinematic.None?)
        && (t < 1.0 ==> camera.targetOffset == old(camera.targetOffset)
                        && camera.targetLookAtOffset == old(camera.targetLookAtOffset)
                        && camera.cinematic == old(camera.cinematic))
      ensures old(camera.hasTarget) ==>
        && camera.hasTarget && camera.targetSpeedRatio == old(camera.targetSpeedRatio)
        && camera.smoothShake == Lerp(old(camera.smoothShake), camera.targetSpeedRatio, 3.0 * dt)
        && camera.smoothFov == Lerp(old(camera.smoothFov), CAMERA_FOV + camera.smoothShake * 7.0, 3.0 * dt)
        && camera.fov == (if Abs(old(camera.fov) - camera.smoothFov) > 0.05 then camera.smoothFov else old(camera.fov))
        && camera.shakeTime == old(camera.shakeTime) + dt * (8.0 + camera.smoothShake * 12.0)
      ensures var cin := old(camera.cinematic);
        if old(camera.hasTarget) && cin.Some? && cin.value.callback == Some(SHOW_PANEL)
           && Camera.Progress(now - cin.value.startTime, cin.value.duration) >= 1.0 && cinematicKey.Some?
        then panel == cinematicKey
        else panel == old(panel)
    {
      var called := camera.Update(dt, now);
      if called == Some(SHOW_PANEL) {
        ShowPanel();
      }
    }

    /** The panel's continue button: the panel hides, the cinematic stops,
        approach mode ends, the horse is released, and quest 1 advances to
        quest 2 exactly when the last location viewed is the showpiece. */
    method OnContinue()
      modifies this`panel, this`questState
      modifies camera`cinematic, camera`targetOffset, camera`targetLookAtOffset, controller`frozen
      ensures panel.None? && camera.cinematic.None? && !controller.frozen
      ensures camera.targetOffset == CAMERA_OFFSET && camera.targetLookAtOffset == CAMERA_LOOK_AT_OFFSET
      ensures old(questState) == Quest1 && lastViewed == Some("showpiece") ==> questState == Quest2
      ensures !(old(questState) == Quest1 && lastViewed == Some("showpiece")) ==> questState == old(questState)
    {
      panel := None;
      camera.StopCinematic();
      camera.SetApproachMode(false);
      controller.frozen := false;
      if questState == Quest1 && lastViewed == Some("showpiece") {
        StartQuest2();
      }
    }

    /** The panel's choose button, for the location the panel shows: the
        cinematic stops, the horse is released and the celebration runs. */
    method OnChoose() returns (verdict: Verdict)
      requires panel.Some?
      modifies this`panel, this`promptVisible, this`questState, this`pendingRestart
      modifies camera`cinematic, camera`targetOffset, camera`targetLookAtOffset, controller`frozen
      ensures var ethical := EthicalKey(old(panel).value);
        && (questState, verdict) == Celebration(old(questState), ethical)
        && pendingRestart == Some(Restart(questState, ethical))
      ensures panel.None? && !promptVisible && camera.cinematic.None? && !controller.frozen
      ensures camera.targetOffset == CAMERA_OFFSET && camera.targetLookAtOffset == CAMERA_LOOK_AT_OFFSET
    {
      var ethical := EthicalKey(panel.value);
      camera.StopCinematic();
      controller.frozen := false;
      verdict := Celebrate(ethical);
    }

    /** The state part of `_celebrate(config)`: panel and prompt hide, an
        ethical choice in quest 2 completes the quests, and the restart
        listener captures the resulting quest state. */
    method Celebrate(ethical: bool) returns (verdict: Verdict)
      modifies this`panel, this`promptVisible, this`questState, this`pendingRestart
      ensures (questState, verdict) == Celebration(old(questState), ethical)
      ensures panel.None? && !promptVisible
      ensures pendingRestart == Some(Restart(questState, ethical))
    {
      panel := None;
      promptVisible := false;
      if questState == Quest2 && ethical {
        CompleteQuests();
        verdict := QuestCompleted;
      } else if ethical {
        verdict := EthicalElsewhere;
      } else {
        verdict := Unethical;
      }
      pendingRestart := Some(Restart(questState, ethical));
    }

    /** The restart button's once-only listener: the horse returns to the
        origin facing forward at rest, approach mode ends, and the quest
        resumes as `RestartQuest` maps the captured state. Without a pending
        listener the click does nothing. */
    method OnRestart()
      modifies this`questState, this`pendingRestart
      modifies camera`targetOffset, camera`targetLookAtOffset
      modifies controller`speed, controller`currentRotation, controller.mesh`px, controller.mesh`py, controller.mesh`pz
      ensures old(pendingRestart).None? ==> unchanged(this, camera, controller, controller.mesh)
      ensures old(pendingRestart).Some? ==>
        && questState == RestartQuest(old(pendingRestart).value.saved, lastViewed, old(pendingRestart).value.ethical)
        && pendingRestart.None?
        && controller.speed == 0.0 && controller.currentRotation == 0.0
        && controller.mesh.px == 0.0 && controller.mesh.py == 0.0 && controller.mesh.pz == 0.0
        && (camera.cinematic.None? ==>
              camera.targetOffset == CAMERA_OFFSET && camera.targetLookAtOffset == CAMERA_LOOK_AT_OFFSET)
        && (camera.cinematic.Some? ==>
              camera.targetOffset == old(camera.targetOffset)
              && camera.targetLookAtOffset == old(camera.targetLookAtOffset))
    {
      if pendingRestart.None? {
        return;
      }
      var r := pendingRestart.value;
      pendingRestart := None;
      camera.SetApproachMode(false);
      controller.mesh.px, controller.mesh.py, controller.mesh.pz := 0.0, 0.0, 0.0;
      controller.currentRotation := 0.0;
      controller.speed := 0.0;
      if r.saved == Quest1 {
        if lastViewed == Some("showpiece") {
          StartQuest2();
        } else {
          StartQuest1();
        }
      } else if r.saved == Quest2 && !r.ethical {
        StartQuest2();
      } else {
        StartQuest1();
      }
    }

    /** The game part of `_update` (the world and camera steps are modelled
        with their own classes): once the game has started and the world is
        ready, the HUD receives the quest hint and the camera the horse's
        speed as a fraction of the gallop speed. */
    method FrameUpdate(worldReady: bool) returns (hint: Option<Hud.QuestHint>)
      modifies camera`targetSpeedRatio
      ensures started && worldReady ==> hint == QuestHintFor(questState)
      ensures hint.Some? <==> started && worldReady && (questState == Quest1 || questState == Quest2)
      ensures started && worldReady ==>
        && 0.0 <= camera.targetSpeedRatio <= 1.0
        && (Abs(controller.speed) <= GALLOP_SPEED ==> camera.targetSpeedRatio * GALLOP_SPEED == Abs(controller.speed))
      ensures !(started && worldReady) ==> camera.targetSpeedRatio == old(camera.targetSpeedRatio)
    {
      hint := None;
      if started && worldReady {
        if questState == Quest1 {
          hint := Some(Hud.QuestHint(Some("showpiece"), false));
        } else if questState == Quest2 {
          hint := Some(Hud.QuestHint(None, true));
        }
        camera.SetSpeedRatio(Abs(controller.speed) / GALLOP_SPEED);
      }
    }
  }
}
