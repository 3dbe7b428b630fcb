/** The horse's animation logic (src/entities/Horse.js): stripping the
    horizontal root motion from the position tracks of the loaded clips,
    the guarded switches between actions, emotes, and the choice of gait
    animation from the speed the controller reached. Model loading,
    materials and the mixer's blending are not modelled; `Math.random`
    draws are parameters in [0, 1). */
module Horses {
  import opened Common

  const IDLE: string := "Horse|AA Horse_Idle_01_Horse"
  const IDLE2: string := "Horse|AS_Horse_Idle_02_Horse"
  const IDLE3: string := "Horse|AS_Horse_Idle_03_Horse"
  const IDLE4: string := "Horse|AS_Horse_Idle_04_Horse"
  const WALK: string := "Horse|AS_Horse_G0_Walk_Horse"
  const TROT: string := "Horse|AS_Horse_G1_Trot_Horse"
  const CANTER: string := "Horse|AS_Horse_G2_Canter_Horse"
  const GALLOP: string := "Horse|AS_Horse_G3_Gallop_Horse"
  const SPRINT: string := "Horse|AS_Horse_G4_Sprint_Horse"

  /** `ANIM`: the short names `playEmote` accepts and their clips. */
  const ANIM: map<string, string> := map[
    "idle" := IDLE, "idle2" := IDLE2, "idle3" := IDLE3, "idle4" := IDLE4,
    "walk" := WALK, "trot" := TROT, "canter" := CANTER, "gallop" := GALLOP, "sprint" := SPRINT,
    "fidget1" := "Horse|AS_Horse_Idle_Fidget_01_Horse",
    "fidget2" := "Horse|AS_Horse_Idle_Fidget_02_Horse",
    "fidget3" := "Horse|AS_Horse_Idle_Fidget_03_Horse",
    "fidget4" := "Horse|AS_Horse_Idle_Fidget_04_Horse",
    "fidget5" := "Horse|AS_Horse_Idle_Fidget_05_Horse",
    "fidget6" := "Horse|AS_Horse_Idle_Fidget_06_Horse",
    "fidget7" := "Horse|AS_Horse_Idle_Fidget_07_Horse",
    "fidget8" := "Horse|AS_Horse_Idle_Fidget_08_Horse",
    "fidget9" := "Horse|AS_Horse_Idle_Fidget_09_Horse",
    "pet" := "Horse|AS_Horse_Idle_Pet_01_Horse",
    "rear" := "Horse|AS_Horse_Incline_Pose_01_Horse",
    "jump" := "Horse|AS_Horse_Jump_G2_Canter_Horse"
  ]

  /** `IDLE_POOL`: the plain idle counts twice. */
  const IDLE_POOL: seq<string> := [
    IDLE, IDLE, IDLE2, IDLE3, IDLE4,
    "Horse|AS_Horse_Idle_Fidget_01_Horse", "Horse|AS_Horse_Idle_Fidget_02_Horse",
    "Horse|AS_Horse_Idle_Fidget_03_Horse", "Horse|AS_Horse_Idle_Fidget_04_Horse",
    "Horse|AS_Horse_Idle_Fidget_05_Horse", "Horse|AS_Horse_Idle_Fidget_06_Horse",
    "Horse|AS_Horse_Idle_Fidget_07_Horse", "Horse|AS_Horse_Idle_Fidget_08_Horse",
    "Horse|AS_Horse_Idle_Fidget_09_Horse"
  ]

  /** `ROOT_BONE_NAMES`. */
  const ROOT_BONE_NAMES: seq<string> := ["root_04", "pelvis_05"]

  // ---------------------------------------------------------------------
  // Root-motion stripping

  /** A position track with x, z flattened onto the first key's x and z:
      the specification of the in-place loop. */
  function Stripped(s: seq<real>): (r: seq<real>)
    requires |s| % 3 == 0
    ensures |r| == |s|
  {
    seq(|s|, k requires 0 <= k < |s| => if k % 3 == 0 then s[0] else if k % 3 == 2 then s[2] else s[k])
  }

  /** Every key keeps its y, takes the first key's x and z, and stripping
      twice changes nothing more. */
  lemma StrippedProps(s: seq<real>)
    requires |s| % 3 == 0
    ensures forall k :: 0 <= k < |s| && k % 3 == 1 ==> Stripped(s)[k] == s[k]
    ensures forall k :: 0 <= k < |s| && k % 3 == 0 ==> Stripped(s)[k] == s[0]
    ensures forall k :: 0 <= k < |s| && k % 3 == 2 ==> Stripped(s)[k] == s[2]
    ensures Stripped(Stripped(s)) == Stripped(s)
  {
    var t := Stripped(s);
    if |s| > 0 {
      assert t[0] == s[0] && t[2] == s[2];
    }
    assert forall k :: 0 <= k < |s| ==> Stripped(t)[k] == t[k];
  }

  /** A keyframe track: its name and its flat xyz value buffer. */
  class Track {
    const name: string
    const values: array<real>

    constructor (name: string, values: array<real>)
      ensures this.name == name && this.values == values
    {
      this.name := name;
      this.values := values;
    }
  }

  /** `lastIndexOf('.')`, or -1 without a dot. */
  function LastDot(s: string): (i: int)
    ensures -1 <= i < |s|
    ensures i >= 0 ==> s[i] == '.'
    ensures forall k :: i < k < |s| ==> s[k] != '.'
  {
    if s == [] then -1
    else if s[|s| - 1] == '.' then |s| - 1
    else LastDot(s[..|s| - 1])
  }

  /** The property a track animates (after the last dot) and its target
      (before it; empty without a dot, as `substring(0, -1)` is). */
  function SplitTrackName(s: string): (string, string)
  {
    var d := LastDot(s);
    if d < 0 then (s, "") else (s[d + 1..], s[..d])
  }

  /** The root bones present among the model's node names. */
  function RootBones(nodeNames: seq<string>): set<string>
  {
    set n | n in nodeNames && n in ROOT_BONE_NAMES
  }

  /** Whether a track is the position track of a present root bone. */
  predicate IsRootPosition(trackName: string, roots: set<string>)
  {
    SplitTrackName(trackName).0 == "position" && SplitTrackName(trackName).1 in roots
  }

  /** The last dot of `target.prop`, for a property name without dots, is
      the one joining them. */
  lemma {:induction false} LastDotJoin(target: string, prop: string)
    requires forall k :: 0 <= k < |prop| ==> prop[k] != '.'
    ensures LastDot(target + "." + prop) == |target|
  {
    var s := target + "." + prop;
    if prop == [] {
      assert s[|s| - 1] == '.';
    } else {
      assert s[..|s| - 1] == target + "." + prop[..|prop| - 1];
      LastDotJoin(target, prop[..|prop| - 1]);
    }
  }

  /** Splitting a track name undoes joining its target and property. */
  lemma SplitJoin(target: string, prop: string)
    requires forall k :: 0 <= k < |prop| ==> prop[k] != '.'
    ensures SplitTrackName(target + "." + prop) == (prop, target)
  {
    var s := target + "." + prop;
    LastDotJoin(target, prop);
    assert s[|target| + 1..] == prop;
    assert s[..|target|] == target;
  }

  /** A track `target.prop` is stripped exactly when it animates the
      position of a root bone the model has. */
  lemma RootPositionTracks(target: string, prop: string, nodeNames: seq<string>)
    requires forall k :: 0 <= k < |prop| ==> prop[k] != '.'
    ensures IsRootPosition(target + "." + prop, RootBones(nodeNames)) <==>
      prop == "position" && target in nodeNames && target in ROOT_BONE_NAMES
  {
    SplitJoin(target, prop);
  }

  /** The inner loop of `_stripRootMotion` on one track's buffer. */
  method StripTrack(values: array<real>)
    requires values.Length % 3 == 0
    modifies values
    ensures values[..] == Stripped(old(values[..]))
  {
    if values.Length == 0 {
      return;
    }
    var bindX := values[0];
    var bindZ := values[2];
    ghost var s := values[..];
    var i := 0;
    while i < values.Length
      invariant 0 <= i <= values.Length && i % 3 == 0
      invariant forall k :: 0 <= k < i ==> values[k] == Stripped(s)[k]
      invariant forall k :: i <= k < values.Length ==> values[k] == s[k]
    {
      values[i] := bindX;
      values[i + 2] := bindZ;
      i := i + 3;
    }
    assert values[..] == Stripped(s);
  }

  /** Track `i` shares its value buffer with a root-position track among
      the first `n`. glTF loaders hand channels that read one accessor the
      same buffer, so a track may be rewritten through another one. */
  predicate StrippedThrough(tracks: seq<Track>, i: nat, n: nat, roots: set<string>)
    requires i < |tracks| && n <= |tracks|
  {
    exists j :: 0 <= j < n && tracks[j].values == tracks[i].values && IsRootPosition(tracks[j].name, roots)
  }

  /** `_stripRootMotion` over the tracks of every clip: a buffer that some
      position track of a present root bone uses is stripped, once however
      many such tracks share it, and every other buffer is left as it was. */
  method StripRootMotion(tracks: seq<Track>, nodeNames: seq<string>)
    requires forall i :: 0 <= i < |tracks| && IsRootPosition(tracks[i].name, RootBones(nodeNames)) ==>
      tracks[i].values.Length % 3 == 0
    modifies set t | t in tracks :: t.values
    ensures forall i :: 0 <= i < |tracks| ==>
      tracks[i].values[..] ==
        if StrippedThrough(tracks, i, |tracks|, RootBones(nodeNames)) then Stripped(old(tracks[i].values[..]))
        else old(tracks[i].values[..])
  {
    var roots := RootBones(nodeNames);
    for n := 0 to |tracks|
      invariant forall i :: 0 <= i < |tracks| ==>
        tracks[i].values[..] ==
          if StrippedThrough(tracks, i, n, roots) then Stripped(old(tracks[i].values[..]))
          else old(tracks[i].values[..])
    {
      var b := tracks[n].values;
      if IsRootPosition(tracks[n].name, roots) {
        StripTrack(b);
      }
      forall i | 0 <= i < |tracks|
        ensures tracks[i].values[..] ==
          if StrippedThrough(tracks, i, n + 1, roots) then Stripped(old(tracks[i].values[..]))
          else old(tracks[i].values[..])
      {
        ThroughStep(tracks, i, n, roots);
        if tracks[i].values == b && IsRootPosition(tracks[n].name, roots) {
          StrippedProps(old(tracks[i].values[..]));
        }
      }
    }
  }

  /** One more track scanned: track `i` is reached through the first
      `n + 1` tracks exactly when it was through the first `n`, or track
      `n` is a root-position track sharing its buffer. */
  lemma ThroughStep(tracks: seq<Track>, i: nat, n: nat, roots: set<string>)
    requires i < |tracks| && n < |tracks|
    ensures StrippedThrough(tracks, i, n + 1, roots) <==>
      StrippedThrough(tracks, i, n, roots) ||
      (tracks[n].values == tracks[i].values && IsRootPosition(tracks[n].name, roots))
  {
    if tracks[n].values == tracks[i].values && IsRootPosition(tracks[n].name, roots) {
      assert StrippedThrough(tracks, i, n + 1, roots);
    }
  }

  // ---------------------------------------------------------------------
  // Actions

  /** The mixer as the horse sees it: each loaded action's time scale by
      clip name (`_actions`), the current action (`_currentAction`, by its
      clip name) and `_currentActionName`, which an emote's end clears
      while the action stays. */
  datatype Mixer = Mixer(timeScales: map<string, real>, current: Option<string>, currentName: Option<string>)

  /** The current action is a loaded one. */
  predicate MixerValid(x: Mixer)
  {
    x.current.Some? ==> x.current.value in x.timeScales
  }

  /** `_playAction(name)`. */
  function Play(x: Mixer, name: string): (y: Mixer)
    ensures MixerValid(x) ==> MixerValid(y)
    ensures y.timeScales == x.timeScales
  {
    if Some(name) == x.currentName then x
    else if name !in x.timeScales then x
    else Mixer(x.timeScales, Some(name), Some(name))
  }

  /** `_playAction` does nothing for the current name or an unknown clip;
      otherwise the clip becomes current, by action and by name. Playing
      the same clip twice is playing it once. */
  lemma PlayGuards(x: Mixer, name: string)
    ensures x.currentName == Some(name) || name !in x.timeScales ==> Play(x, name) == x
    ensures x.currentName != Some(name) && name in x.timeScales ==>
      Play(x, name).current == Some(name) && Play(x, name).currentName == Some(name)
    ensures Play(Play(x, name), name) == Play(x, name)
  {
  }

  /** `_setTimeScale(value)`. */
  function Scale(x: Mixer, v: real): (y: Mixer)
    requires MixerValid(x)
    ensures MixerValid(y)
    ensures y.current == x.current && y.currentName == x.currentName
    ensures y.timeScales.Keys == x.timeScales.Keys
  {
    if x.current.Some? && Abs(x.timeScales[x.current.value] - v) > 0.01 then
      Mixer(x.timeScales[x.current.value := v], x.current, x.currentName)
    else x
  }

  /** The time scale is written only when it moves by more than 0.01, only
      on the current action, and a second identical write does nothing. */
  lemma ScaleGuards(x: Mixer, v: real)
    requires MixerValid(x)
    ensures x.current.None? ==> Scale(x, v) == x
    ensures x.current.Some? ==>
      var c := x.current.value;
      && (Abs(x.timeScales[c] - v) <= 0.01 ==> Scale(x, v) == x)
      && (Abs(x.timeScales[c] - v) > 0.01 ==> Scale(x, v).timeScales[c] == v)
      && (forall k :: k in x.timeScales && k != c ==> Scale(x, v).timeScales[k] == x.timeScales[k])
    ensures Scale(Scale(x, v), v) == Scale(x, v)
  {
  }

  /** The animation a moving horse plays and its time scale, or rest. */
  datatype Gait = Moving(clip: string, scale: real) | Resting

  /** Whether the horse turns: a turn key, or the stick beyond 0.25. */
  predicate Turning(left: bool, right: bool, analogX: real)
  {
    left || right || Abs(analogX) > 0.25
  }

  /** The speed bands of `update`, by absolute speed. */
  function GaitFor(speed: real, turning: bool): Gait
  {
    if speed > 20.0 then Moving(SPRINT, Clamp(speed / 22.0, 0.8, 1.2))
    else if speed > 15.0 then Moving(GALLOP, Clamp(speed / 17.0, 0.7, 1.2))
    else if speed > 10.0 then Moving(TROT, Clamp(speed / 12.0, 0.6, 1.1))
    else if speed > 0.3 then Moving(WALK, Clamp(speed / 8.0, 0.5, 1.0))
    else if turning then Moving(WALK, 0.35)
    else Resting
  }

  /** The bands: above 20 sprint at a scale in [0.8, 1.2], above 15 gallop
      in [0.7, 1.2], above 10 trot in [0.6, 1.1], above 0.3 walk in
      [0.5, 1.0]; slower, a turning horse walks at 0.35 and any other
      rests. Within a band the scale follows the speed until its bound. */
  lemma GaitBands(speed: real, turning: bool)
    ensures var g := GaitFor(speed, turning);
      && (speed > 20.0 ==> g.Moving? && g.clip == SPRINT && 0.8 <= g.scale <= 1.2)
      && (15.0 < speed <= 20.0 ==> g.Moving? && g.clip == GALLOP && 0.7 <= g.scale <= 1.2)
      && (10.0 < speed <= 15.0 ==> g.Moving? && g.clip == TROT && 0.6 <= g.scale <= 1.1)
      && (0.3 < speed <= 10.0 ==> g.Moving? && g.clip == WALK && 0.5 <= g.scale <= 1.0)
      && (speed <= 0.3 && turning ==> g == Moving(WALK, 0.35))
      && (speed <= 0.3 && !turning ==> g == Resting)
      && (13.2 <= speed <= 15.0 ==> g.scale == 1.1)
      && (4.0 <= speed <= 8.0 ==> g.scale * 8.0 == speed)
  {
  }

  /** The pick among `IDLE_POOL` for a draw in [0, 1). */
  function PoolIndex(r: real): (i: nat)
    requires 0.0 <= r < 1.0
    ensures i < |IDLE_POOL|
  {
    (r * 14.0).Floor
  }

  /** `part` occurs in `s` starting at index `i`. */
  predicate OccursAt(s: string, part: string, i: nat)
  {
    i + |part| <= |s| && s[i..i + |part|] == part
  }

  /** `includes`. */
  predicate Contains(s: string, part: string)
  {
    exists i: nat :: i <= |s| && OccursAt(s, part, i)
  }

  /** Whether the resting horse must fall back to the idle clip: no current
      name, or one that is neither an idle nor a fidget. */
  predicate NeedsIdle(currentName: Option<string>)
  {
    currentName.None? || (!Contains(currentName.value, "Idle") && !Contains(currentName.value, "Fidget"))
  }

  /** Every clip of the idle pool is an idle or a fidget, so a resting
      horse keeps playing the clip it picked. */
  lemma IdlePoolKeepsPlaying()
    ensures forall i :: 0 <= i < |IDLE_POOL| ==> !NeedsIdle(Some(IDLE_POOL[i]))
  {
    forall i | 0 <= i < |IDLE_POOL|
      ensures !NeedsIdle(Some(IDLE_POOL[i]))
    {
      IdleNamed(IDLE_POOL[i]);
    }
  }

  /** A clip whose name has "Idle" after the 15-character `Horse|A?_Horse_`
      head contains "Idle". */
  lemma IdleNamed(name: string)
    requires |name| >= 19 && name[15] == 'I' && name[16] == 'd' && name[17] == 'l' && name[18] == 'e'
    ensures Contains(name, "Idle")
  {
    assert name[15..19] == "Idle";
    assert OccursAt(name, "Idle", 15);
  }

  class Horse {
    /** `_ready`: the model has loaded. */
    var ready: bool
    /** `_emoting`. */
    var emoting: bool
    /** The clip of the emote whose `finished` listener is registered. */
    var emoteAction: Option<string>
    var idleTimer: real
    var idleInterval: real
    var mixer: Mixer

    /** The idle interval is in [4, 10), the current action is loaded, and
        an emote in progress has its listener. */
    ghost predicate Valid()
      reads this
    {
      && 4.0 <= idleInterval < 10.0
      && MixerValid(mixer)
      && (emoting ==> emoteAction.Some?)
    }

    /** `new Horse(...)` with the draw `r` for the first idle interval. */
    constructor (r: real)
      requires 0.0 <= r < 1.0
      ensures Valid()
      ensures !ready && !emoting && idleTimer == 0.0 && idleInterval == 4.0 + r * 3.0
      ensures mixer == Mixer(map[], None, None)
    {
      ready := false;
      emoting := false;
      emoteAction := None;
      idleTimer := 0.0;
      idleInterval := 4.0 + r * 3.0;
      mixer := Mixer(map[], None, None);
    }

    /** The end of `load`: one action per clip, at the time scale 1 a new
        action starts with, the idle clip played when there are clips,
        then ready. */
    method FinishLoad(clipNames: seq<string>)
      requires Valid()
      modifies this`mixer, this`ready
      ensures Valid() && ready
      ensures mixer.timeScales.Keys == old(mixer.timeScales.Keys) + set n | n in clipNames
      ensures forall n :: n in clipNames ==> mixer.timeScales[n] == 1.0
      ensures forall n :: n in old(mixer.timeScales) && n !in clipNames ==> mixer.timeScales[n] == old(mixer.timeScales[n])
      ensures clipNames == [] ==> mixer == old(mixer)
      ensures clipNames != [] && old(mixer.currentName) != Some(IDLE) && IDLE in clipNames ==>
        mixer.current == Some(IDLE) && mixer.currentName == Some(IDLE)
      ensures IDLE !in clipNames && IDLE !in old(mixer.timeScales) ==>
        mixer.current == old(mixer.current) && mixer.currentName == old(mixer.currentName)
    {
      if |clipNames| > 0 {
        var scales := mixer.timeScales;
        for i := 0 to |clipNames|
          invariant scales.Keys == mixer.timeScales.Keys + set n | n in clipNames[..i]
          invariant forall n :: n in clipNames[..i] ==> scales[n] == 1.0
          invariant forall n :: n in mixer.timeScales && n !in clipNames[..i] ==> scales[n] == mixer.timeScales[n]
        {
          scales := scales[clipNames[i] := 1.0];
        }
        assert clipNames[..|clipNames|] == clipNames;
        mixer := Mixer(scales, mixer.current, mixer.currentName);
        PlayAction(IDLE);
      }
      ready := true;
    }

    /** `_playAction(name)`. */
    method PlayAction(name: string)
      requires Valid()
      modifies this`mixer
      ensures Valid()
      ensures mixer == Play(old(mixer), name)
    {
      if Some(name) == mixer.currentName {
        return;
      }
      if name !in mixer.timeScales {
        return;
      }
      mixer := Mixer(mixer.timeScales, Some(name), Some(name));
    }

    /** `_setTimeScale(value)`. */
    method SetTimeScale(value: real)
      requires Valid()
      modifies this`mixer
      ensures Valid()
      ensures mixer == Scale(old(mixer), value)
    {
      if mixer.current.Some? && Abs(mixer.timeScales[mixer.current.value] - value) > 0.01 {
        mixer := Mixer(mixer.timeScales[mixer.current.value := value], mixer.current, mixer.currentName);
      }
    }

    /** `playEmote(emoteName)`: nothing before the model is ready, during
        another emote, or for a name without a loaded clip; otherwise the
        emote's clip becomes current and the horse is emoting until it
        finishes. */
    method PlayEmote(emoteName: string)
      requires Valid()
      modifies this`emoting, this`emoteAction, this`mixer
      ensures Valid()
      ensures !old(ready) || old(emoting) || emoteName !in ANIM || ANIM[emoteName] !in old(mixer.timeScales) ==>
        emoting == old(emoting) && emoteAction == old(emoteAction) && mixer == old(mixer)
      ensures old(ready) && !old(emoting) && emoteName in ANIM && ANIM[emoteName] in old(mixer.timeScales) ==>
        var clip := ANIM[emoteName];
        emoting && emoteAction == Some(clip) && mixer == Mixer(old(mixer.timeScales), Some(clip), Some(clip))
    {
      if !ready || emoting {
        return;
      }
      if emoteName !in ANIM {
        return;
      }
      var clip := ANIM[emoteName];
      if clip !in mixer.timeScales {
        return;
      }
      emoting := true;
      mixer := Mixer(mixer.timeScales, Some(clip), Some(clip));
      emoteAction := Some(clip);
    }

    /** The mixer's `finished` event for `action`: the end of the emote
        releases the horse, clears the current name and plays the idle
        clip; any other action's end is ignored. */
    method OnFinished(action: string)
      requires Valid()
      modifies this`emoting, this`emoteAction, this`mixer
      ensures Valid()
      ensures old(emoteAction) == Some(action) ==>
        && !emoting && emoteAction.None?
        && mixer == Play(Mixer(old(mixer.timeScales), old(mixer.current), None), IDLE)
      ensures old(emoteAction) != Some(action) ==>
        emoting == old(emoting) && emoteAction == old(emoteAction) && mixer == old(mixer)
    {
      if emoteAction == Some(action) {
        emoteAction := None;
        emoting := false;
        mixer := Mixer(mixer.timeScales, mixer.current, None);
        PlayAction(IDLE);
      }
    }

    /** The animation part of `update(dt)` once the controller has moved
        the horse to `speed`, with the turn inputs and two random draws.
        Before loading and during an emote nothing changes. A moving or
        turning horse plays its gait at its scale and resets the idle
        timer; a resting one accumulates idle time, and when the interval
        is reached picks an idle clip and draws a new interval in [4, 10),
        otherwise falls back to the idle clip unless an idle or fidget is
        playing. */
    method Update(dt: real, speed: real, left: bool, right: bool, analogX: real, r1: real, r2: real)
      requires Valid()
      requires 0.0 <= r1 < 1.0 && 0.0 <= r2 < 1.0
      modifies this`idleTimer, this`idleInterval, this`mixer
      ensures Valid()
      ensures !ready || emoting ==> unchanged(this)
      ensures ready && !emoting ==>
        var g := GaitFor(Abs(speed), Turning(left, right, analogX));
        if g.Moving? then
          && mixer == Scale(Play(old(mixer), g.clip), g.scale)
          && idleTimer == 0.0 && idleInterval == old(idleInterval)
        else if old(idleTimer) + dt >= old(idleInterval) then
          && idleTimer == 0.0 && idleInterval == 4.0 + r1 * 6.0
          && mixer == Play(old(mixer), IDLE_POOL[PoolIndex(r2)])
        else
          && idleTimer == old(idleTimer) + dt && idleInterval == old(idleInterval)
          && mixer == (if NeedsIdle(old(mixer.currentName)) then Play(old(mixer), IDLE) else old(mixer))
    {
      if !ready || emoting {
        return;
      }
      var g := GaitFor(Abs(speed), Turning(left, right, analogX));
      if g.Moving? {
        PlayAction(g.clip);
        SetTimeScale(g.scale);
        idleTimer := 0.0;
      } else {
        idleTimer := idleTimer + dt;
        if idleTimer >= idleInterval {
          idleTimer := 0.0;
          idleInterval := 4.0 + r1 * 6.0;
          PlayAction(IDLE_POOL[PoolIndex(r2)]);
        } else if NeedsIdle(mixer.currentName) {
          PlayAction(IDLE);
        }
      }
    }
  }
}
