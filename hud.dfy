/** The decision logic of the heads-up display (src/ui/HUD.js): which
    minimap dots mark a quest target, how large they are drawn, and the
    label shown for each movement state. The canvas drawing itself is not
    modelled. */
module Hud {
  import opened Common
  import HorseControl
  import Locations

  /** The quest hint `_update` hands to the HUD: either a target key
      (`{ targetKey }`) or the ethical flag (`{ targetEthical }`). The
      absent property of the JavaScript object is `None` / `false`. */
  datatype QuestHint = QuestHint(targetKey: Option<string>, targetEthical: bool)

  /** JavaScript truthiness of an optional string: present and non-empty. */
  predicate Truthy(s: Option<string>)
  {
    s.Some? && s.value != ""
  }

  /** `_isQuestTarget(loc, questHint)`. */
  predicate IsQuestTarget(loc: Locations.WorldEntry, hint: Option<QuestHint>)
  {
    if hint.None? then false
    else if Truthy(hint.value.targetKey) && hint.value.targetKey.value == loc.key then true
    else if hint.value.targetEthical && loc.ethical then true
    else false
  }

  /** The four cases of `_isQuestTarget`: no hint marks nothing; a location
      is a target exactly when its key is the hinted key or it is ethical
      and the hint asks for ethical locations. */
  lemma IsQuestTargetCases(loc: Locations.WorldEntry, hint: Option<QuestHint>)
    ensures hint.None? ==> !IsQuestTarget(loc, hint)
    ensures hint.Some? && hint.value.targetKey == Some(loc.key) && loc.key != "" ==> IsQuestTarget(loc, hint)
    ensures hint.Some? && hint.value.targetEthical && loc.ethical ==> IsQuestTarget(loc, hint)
    ensures IsQuestTarget(loc, hint) ==>
      hint.Some? && (hint.value.targetKey == Some(loc.key) || (hint.value.targetEthical && loc.ethical))
  {
  }

  /** The radius of a location dot, in device pixels. */
  function DotRadius(isTarget: bool, dpr: real): (r: real)
    requires dpr > 0.0
    ensures r > 0.0
    ensures isTarget ==> r == 5.0 * dpr
    ensures !isTarget ==> r == 3.5 * dpr
  {
    (if isTarget then 5.0 else 3.5) * dpr
  }

  /** `_updateSpeed(state)`: `labels[state] || ''`. */
  function SpeedLabel(state: string): string
  {
    if state == "walk" then "Pas"
    else if state == "trot" then "Trot"
    else if state == "gallop" then "Galop"
    else ""
  }

  /** The name the controller's `movementState` getter returns. */
  function StateName(s: HorseControl.MovementState): string
  {
    match s
    case Idle => "idle"
    case Walk => "walk"
    case Trot => "trot"
    case Gallop => "gallop"
  }

  /** Labels of the controller's states: idle shows nothing, the moving
      states show three distinct labels, and any name the controller never
      produces shows nothing either. */
  lemma SpeedLabels(s: HorseControl.MovementState, t: HorseControl.MovementState, other: string)
    requires other !in {"idle", "walk", "trot", "gallop"}
    ensures SpeedLabel(StateName(s)) == "" <==> s == HorseControl.Idle
    ensures s != t && s != HorseControl.Idle ==> SpeedLabel(StateName(s)) != SpeedLabel(StateName(t))
    ensures SpeedLabel(StateName(HorseControl.Walk)) == "Pas"
    ensures SpeedLabel(StateName(HorseControl.Trot)) == "Trot"
    ensures SpeedLabel(StateName(HorseControl.Gallop)) == "Galop"
    ensures SpeedLabel(other) == ""
  {
  }
}
