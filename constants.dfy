/** The game's fixed configuration (src/utils/Constants.js): world size,
    terrain resolution, locomotion and camera tuning, the two proximity
    radii and the registry of pensions in declaration order. */
module Constants {
  import opened Common

  const WORLD_SIZE: real := 500.0
  const TERRAIN_SEGMENTS: nat := 128
  const TERRAIN_HEIGHT_SCALE: real := 15.0
  const TERRAIN_DETAIL_SCALE: real := 3.0

  // HORSE
  const WALK_SPEED: real := 8.0
  const TROT_SPEED: real := 14.0
  const GALLOP_SPEED: real := 32.0
  const ACCELERATION: real := 12.0
  const DECELERATION: real := 14.0
  const TURN_SPEED: real := 2.2
  const BACKWARD_FACTOR: real := 0.6

  // CAMERA
  const CAMERA_FOV: real := 55.0
  const CAMERA_OFFSET: Vec3 := Vec3(0.0, 8.0, 14.0)
  const CAMERA_LOOK_AT_OFFSET: Vec3 := Vec3(0.0, 2.0, -4.0)
  const CAMERA_LERP_SPEED: real := 5.0
  const CAMERA_APPROACH_OFFSET: Vec3 := Vec3(0.0, 5.0, 9.0)

  const INTERACTION_RADIUS: real := 20.0
  const APPROACH_RADIUS: real := 35.0

  /** One entry of PENSIONS: the fields the modelled code reads. */
  datatype Pension = Pension(key: string, name: string, x: real, z: real, color: int, ethical: bool)

  /** PENSIONS, in the order Object.keys / Object.entries yield them. */
  const PENSIONS: seq<Pension> := [
    Pension("nature", "Le Pré Sauvage", 80.0, -80.0, 0x4a7c3a, true),
    Pension("ethical_sport", "L'Écurie Bienveillante", -90.0, -60.0, 0xc77b2e, true),
    Pension("wellness", "Le Refuge Équilibre", 85.0, 70.0, 0x6b8e6b, true),
    Pension("intensive", "Le Centre Performance Élite", 0.0, 100.0, 0x8c2f2f, false),
    Pension("neglect", "La Pension du Bout du Chemin", -95.0, 40.0, 0x7a7a6a, false),
    Pension("showpiece", "Le Domaine de l'Image", -60.0, -90.0, 0xb8860b, false)
  ]

  /** The first PENSIONS entry with the given key, if any. */
  function FindPension(key: string): (r: Option<Pension>)
    ensures r.Some? ==> r.value in PENSIONS && r.value.key == key
    ensures r.None? ==> forall i :: 0 <= i < |PENSIONS| ==> PENSIONS[i].key != key
  {
    FindIn(PENSIONS, key)
  }

  function FindIn(ps: seq<Pension>, key: string): (r: Option<Pension>)
    ensures r.Some? ==> r.value in ps && r.value.key == key
    ensures r.None? ==> forall i :: 0 <= i < |ps| ==> ps[i].key != key
  {
    if ps == [] then None
    else if ps[0].key == key then Some(ps[0])
    else FindIn(ps[1..], key)
  }
}
