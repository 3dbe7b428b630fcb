/** The keyboard and touch input state (src/core/InputManager.js): which
    actions are held, the analog joystick vector, and the per-action
    listener lists that are told about every press and release. Listener
    closures are modelled as opaque ids; "calling" them is modelled by
    returning, in order, the calls an operation makes. */
module Input {
  import opened Common

  datatype Action = Forward | Left | Backward | Right | Gallop | Interact

  /** One listener invocation `fn(pressed)`. */
  datatype Call = Call(listener: ListenerId, pressed: bool)

  /** One call `_emit(action, pressed)`. */
  datatype Emission = Emission(action: Action, pressed: bool)

  /** The key codes `_mapKey` knows (AZERTY, QWERTY and arrows). */
  const KEY_CODES: set<string> := {
    "KeyZ", "KeyQ", "KeyS", "KeyD", "KeyW", "KeyA",
    "ArrowUp", "ArrowLeft", "ArrowDown", "ArrowRight",
    "ShiftLeft", "ShiftRight", "KeyE"
  }

  /** `_mapKey`: the action bound to a key code, or null. */
  function MapKey(code: string): (r: Option<Action>)
    ensures r.None? <==> code !in KEY_CODES
  {
    if code == "KeyZ" || code == "KeyW" || code == "ArrowUp" then Some(Forward)
    else if code == "KeyQ" || code == "KeyA" || code == "ArrowLeft" then Some(Left)
    else if code == "KeyS" || code == "ArrowDown" then Some(Backward)
    else if code == "KeyD" || code == "ArrowRight" then Some(Right)
    else if code == "ShiftLeft" || code == "ShiftRight" then Some(Gallop)
    else if code == "KeyE" then Some(Interact)
    else None
  }

  /** The movement actions are reachable from both keyboard layouts
      and from the arrows. */
  lemma KeyTable()
    ensures MapKey("KeyZ") == MapKey("KeyW") == MapKey("ArrowUp") == Some(Forward)
    ensures MapKey("KeyQ") == MapKey("KeyA") == MapKey("ArrowLeft") == Some(Left)
    ensures MapKey("KeyS") == MapKey("ArrowDown") == Some(Backward)
    ensures MapKey("KeyD") == MapKey("ArrowRight") == Some(Right)
    ensures MapKey("ShiftLeft") == MapKey("ShiftRight") == Some(Gallop)
    ensures MapKey("KeyE") == Some(Interact)
  {
  }

  /** Every action is reachable: a code bound to it. */
  function CodeFor(a: Action): (c: string)
    ensures c in KEY_CODES && MapKey(c) == Some(a)
  {
    match a
    case Forward => "KeyW"
    case Left => "KeyA"
    case Backward => "KeyS"
    case Right => "KeyD"
    case Gallop => "ShiftLeft"
    case Interact => "KeyE"
  }

  /** The calls made when `ids` are invoked one after the other with
      `pressed`. */
  function Notify(ids: seq<ListenerId>, pressed: bool): (r: seq<Call>)
    ensures |r| == |ids|
    ensures forall i :: 0 <= i < |ids| ==> r[i] == Call(ids[i], pressed)
  {
    if ids == [] then [] else [Call(ids[0], pressed)] + Notify(ids[1..], pressed)
  }

  /** The joystick's maximum thumb travel in pixels and its dead zone. */
  const MAX_RADIUS: real := 55.0
  const DEAD_ZONE: real := 0.35

  /** The four directional actions, in the order `resetJoystick` visits them. */
  const DIRECTIONS: seq<Action> := [Forward, Backward, Left, Right]

  /** The thumb offset after clamping to MAX_RADIUS. */
  function ClampOffset(m: Prims, dx: real, dy: real): (real, real)
  {
    var dist := m.sqrt(dx * dx + dy * dy);
    if dist > MAX_RADIUS then ((dx / dist) * MAX_RADIUS, (dy / dist) * MAX_RADIUS)
    else (dx, dy)
  }

  /** A component whose square is at most the square of a non-negative
      bound is at most that bound in magnitude. */
  lemma ComponentBelow(a: real, d: real)
    requires 0.0 <= d && a * a <= d * d
    ensures -d <= a <= d
  {
    if a > d {
      MulPos(a - d, a + d);
      assert false;
    } else if a < -d {
      MulPos(-a - d, -a + d);
      assert false;
    }
  }

  /** After clamping, each normalised component lies in [-1, 1]. */
  lemma ClampedInUnit(m: Prims, dx: real, dy: real)
    requires Sound(m)
    ensures -1.0 <= ClampOffset(m, dx, dy).0 / MAX_RADIUS <= 1.0
    ensures -1.0 <= ClampOffset(m, dx, dy).1 / MAX_RADIUS <= 1.0
  {
    SquareNonneg(dx);
    SquareNonneg(dy);
    var dist := m.sqrt(dx * dx + dy * dy);
    assert 0.0 <= dist && dist * dist == dx * dx + dy * dy;
    if dist > MAX_RADIUS {
      ComponentBelow(dx, dist);
      ComponentBelow(dy, dist);
      UnitRatio(dx, dist);
      UnitRatio(dy, dist);
    } else {
      SqrtBelow(m, dx * dx + dy * dy, MAX_RADIUS);
      SqrtBelowOrEqual(m, dx * dx + dy * dy, MAX_RADIUS);
      ComponentBelow(dx, MAX_RADIUS);
      ComponentBelow(dy, MAX_RADIUS);
    }
  }

  lemma UnitRatio(a: real, d: real)
    requires 0.0 < d && -d <= a <= d
    ensures -1.0 <= ((a / d) * MAX_RADIUS) / MAX_RADIUS <= 1.0
  {
    assert ((a / d) * MAX_RADIUS) / MAX_RADIUS == a / d;
    if a >= 0.0 {
      assert a / d <= 1.0 by { assert a <= d; }
    } else {
      assert -1.0 <= a / d by { assert -d <= a; }
    }
  }

  /** A square root at most a bound has its square at most the bound's
      square. */
  lemma SqrtBelowOrEqual(m: Prims, v: real, b: real)
    requires Sound(m) && 0.0 <= v && 0.0 <= b && m.sqrt(v) <= b
    ensures v <= b * b
  {
    var r := m.sqrt(v);
    assert 0.0 <= r && r * r == v;
    MulMono(r, r, b);
    MulMono(b, r, b);
    calc {
      v;
    == r * r;
    <= r * b;
    == b * r;
    <= b * b;
    }
  }

  /** The analog value of one normalised joystick axis. */
  function DeadZoned(n: real): (a: real)
    ensures -DEAD_ZONE <= n <= DEAD_ZONE ==> a == 0.0
    ensures a != 0.0 ==> a == n && Abs(n) > DEAD_ZONE
  {
    if Abs(n) > DEAD_ZONE then n else 0.0
  }

  class InputManager {
    /** `_keys`: the recorded state of every action ever touched. */
    var keys: map<Action, bool>
    /** `_listeners`. */
    var listeners: map<Action, seq<ListenerId>>
    /** `analog`. */
    var analogX: real
    var analogY: real

    constructor ()
      ensures keys == map[] && listeners == map[]
      ensures analogX == 0.0 && analogY == 0.0
    {
      keys := map[];
      listeners := map[];
      analogX := 0.0;
      analogY := 0.0;
    }

    /** `isPressed`: `!!this._keys[action]`. */
    function IsPressed(a: Action): (r: bool)
      reads this
      ensures r <==> a in keys && keys[a]
      ensures a !in keys ==> !r
    {
      a in keys && keys[a]
    }

    function ListenersOf(a: Action): seq<ListenerId>
      reads this
    {
      Registered(listeners, a)
    }

    /** `on`: the listener goes to the end of its action's list. */
    method On(a: Action, fn: ListenerId)
      modifies this
      ensures listeners == old(listeners)[a := old(ListenersOf(a)) + [fn]]
      ensures keys == old(keys) && analogX == old(analogX) && analogY == old(analogY)
    {
      var list := if a in listeners then listeners[a] else [];
      listeners := listeners[a := list + [fn]];
    }

    /** `_emit`: each listener of the action, in registration order. */
    method Emit(a: Action, pressed: bool) returns (calls: seq<Call>)
      ensures calls == Notify(Registered(listeners, a), pressed)
    {
      calls := [];
      if a in listeners {
        var list := listeners[a];
        for i := 0 to |list|
          invariant calls == Notify(list[..i], pressed)
        {
          NotifyAppend(list[..i], list[i], pressed);
          assert list[..i + 1] == list[..i] + [list[i]];
          calls := calls + [Call(list[i], pressed)];
        }
        assert list[..|list|] == list;
      }
    }

    /** The keydown handler. An unbound code is ignored; a bound action
        that is already held neither changes nor emits. */
    method KeyDown(code: string) returns (emitted: seq<Emission>)
      modifies this
      ensures listeners == old(listeners) && analogX == old(analogX) && analogY == old(analogY)
      ensures MapKey(code).None? ==> keys == old(keys) && emitted == []
      ensures MapKey(code).Some? && old(IsPressed(MapKey(code).value)) ==>
                keys == old(keys) && emitted == []
      ensures MapKey(code).Some? && !old(IsPressed(MapKey(code).value)) ==>
                keys == old(keys)[MapKey(code).value := true]
                && emitted == [Emission(MapKey(code).value, true)]
    {
      emitted := [];
      var action := MapKey(code);
      if action.Some? {
        var a := action.value;
        if !(a in keys && keys[a]) {
          keys := keys[a := true];
          emitted := [Emission(a, true)];
        }
      }
    }

    /** The keyup handler: a bound action is released and `false` is
        emitted even when it was not held. */
    method KeyUp(code: string) returns (emitted: seq<Emission>)
      modifies this
      ensures listeners == old(listeners) && analogX == old(analogX) && analogY == old(analogY)
      ensures MapKey(code).None? ==> keys == old(keys) && emitted == []
      ensures MapKey(code).Some? ==>
                keys == old(keys)[MapKey(code).value := false]
                && emitted == [Emission(MapKey(code).value, false)]
    {
      emitted := [];
      var action := MapKey(code);
      if action.Some? {
        var a := action.value;
        keys := keys[a := false];
        emitted := [Emission(a, false)];
      }
    }

    /** The blur handler: every recorded action becomes released, and
        nothing is emitted. */
    method Blur()
      modifies this
      ensures keys.Keys == old(keys).Keys
      ensures forall a :: !IsPressed(a)
      ensures listeners == old(listeners) && analogX == old(analogX) && analogY == old(analogY)
    {
      keys := map a | a in keys :: false;
    }

    /** `updateJoystick`, given the thumb offset from the zone centre. The
        offset is clamped to MAX_RADIUS; each axis outside the dead zone
        becomes the analog value; the four directional actions are set from
        the axes and each change is emitted, in the order forward,
        backward, left, right. */
    method UpdateJoystick(m: Prims, dx: real, dy: real) returns (emitted: seq<Emission>)
      modifies this
      ensures var (cx, cy) := ClampOffset(m, dx, dy);
              && analogX == DeadZoned(cx / MAX_RADIUS)
              && analogY == DeadZoned(cy / MAX_RADIUS)
              && keys == old(keys)[Forward := cy / MAX_RADIUS < -DEAD_ZONE]
                                  [Backward := cy / MAX_RADIUS > DEAD_ZONE]
                                  [Left := cx / MAX_RADIUS < -DEAD_ZONE]
                                  [Right := cx / MAX_RADIUS > DEAD_ZONE]
      ensures !(IsPressed(Forward) && IsPressed(Backward))
      ensures !(IsPressed(Left) && IsPressed(Right))
      ensures emitted == Edge(Forward, old(IsPressed(Forward)), IsPressed(Forward))
                       + Edge(Backward, old(IsPressed(Backward)), IsPressed(Backward))
                       + Edge(Left, old(IsPressed(Left)), IsPressed(Left))
                       + Edge(Right, old(IsPressed(Right)), IsPressed(Right))
      ensures listeners == old(listeners)
    {
      var offset := ClampOffset(m, dx, dy);
      var nx := offset.0 / MAX_RADIUS;
      var ny := offset.1 / MAX_RADIUS;
      analogX := if Abs(nx) > DEAD_ZONE then nx else 0.0;
      analogY := if Abs(ny) > DEAD_ZONE then ny else 0.0;

      var wasForward, wasBackward := IsPressed(Forward), IsPressed(Backward);
      var wasLeft, wasRight := IsPressed(Left), IsPressed(Right);
      keys := keys[Forward := ny < -DEAD_ZONE][Backward := ny > DEAD_ZONE]
                  [Left := nx < -DEAD_ZONE][Right := nx > DEAD_ZONE];
      emitted := Edge(Forward, wasForward, ny < -DEAD_ZONE) + Edge(Backward, wasBackward, ny > DEAD_ZONE)
               + Edge(Left, wasLeft, nx < -DEAD_ZONE) + Edge(Right, wasRight, nx > DEAD_ZONE);
    }

    /** `resetJoystick`: analog back to zero; each held directional action
        is released and `false` is emitted for it. */
    method ResetJoystick() returns (emitted: seq<Emission>)
      modifies this
      ensures analogX == 0.0 && analogY == 0.0
      ensures (keys, emitted) == ReleaseAll(old(keys), DIRECTIONS)
      ensures forall a :: a in DIRECTIONS ==> !IsPressed(a)
      ensures forall a :: a !in DIRECTIONS ==> IsPressed(a) == old(IsPressed(a))
      ensures listeners == old(listeners)
    {
      analogX := 0.0;
      analogY := 0.0;
      emitted := [];
      ghost var keys0 := keys;
      for i := 0 to |DIRECTIONS|
        invariant (keys, emitted) == ReleaseAll(keys0, DIRECTIONS[..i])
        invariant analogX == 0.0 && analogY == 0.0 && listeners == old(listeners)
      {
        var a := DIRECTIONS[i];
        assert DIRECTIONS[..i + 1][..i] == DIRECTIONS[..i];
        if a in keys && keys[a] {
          keys := keys[a := false];
          emitted := emitted + [Emission(a, false)];
        }
      }
      assert DIRECTIONS[..|DIRECTIONS|] == DIRECTIONS;
      ReleaseAllProps(keys0, DIRECTIONS);
    }

    /** A touch button (gallop or interact) going down or up: the state is
        set and emitted unconditionally. */
    method SetButton(a: Action, down: bool) returns (emitted: seq<Emission>)
      requires a == Gallop || a == Interact
      modifies this
      ensures keys == old(keys)[a := down]
      ensures emitted == [Emission(a, down)]
      ensures listeners == old(listeners) && analogX == old(analogX) && analogY == old(analogY)
    {
      keys := keys[a := down];
      emitted := [Emission(a, down)];
    }
  }

  /** The listeners registered for an action (none when it has no list). */
  function Registered(listeners: map<Action, seq<ListenerId>>, a: Action): seq<ListenerId>
  {
    if a in listeners then listeners[a] else []
  }

  /** What one joystick axis emits for an action: its new state when it
      changed, nothing otherwise. */
  function Edge(a: Action, was: bool, now: bool): (r: seq<Emission>)
    ensures was == now ==> r == []
    ensures was != now ==> r == [Emission(a, now)]
  {
    if now && !was then [Emission(a, true)]
    else if !now && was then [Emission(a, false)]
    else []
  }

  /** The key state and the emissions after releasing, in list order,
      each listed action that is held. */
  function ReleaseAll(keys: map<Action, bool>, dirs: seq<Action>): (map<Action, bool>, seq<Emission>)
  {
    if dirs == [] then (keys, [])
    else
      var (k, e) := ReleaseAll(keys, dirs[..|dirs| - 1]);
      var a := dirs[|dirs| - 1];
      if a in k && k[a] then (k[a := false], e + [Emission(a, false)]) else (k, e)
  }

  /** Releasing leaves every listed action released and every other one as
      it was; it emits exactly one `false` per listed action that was held,
      and nothing else. */
  lemma {:induction false} ReleaseAllProps(keys: map<Action, bool>, dirs: seq<Action>)
    ensures var (k, e) := ReleaseAll(keys, dirs);
      && (forall a :: a in dirs ==> !(a in k && k[a]))
      && (forall a :: a !in dirs ==> (a in k <==> a in keys) && (a in k ==> k[a] == keys[a]))
      && (forall x :: x in e ==> !x.pressed && x.action in dirs && x.action in keys && keys[x.action])
      && (forall a :: a in dirs && a in keys && keys[a] ==> Emission(a, false) in e)
  {
    if dirs != [] {
      var init := dirs[..|dirs| - 1];
      ReleaseAllProps(keys, init);
      var (k, e) := ReleaseAll(keys, init);
      var a := dirs[|dirs| - 1];
      assert forall b :: b in dirs <==> b in init || b == a;
      if a in init {
        assert !(a in k && k[a]);
      } else if a in keys && keys[a] {
        assert a in k && k[a];
      }
    }
  }

  lemma NotifyAppend(ids: seq<ListenerId>, id: ListenerId, pressed: bool)
    ensures Notify(ids + [id], pressed) == Notify(ids, pressed) + [Call(id, pressed)]
  {
  }
}
