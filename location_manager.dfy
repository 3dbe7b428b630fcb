/** The proximity tracker (src/locations/LocationManager.js): one location
    per pension, the nearest one to the horse, the in-range flag with its
    `approach` and `leave` edges, and the cached minimap data. */
module Locations {
  import opened Common
  import opened Constants
  import Terrain

  /** The event names `on` accepts. */
  const EVENTS: set<string> := {"approach", "leave", "nearest"}

  /** The `closest` record `{ key, location, distance }`; the location is
      identified by its registry index. */
  datatype Entry = Entry(key: string, index: nat, distance: real)

  /** One listener invocation `fn(entry)`. */
  datatype Delivery = Delivery(listener: ListenerId, entry: Entry)

  /** One element of `getLocationsWorldData()`. */
  datatype WorldEntry = WorldEntry(key: string, name: string, color: string, ethical: bool, x: real, z: real)

  /** `Vector3.distanceTo`. */
  function DistanceTo(m: Prims, a: Vec3, b: Vec3): real
  {
    var dx := a.x - b.x;
    var dy := a.y - b.y;
    var dz := a.z - b.z;
    m.sqrt(dx * dx + dy * dy + dz * dz)
  }

  /** The index the scan settles on: a later location replaces the current
      choice only when it is strictly closer; None for no locations. */
  function ClosestIndex(ds: seq<real>): (r: Option<nat>)
    ensures r.Some? ==> r.value < |ds|
  {
    if |ds| == 0 then None
    else
      var c := ClosestIndex(ds[..|ds| - 1]);
      if c.None? || ds[|ds| - 1] < ds[c.value] then Some(|ds| - 1) else c
  }

  /** The scan finds a minimum, and on ties the earliest one. */
  lemma {:induction false} ClosestIsFirstMinimum(ds: seq<real>)
    ensures ClosestIndex(ds).None? <==> |ds| == 0
    ensures ClosestIndex(ds).Some? ==>
      var i := ClosestIndex(ds).value;
      && i < |ds|
      && (forall j :: 0 <= j < |ds| ==> ds[i] <= ds[j])
      && (forall j :: 0 <= j < i ==> ds[i] < ds[j])
  {
    if |ds| > 0 {
      var init := ds[..|ds| - 1];
      ClosestIsFirstMinimum(init);
      var c := ClosestIndex(init);
      if c.Some? {
        assert forall j :: 0 <= j < |init| ==> ds[j] == init[j];
      }
    }
  }

  /** The entry for a registry index and its distance. */
  function EntryAt(i: nat, ds: seq<real>): Entry
    requires i < |ds| && i < |PENSIONS|
  {
    Entry(PENSIONS[i].key, i, ds[i])
  }

  /** The closest entry, as `update` builds it. */
  function ClosestEntry(ds: seq<real>): (r: Option<Entry>)
    requires |ds| <= |PENSIONS|
    ensures r.Some? <==> |ds| > 0
    ensures r.Some? ==>
      r.value.index < |ds| && r.value.distance == ds[r.value.index] && r.value.key == PENSIONS[r.value.index].key
  {
    ClosestIsFirstMinimum(ds);
    var c := ClosestIndex(ds);
    if c.None? then None else Some(EntryAt(c.value, ds))
  }

  /** The new `isInRange` and `nearestLocation` for a closest entry: in
      range below the interaction radius; out of range, the entry is kept
      only below the approach radius. Nothing depends on the old state. */
  function Classify(closest: Option<Entry>): (bool, Option<Entry>)
  {
    if closest.Some? && closest.value.distance < INTERACTION_RADIUS then (true, closest)
    else (false, if closest.Some? && closest.value.distance < APPROACH_RADIUS then closest else None)
  }

  lemma ClassifyProps(closest: Option<Entry>)
    ensures Classify(closest).0 <==> closest.Some? && closest.value.distance < INTERACTION_RADIUS
    ensures Classify(closest).0 ==> Classify(closest).1 == closest
    ensures !Classify(closest).0 ==>
      Classify(closest).1 == (if closest.Some? && closest.value.distance < APPROACH_RADIUS then closest else None)
    ensures Classify(closest).1.Some? ==> Classify(closest).1 == closest
  {
  }

  /** The invocations `listeners.forEach(fn => fn(entry))` makes. */
  function Deliver(ids: seq<ListenerId>, e: Entry): (r: seq<Delivery>)
    ensures |r| == |ids|
    ensures forall i :: 0 <= i < |ids| ==> r[i] == Delivery(ids[i], e)
  {
    if ids == [] then [] else [Delivery(ids[0], e)] + Deliver(ids[1..], e)
  }

  lemma DeliverAppend(ids: seq<ListenerId>, id: ListenerId, e: Entry)
    ensures Deliver(ids + [id], e) == Deliver(ids, e) + [Delivery(id, e)]
  {
    assert Deliver(ids + [id], e)[|ids|] == Delivery(id, e);
  }

  /** The listeners of an event, empty when the name is unknown. */
  function ListenersFor(listeners: map<string, seq<ListenerId>>, event: string): seq<ListenerId>
  {
    if event in listeners then listeners[event] else []
  }

  /** The events one `update` fires: `approach` with the new entry on the
      false-to-true edge, `leave` with the previous nearest entry on the
      true-to-false edge, nothing otherwise. */
  function Edges(listeners: map<string, seq<ListenerId>>, wasInRange: bool, previous: Option<Entry>,
                 inRange: bool, nearest: Option<Entry>): (r: seq<Delivery>)
    requires inRange ==> nearest.Some?
    requires wasInRange ==> previous.Some?
    ensures wasInRange == inRange ==> r == []
    ensures !wasInRange && inRange ==> r == Deliver(ListenersFor(listeners, "approach"), nearest.value)
    ensures wasInRange && !inRange ==> r == Deliver(ListenersFor(listeners, "leave"), previous.value)
  {
    if inRange && !wasInRange then Deliver(ListenersFor(listeners, "approach"), nearest.value)
    else if !inRange && wasInRange then Deliver(ListenersFor(listeners, "leave"), previous.value)
    else []
  }

  /** Hexadecimal digits of `v`, most significant first, `n` of them, as
      `Number.prototype.toString(16)` padded on the left with zeros. */
  function HexDigits(v: nat, n: nat): (s: string)
    ensures |s| == n
  {
    if n == 0 then [] else HexDigits(v / 16, n - 1) + ["0123456789abcdef"[v % 16]]
  }

  function Pow16(n: nat): (r: nat)
    ensures r > 0
  {
    if n == 0 then 1 else 16 * Pow16(n - 1)
  }

  function DigitValue(c: char): nat
  {
    if '0' <= c <= '9' then (c - '0') as nat
    else if 'a' <= c <= 'f' then (c - 'a') as nat + 10
    else 0
  }

  /** Reading hexadecimal digits back, most significant first. */
  function ParseHex(s: string): nat
  {
    if s == [] then 0 else 16 * ParseHex(s[..|s| - 1]) + DigitValue(s[|s| - 1])
  }

  /** Below 16^n the digits say exactly `v`. */
  lemma {:induction false} HexRoundTrip(v: nat, n: nat)
    requires v < Pow16(n)
    ensures ParseHex(HexDigits(v, n)) == v
  {
    if n > 0 {
      var s := HexDigits(v, n);
      assert s[..|s| - 1] == HexDigits(v / 16, n - 1);
      HexRoundTrip(v / 16, n - 1);
      var d := v % 16;
      assert DigitValue("0123456789abcdef"[d]) == d;
    }
  }

  /** `'#' + new THREE.Color(color).getHexString()`: the colour's 24 bits as
      six lower-case hexadecimal digits. */
  function HexColor(color: int): (s: string)
    ensures |s| == 7 && s[0] == '#'
  {
    "#" + HexDigits(color % 0x1000000, 6)
  }

  /** The minimap entry for one pension. */
  function WorldEntryOf(p: Pension): WorldEntry
  {
    WorldEntry(p.key, p.name, HexColor(p.color), p.ethical, p.x, p.z)
  }

  /** A 24-bit colour survives the trip through its string: the minimap
      colour names the colour it was made from. */
  lemma ColorRoundTrip(color: int)
    requires 0 <= color < 0x1000000
    ensures ParseHex(HexColor(color)[1..]) == color
  {
    Pow16Six();
    HashRoundTrip(color % 0x1000000, 6);
  }

  /** The digits after the `#` read back as the number they were made
      from. */
  lemma HashRoundTrip(v: nat, n: nat)
    requires v < Pow16(n)
    ensures ParseHex(("#" + HexDigits(v, n))[1..]) == v
  {
    assert ("#" + HexDigits(v, n))[1..] == HexDigits(v, n);
    HexRoundTrip(v, n);
  }

  lemma Pow16Six()
    ensures Pow16(6) == 0x1000000
  {
    assert Pow16(2) == 256;
    assert Pow16(4) == 65536;
  }

  class LocationManager {
    const m: Prims
    /** `location.position` of each pension, in registry order. */
    const positions: seq<Vec3>
    var nearestLocation: Option<Entry>
    var isInRange: bool
    /** `_listeners`: one list per known event. */
    var listeners: map<string, seq<ListenerId>>
    /** `_worldDataCache`. */
    var cache: Option<seq<WorldEntry>>

    ghost predicate Valid()
      reads this
    {
      && |positions| == |PENSIONS|
      && listeners.Keys == EVENTS
      && (isInRange ==> nearestLocation.Some?)
    }

    /** Each location stands at its pension's x and z, on the terrain. */
    constructor (terrain: Terrain.Terrain, m: Prims)
      requires terrain.positions.Length == 3 * Terrain.VERTEX_COUNT
      ensures Valid()
      ensures this.m == m
      ensures forall i :: 0 <= i < |PENSIONS| ==>
        positions[i] == Vec3(PENSIONS[i].x, terrain.HeightAt(PENSIONS[i].x, PENSIONS[i].z), PENSIONS[i].z)
      ensures nearestLocation.None? && !isInRange && cache.None?
      ensures forall e :: e in EVENTS ==> listeners[e] == []
    {
      var ps: seq<Vec3> := [];
      for i := 0 to |PENSIONS|
        invariant |ps| == i
        invariant forall j :: 0 <= j < i ==>
          ps[j] == Vec3(PENSIONS[j].x, terrain.HeightAt(PENSIONS[j].x, PENSIONS[j].z), PENSIONS[j].z)
      {
        var p := PENSIONS[i];
        ps := ps + [Vec3(p.x, terrain.HeightAt(p.x, p.z), p.z)];
      }
      this.m := m;
      positions := ps;
      nearestLocation := None;
      isInRange := false;
      listeners := map["approach" := [], "leave" := [], "nearest" := []];
      cache := None;
    }

    /** `on(event, fn)`: appended to a known event's list; an unknown name
        changes nothing. */
    method On(event: string, fn: ListenerId)
      requires Valid()
      modifies this`listeners
      ensures Valid()
      ensures event in EVENTS ==> listeners == old(listeners)[event := old(listeners)[event] + [fn]]
      ensures event !in EVENTS ==> listeners == old(listeners)
    {
      if event in listeners {
        listeners := listeners[event := listeners[event] + [fn]];
      }
    }

    /** `_listeners[event].forEach(fn => fn(entry))`. */
    method Fire(event: string, entry: Entry) returns (calls: seq<Delivery>)
      ensures calls == Deliver(ListenersFor(listeners, event), entry)
    {
      calls := [];
      var list := ListenersFor(listeners, event);
      for i := 0 to |list|
        invariant calls == Deliver(list[..i], entry)
      {
        DeliverAppend(list[..i], list[i], entry);
        assert list[..i + 1] == list[..i] + [list[i]];
        calls := calls + [Delivery(list[i], entry)];
      }
      assert list[..|list|] == list;
    }

    /** The horse's distance to every location, in registry order. */
    function Distances(horse: Vec3): (ds: seq<real>)
      reads this
      ensures |ds| == |positions|
      ensures forall i :: 0 <= i < |positions| ==> ds[i] == DistanceTo(m, horse, positions[i])
    {
      seq(|positions|, i requires 0 <= i < |positions| => DistanceTo(m, horse, positions[i]))
    }

    /** The proximity part of `update(dt, horsePosition)`: scan for the
        closest location, reclassify, and fire the edge listeners. */
    method Update(horse: Vec3) returns (calls: seq<Delivery>)
      requires Valid()
      modifies this`isInRange, this`nearestLocation
      ensures Valid()
      ensures (isInRange, nearestLocation) == Classify(ClosestEntry(Distances(horse)))
      ensures calls == Edges(listeners, old(isInRange), old(nearestLocation), isInRange, nearestLocation)
    {
      ghost var ds := Distances(horse);
      var closest: Option<Entry> := None;
      for i := 0 to |positions|
        invariant closest == ClosestEntry(ds[..i])
      {
        var dist := DistanceTo(m, horse, positions[i]);
        assert ds[..i + 1][..i] == ds[..i];
        assert ds[..i + 1][i] == dist;
        if closest.None? || dist < closest.value.distance {
          closest := Some(Entry(PENSIONS[i].key, i, dist));
        }
      }
      assert ds[..|positions|] == ds;

      var wasInRange := isInRange;
      var previousNearest := nearestLocation;
      calls := [];
      if closest.Some? && closest.value.distance < INTERACTION_RADIUS {
        isInRange := true;
        nearestLocation := closest;
        if !wasInRange {
          calls := Fire("approach", closest.value);
        }
      } else {
        isInRange := false;
        nearestLocation := if closest.Some? && closest.value.distance < APPROACH_RADIUS then closest else None;
        if wasInRange {
          calls := Fire("leave", previousNearest.value);
        }
      }
    }

    /** `getLocationsWorldData()`: built once, in registry order, then the
        cached list is returned unchanged. */
    method GetLocationsWorldData() returns (data: seq<WorldEntry>)
      modifies this`cache
      ensures old(cache).Some? ==> data == old(cache).value && cache == old(cache)
      ensures old(cache).None? ==>
        && |data| == |PENSIONS|
        && (forall i :: 0 <= i < |PENSIONS| ==> data[i] == WorldEntryOf(PENSIONS[i]))
        && cache == Some(data)
    {
      if cache.Some? {
        return cache.value;
      }
      data := [];
      for i := 0 to |PENSIONS|
        invariant |data| == i
        invariant forall j :: 0 <= j < i ==> data[j] == WorldEntryOf(PENSIONS[j])
      {
        var config := PENSIONS[i];
        data := data + [WorldEntry(config.key, config.name, HexColor(config.color), config.ethical, config.x, config.z)];
      }
      cache := Some(data);
    }
  }
}
