/** The whole simulation state as a value (the fields of `Sim`), the records
    the engine creates, and the conditions under which the state is
    well formed. */
module World {
  import opened Grid
  import opened Types

  /** `2^32`: the id counters are `uint32_t` and wrap around. */
  const IdRange := 0x1_0000_0000

  /** The fields of `Sim` that the simulation reads and writes. */
  datatype State = State(
    world: Map,
    unitTypes: seq<UnitType>, unitTypeIndex: map<string, int>,
    units: seq<Unit>, nextUnitId: int,
    buildings: seq<Building>, nextBuildingId: int,
    gold: int, wood: int, foodUsed: int, foodCap: int,
    dropoffs: seq<Vec2i>)

  /** `Sim ns;`: an empty map and no entities, 500 gold, no wood, no food in
      use out of 10, and both id counters at 1 (so 0 never names an entity
      until a counter wraps). */
  const FreshState := State(EmptyMap, [], map[], [], 1, [], 1, 500, 0, 0, 10, [])

  /** Well formed: terrain vectors sized, counters within `uint32_t`, and every
      unit-type index in use (in the id index, on a unit, in a queue) naming a
      loaded unit type. */
  ghost predicate StateValid(s: State)
  {
    TerrainSized(s.world)
    && 0 <= s.nextUnitId < IdRange && 0 <= s.nextBuildingId < IdRange
    && (forall id :: id in s.unitTypeIndex ==> 0 <= s.unitTypeIndex[id] < |s.unitTypes|)
    && (forall k :: 0 <= k < |s.units| ==> 0 <= s.units[k].typeIndex < |s.unitTypes|)
    && (forall k, q :: 0 <= k < |s.buildings| && 0 <= q < |s.buildings[k].queue| ==>
          0 <= s.buildings[k].queue[q].unitType < |s.unitTypes|)
  }

  /** A building whose footprint lies on the map (so the unchecked writes of
      the completion code stay in it) and whose rally point, when set, is a
      tile of the map. */
  predicate OnMap(m: Map, b: Building)
  {
    b.w >= 1 && b.h >= 1 && InBounds(m, b.tile) && InBounds(m, Vec2i(b.tile.x + b.w - 1, b.tile.y + b.h - 1))
    && (RallySet(b) ==> InBounds(m, b.rally))
  }

  /** A state the step can run on: well formed, the resource ledger sized,
      and every tile a path search may start from or aim at (unit tiles,
      drop-offs, footprints, rally points) on the map. */
  ghost predicate Grounded(s: State)
  {
    StateValid(s) && Sized(s.world)
    && (forall k :: 0 <= k < |s.units| ==> InBounds(s.world, s.units[k].tile))
    && (forall d :: d in s.dropoffs ==> InBounds(s.world, d))
    && (forall k :: 0 <= k < |s.buildings| ==> OnMap(s.world, s.buildings[k]))
  }

  /** A fresh state is well formed. */
  lemma FreshStateValid()
    ensures StateValid(FreshState)
    ensures FreshState.gold == 500 && FreshState.wood == 0 && FreshState.foodUsed == 0 && FreshState.foodCap == 10
    ensures FreshState.nextUnitId == 1 && FreshState.nextBuildingId == 1
  {
  }

  /** The building `start_building` creates: id, kind, corner and size from the
      type, Planned with no progress out of the type's build time, its costs
      recorded for a refund, no queue and no rally point. */
  function NewBuilding(id: int, bt: BuildingType, at: Vec2i): (b: Building)
    ensures b.state == Planned && b.buildProgressMs == 0 && b.queue == [] && !RallySet(b)
    ensures b.id == id && b.kind == bt.kind && b.tile == at && b.w == bt.w && b.h == bt.h
    ensures b.buildTotalMs == bt.buildMs && b.costGold == bt.costGold && b.costWood == bt.costWood
  {
    DefaultBuilding.(id := id, kind := bt.kind, tile := at, w := bt.w, h := bt.h, state := Planned,
                     buildTotalMs := bt.buildMs, costGold := bt.costGold, costWood := bt.costWood)
  }

  /** The unit `spawn_unit` creates: standing at (and aiming for) its tile,
      with its type's hit points, Idle, carrying nothing, with no building
      target and no path. */
  function NewUnit(id: int, typeIndex: int, at: Vec2i, hp: int): (u: Unit)
    ensures u.id == id && u.typeIndex == typeIndex && u.tile == at && u.goal == at && u.hp == hp
    ensures u.job == Idle && u.carried == 0 && u.carriedKind == 0 && u.buildingTarget == 0
    ensures u.path == [] && u.cooldown == 0
  {
    DefaultUnit.(id := id, typeIndex := typeIndex, tile := at, goal := at, hp := hp, cooldown := 0)
  }

  /** The counter after handing out one id: `next++` on a `uint32_t`. */
  function NextId(c: int): (r: int)
    requires 0 <= c < IdRange
    ensures 0 <= r < IdRange
    ensures c + 1 < IdRange ==> r == c + 1
  {
    (c + 1) % IdRange
  }

  /** The unit table after `spawn_unit(s, typeId, x, y)`: unchanged with id 0
      for an unknown type id; otherwise one new unit at the end, with the
      counter's id, and the counter advanced. Yields (units, counter, id). */
  function Spawned(s: State, typeId: string, at: Vec2i): (r: (seq<Unit>, int, int))
    requires StateValid(s)
    ensures typeId !in s.unitTypeIndex ==> r == (s.units, s.nextUnitId, 0)
    ensures typeId in s.unitTypeIndex ==> (var ti := s.unitTypeIndex[typeId];
      r == (s.units + [NewUnit(s.nextUnitId, ti, at, s.unitTypes[ti].hp)], NextId(s.nextUnitId), s.nextUnitId))
  {
    if typeId !in s.unitTypeIndex then (s.units, s.nextUnitId, 0)
    else
      var ti := s.unitTypeIndex[typeId];
      (s.units + [NewUnit(s.nextUnitId, ti, at, s.unitTypes[ti].hp)], NextId(s.nextUnitId), s.nextUnitId)
  }

  /** Replacing unit j by one standing on the map with a loaded type keeps a
      state grounded. */
  lemma GroundedUnitSwap(s: State, j: int, u: Unit)
    requires Grounded(s) && 0 <= j < |s.units|
    requires InBounds(s.world, u.tile) && 0 <= u.typeIndex < |s.unitTypes|
    ensures Grounded(s.(units := s.units[j := u]))
  {
  }

  /** Spawning on a tile of the map keeps a state grounded. */
  lemma SpawnedGrounded(s: State, typeId: string, at: Vec2i)
    requires Grounded(s) && InBounds(s.world, at)
    ensures var r := Spawned(s, typeId, at); Grounded(s.(units := r.0, nextUnitId := r.1))
  {
    var r := Spawned(s, typeId, at);
    assert forall k :: 0 <= k < |s.units| ==> r.0[k] == s.units[k];
  }

  /** Ids are handed out fresh: while the counter has not wrapped and every
      unit's id lies in [1, counter), a spawned unit's id is non-zero and
      unlike every other unit's, and the range property carries over. */
  lemma SpawnedFresh(s: State, typeId: string, at: Vec2i)
    requires StateValid(s) && typeId in s.unitTypeIndex && 1 <= s.nextUnitId && s.nextUnitId + 1 < IdRange
    requires forall k :: 0 <= k < |s.units| ==> 1 <= s.units[k].id < s.nextUnitId
    ensures var r := Spawned(s, typeId, at);
      && r.2 != 0
      && (forall k :: 0 <= k < |s.units| ==> r.0[k].id != r.2)
      && (forall k :: 0 <= k < |r.0| ==> 1 <= r.0[k].id < r.1)
  {
    var r := Spawned(s, typeId, at);
    assert forall k :: 0 <= k < |s.units| ==> r.0[k] == s.units[k];
  }

  /** Swapping in a map of the same size keeps a state grounded. */
  lemma GroundedWorldSwap(s: State, m: Map)
    requires Grounded(s) && Sized(m) && m.width == s.world.width && m.height == s.world.height
    ensures Grounded(s.(world := m))
  {
    assert forall b :: OnMap(s.world, b) ==> OnMap(m, b);
  }

  /** Replacing building k by one with the same footprint and rally point whose
      queue names loaded unit types keeps a state grounded. */
  lemma GroundedBuildingSwap(s: State, k: int, b: Building)
    requires Grounded(s) && 0 <= k < |s.buildings|
    requires b.tile == s.buildings[k].tile && b.w == s.buildings[k].w && b.h == s.buildings[k].h
    requires b.rally == s.buildings[k].rally
    requires forall q :: 0 <= q < |b.queue| ==> 0 <= b.queue[q].unitType < |s.unitTypes|
    ensures Grounded(s.(buildings := s.buildings[k := b]))
  {
  }

  /** Giving building k a queue that names loaded unit types, and the stock
      any values, keeps a state valid. */
  lemma ValidQueueSwap(s: State, k: int, q: seq<TrainItem>, gold: int, wood: int, foodUsed: int)
    requires StateValid(s) && 0 <= k < |s.buildings|
    requires forall j :: 0 <= j < |q| ==> 0 <= q[j].unitType < |s.unitTypes|
    ensures StateValid(s.(gold := gold, wood := wood, foodUsed := foodUsed,
                          buildings := s.buildings[k := s.buildings[k].(queue := q)]))
  {
  }

  /** What survives a building's step: its identity, kind, footprint and rally
      point, and completion. */
  predicate Persists(b: Building, b': Building)
  {
    b'.id == b.id && b'.kind == b.kind && b'.tile == b.tile && b'.w == b.w && b'.h == b.h
    && b'.rally == b.rally && (b.state == Complete ==> b'.state == Complete)
  }

  /** What the per-tick step keeps: the type tables, the building counter and
      the food in use stay as they are; the food cap never drops; the map keeps
      its size; buildings persist in place; units keep their ids and types, new
      ones come at the end; drop-offs are only ever appended. */
  ghost predicate Evolved(s: State, s': State)
  {
    && s'.unitTypes == s.unitTypes && s'.unitTypeIndex == s.unitTypeIndex
    && s'.nextBuildingId == s.nextBuildingId && s'.foodUsed == s.foodUsed && s'.foodCap >= s.foodCap
    && s'.world.width == s.world.width && s'.world.height == s.world.height
    && |s'.buildings| == |s.buildings|
    && (forall k :: 0 <= k < |s.buildings| ==> Persists(s.buildings[k], s'.buildings[k]))
    && |s'.units| >= |s.units|
    && (forall k :: 0 <= k < |s.units| ==> s'.units[k].id == s.units[k].id && s'.units[k].typeIndex == s.units[k].typeIndex)
    && s.dropoffs <= s'.dropoffs
  }

  lemma EvolvedTrans(s: State, s': State, s'': State)
    requires Evolved(s, s') && Evolved(s', s'')
    ensures Evolved(s, s'')
  {
  }

  /** The first entry equal to p removed, the others kept in order (the
      drop-off registry update of `remove_building`). */
  function RemoveFirst(ds: seq<Vec2i>, p: Vec2i): (r: seq<Vec2i>)
    ensures p !in ds ==> r == ds
    ensures p in ds ==> |r| == |ds| - 1 && multiset(r) == multiset(ds) - multiset{p}
  {
    if ds == [] then []
    else if ds[0] == p then
      assert ds == [ds[0]] + ds[1..];
      ds[1..]
    else
      var rest := RemoveFirst(ds[1..], p);
      assert ds == [ds[0]] + ds[1..];
      [ds[0]] + rest
  }
}
