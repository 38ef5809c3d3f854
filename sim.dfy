/** The live simulation: the `Sim` record with the operations that change it
    in place (the resource ledger, occupancy, buildings, the training queue,
    units and their orders, the per-tick step). Each method states the whole
    new state in terms of the old one and of the specification functions of
    the other modules; path searches are stated by what every A* result
    satisfies. */
module Simulation {
  import opened Grid
  import opened Types
  import opened Search
  import opened Ledger
  import opened Economy
  import opened Jobs
  import opened World
  import Pathfinding

  /** The node cap the engine passes to every search (the default argument). */
  const MaxNodes := 8192

  /** What a unit's path is after `e.path.clear(); astar_find(map, from, to,
      e.path, true)`: empty, or a valid 8-direction path from `from` to `to`;
      and always empty when the unit is already there. */
  predicate PathOk(m: Map, from: Vec2i, to: Vec2i, p: seq<Vec2i>)
    requires TerrainSized(m)
  {
    (p == [] || Pathfinding.ValidPath(m, from, to, p, true)) && (from == to ==> p == [])
  }

  /** A search from a cleared path: empty when the search fails, otherwise
      a valid 8-direction path; a walkable target one step away is always
      reached in that one step. */
  method Route(m: Map, from: Vec2i, to: Vec2i) returns (path: seq<Vec2i>)
    requires TerrainSized(m) && InBounds(m, from) && InBounds(m, to)
    ensures PathOk(m, from, to, path)
    ensures Pathfinding.Adjacent(from, to, true) && Walkable(m, to) ==> path == [to]
  {
    var found;
    ghost var expanded;
    ghost var costs, links;
    found, path, expanded, costs, links := Pathfinding.AStarFind(m, from, to, [], true, MaxNodes);
  }

  /** The state `order_move(s, u, g)` leaves: the first unit with id u (if
      any) aims at g, is Moving and has a fresh path; nothing else changes. */
  ghost predicate Moved(s: State, u: int, g: Vec2i, s': State)
    requires TerrainSized(s.world)
  {
    var j := UnitIndex(s.units, u);
    if j < 0 then s' == s
    else
      && |s'.units| == |s.units|
      && s' == s.(units := s.units[j := s'.units[j]])
      && s'.units[j] == s.units[j].(goal := g, job := Moving, path := s'.units[j].path)
      && PathOk(s.world, s.units[j].tile, g, s'.units[j].path)
  }

  /** The state after unit i took the tick r: map and stock from r, unit i as
      r describes it, with a fresh path when r asks for one. */
  ghost predicate Ticked(s: State, s': State, i: int, r: Tick)
    requires 0 <= i < |s.units| && TerrainSized(r.m)
  {
    && |s'.units| == |s.units|
    && s' == s.(world := r.m, gold := r.gold, wood := r.wood, units := s.units[i := s'.units[i]])
    && (r.route ==> s'.units[i] == r.u.(path := s'.units[i].path) && PathOk(r.m, r.u.tile, r.u.goal, s'.units[i].path))
    && (!r.route ==> s'.units[i] == r.u)
  }

  /** Removing the first entry equal to p cuts it out at its first position
      k: the entries before and after keep their order. */
  lemma {:induction false} RemoveFirstIs(ds: seq<Vec2i>, p: Vec2i, k: int)
    requires 0 <= k < |ds| && ds[k] == p && forall q :: 0 <= q < k ==> ds[q] != p
    ensures RemoveFirst(ds, p) == ds[..k] + ds[k + 1..]
  {
    if k > 0 {
      RemoveFirstIs(ds[1..], p, k - 1);
      CutCons(ds, k);
    }
  }

  lemma CutCons(ds: seq<Vec2i>, k: int)
    requires 0 < k < |ds|
    ensures ds[..k] + ds[k + 1..] == [ds[0]] + (ds[1..][..k - 1] + ds[1..][k..])
  {
    assert ds[1..][..k - 1] == ds[1..k];
    assert ds[1..][k..] == ds[k + 1..];
    assert ds[..k] == [ds[0]] + ds[1..k];
  }

  /** k queue entries of unit type ut, each with the full build time. */
  function Items(ut: int, ms: int, k: nat): (q: seq<TrainItem>)
    ensures |q| == k && forall j :: 0 <= j < k ==> q[j] == TrainItem(ut, ms)
  {
    seq(k, _ => TrainItem(ut, ms))
  }

  /** One more entry at the back of a queue that already holds k of them. */
  lemma ItemsSnoc(q: seq<TrainItem>, ut: int, ms: int, k: nat)
    ensures q + Items(ut, ms, k) + [TrainItem(ut, ms)] == q + Items(ut, ms, k + 1)
  {
    assert Items(ut, ms, k + 1) == Items(ut, ms, k) + [TrainItem(ut, ms)];
  }

  lemma ItemsNone(q: seq<TrainItem>, ut: int, ms: int)
    ensures q + Items(ut, ms, 0) == q
  {
  }

  /** The construction part of `step` for building k: the building as
      `Construct` leaves it for the workers currently assigned, and when it
      has just completed, a drop-off's tile registered, marked as a drop-off
      tile and its footprint freed, or a farm's 4 extra food. */
  function Constructed(s: State, k: int, dt: int): (s': State)
    requires Grounded(s) && 0 <= k < |s.buildings|
  {
    var b := s.buildings[k];
    var c := Construct(b, Workers(s.units, b), dt);
    var s1 := s.(buildings := s.buildings[k := c]);
    if JustCompleted(b, c) && b.kind == Dropoff then
      var m := s.world.(tiles := s.world.tiles[Ridx(s.world, b.tile) := TileDropoff]);
      s1.(dropoffs := s.dropoffs + [b.tile], world := Blocked(m, b.tile, b.w, b.h, false))
    else if JustCompleted(b, c) && b.kind == Farm then s1.(foodCap := s.foodCap + 4)
    else s1
  }

  /** Construction keeps a state grounded, keeps the ledger invariant, is one
      of the changes the step allows, and touches nothing but building k, the
      map and drop-offs (for a drop-off) and the food cap (for a farm). */
  lemma ConstructedKeeps(s: State, k: int, dt: int)
    requires Grounded(s) && 0 <= k < |s.buildings|
    ensures var s' := Constructed(s, k, dt);
      && Grounded(s') && Evolved(s, s') && (LedgerOk(s.world) ==> LedgerOk(s'.world))
      && s' == s.(buildings := s'.buildings, world := s'.world, dropoffs := s'.dropoffs, foodCap := s'.foodCap)
      && s'.buildings == s.buildings[k := Construct(s.buildings[k], Workers(s.units, s.buildings[k]), dt)]
      && s'.foodCap - s.foodCap in {0, 4}
      && (s'.foodCap != s.foodCap ==> s.buildings[k].kind == Farm)
      && (s'.dropoffs != s.dropoffs ==> s.buildings[k].kind == Dropoff && s'.dropoffs == s.dropoffs + [s.buildings[k].tile])
  {
    var b := s.buildings[k];
    var c := Construct(b, Workers(s.units, b), dt);
    GroundedBuildingSwap(s, k, c);
    if JustCompleted(b, c) && b.kind == Dropoff {
      DropoffOpenedKeeps(s, k, dt);
    }
  }

  /** The drop-off branch of construction: the tile marked, the footprint
      unblocked and the tile registered keep a state grounded. */
  lemma DropoffOpenedKeeps(s: State, k: int, dt: int)
    requires Grounded(s) && 0 <= k < |s.buildings|
    requires var b := s.buildings[k]; b.kind == Dropoff && JustCompleted(b, Construct(b, Workers(s.units, b), dt))
    ensures var s' := Constructed(s, k, dt); Grounded(s') && Evolved(s, s') && (LedgerOk(s.world) ==> LedgerOk(s'.world))
  {
    var b := s.buildings[k];
    var c := Construct(b, Workers(s.units, b), dt);
    var s1 := s.(buildings := s.buildings[k := c]);
    GroundedBuildingSwap(s, k, c);
    var m := s.world.(tiles := s.world.tiles[Ridx(s.world, b.tile) := TileDropoff]);
    GroundedWorldSwap(s1, Blocked(m, b.tile, b.w, b.h, false));
  }

  /** A drop-off that has just completed can be stood on and delivered to:
      its tile is registered, walkable, and the nearest drop-off of a unit
      standing on it. */
  lemma DropoffCompletes(s: State, k: int, dt: int)
    requires Grounded(s) && 0 <= k < |s.buildings|
    requires var b := s.buildings[k]; b.kind == Dropoff && JustCompleted(b, Construct(b, Workers(s.units, b), dt))
    ensures var s' := Constructed(s, k, dt); var p := s.buildings[k].tile;
      && p in s'.dropoffs && Walkable(s'.world, p) && NearestDropoffOf(s'.dropoffs, p) == p
  {
    var b := s.buildings[k];
    var s' := Constructed(s, k, dt);
    ConstructedKeeps(s, k, dt);
    var m := s.world.(tiles := s.world.tiles[Ridx(s.world, b.tile) := TileDropoff]);
    BlockedWalkable(m, b.tile, b.w, b.h, false, b.tile);
    NearestDropoffIsZero(s'.dropoffs, b.tile);
  }

  /** The state after the production part of `step` for building k: only a
      complete barracks with a non-empty queue works; the front item's time
      drops by `(int)dt`; when it runs out, a unit of its type is spawned on
      the spawn tile, sent to the rally point when one is set, and the item
      leaves the queue. */
  ghost predicate Fielded(s: State, k: int, dt: int, s': State)
    requires Grounded(s) && 0 <= k < |s.buildings| && 0 <= dt < IdRange
  {
    var b := s.buildings[k];
    if b.kind != Barracks || b.state != Complete || b.queue == [] then s' == s
    else
      var pr := Produce(b.queue, Int32Of(dt));
      var s0 := s.(buildings := s.buildings[k := b.(queue := pr.queue)]);
      if pr.spawn.None? then s' == s0
      else
        var r := Spawned(s, s.unitTypes[pr.spawn.value].id, SpawnTileOf(s.world, b));
        var s1 := s0.(units := r.0, nextUnitId := r.1);
        if RallySet(b) then Moved(s1, r.2, b.rally, s') else s' == s1
  }

  /** Unit i's share of `step` took state s to s'. */
  ghost predicate TickedAt(s: State, s': State, i: int)
  {
    Grounded(s) && 0 <= i < |s.units|
    && Ticked(s, s', i, TickOf(s.world, s.dropoffs, s.gold, s.wood, s.units[i]))
  }

  /** Building k's share of `step` took state s to s': construction first,
      then production on the state construction left. */
  ghost predicate BuiltAt(s: State, s': State, k: int, dt: int)
  {
    Grounded(s) && 0 <= k < |s.buildings| && 0 <= dt < IdRange
    && var c := Constructed(s, k, dt);
    Grounded(c) && k < |c.buildings| && Fielded(c, k, dt, s')
  }

  /** One more building's share extends the building trace. */
  lemma BuildsSnoc(builds: seq<State>, s': State, k: int, dt: int)
    requires |builds| == k + 1 && k >= 0
    requires forall j :: 0 <= j < k ==> BuiltAt(builds[j], builds[j + 1], j, dt)
    requires BuiltAt(builds[k], s', k, dt)
    ensures var b' := builds + [s'];
      |b'| == k + 2 && b'[k + 1] == s' && forall j :: 0 <= j < k + 1 ==> BuiltAt(b'[j], b'[j + 1], j, dt)
  {
    var b' := builds + [s'];
    forall j | 0 <= j < k + 1
      ensures BuiltAt(b'[j], b'[j + 1], j, dt)
    {
      assert b'[j] == builds[j];
      if j < k {
        assert b'[j + 1] == builds[j + 1];
      }
    }
  }

  /** An order to move is the same order whatever the buildings are. */
  lemma MovedFrame(s: State, u: int, g: Vec2i, s': State, bs: seq<Building>)
    requires TerrainSized(s.world) && Moved(s, u, g, s')
    ensures Moved(s.(buildings := bs), u, g, s'.(buildings := bs))
  {
  }

  /** An order to move keeps a state grounded and changes only the ordered
      unit's goal, job and path. */
  lemma MovedKeeps(s: State, u: int, g: Vec2i, s': State)
    requires Grounded(s) && Moved(s, u, g, s')
    ensures Grounded(s') && Evolved(s, s') && s' == s.(units := s'.units)
  {
    var j := UnitIndex(s.units, u);
    if j >= 0 {
      GroundedUnitSwap(s, j, s'.units[j]);
    }
  }

  /** Spawning a unit on the map keeps a state grounded and is one of the
      changes the step allows. */
  lemma SpawnedKeeps(s: State, typeId: string, at: Vec2i)
    requires Grounded(s) && InBounds(s.world, at)
    ensures var r := Spawned(s, typeId, at); var s' := s.(units := r.0, nextUnitId := r.1);
      Grounded(s') && Evolved(s, s')
  {
    var r := Spawned(s, typeId, at);
    SpawnedGrounded(s, typeId, at);
    assert forall q :: 0 <= q < |s.units| ==> r.0[q] == s.units[q];
  }

  /** Production keeps a state grounded, is one of the changes the step
      allows, and leaves the map, the stock and the drop-offs alone. */
  lemma FieldedKeeps(s: State, k: int, dt: int, s': State)
    requires Grounded(s) && 0 <= k < |s.buildings| && 0 <= dt < IdRange
    requires Fielded(s, k, dt, s')
    ensures Grounded(s') && Evolved(s, s')
    ensures s'.world == s.world && s'.gold == s.gold && s'.wood == s.wood && s'.dropoffs == s.dropoffs
  {
    var b := s.buildings[k];
    if b.kind == Barracks && b.state == Complete && b.queue != [] {
      var pr := Produce(b.queue, Int32Of(dt));
      var s0 := s.(buildings := s.buildings[k := b.(queue := pr.queue)]);
      QueuedKeeps(s, k, pr.queue);
      if pr.spawn.Some? {
        var at := SpawnTileOf(s.world, b);
        var id := s.unitTypes[pr.spawn.value].id;
        assert Spawned(s, id, at) == Spawned(s0, id, at);
        RalliedKeeps(s0, id, at, b, s');
        EvolvedTrans(s, s0, s');
      }
    }
  }

  /** A new queue for building k that names loaded unit types keeps a state
      grounded and is one of the changes the step allows. */
  lemma QueuedKeeps(s: State, k: int, q: seq<TrainItem>)
    requires Grounded(s) && 0 <= k < |s.buildings|
    requires forall j :: 0 <= j < |q| ==> 0 <= q[j].unitType < |s.unitTypes|
    ensures var s0 := s.(buildings := s.buildings[k := s.buildings[k].(queue := q)]);
      Grounded(s0) && Evolved(s, s0)
  {
    GroundedBuildingSwap(s, k, s.buildings[k].(queue := q));
  }

  /** Spawning a unit on the map, and sending it to a rally point when one
      is set, keeps a state grounded, is one of the changes the step allows,
      and leaves the map, the stock and the drop-offs alone. */
  lemma RalliedKeeps(s0: State, id: string, at: Vec2i, b: Building, s': State)
    requires Grounded(s0) && InBounds(s0.world, at)
    requires var r := Spawned(s0, id, at); var s1 := s0.(units := r.0, nextUnitId := r.1);
      if RallySet(b) then Moved(s1, r.2, b.rally, s') else s' == s1
    ensures Grounded(s') && Evolved(s0, s')
    ensures s'.world == s0.world && s'.gold == s0.gold && s'.wood == s0.wood && s'.dropoffs == s0.dropoffs
  {
    var r := Spawned(s0, id, at);
    SpawnedKeeps(s0, id, at);
    var s1 := s0.(units := r.0, nextUnitId := r.1);
    if RallySet(b) {
      MovedKeeps(s1, r.2, b.rally, s');
      EvolvedTrans(s0, s1, s');
    }
  }

  /** A record of unit ticks grows by one more tick. */
  lemma TicksExtend(ticks: seq<State>, s: State, i: nat)
    requires |ticks| == i + 1 && forall j :: 0 <= j < i ==> TickedAt(ticks[j], ticks[j + 1], j)
    requires TickedAt(ticks[i], s, i)
    ensures forall j :: 0 <= j < i + 1 ==> TickedAt((ticks + [s])[j], (ticks + [s])[j + 1], j)
  {
    forall j | 0 <= j < i + 1 ensures TickedAt((ticks + [s])[j], (ticks + [s])[j + 1], j) {
      if j < i {
        assert (ticks + [s])[j] == ticks[j] && (ticks + [s])[j + 1] == ticks[j + 1];
      }
    }
  }

  /** A unit tick keeps a state grounded, keeps the ledger invariant and is
      one of the changes the step allows. */
  lemma TickedKeeps(s: State, s': State, i: int)
    requires Grounded(s) && 0 <= i < |s.units|
    requires Ticked(s, s', i, TickOf(s.world, s.dropoffs, s.gold, s.wood, s.units[i]))
    ensures Grounded(s') && Evolved(s, s') && (LedgerOk(s.world) ==> LedgerOk(s'.world))
  {
    var e := s.units[i];
    var r := TickOf(s.world, s.dropoffs, s.gold, s.wood, e);
    TickKeepsLedger(s.world, s.dropoffs, s.gold, s.wood, e);
    GroundedWorldSwap(s, r.m);
    GroundedUnitSwap(s.(world := r.m), i, s'.units[i]);
    assert s' == s.(world := r.m, gold := r.gold, wood := r.wood, units := s.units[i := s'.units[i]]);
  }

  /** A state is the record of its fields. */
  lemma StateParts(st: State)
    ensures st == State(st.world, st.unitTypes, st.unitTypeIndex, st.units, st.nextUnitId, st.buildings,
                        st.nextBuildingId, st.gold, st.wood, st.foodUsed, st.foodCap, st.dropoffs)
  {
  }

  class Sim {
    var world: Map
    var unitTypes: seq<UnitType>
    var unitTypeIndex: map<string, int>
    var units: seq<Unit>
    var nextUnitId: int
    var buildings: seq<Building>
    var nextBuildingId: int
    var gold: int
    var wood: int
    var foodUsed: int
    var foodCap: int
    var dropoffs: seq<Vec2i>

    /** The fields as one value. */
    function Snapshot(): State
      reads this
    {
      State(world, unitTypes, unitTypeIndex, units, nextUnitId, buildings, nextBuildingId,
            gold, wood, foodUsed, foodCap, dropoffs)
    }

    ghost predicate Valid()
      reads this
    {
      StateValid(Snapshot())
    }

    ghost predicate Ready()
      reads this
    {
      Grounded(Snapshot())
    }

    /** `Sim()`: the default member values. */
    constructor ()
      ensures Snapshot() == FreshState && Valid()
    {
      world := EmptyMap;
      unitTypes := [];
      unitTypeIndex := map[];
      units := [];
      nextUnitId := 1;
      buildings := [];
      nextBuildingId := 1;
      gold := 500;
      wood := 0;
      foodUsed := 0;
      foodCap := 10;
      dropoffs := [];
    }

    /** `s = std::move(ns)`: every field replaced. */
    method Assign(st: State)
      modifies this
      ensures Snapshot() == st
    {
      world, unitTypes, unitTypeIndex, units, nextUnitId, buildings := st.world, st.unitTypes, st.unitTypeIndex, st.units, st.nextUnitId, st.buildings;
      nextBuildingId, gold, wood, foodUsed, foodCap, dropoffs := st.nextBuildingId, st.gold, st.wood, st.foodUsed, st.foodCap, st.dropoffs;
      StateParts(st);
    }

    // ------------------------------------------------------- resource ledger

    /** `resource_take_at`: the ledger transition `TakeAt`, with its success
        flag and the amount taken (0 when it fails). */
    method ResourceTakeAt(x: int, y: int, amount: int) returns (ok: bool, taken: int)
      requires Sized(world)
      modifies this
      ensures var t := TakeAt(old(world), Vec2i(x, y), amount);
        ok == t.ok && taken == t.taken && Snapshot() == old(Snapshot()).(world := t.m)
    {
      var p := Vec2i(x, y);
      if !InBounds(world, p) {
        return false, 0;
      }
      var i := Ridx(world, p);
      if world.resKind[i] == 0 || world.resAmount[i] <= 0 {
        return false, 0;
      }
      taken := Min(amount, world.resAmount[i]);
      var left := world.resAmount[i] - taken;
      world := world.(resAmount := world.resAmount[i := left]);
      if left <= 0 {
        world := world.(tiles := world.tiles[i := 0], blocked := world.blocked[i := 0],
                        resKind := world.resKind[i := 0], resAmount := world.resAmount[i := 0]);
        assert world.resAmount == old(world).resAmount[i := 0];
      }
      ok := true;
    }

    /** `init_resources_from_tiles`: resizes the ledger and fills it cell by
        cell from the terrain; the result is `InitLedger`. A negative cell
        count makes `resize` throw, which is not modelled. */
    method InitResourcesFromTiles(woodAmount: int, goldAmount: int)
      requires TerrainSized(world) && world.width * world.height >= 0
      modifies this
      ensures Snapshot() == old(Snapshot()).(world := InitLedger(old(world), woodAmount, goldAmount))
    {
      var m := world;
      var n := Cells(m.width, m.height);
      var kinds := Resize(m.resKind, n);
      var amounts := Resize(m.resAmount, n);
      var maxes := Resize(m.resMax, n);
      if m.width > 0 && m.height > 0 {
        kinds, amounts, maxes := FillLedger(m, kinds, amounts, maxes, woodAmount, goldAmount);
      }
      world := m.(resKind := kinds, resAmount := amounts, resMax := maxes);
    }

    /** The two loops of `init_resources_from_tiles`, row by row. */
    static method FillLedger(m: Map, kinds: seq<int>, amounts: seq<int>, maxes: seq<int>, wood: int, gold: int)
      returns (kinds': seq<int>, amounts': seq<int>, maxes': seq<int>)
      requires TerrainSized(m) && m.width > 0 && m.height > 0
      requires |kinds| == |amounts| == |maxes| == Cells(m.width, m.height)
      ensures kinds' == InitLedger(m, wood, gold).resKind
      ensures amounts' == InitLedger(m, wood, gold).resAmount
      ensures maxes' == InitLedger(m, wood, gold).resMax
    {
      var w, h := m.width, m.height;
      kinds', amounts', maxes' := kinds, amounts, maxes;
      var y, done := 0, 0;
      while y < h
        invariant 0 <= y <= h && done == y * w
        invariant 0 <= done <= |m.tiles|
        invariant |kinds'| == |amounts'| == |maxes'| == |m.tiles|
        invariant forall k :: 0 <= k < done ==> kinds'[k] == KindOfTile(m.tiles[k])
        invariant forall k :: 0 <= k < done ==> amounts'[k] == AmountOfTile(m.tiles[k], wood, gold)
        invariant forall k :: 0 <= k < done ==> maxes'[k] == AmountOfTile(m.tiles[k], wood, gold)
      {
        RowStart(w, h, y);
        kinds', amounts', maxes' := FillLedgerRow(m, kinds', amounts', maxes', wood, gold, done);
        y, done := y + 1, done + w;
      }
      LedgerFilled(m, wood, gold, kinds', amounts', maxes');
    }

    /** Vectors that agree with the terrain on every cell are the fresh ledger. */
    static lemma LedgerFilled(m: Map, wood: int, gold: int, kinds: seq<int>, amounts: seq<int>, maxes: seq<int>)
      requires TerrainSized(m) && m.width > 0 && m.height > 0
      requires |kinds| == |amounts| == |maxes| == |m.tiles|
      requires forall k :: 0 <= k < |m.tiles| ==> kinds[k] == KindOfTile(m.tiles[k])
      requires forall k :: 0 <= k < |m.tiles| ==> amounts[k] == AmountOfTile(m.tiles[k], wood, gold)
      requires forall k :: 0 <= k < |m.tiles| ==> maxes[k] == AmountOfTile(m.tiles[k], wood, gold)
      ensures kinds == InitLedger(m, wood, gold).resKind
      ensures amounts == InitLedger(m, wood, gold).resAmount
      ensures maxes == InitLedger(m, wood, gold).resMax
    {
      var r := InitLedger(m, wood, gold);
      assert |r.resKind| == |r.resAmount| == |r.resMax| == |m.tiles|;
    }

    /** The inner loop of `init_resources_from_tiles`: the w cells from i0. */
    static method FillLedgerRow(m: Map, kinds: seq<int>, amounts: seq<int>, maxes: seq<int>, wood: int, gold: int, i0: int)
      returns (kinds': seq<int>, amounts': seq<int>, maxes': seq<int>)
      requires TerrainSized(m) && 0 <= i0 && 0 < m.width && i0 + m.width <= |m.tiles|
      requires |kinds| == |amounts| == |maxes| == |m.tiles|
      requires forall k :: 0 <= k < i0 ==> kinds[k] == KindOfTile(m.tiles[k])
      requires forall k :: 0 <= k < i0 ==> amounts[k] == AmountOfTile(m.tiles[k], wood, gold)
      requires forall k :: 0 <= k < i0 ==> maxes[k] == AmountOfTile(m.tiles[k], wood, gold)
      ensures |kinds'| == |amounts'| == |maxes'| == |m.tiles|
      ensures forall k :: 0 <= k < i0 + m.width ==> kinds'[k] == KindOfTile(m.tiles[k])
      ensures forall k :: 0 <= k < i0 + m.width ==> amounts'[k] == AmountOfTile(m.tiles[k], wood, gold)
      ensures forall k :: 0 <= k < i0 + m.width ==> maxes'[k] == AmountOfTile(m.tiles[k], wood, gold)
    {
      kinds', amounts', maxes' := kinds, amounts, maxes;
      var i := i0;
      while i < i0 + m.width
        invariant i0 <= i <= i0 + m.width
        invariant |kinds'| == |amounts'| == |maxes'| == |m.tiles|
        invariant forall k :: 0 <= k < i ==> kinds'[k] == KindOfTile(m.tiles[k])
        invariant forall k :: 0 <= k < i ==> amounts'[k] == AmountOfTile(m.tiles[k], wood, gold)
        invariant forall k :: 0 <= k < i ==> maxes'[k] == AmountOfTile(m.tiles[k], wood, gold)
      {
        var t := m.tiles[i];
        if t == TileForest {
          kinds' := kinds'[i := ResourceCode(Wood)];
          amounts' := amounts'[i := wood];
          maxes' := maxes'[i := wood];
        } else if t == TileGold {
          kinds' := kinds'[i := ResourceCode(Gold)];
          amounts' := amounts'[i := gold];
          maxes' := maxes'[i := gold];
        } else {
          kinds' := kinds'[i := 0];
          amounts' := amounts'[i := 0];
          maxes' := maxes'[i := 0];
        }
        i := i + 1;
      }
    }

    // ------------------------------------------------------------ occupancy

    /** `set_block(map, x, y, w, h, on)`: the on-map cells of the footprint get
        1 (or 0), row by row; the result is `Blocked`. */
    method SetBlock(x: int, y: int, w: int, h: int, on: bool)
      requires TerrainSized(world)
      modifies this
      ensures Snapshot() == old(Snapshot()).(world := Blocked(old(world), Vec2i(x, y), w, h, on))
    {
      var bl := FillBlocked(world, x, y, w, h, if on then 1 else 0);
      world := world.(blocked := bl);
    }

    /** The two loops of `set_block`. */
    static method FillBlocked(m: Map, x: int, y: int, w: int, h: int, v: int) returns (bl: seq<int>)
      requires TerrainSized(m)
      ensures bl == FillRect(m.blocked, m.width, m.height, x, y, w, h, v)
    {
      bl := m.blocked;
      var j := 0;
      while j < h
        invariant 0 <= j <= Max(h, 0)
        invariant bl == FillRect(m.blocked, m.width, m.height, x, y, w, j, v)
      {
        var i := 0;
        while i < w
          invariant 0 <= i <= Max(w, 0)
          invariant |bl| == |m.blocked|
          invariant bl == FillRow(FillRect(m.blocked, m.width, m.height, x, y, w, j, v), m.width, m.height, x, y + j, i, v)
        {
          var nx, ny := x + i, y + j;
          if nx >= 0 && ny >= 0 && nx < m.width && ny < m.height {
            IdxInRange(m.width, m.height, nx, ny);
            bl := bl[ny * m.width + nx := v];
          }
          i := i + 1;
        }
        j := j + 1;
      }
    }

    // ------------------------------------------------------------- buildings

    /** `start_building`: with too little gold or wood, or a footprint that is
        not free, returns 0 and changes nothing. Otherwise pays the type's cost
        once, appends a Planned building with the counter's id, advances the
        counter and blocks the footprint. */
    method StartBuilding(bt: BuildingType, x: int, y: int) returns (id: int)
      requires Valid()
      modifies this
      ensures Valid()
      ensures var s := old(Snapshot()); var at := Vec2i(x, y);
        if s.gold < bt.costGold || s.wood < bt.costWood || !FootprintFree(s.world, at, bt.w, bt.h) then
          id == 0 && Snapshot() == s
        else
          && id == s.nextBuildingId
          && Snapshot() == s.(gold := s.gold - bt.costGold, wood := s.wood - bt.costWood,
                              buildings := s.buildings + [NewBuilding(id, bt, at)],
                              nextBuildingId := NextId(s.nextBuildingId),
                              world := Blocked(s.world, at, bt.w, bt.h, true))
    {
      if gold < bt.costGold || wood < bt.costWood {
        return 0;
      }
      var ok := CanPlaceBuilding(world, bt, x, y);
      if !ok {
        return 0;
      }
      gold := gold - bt.costGold;
      wood := wood - bt.costWood;
      id := nextBuildingId;
      nextBuildingId := NextId(nextBuildingId);
      buildings := buildings + [NewBuilding(id, bt, Vec2i(x, y))];
      SetBlock(x, y, bt.w, bt.h, true);
    }

    /** `cancel_building`: an unknown id changes nothing. Otherwise the first
        building with the id is erased (the others keep their order), its
        footprint is freed, and its cost comes back iff `refund` and it was
        not Complete. */
    method CancelBuilding(id: int, refund: bool)
      requires Valid()
      modifies this
      ensures Valid()
      ensures var s := old(Snapshot()); var j := BuildingIndex(s.buildings, id);
        if j < 0 then Snapshot() == s
        else
          var b := s.buildings[j]; var back := refund && b.state != Complete;
          Snapshot() == s.(world := Blocked(s.world, b.tile, b.w, b.h, false),
                           gold := if back then s.gold + b.costGold else s.gold,
                           wood := if back then s.wood + b.costWood else s.wood,
                           buildings := s.buildings[..j] + s.buildings[j + 1..])
    {
      var j := FindBuilding(buildings, id);
      if j >= 0 {
        EraseBuilding(j, refund);
      }
    }

    /** `remove_building`: as `cancel_building`, and a Complete drop-off also
        loses its first entry in the drop-off registry. */
    method RemoveBuilding(id: int, refund: bool)
      requires Valid()
      modifies this
      ensures Valid()
      ensures var s := old(Snapshot()); var j := BuildingIndex(s.buildings, id);
        if j < 0 then Snapshot() == s
        else
          var b := s.buildings[j]; var back := refund && b.state != Complete;
          Snapshot() == s.(world := Blocked(s.world, b.tile, b.w, b.h, false),
                           gold := if back then s.gold + b.costGold else s.gold,
                           wood := if back then s.wood + b.costWood else s.wood,
                           buildings := s.buildings[..j] + s.buildings[j + 1..],
                           dropoffs := if b.state == Complete && b.kind == Dropoff then RemoveFirst(s.dropoffs, b.tile)
                                       else s.dropoffs)
    {
      var j := FindBuilding(buildings, id);
      if j >= 0 {
        var b := buildings[j];
        if b.state == Complete && b.kind == Dropoff {
          ForgetDropoff(b.tile);
        }
        EraseBuilding(j, refund);
      }
    }

    /** The shared body of the two removals for the building at index j:
        footprint freed, cost back iff `refund` and not Complete, entry erased. */
    method EraseBuilding(j: int, refund: bool)
      requires Valid() && 0 <= j < |buildings|
      modifies this
      ensures Valid()
      ensures var s := old(Snapshot()); var b := s.buildings[j]; var back := refund && b.state != Complete;
        Snapshot() == s.(world := Blocked(s.world, b.tile, b.w, b.h, false),
                         gold := if back then s.gold + b.costGold else s.gold,
                         wood := if back then s.wood + b.costWood else s.wood,
                         buildings := s.buildings[..j] + s.buildings[j + 1..])
    {
      var b := buildings[j];
      SetBlock(b.tile.x, b.tile.y, b.w, b.h, false);
      if refund && b.state != Complete {
        gold := gold + b.costGold;
        wood := wood + b.costWood;
      }
      buildings := buildings[..j] + buildings[j + 1..];
      assert forall k :: 0 <= k < |buildings| ==> buildings[k] == old(buildings)[if k < j then k else k + 1];
    }

    /** The `find_if` and `erase` on the drop-off registry. */
    method ForgetDropoff(p: Vec2i)
      modifies this
      ensures Snapshot() == old(Snapshot()).(dropoffs := RemoveFirst(old(dropoffs), p))
    {
      var k := DropoffAt(dropoffs, p);
      if k >= 0 {
        RemoveFirstIs(dropoffs, p, k);
        dropoffs := dropoffs[..k] + dropoffs[k + 1..];
      }
    }

    // ------------------------------------------------------- training queue

    /** `queue_train(s, buildings[bi], typeId, count)`: refused without change
        for a building that is not a Barracks or an unknown type id. Otherwise
        the longest affordable prefix k of the order (`Train`) is paid for and
        k items of the type are appended with its build time; the result is
        true unless a positive order could not pay for its first unit. */
    method QueueTrain(bi: int, typeId: string, count: int) returns (ok: bool)
      requires Valid() && 0 <= bi < |buildings|
      modifies this
      ensures Valid()
      ensures var s := old(Snapshot()); var b := s.buildings[bi];
        if b.kind != Barracks || typeId !in s.unitTypeIndex then !ok && Snapshot() == s
        else
          var ti := s.unitTypeIndex[typeId]; var ut := s.unitTypes[ti];
          var r := Train(Purse(s.gold, s.wood, s.foodUsed), s.foodCap, ut, count);
          && ok == (count <= 0 || r.0 > 0)
          && Snapshot() == s.(gold := r.1.gold, wood := r.1.wood, foodUsed := r.1.foodUsed,
                              buildings := s.buildings[bi := b.(queue := b.queue + Items(ti, ut.buildTimeMs, r.0))])
    {
      var b := buildings[bi];
      if b.kind != Barracks || typeId !in unitTypeIndex {
        return false;
      }
      var ti := unitTypeIndex[typeId];
      var ut := unitTypes[ti];
      var k, p, q;
      k, p, q, ok := TrainLoop(Purse(gold, wood, foodUsed), foodCap, ut, ti, count, b.queue);
      assert forall j :: 0 <= j < |q| ==> (j < |b.queue| && q[j] == b.queue[j]) || q[j].unitType == ti;
      ValidQueueSwap(Snapshot(), bi, q, p.gold, p.wood, p.foodUsed);
      gold, wood, foodUsed := p.gold, p.wood, p.foodUsed;
      buildings := buildings[bi := b.(queue := q)];
    }

    /** The `for (i < count)` loop of `queue_train` over the purse and the
        queue: stops at the first unit it cannot afford. */
    static method TrainLoop(p: Purse, foodCap: int, ut: UnitType, ti: int, count: int, q: seq<TrainItem>)
      returns (k: nat, p': Purse, q': seq<TrainItem>, ok: bool)
      ensures (k, p') == Train(p, foodCap, ut, count)
      ensures q' == q + Items(ti, ut.buildTimeMs, k)
      ensures ok == (count <= 0 || k > 0)
    {
      p', q' := p, q;
      ItemsNone(q, ti, ut.buildTimeMs);
      var i := 0;
      while i < count
        invariant 0 <= i <= Max(count, 0)
        invariant Train(p, foodCap, ut, count).0 == i + Train(p', foodCap, ut, count - i).0
        invariant Train(p, foodCap, ut, count).1 == Train(p', foodCap, ut, count - i).1
        invariant q' == q + Items(ti, ut.buildTimeMs, i)
        decreases count - i
      {
        if !CanAfford(p', foodCap, ut) {
          TrainStops(p', foodCap, ut, count - i);
          return i, p', q', i > 0;
        }
        TrainSteps(p', foodCap, ut, count - i);
        ItemsSnoc(q, ti, ut.buildTimeMs, i);
        p' := Pay(p', ut);
        q' := q' + [TrainItem(ti, ut.buildTimeMs)];
        i := i + 1;
      }
      TrainStops(p', foodCap, ut, count - i);
      return i, p', q', true;
    }

    /** `cancel_last_train(s, buildings[bi])`: false on an empty queue;
        otherwise the last item leaves the queue and exactly its type's cost
        and food come back. The building kind is not checked. */
    method CancelLastTrain(bi: int) returns (ok: bool)
      requires Valid() && 0 <= bi < |buildings|
      modifies this
      ensures Valid()
      ensures var s := old(Snapshot()); var q := s.buildings[bi].queue;
        if q == [] then !ok && Snapshot() == s
        else
          var p := Refund(Purse(s.gold, s.wood, s.foodUsed), s.unitTypes[q[|q| - 1].unitType]);
          && ok
          && Snapshot() == s.(gold := p.gold, wood := p.wood, foodUsed := p.foodUsed,
                              buildings := s.buildings[bi := s.buildings[bi].(queue := q[..|q| - 1])])
    {
      var q := buildings[bi].queue;
      if q == [] {
        return false;
      }
      var ut := unitTypes[q[|q| - 1].unitType];
      gold := gold + ut.costGold;
      wood := wood + ut.costWood;
      foodUsed := foodUsed - ut.food;
      buildings := buildings[bi := buildings[bi].(queue := q[..|q| - 1])];
      ok := true;
    }

    /** `cancel_train_at(s, buildings[bi], idx)`: false without change for a
        building that is not a Barracks, an empty queue or `idx` past the end;
        otherwise item idx leaves the queue (the others keep their order) and
        exactly its type's cost and food come back. */
    method CancelTrainAt(bi: int, idx: nat) returns (ok: bool)
      requires Valid() && 0 <= bi < |buildings|
      modifies this
      ensures Valid()
      ensures var s := old(Snapshot()); var b := s.buildings[bi]; var q := b.queue;
        if b.kind != Barracks || q == [] || idx >= |q| then !ok && Snapshot() == s
        else
          var p := Refund(Purse(s.gold, s.wood, s.foodUsed), s.unitTypes[q[idx].unitType]);
          && ok
          && Snapshot() == s.(gold := p.gold, wood := p.wood, foodUsed := p.foodUsed,
                              buildings := s.buildings[bi := b.(queue := q[..idx] + q[idx + 1..])])
    {
      var b := buildings[bi];
      if b.kind != Barracks || b.queue == [] {
        return false;
      }
      if idx >= |b.queue| {
        return false;
      }
      var ut := unitTypes[b.queue[idx].unitType];
      var q' := b.queue[..idx] + b.queue[idx + 1..];
      assert forall k :: 0 <= k < |q'| ==> q'[k] == b.queue[if k < idx then k else k + 1];
      ValidQueueSwap(Snapshot(), bi, q', gold + ut.costGold, wood + ut.costWood, foodUsed - ut.food);
      gold := gold + ut.costGold;
      wood := wood + ut.costWood;
      foodUsed := foodUsed - ut.food;
      buildings := buildings[bi := b.(queue := q')];
      ok := true;
    }

    // ------------------------------------------------------ units and orders

    /** `spawn_unit(s, typeId, x, y)`: the unit table and counter of `Spawned`;
        returns the new id, or 0 for an unknown type id. */
    method SpawnUnit(typeId: string, x: int, y: int) returns (id: int)
      requires Valid()
      modifies this
      ensures Valid()
      ensures var r := Spawned(old(Snapshot()), typeId, Vec2i(x, y));
        id == r.2 && Snapshot() == old(Snapshot()).(units := r.0, nextUnitId := r.1)
    {
      if typeId !in unitTypeIndex {
        return 0;
      }
      var ti := unitTypeIndex[typeId];
      var u := NewUnit(nextUnitId, ti, Vec2i(x, y), unitTypes[ti].hp);
      nextUnitId := NextId(nextUnitId);
      units := units + [u];
      id := u.id;
    }

    /** `order_move(s, u, gx, gy)`: the state `Moved` describes. */
    method OrderMove(u: int, gx: int, gy: int)
      requires Ready() && InBounds(world, Vec2i(gx, gy))
      modifies this
      ensures Ready()
      ensures Moved(old(Snapshot()), u, Vec2i(gx, gy), Snapshot())
    {
      var j := FindUnit(units, u);
      if j < 0 {
        return;
      }
      var e := units[j];
      var p := Route(world, e.tile, Vec2i(gx, gy));
      GroundedUnitSwap(Snapshot(), j, e.(goal := Vec2i(gx, gy), job := Moving, path := p));
      units := units[j := e.(goal := Vec2i(gx, gy), job := Moving, path := p)];
    }

    /** `order_gather(s, u, tx, ty)`: the first unit with id u (if any) becomes
        the unit of `GatherOf`, with a fresh path when it is sent somewhere. */
    method OrderGather(u: int, tx: int, ty: int)
      requires Ready()
      modifies this
      ensures Ready()
      ensures var s := old(Snapshot()); var j := UnitIndex(s.units, u);
        if j < 0 then Snapshot() == s
        else
          var r := GatherOf(s.world, s.units[j], Vec2i(tx, ty));
          && |units| == |s.units|
          && Snapshot() == s.(units := s.units[j := units[j]])
          && (r.1 ==> units[j] == r.0.(path := units[j].path) && PathOk(s.world, r.0.tile, r.0.goal, units[j].path))
          && (!r.1 ==> units[j] == r.0)
    {
      var j := FindUnit(units, u);
      if j < 0 {
        return;
      }
      var e := units[j];
      var t := Vec2i(tx, ty);
      var kind := GatherKind(world, t);
      if kind == NoResource {
        GroundedUnitSwap(Snapshot(), j, e.(job := Idle, carriedKind := 0));
        units := units[j := e.(job := Idle, carriedKind := 0)];
        return;
      }
      e := e.(job := GatherJob(kind), carriedKind := CarriedCode(kind));
      var stand := GatherStand(world, t, kind, e.tile);
      if stand.None? {
        GroundedUnitSwap(Snapshot(), j, e.(job := Idle));
        units := units[j := e.(job := Idle)];
        return;
      }
      var p := Route(world, e.tile, stand.value);
      e := e.(goal := stand.value, path := p);
      GroundedUnitSwap(Snapshot(), j, e);
      units := units[j := e];
    }

    /** Where `order_gather` sends a gatherer: a stand tile of the target when
        it holds the resource, else the stand tile of the nearest one. */
    static method GatherStand(m: Map, t: Vec2i, kind: ResourceKind, from: Vec2i) returns (stand: Option<Vec2i>)
      requires TerrainSized(m) && Sized(m)
      ensures var here := if IsResourceTile(m, t, kind) then StandTileOf(m, t, from) else None;
        stand == if here.Some? then here
                 else match NearestResourceOf(m, from, kind) case None => None case Some((_, q)) => Some(q)
    {
      stand := None;
      if IsResourceTile(m, t, kind) {
        stand := FindStandTile(m, t, from);
      }
      if stand.None? {
        var near := FindNearestResource(m, from, kind);
        if near.Some? {
          stand := Some(near.value.1);
        }
      }
    }

    // ------------------------------------------------------------- the step

    /** `unit_step(s, units[i], dt)`: the tick `TickOf` describes (the tick
        length is not used). */
    method UnitStep(i: int, dt: int)
      requires Ready() && 0 <= i < |units|
      modifies this
      ensures Ready()
      ensures Ticked(old(Snapshot()), Snapshot(), i, TickOf(old(world), old(dropoffs), old(gold), old(wood), old(units[i])))
    {
      var e := units[i];
      if e.path != [] {
        var next := e.path[0];
        if !Walkable(world, next) {
          GroundedUnitSwap(Snapshot(), i, e.(path := []));
          units := units[i := e.(path := [])];
          return;
        }
        GroundedUnitSwap(Snapshot(), i, e.(tile := next, path := e.path[1..]));
        units := units[i := e.(tile := next, path := e.path[1..])];
        return;
      }
      if e.job == Moving {
        GroundedUnitSwap(Snapshot(), i, e.(job := Idle));
        units := units[i := e.(job := Idle)];
        return;
      }
      ghost var s0 := Snapshot();
      if e.job == GatheringGold {
        MineStep(i, Gold);
      } else if e.job == GatheringWood {
        MineStep(i, Wood);
      } else if e.job == Delivering {
        DeliverStep(i);
      }
      TickedKeeps(s0, Snapshot(), i);
    }

    /** The `mine_logic` lambda for unit i: the tick `Mine` describes. */
    method MineStep(i: int, kind: ResourceKind)
      requires Ready() && 0 <= i < |units| && kind != NoResource
      modifies this
      ensures Ticked(old(Snapshot()), Snapshot(), i, Mine(old(world), old(dropoffs), old(gold), old(wood), old(units[i]), kind))
    {
      var e := units[i];
      var adj := FindAdjacentResource(world, e.tile, kind);
      if adj.None? {
        var near := FindNearestResource(world, e.tile, kind);
        if near.Some? {
          var stand := near.value.1;
          var p := Route(world, e.tile, stand);
          e := e.(goal := stand, path := p);
        } else {
          e := e.(job := Idle);
        }
        units := units[i := e];
        return;
      }
      MineAtStep(i, kind, adj.value);
    }

    /** Working the resource tile `res` next to unit i: the tick `MineAt`
        describes. */
    method MineAtStep(i: int, kind: ResourceKind, res: Vec2i)
      requires Ready() && 0 <= i < |units| && kind != NoResource && IsResourceTile(world, res, kind)
      modifies this
      ensures Ticked(old(Snapshot()), Snapshot(), i, MineAt(old(world), old(dropoffs), old(gold), old(wood), old(units[i]), kind, res))
    {
      ghost var s0 := Snapshot();
      var ok, taken := ResourceTakeAt(res.x, res.y, TakeSize);
      GroundedWorldSwap(s0, world);
      var e := units[i].(carried := units[i].carried + taken);
      var cell := Ridx(world, res);
      if world.resAmount[cell] <= 0 {
        MoveOn(i, kind, e);
      } else if e.carried >= Capacity {
        SendToDropoff(i, e);
      } else {
        units := units[i := e];
      }
    }

    /** After emptying a tile: on to the nearest harvestable tile of the kind,
        else to deliver what is carried, else Idle. Only unit i changes. */
    method MoveOn(i: int, kind: ResourceKind, e: Unit)
      requires Ready() && 0 <= i < |units| && kind != NoResource && e.tile == units[i].tile
      modifies this
      ensures |units| == |old(units)| && Snapshot() == old(Snapshot()).(units := old(units)[i := units[i]])
      ensures match NearestResourceOf(old(world), e.tile, kind)
        case Some((_, stand)) => units[i] == e.(goal := stand, path := units[i].path) && PathOk(world, e.tile, stand, units[i].path)
        case None =>
          if e.carried > 0 then
            units[i] == ToDropoff(e, dropoffs).(path := units[i].path) && PathOk(world, e.tile, NearestDropoffOf(dropoffs, e.tile), units[i].path)
          else units[i] == e.(job := Idle)
    {
      var near := FindNearestResource(world, e.tile, kind);
      if near.Some? {
        var stand := near.value.1;
        var p := Route(world, e.tile, stand);
        units := units[i := e.(goal := stand, path := p)];
      } else if e.carried > 0 {
        SendToDropoff(i, e);
      } else {
        units := units[i := e.(job := Idle)];
      }
    }

    /** A full load: unit i heads for the nearest drop-off to deliver. */
    method SendToDropoff(i: int, e: Unit)
      requires Ready() && 0 <= i < |units| && e.tile == units[i].tile
      modifies this
      ensures |units| == |old(units)| && Snapshot() == old(Snapshot()).(units := old(units)[i := units[i]])
      ensures units[i] == ToDropoff(e, dropoffs).(path := units[i].path)
      ensures PathOk(world, e.tile, NearestDropoffOf(dropoffs, e.tile), units[i].path)
    {
      var d := NearestDropoff(dropoffs, e.tile);
      var p := Route(world, e.tile, d);
      units := units[i := e.(goal := d, path := p, job := Delivering)];
    }

    /** The Delivering branch for unit i: the tick `Deliver` describes. */
    method DeliverStep(i: int)
      requires Ready() && 0 <= i < |units|
      modifies this
      ensures Ticked(old(Snapshot()), Snapshot(), i, Deliver(old(world), old(dropoffs), old(gold), old(wood), old(units[i])))
    {
      var e := units[i];
      var d := NearestDropoff(dropoffs, e.tile);
      if e.tile.x != d.x || e.tile.y != d.y {
        return;
      }
      if e.carriedKind == 1 {
        gold := gold + e.carried;
      } else if e.carriedKind == 2 {
        wood := wood + e.carried;
      }
      e := Resume(world, e.(carried := 0));
      units := units[i := e];
    }

    /** After a delivery: back to the nearest resource of the kind carried,
        or Idle with no carrier code. */
    static method Resume(m: Map, e: Unit) returns (e': Unit)
      requires Sized(m) && InBounds(m, e.tile)
      ensures var kind := CarriedResource(e.carriedKind);
        if kind != NoResource && NearestResourceOf(m, e.tile, kind).Some? then
          var stand := NearestResourceOf(m, e.tile, kind).value.1;
          && e' == e.(job := GatherJob(kind), goal := stand, path := e'.path)
          && PathOk(m, e.tile, stand, e'.path)
        else e' == e.(carriedKind := 0, job := Idle)
    {
      if e.carriedKind == 1 || e.carriedKind == 2 {
        var kind := if e.carriedKind == 1 then Gold else Wood;
        var near := FindNearestResource(m, e.tile, kind);
        if near.Some? {
          var stand := near.value.1;
          var p := Route(m, e.tile, stand);
          return e.(job := GatherJob(kind), goal := stand, path := p);
        }
      }
      return e.(carriedKind := 0, job := Idle);
    }

    /** The `adj_workers` loop of `step`: the workers assigned to b. */
    method AdjWorkers(b: Building) returns (n: nat)
      ensures n == Workers(units, b)
    {
      n := 0;
      var k := 0;
      while k < |units|
        invariant 0 <= k <= |units|
        invariant n == Workers(units[..k], b)
      {
        assert units[..k + 1][..k] == units[..k];
        var u := units[k];
        if u.typeIndex == 0 && u.job == Build && u.buildingTarget == b.id && FootprintDistance(u.tile, b) == 1 {
          n := n + 1;
        }
        k := k + 1;
      }
      assert units[..k] == units;
    }

    /** The construction part of `step` for building k: the state `Constructed`. */
    method ConstructStep(k: int, dt: int)
      requires Ready() && 0 <= k < |buildings|
      modifies this
      ensures Snapshot() == Constructed(old(Snapshot()), k, dt)
    {
      var b := buildings[k];
      var n := AdjWorkers(b);
      ghost var c := Construct(b, n, dt);
      if b.state != Complete && n > 0 {
        var progress := b.buildProgressMs + BuildRate(dt, n);
        if progress >= b.buildTotalMs {
          assert JustCompleted(b, c) && c == b.(state := Complete, buildProgressMs := progress);
          buildings := buildings[k := b.(state := Complete, buildProgressMs := progress)];
          if b.kind == Dropoff {
            OpenDropoff(b);
          } else if b.kind == Farm {
            foodCap := foodCap + 4;
          }
        } else {
          assert !JustCompleted(b, c) && c == b.(state := Constructing, buildProgressMs := progress);
          buildings := buildings[k := b.(state := Constructing, buildProgressMs := progress)];
        }
      } else {
        assert !JustCompleted(b, c) && c == b;
        assert buildings[k := c] == buildings;
      }
    }

    /** The production part of `step` for building k: the state `Fielded`
        describes. */
    method ProduceStep(k: int, dt: int)
      requires Ready() && 0 <= k < |buildings| && 0 <= dt < IdRange
      modifies this
      ensures Ready()
      ensures Fielded(old(Snapshot()), k, dt, Snapshot())
    {
      var b := buildings[k];
      if b.kind != Barracks || b.state != Complete || b.queue == [] {
        return;
      }
      var front := b.queue[0].(remainingMs := b.queue[0].remainingMs - Int32Of(dt));
      if front.remainingMs > 0 {
        GroundedBuildingSwap(Snapshot(), k, b.(queue := [front] + b.queue[1..]));
        buildings := buildings[k := b.(queue := [front] + b.queue[1..])];
        return;
      }
      FieldFront(k, dt);
    }

    /** Production when the front item's time runs out: its unit is spawned,
        sent to the rally point when one is set, and the item leaves the queue. */
    method FieldFront(k: int, dt: int)
      requires Ready() && 0 <= k < |buildings| && 0 <= dt < IdRange
      requires var b := buildings[k];
        b.kind == Barracks && b.state == Complete && b.queue != [] && b.queue[0].remainingMs - Int32Of(dt) <= 0
      modifies this
      ensures Ready()
      ensures Fielded(old(Snapshot()), k, dt, Snapshot())
    {
      var b := buildings[k];
      var spawn := FindSpawnTile(world, b);
      ghost var s := Snapshot();
      SpawnRallied(unitTypes[b.queue[0].unitType].id, spawn, b);
      ghost var s2 := Snapshot();
      GroundedBuildingSwap(s2, k, b.(queue := b.queue[1..]));
      buildings := buildings[k := b.(queue := b.queue[1..])];
      ghost var r := Spawned(s, unitTypes[b.queue[0].unitType].id, spawn);
      if RallySet(b) {
        MovedFrame(s.(units := r.0, nextUnitId := r.1), r.2, b.rally, s2, buildings);
      }
    }

    /** The spawn of the production step: a unit of the type on the tile,
        sent to the rally point when one is set. */
    method SpawnRallied(typeId: string, at: Vec2i, b: Building)
      requires Ready() && InBounds(world, at) && (RallySet(b) ==> InBounds(world, b.rally))
      modifies this
      ensures Ready()
      ensures var s := old(Snapshot()); var r := Spawned(s, typeId, at); var s1 := s.(units := r.0, nextUnitId := r.1);
        if RallySet(b) then Moved(s1, r.2, b.rally, Snapshot()) else Snapshot() == s1
    {
      SpawnedGrounded(Snapshot(), typeId, at);
      var uid := SpawnUnit(typeId, at.x, at.y);
      if RallySet(b) {
        OrderMove(uid, b.rally.x, b.rally.y);
      }
    }

    /** One building's share of `step`: construction, then production. */
    method BuildingStep(k: int, dt: int)
      requires Ready() && 0 <= k < |buildings| && 0 <= dt < IdRange
      modifies this
      ensures BuiltAt(old(Snapshot()), Snapshot(), k, dt)
      ensures Ready() && Evolved(old(Snapshot()), Snapshot())
      ensures LedgerOk(old(world)) ==> LedgerOk(world)
      ensures gold == old(gold) && wood == old(wood)
    {
      ghost var s0 := Snapshot();
      ConstructedKeeps(s0, k, dt);
      ConstructStep(k, dt);
      ghost var s1 := Snapshot();
      ProduceStep(k, dt);
      FieldedKeeps(s1, k, dt, Snapshot());
      EvolvedTrans(s0, s1, Snapshot());
    }

    /** The unit loop of `step`: every unit takes its tick in order; `ticks`
        holds the state before each unit's share and the final one. */
    method UnitsStep(dt: int) returns (ghost ticks: seq<State>)
      requires Ready()
      modifies this
      ensures |ticks| == |old(units)| + 1 && ticks[0] == old(Snapshot()) && ticks[|old(units)|] == Snapshot()
      ensures forall i :: 0 <= i < |old(units)| ==> TickedAt(ticks[i], ticks[i + 1], i)
      ensures Ready() && Evolved(old(Snapshot()), Snapshot())
      ensures LedgerOk(old(world)) ==> LedgerOk(world)
    {
      ticks := [Snapshot()];
      var i := 0;
      while i < |units|
        invariant 0 <= i <= |units| == |old(units)|
        invariant |ticks| == i + 1 && ticks[0] == old(Snapshot()) && ticks[i] == Snapshot()
        invariant forall j :: 0 <= j < i ==> TickedAt(ticks[j], ticks[j + 1], j)
        invariant Ready() && Evolved(old(Snapshot()), Snapshot())
        invariant LedgerOk(old(world)) ==> LedgerOk(world)
      {
        ghost var s0 := Snapshot();
        UnitStep(i, dt);
        TickedKeeps(s0, Snapshot(), i);
        EvolvedTrans(old(Snapshot()), s0, Snapshot());
        TicksExtend(ticks, Snapshot(), i);
        ticks := ticks + [Snapshot()];
        i := i + 1;
      }
    }

    /** The building loop of `step`: every building its construction and
        production in order; `builds` holds the state before each building's
        share and the final one. */
    method BuildingsStep(dt: int) returns (ghost builds: seq<State>)
      requires Ready() && 0 <= dt < IdRange
      modifies this
      ensures |builds| == |old(buildings)| + 1 && builds[0] == old(Snapshot()) && builds[|old(buildings)|] == Snapshot()
      ensures forall k :: 0 <= k < |old(buildings)| ==> BuiltAt(builds[k], builds[k + 1], k, dt)
      ensures Ready() && Evolved(old(Snapshot()), Snapshot())
      ensures LedgerOk(old(world)) ==> LedgerOk(world)
    {
      builds := [Snapshot()];
      var k := 0;
      while k < |buildings|
        invariant 0 <= k <= |buildings| == |old(buildings)|
        invariant |builds| == k + 1 && builds[0] == old(Snapshot()) && builds[k] == Snapshot()
        invariant forall j :: 0 <= j < k ==> BuiltAt(builds[j], builds[j + 1], j, dt)
        invariant Ready() && Evolved(old(Snapshot()), Snapshot())
        invariant LedgerOk(old(world)) ==> LedgerOk(world)
      {
        ghost var s0 := Snapshot();
        BuildingStep(k, dt);
        EvolvedTrans(old(Snapshot()), s0, Snapshot());
        BuildsSnoc(builds, Snapshot(), k, dt);
        builds := builds + [Snapshot()];
        k := k + 1;
      }
    }

    /** `step(s, dt)`: the unit loop, then the building loop on the state it
        leaves. The state stays ready for the next step, the ledger invariant
        holds throughout, and the state only changes in the ways `Evolved`
        allows. */
    method Step(dt: int) returns (ghost ticks: seq<State>, ghost builds: seq<State>)
      requires Ready() && 0 <= dt < IdRange
      modifies this
      ensures |ticks| == |old(units)| + 1 && ticks[0] == old(Snapshot())
      ensures forall i :: 0 <= i < |old(units)| ==> TickedAt(ticks[i], ticks[i + 1], i)
      ensures |builds| == |old(buildings)| + 1 && builds[0] == ticks[|old(units)|] && builds[|old(buildings)|] == Snapshot()
      ensures forall k :: 0 <= k < |old(buildings)| ==> BuiltAt(builds[k], builds[k + 1], k, dt)
      ensures Ready() && Evolved(old(Snapshot()), Snapshot())
      ensures LedgerOk(old(world)) ==> LedgerOk(world)
    {
      ticks := UnitsStep(dt);
      ghost var s1 := Snapshot();
      builds := BuildingsStep(dt);
      EvolvedTrans(old(Snapshot()), s1, Snapshot());
    }

    /** A completed drop-off: its tile joins the registry, becomes a drop-off
        tile, and its footprint is freed so units can stand on it. */
    method OpenDropoff(b: Building)
      requires TerrainSized(world) && InBounds(world, b.tile)
      modifies this
      ensures Snapshot() == old(Snapshot()).(dropoffs := old(dropoffs) + [b.tile],
        world := Blocked(old(world).(tiles := old(world).tiles[Ridx(old(world), b.tile) := TileDropoff]), b.tile, b.w, b.h, false))
    {
      dropoffs := dropoffs + [b.tile];
      var cell := Ridx(world, b.tile);
      world := world.(tiles := world.tiles[cell := TileDropoff]);
      SetBlock(b.tile.x, b.tile.y, b.w, b.h, false);
    }
  }
}
