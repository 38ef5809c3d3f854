/** The per-unit rules of the simulation: one tick of `unit_step` (path
    advance, the gather, deliver and auto-resume job machine) and the job
    `order_gather` hands out. Both are functions of the state they read; the
    path-finder they call is represented by a `route` flag, set when the unit
    must be given a fresh path from its tile to its goal. */
module Jobs {
  import opened Grid
  import opened Types
  import opened Search
  import opened Ledger

  /** The most a unit carries before it turns to deliver. */
  const Capacity := 20

  /** How much one gather tick tries to take. */
  const TakeSize := 2

  /** What one unit tick leaves behind: the unit (its path cleared when
      `route` is set), the map, the gold and wood stock. */
  datatype Tick = Tick(u: Unit, m: Map, gold: int, wood: int, route: bool)

  function GatherJob(kind: ResourceKind): UnitJob
  {
    if kind == Gold then GatheringGold else GatheringWood
  }

  /** The resource a carrier code stands for (1 gold, 2 wood). */
  function CarriedResource(ck: int): ResourceKind
  {
    if ck == 1 then Gold else if ck == 2 then Wood else NoResource
  }

  /** The carrier code of a resource kind. */
  function CarriedCode(kind: ResourceKind): int
  {
    if kind == Gold then 1 else if kind == Wood then 2 else 0
  }

  /** The unit sent towards the nearest drop-off to deliver its load. */
  function ToDropoff(e: Unit, ds: seq<Vec2i>): Unit
  {
    e.(goal := NearestDropoffOf(ds, e.tile), path := [], job := Delivering)
  }

  /** The `mine_logic` lambda of `unit_step` for a unit with no path left.
      With no neighbour of `kind` the unit is sent to the stand tile of the
      nearest harvestable tile, or goes Idle when none is left; otherwise it
      works the first such neighbour (`MineAt`). Gold and wood in stock never
      change here. */
  function Mine(m: Map, ds: seq<Vec2i>, gold: int, wood: int, e: Unit, kind: ResourceKind): (r: Tick)
    requires Sized(m) && kind != NoResource
    ensures Sized(r.m) && r.m.width == m.width && r.m.height == m.height && r.gold == gold && r.wood == wood
    ensures r.u.tile == e.tile && r.u.id == e.id && r.u.typeIndex == e.typeIndex && r.u.carriedKind == e.carriedKind
    ensures r.route ==> r.u.path == []
    ensures AdjacentResourceOf(m, e.tile, kind).None? ==> (
      r.m == m && r.u.carried == e.carried &&
      match NearestResourceOf(m, e.tile, kind)
      case Some((_, stand)) => r.route && r.u == e.(goal := stand, path := [])
      case None => !r.route && r.u == e.(job := Idle))
    ensures AdjacentResourceOf(m, e.tile, kind).Some? ==> r == MineAt(m, ds, gold, wood, e, kind, AdjacentResourceOf(m, e.tile, kind).value)
  {
    var adj := AdjacentResourceOf(m, e.tile, kind);
    if adj.None? then
      match NearestResourceOf(m, e.tile, kind)
      case Some((_, stand)) => Tick(e.(goal := stand, path := []), m, gold, wood, true)
      case None => Tick(e.(job := Idle), m, gold, wood, false)
    else MineAt(m, ds, gold, wood, e, kind, adj.value)
  }

  /** Working the resource tile `res` next to the unit: it takes up to 2 and
      carries exactly what was taken. A tile emptied by the take sends the unit
      to the next resource of the kind, or to deliver what it carries, or to
      Idle; a full load (20 or more) sends it to the nearest drop-off; anything
      else leaves it where it is, working on. */
  function MineAt(m: Map, ds: seq<Vec2i>, gold: int, wood: int, e: Unit, kind: ResourceKind, res: Vec2i): (r: Tick)
    requires Sized(m) && kind != NoResource && IsResourceTile(m, res, kind)
    ensures Sized(r.m) && r.m.width == m.width && r.m.height == m.height && r.gold == gold && r.wood == wood
    ensures r.u.tile == e.tile && r.u.id == e.id && r.u.typeIndex == e.typeIndex && r.u.carriedKind == e.carriedKind
    ensures r.route ==> r.u.path == []
    ensures var t := TakeAt(m, res, TakeSize); var left := t.m.resAmount[Ridx(m, res)];
      && t.ok && 0 < t.taken <= TakeSize
      && r.m == t.m && r.u.carried == e.carried + t.taken
      && (left > 0 && r.u.carried >= Capacity ==> r.route && r.u == ToDropoff(e, ds).(carried := r.u.carried))
      && (left > 0 && r.u.carried < Capacity ==> !r.route && r.u == e.(carried := r.u.carried))
      && (left <= 0 ==> match NearestResourceOf(t.m, e.tile, kind)
            case Some((_, stand)) => r.route && r.u == e.(carried := r.u.carried, goal := stand, path := [])
            case None =>
              if r.u.carried > 0 then r.route && r.u == ToDropoff(e, ds).(carried := r.u.carried)
              else !r.route && r.u == e.(carried := r.u.carried, job := Idle))
  {
    var t := TakeAt(m, res, TakeSize);
    var e1 := e.(carried := e.carried + t.taken);
    if t.m.resAmount[Ridx(t.m, res)] <= 0 then
      match NearestResourceOf(t.m, e1.tile, kind)
      case Some((_, stand)) => Tick(e1.(goal := stand, path := []), t.m, gold, wood, true)
      case None =>
        if e1.carried > 0 then Tick(ToDropoff(e1, ds), t.m, gold, wood, true)
        else Tick(e1.(job := Idle), t.m, gold, wood, false)
    else if e1.carried >= Capacity then Tick(ToDropoff(e1, ds), t.m, gold, wood, true)
    else Tick(e1, t.m, gold, wood, false)
  }

  /** Nothing is lost or created while mining: what the unit gains is exactly
      what left the tile it worked, and every other tile is untouched. */
  lemma MineAtConserves(m: Map, ds: seq<Vec2i>, gold: int, wood: int, e: Unit, kind: ResourceKind, res: Vec2i)
    requires Sized(m) && kind != NoResource && IsResourceTile(m, res, kind)
    ensures var r := MineAt(m, ds, gold, wood, e, kind, res); var i := Ridx(m, res);
      && r.u.carried - e.carried == m.resAmount[i] - r.m.resAmount[i]
      && SameElsewhere(m, r.m, i)
  {
    var t := TakeAt(m, res, TakeSize);
    var i := Ridx(m, res);
    assert t.taken == Min(TakeSize, m.resAmount[i]);
    if m.resAmount[i] - t.taken <= 0 {
      assert t.taken == m.resAmount[i];
    }
  }

  /** The Delivering branch of `unit_step`. Away from the nearest drop-off
      nothing happens. On it the load goes into gold (carrier code 1) or wood
      (code 2), the unit carries nothing, and it returns to the nearest
      resource of the kind it carried, or goes Idle with no carrier code when
      there is none. The map never changes. */
  function Deliver(m: Map, ds: seq<Vec2i>, gold: int, wood: int, e: Unit): (r: Tick)
    requires Sized(m)
    ensures r.m == m && r.u.tile == e.tile && r.u.id == e.id && r.u.typeIndex == e.typeIndex
    ensures r.route ==> r.u.path == []
    ensures e.tile != NearestDropoffOf(ds, e.tile) ==> r == Tick(e, m, gold, wood, false)
    ensures e.tile == NearestDropoffOf(ds, e.tile) ==>
      && r.u.carried == 0
      && r.gold == gold + (if e.carriedKind == 1 then e.carried else 0)
      && r.wood == wood + (if e.carriedKind == 2 then e.carried else 0)
      && (r.route <==> (e.carriedKind == 1 || e.carriedKind == 2)
                       && NearestResourceOf(m, e.tile, CarriedResource(e.carriedKind)).Some?)
      && (r.route ==> r.u.job == GatherJob(CarriedResource(e.carriedKind))
                      && r.u.goal == NearestResourceOf(m, e.tile, CarriedResource(e.carriedKind)).value.1)
      && (!r.route ==> r.u.job == Idle && r.u.carriedKind == 0)
  {
    var d := NearestDropoffOf(ds, e.tile);
    if e.tile != d then Tick(e, m, gold, wood, false)
    else
      var gold' := if e.carriedKind == 1 then gold + e.carried else gold;
      var wood' := if e.carriedKind == 1 then wood else if e.carriedKind == 2 then wood + e.carried else wood;
      var e1 := e.(carried := 0);
      var kind := CarriedResource(e.carriedKind);
      if kind != NoResource && NearestResourceOf(m, e1.tile, kind).Some? then
        var stand := NearestResourceOf(m, e1.tile, kind).value.1;
        Tick(e1.(job := GatherJob(kind), goal := stand, path := []), m, gold', wood', true)
      else
        Tick(e1.(carriedKind := 0, job := Idle), m, gold', wood', false)
  }

  /** `unit_step` (the tick length is not used). A unit with a path steps onto
      its first waypoint if that tile is walkable and drops it from the path,
      and otherwise keeps its tile and loses the whole path; a Moving unit
      that has arrived becomes Idle; gathering units run `Mine`, delivering
      units `Deliver`; every other unit is left alone. */
  function TickOf(m: Map, ds: seq<Vec2i>, gold: int, wood: int, e: Unit): (r: Tick)
    requires Sized(m)
    ensures Sized(r.m) && r.m.width == m.width && r.m.height == m.height
    ensures r.u.id == e.id && r.u.typeIndex == e.typeIndex
    ensures r.route ==> r.u.path == []
    ensures e.path != [] && Walkable(m, e.path[0]) ==>
      r == Tick(e.(tile := e.path[0], path := e.path[1..]), m, gold, wood, false)
    ensures e.path != [] && !Walkable(m, e.path[0]) ==> r == Tick(e.(path := []), m, gold, wood, false)
    ensures e.path == [] && e.job == Moving ==> r == Tick(e.(job := Idle), m, gold, wood, false)
    ensures e.path == [] && e.job == GatheringGold ==> r == Mine(m, ds, gold, wood, e, Gold)
    ensures e.path == [] && e.job == GatheringWood ==> r == Mine(m, ds, gold, wood, e, Wood)
    ensures e.path == [] && e.job == Delivering ==> r == Deliver(m, ds, gold, wood, e)
    ensures e.path == [] && !(e.job in {Moving, GatheringGold, GatheringWood, Delivering}) ==>
      r == Tick(e, m, gold, wood, false)
  {
    if e.path != [] then
      if !Walkable(m, e.path[0]) then Tick(e.(path := []), m, gold, wood, false)
      else Tick(e.(tile := e.path[0], path := e.path[1..]), m, gold, wood, false)
    else if e.job == Moving then Tick(e.(job := Idle), m, gold, wood, false)
    else if e.job == GatheringGold then Mine(m, ds, gold, wood, e, Gold)
    else if e.job == GatheringWood then Mine(m, ds, gold, wood, e, Wood)
    else if e.job == Delivering then Deliver(m, ds, gold, wood, e)
    else Tick(e, m, gold, wood, false)
  }

  /** A delivering unit that has arrived loses nothing in transit: the gold
      and wood in stock plus what it carries add up to the same total after
      the tick, whether or not a drop-off was in reach. */
  lemma TickConserves(m: Map, ds: seq<Vec2i>, gold: int, wood: int, e: Unit)
    requires Sized(m) && e.path == [] && e.job == Delivering && (e.carriedKind == 1 || e.carriedKind == 2)
    ensures var r := TickOf(m, ds, gold, wood, e);
      r.gold + r.wood + r.u.carried == gold + wood + e.carried
  {
  }

  /** A tick keeps the ledger invariant, and a unit that moves only ever
      moves onto a walkable tile. */
  lemma TickKeepsLedger(m: Map, ds: seq<Vec2i>, gold: int, wood: int, e: Unit)
    requires Sized(m)
    ensures LedgerOk(m) ==> LedgerOk(TickOf(m, ds, gold, wood, e).m)
    ensures var r := TickOf(m, ds, gold, wood, e); r.u.tile != e.tile ==> Walkable(m, r.u.tile)
  {
    if LedgerOk(m) && e.path == [] && (e.job == GatheringGold || e.job == GatheringWood) {
      var kind := if e.job == GatheringGold then Gold else Wood;
      var adj := AdjacentResourceOf(m, e.tile, kind);
      if adj.Some? {
        TakeAtKeepsLedger(m, adj.value, TakeSize);
      }
    }
  }

  // ---------------------------------------------------------------- gathering

  /** The resource `order_gather` assigns for target tile t: from the ledger
      when it names gold or wood, otherwise from the terrain (gold mine or
      forest); none off the map or anywhere else. */
  function GatherKind(m: Map, t: Vec2i): (k: ResourceKind)
    requires Sized(m)
    ensures !InBounds(m, t) ==> k == NoResource
    ensures InBounds(m, t) && m.resKind[Ridx(m, t)] == ResourceCode(Gold) ==> k == Gold
    ensures InBounds(m, t) && m.resKind[Ridx(m, t)] == ResourceCode(Wood) ==> k == Wood
    ensures InBounds(m, t) && m.resKind[Ridx(m, t)] != ResourceCode(Gold) && m.resKind[Ridx(m, t)] != ResourceCode(Wood) ==>
      k == (if m.tiles[Ridx(m, t)] == TileGold then Gold else if m.tiles[Ridx(m, t)] == TileForest then Wood else NoResource)
  {
    if !InBounds(m, t) then NoResource
    else
      var i := Ridx(m, t);
      if m.resKind[i] == ResourceCode(Gold) then Gold
      else if m.resKind[i] == ResourceCode(Wood) then Wood
      else if m.tiles[i] == TileGold then Gold
      else if m.tiles[i] == TileForest then Wood
      else NoResource
  }

  /** The unit `order_gather` leaves, and whether it must be routed. Without a
      resource kind it goes Idle with no carrier code. Otherwise it gets the
      gathering job and carrier code; it is sent to a stand tile of the target
      when the target holds that resource and one exists, else to the stand
      tile of the nearest harvestable tile; with no such tile at all it goes
      Idle, keeping its carrier code. */
  function GatherOf(m: Map, e: Unit, t: Vec2i): (r: (Unit, bool))
    requires Sized(m)
    ensures r.0.tile == e.tile && r.0.id == e.id && r.0.carried == e.carried
    ensures GatherKind(m, t) == NoResource ==> r == (e.(job := Idle, carriedKind := 0), false)
    ensures GatherKind(m, t) != NoResource ==> r.0.carriedKind == CarriedCode(GatherKind(m, t))
    ensures r.1 ==> && r.0.job == GatherJob(GatherKind(m, t)) && r.0.path == []
                    && Walkable(m, r.0.goal)
                    && exists q :: Chebyshev(q, r.0.goal) == 1 && IsResourceTile(m, q, GatherKind(m, t))
    ensures GatherKind(m, t) != NoResource && !r.1 ==>
      r.0.job == Idle && forall q :: Harvestable(m, q, e.tile, GatherKind(m, t)) ==> Manhattan(q, e.tile) >= IntMax
    ensures GatherKind(m, t) != NoResource && IsResourceTile(m, t, GatherKind(m, t)) && StandTileOf(m, t, e.tile).Some? ==>
      r.1 && r.0.goal == StandTileOf(m, t, e.tile).value
    ensures GatherKind(m, t) != NoResource && !(IsResourceTile(m, t, GatherKind(m, t)) && StandTileOf(m, t, e.tile).Some?) ==>
      match NearestResourceOf(m, e.tile, GatherKind(m, t))
      case None => !r.1 && r.0.goal == e.goal && r.0.path == e.path
      case Some((_, stand)) => r.1 && r.0.goal == stand
  {
    var kind := GatherKind(m, t);
    if kind == NoResource then (e.(job := Idle, carriedKind := 0), false)
    else
      var e1 := e.(job := GatherJob(kind), carriedKind := CarriedCode(kind));
      var here := if IsResourceTile(m, t, kind) then StandTileOf(m, t, e.tile) else None;
      if here.Some? then
        assert Chebyshev(t, here.value) == 1;
        assert Chebyshev(here.value, t) == 1;
        (e1.(goal := here.value, path := []), true)
      else
        match NearestResourceOf(m, e.tile, kind)
        case None => (e1.(job := Idle), false)
        case Some((res, stand)) =>
          assert Chebyshev(stand, res) == 1;
          (e1.(goal := stand, path := []), true)
  }
}
