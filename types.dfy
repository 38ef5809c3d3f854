/** The engine's data model: terrain map with its resource ledger, unit types,
    units, buildings and their training queues, with the default values the
    engine gives a fresh record. */
module Types {
  import opened Grid

  // Terrain codes held in `Map.tiles`.
  const TileGrass := 0
  const TileWall := 1
  const TileGold := 2
  const TileForest := 3
  const TileDropoff := 4

  /** `ResourceKind`; its codes (stored in `Map.resKind`) are those of the
      matching terrain: Gold = 2 = gold terrain, Wood = 3 = forest terrain. */
  datatype ResourceKind = NoResource | Gold | Wood

  function ResourceCode(k: ResourceKind): (c: int)
    ensures k == Gold ==> c == TileGold
    ensures k == Wood ==> c == TileForest
    ensures k == NoResource ==> c == 0
  {
    match k
    case NoResource => 0
    case Gold => 2
    case Wood => 3
  }

  /** `uint8_t` conversion of an int (two's complement truncation). */
  function Byte(v: int): (b: int)
    ensures 0 <= b < 256
    ensures 0 <= v < 256 ==> b == v
  {
    v % 256
  }

  /** `UnitJob`. The enum has an 8-bit underlying type, so a cast from a loaded
      integer can produce a value with no name: `OtherJob` carries it. */
  datatype UnitJob = Idle | Moving | GatheringGold | GatheringWood | Delivering | Build | OtherJob(code: int)

  function JobCode(j: UnitJob): int
  {
    match j
    case Idle => 0
    case Moving => 1
    case GatheringGold => 2
    case GatheringWood => 3
    case Delivering => 4
    case Build => 5
    case OtherJob(c) => c
  }

  /** `(UnitJob)v`: the job an integer read from a save file stands for. */
  function JobOfCode(v: int): (j: UnitJob)
    ensures JobCode(j) == Byte(v)
  {
    var c := Byte(v);
    if c == 0 then Idle
    else if c == 1 then Moving
    else if c == 2 then GatheringGold
    else if c == 3 then GatheringWood
    else if c == 4 then Delivering
    else if c == 5 then Build
    else OtherJob(c)
  }

  /** A job value the engine can hold: an unnamed one has an unnamed 8-bit code. */
  predicate JobOk(j: UnitJob)
  {
    j.OtherJob? ==> 6 <= j.code < 256
  }

  datatype BuildingKind = Dropoff | Farm | Barracks | OtherKind(code: int)

  function KindCode(k: BuildingKind): int
  {
    match k
    case Dropoff => 0
    case Farm => 1
    case Barracks => 2
    case OtherKind(c) => c
  }

  function KindOfCode(v: int): (k: BuildingKind)
    ensures KindCode(k) == Byte(v)
  {
    var c := Byte(v);
    if c == 0 then Dropoff else if c == 1 then Farm else if c == 2 then Barracks else OtherKind(c)
  }

  predicate KindOk(k: BuildingKind)
  {
    k.OtherKind? ==> 3 <= k.code < 256
  }

  datatype BuildState = Planned | Constructing | Complete | Canceled | OtherState(code: int)

  function StateCode(s: BuildState): int
  {
    match s
    case Planned => 0
    case Constructing => 1
    case Complete => 2
    case Canceled => 3
    case OtherState(c) => c
  }

  function StateOfCode(v: int): (s: BuildState)
    ensures StateCode(s) == Byte(v)
  {
    var c := Byte(v);
    if c == 0 then Planned else if c == 1 then Constructing else if c == 2 then Complete
    else if c == 3 then Canceled else OtherState(c)
  }

  predicate StateOk(s: BuildState)
  {
    s.OtherState? ==> 4 <= s.code < 256
  }

  /** The three enum codecs are inverse on the values the engine can hold. */
  lemma CodesRoundTrip(j: UnitJob, k: BuildingKind, s: BuildState)
    requires JobOk(j) && KindOk(k) && StateOk(s)
    ensures JobOfCode(JobCode(j)) == j
    ensures KindOfCode(KindCode(k)) == k
    ensures StateOfCode(StateCode(s)) == s
  {
  }

  datatype AttackType = Normal | Pierce | Siege | Magic
  datatype ArmorType = Light | Medium | Heavy | ArmorBuilding
  datatype Attack = Attack(kind: AttackType, damage: int, cooldownMs: int, rangeTiles: int)
  datatype Armor = Armor(kind: ArmorType, value: int)

  /** A row of the unit-type table; immutable once loaded. */
  datatype UnitType = UnitType(
    id: string, hp: int, moveSpeedPxS: int, attack: Attack, armor: Armor, sightTiles: int,
    costGold: int, costWood: int, food: int, buildTimeMs: int)

  /** The terrain grid with its occupancy overlay and per-tile resource ledger. */
  datatype Map = Map(
    width: int, height: int,
    tiles: seq<int>, blocked: seq<int>,
    resKind: seq<int>, resAmount: seq<int>, resMax: seq<int>)

  const EmptyMap := Map(0, 0, [], [], [], [], [])

  /** Terrain and occupancy vectors hold one entry per cell. */
  predicate TerrainSized(m: Map)
  {
    |m.tiles| == Cells(m.width, m.height) && |m.blocked| == Cells(m.width, m.height)
  }

  /** Every per-tile vector, the resource ledger included, holds one entry per cell. */
  predicate Sized(m: Map)
  {
    TerrainSized(m)
    && |m.resKind| == Cells(m.width, m.height)
    && |m.resAmount| == Cells(m.width, m.height)
    && |m.resMax| == Cells(m.width, m.height)
  }

  predicate InBounds(m: Map, p: Vec2i)
  {
    InGrid(m.width, m.height, p.x, p.y)
  }

  /** Flat index of an in-bounds tile of `m`, with its range. */
  function Ridx(m: Map, p: Vec2i): (i: nat)
    requires InBounds(m, p)
    ensures i < Cells(m.width, m.height)
    ensures i == p.y * m.width + p.x
  {
    IdxInRange(m.width, m.height, p.x, p.y);
    Idx(m.width, p.x, p.y)
  }

  /** `walkable`: in bounds, not occupied, not a wall. */
  predicate Walkable(m: Map, p: Vec2i)
    requires TerrainSized(m)
  {
    InBounds(m, p) && m.blocked[Ridx(m, p)] == 0 && m.tiles[Ridx(m, p)] != TileWall
  }

  /** `is_resource_tile`: in bounds and holding a positive amount of `kind`. */
  predicate IsResourceTile(m: Map, p: Vec2i, kind: ResourceKind)
    requires Sized(m)
  {
    InBounds(m, p) && m.resKind[Ridx(m, p)] == ResourceCode(kind) && m.resAmount[Ridx(m, p)] > 0
  }

  /** The ledger invariant: a tile that still names a resource holds a positive amount. */
  predicate LedgerOk(m: Map)
    requires Sized(m)
  {
    forall i :: 0 <= i < |m.resKind| ==> (m.resKind[i] != 0 ==> m.resAmount[i] > 0)
  }

  datatype Unit = Unit(
    id: int, typeIndex: int, tile: Vec2i, goal: Vec2i, path: seq<Vec2i>,
    hp: int, cooldown: int, selected: bool, job: UnitJob,
    carried: int, carriedKind: int, buildingTarget: int)

  /** `Unit u{}`: zero ids, Idle, nothing carried, no building target (0 = none). */
  const DefaultUnit := Unit(0, 0, Vec2i(0, 0), Vec2i(0, 0), [], 0, 0, false, Idle, 0, 0, 0)

  datatype TrainItem = TrainItem(unitType: int, remainingMs: int)

  datatype Building = Building(
    id: int, kind: BuildingKind, tile: Vec2i, w: int, h: int,
    state: BuildState, buildProgressMs: int, buildTotalMs: int,
    costGold: int, costWood: int, queue: seq<TrainItem>, selected: bool, rally: Vec2i)

  /** `Building b{}`: a 1x1 Planned Dropoff with no progress out of 1000 ms and no rally point. */
  const DefaultBuilding := Building(0, Dropoff, Vec2i(0, 0), 1, 1, Planned, 0, 1000, 0, 0, [], false, Vec2i(-1, -1))

  /** A rally point counts as set only when both coordinates are non-negative. */
  predicate RallySet(b: Building)
  {
    b.rally.x >= 0 && b.rally.y >= 0
  }

  /** The static description of a kind of building. */
  datatype BuildingType = BuildingType(
    kind: BuildingKind, id: string, w: int, h: int,
    costGold: int, costWood: int, buildMs: int, foodCapBonus: int)

  /** `get_btype`: Farm and Barracks have their own table entry; every other
      kind gets the Dropoff entry. */
  function GetBType(k: BuildingKind): (bt: BuildingType)
    ensures k == Farm ==> bt.kind == Farm && bt.w == 1 && bt.h == 1 && bt.costGold == 60 && bt.costWood == 40
    ensures k == Barracks ==> bt.kind == Barracks && bt.w == 2 && bt.h == 2 && bt.costGold == 150 && bt.costWood == 80
    ensures k != Farm && k != Barracks ==> bt.kind == Dropoff && bt.w == 1 && bt.h == 1 && bt.costGold == 120 && bt.costWood == 0
    ensures bt.w >= 1 && bt.h >= 1 && bt.costGold >= 0 && bt.costWood >= 0
  {
    if k == Farm then BuildingType(Farm, "farm", 1, 1, 60, 40, 1200, 4)
    else if k == Barracks then BuildingType(Barracks, "barracks", 2, 2, 150, 80, 5000, 0)
    else BuildingType(Dropoff, "dropoff", 1, 1, 120, 0, 1500, 0)
  }

  /** Tile p lies in the w x h footprint whose top-left corner is `at`. */
  predicate InRect(p: Vec2i, at: Vec2i, w: int, h: int)
  {
    at.x <= p.x < at.x + w && at.y <= p.y < at.y + h
  }

  /** Chebyshev distance from a tile to a building footprint, as the
      construction code computes it. */
  function FootprintDistance(p: Vec2i, b: Building): int
  {
    var dx := Max(Max(b.tile.x - p.x, 0), p.x - (b.tile.x + b.w - 1));
    var dy := Max(Max(b.tile.y - p.y, 0), p.y - (b.tile.y + b.h - 1));
    Max(dx, dy)
  }
}
