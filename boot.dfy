/** `load_data`: the start of a game. It reads the unit table and the map,
    takes every drop-off tile of the map as a drop-off, and spawns a worker
    and a footman beside the first drop-off. */
module Boot {
  import opened Grid
  import opened Types
  import opened World
  import opened Data
  import opened Simulation

  /** How `load_data` ends: true, false, or with the exception a `stoi` of
      the unit table threw, which nothing in it catches. */
  datatype Boot = DataLoaded | LoadFailed | LoadThrew

  // ------------------------------------------------------------ drop-offs

  /** The drop-off tiles among the first n cells, in row-major order. */
  function DropoffTilesUpTo(m: Map, n: int): (ds: seq<Vec2i>)
    requires m.width > 0 && 0 <= n <= |m.tiles|
    decreases n
  {
    if n == 0 then []
    else DropoffTilesUpTo(m, n - 1) + (if m.tiles[n - 1] == TileDropoff then [CoordOf(m.width, n - 1)] else [])
  }

  /** The drop-off tiles of the map, row by row. */
  function DropoffTiles(m: Map): seq<Vec2i>
    requires TerrainSized(m)
  {
    if m.width <= 0 || m.height <= 0 then []
    else
      IdxInRange(m.width, m.height, 0, 0);
      DropoffTilesUpTo(m, Cells(m.width, m.height))
  }

  /** A tile lies among the drop-offs of the first n cells exactly when it is
      on the map, its index is below n and its terrain is a drop-off. */
  lemma {:induction false} DropoffTilesUpToIff(m: Map, n: int, d: Vec2i)
    requires TerrainSized(m) && m.width > 0 && m.height > 0 && 0 <= n <= |m.tiles|
    ensures d in DropoffTilesUpTo(m, n) <==> InBounds(m, d) && Ridx(m, d) < n && m.tiles[Ridx(m, d)] == TileDropoff
    decreases n
  {
    if n > 0 {
      DropoffTilesUpToIff(m, n - 1, d);
      IdxInRange(m.width, m.height, 0, 0);
      CoordIdx(m.width, m.height, n - 1);
      if InBounds(m, d) && Ridx(m, d) == n - 1 {
        IdxCoords(m.width, d.x, d.y);
      }
    }
  }

  /** The drop-offs `load_data` adds are exactly the drop-off tiles of the
      map: each is on the map with drop-off terrain, and every such tile is
      among them. */
  lemma DropoffTilesIff(m: Map, d: Vec2i)
    requires TerrainSized(m)
    ensures d in DropoffTiles(m) <==> InBounds(m, d) && m.tiles[Ridx(m, d)] == TileDropoff
  {
    if m.width > 0 && m.height > 0 {
      IdxInRange(m.width, m.height, 0, 0);
      DropoffTilesUpToIff(m, Cells(m.width, m.height), d);
    }
  }

  /** One row of the scan, from the drop-offs found before it. */
  method ScanDropoffRow(m: Map, y: int, ghost i0: int, ds: seq<Vec2i>) returns (ds': seq<Vec2i>)
    requires TerrainSized(m) && m.width > 0 && 0 <= y < m.height && i0 == y * m.width
    requires ds == DropoffTilesUpTo(m, i0)
    ensures i0 + m.width <= |m.tiles| && ds' == DropoffTilesUpTo(m, i0 + m.width)
  {
    RowStart(m.width, m.height, y);
    ds' := ds;
    var x := 0;
    while x < m.width
      invariant 0 <= x <= m.width
      invariant ds' == DropoffTilesUpTo(m, i0 + x)
    {
      IdxCoords(m.width, x, y);
      if m.tiles[Idx(m.width, x, y)] == TileDropoff {
        ds' := ds' + [Vec2i(x, y)];
      }
      x := x + 1;
    }
  }

  /** The scan of the map for drop-off tiles, row by row. */
  method ScanDropoffs(m: Map) returns (ds: seq<Vec2i>)
    requires TerrainSized(m)
    ensures ds == DropoffTiles(m)
  {
    ds := [];
    if m.width <= 0 {
      return;
    }
    var y := 0;
    ghost var i0 := 0;
    while y < m.height
      invariant 0 <= y <= Max(m.height, 0) && i0 == y * m.width
      invariant i0 <= |m.tiles| && ds == DropoffTilesUpTo(m, i0)
    {
      ds := ScanDropoffRow(m, y, i0, ds);
      RowStart(m.width, m.height, y);
      i0 := i0 + m.width;
      y := y + 1;
    }
    if m.height > 0 {
      IdxInRange(m.width, m.height, 0, 0);
    }
  }

  // ------------------------------------------------------------ the start

  /** The state once the unit table is read: whether a `stoi` threw, and the
      state with the rows read and their ids installed. A missing file
      changes nothing. */
  function UnitsStage(st: State, unitsCsv: Option<seq<string>>): (bool, State)
  {
    if unitsCsv.None? then (false, st)
    else
      var (threw, types, ix) := UnitsRead(unitsCsv.value, st.unitTypes, st.unitTypeIndex);
      (threw, st.(unitTypes := types, unitTypeIndex := ix))
  }

  /** Reading the unit table keeps a state well formed. */
  lemma UnitsStageValid(st: State, unitsCsv: Option<seq<string>>)
    requires StateValid(st)
    ensures StateValid(UnitsStage(st, unitsCsv).1)
    ensures UnitsStage(st, unitsCsv).1 == st.(unitTypes := UnitsStage(st, unitsCsv).1.unitTypes,
                                               unitTypeIndex := UnitsStage(st, unitsCsv).1.unitTypeIndex)
    ensures UnitsStage(st, unitsCsv).1.unitTypes[..|st.unitTypes|] == st.unitTypes
  {
    if unitsCsv.Some? {
      var rs := Reads(if unitsCsv.value == [] then [] else unitsCsv.value[1..]);
      IndexAfterInTable(st.unitTypeIndex, |st.unitTypes|, CsvRows(rs).0);
      var st' := UnitsStage(st, unitsCsv).1;
      assert st'.unitTypes[..|st.unitTypes|] == st.unitTypes;
      assert forall k :: 0 <= k < |st.units| ==> st.units[k].typeIndex < |st'.unitTypes|;
    }
  }

  /** The first drop-off, or (1,1) when there is none. */
  function FirstDropoff(ds: seq<Vec2i>): Vec2i
  {
    if ds == [] then Vec2i(1, 1) else ds[0]
  }

  /** What `load_data` does once both files are read: the map's drop-off tiles
      appended to the drop-offs, then a worker one tile right of the first
      drop-off and a footman three tiles right of it, each spawned only when
      its type id is loaded. */
  function Started(st: State): (r: State)
    requires StateValid(st)
    ensures StateValid(r)
  {
    var s0 := st.(dropoffs := st.dropoffs + DropoffTiles(st.world));
    var d := FirstDropoff(s0.dropoffs);
    var a := Spawned(s0, "worker", Vec2i(d.x + 1, d.y));
    var s1 := s0.(units := a.0, nextUnitId := a.1);
    var b := Spawned(s1, "footman", Vec2i(d.x + 3, d.y));
    s1.(units := b.0, nextUnitId := b.1)
  }

  /** The start adds the map's drop-offs and at most two units and touches
      nothing else; with both types loaded, the worker and then the footman
      stand beside the first drop-off, with fresh full hit points and no job. */
  lemma StartedSpawns(st: State)
    requires StateValid(st)
    ensures var r := Started(st);
      && r.dropoffs == st.dropoffs + DropoffTiles(st.world)
      && r == st.(dropoffs := r.dropoffs, units := r.units, nextUnitId := r.nextUnitId)
      && |st.units| <= |r.units| <= |st.units| + 2 && r.units[..|st.units|] == st.units
    ensures var r := Started(st); var d := FirstDropoff(st.dropoffs + DropoffTiles(st.world));
      "worker" in st.unitTypeIndex && "footman" in st.unitTypeIndex ==>
        && |r.units| == |st.units| + 2
        && r.units[|st.units|] == NewUnit(st.nextUnitId, st.unitTypeIndex["worker"], Vec2i(d.x + 1, d.y),
                                          st.unitTypes[st.unitTypeIndex["worker"]].hp)
        && r.units[|st.units| + 1] == NewUnit(NextId(st.nextUnitId), st.unitTypeIndex["footman"], Vec2i(d.x + 3, d.y),
                                              st.unitTypes[st.unitTypeIndex["footman"]].hp)
        && r.nextUnitId == NextId(NextId(st.nextUnitId))
    ensures "worker" !in st.unitTypeIndex && "footman" !in st.unitTypeIndex ==> Started(st).units == st.units
  {
    var r := Started(st);
    var s0 := st.(dropoffs := st.dropoffs + DropoffTiles(st.world));
    var d := FirstDropoff(s0.dropoffs);
    var a := Spawned(s0, "worker", Vec2i(d.x + 1, d.y));
    var s1 := s0.(units := a.0, nextUnitId := a.1);
    assert a.0[..|st.units|] == st.units;
    assert r.units[..|s1.units|] == s1.units;
    assert r.units[..|st.units|] == s1.units[..|st.units|];
  }

  /** The start on a live `Sim`: the scan of its map for drop-offs, then the
      two spawns. */
  method Start(s: Sim)
    requires s.Valid()
    modifies s
    ensures s.Valid() && s.Snapshot() == Started(old(s.Snapshot()))
  {
    var ds := ScanDropoffs(s.world);
    s.dropoffs := s.dropoffs + ds;
    var d := if s.dropoffs == [] then Vec2i(1, 1) else s.dropoffs[0];
    var _ := s.SpawnUnit("worker", d.x + 1, d.y);
    var _ := s.SpawnUnit("footman", d.x + 3, d.y);
  }

  /** The two loaders on a live `Sim`, the unit table first: `threw` when its
      `stoi` threw (the map then unread), else whether each file loaded. */
  method ReadFiles(s: Sim, unitsCsv: Option<seq<string>>, mapTxt: Option<seq<string>>)
    returns (threw: bool, ok: bool, ghost mapOk: bool)
    requires s.Valid()
    requires mapTxt.Some? ==> RowsLongEnough(NonEmptyLines(mapTxt.value))
    modifies s
    ensures s.Valid()
    ensures var (th, st) := UnitsStage(old(s.Snapshot()), unitsCsv);
      && threw == th
      && (threw ==> s.Snapshot() == st)
      && (!threw ==>
           && s.Snapshot() == st.(world := s.world)
           && (mapTxt.None? ==> !mapOk && s.world == st.world)
           && (mapTxt.Some? ==> MapRead(mapTxt.value, st.world, mapOk, s.world))
           && (ok <==> unitsCsv.Some? && mapOk))
  {
    ghost var st0 := s.Snapshot();
    UnitsStageValid(st0, unitsCsv);
    var ok1 := false;
    threw := false;
    if unitsCsv.Some? {
      var types, ix;
      threw, types, ix := LoadUnitsCsv(unitsCsv.value, s.unitTypes, s.unitTypeIndex);
      s.unitTypes, s.unitTypeIndex := types, ix;
      if threw {
        return threw, false, false;
      }
      ok1 := true;
    }
    var ok2 := false;
    mapOk := false;
    if mapTxt.Some? {
      var out;
      ok2, out := LoadMapTxt(mapTxt.value, s.world);
      s.world := out;
      mapOk := ok2;
    }
    ok := ok1 && ok2;
  }

  /** `load_data` on a live `Sim`, the file contents given as lines (None for
      a file that will not open). Both loaders run, the unit table first; an
      exception from it leaves the rows read so far installed and the map
      untouched. If either loader reported false the call is false and the
      state is what the loaders left; otherwise the start runs on it. */
  method LoadData(s: Sim, unitsCsv: Option<seq<string>>, mapTxt: Option<seq<string>>)
    returns (r: Boot, ghost mapOk: bool, ghost loaded: State)
    requires s.Valid()
    requires mapTxt.Some? ==> RowsLongEnough(NonEmptyLines(mapTxt.value))
    modifies s
    ensures s.Valid()
    ensures var (threw, st) := UnitsStage(old(s.Snapshot()), unitsCsv);
      && (r == LoadThrew <==> threw)
      && (threw ==> s.Snapshot() == st)
      && (!threw ==>
           && loaded == st.(world := loaded.world) && StateValid(loaded)
           && (mapTxt.None? ==> !mapOk && loaded.world == st.world)
           && (mapTxt.Some? ==> MapRead(mapTxt.value, st.world, mapOk, loaded.world))
           && (r == DataLoaded <==> unitsCsv.Some? && mapOk)
           && (r == LoadFailed ==> s.Snapshot() == loaded)
           && (r == DataLoaded ==> s.Snapshot() == Started(loaded)))
  {
    var threw, ok;
    threw, ok, mapOk := ReadFiles(s, unitsCsv, mapTxt);
    loaded := s.Snapshot();
    if threw {
      return LoadThrew, mapOk, loaded;
    }
    if !ok {
      return LoadFailed, mapOk, loaded;
    }
    Start(s);
    r := DataLoaded;
  }
}
