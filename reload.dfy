/** The whole save file read back: `load_game` over the lines `save_game`
    writes restores the state, less what the format does not carry (paths,
    cooldowns, selection); and the loader as written, whose `MAP` record
    leaves `res_max` empty, runs off the end of that vector. */
module Reload {
  import opened Grid
  import opened Types
  import opened Text
  import opened World
  import opened SaveLoad
  import opened RoundTrip

  // ---------------------------------------------------------------- the loop

  /** A record that consumes exactly its own line. */
  lemma RunLine(rd: Reader, line: string, r: seq<string>, sizeMax: bool, rd': Reader)
    requires line != "" && ReadRecord(rd, line, r, sizeMax) == Go(rd', r)
    ensures Run(rd, [line] + r, sizeMax) == Run(rd', r, sizeMax)
  {
    ConsParts(line, r);
  }

  /** A record that consumes its line and the body lines after it. */
  lemma RunBlock(rd: Reader, line: string, body: seq<string>, r: seq<string>, sizeMax: bool, rd': Reader)
    requires line != "" && ReadRecord(rd, line, body + r, sizeMax) == Go(rd', r)
    ensures Run(rd, [line] + body + r, sizeMax) == Run(rd', r, sizeMax)
  {
    assert [line] + body + r == [line] + (body + r);
    ConsParts(line, body + r);
  }

  /** A line that starts with a tag is never skipped as empty. */
  lemma TaggedNonEmpty(tag: string, vs: seq<int>)
    requires tag != ""
    ensures Join([tag] + Words(vs)) != ""
  {
    JoinSplit([tag] + Words(vs));
  }

  // --------------------------------------------------------------- the lists

  /** The lists of a state fit their lines. */
  ghost predicate ListsFit(s: State)
  {
    && InInt32(|s.dropoffs|) && DropoffsFit(s.dropoffs)
    && InInt32(|s.buildings|) && BuildingsFit(s.unitTypes, s.unitTypeIndex, s.buildings)
    && InInt32(|s.units|) && UnitsFit(s.unitTypes, s.unitTypeIndex, s.units)
  }

  /** A reader about to load s's lists: s's unit types and no entities yet. */
  predicate ListsReady(rd: Reader, s: State)
  {
    rd.ns.unitTypes == s.unitTypes && rd.ns.unitTypeIndex == s.unitTypeIndex
    && rd.ns.dropoffs == [] && rd.ns.buildings == [] && rd.ns.units == []
  }

  /** ns with s's lists as they are read back. */
  function Finished(ns: State, s: State): State
  {
    ns.(dropoffs := s.dropoffs, buildings := SavedBuildings(s.buildings), units := SavedUnits(s.units))
  }

  lemma UnitsStage(rd: Reader, s: State)
    requires Writable(s) && InInt32(|s.units|) && UnitsFit(s.unitTypes, s.unitTypeIndex, s.units)
    requires rd.ns.unitTypes == s.unitTypes && rd.ns.unitTypeIndex == s.unitTypeIndex && rd.ns.units == []
    ensures Run(rd, [CountLine("UNITS", |s.units|)] + UnitLines(s.unitTypes, s.units), true)
      == Loaded(rd.ns.(units := SavedUnits(s.units)))
  {
    var line, body := CountLine("UNITS", |s.units|), UnitLines(s.unitTypes, s.units);
    UnitListBack(rd, s.units, [], true);
    var rd' := rd.(tag := "UNITS", ns := rd.ns.(units := rd.ns.units + SavedUnits(s.units)));
    TaggedNonEmpty("UNITS", [|s.units|]);
    RunBlock(rd, line, body, [], true, rd');
    assert [line] + body + [] == [line] + body;
    assert rd.ns.units + SavedUnits(s.units) == SavedUnits(s.units);
  }

  /** The `BUILDINGS` record and its blocks, read in front of any tail. */
  lemma BuildingsRun(rd: Reader, bs: seq<Building>, tail: seq<string>)
    requires InInt32(|bs|) && BuildingsFit(rd.ns.unitTypes, rd.ns.unitTypeIndex, bs)
    requires rd.ns.buildings == []
    ensures Run(rd, [CountLine("BUILDINGS", |bs|)] + Flatten(BuildingBlocks(rd.ns.unitTypes, bs)) + tail, true)
      == Run(rd.(tag := "BUILDINGS", ns := rd.ns.(buildings := SavedBuildings(bs))), tail, true)
  {
    var line, body := CountLine("BUILDINGS", |bs|), Flatten(BuildingBlocks(rd.ns.unitTypes, bs));
    BuildingListBack(rd, bs, tail, true);
    var rd' := rd.(tag := "BUILDINGS", ns := rd.ns.(buildings := rd.ns.buildings + SavedBuildings(bs)));
    TaggedNonEmpty("BUILDINGS", [|bs|]);
    RunBlock(rd, line, body, tail, true, rd');
    assert rd.ns.buildings + SavedBuildings(bs) == SavedBuildings(bs);
  }

  lemma BuildingsStage(rd: Reader, s: State)
    requires Writable(s) && ListsFit(s)
    requires rd.ns.unitTypes == s.unitTypes && rd.ns.unitTypeIndex == s.unitTypeIndex
    requires rd.ns.buildings == [] && rd.ns.units == []
    ensures Run(rd, [CountLine("BUILDINGS", |s.buildings|)] + Flatten(BuildingBlocks(s.unitTypes, s.buildings))
                    + ([CountLine("UNITS", |s.units|)] + UnitLines(s.unitTypes, s.units)), true)
      == Loaded(rd.ns.(buildings := SavedBuildings(s.buildings), units := SavedUnits(s.units)))
  {
    var tail := [CountLine("UNITS", |s.units|)] + UnitLines(s.unitTypes, s.units);
    BuildingsRun(rd, s.buildings, tail);
    var rd' := rd.(tag := "BUILDINGS", ns := rd.ns.(buildings := SavedBuildings(s.buildings)));
    UnitsStage(rd', s);
  }

  /** The three lists read back after one another. */
  lemma ListsBack(rd: Reader, s: State)
    requires Writable(s) && ListsFit(s) && ListsReady(rd, s)
    ensures Run(rd, ListLines(s), true) == Loaded(Finished(rd.ns, s))
  {
    var line, body := CountLine("DROPOFFS", |s.dropoffs|), DropoffLines(s.dropoffs);
    var tail := [CountLine("BUILDINGS", |s.buildings|)] + Flatten(BuildingBlocks(s.unitTypes, s.buildings))
      + ([CountLine("UNITS", |s.units|)] + UnitLines(s.unitTypes, s.units));
    DropoffListBack(rd, s.dropoffs, tail, true);
    var rd' := rd.(tag := "DROPOFFS", ns := rd.ns.(dropoffs := rd.ns.dropoffs + s.dropoffs));
    TaggedNonEmpty("DROPOFFS", [|s.dropoffs|]);
    RunBlock(rd, line, body, tail, true, rd');
    BuildingsStage(rd', s);
    DropoffsStaged(rd.ns, s);
  }

  lemma DropoffsStaged(ns: State, s: State)
    requires ns.dropoffs == []
    ensures ns.(dropoffs := ns.dropoffs + s.dropoffs).(buildings := SavedBuildings(s.buildings), units := SavedUnits(s.units))
      == Finished(ns, s)
  {
    assert ns.dropoffs + s.dropoffs == s.dropoffs;
  }

  // ------------------------------------------------------------- the vectors

  /** Every vector of m holds 32-bit numbers, the 8-bit vectors bytes. */
  ghost predicate LayersFit(m: Map)
  {
    forall i :: 0 <= i < |Layers| ==>
      AllInt32(LayerOf(m, Layers[i])) && (ByteLayer(Layers[i]) ==> AllBytes(LayerOf(m, Layers[i])))
  }

  lemma LayerSized(m: Map, l: Layer)
    requires Sized(m)
    ensures |LayerOf(m, l)| == Cells(m.width, m.height)
  {
  }

  /** m with its vectors from the k-th on taken from src: the size and the
      earlier vectors stay m's. */
  function Overlay(m: Map, src: Map, k: nat): (r: Map)
    requires k <= |Layers|
    ensures r.width == m.width && r.height == m.height
    ensures forall i :: 0 <= i < k ==> LayerOf(r, Layers[i]) == LayerOf(m, Layers[i])
    ensures forall i :: k <= i < |Layers| ==> LayerOf(r, Layers[i]) == LayerOf(src, Layers[i])
    decreases |Layers| - k
  {
    if k == |Layers| then m else Overlay(WithLayer(m, Layers[k], LayerOf(src, Layers[k])), src, k + 1)
  }

  /** Overlaying every vector onto a map of src's size gives src. */
  lemma OverlayAll(m: Map, src: Map)
    requires m.width == src.width && m.height == src.height
    ensures Overlay(m, src, 0) == src
  {
    var r := Overlay(m, src, 0);
    assert LayerOf(r, Layers[0]) == src.tiles && LayerOf(r, Layers[1]) == src.blocked;
    assert LayerOf(r, Layers[2]) == src.resKind && LayerOf(r, Layers[3]) == src.resAmount;
    assert LayerOf(r, Layers[4]) == src.resMax;
  }

  /** The lines from the k-th vector on: its tag, its rows, the rest. */
  lemma LayersFromSplit(s: State, k: nat, l: Layer)
    requires Writable(s) && k < |Layers| && Layers[k] == l && |LayerOf(s.world, l)| == Cells(s.world.width, s.world.height)
    ensures LayersFrom(s, k) == [LayerTag(l)] + GridLines(LayerOf(s.world, l), s.world.width, s.world.height) + LayersFrom(s, k + 1)
  {
  }

  lemma LayerFits(m: Map, k: nat, l: Layer)
    requires LayersFit(m) && k < |Layers| && Layers[k] == l
    ensures AllInt32(LayerOf(m, l)) && (ByteLayer(l) ==> AllBytes(LayerOf(m, l)))
  {
  }

  /** A vector record and its rows, as the loop runs them. */
  lemma LayerRun(rd: Reader, l: Layer, v: seq<int>, rest: seq<string>, sizeMax: bool) returns (rd': Reader)
    requires rd.width >= 0 && rd.height >= 0 && |v| == Cells(rd.width, rd.height)
    requires |LayerOf(rd.ns.world, l)| == |v| && AllInt32(v) && (ByteLayer(l) ==> AllBytes(v))
    ensures rd' == rd.(tag := LayerTag(l), ns := rd.ns.(world := WithLayer(rd.ns.world, l, v)))
    ensures Run(rd, [LayerTag(l)] + GridLines(v, rd.width, rd.height) + rest, sizeMax) == Run(rd', rest, sizeMax)
  {
    LayerBack(rd, l, v, rest, sizeMax);
    rd' := rd.(tag := LayerTag(l), ns := rd.ns.(world := WithLayer(rd.ns.world, l, v)));
    RunBlock(rd, LayerTag(l), GridLines(v, rd.width, rd.height), rest, sizeMax, rd');
  }

  /** The rows of the k-th vector read back into a reader sized like the map. */
  lemma LayerStep(s: State, k: nat, rd: Reader, sizeMax: bool) returns (rd': Reader)
    requires Writable(s) && LayersFit(s.world) && k < |Layers|
    requires rd.width == s.world.width && rd.height == s.world.height && rd.width >= 0 && rd.height >= 0
    requires |LayerOf(rd.ns.world, Layers[k])| == Cells(rd.width, rd.height)
    ensures rd' == rd.(tag := LayerTag(Layers[k]),
      ns := rd.ns.(world := WithLayer(rd.ns.world, Layers[k], LayerOf(s.world, Layers[k]))))
    ensures Run(rd, LayersFrom(s, k), sizeMax) == Run(rd', LayersFrom(s, k + 1), sizeMax)
  {
    var l := Layers[k];
    LayerSized(s.world, l);
    LayerFits(s.world, k, l);
    LayersFromSplit(s, k, l);
    rd' := LayerRun(rd, l, LayerOf(s.world, l), LayersFrom(s, k + 1), sizeMax);
  }

  /** The vectors from the k-th on, then the lists, read back. */
  lemma {:induction false} LayersBack(s: State, k: nat, rd: Reader)
    requires Writable(s) && ListsFit(s) && LayersFit(s.world) && k <= |Layers|
    requires rd.width == s.world.width && rd.height == s.world.height && rd.width >= 0 && rd.height >= 0
    requires forall i :: k <= i < |Layers| ==> |LayerOf(rd.ns.world, Layers[i])| == Cells(rd.width, rd.height)
    requires ListsReady(rd, s)
    ensures Run(rd, LayersFrom(s, k), true) == Loaded(Finished(rd.ns.(world := Overlay(rd.ns.world, s.world, k)), s))
    decreases |Layers| - k
  {
    if k == |Layers| {
      ListsBack(rd, s);
      assert rd.ns.(world := rd.ns.world) == rd.ns;
    } else {
      var rd' := LayerStep(s, k, rd, true);
      LayersBack(s, k + 1, rd');
      assert Overlay(rd'.ns.world, s.world, k + 1) == Overlay(rd.ns.world, s.world, k);
    }
  }

  // ------------------------------------------------------------ the whole file

  /** A state its save file can carry: a writable state with 32-bit economy
      numbers, a 32-bit map size whose cell count is a 32-bit number, vectors
      and lists that fit their lines. */
  ghost predicate Saveable(s: State)
  {
    && Writable(s)
    && InInt32(s.gold) && InInt32(s.wood) && InInt32(s.foodUsed) && InInt32(s.foodCap)
    && s.world.width >= 0 && s.world.height >= 0
    && InInt32(s.world.width) && InInt32(s.world.height) && InInt32(s.world.width * s.world.height)
    && LayersFit(s.world) && ListsFit(s)
  }

  /** What a save keeps of a state: everything but the units' paths and
      cooldowns and the selection. */
  function Persisted(s: State): State
  {
    s.(buildings := SavedBuildings(s.buildings), units := SavedUnits(s.units))
  }

  /** The reader after the header, `ECO`, `IDS` and `MAP` lines. */
  function Framed(s: State, sizeMax: bool): Reader
    requires s.world.width * s.world.height >= 0
  {
    var ns := FreshState.(unitTypes := s.unitTypes, unitTypeIndex := s.unitTypeIndex,
      gold := s.gold, wood := s.wood, foodUsed := s.foodUsed, foodCap := s.foodCap,
      nextUnitId := s.nextUnitId, nextBuildingId := s.nextBuildingId);
    Reader(ns.(world := ZeroMap(ns.world, s.world.width, s.world.height, sizeMax)), s.world.width, s.world.height, "MAP")
  }

  lemma SaveSplit(s: State)
    requires Writable(s)
    ensures SaveLines(s)[1..] == [EcoLine(s)] + ([IdsLine(s)] + ([MapLine(s.world)] + LayersFrom(s, 0)))
  {
  }

  /** The first four lines read back: the loader then stands at the vectors
      with the economy and counters restored and the map sized. */
  lemma FrameBack(s: State, sizeMax: bool)
    requires Saveable(s)
    ensures s.world.width * s.world.height >= 0
    ensures LoadWith(s.unitTypes, s.unitTypeIndex, SaveLines(s), sizeMax) == Run(Framed(s, sizeMax), LayersFrom(s, 0), sizeMax)
  {
    var L := LayersFrom(s, 0);
    HeaderBack(s);
    SaveSplit(s);
    var rd0 := Start(s.unitTypes, s.unitTypeIndex);
    EcoBack(rd0, s, [IdsLine(s)] + ([MapLine(s.world)] + L), sizeMax);
    var rd1 := rd0.(tag := "ECO", ns := rd0.ns.(gold := s.gold, wood := s.wood, foodUsed := s.foodUsed, foodCap := s.foodCap));
    TaggedNonEmpty("ECO", [s.gold, s.wood, s.foodUsed, s.foodCap]);
    RunLine(rd0, EcoLine(s), [IdsLine(s)] + ([MapLine(s.world)] + L), sizeMax, rd1);
    IdsBack(rd1, s, [MapLine(s.world)] + L, sizeMax);
    var rd2 := rd1.(tag := "IDS", ns := rd1.ns.(nextUnitId := s.nextUnitId, nextBuildingId := s.nextBuildingId));
    TaggedNonEmpty("IDS", [s.nextUnitId, s.nextBuildingId]);
    RunLine(rd1, IdsLine(s), [MapLine(s.world)] + L, sizeMax, rd2);
    MapBack(rd2, s.world, L, sizeMax);
    TaggedNonEmpty("MAP", [s.world.width, s.world.height]);
    RunLine(rd2, MapLine(s.world), L, sizeMax, Framed(s, sizeMax));
  }

  /** The vectors `MAP` sizes, and the lists still empty. */
  lemma FramedSized(s: State, sizeMax: bool)
    requires s.world.width >= 0 && s.world.height >= 0
    ensures s.world.width * s.world.height >= 0
    ensures var rd := Framed(s, sizeMax);
      && ListsReady(rd, s)
      && (forall l :: (l != ResMax || sizeMax) ==> |LayerOf(rd.ns.world, l)| == Cells(rd.width, rd.height))
      && (!sizeMax ==> LayerOf(rd.ns.world, ResMax) == [])
  {
    MulNonNeg(s.world.width, s.world.height);
  }

  /** `load_game` (with `res_max` sized) reads back what `save_game` wrote:
      the state, less the units' paths and cooldowns and the selection. */
  lemma SaveLoadRoundTrip(s: State)
    requires Saveable(s)
    ensures Load(s.unitTypes, s.unitTypeIndex, SaveLines(s)) == Loaded(Persisted(s))
  {
    FrameBack(s, true);
    FramedLayersBack(s);
  }

  /** The vectors and the lists after the `MAP` line, read from the framed
      reader, give back the persisted state. */
  lemma FramedLayersBack(s: State)
    requires Saveable(s)
    ensures s.world.width * s.world.height >= 0
    ensures Run(Framed(s, true), LayersFrom(s, 0), true) == Loaded(Persisted(s))
  {
    FramedSized(s, true);
    var rd := Framed(s, true);
    LayersBack(s, 0, rd);
    OverlayAll(rd.ns.world, s.world);
    FinishedFramed(s);
  }

  lemma FinishedFramed(s: State)
    requires s.world.width * s.world.height >= 0
    ensures Finished(Framed(s, true).ns.(world := s.world), s) == Persisted(s)
  {
  }

  /** A record that ends the load. */
  lemma RunStop(rd: Reader, line: string, r: seq<string>, sizeMax: bool, o: Outcome)
    requires line != "" && ReadRecord(rd, line, r, sizeMax) == Stop(o)
    ensures Run(rd, [line] + r, sizeMax) == o
  {
    ConsParts(line, r);
  }

  /** The `RESMAX` rows of a map with cells, read into an empty vector: the
      first row's cells are read and then written past the end. */
  lemma ResMaxRecord(rd: Reader, v: seq<int>, rest: seq<string>)
    requires rd.width > 0 && rd.height > 0 && |v| == Cells(rd.width, rd.height) && AllInt32(v)
    requires LayerOf(rd.ns.world, ResMax) == []
    ensures ReadRecord(rd, LayerTag(ResMax), GridLines(v, rd.width, rd.height) + rest, false) == Stop(Undefined)
  {
    var lines := GridLines(v, rd.width, rd.height);
    var st := LayerTokens(ResMax, rd.tag);
    LayerDispatch(rd, ResMax, lines + rest, false, st);
    assert lines[0..] == lines;
    LinesAt(v, rd.width, rd.height, 0, rest);
    RowBack(v, rd.width, rd.height, 0, 0);
  }

  lemma ResMaxOverflow(s: State, rd: Reader)
    requires Writable(s) && LayersFit(s.world)
    requires rd.width == s.world.width && rd.height == s.world.height && rd.width > 0 && rd.height > 0
    requires LayerOf(rd.ns.world, ResMax) == []
    ensures Run(rd, LayersFrom(s, 4), false) == Undefined
  {
    var v, rest := s.world.resMax, LayersFrom(s, 5);
    LayersFromSplit(s, 4, ResMax);
    assert AllInt32(LayerOf(s.world, Layers[4]));
    ResMaxRecord(rd, v, rest);
    Assoc(LayerTag(ResMax), GridLines(v, rd.width, rd.height), rest);
    RunStop(rd, LayerTag(ResMax), GridLines(v, rd.width, rd.height) + rest, false, Undefined);
  }

  lemma Assoc<T>(x: T, body: seq<T>, r: seq<T>)
    ensures [x] + body + r == [x] + (body + r)
  {
  }

  /** The vectors from the k-th on, read by the loader as written whose
      `res_max` is empty: undefined behaviour once `RESMAX` is reached. */
  lemma {:induction false} LayersOverflow(s: State, k: nat, rd: Reader)
    requires Writable(s) && LayersFit(s.world) && k <= 4
    requires rd.width == s.world.width && rd.height == s.world.height && rd.width > 0 && rd.height > 0
    requires forall i :: k <= i < 4 ==> |LayerOf(rd.ns.world, Layers[i])| == Cells(rd.width, rd.height)
    requires LayerOf(rd.ns.world, ResMax) == []
    ensures Run(rd, LayersFrom(s, k), false) == Undefined
    decreases 4 - k
  {
    if k == 4 {
      ResMaxOverflow(s, rd);
    } else {
      var rd' := LayerStep(s, k, rd, false);
      LayersOverflow(s, k + 1, rd');
    }
  }

  lemma ResMaxLast()
    ensures forall i :: 0 <= i < 4 ==> Layers[i] != ResMax
  {
  }

  /** `load_game` as written cannot read back a save of any map with cells:
      `MAP` leaves `res_max` empty and the first `RESMAX` row is written past
      its end. */
  lemma LoadAsWrittenOverflows(s: State)
    requires Saveable(s) && s.world.width > 0 && s.world.height > 0
    ensures LoadAsWritten(s.unitTypes, s.unitTypeIndex, SaveLines(s)) == Undefined
  {
    FrameBack(s, false);
    FramedSized(s, false);
    ResMaxLast();
    LayersOverflow(s, 0, Framed(s, false));
  }
}
