/** The `VERSION 1` save format over lines of text: the lines `save_game`
    writes for a state, and `load_game`'s reading of them into a fresh state,
    record by record, with the `istream` rules of `Text`. */
module SaveLoad {
  import opened Grid
  import opened Types
  import opened Text
  import opened World
  import Economy
  import Data

  // ------------------------------------------------------------------ writing

  /** Numbers as the words `std::to_string` makes of them. */
  function Words(vs: seq<int>): seq<string>
  {
    seq(|vs|, i requires 0 <= i < |vs| => IntToString(vs[i]))
  }

  /** Row y of a per-tile vector: the w values from `y*w`, space separated
      (an empty line for a map without columns). */
  function RowLine(v: seq<int>, w: int, h: int, y: int): string
    requires |v| == Cells(w, h) && 0 <= y < h
  {
    if w <= 0 then ""
    else
      RowFits(w, h, y);
      Join(Words(v[y * w .. y * w + w]))
  }

  lemma RowFits(w: int, h: int, y: int)
    requires w > 0 && 0 <= y < h
    ensures y * w + w <= Cells(w, h) == w * h
  {
    MulMono(y + 1, h, w);
    assert (y + 1) * w == y * w + w;
  }

  /** The rows of a per-tile vector, one line per map row. */
  function GridLines(v: seq<int>, w: int, h: int): seq<string>
    requires |v| == Cells(w, h)
  {
    seq(Max(h, 0), y requires 0 <= y < Max(h, 0) => RowLine(v, w, h, y))
  }

  /** The per-tile vectors in the order they are saved. */
  datatype Layer = Tiles | Blocked | ResKind | ResAmount | ResMax

  function LayerTag(l: Layer): string
  {
    match l
    case Tiles => "TILES"
    case Blocked => "BLOCKED"
    case ResKind => "RESKIND"
    case ResAmount => "RESAMNT"
    case ResMax => "RESMAX"
  }

  function LayerOf(m: Map, l: Layer): seq<int>
  {
    match l
    case Tiles => m.tiles
    case Blocked => m.blocked
    case ResKind => m.resKind
    case ResAmount => m.resAmount
    case ResMax => m.resMax
  }

  function WithLayer(m: Map, l: Layer, v: seq<int>): (m': Map)
    ensures LayerOf(m', l) == v
    ensures forall l' :: l' != l ==> LayerOf(m', l') == LayerOf(m, l')
    ensures m'.width == m.width && m'.height == m.height
  {
    match l
    case Tiles => m.(tiles := v)
    case Blocked => m.(blocked := v)
    case ResKind => m.(resKind := v)
    case ResAmount => m.(resAmount := v)
    case ResMax => m.(resMax := v)
  }

  /** The 8-bit vectors are read back through a `uint8_t` cast. */
  predicate ByteLayer(l: Layer)
  {
    l == Tiles || l == Blocked || l == ResKind
  }

  function LayerLines(m: Map, l: Layer): seq<string>
    requires Sized(m)
  {
    [LayerTag(l)] + GridLines(LayerOf(m, l), m.width, m.height)
  }

  function DropoffLine(d: Vec2i): string
  {
    Join(["D"] + Words([d.x, d.y]))
  }

  function BuildingLine(b: Building): string
  {
    Join(["B"] + Words(BuildingValues(b)))
  }

  /** The numbers of a `B` line: id, kind, corner, size, state, progress,
      total, costs and rally point. */
  function BuildingValues(b: Building): seq<int>
  {
    [b.id, KindCode(b.kind), b.tile.x, b.tile.y, b.w, b.h, StateCode(b.state),
     b.buildProgressMs, b.buildTotalMs, b.costGold, b.costWood, b.rally.x, b.rally.y]
  }

  /** A tag and a count: the head of a list, or of a queue. */
  function CountLine(tag: string, n: int): string
  {
    Join([tag] + Words([n]))
  }

  function QueueLine(b: Building): string
  {
    CountLine("BQ", |b.queue|)
  }

  /** A queue item names its unit type by the type's id. */
  function ItemLine(types: seq<UnitType>, it: TrainItem): string
    requires 0 <= it.unitType < |types|
  {
    Join(["QI", types[it.unitType].id] + Words([it.remainingMs]))
  }

  /** A building's block: its line, the queue length and one line per item. */
  function BuildingBlock(types: seq<UnitType>, b: Building): (ls: seq<string>)
    requires forall q :: 0 <= q < |b.queue| ==> 0 <= b.queue[q].unitType < |types|
    ensures |ls| == 2 + |b.queue|
  {
    [BuildingLine(b), QueueLine(b)] + ItemLines(types, b.queue)
  }

  function ItemLines(types: seq<UnitType>, q: seq<TrainItem>): (ls: seq<string>)
    requires forall k :: 0 <= k < |q| ==> 0 <= q[k].unitType < |types|
    ensures |ls| == |q|
  {
    seq(|q|, k requires 0 <= k < |q| => ItemLine(types, q[k]))
  }

  /** Blocks written one after another. */
  function Flatten(bs: seq<seq<string>>): seq<string>
  {
    if bs == [] then [] else bs[0] + Flatten(bs[1..])
  }

  lemma {:induction false} FlattenSnoc(bs: seq<seq<string>>, b: seq<string>)
    ensures Flatten(bs + [b]) == Flatten(bs) + b
  {
    if bs == [] {
      assert [b][1..] == [];
    } else {
      assert (bs + [b])[1..] == bs[1..] + [b];
      FlattenSnoc(bs[1..], b);
    }
  }

  /** A unit's line; the building target is written through `(int)`. */
  function UnitLine(types: seq<UnitType>, u: Unit): string
    requires 0 <= u.typeIndex < |types| && 0 <= u.buildingTarget < IdRange
  {
    Join(["U"] + Words([u.id]) + [types[u.typeIndex].id] + Words(UnitValues(u)))
  }

  /** The numbers of a `U` line after the type id: tile, goal, hit points,
      job, cargo and building target. */
  function UnitValues(u: Unit): seq<int>
    requires 0 <= u.buildingTarget < IdRange
  {
    [u.tile.x, u.tile.y, u.goal.x, u.goal.y, u.hp, JobCode(u.job), u.carried, u.carriedKind,
     Economy.Int32Of(u.buildingTarget)]
  }

  /** What `save_game` can write: sized vectors, loaded unit types, and
      building targets that are `uint32_t` values. */
  ghost predicate Writable(s: State)
  {
    StateValid(s) && Sized(s.world)
    && forall k :: 0 <= k < |s.units| ==> 0 <= s.units[k].buildingTarget < IdRange
  }

  /** The blocks of a list of buildings. */
  function BuildingBlocks(types: seq<UnitType>, bs: seq<Building>): (ls: seq<seq<string>>)
    requires forall k, q :: 0 <= k < |bs| && 0 <= q < |bs[k].queue| ==> 0 <= bs[k].queue[q].unitType < |types|
    ensures |ls| == |bs|
  {
    seq(|bs|, k requires 0 <= k < |bs| => BuildingBlock(types, bs[k]))
  }

  function DropoffLines(ds: seq<Vec2i>): seq<string>
  {
    seq(|ds|, k requires 0 <= k < |ds| => DropoffLine(ds[k]))
  }

  function UnitLines(types: seq<UnitType>, us: seq<Unit>): seq<string>
    requires forall k :: 0 <= k < |us| ==> 0 <= us[k].typeIndex < |types| && 0 <= us[k].buildingTarget < IdRange
  {
    seq(|us|, k requires 0 <= k < |us| => UnitLine(types, us[k]))
  }

  /** The vectors in the order they are saved and loaded. */
  const Layers: seq<Layer> := [Tiles, Blocked, ResKind, ResAmount, ResMax]

  /** The lists: the drop-offs, the buildings with their queues and the
      units, each preceded by its tag and length. */
  function ListLines(s: State): seq<string>
    requires Writable(s)
  {
    [CountLine("DROPOFFS", |s.dropoffs|)] + DropoffLines(s.dropoffs)
    + ([CountLine("BUILDINGS", |s.buildings|)] + Flatten(BuildingBlocks(s.unitTypes, s.buildings))
    + ([CountLine("UNITS", |s.units|)] + UnitLines(s.unitTypes, s.units)))
  }

  /** The vectors from the k-th on, then the lists. */
  function LayersFrom(s: State, k: nat): seq<string>
    requires Writable(s) && k <= |Layers|
    decreases |Layers| - k
  {
    if k == |Layers| then ListLines(s) else LayerLines(s.world, Layers[k]) + LayersFrom(s, k + 1)
  }

  function EcoLine(s: State): string
  {
    Join(["ECO"] + Words([s.gold, s.wood, s.foodUsed, s.foodCap]))
  }

  function IdsLine(s: State): string
  {
    Join(["IDS"] + Words([s.nextUnitId, s.nextBuildingId]))
  }

  function MapLine(m: Map): string
  {
    Join(["MAP"] + Words([m.width, m.height]))
  }

  /** `save_game`: the header, economy and counters, the map size and its five
      vectors, then the lists. Paths, cooldowns and selection are not
      written. */
  function SaveLines(s: State): seq<string>
    requires Writable(s)
  {
    ["VERSION 1", EcoLine(s), IdsLine(s), MapLine(s.world)] + LayersFrom(s, 0)
  }

  // ------------------------------------------------------------------ reading

  /** The target of one extraction in a `>>` chain: an `int` or a `uint32_t`
      with the value it holds before, a `std::string` likewise, or an
      uninitialised `int` local. */
  datatype Field = IntField(prev: int) | UIntField(prev: int) | WordField(before: string) | FreshField

  /** What the target holds afterwards; `Junk` is an uninitialised local that
      the extraction did not store to (reading it is undefined behaviour). */
  datatype Tok = Num(n: int) | Word(w: string) | Junk
  {
    /** The number a numeric target holds (a word target never is one). */
    function Int(): int
    {
      if Num? then n else 0
    }

    /** The text a string target holds. */
    function Str(): string
    {
      if Word? then w else ""
    }
  }

  function ReadField(st: Stream, f: Field): (r: (Tok, Stream))
    ensures f.FreshField? || r.0 != Junk
  {
    match f
    case IntField(p) => var (v, st') := ReadInt32(st, p); (Num(v), st')
    case UIntField(p) => var (v, st') := ReadUInt32(st, p); (Num(v), st')
    case WordField(p) => var (w, st') := ReadWord(st, p); (Word(w), st')
    case FreshField =>
      var (v, st') := ReadInt32(st, 0);
      if !st.good || DropSpaces(st.rest) == [] then (Junk, st') else (Num(v), st')
  }

  /** `in >> a >> b >> ...`: the extractions in order on one stream. */
  function ReadFields(st: Stream, fs: seq<Field>): (r: (seq<Tok>, Stream))
    ensures |r.0| == |fs|
    decreases |fs|
  {
    if fs == [] then ([], st)
    else
      var (t, st1) := ReadField(st, fs[0]);
      var (ts, st2) := ReadFields(st1, fs[1..]);
      ([t] + ts, st2)
  }

  /** The next line `std::getline` hands over; past the end, an empty one.
      The file is taken to end with a newline, as every line `save_game`
      writes does. */
  function Head(rest: seq<string>): string
  {
    if rest == [] then "" else rest[0]
  }

  function Tail(rest: seq<string>): (r: seq<string>)
    ensures |r| <= |rest| && (rest != [] ==> |r| < |rest|)
  {
    if rest == [] then [] else rest[1..]
  }

  function Bytes(vs: seq<int>): (r: seq<int>)
    ensures |r| == |vs| && forall i :: 0 <= i < |vs| ==> r[i] == Byte(vs[i])
  {
    seq(|vs|, i requires 0 <= i < |vs| => Byte(vs[i]))
  }

  /** `int v; rs >> v;`, n times on one stream: the values read, or None when
      a read stored nothing into the uninitialised `v` (the stream had failed
      or held only whitespace). */
  function ReadCells(st: Stream, n: nat): (r: Option<seq<int>>)
    ensures r.Some? ==> |r.value| == n
    decreases n
  {
    if n == 0 then Some([])
    else if !st.good || DropSpaces(st.rest) == [] then None
    else
      var (v, st') := ReadInt32(st, 0);
      match ReadCells(st', n - 1)
      case None => None
      case Some(vs) => Some([v] + vs)
  }

  /** `for x < width: int v; rs >> v;` over one line. */
  function RowCells(line: string, w: int): (r: Option<seq<int>>)
    ensures r.Some? ==> |r.value| == Max(w, 0)
  {
    ReadCells(Open(line), Max(w, 0))
  }

  /** v with the entries from `at` on replaced by row. */
  function Splice(v: seq<int>, at: int, row: seq<int>): (r: seq<int>)
    requires 0 <= at && at + |row| <= |v|
    ensures |r| == |v|
  {
    v[..at] + row + v[at + |row|..]
  }

  /** The row loop of a vector record, from row y on, whose first cell goes to
      `at`, which is `y*w` (kept as a running offset, so the loop carries no
      product): each line's cells are written from there (through `uint8_t`
      for an 8-bit vector). None is undefined behaviour: a cell with nothing
      read, or a write past the end of the vector. Yields the vector and the
      lines left. */
  function ReadGrid(rest: seq<string>, w: int, h: int, y: int, at: int, v: seq<int>, bytes: bool)
    : (r: Option<(seq<int>, seq<string>)>)
    requires 0 <= at
    ensures r.Some? ==> |r.value.1| <= |rest| && |r.value.0| == |v|
    decreases h - y
  {
    if y >= h then Some((v, rest))
    else
      match RowCells(Head(rest), w)
      case None => None
      case Some(cells) =>
        if w <= 0 then ReadGrid(Tail(rest), w, h, y + 1, at, v, bytes)
        else if at + w > |v| then None
        else ReadGrid(Tail(rest), w, h, y + 1, at + w, Splice(v, at, if bytes then Bytes(cells) else cells), bytes)
  }

  /** The `DROPOFFS` loop: n lines `D x y`, each appended as read. */
  function ReadDropoffs(rest: seq<string>, n: int, ds: seq<Vec2i>): (r: (seq<Vec2i>, seq<string>))
    ensures |r.1| <= |rest|
    decreases n
  {
    if n <= 0 then (ds, rest)
    else
      var ts := ReadFields(Open(Head(rest)), [WordField(""), IntField(0), IntField(0)]).0;
      ReadDropoffs(Tail(rest), n - 1, ds + [Vec2i(ts[1].Int(), ts[2].Int())])
  }

  /** The queue loop of a building: n lines `QI id ms`; an item whose unit-type
      id is not in the index is dropped. */
  function ReadQueue(rest: seq<string>, n: int, index: map<string, int>, q: seq<TrainItem>)
    : (r: (seq<TrainItem>, seq<string>))
    ensures |r.1| <= |rest|
    decreases n
  {
    if n <= 0 then (q, rest)
    else
      var ts := ReadFields(Open(Head(rest)), [WordField(""), WordField(""), IntField(0)]).0;
      var q' := if ts[1].Str() in index then q + [TrainItem(index[ts[1].Str()], ts[2].Int())] else q;
      ReadQueue(Tail(rest), n - 1, index, q')
  }

  /** The fields of a `B` line, with what `Building b{}` holds before. */
  const BuildingFields: seq<Field> := [WordField(""), UIntField(0), FreshField, IntField(0), IntField(0),
    IntField(1), IntField(1), FreshField, IntField(0), IntField(1000), IntField(0), IntField(0),
    IntField(-1), IntField(-1)]

  /** A building decoded from the tokens of its line. */
  function BuildingOf(ts: seq<Tok>): (b: Building)
    requires |ts| == |BuildingFields|
  {
    DefaultBuilding.(id := ts[1].Int(), kind := KindOfCode(ts[2].Int()), tile := Vec2i(ts[3].Int(), ts[4].Int()),
      w := ts[5].Int(), h := ts[6].Int(), state := StateOfCode(ts[7].Int()), buildProgressMs := ts[8].Int(),
      buildTotalMs := ts[9].Int(), costGold := ts[10].Int(), costWood := ts[11].Int(), rally := Vec2i(ts[12].Int(), ts[13].Int()))
  }

  /** The `BUILDINGS` loop: n blocks of a `B` line, a `BQ n` line and the
      queue's lines. None when the kind or state read stored nothing into its
      uninitialised local. */
  function ReadBuildings(rest: seq<string>, n: int, index: map<string, int>, bs: seq<Building>)
    : (r: Option<(seq<Building>, seq<string>)>)
    ensures r.Some? ==> |r.value.1| <= |rest|
    decreases n
  {
    if n <= 0 then Some((bs, rest))
    else
      var ts := ReadFields(Open(Head(rest)), BuildingFields).0;
      if ts[2].Junk? || ts[7].Junk? then None
      else
        var rest1 := Tail(rest);
        var hs := ReadFields(Open(Head(rest1)), [WordField(""), IntField(0)]).0;
        var (q, rest2) := ReadQueue(Tail(rest1), hs[1].Int(), index, []);
        ReadBuildings(rest2, n - 1, index, bs + [BuildingOf(ts).(queue := q)])
  }

  /** The fields of a `U` line, with what `Unit u{}` and the locals hold before. */
  const UnitFields: seq<Field> := [WordField(""), UIntField(0), WordField(""), IntField(0), IntField(0),
    IntField(0), IntField(0), IntField(0), FreshField, IntField(0), FreshField, UIntField(0)]

  /** A unit decoded from the tokens of its line, with unit type ti. */
  function UnitOf(ts: seq<Tok>, ti: int): (u: Unit)
    requires |ts| == |UnitFields|
  {
    DefaultUnit.(id := ts[1].Int(), typeIndex := ti, tile := Vec2i(ts[3].Int(), ts[4].Int()), goal := Vec2i(ts[5].Int(), ts[6].Int()),
      hp := ts[7].Int(), job := JobOfCode(ts[8].Int()), carried := ts[9].Int(), carriedKind := Byte(ts[10].Int()),
      buildingTarget := ts[11].Int())
  }

  /** The `UNITS` loop: n `U` lines; a unit whose type id is not in the index
      is skipped. None when a kept unit's job or carried kind read stored
      nothing into its uninitialised local. */
  function ReadUnits(rest: seq<string>, n: int, index: map<string, int>, us: seq<Unit>)
    : (r: Option<(seq<Unit>, seq<string>)>)
    ensures r.Some? ==> |r.value.1| <= |rest|
    decreases n
  {
    if n <= 0 then Some((us, rest))
    else
      var ts := ReadFields(Open(Head(rest)), UnitFields).0;
      if ts[2].Str() !in index then ReadUnits(Tail(rest), n - 1, index, us)
      else if ts[8].Junk? || ts[10].Junk? then None
      else ReadUnits(Tail(rest), n - 1, index, us + [UnitOf(ts, index[ts[2].Str()])])
  }

  /** How a load ends: with the state to install, with `false` for a missing or
      wrong `VERSION` line, with an exception out of `assign` (a negative cell
      count), or in undefined behaviour. */
  datatype Outcome = Loaded(s: State) | BadHeader | Threw | Undefined

  /** The loader's locals between records: the state being built, the map
      size last read and the last tag read. */
  datatype Reader = Reader(ns: State, width: int, height: int, tag: string)

  /** After one record: go on with the lines left, or stop. */
  datatype Next = Go(rd: Reader, rest: seq<string>) | Stop(o: Outcome)

  /** Which vector a tag names. */
  function TagLayer(tag: string): Option<Layer>
  {
    if tag == "TILES" then Some(Tiles) else if tag == "BLOCKED" then Some(Blocked)
    else if tag == "RESKIND" then Some(ResKind) else if tag == "RESAMNT" then Some(ResAmount)
    else if tag == "RESMAX" then Some(ResMax) else None
  }

  /** `ECO gold wood food_used food_cap`. */
  function ReadEco(rd: Reader, st: Stream, rest: seq<string>): (r: Next)
    ensures r.Go? ==> r.rest == rest
  {
    var ns := rd.ns;
    var ts := ReadFields(st, [IntField(ns.gold), IntField(ns.wood), IntField(ns.foodUsed), IntField(ns.foodCap)]).0;
    Go(rd.(ns := ns.(gold := ts[0].Int(), wood := ts[1].Int(), foodUsed := ts[2].Int(), foodCap := ts[3].Int())), rest)
  }

  /** `IDS next_unit_id next_building_id`, into `uint32_t` counters. */
  function ReadIds(rd: Reader, st: Stream, rest: seq<string>): (r: Next)
    ensures r.Go? ==> r.rest == rest
  {
    var ns := rd.ns;
    var ts := ReadFields(st, [UIntField(ns.nextUnitId), UIntField(ns.nextBuildingId)]).0;
    Go(rd.(ns := ns.(nextUnitId := ts[0].Int(), nextBuildingId := ts[1].Int())), rest)
  }

  /** `MAP w h`: the size, and every vector assigned `w*h` zeros. The product
      is an `int`: outside 32 bits it is undefined behaviour, negative it makes
      `assign` throw. `sizeMax` says whether `res_max` is sized too, which the
      source does not do. */
  function ReadMapSize(rd: Reader, st: Stream, rest: seq<string>, sizeMax: bool): (r: Next)
    ensures r.Stop? ==> r.o == Undefined || r.o == Threw
    ensures r.Go? ==> r.rest == rest
  {
    var ns := rd.ns;
    var ts := ReadFields(st, [IntField(rd.width), IntField(rd.height)]).0;
    var w, h := ts[0].Int(), ts[1].Int();
    if !InInt32(w * h) then Stop(Undefined)
    else if w * h < 0 then Stop(Threw)
    else
      var z := Data.Zeros(w * h);
      var m := ns.world.(width := w, height := h, tiles := z, blocked := z, resKind := z, resAmount := z,
                         resMax := if sizeMax then z else ns.world.resMax);
      Go(rd.(ns := ns.(world := m), width := w, height := h), rest)
  }

  /** A vector's rows, for the size last read. */
  function ReadLayer(rd: Reader, l: Layer, rest: seq<string>): (r: Next)
    ensures r.Stop? ==> r.o == Undefined || r.o == Threw
    ensures r.Go? ==> |r.rest| <= |rest|
  {
    var ns := rd.ns;
    match ReadGrid(rest, rd.width, rd.height, 0, 0, LayerOf(ns.world, l), ByteLayer(l))
    case None => Stop(Undefined)
    case Some((v, rest')) => Go(rd.(ns := ns.(world := WithLayer(ns.world, l, v))), rest')
  }

  /** `DROPOFFS n` and its lines. */
  function ReadDropoffList(rd: Reader, st: Stream, rest: seq<string>): (r: Next)
    ensures r.Go? ==> |r.rest| <= |rest|
  {
    var n := ReadFields(st, [IntField(0)]).0[0].Int();
    var (ds, rest') := ReadDropoffs(rest, n, rd.ns.dropoffs);
    Go(rd.(ns := rd.ns.(dropoffs := ds)), rest')
  }

  /** `BUILDINGS n` and its blocks. */
  function ReadBuildingList(rd: Reader, st: Stream, rest: seq<string>): (r: Next)
    ensures r.Stop? ==> r.o == Undefined || r.o == Threw
    ensures r.Go? ==> |r.rest| <= |rest|
  {
    var n := ReadFields(st, [IntField(0)]).0[0].Int();
    match ReadBuildings(rest, n, rd.ns.unitTypeIndex, rd.ns.buildings)
    case None => Stop(Undefined)
    case Some((bs, rest')) => Go(rd.(ns := rd.ns.(buildings := bs)), rest')
  }

  /** `UNITS n` and its lines. */
  function ReadUnitList(rd: Reader, st: Stream, rest: seq<string>): (r: Next)
    ensures r.Stop? ==> r.o == Undefined || r.o == Threw
    ensures r.Go? ==> |r.rest| <= |rest|
  {
    var n := ReadFields(st, [IntField(0)]).0[0].Int();
    match ReadUnits(rest, n, rd.ns.unitTypeIndex, rd.ns.units)
    case None => Stop(Undefined)
    case Some((us, rest')) => Go(rd.(ns := rd.ns.(units := us)), rest')
  }

  /** One non-empty line of the main loop and the lines its record consumes.
      A line with no word keeps the previous tag and repeats that record; an
      unknown tag is ignored. */
  function ReadRecord(rd: Reader, line: string, rest: seq<string>, sizeMax: bool): (r: Next)
    ensures r.Stop? ==> r.o == Undefined || r.o == Threw
    ensures r.Go? ==> |r.rest| <= |rest|
  {
    var (tag, st) := ReadWord(Open(line), rd.tag);
    var rd' := rd.(tag := tag);
    if tag == "ECO" then ReadEco(rd', st, rest)
    else if tag == "IDS" then ReadIds(rd', st, rest)
    else if tag == "MAP" then ReadMapSize(rd', st, rest, sizeMax)
    else if TagLayer(tag).Some? then ReadLayer(rd', TagLayer(tag).value, rest)
    else if tag == "DROPOFFS" then ReadDropoffList(rd', st, rest)
    else if tag == "BUILDINGS" then ReadBuildingList(rd', st, rest)
    else if tag == "UNITS" then ReadUnitList(rd', st, rest)
    else Go(rd', rest)
  }

  /** The main `while (getline)` loop: empty lines are skipped, every other
      line is a record; at the end the state built so far is the result. */
  function Run(rd: Reader, rest: seq<string>, sizeMax: bool): Outcome
    decreases |rest|
  {
    if rest == [] then Loaded(rd.ns)
    else if rest[0] == "" then Run(rd, rest[1..], sizeMax)
    else
      match ReadRecord(rd, rest[0], rest[1..], sizeMax)
      case Stop(o) => o
      case Go(rd', rest') => Run(rd', rest', sizeMax)
  }

  /** The first line must read `VERSION` and then the number 1. */
  predicate HeaderOk(lines: seq<string>)
  {
    lines != [] &&
    var (tag, st) := ReadWord(Open(lines[0]), "");
    st.good && tag == "VERSION" && ReadInt32(st, 0).0 == 1
  }

  /** The reader a load starts from: a fresh state that keeps the live unit
      types and index. */
  function Start(types: seq<UnitType>, index: map<string, int>): Reader
  {
    Reader(FreshState.(unitTypes := types, unitTypeIndex := index), 0, 0, "VERSION")
  }

  function LoadWith(types: seq<UnitType>, index: map<string, int>, lines: seq<string>, sizeMax: bool): Outcome
  {
    if !HeaderOk(lines) then BadHeader else Run(Start(types, index), lines[1..], sizeMax)
  }

  /** `load_game` as written: `MAP` leaves `res_max` empty. */
  function LoadAsWritten(types: seq<UnitType>, index: map<string, int>, lines: seq<string>): Outcome
  {
    LoadWith(types, index, lines, false)
  }

  /** `load_game` with `res_max` sized by `MAP` like the other vectors. */
  function Load(types: seq<UnitType>, index: map<string, int>, lines: seq<string>): Outcome
  {
    LoadWith(types, index, lines, true)
  }
}
