/** The asset loaders: the character map (`load_map_txt`) and the unit-type
    table (`load_units_csv`), both over the lines of their files. */
module Data {
  import opened Grid
  import opened Types
  import opened Text

  // ---- map.txt ----

  /** The map legend: '#' wall, 'G' gold, 'T' forest, 'D' drop-off; anything else is grass. */
  function Legend(c: char): (v: int)
    ensures 0 <= v <= 4
    ensures v == TileWall <==> c == '#'
    ensures v == TileGold <==> c == 'G'
    ensures v == TileForest <==> c == 'T'
    ensures v == TileDropoff <==> c == 'D'
  {
    if c == '#' then 1
    else if c == 'G' then 2
    else if c == 'T' then 3
    else if c == 'D' then 4
    else 0
  }

  /** The lines that are not empty, in file order. */
  function NonEmptyLines(ls: seq<string>): (r: seq<string>)
    ensures |r| <= |ls|
    ensures forall i :: 0 <= i < |r| ==> r[i] != []
  {
    if ls == [] then []
    else NonEmptyLines(ls[..|ls| - 1]) + (if ls[|ls| - 1] != [] then [ls[|ls| - 1]] else [])
  }

  /** No line survives exactly when every line is empty. */
  lemma {:induction false} NonEmptyLinesEmpty(ls: seq<string>)
    ensures NonEmptyLines(ls) == [] <==> forall i :: 0 <= i < |ls| ==> ls[i] == []
  {
    if ls != [] {
      var pre := ls[..|ls| - 1];
      NonEmptyLinesEmpty(pre);
      assert forall i :: 0 <= i < |pre| ==> pre[i] == ls[i];
    }
  }

  /** Every kept line is a line of the file, and every non-empty line is kept. */
  lemma {:induction false} NonEmptyLinesMembers(ls: seq<string>)
    ensures forall l :: l in NonEmptyLines(ls) <==> l in ls && l != []
  {
    if ls != [] {
      var pre := ls[..|ls| - 1];
      NonEmptyLinesMembers(pre);
      assert ls == pre + [ls[|ls| - 1]];
    }
  }

  /** The map lines `load_map_txt` can index: every kept line is at most one
      character shorter than the first. Column `|line|` reads the string's
      terminating '\0'; a column beyond it is out of range. */
  predicate RowsLongEnough(rows: seq<string>)
  {
    rows != [] ==> forall y :: 0 <= y < |rows| ==> |rows[y]| + 1 >= |rows[0]|
  }

  /** `line[x]` on a `std::string`: the character at x, or the terminating
      '\0' at `x == line.size()`, which the legend reads as grass. */
  function MapChar(line: string, x: int): (c: char)
    requires 0 <= x <= |line|
    ensures x < |line| ==> c == line[x]
    ensures x == |line| ==> c == '\0' && Legend(c) == TileGrass
  {
    if x < |line| then line[x] else '\0'
  }

  /** The first loop of `load_map_txt`: keeps the non-empty lines. */
  method CollectRows(lines: seq<string>) returns (rows: seq<string>)
    ensures rows == NonEmptyLines(lines)
  {
    rows := [];
    var i := 0;
    while i < |lines|
      invariant 0 <= i <= |lines|
      invariant rows == NonEmptyLines(lines[..i])
    {
      assert lines[..i + 1][..i] == lines[..i];
      if lines[i] != [] {
        rows := rows + [lines[i]];
      }
      i := i + 1;
    }
    assert lines[..|lines|] == lines;
  }

  /** The first n cells hold the legend codes of their row-major tiles. */
  predicate LegendAt(cells: seq<int>, rows: seq<string>, w: int, n: int)
    requires w > 0 && 0 <= n <= |cells|
  {
    forall k :: 0 <= k < n ==> 0 <= k / w < |rows| && k % w <= |rows[k / w]| && cells[k] == Legend(MapChar(rows[k / w], k % w))
  }

  /** Writing tile (x, y) at cell `y*w + x` extends the decoded prefix by one cell. */
  lemma LegendAtStep(cells: seq<int>, rows: seq<string>, w: int, x: int, y: int)
    requires 0 <= x < w && 0 <= y < |rows| && x <= |rows[y]|
    requires 0 <= y * w + x < |cells| && LegendAt(cells, rows, w, y * w + x)
    ensures LegendAt(cells[y * w + x := Legend(MapChar(rows[y], x))], rows, w, y * w + x + 1)
  {
    IdxCoords(w, x, y);
    var n := y * w + x;
    var c := cells[n := Legend(MapChar(rows[y], x))];
    forall k | 0 <= k < n + 1
      ensures 0 <= k / w < |rows| && k % w <= |rows[k / w]| && c[k] == Legend(MapChar(rows[k / w], k % w))
    {
      if k < n {
        assert c[k] == cells[k];
      }
    }
  }

  /** The second loop of `load_map_txt`: decodes row y, column x into cell `y*w + x`. */
  method DecodeTiles(rows: seq<string>) returns (tiles: seq<int>)
    requires rows != [] && RowsLongEnough(rows)
    ensures |tiles| == |rows[0]| * |rows|
    ensures forall y, x :: 0 <= y < |rows| && 0 <= x < |rows[0]| ==>
              0 <= Idx(|rows[0]|, x, y) < |tiles| && tiles[Idx(|rows[0]|, x, y)] == Legend(MapChar(rows[y], x))
  {
    var h, w := |rows|, |rows[0]|;
    MulNonNeg(w, h);
    tiles := seq(w * h, _ => 0);
    if w == 0 {
      return;
    }
    var y := 0;
    while y < h
      invariant 0 <= y <= h && |tiles| == w * h
      invariant y * w <= w * h && LegendAt(tiles, rows, w, y * w)
    {
      tiles := DecodeTileRow(tiles, rows, w, y);
      y := y + 1;
    }
    LegendAtAll(tiles, rows, w, h);
  }

  /** The inner loop of the decoding: row y, one cell after another. */
  method DecodeTileRow(cells: seq<int>, rows: seq<string>, w: int, y: int) returns (tiles: seq<int>)
    requires rows != [] && RowsLongEnough(rows) && w == |rows[0]| > 0
    requires 0 <= y < |rows| && |cells| == w * |rows|
    requires y * w <= w * |rows| && LegendAt(cells, rows, w, y * w)
    ensures |tiles| == |cells| && (y + 1) * w <= w * |rows| && LegendAt(tiles, rows, w, (y + 1) * w)
  {
    var at := y * w;
    RowSpan(w, |rows|, y);
    tiles := cells;
    var x := 0;
    while x < w
      invariant 0 <= x <= w && |tiles| == |cells|
      invariant LegendAt(tiles, rows, w, at + x)
    {
      LegendAtStep(tiles, rows, w, x, y);
      tiles := tiles[at + x := Legend(MapChar(rows[y], x))];
      x := x + 1;
    }
  }

  /** Row y of a `w x h` grid spans cells `y*w` to `(y+1)*w`. */
  lemma RowSpan(w: int, h: int, y: int)
    requires w > 0 && 0 <= y < h
    ensures 0 <= y * w && (y + 1) * w == y * w + w <= w * h
  {
    MulNonNeg(y, w);
    MulMono(y + 1, h, w);
  }

  /** A fully decoded vector holds every tile's legend code at its index. */
  lemma LegendAtAll(tiles: seq<int>, rows: seq<string>, w: int, h: int)
    requires rows != [] && RowsLongEnough(rows) && w == |rows[0]| > 0 && h == |rows| && |tiles| == w * h
    requires LegendAt(tiles, rows, w, h * w)
    ensures forall y, x :: 0 <= y < h && 0 <= x < w ==>
              0 <= Idx(w, x, y) < |tiles| && tiles[Idx(w, x, y)] == Legend(MapChar(rows[y], x))
  {
    forall y, x | 0 <= y < h && 0 <= x < w
      ensures 0 <= Idx(w, x, y) < |tiles| && tiles[Idx(w, x, y)] == Legend(MapChar(rows[y], x))
    {
      IdxInRange(w, h, x, y);
      IdxCoords(w, x, y);
    }
  }

  /** `assign(n, 0)`: n zero entries. */
  function Zeros(n: nat): (z: seq<int>)
    ensures |z| == n && forall k :: 0 <= k < n ==> z[k] == 0
  {
    seq(n, _ => 0)
  }

  /** What `load_map_txt` leaves: false, with `m` untouched, when no line is
      non-empty; otherwise the height is the number of non-empty lines, the
      width the length of the first one, every tile decoded through the legend
      at `y*width + x`, nothing blocked, and the resource ledger untouched. */
  ghost predicate MapRead(lines: seq<string>, m: Map, ok: bool, out: Map)
    requires RowsLongEnough(NonEmptyLines(lines))
  {
    && (ok <==> exists i :: 0 <= i < |lines| && lines[i] != [])
    && (!ok ==> out == m)
    && (ok ==> var rows := NonEmptyLines(lines);
      && rows != [] && out.height == |rows| && out.width == |rows[0]|
      && TerrainSized(out)
      && (forall y, x :: 0 <= y < out.height && 0 <= x < out.width ==>
            0 <= Idx(out.width, x, y) < |out.tiles| && out.tiles[Idx(out.width, x, y)] == Legend(MapChar(rows[y], x)))
      && (forall k :: 0 <= k < |out.blocked| ==> out.blocked[k] == 0)
      && out.resKind == m.resKind && out.resAmount == m.resAmount && out.resMax == m.resMax)
  }

  /** `load_map_txt` over the file's lines. */
  method LoadMapTxt(lines: seq<string>, m: Map) returns (ok: bool, out: Map)
    requires RowsLongEnough(NonEmptyLines(lines))
    ensures MapRead(lines, m, ok, out)
  {
    var rows := CollectRows(lines);
    NonEmptyLinesEmpty(lines);
    if rows == [] {
      return false, m;
    }
    var tiles := DecodeTiles(rows);
    var h, w := |rows|, |rows[0]|;
    assert Cells(w, h) == w * h by { MulNonNeg(w, h); }
    out := Map(w, h, tiles, Zeros(w * h), m.resKind, m.resAmount, m.resMax);
    ok := true;
  }

  /** A last line one character short: the file `###` / `##` loads as a
      3 x 2 map whose missing cell, column 2 of row 1, is grass. */
  lemma ShortLineIsGrass(m: Map, ok: bool, out: Map)
    requires RowsLongEnough(NonEmptyLines(["###", "##"]))
    requires MapRead(["###", "##"], m, ok, out)
    ensures ok && out.width == 3 && out.height == 2
    ensures out.tiles[Idx(3, 2, 1)] == TileGrass && out.tiles[Idx(3, 0, 1)] == TileWall
  {
  }

  // ---- units.csv ----

  /** The token the k-th `getline(ss, tok, ',')` of a row leaves in hand: field
      0 goes to the id; a read past the last field fails and keeps the previous
      token, which is the last field, or the empty string when the id was the
      only field. */
  function CsvField(fs: seq<string>, k: nat): (tok: string)
    requires |fs| >= 1
    ensures k < |fs| ==> tok == fs[k]
  {
    if k < |fs| then fs[k] else if |fs| >= 2 then fs[|fs| - 1] else ""
  }

  /** Attack type column: unrecognised text is Normal. */
  function AttackOf(tok: string): (a: AttackType)
    ensures a == Pierce <==> tok == "Pierce"
    ensures a == Siege <==> tok == "Siege"
    ensures a == Magic <==> tok == "Magic"
  {
    if tok == "Pierce" then Pierce else if tok == "Siege" then Siege else if tok == "Magic" then Magic else Normal
  }

  /** Armor type column: unrecognised text is Medium. */
  function ArmorOf(tok: string): (a: ArmorType)
    ensures a == Light <==> tok == "Light"
    ensures a == Heavy <==> tok == "Heavy"
    ensures a == ArmorBuilding <==> tok == "Building"
  {
    if tok == "Light" then Light else if tok == "Heavy" then Heavy else if tok == "Building" then ArmorBuilding else Medium
  }

  /** `(int16_t)v`: two's complement truncation to 16 bits. */
  function Int16(v: int): (r: int)
    ensures -0x8000 <= r < 0x8000
    ensures -0x8000 <= v < 0x8000 ==> r == v
    ensures (r - v) % 0x1_0000 == 0
  {
    (v + 0x8000) % 0x1_0000 - 0x8000
  }

  /** `(uint16_t)v`. */
  function UInt16(v: int): (r: int)
    ensures 0 <= r < 0x1_0000
    ensures 0 <= v < 0x1_0000 ==> r == v
  {
    v % 0x1_0000
  }

  /** Whether `stoi` succeeds on a column. */
  predicate Parses(fs: seq<string>, k: nat)
    requires |fs| >= 1
  {
    Stoi(CsvField(fs, k)).Some?
  }

  /** Whether every `stoi` of a row succeeds: columns hp 1, speed 2, damage 4,
      cooldown 5, range 6, armor 8, sight 9, gold 10, wood 11, food 12 and build
      time 13 are numeric; 0 is the id, 3 and 7 the attack and armor types. */
  predicate RowParses(fs: seq<string>)
    requires |fs| >= 1
  {
    Parses(fs, 1) && Parses(fs, 2) && Parses(fs, 4) && Parses(fs, 5) && Parses(fs, 6)
    && Parses(fs, 8) && Parses(fs, 9) && Parses(fs, 10) && Parses(fs, 11) && Parses(fs, 12)
    && Parses(fs, 13)
  }

  /** The value `stoi` gives a column that parses. */
  function Num(fs: seq<string>, k: nat): (v: int)
    requires |fs| >= 1 && Parses(fs, k)
    ensures InInt32(v)
  {
    Stoi(CsvField(fs, k)).value
  }

  /** The unit type a row's fields decode to: None where some `stoi` throws. */
  function DecodeFields(fs: seq<string>): (r: Option<UnitType>)
    requires |fs| >= 1
    ensures r.Some? <==> RowParses(fs)
    ensures r.Some? ==> var t := r.value;
      && t.id == fs[0] && t.hp == Num(fs, 1) && t.moveSpeedPxS == Num(fs, 2)
      && t.attack == Attack(AttackOf(CsvField(fs, 3)), Int16(Num(fs, 4)), UInt16(Num(fs, 5)), UInt16(Num(fs, 6)))
      && t.armor == Armor(ArmorOf(CsvField(fs, 7)), Int16(Num(fs, 8)))
      && t.sightTiles == Num(fs, 9) && t.costGold == Num(fs, 10) && t.costWood == Num(fs, 11)
      && t.food == Num(fs, 12) && t.buildTimeMs == Num(fs, 13)
  {
    if RowParses(fs) then
      Some(UnitType(fs[0], Num(fs, 1), Num(fs, 2),
        Attack(AttackOf(CsvField(fs, 3)), Int16(Num(fs, 4)), UInt16(Num(fs, 5)), UInt16(Num(fs, 6))),
        Armor(ArmorOf(CsvField(fs, 7)), Int16(Num(fs, 8))),
        Num(fs, 9), Num(fs, 10), Num(fs, 11), Num(fs, 12), Num(fs, 13)))
    else None
  }

  /** One row of units.csv as the loop body decodes it. */
  function DecodeRow(line: string): (r: Option<UnitType>)
  {
    DecodeFields(CommaFields(line))
  }

  /** What one line after the header contributes: nothing (empty line), a
      throwing `stoi`, or a unit type. */
  datatype RowRead = Blank | Throws | Row(t: UnitType)

  function ReadRow(line: string): (r: RowRead)
    ensures r == Blank <==> line == []
    ensures r.Row? ==> DecodeRow(line) == Some(r.t)
    ensures r == Throws <==> line != [] && DecodeRow(line).None?
  {
    if line == [] then Blank
    else match DecodeRow(line)
      case None => Throws
      case Some(t) => Row(t)
  }

  /** The reads of a sequence of lines, one per line. */
  function Reads(ls: seq<string>): (rs: seq<RowRead>)
    ensures |rs| == |ls| && forall i :: 0 <= i < |ls| ==> rs[i] == ReadRow(ls[i])
  {
    seq(|ls|, i requires 0 <= i < |ls| => ReadRow(ls[i]))
  }

  /** The rows the loop has pushed after a sequence of reads, and whether a
      `stoi` threw: blanks are skipped and the first throw ends the load. */
  function CsvRows(rs: seq<RowRead>): (r: (seq<UnitType>, bool))
  {
    if rs == [] then ([], false)
    else
      var (rows, threw) := CsvRows(rs[..|rs| - 1]);
      if threw then (rows, true)
      else match rs[|rs| - 1]
        case Blank => (rows, false)
        case Throws => (rows, true)
        case Row(t) => (rows + [t], false)
  }

  /** The unit types among the reads, in order. */
  function RowsOf(rs: seq<RowRead>): seq<UnitType>
  {
    if rs == [] then []
    else RowsOf(rs[..|rs| - 1]) + (if rs[|rs| - 1].Row? then [rs[|rs| - 1].t] else [])
  }

  /** Once a row has thrown, the lines after it change nothing. */
  lemma {:induction false} CsvRowsSticky(rs: seq<RowRead>, i: nat)
    requires i <= |rs| && CsvRows(rs[..i]).1
    ensures CsvRows(rs) == CsvRows(rs[..i])
    decreases |rs| - i
  {
    if i < |rs| {
      assert rs[..i + 1][..i] == rs[..i];
      CsvRowsSticky(rs, i + 1);
    } else {
      assert rs[..i] == rs;
    }
  }

  /** The load throws exactly when some line throws; otherwise it pushes every
      decoded row, in order. */
  lemma {:induction false} CsvRowsComplete(rs: seq<RowRead>)
    ensures CsvRows(rs).1 <==> Throws in rs
    ensures !CsvRows(rs).1 ==> CsvRows(rs).0 == RowsOf(rs)
  {
    if rs != [] {
      var pre := rs[..|rs| - 1];
      CsvRowsComplete(pre);
      assert rs == pre + [rs[|rs| - 1]];
    }
  }

  /** `unit_type_index` after rows are pushed onto a table of `base` entries:
      each row's id is mapped to its position truncated to 16 bits. */
  function IndexAfter(index: map<string, int>, base: int, rows: seq<UnitType>): map<string, int>
  {
    if rows == [] then index
    else IndexAfter(index, base, rows[..|rows| - 1])[rows[|rows| - 1].id := (base + |rows| - 1) % 0x1_0000]
  }

  /** The last position of a row with this id, or -1. */
  function LastWithId(rows: seq<UnitType>, id: string): (j: int)
    ensures -1 <= j < |rows|
    ensures j >= 0 ==> rows[j].id == id
    ensures forall k :: j < k < |rows| ==> rows[k].id != id
  {
    if rows == [] then -1
    else if rows[|rows| - 1].id == id then |rows| - 1
    else LastWithId(rows[..|rows| - 1], id)
  }

  /** The index keeps its old keys and gains every row id; a row id maps to the
      position of the LAST row that has it (a later duplicate overwrites an
      earlier one); other keys keep their old value. */
  lemma {:induction false} IndexAfterLastWins(index: map<string, int>, base: int, rows: seq<UnitType>, id: string)
    ensures id in IndexAfter(index, base, rows) <==> id in index || LastWithId(rows, id) >= 0
    ensures LastWithId(rows, id) >= 0 ==>
      IndexAfter(index, base, rows)[id] == (base + LastWithId(rows, id)) % 0x1_0000
    ensures LastWithId(rows, id) < 0 && id in index ==> IndexAfter(index, base, rows)[id] == index[id]
  {
    if rows != [] {
      IndexAfterLastWins(index, base, rows[..|rows| - 1], id);
    }
  }

  /** The loop of `load_units_csv` over the reads of the lines after the
      header: skips blanks, stops at the first throw, appends each decoded row
      to `out` and maps its id to its position truncated to 16 bits. */
  method PushRows(rs: seq<RowRead>, out: seq<UnitType>, index: map<string, int>)
    returns (threw: bool, types: seq<UnitType>, ix: map<string, int>)
    ensures threw == CsvRows(rs).1
    ensures types == out + CsvRows(rs).0
    ensures ix == IndexAfter(index, |out|, CsvRows(rs).0)
  {
    types, ix, threw := out, index, false;
    ghost var rows: seq<UnitType> := [];
    var i := 0;
    while i < |rs|
      invariant 0 <= i <= |rs|
      invariant CsvRows(rs[..i]) == (rows, false)
      invariant types == out + rows
      invariant ix == IndexAfter(index, |out|, rows)
    {
      assert rs[..i + 1][..i] == rs[..i];
      var r := rs[i];
      if r == Throws {
        CsvRowsSticky(rs, i + 1);
        threw := true;
        return;
      }
      if r.Row? {
        var t := r.t;
        var rows' := rows + [t];
        assert rows'[..|rows|] == rows;
        ix := ix[t.id := |types| % 0x1_0000];
        types := types + [t];
        rows := rows';
      }
      i := i + 1;
    }
    assert rs[..i] == rs;
  }

  /** The index stays within the table: entries that pointed into the old
      table still do, and every new entry points into the grown one. */
  lemma {:induction false} IndexAfterInTable(index: map<string, int>, base: int, rows: seq<UnitType>)
    requires base >= 0 && forall id :: id in index ==> 0 <= index[id] < base
    ensures forall id :: id in IndexAfter(index, base, rows) ==> 0 <= IndexAfter(index, base, rows)[id] < base + |rows|
  {
    if rows != [] {
      IndexAfterInTable(index, base, rows[..|rows| - 1]);
    }
  }

  /** What `load_units_csv` leaves, given the file's lines: whether a `stoi`
      threw, the table with the rows read before that appended, and the index
      with their ids recorded. */
  function UnitsRead(lines: seq<string>, out: seq<UnitType>, index: map<string, int>): (bool, seq<UnitType>, map<string, int>)
  {
    var rs := Reads(if lines == [] then [] else lines[1..]);
    (CsvRows(rs).1, out + CsvRows(rs).0, IndexAfter(index, |out|, CsvRows(rs).0))
  }

  /** `load_units_csv` over the file's lines: skips the header line, appends
      the decoded rows to `out` and records each id in `index`; `threw` tells
      that a `stoi` threw, which ends the load with the rows before it kept. */
  method LoadUnitsCsv(lines: seq<string>, out: seq<UnitType>, index: map<string, int>)
    returns (threw: bool, types: seq<UnitType>, ix: map<string, int>)
    ensures (threw, types, ix) == UnitsRead(lines, out, index)
  {
    var body := if lines == [] then [] else lines[1..];
    threw, types, ix := PushRows(Reads(body), out, index);
  }
}
