/** `save_game` and `load_game` on a live `Sim`: the writer builds its lines
    row by row and record by record, the loader runs its record loop over a
    fresh state and installs it only at the end. */
module Persistence {
  import opened Grid
  import opened Types
  import opened Text
  import opened World
  import opened SaveLoad
  import opened Simulation
  import Reload

  // ---------------------------------------------------------------- writing

  /** Appending a word to a joined line adds one space and the word. */
  lemma {:induction false} JoinSnoc(ws: seq<string>, z: string)
    ensures Join(ws + [z]) == if ws == [] then z else Join(ws) + " " + z
    decreases |ws|
  {
    if ws == [] {
      assert [] + [z] == [z];
    } else if |ws| == 1 {
      assert ws + [z] == [ws[0], z];
    } else {
      assert (ws + [z])[1..] == ws[1..] + [z];
      JoinSnoc(ws[1..], z);
    }
  }

  lemma WordsSnoc(vs: seq<int>, z: int)
    ensures Words(vs + [z]) == Words(vs) + [IntToString(z)]
  {
  }

  /** One more cell on a row under construction. */
  lemma RowTextSnoc(cells: seq<int>, x: int)
    requires 0 <= x < |cells|
    ensures Join(Words(cells[..x + 1])) == (if x > 0 then Join(Words(cells[..x])) + " " else "") + IntToString(cells[x])
  {
    assert cells[..x + 1] == cells[..x] + [cells[x]];
    WordsSnoc(cells[..x], cells[x]);
    JoinSnoc(Words(cells[..x]), IntToString(cells[x]));
  }

  /** The cells of a row written one after another, a space before every
      cell but the first. */
  method WriteCells(cells: seq<int>) returns (row: string)
    ensures row == Join(Words(cells))
  {
    row := "";
    var x := 0;
    while x < |cells|
      invariant 0 <= x <= |cells|
      invariant row == Join(Words(cells[..x]))
    {
      RowTextSnoc(cells, x);
      if x > 0 {
        row := row + " ";
      }
      row := row + IntToString(cells[x]);
      x := x + 1;
    }
    assert cells[..x] == cells;
  }

  /** Row y of a vector. */
  method WriteRow(v: seq<int>, w: int, h: int, y: int) returns (row: string)
    requires |v| == Cells(w, h) && 0 <= y < h
    ensures row == RowLine(v, w, h, y)
  {
    if w <= 0 {
      return "";
    }
    RowFits(w, h, y);
    row := WriteCells(v[y * w .. y * w + w]);
  }

  /** The rows of a vector, one per map row. */
  method WriteGrid(v: seq<int>, w: int, h: int) returns (ls: seq<string>)
    requires |v| == Cells(w, h)
    ensures ls == GridLines(v, w, h)
  {
    ls := [];
    var y := 0;
    while y < h
      invariant 0 <= y <= Max(h, 0)
      invariant ls == GridLines(v, w, h)[..y]
    {
      var row := WriteRow(v, w, h, y);
      assert GridLines(v, w, h)[..y + 1] == GridLines(v, w, h)[..y] + [row];
      ls := ls + [row];
      y := y + 1;
    }
    assert GridLines(v, w, h)[..y] == GridLines(v, w, h);
  }

  /** The `D` lines. */
  method WriteDropoffs(ds: seq<Vec2i>) returns (ls: seq<string>)
    ensures ls == DropoffLines(ds)
  {
    ls := [];
    var i := 0;
    while i < |ds|
      invariant 0 <= i <= |ds|
      invariant ls == DropoffLines(ds[..i])
    {
      assert DropoffLines(ds[..i + 1]) == DropoffLines(ds[..i]) + [DropoffLine(ds[i])];
      ls := ls + [DropoffLine(ds[i])];
      i := i + 1;
    }
    assert ds[..i] == ds;
  }

  /** One building's block: its `B` line, its `BQ` line and a `QI` line per
      queued item. */
  method WriteBlock(types: seq<UnitType>, b: Building) returns (ls: seq<string>)
    requires forall q :: 0 <= q < |b.queue| ==> 0 <= b.queue[q].unitType < |types|
    ensures ls == BuildingBlock(types, b)
  {
    ls := [BuildingLine(b), QueueLine(b)];
    var j := 0;
    while j < |b.queue|
      invariant 0 <= j <= |b.queue|
      invariant ls == [BuildingLine(b), QueueLine(b)] + ItemLines(types, b.queue[..j])
    {
      assert ItemLines(types, b.queue[..j + 1]) == ItemLines(types, b.queue[..j]) + [ItemLine(types, b.queue[j])];
      ls := ls + [ItemLine(types, b.queue[j])];
      j := j + 1;
    }
    assert b.queue[..j] == b.queue;
  }

  lemma BlocksSnoc(types: seq<UnitType>, bs: seq<Building>, i: int)
    requires 0 <= i < |bs|
    requires forall k, q :: 0 <= k < |bs| && 0 <= q < |bs[k].queue| ==> 0 <= bs[k].queue[q].unitType < |types|
    ensures BuildingBlocks(types, bs[..i + 1]) == BuildingBlocks(types, bs[..i]) + [BuildingBlock(types, bs[i])]
  {
  }

  /** The blocks of the buildings, in order. */
  method WriteBuildings(types: seq<UnitType>, bs: seq<Building>) returns (ls: seq<string>)
    requires forall k, q :: 0 <= k < |bs| && 0 <= q < |bs[k].queue| ==> 0 <= bs[k].queue[q].unitType < |types|
    ensures ls == Flatten(BuildingBlocks(types, bs))
  {
    ls := [];
    var i := 0;
    while i < |bs|
      invariant 0 <= i <= |bs|
      invariant ls == Flatten(BuildingBlocks(types, bs[..i]))
    {
      var block := WriteBlock(types, bs[i]);
      BlocksSnoc(types, bs, i);
      FlattenSnoc(BuildingBlocks(types, bs[..i]), block);
      ls := ls + block;
      i := i + 1;
    }
    assert bs[..i] == bs;
  }

  /** The `U` lines. */
  method WriteUnits(types: seq<UnitType>, us: seq<Unit>) returns (ls: seq<string>)
    requires forall k :: 0 <= k < |us| ==> 0 <= us[k].typeIndex < |types| && 0 <= us[k].buildingTarget < IdRange
    ensures ls == UnitLines(types, us)
  {
    ls := [];
    var i := 0;
    while i < |us|
      invariant 0 <= i <= |us|
      invariant ls == UnitLines(types, us[..i])
    {
      assert UnitLines(types, us[..i + 1]) == UnitLines(types, us[..i]) + [UnitLine(types, us[i])];
      ls := ls + [UnitLine(types, us[i])];
      i := i + 1;
    }
    assert us[..i] == us;
  }

  /** The three lists, each after its count line. */
  method WriteLists(st: State) returns (ls: seq<string>)
    requires Writable(st)
    ensures ls == ListLines(st)
  {
    var ds := WriteDropoffs(st.dropoffs);
    var bs := WriteBuildings(st.unitTypes, st.buildings);
    var us := WriteUnits(st.unitTypes, st.units);
    ls := [CountLine("DROPOFFS", |st.dropoffs|)] + ds
      + ([CountLine("BUILDINGS", |st.buildings|)] + bs
      + ([CountLine("UNITS", |st.units|)] + us));
  }

  /** The lines from the k-th vector on: its tag and rows come first. */
  lemma LayersFromNext(st: State, k: nat)
    requires Writable(st) && k < |Layers|
    ensures |LayerOf(st.world, Layers[k])| == Cells(st.world.width, st.world.height)
    ensures LayersFrom(st, k)
      == [LayerTag(Layers[k])] + GridLines(LayerOf(st.world, Layers[k]), st.world.width, st.world.height) + LayersFrom(st, k + 1)
  {
    Reload.LayerSized(st.world, Layers[k]);
  }

  lemma Append3(a: seq<string>, b: seq<string>, c: seq<string>)
    ensures a + b + c == a + (b + c)
  {
  }

  /** `save_game` over a live `Sim`: exactly the lines of the save format for
      its state. */
  method SaveGame(s: Sim) returns (lines: seq<string>)
    requires Writable(s.Snapshot())
    ensures lines == SaveLines(s.Snapshot())
  {
    var st := s.Snapshot();
    lines := ["VERSION 1", EcoLine(st), IdsLine(st), MapLine(st.world)];
    var k := 0;
    while k < |Layers|
      invariant 0 <= k <= |Layers|
      invariant lines + LayersFrom(st, k) == SaveLines(st)
    {
      LayersFromNext(st, k);
      var rows := WriteGrid(LayerOf(st.world, Layers[k]), st.world.width, st.world.height);
      Append3(lines, [LayerTag(Layers[k])] + rows, LayersFrom(st, k + 1));
      lines := lines + ([LayerTag(Layers[k])] + rows);
      k := k + 1;
    }
    var tail := WriteLists(st);
    lines := lines + tail;
  }

  // ---------------------------------------------------------------- reading

  /** `load_game` over the lines of a file: false (`BadHeader`) for a missing
      or wrong `VERSION` line, otherwise the record loop over a fresh state
      that keeps the live unit types. The live `Sim` is assigned the new state
      only when the loop reaches the end; a load that fails, throws or meets
      undefined behaviour leaves it as it was. */
  method LoadGame(s: Sim, lines: seq<string>) returns (o: Outcome)
    modifies s
    ensures o == Load(old(s.unitTypes), old(s.unitTypeIndex), lines)
    ensures o.Loaded? ==> s.Snapshot() == o.s
    ensures !o.Loaded? ==> s.Snapshot() == old(s.Snapshot())
  {
    var types, index := s.unitTypes, s.unitTypeIndex;
    if !HeaderOk(lines) {
      return BadHeader;
    }
    var rd, rest := Start(types, index), lines[1..];
    while rest != []
      invariant Run(rd, rest, true) == Run(Start(types, index), lines[1..], true)
      decreases |rest|
    {
      if rest[0] == "" {
        rest := rest[1..];
      } else {
        match ReadRecord(rd, rest[0], rest[1..], true)
        case Stop(failed) =>
          return failed;
        case Go(rd', rest') =>
          rd, rest := rd', rest';
      }
    }
    s.Assign(rd.ns);
    o := Loaded(rd.ns);
  }

  /** Saving a live `Sim` and loading the lines back into it installs the
      saved state, less the units' paths and cooldowns and the selection. */
  method SaveThenLoad(s: Sim) returns (o: Outcome)
    requires Reload.Saveable(s.Snapshot())
    modifies s
    ensures o == Loaded(Reload.Persisted(old(s.Snapshot())))
    ensures s.Snapshot() == Reload.Persisted(old(s.Snapshot()))
  {
    var lines := SaveGame(s);
    Reload.SaveLoadRoundTrip(s.Snapshot());
    o := LoadGame(s, lines);
  }
}
