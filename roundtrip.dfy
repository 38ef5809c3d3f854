/** Reading back what `save_game` writes: word by word, row by row, record by
    record, up to the whole file. */
module RoundTrip {
  import opened Grid
  import opened Types
  import opened Text
  import opened World
  import opened SaveLoad
  import Economy
  import Data

  // ---------------------------------------------------------------- words

  predicate AllWords(ws: seq<string>)
  {
    forall i :: 0 <= i < |ws| ==> IsWord(ws[i])
  }

  /** What is left of a line after its first word. */
  function After(ws: seq<string>): string
  {
    if ws == [] then "" else " " + Join(ws)
  }

  lemma JoinSplit(ws: seq<string>)
    requires ws != []
    ensures Join(ws) == ws[0] + After(ws[1..])
  {
    if |ws| >= 2 {
      JoinCons(ws);
    }
  }

  /** A written line starts with its first word: no whitespace is skipped. */
  lemma JoinDrops(ws: seq<string>)
    requires AllWords(ws)
    ensures DropSpaces(Join(ws)) == Join(ws)
  {
    if ws != [] {
      JoinSplit(ws);
      DropSpacesOfWord(ws[0], After(ws[1..]));
    }
  }

  lemma AfterDrops(ws: seq<string>)
    requires AllWords(ws)
    ensures DropSpaces(After(ws)) == Join(ws) && EndsToken(After(ws))
  {
    if ws != [] {
      DropSpaceCons(Join(ws));
      JoinDrops(ws);
    }
  }

  /** Writing word w and extracting it with target f gives t. A `uint32_t`
      target also reads back the `(int)` cast of a value of 2^31 or more. */
  predicate Spells(w: string, f: Field, t: Tok)
  {
    match f
    case WordField(_) => IsWord(w) && t == Word(w)
    case UIntField(_) =>
      t.Num? && 0 <= t.n <= UInt32Max
      && (w == IntToString(t.n) || (t.n > Int32Max && w == IntToString(t.n - UInt32Max - 1)))
    case _ => t.Num? && InInt32(t.n) && w == IntToString(t.n)
  }

  /** One extraction reads back the word written for it and leaves the
      stream at the space after it. */
  lemma ReadFieldBack(pre: string, w: string, rest: string, f: Field, t: Tok)
    requires Spells(w, f, t) && EndsToken(rest) && DropSpaces(pre) == w + rest
    ensures ReadField(Stream(pre, true), f) == (t, Stream(rest, true))
  {
    match f
    case WordField(p) => ReadWordOf(pre, w, rest, p);
    case UIntField(p) =>
      if w == IntToString(t.n) {
        ReadUInt32Of(pre, t.n, rest, p);
      } else {
        ReadUInt32OfNegative(pre, t.n - UInt32Max - 1, rest, p);
      }
    case IntField(p) => ReadInt32Of(pre, t.n, rest, p);
    case FreshField =>
      ReadInt32Of(pre, t.n, rest, 0);
      assert DropSpaces(pre) != [];
  }

  /** A `>>` chain is its first extraction followed by the others. */
  lemma ReadFieldsStep(st: Stream, fs: seq<Field>, t: Tok, st': Stream, ts: seq<Tok>)
    requires fs != [] && ReadField(st, fs[0]) == (t, st') && ReadFields(st', fs[1..]).0 == ts
    ensures ReadFields(st, fs).0 == [t] + ts
  {
  }

  /** Every word of a line spelled for its target. */
  predicate AllSpell(ws: seq<string>, fs: seq<Field>, ts: seq<Tok>)
  {
    |ws| == |fs| == |ts| && forall i :: 0 <= i < |ws| ==> Spells(ws[i], fs[i], ts[i])
  }

  lemma SpellsShift(ws: seq<string>, fs: seq<Field>, ts: seq<Tok>)
    requires AllSpell(ws, fs, ts) && ws != []
    ensures Spells(ws[0], fs[0], ts[0]) && IsWord(ws[0]) && AllWords(ws[1..])
    ensures AllSpell(ws[1..], fs[1..], ts[1..])
  {
    assert Spells(ws[0], fs[0], ts[0]);
    forall i | 0 <= i < |ws| - 1 ensures IsWord(ws[1..][i]) && Spells(ws[1..][i], fs[1..][i], ts[1..][i]) {
      assert Spells(ws[i + 1], fs[i + 1], ts[i + 1]);
    }
  }

  /** The first extraction of a `>>` chain reads back the first word. */
  lemma HeadBack(pre: string, ws: seq<string>, fs: seq<Field>, ts: seq<Tok>)
    requires AllSpell(ws, fs, ts) && ws != [] && DropSpaces(pre) == Join(ws)
    ensures ReadField(Stream(pre, true), fs[0]) == (ts[0], Stream(After(ws[1..]), true))
    ensures DropSpaces(After(ws[1..])) == Join(ws[1..]) && AllSpell(ws[1..], fs[1..], ts[1..])
  {
    SpellsShift(ws, fs, ts);
    JoinSplit(ws);
    AfterDrops(ws[1..]);
    ReadFieldBack(pre, ws[0], After(ws[1..]), fs[0], ts[0]);
  }

  /** A `>>` chain reads back the words of a written line, one target per word. */
  lemma {:induction false} ReadBack(pre: string, ws: seq<string>, fs: seq<Field>, ts: seq<Tok>)
    requires AllSpell(ws, fs, ts) && DropSpaces(pre) == Join(ws)
    ensures ReadFields(Stream(pre, true), fs).0 == ts
    decreases |ws|
  {
    if ws != [] {
      HeadBack(pre, ws, fs, ts);
      ReadBack(After(ws[1..]), ws[1..], fs[1..], ts[1..]);
      ReadFieldsStep(Stream(pre, true), fs, ts[0], Stream(After(ws[1..]), true), ts[1..]);
      assert ts == [ts[0]] + ts[1..];
    }
  }

  /** The first word of a written line is its tag; the stream then holds the
      rest of the line. */
  lemma TagBack(tag: string, ws: seq<string>, prev: string)
    requires IsWord(tag) && AllWords(ws)
    ensures ReadWord(Open(Join([tag] + ws)), prev) == (tag, Stream(After(ws), true))
  {
    JoinSplit([tag] + ws);
    assert ([tag] + ws)[1..] == ws;
    AfterDrops(ws);
    DropSpacesOfWord(tag, After(ws));
    ReadWordOf(Join([tag] + ws), tag, After(ws), prev);
  }

  function NumToks(vs: seq<int>): (ts: seq<Tok>)
    ensures |ts| == |vs| && forall i :: 0 <= i < |vs| ==> ts[i] == Num(vs[i])
  {
    seq(|vs|, i requires 0 <= i < |vs| => Num(vs[i]))
  }

  predicate AllInt32(vs: seq<int>)
  {
    forall i :: 0 <= i < |vs| ==> InInt32(vs[i])
  }

  /** Spellings of two stretches of a line join up. */
  lemma SpellsCat(ws1: seq<string>, fs1: seq<Field>, ts1: seq<Tok>, ws2: seq<string>, fs2: seq<Field>, ts2: seq<Tok>)
    requires AllSpell(ws1, fs1, ts1) && AllSpell(ws2, fs2, ts2)
    ensures AllSpell(ws1 + ws2, fs1 + fs2, ts1 + ts2)
  {
    forall i | 0 <= i < |ws1| + |ws2| ensures Spells((ws1 + ws2)[i], (fs1 + fs2)[i], (ts1 + ts2)[i]) {
      if i < |ws1| {
        assert Spells(ws1[i], fs1[i], ts1[i]);
      } else {
        assert Spells(ws2[i - |ws1|], fs2[i - |ws1|], ts2[i - |ws1|]);
      }
    }
  }

  /** Numeric targets the values vs fit: no word target, a `uint32_t` only
      for a value in its range, an `int` only for one in 32 bits. */
  predicate NumFits(vs: seq<int>, fs: seq<Field>)
  {
    |vs| == |fs|
    && forall i :: 0 <= i < |fs| ==>
      !fs[i].WordField? && (if fs[i].UIntField? then 0 <= vs[i] <= UInt32Max else InInt32(vs[i]))
  }

  /** Values written with `std::to_string` spell themselves for numeric
      targets they fit. */
  lemma IntsSpell(vs: seq<int>, fs: seq<Field>)
    requires NumFits(vs, fs)
    ensures AllSpell(Words(vs), fs, NumToks(vs))
  {
    forall i | 0 <= i < |vs| ensures Spells(Words(vs)[i], fs[i], NumToks(vs)[i]) {
      assert Words(vs)[i] == IntToString(vs[i]);
    }
  }

  lemma SpellsWords(ws: seq<string>, fs: seq<Field>, ts: seq<Tok>)
    requires AllSpell(ws, fs, ts)
    ensures AllWords(ws)
  {
    forall i | 0 <= i < |ws| ensures IsWord(ws[i]) {
      assert Spells(ws[i], fs[i], ts[i]);
    }
  }

  /** A line read whole from a fresh stream gives the tokens its words spell. */
  lemma LineBack(ws: seq<string>, fs: seq<Field>, ts: seq<Tok>)
    requires AllSpell(ws, fs, ts)
    ensures ReadFields(Open(Join(ws)), fs).0 == ts
  {
    SpellsWords(ws, fs, ts);
    JoinDrops(ws);
    ReadBack(Join(ws), ws, fs, ts);
  }

  /** A line read as its tag and then the rest. */
  lemma TaggedBack(tag: string, ws: seq<string>, fs: seq<Field>, ts: seq<Tok>, prev: string)
    requires IsWord(tag) && AllSpell(ws, fs, ts)
    ensures ReadWord(Open(Join([tag] + ws)), prev) == (tag, Stream(After(ws), true))
    ensures ReadFields(Stream(After(ws), true), fs).0 == ts
  {
    SpellsWords(ws, fs, ts);
    TagBack(tag, ws, prev);
    AfterDrops(ws);
    ReadBack(After(ws), ws, fs, ts);
  }

  /** The numbers `std::to_string` wrote read back into the cells. */
  lemma {:induction false} CellsBack(pre: string, row: seq<int>)
    requires AllInt32(row) && DropSpaces(pre) == Join(Words(row))
    ensures ReadCells(Stream(pre, true), |row|) == Some(row)
    decreases |row|
  {
    if row != [] {
      var next := CellHead(pre, row);
      CellRest(row);
      CellsBack(next, row[1..]);
      ReadCellsStep(Stream(pre, true), row, Stream(next, true));
    }
  }

  /** The text after the first number of a row is that of the other numbers. */
  lemma CellRest(row: seq<int>)
    requires row != [] && AllInt32(row)
    ensures AllInt32(row[1..]) && DropSpaces(After(Words(row)[1..])) == Join(Words(row[1..]))
  {
    WordsShift(row);
    AfterDrops(Words(row)[1..]);
  }

  /** The first number of a non-empty row reads back, leaving the text of the
      others. */
  lemma CellHead(pre: string, row: seq<int>) returns (next: string)
    requires row != [] && AllInt32(row) && DropSpaces(pre) == Join(Words(row))
    ensures next == After(Words(row)[1..])
    ensures DropSpaces(pre) != [] && ReadInt32(Stream(pre, true), 0) == (row[0], Stream(next, true))
  {
    var ws := Words(row);
    WordsShift(row);
    JoinSplit(ws);
    AfterDrops(ws[1..]);
    next := After(ws[1..]);
    ReadInt32Of(pre, row[0], next, 0);
  }

  /** One cell read, then the others. */
  lemma ReadCellsStep(st: Stream, row: seq<int>, st': Stream)
    requires row != [] && st.good && DropSpaces(st.rest) != []
    requires ReadInt32(st, 0) == (row[0], st') && ReadCells(st', |row[1..]|) == Some(row[1..])
    ensures ReadCells(st, |row|) == Some(row)
  {
    ConsSplit(row);
    ReadCellsCons(st, |row|, row[0], st', row[1..]);
  }

  lemma ConsSplit(row: seq<int>)
    requires row != []
    ensures [row[0]] + row[1..] == row
  {
  }

  lemma ReadCellsCons(st: Stream, n: nat, v: int, st': Stream, vs: seq<int>)
    requires n == |vs| + 1 && st.good && DropSpaces(st.rest) != []
    requires ReadInt32(st, 0) == (v, st') && ReadCells(st', |vs|) == Some(vs)
    ensures ReadCells(st, n) == Some([v] + vs)
  {
  }

  /** The words of a row are words; those after the first are the words of the
      rest of the row. */
  lemma WordsShift(row: seq<int>)
    requires row != [] && AllInt32(row)
    ensures AllWords(Words(row)) && Words(row)[0] == IntToString(row[0])
    ensures Words(row)[1..] == Words(row[1..]) && AllInt32(row[1..])
  {
    assert AllInt32(row[1..]) by {
      forall i | 0 <= i < |row| - 1 ensures InInt32(row[1..][i]) {
        assert InInt32(row[i + 1]);
      }
    }
  }

  /** The numbers of a written row read back as that row. */
  lemma RowTextBack(row: seq<int>)
    requires AllInt32(row)
    ensures RowCells(Join(Words(row)), |row|) == Some(row)
  {
    assert AllWords(Words(row));
    JoinDrops(Words(row));
    CellsBack(Join(Words(row)), row);
  }

  /** A written row of a map with columns, starting at `at == y*w`, reads
      back as the row's values. */
  lemma RowBack(v: seq<int>, w: int, h: int, y: int, at: int)
    requires |v| == Cells(w, h) && 0 <= y < h && AllInt32(v) && w > 0 && at == y * w
    ensures 0 <= at && at + w <= |v|
    ensures RowCells(RowLine(v, w, h, y), w) == Some(v[at .. at + w])
  {
    RowLineAt(v, w, h, y, at);
    var row := v[at .. at + w];
    assert AllInt32(row);
    RowTextBack(row);
  }

  /** Row y of a map with columns is the words of the w cells from `y*w`. */
  lemma RowLineAt(v: seq<int>, w: int, h: int, y: int, at: int)
    requires |v| == Cells(w, h) && 0 <= y < h && w > 0 && at == y * w
    ensures 0 <= at && at + w <= |v|
    ensures RowLine(v, w, h, y) == Join(Words(v[at .. at + w]))
  {
    assert 0 <= at && at + w <= |v| by {
      RowFits(w, h, y);
      MulNonNeg(y, w);
    }
  }

  /** A row of a map without columns is an empty line, read as no cells. */
  lemma EmptyRowBack(v: seq<int>, h: int, y: int)
    requires |v| == Cells(0, h) && 0 <= y < h
    ensures RowCells(RowLine(v, 0, h, y), 0) == Some([])
  {
  }

  /** Values an 8-bit vector can hold. */
  predicate AllBytes(vs: seq<int>)
  {
    forall i :: 0 <= i < |vs| ==> 0 <= vs[i] < 256
  }

  /** One row of the row loop, for a map with columns. */
  lemma ReadGridStep(rest: seq<string>, w: int, h: int, y: int, u: seq<int>, bytes: bool, cells: seq<int>, at: int)
    requires 0 <= y < h && 0 < w && 0 <= at && at + w <= |u| && (bytes ==> Bytes(cells) == cells)
    requires RowCells(Head(rest), w) == Some(cells)
    ensures ReadGrid(rest, w, h, y, at, u, bytes) == ReadGrid(Tail(rest), w, h, y + 1, at + w, Splice(u, at, cells), bytes)
  {
  }

  /** Row y of the written vector, at `at == y*w`, reads back into u. */
  lemma GridRow(v: seq<int>, w: int, h: int, y: int, at: int, u: seq<int>, bytes: bool, r: seq<string>)
    requires w >= 0 && |v| == Cells(w, h) && |u| == |v| && 0 <= y < h && at == y * w
    requires AllInt32(v) && (bytes ==> AllBytes(v))
    requires 0 <= at && at + w <= |v|
    ensures ReadGrid(GridLines(v, w, h)[y..] + r, w, h, y, at, u, bytes)
         == ReadGrid(GridLines(v, w, h)[y + 1..] + r, w, h, y + 1, at + w, Splice(u, at, v[at .. at + w]), bytes)
  {
    var rest := GridLines(v, w, h)[y..] + r;
    LinesAt(v, w, h, y, r);
    if w == 0 {
      EmptyRowBack(v, h, y);
      GridRowEmpty(h, y, at, u, bytes, rest);
      SpliceNothing(u, at, v[at .. at + w]);
    } else {
      RowBack(v, w, h, y, at);
      GridRowCells(v, w, h, y, u, bytes, rest, at);
    }
  }

  lemma SpliceNothing(u: seq<int>, at: int, row: seq<int>)
    requires 0 <= at <= |u| && row == []
    ensures Splice(u, at, row) == u
  {
  }

  /** Copying v's row at `at` extends the prefix that u shares with v. */
  lemma PrefixGrows(v: seq<int>, u: seq<int>, at: int, w: int)
    requires 0 <= at && 0 <= w && at + w <= |v| == |u| && u[..at] == v[..at]
    ensures Splice(u, at, v[at .. at + w])[..at + w] == v[..at + w]
  {
    SplicePrefix(u, at, v[at .. at + w]);
    SliceSplit(v, at, at + w);
  }

  /** The line the row loop reads for row y, and the lines after it. */
  lemma LinesAt(v: seq<int>, w: int, h: int, y: int, r: seq<string>)
    requires |v| == Cells(w, h) && 0 <= y < h
    ensures Head(GridLines(v, w, h)[y..] + r) == RowLine(v, w, h, y)
    ensures Tail(GridLines(v, w, h)[y..] + r) == GridLines(v, w, h)[y + 1..] + r
  {
  }

  /** The step of `GridRow` for a map without columns: the line is skipped. */
  lemma GridRowEmpty(h: int, y: int, at: int, u: seq<int>, bytes: bool, rest: seq<string>)
    requires 0 <= y < h && 0 <= at && RowCells(Head(rest), 0) == Some([])
    ensures ReadGrid(rest, 0, h, y, at, u, bytes) == ReadGrid(Tail(rest), 0, h, y + 1, at, u, bytes)
  {
  }

  /** The step of `GridRow` for a map with columns, its row starting at `at`. */
  lemma GridRowCells(v: seq<int>, w: int, h: int, y: int, u: seq<int>, bytes: bool, rest: seq<string>, at: int)
    requires w > 0 && 0 <= y < h && |u| == |v| && 0 <= at && at + w <= |v|
    requires bytes ==> AllBytes(v)
    requires RowCells(Head(rest), w) == Some(v[at .. at + w])
    ensures ReadGrid(rest, w, h, y, at, u, bytes) == ReadGrid(Tail(rest), w, h, y + 1, at + w, Splice(u, at, v[at .. at + w]), bytes)
  {
    if bytes {
      BytesOfRow(v, at, at + w);
    }
    ReadGridStep(rest, w, h, y, u, bytes, v[at .. at + w], at);
  }

  lemma BytesOfRow(v: seq<int>, i: int, j: int)
    requires 0 <= i <= j <= |v| && AllBytes(v)
    ensures Bytes(v[i..j]) == v[i..j]
  {
  }

  lemma SplicePrefix(u: seq<int>, at: int, row: seq<int>)
    requires 0 <= at && at + |row| <= |u|
    ensures Splice(u, at, row)[..at + |row|] == u[..at] + row
  {
  }

  lemma SliceSplit(v: seq<int>, i: int, j: int)
    requires 0 <= i <= j <= |v|
    ensures v[..j] == v[..i] + v[i..j]
  {
  }

  /** The offset of the next row: row y + 1 starts w entries later, and it
      is still inside the vector, or at its end after the last row. */
  lemma RowStep(w: int, h: int, y: int, at: int)
    requires w >= 0 && 0 <= y < h && at == y * w
    ensures (y + 1) * w == at + w && at + w <= Cells(w, h)
  {
    if w > 0 {
      RowFits(w, h, y);
    }
  }

  /** Where row y starts in a vector of rows of w cells: `y*w`, counted up
      one row at a time so that the row loop's reasoning carries no product. */
  function RowStart(w: int, y: nat): (at: int)
    ensures at == y * w
  {
    if y == 0 then 0 else RowStart(w, y - 1) + w
  }

  /** The row loop reads back the rows written for v, from row y on, into a
      vector whose first `y*w` entries already hold v's. */
  lemma {:induction false} GridBack(v: seq<int>, w: int, h: int, y: nat, u: seq<int>, bytes: bool, r: seq<string>)
    requires w >= 0 && h >= 0 && |v| == Cells(w, h) && |u| == |v| && y <= h
    requires AllInt32(v) && (bytes ==> AllBytes(v))
    requires 0 <= RowStart(w, y) <= |v| && u[..RowStart(w, y)] == v[..RowStart(w, y)]
    ensures ReadGrid(GridLines(v, w, h)[y..] + r, w, h, y, RowStart(w, y), u, bytes) == Some((v, r))
    decreases h - y
  {
    if y == h {
      GridEnd(v, w, h, y, u, bytes, r);
    } else {
      var u' := GridNext(v, w, h, y, u, bytes, r);
      GridBack(v, w, h, y + 1, u', bytes, r);
    }
  }

  /** After the last row the vector read back is v and the lines left are r. */
  lemma GridEnd(v: seq<int>, w: int, h: int, y: nat, u: seq<int>, bytes: bool, r: seq<string>)
    requires w >= 0 && h >= 0 && |v| == Cells(w, h) && |u| == |v| && y == h
    requires 0 <= RowStart(w, y) <= |v| && u[..RowStart(w, y)] == v[..RowStart(w, y)]
    ensures ReadGrid(GridLines(v, w, h)[y..] + r, w, h, y, RowStart(w, y), u, bytes) == Some((v, r))
  {
    var at := RowStart(w, y);
    assert at == |v|;
    assert u == u[..at] && v == v[..at];
    assert GridLines(v, w, h)[y..] + r == r;
  }

  /** Row y reads back: the loop goes on at row y + 1 with a vector that
      shares one more row with v. */
  lemma GridNext(v: seq<int>, w: int, h: int, y: nat, u: seq<int>, bytes: bool, r: seq<string>)
    returns (u': seq<int>)
    requires w >= 0 && h >= 0 && |v| == Cells(w, h) && |u| == |v| && y < h
    requires AllInt32(v) && (bytes ==> AllBytes(v))
    requires 0 <= RowStart(w, y) <= |v| && u[..RowStart(w, y)] == v[..RowStart(w, y)]
    ensures |u'| == |v| && 0 <= RowStart(w, y + 1) <= |v| && u'[..RowStart(w, y + 1)] == v[..RowStart(w, y + 1)]
    ensures ReadGrid(GridLines(v, w, h)[y..] + r, w, h, y, RowStart(w, y), u, bytes)
         == ReadGrid(GridLines(v, w, h)[y + 1..] + r, w, h, y + 1, RowStart(w, y + 1), u', bytes)
  {
    var at := RowStart(w, y);
    RowStep(w, h, y, at);
    GridRow(v, w, h, y, at, u, bytes, r);
    PrefixGrows(v, u, at, w);
    u' := Splice(u, at, v[at .. at + w]);
  }

  // ------------------------------------------------------------- records

  /** The `ECO` line sets the four economy counters. */
  lemma EcoBack(rd: Reader, s: State, r: seq<string>, sizeMax: bool)
    requires InInt32(s.gold) && InInt32(s.wood) && InInt32(s.foodUsed) && InInt32(s.foodCap)
    ensures ReadRecord(rd, EcoLine(s), r, sizeMax)
      == Go(rd.(tag := "ECO", ns := rd.ns.(gold := s.gold, wood := s.wood, foodUsed := s.foodUsed, foodCap := s.foodCap)), r)
  {
    var st := EcoTokens(rd, s);
    EcoDispatch(rd, EcoLine(s), r, sizeMax, st);
  }

  lemma EcoTokens(rd: Reader, s: State) returns (st: Stream)
    requires InInt32(s.gold) && InInt32(s.wood) && InInt32(s.foodUsed) && InInt32(s.foodCap)
    ensures ReadWord(Open(EcoLine(s)), rd.tag) == ("ECO", st)
    ensures ReadFields(st, [IntField(rd.ns.gold), IntField(rd.ns.wood), IntField(rd.ns.foodUsed), IntField(rd.ns.foodCap)]).0
         == [Num(s.gold), Num(s.wood), Num(s.foodUsed), Num(s.foodCap)]
  {
    var vs := [s.gold, s.wood, s.foodUsed, s.foodCap];
    var ns := rd.ns;
    var fs := [IntField(ns.gold), IntField(ns.wood), IntField(ns.foodUsed), IntField(ns.foodCap)];
    IntsSpell(vs, fs);
    TaggedBack("ECO", Words(vs), fs, NumToks(vs), rd.tag);
    st := Stream(After(Words(vs)), true);
  }

  lemma EcoDispatch(rd: Reader, line: string, r: seq<string>, sizeMax: bool, st: Stream)
    requires ReadWord(Open(line), rd.tag) == ("ECO", st)
    ensures ReadRecord(rd, line, r, sizeMax) == ReadEco(rd.(tag := "ECO"), st, r)
  {
  }

  /** The `IDS` line sets both id counters. */
  lemma IdsBack(rd: Reader, s: State, r: seq<string>, sizeMax: bool)
    requires 0 <= s.nextUnitId <= UInt32Max && 0 <= s.nextBuildingId <= UInt32Max
    ensures ReadRecord(rd, IdsLine(s), r, sizeMax)
      == Go(rd.(tag := "IDS", ns := rd.ns.(nextUnitId := s.nextUnitId, nextBuildingId := s.nextBuildingId)), r)
  {
    var st := IdsTokens(rd, s);
    IdsDispatch(rd, IdsLine(s), r, sizeMax, st);
  }

  lemma IdsTokens(rd: Reader, s: State) returns (st: Stream)
    requires 0 <= s.nextUnitId <= UInt32Max && 0 <= s.nextBuildingId <= UInt32Max
    ensures ReadWord(Open(IdsLine(s)), rd.tag) == ("IDS", st)
    ensures ReadFields(st, [UIntField(rd.ns.nextUnitId), UIntField(rd.ns.nextBuildingId)]).0
         == [Num(s.nextUnitId), Num(s.nextBuildingId)]
  {
    var vs := [s.nextUnitId, s.nextBuildingId];
    var fs := [UIntField(rd.ns.nextUnitId), UIntField(rd.ns.nextBuildingId)];
    IntsSpell(vs, fs);
    TaggedBack("IDS", Words(vs), fs, NumToks(vs), rd.tag);
    st := Stream(After(Words(vs)), true);
  }

  lemma IdsDispatch(rd: Reader, line: string, r: seq<string>, sizeMax: bool, st: Stream)
    requires ReadWord(Open(line), rd.tag) == ("IDS", st)
    ensures ReadRecord(rd, line, r, sizeMax) == ReadIds(rd.(tag := "IDS"), st, r)
  {
  }

  /** The map an `MAP w h` record leaves: the size, and w*h zeros in every
      vector (in `res_max` only when `sizeMax`). */
  function ZeroMap(m: Map, w: int, h: int, sizeMax: bool): Map
    requires w * h >= 0
  {
    var z := Data.Zeros(w * h);
    m.(width := w, height := h, tiles := z, blocked := z, resKind := z, resAmount := z,
       resMax := if sizeMax then z else m.resMax)
  }

  /** The `MAP` line of a map whose cell count fits in an `int`. */
  lemma MapBack(rd: Reader, m: Map, r: seq<string>, sizeMax: bool)
    requires m.width >= 0 && m.height >= 0 && InInt32(m.width) && InInt32(m.height) && InInt32(m.width * m.height)
    ensures m.width * m.height >= 0
    ensures ReadRecord(rd, MapLine(m), r, sizeMax)
      == Go(Reader(rd.ns.(world := ZeroMap(rd.ns.world, m.width, m.height, sizeMax)), m.width, m.height, "MAP"), r)
  {
    MulNonNeg(m.width, m.height);
    var st := MapTokens(rd, m);
    MapDispatch(rd, MapLine(m), r, sizeMax, st);
    MapSizeRead(rd.(tag := "MAP"), st, r, sizeMax, m.width, m.height, m.width * m.height);
  }

  lemma MapTokens(rd: Reader, m: Map) returns (st: Stream)
    requires InInt32(m.width) && InInt32(m.height)
    ensures ReadWord(Open(MapLine(m)), rd.tag) == ("MAP", st)
    ensures ReadFields(st, [IntField(rd.width), IntField(rd.height)]).0 == [Num(m.width), Num(m.height)]
  {
    var vs := [m.width, m.height];
    var fs := [IntField(rd.width), IntField(rd.height)];
    IntsSpell(vs, fs);
    TaggedBack("MAP", Words(vs), fs, NumToks(vs), rd.tag);
    st := Stream(After(Words(vs)), true);
  }

  lemma MapDispatch(rd: Reader, line: string, r: seq<string>, sizeMax: bool, st: Stream)
    requires ReadWord(Open(line), rd.tag) == ("MAP", st)
    ensures ReadRecord(rd, line, r, sizeMax) == ReadMapSize(rd.(tag := "MAP"), st, r, sizeMax)
  {
  }

  lemma MapSizeRead(rd: Reader, st: Stream, r: seq<string>, sizeMax: bool, w: int, h: int, n: int)
    requires ReadFields(st, [IntField(rd.width), IntField(rd.height)]).0 == [Num(w), Num(h)]
    requires n == w * h && 0 <= n && InInt32(n)
    ensures ReadMapSize(rd, st, r, sizeMax) == Go(Reader(rd.ns.(world := ZeroMap(rd.ns.world, w, h, sizeMax)), w, h, rd.tag), r)
  {
  }

  /** The first line of a save file is a header `load_game` accepts. */
  lemma HeaderBack(s: State)
    requires Writable(s)
    ensures HeaderOk(SaveLines(s))
  {
    var ws := ["1"];
    assert IntToString(1) == "1";
    IntsSpell([1], [IntField(0)]);
    assert Words([1]) == ws;
    assert Join(["VERSION"] + ws) == "VERSION 1";
    TaggedBack("VERSION", ws, [IntField(0)], [Num(1)], "");
    var st := Stream(After(ws), true);
    assert ReadFields(st, [IntField(0)]).0 == [Num(1)];
  }

  // -------------------------------------------------------------- vectors

  /** A vector record: its tag line, then its rows, read into the vector the
      `MAP` record sized. */
  lemma LayerBack(rd: Reader, l: Layer, v: seq<int>, r: seq<string>, sizeMax: bool)
    requires rd.width >= 0 && rd.height >= 0 && |v| == Cells(rd.width, rd.height)
    requires |LayerOf(rd.ns.world, l)| == |v| && AllInt32(v) && (ByteLayer(l) ==> AllBytes(v))
    ensures ReadRecord(rd, LayerTag(l), GridLines(v, rd.width, rd.height) + r, sizeMax)
      == Go(rd.(tag := LayerTag(l), ns := rd.ns.(world := WithLayer(rd.ns.world, l, v))), r)
  {
    var st := LayerTokens(l, rd.tag);
    LayerDispatch(rd, l, GridLines(v, rd.width, rd.height) + r, sizeMax, st);
    LayerRead(rd.(tag := LayerTag(l)), l, v, r);
  }

  lemma LayerTokens(l: Layer, prev: string) returns (st: Stream)
    ensures ReadWord(Open(LayerTag(l)), prev) == (LayerTag(l), st)
  {
    TagBack(LayerTag(l), [], prev);
    assert Join([LayerTag(l)] + []) == LayerTag(l);
    st := Stream(After([]), true);
  }

  lemma LayerDispatch(rd: Reader, l: Layer, rest: seq<string>, sizeMax: bool, st: Stream)
    requires ReadWord(Open(LayerTag(l)), rd.tag) == (LayerTag(l), st)
    ensures ReadRecord(rd, LayerTag(l), rest, sizeMax) == ReadLayer(rd.(tag := LayerTag(l)), l, rest)
  {
    assert TagLayer(LayerTag(l)) == Some(l);
  }

  lemma LayerRead(rd: Reader, l: Layer, v: seq<int>, r: seq<string>)
    requires rd.width >= 0 && rd.height >= 0 && |v| == Cells(rd.width, rd.height)
    requires |LayerOf(rd.ns.world, l)| == |v| && AllInt32(v) && (ByteLayer(l) ==> AllBytes(v))
    ensures ReadLayer(rd, l, GridLines(v, rd.width, rd.height) + r)
      == Go(rd.(ns := rd.ns.(world := WithLayer(rd.ns.world, l, v))), r)
  {
    var lines := GridLines(v, rd.width, rd.height);
    assert lines[0..] == lines;
    GridBack(v, rd.width, rd.height, 0, LayerOf(rd.ns.world, l), ByteLayer(l), r);
  }

  // ---------------------------------------------------------------- lists

  /** The first element of a non-empty sequence, then the others. */
  lemma ConsParts<T>(x: T, rest: seq<T>)
    ensures ([x] + rest)[0] == x && ([x] + rest)[1..] == rest
  {
  }

  /** A line of a tag and numbers reads back as the tag and the numbers. */
  lemma TaggedLineBack(tag: string, vs: seq<int>, fs: seq<Field>)
    requires IsWord(tag) && NumFits(vs, fs)
    ensures ReadFields(Open(Join([tag] + Words(vs))), [WordField("")] + fs).0 == [Word(tag)] + NumToks(vs)
  {
    IntsSpell(vs, fs);
    assert Spells([tag][0], [WordField("")][0], [Word(tag)][0]);
    SpellsCat([tag], [WordField("")], [Word(tag)], Words(vs), fs, NumToks(vs));
    LineBack([tag] + Words(vs), [WordField("")] + fs, [Word(tag)] + NumToks(vs));
  }

  /** Coordinates the `D` lines can carry. */
  predicate DropoffsFit(ds: seq<Vec2i>)
  {
    forall k :: 0 <= k < |ds| ==> InInt32(ds[k].x) && InInt32(ds[k].y)
  }

  const DropoffFields: seq<Field> := [WordField(""), IntField(0), IntField(0)]

  lemma DropoffLineBack(d: Vec2i)
    requires InInt32(d.x) && InInt32(d.y)
    ensures ReadFields(Open(DropoffLine(d)), DropoffFields).0 == [Word("D"), Num(d.x), Num(d.y)]
  {
    TaggedLineBack("D", [d.x, d.y], [IntField(0), IntField(0)]);
    assert [WordField("")] + [IntField(0), IntField(0)] == DropoffFields;
    assert [Word("D")] + NumToks([d.x, d.y]) == [Word("D"), Num(d.x), Num(d.y)];
  }

  /** The `D` lines of the drop-offs, then r: the first is that of the first
      drop-off, after it come those of the others. */
  lemma DropoffLinesAt(ds: seq<Vec2i>, r: seq<string>)
    requires ds != []
    ensures Head(DropoffLines(ds) + r) == DropoffLine(ds[0])
    ensures Tail(DropoffLines(ds) + r) == DropoffLines(ds[1..]) + r
  {
    assert DropoffLines(ds) == [DropoffLine(ds[0])] + DropoffLines(ds[1..]);
  }

  lemma ReadDropoffsStep(rest: seq<string>, ds: seq<Vec2i>, acc: seq<Vec2i>)
    requires ds != [] && ReadFields(Open(Head(rest)), DropoffFields).0 == [Word("D"), Num(ds[0].x), Num(ds[0].y)]
    ensures ReadDropoffs(rest, |ds|, acc) == ReadDropoffs(Tail(rest), |ds[1..]|, acc + [ds[0]])
  {
  }

  lemma SnocCons<T>(acc: seq<T>, ds: seq<T>)
    requires ds != []
    ensures (acc + [ds[0]]) + ds[1..] == acc + ds
  {
    assert ds == [ds[0]] + ds[1..];
  }

  /** The `DROPOFFS` loop reads the `D` lines back, appending in order. */
  lemma {:induction false} DropoffsBack(ds: seq<Vec2i>, acc: seq<Vec2i>, r: seq<string>)
    requires DropoffsFit(ds)
    ensures ReadDropoffs(DropoffLines(ds) + r, |ds|, acc) == (acc + ds, r)
    decreases |ds|
  {
    if ds == [] {
      assert DropoffLines(ds) + r == r;
      assert acc + ds == acc;
    } else {
      DropoffLineBack(ds[0]);
      DropoffLinesAt(ds, r);
      ReadDropoffsStep(DropoffLines(ds) + r, ds, acc);
      assert DropoffsFit(ds[1..]) by {
        forall k | 0 <= k < |ds| - 1 ensures InInt32(ds[1..][k].x) && InInt32(ds[1..][k].y) {
          assert ds[1..][k] == ds[k + 1];
        }
      }
      DropoffsBack(ds[1..], acc + [ds[0]], r);
      SnocCons(acc, ds);
    }
  }

  /** A unit type the save names by an id that reads back as one word and
      that the index maps back to it. */
  predicate TypeNamed(types: seq<UnitType>, index: map<string, int>, ut: int)
  {
    0 <= ut < |types| && IsWord(types[ut].id) && types[ut].id in index && index[types[ut].id] == ut
  }

  /** A queue the `QI` lines can carry. */
  predicate QueueFits(types: seq<UnitType>, index: map<string, int>, q: seq<TrainItem>)
  {
    forall k :: 0 <= k < |q| ==> TypeNamed(types, index, q[k].unitType) && InInt32(q[k].remainingMs)
  }

  const ItemFields: seq<Field> := [WordField(""), WordField(""), IntField(0)]

  lemma ItemLineBack(types: seq<UnitType>, it: TrainItem)
    requires 0 <= it.unitType < |types| && IsWord(types[it.unitType].id) && InInt32(it.remainingMs)
    ensures ReadFields(Open(ItemLine(types, it)), ItemFields).0
         == [Word("QI"), Word(types[it.unitType].id), Num(it.remainingMs)]
  {
    var id := types[it.unitType].id;
    ItemSpell(id, it.remainingMs);
    LineBack(["QI", id] + Words([it.remainingMs]), ItemFields, [Word("QI"), Word(id), Num(it.remainingMs)]);
  }

  lemma ItemSpell(id: string, ms: int)
    requires IsWord(id) && InInt32(ms)
    ensures AllSpell(["QI", id] + Words([ms]), ItemFields, [Word("QI"), Word(id), Num(ms)])
  {
    var ws := ["QI", id] + Words([ms]);
    assert ws[2] == IntToString(ms);
  }

  lemma ItemLinesAt(types: seq<UnitType>, q: seq<TrainItem>, r: seq<string>)
    requires q != [] && forall k :: 0 <= k < |q| ==> 0 <= q[k].unitType < |types|
    ensures Head(ItemLines(types, q) + r) == ItemLine(types, q[0])
    ensures Tail(ItemLines(types, q) + r) == ItemLines(types, q[1..]) + r
  {
    ItemLinesCons(types, q);
    HeadTailCons(ItemLine(types, q[0]), ItemLines(types, q[1..]), r);
  }

  lemma ItemLinesCons(types: seq<UnitType>, q: seq<TrainItem>)
    requires q != [] && forall k :: 0 <= k < |q| ==> 0 <= q[k].unitType < |types|
    ensures ItemLines(types, q) == [ItemLine(types, q[0])] + ItemLines(types, q[1..])
  {
  }

  /** The head and the tail of a line list with a known first line. */
  lemma HeadTailCons(x: string, ys: seq<string>, r: seq<string>)
    ensures Head([x] + ys + r) == x && Tail([x] + ys + r) == ys + r
  {
    assert ([x] + ys + r)[1..] == ys + r;
  }

  lemma ReadQueueStep(rest: seq<string>, index: map<string, int>, q: seq<TrainItem>, acc: seq<TrainItem>, id: string)
    requires q != [] && id in index && index[id] == q[0].unitType
    requires ReadFields(Open(Head(rest)), ItemFields).0 == [Word("QI"), Word(id), Num(q[0].remainingMs)]
    ensures ReadQueue(rest, |q|, index, acc) == ReadQueue(Tail(rest), |q[1..]|, index, acc + [q[0]])
  {
    var ts := ReadFields(Open(Head(rest)), ItemFields).0;
    assert ts[1].Str() == id && ts[2].Int() == q[0].remainingMs;
    assert TrainItem(index[id], q[0].remainingMs) == q[0];
  }

  /** The queue loop reads the `QI` lines back, in order. */
  lemma {:induction false} QueueBack(types: seq<UnitType>, index: map<string, int>, q: seq<TrainItem>,
                                     acc: seq<TrainItem>, r: seq<string>)
    requires QueueFits(types, index, q)
    ensures ReadQueue(ItemLines(types, q) + r, |q|, index, acc) == (acc + q, r)
    decreases |q|
  {
    if q == [] {
      assert ItemLines(types, q) + r == r;
      assert acc + q == acc;
    } else {
      ItemLineBack(types, q[0]);
      ItemLinesAt(types, q, r);
      ReadQueueStep(ItemLines(types, q) + r, index, q, acc, types[q[0].unitType].id);
      assert QueueFits(types, index, q[1..]) by {
        forall k | 0 <= k < |q| - 1
          ensures TypeNamed(types, index, q[1..][k].unitType) && InInt32(q[1..][k].remainingMs)
        {
          assert q[1..][k] == q[k + 1];
        }
      }
      QueueBack(types, index, q[1..], acc + [q[0]], r);
      SnocCons(acc, q);
    }
  }

  /** What a building keeps through a save and a load: everything but the
      selection flag. */
  function SavedBuilding(b: Building): Building
  {
    b.(selected := false)
  }

  function SavedBuildings(bs: seq<Building>): (r: seq<Building>)
    ensures |r| == |bs| && forall k :: 0 <= k < |bs| ==> r[k] == SavedBuilding(bs[k])
  {
    seq(|bs|, k requires 0 <= k < |bs| => SavedBuilding(bs[k]))
  }

  /** A building its block can carry: a `uint32_t` id, kind and state codes
      that survive the `uint8_t` casts, 32-bit numbers, and a queue the `QI`
      lines can carry. */
  predicate BuildingFits(types: seq<UnitType>, index: map<string, int>, b: Building)
  {
    && 0 <= b.id <= UInt32Max && KindOk(b.kind) && StateOk(b.state)
    && InInt32(b.tile.x) && InInt32(b.tile.y) && InInt32(b.w) && InInt32(b.h)
    && InInt32(b.buildProgressMs) && InInt32(b.buildTotalMs) && InInt32(b.costGold) && InInt32(b.costWood)
    && InInt32(b.rally.x) && InInt32(b.rally.y)
    && InInt32(|b.queue|) && QueueFits(types, index, b.queue)
  }

  lemma BuildingValuesFit(b: Building)
    requires 0 <= b.id <= UInt32Max && KindOk(b.kind) && StateOk(b.state)
    requires InInt32(b.tile.x) && InInt32(b.tile.y) && InInt32(b.w) && InInt32(b.h)
    requires InInt32(b.buildProgressMs) && InInt32(b.buildTotalMs) && InInt32(b.costGold) && InInt32(b.costWood)
    requires InInt32(b.rally.x) && InInt32(b.rally.y)
    ensures NumFits(BuildingValues(b), BuildingFields[1..])
  {
    assert 0 <= KindCode(b.kind) < 256 && 0 <= StateCode(b.state) < 256;
    BuildingNumbersFit(BuildingValues(b));
  }

  /** Thirteen numbers fit the targets of a `B` line when the first is a
      `uint32_t` value and the others are 32-bit. */
  lemma BuildingNumbersFit(vs: seq<int>)
    requires |vs| == 13 && 0 <= vs[0] <= UInt32Max && forall i :: 1 <= i < 13 ==> InInt32(vs[i])
    ensures NumFits(vs, BuildingFields[1..])
  {
    var fs := BuildingFields[1..];
    assert fs[0].UIntField? && forall i :: 1 <= i < 13 ==> fs[i].IntField? || fs[i].FreshField?;
  }

  lemma BuildingFieldsSplit()
    ensures [WordField("")] + BuildingFields[1..] == BuildingFields
  {
  }

  /** A `B` line reads back as its tag and numbers. */
  lemma BuildingLineBack(types: seq<UnitType>, index: map<string, int>, b: Building)
    requires BuildingFits(types, index, b)
    ensures ReadFields(Open(BuildingLine(b)), BuildingFields).0 == [Word("B")] + NumToks(BuildingValues(b))
  {
    BuildingValuesFit(b);
    BuildingFieldsSplit();
    TaggedLineBack("B", BuildingValues(b), BuildingFields[1..]);
  }

  /** The building decoded from those tokens is the one written, without its
      queue and its selection flag; kind and state were read. */
  lemma BuildingOfBack(b: Building)
    requires KindOk(b.kind) && StateOk(b.state)
    ensures var ts := [Word("B")] + NumToks(BuildingValues(b));
      |ts| == |BuildingFields| && !ts[2].Junk? && !ts[7].Junk? && BuildingOf(ts) == b.(queue := [], selected := false)
  {
    var ts := [Word("B")] + NumToks(BuildingValues(b));
    assert ts[2] == Num(KindCode(b.kind)) && ts[7] == Num(StateCode(b.state));
    CodesRoundTrip(Idle, b.kind, b.state);
  }

  lemma QueueLineBack(b: Building)
    requires InInt32(|b.queue|)
    ensures ReadFields(Open(QueueLine(b)), [WordField(""), IntField(0)]).0 == [Word("BQ"), Num(|b.queue|)]
  {
    CountLineBack("BQ", |b.queue|);
  }

  /** A count line read whole gives its tag and count. */
  lemma CountLineBack(tag: string, n: int)
    requires IsWord(tag) && InInt32(n)
    ensures ReadFields(Open(CountLine(tag, n)), [WordField(""), IntField(0)]).0 == [Word(tag), Num(n)]
  {
    TaggedLineBack(tag, [n], [IntField(0)]);
    assert [WordField("")] + [IntField(0)] == [WordField(""), IntField(0)];
    assert [Word(tag)] + NumToks([n]) == [Word(tag), Num(n)];
  }

  /** A count line read as a record: its tag, then its count. */
  lemma CountTokens(tag: string, n: int, prev: string) returns (st: Stream)
    requires IsWord(tag) && InInt32(n)
    ensures ReadWord(Open(CountLine(tag, n)), prev) == (tag, st)
    ensures ReadFields(st, [IntField(0)]).0 == [Num(n)]
  {
    IntsSpell([n], [IntField(0)]);
    TaggedBack(tag, Words([n]), [IntField(0)], NumToks([n]), prev);
    assert NumToks([n]) == [Num(n)];
    st := Stream(After(Words([n])), true);
  }

  /** The lines of the blocks of bs, then r: the block of the first building,
      then those of the others. */
  lemma BlocksAt(types: seq<UnitType>, bs: seq<Building>, r: seq<string>)
    requires bs != [] && forall k, q :: 0 <= k < |bs| && 0 <= q < |bs[k].queue| ==> 0 <= bs[k].queue[q].unitType < |types|
    ensures Flatten(BuildingBlocks(types, bs)) + r
         == BuildingBlock(types, bs[0]) + (Flatten(BuildingBlocks(types, bs[1..])) + r)
  {
    assert BuildingBlocks(types, bs)[1..] == BuildingBlocks(types, bs[1..]);
  }

  /** The lines of one block, then r: the `B` line, the `BQ` line, the items. */
  lemma BlockAt(types: seq<UnitType>, b: Building, r: seq<string>)
    requires forall q :: 0 <= q < |b.queue| ==> 0 <= b.queue[q].unitType < |types|
    ensures Head(BuildingBlock(types, b) + r) == BuildingLine(b)
    ensures Head(Tail(BuildingBlock(types, b) + r)) == QueueLine(b)
    ensures Tail(Tail(BuildingBlock(types, b) + r)) == ItemLines(types, b.queue) + r
  {
    var ls := BuildingBlock(types, b) + r;
    assert ls[1..][1..] == ItemLines(types, b.queue) + r;
  }

  lemma ReadBuildingsStep(rest: seq<string>, index: map<string, int>, bs: seq<Building>, acc: seq<Building>,
                          ts: seq<Tok>, r: seq<string>)
    requires bs != [] && |ts| == |BuildingFields|
    requires ReadFields(Open(Head(rest)), BuildingFields).0 == ts && !ts[2].Junk? && !ts[7].Junk?
    requires ReadFields(Open(Head(Tail(rest))), [WordField(""), IntField(0)]).0 == [Word("BQ"), Num(|bs[0].queue|)]
    requires ReadQueue(Tail(Tail(rest)), |bs[0].queue|, index, []) == (bs[0].queue, r)
    requires BuildingOf(ts) == bs[0].(queue := [], selected := false)
    ensures ReadBuildings(rest, |bs|, index, acc) == ReadBuildings(r, |bs[1..]|, index, acc + [SavedBuilding(bs[0])])
  {
  }

  /** The queue loop started on an empty queue gives the queue written. */
  lemma QueueBackFresh(types: seq<UnitType>, index: map<string, int>, q: seq<TrainItem>, r: seq<string>)
    requires QueueFits(types, index, q)
    ensures ReadQueue(ItemLines(types, q) + r, |q|, index, []) == (q, r)
  {
    QueueBack(types, index, q, [], r);
    assert [] + q == q;
  }

  /** One block reads back as the building it was written for. */
  lemma BlockRead(types: seq<UnitType>, index: map<string, int>, bs: seq<Building>, acc: seq<Building>, r: seq<string>)
    requires bs != [] && BuildingFits(types, index, bs[0])
    ensures ReadBuildings(BuildingBlock(types, bs[0]) + r, |bs|, index, acc)
         == ReadBuildings(r, |bs[1..]|, index, acc + [SavedBuilding(bs[0])])
  {
    var b := bs[0];
    var lines := BuildingBlock(types, b) + r;
    BlockAt(types, b, r);
    BuildingLineBack(types, index, b);
    BuildingOfBack(b);
    QueueLineBack(b);
    QueueBackFresh(types, index, b.queue, r);
    ReadBuildingsStep(lines, index, bs, acc, [Word("B")] + NumToks(BuildingValues(b)), r);
  }

  predicate BuildingsFit(types: seq<UnitType>, index: map<string, int>, bs: seq<Building>)
  {
    forall k :: 0 <= k < |bs| ==> BuildingFits(types, index, bs[k])
  }

  lemma SavedBuildingsSnoc(acc: seq<Building>, bs: seq<Building>)
    requires bs != []
    ensures (acc + [SavedBuilding(bs[0])]) + SavedBuildings(bs[1..]) == acc + SavedBuildings(bs)
  {
    SavedBuildingsCons(bs);
    SnocAssoc(acc, SavedBuilding(bs[0]), SavedBuildings(bs[1..]));
  }

  lemma SavedBuildingsCons(bs: seq<Building>)
    requires bs != []
    ensures SavedBuildings(bs) == [SavedBuilding(bs[0])] + SavedBuildings(bs[1..])
  {
  }

  lemma BuildingsFitTail(types: seq<UnitType>, index: map<string, int>, bs: seq<Building>)
    requires bs != [] && BuildingsFit(types, index, bs)
    ensures BuildingFits(types, index, bs[0]) && BuildingsFit(types, index, bs[1..])
  {
    forall k | 0 <= k < |bs| - 1 ensures BuildingFits(types, index, bs[1..][k]) {
      assert bs[1..][k] == bs[k + 1];
    }
  }

  /** The `BUILDINGS` loop reads the blocks back: the buildings in order, each
      with its queue and without its selection flag. */
  lemma {:induction false} BuildingsBack(types: seq<UnitType>, index: map<string, int>, bs: seq<Building>,
                                         acc: seq<Building>, r: seq<string>)
    requires BuildingsFit(types, index, bs)
    ensures ReadBuildings(Flatten(BuildingBlocks(types, bs)) + r, |bs|, index, acc) == Some((acc + SavedBuildings(bs), r))
    decreases |bs|
  {
    if bs == [] {
      assert Flatten(BuildingBlocks(types, bs)) + r == r;
      assert acc + SavedBuildings(bs) == acc;
    } else {
      BuildingsFitTail(types, index, bs);
      BlocksAt(types, bs, r);
      BlockRead(types, index, bs, acc, Flatten(BuildingBlocks(types, bs[1..])) + r);
      BuildingsBack(types, index, bs[1..], acc + [SavedBuilding(bs[0])], r);
      SavedBuildingsSnoc(acc, bs);
    }
  }

  /** What a unit keeps through a save and a load: everything but its path,
      its attack cooldown and its selection flag. */
  function SavedUnit(u: Unit): Unit
  {
    u.(path := [], cooldown := 0, selected := false)
  }

  function SavedUnits(us: seq<Unit>): (r: seq<Unit>)
    ensures |r| == |us| && forall k :: 0 <= k < |us| ==> r[k] == SavedUnit(us[k])
  {
    seq(|us|, k requires 0 <= k < |us| => SavedUnit(us[k]))
  }

  /** A unit its `U` line can carry: a `uint32_t` id, a type named by its id,
      32-bit numbers, a job code that survives the `uint8_t` cast, a carried
      kind that is one, and a `uint32_t` building target. */
  predicate UnitFits(types: seq<UnitType>, index: map<string, int>, u: Unit)
  {
    && 0 <= u.id <= UInt32Max && TypeNamed(types, index, u.typeIndex)
    && InInt32(u.tile.x) && InInt32(u.tile.y) && InInt32(u.goal.x) && InInt32(u.goal.y)
    && InInt32(u.hp) && InInt32(u.carried) && JobOk(u.job)
    && 0 <= u.carriedKind < 256 && 0 <= u.buildingTarget < IdRange
  }

  /** The tokens a `U` line reads back as. */
  function UnitToks(u: Unit, id: string): seq<Tok>
  {
    [Word("U"), Num(u.id), Word(id), Num(u.tile.x), Num(u.tile.y), Num(u.goal.x), Num(u.goal.y), Num(u.hp),
     Num(JobCode(u.job)), Num(u.carried), Num(u.carriedKind), Num(u.buildingTarget)]
  }

  lemma UnitSpell(types: seq<UnitType>, index: map<string, int>, u: Unit)
    requires UnitFits(types, index, u)
    ensures AllSpell(["U"] + Words([u.id]) + [types[u.typeIndex].id] + Words(UnitValues(u)), UnitFields,
                     UnitToks(u, types[u.typeIndex].id))
  {
    var id := types[u.typeIndex].id;
    UnitValuesFit(u);
    UnitWordsSpell(u.id, id, UnitValues(u), u.buildingTarget);
    UnitToksSplit(u, id);
  }

  lemma UnitValuesFit(u: Unit)
    requires InInt32(u.tile.x) && InInt32(u.tile.y) && InInt32(u.goal.x) && InInt32(u.goal.y)
    requires InInt32(u.hp) && InInt32(u.carried) && JobOk(u.job)
    requires 0 <= u.carriedKind < 256 && 0 <= u.buildingTarget < IdRange
    ensures |UnitValues(u)| == 9 && forall i :: 0 <= i < 8 ==> InInt32(UnitValues(u)[i])
    ensures UnitValues(u)[8] == if u.buildingTarget <= Int32Max then u.buildingTarget else u.buildingTarget - UInt32Max - 1
  {
    assert 0 <= JobCode(u.job) < 256;
  }

  lemma UnitToksSplit(u: Unit, id: string)
    requires 0 <= u.buildingTarget < IdRange
    ensures UnitToks(u, id) == [Word("U"), Num(u.id), Word(id)] + NumToks(UnitValues(u)[..8]) + [Num(u.buildingTarget)]
  {
  }

  /** The words of a `U` line spell the tokens its targets read: the id and
      the building target as `uint32_t`, the other values as `int`. */
  lemma UnitWordsSpell(uid: int, id: string, vs: seq<int>, target: int)
    requires 0 <= uid <= UInt32Max && IsWord(id) && |vs| == 9
    requires forall i :: 0 <= i < 8 ==> InInt32(vs[i])
    requires 0 <= target <= UInt32Max && vs[8] == (if target <= Int32Max then target else target - UInt32Max - 1)
    ensures AllSpell(["U"] + Words([uid]) + [id] + Words(vs), UnitFields,
                     [Word("U"), Num(uid), Word(id)] + NumToks(vs[..8]) + [Num(target)])
  {
    var ws := ["U"] + Words([uid]) + [id] + Words(vs);
    var ts := [Word("U"), Num(uid), Word(id)] + NumToks(vs[..8]) + [Num(target)];
    forall i | 0 <= i < |ws| ensures Spells(ws[i], UnitFields[i], ts[i]) {
      if i == 1 {
        assert ws[1] == IntToString(uid);
      } else if i >= 3 {
        assert ws[i] == IntToString(vs[i - 3]);
      }
    }
  }

  lemma UnitLineBack(types: seq<UnitType>, index: map<string, int>, u: Unit)
    requires UnitFits(types, index, u)
    ensures ReadFields(Open(UnitLine(types, u)), UnitFields).0 == UnitToks(u, types[u.typeIndex].id)
  {
    var id := types[u.typeIndex].id;
    UnitSpell(types, index, u);
    LineBack(["U"] + Words([u.id]) + [id] + Words(UnitValues(u)), UnitFields, UnitToks(u, id));
  }

  /** The unit decoded from those tokens is the one written, less what is not
      saved; its job and carried kind were read. */
  lemma UnitOfBack(u: Unit, id: string)
    requires JobOk(u.job) && 0 <= u.carriedKind < 256
    ensures var ts := UnitToks(u, id);
      !ts[8].Junk? && !ts[10].Junk? && UnitOf(ts, u.typeIndex) == SavedUnit(u)
  {
    CodesRoundTrip(u.job, Dropoff, Planned);
  }

  lemma UnitLinesAt(types: seq<UnitType>, us: seq<Unit>, r: seq<string>)
    requires us != [] && forall k :: 0 <= k < |us| ==> 0 <= us[k].typeIndex < |types| && 0 <= us[k].buildingTarget < IdRange
    ensures Head(UnitLines(types, us) + r) == UnitLine(types, us[0])
    ensures Tail(UnitLines(types, us) + r) == UnitLines(types, us[1..]) + r
  {
    UnitLinesCons(types, us);
    HeadTailCons(UnitLine(types, us[0]), UnitLines(types, us[1..]), r);
  }

  lemma UnitLinesCons(types: seq<UnitType>, us: seq<Unit>)
    requires us != [] && forall k :: 0 <= k < |us| ==> 0 <= us[k].typeIndex < |types| && 0 <= us[k].buildingTarget < IdRange
    ensures UnitLines(types, us) == [UnitLine(types, us[0])] + UnitLines(types, us[1..])
  {
  }

  lemma ReadUnitsStep(rest: seq<string>, index: map<string, int>, us: seq<Unit>, acc: seq<Unit>, id: string)
    requires us != [] && id in index && index[id] == us[0].typeIndex
    requires ReadFields(Open(Head(rest)), UnitFields).0 == UnitToks(us[0], id)
    requires !UnitToks(us[0], id)[8].Junk? && !UnitToks(us[0], id)[10].Junk?
    requires UnitOf(UnitToks(us[0], id), us[0].typeIndex) == SavedUnit(us[0])
    ensures ReadUnits(rest, |us|, index, acc) == ReadUnits(Tail(rest), |us[1..]|, index, acc + [SavedUnit(us[0])])
  {
  }

  predicate UnitsFit(types: seq<UnitType>, index: map<string, int>, us: seq<Unit>)
  {
    forall k :: 0 <= k < |us| ==> UnitFits(types, index, us[k])
  }

  lemma UnitsFitTail(types: seq<UnitType>, index: map<string, int>, us: seq<Unit>)
    requires us != [] && UnitsFit(types, index, us)
    ensures UnitFits(types, index, us[0]) && UnitsFit(types, index, us[1..])
  {
    forall k | 0 <= k < |us| - 1 ensures UnitFits(types, index, us[1..][k]) {
      assert us[1..][k] == us[k + 1];
    }
  }

  lemma SavedUnitsSnoc(acc: seq<Unit>, us: seq<Unit>)
    requires us != []
    ensures (acc + [SavedUnit(us[0])]) + SavedUnits(us[1..]) == acc + SavedUnits(us)
  {
    SavedUnitsCons(us);
    SnocAssoc(acc, SavedUnit(us[0]), SavedUnits(us[1..]));
  }

  lemma SavedUnitsCons(us: seq<Unit>)
    requires us != []
    ensures SavedUnits(us) == [SavedUnit(us[0])] + SavedUnits(us[1..])
  {
  }

  lemma SnocAssoc<T>(acc: seq<T>, x: T, rest: seq<T>)
    ensures (acc + [x]) + rest == acc + ([x] + rest)
  {
  }

  /** One `U` line reads back as the unit it was written for. */
  lemma UnitRead(types: seq<UnitType>, index: map<string, int>, us: seq<Unit>, acc: seq<Unit>, r: seq<string>)
    requires us != [] && UnitsFit(types, index, us)
    ensures ReadUnits(UnitLines(types, us) + r, |us|, index, acc)
         == ReadUnits(UnitLines(types, us[1..]) + r, |us[1..]|, index, acc + [SavedUnit(us[0])])
  {
    UnitsFitTail(types, index, us);
    var u := us[0];
    UnitLinesAt(types, us, r);
    UnitLineBack(types, index, u);
    UnitOfBack(u, types[u.typeIndex].id);
    ReadUnitsStep(UnitLines(types, us) + r, index, us, acc, types[u.typeIndex].id);
  }

  lemma UnitsEnd(types: seq<UnitType>, index: map<string, int>, us: seq<Unit>, acc: seq<Unit>, r: seq<string>)
    requires us == []
    ensures ReadUnits(UnitLines(types, us) + r, |us|, index, acc) == Some((acc + SavedUnits(us), r))
  {
    assert UnitLines(types, us) + r == r;
    assert acc + SavedUnits(us) == acc;
  }

  /** The `UNITS` loop reads the `U` lines back: the units in order, less
      what is not saved. */
  lemma {:induction false} UnitsBack(types: seq<UnitType>, index: map<string, int>, us: seq<Unit>,
                                     acc: seq<Unit>, r: seq<string>)
    requires UnitsFit(types, index, us)
    ensures ReadUnits(UnitLines(types, us) + r, |us|, index, acc) == Some((acc + SavedUnits(us), r))
    decreases |us|
  {
    if us == [] {
      UnitsEnd(types, index, us, acc, r);
    } else {
      UnitRead(types, index, us, acc, r);
      UnitsFitTail(types, index, us);
      UnitsBack(types, index, us[1..], acc + [SavedUnit(us[0])], r);
      SavedUnitsSnoc(acc, us);
    }
  }

  // ------------------------------------------------------- list records

  /** The list tags are none of the tags before them. */
  lemma ListTags()
    ensures TagLayer("DROPOFFS").None? && TagLayer("BUILDINGS").None? && TagLayer("UNITS").None?
    ensures "DROPOFFS" !in ["ECO", "IDS", "MAP"] && "BUILDINGS" !in ["ECO", "IDS", "MAP", "DROPOFFS"]
    ensures "UNITS" !in ["ECO", "IDS", "MAP", "DROPOFFS", "BUILDINGS"]
  {
  }

  lemma DropoffsDispatch(rd: Reader, line: string, rest: seq<string>, sizeMax: bool, st: Stream)
    requires ReadWord(Open(line), rd.tag) == ("DROPOFFS", st)
    ensures ReadRecord(rd, line, rest, sizeMax) == ReadDropoffList(rd.(tag := "DROPOFFS"), st, rest)
  {
    ListTags();
  }

  lemma BuildingsDispatch(rd: Reader, line: string, rest: seq<string>, sizeMax: bool, st: Stream)
    requires ReadWord(Open(line), rd.tag) == ("BUILDINGS", st)
    ensures ReadRecord(rd, line, rest, sizeMax) == ReadBuildingList(rd.(tag := "BUILDINGS"), st, rest)
  {
    ListTags();
  }

  lemma UnitsDispatch(rd: Reader, line: string, rest: seq<string>, sizeMax: bool, st: Stream)
    requires ReadWord(Open(line), rd.tag) == ("UNITS", st)
    ensures ReadRecord(rd, line, rest, sizeMax) == ReadUnitList(rd.(tag := "UNITS"), st, rest)
  {
    ListTags();
  }

  /** The `DROPOFFS` record appends the drop-offs written. */
  lemma DropoffListBack(rd: Reader, ds: seq<Vec2i>, r: seq<string>, sizeMax: bool)
    requires InInt32(|ds|) && DropoffsFit(ds)
    ensures ReadRecord(rd, CountLine("DROPOFFS", |ds|), DropoffLines(ds) + r, sizeMax)
      == Go(rd.(tag := "DROPOFFS", ns := rd.ns.(dropoffs := rd.ns.dropoffs + ds)), r)
  {
    var st := CountTokens("DROPOFFS", |ds|, rd.tag);
    DropoffsDispatch(rd, CountLine("DROPOFFS", |ds|), DropoffLines(ds) + r, sizeMax, st);
    DropoffsBack(ds, rd.ns.dropoffs, r);
  }

  /** The `BUILDINGS` record appends the buildings written, less what is not
      saved. */
  lemma BuildingListBack(rd: Reader, bs: seq<Building>, r: seq<string>, sizeMax: bool)
    requires InInt32(|bs|) && BuildingsFit(rd.ns.unitTypes, rd.ns.unitTypeIndex, bs)
    ensures ReadRecord(rd, CountLine("BUILDINGS", |bs|), Flatten(BuildingBlocks(rd.ns.unitTypes, bs)) + r, sizeMax)
      == Go(rd.(tag := "BUILDINGS", ns := rd.ns.(buildings := rd.ns.buildings + SavedBuildings(bs))), r)
  {
    var st := CountTokens("BUILDINGS", |bs|, rd.tag);
    BuildingsDispatch(rd, CountLine("BUILDINGS", |bs|), Flatten(BuildingBlocks(rd.ns.unitTypes, bs)) + r, sizeMax, st);
    BuildingsBack(rd.ns.unitTypes, rd.ns.unitTypeIndex, bs, rd.ns.buildings, r);
  }

  /** The `UNITS` record appends the units written, less what is not saved. */
  lemma UnitListBack(rd: Reader, us: seq<Unit>, r: seq<string>, sizeMax: bool)
    requires InInt32(|us|) && UnitsFit(rd.ns.unitTypes, rd.ns.unitTypeIndex, us)
    ensures ReadRecord(rd, CountLine("UNITS", |us|), UnitLines(rd.ns.unitTypes, us) + r, sizeMax)
      == Go(rd.(tag := "UNITS", ns := rd.ns.(units := rd.ns.units + SavedUnits(us))), r)
  {
    var st := CountTokens("UNITS", |us|, rd.tag);
    UnitsDispatch(rd, CountLine("UNITS", |us|), UnitLines(rd.ns.unitTypes, us) + r, sizeMax, st);
    UnitsBack(rd.ns.unitTypes, rd.ns.unitTypeIndex, us, rd.ns.units, r);
  }
}
