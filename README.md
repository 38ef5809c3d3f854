# A verified model of a tile-grid RTS simulation core

This project models the deterministic simulation engine of a small
real-time-strategy game in Dafny and proves properties of the model. The
engine owns the whole game state: the tile map with its occupancy overlay and
per-tile resource ledger, the unit and building tables, the economy (gold,
wood, food used, food cap) and the drop-off registry. Callers issue orders
against that state (spawn, move, gather, build, train, cancel). A fixed-timestep
`step` then advances every unit and every building. The state can be saved to
and loaded from a line-oriented `VERSION 1` text format.

Modules, leaf first:

- `Grid` (grid.dfy): coordinates, the flat index `y*width + x`, distances and their arithmetic lemmas.
- `Types` (types.dfy): the data model of core/include/types.hpp and core/include/sim.hpp, with default values.
- `Fixed` (fx.dfy): 16.16 fixed-point arithmetic on 32-bit raw values.
- `Random` (rng.dfy): the xorshift32 generator on `bv32`.
- `Text` (text.dfy): words of a line, `std::to_string`, the `istringstream >>` extractions, `std::stoi`, comma fields.
- `Data` (data.dfy): `load_map_txt` and `load_units_csv` over the lines of the files.
- `Pathfinding` (pathfinding.dfy): `astar_find` as a method over `g` and `parent` arrays updated in place.
- `Search` (search.dfy): the read-only scans (nearest drop-off, resource and stand tiles, nearest resource, building look-up, placement test, spawn ring). Each is a loop proved equal to a function.
- `Ledger` (ledger.dfy): `resource_take_at`, `init_resources_from_tiles` and `set_block` as map transitions.
- `Economy` (economy.dfy): training reservation and refund, construction progress and the production countdown.
- `Jobs` (jobs.dfy): one tick of `unit_step` and the job `order_gather` hands out, as functions.
- `World` (world.dfy): the whole state as a value, its well-formedness, `spawn_unit`, and what a tick preserves.
- `Simulation` (sim.dfy): the `Sim` class whose fields the operations update in place, with `step` and every order.
- `SaveLoad` (saveload.dfy): the save format as lines written for a state, and the reader `load_game` runs over them.
- `RoundTrip` and `Reload` (roundtrip.dfy, reload.dfy): each record, then the whole file, reads back as written.
- `Persistence` (persist.dfy): `save_game` and `load_game` on a live `Sim`.
- `Host` (host.dfy): the `relax_builders` rule the SDL front end applies between ticks.
- `Boot` (boot.dfy): `load_data`, which reads both asset files and sets up the opening position.

Two facts about the ledger and the loader shape the model:

- An amount of zero does not mean grass. Wall and grass tiles hold amount 0
  and name no resource, and `resource_take_at` (core/src/sim.cpp:265-271)
  turns an emptied tile to grass. The invariant the code keeps, and the model
  proves (`Ledger.TakeAtKeepsLedger`), is that a tile naming a resource
  holds a positive amount.
- `load_game` never sizes `res_max` when it reads `MAP`
  (core/src/sim.cpp:612-615), yet it writes into it when it reads `RESMAX`
  (line 639). Every load of a save of a non-empty map is therefore
  undefined behaviour, since `save_game` always writes `RESMAX`. The model
  keeps this reader as `SaveLoad.LoadAsWritten`, and
  the live loader `Persistence.LoadGame` uses the corrected reader that
  sizes `res_max` too. See "## Findings".

## Model

| member | source | states |
|---|---|---|
| Grid.IdxInRange | core/src/sim.cpp:14-15 | a coordinate inside the map has a row-major index inside the cell vectors |
| Grid.IdxCoords | core/src/pathfinding.cpp:56 | decoding `y*W+x` with `/` and `%` gives back `(x, y)` for every in-row `x` |
| Grid.CoordIdx | core/src/pathfinding.cpp:56 | every cell index decodes to an in-bounds coordinate whose index is that cell again |
| Grid.IdxInjective | core/src/sim.cpp:14 | two in-bounds coordinates with the same index are the same coordinate |
| Types.ResourceCode | core/include/sim.hpp:14 | the byte codes of the resource kinds: none 0, gold 2, wood 3, the same as the gold and forest tile codes |
| Types.Byte | core/src/sim.cpp:619 | the `(uint8_t)` cast: always in `[0, 256)`, and the identity on values that already fit |
| Types.JobOfCode | core/src/sim.cpp:677 | the `(UnitJob)` cast of a loaded integer keeps exactly its low byte, so out-of-range codes survive as an unnamed job |
| Types.KindOfCode | core/src/sim.cpp:656 | the `(BuildingKind)` cast keeps the low byte of the loaded code |
| Types.StateOfCode | core/src/sim.cpp:657 | the `(BuildState)` cast keeps the low byte of the loaded code |
| Types.CodesRoundTrip | core/include/sim.hpp:27 | writing a named job, kind or state as its code and casting it back gives the same enumerator |
| Types.Ridx | core/include/sim.hpp:99 | `ridx` of an in-bounds tile is `y*width + x` and lies inside the cell vectors |
| Types.GetBType | core/src/sim.cpp:139-143 | farm 1x1 for 60 gold and 40 wood, barracks 2x2 for 150 and 80, any other kind a 1x1 dropoff for 120 gold; footprint at least 1x1 and costs non-negative |
| Fixed.Wrap32 | core/include/fx.hpp:8-9 | the wrap to `int32_t`: the result is in range, congruent to the input modulo 2^32, and equal to it when it already fits |
| Fixed.TruncDiv | core/include/fx.hpp:11 | C++ `/`: the remainder is smaller than the divisor in magnitude and has the sign of the dividend |
| Fixed.TruncDivRemainder | core/include/fx.hpp:11 | the truncated quotient leaves exactly the magnitude remainder, carrying the dividend's sign |
| Fixed.Add | core/include/fx.hpp:8 | without overflow, `+` adds the raw values |
| Fixed.Sub | core/include/fx.hpp:9 | without overflow, `-` subtracts the raw values |
| Fixed.AddSubInverse | core/include/fx.hpp:8-9 | subtracting what was added gives back the original value |
| Fixed.Mul | core/include/fx.hpp:10 | multiplying by one is the identity; when the product fits, the raw result is the floor of `a*b / 2^16` |
| Fixed.Div | core/include/fx.hpp:11 | dividing by one is the identity; when the quotient fits, `r*b` is within one ulp of `a*2^16` |
| Fixed.FromInt | core/include/fx.hpp:12 | `i << 16` is exactly `i * 2^16` for every integer that fits in 16 bits |
| Fixed.FloorToInt | core/include/fx.hpp:13 | `>> 16` is the floor: `r*2^16 <= v < (r+1)*2^16` |
| Fixed.FromIntOne | core/include/fx.hpp:12 | `fx_from_int(1)` is the fixed-point one |
| Fixed.FloorFromInt | core/include/fx.hpp:12-13 | flooring a converted integer gives the integer back |
| Fixed.MulDivByOne | core/include/fx.hpp:10-12 | multiplying or dividing by `fx_from_int(1)` changes nothing |
| Random.XorShift | core/include/rng.hpp:5 | the 13/17/5 xorshift of a non-zero state is non-zero, so the generator never sticks at zero |
| Random.InitialState | core/include/rng.hpp:4 | a zero seed becomes 1; any other seed is kept |
| Random.Outputs | core/include/rng.hpp:4-5 | n draws from a seed: n values, none zero, the final state equal to the last value |
| Random.Rng.Next | core/include/rng.hpp:5 | `next()` returns the xorshift of the old state and stores it as the new state |
| Random.Rng.NextRange | core/include/rng.hpp:6 | `next_range(0)` is 0 and draws nothing; otherwise one draw reduced modulo n, so below n |
| Random.Draw | core/include/rng.hpp:4-5 | a loop of `next()` calls on a fresh generator yields exactly the draw sequence of `Outputs` |
| Text.DropSpaces | core/src/sim.cpp:604 | skipping whitespace leaves a suffix of the input that is empty or starts with a non-space |
| Text.WordLen | core/src/sim.cpp:604 | the length of the leading word: a prefix that is a word (or empty), followed by whitespace or the end |
| Text.IntToString | core/src/sim.cpp:496-498 | `std::to_string` writes a single word whose first character is `-` exactly for negative numbers |
| Text.NatRoundTrip | core/src/sim.cpp:496-498 | the decimal digits written for a natural number have that number as their value |
| Text.ScanIntToString | core/src/sim.cpp:606 | scanning a number that `to_string` wrote, after any whitespace, finds its sign and magnitude and stops right after it |
| Text.Open | core/src/sim.cpp:604 | a fresh `istringstream` is good and holds the whole line |
| Text.ReadWord | core/src/sim.cpp:604 | `>> tag`: a successful read yields a word; a failed read leaves the target as it was |
| Text.ReadInt32 | core/src/sim.cpp:606 | `>>` into `int` keeps a 32-bit target in range, and a stream that has failed stays failed |
| Text.ReadUInt32 | core/src/sim.cpp:608 | `>>` into `uint32_t` keeps the target within 32 unsigned bits |
| Text.ReadWordOf | core/src/sim.cpp:604 | reading a word that was written gives that word and leaves the stream, still good, just after it |
| Text.ReadInt32Of | core/src/sim.cpp:606 | reading an `int` that `to_string` wrote gives that number and leaves the stream good just after it |
| Text.ReadUInt32Of | core/src/sim.cpp:608 | reading a `uint32_t` that was written as a non-negative number gives that number back |
| Text.ReadUInt32OfNegative | core/src/sim.cpp:673 | a negative number read into an unsigned field comes back as that number plus 2^32 |
| Text.Stoi | core/src/data.cpp:17 | `std::stoi` yields a 32-bit value, or nothing where it would throw |
| Text.StoiOf | core/src/data.cpp:17 | `stoi` reads back every 32-bit number `to_string` writes |
| Text.UpToComma | core/src/data.cpp:16 | `getline(ss, tok, ',')`: the longest comma-free prefix, stopped by a comma or the end |
| Text.CommaFields | core/src/data.cpp:15-29 | a CSV row split at commas: at least one field, none containing a comma |
| Data.Legend | core/src/data.cpp:48-53 | the map legend: `#` wall 1, `G` gold 2, `T` forest 3, `D` dropoff 4, each code for exactly its character, everything else grass 0 |
| Data.NonEmptyLines | core/src/data.cpp:41 | the kept map lines are among the input lines and none is empty |
| Data.NonEmptyLinesEmpty | core/src/data.cpp:41-42 | no line is kept exactly when every line of the file is empty |
| Data.NonEmptyLinesMembers | core/src/data.cpp:41 | a line is kept exactly when it is a non-empty line of the file |
| Data.CollectRows | core/src/data.cpp:40-41 | the collecting loop keeps exactly the non-empty lines, in order |
| Data.DecodeTiles | core/src/data.cpp:44-56 | the decoding loops fill `width*height` cells, the cell at `y*width + x` holding the legend code of row y, column x |
| Data.DecodeTileRow | core/src/data.cpp:47-55 | one pass of the inner loop decodes row y into cells `y*width` up to `(y+1)*width`, keeping the rows above |
| Data.LegendAtAll | core/src/data.cpp:46-56 | once every cell before `h*w` is decoded, every cell of the map holds the legend code of its character |
| Data.MapChar | core/src/data.cpp:48 | `lines[y][x]` is the line's character when x is inside it and the terminating '\0', decoded as grass, at x equal to its length |
| Data.ShortLineIsGrass | core/src/data.cpp:43-56 | the file `###` / `##` loads as a 3 x 2 map whose missing cell (2, 1) is grass and whose cell (0, 1) is a wall |
| Data.LoadMapTxt | core/src/data.cpp:37-58 | (stated by `MapRead`) false with the map untouched exactly when the file has no non-empty line; otherwise height = non-empty lines, width = first line's length, every tile decoded in place (a line one character short ending in grass), `blocked` all zero, the resource vectors left as they were |
| Data.Zeros | core/src/data.cpp:44-45 | `assign(n, 0)`: n cells, each zero |
| Data.CsvField | core/src/data.cpp:16-29 | the k-th `getline(ss, tok, ',')` of a row yields the k-th field when there is one |
| Data.AttackOf | core/src/data.cpp:19 | `Pierce`, `Siege` and `Magic` name exactly their attack types; every other token is Normal |
| Data.ArmorOf | core/src/data.cpp:23 | `Light`, `Heavy` and `Building` name exactly their armor types; every other token is Medium |
| Data.Int16 | core/src/data.cpp:20 | the `(int16_t)` cast: in range, congruent modulo 2^16, the identity on values that fit |
| Data.UInt16 | core/src/data.cpp:21-22 | the `(uint16_t)` cast: in `[0, 2^16)`, the identity on values that fit |
| Data.Num | core/src/data.cpp:17-29 | a field that `stoi` accepts yields a 32-bit value |
| Data.DecodeFields | core/src/data.cpp:15-30 | a row decodes exactly when all twelve numeric fields parse, and then every field of the unit type is the matching column, with the 16-bit casts and the attack and armor names applied |
| Data.ReadRow | core/src/data.cpp:14-30 | an empty line is skipped, a row whose `stoi` throws is a throw, any other line decodes to its unit type |
| Data.Reads | core/src/data.cpp:13 | one read per line after the header, in order |
| Data.CsvRowsSticky | core/src/data.cpp:13-33 | after a throw, the lines that follow change nothing |
| Data.CsvRowsComplete | core/src/data.cpp:13-33 | the load throws exactly when some line throws, and otherwise pushes every decoded row in file order |
| Data.LastWithId | core/src/data.cpp:31 | the last row carrying an id: that row has the id and no later row does |
| Data.IndexAfterLastWins | core/src/data.cpp:31 | the index keeps its old keys and gains every row id; a duplicated id maps to its last row's position truncated to 16 bits, other old keys keep their value |
| Data.PushRows | core/src/data.cpp:13-33 | the loop appends exactly the decoded rows to the table, sets the index as above, and reports whether a row threw |
| Data.LoadUnitsCsv | core/src/data.cpp:9-35 | the header line is skipped and the rows after it are pushed and indexed as above; a throw is reported (`UnitsRead` names the three results) |
| Data.IndexAfterInTable | core/src/data.cpp:31-32 | every id the loader records points into the grown table, and old entries that pointed into the old table still do |
| Ledger.TakeAt | core/src/sim.cpp:255-273 | out of bounds, no resource kind or no stock: false, nothing taken, map unchanged; otherwise `min(amount, stock)` is taken from that tile alone, and a tile left at zero or below becomes grass, unblocked, with no resource kind and amount 0, `res_max` untouched |
| Ledger.TakeAtBounds | core/src/sim.cpp:261-262 | for a non-negative request, what is taken is at most the request and the stock, and the stock drops by exactly that much |
| Ledger.TakeAtKeepsLedger | core/src/sim.cpp:265-271 | a take preserves the ledger invariant: a tile that names a resource still holds a positive amount |
| Ledger.KindOfTile | core/src/sim.cpp:237-250 | the resource kind initialised for a tile is none, gold or wood |
| Ledger.Resize | core/src/sim.cpp:230-232 | `resize(n)`: n cells, the old ones kept, new ones zero |
| Ledger.InitLedger | core/src/sim.cpp:228-253 | the terrain and blocking are untouched; forest tiles get wood with the wood amount (current and maximum), gold tiles gold with the gold amount, every other tile nothing |
| Ledger.InitLedgerOk | core/src/sim.cpp:228-253 | with positive amounts the fresh ledger satisfies the ledger invariant, and a tile is a wood (gold) resource tile exactly when it is forest (gold) terrain |
| Ledger.FillRowAt | core/src/sim.cpp:147-151 | after one row of `set_block`, a cell holds the new value exactly when it lies in that row's span, and otherwise its old one |
| Ledger.FillRectAt | core/src/sim.cpp:145-152 | after `set_block`, an on-map cell holds the new value exactly when it lies in the rectangle; off-map footprint cells are skipped |
| Ledger.Blocked | core/src/sim.cpp:145-152 | `set_block` changes only the `blocked` vector of the map |
| Ledger.BlockedWalkable | core/src/sim.cpp:16-21 | blocking a footprint makes its tiles unwalkable; unblocking makes them walkable exactly when they are not walls; tiles outside keep their walkability |
| Pathfinding.HCost | core/src/pathfinding.cpp:11 | the heuristic is a non-negative multiple of 10 and is zero exactly at the goal |
| Pathfinding.Dirs | core/src/pathfinding.cpp:30-33 | eight directions with diagonals, four without |
| Pathfinding.AdjacentIsDirection | core/src/pathfinding.cpp:30-40 | a tile is a neighbour exactly when some direction of the table leads to it |
| Pathfinding.DirAdjacent | core/src/pathfinding.cpp:40 | every direction of the table leads to a neighbour |
| Pathfinding.MinIndex | core/src/pathfinding.cpp:35 | `open.top()`: an entry of the open set whose f is no larger than any other's |
| Pathfinding.TreeInit | core/src/pathfinding.cpp:16-22 | before the first pop (`g` at the start 0, every other `g` at `INT_MAX`, no parents) the search-tree invariant holds |
| Pathfinding.TreeRelax | core/src/pathfinding.cpp:42-46 | lowering a neighbour's `g` through an adjacent expanded tile and recording that tile as its parent keeps the search-tree invariant |
| Pathfinding.RelaxToward | core/src/pathfinding.cpp:40-49 | one direction of the relaxation: an unblocked neighbour reached more cheaply gets the new cost and p as parent; the tree invariant, every existing parent link and the cost bound for the directions done so far are kept |
| Pathfinding.RelaxNeighbours | core/src/pathfinding.cpp:38-50 | the relaxation pass of one expansion keeps the search-tree invariant and pushes only on-map tiles; afterwards every unblocked neighbour costs at most p's cost plus its step, no parent link is removed, and a goal hanging off the start stays there |
| Pathfinding.FirstExpansion | core/src/pathfinding.cpp:35-50 | after the start's own expansion every unblocked neighbour of the start has a parent, and an unblocked adjacent goal has the start as parent |
| Pathfinding.Search | core/src/pathfinding.cpp:15-51 | the open-set loop ends with fresh `g`/`parent` arrays satisfying the search-tree invariant, and the node cap bounds the expansions; with no expansion nothing has a parent; with a cap of at least one and a different goal the start is expanded, every unblocked neighbour of the start keeps a parent, and an unblocked adjacent goal keeps the start as parent |
| Pathfinding.LinkFacts | core/src/pathfinding.cpp:44-46 | a parent link points to an adjacent tile of strictly smaller `g` that is the start or itself linked, from an unblocked tile other than the start, so following links ends at the start |
| Pathfinding.Reverse | core/src/pathfinding.cpp:60 | `std::reverse`: same length, the k-th element is the k-th from the end |
| Pathfinding.TrailStep | core/src/pathfinding.cpp:55-58 | one step of the reconstruction loop keeps the collected tiles a chain of neighbours ending in the goal |
| Pathfinding.TrailPath | core/src/pathfinding.cpp:55-60 | once the walk reaches the start, the reversed tiles form a valid path from the start to the goal |
| Pathfinding.Reconstruct | core/src/pathfinding.cpp:53-60 | walking parent links back from the goal and reversing yields a valid path: it starts next to the start, moves to a neighbour at every step, ends at the goal, and every waypoint is walkable and not the start; a goal whose parent is the start gives exactly `[goal]` |
| Pathfinding.AStarFind | core/src/pathfinding.cpp:13-62 | start = goal gives true and an empty path; false leaves the caller's path untouched; between different tiles the result is true exactly when the goal has a parent in the search tree left behind, and the path is then valid; a blocked goal or a node cap below one always fails; with a cap of at least one every unblocked neighbour of the start is reached and an unblocked adjacent goal is found with the path `[goal]`; expansions are bounded by the cap |
| Search.MinScan | core/src/sim.cpp:131-136 | the strict-`<` minimum scan: no candidate below the initial bound leaves the bound and index -1; otherwise the index names the first candidate with the smallest value, which is below the bound |
| Search.MinScanStep | core/src/sim.cpp:134 | one more candidate replaces the running best exactly when it is strictly smaller |
| Search.First | core/src/sim.cpp:463 | the first true flag, or -1 when there is none |
| Search.DropoffDistances | core/src/sim.cpp:133 | the Manhattan distance of each dropoff from the query tile, in registry order |
| Search.DropoffIndex | core/src/sim.cpp:130-137 | the first dropoff at the smallest distance; -1 exactly when none is closer than `INT_MAX` |
| Search.NearestDropoffOf | core/src/sim.cpp:130-137 | with no dropoffs the query tile itself; otherwise a registered dropoff (or the query tile when all are `INT_MAX` away) |
| Search.NearestDropoffIsNearest | core/src/sim.cpp:130-137 | the answer is a dropoff no farther than any dropoff within `INT_MAX` |
| Search.NearestDropoffIsZero | core/src/sim.cpp:130-137 | a unit standing on a dropoff finds that dropoff |
| Search.NearestDropoff | core/src/sim.cpp:130-137 | the loop over the registry computes exactly the nearest dropoff as specified |
| Search.AroundOf | core/src/sim.cpp:31 | the scan offset `(dx, dy)` is cell `(dy+1)*3 + dx+1` of the 3x3 block, the centre exactly for `(0, 0)` |
| Search.AroundIsNeighbour | core/src/sim.cpp:31-33 | the eight non-centre cells of the block are exactly the tiles at Chebyshev distance one |
| Search.NeighbourIsAround | core/src/sim.cpp:31-33 | every tile at Chebyshev distance one is a non-centre cell of the block |
| Search.AdjacentFlags | core/src/sim.cpp:31-34 | in scan order, the flag of each cell says whether it is a non-centre resource tile of the kind |
| Search.AdjacentResourceOf | core/src/sim.cpp:30-37 | a found tile is an adjacent resource tile of the kind and no neighbour earlier in row-major scan order is one; none found means no neighbour is one |
| Search.FindAdjacentResource | core/src/sim.cpp:30-37 | the nested `dy`/`dx` loops return exactly that first adjacent resource tile |
| Search.AdjacentRow | core/src/sim.cpp:31-35 | one `dy` row of the scan either returns the first adjacent resource tile or extends "nothing found yet" over that row |
| Search.StandDistanceAt | core/src/sim.cpp:43-46 | each cell of the block is a stand candidate exactly when it is a walkable non-centre cell, at its Manhattan distance from the unit |
| Search.StandTileOf | core/src/sim.cpp:40-51 | a found stand is a walkable neighbour of the resource that is no farther from the unit than any other walkable neighbour, and strictly nearer than every earlier one in scan order; none found means no walkable neighbour lies within the `1e9` bound |
| Search.StandStep | core/src/sim.cpp:43-47 | one cell of the stand scan moves the running best exactly as the strict minimum scan does |
| Search.FindStandTile | core/src/sim.cpp:40-51 | the nested loops compute exactly the stand tile specified above |
| Search.StandTileOfScan | core/src/sim.cpp:40-51 | the stand tile is the cell at the index the minimum scan selects |
| Search.ResourceDistanceAt | core/src/sim.cpp:58-63 | cell i is a candidate exactly when it holds the kind with stock and has a stand tile, at its Manhattan distance from the unit |
| Search.NearestResourceOf | core/src/sim.cpp:54-72 | a found resource holds the kind with stock, has the returned stand tile, and no harvestable tile is nearer; none found means no harvestable tile lies within `INT_MAX` |
| Search.ResourceStep | core/src/sim.cpp:58-64 | one cell of the scan moves best distance, resource and stand exactly as the strict minimum scan does |
| Search.ResourceRow | core/src/sim.cpp:57-65 | one row of the scan moves the running best as the minimum scan over that row's cells |
| Search.ResourceRows | core/src/sim.cpp:56-66 | the whole row-major scan ends at the minimum scan over every cell |
| Search.FindNearestResource | core/src/sim.cpp:54-72 | `find_nearest_resource` returns exactly the nearest harvestable resource and its stand |
| Search.NearestResourceOfScan | core/src/sim.cpp:54-72 | the nearest resource is the cell the minimum scan selects, with that cell's stand tile |
| Search.UnitIndex | core/src/sim.cpp:83 | the first unit with the id, or -1 when no unit has it |
| Search.BuildingIndex | core/src/sim.cpp:462-465 | the first building with the id, or -1 (`nullptr`) when none has it |
| Search.FindBuilding | core/src/sim.cpp:462-469 | the loop of `find_building` returns exactly that first match |
| Search.FindUnit | core/src/sim.cpp:83 | the `for (auto& e : s.units) if (e.id == u)` loop stops at exactly the first unit with the id |
| Search.DropoffAt | core/src/sim.cpp:216-218 | `find_if` over the registry: the first entry at the tile, -1 exactly when the tile is not registered |
| Search.CanPlaceBuilding | core/src/sim.cpp:154-163 | placement is allowed exactly when every footprint tile is on the map, unblocked and grass |
| Search.RowScan | core/src/sim.cpp:440-443 | the first walkable tile of a row segment, and none exactly when no tile of the segment is walkable |
| Search.RectScan | core/src/sim.cpp:439-445 | the first walkable tile of a rectangle in row-major order |
| Search.SpawnScan | core/src/sim.cpp:438-446 | the first of rings 0 to 3 around the footprint that holds a walkable tile, with that ring's first walkable tile |
| Search.SpawnTileOf | core/src/sim.cpp:437-446 | the spawn tile is walkable unless it fell back to the building's top-left tile, which happens exactly when no ring has a walkable tile |
| Search.SpawnTileMinimal | core/src/sim.cpp:437-446 | a found spawn tile is walkable, inside ring 3, in the first ring that has one; no tile found means the whole ring-3 rectangle is unwalkable |
| Search.SpawnRow | core/src/sim.cpp:440-443 | the inner `x` loop returns exactly the first walkable tile of its row segment |
| Search.SpawnRing | core/src/sim.cpp:439-445 | the `y` loop of one ring returns exactly that ring's first walkable tile |
| Search.FindSpawnTile | core/src/sim.cpp:437-446 | the ring loops compute exactly the specified spawn tile |
| World.FreshStateValid | core/include/sim.hpp:56-65 | a default-constructed `Sim` is well formed, with 500 gold, no wood, 0 of 10 food and both id counters at 1 |
| World.NewBuilding | core/src/sim.cpp:171-179 | a started building carries the next id, the type's kind, footprint, build time and costs, is Planned with no progress, an empty queue and no rally point |
| World.NewUnit | core/src/sim.cpp:77-78 | a spawned unit carries the id and type, stands at and aims at the spawn tile with the type's hp, idle, carrying nothing, with no path, no target and no cooldown |
| World.NextId | core/src/sim.cpp:77 | `next_unit_id++` on a `uint32_t`: stays in range, and is the successor unless it wraps |
| World.Spawned | core/src/sim.cpp:74-80 | `spawn_unit`: an unknown type id returns 0 and changes nothing; a known one appends a new unit with the current id, returns that id and advances the counter |
| World.SpawnedGrounded | core/src/sim.cpp:74-80 | spawning on a map tile keeps the state fit for the step |
| World.SpawnedFresh | core/src/sim.cpp:77 | while the counter has not wrapped and every id is below it, the new id is non-zero and differs from every existing unit's id, and all ids stay below the counter |
| World.GroundedUnitSwap | core/src/sim.cpp:396 | replacing a unit by one on a map tile with a loaded type keeps the state fit for the step |
| World.GroundedWorldSwap | core/src/sim.cpp:255-273 | a new map of the same size with its ledger sized keeps the state fit for the step |
| World.GroundedBuildingSwap | core/src/sim.cpp:399-458 | a building replaced by one with the same footprint and rally point and a queue of loaded types keeps the state fit for the step |
| World.ValidQueueSwap | core/src/sim.cpp:363-393 | giving a building a queue of loaded unit types, whatever the stock, keeps the state well formed |
| World.EvolvedTrans | core/src/sim.cpp:395-460 | what a tick preserves composes: two ticks preserve it too |
| World.RemoveFirst | core/src/sim.cpp:216-218 | erasing the first matching dropoff removes exactly one occurrence when the tile is registered and nothing otherwise |
| Economy.Refund | core/src/sim.cpp:381 | giving back one unit's gold, wood and food is undone by paying for it again |
| Economy.RefundUndoesPay | core/src/sim.cpp:370-381 | refunding a unit that was just paid for restores the purse exactly |
| Economy.Train | core/src/sim.cpp:368-373 | the training loop enqueues at most `count` units; when it enqueues any, gold and wood stay non-negative and food stays within the cap; it stops early only when the next unit is unaffordable |
| Economy.TrainPrice | core/src/sim.cpp:368-372 | after enqueuing k units the purse has paid exactly k times the unit's gold, wood and food |
| Economy.TrainSteps | core/src/sim.cpp:369-371 | an affordable iteration pays once and enqueues one item, then the loop continues with one fewer to go |
| Economy.TrainStops | core/src/sim.cpp:368-369 | with nothing to train, or the next unit unaffordable, the loop enqueues nothing and pays nothing |
| Economy.TrainResult | core/src/sim.cpp:368-373 | `queue_train` returns true exactly when `count <= 0` or the first unit is affordable, that is when it enqueues something or was asked for nothing |
| Economy.TrainKeepsFood | core/src/sim.cpp:369 | training never lets food in use exceed the food cap |
| Economy.Workers | core/src/sim.cpp:401-411 | the number of adjacent assigned workers is positive exactly when some worker on the Building job targets this building and stands at Chebyshev distance one from its footprint |
| Economy.BuildRateMono | core/src/sim.cpp:414-415 | one worker builds at the tick length; more workers never build slower, never slower than one |
| Economy.Construct | core/src/sim.cpp:412-429 | a Complete building, or one with no worker, is unchanged; otherwise only state and progress change, progress grows by the worker rate, and the building is Complete exactly when progress reaches the total, Constructing until then |
| Economy.CompleteOnce | core/src/sim.cpp:412-419 | a building completes once: a later tick changes nothing, so the completion effects (dropoff registration, food cap) happen at most once |
| Economy.ConstructProgress | core/src/sim.cpp:415 | construction progress never decreases |
| Economy.Int32Of | core/src/sim.cpp:433 | `(int)dt_ms`: in the `int` range, and the identity below 2^31 |
| Economy.Produce | core/src/sim.cpp:432-457 | the front item loses the tick; it spawns its unit type and leaves the queue exactly when its time runs out, and otherwise the queue keeps every item with only the front's time lowered |
| Jobs.Mine | core/src/sim.cpp:284-297 | with no adjacent resource of the kind nothing is mined: the unit heads for the stand of the nearest one, or goes Idle when there is none; otherwise it mines the first adjacent one |
| Jobs.MineAt | core/src/sim.cpp:299-331 | mining takes between 1 and 2 from the tile into the worker's load; a tile left with stock sends a full worker (20 or more) to the nearest dropoff and lets the others keep mining; an exhausted tile sends the worker to the next nearest resource, else to deliver a non-empty load, else Idle |
| Jobs.MineAtConserves | core/src/sim.cpp:300-302 | the worker's load grows by exactly what the tile lost, and no other tile changes |
| Jobs.Deliver | core/src/sim.cpp:337-359 | away from the nearest dropoff nothing happens; on it, the load is added to gold or wood by its kind and emptied, and the worker resumes gathering at the nearest resource of that kind, or goes Idle with no carried kind |
| Jobs.TickOf | core/src/sim.cpp:275-360 | `unit_step`: a unit with a path steps onto the next waypoint or drops its path when that tile is not walkable; a Moving unit without a path goes Idle; gatherers mine, deliverers deliver; any other unit is untouched |
| Jobs.TickConserves | core/src/sim.cpp:337-342 | a tick of an arrived Delivering unit carrying gold or wood keeps gold + wood + carried unchanged |
| Jobs.TickKeepsLedger | core/src/sim.cpp:275-360 | a unit's step keeps the ledger invariant, and a unit that moves moves onto a walkable tile |
| Jobs.GatherKind | core/src/sim.cpp:93-104 | the resource of the ordered tile is read from `res_kind` first and from the terrain code only when `res_kind` names nothing; off the map it is none |
| Jobs.GatherOf | core/src/sim.cpp:90-126 | `order_gather` on a found unit: no resource makes it Idle with no carried kind; otherwise its job and carried kind follow the resource, and it is sent to a walkable stand next to a tile of that resource: a stand of the clicked tile when that tile holds the resource and has one, otherwise the stand of the nearest harvestable tile; with none anywhere it goes Idle and keeps its goal and path |
| Simulation.Route | core/src/sim.cpp:292 | the A* call made by the step: the path it returns is empty (the search failed) or a chain of 8-neighbour walkable tiles from the start that ends on the goal; a walkable goal one step away is always reached as `[goal]` |
| Simulation.ConstructedKeeps | core/src/sim.cpp:412-429 | the construction part of the loop changes only building k (as `Construct` with its adjacent-worker count), the map, the drop-offs and the food cap; food cap grows by 4 only for a farm, drop-offs gain the tile only for a drop-off; the state stays fit for the step and the ledger stays consistent |
| Simulation.DropoffOpenedKeeps | core/src/sim.cpp:418-424 | completing a drop-off keeps the state fit for the step and the ledger consistent |
| Simulation.DropoffCompletes | core/src/sim.cpp:418-424 | a completed drop-off is registered, its tile is walkable, and it is its own nearest drop-off, so a worker standing on it can deliver |
| Simulation.MovedKeeps | core/src/sim.cpp:82-88 | `order_move` changes only the unit table and keeps the state fit for the step |
| Simulation.SpawnedKeeps | core/src/sim.cpp:74-80 | spawning on a map tile keeps the state fit for the step and preserves what a tick preserves |
| Simulation.FieldedKeeps | core/src/sim.cpp:432-457 | production changes neither the map, the stock nor the drop-offs, and keeps the state fit for the step |
| Simulation.QueuedKeeps | core/src/sim.cpp:433-456 | rewriting a queue with loaded unit types keeps the state fit for the step |
| Simulation.RalliedKeeps | core/src/sim.cpp:449-454 | spawning a unit and sending it to a set rally point keeps the state fit for the step and changes neither map, stock nor drop-offs |
| Simulation.TickedKeeps | core/src/sim.cpp:275-360 | a unit's tick keeps the state fit for the step, preserves what a tick preserves and keeps the ledger consistent |
| Simulation.RemoveFirstIs | core/src/sim.cpp:216-218 | erasing the first match at position k removes exactly that element |
| Simulation.Items | core/src/sim.cpp:371 | k queued items, each of the given type with the type's full build time |
| Simulation.Sim.constructor | core/include/sim.hpp:56-65 | a fresh `Sim`: an empty map and tables, 500 gold, 0 wood, 0 of 10 food, both counters at 1, well formed |
| Simulation.Sim.Assign | core/src/sim.cpp:684 | `s = std::move(ns)`: every field takes the loaded state's value |
| Simulation.Sim.ResourceTakeAt | core/src/sim.cpp:255-273 | `resource_take_at` on the live map: ok and the amount taken as `TakeAt` says, the map replaced by its result and nothing else changed |
| Simulation.Sim.InitResourcesFromTiles | core/src/sim.cpp:228-253 | `init_resources_from_tiles` on the live map: the map becomes `InitLedger` of the old one, nothing else changes |
| Simulation.Sim.FillLedger | core/src/sim.cpp:240-252 | the row-by-row fill produces exactly the three ledger vectors of `InitLedger` |
| Simulation.Sim.FillLedgerRow | core/src/sim.cpp:241-251 | one row of the fill: every cell up to the end of the row holds its tile's kind and amount, the cells before it are kept |
| Simulation.Sim.SetBlock | core/src/sim.cpp:145-152 | `set_block` on the live map: the occupancy becomes that of `Blocked`, nothing else changes |
| Simulation.Sim.FillBlocked | core/src/sim.cpp:146-151 | the nested loops write v exactly into the in-bounds cells of the rectangle |
| Simulation.Sim.StartBuilding | core/src/sim.cpp:165-184 | returns 0 and changes nothing when gold, wood or the footprint is short; otherwise spends the costs, appends the new building with the next id, advances the counter and blocks the footprint |
| Simulation.Sim.CancelBuilding | core/src/sim.cpp:186-199 | an unknown id changes nothing; otherwise the first building with the id is erased, its footprint freed and its costs refunded when asked and it is not complete |
| Simulation.Sim.RemoveBuilding | core/src/sim.cpp:201-224 | as `cancel_building`, and a complete drop-off also leaves the drop-off list (first matching entry only) |
| Simulation.Sim.EraseBuilding | core/src/sim.cpp:189-197 | erasing building j: footprint freed, refund as asked for an unfinished building, the building removed with the others kept in order |
| Simulation.Sim.ForgetDropoff | core/src/sim.cpp:215-219 | the first entry equal to the tile leaves the drop-off list, nothing else changes |
| Simulation.Sim.QueueTrain | core/src/sim.cpp:363-374 | a building that is not barracks or an unknown id changes nothing and fails; otherwise the stock pays for as many units as `Train` affords, that many items join the queue, and it succeeds when the count is not positive or at least one was queued |
| Simulation.Sim.TrainLoop | core/src/sim.cpp:368-373 | the loop queues exactly `Train`'s count with the purse it leaves, and reports `i > 0` on an early stop |
| Simulation.Sim.CancelLastTrain | core/src/sim.cpp:376-384 | an empty queue fails and changes nothing; otherwise the last item's type is refunded and the item dropped |
| Simulation.Sim.CancelTrainAt | core/src/sim.cpp:386-393 | not barracks, an empty queue or an index past the end fails and changes nothing; otherwise item idx is refunded and erased, the rest kept in order |
| Simulation.Sim.SpawnUnit | core/src/sim.cpp:74-80 | on the live state: exactly `Spawned`, keeping the state well formed |
| Simulation.Sim.OrderMove | core/src/sim.cpp:82-88 | on the live state: a unit found by id gets the goal, the Moving job and the search's path, which is empty when the search failed and valid otherwise; an unknown id changes nothing |
| Simulation.Sim.OrderGather | core/src/sim.cpp:90-127 | an unknown id changes nothing; otherwise only that unit changes, to `GatherOf`'s result, with the search's path to its goal (empty when the search failed, valid otherwise) when it is sent walking |
| Simulation.Sim.GatherStand | core/src/sim.cpp:96-113 | the stand tile of the clicked resource when it is one of the kind, else the stand of the nearest such resource, else none |
| Simulation.Sim.UnitStep | core/src/sim.cpp:275-360 | `unit_step` on unit i: the new state is the one `TickOf` describes, with the paths the search returns |
| Simulation.Sim.MineStep | core/src/sim.cpp:284-332 | the gathering branch: as `Mine` describes |
| Simulation.Sim.MineAtStep | core/src/sim.cpp:299-331 | mining an adjacent resource: as `MineAt` describes |
| Simulation.Sim.MoveOn | core/src/sim.cpp:306-322 | after a tile runs out: walk to the nearest resource of the kind, else carry the load to the nearest drop-off, else go idle; only unit i changes |
| Simulation.Sim.SendToDropoff | core/src/sim.cpp:326-331 | a full worker heads for the nearest drop-off as Delivering with the search's path (empty when the search failed, valid otherwise); only unit i changes |
| Simulation.Sim.DeliverStep | core/src/sim.cpp:337-359 | the delivering branch: as `Deliver` describes |
| Simulation.Sim.Resume | core/src/sim.cpp:343-356 | after a delivery: back to gathering the carried kind at the nearest stand tile when one exists, else idle with no kind |
| Simulation.Sim.AdjWorkers | core/src/sim.cpp:401-411 | the count of workers on this building's job that touch its footprint |
| Simulation.Sim.ConstructStep | core/src/sim.cpp:412-429 | the construction part for building k: exactly `Constructed` |
| Simulation.Sim.ProduceStep | core/src/sim.cpp:432-458 | the production part for building k: exactly `Fielded` (front item counted down; a finished item spawned near the footprint, sent to the rally point, dropped) |
| Simulation.Sim.FieldFront | core/src/sim.cpp:436-456 | a finished front item: spawned on the spawn tile, rallied when a rally point is set, and popped |
| Simulation.Sim.SpawnRallied | core/src/sim.cpp:449-454 | spawn, then `order_move` to the rally point when it is set |
| Simulation.Sim.BuildingStep | core/src/sim.cpp:399-459 | one building's turn of the loop: construction then production as described, stock untouched, the state still fit for the step |
| Simulation.Sim.UnitsStep | core/src/sim.cpp:396 | the unit loop: a chain of states, each unit's tick taken on the state the earlier ticks left |
| Simulation.Sim.BuildingsStep | core/src/sim.cpp:399-459 | the building loop: a chain of states, each building's turn taken on the state the earlier turns left |
| Simulation.Sim.Step | core/src/sim.cpp:395-460 | `step`: every unit ticks in order, then every building takes its turn in order; the state stays fit for the step and the ledger consistent; the unit table and index, the building counter and food used are unchanged, the food cap only grows, the map keeps its size, no building appears or vanishes, units are only appended and keep their ids and types, and drop-offs are only appended |
| Simulation.Sim.OpenDropoff | core/src/sim.cpp:418-424 | a completed drop-off: its tile joins the list, becomes drop-off terrain and its footprint is unblocked |
| SaveLoad.WithLayer | core/src/sim.cpp:616-640 | writing one vector of the map sets exactly that vector and leaves the other four and the size alone |
| SaveLoad.ReadField | core/src/sim.cpp:604-673 | one `>>` extraction: every target but an uninitialised `int` local holds a value afterwards |
| SaveLoad.ReadFields | core/src/sim.cpp:606-673 | a `>>` chain yields one token per target |
| SaveLoad.Bytes | core/src/sim.cpp:619-629 | the `(uint8_t)` cast on every cell of a row, position by position |
| SaveLoad.ReadCells | core/src/sim.cpp:619 | reading n cells that all store a value yields n of them |
| SaveLoad.ReadGrid | core/src/sim.cpp:617-640 | a vector record's row loop keeps the vector's length and consumes lines only |
| SaveLoad.ItemLines | core/src/sim.cpp:568-571 | one `QI` line per queued item |
| SaveLoad.BuildingBlock | core/src/sim.cpp:559-572 | a building's block is its `B` line, its `BQ` line and one line per queued item |
| SaveLoad.ReadMapSize | core/src/sim.cpp:609-615 | a `MAP` record either goes on with the same lines or stops in undefined behaviour (a product outside 32 bits) or an exception (a negative size) |
| SaveLoad.ReadLayer | core/src/sim.cpp:616-640 | a vector record stops only in undefined behaviour and otherwise consumes lines only |
| SaveLoad.ReadBuildingList | core/src/sim.cpp:647-667 | the `BUILDINGS` record stops only in undefined behaviour or an exception and otherwise consumes lines only |
| SaveLoad.ReadUnitList | core/src/sim.cpp:668-681 | the `UNITS` record stops only in undefined behaviour or an exception and otherwise consumes lines only |
| SaveLoad.ReadRecord | core/src/sim.cpp:602-682 | one record of the main loop ends its load only in undefined behaviour or an exception, and never consumes more than the lines it was given |
| RoundTrip.ReadBack | core/src/sim.cpp:604-673 | a `>>` chain over the words a writer joined with spaces reads back the tokens those words spell |
| RoundTrip.LineBack | core/src/sim.cpp:496-583 | every line the writer builds from words its fields can spell reads back as those fields |
| RoundTrip.CellsBack | core/src/sim.cpp:505-551 | the cells of a written row read back as the row |
| RoundTrip.RowTextBack | core/src/sim.cpp:505-551 | a row written with spaces between the cells, and only there, reads back as its cells |
| RoundTrip.GridBack | core/src/sim.cpp:617-640 | the row loop over the lines written for a vector fills the loaded vector with exactly the saved one and stops right after its rows |
| RoundTrip.HeaderBack | core/src/sim.cpp:494 | the written header passes the `VERSION 1` check |
| RoundTrip.EcoBack | core/src/sim.cpp:496-497 | the `ECO` line restores gold, wood, food used and food cap |
| RoundTrip.IdsBack | core/src/sim.cpp:498 | the `IDS` line restores both id counters |
| RoundTrip.MapBack | core/src/sim.cpp:501 | the `MAP` line restores the size and gives every vector the cells of that size, all zero |
| RoundTrip.LayerBack | core/src/sim.cpp:504-551 | a vector's tag and rows read back into exactly that vector of the loaded map |
| RoundTrip.DropoffLineBack | core/src/sim.cpp:555 | a `D` line reads back as the drop-off's coordinates |
| RoundTrip.DropoffsBack | core/src/sim.cpp:555 | the `D` lines read back as the drop-off list, in order |
| RoundTrip.ItemLineBack | core/src/sim.cpp:569-570 | a `QI` line reads back as the unit type's id and the remaining time |
| RoundTrip.QueueBack | core/src/sim.cpp:568-571 | the `QI` lines of a queue read back as that queue, each id resolved through the index |
| RoundTrip.BuildingLineBack | core/src/sim.cpp:560-566 | a `B` line reads back as the building's thirteen numbers |
| RoundTrip.BuildingOfBack | core/src/sim.cpp:651-657 | the building decoded from them is the saved one without its queue and selection |
| RoundTrip.BuildingsBack | core/src/sim.cpp:558-572 | the building blocks read back as the buildings with their queues, only the selection lost |
| RoundTrip.UnitLineBack | core/src/sim.cpp:578-583 | a `U` line reads back as the unit's id, type id and numbers |
| RoundTrip.UnitOfBack | core/src/sim.cpp:672-678 | the unit decoded from them is the saved one less its path, cooldown and selection |
| RoundTrip.UnitsBack | core/src/sim.cpp:575-584 | the `U` lines read back as the units, in order, less their paths, cooldowns and selection |
| RoundTrip.DropoffListBack | core/src/sim.cpp:554-555 | the `DROPOFFS` record appends exactly the saved drop-offs |
| RoundTrip.BuildingListBack | core/src/sim.cpp:558-572 | the `BUILDINGS` record appends exactly the saved buildings |
| RoundTrip.UnitListBack | core/src/sim.cpp:575-584 | the `UNITS` record appends exactly the saved units |
| RoundTrip.SavedBuildings | core/src/sim.cpp:559-566 | position by position, each building as saved: all but its selection |
| RoundTrip.SavedUnits | core/src/sim.cpp:576-583 | position by position, each unit as saved: all but its path, cooldown and selection |
| Reload.ListsBack | core/src/sim.cpp:641-681 | the three lists read back onto a reader that has none yet give the saved lists |
| Reload.Overlay | core/src/sim.cpp:616-640 | the map with the first k vectors from one map and the rest from another, same size |
| Reload.OverlayAll | core/src/sim.cpp:616-640 | with all five vectors taken from the saved map, the result is the saved map |
| Reload.LayersBack | core/src/sim.cpp:616-681 | the vector records from the k-th on, then the lists, load the saved vectors over the zeroed ones and the saved lists |
| Reload.FrameBack | core/src/sim.cpp:594-615 | the header and the `ECO`, `IDS` and `MAP` lines bring a load to the vectors with a fresh state holding the saved economy, counters and size |
| Reload.SaveLoadRoundTrip | core/src/sim.cpp:490-686 | loading what `save_game` wrote, with `res_max` sized, gives back the saved state less the units' paths and cooldowns and the selection |
| Reload.RunStop | core/src/sim.cpp:602-682 | a record that stops the load decides its outcome |
| Reload.ResMaxRecord | core/src/sim.cpp:636-640 | as written, a `RESMAX` record on a non-empty map writes into an empty vector: undefined behaviour |
| Reload.LayersOverflow | core/src/sim.cpp:616-640 | as written, the vector records of a save end in that undefined behaviour |
| Reload.LoadAsWrittenOverflows | core/src/sim.cpp:609-640 | as written, loading any save of a non-empty map ends in undefined behaviour |
| Persistence.JoinSnoc | core/src/sim.cpp:508-509 | one more word on a joined line adds a space and the word |
| Persistence.WriteCells | core/src/sim.cpp:507-510 | the cell loop writes the row with a space before every cell but the first |
| Persistence.WriteRow | core/src/sim.cpp:506-511 | the line for row y of a vector |
| Persistence.WriteGrid | core/src/sim.cpp:505-512 | one line per row of the map |
| Persistence.WriteDropoffs | core/src/sim.cpp:555 | one `D` line per drop-off, in order |
| Persistence.WriteBlock | core/src/sim.cpp:560-571 | a building's `B` and `BQ` lines and one `QI` line per queued item |
| Persistence.WriteBuildings | core/src/sim.cpp:559-572 | the blocks of the buildings, in order |
| Persistence.WriteUnits | core/src/sim.cpp:576-584 | one `U` line per unit, in order |
| Persistence.WriteLists | core/src/sim.cpp:554-584 | the three lists, each after its count line |
| Persistence.SaveGame | core/src/sim.cpp:490-586 | `save_game` writes exactly the lines of the save format for the live state |
| Persistence.LoadGame | core/src/sim.cpp:588-686 | `load_game` with `MAP` also sizing `res_max` (the corrected reader of "## Findings"): the outcome that reader gives for the lines; the live state becomes the loaded one on success and is untouched on any failure |
| Persistence.SaveThenLoad | core/src/sim.cpp:490-686 | saving a live `Sim` and loading the lines back with the corrected reader installs the saved state less paths, cooldowns and selection |
| Host.RelaxedSettles | platform/sdl/main.cpp:500-512 | the sweep changes a unit exactly when it is a worker on the Building job whose target is missing or complete; afterwards it is settled, a second sweep changes nothing, and only the job, target and path change |
| Host.RelaxedAll | platform/sdl/main.cpp:501-511 | the sweep over every unit, position by position |
| Host.RelaxedAllSettles | platform/sdl/main.cpp:500-512 | after a sweep every unit is settled and sweeping again is a no-op |
| Host.RelaxBuilders | platform/sdl/main.cpp:500-512 | `relax_builders` on the live `Sim`: its units become the sweep of the old units, nothing else changes |
| Boot.DropoffTilesUpToIff | core/src/sim.cpp:476-477 | a tile is among the drop-offs found in the first n cells exactly when it is on the map, below n and drop-off terrain |
| Boot.DropoffTilesIff | core/src/sim.cpp:475-477 | the drop-offs `load_data` adds are exactly the map's drop-off tiles |
| Boot.ScanDropoffRow | core/src/sim.cpp:476-477 | the inner loop adds row y's drop-off tiles, left to right |
| Boot.ScanDropoffs | core/src/sim.cpp:476-477 | the nested loops find exactly the map's drop-off tiles, row by row |
| Boot.UnitsStageValid | core/src/data.cpp:9-35 | reading the unit table keeps the state well formed, keeps the old rows and changes only the table and the index |
| Boot.StartedSpawns | core/src/sim.cpp:476-482 | the start appends the map's drop-offs and at most two units and changes nothing else; with both types loaded the worker stands one tile and the footman three tiles right of the first drop-off (or of (1,1)), fresh and idle |
| Boot.Started | core/src/sim.cpp:476-482 | the start keeps the state well formed |
| Boot.Start | core/src/sim.cpp:476-482 | on the live `Sim`: exactly the start |
| Boot.ReadFiles | core/src/sim.cpp:472-473 | both loaders in order; a throw from the unit table leaves its rows installed and the map unread; otherwise the map is what `load_map_txt` leaves, and the result is whether both loaded |
| Boot.LoadData | core/src/sim.cpp:471-483 | `load_data`: true exactly when both files load, and then the start has run; false with what the loaders left; an exception from the unit table propagates; the state stays well formed |

## Left out

- File I/O: the files `save_game`, `load_game`, `load_units_csv`, `load_map_txt` and `load_data` open are their contents as `seq<string>` lines (an `Option` where the file may fail to open). The stream errors that `std::ofstream` can raise while writing are not modelled.
- Exceptions are modelled as outcomes: `std::stoi` in the unit loader (`Data.CsvRows`, `Boot.LoadThrew`) and `assign` with a negative size in `load_game` (`SaveLoad.Threw`).
- Undefined behaviour in `load_game` is modelled as the outcome `SaveLoad.Undefined`. This covers reading an uninitialised local, a cell that stores nothing, and a write past the end of a vector.
- Floating point: `fx::from_float` and `to_float` (core/include/fx.hpp:6-7) are left out. So is the `float` construction speed. `Economy.BuildRate` uses the integer `(dt*(3n+1))/4`, and at the magnitudes a frame delta takes it matches the float product.
- `std::priority_queue` order among equal-f entries: `Pathfinding.AStarFind` takes some entry of least f. Its contract does not depend on which one.
- `std::unordered_map` is modelled as a Dafny `map<string, int>`. Iteration order is never observed.
- The SDL front end (rendering, input, camera, audio, HUD, autosave timer) is left out, except the `relax_builders` rule.
- Unused data is carried but never read: attack, armor, sight, cooldown and `SimConfig`.
- Data.LoadMapTxt: requires every non-empty line to be at most one character shorter than the first. A line one short reads the string's terminating '\0' in its last column, which the model decodes as grass (`Data.MapChar`). A line two or more short is read past its end (core/src/data.cpp:48), which is undefined behaviour and not modelled.
- Boot.ReadFiles: inherits the `Data.LoadMapTxt` requirement on the map lines, for the same reason.
- Boot.LoadData: inherits the `Data.LoadMapTxt` requirement on the map lines, for the same reason.
- SaveLoad.Head: the save file is taken to end with a newline, as every line `save_game` writes does. Without it, a record's last `std::getline` fails and leaves the previous line in hand, so the source parses that line again; the model instead reads an empty line there.
- Pathfinding.AStarFind: requires start and goal on the map when they differ. The source indexes its arrays with them unchecked (core/src/pathfinding.cpp:21-22). Optimality is not claimed: the heuristic is Manhattan × 10 in diagonal search too.
- Pathfinding.AStarFind: success is forced only for a goal next to the start. Whether a goal farther away is found depends on the node cap and on the pop order, and no reachability result beyond the start's neighbours is stated.
- Simulation.Route: the step's path search is stated through `PathOk` (empty, or a valid path to the goal). Which path A* returns is not stated, and beyond an adjacent goal a reachable goal may still give the empty path.
- Simulation.Sim.OrderMove: the path may be empty when the search fails, as in the source; only an adjacent walkable goal is sure to be reached.
- Simulation.Sim.SendToDropoff: the path to the drop-off may be empty when the search fails, as in the source.
- Simulation.Sim.Step: requires `Ready()`, so every unit tile, drop-off and footprint is on the map. The source never checks this. `load_data` places its two units one and three tiles right of the first drop-off (core/src/sim.cpp:480-481), which can be past the right edge of a narrow map. The front end passes clicked tiles to orders unchecked (platform/sdl/main.cpp:872, 880-901). On such states the source reads a wrapped or out-of-range flat index (for example (-1, 1) reads cell `W-1`); the model does not follow them.
- Simulation.Sim.UnitStep: requires `Ready()` for the same reason as `Step`.
- Simulation.Sim.OrderGather: requires `Ready()` for the same reason as `Step`.
- Simulation.Sim.OrderMove: requires `Ready()` and an on-map goal. The source accepts any goal and indexes with it unchecked.
- Simulation.Sim.Step: gold, wood, food, build progress and carried amounts are unbounded integers. A signed 32-bit overflow during the step, which is undefined behaviour in the source, is not modelled.
- Unit type ids are taken as single words in the round trip (`RoundTrip.TypeNamed`). A type id with a space cannot be read back by `>>`, and the round trip says nothing about such states.
- Reload.SaveLoadRoundTrip: holds for states whose numbers fit the 32-bit fields they are written to (`Reload.Saveable`). For other states the `int` fields truncate on write and the model does not follow them through.
- Reload.SaveLoadRoundTrip: also requires each saved unit type to be one the index maps back to (`RoundTrip.TypeNamed`). With two unit types sharing an id the index keeps the later row, and a unit of the earlier type reloads as the later one; such states are not covered.
- Persistence.LoadGame: follows the corrected reader, in which `MAP` sizes `res_max`. As written, every load of a save of a non-empty map is undefined behaviour, since `save_game` always writes `RESMAX` (`Reload.LoadAsWrittenOverflows`), and the live loader does not model that outcome.
- Persistence.SaveThenLoad: the round trip holds for the corrected reader only; with the reader as written it ends in undefined behaviour for every non-empty map.
- `uint16_t` and `uint8_t` casts are written out where the source makes them (`Data.UInt16`, `SaveLoad.Bytes`, `Types` code casts). The `uint32_t` step delta is an `int` in `[0, 2^32)`.
- `find_building` is modelled once, as `Search.FindBuilding`. Its `const` and non-`const` overloads are the same scan.

## Findings

| source | as written | input that shows it | evidently intended | confidence | as-written member | corrected member |
|---|---|---|---|---|---|---|
| core/src/sim.cpp:609-640 | `MAP` assigns `width*height` zeros to `tiles`, `blocked`, `res_kind` and `res_amount` but not `res_max`, which stays empty in the fresh `Sim ns`; `RESMAX` then writes `ns.map.res_max[idx(width,x,y)]` | any save of a map with `width, height > 0`, such as the 1x1 map saved by `save_game` (whose `RESMAX` record is always written) | `MAP` sizes `res_max` like the other four vectors, so loading restores it | not executed | Reload.LoadAsWrittenOverflows | Reload.SaveLoadRoundTrip |
