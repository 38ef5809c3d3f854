/** The read-only scans of the simulation: nearest drop-off, the resource and
    stand tiles next to a tile, the nearest reachable resource, look-up of a
    building or unit by id, the placement test and the spawn-ring search.
    Each scan is a loop (a method) proved equal to a function that states
    which element it finds. */
module Search {
  import opened Grid
  import opened Types

  /** `std::numeric_limits<int>::max()`, the starting "best" of the nearest-X scans. */
  const IntMax := 0x7FFF_FFFF

  /** `int bestd = 1e9`, the starting "best" of the stand-tile scan. */
  const StandFar := 1_000_000_000

  /** The `if (d < best) { best = d; ... }` scan over candidate distances
      (`None` = not a candidate), started from `init`: the best distance and
      the position holding it, -1 when no candidate beats `init`. The
      position is the FIRST candidate of minimum distance. */
  function MinScan(ds: seq<Option<int>>, init: int): (r: (int, int))
    ensures -1 <= r.1 < |ds|
    ensures r.1 < 0 ==> r.0 == init
    ensures r.1 >= 0 ==> ds[r.1] == Some(r.0) && r.0 < init
    ensures forall k :: 0 <= k < |ds| && ds[k].Some? ==> ds[k].value >= r.0
    ensures forall k :: 0 <= k < r.1 && ds[k].Some? ==> ds[k].value > r.0
  {
    if ds == [] then (init, -1)
    else
      var pre := ds[..|ds| - 1];
      var r0 := MinScan(pre, init);
      assert forall k :: 0 <= k < |pre| ==> ds[k] == pre[k];
      var last := ds[|ds| - 1];
      if last.Some? && last.value < r0.0 then (last.value, |ds| - 1) else r0
  }

  /** One more step of the scan. */
  lemma MinScanStep(ds: seq<Option<int>>, init: int, i: int)
    requires 0 <= i < |ds|
    ensures MinScan(ds[..i + 1], init) ==
      var r := MinScan(ds[..i], init);
      if ds[i].Some? && ds[i].value < r.0 then (ds[i].value, i) else r
  {
    assert ds[..i + 1][..i] == ds[..i];
  }

  /** The first true entry, or -1: the scans that stop at the first match. */
  function First(bs: seq<bool>): (j: int)
    ensures -1 <= j < |bs|
    ensures j >= 0 ==> bs[j]
    ensures forall k :: 0 <= k < |bs| && (j < 0 || k < j) ==> !bs[k]
  {
    if bs == [] then -1
    else if bs[0] then 0
    else
      var j := First(bs[1..]);
      if j < 0 then -1 else j + 1
  }

  /** The first set flag is the one with none set before it. */
  lemma FirstIs(bs: seq<bool>, t: int)
    requires 0 <= t < |bs| && bs[t] && forall k :: 0 <= k < t ==> !bs[k]
    ensures First(bs) == t
  {
  }

  lemma FirstNone(bs: seq<bool>)
    requires forall k :: 0 <= k < |bs| ==> !bs[k]
    ensures First(bs) == -1
  {
  }

  // ---------------------------------------------------------------- drop-offs

  function DropoffDistances(ds: seq<Vec2i>, from: Vec2i): (r: seq<Option<int>>)
    ensures |r| == |ds| && forall k :: 0 <= k < |ds| ==> r[k] == Some(Manhattan(ds[k], from))
  {
    seq(|ds|, k requires 0 <= k < |ds| => Some(Manhattan(ds[k], from)))
  }

  /** The position `nearest_dropoff` settles on: the first drop-off of minimum
      Manhattan distance, or -1 when there is none closer than `IntMax`. */
  function DropoffIndex(ds: seq<Vec2i>, from: Vec2i): (j: int)
    ensures -1 <= j < |ds|
    ensures j < 0 <==> forall k :: 0 <= k < |ds| ==> Manhattan(ds[k], from) >= IntMax
    ensures j >= 0 ==> forall k :: 0 <= k < |ds| ==> Manhattan(ds[k], from) >= Manhattan(ds[j], from)
    ensures j >= 0 ==> forall k :: 0 <= k < j ==> Manhattan(ds[k], from) > Manhattan(ds[j], from)
  {
    var dist := DropoffDistances(ds, from);
    var r := MinScan(dist, IntMax);
    assert r.1 >= 0 ==> dist[r.1] == Some(Manhattan(ds[r.1], from));
    r.1
  }

  /** `nearest_dropoff`: the query tile itself when the list is empty (or
      every drop-off is `IntMax` or more away). */
  function NearestDropoffOf(ds: seq<Vec2i>, from: Vec2i): (r: Vec2i)
    ensures ds == [] ==> r == from
    ensures DropoffIndex(ds, from) >= 0 ==> r in ds
    ensures r == from || r in ds
  {
    var j := DropoffIndex(ds, from);
    if j < 0 then from else ds[j]
  }

  /** A nearer drop-off never exists. */
  lemma NearestDropoffIsNearest(ds: seq<Vec2i>, from: Vec2i, d: Vec2i)
    requires d in ds && Manhattan(d, from) < IntMax
    ensures NearestDropoffOf(ds, from) in ds
    ensures Manhattan(NearestDropoffOf(ds, from), from) <= Manhattan(d, from)
  {
    var k :| 0 <= k < |ds| && ds[k] == d;
    assert DropoffIndex(ds, from) >= 0;
  }

  /** Standing on a drop-off, that drop-off is the nearest one. */
  lemma NearestDropoffIsZero(ds: seq<Vec2i>, p: Vec2i)
    requires p in ds
    ensures NearestDropoffOf(ds, p) == p
  {
    NearestDropoffIsNearest(ds, p, p);
  }

  /** The loop of `nearest_dropoff`. */
  method NearestDropoff(ds: seq<Vec2i>, from: Vec2i) returns (ret: Vec2i)
    ensures ret == NearestDropoffOf(ds, from)
  {
    ghost var dist := DropoffDistances(ds, from);
    var best := IntMax;
    ret := from;
    ghost var j := -1;
    var i := 0;
    while i < |ds|
      invariant 0 <= i <= |ds|
      invariant (best, j) == MinScan(dist[..i], IntMax)
      invariant ret == if j < 0 then from else ds[j]
    {
      MinScanStep(dist, IntMax, i);
      var d := Manhattan(ds[i], from);
      if d < best {
        best, ret, j := d, ds[i], i;
      }
      i := i + 1;
    }
    assert dist[..i] == dist;
  }

  // ------------------------------------------------------ the eight neighbours

  /** The neighbours in the order the `dy` / `dx` loops visit them: row by
      row, left to right; position 4 is the tile itself. */
  function Around(p: Vec2i, t: int): Vec2i
  {
    Vec2i(p.x + t % 3 - 1, p.y + t / 3 - 1)
  }

  /** The scan position of a tile near p. */
  function ScanPos(p: Vec2i, q: Vec2i): int
  {
    (q.y - p.y + 1) * 3 + (q.x - p.x + 1)
  }

  lemma AroundOf(p: Vec2i, dx: int, dy: int)
    requires -1 <= dx <= 1 && -1 <= dy <= 1
    ensures 0 <= (dy + 1) * 3 + dx + 1 < 9
    ensures Around(p, (dy + 1) * 3 + dx + 1) == Vec2i(p.x + dx, p.y + dy)
    ensures (dy + 1) * 3 + dx + 1 == 4 <==> dx == 0 && dy == 0
  {
    DivModUnique((dy + 1) * 3 + dx + 1, 3, dy + 1, dx + 1);
  }

  /** Positions 0..8 other than 4 are exactly the eight king-move neighbours. */
  lemma AroundIsNeighbour(p: Vec2i, t: int)
    requires 0 <= t < 9
    ensures ScanPos(p, Around(p, t)) == t
    ensures t != 4 <==> Chebyshev(p, Around(p, t)) == 1
  {
    var dx, dy := t % 3 - 1, t / 3 - 1;
    assert t == (dy + 1) * 3 + dx + 1;
    AroundOf(p, dx, dy);
  }

  lemma NeighbourIsAround(p: Vec2i, q: Vec2i)
    requires Chebyshev(p, q) == 1
    ensures 0 <= ScanPos(p, q) < 9 && ScanPos(p, q) != 4 && Around(p, ScanPos(p, q)) == q
  {
    AroundOf(p, q.x - p.x, q.y - p.y);
  }

  function AdjacentFlags(m: Map, p: Vec2i, kind: ResourceKind): (bs: seq<bool>)
    requires Sized(m)
    ensures |bs| == 9 && forall t :: 0 <= t < 9 ==> bs[t] == (t != 4 && IsResourceTile(m, Around(p, t), kind))
  {
    seq(9, t => t != 4 && IsResourceTile(m, Around(p, t), kind))
  }

  /** `find_adjacent_resource_at`: the first of the eight neighbours, in scan
      order, holding a positive amount of `kind`; none when no neighbour does. */
  function AdjacentResourceOf(m: Map, p: Vec2i, kind: ResourceKind): (r: Option<Vec2i>)
    requires Sized(m)
    ensures r.Some? ==> IsResourceTile(m, r.value, kind) && Chebyshev(p, r.value) == 1
    ensures r.Some? ==> forall q :: Chebyshev(p, q) == 1 && ScanPos(p, q) < ScanPos(p, r.value) ==> !IsResourceTile(m, q, kind)
    ensures r.None? ==> forall q :: Chebyshev(p, q) == 1 ==> !IsResourceTile(m, q, kind)
  {
    var bs := AdjacentFlags(m, p, kind);
    var j := First(bs);
    assert j >= 0 ==> ScanPos(p, Around(p, j)) == j && Chebyshev(p, Around(p, j)) == 1 by {
      if j >= 0 { AroundIsNeighbour(p, j); }
    }
    forall q | Chebyshev(p, q) == 1 && (j < 0 || ScanPos(p, q) < j)
      ensures !IsResourceTile(m, q, kind)
    {
      NeighbourIsAround(p, q);
    }
    if j < 0 then None else Some(Around(p, j))
  }

  /** The loop of `find_adjacent_resource_at`. */
  method FindAdjacentResource(m: Map, p: Vec2i, kind: ResourceKind) returns (r: Option<Vec2i>)
    requires Sized(m)
    ensures r == AdjacentResourceOf(m, p, kind)
  {
    ghost var bs := AdjacentFlags(m, p, kind);
    var dy := -1;
    while dy <= 1
      invariant -1 <= dy <= 2
      invariant forall t :: 0 <= t < (dy + 1) * 3 ==> !bs[t]
    {
      r := AdjacentRow(m, p, kind, dy);
      if r.Some? {
        return;
      }
      dy := dy + 1;
    }
    FirstNone(bs);
    return None;
  }

  /** The inner loop of `find_adjacent_resource_at`, over row dy of the
      neighbourhood: the first resource neighbour when it lies in this row. */
  method AdjacentRow(m: Map, p: Vec2i, kind: ResourceKind, dy: int) returns (r: Option<Vec2i>)
    requires Sized(m) && -1 <= dy <= 1
    requires forall t :: 0 <= t < (dy + 1) * 3 ==> !AdjacentFlags(m, p, kind)[t]
    ensures r.Some? ==> r == AdjacentResourceOf(m, p, kind)
    ensures r.None? ==> forall t :: 0 <= t < (dy + 2) * 3 ==> !AdjacentFlags(m, p, kind)[t]
  {
    ghost var bs := AdjacentFlags(m, p, kind);
    var dx := -1;
    while dx <= 1
      invariant -1 <= dx <= 2
      invariant forall t :: 0 <= t < (dy + 1) * 3 + dx + 1 ==> !bs[t]
    {
      AroundOf(p, dx, dy);
      if !(dx == 0 && dy == 0) {
        var q := Vec2i(p.x + dx, p.y + dy);
        if IsResourceTile(m, q, kind) {
          FirstIs(bs, (dy + 1) * 3 + dx + 1);
          return Some(q);
        }
      }
      dx := dx + 1;
    }
    return None;
  }

  // ------------------------------------------------------------ stand tiles

  function StandDistances(m: Map, res: Vec2i, from: Vec2i): (ds: seq<Option<int>>)
    requires TerrainSized(m)
    ensures |ds| == 9
  {
    seq(9, t => if t != 4 && Walkable(m, Around(res, t)) then Some(Manhattan(Around(res, t), from)) else None)
  }

  lemma StandDistanceAt(m: Map, res: Vec2i, from: Vec2i, t: int)
    requires TerrainSized(m) && 0 <= t < 9
    ensures StandDistances(m, res, from)[t] ==
      (if t != 4 && Walkable(m, Around(res, t)) then Some(Manhattan(Around(res, t), from)) else None)
  {
  }

  /** `find_stand_tile_for_resource`: the walkable neighbour of `res` nearest
      to `from` (the first in scan order among the nearest), none when no
      walkable neighbour is closer than `StandFar`. */
  function StandTileOf(m: Map, res: Vec2i, from: Vec2i): (r: Option<Vec2i>)
    requires TerrainSized(m)
    ensures r.Some? ==> Walkable(m, r.value) && Chebyshev(res, r.value) == 1 && Manhattan(r.value, from) < StandFar
    ensures r.Some? ==> forall q :: Chebyshev(res, q) == 1 && Walkable(m, q) ==> Manhattan(q, from) >= Manhattan(r.value, from)
    ensures r.Some? ==> forall q :: Chebyshev(res, q) == 1 && Walkable(m, q) && ScanPos(res, q) < ScanPos(res, r.value) ==>
              Manhattan(q, from) > Manhattan(r.value, from)
    ensures r.None? ==> forall q :: Chebyshev(res, q) == 1 && Walkable(m, q) ==> Manhattan(q, from) >= StandFar
  {
    var ds := StandDistances(m, res, from);
    var (d, j) := MinScan(ds, StandFar);
    assert j >= 0 ==> ScanPos(res, Around(res, j)) == j && Chebyshev(res, Around(res, j)) == 1 by {
      if j >= 0 { AroundIsNeighbour(res, j); }
    }
    forall q | Chebyshev(res, q) == 1 && Walkable(m, q)
      ensures Manhattan(q, from) >= d
      ensures j >= 0 && ScanPos(res, q) < j ==> Manhattan(q, from) > d
    {
      NeighbourIsAround(res, q);
      StandDistanceAt(m, res, from, ScanPos(res, q));
    }
    if j < 0 then None else Some(Around(res, j))
  }

  /** The body of the `dx` loop of `find_stand_tile_for_resource`: offers
      neighbour (dx, dy) to the running minimum. */
  method StandStep(m: Map, res: Vec2i, from: Vec2i, dx: int, dy: int, ghost t: int,
                   best: Vec2i, bestd: int, found: bool, ghost j: int)
    returns (best': Vec2i, bestd': int, found': bool, ghost j': int)
    requires TerrainSized(m) && 0 <= t < 9
    requires Around(res, t) == Vec2i(res.x + dx, res.y + dy) && (t == 4 <==> dx == 0 && dy == 0)
    requires (bestd, j) == MinScan(StandDistances(m, res, from)[..t], StandFar)
    requires found == (j >= 0) && best == if j >= 0 then Around(res, j) else from
    ensures (bestd', j') == MinScan(StandDistances(m, res, from)[..t + 1], StandFar)
    ensures found' == (j' >= 0) && best' == if j' >= 0 then Around(res, j') else from
  {
    ghost var ds := StandDistances(m, res, from);
    MinScanStep(ds, StandFar, t);
    StandDistanceAt(m, res, from, t);
    best', bestd', found', j' := best, bestd, found, j;
    if !(dx == 0 && dy == 0) {
      var s := Vec2i(res.x + dx, res.y + dy);
      if Walkable(m, s) {
        var d := Manhattan(s, from);
        if d < bestd {
          bestd', best', found', j' := d, s, true, t;
        }
      }
    }
  }

  /** The loop of `find_stand_tile_for_resource`. */
  method FindStandTile(m: Map, res: Vec2i, from: Vec2i) returns (r: Option<Vec2i>)
    requires TerrainSized(m)
    ensures r == StandTileOf(m, res, from)
  {
    ghost var ds := StandDistances(m, res, from);
    var best := from;
    var bestd := StandFar;
    var found := false;
    ghost var j := -1;
    ghost var scanned := 0;
    assert ds[..0] == [];
    var dy := -1;
    while dy <= 1
      invariant -1 <= dy <= 2 && scanned == (dy + 1) * 3
      invariant (bestd, j) == MinScan(ds[..scanned], StandFar)
      invariant found == (j >= 0) && best == if j >= 0 then Around(res, j) else from
    {
      var dx := -1;
      while dx <= 1
        invariant -1 <= dx <= 2 && scanned == (dy + 1) * 3 + dx + 1
        invariant (bestd, j) == MinScan(ds[..scanned], StandFar)
        invariant found == (j >= 0) && best == if j >= 0 then Around(res, j) else from
      {
        AroundOf(res, dx, dy);
        best, bestd, found, j := StandStep(m, res, from, dx, dy, scanned, best, bestd, found, j);
        dx, scanned := dx + 1, scanned + 1;
      }
      dy := dy + 1;
    }
    assert ds[..scanned] == ds;
    r := if found then Some(best) else None;
    StandTileOfScan(m, res, from);
  }

  lemma StandTileOfScan(m: Map, res: Vec2i, from: Vec2i)
    requires TerrainSized(m)
    ensures var j := MinScan(StandDistances(m, res, from), StandFar).1;
      StandTileOf(m, res, from) == if j < 0 then None else Some(Around(res, j))
  {
  }

  // ------------------------------------------------------- nearest resource

  /** Cells the `y` / `x` loops over the map visit: none unless both sides are positive. */
  function ScanCells(m: Map): nat
  {
    if m.width > 0 && m.height > 0 then m.width * m.height else 0
  }

  /** A tile the nearest-resource scan accepts: it holds a positive amount of
      `kind` and has a stand tile. */
  predicate Harvestable(m: Map, q: Vec2i, from: Vec2i, kind: ResourceKind)
    requires Sized(m)
  {
    IsResourceTile(m, q, kind) && StandTileOf(m, q, from).Some?
  }

  function ResourceDistances(m: Map, from: Vec2i, kind: ResourceKind): (ds: seq<Option<int>>)
    requires Sized(m)
    ensures |ds| == ScanCells(m)
  {
    seq(ScanCells(m), i requires 0 <= i < ScanCells(m) =>
      if Harvestable(m, CoordOf(m.width, i), from, kind) then Some(Manhattan(CoordOf(m.width, i), from)) else None)
  }

  lemma ResourceDistanceAt(m: Map, from: Vec2i, kind: ResourceKind, i: int)
    requires Sized(m) && 0 <= i < ScanCells(m)
    ensures m.width > 0
    ensures ResourceDistances(m, from, kind)[i] ==
      (if Harvestable(m, CoordOf(m.width, i), from, kind) then Some(Manhattan(CoordOf(m.width, i), from)) else None)
  {
  }

  /** `find_nearest_resource`: the harvestable tile of `kind` nearest to `from`
      (first in row-major order among the nearest) with its stand tile; none
      when no harvestable tile is closer than `IntMax`. */
  function NearestResourceOf(m: Map, from: Vec2i, kind: ResourceKind): (r: Option<(Vec2i, Vec2i)>)
    requires Sized(m)
    ensures r.Some? ==> Harvestable(m, r.value.0, from, kind) && StandTileOf(m, r.value.0, from) == Some(r.value.1)
    ensures r.Some? ==> forall q :: Harvestable(m, q, from, kind) ==> Manhattan(q, from) >= Manhattan(r.value.0, from)
    ensures r.None? ==> forall q :: Harvestable(m, q, from, kind) ==> Manhattan(q, from) >= IntMax
  {
    var ds := ResourceDistances(m, from, kind);
    var (d, j) := MinScan(ds, IntMax);
    forall q | Harvestable(m, q, from, kind)
      ensures Manhattan(q, from) >= d
    {
      IdxInRange(m.width, m.height, q.x, q.y);
      var i := Idx(m.width, q.x, q.y);
      IdxCoords(m.width, q.x, q.y);
      ResourceDistanceAt(m, from, kind, i);
    }
    if j < 0 then None
    else
      var c := CoordOf(m.width, j);
      Some((c, StandTileOf(m, c, from).value))
  }

  /** The body of the `x` loop of `find_nearest_resource`: offers tile
      (x, y) to the running minimum when it holds `kind` and has a stand tile. */
  method ResourceStep(m: Map, from: Vec2i, kind: ResourceKind, x: int, y: int, i: int,
                      best: int, bestRes: Vec2i, bestStand: Vec2i, any: bool, ghost j: int)
    returns (best': int, bestRes': Vec2i, bestStand': Vec2i, any': bool, ghost j': int)
    requires Sized(m) && InGrid(m.width, m.height, x, y)
    requires i == Idx(m.width, x, y) && 0 <= i < ScanCells(m)
    requires (best, j) == MinScan(ResourceDistances(m, from, kind)[..i], IntMax)
    requires any == (j >= 0)
    requires j >= 0 ==> bestRes == CoordOf(m.width, j) && Some(bestStand) == StandTileOf(m, bestRes, from)
    ensures (best', j') == MinScan(ResourceDistances(m, from, kind)[..i + 1], IntMax)
    ensures any' == (j' >= 0)
    ensures j' >= 0 ==> bestRes' == CoordOf(m.width, j') && Some(bestStand') == StandTileOf(m, bestRes', from)
  {
    IdxCoords(m.width, x, y);
    ghost var ds := ResourceDistances(m, from, kind);
    MinScanStep(ds, IntMax, i);
    ResourceDistanceAt(m, from, kind, i);
    best', bestRes', bestStand', any', j' := best, bestRes, bestStand, any, j;
    if m.resKind[i] == ResourceCode(kind) && m.resAmount[i] > 0 {
      var stand := FindStandTile(m, Vec2i(x, y), from);
      if stand.Some? {
        var d := Abs(x - from.x) + Abs(y - from.y);
        if d < best {
          best', bestRes', bestStand', any', j' := d, Vec2i(x, y), stand.value, true, i;
        }
      }
    }
  }

  /** One pass of the `x` loop of `find_nearest_resource`, over row y,
      whose cells start at flat index i0. */
  method ResourceRow(m: Map, from: Vec2i, kind: ResourceKind, y: int, i0: int,
                     best: int, bestRes: Vec2i, bestStand: Vec2i, any: bool, ghost j: int)
    returns (best': int, bestRes': Vec2i, bestStand': Vec2i, any': bool, ghost j': int)
    requires Sized(m) && m.width > 0 && 0 <= y < m.height
    requires i0 == y * m.width && 0 <= i0 && i0 + m.width <= ScanCells(m)
    requires (best, j) == MinScan(ResourceDistances(m, from, kind)[..i0], IntMax)
    requires any == (j >= 0)
    requires j >= 0 ==> bestRes == CoordOf(m.width, j) && Some(bestStand) == StandTileOf(m, bestRes, from)
    ensures (best', j') == MinScan(ResourceDistances(m, from, kind)[..i0 + m.width], IntMax)
    ensures any' == (j' >= 0)
    ensures j' >= 0 ==> bestRes' == CoordOf(m.width, j') && Some(bestStand') == StandTileOf(m, bestRes', from)
  {
    best', bestRes', bestStand', any', j' := best, bestRes, bestStand, any, j;
    var x, i := 0, i0;
    while x < m.width
      invariant 0 <= x <= m.width && i == i0 + x
      invariant (best', j') == MinScan(ResourceDistances(m, from, kind)[..i], IntMax)
      invariant any' == (j' >= 0)
      invariant j' >= 0 ==> bestRes' == CoordOf(m.width, j') && Some(bestStand') == StandTileOf(m, bestRes', from)
    {
      best', bestRes', bestStand', any', j' := ResourceStep(m, from, kind, x, y, i, best', bestRes', bestStand', any', j');
      x, i := x + 1, i + 1;
    }
  }

  /** The `y` loop of `find_nearest_resource` over a non-empty grid. */
  method ResourceRows(m: Map, from: Vec2i, kind: ResourceKind)
    returns (best: int, bestRes: Vec2i, bestStand: Vec2i, any: bool, ghost j: int)
    requires Sized(m) && m.width > 0 && m.height > 0
    ensures (best, j) == MinScan(ResourceDistances(m, from, kind), IntMax)
    ensures any == (j >= 0)
    ensures j >= 0 ==> bestRes == CoordOf(m.width, j) && Some(bestStand) == StandTileOf(m, bestRes, from)
  {
    var w, h := m.width, m.height;
    ghost var ds := ResourceDistances(m, from, kind);
    best, bestRes, bestStand, any, j := IntMax, from, from, false, -1;
    assert ds[..0] == [];
    var y, i := 0, 0;
    while y < h
      invariant 0 <= y <= h && i == y * w
      invariant (best, j) == MinScan(ds[..i], IntMax)
      invariant any == (j >= 0)
      invariant j >= 0 ==> bestRes == CoordOf(w, j) && Some(bestStand) == StandTileOf(m, bestRes, from)
    {
      RowStart(w, h, y);
      best, bestRes, bestStand, any, j := ResourceRow(m, from, kind, y, i, best, bestRes, bestStand, any, j);
      i, y := i + w, y + 1;
    }
    assert i == |ds| by { assert h * w == w * h; }
    assert ds[..i] == ds;
  }

  /** `find_nearest_resource`. */
  method FindNearestResource(m: Map, from: Vec2i, kind: ResourceKind) returns (r: Option<(Vec2i, Vec2i)>)
    requires Sized(m)
    ensures r == NearestResourceOf(m, from, kind)
  {
    if m.width <= 0 || m.height <= 0 {
      // neither loop runs
      assert ResourceDistances(m, from, kind) == [];
      return None;
    }
    var best, bestRes, bestStand, any, j := ResourceRows(m, from, kind);
    r := if any then Some((bestRes, bestStand)) else None;
    NearestResourceOfScan(m, from, kind);
  }

  lemma NearestResourceOfScan(m: Map, from: Vec2i, kind: ResourceKind)
    requires Sized(m) && m.width > 0
    ensures var j := MinScan(ResourceDistances(m, from, kind), IntMax).1;
      NearestResourceOf(m, from, kind) ==
        if j < 0 then None
        else Some((CoordOf(m.width, j), StandTileOf(m, CoordOf(m.width, j), from).value))
  {
  }

  // ------------------------------------------------------------------ look-ups

  /** The position of the first unit with this id (the `for ... if (e.id == u)`
      scans), -1 when none has it. */
  function UnitIndex(us: seq<Unit>, id: int): (j: int)
    ensures -1 <= j < |us|
    ensures j >= 0 ==> us[j].id == id
    ensures forall k :: 0 <= k < |us| && (j < 0 || k < j) ==> us[k].id != id
  {
    var hits := seq(|us|, k requires 0 <= k < |us| => us[k].id == id);
    var j := First(hits);
    assert forall k :: 0 <= k < |us| ==> hits[k] == (us[k].id == id);
    j
  }

  /** The position of the first building with this id, -1 when none has it. */
  function BuildingIndex(bs: seq<Building>, id: int): (j: int)
    ensures -1 <= j < |bs|
    ensures j >= 0 ==> bs[j].id == id
    ensures forall k :: 0 <= k < |bs| && (j < 0 || k < j) ==> bs[k].id != id
  {
    var hits := seq(|bs|, k requires 0 <= k < |bs| => bs[k].id == id);
    var j := First(hits);
    assert forall k :: 0 <= k < |bs| ==> hits[k] == (bs[k].id == id);
    j
  }

  /** `find_building`: the loop that returns the first match (its position
      here, -1 for `nullptr`). */
  method FindBuilding(bs: seq<Building>, id: int) returns (j: int)
    ensures j == BuildingIndex(bs, id)
  {
    var i := 0;
    while i < |bs|
      invariant 0 <= i <= |bs|
      invariant forall k :: 0 <= k < i ==> bs[k].id != id
    {
      if bs[i].id == id {
        return i;
      }
      i := i + 1;
    }
    return -1;
  }

  /** The unit loop of `order_move` and `order_gather`, which acts on the
      first unit with the id. */
  method FindUnit(us: seq<Unit>, id: int) returns (j: int)
    ensures j == UnitIndex(us, id)
  {
    var i := 0;
    while i < |us|
      invariant 0 <= i <= |us|
      invariant forall k :: 0 <= k < i ==> us[k].id != id
    {
      if us[i].id == id {
        return i;
      }
      i := i + 1;
    }
    return -1;
  }

  /** The first drop-off entry equal to p (`std::find_if`), -1 when absent. */
  function DropoffAt(ds: seq<Vec2i>, p: Vec2i): (j: int)
    ensures -1 <= j < |ds|
    ensures j >= 0 ==> ds[j] == p
    ensures j < 0 <==> p !in ds
    ensures forall k :: 0 <= k < |ds| && k < j ==> ds[k] != p
  {
    var bs := seq(|ds|, k requires 0 <= k < |ds| => ds[k] == p);
    var j := First(bs);
    assert forall k :: 0 <= k < |ds| ==> bs[k] == (ds[k] == p);
    j
  }

  // ----------------------------------------------------------------- placement

  /** A tile a building may cover: in bounds, unoccupied and plain grass. */
  predicate Free(m: Map, p: Vec2i)
    requires TerrainSized(m)
  {
    InBounds(m, p) && m.blocked[Ridx(m, p)] == 0 && m.tiles[Ridx(m, p)] == TileGrass
  }

  /** Every tile of the w x h footprint at `at` is free. */
  ghost predicate FootprintFree(m: Map, at: Vec2i, w: int, h: int)
    requires TerrainSized(m)
  {
    forall p :: InRect(p, at, w, h) ==> Free(m, p)
  }

  /** `can_place_building`: the footprint loops, which stop at the first tile
      that is off the map, blocked or not grass. */
  method CanPlaceBuilding(m: Map, bt: BuildingType, x: int, y: int) returns (ok: bool)
    requires TerrainSized(m)
    ensures ok == FootprintFree(m, Vec2i(x, y), bt.w, bt.h)
  {
    var at := Vec2i(x, y);
    var j := 0;
    while j < bt.h
      invariant 0 <= j <= Max(bt.h, 0)
      invariant forall p :: InRect(p, at, bt.w, j) ==> Free(m, p)
    {
      var i := 0;
      while i < bt.w
        invariant 0 <= i <= Max(bt.w, 0)
        invariant forall p :: InRect(p, at, bt.w, j) ==> Free(m, p)
        invariant forall p :: InRect(p, at, i, j + 1) ==> Free(m, p)
      {
        var q := Vec2i(x + i, y + j);
        if !InBounds(m, q) || m.blocked[Ridx(m, q)] != 0 || m.tiles[Ridx(m, q)] != TileGrass {
          assert InRect(q, at, bt.w, bt.h) && !Free(m, q);
          return false;
        }
        i := i + 1;
      }
      j := j + 1;
    }
    forall p | InRect(p, at, bt.w, bt.h)
      ensures Free(m, p)
    {
      assert InRect(p, at, bt.w, j);
    }
    return true;
  }

  // ---------------------------------------------------------- spawn-ring search

  /** The first walkable tile of row y between columns x and x1 (inclusive). */
  function RowScan(m: Map, x: int, x1: int, y: int): (r: Option<Vec2i>)
    requires TerrainSized(m)
    ensures r.Some? ==> r.value.y == y && x <= r.value.x <= x1 && Walkable(m, r.value)
    ensures r.Some? ==> forall k :: x <= k < r.value.x ==> !Walkable(m, Vec2i(k, y))
    ensures r.None? ==> forall k :: x <= k <= x1 ==> !Walkable(m, Vec2i(k, y))
    decreases x1 - x
  {
    if x > x1 then None
    else if Walkable(m, Vec2i(x, y)) then Some(Vec2i(x, y))
    else RowScan(m, x + 1, x1, y)
  }

  /** No tile of the rectangle [x0, x1] x [y0, y1] is walkable. */
  ghost predicate NoneWalkable(m: Map, x0: int, x1: int, y0: int, y1: int)
    requires TerrainSized(m)
  {
    forall p: Vec2i :: x0 <= p.x <= x1 && y0 <= p.y <= y1 ==> !Walkable(m, p)
  }

  /** The first walkable tile, row by row, of the rectangle [x0, x1] x [y, y1]. */
  function RectScan(m: Map, x0: int, x1: int, y: int, y1: int): (r: Option<Vec2i>)
    requires TerrainSized(m)
    ensures r.Some? ==> x0 <= r.value.x <= x1 && y <= r.value.y <= y1 && Walkable(m, r.value)
    ensures r.Some? ==> NoneWalkable(m, x0, x1, y, r.value.y - 1)
    ensures r.Some? ==> forall k :: x0 <= k < r.value.x ==> !Walkable(m, Vec2i(k, r.value.y))
    ensures r.None? ==> NoneWalkable(m, x0, x1, y, y1)
    decreases y1 - y
  {
    if y > y1 then None
    else
      var row := RowScan(m, x0, x1, y);
      if row.Some? then
        row
      else
        var r := RectScan(m, x0, x1, y + 1, y1);
        assert forall p: Vec2i :: x0 <= p.x <= x1 && p.y == y ==> !Walkable(m, p);
        r
  }

  /** The rectangle ring r of the production spawn search scans: the
      footprint of b grown by r + 1 tiles on every side. */
  function RingX0(b: Building, r: int): int { b.tile.x - 1 - r }
  function RingX1(b: Building, r: int): int { b.tile.x + b.w + r }
  function RingY0(b: Building, r: int): int { b.tile.y - 1 - r }
  function RingY1(b: Building, r: int): int { b.tile.y + b.h + r }

  function RingScan(m: Map, b: Building, r: int): Option<Vec2i>
    requires TerrainSized(m)
  {
    RectScan(m, RingX0(b, r), RingX1(b, r), RingY0(b, r), RingY1(b, r))
  }

  /** The rings from `ring` to 3 in turn: the first ring holding a walkable
      tile, with that ring's first walkable tile. */
  function SpawnScan(m: Map, b: Building, ring: int): (r: Option<(int, Vec2i)>)
    requires TerrainSized(m) && 0 <= ring
    ensures r.Some? ==> ring <= r.value.0 < 4 && RingScan(m, b, r.value.0) == Some(r.value.1)
    ensures r.Some? ==> forall k :: ring <= k < r.value.0 ==> RingScan(m, b, k).None?
    ensures r.None? ==> forall k :: ring <= k < 4 ==> RingScan(m, b, k).None?
    decreases 4 - ring
  {
    if ring >= 4 then None
    else
      var t := RingScan(m, b, ring);
      if t.Some? then Some((ring, t.value)) else SpawnScan(m, b, ring + 1)
  }

  /** Where production spawns a unit trained at b: the first walkable tile,
      row by row, of the smallest of the four rings that holds one; the
      footprint's corner b.tile when none of them does. */
  function SpawnTileOf(m: Map, b: Building): (t: Vec2i)
    requires TerrainSized(m)
    ensures t != b.tile ==> Walkable(m, t)
    ensures (forall k :: 0 <= k < 4 ==> RingScan(m, b, k).None?) ==> t == b.tile
  {
    var r := SpawnScan(m, b, 0);
    if r.Some? then r.value.1 else b.tile
  }

  /** The spawn tile found lies within ring 3 and no walkable tile of a smaller
      ring exists; if none is found, no tile of ring 3 is walkable. */
  lemma SpawnTileMinimal(m: Map, b: Building)
    requires TerrainSized(m)
    ensures var r := SpawnScan(m, b, 0);
      && (r.Some? ==> (var t := r.value.1;
            Walkable(m, t) && RingX0(b, 3) <= t.x <= RingX1(b, 3) && RingY0(b, 3) <= t.y <= RingY1(b, 3)
            && forall k :: 0 <= k < r.value.0 ==>
                 NoneWalkable(m, RingX0(b, k), RingX1(b, k), RingY0(b, k), RingY1(b, k))))
      && (r.None? ==> NoneWalkable(m, RingX0(b, 3), RingX1(b, 3), RingY0(b, 3), RingY1(b, 3)))
  {
    var r := SpawnScan(m, b, 0);
    if r.Some? {
      forall k | 0 <= k < r.value.0
        ensures NoneWalkable(m, RingX0(b, k), RingX1(b, k), RingY0(b, k), RingY1(b, k))
      {
        assert RingScan(m, b, k).None?;
      }
    } else {
      assert RingScan(m, b, 3).None?;
    }
  }

  /** The `x` loop of one row of the spawn search. */
  method SpawnRow(m: Map, x0: int, x1: int, y: int) returns (r: Option<Vec2i>)
    requires TerrainSized(m)
    ensures r == RowScan(m, x0, x1, y)
  {
    var x := x0;
    while x <= x1
      invariant x0 <= x
      invariant RowScan(m, x, x1, y) == RowScan(m, x0, x1, y)
      decreases x1 - x
    {
      if !InBounds(m, Vec2i(x, y)) {
        x := x + 1;
        continue;
      }
      if Walkable(m, Vec2i(x, y)) {
        return Some(Vec2i(x, y));
      }
      x := x + 1;
    }
    return None;
  }

  /** The `y` loop of one ring of the spawn search. */
  method SpawnRing(m: Map, b: Building, ring: int) returns (r: Option<Vec2i>)
    requires TerrainSized(m)
    ensures r == RingScan(m, b, ring)
  {
    var x0, x1, y1 := RingX0(b, ring), RingX1(b, ring), RingY1(b, ring);
    var y := RingY0(b, ring);
    while y <= y1
      invariant RingY0(b, ring) <= y
      invariant RectScan(m, x0, x1, y, y1) == RingScan(m, b, ring)
      decreases y1 - y
    {
      r := SpawnRow(m, x0, x1, y);
      if r.Some? {
        return;
      }
      y := y + 1;
    }
    return None;
  }

  /** The ring loop of production, which stops at the first walkable tile. */
  method FindSpawnTile(m: Map, b: Building) returns (spawn: Vec2i)
    requires TerrainSized(m)
    ensures spawn == SpawnTileOf(m, b)
  {
    spawn := b.tile;
    var found := false;
    var ring := 0;
    while ring < 4 && !found
      invariant 0 <= ring <= 4
      invariant !found ==> SpawnScan(m, b, ring) == SpawnScan(m, b, 0) && spawn == b.tile
      invariant found ==> SpawnScan(m, b, 0).Some? && SpawnScan(m, b, 0).value.1 == spawn
      decreases 4 - ring, if found then 0 else 1
    {
      var t := SpawnRing(m, b, ring);
      if t.Some? {
        spawn, found := t.value, true;
      }
      ring := ring + 1;
    }
  }
}
