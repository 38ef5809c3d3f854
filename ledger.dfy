/** The map updates of the simulation: taking from a tile's resource stock
    (with its exhaustion transition), filling the resource ledger from the
    terrain, and marking a building footprint blocked or free. */
module Ledger {
  import opened Grid
  import opened Types

  // ------------------------------------------------------------ resource take

  /** A tile `resource_take_at` accepts: in bounds, naming a resource and
      holding a positive amount. */
  predicate Stocked(m: Map, p: Vec2i)
    requires Sized(m)
  {
    InBounds(m, p) && m.resKind[Ridx(m, p)] != 0 && m.resAmount[Ridx(m, p)] > 0
  }

  /** Outcome of `resource_take_at`: whether it took anything, how much
      (`*actually_taken`, left 0 when nothing was taken) and the new map. */
  datatype Take = Take(ok: bool, taken: int, m: Map)

  /** Every per-tile vector agrees with `m` outside cell i. */
  predicate SameElsewhere(m: Map, r: Map, i: int)
  {
    r.width == m.width && r.height == m.height
    && |r.tiles| == |m.tiles| && |r.blocked| == |m.blocked| && |r.resKind| == |m.resKind|
    && |r.resAmount| == |m.resAmount| && r.resMax == m.resMax
    && (forall k :: 0 <= k < |m.tiles| && k != i ==> r.tiles[k] == m.tiles[k])
    && (forall k :: 0 <= k < |m.blocked| && k != i ==> r.blocked[k] == m.blocked[k])
    && (forall k :: 0 <= k < |m.resKind| && k != i ==> r.resKind[k] == m.resKind[k])
    && (forall k :: 0 <= k < |m.resAmount| && k != i ==> r.resAmount[k] == m.resAmount[k])
  }

  /** `resource_take_at`: a tile that is off the map, names no resource or is
      empty gives nothing and changes nothing. Otherwise min(amount, stock) is
      taken and the stock drops by exactly that much; a tile left with
      nothing turns into free grass with no resource. Only that tile changes
      and `resMax` never does. */
  function TakeAt(m: Map, p: Vec2i, amount: int): (r: Take)
    requires Sized(m)
    ensures Sized(r.m)
    ensures !Stocked(m, p) ==> !r.ok && r.taken == 0 && r.m == m
    ensures Stocked(m, p) ==> (var i := Ridx(m, p); var before := m.resAmount[i];
      && r.ok && r.taken == Min(amount, before)
      && SameElsewhere(m, r.m, i)
      && (before - r.taken > 0 ==>
            r.m.resAmount[i] == before - r.taken && r.m.resKind[i] == m.resKind[i]
            && r.m.tiles[i] == m.tiles[i] && r.m.blocked[i] == m.blocked[i])
      && (before - r.taken <= 0 ==>
            r.m.resAmount[i] == 0 && r.m.resKind[i] == 0 && r.m.tiles[i] == TileGrass && r.m.blocked[i] == 0))
  {
    if !InBounds(m, p) then Take(false, 0, m)
    else
      var i := Ridx(m, p);
      if m.resKind[i] == 0 || m.resAmount[i] <= 0 then Take(false, 0, m)
      else
        var take := Min(amount, m.resAmount[i]);
        var left := m.resAmount[i] - take;
        if left <= 0 then
          Take(true, take, m.(tiles := m.tiles[i := 0], blocked := m.blocked[i := 0],
                              resKind := m.resKind[i := 0], resAmount := m.resAmount[i := 0]))
        else
          Take(true, take, m.(resAmount := m.resAmount[i := left]))
  }

  /** For a non-negative request the amount taken is at most the request and
      at most the stock, and the stock after the take is what was there minus
      what was taken. */
  lemma TakeAtBounds(m: Map, p: Vec2i, amount: int)
    requires Sized(m) && amount >= 0
    ensures var r := TakeAt(m, p, amount);
      && 0 <= r.taken <= amount
      && (r.ok ==> r.taken <= m.resAmount[Ridx(m, p)]
                   && r.m.resAmount[Ridx(m, p)] == m.resAmount[Ridx(m, p)] - r.taken)
  {
  }

  /** Taking from a tile keeps the ledger invariant: every tile that still
      names a resource holds a positive amount. */
  lemma TakeAtKeepsLedger(m: Map, p: Vec2i, amount: int)
    requires Sized(m) && LedgerOk(m)
    ensures LedgerOk(TakeAt(m, p, amount).m)
  {
    var r := TakeAt(m, p, amount);
    if Stocked(m, p) {
      var i := Ridx(m, p);
      forall k | 0 <= k < |r.m.resKind| && r.m.resKind[k] != 0
        ensures r.m.resAmount[k] > 0
      {
        if k != i {
          assert r.m.resKind[k] == m.resKind[k];
        }
      }
    }
  }

  // ------------------------------------------------------------ ledger set-up

  /** The resource a terrain code starts with: forest wood, gold-mine gold. */
  function KindOfTile(t: int): (c: int)
    ensures c == 0 || c == ResourceCode(Gold) || c == ResourceCode(Wood)
  {
    if t == TileForest then ResourceCode(Wood) else if t == TileGold then ResourceCode(Gold) else 0
  }

  function AmountOfTile(t: int, wood: int, gold: int): int
  {
    if t == TileForest then wood else if t == TileGold then gold else 0
  }

  /** `vector::resize(n)`: the prefix kept, zeros appended. */
  function Resize(s: seq<int>, n: nat): (r: seq<int>)
    ensures |r| == n
    ensures forall k :: 0 <= k < n && k < |s| ==> r[k] == s[k]
    ensures forall k :: |s| <= k < n ==> r[k] == 0
  {
    if n <= |s| then s[..n] else s + seq(n - |s|, _ => 0)
  }

  /** `init_resources_from_tiles`: the three ledger vectors sized to the grid,
      and every cell of a non-empty grid set from its terrain (forest: wood
      with the given amount as stock and maximum, gold: likewise, anything
      else: no resource and zeros). Terrain and occupancy are not touched. */
  function InitLedger(m: Map, wood: int, gold: int): (r: Map)
    requires TerrainSized(m)
    ensures Sized(r)
    ensures r.width == m.width && r.height == m.height && r.tiles == m.tiles && r.blocked == m.blocked
    ensures m.width > 0 && m.height > 0 ==> forall k :: 0 <= k < |r.resKind| ==>
      && r.resKind[k] == KindOfTile(m.tiles[k])
      && r.resAmount[k] == AmountOfTile(m.tiles[k], wood, gold)
      && r.resMax[k] == AmountOfTile(m.tiles[k], wood, gold)
  {
    var n := Cells(m.width, m.height);
    if m.width > 0 && m.height > 0 then
      m.(resKind := seq(n, k requires 0 <= k < n => KindOfTile(m.tiles[k])),
         resAmount := seq(n, k requires 0 <= k < n => AmountOfTile(m.tiles[k], wood, gold)),
         resMax := seq(n, k requires 0 <= k < n => AmountOfTile(m.tiles[k], wood, gold)))
    else
      m.(resKind := Resize(m.resKind, n), resAmount := Resize(m.resAmount, n), resMax := Resize(m.resMax, n))
  }

  /** With positive stocks the fresh ledger satisfies the ledger invariant,
      and a tile is a resource tile of a kind exactly when its terrain is the
      matching forest or gold mine. */
  lemma InitLedgerOk(m: Map, wood: int, gold: int, p: Vec2i)
    requires TerrainSized(m) && m.width > 0 && m.height > 0 && wood > 0 && gold > 0
    ensures LedgerOk(InitLedger(m, wood, gold))
    ensures InBounds(m, p) ==> (IsResourceTile(InitLedger(m, wood, gold), p, Wood) <==> m.tiles[Ridx(m, p)] == TileForest)
    ensures InBounds(m, p) ==> (IsResourceTile(InitLedger(m, wood, gold), p, Gold) <==> m.tiles[Ridx(m, p)] == TileGold)
  {
  }

  // ------------------------------------------------------------- occupancy

  /** One write of `set_block`: cell (x, y) set to v when it lies on the map. */
  function SetCell(bl: seq<int>, mw: int, mh: int, x: int, y: int, v: int): (r: seq<int>)
    requires |bl| == Cells(mw, mh)
    ensures |r| == |bl|
  {
    if InGrid(mw, mh, x, y) then
      IdxInRange(mw, mh, x, y);
      bl[Idx(mw, x, y) := v]
    else bl
  }

  /** The first n writes of row y of `set_block`'s inner loop, from column x. */
  function FillRow(bl: seq<int>, mw: int, mh: int, x: int, y: int, n: int, v: int): (r: seq<int>)
    requires |bl| == Cells(mw, mh)
    ensures |r| == |bl|
    decreases n
  {
    if n <= 0 then bl else SetCell(FillRow(bl, mw, mh, x, y, n - 1, v), mw, mh, x + n - 1, y, v)
  }

  /** The first n rows of `set_block`: rows y .. y+n-1, columns x .. x+w-1. */
  function FillRect(bl: seq<int>, mw: int, mh: int, x: int, y: int, w: int, n: int, v: int): (r: seq<int>)
    requires |bl| == Cells(mw, mh)
    ensures |r| == |bl|
    decreases n
  {
    if n <= 0 then bl else FillRow(FillRect(bl, mw, mh, x, y, w, n - 1, v), mw, mh, x, y + n - 1, w, v)
  }

  lemma {:induction false} FillRowAt(bl: seq<int>, mw: int, mh: int, x: int, y: int, n: int, v: int, p: Vec2i)
    requires |bl| == Cells(mw, mh) && InGrid(mw, mh, p.x, p.y)
    ensures 0 <= Idx(mw, p.x, p.y) < |bl|
    ensures FillRow(bl, mw, mh, x, y, n, v)[Idx(mw, p.x, p.y)] ==
      if p.y == y && x <= p.x < x + n then v else bl[Idx(mw, p.x, p.y)]
    decreases n
  {
    IdxInRange(mw, mh, p.x, p.y);
    if n > 0 {
      FillRowAt(bl, mw, mh, x, y, n - 1, v, p);
      var q := Vec2i(x + n - 1, y);
      if InGrid(mw, mh, q.x, q.y) && Idx(mw, q.x, q.y) == Idx(mw, p.x, p.y) {
        IdxInjective(mw, mh, q.x, q.y, p.x, p.y);
      }
    }
  }

  /** `set_block(m, x, y, w, h, on)` writes v on exactly the on-map cells of
      the footprint and leaves every other cell as it was. */
  lemma {:induction false} FillRectAt(bl: seq<int>, mw: int, mh: int, x: int, y: int, w: int, n: int, v: int, p: Vec2i)
    requires |bl| == Cells(mw, mh) && InGrid(mw, mh, p.x, p.y)
    ensures 0 <= Idx(mw, p.x, p.y) < |bl|
    ensures FillRect(bl, mw, mh, x, y, w, n, v)[Idx(mw, p.x, p.y)] ==
      if InRect(p, Vec2i(x, y), w, n) then v else bl[Idx(mw, p.x, p.y)]
    decreases n
  {
    IdxInRange(mw, mh, p.x, p.y);
    if n > 0 {
      FillRectAt(bl, mw, mh, x, y, w, n - 1, v, p);
      FillRowAt(FillRect(bl, mw, mh, x, y, w, n - 1, v), mw, mh, x, y + n - 1, w, v, p);
    }
  }

  /** The occupancy overlay after `set_block`. */
  function Blocked(m: Map, at: Vec2i, w: int, h: int, on: bool): (r: Map)
    requires TerrainSized(m)
    ensures TerrainSized(r) && r == m.(blocked := r.blocked)
    ensures Sized(m) ==> Sized(r)
  {
    m.(blocked := FillRect(m.blocked, m.width, m.height, at.x, at.y, w, h, if on then 1 else 0))
  }

  /** Blocking a footprint makes every one of its tiles unwalkable; freeing
      it makes exactly the tiles that are not walls walkable again; tiles
      outside the footprint keep their walkability. */
  lemma BlockedWalkable(m: Map, at: Vec2i, w: int, h: int, on: bool, p: Vec2i)
    requires TerrainSized(m)
    ensures InRect(p, at, w, h) && on ==> !Walkable(Blocked(m, at, w, h, on), p)
    ensures InRect(p, at, w, h) && !on && InBounds(m, p) ==>
      (Walkable(Blocked(m, at, w, h, on), p) <==> m.tiles[Ridx(m, p)] != TileWall)
    ensures !InRect(p, at, w, h) ==> (Walkable(Blocked(m, at, w, h, on), p) <==> Walkable(m, p))
  {
    if InBounds(m, p) {
      FillRectAt(m.blocked, m.width, m.height, at.x, at.y, w, h, if on then 1 else 0, p);
    }
  }
}
