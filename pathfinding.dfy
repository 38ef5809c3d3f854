/** Grid A* (`astar_find`): `g` and `parent` arrays updated in place while an
    open set ordered by f = g + h is drained, then the path rebuilt from the
    parent links. */
module Pathfinding {
  import opened Grid
  import opened Types

  /** `std::numeric_limits<int>::max()`: the `g` of a tile not reached yet. */
  const Unreached := 0x7FFF_FFFF

  /** `hcost`: Manhattan distance times 10, in both 4- and 8-direction search. */
  function HCost(a: Vec2i, b: Vec2i): (c: int)
    ensures c >= 0 && c % 10 == 0
    ensures c == 0 <==> a == b
  {
    (Abs(a.x - b.x) + Abs(a.y - b.y)) * 10
  }

  /** `is_block`: off the grid, occupied, or a wall. */
  predicate IsBlock(m: Map, x: int, y: int)
    requires TerrainSized(m)
  {
    !InBounds(m, Vec2i(x, y)) || m.blocked[Ridx(m, Vec2i(x, y))] != 0 || m.tiles[Ridx(m, Vec2i(x, y))] == TileWall
  }

  /** `dirs8`; its first four entries are `dirs4`. */
  const Dirs8: seq<(int, int)> := [(1, 0), (-1, 0), (0, 1), (0, -1), (1, 1), (1, -1), (-1, 1), (-1, -1)]

  function Dirs(diag: bool): (d: seq<(int, int)>)
    ensures |d| == if diag then 8 else 4
  {
    if diag then Dirs8 else Dirs8[..4]
  }

  /** Step cost of direction i: 10 straight, 14 diagonal. */
  function StepCost(i: int): int
  {
    if i < 4 then 10 else 14
  }

  /** b is one step from a: a king's move in 8-direction search, a rook's
      single step in 4-direction search. */
  predicate Adjacent(a: Vec2i, b: Vec2i, diag: bool)
  {
    var dx, dy := Abs(b.x - a.x), Abs(b.y - a.y);
    if diag then dx <= 1 && dy <= 1 && dx + dy > 0 else dx + dy == 1
  }

  function Offset(p: Vec2i, d: (int, int)): Vec2i
  {
    Vec2i(p.x + d.0, p.y + d.1)
  }

  /** Adjacency is exactly "one of the direction table's offsets away". */
  lemma AdjacentIsDirection(a: Vec2i, b: Vec2i, diag: bool)
    ensures Adjacent(a, b, diag) <==> exists i :: 0 <= i < |Dirs(diag)| && b == Offset(a, Dirs(diag)[i])
  {
    var d := Dirs(diag);
    if Adjacent(a, b, diag) {
      var dx, dy := b.x - a.x, b.y - a.y;
      var i := if dx == 1 && dy == 0 then 0 else if dx == -1 && dy == 0 then 1
        else if dx == 0 && dy == 1 then 2 else if dx == 0 && dy == -1 then 3
        else if dx == 1 && dy == 1 then 4 else if dx == 1 && dy == -1 then 5
        else if dx == -1 && dy == 1 then 6 else 7;
      assert b == Offset(a, d[i]);
    }
    if exists i :: 0 <= i < |d| && b == Offset(a, d[i]) {
      var i :| 0 <= i < |d| && b == Offset(a, d[i]);
      DirAdjacent(a, diag, i);
    }
  }

  lemma DirAdjacent(a: Vec2i, diag: bool, i: int)
    requires 0 <= i < |Dirs(diag)|
    ensures Adjacent(a, Offset(a, Dirs(diag)[i]), diag)
  {
    assert Dirs(diag)[i] == Dirs8[i];
  }

  /** An entry of the open set: a tile and its priority f. */
  datatype Node = Node(f: int, x: int, y: int)

  /** A position of a minimum-f entry. */
  function MinIndex(open: seq<Node>): (j: nat)
    requires open != []
    ensures j < |open| && forall k :: 0 <= k < |open| ==> open[j].f <= open[k].f
  {
    if |open| == 1 then 0
    else
      var j := MinIndex(open[1..]);
      if open[0].f <= open[1..][j].f then 0 else j + 1
  }

  /** The search tree the arrays describe, over snapshots `g` and `parent`
      of a map with at least one tile: the start is reached at cost 0 and has
      no parent; every reached tile other than the start has a parent; each
      parent link is a step onto an unblocked tile whose `g` exceeds its
      parent's. */
  ghost predicate Tree(m: Map, start: Vec2i, diag: bool, g: seq<int>, parent: seq<int>)
    requires TerrainSized(m) && InBounds(m, start)
  {
    var n, sidx := Cells(m.width, m.height), Ridx(m, start);
    |g| == n && |parent| == n
    && g[sidx] == 0 && parent[sidx] == -1
    && (forall v :: 0 <= v < n ==> 0 <= g[v] <= Unreached)
    && (forall v :: 0 <= v < n && g[v] < Unreached ==> v == sidx || parent[v] != -1)
    && (forall v :: 0 <= v < n && parent[v] != -1 ==> Link(m, start, diag, g, parent, v))
  }

  ghost predicate Link(m: Map, start: Vec2i, diag: bool, g: seq<int>, parent: seq<int>, v: int)
    requires TerrainSized(m) && InBounds(m, start)
    requires |g| == |parent| == Cells(m.width, m.height) && 0 <= v < |g|
  {
    var n := Cells(m.width, m.height);
    0 <= parent[v] < n && g[parent[v]] < g[v] && v != Ridx(m, start)
    && Adjacent(CoordOf(m.width, parent[v]), CoordOf(m.width, v), diag)
    && !IsBlock(m, CoordOf(m.width, v).x, CoordOf(m.width, v).y)
  }

  /** The state before the first pop. */
  lemma TreeInit(m: Map, start: Vec2i, diag: bool, g: seq<int>, parent: seq<int>)
    requires TerrainSized(m) && InBounds(m, start)
    requires |g| == |parent| == Cells(m.width, m.height)
    requires forall v :: 0 <= v < |g| ==> g[v] == (if v == Ridx(m, start) then 0 else Unreached)
    requires forall v :: 0 <= v < |parent| ==> parent[v] == -1
    ensures Tree(m, start, diag, g, parent)
  {
  }

  /** Relaxing an edge from reached tile ni to the unblocked neighbour nidx at
      a strictly smaller cost keeps the tree a tree. */
  lemma {:induction false} TreeRelax(m: Map, start: Vec2i, diag: bool, g: seq<int>, parent: seq<int>,
                                      ni: int, nidx: int, cost: int)
    requires TerrainSized(m) && InBounds(m, start) && Tree(m, start, diag, g, parent)
    requires 0 <= ni < |g| && 0 <= nidx < |g|
    requires Adjacent(CoordOf(m.width, ni), CoordOf(m.width, nidx), diag)
    requires !IsBlock(m, CoordOf(m.width, nidx).x, CoordOf(m.width, nidx).y)
    requires g[ni] < cost < g[nidx]
    ensures Tree(m, start, diag, g[nidx := cost], parent[nidx := ni])
  {
    var g', p' := g[nidx := cost], parent[nidx := ni];
    var n, sidx := Cells(m.width, m.height), Ridx(m, start);
    assert ni != nidx;
    assert nidx != sidx;
    forall v | 0 <= v < n && p'[v] != -1
      ensures Link(m, start, diag, g', p', v)
    {
      if v != nidx {
        assert Link(m, start, diag, g, parent, v);
      }
    }
  }

  /** A non-empty path that takes one step at a time from `start`, ends at
      `goal`, never revisits `start` and only treads walkable tiles. */
  predicate ValidPath(m: Map, start: Vec2i, goal: Vec2i, path: seq<Vec2i>, diag: bool)
    requires TerrainSized(m)
  {
    |path| > 0 && path[|path| - 1] == goal && Adjacent(start, path[0], diag)
    && (forall k :: 1 <= k < |path| ==> Adjacent(path[k - 1], path[k], diag))
    && (forall k :: 0 <= k < |path| ==> Walkable(m, path[k]) && path[k] != start)
  }

  function Reverse<T>(s: seq<T>): (r: seq<T>)
    ensures |r| == |s| && forall k :: 0 <= k < |s| ==> r[k] == s[|s| - 1 - k]
  {
    if s == [] then [] else Reverse(s[1..]) + [s[0]]
  }

  /** The tile one step from p along entry i of the direction table. */
  function Near(p: Vec2i, diag: bool, i: int): Vec2i
    requires 0 <= i < |Dirs(diag)|
  {
    Offset(p, Dirs(diag)[i])
  }

  /** Every tile but the start costs at least one straight step. */
  ghost predicate AwayCosts(m: Map, start: Vec2i, g: seq<int>)
    requires TerrainSized(m) && InBounds(m, start)
  {
    forall v :: 0 <= v < |g| && v != Ridx(m, start) ==> g[v] >= 10
  }

  /** Each of p's first `upto` unblocked neighbours costs at most `base`
      plus the step to it. */
  ghost predicate StepBound(m: Map, p: Vec2i, diag: bool, g: seq<int>, base: int, upto: int)
    requires TerrainSized(m) && |g| == Cells(m.width, m.height) && upto <= |Dirs(diag)|
  {
    forall k :: 0 <= k < upto && !IsBlock(m, Near(p, diag, k).x, Near(p, diag, k).y) ==> g[Ridx(m, Near(p, diag, k))] <= base + StepCost(k)
  }

  /** Handling direction i extends the bound when no `g` rose and the
      neighbour in direction i now meets it. */
  lemma StepBoundNext(m: Map, p: Vec2i, diag: bool, g: seq<int>, g': seq<int>, base: int, i: int)
    requires TerrainSized(m) && |g| == |g'| == Cells(m.width, m.height) && 0 <= i < |Dirs(diag)|
    requires StepBound(m, p, diag, g, base, i)
    requires forall v :: 0 <= v < |g| ==> g'[v] <= g[v]
    requires !IsBlock(m, Near(p, diag, i).x, Near(p, diag, i).y) ==> g'[Ridx(m, Near(p, diag, i))] <= base + StepCost(i)
    ensures StepBound(m, p, diag, g', base, i + 1)
  {
  }

  /** Every unblocked neighbour of the start has a parent. */
  ghost predicate StartRing(m: Map, start: Vec2i, diag: bool, parent: seq<int>)
    requires TerrainSized(m) && |parent| == Cells(m.width, m.height)
  {
    forall i :: 0 <= i < |Dirs(diag)| && !IsBlock(m, Near(start, diag, i).x, Near(start, diag, i).y) ==> parent[Ridx(m, Near(start, diag, i))] != -1
  }

  /** The goal hangs directly off the start, one step's cost away. */
  ghost predicate GoalHook(m: Map, start: Vec2i, goal: Vec2i, g: seq<int>, parent: seq<int>)
    requires TerrainSized(m) && InBounds(m, start) && InBounds(m, goal)
    requires |g| == |parent| == Cells(m.width, m.height)
  {
    parent[Ridx(m, goal)] == Ridx(m, start) && g[Ridx(m, goal)] <= 14
  }

  /** Two different in-bounds tiles have different flat indices. */
  lemma RidxDistinct(m: Map, a: Vec2i, b: Vec2i)
    requires InBounds(m, a) && InBounds(m, b) && a != b
    ensures Ridx(m, a) != Ridx(m, b)
  {
    if Ridx(m, a) == Ridx(m, b) {
      IdxInjective(m.width, m.height, a.x, a.y, b.x, b.y);
    }
  }

  /** What the relaxation loop keeps, from snapshots `g0`/`p0` taken when
      p was popped to the current `g`/`parent` after `i` directions: the
      tree and the cost floor, p's own cost, every parent link that
      existed, the bound on the neighbours handled so far, a goal that
      hung off the start, and (expanding the start) a goal either hooked
      or untouched. The tree itself is kept separately. */
  ghost predicate Relaxed(m: Map, start: Vec2i, goal: Vec2i, diag: bool, p: Vec2i,
                          g0: seq<int>, p0: seq<int>, g: seq<int>, parent: seq<int>, i: int)
    requires TerrainSized(m) && InBounds(m, start) && InBounds(m, goal) && InBounds(m, p)
    requires |g0| == |p0| == |g| == |parent| == Cells(m.width, m.height) && 0 <= i <= |Dirs(diag)|
  {
    var ni, gidx := Ridx(m, p), Ridx(m, goal);
    && AwayCosts(m, start, g) && g[ni] == g0[ni]
    && (forall v :: 0 <= v < |p0| && p0[v] != -1 ==> parent[v] != -1)
    && StepBound(m, p, diag, g, g0[ni], i)
    && (GoalHook(m, start, goal, g0, p0) ==> GoalHook(m, start, goal, g, parent))
    && (p == start ==> GoalHook(m, start, goal, g, parent) || (g[gidx] == g0[gidx] && parent[gidx] == p0[gidx]))
  }

  /** Direction i leaves the arrays alone: its tile is blocked or already
      no dearer than the route through p. */
  lemma RelaxedSkip(m: Map, start: Vec2i, goal: Vec2i, diag: bool, p: Vec2i,
                    g0: seq<int>, p0: seq<int>, g: seq<int>, parent: seq<int>, i: int)
    requires TerrainSized(m) && InBounds(m, start) && InBounds(m, goal) && InBounds(m, p)
    requires |g0| == |p0| == |g| == |parent| == Cells(m.width, m.height) && 0 <= i < |Dirs(diag)|
    requires Relaxed(m, start, goal, diag, p, g0, p0, g, parent, i)
    requires !IsBlock(m, Near(p, diag, i).x, Near(p, diag, i).y)
      ==> g[Ridx(m, Near(p, diag, i))] <= g[Ridx(m, p)] + StepCost(i)
    ensures Relaxed(m, start, goal, diag, p, g0, p0, g, parent, i + 1)
  {
    StepBoundNext(m, p, diag, g, g, g0[Ridx(m, p)], i);
  }

  /** Direction i lowers the cost of its unblocked tile to p's cost plus
      the step and makes p its parent. */
  lemma {:induction false} RelaxedTake(m: Map, start: Vec2i, goal: Vec2i, diag: bool, p: Vec2i,
                                       g0: seq<int>, p0: seq<int>, g: seq<int>, parent: seq<int>, i: int,
                                       nidx: int, cost: int, g': seq<int>, parent': seq<int>)
    requires TerrainSized(m) && InBounds(m, start) && InBounds(m, goal) && InBounds(m, p)
    requires |g0| == |p0| == |g| == |parent| == Cells(m.width, m.height) && 0 <= i < |Dirs(diag)|
    requires Relaxed(m, start, goal, diag, p, g0, p0, g, parent, i)
    requires 0 <= g[Ridx(m, p)] && g[Ridx(m, start)] == 0
    requires !IsBlock(m, Near(p, diag, i).x, Near(p, diag, i).y)
    requires nidx == Ridx(m, Near(p, diag, i)) && cost == g[Ridx(m, p)] + StepCost(i) && cost < g[nidx]
    requires g' == g[nidx := cost] && parent' == parent[nidx := Ridx(m, p)]
    ensures Relaxed(m, start, goal, diag, p, g0, p0, g', parent', i + 1)
  {
    var q, ni := Near(p, diag, i), Ridx(m, p);
    DirAdjacent(p, diag, i);
    RidxDistinct(m, p, q);
    assert AwayCosts(m, start, g');
    assert g'[ni] == g0[ni];
    assert forall v :: 0 <= v < |p0| && p0[v] != -1 ==> parent'[v] != -1;
    StepBoundNext(m, p, diag, g, g', g0[ni], i);
    HookKept(m, start, goal, g, parent, ni, nidx, cost);
    var gidx := Ridx(m, goal);
    if p == start {
      assert g[ni] == 0 && cost <= 14;
      if nidx == gidx {
        assert GoalHook(m, start, goal, g', parent');
      } else if !GoalHook(m, start, goal, g, parent) {
        assert g'[gidx] == g0[gidx] && parent'[gidx] == p0[gidx];
      }
    }
  }

  /** A goal on the start stays there: a detour through any other tile
      costs at least 20, more than one step from the start. */
  lemma HookKept(m: Map, start: Vec2i, goal: Vec2i, g: seq<int>, parent: seq<int>, ni: int, nidx: int, cost: int)
    requires TerrainSized(m) && InBounds(m, start) && InBounds(m, goal)
    requires |g| == |parent| == Cells(m.width, m.height) && 0 <= ni < |g| && 0 <= nidx < |g|
    requires AwayCosts(m, start, g) && g[ni] + 10 <= cost < g[nidx]
    ensures GoalHook(m, start, goal, g, parent) ==> GoalHook(m, start, goal, g[nidx := cost], parent[nidx := ni])
    ensures ni == Ridx(m, start) && nidx == Ridx(m, goal) && cost <= 14 ==> GoalHook(m, start, goal, g[nidx := cost], parent[nidx := ni])
  {
    if ni != Ridx(m, start) {
      assert g[ni] >= 10;
    }
  }

  /** The relaxation loop of one expansion (lines 39-50): every unblocked
      neighbour q of the popped tile p reached more cheaply through p gets
      its `g` lowered, p as its parent, and an entry in the open set.
      Afterwards no neighbour costs more than p's `g` plus the step, no
      parent link has been removed, and a goal that hung off the start
      still does. */
  method RelaxNeighbours(m: Map, start: Vec2i, goal: Vec2i, diag: bool,
                         g: array<int>, parent: array<int>, p: Vec2i, open: seq<Node>)
    returns (open': seq<Node>)
    requires TerrainSized(m) && InBounds(m, start) && InBounds(m, goal) && InBounds(m, p) && g != parent
    requires Tree(m, start, diag, g[..], parent[..]) && AwayCosts(m, start, g[..])
    requires forall e :: e in open ==> InGrid(m.width, m.height, e.x, e.y)
    modifies g, parent
    ensures Tree(m, start, diag, g[..], parent[..]) && AwayCosts(m, start, g[..])
    ensures forall e :: e in open' ==> InGrid(m.width, m.height, e.x, e.y)
    ensures forall v :: 0 <= v < parent.Length && old(parent[v]) != -1 ==> parent[v] != -1
    ensures StepBound(m, p, diag, g[..], old(g[Ridx(m, p)]), |Dirs(diag)|)
    ensures old(GoalHook(m, start, goal, g[..], parent[..])) ==> GoalHook(m, start, goal, g[..], parent[..])
    ensures p == start ==> (GoalHook(m, start, goal, g[..], parent[..])
                            || (g[Ridx(m, goal)] == old(g[Ridx(m, goal)]) && parent[Ridx(m, goal)] == old(parent[Ridx(m, goal)])))
  {
    var dirs := Dirs(diag);
    ghost var g0, p0 := g[..], parent[..];
    open' := open;
    var i := 0;
    while i < |dirs|
      invariant i <= |dirs|
      invariant Tree(m, start, diag, g[..], parent[..])
      invariant Relaxed(m, start, goal, diag, p, g0, p0, g[..], parent[..], i)
      invariant forall e :: e in open' ==> InGrid(m.width, m.height, e.x, e.y)
    {
      open' := RelaxToward(m, start, goal, diag, g, parent, p, i, g0, p0, open');
      i := i + 1;
    }
  }

  /** One pass of the relaxation loop, for direction i. */
  method RelaxToward(m: Map, start: Vec2i, goal: Vec2i, diag: bool, g: array<int>, parent: array<int>,
                     p: Vec2i, i: int, ghost g0: seq<int>, ghost p0: seq<int>, open: seq<Node>)
    returns (open': seq<Node>)
    requires TerrainSized(m) && InBounds(m, start) && InBounds(m, goal) && InBounds(m, p) && g != parent
    requires |g0| == |p0| == Cells(m.width, m.height) && 0 <= i < |Dirs(diag)|
    requires Tree(m, start, diag, g[..], parent[..])
    requires Relaxed(m, start, goal, diag, p, g0, p0, g[..], parent[..], i)
    requires forall e :: e in open ==> InGrid(m.width, m.height, e.x, e.y)
    modifies g, parent
    ensures Tree(m, start, diag, g[..], parent[..])
    ensures Relaxed(m, start, goal, diag, p, g0, p0, g[..], parent[..], i + 1)
    ensures forall e :: e in open' ==> InGrid(m.width, m.height, e.x, e.y)
  {
    var ni := Ridx(m, p);
    var q := Offset(p, Dirs(diag)[i]);
    assert q == Near(p, diag, i);
    open' := open;
    if !IsBlock(m, q.x, q.y) && g[ni] + StepCost(i) < g[Ridx(m, q)] {
      var cost := g[ni] + StepCost(i);
      var nidx := Ridx(m, q);
      ghost var gs, ps := g[..], parent[..];
      DirAdjacent(p, diag, i);
      IdxCoords(m.width, p.x, p.y);
      IdxCoords(m.width, q.x, q.y);
      TreeRelax(m, start, diag, gs, ps, ni, nidx, cost);
      g[nidx] := cost;
      parent[nidx] := ni;
      assert g[..] == gs[nidx := cost];
      assert parent[..] == ps[nidx := ni];
      RelaxedTake(m, start, goal, diag, p, g0, p0, gs, ps, i, nidx, cost, g[..], parent[..]);
      open' := open' + [Node(cost + HCost(q, goal), q.x, q.y)];
    } else {
      RelaxedSkip(m, start, goal, diag, p, g0, p0, g[..], parent[..], i);
    }
  }

  /** After the start's own expansion: its cost-0 relaxation gave every
      unblocked neighbour a cost of at most 14, hence a parent, and an
      adjacent goal untouched before now hangs off the start. */
  lemma FirstExpansion(m: Map, start: Vec2i, goal: Vec2i, diag: bool, g: seq<int>, parent: seq<int>)
    requires TerrainSized(m) && InBounds(m, start) && InBounds(m, goal) && start != goal
    requires Tree(m, start, diag, g, parent)
    requires StepBound(m, start, diag, g, 0, |Dirs(diag)|)
    requires GoalHook(m, start, goal, g, parent) || g[Ridx(m, goal)] == Unreached
    ensures StartRing(m, start, diag, parent)
    ensures Adjacent(start, goal, diag) && !IsBlock(m, goal.x, goal.y) ==> GoalHook(m, start, goal, g, parent)
  {
    forall i | 0 <= i < |Dirs(diag)| && !IsBlock(m, Near(start, diag, i).x, Near(start, diag, i).y)
      ensures parent[Ridx(m, Near(start, diag, i))] != -1
    {
      DirAdjacent(start, diag, i);
      RidxDistinct(m, start, Near(start, diag, i));
    }
    if Adjacent(start, goal, diag) && !IsBlock(m, goal.x, goal.y) {
      AdjacentIsDirection(start, goal, diag);
      var i :| 0 <= i < |Dirs(diag)| && goal == Offset(start, Dirs(diag)[i]);
      assert goal == Near(start, diag, i);
    }
  }

  /** The search loop (lines 16-51): pops a minimum-f entry (stale entries
      included) until the open set is empty, more than `maxNodes` pops were
      made, or the goal is popped. With a cap of at least one and a goal
      elsewhere, the start is expanded: every unblocked neighbour of it
      keeps a parent from then on, and an adjacent unblocked goal keeps the
      start as its parent. */
  method Search(m: Map, start: Vec2i, goal: Vec2i, diag: bool, maxNodes: int)
    returns (g: array<int>, parent: array<int>, ghost expanded: nat)
    requires TerrainSized(m) && InBounds(m, start) && InBounds(m, goal)
    ensures fresh(g) && fresh(parent) && g != parent
    ensures Tree(m, start, diag, g[..], parent[..])
    ensures expanded <= Max(maxNodes, 0)
    ensures expanded == 0 ==> forall v :: 0 <= v < parent.Length ==> parent[v] == -1
    ensures start != goal && maxNodes >= 1 ==> expanded >= 1
    ensures expanded >= 1 ==> StartRing(m, start, diag, parent[..])
    ensures expanded >= 1 && Adjacent(start, goal, diag) && !IsBlock(m, goal.x, goal.y)
      ==> GoalHook(m, start, goal, g[..], parent[..])
  {
    var n := Cells(m.width, m.height);
    var sidx := Ridx(m, start);
    g := new int[n](v => if v == sidx then 0 else Unreached);
    parent := new int[n](_ => -1);
    TreeInit(m, start, diag, g[..], parent[..]);
    var open := [Node(HCost(start, goal), start.x, start.y)];
    var processed := 0;
    expanded := 0;
    while open != []
      invariant fresh(g) && fresh(parent)
      invariant Tree(m, start, diag, g[..], parent[..]) && AwayCosts(m, start, g[..])
      invariant forall e :: e in open ==> InGrid(m.width, m.height, e.x, e.y)
      invariant expanded == processed <= Max(maxNodes, 0)
      invariant expanded == 0 ==> open == [Node(HCost(start, goal), start.x, start.y)]
      invariant expanded == 0 ==> forall v :: 0 <= v < parent.Length ==> parent[v] == -1
      invariant expanded == 0 ==> forall v :: 0 <= v < g.Length && v != sidx ==> g[v] == Unreached
      invariant expanded >= 1 ==> StartRing(m, start, diag, parent[..])
      invariant expanded >= 1 && Adjacent(start, goal, diag) && !IsBlock(m, goal.x, goal.y)
        ==> GoalHook(m, start, goal, g[..], parent[..])
      decreases Max(maxNodes, 0) - processed
    {
      ghost var jMin := MinIndex(open);
      assert 0 <= jMin < |open| && forall k :: 0 <= k < |open| ==> open[jMin].f <= open[k].f;
      var j :| 0 <= j < |open| && forall k :: 0 <= k < |open| ==> open[j].f <= open[k].f;
      var nd := open[j];
      assert nd in open;
      open := open[..j] + open[j + 1..];
      processed := processed + 1;
      if processed > maxNodes {
        break;
      }
      if nd.x == goal.x && nd.y == goal.y {
        break;
      }
      ghost var first := expanded == 0;
      ghost var ps := parent[..];
      if first {
        assert Vec2i(nd.x, nd.y) == start;
        RidxDistinct(m, start, goal);
      }
      open := RelaxNeighbours(m, start, goal, diag, g, parent, Vec2i(nd.x, nd.y), open);
      if first {
        FirstExpansion(m, start, goal, diag, g[..], parent[..]);
      } else {
        assert forall v :: 0 <= v < |ps| && ps[v] != -1 ==> parent[..][v] != -1;
      }
      expanded := expanded + 1;
    }
  }

  /** What one parent link gives the reconstruction: the parent is a grid
      tile one step away with a smaller `g`, and the tile itself is walkable
      and is not the start. */
  lemma LinkFacts(m: Map, start: Vec2i, diag: bool, g: seq<int>, parent: seq<int>, v: int)
    requires TerrainSized(m) && InBounds(m, start) && Tree(m, start, diag, g, parent)
    requires 0 <= v < |g| && parent[v] != -1
    ensures 0 <= parent[v] < |g| && 0 <= g[parent[v]] < g[v]
    ensures parent[v] == Ridx(m, start) || parent[parent[v]] != -1
    ensures Adjacent(CoordOf(m.width, parent[v]), CoordOf(m.width, v), diag)
    ensures Walkable(m, CoordOf(m.width, v)) && CoordOf(m.width, v) != start
  {
    assert Link(m, start, diag, g, parent, v);
    var p := parent[v];
    IdxInRange(m.width, m.height, start.x, start.y);
    CoordIdx(m.width, m.height, v);
    assert p != -1 && 0 <= p < |g|;
    if p != Ridx(m, start) {
      assert g[p] < Unreached;
    }
  }

  /** Path reconstruction (lines 53-60): follows parent links from the goal
      back to the start, then reverses. */
  method Reconstruct(m: Map, start: Vec2i, goal: Vec2i, diag: bool, ghost g: seq<int>, parent: seq<int>)
    returns (path: seq<Vec2i>)
    requires TerrainSized(m) && InBounds(m, start) && InBounds(m, goal) && start != goal
    requires Tree(m, start, diag, g, parent)
    requires parent[Ridx(m, goal)] != -1
    ensures ValidPath(m, start, goal, path, diag)
    ensures parent[Ridx(m, goal)] == Ridx(m, start) ==> path == [goal]
  {
    var w, h := m.width, m.height;
    var sidx, gidx := Ridx(m, start), Ridx(m, goal);
    IdxCoords(w, goal.x, goal.y);
    IdxCoords(w, start.x, start.y);
    var rev: seq<Vec2i> := [];
    var cur := gidx;
    while cur != sidx && cur != -1
      invariant 0 <= cur < |parent|
      invariant cur == sidx || parent[cur] != -1
      invariant rev == [] ==> cur == gidx
      invariant Trail(m, start, goal, diag, rev, CoordOf(w, cur))
      invariant parent[gidx] == sidx ==> (rev == [] && cur == gidx) || (rev == [goal] && cur == sidx)
      decreases g[cur]
    {
      LinkFacts(m, start, diag, g, parent, cur);
      var c := Vec2i(cur % w, cur / w);
      assert c == CoordOf(w, cur);
      TrailStep(m, start, goal, diag, rev, c, CoordOf(w, parent[cur]));
      rev := rev + [c];
      cur := parent[cur];
    }
    TrailPath(m, start, goal, diag, rev);
    path := Reverse(rev);
  }

  /** The tiles collected so far, goal first, each adjacent to the one
      before, all walkable and none the start; `at` is the tile whose parent
      link is followed next and is adjacent to the last one collected. */
  ghost predicate Trail(m: Map, start: Vec2i, goal: Vec2i, diag: bool, rev: seq<Vec2i>, at: Vec2i)
    requires TerrainSized(m)
  {
    && (rev != [] ==> rev[0] == goal && Adjacent(at, rev[|rev| - 1], diag))
    && (forall k :: 1 <= k < |rev| ==> Adjacent(rev[k], rev[k - 1], diag))
    && (forall k :: 0 <= k < |rev| ==> Walkable(m, rev[k]) && rev[k] != start)
  }

  lemma TrailStep(m: Map, start: Vec2i, goal: Vec2i, diag: bool, rev: seq<Vec2i>, c: Vec2i, c': Vec2i)
    requires TerrainSized(m) && Trail(m, start, goal, diag, rev, c) && (rev == [] ==> c == goal)
    requires Walkable(m, c) && c != start && Adjacent(c', c, diag)
    ensures Trail(m, start, goal, diag, rev + [c], c')
  {
  }

  /** A trail that has reached the start, read backwards, is a valid path. */
  lemma TrailPath(m: Map, start: Vec2i, goal: Vec2i, diag: bool, rev: seq<Vec2i>)
    requires TerrainSized(m) && rev != [] && Trail(m, start, goal, diag, rev, start)
    ensures ValidPath(m, start, goal, Reverse(rev), diag)
  {
  }

  /** `astar_find`. `outPath` is the caller's vector: returned unchanged on
      failure. Between different tiles the search succeeds exactly when the
      goal received a parent in the tree the search left behind (`costs`,
      `links`), and the new path is then valid. A blocked goal or a node cap
      below one forbids success. With a cap of at least one, every unblocked
      neighbour of the start ends with a parent, and an unblocked adjacent
      goal is reached in the single step [goal]. `expanded` counts the pops
      whose neighbours were relaxed; the cap bounds it. Ties between
      equal-f entries may be broken either way. */
  method AStarFind(m: Map, start: Vec2i, goal: Vec2i, outPath: seq<Vec2i>, diag: bool, maxNodes: int)
    returns (found: bool, path: seq<Vec2i>, ghost expanded: nat, ghost costs: seq<int>, ghost links: seq<int>)
    requires TerrainSized(m)
    requires start != goal ==> InBounds(m, start) && InBounds(m, goal)
    ensures start == goal ==> found && path == []
    ensures !found ==> path == outPath
    ensures start != goal ==> Tree(m, start, diag, costs, links) && (found <==> links[Ridx(m, goal)] != -1)
    ensures found && start != goal ==> ValidPath(m, start, goal, path, diag)
    ensures start != goal && IsBlock(m, goal.x, goal.y) ==> !found
    ensures start != goal && maxNodes <= 0 ==> !found
    ensures start != goal && maxNodes >= 1 ==> StartRing(m, start, diag, links)
    ensures start != goal && maxNodes >= 1 && Adjacent(start, goal, diag) && !IsBlock(m, goal.x, goal.y)
      ==> found && path == [goal]
    ensures expanded <= Max(maxNodes, 0)
  {
    if start == goal {
      return true, [], 0, [], [];
    }
    var g, parent;
    g, parent, expanded := Search(m, start, goal, diag, maxNodes);
    costs, links := g[..], parent[..];
    var gidx := Ridx(m, goal);
    if parent[gidx] == -1 {
      return false, outPath, expanded, costs, links;
    }
    IdxCoords(m.width, goal.x, goal.y);
    assert Link(m, start, diag, g[..], parent[..], gidx);
    path := Reconstruct(m, start, goal, diag, g[..], parent[..]);
    found := true;
  }
}
