/** The economy rules: paying for and refunding trained units, the
    affordable-prefix rule of the training queue, worker-gated construction
    progress and the production countdown. */
module Economy {
  import opened Grid
  import opened Types

  /** The stock a training order draws on: gold, wood and food in use. */
  datatype Purse = Purse(gold: int, wood: int, foodUsed: int)

  /** The test `queue_train` makes before each unit: enough gold and wood,
      and room under the food cap. */
  predicate CanAfford(p: Purse, foodCap: int, ut: UnitType)
  {
    p.gold >= ut.costGold && p.wood >= ut.costWood && p.foodUsed + ut.food <= foodCap
  }

  /** Reserving one unit's cost and food. */
  function Pay(p: Purse, ut: UnitType): Purse
  {
    Purse(p.gold - ut.costGold, p.wood - ut.costWood, p.foodUsed + ut.food)
  }

  /** Giving one unit's cost and food back (the cancel operations). */
  function Refund(p: Purse, ut: UnitType): (r: Purse)
    ensures Pay(r, ut) == p
  {
    Purse(p.gold + ut.costGold, p.wood + ut.costWood, p.foodUsed - ut.food)
  }

  /** A refund exactly undoes a payment. */
  lemma RefundUndoesPay(p: Purse, ut: UnitType)
    ensures Refund(Pay(p, ut), ut) == p
  {
  }

  /** The `for (i < count)` loop of `queue_train`: the number k of units it
      enqueues (the longest affordable prefix of the order) and the purse
      after paying for them. k is at most the order; every paid unit was
      affordable, so gold and wood stay non-negative and food stays under the
      cap whenever k > 0; and the order stops short only at a unit it cannot
      afford. `TrainPrice` states what the purse drops by. */
  function Train(p: Purse, foodCap: int, ut: UnitType, count: int): (r: (nat, Purse))
    ensures r.0 <= Max(count, 0)
    ensures r.0 > 0 ==> r.1.gold >= 0 && r.1.wood >= 0 && r.1.foodUsed <= foodCap
    ensures r.0 < count ==> !CanAfford(r.1, foodCap, ut)
    decreases count
  {
    if count <= 0 || !CanAfford(p, foodCap, ut) then (0, p)
    else
      var (k, q) := Train(Pay(p, ut), foodCap, ut, count - 1);
      (k + 1, q)
  }

  /** An order of k units costs exactly k times the unit's gold, wood and food. */
  lemma {:induction false} TrainPrice(p: Purse, foodCap: int, ut: UnitType, count: int)
    ensures var r := Train(p, foodCap, ut, count);
      r.1 == Purse(p.gold - r.0 * ut.costGold, p.wood - r.0 * ut.costWood, p.foodUsed + r.0 * ut.food)
    decreases count
  {
    if count > 0 && CanAfford(p, foodCap, ut) {
      TrainPrice(Pay(p, ut), foodCap, ut, count - 1);
      TrainSteps(p, foodCap, ut, count);
      PayScaled(p, ut, Train(Pay(p, ut), foodCap, ut, count - 1).0);
    }
  }

  /** Paying for one unit and then k more is paying for k + 1. */
  lemma PayScaled(p: Purse, ut: UnitType, k: int)
    ensures var q := Pay(p, ut);
      Purse(q.gold - k * ut.costGold, q.wood - k * ut.costWood, q.foodUsed + k * ut.food)
      == Purse(p.gold - (k + 1) * ut.costGold, p.wood - (k + 1) * ut.costWood, p.foodUsed + (k + 1) * ut.food)
  {
    assert (k + 1) * ut.costGold == k * ut.costGold + ut.costGold;
    assert (k + 1) * ut.costWood == k * ut.costWood + ut.costWood;
    assert (k + 1) * ut.food == k * ut.food + ut.food;
  }

  /** One more affordable unit: the order pays for it and goes on. */
  lemma TrainSteps(p: Purse, foodCap: int, ut: UnitType, count: int)
    requires count > 0 && CanAfford(p, foodCap, ut)
    ensures Train(p, foodCap, ut, count) ==
      (Train(Pay(p, ut), foodCap, ut, count - 1).0 + 1, Train(Pay(p, ut), foodCap, ut, count - 1).1)
  {
  }

  /** An order that is done, or cannot afford its next unit, stops there. */
  lemma TrainStops(p: Purse, foodCap: int, ut: UnitType, count: int)
    requires count <= 0 || !CanAfford(p, foodCap, ut)
    ensures Train(p, foodCap, ut, count) == (0, p)
  {
  }

  /** The value `queue_train` returns for an order it accepts: true unless a
      positive order could not pay for its first unit. */
  lemma TrainResult(p: Purse, foodCap: int, ut: UnitType, count: int)
    ensures var k := Train(p, foodCap, ut, count).0;
      (k > 0 || count <= 0) <==> (count <= 0 || CanAfford(p, foodCap, ut))
  {
  }

  /** Queued units are never more than the food cap allows: an order started
      under the cap ends under it. */
  lemma {:induction false} TrainKeepsFood(p: Purse, foodCap: int, ut: UnitType, count: int)
    requires p.foodUsed <= foodCap
    ensures Train(p, foodCap, ut, count).1.foodUsed <= foodCap
    decreases count
  {
    if count > 0 && CanAfford(p, foodCap, ut) {
      TrainKeepsFood(Pay(p, ut), foodCap, ut, count - 1);
    }
  }

  // --------------------------------------------------------------- construction

  /** A worker counted by construction: a unit of type 0 on the Building job
      that targets b and stands at Chebyshev distance exactly 1 from its
      footprint. */
  predicate Assigned(u: Unit, b: Building)
  {
    u.typeIndex == 0 && u.job == Build && u.buildingTarget == b.id && FootprintDistance(u.tile, b) == 1
  }

  /** `adj_workers`: how many units are assigned to b, counted in order. */
  function Workers(us: seq<Unit>, b: Building): (n: nat)
    ensures n <= |us|
    ensures n > 0 <==> exists k :: 0 <= k < |us| && Assigned(us[k], b)
  {
    if us == [] then 0
    else
      var pre := us[..|us| - 1];
      var n := Workers(pre, b);
      assert forall k :: 0 <= k < |pre| ==> us[k] == pre[k];
      n + (if Assigned(us[|us| - 1], b) then 1 else 0)
  }

  /** `(int)(dt * (1 + 0.75 * (n - 1)))`, the progress n workers make in dt
      milliseconds, written with integers: dt * (3n + 1) / 4. */
  function BuildRate(dt: int, n: int): int
  {
    (dt * (3 * n + 1)) / 4
  }

  /** One worker makes progress at the plain rate; more workers never make
      less progress. */
  lemma BuildRateMono(dt: int, n: int, n': int)
    requires dt >= 0 && 1 <= n <= n'
    ensures BuildRate(dt, 1) == dt
    ensures dt <= BuildRate(dt, n) <= BuildRate(dt, n')
  {
    MulMono(4, 3 * n + 1, dt);
    assert 4 * dt == dt * 4;
    assert dt * (3 * n + 1) == (3 * n + 1) * dt;
    MulMono(3 * n + 1, 3 * n' + 1, dt);
    assert dt * (3 * n' + 1) == (3 * n' + 1) * dt;
  }

  /** The construction part of `step` for one building with n assigned workers:
      nothing happens to a Complete building or one nobody works on;
      otherwise it is Constructing, its progress grows by the workers' rate,
      and it becomes Complete once the progress reaches the total. */
  function Construct(b: Building, n: nat, dt: int): (r: Building)
    ensures b.state == Complete || n == 0 ==> r == b
    ensures b.state != Complete && n > 0 ==>
      && r == b.(state := r.state, buildProgressMs := r.buildProgressMs)
      && r.buildProgressMs == b.buildProgressMs + BuildRate(dt, n)
      && (r.state == Complete <==> r.buildProgressMs >= b.buildTotalMs)
      && (r.state != Complete ==> r.state == Constructing)
  {
    if b.state != Complete && n > 0 then
      var p := b.buildProgressMs + BuildRate(dt, n);
      b.(state := if p >= b.buildTotalMs then Complete else Constructing, buildProgressMs := p)
    else b
  }

  /** The step in which construction finished. */
  predicate JustCompleted(b: Building, r: Building)
  {
    b.state != Complete && r.state == Complete
  }

  /** Completion happens at most once: a building that has completed is left
      exactly as it is by every later construction step. */
  lemma CompleteOnce(b: Building, n: nat, dt: int, n': nat, dt': int)
    requires JustCompleted(b, Construct(b, n, dt))
    ensures Construct(Construct(b, n, dt), n', dt') == Construct(b, n, dt)
    ensures !JustCompleted(Construct(b, n, dt), Construct(Construct(b, n, dt), n', dt'))
  {
  }

  /** Progress never goes backwards while time runs forward. */
  lemma ConstructProgress(b: Building, n: nat, dt: int)
    requires dt >= 0
    ensures Construct(b, n, dt).buildProgressMs >= b.buildProgressMs
  {
    if b.state != Complete && n > 0 {
      BuildRateMono(dt, n, n);
    }
  }

  // ----------------------------------------------------------------- production

  /** `(int)dt_ms` for a `uint32_t` tick length: two's complement wrap. */
  function Int32Of(dt: int): (r: int)
    requires 0 <= dt < 0x1_0000_0000
    ensures dt < 0x8000_0000 ==> r == dt
    ensures -0x8000_0000 <= r < 0x8000_0000
  {
    if dt < 0x8000_0000 then dt else dt - 0x1_0000_0000
  }

  /** Outcome of the production countdown for a non-empty queue: the unit
      type to spawn (when the front item ran out) and the queue left. */
  datatype Produced = Produced(spawn: Option<int>, queue: seq<TrainItem>)

  /** The front item's time drops by the tick; an item at or below zero is
      delivered: its type is spawned and it leaves the queue. The other items
      keep their order and times. */
  function Produce(q: seq<TrainItem>, dt: int): (r: Produced)
    requires q != []
    ensures r.spawn.Some? <==> q[0].remainingMs - dt <= 0
    ensures r.spawn.Some? ==> r.spawn.value == q[0].unitType && r.queue == q[1..]
    ensures r.spawn.None? ==> r.queue == [q[0].(remainingMs := q[0].remainingMs - dt)] + q[1..]
  {
    var front := q[0].(remainingMs := q[0].remainingMs - dt);
    if front.remainingMs <= 0 then Produced(Some(front.unitType), q[1..])
    else Produced(None, [front] + q[1..])
  }
}
