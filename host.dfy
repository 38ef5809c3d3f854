/** The one rule the host applies to the simulation between ticks:
    `relax_builders`, which sends back to Idle every worker whose building
    job has nothing left to work on. */
module Host {
  import opened Types
  import opened World
  import opened Search
  import opened Simulation

  /** A building target with nothing to build: no building has the id, or
      the first that has it is Complete. */
  predicate Stale(bs: seq<Building>, id: int)
  {
    var j := BuildingIndex(bs, id);
    j < 0 || bs[j].state == Complete
  }

  /** A unit the sweep leaves alone: not a worker (type 0) on the Building
      job, or one whose target is still to be built. */
  predicate Settled(bs: seq<Building>, u: Unit)
  {
    u.typeIndex == 0 && u.job == Build ==> !Stale(bs, u.buildingTarget)
  }

  /** The sweep on one unit: a worker on the Building job with a stale target
      goes Idle, with no target and no path. */
  function Relaxed(bs: seq<Building>, u: Unit): Unit
  {
    if u.typeIndex == 0 && u.job == Build && Stale(bs, u.buildingTarget) then
      u.(job := Idle, buildingTarget := 0, path := [])
    else u
  }

  /** The sweep changes a unit exactly when it is not settled; afterwards it
      is settled, so a second sweep changes nothing; only the job, the target
      and the path ever change. */
  lemma RelaxedSettles(bs: seq<Building>, u: Unit)
    ensures Relaxed(bs, u) == u <==> Settled(bs, u)
    ensures Settled(bs, Relaxed(bs, u)) && Relaxed(bs, Relaxed(bs, u)) == Relaxed(bs, u)
    ensures Relaxed(bs, u) == u.(job := Relaxed(bs, u).job, buildingTarget := Relaxed(bs, u).buildingTarget,
                                 path := Relaxed(bs, u).path)
  {
  }

  /** The sweep over every unit, in order. */
  function RelaxedAll(bs: seq<Building>, us: seq<Unit>): (r: seq<Unit>)
    ensures |r| == |us| && forall k :: 0 <= k < |us| ==> r[k] == Relaxed(bs, us[k])
  {
    seq(|us|, k requires 0 <= k < |us| => Relaxed(bs, us[k]))
  }

  /** After a sweep every unit is settled, and a second sweep is a no-op. */
  lemma RelaxedAllSettles(bs: seq<Building>, us: seq<Unit>)
    ensures forall k :: 0 <= k < |us| ==> Settled(bs, RelaxedAll(bs, us)[k])
    ensures RelaxedAll(bs, RelaxedAll(bs, us)) == RelaxedAll(bs, us)
  {
    forall k | 0 <= k < |us|
      ensures Settled(bs, RelaxedAll(bs, us)[k]) && Relaxed(bs, RelaxedAll(bs, us)[k]) == RelaxedAll(bs, us)[k]
    {
      RelaxedSettles(bs, us[k]);
    }
  }

  /** `relax_builders`: the sweep over the live units, each looked up with
      `find_building`; nothing but the units changes. */
  method RelaxBuilders(s: Sim)
    modifies s
    ensures s.Snapshot() == old(s.Snapshot()).(units := RelaxedAll(old(s.buildings), old(s.units)))
  {
    var i := 0;
    while i < |s.units|
      invariant 0 <= i <= |s.units| == |old(s.units)|
      invariant s.Snapshot() == old(s.Snapshot()).(units := s.units)
      invariant forall k :: 0 <= k < i ==> s.units[k] == Relaxed(s.buildings, old(s.units)[k])
      invariant forall k :: i <= k < |s.units| ==> s.units[k] == old(s.units)[k]
    {
      var u := s.units[i];
      if u.typeIndex == 0 && u.job == Build {
        var j := FindBuilding(s.buildings, u.buildingTarget);
        if j < 0 || s.buildings[j].state == Complete {
          s.units := s.units[i := u.(job := Idle, buildingTarget := 0, path := [])];
        }
      }
      i := i + 1;
    }
  }
}
