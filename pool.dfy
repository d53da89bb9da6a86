/**
 * The puck pool of src/entites/pool.ts. It keeps three lists: the recycle
 * stack (`pool`), every puck ever allocated (`allObjects`) and the active
 * ones (`activeObjects`). Every puck handed out is activated and gets one
 * deactivation scheduled 5000 ms later; the scheduler's pending
 * deactivations are the multiset `scheduled`, and each is delivered as an
 * `Expire` event.
 */
module PuckPool {
  import opened Wrappers
  import opened Materials
  import opened Pucks
  import PhysWorld

  /** The pool's allocation bound. */
  const MAX_POOL: nat := 15
  /** The delay of the deactivation every activation schedules, in ms. */
  const DEACTIVATE_DELAY_MS: nat := 5000

  /** `s.filter(q => q !== p)`. */
  function Without(s: seq<Puck>, p: Puck): (r: seq<Puck>)
    ensures p !in r
    ensures forall q :: q in r ==> q in s
    ensures forall q :: q in s && q != p ==> q in r
    ensures |r| <= |s|
  {
    if s == [] then []
    else if s[0] == p then Without(s[1..], p)
    else [s[0]] + Without(s[1..], p)
  }

  /** Filtering drops every occurrence of `p` and keeps all other elements. */
  lemma {:induction false} WithoutMultiset(s: seq<Puck>, p: Puck)
    ensures multiset(Without(s, p)) == multiset(s)[p := 0]
  {
    if s != [] {
      WithoutMultiset(s[1..], p);
      assert s == [s[0]] + s[1..];
    }
  }

  /** No puck occurs twice. */
  ghost predicate Distinct(s: seq<Puck>)
  {
    forall p :: p in multiset(s) ==> multiset(s)[p] == 1
  }

  /** The allocated pucks are exactly the active ones together with the recycled ones. */
  ghost predicate Partitioned(all: seq<Puck>, active: seq<Puck>, recycle: seq<Puck>)
  {
    multiset(all) == multiset(active) + multiset(recycle)
  }

  /** Each allocated puck is in exactly one of the active list and the
      recycle stack, and nothing else is in either. */
  lemma ExactlyOneHome(all: seq<Puck>, active: seq<Puck>, recycle: seq<Puck>, p: Puck)
    requires Partitioned(all, active, recycle) && Distinct(all)
    ensures p in all <==> (p in active || p in recycle)
    ensures p in all ==> (p in active <==> p !in recycle)
    ensures p in active ==> multiset(active)[p] == 1
  {
    assert multiset(all)[p] == multiset(active)[p] + multiset(recycle)[p];
    if p in all {
      assert p in multiset(all);
    }
  }

  /** The allocated count is the active count plus the recycled count. */
  lemma PartitionSizes(all: seq<Puck>, active: seq<Puck>, recycle: seq<Puck>)
    requires Partitioned(all, active, recycle)
    ensures |all| == |active| + |recycle|
  {
    calc {
      |all|;
      |multiset(all)|;
      |multiset(active) + multiset(recycle)|;
      |multiset(active)| + |multiset(recycle)|;
      |active| + |recycle|;
    }
  }

  /** Allocating is allowed only with an empty recycle stack and fewer than
      MAX_POOL active pucks, so the new allocation count stays within the bound. */
  lemma AllocationWithinBound(all: seq<Puck>, active: seq<Puck>, recycle: seq<Puck>, p: Puck)
    requires Partitioned(all, active, recycle)
    requires recycle == [] && |active| < MAX_POOL
    ensures |all + [p]| <= MAX_POOL
  {
    PartitionSizes(all, active, recycle);
  }

  /** Reusing the top of the recycle stack moves it to the active list. */
  lemma PartitionedAfterReuse(all: seq<Puck>, active: seq<Puck>, recycle: seq<Puck>)
    requires Partitioned(all, active, recycle) && |recycle| > 0
    ensures Partitioned(all, active + [recycle[|recycle| - 1]], recycle[..|recycle| - 1])
  {
    var n := |recycle|;
    assert recycle == recycle[..n - 1] + [recycle[n - 1]];
    assert multiset(recycle) == multiset(recycle[..n - 1]) + multiset{recycle[n - 1]};
  }

  /** A new puck, appended to both the allocated and the active list, keeps
      the lists partitioned and duplicate-free. */
  lemma PartitionedAfterAllocation(all: seq<Puck>, active: seq<Puck>, recycle: seq<Puck>, p: Puck)
    requires Partitioned(all, active, recycle) && Distinct(all) && p !in all
    ensures Partitioned(all + [p], active + [p], recycle)
    ensures Distinct(all + [p])
  {
    assert multiset(all + [p]) == multiset(all) + multiset{p};
    assert multiset(active + [p]) == multiset(active) + multiset{p};
    forall q | q in multiset(all + [p])
      ensures multiset(all + [p])[q] == 1
    {
      if q != p {
        assert q in multiset(all);
      }
    }
  }

  /** Deactivating an active puck moves it to the top of the recycle stack. */
  lemma PartitionedAfterDeactivation(all: seq<Puck>, active: seq<Puck>, recycle: seq<Puck>, p: Puck)
    requires Partitioned(all, active, recycle) && Distinct(all) && p in active
    ensures Partitioned(all, Without(active, p), recycle + [p])
    ensures multiset(Without(active, p)) == multiset(active) - multiset{p}
  {
    ExactlyOneHome(all, active, recycle, p);
    WithoutMultiset(active, p);
    assert multiset(recycle + [p]) == multiset(recycle) + multiset{p};
  }

  /** Index of the first puck with the given entity handle (`Array.find`). */
  function FirstWithEntity(s: seq<Puck>, entity: nat): (r: Option<nat>)
    ensures r.Some? ==> r.value < |s| && s[r.value].entity == entity
    ensures r.Some? ==> forall j :: 0 <= j < r.value ==> s[j].entity != entity
    ensures r.None? <==> forall j :: 0 <= j < |s| ==> s[j].entity != entity
  {
    if s == [] then None
    else if s[0].entity == entity then Some(0)
    else match FirstWithEntity(s[1..], entity)
      case None => None
      case Some(i) => Some(i + 1)
  }

  class Pool {
    /** The recycle stack; its end is the top. */
    var pool: seq<Puck>
    var allObjects: seq<Puck>
    var activeObjects: seq<Puck>
    /** The pending 5000 ms deactivations, one per activation. */
    var scheduled: multiset<Puck>

    /** Every allocated puck is active (with exactly one pending deactivation)
        or recycled, never both, and at most MAX_POOL were ever allocated. */
    ghost predicate Valid()
      reads this
    {
      && Partitioned(allObjects, activeObjects, pool)
      && Distinct(allObjects)
      && scheduled == multiset(activeObjects)
      && |allObjects| <= MAX_POOL
    }

    constructor ()
      ensures Valid()
      ensures pool == [] && allObjects == [] && activeObjects == [] && scheduled == multiset{}
    {
      pool := [];
      allObjects := [];
      activeObjects := [];
      scheduled := multiset{};
    }

    /** `get()`: pops the most recently recycled puck (zeroing its velocities and
        putting it back at the spawn pose, shown) or, with nothing to recycle and
        fewer than MAX_POOL active, allocates a new one; otherwise fails (None
        stands for the thrown error) and changes nothing. The puck handed out
        is activated: appended to the active list with one deactivation
        scheduled. `newEntity` is the handle the engine gives a new puck. */
    method Get(world: PhysWorld.World, newEntity: nat) returns (r: Option<Puck>)
      requires Valid()
      modifies this, world`materials, if |pool| > 0 then {pool[|pool| - 1]} else {}
      ensures Valid()
      ensures r.Some? <==> |old(pool)| > 0 || |old(activeObjects)| < MAX_POOL
      ensures |old(pool)| > 0 ==>
        && r == Some(old(pool)[|old(pool)| - 1])
        && pool == old(pool)[..|old(pool)| - 1]
        && allObjects == old(allObjects)
        && r.value.State() == old(r.value.State()).(position := Spawn, visible := true, bodyAtRest := true)
        && world.materials == old(world.materials)
      ensures |old(pool)| == 0 && |old(activeObjects)| < MAX_POOL ==>
        && r.Some? && fresh(r.value)
        && r.value.entity == newEntity
        && r.value.State() == PuckState(false, false, true, Spawn, Spawn, true, false)
        && pool == old(pool)
        && allObjects == old(allObjects) + [r.value]
        && PuckMaterial in world.materials && fresh(world.materials[PuckMaterial])
        && world.materials == old(world.materials)[PuckMaterial := world.materials[PuckMaterial]]
      ensures r.Some? ==>
        && activeObjects == old(activeObjects) + [r.value]
        && scheduled == old(scheduled) + multiset{r.value}
      ensures r.None? ==>
        && pool == old(pool) && allObjects == old(allObjects)
        && activeObjects == old(activeObjects) && scheduled == old(scheduled)
        && world.materials == old(world.materials)
    {
      var puck: Puck;
      if |pool| > 0 {
        puck := Reuse();
      } else if |activeObjects| < MAX_POOL {
        puck := Allocate(world, newEntity);
      } else {
        return None;
      }
      Activate(puck);
      r := Some(puck);
    }

    /** The reuse branch of `get()`: pop the top of the recycle stack, zero its
        velocities and put it back at the spawn pose, shown. */
    method Reuse() returns (puck: Puck)
      requires Valid() && |pool| > 0
      modifies this`pool, pool[|pool| - 1]
      ensures puck == old(pool)[|old(pool)| - 1] && pool == old(pool)[..|old(pool)| - 1]
      ensures puck.State() == old(puck.State()).(position := Spawn, visible := true, bodyAtRest := true)
      ensures Partitioned(allObjects, activeObjects + [puck], pool) && Distinct(allObjects)
      ensures |allObjects| <= MAX_POOL && scheduled == multiset(activeObjects)
    {
      puck := pool[|pool| - 1];
      PartitionedAfterReuse(allObjects, activeObjects, pool);
      pool := pool[..|pool| - 1];
      puck.bodyAtRest := true;
      puck.position := Spawn;
      puck.visible := true;
    }

    /** The allocation branch of `get()`: a new puck at the spawn pose, shown,
        appended to the allocated list. */
    method Allocate(world: PhysWorld.World, newEntity: nat) returns (puck: Puck)
      requires Valid() && pool == [] && |activeObjects| < MAX_POOL
      modifies this`allObjects, world`materials
      ensures fresh(puck) && puck.entity == newEntity
      ensures puck.State() == PuckState(false, false, true, Spawn, Spawn, true, false)
      ensures allObjects == old(allObjects) + [puck]
      ensures PuckMaterial in world.materials && fresh(world.materials[PuckMaterial])
      ensures world.materials == old(world.materials)[PuckMaterial := world.materials[PuckMaterial]]
      ensures Partitioned(allObjects, activeObjects + [puck], pool) && Distinct(allObjects)
      ensures |allObjects| <= MAX_POOL && scheduled == multiset(activeObjects)
    {
      puck := new Puck(newEntity, world);
      AllocationWithinBound(allObjects, activeObjects, pool, puck);
      PartitionedAfterAllocation(allObjects, activeObjects, pool, puck);
      allObjects := allObjects + [puck];
    }

    /** `activate(puck)`: append to the active list and schedule its deactivation. */
    method Activate(puck: Puck)
      modifies this`activeObjects, this`scheduled
      ensures activeObjects == old(activeObjects) + [puck]
      ensures scheduled == old(scheduled) + multiset{puck}
    {
      activeObjects := activeObjects + [puck];
      scheduled := scheduled + multiset{puck};
    }

    /** A scheduled deactivation fires (`deactivate(puck)`): the puck leaves the
        active list, is unfired and pushed onto the recycle stack. It does not
        check for prior recycling; the pool invariant makes that unnecessary. */
    method Expire(puck: Puck)
      requires Valid() && puck in scheduled
      modifies this, puck`isFired
      ensures Valid()
      ensures old(puck in activeObjects) && puck !in activeObjects
      ensures activeObjects == Without(old(activeObjects), puck)
      ensures |activeObjects| == |old(activeObjects)| - 1
      ensures pool == old(pool) + [puck] && allObjects == old(allObjects)
      ensures scheduled == old(scheduled) - multiset{puck}
      ensures puck.State() == WithFired(old(puck.State()), false)
    {
      assert puck in multiset(activeObjects);
      PartitionedAfterDeactivation(allObjects, activeObjects, pool, puck);
      activeObjects := Without(activeObjects, puck);
      puck.SetFired(false);
      pool := pool + [puck];
      scheduled := scheduled - multiset{puck};
    }

    /** `update()`: every active puck syncs its transform with its body. */
    method Update()
      modifies (set p | p in activeObjects)`position
      ensures forall p :: p in activeObjects ==> p.State() == Synced(old(p.State()))
    {
      var i := 0;
      while i < |activeObjects|
        invariant 0 <= i <= |activeObjects|
        invariant forall p :: p in activeObjects[..i] ==> p.State() == Synced(old(p.State()))
        invariant forall p :: p in activeObjects && p !in activeObjects[..i] ==> p.State() == old(p.State())
      {
        var puck := activeObjects[i];
        SyncedIdempotent(old(puck.State()));
        puck.Update();
        assert activeObjects[..i + 1] == activeObjects[..i] + [puck];
        i := i + 1;
      }
      assert activeObjects[..i] == activeObjects;
    }

    /** `clear()`: every allocated puck is hidden and unfired. The lists and
        the pending deactivations are left as they are. */
    method Clear()
      modifies (set p | p in allObjects)`visible, (set p | p in allObjects)`isFired
      ensures forall p :: p in allObjects ==> p.State() == old(p.State()).(visible := false, isFired := false)
    {
      var i := 0;
      while i < |allObjects|
        invariant 0 <= i <= |allObjects|
        invariant forall p :: p in allObjects[..i] ==> p.State() == old(p.State()).(visible := false, isFired := false)
        invariant forall p :: p in allObjects && p !in allObjects[..i] ==> p.State() == old(p.State())
      {
        var puck := allObjects[i];
        puck.visible := false;
        puck.SetFired(false);
        assert allObjects[..i + 1] == allObjects[..i] + [puck];
        i := i + 1;
      }
      assert allObjects[..i] == allObjects;
    }

    /** `getBy(entity)`: searches every allocated puck, active or recycled;
        absence stands for `undefined`. */
    function GetBy(entity: nat): (r: Option<Puck>)
      reads this
      ensures r.Some? ==> r.value in allObjects && r.value.entity == entity
      ensures r.None? <==> forall p :: p in allObjects ==> p.entity != entity
    {
      match FirstWithEntity(allObjects, entity)
      case None => None
      case Some(i) => Some(allObjects[i])
    }
  }

  /** The pool never allocated more than MAX_POOL pucks. */
  lemma AllocatedWithinBound(p: Pool)
    requires p.Valid()
    ensures |p.allObjects| == |p.activeObjects| + |p.pool| <= MAX_POOL
  {
    PartitionSizes(p.allObjects, p.activeObjects, p.pool);
  }
}
