/**
 * The named timer registry of src/core/timers.ts.
 *
 * The registry maps a name to a record {id, delay, count}. Each record owns
 * one repeating interval of the engine's scheduler; the interval's closure
 * captured the name and, on every fire, bumps that name's count by one
 * before the caller's callback runs. The callback itself is the caller's
 * code: a method here only reports that it has to run, and the caller
 * (the match controller) runs it.
 *
 * The `maxCount` option the callers pass is not part of the record and is
 * never read, so a timer fires until somebody removes it.
 */
module Timers {
  import opened Wrappers

  /** A registry record: the interval handle, the period and the fires so far. */
  datatype TimerData = TimerData(id: nat, delay: int, count: int)

  type Registry = map<string, TimerData>

  /** The record list after `create(name, …)` has stored its record (and, with
      `immediately`, bumped the count once before the synchronous callback). */
  function Created(list: Registry, name: string, delay: int, id: nat, immediately: bool): (r: Registry)
    ensures name in r && r[name] == TimerData(id, delay, if immediately then 1 else 0)
    ensures forall n :: n != name ==> (n in r <==> n in list)
    ensures forall n :: n in list && n != name ==> r[n] == list[n]
  {
    list[name := TimerData(id, delay, if immediately then 1 else 0)]
  }

  /** The record list after one fire of `name`'s interval. */
  function Fired(list: Registry, name: string): (r: Registry)
    requires name in list
    ensures r.Keys == list.Keys
    ensures r[name] == list[name].(count := list[name].count + 1)
    ensures forall n :: n in list && n != name ==> r[n] == list[n]
  {
    list[name := list[name].(count := list[name].count + 1)]
  }

  /** The record list after `remove(name)`; absent names are a no-op. */
  function Removed(list: Registry, name: string): (r: Registry)
    ensures name !in r
    ensures forall n :: n != name ==> (n in r <==> n in list)
    ensures forall n :: n in list && n != name ==> r[n] == list[n]
    ensures name !in list ==> r == list
  {
    list - {name}
  }

  /** The record list after `k` consecutive fires of `name`'s interval. */
  function FiredTimes(list: Registry, name: string, k: nat): (r: Registry)
    requires name in list
    ensures r.Keys == list.Keys
  {
    if k == 0 then list else Fired(FiredTimes(list, name, k - 1), name)
  }

  /** Fires never remove a timer: after k fires the count grew by exactly k,
      the handle and the delay are those the record was created with, and no
      other name's record changed. */
  lemma {:induction false} FiredTimesCount(list: Registry, name: string, k: nat)
    requires name in list
    ensures name in FiredTimes(list, name, k)
    ensures FiredTimes(list, name, k)[name] == list[name].(count := list[name].count + k)
    ensures FiredTimes(list, name, k).Keys == list.Keys
    ensures forall n :: n in list && n != name ==> FiredTimes(list, name, k)[n] == list[n]
  {
    if k > 0 {
      FiredTimesCount(list, name, k - 1);
    }
  }

  /** A freshly created timer has counted exactly k fires after k fires, or
      k + 1 when it was created with `immediately`: nothing ever stops it. */
  lemma CreatedThenFired(list: Registry, name: string, delay: int, id: nat, immediately: bool, k: nat)
    ensures name in FiredTimes(Created(list, name, delay, id, immediately), name, k)
    ensures FiredTimes(Created(list, name, delay, id, immediately), name, k)[name]
         == TimerData(id, delay, k + if immediately then 1 else 0)
  {
    FiredTimesCount(Created(list, name, delay, id, immediately), name, k);
  }

  /** Records and live intervals agree: each record's handle is live and
      points back at its name, each live handle is owned by the record under
      its name, and every handle was already handed out. */
  ghost predicate Consistent(list: Registry, intervals: map<nat, string>, nextId: nat)
  {
    && (forall n :: n in list ==> list[n].id in intervals && intervals[list[n].id] == n)
    && (forall i :: i in intervals ==> intervals[i] in list && list[intervals[i]].id == i)
    && (forall i :: i in intervals ==> i < nextId)
  }

  /** Storing a record for an absent name with a never-used handle keeps the
      registry consistent, whatever count the record starts with. */
  lemma ConsistentAfterCreate(list: Registry, intervals: map<nat, string>, nextId: nat, name: string, rec: TimerData)
    requires Consistent(list, intervals, nextId) && name !in list && rec.id == nextId
    ensures Consistent(list[name := rec], intervals[nextId := name], nextId + 1)
  {
    var list', intervals' := list[name := rec], intervals[nextId := name];
    forall n | n in list'
      ensures list'[n].id in intervals' && intervals'[list'[n].id] == n
    {
      if n != name {
        assert list[n].id < nextId;
      }
    }
    forall i | i in intervals'
      ensures intervals'[i] in list' && list'[intervals'[i]].id == i
    {
      if i != nextId {
        assert intervals[i] in list;
      }
    }
  }

  /** The registry, together with the scheduler's live intervals it owns. */
  class TimerRegistry {
    var list: Registry
    /** Live interval handles of the scheduler, each mapped to the name its closure captured. */
    var intervals: map<nat, string>
    /** The next handle the scheduler's setInterval hands out. */
    var nextId: nat

    /** Every record owns a live interval and every live interval belongs to
        the record under the name it captured: one live interval per name. */
    ghost predicate Valid()
      reads this
    {
      Consistent(list, intervals, nextId)
    }

    constructor ()
      ensures Valid()
      ensures list == map[] && intervals == map[]
    {
      list := map[];
      intervals := map[];
      nextId := 0;
    }

    /** `get(name)`: the record, or absence for a name never created or removed. */
    function Get(name: string): (r: Option<TimerData>)
      reads this
      ensures r.Some? <==> name in list
      ensures r.Some? && Valid() ==> r.value.id in intervals && intervals[r.value.id] == name
    {
      if name in list then Some(list[name]) else None
    }

    /** `create(name, callback, {delay, immediately})`. A live record under the
        name is removed first (its interval cleared); a new interval is set up
        and the record stored with count 0; with `immediately` the count is
        bumped to 1 and `runCallback` tells the caller to run its callback now. */
    method Create(name: string, delay: int, immediately: bool) returns (runCallback: bool)
      modifies this
      ensures old(Valid()) ==> Valid()
      ensures list == Created(old(list), name, delay, old(nextId), immediately)
      ensures intervals == (if name in old(list) then old(intervals) - {old(list)[name].id} else old(intervals))[old(nextId) := name]
      ensures runCallback == immediately
    {
      if name in list {
        Remove(name);
      }
      Store(name, delay, immediately);
      runCallback := immediately;
    }

    /** The second half of `create`: a record for an absent name is stored
        under a never-used handle. */
    method Store(name: string, delay: int, immediately: bool)
      requires name !in list
      modifies this
      ensures old(Valid()) ==> Valid()
      ensures list == Created(old(list), name, delay, old(nextId), immediately)
      ensures intervals == old(intervals)[old(nextId) := name] && nextId == old(nextId) + 1
    {
      ghost var wasValid := Valid();
      var id := nextId;
      nextId := nextId + 1;
      intervals := intervals[id := name];
      list := list[name := TimerData(id, delay, 0)];
      if immediately {
        list := list[name := list[name].(count := list[name].count + 1)];
      }
      if wasValid {
        ConsistentAfterCreate(old(list), old(intervals), id, name, list[name]);
      }
    }

    /** `remove(name)`: clears the record's interval and drops the record;
        a no-op for an absent name. */
    method Remove(name: string)
      modifies this
      ensures old(Valid()) ==> Valid()
      ensures list == Removed(old(list), name)
      ensures intervals == if name in old(list) then old(intervals) - {old(list)[name].id} else old(intervals)
      ensures nextId == old(nextId)
    {
      if name in list {
        intervals := intervals - {list[name].id};
        list := list - {name};
      }
    }

    /** One fire of the interval owned by `name` (delivered only while it is
        live, so the closure always finds the record): the count goes up by
        one before the caller's callback runs. */
    method Fire(name: string)
      requires name in list
      modifies this`list
      ensures old(Valid()) ==> Valid()
      ensures list == Fired(old(list), name)
    {
      list := list[name := list[name].(count := list[name].count + 1)];
    }
  }

  /** Two live intervals that captured the same name are the same interval. */
  lemma OneIntervalPerName(t: TimerRegistry, i: nat, j: nat)
    requires t.Valid() && i in t.intervals && j in t.intervals
    requires t.intervals[i] == t.intervals[j]
    ensures i == j
  {
    var n := t.intervals[i];
    assert t.list[n].id == i && t.list[n].id == j;
  }
}
