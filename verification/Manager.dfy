// The sandbox Manager (pkg/sandbox/sandbox.go) as an object. The critical sections are
// those Fleet.dfy interleaves; Delete and Shutdown are also given whole, as they run
// when nobody interferes.
module Manager {
  import opened Common
  import opened Pool
  import Driver
  import Fleet

  datatype Tracked = Tracked(inst: Driver.Instance, driver: nat)

  class Manager {
    const drivers: map<string, nat>
    const pools: seq<VmmPool>
    var instances: map<Handle, Tracked>

    // The abstract table: what Fleet.instances holds.
    ghost function Table(): map<Handle, Fleet.Entry>
      reads this
    {
      map k | k in instances :: Fleet.Entry(instances[k].inst.vmm.id, instances[k].driver)
    }

    ghost predicate Valid()
      reads this
    {
      && (forall n :: n in drivers ==> drivers[n] < |pools|)
      && (forall i, j :: 0 <= i < j < |pools| ==> pools[i] != pools[j])
      && (forall k :: k in instances ==> instances[k].inst.vmm.id == k && instances[k].driver < |pools|)
    }

    // The spares of all pools.
    ghost function Idle(): set<VmmHandle>
      reads pools
    {
      set p, h | p in pools && h in p.idle :: h
    }

    constructor (drivers: map<string, nat>, pools: seq<VmmPool>)
      requires forall n :: n in drivers ==> drivers[n] < |pools|
      requires forall i, j :: 0 <= i < j < |pools| ==> pools[i] != pools[j]
      ensures Valid() && this.drivers == drivers && this.pools == pools && Table() == map[]
    {
      this.drivers := drivers;
      this.pools := pools;
      instances := map[];
    }

    method Track(inst: Driver.Instance, d: nat)
      requires Valid() && d < |pools|
      modifies this
      ensures Valid() && Table() == old(Table())[inst.vmm.id := Fleet.Entry(inst.vmm.id, d)]
      ensures instances == old(instances)[inst.vmm.id := Tracked(inst, d)]
    {
      instances := instances[inst.vmm.id := Tracked(inst, d)];
    }

    // Delete's critical section: take the entry out of the table.
    method Claim(id: Handle) returns (inst: Driver.Instance?)
      requires Valid()
      modifies this
      ensures Valid() && Table() == old(Table()) - {id}
      ensures inst == null <==> id !in old(instances)
      ensures inst != null ==> inst == old(instances)[id].inst
      ensures instances == old(instances) - {id}
    {
      inst := null;
      if id in instances {
        inst := instances[id].inst;
        instances := instances - {id};
      }
      assert id !in old(instances) ==> instances == old(instances) - {id};
    }

    method Delete(id: Handle) returns (ok: bool)
      requires Valid()
      modifies this, set k | k in instances :: instances[k].inst, set k | k in instances :: instances[k].inst.vmm
      ensures Valid() && Table() == old(Table()) - {id} && ok == (id in old(instances))
      ensures ok ==> var i := old(instances)[id].inst; i.state == Driver.Stopped && !i.vmm.alive
      ensures forall k ::
        k in old(instances) && old(instances)[k].inst.vmm != (if ok then old(instances)[id].inst.vmm else null) ==>
        old(instances)[k].inst.vmm.alive == old(instances[k].inst.vmm.alive)
    {
      var inst := Claim(id);
      ok := inst != null;
      if ok {
        inst.Stop();
      }
    }

    // Shutdown's critical section: take every instance, in some order, and leave none.
    method TakeAll() returns (insts: seq<Driver.Instance>)
      requires Valid()
      modifies this
      ensures Valid() && Table() == map[] && instances == map[]
      ensures forall k :: k in old(instances) ==> old(instances)[k].inst in insts
      ensures forall i :: i in insts ==> exists k :: k in old(instances) && old(instances)[k].inst == i
      ensures Fleet.EachOnce(InstIds(insts), old(Table()).Keys)
    {
      insts := [];
      var left := instances.Keys;
      while left != {}
        invariant left <= instances.Keys && instances == old(instances)
        invariant forall k :: k in instances.Keys - left ==> instances[k].inst in insts
        invariant forall i :: i in insts ==> exists k :: k in instances.Keys - left && instances[k].inst == i
        invariant NoDup(InstIds(insts))
        invariant forall h :: h in InstIds(insts) <==> h in instances.Keys - left
      {
        var k :| k in left;
        assert InstIds(insts + [instances[k].inst]) == InstIds(insts) + [k];
        insts := insts + [instances[k].inst];
        left := left - {k};
      }
      instances := map[];
      assert old(Table()).Keys == old(instances).Keys;
      assert Elems(InstIds(insts)) == old(instances).Keys;
    }

    // Shutdown, undisturbed: every tracked instance is stopped and every driver's
    // pool is closed with its spares killed.
    method Shutdown()
      requires Valid()
      modifies this, set k | k in instances :: instances[k].inst, set k | k in instances :: instances[k].inst.vmm
      modifies pools, Idle()
      ensures Valid() && instances == map[]
      ensures forall k :: k in old(instances) ==>
        old(instances)[k].inst.state == Driver.Stopped && !old(instances)[k].inst.vmm.alive
      ensures forall d :: d in drivers.Values ==> pools[d].View() == old(pools[d].View()).Drain().0
      ensures forall d :: d in drivers.Values ==> pools[d].closed && pools[d].idle == []
      ensures forall d, h :: d in drivers.Values && h in old(pools[d].idle) ==> !h.alive
    {
      ghost var was := instances;
      var insts := TakeAll();
      StopAll(insts);
      assert forall k :: k in was ==> was[k].inst in insts;
      CloseAll(insts);
      assert forall k :: k in was ==> was[k].inst in insts;
    }

    method StopAll(insts: seq<Driver.Instance>)
      modifies set i | i in insts :: i, set i | i in insts :: i.vmm
      ensures forall i :: i in insts ==> i.state == Driver.Stopped && !i.vmm.alive
    {
      for n := 0 to |insts|
        invariant forall j :: 0 <= j < n ==> insts[j].state == Driver.Stopped && !insts[j].vmm.alive
      {
        assert insts[n] in insts;
        insts[n].Stop();
      }
    }

    method CloseAll(ghost insts: seq<Driver.Instance>)
      requires Valid()
      requires forall i :: i in insts ==> i.state == Driver.Stopped && !i.vmm.alive
      modifies pools, Idle()
      ensures forall i :: i in insts ==> i.state == Driver.Stopped && !i.vmm.alive
      ensures forall d :: d in drivers.Values ==> pools[d].View() == old(pools[d].View()).Drain().0
      ensures forall d :: d in drivers.Values ==> pools[d].closed && pools[d].idle == []
      ensures forall d, h :: d in drivers.Values && h in old(pools[d].idle) ==> !h.alive
    {
      var left := drivers.Values;
      while left != {}
        invariant left <= drivers.Values
        invariant forall i :: i in insts ==> i.state == Driver.Stopped && !i.vmm.alive
        invariant forall d :: d in left ==> unchanged(pools[d])
        invariant forall d :: d in drivers.Values - left ==> pools[d].View() == old(pools[d].View()).Drain().0
        invariant forall d :: d in drivers.Values - left ==> pools[d].closed && pools[d].idle == []
        invariant forall d, h :: d in drivers.Values - left && h in old(pools[d].idle) ==> !h.alive
      {
        var d :| d in left;
        ghost var p := pools[d];
        assert p in pools && forall h :: h in p.idle ==> h in old(p.idle) && h in old(Idle());
        pools[d].Close();
        left := left - {d};
      }
    }
  }

  function InstIds(insts: seq<Driver.Instance>): (ids: seq<Handle>)
    ensures |ids| == |insts| && forall i :: 0 <= i < |insts| ==> ids[i] == insts[i].vmm.id
  {
    seq(|insts|, i requires 0 <= i < |insts| => insts[i].vmm.id)
  }
}
