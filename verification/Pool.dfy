// The prewarmed VMM pool (pkg/driver/cloudhypervisor/pool.go).
//
// PoolState gives the effect of each critical section of the pool as a
// function; VmmPool is the pool itself, whose methods are those critical
// sections and are proved to compute the functions. Fleet.dfy interleaves them.
module Pool {
  import opened Common

  // A VMM process, named by the identifier it was spawned under.
  type Handle = nat

  datatype PoolState = PoolState(target: int, idle: seq<Handle>, refilling: bool, closed: bool) {
    // get: pop the most recently added spare, if there is one.
    function Take(): (PoolState, Option<Handle>) {
      if |idle| > 0 then (this.(idle := idle[..|idle| - 1]), Some(idle[|idle| - 1])) else (this, None)
    }

    // kickRefill: claim the refiller role. True means that a goroutine starts.
    function TryKick(): (PoolState, bool) {
      if target <= 0 || refilling || closed then (this, false) else (this.(refilling := true), true)
    }

    // The refiller's look at the deficit.
    predicate Satisfied() { target - |idle| <= 0 || closed }

    // The refiller's append; false means that the pool closed meanwhile.
    function Offer(h: Handle): (PoolState, bool) {
      if closed then (this, false) else (this.(idle := idle + [h]), true)
    }

    // close: the spares handed over to be killed.
    function Drain(): (PoolState, seq<Handle>) { (this.(idle := [], closed := true), idle) }

    // The refiller's deferred exit.
    function Reset(): PoolState { this.(refilling := false) }
  }

  class VmmHandle {
    const id: Handle
    var alive: bool

    constructor (id: Handle)
      ensures this.id == id && alive
    {
      this.id := id;
      alive := true;
    }

    method Kill()
      modifies this
      ensures !alive
    {
      alive := false;
    }
  }

  // Where processes come from: a spawn fails, or yields a live process under an
  // identifier never used before.
  class Spawner {
    var issued: nat
    ghost var failures: nat

    constructor () { issued, failures := 0, 0; }

    method Spawn() returns (h: VmmHandle?)
      modifies this
      ensures h == null ==> issued == old(issued) && failures == old(failures) + 1
      ensures h != null ==> failures == old(failures) && fresh(h) && h.alive && h.id == old(issued) < issued
    {
      h := null;
      var ok: bool := *;
      if ok {
        h := new VmmHandle(issued);
        issued := issued + 1;
      } else {
        failures := failures + 1;
      }
    }
  }

  function Ids(hs: seq<VmmHandle>): (ids: seq<Handle>)
    ensures |ids| == |hs| && forall i :: 0 <= i < |hs| ==> ids[i] == hs[i].id
  {
    seq(|hs|, i requires 0 <= i < |hs| => hs[i].id)
  }

  class VmmPool {
    const target: int
    var idle: seq<VmmHandle>
    var refilling: bool
    var closed: bool

    ghost function View(): PoolState
      reads this
    {
      PoolState(target, Ids(idle), refilling, closed)
    }

    constructor (target: int)
      ensures View() == PoolState(target, [], false, false)
    {
      this.target := target;
      idle, refilling, closed := [], false, false;
    }

    method TakeIdle() returns (h: VmmHandle?)
      modifies this`idle
      ensures View() == old(View()).Take().0
      ensures h == null <==> old(View()).Take().1 == None
      ensures h != null ==> old(idle) == idle + [h] && old(View()).Take().1 == Some(h.id)
    {
      h := null;
      var n := |idle|;
      if n > 0 {
        h := idle[n - 1];
        idle := idle[..n - 1];
      }
    }

    method TryKick() returns (started: bool)
      modifies this`refilling
      ensures (View(), started) == old(View()).TryKick()
      ensures started == (target > 0 && !old(refilling) && !closed) && refilling == (started || old(refilling))
    {
      if target <= 0 || refilling || closed {
        return false;
      }
      refilling := true;
      return true;
    }

    method Satisfied() returns (stop: bool)
      ensures stop == View().Satisfied() == (|idle| >= target || closed)
    {
      var need := target - |idle|;
      stop := need <= 0 || closed;
    }

    // The refiller's second critical section. A refused process is the caller's to kill.
    method Offer(h: VmmHandle) returns (kept: bool)
      modifies this`idle
      ensures (View(), kept) == old(View()).Offer(h.id)
      ensures kept == !closed && idle == if kept then old(idle) + [h] else old(idle)
    {
      kept := !closed;
      if kept {
        idle := idle + [h];
        assert Ids(idle) == old(Ids(idle)) + [h.id];
      }
    }

    method Reset()
      modifies this`refilling
      ensures View() == old(View()).Reset() && !refilling
    {
      refilling := false;
    }

    // The refiller from its first check to its deferred reset, when nobody else
    // touches the pool meanwhile. It always ends, having only added live
    // processes at the end of the list; it stops short of the target only
    // because the pool is closed or because a spawn failed.
    method RefillUndisturbed(spawner: Spawner) returns (spawnFailed: bool)
      requires refilling
      modifies this, spawner
      ensures View() == old(View()).Reset().(idle := Ids(idle)) && !refilling && closed == old(closed)
      ensures spawnFailed == (old(spawner.failures) < spawner.failures)
      ensures old(idle) <= idle
      ensures forall i :: |old(idle)| <= i < |idle| ==>
        fresh(idle[i]) && idle[i].alive && idle[i].id >= old(spawner.issued)
      ensures forall i, j :: |old(idle)| <= i < j < |idle| ==> idle[i].id < idle[j].id
      ensures |idle| <= if |old(idle)| >= target then |old(idle)| else target
      ensures !spawnFailed && !closed ==> |idle| == if |old(idle)| >= target then |old(idle)| else target
      ensures closed ==> idle == old(idle)
    {
      spawnFailed := false;
      while true
        invariant refilling && closed == old(closed) && !spawnFailed
        invariant old(idle) <= idle && |idle| <= (if |old(idle)| >= target then |old(idle)| else target)
        invariant old(spawner.issued) <= spawner.issued && old(spawner.failures) == spawner.failures
        invariant forall i :: |old(idle)| <= i < |idle| ==>
          fresh(idle[i]) && idle[i].alive && old(spawner.issued) <= idle[i].id < spawner.issued
        invariant forall i, j :: |old(idle)| <= i < j < |idle| ==> idle[i].id < idle[j].id
        invariant closed ==> idle == old(idle)
        decreases target - |idle|
      {
        var stop := Satisfied();
        if stop {
          break;
        }
        var h := spawner.Spawn();
        if h == null {
          spawnFailed := true;
          break;
        }
        // With nobody else at work the pool cannot have closed during the spawn, so
        // the branch that kills a refused process is dead here; Fleet.dfy has it.
        var kept := Offer(h);
        assert kept;
      }
      Reset();
    }

    // close, with no other closer at work: every spare is killed and the pool is empty for good.
    method Close()
      modifies this, idle
      ensures View() == old(View()).Drain().0 && closed && idle == []
      ensures forall h :: h in old(idle) ==> !h.alive
    {
      closed := true;
      var victims := idle;
      idle := [];
      for i := 0 to |victims|
        invariant View() == old(View()).Drain().0 && victims == old(idle)
        invariant forall j :: 0 <= j < i ==> !victims[j].alive
      {
        victims[i].Kill();
      }
    }
  }
}
