// The Cloud Hypervisor driver (pkg/driver/cloudhypervisor/driver.go): an instance owns
// one VMM process; the driver makes instances from spares or freshly spawned processes.
module Driver {
  import opened Common
  import opened Files
  import opened Pool
  import opened Snapshots

  datatype RunState = Created | Running | Stopped

  // How a restore goes: the call that loads the snapshot, its repetition in the default
  // memory mode, reaching the guest's agent, and the pod's network.
  datatype Loading = Loading(loads: bool, loadsAgain: bool, reachable: bool, networked: bool)

  class Instance {
    const vmm: VmmHandle
    var agent: bool         // is the guest agent connected?
    var state: RunState

    constructor (vmm: VmmHandle)
      ensures this.vmm == vmm && state == Created && !agent
    {
      this.vmm := vmm;
      agent := false;
      state := Created;
    }

    // Booting a VM and reaching its agent: the agent is connected before the last
    // checks, which may still fail.
    method Boot(up: bool, healthy: bool) returns (ok: bool)
      modifies this
      ensures ok == (up && healthy) && agent == (up || old(agent))
      ensures state == if ok then Running else old(state)
    {
      ok := false;
      if up {
        agent := true;
        if healthy {
          state := Running;
          ok := true;
        }
      }
    }

    // Loading a snapshot: only a refused on-demand restore is tried once more, and only
    // a pod's sandbox needs the network. The agent is connected before that.
    method Load(onDemand: bool, pod: bool, env: Loading) returns (ok: bool)
      modifies this
      ensures ok == ((env.loads || (onDemand && env.loadsAgain)) && env.reachable && (pod ==> env.networked))
      ensures state == (if ok then Running else old(state)) && (ok ==> agent)
    {
      var loaded := env.loads;
      if !loaded && onDemand {
        loaded := env.loadsAgain;
      }
      if !loaded || !env.reachable {
        return false;
      }
      agent := true;
      if pod && !env.networked {
        return false;
      }
      state := Running;
      ok := true;
    }

    method Stop()
      modifies this, vmm
      ensures state == Stopped && !vmm.alive
    {
      vmm.Kill();
      state := Stopped;
    }

    // The destination is replaced: on success it holds the files the VMM wrote and
    // nothing else, in inodes that did not exist before, so no overlay shares one.
    method Snapshot(fs: FileSystem, path: Path, pauses: bool, files: seq<Written>, resumes: bool) returns (ok: bool)
      requires fs.Valid()
      modifies this, fs
      ensures fs.Valid() && Happens(old(fs.View()), Resnapshot(path), fs.View())
      ensures ok ==> state == Running && pauses && resumes
      ensures ok ==> forall q :: q in fs.tree && path <= q && q != path ==>
        exists k :: 0 <= k < |files| && q == path + [files[k].name]
      ensures ok ==> forall k :: 0 <= k < |files| ==>
        var q := path + [files[k].name];
        IsFile(fs.View(), q) && Read(fs.View(), q) == files[k].content && fs.tree[q].ino !in old(fs.data)
      ensures !ok ==> state == old(state)
      ensures old(fs.faults) == fs.faults && old(Reachable(fs.View(), path)) ==>
        ok == (pauses && resumes && forall j, k :: 0 <= j < k < |files| ==> files[j].name != files[k].name)
    {
      ok := Empty(fs, path);
      if !ok {
        return;
      }
      if !pauses {
        return false;
      }
      ok := SnapshotVM(fs, path, files);
      if !resumes {
        ok := false;
      }
      if !ok {
        return;
      }
      state := Running;
    }
  }

  // The directory is made anew.
  method Empty(fs: FileSystem, path: Path) returns (ok: bool)
    requires fs.Valid()
    modifies fs`tree, fs`faults
    ensures fs.Valid() && Confined(old(fs.View()), fs.View(), path)
    ensures ok ==> forall q :: q in fs.tree && path <= q ==> q == path
    ensures old(fs.faults) <= fs.faults && (old(Reachable(fs.View(), path)) ==> ok || old(fs.faults) < fs.faults)
  {
    ok := fs.RemoveAll(path);
    if ok {
      ok := fs.MkdirAll(path);
    }
  }

  // No file is in the way of a directory's parents.
  ghost predicate Reachable(s: FS, p: Path) {
    forall q :: q in s.tree && q <= p && q != p ==> s.tree[q].Dir?
  }

  class Driver {
    const pool: VmmPool
    const spawner: Spawner
    const dirOf: Handle -> Path      // a process's working directory
    const onDemand: bool             // restore memory on demand?

    constructor (pool: VmmPool, spawner: Spawner, dirOf: Handle -> Path, onDemand: bool)
      ensures this.pool == pool && this.spawner == spawner && this.dirOf == dirOf && this.onDemand == onDemand
    {
      this.pool, this.spawner, this.dirOf, this.onDemand := pool, spawner, dirOf, onDemand;
    }

    // The spares are live processes, each listed once.
    ghost predicate Ready()
      reads pool, pool.idle
    {
      NoDup(pool.idle) && forall h :: h in pool.idle ==> h.alive
    }

    // get: the newest spare, else a new process; either way a refill is kicked off.
    // A closed pool still gives out new processes.
    method Get() returns (h: VmmHandle?, kicked: bool)
      requires Ready()
      modifies pool`idle, pool`refilling, spawner
      ensures Ready() && (pool.View(), kicked) == old(pool.View()).Take().0.TryKick()
      ensures kicked == (pool.target > 0 && !old(pool.refilling) && !pool.closed)
      ensures h == null ==> old(pool.idle) == [] && old(spawner.failures) < spawner.failures
      ensures old(spawner.failures) <= spawner.failures
      ensures old(pool.idle) != [] ==> h == old(pool.idle)[|old(pool.idle)| - 1] && h in old(pool.idle) && h.alive
      ensures pool.idle == if old(pool.idle) == [] then [] else old(pool.idle)[..|old(pool.idle)| - 1]
      ensures old(pool.idle) == [] && h != null ==> fresh(h) && h.alive
      ensures h !in pool.idle
    {
      h := pool.TakeIdle();
      kicked := pool.TryKick();
      if h == null {
        h := spawner.Spawn();
      }
    }

    // Create. On success a running instance holds a live process that is no spare; on
    // failure the process obtained, if any, is terminated and not put back.
    method Create(netns: bool, up: bool, healthy: bool) returns (inst: Instance?, ghost got: VmmHandle?)
      requires Ready()
      modifies pool`idle, pool`refilling, spawner, pool.idle
      ensures Ready() && pool.View() == if netns then old(pool.View()) else old(pool.View()).Take().0.TryKick().0
      ensures pool.idle ==
              if netns || old(pool.idle) == [] then old(pool.idle) else old(pool.idle)[..|old(pool.idle)| - 1]
      ensures got != null ==> got !in pool.idle
      ensures netns || old(pool.idle) == [] ==>
        if got == null then old(spawner.failures) < spawner.failures else fresh(got)
      ensures !netns && old(pool.idle) != [] ==> got == old(pool.idle)[|old(pool.idle)| - 1]
      ensures inst != null <==> got != null && up && healthy
      ensures inst != null ==> fresh(inst) && inst.vmm == got && got.alive && inst.state == Running && inst.agent
      ensures inst == null && got != null ==> !got.alive
    {
      var h;
      if netns {
        h := spawner.Spawn();
      } else {
        var kicked;
        h, kicked := Get();
      }
      got := h;
      inst := null;
      if h != null {
        inst := new Instance(h);
        var ok := inst.Boot(up, healthy);
        if !ok {
          inst.Stop();
          inst := null;
        }
      }
    }

    // Restore: as Create, from an overlay prepared in the process's directory, which the
    // spawn has made and which holds no overlay yet. A process whose overlay fails is
    // killed and its directory removed; one that does not come up is stopped.
    method Restore(fs: FileSystem, tpl: Path, socket: string, pod: bool, env: Loading)
      returns (inst: Instance?, ghost got: VmmHandle?, ghost cloned: bool)
      requires Ready() && fs.Valid()
      modifies pool`idle, pool`refilling, spawner, pool.idle, fs
      ensures Ready() && fs.Valid() && pool.View() == old(pool.View()).Take().0.TryKick().0
      ensures pool.idle == if old(pool.idle) == [] then [] else old(pool.idle)[..|old(pool.idle)| - 1]
      ensures got != null ==> got !in pool.idle
      ensures old(pool.idle) != [] ==> got == old(pool.idle)[|old(pool.idle)| - 1]
      ensures old(pool.idle) == [] ==> if got == null then old(spawner.failures) < spawner.failures else fresh(got)
      ensures inst != null <==>
        && got != null && cloned && env.reachable && (pod ==> env.networked)
        && (env.loads || (onDemand && env.loadsAgain))
      ensures inst != null ==> fresh(inst) && inst.vmm == got && got.alive && inst.state == Running && inst.agent
      ensures inst == null && got != null ==> !got.alive
      ensures got == null ==> fs.View() == old(fs.View())
      ensures got != null && old(fs.faults) == fs.faults && Clonable(old(fs.View()), tpl, OverlayOf(dirOf(got.id))) ==>
        cloned
      ensures got != null && old(fs.faults) == fs.faults && !cloned ==> Vacant(fs.View(), dirOf(got.id))
      ensures got != null ==>
        var dir := dirOf(got.id);
        Vacant(old(fs.View()), OverlayOf(dir)) ==>
          && Confined(old(fs.View()), fs.View(), dir)
          && (cloned ==> IsClone(old(fs.View()), tpl, fs.View(), OverlayOf(dir), socket))
    {
      var h, kicked := Get();
      got := h;
      inst, cloned := null, false;
      if h != null {
        var ok := Prepare(fs, tpl, h, dirOf(h.id), socket);
        cloned := ok;
        if ok {
          inst := new Instance(h);
          ok := inst.Load(onDemand, pod, env);
          if !ok {
            inst.Stop();
            inst := null;
          }
        }
      }
    }

    method Close()
      modifies pool, pool.idle
      ensures pool.View() == old(pool.View()).Drain().0 && forall h :: h in old(pool.idle) ==> !h.alive
    {
      pool.Close();
    }
  }

  // A clone's overlay, or else the end of the process and of its directory.
  method Prepare(fs: FileSystem, tpl: Path, h: VmmHandle, dir: Path, socket: string) returns (ok: bool)
    requires fs.Valid()
    modifies fs, h
    ensures fs.Valid() && h.alive == (ok && old(h.alive)) && old(fs.faults) <= fs.faults
    ensures Clonable(old(fs.View()), tpl, OverlayOf(dir)) ==> ok || old(fs.faults) < fs.faults
    ensures ok || Vacant(fs.View(), dir) || old(fs.faults) < fs.faults
    ensures Vacant(old(fs.View()), OverlayOf(dir)) ==>
      && Confined(old(fs.View()), fs.View(), dir)
      && (ok ==> IsClone(old(fs.View()), tpl, fs.View(), OverlayOf(dir), socket))
  {
    ghost var s0 := fs.View();
    var overlay;
    ok, overlay := PrepareCloneSnapshot(fs, tpl, dir, socket);
    ghost var s1 := fs.View();
    ConfinedAbove(s0, s1, dir);
    if !ok {
      h.Kill();
      Cleanup(fs, dir);
      if Confined(s0, s1, dir) {
        ConfinedTransitive(s0, s1, fs.View(), dir);
      }
    }
  }

  // What is confined to a directory's overlay is confined to the directory.
  lemma ConfinedAbove(s: FS, s': FS, dir: Path)
    ensures Confined(s, s', OverlayOf(dir)) ==> Confined(s, s', dir)
  {
    if Confined(s, s', OverlayOf(dir)) {
      forall q | q in s'.tree && !(dir <= q) && q !in s.tree ensures q <= dir && s'.tree[q].Dir? {
        assert q <= OverlayOf(dir);
      }
    }
  }
}
