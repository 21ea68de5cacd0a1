// The concurrent system made of the sandbox Manager (pkg/sandbox/sandbox.go),
// the Cloud Hypervisor driver (pkg/driver/cloudhypervisor/driver.go) and its
// VMM pool (pool.go), as a transition system.
//
// A thread is the local state of one call or goroutine between two steps; a
// step is one critical section, or one unlocked piece of work whose outcome is
// chosen by the environment. Any number of threads interleave.
module Fleet {
  import opened Common
  import opened Placement
  import opened Pool

  type Tid = nat

  // The Manager's record of a tracked instance.
  datatype Entry = Entry(inst: Handle, driver: nat)

  // How an instance comes about: cold boot on a pooled VMM, cold boot on a VMM
  // spawned inside a pod's network namespace, or restore from a snapshot.
  datatype Mode = Cold | ColdInNetns | Clone

  // Manager.Create, RestoreFrom and Fork, through the driver and pool.get.
  datatype MakerPc =
    | Lookup(name: string, mode: Mode)
    | ForkLookup(src: Handle)
    | ForkSnapshot(src: Handle, driver: nat)
    | Get(driver: nat, mode: Mode)
    | Kick(driver: nat, mode: Mode, got: Option<Handle>)
    | Spawn(driver: nat, mode: Mode)
    | Overlay(driver: nat, h: Handle)
    | Boot(driver: nat, h: Handle)
    | Undo(h: Handle)
    | Track(driver: nat, h: Handle)

  // Manager.Delete and Shutdown, Driver.Close and Warm.
  datatype EnderPc =
    | DeleteLookup(id: Handle)
    | Claimed(h: Handle)
    | ShutdownLock
    | ShutdownStop(insts: seq<Handle>, drivers: seq<nat>)
    | ShutdownClose(drivers: seq<nat>)
    | ShutdownKill(driver: nat, kills: seq<Handle>, drivers: seq<nat>)
    | CloseLock(driver: nat)
    | CloseKill(driver: nat, kills: seq<Handle>)
    | WarmKick(driver: nat)

  // The goroutine started by kickRefill.
  datatype RefillPc = Check | Spawning | Offering(h: Handle) | Killing(h: Handle) | Resetting

  datatype Thread =
    | Maker(m: MakerPc)
    | Ender(e: EnderPc)
    | Refiller(driver: nat, r: RefillPc)
    | Done(ok: bool)

  datatype Fleet = Fleet(
    drivers: map<string, nat>,      // Manager.drivers: name -> driver
    restorer: seq<bool>,            // does driver d implement Restorer?
    pools: seq<PoolState>,          // driver d's pool
    instances: map<Handle, Entry>,  // Manager.instances
    threads: map<Tid, Thread>,
    spawned: set<Handle>,           // history: every process ever spawned
    gone: seq<Handle>)              // history: the terminations, in order

  // What the environment decides in a step: the outcome of unlocked work, the
  // identifier NewID draws, the id of a started goroutine, and the order in
  // which Go ranges over a map.
  datatype Choice = Choice(ok: bool, newId: Handle, child: Tid, insts: seq<Handle>, order: seq<nat>)

  datatype Action = Call(t: Tid, th: Thread) | Step(t: Tid, c: Choice)

  function Goto(s: Fleet, t: Tid, th: Thread): Fleet { s.(threads := s.threads[t := th]) }

  function Bury(s: Fleet, h: Handle): Fleet { s.(gone := s.gone + [h]) }

  function WithPool(s: Fleet, d: nat, p: PoolState): Fleet
    requires d < |s.pools|
  {
    s.(pools := s.pools[d := p])
  }

  // kickRefill: start the refill goroutine unless the pool refuses.
  function KickRefill(s: Fleet, d: nat, child: Tid): Fleet
    requires d < |s.pools|
  {
    var (p, started) := s.pools[d].TryKick();
    if started then Goto(WithPool(s, d, p), child, Refiller(d, Check)) else s
  }

  // The driver's next step once it has a VMM.
  function Ready(d: nat, mode: Mode, h: Handle): Thread {
    Maker(if mode.Clone? then Overlay(d, h) else Boot(d, h))
  }

  ghost predicate AllBelow(ds: seq<nat>, n: nat) {
    forall i :: 0 <= i < |ds| ==> ds[i] < n
  }

  // The drivers a thread is about to use are among the first n.
  ghost predicate Known(n: nat, th: Thread) {
    match th
    case Maker(m) => MakerKnown(n, m)
    case Ender(e) => EnderKnown(n, e)
    case Refiller(d, _) => d < n
    case Done(_) => true
  }

  ghost predicate MakerKnown(n: nat, m: MakerPc) {
    match m
    case Lookup(_, _) => true
    case ForkLookup(_) => true
    case ForkSnapshot(_, d) => d < n
    case Get(d, _) => d < n
    case Kick(d, _, _) => d < n
    case Spawn(d, _) => d < n
    case Overlay(d, _) => d < n
    case Boot(d, _) => d < n
    case Undo(_) => true
    case Track(d, _) => d < n
  }

  ghost predicate EnderKnown(n: nat, e: EnderPc) {
    match e
    case ShutdownStop(_, ds) => AllBelow(ds, n)
    case ShutdownClose(ds) => AllBelow(ds, n)
    case ShutdownKill(d, _, ds) => d < n && AllBelow(ds, n)
    case CloseLock(d) => d < n
    case CloseKill(d, _) => d < n
    case WarmKick(d) => d < n
    case _ => true
  }

  // Every reference to a driver is to an existing one.
  ghost predicate WF(s: Fleet) {
    && |s.restorer| == |s.pools|
    && (forall n :: n in s.drivers ==> s.drivers[n] < |s.pools|)
    && (forall k :: k in s.instances ==> s.instances[k].inst == k && s.instances[k].driver < |s.pools|)
    && (forall t :: t in s.threads ==> Known(|s.pools|, s.threads[t]))
  }

  // The calls that may arrive from outside at any time.
  ghost predicate IsCall(s: Fleet, th: Thread) {
    && Known(|s.pools|, th)
    && match th
       case Maker(m) => m.Lookup? || m.ForkLookup?
       case Ender(e) => e.DeleteLookup? || e.ShutdownLock? || e.CloseLock? || e.WarmKick?
       case _ => false
  }

  // What limits the environment: identifiers are fresh, and ranging over a map
  // visits each entry once.
  ghost predicate CanStep(s: Fleet, t: Tid, c: Choice) {
    && t in s.threads
    && Known(|s.pools|, s.threads[t])
    && match s.threads[t]
       case Maker(m) =>
         && (m.Spawn? && c.ok ==> c.newId !in s.spawned)
         && (m.Kick? ==> c.child !in s.threads)
       case Ender(e) =>
         && (e.WarmKick? ==> c.child !in s.threads)
         && (e.ShutdownLock? ==> EachOnce(c.insts, s.instances.Keys) && EachOnce(c.order, s.drivers.Values))
       case Refiller(_, r) => r.Spawning? && c.ok ==> c.newId !in s.spawned
       case Done(_) => false
  }

  ghost predicate EachOnce<T>(order: seq<T>, all: set<T>) { NoDup(order) && Elems(order) == all }

  ghost function MakerStep(s: Fleet, t: Tid, m: MakerPc, c: Choice): Fleet
    requires WF(s) && MakerKnown(|s.pools|, m)
  {
    match m
    case Lookup(name, mode) =>
      if name !in s.drivers || (mode.Clone? && !s.restorer[s.drivers[name]]) then Goto(s, t, Done(false))
      else Goto(s, t, Maker(if mode.ColdInNetns? then Spawn(s.drivers[name], mode) else Get(s.drivers[name], mode)))
    case ForkLookup(src) =>
      if src !in s.instances || !s.restorer[s.instances[src].driver] then Goto(s, t, Done(false))
      else Goto(s, t, Maker(ForkSnapshot(src, s.instances[src].driver)))
    case ForkSnapshot(_, d) =>
      Goto(s, t, if c.ok then Maker(Get(d, Clone)) else Done(false))
    case Get(d, mode) =>
      var (p, got) := s.pools[d].Take();
      Goto(WithPool(s, d, p), t, Maker(Kick(d, mode, got)))
    case Kick(d, mode, got) =>
      Goto(KickRefill(s, d, c.child), t, if got.Some? then Ready(d, mode, got.value) else Maker(Spawn(d, mode)))
    case Spawn(d, mode) =>
      if c.ok then Goto(s.(spawned := s.spawned + {c.newId}), t, Ready(d, mode, c.newId))
      else Goto(s, t, Done(false))
    case Overlay(d, h) =>
      Goto(s, t, Maker(if c.ok then Boot(d, h) else Undo(h)))
    case Boot(d, h) =>
      Goto(s, t, Maker(if c.ok then Track(d, h) else Undo(h)))
    case Undo(h) =>
      Goto(Bury(s, h), t, Done(false))
    case Track(d, h) =>
      Goto(s.(instances := s.instances[h := Entry(h, d)]), t, Done(true))
  }

  ghost function EnderStep(s: Fleet, t: Tid, e: EnderPc, c: Choice): Fleet
    requires WF(s) && EnderKnown(|s.pools|, e)
  {
    match e
    case DeleteLookup(id) =>
      if id !in s.instances then Goto(s, t, Done(false))
      else Goto(s.(instances := s.instances - {id}), t, Ender(Claimed(s.instances[id].inst)))
    case Claimed(h) =>
      Goto(Bury(s, h), t, Done(true))
    case ShutdownLock =>
      Goto(s.(instances := map[]), t, Ender(ShutdownStop(c.insts, c.order)))
    case ShutdownStop(insts, ds) =>
      if insts == [] then Goto(s, t, Ender(ShutdownClose(ds)))
      else Goto(Bury(s, insts[0]), t, Ender(ShutdownStop(insts[1..], ds)))
    case ShutdownClose(ds) =>
      if ds == [] then Goto(s, t, Done(true))
      else
        var (p, kills) := s.pools[ds[0]].Drain();
        Goto(WithPool(s, ds[0], p), t, Ender(ShutdownKill(ds[0], kills, ds[1..])))
    case ShutdownKill(d, kills, ds) =>
      if kills == [] then Goto(s, t, Ender(ShutdownClose(ds)))
      else Goto(Bury(s, kills[0]), t, Ender(ShutdownKill(d, kills[1..], ds)))
    case CloseLock(d) =>
      var (p, kills) := s.pools[d].Drain();
      Goto(WithPool(s, d, p), t, Ender(CloseKill(d, kills)))
    case CloseKill(d, kills) =>
      if kills == [] then Goto(s, t, Done(true))
      else Goto(Bury(s, kills[0]), t, Ender(CloseKill(d, kills[1..])))
    case WarmKick(d) =>
      Goto(KickRefill(s, d, c.child), t, Done(true))
  }

  ghost function RefillerStep(s: Fleet, t: Tid, d: nat, r: RefillPc, c: Choice): Fleet
    requires d < |s.pools|
  {
    match r
    case Check =>
      Goto(s, t, Refiller(d, if s.pools[d].Satisfied() then Resetting else Spawning))
    case Spawning =>
      if c.ok then Goto(s.(spawned := s.spawned + {c.newId}), t, Refiller(d, Offering(c.newId)))
      else Goto(s, t, Refiller(d, Resetting))
    case Offering(h) =>
      var (p, kept) := s.pools[d].Offer(h);
      Goto(WithPool(s, d, p), t, Refiller(d, if kept then Check else Killing(h)))
    case Killing(h) =>
      Goto(Bury(s, h), t, Refiller(d, Resetting))
    case Resetting =>
      Goto(WithPool(s, d, s.pools[d].Reset()), t, Done(true))
  }

  ghost function Advance(s: Fleet, t: Tid, c: Choice): Fleet
    requires WF(s) && CanStep(s, t, c)
  {
    match s.threads[t]
    case Maker(m) => MakerStep(s, t, m, c)
    case Ender(e) => EnderStep(s, t, e, c)
    case Refiller(d, r) => RefillerStep(s, t, d, r, c)
    case Done(_) => s
  }

  ghost predicate Can(s: Fleet, a: Action) {
    && WF(s)
    && match a
       case Call(t, th) => t !in s.threads && IsCall(s, th)
       case Step(t, c) => CanStep(s, t, c)
  }

  ghost function Do(s: Fleet, a: Action): Fleet
    requires Can(s, a)
  {
    match a
    case Call(t, th) => Goto(s, t, th)
    case Step(t, c) => Advance(s, t, c)
  }

  // A run is a sequence of enabled actions.
  ghost predicate CanRun(s: Fleet, run: seq<Action>)
    decreases |run|
  {
    run == [] || (Can(s, run[0]) && CanRun(Do(s, run[0]), run[1..]))
  }

  ghost function RunTo(s: Fleet, run: seq<Action>): Fleet
    requires CanRun(s, run)
    decreases |run|
  {
    if run == [] then s else RunTo(Do(s, run[0]), run[1..])
  }

  // At start nothing runs; every driver is registered, each with an empty open pool.
  ghost predicate Init(s: Fleet) {
    && |s.restorer| == |s.pools|
    && (forall n :: n in s.drivers ==> s.drivers[n] < |s.pools|)
    && (forall d :: 0 <= d < |s.pools| ==> d in s.drivers.Values)
    && (forall d :: 0 <= d < |s.pools| ==> s.pools[d] == PoolState(s.pools[d].target, [], false, false))
    && s.instances == map[] && s.threads == map[] && s.spawned == {} && s.gone == []
  }

  // The processes a thread alone is responsible for.
  function Hand(th: Thread): seq<Handle> {
    match th
    case Maker(m) => MakerHand(m)
    case Ender(e) => EnderHand(e)
    case Refiller(_, r) => RefillerHand(r)
    case Done(_) => []
  }

  function MakerHand(m: MakerPc): seq<Handle> {
    match m
    case Kick(_, _, got) => if got.Some? then [got.value] else []
    case Overlay(_, h) => [h]
    case Boot(_, h) => [h]
    case Undo(h) => [h]
    case Track(_, h) => [h]
    case _ => []
  }

  function EnderHand(e: EnderPc): seq<Handle> {
    match e
    case Claimed(h) => [h]
    case ShutdownStop(insts, _) => insts
    case ShutdownKill(_, kills, _) => kills
    case CloseKill(_, kills) => kills
    case _ => []
  }

  function RefillerHand(r: RefillPc): seq<Handle> {
    match r
    case Offering(h) => [h]
    case Killing(h) => [h]
    case _ => []
  }

  // Where a process can be.
  datatype Place = Idle(driver: nat) | InHand(t: Tid) | Tracked(id: Handle) | Gone

  ghost function Contents(s: Fleet, p: Place): seq<Handle> {
    match p
    case Idle(d) => if d < |s.pools| then s.pools[d].idle else []
    case InHand(t) => if t in s.threads then Hand(s.threads[t]) else []
    case Tracked(id) => if id in s.instances then [s.instances[id].inst] else []
    case Gone => s.gone
  }

  ghost function Where(s: Fleet): Place -> seq<Handle> { p => Contents(s, p) }

  // Every process ever spawned is in exactly one place, and only once in it.
  ghost predicate ExactlyOnce(s: Fleet) { Partition(Where(s), s.spawned) }
}
