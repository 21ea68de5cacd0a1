// Conservation of VMM processes: over every run, every process ever spawned is
// in exactly one place.
module FleetOwnership {
  import opened Common
  import opened Placement
  import opened Pool
  import opened Fleet

  // Thread t goes on with the same processes in hand.
  lemma GoesOn(s: Fleet, t: Tid, th: Thread)
    requires ExactlyOnce(s)
    requires Hand(th) == if t in s.threads then Hand(s.threads[t]) else []
    ensures ExactlyOnce(Goto(s, t, th))
  {
    Stayed(Where(s), Where(Goto(s, t, th)), s.spawned);
  }

  // Starting a refill goroutine, or none, moves no process.
  lemma Kicked(s: Fleet, d: nat, child: Tid)
    requires ExactlyOnce(s) && d < |s.pools| && child !in s.threads
    ensures ExactlyOnce(KickRefill(s, d, child))
  {
    Stayed(Where(s), Where(KickRefill(s, d, child)), s.spawned);
  }

  // Thread t spawns a process under a new identifier.
  lemma Spawned(s: Fleet, t: Tid, th: Thread, h: Handle)
    requires ExactlyOnce(s) && h !in s.spawned && t in s.threads
    requires Hand(s.threads[t]) == [] && Hand(th) == [h]
    ensures ExactlyOnce(Goto(s.(spawned := s.spawned + {h}), t, th))
  {
    Born(Where(s), Where(Goto(s.(spawned := s.spawned + {h}), t, th)), s.spawned, InHand(t), h);
  }

  // Thread t terminates the first process in its hands.
  lemma Buried(s: Fleet, t: Tid, th: Thread)
    requires ExactlyOnce(s) && t in s.threads && Hand(s.threads[t]) != []
    requires Hand(th) == Hand(s.threads[t])[1..]
    ensures ExactlyOnce(Goto(Bury(s, Hand(s.threads[t])[0]), t, th))
  {
    MovedHead(Where(s), Where(Goto(Bury(s, Hand(s.threads[t])[0]), t, th)), s.spawned, InHand(t), Gone);
  }

  // Thread t takes the newest spare, if any.
  lemma Taken(s: Fleet, t: Tid, d: nat, th: Thread)
    requires ExactlyOnce(s) && t in s.threads && Hand(s.threads[t]) == [] && d < |s.pools|
    requires Hand(th) == match s.pools[d].Take().1 case Some(h) => [h] case None => []
    ensures ExactlyOnce(Goto(WithPool(s, d, s.pools[d].Take().0), t, th))
  {
    var g := Where(Goto(WithPool(s, d, s.pools[d].Take().0), t, th));
    if s.pools[d].idle == [] {
      Stayed(Where(s), g, s.spawned);
    } else {
      MovedLast(Where(s), g, s.spawned, Idle(d), InHand(t));
    }
  }

  // Thread t takes all spares of a pool.
  lemma Drained(s: Fleet, t: Tid, d: nat, th: Thread)
    requires ExactlyOnce(s) && t in s.threads && Hand(s.threads[t]) == [] && d < |s.pools|
    requires Hand(th) == s.pools[d].Drain().1
    ensures ExactlyOnce(Goto(WithPool(s, d, s.pools[d].Drain().0), t, th))
  {
    MovedAll(Where(s), Where(Goto(WithPool(s, d, s.pools[d].Drain().0), t, th)), s.spawned, Idle(d), InHand(t));
  }

  // The refiller hands its process to the pool, or keeps it to kill it.
  lemma Offered(s: Fleet, t: Tid, d: nat, h: Handle, th: Thread)
    requires ExactlyOnce(s) && t in s.threads && Hand(s.threads[t]) == [h] && d < |s.pools|
    requires Hand(th) == if s.pools[d].closed then [h] else []
    ensures ExactlyOnce(Goto(WithPool(s, d, s.pools[d].Offer(h).0), t, th))
  {
    var g := Where(Goto(WithPool(s, d, s.pools[d].Offer(h).0), t, th));
    if s.pools[d].closed {
      Stayed(Where(s), g, s.spawned);
    } else {
      MovedHead(Where(s), g, s.spawned, InHand(t), Idle(d));
    }
  }

  // Manager.track: the entry written is a new one.
  lemma NowTracked(s: Fleet, t: Tid, d: nat, h: Handle, th: Thread)
    requires WF(s) && ExactlyOnce(s) && t in s.threads && Hand(s.threads[t]) == [h] && Hand(th) == []
    ensures h !in s.instances
    ensures ExactlyOnce(Goto(s.(instances := s.instances[h := Entry(h, d)]), t, th))
  {
    assert h in Where(s)(InHand(t));
    assert h in s.instances ==> h in Where(s)(Tracked(h));
    var g := Where(Goto(s.(instances := s.instances[h := Entry(h, d)]), t, th));
    MovedAll(Where(s), g, s.spawned, InHand(t), Tracked(h));
  }

  // Manager.Delete claims one tracked instance.
  lemma NowClaimed(s: Fleet, t: Tid, id: Handle, th: Thread)
    requires WF(s) && ExactlyOnce(s) && t in s.threads && Hand(s.threads[t]) == [] && id in s.instances
    requires Hand(th) == [id]
    ensures ExactlyOnce(Goto(s.(instances := s.instances - {id}), t, th))
  {
    var g := Where(Goto(s.(instances := s.instances - {id}), t, th));
    MovedAll(Where(s), g, s.spawned, Tracked(id), InHand(t));
  }

  // Manager.Shutdown claims all of them at once.
  lemma AllClaimed(s: Fleet, t: Tid, insts: seq<Handle>, th: Thread)
    requires WF(s) && ExactlyOnce(s) && t in s.threads && Hand(s.threads[t]) == []
    requires NoDup(insts) && Elems(insts) == s.instances.Keys && Hand(th) == insts
    ensures ExactlyOnce(Goto(s.(instances := map[]), t, th))
  {
    var f, g := Where(s), Where(Goto(s.(instances := map[]), t, th));
    var cs := iset p: Place | p.Tracked?;
    forall h ensures h in g(InHand(t)) <==> exists p :: p in cs && h in f(p) {
      assert h in insts <==> h in Elems(insts);
      assert h in s.instances ==> h in f(Tracked(h));
    }
    Gathered(f, g, s.spawned, cs, InHand(t));
  }

  lemma MakerKeepsOwnership(s: Fleet, t: Tid, m: MakerPc, c: Choice)
    requires WF(s) && ExactlyOnce(s) && CanStep(s, t, c) && s.threads[t] == Maker(m)
    ensures ExactlyOnce(MakerStep(s, t, m, c))
  {
    match m
    case Get(d, mode) =>
      Taken(s, t, d, Maker(Kick(d, mode, s.pools[d].Take().1)));
    case Kick(d, mode, got) =>
      Kicked(s, d, c.child);
      GoesOn(KickRefill(s, d, c.child), t, if got.Some? then Ready(d, mode, got.value) else Maker(Spawn(d, mode)));
    case Spawn(d, mode) =>
      if c.ok { Spawned(s, t, Ready(d, mode, c.newId), c.newId); } else { GoesOn(s, t, Done(false)); }
    case Undo(h) => Buried(s, t, Done(false));
    case Track(d, h) => NowTracked(s, t, d, h, Done(true));
    case _ => GoesOn(s, t, MakerStep(s, t, m, c).threads[t]);
  }

  lemma EnderKeepsOwnership(s: Fleet, t: Tid, e: EnderPc, c: Choice)
    requires WF(s) && ExactlyOnce(s) && CanStep(s, t, c) && s.threads[t] == Ender(e)
    ensures ExactlyOnce(EnderStep(s, t, e, c))
  {
    match e
    case DeleteLookup(id) =>
      if id in s.instances { NowClaimed(s, t, id, Ender(Claimed(id))); } else { GoesOn(s, t, Done(false)); }
    case Claimed(h) => Buried(s, t, Done(true));
    case ShutdownLock => AllClaimed(s, t, c.insts, Ender(ShutdownStop(c.insts, c.order)));
    case ShutdownStop(insts, ds) =>
      if insts == [] {
        GoesOn(s, t, Ender(ShutdownClose(ds)));
      } else {
        Buried(s, t, Ender(ShutdownStop(insts[1..], ds)));
      }
    case ShutdownClose(ds) =>
      if ds == [] {
        GoesOn(s, t, Done(true));
      } else {
        Drained(s, t, ds[0], Ender(ShutdownKill(ds[0], s.pools[ds[0]].idle, ds[1..])));
      }
    case ShutdownKill(d, kills, ds) =>
      if kills == [] {
        GoesOn(s, t, Ender(ShutdownClose(ds)));
      } else {
        Buried(s, t, Ender(ShutdownKill(d, kills[1..], ds)));
      }
    case CloseLock(d) => Drained(s, t, d, Ender(CloseKill(d, s.pools[d].idle)));
    case CloseKill(d, kills) =>
      if kills == [] { GoesOn(s, t, Done(true)); } else { Buried(s, t, Ender(CloseKill(d, kills[1..]))); }
    case WarmKick(d) =>
      Kicked(s, d, c.child);
      GoesOn(KickRefill(s, d, c.child), t, Done(true));
  }

  lemma RefillerKeepsOwnership(s: Fleet, t: Tid, d: nat, r: RefillPc, c: Choice)
    requires WF(s) && ExactlyOnce(s) && CanStep(s, t, c) && s.threads[t] == Refiller(d, r)
    ensures ExactlyOnce(RefillerStep(s, t, d, r, c))
  {
    var th := RefillerStep(s, t, d, r, c).threads[t];
    match r
    case Check => GoesOn(s, t, th);
    case Spawning =>
      if c.ok { Spawned(s, t, th, c.newId); } else { GoesOn(s, t, th); }
    case Offering(h) => Offered(s, t, d, h, th);
    case Killing(h) => Buried(s, t, th);
    case Resetting =>
      GoesOn(s, t, th);
      Stayed(Where(Goto(s, t, th)), Where(RefillerStep(s, t, d, r, c)), s.spawned);
  }

  lemma StepKeepsOwnership(s: Fleet, t: Tid, c: Choice)
    requires WF(s) && ExactlyOnce(s) && CanStep(s, t, c)
    ensures ExactlyOnce(Advance(s, t, c))
  {
    match s.threads[t]
    case Maker(m) => MakerKeepsOwnership(s, t, m, c);
    case Ender(e) => EnderKeepsOwnership(s, t, e, c);
    case Refiller(d, r) => RefillerKeepsOwnership(s, t, d, r, c);
  }

  lemma MakerKeepsWF(s: Fleet, t: Tid, m: MakerPc, c: Choice)
    requires WF(s) && MakerKnown(|s.pools|, m)
    ensures WF(MakerStep(s, t, m, c))
  {
  }

  lemma EnderKeepsWF(s: Fleet, t: Tid, e: EnderPc, c: Choice)
    requires WF(s) && EnderKnown(|s.pools|, e) && (e.ShutdownLock? ==> Elems(c.order) == s.drivers.Values)
    ensures WF(EnderStep(s, t, e, c))
  {
    if e.ShutdownLock? {
      ShutdownKeepsWF(s, t, c);
    }
  }

  lemma ShutdownKeepsWF(s: Fleet, t: Tid, c: Choice)
    requires WF(s) && Elems(c.order) == s.drivers.Values
    ensures WF(EnderStep(s, t, ShutdownLock, c))
  {
    forall i | 0 <= i < |c.order| ensures c.order[i] < |s.pools| {
      assert c.order[i] in Elems(c.order);
    }
  }

  lemma StepKeepsWF(s: Fleet, a: Action)
    requires Can(s, a)
    ensures WF(Do(s, a))
  {
    if a.Step? {
      match s.threads[a.t]
      case Maker(m) => MakerKeepsWF(s, a.t, m, a.c);
      case Ender(e) => EnderKeepsWF(s, a.t, e, a.c);
      case Refiller(_, _) =>
    }
  }

  lemma StartIsSound(s: Fleet)
    requires Init(s)
    ensures WF(s) && ExactlyOnce(s)
  {
    forall p ensures Where(s)(p) == [] {}
  }
}
