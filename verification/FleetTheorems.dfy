// The promises of the fleet, over every run from the start.
module FleetTheorems {
  import opened Common
  import opened Pool
  import opened Fleet
  import opened FleetOwnership
  import opened FleetPools

  // What every reachable state satisfies.
  ghost predicate Sound(s: Fleet) {
    WF(s) && ExactlyOnce(s) && PoolsSound(s) && AllRegistered(s)
  }

  ghost predicate AllRegistered(s: Fleet) {
    forall d :: 0 <= d < |s.pools| ==> d in s.drivers.Values
  }

  lemma StartSound(s: Fleet)
    requires Init(s)
    ensures Sound(s)
  {
    StartIsSound(s);
    forall d | 0 <= d < |s.pools| ensures PoolSound(s.pools[d], s.threads, d) {
      assert s.pools[d] == PoolState(s.pools[d].target, [], false, false);
      assert Spares(s.pools[d], s.threads, d) == {};
    }
  }

  lemma DoKeepsSound(s: Fleet, a: Action)
    requires Sound(s) && Can(s, a)
    ensures Sound(Do(s, a))
  {
    StepKeepsWF(s, a);
    DoKeepsPools(s, a);
    match a
    case Call(t, th) => GoesOn(s, t, th);
    case Step(t, c) => StepKeepsOwnership(s, t, c);
  }

  lemma {:induction false} RunKeepsSound(s: Fleet, run: seq<Action>)
    requires Sound(s) && CanRun(s, run)
    ensures Sound(RunTo(s, run))
    decreases |run|
  {
    if run != [] {
      DoKeepsSound(s, run[0]);
      RunKeepsSound(Do(s, run[0]), run[1..]);
    }
  }

  // Every process ever spawned is in exactly one place and once in it; in
  // particular no two threads are responsible for the same one, a tracked one is in
  // nobody's hands, and none is terminated twice.
  lemma VmmConservation(s0: Fleet, run: seq<Action>)
    requires Init(s0) && CanRun(s0, run)
    ensures var s := RunTo(s0, run);
      && (forall h :: h in s.spawned ==> exists p :: h in Contents(s, p))
      && (forall p, h :: h in Contents(s, p) ==> h in s.spawned)
      && (forall p, q, h :: h in Contents(s, p) && h in Contents(s, q) ==> p == q)
      && (forall p :: NoDup(Contents(s, p)))
  {
    StartSound(s0);
    RunKeepsSound(s0, run);
    var s := RunTo(s0, run);
    var f := Where(s);
    forall p ensures f(p) == Contents(s, p) {}
    forall h | h in s.spawned ensures exists p :: h in Contents(s, p) {
      var p :| h in f(p);
      assert h in Contents(s, p);
    }
    forall p ensures NoDup(Contents(s, p)) { assert NoDup(f(p)); }
    forall p, h | h in Contents(s, p) ensures h in s.spawned { assert h in f(p); }
    forall p, q, h | h in Contents(s, p) && h in Contents(s, q) ensures p == q { assert h in f(p) && h in f(q); }
  }

  // Two Deletes, Shutdowns or other threads never claim the same instance, nobody
  // claims one that is still tracked, and each is stopped once at most.
  lemma ClaimOnce(s0: Fleet, run: seq<Action>, t: Tid, u: Tid, h: Handle)
    requires Init(s0) && CanRun(s0, run)
    requires var s := RunTo(s0, run); t in s.threads && u in s.threads && h in Hand(s.threads[t])
    ensures var s := RunTo(s0, run);
      && (h in Hand(s.threads[u]) ==> t == u) && h !in s.instances && h !in s.gone && NoDup(s.gone)
  {
    VmmConservation(s0, run);
    StartSound(s0);
    RunKeepsSound(s0, run);
    var s := RunTo(s0, run);
    assert h in Contents(s, InHand(t));
    assert h in Hand(s.threads[u]) ==> h in Contents(s, InHand(u));
    assert h in s.instances ==> h in Contents(s, Tracked(h));
    assert h in s.gone ==> h in Contents(s, Gone);
    assert NoDup(Contents(s, Gone));
  }

  // track writes a new entry: it overwrites none and leaves the others alone.
  lemma TrackOverwritesNothing(s0: Fleet, run: seq<Action>, t: Tid, d: nat, h: Handle, c: Choice)
    requires Init(s0) && CanRun(s0, run)
    requires var s := RunTo(s0, run); t in s.threads && s.threads[t] == Maker(Track(d, h)) && WF(s) && CanStep(s, t, c)
    ensures var s := RunTo(s0, run); var s' := Advance(s, t, c);
      && h !in s.instances && s'.instances.Keys == s.instances.Keys + {h}
      && s'.instances[h] == Entry(h, d)
      && forall k :: k in s.instances ==> s'.instances[k] == s.instances[k]
  {
    ClaimOnce(s0, run, t, t, h);
  }

  // idle spares + the refiller's outstanding spawn or process + spares awaiting
  // close's kill never exceed the target (none if it is not positive).
  lemma SpareBoundAlways(s0: Fleet, run: seq<Action>, d: nat)
    requires Init(s0) && CanRun(s0, run) && d < |RunTo(s0, run).pools|
    ensures var s := RunTo(s0, run);
      && SpareBound(s.pools[d], s.threads, d)
      && |s.pools[d].idle| <= |Spares(s.pools[d], s.threads, d)|
  {
    StartSound(s0);
    RunKeepsSound(s0, run);
    var s := RunTo(s0, run);
    assert PoolSound(s.pools[d], s.threads, d);
    assert NoDup(Where(s)(Idle(d)));
    NoDupCount(s.pools[d].idle);
    SubsetBound(Elems(s.pools[d].idle), Spares(s.pools[d], s.threads, d));
  }

  // `refilling` is set exactly while one refiller is live, and a closed pool stays empty.
  lemma SingleRefillerAlways(s0: Fleet, run: seq<Action>, d: nat)
    requires Init(s0) && CanRun(s0, run) && d < |RunTo(s0, run).pools|
    ensures var s := RunTo(s0, run);
      && SingleRefiller(s.pools[d], s.threads, d)
      && (s.pools[d].closed ==> s.pools[d].idle == [])
  {
    StartSound(s0);
    RunKeepsSound(s0, run);
    assert PoolSound(RunTo(s0, run).pools[d], RunTo(s0, run).threads, d);
  }

  // A refiller that stops because there is no deficit saw exactly target spares.
  lemma SatisfiedMeansTarget(s0: Fleet, run: seq<Action>, t: Tid, d: nat)
    requires Init(s0) && CanRun(s0, run) && d < |RunTo(s0, run).pools|
    requires var s := RunTo(s0, run);
      t in s.threads && s.threads[t] == Refiller(d, Check) && s.pools[d].target - |s.pools[d].idle| <= 0
    ensures var p := RunTo(s0, run).pools[d]; |p.idle| == p.target
  {
    SpareBoundAlways(s0, run, d);
    SingleRefillerAlways(s0, run, d);
    assert RefillerAt(RunTo(s0, run).threads, t, d);
  }

  // The drivers a Shutdown has yet to close.
  function StillOpen(th: Thread): seq<nat> {
    match th
    case Ender(ShutdownStop(_, ds)) => ds
    case Ender(ShutdownClose(ds)) => ds
    case Ender(ShutdownKill(_, _, ds)) => ds
    case _ => []
  }

  ghost predicate ShuttingDown(th: Thread) {
    th.Done? || (th.Ender? && (th.e.ShutdownStop? || th.e.ShutdownClose? || th.e.ShutdownKill?))
  }

  ghost predicate NoMakers(s: Fleet) {
    forall u :: u in s.threads ==> !s.threads[u].Maker?
  }

  // Shutdown t closes every pool, whoever else is at work.
  ghost predicate Closing(s: Fleet, t: Tid) {
    && t in s.threads && ShuttingDown(s.threads[t])
    && forall d :: 0 <= d < |s.pools| ==> s.pools[d].closed || d in StillOpen(s.threads[t])
  }

  lemma MakerKeepsClosing(s: Fleet, t: Tid, u: Tid, m: MakerPc, c: Choice)
    requires WF(s) && Closing(s, t) && u in s.threads && s.threads[u] == Maker(m) && CanStep(s, u, c)
    ensures Closing(MakerStep(s, u, m, c), t)
  {
  }

  lemma EnderKeepsClosing(s: Fleet, t: Tid, u: Tid, e: EnderPc, c: Choice)
    requires WF(s) && Closing(s, t) && u in s.threads && s.threads[u] == Ender(e) && CanStep(s, u, c)
    ensures Closing(EnderStep(s, u, e, c), t)
  {
  }

  lemma StepKeepsClosing(s: Fleet, t: Tid, a: Action)
    requires Can(s, a) && Closing(s, t)
    ensures Closing(Do(s, a), t)
  {
    if a.Step? {
      match s.threads[a.t]
      case Maker(m) => MakerKeepsClosing(s, t, a.t, m, a.c);
      case Ender(e) => EnderKeepsClosing(s, t, a.t, e, a.c);
      case Refiller(_, _) =>
    }
  }

  lemma {:induction false} RunKeepsClosing(s: Fleet, t: Tid, run: seq<Action>)
    requires CanRun(s, run) && Closing(s, t)
    ensures Closing(RunTo(s, run), t)
    decreases |run|
  {
    if run != [] {
      StepKeepsClosing(s, t, run[0]);
      RunKeepsClosing(Do(s, run[0]), t, run[1..]);
    }
  }

  lemma ClosingBegins(s: Fleet, t: Tid, c: Choice)
    requires Sound(s) && CanStep(s, t, c) && s.threads[t] == Ender(ShutdownLock)
    ensures Closing(Advance(s, t, c), t)
  {
    forall d | 0 <= d < |s.pools| ensures d in c.order {
      assert d in Elems(c.order);
    }
  }

  // From the moment a Shutdown took over the instances, as long as nobody makes more.
  ghost predicate WindingDown(s: Fleet, t: Tid) { NoMakers(s) && s.instances == map[] && Closing(s, t) }

  lemma EnderWindsDown(s: Fleet, u: Tid, e: EnderPc, c: Choice)
    requires WF(s) && EnderKnown(|s.pools|, e) && NoMakers(s) && s.instances == map[]
    ensures NoMakers(EnderStep(s, u, e, c)) && EnderStep(s, u, e, c).instances == map[]
  {
  }

  lemma StepWindsDown(s: Fleet, t: Tid, a: Action)
    requires Can(s, a) && WindingDown(s, t) && (a.Call? ==> !a.th.Maker?)
    ensures WindingDown(Do(s, a), t)
  {
    StepKeepsClosing(s, t, a);
    if a.Step? {
      assert !s.threads[a.t].Maker?;
      match s.threads[a.t]
      case Ender(e) => EnderWindsDown(s, a.t, e, a.c);
      case Refiller(_, _) =>
    }
  }

  lemma {:induction false} RunWindsDown(s: Fleet, t: Tid, run: seq<Action>)
    requires Sound(s) && WindingDown(s, t) && CanRun(s, run)
    requires forall a :: a in run && a.Call? ==> !a.th.Maker?
    ensures Sound(RunTo(s, run)) && WindingDown(RunTo(s, run), t)
    decreases |run|
  {
    if run != [] {
      assert run[0] in run;
      DoKeepsSound(s, run[0]);
      StepWindsDown(s, t, run[0]);
      RunWindsDown(Do(s, run[0]), t, run[1..]);
    }
  }

  // A Shutdown that begins with no Create, Restore or Fork in flight, and none called
  // later: once it has returned and the refillers have exited, every process ever
  // spawned is terminated, save those some other Delete, Shutdown or Close has
  // claimed and is about to terminate.
  lemma ShutdownReaps(s0: Fleet, before: seq<Action>, t: Tid, c: Choice, after: seq<Action>)
    requires Init(s0) && CanRun(s0, before)
    requires var s := RunTo(s0, before);
      && WF(s) && NoMakers(s) && CanStep(s, t, c) && s.threads[t] == Ender(ShutdownLock)
      && CanRun(Advance(s, t, c), after)
    requires forall a :: a in after && a.Call? ==> !a.th.Maker?
    requires var s' := RunTo(Advance(RunTo(s0, before), t, c), after);
      t in s'.threads && s'.threads[t].Done? && forall u :: u in s'.threads ==> !s'.threads[u].Refiller?
    ensures var s' := RunTo(Advance(RunTo(s0, before), t, c), after);
      && s'.instances == map[] && (forall d :: 0 <= d < |s'.pools| ==> s'.pools[d].idle == [])
      && forall h :: h in s'.spawned ==>
           h in s'.gone || exists u :: u in s'.threads && s'.threads[u].Ender? && h in Hand(s'.threads[u])
  {
    StartSound(s0);
    RunKeepsSound(s0, before);
    var s := RunTo(s0, before);
    DoKeepsSound(s, Step(t, c));
    ClosingBegins(s, t, c);
    RunWindsDown(Advance(s, t, c), t, after);
    var s' := RunTo(Advance(s, t, c), after);
    forall d | 0 <= d < |s'.pools| ensures s'.pools[d].idle == [] {
      assert PoolSound(s'.pools[d], s'.threads, d);
    }
    forall h | h in s'.spawned
      ensures h in s'.gone || exists u :: u in s'.threads && s'.threads[u].Ender? && h in Hand(s'.threads[u])
    {
      var p :| h in Where(s')(p);
      assert h in Contents(s', p);
    }
  }

  // So when nothing is left running, the terminated processes are all there ever were.
  lemma ShutdownLeavesNothing(s0: Fleet, before: seq<Action>, t: Tid, c: Choice, after: seq<Action>)
    requires Init(s0) && CanRun(s0, before)
    requires var s := RunTo(s0, before);
      && WF(s) && NoMakers(s) && CanStep(s, t, c) && s.threads[t] == Ender(ShutdownLock)
      && CanRun(Advance(s, t, c), after)
    requires forall a :: a in after && a.Call? ==> !a.th.Maker?
    requires var s' := RunTo(Advance(RunTo(s0, before), t, c), after);
      forall u :: u in s'.threads ==> s'.threads[u].Done?
    ensures var s' := RunTo(Advance(RunTo(s0, before), t, c), after);
      Elems(s'.gone) == s'.spawned && NoDup(s'.gone)
  {
    var s := RunTo(s0, before);
    StartSound(s0);
    RunKeepsSound(s0, before);
    DoKeepsSound(s, Step(t, c));
    ClosingBegins(s, t, c);
    RunWindsDown(Advance(s, t, c), t, after);
    ShutdownReaps(s0, before, t, c, after);
    var s' := RunTo(Advance(s, t, c), after);
    assert NoDup(Where(s')(Gone));
    forall h | h in s'.gone ensures h in s'.spawned {
      assert h in Where(s')(Gone);
    }
  }

  // ---- exactly when something outlives a Shutdown ----

  // Nothing runs and every pool is closed.
  ghost predicate AtRest(s: Fleet) {
    && (forall u :: u in s.threads ==> s.threads[u].Done?)
    && (forall d :: 0 <= d < |s.pools| ==> s.pools[d].closed)
  }

  // At rest, the processes alive are those the Manager tracks.
  lemma AliveIsTracked(s0: Fleet, run: seq<Action>, h: Handle)
    requires Init(s0) && CanRun(s0, run) && AtRest(RunTo(s0, run))
    ensures var s := RunTo(s0, run); (h in s.spawned && h !in s.gone) <==> h in s.instances
  {
    StartSound(s0);
    RunKeepsSound(s0, run);
    AliveIsTrackedNow(RunTo(s0, run), h);
  }

  lemma AliveIsTrackedNow(s: Fleet, h: Handle)
    requires Sound(s) && AtRest(s)
    ensures (h in s.spawned && h !in s.gone) <==> h in s.instances
  {
    var f := Where(s);
    assert h in s.instances ==> h in f(Tracked(h));
    assert h in s.gone ==> h in f(Gone);
    if h in s.spawned {
      var p :| h in f(p);
      assert p.Idle? ==> PoolSound(s.pools[p.driver], s.threads, p.driver);
    }
  }

  // Steps that add to the table of instances, and that take from it.
  ghost predicate Tracks(s: Fleet, a: Action) {
    a.Step? && a.t in s.threads && s.threads[a.t].Maker? && s.threads[a.t].m.Track?
  }

  ghost predicate Untracks(s: Fleet, a: Action) {
    && a.Step? && a.t in s.threads && s.threads[a.t].Ender?
    && (s.threads[a.t].e.DeleteLookup? || s.threads[a.t].e.ShutdownLock?)
  }

  ghost predicate TracksDuring(s: Fleet, run: seq<Action>)
    requires CanRun(s, run)
    decreases |run|
  {
    run != [] && (Tracks(s, run[0]) || TracksDuring(Do(s, run[0]), run[1..]))
  }

  ghost predicate UntracksDuring(s: Fleet, run: seq<Action>)
    requires CanRun(s, run)
    decreases |run|
  {
    run != [] && (Untracks(s, run[0]) || UntracksDuring(Do(s, run[0]), run[1..]))
  }

  lemma StepTracks(s: Fleet, a: Action)
    requires Can(s, a) && !Untracks(s, a)
    ensures Do(s, a).instances == s.instances || (Tracks(s, a) && Do(s, a).instances != map[])
    ensures s.instances.Keys <= Do(s, a).instances.Keys
    ensures Tracks(s, a) ==> Do(s, a).instances != map[]
  {
    if a.Step? {
      match s.threads[a.t]
      case Maker(Track(d, h)) => assert h in Do(s, a).instances;
      case _ =>
    }
  }

  lemma {:induction false} RunTracks(s: Fleet, run: seq<Action>)
    requires CanRun(s, run) && !UntracksDuring(s, run)
    ensures RunTo(s, run).instances == map[] <==> s.instances == map[] && !TracksDuring(s, run)
    decreases |run|
  {
    if run != [] {
      StepTracks(s, run[0]);
      RunTracks(Do(s, run[0]), run[1..]);
      if s.instances != map[] {
        var k :| k in s.instances;
        assert k in Do(s, run[0]).instances;
      }
    }
  }

  // Shutdown reaps everything, exactly. With Creates, Restores and Forks overlapping it
  // in any way, and no later Delete or Shutdown to take a tracked instance away: once
  // nothing runs, every process ever spawned is terminated if and only if no maker has
  // tracked an instance since the Shutdown's critical section.
  lemma ShutdownReapsExactly(s0: Fleet, before: seq<Action>, t: Tid, c: Choice, after: seq<Action>)
    requires Init(s0) && CanRun(s0, before)
    requires var s := RunTo(s0, before);
      && WF(s) && CanStep(s, t, c) && s.threads[t] == Ender(ShutdownLock)
      && CanRun(Advance(s, t, c), after) && !UntracksDuring(Advance(s, t, c), after)
    requires var s' := RunTo(Advance(RunTo(s0, before), t, c), after);
      forall u :: u in s'.threads ==> s'.threads[u].Done?
    ensures var s1 := Advance(RunTo(s0, before), t, c);
      var s' := RunTo(s1, after);
      && AtRest(s')
      && (Elems(s'.gone) == s'.spawned <==> !TracksDuring(s1, after))
  {
    StartSound(s0);
    RunKeepsSound(s0, before);
    var s := RunTo(s0, before);
    var s1 := Advance(s, t, c);
    DoKeepsSound(s, Step(t, c));
    ClosingBegins(s, t, c);
    RunKeepsClosing(s1, t, after);
    RunTracks(s1, after);
    RunKeepsSound(s1, after);
    AllGoneExactly(RunTo(s1, after));
  }

  lemma AllGoneExactly(s: Fleet)
    requires Sound(s) && AtRest(s)
    ensures Elems(s.gone) == s.spawned <==> s.instances == map[]
  {
    var f := Where(s);
    forall h ensures (h in s.spawned && h !in s.gone) <==> h in s.instances {
      AliveIsTrackedNow(s, h);
    }
    forall h | h in s.gone ensures h in s.spawned {
      assert h in f(Gone);
    }
    if s.instances != map[] {
      var h :| h in s.instances;
      assert h in s.spawned && h !in Elems(s.gone);
    }
  }

  // The driver on whose behalf a maker works, once known.
  function DriverOf(m: MakerPc): Option<nat> {
    match m
    case ForkSnapshot(_, d) => Some(d)
    case Get(d, _) => Some(d)
    case Kick(d, _, _) => Some(d)
    case Spawn(d, _) => Some(d)
    case Overlay(d, _) => Some(d)
    case Boot(d, _) => Some(d)
    case Track(d, _) => Some(d)
    case _ => None
  }

  ghost predicate WorksFor(th: Thread, d: nat) {
    th.Done? || (th.Maker? && (th.m.Undo? || DriverOf(th.m) == Some(d)))
  }

  lemma {:induction false} MakerKeepsDriver(s: Fleet, t: Tid, d: nat, run: seq<Action>)
    requires CanRun(s, run) && t in s.threads && WorksFor(s.threads[t], d)
    ensures t in RunTo(s, run).threads && WorksFor(RunTo(s, run).threads[t], d)
    decreases |run|
  {
    if run != [] {
      MakerKeepsDriver(Do(s, run[0]), t, d, run[1..]);
    }
  }

  // Fork: looking the source up leaves it tracked, and whatever happens meanwhile the
  // clone is tracked under the driver the source had.
  lemma ForkTracksUnderSource(s0: Fleet, before: seq<Action>, t: Tid, src: Handle, c: Choice, after: seq<Action>,
                              h: Handle, d: nat, c': Choice)
    requires Init(s0) && CanRun(s0, before)
    requires var s := RunTo(s0, before);
      && WF(s) && CanStep(s, t, c) && s.threads[t] == Maker(ForkLookup(src))
      && src in s.instances && s.restorer[s.instances[src].driver]
      && CanRun(Advance(s, t, c), after)
      && var s' := RunTo(Advance(s, t, c), after);
         WF(s') && CanStep(s', t, c') && s'.threads[t] == Maker(Track(d, h))
    ensures var s := RunTo(s0, before); var s' := RunTo(Advance(s, t, c), after);
      && Advance(s, t, c).instances == s.instances
      && h !in s'.instances
      && Advance(s', t, c').instances == s'.instances[h := Entry(h, s.instances[src].driver)]
  {
    var s := RunTo(s0, before);
    var s1 := Advance(s, t, c);
    MakerKeepsDriver(s1, t, s.instances[src].driver, after);
    StartSound(s0);
    RunKeepsSound(s0, before);
    DoKeepsSound(s, Step(t, c));
    RunKeepsSound(s1, after);
    NowTracked(RunTo(s1, after), t, d, h, Done(true));
  }

  // A step in which some Create or Restore takes an idle spare of pool d.
  ghost predicate Pops(s: Fleet, a: Action, d: nat) {
    && a.Step? && a.t in s.threads && s.threads[a.t].Maker?
    && s.threads[a.t].m.Get? && s.threads[a.t].m.driver == d && d < |s.pools| && s.pools[d].idle != []
  }

  ghost function PopCount(s: Fleet, run: seq<Action>, d: nat): nat
    requires CanRun(s, run)
    decreases |run|
  {
    if run == [] then 0 else (if Pops(s, run[0], d) then 1 else 0) + PopCount(Do(s, run[0]), run[1..], d)
  }

  // Nobody closes pool d and no refiller of it is at work other than in its reset.
  ghost predicate Dormant(s: Fleet, d: nat) {
    && d < |s.pools| && !s.pools[d].closed
    && forall t :: RefillerAt(s.threads, t, d) ==> s.threads[t] == Refiller(d, Resetting)
  }

  ghost predicate DormantThroughout(s: Fleet, run: seq<Action>, d: nat)
    requires CanRun(s, run)
    decreases |run|
  {
    Dormant(s, d) && (run == [] || DormantThroughout(Do(s, run[0]), run[1..], d))
  }

  lemma DormantStep(s: Fleet, a: Action, d: nat)
    requires Can(s, a) && Dormant(s, d) && Dormant(Do(s, a), d)
    ensures var s' := Do(s, a);
      && s'.pools[d].target == s.pools[d].target
      && |s.pools[d].idle| == |s'.pools[d].idle| + if Pops(s, a, d) then 1 else 0
  {
    if a.Step? {
      match s.threads[a.t]
      case Maker(m) => DormantMaker(s, a.t, m, a.c, d);
      case Ender(e) => DormantEnder(s, a.t, e, a.c, d);
      case Refiller(x, r) => assert x == d ==> RefillerAt(s.threads, a.t, d);
    }
  }

  lemma DormantMaker(s: Fleet, t: Tid, m: MakerPc, c: Choice, d: nat)
    requires WF(s) && MakerKnown(|s.pools|, m) && d < |s.pools|
    ensures var p, s' := s.pools[d], MakerStep(s, t, m, c);
      && d < |s'.pools| && s'.pools[d].target == p.target
      && |p.idle| == |s'.pools[d].idle| + if m.Get? && m.driver == d && p.idle != [] then 1 else 0
  {
  }

  lemma DormantEnder(s: Fleet, t: Tid, e: EnderPc, c: Choice, d: nat)
    requires WF(s) && EnderKnown(|s.pools|, e) && d < |s.pools|
    ensures var p, s' := s.pools[d], EnderStep(s, t, e, c);
      && d < |s'.pools| && s'.pools[d].target == p.target
      && (!s'.pools[d].closed ==> s'.pools[d].idle == p.idle)
  {
  }

  lemma {:induction false} DormantPool(s: Fleet, run: seq<Action>, d: nat)
    requires CanRun(s, run) && DormantThroughout(s, run, d)
    ensures var s' := RunTo(s, run);
      && d < |s'.pools| && s'.pools[d].target == s.pools[d].target
      && |s.pools[d].idle| == |s'.pools[d].idle| + PopCount(s, run, d)
    decreases |run|
  {
    if run != [] {
      DormantStep(s, run[0], d);
      DormantPool(Do(s, run[0]), run[1..], d);
    }
  }

  // The pool does not always return to its target after a get. Exactly when: from a
  // refiller's last satisfied check on, the pool is short by the spares taken since,
  // so it is at its target if and only if nobody has taken one.
  lemma TargetAfterLastCheck(s0: Fleet, before: seq<Action>, t: Tid, d: nat, c: Choice, after: seq<Action>)
    requires Init(s0) && CanRun(s0, before)
    requires var s := RunTo(s0, before);
      && WF(s) && CanStep(s, t, c) && s.threads[t] == Refiller(d, Check)
      && s.pools[d].target - |s.pools[d].idle| <= 0
      && CanRun(Advance(s, t, c), after) && DormantThroughout(Advance(s, t, c), after, d)
    ensures var s1 := Advance(RunTo(s0, before), t, c); var s' := RunTo(s1, after);
      && d < |s'.pools|
      && |s'.pools[d].idle| == s'.pools[d].target - PopCount(s1, after, d)
      && (|s'.pools[d].idle| == s'.pools[d].target <==> PopCount(s1, after, d) == 0)
  {
    SatisfiedMeansTarget(s0, before, t, d);
    DormantPool(Advance(RunTo(s0, before), t, c), after, d);
  }
}
