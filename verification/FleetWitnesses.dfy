// Concrete runs showing what the fleet does not promise.
module FleetWitnesses {
  import opened Common
  import opened Pool
  import opened Fleet
  import opened FleetOwnership

  // A run goes on by one enabled action.
  lemma {:induction false} Append(s: Fleet, run: seq<Action>, a: Action)
    requires CanRun(s, run) && Can(RunTo(s, run), a)
    ensures CanRun(s, run + [a]) && RunTo(s, run + [a]) == Do(RunTo(s, run), a)
    decreases |run|
  {
    if run == [] {
      assert run + [a] == [a];
      assert CanRun(Do(s, a), []);
    } else {
      Append(Do(s, run[0]), run[1..], a);
      assert (run + [a])[1..] == run[1..] + [a];
    }
  }

  // Thread t moves on, to local state th, with c as the environment's choices.
  lemma Moves(s0: Fleet, run: seq<Action>, s: Fleet, t: Tid, c: Choice, s': Fleet) returns (run': seq<Action>)
    requires CanRun(s0, run) && RunTo(s0, run) == s && WF(s) && CanStep(s, t, c) && Advance(s, t, c) == s'
    ensures run' == run + [Step(t, c)] && CanRun(s0, run') && RunTo(s0, run') == s' && WF(s')
  {
    Append(s0, run, Step(t, c));
    StepKeepsWF(s, Step(t, c));
    run' := run + [Step(t, c)];
  }

  lemma Calls(s0: Fleet, run: seq<Action>, s: Fleet, t: Tid, th: Thread) returns (run': seq<Action>)
    requires CanRun(s0, run) && RunTo(s0, run) == s && WF(s) && t !in s.threads && IsCall(s, th)
    ensures run' == run + [Call(t, th)] && CanRun(s0, run') && RunTo(s0, run') == Goto(s, t, th) && WF(Goto(s, t, th))
  {
    Append(s0, run, Call(t, th));
    StepKeepsWF(s, Call(t, th));
    run' := run + [Call(t, th)];
  }

  // One driver, "ch", whose pool has the given target.
  function One(target: int): Fleet {
    Fleet(map["ch" := 0], [true], [PoolState(target, [], false, false)], map[], map[], {}, [])
  }

  const YES := Choice(true, 0, 7, [], [0])

  lemma OneIsInit(target: int)
    ensures Init(One(target)) && WF(One(target)) && EachOnce([0], One(target).drivers.Values)
  {
    assert One(target).drivers["ch"] == 0;
  }

  // An uncontended Shutdown, thread 1, of a fleet without instances or spares.
  lemma EmptyShutdown(s0: Fleet, run: seq<Action>, s: Fleet) returns (run': seq<Action>, s': Fleet)
    requires CanRun(s0, run) && RunTo(s0, run) == s && WF(s)
    requires 1 !in s.threads && s.instances == map[] && |s.pools| == 1 && s.pools[0].idle == []
    requires EachOnce([0], s.drivers.Values)
    ensures CanRun(s0, run') && RunTo(s0, run') == s' && WF(s') && Call(1, Ender(ShutdownLock)) in run'
    ensures |s'.pools| == 1 && s'.pools[0] == s.pools[0].(closed := true)
    ensures s' == s.(pools := s'.pools, threads := s'.threads)
    ensures 1 in s'.threads && s'.threads[1].Done?
    ensures forall u :: u != 1 ==>
      (u in s'.threads <==> u in s.threads) && (u in s.threads ==> s'.threads[u] == s.threads[u])
  {
    run' := Calls(s0, run, s, 1, Ender(ShutdownLock));
    var s1 := Goto(s, 1, Ender(ShutdownLock));
    var s2 := Goto(s1.(instances := map[]), 1, Ender(ShutdownStop([], [0])));
    run' := Moves(s0, run', s1, 1, YES, s2);
    var s3 := Goto(s2, 1, Ender(ShutdownClose([0])));
    run' := Moves(s0, run', s2, 1, YES, s3);
    assert run'[|run|] == Call(1, Ender(ShutdownLock));
    ghost var sofar := run';
    run', s' := CloseOnly(s0, run', s3);
    assert run'[|run|] == sofar[|run|];
  }

  // The tail of a Shutdown that closes one empty pool.
  lemma CloseOnly(s0: Fleet, run: seq<Action>, s: Fleet) returns (run': seq<Action>, s': Fleet)
    requires CanRun(s0, run) && RunTo(s0, run) == s && WF(s)
    requires |s.pools| == 1 && s.pools[0].idle == [] && 1 in s.threads && s.threads[1] == Ender(ShutdownClose([0]))
    ensures run <= run' && CanRun(s0, run') && RunTo(s0, run') == s' && WF(s')
    ensures |s'.pools| == 1 && s'.pools[0] == s.pools[0].(closed := true)
    ensures s' == s.(pools := s'.pools, threads := s'.threads)
    ensures 1 in s'.threads && s'.threads[1].Done?
    ensures forall u :: u != 1 ==>
      (u in s'.threads <==> u in s.threads) && (u in s.threads ==> s'.threads[u] == s.threads[u])
  {
    assert [0 as nat][1..] == [];
    var s4 := Goto(WithPool(s, 0, s.pools[0].Drain().0), 1, Ender(ShutdownKill(0, [], [])));
    run' := Moves(s0, run, s, 1, YES, s4);
    var s5 := Goto(s4, 1, Ender(ShutdownClose([])));
    run' := Moves(s0, run', s4, 1, YES, s5);
    s' := Goto(s5, 1, Done(true));
    run' := Moves(s0, run', s5, 1, YES, s');
  }

  // A cold Create, thread 0, whose get finds no spare in a closed pool and so spawns.
  lemma ColdCreate(s0: Fleet, run: seq<Action>, s: Fleet) returns (run': seq<Action>, s': Fleet)
    requires CanRun(s0, run) && RunTo(s0, run) == s && WF(s) && 0 !in s.spawned
    requires 0 in s.threads && s.threads[0] == Maker(Get(0, Cold)) && 7 !in s.threads
    requires |s.pools| == 1 && s.pools[0].idle == [] && s.pools[0].closed
    ensures run <= run' && CanRun(s0, run') && RunTo(s0, run') == s' && 0 in s'.instances && 0 in s'.spawned
    ensures s' == s.(threads := s.threads[0 := Done(true)], spawned := s'.spawned, instances := s'.instances)
  {
    assert s.pools[0 := s.pools[0]] == s.pools;
    var s2 := Goto(s, 0, Maker(Kick(0, Cold, None)));
    run' := Moves(s0, run, s, 0, YES, s2);
    var s3 := Goto(s2, 0, Maker(Spawn(0, Cold)));
    run' := Moves(s0, run', s2, 0, YES, s3);
    var s4 := Goto(s3.(spawned := s3.spawned + {0}), 0, Maker(Boot(0, 0)));
    run' := Moves(s0, run', s3, 0, YES, s4);
    run', s' := BootAndTrack(s0, run', s4, 0);
  }

  // A booting instance, process 0, comes up and is tracked.
  lemma BootAndTrack(s0: Fleet, run: seq<Action>, s: Fleet, t: Tid) returns (run': seq<Action>, s': Fleet)
    requires CanRun(s0, run) && RunTo(s0, run) == s && WF(s)
    requires t in s.threads && s.threads[t] == Maker(Boot(0, 0)) && |s.pools| == 1
    ensures run' == run + [Step(t, YES), Step(t, YES)] && CanRun(s0, run') && RunTo(s0, run') == s' && 0 in s'.instances
    ensures s' == s.(threads := s.threads[t := Done(true)], instances := s'.instances)
  {
    var s5 := Goto(s, t, Maker(Track(0, 0)));
    run' := Moves(s0, run, s, t, YES, s5);
    s' := Goto(s5.(instances := s5.instances[0 := Entry(0, 0)]), t, Done(true));
    run' := Moves(s0, run', s5, t, YES, s');
  }

  // A Create that overlaps a Shutdown can outlive it: get still spawns once the pool
  // is closed. At the end nothing runs, yet a process is tracked and alive.
  lemma CreateOutlivesShutdown() returns (s0: Fleet, run: seq<Action>)
    ensures Init(s0) && CanRun(s0, run) && Call(1, Ender(ShutdownLock)) in run
    ensures var s := RunTo(s0, run);
      && (forall t :: t in s.threads ==> s.threads[t].Done?)
      && (forall d :: 0 <= d < |s.pools| ==> s.pools[d].closed)
      && 0 in s.spawned && 0 !in s.gone && 0 in s.instances
  {
    s0 := One(0);
    OneIsInit(0);
    var s;
    run := Calls(s0, [], s0, 0, Maker(Lookup("ch", Cold)));
    var s1 := Goto(s0, 0, Maker(Lookup("ch", Cold)));
    var s2 := Goto(s1, 0, Maker(Get(0, Cold)));
    run := Moves(s0, run, s1, 0, YES, s2);
    run, s := EmptyShutdown(s0, run, s2);
    run, s := ColdCreate(s0, run, s);
  }

  // Nothing failed.
  ghost predicate AllOk(run: seq<Action>) { forall a :: a in run && a.Step? ==> a.c.ok }

  // Warm fills a pool of target 1, up to the refiller's reset.
  lemma WarmedPool(s0: Fleet) returns (run: seq<Action>, s: Fleet)
    requires s0 == One(1) && WF(s0)
    ensures CanRun(s0, run) && RunTo(s0, run) == s && WF(s) && AllOk(run)
    ensures s == One(1).(pools := s.pools, threads := s.threads, spawned := {0})
    ensures s.threads == map[0 := Done(true), 7 := Refiller(0, Resetting)]
    ensures |s.pools| == 1 && s.pools[0] == PoolState(1, [0], true, false)
  {
    run := Calls(s0, [], s0, 0, Ender(WarmKick(0)));
    var s1 := Goto(s0, 0, Ender(WarmKick(0)));
    var s2 := Goto(Goto(WithPool(s1, 0, PoolState(1, [], true, false)), 7, Refiller(0, Check)), 0, Done(true));
    run := Moves(s0, run, s1, 0, YES, s2);
    var s3 := Goto(s2, 7, Refiller(0, Spawning));
    run := Moves(s0, run, s2, 7, YES, s3);
    run, s := OneSpawned(s0, run, s3);
  }

  // The refiller's spawn brings a pool of target 1 to its target; it stops.
  lemma OneSpawned(s0: Fleet, run: seq<Action>, s: Fleet) returns (run': seq<Action>, s': Fleet)
    requires CanRun(s0, run) && RunTo(s0, run) == s && WF(s) && 0 !in s.spawned
    requires 7 in s.threads && s.threads[7] == Refiller(0, Spawning)
    requires |s.pools| == 1 && s.pools[0] == PoolState(1, [], true, false)
    ensures run' == run + [Step(7, YES), Step(7, YES), Step(7, YES)]
    ensures CanRun(s0, run') && RunTo(s0, run') == s' && WF(s')
    ensures s' == s.(pools := s'.pools, threads := s.threads[7 := Refiller(0, Resetting)], spawned := s.spawned + {0})
    ensures |s'.pools| == 1 && s'.pools[0] == PoolState(1, [0], true, false)
  {
    var s4 := Goto(s.(spawned := s.spawned + {0}), 7, Refiller(0, Offering(0)));
    run' := Moves(s0, run, s, 7, YES, s4);
    var s5 := Goto(WithPool(s4, 0, s4.pools[0].Offer(0).0), 7, Refiller(0, Check));
    run' := Moves(s0, run', s4, 7, YES, s5);
    s' := Goto(s5, 7, Refiller(0, Resetting));
    run' := Moves(s0, run', s5, 7, YES, s');
  }

  // A Create, thread 1, comes to its get.
  lemma CallsGet(s0: Fleet, run: seq<Action>, s: Fleet) returns (run': seq<Action>, s': Fleet)
    requires CanRun(s0, run) && RunTo(s0, run) == s && WF(s)
    requires 1 !in s.threads && s.drivers == map["ch" := 0]
    ensures AllOk(run) ==> AllOk(run')
    ensures CanRun(s0, run') && RunTo(s0, run') == s' && WF(s') && s' == Goto(s, 1, Maker(Get(0, Cold)))
  {
    run' := Calls(s0, run, s, 1, Maker(Lookup("ch", Cold)));
    var s1 := Goto(s, 1, Maker(Lookup("ch", Cold)));
    var s2 := Goto(s1, 1, Maker(Get(0, Cold)));
    run' := Moves(s0, run', s1, 1, YES, s2);
    s' := Goto(s, 1, Maker(Get(0, Cold)));
    assert s2.threads == s'.threads;
  }

  // A Create, thread 1, pops the only spare; its kick finds the refiller still there.
  lemma PopAndKick(s0: Fleet, run: seq<Action>, s: Fleet) returns (run': seq<Action>, s': Fleet)
    requires CanRun(s0, run) && RunTo(s0, run) == s && WF(s)
    requires 1 in s.threads && s.threads[1] == Maker(Get(0, Cold)) && 8 !in s.threads
    requires |s.pools| == 1 && s.pools[0] == PoolState(1, [0], true, false)
    ensures AllOk(run) ==> AllOk(run')
    ensures CanRun(s0, run') && RunTo(s0, run') == s' && WF(s')
    ensures s' == s.(pools := s'.pools, threads := s.threads[1 := Maker(Boot(0, 0))])
    ensures |s'.pools| == 1 && s'.pools[0] == PoolState(1, [], true, false)
  {
    var s3 := Goto(WithPool(s, 0, s.pools[0].Take().0), 1, Maker(Kick(0, Cold, Some(0))));
    run' := Moves(s0, run, s, 1, YES, s3);
    s' := Goto(s3, 1, Maker(Boot(0, 0)));
    run' := Moves(s0, run', s3, 1, YES.(child := 8), s');
  }

  // The get's kick comes before the refiller's reset.
  lemma GetsUnnoticed(s0: Fleet, run: seq<Action>, s: Fleet) returns (run': seq<Action>, s': Fleet)
    requires CanRun(s0, run) && RunTo(s0, run) == s && WF(s) && s.drivers == map["ch" := 0]
    requires 7 in s.threads && s.threads[7] == Refiller(0, Resetting) && 1 !in s.threads && 8 !in s.threads
    requires |s.pools| == 1 && s.pools[0] == PoolState(1, [0], true, false)
    ensures AllOk(run) ==> AllOk(run')
    ensures CanRun(s0, run') && RunTo(s0, run') == s' && WF(s')
    ensures s' == s.(pools := s'.pools, threads := s.threads[1 := Maker(Boot(0, 0))][7 := Done(true)])
    ensures |s'.pools| == 1 && s'.pools[0] == PoolState(1, [], false, false)
  {
    var s1;
    run', s1 := CallsGet(s0, run, s);
    run', s1 := PopAndKick(s0, run', s1);
    assert s1.threads == s.threads[1 := Maker(Boot(0, 0))];
    run', s' := Resets(s0, run', s1);
  }

  // The refiller, thread 7, resets its flag and ends.
  lemma Resets(s0: Fleet, run: seq<Action>, s: Fleet) returns (run': seq<Action>, s': Fleet)
    requires CanRun(s0, run) && RunTo(s0, run) == s && WF(s)
    requires 7 in s.threads && s.threads[7] == Refiller(0, Resetting)
    requires |s.pools| == 1 && s.pools[0] == PoolState(1, [], true, false)
    ensures AllOk(run) ==> AllOk(run')
    ensures CanRun(s0, run') && RunTo(s0, run') == s' && WF(s')
    ensures s' == s.(pools := s'.pools, threads := s.threads[7 := Done(true)])
    ensures |s'.pools| == 1 && s'.pools[0] == PoolState(1, [], false, false)
  {
    s' := Goto(WithPool(s, 0, s.pools[0].Reset()), 7, Done(true));
    run' := Moves(s0, run, s, 7, YES, s');
  }

  // A pool can stay below its target after a get: the get takes a spare after the
  // refiller's last look but before its reset, so its kick is ignored. At the end
  // nothing runs, no spawn ever failed, and the open pool of target 1 is empty.
  lemma IgnoredKick() returns (s0: Fleet, run: seq<Action>)
    ensures Init(s0) && CanRun(s0, run) && AllOk(run)
    ensures var s := RunTo(s0, run);
      && (forall t :: t in s.threads ==> s.threads[t].Done?)
      && |s.pools| == 1 && s.pools[0] == PoolState(1, [], false, false)
  {
    s0 := One(1);
    OneIsInit(1);
    var s;
    run, s := WarmedPool(s0);
    run, s := GetsUnnoticed(s0, run, s);
    run, s := BootAndTrack(s0, run, s, 1);
  }
}
