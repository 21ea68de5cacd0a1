// The exec lifecycle over every run, and exactly when an exec's waiters can be woken.
module ShimExecTheorems {
  import opened Common
  import opened Shim
  import opened ShimFacts
  import opened ShimWaiters
  import opened ShimExits
  import opened ShimExecs

  lemma RunKeepsAll(run: seq<Action>)
    requires CanRun(INIT, run)
    ensures Sound(RunTo(INIT, run)) && ExecsOK(RunTo(INIT, run)) && WF(RunTo(INIT, run))
  {
    InitSound();
    InitExecs();
    RunKeepsSound(INIT, run);
    RunKeepsExecs(INIT, run);
    FactsGiveWF(RunTo(INIT, run));
  }

  // Over every run, an exec is running if and only if one goroutine stands for it; then
  // its task's object still lists it, whether or not that task is in the table; and its
  // command has been handed to the sandbox, or is about to be, once if it was started
  // and never otherwise.
  lemma ExecLifecycle(run: seq<Action>, e: Ref)
    requires CanRun(INIT, run) && IsExec(RunTo(INIT, run).tb, e)
    ensures var w := RunTo(INIT, run);
      && (HasStatus(w.tb, e, RUNNING) <==> exists t :: Runs(w.threads, t) == [e])
      && (forall t, u :: e in Runs(w.threads, t) && e in Runs(w.threads, u) ==> t == u)
      && (HasStatus(w.tb, e, RUNNING) ==> Registered(w.tb, e))
      && (!HasStatus(w.tb, e, CREATED) <==> e in w.handed || exists t :: ToHand(w.threads, t) == [e])
      && (forall t :: e in w.handed ==> ToHand(w.threads, t) != [e])
      && NoDup(w.handed)
  {
    RunKeepsAll(run);
    var w := RunTo(INIT, run);
    var f, g := Goroutines(w.threads), ShimExecs.Spots(w.threads, w.handed);
    forall t
      ensures (e in Runs(w.threads, t) <==> e in f(t)) && (e in Runs(w.threads, t) <==> Runs(w.threads, t) == [e])
    {
    }
    forall t ensures e in g(ShimExecs.ByThread(t)) <==> ToHand(w.threads, t) == [e] {}
    assert e in w.handed <==> e in g(Handed);
    assert NoDup(g(Handed));
    assert HasStatus(w.tb, e, RUNNING) <==> e in RunningOnes(w.tb);
    assert !HasStatus(w.tb, e, CREATED) <==> e in StartedOnes(w.tb);
    if e in StartedOnes(w.tb) {
      var s :| e in g(s);
      assert s == Handed || exists t :: s == ShimExecs.ByThread(t);
    }
  }

  // Each step of a run leaves an exec's status as it is, starts a created exec, or
  // marks the exit of a running one: no status is skipped and none comes back.
  lemma ExecStatusSteps(run: seq<Action>, a: Action, e: Ref)
    requires CanRun(INIT, run) && Can(RunTo(INIT, run), a) && IsExec(RunTo(INIT, run).tb, e)
    ensures var w := RunTo(INIT, run);
      var w' := Do(w, a);
      var s, s' := w.tb.objs[e].life.status, if IsExec(w'.tb, e) then w'.tb.objs[e].life.status else CREATED;
      IsExec(w'.tb, e) && (s' == s || (s == CREATED && s' == RUNNING) || (s == RUNNING && s' == STOPPED))
  {
    RunKeepsAll(run);
    StatusStep(RunTo(INIT, run), a, e);
  }

  lemma StatusStep(w: World, a: Action, e: Ref)
    requires ExecsOK(w) && Can(w, a) && IsExec(w.tb, e)
    ensures var w' := Do(w, a);
      && IsExec(w'.tb, e)
      && var s, s' := w.tb.objs[e].life.status, w'.tb.objs[e].life.status;
         s' == s || (s == CREATED && s' == RUNNING && Registered(w.tb, e)) || (s == RUNNING && s' == STOPPED)
  {
    if a.Step? {
      match w.threads[a.t] {
        case Calling(rpc) => CallStatus(w, a.t, rpc, a.c, e);
        case Ending(o, _, who, ep) => if who.ByExec? && ep.Marking? { MarksRunning(w, a.t); }
        case _ =>
      }
    }
  }

  lemma CallStatus(w: World, t: Tid, rpc: Rpc, c: Choice, e: Ref)
    requires ExecsNamed(w.tb) && WF(w) && IsExec(w.tb, e)
    ensures var w' := CallStep(w, t, rpc, c);
      && IsExec(w'.tb, e)
      && var s, s' := w.tb.objs[e].life.status, w'.tb.objs[e].life.status;
         s' == s || (s == CREATED && s' == RUNNING && Registered(w.tb, e))
  {
    CallTable(w, t, rpc, c);
    if rpc.StartExec? && Resolve(w.tb, OnExec(rpc.id, rpc.exec)).Some? {
      ResolvesToRegistered(w.tb, rpc.id, rpc.exec);
    }
  }

  // ---- execs do not touch tasks ----

  // A thread that serves an exec: an exec RPC, or the exec's goroutine.
  predicate ServesExec(th: Thread) {
    match th
    case Calling(rpc) =>
      rpc.Register? || rpc.StartExec? || rpc.DeleteExec? || rpc.KillExec? || (rpc.State? && rpc.target.OnExec?)
    case Ending(_, _, who, _) => who.ByExec?
    case Waiting(wp) => wp.Entering? && wp.target.OnExec?
    case Guest(_, _) => true
    case _ => false
  }

  // No step of an exec changes the task table, a task's status, exit record or waiters,
  // or what it holds, or stops a sandbox.
  lemma ExecStepsLeaveTasks(run: seq<Action>, t: Tid, c: Choice, o: Ref)
    requires CanRun(INIT, run)
    requires var w := RunTo(INIT, run); CanStep(w, t, c) && ServesExec(w.threads[t]) && IsTask(w.tb, o)
    ensures var w := RunTo(INIT, run);
      && Can(w, Step(t, c))
      && var w' := Do(w, Step(t, c));
         && w'.tb.tasks == w.tb.tasks && w'.stopped == w.stopped && IsTask(w'.tb, o)
         && w'.tb.objs[o].life == w.tb.objs[o].life
         && w'.tb.objs[o].kind.(execs := map[]) == w.tb.objs[o].kind.(execs := map[])
  {
    RunKeepsAll(run);
    ExecStepLeavesTasks(RunTo(INIT, run), t, c, o);
  }

  lemma ExecStepLeavesTasks(w: World, t: Tid, c: Choice, o: Ref)
    requires WF(w) && CanStep(w, t, c) && ServesExec(w.threads[t]) && IsTask(w.tb, o)
    ensures var w' := Advance(w, t, c);
      && w'.tb.tasks == w.tb.tasks && w'.stopped == w.stopped && IsTask(w'.tb, o)
      && w'.tb.objs[o].life == w.tb.objs[o].life
      && w'.tb.objs[o].kind.(execs := map[]) == w.tb.objs[o].kind.(execs := map[])
  {
    match w.threads[t] {
      case Calling(rpc) => ExecCallLeavesTasks(w, t, rpc, c, o);
      case Waiting(wp) =>
        var e := Resolve(w.tb, wp.target);
        if e.Some? { ResolvesTo(w, wp.target, e.value); }
      case _ =>
    }
  }

  lemma ExecCallLeavesTasks(w: World, t: Tid, rpc: Rpc, c: Choice, o: Ref)
    requires WF(w) && IsTask(w.tb, o) && ServesExec(Calling(rpc))
    ensures var w' := CallStep(w, t, rpc, c);
      && w'.tb.tasks == w.tb.tasks && w'.stopped == w.stopped && IsTask(w'.tb, o)
      && w'.tb.objs[o].life == w.tb.objs[o].life
      && w'.tb.objs[o].kind.(execs := map[]) == w.tb.objs[o].kind.(execs := map[])
  {
    CallTable(w, t, rpc, c);
    if rpc.StartExec? && Resolve(w.tb, OnExec(rpc.id, rpc.exec)).Some? {
      ResolvesTo(w, OnExec(rpc.id, rpc.exec), Resolve(w.tb, OnExec(rpc.id, rpc.exec)).value);
    }
  }

  // ---- waiters of an exec ----

  // An RPC can find exec e: its task object is in the table and lists it.
  ghost predicate Reachable(tb: Table, e: Ref) {
    && Registered(tb, e)
    && var o := tb.objs[e].kind.owner; tb.objs[o].kind.id in tb.tasks && tb.tasks[tb.objs[o].kind.id] == o
  }

  // No RPC can start e any more.
  ghost predicate Stranded(tb: Table, e: Ref) { HasStatus(tb, e, CREATED) && !Reachable(tb, e) }

  lemma CallKeepsStranded(w: World, t: Tid, rpc: Rpc, c: Choice, e: Ref)
    requires WF(w) && ExecsNamed(w.tb) && Stranded(w.tb, e)
    ensures Stranded(CallStep(w, t, rpc, c).tb, e)
  {
    CallTable(w, t, rpc, c);
    if rpc.StartExec? && Resolve(w.tb, OnExec(rpc.id, rpc.exec)).Some? {
      assert Reachable(w.tb, Resolve(w.tb, OnExec(rpc.id, rpc.exec)).value);
    }
  }

  lemma StepKeepsStranded(w: World, a: Action, e: Ref)
    requires ExecsOK(w) && Can(w, a) && Stranded(w.tb, e)
    ensures Stranded(Do(w, a).tb, e)
  {
    StatusStep(w, a, e);
    assert ObjWF(w.tb, |w.stopped|, w.tb.objs[e]);
    if a.Step? {
      match w.threads[a.t] {
        case Calling(rpc) => CallKeepsStranded(w, a.t, rpc, a.c, e);
        case _ =>
      }
    }
  }

  lemma {:induction false} StaysStranded(w: World, run: seq<Action>, e: Ref)
    requires ExecsOK(w) && CanRun(w, run) && Stranded(w.tb, e)
    ensures Stranded(RunTo(w, run).tb, e)
    decreases |run|
  {
    if run != [] {
      StepKeepsStranded(w, run[0], e);
      StepKeepsExecs(w, run[0]);
      StaysStranded(Do(w, run[0]), run[1..], e);
    }
  }

  // Some continuation of w stops e.
  ghost predicate CanStop(w: World, e: Ref) {
    exists more :: CanRun(w, more) && IsStopped(RunTo(w, more).tb, e)
  }

  lemma AfterStep(w: World, a: Action, e: Ref)
    requires Can(w, a) && CanStop(Do(w, a), e)
    ensures CanStop(w, e)
  {
    var more :| CanRun(Do(w, a), more) && IsStopped(RunTo(Do(w, a), more).tb, e);
    var all := [a] + more;
    assert all[1..] == more;
    assert CanRun(w, all) && RunTo(w, all) == RunTo(Do(w, a), more);
  }

  lemma AlreadyStopped(w: World, e: Ref)
    requires IsStopped(w.tb, e)
    ensures CanStop(w, e)
  {
    assert CanRun(w, []) && RunTo(w, []) == w;
  }

  const ANY := Choice(true, 0, 0, 0)

  // A goroutine can go on to the exit of its exec.
  lemma GoroutineCanStop(w: World, t: Tid, e: Ref)
    requires Sound(w) && Runs(w.threads, t) == [e]
    ensures CanStop(w, e)
    decreases match w.threads[t] case Guest(_, gp) => (if gp.Handing? then 2 else 1) case _ => 0
  {
    FactsGiveWF(w);
    var a := Step(t, ANY);
    var w' := Do(w, a);
    DoKeepsSound(w, a);
    if w.threads[t].Guest? {
      GoroutineCanStop(w', t, e);
    } else {
      AlreadyStopped(w', e);
    }
    AfterStep(w, a, e);
  }

  lemma {:induction false} FreeTid<T>(m: map<Tid, T>) returns (t: Tid)
    ensures forall u :: u in m ==> u < t
    decreases |m|
  {
    if m == map[] {
      t := 0;
    } else {
      var k :| k in m;
      var s := FreeTid(m - {k});
      t := if s <= k then k + 1 else s;
      forall u | u in m ensures u < t {
        assert u == k || u in m - {k};
      }
    }
  }

  lemma StartCanStop(w: World, t: Tid, child: Tid, id: Id, exec: Id, e: Ref)
    requires Sound(w) && t in w.threads && w.threads[t] == Calling(StartExec(id, exec)) && child !in w.threads
    requires Resolve(w.tb, OnExec(id, exec)) == Some(e) && HasStatus(w.tb, e, CREATED)
    ensures CanStop(w, e)
  {
    FactsGiveWF(w);
    var start := Step(t, ANY.(child := child));
    StartRuns(w, t, child, id, exec, e);
    DoKeepsSound(w, start);
    GoroutineCanStop(Do(w, start), child, e);
    AfterStep(w, start, e);
  }

  lemma StartRuns(w: World, t: Tid, child: Tid, id: Id, exec: Id, e: Ref)
    requires WF(w) && t in w.threads && w.threads[t] == Calling(StartExec(id, exec)) && child !in w.threads
    requires Resolve(w.tb, OnExec(id, exec)) == Some(e) && HasStatus(w.tb, e, CREATED)
    ensures Can(w, Step(t, ANY.(child := child)))
    ensures Runs(Do(w, Step(t, ANY.(child := child))).threads, child) == [e]
  {
  }

  // A created exec that an RPC can find can be started.
  lemma CreatedCanStop(w: World, e: Ref)
    requires Sound(w) && HasStatus(w.tb, e, CREATED) && Reachable(w.tb, e)
    ensures CanStop(w, e)
  {
    FactsGiveWF(w);
    var t := FreeTid(w.threads);
    var id, exec := w.tb.objs[w.tb.objs[e].kind.owner].kind.id, w.tb.objs[e].kind.id;
    var call := Call(t, Calling(StartExec(id, exec)));
    DoKeepsSound(w, call);
    StartCanStop(Do(w, call), t, t + 1, id, exec, e);
    AfterStep(w, call, e);
  }

  // An exec can still stop, and so wake its waiters, if and only if it is not one that
  // was reaped, or whose task was removed, before it was ever started. For those the
  // code keeps no wake-up at all: the channels stay open in every continuation.
  lemma WaitersCanWake(run: seq<Action>, e: Ref)
    requires CanRun(INIT, run) && IsExec(RunTo(INIT, run).tb, e)
    ensures CanStop(RunTo(INIT, run), e) <==> !Stranded(RunTo(INIT, run).tb, e)
  {
    RunKeepsAll(run);
    var w := RunTo(INIT, run);
    if Stranded(w.tb, e) {
      forall more | CanRun(w, more) ensures !IsStopped(RunTo(w, more).tb, e) {
        StaysStranded(w, more, e);
      }
    } else if HasStatus(w.tb, e, CREATED) {
      CreatedCanStop(w, e);
    } else if HasStatus(w.tb, e, RUNNING) {
      ExecLifecycle(run, e);
      var t :| Runs(w.threads, t) == [e];
      GoroutineCanStop(w, t, e);
    } else {
      AlreadyStopped(w, e);
    }
  }

  // An exec's exit is marked and published even if its task has been removed meanwhile:
  // once its goroutine has marked the exit, the publish attempts made and to be made are
  // one, and the record is the goroutine's.
  lemma ExecExitRecorded(run: seq<Action>, t: Tid, c: Choice)
    requires CanRun(INIT, run)
    requires var w := RunTo(INIT, run);
      CanStep(w, t, c) && w.threads[t].Ending? && w.threads[t].who.ByExec? && w.threads[t].ep.Marking?
    ensures var w := RunTo(INIT, run);
      && WF(w)
      && var e, w' := w.threads[t].o, Advance(w, t, c);
         && RecordOf(w'.tb, e, Record(w.threads[t].code, Some(c.now)))
         && Announced(w'.log, e) == 0 && t in Pending(w'.threads, e)
         && Announced(w'.log, e) + |Pending(w'.threads, e)| == 1
  {
    RunKeepsAll(run);
    var w := RunTo(INIT, run);
    var w', e := Advance(w, t, c), w.threads[t].o;
    InitExits();
    RunKeepsExits(INIT, run);
    MarksRunning(w, t);
    StepKeepsExits(w, Step(t, c));
    OnceCounts(w'.threads, w'.log, w'.tb, e);
    assert t in Pending(w'.threads, e);
  }
}
