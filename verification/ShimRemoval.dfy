// What a Delete removes. It looks the task up by ID, works on that object, and in the
// end removes by ID again: exactly when is that still the same object?
module ShimRemoval {
  import opened Shim
  import opened ShimFacts
  import opened ShimWaiters
  import opened ShimOwnership

  // Thread t's next step removes what the table holds under id.
  predicate Removes(w: World, t: Tid, id: Id) {
    t in w.threads && w.threads[t].Removing? && w.threads[t].id == id
  }

  // Some thread other than t removes under id during the run.
  ghost predicate RivalRemoves(w: World, run: seq<Action>, id: Id, t: Tid)
    requires CanRun(w, run)
    decreases |run|
  {
    run != [] &&
    ((run[0].Step? && run[0].t != t && Removes(w, run[0].t, id)) || RivalRemoves(Do(w, run[0]), run[1..], id, t))
  }

  predicate Names(tb: Table, id: Id, o: Ref) { id in tb.tasks && tb.tasks[id] == o }

  ghost predicate Good(w: World) { Facts(w) && ChansOnce(w.tb) && TasksOnce(w.tb, w.removed) }

  lemma DoKeepsGood(w: World, a: Action)
    requires Good(w) && Can(w, a)
    ensures Good(Do(w, a)) && Later(w, Do(w, a))
  {
    DoKeepsSound(w, a);
    StepKeepsTasks(w, a);
  }

  lemma {:induction false} RunKeepsGood(w: World, run: seq<Action>)
    requires Good(w) && CanRun(w, run)
    ensures Good(RunTo(w, run)) && Later(w, RunTo(w, run))
    decreases |run|
  {
    RunKeepsSound(w, run);
    if run != [] {
      DoKeepsGood(w, run[0]);
      RunKeepsGood(Do(w, run[0]), run[1..]);
    }
  }

  lemma InitGood()
    ensures Good(INIT)
  {
    InitSound();
    InitOwned();
  }

  // Only a removal takes an object out of the table.
  lemma StepKeepsName(w: World, a: Action, id: Id, o: Ref)
    requires Can(w, a) && Names(w.tb, id, o) && !(a.Step? && Removes(w, a.t, id))
    ensures Names(Do(w, a).tb, id, o)
  {
    if a.Step? && w.threads[a.t].Calling? {
      CallTable(w, a.t, w.threads[a.t].rpc, a.c);
    }
  }

  lemma RemovalTakesName(w: World, t: Tid, c: Choice, id: Id)
    requires WF(w) && CanStep(w, t, c) && Removes(w, t, id)
    ensures var w' := Advance(w, t, c);
      && id !in w'.tb.tasks
      && w'.removed == (if id in w.tb.tasks then w.removed + [w.tb.tasks[id]] else w.removed)
  {
  }

  // What was removed stays so.
  lemma {:induction false} StaysRemoved(w: World, run: seq<Action>, o: Ref)
    requires Good(w) && CanRun(w, run) && o in w.removed
    ensures o in RunTo(w, run).removed && forall id :: !Names(RunTo(w, run).tb, id, o)
    decreases |run|
  {
    if run == [] {
      forall id ensures !Names(w.tb, id, o) {
        assert o in Slots(w.tb, w.removed)(Gone);
        assert Names(w.tb, id, o) ==> o in Slots(w.tb, w.removed)(Named(id));
      }
    } else {
      DoKeepsGood(w, run[0]);
      StepKeepsRemoved(w, run[0], o);
      StaysRemoved(Do(w, run[0]), run[1..], o);
    }
  }

  lemma StepKeepsRemoved(w: World, a: Action, o: Ref)
    requires Can(w, a) && o in w.removed
    ensures o in Do(w, a).removed
  {
    if a.Step? && w.threads[a.t].Calling? {
      CallHoldsSame(w, a.t, w.threads[a.t].rpc, a.c);
    }
  }

  // A thread that has removed never does so again.
  predicate Past(w: World, t: Tid) { t in w.threads && (w.threads[t].Reporting? || w.threads[t].Done?) }

  lemma StepKeepsPast(w: World, a: Action, t: Tid)
    requires Can(w, a) && Past(w, t)
    ensures Past(Do(w, a), t)
  {
    if !(a.Step? && a.t == t) { OtherThreads(w, a, t); }
  }

  lemma {:induction false} RunKeepsPast(w: World, run: seq<Action>, t: Tid)
    requires CanRun(w, run) && Past(w, t)
    ensures Past(RunTo(w, run), t)
    decreases |run|
  {
    if run != [] {
      StepKeepsPast(w, run[0], t);
      RunKeepsPast(Do(w, run[0]), run[1..], t);
    }
  }

  // While thread t is on its way to remove, the ID keeps its object exactly as long as
  // no other thread removes under it.
  lemma {:induction false} NameUntilRival(w: World, run: seq<Action>, id: Id, o: Ref, t: Tid)
    requires Good(w) && CanRun(w, run) && Names(w.tb, id, o) && Removes(RunTo(w, run), t, id)
    ensures Names(RunTo(w, run).tb, id, o) <==> !RivalRemoves(w, run, id, t)
    decreases |run|
  {
    if run != [] {
      var a := run[0];
      var w1 := Do(w, a);
      DoKeepsGood(w, a);
      if a.Step? && Removes(w, a.t, id) {
        RemovalTakesName(w, a.t, a.c, id);
        assert o in w1.removed;
        StaysRemoved(w1, run[1..], o);
        if a.t == t {
          RunKeepsPast(w1, run[1..], t);
        }
      } else {
        StepKeepsName(w, a, id, o);
        NameUntilRival(w1, run[1..], id, o, t);
      }
    }
  }

  // Safe removal, exactly. Thread t's Delete looks id up and finds o; some steps later
  // it is about to remove. It removes o, and not something else or nothing, if and only
  // if no other thread has removed under id in between. And o itself has stopped by
  // then, with its sandbox stopped and every waiter's channel closed.
  lemma RemovesWhatItLookedUp(run: seq<Action>, t: Tid, c: Choice, id: Id, more: seq<Action>)
    requires CanRun(INIT, run)
    requires var w := RunTo(INIT, run);
      && WF(w) && t in w.threads && w.threads[t] == Calling(Delete(id)) && id in w.tb.tasks
      && CanRun(Advance(w, t, c), more) && Removes(RunTo(Advance(w, t, c), more), t, id)
    ensures var w := RunTo(INIT, run);
      var o, w' := w.tb.tasks[id], RunTo(Advance(w, t, c), more);
      && (Names(w'.tb, id, o) <==> !RivalRemoves(Advance(w, t, c), more, id, t))
      && w'.threads[t].o == o
      && TornDown(w', o)
  {
    InitGood();
    RunKeepsGood(INIT, run);
    var w := RunTo(INIT, run);
    var o := w.tb.tasks[id];
    DoKeepsGood(w, Step(t, c));
    var w1 := Advance(w, t, c);
    RunKeepsGood(w1, more);
    NameUntilRival(w1, more, id, o, t);
    RunKeepsErrand(w1, more, t, o);
    RemovingIsTornDown(RunTo(w1, more), t);
  }

  // Object o has stopped, its sandbox too, and none waits for it.
  ghost predicate TornDown(w: World, o: Ref) {
    && IsTask(w.tb, o) && IsStopped(w.tb, o) && w.tb.objs[o].life.waiters == [] && w.tb.objs[o].life.rec.at.Some?
    && w.tb.objs[o].kind.inst < |w.stopped| && w.stopped[w.tb.objs[o].kind.inst]
  }

  lemma RemovingIsTornDown(w: World, t: Tid)
    requires Facts(w) && t in w.threads && w.threads[t].Removing?
    ensures TornDown(w, w.threads[t].o)
  {
    assert ThreadOK(w.tb, w.stopped, w.threads[t]);
    assert ObjOK(w.tb, w.stopped, w.tb.objs[w.threads[t].o]);
  }

  lemma TornDownStays(w: World, w': World, o: Ref)
    requires Facts(w') && Later(w, w') && TornDown(w, o)
    ensures TornDown(w', o)
  {
    assert LifeEvolves(w.tb.objs[o].life, w'.tb.objs[o].life, w'.tb.closes);
    assert KindEvolves(w.tb.objs[o].kind, w'.tb.objs[o].kind);
  }

  // A thread that ends object o keeps to it.
  predicate Errand(w: World, t: Tid, o: Ref) {
    t in w.threads && ((w.threads[t].Ending? || w.threads[t].Removing?) ==> w.threads[t].o == o)
    && (w.threads[t].Ending? || w.threads[t].Removing? || w.threads[t].Reporting? || w.threads[t].Done?)
  }

  lemma StepKeepsErrand(w: World, a: Action, t: Tid, o: Ref)
    requires Can(w, a) && Errand(w, t, o)
    ensures Errand(Do(w, a), t, o)
  {
    if !(a.Step? && a.t == t) { OtherThreads(w, a, t); }
  }

  lemma {:induction false} RunKeepsErrand(w: World, run: seq<Action>, t: Tid, o: Ref)
    requires CanRun(w, run) && Errand(w, t, o)
    ensures Errand(RunTo(w, run), t, o)
    decreases |run|
  {
    if run != [] {
      StepKeepsErrand(w, run[0], t, o);
      RunKeepsErrand(Do(w, run[0]), run[1..], t, o);
    }
  }

  // ---- one Delete per ID at a time ----

  // Thread th is a Delete of task id that has yet to remove.
  predicate Deleting(th: Thread, id: Id) {
    match th
    case Calling(rpc) => rpc == Delete(id)
    case Ending(_, _, who, _) => who == ByDelete(id)
    case Removing(x, _) => x == id
    case _ => false
  }

  ghost predicate OneDelete(w: World) {
    forall id, t, u ::
      t in w.threads && u in w.threads && Deleting(w.threads[t], id) && Deleting(w.threads[u], id) ==> t == u
  }

  ghost predicate OneDeleteThroughout(w: World, run: seq<Action>)
    requires CanRun(w, run)
    decreases |run|
  {
    OneDelete(w) && (run != [] ==> OneDeleteThroughout(Do(w, run[0]), run[1..]))
  }

  // Every Delete past its lookup still finds its object in the table, and every object
  // removed so far was torn down.
  ghost predicate SafelyRemoved(w: World) {
    && (forall t, id :: t in w.threads && Deleting(w.threads[t], id) && !w.threads[t].Calling? ==>
          Names(w.tb, id, w.threads[t].o))
    && (forall o :: o in w.removed ==> TornDown(w, o))
  }

  lemma DeletingGoesOn(w: World, a: Action, t: Tid, id: Id)
    requires Can(w, a) && t in Do(w, a).threads && Deleting(Do(w, a).threads[t], id)
    requires !Do(w, a).threads[t].Calling?
    ensures t in w.threads && Deleting(w.threads[t], id)
    ensures var o := Do(w, a).threads[t].o; if w.threads[t].Calling? then Names(w.tb, id, o) else o == w.threads[t].o
    ensures !(a.Step? && a.t == t && Removes(w, t, id))
  {
    if t in w.threads && !(a.Step? && a.t == t) {
      OtherThreads(w, a, t);
    } else if a.Step? && w.threads[a.t].Calling? {
      CallThreads(w, a.t, w.threads[a.t].rpc, a.c);
    }
  }

  lemma StepKeepsSafelyRemoved(w: World, a: Action)
    requires Good(w) && Can(w, a) && OneDelete(w) && SafelyRemoved(w)
    ensures SafelyRemoved(Do(w, a))
  {
    var w' := Do(w, a);
    DoKeepsGood(w, a);
    forall t, id | t in w'.threads && Deleting(w'.threads[t], id) && !w'.threads[t].Calling?
      ensures Names(w'.tb, id, w'.threads[t].o)
    {
      DeletingGoesOn(w, a, t, id);
      assert Names(w.tb, id, w'.threads[t].o);
      StepKeepsName(w, a, id, w'.threads[t].o);
    }
    forall o | o in w'.removed ensures TornDown(w', o) {
      RemovedOne(w, a, o);
      TornDownStays(w, w', o);
    }
  }

  lemma RemovedOne(w: World, a: Action, o: Ref)
    requires Good(w) && Can(w, a) && SafelyRemoved(w) && o in Do(w, a).removed
    ensures TornDown(w, o)
  {
    if o !in w.removed {
      if a.Step? && w.threads[a.t].Calling? {
        CallHoldsSame(w, a.t, w.threads[a.t].rpc, a.c);
      } else if a.Step? && w.threads[a.t].Removing? {
        RemovingIsTornDown(w, a.t);
        assert Deleting(w.threads[a.t], w.threads[a.t].id);
      }
    }
  }

  lemma {:induction false} RunKeepsSafelyRemoved(w: World, run: seq<Action>)
    requires Good(w) && CanRun(w, run) && OneDeleteThroughout(w, run) && SafelyRemoved(w)
    ensures SafelyRemoved(RunTo(w, run))
    decreases |run|
  {
    if run != [] {
      DoKeepsGood(w, run[0]);
      StepKeepsSafelyRemoved(w, run[0]);
      RunKeepsSafelyRemoved(Do(w, run[0]), run[1..]);
    }
  }

  // With at most one Delete per ID in flight at any time, every object that ever left
  // the table has stopped, with its sandbox stopped and all its waiters woken; and a
  // Delete about to remove still finds under its ID the object it tore down.
  lemma SafeRemoval(run: seq<Action>)
    requires CanRun(INIT, run) && OneDeleteThroughout(INIT, run)
    ensures var w := RunTo(INIT, run);
      && (forall o :: o in w.removed ==> TornDown(w, o))
      && (forall t :: t in w.threads && w.threads[t].Removing? ==> Names(w.tb, w.threads[t].id, w.threads[t].o))
  {
    InitGood();
    RunKeepsSafelyRemoved(INIT, run);
    var w := RunTo(INIT, run);
    forall t | t in w.threads && w.threads[t].Removing? ensures Names(w.tb, w.threads[t].id, w.threads[t].o) {
      assert Deleting(w.threads[t], w.threads[t].id);
    }
  }
}
