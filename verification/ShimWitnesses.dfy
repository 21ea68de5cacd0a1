// What the task service does not promise, each with a run that shows it: the order of
// events when conflicting RPCs overlap, the removal of what a Delete looked up, and the
// wake-up of those who wait for an exec that is reaped before it was started.
module ShimWitnesses {
  import opened Common
  import opened Shim
  import opened ShimFacts
  import opened ShimExecTheorems
  import opened ShimWords
  import opened ShimEvents
  import opened ShimRuns

  // ---- conflicting RPCs ----

  // This run, in which RPCs on id overlap only as an a with a b, breaks the order.
  ghost predicate Breaks(run: seq<Action>, id: Id, a: Role, b: Role) {
    && CanRun(INIT, run) && OnlyOverlapThroughout(INIT, run, id, a, b)
    && DistinctNames(RunTo(INIT, run).tb, id) && !InLanguage(Word(RunTo(INIT, run).log, id))
  }

  lemma OutOfOrder(k: Watch, run: seq<Action>, w: World, before: seq<Event>, e: Event)
    requires Reaches(k, run, w) && k.Watched? && w.log == before + [e] && Concerns(e, k.id)
    requires |before| <= 1 && (before == [] ==> !e.Created?)
    requires before != [] ==> before[0].Created? && Concerns(before[0], k.id) && e.Deleted?
    requires forall o :: 0 <= o < |w.tb.objs| ==> w.tb.objs[o].kind.Task?
    ensures Breaks(run, k.id, k.a, k.b)
  {
    if before != [] {
      assert before == [] + [before[0]];
      WalkOn([], k.id, before[0]);
    }
    WalkOn(before, k.id, e);
    WalksExactly(Word(w.log, k.id));
  }

  // A Start overtakes the Create's publication.
  lemma StartOvertakesCreate(id: Id) returns (run: seq<Action>)
    requires id != ""
    ensures Breaks(run, id, Creator, Starter)
  {
    var k := Watched(id, Creator, Starter, 0, 1);
    run := Begins(k);
    run := Inserts(k, run, INIT, 0, id);
    var w := First(id);
    run := Calls(k, run, w, 1, Calling(Start(id)));
    var w1 := Goto(w, 1, Calling(Start(id)));
    var w2 := Goto(Publish(w1.(tb := SetRunning(w1.tb, 0)), Started(id, 0)), 1, Done(Fine));
    run := Steps(k, run, w1, 1, ANY, w2);
    OutOfOrder(k, run, w2, [], Started(id, 0));
  }

  // So do a Kill and a Delete.
  lemma EndOvertakesCreate(id: Id, rpc: Rpc) returns (run: seq<Action>)
    requires id != "" && (rpc == Kill(id, 15) || rpc == Delete(id))
    ensures Breaks(run, id, Creator, if rpc.Kill? then Killer else Deleter)
  {
    var k := Watched(id, Creator, if rpc.Kill? then Killer else Deleter, 0, 1);
    run := Begins(k);
    run := Inserts(k, run, INIT, 0, id);
    run := LooksUp(k, run, First(id), 1, rpc);
    run := EndsUnannounced(k, run, LookedUp(First(id), 1, rpc), id);
  }

  lemma EndsUnannounced(k: Watch, run: seq<Action>, w: World, id: Id) returns (run': seq<Action>)
    requires Reaches(k, run, w) && k.Watched? && k.id == id && w.log == []
    requires |w.tb.objs| == 1 && !IsStopped(w.tb, 0) && IsTask(w.tb, 0) && w.tb.objs[0].kind.id == id
    requires 1 in w.threads && w.threads[1].Ending? && w.threads[1].o == 0 && w.threads[1].ep.Stopping?
    ensures Breaks(run', id, k.a, k.b)
  {
    var th := w.threads[1];
    run' := Marks(k, run, w, 1, 0, th.code, th.who);
    var w1 := Marked(w, 1, 0, th.code, th.who);
    var rec := Record(th.code, Some(0));
    assert !th.who.ByExec? by {
      ReachesSound(k, run, w);
      assert ThreadOK(w.tb, w.stopped, th);
    }
    run' := Publishes(k, run', w1, 1, 0, th.code, rec, th.who);
    OutOfOrder(k, run', Published(w1, 1, 0, rec, th.who), [], Exited(id, id, 0, rec));
  }

  // A Delete overtakes the publication of the exit by a Kill, or by another Delete.
  lemma DeleteOvertakesExit(id: Id, rpc: Rpc) returns (run: seq<Action>)
    requires id != "" && (rpc == Kill(id, 15) || rpc == Delete(id))
    ensures Breaks(run, id, if rpc.Kill? then Killer else Deleter, Deleter)
  {
    var k0 := Watched(id, if rpc.Kill? then Killer else Deleter, Deleter, 0, 0);
    run := Begins(k0);
    run := Inserts(k0, run, INIT, 0, id);
    run := Announces(k0, run, id);
    var w := Announced0(id);
    Recast(k0, run, w, 1, 2);
    var k := k0.(x := 1, y := 2);
    run := LooksUp(k, run, w, 1, rpc);
    var w1 := LookedUp(w, 1, rpc);
    run := LooksUp(k, run, w1, 2, Delete(id));
    run := Overtakes(k, run, LookedUp(w1, 2, Delete(id)), id);
  }

  lemma Overtakes(k: Watch, run: seq<Action>, w: World, id: Id) returns (run': seq<Action>)
    requires Reaches(k, run, w) && k.Watched? && k.id == id && id in w.tb.tasks && w.tb.tasks[id] == 0
    requires w.log == [Created(id, 0)] && |w.tb.objs| == 1 && !IsStopped(w.tb, 0) && IsTask(w.tb, 0)
    requires 1 in w.threads && w.threads[1].Ending? && w.threads[1].o == 0 && w.threads[1].ep.Stopping?
    requires 2 in w.threads && w.threads[2] == Ending(0, 0, ByDelete(id), Stopping)
    ensures Breaks(run', id, k.a, k.b)
  {
    var th := w.threads[1];
    run' := Marks(k, run, w, 1, 0, th.code, th.who);
    var w1 := Marked(w, 1, 0, th.code, th.who);
    run' := Marks(k, run', w1, 2, 0, 0, ByDelete(id));
    var w2 := Marked(w1, 2, 0, 0, ByDelete(id));
    run' := Removes(k, run', w2, 2, id, 0);
    var w3 := Removed(w2, 2, id, 0);
    var rec := w3.threads[2].rec;
    run' := Reports(k, run', w3, 2, id, 0, rec);
    var w4 := Goto(Publish(w3, Deleted(id, 0, rec)), 2, Done(DeletedTask(0, rec)));
    OutOfOrder(k, run', w4, [Created(id, 0)], Deleted(id, 0, rec));
  }

  lemma ListedBreaks(id: Id, a: Role, b: Role) returns (run: seq<Action>)
    requires id != "" && Conflict(a, b) && (a.Creator? || b.Deleter?) && !b.Creator?
    ensures Breaks(run, id, a, b)
  {
    match (a, b)
    case (Creator, Starter) => run := StartOvertakesCreate(id);
    case (Creator, Killer) => run := EndOvertakesCreate(id, Kill(id, 15));
    case (Creator, Deleter) => run := EndOvertakesCreate(id, Delete(id));
    case (Killer, Deleter) => run := DeleteOvertakesExit(id, Kill(id, 15));
    case (Deleter, Deleter) => run := DeleteOvertakesExit(id, Delete(id));
  }

  lemma ConflictBreaks(id: Id, a: Role, b: Role) returns (run: seq<Action>)
    requires id != "" && Conflict(a, b)
    ensures Breaks(run, id, a, b)
  {
    if (a.Creator? || b.Deleter?) && !b.Creator? {
      run := ListedBreaks(id, a, b);
    } else {
      run := ListedBreaks(id, b, a);
      OverlapSwaps(INIT, run, id, b, a);
    }
  }

  // Clients that overlap RPCs on id only as an a with a b see its events in order,
  // whatever else they do.
  ghost predicate OrderKept(id: Id, a: Role, b: Role) {
    forall run ::
      CanRun(INIT, run) && OnlyOverlapThroughout(INIT, run, id, a, b) && DistinctNames(RunTo(INIT, run).tb, id) ==>
        InLanguage(Word(RunTo(INIT, run).log, id))
  }

  // The discipline is exact: they do if and only if a and b do not conflict.
  lemma ConflictIsExact(id: Id, a: Role, b: Role)
    requires id != ""
    ensures OrderKept(id, a, b) <==> !Conflict(a, b)
  {
    if Conflict(a, b) {
      var run := ConflictBreaks(id, a, b);
      assert CanRun(INIT, run);
    } else {
      forall run |
        CanRun(INIT, run) && OnlyOverlapThroughout(INIT, run, id, a, b) && DistinctNames(RunTo(INIT, run).tb, id)
        ensures InLanguage(Word(RunTo(INIT, run).log, id))
      {
        OverlapHarmless(INIT, run, id, a, b);
        EventLanguage(run, id);
      }
    }
  }

  // ---- Delete removes by ID ----

  // Two Deletes look the same task up; the first finishes, the ID is created again, and
  // the second removes the new task: still CREATED, its sandbox never stopped, and no
  // longer in the table.
  lemma DeleteDropsAnother() returns (run: seq<Action>, o: Ref)
    ensures CanRun(INIT, run)
    ensures var w := RunTo(INIT, run);
      && o in w.removed && IsTask(w.tb, o) && !IsStopped(w.tb, o) && w.tb.objs[o].kind.inst < |w.stopped|
      && !w.stopped[w.tb.objs[o].kind.inst]
  {
    run := Begins(Free);
    run := Inserts(Free, run, INIT, 0, "a");
    run := BothLookUp(run, First("a"));
    run := DropsAnother(run, BothDeleting(First("a")));
    o := 1;
  }

  function BothDeleting(w: World): World {
    var th := Ending(0, 0, ByDelete("a"), Stopping);
    Goto(Goto(w, 1, th), 2, th)
  }

  lemma BothLookUp(run: seq<Action>, w: World) returns (run': seq<Action>)
    requires Reaches(Free, run, w) && 1 !in w.threads && 2 !in w.threads && Holds(w.tb, "a", 0)
    ensures Reaches(Free, run', BothDeleting(w))
  {
    run' := LooksUp(Free, run, w, 1, Delete("a"));
    run' := LooksUp(Free, run', LookedUp(w, 1, Delete("a")), 2, Delete("a"));
  }

  lemma DropsAnother(run: seq<Action>, w: World) returns (run': seq<Action>)
    requires Reaches(Free, run, w) && 1 in w.threads && w.threads[1] == Ending(0, 0, ByDelete("a"), Stopping)
    requires 2 in w.threads && w.threads[2] == Ending(0, 0, ByDelete("a"), Stopping) && 3 !in w.threads
    requires Holds(w.tb, "a", 0) && |w.tb.objs| == 1 && |w.stopped| == 1
    requires w.tb.objs[0] == Obj(Task("a", "", 0, map[]), NEW)
    ensures CanRun(INIT, run')
    ensures var w' := RunTo(INIT, run');
      && 1 in w'.removed && IsTask(w'.tb, 1) && !IsStopped(w'.tb, 1)
      && w'.tb.objs[1].kind.inst == 1 && |w'.stopped| == 2 && !w'.stopped[1]
  {
    var w1;
    run', w1 := FirstDelete(run, w);
    run' := Inserts(Free, run', w1, 3, "a");
    run' := LateDelete(run', Inserted(w1, 3, "a"));
  }

  lemma FirstDelete(run: seq<Action>, w: World) returns (run': seq<Action>, w': World)
    requires Reaches(Free, run, w) && 1 in w.threads && w.threads[1] == Ending(0, 0, ByDelete("a"), Stopping)
    requires Holds(w.tb, "a", 0) && |w.tb.objs| == 1 && |w.stopped| == 1
    requires w.tb.objs[0] == Obj(Task("a", "", 0, map[]), NEW)
    ensures Reaches(Free, run', w') && "a" !in w'.tb.tasks && |w'.tb.objs| == 1 && |w'.stopped| == 1
    ensures w'.tb.objs[0].kind == w.tb.objs[0].kind && IsStopped(w'.tb, 0)
    ensures 1 in w'.threads && w'.threads == w.threads[1 := w'.threads[1]]
  {
    run' := Marks(Free, run, w, 1, 0, 0, ByDelete("a"));
    run', w' := FirstRemoval(run', Marked(w, 1, 0, 0, ByDelete("a")));
  }

  lemma FirstRemoval(run: seq<Action>, w: World) returns (run': seq<Action>, w': World)
    requires Reaches(Free, run, w) && Holds(w.tb, "a", 0) && 1 in w.threads
    requires w.threads[1] == Ending(0, 0, ByDelete("a"), Publishing(Record(0, Some(0))))
    ensures Reaches(Free, run', w') && w'.tb == Drop(w.tb, "a") && w'.stopped == w.stopped
    ensures 1 in w'.threads && w'.threads == w.threads[1 := w'.threads[1]]
  {
    var rec := Record(0, Some(0));
    run' := Publishes(Free, run, w, 1, 0, 0, rec, ByDelete("a"));
    var w1 := Published(w, 1, 0, rec, ByDelete("a"));
    run' := Removes(Free, run', w1, 1, "a", 0);
    w' := Removed(w1, 1, "a", 0);
  }

  lemma LateDelete(run: seq<Action>, w: World) returns (run': seq<Action>)
    requires Reaches(Free, run, w) && 2 in w.threads && w.threads[2] == Ending(0, 0, ByDelete("a"), Stopping)
    requires Holds(w.tb, "a", 1) && |w.tb.objs| == 2 && |w.stopped| == 2 && !w.stopped[1]
    requires w.tb.objs[0].kind.Task? && w.tb.objs[0].kind.inst == 0 && IsStopped(w.tb, 0)
    requires w.tb.objs[1] == Obj(Task("a", "", 1, map[]), NEW)
    ensures CanRun(INIT, run')
    ensures var w' := RunTo(INIT, run');
      && 1 in w'.removed && IsTask(w'.tb, 1) && !IsStopped(w'.tb, 1)
      && w'.tb.objs[1].kind.inst == 1 && |w'.stopped| == 2 && !w'.stopped[1]
  {
    run' := Marks(Free, run, w, 2, 0, 0, ByDelete("a"));
    var w1 := Marked(w, 2, 0, 0, ByDelete("a"));
    run' := Removes(Free, run', w1, 2, "a", 0);
    var w2 := Removed(w1, 2, "a", 0);
    assert w2.removed[|w2.removed| - 1] == 1;
  }

  // ---- State during a Delete ----

  // While a Delete is tearing its task down, State still finds it CREATED.
  lemma DeleteNotYetStopped() returns (run: seq<Action>)
    ensures CanRun(INIT, run)
    ensures var w := RunTo(INIT, run);
      && 1 in w.threads && w.threads[1] == Ending(0, 0, ByDelete("a"), Stopping)
      && 2 in w.threads && w.threads[2] == Done(StateIs(0, CREATED, UNSET))
  {
    run := Begins(Free);
    run := Inserts(Free, run, INIT, 0, "a");
    run := LooksUp(Free, run, First("a"), 1, Delete("a"));
    var w := LookedUp(First("a"), 1, Delete("a"));
    run := Calls(Free, run, w, 2, Calling(State(OnTask("a"))));
    var w1 := Goto(w, 2, Calling(State(OnTask("a"))));
    var w2 := Goto(w1, 2, Done(StateIs(0, CREATED, UNSET)));
    run := Steps(Free, run, w1, 2, ANY, w2);
  }

  // ---- an exec reaped before it was started ----

  const REQUEST := ExecRequest("a", "x", true, true, false, false, ["sh"], "", "", "")

  // A Wait on an exec that is then deleted, never started, blocks for ever: the exec is
  // stranded, and by WaitersCanWake nothing can stop it.
  lemma StrandedWaiter() returns (run: seq<Action>, t: Tid, e: Ref)
    ensures CanRun(INIT, run)
    ensures var w := RunTo(INIT, run);
      && t in w.threads && w.threads[t].Waiting? && w.threads[t].wp.Blocked? && w.threads[t].wp.o == e
      && Stranded(w.tb, e) && !CanStop(w, e)
  {
    run := Begins(Free);
    run := Inserts(Free, run, INIT, 0, "a");
    var w;
    run, w := Registers(run);
    run, w := WaitsAndReaps(run, w);
    t, e := 3, 1;
    WaitersCanWake(run, e);
  }

  lemma Registers(run: seq<Action>) returns (run': seq<Action>, w': World)
    requires Reaches(Free, run, First("a"))
    ensures Reaches(Free, run', w') && 3 !in w'.threads && 4 !in w'.threads
    ensures Holds(w'.tb, "a", 0) && |w'.tb.objs| == 2
    ensures w'.tb.objs[0].kind == Task("a", "", 0, map["x" := 1])
    ensures w'.tb.objs[1] == Obj(Exec("a", "x", 0, ["sh"], "", ""), NEW)
  {
    var w;
    run', w := Starts(run);
    run' := Calls(Free, run', w, 2, Calling(Register(REQUEST)));
    var w1 := Goto(w, 2, Calling(Register(REQUEST)));
    w' := Goto(w1.(tb := AddExec(w1.tb, 0, "x", ["sh"], "", "")), 2, Done(Fine));
    run' := Steps(Free, run', w1, 2, ANY, w');
  }

  lemma Starts(run: seq<Action>) returns (run': seq<Action>, w': World)
    requires Reaches(Free, run, First("a"))
    ensures Reaches(Free, run', w') && forall t :: t in w'.threads ==> t < 2
    ensures Holds(w'.tb, "a", 0) && |w'.tb.objs| == 1
    ensures w'.tb.objs[0] == Obj(Task("a", "", 0, map[]), Life(RUNNING, UNSET, []))
  {
    var w := First("a");
    run' := Calls(Free, run, w, 1, Calling(Start("a")));
    var w1 := Goto(w, 1, Calling(Start("a")));
    w' := Goto(Publish(w1.(tb := SetRunning(w1.tb, 0)), Started("a", 0)), 1, Done(Fine));
    run' := Steps(Free, run', w1, 1, ANY, w');
  }

  lemma WaitsAndReaps(run: seq<Action>, w: World) returns (run': seq<Action>, w': World)
    requires Reaches(Free, run, w) && 3 !in w.threads && 4 !in w.threads
    requires Holds(w.tb, "a", 0) && |w.tb.objs| == 2
    requires w.tb.objs[0].kind == Task("a", "", 0, map["x" := 1])
    requires w.tb.objs[1] == Obj(Exec("a", "x", 0, ["sh"], "", ""), NEW)
    ensures Reaches(Free, run', w') && 3 in w'.threads && w'.threads[3] == Waiting(Blocked(1, w.tb.chans))
    ensures Stranded(w'.tb, 1)
  {
    run', w' := WaitsOnExec(run, w);
    run', w' := Reaps(run', w');
  }

  lemma WaitsOnExec(run: seq<Action>, w: World) returns (run': seq<Action>, w': World)
    requires Reaches(Free, run, w) && 3 !in w.threads
    requires Holds(w.tb, "a", 0) && |w.tb.objs| == 2
    requires w.tb.objs[0].kind == Task("a", "", 0, map["x" := 1])
    requires w.tb.objs[1] == Obj(Exec("a", "x", 0, ["sh"], "", ""), NEW)
    ensures Reaches(Free, run', w') && w'.threads == w.threads[3 := Waiting(Blocked(1, w.tb.chans))]
    ensures w'.tb == Enlist(w.tb, 1)
  {
    var th := Waiting(Entering(OnExec("a", "x")));
    run' := Calls(Free, run, w, 3, th);
    run', w' := Enters(run', Goto(w, 3, th), 1);
  }

  lemma Enters(run: seq<Action>, w: World, e: Ref) returns (run': seq<Action>, w': World)
    requires Reaches(Free, run, w) && 3 in w.threads && w.threads[3].Waiting? && w.threads[3].wp.Entering?
    requires Resolve(w.tb, w.threads[3].wp.target) == Some(e) && e < |w.tb.objs| && !IsStopped(w.tb, e)
    ensures Reaches(Free, run', w') && w'.threads == w.threads[3 := Waiting(Blocked(e, w.tb.chans))]
    ensures w'.tb == Enlist(w.tb, e)
  {
    w' := Goto(w.(tb := Enlist(w.tb, e)), 3, Waiting(Blocked(e, w.tb.chans)));
    run' := Steps(Free, run, w, 3, ANY, w');
  }

  lemma Reaps(run: seq<Action>, w: World) returns (run': seq<Action>, w': World)
    requires Reaches(Free, run, w) && 4 !in w.threads
    requires Holds(w.tb, "a", 0) && |w.tb.objs| == 2
    requires w.tb.objs[0].kind == Task("a", "", 0, map["x" := 1])
    requires w.tb.objs[1].kind == Exec("a", "x", 0, ["sh"], "", "") && w.tb.objs[1].life.status == CREATED
    requires w.tb.objs[1].life.rec == UNSET
    ensures Reaches(Free, run', w') && w'.threads == w.threads[4 := Done(ReapedExec(1, CREATED, UNSET))]
    ensures Stranded(w'.tb, 1)
  {
    run' := Calls(Free, run, w, 4, Calling(DeleteExec("a", "x")));
    var w1 := Goto(w, 4, Calling(DeleteExec("a", "x")));
    assert Resolve(w1.tb, OnExec("a", "x")) == Some(1);
    w' := Goto(w1.(tb := DropExec(w1.tb, 0, "x")), 4, Done(ReapedExec(1, CREATED, UNSET)));
    run' := Steps(Free, run', w1, 4, ANY, w');
  }
}
