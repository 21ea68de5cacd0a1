// Stretches of concrete runs of the task service, from which ShimWitnesses.dfy builds
// its examples, and a record of which RPCs overlapped in them.
module ShimRuns {
  import opened Common
  import opened Shim
  import opened ShimFacts
  import opened ShimWaiters
  import opened ShimExecTheorems
  import opened ShimEvents

  lemma {:induction false} Append(w: World, run: seq<Action>, a: Action)
    requires CanRun(w, run) && Can(RunTo(w, run), a)
    ensures CanRun(w, run + [a]) && RunTo(w, run + [a]) == Do(RunTo(w, run), a)
    decreases |run|
  {
    if run == [] {
      assert run + [a] == [a];
      assert CanRun(Do(w, a), []);
    } else {
      Append(Do(w, run[0]), run[1..], a);
      assert (run + [a])[1..] == run[1..] + [a];
    }
  }

  lemma {:induction false} OverlapAppend(w: World, run: seq<Action>, act: Action, id: Id, a: Role, b: Role)
    requires CanRun(w, run) && OnlyOverlapThroughout(w, run, id, a, b) && Can(RunTo(w, run), act)
    requires OnlyOverlap(Do(RunTo(w, run), act), id, a, b)
    ensures CanRun(w, run + [act]) && OnlyOverlapThroughout(w, run + [act], id, a, b)
    decreases |run|
  {
    Append(w, run, act);
    if run == [] {
      assert run + [act] == [act];
    } else {
      OverlapAppend(Do(w, run[0]), run[1..], act, id, a, b);
      assert (run + [act])[1..] == run[1..] + [act];
    }
  }

  // Who may do what: anyone anything, or, of the threads that have not answered, x and y
  // alone, playing a and b (one thread alone plays any role).
  datatype Watch = Free | Watched(id: Id, a: Role, b: Role, x: Tid, y: Tid)

  function RoleOf(th: Thread): Option<Role> {
    match th
    case Creating(_, _, _) => Some(Creator)
    case Calling(rpc) =>
      (match rpc
       case Start(_) => Some(Starter)
       case Kill(_, _) => Some(Killer)
       case Delete(_) => Some(Deleter)
       case _ => None)
    case Ending(_, _, who, _) => if who.ByKill? then Some(Killer) else if who.ByDelete? then Some(Deleter) else None
    case Removing(_, _) => Some(Deleter)
    case Reporting(_, _, _) => Some(Deleter)
    case _ => None
  }

  predicate MayPlay(k: Watch, t: Tid, r: Role) {
    k.Free? || (t == k.x && (k.x == k.y || r == k.a)) || (t == k.y && k.x != k.y && r == k.b)
  }

  predicate Plays(k: Watch, t: Tid, th: Thread) {
    k.Free? || th.Done? || (RoleOf(th).Some? && MayPlay(k, t, RoleOf(th).value))
  }

  ghost predicate Staged(k: Watch, threads: map<Tid, Thread>) {
    forall t :: t in threads ==> Plays(k, t, threads[t])
  }

  lemma StagedOverlap(k: Watch, w: World)
    requires Staged(k, w.threads) && k.Watched?
    ensures OnlyOverlap(w, k.id, k.a, k.b)
  {
    forall t | t in w.threads && InFlight(w.tb, w.threads[t], k.id)
      ensures RoleOf(w.threads[t]) == RoleIn(w.tb, w.threads[t], k.id) && MayPlay(k, t, RoleOf(w.threads[t]).value)
    {
    }
  }

  // A run from the start reaches w, and RPCs overlapped only as k says.
  ghost predicate Reaches(k: Watch, run: seq<Action>, w: World) {
    && CanRun(INIT, run) && RunTo(INIT, run) == w && Staged(k, w.threads)
    && (k.Watched? ==> OnlyOverlapThroughout(INIT, run, k.id, k.a, k.b))
  }

  lemma ReachesSound(k: Watch, run: seq<Action>, w: World)
    requires Reaches(k, run, w)
    ensures Sound(w) && WF(w)
  {
    InitSound();
    RunKeepsSound(INIT, run);
    FactsGiveWF(w);
  }

  lemma Begins(k: Watch) returns (run: seq<Action>)
    ensures Reaches(k, run, INIT)
  {
    run := [];
  }

  lemma Follows(k: Watch, run: seq<Action>, w: World, act: Action, t: Tid, w': World) returns (run': seq<Action>)
    requires Reaches(k, run, w) && Can(w, act) && Do(w, act) == w'
    requires t in w'.threads && w'.threads == w.threads[t := w'.threads[t]] && Plays(k, t, w'.threads[t])
    ensures Reaches(k, run', w')
  {
    Append(INIT, run, act);
    if k.Watched? {
      StagedOverlap(k, w');
      OverlapAppend(INIT, run, act, k.id, k.a, k.b);
    }
    run' := run + [act];
  }

  lemma Calls(k: Watch, run: seq<Action>, w: World, t: Tid, th: Thread) returns (run': seq<Action>)
    requires Reaches(k, run, w) && t !in w.threads && IsCall(th) && Plays(k, t, th)
    ensures Reaches(k, run', Goto(w, t, th))
  {
    ReachesSound(k, run, w);
    run' := Follows(k, run, w, Call(t, th), t, Goto(w, t, th));
  }

  lemma Steps(k: Watch, run: seq<Action>, w: World, t: Tid, c: Choice, w': World) returns (run': seq<Action>)
    requires Reaches(k, run, w) && CanStep(w, t, c) && (WF(w) ==> Advance(w, t, c) == w')
    requires t in w'.threads && w'.threads == w.threads[t := w'.threads[t]] && Plays(k, t, w'.threads[t])
    ensures Reaches(k, run', w')
  {
    ReachesSound(k, run, w);
    run' := Follows(k, run, w, Step(t, c), t, w');
  }

  // With every RPC answered, other threads take the stage.
  lemma Recast(k: Watch, run: seq<Action>, w: World, x: Tid, y: Tid)
    requires k.Watched? && Reaches(k, run, w) && forall t :: t in w.threads ==> w.threads[t].Done?
    ensures Reaches(k.(x := x, y := y), run, w)
  {
  }

  // ---- stretches of runs ----

  lemma Checks(k: Watch, run: seq<Action>, w: World, t: Tid, id: Id) returns (run': seq<Action>)
    requires Reaches(k, run, w) && t !in w.threads && id != "" && id !in w.tb.tasks && MayPlay(k, t, Creator)
    ensures Reaches(k, run', Goto(w, t, Creating(id, "", Building)))
  {
    run' := Calls(k, run, w, t, Creating(id, "", Checking));
    var w1 := Goto(w, t, Creating(id, "", Checking));
    var w2 := Goto(w1, t, Creating(id, "", Building));
    run' := Steps(k, run', w1, t, ANY, w2);
    assert w2.threads == w.threads[t := Creating(id, "", Building)];
  }

  lemma Builds(k: Watch, run: seq<Action>, w: World, t: Tid, id: Id) returns (run': seq<Action>)
    requires Reaches(k, run, w) && t !in w.threads && id != "" && id !in w.tb.tasks && MayPlay(k, t, Creator)
    ensures Reaches(k, run', Goto(w.(stopped := w.stopped + [false]), t, Creating(id, "", Inserting(|w.stopped|))))
  {
    run' := Checks(k, run, w, t, id);
    var w2 := Goto(w, t, Creating(id, "", Building));
    var w3 := Goto(w2.(stopped := w2.stopped + [false]), t, Creating(id, "", Inserting(|w2.stopped|)));
    assert w3.threads == w.threads[t := Creating(id, "", Inserting(|w.stopped|))];
    run' := Steps(k, run', w2, t, ANY, w3);
  }

  // Thread t creates task id, and has yet to publish it.
  function Inserted(w: World, t: Tid, id: Id): World {
    Goto(w.(stopped := w.stopped + [false], tb := Insert(w.tb, id, "", |w.stopped|)), t,
         Creating(id, "", Announcing(|w.tb.objs|)))
  }

  lemma Inserts(k: Watch, run: seq<Action>, w: World, t: Tid, id: Id) returns (run': seq<Action>)
    requires Reaches(k, run, w) && t !in w.threads && id != "" && id !in w.tb.tasks && MayPlay(k, t, Creator)
    ensures Reaches(k, run', Inserted(w, t, id))
  {
    run' := Builds(k, run, w, t, id);
    var w3 := Goto(w.(stopped := w.stopped + [false]), t, Creating(id, "", Inserting(|w.stopped|)));
    var w4 := Inserted(w, t, id);
    assert w3.threads[t := w4.threads[t]] == w4.threads;
    run' := Steps(k, run', w3, t, ANY, w4);
  }

  // The very first Create, published or not.
  function First(id: Id): World { Inserted(INIT, 0, id) }

  function Announced0(id: Id): World { Goto(Publish(First(id), Created(id, 0)), 0, Done(Fine)) }

  lemma Announces(k: Watch, run: seq<Action>, id: Id) returns (run': seq<Action>)
    requires Reaches(k, run, First(id))
    ensures Reaches(k, run', Announced0(id))
  {
    assert ThreadWF(First(id).tb, |First(id).stopped|, First(id).threads[0]);
    run' := Steps(k, run, First(id), 0, ANY, Announced0(id));
  }

  function LookedUp(w: World, t: Tid, rpc: Rpc): World
    requires (rpc.Kill? || rpc.Delete?) && rpc.id in w.tb.tasks
  {
    Goto(w, t, if rpc.Kill? then Ending(w.tb.tasks[rpc.id], KillCode(rpc.signal), ByKill, Stopping)
               else Ending(w.tb.tasks[rpc.id], 0, ByDelete(rpc.id), Stopping))
  }

  // Thread t, a Kill or a Delete of task id, has looked the task up.
  lemma LooksUp(k: Watch, run: seq<Action>, w: World, t: Tid, rpc: Rpc) returns (run': seq<Action>)
    requires Reaches(k, run, w) && t !in w.threads && (rpc.Kill? || rpc.Delete?) && rpc.id in w.tb.tasks
    requires MayPlay(k, t, if rpc.Kill? then Killer else Deleter)
    ensures Reaches(k, run', LookedUp(w, t, rpc))
  {
    run' := Calls(k, run, w, t, Calling(rpc));
    var w1 := Goto(w, t, Calling(rpc));
    var w2 := LookedUp(w, t, rpc);
    assert w2.threads == w1.threads[t := w2.threads[t]];
    run' := Steps(k, run', w1, t, ANY, w2);
  }

  // Thread t stops o's sandbox and marks the exit, if it is the first.
  function Marked(w: World, t: Tid, o: Ref, code: nat, who: Who): World
    requires IsTask(w.tb, o) && w.tb.objs[o].kind.inst < |w.stopped|
  {
    var w1 := w.(stopped := w.stopped[w.tb.objs[o].kind.inst := true]);
    if IsStopped(w.tb, o) then Goto(w1, t, AfterEnd(o, who))
    else Goto(w1.(tb := Exit(w.tb, o, code, 0)), t, Ending(o, code, who, Publishing(Record(code, Some(0)))))
  }

  lemma Marks(k: Watch, run: seq<Action>, w: World, t: Tid, o: Ref, code: nat, who: Who) returns (run': seq<Action>)
    requires Reaches(k, run, w) && t in w.threads && w.threads[t] == Ending(o, code, who, Stopping)
    ensures IsTask(w.tb, o) && w.tb.objs[o].kind.inst < |w.stopped| && Reaches(k, run', Marked(w, t, o, code, who))
  {
    assert ThreadOK(w.tb, w.stopped, w.threads[t]) by { ReachesSound(k, run, w); }
    var w1 := Goto(w.(stopped := w.stopped[w.tb.objs[o].kind.inst := true]), t, Ending(o, code, who, Marking));
    assert Plays(k, t, w.threads[t]);
    run' := Steps(k, run, w, t, ANY, w1);
    var w2 := Marked(w, t, o, code, who);
    assert w2.threads == w1.threads[t := w2.threads[t]];
    run' := Steps(k, run', w1, t, ANY, w2);
  }

  // And publishes it.
  function Published(w: World, t: Tid, o: Ref, rec: Record, who: Who): World
    requires IsTask(w.tb, o)
  {
    Goto(Publish(w, Exited(w.tb.objs[o].kind.id, w.tb.objs[o].kind.id, o, rec)), t, AfterEnd(o, who))
  }

  lemma Publishes(k: Watch, run: seq<Action>, w: World, t: Tid, o: Ref, code: nat, rec: Record, who: Who)
    returns (run': seq<Action>)
    requires Reaches(k, run, w) && t in w.threads && w.threads[t] == Ending(o, code, who, Publishing(rec))
    requires !who.ByExec?
    ensures IsTask(w.tb, o) && Reaches(k, run', Published(w, t, o, rec, who))
  {
    assert ThreadOK(w.tb, w.stopped, w.threads[t]) by { ReachesSound(k, run, w); }
    assert Plays(k, t, w.threads[t]);
    run' := Steps(k, run, w, t, ANY, Published(w, t, o, rec, who));
  }

  // Thread t removes what the table holds under id.
  function Removed(w: World, t: Tid, id: Id, o: Ref): World
    requires o < |w.tb.objs|
  {
    Goto(w.(tb := Drop(w.tb, id), removed := if id in w.tb.tasks then w.removed + [w.tb.tasks[id]] else w.removed),
         t, Reporting(id, o, w.tb.objs[o].life.rec))
  }

  lemma Removes(k: Watch, run: seq<Action>, w: World, t: Tid, id: Id, o: Ref) returns (run': seq<Action>)
    requires Reaches(k, run, w) && t in w.threads && w.threads[t] == Removing(id, o)
    ensures o < |w.tb.objs| && Reaches(k, run', Removed(w, t, id, o))
  {
    assert ThreadOK(w.tb, w.stopped, w.threads[t]) by { ReachesSound(k, run, w); }
    assert Plays(k, t, w.threads[t]);
    run' := Steps(k, run, w, t, ANY, Removed(w, t, id, o));
  }

  lemma Reports(k: Watch, run: seq<Action>, w: World, t: Tid, id: Id, o: Ref, rec: Record) returns (run': seq<Action>)
    requires Reaches(k, run, w) && t in w.threads && w.threads[t] == Reporting(id, o, rec)
    ensures Reaches(k, run', Goto(Publish(w, Deleted(id, o, rec)), t, Done(DeletedTask(o, rec))))
  {
    assert ThreadOK(w.tb, w.stopped, w.threads[t]) by { ReachesSound(k, run, w); }
    run' := Steps(k, run, w, t, ANY, Goto(Publish(w, Deleted(id, o, rec)), t, Done(DeletedTask(o, rec))));
  }
}
