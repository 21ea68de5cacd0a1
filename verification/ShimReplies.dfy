// What a request gets by its first look into the table: exactly when it is refused, and
// what it is told or given otherwise; and what is said of an exec's command and of names.
module ShimReplies {
  import opened Common
  import opened Shim
  import opened ShimFacts
  import opened ShimWaiters
  import opened ShimExecs
  import opened ShimExecTheorems
  import opened ShimCalls

  // ---- refusals ----

  // The object an entry of the table stands for.
  predicate Present(tb: Table, target: Target, o: Ref) {
    && target.task in tb.tasks
    && match target
       case OnTask(id) => o == tb.tasks[id]
       case OnExec(id, exec) =>
         && IsTask(tb, tb.tasks[id])
         && var execs := tb.objs[tb.tasks[id]].kind.execs; exec in execs && execs[exec] == o
  }

  ghost predicate Missing(tb: Table, target: Target) { forall o: Ref :: !Present(tb, target, o) }

  // The object is there, and its status is one of these.
  ghost predicate Is(tb: Table, target: Target, statuses: set<Status>) {
    exists o: Ref :: Present(tb, target, o) && o < |tb.objs| && tb.objs[o].life.status in statuses
  }

  // Why a request that has just come in is refused, if it is.
  ghost predicate Refused(tb: Table, call: Thread, e: Error) {
    match call
    case Creating(id, _, _) =>
      if id == "" then e == InvalidArgument else e == AlreadyExists && !Missing(tb, OnTask(id))
    case Waiting(wp) => wp.Entering? && e == NotFound && Missing(tb, wp.target)
    case Calling(rpc) =>
      (match rpc
       case Start(id) =>
         || (e == NotFound && Missing(tb, OnTask(id)))
         || (e == FailedPrecondition && Is(tb, OnTask(id), {RUNNING, STOPPED}))
       case State(target) => e == NotFound && Missing(tb, target)
       case Kill(id, _) => e == NotFound && Missing(tb, OnTask(id))
       case Delete(id) => e == NotFound && Missing(tb, OnTask(id))
       case StartExec(id, exec) =>
         || (e == NotFound && Missing(tb, OnExec(id, exec)))
         || (e == FailedPrecondition && Is(tb, OnExec(id, exec), {RUNNING, STOPPED}))
       case DeleteExec(id, exec) =>
         || (e == NotFound && Missing(tb, OnExec(id, exec)))
         || (e == FailedPrecondition && Is(tb, OnExec(id, exec), {RUNNING}))
       case KillExec(id, exec) => e == if Missing(tb, OnExec(id, exec)) then NotFound else Unimplemented
       case Register(_) => false)
    case _ => false
  }

  lemma ResolveFinds(tb: Table, target: Target)
    ensures Resolve(tb, target) == None ==> Missing(tb, target)
    ensures Resolve(tb, target).Some? ==>
      Present(tb, target, Resolve(tb, target).value) && !Missing(tb, target)
    ensures forall o: Ref :: Present(tb, target, o) ==> Resolve(tb, target) == Some(o)
  {
    if Resolve(tb, target).Some? {
      assert Present(tb, target, Resolve(tb, target).value);
    }
  }

  // The first look: a request is turned away at once exactly when what it names is not
  // there, or not in the state it needs, and with the error that says which.
  lemma RefusalsExact(run: seq<Action>, t: Tid, c: Choice, e: Error)
    requires CanRun(INIT, run)
    requires var w := RunTo(INIT, run);
      && Can(w, Step(t, c)) && IsCall(w.threads[t])
      && !(w.threads[t].Calling? && w.threads[t].rpc.Register?)
    ensures var w := RunTo(INIT, run);
      var w' := Do(w, Step(t, c));
      t in w'.threads && (w'.threads[t] == Done(Failed(e)) <==> Refused(w.tb, w.threads[t], e))
  {
    var w := RunTo(INIT, run);
    match w.threads[t] {
      case Calling(rpc) => CallRefused(w, t, rpc, c, e);
      case Waiting(wp) => ResolveFinds(w.tb, wp.target);
      case Creating(id, _, _) => ResolveFinds(w.tb, OnTask(id));
      case _ =>
    }
  }

  function TargetOf(rpc: Rpc): Target {
    match rpc
    case Start(id) => OnTask(id)
    case State(target) => target
    case Kill(id, _) => OnTask(id)
    case Delete(id) => OnTask(id)
    case Register(r) => OnTask(r.task)
    case StartExec(id, exec) => OnExec(id, exec)
    case DeleteExec(id, exec) => OnExec(id, exec)
    case KillExec(id, exec) => OnExec(id, exec)
  }

  lemma CallRefused(w: World, t: Tid, rpc: Rpc, c: Choice, e: Error)
    requires WF(w) && !rpc.Register?
    ensures var w' := CallStep(w, t, rpc, c);
      t in w'.threads && (w'.threads[t] == Done(Failed(e)) <==> Refused(w.tb, Calling(rpc), e))
  {
    var target := TargetOf(rpc);
    ResolveFinds(w.tb, target);
    CallThreads(w, t, rpc, c);
    if Resolve(w.tb, target).Some? {
      var o := Resolve(w.tb, target).value;
      ResolvesTo(w, target, o);
      IsExactly(w.tb, target, o, {RUNNING, STOPPED});
      IsExactly(w.tb, target, o, {RUNNING});
    }
  }

  // What a request that is not refused gets by its first look: Start and StartExec set the
  // object running, State and DeleteExec reply with what the object says, a Wait on a
  // stopped object has its record and any other a channel of its own on the object's
  // list, and Kill and Delete go on to stop the object's sandbox.
  ghost predicate Granted(tb: Table, tb': Table, call: Thread, th: Thread) {
    match call
    case Waiting(wp) =>
      && wp.Entering?
      && if Is(tb, wp.target, {STOPPED}) then
           && th.Done? && th.reply.Waited?
           && Present(tb, wp.target, th.reply.o) && RecordOf(tb, th.reply.o, th.reply.rec)
         else
           && th.Waiting? && th.wp.Blocked? && Present(tb, wp.target, th.wp.o) && th.wp.ch == tb.chans < tb'.chans
           && th.wp.o < |tb'.objs| && th.wp.ch in tb'.objs[th.wp.o].life.waiters
    case Calling(rpc) =>
      (match rpc
       case Start(id) => th == Done(Fine) && Is(tb, OnTask(id), {CREATED}) && Is(tb', OnTask(id), {RUNNING})
       case State(target) =>
         th.Done? && th.reply.StateIs? && Says(tb, target, th.reply.o, th.reply.status, th.reply.rec)
       case Kill(id, _) => th.Ending? && th.ep.Stopping? && Present(tb, OnTask(id), th.o)
       case Delete(id) => th.Ending? && th.ep.Stopping? && Present(tb, OnTask(id), th.o)
       case StartExec(id, exec) =>
         th == Done(Fine) && Is(tb, OnExec(id, exec), {CREATED}) && Is(tb', OnExec(id, exec), {RUNNING})
       case DeleteExec(id, exec) =>
         && th.Done? && th.reply.ReapedExec? && Says(tb, OnExec(id, exec), th.reply.e, th.reply.status, th.reply.rec)
         && th.reply.status != RUNNING && Missing(tb', OnExec(id, exec))
       case _ => false)
    case _ => false
  }

  // That object is there, with this status and record.
  ghost predicate Says(tb: Table, target: Target, o: Ref, status: Status, rec: Record) {
    Present(tb, target, o) && o < |tb.objs| && tb.objs[o].life.status == status && tb.objs[o].life.rec == rec
  }

  lemma FirstLook(run: seq<Action>, t: Tid, c: Choice)
    requires CanRun(INIT, run)
    requires var w := RunTo(INIT, run);
      && Can(w, Step(t, c)) && IsCall(w.threads[t]) && !w.threads[t].Creating?
      && !(w.threads[t].Calling? && (w.threads[t].rpc.Register? || w.threads[t].rpc.KillExec?))
    ensures var w := RunTo(INIT, run);
      var w' := Do(w, Step(t, c));
      && t in w'.threads
      && (Granted(w.tb, w'.tb, w.threads[t], w'.threads[t]) || exists e :: w'.threads[t] == Done(Failed(e)))
  {
    RunKeepsAll(run);
    var w := RunTo(INIT, run);
    match w.threads[t] {
      case Calling(rpc) => CallGranted(w, t, rpc, c);
      case Waiting(wp) => WaitGranted(w, t, wp.target, c);
    }
  }

  lemma CallGranted(w: World, t: Tid, rpc: Rpc, c: Choice)
    requires WF(w) && ExecsNamed(w.tb) && !rpc.Register? && !rpc.KillExec?
    ensures var w' := CallStep(w, t, rpc, c);
      && t in w'.threads
      && (Granted(w.tb, w'.tb, Calling(rpc), w'.threads[t]) || exists e :: w'.threads[t] == Done(Failed(e)))
  {
    var w', target := CallStep(w, t, rpc, c), TargetOf(rpc);
    ResolveFinds(w.tb, target);
    ResolveFinds(w'.tb, target);
    CallThreads(w, t, rpc, c);
    if Resolve(w.tb, target).Some? {
      var o := Resolve(w.tb, target).value;
      ResolvesTo(w, target, o);
      IsExactly(w.tb, target, o, {CREATED});
      if Resolve(w'.tb, target) == Some(o) { IsExactly(w'.tb, target, o, {RUNNING}); }
    }
  }

  lemma WaitGranted(w: World, t: Tid, target: Target, c: Choice)
    requires WF(w) && Sound(w)
    ensures var w' := WaitStep(w, t, Entering(target), c);
      && t in w'.threads
      && (|| Granted(w.tb, w'.tb, Waiting(Entering(target)), w'.threads[t])
          || exists e :: w'.threads[t] == Done(Failed(e)))
  {
    ResolveFinds(w.tb, target);
    if Resolve(w.tb, target).Some? {
      var o := Resolve(w.tb, target).value;
      ResolvesTo(w, target, o);
      IsExactly(w.tb, target, o, {STOPPED});
      assert ObjOK(w.tb, w.stopped, w.tb.objs[o]);
    }
  }

  // A waiter that was woken replies with the record of the object it waited for; only one
  // whose own context ended is told that it was cancelled.
  lemma WokenGetsRecord(run: seq<Action>, t: Tid, c: Choice)
    requires CanRun(INIT, run)
    requires var w := RunTo(INIT, run); Can(w, Step(t, c)) && w.threads[t].Waiting? && !w.threads[t].wp.Entering?
    ensures var w := RunTo(INIT, run);
      var w' := Do(w, Step(t, c));
      && t in w'.threads
      && match w.threads[t].wp
         case Blocked(o, _) => w'.threads[t] == if c.ok then Waiting(Waking(o)) else Done(Failed(Cancelled))
         case Waking(o) => var th := w'.threads[t];
           th.Done? && th.reply.Waited? && th.reply.o == o && RecordOf(w.tb, o, th.reply.rec)
         case _ => false
  {
    RunKeepsAll(run);
    var w := RunTo(INIT, run);
    assert ThreadOK(w.tb, w.stopped, w.threads[t]);
    var o := w.threads[t].wp.o;
    assert ObjOK(w.tb, w.stopped, w.tb.objs[o]);
  }

  lemma IsExactly(tb: Table, target: Target, o: Ref, statuses: set<Status>)
    requires Present(tb, target, o) && o < |tb.objs|
    ensures Is(tb, target, statuses) <==> tb.objs[o].life.status in statuses
  {
  }

  // ---- names ----

  // A task has an ID; an exec has one too, and a command, and names its task.
  ghost predicate WellNamed(tb: Table, k: Kind) {
    match k
    case Task(id, _, _, _) => id != ""
    case Exec(task, id, owner, args, _, _) =>
      id != "" && |args| > 0 && IsTask(tb, owner) && task == tb.objs[owner].kind.id
  }

  ghost predicate AllNamed(w: World) {
    && (forall o {:trigger w.tb.objs[o]} :: 0 <= o < |w.tb.objs| ==> WellNamed(w.tb, w.tb.objs[o].kind))
    && (forall t :: t in w.threads && w.threads[t].Creating? && w.threads[t].cp != Checking ==> w.threads[t].id != "")
  }

  // What a registration does, if it is accepted: one object more.
  lemma Registers(w: World, t: Tid, r: ExecRequest, c: Choice)
    requires WF(w)
    ensures var w' := CallStep(w, t, Register(r), c);
      w'.tb == w.tb || (Acceptable(r) && r.task in w.tb.tasks &&
        w'.tb == AddExec(w.tb, w.tb.tasks[r.task], r.exec, r.args, r.stdout, r.stderr))
  {
  }

  lemma NewObjectNamed(w: World, a: Action, o: Ref)
    requires Can(w, a) && AllNamed(w) && |w.tb.objs| <= o < |Do(w, a).tb.objs|
    ensures WellNamed(Do(w, a).tb, Do(w, a).tb.objs[o].kind)
  {
    if a.Step? && w.threads[a.t].Calling? {
      var rpc := w.threads[a.t].rpc;
      CallTable(w, a.t, rpc, a.c);
      if rpc.Register? { Registers(w, a.t, rpc.r, a.c); }
    }
  }

  lemma StepKeepsNamed(w: World, a: Action)
    requires Can(w, a) && Sound(w) && AllNamed(w)
    ensures AllNamed(Do(w, a))
  {
    CreatorsNamed(w, a);
    ObjectsNamed(w, a);
  }

  lemma ObjectsNamed(w: World, a: Action)
    requires Can(w, a) && Sound(w) && AllNamed(w)
    ensures var tb' := Do(w, a).tb;
      forall o {:trigger tb'.objs[o]} :: 0 <= o < |tb'.objs| ==> WellNamed(tb', tb'.objs[o].kind)
  {
    var tb' := Do(w, a).tb;
    assert Evolves(w.tb, tb') by { DoKeepsSound(w, a); }
    forall o {:trigger tb'.objs[o]} | 0 <= o < |tb'.objs| ensures WellNamed(tb', tb'.objs[o].kind) {
      if o < |w.tb.objs| {
        OldObjectNamed(w.tb, tb', o);
      } else {
        NewObjectNamed(w, a, o);
      }
    }
  }

  lemma CreatorsNamed(w: World, a: Action)
    requires Can(w, a) && AllNamed(w)
    ensures var ths := Do(w, a).threads;
      forall t :: t in ths && ths[t].Creating? && ths[t].cp != Checking ==> ths[t].id != ""
  {
    if a.Step? && w.threads[a.t].Calling? { CallThreads(w, a.t, w.threads[a.t].rpc, a.c); }
  }

  lemma OldObjectNamed(tb: Table, tb': Table, o: Ref)
    requires Evolves(tb, tb') && o < |tb.objs| && WellNamed(tb, tb.objs[o].kind)
    ensures WellNamed(tb', tb'.objs[o].kind)
  {
    assert KindEvolves(tb.objs[o].kind, tb'.objs[o].kind);
    if tb.objs[o].kind.Exec? {
      var p := tb.objs[o].kind.owner;
      assert KindEvolves(tb.objs[p].kind, tb'.objs[p].kind);
    }
  }

  lemma {:induction false} RunKeepsNamed(w: World, run: seq<Action>)
    requires CanRun(w, run) && Sound(w) && AllNamed(w)
    ensures AllNamed(RunTo(w, run))
    decreases |run|
  {
    if run != [] {
      StepKeepsNamed(w, run[0]);
      DoKeepsSound(w, run[0]);
      RunKeepsNamed(Do(w, run[0]), run[1..]);
    }
  }

  // Over every run no task has an empty ID, and no exec an empty ID or an empty command;
  // and an exit event gives the ID of the object it is about, and its container's.
  lemma NothingNameless(run: seq<Action>)
    requires CanRun(INIT, run)
    ensures var w := RunTo(INIT, run);
      && (forall o: Ref :: IsTask(w.tb, o) ==> w.tb.objs[o].kind.id != "")
      && (forall e: Ref :: IsExec(w.tb, e) ==> w.tb.objs[e].kind.id != "" && w.tb.objs[e].kind.args != [])
      && (forall ev :: ev in w.log && ev.Exited? && IsTask(w.tb, ev.o) ==>
            ev.container == w.tb.objs[ev.o].kind.id && ev.id == w.tb.objs[ev.o].kind.id)
      && (forall ev :: ev in w.log && ev.Exited? && IsExec(w.tb, ev.o) ==>
            && var owner := w.tb.objs[ev.o].kind.owner;
               IsTask(w.tb, owner) && ev.container == w.tb.objs[owner].kind.id && ev.id == w.tb.objs[ev.o].kind.id)
  {
    InitSound();
    RunKeepsSound(INIT, run);
    RunKeepsNamed(INIT, run);
    var w := RunTo(INIT, run);
    forall ev | ev in w.log && ev.Exited? ensures RecordOf(w.tb, ev.o, ev.rec) && ev == ExitEvent(w.tb, ev.o, ev.rec) {
      assert EventOK(w.tb, ev);
    }
  }

  // From w to w' thread t's exec request r was answered: refused for the first thing that
  // is wrong with it, and nothing changed, or accepted, and there is one object more.
  ghost predicate Answered(w: World, t: Tid, r: ExecRequest, w': World) {
    && t in w'.threads
    && (r.task in w.tb.tasks ==> IsTask(w.tb, w.tb.tasks[r.task]))
    && w'.threads[t] ==
       (if r.exec == "" || !r.hasSpec || !r.parses then Done(Failed(InvalidArgument))
        else if r.terminal || r.specTerminal then Done(Failed(Unimplemented))
        else if r.args == [] then Done(Failed(InvalidArgument))
        else if r.stdin != "" then Done(Failed(Unimplemented))
        else if r.task !in w.tb.tasks then Done(Failed(NotFound))
        else if w.tb.objs[w.tb.tasks[r.task]].life.status != RUNNING then Done(Failed(FailedPrecondition))
        else if r.exec in w.tb.objs[w.tb.tasks[r.task]].kind.execs then Done(Failed(AlreadyExists))
        else Done(Fine))
    && if w'.threads[t] != Done(Fine) then w'.tb == w.tb
       else
         var o, e := w.tb.tasks[r.task], |w.tb.objs|;
         && |w'.tb.objs| == e + 1 && w'.tb.tasks == w.tb.tasks
         && (forall p :: 0 <= p < e && p != o ==> w'.tb.objs[p] == w.tb.objs[p])
         && IsTask(w'.tb, o) && w'.tb.objs[o].life == w.tb.objs[o].life
         && w'.tb.objs[o].kind.execs == w.tb.objs[o].kind.execs[r.exec := e]
         && w'.tb.objs[e].life == Life(CREATED, Record(0, None), [])
         && w'.tb.objs[e].kind == Exec(r.task, r.exec, o, r.args, r.stdout, r.stderr)
  }

  lemma RegistersNow(w: World, t: Tid, c: Choice, r: ExecRequest)
    requires t in w.threads && w.threads[t] == Calling(Register(r)) && Can(w, Step(t, c))
    ensures Answered(w, t, r, Do(w, Step(t, c)))
  {
  }

  // An exec request is accepted if and only if it is well-formed, its task is known and
  // running, and its name is free; a refusal is for the first of these that fails, and
  // changes nothing. Accepted, it makes one CREATED exec, listed under its name, which
  // keeps what the request gave it in every later world.
  lemma RegistersExactly(run: seq<Action>, t: Tid, c: Choice, r: ExecRequest, more: seq<Action>)
    requires CanRun(INIT, run)
    requires var w := RunTo(INIT, run);
      && t in w.threads && w.threads[t] == Calling(Register(r)) && Can(w, Step(t, c))
      && CanRun(Do(w, Step(t, c)), more)
    ensures var w := RunTo(INIT, run);
      var w' := Do(w, Step(t, c));
      && Answered(w, t, r, w')
      && (w'.threads[t] == Done(Fine) ==>
            var e, w2 := |w.tb.objs|, RunTo(w', more);
            e < |w2.tb.objs| && w2.tb.objs[e].kind == w'.tb.objs[e].kind)
  {
    var w := RunTo(INIT, run);
    var w' := Do(w, Step(t, c));
    assert Evolves(w'.tb, RunTo(w', more).tb) by {
      RunKeepsAll(run);
      DoKeepsSound(w, Step(t, c));
      RunKeepsSound(w', more);
    }
    RegistersNow(w, t, c, r);
    if w'.threads[t] == Done(Fine) {
      assert KindEvolves(w'.tb.objs[|w.tb.objs|].kind, RunTo(w', more).tb.objs[|w.tb.objs|].kind);
    }
  }

  // ---- what an exec's record says ----

  // Code is a command's result as 32 bits hold it: its own exit code, the number it is
  // congruent to if it does not fit, and 255 if the command could not be run.
  predicate ResultCode(c: Choice, code: nat) {
    if !c.ok then code == 255
    else if 0 <= c.code < U32 then code == c.code
    else code < U32 && (c.code - code) % U32 == 0
  }

  // The goroutine is about to mark this code, or somebody has.
  ghost predicate ResultKept(w: World, t: Tid, e: Ref, c: Choice) {
    && IsExec(w.tb, e) && t in w.threads
    && if IsStopped(w.tb, e) then ResultCode(c, w.tb.objs[e].life.rec.code)
       else w.threads[t].Ending? && w.threads[t].o == e && w.threads[t].who == ByExec && w.threads[t].ep == Marking
            && ResultCode(c, w.threads[t].code)
  }

  lemma ReturnKeepsResult(w: World, t: Tid, c: Choice)
    requires ExecsOK(w) && Can(w, Step(t, c)) && w.threads[t].Guest? && w.threads[t].gp.InGuest?
    ensures ResultKept(Do(w, Step(t, c)), t, w.threads[t].e, c)
  {
    MarksRunning(w, t);
  }

  // Nobody but the exec's goroutine stops it.
  lemma OnlyItsGoroutine(w: World, a: Action, e: Ref, t: Tid)
    requires ExecsOK(w) && Can(w, a) && IsExec(w.tb, e) && !IsStopped(w.tb, e) && e in Runs(w.threads, t)
    requires a.Step? ==> a.t != t
    ensures IsExec(Do(w, a).tb, e) && !IsStopped(Do(w, a).tb, e)
  {
    StatusStep(w, a, e);
    if a.Step? {
      match w.threads[a.t] {
        case Calling(rpc) => CallStatus(w, a.t, rpc, a.c, e);
        case Ending(o, _, who, ep) =>
          if o == e && ep.Marking? {
            assert e in Goroutines(w.threads)(a.t) && e in Goroutines(w.threads)(t);
          }
        case _ =>
      }
    }
  }

  lemma StoppedStays(w: World, a: Action, e: Ref)
    requires Sound(w) && Can(w, a) && IsExec(w.tb, e) && IsStopped(w.tb, e)
    ensures var tb' := Do(w, a).tb; IsExec(tb', e) && IsStopped(tb', e) && tb'.objs[e].life.rec == w.tb.objs[e].life.rec
  {
    var w' := Do(w, a);
    assert Evolves(w.tb, w'.tb) by { DoKeepsSound(w, a); }
    assert KindEvolves(w.tb.objs[e].kind, w'.tb.objs[e].kind);
    assert LifeEvolves(w.tb.objs[e].life, w'.tb.objs[e].life, w'.tb.closes);
  }

  lemma StepKeepsResult(w: World, a: Action, t: Tid, e: Ref, c: Choice)
    requires Sound(w) && ExecsOK(w) && Can(w, a) && ResultKept(w, t, e, c)
    ensures ResultKept(Do(w, a), t, e, c)
  {
    if IsStopped(w.tb, e) {
      StoppedStays(w, a, e);
      if a.Step? && a.t == t { OwnThreadStays(w, t, a.c); } else { OtherThreads(w, a, t); }
    } else if !(a.Step? && a.t == t) {
      OtherThreads(w, a, t);
      OnlyItsGoroutine(w, a, e, t);
    }
  }

  lemma {:induction false} RunKeepsResult(w: World, run: seq<Action>, t: Tid, e: Ref, c: Choice)
    requires Sound(w) && ExecsOK(w) && CanRun(w, run) && ResultKept(w, t, e, c)
    ensures Sound(RunTo(w, run)) && ResultKept(RunTo(w, run), t, e, c)
    decreases |run|
  {
    if run != [] {
      StepKeepsResult(w, run[0], t, e, c);
      DoKeepsSound(w, run[0]);
      StepKeepsExecs(w, run[0]);
      RunKeepsResult(Do(w, run[0]), run[1..], t, e, c);
    }
  }

  // When a command returns, every reply and event about its exec's exit, however much
  // later, carries the command's own exit code, or 255 if it could not be run.
  lemma ExecReportsResult(run: seq<Action>, t: Tid, c: Choice, more: seq<Action>, rec: Record)
    requires CanRun(INIT, run)
    requires var w := RunTo(INIT, run);
      && Can(w, Step(t, c)) && w.threads[t].Guest? && w.threads[t].gp.InGuest?
      && CanRun(Do(w, Step(t, c)), more) && Reported(RunTo(Do(w, Step(t, c)), more), w.threads[t].e, rec)
    ensures c.ok && 0 <= c.code < 0x1_0000_0000 ==> rec.code == c.code
    ensures !c.ok ==> rec.code == 255
    ensures c.ok ==> rec.code < 0x1_0000_0000 && (c.code - rec.code) % 0x1_0000_0000 == 0
  {
    RunKeepsAll(run);
    var w := RunTo(INIT, run);
    var w1, e := Do(w, Step(t, c)), w.threads[t].e;
    ReturnKeepsResult(w, t, c);
    DoKeepsSound(w, Step(t, c));
    StepKeepsExecs(w, Step(t, c));
    RunKeepsResult(w1, more, t, e, c);
    ReportedIsRecord(RunTo(w1, more), e, rec);
  }
}
