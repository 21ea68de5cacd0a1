// What each request gets: over every run, the thread that serves a request works on what
// the request names, and its reply is about that. Stated of the worlds a run reaches,
// without the functions that make its steps.
module ShimCalls {
  import opened Common
  import opened Shim
  import opened ShimFacts
  import opened ShimWaiters
  import opened ShimExecs
  import opened ShimExecTheorems

  // Object o was made under the name the request gives.
  ghost predicate Named(tb: Table, target: Target, o: Ref) {
    o < |tb.objs| &&
    match target
    case OnTask(id) => tb.objs[o].kind.Task? && tb.objs[o].kind.id == id
    case OnExec(id, exec) => tb.objs[o].kind.Exec? && tb.objs[o].kind.task == id && tb.objs[o].kind.id == exec
  }

  // Object o was made since the table had n objects, for this task and bundle.
  ghost predicate MadeFor(tb: Table, n: nat, id: Id, bundle: string, o: Ref) {
    n <= o && Named(tb, OnTask(id), o) && tb.objs[o].kind.bundle == bundle
  }

  // The exit code for a signal: 128 more, in 32 bits, and no signal means SIGKILL.
  predicate CodeFor(signal: nat, code: nat) {
    if signal == 0 then code == 137
    else if signal < U32 - 128 then code == 128 + signal
    else code < U32 && (128 + signal - code) % U32 == 0
  }

  // What an exec request must look like to be accepted.
  predicate Acceptable(r: ExecRequest) {
    r.exec != "" && r.hasSpec && r.parses && !r.terminal && !r.specTerminal && |r.args| > 0 && r.stdin == ""
  }

  // ---- what a thread may become that serves a request ----

  ghost predicate CreateHonoured(tb: Table, log: seq<Event>, n: nat, id: Id, bundle: string, th: Thread) {
    match th
    case Creating(i, b, cp) =>
      i == id && b == bundle && (cp != Checking ==> id != "") && (cp.Announcing? ==> MadeFor(tb, n, id, bundle, cp.o))
    case Done(r) =>
      if r.Failed? then (if id == "" then r.error == InvalidArgument else r.error in {AlreadyExists, BuildFailed})
      else r.Fine? && id != "" && exists o: Ref :: Created(id, o) in log && MadeFor(tb, n, id, bundle, o)
    case _ => false
  }

  ghost predicate KillHonoured(tb: Table, id: Id, signal: nat, th: Thread) {
    match th
    case Calling(rpc) => rpc == Kill(id, signal)
    case Ending(o, code, who, _) => who == ByKill && Named(tb, OnTask(id), o) && CodeFor(signal, code)
    case Done(r) => r == Failed(NotFound) || (r.Fine? && exists o: Ref :: Named(tb, OnTask(id), o) && IsStopped(tb, o))
    case _ => false
  }

  ghost predicate DeleteHonoured(tb: Table, log: seq<Event>, id: Id, th: Thread) {
    match th
    case Calling(rpc) => rpc == Delete(id)
    case Ending(o, code, who, _) => who == ByDelete(id) && Named(tb, OnTask(id), o) && code == 0
    case Removing(i, o) => i == id && Named(tb, OnTask(id), o)
    case Reporting(i, o, _) => i == id && Named(tb, OnTask(id), o)
    case Done(r) =>
      || r == Failed(NotFound)
      || (r.DeletedTask? && Named(tb, OnTask(id), r.o) && RecordOf(tb, r.o, r.rec) && Deleted(id, r.o, r.rec) in log)
    case _ => false
  }

  ghost predicate WaitHonoured(tb: Table, target: Target, th: Thread) {
    match th
    case Waiting(wp) => if wp.Entering? then wp.target == target else Named(tb, target, wp.o)
    case Done(r) =>
      || (r.Failed? && r.error in {NotFound, Cancelled})
      || (r.Waited? && Named(tb, target, r.o) && RecordOf(tb, r.o, r.rec))
    case _ => false
  }

  // The replies of the calls that are one critical section.
  ghost predicate ReplyHonours(tb: Table, log: seq<Event>, rpc: Rpc, r: Reply) {
    match rpc
    case Start(id) =>
      if r.Failed? then r.error in {NotFound, FailedPrecondition}
      else
        && r.Fine?
        && exists o: Ref :: Started(id, o) in log && Named(tb, OnTask(id), o) && tb.objs[o].life.status != CREATED
    case State(target) =>
      if r.Failed? then r.error == NotFound
      else r.StateIs? && Named(tb, target, r.o) && Rank(r.status) <= Rank(tb.objs[r.o].life.status)
    case Register(q) =>
      if r.Failed? then r.error in {InvalidArgument, Unimplemented, NotFound, FailedPrecondition, AlreadyExists}
      else
        && r.Fine? && Acceptable(q)
        && exists e: Ref :: Named(tb, OnExec(q.task, q.exec), e) && tb.objs[e].kind.args == q.args
             && tb.objs[e].kind.stdout == q.stdout && tb.objs[e].kind.stderr == q.stderr
    case StartExec(id, exec) =>
      if r.Failed? then r.error in {NotFound, FailedPrecondition}
      else r.Fine? && exists e: Ref :: Named(tb, OnExec(id, exec), e) && tb.objs[e].life.status != CREATED
    case DeleteExec(id, exec) =>
      if r.Failed? then r.error in {NotFound, FailedPrecondition}
      else r.ReapedExec? && Named(tb, OnExec(id, exec), r.e) && r.status != RUNNING
    case KillExec(_, _) => r.Failed? && r.error in {NotFound, Unimplemented}
    case _ => false
  }

  ghost predicate Honoured(tb: Table, log: seq<Event>, n: nat, call: Thread, th: Thread) {
    match call
    case Creating(id, bundle, _) => CreateHonoured(tb, log, n, id, bundle, th)
    case Waiting(wp) => wp.Entering? && WaitHonoured(tb, wp.target, th)
    case Calling(rpc) =>
      (match rpc
       case Kill(id, signal) => KillHonoured(tb, id, signal, th)
       case Delete(id) => DeleteHonoured(tb, log, id, th)
       case _ => th == call || (th.Done? && ReplyHonours(tb, log, rpc, th.reply)))
    case _ => false
  }

  // ---- what is so stays so ----

  lemma NamedStays(tb: Table, tb': Table, target: Target, o: Ref)
    requires Evolves(tb, tb') && Named(tb, target, o)
    ensures Named(tb', target, o)
    ensures Rank(tb.objs[o].life.status) <= Rank(tb'.objs[o].life.status)
    ensures IsStopped(tb, o) ==> IsStopped(tb', o)
    ensures target.OnTask? ==> tb'.objs[o].kind.bundle == tb.objs[o].kind.bundle
    ensures target.OnExec? ==> tb'.objs[o].kind == tb.objs[o].kind
  {
    assert KindEvolves(tb.objs[o].kind, tb'.objs[o].kind);
    assert LifeEvolves(tb.objs[o].life, tb'.objs[o].life, tb'.closes);
  }

  lemma CreateStays(tb: Table, tb': Table, log: seq<Event>, log': seq<Event>, n: nat, id: Id, bundle: string,
                    th: Thread)
    requires Evolves(tb, tb') && log <= log' && CreateHonoured(tb, log, n, id, bundle, th)
    ensures CreateHonoured(tb', log', n, id, bundle, th)
  {
    if th.Creating? && th.cp.Announcing? {
      NamedStays(tb, tb', OnTask(id), th.cp.o);
    } else if th.Done? && th.reply.Fine? {
      var o: Ref :| Created(id, o) in log && MadeFor(tb, n, id, bundle, o);
      NamedStays(tb, tb', OnTask(id), o);
    }
  }

  lemma KillStays(tb: Table, tb': Table, id: Id, signal: nat, th: Thread)
    requires Evolves(tb, tb') && KillHonoured(tb, id, signal, th)
    ensures KillHonoured(tb', id, signal, th)
  {
    if th.Ending? {
      NamedStays(tb, tb', OnTask(id), th.o);
    } else if th.Done? && th.reply.Fine? {
      var o: Ref :| Named(tb, OnTask(id), o) && IsStopped(tb, o);
      NamedStays(tb, tb', OnTask(id), o);
    }
  }

  lemma DeleteStays(tb: Table, tb': Table, log: seq<Event>, log': seq<Event>, id: Id, th: Thread)
    requires Evolves(tb, tb') && log <= log' && DeleteHonoured(tb, log, id, th)
    ensures DeleteHonoured(tb', log', id, th)
  {
    match th {
      case Ending(o, _, _, _) => NamedStays(tb, tb', OnTask(id), o);
      case Removing(_, o) => NamedStays(tb, tb', OnTask(id), o);
      case Reporting(_, o, _) => NamedStays(tb, tb', OnTask(id), o);
      case Done(r) =>
        if r.DeletedTask? {
          NamedStays(tb, tb', OnTask(id), r.o);
          RecordStays(tb, tb', r.o, r.rec);
        }
      case _ =>
    }
  }

  lemma WaitNamedStays(tb: Table, tb': Table, target: Target, th: Thread)
    requires Evolves(tb, tb') && WaitHonoured(tb, target, th)
    ensures WaitHonoured(tb', target, th)
  {
    if th.Waiting? && !th.wp.Entering? {
      NamedStays(tb, tb', target, th.wp.o);
    } else if th.Done? && th.reply.Waited? {
      NamedStays(tb, tb', target, th.reply.o);
      RecordStays(tb, tb', th.reply.o, th.reply.rec);
    }
  }

  lemma ReplyHonoursStays(tb: Table, tb': Table, log: seq<Event>, log': seq<Event>, rpc: Rpc, r: Reply)
    requires Evolves(tb, tb') && log <= log' && ReplyHonours(tb, log, rpc, r)
    ensures ReplyHonours(tb', log', rpc, r)
  {
    if !r.Failed? {
      match rpc {
        case Start(id) =>
          var o: Ref :| Started(id, o) in log && Named(tb, OnTask(id), o) && tb.objs[o].life.status != CREATED;
          NamedStays(tb, tb', OnTask(id), o);
        case State(target) => NamedStays(tb, tb', target, r.o);
        case Register(q) =>
          var e: Ref :| Named(tb, OnExec(q.task, q.exec), e) && tb.objs[e].kind.args == q.args
            && tb.objs[e].kind.stdout == q.stdout && tb.objs[e].kind.stderr == q.stderr;
          NamedStays(tb, tb', OnExec(q.task, q.exec), e);
        case StartExec(id, exec) =>
          var e: Ref :| Named(tb, OnExec(id, exec), e) && tb.objs[e].life.status != CREATED;
          NamedStays(tb, tb', OnExec(id, exec), e);
        case DeleteExec(id, exec) => NamedStays(tb, tb', OnExec(id, exec), r.e);
        case _ =>
      }
    }
  }

  lemma HonouredStays(tb: Table, tb': Table, log: seq<Event>, log': seq<Event>, n: nat, call: Thread, th: Thread)
    requires Evolves(tb, tb') && log <= log' && Honoured(tb, log, n, call, th)
    ensures Honoured(tb', log', n, call, th)
  {
    match call {
      case Creating(id, bundle, _) => CreateStays(tb, tb', log, log', n, id, bundle, th);
      case Waiting(wp) => WaitNamedStays(tb, tb', wp.target, th);
      case Calling(rpc) =>
        match rpc {
          case Kill(id, signal) => KillStays(tb, tb', id, signal, th);
          case Delete(id) => DeleteStays(tb, tb', log, log', id, th);
          case _ => if th.Done? { ReplyHonoursStays(tb, tb', log, log', rpc, th.reply); }
        }
      case _ =>
    }
  }

  // ---- a thread's own steps ----

  lemma ResolvesToNamed(w: World, target: Target, o: Ref)
    requires WF(w) && ExecsNamed(w.tb) && Resolve(w.tb, target) == Some(o)
    ensures Named(w.tb, target, o)
  {
    ResolvesTo(w, target, o);
  }

  lemma CreateOwnStep(w: World, t: Tid, c: Choice, n: nat, id: Id, bundle: string)
    requires WF(w) && CanStep(w, t, c) && n <= |w.tb.objs|
    requires CreateHonoured(w.tb, w.log, n, id, bundle, w.threads[t])
    ensures var w' := Advance(w, t, c); CreateHonoured(w'.tb, w'.log, n, id, bundle, w'.threads[t])
  {
    var w' := Advance(w, t, c);
    match w.threads[t].cp {
      case Announcing(o) => assert Created(id, o) in w'.log && MadeFor(w'.tb, n, id, bundle, o);
      case _ =>
    }
  }

  lemma KillOwnStep(w: World, t: Tid, c: Choice, id: Id, signal: nat)
    requires WF(w) && CanStep(w, t, c) && Sound(w) && KillHonoured(w.tb, id, signal, w.threads[t])
    ensures var w' := Advance(w, t, c); KillHonoured(w'.tb, id, signal, w'.threads[t])
  {
    var w' := Advance(w, t, c);
    if w.threads[t].Ending? && !w.threads[t].ep.Stopping? {
      assert ThreadOK(w.tb, w.stopped, w.threads[t]);
      assert Named(w'.tb, OnTask(id), w.threads[t].o) && IsStopped(w'.tb, w.threads[t].o);
    }
  }

  lemma DeleteOwnStep(w: World, t: Tid, c: Choice, id: Id)
    requires WF(w) && CanStep(w, t, c) && Sound(w) && DeleteHonoured(w.tb, w.log, id, w.threads[t])
    ensures var w' := Advance(w, t, c); DeleteHonoured(w'.tb, w'.log, id, w'.threads[t])
  {
    assert ThreadOK(w.tb, w.stopped, w.threads[t]);
  }

  lemma WaitOwnStep(w: World, t: Tid, c: Choice, target: Target)
    requires WF(w) && CanStep(w, t, c) && Sound(w) && ExecsNamed(w.tb) && WaitHonoured(w.tb, target, w.threads[t])
    ensures var w' := Advance(w, t, c); WaitHonoured(w'.tb, target, w'.threads[t])
  {
    assert ThreadOK(w.tb, w.stopped, w.threads[t]);
    var wp := w.threads[t].wp;
    if wp.Entering? && Resolve(w.tb, target).Some? {
      var o := Resolve(w.tb, target).value;
      ResolvesToNamed(w, target, o);
      assert ObjOK(w.tb, w.stopped, w.tb.objs[o]);
    } else if wp.Waking? {
      assert ObjOK(w.tb, w.stopped, w.tb.objs[wp.o]);
    }
  }

  lemma TaskCallHonours(w: World, t: Tid, rpc: Rpc, c: Choice)
    requires WF(w) && ExecsNamed(w.tb) && (rpc.Start? || rpc.State? || rpc.KillExec?)
    ensures var w' := CallStep(w, t, rpc, c);
      w'.threads[t].Done? && ReplyHonours(w'.tb, w'.log, rpc, w'.threads[t].reply)
  {
    var w' := CallStep(w, t, rpc, c);
    match rpc {
      case Start(id) =>
        if w'.threads[t] == Done(Fine) {
          var o := w.tb.tasks[id];
          assert Started(id, o) in w'.log && Named(w'.tb, OnTask(id), o);
        }
      case State(target) =>
        if Resolve(w.tb, target).Some? { ResolvesToNamed(w, target, Resolve(w.tb, target).value); }
      case _ =>
    }
  }

  lemma RegisterHonours(w: World, t: Tid, r: ExecRequest, c: Choice)
    requires WF(w)
    ensures var w' := CallStep(w, t, Register(r), c);
      w'.threads[t].Done? && ReplyHonours(w'.tb, w'.log, Register(r), w'.threads[t].reply)
  {
    var w' := CallStep(w, t, Register(r), c);
    if w'.threads[t] == Done(Fine) {
      assert Named(w'.tb, OnExec(r.task, r.exec), |w.tb.objs|);
    }
  }

  lemma ExecCallHonours(w: World, t: Tid, rpc: Rpc, c: Choice)
    requires WF(w) && ExecsNamed(w.tb) && (rpc.StartExec? || rpc.DeleteExec?)
    ensures var w' := CallStep(w, t, rpc, c);
      w'.threads[t].Done? && ReplyHonours(w'.tb, w'.log, rpc, w'.threads[t].reply)
  {
    var w' := CallStep(w, t, rpc, c);
    var target := OnExec(rpc.id, rpc.exec);
    if Resolve(w.tb, target).Some? {
      var e := Resolve(w.tb, target).value;
      ResolvesToNamed(w, target, e);
      assert rpc.StartExec? && w'.threads[t] == Done(Fine) ==> Named(w'.tb, target, e);
    }
  }

  lemma OwnStep(w: World, t: Tid, c: Choice, n: nat, call: Thread)
    requires WF(w) && CanStep(w, t, c) && Sound(w) && ExecsNamed(w.tb) && n <= |w.tb.objs|
    requires Honoured(w.tb, w.log, n, call, w.threads[t])
    ensures var w' := Advance(w, t, c); Honoured(w'.tb, w'.log, n, call, w'.threads[t])
  {
    match call {
      case Creating(id, bundle, _) => CreateOwnStep(w, t, c, n, id, bundle);
      case Waiting(wp) => WaitOwnStep(w, t, c, wp.target);
      case Calling(rpc) =>
        match rpc {
          case Kill(id, signal) => KillOwnStep(w, t, c, id, signal);
          case Delete(id) => DeleteOwnStep(w, t, c, id);
          case Register(r) => RegisterHonours(w, t, r, c);
          case StartExec(_, _) => ExecCallHonours(w, t, rpc, c);
          case DeleteExec(_, _) => ExecCallHonours(w, t, rpc, c);
          case _ => TaskCallHonours(w, t, rpc, c);
        }
      case _ =>
    }
  }

  lemma OwnThreadStays(w: World, t: Tid, c: Choice)
    requires Can(w, Step(t, c))
    ensures t in Do(w, Step(t, c)).threads
  {
    if w.threads[t].Calling? { CallThreads(w, t, w.threads[t].rpc, c); }
  }

  lemma OwnStepHonours(w: World, t: Tid, c: Choice, n: nat, call: Thread)
    requires Can(w, Step(t, c)) && Sound(w) && ExecsNamed(w.tb) && n <= |w.tb.objs|
    requires Honoured(w.tb, w.log, n, call, w.threads[t])
    ensures var w' := Do(w, Step(t, c)); t in w'.threads && Honoured(w'.tb, w'.log, n, call, w'.threads[t])
  {
    OwnThreadStays(w, t, c);
    OwnStep(w, t, c, n, call);
  }

  lemma StepHonours(w: World, a: Action, t: Tid, n: nat, call: Thread)
    requires Can(w, a) && Sound(w) && ExecsOK(w) && n <= |w.tb.objs|
    requires t in w.threads && Honoured(w.tb, w.log, n, call, w.threads[t])
    ensures var w' := Do(w, a); t in w'.threads && Honoured(w'.tb, w'.log, n, call, w'.threads[t])
  {
    if a.Step? && a.t == t {
      OwnStepHonours(w, t, a.c, n, call);
    } else {
      BystanderHonours(w, a, t, n, call);
    }
  }

  lemma BystanderHonours(w: World, a: Action, t: Tid, n: nat, call: Thread)
    requires Can(w, a) && Sound(w) && !(a.Step? && a.t == t)
    requires t in w.threads && Honoured(w.tb, w.log, n, call, w.threads[t])
    ensures var w' := Do(w, a); t in w'.threads && Honoured(w'.tb, w'.log, n, call, w'.threads[t])
  {
    var w' := Do(w, a);
    assert Later(w, w') by { DoKeepsSound(w, a); }
    OtherThreads(w, a, t);
    HonouredStays(w.tb, w'.tb, w.log, w'.log, n, call, w.threads[t]);
  }

  lemma {:induction false} RunHonours(w: World, run: seq<Action>, t: Tid, n: nat, call: Thread)
    requires CanRun(w, run) && Sound(w) && ExecsOK(w) && n <= |w.tb.objs|
    requires t in w.threads && Honoured(w.tb, w.log, n, call, w.threads[t])
    ensures var w' := RunTo(w, run); t in w'.threads && Honoured(w'.tb, w'.log, n, call, w'.threads[t])
    decreases |run|
  {
    if run != [] {
      StepHonours(w, run[0], t, n, call);
      DoKeepsSound(w, run[0]);
      StepKeepsExecs(w, run[0]);
      RunHonours(Do(w, run[0]), run[1..], t, n, call);
    }
  }

  // Requests and replies. However RPCs interleave, from the moment a request comes in its
  // thread works only on an object of the name the request gives, or one made for it with
  // the ID and bundle it gives, ends it with the code its signal stands for, and replies
  // about that object, or with an error of the kinds that request may get.
  lemma RequestsHonoured(run: seq<Action>, t: Tid, more: seq<Action>)
    requires CanRun(INIT, run) && t in RunTo(INIT, run).threads && IsCall(RunTo(INIT, run).threads[t])
    requires CanRun(RunTo(INIT, run), more)
    ensures var w, w' := RunTo(INIT, run), RunTo(RunTo(INIT, run), more);
      t in w'.threads && Honoured(w'.tb, w'.log, |w.tb.objs|, w.threads[t], w'.threads[t])
  {
    RunKeepsAll(run);
    var w := RunTo(INIT, run);
    RunHonours(w, more, t, |w.tb.objs|, w.threads[t]);
  }

  // ---- a task object is what its Create said ----

  // The object a Create inserts is new, and carries that Create's ID, bundle and sandbox
  // in every later world.
  lemma InsertedCarries(run: seq<Action>, t: Tid, c: Choice, id: Id, bundle: string, sb: Sandbox, more: seq<Action>)
    requires CanRun(INIT, run)
    requires var w := RunTo(INIT, run);
      && t in w.threads && w.threads[t] == Creating(id, bundle, Inserting(sb)) && id !in w.tb.tasks
      && Can(w, Step(t, c)) && CanRun(Do(w, Step(t, c)), more)
    ensures var w := RunTo(INIT, run);
      var w1, o := Do(w, Step(t, c)), |w.tb.objs|;
      && |w1.tb.objs| == o + 1 && id in w1.tb.tasks && w1.tb.tasks[id] == o
      && w1.tb.objs[o].life == Life(CREATED, Record(0, None), [])
      && IsTask(w1.tb, o) && w1.tb.objs[o].kind.execs == map[]
      && var w2 := RunTo(w1, more);
         && IsTask(w2.tb, o) && w2.tb.objs[o].kind.id == id && w2.tb.objs[o].kind.bundle == bundle
         && w2.tb.objs[o].kind.inst == sb
  {
    RunKeepsAll(run);
    var w := RunTo(INIT, run);
    var w1 := Do(w, Step(t, c));
    DoKeepsSound(w, Step(t, c));
    RunKeepsSound(w1, more);
    assert KindEvolves(w1.tb.objs[|w.tb.objs|].kind, RunTo(w1, more).tb.objs[|w.tb.objs|].kind);
  }
}
