// Execs: a running exec is run by exactly one goroutine, is handed to the sandbox at
// most once, and is never reaped; no step of an exec changes a task.
module ShimExecs {
  import opened Common
  import opened Placement
  import opened Shim
  import opened ShimFacts

  predicate HasStatus(tb: Table, e: Ref, s: Status) { IsExec(tb, e) && tb.objs[e].life.status == s }

  // ---- goroutines ----

  // The exec whose exit thread t is to mark.
  function Runs(threads: map<Tid, Thread>, t: Tid): seq<Ref> {
    if t !in threads then []
    else
      match threads[t]
      case Guest(e, _) => [e]
      case Ending(o, _, who, ep) => if who.ByExec? && ep.Marking? then [o] else []
      case _ => []
  }

  ghost function Goroutines(threads: map<Tid, Thread>): Tid -> seq<Ref> {
    (t: Tid) => Runs(threads, t)
  }

  ghost function RunningOnes(tb: Table): set<Ref> { set e | 0 <= e < |tb.objs| && HasStatus(tb, e, RUNNING) }

  ghost predicate RunOnce(threads: map<Tid, Thread>, tb: Table) {
    Partition(Goroutines(threads), RunningOnes(tb))
  }

  // ---- handing over ----

  function ToHand(threads: map<Tid, Thread>, t: Tid): seq<Ref> {
    if t in threads && threads[t].Guest? && threads[t].gp.Handing? then [threads[t].e] else []
  }

  datatype Spot = ByThread(t: Tid) | Handed

  ghost function Spots(threads: map<Tid, Thread>, handed: seq<Ref>): Spot -> seq<Ref> {
    (s: Spot) => match s
                 case ByThread(t) => ToHand(threads, t)
                 case Handed => handed
  }

  ghost function StartedOnes(tb: Table): set<Ref> {
    set e | 0 <= e < |tb.objs| && IsExec(tb, e) && tb.objs[e].life.status != CREATED
  }

  ghost predicate HandedOnce(threads: map<Tid, Thread>, handed: seq<Ref>, tb: Table) {
    Partition(Spots(threads, handed), StartedOnes(tb))
  }

  // ---- registration ----

  // Exec e is what its task's table of execs holds under its ID.
  ghost predicate Registered(tb: Table, e: Ref) {
    && IsExec(tb, e)
    && var k := tb.objs[e].kind;
       IsTask(tb, k.owner) && k.id in tb.objs[k.owner].kind.execs && tb.objs[k.owner].kind.execs[k.id] == e
  }

  ghost predicate ExecsNamed(tb: Table) {
    forall o, x {:trigger tb.objs[o].kind.execs[x]} ::
      0 <= o < |tb.objs| && tb.objs[o].kind.Task? && x in tb.objs[o].kind.execs ==>
      Registered(tb, tb.objs[o].kind.execs[x]) &&
      var k := tb.objs[tb.objs[o].kind.execs[x]].kind; k.owner == o && k.id == x && k.task == tb.objs[o].kind.id
  }

  ghost predicate RunningRegistered(tb: Table) {
    forall e :: 0 <= e < |tb.objs| && HasStatus(tb, e, RUNNING) ==> Registered(tb, e)
  }

  ghost predicate ExecsOK(w: World) {
    && RunOnce(w.threads, w.tb)
    && HandedOnce(w.threads, w.handed, w.tb)
    && ExecsNamed(w.tb)
    && RunningRegistered(w.tb)
  }

  // ---- steps ----

  // What the exec invariants see of a table does not change.
  ghost predicate SameExecs(tb: Table, tb': Table) {
    && |tb'.objs| == |tb.objs|
    && forall o :: 0 <= o < |tb.objs| ==>
         && tb'.objs[o].kind == tb.objs[o].kind
         && (tb.objs[o].kind.Exec? ==> tb'.objs[o].life.status == tb.objs[o].life.status)
  }

  // Registration is a matter of kinds alone.
  lemma SameKinds(tb: Table, tb': Table)
    requires |tb'.objs| == |tb.objs| && forall o :: 0 <= o < |tb.objs| ==> tb'.objs[o].kind == tb.objs[o].kind
    ensures ExecsNamed(tb) ==> ExecsNamed(tb')
    ensures forall e :: Registered(tb', e) == Registered(tb, e)
  {
  }

  lemma SameRegistered(tb: Table, tb': Table)
    requires SameExecs(tb, tb') && ExecsNamed(tb) && RunningRegistered(tb)
    ensures ExecsNamed(tb') && RunningRegistered(tb')
    ensures RunningOnes(tb') == RunningOnes(tb) && StartedOnes(tb') == StartedOnes(tb)
  {
    SameKinds(tb, tb');
  }

  lemma OtherStep(w: World, w': World)
    requires ExecsOK(w) && SameExecs(w.tb, w'.tb) && w'.handed == w.handed
    requires forall t :: Runs(w'.threads, t) == Runs(w.threads, t) && ToHand(w'.threads, t) == ToHand(w.threads, t)
    ensures ExecsOK(w')
  {
    SameRegistered(w.tb, w'.tb);
    Stayed(Goroutines(w.threads), Goroutines(w'.threads), RunningOnes(w.tb));
    Stayed(Spots(w.threads, w.handed), Spots(w'.threads, w'.handed), StartedOnes(w.tb));
  }

  lemma InsertRegistered(tb: Table, id: Id, bundle: string, sb: Sandbox)
    requires ExecsNamed(tb) && RunningRegistered(tb)
    ensures var tb' := Insert(tb, id, bundle, sb);
      && ExecsNamed(tb') && RunningRegistered(tb')
      && RunningOnes(tb') == RunningOnes(tb) && StartedOnes(tb') == StartedOnes(tb)
  {
    forall e ensures Registered(tb, e) ==> Registered(Insert(tb, id, bundle, sb), e) {}
  }

  lemma AddExecRegistered(tb: Table, o: Ref, exec: Id, args: seq<string>, stdout: string, stderr: string)
    requires ExecsNamed(tb) && RunningRegistered(tb) && IsTask(tb, o) && exec !in tb.objs[o].kind.execs
    ensures var tb' := AddExec(tb, o, exec, args, stdout, stderr);
      && ExecsNamed(tb') && RunningRegistered(tb')
      && RunningOnes(tb') == RunningOnes(tb) && StartedOnes(tb') == StartedOnes(tb)
  {
    var tb' := AddExec(tb, o, exec, args, stdout, stderr);
    forall e ensures Registered(tb, e) ==> Registered(tb', e) {}
    assert Registered(tb', |tb.objs|);
  }

  lemma DropExecRegistered(tb: Table, o: Ref, exec: Id)
    requires ExecsNamed(tb) && RunningRegistered(tb) && IsTask(tb, o) && exec in tb.objs[o].kind.execs
    requires !HasStatus(tb, tb.objs[o].kind.execs[exec], RUNNING)
    ensures var tb' := DropExec(tb, o, exec);
      && ExecsNamed(tb') && RunningRegistered(tb')
      && RunningOnes(tb') == RunningOnes(tb) && StartedOnes(tb') == StartedOnes(tb)
  {
    var tb' := DropExec(tb, o, exec);
    var gone := tb.objs[o].kind.execs[exec];
    forall e ensures Registered(tb, e) && e != gone ==> Registered(tb', e) {}
  }

  lemma SetRunningRegistered(tb: Table, e: Ref)
    requires ExecsNamed(tb) && RunningRegistered(tb) && HasStatus(tb, e, CREATED) && Registered(tb, e)
    ensures var tb' := SetRunning(tb, e);
      && ExecsNamed(tb') && RunningRegistered(tb')
      && RunningOnes(tb') == RunningOnes(tb) + {e} && StartedOnes(tb') == StartedOnes(tb) + {e}
  {
    SameKinds(tb, SetRunning(tb, e));
  }

  lemma ExitRegistered(tb: Table, e: Ref, code: nat, now: Time)
    requires ExecsNamed(tb) && RunningRegistered(tb) && HasStatus(tb, e, RUNNING)
    ensures var tb' := Exit(tb, e, code, now);
      && ExecsNamed(tb') && RunningRegistered(tb')
      && RunningOnes(tb') == RunningOnes(tb) - {e} && StartedOnes(tb') == StartedOnes(tb)
  {
    var tb' := Exit(tb, e, code, now);
    SameKinds(tb, tb');
    forall x ensures HasStatus(tb', x, RUNNING) <==> HasStatus(tb, x, RUNNING) && x != e {}
  }

  lemma RunningStep(w: World, t: Tid, e: Ref, child: Tid)
    requires ExecsOK(w) && HasStatus(w.tb, e, CREATED) && Registered(w.tb, e)
    requires child !in w.threads && t in w.threads && Runs(w.threads, t) == [] && ToHand(w.threads, t) == []
    ensures ExecsOK(Goto(Goto(w.(tb := SetRunning(w.tb, e)), child, Guest(e, Handing)), t, Done(Fine)))
  {
    var w' := Goto(Goto(w.(tb := SetRunning(w.tb, e)), child, Guest(e, Handing)), t, Done(Fine));
    SetRunningRegistered(w.tb, e);
    forall u | u != child
      ensures Runs(w'.threads, u) == Runs(w.threads, u) && ToHand(w'.threads, u) == ToHand(w.threads, u)
    {
    }
    Born(Goroutines(w.threads), Goroutines(w'.threads), RunningOnes(w.tb), child, e);
    Born(Spots(w.threads, w.handed), Spots(w'.threads, w'.handed), StartedOnes(w.tb), ByThread(child), e);
  }

  lemma HandStep(w: World, t: Tid, e: Ref)
    requires ExecsOK(w) && t in w.threads && w.threads[t] == Guest(e, Handing)
    ensures ExecsOK(Goto(w.(handed := w.handed + [e]), t, Guest(e, InGuest)))
  {
    var w' := Goto(w.(handed := w.handed + [e]), t, Guest(e, InGuest));
    forall u | u != t ensures ToHand(w'.threads, u) == ToHand(w.threads, u) {}
    forall u ensures Runs(w'.threads, u) == Runs(w.threads, u) {}
    Stayed(Goroutines(w.threads), Goroutines(w'.threads), RunningOnes(w.tb));
    MovedOnto(Spots(w.threads, w.handed), Spots(w'.threads, w'.handed), StartedOnes(w.tb), ByThread(t), Handed);
  }

  // A goroutine's exec is running when the goroutine marks its exit.
  lemma MarksRunning(w: World, t: Tid)
    requires ExecsOK(w) && t in w.threads && Runs(w.threads, t) != []
    ensures HasStatus(w.tb, Runs(w.threads, t)[0], RUNNING)
  {
    var e := Runs(w.threads, t)[0];
    assert e in Goroutines(w.threads)(t);
    assert e in RunningOnes(w.tb);
  }

  lemma MarkExecStep(w: World, t: Tid, e: Ref, code: nat, now: Time)
    requires ExecsOK(w) && t in w.threads && w.threads[t] == Ending(e, code, ByExec, Marking) && IsExec(w.tb, e)
    ensures HasStatus(w.tb, e, RUNNING)
    ensures var th := Ending(e, code, ByExec, Publishing(Record(code, Some(now))));
      ExecsOK(Goto(w.(tb := Exit(w.tb, e, code, now)), t, th))
  {
    MarksRunning(w, t);
    var w' := Goto(w.(tb := Exit(w.tb, e, code, now)), t, Ending(e, code, ByExec, Publishing(Record(code, Some(now)))));
    ExitRegistered(w.tb, e, code, now);
    forall u | u != t ensures Runs(w'.threads, u) == Runs(w.threads, u) {}
    forall u ensures ToHand(w'.threads, u) == ToHand(w.threads, u) {}
    Left(Goroutines(w.threads), Goroutines(w'.threads), RunningOnes(w.tb), t, e);
    Stayed(Spots(w.threads, w.handed), Spots(w'.threads, w'.handed), StartedOnes(w.tb));
  }

  // A step after which the running and the started execs are the same, and only thread
  // t differs, which stands for no exec before or after.
  lemma TableStep(w: World, w': World, t: Tid)
    requires ExecsOK(w) && w'.handed == w.handed && ExecsNamed(w'.tb) && RunningRegistered(w'.tb)
    requires RunningOnes(w'.tb) == RunningOnes(w.tb) && StartedOnes(w'.tb) == StartedOnes(w.tb)
    requires t in w.threads && t in w'.threads && w'.threads == w.threads[t := w'.threads[t]]
    requires Runs(w.threads, t) == Runs(w'.threads, t) && ToHand(w.threads, t) == ToHand(w'.threads, t)
    ensures ExecsOK(w')
  {
    forall u ensures Runs(w'.threads, u) == Runs(w.threads, u) && ToHand(w'.threads, u) == ToHand(w.threads, u) {}
    Stayed(Goroutines(w.threads), Goroutines(w'.threads), RunningOnes(w.tb));
    Stayed(Spots(w.threads, w.handed), Spots(w'.threads, w'.handed), StartedOnes(w.tb));
  }

  lemma CreateKeepsExecs(w: World, t: Tid, c: Choice)
    requires WF(w) && CanStep(w, t, c) && ExecsOK(w) && w.threads[t].Creating?
    ensures ExecsOK(Advance(w, t, c))
  {
    var w' := Advance(w, t, c);
    var th := w.threads[t];
    if th.cp.Inserting? && th.id !in w.tb.tasks {
      InsertRegistered(w.tb, th.id, th.bundle, th.cp.sb);
      TableStep(w, w', t);
    } else {
      OtherStep(w, w');
    }
  }

  lemma ResolvesToRegistered(tb: Table, id: Id, exec: Id)
    requires ExecsNamed(tb) && Resolve(tb, OnExec(id, exec)).Some?
    ensures Registered(tb, Resolve(tb, OnExec(id, exec)).value)
  {
  }

  lemma StartExecKeepsExecs(w: World, t: Tid, id: Id, exec: Id, c: Choice)
    requires WF(w) && ExecsOK(w) && t in w.threads && w.threads[t].Calling? && c.child !in w.threads
    ensures ExecsOK(CallStep(w, t, StartExec(id, exec), c))
  {
    var e := Resolve(w.tb, OnExec(id, exec));
    if e.Some? && w.tb.objs[e.value].life.status == CREATED {
      ResolvesToRegistered(w.tb, id, exec);
      RunningStep(w, t, e.value, c.child);
    } else {
      OtherStep(w, CallStep(w, t, StartExec(id, exec), c));
    }
  }

  lemma RegisterKeepsExecs(w: World, t: Tid, r: ExecRequest, c: Choice)
    requires WF(w) && ExecsOK(w) && t in w.threads && w.threads[t].Calling?
    ensures ExecsOK(CallStep(w, t, Register(r), c))
  {
    var w' := CallStep(w, t, Register(r), c);
    CallThreads(w, t, Register(r), c);
    if w'.tb == w.tb {
      OtherStep(w, w');
    } else {
      AddExecRegistered(w.tb, w.tb.tasks[r.task], r.exec, r.args, r.stdout, r.stderr);
      TableStep(w, w', t);
    }
  }

  lemma DeleteExecKeepsExecs(w: World, t: Tid, id: Id, exec: Id, c: Choice)
    requires WF(w) && ExecsOK(w) && t in w.threads && w.threads[t].Calling?
    ensures ExecsOK(CallStep(w, t, DeleteExec(id, exec), c))
  {
    var w' := CallStep(w, t, DeleteExec(id, exec), c);
    CallThreads(w, t, DeleteExec(id, exec), c);
    if w'.tb == w.tb {
      OtherStep(w, w');
    } else {
      DropExecRegistered(w.tb, w.tb.tasks[id], exec);
      TableStep(w, w', t);
    }
  }

  lemma CallKeepsExecs(w: World, t: Tid, rpc: Rpc, c: Choice)
    requires WF(w) && ExecsOK(w) && t in w.threads && w.threads[t].Calling? && !rpc.StartExec?
    ensures ExecsOK(CallStep(w, t, rpc, c))
  {
    if rpc.Register? {
      RegisterKeepsExecs(w, t, rpc.r, c);
    } else if rpc.DeleteExec? {
      DeleteExecKeepsExecs(w, t, rpc.id, rpc.exec, c);
    } else {
      PlainCallKeepsExecs(w, t, rpc, c);
    }
  }

  lemma PlainCallKeepsExecs(w: World, t: Tid, rpc: Rpc, c: Choice)
    requires WF(w) && ExecsOK(w) && t in w.threads && w.threads[t].Calling?
    requires !rpc.StartExec? && !rpc.Register? && !rpc.DeleteExec?
    ensures ExecsOK(CallStep(w, t, rpc, c))
  {
    var w' := CallStep(w, t, rpc, c);
    assert SameExecs(w.tb, w'.tb) by { CallTable(w, t, rpc, c); }
    CallThreads(w, t, rpc, c);
    OtherStep(w, w');
  }

  lemma EndKeepsExecs(w: World, t: Tid, c: Choice)
    requires WF(w) && CanStep(w, t, c) && ExecsOK(w) && w.threads[t].Ending?
    ensures ExecsOK(Advance(w, t, c))
  {
    var th := w.threads[t];
    if th.who.ByExec? && th.ep.Marking? {
      MarkExecStep(w, t, th.o, th.code, c.now);
    } else {
      OtherStep(w, Advance(w, t, c));
    }
  }

  lemma GuestKeepsExecs(w: World, t: Tid, c: Choice)
    requires WF(w) && CanStep(w, t, c) && ExecsOK(w) && w.threads[t].Guest?
    ensures ExecsOK(Advance(w, t, c))
  {
    if w.threads[t].gp.Handing? {
      HandStep(w, t, w.threads[t].e);
    } else {
      OtherStep(w, Advance(w, t, c));
    }
  }

  lemma RestKeepsExecs(w: World, t: Tid, c: Choice)
    requires WF(w) && CanStep(w, t, c) && ExecsOK(w)
    requires var th := w.threads[t]; th.Removing? || th.Reporting? || th.Waiting?
    ensures ExecsOK(Advance(w, t, c))
  {
    var w' := Advance(w, t, c);
    assert SameExecs(w.tb, w'.tb);
    OtherStep(w, w');
  }

  lemma StepKeepsExecs(w: World, a: Action)
    requires Can(w, a) && ExecsOK(w)
    ensures ExecsOK(Do(w, a))
  {
    match a
    case Call(t, th) => OtherStep(w, Do(w, a));
    case Step(t, c) =>
      match w.threads[t] {
        case Creating(_, _, _) => CreateKeepsExecs(w, t, c);
        case Calling(rpc) =>
          if rpc.StartExec? { StartExecKeepsExecs(w, t, rpc.id, rpc.exec, c); } else { CallKeepsExecs(w, t, rpc, c); }
        case Ending(_, _, _, _) => EndKeepsExecs(w, t, c);
        case Guest(_, _) => GuestKeepsExecs(w, t, c);
        case _ => RestKeepsExecs(w, t, c);
      }
  }

  lemma InitExecs()
    ensures ExecsOK(INIT)
  {
    assert RunningOnes(INIT.tb) == {} && StartedOnes(INIT.tb) == {};
    forall t ensures Goroutines(INIT.threads)(t) == [] {}
    forall s ensures Spots(INIT.threads, INIT.handed)(s) == [] {}
  }

  lemma {:induction false} RunKeepsExecs(w: World, run: seq<Action>)
    requires CanRun(w, run) && ExecsOK(w)
    ensures ExecsOK(RunTo(w, run))
    decreases |run|
  {
    if run != [] {
      StepKeepsExecs(w, run[0]);
      RunKeepsExecs(Do(w, run[0]), run[1..]);
    }
  }
}
