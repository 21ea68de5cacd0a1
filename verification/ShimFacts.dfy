// How the task table evolves: objects only move forward, and what a thread, a reply
// or an event says about an object stays true.
module ShimFacts {
  import opened Common
  import opened Shim

  function Rank(s: Status): nat {
    match s
    case CREATED => 0
    case RUNNING => 1
    case STOPPED => 2
  }

  // One object's life from some state to a later one: the status only moves forward,
  // the exit record is set with the exit and never again, and a waiter stays enlisted
  // until its channel is closed at the exit.
  ghost predicate LifeEvolves(l: Life, l': Life, closes': seq<Chan>) {
    if l.status == STOPPED then l' == l
    else
      && Rank(l.status) <= Rank(l'.status)
      && (l'.status != STOPPED ==> l'.rec == l.rec)
      && forall ch :: ch in l.waiters ==> if l'.status == STOPPED then ch in closes' else ch in l'.waiters
  }

  ghost predicate KindEvolves(k: Kind, k': Kind) {
    if k.Task? then k'.Task? && k'.id == k.id && k'.inst == k.inst && k'.bundle == k.bundle else k' == k
  }

  ghost predicate Evolves(tb: Table, tb': Table) {
    && |tb.objs| <= |tb'.objs| && tb.closes <= tb'.closes && tb.chans <= tb'.chans
    && forall o :: 0 <= o < |tb.objs| ==>
         && KindEvolves(tb.objs[o].kind, tb'.objs[o].kind)
         && LifeEvolves(tb.objs[o].life, tb'.objs[o].life, tb'.closes)
  }

  ghost predicate Grows(stopped: seq<bool>, stopped': seq<bool>) {
    |stopped| <= |stopped'| && forall i :: 0 <= i < |stopped| && stopped[i] ==> stopped'[i]
  }

  lemma EvolvesTransitive(a: Table, b: Table, c: Table)
    requires Evolves(a, b) && Evolves(b, c)
    ensures Evolves(a, c)
  {
    forall o | 0 <= o < |a.objs| ensures LifeEvolves(a.objs[o].life, c.objs[o].life, c.closes) {
      var x, y, z := a.objs[o].life, b.objs[o].life, c.objs[o].life;
      assert LifeEvolves(x, y, b.closes) && LifeEvolves(y, z, c.closes);
    }
  }

  // An exit record is that of object o, which has stopped.
  ghost predicate RecordOf(tb: Table, o: Ref, rec: Record) {
    IsStopped(tb, o) && tb.objs[o].life.rec == rec && rec.at.Some?
  }

  // ---- the table ----

  ghost predicate ObjOK(tb: Table, stopped: seq<bool>, ob: Obj) {
    && ObjWF(tb, |stopped|, ob)
    && (ob.life.status != STOPPED ==> ob.life.rec == UNSET)
    && (ob.life.status == STOPPED ==> ob.life.rec.at.Some? && ob.life.waiters == [])
    && (ob.life.status == STOPPED && ob.kind.Task? ==> stopped[ob.kind.inst])
  }

  ghost predicate TableOK(tb: Table, stopped: seq<bool>) {
    && (forall id :: id in tb.tasks ==> IsTask(tb, tb.tasks[id]) && tb.objs[tb.tasks[id]].kind.id == id)
    && (forall o {:trigger ObjOK(tb, stopped, tb.objs[o])} :: 0 <= o < |tb.objs| ==> ObjOK(tb, stopped, tb.objs[o]))
  }

  lemma StopKeepsTable(tb: Table, stopped: seq<bool>, stopped': seq<bool>)
    requires TableOK(tb, stopped) && Grows(stopped, stopped')
    ensures TableOK(tb, stopped') && Evolves(tb, tb)
  {
    forall o | 0 <= o < |tb.objs| ensures ObjOK(tb, stopped', tb.objs[o]) {
      assert ObjOK(tb, stopped, tb.objs[o]);
    }
  }

  // An object keeps its facts when others change.
  lemma ObjStays(tb: Table, tb': Table, stopped: seq<bool>, ob: Obj)
    requires ObjOK(tb, stopped, ob) && |tb.objs| <= |tb'.objs|
    requires forall o :: 0 <= o < |tb.objs| ==> tb'.objs[o].kind.Task? == tb.objs[o].kind.Task?
    ensures ObjOK(tb', stopped, ob)
  {
  }

  // A section that gives object o another life.
  lemma LifeKeepsTable(tb: Table, stopped: seq<bool>, o: Ref, life: Life, tb': Table)
    requires TableOK(tb, stopped) && o < |tb.objs|
    requires tb' == tb.(objs := tb.objs[o := tb.objs[o].(life := life)], closes := tb'.closes, chans := tb'.chans)
    requires tb.closes <= tb'.closes && tb.chans <= tb'.chans && LifeEvolves(tb.objs[o].life, life, tb'.closes)
    requires life.status != STOPPED ==> life.rec == UNSET
    requires life.status == STOPPED ==> life.rec.at.Some? && life.waiters == []
    requires life.status == STOPPED && tb.objs[o].kind.Task? ==>
      tb.objs[o].kind.inst < |stopped| && stopped[tb.objs[o].kind.inst]
    ensures TableOK(tb', stopped) && Evolves(tb, tb')
  {
    forall p | 0 <= p < |tb.objs| ensures ObjOK(tb', stopped, tb'.objs[p]) {
      ObjStays(tb, tb', stopped, tb.objs[p]);
    }
  }

  lemma RunningKeepsTable(tb: Table, stopped: seq<bool>, o: Ref)
    requires TableOK(tb, stopped) && o < |tb.objs| && tb.objs[o].life.status == CREATED
    ensures TableOK(SetRunning(tb, o), stopped) && Evolves(tb, SetRunning(tb, o))
  {
    assert ObjOK(tb, stopped, tb.objs[o]);
    LifeKeepsTable(tb, stopped, o, tb.objs[o].life.(status := RUNNING), SetRunning(tb, o));
  }

  lemma ExitKeepsTable(tb: Table, stopped: seq<bool>, o: Ref, code: nat, now: Time)
    requires TableOK(tb, stopped) && o < |tb.objs| && tb.objs[o].life.status != STOPPED
    requires tb.objs[o].kind.Task? ==> tb.objs[o].kind.inst < |stopped| && stopped[tb.objs[o].kind.inst]
    ensures TableOK(Exit(tb, o, code, now), stopped) && Evolves(tb, Exit(tb, o, code, now))
    ensures RecordOf(Exit(tb, o, code, now), o, Record(code, Some(now)))
  {
    LifeKeepsTable(tb, stopped, o, Life(STOPPED, Record(code, Some(now)), []), Exit(tb, o, code, now));
  }

  lemma EnlistKeepsTable(tb: Table, stopped: seq<bool>, o: Ref)
    requires TableOK(tb, stopped) && o < |tb.objs| && tb.objs[o].life.status != STOPPED
    ensures TableOK(Enlist(tb, o), stopped) && Evolves(tb, Enlist(tb, o))
  {
    var life := tb.objs[o].life;
    assert ObjOK(tb, stopped, tb.objs[o]);
    LifeKeepsTable(tb, stopped, o, life.(waiters := life.waiters + [tb.chans]), Enlist(tb, o));
  }

  lemma DropKeepsTable(tb: Table, stopped: seq<bool>, id: Id)
    requires TableOK(tb, stopped)
    ensures TableOK(Drop(tb, id), stopped) && Evolves(tb, Drop(tb, id))
  {
    forall p | 0 <= p < |tb.objs| ensures ObjOK(Drop(tb, id), stopped, tb.objs[p]) {
      ObjStays(tb, Drop(tb, id), stopped, tb.objs[p]);
    }
  }

  lemma InsertKeepsTable(tb: Table, stopped: seq<bool>, id: Id, bundle: string, sb: Sandbox)
    requires TableOK(tb, stopped) && sb < |stopped|
    ensures TableOK(Insert(tb, id, bundle, sb), stopped) && Evolves(tb, Insert(tb, id, bundle, sb))
  {
    var tb' := Insert(tb, id, bundle, sb);
    forall p | 0 <= p < |tb.objs| ensures ObjOK(tb', stopped, tb'.objs[p]) {
      ObjStays(tb, tb', stopped, tb.objs[p]);
    }
  }

  lemma ExecsKeepTable(tb: Table, stopped: seq<bool>, o: Ref, execs: map<Id, Ref>)
    requires TableOK(tb, stopped) && IsTask(tb, o) && forall x :: x in execs ==> IsExec(tb, execs[x])
    ensures TableOK(WithExecs(tb, o, execs), stopped) && Evolves(tb, WithExecs(tb, o, execs))
  {
    var tb' := WithExecs(tb, o, execs);
    forall p | 0 <= p < |tb.objs| ensures ObjOK(tb', stopped, tb'.objs[p]) {
      ObjStays(tb, tb', stopped, tb.objs[p]);
    }
  }

  lemma AppendKeepsTable(tb: Table, stopped: seq<bool>, k: Kind)
    requires TableOK(tb, stopped) && k.Exec? && IsTask(tb, k.owner)
    ensures TableOK(tb.(objs := tb.objs + [Obj(k, NEW)]), stopped) && Evolves(tb, tb.(objs := tb.objs + [Obj(k, NEW)]))
  {
    var tb' := tb.(objs := tb.objs + [Obj(k, NEW)]);
    forall p | 0 <= p < |tb.objs| ensures ObjOK(tb', stopped, tb'.objs[p]) {
      ObjStays(tb, tb', stopped, tb.objs[p]);
    }
  }

  // AddExec, taken in the other order: the object first, then its name.
  lemma AddExecKeepsTable(tb: Table, stopped: seq<bool>, o: Ref, exec: Id, args: seq<string>,
                          stdout: string, stderr: string)
    requires TableOK(tb, stopped) && IsTask(tb, o)
    ensures var tb' := AddExec(tb, o, exec, args, stdout, stderr); TableOK(tb', stopped) && Evolves(tb, tb')
  {
    var k := Exec(tb.objs[o].kind.id, exec, o, args, stdout, stderr);
    var mid := tb.(objs := tb.objs + [Obj(k, NEW)]);
    AppendKeepsTable(tb, stopped, k);
    var execs := tb.objs[o].kind.execs[exec := |tb.objs|];
    assert ObjOK(tb, stopped, tb.objs[o]);
    ExecsKeepTable(mid, stopped, o, execs);
    var tb' := AddExec(tb, o, exec, args, stdout, stderr);
    assert tb'.objs == WithExecs(mid, o, execs).objs;
    EvolvesTransitive(tb, mid, tb');
  }

  lemma DropExecKeepsTable(tb: Table, stopped: seq<bool>, o: Ref, exec: Id)
    requires TableOK(tb, stopped) && IsTask(tb, o)
    ensures TableOK(DropExec(tb, o, exec), stopped) && Evolves(tb, DropExec(tb, o, exec))
  {
    assert ObjOK(tb, stopped, tb.objs[o]);
    ExecsKeepTable(tb, stopped, o, tb.objs[o].kind.execs - {exec});
  }

  // ---- threads, replies and events ----

  ghost predicate ReplyOK(tb: Table, r: Reply) {
    match r
    case Failed(_) => true
    case Fine => true
    case StateIs(o, status, rec) => o < |tb.objs| && (status == STOPPED ==> RecordOf(tb, o, rec))
    case Waited(o, rec) => RecordOf(tb, o, rec)
    case DeletedTask(o, rec) => IsTask(tb, o) && RecordOf(tb, o, rec)
    case ReapedExec(e, status, rec) => IsExec(tb, e) && (status == STOPPED ==> RecordOf(tb, e, rec))
  }

  ghost predicate EndOK(tb: Table, stopped: seq<bool>, o: Ref, who: Who, e: EndPc) {
    && (if who.ByExec? then IsExec(tb, o) && !e.Stopping? else IsTask(tb, o) && tb.objs[o].kind.inst < |stopped|)
    && (who.ByDelete? ==> tb.objs[o].kind.id == who.id)
    && (!who.ByExec? && !e.Stopping? ==> stopped[tb.objs[o].kind.inst])
    && (e.Publishing? ==> RecordOf(tb, o, e.rec))
  }

  ghost predicate WaitOK(tb: Table, w: WaitPc) {
    match w
    case Entering(_) => true
    case Blocked(o, ch) =>
      && o < |tb.objs| && ch < tb.chans
      && (if IsStopped(tb, o) then ch in tb.closes else ch in tb.objs[o].life.waiters)
    case Waking(o) => IsStopped(tb, o)
  }

  ghost predicate ThreadOK(tb: Table, stopped: seq<bool>, th: Thread) {
    match th
    case Creating(id, _, cp) =>
      match cp {
        case Inserting(sb) => sb < |stopped|
        case Losing(sb) => sb < |stopped|
        case Announcing(o) => IsTask(tb, o) && tb.objs[o].kind.id == id
        case _ => true
      }
    case Calling(_) => true
    case Ending(o, _, who, ep) => EndOK(tb, stopped, o, who, ep)
    case Removing(id, o) => IsTask(tb, o) && tb.objs[o].kind.id == id && IsStopped(tb, o)
    case Reporting(id, o, rec) => IsTask(tb, o) && tb.objs[o].kind.id == id && RecordOf(tb, o, rec)
    case Waiting(wp) => WaitOK(tb, wp)
    case Guest(e, _) => IsExec(tb, e)
    case Done(reply) => ReplyOK(tb, reply)
  }

  ghost predicate EventOK(tb: Table, ev: Event) {
    match ev
    case Created(id, o) => IsTask(tb, o) && tb.objs[o].kind.id == id
    case Started(id, o) => IsTask(tb, o) && tb.objs[o].kind.id == id
    case Exited(_, _, o, rec) => RecordOf(tb, o, rec) && ev == ExitEvent(tb, o, rec)
    case Deleted(id, o, rec) => IsTask(tb, o) && tb.objs[o].kind.id == id && RecordOf(tb, o, rec)
  }

  lemma RecordStays(tb: Table, tb': Table, o: Ref, rec: Record)
    requires Evolves(tb, tb') && RecordOf(tb, o, rec)
    ensures RecordOf(tb', o, rec)
  {
    assert LifeEvolves(tb.objs[o].life, tb'.objs[o].life, tb'.closes);
  }

  lemma WaitStays(tb: Table, tb': Table, w: WaitPc)
    requires Evolves(tb, tb') && WaitOK(tb, w)
    ensures WaitOK(tb', w)
  {
    if !w.Entering? {
      assert LifeEvolves(tb.objs[w.o].life, tb'.objs[w.o].life, tb'.closes);
      assert w.Blocked? && w.ch in tb.closes ==> w.ch in tb'.closes;
    }
  }

  lemma ReplyStays(tb: Table, tb': Table, r: Reply)
    requires Evolves(tb, tb') && ReplyOK(tb, r)
    ensures ReplyOK(tb', r)
  {
    match r
    case StateIs(o, status, rec) => if status == STOPPED { RecordStays(tb, tb', o, rec); }
    case Waited(o, rec) => RecordStays(tb, tb', o, rec);
    case DeletedTask(o, rec) => RecordStays(tb, tb', o, rec);
    case ReapedExec(e, status, rec) => if status == STOPPED { RecordStays(tb, tb', e, rec); }
    case _ =>
  }

  lemma EndStays(tb: Table, tb': Table, stopped: seq<bool>, stopped': seq<bool>, o: Ref, who: Who, e: EndPc)
    requires Evolves(tb, tb') && Grows(stopped, stopped') && EndOK(tb, stopped, o, who, e)
    ensures EndOK(tb', stopped', o, who, e)
  {
    assert KindEvolves(tb.objs[o].kind, tb'.objs[o].kind);
    if e.Publishing? { RecordStays(tb, tb', o, e.rec); }
  }

  lemma ThreadStays(tb: Table, tb': Table, stopped: seq<bool>, stopped': seq<bool>, th: Thread)
    requires Evolves(tb, tb') && Grows(stopped, stopped') && ThreadOK(tb, stopped, th)
    ensures ThreadOK(tb', stopped', th)
  {
    match th
    case Ending(o, _, who, ep) => EndStays(tb, tb', stopped, stopped', o, who, ep);
    case Removing(id, o) => assert LifeEvolves(tb.objs[o].life, tb'.objs[o].life, tb'.closes);
    case Reporting(id, o, rec) => RecordStays(tb, tb', o, rec);
    case Waiting(wp) => WaitStays(tb, tb', wp);
    case Done(reply) => ReplyStays(tb, tb', reply);
    case _ =>
  }

  lemma EventStays(tb: Table, tb': Table, ev: Event)
    requires Evolves(tb, tb') && EventOK(tb, ev)
    ensures EventOK(tb', ev)
  {
    match ev
    case Exited(_, _, o, rec) => RecordStays(tb, tb', o, rec);
    case Deleted(_, o, rec) => RecordStays(tb, tb', o, rec);
    case _ =>
  }

  // ---- the world ----

  ghost predicate Facts(w: World) {
    && TableOK(w.tb, w.stopped)
    && (forall t :: t in w.threads ==> ThreadOK(w.tb, w.stopped, w.threads[t]))
    && (forall ev :: ev in w.log ==> EventOK(w.tb, ev))
  }

  ghost predicate Later(w: World, w': World) {
    Evolves(w.tb, w'.tb) && Grows(w.stopped, w'.stopped) && w.log <= w'.log
  }

  lemma FactsGiveWF(w: World)
    requires Facts(w)
    ensures WF(w)
  {
    forall o | 0 <= o < |w.tb.objs| ensures ObjWF(w.tb, |w.stopped|, w.tb.objs[o]) {
      assert ObjOK(w.tb, w.stopped, w.tb.objs[o]);
    }
    forall t | t in w.threads ensures ThreadWF(w.tb, |w.stopped|, w.threads[t]) {
      assert ThreadOK(w.tb, w.stopped, w.threads[t]);
    }
  }

  // What other threads, and past events, say stays true in a later world.
  lemma OthersStay(w: World, w': World, t: Tid, u: Tid)
    requires Facts(w) && Later(w, w') && TableOK(w'.tb, w'.stopped)
    requires forall v :: v in w'.threads && v != t && v != u ==> v in w.threads && w'.threads[v] == w.threads[v]
    requires t in w'.threads ==> ThreadOK(w'.tb, w'.stopped, w'.threads[t])
    requires u in w'.threads ==> ThreadOK(w'.tb, w'.stopped, w'.threads[u])
    requires forall ev :: ev in w'.log[|w.log|..] ==> EventOK(w'.tb, ev)
    ensures Facts(w')
  {
    forall v | v in w'.threads ensures ThreadOK(w'.tb, w'.stopped, w'.threads[v]) {
      if v != t && v != u {
        ThreadStays(w.tb, w'.tb, w.stopped, w'.stopped, w.threads[v]);
      }
    }
    forall ev | ev in w'.log ensures EventOK(w'.tb, ev) {
      assert w'.log == w.log + w'.log[|w.log|..];
      if ev in w.log {
        EventStays(w.tb, w'.tb, ev);
      }
    }
  }

  lemma CreateKeepsFacts(w: World, t: Tid, id: Id, bundle: string, pc: CreatePc, c: Choice)
    requires Facts(w) && ThreadOK(w.tb, w.stopped, Creating(id, bundle, pc))
    ensures var w' := CreateStep(w, t, id, bundle, pc, c); Facts(w') && Later(w, w')
  {
    var w' := CreateStep(w, t, id, bundle, pc, c);
    StopKeepsTable(w.tb, w.stopped, w'.stopped);
    if pc.Inserting? && id !in w.tb.tasks {
      InsertKeepsTable(w.tb, w.stopped, id, bundle, pc.sb);
    }
    OthersStay(w, w', t, t);
  }

  lemma ResolvesTo(w: World, target: Target, o: Ref)
    requires WF(w) && Resolve(w.tb, target) == Some(o)
    ensures o < |w.tb.objs| && (if target.OnTask? then IsTask(w.tb, o) else IsExec(w.tb, o))
  {
    assert ObjWF(w.tb, |w.stopped|, w.tb.objs[w.tb.tasks[target.task]]);
  }

  predicate OfTask(rpc: Rpc) { rpc.Start? || rpc.State? || rpc.Kill? || rpc.Delete? || rpc.KillExec? }

  lemma TaskCallKeepsFacts(w: World, t: Tid, rpc: Rpc, c: Choice)
    requires Facts(w) && WF(w) && OfTask(rpc)
    ensures var w' := CallStep(w, t, rpc, c); Facts(w') && Later(w, w')
  {
    var w' := CallStep(w, t, rpc, c);
    StopKeepsTable(w.tb, w.stopped, w.stopped);
    match rpc {
      case State(target) =>
        var o := Resolve(w.tb, target);
        if o.Some? {
          ResolvesTo(w, target, o.value);
          assert ObjOK(w.tb, w.stopped, w.tb.objs[o.value]);
        }
      case Start(id) =>
        if id in w.tb.tasks && w.tb.objs[w.tb.tasks[id]].life.status == CREATED {
          RunningKeepsTable(w.tb, w.stopped, w.tb.tasks[id]);
        }
      case _ =>
        if rpc.id in w.tb.tasks { assert ObjOK(w.tb, w.stopped, w.tb.objs[w.tb.tasks[rpc.id]]); }
    }
    OthersStay(w, w', t, t);
  }

  // A critical section after which thread t goes on as th.
  lemma SectionKeepsFacts(w: World, tb': Table, t: Tid, th: Thread)
    requires Facts(w) && TableOK(tb', w.stopped) && Evolves(w.tb, tb') && ThreadOK(tb', w.stopped, th)
    ensures var w' := Goto(w.(tb := tb'), t, th); Facts(w') && Later(w, w')
  {
    OthersStay(w, Goto(w.(tb := tb'), t, th), t, t);
  }

  lemma RegisterKeepsFacts(w: World, t: Tid, r: ExecRequest, c: Choice)
    requires Facts(w) && WF(w)
    ensures var w' := CallStep(w, t, Register(r), c); Facts(w') && Later(w, w')
  {
    StopKeepsTable(w.tb, w.stopped, w.stopped);
    forall e ensures Facts(Fail(w, t, e)) && Later(w, Fail(w, t, e)) {
      SectionKeepsFacts(w, w.tb, t, Done(Failed(e)));
    }
    if r.task in w.tb.tasks {
      var o := w.tb.tasks[r.task];
      AddExecKeepsTable(w.tb, w.stopped, o, r.exec, r.args, r.stdout, r.stderr);
      SectionKeepsFacts(w, AddExec(w.tb, o, r.exec, r.args, r.stdout, r.stderr), t, Done(Fine));
    }
  }

  lemma StartExecKeepsFacts(w: World, t: Tid, e: Ref, child: Tid)
    requires Facts(w) && IsExec(w.tb, e) && w.tb.objs[e].life.status == CREATED
    ensures var w' := Goto(Goto(w.(tb := SetRunning(w.tb, e)), child, Guest(e, Handing)), t, Done(Fine));
      Facts(w') && Later(w, w')
  {
    var tb' := SetRunning(w.tb, e);
    RunningKeepsTable(w.tb, w.stopped, e);
    SectionKeepsFacts(w, tb', child, Guest(e, Handing));
    StopKeepsTable(tb', w.stopped, w.stopped);
    SectionKeepsFacts(Goto(w.(tb := tb'), child, Guest(e, Handing)), tb', t, Done(Fine));
  }

  lemma DeleteExecKeepsFacts(w: World, t: Tid, o: Ref, exec: Id, e: Ref)
    requires Facts(w) && IsTask(w.tb, o) && IsExec(w.tb, e)
    ensures var life := w.tb.objs[e].life;
      var w' := Goto(w.(tb := DropExec(w.tb, o, exec)), t, Done(ReapedExec(e, life.status, life.rec)));
      Facts(w') && Later(w, w')
  {
    assert ObjOK(w.tb, w.stopped, w.tb.objs[e]);
    DropExecKeepsTable(w.tb, w.stopped, o, exec);
    var life := w.tb.objs[e].life;
    SectionKeepsFacts(w, DropExec(w.tb, o, exec), t, Done(ReapedExec(e, life.status, life.rec)));
  }

  lemma ExecCallKeepsFacts(w: World, t: Tid, rpc: Rpc, c: Choice)
    requires Facts(w) && WF(w) && (rpc.StartExec? || rpc.DeleteExec?)
    ensures var w' := CallStep(w, t, rpc, c); Facts(w') && Later(w, w')
  {
    StopKeepsTable(w.tb, w.stopped, w.stopped);
    forall e ensures Facts(Fail(w, t, e)) && Later(w, Fail(w, t, e)) {
      SectionKeepsFacts(w, w.tb, t, Done(Failed(e)));
    }
    var e := Resolve(w.tb, OnExec(rpc.id, rpc.exec));
    if e.Some? {
      ResolvesTo(w, OnExec(rpc.id, rpc.exec), e.value);
      if rpc.DeleteExec? {
        DeleteExecKeepsFacts(w, t, w.tb.tasks[rpc.id], rpc.exec, e.value);
      } else if w.tb.objs[e.value].life.status == CREATED {
        StartExecKeepsFacts(w, t, e.value, c.child);
      }
    }
  }

  // What a call's one critical section does to the table, if anything.
  lemma CallTable(w: World, t: Tid, rpc: Rpc, c: Choice)
    requires WF(w)
    ensures var tb, tb' := w.tb, CallStep(w, t, rpc, c).tb;
      tb' == tb || match rpc
        case Start(id) => id in tb.tasks && tb' == SetRunning(tb, tb.tasks[id])
        case Register(r) =>
          r.task in tb.tasks && tb' == AddExec(tb, tb.tasks[r.task], r.exec, r.args, r.stdout, r.stderr)
        case StartExec(id, exec) =>
          var e := Resolve(tb, OnExec(id, exec)); e.Some? && tb' == SetRunning(tb, e.value)
        case DeleteExec(id, exec) => id in tb.tasks && tb' == DropExec(tb, tb.tasks[id], exec)
        case _ => false
  {
  }

  // A call's first step changes its own thread, and starts at most one goroutine.
  lemma CallThreads(w: World, t: Tid, rpc: Rpc, c: Choice)
    requires WF(w)
    ensures var w' := CallStep(w, t, rpc, c);
      && t in w'.threads && (w'.threads[t].Done? || (w'.threads[t].Ending? && w'.threads[t].ep.Stopping?))
      && (|| w'.threads == w.threads[t := w'.threads[t]]
          || (rpc.StartExec? && c.child in w'.threads && w'.threads[c.child].Guest? &&
              w'.threads == w.threads[c.child := w'.threads[c.child]][t := w'.threads[t]]))
  {
  }

  // A step moves no thread but its own.
  lemma OtherThreads(w: World, a: Action, u: Tid)
    requires Can(w, a) && u in w.threads && (a.Step? ==> a.t != u)
    ensures u in Do(w, a).threads && Do(w, a).threads[u] == w.threads[u]
  {
    if a.Step? && w.threads[a.t].Calling? {
      CallThreads(w, a.t, w.threads[a.t].rpc, a.c);
    }
  }

  lemma CallKeepsFacts(w: World, t: Tid, rpc: Rpc, c: Choice)
    requires Facts(w) && WF(w)
    ensures var w' := CallStep(w, t, rpc, c); Facts(w') && Later(w, w')
  {
    match rpc
    case Register(r) => RegisterKeepsFacts(w, t, r, c);
    case Start(_) => TaskCallKeepsFacts(w, t, rpc, c);
    case State(_) => TaskCallKeepsFacts(w, t, rpc, c);
    case Kill(_, _) => TaskCallKeepsFacts(w, t, rpc, c);
    case Delete(_) => TaskCallKeepsFacts(w, t, rpc, c);
    case StartExec(_, _) => ExecCallKeepsFacts(w, t, rpc, c);
    case DeleteExec(_, _) => ExecCallKeepsFacts(w, t, rpc, c);
    case KillExec(_, _) => TaskCallKeepsFacts(w, t, rpc, c);
  }

  lemma EndKeepsFacts(w: World, t: Tid, o: Ref, code: nat, who: Who, e: EndPc, c: Choice)
    requires Facts(w) && WF(w) && EndOK(w.tb, w.stopped, o, who, e)
    ensures var w' := EndStep(w, t, o, code, who, e, c); Facts(w') && Later(w, w')
  {
    var w' := EndStep(w, t, o, code, who, e, c);
    StopKeepsTable(w.tb, w.stopped, w'.stopped);
    assert ObjOK(w.tb, w.stopped, w.tb.objs[o]);
    if e.Marking? && w.tb.objs[o].life.status != STOPPED {
      ExitKeepsTable(w.tb, w.stopped, o, code, c.now);
    }
    OthersStay(w, w', t, t);
  }

  lemma WaitKeepsFacts(w: World, t: Tid, pc: WaitPc, c: Choice)
    requires Facts(w) && WF(w) && WaitOK(w.tb, pc)
    requires pc.Blocked? && c.ok ==> pc.ch in w.tb.closes && Once(w.tb)
    ensures var w' := WaitStep(w, t, pc, c); Facts(w') && Later(w, w')
  {
    var w' := WaitStep(w, t, pc, c);
    StopKeepsTable(w.tb, w.stopped, w.stopped);
    match pc {
      case Entering(target) =>
        var o := Resolve(w.tb, target);
        if o.Some? {
          ResolvesTo(w, target, o.value);
          assert ObjOK(w.tb, w.stopped, w.tb.objs[o.value]);
          if w.tb.objs[o.value].life.status != STOPPED {
            EnlistKeepsTable(w.tb, w.stopped, o.value);
          }
        }
      case Blocked(o, ch) =>
      case Waking(o) => assert ObjOK(w.tb, w.stopped, w.tb.objs[o]);
    }
    OthersStay(w, w', t, t);
  }

  // A closed channel is in no waiter list.
  ghost predicate Once(tb: Table) {
    forall o, ch :: 0 <= o < |tb.objs| && ch in tb.objs[o].life.waiters ==> ch !in tb.closes
  }

  lemma TailKeepsFacts(w: World, t: Tid, c: Choice)
    requires Facts(w) && WF(w) && CanStep(w, t, c)
    requires var th := w.threads[t]; th.Removing? || th.Reporting? || th.Guest?
    ensures Facts(Advance(w, t, c)) && Later(w, Advance(w, t, c))
  {
    var w' := Advance(w, t, c);
    StopKeepsTable(w.tb, w.stopped, w.stopped);
    match w.threads[t] {
      case Removing(id, o) =>
        assert ObjOK(w.tb, w.stopped, w.tb.objs[o]);
        DropKeepsTable(w.tb, w.stopped, id);
      case _ =>
    }
    OthersStay(w, w', t, t);
  }

  lemma StepKeepsFacts(w: World, a: Action)
    requires Facts(w) && Once(w.tb) && Can(w, a)
    ensures Facts(Do(w, a)) && Later(w, Do(w, a))
  {
    match a
    case Call(t, th) =>
      StopKeepsTable(w.tb, w.stopped, w.stopped);
      OthersStay(w, Do(w, a), t, t);
    case Step(t, c) =>
      assert ThreadOK(w.tb, w.stopped, w.threads[t]);
      match w.threads[t] {
        case Creating(id, bundle, pc) => CreateKeepsFacts(w, t, id, bundle, pc, c);
        case Calling(rpc) => CallKeepsFacts(w, t, rpc, c);
        case Ending(o, code, who, e) => EndKeepsFacts(w, t, o, code, who, e, c);
        case Waiting(pc) => WaitKeepsFacts(w, t, pc, c);
        case _ => TailKeepsFacts(w, t, c);
      }
  }
}
