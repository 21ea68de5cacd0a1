// The order of a task ID's events, for clients that overlap only such RPCs on it as do
// not conflict.
module ShimEvents {
  import opened Common
  import opened Shim
  import opened ShimFacts
  import opened ShimWaiters
  import opened ShimWords

  function Container(e: Event): Id {
    match e
    case Created(id, _) => id
    case Started(id, _) => id
    case Exited(id, _, _, _) => id
    case Deleted(id, _, _) => id
  }

  // A subscriber takes an event to be about task id if it names that container and, for
  // an exit, no other process.
  predicate Concerns(e: Event, id: Id) { Container(e) == id && (e.Exited? ==> e.id == id) }

  function LetterOf(e: Event): Letter {
    match e
    case Created(_, _) => C
    case Started(_, _) => S
    case Exited(_, _, _, _) => X
    case Deleted(_, _, _) => D
  }

  function Word(log: seq<Event>, id: Id): seq<Letter> {
    if log == [] then []
    else
      var e := log[|log| - 1];
      Word(log[..|log| - 1], id) + if Concerns(e, id) then [LetterOf(e)] else []
  }

  lemma WordSnoc(log: seq<Event>, e: Event, id: Id)
    ensures Word(log + [e], id) == Word(log, id) + if Concerns(e, id) then [LetterOf(e)] else []
  {
    assert (log + [e])[..|log|] == log;
  }

  // The RPCs that may change a task's life. Waits, State and the exec RPCs are none.
  datatype Role = Creator | Starter | Killer | Deleter

  // What thread th, which has yet to answer, is doing to task id.
  function RoleIn(tb: Table, th: Thread, id: Id): Option<Role> {
    match th
    case Creating(x, _, _) => if x == id then Some(Creator) else None
    case Calling(rpc) =>
      (match rpc
       case Start(x) => if x == id then Some(Starter) else None
       case Kill(x, _) => if x == id then Some(Killer) else None
       case Delete(x) => if x == id then Some(Deleter) else None
       case _ => None)
    case Ending(o, _, who, _) =>
      if !who.ByExec? && IsTask(tb, o) && tb.objs[o].kind.id == id
      then Some(if who.ByKill? then Killer else Deleter) else None
    case Removing(x, _) => if x == id then Some(Deleter) else None
    case Reporting(x, _, _) => if x == id then Some(Deleter) else None
    case _ => None
  }

  predicate InFlight(tb: Table, th: Thread, id: Id) { RoleIn(tb, th, id).Some? }

  // Two RPCs on one ID whose overlap can put its events out of order: a Create and
  // anything but a Create, a Delete and a Kill, two Deletes.
  predicate Conflict(a: Role, b: Role) {
    (a.Creator? != b.Creator?) || (a.Deleter? && (b.Deleter? || b.Killer?)) || (b.Deleter? && a.Killer?)
  }

  ghost predicate NoConflict(w: World, id: Id) {
    forall t, u ::
      && t in w.threads && u in w.threads && t != u
      && InFlight(w.tb, w.threads[t], id) && InFlight(w.tb, w.threads[u], id) ==>
        !Conflict(RoleIn(w.tb, w.threads[t], id).value, RoleIn(w.tb, w.threads[u], id).value)
  }

  ghost predicate NoConflictThroughout(w: World, run: seq<Action>, id: Id)
    requires CanRun(w, run)
    decreases |run|
  {
    NoConflict(w, id) && (run != [] ==> NoConflictThroughout(Do(w, run[0]), run[1..], id))
  }

  // RPCs on id overlap in no other way than an a with a b.
  ghost predicate OnlyOverlap(w: World, id: Id, a: Role, b: Role) {
    forall t, u ::
      && t in w.threads && u in w.threads && t != u
      && InFlight(w.tb, w.threads[t], id) && InFlight(w.tb, w.threads[u], id) ==>
        var x, y := RoleIn(w.tb, w.threads[t], id).value, RoleIn(w.tb, w.threads[u], id).value;
        (x == a && y == b) || (x == b && y == a)
  }

  ghost predicate OnlyOverlapThroughout(w: World, run: seq<Action>, id: Id, a: Role, b: Role)
    requires CanRun(w, run)
    decreases |run|
  {
    OnlyOverlap(w, id, a, b) && (run != [] ==> OnlyOverlapThroughout(Do(w, run[0]), run[1..], id, a, b))
  }

  lemma {:induction false} OverlapSwaps(w: World, run: seq<Action>, id: Id, a: Role, b: Role)
    requires CanRun(w, run) && OnlyOverlapThroughout(w, run, id, a, b)
    ensures OnlyOverlapThroughout(w, run, id, b, a)
    decreases |run|
  {
    if run != [] {
      OverlapSwaps(Do(w, run[0]), run[1..], id, a, b);
    }
  }

  lemma {:induction false} OverlapHarmless(w: World, run: seq<Action>, id: Id, a: Role, b: Role)
    requires CanRun(w, run) && OnlyOverlapThroughout(w, run, id, a, b) && !Conflict(a, b)
    ensures NoConflictThroughout(w, run, id)
    decreases |run|
  {
    if run != [] {
      OverlapHarmless(Do(w, run[0]), run[1..], id, a, b);
    }
  }

  // No exec of task id is called like the task.
  ghost predicate DistinctNames(tb: Table, id: Id) {
    forall e :: 0 <= e < |tb.objs| && tb.objs[e].kind.Exec? ==>
      !(tb.objs[e].kind.task == id && tb.objs[e].kind.id == id)
  }

  // ---- the phase of an ID ----

  function PhaseOf(s: Status): Phase {
    match s
    case CREATED => Made
    case RUNNING => Live
    case STOPPED => Over
  }

  predicate Holds(tb: Table, id: Id, o: Ref) { id in tb.tasks && tb.tasks[id] == o && o < |tb.objs| }

  // Every event about id has been published.
  predicate Rests(tb: Table, id: Id, p: Phase) {
    if id in tb.tasks then tb.tasks[id] < |tb.objs| && p == PhaseOf(tb.objs[tb.tasks[id]].life.status) else p == Absent
  }

  // Thread th has yet to publish an event for what it did under the lock.
  predicate Owes(th: Thread) {
    (th.Creating? && th.cp.Announcing?) || (th.Ending? && th.ep.Publishing?) || th.Reporting?
  }

  // What is known of an RPC in flight: a Kill or Delete past its lookup still finds its
  // object, and a thread that owes an event explains what is missing from the log.
  predicate Fits(tb: Table, id: Id, p: Phase, th: Thread) {
    match th
    case Creating(_, _, cp) =>
      cp.Announcing? ==> Holds(tb, id, cp.o) && tb.objs[cp.o].life.status == CREATED && p == Absent
    case Ending(o, _, _, ep) =>
      && Holds(tb, id, o)
      && (ep.Publishing? ==> tb.objs[o].life.status == STOPPED && (p == Made || p == Live))
    case Removing(_, o) => Holds(tb, id, o)
    case Reporting(_, _, _) => id !in tb.tasks && p == Over
    case _ => true
  }

  // And nobody else owes one.
  predicate Alone(tb: Table, id: Id, p: Phase, th: Thread) { Fits(tb, id, p, th) && (Owes(th) || Rests(tb, id, p)) }

  ghost predicate InPhase(w: World, id: Id, p: Phase) {
    && Walk(Word(w.log, id)) == Some(p)
    && (forall t :: t in w.threads && InFlight(w.tb, w.threads[t], id) ==> Fits(w.tb, id, p, w.threads[t]))
    && (forall t, u :: Debtor(w, t, id) && Debtor(w, u, id) ==> t == u)
    && ((forall t :: !Debtor(w, t, id)) ==> Rests(w.tb, id, p))
  }

  ghost predicate Debtor(w: World, t: Tid, id: Id) {
    t in w.threads && InFlight(w.tb, w.threads[t], id) && Owes(w.threads[t])
  }

  // ---- a step of an RPC in flight, when no other owes an event ----

  // What one step leaves: the phase it moved to, and its own thread fits or is done.
  ghost predicate Moves(w: World, t: Tid, id: Id, w': World, p: Phase) {
    && Walk(Word(w'.log, id)) == Some(p)
    && t in w'.threads
    && if InFlight(w'.tb, w'.threads[t], id) then Alone(w'.tb, id, p, w'.threads[t]) else Rests(w'.tb, id, p)
  }

  lemma WalkOn(log: seq<Event>, id: Id, e: Event)
    requires Concerns(e, id)
    ensures Walk(Word(log + [e], id)) ==
            match Walk(Word(log, id)) case None => None case Some(p) => Next(p, LetterOf(e))
  {
    WordSnoc(log, e, id);
    WalkSnoc(Word(log, id), LetterOf(e));
  }

  lemma Unpublished(log: seq<Event>, id: Id, p: Phase, e: Event)
    requires Walk(Word(log, id)) == Some(p)
    ensures Walk(Word(log + [e], id)) == if Concerns(e, id) then Next(p, LetterOf(e)) else Some(p)
  {
    WordSnoc(log, e, id);
    WalkSnoc(Word(log, id), LetterOf(e));
    assert Word(log, id) + [] == Word(log, id);
  }

  lemma AnnounceMoves(w: World, t: Tid, c: Choice, id: Id, p: Phase)
    requires WF(w) && CanStep(w, t, c) && w.threads[t].Creating? && w.threads[t].id == id
    requires w.threads[t].cp.Announcing? && Walk(Word(w.log, id)) == Some(p) && Alone(w.tb, id, p, w.threads[t])
    ensures Moves(w, t, id, Advance(w, t, c), Made)
  {
    var e := Created(id, w.threads[t].cp.o);
    Unpublished(w.log, id, p, e);
    assert Advance(w, t, c).log == w.log + [e];
  }

  lemma CreateMoves(w: World, t: Tid, c: Choice, id: Id, p: Phase) returns (p': Phase)
    requires WF(w) && CanStep(w, t, c) && w.threads[t].Creating? && w.threads[t].id == id
    requires Walk(Word(w.log, id)) == Some(p) && Alone(w.tb, id, p, w.threads[t])
    ensures Moves(w, t, id, Advance(w, t, c), p')
  {
    if w.threads[t].cp.Announcing? {
      AnnounceMoves(w, t, c, id, p);
      p' := Made;
    } else {
      BuildMoves(w, t, c, id, p);
      p' := p;
    }
  }

  lemma BuildMoves(w: World, t: Tid, c: Choice, id: Id, p: Phase)
    requires WF(w) && CanStep(w, t, c) && w.threads[t].Creating? && w.threads[t].id == id
    requires !w.threads[t].cp.Announcing? && Walk(Word(w.log, id)) == Some(p) && Alone(w.tb, id, p, w.threads[t])
    ensures Moves(w, t, id, Advance(w, t, c), p)
  {
    var w' := Advance(w, t, c);
    assert w'.log == w.log;
    if w.threads[t].cp.Inserting? && id !in w.tb.tasks {
      assert Holds(w'.tb, id, |w.tb.objs|);
    }
  }

  lemma CallMoves(w: World, t: Tid, c: Choice, id: Id, p: Phase) returns (p': Phase)
    requires Facts(w) && WF(w) && CanStep(w, t, c) && w.threads[t].Calling? && InFlight(w.tb, w.threads[t], id)
    requires Walk(Word(w.log, id)) == Some(p) && Alone(w.tb, id, p, w.threads[t])
    ensures Moves(w, t, id, Advance(w, t, c), p')
  {
    p' := p;
    if w.threads[t].rpc.Start? && id in w.tb.tasks && w.tb.objs[w.tb.tasks[id]].life.status == CREATED {
      Unpublished(w.log, id, p, Started(id, w.tb.tasks[id]));
      p' := Live;
    }
  }

  lemma PublishMoves(w: World, t: Tid, c: Choice, id: Id, p: Phase)
    requires WF(w) && CanStep(w, t, c) && w.threads[t].Ending? && InFlight(w.tb, w.threads[t], id)
    requires ThreadOK(w.tb, w.stopped, w.threads[t]) && w.threads[t].ep.Publishing?
    requires Walk(Word(w.log, id)) == Some(p) && Alone(w.tb, id, p, w.threads[t])
    ensures Moves(w, t, id, Advance(w, t, c), Over)
  {
    var th := w.threads[t];
    Unpublished(w.log, id, p, ExitEvent(w.tb, th.o, th.ep.rec));
  }

  lemma TeardownMoves(w: World, t: Tid, c: Choice, id: Id, p: Phase)
    requires WF(w) && CanStep(w, t, c) && w.threads[t].Ending? && InFlight(w.tb, w.threads[t], id)
    requires ThreadOK(w.tb, w.stopped, w.threads[t]) && !w.threads[t].ep.Publishing?
    requires Walk(Word(w.log, id)) == Some(p) && Alone(w.tb, id, p, w.threads[t])
    ensures Moves(w, t, id, Advance(w, t, c), p)
  {
    var w' := Advance(w, t, c);
    assert w'.log == w.log;
    assert InFlight(w'.tb, w'.threads[t], id) || w'.threads[t].Done?;
  }

  lemma EndMoves(w: World, t: Tid, c: Choice, id: Id, p: Phase) returns (p': Phase)
    requires Facts(w) && WF(w) && CanStep(w, t, c) && w.threads[t].Ending? && InFlight(w.tb, w.threads[t], id)
    requires Walk(Word(w.log, id)) == Some(p) && Alone(w.tb, id, p, w.threads[t])
    ensures Moves(w, t, id, Advance(w, t, c), p')
  {
    assert ThreadOK(w.tb, w.stopped, w.threads[t]);
    if w.threads[t].ep.Publishing? {
      PublishMoves(w, t, c, id, p);
      p' := Over;
    } else {
      TeardownMoves(w, t, c, id, p);
      p' := p;
    }
  }

  lemma TailMoves(w: World, t: Tid, c: Choice, id: Id, p: Phase) returns (p': Phase)
    requires Facts(w) && WF(w) && CanStep(w, t, c) && (w.threads[t].Removing? || w.threads[t].Reporting?)
    requires InFlight(w.tb, w.threads[t], id) && Walk(Word(w.log, id)) == Some(p) && Alone(w.tb, id, p, w.threads[t])
    ensures Moves(w, t, id, Advance(w, t, c), p')
  {
    var th := w.threads[t];
    assert ThreadOK(w.tb, w.stopped, th);
    p' := p;
    if th.Reporting? {
      Unpublished(w.log, id, p, Deleted(id, th.o, th.rec));
      p' := Absent;
    }
  }

  // ---- steps of others ----

  // A step of a thread that is not in flight for id changes nothing about id.
  ghost predicate Aside(w: World, t: Tid, id: Id, w': World) {
    && (id in w'.tb.tasks <==> id in w.tb.tasks) && (id in w.tb.tasks ==> w'.tb.tasks[id] == w.tb.tasks[id])
    && |w.tb.objs| <= |w'.tb.objs|
    && (forall o :: 0 <= o < |w.tb.objs| && w.tb.objs[o].kind.Task? && w.tb.objs[o].kind.id == id ==>
          w'.tb.objs[o].life.status == w.tb.objs[o].life.status)
    && Word(w'.log, id) == Word(w.log, id)
    && t in w'.threads && !InFlight(w'.tb, w'.threads[t], id)
  }

  lemma CreateAside(w: World, t: Tid, c: Choice, id: Id)
    requires WF(w) && CanStep(w, t, c) && w.threads[t].Creating? && w.threads[t].id != id
    ensures Aside(w, t, id, Advance(w, t, c))
  {
    assert Word(Advance(w, t, c).log, id) == Word(w.log, id) by {
      if w.threads[t].cp.Announcing? { WordSnoc(w.log, Created(w.threads[t].id, w.threads[t].cp.o), id); }
    }
  }

  lemma CallTableAside(w: World, t: Tid, rpc: Rpc, c: Choice, id: Id)
    requires WF(w) && !InFlight(w.tb, Calling(rpc), id)
    ensures var tb, tb' := w.tb, CallStep(w, t, rpc, c).tb;
      && tb'.tasks == tb.tasks && |tb.objs| <= |tb'.objs|
      && forall o :: 0 <= o < |tb.objs| && tb.objs[o].kind.Task? && tb.objs[o].kind.id == id ==>
           tb'.objs[o].life.status == tb.objs[o].life.status
  {
    CallTable(w, t, rpc, c);
    if rpc.StartExec? && Resolve(w.tb, OnExec(rpc.id, rpc.exec)).Some? {
      ResolvesTo(w, OnExec(rpc.id, rpc.exec), Resolve(w.tb, OnExec(rpc.id, rpc.exec)).value);
    }
  }

  lemma CallLog(w: World, t: Tid, rpc: Rpc, c: Choice)
    requires WF(w)
    ensures var log' := CallStep(w, t, rpc, c).log;
      log' == w.log || (rpc.Start? && exists o :: log' == w.log + [Started(rpc.id, o)])
  {
  }

  lemma CallAside(w: World, t: Tid, c: Choice, id: Id)
    requires Facts(w) && WF(w) && CanStep(w, t, c) && w.threads[t].Calling? && !InFlight(w.tb, w.threads[t], id)
    ensures Aside(w, t, id, Advance(w, t, c))
  {
    var rpc := w.threads[t].rpc;
    CallTableAside(w, t, rpc, c, id);
    CallWordAside(w, t, rpc, c, id);
    CallStaysAside(w, t, rpc, c, id);
  }

  lemma CallWordAside(w: World, t: Tid, rpc: Rpc, c: Choice, id: Id)
    requires WF(w) && !InFlight(w.tb, Calling(rpc), id)
    ensures Word(CallStep(w, t, rpc, c).log, id) == Word(w.log, id)
  {
    var log' := CallStep(w, t, rpc, c).log;
    CallLog(w, t, rpc, c);
    if log' != w.log {
      var o :| log' == w.log + [Started(rpc.id, o)];
      WordSnoc(w.log, Started(rpc.id, o), id);
    }
  }

  lemma CallStaysAside(w: World, t: Tid, rpc: Rpc, c: Choice, id: Id)
    requires WF(w) && !InFlight(w.tb, Calling(rpc), id)
    ensures var w' := CallStep(w, t, rpc, c); t in w'.threads && !InFlight(w'.tb, w'.threads[t], id)
  {
    CallThreads(w, t, rpc, c);
    match rpc
    case Kill(_, _) =>
    case Delete(_) =>
    case _ =>
  }

  lemma PublishAside(w: World, t: Tid, c: Choice, id: Id)
    requires WF(w) && CanStep(w, t, c) && w.threads[t].Ending? && !InFlight(w.tb, w.threads[t], id)
    requires ThreadOK(w.tb, w.stopped, w.threads[t]) && w.threads[t].ep.Publishing? && DistinctNames(w.tb, id)
    ensures Aside(w, t, id, Advance(w, t, c))
  {
    var th := w.threads[t];
    var e := ExitEvent(w.tb, th.o, th.ep.rec);
    assert Advance(w, t, c).log == w.log + [e];
    WordSnoc(w.log, e, id);
  }

  lemma TeardownAside(w: World, t: Tid, c: Choice, id: Id)
    requires WF(w) && CanStep(w, t, c) && w.threads[t].Ending? && !InFlight(w.tb, w.threads[t], id)
    requires ThreadOK(w.tb, w.stopped, w.threads[t]) && !w.threads[t].ep.Publishing?
    ensures Aside(w, t, id, Advance(w, t, c))
  {
    assert Advance(w, t, c).log == w.log;
  }

  lemma EndAside(w: World, t: Tid, c: Choice, id: Id)
    requires Facts(w) && WF(w) && CanStep(w, t, c) && w.threads[t].Ending? && !InFlight(w.tb, w.threads[t], id)
    requires DistinctNames(w.tb, id)
    ensures Aside(w, t, id, Advance(w, t, c))
  {
    assert ThreadOK(w.tb, w.stopped, w.threads[t]);
    if w.threads[t].ep.Publishing? {
      PublishAside(w, t, c, id);
    } else {
      TeardownAside(w, t, c, id);
    }
  }

  lemma ReportAside(w: World, t: Tid, c: Choice, id: Id)
    requires WF(w) && CanStep(w, t, c) && !InFlight(w.tb, w.threads[t], id) && w.threads[t].Reporting?
    ensures Aside(w, t, id, Advance(w, t, c))
  {
    var th := w.threads[t];
    var e := Deleted(th.id, th.o, th.rec);
    assert Advance(w, t, c).log == w.log + [e];
    WordSnoc(w.log, e, id);
  }

  lemma TailAside(w: World, t: Tid, c: Choice, id: Id)
    requires WF(w) && CanStep(w, t, c) && !InFlight(w.tb, w.threads[t], id)
    requires w.threads[t].Removing? || w.threads[t].Guest?
    ensures Aside(w, t, id, Advance(w, t, c))
  {
    assert Advance(w, t, c).log == w.log;
  }

  lemma WaitAside(w: World, t: Tid, c: Choice, id: Id)
    requires WF(w) && CanStep(w, t, c) && w.threads[t].Waiting?
    ensures Aside(w, t, id, Advance(w, t, c))
  {
    assert Advance(w, t, c).log == w.log;
  }

  // ---- the whole step ----

  // What fits a thread goes on fitting it when others step aside.
  lemma AsideKeepsFit(tb: Table, tb': Table, id: Id, p: Phase, th: Thread)
    requires Evolves(tb, tb') && InFlight(tb', th, id) && Fits(tb, id, p, th)
    requires (id in tb'.tasks <==> id in tb.tasks) && (id in tb.tasks ==> tb'.tasks[id] == tb.tasks[id])
    requires id in tb.tasks ==> IsTask(tb, tb.tasks[id]) && tb.objs[tb.tasks[id]].kind.id == id
    requires forall o :: 0 <= o < |tb.objs| && tb.objs[o].kind.Task? && tb.objs[o].kind.id == id ==>
      tb'.objs[o].life.status == tb.objs[o].life.status
    ensures Fits(tb', id, p, th)
  {
  }

  lemma SameRole(tb: Table, tb': Table, stopped: seq<bool>, th: Thread, id: Id)
    requires Evolves(tb, tb') && ThreadOK(tb, stopped, th)
    ensures RoleIn(tb', th, id) == RoleIn(tb, th, id)
  {
    if th.Ending? { assert KindEvolves(tb.objs[th.o].kind, tb'.objs[th.o].kind); }
  }

  // A step leaves the other threads, and can only bring an exec's goroutine.
  lemma Bystander(w: World, t: Tid, c: Choice, u: Tid)
    requires Can(w, Step(t, c)) && u != t && u in Advance(w, t, c).threads
    ensures if u in w.threads then Advance(w, t, c).threads[u] == w.threads[u] else Advance(w, t, c).threads[u].Guest?
  {
    if u in w.threads { OtherThreads(w, Step(t, c), u); }
    if w.threads[t].Calling? { CallThreads(w, t, w.threads[t].rpc, c); }
  }

  lemma OwnStep(w: World, t: Tid, c: Choice, id: Id, p: Phase) returns (p': Phase)
    requires Sound(w) && Can(w, Step(t, c)) && InFlight(w.tb, w.threads[t], id)
    requires Walk(Word(w.log, id)) == Some(p) && Alone(w.tb, id, p, w.threads[t])
    ensures Moves(w, t, id, Advance(w, t, c), p')
  {
    match w.threads[t]
    case Creating(_, _, _) => p' := CreateMoves(w, t, c, id, p);
    case Calling(_) => p' := CallMoves(w, t, c, id, p);
    case Ending(_, _, _, _) => p' := EndMoves(w, t, c, id, p);
    case Removing(_, _) => p' := TailMoves(w, t, c, id, p);
    case Reporting(_, _, _) => p' := TailMoves(w, t, c, id, p);
  }

  lemma StepAside(w: World, t: Tid, c: Choice, id: Id)
    requires Sound(w) && Can(w, Step(t, c)) && !InFlight(w.tb, w.threads[t], id) && DistinctNames(w.tb, id)
    ensures Aside(w, t, id, Advance(w, t, c))
  {
    match w.threads[t]
    case Creating(_, _, _) => CreateAside(w, t, c, id);
    case Calling(_) => CallAside(w, t, c, id);
    case Ending(_, _, _, _) => EndAside(w, t, c, id);
    case Waiting(_) => WaitAside(w, t, c, id);
    case Reporting(_, _, _) => ReportAside(w, t, c, id);
    case _ => TailAside(w, t, c, id);
  }

  // Only the removal of id takes its object out of the table.
  lemma KeepsHold(w: World, t: Tid, c: Choice, id: Id, o: Ref)
    requires Can(w, Step(t, c)) && Holds(w.tb, id, o) && !(w.threads[t].Removing? && w.threads[t].id == id)
    ensures Holds(Advance(w, t, c).tb, id, o)
  {
    if w.threads[t].Calling? { CallTable(w, t, w.threads[t].rpc, c); }
  }

  // Another thread u in flight, which owes nothing, goes on fitting. A removal finds
  // only Starts beside it.
  lemma OtherKeepsFit(w: World, t: Tid, c: Choice, u: Tid, id: Id, p: Phase, p': Phase)
    requires Sound(w) && Can(w, Step(t, c)) && u in w.threads && u != t && NoConflict(w, id)
    requires InFlight(w.tb, w.threads[t], id) && InFlight(w.tb, w.threads[u], id)
    requires Fits(w.tb, id, p, w.threads[u]) && !Owes(w.threads[u])
    ensures Fits(Advance(w, t, c).tb, id, p', w.threads[u])
  {
    if w.threads[u].Ending? || w.threads[u].Removing? {
      assert !Conflict(RoleIn(w.tb, w.threads[t], id).value, RoleIn(w.tb, w.threads[u], id).value);
      KeepsHold(w, t, c, id, w.threads[u].o);
    }
  }

  // Thread t's step leaves the table and the log, and t owes nothing after it.
  ghost predicate Idles(w: World, t: Tid, c: Choice, id: Id, p: Phase)
    requires WF(w) && CanStep(w, t, c)
  {
    var w' := Advance(w, t, c);
    && w'.tb == w.tb && w'.log == w.log && t in w'.threads && !Owes(w'.threads[t])
    && (InFlight(w.tb, w'.threads[t], id) ==> Fits(w.tb, id, p, w'.threads[t]))
  }

  lemma CallIdles(w: World, t: Tid, c: Choice, id: Id, p: Phase, debtor: Thread)
    requires WF(w) && CanStep(w, t, c) && w.threads[t].Calling? && InFlight(w.tb, w.threads[t], id)
    requires Owes(debtor) && InFlight(w.tb, debtor, id) && Fits(w.tb, id, p, debtor)
    requires !Conflict(RoleIn(w.tb, w.threads[t], id).value, RoleIn(w.tb, debtor, id).value)
    ensures Idles(w, t, c, id, p)
  {
  }

  lemma EndIdles(w: World, t: Tid, c: Choice, id: Id, p: Phase, debtor: Thread)
    requires WF(w) && CanStep(w, t, c) && w.threads[t].Ending? && InFlight(w.tb, w.threads[t], id)
    requires ThreadOK(w.tb, w.stopped, w.threads[t]) && !Owes(w.threads[t]) && Fits(w.tb, id, p, w.threads[t])
    requires Owes(debtor) && InFlight(w.tb, debtor, id) && Fits(w.tb, id, p, debtor)
    requires !Conflict(RoleIn(w.tb, w.threads[t], id).value, RoleIn(w.tb, debtor, id).value)
    ensures Idles(w, t, c, id, p)
  {
  }

  // While thread u owes an event, no other RPC that may overlap it does anything but
  // find the ID taken, its object not startable or already stopped.
  lemma DebtHoldsOthers(w: World, t: Tid, c: Choice, u: Tid, id: Id, p: Phase)
    requires Sound(w) && Can(w, Step(t, c)) && u in w.threads && u != t && NoConflict(w, id)
    requires InFlight(w.tb, w.threads[t], id) && Fits(w.tb, id, p, w.threads[t]) && !Owes(w.threads[t])
    requires Debtor(w, u, id) && Fits(w.tb, id, p, w.threads[u])
    ensures Idles(w, t, c, id, p)
  {
    assert !Conflict(RoleIn(w.tb, w.threads[t], id).value, RoleIn(w.tb, w.threads[u], id).value);
    match w.threads[t]
    case Calling(_) => CallIdles(w, t, c, id, p, w.threads[u]);
    case Ending(_, _, _, _) =>
      assert ThreadOK(w.tb, w.stopped, w.threads[t]);
      EndIdles(w, t, c, id, p, w.threads[u]);
    case _ =>
  }

  lemma BesideDebtor(w: World, t: Tid, c: Choice, u: Tid, id: Id, p: Phase)
    requires Sound(w) && Can(w, Step(t, c)) && InPhase(w, id, p) && NoConflict(w, id)
    requires InFlight(w.tb, w.threads[t], id) && Debtor(w, u, id) && u != t
    ensures InPhase(Advance(w, t, c), id, p)
  {
    var w' := Advance(w, t, c);
    assert !Owes(w.threads[t]) by { assert Owes(w.threads[t]) ==> Debtor(w, t, id); }
    DebtHoldsOthers(w, t, c, u, id, p);
    forall v | v in w'.threads && v != t
      ensures InFlight(w'.tb, w'.threads[v], id) ==> v in w.threads && w'.threads[v] == w.threads[v]
    {
      Bystander(w, t, c, v);
    }
    OtherThreads(w, Step(t, c), u);
    assert Debtor(w', u, id);
    forall v | Debtor(w', v, id) ensures v == u {
      assert Debtor(w, v, id);
    }
  }

  lemma OtherGoesOn(w: World, t: Tid, c: Choice, u: Tid, id: Id, p: Phase, p': Phase)
    requires Sound(w) && Can(w, Step(t, c)) && InPhase(w, id, p) && NoConflict(w, id)
    requires InFlight(w.tb, w.threads[t], id) && !Debtor(w, u, id)
    requires var w' := Advance(w, t, c); u in w'.threads && u != t && InFlight(w'.tb, w'.threads[u], id)
    ensures var w' := Advance(w, t, c); Fits(w'.tb, id, p', w'.threads[u]) && !Owes(w'.threads[u])
  {
    DoKeepsSound(w, Step(t, c));
    Bystander(w, t, c, u);
    SameRole(w.tb, Advance(w, t, c).tb, w.stopped, w.threads[u], id);
    OtherKeepsFit(w, t, c, u, id, p, p');
  }

  // If nobody but t may owe an event, the phase is what t's own step made it.
  lemma PhaseFromMoves(w: World, t: Tid, id: Id, w': World, p: Phase)
    requires Moves(w, t, id, w', p)
    requires forall u :: u in w'.threads && u != t && InFlight(w'.tb, w'.threads[u], id) ==>
      Fits(w'.tb, id, p, w'.threads[u]) && !Owes(w'.threads[u])
    ensures InPhase(w', id, p)
  {
    assert Owes(w'.threads[t]) && InFlight(w'.tb, w'.threads[t], id) ==> Debtor(w', t, id);
  }

  lemma OwnsUp(w: World, t: Tid, id: Id, p: Phase)
    requires InPhase(w, id, p) && t in w.threads && InFlight(w.tb, w.threads[t], id)
    requires forall u :: Debtor(w, u, id) ==> u == t
    ensures Alone(w.tb, id, p, w.threads[t])
  {
    assert Owes(w.threads[t]) ==> Debtor(w, t, id);
  }

  lemma NoOtherDebtor(w: World, t: Tid, c: Choice, id: Id, p: Phase) returns (p': Phase)
    requires Sound(w) && Can(w, Step(t, c)) && InPhase(w, id, p) && NoConflict(w, id)
    requires InFlight(w.tb, w.threads[t], id) && forall u :: Debtor(w, u, id) ==> u == t
    ensures InPhase(Advance(w, t, c), id, p')
  {
    OwnsUp(w, t, id, p);
    p' := OwnStep(w, t, c, id, p);
    var w' := Advance(w, t, c);
    forall u | u in w'.threads && u != t && InFlight(w'.tb, w'.threads[u], id)
      ensures Fits(w'.tb, id, p', w'.threads[u]) && !Owes(w'.threads[u])
    {
      OtherGoesOn(w, t, c, u, id, p, p');
    }
    PhaseFromMoves(w, t, id, w', p');
  }

  lemma OwnStepKeepsPhase(w: World, t: Tid, c: Choice, id: Id, p: Phase) returns (p': Phase)
    requires Sound(w) && Can(w, Step(t, c)) && InPhase(w, id, p) && NoConflict(w, id)
    requires InFlight(w.tb, w.threads[t], id)
    ensures InPhase(Advance(w, t, c), id, p')
  {
    if u :| Debtor(w, u, id) && u != t {
      BesideDebtor(w, t, c, u, id, p);
      p' := p;
    } else {
      p' := NoOtherDebtor(w, t, c, id, p);
    }
  }

  lemma AsideKeepsPhase(w: World, t: Tid, c: Choice, id: Id, p: Phase)
    requires Sound(w) && Can(w, Step(t, c)) && InPhase(w, id, p) && DistinctNames(w.tb, id)
    requires !InFlight(w.tb, w.threads[t], id)
    ensures InPhase(Advance(w, t, c), id, p)
  {
    var w' := Advance(w, t, c);
    DoKeepsSound(w, Step(t, c));
    StepAside(w, t, c, id);
    forall u | u in w'.threads && InFlight(w'.tb, w'.threads[u], id)
      ensures u in w.threads && w'.threads[u] == w.threads[u] && InFlight(w.tb, w.threads[u], id)
      ensures Fits(w'.tb, id, p, w'.threads[u])
    {
      Bystander(w, t, c, u);
      SameRole(w.tb, w'.tb, w.stopped, w.threads[u], id);
      AsideKeepsFit(w.tb, w'.tb, id, p, w.threads[u]);
    }
    forall u ensures Debtor(w', u, id) <==> Debtor(w, u, id) {
      if u in w.threads && u != t {
        OtherThreads(w, Step(t, c), u);
        SameRole(w.tb, w'.tb, w.stopped, w.threads[u], id);
      }
    }
  }

  lemma CallKeepsPhase(w: World, t: Tid, th: Thread, id: Id, p: Phase)
    requires Can(w, Call(t, th)) && InPhase(w, id, p)
    ensures InPhase(Do(w, Call(t, th)), id, p)
  {
    var w' := Do(w, Call(t, th));
    forall u ensures Debtor(w', u, id) <==> Debtor(w, u, id) {}
  }

  // ---- over every run ----

  lemma DistinctBefore(tb: Table, tb': Table, id: Id)
    requires Evolves(tb, tb') && DistinctNames(tb', id)
    ensures DistinctNames(tb, id)
  {
    forall e | 0 <= e < |tb.objs| && tb.objs[e].kind.Exec?
      ensures !(tb.objs[e].kind.task == id && tb.objs[e].kind.id == id)
    {
      assert KindEvolves(tb.objs[e].kind, tb'.objs[e].kind);
    }
  }

  lemma {:induction false} RunKeepsPhase(w: World, run: seq<Action>, id: Id, p: Phase) returns (p': Phase)
    requires Sound(w) && CanRun(w, run) && InPhase(w, id, p)
    requires NoConflictThroughout(w, run, id) && DistinctNames(RunTo(w, run).tb, id)
    ensures InPhase(RunTo(w, run), id, p')
    decreases |run|
  {
    p' := p;
    if run != [] {
      var a := run[0];
      var w1 := Do(w, a);
      DoKeepsSound(w, a);
      RunKeepsSound(w, run);
      DistinctBefore(w.tb, RunTo(w, run).tb, id);
      if a.Call? {
        CallKeepsPhase(w, a.t, a.th, id, p);
      } else if InFlight(w.tb, w.threads[a.t], id) {
        p' := OwnStepKeepsPhase(w, a.t, a.c, id, p);
      } else {
        AsideKeepsPhase(w, a.t, a.c, id, p);
      }
      p' := RunKeepsPhase(w1, run[1..], id, p');
    }
  }

  // As long as no two conflicting RPCs on an ID overlap, in whatever order they come and
  // however often they fail, over any run: the events about that ID spell a prefix of
  // (Create Start? Exit Delete)*. Other overlaps on the ID are free, Wait, State and exec
  // RPCs included, and so is everything on other IDs; no exec of the task may be called
  // like the task.
  lemma EventLanguage(run: seq<Action>, id: Id)
    requires CanRun(INIT, run) && NoConflictThroughout(INIT, run, id)
    requires DistinctNames(RunTo(INIT, run).tb, id)
    ensures InLanguage(Word(RunTo(INIT, run).log, id))
  {
    InitSound();
    assert InPhase(INIT, id, Absent);
    var p := RunKeepsPhase(INIT, run, id, Absent);
    WalksExactly(Word(RunTo(INIT, run).log, id));
  }

  // And when no RPC owes an event, in particular when none is in flight, the word tells
  // the ID's state: it ends with a Delete, or is empty, if and only if the ID is free,
  // and otherwise ends with the event of its object's status.
  lemma EventsTellState(run: seq<Action>, id: Id)
    requires CanRun(INIT, run) && NoConflictThroughout(INIT, run, id)
    requires var w := RunTo(INIT, run); DistinctNames(w.tb, id) && forall t :: !Debtor(w, t, id)
    ensures var w := RunTo(INIT, run);
      var word := Word(w.log, id);
      if id !in w.tb.tasks then word == [] || word[|word| - 1] == D
      else
        && word != [] && w.tb.tasks[id] < |w.tb.objs|
        && word[|word| - 1] == match w.tb.objs[w.tb.tasks[id]].life.status
                               case CREATED => C case RUNNING => S case STOPPED => X
  {
    InitSound();
    assert InPhase(INIT, id, Absent);
    var p := RunKeepsPhase(INIT, run, id, Absent);
  }
}
