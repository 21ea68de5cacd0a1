// The containerd task service (pkg/shim/service.go and exec.go) as a transition
// system. The Table holds what the service's mutex protects; each of its functions
// is the effect of one critical section. A thread is an RPC, or an exec's goroutine,
// between two steps.
module Shim {
  import opened Common

  type Id = string
  type Ref = nat       // a task or exec object, never reused
  type Chan = nat      // a waiter's channel
  type Sandbox = nat
  type Time = nat
  type Tid = nat

  datatype Status = CREATED | RUNNING | STOPPED

  // Exit status and time; the time is absent before the exit (Go's zero time).
  datatype Record = Record(code: nat, at: Option<Time>)

  const UNSET := Record(0, None)

  // What a task and an exec have in common.
  datatype Life = Life(status: Status, rec: Record, waiters: seq<Chan>)

  // An exec also names, for the proofs, the task object it was registered on.
  datatype Kind =
    | Task(id: Id, bundle: string, inst: Sandbox, execs: map<Id, Ref>)
    | Exec(task: Id, id: Id, owner: Ref, args: seq<string>, stdout: string, stderr: string)

  datatype Obj = Obj(kind: Kind, life: Life)

  datatype Table = Table(
    tasks: map<Id, Ref>,
    objs: seq<Obj>,
    chans: nat,               // channels made so far
    closes: seq<Chan>)        // history: the calls of close, in order

  const NEW := Life(CREATED, UNSET, [])

  predicate IsTask(tb: Table, o: Ref) { o < |tb.objs| && tb.objs[o].kind.Task? }
  predicate IsExec(tb: Table, e: Ref) { e < |tb.objs| && tb.objs[e].kind.Exec? }
  predicate IsStopped(tb: Table, o: Ref) { o < |tb.objs| && tb.objs[o].life.status == STOPPED }

  // ---- critical sections ----

  function Insert(tb: Table, id: Id, bundle: string, sb: Sandbox): Table {
    tb.(tasks := tb.tasks[id := |tb.objs|], objs := tb.objs + [Obj(Task(id, bundle, sb, map[]), NEW)])
  }

  function SetRunning(tb: Table, o: Ref): Table
    requires o < |tb.objs|
  {
    tb.(objs := tb.objs[o := tb.objs[o].(life := tb.objs[o].life.(status := RUNNING))])
  }

  // markExited and markExecExited.
  function Exit(tb: Table, o: Ref, code: nat, now: Time): Table
    requires o < |tb.objs|
  {
    var life := tb.objs[o].life;
    if life.status == STOPPED then tb
    else tb.(objs := tb.objs[o := tb.objs[o].(life := Life(STOPPED, Record(code, Some(now)), []))],
             closes := tb.closes + life.waiters)
  }

  function Enlist(tb: Table, o: Ref): Table
    requires o < |tb.objs|
  {
    var life := tb.objs[o].life;
    tb.(objs := tb.objs[o := tb.objs[o].(life := life.(waiters := life.waiters + [tb.chans]))], chans := tb.chans + 1)
  }

  function Drop(tb: Table, id: Id): Table { tb.(tasks := tb.tasks - {id}) }

  function WithExecs(tb: Table, o: Ref, execs: map<Id, Ref>): Table
    requires IsTask(tb, o)
  {
    tb.(objs := tb.objs[o := tb.objs[o].(kind := tb.objs[o].kind.(execs := execs))])
  }

  function AddExec(tb: Table, o: Ref, exec: Id, args: seq<string>, stdout: string, stderr: string): Table
    requires IsTask(tb, o)
  {
    var tb' := WithExecs(tb, o, tb.objs[o].kind.execs[exec := |tb.objs|]);
    tb'.(objs := tb'.objs + [Obj(Exec(tb.objs[o].kind.id, exec, o, args, stdout, stderr), NEW)])
  }

  function DropExec(tb: Table, o: Ref, exec: Id): Table
    requires IsTask(tb, o)
  {
    WithExecs(tb, o, tb.objs[o].kind.execs - {exec})
  }

  // ---- requests and replies ----

  datatype Target = OnTask(task: Id) | OnExec(task: Id, exec: Id)

  datatype Error =
    InvalidArgument | AlreadyExists | NotFound | FailedPrecondition | Unimplemented | BuildFailed | Cancelled

  // The object an RPC addresses.
  function Resolve(tb: Table, target: Target): Option<Ref> {
    if target.task !in tb.tasks then None
    else
      var o := tb.tasks[target.task];
      if target.OnTask? then Some(o)
      else if IsTask(tb, o) && target.exec in tb.objs[o].kind.execs then Some(tb.objs[o].kind.execs[target.exec])
      else None
  }

  datatype ExecRequest = ExecRequest(task: Id, exec: Id, hasSpec: bool, parses: bool, terminal: bool,
    specTerminal: bool, args: seq<string>, stdin: string, stdout: string, stderr: string)

  // Exec's checks before it takes the lock.
  function Validate(r: ExecRequest): Option<Error> {
    if r.exec == "" || !r.hasSpec || !r.parses then Some(InvalidArgument)
    else if r.terminal || r.specTerminal then Some(Unimplemented)
    else if |r.args| == 0 then Some(InvalidArgument)
    else if r.stdin != "" then Some(Unimplemented)
    else None
  }

  datatype Reply =
    | Failed(error: Error)
    | Fine
    | StateIs(o: Ref, status: Status, rec: Record)
    | Waited(o: Ref, rec: Record)
    | DeletedTask(o: Ref, rec: Record)
    | ReapedExec(e: Ref, status: Status, rec: Record)

  const U32: nat := 0x1_0000_0000

  // Kill's exit code: 128+signal, where 0 stands for SIGKILL, in 32 bits.
  function KillCode(signal: nat): nat { (128 + if signal == 0 then 9 else signal) % U32 }

  // Go's uint32 conversion of an int.
  function ToU32(code: int): nat { code % U32 }

  // ---- threads ----

  datatype CreatePc = Checking | Building | Inserting(sb: Sandbox) | Losing(sb: Sandbox) | Announcing(o: Ref)

  // RPCs that start with, or consist of, one look into the table.
  datatype Rpc =
    | Start(id: Id)
    | State(target: Target)
    | Kill(id: Id, signal: nat)
    | Delete(id: Id)
    | Register(r: ExecRequest)
    | StartExec(id: Id, exec: Id)
    | DeleteExec(id: Id, exec: Id)
    | KillExec(id: Id, exec: Id)

  // On whose behalf an object is being ended.
  datatype Who = ByKill | ByDelete(id: Id) | ByExec

  // Stop the sandbox, mark the exit, publish it.
  datatype EndPc = Stopping | Marking | Publishing(rec: Record)

  datatype WaitPc = Entering(target: Target) | Blocked(o: Ref, ch: Chan) | Waking(o: Ref)

  // The goroutine that runs an exec's command: before and during Instance.Exec.
  datatype GuestPc = Handing | InGuest

  datatype Thread =
    | Creating(id: Id, bundle: string, cp: CreatePc)
    | Calling(rpc: Rpc)
    | Ending(o: Ref, code: nat, who: Who, ep: EndPc)
    | Removing(id: Id, o: Ref)
    | Reporting(id: Id, o: Ref, rec: Record)
    | Waiting(wp: WaitPc)
    | Guest(e: Ref, gp: GuestPc)
    | Done(reply: Reply)

  // Events as published; each also names, for the proofs, the object it is about.
  datatype Event =
    | Created(container: Id, o: Ref)
    | Started(container: Id, o: Ref)
    | Exited(container: Id, id: Id, o: Ref, rec: Record)
    | Deleted(container: Id, o: Ref, rec: Record)

  datatype World = World(
    tb: Table,
    stopped: seq<bool>,         // per sandbox: has some Stop returned?
    threads: map<Tid, Thread>,
    log: seq<Event>,            // history: attempts to publish, in order
    removed: seq<Ref>,          // history: objects removed from the task table
    lost: seq<Sandbox>,         // history: sandboxes stopped by the Create that lost the race
    handed: seq<Ref>)           // history: execs whose command was handed to the sandbox

  // The environment's part in a step: the outcome of unlocked work, the clock, a
  // command's exit code, the id of a started goroutine.
  datatype Choice = Choice(ok: bool, now: Time, code: int, child: Tid)

  datatype Action = Call(t: Tid, th: Thread) | Step(t: Tid, c: Choice)

  predicate IsCall(th: Thread) {
    match th
    case Creating(_, _, c) => c == Checking
    case Calling(_) => true
    case Waiting(w) => w.Entering?
    case _ => false
  }

  predicate ObjWF(tb: Table, sandboxes: nat, ob: Obj) {
    match ob.kind
    case Task(_, _, inst, execs) =>
      inst < sandboxes && forall x :: x in execs ==> IsExec(tb, execs[x])
    case Exec(_, _, owner, _, _, _) => IsTask(tb, owner)
  }

  predicate ThreadWF(tb: Table, sandboxes: nat, th: Thread) {
    match th
    case Creating(_, _, c) =>
      match c {
        case Inserting(sb) => sb < sandboxes
        case Losing(sb) => sb < sandboxes
        case Announcing(o) => IsTask(tb, o)
        case _ => true
      }
    case Ending(o, _, who, e) => if who.ByExec? then IsExec(tb, o) && !e.Stopping? else IsTask(tb, o)
    case Removing(_, o) => IsTask(tb, o)
    case Reporting(_, o, _) => IsTask(tb, o)
    case Waiting(w) => w.Entering? || w.o < |tb.objs|
    case Guest(e, _) => IsExec(tb, e)
    case _ => true
  }

  // References lead to objects of the right kind.
  predicate WF(w: World) {
    && (forall id :: id in w.tb.tasks ==> IsTask(w.tb, w.tb.tasks[id]) && w.tb.objs[w.tb.tasks[id]].kind.id == id)
    && (forall o :: 0 <= o < |w.tb.objs| ==> ObjWF(w.tb, |w.stopped|, w.tb.objs[o]))
    && (forall t :: t in w.threads ==> ThreadWF(w.tb, |w.stopped|, w.threads[t]))
  }

  predicate CanStep(w: World, t: Tid, c: Choice) {
    && t in w.threads
    && ThreadWF(w.tb, |w.stopped|, w.threads[t])
    && match w.threads[t]
       case Waiting(Blocked(_, ch)) => c.ok ==> ch in w.tb.closes
       case Calling(StartExec(_, _)) => c.child !in w.threads
       case Done(_) => false
       case _ => true
  }

  // ---- steps ----

  function Goto(w: World, t: Tid, th: Thread): World { w.(threads := w.threads[t := th]) }

  function Fail(w: World, t: Tid, e: Error): World { Goto(w, t, Done(Failed(e))) }

  function Publish(w: World, e: Event): World { w.(log := w.log + [e]) }

  function CreateStep(w: World, t: Tid, id: Id, bundle: string, pc: CreatePc, c: Choice): World
    requires ThreadWF(w.tb, |w.stopped|, Creating(id, bundle, pc))
  {
    match pc
    case Checking =>
      if id == "" then Fail(w, t, InvalidArgument)
      else if id in w.tb.tasks then Fail(w, t, AlreadyExists)
      else Goto(w, t, Creating(id, bundle, Building))
    case Building =>
      if c.ok then Goto(w.(stopped := w.stopped + [false]), t, Creating(id, bundle, Inserting(|w.stopped|)))
      else Fail(w, t, BuildFailed)
    case Inserting(sb) =>
      if id in w.tb.tasks then Goto(w, t, Creating(id, bundle, Losing(sb)))
      else Goto(w.(tb := Insert(w.tb, id, bundle, sb)), t, Creating(id, bundle, Announcing(|w.tb.objs|)))
    case Losing(sb) =>
      Fail(w.(stopped := w.stopped[sb := true], lost := w.lost + [sb]), t, AlreadyExists)
    case Announcing(o) =>
      Goto(Publish(w, Created(id, o)), t, Done(Fine))
  }

  function CallStep(w: World, t: Tid, rpc: Rpc, c: Choice): World
    requires WF(w)
  {
    match rpc
    case Start(id) =>
      if id !in w.tb.tasks then Fail(w, t, NotFound)
      else
        var o := w.tb.tasks[id];
        if w.tb.objs[o].life.status != CREATED then Fail(w, t, FailedPrecondition)
        else Goto(Publish(w.(tb := SetRunning(w.tb, o)), Started(id, o)), t, Done(Fine))
    case State(target) =>
      (match Resolve(w.tb, target)
       case None => Fail(w, t, NotFound)
       case Some(o) => Goto(w, t, Done(StateIs(o, w.tb.objs[o].life.status, w.tb.objs[o].life.rec))))
    case Kill(id, signal) =>
      if id !in w.tb.tasks then Fail(w, t, NotFound)
      else Goto(w, t, Ending(w.tb.tasks[id], KillCode(signal), ByKill, Stopping))
    case Delete(id) =>
      if id !in w.tb.tasks then Fail(w, t, NotFound)
      else Goto(w, t, Ending(w.tb.tasks[id], 0, ByDelete(id), Stopping))
    case Register(r) =>
      if Validate(r).Some? then Fail(w, t, Validate(r).value)
      else if r.task !in w.tb.tasks then Fail(w, t, NotFound)
      else
        var o := w.tb.tasks[r.task];
        if w.tb.objs[o].life.status != RUNNING then Fail(w, t, FailedPrecondition)
        else if r.exec in w.tb.objs[o].kind.execs then Fail(w, t, AlreadyExists)
        else Goto(w.(tb := AddExec(w.tb, o, r.exec, r.args, r.stdout, r.stderr)), t, Done(Fine))
    case StartExec(id, exec) =>
      (match Resolve(w.tb, OnExec(id, exec))
       case None => Fail(w, t, NotFound)
       case Some(e) =>
         if w.tb.objs[e].life.status != CREATED then Fail(w, t, FailedPrecondition)
         else Goto(Goto(w.(tb := SetRunning(w.tb, e)), c.child, Guest(e, Handing)), t, Done(Fine)))
    case DeleteExec(id, exec) =>
      (match Resolve(w.tb, OnExec(id, exec))
       case None => Fail(w, t, NotFound)
       case Some(e) =>
         if w.tb.objs[e].life.status == RUNNING then Fail(w, t, FailedPrecondition)
         else Goto(w.(tb := DropExec(w.tb, w.tb.tasks[id], exec)), t,
                   Done(ReapedExec(e, w.tb.objs[e].life.status, w.tb.objs[e].life.rec))))
    case KillExec(id, exec) =>
      Fail(w, t, if Resolve(w.tb, OnExec(id, exec)).None? then NotFound else Unimplemented)
  }

  // What follows the end of an object.
  function AfterEnd(o: Ref, who: Who): Thread {
    match who
    case ByDelete(id) => Removing(id, o)
    case _ => Done(Fine)
  }

  function ExitEvent(tb: Table, o: Ref, rec: Record): Event
    requires o < |tb.objs|
  {
    match tb.objs[o].kind
    case Task(id, _, _, _) => Exited(id, id, o, rec)
    case Exec(task, id, _, _, _, _) => Exited(task, id, o, rec)
  }

  function EndStep(w: World, t: Tid, o: Ref, code: nat, who: Who, e: EndPc, c: Choice): World
    requires WF(w) && ThreadWF(w.tb, |w.stopped|, Ending(o, code, who, e))
  {
    match e
    case Stopping =>
      Goto(w.(stopped := w.stopped[w.tb.objs[o].kind.inst := true]), t, Ending(o, code, who, Marking))
    case Marking =>
      if w.tb.objs[o].life.status == STOPPED then Goto(w, t, AfterEnd(o, who))
      else Goto(w.(tb := Exit(w.tb, o, code, c.now)), t, Ending(o, code, who, Publishing(Record(code, Some(c.now)))))
    case Publishing(rec) =>
      Goto(Publish(w, ExitEvent(w.tb, o, rec)), t, AfterEnd(o, who))
  }

  function RemoveStep(w: World, t: Tid, id: Id, o: Ref): World
    requires o < |w.tb.objs|
  {
    Goto(w.(tb := Drop(w.tb, id), removed := if id in w.tb.tasks then w.removed + [w.tb.tasks[id]] else w.removed),
         t, Reporting(id, o, w.tb.objs[o].life.rec))
  }

  function WaitStep(w: World, t: Tid, pc: WaitPc, c: Choice): World
    requires WF(w) && ThreadWF(w.tb, |w.stopped|, Waiting(pc))
  {
    match pc
    case Entering(target) =>
      (match Resolve(w.tb, target)
       case None => Fail(w, t, NotFound)
       case Some(o) =>
         if w.tb.objs[o].life.status == STOPPED then Goto(w, t, Done(Waited(o, w.tb.objs[o].life.rec)))
         else Goto(w.(tb := Enlist(w.tb, o)), t, Waiting(Blocked(o, w.tb.chans))))
    case Blocked(o, _) =>
      if c.ok then Goto(w, t, Waiting(Waking(o))) else Fail(w, t, Cancelled)
    case Waking(o) =>
      Goto(w, t, Done(Waited(o, w.tb.objs[o].life.rec)))
  }

  function GuestStep(w: World, t: Tid, e: Ref, g: GuestPc, c: Choice): World {
    match g
    case Handing => Goto(w.(handed := w.handed + [e]), t, Guest(e, InGuest))
    case InGuest => Goto(w, t, Ending(e, if c.ok then ToU32(c.code) else 255, ByExec, Marking))
  }

  function Advance(w: World, t: Tid, c: Choice): World
    requires WF(w) && CanStep(w, t, c)
  {
    match w.threads[t]
    case Creating(id, bundle, pc) => CreateStep(w, t, id, bundle, pc, c)
    case Calling(rpc) => CallStep(w, t, rpc, c)
    case Ending(o, code, who, e) => EndStep(w, t, o, code, who, e, c)
    case Removing(id, o) => RemoveStep(w, t, id, o)
    case Reporting(id, o, rec) => Goto(Publish(w, Deleted(id, o, rec)), t, Done(DeletedTask(o, rec)))
    case Waiting(pc) => WaitStep(w, t, pc, c)
    case Guest(e, g) => GuestStep(w, t, e, g, c)
    case Done(_) => w
  }

  predicate Can(w: World, a: Action) {
    && WF(w)
    && match a
       case Call(t, th) => t !in w.threads && IsCall(th)
       case Step(t, c) => CanStep(w, t, c)
  }

  function Do(w: World, a: Action): World
    requires Can(w, a)
  {
    match a
    case Call(t, th) => Goto(w, t, th)
    case Step(t, c) => Advance(w, t, c)
  }

  predicate CanRun(w: World, run: seq<Action>)
    decreases |run|
  {
    run == [] || (Can(w, run[0]) && CanRun(Do(w, run[0]), run[1..]))
  }

  function RunTo(w: World, run: seq<Action>): World
    requires CanRun(w, run)
    decreases |run|
  {
    if run == [] then w else RunTo(Do(w, run[0]), run[1..])
  }

  const INIT := World(Table(map[], [], 0, []), [], map[], [], [], [], [])
}
