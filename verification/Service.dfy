// The task service as objects (pkg/shim/service.go and exec.go). Each method that
// takes no other method's lock is one critical section, proved equal to the section
// Shim.dfy interleaves; Kill and Delete are also given whole, as they run undisturbed.
module Service {
  import opened Common
  import opened Shim
  import opened ShimWaiters
  import Driver
  import ShimCalls

  // A Go channel used only to be closed. Closing it twice would panic.
  class Channel {
    ghost const id: Chan
    var closed: bool

    constructor (ghost id: Chan)
      ensures this.id == id && !closed
    {
      this.id := id;
      closed := false;
    }

    method Close()
      requires !closed
      modifies this
      ensures closed
    {
      closed := true;
    }
  }

  // The fields taskState and execState share.
  class Process {
    ghost const ref: Ref
    var status: Status
    var exitStatus: nat
    var exitedAt: Option<Time>
    var waiters: seq<Channel>

    constructor (ghost ref: Ref)
      ensures this.ref == ref && status == CREATED && exitStatus == 0 && exitedAt == None && waiters == []
    {
      this.ref := ref;
      status := CREATED;
      exitStatus := 0;
      exitedAt := None;
      waiters := [];
    }

    // This process has life l.
    ghost predicate Is(l: Life)
      reads this
    {
      && status == l.status && Record(exitStatus, exitedAt) == l.rec
      && |waiters| == |l.waiters| && forall k :: 0 <= k < |waiters| ==> waiters[k].id == l.waiters[k]
    }
  }

  class ExecState {
    const proc: Process
    const args: seq<string>
    const stdout: string
    const stderr: string

    constructor (proc: Process, args: seq<string>, stdout: string, stderr: string)
      ensures this.proc == proc && this.args == args && this.stdout == stdout && this.stderr == stderr
    {
      this.proc := proc;
      this.args := args;
      this.stdout := stdout;
      this.stderr := stderr;
    }
  }

  class TaskState {
    const proc: Process
    const inst: Driver.Instance
    const bundle: string
    var execs: map<Id, ExecState>

    constructor (proc: Process, inst: Driver.Instance, bundle: string)
      ensures this.proc == proc && this.inst == inst && this.bundle == bundle && execs == map[]
    {
      this.proc := proc;
      this.inst := inst;
      this.bundle := bundle;
      execs := map[];
    }
  }

  // What the service object with some reference is.
  datatype Cell = TaskCell(ts: TaskState) | ExecCell(es: ExecState)

  datatype Result<T> = Ok(value: T) | Err(error: Error)

  // What an exec's goroutine is handed.
  datatype Command = Command(inst: Driver.Instance, args: seq<string>, stdout: string, stderr: string)

  // What State answers, but for the shim's pid.
  datatype Report = Report(id: Id, bundle: string, status: Status, stdout: string, stderr: string, rec: Record)

  class Service {
    var tasks: map<Id, TaskState>
    ghost var log: seq<Event>          // publish attempts

    // The abstract table, and the objects that stand for its entries.
    ghost var view: Table
    ghost var procs: seq<Process>
    ghost var cells: seq<Cell>
    ghost var chans: seq<Channel>

    // ---- invariant ----

    // The processes have the lives tb gives their objects.
    ghost predicate ProcessesOK(tb: Table)
      reads this`procs, this`chans, procs
    {
      AllProcesses(procs, tb)
    }

    ghost predicate AllProcesses(procs: seq<Process>, tb: Table)
      reads this`chans, procs
    {
      && |procs| == |tb.objs|
      && forall o {:trigger procs[o]} :: 0 <= o < |procs| ==> ProcessOK(tb, procs[o], o)
    }

    ghost predicate ProcessOK(tb: Table, p: Process, o: Ref)
      requires o < |tb.objs|
      reads this`chans, p
    {
      && p.ref == o && p.Is(tb.objs[o].life)
      && forall k :: 0 <= k < |p.waiters| ==> p.waiters[k] in chans
    }

    static ghost predicate CellIs(cells: seq<Cell>, c: Cell, p: Process, kind: Kind)
      reads match c case TaskCell(ts) => {ts} case ExecCell(_) => {}
    {
      match c
      case TaskCell(ts) =>
        && ts.proc == p && kind.Task?
        && kind.bundle == ts.bundle && kind.inst == ts.inst.vmm.id && kind.execs.Keys == ts.execs.Keys
        && forall x :: x in ts.execs ==>
             kind.execs[x] < |cells| && cells[kind.execs[x]] == ExecCell(ts.execs[x])
      case ExecCell(es) =>
        && es.proc == p && kind.Exec?
        && kind.args == es.args && kind.stdout == es.stdout && kind.stderr == es.stderr
    }

    // The tasks and execs are of the kinds tb gives their objects.
    ghost predicate CellsOK(tb: Table)
      reads this`cells, this`procs, set o | 0 <= o < |cells| && cells[o].TaskCell? :: cells[o].ts
    {
      AllCells(cells, procs, tb)
    }

    static ghost predicate AllCells(cells: seq<Cell>, procs: seq<Process>, tb: Table)
      reads set o | 0 <= o < |cells| && cells[o].TaskCell? :: cells[o].ts
    {
      && |cells| == |tb.objs| && |procs| == |tb.objs|
      && forall o {:trigger cells[o]} :: 0 <= o < |cells| ==> CellIs(cells, cells[o], procs[o], tb.objs[o].kind)
    }

    // The tasks map is tb's.
    ghost predicate NamesOK(tb: Table)
      reads this`tasks, this`cells
    {
      AllNames(tasks, cells, tb)
    }

    static ghost predicate AllNames(tasks: map<Id, TaskState>, cells: seq<Cell>, tb: Table) {
      && tasks.Keys == tb.tasks.Keys && |cells| == |tb.objs|
      && forall id :: id in tasks ==>
           && tb.tasks[id] < |cells| && cells[tb.tasks[id]] == TaskCell(tasks[id])
           && tb.objs[tb.tasks[id]].kind.id == id
    }

    // The channels made, in order, and which of them are closed.
    ghost predicate ChannelsOK(tb: Table)
      reads this`chans, chans
    {
      && |chans| == tb.chans && ChansOnce(tb)
      && forall i {:trigger chans[i]} :: 0 <= i < |chans| ==> chans[i].id == i && (chans[i].closed <==> i in tb.closes)
    }

    ghost predicate Valid()
      reads this`view, this`procs, this`chans, this`tasks, this`cells
      reads procs, chans, set o | 0 <= o < |cells| && cells[o].TaskCell? :: cells[o].ts
    {
      ProcessesOK(view) && CellsOK(view) && NamesOK(view) && ChannelsOK(view)
    }

    lemma SameKinds(tb: Table, tb': Table)
      requires CellsOK(tb) && |tb'.objs| == |tb.objs|
      requires forall o :: 0 <= o < |tb.objs| ==> tb'.objs[o].kind == tb.objs[o].kind
      ensures CellsOK(tb')
      ensures NamesOK(tb) && tb'.tasks == tb.tasks ==> NamesOK(tb')
    {
    }

    lemma SameLives(tb: Table, tb': Table)
      requires ProcessesOK(tb) && |tb'.objs| == |tb.objs|
      requires forall o :: 0 <= o < |tb.objs| ==> tb'.objs[o].life == tb.objs[o].life
      ensures ProcessesOK(tb')
    {
      forall o | 0 <= o < |procs| ensures ProcessOK(tb', procs[o], o) {
        assert ProcessOK(tb, procs[o], o);
      }
    }

    lemma SameChannels(tb: Table, tb': Table)
      requires ChannelsOK(tb) && ChansOnce(tb') && tb'.chans == tb.chans && tb'.closes == tb.closes
      ensures ChannelsOK(tb')
    {
    }

    // Only the map of tasks differs.
    lemma SameObjects(tb: Table, tb': Table)
      requires ProcessesOK(tb) && CellsOK(tb) && ChannelsOK(tb) && tb' == tb.(tasks := tb'.tasks)
      ensures ProcessesOK(tb') && CellsOK(tb') && ChannelsOK(tb')
    {
      SameWaiters(tb, tb');
      SameLives(tb, tb');
      SameKinds(tb, tb');
      SameChannels(tb, tb');
    }

    constructor ()
      ensures Valid() && view == INIT.tb && log == []
    {
      tasks, log := map[], [];
      view, procs, cells, chans := INIT.tb, [], [], [];
      new;
      InitSound();
    }

    // ---- bookkeeping ----

    // A new object joins the registry.
    ghost method Grow(p: Process, c: Cell, ob: Obj)
      requires Valid() && p.ref == |view.objs| && p.Is(ob.life) && p.waiters == [] && p !in procs
      requires CellIs(cells + [c], c, p, ob.kind)
      modifies this`view, this`procs, this`cells
      ensures Valid() && view == old(view).(objs := old(view.objs) + [ob])
      ensures procs == old(procs) + [p] && cells == old(cells) + [c]
    {
      ghost var next := view.(objs := view.objs + [ob]);
      SameWaiters(view, next);
      SameChannels(view, next);
      MoreCells(c, p, ob);
      MoreProcesses(p, ob);
      procs, cells, view := procs + [p], cells + [c], next;
    }

    lemma MoreCells(c: Cell, p: Process, ob: Obj)
      requires CellsOK(view) && NamesOK(view) && CellIs(cells + [c], c, p, ob.kind)
      ensures AllCells(cells + [c], procs + [p], view.(objs := view.objs + [ob]))
      ensures AllNames(tasks, cells + [c], view.(objs := view.objs + [ob]))
    {
      forall i | 0 <= i < |cells| ensures CellIs(cells + [c], cells[i], procs[i], view.objs[i].kind) {
        assert CellIs(cells, cells[i], procs[i], view.objs[i].kind);
      }
    }

    lemma MoreProcesses(p: Process, ob: Obj)
      requires ProcessesOK(view) && p.ref == |view.objs| && p.Is(ob.life) && p.waiters == []
      ensures AllProcesses(procs + [p], view.(objs := view.objs + [ob]))
    {
      var next := view.(objs := view.objs + [ob]);
      forall i | 0 <= i < |procs| ensures ProcessOK(next, procs[i], i) {
        assert ProcessOK(view, procs[i], i);
      }
    }

    // An ID is given to a task object.
    method Name(id: Id, ts: TaskState, ghost o: Ref)
      requires Valid() && id !in tasks && o < |cells| && cells[o] == TaskCell(ts) && view.objs[o].kind.id == id
      modifies this`view, this`tasks
      ensures Valid() && view == old(view).(tasks := old(view.tasks)[id := o]) && tasks == old(tasks)[id := ts]
    {
      ghost var next := view.(tasks := view.tasks[id := o]);
      Rename(tasks[id := ts], next);
    }

    method Rename(tasks': map<Id, TaskState>, ghost next: Table)
      requires Valid() && next == view.(tasks := next.tasks) && AllNames(tasks', cells, next)
      modifies this`view, this`tasks
      ensures Valid() && view == next && tasks == tasks'
    {
      SameObjects(view, next);
      tasks, view := tasks', next;
    }

    // Process p has taken on its life in next, and nothing else has changed.
    ghost method Settle(p: Process, next: Table)
      requires CellsOK(view) && NamesOK(view) && ChannelsOK(next) && p.ref < |procs| && procs[p.ref] == p
      requires |next.objs| == |view.objs| && next.tasks == view.tasks
      requires forall o :: 0 <= o < |view.objs| ==> next.objs[o].kind == view.objs[o].kind
      requires forall o :: 0 <= o < |view.objs| && o != p.ref ==>
        ProcessOK(view, procs[o], o) && next.objs[o].life == view.objs[o].life
      requires ProcessOK(next, p, p.ref)
      modifies this`view
      ensures Valid() && view == next
    {
      SameKinds(view, next);
      forall o | 0 <= o < |procs| ensures ProcessOK(next, procs[o], o) {
        assert o != p.ref ==> ProcessOK(view, procs[o], o);
      }
      view := next;
    }

    // ---- task critical sections ----

    // Create's first look.
    method Exists(id: Id) returns (found: bool)
      requires Valid()
      ensures found == (id in view.tasks)
    {
      found := id in tasks;
    }

    // A task just made of this sandbox and bundle.
    ghost predicate IsNew(ts: TaskState, inst: Driver.Instance, bundle: string)
      reads ts, ts.proc
    {
      && ts.inst == inst && ts.bundle == bundle && ts.execs == map[]
      && ts.proc.status == CREATED && ts.proc.exitStatus == 0 && ts.proc.exitedAt == None && ts.proc.waiters == []
    }

    // Create's insertion.
    method InsertNew(id: Id, inst: Driver.Instance, bundle: string)
      requires Valid() && id !in tasks
      modifies this`view, this`procs, this`cells, this`tasks
      ensures Valid() && view == Insert(old(view), id, bundle, inst.vmm.id)
      ensures tasks.Keys == old(tasks).Keys + {id} && IsNew(tasks[id], inst, bundle)
      ensures forall x :: x in old(tasks) ==> tasks[x] == old(tasks)[x]
    {
      ghost var tb, was := view, tasks;
      var ts := Make(id, inst, bundle);
      assert view.objs[|tb.objs|].kind.id == id && tasks == was;
      Name(id, ts, |tb.objs|);
      assert tasks == was[id := ts];
    }

    // The object, not yet in the table.
    method Make(id: Id, inst: Driver.Instance, bundle: string) returns (ts: TaskState)
      requires Valid()
      modifies this`view, this`procs, this`cells
      ensures Valid() && IsNew(ts, inst, bundle) && |cells| == |old(view).objs| + 1
      ensures cells[|old(view).objs|] == TaskCell(ts)
      ensures view == old(view).(objs := old(view).objs + [Obj(Task(id, bundle, inst.vmm.id, map[]), NEW)])
    {
      var proc := new Process(|view.objs|);
      ts := new TaskState(proc, inst, bundle);
      Grow(proc, TaskCell(ts), Obj(Task(id, bundle, inst.vmm.id, map[]), NEW));
    }

    // The lookup with which Start, State, Kill, Delete and Wait begin.
    method Find(id: Id) returns (ts: TaskState?)
      requires Valid()
      ensures ts == null <==> id !in view.tasks
      ensures ts != null ==> id in tasks && ts == tasks[id]
      ensures ts != null ==>
        var o := view.tasks[id];
        o < |view.objs| && ts.proc in procs && procs[o] == ts.proc && ts.proc.ref == o && ts.proc.Is(view.objs[o].life)
      ensures ts != null ==>
        var o := view.tasks[id];
        && IsTask(view, o) && cells[o] == TaskCell(ts) && view.objs[o].kind.id == id
        && view.objs[o].kind.inst == ts.inst.vmm.id && view.objs[o].kind.bundle == ts.bundle
    {
      ts := null;
      if id in tasks {
        ts := tasks[id];
        ghost var o := view.tasks[id];
        assert CellIs(cells, cells[o], procs[o], view.objs[o].kind) && ProcessOK(view, procs[o], o);
      }
    }

    ghost method Publish(e: Event)
      modifies this`log
      ensures log == old(log) + [e]
    {
      log := log + [e];
    }

    // Start, which publishes before it unlocks.
    method Start(id: Id) returns (r: Result<Status>)
      requires Valid()
      modifies this`view, this`log, procs
      ensures Valid()
      ensures id !in old(view.tasks) ==> r == Err(NotFound) && view == old(view) && log == old(log)
      ensures id in old(view.tasks) ==>
        var o := old(view.tasks[id]);
        if old(view.objs[o].life.status) != CREATED
        then r == Err(FailedPrecondition) && view == old(view) && log == old(log)
        else r == Ok(RUNNING) && view == SetRunning(old(view), o) && log == old(log) + [Started(id, o)]
    {
      var ts := Find(id);
      if ts == null {
        r := Err(NotFound);
      } else if ts.proc.status != CREATED {
        r := Err(FailedPrecondition);
      } else {
        Run(id, ts.proc);
        r := Ok(RUNNING);
      }
    }

    method Run(id: Id, p: Process)
      requires Valid() && p in procs
      modifies this`view, this`log, p
      ensures Valid() && view == SetRunning(old(view), p.ref) && log == old(log) + [Started(id, p.ref)]
    {
      Publish(Started(id, p.ref));
      MarkRunning(p);
    }

    method MarkRunning(p: Process)
      requires Valid() && p in procs
      modifies this`view, p
      ensures Valid() && view == SetRunning(old(view), p.ref)
    {
      ghost var next := SetRunning(view, p.ref);
      assert ProcessOK(view, p, p.ref);
      SameWaiters(view, next);
      SameChannels(view, next);
      p.status := RUNNING;
      Settle(p, next);
    }

    // markExited and markExecExited: the first caller stops the object, records its
    // exit, and closes every waiter's channel, none of them a second time.
    method MarkExited(p: Process, code: nat, now: Time) returns (first: bool)
      requires Valid() && p in procs
      modifies this`view, p, chans
      ensures Valid() && view == Exit(old(view), p.ref, code, now)
      ensures p.ref < |old(view).objs| && first == !IsStopped(old(view), p.ref)
    {
      assert ProcessOK(view, p, p.ref);
      first := p.status != STOPPED;
      if first {
        Stop(p, code, now);
      }
    }

    method Stop(p: Process, code: nat, now: Time)
      requires Valid() && p in procs && p.status != STOPPED
      modifies this`view, p, chans
      ensures Valid() && view == Exit(old(view), p.ref, code, now)
    {
      assert ProcessOK(view, p, p.ref);
      ghost var next := Exit(view, p.ref, code, now);
      ExitClosesOnce(view, p.ref, code, now);
      Leave(p, code, now, next);
      Settle(p, next);
    }

    // The fields of the exiting process, and its waiters.
    method Leave(p: Process, code: nat, now: Time, ghost next: Table)
      requires ProcessesOK(view) && ChannelsOK(view) && p in procs && p.status != STOPPED
      requires next == Exit(view, p.ref, code, now) && ChansOnce(next)
      modifies p, chans
      ensures ChannelsOK(next) && ProcessOK(next, p, p.ref)
      ensures forall o :: 0 <= o < |procs| && o != p.ref ==> ProcessOK(view, procs[o], o)
    {
      assert ProcessOK(view, p, p.ref);
      p.status := STOPPED;
      p.exitStatus := code;
      p.exitedAt := Some(now);
      Wake(p, next);
      p.waiters := [];
      forall o | 0 <= o < |procs| && o != p.ref ensures ProcessOK(view, procs[o], o) {
        assert old(ProcessOK(view, procs[o], o));
      }
    }

    method CloseAll(p: Process)
      requires ChannelsOK(view) && p.ref < |view.objs| && WaitersOK(p, view.objs[p.ref].life)
      modifies chans
      ensures forall ch :: ch in chans ==> ch.closed == (old(ch.closed) || ch in p.waiters)
    {
      assert NoDup(Spots(view)(InList(p.ref)));
      ClosedNotListed(view);
      forall k | 0 <= k < |p.waiters| ensures !p.waiters[k].closed {
        assert p.waiters[k].id in view.objs[p.ref].life.waiters;
      }
      for n := 0 to |p.waiters|
        invariant forall k :: n <= k < |p.waiters| ==> !p.waiters[k].closed
        invariant forall ch :: ch in chans ==> ch.closed == (old(ch.closed) || ch in p.waiters[..n])
      {
        p.waiters[n].Close();
      }
      assert p.waiters[..|p.waiters|] == p.waiters;
    }

    ghost predicate WaitersOK(p: Process, l: Life)
      reads this`chans, p
    {
      && |p.waiters| == |l.waiters|
      && forall k :: 0 <= k < |p.waiters| ==> p.waiters[k] in chans && p.waiters[k].id == l.waiters[k]
    }

    // The channels are then as they are after the object's exit.
    method Wake(p: Process, ghost next: Table)
      requires ChannelsOK(view) && p.ref < |view.objs| && WaitersOK(p, view.objs[p.ref].life)
      requires ChansOnce(next) && next.chans == view.chans && next.closes == view.closes + view.objs[p.ref].life.waiters
      modifies chans
      ensures ChannelsOK(next)
    {
      forall i | 0 <= i < |chans| ensures chans[i] in p.waiters <==> i in view.objs[p.ref].life.waiters {
        if i in view.objs[p.ref].life.waiters {
          var k :| 0 <= k < |p.waiters| && view.objs[p.ref].life.waiters[k] == i;
          assert chans[i] == p.waiters[k];
        }
      }
      CloseAll(p);
    }

    // Delete's last section.
    method Remove(id: Id, p: Process) returns (rec: Record)
      requires Valid() && p in procs
      modifies this`view, this`tasks
      ensures Valid() && view == Drop(old(view), id) && p.ref < |view.objs| && rec == view.objs[p.ref].life.rec
      ensures tasks == old(tasks) - {id}
    {
      rec := RecordFor(p);
      Rename(tasks - {id}, Drop(view, id));
    }

    method RecordFor(p: Process) returns (rec: Record)
      requires Valid() && p in procs
      ensures p.ref < |view.objs| && rec == view.objs[p.ref].life.rec
    {
      rec := Record(p.exitStatus, p.exitedAt);
      assert ProcessOK(view, p, p.ref);
    }

    // Wait's first section on an object: its record if it has stopped, else a channel.
    method Enter(p: Process) returns (rec: Option<Record>, ch: Channel?)
      requires Valid() && p in procs
      modifies this`view, this`chans, p
      ensures Valid()
      ensures old(p.status) == STOPPED ==>
        rec == Some(old(view.objs[p.ref].life.rec)) && ch == null && view == old(view)
      ensures old(p.status) != STOPPED ==>
        && rec == None && view == Enlist(old(view), p.ref)
        && ch != null && fresh(ch) && !ch.closed && ch.id == old(view.chans)
    {
      rec, ch := None, null;
      assert ProcessOK(view, p, p.ref);
      if p.status == STOPPED {
        rec := Some(Record(p.exitStatus, p.exitedAt));
      } else {
        ghost var next := Enlist(view, p.ref);
        ch := new Channel(view.chans);
        p.waiters := p.waiters + [ch];
        chans := chans + [ch];
        forall o | 0 <= o < |procs| && o != p.ref ensures ProcessOK(view, procs[o], o) {
          assert old(ProcessOK(view, procs[o], o));
        }
        assert ChannelsOK(next) by {
          EnlistOnce(view, p.ref);
          assert view.chans in view.closes ==> view.chans in Spots(view)(Closed);
        }
        Settle(p, next);
      }
    }

    // ---- exec critical sections ----

    // No other entry of the registry is this task object.
    lemma OneCellEach(ts: TaskState)
      requires ProcessesOK(view) && CellsOK(view)
      ensures forall i :: 0 <= i < |cells| && i != ts.proc.ref && cells[i].TaskCell? ==> cells[i].ts != ts
    {
      forall i | 0 <= i < |cells| && cells[i] == TaskCell(ts) ensures i == ts.proc.ref {
        assert CellIs(cells, cells[i], procs[i], view.objs[i].kind) && ProcessOK(view, procs[i], i);
      }
    }

    // A task object's table of execs is replaced.
    method Relist(ts: TaskState, execs: map<Id, ExecState>, ghost refs: map<Id, Ref>)
      requires Valid() && ts.proc.ref < |cells| && cells[ts.proc.ref] == TaskCell(ts) && IsTask(view, ts.proc.ref)
      requires execs.Keys == refs.Keys
      requires forall x :: x in execs ==> refs[x] < |cells| && cells[refs[x]] == ExecCell(execs[x])
      modifies this`view, ts
      ensures Valid() && view == WithExecs(old(view), ts.proc.ref, refs) && ts.execs == execs
    {
      ghost var o := ts.proc.ref;
      ghost var next := WithExecs(view, o, refs);
      SameWaiters(view, next);
      SameLives(view, next);
      SameChannels(view, next);
      assert NamesOK(next);
      SetExecs(ts, execs, refs);
      view := next;
    }

    method SetExecs(ts: TaskState, execs: map<Id, ExecState>, ghost refs: map<Id, Ref>)
      requires ProcessesOK(view) && CellsOK(view)
      requires ts.proc.ref < |cells| && cells[ts.proc.ref] == TaskCell(ts) && IsTask(view, ts.proc.ref)
      requires execs.Keys == refs.Keys
      requires forall x :: x in execs ==> refs[x] < |cells| && cells[refs[x]] == ExecCell(execs[x])
      modifies ts
      ensures ts.execs == execs && CellsOK(WithExecs(view, ts.proc.ref, refs))
    {
      ghost var o := ts.proc.ref;
      ghost var next := WithExecs(view, o, refs);
      OneCellEach(ts);
      assert ts.proc == procs[o] by { assert CellIs(cells, cells[o], procs[o], view.objs[o].kind); }
      ts.execs := execs;
      forall i | 0 <= i < |cells| && i != o ensures CellIs(cells, cells[i], procs[i], next.objs[i].kind) {
        assert old(CellIs(cells, cells[i], procs[i], view.objs[i].kind));
      }
    }

    // The service has what the request names.
    ghost predicate Has(target: Target)
      reads this`tasks, if target.task in tasks then {tasks[target.task]} else {}
    {
      target.task in tasks && (target.OnExec? ==> target.exec in tasks[target.task].execs)
    }

    // The lookup with which every exec RPC begins.
    method FindExec(id: Id, exec: Id) returns (ts: TaskState?, es: ExecState?)
      requires Valid()
      ensures es == null <==> !Has(OnExec(id, exec))
      ensures es != null ==> id in tasks && exec in tasks[id].execs && es == tasks[id].execs[exec]
      ensures es == null <==> Resolve(view, OnExec(id, exec)) == None
      ensures es != null ==>
        && ts != null && id in view.tasks && ts.proc.ref == view.tasks[id] && IsTask(view, ts.proc.ref)
        && ts.proc.ref < |cells| && cells[ts.proc.ref] == TaskCell(ts)
        && Resolve(view, OnExec(id, exec)) == Some(es.proc.ref) && IsExec(view, es.proc.ref)
        && es.proc in procs && es.proc.Is(view.objs[es.proc.ref].life)
        && view.objs[es.proc.ref].kind.args == es.args
        && view.objs[es.proc.ref].kind.stdout == es.stdout && view.objs[es.proc.ref].kind.stderr == es.stderr
        && id in tasks && ts == tasks[id] && view.objs[ts.proc.ref].kind.inst == ts.inst.vmm.id
        && view.objs[ts.proc.ref].kind.bundle == ts.bundle
    {
      ts := Find(id);
      es := null;
      if ts != null {
        ghost var o := view.tasks[id];
        assert CellIs(cells, cells[o], procs[o], view.objs[o].kind);
        if exec in ts.execs {
          es := ts.execs[exec];
          ghost var e := view.objs[o].kind.execs[exec];
          assert CellIs(cells, cells[e], procs[e], view.objs[e].kind) && ProcessOK(view, procs[e], e);
        }
      }
    }

    // State, of a task or of an exec.
    method State(target: Target) returns (r: Result<Report>)
      requires Valid()
      ensures r == Err(NotFound) <==> !Has(target)
      ensures Resolve(view, target) == None ==> r == Err(NotFound)
      ensures Resolve(view, target).Some? ==>
        var o, p := view.tasks[target.task], Resolve(view, target).value;
        && IsTask(view, o) && p < |view.objs|
        && var bundle, l, k := view.objs[o].kind.bundle, view.objs[p].life, view.objs[p].kind;
           if target.OnTask? then r == Ok(Report(target.task, bundle, l.status, "", "", l.rec))
           else k.Exec? && r == Ok(Report(target.exec, bundle, l.status, k.stdout, k.stderr, l.rec))
    {
      r := Err(NotFound);
      if target.OnTask? {
        var ts := Find(target.task);
        if ts != null {
          r := Ok(Report(target.task, ts.bundle, ts.proc.status, "", "", Record(ts.proc.exitStatus, ts.proc.exitedAt)));
        }
      } else {
        var ts, es := FindExec(target.task, target.exec);
        if es != null {
          var p := es.proc;
          r := Ok(Report(target.exec, ts.bundle, p.status, es.stdout, es.stderr, Record(p.exitStatus, p.exitedAt)));
        }
      }
    }

    // The process a Wait addresses, if the table has it.
    method Look(target: Target) returns (p: Process?)
      requires Valid()
      ensures p == null <==> !Has(target)
      ensures p == null <==> Resolve(view, target) == None
      ensures p != null ==>
        && p in procs && p.ref < |view.objs| && Resolve(view, target) == Some(p.ref) && p.Is(view.objs[p.ref].life)
    {
      p := null;
      if target.OnTask? {
        var ts := Find(target.task);
        if ts != null { p := ts.proc; }
      } else {
        var ts, es := FindExec(target.task, target.exec);
        if es != null { p := es.proc; }
      }
    }

    // Wait up to where it blocks: the record of a stopped object, else a channel to block on.
    method Wait(target: Target) returns (r: Result<Record>, ch: Channel?)
      requires Valid()
      modifies this`view, this`chans, procs
      ensures Valid()
      ensures r == Err(NotFound) && ch == null <==> !old(Has(target))
      ensures Resolve(old(view), target) == None ==> r == Err(NotFound) && ch == null && view == old(view)
      ensures Resolve(old(view), target).Some? ==>
        var o := Resolve(old(view), target).value;
        && o < |old(view).objs|
        && if IsStopped(old(view), o) then r == Ok(old(view).objs[o].life.rec) && ch == null && view == old(view)
           else ch != null && fresh(ch) && !ch.closed && ch.id == old(view).chans && view == Enlist(old(view), o)
    {
      r, ch := Err(NotFound), null;
      var p := Look(target);
      if p != null {
        var rec;
        rec, ch := Enter(p);
        r := if rec.Some? then Ok(rec.value) else r;
      }
    }

    // From tb to tb' a CREATED exec was made of the request, which its name finds.
    static ghost predicate Registered(tb: Table, r: ExecRequest, tb': Table) {
      var e := |tb.objs|;
      && Resolve(tb', OnExec(r.task, r.exec)) == Some(e) && |tb'.objs| == e + 1 && r.task in tb.tasks
      && tb'.objs[e].life == Life(CREATED, Record(0, None), [])
      && tb'.objs[e].kind == Exec(r.task, r.exec, tb.tasks[r.task], r.args, r.stdout, r.stderr)
    }

    static lemma Listed(tb: Table, r: ExecRequest)
      requires r.task in tb.tasks && IsTask(tb, tb.tasks[r.task]) && tb.objs[tb.tasks[r.task]].kind.id == r.task
      ensures Registered(tb, r, AddExec(tb, tb.tasks[r.task], r.exec, r.args, r.stdout, r.stderr))
    {
    }

    // Exec: the checks made before the lock, then the registration.
    method Register(r: ExecRequest) returns (error: Option<Error>)
      requires Valid()
      modifies this`view, this`procs, this`cells, set id | id in tasks :: tasks[id]
      ensures Valid()
      ensures r.task in old(view.tasks) ==> IsTask(old(view), old(view.tasks[r.task]))
      ensures error ==
        if r.exec == "" || !r.hasSpec || !r.parses then Some(InvalidArgument)
        else if r.terminal || r.specTerminal then Some(Unimplemented)
        else if r.args == [] then Some(InvalidArgument)
        else if r.stdin != "" then Some(Unimplemented)
        else if r.task !in old(view.tasks) then Some(NotFound)
        else if old(view).objs[old(view).tasks[r.task]].life.status != RUNNING then Some(FailedPrecondition)
        else if r.exec in old(view).objs[old(view).tasks[r.task]].kind.execs then Some(AlreadyExists)
        else None
      ensures error == None ==> Registered(old(view), r, view)
      ensures view == if error.Some? then old(view)
                      else AddExec(old(view), old(view).tasks[r.task], r.exec, r.args, r.stdout, r.stderr)
    {
      error := Check(r);
      if error == None {
        var ts := Find(r.task);
        if ts == null {
          error := Some(NotFound);
        } else if ts.proc.status != RUNNING {
          error := Some(FailedPrecondition);
        } else {
          error := Add(ts, r);
          Listed(old(view), r);
        }
      }
    }

    method Check(r: ExecRequest) returns (error: Option<Error>)
      ensures error == Validate(r)
      ensures error == None <==> ShimCalls.Acceptable(r)
      ensures error == Some(InvalidArgument) <==>
        r.exec == "" || !r.hasSpec || !r.parses || (!r.terminal && !r.specTerminal && r.args == [])
    {
      if r.exec == "" { return Some(InvalidArgument); }
      if !r.hasSpec { return Some(InvalidArgument); }
      if !r.parses { return Some(InvalidArgument); }
      if r.terminal || r.specTerminal { return Some(Unimplemented); }
      if |r.args| == 0 { return Some(InvalidArgument); }
      if r.stdin != "" { return Some(Unimplemented); }
      error := None;
    }

    // A new exec of a task, unless the name is taken.
    method Add(ts: TaskState, r: ExecRequest) returns (error: Option<Error>)
      requires Valid() && ts.proc.ref < |cells| && cells[ts.proc.ref] == TaskCell(ts) && IsTask(view, ts.proc.ref)
      modifies this`view, this`procs, this`cells, ts
      ensures Valid()
      ensures error == if r.exec in old(view).objs[ts.proc.ref].kind.execs then Some(AlreadyExists) else None
      ensures view == if error.Some? then old(view)
                      else AddExec(old(view), ts.proc.ref, r.exec, r.args, r.stdout, r.stderr)
    {
      ghost var o := ts.proc.ref;
      assert CellIs(cells, cells[o], procs[o], view.objs[o].kind);
      if r.exec in ts.execs {
        return Some(AlreadyExists);
      }
      error := None;
      ghost var e: Ref := |view.objs|;
      ghost var execs := view.objs[o].kind.execs;
      var proc := new Process(e);
      var es := new ExecState(proc, r.args, r.stdout, r.stderr);
      Grow(proc, ExecCell(es), Obj(Exec(view.objs[o].kind.id, r.exec, o, r.args, r.stdout, r.stderr), NEW));
      assert CellIs(cells, cells[o], procs[o], view.objs[o].kind);
      Relist(ts, ts.execs[r.exec := es], execs[r.exec := e]);
      GrownThenListed(old(view), o, r);
    }

    // AddExec, the object first and its name second.
    static lemma GrownThenListed(tb: Table, o: Ref, r: ExecRequest)
      requires IsTask(tb, o)
      ensures var ob := Obj(Exec(tb.objs[o].kind.id, r.exec, o, r.args, r.stdout, r.stderr), NEW);
        WithExecs(tb.(objs := tb.objs + [ob]), o, tb.objs[o].kind.execs[r.exec := |tb.objs|]) ==
        AddExec(tb, o, r.exec, r.args, r.stdout, r.stderr)
    {
      var ob := Obj(Exec(tb.objs[o].kind.id, r.exec, o, r.args, r.stdout, r.stderr), NEW);
      assert WithExecs(tb.(objs := tb.objs + [ob]), o, tb.objs[o].kind.execs[r.exec := |tb.objs|]).objs ==
             AddExec(tb, o, r.exec, r.args, r.stdout, r.stderr).objs;
    }

    // startExec: the exec is running from here on; its goroutine gets what it needs.
    method StartExec(id: Id, exec: Id) returns (r: Result<Command>)
      requires Valid()
      modifies this`view, procs
      ensures Valid() && (r == Err(NotFound) <==> !old(Has(OnExec(id, exec))))
      ensures Resolve(old(view), OnExec(id, exec)) == None ==> r == Err(NotFound) && view == old(view)
      ensures Resolve(old(view), OnExec(id, exec)).Some? ==>
        var e := Resolve(old(view), OnExec(id, exec)).value;
        IsExec(old(view), e) &&
        if old(view).objs[e].life.status != CREATED then r == Err(FailedPrecondition) && view == old(view)
        else
          && view == SetRunning(old(view), e)
          && var k := old(view).objs[e].kind;
             id in old(tasks) && r == Ok(Command(old(tasks)[id].inst, k.args, k.stdout, k.stderr))
             && IsTask(old(view), old(view.tasks[id]))
             && r.value.inst.vmm.id == old(view).objs[old(view.tasks[id])].kind.inst
    {
      var ts, es := FindExec(id, exec);
      if es == null {
        r := Err(NotFound);
      } else if es.proc.status != CREATED {
        r := Err(FailedPrecondition);
      } else {
        MarkRunning(es.proc);
        r := Ok(Command(ts.inst, es.args, es.stdout, es.stderr));
      }
    }

    // deleteExec: a running exec is not reaped.
    method DeleteExec(id: Id, exec: Id) returns (r: Result<Record>)
      requires Valid()
      modifies this`view, set x | x in tasks :: tasks[x]
      ensures Valid() && (r == Err(NotFound) <==> !old(Has(OnExec(id, exec)))) && (r.Ok? ==> !Has(OnExec(id, exec)))
      ensures Resolve(old(view), OnExec(id, exec)) == None ==> r == Err(NotFound) && view == old(view)
      ensures Resolve(old(view), OnExec(id, exec)).Some? ==>
        var e := Resolve(old(view), OnExec(id, exec)).value;
        IsExec(old(view), e) && IsTask(old(view), old(view).tasks[id]) &&
        if old(view).objs[e].life.status == RUNNING then r == Err(FailedPrecondition) && view == old(view)
        else r == Ok(old(view).objs[e].life.rec) && view == DropExec(old(view), old(view).tasks[id], exec)
    {
      var ts, es := FindExec(id, exec);
      if es == null {
        r := Err(NotFound);
      } else if es.proc.status == RUNNING {
        r := Err(FailedPrecondition);
      } else {
        r := Ok(Record(es.proc.exitStatus, es.proc.exitedAt));
        Unlist(ts, exec);
      }
    }

    method Unlist(ts: TaskState, exec: Id)
      requires Valid() && ts.proc.ref < |cells| && cells[ts.proc.ref] == TaskCell(ts) && IsTask(view, ts.proc.ref)
      modifies this`view, ts
      ensures Valid() && view == DropExec(old(view), ts.proc.ref, exec) && ts.execs == old(ts.execs) - {exec}
    {
      ghost var o := ts.proc.ref;
      assert CellIs(cells, cells[o], procs[o], view.objs[o].kind);
      Relist(ts, ts.execs - {exec}, view.objs[o].kind.execs - {exec});
    }

    // killExec only tells a known exec from an unknown one.
    method KillExec(id: Id, exec: Id) returns (error: Error)
      requires Valid()
      ensures error == if Has(OnExec(id, exec)) then Unimplemented else NotFound
    {
      var ts, es := FindExec(id, exec);
      error := if es == null then NotFound else Unimplemented;
    }

    // ---- whole RPCs, undisturbed ----

    // Create after the build, whatever happened meanwhile: the instance is inserted and
    // announced, or, if another Create won the race, stopped.
    method Admit(id: Id, bundle: string, built: Driver.Instance) returns (ok: bool)
      requires Valid()
      modifies this`view, this`log, this`procs, this`cells, this`tasks, built, built.vmm
      ensures Valid() && ok == (id !in old(view.tasks))
      ensures ok ==> view == Insert(old(view), id, bundle, built.vmm.id) && built.state == old(built.state)
      ensures ok ==> log == old(log) + [Created(id, |old(view).objs|)]
      ensures ok ==> id in tasks && IsNew(tasks[id], built, bundle)
      ensures forall x :: x in old(tasks) ==> x in tasks && tasks[x] == old(tasks)[x]
      ensures !ok ==> view == old(view) && log == old(log) && built.state == Driver.Stopped && !built.vmm.alive
    {
      ok := id !in tasks;
      if !ok {
        built.Stop();
        return;
      }
      InsertAnnounced(id, built, bundle);
    }

    method InsertAnnounced(id: Id, inst: Driver.Instance, bundle: string)
      requires Valid() && id !in tasks
      modifies this`view, this`log, this`procs, this`cells, this`tasks
      ensures Valid() && view == Insert(old(view), id, bundle, inst.vmm.id)
      ensures log == old(log) + [Created(id, |old(view).objs|)]
      ensures tasks.Keys == old(tasks).Keys + {id} && IsNew(tasks[id], inst, bundle)
      ensures forall x :: x in old(tasks) ==> tasks[x] == old(tasks)[x]
    {
      ghost var e := Created(id, |view.objs|);
      InsertNew(id, inst, bundle);
      Publish(e);
    }

    // Create, given what the Manager built, undisturbed.
    method Create(id: Id, bundle: string, built: Driver.Instance?) returns (r: Result<()>)
      requires Valid()
      modifies this`view, this`log, this`procs, this`cells, this`tasks
      modifies if built == null then {} else {built, built.vmm}
      ensures Valid()
      ensures r == if id == "" then Err(InvalidArgument)
                   else if id in old(view.tasks) then Err(AlreadyExists)
                   else if built == null then Err(BuildFailed) else Ok(())
      ensures r.Err? ==> view == old(view) && log == old(log)
      ensures r.Ok? ==> view == Insert(old(view), id, bundle, built.vmm.id) && built.state == old(built.state)
      ensures r.Ok? ==> log == old(log) + [Created(id, |old(view).objs|)]
      ensures r.Ok? ==> id in tasks && IsNew(tasks[id], built, bundle)
      ensures forall x :: x in old(tasks) ==> x in tasks && tasks[x] == old(tasks)[x]
    {
      if id == "" {
        return Err(InvalidArgument);
      }
      var found := Exists(id);
      if found {
        return Err(AlreadyExists);
      }
      if built == null {
        return Err(BuildFailed);
      }
      var ok := Admit(id, bundle, built);
      r := if ok then Ok(()) else Err(AlreadyExists);
    }

    method Kill(id: Id, signal: nat, now: Time) returns (r: Result<()>)
      requires Valid()
      modifies this`view, this`log, procs, chans, set x | x in tasks :: tasks[x].inst
      modifies set x | x in tasks :: tasks[x].inst.vmm
      ensures Valid()
      ensures id !in old(view.tasks) ==> r == Err(NotFound) && view == old(view) && log == old(log)
      ensures id in old(view.tasks) ==>
        var o := old(view.tasks[id]);
        && r == Ok(()) && o < |old(view).objs| && old(tasks)[id].inst.state == Driver.Stopped
        && view == Exit(old(view), o, KillCode(signal), now)
        && log == old(log) +
                  if IsStopped(old(view), o) then [] else [Exited(id, id, o, Record(KillCode(signal), Some(now)))]
    {
      var ts := Find(id);
      if ts == null {
        r := Err(NotFound);
      } else {
        End(id, ts, KillCode(signal), now);
        r := Ok(());
      }
    }

    // Stop the sandbox, mark the exit, publish it: what Kill and Delete share.
    method End(id: Id, ts: TaskState, code: nat, now: Time)
      requires Valid() && ts.proc in procs
      modifies this`view, this`log, ts.inst, ts.inst.vmm, ts.proc, chans
      ensures Valid() && ts.inst.state == Driver.Stopped
      ensures ts.proc.ref < |old(view).objs| && view == Exit(old(view), ts.proc.ref, code, now)
      ensures log == old(log) + if IsStopped(old(view), ts.proc.ref) then []
                                else [Exited(id, id, ts.proc.ref, Record(code, Some(now)))]
    {
      ts.inst.Stop();
      Announce(id, ts.proc, code, now);
    }

    method Announce(id: Id, p: Process, code: nat, now: Time)
      requires Valid() && p in procs
      modifies this`view, this`log, p, chans
      ensures Valid() && p.ref < |old(view).objs| && view == Exit(old(view), p.ref, code, now)
      ensures log == old(log) +
                     if IsStopped(old(view), p.ref) then [] else [Exited(id, id, p.ref, Record(code, Some(now)))]
    {
      var first := MarkExited(p, code, now);
      if first {
        Publish(Exited(id, id, p.ref, Record(code, Some(now))));
      }
    }

    method Delete(id: Id, now: Time) returns (r: Result<Record>)
      requires Valid()
      modifies this`view, this`log, this`tasks, procs, chans, set x | x in tasks :: tasks[x].inst
      modifies set x | x in tasks :: tasks[x].inst.vmm
      ensures Valid()
      ensures id !in old(view.tasks) ==> r == Err(NotFound) && view == old(view) && log == old(log)
      ensures id in old(view.tasks) ==>
        var o := old(view.tasks[id]);
        && o < |old(view).objs| && old(tasks)[id].inst.state == Driver.Stopped
        && var rec := if IsStopped(old(view), o) then old(view).objs[o].life.rec else Record(0, Some(now));
           && view == Drop(Exit(old(view), o, 0, now), id) && r == Ok(rec)
           && log == old(log)
                     + (if IsStopped(old(view), o) then [] else [Exited(id, id, o, rec)]) + [Deleted(id, o, rec)]
    {
      var ts := Find(id);
      if ts == null {
        r := Err(NotFound);
      } else {
        var rec := TearDown(id, ts, now);
        r := Ok(rec);
      }
    }

    // End the task, remove it, publish that.
    method TearDown(id: Id, ts: TaskState, now: Time) returns (rec: Record)
      requires Valid() && ts.proc in procs
      modifies this`view, this`log, this`tasks, ts.inst, ts.inst.vmm, ts.proc, chans
      ensures Valid() && ts.inst.state == Driver.Stopped && ts.proc.ref < |old(view).objs|
      ensures view == Drop(Exit(old(view), ts.proc.ref, 0, now), id)
      ensures var o := ts.proc.ref;
        rec == if IsStopped(old(view), o) then old(view).objs[o].life.rec else Record(0, Some(now))
      ensures log == old(log)
        + (if IsStopped(old(view), ts.proc.ref) then [] else [Exited(id, id, ts.proc.ref, rec)])
        + [Deleted(id, ts.proc.ref, rec)]
    {
      rec := Reap(id, ts, now);
      Publish(Deleted(id, ts.proc.ref, rec));
    }

    method Reap(id: Id, ts: TaskState, now: Time) returns (rec: Record)
      requires Valid() && ts.proc in procs
      modifies this`view, this`log, this`tasks, ts.inst, ts.inst.vmm, ts.proc, chans
      ensures Valid() && ts.inst.state == Driver.Stopped && ts.proc.ref < |old(view).objs|
      ensures view == Drop(Exit(old(view), ts.proc.ref, 0, now), id)
      ensures var o := ts.proc.ref;
        rec == if IsStopped(old(view), o) then old(view).objs[o].life.rec else Record(0, Some(now))
      ensures log == old(log) + if IsStopped(old(view), ts.proc.ref) then [] else [Exited(id, id, ts.proc.ref, rec)]
    {
      End(id, ts, 0, now);
      ExitRecord(old(view), ts.proc.ref, 0, now);
      rec := Remove(id, ts.proc);
    }

    static lemma ExitRecord(tb: Table, o: Ref, code: nat, now: Time)
      requires o < |tb.objs|
      ensures |Exit(tb, o, code, now).objs| == |tb.objs|
      ensures Exit(tb, o, code, now).objs[o].life.rec ==
              if IsStopped(tb, o) then tb.objs[o].life.rec else Record(code, Some(now))
    {
    }
  }
}
