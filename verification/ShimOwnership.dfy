// Who holds what: every sandbox a Create obtained is with one task object, in that
// Create's hands, or stopped by it; and every task object is in the table or removed.
module ShimOwnership {
  import opened Common
  import opened Placement
  import opened Shim
  import opened ShimFacts
  import opened ShimWaiters

  // ---- sandboxes ----

  function HeldBy(tb: Table, o: Ref): seq<Sandbox> {
    if IsTask(tb, o) then [tb.objs[o].kind.inst] else []
  }

  function InHands(threads: map<Tid, Thread>, t: Tid): seq<Sandbox> {
    if t in threads && threads[t].Creating? && (threads[t].cp.Inserting? || threads[t].cp.Losing?)
    then [threads[t].cp.sb] else []
  }

  datatype Spot = WithTask(o: Ref) | InHandsOf(t: Tid) | Discarded

  ghost function Spots(w: World): Spot -> seq<Sandbox> {
    (s: Spot) => match s
                 case WithTask(o) => HeldBy(w.tb, o)
                 case InHandsOf(t) => InHands(w.threads, t)
                 case Discarded => w.lost
  }

  ghost predicate SandboxesOnce(w: World) {
    && Partition(Spots(w), Made(|w.stopped|))
    && forall sb :: sb in w.lost ==> sb < |w.stopped| && w.stopped[sb]
  }

  lemma OtherStep(w: World, w': World)
    requires SandboxesOnce(w) && w'.lost == w.lost && |w'.stopped| == |w.stopped| && Grows(w.stopped, w'.stopped)
    requires forall o :: HeldBy(w'.tb, o) == HeldBy(w.tb, o)
    requires forall t :: InHands(w'.threads, t) == InHands(w.threads, t)
    ensures SandboxesOnce(w')
  {
    Stayed(Spots(w), Spots(w'), Made(|w.stopped|));
  }

  lemma BuildStep(w: World, t: Tid, id: Id, bundle: string)
    requires SandboxesOnce(w) && InHands(w.threads, t) == []
    ensures SandboxesOnce(Goto(w.(stopped := w.stopped + [false]), t, Creating(id, bundle, Inserting(|w.stopped|))))
  {
    var w' := Goto(w.(stopped := w.stopped + [false]), t, Creating(id, bundle, Inserting(|w.stopped|)));
    forall u | u != t ensures InHands(w'.threads, u) == InHands(w.threads, u) {}
    var sb: Sandbox := |w.stopped|;
    Born(Spots(w), Spots(w'), Made(|w.stopped|), InHandsOf(t), sb);
    assert Made(sb + 1) == Made(sb) + {sb};
  }

  lemma InsertStep(w: World, t: Tid, id: Id, bundle: string, sb: Sandbox)
    requires SandboxesOnce(w) && InHands(w.threads, t) == [sb]
    ensures var th := Creating(id, bundle, Announcing(|w.tb.objs|));
      SandboxesOnce(Goto(w.(tb := Insert(w.tb, id, bundle, sb)), t, th))
  {
    var w' := Goto(w.(tb := Insert(w.tb, id, bundle, sb)), t, Creating(id, bundle, Announcing(|w.tb.objs|)));
    forall u | u != t ensures InHands(w'.threads, u) == InHands(w.threads, u) {}
    forall o | o != |w.tb.objs| ensures HeldBy(w'.tb, o) == HeldBy(w.tb, o) {}
    MovedAll(Spots(w), Spots(w'), Made(|w.stopped|), InHandsOf(t), WithTask(|w.tb.objs|));
  }

  lemma LoseStep(w: World, t: Tid, sb: Sandbox, th: Thread)
    requires SandboxesOnce(w) && InHands(w.threads, t) == [sb] && sb < |w.stopped| && th.Done?
    ensures SandboxesOnce(Goto(w.(stopped := w.stopped[sb := true], lost := w.lost + [sb]), t, th))
  {
    var w' := Goto(w.(stopped := w.stopped[sb := true], lost := w.lost + [sb]), t, th);
    forall u | u != t ensures InHands(w'.threads, u) == InHands(w.threads, u) {}
    MovedOnto(Spots(w), Spots(w'), Made(|w.stopped|), InHandsOf(t), Discarded);
  }

  lemma CreateKeepsSandboxes(w: World, t: Tid, c: Choice)
    requires WF(w) && CanStep(w, t, c) && SandboxesOnce(w) && w.threads[t].Creating?
    ensures SandboxesOnce(Advance(w, t, c))
  {
    var w' := Advance(w, t, c);
    var th := w.threads[t];
    if th.cp.Building? && c.ok {
      BuildStep(w, t, th.id, th.bundle);
    } else if th.cp.Inserting? && th.id !in w.tb.tasks {
      InsertStep(w, t, th.id, th.bundle, th.cp.sb);
    } else if th.cp.Losing? {
      LoseStep(w, t, th.cp.sb, w'.threads[t]);
    } else {
      OtherStep(w, w');
    }
  }

  lemma CallHoldsSame(w: World, t: Tid, rpc: Rpc, c: Choice)
    requires WF(w)
    ensures var w' := CallStep(w, t, rpc, c);
      && w'.stopped == w.stopped && w'.lost == w.lost && w'.removed == w.removed && w'.tb.tasks == w.tb.tasks
      && |w.tb.objs| <= |w'.tb.objs| && forall o :: HeldBy(w'.tb, o) == HeldBy(w.tb, o)
  {
    CallTable(w, t, rpc, c);
  }

  lemma CallKeepsSandboxes(w: World, t: Tid, rpc: Rpc, c: Choice)
    requires WF(w) && SandboxesOnce(w) && InHands(w.threads, t) == [] && InHands(w.threads, c.child) == []
    ensures SandboxesOnce(CallStep(w, t, rpc, c))
  {
    CallHoldsSame(w, t, rpc, c);
    CallThreads(w, t, rpc, c);
    OtherStep(w, CallStep(w, t, rpc, c));
  }

  lemma RestHoldsSame(w: World, t: Tid, c: Choice)
    requires WF(w) && CanStep(w, t, c) && !w.threads[t].Creating? && !w.threads[t].Calling?
    ensures var w' := Advance(w, t, c);
      && |w'.stopped| == |w.stopped| && w'.lost == w.lost && Grows(w.stopped, w'.stopped)
      && forall o :: HeldBy(w'.tb, o) == HeldBy(w.tb, o)
  {
  }

  lemma RestKeepsSandboxes(w: World, t: Tid, c: Choice)
    requires WF(w) && CanStep(w, t, c) && SandboxesOnce(w) && !w.threads[t].Creating? && !w.threads[t].Calling?
    ensures SandboxesOnce(Advance(w, t, c))
  {
    RestHoldsSame(w, t, c);
    OtherStep(w, Advance(w, t, c));
  }

  lemma StepKeepsSandboxes(w: World, a: Action)
    requires Can(w, a) && SandboxesOnce(w)
    ensures SandboxesOnce(Do(w, a))
  {
    match a
    case Call(t, th) => OtherStep(w, Do(w, a));
    case Step(t, c) =>
      match w.threads[t] {
        case Creating(_, _, _) => CreateKeepsSandboxes(w, t, c);
        case Calling(rpc) =>
          if rpc.StartExec? {
            CallKeepsSandboxes(w, t, rpc, c);
          } else {
            CallHoldsSame(w, t, rpc, c);
            CallThreads(w, t, rpc, c);
            OtherStep(w, Do(w, a));
          }
        case _ => RestKeepsSandboxes(w, t, c);
      }
  }

  // ---- task objects ----

  datatype Slot = Named(id: Id) | Gone

  ghost function Slots(tb: Table, removed: seq<Ref>): Slot -> seq<Ref> {
    (s: Slot) => match s
                 case Named(id) => if id in tb.tasks then [tb.tasks[id]] else []
                 case Gone => removed
  }

  ghost function TaskRefs(tb: Table): set<Ref> { set o | 0 <= o < |tb.objs| && IsTask(tb, o) }

  ghost predicate TasksOnce(tb: Table, removed: seq<Ref>) { Partition(Slots(tb, removed), TaskRefs(tb)) }

  lemma InsertOnce(tb: Table, removed: seq<Ref>, id: Id, bundle: string, sb: Sandbox)
    requires TasksOnce(tb, removed) && id !in tb.tasks
    ensures TasksOnce(Insert(tb, id, bundle, sb), removed)
  {
    var tb' := Insert(tb, id, bundle, sb);
    var o: Ref := |tb.objs|;
    assert TaskRefs(tb') == TaskRefs(tb) + {o};
    Born(Slots(tb, removed), Slots(tb', removed), TaskRefs(tb), Named(id), o);
  }

  lemma DropOnce(tb: Table, removed: seq<Ref>, id: Id)
    requires TasksOnce(tb, removed)
    ensures TasksOnce(Drop(tb, id), if id in tb.tasks then removed + [tb.tasks[id]] else removed)
  {
    var removed' := if id in tb.tasks then removed + [tb.tasks[id]] else removed;
    assert TaskRefs(Drop(tb, id)) == TaskRefs(tb);
    MovedOnto(Slots(tb, removed), Slots(Drop(tb, id), removed'), TaskRefs(tb), Named(id), Gone);
  }

  lemma SameTasks(tb: Table, removed: seq<Ref>, tb': Table)
    requires TasksOnce(tb, removed) && tb'.tasks == tb.tasks && |tb.objs| <= |tb'.objs|
    requires forall o :: 0 <= o < |tb'.objs| ==> IsTask(tb', o) == IsTask(tb, o)
    ensures TasksOnce(tb', removed)
  {
    assert TaskRefs(tb') == TaskRefs(tb);
    Stayed(Slots(tb, removed), Slots(tb', removed), TaskRefs(tb));
  }

  lemma CallKeepsTasks(w: World, t: Tid, rpc: Rpc, c: Choice)
    requires WF(w) && TasksOnce(w.tb, w.removed)
    ensures var w' := CallStep(w, t, rpc, c); TasksOnce(w'.tb, w'.removed)
  {
    var w' := CallStep(w, t, rpc, c);
    CallHoldsSame(w, t, rpc, c);
    forall o | 0 <= o < |w'.tb.objs| ensures IsTask(w'.tb, o) == IsTask(w.tb, o) {
      assert HeldBy(w'.tb, o) == HeldBy(w.tb, o);
    }
    SameTasks(w.tb, w.removed, w'.tb);
  }

  lemma StepKeepsTasks(w: World, a: Action)
    requires Can(w, a) && TasksOnce(w.tb, w.removed)
    ensures var w' := Do(w, a); TasksOnce(w'.tb, w'.removed)
  {
    var w' := Do(w, a);
    if a.Step? {
      match w.threads[a.t] {
        case Creating(id, bundle, pc) =>
          if pc.Inserting? && id !in w.tb.tasks { InsertOnce(w.tb, w.removed, id, bundle, pc.sb); }
        case Calling(rpc) => CallKeepsTasks(w, a.t, rpc, a.c);
        case Removing(id, _) => DropOnce(w.tb, w.removed, id);
        case _ => SameTasks(w.tb, w.removed, w'.tb);
      }
    }
  }

  // ---- over every run ----

  ghost predicate Owned(w: World) { SandboxesOnce(w) && TasksOnce(w.tb, w.removed) }

  lemma InitOwned()
    ensures Owned(INIT)
  {
    assert Made(0) == {} && TaskRefs(INIT.tb) == {};
    forall s ensures Spots(INIT)(s) == [] {}
    forall s ensures Slots(INIT.tb, INIT.removed)(s) == [] {}
  }

  lemma {:induction false} RunKeepsOwned(w: World, run: seq<Action>)
    requires CanRun(w, run) && Owned(w)
    ensures Owned(RunTo(w, run))
    decreases |run|
  {
    if run != [] {
      StepKeepsSandboxes(w, run[0]);
      StepKeepsTasks(w, run[0]);
      RunKeepsOwned(Do(w, run[0]), run[1..]);
    }
  }

  // Over every run: each sandbox some Create obtained is in exactly one place, held by
  // one task object, in the hands of the Create that obtained it, or discarded by a
  // Create that lost the race, and then it has been stopped.
  lemma SandboxConservation(run: seq<Action>, sb: Sandbox)
    requires CanRun(INIT, run) && sb < |RunTo(INIT, run).stopped|
    ensures var w := RunTo(INIT, run);
      && (exists s :: Spots(w)(s) == [sb] || (s == Discarded && sb in w.lost))
      && (forall s, s' :: sb in Spots(w)(s) && sb in Spots(w)(s') ==> s == s')
      && (sb in w.lost ==> w.stopped[sb])
      && NoDup(w.lost)
  {
    InitOwned();
    RunKeepsOwned(INIT, run);
    var w := RunTo(INIT, run);
    var f := Spots(w);
    assert sb in Made(|w.stopped|);
    var s: Spot :| sb in f(s);
    assert s == Discarded || f(s) == [sb];
    assert NoDup(f(Discarded));
  }

  lemma NamedOrGone(tb: Table, removed: seq<Ref>, o: Ref)
    requires TasksOnce(tb, removed) && IsTask(tb, o)
    requires forall id :: id in tb.tasks ==> IsTask(tb, tb.tasks[id]) && tb.objs[tb.tasks[id]].kind.id == id
    ensures var id := tb.objs[o].kind.id; (id in tb.tasks && tb.tasks[id] == o) <==> o !in removed
  {
    var f := Slots(tb, removed);
    assert o in TaskRefs(tb);
    var s: Slot :| o in f(s);
    var id := tb.objs[o].kind.id;
    assert id in tb.tasks && tb.tasks[id] == o ==> o in f(Named(id));
    assert o in removed ==> o in f(Gone);
  }

  // Over every run: a task object is in the table, under its own ID, or has been
  // removed, once; never both, never neither.
  lemma TaskConservation(run: seq<Action>, o: Ref)
    requires CanRun(INIT, run) && IsTask(RunTo(INIT, run).tb, o)
    ensures var w := RunTo(INIT, run);
      var id := w.tb.objs[o].kind.id;
      && ((id in w.tb.tasks && w.tb.tasks[id] == o) <==> o !in w.removed)
      && NoDup(w.removed)
  {
    InitOwned();
    RunKeepsOwned(INIT, run);
    InitSound();
    RunKeepsSound(INIT, run);
    var w := RunTo(INIT, run);
    NamedOrGone(w.tb, w.removed, o);
    assert NoDup(Slots(w.tb, w.removed)(Gone));
  }

  // The Create race: at most one Create inserts under an ID between two removals. If
  // the ID names another object later, the earlier one was removed in between.
  lemma InsertsAlternateWithRemovals(run: seq<Action>, more: seq<Action>, id: Id)
    requires CanRun(INIT, run) && CanRun(RunTo(INIT, run), more)
    requires var w, w' := RunTo(INIT, run), RunTo(RunTo(INIT, run), more);
      id in w.tb.tasks && id in w'.tb.tasks && w'.tb.tasks[id] != w.tb.tasks[id]
    ensures var w, w' := RunTo(INIT, run), RunTo(RunTo(INIT, run), more);
      w.tb.tasks[id] !in w.removed && w.tb.tasks[id] in w'.removed
  {
    InitOwned();
    RunKeepsOwned(INIT, run);
    InitSound();
    RunKeepsSound(INIT, run);
    var w := RunTo(INIT, run);
    RunKeepsOwned(w, more);
    RunKeepsSound(w, more);
    var w' := RunTo(w, more);
    var o := w.tb.tasks[id];
    NamedOrGone(w.tb, w.removed, o);
    assert KindEvolves(w.tb.objs[o].kind, w'.tb.objs[o].kind);
    NamedOrGone(w'.tb, w'.removed, o);
  }
}
