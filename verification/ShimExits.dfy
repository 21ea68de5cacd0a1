// Exit exactly once: every stopped object is in exactly one place, a thread about to
// publish its exit or, once, the log.
module ShimExits {
  import opened Common
  import opened Placement
  import opened Shim
  import opened ShimFacts
  import opened ShimWaiters

  // The objects whose exits a log announces, in order.
  function ExitRefs(log: seq<Event>): seq<Ref> {
    if log == [] then []
    else
      var e := log[|log| - 1];
      ExitRefs(log[..|log| - 1]) + if e.Exited? then [e.o] else []
  }

  lemma ExitRefsSnoc(log: seq<Event>, e: Event)
    ensures ExitRefs(log + [e]) == ExitRefs(log) + if e.Exited? then [e.o] else []
  {
    assert (log + [e])[..|log|] == log;
  }

  predicate Publishes(th: Thread) { th.Ending? && th.ep.Publishing? }

  function ToPublish(threads: map<Tid, Thread>, t: Tid): seq<Ref> {
    if t in threads && Publishes(threads[t]) then [threads[t].o] else []
  }

  datatype Spot = ByThread(t: Tid) | InLog

  ghost function Spots(threads: map<Tid, Thread>, log: seq<Event>): Spot -> seq<Ref> {
    (s: Spot) => match s
                 case ByThread(t) => ToPublish(threads, t)
                 case InLog => ExitRefs(log)
  }

  ghost function StoppedOnes(tb: Table): set<Ref> { set o | 0 <= o < |tb.objs| && IsStopped(tb, o) }

  ghost predicate ExitsOnce(threads: map<Tid, Thread>, log: seq<Event>, tb: Table) {
    Partition(Spots(threads, log), StoppedOnes(tb))
  }

  // A step of thread t that neither marks an exit nor publishes one.
  lemma OtherStep(threads: map<Tid, Thread>, log: seq<Event>, tb: Table,
                  threads': map<Tid, Thread>, log': seq<Event>, tb': Table)
    requires ExitsOnce(threads, log, tb) && StoppedOnes(tb') == StoppedOnes(tb)
    requires ExitRefs(log') == ExitRefs(log) && forall t :: ToPublish(threads', t) == ToPublish(threads, t)
    ensures ExitsOnce(threads', log', tb')
  {
    Stayed(Spots(threads, log), Spots(threads', log'), StoppedOnes(tb));
  }

  lemma MarkStep(threads: map<Tid, Thread>, log: seq<Event>, tb: Table, t: Tid, th: Thread,
                 o: Ref, code: nat, now: Time)
    requires ExitsOnce(threads, log, tb) && ToPublish(threads, t) == []
    requires o < |tb.objs| && !IsStopped(tb, o) && Publishes(th) && th.o == o
    ensures ExitsOnce(threads[t := th], log, Exit(tb, o, code, now))
  {
    var threads', tb' := threads[t := th], Exit(tb, o, code, now);
    assert StoppedOnes(tb') == StoppedOnes(tb) + {o};
    assert o !in StoppedOnes(tb);
    forall u | u != t ensures ToPublish(threads', u) == ToPublish(threads, u) {}
    Born(Spots(threads, log), Spots(threads', log), StoppedOnes(tb), ByThread(t), o);
  }

  lemma PublishStep(threads: map<Tid, Thread>, log: seq<Event>, tb: Table, t: Tid, th: Thread, e: Event)
    requires ExitsOnce(threads, log, tb) && t in threads && Publishes(threads[t]) && !Publishes(th)
    requires e.Exited? && e.o == threads[t].o
    ensures ExitsOnce(threads[t := th], log + [e], tb)
  {
    var threads' := threads[t := th];
    ExitRefsSnoc(log, e);
    forall u | u != t ensures ToPublish(threads', u) == ToPublish(threads, u) {}
    MovedOnto(Spots(threads, log), Spots(threads', log + [e]), StoppedOnes(tb), ByThread(t), InLog);
  }

  // A step that leaves every object's being stopped as it was.
  lemma SameStopped(tb: Table, tb': Table)
    requires |tb.objs| <= |tb'.objs|
    requires forall o :: 0 <= o < |tb.objs| ==> IsStopped(tb', o) == IsStopped(tb, o)
    requires forall o :: |tb.objs| <= o < |tb'.objs| ==> !IsStopped(tb', o)
    ensures StoppedOnes(tb') == StoppedOnes(tb)
  {
  }

  lemma CreateKeepsExits(w: World, t: Tid, id: Id, bundle: string, pc: CreatePc, c: Choice)
    requires ExitsOnce(w.threads, w.log, w.tb) && ThreadWF(w.tb, |w.stopped|, Creating(id, bundle, pc))
    requires ToPublish(w.threads, t) == []
    ensures var w' := CreateStep(w, t, id, bundle, pc, c); ExitsOnce(w'.threads, w'.log, w'.tb)
  {
    var w' := CreateStep(w, t, id, bundle, pc, c);
    if pc.Announcing? { ExitRefsSnoc(w.log, Created(id, pc.o)); }
    SameStopped(w.tb, w'.tb);
    OtherStep(w.threads, w.log, w.tb, w'.threads, w'.log, w'.tb);
  }

  lemma CallStopsNothing(w: World, t: Tid, rpc: Rpc, c: Choice)
    requires WF(w)
    ensures StoppedOnes(CallStep(w, t, rpc, c).tb) == StoppedOnes(w.tb)
  {
    SameStopped(w.tb, CallStep(w, t, rpc, c).tb);
  }

  lemma CallAnnouncesNothing(w: World, t: Tid, rpc: Rpc, c: Choice)
    requires WF(w)
    ensures ExitRefs(CallStep(w, t, rpc, c).log) == ExitRefs(w.log)
  {
    if rpc.Start? && rpc.id in w.tb.tasks { ExitRefsSnoc(w.log, Started(rpc.id, w.tb.tasks[rpc.id])); }
  }

  lemma CallKeepsExits(w: World, t: Tid, rpc: Rpc, c: Choice)
    requires WF(w) && ExitsOnce(w.threads, w.log, w.tb) && ToPublish(w.threads, t) == []
    requires rpc.StartExec? ==> c.child !in w.threads
    ensures var w' := CallStep(w, t, rpc, c); ExitsOnce(w'.threads, w'.log, w'.tb)
  {
    var w' := CallStep(w, t, rpc, c);
    CallStopsNothing(w, t, rpc, c);
    CallAnnouncesNothing(w, t, rpc, c);
    CallThreads(w, t, rpc, c);
    OtherStep(w.threads, w.log, w.tb, w'.threads, w'.log, w'.tb);
  }

  lemma EndKeepsExits(w: World, t: Tid, c: Choice)
    requires WF(w) && ExitsOnce(w.threads, w.log, w.tb) && t in w.threads && w.threads[t].Ending?
    ensures var th := w.threads[t];
      ThreadWF(w.tb, |w.stopped|, th) &&
      var w' := EndStep(w, t, th.o, th.code, th.who, th.ep, c);
      ExitsOnce(w'.threads, w'.log, w'.tb)
  {
    var th := w.threads[t];
    assert ThreadWF(w.tb, |w.stopped|, th);
    var w' := EndStep(w, t, th.o, th.code, th.who, th.ep, c);
    if th.ep.Publishing? {
      PublishStep(w.threads, w.log, w.tb, t, AfterEnd(th.o, th.who), ExitEvent(w.tb, th.o, th.ep.rec));
    } else if th.ep.Marking? && !IsStopped(w.tb, th.o) {
      MarkStep(w.threads, w.log, w.tb, t, w'.threads[t], th.o, th.code, c.now);
    } else {
      OtherStep(w.threads, w.log, w.tb, w'.threads, w'.log, w'.tb);
    }
  }

  lemma TailKeepsExits(w: World, t: Tid, c: Choice)
    requires WF(w) && CanStep(w, t, c) && ExitsOnce(w.threads, w.log, w.tb)
    requires var th := w.threads[t]; th.Removing? || th.Reporting? || th.Guest? || th.Waiting?
    ensures var w' := Advance(w, t, c); ExitsOnce(w'.threads, w'.log, w'.tb)
  {
    var w' := Advance(w, t, c);
    var th := w.threads[t];
    if th.Reporting? { ExitRefsSnoc(w.log, Deleted(th.id, th.o, th.rec)); }
    SameStopped(w.tb, w'.tb);
    OtherStep(w.threads, w.log, w.tb, w'.threads, w'.log, w'.tb);
  }

  lemma StepKeepsExits(w: World, a: Action)
    requires Can(w, a) && ExitsOnce(w.threads, w.log, w.tb)
    ensures var w' := Do(w, a); ExitsOnce(w'.threads, w'.log, w'.tb)
  {
    match a
    case Call(t, th) => OtherStep(w.threads, w.log, w.tb, Do(w, a).threads, w.log, w.tb);
    case Step(t, c) =>
      match w.threads[t] {
        case Creating(id, bundle, pc) => CreateKeepsExits(w, t, id, bundle, pc, c);
        case Calling(rpc) => CallKeepsExits(w, t, rpc, c);
        case Ending(_, _, _, _) => EndKeepsExits(w, t, c);
        case _ => TailKeepsExits(w, t, c);
      }
  }

  lemma {:induction false} RunKeepsExits(w: World, run: seq<Action>)
    requires CanRun(w, run) && ExitsOnce(w.threads, w.log, w.tb)
    ensures var w' := RunTo(w, run); ExitsOnce(w'.threads, w'.log, w'.tb)
    decreases |run|
  {
    if run != [] {
      StepKeepsExits(w, run[0]);
      RunKeepsExits(Do(w, run[0]), run[1..]);
    }
  }

  lemma InitExits()
    ensures ExitsOnce(INIT.threads, INIT.log, INIT.tb)
  {
    assert StoppedOnes(INIT.tb) == {};
    forall s ensures Spots(INIT.threads, INIT.log)(s) == [] {}
  }

  // ---- the count ----

  // How often the log announces the exit of o, and which threads are about to.
  function Announced(log: seq<Event>, o: Ref): nat { multiset(ExitRefs(log))[o] }

  function Pending(threads: map<Tid, Thread>, o: Ref): set<Tid> {
    set t | t in threads && Publishes(threads[t]) && threads[t].o == o
  }

  lemma {:induction false} NoDupMultiplicity<T>(s: seq<T>, x: T)
    requires NoDup(s)
    ensures multiset(s)[x] == if x in s then 1 else 0
  {
    if s != [] {
      NoDupTail(s);
      NoDupMultiplicity(s[1..], x);
      assert s == [s[0]] + s[1..];
      assert x in s[1..] <==> x in Elems(s[1..]);
    }
  }

  lemma OnceCounts(threads: map<Tid, Thread>, log: seq<Event>, tb: Table, o: Ref)
    requires ExitsOnce(threads, log, tb)
    ensures Announced(log, o) + |Pending(threads, o)| == if IsStopped(tb, o) then 1 else 0
  {
    var f := Spots(threads, log);
    assert NoDup(f(InLog));
    NoDupMultiplicity(ExitRefs(log), o);
    forall t ensures t in Pending(threads, o) <==> o in f(ByThread(t)) {}
    if o in f(InLog) {
      assert o in StoppedOnes(tb);
      forall t ensures t !in Pending(threads, o) {}
      assert Pending(threads, o) == {};
    } else if t :| t in Pending(threads, o) {
      forall u | u in Pending(threads, o) ensures u == t {
        assert o in f(ByThread(t)) && o in f(ByThread(u));
      }
      assert o in StoppedOnes(tb);
      assert Pending(threads, o) == {t};
    } else {
      assert Pending(threads, o) == {};
      forall s ensures o !in f(s) {
        assert s.ByThread? ==> s.t !in Pending(threads, o);
      }
      assert o !in StoppedOnes(tb);
    }
  }

  // Exit exactly once, over every run, for tasks and execs: the attempts made to publish
  // an object's exit and those still to be made after the unlock add up to one if the
  // object has stopped and to none otherwise. And a task has stopped only if some Stop
  // of its sandbox has returned.
  lemma ExitExactlyOnce(run: seq<Action>, o: Ref)
    requires CanRun(INIT, run)
    ensures var w := RunTo(INIT, run);
      && Announced(w.log, o) + |Pending(w.threads, o)| == (if IsStopped(w.tb, o) then 1 else 0)
      && (IsTask(w.tb, o) && IsStopped(w.tb, o) ==>
            var inst := w.tb.objs[o].kind.inst; inst < |w.stopped| && w.stopped[inst])
  {
    InitExits();
    InitSound();
    RunKeepsExits(INIT, run);
    RunKeepsSound(INIT, run);
    var w := RunTo(INIT, run);
    OnceCounts(w.threads, w.log, w.tb, o);
    if IsTask(w.tb, o) { assert ObjOK(w.tb, w.stopped, w.tb.objs[o]); }
  }
}
