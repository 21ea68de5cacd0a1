// Waiters: every channel a Wait makes is in exactly one place, the list of the object
// waited for or, once, among the closed ones.
module ShimWaiters {
  import opened Common
  import opened Placement
  import opened Shim
  import opened ShimFacts

  datatype Spot = InList(o: Ref) | Closed

  ghost function Spots(tb: Table): Spot -> seq<Chan> {
    (s: Spot) => match s
                 case InList(o) => if o < |tb.objs| then tb.objs[o].life.waiters else []
                 case Closed => tb.closes
  }

  ghost function Made(n: nat): (s: set<Chan>)
    ensures forall c: Chan :: c in s <==> c < n
  {
    if n == 0 then {} else Made(n - 1) + {n - 1}
  }

  ghost predicate ChansOnce(tb: Table) { Partition(Spots(tb), Made(tb.chans)) }

  lemma ClosedNotListed(tb: Table)
    requires ChansOnce(tb)
    ensures Once(tb)
  {
    forall o, ch | 0 <= o < |tb.objs| && ch in tb.objs[o].life.waiters ensures ch !in tb.closes {
      assert ch in Spots(tb)(InList(o));
      assert ch in tb.closes ==> ch in Spots(tb)(Closed);
    }
  }

  // A section that leaves every waiter list, and the closes, as they are.
  lemma SameWaiters(tb: Table, tb': Table)
    requires ChansOnce(tb) && tb'.chans == tb.chans && tb'.closes == tb.closes && |tb.objs| <= |tb'.objs|
    requires forall o :: 0 <= o < |tb'.objs| ==>
      tb'.objs[o].life.waiters == if o < |tb.objs| then tb.objs[o].life.waiters else []
    ensures ChansOnce(tb')
  {
    Stayed(Spots(tb), Spots(tb'), Made(tb.chans));
  }

  // The exit of an object closes each of its waiters' channels, none of which was closed.
  lemma ExitClosesOnce(tb: Table, o: Ref, code: nat, now: Time)
    requires ChansOnce(tb) && o < |tb.objs|
    ensures ChansOnce(Exit(tb, o, code, now))
  {
    if tb.objs[o].life.status != STOPPED {
      MovedOnto(Spots(tb), Spots(Exit(tb, o, code, now)), Made(tb.chans), InList(o), Closed);
    }
  }

  lemma EnlistOnce(tb: Table, o: Ref)
    requires ChansOnce(tb) && o < |tb.objs|
    ensures ChansOnce(Enlist(tb, o))
  {
    BornOnto(Spots(tb), Spots(Enlist(tb, o)), Made(tb.chans), InList(o), tb.chans);
    assert Made(tb.chans + 1) == Made(tb.chans) + {tb.chans};
  }

  lemma CallKeepsWaiters(w: World, t: Tid, rpc: Rpc, c: Choice)
    requires WF(w) && ChansOnce(w.tb)
    ensures ChansOnce(CallStep(w, t, rpc, c).tb)
  {
    CallTable(w, t, rpc, c);
    SameWaiters(w.tb, CallStep(w, t, rpc, c).tb);
  }

  lemma StepKeepsWaiters(w: World, a: Action)
    requires ChansOnce(w.tb) && Can(w, a)
    ensures ChansOnce(Do(w, a).tb)
  {
    var w' := Do(w, a);
    if a.Step? {
      match w.threads[a.t] {
        case Calling(rpc) => CallKeepsWaiters(w, a.t, rpc, a.c);
        case Ending(o, code, who, e) => if e.Marking? { ExitClosesOnce(w.tb, o, code, a.c.now); }
        case Waiting(pc) =>
          if pc.Entering? && w'.tb != w.tb { EnlistOnce(w.tb, Resolve(w.tb, pc.target).value); }
        case _ => SameWaiters(w.tb, w'.tb);
      }
    }
  }

  // ---- over every run ----

  ghost predicate Sound(w: World) { Facts(w) && ChansOnce(w.tb) }

  lemma DoKeepsSound(w: World, a: Action)
    requires Sound(w) && Can(w, a)
    ensures Sound(Do(w, a)) && Later(w, Do(w, a))
  {
    ClosedNotListed(w.tb);
    StepKeepsFacts(w, a);
    StepKeepsWaiters(w, a);
  }

  lemma InitSound()
    ensures Sound(INIT)
  {
    assert Made(0) == {};
    forall s ensures Spots(INIT.tb)(s) == [] {}
  }

  lemma {:induction false} RunKeepsSound(w: World, run: seq<Action>)
    requires Sound(w) && CanRun(w, run)
    ensures Sound(RunTo(w, run)) && Later(w, RunTo(w, run))
    decreases |run|
  {
    if run == [] {
      forall o | 0 <= o < |w.tb.objs| ensures LifeEvolves(w.tb.objs[o].life, w.tb.objs[o].life, w.tb.closes) {}
    } else {
      var w1 := Do(w, run[0]);
      DoKeepsSound(w, run[0]);
      RunKeepsSound(w1, run[1..]);
      EvolvesTransitive(w.tb, w1.tb, RunTo(w, run).tb);
    }
  }

  // No lost wake-up, no double close, over every run: a blocked waiter's channel is in
  // the list of the object it waits for and of no other, unless that object has
  // stopped, and then it is closed; a stopped object has no waiters; and no channel is
  // closed twice. This holds for tasks and execs, and with waits that were cancelled.
  lemma NoLostWakeUp(run: seq<Action>)
    requires CanRun(INIT, run)
    ensures var w := RunTo(INIT, run);
      && (forall t :: t in w.threads && w.threads[t].Waiting? && w.threads[t].wp.Blocked? ==>
            var o, ch := w.threads[t].wp.o, w.threads[t].wp.ch;
            && o < |w.tb.objs|
            && (if IsStopped(w.tb, o) then ch in w.tb.closes
                else ch in w.tb.objs[o].life.waiters && ch !in w.tb.closes
                     && forall p :: 0 <= p < |w.tb.objs| && ch in w.tb.objs[p].life.waiters ==> p == o))
      && (forall o :: 0 <= o < |w.tb.objs| && IsStopped(w.tb, o) ==> w.tb.objs[o].life.waiters == [])
      && NoDup(w.tb.closes)
  {
    InitSound();
    RunKeepsSound(INIT, run);
    var w := RunTo(INIT, run);
    ClosedNotListed(w.tb);
    assert NoDup(Spots(w.tb)(Closed));
    forall t | t in w.threads && w.threads[t].Waiting? && w.threads[t].wp.Blocked?
      ensures var o, ch := w.threads[t].wp.o, w.threads[t].wp.ch;
        && o < |w.tb.objs|
        && (if IsStopped(w.tb, o) then ch in w.tb.closes
            else ch in w.tb.objs[o].life.waiters && ch !in w.tb.closes
                 && forall p :: 0 <= p < |w.tb.objs| && ch in w.tb.objs[p].life.waiters ==> p == o)
    {
      assert ThreadOK(w.tb, w.stopped, w.threads[t]);
      var o, ch := w.threads[t].wp.o, w.threads[t].wp.ch;
      forall p | 0 <= p < |w.tb.objs| && ch in w.tb.objs[p].life.waiters && ch in w.tb.objs[o].life.waiters
        ensures p == o
      {
        assert ch in Spots(w.tb)(InList(p)) && ch in Spots(w.tb)(InList(o));
      }
    }
    forall o | 0 <= o < |w.tb.objs| && IsStopped(w.tb, o) ensures w.tb.objs[o].life.waiters == [] {
      assert ObjOK(w.tb, w.stopped, w.tb.objs[o]);
    }
  }

  // A waiter can be woken exactly when the object it waits for has stopped.
  lemma WakesExactlyWhenStopped(run: seq<Action>, t: Tid, now: Time)
    requires CanRun(INIT, run)
    requires var w := RunTo(INIT, run); t in w.threads && w.threads[t].Waiting? && w.threads[t].wp.Blocked?
    ensures var w := RunTo(INIT, run);
      CanStep(w, t, Choice(true, now, 0, 0)) <==> IsStopped(w.tb, w.threads[t].wp.o)
  {
    NoLostWakeUp(run);
    InitSound();
    RunKeepsSound(INIT, run);
    FactsGiveWF(RunTo(INIT, run));
  }

  // A Kill, Delete or goroutine past the marking works on a stopped object.
  lemma PastMarkingStopped(run: seq<Action>, t: Tid)
    requires CanRun(INIT, run) && t in RunTo(INIT, run).threads
    requires var th := RunTo(INIT, run).threads[t]; th.Removing? || th.Reporting? || (th.Ending? && th.ep.Publishing?)
    ensures var w := RunTo(INIT, run); IsStopped(w.tb, w.threads[t].o)
  {
    InitSound();
    RunKeepsSound(INIT, run);
    var w := RunTo(INIT, run);
    assert ThreadOK(w.tb, w.stopped, w.threads[t]);
  }

  // From its marking on an object reads STOPPED, with one record: every State that still
  // finds it, at any later moment, says so.
  lemma ReadsStoppedFromMarking(run: seq<Action>, more: seq<Action>, o: Ref, t: Tid, c: Choice)
    requires CanRun(INIT, run) && IsStopped(RunTo(INIT, run).tb, o) && CanRun(RunTo(INIT, run), more)
    requires var w' := RunTo(RunTo(INIT, run), more);
      && t in w'.threads && w'.threads[t].Calling? && w'.threads[t].rpc.State? && CanStep(w', t, c)
      && Resolve(w'.tb, w'.threads[t].rpc.target) == Some(o)
    ensures var w, w' := RunTo(INIT, run), RunTo(RunTo(INIT, run), more);
      && WF(w')
      && Advance(w', t, c) == Goto(w', t, Done(StateIs(o, STOPPED, w.tb.objs[o].life.rec)))
  {
    InitSound();
    RunKeepsSound(INIT, run);
    var w := RunTo(INIT, run);
    RunKeepsSound(w, more);
    var w' := RunTo(w, more);
    FactsGiveWF(w');
    assert LifeEvolves(w.tb.objs[o].life, w'.tb.objs[o].life, w'.tb.closes);
  }

  // ---- the exit record ----

  // Thread t has reported that object o has stopped, with this record.
  ghost predicate ReportsExit(r: Reply, o: Ref, rec: Record) {
    match r
    case StateIs(p, status, x) => p == o && status == STOPPED && x == rec
    case Waited(p, x) => p == o && x == rec
    case DeletedTask(p, x) => p == o && x == rec
    case ReapedExec(p, status, x) => p == o && status == STOPPED && x == rec
    case _ => false
  }

  ghost predicate AnnouncesExit(e: Event, o: Ref, rec: Record) {
    match e
    case Exited(_, _, p, x) => p == o && x == rec
    case Deleted(_, p, x) => p == o && x == rec
    case _ => false
  }

  // Some reply or event, in w, says that o exited with this record.
  ghost predicate Reported(w: World, o: Ref, rec: Record) {
    || (exists t :: t in w.threads && w.threads[t].Done? && ReportsExit(w.threads[t].reply, o, rec))
    || (exists e :: e in w.log && AnnouncesExit(e, o, rec))
  }

  // Exit-record agreement, per object, whatever its ID is used for later: all replies
  // and events, at any two moments of a run, carry the one record.
  lemma ExitRecordAgreement(run: seq<Action>, more: seq<Action>, o: Ref, rec: Record, rec': Record)
    requires CanRun(INIT, run) && CanRun(RunTo(INIT, run), more)
    requires Reported(RunTo(INIT, run), o, rec) && Reported(RunTo(RunTo(INIT, run), more), o, rec')
    ensures rec == rec' && RecordOf(RunTo(INIT, run).tb, o, rec)
  {
    InitSound();
    RunKeepsSound(INIT, run);
    var w := RunTo(INIT, run);
    RunKeepsSound(w, more);
    var w' := RunTo(w, more);
    ReportedIsRecord(w, o, rec);
    ReportedIsRecord(w', o, rec');
    RecordStays(w.tb, w'.tb, o, rec);
  }

  lemma ReportedIsRecord(w: World, o: Ref, rec: Record)
    requires Facts(w) && Reported(w, o, rec)
    ensures RecordOf(w.tb, o, rec)
  {
    if e :| e in w.log && AnnouncesExit(e, o, rec) {
      assert EventOK(w.tb, e);
    } else {
      var t :| t in w.threads && w.threads[t].Done? && ReportsExit(w.threads[t].reply, o, rec);
      assert ThreadOK(w.tb, w.stopped, w.threads[t]);
    }
  }

  // The code a Kill records tells its signal, 0 counting as SIGKILL, for all 32-bit
  // signals; and it reads as a clean exit only where the sum wraps round to 0.
  lemma KillCodeTellsSignal(a: nat, b: nat)
    requires a < U32 && b < U32
    ensures KillCode(a) == KillCode(b) <==> a == b || (a in {0, 9} && b in {0, 9})
    ensures KillCode(a) == 0 <==> a == U32 - 128
    ensures KillCode(a) < U32 && KillCode(0) == 137 && KillCode(15) == 143
    ensures 0 < a < U32 - 128 ==> KillCode(a) == 128 + a
  {
  }

  // The record is the one set by whichever Kill, Delete or exec goroutine marks the
  // exit first: from then on every report carries its code and time.
  lemma FirstMarkWins(run: seq<Action>, t: Tid, c: Choice, more: seq<Action>, o: Ref, rec: Record)
    requires CanRun(INIT, run)
    requires var w := RunTo(INIT, run);
      && WF(w) && CanStep(w, t, c) && w.threads[t].Ending? && w.threads[t].ep.Marking? && w.threads[t].o == o
      && w.tb.objs[o].life.status != STOPPED
      && CanRun(Advance(w, t, c), more)
      && Reported(RunTo(Advance(w, t, c), more), o, rec)
    ensures rec == Record(RunTo(INIT, run).threads[t].code, Some(c.now))
  {
    InitSound();
    RunKeepsSound(INIT, run);
    var w := RunTo(INIT, run);
    var w1 := Advance(w, t, c);
    DoKeepsSound(w, Step(t, c));
    RunKeepsSound(w1, more);
    var w2 := RunTo(w1, more);
    ReportedIsRecord(w2, o, rec);
    assert w1.tb.objs[o].life == Life(STOPPED, Record(w.threads[t].code, Some(c.now)), []);
    assert LifeEvolves(w1.tb.objs[o].life, w2.tb.objs[o].life, w2.tb.closes);
  }
}
