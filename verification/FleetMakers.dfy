// What a Create, RestoreFrom or Fork does on its way: the driver it works for, whether it
// may use the pool, and what becomes of a process that does not come up.
module FleetMakers {
  import opened Common
  import opened Pool
  import opened Fleet
  import opened FleetTheorems

  function ModeOf(call: MakerPc): Mode { if call.Lookup? then call.mode else Clone }

  // A thread that serves this call is where the call may lead, and works for a driver that
  // the call may use: the one it names, and for a clone one that can restore.
  ghost predicate Follows(s: Fleet, call: MakerPc, th: Thread) {
    match th
    case Maker(m) =>
      && (m.Lookup? || m.ForkLookup? ==> m == call)
      && (m.ForkSnapshot? ==> call.ForkLookup? && m.src == call.src)
      && (m.Get? || m.Kick? ==> m.mode == ModeOf(call) && !m.mode.ColdInNetns?)
      && (m.Spawn? ==> m.mode == ModeOf(call))
      && (m.Overlay? ==> ModeOf(call).Clone?)
      && (DriverOf(m).Some? ==>
            var d := DriverOf(m).value;
            && d < |s.restorer| && (ModeOf(call).Clone? ==> s.restorer[d])
            && (call.Lookup? ==> call.name in s.drivers && s.drivers[call.name] == d))
    case Done(_) => true
    case _ => false
  }

  // The drivers are registered for good.
  lemma SameDrivers(s: Fleet, a: Action)
    requires Can(s, a)
    ensures Do(s, a).drivers == s.drivers && Do(s, a).restorer == s.restorer
  {
  }

  lemma OthersStay(s: Fleet, a: Action, t: Tid)
    requires Can(s, a) && t in s.threads && !(a.Step? && a.t == t)
    ensures t in Do(s, a).threads && Do(s, a).threads[t] == s.threads[t]
  {
    if a.Step? {
      match s.threads[a.t] {
        case Maker(m) => MakerLeaves(s, a.t, m, a.c, t);
        case Ender(e) => EnderLeaves(s, a.t, e, a.c, t);
        case _ =>
      }
    }
  }

  lemma KickLeaves(s: Fleet, d: nat, child: Tid, t: Tid)
    requires d < |s.pools| && t in s.threads && t != child
    ensures t in KickRefill(s, d, child).threads && KickRefill(s, d, child).threads[t] == s.threads[t]
  {
  }

  lemma MakerLeaves(s: Fleet, u: Tid, m: MakerPc, c: Choice, t: Tid)
    requires WF(s) && MakerKnown(|s.pools|, m) && t in s.threads && u != t && (m.Kick? ==> c.child !in s.threads)
    ensures var s' := MakerStep(s, u, m, c); t in s'.threads && s'.threads[t] == s.threads[t]
  {
    if m.Kick? { KickLeaves(s, m.driver, c.child, t); }
  }

  lemma EnderLeaves(s: Fleet, u: Tid, e: EnderPc, c: Choice, t: Tid)
    requires WF(s) && EnderKnown(|s.pools|, e) && t in s.threads && u != t && (e.WarmKick? ==> c.child !in s.threads)
    ensures var s' := EnderStep(s, u, e, c); t in s'.threads && s'.threads[t] == s.threads[t]
  {
    if e.WarmKick? { KickLeaves(s, e.driver, c.child, t); }
  }

  lemma MakerStepFollows(s: Fleet, t: Tid, m: MakerPc, c: Choice, call: MakerPc)
    requires WF(s) && MakerKnown(|s.pools|, m) && Follows(s, call, Maker(m)) && (call.Lookup? || call.ForkLookup?)
    requires t in s.threads && (m.Kick? ==> c.child !in s.threads)
    ensures t in MakerStep(s, t, m, c).threads && Follows(s, call, MakerStep(s, t, m, c).threads[t])
  {
  }

  lemma StepFollows(s: Fleet, a: Action, t: Tid, call: MakerPc)
    requires Can(s, a) && t in s.threads && Follows(s, call, s.threads[t]) && (call.Lookup? || call.ForkLookup?)
    ensures t in Do(s, a).threads && Follows(Do(s, a), call, Do(s, a).threads[t])
  {
    SameDrivers(s, a);
    if a.Step? && a.t == t {
      MakerStepFollows(s, t, s.threads[t].m, a.c, call);
    } else {
      OthersStay(s, a, t);
    }
  }

  lemma {:induction false} RunFollows(s: Fleet, run: seq<Action>, t: Tid, call: MakerPc)
    requires CanRun(s, run) && t in s.threads && Follows(s, call, s.threads[t]) && (call.Lookup? || call.ForkLookup?)
    ensures t in RunTo(s, run).threads && Follows(RunTo(s, run), call, RunTo(s, run).threads[t])
    decreases |run|
  {
    if run != [] {
      StepFollows(s, run[0], t, call);
      RunFollows(Do(s, run[0]), run[1..], t, call);
    }
  }

  // From its call on, however others interleave, a maker works for the driver its call
  // names, a clone only for a driver that restores, and only a clone from an overlay. A
  // Create inside a network namespace takes no spare, kicks no refill and leaves every
  // pool alone, and a clone boots from its overlay alone.
  lemma MakersFollowTheirCall(s: Fleet, t: Tid, call: MakerPc, run: seq<Action>, c: Choice)
    requires t in s.threads && s.threads[t] == Maker(call) && (call.Lookup? || call.ForkLookup?) && CanRun(s, run)
    requires Can(RunTo(s, run), Step(t, c))
    ensures var s' := RunTo(s, run);
      var s'' := Do(s', Step(t, c));
      && Follows(s', call, s'.threads[t]) && t in s''.threads
      && (ModeOf(call).ColdInNetns? ==> s''.pools == s'.pools)
      && (ModeOf(call).Clone? && s''.threads[t].Maker? && s''.threads[t].m.Boot? ==> s'.threads[t].m.Overlay?)
  {
    RunFollows(s, run, t, call);
    StepFollows(RunTo(s, run), Step(t, c), t, call);
  }

  // ---- a process that does not come up ----

  // Process h is dead, or t is about to kill it.
  ghost predicate Doomed(s: Fleet, t: Tid, h: Handle) {
    || h in s.gone
    || (t in s.threads && match s.threads[t]
                          case Maker(m) => m == Undo(h)
                          case Refiller(_, r) => r == Killing(h)
                          case _ => false)
  }

  lemma StepKeepsDoomed(s: Fleet, a: Action, t: Tid, h: Handle)
    requires Can(s, a) && Doomed(s, t, h)
    ensures Doomed(Do(s, a), t, h)
  {
    if h in s.gone {
      GoneStays(s, a, h);
    } else if !(a.Step? && a.t == t) {
      OthersStay(s, a, t);
    }
  }

  lemma GoneStays(s: Fleet, a: Action, h: Handle)
    requires Can(s, a) && h in s.gone
    ensures h in Do(s, a).gone
  {
  }

  lemma {:induction false} RunKeepsDoomed(s: Fleet, run: seq<Action>, t: Tid, h: Handle)
    requires CanRun(s, run) && Doomed(s, t, h)
    ensures Doomed(RunTo(s, run), t, h)
    decreases |run|
  {
    if run != [] {
      StepKeepsDoomed(s, run[0], t, h);
      RunKeepsDoomed(Do(s, run[0]), run[1..], t, h);
    }
  }

  // Thread t now learns that process h is of no use: its overlay or its boot failed, or
  // the pool it was to join has closed.
  ghost predicate Rejects(s: Fleet, t: Tid, c: Choice, h: Handle) {
    t in s.threads &&
    match s.threads[t]
    case Maker(m) => (m.Overlay? || m.Boot?) && m.h == h && !c.ok
    case Refiller(d, r) => r == Offering(h) && d < |s.pools| && s.pools[d].closed
    case _ => false
  }

  // From then on it is never tracked, never a spare and in no other thread's hands: the
  // thread that has it kills it.
  lemma RejectedIsKilled(s0: Fleet, run: seq<Action>, t: Tid, c: Choice, h: Handle, more: seq<Action>)
    requires Init(s0) && CanRun(s0, run)
    requires var s := RunTo(s0, run); Can(s, Step(t, c)) && Rejects(s, t, c, h) && CanRun(Do(s, Step(t, c)), more)
    ensures var s' := RunTo(Do(RunTo(s0, run), Step(t, c)), more);
      && Doomed(s', t, h) && h !in s'.instances
      && (forall d :: 0 <= d < |s'.pools| ==> h !in s'.pools[d].idle)
      && (forall u :: u in s'.threads && h in Hand(s'.threads[u]) ==> u == t)
  {
    var s := RunTo(s0, run);
    var s1 := Do(s, Step(t, c));
    StartSound(s0);
    RunKeepsSound(s0, run);
    DoKeepsSound(s, Step(t, c));
    RunKeepsSound(s1, more);
    RunKeepsDoomed(s1, more, t, h);
    DoomedIsNowhereElse(RunTo(s1, more), t, h);
  }

  lemma OnePlace(s: Fleet, h: Handle, p: Place, q: Place)
    requires ExactlyOnce(s) && h in Contents(s, p) && h in Contents(s, q)
    ensures p == q
  {
    assert h in Where(s)(p) && h in Where(s)(q);
  }

  lemma DoomedIsNowhereElse(s: Fleet, t: Tid, h: Handle)
    requires ExactlyOnce(s) && (forall k :: k in s.instances ==> s.instances[k].inst == k) && Doomed(s, t, h)
    ensures h !in s.instances
    ensures forall d :: 0 <= d < |s.pools| ==> h !in s.pools[d].idle
    ensures forall u :: u in s.threads && h in Hand(s.threads[u]) ==> u == t
  {
    var p := if h in s.gone then Gone else InHand(t);
    assert h in Contents(s, p);
    if h in s.instances { OnePlace(s, h, p, Tracked(h)); }
    forall d | 0 <= d < |s.pools| ensures h !in s.pools[d].idle {
      if h in s.pools[d].idle { OnePlace(s, h, p, Idle(d)); }
    }
    forall u | u in s.threads && h in Hand(s.threads[u]) ensures u == t { OnePlace(s, h, p, InHand(u)); }
  }
}
