// What every pool keeps under any interleaving: one refiller at a time, an empty
// list once closed, and a bound on the processes it holds in reserve. Each fact
// concerns one pool p, number d, and the table of threads.
module FleetPools {
  import opened Common
  import opened Pool
  import opened Fleet

  type Threads = map<Tid, Thread>

  predicate Refilling(th: Thread, d: nat) { th.Refiller? && th.driver == d }

  ghost predicate RefillerAt(ts: Threads, t: Tid, d: nat) {
    t in ts && Refilling(ts[t], d)
  }

  // `refilling` is set exactly while one refill goroutine is live, from the kick
  // to its deferred reset.
  ghost predicate SingleRefiller(p: PoolState, ts: Threads, d: nat) {
    && (p.refilling <==> exists t :: RefillerAt(ts, t, d))
    && (forall t, u :: RefillerAt(ts, t, d) && RefillerAt(ts, u, d) ==> t == u)
    && (p.refilling ==> p.target > 0)
  }

  // The spares of pool d a thread holds: the refiller's, and close's victims.
  function Reserve(th: Thread, d: nat): seq<Handle> {
    match th
    case Refiller(x, r) => if x == d then RefillerHand(r) else []
    case Ender(e) => Condemned(e, d)
    case _ => []
  }

  function Condemned(e: EnderPc, d: nat): seq<Handle> {
    match e
    case ShutdownKill(x, kills, _) => if x == d then kills else []
    case CloseKill(x, kills) => if x == d then kills else []
    case _ => []
  }

  // All spares of pool d: idle, in the refiller's hand, or awaiting close's kill.
  ghost function Spares(p: PoolState, ts: Threads, d: nat): set<Handle> {
    Elems(p.idle) + set t, h | t in ts && h in Reserve(ts[t], d) :: h
  }

  // The spawn the refiller of pool d has under way.
  ghost predicate Outstanding(ts: Threads, d: nat) {
    exists t :: t in ts && ts[t] == Refiller(d, Spawning)
  }

  ghost predicate SpareBound(p: PoolState, ts: Threads, d: nat) {
    |Spares(p, ts, d)| + (if Outstanding(ts, d) then 1 else 0) <= if p.target > 0 then p.target else 0
  }

  ghost predicate ClosedForGood(p: PoolState, ts: Threads, d: nat) {
    && (p.closed ==> p.idle == [])
    && (forall t :: t in ts && !p.closed && Reserve(ts[t], d) != [] ==> ts[t].Refiller?)
  }

  ghost predicate PoolSound(p: PoolState, ts: Threads, d: nat) {
    SingleRefiller(p, ts, d) && SpareBound(p, ts, d) && ClosedForGood(p, ts, d)
  }

  ghost predicate PoolsSound(s: Fleet) {
    forall d :: 0 <= d < |s.pools| ==> PoolSound(s.pools[d], s.threads, d)
  }

  // What thread t is to hold, like the idle list, comes from spares or from `extra`.
  lemma SparesWithin(p: PoolState, p': PoolState, ts: Threads, t: Tid, th: Thread, d: nat, extra: set<Handle>)
    requires forall h :: h in p'.idle || h in Reserve(th, d) ==>
      h in extra || h in p.idle || (t in ts && h in Reserve(ts[t], d))
    ensures Spares(p', ts[t := th], d) <= Spares(p, ts, d) + extra
  {
  }

  // The reserve of pool d does not grow and no spawn begins: the bound stays.
  lemma BoundStays(p: PoolState, p': PoolState, ts: Threads, t: Tid, th: Thread, d: nat)
    requires SpareBound(p, ts, d) && p'.target == p.target && th != Refiller(d, Spawning)
    requires forall h :: h in p'.idle || h in Reserve(th, d) ==> h in p.idle || (t in ts && h in Reserve(ts[t], d))
    ensures SpareBound(p', ts[t := th], d)
  {
    var ts' := ts[t := th];
    SparesWithin(p, p', ts, t, th, d, {});
    SubsetBound(Spares(p', ts', d), Spares(p, ts, d));
    if Outstanding(ts', d) {
      var u :| u in ts' && ts'[u] == Refiller(d, Spawning);
      assert ts[u] == Refiller(d, Spawning);
    }
  }

  // Thread t goes on in the same refilling role, or in none.
  lemma RefillersStay(p: PoolState, p': PoolState, ts: Threads, t: Tid, th: Thread, d: nat)
    requires SingleRefiller(p, ts, d) && p'.refilling == p.refilling && p'.target == p.target
    requires Refilling(th, d) <==> RefillerAt(ts, t, d)
    ensures SingleRefiller(p', ts[t := th], d)
  {
    var ts' := ts[t := th];
    forall u ensures RefillerAt(ts', u, d) <==> RefillerAt(ts, u, d) {}
    if p.refilling {
      var u :| RefillerAt(ts, u, d);
      assert RefillerAt(ts', u, d);
    }
  }

  // Thread t, coming from `was`, goes on as th in the same role; pool d at most loses
  // idle spares to t, gains them from t, or closes.
  ghost predicate Ordinary(p: PoolState, p': PoolState, was: Thread, th: Thread, d: nat) {
    && (Refilling(th, d) <==> Refilling(was, d))
    && p'.target == p.target && p'.refilling == p.refilling && (p.closed ==> p'.closed) && (p'.closed ==> p'.idle == [])
    && (forall h :: h in p'.idle || h in Reserve(th, d) ==> h in p.idle || h in Reserve(was, d))
    && (Reserve(th, d) != [] ==> p'.closed || th.Refiller?)
    && th != Refiller(d, Spawning)
  }

  lemma OrdinaryStep(p: PoolState, p': PoolState, ts: Threads, t: Tid, th: Thread, d: nat)
    requires PoolSound(p, ts, d)
    requires Ordinary(p, p', if t in ts then ts[t] else Done(true), th, d)
    ensures PoolSound(p', ts[t := th], d)
  {
    RefillersStay(p, p', ts, t, th, d);
    BoundStays(p, p', ts, t, th, d);
  }

  // A kick starts the refiller of an open pool that has none.
  lemma RefillerStarts(p: PoolState, ts: Threads, child: Tid, d: nat)
    requires PoolSound(p, ts, d) && p.TryKick().1 && child !in ts
    ensures PoolSound(p.TryKick().0, ts[child := Refiller(d, Check)], d)
  {
    var ts' := ts[child := Refiller(d, Check)];
    BoundStays(p, p.TryKick().0, ts, child, Refiller(d, Check), d);
    assert RefillerAt(ts', child, d);
    forall u ensures RefillerAt(ts', u, d) ==> u == child {
      assert !RefillerAt(ts, u, d);
    }
  }

  // With its only refiller between spawns, an open pool's spares are its idle list.
  lemma OpenSpares(p: PoolState, ts: Threads, t: Tid, d: nat)
    requires SingleRefiller(p, ts, d) && ClosedForGood(p, ts, d) && !p.closed
    requires t in ts && ts[t] == Refiller(d, Check)
    ensures |Spares(p, ts, d)| <= |p.idle|
  {
    assert RefillerAt(ts, t, d);
    forall u, h | u in ts && h in Reserve(ts[u], d) ensures false {
      assert RefillerAt(ts, u, d);
    }
    SubsetBound(Spares(p, ts, d), Elems(p.idle));
    ElemsBound(p.idle);
  }

  // The refiller saw a deficit and sets out to spawn: there is room for one more.
  lemma DeficitBound(p: PoolState, ts: Threads, t: Tid, d: nat)
    requires SingleRefiller(p, ts, d) && ClosedForGood(p, ts, d)
    requires t in ts && ts[t] == Refiller(d, Check) && !p.Satisfied()
    ensures SpareBound(p, ts[t := Refiller(d, Spawning)], d)
  {
    OpenSpares(p, ts, t, d);
    SparesWithin(p, p, ts, t, Refiller(d, Spawning), d, {});
    SubsetBound(Spares(p, ts[t := Refiller(d, Spawning)], d), Spares(p, ts, d));
  }

  lemma DeficitSeen(p: PoolState, ts: Threads, t: Tid, d: nat)
    requires PoolSound(p, ts, d) && t in ts && ts[t] == Refiller(d, Check) && !p.Satisfied()
    ensures PoolSound(p, ts[t := Refiller(d, Spawning)], d)
  {
    DeficitBound(p, ts, t, d);
    RefillersStay(p, p, ts, t, Refiller(d, Spawning), d);
  }

  // The refiller's spawn ended; the process, if there is one, replaces it in the count.
  lemma SpawnBound(p: PoolState, ts: Threads, t: Tid, th: Thread, d: nat)
    requires SingleRefiller(p, ts, d) && SpareBound(p, ts, d) && t in ts && ts[t] == Refiller(d, Spawning)
    requires th == Refiller(d, Resetting) || exists h :: th == Refiller(d, Offering(h))
    ensures SpareBound(p, ts[t := th], d)
  {
    var ts' := ts[t := th];
    SparesWithin(p, p, ts, t, th, d, Elems(Reserve(th, d)));
    SubsetBound(Spares(p, ts', d), Spares(p, ts, d) + Elems(Reserve(th, d)));
    ElemsBound(Reserve(th, d));
    assert RefillerAt(ts, t, d) && Outstanding(ts, d);
    if Outstanding(ts', d) {
      var u :| u in ts' && ts'[u] == Refiller(d, Spawning);
      assert RefillerAt(ts, u, d);
    }
  }

  lemma SpawnEnded(p: PoolState, ts: Threads, t: Tid, th: Thread, d: nat)
    requires PoolSound(p, ts, d) && t in ts && ts[t] == Refiller(d, Spawning)
    requires th == Refiller(d, Resetting) || exists h :: th == Refiller(d, Offering(h))
    ensures PoolSound(p, ts[t := th], d)
  {
    SpawnBound(p, ts, t, th, d);
    RefillersStay(p, p, ts, t, th, d);
  }

  // The refiller's deferred reset.
  lemma ResetStep(p: PoolState, ts: Threads, t: Tid, d: nat)
    requires PoolSound(p, ts, d) && t in ts && ts[t] == Refiller(d, Resetting)
    ensures PoolSound(p.Reset(), ts[t := Done(true)], d)
  {
    var ts' := ts[t := Done(true)];
    assert RefillerAt(ts, t, d);
    forall u ensures !RefillerAt(ts', u, d) {
      assert u != t ==> !RefillerAt(ts, u, d);
    }
    BoundStays(p, p.Reset(), ts, t, Done(true), d);
  }

  // kickRefill on pool k, seen from pool d.
  lemma KickKeepsPools(s: Fleet, k: nat, child: Tid, d: nat)
    requires k < |s.pools| && d < |s.pools| && child !in s.threads && PoolSound(s.pools[d], s.threads, d)
    ensures PoolSound(KickRefill(s, k, child).pools[d], KickRefill(s, k, child).threads, d)
  {
    if s.pools[k].TryKick().1 {
      if d == k {
        RefillerStarts(s.pools[d], s.threads, child, d);
      } else {
        OrdinaryStep(s.pools[d], s.pools[d], s.threads, child, Refiller(k, Check), d);
      }
    }
  }

  // The step of thread t from s to s' is ordinary for pool d.
  ghost predicate OrdinaryFor(s: Fleet, s': Fleet, t: Tid, was: Thread, d: nat)
    requires d < |s.pools|
  {
    && |s'.pools| == |s.pools| && t in s'.threads && s'.threads == s.threads[t := s'.threads[t]]
    && Ordinary(s.pools[d], s'.pools[d], was, s'.threads[t], d)
  }

  lemma MakerIsOrdinary(s: Fleet, t: Tid, m: MakerPc, c: Choice, d: nat)
    requires WF(s) && MakerKnown(|s.pools|, m) && !m.Kick?
    requires d < |s.pools| && (s.pools[d].closed ==> s.pools[d].idle == [])
    ensures OrdinaryFor(s, MakerStep(s, t, m, c), t, Maker(m), d)
  {
  }

  lemma EnderIsOrdinary(s: Fleet, t: Tid, e: EnderPc, c: Choice, d: nat)
    requires WF(s) && EnderKnown(|s.pools|, e) && !e.WarmKick?
    requires d < |s.pools| && (s.pools[d].closed ==> s.pools[d].idle == [])
    requires Condemned(e, d) != [] ==> s.pools[d].closed
    ensures OrdinaryFor(s, EnderStep(s, t, e, c), t, Ender(e), d)
  {
    if e.ShutdownClose? || e.CloseLock? {
      DrainIsOrdinary(s, t, e, c, d);
    } else if e.ShutdownKill? || e.CloseKill? {
      KillIsOrdinary(s, t, e, c, d);
    } else {
      ClaimIsOrdinary(s, t, e, c, d);
    }
  }

  lemma KillIsOrdinary(s: Fleet, t: Tid, e: EnderPc, c: Choice, d: nat)
    requires WF(s) && EnderKnown(|s.pools|, e) && (e.ShutdownKill? || e.CloseKill?)
    requires d < |s.pools| && (s.pools[d].closed ==> s.pools[d].idle == [])
    requires Condemned(e, d) != [] ==> s.pools[d].closed
    ensures OrdinaryFor(s, EnderStep(s, t, e, c), t, Ender(e), d)
  {
  }

  lemma ClaimIsOrdinary(s: Fleet, t: Tid, e: EnderPc, c: Choice, d: nat)
    requires WF(s) && (e.DeleteLookup? || e.Claimed? || e.ShutdownLock? || e.ShutdownStop?) && EnderKnown(|s.pools|, e)
    requires d < |s.pools| && (s.pools[d].closed ==> s.pools[d].idle == [])
    ensures OrdinaryFor(s, EnderStep(s, t, e, c), t, Ender(e), d)
  {
  }

  lemma DrainIsOrdinary(s: Fleet, t: Tid, e: EnderPc, c: Choice, d: nat)
    requires WF(s) && EnderKnown(|s.pools|, e) && (e.ShutdownClose? || e.CloseLock?)
    requires d < |s.pools| && (s.pools[d].closed ==> s.pools[d].idle == [])
    ensures OrdinaryFor(s, EnderStep(s, t, e, c), t, Ender(e), d)
  {
  }

  lemma RefillerKeepsPools(s: Fleet, t: Tid, x: nat, r: RefillPc, c: Choice, d: nat)
    requires x < |s.pools| && t in s.threads && s.threads[t] == Refiller(x, r)
    requires d < |s.pools| && PoolSound(s.pools[d], s.threads, d)
    ensures PoolSound(RefillerStep(s, t, x, r, c).pools[d], RefillerStep(s, t, x, r, c).threads, d)
  {
    var p, ts, s' := s.pools[d], s.threads, RefillerStep(s, t, x, r, c);
    var th := s'.threads[t];
    if x == d && r == Check && !p.Satisfied() {
      DeficitSeen(p, ts, t, d);
    } else if x == d && r == Spawning {
      SpawnEnded(p, ts, t, th, d);
    } else if x == d && r == Resetting {
      ResetStep(p, ts, t, d);
    } else {
      OrdinaryStep(p, s'.pools[d], ts, t, th, d);
    }
  }

  // A thread without reserve kicks pool k and goes on as th.
  lemma KickingKeepsPools(s: Fleet, k: nat, child: Tid, t: Tid, th: Thread, d: nat)
    requires k < |s.pools| && d < |s.pools| && child !in s.threads && PoolSound(s.pools[d], s.threads, d)
    requires t in s.threads && !s.threads[t].Refiller? && !th.Refiller? && Reserve(th, d) == []
    ensures PoolSound(KickRefill(s, k, child).pools[d], KickRefill(s, k, child).threads[t := th], d)
  {
    KickKeepsPools(s, k, child, d);
    var s1 := KickRefill(s, k, child);
    assert Ordinary(s1.pools[d], s1.pools[d], s1.threads[t], th, d);
    OrdinaryStep(s1.pools[d], s1.pools[d], s1.threads, t, th, d);
  }

  lemma MakerKeepsPools(s: Fleet, t: Tid, m: MakerPc, c: Choice, d: nat)
    requires WF(s) && t in s.threads && s.threads[t] == Maker(m) && MakerKnown(|s.pools|, m)
    requires m.Kick? ==> c.child !in s.threads
    requires d < |s.pools| && PoolSound(s.pools[d], s.threads, d)
    ensures |MakerStep(s, t, m, c).pools| == |s.pools|
    ensures PoolSound(MakerStep(s, t, m, c).pools[d], MakerStep(s, t, m, c).threads, d)
  {
    var s' := MakerStep(s, t, m, c);
    if m.Kick? {
      KickingKeepsPools(s, m.driver, c.child, t, s'.threads[t], d);
    } else {
      MakerIsOrdinary(s, t, m, c, d);
      OrdinaryStep(s.pools[d], s'.pools[d], s.threads, t, s'.threads[t], d);
    }
  }

  lemma EnderKeepsPools(s: Fleet, t: Tid, e: EnderPc, c: Choice, d: nat)
    requires WF(s) && t in s.threads && s.threads[t] == Ender(e) && EnderKnown(|s.pools|, e)
    requires e.WarmKick? ==> c.child !in s.threads
    requires d < |s.pools| && PoolSound(s.pools[d], s.threads, d)
    ensures |EnderStep(s, t, e, c).pools| == |s.pools|
    ensures PoolSound(EnderStep(s, t, e, c).pools[d], EnderStep(s, t, e, c).threads, d)
  {
    var s' := EnderStep(s, t, e, c);
    if e.WarmKick? {
      KickingKeepsPools(s, e.driver, c.child, t, Done(true), d);
    } else {
      EnderIsOrdinary(s, t, e, c, d);
      OrdinaryStep(s.pools[d], s'.pools[d], s.threads, t, s'.threads[t], d);
    }
  }

  lemma DoKeepsPool(s: Fleet, a: Action, d: nat)
    requires Can(s, a) && d < |s.pools| && PoolSound(s.pools[d], s.threads, d)
    ensures |Do(s, a).pools| == |s.pools|
    ensures PoolSound(Do(s, a).pools[d], Do(s, a).threads, d)
  {
    if a.Call? {
      OrdinaryStep(s.pools[d], s.pools[d], s.threads, a.t, a.th, d);
    } else {
      match s.threads[a.t]
      case Maker(m) => MakerKeepsPools(s, a.t, m, a.c, d);
      case Ender(e) => EnderKeepsPools(s, a.t, e, a.c, d);
      case Refiller(x, r) => RefillerKeepsPools(s, a.t, x, r, a.c, d);
    }
  }

  lemma DoKeepsPools(s: Fleet, a: Action)
    requires Can(s, a) && PoolsSound(s)
    ensures PoolsSound(Do(s, a))
  {
    forall d | 0 <= d < |Do(s, a).pools| ensures PoolSound(Do(s, a).pools[d], Do(s, a).threads, d) {
      assert |Do(s, a).pools| == |s.pools|;
      DoKeepsPool(s, a, d);
    }
  }
}
