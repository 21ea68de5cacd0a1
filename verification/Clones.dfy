// Clones prepared concurrently from the same templates (driver.go takes no lock here):
// any number of prepareCloneSnapshot calls, and the cleanups of those that failed,
// interleaved at the level of single file operations.
module Clones {
  import opened Files
  import opened Snapshots

  type Tid = nat

  datatype Job = Job(tpl: Path, dir: Path, socket: string)

  datatype Pc =
    | Making(k: nat)                                               // mkdir of the first k names
    | Listing
    | Linking(entries: seq<DirEntry>, i: nat)
    | Copying(entries: seq<DirEntry>, i: nat)                      // the link failed: read
    | Writing(entries: seq<DirEntry>, i: nat, content: Content)
    | Reading(entries: seq<DirEntry>)                              // config.json
    | Rewriting(entries: seq<DirEntry>, cfg: Json)
    | Ready
    | Failed                                                       // and being cleaned up

  // The environment's part: how an operation goes, the order of a listing, the name a
  // cleanup removes next.
  datatype Choice = Choice(luck: Luck, entries: seq<DirEntry>, victim: Path)

  datatype State = State(fs: FS, pcs: map<Tid, Pc>)

  type Jobs = map<Tid, Job>

  ghost predicate IsDir(s: FS, p: Path) { p in s.tree && s.tree[p].Dir? }

  ghost predicate CanStep(jobs: Jobs, s: State, t: Tid, c: Choice) {
    && t in jobs && t in s.pcs && WellFormed(s.fs)
    && match s.pcs[t]
       case Listing => IsDir(s.fs, jobs[t].tpl) && !c.luck.fault ==> Lists(s.fs, jobs[t].tpl, c.entries)
       case Copying(entries, i) => i < |entries|
       case Writing(entries, i, _) => i < |entries|
       case Ready => false
       case Failed => jobs[t].dir <= c.victim
       case _ => true
  }

  function Next(entries: seq<DirEntry>, i: nat, ok: bool): Pc { if ok then Linking(entries, i + 1) else Failed }

  ghost function Step(s: FS, job: Job, pc: Pc, c: Choice): (FS, Pc)
    requires WellFormed(s) && (pc.Copying? || pc.Writing? ==> pc.i < |pc.entries|)
  {
    var overlay := OverlayOf(job.dir);
    match pc
    case Making(k) =>
      if k > |overlay| then (s, Listing)
      else var (s', ok) := MakeDir(s, overlay[..k], c.luck); (s', if ok then Making(k + 1) else Failed)
    case Listing => (s, if c.luck.fault || !IsDir(s, job.tpl) then Failed else Linking(c.entries, 0))
    case Linking(entries, i) =>
      if i >= |entries| then (s, Reading(entries))
      else if Skipped(entries[i]) then (s, Linking(entries, i + 1))
      else
        var (s', ok) := LinkTo(s, job.tpl + [entries[i].name], overlay + [entries[i].name], c.luck);
        (s', if ok then Linking(entries, i + 1) else Copying(entries, i))
    case Copying(entries, i) =>
      var src := job.tpl + [entries[i].name];
      (s, if !c.luck.fault && IsFile(s, src) then Writing(entries, i, Read(s, src)) else Failed)
    case Writing(entries, i, content) =>
      var (s', ok) := WriteTo(s, overlay + [entries[i].name], content, c.luck);
      (s', Next(entries, i, ok))
    case Reading(entries) =>
      var src := ConfigAt(job.tpl);
      (s, if !c.luck.fault && IsFile(s, src) && Parses(Read(s, src)) then Rewriting(entries, Read(s, src).json)
          else Failed)
    case Rewriting(_, cfg) =>
      var (s', ok) := WriteTo(s, ConfigAt(overlay), Doc(Rewritten(cfg, job.socket)), c.luck);
      (s', if ok then Ready else Failed)
    case Ready => (s, Ready)
    case Failed => (s.(tree := s.tree - {c.victim}), Failed)
  }

  datatype Action = Action(t: Tid, c: Choice)

  ghost function Do(jobs: Jobs, s: State, a: Action): State
    requires CanStep(jobs, s, a.t, a.c)
  {
    var (fs', pc') := Step(s.fs, jobs[a.t], s.pcs[a.t], a.c);
    State(fs', s.pcs[a.t := pc'])
  }

  ghost predicate CanRun(jobs: Jobs, s: State, run: seq<Action>)
    decreases |run|
  {
    run == [] || (CanStep(jobs, s, run[0].t, run[0].c) && CanRun(jobs, Do(jobs, s, run[0]), run[1..]))
  }

  ghost function RunTo(jobs: Jobs, s: State, run: seq<Action>): State
    requires CanRun(jobs, s, run)
    decreases |run|
  {
    if run == [] then s else RunTo(jobs, Do(jobs, s, run[0]), run[1..])
  }

  // Every clone has a directory of its own, apart from the others' and from every
  // template, with no overlay in it yet.
  ghost predicate Separate(jobs: Jobs) {
    && (forall t, u :: t in jobs && u in jobs && t != u ==> Apart(jobs[t].dir, jobs[u].dir))
    && (forall t, u :: t in jobs && u in jobs ==> Apart(jobs[t].tpl, jobs[u].dir))
  }

  ghost predicate Start(jobs: Jobs, s: State) {
    && WellFormed(s.fs) && s.pcs.Keys == jobs.Keys
    && forall t :: t in jobs ==> s.pcs[t] == Making(0) && Vacant(s.fs, OverlayOf(jobs[t].dir))
  }

  // ---- what one clone has achieved, whatever the others do ----

  // The overlay is at most an empty directory.
  ghost predicate Bare(s: FS, overlay: Path) { forall q :: q in s.tree && overlay <= q ==> q == overlay }

  ghost predicate Progress(s0: FS, s: FS, job: Job, pc: Pc) {
    var tpl, overlay := job.tpl, OverlayOf(job.dir);
    match pc
    case Making(_) => Bare(s, overlay)
    case Listing => Bare(s, overlay)
    case Linking(entries, i) => i <= |entries| && FilesOf(s0, tpl, entries) && Filled(s0, tpl, s, overlay, entries, i)
    case Copying(entries, i) =>
      i < |entries| && !Skipped(entries[i]) && FilesOf(s0, tpl, entries) && Filled(s0, tpl, s, overlay, entries, i)
    case Writing(entries, i, content) =>
      && i < |entries| && !Skipped(entries[i]) && FilesOf(s0, tpl, entries) && Filled(s0, tpl, s, overlay, entries, i)
      && IsFile(s0, tpl + [entries[i].name]) && content == Read(s0, tpl + [entries[i].name])
    case Reading(entries) => FilesOf(s0, tpl, entries) && Filled(s0, tpl, s, overlay, entries, |entries|)
    case Rewriting(entries, cfg) =>
      && FilesOf(s0, tpl, entries) && Filled(s0, tpl, s, overlay, entries, |entries|)
      && IsFile(s0, ConfigAt(tpl)) && Parses(Read(s0, ConfigAt(tpl))) && Read(s0, ConfigAt(tpl)).json == cfg
    case Ready => IsClone(s0, tpl, s, overlay, job.socket)
    case Failed => true
  }

  // ---- a step of the clone itself ----

  lemma WritesNew(s: FS, p: Path, content: Content, luck: Luck)
    requires WellFormed(s) && p !in s.tree
    ensures var (s', ok) := WriteTo(s, p, content, luck);
      WellFormed(s') && OnlyAdds(s, s', p) && (ok ==> IsFile(s', p) && Read(s', p) == content)
  {
  }

  lemma LinksNew(s: FS, src: Path, dst: Path, luck: Luck)
    requires WellFormed(s)
    ensures var (s', ok) := LinkTo(s, src, dst, luck);
      && WellFormed(s') && OnlyAdds(s, s', dst)
      && (ok ==> dst !in s.tree && IsFile(s, src) && IsFile(s', dst) && Read(s', dst) == Read(s, src))
      && (!ok ==> s' == s)
  {
  }

  // A new name in the overlay is confined to the clone's directory.
  lemma AddsInside(s: FS, s': FS, job: Job, n: string)
    requires OnlyAdds(s, s', OverlayOf(job.dir) + [n])
    ensures Confined(s, s', job.dir)
  {
    assert job.dir <= OverlayOf(job.dir) + [n];
  }

  // A template's file is as it was at the start.
  lemma TemplateStays(s0: FS, s: FS, tpl: Path, n: string)
    requires WellFormed(s0) && WellFormed(s) && SameDir(s0, s, tpl)
    ensures IsFile(s, tpl + [n]) <==> IsFile(s0, tpl + [n])
    ensures IsFile(s0, tpl + [n]) ==> Read(s, tpl + [n]) == Read(s0, tpl + [n])
  {
  }

  lemma ListedFiles(s0: FS, s: FS, tpl: Path, entries: seq<DirEntry>)
    requires WellFormed(s0) && WellFormed(s) && SameDir(s0, s, tpl) && Lists(s, tpl, entries)
    ensures FilesOf(s0, tpl, entries)
  {
    forall k | 0 <= k < |entries| && !entries[k].isDir ensures IsFile(s0, tpl + [entries[k].name]) {
      TemplateStays(s0, s, tpl, entries[k].name);
    }
    forall n | IsFile(s0, tpl + [n]) ensures DirEntry(n, false) in entries {
      TemplateStays(s0, s, tpl, n);
    }
  }

  // What a step owes: it stays in the clone's directory and makes progress.
  ghost predicate Advances(s0: FS, s: FS, job: Job, pc: Pc, c: Choice)
    requires WellFormed(s) && (pc.Copying? || pc.Writing? ==> pc.i < |pc.entries|)
  {
    var (s', pc') := Step(s, job, pc, c);
    WellFormed(s') && Confined(s, s', job.dir) && Progress(s0, s', job, pc')
  }

  lemma MakeAdvances(s0: FS, s: FS, job: Job, k: nat, c: Choice)
    requires WellFormed(s) && Progress(s0, s, job, Making(k))
    ensures Advances(s0, s, job, Making(k), c)
  {
    var overlay := OverlayOf(job.dir);
    if k <= |overlay| {
      var p := overlay[..k];
      assert p <= overlay && (overlay <= p ==> p == overlay);
      assert !(job.dir <= p) ==> p <= job.dir;
    }
  }

  lemma LinkAdvances(s0: FS, s: FS, job: Job, entries: seq<DirEntry>, i: nat, c: Choice)
    requires WellFormed(s0) && WellFormed(s) && SameDir(s0, s, job.tpl) && Progress(s0, s, job, Linking(entries, i))
    ensures Advances(s0, s, job, Linking(entries, i), c)
  {
    var overlay := OverlayOf(job.dir);
    if i < |entries| {
      if Skipped(entries[i]) {
        FilledSkipping(s0, job.tpl, s, overlay, entries, i);
      } else {
        var n := entries[i].name;
        var (s', ok) := LinkTo(s, job.tpl + [n], overlay + [n], c.luck);
        LinksNew(s, job.tpl + [n], overlay + [n], c.luck);
        AddsInside(s, s', job, n);
        TemplateStays(s0, s, job.tpl, n);
        if ok {
          FilledNext(s0, job.tpl, s, s', overlay, entries, i);
        }
      }
    }
  }

  lemma WriteAdvances(s0: FS, s: FS, job: Job, entries: seq<DirEntry>, i: nat, content: Content, c: Choice)
    requires WellFormed(s0) && WellFormed(s) && Progress(s0, s, job, Writing(entries, i, content))
    ensures Advances(s0, s, job, Writing(entries, i, content), c)
  {
    var overlay, n := OverlayOf(job.dir), entries[i].name;
    NextIsNew(s0, job.tpl, s, overlay, entries, i, n);
    WritesNew(s, overlay + [n], content, c.luck);
    var (s', ok) := WriteTo(s, overlay + [n], content, c.luck);
    AddsInside(s, s', job, n);
    if ok {
      FilledNext(s0, job.tpl, s, s', overlay, entries, i);
    }
  }

  lemma RewriteAdvances(s0: FS, s: FS, job: Job, entries: seq<DirEntry>, cfg: Json, c: Choice)
    requires WellFormed(s0) && WellFormed(s) && Progress(s0, s, job, Rewriting(entries, cfg))
    ensures Advances(s0, s, job, Rewriting(entries, cfg), c)
  {
    var overlay := OverlayOf(job.dir);
    var content := Doc(Rewritten(cfg, job.socket));
    NextIsNew(s0, job.tpl, s, overlay, entries, |entries|, CONFIG);
    WritesNew(s, ConfigAt(overlay), content, c.luck);
    var (s', ok) := WriteTo(s, ConfigAt(overlay), content, c.luck);
    AddsInside(s, s', job, CONFIG);
    if ok {
      CloneComplete(s0, job.tpl, s, s', overlay, entries, job.socket);
    }
  }

  lemma OwnStepAdvances(jobs: Jobs, s0: FS, s: State, t: Tid, c: Choice)
    requires CanStep(jobs, s, t, c) && WellFormed(s0)
    requires SameDir(s0, s.fs, jobs[t].tpl) && Progress(s0, s.fs, jobs[t], s.pcs[t])
    ensures Advances(s0, s.fs, jobs[t], s.pcs[t], c)
  {
    var job := jobs[t];
    match s.pcs[t]
    case Making(k) => MakeAdvances(s0, s.fs, job, k, c);
    case Listing =>
      if !c.luck.fault && IsDir(s.fs, job.tpl) { ListedFiles(s0, s.fs, job.tpl, c.entries); }
    case Linking(entries, i) => LinkAdvances(s0, s.fs, job, entries, i, c);
    case Copying(entries, i) => TemplateStays(s0, s.fs, job.tpl, entries[i].name);
    case Writing(entries, i, content) => WriteAdvances(s0, s.fs, job, entries, i, content, c);
    case Reading(_) => TemplateStays(s0, s.fs, job.tpl, CONFIG);
    case Rewriting(entries, cfg) => RewriteAdvances(s0, s.fs, job, entries, cfg, c);
    case Failed =>
  }

  // ---- a step of another clone ----

  // What another leaves of an overlay apart from its directory: everything.
  lemma OverlayStays(s: FS, s': FS, job: Job, other: Path)
    requires Confined(s, s', other) && Apart(job.dir, other)
    ensures var overlay := OverlayOf(job.dir);
      && (forall q :: overlay <= q ==> (q in s'.tree <==> q in s.tree) && (q in s.tree ==> s'.tree[q] == s.tree[q]))
      && (forall q :: overlay <= q && IsFile(s, q) ==> IsFile(s', q) && Read(s', q) == Read(s, q))
  {
    var overlay := OverlayOf(job.dir);
    forall q | (q in s.tree || q in s'.tree) && overlay <= q ensures !(other <= q) && !(q <= other) {
      assert job.dir <= q;
    }
  }

  lemma FilledStays(s0: FS, s: FS, s': FS, job: Job, other: Path, entries: seq<DirEntry>, i: nat)
    requires Confined(s, s', other) && Apart(job.dir, other)
    requires i <= |entries| && Filled(s0, job.tpl, s, OverlayOf(job.dir), entries, i)
    ensures Filled(s0, job.tpl, s', OverlayOf(job.dir), entries, i)
  {
    OverlayStays(s, s', job, other);
  }

  lemma CloneStays(s0: FS, s: FS, s': FS, job: Job, other: Path)
    requires Confined(s, s', other) && Apart(job.dir, other)
    requires IsClone(s0, job.tpl, s, OverlayOf(job.dir), job.socket)
    ensures IsClone(s0, job.tpl, s', OverlayOf(job.dir), job.socket)
  {
    OverlayStays(s, s', job, other);
  }

  lemma OtherKeepsProgress(s0: FS, s: FS, s': FS, job: Job, pc: Pc, other: Path)
    requires Confined(s, s', other) && Apart(job.dir, other) && Progress(s0, s, job, pc)
    ensures Progress(s0, s', job, pc)
  {
    match pc
    case Linking(entries, i) => FilledStays(s0, s, s', job, other, entries, i);
    case Copying(entries, i) => FilledStays(s0, s, s', job, other, entries, i);
    case Writing(entries, i, _) => FilledStays(s0, s, s', job, other, entries, i);
    case Reading(entries) => FilledStays(s0, s, s', job, other, entries, |entries|);
    case Rewriting(entries, _) => FilledStays(s0, s, s', job, other, entries, |entries|);
    case Ready => CloneStays(s0, s, s', job, other);
    case _ => OverlayStays(s, s', job, other);
  }

  // ---- over every run ----

  ghost predicate Sound(jobs: Jobs, s0: FS, s: State) {
    && WellFormed(s.fs) && s.pcs.Keys == jobs.Keys
    && (forall t :: t in jobs ==> SameDir(s0, s.fs, jobs[t].tpl) && Progress(s0, s.fs, jobs[t], s.pcs[t]))
    && (forall i :: i in s0.data ==> i in s.fs.data && s.fs.data[i] == s0.data[i])
  }

  lemma StartSound(jobs: Jobs, s: State)
    requires Start(jobs, s)
    ensures Sound(jobs, s.fs, s)
  {
    forall t | t in jobs ensures SameDir(s.fs, s.fs, jobs[t].tpl) && Progress(s.fs, s.fs, jobs[t], s.pcs[t]) {
      assert s.pcs[t] == Making(0);
    }
  }

  lemma DoKeepsSound(jobs: Jobs, s0: FS, s: State, a: Action)
    requires Separate(jobs) && WellFormed(s0) && Sound(jobs, s0, s) && CanStep(jobs, s, a.t, a.c)
    ensures Sound(jobs, s0, Do(jobs, s, a))
  {
    var s', dir := Do(jobs, s, a), jobs[a.t].dir;
    OwnStepAdvances(jobs, s0, s, a.t, a.c);
    forall t | t in jobs ensures SameDir(s0, s'.fs, jobs[t].tpl) && Progress(s0, s'.fs, jobs[t], s'.pcs[t]) {
      StepKeepsDir(s.fs, s'.fs, dir, jobs[t].tpl);
      if t != a.t {
        OtherKeepsProgress(s0, s.fs, s'.fs, jobs[t], s.pcs[t], dir);
      }
    }
  }

  lemma {:induction false} RunKeepsSound(jobs: Jobs, s0: FS, s: State, run: seq<Action>)
    requires Separate(jobs) && WellFormed(s0) && Sound(jobs, s0, s) && CanRun(jobs, s, run)
    ensures Sound(jobs, s0, RunTo(jobs, s, run))
    decreases |run|
  {
    if run != [] {
      DoKeepsSound(jobs, s0, s, run[0]);
      RunKeepsSound(jobs, s0, Do(jobs, s, run[0]), run[1..]);
    }
  }

  // N clones at once: however the file operations of any number of clones and cleanups
  // interleave, and whichever of them fail, every clone that succeeded is a clone of its
  // template as it was at the start, no template has changed, and no file that existed
  // has been written.
  lemma ConcurrentClones(jobs: Jobs, s: State, run: seq<Action>)
    requires Separate(jobs) && Start(jobs, s) && CanRun(jobs, s, run)
    ensures var s' := RunTo(jobs, s, run);
      && (forall t :: t in jobs && t in s'.pcs && s'.pcs[t].Ready? ==>
            IsClone(s.fs, jobs[t].tpl, s'.fs, OverlayOf(jobs[t].dir), jobs[t].socket))
      && (forall t :: t in jobs ==> SameDir(s.fs, s'.fs, jobs[t].tpl))
      && (forall i :: i in s.fs.data ==> i in s'.fs.data && s'.fs.data[i] == s.fs.data[i])
  {
    StartSound(jobs, s);
    RunKeepsSound(jobs, s.fs, s, run);
    var s' := RunTo(jobs, s, run);
    forall t | t in jobs && t in s'.pcs && s'.pcs[t].Ready?
      ensures IsClone(s.fs, jobs[t].tpl, s'.fs, OverlayOf(jobs[t].dir), jobs[t].socket)
    {
      assert Progress(s.fs, s'.fs, jobs[t], s'.pcs[t]);
    }
  }

  // ---- failure has a cause ----

  // Clone t's template is there, and nothing is in the way of its overlay.
  ghost predicate Unhindered(jobs: Jobs, s: FS, t: Tid)
    requires t in jobs
  {
    IsDir(s, jobs[t].tpl) && Makeable(s, OverlayOf(jobs[t].dir))
  }

  lemma OwnStepSucceeds(jobs: Jobs, s0: FS, s: State, t: Tid, c: Choice)
    requires WellFormed(s0) && Sound(jobs, s0, s) && CanStep(jobs, s, t, c) && !s.pcs[t].Failed?
    requires HasConfig(s0, jobs[t].tpl) && Unhindered(jobs, s.fs, t) && (c.luck.fault ==> s.pcs[t].Linking?)
    ensures !Step(s.fs, jobs[t], s.pcs[t], c).1.Failed?
  {
    var job := jobs[t];
    var overlay := OverlayOf(job.dir);
    assert Progress(s0, s.fs, job, s.pcs[t]);
    match s.pcs[t]
    case Making(k) => if k <= |overlay| { assert overlay[..k] <= overlay; }
    case Copying(entries, i) => TemplateStays(s0, s.fs, job.tpl, entries[i].name);
    case Writing(entries, i, _) => NextIsNew(s0, job.tpl, s.fs, overlay, entries, i, entries[i].name);
    case Reading(_) => TemplateStays(s0, s.fs, job.tpl, CONFIG);
    case Rewriting(entries, _) => NextIsNew(s0, job.tpl, s.fs, overlay, entries, |entries|, CONFIG);
    case _ =>
  }

  // Clone t's own steps make no file that is in its way, and others' work elsewhere.
  lemma OwnStepUnhindered(jobs: Jobs, s: State, t: Tid, c: Choice)
    requires Separate(jobs) && CanStep(jobs, s, t, c) && Unhindered(jobs, s.fs, t) && !s.pcs[t].Failed?
    requires Confined(s.fs, Step(s.fs, jobs[t], s.pcs[t], c).0, jobs[t].dir)
    ensures Unhindered(jobs, Step(s.fs, jobs[t], s.pcs[t], c).0, t)
  {
    var overlay := OverlayOf(jobs[t].dir);
    forall n: string ensures !(overlay + [n] <= overlay) {}
  }

  lemma OtherStepUnhindered(jobs: Jobs, s: FS, s': FS, t: Tid, u: Tid)
    requires Separate(jobs) && t in jobs && u in jobs && u != t && Unhindered(jobs, s, t)
    requires Confined(s, s', jobs[u].dir)
    ensures Unhindered(jobs, s', t)
  {
    var overlay, other := OverlayOf(jobs[t].dir), jobs[u].dir;
    Comparable(jobs[t].dir, other);
    forall q | q in s'.tree && q <= overlay ensures s'.tree[q].Dir? {
      assert other <= q ==> other <= overlay;
    }
  }

  lemma Comparable(dir: Path, other: Path)
    ensures other <= OverlayOf(dir) ==> other <= dir || dir <= other
  {
    if other <= OverlayOf(dir) {
      if |other| <= |dir| {
        assert other == OverlayOf(dir)[..|other|] == dir[..|other|];
      } else {
        assert dir == OverlayOf(dir)[..|dir|] == other[..|dir|];
      }
    }
  }

  // Whatever fails for clone t, only hard links do, which it makes up for by copying.
  ghost predicate Spared(jobs: Jobs, s: State, run: seq<Action>, t: Tid)
    requires CanRun(jobs, s, run)
    decreases |run|
  {
    run == [] || (
      && (run[0].t == t && run[0].c.luck.fault ==> s.pcs[t].Linking?)
      && Spared(jobs, Do(jobs, s, run[0]), run[1..], t))
  }

  lemma {:induction false} RunSucceeds(jobs: Jobs, s0: FS, s: State, run: seq<Action>, t: Tid)
    requires Separate(jobs) && WellFormed(s0) && Sound(jobs, s0, s) && CanRun(jobs, s, run) && Spared(jobs, s, run, t)
    requires t in jobs && HasConfig(s0, jobs[t].tpl) && Unhindered(jobs, s.fs, t) && !s.pcs[t].Failed?
    ensures RunTo(jobs, s, run).pcs.Keys == jobs.Keys && !RunTo(jobs, s, run).pcs[t].Failed?
    decreases |run|
  {
    if run != [] {
      var u, c := run[0].t, run[0].c;
      OwnStepAdvances(jobs, s0, s, u, c);
      if u == t {
        OwnStepSucceeds(jobs, s0, s, t, c);
        OwnStepUnhindered(jobs, s, t, c);
      } else {
        OtherStepUnhindered(jobs, s.fs, Do(jobs, s, run[0]).fs, t, u);
      }
      DoKeepsSound(jobs, s0, s, run[0]);
      RunSucceeds(jobs, s0, Do(jobs, s, run[0]), run[1..], t);
    }
  }

  // However clones interleave, one whose template is there and has a configuration that
  // parses, and whose overlay's path is free, fails only if an operation of its own other
  // than a hard link met an error: no clone makes another fail.
  lemma ClonesFailAlone(jobs: Jobs, s: State, run: seq<Action>, t: Tid)
    requires Separate(jobs) && Start(jobs, s) && CanRun(jobs, s, run) && t in jobs
    requires HasConfig(s.fs, jobs[t].tpl) && Unhindered(jobs, s.fs, t)
    requires t in RunTo(jobs, s, run).pcs && RunTo(jobs, s, run).pcs[t].Failed?
    ensures !Spared(jobs, s, run, t)
  {
    StartSound(jobs, s);
    if Spared(jobs, s, run, t) {
      RunSucceeds(jobs, s.fs, s, run, t);
    }
  }
}
