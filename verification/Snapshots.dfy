// Snapshots and clones (pkg/driver/cloudhypervisor/driver.go): a clone's overlay
// hard-links the template's files, except config.json, which it rewrites.
module Snapshots {
  import opened Common
  import opened Files

  const CONFIG := "config.json"

  // The rewrite of a VM configuration: vsock.socket, where there is such a device.
  function Rewritten(cfg: Json, socket: string): Json {
    if cfg.Obj? && "vsock" in cfg.fields && cfg.fields["vsock"].Obj?
    then Obj(cfg.fields["vsock" := Obj(cfg.fields["vsock"].fields["socket" := Str(socket)])])
    else cfg
  }

  // A value inside a JSON document, by the field names leading to it.
  function Lookup(j: Json, path: seq<string>): Option<Json>
    decreases |path|
  {
    if path == [] then Some(j)
    else if j.Obj? && path[0] in j.fields then Lookup(j.fields[path[0]], path[1..])
    else None
  }

  // The rewrite changes vsock.socket, if there is a vsock device, and nothing else.
  lemma RewriteTouchesOnlySocket(cfg: Json, socket: string, path: seq<string>)
    requires !(path <= ["vsock", "socket"]) && !(["vsock", "socket"] <= path)
    ensures Lookup(Rewritten(cfg, socket), path) == Lookup(cfg, path)
    ensures Lookup(cfg, ["vsock"]).Some? && Lookup(cfg, ["vsock"]).value.Obj? ==>
      Lookup(Rewritten(cfg, socket), ["vsock", "socket"]) == Some(Str(socket))
  {
    assert ["vsock", "socket"][1..] == ["socket"] && ["vsock"][1..] == [] && ["socket"][1..] == [];
    if path[0] == "vsock" {
      var rest := path[1..];
      assert path == ["vsock"] + rest;
      assert rest != [] by { assert rest == [] ==> path <= ["vsock", "socket"]; }
      assert rest[0] != "socket" by { assert path == ["vsock", rest[0]] + rest[1..]; }
    }
  }

  // The rewrite leaves a configuration as it is exactly when that has no vsock device,
  // as `null` has none, or one whose socket is the clone's already.
  lemma RewriteIsIdentityExactly(cfg: Json, socket: string)
    ensures Rewritten(cfg, socket) == cfg <==>
            var vsock := Lookup(cfg, ["vsock"]);
            vsock == None || !vsock.value.Obj? || Lookup(cfg, ["vsock", "socket"]) == Some(Str(socket))
    ensures Rewritten(Null, socket) == Null
  {
    assert ["vsock", "socket"][1..] == ["socket"] && ["vsock"][1..] == [] && ["socket"][1..] == [];
    if cfg.Obj? && "vsock" in cfg.fields && cfg.fields["vsock"].Obj? {
      var fields := cfg.fields["vsock"].fields;
      assert "socket" in fields && fields["socket"] == Str(socket) ==> fields["socket" := Str(socket)] == fields;
      assert cfg.fields["vsock" := cfg.fields["vsock"]] == cfg.fields;
    }
  }

  function ConfigAt(dir: Path): Path { dir + [CONFIG] }

  // A template's configuration parses: an object, or null.
  predicate Parses(c: Content) { c.Doc? && (c.json.Obj? || c.json.Null?) }

  // The overlay, in s', is a clone of the template, as it is in s: the same names for
  // the files, the same contents, except for the rewritten configuration.
  ghost predicate IsClone(s: FS, tpl: Path, s': FS, overlay: Path, socket: string) {
    && IsFile(s, ConfigAt(tpl)) && Parses(Read(s, ConfigAt(tpl)))
    && (forall n :: overlay + [n] in s'.tree <==> tpl + [n] in s.tree && s.tree[tpl + [n]].File?)
    && (forall n :: overlay + [n] in s'.tree ==> IsFile(s', overlay + [n]) && IsFile(s, tpl + [n]))
    && (forall n :: overlay + [n] in s'.tree && n != CONFIG ==> Read(s', overlay + [n]) == Read(s, tpl + [n]))
    && Read(s', ConfigAt(overlay)) == Doc(Rewritten(Read(s, ConfigAt(tpl)).json, socket))
  }

  ghost predicate HasConfig(s: FS, tpl: Path) { IsFile(s, ConfigAt(tpl)) && Parses(Read(s, ConfigAt(tpl))) }

  // A template configuration that is `null` is accepted, and so is the overlay's.
  lemma NullConfigClones(s: FS, tpl: Path, s': FS, overlay: Path, socket: string)
    requires IsClone(s, tpl, s', overlay, socket)
    ensures Read(s', ConfigAt(overlay)) == Doc(Null) <==> Read(s, ConfigAt(tpl)) == Doc(Null)
    ensures Parses(Doc(Null)) && forall fields :: Parses(Doc(Obj(fields)))
  {
    RewriteIsIdentityExactly(Null, socket);
  }

  // While the overlay is being filled: the first i entries are linked or copied.
  ghost predicate Filled(s: FS, tpl: Path, s': FS, overlay: Path, entries: seq<DirEntry>, i: nat)
    requires i <= |entries|
  {
    && (forall q :: q in s'.tree && overlay <= q && q != overlay ==>
          |q| == |overlay| + 1 && q[|overlay|] != CONFIG && DirEntry(q[|overlay|], false) in entries[..i])
    && (forall k :: 0 <= k < i && !Skipped(entries[k]) ==>
          && IsFile(s, tpl + [entries[k].name]) && IsFile(s', overlay + [entries[k].name])
          && Read(s', overlay + [entries[k].name]) == Read(s, tpl + [entries[k].name]))
  }

  // The first i entries are further names of the template's files, none a copy.
  ghost predicate Shares(s: FS, tpl: Path, s': FS, overlay: Path, entries: seq<DirEntry>, i: nat)
    requires i <= |entries|
  {
    forall k :: 0 <= k < i && !Skipped(entries[k]) ==> SameNode(s, tpl, s', overlay, entries[k].name)
  }

  ghost predicate SameNode(s: FS, tpl: Path, s': FS, overlay: Path, n: string) {
    overlay + [n] in s'.tree && tpl + [n] in s.tree && s'.tree[overlay + [n]] == s.tree[tpl + [n]]
  }

  predicate Skipped(e: DirEntry) { e.isDir || e.name == CONFIG }

  // From s to s' a file may have appeared at dst, in an inode of its own or shared,
  // and nothing else changed.
  ghost predicate OnlyAdds(s: FS, s': FS, dst: Path) {
    && (forall q :: q != dst ==> (q in s'.tree <==> q in s.tree) && (q in s.tree ==> s'.tree[q] == s.tree[q]))
    && (forall i :: i in s.data ==> i in s'.data && s'.data[i] == s.data[i])
  }

  // From s to s' only the file at dst was made or rewritten, in its own inode.
  ghost predicate OnlyTouches(s: FS, s': FS, dst: Path) {
    && (forall q :: q != dst ==> (q in s'.tree <==> q in s.tree) && (q in s.tree ==> s'.tree[q] == s.tree[q]))
    && (dst in s.tree ==> dst in s'.tree && s'.tree[dst] == s.tree[dst])
    && (forall i :: i in s.data ==> i in s'.data)
    && (forall i :: i in s.data && !(dst in s.tree && s.tree[dst] == File(i)) ==> s'.data[i] == s.data[i])
  }

  // From s to s' no name outside dir changed, apart from directories made on the way,
  // and of the inodes that existed only those with a name below dir may be rewritten.
  ghost predicate Contained(s: FS, s': FS, dir: Path) {
    && (forall q :: q in s.tree && !(dir <= q) ==> q in s'.tree && s'.tree[q] == s.tree[q])
    && (forall q :: q in s'.tree && !(dir <= q) && q !in s.tree ==> q <= dir && s'.tree[q].Dir?)
    && (forall i :: i in s.data ==> i in s'.data)
    && (forall i :: i in s.data && s'.data[i] != s.data[i] ==>
          exists q :: q in s.tree && dir <= q && s.tree[q] == File(i))
  }

  predicate Untouched(n: string, entries: seq<DirEntry>, i: nat)
    requires i <= |entries|
  {
    n == CONFIG || forall k :: 0 <= k < i ==> entries[k].name != n
  }

  // The first i entries handled, in an overlay that may have had entries before.
  ghost predicate Handled(s: FS, s': FS, overlay: Path, entries: seq<DirEntry>, i: nat)
    requires i <= |entries|
  {
    && Contained(s, s', overlay)
    && forall n :: Untouched(n, entries, i) ==>
         && (overlay + [n] in s'.tree <==> overlay + [n] in s.tree)
         && (overlay + [n] in s.tree ==> s'.tree[overlay + [n]] == s.tree[overlay + [n]])
  }

  lemma TouchContained(s: FS, s1: FS, s2: FS, overlay: Path, n: string)
    requires Contained(s, s1, overlay) && OnlyTouches(s1, s2, overlay + [n])
    requires overlay + [n] in s1.tree ==> overlay + [n] in s.tree && s1.tree[overlay + [n]] == s.tree[overlay + [n]]
    ensures Contained(s, s2, overlay)
  {
    var dst := overlay + [n];
    assert overlay <= dst;
    forall i | i in s.data && s2.data[i] != s.data[i]
      ensures exists q :: q in s.tree && overlay <= q && s.tree[q] == File(i)
    {
      assert s1.data[i] == s.data[i] ==> dst in s.tree && s.tree[dst] == File(i);
    }
  }

  lemma HandledNext(s: FS, s1: FS, s2: FS, overlay: Path, entries: seq<DirEntry>, i: nat)
    requires i < |entries| && Handled(s, s1, overlay, entries, i) && entries[i].name != CONFIG
    requires forall k :: 0 <= k < i ==> entries[k].name != entries[i].name
    requires OnlyTouches(s1, s2, overlay + [entries[i].name])
    ensures Handled(s, s2, overlay, entries, i + 1)
  {
    var dst := overlay + [entries[i].name];
    assert dst[|overlay|] == entries[i].name && Untouched(entries[i].name, entries, i);
    TouchContained(s, s1, s2, overlay, entries[i].name);
    forall n | Untouched(n, entries, i + 1)
      ensures overlay + [n] in s2.tree <==> overlay + [n] in s.tree
      ensures overlay + [n] in s.tree ==> s2.tree[overlay + [n]] == s.tree[overlay + [n]]
    {
      assert (overlay + [n])[|overlay|] == n && Untouched(n, entries, i);
    }
  }

  // A hard link, or failing that a copy under a new name.
  method LinkOrCopy(fs: FileSystem, src: Path, dst: Path) returns (ok: bool)
    requires fs.Valid()
    modifies fs
    ensures fs.Valid()
    ensures OnlyTouches(old(fs.View()), fs.View(), dst)
    ensures dst !in old(fs.tree) ==> OnlyAdds(old(fs.View()), fs.View(), dst)
    ensures ok ==> old(IsFile(fs.View(), src)) && IsFile(fs.View(), dst)
    ensures ok && dst !in old(fs.tree) ==> Read(fs.View(), dst) == old(Read(fs.View(), src))
    ensures ok && dst !in old(fs.tree) && old(fs.refusals) == fs.refusals ==> fs.tree[dst] == old(fs.tree)[src]
    ensures old(fs.refusals) <= fs.refusals
    ensures old(fs.faults) <= fs.faults
    ensures ok || old(fs.faults) < fs.faults || !old(IsFile(fs.View(), src)) || dst in old(fs.tree)
  {
    ok := fs.Link(src, dst);
    if !ok {
      var content;
      ok, content := fs.ReadFile(src);
      if ok {
        ok := fs.WriteFile(dst, content);
      }
    }
  }

  // The template's entries as listed after the overlay directory was made: the files
  // among them are the template's files as they were before.
  ghost predicate FilesOf(s: FS, tpl: Path, entries: seq<DirEntry>) {
    && (forall i, j :: 0 <= i < j < |entries| ==> entries[i].name != entries[j].name)
    && (forall k :: 0 <= k < |entries| && !entries[k].isDir ==> IsFile(s, tpl + [entries[k].name]))
    && (forall n :: IsFile(s, tpl + [n]) ==> DirEntry(n, false) in entries)
  }

  // One more entry linked or copied.
  lemma FilledNext(s: FS, tpl: Path, s1: FS, s2: FS, overlay: Path, entries: seq<DirEntry>, i: nat)
    requires i < |entries| && FilesOf(s, tpl, entries) && Filled(s, tpl, s1, overlay, entries, i)
    requires !Skipped(entries[i]) && OnlyAdds(s1, s2, overlay + [entries[i].name])
    requires IsFile(s2, overlay + [entries[i].name])
    requires Read(s2, overlay + [entries[i].name]) == Read(s, tpl + [entries[i].name])
    ensures Filled(s, tpl, s2, overlay, entries, i + 1)
  {
    var dst := overlay + [entries[i].name];
    assert entries[..i + 1] == entries[..i] + [entries[i]];
    assert dst[|overlay|] == entries[i].name;
    forall k | 0 <= k < i && !Skipped(entries[k])
      ensures var q := overlay + [entries[k].name]; IsFile(s2, q) && Read(s2, q) == Read(s1, q)
    {
      assert (overlay + [entries[k].name])[|overlay|] != dst[|overlay|];
    }
  }

  // A failed link or copy stays inside the overlay.
  lemma AddConfined(s: FS, s1: FS, s2: FS, overlay: Path, n: string)
    requires Confined(s, s1, overlay) && OnlyAdds(s1, s2, overlay + [n])
    ensures Confined(s, s2, overlay)
  {
  }

  // The name about to be filled in is not there yet.
  lemma NextIsNew(s: FS, tpl: Path, s1: FS, overlay: Path, entries: seq<DirEntry>, i: nat, n: string)
    requires i <= |entries| && Filled(s, tpl, s1, overlay, entries, i)
    requires n == CONFIG || forall k :: 0 <= k < i ==> entries[k].name != n
    ensures overlay + [n] !in s1.tree
  {
    assert (overlay + [n])[|overlay|] == n;
  }

  // The loop over the template's entries. All but config.json and directories are
  // given a name in the overlay.
  method LinkEntries(fs: FileSystem, tpl: Path, overlay: Path, entries: seq<DirEntry>, ghost s0: FS) returns (ok: bool)
    requires fs.Valid() && WellFormed(s0)
    requires Vacant(s0, overlay) ==> Confined(s0, fs.View(), overlay) && Filled(s0, tpl, fs.View(), overlay, entries, 0)
    requires FilesOf(s0, tpl, entries) && Handled(s0, fs.View(), overlay, entries, 0)
    modifies fs
    ensures fs.Valid() && Contained(s0, fs.View(), overlay)
    ensures ok ==> Handled(s0, fs.View(), overlay, entries, |entries|)
    ensures Vacant(s0, overlay) ==> Confined(s0, fs.View(), overlay)
    ensures Vacant(s0, overlay) && ok ==> Filled(s0, tpl, fs.View(), overlay, entries, |entries|)
    ensures old(fs.faults) <= fs.faults && (Vacant(s0, overlay) ==> ok || old(fs.faults) < fs.faults)
    ensures old(fs.refusals) <= fs.refusals
    ensures Vacant(s0, overlay) && ok && old(fs.refusals) == fs.refusals ==>
      Shares(s0, tpl, fs.View(), overlay, entries, |entries|)
  {
    ghost var vacant := Vacant(s0, overlay);
    for i := 0 to |entries|
      invariant fs.Valid() && Handled(s0, fs.View(), overlay, entries, i)
      invariant vacant ==> Confined(s0, fs.View(), overlay)
      invariant vacant ==> Filled(s0, tpl, fs.View(), overlay, entries, i)
      invariant old(fs.faults) <= fs.faults && old(fs.refusals) <= fs.refusals
      invariant vacant && old(fs.refusals) == fs.refusals ==> Shares(s0, tpl, fs.View(), overlay, entries, i)
    {
      ok := LinkEntry(fs, tpl, overlay, entries, i, s0);
      if !ok {
        return;
      }
    }
    ok := true;
  }

  // The loop's body: one entry.
  method LinkEntry(fs: FileSystem, tpl: Path, overlay: Path, entries: seq<DirEntry>, i: nat, ghost s0: FS)
    returns (ok: bool)
    requires fs.Valid() && WellFormed(s0) && FilesOf(s0, tpl, entries) && i < |entries|
    requires Handled(s0, fs.View(), overlay, entries, i)
    requires Vacant(s0, overlay) ==> Confined(s0, fs.View(), overlay) && Filled(s0, tpl, fs.View(), overlay, entries, i)
    modifies fs
    ensures fs.Valid() && Handled(s0, fs.View(), overlay, entries, i + 1)
    ensures Vacant(s0, overlay) ==> Confined(s0, fs.View(), overlay)
    ensures Vacant(s0, overlay) && ok ==> Filled(s0, tpl, fs.View(), overlay, entries, i + 1)
    ensures old(fs.faults) <= fs.faults && (Vacant(s0, overlay) ==> ok || old(fs.faults) < fs.faults)
    ensures old(fs.refusals) <= fs.refusals
    ensures Vacant(s0, overlay) && ok && old(fs.refusals) == fs.refusals ==>
      Shares(s0, tpl, old(fs.View()), overlay, entries, i) ==> Shares(s0, tpl, fs.View(), overlay, entries, i + 1)
  {
    ghost var s1 := fs.View();
    if Skipped(entries[i]) {
      ok := true;
      if Vacant(s0, overlay) { FilledSkipping(s0, tpl, s1, overlay, entries, i); }
      return;
    }
    var n := entries[i].name;
    if Vacant(s0, overlay) { EntryReady(s0, tpl, s1, overlay, entries, i); }
    ok := LinkOrCopy(fs, tpl + [n], overlay + [n]);
    HandledNext(s0, s1, fs.View(), overlay, entries, i);
    if Vacant(s0, overlay) {
      EntryDone(s0, tpl, s1, fs.View(), overlay, entries, i, ok);
      SharesNext(s0, tpl, s1, fs.View(), overlay, entries, i);
    }
  }

  lemma EntryReady(s0: FS, tpl: Path, s1: FS, overlay: Path, entries: seq<DirEntry>, i: nat)
    requires i < |entries| && FilesOf(s0, tpl, entries) && !Skipped(entries[i])
    requires Vacant(s0, overlay) && Confined(s0, s1, overlay) && Filled(s0, tpl, s1, overlay, entries, i)
    ensures var n := entries[i].name;
      && overlay + [n] !in s1.tree && IsFile(s0, tpl + [n])
      && IsFile(s1, tpl + [n]) && Read(s1, tpl + [n]) == Read(s0, tpl + [n]) && s1.tree[tpl + [n]] == s0.tree[tpl + [n]]
  {
    NextIsNew(s0, tpl, s1, overlay, entries, i, entries[i].name);
    SameFile(s0, s1, tpl + [entries[i].name], overlay);
  }

  lemma EntryDone(s0: FS, tpl: Path, s1: FS, s2: FS, overlay: Path, entries: seq<DirEntry>, i: nat, ok: bool)
    requires i < |entries| && FilesOf(s0, tpl, entries) && !Skipped(entries[i])
    requires Confined(s0, s1, overlay) && Filled(s0, tpl, s1, overlay, entries, i)
    requires OnlyAdds(s1, s2, overlay + [entries[i].name])
    requires ok ==> IsFile(s2, overlay + [entries[i].name]) && IsFile(s0, tpl + [entries[i].name])
    requires ok ==> Read(s2, overlay + [entries[i].name]) == Read(s0, tpl + [entries[i].name])
    ensures Confined(s0, s2, overlay) && (ok ==> Filled(s0, tpl, s2, overlay, entries, i + 1))
  {
    AddConfined(s0, s1, s2, overlay, entries[i].name);
    if ok { FilledNext(s0, tpl, s1, s2, overlay, entries, i); }
  }

  lemma SharesNext(s0: FS, tpl: Path, s1: FS, s2: FS, overlay: Path, entries: seq<DirEntry>, i: nat)
    requires i < |entries| && OnlyAdds(s1, s2, overlay + [entries[i].name])
    requires overlay + [entries[i].name] !in s1.tree
    ensures Shares(s0, tpl, s1, overlay, entries, i) && SameNode(s0, tpl, s2, overlay, entries[i].name) ==>
      Shares(s0, tpl, s2, overlay, entries, i + 1)
  {
    forall k | 0 <= k < i && SameNode(s0, tpl, s1, overlay, entries[k].name)
      ensures SameNode(s0, tpl, s2, overlay, entries[k].name)
    {
    }
  }

  lemma FilledSkipping(s: FS, tpl: Path, s': FS, overlay: Path, entries: seq<DirEntry>, i: nat)
    requires i < |entries| && Filled(s, tpl, s', overlay, entries, i) && Skipped(entries[i])
    ensures Filled(s, tpl, s', overlay, entries, i + 1)
  {
    assert entries[..i + 1] == entries[..i] + [entries[i]];
  }

  // A file outside the changed part reads as before.
  lemma SameFile(s: FS, s': FS, p: Path, dir: Path)
    requires Confined(s, s', dir) && Vacant(s, dir) && IsFile(s, p)
    ensures IsFile(s', p) && Read(s', p) == Read(s, p)
  {
  }

  // Reads, rewrites and writes config.json.
  method RewriteConfig(fs: FileSystem, tpl: Path, overlay: Path, socket: string) returns (ok: bool)
    requires fs.Valid()
    modifies fs
    ensures fs.Valid() && OnlyTouches(old(fs.View()), fs.View(), ConfigAt(overlay))
    ensures ConfigAt(overlay) !in old(fs.tree) ==> OnlyAdds(old(fs.View()), fs.View(), ConfigAt(overlay))
    ensures ok ==> old(IsFile(fs.View(), ConfigAt(tpl))) && old(Parses(Read(fs.View(), ConfigAt(tpl))))
    ensures ok ==> IsFile(fs.View(), ConfigAt(overlay))
    ensures ok ==>
      Read(fs.View(), ConfigAt(overlay)) == Doc(Rewritten(old(Read(fs.View(), ConfigAt(tpl))).json, socket))
    ensures old(fs.faults) <= fs.faults && old(fs.refusals) == fs.refusals
    ensures old(HasConfig(fs.View(), tpl)) && ConfigAt(overlay) !in old(fs.tree) ==> ok || old(fs.faults) < fs.faults
  {
    var content;
    ok, content := fs.ReadFile(ConfigAt(tpl));
    if !ok {
      return;
    }
    if !Parses(content) {
      return false;
    }
    var cfg := content.json;
    if cfg.Obj? && "vsock" in cfg.fields {
      var vs := cfg.fields["vsock"];
      if vs.Obj? {
        vs := Obj(vs.fields["socket" := Str(socket)]);
        cfg := Obj(cfg.fields["vsock" := vs]);
      }
    }
    ok := fs.WriteFile(ConfigAt(overlay), Doc(cfg));
  }

  // With every entry linked and the configuration written, the overlay is a clone.
  lemma CloneComplete(s: FS, tpl: Path, s1: FS, s2: FS, overlay: Path, entries: seq<DirEntry>, socket: string)
    requires WellFormed(s) && FilesOf(s, tpl, entries) && IsFile(s, ConfigAt(tpl)) && Parses(Read(s, ConfigAt(tpl)))
    requires Filled(s, tpl, s1, overlay, entries, |entries|) && OnlyAdds(s1, s2, ConfigAt(overlay))
    requires IsFile(s2, ConfigAt(overlay))
    requires Read(s2, ConfigAt(overlay)) == Doc(Rewritten(Read(s, ConfigAt(tpl)).json, socket))
    ensures IsClone(s, tpl, s2, overlay, socket)
  {
    forall n | n != CONFIG
      ensures overlay + [n] in s2.tree <==> tpl + [n] in s.tree && s.tree[tpl + [n]].File?
      ensures overlay + [n] in s2.tree ==>
        IsFile(s2, overlay + [n]) && IsFile(s, tpl + [n]) && Read(s2, overlay + [n]) == Read(s, tpl + [n])
    {
      assert (overlay + [n])[|overlay|] == n && ConfigAt(overlay)[|overlay|] == CONFIG;
      if IsFile(s, tpl + [n]) {
        var k :| 0 <= k < |entries| && entries[k] == DirEntry(n, false);
        assert !Skipped(entries[k]);
      }
      assert entries[..|entries|] == entries;
    }
  }

  // The template is there, and nothing is in the way of the overlay.
  ghost predicate Clonable(s: FS, tpl: Path, overlay: Path) {
    tpl in s.tree && s.tree[tpl].Dir? && HasConfig(s, tpl) && Vacant(s, overlay) && Makeable(s, overlay)
  }

  method PrepareCloneSnapshot(fs: FileSystem, tpl: Path, cloneDir: Path, socket: string)
    returns (ok: bool, overlay: Path)
    requires fs.Valid()
    modifies fs
    ensures fs.Valid() && overlay == cloneDir + ["snapshot"] && Contained(old(fs.View()), fs.View(), overlay)
    ensures old(Vacant(fs.View(), overlay)) ==> Confined(old(fs.View()), fs.View(), overlay)
    ensures ok && old(Vacant(fs.View(), overlay)) ==> IsClone(old(fs.View()), tpl, fs.View(), overlay, socket)
    ensures old(fs.faults) <= fs.faults
    ensures old(Clonable(fs.View(), tpl, overlay)) ==> ok || old(fs.faults) < fs.faults
  {
    overlay := cloneDir + ["snapshot"];
    ghost var s0 := fs.View();
    ok := fs.MkdirAll(overlay);
    if !ok {
      return;
    }
    var entries;
    ok, entries := fs.ReadDir(tpl);
    if ok {
      FilesListed(s0, fs.View(), tpl, overlay, entries);
      NotAConfig(cloneDir, tpl);
      ok := Populate(fs, tpl, overlay, socket, entries, s0);
    }
  }

  lemma NotAConfig(dir: Path, tpl: Path)
    ensures dir + ["snapshot"] != ConfigAt(tpl)
  {
    assert (dir + ["snapshot"])[|dir|] == "snapshot" && ConfigAt(tpl)[|tpl|] == CONFIG;
  }

  // The overlay's files, then its configuration.
  method Populate(fs: FileSystem, tpl: Path, overlay: Path, socket: string, entries: seq<DirEntry>, ghost s0: FS)
    returns (ok: bool)
    requires fs.Valid() && WellFormed(s0) && overlay != ConfigAt(tpl)
    requires FilesOf(s0, tpl, entries) && Handled(s0, fs.View(), overlay, entries, 0)
    requires Vacant(s0, overlay) ==> Confined(s0, fs.View(), overlay) && Filled(s0, tpl, fs.View(), overlay, entries, 0)
    modifies fs
    ensures fs.Valid() && Contained(s0, fs.View(), overlay)
    ensures Vacant(s0, overlay) ==> Confined(s0, fs.View(), overlay)
    ensures Vacant(s0, overlay) && ok ==> IsClone(s0, tpl, fs.View(), overlay, socket)
    ensures old(fs.faults) <= fs.faults
    ensures Vacant(s0, overlay) && HasConfig(s0, tpl) ==> ok || old(fs.faults) < fs.faults
  {
    ok := LinkEntries(fs, tpl, overlay, entries, s0);
    if !ok {
      return;
    }
    ghost var s1 := fs.View();
    if Vacant(s0, overlay) {
      NextIsNew(s0, tpl, s1, overlay, entries, |entries|, CONFIG);
      if HasConfig(s0, tpl) { SameFile(s0, s1, ConfigAt(tpl), overlay); }
    }
    ok := RewriteConfig(fs, tpl, overlay, socket);
    assert Untouched(CONFIG, entries, |entries|);
    TouchContained(s0, s1, fs.View(), overlay, CONFIG);
    if Vacant(s0, overlay) {
      AddConfined(s0, s1, fs.View(), overlay, CONFIG);
      if ok { Completed(s0, tpl, s1, fs.View(), overlay, entries, socket); }
    }
  }

  lemma Completed(s0: FS, tpl: Path, s1: FS, s2: FS, overlay: Path, entries: seq<DirEntry>, socket: string)
    requires WellFormed(s0) && Vacant(s0, overlay) && Confined(s0, s1, overlay) && FilesOf(s0, tpl, entries)
    requires Filled(s0, tpl, s1, overlay, entries, |entries|) && OnlyAdds(s1, s2, ConfigAt(overlay))
    requires IsFile(s1, ConfigAt(tpl)) && Parses(Read(s1, ConfigAt(tpl))) && IsFile(s2, ConfigAt(overlay))
    requires Read(s2, ConfigAt(overlay)) == Doc(Rewritten(Read(s1, ConfigAt(tpl)).json, socket))
    requires overlay != ConfigAt(tpl)
    ensures IsClone(s0, tpl, s2, overlay, socket)
  {
    TemplateFile(s0, tpl, s1, overlay, entries);
    SameFile(s0, s1, ConfigAt(tpl), overlay);
    CloneComplete(s0, tpl, s1, s2, overlay, entries, socket);
  }

  lemma FilesListed(s0: FS, s1: FS, tpl: Path, overlay: Path, entries: seq<DirEntry>)
    requires WellFormed(s0) && Lists(s1, tpl, entries) && s1.data == s0.data
    requires forall q :: q in s0.tree ==> q in s1.tree && s1.tree[q] == s0.tree[q]
    requires forall q :: q in s1.tree && q !in s0.tree ==> q <= overlay && s1.tree[q].Dir?
    ensures FilesOf(s0, tpl, entries) && Handled(s0, s1, overlay, entries, 0)
    ensures Vacant(s0, overlay) ==> Filled(s0, tpl, s1, overlay, entries, 0)
  {
  }

  // A configuration read after the overlay was filled was there from the start: the
  // overlay, even if it is the template directory itself, has none yet.
  lemma TemplateFile(s0: FS, tpl: Path, s1: FS, overlay: Path, entries: seq<DirEntry>)
    requires WellFormed(s0) && Vacant(s0, overlay) && Confined(s0, s1, overlay) && IsFile(s1, ConfigAt(tpl))
    requires Filled(s0, tpl, s1, overlay, entries, |entries|) && overlay != ConfigAt(tpl)
    ensures IsFile(s0, ConfigAt(tpl))
  {
    assert ConfigAt(tpl)[|tpl|] == CONFIG;
  }

  // ------ a store used by many clones ------

  // What happens to the store: a clone is prepared in a directory, successfully or
  // not; a snapshot directory is replaced; a directory is removed.
  datatype StoreOp =
    | CloneInto(tpl: Path, dir: Path, socket: string, ok: bool)
    | Resnapshot(path: Path)
    | Remove(dir: Path)

  function OverlayOf(dir: Path): Path { dir + ["snapshot"] }

  function Target(op: StoreOp): Path {
    match op
    case CloneInto(_, dir, _, _) => OverlayOf(dir)
    case Resnapshot(path) => path
    case Remove(dir) => dir
  }

  ghost predicate Happens(s: FS, op: StoreOp, s': FS) {
    && Confined(s, s', Target(op))
    && (op.CloneInto? && op.ok ==> IsClone(s, op.tpl, s', OverlayOf(op.dir), op.socket))
  }

  method Clone(fs: FileSystem, tpl: Path, dir: Path, socket: string) returns (ok: bool)
    requires fs.Valid()
    modifies fs
    ensures fs.Valid()
    ensures old(Vacant(fs.View(), OverlayOf(dir))) ==>
      Happens(old(fs.View()), CloneInto(tpl, dir, socket, ok), fs.View())
  {
    var overlay;
    ok, overlay := PrepareCloneSnapshot(fs, tpl, dir, socket);
  }

  // The cleanup of a clone, and of a failed one (vmmHandle.kill).
  method Cleanup(fs: FileSystem, dir: Path)
    requires fs.Valid()
    modifies fs
    ensures fs.Valid() && Happens(old(fs.View()), Remove(dir), fs.View())
    ensures old(fs.faults) <= fs.faults && (Vacant(fs.View(), dir) || old(fs.faults) < fs.faults)
  {
    var ok := fs.RemoveAll(dir);
  }

  datatype Written = Written(name: string, content: Content)

  ghost predicate Made(s: FS, s': FS, q: Path, content: Content) {
    q !in s.tree && IsFile(s', q) && s'.tree[q].ino !in s.data && Read(s', q) == content
  }

  ghost predicate Among(q: Path, path: Path, files: seq<Written>, i: nat)
    requires i <= |files|
  {
    exists k :: 0 <= k < i && q == path + [files[k].name]
  }

  // From s to s' the first i files, none of which was there, were written in path and
  // nothing else was made.
  ghost predicate Adds(s: FS, s': FS, path: Path, files: seq<Written>, i: nat)
    requires i <= |files|
  {
    && (forall q :: q in s.tree ==> q in s'.tree && s'.tree[q] == s.tree[q])
    && (forall q :: q in s'.tree && q !in s.tree ==> Among(q, path, files, i))
    && (forall k :: 0 <= k < i ==> Made(s, s', path + [files[k].name], files[k].content))
    && (forall j, k :: 0 <= j < k < i ==> files[j].name != files[k].name)
  }

  // No file written has the name of another, or of an entry.
  ghost predicate Clear(s: FS, path: Path, files: seq<Written>) {
    && (forall k :: 0 <= k < |files| ==> path + [files[k].name] !in s.tree)
    && (forall j, k :: 0 <= j < k < |files| ==> files[j].name != files[k].name)
  }

  // The VMM writes a snapshot as files of its own choice, refusing to overwrite.
  method SnapshotVM(fs: FileSystem, path: Path, files: seq<Written>) returns (ok: bool)
    requires fs.Valid()
    modifies fs
    ensures fs.Valid() && Confined(old(fs.View()), fs.View(), path)
    ensures ok ==> Adds(old(fs.View()), fs.View(), path, files, |files|)
    ensures old(fs.faults) <= fs.faults
    ensures old(Clear(fs.View(), path, files)) ==> ok || old(fs.faults) < fs.faults
  {
    ghost var s := fs.View();
    for i := 0 to |files|
      invariant fs.Valid() && Confined(s, fs.View(), path) && Adds(s, fs.View(), path, files, i)
      invariant old(fs.faults) <= fs.faults
    {
      var name := files[i].name;
      if path + [name] in fs.tree {
        if path + [name] !in s.tree {
          var k :| 0 <= k < i && path + [name] == path + [files[k].name];
          assert (path + [name])[|path|] == (path + [files[k].name])[|path|];
        }
        assert !Clear(s, path, files);
        return false;
      }
      ghost var s1 := fs.View();
      ok := fs.WriteFile(path + [name], files[i].content);
      if !ok {
        return;
      }
      AddsNext(s, s1, fs.View(), path, files, i);
    }
    ok := true;
  }

  lemma MadeStays(s: FS, s1: FS, s2: FS, q: Path, content: Content, dst: Path)
    requires Made(s, s1, q, content) && OnlyAdds(s1, s2, dst) && dst !in s1.tree
    ensures q != dst && Made(s, s2, q, content)
  {
  }

  lemma AddsNext(s: FS, s1: FS, s2: FS, path: Path, files: seq<Written>, i: nat)
    requires i < |files| && Adds(s, s1, path, files, i) && path + [files[i].name] !in s1.tree
    requires OnlyAdds(s1, s2, path + [files[i].name]) && (forall j :: j in s.data ==> j in s1.data)
    requires Made(s1, s2, path + [files[i].name], files[i].content)
    ensures Adds(s, s2, path, files, i + 1)
  {
    var dst := path + [files[i].name];
    forall k | 0 <= k < i
      ensures files[k].name != files[i].name && Made(s, s2, path + [files[k].name], files[k].content)
    {
      MadeStays(s, s1, s2, path + [files[k].name], files[k].content, dst);
    }
    forall q | q in s2.tree && q !in s.tree ensures Among(q, path, files, i + 1) {
      assert q == dst || Among(q, path, files, i);
    }
  }

  ghost predicate Apart(a: Path, b: Path) { !(a <= b) && !(b <= a) }

  // A history of the store: states[i] becomes states[i + 1] by ops[i].
  ghost predicate History(states: seq<FS>, ops: seq<StoreOp>) {
    && |states| == |ops| + 1
    && forall i :: 0 <= i < |ops| ==> Happens(states[i], ops[i], states[i + 1])
  }

  // A directory apart from everything operated on keeps its entries and their contents.
  ghost predicate SameDir(s: FS, s': FS, dir: Path) {
    forall n :: (dir + [n] in s'.tree <==> dir + [n] in s.tree)
      && (dir + [n] in s.tree ==> s'.tree[dir + [n]] == s.tree[dir + [n]])
      && (IsFile(s, dir + [n]) ==> IsFile(s', dir + [n]) && Read(s', dir + [n]) == Read(s, dir + [n]))
  }

  lemma StepKeepsDir(s: FS, s': FS, target: Path, dir: Path)
    requires Confined(s, s', target) && Apart(dir, target)
    ensures SameDir(s, s', dir)
  {
    forall n ensures !(target <= dir + [n]) && !(dir + [n] <= target) {}
  }

  lemma {:induction false} HistoryKeepsDir(states: seq<FS>, ops: seq<StoreOp>, i: nat, j: nat, dir: Path)
    requires History(states, ops) && i <= j <= |ops|
    requires forall k :: i <= k < j ==> Apart(dir, Target(ops[k]))
    ensures SameDir(states[i], states[j], dir)
    decreases j
  {
    if i < j {
      HistoryKeepsDir(states, ops, i, j - 1, dir);
      StepKeepsDir(states[j - 1], states[j], Target(ops[j - 1]), dir);
    }
  }

  lemma CloneCarriesOver(s: FS, t: FS, tpl: Path, s': FS, t': FS, overlay: Path, socket: string)
    requires IsClone(s, tpl, s', overlay, socket) && SameDir(t, s, tpl) && SameDir(s', t', overlay) && WellFormed(t)
    ensures IsClone(t, tpl, t', overlay, socket)
  {
    assert IsFile(s, tpl + [CONFIG]);
    assert IsFile(t, tpl + [CONFIG]);
    assert IsFile(s', overlay + [CONFIG]);
  }

  // Re-snapshot isolation: once prepared, an overlay stays the clone of its template
  // as it was when the clone was made, whatever happens elsewhere in the store, the
  // replacement or removal of the template itself included.
  lemma ResnapshotIsolation(states: seq<FS>, ops: seq<StoreOp>, i: nat, j: nat)
    requires History(states, ops) && i < j <= |ops| && WellFormed(states[i])
    requires ops[i].CloneInto? && ops[i].ok
    requires forall k :: i < k < j ==> Apart(OverlayOf(ops[i].dir), Target(ops[k]))
    ensures IsClone(states[i], ops[i].tpl, states[j], OverlayOf(ops[i].dir), ops[i].socket)
  {
    HistoryKeepsDir(states, ops, i + 1, j, OverlayOf(ops[i].dir));
    CloneCarriesOver(states[i], states[i], ops[i].tpl, states[i + 1], states[j], OverlayOf(ops[i].dir), ops[i].socket);
  }

  // N clones: as long as every operation is apart from the template, and from the
  // overlays of the clones made before it, the template is unchanged at the end and
  // every successful clone is a clone of it.
  lemma NClones(states: seq<FS>, ops: seq<StoreOp>, tpl: Path)
    requires History(states, ops) && WellFormed(states[0])
    requires forall k :: 0 <= k < |ops| ==> Apart(tpl, Target(ops[k]))
    requires forall i, k :: 0 <= i < k < |ops| && ops[i].CloneInto? && ops[i].ok ==>
      Apart(OverlayOf(ops[i].dir), Target(ops[k]))
    ensures SameDir(states[0], states[|ops|], tpl)
    ensures forall i :: 0 <= i < |ops| && ops[i].CloneInto? && ops[i].ok && ops[i].tpl == tpl ==>
      IsClone(states[0], tpl, states[|ops|], OverlayOf(ops[i].dir), ops[i].socket)
  {
    HistoryKeepsDir(states, ops, 0, |ops|, tpl);
    forall i | 0 <= i < |ops| && ops[i].CloneInto? && ops[i].ok && ops[i].tpl == tpl
      ensures IsClone(states[0], tpl, states[|ops|], OverlayOf(ops[i].dir), ops[i].socket)
    {
      HistoryKeepsDir(states, ops, 0, i, tpl);
      HistoryKeepsDir(states, ops, i + 1, |ops|, OverlayOf(ops[i].dir));
      CloneCarriesOver(states[i], states[0], tpl, states[i + 1], states[|ops|], OverlayOf(ops[i].dir), ops[i].socket);
    }
  }
}
