// A file system as names, inodes and contents: a hard link is a second name for one
// inode, removing a name leaves the inode to its other names, and writing to an
// existing file rewrites its inode in place (link() and unlink() in the System
// Interfaces volume of IEEE Std 1003.1-2017).
module Files {

  type Path = seq<string>
  type Ino = nat

  datatype Json =
    Null | Bool(b: bool) | Num(n: int) | Str(s: string) | Arr(elems: seq<Json>) | Obj(fields: map<string, Json>)

  // What a file holds: a JSON document, or bytes that are not one.
  datatype Content = Doc(json: Json) | Raw(bytes: seq<int>)

  datatype Node = Dir | File(ino: Ino)

  datatype FS = FS(tree: map<Path, Node>, data: map<Ino, Content>, next: Ino)

  ghost predicate WellFormed(s: FS) {
    && (forall p :: p in s.tree && s.tree[p].File? ==> s.tree[p].ino in s.data)
    && (forall i :: i in s.data ==> i < s.next)
  }

  ghost predicate IsFile(s: FS, p: Path) {
    p in s.tree && s.tree[p].File? && s.tree[p].ino in s.data
  }

  ghost function Read(s: FS, p: Path): Content
    requires IsFile(s, p)
  {
    s.data[s.tree[p].ino]
  }

  // Nothing exists at or below dir.
  ghost predicate Vacant(s: FS, dir: Path) {
    forall q :: q in s.tree ==> !(dir <= q)
  }

  // From s to s' only names at or below dir changed, apart from directories made on
  // the way to it, and no inode that existed was written.
  ghost predicate Confined(s: FS, s': FS, dir: Path) {
    && (forall q :: q in s.tree && !(dir <= q) ==> q in s'.tree && s'.tree[q] == s.tree[q])
    && (forall q :: q in s'.tree && !(dir <= q) && q !in s.tree ==> q <= dir && s'.tree[q].Dir?)
    && (forall i :: i in s.data ==> i in s'.data && s'.data[i] == s.data[i])
  }

  lemma ConfinedTransitive(a: FS, b: FS, c: FS, dir: Path)
    requires Confined(a, b, dir) && Confined(b, c, dir)
    ensures Confined(a, c, dir)
  {
  }

  // Directory entries, as ReadDir lists them.
  datatype DirEntry = DirEntry(name: string, isDir: bool)

  ghost predicate Lists(s: FS, dir: Path, entries: seq<DirEntry>) {
    && (forall i, j :: 0 <= i < j < |entries| ==> entries[i].name != entries[j].name)
    && (forall i :: 0 <= i < |entries| ==>
          dir + [entries[i].name] in s.tree && entries[i].isDir == s.tree[dir + [entries[i].name]].Dir?)
    && (forall n :: dir + [n] in s.tree ==> DirEntry(n, s.tree[dir + [n]].Dir?) in entries)
  }

  // How an operation goes: whether it fails, and whether a failed write left a file and
  // what in it.
  datatype Luck = Luck(fault: bool, made: bool, junk: Content)

  function MakeDir(s: FS, p: Path, luck: Luck): (FS, bool) {
    if luck.fault || (p in s.tree && s.tree[p].File?) then (s, false)
    else if p in s.tree then (s, true)
    else (s.(tree := s.tree[p := Dir]), true)
  }

  function LinkTo(s: FS, src: Path, dst: Path, luck: Luck): (FS, bool) {
    if !luck.fault && src in s.tree && s.tree[src].File? && dst !in s.tree
    then (s.(tree := s.tree[dst := s.tree[src]]), true)
    else (s, false)
  }

  function WriteTo(s: FS, p: Path, content: Content, luck: Luck): (FS, bool) {
    if (p in s.tree && s.tree[p].Dir?) || (p !in s.tree && luck.fault && !luck.made) then (s, false)
    else
      var s1 := if p in s.tree then s else s.(tree := s.tree[p := File(s.next)], next := s.next + 1);
      (s1.(data := s1.data[s1.tree[p].ino := if luck.fault then luck.junk else content]), !luck.fault)
  }

  // No file is in the way of making directory p.
  ghost predicate Makeable(s: FS, p: Path) {
    forall q :: q in s.tree && q <= p ==> s.tree[q].Dir?
  }

  // The operations of package os that the driver uses. Each may fail for reasons of
  // its own, leaving what its contract says. Those failures are counted, the refusals
  // of a hard link (to another device, say) apart from the others.
  class FileSystem {
    var tree: map<Path, Node>
    var data: map<Ino, Content>
    var next: Ino
    ghost var faults: nat
    ghost var refusals: nat

    ghost function View(): FS
      reads this`tree, this`data, this`next
    {
      FS(tree, data, next)
    }

    ghost predicate Valid()
      reads this`tree, this`data, this`next
    {
      WellFormed(View())
    }

    // Does the operation under way fail for a reason of its own?
    method Fault() returns (fault: bool)
      modifies this`faults
      ensures faults == old(faults) + if fault then 1 else 0
    {
      fault := *;
      faults := faults + if fault then 1 else 0;
    }

    // One level; a directory that is there already will do.
    method Mkdir(p: Path) returns (ok: bool)
      requires Valid()
      modifies this`tree, this`faults
      ensures Valid() && exists luck :: (View(), ok) == MakeDir(old(View()), p, luck)
      ensures ok || old(faults) < faults || (p in tree && tree[p].File?)
      ensures old(faults) <= faults
    {
      var fault := Fault();
      ghost var luck := Luck(fault, false, Raw([]));
      ok := !fault && (p in tree ==> tree[p].Dir?);
      if ok && p !in tree {
        tree := tree[p := Dir];
      }
      assert (View(), ok) == MakeDir(old(View()), p, luck);
    }

    method MkdirAll(p: Path) returns (ok: bool)
      requires Valid()
      modifies this`tree, this`faults
      ensures Valid() && Confined(old(View()), View(), p)
      ensures forall q :: q in old(tree) ==> q in tree && tree[q] == old(tree)[q]
      ensures forall q :: q in tree && q !in old(tree) ==> q <= p && tree[q].Dir?
      ensures ok ==> p in tree && tree[p].Dir?
      ensures old(faults) <= faults && (ok || old(faults) < faults || !old(Makeable(View(), p)))
    {
      ok := true;
      var k := 0;
      while k <= |p|
        invariant 0 <= k <= |p| + 1 && Valid()
        invariant forall q :: q in old(tree) ==> q in tree && tree[q] == old(tree)[q]
        invariant forall q :: q in tree && q !in old(tree) ==> q <= p && tree[q].Dir?
        invariant k > 0 ==> p[..k - 1] in tree && tree[p[..k - 1]].Dir?
        invariant old(faults) <= faults
      {
        ok := Mkdir(p[..k]);
        if !ok {
          return;
        }
        k := k + 1;
      }
      assert p[..|p|] == p;
    }

    method ReadDir(p: Path) returns (ok: bool, entries: seq<DirEntry>)
      requires Valid()
      modifies this`faults
      ensures ok ==> p in tree && tree[p].Dir? && Lists(View(), p, entries)
      ensures old(faults) <= faults && (ok || old(faults) < faults || !(p in tree && tree[p].Dir?))
    {
      entries := [];
      var fault := Fault();
      ok := !fault && p in tree && tree[p].Dir?;
      if !ok {
        return;
      }
      var left := set q | q in tree && |q| == |p| + 1 && p <= q;
      ghost var all := left;
      while left != {}
        invariant left <= all
        invariant forall i, j :: 0 <= i < j < |entries| ==> entries[i].name != entries[j].name
        invariant forall i :: 0 <= i < |entries| ==> var q := p + [entries[i].name];
          q in all - left && entries[i].isDir == tree[q].Dir?
        invariant forall q :: q in all - left ==> DirEntry(q[|p|], tree[q].Dir?) in entries
      {
        var q :| q in left;
        assert q == p + [q[|p|]];
        entries := entries + [DirEntry(q[|p|], tree[q].Dir?)];
        left := left - {q};
      }
      forall n | p + [n] in tree ensures DirEntry(n, tree[p + [n]].Dir?) in entries {
        assert p + [n] in all && (p + [n])[|p|] == n;
      }
    }

    method Link(src: Path, dst: Path) returns (ok: bool)
      requires Valid()
      modifies this`tree, this`refusals
      ensures Valid()
      ensures ok ==> src in old(tree) && old(tree)[src].File? && dst !in old(tree)
      ensures ok ==> tree == old(tree)[dst := old(tree)[src]]
      ensures !ok ==> tree == old(tree)
      ensures old(refusals) <= refusals
      ensures ok || old(refusals) < refusals || !(src in tree && tree[src].File?) || dst in tree
      ensures exists luck :: (View(), ok) == LinkTo(old(View()), src, dst, luck)
    {
      var fault: bool := *;
      refusals := refusals + if fault then 1 else 0;
      ghost var luck := Luck(fault, false, Raw([]));
      ok := !fault && src in tree && tree[src].File? && dst !in tree;
      if ok {
        tree := tree[dst := tree[src]];
      }
      assert (View(), ok) == LinkTo(old(View()), src, dst, luck);
    }

    method ReadFile(p: Path) returns (ok: bool, content: Content)
      requires Valid()
      modifies this`faults
      ensures ok ==> IsFile(View(), p) && content == Read(View(), p)
      ensures old(faults) <= faults && (ok || old(faults) < faults || !IsFile(View(), p))
    {
      content := Raw([]);
      var fault := Fault();
      ok := !fault && p in tree && tree[p].File?;
      if ok {
        content := data[tree[p].ino];
      }
    }

    // An existing file is truncated and rewritten in place; a new one gets an inode
    // of its own. A failed write may leave anything in the file.
    method WriteFile(p: Path, content: Content) returns (ok: bool)
      requires Valid()
      modifies this`tree, this`data, this`next, this`faults
      ensures Valid() && (ok ==> IsFile(View(), p) && Read(View(), p) == content)
      ensures forall q :: q != p ==> (q in tree <==> q in old(tree)) && (q in tree ==> tree[q] == old(tree)[q])
      ensures p in old(tree) ==> p in tree && tree[p] == old(tree)[p]
      ensures p !in old(tree) && p in tree ==> tree[p].File? && tree[p].ino !in old(data)
      ensures forall i :: i in old(data) ==> i in data
      ensures forall i :: i in old(data) && !(p in old(tree) && old(tree)[p] == File(i)) ==> data[i] == old(data)[i]
      ensures old(faults) <= faults && (ok || old(faults) < faults || (p in tree && tree[p].Dir?))
      ensures exists luck :: (View(), ok) == WriteTo(old(View()), p, content, luck)
    {
      var made: bool, partial: seq<int> := *, *;
      var fault := Fault();
      ghost var luck := Luck(fault, made, Raw(partial));
      if p in tree && tree[p].Dir? {
        ok := false;
      } else if p !in tree && fault && !made {
        ok := false;
      } else {
        if p !in tree {
          tree, next := tree[p := File(next)], next + 1;
        }
        ok := !fault;
        data := data[tree[p].ino := if fault then Raw(partial) else content];
      }
      assert (View(), ok) == WriteTo(old(View()), p, content, luck);
    }

    // Unlinks p and all below it; on failure, possibly only some of it.
    method RemoveAll(p: Path) returns (ok: bool)
      requires Valid()
      modifies this`tree, this`faults
      ensures Valid() && Confined(old(View()), View(), p)
      ensures forall q :: q in tree ==> q in old(tree) && tree[q] == old(tree)[q]
      ensures ok ==> Vacant(View(), p)
      ensures old(faults) <= faults && (ok || old(faults) < faults)
    {
      ok := true;
      var left := set q | q in tree && p <= q;
      while left != {}
        invariant Valid() && left <= old(tree).Keys && forall q :: q in left ==> p <= q
        invariant forall q :: q in tree ==> q in old(tree) && tree[q] == old(tree)[q]
        invariant forall q :: q in old(tree) && !(p <= q) ==> q in tree
        invariant forall q :: q in tree && p <= q ==> q in left
        invariant old(faults) <= faults
      {
        var fault := Fault();
        if fault {
          return false;
        }
        var q :| q in left;
        tree := tree - {q};
        left := left - {q};
      }
    }
  }
}
