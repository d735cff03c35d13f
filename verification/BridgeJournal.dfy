/**
 The undo journal. Every change to the tree is recorded before it is made, so a failure at any
 point, inside a write, while parents are made, inside a delete or while directories are pruned,
 can be undone exactly.
 */
module BridgeJournal {
  import opened Prelude
  import opened Canonical
  import opened BridgePaths
  import opened BridgeDelta
  import opened BridgeTree

  const EXECUTABLE_MODE := 493
  const REGULAR_MODE := 420

  datatype Action = WriteAction | DeleteAction

  /** One recorded change: the file that was at the target before it, if there was one. */
  datatype Step = Step(action: Action, target: Path, backup: Option<File>)

  // --- Undoing steps, as a function of the files ---

  function UndoStep(files: map<Path, File>, s: Step): map<Path, File> {
    match s.backup
    case Some(file) => files[s.target := file]
    case None => files - {s.target}
  }

  /** The files after the steps are undone, last one first. */
  function Undone(files: map<Path, File>, steps: seq<Step>): map<Path, File>
    decreases |steps|
  {
    if steps == [] then files
    else Undone(UndoStep(files, steps[|steps| - 1]), steps[..|steps| - 1])
  }

  lemma UndoneAppend(files: map<Path, File>, steps: seq<Step>, s: Step)
    ensures Undone(files, steps + [s]) == Undone(UndoStep(files, s), steps)
  {
    assert (steps + [s])[..|steps|] == steps;
  }

  // --- Directories that were made and pruned ---

  /** Made directories are new, listed once, and listed after their parents. */
  ghost predicate CreatedOk(orig: set<Path>, created: seq<Path>) {
    && Distinct(created) && SetOf(created) !! orig
    && forall i :: 0 <= i < |created| ==>
       created[i] != [] && (InDirs(orig, Parent(created[i])) || Parent(created[i]) in created[..i])
  }

  /** Pruned directories are gone, listed once, and listed before their parents. */
  ghost predicate PrunedOk(files: set<Path>, dirs: set<Path>, pruned: seq<Path>) {
    && Distinct(pruned) && SetOf(pruned) !! dirs && SetOf(pruned) !! files
    && forall i :: 0 <= i < |pruned| ==>
       pruned[i] != [] && (InDirs(dirs, Parent(pruned[i])) || Parent(pruned[i]) in pruned[i + 1..])
  }

  /** A step can be undone: its target is not a directory, and a backup has a directory to return to. */
  ghost predicate StepOk(dirs: set<Path>, s: Step) {
    && s.target != [] && s.target !in dirs
    && (s.backup.Some? ==> InDirs(dirs, Parent(s.target)))
    && (s.action == DeleteAction ==> s.backup.Some?)
  }

  /** No file lies at p or at an ancestor of p. */
  ghost predicate NoFileUpTo(files: set<Path>, p: Path) {
    forall q :: q in files ==> !(q <= p)
  }

  lemma ShorterPrefix(d: Path, p: Path)
    requires d <= p && d != p
    ensures d <= Parent(p)
  {
  }

  /** Every directory on the way to one that is not empty holds the next one. */
  lemma {:induction false} AncestorsFull(tree: FileTree, p: Path)
    requires tree.Valid() && InDirs(tree.dirs, p) && (p == [] || !tree.Empty(p))
    ensures forall d :: d in tree.dirs && d <= p ==> !tree.Empty(d)
    decreases |p|
  {
    if p != [] {
      AncestorsFull(tree, Parent(p));
      forall d | d in tree.dirs && d <= p && d != p
        ensures !tree.Empty(d)
      {
        ShorterPrefix(d, p);
      }
    }
  }

  class Journal {
    const tree: FileTree
    ghost const origFiles: map<Path, File>
    ghost const origDirs: set<Path>
    var steps: seq<Step>
    var createdDirs: seq<Path>
    var prunedDirs: seq<Path>

    /** Undoing the recorded steps gives back the original tree. */
    ghost predicate Inv()
      reads this, tree
    {
      && tree.Valid()
      && WellFormed(origFiles.Keys, origDirs)
      && Undone(tree.files, steps) == origFiles
      && tree.dirs + SetOf(prunedDirs) == origDirs + SetOf(createdDirs)
      && CreatedOk(origDirs, createdDirs)
      && PrunedOk(tree.files.Keys, tree.dirs, prunedDirs)
      && forall s :: s in steps ==> StepOk(tree.dirs + SetOf(prunedDirs), s)
    }

    /** Only writes have been made, and all of them are in place. */
    ghost predicate Writing()
      reads this, tree
    {
      prunedDirs == [] && forall s :: s in steps ==> s.target in tree.files
    }

    constructor (tree: FileTree)
      requires tree.Valid()
      ensures this.tree == tree && origFiles == tree.files && origDirs == tree.dirs
      ensures steps == [] && Inv() && Writing()
    {
      this.tree := tree;
      origFiles, origDirs := tree.files, tree.dirs;
      steps, createdDirs, prunedDirs := [], [], [];
      new;
      assert tree.dirs + SetOf<Path>([]) == tree.dirs;
    }

    /** Make one directory and remember it. */
    method MakeDir(p: Path) returns (ok: bool)
      requires Inv() && Writing() && p != [] && p !in tree.dirs
      modifies this`createdDirs, tree`dirs
      ensures Inv() && Writing()
      ensures tree.dirs == if ok then old(tree.dirs) + {p} else old(tree.dirs)
      ensures !tree.failing && p !in tree.files && InDirs(old(tree.dirs), Parent(p)) ==> ok
    {
      ok := tree.Mkdir(p);
      if ok {
        CreatedGrows(origDirs, createdDirs, p);
        createdDirs := createdDirs + [p];
        assert tree.dirs + SetOf(prunedDirs) == origDirs + SetOf(createdDirs);
        assert forall s :: s in steps ==> StepOk(tree.dirs, s);
      }
    }

    /** The ancestors of a path, itself included, that do not exist, deepest first. */
    method Missing(parent: Path) returns (missing: seq<Path>)
      ensures |missing| <= |parent| && tree.Exists(parent[..|parent| - |missing|])
      ensures forall k :: 0 <= k < |missing| ==> missing[k] == parent[..|parent| - k] && !tree.Exists(missing[k])
    {
      missing := [];
      var p := parent;
      while !tree.Exists(p)
        invariant |missing| <= |parent| && p == parent[..|parent| - |missing|]
        invariant forall k :: 0 <= k < |missing| ==> missing[k] == parent[..|parent| - k] && !tree.Exists(missing[k])
        decreases |p|
      {
        missing := missing + [p];
        p := Parent(p);
      }
    }

    method MakeParents(parent: Path) returns (ok: bool)
      requires Inv() && Writing()
      modifies this`createdDirs, tree`dirs
      ensures Inv() && Writing()
      ensures old(tree.dirs) <= tree.dirs
      ensures forall d :: d in tree.dirs && d !in old(tree.dirs) ==> d <= parent
      ensures ok ==> tree.Exists(parent)
      ensures !tree.failing && NoFileUpTo(tree.files.Keys, parent) ==> ok && InDirs(tree.dirs, parent)
    {
      hide Inv, Writing;
      var missing := Missing(parent);
      assert parent[..|parent|] == parent;
      ghost var clear := NoFileUpTo(tree.files.Keys, parent);
      var i := |missing|;
      while i > 0
        invariant 0 <= i <= |missing|
        invariant Inv() && Writing()
        invariant old(tree.dirs) <= tree.dirs
        invariant forall d :: d in tree.dirs && d !in old(tree.dirs) ==> d <= parent && |d| <= |parent| - i
        invariant i < |missing| ==> missing[i] in tree.dirs
        invariant clear ==> InDirs(tree.dirs, parent[..|parent| - i])
      {
        i := i - 1;
        assert Parent(missing[i]) == parent[..|parent| - i - 1];
        var made := MakeDir(missing[i]);
        if !made {
          return false;
        }
      }
      ok := true;
    }

    /** Put the delta's content at a path; the previous content, if any, is recorded first. */
    method Write(path: Path, content: Bytes, executable: bool) returns (ok: bool)
      requires Inv() && Writing() && path != []
      modifies this`steps, this`createdDirs, tree`files, tree`dirs
      ensures Inv()
      ensures ok ==> Writing()
      ensures tree.files == if ok then old(tree.files)[path := File(content, ModeOf(executable))] else old(tree.files)
      ensures old(tree.dirs) <= tree.dirs
      ensures forall d :: d in tree.dirs && d !in old(tree.dirs) ==> d < path
      ensures !tree.failing && path !in old(tree.dirs) && NoFileUpTo(old(tree.files).Keys, Parent(path)) ==> ok
    {
      var backup: Option<File> := None;
      if tree.Exists(path) {
        var fault := tree.Fault();
        if fault || path !in tree.files {
          return false;
        }
        backup := Some(tree.files[path]);
      }
      var made := MakeParents(Parent(path));
      assert !(path <= Parent(path));
      ok := false;
      if made {
        ok := Put(path, File(content, ModeOf(executable)), backup);
      }
    }

    /** Record the write and make it. */
    method Put(path: Path, file: File, backup: Option<File>) returns (ok: bool)
      requires Inv() && Writing() && path != [] && path !in tree.dirs
      requires backup == if path in tree.files then Some(tree.files[path]) else None
      modifies this`steps, tree`files
      ensures Inv()
      ensures ok ==> Writing()
      ensures tree.files == if ok then old(tree.files)[path := file] else old(tree.files)
      ensures !tree.failing && InDirs(tree.dirs, Parent(path)) ==> ok
    {
      hide CreatedOk, Undone, StepOk;
      ghost var files := tree.files;
      Record(Step(WriteAction, path, backup));
      ok := tree.Replace(path, file.content, file.mode);
      if ok {
        UndoneReplaced(files, steps, file);
      }
    }

    /** Record a step before it is made: undoing it now changes nothing. */
    method Record(s: Step)
      requires Inv() && s.target != [] && s.target !in tree.dirs + SetOf(prunedDirs)
      requires s.backup == if s.target in tree.files then Some(tree.files[s.target]) else None
      requires s.action == DeleteAction ==> s.backup.Some?
      modifies this`steps
      ensures Inv() && steps == old(steps) + [s]
    {
      UndoneAppend(tree.files, steps, s);
      assert UndoStep(tree.files, s) == tree.files;
      steps := steps + [s];
    }

    /** Remove a file and then every directory that this leaves empty. */
    method Delete(path: Path) returns (ok: bool)
      requires Inv() && path != []
      modifies this`steps, this`prunedDirs, tree`files, tree`dirs
      ensures Inv()
      ensures ok ==> path in old(tree.files) && tree.files == old(tree.files) - {path}
      ensures tree.dirs <= old(tree.dirs)
      ensures forall d :: d in old(tree.dirs) && d !in tree.dirs ==> d < path
      ensures ok ==> forall d :: d in tree.dirs && d < path ==> !tree.Empty(d)
      ensures !tree.failing && path in old(tree.files) ==> ok
    {
      var fault := tree.Fault();
      if fault || path !in tree.files {
        return false;
      }
      ghost var files := tree.files;
      Record(Step(DeleteAction, path, Some(tree.files[path])));
      ok := tree.Unlink(path);
      if !ok {
        return;
      }
      UndoneRemoved(files, steps);
      ok := Prune(Parent(path));
    }

    method Prune(from: Path) returns (ok: bool)
      requires Inv() && InDirs(tree.dirs, from)
      modifies this`prunedDirs, tree`dirs
      ensures Inv()
      ensures tree.dirs <= old(tree.dirs)
      ensures forall d :: d in old(tree.dirs) && d !in tree.dirs ==> d <= from
      ensures ok ==> forall d :: d in tree.dirs && d <= from ==> !tree.Empty(d)
      ensures !tree.failing ==> ok
    {
      assert tree.Valid();
      hide Inv;
      var parent := from;
      while parent != [] && tree.Empty(parent)
        invariant Inv() && tree.Valid() && InDirs(tree.dirs, parent) && parent <= from
        invariant tree.dirs <= old(tree.dirs)
        invariant forall d :: d in old(tree.dirs) && d !in tree.dirs ==> d <= from
        invariant forall d :: d in tree.dirs && d <= from ==> d <= parent
        decreases |parent|
      {
        var removed := PruneDir(parent);
        if !removed {
          return false;
        }
        forall d | d in tree.dirs && d <= from
          ensures d <= Parent(parent)
        {
          ShorterPrefix(d, parent);
        }
        parent := Parent(parent);
      }
      AncestorsFull(tree, parent);
      ok := true;
    }

    method PruneDir(p: Path) returns (ok: bool)
      requires Inv() && p in tree.dirs
      modifies this`prunedDirs, tree`dirs
      ensures Inv() && tree.Valid()
      ensures tree.dirs == if ok then old(tree.dirs) - {p} else old(tree.dirs)
      ensures ok ==> p != [] && InDirs(tree.dirs, Parent(p))
      ensures !tree.failing && old(tree.Empty(p)) ==> ok
    {
      ok := tree.Rmdir(p);
      if ok {
        PrunedGrows(tree.files.Keys, old(tree.dirs), prunedDirs, p);
        prunedDirs := prunedDirs + [p];
        assert tree.dirs + SetOf(prunedDirs) == old(tree.dirs) + SetOf(old(prunedDirs));
      }
    }

    // --- Rollback ---

    /** Put everything back: directories, then files, then the directories that were only made here. */
    method Rollback()
      requires Inv() && !tree.failing
      modifies this, tree`files, tree`dirs
      ensures tree.files == origFiles && tree.dirs == origDirs
    {
      RestoreDirs();
      UndoSteps();
      RemoveCreated();
    }

    method RestoreDirs()
      requires Inv() && !tree.failing
      modifies tree`dirs
      ensures tree.Valid()
      ensures tree.dirs == origDirs + SetOf(createdDirs)
    {
      var i := |prunedDirs|;
      while i > 0
        invariant 0 <= i <= |prunedDirs|
        invariant tree.Valid() && tree.dirs == old(tree.dirs) + SetOf(prunedDirs[i..])
      {
        i := i - 1;
        var d := prunedDirs[i];
        assert prunedDirs[i..] == [d] + prunedDirs[i + 1..];
        assert d !in prunedDirs[i + 1..];
        var made := tree.Mkdir(d);
      }
      assert prunedDirs[0..] == prunedDirs;
    }

    method UndoSteps()
      requires tree.Valid() && !tree.failing && Undone(tree.files, steps) == origFiles
      requires forall s :: s in steps ==> StepOk(tree.dirs, s)
      modifies tree`files
      ensures tree.Valid() && tree.files == origFiles
    {
      var i := |steps|;
      assert steps[..i] == steps;
      while i > 0
        invariant 0 <= i <= |steps|
        invariant tree.Valid() && Undone(tree.files, steps[..i]) == origFiles
      {
        i := i - 1;
        var s := steps[i];
        assert steps[..i + 1] == steps[..i] + [s];
        UndoneAppend(tree.files, steps[..i], s);
        UndoOne(s);
      }
    }

    method UndoOne(s: Step)
      requires tree.Valid() && !tree.failing && StepOk(tree.dirs, s)
      modifies tree`files
      ensures tree.Valid() && tree.files == UndoStep(old(tree.files), s)
    {
      match s.backup {
        case Some(file) =>
          var put := tree.Replace(s.target, file.content, file.mode);
        case None =>
          if s.target in tree.files {
            var gone := tree.Unlink(s.target);
          } else {
            assert tree.files - {s.target} == tree.files;
          }
      }
    }

    method RemoveCreated()
      requires tree.Valid() && !tree.failing && tree.files == origFiles
      requires WellFormed(origFiles.Keys, origDirs) && CreatedOk(origDirs, createdDirs)
      requires tree.dirs == origDirs + SetOf(createdDirs)
      modifies tree`dirs
      ensures tree.dirs == origDirs
    {
      hide CreatedOk, WellFormed;
      var i := |createdDirs|;
      assert createdDirs[..i] == createdDirs;
      while i > 0
        invariant 0 <= i <= |createdDirs|
        invariant tree.Valid() && tree.dirs == origDirs + SetOf(createdDirs[..i])
      {
        i := i - 1;
        var d := createdDirs[i];
        CreatedStep(origDirs, createdDirs, i);
        LastCreatedIsEmpty(origFiles.Keys, origDirs, createdDirs, i);
        if d in tree.dirs && tree.Empty(d) {
          var removed := tree.Rmdir(d);
        }
      }
    }
  }

  function ModeOf(executable: bool): nat {
    if executable then EXECUTABLE_MODE else REGULAR_MODE
  }

  /** Once a recorded write is made, undoing it gives what undoing it before gave. */
  lemma UndoneReplaced(files: map<Path, File>, steps: seq<Step>, file: File)
    requires steps != []
    requires var s := steps[|steps| - 1]; s.backup == if s.target in files then Some(files[s.target]) else None
    ensures var s := steps[|steps| - 1]; Undone(files[s.target := file], steps) == Undone(files, steps)
  {
    var s := steps[|steps| - 1];
    assert UndoStep(files[s.target := file], s) == UndoStep(files, s);
  }

  lemma UndoneRemoved(files: map<Path, File>, steps: seq<Step>)
    requires steps != []
    requires var s := steps[|steps| - 1]; s.target in files && s.backup == Some(files[s.target])
    ensures var s := steps[|steps| - 1]; Undone(files - {s.target}, steps) == Undone(files, steps)
  {
    var s := steps[|steps| - 1];
    assert UndoStep(files - {s.target}, s) == UndoStep(files, s);
  }

  lemma PrunedGrows(files: set<Path>, dirs: set<Path>, pruned: seq<Path>, p: Path)
    requires PrunedOk(files, dirs, pruned) && WellFormed(files, dirs) && p in dirs
    ensures PrunedOk(files, dirs - {p}, pruned + [p])
  {
    var more, left := pruned + [p], dirs - {p};
    forall i | 0 <= i < |more|
      ensures more[i] != [] && (InDirs(left, Parent(more[i])) || Parent(more[i]) in more[i + 1..])
    {
      if i < |pruned| {
        assert more[i + 1..] == pruned[i + 1..] + [p];
      }
    }
  }

  lemma CreatedStep(orig: set<Path>, created: seq<Path>, i: nat)
    requires CreatedOk(orig, created) && i < |created|
    ensures var before := orig + SetOf(created[..i]);
            created[i] !in before && orig + SetOf(created[..i + 1]) == before + {created[i]}
  {
    assert created[..i + 1] == created[..i] + [created[i]];
    assert created[i] in SetOf(created);
  }

  /** No file and no other directory lies in the last directory that was made. */
  lemma LastCreatedIsEmpty(files: set<Path>, orig: set<Path>, created: seq<Path>, i: nat)
    requires WellFormed(files, orig) && CreatedOk(orig, created) && i < |created|
    ensures forall q :: q in files + orig + SetOf(created[..i + 1]) && q != [] ==> Parent(q) != created[i]
  {
    var d := created[i];
    assert d in SetOf(created);
    forall q | q in SetOf(created[..i + 1]) && q != []
      ensures Parent(q) != d
    {
      var k :| 0 <= k <= i && created[k] == q;
      assert d !in created[..k] by {
        assert forall m :: 0 <= m < k ==> created[m] != created[i];
      }
      assert |d| > 0;
    }
  }

  lemma CreatedGrows(orig: set<Path>, created: seq<Path>, p: Path)
    requires CreatedOk(orig, created) && p != [] && p !in orig && p !in created
    requires InDirs(orig, Parent(p)) || Parent(p) in created
    ensures CreatedOk(orig, created + [p])
  {
    var more := created + [p];
    forall i | 0 <= i < |more|
      ensures more[i] != [] && (InDirs(orig, Parent(more[i])) || Parent(more[i]) in more[..i])
    {
      if i < |created| {
        assert more[..i] == created[..i];
      } else {
        assert more[..i] == created;
      }
    }
  }
}
