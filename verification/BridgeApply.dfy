/** Applying a validated delta to the candidate: planned fully, journaled, and undone on any failure. */
module BridgeApply {
  import opened Prelude
  import opened Canonical
  import opened BridgePaths
  import opened BridgeDelta
  import opened BridgeCheck
  import opened BridgeTree
  import opened BridgeJournal

  datatype ApplyError = Unsafe | Conflict | Failed

  // --- The plan ---

  predicate IsExecutable(mode: nat) {
    mode % 2 == 1 || mode / 8 % 2 == 1 || mode / 64 % 2 == 1
  }

  /** The owner's, the group's or the others' digit of the mode allows execution. */
  lemma ModeDigits(owner: nat, group: nat, others: nat)
    requires owner < 8 && group < 8 && others < 8
    ensures IsExecutable(owner * 64 + group * 8 + others) <==> owner % 2 == 1 || group % 2 == 1 || others % 2 == 1
    ensures EXECUTABLE_MODE == 7 * 64 + 5 * 8 + 5 && REGULAR_MODE == 6 * 64 + 4 * 8 + 4
  {
    var mode := owner * 64 + group * 8 + others;
    assert mode / 64 == owner && mode / 8 == owner * 8 + group;
  }

  predicate Matches(files: map<Path, File>, path: string, expected: Entry) {
    var p := Split(path);
    p in files && IsExecutable(files[p].mode) == expected.executable && Sha256(files[p].content) == expected.sha256
  }

  /** The added entries that the candidate's ignore rules do not cover. */
  function NotIgnored(added: seq<Entry>, ignored: set<string>): (r: seq<Entry>)
    ensures forall e :: e in r <==> e in added && e.path !in ignored
  {
    if added == [] then []
    else
      var last := added[|added| - 1];
      NotIgnored(added[..|added| - 1], ignored) + if last.path in ignored then [] else [last]
  }

  /** The entries that will be written, in order. */
  function Writes(delta: Delta, ignored: set<string>): seq<Entry> {
    delta.changed + NotIgnored(delta.added, ignored)
  }

  function AllPaths(delta: Delta): seq<string> {
    PathsOf(delta.changed) + PathsOf(delta.added) + delta.deleted
  }

  /** No parent of the path is a file. */
  predicate ParentsClear(files: set<Path>, p: Path) {
    forall k :: 0 < k < |p| ==> p[..k] !in files
  }

  /** The first path that leads into .git or through a file, in the order the plan visits them. */
  function FirstTarget(files: set<Path>, paths: seq<string>): (problem: Option<ApplyError>)
    ensures problem.None? <==> forall p :: p in paths ==> !IsGit(Split(p)[0]) && ParentsClear(files, Split(p))
  {
    if paths == [] then None
    else if IsGit(Split(paths[0])[0]) then Some(Unsafe)
    else if !ParentsClear(files, Split(paths[0])) then Some(Conflict)
    else FirstTarget(files, paths[1..])
  }

  /** A refused path is one that leads there. */
  lemma {:induction false} TargetProblemIsTrue(files: set<Path>, paths: seq<string>)
    ensures FirstTarget(files, paths) == Some(Unsafe) ==> exists p :: p in paths && IsGit(Split(p)[0])
    ensures FirstTarget(files, paths) == Some(Conflict) ==> exists p :: p in paths && !ParentsClear(files, Split(p))
    ensures FirstTarget(files, paths) in {None, Some(Unsafe), Some(Conflict)}
  {
    hide IsGit, ParentsClear, Split;
    if paths != [] {
      TargetProblemIsTrue(files, paths[1..]);
      assert paths[0] in paths && forall p :: p in paths[1..] ==> p in paths;
    }
  }

  /** The part of the plan about what is there now. */
  predicate StillAsSent(files: map<Path, File>, dirs: set<Path>, delta: Delta, sent: map<string, Entry>,
                        ignored: set<string>)
  {
    && (forall p :: p in PathsOf(delta.changed) + delta.deleted ==> p in sent && Matches(files, p, sent[p]))
    && (forall e :: e in NotIgnored(delta.added, ignored) ==> Split(e.path) !in files && Split(e.path) !in dirs)
  }

  /** Why the plan refuses the delta, if it does; paths come first, ignored additions included. */
  function PlanProblem(files: map<Path, File>, dirs: set<Path>, delta: Delta, sent: map<string, Entry>,
                       ignored: set<string>): Option<ApplyError>
  {
    var target := FirstTarget(files.Keys, AllPaths(delta));
    if target.Some? then target
    else if !StillAsSent(files, dirs, delta, sent, ignored) then Some(Conflict)
    else None
  }

  /**
   A delta is unsafe only for a path into .git, and in conflict only with a file in its way or a
   changed candidate.
   */
  lemma PlanProblemIsTrue(files: map<Path, File>, dirs: set<Path>, delta: Delta, sent: map<string, Entry>,
                          ignored: set<string>)
    ensures var problem := PlanProblem(files, dirs, delta, sent, ignored);
            && (problem == Some(Unsafe) ==> exists p :: p in AllPaths(delta) && IsGit(Split(p)[0]))
            && (problem == Some(Conflict) ==>
                  || (exists p :: p in AllPaths(delta) && !ParentsClear(files.Keys, Split(p)))
                  || !StillAsSent(files, dirs, delta, sent, ignored))
            && problem in {None, Some(Unsafe), Some(Conflict)}
  {
    hide FirstTarget, StillAsSent, AllPaths, ParentsClear, IsGit, Split;
    TargetProblemIsTrue(files.Keys, AllPaths(delta));
  }

  // --- What a successful application leaves ---

  function Written(files: map<Path, File>, entries: seq<Entry>, staged: map<string, Bytes>): map<Path, File>
    requires forall e :: e in entries ==> e.path in staged
  {
    if entries == [] then files
    else
      var last := entries[|entries| - 1];
      Written(files, entries[..|entries| - 1],
              staged)[Split(last.path) := File(staged[last.path], ModeOf(last.executable))]
  }

  function Removed(files: map<Path, File>, paths: seq<string>): map<Path, File> {
    if paths == [] then files else Removed(files, paths[..|paths| - 1]) - {Split(paths[|paths| - 1])}
  }

  /** The candidate's files after the delta. */
  function Patched(files: map<Path, File>, delta: Delta, staged: map<string, Bytes>, ignored: set<string>): map<Path,
        File>
    requires forall e :: e in delta.added + delta.changed ==> e.path in staged
  {
    Removed(Written(files, Writes(delta, ignored), staged), delta.deleted)
  }

  lemma DifferentPaths(s: string, t: string)
    requires s != t
    ensures Split(s) != Split(t)
  {
    if Split(s) == Split(t) {
      SplitInjective(s, t);
    }
  }

  lemma {:induction false} WrittenAt(files: map<Path, File>, entries: seq<Entry>, staged: map<string, Bytes>, e: Entry)
    requires forall x :: x in entries ==> x.path in staged
    requires Distinct(PathsOf(entries)) && e in entries
    ensures Split(e.path) in Written(files, entries, staged)
    ensures Written(files, entries, staged)[Split(e.path)] == File(staged[e.path], ModeOf(e.executable))
  {
    var n := |entries| - 1;
    var last := entries[n];
    if e != last {
      assert PathsOf(entries[..n]) == PathsOf(entries)[..n];
      var i :| 0 <= i < n && entries[i] == e;
      assert PathsOf(entries)[i] != PathsOf(entries)[n];
      WrittenAt(files, entries[..n], staged, e);
      DifferentPaths(e.path, last.path);
    }
  }

  lemma {:induction false} WrittenElsewhere(files: map<Path, File>, entries: seq<Entry>, staged: map<string, Bytes>,
                                            p: Path)
    requires forall x :: x in entries ==> x.path in staged
    requires forall e :: e in entries ==> Split(e.path) != p
    ensures p in Written(files, entries, staged) <==> p in files
    ensures p in files ==> Written(files, entries, staged)[p] == files[p]
  {
    if entries != [] {
      WrittenElsewhere(files, entries[..|entries| - 1], staged, p);
    }
  }

  /** The path is one of the listed ones. */
  predicate Listed(paths: seq<string>, p: Path) {
    exists q :: q in paths && Split(q) == p
  }

  lemma ListedAppend(paths: seq<string>, q: string, p: Path)
    ensures Listed(paths + [q], p) <==> Listed(paths, p) || Split(q) == p
  {
    if Listed(paths, p) {
      var x :| x in paths && Split(x) == p;
      assert x in paths + [q];
    }
    assert q in paths + [q];
  }

  lemma {:induction false} RemovedAt(files: map<Path, File>, paths: seq<string>, p: Path)
    ensures p in Removed(files, paths) <==> p in files && !Listed(paths, p)
    ensures p in Removed(files, paths) ==> Removed(files, paths)[p] == files[p]
  {
    if paths != [] {
      var init, last := paths[..|paths| - 1], paths[|paths| - 1];
      RemovedAt(files, init, p);
      assert paths == init + [last];
      ListedAppend(init, last, p);
    }
  }

  // --- The application ---

  /** The targets of the entries from position i on can be written. */
  ghost predicate CanWrite(files: set<Path>, dirs: set<Path>, entries: seq<Entry>, i: nat) {
    forall j :: i <= j < |entries| ==>
      Split(entries[j].path) !in dirs && NoFileUpTo(files, Parent(Split(entries[j].path)))
  }

  ghost predicate NothingBelow(paths: seq<string>) {
    forall i, j :: 0 <= i < |paths| && 0 <= j < |paths| ==> !Below(Split(paths[i]), Split(paths[j]))
  }

  /** Writing one entry leaves the others writable, when no path is below another. */
  lemma CanWriteStep(files: set<Path>, dirs: set<Path>, after: set<Path>, entries: seq<Entry>, i: nat)
    requires CanWrite(files, dirs, entries, i) && i < |entries| && NothingBelow(PathsOf(entries))
    requires forall d :: d in after && d !in dirs ==> d < Split(entries[i].path)
    ensures CanWrite(files + {Split(entries[i].path)}, after, entries, i + 1)
  {
    var t := Split(entries[i].path);
    forall j | i + 1 <= j < |entries|
      ensures Split(entries[j].path) !in after && NoFileUpTo(files + {t}, Parent(Split(entries[j].path)))
    {
      var u := Split(entries[j].path);
      assert !Below(Split(PathsOf(entries)[i]), Split(PathsOf(entries)[j]));
      assert !Below(Split(PathsOf(entries)[j]), Split(PathsOf(entries)[i]));
      assert t <= Parent(u) ==> t < u;
    }
  }

  /** The targets of the deletions from position i on are still there. */
  predicate CanDelete(files: set<Path>, paths: seq<string>, i: nat) {
    forall j :: i <= j < |paths| ==> Split(paths[j]) in files
  }

  lemma CanDeleteStep(files: set<Path>, paths: seq<string>, i: nat)
    requires CanDelete(files, paths, i) && i < |paths| && Distinct(paths)
    ensures CanDelete(files - {Split(paths[i])}, paths, i + 1)
  {
    forall j | i + 1 <= j < |paths|
      ensures Split(paths[j]) in files - {Split(paths[i])}
    {
      DifferentPaths(paths[i], paths[j]);
    }
  }

  /** Write the entries in order; `smooth` says that nothing stands in the way of any of them. */
  method WriteAll(journal: Journal, entries: seq<Entry>, staged: map<string, Bytes>) returns (ok: bool)
    requires journal.Inv() && journal.Writing()
    requires forall e :: e in entries ==> e.path in staged
    modifies journal`steps, journal`createdDirs, journal.tree`files, journal.tree`dirs
    ensures journal.Inv()
    ensures ok ==> journal.Writing() && journal.tree.files == Written(old(journal.tree.files), entries, staged)
    ensures ok ==> old(journal.tree.dirs) <= journal.tree.dirs
    ensures forall d :: d in journal.tree.dirs && d !in old(journal.tree.dirs) ==>
            exists e :: e in entries && d < Split(e.path)
    ensures (&& !journal.tree.failing && NothingBelow(PathsOf(entries))
             && CanWrite(old(journal.tree.files).Keys, old(journal.tree.dirs), entries, 0)) ==> ok
  {
    hide Journal.Inv, Journal.Writing;
    ghost var smooth := NothingBelow(PathsOf(entries))
      && CanWrite(journal.tree.files.Keys, journal.tree.dirs, entries, 0);
    for i := 0 to |entries|
      invariant journal.Inv() && journal.Writing()
      invariant journal.tree.files == Written(old(journal.tree.files), entries[..i], staged)
      invariant old(journal.tree.dirs) <= journal.tree.dirs
      invariant forall d :: d in journal.tree.dirs && d !in old(journal.tree.dirs) ==>
                exists e :: e in entries && d < Split(e.path)
      invariant smooth ==> CanWrite(journal.tree.files.Keys, journal.tree.dirs, entries, i)
    {
      var e := entries[i];
      assert entries[..i + 1][..i] == entries[..i];
      ghost var files, dirs := journal.tree.files.Keys, journal.tree.dirs;
      ok := journal.Write(Split(e.path), staged[e.path], e.executable);
      if !ok {
        return;
      }
      if smooth {
        CanWriteStep(files, dirs, journal.tree.dirs, entries, i);
        assert journal.tree.files.Keys == files + {Split(e.path)};
      }
    }
    assert entries[..|entries|] == entries;
    ok := true;
  }

  method DeleteAll(journal: Journal, paths: seq<string>) returns (ok: bool)
    requires journal.Inv()
    modifies journal`steps, journal`prunedDirs, journal.tree`files, journal.tree`dirs
    ensures journal.Inv()
    ensures ok ==> journal.tree.files == Removed(old(journal.tree.files), paths)
    ensures journal.tree.dirs <= old(journal.tree.dirs)
    ensures forall d :: d in old(journal.tree.dirs) && d !in journal.tree.dirs ==>
            exists p :: p in paths && d < Split(p)
    ensures !journal.tree.failing && Distinct(paths) && CanDelete(old(journal.tree.files).Keys, paths, 0) ==> ok
  {
    hide Journal.Inv;
    ghost var smooth := Distinct(paths) && CanDelete(journal.tree.files.Keys, paths, 0);
    for i := 0 to |paths|
      invariant journal.Inv()
      invariant journal.tree.files == Removed(old(journal.tree.files), paths[..i])
      invariant journal.tree.dirs <= old(journal.tree.dirs)
      invariant forall d :: d in old(journal.tree.dirs) && d !in journal.tree.dirs ==>
                exists p :: p in paths && d < Split(p)
      invariant smooth ==> CanDelete(journal.tree.files.Keys, paths, i)
    {
      assert paths[..i + 1][..i] == paths[..i];
      ghost var files := journal.tree.files.Keys;
      var path := paths[i];
      assert path in paths;
      ok := journal.Delete(Split(path));
      if !ok {
        return;
      }
      if smooth {
        CanDeleteStep(files, paths, i);
        assert journal.tree.files.Keys == files - {Split(paths[i])};
      }
    }
    assert paths[..|paths|] == paths;
    ok := true;
  }

  /**
   Apply a validated delta. A refused plan and a failure at any point of the writes and deletes
   leave every file, its mode and the set of directories exactly as they were.
   */
  method ApplyDelta(tree: FileTree, delta: Delta, staged: map<string, Bytes>, sent: map<string, Entry>,
                    ignored: set<string>)
    returns (r: Result<(), ApplyError>)
    requires tree.Valid()
    requires forall e :: e in delta.added + delta.changed ==> e.path in staged
    modifies tree
    ensures r.Err? ==> tree.files == old(tree.files) && tree.dirs == old(tree.dirs)
    ensures r.Ok? ==> tree.files == Patched(old(tree.files), delta, staged, ignored)
    ensures r.Ok? ==> DirsChange(old(tree.dirs), tree.dirs, PathsOf(Writes(delta, ignored)), delta.deleted)
    ensures var problem := PlanProblem(old(tree.files), old(tree.dirs), delta, sent, ignored);
            && (problem.Some? ==> r == Err(problem.value))
            && (problem.None? ==> r in {Ok(()), Err(Failed)})
            && (problem.None? && !old(tree.failing) && Distinct(delta.deleted)
                ==> NothingBelow(PathsOf(Writes(delta, ignored))) ==> r.Ok?)
  {
    hide PlanProblem, NothingBelow, CanWrite, CanDelete, DirsChange, Journal.Inv, Journal.Writing;
    var problem := PlanProblem(tree.files, tree.dirs, delta, sent, ignored);
    if problem.Some? {
      return Err(problem.value);
    }
    PlannedWritesAreClear(tree.files, tree.dirs, delta, sent, ignored, staged);
    var journal := StartJournal(tree);
    var done := WriteAll(journal, Writes(delta, ignored), staged);
    ghost var between := tree.dirs;
    if done {
      done := DeleteAll(journal, delta.deleted);
    }
    if !done {
      UndoJournal(journal);
      return Err(Failed);
    }
    DirsTogether(old(tree.dirs), between, tree.dirs, Writes(delta, ignored), delta.deleted);
    r := Ok(());
  }

  method StartJournal(tree: FileTree) returns (journal: Journal)
    requires tree.Valid()
    ensures fresh(journal) && journal.tree == tree && journal.Inv() && journal.Writing()
    ensures journal.origFiles == tree.files && journal.origDirs == tree.dirs
  {
    journal := new Journal(tree);
  }

  /** Roll back; the calls that this makes are taken to succeed. */
  method UndoJournal(journal: Journal)
    requires journal.Inv()
    modifies journal, journal.tree
    ensures journal.tree.files == journal.origFiles && journal.tree.dirs == journal.origDirs
  {
    journal.tree.failing := false;
    journal.Rollback();
  }

  lemma DirsTogether(before: set<Path>, between: set<Path>, after: set<Path>, entries: seq<Entry>, deleted: seq<string>)
    requires forall d :: d in between && d !in before ==> exists e :: e in entries && d < Split(e.path)
    requires before <= between && after <= between
    requires forall d :: d in between && d !in after ==> exists p :: p in deleted && d < Split(p)
    ensures DirsChange(before, after, PathsOf(entries), deleted)
  {
    forall d | d in after && d !in before
      ensures exists p :: p in PathsOf(entries) && d < Split(p)
    {
      var e :| e in entries && d < Split(e.path);
      InPaths(entries, e);
    }
  }

  /** A plan without a problem leaves the way clear for every write and every delete. */
  lemma PlannedWritesAreClear(files: map<Path, File>, dirs: set<Path>, delta: Delta, sent: map<string, Entry>,
                              ignored: set<string>, staged: map<string, Bytes>)
    requires WellFormed(files.Keys, dirs) && PlanProblem(files, dirs, delta, sent, ignored).None?
    requires forall e :: e in delta.added + delta.changed ==> e.path in staged
    ensures CanWrite(files.Keys, dirs, Writes(delta, ignored), 0)
    ensures CanDelete(Written(files, Writes(delta, ignored), staged).Keys, delta.deleted, 0)
  {
    var entries := Writes(delta, ignored);
    forall j | 0 <= j < |entries|
      ensures Split(entries[j].path) !in dirs && NoFileUpTo(files.Keys, Parent(Split(entries[j].path)))
    {
      var e := entries[j];
      WritePlanned(files, dirs, delta, sent, ignored, e);
    }
    WrittenKeeps(files, entries, staged);
    forall p | p in delta.deleted
      ensures Split(p) in files
    {
      assert p in PathsOf(delta.changed) + delta.deleted;
    }
  }

  lemma WritePlanned(files: map<Path, File>, dirs: set<Path>, delta: Delta, sent: map<string, Entry>,
                     ignored: set<string>, e: Entry)
    requires WellFormed(files.Keys, dirs) && PlanProblem(files, dirs, delta, sent, ignored).None?
             && e in Writes(delta, ignored)
    ensures Split(e.path) !in dirs && NoFileUpTo(files.Keys, Parent(Split(e.path)))
  {
    var p := Split(e.path);
    if e in delta.changed {
      InPaths(delta.changed, e);
      assert e.path in PathsOf(delta.changed) + delta.deleted;
    } else {
      InPaths(delta.added, e);
    }
    assert e.path in AllPaths(delta);
    forall q | q in files
      ensures !(q <= Parent(p))
    {
      PrefixIs(p, q);
    }
  }

  lemma PrefixIs(p: Path, q: Path)
    requires p != []
    ensures q <= Parent(p) ==> |q| < |p| && p[..|q|] == q
  {
  }

  lemma {:induction false} WrittenKeeps(files: map<Path, File>, entries: seq<Entry>, staged: map<string, Bytes>)
    requires forall x :: x in entries ==> x.path in staged
    ensures files.Keys <= Written(files, entries, staged).Keys
  {
    if entries != [] {
      WrittenKeeps(files, entries[..|entries| - 1], staged);
    }
  }

  /** Directories appear only above written files and disappear only above deleted ones. */
  ghost predicate DirsChange(before: set<Path>, after: set<Path>, written: seq<string>, deleted: seq<string>) {
    && (forall d :: d in after && d !in before ==> exists p :: p in written && d < Split(p))
    && (forall d :: d in before && d !in after ==> exists p :: p in deleted && d < Split(p))
  }
}
