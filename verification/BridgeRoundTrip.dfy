/** Diff then patch: the candidate ends up as the remote workspace, and nothing else changes. */
module BridgeRoundTrip {
  import opened Canonical
  import opened BridgePaths
  import opened BridgeDelta
  import opened BridgeCheck
  import opened BridgeTree
  import opened BridgeJournal
  import opened BridgeApply

  /** The candidate still holds every sent file as it was sent. */
  ghost predicate StillHeld(files: map<Path, File>, sent: Snapshot) {
    forall p :: p in ByPath(sent) ==> Matches(files, p, ByPath(sent)[p])
  }

  /** No added path lies inside a local file. */
  ghost predicate NoSwaps(files: map<Path, File>, delta: Delta) {
    forall e :: e in delta.added ==> ParentsClear(files.Keys, Split(e.path))
  }

  /** Nothing local is in the way of a path that will be added. */
  ghost predicate AddedFree(files: map<Path, File>, dirs: set<Path>, delta: Delta, ignored: set<string>) {
    forall e :: e in NotIgnored(delta.added, ignored) ==> Split(e.path) !in files && Split(e.path) !in dirs
  }

  /** The candidate's file at a path is the given file. */
  ghost predicate Holds(files: map<Path, File>, p: string, data: Data) {
    && Split(p) in files
    && files[Split(p)].content == data.content
    && IsExecutable(files[Split(p)].mode) == data.executable
  }

  /** What the candidate must look like afterwards. */
  ghost predicate Agrees(before: map<Path, File>, after: map<Path, File>, sent: Snapshot, now: map<string, Data>,
                         ignored: set<string>)
  {
    var sentPaths := ByPath(sent).Keys;
    && (forall p :: p in now && (p in sentPaths || p !in ignored) ==> Holds(after, p, now[p]))
    && (forall p :: p in sentPaths && p !in now ==> Split(p) !in after)
    && (forall q :: (forall p :: p in sentPaths || (p in now && p !in ignored) ==> Split(p) != q) ==>
          (q in after <==> q in before) && (q in before ==> after[q] == before[q]))
  }

  lemma ModeKeepsBit(executable: bool)
    ensures IsExecutable(ModeOf(executable)) == executable
  {
  }

  lemma FilesAncestorsClear(files: set<Path>, dirs: set<Path>, p: Path)
    requires WellFormed(files, dirs) && InDirs(dirs, p)
    ensures forall k :: 0 < k <= |p| ==> p[..k] in dirs
    decreases |p|
  {
    if p != [] {
      FilesAncestorsClear(files, dirs, Parent(p));
      forall k | 0 < k <= |p|
        ensures p[..k] in dirs
      {
        if k < |p| {
          assert Parent(p)[..k] == p[..k];
        } else {
          assert p[..k] == p;
        }
      }
    }
  }

  /** An existing file has no file above it. */
  lemma ExistingIsClear(files: set<Path>, dirs: set<Path>, p: Path)
    requires WellFormed(files, dirs) && p in files
    ensures ParentsClear(files, p)
  {
    FilesAncestorsClear(files, dirs, Parent(p));
    forall k | 0 < k < |p|
      ensures p[..k] !in files
    {
      assert Parent(p)[..k] == p[..k];
    }
  }

  lemma DeltaPaths(sent: Snapshot, now: map<string, Data>, delta: Delta, returned: map<string, Data>, p: string)
    requires IsDiff(sent, now, delta, returned)
    ensures p in PathsOf(delta.added) <==> p in now && p !in ByPath(sent)
    ensures p in PathsOf(delta.changed) <==> p in now && p in ByPath(sent) && !SameFile(ByPath(sent)[p], now[p])
    ensures p in delta.deleted <==> p in ByPath(sent) && p !in now && !IsExcluded(p)
  {
    hide IsExcluded, Sorted, SameFile, Current;
    assert p in PathsOf(delta.added) <==> p in SetOf(PathsOf(delta.added));
    assert p in PathsOf(delta.changed) <==> p in SetOf(PathsOf(delta.changed));
    assert p in delta.deleted <==> p in SetOf(delta.deleted);
  }

  /** An honest delta against an unchanged candidate has a plan without a problem. */
  lemma HonestPlan(files: map<Path, File>, dirs: set<Path>, sent: Snapshot, now: map<string, Data>, delta: Delta,
                   returned: map<string, Data>,
                   ignored: set<string>)
    requires WellFormed(files.Keys, dirs) && SentOk(sent) && IsDiff(sent, now, delta, returned)
    requires forall p :: p in now ==> Safe(p)
    requires StillHeld(files, sent) && NoSwaps(files, delta) && AddedFree(files, dirs, delta, ignored)
    ensures PlanProblem(files, dirs, delta, ByPath(sent), ignored).None?
  {
    hide Sorted, SameFile, IsExcluded, Current, Distinct, WellFormed, IsDiff, Matches, Safe;
    forall p | p in AllPaths(delta)
      ensures !IsGit(Split(p)[0]) && ParentsClear(files.Keys, Split(p))
    {
      HonestPath(files, dirs, sent, now, delta, returned, ignored, p);
    }
    forall p | p in PathsOf(delta.changed) + delta.deleted
      ensures p in ByPath(sent) && Matches(files, p, ByPath(sent)[p])
    {
      DeltaPaths(sent, now, delta, returned, p);
    }
  }

  /** Every path of an honest delta leads through directories only, and not into .git. */
  lemma HonestPath(files: map<Path, File>, dirs: set<Path>, sent: Snapshot, now: map<string, Data>, delta: Delta,
                   returned: map<string, Data>, ignored: set<string>, p: string)
    requires WellFormed(files.Keys, dirs) && SentOk(sent) && IsDiff(sent, now, delta, returned)
    requires forall q :: q in now ==> Safe(q)
    requires StillHeld(files, sent) && NoSwaps(files, delta) && p in AllPaths(delta)
    ensures !IsGit(Split(p)[0]) && ParentsClear(files.Keys, Split(p))
  {
    hide Sorted, SameFile, IsExcluded, Current, Distinct, WellFormed, IsDiff, Matches, Safe, IsGit, ParentsClear;
    DeltaPaths(sent, now, delta, returned, p);
    SafeIsNotGit(p, sent, now);
    if p in PathsOf(delta.added) {
      EntryOf(delta.added, p);
    } else {
      assert Matches(files, p, ByPath(sent)[p]);
      MatchedExists(files, p, ByPath(sent)[p]);
      ExistingIsClear(files.Keys, dirs, Split(p));
    }
  }

  lemma MatchedExists(files: map<Path, File>, p: string, expected: Entry)
    requires Matches(files, p, expected)
    ensures Split(p) in files
  {
  }

  lemma SafeIsNotGit(p: string, sent: Snapshot, now: map<string, Data>)
    requires SentOk(sent) && (forall q :: q in now ==> Safe(q)) && (p in now || p in ByPath(sent))
    ensures !IsGit(Split(p)[0])
  {
    hide IsExcluded, Distinct;
    assert p in ByPath(sent) ==> p in SetOf(PathsOf(sent));
    assert CheckRelpath(p);
  }

  lemma EntryOf(entries: seq<Entry>, p: string)
    requires p in PathsOf(entries)
    ensures exists e :: e in entries && e.path == p
  {
    var i :| 0 <= i < |entries| && PathsOf(entries)[i] == p;
    assert entries[i] in entries;
  }

  lemma DistinctSplit(s: seq<string>, x: string)
    requires Distinct(s + [x])
    ensures Distinct(s) && x !in s
  {
    forall i | 0 <= i < |s|
      ensures s[i] != x
    {
      assert (s + [x])[i] != (s + [x])[|s|];
    }
    DistinctAppend(s, x);
  }

  lemma {:induction false} NotIgnoredPaths(added: seq<Entry>, ignored: set<string>)
    requires Distinct(PathsOf(added))
    ensures Distinct(PathsOf(NotIgnored(added, ignored)))
    ensures forall p :: p in PathsOf(NotIgnored(added, ignored)) <==> p in PathsOf(added) && p !in ignored
  {
    hide PathsOf, Distinct;
    if added == [] {
      assert PathsOf(added) == [] && NotIgnored(added, ignored) == [];
    } else {
      var init, last := added[..|added| - 1], added[|added| - 1];
      var kept := NotIgnored(init, ignored);
      assert added == init + [last];
      OnePath(last);
      PathsConcat(init, [last]);
      PathsConcat(kept, [last]);
      DistinctSplit(PathsOf(init), last.path);
      NotIgnoredPaths(init, ignored);
      if last.path in ignored {
        assert NotIgnored(added, ignored) == kept;
      } else {
        assert NotIgnored(added, ignored) == kept + [last];
        DistinctAppend(PathsOf(kept), last.path);
      }
    }
  }

  lemma OnePath(e: Entry)
    ensures PathsOf([e]) == [e.path]
  {
  }

  /**
   What an accepted delta, honest or not, does to every single path: changed and non-ignored added
   paths hold their staged content, deleted ones are gone, and no other path is touched.
   */
  lemma PatchedExactly(files: map<Path, File>, delta: Delta, sent: Snapshot, staged: map<string, Bytes>,
                       ignored: set<string>, q: Path)
    requires Trustworthy(delta, sent, staged)
    requires forall e :: e in delta.added + delta.changed ==> e.path in staged
    ensures var after := Patched(files, delta, staged, ignored);
            && (forall e :: e in Writes(delta, ignored) && Split(e.path) == q ==>
                  q in after && after[q] == File(staged[e.path], ModeOf(e.executable)))
            && (Listed(delta.deleted, q) ==> q !in after)
            && (!Listed(PathsOf(Writes(delta, ignored)) + delta.deleted, q) ==>
                (q in after <==> q in files) && (q in files ==> after[q] == files[q]))
  {
    hide Safe, PrefixFree, Written, Removed, Distinct, FinalPaths, Trustworthy;
    var entries := Writes(delta, ignored);
    var written := Written(files, entries, staged);
    RemovedAt(written, delta.deleted, q);
    WritesDistinct(delta, sent, staged, ignored);
    forall e | e in entries && Split(e.path) == q
      ensures q in written && written[q] == File(staged[e.path], ModeOf(e.executable)) && !Listed(delta.deleted, q)
    {
      WrittenAt(files, entries, staged, e);
      WrittenNotDeleted(delta, sent, staged, ignored, e);
    }
    if !Listed(PathsOf(entries) + delta.deleted, q) {
      UnlistedParts(entries, delta.deleted, q);
      WrittenElsewhere(files, entries, staged, q);
    }
  }

  lemma UnlistedParts(entries: seq<Entry>, deleted: seq<string>, q: Path)
    requires !Listed(PathsOf(entries) + deleted, q)
    ensures (forall e :: e in entries ==> Split(e.path) != q) && !Listed(deleted, q)
  {
    forall e | e in entries
      ensures Split(e.path) != q
    {
      InPaths(entries, e);
      assert e.path in PathsOf(entries) + deleted;
    }
    forall p | p in deleted
      ensures Split(p) != q
    {
      assert p in PathsOf(entries) + deleted;
    }
  }

  lemma WritesDistinct(delta: Delta, sent: Snapshot, staged: map<string, Bytes>, ignored: set<string>)
    requires Trustworthy(delta, sent, staged)
    ensures Distinct(PathsOf(Writes(delta, ignored)))
  {
    hide Safe, PrefixFree, FinalPaths;
    var a, c, d := PathsOf(delta.added), PathsOf(delta.changed), delta.deleted;
    DistinctParts(a, c, d);
    NotIgnoredPaths(delta.added, ignored);
    PathsConcat(delta.changed, NotIgnored(delta.added, ignored));
    DistinctConcat(c, PathsOf(NotIgnored(delta.added, ignored)));
  }

  lemma DistinctParts(a: seq<string>, c: seq<string>, d: seq<string>)
    requires Distinct(a + c + d)
    ensures Distinct(a) && Distinct(c) && SetOf(a) !! SetOf(c) && SetOf(a) !! SetOf(d) && SetOf(c) !! SetOf(d)
  {
    var all := a + c + d;
    assert forall i :: 0 <= i < |a| ==> all[i] == a[i];
    assert forall i :: 0 <= i < |c| ==> all[|a| + i] == c[i];
    assert forall i :: 0 <= i < |d| ==> all[|a| + |c| + i] == d[i];
  }

  lemma WrittenNotDeleted(delta: Delta, sent: Snapshot, staged: map<string, Bytes>, ignored: set<string>, e: Entry)
    requires Trustworthy(delta, sent, staged) && e in Writes(delta, ignored)
    ensures !Listed(delta.deleted, Split(e.path))
  {
    hide Safe, PrefixFree, FinalPaths, Distinct;
    var a, c, d := PathsOf(delta.added), PathsOf(delta.changed), delta.deleted;
    DistinctParts(a, c, d);
    if e in delta.changed {
      InPaths(delta.changed, e);
      assert e.path in SetOf(c);
    } else {
      InPaths(delta.added, e);
      assert e.path in SetOf(a);
    }
    forall p | p in d
      ensures Split(p) != Split(e.path)
    {
      assert p in SetOf(d);
      DifferentPaths(p, e.path);
    }
  }

  /** What is written: the changed paths and the added ones that are not ignored, each once. */
  lemma WrittenPaths(sent: Snapshot, now: map<string, Data>, delta: Delta, returned: map<string, Data>,
                     ignored: set<string>)
    requires IsDiff(sent, now, delta, returned)
    ensures var paths := PathsOf(Writes(delta, ignored));
            && Distinct(paths)
            && forall p :: p in paths <==>
               p in now && (if p in ByPath(sent) then !SameFile(ByPath(sent)[p], now[p]) else p !in ignored)
    ensures Current(now, Writes(delta, ignored))
  {
    hide IsExcluded, SameFile, Sorted;
    SortedIsDistinct(PathsOf(delta.added));
    SortedIsDistinct(PathsOf(delta.changed));
    NotIgnoredPaths(delta.added, ignored);
    var fresh' := PathsOf(NotIgnored(delta.added, ignored));
    PathsConcat(delta.changed, NotIgnored(delta.added, ignored));
    forall p
      ensures p in PathsOf(delta.changed) <==> p in now && p in ByPath(sent) && !SameFile(ByPath(sent)[p], now[p])
      ensures p in PathsOf(delta.added) <==> p in now && p !in ByPath(sent)
    {
      DeltaPaths(sent, now, delta, returned, p);
    }
    DistinctConcat(PathsOf(delta.changed), fresh');
  }

  /** A written path holds the remote file. */
  lemma WrittenHolds(files: map<Path, File>, sent: Snapshot, now: map<string, Data>, delta: Delta,
                     returned: map<string, Data>, ignored: set<string>, p: string)
    requires IsDiff(sent, now, delta, returned) && p in PathsOf(Writes(delta, ignored)) && p in now
    requires forall e :: e in Writes(delta, ignored) ==> e.path in Contents(returned)
    ensures Holds(Written(files, Writes(delta, ignored), Contents(returned)), p, now[p])
  {
    hide IsDiff, SameFile;
    var entries := Writes(delta, ignored);
    WrittenPaths(sent, now, delta, returned, ignored);
    EntryOf(entries, p);
    var e :| e in entries && e.path == p;
    WrittenAt(files, entries, Contents(returned), e);
    ModeKeepsBit(now[p].executable);
    ReturnedIsNow(sent, now, delta, returned);
  }

  lemma ReturnedIsNow(sent: Snapshot, now: map<string, Data>, delta: Delta, returned: map<string, Data>)
    requires IsDiff(sent, now, delta, returned)
    ensures forall p :: p in returned ==> p in now && returned[p] == now[p]
  {
  }

  lemma WritesStaged(sent: Snapshot, now: map<string, Data>, delta: Delta, returned: map<string, Data>,
                     ignored: set<string>)
    requires IsDiff(sent, now, delta, returned)
    ensures forall e :: e in delta.added + delta.changed ==> e.path in Contents(returned)
    ensures forall e :: e in Writes(delta, ignored) ==> e.path in Contents(returned)
  {
    hide IsDiff;
    ContentsMatch(sent, now, delta, returned);
  }

  /** Patching an unchanged candidate with an honest delta makes it agree with the remote workspace. */
  lemma PatchAgrees(files: map<Path, File>, sent: Snapshot, now: map<string, Data>, delta: Delta,
                    returned: map<string, Data>, ignored: set<string>)
    requires SentOk(sent) && IsDiff(sent, now, delta, returned) && StillHeld(files, sent)
    requires forall e :: e in delta.added + delta.changed ==> e.path in Contents(returned)
    ensures Agrees(files, Patched(files, delta, Contents(returned), ignored), sent, now, ignored)
  {
    hide IsDiff, SentOk, SameFile, IsExcluded, Matches, Holds, Written, Removed;
    var after := Patched(files, delta, Contents(returned), ignored);
    forall p | p in now && (p in ByPath(sent) || p !in ignored)
      ensures Holds(after, p, now[p])
    {
      RemotePathHolds(files, sent, now, delta, returned, ignored, p);
    }
    forall p | p in ByPath(sent) && p !in now
      ensures Split(p) !in after
    {
      SentIsIncluded(sent, p);
      DeltaPaths(sent, now, delta, returned, p);
      RemovedAt(Written(files, Writes(delta, ignored), Contents(returned)), delta.deleted, Split(p));
    }
    forall q | forall p :: p in ByPath(sent) || (p in now && p !in ignored) ==> Split(p) != q
      ensures q in after <==> q in files
      ensures q in files ==> after[q] == files[q]
    {
      OtherPathStays(files, sent, now, delta, returned, ignored, q);
    }
  }

  lemma SentIsIncluded(sent: Snapshot, p: string)
    requires SentOk(sent) && p in ByPath(sent)
    ensures !IsExcluded(p)
  {
    hide CheckRelpath, IsExcluded, Distinct;
    assert p in SetOf(PathsOf(sent));
  }

  lemma RemotePathHolds(files: map<Path, File>, sent: Snapshot, now: map<string, Data>, delta: Delta,
                        returned: map<string, Data>, ignored: set<string>, p: string)
    requires IsDiff(sent, now, delta, returned) && StillHeld(files, sent)
    requires forall e :: e in delta.added + delta.changed ==> e.path in Contents(returned)
    requires p in now && (p in ByPath(sent) || p !in ignored)
    ensures Holds(Patched(files, delta, Contents(returned), ignored), p, now[p])
  {
    hide IsDiff, IsExcluded, Written, Removed;
    var entries, staged := Writes(delta, ignored), Contents(returned);
    var written := Written(files, entries, staged);
    WritesStaged(sent, now, delta, returned, ignored);
    WrittenPaths(sent, now, delta, returned, ignored);
    NotDeleted(sent, now, delta, returned, p);
    RemovedAt(written, delta.deleted, Split(p));
    if p in PathsOf(entries) {
      WrittenHolds(files, sent, now, delta, returned, ignored, p);
    } else {
      NotWritten(entries, p);
      WrittenElsewhere(files, entries, staged, Split(p));
      assert Matches(files, p, ByPath(sent)[p]);
    }
  }

  lemma NotWritten(entries: seq<Entry>, p: string)
    requires p !in PathsOf(entries)
    ensures forall e :: e in entries ==> Split(e.path) != Split(p)
  {
    forall e | e in entries
      ensures Split(e.path) != Split(p)
    {
      InPaths(entries, e);
      DifferentPaths(e.path, p);
    }
  }

  lemma NotDeleted(sent: Snapshot, now: map<string, Data>, delta: Delta, returned: map<string, Data>, p: string)
    requires IsDiff(sent, now, delta, returned) && p in now
    ensures !Listed(delta.deleted, Split(p))
  {
    hide IsDiff, SameFile, IsExcluded;
    forall q | q in delta.deleted
      ensures Split(q) != Split(p)
    {
      DeltaPaths(sent, now, delta, returned, q);
      DifferentPaths(q, p);
    }
  }

  lemma OtherPathStays(files: map<Path, File>, sent: Snapshot, now: map<string, Data>, delta: Delta,
                       returned: map<string, Data>, ignored: set<string>, q: Path)
    requires IsDiff(sent, now, delta, returned)
    requires forall e :: e in delta.added + delta.changed ==> e.path in Contents(returned)
    requires forall p :: p in ByPath(sent) || (p in now && p !in ignored) ==> Split(p) != q
    ensures var after := Patched(files, delta, Contents(returned), ignored);
            (q in after <==> q in files) && (q in files ==> after[q] == files[q])
  {
    hide IsDiff, SameFile, IsExcluded, Written, Removed;
    var entries, staged := Writes(delta, ignored), Contents(returned);
    WritesStaged(sent, now, delta, returned, ignored);
    WrittenPaths(sent, now, delta, returned, ignored);
    forall e | e in entries
      ensures Split(e.path) != q
    {
      InPaths(entries, e);
    }
    WrittenElsewhere(files, entries, staged, q);
    forall p | p in delta.deleted
      ensures Split(p) != q
    {
      DeltaPaths(sent, now, delta, returned, p);
    }
    RemovedAt(Written(files, entries, staged), delta.deleted, q);
  }

  /** With a prefix-free remote tree, no path that is written lies below another. */
  lemma HonestIsSmooth(sent: Snapshot, now: map<string, Data>, delta: Delta, returned: map<string, Data>,
                       ignored: set<string>)
    requires IsDiff(sent, now, delta, returned) && PrefixFree(now.Keys)
    ensures NothingBelow(PathsOf(Writes(delta, ignored))) && Distinct(delta.deleted)
  {
    WrittenPaths(sent, now, delta, returned, ignored);
    SortedIsDistinct(delta.deleted);
  }
}
