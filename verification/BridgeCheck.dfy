/** The local check of an untrusted delta, what its acceptance means, and that honest deltas pass it. */
module BridgeCheck {
  import opened Prelude
  import opened Canonical
  import opened BridgePaths
  import opened BridgeDelta

  datatype Problem = UnsafePath | RepeatedPath | MembersMismatch | AlreadySent | NotSent | HashMismatch | InsideFile

  predicate Safe(path: string) {
    CheckRelpath(path) && !IsExcluded(path)
  }

  /** The paths of the candidate once the delta is applied. */
  function FinalPaths(sentPaths: set<string>, delta: Delta): set<string> {
    (sentPaths - SetOf(delta.deleted)) + SetOf(PathsOf(delta.added + delta.changed))
  }

  /** The first problem of a delta and its staged files, or none. */
  function CheckPaths(delta: Delta, sent: Snapshot, staged: map<string, Bytes>): Option<Problem> {
    var sentPaths := SetOf(PathsOf(sent));
    var returned := PathsOf(delta.added + delta.changed);
    var every := returned + delta.deleted;
    if exists p :: p in every && !Safe(p) then Some(Problem.UnsafePath)
    else if |every| != |SetOf(every)| then Some(RepeatedPath)
    else if SetOf(returned) != staged.Keys then Some(MembersMismatch)
    else if exists e :: e in delta.added && e.path in sentPaths then Some(AlreadySent)
    else if exists p :: p in PathsOf(delta.changed) + delta.deleted && p !in sentPaths then Some(NotSent)
    else if exists e :: e in delta.added + delta.changed && !StagedMatches(e, staged) then Some(HashMismatch)
    else
      var final := FinalPaths(sentPaths, delta);
      if exists p :: p in final && !NoFileAbove(p, final) then Some(InsideFile) else None
  }

  predicate StagedMatches(e: Entry, staged: map<string, Bytes>) {
    e.path in staged && |staged[e.path]| == e.size && Sha256(staged[e.path]) == e.sha256
  }

  /** What a local side that trusts nothing needs of a delta. */
  ghost predicate Trustworthy(delta: Delta, sent: Snapshot, staged: map<string, Bytes>) {
    var sentPaths := SetOf(PathsOf(sent));
    && (forall p :: p in PathsOf(delta.added) + PathsOf(delta.changed) + delta.deleted ==> Safe(p))
    && Distinct(PathsOf(delta.added) + PathsOf(delta.changed) + delta.deleted)
    && SetOf(PathsOf(delta.added)) !! sentPaths
    && SetOf(PathsOf(delta.changed)) <= sentPaths
    && SetOf(delta.deleted) <= sentPaths
    && staged.Keys == SetOf(PathsOf(delta.added)) + SetOf(PathsOf(delta.changed))
    && (forall e :: e in delta.added + delta.changed ==>
        e.path in staged && e == Entry(e.path, |staged[e.path]|, Sha256(staged[e.path]), e.executable))
    && PrefixFree(FinalPaths(sentPaths, delta))
  }

  lemma PathsConcat(a: seq<Entry>, b: seq<Entry>)
    ensures PathsOf(a + b) == PathsOf(a) + PathsOf(b)
  {
  }

  lemma InPaths(entries: seq<Entry>, e: Entry)
    requires e in entries
    ensures e.path in PathsOf(entries)
  {
    var i :| 0 <= i < |entries| && entries[i] == e;
    assert PathsOf(entries)[i] == e.path;
  }

  /** None of the tests of the check finds a problem. */
  ghost predicate NoProblem(delta: Delta, sentPaths: set<string>, staged: map<string, Bytes>) {
    var returned := PathsOf(delta.added + delta.changed);
    var every := returned + delta.deleted;
    && (forall p :: p in every ==> Safe(p))
    && |every| == |SetOf(every)|
    && SetOf(returned) == staged.Keys
    && !(exists e :: e in delta.added && e.path in sentPaths)
    && !(exists p :: p in PathsOf(delta.changed) + delta.deleted && p !in sentPaths)
    && !(exists e :: e in delta.added + delta.changed && !StagedMatches(e, staged))
    && (forall p :: p in FinalPaths(sentPaths, delta) ==> NoFileAbove(p, FinalPaths(sentPaths, delta)))
  }

  lemma CheckFindsNothing(delta: Delta, sent: Snapshot, staged: map<string, Bytes>)
    ensures CheckPaths(delta, sent, staged).None? <==> NoProblem(delta, SetOf(PathsOf(sent)), staged)
  {
    hide Safe, NoFileAbove, StagedMatches, PathsOf, FinalPaths, SetOf;
  }

  /** The check accepts exactly the trustworthy deltas. */
  lemma AcceptedIsTrustworthy(delta: Delta, sent: Snapshot, staged: map<string, Bytes>)
    ensures CheckPaths(delta, sent, staged).None? <==> Trustworthy(delta, sent, staged)
  {
    hide CheckPaths, Safe, NoFileAbove, PrefixFree, Distinct, StagedMatches, PathsOf, FinalPaths, SetOf;
    CheckFindsNothing(delta, sent, staged);
    var sentPaths := SetOf(PathsOf(sent));
    var returned := PathsOf(delta.added + delta.changed);
    PathsConcat(delta.added, delta.changed);
    CountsDistinct(returned + delta.deleted);
    NoFileAboveMeans(FinalPaths(sentPaths, delta));
    AddedClause(delta, sentPaths);
    NotSentClause(PathsOf(delta.changed), delta.deleted, sentPaths);
    ConcatSet(PathsOf(delta.added), PathsOf(delta.changed));
    StagedClause(delta.added + delta.changed, staged);
  }

  /**
   No accepted delta names a path that leads out of the root, into Git or into a place of the bridge or
   the harness.
   */
  lemma AcceptedPathsStay(delta: Delta, sent: Snapshot, staged: map<string, Bytes>, p: string)
    requires CheckPaths(delta, sent, staged).None? && p in PathsOf(delta.added) + PathsOf(delta.changed) + delta.deleted
    ensures StaysBelow(p) && !IsExcluded(p)
  {
    hide CheckPaths, CheckRelpath, IsExcluded, StaysBelow;
    AcceptedIsTrustworthy(delta, sent, staged);
    CheckedStaysBelow(p);
  }

  /** What each answer of the check says of the delta. */
  ghost predicate Says(problem: Problem, delta: Delta, sentPaths: set<string>, staged: map<string, Bytes>) {
    var every := PathsOf(delta.added) + PathsOf(delta.changed) + delta.deleted;
    match problem
    case UnsafePath => exists p :: p in every && (!StaysBelow(p) || IsExcluded(p))
    case RepeatedPath => !Distinct(every)
    case MembersMismatch => staged.Keys != SetOf(PathsOf(delta.added)) + SetOf(PathsOf(delta.changed))
    case AlreadySent => exists p :: p in PathsOf(delta.added) && p in sentPaths
    case NotSent => exists p :: p in PathsOf(delta.changed) + delta.deleted && p !in sentPaths
    case HashMismatch =>
      exists e :: e in delta.added + delta.changed &&
        (e.path in staged ==> e != Entry(e.path, |staged[e.path]|, Sha256(staged[e.path]), e.executable))
    case InsideFile => !PrefixFree(FinalPaths(sentPaths, delta))
  }

  /** A refusal of the check is true of the delta, and it is the only reason for which it refuses unsafe paths. */
  lemma ProblemIsTrue(delta: Delta, sent: Snapshot, staged: map<string, Bytes>)
    ensures CheckPaths(delta, sent, staged).Some? ==>
              Says(CheckPaths(delta, sent, staged).value, delta, SetOf(PathsOf(sent)), staged)
    ensures Says(Problem.UnsafePath, delta, SetOf(PathsOf(sent)), staged) ==>
              CheckPaths(delta, sent, staged) == Some(Problem.UnsafePath)
  {
    hide CheckRelpath, IsExcluded, StaysBelow, NoFileAbove, PrefixFree, Distinct, PathsOf, FinalPaths, SetOf;
    var sentPaths := SetOf(PathsOf(sent));
    var returned := PathsOf(delta.added + delta.changed);
    PathsConcat(delta.added, delta.changed);
    CountsDistinct(returned + delta.deleted);
    NoFileAboveMeans(FinalPaths(sentPaths, delta));
    ConcatSet(PathsOf(delta.added), PathsOf(delta.changed));
    forall p | p in returned + delta.deleted
      ensures Safe(p) <==> StaysBelow(p) && !IsExcluded(p)
    {
      CheckedStaysBelow(p);
    }
    forall e | e in delta.added
      ensures e.path in PathsOf(delta.added)
    {
      InPaths(delta.added, e);
    }
  }

  lemma ConcatSet(a: seq<string>, b: seq<string>)
    ensures SetOf(a + b) == SetOf(a) + SetOf(b)
  {
  }

  lemma NotSentClause(changed: seq<string>, deleted: seq<string>, sentPaths: set<string>)
    ensures (exists p :: p in changed + deleted && p !in sentPaths) <==>
            !(SetOf(changed) <= sentPaths && SetOf(deleted) <= sentPaths)
  {
    assert forall p :: p in changed <==> p in SetOf(changed);
    assert forall p :: p in deleted <==> p in SetOf(deleted);
  }

  lemma StagedClause(entries: seq<Entry>, staged: map<string, Bytes>)
    ensures (exists e :: e in entries && !StagedMatches(e, staged)) <==>
              !(forall e :: e in entries ==>
                e.path in staged && e == Entry(e.path, |staged[e.path]|, Sha256(staged[e.path]), e.executable))
  {
  }

  lemma AddedClause(delta: Delta, sentPaths: set<string>)
    ensures (exists e :: e in delta.added && e.path in sentPaths) <==> !(SetOf(PathsOf(delta.added)) !! sentPaths)
  {
    forall e | e in delta.added
      ensures e.path in SetOf(PathsOf(delta.added))
    {
      InPaths(delta.added, e);
    }
  }

  // --- Honest deltas ---

  /** A snapshot as the local side sends it, with no excluded path in it. */
  ghost predicate SentOk(sent: Snapshot) {
    Distinct(PathsOf(sent)) && forall p :: p in PathsOf(sent) ==> Safe(p)
  }

  function Contents(files: map<string, Data>): map<string, Bytes> {
    map p | p in files :: files[p].content
  }

  /** Applying an honest delta to the sent paths leaves exactly the remote project paths. */
  lemma FinalIsRemote(sent: Snapshot, now: map<string, Data>, delta: Delta, returned: map<string, Data>)
    requires SentOk(sent) && IsDiff(sent, now, delta, returned)
    ensures FinalPaths(SetOf(PathsOf(sent)), delta) == now.Keys
  {
    hide Sorted, SameFile, Current, Distinct, CheckRelpath, IsExcluded;
    var sentPaths := SetOf(PathsOf(sent));
    assert ByPath(sent).Keys == sentPaths;
    PathsConcat(delta.added, delta.changed);
    assert SetOf(PathsOf(delta.added + delta.changed)) == SetOf(PathsOf(delta.added)) + SetOf(PathsOf(delta.changed));
    assert forall p :: p in sentPaths ==> !IsExcluded(p);
  }

  lemma PartsDistinct(delta: Delta)
    requires Sorted(PathsOf(delta.added)) && Sorted(PathsOf(delta.changed)) && Sorted(delta.deleted)
    requires SetOf(PathsOf(delta.added)) !! SetOf(PathsOf(delta.changed))
    requires SetOf(PathsOf(delta.added)) + SetOf(PathsOf(delta.changed)) !! SetOf(delta.deleted)
    ensures Distinct(PathsOf(delta.added) + PathsOf(delta.changed) + delta.deleted)
  {
    hide Sorted;
    var a, c, d := PathsOf(delta.added), PathsOf(delta.changed), delta.deleted;
    SortedIsDistinct(a);
    SortedIsDistinct(c);
    SortedIsDistinct(d);
    DistinctConcat(a, c);
    assert SetOf(a + c) == SetOf(a) + SetOf(c);
    DistinctConcat(a + c, d);
  }

  lemma DistinctConcat(a: seq<string>, b: seq<string>)
    requires Distinct(a) && Distinct(b) && SetOf(a) !! SetOf(b)
    ensures Distinct(a + b)
  {
    forall i, j | 0 <= i < j < |a + b|
      ensures (a + b)[i] != (a + b)[j]
    {
      if i < |a| <= j {
        assert a[i] in SetOf(a) && b[j - |a|] in SetOf(b);
      }
    }
  }

  /**
   For any snapshot and any remote tree that the scan accepts, the delta that the remote side packs
   is trustworthy, so the local check accepts it.
   */
  lemma PackedDeltaIsAccepted(sent: Snapshot, remote: map<string, Data>, delta: Delta, returned: map<string, Data>)
    requires SentOk(sent)
    requires PrefixFree(remote.Keys) && forall p :: p in remote && !IsExcluded(p) ==> CheckRelpath(p)
    requires IsDiff(sent, ProjectFiles(remote), delta, returned)
    ensures CheckPaths(delta, sent, Contents(returned)).None?
  {
    hide CheckRelpath, IsExcluded, Sorted, PrefixFree, CheckPaths;
    var now := ProjectFiles(remote);
    var a, c, d := PathsOf(delta.added), PathsOf(delta.changed), delta.deleted;
    FinalIsRemote(sent, now, delta, returned);
    FewerPaths(remote.Keys, now.Keys);
    PartsDistinct(delta);
    PathsSafe(sent, now, delta, returned);
    ContentsMatch(sent, now, delta, returned);
    assert Trustworthy(delta, sent, Contents(returned));
    AcceptedIsTrustworthy(delta, sent, Contents(returned));
  }

  lemma FewerPaths(paths: set<string>, some: set<string>)
    requires PrefixFree(paths) && some <= paths
    ensures PrefixFree(some)
  {
  }

  lemma PathsSafe(sent: Snapshot, now: map<string, Data>, delta: Delta, returned: map<string, Data>)
    requires SentOk(sent) && IsDiff(sent, now, delta, returned) && forall p :: p in now ==> Safe(p)
    ensures forall p :: p in PathsOf(delta.added) + PathsOf(delta.changed) + delta.deleted ==> Safe(p)
  {
    hide Safe, Sorted, SameFile, Distinct;
    forall p | p in PathsOf(delta.added) + PathsOf(delta.changed) + delta.deleted
      ensures Safe(p)
    {
      assert p in SetOf(PathsOf(delta.added)) || p in SetOf(PathsOf(delta.changed)) || p in SetOf(delta.deleted);
      if p !in now {
        assert p in SetOf(PathsOf(sent));
      }
    }
  }

  lemma ContentsMatch(sent: Snapshot, now: map<string, Data>, delta: Delta, returned: map<string, Data>)
    requires IsDiff(sent, now, delta, returned)
    ensures var staged := Contents(returned);
            && staged.Keys == SetOf(PathsOf(delta.added)) + SetOf(PathsOf(delta.changed))
            && forall e :: e in delta.added + delta.changed ==>
                 e.path in staged && e == Entry(e.path, |staged[e.path]|, Sha256(staged[e.path]), e.executable)
  {
    hide Sorted, SameFile, IsExcluded;
    forall e | e in delta.added + delta.changed
      ensures e.path in returned && e == FileEntry(e.path, returned[e.path])
    {
      PathsConcat(delta.added, delta.changed);
      InPaths(delta.added + delta.changed, e);
      assert e.path in SetOf(PathsOf(delta.added)) || e.path in SetOf(PathsOf(delta.changed));
    }
  }
}
