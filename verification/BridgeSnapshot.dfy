/** The canonical manifest of a set of files: one sorted entry list, whatever route read the files. */
module BridgeSnapshot {
  import opened Prelude
  import opened Canonical
  import opened BridgePaths
  import opened BridgeDelta
  import opened BridgeCheck
  import opened BridgeTree
  import opened BridgeApply
  import opened BridgeRoundTrip

  ghost function EntriesOf(files: map<string, Data>): (entries: Snapshot)
    ensures PathsOf(entries) == Listing(files.Keys)
  {
    var names := Listing(files.Keys);
    assert forall i :: 0 <= i < |names| ==> names[i] in SetOf(names);
    seq(|names|, i requires 0 <= i < |names| => FileEntry(names[i], files[names[i]]))
  }

  lemma EntriesByPath(files: map<string, Data>)
    ensures Distinct(PathsOf(EntriesOf(files)))
    ensures ByPath(EntriesOf(files)) == EntryMap(files)
  {
    hide Sorted, ByPath;
    var entries := EntriesOf(files);
    SortedIsDistinct(PathsOf(entries));
    forall p | p in ByPath(entries)
      ensures p in files && ByPath(entries)[p] == FileEntry(p, files[p])
    {
      assert ByPath(entries)[p] in entries;
      assert p in SetOf(Listing(files.Keys));
    }
  }

  function EntryMap(files: map<string, Data>): map<string, Entry> {
    map p | p in files :: FileEntry(p, files[p])
  }

  lemma EntryMapInjective(a: map<string, Data>, b: map<string, Data>)
    requires EntryMap(a) == EntryMap(b)
    ensures a == b
  {
    assert a.Keys == EntryMap(a).Keys && b.Keys == EntryMap(b).Keys;
    forall p | p in a
      ensures a[p] == b[p]
    {
      assert EntryMap(a)[p] == FileEntry(p, a[p]) && EntryMap(b)[p] == FileEntry(p, b[p]);
    }
  }

  /** Two sets of files have one manifest exactly when they are the same files. */
  lemma ManifestIdentifiesFiles(a: map<string, Data>, b: map<string, Data>)
    ensures EntriesOf(a) == EntriesOf(b) <==> a == b
  {
    hide EntriesOf, ByPath, EntryMap;
    EntriesByPath(a);
    EntriesByPath(b);
    if EntryMap(a) == EntryMap(b) {
      EntryMapInjective(a, b);
    }
  }

  /** Any sorted list that states every file once is the canonical manifest. */
  lemma SortedEntriesAreCanonical(entries: seq<Entry>, files: map<string, Data>)
    requires Sorted(PathsOf(entries)) && SetOf(PathsOf(entries)) == files.Keys && Current(files, entries)
    ensures entries == EntriesOf(files)
  {
    hide Sorted;
    ListingIs(PathsOf(entries));
    assert PathsOf(entries) == PathsOf(EntriesOf(files));
    forall i | 0 <= i < |entries|
      ensures entries[i] == EntriesOf(files)[i]
    {
      assert entries[i] in entries && entries[i].path == PathsOf(entries)[i];
    }
  }

  /** One line of a commit's recursive listing: a path, the object that holds its bytes, and its mode. */
  datatype TreeItem = TreeItem(path: string, sha: string, executable: bool)

  function CommitEntries(items: seq<TreeItem>, blobs: map<string, Bytes>): (entries: seq<Entry>)
    requires forall i :: 0 <= i < |items| ==> items[i].sha in blobs
    ensures |entries| == |items|
  {
    seq(|items|, i requires 0 <= i < |items| => FileEntry(items[i].path,
                                                          Data(blobs[items[i].sha], items[i].executable)))
  }

  /** The files a commit's listing describes. */
  ghost predicate Lists(items: seq<TreeItem>, blobs: map<string, Bytes>, files: map<string, Data>) {
    && (forall i :: 0 <= i < |items| ==>
          items[i].sha in blobs && items[i].path in files
            && files[items[i].path] == Data(blobs[items[i].sha], items[i].executable))
    && (forall p :: p in files ==> exists i :: 0 <= i < |items| && items[i].path == p)
  }

  /** Reading the files from a commit and reading them from a worktree gives one and the same manifest. */
  lemma CommitRouteIsCanonical(items: seq<TreeItem>, blobs: map<string, Bytes>, files: map<string, Data>)
    requires Lists(items, blobs, files)
    requires forall i, j :: 0 <= i < j < |items| ==> Less(items[i].path, items[j].path)
    ensures CommitEntries(items, blobs) == EntriesOf(files)
  {
    var entries := CommitEntries(items, blobs);
    forall p | p in files
      ensures p in PathsOf(entries)
    {
      var i :| 0 <= i < |items| && items[i].path == p;
      assert PathsOf(entries)[i] == p;
    }
    SortedEntriesAreCanonical(entries, files);
  }

  /** The candidate's selected files as read from its tree. */
  ghost predicate Selected(files: map<Path, File>, selected: map<string, Data>) {
    forall p :: p in selected ==> Holds(files, p, selected[p])
  }

  /** The precondition of applying: a rebuilt manifest equal to the sent one means nothing sent has changed. */
  lemma SameManifestUnchanged(files: map<Path, File>, selected: map<string, Data>, sent: Snapshot)
    requires Selected(files, selected) && EntriesOf(selected) == sent
    ensures StillHeld(files, sent)
  {
    EntriesByPath(selected);
    forall p | p in ByPath(sent)
      ensures Matches(files, p, ByPath(sent)[p])
    {
      assert Holds(files, p, selected[p]);
    }
  }

  /**
   One whole exchange: the remote side diffs, the local side checks and applies. Whatever fails, the
   candidate is either untouched or agrees with the remote workspace; with no fault it agrees.
   */
  method Exchange(tree: FileTree, selected: map<string, Data>, sent: Snapshot, remote: map<string, Data>, delta: Delta,
                  returned: map<string, Data>, ignored: set<string>)
    returns (r: Result<(), ApplyError>)
    requires tree.Valid() && Selected(tree.files, selected) && EntriesOf(selected) == sent && SentOk(sent)
    requires PrefixFree(remote.Keys) && forall p :: p in remote && !IsExcluded(p) ==> CheckRelpath(p)
    requires IsDiff(sent, ProjectFiles(remote), delta, returned)
    requires NoSwaps(tree.files, delta) && AddedFree(tree.files, tree.dirs, delta, ignored)
    modifies tree
    ensures r.Err? ==> old(tree.failing) && tree.files == old(tree.files) && tree.dirs == old(tree.dirs)
    ensures r.Ok? ==> Agrees(old(tree.files), tree.files, sent, ProjectFiles(remote), ignored)
  {
    hide SentOk, IsDiff, PrefixFree, Agrees, NoSwaps, AddedFree, PlanProblem, Patched, Selected, CheckPaths,
      CheckRelpath, IsExcluded;
    var now := ProjectFiles(remote);
    PackedDeltaIsAccepted(sent, remote, delta, returned);
    SameManifestUnchanged(tree.files, selected, sent);
    WritesStaged(sent, now, delta, returned, ignored);
    HonestPlan(tree.files, tree.dirs, sent, now, delta, returned, ignored);
    FewerPaths(remote.Keys, now.Keys);
    HonestIsSmooth(sent, now, delta, returned, ignored);
    PatchAgrees(tree.files, sent, now, delta, returned, ignored);
    r := ApplyDelta(tree, delta, Contents(returned), ByPath(sent), ignored);
  }
}
