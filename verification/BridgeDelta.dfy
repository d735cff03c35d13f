/**
 The delta: what the remote side computes, and what the local side demands of it before anything
 is applied. A SHA-256 digest is modelled as an injective wrapper of the bytes it was computed from.
 */
module BridgeDelta {
  import opened Prelude
  import opened BridgePaths
  import opened Canonical

  type Bytes = seq<bv8>

  datatype Digest = Sha256(of: Bytes)

  /** A regular file as the bridge sees it. */
  datatype Data = Data(content: Bytes, executable: bool)

  datatype Entry = Entry(path: string, size: nat, sha256: Digest, executable: bool)

  datatype Delta = Delta(added: seq<Entry>, changed: seq<Entry>, deleted: seq<string>)

  /** The snapshot that was sent. */
  type Snapshot = seq<Entry>

  function FileEntry(path: string, data: Data): Entry {
    Entry(path, |data.content|, Sha256(data.content), data.executable)
  }

  function PathsOf(entries: seq<Entry>): (paths: seq<string>)
    ensures |paths| == |entries|
    ensures forall i :: 0 <= i < |entries| ==> paths[i] == entries[i].path
  {
    seq(|entries|, i requires 0 <= i < |entries| => entries[i].path)
  }

  // --- Scanning the remote workspace ---

  datatype Limits = Limits(maxFiles: nat, maxTotal: nat, maxFile: nat)

  datatype ScanError = FileTooLarge | TooManyFiles | TooManyBytes | UnsafePath

  /** The project files of a listing: everything the walk does not exclude. */
  function Found(files: map<string, Data>, listing: seq<string>): map<string, Data> {
    map p | p in listing && p in files && !IsExcluded(p) :: files[p]
  }

  function ProjectFiles(files: map<string, Data>): map<string, Data> {
    map p | p in files && !IsExcluded(p) :: files[p]
  }

  function SizeOf(files: map<string, Data>, listing: seq<string>): nat {
    if listing == [] then 0
    else
      var last := listing[|listing| - 1];
      SizeOf(files, listing[..|listing| - 1]) + if last in files && !IsExcluded(last) then |files[last].content| else 0
  }

  predicate FileOk(files: map<string, Data>, p: string, limits: Limits) {
    p in files && !IsExcluded(p) ==> |files[p].content| <= limits.maxFile && CheckRelpath(p)
  }

  /** Every project file of the listing has a safe path, and no limit is exceeded. */
  predicate Scannable(files: map<string, Data>, listing: seq<string>, limits: Limits) {
    && (forall p :: p in listing ==> FileOk(files, p, limits))
    && |Found(files, listing)| <= limits.maxFiles
    && SizeOf(files, listing) <= limits.maxTotal
  }

  /** One more file of the listing: what it adds to the found files and to their size. */
  lemma FoundStep(files: map<string, Data>, listing: seq<string>, i: nat)
    requires Distinct(listing) && i < |listing| && listing[i] in files
    ensures var p, before, after := listing[i], listing[..i], listing[..i + 1];
            if IsExcluded(p) then Found(files, after) == Found(files, before)
              && SizeOf(files, after) == SizeOf(files, before)
            else
              && p !in Found(files, before)
              && Found(files, after) == Found(files, before)[p := files[p]]
              && SizeOf(files, after) == SizeOf(files, before) + |files[p].content|
  {
    hide IsExcluded;
    assert listing[..i + 1][..i] == listing[..i] && listing[..i + 1] == listing[..i] + [listing[i]];
  }

  lemma ScanStep(files: map<string, Data>, listing: seq<string>, i: nat, limits: Limits)
    requires Distinct(listing) && i < |listing| && listing[i] in files
    ensures var p, before, after := listing[i], listing[..i], listing[..i + 1];
            Scannable(files, after, limits) <==>
              Scannable(files, before, limits) &&
              (IsExcluded(p) || (&& FileOk(files, p, limits)
                                 && |Found(files, after)| <= limits.maxFiles
                                    && SizeOf(files, after) <= limits.maxTotal))
  {
    hide Found, SizeOf, CheckRelpath, IsExcluded;
    var p, before, after := listing[i], listing[..i], listing[..i + 1];
    FoundStep(files, listing, i);
    FoundGrows(files, before, after);
    assert forall q :: q in after <==> q in before || q == p;
  }

  lemma FoundGrows(files: map<string, Data>, before: seq<string>, after: seq<string>)
    requires before <= after
    ensures |Found(files, before)| <= |Found(files, after)|
  {
    hide IsExcluded;
    var small, large := Found(files, before).Keys, Found(files, after).Keys;
    assert small <= large;
    assert large == small + (large - small);
  }

  lemma {:induction false} ScanGrows(files: map<string, Data>, listing: seq<string>, i: nat, limits: Limits)
    requires i <= |listing| && Scannable(files, listing, limits)
    ensures Scannable(files, listing[..i], limits)
  {
    hide IsExcluded, FileOk;
    FoundGrows(files, listing[..i], listing);
    if i == |listing| {
      assert listing[..i] == listing;
    } else {
      var n := |listing| - 1;
      FoundGrows(files, listing[..n], listing);
      ScanGrows(files, listing[..n], i, limits);
      assert listing[..n][..i] == listing[..i];
    }
  }

  /** What each refusal says of the workspace. */
  ghost predicate Exceeds(files: map<string, Data>, listing: seq<string>, limits: Limits, e: ScanError) {
    match e
    case FileTooLarge => exists p :: p in ProjectFiles(files) && |files[p].content| > limits.maxFile
    case UnsafePath => exists p :: p in ProjectFiles(files) && !CheckRelpath(p)
    case TooManyFiles => |ProjectFiles(files)| > limits.maxFiles
    case TooManyBytes => SizeOf(files, listing) > limits.maxTotal
  }

  lemma {:induction false} SizeGrows(files: map<string, Data>, listing: seq<string>, i: nat)
    requires i <= |listing|
    ensures SizeOf(files, listing[..i]) <= SizeOf(files, listing)
  {
    if i == |listing| {
      assert listing[..i] == listing;
    } else {
      var n := |listing| - 1;
      SizeGrows(files, listing[..n], i);
      assert listing[..n][..i] == listing[..i];
    }
  }

  /** Walk the workspace in listing order; an oversized one is refused while it is walked. */
  method Scan(files: map<string, Data>, listing: seq<string>, limits: Limits)
    returns (r: Result<map<string, Data>, ScanError>)
    requires Distinct(listing) && SetOf(listing) == files.Keys
    ensures r.Ok? <==> Scannable(files, listing, limits)
    ensures r.Ok? ==> r.value == ProjectFiles(files)
    ensures r.Err? ==> Exceeds(files, listing, limits, r.error)
  {
    hide IsExcluded, CheckRelpath, Found, SizeOf, Scannable;
    var found: map<string, Data>, total := map[], 0;
    NothingScanned(files, listing, limits);
    for i := 0 to |listing|
      invariant found == Found(files, listing[..i]) && total == SizeOf(files, listing[..i])
      invariant Scannable(files, listing[..i], limits)
    {
      var p := listing[i];
      assert p in SetOf(listing);
      FoundStep(files, listing, i);
      ScanStep(files, listing, i, limits);
      FoundGrows(files, listing[..i + 1], listing);
      SizeGrows(files, listing, i + 1);
      AllFound(files, listing);
      if Scannable(files, listing, limits) {
        ScanGrows(files, listing, i + 1, limits);
      }
      if !IsExcluded(p) {
        if |files[p].content| > limits.maxFile {
          return Err(FileTooLarge);
        }
        if |found| + 1 > limits.maxFiles {
          return Err(TooManyFiles);
        }
        total := total + |files[p].content|;
        if total > limits.maxTotal {
          return Err(TooManyBytes);
        }
        if !CheckRelpath(p) {
          return Err(UnsafePath);
        }
        found := found[p := files[p]];
      }
    }
    assert listing[..|listing|] == listing;
    AllFound(files, listing);
    r := Ok(found);
  }

  lemma NothingScanned(files: map<string, Data>, listing: seq<string>, limits: Limits)
    ensures listing[..0] == [] && Found(files, []) == map[] && SizeOf(files, []) == 0 && Scannable(files, [], limits)
  {
  }

  lemma AllFound(files: map<string, Data>, listing: seq<string>)
    requires SetOf(listing) == files.Keys
    ensures Found(files, listing) == ProjectFiles(files)
  {
    assert forall p :: p in files ==> p in SetOf(listing);
  }

  // --- The remote diff ---

  /** The entries of a list by path; a later entry replaces an earlier one. */
  function ByPath(entries: seq<Entry>): (m: map<string, Entry>)
    ensures m.Keys == SetOf(PathsOf(entries))
    ensures forall p :: p in m ==> m[p] in entries && m[p].path == p
  {
    if entries == [] then map[]
    else
      var last := entries[|entries| - 1];
      var m := ByPath(entries[..|entries| - 1]);
      assert PathsOf(entries) == PathsOf(entries[..|entries| - 1]) + [last.path];
      m[last.path := last]
  }

  predicate SameFile(entry: Entry, data: Data) {
    entry.sha256 == Sha256(data.content) && entry.executable == data.executable
  }

  /** What a delta must say for one snapshot and one set of current files. */
  ghost predicate IsDiff(sent: Snapshot, now: map<string, Data>, delta: Delta, returned: map<string, Data>) {
    var before := ByPath(sent);
    && Sorted(PathsOf(delta.added)) && Sorted(PathsOf(delta.changed)) && Sorted(delta.deleted)
    && SetOf(PathsOf(delta.added)) == now.Keys - before.Keys
    && SetOf(PathsOf(delta.changed)) == (set p | p in now && p in before && !SameFile(before[p], now[p]))
    && SetOf(delta.deleted) == (set p | p in before && p !in now && !IsExcluded(p))
    && Current(now, delta.added) && Current(now, delta.changed)
    && returned == map p | p in now && (p in before ==> !SameFile(before[p], now[p])) :: now[p]
  }

  datatype Verdict = Added | Changed | Unchanged | Deleted | Absent

  function Judge(before: map<string, Entry>, now: map<string, Data>, p: string): Verdict {
    if p in now then if p !in before then Added else if SameFile(before[p], now[p]) then Unchanged else Changed
    else if p in before && !IsExcluded(p) then Deleted
    else Absent
  }

  /** The listed paths with one verdict, in listing order. */
  function Chosen(before: map<string, Entry>, now: map<string, Data>, names: seq<string>, v: Verdict): seq<string> {
    if names == [] then []
    else
      var last := names[|names| - 1];
      Chosen(before, now, names[..|names| - 1], v) + if Judge(before, now, last) == v then [last] else []
  }

  /** Every entry states the current file at its path. */
  predicate Current(now: map<string, Data>, entries: seq<Entry>) {
    forall e :: e in entries ==> e.path in now && e == FileEntry(e.path, now[e.path])
  }

  function Returned(before: map<string, Entry>, now: map<string, Data>, names: seq<string>): map<string, Data> {
    map p | p in names && p in now && Judge(before, now, p) in {Added, Changed} :: now[p]
  }

  lemma {:induction false} ChosenAre(before: map<string, Entry>, now: map<string, Data>, names: seq<string>, v: Verdict)
    requires Sorted(names)
    ensures Sorted(Chosen(before, now, names, v))
    ensures forall p :: p in Chosen(before, now, names, v) <==> p in names && Judge(before, now, p) == v
  {
    hide Judge;
    if names != [] {
      var n := |names| - 1;
      var some := Chosen(before, now, names[..n], v);
      ChosenAre(before, now, names[..n], v);
      assert names == names[..n] + [names[n]];
      forall k | 0 <= k < |some|
        ensures Less(some[k], names[n])
      {
        assert some[k] in names[..n];
      }
    }
  }

  /** Compare the current files, in sorted order, with the snapshot. */
  method Compare(before: map<string, Entry>, now: map<string, Data>, names: seq<string>)
    returns (added: seq<Entry>, changed: seq<Entry>, data: map<string, Data>)
    requires Sorted(names) && SetOf(names) == now.Keys
    ensures PathsOf(added) == Chosen(before, now, names, Verdict.Added) && Current(now, added)
    ensures PathsOf(changed) == Chosen(before, now, names, Verdict.Changed) && Current(now, changed)
    ensures data == Returned(before, now, names)
  {
    hide IsExcluded, SameFile, Current, Returned, Chosen, Judge;
    added, changed, data := [], [], map[];
    NothingCompared(before, now);
    for i := 0 to |names|
      invariant PathsOf(added) == Chosen(before, now, names[..i], Verdict.Added) && Current(now, added)
      invariant PathsOf(changed) == Chosen(before, now, names[..i], Verdict.Changed) && Current(now, changed)
      invariant data == Returned(before, now, names[..i])
    {
      var p := names[i];
      assert p in SetOf(names);
      var entry := FileEntry(p, now[p]);
      CompareStep(before, now, names, i);
      EntriesAppend(now, added, p);
      EntriesAppend(now, changed, p);
      if p !in before {
        added, data := added + [entry], data[p := now[p]];
      } else if !SameFile(before[p], now[p]) {
        changed, data := changed + [entry], data[p := now[p]];
      }
    }
    assert names[..|names|] == names;
  }

  lemma NothingCompared(before: map<string, Entry>, now: map<string, Data>)
    ensures Chosen(before, now, [], Verdict.Added) == Chosen(before, now, [], Verdict.Changed) == []
            && Returned(before, now, []) == map[]
    ensures Current(now, [])
  {
  }

  lemma EntriesAppend(now: map<string, Data>, entries: seq<Entry>, p: string)
    requires p in now && Current(now, entries)
    ensures Current(now, entries + [FileEntry(p, now[p])])
            && PathsOf(entries + [FileEntry(p, now[p])]) == PathsOf(entries) + [p]
  {
  }

  lemma CompareStep(before: map<string, Entry>, now: map<string, Data>, names: seq<string>, i: nat)
    requires i < |names| && names[i] in now
    ensures var p, prior, next := names[i], names[..i], names[..i + 1];
            var isAdded, isChanged := p !in before, p in before && !SameFile(before[p], now[p]);
            && Chosen(before, now, next, Verdict.Added) ==
               Chosen(before, now, prior, Verdict.Added) + (if isAdded then [p] else [])
            && Chosen(before, now, next, Verdict.Changed) ==
               Chosen(before, now, prior, Verdict.Changed) + (if isChanged then [p] else [])
            && Returned(before, now, next) ==
                 if isAdded || isChanged then Returned(before, now, prior)[p := now[p]]
                   else Returned(before, now, prior)
  {
    hide IsExcluded, SameFile;
    assert names[..i + 1] == names[..i] + [names[i]] && names[..i + 1][..i] == names[..i];
  }

  /** The delta of the current files against the snapshot; `names` and `sentNames` are the sorted paths of each. */
  method Pack(sent: Snapshot, now: map<string, Data>, names: seq<string>, sentNames: seq<string>)
    returns (delta: Delta, returned: map<string, Data>)
    requires Sorted(names) && SetOf(names) == now.Keys
    requires Sorted(sentNames) && SetOf(sentNames) == ByPath(sent).Keys
    ensures IsDiff(sent, now, delta, returned)
  {
    hide IsExcluded, SameFile;
    var before := ByPath(sent);
    var added, changed, data := Compare(before, now, names);
    var deleted: seq<string> := [];
    for i := 0 to |sentNames|
      invariant deleted == Chosen(before, now, sentNames[..i], Verdict.Deleted)
    {
      var p := sentNames[i];
      assert sentNames[..i + 1][..i] == sentNames[..i];
      assert p in SetOf(sentNames);
      if p !in now && !IsExcluded(p) {
        deleted := deleted + [p];
      }
    }
    assert sentNames[..|sentNames|] == sentNames;
    delta, returned := Delta(added, changed, deleted), data;
    PackedIsDiff(sent, now, names, sentNames, delta, returned);
  }

  lemma PackedIsDiff(sent: Snapshot, now: map<string, Data>, names: seq<string>, sentNames: seq<string>, delta: Delta,
                     returned: map<string, Data>)
    requires Sorted(names) && SetOf(names) == now.Keys
    requires Sorted(sentNames) && SetOf(sentNames) == ByPath(sent).Keys
    requires PathsOf(delta.added) == Chosen(ByPath(sent), now, names, Verdict.Added) && Current(now, delta.added)
    requires PathsOf(delta.changed) == Chosen(ByPath(sent), now, names, Verdict.Changed) && Current(now, delta.changed)
    requires delta.deleted == Chosen(ByPath(sent), now, sentNames, Verdict.Deleted)
    requires returned == Returned(ByPath(sent), now, names)
    ensures IsDiff(sent, now, delta, returned)
  {
    hide IsExcluded, SameFile, Chosen, ByPath, Sorted, Current, Returned, PathsOf, SetOf, Judge;
    var before := ByPath(sent);
    VerdictSets(before, now);
    ChosenSet(before, now, names, Verdict.Added);
    ChosenSet(before, now, names, Verdict.Changed);
    ChosenSet(before, now, sentNames, Verdict.Deleted);
    ReturnedAll(before, now, names);
  }

  lemma VerdictSets(before: map<string, Entry>, now: map<string, Data>)
    ensures (set p | p in now.Keys && Judge(before, now, p) == Verdict.Added) == now.Keys - before.Keys
    ensures (set p | p in now.Keys && Judge(before, now, p) == Verdict.Changed)
         == set p | p in now && p in before && !SameFile(before[p], now[p])
    ensures (set p | p in before.Keys && Judge(before, now, p) == Verdict.Deleted)
         == set p | p in before && p !in now && !IsExcluded(p)
  {
    hide SameFile, IsExcluded;
  }

  lemma ChosenSet(before: map<string, Entry>, now: map<string, Data>, names: seq<string>, v: Verdict)
    requires Sorted(names)
    ensures Sorted(Chosen(before, now, names, v))
    ensures SetOf(Chosen(before, now, names, v)) == set p | p in SetOf(names) && Judge(before, now, p) == v
  {
    hide Judge, Chosen;
    ChosenAre(before, now, names, v);
  }

  lemma ReturnedAll(before: map<string, Entry>, now: map<string, Data>, names: seq<string>)
    requires SetOf(names) == now.Keys
    ensures Returned(before, now, names) == map p | p in now && (p in before ==> !SameFile(before[p], now[p])) :: now[p]
  {
    hide IsExcluded, SameFile;
    assert forall p :: p in names <==> p in SetOf(names);
  }
}
