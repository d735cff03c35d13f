/**
 Unpacking the snapshot in the remote workspace, whose root may already hold instruction documents
 that the harness wrote there. Symbolic links and special files are not modelled.
 */
module BridgeUnpack {
  import opened Prelude
  import opened Canonical
  import opened BridgePaths
  import opened BridgeDelta
  import opened BridgeCheck
  import opened BridgeSnapshot

  const MANAGED_ROOT_DOCS := ["AGENTS.md", "CLAUDE.md", "QWEN.md", "GEMINI.md"]

  /** The bytes of the marker "<!-- harness-skills:begin -->". */
  const MARKER: Bytes :=
    [60, 33, 45, 45, 32, 104, 97, 114, 110, 101, 115, 115, 45, 115, 107, 105, 108, 108, 115, 58, 98, 101, 103, 105,
     110, 32, 45, 45, 62]

  predicate MarkerAt(content: Bytes, i: nat) {
    i + |MARKER| <= |content| && content[i..i + |MARKER|] == MARKER
  }

  predicate HasMarker(content: Bytes) {
    exists i: nat :: i <= |content| && MarkerAt(content, i)
  }

  /** The marker may stand anywhere in the document. */
  lemma MarkerMeans(content: Bytes)
    ensures HasMarker(content) <==> exists before: Bytes, after: Bytes :: content == before + MARKER + after
  {
    if HasMarker(content) {
      var i: nat :| i <= |content| && MarkerAt(content, i);
      assert content == content[..i] + MARKER + content[i + |MARKER|..];
    }
    if before: Bytes, after: Bytes :| content == before + MARKER + after {
      assert MarkerAt(content, |before|);
    }
  }

  datatype DocAction = Replaced | Dropped | Identical

  datatype UnpackError = UnexpectedDoc | NotAFile | DifferentFile

  /** The documents that unpacking takes away: marked ones that the snapshot does not have. */
  function DroppedDocs(files: map<string, Data>, snapshot: map<string, Data>): set<string> {
    set name | name in MANAGED_ROOT_DOCS && name in files && HasMarker(files[name].content) && name !in snapshot
  }

  /** A document is bootstrap state, or exactly the candidate's own. */
  predicate DocKnown(files: map<string, Data>, snapshot: map<string, Data>, name: string) {
    name in files ==>
      HasMarker(files[name].content) || (name in snapshot && files[name].content == snapshot[name].content)
  }

  predicate ReplacedDoc(files: map<string, Data>, snapshot: map<string, Data>, name: string) {
    name in MANAGED_ROOT_DOCS && name in files && HasMarker(files[name].content) && name in snapshot
  }

  /** No parent of the path is a file. */
  predicate ParentsAreDirs(files: map<string, Data>, path: string) {
    forall q :: q in files ==> !Below(Split(path), Split(q))
  }

  /** Something lies below the path, so it is a directory. */
  predicate IsDirectory(files: map<string, Data>, path: string) {
    exists q :: q in files && Below(Split(q), Split(path))
  }

  /** The path can be written: no file above it, and in its place nothing, an equal file, or a document to replace. */
  predicate Writable(files: map<string, Data>, snapshot: map<string, Data>, p: string)
    requires p in snapshot
  {
    var base := files - DroppedDocs(files, snapshot);
    && ParentsAreDirs(base + snapshot, p)
    && (ReplacedDoc(files, snapshot, p)
        || (!IsDirectory(base, p) && (p in base ==> base[p].content == snapshot[p].content)))
  }

  /** What is in the way of the snapshot: a file above or a directory at one of its paths, or a different file. */
  ghost predicate Blocked(files: map<string, Data>, snapshot: map<string, Data>, e: UnpackError) {
    var base := files - DroppedDocs(files, snapshot);
    if e == NotAFile then exists p :: p in snapshot && (!ParentsAreDirs(base + snapshot, p) || IsDirectory(base, p))
    else
      exists p ::
        p in snapshot && p in base && base[p].content != snapshot[p].content && !ReplacedDoc(files, snapshot, p)
  }

  /** Unpacking succeeds exactly on these workspaces. */
  predicate Unpackable(files: map<string, Data>, snapshot: map<string, Data>) {
    && (forall name :: name in MANAGED_ROOT_DOCS ==> DocKnown(files, snapshot, name))
    && (forall p :: p in snapshot ==> Writable(files, snapshot, p))
  }

  /**
   Wherever unpacking stops, every file is an old one or one of the snapshot, and only documents to be
   dropped are gone.
   */
  predicate Between(before: map<string, Data>, now: map<string, Data>, snapshot: map<string, Data>) {
    && (forall p :: p in now ==> (p in before && now[p] == before[p]) || (p in snapshot && now[p] == snapshot[p]))
    && (forall p :: p in before && p !in now ==> p in DroppedDocs(before, snapshot))
  }

  /** The files after the first i documents were looked at. */
  function Reconciled(files: map<string, Data>, snapshot: map<string, Data>, i: nat): map<string, Data>
    requires i <= |MANAGED_ROOT_DOCS|
  {
    files - DroppedDocs(files, snapshot) * SetOf(MANAGED_ROOT_DOCS[..i])
  }

  lemma ReconciledStep(files: map<string, Data>, snapshot: map<string, Data>, i: nat)
    requires i < |MANAGED_ROOT_DOCS|
    ensures var name, now := MANAGED_ROOT_DOCS[i], Reconciled(files, snapshot, i);
            && (name in now <==> name in files) && (name in files ==> now[name] == files[name])
            && Reconciled(files, snapshot, i + 1) ==
               (if name in DroppedDocs(files, snapshot) then now - {name} else now)
            && (name in DroppedDocs(files, snapshot) <==>
                name in files && HasMarker(files[name].content) && name !in snapshot)
            && name !in MANAGED_ROOT_DOCS[..i] && Between(files, now, snapshot)
  {
    hide HasMarker;
    var name := MANAGED_ROOT_DOCS[i];
    assert MANAGED_ROOT_DOCS[..i + 1] == MANAGED_ROOT_DOCS[..i] + [name];
    assert forall k :: 0 <= k < i ==> MANAGED_ROOT_DOCS[k] != name;
  }

  lemma AllReconciled(files: map<string, Data>, snapshot: map<string, Data>)
    ensures MANAGED_ROOT_DOCS[..|MANAGED_ROOT_DOCS|] == MANAGED_ROOT_DOCS
    ensures Reconciled(files, snapshot, |MANAGED_ROOT_DOCS|) == files - DroppedDocs(files, snapshot)
    ensures Reconciled(files, snapshot, 0) == files
  {
    hide HasMarker;
    assert MANAGED_ROOT_DOCS[..|MANAGED_ROOT_DOCS|] == MANAGED_ROOT_DOCS;
    assert forall name :: name in DroppedDocs(files, snapshot) ==> name in SetOf(MANAGED_ROOT_DOCS);
  }

  class Workspace {
    var files: map<string, Data>

    method ReconcileBootstrapDocs(snapshot: map<string, Data>) returns (r: Result<map<string, DocAction>, UnpackError>)
      modifies this
      ensures r.Ok? <==> forall name :: name in MANAGED_ROOT_DOCS ==> DocKnown(old(files), snapshot, name)
      ensures r.Ok? ==> files == old(files) - DroppedDocs(old(files), snapshot)
      ensures r.Ok? ==>
              && (forall name :: name in r.value <==> name in MANAGED_ROOT_DOCS && name in old(files))
              && forall name :: name in r.value ==>
                   r.value[name] == if ReplacedDoc(old(files), snapshot, name) then Replaced
                                    else if name in DroppedDocs(old(files), snapshot) then Dropped else Identical
      ensures r.Ok? ==>
              forall name :: name in r.value && r.value[name] == Replaced <==> ReplacedDoc(old(files), snapshot, name)
      ensures r.Err? ==> r.error == UnexpectedDoc && Between(old(files), files, snapshot)
    {
      hide HasMarker, DroppedDocs, Between, SetOf;
      var actions: map<string, DocAction> := map[];
      AllReconciled(files, snapshot);
      for i := 0 to |MANAGED_ROOT_DOCS|
        invariant forall k :: 0 <= k < i ==> DocKnown(old(files), snapshot, MANAGED_ROOT_DOCS[k])
        invariant files == Reconciled(old(files), snapshot, i)
        invariant forall name :: name in actions <==> name in MANAGED_ROOT_DOCS[..i] && name in old(files)
        invariant forall name :: name in actions ==>
                    actions[name] == if ReplacedDoc(old(files), snapshot, name) then Replaced
                                     else if name in DroppedDocs(old(files), snapshot) then Dropped else Identical
      {
        var name := MANAGED_ROOT_DOCS[i];
        ReconciledStep(old(files), snapshot, i);
        assert MANAGED_ROOT_DOCS[..i + 1] == MANAGED_ROOT_DOCS[..i] + [name];
        if name in files {
          if HasMarker(files[name].content) {
            if name in snapshot {
              actions := actions[name := Replaced];
            } else {
              files := files - {name};
              actions := actions[name := Dropped];
            }
          } else if name in snapshot && files[name].content == snapshot[name].content {
            actions := actions[name := Identical];
          } else {
            assert !DocKnown(old(files), snapshot, name);
            return Err(UnexpectedDoc);
          }
        }
      }
      AllReconciled(old(files), snapshot);
      r := Ok(actions);
    }

    /** Write the snapshot, in sorted order, over nothing but bootstrap documents and equal files. */
    method Unpack(snapshot: map<string, Data>, names: seq<string>) returns (r: Result<(), UnpackError>)
      requires Sorted(names) && SetOf(names) == snapshot.Keys
      modifies this
      ensures r.Ok? <==> Unpackable(old(files), snapshot)
      ensures r.Ok? ==> files == (old(files) - DroppedDocs(old(files), snapshot)) + snapshot
      ensures r.Err? ==> Between(old(files), files, snapshot)
      ensures r.Err? && r.error != UnexpectedDoc ==> Blocked(old(files), snapshot, r.error)
      ensures r == Err(UnexpectedDoc) <==>
              exists name :: name in MANAGED_ROOT_DOCS && !DocKnown(old(files), snapshot, name)
    {
      hide HasMarker, Restrict, Sorted, DroppedDocs, Between, Writable, ReplacedDoc, DocKnown, IsDirectory,
        ParentsAreDirs;
      var actions :- ReconcileBootstrapDocs(snapshot);
      ghost var base := files;
      DroppedNotSent(old(files), snapshot);
      SortedIsDistinct(names);
      NothingRestricted(base, snapshot);
      for i := 0 to |names|
        invariant files == base + Restrict(snapshot, names[..i])
        invariant forall p :: p in names[..i] ==> p in snapshot && Writable(old(files), snapshot, p)
      {
        var p := names[i];
        assert names[..i + 1] == names[..i] + [p];
        assert p in SetOf(names);
        RestrictStep(base, snapshot, names, i);
        StepWritable(old(files), snapshot, names, i);
        StillBetween(old(files), snapshot, names[..i]);
        if !ParentsAreDirs(files, p) {
          return Err(NotAFile);
        }
        if !(p in actions && actions[p] == Replaced) {
          if IsDirectory(files, p) {
            return Err(NotAFile);
          }
          if p in files && files[p].content != snapshot[p].content {
            return Err(DifferentFile);
          }
        }
        files := files[p := snapshot[p]];
      }
      assert names[..|names|] == names;
      AllRestricted(snapshot, names);
      r := Ok(());
    }
  }

  /** What the loop looks at when it reaches a path decides whether the path can be written at all. */
  lemma StepWritable(before: map<string, Data>, snapshot: map<string, Data>, names: seq<string>, i: nat)
    requires Sorted(names) && SetOf(names) == snapshot.Keys && i < |names| && names[i] in snapshot
    ensures var p, base := names[i], before - DroppedDocs(before, snapshot);
            var files := base + Restrict(snapshot, names[..i]);
            Writable(before, snapshot, p) <==>
              ParentsAreDirs(files, p) &&
              (ReplacedDoc(before, snapshot, p)
               || (!IsDirectory(files, p) && (p in files ==> files[p].content == snapshot[p].content)))
    ensures var p, base := names[i], before - DroppedDocs(before, snapshot);
            var files := base + Restrict(snapshot, names[..i]);
            && (ParentsAreDirs(files, p) <==> ParentsAreDirs(base + snapshot, p))
            && (IsDirectory(files, p) <==> IsDirectory(base, p))
            && (p in files ==> p in base && files[p] == base[p])
  {
    hide HasMarker, Sorted, DroppedDocs, ReplacedDoc, Restrict, Less;
    var p, base := names[i], before - DroppedDocs(before, snapshot);
    var files := base + Restrict(snapshot, names[..i]);
    RestrictIs(snapshot, names, i);
    forall q | q in snapshot && Below(Split(p), Split(q))
      ensures q in files
    {
      BelowIsLater(q, p);
      assert q in SetOf(names);
      var j :| 0 <= j < |names| && names[j] == q;
      EarlierName(names, j, i);
      assert names[..i][j] == q;
    }
    forall q | q in files && Below(Split(q), Split(p))
      ensures q in base
    {
      if q in snapshot && q !in base {
        BelowIsLater(p, q);
        var j :| 0 <= j < i && names[..i][j] == q;
        EarlierName(names, i, j);
      }
    }
  }

  lemma RestrictIs(m: map<string, Data>, names: seq<string>, i: nat)
    requires Sorted(names) && i < |names| && names[i] in m
    ensures forall q :: q in Restrict(m, names[..i]) <==> q in names[..i] && q in m
    ensures forall q :: q in Restrict(m, names[..i]) ==> Restrict(m, names[..i])[q] == m[q]
    ensures names[i] !in names[..i]
  {
    SortedIsDistinct(names);
  }

  lemma EarlierName(names: seq<string>, i: nat, j: nat)
    requires Sorted(names) && i < |names| && j < |names| && Less(names[i], names[j])
    ensures i < j
  {
    LessTotal(names[i], names[j]);
  }

  /** A path sorts before everything below it. */
  lemma BelowIsLater(q: string, p: string)
    requires Below(Split(p), Split(q))
    ensures Less(q, p)
  {
    JoinSplit(p);
    JoinSplit(q);
    JoinExtends(Split(q), Split(p));
    LessExtended(q, "/" + Join(Split(p)[|Split(q)|..]));
  }

  lemma {:induction false} JoinExtends(a: Path, b: Path)
    requires a != [] && a < b
    ensures Join(b) == Join(a) + ("/" + Join(b[|a|..]))
  {
    if |a| > 1 {
      JoinExtends(a[1..], b[1..]);
      assert b[1..][|a| - 1..] == b[|a|..];
    }
  }

  lemma {:induction false} LessExtended(s: string, t: string)
    requires t != []
    ensures Less(s, s + t)
  {
    if s != [] {
      LessExtended(s[1..], t);
      assert (s + t)[1..] == s[1..] + t;
    }
  }

  lemma StillBetween(before: map<string, Data>, snapshot: map<string, Data>, names: seq<string>)
    ensures Between(before, (before - DroppedDocs(before, snapshot)) + Restrict(snapshot, names), snapshot)
  {
    hide HasMarker;
  }

  function Restrict(m: map<string, Data>, names: seq<string>): map<string, Data> {
    map p | p in names && p in m :: m[p]
  }

  lemma DroppedNotSent(files: map<string, Data>, snapshot: map<string, Data>)
    ensures DroppedDocs(files, snapshot) !! snapshot.Keys
  {
  }

  lemma NothingRestricted(base: map<string, Data>, m: map<string, Data>)
    ensures base + Restrict(m, []) == base
  {
  }

  lemma RestrictStep(base: map<string, Data>, m: map<string, Data>, names: seq<string>, i: nat)
    requires Distinct(names) && i < |names| && names[i] in m
    ensures var p, files := names[i], base + Restrict(m, names[..i]);
            && (p in files <==> p in base)
            && (p in base ==> files[p] == base[p])
            && base + Restrict(m, names[..i + 1]) == files[p := m[p]]
  {
    assert names[..i + 1] == names[..i] + [names[i]];
    assert names[i] !in names[..i];
  }

  lemma AllRestricted(m: map<string, Data>, names: seq<string>)
    requires SetOf(names) == m.Keys
    ensures Restrict(m, names) == m
    ensures forall p :: p in m ==> p in names
  {
    assert forall p :: p in names <==> p in SetOf(names);
  }

  // --- Unpack, then pack ---

  /** Nothing but the snapshot, excluded paths and bootstrap documents was there before. */
  predicate Clean(before: map<string, Data>, snapshot: map<string, Data>) {
    forall p :: p in before && !IsExcluded(p) ==> p in snapshot || p in DroppedDocs(before, snapshot)
  }

  /** Project files that were there before, and that unpacking neither writes nor takes away. */
  function Extra(before: map<string, Data>, snapshot: map<string, Data>): set<string> {
    set p | p in before && !IsExcluded(p) && p !in snapshot && p !in DroppedDocs(before, snapshot)
  }

  lemma CleanMeansNoExtra(before: map<string, Data>, snapshot: map<string, Data>)
    ensures Clean(before, snapshot) <==> Extra(before, snapshot) == {}
  {
    hide IsExcluded, DroppedDocs;
    forall p | p in before && !IsExcluded(p) && p !in snapshot && p !in DroppedDocs(before, snapshot)
      ensures p in Extra(before, snapshot)
    {
    }
  }

  /** Packing right after unpacking gives the empty delta exactly when the workspace was clean. */
  lemma UnpackThenPack(before: map<string, Data>, snapshot: map<string, Data>, delta: Delta,
                       returned: map<string, Data>)
    requires SentOk(EntriesOf(snapshot))
    requires var after := (before - DroppedDocs(before, snapshot)) + snapshot;
             IsDiff(EntriesOf(snapshot), ProjectFiles(after), delta, returned)
    ensures delta.changed == [] && delta.deleted == []
    ensures SetOf(PathsOf(delta.added)) == Extra(before, snapshot)
    ensures delta == Delta([], [], []) <==> Clean(before, snapshot)
  {
    hide HasMarker, IsExcluded, Sorted, EntriesOf, Current, CheckRelpath, DroppedDocs;
    var dropped := DroppedDocs(before, snapshot);
    var now := ProjectFiles((before - dropped) + snapshot);
    EntriesByPath(snapshot);
    SnapshotIncluded(snapshot);
    assert now.Keys - snapshot.Keys == Extra(before, snapshot);
    assert SetOf(PathsOf(delta.changed)) == {};
    NoPaths(delta.changed);
    assert SetOf(delta.deleted) == {};
    EmptySet(delta.deleted);
    NoPathsIff(delta.added);
    CleanMeansNoExtra(before, snapshot);
  }

  lemma NoPathsIff(entries: seq<Entry>)
    ensures SetOf(PathsOf(entries)) == {} <==> entries == []
  {
    if SetOf(PathsOf(entries)) == {} {
      NoPaths(entries);
    }
  }

  lemma SnapshotIncluded(snapshot: map<string, Data>)
    requires SentOk(EntriesOf(snapshot))
    ensures forall p :: p in snapshot ==> !IsExcluded(p)
  {
    hide IsExcluded, CheckRelpath;
    forall p | p in snapshot
      ensures !IsExcluded(p)
    {
      assert p in SetOf(Listing(snapshot.Keys));
      assert p in PathsOf(EntriesOf(snapshot));
    }
  }

  lemma EmptySet(s: seq<string>)
    requires SetOf(s) == {}
    ensures s == []
  {
    if s != [] {
      HeadIn(s);
    }
  }

  lemma HeadIn(s: seq<string>)
    requires s != []
    ensures s[0] in SetOf(s)
  {
  }

  lemma NoPaths(entries: seq<Entry>)
    requires SetOf(PathsOf(entries)) == {}
    ensures entries == []
  {
    EmptySet(PathsOf(entries));
  }
}
