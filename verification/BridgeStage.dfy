/** Reading the untrusted output archive member by member, within its limits, before any of it is used. */
module BridgeStage {
  import opened Prelude
  import opened Canonical
  import opened BridgePaths
  import opened BridgeDelta
  import opened BridgeCheck

  /** A tar member: the size its header declares and the bytes that follow. */
  datatype Member = Member(name: string, regular: bool, size: nat, data: Bytes)

  datatype Bounds = Bounds(maxFiles: nat, maxFile: nat, maxTotal: nat, maxManifest: nat)

  datatype Staged = Staged(manifest: Bytes, files: map<string, Bytes>)

  datatype StageError =
    | TooManyMembers | DuplicateMember | NotRegular | ManifestTooLarge | Undeclared | UnsafeMember | TooLarge
      | TotalTooLarge | WrongLength | NoManifest

  const MANIFEST_MEMBER := "manifest.json"
  const FILES_PREFIX := "files/"

  predicate IsFile(m: Member) {
    m.name != MANIFEST_MEMBER && StartsWith(m.name, FILES_PREFIX)
  }

  function PathOf(m: Member): string
    requires IsFile(m)
  {
    m.name[|FILES_PREFIX|..]
  }

  /** A header that is acceptable on its own. */
  predicate HeaderOk(m: Member, b: Bounds) {
    && m.regular
    && (if m.name == MANIFEST_MEMBER then m.size <= b.maxManifest
        else IsFile(m) && Safe(PathOf(m)) && m.size <= b.maxFile)
  }

  predicate MemberOk(m: Member, b: Bounds) {
    HeaderOk(m, b) && |m.data| == m.size
  }

  method CheckHeader(m: Member, b: Bounds) returns (problem: Option<StageError>)
    ensures problem.None? <==> HeaderOk(m, b)
    ensures problem.None? ==> m.name == MANIFEST_MEMBER || IsFile(m)
    ensures problem.Some? ==> forall members :: m in members ==> Blames(problem.value, members, b)
  {
    hide CheckRelpath, StaysBelow, IsExcluded, TotalSize, Distinct;
    if IsFile(m) {
      CheckedStaysBelow(PathOf(m));
    }
    if !m.regular {
      return Some(NotRegular);
    }
    if m.name == MANIFEST_MEMBER {
      return if m.size > b.maxManifest then Some(ManifestTooLarge) else None;
    }
    if !StartsWith(m.name, FILES_PREFIX) {
      return Some(Undeclared);
    }
    if !Safe(PathOf(m)) {
      return Some(UnsafeMember);
    }
    problem := if m.size > b.maxFile then Some(TooLarge) else None;
  }

  function Names(members: seq<Member>): (names: seq<string>)
    ensures |names| == |members| && forall i :: 0 <= i < |members| ==> names[i] == members[i].name
  {
    seq(|members|, i requires 0 <= i < |members| => members[i].name)
  }

  function TotalSize(members: seq<Member>): nat {
    if members == [] then 0
    else
      var last := members[|members| - 1];
      TotalSize(members[..|members| - 1]) + if IsFile(last) then last.size else 0
  }

  /** Every member is named once and acceptable, and together they are within the limits. */
  predicate Bounded(members: seq<Member>, b: Bounds) {
    && |members| <= b.maxFiles + 1
    && Distinct(Names(members))
    && (forall m :: m in members ==> MemberOk(m, b))
    && TotalSize(members) <= b.maxTotal
  }

  /** The staged files are exactly the file members, each under its own path. */
  predicate StagedExactly(files: map<string, Bytes>, members: seq<Member>) {
    && (forall m :: m in members && IsFile(m) ==> PathOf(m) in files && files[PathOf(m)] == m.data)
    && (forall p :: p in files ==> FILES_PREFIX + p in Names(members))
  }

  /** The bytes are those of the manifest member. */
  predicate IsManifest(members: seq<Member>, data: Bytes) {
    exists m :: m in members && m.name == MANIFEST_MEMBER && m.data == data
  }

  /** What a refusal says of the archive. */
  ghost predicate Blames(e: StageError, members: seq<Member>, b: Bounds) {
    match e
    case TooManyMembers => |members| > b.maxFiles + 1
    case DuplicateMember => !Distinct(Names(members))
    case NotRegular => exists m :: m in members && !m.regular
    case ManifestTooLarge => exists m :: m in members && m.name == "manifest.json" && m.size > b.maxManifest
    case Undeclared => exists m :: m in members && m.name != "manifest.json" && !("files/" <= m.name)
    case UnsafeMember => exists m :: m in members && IsFile(m) && (!StaysBelow(PathOf(m)) || IsExcluded(PathOf(m)))
    case TooLarge => exists m :: m in members && IsFile(m) && m.size > b.maxFile
    case TotalTooLarge => TotalSize(members) > b.maxTotal
    case WrongLength => exists m :: m in members && |m.data| != m.size
    case NoManifest => "manifest.json" !in Names(members)
  }

  lemma {:induction false} TotalGrows(members: seq<Member>, i: nat)
    requires i <= |members|
    ensures TotalSize(members[..i]) <= TotalSize(members)
  {
    if i == |members| {
      assert members[..i] == members;
    } else {
      TotalGrows(members[..|members| - 1], i);
      assert members[..|members| - 1][..i] == members[..i];
    }
  }

  lemma NameTwice(members: seq<Member>, i: nat)
    requires i < |members| && members[i].name in SetOf(Names(members[..i]))
    ensures !Distinct(Names(members))
  {
    var k :| 0 <= k < i && Names(members[..i])[k] == members[i].name;
    assert Names(members)[k] == Names(members)[i];
  }

  /** Every staged path stays below the root, and is not excluded. */
  lemma StagedStay(files: map<string, Bytes>, members: seq<Member>, b: Bounds, p: string)
    requires Bounded(members, b) && StagedExactly(files, members) && p in files
    ensures StaysBelow(p) && !IsExcluded(p)
  {
    hide Distinct, TotalSize, CheckRelpath, IsExcluded, StaysBelow;
    var k :| 0 <= k < |Names(members)| && Names(members)[k] == FILES_PREFIX + p;
    var m := members[k];
    assert m in members && MemberOk(m, b) && m.name[|FILES_PREFIX|..] == p && m.name[0] == 'f';
    CheckedStaysBelow(p);
  }

  lemma LoopBlames(e: StageError, members: seq<Member>, i: nat, b: Bounds)
    requires i < |members|
    requires match e
             case TooManyMembers => i >= b.maxFiles + 1
             case DuplicateMember => members[i].name in SetOf(Names(members[..i]))
             case TotalTooLarge => TotalSize(members[..i + 1]) > b.maxTotal
             case WrongLength => |members[i].data| != members[i].size
             case _ => false
    ensures Blames(e, members, b)
  {
    hide TotalSize, Distinct, StaysBelow, IsExcluded;
    match e
    case DuplicateMember => NameTwice(members, i);
    case TotalTooLarge => TotalGrows(members, i + 1);
    case _ =>
  }

  lemma NoManifestBlames(members: seq<Member>, b: Bounds)
    requires MANIFEST_MEMBER !in Names(members)
    ensures Blames(NoManifest, members, b)
  {
  }

  method Stage(members: seq<Member>, b: Bounds) returns (r: Result<Staged, StageError>)
    ensures r.Ok? <==> Bounded(members, b) && MANIFEST_MEMBER in Names(members)
    ensures r.Ok? ==> forall p :: p in r.value.files ==> StaysBelow(p) && !IsExcluded(p)
    ensures r.Err? ==> Blames(r.error, members, b)
    ensures r.Ok? ==> StagedExactly(r.value.files, members)
    ensures r.Ok? ==> IsManifest(members, r.value.manifest)
  {
    hide Bounded, StagedExactly, TotalSize, HeaderOk, StartsWith, Names, StaysBelow, IsExcluded, Distinct, Blames;
    var names: set<string>, manifest: Option<Bytes>, files: map<string, Bytes>, total := {}, None, map[], 0;
    NothingStaged(b);
    for i := 0 to |members|
      invariant names == SetOf(Names(members[..i])) && |names| == i
      invariant total == TotalSize(members[..i]) && total <= b.maxTotal
      invariant Bounded(members[..i], b) && StagedExactly(files, members[..i])
      invariant manifest.Some? <==> MANIFEST_MEMBER in Names(members[..i])
      invariant manifest.Some? ==> IsManifest(members, manifest.value)
    {
      var m := members[i];
      BoundedStep(members, i, b);
      StagedStep(files, members, i);
      if Bounded(members, b) {
        BoundedPrefix(members, i + 1, b);
      }
      if |names| >= b.maxFiles + 1 {
        LoopBlames(TooManyMembers, members, i, b);
        return Err(TooManyMembers);
      }
      if m.name in names {
        LoopBlames(DuplicateMember, members, i, b);
        return Err(DuplicateMember);
      }
      names := names + {m.name};
      var problem := CheckHeader(m, b);
      if problem.Some? {
        return Err(problem.value);
      }
      if IsFile(m) {
        total := total + m.size;
        if total > b.maxTotal {
          LoopBlames(TotalTooLarge, members, i, b);
          return Err(TotalTooLarge);
        }
      }
      if |m.data| != m.size {
        LoopBlames(WrongLength, members, i, b);
        return Err(WrongLength);
      }
      if IsFile(m) {
        files := files[PathOf(m) := m.data];
      } else {
        manifest := Some(m.data);
      }
    }
    assert members[..|members|] == members;
    forall p | p in files
      ensures StaysBelow(p) && !IsExcluded(p)
    {
      StagedStay(files, members, b, p);
    }
    if manifest.None? {
      NoManifestBlames(members, b);
      return Err(NoManifest);
    }
    r := Ok(Staged(manifest.value, files));
  }

  lemma NothingStaged(b: Bounds)
    ensures Bounded([], b) && StagedExactly(map[], []) && TotalSize([]) == 0
  {
  }

  lemma NamesStep(members: seq<Member>, i: nat)
    requires i < |members|
    ensures Names(members[..i + 1]) == Names(members[..i]) + [members[i].name]
    ensures members[..i + 1] == members[..i] + [members[i]]
  {
  }

  /** One more member: exactly what keeps the archive within its bounds. */
  lemma BoundedStep(members: seq<Member>, i: nat, b: Bounds)
    requires i < |members| && Bounded(members[..i], b)
    ensures var m := members[i];
            && (Bounded(members[..i + 1], b) <==>
                  && i < b.maxFiles + 1
                  && m.name !in SetOf(Names(members[..i]))
                  && MemberOk(m, b)
                  && TotalSize(members[..i + 1]) <= b.maxTotal)
            && TotalSize(members[..i + 1]) == TotalSize(members[..i]) + (if IsFile(m) then m.size else 0)
            && SetOf(Names(members[..i + 1])) == SetOf(Names(members[..i])) + {m.name}
            && (MANIFEST_MEMBER in Names(members[..i + 1]) <==>
                MANIFEST_MEMBER in Names(members[..i]) || m.name == MANIFEST_MEMBER)
  {
    hide MemberOk, IsFile;
    NamesStep(members, i);
    assert members[..i + 1][..i] == members[..i];
    if members[i].name !in Names(members[..i]) {
      DistinctAppend(Names(members[..i]), members[i].name);
    } else {
      NameRepeats(Names(members[..i]), members[i].name);
    }
  }

  lemma NameRepeats(names: seq<string>, name: string)
    requires name in names
    ensures !Distinct(names + [name])
  {
    var k :| 0 <= k < |names| && names[k] == name;
    assert (names + [name])[k] == (names + [name])[|names|];
  }

  lemma {:induction false} BoundedPrefix(members: seq<Member>, i: nat, b: Bounds)
    requires Bounded(members, b) && i <= |members|
    ensures Bounded(members[..i], b)
  {
    hide MemberOk, IsFile;
    if i == |members| {
      assert members[..i] == members;
    } else {
      var n := |members| - 1;
      assert Names(members[..n]) == Names(members)[..n];
      BoundedPrefix(members[..n], i, b);
      assert members[..n][..i] == members[..i];
    }
  }

  lemma StagedStep(files: map<string, Bytes>, members: seq<Member>, i: nat)
    requires i < |members| && StagedExactly(files, members[..i])
    ensures var m := members[i];
            && (m.name == MANIFEST_MEMBER ==> StagedExactly(files, members[..i + 1]))
            && (IsFile(m) && m.name !in SetOf(Names(members[..i])) ==>
                StagedExactly(files[PathOf(m) := m.data], members[..i + 1]))
  {
    NamesStep(members, i);
    var m := members[i];
    if IsFile(m) && m.name !in SetOf(Names(members[..i])) {
      assert FILES_PREFIX + PathOf(m) == m.name;
      forall x | x in members[..i] && IsFile(x)
        ensures PathOf(x) != PathOf(m)
      {
        NameListed(members[..i], x);
        assert x.name == FILES_PREFIX + PathOf(x);
      }
    }
  }

  lemma NameListed(members: seq<Member>, m: Member)
    requires m in members
    ensures m.name in Names(members)
  {
    var k :| 0 <= k < |members| && members[k] == m;
    assert Names(members)[k] == m.name;
  }
}
