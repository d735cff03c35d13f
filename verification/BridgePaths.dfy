/** Relative POSIX paths: splitting and joining, and the checks both sides of the bridge share. */
module BridgePaths {
  import opened Prelude
  import opened Text

  /** A path as its components below the workspace root. */
  type Path = seq<string>

  // --- Splitting and joining on '/' ---

  function Split(s: string): (parts: Path)
    ensures parts != []
    ensures forall p :: p in parts ==> '/' !in p
  {
    SplitOn(s, '/')
  }

  function Join(parts: Path): string {
    JoinWith(parts, '/')
  }

  lemma JoinSplit(s: string)
    ensures Join(Split(s)) == s
  {
    JoinSplitOn(s, '/');
  }

  lemma SplitJoin(parts: Path)
    requires parts != [] && forall p :: p in parts ==> '/' !in p
    ensures Split(Join(parts)) == parts
  {
    SplitJoinOn(parts, '/');
  }

  /** Two strings with the same components are the same path. */
  lemma SplitInjective(s: string, t: string)
    requires Split(s) == Split(t)
    ensures s == t
  {
    JoinSplit(s);
    JoinSplit(t);
  }

  // --- The shared checks ---

  predicate StartsWith(s: string, prefix: string) {
    prefix <= s
  }

  function Lower(c: char): char {
    if 'A' <= c <= 'Z' then c + ' ' else c
  }

  /** Equal to ".git" when letters are compared without case. */
  predicate IsGit(part: string) {
    |part| == 4 && part[0] == '.' && Lower(part[1]) == 'g' && Lower(part[2]) == 'i' && Lower(part[3]) == 't'
  }

  predicate IsLetter(c: char) {
    'A' <= c <= 'Z' || 'a' <= c <= 'z'
  }

  predicate HasDrive(part: string) {
    |part| >= 2 && IsLetter(part[0]) && part[1] == ':'
  }

  /** Relative, already normal, and without a component that leads out of the root. */
  predicate CheckRelpath(path: string) {
    && path != []
    && '\0' !in path && '\\' !in path && path[0] != '/'
    && (forall part :: part in Split(path) ==> part !in {"", ".", ".."})
    && !HasDrive(Split(path)[0])
    && (forall part :: part in Split(path) ==> !IsGit(part))
  }

  const RESERVED_ROOT_PREFIXES := [".cloudeo-bridge", "cloudeo-bridge-output-"]
  const ROOT_RUNTIME_DIRS := {".claude", ".codex", ".harness"}
  const ANY_DEPTH_EXCLUDED := {".git", "__pycache__"}

  predicate ReservedName(name: string) {
    exists p :: p in RESERVED_ROOT_PREFIXES && StartsWith(name, p)
  }

  predicate ExcludedParts(parts: Path)
    requires parts != []
  {
    || parts[0] in ROOT_RUNTIME_DIRS
    || ReservedName(parts[0])
    || exists part :: part in parts && (part in ANY_DEPTH_EXCLUDED || IsGit(part))
  }

  predicate IsExcluded(path: string) {
    ExcludedParts(Split(path))
  }

  /** A walk that skips excluded directories skips exactly the excluded files below them. */
  lemma ExclusionIsHereditary(parts: Path, k: nat)
    requires 0 < k <= |parts| && ExcludedParts(parts[..k])
    ensures ExcludedParts(parts)
  {
    if exists part :: part in parts[..k] && (part in ANY_DEPTH_EXCLUDED || IsGit(part)) {
      var part :| part in parts[..k] && (part in ANY_DEPTH_EXCLUDED || IsGit(part));
      assert part in parts;
    }
  }

  // --- What the shared checks keep out ---

  /** Where components lead from a directory: ".." leaves one, "." and "" stay, and above the root is nowhere. */
  function Resolve(at: Path, parts: Path): Option<Path>
    decreases |parts|
  {
    if parts == [] then Some(at)
    else if parts[0] == ".." then if at == [] then None else Resolve(at[..|at| - 1], parts[1..])
    else if parts[0] in {"", "."} then Resolve(at, parts[1..])
    else Resolve(at + [parts[0]], parts[1..])
  }

  lemma {:induction false} ResolvedLength(at: Path, parts: Path)
    ensures Resolve(at, parts).Some? ==> |Resolve(at, parts).value| <= |at| + |parts|
    ensures Resolve(at, parts).Some? && |Resolve(at, parts).value| == |at| + |parts| ==>
              forall part :: part in parts ==> part !in {"", ".", ".."}
    decreases |parts|
  {
    if parts != [] {
      var next := if parts[0] == ".." then if at == [] then at else at[..|at| - 1]
                  else if parts[0] in {"", "."} then at else at + [parts[0]];
      ResolvedLength(next, parts[1..]);
      assert parts == [parts[0]] + parts[1..];
    }
  }

  lemma {:induction false} NormalResolves(at: Path, parts: Path)
    requires forall part :: part in parts ==> part !in {"", ".", ".."}
    ensures Resolve(at, parts) == Some(at + parts)
    decreases |parts|
  {
    if parts == [] {
      assert at + parts == at;
    } else {
      assert parts[0] in parts && forall part :: part in parts[1..] ==> part in parts;
      NormalResolves(at + [parts[0]], parts[1..]);
      assert at + parts == at + [parts[0]] + parts[1..];
    }
  }

  /** Equal strings, up to the case of ASCII letters. */
  predicate SameLetters(s: string, t: string) {
    |s| == |t| && forall i :: 0 <= i < |s| ==> s[i] == t[i] || SwappedCase(s[i], t[i]) || SwappedCase(t[i], s[i])
  }

  predicate SwappedCase(upper: char, lower: char) {
    'A' <= upper <= 'Z' && lower as int == upper as int + 32
  }

  /**
   A name for a file of its own below every root: it resolves to exactly its components there, none of
   them is Git's directory, and no other system reads it as anything but those components.
   */
  ghost predicate StaysBelow(path: string) {
    && (forall root: Path :: Resolve(root, Split(path)) == Some(root + Split(path)))
    && (forall part :: part in Split(path) ==> !SameLetters(part, ".git"))
    && (forall c :: c in path ==> c as int != 0 && c as int != 92)
    && !(|path| >= 2 && path[1] == ':' && exists c: char :: 'a' <= c <= 'z' && SameLetters([path[0]], [c]))
  }

  /** The check accepts exactly such names, and refuses everything else. */
  lemma CheckedStaysBelow(path: string)
    ensures CheckRelpath(path) <==> StaysBelow(path)
  {
    hide Split, Resolve, SameLetters;
    SplitShape(path);
    NormalMeans(Split(path));
    DriveMeans(path);
    forall part | part in Split(path)
      ensures IsGit(part) <==> SameLetters(part, ".git")
    {
      GitMeans(part);
    }
    assert '\\' as int == 92 && '\0' as int == 0;
  }

  lemma NormalMeans(parts: Path)
    ensures (forall root: Path :: Resolve(root, parts) == Some(root + parts)) <==>
              forall part :: part in parts ==> part !in {"", ".", ".."}
  {
    if forall part :: part in parts ==> part !in {"", ".", ".."} {
      forall root: Path
        ensures Resolve(root, parts) == Some(root + parts)
      {
        NormalResolves(root, parts);
      }
    } else if forall root: Path :: Resolve(root, parts) == Some(root + parts) {
      assert Resolve([], parts) == Some([] + parts);
      ResolvedLength([], parts);
    }
  }

  lemma GitMeans(part: string)
    ensures IsGit(part) <==> SameLetters(part, ".git")
  {
    assert ".git"[0] == '.' && ".git"[1] == 'g' && ".git"[2] == 'i' && ".git"[3] == 't';
  }

  lemma DriveMeans(path: string)
    ensures HasDrive(Split(path)[0]) <==>
              |path| >= 2 && path[1] == ':' && exists c: char :: 'a' <= c <= 'z' && SameLetters([path[0]], [c])
  {
    var first := Split(path)[0];
    assert first == path[..IndexOf(path, '/')];
    if path != [] {
      LetterMeans(path[0]);
    }
  }

  lemma LetterMeans(c: char)
    ensures IsLetter(c) <==> exists l: char :: 'a' <= l <= 'z' && SameLetters([c], [l])
  {
    if IsLetter(c) {
      assert SameLetters([c], [Lower(c)]);
    }
    if l: char :| 'a' <= l <= 'z' && SameLetters([c], [l]) {
      assert [c][0] == c && [l][0] == l;
    }
  }

  /** An absolute path and the empty one have an empty component. */
  lemma SplitShape(path: string)
    ensures path == [] || path[0] == '/' ==> "" in Split(path)
  {
    assert path == [] || path[0] == '/' ==> Split(path)[0] == "";
  }

  /** Excluded is what the harness, the bridge and Git keep for themselves, and compiled Python. */
  lemma ExcludedMeans(path: string)
    ensures IsExcluded(path) <==>
              || (exists dir :: dir in {".claude", ".codex", ".harness"} && (path == dir || dir + "/" <= path))
              || ".cloudeo-bridge" <= path || "cloudeo-bridge-output-" <= path
              || exists part :: part in Split(path) && (part == "__pycache__" || SameLetters(part, ".git"))
  {
    hide SameLetters, Split, IsGit, StartsWith;
    FirstComponentIs(path, ".claude");
    FirstComponentIs(path, ".codex");
    FirstComponentIs(path, ".harness");
    FirstComponentStarts(path, ".cloudeo-bridge");
    FirstComponentStarts(path, "cloudeo-bridge-output-");
    ReservedMeans(Split(path)[0]);
    forall part | part in Split(path)
      ensures part in ANY_DEPTH_EXCLUDED || IsGit(part) <==> part == "__pycache__" || SameLetters(part, ".git")
    {
      GitMeans(part);
      GitIsGit();
    }
  }

  lemma ReservedMeans(name: string)
    ensures ReservedName(name) <==> StartsWith(name, ".cloudeo-bridge") || StartsWith(name, "cloudeo-bridge-output-")
  {
    hide StartsWith;
    assert RESERVED_ROOT_PREFIXES[0] == ".cloudeo-bridge" && RESERVED_ROOT_PREFIXES[1] == "cloudeo-bridge-output-";
  }

  lemma GitIsGit()
    ensures IsGit(".git")
  {
    assert ".git"[0] == '.' && ".git"[1] == 'g' && ".git"[2] == 'i' && ".git"[3] == 't';
  }

  lemma FirstComponentIs(path: string, dir: string)
    requires '/' !in dir
    ensures Split(path)[0] == dir <==> path == dir || dir + "/" <= path
  {
    var k := IndexOf(path, '/');
    assert Split(path)[0] == path[..k];
    if dir + "/" <= path {
      assert path[|dir|] == '/' && forall i :: 0 <= i < |dir| ==> path[i] == dir[i];
    }
  }

  lemma FirstComponentStarts(path: string, prefix: string)
    requires '/' !in prefix
    ensures StartsWith(Split(path)[0], prefix) <==> prefix <= path
  {
    var k := IndexOf(path, '/');
    assert Split(path)[0] == path[..k];
    if prefix <= path {
      assert forall i :: 0 <= i < |prefix| ==> path[i] == prefix[i];
    }
  }

  // --- Files inside files ---

  /** q is below p. */
  predicate Below(q: Path, p: Path) {
    p < q
  }

  /** No member of the set is below another one. */
  ghost predicate PrefixFree(paths: set<string>) {
    forall p, q :: p in paths && q in paths ==> !Below(Split(q), Split(p))
  }

  /** The source's test: no proper prefix of the components, joined again, is in the set. */
  predicate NoFileAbove(path: string, paths: set<string>) {
    var parts := Split(path);
    forall depth :: 1 <= depth < |parts| ==> Join(parts[..depth]) !in paths
  }

  lemma BelowAFile(q: string, p: string, paths: set<string>)
    requires p in paths && Below(Split(q), Split(p))
    ensures !NoFileAbove(q, paths)
  {
    JoinSplit(p);
    assert Split(q)[..|Split(p)|] == Split(p);
  }

  lemma NoFileAboveMeans(paths: set<string>)
    ensures (forall p :: p in paths ==> NoFileAbove(p, paths)) <==> PrefixFree(paths)
  {
    if forall p :: p in paths ==> NoFileAbove(p, paths) {
      forall p, q | p in paths && q in paths
        ensures !Below(Split(q), Split(p))
      {
        if Below(Split(q), Split(p)) {
          BelowAFile(q, p, paths);
        }
      }
    }
    if PrefixFree(paths) {
      forall q, depth | q in paths && 1 <= depth < |Split(q)|
        ensures Join(Split(q)[..depth]) !in paths
      {
        var p := Join(Split(q)[..depth]);
        SplitJoin(Split(q)[..depth]);
        assert Below(Split(q), Split(p));
      }
    }
  }
}
