/**
 A candidate's file tree and the operating-system calls the bridge makes on it. Every call may fail
 for no visible reason while `failing` is set, and then changes nothing. Directory permission bits
 and symbolic links are not modelled.
 */
module BridgeTree {
  import opened BridgePaths
  import opened BridgeDelta

  datatype File = File(content: Bytes, mode: nat)

  function Parent(p: Path): Path
    requires p != []
  {
    p[..|p| - 1]
  }

  /** The root always exists and is not listed. */
  predicate InDirs(dirs: set<Path>, p: Path) {
    p == [] || p in dirs
  }

  /** Every file and directory lies in a directory, and no path is both. */
  ghost predicate WellFormed(files: set<Path>, dirs: set<Path>) {
    && [] !in files && [] !in dirs && files !! dirs
    && (forall p :: p in files ==> InDirs(dirs, Parent(p)))
    && (forall p :: p in dirs ==> InDirs(dirs, Parent(p)))
  }

  function AtLeast(names: set<string>, length: nat): set<string> {
    set t | t in names && |t| >= length
  }

  class FileTree {
    var files: map<Path, File>
    var dirs: set<Path>
    var failing: bool

    ghost predicate Valid()
      reads this
    {
      WellFormed(files.Keys, dirs)
    }

    predicate Exists(p: Path)
      reads this
    {
      p in files || InDirs(dirs, p)
    }

    /** No file and no directory lies directly in p. */
    predicate Empty(p: Path)
      reads this
    {
      && (forall q :: q in files && q != [] ==> Parent(q) != p)
      && (forall q :: q in dirs && q != [] ==> Parent(q) != p)
    }

    method Fault() returns (fault: bool)
      ensures fault ==> failing
    {
      fault := false;
      if failing {
        if * {
          fault := true;
        }
      }
    }

    method Mkdir(p: Path) returns (ok: bool)
      requires Valid() && p != []
      modifies this`dirs
      ensures Valid()
      ensures ok ==> p !in old(dirs) && p !in files && InDirs(old(dirs), Parent(p))
      ensures dirs == if ok then old(dirs) + {p} else old(dirs)
      ensures !failing && p !in old(dirs) && p !in files && InDirs(old(dirs), Parent(p)) ==> ok
    {
      var fault := Fault();
      ok := !fault && p !in dirs && p !in files && InDirs(dirs, Parent(p));
      if ok {
        dirs := dirs + {p};
      }
    }

    method Rmdir(p: Path) returns (ok: bool)
      requires Valid() && p in dirs
      modifies this`dirs
      ensures Valid()
      ensures ok ==> old(Empty(p))
      ensures dirs == if ok then old(dirs) - {p} else old(dirs)
      ensures !failing && old(Empty(p)) ==> ok
    {
      var fault := Fault();
      ok := !fault && Empty(p);
      if ok {
        dirs := dirs - {p};
      }
    }

    method Unlink(p: Path) returns (ok: bool)
      requires Valid() && p in files
      modifies this`files
      ensures Valid()
      ensures files == if ok then old(files) - {p} else old(files)
      ensures !failing ==> ok
    {
      var fault := Fault();
      ok := !fault;
      if ok {
        files := files - {p};
      }
    }

    /** Copy bytes into a new file; a copy that fails midway may leave a part of it behind. */
    method CopyTo(p: Path, content: Bytes) returns (ok: bool)
      requires Valid() && p != [] && p !in files && p !in dirs
      modifies this`files
      ensures Valid()
      ensures files - {p} == old(files)
      ensures ok ==> p in files && files[p].content == content
      ensures !failing && InDirs(dirs, Parent(p)) ==> ok
    {
      if !InDirs(dirs, Parent(p)) {
        assert files - {p} == files;
        return false;
      }
      var fault := Fault();
      if fault {
        if * {
          var copied: nat :| copied <= |content|;
          files := files[p := File(content[..copied], 0)];
        }
        assert files - {p} == old(files);
        return false;
      }
      files := files[p := File(content, 0)];
      assert files - {p} == old(files);
      ok := true;
    }

    method Chmod(p: Path, mode: nat) returns (ok: bool)
      requires Valid() && p in files
      modifies this`files
      ensures Valid()
      ensures files == if ok then old(files)[p := old(files)[p].(mode := mode)] else old(files)
      ensures !failing ==> ok
    {
      var fault := Fault();
      ok := !fault;
      if ok {
        files := files[p := files[p].(mode := mode)];
      }
    }

    /** Move a file over another one, or to a new name, in one step. */
    method Rename(from: Path, to: Path) returns (ok: bool)
      requires Valid() && from in files && to != [] && from != to
      modifies this`files
      ensures Valid()
      ensures ok ==> to !in dirs
      ensures files == if ok then old(files)[to := old(files)[from]] - {from} else old(files)
      ensures !failing && to !in dirs && InDirs(dirs, Parent(to)) ==> ok
    {
      var fault := Fault();
      ok := !fault && to !in dirs && InDirs(dirs, Parent(to));
      if ok {
        files := files[to := files[from]] - {from};
      }
    }

    /** A new path beside the target. */
    method TempName(target: Path) returns (temp: Path)
      requires target != []
      ensures temp != [] && Parent(temp) == Parent(target) && temp != target
      ensures temp !in files && temp !in dirs
    {
      var taken := (set p | p in files && p != [] :: p[|p| - 1]) + (set p | p in dirs && p != [] :: p[|p| - 1])
        + {target[|target| - 1]};
      var name := ".cloudeo-bridge-tmp-";
      ghost var left := AtLeast(taken, |name|);
      while name in taken
        invariant left == AtLeast(taken, |name|)
        decreases left
      {
        assert name in left && name !in AtLeast(taken, |name| + 1);
        name := name + "0";
        left := AtLeast(taken, |name|);
      }
      temp := Parent(target) + [name];
      assert temp[|temp| - 1] == name;
    }

    /** Put a file in place through a temporary file beside it, which never stays behind. */
    method Replace(target: Path, content: Bytes, mode: nat) returns (ok: bool)
      requires Valid() && target != []
      modifies this`files
      ensures Valid()
      ensures ok ==> target !in dirs
      ensures files == if ok then old(files)[target := File(content, mode)] else old(files)
      ensures !failing && target !in dirs && InDirs(dirs, Parent(target)) ==> ok
    {
      hide WellFormed, InDirs, Parent;
      var temp := TempName(target);
      ok := CopyTo(temp, content);
      if ok {
        ok := Chmod(temp, mode);
      }
      if ok {
        ok := Rename(temp, target);
      }
      if temp in files {
        files := files - {temp};
        assert files == old(files);
      }
      assert !ok ==> files == old(files);
    }
  }
}
