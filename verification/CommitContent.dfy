/** The content of a commit, from the printed objects to the canonical manifest. */
module CommitContent {
  import opened Prelude
  import opened Canonical
  import opened BridgeDelta
  import opened BridgeSnapshot
  import opened BlobBatch

  /** Bytes as the characters that BlobBatch reads. */
  function Chars(b: Bytes): (s: string)
    ensures |s| == |b|
  {
    seq(|b|, i requires 0 <= i < |b| => CharOf(b[i]))
  }

  function CharOf(c: bv8): char {
    (c as int) as char
  }

  function Octets(s: string): (b: Bytes)
    ensures |b| == |s|
  {
    seq(|s|, i requires 0 <= i < |s| => OctetOf(s[i]))
  }

  /** A character beyond the bytes, of which none is ever printed, counts as zero. */
  function OctetOf(c: char): bv8 {
    if (c as int) < 256 then (c as int) as bv8 else 0
  }

  lemma OctetsOfChars(b: Bytes)
    ensures Octets(Chars(b)) == b
  {
    hide OctetOf, CharOf;
    forall i | 0 <= i < |b|
      ensures Octets(Chars(b))[i] == b[i]
    {
      OctetOfChar(b[i]);
    }
  }

  lemma OctetOfChar(c: bv8)
    ensures OctetOf(CharOf(c)) == c
  {
    var n := c as int;
    assert (n as char) as int == n;
  }

  function Objects(blobs: map<string, Bytes>): map<string, Object> {
    map sha | sha in blobs :: Object("blob", Chars(blobs[sha]))
  }

  function Shas(items: seq<TreeItem>): set<string> {
    set item | item in items :: item.sha
  }

  /**
   From a commit's sorted listing and the printed objects to its entries. For the objects of any
   files that the listing describes, whatever bytes they hold, the result is the canonical manifest
   of those files, the same that their worktree has.
   */
  method CommitManifest(items: seq<TreeItem>, names: seq<string>, output: string, ghost blobs: map<string, Bytes>,
                        ghost files: map<string, Data>)
    returns (r: Result<Snapshot, ReadError>)
    requires forall i, j :: 0 <= i < j < |items| ==> Less(items[i].path, items[j].path)
    requires Sorted(names) && SetOf(names) == Shas(items)
    ensures output == Output(names, Objects(blobs)) && (forall name :: name in names ==> Word(name))
            && Lists(items, blobs, files)
            ==> r == Ok(EntriesOf(files))
  {
    hide Sorted, Less, Output, EntriesOf, Objects, Lists, ReadEntries, AllBlobs, Contents, Shas, SetOf;
    ItemsAreNamed(items, names);
    if Lists(items, blobs, files) {
      ObjectsAreRead(items, names, blobs, files);
    }
    var read :- ReadBlobs(output, names, Objects(blobs));
    r := Ok(ReadEntries(items, read));
    if Lists(items, blobs, files) {
      CommitRouteIsCanonical(items, blobs, files);
      if read == Contents(names, Objects(blobs)) {
        EntriesAreRead(items, names, blobs, files);
      }
    }
  }

  function ReadEntries(items: seq<TreeItem>, read: map<string, string>): (entries: seq<Entry>)
    requires forall i :: 0 <= i < |items| ==> items[i].sha in read
    ensures |entries| == |items|
  {
    seq(|items|, i requires 0 <= i < |items| => FileEntry(items[i].path,
                                                          Data(Octets(read[items[i].sha]), items[i].executable)))
  }

  lemma ItemsAreNamed(items: seq<TreeItem>, names: seq<string>)
    requires SetOf(names) == Shas(items)
    ensures forall i :: 0 <= i < |items| ==> items[i].sha in names
    ensures forall name :: name in names ==> exists i :: 0 <= i < |items| && items[i].sha == name
  {
    forall i | 0 <= i < |items|
      ensures items[i].sha in names
    {
      assert items[i] in items && items[i].sha in SetOf(names);
    }
    forall name | name in names
      ensures exists i :: 0 <= i < |items| && items[i].sha == name
    {
      assert name in SetOf(names);
    }
  }

  lemma ObjectsAreRead(items: seq<TreeItem>, names: seq<string>, blobs: map<string, Bytes>, files: map<string, Data>)
    requires SetOf(names) == Shas(items) && Lists(items, blobs, files)
    ensures AllBlobs(names, Objects(blobs))
            && (forall name :: name in Objects(blobs) ==> Word(Objects(blobs)[name].kind))
    ensures forall i :: 0 <= i < |items| ==> items[i].sha in blobs
  {
    hide Chars, SetOf, Shas;
    ItemsAreNamed(items, names);
    assert "blob" == ['b', 'l', 'o', 'b'];
  }

  lemma EntriesAreRead(items: seq<TreeItem>, names: seq<string>, blobs: map<string, Bytes>, files: map<string, Data>)
    requires SetOf(names) == Shas(items) && forall i :: 0 <= i < |items| ==> items[i].sha in blobs
    ensures forall i :: 0 <= i < |items| ==> items[i].sha in Contents(names, Objects(blobs))
    ensures ReadEntries(items, Contents(names, Objects(blobs))) == CommitEntries(items, blobs)
  {
    hide Chars, Octets, SetOf, Shas, FileEntry;
    ItemsAreNamed(items, names);
    forall i | 0 <= i < |items|
      ensures Octets(Contents(names, Objects(blobs))[items[i].sha]) == blobs[items[i].sha]
    {
      OctetsOfChars(blobs[items[i].sha]);
    }
  }
}
