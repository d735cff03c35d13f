/**
 Reading many objects from one `git cat-file --batch` process. Bytes are modelled as characters. An
 object's content may hold anything, including line breaks and text that looks like a header.
 */
module BlobBatch {
  import opened Prelude
  import opened Text

  datatype Object = Object(kind: string, content: string)

  datatype ReadError = UnexpectedObject | Unhandled(exception: string)

  // --- What the process prints ---

  function Header(name: string, o: Object): string {
    name + " " + o.kind + " " + Decimal(|o.content|)
  }

  function Item(name: string, objects: map<string, Object>): string {
    if name in objects then Header(name, objects[name]) + "\n" + objects[name].content + "\n" else name + " missing\n"
  }

  /** The output for a list of names, one item after another with nothing in between. */
  function Output(names: seq<string>, objects: map<string, Object>): string {
    if names == [] then "" else Item(names[0], objects) + Output(names[1..], objects)
  }

  predicate Word(s: string) {
    ' ' !in s && '\n' !in s
  }

  /** Object names and kinds hold no separators. */
  predicate Clean(names: seq<string>, objects: map<string, Object>) {
    && (forall name :: name in names ==> Word(name))
    && (forall name :: name in objects ==> Word(objects[name].kind))
  }

  /** Every listed object is there and is a blob. */
  predicate AllBlobs(names: seq<string>, objects: map<string, Object>) {
    forall name :: name in names ==> name in objects && objects[name].kind == "blob"
  }

  function Contents(names: seq<string>, objects: map<string, Object>): map<string, string> {
    map name | name in names && name in objects :: objects[name].content
  }

  // --- One item ---

  /** The first line of a printed object ends where its header ends, and splits into the three fields. */
  lemma HeaderParses(name: string, o: Object, tail: string)
    requires Word(name) && Word(o.kind)
    ensures IndexOf(Header(name, o) + "\n" + tail, '\n') == |Header(name, o)|
    ensures SplitOn(Header(name, o), ' ') == [name, o.kind, Decimal(|o.content|)]
  {
    var fields := [name, o.kind, Decimal(|o.content|)];
    DecimalIsWord(|o.content|);
    assert '\n' !in Header(name, o);
    IndexAtEnd(Header(name, o), tail, '\n');
    assert JoinWith(fields[1..], ' ') == o.kind + " " + Decimal(|o.content|) by {
      assert fields[1..][1..] == [Decimal(|o.content|)];
    }
    assert JoinWith(fields, ' ') == Header(name, o);
    SplitJoinOn(fields, ' ');
  }

  lemma DecimalIsWord(n: nat)
    ensures Word(Decimal(n))
  {
    assert !IsDigit(' ') && !IsDigit('\n');
  }

  /** The line of an absent object has two fields only. */
  lemma MissingParses(name: string, tail: string)
    requires Word(name)
    ensures IndexOf(name + " missing\n" + tail, '\n') == |name + " missing"|
    ensures SplitOn(name + " missing", ' ') == [name, "missing"]
  {
    var line := name + " missing";
    assert "missing" == ['m', 'i', 's', 's', 'i', 'n', 'g'];
    assert '\n' !in line;
    IndexAtEnd(line, tail, '\n');
    assert line + ['\n'] + tail == name + " missing\n" + tail;
    assert JoinWith([name, "missing"], ' ') == line;
    SplitJoinOn([name, "missing"], ' ');
  }

  // --- Reading it back ---

  function Min(a: nat, b: nat): nat {
    if a < b then a else b
  }

  /** Read one object at an offset: its content, and the offset after it. */
  function ReadAt(output: string, offset: nat, name: string): Result<(string, nat), ReadError> {
    var end := if offset <= |output| then offset + IndexOf(output[offset..], '\n') else |output|;
    if end >= |output| then Err(Unhandled("ValueError"))
    else
      var fields := SplitOn(output[offset..end], ' ');
      if |fields| != 3 then Err(Unhandled("ValueError"))
      else if fields[0] != name || fields[1] != "blob" then Err(UnexpectedObject)
      else
        var size := ParseDecimal(fields[2]);
        if size.None? then Err(Unhandled("ValueError"))
        else
          var start := end + 1;
          var next: nat := start + size.value + 1;
          Ok((output[Min(start, |output|)..Min(start + size.value, |output|)], next))
  }

  /** What reading says of an object that is no blob: an absent one is not even a header. */
  function Refusal(name: string, objects: map<string, Object>): ReadError {
    if name in objects then UnexpectedObject else Unhandled("ValueError")
  }

  /** Reading at a printed item gives back its content and leads to the next item. */
  lemma ReadsItem(output: string, offset: nat, name: string, objects: map<string, Object>, tail: string)
    requires offset <= |output| && output[offset..] == Item(name, objects) + tail
    requires Word(name) && (name in objects ==> Word(objects[name].kind))
    ensures name in objects && objects[name].kind == "blob" ==>
              var next := offset + |Item(name, objects)|;
              next <= |output| && output[next..] == tail
                && ReadAt(output, offset, name) == Ok((objects[name].content, next))
    ensures name !in objects || objects[name].kind != "blob" ==>
              ReadAt(output, offset, name) == Err(Refusal(name, objects))
  {
    hide ReadAt, Header;
    if name in objects {
      PresentItem(output, offset, name, objects[name], tail);
    } else {
      AbsentItem(output, offset, name, tail);
    }
  }

  lemma AbsentItem(output: string, offset: nat, name: string, tail: string)
    requires Word(name) && offset <= |output| && output[offset..] == name + " missing\n" + tail
    ensures ReadAt(output, offset, name) == Err(Unhandled("ValueError"))
  {
    hide IndexOf, SplitOn, ParseDecimal;
    var line, rest := name + " missing", output[offset..];
    MissingParses(name, tail);
    assert output[offset..offset + |line|] == rest[..|line|] == line;
  }

  lemma PresentItem(output: string, offset: nat, name: string, o: Object, tail: string)
    requires Word(name) && Word(o.kind)
    requires offset <= |output| && output[offset..] == Header(name, o) + "\n" + o.content + "\n" + tail
    ensures o.kind != "blob" ==> ReadAt(output, offset, name) == Err(UnexpectedObject)
    ensures var next := offset + |Header(name, o) + "\n" + o.content + "\n"|;
            && next <= |output| && output[next..] == tail
            && (o.kind == "blob" ==> ReadAt(output, offset, name) == Ok((o.content, next)))
  {
    hide IndexOf, SplitOn, ParseDecimal, Decimal;
    var h := |Header(name, o)|;
    var rest := output[offset..];
    assert rest == Header(name, o) + "\n" + (o.content + "\n" + tail);
    HeaderParses(name, o, o.content + "\n" + tail);
    ParsePrinted(|o.content|);
    var next := offset + h + 1 + |o.content| + 1;
    assert output[offset..offset + h] == rest[..h] == Header(name, o);
    assert output[offset + h + 1..offset + h + 1 + |o.content|] == rest[h + 1..h + 1 + |o.content|] == o.content;
    assert output[next..] == rest[h + 1 + |o.content| + 1..] == tail;
  }

  /**
   Parse the output for the given names. For the output of the process on any objects, the result is
   exactly their contents, and an object that is absent or not a blob is never accepted.
   */
  method ReadBlobs(output: string, names: seq<string>, ghost objects: map<string, Object>)
    returns (r: Result<map<string, string>, ReadError>)
    ensures output == Output(names, objects) && Clean(names, objects) && AllBlobs(names, objects) ==>
            r == Ok(Contents(names, objects))
    ensures output == Output(names, objects) && Clean(names, objects) ==>
            forall k :: 0 <= k < |names| && AllBlobs(names[..k], objects) && !AllBlobs([names[k]], objects) ==>
              r == Err(Refusal(names[k], objects))
    ensures output == Output(names, objects) && Clean(names, objects) && !AllBlobs(names, objects) ==> r.Err?
    ensures r.Ok? ==> forall name :: name in names ==> name in r.value
  {
    hide ReadAt, Item;
    var blobs: map<string, string>, offset: nat := map[], 0;
    ghost var printed := output == Output(names, objects) && Clean(names, objects);
    for i := 0 to |names|
      invariant printed ==> offset <= |output| && output[offset..] == Output(names[i..], objects)
      invariant forall name :: name in names[..i] ==> name in blobs
      invariant printed ==> AllBlobs(names[..i], objects) && blobs == Contents(names[..i], objects)
    {
      if printed {
        assert names[i..][1..] == names[i + 1..];
        ReadsItem(output, offset, names[i], objects, Output(names[i + 1..], objects));
      }
      var read :- ReadAt(output, offset, names[i]);
      assert names[..i + 1] == names[..i] + [names[i]];
      blobs, offset := blobs[names[i] := read.0], read.1;
    }
    assert names[..|names|] == names;
    r := Ok(blobs);
  }
}
