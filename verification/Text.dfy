/** Splitting and joining text on one separator character, and decimal numbers. */
module Text {
  import opened Prelude

  /** The position of the first separator, or the length. */
  function IndexOf(s: string, sep: char): (k: nat)
    ensures k <= |s|
    ensures k < |s| ==> s[k] == sep
    ensures forall i :: 0 <= i < k ==> s[i] != sep
  {
    if s == [] then 0 else if s[0] == sep then 0 else IndexOf(s[1..], sep) + 1
  }

  function SplitOn(s: string, sep: char): (parts: seq<string>)
    ensures parts != []
    ensures forall p :: p in parts ==> sep !in p
    decreases |s|
  {
    var k := IndexOf(s, sep);
    if k == |s| then [s] else [s[..k]] + SplitOn(s[k + 1..], sep)
  }

  function JoinWith(parts: seq<string>, sep: char): string {
    if parts == [] then []
    else if |parts| == 1 then parts[0]
    else parts[0] + [sep] + JoinWith(parts[1..], sep)
  }

  lemma {:induction false} JoinSplitOn(s: string, sep: char)
    ensures JoinWith(SplitOn(s, sep), sep) == s
    decreases |s|
  {
    hide IndexOf, JoinWith, SplitOn;
    var k := IndexOf(s, sep);
    SplitsOnce(s, sep);
    if k < |s| {
      JoinSplitOn(s[k + 1..], sep);
      JoinsOnce(s[..k], SplitOn(s[k + 1..], sep), sep);
      assert s == s[..k] + [sep] + s[k + 1..];
    } else {
      JoinsOne(s, sep);
    }
  }

  lemma SplitsOnce(s: string, sep: char)
    ensures var k := IndexOf(s, sep); SplitOn(s, sep) == if k == |s| then [s] else [s[..k]] + SplitOn(s[k + 1..], sep)
  {
    hide IndexOf;
  }

  lemma JoinsOnce(first: string, rest: seq<string>, sep: char)
    requires rest != []
    ensures JoinWith([first] + rest, sep) == first + [sep] + JoinWith(rest, sep)
  {
    assert ([first] + rest)[1..] == rest;
  }

  lemma JoinsOne(s: string, sep: char)
    ensures JoinWith([s], sep) == s
  {
  }

  lemma IndexAtEnd(head: string, tail: string, sep: char)
    requires sep !in head
    ensures IndexOf(head, sep) == |head|
    ensures IndexOf(head + [sep] + tail, sep) == |head|
  {
    var s := head + [sep] + tail;
    assert s[|head|] == sep;
    assert forall i :: 0 <= i < |head| ==> s[i] == head[i];
  }

  lemma {:induction false} SplitJoinOn(parts: seq<string>, sep: char)
    requires parts != [] && forall p :: p in parts ==> sep !in p
    ensures SplitOn(JoinWith(parts, sep), sep) == parts
    decreases |parts|
  {
    if |parts| == 1 {
      IndexAtEnd(parts[0], "", sep);
    } else {
      SplitJoinOn(parts[1..], sep);
      IndexAtEnd(parts[0], JoinWith(parts[1..], sep), sep);
      var s := JoinWith(parts, sep);
      assert s[..|parts[0]|] == parts[0];
      assert s[|parts[0]| + 1..] == JoinWith(parts[1..], sep);
    }
  }

  // --- Decimal numbers ---

  function Digit(d: nat): char
    requires d < 10
  {
    ('0' as int + d) as char
  }

  predicate IsDigit(c: char) {
    '0' <= c <= '9'
  }

  function Decimal(n: nat): (s: string)
    ensures s != [] && forall c :: c in s ==> IsDigit(c)
  {
    if n < 10 then [Digit(n)] else Decimal(n / 10) + [Digit(n % 10)]
  }

  function ParseDecimal(s: string): Option<nat> {
    if s == [] then None
    else
      var last := s[|s| - 1];
      if !IsDigit(last) then None
      else if |s| == 1 then Some(last as int - '0' as int)
      else
        var rest := ParseDecimal(s[..|s| - 1]);
        if rest.None? then None else Some(rest.value * 10 + (last as int - '0' as int))
  }

  lemma {:induction false} ParsePrinted(n: nat)
    ensures ParseDecimal(Decimal(n)) == Some(n)
  {
    if n >= 10 {
      ParsePrinted(n / 10);
      assert Decimal(n)[..|Decimal(n)| - 1] == Decimal(n / 10);
    }
  }
}
