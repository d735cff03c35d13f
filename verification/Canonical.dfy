/** Sorted lists of distinct strings: the one canonical listing of a set of paths. */
module Canonical {

  /** Code-point order, as the source's sorted() uses it. */
  predicate Less(s: string, t: string) {
    t != [] && (s == [] || s[0] < t[0] || (s[0] == t[0] && Less(s[1..], t[1..])))
  }

  lemma {:induction false} LessTotal(s: string, t: string)
    ensures s == t || Less(s, t) || Less(t, s)
    ensures !(Less(s, t) && Less(t, s)) && !Less(s, s)
  {
    if s != [] && t != [] && s[0] == t[0] {
      LessTotal(s[1..], t[1..]);
      assert s == [s[0]] + s[1..] && t == [t[0]] + t[1..];
    }
    if s != [] {
      LessTotal(s[1..], s[1..]);
    }
  }

  lemma {:induction false} LessTransitive(s: string, t: string, u: string)
    requires Less(s, t) && Less(t, u)
    ensures Less(s, u)
  {
    if s != [] && t != [] && u != [] && s[0] == t[0] == u[0] {
      LessTransitive(s[1..], t[1..], u[1..]);
    }
  }

  /** Strictly increasing, so also without repetition. */
  predicate Sorted(s: seq<string>) {
    forall i, j :: 0 <= i < j < |s| ==> Less(s[i], s[j])
  }

  predicate Distinct<T(==)>(s: seq<T>) {
    forall i, j :: 0 <= i < j < |s| ==> s[i] != s[j]
  }

  function SetOf<T>(s: seq<T>): set<T> {
    set x | x in s
  }

  lemma SortedIsDistinct(s: seq<string>)
    requires Sorted(s)
    ensures Distinct(s)
  {
    forall i, j | 0 <= i < j < |s|
      ensures s[i] != s[j]
    {
      LessTotal(s[i], s[j]);
    }
  }

  /** A set has one sorted listing. */
  lemma {:induction false} SortedUnique(a: seq<string>, b: seq<string>)
    requires Sorted(a) && Sorted(b) && SetOf(a) == SetOf(b)
    ensures a == b
  {
    if a == [] {
      SortedIsDistinct(b);
      CountsDistinct(b);
    } else {
      assert a[0] in SetOf(a);
      assert b != [];
      SameHead(a, b);
      RestOf(a);
      RestOf(b);
      SortedUnique(a[1..], b[1..]);
      assert a == [a[0]] + a[1..] && b == [b[0]] + b[1..];
    }
  }

  lemma SameHead(a: seq<string>, b: seq<string>)
    requires Sorted(a) && Sorted(b) && SetOf(a) == SetOf(b) && a != [] && b != []
    ensures a[0] == b[0]
  {
    assert a[0] in SetOf(b) && b[0] in SetOf(a);
    var i :| 0 <= i < |b| && b[i] == a[0];
    var j :| 0 <= j < |a| && a[j] == b[0];
    LessTotal(a[0], b[0]);
  }

  lemma RestOf(a: seq<string>)
    requires Sorted(a) && a != []
    ensures SetOf(a[1..]) == SetOf(a) - {a[0]}
  {
    forall x | x in a[1..]
      ensures x != a[0]
    {
      var i :| 0 <= i < |a[1..]| && a[1..][i] == x;
      LessTotal(a[0], a[i + 1]);
    }
    assert a == [a[0]] + a[1..];
  }

  /** The sorted listing of a set. */
  ghost function Listing(keys: set<string>): (r: seq<string>)
    ensures Sorted(r) && SetOf(r) == keys
  {
    ListingExists(keys);
    var r :| Sorted(r) && SetOf(r) == keys;
    r
  }

  lemma {:induction false} ListingExists(keys: set<string>)
    ensures exists r :: Sorted(r) && SetOf(r) == keys
  {
    if keys == {} {
      assert Sorted([]) && SetOf<string>([]) == {};
    } else {
      var x :| x in keys;
      ListingExists(keys - {x});
      var s :| Sorted(s) && SetOf(s) == keys - {x};
      assert x !in SetOf(s);
      InsertExists(s, x);
      var r :| Sorted(r) && SetOf(r) == SetOf(s) + {x};
    }
  }

  /** A new string has a place in every sorted list. */
  lemma {:induction false} InsertExists(s: seq<string>, x: string)
    requires Sorted(s) && x !in s
    ensures exists r :: Sorted(r) && SetOf(r) == SetOf(s) + {x}
  {
    hide Less;
    var i := PlaceOf(s, x);
    forall k | i <= k < |s|
      ensures Less(x, s[k])
    {
      LessTotal(s[i], x);
      if i < k {
        LessTransitive(x, s[i], s[k]);
      }
    }
    InsertedAt(s, x, i);
  }

  lemma InsertedAt(s: seq<string>, x: string, i: nat)
    requires Sorted(s) && i <= |s|
    requires forall k :: 0 <= k < i ==> Less(s[k], x)
    requires forall k :: i <= k < |s| ==> Less(x, s[k])
    ensures var r := s[..i] + [x] + s[i..]; Sorted(r) && SetOf(r) == SetOf(s) + {x}
  {
    hide Less;
    assert s == s[..i] + s[i..];
  }

  /** The number of leading strings below x. */
  function PlaceOf(s: seq<string>, x: string): (i: nat)
    ensures i <= |s| && (i < |s| ==> !Less(s[i], x))
    ensures forall k :: 0 <= k < i ==> Less(s[k], x)
  {
    if s == [] || !Less(s[0], x) then 0 else PlaceOf(s[1..], x) + 1
  }

  lemma ListingIs(s: seq<string>)
    requires Sorted(s)
    ensures s == Listing(SetOf(s))
  {
    SortedUnique(s, Listing(SetOf(s)));
  }

  /** A list has as many members as entries exactly when it has no repetition. */
  lemma {:induction false} CountsDistinct<T>(s: seq<T>)
    ensures |SetOf(s)| <= |s|
    ensures |SetOf(s)| == |s| <==> Distinct(s)
  {
    if s != [] {
      var n := |s| - 1;
      CountsDistinct(s[..n]);
      assert SetOf(s) == SetOf(s[..n]) + {s[n]};
      if s[n] in s[..n] {
        assert SetOf(s) == SetOf(s[..n]);
        var i :| 0 <= i < n && s[i] == s[n];
      } else {
        assert |SetOf(s)| == |SetOf(s[..n])| + 1;
        DistinctAppend(s[..n], s[n]);
        assert s == s[..n] + [s[n]];
      }
    }
  }

  lemma DistinctAppend<T>(s: seq<T>, x: T)
    requires x !in s
    ensures Distinct(s + [x]) <==> Distinct(s)
  {
    assert (s + [x])[..|s|] == s;
    if Distinct(s + [x]) {
      forall i, j | 0 <= i < j < |s|
        ensures s[i] != s[j]
      {
        assert (s + [x])[i] != (s + [x])[j];
      }
    }
  }
}
