/** Small facts about sequences used as ordered key lists and handler arrays. */
module Collections {

  /** No element occurs twice. */
  ghost predicate Distinct<T>(s: seq<T>)
  {
    forall i, j :: 0 <= i < j < |s| ==> s[i] != s[j]
  }

  /** `s` lists the keys of a JavaScript `Map` in insertion order: every key exactly once. */
  ghost predicate KeyOrder<T(!new)>(s: seq<T>, keys: set<T>)
  {
    Distinct(s) && (forall x :: x in s <==> x in keys)
  }

  /** Position of the first occurrence of `x` in `s` (JavaScript `indexOf` when it is not -1). */
  function IndexOf<T(==)>(s: seq<T>, x: T): (i: nat)
    requires x in s
    ensures i < |s| && s[i] == x && x !in s[..i]
  {
    if s[0] == x then 0
    else
      var j := IndexOf(s[1..], x);
      assert s[1..][..j] == s[1..j + 1];
      assert s[..j + 1] == [s[0]] + s[1..j + 1];
      j + 1
  }

  /** The first occurrence of `x` is at the end of the prefix that does not contain it. */
  lemma IndexOfAfter<T>(p: seq<T>, x: T, r: seq<T>)
    requires x !in p
    ensures x in p + [x] + r && IndexOf(p + [x] + r, x) == |p|
  {
    var s := p + [x] + r;
    assert s[|p|] == x;
    var i := IndexOf(s, x);
    assert s[..|p|] == p;
  }

  /** JavaScript `splice(indexOf(x), 1)` when `x` occurs, and no change otherwise. */
  function RemoveFirst<T(==)>(s: seq<T>, x: T): (r: seq<T>)
  {
    if x in s then
      var i := IndexOf(s, x);
      s[..i] + s[i + 1..]
    else s
  }

  /** Removing one occurrence takes exactly one copy of `x` out of the multiset of elements. */
  lemma RemoveFirstCount<T>(s: seq<T>, x: T)
    ensures x in s ==> multiset(RemoveFirst(s, x)) == multiset(s) - multiset{x}
    ensures x !in s ==> RemoveFirst(s, x) == s
  {
    if x in s {
      var i := IndexOf(s, x);
      assert s == s[..i] + [x] + s[i + 1..];
      calc {
        multiset(s);
        multiset(s[..i]) + multiset{x} + multiset(s[i + 1..]);
      }
    }
  }

  /** `s` without any occurrence of `x`, order kept (deleting a key from an ordered key list). */
  function Without<T(==,!new)>(s: seq<T>, x: T): (r: seq<T>)
    ensures forall y :: y in r <==> y in s && y != x
    ensures Distinct(s) ==> Distinct(r)
    ensures |r| <= |s|
  {
    if s == [] then []
    else if s[0] == x then Without(s[1..], x)
    else
      var t := Without(s[1..], x);
      assert Distinct(s) ==> Distinct(s[1..]) && s[0] !in s[1..];
      [s[0]] + t
  }

  /** A key list in insertion order has one entry per key. */
  lemma {:induction false} KeyOrderCardinality<T(!new)>(s: seq<T>, keys: set<T>)
    requires KeyOrder(s, keys)
    ensures |keys| == |s|
    decreases |s|
  {
    if s != [] {
      var x := s[|s| - 1];
      var p := s[..|s| - 1];
      assert forall y :: y in p <==> y in keys - {x} by {
        forall y ensures y in p <==> y in keys - {x} {
          if y in p {
            var i :| 0 <= i < |p| && p[i] == y;
            assert s[i] == y && i < |s| - 1;
          }
          if y in keys - {x} {
            assert y in s;
            var i :| 0 <= i < |s| && s[i] == y;
            assert i != |s| - 1;
            assert p[i] == y;
          }
        }
      }
      KeyOrderCardinality(p, keys - {x});
    }
  }
}
