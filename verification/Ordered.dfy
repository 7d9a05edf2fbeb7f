/**
 The order in which a `BTreeMap<Vec<u8>, _>` is iterated: lexicographic on the
 key bytes. `Sorted` enumerates a finite set of keys in that order.
 */
module Ordered {
  import opened Bytes

  predicate Less(a: seq<byte>, b: seq<byte>) {
    if b == [] then false
    else if a == [] then true
    else if a[0] != b[0] then a[0] < b[0]
    else Less(a[1..], b[1..])
  }

  lemma {:induction false} LessTransitive(a: seq<byte>, b: seq<byte>, c: seq<byte>)
    requires Less(a, b) && Less(b, c)
    ensures Less(a, c)
  {
    if a != [] && a[0] == b[0] && b[0] == c[0] {
      LessTransitive(a[1..], b[1..], c[1..]);
    }
  }

  lemma {:induction false} LessTotal(a: seq<byte>, b: seq<byte>)
    ensures a == b || Less(a, b) || Less(b, a)
  {
    if a != [] && b != [] && a[0] == b[0] {
      LessTotal(a[1..], b[1..]);
      assert a == [a[0]] + a[1..] && b == [b[0]] + b[1..];
    }
  }

  lemma {:induction false} LessIrreflexive(a: seq<byte>)
    ensures !Less(a, a)
  {
    if a != [] {
      LessIrreflexive(a[1..]);
    }
  }

  lemma LessAsymmetric(a: seq<byte>, b: seq<byte>)
    requires Less(a, b)
    ensures a != b && !Less(b, a)
  {
    LessIrreflexive(a);
    if Less(b, a) {
      LessTransitive(a, b, a);
    }
  }

  predicate IsLeast(x: Vec8, s: set<Vec8>) {
    x in s && forall y | y in s :: y == x || Less(x, y)
  }

  lemma {:induction false} LeastExists(s: set<Vec8>)
    requires s != {}
    ensures exists x: Vec8 :: IsLeast(x, s)
  {
    var x: Vec8 :| x in s;
    var rest := s - {x};
    if rest == {} {
      assert s == {x};
      assert IsLeast(x, s);
    } else {
      LeastExists(rest);
      var y: Vec8 :| IsLeast(y, rest);
      LessTotal(x, y);
      if Less(x, y) {
        forall z: Vec8 | z in s ensures z == x || Less(x, z) {
          if z != x && z != y {
            assert z in rest;
            LessTransitive(x, y, z);
          }
        }
        assert IsLeast(x, s);
      } else {
        assert IsLeast(y, s);
      }
    }
  }

  lemma LeastUnique(x: Vec8, y: Vec8, s: set<Vec8>)
    requires IsLeast(x, s) && IsLeast(y, s)
    ensures x == y
  {
    if Less(x, y) {
      LessAsymmetric(x, y);
    }
  }

  function Least(s: set<Vec8>): (x: Vec8)
    requires s != {}
    ensures IsLeast(x, s)
  {
    LeastExists(s);
    assert forall x: Vec8, y: Vec8 | IsLeast(x, s) && IsLeast(y, s) :: x == y by {
      forall x: Vec8, y: Vec8 | IsLeast(x, s) && IsLeast(y, s) ensures x == y {
        LeastUnique(x, y, s);
      }
    }
    var x: Vec8 :| IsLeast(x, s);
    x
  }

  predicate StrictlySorted(ids: seq<Vec8>) {
    forall i, j | 0 <= i < j < |ids| :: Less(ids[i], ids[j])
  }

  function Sorted(s: set<Vec8>): (ids: seq<Vec8>)
    ensures StrictlySorted(ids)
    ensures forall x :: x in ids <==> x in s
    ensures |ids| == |s|
    decreases |s|
  {
    if s == {} then
      []
    else
      var x := Least(s);
      var rest := Sorted(s - {x});
      LeastFirst(s, x, rest);
      [x] + rest
  }

  lemma LeastFirst(s: set<Vec8>, x: Vec8, rest: seq<Vec8>)
    requires x in s && forall y | y in s && y != x :: Less(x, y)
    requires StrictlySorted(rest) && forall y :: y in rest <==> y in s - {x}
    ensures StrictlySorted([x] + rest)
    ensures forall y :: y in [x] + rest <==> y in s
  {
    hide Less;
    forall j | 0 <= j < |rest| ensures Less(x, rest[j]) {
      assert rest[j] in rest;
    }
  }

  /** A strictly sorted list is determined by its elements. */
  lemma {:induction false} SortedUnique(a: seq<Vec8>, b: seq<Vec8>)
    requires StrictlySorted(a) && StrictlySorted(b)
    requires forall x :: x in a <==> x in b
    ensures a == b
  {
    if b != [] {
      assert b[0] in b;
      assert b[0] in a;
    }
    if a != [] {
      assert a[0] in b;
      assert b[0] in a;
      if a[0] != b[0] {
        var i :| 0 <= i < |b| && b[i] == a[0];
        var j :| 0 <= j < |a| && a[j] == b[0];
        LessAsymmetric(b[0], b[i]);
        assert false;
      }
      LessIrreflexive(a[0]);
      assert a[0] !in a[1..] && b[0] !in b[1..];
      forall x ensures x in a[1..] <==> x in b[1..] {
        assert x in a <==> x == a[0] || x in a[1..];
        assert x in b <==> x == b[0] || x in b[1..];
      }
      SortedUnique(a[1..], b[1..]);
      assert a == [a[0]] + a[1..] && b == [b[0]] + b[1..];
    }
  }

  lemma SortedIs(s: set<Vec8>, ids: seq<Vec8>)
    requires StrictlySorted(ids)
    requires forall x :: x in ids <==> x in s
    ensures ids == Sorted(s)
  {
    SortedUnique(ids, Sorted(s));
  }
}
