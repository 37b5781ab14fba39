/** Node names and the order in which `std::map<std::string, ...>` visits them. */
module Names {
  import opened Protocol

  /** Strict lexicographic order on names. */
  predicate Less(a: Name, b: Name) {
    if b == [] then false
    else if a == [] then true
    else if a[0] != b[0] then a[0] < b[0]
    else Less(a[1..], b[1..])
  }

  lemma {:induction false} LessTotal(a: Name, b: Name)
    ensures a == b || Less(a, b) || Less(b, a)
  {
    if a != [] && b != [] && a[0] == b[0] {
      LessTotal(a[1..], b[1..]);
      assert a == [a[0]] + a[1..] && b == [b[0]] + b[1..];
    }
  }

  lemma {:induction false} LessTransitive(a: Name, b: Name, c: Name)
    requires Less(a, b) && Less(b, c)
    ensures Less(a, c)
  {
    if a != [] && a[0] == b[0] == c[0] {
      LessTransitive(a[1..], b[1..], c[1..]);
    }
  }

  lemma {:induction false} LessIrreflexive(a: Name)
    ensures !Less(a, a)
  {
    if a != [] {
      LessIrreflexive(a[1..]);
    }
  }

  /** Where two names first differ decides, and a proper prefix comes first: the order of
      `std::string`. */
  lemma {:induction false} LessAtFirstDifference(p: Name, x: char, a: Name, y: char, b: Name)
    requires x != y
    ensures Less(p + [x] + a, p + [y] + b) <==> x < y
    decreases |p|
  {
    var l, r := p + [x] + a, p + [y] + b;
    if p != [] {
      assert l[1..] == p[1..] + [x] + a && r[1..] == p[1..] + [y] + b;
      LessAtFirstDifference(p[1..], x, a, y, b);
    }
  }

  lemma {:induction false} PrefixLess(p: Name, a: Name)
    requires a != []
    ensures Less(p, p + a) && !Less(p + a, p)
    decreases |p|
  {
    if p != [] {
      assert (p + a)[1..] == p[1..] + a;
      PrefixLess(p[1..], a);
    }
  }

  predicate IsLeast(x: Name, s: set<Name>) {
    x in s && forall y | y in s :: y == x || Less(x, y)
  }

  lemma {:induction false} LeastExists(s: set<Name>)
    requires s != {}
    ensures exists x :: IsLeast(x, s)
    decreases |s|
  {
    var x :| x in s;
    if s == {x} {
      assert IsLeast(x, s);
    } else {
      LeastExists(s - {x});
      var y :| IsLeast(y, s - {x});
      LessTotal(x, y);
      if Less(x, y) {
        forall z | z in s ensures z == x || Less(x, z) {
          if z != x && z != y { LessTransitive(x, y, z); }
        }
        assert IsLeast(x, s);
      } else {
        assert IsLeast(y, s);
      }
    }
  }

  lemma LeastUnique(x: Name, y: Name, s: set<Name>)
    requires IsLeast(x, s) && IsLeast(y, s)
    ensures x == y
  {
    if x != y {
      LessTransitive(x, y, x);
      LessIrreflexive(x);
    }
  }

  predicate Ascending(names: seq<Name>) {
    forall i, j | 0 <= i < j < |names| :: Less(names[i], names[j])
  }

  lemma OneLeast(s: set<Name>)
    requires s != {}
    ensures exists x :: IsLeast(x, s)
    ensures forall x, y | IsLeast(x, s) && IsLeast(y, s) :: x == y
  {
    LeastExists(s);
    forall x, y | IsLeast(x, s) && IsLeast(y, s) ensures x == y { LeastUnique(x, y, s); }
  }

  /** The least name before the others, in order. */
  lemma LeastFirst(x: Name, s: set<Name>, rest: seq<Name>)
    requires IsLeast(x, s) && Ascending(rest) && |rest| == |s| - 1
    requires forall n :: n in rest <==> n in s - {x}
    ensures |[x] + rest| == |s| && Ascending([x] + rest)
    ensures forall n :: n in [x] + rest <==> n in s
  {
    hide Less;
    var all := [x] + rest;
    forall i, j | 0 <= i < j < |all| ensures Less(all[i], all[j]) {
      assert all[j] == rest[j - 1] && rest[j - 1] in rest;
      if i > 0 { assert all[i] == rest[i - 1]; }
    }
  }

  /** The keys of a name-ordered map, in iteration order. */
  function SortedNames(s: set<Name>): (names: seq<Name>)
    ensures |names| == |s|
    ensures forall n :: n in names <==> n in s
    ensures Ascending(names)
    decreases |s|
  {
    if s == {} then []
    else
      OneLeast(s);
      var x :| IsLeast(x, s);
      var rest := SortedNames(s - {x});
      LeastFirst(x, s, rest);
      [x] + rest
  }

  /** `SortedNames` is the only ascending enumeration of a set of names. */
  lemma {:induction false} SortedNamesUnique(s: set<Name>, names: seq<Name>)
    requires Ascending(names)
    requires forall n :: n in names <==> n in s
    ensures names == SortedNames(s)
    decreases |s|
  {
    if names == [] {
      assert s == {} by { assert forall n :: n in s <==> n in names; }
    } else {
      var x, rest := names[0], names[1..];
      assert x in s;
      assert names == [x] + rest;
      forall n | n in s && n != x ensures Less(x, n) {
        var i :| 0 <= i < |names| && names[i] == n;
      }
      assert IsLeast(x, s);
      forall n | n in rest ensures n in s - {x} {
        var i :| 0 <= i < |rest| && rest[i] == n;
        assert names[i + 1] == n;
        LessIrreflexive(x);
      }
      forall n | n in s - {x} ensures n in rest {
        var i :| 0 <= i < |names| && names[i] == n;
        assert rest[i - 1] == n;
      }
      SortedNamesUnique(s - {x}, rest);
      var least :| IsLeast(least, s) && SortedNames(s) == [least] + SortedNames(s - {least});
      LeastUnique(x, least, s);
    }
  }

  /** No name appears twice in an ascending sequence. */
  lemma AscendingDistinct(names: seq<Name>, i: nat, j: nat)
    requires Ascending(names) && i < |names| && j < |names| && names[i] == names[j]
    ensures i == j
  {
    LessIrreflexive(names[i]);
  }
}
