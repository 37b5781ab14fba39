/** What a tree listing is, told by the paths of names that lead to its entries. */
module Listings {
  import opened Protocol
  import opened Names
  import opened TreeShape
  import opened Snapshot
  import opened PostOrders
  import opened ServerSpec
  import opened Emission

  // ----- paths below a vertex

  /** Lexicographic order on paths: a vertex before what is below it, siblings by name. */
  predicate PathLess(p: seq<Name>, q: seq<Name>) {
    if q == [] then false
    else if p == [] then true
    else if p[0] != q[0] then Less(p[0], q[0])
    else PathLess(p[1..], q[1..])
  }

  /** A path leads to the vertex it starts from, or below it. */
  lemma {:induction false} ResolvesBelow(t: Shape, v: U64, path: seq<Name>, u: U64)
    requires WellFormed(t) && Resolve(t, v, path) == Some(u)
    ensures u == v || Below(t, v, u)
    ensures path == [] <==> u == v
    decreases |path|
  {
    if path != [] {
      assert ChildLinked(t, v, path[0]) && ParentLinked(t, t[v].children[path[0]]);
      ResolvesBelow(t, t[v].children[path[0]], path[1..], u);
      BelowViaChild(t, v, u);
      BelowIsYounger(t, v, u);
    }
  }

  /** The strict descendants of a vertex are those that a path of at least one name leads to. */
  lemma {:induction false} BelowIffResolves(t: Shape, v: U64, u: U64)
    requires WellFormed(t) && v in t
    ensures Below(t, v, u) <==> exists path :: path != [] && Resolve(t, v, path) == Some(u)
    decreases u
  {
    if Below(t, v, u) {
      assert ParentLinked(t, u);
      var p := t[u].parent.value;
      var path := [];
      if p != v {
        BelowIffResolves(t, v, p);
        path :| path != [] && Resolve(t, v, path) == Some(p);
      }
      ResolveAppend(t, v, path, t[u].name);
      assert Resolve(t, p, [t[u].name]) == Some(u);
      assert path + [t[u].name] != [];
    }
    if path :| path != [] && Resolve(t, v, path) == Some(u) {
      ResolvesBelow(t, v, path, u);
    }
  }

  /** The path to a covered vertex starts with one of the names. */
  lemma FirstName(t: Shape, v: U64, names: seq<Name>, recursive: bool, u: U64, path: seq<Name>)
    requires WellFormed(t) && v in t && forall n | n in names :: n in t[v].children
    requires Covered(t, v, names, recursive, u) && Resolve(t, v, path) == Some(u)
    ensures path != [] && path[0] in names && path[0] in t[v].children
    ensures Resolve(t, t[v].children[path[0]], path[1..]) == Some(u)
  {
    var n :| n in names && (t[v].children[n] == u || (recursive && Below(t, t[v].children[n], u)));
    BelowViaChild(t, v, u);
    ResolvesBelow(t, v, path, u);
    BelowIsYounger(t, v, u);
    ResolvesBelow(t, t[v].children[path[0]], path[1..], u);
    if n != path[0] {
      SiblingsDisjoint(t, v, n, path[0], u);
    }
  }

  lemma WalkCovered(t: Shape, v: U64, names: seq<Name>, recursive: bool, i: nat)
    requires WellFormed(t) && v in t && forall n | n in names :: n in t[v].children
    requires i < |Walk(t, v, names, recursive)|
    ensures Covered(t, v, names, recursive, Walk(t, v, names, recursive)[i].uuid)
  {
    hide Walk, Covered;
    WalkMembers(t, v, names, recursive);
    var list := Walk(t, v, names, recursive);
    assert list[i] in list && list[i].uuid in Uuids(list);
  }

  lemma WalkSplit(t: Shape, v: U64, names: seq<Name>, recursive: bool)
    requires WellFormed(t) && v in t && forall n | n in names :: n in t[v].children
    requires names != []
    ensures var c := t[v].children[names[0]];
            && c in t && v < c < UUID_LIMIT
            && Walk(t, v, names, recursive)
            == [NamedNode(names[0], c, v)] + (if recursive then PreOrder(t, c, true) else [])
             + Walk(t, v, names[1..], recursive)
  {
    assert ChildLinked(t, v, names[0]) && ParentLinked(t, t[v].children[names[0]]);
  }

  /** The path to the first child or to something below it. */
  lemma FirstPart(t: Shape, v: U64, names: seq<Name>, u: U64, path: seq<Name>)
    requires WellFormed(t) && v in t && forall n | n in names :: n in t[v].children
    requires names != [] && Resolve(t, v, path) == Some(u)
    requires u == t[v].children[names[0]] || Below(t, t[v].children[names[0]], u)
    ensures path != [] && path[0] == names[0] && Resolve(t, t[v].children[names[0]], path[1..]) == Some(u)
    ensures path[1..] == [] <==> u == t[v].children[names[0]]
  {
    assert Covered(t, v, [names[0]], true, u);
    FirstName(t, v, [names[0]], true, u, path);
    ResolvesBelow(t, t[v].children[names[0]], path[1..], u);
  }

  /** The path to something listed under a later name. */
  lemma LaterPart(t: Shape, v: U64, names: seq<Name>, recursive: bool, k: nat, path: seq<Name>)
    requires WellFormed(t) && v in t && forall n | n in names :: n in t[v].children
    requires names != [] && Ascending(names) && k < |Walk(t, v, names[1..], recursive)|
    requires Resolve(t, v, path) == Some(Walk(t, v, names[1..], recursive)[k].uuid)
    ensures path != [] && path[0] != names[0] && Less(names[0], path[0])
  {
    WalkCovered(t, v, names[1..], recursive, k);
    FirstName(t, v, names[1..], recursive, Walk(t, v, names[1..], recursive)[k].uuid, path);
    var i :| 0 <= i < |names[1..]| && names[1..][i] == path[0];
    assert names[i + 1] == path[0];
    LessIrreflexive(names[0]);
  }

  lemma SubEntryBelow(t: Shape, c: U64, k: nat)
    requires WellFormed(t) && c in t && k < |PreOrder(t, c, true)|
    ensures Below(t, c, PreOrder(t, c, true)[k].uuid)
  {
    WalkCovered(t, c, SortedNames(t[c].children.Keys), true, k);
    CoveredAll(t, c, true, PreOrder(t, c, true)[k].uuid);
  }

  /** How many entries the first name accounts for. */
  function Share(t: Shape, v: U64, names: seq<Name>, recursive: bool): nat
    requires WellFormed(t) && v in t && forall n | n in names :: n in t[v].children
    requires names != []
  {
    assert ChildLinked(t, v, names[0]);
    1 + if recursive then |PreOrder(t, t[v].children[names[0]], true)| else 0
  }

  lemma Entries(t: Shape, v: U64, names: seq<Name>, recursive: bool, i: nat)
    requires WellFormed(t) && v in t && forall n | n in names :: n in t[v].children
    requires names != [] && i < |Walk(t, v, names, recursive)|
    ensures var c, n, list := t[v].children[names[0]], Share(t, v, names, recursive), Walk(t, v, names, recursive);
            && c in t
            && (i == 0 ==> i < n && list[i].uuid == c)
            && (0 < i < n ==> recursive && i - 1 < |PreOrder(t, c, true)| && list[i] == PreOrder(t, c, true)[i - 1])
            && (i >= n ==> i - n < |Walk(t, v, names[1..], recursive)|
                           && list[i] == Walk(t, v, names[1..], recursive)[i - n])
  {
    hide WellFormed, Walk, PreOrder;
    WalkSplit(t, v, names, recursive);
    var c := t[v].children[names[0]];
    var head, sub := [NamedNode(names[0], c, v)], if recursive then PreOrder(t, c, true) else [];
    PrefixOf(head + sub, Walk(t, v, names[1..], recursive), i);
    if i < |head + sub| {
      PrefixOf(head, sub, i);
    }
  }

  /** The entries of the first name: its child, then what is below it. */
  lemma EarlyEntry(t: Shape, v: U64, names: seq<Name>, recursive: bool, i: nat, p: seq<Name>)
    requires WellFormed(t) && v in t && forall n | n in names :: n in t[v].children
    requires names != [] && i < Share(t, v, names, recursive)
    requires i < |Walk(t, v, names, recursive)| && Resolve(t, v, p) == Some(Walk(t, v, names, recursive)[i].uuid)
    ensures var c := t[v].children[names[0]];
            && c in t && p != [] && p[0] == names[0] && (i == 0 <==> p[1..] == [])
            && (i > 0 ==> i - 1 < |PreOrder(t, c, true)|
                          && Resolve(t, c, p[1..]) == Some(PreOrder(t, c, true)[i - 1].uuid))
  {
    hide WellFormed, Walk, PreOrder, Below, Resolve, SortedNames, Share;
    Entries(t, v, names, recursive, i);
    var c := t[v].children[names[0]];
    if i > 0 {
      SubEntryBelow(t, c, i - 1);
      BelowIsYounger(t, c, PreOrder(t, c, true)[i - 1].uuid);
    }
    FirstPart(t, v, names, Walk(t, v, names, recursive)[i].uuid, p);
  }

  lemma NoNames(t: Shape, v: U64, names: seq<Name>, recursive: bool)
    requires WellFormed(t) && v in t && forall n | n in names :: n in t[v].children
    ensures names == [] ==> Walk(t, v, names, recursive) == []
    ensures names != [] ==> t[v].children[names[0]] in t && v < t[v].children[names[0]] < UUID_LIMIT
  {
    if names != [] { WalkSplit(t, v, names, recursive); }
  }

  /** A walk lists its entries in the order of their paths. */
  lemma {:induction false} WalkOrdered(t: Shape, v: U64, names: seq<Name>, recursive: bool, i: nat, j: nat,
                                       p: seq<Name>, q: seq<Name>)
    requires WellFormed(t) && v in t && Ascending(names)
    requires forall n | n in names :: n in t[v].children
    requires i < j < |Walk(t, v, names, recursive)|
    requires Resolve(t, v, p) == Some(Walk(t, v, names, recursive)[i].uuid)
    requires Resolve(t, v, q) == Some(Walk(t, v, names, recursive)[j].uuid)
    ensures PathLess(p, q)
    decreases UUID_LIMIT - v, |names|
  {
    hide WellFormed, Walk, PreOrder, Resolve, SortedNames, Share;
    NoNames(t, v, names, recursive);
    var n := Share(t, v, names, recursive);
    if i < n {
      EarlyEntry(t, v, names, recursive, i, p);
    }
    if j < n {
      EarlyEntry(t, v, names, recursive, j, q);
      if i > 0 {
        DescendOrdered(t, t[v].children[names[0]], i - 1, j - 1, p[1..], q[1..]);
      }
    } else {
      Entries(t, v, names, recursive, j);
      if i < n {
        LaterPart(t, v, names, recursive, j - n, q);
      } else {
        Entries(t, v, names, recursive, i);
        WalkOrdered(t, v, names[1..], recursive, i - n, j - n, p, q);
      }
    }
  }

  lemma {:induction false} DescendOrdered(t: Shape, c: U64, i: nat, j: nat, p: seq<Name>, q: seq<Name>)
    requires WellFormed(t) && c in t && i < j < |PreOrder(t, c, true)|
    requires Resolve(t, c, p) == Some(PreOrder(t, c, true)[i].uuid)
    requires Resolve(t, c, q) == Some(PreOrder(t, c, true)[j].uuid)
    ensures PathLess(p, q)
    decreases UUID_LIMIT - c, |t[c].children| + 1
  {
    WalkOrdered(t, c, SortedNames(t[c].children.Keys), true, i, j, p, q);
  }

  // ----- listings

  /** The vertices a query for `top` is answered with: `top` itself if it was asked for by
      name, and its children or everything below it. */
  predicate Wanted(t: Shape, top: U64, named: bool, recursive: bool, u: U64)
    requires WellFormed(t) && top in t
  {
    (named && u == top) || if recursive then Below(t, top, u) else u in t[top].children.Values
  }

  /** Entry `i` is listed before entry `j`: so their paths from `top` say. */
  ghost predicate InPathOrder(t: Shape, top: U64, list: seq<NamedNode>, i: int, j: int) {
    0 <= i < j < |list| ==>
      forall p, q | Resolve(t, top, p) == Some(list[i].uuid) && Resolve(t, top, q) == Some(list[j].uuid) ::
        PathLess(p, q)
  }

  /** `list` names each wanted vertex once, under its true name and parent, in path order. */
  ghost predicate Listing(t: Shape, top: U64, named: bool, recursive: bool, list: seq<NamedNode>)
    requires WellFormed(t) && top in t
  {
    && (forall e | e in list :: IsEdge(t, e))
    && DistinctUuids(list)
    && (forall u :: u in Uuids(list) <==> Wanted(t, top, named, recursive, u))
    && (named ==> list != [] && list[0].uuid == top)
    && (forall i, j {:trigger InPathOrder(t, top, list, i, j)} :: InPathOrder(t, top, list, i, j))
  }

  lemma PreOrderListing(t: Shape, top: U64, recursive: bool)
    requires WellFormed(t) && top in t
    ensures Listing(t, top, false, recursive, PreOrder(t, top, recursive))
  {
    SnapshotExact(t, top, recursive);
    var names, list := SortedNames(t[top].children.Keys), PreOrder(t, top, recursive);
    forall i, j ensures InPathOrder(t, top, list, i, j) {
      if 0 <= i < j < |list| {
        forall p, q | Resolve(t, top, p) == Some(list[i].uuid) && Resolve(t, top, q) == Some(list[j].uuid)
          ensures PathLess(p, q)
        {
          WalkOrdered(t, top, names, recursive, i, j, p, q);
        }
      }
    }
  }

  /** With the vertex itself in front. */
  lemma NamedListing(t: Shape, e: NamedNode, recursive: bool, list: seq<NamedNode>)
    requires WellFormed(t) && e.uuid in t && IsEdge(t, e) && Listing(t, e.uuid, false, recursive, list)
    ensures Listing(t, e.uuid, true, recursive, [e] + list)
  {
    hide WellFormed, Resolve, Below, PathLess;
    var all := [e] + list;
    assert Uuids([e]) == {e.uuid};
    UuidsAppend([e], list);
    NotWanted(t, e.uuid, recursive);
    DistinctAppend([e], list);
    forall i, j ensures InPathOrder(t, e.uuid, all, i, j) {
      if 0 <= i < j < |all| {
        assert all[j] == list[j - 1] && list[j - 1] in list && list[j - 1].uuid in Uuids(list);
        forall p, q | Resolve(t, e.uuid, p) == Some(all[i].uuid) && Resolve(t, e.uuid, q) == Some(all[j].uuid)
          ensures PathLess(p, q)
        {
          if i == 0 {
            ResolvesBelow(t, e.uuid, p, e.uuid);
            ResolvesBelow(t, e.uuid, q, all[j].uuid);
            EmptyFirst(q);
          } else {
            assert InPathOrder(t, e.uuid, list, i - 1, j - 1);
          }
        }
      }
    }
  }

  lemma EmptyFirst(q: seq<Name>)
    ensures PathLess([], q) <==> q != []
  {
  }

  lemma NotWanted(t: Shape, u: U64, recursive: bool)
    requires WellFormed(t) && u in t
    ensures !Wanted(t, u, false, recursive, u)
  {
    if Below(t, u, u) { BelowIsYounger(t, u, u); }
    forall n | n in t[u].children ensures t[u].children[n] != u {
      assert ChildLinked(t, u, n) && ParentLinked(t, t[u].children[n]);
    }
  }

  /** The list of a query that finds its vertex. */
  lemma QueryListing(t: Shape, parent: U64, name: Name, recursive: bool)
    requires WellFormed(t) && Query(t, parent, name, recursive).Some?
    ensures parent in t && (name != "." ==> name in t[parent].children)
    ensures var top := if name == "." then parent else t[parent].children[name];
            && top in t
            && Listing(t, top, name != ".", recursive, Query(t, parent, name, recursive).value)
  {
    hide PreOrder, Listing;
    if name == "." {
      PreOrderListing(t, parent, recursive);
    } else {
      assert ChildLinked(t, parent, name);
      var u := t[parent].children[name];
      PreOrderListing(t, u, recursive);
      NamedListing(t, NamedNode(name, u, parent), recursive, PreOrder(t, u, recursive));
    }
  }

  // ----- there is only one

  lemma {:induction false} PathLessAsymmetric(p: seq<Name>, q: seq<Name>)
    requires PathLess(p, q)
    ensures !PathLess(q, p)
    decreases |p|
  {
    if p != [] {
      if p[0] == q[0] {
        PathLessAsymmetric(p[1..], q[1..]);
      } else if Less(q[0], p[0]) {
        LessTransitive(p[0], q[0], p[0]);
        LessIrreflexive(p[0]);
      }
    }
  }

  /** Every entry has a path from `top`, and the paths ascend. */
  ghost predicate Ordered(t: Shape, top: U64, list: seq<NamedNode>) {
    && DistinctUuids(list)
    && (forall e | e in list :: IsEdge(t, e))
    && (forall u | u in Uuids(list) :: exists p :: Resolve(t, top, p) == Some(u))
    && (forall i, j {:trigger InPathOrder(t, top, list, i, j)} :: InPathOrder(t, top, list, i, j))
  }

  lemma WantedResolves(t: Shape, top: U64, named: bool, recursive: bool, u: U64)
    requires WellFormed(t) && top in t && Wanted(t, top, named, recursive, u)
    ensures exists p :: Resolve(t, top, p) == Some(u)
  {
    if named && u == top {
      assert Resolve(t, top, []) == Some(u);
    } else {
      BelowViaChild(t, top, u);
      BelowIffResolves(t, top, u);
    }
  }

  lemma ListingOrdered(t: Shape, top: U64, named: bool, recursive: bool, list: seq<NamedNode>)
    requires WellFormed(t) && top in t && Listing(t, top, named, recursive, list)
    ensures Ordered(t, top, list)
  {
    hide Wanted, WellFormed;
    forall u | u in Uuids(list) ensures exists p :: Resolve(t, top, p) == Some(u) {
      WantedResolves(t, top, named, recursive, u);
    }
  }

  lemma OrderedTail(t: Shape, top: U64, list: seq<NamedNode>)
    requires Ordered(t, top, list) && list != []
    ensures Ordered(t, top, list[1..]) && Uuids(list[1..]) == Uuids(list) - {list[0].uuid}
  {
    var tail := list[1..];
    assert list == [list[0]] + tail && Uuids([list[0]]) == {list[0].uuid};
    UuidsAppend([list[0]], tail);
    forall i, j ensures InPathOrder(t, top, tail, i, j) {
      assert InPathOrder(t, top, list, i + 1, j + 1);
    }
    forall e | e in tail ensures e.uuid != list[0].uuid { }
  }

  /** What comes first in one list cannot come later in the other. */
  lemma SameHead(t: Shape, top: U64, a: seq<NamedNode>, b: seq<NamedNode>)
    requires Ordered(t, top, a) && Ordered(t, top, b) && Uuids(a) == Uuids(b) && a != [] && b != []
    ensures a[0] == b[0]
  {
    assert a[0] in a && a[0].uuid in Uuids(b) && b[0] in b && b[0].uuid in Uuids(a);
    var x :| x in b && x.uuid == a[0].uuid;
    var k :| 0 <= k < |b| && b[k] == x;
    var y :| y in a && y.uuid == b[0].uuid;
    var m :| 0 <= m < |a| && a[m] == y;
    if k > 0 && m > 0 {
      assert InPathOrder(t, top, a, 0, m) && InPathOrder(t, top, b, 0, k);
      var p :| Resolve(t, top, p) == Some(a[0].uuid);
      var q :| Resolve(t, top, q) == Some(b[0].uuid);
      assert PathLess(p, q) && PathLess(q, p);
      PathLessAsymmetric(p, q);
    }
    assert IsEdge(t, a[0]) && IsEdge(t, b[0]);
  }

  lemma {:induction false} OrderedUnique(t: Shape, top: U64, a: seq<NamedNode>, b: seq<NamedNode>)
    requires Ordered(t, top, a) && Ordered(t, top, b) && Uuids(a) == Uuids(b)
    ensures a == b
    decreases |a|
  {
    hide Ordered, InPathOrder, Resolve;
    if a == [] || b == [] {
      assert a != [] ==> a[0].uuid in Uuids(a);
      assert b != [] ==> b[0].uuid in Uuids(b);
    } else {
      SameHead(t, top, a, b);
      OrderedTail(t, top, a);
      OrderedTail(t, top, b);
      OrderedUnique(t, top, a[1..], b[1..]);
      assert a == [a[0]] + a[1..] && b == [b[0]] + b[1..];
    }
  }

  /** A listing is determined by the tree and the query. */
  lemma ListingUnique(t: Shape, top: U64, named: bool, recursive: bool, a: seq<NamedNode>, b: seq<NamedNode>)
    requires WellFormed(t) && top in t
    requires Listing(t, top, named, recursive, a) && Listing(t, top, named, recursive, b)
    ensures a == b
  {
    hide WellFormed, Wanted, Ordered;
    ListingOrdered(t, top, named, recursive, a);
    ListingOrdered(t, top, named, recursive, b);
    OrderedUnique(t, top, a, b);
  }

  // ----- the order of the deletion walks

  /** The same order, but what is below a vertex before the vertex. */
  predicate PostLess(p: seq<Name>, q: seq<Name>) {
    if p == [] then false
    else if q == [] then true
    else if p[0] != q[0] then Less(p[0], q[0])
    else PostLess(p[1..], q[1..])
  }

  lemma PostCovered(t: Shape, v: U64, names: seq<Name>, u: U64)
    requires WellFormed(t) && v in t && forall n | n in names :: n in t[v].children
    requires u in Post(t, v, names)
    ensures Covered(t, v, names, true, u)
  {
    hide Post, Covered;
    PostMembers(t, v, names);
  }

  /** The entries of the first name: what is below its child, then the child. */
  lemma PostEarly(t: Shape, v: U64, names: seq<Name>, i: nat, p: seq<Name>)
    requires WellFormed(t) && v in t && forall n | n in names :: n in t[v].children
    requires names != [] && t[v].children[names[0]] in t
    requires i <= |PostOrder(t, t[v].children[names[0]])| && i < |Post(t, v, names)|
    requires Resolve(t, v, p) == Some(Post(t, v, names)[i])
    ensures var c := t[v].children[names[0]];
            && p != [] && p[0] == names[0] && (i == |PostOrder(t, c)| <==> p[1..] == [])
            && Resolve(t, c, p[1..]) == Some(Post(t, v, names)[i])
            && (i < |PostOrder(t, c)| ==> Post(t, v, names)[i] == PostOrder(t, c)[i])
  {
    PostSplit(t, v, names);
    hide WellFormed, Post, PostOrder, Below, Resolve, SortedNames;
    var c := t[v].children[names[0]];
    if i < |PostOrder(t, c)| {
      PostOrderMembers(t, c);
      assert PostOrder(t, c)[i] in PostOrder(t, c);
      BelowIsYounger(t, c, PostOrder(t, c)[i]);
    }
    FirstPart(t, v, names, Post(t, v, names)[i], p);
  }

  lemma PostLater(t: Shape, v: U64, names: seq<Name>, k: nat, path: seq<Name>)
    requires WellFormed(t) && v in t && forall n | n in names :: n in t[v].children
    requires names != [] && Ascending(names) && k < |Post(t, v, names[1..])|
    requires Resolve(t, v, path) == Some(Post(t, v, names[1..])[k])
    ensures path != [] && path[0] != names[0] && Less(names[0], path[0])
  {
    PostCovered(t, v, names[1..], Post(t, v, names[1..])[k]);
    FirstName(t, v, names[1..], true, Post(t, v, names[1..])[k], path);
    var i :| 0 <= i < |names[1..]| && names[1..][i] == path[0];
    assert names[i + 1] == path[0];
    LessIrreflexive(names[0]);
  }

  lemma PostHead(t: Shape, v: U64, names: seq<Name>)
    requires WellFormed(t) && v in t && forall n | n in names :: n in t[v].children
    requires Post(t, v, names) != []
    ensures names != [] && t[v].children[names[0]] in t && v < t[v].children[names[0]] < UUID_LIMIT
  {
    PostSplit(t, v, names);
  }

  lemma PostRest(t: Shape, v: U64, names: seq<Name>, j: nat)
    requires WellFormed(t) && v in t && forall n | n in names :: n in t[v].children
    requires names != [] && t[v].children[names[0]] in t
    requires |PostOrder(t, t[v].children[names[0]])| < j < |Post(t, v, names)|
    ensures var k := j - |PostOrder(t, t[v].children[names[0]])| - 1;
            k < |Post(t, v, names[1..])| && Post(t, v, names)[j] == Post(t, v, names[1..])[k]
  {
    hide Post, PostOrder, SortedNames;
    PostSplit(t, v, names);
    var c := t[v].children[names[0]];
    PrefixOf(PostOrder(t, c) + [c], Post(t, v, names[1..]), j);
  }

  /** A post-order lists its vertices in this order of their paths. */
  lemma {:induction false} PostOrdered(t: Shape, v: U64, names: seq<Name>, i: nat, j: nat,
                                       p: seq<Name>, q: seq<Name>)
    requires WellFormed(t) && v in t && Ascending(names)
    requires forall n | n in names :: n in t[v].children
    requires i < j < |Post(t, v, names)|
    requires Resolve(t, v, p) == Some(Post(t, v, names)[i]) && Resolve(t, v, q) == Some(Post(t, v, names)[j])
    ensures PostLess(p, q)
    decreases UUID_LIMIT - v, |names|
  {
    hide WellFormed, Post, PostOrder, Resolve, SortedNames;
    PostHead(t, v, names);
    var c := t[v].children[names[0]];
    var n := |PostOrder(t, c)|;
    if i <= n {
      PostEarly(t, v, names, i, p);
    }
    if j <= n {
      PostEarly(t, v, names, j, q);
      if j < n {
        DescendPostOrdered(t, c, i, j, p[1..], q[1..]);
      }
    } else if i <= n {
      PostRest(t, v, names, j);
      PostLater(t, v, names, j - n - 1, q);
    } else {
      PostRest(t, v, names, i);
      PostRest(t, v, names, j);
      PostOrdered(t, v, names[1..], i - n - 1, j - n - 1, p, q);
    }
  }

  lemma {:induction false} DescendPostOrdered(t: Shape, c: U64, i: nat, j: nat, p: seq<Name>, q: seq<Name>)
    requires WellFormed(t) && c in t && i < j < |PostOrder(t, c)|
    requires Resolve(t, c, p) == Some(PostOrder(t, c)[i]) && Resolve(t, c, q) == Some(PostOrder(t, c)[j])
    ensures PostLess(p, q)
    decreases UUID_LIMIT - c, |t[c].children| + 1
  {
    PostOrdered(t, c, SortedNames(t[c].children.Keys), i, j, p, q);
  }
}
