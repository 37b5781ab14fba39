/** Snapshots of a subtree: the recursive specification of the list a TreeInfoResponse
    carries, and what that list contains. */
module Snapshot {
  import opened Protocol
  import opened Names
  import opened TreeShape

  /** Pre-order, in the order of `names`, of the subtrees of those children of `v`; with
      `recursive` off, just the children. */
  function Walk(t: Shape, v: U64, names: seq<Name>, recursive: bool): seq<NamedNode>
    requires WellFormed(t) && v in t
    requires forall n | n in names :: n in t[v].children
    decreases UUID_LIMIT - v, |names|
  {
    if names == [] then []
    else
      assert ChildLinked(t, v, names[0]);
      var c := t[v].children[names[0]];
      assert ParentLinked(t, c);
      [NamedNode(names[0], c, v)]
      + (if recursive then PreOrder(t, c, true) else [])
      + Walk(t, v, names[1..], recursive)
  }

  function PreOrder(t: Shape, v: U64, recursive: bool): seq<NamedNode>
    requires WellFormed(t) && v in t
    decreases UUID_LIMIT - v, |t[v].children| + 1
  {
    Walk(t, v, SortedNames(t[v].children.Keys), recursive)
  }

  function Uuids(list: seq<NamedNode>): set<U64> {
    set e | e in list :: e.uuid
  }

  ghost predicate DistinctUuids(list: seq<NamedNode>) {
    forall i, j | 0 <= i < j < |list| :: list[i].uuid != list[j].uuid
  }

  /** The entry at `i` hangs under `v` or under an entry listed before it. */
  ghost predicate ParentEarlier(list: seq<NamedNode>, v: U64, i: int)
    requires 0 <= i < |list|
  {
    list[i].parentUuid == v || exists j | 0 <= j < i :: list[j].uuid == list[i].parentUuid
  }

  /** Each entry's parent is `v` or listed earlier. */
  ghost predicate ParentsFirst(list: seq<NamedNode>, v: U64) {
    forall i | 0 <= i < |list| :: ParentEarlier(list, v, i)
  }

  /** `u` belongs to the walk over the children `names` of `v`. */
  ghost predicate Covered(t: Shape, v: U64, names: seq<Name>, recursive: bool, u: U64)
    requires WellFormed(t) && v in t
    requires forall n | n in names :: n in t[v].children
  {
    exists n :: n in names && (t[v].children[n] == u || (recursive && Below(t, t[v].children[n], u)))
  }

  lemma CoveredSplit(t: Shape, v: U64, names: seq<Name>, recursive: bool, u: U64)
    requires WellFormed(t) && v in t && names != []
    requires forall n | n in names :: n in t[v].children
    ensures Covered(t, v, names, recursive, u) <==>
            || t[v].children[names[0]] == u
            || (recursive && Below(t, t[v].children[names[0]], u))
            || Covered(t, v, names[1..], recursive, u)
  {
    assert names == [names[0]] + names[1..];
  }

  lemma CoveredAll(t: Shape, v: U64, recursive: bool, u: U64)
    requires WellFormed(t) && v in t
    ensures Covered(t, v, SortedNames(t[v].children.Keys), recursive, u) <==>
            if recursive then Below(t, v, u) else u in t[v].children.Values
  {
    BelowViaChild(t, v, u);
    var names := SortedNames(t[v].children.Keys);
    assert forall n :: n in names <==> n in t[v].children;
  }

  /** The walk lists true edges, and exactly the covered vertices. */
  lemma {:induction false} WalkMembers(t: Shape, v: U64, names: seq<Name>, recursive: bool)
    requires WellFormed(t) && v in t
    requires forall n | n in names :: n in t[v].children
    ensures forall e | e in Walk(t, v, names, recursive) :: IsEdge(t, e)
    ensures forall u :: u in Uuids(Walk(t, v, names, recursive)) <==> Covered(t, v, names, recursive, u)
    decreases UUID_LIMIT - v, |names|
  {
    if names != [] {
      var c := t[v].children[names[0]];
      assert ChildLinked(t, v, names[0]) && ParentLinked(t, c);
      var head := NamedNode(names[0], c, v);
      var sub := if recursive then PreOrder(t, c, true) else [];
      var rest := Walk(t, v, names[1..], recursive);
      assert Walk(t, v, names, recursive) == [head] + sub + rest;
      if recursive {
        WalkMembers(t, c, SortedNames(t[c].children.Keys), true);
      }
      WalkMembers(t, v, names[1..], recursive);
      forall u
        ensures u in Uuids([head] + sub + rest) <==> Covered(t, v, names, recursive, u)
      {
        CoveredSplit(t, v, names, recursive, u);
        if recursive { CoveredAll(t, c, true, u); }
        UuidsAppend([head] + sub, rest);
        UuidsAppend([head], sub);
      }
    }
  }

  lemma UuidsAppend(a: seq<NamedNode>, b: seq<NamedNode>)
    ensures Uuids(a + b) == Uuids(a) + Uuids(b)
  {
    forall u | u in Uuids(a + b) ensures u in Uuids(a) + Uuids(b) {
      var e :| e in a + b && e.uuid == u;
    }
    forall u | u in Uuids(a) + Uuids(b) ensures u in Uuids(a + b) {
      if u in Uuids(a) {
        var e :| e in a && e.uuid == u;
        assert e in a + b;
      } else {
        var e :| e in b && e.uuid == u;
        assert e in a + b;
      }
    }
  }

  lemma DistinctAppend(a: seq<NamedNode>, b: seq<NamedNode>)
    requires DistinctUuids(a) && DistinctUuids(b) && Uuids(a) !! Uuids(b)
    ensures DistinctUuids(a + b)
  {
    var ab := a + b;
    forall i, j | 0 <= i < j < |ab| ensures ab[i].uuid != ab[j].uuid {
      if i < |a| <= j {
        assert a[i].uuid in Uuids(a) && b[j - |a|].uuid in Uuids(b);
      }
    }
  }

  lemma DistinctParts(head: NamedNode, sub: seq<NamedNode>, rest: seq<NamedNode>)
    requires DistinctUuids(sub) && DistinctUuids(rest)
    requires head.uuid !in Uuids(sub) && head.uuid !in Uuids(rest) && Uuids(sub) !! Uuids(rest)
    ensures DistinctUuids([head] + sub + rest)
  {
    assert Uuids([head]) == {head.uuid};
    DistinctAppend([head], sub);
    UuidsAppend([head], sub);
    DistinctAppend([head] + sub, rest);
  }

  /** What is below the first child is neither that child nor covered by the others. */
  lemma SubtreeApart(t: Shape, v: U64, names: seq<Name>, recursive: bool)
    requires WellFormed(t) && v in t && Ascending(names) && names != []
    requires forall n | n in names :: n in t[v].children
    requires t[v].children[names[0]] in t
    ensures var c := t[v].children[names[0]];
            && c !in Uuids(Walk(t, v, names[1..], recursive))
            && c !in Uuids(PreOrder(t, c, true))
            && (recursive ==> Uuids(PreOrder(t, c, true)) !! Uuids(Walk(t, v, names[1..], recursive)))
  {
    var c := t[v].children[names[0]];
    WalkMembers(t, c, SortedNames(t[c].children.Keys), true);
    WalkMembers(t, v, names[1..], recursive);
    hide Walk, SortedNames, WellFormed;
    forall u | u in Uuids(PreOrder(t, c, true)) ensures u != c && u !in Uuids(Walk(t, v, names[1..], recursive)) {
      CoveredAll(t, c, true, u);
      BelowIsYounger(t, c, u);
      RestAvoids(t, v, names, recursive, u);
    }
    RestAvoids(t, v, names, recursive, c);
  }

  /** No vertex is listed twice. */
  lemma {:induction false} WalkDistinct(t: Shape, v: U64, names: seq<Name>, recursive: bool)
    requires WellFormed(t) && v in t && Ascending(names)
    requires forall n | n in names :: n in t[v].children
    ensures DistinctUuids(Walk(t, v, names, recursive))
    decreases UUID_LIMIT - v, |names|
  {
    if names != [] {
      var c := t[v].children[names[0]];
      assert ChildLinked(t, v, names[0]) && ParentLinked(t, c);
      if recursive { WalkDistinct(t, c, SortedNames(t[c].children.Keys), true); }
      WalkDistinct(t, v, names[1..], recursive);
      SubtreeApart(t, v, names, recursive);
      DistinctParts(NamedNode(names[0], c, v), if recursive then PreOrder(t, c, true) else [],
                    Walk(t, v, names[1..], recursive));
    }
  }

  lemma RestAvoids(t: Shape, v: U64, names: seq<Name>, recursive: bool, u: U64)
    requires WellFormed(t) && v in t && Ascending(names) && names != []
    requires forall n | n in names :: n in t[v].children
    requires u == t[v].children[names[0]] || Below(t, t[v].children[names[0]], u)
    ensures !Covered(t, v, names[1..], recursive, u)
  {
    forall n | n in names[1..]
      ensures t[v].children[n] != u && !Below(t, t[v].children[n], u)
    {
      var i :| 0 <= i < |names[1..]| && names[1..][i] == n;
      assert names[i + 1] == n;
      if n == names[0] { AscendingDistinct(names, 0, i + 1); }
      SiblingsDisjoint(t, v, names[0], n, u);
    }
  }

  lemma ParentsFirstAppend(a: seq<NamedNode>, b: seq<NamedNode>, v: U64, w: U64)
    requires ParentsFirst(a, v) && ParentsFirst(b, w)
    requires w == v || w in Uuids(a)
    ensures ParentsFirst(a + b, v)
  {
    var ab := a + b;
    forall i | 0 <= i < |ab| ensures ParentEarlier(ab, v, i) {
      if i < |a| {
        assert ParentEarlier(a, v, i);
        if a[i].parentUuid != v {
          var j :| 0 <= j < i && a[j].uuid == a[i].parentUuid;
          assert ab[j].uuid == ab[i].parentUuid;
        }
      } else {
        var k := i - |a|;
        assert ParentEarlier(b, w, k) && ab[i] == b[k];
        if b[k].parentUuid == w {
          if w != v {
            var e :| e in a && e.uuid == w;
            var j :| 0 <= j < |a| && a[j] == e;
            assert ab[j].uuid == w;
          }
        } else {
          var j :| 0 <= j < k && b[j].uuid == b[k].parentUuid;
          assert ab[|a| + j].uuid == b[k].parentUuid;
        }
      }
    }
  }

  /** A vertex is listed before its own children. */
  lemma {:induction false} WalkParentsFirst(t: Shape, v: U64, names: seq<Name>, recursive: bool)
    requires WellFormed(t) && v in t
    requires forall n | n in names :: n in t[v].children
    ensures ParentsFirst(Walk(t, v, names, recursive), v)
    decreases UUID_LIMIT - v, |names|
  {
    if names != [] {
      var c := t[v].children[names[0]];
      assert ChildLinked(t, v, names[0]) && ParentLinked(t, c);
      var head := NamedNode(names[0], c, v);
      var sub := if recursive then PreOrder(t, c, true) else [];
      if recursive {
        WalkParentsFirst(t, c, SortedNames(t[c].children.Keys), true);
      }
      WalkParentsFirst(t, v, names[1..], recursive);
      assert head in [head] && c in Uuids([head]);
      ParentsFirstAppend([head], sub, v, c);
      ParentsFirstAppend([head] + sub, Walk(t, v, names[1..], recursive), v, v);
    }
  }

  /** A recursive snapshot lists each strict descendant of `v` exactly once, under its true
      name and parent, parents before children; a flat one lists exactly the children. */
  lemma SnapshotExact(t: Shape, v: U64, recursive: bool)
    requires WellFormed(t) && v in t
    ensures forall e | e in PreOrder(t, v, recursive) :: IsEdge(t, e)
    ensures forall u :: u in Uuids(PreOrder(t, v, recursive)) <==>
                        if recursive then Below(t, v, u) else u in t[v].children.Values
    ensures DistinctUuids(PreOrder(t, v, recursive))
    ensures ParentsFirst(PreOrder(t, v, recursive), v)
  {
    var names := SortedNames(t[v].children.Keys);
    WalkMembers(t, v, names, recursive);
    WalkDistinct(t, v, names, recursive);
    WalkParentsFirst(t, v, names, recursive);
    forall u { CoveredAll(t, v, recursive, u); }
  }

  // ----- the explicit stack

  /** A level of the stack: a node and the names of its children still to visit. */
  datatype Frame = Frame(node: U64, names: seq<Name>)

  ghost predicate FrameOk(t: Shape, f: Frame) {
    f.node in t && forall n | n in f.names :: n in t[f.node].children
  }

  ghost predicate FramesOk(t: Shape, stack: seq<Frame>) {
    forall i | 0 <= i < |stack| :: FrameOk(t, stack[i])
  }

  /** What a stack still has to list, innermost level first. */
  ghost function Pending(t: Shape, stack: seq<Frame>, recursive: bool): seq<NamedNode>
    requires WellFormed(t) && FramesOk(t, stack)
    decreases |stack|
  {
    if stack == [] then []
    else
      var top := stack[|stack| - 1];
      assert FrameOk(t, top);
      Walk(t, top.node, top.names, recursive) + Pending(t, stack[..|stack| - 1], recursive)
  }

  lemma PendingPush(t: Shape, stack: seq<Frame>, f: Frame, recursive: bool)
    requires WellFormed(t) && FramesOk(t, stack) && FrameOk(t, f)
    ensures FramesOk(t, stack + [f])
    ensures Pending(t, stack + [f], recursive) == Walk(t, f.node, f.names, recursive) + Pending(t, stack, recursive)
  {
    assert (stack + [f])[..|stack|] == stack;
  }

  lemma PendingPop(t: Shape, stack: seq<Frame>, recursive: bool)
    requires WellFormed(t) && FramesOk(t, stack) && stack != []
    ensures var top, front := stack[|stack| - 1], stack[..|stack| - 1];
            && FrameOk(t, top) && FramesOk(t, front)
            && Pending(t, stack, recursive) == Walk(t, top.node, top.names, recursive) + Pending(t, front, recursive)
  {
    assert FrameOk(t, stack[|stack| - 1]);
  }

  /** One step of a level: list the next child, then what is below it, then the rest. */
  lemma FrameStep(t: Shape, f: Frame, recursive: bool)
    requires WellFormed(t) && FrameOk(t, f) && f.names != []
    ensures var c := t[f.node].children[f.names[0]];
            && c in t
            && FrameOk(t, Frame(f.node, f.names[1..])) && FrameOk(t, Frame(c, SortedNames(t[c].children.Keys)))
            && Walk(t, f.node, f.names, recursive)
            == [NamedNode(f.names[0], c, f.node)]
             + (if recursive then Walk(t, c, SortedNames(t[c].children.Keys), true) else [])
             + Walk(t, f.node, f.names[1..], recursive)
            && (t[c].children == map[] ==> Walk(t, c, SortedNames(t[c].children.Keys), true) == [])
  {
    assert ChildLinked(t, f.node, f.names[0]);
  }
}
