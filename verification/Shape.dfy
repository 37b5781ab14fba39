/** The tree as an index of vertices by uuid. Server and replica both store it twice: the
    index itself, and the `children` maps with `parent` links between its entries. */
module TreeShape {
  import opened Protocol

  /** `parent` is None for the root, and on a replica for a ghost. */
  datatype Vertex = Vertex(name: Name, parent: Option<U64>, children: map<Name, U64>)

  type Shape = map<U64, Vertex>

  const ROOT_VERTEX := Vertex("", None, map[])

  predicate IsEdge(t: Shape, e: NamedNode) {
    e.uuid in t && t[e.uuid].parent == Some(e.parentUuid) && t[e.uuid].name == e.name
  }

  /** The `children` entry `n` of `u` points to an indexed vertex that points back. */
  ghost predicate ChildLinked(t: Shape, u: U64, n: Name) {
    u in t && n in t[u].children ==>
      && t[u].children[n] in t
      && t[t[u].children[n]].parent == Some(u)
      && t[t[u].children[n]].name == n
  }

  ghost predicate ChildrenLinked(t: Shape) {
    forall u, n {:trigger ChildLinked(t, u, n)} :: ChildLinked(t, u, n)
  }

  /** A vertex other than the root sits in its indexed parent under its own name. Uuids
      come from one counter, so the parent is older. */
  ghost predicate ParentLinked(t: Shape, u: U64) {
    u in t && u != ROOT ==>
      && t[u].parent.Some?
      && t[u].parent.value < u
      && t[u].parent.value in t
      && t[u].name in t[t[u].parent.value].children
      && t[t[u].parent.value].children[t[u].name] == u
  }

  /** Agreement of the two views of a server tree. */
  ghost predicate WellFormed(t: Shape) {
    && ROOT in t && t[ROOT].parent == None && t[ROOT].name == ""
    && (forall u | u in t :: u < UUID_LIMIT)
    && (forall u {:trigger ParentLinked(t, u)} :: ParentLinked(t, u))
    && ChildrenLinked(t)
  }

  /** As `ParentLinked`, for any numbering of the vertices. */
  ghost predicate Hangs(t: Shape, u: U64) {
    u in t && u != ROOT ==>
      && t[u].parent.Some?
      && t[u].parent.value != u
      && t[u].parent.value in t
      && t[u].name in t[t[u].parent.value].children
      && t[t[u].parent.value].children[t[u].name] == u
  }

  /** Unique uuids, distinct sibling names, parent and children links that match. */
  ghost predicate Linked(t: Shape) {
    && ROOT in t && t[ROOT].parent == None && t[ROOT].name == ""
    && (forall u {:trigger Hangs(t, u)} :: Hangs(t, u))
    && ChildrenLinked(t)
  }

  lemma WellFormedLinked(t: Shape)
    requires WellFormed(t)
    ensures Linked(t)
  {
    forall u ensures Hangs(t, u) { assert ParentLinked(t, u); }
  }

  // ----- reachability through the children maps

  function Resolve(t: Shape, v: U64, path: seq<Name>): Option<U64>
    decreases |path|
  {
    if v !in t then None
    else if path == [] then Some(v)
    else if path[0] !in t[v].children then None
    else Resolve(t, t[v].children[path[0]], path[1..])
  }

  function PathOf(t: Shape, u: U64): seq<Name>
    requires WellFormed(t) && u in t
    decreases u
  {
    if u == ROOT then []
    else
      assert ParentLinked(t, u);
      PathOf(t, t[u].parent.value) + [t[u].name]
  }

  lemma {:induction false} ResolveAppend(t: Shape, v: U64, path: seq<Name>, n: Name)
    ensures Resolve(t, v, path + [n]) ==
            match Resolve(t, v, path)
            case None => None
            case Some(u) => Resolve(t, u, [n])
    decreases |path|
  {
    if path == [] {
      assert path + [n] == [n];
    } else {
      assert (path + [n])[1..] == path[1..] + [n];
      if v in t && path[0] in t[v].children {
        ResolveAppend(t, t[v].children[path[0]], path[1..], n);
      }
    }
  }

  lemma {:induction false} PathResolves(t: Shape, u: U64)
    requires WellFormed(t) && u in t
    ensures Resolve(t, ROOT, PathOf(t, u)) == Some(u)
    decreases u
  {
    if u != ROOT {
      assert ParentLinked(t, u);
      var p := t[u].parent.value;
      PathResolves(t, p);
      ResolveAppend(t, ROOT, PathOf(t, p), t[u].name);
    }
  }

  lemma {:induction false} ResolvedPath(t: Shape, path: seq<Name>)
    requires WellFormed(t) && Resolve(t, ROOT, path).Some?
    ensures Resolve(t, ROOT, path).value in t
    ensures path == PathOf(t, Resolve(t, ROOT, path).value)
    decreases |path|
  {
    if path != [] {
      var front, n := path[..|path| - 1], path[|path| - 1];
      assert path == front + [n];
      ResolveAppend(t, ROOT, front, n);
      ResolvedPath(t, front);
      assert ChildLinked(t, Resolve(t, ROOT, front).value, n);
    }
  }

  /** The two views agree: a uuid is indexed exactly when some path of names leads to it
      from the root, and that path is unique. */
  lemma IndexedIffReachable(t: Shape, u: U64)
    requires WellFormed(t)
    ensures u in t <==> exists path :: Resolve(t, ROOT, path) == Some(u)
    ensures forall p, q :: Resolve(t, ROOT, p) == Some(u) && Resolve(t, ROOT, q) == Some(u) ==> p == q
  {
    if u in t {
      PathResolves(t, u);
    }
    forall p | Resolve(t, ROOT, p) == Some(u)
      ensures u in t && p == PathOf(t, u)
    {
      ResolvedPath(t, p);
    }
  }

  // ----- descent along parent links

  /** `u` lies strictly below `v`. */
  predicate Below(t: Shape, v: U64, u: U64)
    requires WellFormed(t)
    decreases u
  {
    assert ParentLinked(t, u);
    u in t && u != ROOT && (t[u].parent.value == v || Below(t, v, t[u].parent.value))
  }

  /** Descent only ever leads to younger uuids; in particular the tree has no cycle. */
  lemma {:induction false} BelowIsYounger(t: Shape, v: U64, u: U64)
    requires WellFormed(t) && Below(t, v, u)
    ensures v in t && v < u && !Below(t, u, v)
    decreases u
  {
    assert ParentLinked(t, u);
    var p := t[u].parent.value;
    if p != v {
      BelowIsYounger(t, v, p);
    }
    if Below(t, u, v) {
      BelowIsYounger(t, u, v);
    }
  }

  lemma {:induction false} BelowTransitive(t: Shape, a: U64, b: U64, c: U64)
    requires WellFormed(t) && Below(t, a, b) && Below(t, b, c)
    ensures Below(t, a, c)
    decreases c
  {
    assert ParentLinked(t, c);
    if t[c].parent.value != b {
      BelowTransitive(t, a, b, t[c].parent.value);
    }
  }

  /** Ancestors of one vertex are comparable. */
  lemma {:induction false} AncestorsComparable(t: Shape, a: U64, b: U64, u: U64)
    requires WellFormed(t) && Below(t, a, u) && Below(t, b, u)
    ensures a == b || Below(t, a, b) || Below(t, b, a)
    decreases u
  {
    assert ParentLinked(t, u);
    var p := t[u].parent.value;
    if p != a && p != b {
      AncestorsComparable(t, a, b, p);
    }
  }

  lemma {:induction false} EverythingBelowRoot(t: Shape, u: U64)
    requires WellFormed(t) && u in t && u != ROOT
    ensures Below(t, ROOT, u)
    decreases u
  {
    assert ParentLinked(t, u);
    if t[u].parent.value != ROOT {
      EverythingBelowRoot(t, t[u].parent.value);
    }
  }

  /** Below `v` means: a child of `v`, or below a child of `v`. */
  lemma {:induction false} BelowViaChild(t: Shape, v: U64, u: U64)
    requires WellFormed(t) && v in t
    ensures Below(t, v, u) <==>
            exists n :: n in t[v].children && (t[v].children[n] == u || Below(t, t[v].children[n], u))
    decreases u
  {
    if u in t && u != ROOT {
      assert ParentLinked(t, u);
      var p := t[u].parent.value;
      if p == v {
        assert t[v].children[t[u].name] == u;
      } else {
        BelowViaChild(t, v, p);
        if Below(t, v, u) {
          var n :| n in t[v].children && (t[v].children[n] == p || Below(t, t[v].children[n], p));
          assert Below(t, t[v].children[n], u);
        }
      }
    }
    forall n | n in t[v].children && (t[v].children[n] == u || Below(t, t[v].children[n], u))
      ensures Below(t, v, u)
    {
      assert ChildLinked(t, v, n);
      if t[v].children[n] != u {
        BelowTransitive(t, v, t[v].children[n], u);
      }
    }
  }

  /** Subtrees of distinct children are disjoint. */
  lemma SiblingsDisjoint(t: Shape, v: U64, m: Name, n: Name, u: U64)
    requires WellFormed(t) && v in t && m in t[v].children && n in t[v].children && m != n
    ensures !(u == t[v].children[m] || Below(t, t[v].children[m], u))
         || !(u == t[v].children[n] || Below(t, t[v].children[n], u))
  {
    var a, b := t[v].children[m], t[v].children[n];
    assert ChildLinked(t, v, m) && ChildLinked(t, v, n);
    assert ParentLinked(t, a) && ParentLinked(t, b);
    assert Below(t, v, a) && Below(t, v, b);
    if (u == a || Below(t, a, u)) && (u == b || Below(t, b, u)) {
      if u != a && u != b { AncestorsComparable(t, a, b, u); }
      if Below(t, a, b) {
        BelowIsYounger(t, v, a);
      }
      if Below(t, b, a) {
        BelowIsYounger(t, v, b);
      }
    }
  }

  // ----- edits of a server tree

  /** `children.emplace` on the parent and `mTree.emplace` for a fresh uuid. */
  function Insert(t: Shape, e: NamedNode): Shape
    requires e.parentUuid in t
  {
    var t1 := t[e.uuid := Vertex(e.name, Some(e.parentUuid), map[])];
    t1[e.parentUuid := t1[e.parentUuid].(children := t1[e.parentUuid].children[e.name := e.uuid])]
  }

  /** Removes a vertex from the index and its name from the parent's children. */
  function Remove(t: Shape, u: U64): Shape {
    if u !in t then t
    else match t[u].parent
      case None => t - {u}
      case Some(p) =>
        if p in t then t[p := t[p].(children := t[p].children - {t[u].name})] - {u}
        else t - {u}
  }

  lemma InsertKeepsWellFormed(t: Shape, e: NamedNode)
    requires WellFormed(t)
    requires e.parentUuid in t && e.uuid !in t && e.parentUuid < e.uuid < UUID_LIMIT
    requires e.name !in t[e.parentUuid].children
    ensures WellFormed(Insert(t, e))
    ensures IsEdge(Insert(t, e), e)
    ensures forall u | u in t :: Insert(t, e)[u].name == t[u].name && Insert(t, e)[u].parent == t[u].parent
  {
    var t' := Insert(t, e);
    forall u ensures ParentLinked(t', u) {
      assert ParentLinked(t, u);
    }
    forall u, n ensures ChildLinked(t', u, n) {
      assert ChildLinked(t, u, n);
    }
  }

  lemma RemoveKeepsWellFormed(t: Shape, u: U64)
    requires WellFormed(t)
    requires u in t && u != ROOT && t[u].children == map[]
    ensures WellFormed(Remove(t, u))
    ensures Remove(t, u).Keys == t.Keys - {u}
    ensures forall v | v in t && v != u :: Remove(t, u)[v].name == t[v].name && Remove(t, u)[v].parent == t[v].parent
  {
    var t' := Remove(t, u);
    assert ParentLinked(t, u);
    forall v ensures ParentLinked(t', v) {
      assert ParentLinked(t, v);
    }
    forall v, n ensures ChildLinked(t', v, n) {
      assert ChildLinked(t, v, n);
    }
  }
}
