/** The order in which the deletion walks remove a subtree, and what is left on the way. */
module PostOrders {
  import opened Protocol
  import opened Names
  import opened TreeShape
  import opened Snapshot

  /** Post-order, by name, of the subtrees of those children of `v`. */
  function Post(t: Shape, v: U64, names: seq<Name>): seq<U64>
    requires WellFormed(t) && v in t
    requires forall n | n in names :: n in t[v].children
    decreases UUID_LIMIT - v, |names|
  {
    if names == [] then []
    else
      assert ChildLinked(t, v, names[0]);
      var c := t[v].children[names[0]];
      assert ParentLinked(t, c);
      PostOrder(t, c) + [c] + Post(t, v, names[1..])
  }

  function PostOrder(t: Shape, v: U64): seq<U64>
    requires WellFormed(t) && v in t
    decreases UUID_LIMIT - v, |t[v].children| + 1
  {
    Post(t, v, SortedNames(t[v].children.Keys))
  }

  ghost predicate Distinct(s: seq<U64>) {
    forall i, j | 0 <= i < j < |s| :: s[i] != s[j]
  }

  lemma {:induction false} PostMembers(t: Shape, v: U64, names: seq<Name>)
    requires WellFormed(t) && v in t
    requires forall n | n in names :: n in t[v].children
    ensures forall u :: u in Post(t, v, names) <==> Covered(t, v, names, true, u)
    decreases UUID_LIMIT - v, |names|
  {
    if names != [] {
      var c := t[v].children[names[0]];
      assert ChildLinked(t, v, names[0]) && ParentLinked(t, c);
      PostMembers(t, c, SortedNames(t[c].children.Keys));
      PostMembers(t, v, names[1..]);
      forall u ensures u in Post(t, v, names) <==> Covered(t, v, names, true, u) {
        CoveredSplit(t, v, names, true, u);
        CoveredAll(t, c, true, u);
      }
    }
  }

  /** The strict descendants of `v`, and nothing else. */
  lemma PostOrderMembers(t: Shape, v: U64)
    requires WellFormed(t) && v in t
    ensures forall u :: u in PostOrder(t, v) <==> Below(t, v, u)
  {
    PostMembers(t, v, SortedNames(t[v].children.Keys));
    forall u { CoveredAll(t, v, true, u); }
  }

  lemma {:induction false} PostDistinct(t: Shape, v: U64, names: seq<Name>)
    requires WellFormed(t) && v in t && Ascending(names)
    requires forall n | n in names :: n in t[v].children
    ensures Distinct(Post(t, v, names))
    decreases UUID_LIMIT - v, |names|
  {
    if names != [] {
      var c := t[v].children[names[0]];
      assert ChildLinked(t, v, names[0]) && ParentLinked(t, c);
      PostDistinct(t, c, SortedNames(t[c].children.Keys));
      PostDistinct(t, v, names[1..]);
      PostOrderMembers(t, c);
      PostMembers(t, v, names[1..]);
      forall u | u == c || Below(t, c, u) ensures u !in Post(t, v, names[1..]) {
        RestAvoids(t, v, names, true, u);
      }
      assert c !in PostOrder(t, c) by {
        if Below(t, c, c) { BelowIsYounger(t, c, c); }
      }
      DistinctConcat(PostOrder(t, c), [c]);
      DistinctConcat(PostOrder(t, c) + [c], Post(t, v, names[1..]));
    }
  }

  lemma DistinctConcat(a: seq<U64>, b: seq<U64>)
    requires Distinct(a) && Distinct(b) && forall u | u in a :: u !in b
    ensures Distinct(a + b)
  {
    var ab := a + b;
    forall i, j | 0 <= i < j < |ab| ensures ab[i] != ab[j] {
      if i < |a| <= j { assert a[i] in a && b[j - |a|] in b; }
    }
  }

  lemma PostSplit(t: Shape, v: U64, names: seq<Name>)
    requires WellFormed(t) && v in t && forall n | n in names :: n in t[v].children
    requires Post(t, v, names) != []
    ensures names != [] && t[v].children[names[0]] in t
    ensures v < t[v].children[names[0]] < UUID_LIMIT
    ensures var c := t[v].children[names[0]];
            Post(t, v, names) == PostOrder(t, c) + [c] + Post(t, v, names[1..])
  {
    assert ChildLinked(t, v, names[0]) && ParentLinked(t, t[v].children[names[0]]);
  }

  lemma PrefixOf<T>(a: seq<T>, b: seq<T>, i: nat)
    requires i < |a + b|
    ensures i < |a| ==> (a + b)[i] == a[i] && (a + b)[..i] == a[..i]
    ensures i >= |a| ==> (a + b)[i] == b[i - |a|] && (a + b)[..i] == a + b[..i - |a|]
  {
  }

  /** A vertex comes after everything below it. */
  lemma {:induction false} ChildrenFirst(t: Shape, v: U64, names: seq<Name>, i: nat, u: U64)
    requires WellFormed(t) && v in t
    requires forall n | n in names :: n in t[v].children
    requires i < |Post(t, v, names)| && Below(t, Post(t, v, names)[i], u)
    ensures u in Post(t, v, names)[..i]
    decreases UUID_LIMIT - v, |names|
  {
    hide WellFormed, SortedNames, Below, Post, PostOrder;
    PostSplit(t, v, names);
    var c := t[v].children[names[0]];
    var below, rest := PostOrder(t, c), Post(t, v, names[1..]);
    PrefixOf(below + [c], rest, i);
    if i <= |below| {
      PrefixOf(below, [c], i);
    }
    if i < |below| {
      ChildrenFirstBelow(t, c, i, u);
    } else if i == |below| {
      PostOrderMembers(t, c);
    } else {
      ChildrenFirst(t, v, names[1..], i - |below| - 1, u);
    }
  }

  lemma {:induction false} ChildrenFirstBelow(t: Shape, c: U64, i: nat, u: U64)
    requires WellFormed(t) && c in t && i < |PostOrder(t, c)| && Below(t, PostOrder(t, c)[i], u)
    ensures u in PostOrder(t, c)[..i]
    decreases UUID_LIMIT - c, |t[c].children| + 1
  {
    ChildrenFirst(t, c, SortedNames(t[c].children.Keys), i, u);
  }

  // ----- what is left of a tree

  /** The tree without the vertices in `gone`. */
  function Prune(t: Shape, gone: set<U64>): Shape {
    map u | u in t && u !in gone ::
      t[u].(children := map n | n in t[u].children && t[u].children[n] !in gone :: t[u].children[n])
  }

  lemma PruneNothing(t: Shape)
    ensures Prune(t, {}) == t
  {
    forall u | u in t ensures Prune(t, {})[u] == t[u] {
      assert Prune(t, {})[u].children == t[u].children;
    }
  }

  /** Removing one more vertex whose children are all gone. */
  lemma PruneRemove(t: Shape, gone: set<U64>, u: U64)
    requires WellFormed(t) && u in t && u != ROOT && u !in gone
    requires t[u].parent.Some? && t[u].parent.value !in gone
    ensures Remove(Prune(t, gone), u) == Prune(t, gone + {u})
  {
    assert ParentLinked(t, u);
    var a, b := Remove(Prune(t, gone), u), Prune(t, gone + {u});
    assert a.Keys == b.Keys;
    forall v | v in a ensures a[v] == b[v] {
      forall n ensures n in a[v].children <==> n in b[v].children {
        assert ChildLinked(t, v, n);
      }
      assert a[v].children == b[v].children;
    }
  }
}
