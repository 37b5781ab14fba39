/** The stack of a deletion walk, abstractly: which vertices are gone, which are still to go,
    and why the next one is childless when its turn comes. */
module WalkStack {
  import opened Protocol
  import opened Names
  import opened TreeShape
  import opened Snapshot
  import opened PostOrders

  /** What the stack still has to delete: the rest of the innermost level, then the node that
      level belongs to, then the rest of the level below; the outermost node stays. */
  ghost function Todo(t: Shape, stack: seq<Frame>): seq<U64>
    requires WellFormed(t) && FramesOk(t, stack)
    decreases |stack|
  {
    if stack == [] then []
    else
      var top, front := stack[|stack| - 1], stack[..|stack| - 1];
      assert FrameOk(t, top);
      Post(t, top.node, top.names) + (if front == [] then [] else [top.node]) + Todo(t, front)
  }

  /** The children of a level's node are still listed, or gone, or being worked on. */
  ghost predicate Settled(t: Shape, f: Frame, gone: set<U64>, current: Option<U64>)
    requires f.node in t
  {
    forall n | n in t[f.node].children ::
      n in f.names || t[f.node].children[n] in gone || Some(t[f.node].children[n]) == current
  }

  function Current(stack: seq<Frame>, i: nat): Option<U64>
    requires i < |stack|
  {
    if i + 1 < |stack| then Some(stack[i + 1].node) else None
  }

  /** The state of a walk below `v`: `sent` deletes are done and the stack holds the rest. */
  ghost predicate Progress(t: Shape, v: U64, stack: seq<Frame>, sent: seq<U64>)
    requires WellFormed(t) && v in t
  {
    && FramesOk(t, stack)
    && sent + Todo(t, stack) == PostOrder(t, v)
    && (stack != [] ==> stack[0].node == v)
    && (forall i {:trigger LevelFine(t, stack, Gone(sent), i)} ::
          0 <= i < |stack| ==> LevelFine(t, stack, Gone(sent), i))
  }

  ghost predicate LevelFine(t: Shape, stack: seq<Frame>, gone: set<U64>, i: int)
    requires 0 <= i < |stack|
  {
    && FrameOk(t, stack[i]) && Settled(t, stack[i], gone, Current(stack, i))
    && (i > 0 ==> t[stack[i].node].parent == Some(stack[i - 1].node))
  }

  function Gone(sent: seq<U64>): set<U64> {
    set u | u in sent
  }

  lemma FrontOk(t: Shape, stack: seq<Frame>)
    requires FramesOk(t, stack) && stack != []
    ensures FramesOk(t, stack[..|stack| - 1]) && FrameOk(t, stack[|stack| - 1])
  {
  }

  lemma TodoPush(t: Shape, stack: seq<Frame>, f: Frame)
    requires WellFormed(t) && FramesOk(t, stack) && FrameOk(t, f)
    ensures FramesOk(t, stack + [f])
    ensures Todo(t, stack + [f])
         == Post(t, f.node, f.names) + (if stack == [] then [] else [f.node]) + Todo(t, stack)
  {
    assert (stack + [f])[..|stack|] == stack;
  }

  /** The node of every level but the outermost is still to be deleted. */
  lemma {:induction false} LevelNodesTodo(t: Shape, stack: seq<Frame>, i: nat)
    requires WellFormed(t) && FramesOk(t, stack) && 0 < i < |stack|
    ensures stack[i].node in Todo(t, stack)
    decreases |stack|
  {
    if i < |stack| - 1 {
      LevelNodesTodo(t, stack[..|stack| - 1], i);
    }
  }

  /** Nothing on the stack is gone. */
  lemma TodoNotGone(t: Shape, v: U64, stack: seq<Frame>, sent: seq<U64>, u: U64)
    requires WellFormed(t) && v in t && Progress(t, v, stack, sent)
    ensures u in Todo(t, stack) ==> u !in Gone(sent)
    ensures u in Todo(t, stack) ==> Below(t, v, u)
    ensures u in Gone(sent) ==> Below(t, v, u)
  {
    PostDistinct(t, v, SortedNames(t[v].children.Keys));
    PostOrderMembers(t, v);
    var all := PostOrder(t, v);
    assert all == sent + Todo(t, stack);
    DistinctSplit(sent, Todo(t, stack));
  }

  lemma DistinctSplit(a: seq<U64>, b: seq<U64>)
    requires Distinct(a + b)
    ensures forall u | u in a :: u !in b
  {
    forall u | u in a ensures u !in b {
      var i :| 0 <= i < |a| && a[i] == u;
      forall j | 0 <= j < |b| ensures b[j] != u {
        assert (a + b)[i] == u && (a + b)[|a| + j] == b[j];
      }
    }
  }

  lemma NodesAlive(t: Shape, v: U64, stack: seq<Frame>, sent: seq<U64>, i: nat)
    requires WellFormed(t) && v in t && Progress(t, v, stack, sent) && i < |stack|
    ensures stack[i].node in t && stack[i].node !in Gone(sent)
    ensures stack[i].node == v || Below(t, v, stack[i].node)
  {
    assert LevelFine(t, stack, Gone(sent), i);
    TodoNotGone(t, v, stack, sent, stack[i].node);
    if i == 0 {
      if v in Gone(sent) { BelowIsYounger(t, v, v); }
    } else {
      LevelNodesTodo(t, stack, i);
    }
  }

  lemma Begin(t: Shape, v: U64)
    requires WellFormed(t) && v in t
    ensures Progress(t, v, [Frame(v, SortedNames(t[v].children.Keys))], [])
  {
    var f := Frame(v, SortedNames(t[v].children.Keys));
    assert FrameOk(t, f);
    TodoPush(t, [], f);
    assert [] + [f] == [f];
    assert Todo(t, []) == [];
  }

  lemma Finished(t: Shape, v: U64, stack: seq<Frame>, sent: seq<U64>)
    requires WellFormed(t) && v in t && Progress(t, v, stack, sent)
    requires |stack| == 1 && stack[0].names == []
    ensures sent == PostOrder(t, v)
  {
    assert stack == [] + [stack[0]];
    TodoPush(t, [], stack[0]);
    assert Todo(t, []) == [];
  }

  /** An exhausted inner level: its node is childless by now and goes next. */
  lemma CloseLevel(t: Shape, v: U64, stack: seq<Frame>, sent: seq<U64>)
    requires WellFormed(t) && v in t && Progress(t, v, stack, sent)
    requires |stack| > 1 && stack[|stack| - 1].names == []
    ensures var u := stack[|stack| - 1].node;
            && Deletable(t, v, Gone(sent), u)
            && Progress(t, v, stack[..|stack| - 1], sent + [u])
            && |Todo(t, stack[..|stack| - 1])| < |Todo(t, stack)|
  {
    hide WellFormed, Post, SortedNames, PostOrder;
    var k := |stack| - 1;
    var top, front := stack[k], stack[..k];
    assert LevelFine(t, stack, Gone(sent), k);
    assert stack == front + [top];
    TodoPush(t, front, top);
    PostNothing(t, top.node);
    assert Todo(t, stack) == [top.node] + Todo(t, front);
    NodesAlive(t, v, stack, sent, k);
    NodesAlive(t, v, stack, sent, k - 1);
    LevelNodesTodo(t, stack, k);
    TodoNotGone(t, v, stack, sent, top.node);
    assert sent + [top.node] + Todo(t, front) == sent + Todo(t, stack);
    assert Gone(sent + [top.node]) == Gone(sent) + {top.node};
    forall i | 0 <= i < |front| ensures LevelFine(t, front, Gone(sent + [top.node]), i) {
      assert LevelFine(t, stack, Gone(sent), i);
    }
  }

  lemma PostNothing(t: Shape, v: U64)
    requires WellFormed(t) && v in t
    ensures Post(t, v, []) == []
  {
  }

  /** The head of a level's list, its subtree first. */
  lemma PostHead(t: Shape, f: Frame)
    requires WellFormed(t) && FrameOk(t, f) && f.names != []
    ensures var c := t[f.node].children[f.names[0]];
            && c in t && t[c].parent == Some(f.node) && f.node < c && Below(t, f.node, c)
            && FrameOk(t, Advance(f)) && FrameOk(t, Frame(c, SortedNames(t[c].children.Keys)))
            && Post(t, f.node, f.names)
            == Post(t, c, SortedNames(t[c].children.Keys)) + [c] + Post(t, f.node, f.names[1..])
            && (t[c].children == map[] ==> Post(t, c, SortedNames(t[c].children.Keys)) == [])
            && (forall u :: u in Post(t, c, SortedNames(t[c].children.Keys)) <==> Below(t, c, u))
  {
    assert ChildLinked(t, f.node, f.names[0]);
    var c := t[f.node].children[f.names[0]];
    assert ParentLinked(t, c);
    PostOrderMembers(t, c);
  }

  lemma ChildBelow(t: Shape, c: U64, n: Name)
    requires WellFormed(t) && c in t && n in t[c].children
    ensures Below(t, c, t[c].children[n])
  {
    assert ChildLinked(t, c, n) && ParentLinked(t, t[c].children[n]);
  }

  /** `u` is a live strict descendant of `v` all of whose children are gone, under a live
      parent. */
  ghost predicate Deletable(t: Shape, v: U64, gone: set<U64>, u: U64)
    requires WellFormed(t)
  {
    && u in t && u !in gone && Below(t, v, u)
    && (forall n | n in t[u].children :: t[u].children[n] in gone)
    && t[u].parent.Some? && t[u].parent.value in t && t[u].parent.value !in gone
    && (t[u].parent.value == v || Below(t, v, t[u].parent.value))
  }

  function Advance(f: Frame): Frame
    requires f.names != []
  {
    Frame(f.node, f.names[1..])
  }

  /** What comes first: the subtree of the next child, then the child. */
  lemma TodoHead(t: Shape, front: seq<Frame>, top: Frame)
    requires WellFormed(t) && FramesOk(t, front) && FrameOk(t, top) && top.names != []
    requires t[top.node].children[top.names[0]] in t && FrameOk(t, Advance(top))
    ensures var c := t[top.node].children[top.names[0]];
            var below := Post(t, c, SortedNames(t[c].children.Keys));
            && FramesOk(t, front + [top]) && FramesOk(t, front + [Advance(top)])
            && Todo(t, front + [top]) == below + [c] + Todo(t, front + [Advance(top)])
            && c in Todo(t, front + [top])
            && (forall u | Below(t, c, u) :: u in Todo(t, front + [top]))
            && (t[c].children == map[] ==> Todo(t, front + [top]) == [c] + Todo(t, front + [Advance(top)]))
  {
    hide WellFormed, Post, SortedNames, PostOrder, Todo, Below;
    PostHead(t, top);
    TodoPush(t, front, top);
    TodoPush(t, front, Advance(top));
    var c := t[top.node].children[top.names[0]];
    var own := if front == [] then [] else [top.node];
    Regroup(Post(t, c, SortedNames(t[c].children.Keys)), [c], Post(t, top.node, top.names[1..]), own, Todo(t, front));
  }

  lemma Regroup<T>(a: seq<T>, b: seq<T>, c: seq<T>, d: seq<T>, e: seq<T>)
    ensures (a + b + c) + d + e == a + b + (c + d + e)
  {
  }

  /** The next child of the innermost level, with its subtree still untouched. */
  lemma NextChild(t: Shape, v: U64, stack: seq<Frame>, sent: seq<U64>)
    requires WellFormed(t) && v in t && Progress(t, v, stack, sent)
    requires stack != [] && stack[|stack| - 1].names != []
    ensures var top := stack[|stack| - 1];
            && FrameOk(t, top)
            && var c := t[top.node].children[top.names[0]];
            && c in t && c !in Gone(sent) && Below(t, v, c) && top.node < c
            && t[c].parent == Some(top.node)
            && (forall n | n in t[c].children :: t[c].children[n] !in Gone(sent))
            && (t[c].children == map[] ==> Deletable(t, v, Gone(sent), c))
  {
    hide WellFormed, Post, SortedNames, PostOrder, Todo, Below, Settled, LevelFine, Gone, FramesOk;
    var top, front := stack[|stack| - 1], stack[..|stack| - 1];
    FrontOk(t, stack);
    PostHead(t, top);
    var c := t[top.node].children[top.names[0]];
    assert stack == front + [top];
    NodesAlive(t, v, stack, sent, |stack| - 1);
    TodoHead(t, front, top);
    TodoNotGone(t, v, stack, sent, c);
    forall n | n in t[c].children ensures t[c].children[n] !in Gone(sent) {
      ChildBelow(t, c, n);
      TodoNotGone(t, v, stack, sent, t[c].children[n]);
    }
  }

  /** The next child is childless: it is deleted at once. */
  lemma DeleteChild(t: Shape, v: U64, stack: seq<Frame>, sent: seq<U64>)
    requires WellFormed(t) && v in t && Progress(t, v, stack, sent)
    requires stack != [] && stack[|stack| - 1].names != []
    requires FrameOk(t, stack[|stack| - 1])
    requires var top := stack[|stack| - 1];
             t[top.node].children[top.names[0]] in t && t[t[top.node].children[top.names[0]]].children == map[]
    ensures var top := stack[|stack| - 1];
            var stack' := stack[..|stack| - 1] + [Advance(top)];
            && Progress(t, v, stack', sent + [t[top.node].children[top.names[0]]])
            && |Todo(t, stack')| < |Todo(t, stack)|
  {
    hide WellFormed, Post, SortedNames, PostOrder, Todo, Below;
    var top, front := stack[|stack| - 1], stack[..|stack| - 1];
    var c := t[top.node].children[top.names[0]];
    var stack' := front + [Advance(top)];
    PostHead(t, top);
    assert stack == front + [top];
    FrontOk(t, stack);
    TodoHead(t, front, top);
    assert sent + [c] + Todo(t, stack') == sent + Todo(t, stack);
    assert Gone(sent + [c]) == Gone(sent) + {c};
    assert top.names == [top.names[0]] + top.names[1..];
    forall i | 0 <= i < |stack'| ensures LevelFine(t, stack', Gone(sent + [c]), i) {
      assert LevelFine(t, stack, Gone(sent), i);
    }
  }

  /** The next child has children: a level is opened for it. */
  lemma OpenLevel(t: Shape, v: U64, stack: seq<Frame>, sent: seq<U64>)
    requires WellFormed(t) && v in t && Progress(t, v, stack, sent)
    requires stack != [] && stack[|stack| - 1].names != []
    requires FrameOk(t, stack[|stack| - 1])
    requires var top := stack[|stack| - 1];
             t[top.node].children[top.names[0]] in t
    ensures var top := stack[|stack| - 1];
            var c := t[top.node].children[top.names[0]];
            var stack' := stack[..|stack| - 1] + [Advance(top), Frame(c, SortedNames(t[c].children.Keys))];
            && Progress(t, v, stack', sent)
            && Todo(t, stack') == Todo(t, stack)
  {
    hide WellFormed, Post, SortedNames, PostOrder, Todo, Below;
    var top, front := stack[|stack| - 1], stack[..|stack| - 1];
    var c := t[top.node].children[top.names[0]];
    PostHead(t, top);
    var inner := Frame(c, SortedNames(t[c].children.Keys));
    var middle := front + [Advance(top)];
    var stack' := middle + [inner];
    assert stack' == front + [Advance(top), inner];
    assert stack == front + [top];
    FrontOk(t, stack);
    TodoHead(t, front, top);
    TodoPush(t, middle, inner);
    assert Todo(t, stack') == Todo(t, stack);
    assert top.names == [top.names[0]] + top.names[1..];
    forall i | 0 <= i < |stack'| ensures LevelFine(t, stack', Gone(sent), i) {
      if i < |stack| {
        assert LevelFine(t, stack, Gone(sent), i);
      } else {
        NamesCover(t, inner);
      }
    }
  }

  lemma NamesCover(t: Shape, f: Frame)
    requires f.node in t && f.names == SortedNames(t[f.node].children.Keys)
    ensures forall gone, current :: Settled(t, f, gone, current)
  {
  }
}
