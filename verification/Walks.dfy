/** The two deletion walks a client runs over its replica: `clean`, which empties the tree,
    and the delete action of the monitor's list command. Both keep an explicit stack of
    levels and delete while they walk; they differ in when a level's index advances. */
module Walks {
  import opened Protocol
  import opened Names
  import opened TreeShape
  import opened Snapshot
  import opened Replicas
  import opened ServerSpec
  import opened Runs
  import opened Emission
  import opened Refinement
  import opened PostOrders
  import opened WalkStack
  import opened WalkSteps

  /** A level of the stack: the children listed when it was opened, and a position. */
  datatype Level = Level(children: seq<(Name, U64)>, index: nat)

  /** `children()` of a property: its children in name order. */
  function Listing(r: Shape, u: U64): (list: seq<(Name, U64)>)
    requires u in r
    ensures |list| == |SortedNames(r[u].children.Keys)|
  {
    var names := SortedNames(r[u].children.Keys);
    seq(|names|, i requires 0 <= i < |names| => (names[i], r[u].children[names[i]]))
  }

  /** A log of deletes that were all answered OK. */
  function AllOk(uuids: seq<U64>): seq<(U64, Cause)> {
    seq(|uuids|, i requires 0 <= i < |uuids| => (uuids[i], OK))
  }

  lemma AllOkStep(uuids: seq<U64>, u: U64)
    ensures AllOk(uuids + [u]) == AllOk(uuids) + [(u, OK)]
  {
  }

  // ----- the levels and the abstract stack

  /** How many children of level `i` are done or being worked on. The monitor's walk is
      `eager`: it advances the index before it opens a level; `clean` only after closing it. */
  function Used(levels: seq<Level>, eager: bool, i: nat): nat
    requires i < |levels|
  {
    levels[i].index + (if !eager && i + 1 < |levels| then 1 else 0)
  }

  ghost predicate Matches(t: Shape, levels: seq<Level>, stack: seq<Frame>, eager: bool, i: int)
    requires |levels| == |stack| && 0 <= i < |stack|
  {
    && FrameOk(t, stack[i])
    && levels[i].children == Listing(t, stack[i].node)
    && Used(levels, eager, i) <= |levels[i].children|
    && stack[i].names == SortedNames(t[stack[i].node].children.Keys)[Used(levels, eager, i)..]
    && (i + 1 < |stack| ==>
          Used(levels, eager, i) > 0 && levels[i].children[Used(levels, eager, i) - 1].1 == stack[i + 1].node)
  }

  ghost predicate Mirrors(t: Shape, levels: seq<Level>, stack: seq<Frame>, eager: bool) {
    && |levels| == |stack|
    && forall i {:trigger Matches(t, levels, stack, eager, i)} ::
         0 <= i < |stack| ==> Matches(t, levels, stack, eager, i)
  }

  /** The loop invariant: `t` was the tree when the walk below `v` began, `done` are deleted
      so far, `left` is what the server still holds and `r` what the replica shows. */
  ghost predicate Walking(t: Shape, v: U64, left: Shape, r: Shape, levels: seq<Level>, stack: seq<Frame>,
                          done: seq<U64>, eager: bool)
  {
    && WellFormed(t) && v in t
    && levels != []
    && Progress(t, v, stack, done)
    && Mirrors(t, levels, stack, eager)
    && left == Prune(t, Gone(done))
    && Filled(t, v, Gone(done), r)
  }

  /** Termination measure: what is still to delete, then how old the innermost node is. */
  ghost function Remaining(t: Shape, stack: seq<Frame>): nat {
    if WellFormed(t) && FramesOk(t, stack) then |Todo(t, stack)| else 0
  }

  ghost function Slack(stack: seq<Frame>): nat {
    if stack == [] || stack[|stack| - 1].node >= UUID_LIMIT then 0
    else (UUID_LIMIT - stack[|stack| - 1].node) as nat
  }

  lemma RemainingIsTodo(t: Shape, v: U64, stack: seq<Frame>, done: seq<U64>)
    requires WellFormed(t) && v in t && Progress(t, v, stack, done)
    ensures FramesOk(t, stack) && Remaining(t, stack) == |Todo(t, stack)|
  {
  }

  lemma WalkBegins(t: Shape, v: U64, r: Shape, eager: bool)
    requires WellFormed(t) && v in t && Faithful(r, t) && v in r
    requires forall w | Below(t, v, w) :: w in Named(r)
    ensures Walking(t, v, t, r, [Level(Listing(r, v), 0)], [Frame(v, SortedNames(t[v].children.Keys))], [], eager)
  {
    var levels, stack := [Level(Listing(r, v), 0)], [Frame(v, SortedNames(t[v].children.Keys))];
    Begin(t, v);
    assert Gone([]) == {};
    PruneNothing(t);
    UntouchedShows(t, v, {}, r, v);
    assert Listing(r, v) == Listing(t, v);
    forall i | 0 <= i < |stack| ensures Matches(t, levels, stack, eager, i) {
      assert FrameOk(t, stack[0]);
    }
  }

  /** The innermost level is exhausted exactly when its frame is. */
  lemma LevelHead(t: Shape, v: U64, left: Shape, r: Shape, levels: seq<Level>, stack: seq<Frame>,
                  done: seq<U64>, eager: bool)
    requires Walking(t, v, left, r, levels, stack, done, eager)
    ensures |levels| == |stack| > 0
    ensures var level, top := levels[|levels| - 1], stack[|stack| - 1];
            && FrameOk(t, top)
            && (level.index >= |level.children| <==> top.names == [])
            && (top.names != [] ==> level.children[level.index].1 == t[top.node].children[top.names[0]])
  {
    assert Matches(t, levels, stack, eager, |stack| - 1);
  }

  lemma OlderThanLimit(t: Shape, c: U64)
    requires WellFormed(t) && c in t
    ensures c < UUID_LIMIT
  {
  }

  /** A child that has children, and the level its walk opens. */
  lemma WalkOpens(t: Shape, v: U64, left: Shape, r: Shape, levels: seq<Level>, stack: seq<Frame>,
                  done: seq<U64>, eager: bool)
    returns (stack': seq<Frame>)
    requires Walking(t, v, left, r, levels, stack, done, eager)
    requires WellFormed(left) && Faithful(r, left)
    requires levels[|levels| - 1].index < |levels[|levels| - 1].children|
    ensures var level := levels[|levels| - 1];
            var c := level.children[level.index].1;
            && c in r
            && (r[c].children != map[] ==>
                  && Walking(t, v, left, r, Pushed(levels, Listing(r, c), eager), stack', done, eager)
                  && Remaining(t, stack') == Remaining(t, stack)
                  && Slack(stack') < Slack(stack))
  {
    hide WellFormed, Progress, Faithful, Todo, Filled, SortedNames, Prune, Gone, Below, Deletable, Pushed;
    LevelHead(t, v, left, r, levels, stack, done, eager);
    NextChild(t, v, stack, done);
    var top, front := stack[|stack| - 1], stack[..|stack| - 1];
    var c := t[top.node].children[top.names[0]];
    UntouchedShows(t, v, Gone(done), r, c);
    OpenLevel(t, v, stack, done);
    stack' := front + [Advance(top), Frame(c, SortedNames(t[c].children.Keys))];
    assert Listing(r, c) == Listing(t, c);
    MirrorsPush(t, levels, stack, eager, c);
    RemainingIsTodo(t, v, stack, done);
    RemainingIsTodo(t, v, stack', done);
    assert c < UUID_LIMIT by { OlderThanLimit(t, c); }
  }

  /** The stack of levels after a new one is opened on the current child. */
  function Pushed(levels: seq<Level>, children: seq<(Name, U64)>, eager: bool): seq<Level>
    requires levels != []
  {
    (if eager then Advanced(levels) else levels) + [Level(children, 0)]
  }

  /** The innermost index moved on by one. */
  function Advanced(levels: seq<Level>): seq<Level>
    requires levels != []
  {
    var k := |levels| - 1;
    levels[k := levels[k].(index := levels[k].index + 1)]
  }

  lemma MirrorsPush(t: Shape, levels: seq<Level>, stack: seq<Frame>, eager: bool, c: U64)
    requires Mirrors(t, levels, stack, eager) && levels != [] && c in t
    requires stack[|stack| - 1].names != []
    requires levels[|levels| - 1].index < |levels[|levels| - 1].children|
    requires levels[|levels| - 1].children[levels[|levels| - 1].index].1 == c
    ensures Mirrors(t, Pushed(levels, Listing(t, c), eager),
                    stack[..|stack| - 1]
                    + [Advance(stack[|stack| - 1]), Frame(c, SortedNames(t[c].children.Keys))], eager)
  {
    hide SortedNames, Listing, Matches;
    var levels' := Pushed(levels, Listing(t, c), eager);
    var stack' := stack[..|stack| - 1] + [Advance(stack[|stack| - 1]), Frame(c, SortedNames(t[c].children.Keys))];
    forall i | 0 <= i < |stack'| ensures Matches(t, levels', stack', eager, i) {
      if i < |stack| - 1 {
        MatchesBelow(t, levels, stack, levels', stack', eager, i);
      } else if i == |stack| - 1 {
        MatchesUnderNew(t, levels, stack, levels', stack', eager);
      } else {
        FrameForAll(t, c);
        assert SortedNames(t[c].children.Keys)[0..] == SortedNames(t[c].children.Keys);
        NewMatches(t, levels', stack', eager, c);
      }
    }
  }

  lemma NewMatches(t: Shape, levels: seq<Level>, stack: seq<Frame>, eager: bool, c: U64)
    requires |levels| == |stack| > 0 && c in t
    requires levels[|levels| - 1] == Level(Listing(t, c), 0)
    requires stack[|stack| - 1] == Frame(c, SortedNames(t[c].children.Keys))
    ensures Matches(t, levels, stack, eager, |stack| - 1)
  {
    hide SortedNames, Listing;
    FrameForAll(t, c);
    assert SortedNames(t[c].children.Keys)[0..] == SortedNames(t[c].children.Keys);
  }

  /** Levels further out are not affected. */
  lemma MatchesBelow(t: Shape, levels: seq<Level>, stack: seq<Frame>, levels': seq<Level>, stack': seq<Frame>,
                     eager: bool, i: nat)
    requires |levels| == |stack| && |levels'| == |stack'| && i + 1 < |stack| && i + 1 < |stack'|
    requires levels[i] == levels'[i] && stack[i] == stack'[i] && stack[i + 1].node == stack'[i + 1].node
    requires Matches(t, levels, stack, eager, i)
    ensures Matches(t, levels', stack', eager, i)
  {
    hide SortedNames, Listing;
  }

  lemma MatchesUnderNew(t: Shape, levels: seq<Level>, stack: seq<Frame>, levels': seq<Level>, stack': seq<Frame>,
                        eager: bool)
    requires |levels| == |stack| > 0 && |levels'| == |stack'| == |stack| + 1
    requires Matches(t, levels, stack, eager, |stack| - 1) && stack[|stack| - 1].names != []
    requires levels[|levels| - 1].index < |levels[|levels| - 1].children|
    requires var k := |stack| - 1;
             && levels'[k] == (if eager then levels[k].(index := levels[k].index + 1) else levels[k])
             && stack'[k] == Advance(stack[k])
             && levels[k].children[levels[k].index].1 == stack'[k + 1].node
    ensures Matches(t, levels', stack', eager, |stack| - 1)
  {
    hide SortedNames, Listing;
    var k := |stack| - 1;
    var used := Used(levels, eager, k);
    assert SortedNames(t[stack[k].node].children.Keys)[used..][1..]
        == SortedNames(t[stack[k].node].children.Keys)[used + 1..];
  }

  lemma FrameForAll(t: Shape, c: U64)
    requires c in t
    ensures FrameOk(t, Frame(c, SortedNames(t[c].children.Keys)))
  {
  }

  /** A childless child: it can be deleted, and the walk goes on behind it. */
  lemma WalkDeletes(t: Shape, v: U64, left: Shape, r: Shape, levels: seq<Level>, stack: seq<Frame>,
                    done: seq<U64>, eager: bool)
    returns (stack': seq<Frame>)
    requires Walking(t, v, left, r, levels, stack, done, eager)
    requires WellFormed(left) && Faithful(r, left)
    requires levels[|levels| - 1].index < |levels[|levels| - 1].children|
    requires var level := levels[|levels| - 1];
             var c := level.children[level.index].1;
             c in r ==> r[c].children == map[]
    ensures var level := levels[|levels| - 1];
            var c := level.children[level.index].1;
            && c in left && c != ROOT && left[c].children == map[]
            && Walking(t, v, Remove(left, c), Remove(r, c), Advanced(levels), stack', done + [c], eager)
            && Remaining(t, stack') < Remaining(t, stack)
  {
    hide WellFormed, Progress, Faithful, Todo, Filled, SortedNames, Prune, Gone, Below, Deletable, Advanced, Remove;
    LevelHead(t, v, left, r, levels, stack, done, eager);
    NextChild(t, v, stack, done);
    var top, front := stack[|stack| - 1], stack[..|stack| - 1];
    var c := t[top.node].children[top.names[0]];
    UntouchedShows(t, v, Gone(done), r, c);
    DeletableShows(t, v, Gone(done), r, c);
    DeletableGone(t, v, done, r, c);
    DeleteChild(t, v, stack, done);
    stack' := front + [Advance(top)];
    MirrorsAdvance(t, levels, stack, eager);
    RemainingIsTodo(t, v, stack, done);
    RemainingIsTodo(t, v, stack', done + [c]);
  }

  lemma MirrorsAdvance(t: Shape, levels: seq<Level>, stack: seq<Frame>, eager: bool)
    requires Mirrors(t, levels, stack, eager) && levels != []
    requires stack[|stack| - 1].names != []
    ensures Mirrors(t, Advanced(levels), stack[..|stack| - 1] + [Advance(stack[|stack| - 1])], eager)
  {
    hide SortedNames, Listing, Matches;
    var levels' := Advanced(levels);
    var stack' := stack[..|stack| - 1] + [Advance(stack[|stack| - 1])];
    forall i | 0 <= i < |stack'| ensures Matches(t, levels', stack', eager, i) {
      if i < |stack| - 1 {
        MatchesBelow(t, levels, stack, levels', stack', eager, i);
      } else {
        MatchesAdvanced(t, levels, stack, levels', stack', eager);
      }
    }
  }

  lemma MatchesAdvanced(t: Shape, levels: seq<Level>, stack: seq<Frame>, levels': seq<Level>, stack': seq<Frame>,
                        eager: bool)
    requires |levels| == |stack| > 0 && |levels'| == |stack'| == |stack|
    requires Matches(t, levels, stack, eager, |stack| - 1) && stack[|stack| - 1].names != []
    requires var k := |stack| - 1;
             levels'[k] == levels[k].(index := levels[k].index + 1) && stack'[k] == Advance(stack[k])
    ensures Matches(t, levels', stack', eager, |stack| - 1)
  {
    hide SortedNames, Listing;
    var k := |stack| - 1;
    assert SortedNames(t[stack[k].node].children.Keys)[levels[k].index..][1..]
        == SortedNames(t[stack[k].node].children.Keys)[levels[k].index + 1..];
  }

  /** An exhausted inner level is closed: the node it belonged to is childless by now, and the
      level below still points at it. */
  lemma WalkCloses(t: Shape, v: U64, left: Shape, r: Shape, levels: seq<Level>, stack: seq<Frame>,
                   done: seq<U64>, eager: bool)
    requires Walking(t, v, left, r, levels, stack, done, eager)
    requires WellFormed(left) && Faithful(r, left)
    requires |levels| > 1 && levels[|levels| - 1].index >= |levels[|levels| - 1].children|
    ensures var front := levels[..|levels| - 1];
            var level := front[|front| - 1];
            var at := if eager then level.index - 1 else level.index;
            && |levels| == |stack|
            && 0 <= at < |level.children|
            && var u := level.children[at].1;
               && u in r && r[u].children == map[]
               && u in left && u != ROOT && left[u].children == map[]
               && Walking(t, v, Remove(left, u), Remove(r, u), if eager then front else Advanced(front),
                          stack[..|stack| - 1], done + [u], eager)
               && Remaining(t, stack[..|stack| - 1]) < Remaining(t, stack)
  {
    hide WellFormed, Progress, Faithful, Todo, Filled, SortedNames, Prune, Gone, Below, Deletable, Advanced, Remove;
    LevelHead(t, v, left, r, levels, stack, done, eager);
    CloseLevel(t, v, stack, done);
    var u := stack[|stack| - 1].node;
    assert Matches(t, levels, stack, eager, |stack| - 2);
    DeletableShows(t, v, Gone(done), r, u);
    DeletableGone(t, v, done, r, u);
    MirrorsPop(t, levels, stack, eager);
    RemainingIsTodo(t, v, stack, done);
    RemainingIsTodo(t, v, stack[..|stack| - 1], done + [u]);
  }

  lemma MirrorsPop(t: Shape, levels: seq<Level>, stack: seq<Frame>, eager: bool)
    requires Mirrors(t, levels, stack, eager) && |levels| > 1
    ensures var front := levels[..|levels| - 1];
            && Advanced(front) != []
            && Mirrors(t, if eager then front else Advanced(front), stack[..|stack| - 1], eager)
  {
    hide SortedNames, Listing, Matches;
    var front, stack' := levels[..|levels| - 1], stack[..|stack| - 1];
    var levels' := if eager then front else Advanced(front);
    forall i | 0 <= i < |stack'| ensures Matches(t, levels', stack', eager, i) {
      if i + 1 < |stack'| {
        MatchesBelow(t, levels, stack, levels', stack', eager, i);
      } else {
        MatchesUncovered(t, levels, stack, levels', stack', eager);
      }
    }
  }

  /** The level below a closed one becomes the innermost. */
  lemma MatchesUncovered(t: Shape, levels: seq<Level>, stack: seq<Frame>, levels': seq<Level>, stack': seq<Frame>,
                         eager: bool)
    requires |levels| == |stack| > 1 && |levels'| == |stack'| == |stack| - 1
    requires Matches(t, levels, stack, eager, |stack| - 2)
    requires var k := |stack| - 2;
             && levels'[k] == (if eager then levels[k] else levels[k].(index := levels[k].index + 1))
             && stack'[k] == stack[k]
    ensures Matches(t, levels', stack', eager, |stack| - 2)
  {
    hide SortedNames, Listing;
  }

  /** The last level is exhausted: everything below `v` has been deleted in post-order. */
  lemma WalkEnds(t: Shape, v: U64, left: Shape, r: Shape, levels: seq<Level>, stack: seq<Frame>,
                 done: seq<U64>, eager: bool)
    requires Walking(t, v, left, r, levels, stack, done, eager)
    requires |levels| == 1 && levels[0].index >= |levels[0].children|
    ensures done == PostOrder(t, v) && left == Prune(t, Gone(done))
  {
    LevelHead(t, v, left, r, levels, stack, done, eager);
    Finished(t, v, stack, done);
  }

  // ----- what is due next

  /** The two ways a round goes on with `child`: a level is entered for its children, or it is
      deleted. */
  ghost predicate Due(t: Shape, v: U64, left: Shape, r: Shape, child: U64, entered: seq<Level>, deleted: seq<Level>,
                      stack: seq<Frame>, inner: seq<Frame>, outer: seq<Frame>, done: seq<U64>, eager: bool)
  {
    && child in r
    && (r[child].children != map[] ==>
          && Walking(t, v, left, r, entered, inner, done, eager)
          && Remaining(t, inner) == Remaining(t, stack) && Slack(inner) < Slack(stack))
    && (r[child].children == map[] ==>
          && child in left && child != ROOT && left[child].children == map[]
          && Walking(t, v, Remove(left, child), Remove(r, child), deleted, outer, done + [child], eager)
          && Remaining(t, outer) < Remaining(t, stack))
  }

  lemma DueNext(t: Shape, v: U64, left: Shape, r: Shape, levels: seq<Level>, stack: seq<Frame>,
                done: seq<U64>, eager: bool)
    returns (inner: seq<Frame>, outer: seq<Frame>)
    requires Walking(t, v, left, r, levels, stack, done, eager)
    requires WellFormed(left) && Faithful(r, left)
    requires levels[|levels| - 1].index < |levels[|levels| - 1].children|
    ensures var level := levels[|levels| - 1];
            var child := level.children[level.index].1;
            && child in r
            && Due(t, v, left, r, child, Pushed(levels, Listing(r, child), eager), Advanced(levels),
                   stack, inner, outer, done, eager)
  {
    hide Walking, WellFormed, Faithful, Remaining, Slack, Listing, Pushed, Advanced, Remove;
    NotEmpty(t, v, left, r, levels, stack, done, eager);
    inner := WalkOpens(t, v, left, r, levels, stack, done, eager);
    var level := levels[|levels| - 1];
    var child := level.children[level.index].1;
    outer := stack;
    if r[child].children == map[] {
      outer := WalkDeletes(t, v, left, r, levels, stack, done, eager);
    }
  }

  lemma NotEmpty(t: Shape, v: U64, left: Shape, r: Shape, levels: seq<Level>, stack: seq<Frame>,
                 done: seq<U64>, eager: bool)
    requires Walking(t, v, left, r, levels, stack, done, eager)
    ensures levels != []
  {
  }

  lemma DueParent(t: Shape, v: U64, left: Shape, r: Shape, levels: seq<Level>, stack: seq<Frame>,
                  done: seq<U64>, eager: bool)
    requires Walking(t, v, left, r, levels, stack, done, eager)
    requires WellFormed(left) && Faithful(r, left)
    requires |levels| > 1 && levels[|levels| - 1].index >= |levels[|levels| - 1].children|
    ensures var front := levels[..|levels| - 1];
            var level := front[|front| - 1];
            var at := if eager then level.index - 1 else level.index;
            && |levels| == |stack|
            && 0 <= at < |level.children|
            && level.children[at].1 in r && r[level.children[at].1].children == map[]
            && Due(t, v, left, r, level.children[at].1, front, if eager then front else Advanced(front),
                   stack, stack, stack[..|stack| - 1], done, eager)
  {
    hide Walking, WellFormed, Faithful, Remaining, Slack, Listing, Advanced, Remove;
    WalkCloses(t, v, left, r, levels, stack, done, eager);
  }

  lemma RootShown(s: Server, c: Conn, r: Replica)
    requires InSync(s, c, r)
    ensures ROOT in r.shape
  {
    InSyncFaithful(s, c, r);
  }

  // ----- the client that walks

  /** A signed-in client, the server it talks to, and the deletes it has sent with the cause
      each was answered with. Its reader consumes the stream in order; a request waits for its
      answer, while announcements behind the answer may be consumed at any later time. `drained`
      is the replica once they all are. */
  class Walker {
    const conn: Conn
    var server: Server
    var taken: nat
    var replica: Replica
    var log: seq<(U64, Cause)>
    ghost var drained: Replica

    ghost predicate Valid()
      reads this
    {
      InSync(server, conn, drained) && Behind(server, conn, taken, replica, drained)
    }

    constructor (conn: Conn, server: Server, taken: nat, replica: Replica, ghost drained: Replica)
      requires InSync(server, conn, drained) && Behind(server, conn, taken, replica, drained)
      ensures Valid() && this.conn == conn && this.server == server && log == []
      ensures this.taken == taken && this.replica == replica && this.drained == drained
    {
      this.conn, this.server, this.taken, this.replica, this.log := conn, server, taken, replica, [];
      this.drained := drained;
    }

    /** The reader consumes any number of the messages that have been sent. */
    method CatchUp()
      requires Valid()
      modifies `taken, `replica
      ensures Valid()
    {
      hide InSync, Replay, Shows;
      var n: nat :| taken <= n <= |server.outbox[conn]|;
      CatchesUp(server, conn, taken, replica, drained, n);
      replica, taken := Replay(Some(replica), server.outbox[conn][taken..n]).value, n;
    }

    /** `children()`: whenever it is called, it lists what the drained replica would. */
    method Children(u: U64) returns (list: seq<(Name, U64)>)
      requires Valid() && u in drained.shape
      modifies `taken, `replica
      ensures Valid() && list == Listing(drained.shape, u)
    {
      hide InSync, Behind, SortedNames;
      CatchUp();
      BehindShows(server, conn, taken, replica, drained);
      list := Listing(replica.shape, u);
    }

    /** `childrenSize()`. */
    method ChildrenSize(u: U64) returns (size: nat)
      requires Valid() && u in drained.shape
      modifies `taken, `replica
      ensures Valid() && size == |drained.shape[u].children|
    {
      hide InSync, Behind;
      CatchUp();
      BehindShows(server, conn, taken, replica, drained);
      size := |replica.shape[u].children|;
    }

    /** Sends a request and waits for its answer. */
    method Request(m: Message) returns (answer: Packet)
      requires Valid() && IsStructural(m) && Admissible(server, Receive(conn, 0, m))
      requires WellFormed(server.nodes.shape) && Settles(server, conn, drained, 0, m)
      modifies `server, `taken, `replica, `drained
      ensures Valid() && WellFormed(old(server.nodes.shape))
      ensures server == Step(old(server), Receive(conn, 0, m))
      ensures old(conn in server.outbox) && conn in server.outbox
      ensures old(|server.outbox[conn]|) < |server.outbox[conn]|
      ensures answer == server.outbox[conn][old(|server.outbox[conn]|)]
      ensures Replay(Some(old(drained)), server.outbox[conn][old(|server.outbox[conn]|)..]) == Some(drained)
    {
      hide InSync, Replay, Shows, WellFormed, Admissible;
      var first := |server.outbox[conn]|;
      ghost var before := server;
      server := Step(server, Receive(conn, 0, m));
      answer := server.outbox[conn][first];
      var n: nat :| first < n <= |server.outbox[conn]|;
      RequestMoves(before, conn, taken, replica, drained, 0, m, n);
      replica, taken := Replay(Some(replica), server.outbox[conn][taken..n]).value, n;
      drained := Replay(Some(drained), server.outbox[conn][first..]).value;
    }

    /** `loadChildren(true)`. */
    method LoadChildren(v: U64)
      requires Valid() && v in drained.shape
      modifies `server, `taken, `replica, `drained
      ensures Valid()
      ensures server.nodes == old(server.nodes)
      ensures v in drained.shape && v in server.nodes.shape
      ensures forall w | Below(server.nodes.shape, v, w) :: w in Named(drained.shape)
    {
      hide Behind, Replay, Step, WellFormed, TableInvariant, LinksInvariant, Tracks, Live, Faithful;
      InSyncFaithful(server, conn, drained);
      QueryAnswered(server, conn, drained, 0, v);
      SnapshotSettles(server, conn, drained, 0, v);
      var _ := Request(TreeInfoRequest(v, ".", 1));
    }

    /** `destroy()`: the vertex leaves both trees exactly if it is there and childless. */
    method Destroy(u: U64) returns (ok: bool)
      requires Valid()
      requires !(u == ROOT && server.nodes.shape[ROOT].children == map[])
      modifies `server, `taken, `replica, `drained, `log
      ensures Valid()
      ensures var t := old(server.nodes.shape);
              var cause := if u !in t then NOT_FOUND else if t[u].children != map[] then NOT_EMPTY else OK;
              && ok == (cause == OK)
              && log == old(log) + [(u, cause)]
              && server.nodes.shape == (if ok then Remove(t, u) else t)
              && drained.shape == (if ok then Remove(old(drained.shape), u) else old(drained.shape))
    {
      hide Behind, Replay, Remove, Tracks, Live, TableInvariant, LinksInvariant, WellFormed, Step, Settles, Faithful;
      InSyncFaithful(server, conn, drained);
      DeleteReplies(server, conn, drained, 0, u);
      var answer := Request(DeleteRequest(u));
      var cause := answer.message.cause;
      log := log + [(u, cause)];
      ok := cause == OK;
    }

    /** Loads the subtree and opens the outermost level. */
    method Start(v: U64, ghost eager: bool) returns (levels: seq<Level>, ghost stack: seq<Frame>)
      requires Valid() && v in drained.shape
      modifies `server, `taken, `replica, `drained
      ensures Valid() && WellFormed(old(server.nodes.shape)) && server.nodes == old(server.nodes)
      ensures v in server.nodes.shape && levels != []
      ensures Walking(server.nodes.shape, v, server.nodes.shape, drained.shape, levels, stack, [], eager)
    {
      hide WellFormed, InSync, Behind, Walking, Faithful, SortedNames, Listing;
      InSyncFaithful(server, conn, drained);
      LoadChildren(v);
      InSyncFaithful(server, conn, drained);
      var all := Children(v);
      levels := [Level(all, 0)];
      stack := [Frame(v, SortedNames(server.nodes.shape[v].children.Keys))];
      WalkBegins(server.nodes.shape, v, drained.shape, eager);
    }

    /** A round of either walk goes on with `child`: the children listed for a new level, or
        None if there are none and the child has been deleted. */
    method Visit(child: U64, ghost t: Shape, ghost v: U64, ghost entered: seq<Level>, ghost deleted: seq<Level>,
                 ghost stack: seq<Frame>, ghost inner: seq<Frame>, ghost outer: seq<Frame>,
                 ghost done: seq<U64>, ghost eager: bool, ghost base: seq<(U64, Cause)>)
      returns (list: Option<seq<(Name, U64)>>, ghost next: seq<Frame>, ghost done': seq<U64>)
      requires Valid() && log == base + AllOk(done)
      requires Due(t, v, server.nodes.shape, drained.shape, child, entered, deleted, stack, inner, outer, done, eager)
      modifies `server, `taken, `replica, `drained, `log
      ensures Valid() && log == base + AllOk(done')
      ensures Walking(t, v, server.nodes.shape, drained.shape, if list.Some? then entered else deleted, next,
                      done', eager)
      ensures list.Some? ==> child in old(drained.shape) && list.value == Listing(old(drained.shape), child)
      ensures list.Some? ==> Remaining(t, next) == Remaining(t, stack) && Slack(next) < Slack(stack)
      ensures list.None? ==> Remaining(t, next) < Remaining(t, stack)
      ensures list.Some? <==> old(child in drained.shape && drained.shape[child].children != map[])
    {
      hide InSync, Behind, Walking, Remaining, Slack, Remove, SortedNames, Listing;
      var size := ChildrenSize(child);
      if size != 0 {
        var below := Children(child);
        return Some(below), inner, done;
      }
      var _ := Destroy(child);
      AllOkStep(done, child);
      return None, outer, done + [child];
    }

    /** `clean`: empties the tree. */
    method Clean()
      requires Valid()
      modifies `server, `taken, `replica, `drained, `log
      ensures Valid()
      ensures log == old(log) + AllOk(PostOrder(old(server.nodes.shape), ROOT))
      ensures server.nodes.shape == map[ROOT := ROOT_VERTEX]
      ensures drained.shape == map[ROOT := ROOT_VERTEX]
    {
      hide WellFormed, InSync, Behind, Walking, Prune, Faithful, Remaining, Slack, Gone, Remove, SortedNames;
      hide PostOrder, Filled, Listing, Due;
      RootShown(server, conn, drained);
      ghost var t, done: seq<U64> := server.nodes.shape, [];
      var levels;
      ghost var stack;
      levels, stack := Start(ROOT, false);
      while true
        invariant Valid() && levels != []
        invariant Walking(t, ROOT, server.nodes.shape, drained.shape, levels, stack, done, false)
        invariant log == old(log) + AllOk(done)
        decreases Remaining(t, stack), Slack(stack)
      {
        InSyncFaithful(server, conn, drained);
        ghost var inner, outer, entered := stack, stack, levels;
        if levels[|levels| - 1].index >= |levels[|levels| - 1].children| {
          if |levels| == 1 {
            WalkEnds(t, ROOT, server.nodes.shape, drained.shape, levels, stack, done, false);
          } else {
            DueParent(t, ROOT, server.nodes.shape, drained.shape, levels, stack, done, false);
            outer := stack[..|stack| - 1];
          }
          levels := levels[..|levels| - 1];
          if levels == [] {
            break;
          }
          entered := levels;
        } else {
          inner, outer := DueNext(t, ROOT, server.nodes.shape, drained.shape, levels, stack, done, false);
          var level := levels[|levels| - 1];
          entered := Pushed(levels, Listing(drained.shape, level.children[level.index].1), false);
        }
        var level := levels[|levels| - 1];
        var child := level.children[level.index].1;
        var list;
        list, stack, done :=
          Visit(child, t, ROOT, entered, Advanced(levels), stack, inner, outer, done, false, old(log));
        if list.Some? {
          levels := levels + [Level(list.value, 0)];
          continue;
        }
        levels := levels[|levels| - 1 := level.(index := level.index + 1)];
      }
      InSyncFaithful(server, conn, drained);
      OnlyRootLeft(t, done, drained.shape);
    }

    /** The monitor's list command with the delete action: deletes everything below `v`. */
    method DeleteBelow(v: U64)
      requires Valid() && v in drained.shape
      modifies `server, `taken, `replica, `drained, `log
      ensures Valid()
      ensures WellFormed(old(server.nodes.shape)) && v in old(server.nodes.shape)
      ensures log == old(log) + AllOk(PostOrder(old(server.nodes.shape), v))
      ensures server.nodes.shape == Prune(old(server.nodes.shape), Gone(PostOrder(old(server.nodes.shape), v)))
    {
      hide WellFormed, InSync, Behind, Walking, Prune, Faithful, Remaining, Slack, Gone, Remove, SortedNames;
      hide PostOrder, Filled, Listing, Due;
      ghost var t, done: seq<U64> := server.nodes.shape, [];
      var levels;
      ghost var stack;
      levels, stack := Start(v, true);
      while true
        invariant Valid() && levels != []
        invariant Walking(t, v, server.nodes.shape, drained.shape, levels, stack, done, true)
        invariant log == old(log) + AllOk(done)
        decreases Remaining(t, stack), Slack(stack)
      {
        InSyncFaithful(server, conn, drained);
        var level := levels[|levels| - 1];
        var list;
        if |level.children| <= level.index {
          if |levels| == 1 {
            WalkEnds(t, v, server.nodes.shape, drained.shape, levels, stack, done, true);
          } else {
            DueParent(t, v, server.nodes.shape, drained.shape, levels, stack, done, true);
          }
          levels := levels[..|levels| - 1];
          if levels == [] {
            break;
          }
          level := levels[|levels| - 1];
          ghost var outer := stack[..|stack| - 1];
          list, stack, done := Visit(level.children[level.index - 1].1, t, v, levels, levels, stack, stack, outer,
                                     done, true, old(log));
          continue;
        }
        ghost var inner, outer := DueNext(t, v, server.nodes.shape, drained.shape, levels, stack, done, true);
        levels := levels[|levels| - 1 := level.(index := level.index + 1)];
        var child := level.children[level.index].1;
        ghost var entered := levels + [Level(Listing(drained.shape, child), 0)];
        list, stack, done := Visit(child, t, v, entered, levels, stack, inner, outer, done, true, old(log));
        if list.Some? {
          levels := levels + [Level(list.value, 0)];
        }
      }
    }
  }
}
