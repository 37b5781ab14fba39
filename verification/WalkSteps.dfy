/** What one request of a deletion walk does to the server tree and to the replica of the
    client that sends it. */
module WalkSteps {
  import opened Protocol
  import opened Names
  import opened TreeShape
  import opened Snapshot
  import opened Replicas
  import opened ServerSpec
  import opened Runs
  import opened Emission
  import opened Refinement
  import opened ReplicaTheorems
  import opened PostOrders
  import opened WalkStack

  /** `r` is the replica of a signed-in client that has consumed all it was sent. */
  ghost predicate InSync(s: Server, c: Conn, r: Replica) {
    && Invariant(s) && !s.stopped
    && c in s.table.connected && Live(s, c) && Tracks(s, c)
    && Replay(None, Stream(s, c)) == Some(r)
  }

  lemma {:induction false} InSyncFaithful(s: Server, c: Conn, r: Replica)
    requires InSync(s, c, r)
    ensures WellFormed(s.nodes.shape) && Faithful(r.shape, s.nodes.shape) && c in s.outbox
  {
    LiveInOutbox(s, c);
  }

  predicate IsStructural(m: Message) {
    m.DeleteRequest? || m.TreeInfoRequest?
  }

  /** A delete or a query of the client, with its replies consumed, leaves it in step. */
  lemma {:induction false} RequestKeepsSync(s: Server, c: Conn, r: Replica, trId: U16, m: Message)
    requires InSync(s, c, r) && IsStructural(m) && Admissible(s, Receive(c, trId, m))
    ensures WellFormed(s.nodes.shape)
    ensures var s' := Step(s, Receive(c, trId, m));
            && c in s.outbox && c in s'.outbox && s.outbox[c] <= s'.outbox[c]
            && Replay(Some(r), s'.outbox[c][|s.outbox[c]|..]).Some?
            && InSync(s', c, Replay(Some(r), s'.outbox[c][|s.outbox[c]|..]).value)
  {
    hide Tracks, Live, Replay, WellFormed, TableInvariant, LinksInvariant, NodesInvariant;
    var e := Receive(c, trId, m);
    InSyncFaithful(s, c, r);
    RequestKeepsTable(s, c, trId, m);
    StepKeepsInvariant(s, e);
    TracksStep(s, e, c);
    LiveChanges(s, e, c);
    StreamsGrow(s, e, c);
    TracksReplays(Step(s, e), c);
    var tail := Step(s, e).outbox[c][|s.outbox[c]|..];
    assert Stream(Step(s, e), c) == Stream(s, c) + tail;
    ReplayAppend(None, Stream(s, c), tail);
  }

  lemma TracksReplays(s: Server, c: Conn)
    requires Tracks(s, c) && Live(s, c)
    ensures Replay(None, Stream(s, c)).Some?
  {
  }

  lemma RequestKeepsTable(s: Server, c: Conn, trId: U16, m: Message)
    requires WellFormed(s.nodes.shape) && IsStructural(m)
    ensures Handle(s, c, trId, m).table == s.table && Handle(s, c, trId, m).stopped == s.stopped
  {
    hide WellFormed, Query;
  }

  /** An accepted delete: answered OK, and gone from both trees. */
  lemma {:induction false} DeleteAccepted(s: Server, c: Conn, r: Replica, trId: U16, u: U64)
    requires InSync(s, c, r) && WellFormed(s.nodes.shape)
    requires u in s.nodes.shape && u != ROOT && s.nodes.shape[u].children == map[]
    ensures var s' := Step(s, Receive(c, trId, DeleteRequest(u)));
            && c in s.outbox && c in s'.outbox && |s.outbox[c]| < |s'.outbox[c]|
            && s'.outbox[c][|s.outbox[c]|] == Packet(trId, DeleteResponse(OK), Some(DeleteRequest(u)))
            && s'.nodes.shape == Remove(s.nodes.shape, u)
            && Replay(Some(r), s'.outbox[c][|s.outbox[c]|..]).Some?
            && Replay(Some(r), s'.outbox[c][|s.outbox[c]|..]).value.shape == Remove(r.shape, u)
  {
    hide Step, Replay, WellFormed, Tracks, Invariant;
    InSyncFaithful(s, c, r);
    var e := Receive(c, trId, DeleteRequest(u));
    DeleteEmits(s, e, c);
    LiveHasCopies(s, c);
    var answer := Packet(trId, DeleteResponse(OK), Some(DeleteRequest(u)));
    var n := Copies(s, c);
    assert Step(s, e).outbox[c][|s.outbox[c]|..] == [answer] + Repeat(DeleteNotice(u), n);
    AcceptedReplies(r, s.nodes.shape, u, answer, n);
  }

  lemma {:induction false} AcceptedReplies(r: Replica, t: Shape, u: U64, answer: Packet, n: nat)
    requires WellFormed(t) && Faithful(r.shape, t) && u in t && u != ROOT && t[u].children == map[]
    requires answer.answers == Some(DeleteRequest(u)) && answer.message == DeleteResponse(OK) && n > 0
    ensures Replay(Some(r), [answer] + Repeat(DeleteNotice(u), n)).Some?
    ensures Replay(Some(r), [answer] + Repeat(DeleteNotice(u), n)).value.shape == Remove(r.shape, u)
  {
    hide Replay;
    DeleteAnswered(r, t, u, answer);
    var r1 := ApplySignedIn(r, answer);
    var r2 := ApplySignedIn(r1, DeleteNotice(u));
    assert RemoveNodes(AddNodes(r.shape, []), [u]) == Remove(r.shape, u);
    assert r2.shape == Remove(r.shape, u);
    ReplayStep(Some(r), [answer], DeleteNotice(u));
    RemoveForgets(r.shape, u);
    RepeatedDelete(r2, u, n - 1);
    assert [answer] + Repeat(DeleteNotice(u), n)
        == ([answer] + [DeleteNotice(u)]) + Repeat(DeleteNotice(u), n - 1);
    ReplayAppend(Some(r), [answer] + [DeleteNotice(u)], Repeat(DeleteNotice(u), n - 1));
  }

  function Refusal(s: Server, trId: U16, u: U64): Packet {
    Packet(trId, DeleteResponse(if u in s.nodes.shape then NOT_EMPTY else NOT_FOUND), Some(DeleteRequest(u)))
  }

  lemma RefusalSent(s: Server, c: Conn, trId: U16, u: U64)
    requires c in s.outbox && WellFormed(s.nodes.shape)
    requires u !in s.nodes.shape || s.nodes.shape[u].children != map[]
    ensures var s' := Step(s, Receive(c, trId, DeleteRequest(u)));
            && c in s'.outbox && s'.outbox[c] == s.outbox[c] + [Refusal(s, trId, u)]
            && s'.nodes == s.nodes
  {
    hide WellFormed, Broadcast, Remove;
  }

  /** A refused delete changes neither tree, and says why. */
  lemma {:induction false} DeleteRefused(s: Server, c: Conn, r: Replica, trId: U16, u: U64)
    requires InSync(s, c, r) && WellFormed(s.nodes.shape)
    requires u !in s.nodes.shape || s.nodes.shape[u].children != map[]
    ensures var s' := Step(s, Receive(c, trId, DeleteRequest(u)));
            && c in s.outbox && c in s'.outbox && |s.outbox[c]| < |s'.outbox[c]|
            && s'.outbox[c][|s.outbox[c]|] == Refusal(s, trId, u)
            && s'.nodes.shape == s.nodes.shape
            && Replay(Some(r), s'.outbox[c][|s.outbox[c]|..]) == Some(r)
  {
    hide Step, WellFormed, Tracks, Invariant, Replay;
    InSyncFaithful(s, c, r);
    RefusalSent(s, c, trId, u);
    var s' := Step(s, Receive(c, trId, DeleteRequest(u)));
    var answer := Refusal(s, trId, u);
    assert s'.outbox[c][|s.outbox[c]|..] == [] + [answer];
    ReplayNothing(r);
    ReplayStep(Some(r), [], answer);
  }

  lemma SnapshotSent(s: Server, c: Conn, trId: U16, v: U64)
    requires c in s.outbox && WellFormed(s.nodes.shape) && v in s.nodes.shape
    ensures var s' := Step(s, Receive(c, trId, TreeInfoRequest(v, ".", 1)));
            && s'.nodes == s.nodes
            && c in s'.outbox
            && s'.outbox[c]
            == s.outbox[c] + [Packet(trId, TreeInfoResponse(PreOrder(s.nodes.shape, v, true)),
                                     Some(TreeInfoRequest(v, ".", 1)))]
  {
    hide WellFormed, PreOrder;
  }

  lemma QueryFills(r: Shape, t: Shape, v: U64)
    requires WellFormed(t) && Faithful(r, t) && v in r
    ensures v in t && v in AddNodes(r, PreOrder(t, v, true))
    ensures forall w | Below(t, v, w) :: w in Named(AddNodes(r, PreOrder(t, v, true)))
  {
    hide WellFormed, PreOrder;
    assert Projects(r, t, v);
    SnapshotExact(t, v, true);
    WellFormedLinked(t);
    AddNodesFaithful(r, t, PreOrder(t, v, true));
    assert forall w | Below(t, v, w) :: w in Uuids(PreOrder(t, v, true));
  }

  lemma {:induction false} SnapshotApplied(r: Replica, answer: Packet)
    requires answer.answers.Some? && answer.answers.value.TreeInfoRequest? && answer.message.TreeInfoResponse?
    ensures Replay(Some(r), [answer]) == Some(Reshape(r, AddNodes(r.shape, answer.message.nodeToAddList)))
  {
    hide Reshape, AddNodes;
    ReplayNothing(r);
    ReplayStep(Some(r), [], answer);
    assert [] + [answer] == [answer];
  }

  /** A recursive query of a known vertex: the replica then names all that is below it. */
  lemma {:induction false} QueryAnswered(s: Server, c: Conn, r: Replica, trId: U16, v: U64)
    requires InSync(s, c, r) && WellFormed(s.nodes.shape) && v in r.shape
    ensures v in s.nodes.shape
    ensures var s' := Step(s, Receive(c, trId, TreeInfoRequest(v, ".", 1)));
            && c in s.outbox && c in s'.outbox && s.outbox[c] <= s'.outbox[c]
            && s'.nodes == s.nodes
            && Replay(Some(r), s'.outbox[c][|s.outbox[c]|..]).Some?
            && var r' := Replay(Some(r), s'.outbox[c][|s.outbox[c]|..]).value;
               && r'.shape == AddNodes(r.shape, PreOrder(s.nodes.shape, v, true))
               && v in r'.shape
               && (forall w | Below(s.nodes.shape, v, w) :: w in Named(r'.shape))
  {
    hide Step, Tracks, Live, Replay, WellFormed, Faithful, Invariant, PreOrder, AddNodes, Named, Below;
    InSyncFaithful(s, c, r);
    QueryFills(r.shape, s.nodes.shape, v);
    SnapshotSent(s, c, trId, v);
    var s' := Step(s, Receive(c, trId, TreeInfoRequest(v, ".", 1)));
    var answer := Packet(trId, TreeInfoResponse(PreOrder(s.nodes.shape, v, true)),
                         Some(TreeInfoRequest(v, ".", 1)));
    assert s'.outbox[c][|s.outbox[c]|..] == [answer];
    SnapshotApplied(r, answer);
  }

  // ----- the notification may come late

  /** Once a delete is answered, every other vertex already shows the children it will have
      after the announcement, so the walk need not wait for it. */
  lemma AnswerShowsChildren(r: Shape, u: U64, v: U64)
    requires v in r && v != u && (u in r ==> r[u].parent != Some(u))
    ensures v in Unlink(r, u) && v in Remove(r, u)
    ensures Unlink(r, u)[v].children == Remove(r, u)[v].children
  {
  }

  /** Nor does it matter whether the announcement of one delete comes before or after the
      answer to the next. */
  lemma LateNoticeCommutes(r: Shape, a: U64, b: U64)
    requires a != b && (b in r ==> r[b].parent != Some(a)) && (a in r ==> r[a].parent != Some(a))
    ensures Remove(Unlink(r, b), a) == Unlink(Remove(r, a), b)
  {
    var x, y := Remove(Unlink(r, b), a), Unlink(Remove(r, a), b);
    assert x.Keys == y.Keys;
    forall v | v in x ensures x[v] == y[v] {
      assert x[v].children == y[v].children;
    }
  }

  // ----- a client that has not consumed everything

  /** Every vertex of the drained replica is there, with the children it will have. */
  ghost predicate Shows(r: Shape, full: Shape) {
    full.Keys <= r.Keys && forall v | v in full :: r[v] == full[v]
  }

  ghost predicate ShowsAt(stream: seq<Packet>, n: int, full: Replica) {
    && 0 <= n <= |stream| && Replay(None, stream[..n]).Some?
    && Shows(Replay(None, stream[..n]).value.shape, full.shape)
  }

  /** The client has consumed `taken` messages; from there on its replica shows what the drained
      one shows. */
  ghost predicate Behind(s: Server, c: Conn, taken: nat, r: Replica, full: Replica) {
    && c in s.outbox && taken <= |s.outbox[c]|
    && Replay(None, s.outbox[c][..taken]) == Some(r)
    && forall n {:trigger ShowsAt(s.outbox[c], n, full)} ::
         taken <= n <= |s.outbox[c]| ==> ShowsAt(s.outbox[c], n, full)
  }

  lemma BehindShows(s: Server, c: Conn, taken: nat, r: Replica, full: Replica)
    requires Behind(s, c, taken, r, full)
    ensures Shows(r.shape, full.shape)
  {
    assert ShowsAt(s.outbox[c], taken, full);
  }

  /** Consuming more. */
  lemma {:induction false} CatchesUp(s: Server, c: Conn, taken: nat, r: Replica, full: Replica, n: nat)
    requires Behind(s, c, taken, r, full) && taken <= n <= |s.outbox[c]|
    ensures Replay(Some(r), s.outbox[c][taken..n]).Some?
    ensures Behind(s, c, n, Replay(Some(r), s.outbox[c][taken..n]).value, full)
  {
    hide Replay, Shows;
    var stream := s.outbox[c];
    assert stream[..n] == stream[..taken] + stream[taken..n];
    ReplayAppend(None, stream[..taken], stream[taken..n]);
    assert ShowsAt(stream, n, full);
  }

  /** Once the first reply to `m` is consumed, the replica shows what it will show when all the
      replies are. */
  ghost predicate Settles(s: Server, c: Conn, full: Replica, trId: U16, m: Message)
    requires WellFormed(s.nodes.shape)
  {
    var s' := Step(s, Receive(c, trId, m));
    && c in s.outbox && c in s'.outbox && s.outbox[c] <= s'.outbox[c] && |s.outbox[c]| < |s'.outbox[c]|
    && Replay(Some(full), s'.outbox[c][|s.outbox[c]|..]).Some?
    && var full' := Replay(Some(full), s'.outbox[c][|s.outbox[c]|..]).value;
       forall n {:trigger ShowsAt(s'.outbox[c], n, full')} ::
         |s.outbox[c]| < n <= |s'.outbox[c]| ==> ShowsAt(s'.outbox[c], n, full')
  }

  lemma {:induction false} PrefixReplay(stream: seq<Packet>, tail: seq<Packet>, r: Replica, i: nat)
    requires Replay(None, stream) == Some(r) && i <= |tail|
    ensures Replay(None, (stream + tail)[..|stream| + i]) == Replay(Some(r), tail[..i])
  {
    assert (stream + tail)[..|stream| + i] == stream + tail[..i];
    ReplayAppend(None, stream, tail[..i]);
  }

  lemma ShowsItself(r: Shape)
    ensures Shows(r, r)
  {
  }

  /** A single reply settles at once. */
  lemma {:induction false} SingleSettles(s: Server, c: Conn, full: Replica, trId: U16, m: Message, p: Packet)
    requires WellFormed(s.nodes.shape) && c in s.outbox && Replay(None, s.outbox[c]) == Some(full)
    requires var s' := Step(s, Receive(c, trId, m)); c in s'.outbox && s'.outbox[c] == s.outbox[c] + [p]
    ensures Settles(s, c, full, trId, m)
  {
    hide Step, WellFormed, Replay, ApplySignedIn, Shows;
    var s' := Step(s, Receive(c, trId, m));
    var stream, stream' := s.outbox[c], s'.outbox[c];
    assert stream'[|stream|..] == [] + [p];
    ReplayNothing(full);
    ReplayStep(Some(full), [], p);
    var full' := Replay(Some(full), [] + [p]).value;
    forall n | |stream| < n <= |stream'| ensures ShowsAt(stream', n, full') {
      PrefixReplay(stream, [] + [p], full, 1);
      assert ([] + [p])[..1] == [] + [p];
      ShowsItself(full'.shape);
    }
  }

  lemma UnlinkedShows(r: Shape, u: U64)
    requires u in r ==> r[u].parent != Some(u)
    ensures Shows(Unlink(r, u), Remove(r, u))
  {
  }

  lemma {:induction false} DeleteSettles(s: Server, c: Conn, full: Replica, trId: U16, u: U64)
    requires InSync(s, c, full) && WellFormed(s.nodes.shape)
    requires u in s.nodes.shape && u != ROOT && s.nodes.shape[u].children == map[]
    ensures Settles(s, c, full, trId, DeleteRequest(u))
  {
    hide Step, Replay, WellFormed, Tracks, Invariant, Shows, Faithful;
    InSyncFaithful(s, c, full);
    DeleteAccepted(s, c, full, trId, u);
    var e := Receive(c, trId, DeleteRequest(u));
    DeleteEmits(s, e, c);
    LiveHasCopies(s, c);
    var answer := Packet(trId, DeleteResponse(OK), Some(DeleteRequest(u)));
    var stream, stream' := s.outbox[c], Step(s, e).outbox[c];
    var tail := [answer] + Repeat(DeleteNotice(u), Copies(s, c));
    assert stream' == stream + tail && stream'[|stream|..] == tail;
    var full' := Replay(Some(full), tail).value;
    forall n | |stream| < n <= |stream'| ensures ShowsAt(stream', n, full') {
      PrefixReplay(stream, tail, full, n - |stream|);
      DeletePrefixShows(full, s.nodes.shape, u, answer, Copies(s, c), n - |stream|);
    }
  }

  lemma {:induction false} DeletePrefixShows(full: Replica, t: Shape, u: U64, answer: Packet, k: nat, i: nat)
    requires WellFormed(t) && Faithful(full.shape, t) && u in t && u != ROOT && t[u].children == map[]
    requires answer.answers == Some(DeleteRequest(u)) && answer.message == DeleteResponse(OK)
    requires 0 < i <= 1 + k
    ensures var tail := [answer] + Repeat(DeleteNotice(u), k);
            && i <= |tail| && Replay(Some(full), tail[..i]).Some?
            && Shows(Replay(Some(full), tail[..i]).value.shape, Remove(full.shape, u))
  {
    hide Replay, Unlink, Remove;
    var tail := [answer] + Repeat(DeleteNotice(u), k);
    if i == 1 {
      assert tail[..1] == [answer];
      DeleteAnswered(full, t, u, answer);
      assert Projects(full.shape, t, u) && ParentLinked(t, u);
      UnlinkedShows(full.shape, u);
    } else {
      assert tail[..i] == [answer] + Repeat(DeleteNotice(u), i - 1);
      AcceptedReplies(full, t, u, answer, i - 1);
    }
  }

  lemma {:induction false} SnapshotSettles(s: Server, c: Conn, full: Replica, trId: U16, v: U64)
    requires InSync(s, c, full) && WellFormed(s.nodes.shape) && v in full.shape
    ensures Settles(s, c, full, trId, TreeInfoRequest(v, ".", 1))
  {
    hide Step, Replay, WellFormed, Tracks, Invariant, Settles, PreOrder;
    InSyncFaithful(s, c, full);
    assert Projects(full.shape, s.nodes.shape, v);
    SnapshotSent(s, c, trId, v);
    SingleSettles(s, c, full, trId, TreeInfoRequest(v, ".", 1),
                  Packet(trId, TreeInfoResponse(PreOrder(s.nodes.shape, v, true)), Some(TreeInfoRequest(v, ".", 1))));
  }

  /** What any delete request leads to, on both sides. */
  lemma {:induction false} DeleteReplies(s: Server, c: Conn, full: Replica, trId: U16, u: U64)
    requires InSync(s, c, full) && WellFormed(s.nodes.shape)
    requires !(u == ROOT && u in s.nodes.shape && s.nodes.shape[ROOT].children == map[])
    ensures Settles(s, c, full, trId, DeleteRequest(u))
    ensures Admissible(s, Receive(c, trId, DeleteRequest(u)))
    ensures var s' := Step(s, Receive(c, trId, DeleteRequest(u)));
            var t := s.nodes.shape;
            var cause := if u !in t then NOT_FOUND else if t[u].children != map[] then NOT_EMPTY else OK;
            && c in s.outbox && c in s'.outbox && |s.outbox[c]| < |s'.outbox[c]|
            && s'.outbox[c][|s.outbox[c]|] == Packet(trId, DeleteResponse(cause), Some(DeleteRequest(u)))
            && s'.nodes.shape == (if cause == OK then Remove(t, u) else t)
            && Replay(Some(full), s'.outbox[c][|s.outbox[c]|..]).Some?
            && Replay(Some(full), s'.outbox[c][|s.outbox[c]|..]).value.shape
            == (if cause == OK then Remove(full.shape, u) else full.shape)
  {
    hide Step, Replay, WellFormed, Tracks, Live, TableInvariant, LinksInvariant, Settles, Remove;
    InSyncFaithful(s, c, full);
    if u in s.nodes.shape && s.nodes.shape[u].children == map[] {
      DeleteAccepted(s, c, full, trId, u);
      DeleteSettles(s, c, full, trId, u);
    } else {
      DeleteRefused(s, c, full, trId, u);
      RefusalSent(s, c, trId, u);
      SingleSettles(s, c, full, trId, DeleteRequest(u), Refusal(s, trId, u));
    }
  }

  /** The client sends a request and consumes its replies up to the first one or further. */
  lemma {:induction false} RequestMoves(s: Server, c: Conn, taken: nat, r: Replica, full: Replica,
                                        trId: U16, m: Message, n: nat)
    requires InSync(s, c, full) && Behind(s, c, taken, r, full)
    requires IsStructural(m) && Admissible(s, Receive(c, trId, m))
    requires WellFormed(s.nodes.shape) && Settles(s, c, full, trId, m)
    requires |s.outbox[c]| < n <= |Step(s, Receive(c, trId, m)).outbox[c]|
    ensures var stream' := Step(s, Receive(c, trId, m)).outbox[c];
            && taken <= n && Replay(Some(full), stream'[|s.outbox[c]|..]).Some?
            && Replay(Some(r), stream'[taken..n]).Some?
            && InSync(Step(s, Receive(c, trId, m)), c, Replay(Some(full), stream'[|s.outbox[c]|..]).value)
            && Behind(Step(s, Receive(c, trId, m)), c, n, Replay(Some(r), stream'[taken..n]).value,
                      Replay(Some(full), stream'[|s.outbox[c]|..]).value)
  {
    hide Step, Replay, Shows, WellFormed, Invariant, Tracks, Live, Admissible;
    RequestKeepsSync(s, c, full, trId, m);
    var stream, stream' := s.outbox[c], Step(s, Receive(c, trId, m)).outbox[c];
    assert stream'[..taken] == stream[..taken];
    assert stream'[..n] == stream'[..taken] + stream'[taken..n];
    ReplayAppend(None, stream'[..taken], stream'[taken..n]);
    assert ShowsAt(stream', n, Replay(Some(full), stream'[|stream|..]).value);
  }

  // ----- what the walk sees

  /** Everything left of the subtree of `v` is named in the replica. */
  ghost predicate Filled(t: Shape, v: U64, gone: set<U64>, r: Shape)
    requires WellFormed(t)
  {
    v in r && forall w | Below(t, v, w) && w !in gone :: w in Named(r)
  }

  /** Below `v` the replica shows the children that are left. */
  lemma WhatIsLeftShows(t: Shape, v: U64, gone: set<U64>, r: Shape, u: U64)
    requires WellFormed(t) && WellFormed(Prune(t, gone)) && Faithful(r, Prune(t, gone)) && Filled(t, v, gone, r)
    requires u in t && u !in gone && (u == v || Below(t, v, u))
    ensures u in r && r[u].children == Prune(t, gone)[u].children
  {
    var left := Prune(t, gone);
    forall n ensures n in r[u].children <==> n in left[u].children
             ensures n in r[u].children ==> r[u].children[n] == left[u].children[n]
    {
      KnownChildren(r, left, u, n);
      if n in left[u].children {
        ChildBelow(t, u, n);
        if u != v { BelowTransitive(t, v, u, t[u].children[n]); }
      }
    }
  }

  /** A vertex whose subtree is untouched shows its original children. */
  lemma UntouchedShows(t: Shape, v: U64, gone: set<U64>, r: Shape, u: U64)
    requires WellFormed(t) && WellFormed(Prune(t, gone)) && Faithful(r, Prune(t, gone)) && Filled(t, v, gone, r)
    requires u in t && u !in gone && (u == v || Below(t, v, u))
    requires forall n | n in t[u].children :: t[u].children[n] !in gone
    ensures u in r && r[u].children == t[u].children
  {
    WhatIsLeftShows(t, v, gone, r, u);
    assert Prune(t, gone)[u].children == t[u].children;
  }

  /** A deletable vertex shows no children, neither to the client nor to the server. */
  lemma DeletableShows(t: Shape, v: U64, gone: set<U64>, r: Shape, u: U64)
    requires WellFormed(t) && WellFormed(Prune(t, gone)) && Faithful(r, Prune(t, gone)) && Filled(t, v, gone, r)
    requires Deletable(t, v, gone, u)
    ensures u in r && r[u].children == map[] && u != ROOT
    ensures u in Prune(t, gone) && Prune(t, gone)[u].children == map[]
  {
    WhatIsLeftShows(t, v, gone, r, u);
    assert Prune(t, gone)[u].children == map[];
    BelowIsYounger(t, v, u);
  }

  /** Deleting it leaves the rest as it should be. */
  lemma DeletableGone(t: Shape, v: U64, sent: seq<U64>, r: Shape, u: U64)
    requires WellFormed(t) && WellFormed(Prune(t, Gone(sent))) && Faithful(r, Prune(t, Gone(sent)))
    requires Filled(t, v, Gone(sent), r) && Deletable(t, v, Gone(sent), u)
    ensures Remove(Prune(t, Gone(sent)), u) == Prune(t, Gone(sent + [u]))
    ensures Filled(t, v, Gone(sent + [u]), Remove(r, u))
  {
    DeletableShows(t, v, Gone(sent), r, u);
    BelowIsYounger(t, v, u);
    PruneRemove(t, Gone(sent), u);
    assert Gone(sent + [u]) == Gone(sent) + {u};
    RemoveFaithful(r, Prune(t, Gone(sent)), u);
  }

  /** When everything below the root is gone, only the root is left, on both sides. */
  lemma OnlyRootLeft(t: Shape, sent: seq<U64>, r: Shape)
    requires WellFormed(t) && sent == PostOrder(t, ROOT) && Faithful(r, Prune(t, Gone(sent)))
    ensures Prune(t, Gone(sent)) == map[ROOT := ROOT_VERTEX] && r == map[ROOT := ROOT_VERTEX]
  {
    hide Faithful;
    PostOrderMembers(t, ROOT);
    var left := Prune(t, Gone(sent));
    forall u ensures u in left <==> u == ROOT {
      if u in t && u != ROOT { EverythingBelowRoot(t, u); }
      if Below(t, ROOT, ROOT) { BelowIsYounger(t, ROOT, ROOT); }
    }
    forall n ensures n !in left[ROOT].children {
      if n in t[ROOT].children { ChildBelow(t, ROOT, n); }
    }
    assert left[ROOT] == ROOT_VERTEX;
    assert left == map[ROOT := ROOT_VERTEX];
    RootAlone(r);
  }

  /** A replica of the bare root is the bare root. */
  lemma RootAlone(r: Shape)
    requires Faithful(r, map[ROOT := ROOT_VERTEX])
    ensures r == map[ROOT := ROOT_VERTEX]
  {
    var t: Shape := map[ROOT := ROOT_VERTEX];
    forall u ensures u in r <==> u == ROOT { assert Projects(r, t, u); }
    assert Projects(r, t, ROOT);
    assert r[ROOT].name == "" && r[ROOT].parent == None;
    forall n ensures n !in r[ROOT].children { assert ChildLinked(r, ROOT, n); }
    assert r[ROOT].children == map[];
    assert r[ROOT] == ROOT_VERTEX;
  }
}
