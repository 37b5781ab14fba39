/** The main theorem: at every position of its stream a client's replica is a faithful
    projection of the server tree at the step that sent the message it consumed last. */
module Refinement {
  import opened Protocol
  import opened TreeShape
  import opened Snapshot
  import opened Replicas
  import opened ServerSpec
  import opened Runs
  import opened Emission

  // ----- single packets

  lemma {:induction false} HarmlessKeeps(r: Replica, t: Shape, p: Packet)
    requires WellFormed(t) && Faithful(r.shape, t) && Harmless(t, p)
    ensures Faithful(ApplySignedIn(r, p).shape, t)
    ensures r.shape == t ==> ApplySignedIn(r, p).shape == t
    ensures Consumable(r, p)
  {
    match (p.answers, p.message)
    case (Some(TreeInfoRequest(_, _, _)), TreeInfoResponse(list)) =>
      TrueEdgesKeep(r.shape, t, list);
      TrueEdgesProper(t, list);
    case _ =>
  }

  lemma TrueEdgesKeep(r: Shape, t: Shape, list: seq<NamedNode>)
    requires WellFormed(t) && Faithful(r, t)
    requires forall e | e in list :: IsEdge(t, e)
    ensures Faithful(AddNodes(r, list), t)
    ensures r == t ==> AddNodes(r, list) == t
  {
    WellFormedLinked(t);
    AddNodesFaithful(r, t, list);
    if r == t {
      WellFormedIsFaithful(t);
      forall e | e in list ensures e.uuid in t && e.uuid != ROOT && e.parentUuid in t {
        assert ParentLinked(t, e.uuid);
      }
      assert AddNodes(r, list).Keys == t.Keys && Named(AddNodes(r, list)) == Named(t);
      FaithfulUnique(AddNodes(r, list), t, t);
    }
  }

  lemma TrueEdgesProper(t: Shape, list: seq<NamedNode>)
    requires WellFormed(t) && forall e | e in list :: IsEdge(t, e)
    ensures Proper(list)
  {
    forall i | 0 <= i < |list| ensures list[i].uuid != list[i].parentUuid {
      assert IsEdge(t, list[i]) && ParentLinked(t, list[i].uuid);
    }
  }

  /** Once the new edge is in the tree, its announcement makes a complete replica of the old
      tree a complete replica of the new one. */
  lemma {:induction false} AddNoticeKeeps(r: Replica, t: Shape, e: NamedNode)
    requires WellFormed(t) && Faithful(r.shape, t) && IsEdge(t, e)
    ensures Faithful(ApplySignedIn(r, AddNotice(e)).shape, t)
    ensures r.shape == t ==> ApplySignedIn(r, AddNotice(e)).shape == t
    ensures Consumable(r, AddNotice(e))
  {
    TrueEdgesProper(t, [e]);
    assert ApplySignedIn(r, AddNotice(e)).shape == AddNodes(r.shape, [e]);
    TrueEdgesKeep(r.shape, t, [e]);
  }

  lemma {:induction false} AddNoticeCompletes(r: Replica, t: Shape, e: NamedNode)
    requires WellFormed(t) && e.parentUuid in t && WellFormed(Insert(t, e)) && e.uuid !in t && r.shape == t
    ensures ApplySignedIn(r, AddNotice(e)).shape == Insert(t, e)
  {
    assert ApplySignedIn(r, AddNotice(e)).shape == AddNodes(r.shape, [e]);
    assert AddNodes(r.shape, [e]) == AddNode(t, e);
    assert AddNode(t, e) == Insert(t, e);
  }

  /** For the sender of a create the answer has the effect of the announcement. */
  lemma AcceptIsAdd(r: Shape, t: Shape, e: NamedNode)
    requires WellFormed(t) && Faithful(r, t)
    requires e.parentUuid in r && e.parentUuid in t && e.uuid !in t && e.name !in t[e.parentUuid].children
    ensures AcceptCreate(r, e.name, e.parentUuid, e.uuid) == AddNode(r, e)
  {
    assert Projects(r, t, e.parentUuid) && Projects(r, t, e.uuid);
    KnownChildren(r, t, e.parentUuid, e.name);
  }

  lemma {:induction false} DeleteNoticeKeeps(r: Replica, t: Shape, u: U64)
    requires WellFormed(t) && Faithful(r.shape, t)
    requires u in t && u != ROOT && t[u].children == map[]
    ensures Faithful(ApplySignedIn(r, DeleteNotice(u)).shape, Remove(t, u))
    ensures r.shape == t ==> ApplySignedIn(r, DeleteNotice(u)).shape == Remove(t, u)
    ensures Consumable(r, DeleteNotice(u))
  {
    ChildlessDetachable(r.shape, t, u);
    DeleteConsumable(r, u);
    RemoveFaithful(r.shape, t, u);
    assert ApplySignedIn(r, DeleteNotice(u)).shape == RemoveNodes(r.shape, [u]);
    assert RemoveNodes(r.shape, [u]) == Remove(r.shape, u);
  }

  lemma {:induction false} DeleteConsumable(r: Replica, u: U64)
    requires Detachable(r.shape, u)
    ensures Consumable(r, DeleteNotice(u))
  {
    assert [u][1..] == [];
    assert AllDetachable(AddNodes(r.shape, []), [u]);
  }

  /** The link `destroy` cut early makes no difference once the notification is applied. */
  lemma UnlinkThenRemove(r: Shape, u: U64)
    requires u in r ==> r[u].parent != Some(u)
    ensures Remove(Unlink(r, u), u) == Remove(r, u)
  {
    if u in r && r[u].parent.Some? && r[u].parent.value in r {
      var p := r[u].parent.value;
      assert Unlink(r, u)[u] == r[u];
      assert r[p].children - {r[u].name} - {r[u].name} == r[p].children - {r[u].name};
      assert Remove(Unlink(r, u), u) == Remove(r, u);
    }
  }

  // ----- repeated notifications

  lemma {:induction false} RepeatedAdd(r: Replica, t: Shape, e: NamedNode, n: nat)
    requires WellFormed(t) && Faithful(r.shape, t) && IsEdge(t, e)
    ensures Replay(Some(r), Repeat(AddNotice(e), n)).Some?
    ensures Faithful(Replay(Some(r), Repeat(AddNotice(e), n)).value.shape, t)
    ensures r.shape == t ==> Replay(Some(r), Repeat(AddNotice(e), n)).value.shape == t
  {
    if n > 0 {
      RepeatedAdd(r, t, e, n - 1);
      assert Repeat(AddNotice(e), n) == Repeat(AddNotice(e), n - 1) + [AddNotice(e)];
      ReplayStep(Some(r), Repeat(AddNotice(e), n - 1), AddNotice(e));
      AddNoticeKeeps(Replay(Some(r), Repeat(AddNotice(e), n - 1)).value, t, e);
    }
  }

  /** Announcing the removal of an unknown vertex changes nothing. */
  lemma {:induction false} RepeatedDelete(r: Replica, u: U64, n: nat)
    requires u !in r.shape
    ensures Replay(Some(r), Repeat(DeleteNotice(u), n)).Some?
    ensures Replay(Some(r), Repeat(DeleteNotice(u), n)).value.shape == r.shape
  {
    if n > 0 {
      RepeatedDelete(r, u, n - 1);
      assert Repeat(DeleteNotice(u), n) == Repeat(DeleteNotice(u), n - 1) + [DeleteNotice(u)];
      ReplayStep(Some(r), Repeat(DeleteNotice(u), n - 1), DeleteNotice(u));
      var r' := Replay(Some(r), Repeat(DeleteNotice(u), n - 1)).value.shape;
      assert RemoveNodes(AddNodes(r', []), [u]) == r';
    }
  }

  // ----- what a replica may look like in the middle of one server step

  /** Faithful to the tree after the step; or the replica's own delete was answered but not
      yet announced, so the doomed vertex is still indexed though no longer linked. */
  ghost predicate Consistent(r: Shape, before: Shape, after: Shape) {
    || Faithful(r, after)
    || exists r0, u :: Faithful(r0, before) && u in before && u !in after && r == Unlink(r0, u)
  }

  /** As `Consistent`, for a replica that holds the whole tree. */
  ghost predicate ConsistentWhole(r: Shape, before: Shape, after: Shape) {
    || r == after
    || exists u :: u in before && u !in after && r == Unlink(before, u)
  }

  /** The replica can digest every packet of `tail`; every non-empty prefix leaves a consistent
      replica, and all of it a faithful one; if the replica was whole it stays whole. */
  ghost predicate TailConsistent(r: Replica, tail: seq<Packet>, before: Shape, after: Shape) {
    && (forall i | 0 <= i < |tail| ::
          Replay(Some(r), tail[..i]).Some? && Consumable(Replay(Some(r), tail[..i]).value, tail[i]))
    && (forall i | 0 < i <= |tail| ::
          && Replay(Some(r), tail[..i]).Some?
          && Consistent(Replay(Some(r), tail[..i]).value.shape, before, after)
          && (r.shape == before ==> ConsistentWhole(Replay(Some(r), tail[..i]).value.shape, before, after)))
    && Replay(Some(r), tail).Some?
    && Faithful(Replay(Some(r), tail).value.shape, after)
    && (r.shape == before ==> Replay(Some(r), tail).value.shape == after)
  }

  /** One more packet. */
  lemma {:induction false} TailStep(r: Replica, tail: seq<Packet>, p: Packet, before: Shape, after: Shape)
    requires forall i | 0 < i <= |tail| ::
               && Replay(Some(r), tail[..i]).Some?
               && Consistent(Replay(Some(r), tail[..i]).value.shape, before, after)
               && (r.shape == before ==> ConsistentWhole(Replay(Some(r), tail[..i]).value.shape, before, after))
    requires forall i | 0 <= i < |tail| ::
               Replay(Some(r), tail[..i]).Some? && Consumable(Replay(Some(r), tail[..i]).value, tail[i])
    requires Replay(Some(r), tail).Some? && Consumable(Replay(Some(r), tail).value, p)
    requires Faithful(ApplySignedIn(Replay(Some(r), tail).value, p).shape, after)
    requires r.shape == before ==> ApplySignedIn(Replay(Some(r), tail).value, p).shape == after
    ensures TailConsistent(r, tail + [p], before, after)
  {
    ReplayStep(Some(r), tail, p);
    forall i | 0 < i <= |tail + [p]|
      ensures Replay(Some(r), (tail + [p])[..i]).Some?
      ensures Consistent(Replay(Some(r), (tail + [p])[..i]).value.shape, before, after)
      ensures r.shape == before ==>
                ConsistentWhole(Replay(Some(r), (tail + [p])[..i]).value.shape, before, after)
    {
      if i <= |tail| {
        assert (tail + [p])[..i] == tail[..i];
      } else {
        assert (tail + [p])[..i] == tail + [p];
      }
    }
    forall i | 0 <= i < |tail + [p]|
      ensures Replay(Some(r), (tail + [p])[..i]).Some?
      ensures Consumable(Replay(Some(r), (tail + [p])[..i]).value, (tail + [p])[i])
    {
      assert (tail + [p])[..i] == tail[..i];
      if i == |tail| { assert tail[..i] == tail; }
    }
  }

  lemma {:induction false} QuietTailConsistent(r: Replica, tail: seq<Packet>, t: Shape)
    requires WellFormed(t) && Faithful(r.shape, t)
    requires forall i | 0 <= i < |tail| :: Harmless(t, tail[i])
    ensures TailConsistent(r, tail, t, t)
    decreases |tail|
  {
    if tail != [] {
      var front, p := tail[..|tail| - 1], tail[|tail| - 1];
      assert tail == front + [p];
      QuietTailConsistent(r, front, t);
      HarmlessKeeps(Replay(Some(r), front).value, t, p);
      TailStep(r, front, p, t, t);
    }
  }

  lemma {:induction false} CreateTailConsistent(r: Replica, t: Shape, e: NamedNode, answer: Option<Packet>, n: nat)
    requires WellFormed(t) && Faithful(r.shape, t) && e.parentUuid in t && WellFormed(Insert(t, e))
    requires e.uuid !in t && e.name !in t[e.parentUuid].children && IsEdge(Insert(t, e), e)
    requires answer.Some? ==> e.parentUuid in r.shape
    requires answer.Some? ==>
               && answer.value.answers == Some(CreateRequest(e.name, e.parentUuid))
               && answer.value.message == CreateAccept(e.uuid)
    requires answer.Some? || n > 0
    ensures TailConsistent(r, (if answer.Some? then [answer.value] else []) + Repeat(AddNotice(e), n), t, Insert(t, e))
    decreases n
  {
    var after := Insert(t, e);
    InsertKeepsFaithful(r.shape, t, e);
    if n == 0 {
      AcceptIsAdd(r.shape, t, e);
      assert [answer.value] == [] + [answer.value];
      assert AddNodes(r.shape, [e]) == AddNode(r.shape, e);
      TrueEdgesKeep(r.shape, after, [e]);
      if r.shape == t { assert AddNode(t, e) == after; }
      TailStep(r, [], answer.value, t, after);
      assert [answer.value] + Repeat(AddNotice(e), 0) == [] + [answer.value];
    } else {
      var first := if answer.Some? then [answer.value] else [];
      var tail := first + Repeat(AddNotice(e), n - 1);
      assert first + Repeat(AddNotice(e), n) == tail + [AddNotice(e)];
      if answer.None? && n == 1 {
        assert tail == [];
        AddNoticeKeeps(r, after, e);
        if r.shape == t { AddNoticeCompletes(r, t, e); }
      } else {
        CreateTailConsistent(r, t, e, answer, n - 1);
        AddNoticeKeeps(Replay(Some(r), tail).value, after, e);
      }
      TailStep(r, tail, AddNotice(e), t, after);
    }
  }

  /** The answer to a delete, if this client sent it, leaves the replica in the one state that
      is not faithful; the announcement follows. */
  lemma {:induction false} DeleteAnswerConsistent(r: Replica, t: Shape, u: U64, answer: Packet)
    requires WellFormed(t) && Faithful(r.shape, t) && u in t && u != ROOT && t[u].children == map[]
    requires answer.answers == Some(DeleteRequest(u)) && answer.message == DeleteResponse(OK)
    ensures TailConsistent(r, [answer] + [DeleteNotice(u)], t, Remove(t, u))
  {
    hide WellFormed, Faithful, Remove, Unlink, ApplySignedIn, Replay, AddNodes, Consumable, TailConsistent;
    DeleteNoticeKeeps(r, t, u);
    DeleteAnswered(r, t, u, answer);
    AnsweredConsumable(r, t, u, answer);
    RemoveForgets(t, u);
    ReplayNothing(r);
    AnswerHarmless(r, answer);
    assert [answer][..1] == [answer] && [answer][..0] == [];
    TailStep(r, [answer], DeleteNotice(u), t, Remove(t, u));
  }

  lemma {:induction false} AnswerHarmless(r: Replica, answer: Packet)
    requires answer.message.DeleteResponse?
    ensures Consumable(r, answer)
  {
  }

  lemma RemoveForgets(r: Shape, u: U64)
    ensures u !in Remove(r, u)
  {
  }

  lemma {:induction false} DeleteNoticeConsistent(r: Replica, t: Shape, u: U64)
    requires WellFormed(t) && Faithful(r.shape, t) && u in t && u != ROOT && t[u].children == map[]
    ensures TailConsistent(r, [] + [DeleteNotice(u)], t, Remove(t, u))
  {
    hide WellFormed, Faithful, Remove, ApplySignedIn, Replay, AddNodes, Consumable, TailConsistent;
    DeleteNoticeKeeps(r, t, u);
    ReplayNothing(r);
    TailStep(r, [], DeleteNotice(u), t, Remove(t, u));
  }

  /** Announcing a deletion again changes nothing. */
  lemma {:induction false} DeleteRepeatConsistent(r: Replica, tail: seq<Packet>, before: Shape, after: Shape, u: U64)
    requires TailConsistent(r, tail, before, after) && u !in after
    ensures TailConsistent(r, tail + [DeleteNotice(u)], before, after)
  {
    hide ApplySignedIn, Replay, AddNodes, Consumable, Consistent, ConsistentWhole, ChildrenLinked;
    var r1 := Replay(Some(r), tail).value;
    assert Projects(r1.shape, after, u);
    RemovedTwice(r1, u);
    TailStep(r, tail, DeleteNotice(u), before, after);
  }

  lemma {:induction false} RemovedTwice(r: Replica, u: U64)
    requires u !in r.shape
    ensures Consumable(r, DeleteNotice(u)) && ApplySignedIn(r, DeleteNotice(u)).shape == r.shape
  {
    DeleteConsumable(r, u);
    assert RemoveNodes(AddNodes(r.shape, []), [u]) == r.shape;
  }

  lemma {:induction false} DeleteTailConsistent(r: Replica, t: Shape, u: U64, answer: Option<Packet>, n: nat)
    requires WellFormed(t) && Faithful(r.shape, t)
    requires u in t && u != ROOT && t[u].children == map[]
    requires answer.Some? ==>
               && answer.value.answers == Some(DeleteRequest(u))
               && answer.value.message == DeleteResponse(OK)
    requires n > 0
    ensures TailConsistent(r, (if answer.Some? then [answer.value] else []) + Repeat(DeleteNotice(u), n),
                           t, Remove(t, u))
    decreases n
  {
    hide WellFormed, Faithful, Remove, TailConsistent;
    var first := if answer.Some? then [answer.value] else [];
    assert first + Repeat(DeleteNotice(u), n) == first + Repeat(DeleteNotice(u), n - 1) + [DeleteNotice(u)];
    if n > 1 {
      DeleteTailConsistent(r, t, u, answer, n - 1);
      RemoveForgets(t, u);
      DeleteRepeatConsistent(r, first + Repeat(DeleteNotice(u), n - 1), t, Remove(t, u), u);
    } else {
      assert first + Repeat(DeleteNotice(u), 0) == first;
      if answer.Some? { DeleteAnswerConsistent(r, t, u, answer.value); } else { DeleteNoticeConsistent(r, t, u); }
    }
  }

  lemma UnlinkDetachable(r: Shape, u: U64)
    requires Detachable(r, u)
    ensures Detachable(Unlink(r, u), u)
  {
  }

  lemma {:induction false} AnsweredConsumable(r: Replica, t: Shape, u: U64, answer: Packet)
    requires WellFormed(t) && Faithful(r.shape, t)
    requires u in t && t[u].children == map[]
    requires answer.answers == Some(DeleteRequest(u)) && answer.message == DeleteResponse(OK)
    ensures Consumable(ApplySignedIn(r, answer), DeleteNotice(u))
  {
    ChildlessDetachable(r.shape, t, u);
    UnlinkDetachable(r.shape, u);
    DeleteConsumable(ApplySignedIn(r, answer), u);
  }

  /** Between the answer to a delete and its announcement only the link is missing. */
  lemma {:induction false} DeleteAnswered(r: Replica, t: Shape, u: U64, answer: Packet)
    requires WellFormed(t) && Faithful(r.shape, t)
    requires u in t && u != ROOT
    requires answer.answers == Some(DeleteRequest(u)) && answer.message == DeleteResponse(OK)
    ensures Replay(Some(r), [answer]) == Some(ApplySignedIn(r, answer))
    ensures ApplySignedIn(r, answer).shape == Unlink(r.shape, u)
    ensures ApplySignedIn(ApplySignedIn(r, answer), DeleteNotice(u)).shape
         == ApplySignedIn(r, DeleteNotice(u)).shape
  {
    ReplayStep(Some(r), [], answer);
    assert [] + [answer] == [answer];
    assert Projects(r.shape, t, u) && ParentLinked(t, u);
    hide WellFormed, Faithful;
    UnlinkThenRemove(r.shape, u);
    assert RemoveNodes(AddNodes(Unlink(r.shape, u), []), [u]) == Remove(Unlink(r.shape, u), u);
    assert RemoveNodes(AddNodes(r.shape, []), [u]) == Remove(r.shape, u);
  }

  // ----- whole runs

  /** The client at `c` has met `p` in its replica at some position of its stream so far. */
  ghost predicate Knows(s: Server, c: Conn, p: U64) {
    exists k | 0 <= k <= |Stream(s, c)| ::
      Replay(None, Stream(s, c)[..k]).Some? && p in Replay(None, Stream(s, c)[..k]).value.shape
  }

  /** A client creates under properties it got from its own replica. */
  ghost predicate ClientEvent(s: Server, e: Event, c: Conn) {
    e.Receive? && e.conn == c && e.message.CreateRequest? ==> Knows(s, c, e.message.parentUuid)
  }

  ghost predicate ClientRun(run: Run, c: Conn)
    requires Valid(run)
    decreases |run|
  {
    run == [] || (ClientRun(run[..|run| - 1], c) && ClientEvent(After(run[..|run| - 1]), run[|run| - 1], c))
  }

  /** The vertices a packet announces as deleted. */
  function Deleted(p: Packet): seq<U64> {
    if p.message.TreeUpdateNotification? then p.message.nodeToDelete else []
  }

  /** Announced deletions are final: the uuid was allocated before and is not in the tree. */
  ghost predicate DeletionsFinal(s: Server, p: Packet) {
    forall u | u in Deleted(p) :: u !in s.nodes.shape && u < s.nodes.uuidCtr as U64
  }

  ghost predicate StreamFinal(s: Server, c: Conn) {
    forall i | 0 <= i < |Stream(s, c)| :: DeletionsFinal(s, Stream(s, c)[i])
  }

  /** The state of one client relative to the server, with its stream drained. */
  ghost predicate Tracks(s: Server, c: Conn) {
    && StreamFinal(s, c)
    && (Live(s, c) ==>
          && Replay(None, Stream(s, c)).Some?
          && Faithful(Replay(None, Stream(s, c)).value.shape, s.nodes.shape))
    && (!Live(s, c) && (c in s.outbox ==> c in s.table.connected) ==>
          forall i | 0 <= i < |Stream(s, c)| :: !Stream(s, c)[i].message.SigninAccept?)
  }

  // ----- known vertices stay known

  lemma {:induction false} AddNodesRetains(r: Shape, list: seq<NamedNode>, u: U64)
    requires u in r
    ensures u in AddNodes(r, list)
    decreases |list|
  {
    if list != [] {
      AddNodesRetains(AddNode(r, list[0]), list[1..], u);
    }
  }

  lemma {:induction false} RemoveNodesRetains(r: Shape, uuids: seq<U64>, u: U64)
    requires u in r && u !in uuids
    ensures u in RemoveNodes(r, uuids)
    decreases |uuids|
  {
    if uuids != [] {
      RemoveNodesRetains(Remove(r, uuids[0]), uuids[1..], u);
    }
  }

  lemma {:induction false} ApplyRetains(r: Replica, p: Packet, u: U64)
    requires u in r.shape && u !in Deleted(p)
    ensures u in ApplySignedIn(r, p).shape
  {
    hide AddNodes, RemoveNodes;
    match (p.answers, p.message)
    case (Some(TreeInfoRequest(_, _, _)), TreeInfoResponse(list)) =>
      AddNodesRetains(r.shape, list, u);
    case (None, TreeUpdateNotification(adds, deletes)) =>
      AddNodesRetains(r.shape, adds, u);
      RemoveNodesRetains(AddNodes(r.shape, adds), deletes, u);
    case _ =>
  }

  lemma {:induction false} ReplayRetains(r: Replica, tail: seq<Packet>, u: U64)
    requires u in r.shape && forall i | 0 <= i < |tail| :: u !in Deleted(tail[i])
    ensures Replay(Some(r), tail).Some? && u in Replay(Some(r), tail).value.shape
    decreases |tail|
  {
    if tail != [] {
      ReplayRetains(r, tail[..|tail| - 1], u);
      ApplyRetains(Replay(Some(r), tail[..|tail| - 1]).value, tail[|tail| - 1], u);
    }
  }

  /** A live vertex the replica ever knew is still in it. */
  lemma KnownPersists(s: Server, c: Conn, u: U64)
    requires StreamFinal(s, c) && Knows(s, c, u) && u in s.nodes.shape
    ensures Replay(None, Stream(s, c)).Some? && u in Replay(None, Stream(s, c)).value.shape
  {
    var stream := Stream(s, c);
    var k :| 0 <= k <= |stream| && Replay(None, stream[..k]).Some? && u in Replay(None, stream[..k]).value.shape;
    assert stream == stream[..k] + stream[k..];
    ReplayAppend(None, stream[..k], stream[k..]);
    forall i | 0 <= i < |stream[k..]| ensures u !in Deleted(stream[k..][i]) {
      assert DeletionsFinal(s, stream[k + i]);
    }
    ReplayRetains(Replay(None, stream[..k]).value, stream[k..], u);
  }

  // ----- one step

  lemma StreamStaysFinal(s: Server, e: Event, c: Conn)
    requires Invariant(s) && Admissible(s, e) && StreamFinal(s, c)
    ensures StreamFinal(Step(s, e), c)
  {
    var s' := Step(s, e);
    forall i | 0 <= i < |Stream(s', c)| ensures DeletionsFinal(s', Stream(s', c)[i]) {
      if i < |Stream(s, c)| {
        OldDeletionsStayFinal(s, e, c, Stream(s, c)[i]);
        StreamsGrow(s, e, c);
      } else {
        NewDeletionsFinal(s, e, c, i);
      }
    }
  }

  lemma OldDeletionsStayFinal(s: Server, e: Event, c: Conn, p: Packet)
    requires Invariant(s) && Admissible(s, e) && DeletionsFinal(s, p)
    ensures DeletionsFinal(Step(s, e), p)
  {
    NodesStep(s, e);
  }

  lemma NewDeletionsFinal(s: Server, e: Event, c: Conn, i: nat)
    requires Invariant(s) && Admissible(s, e)
    requires |Stream(s, c)| <= i < |Stream(Step(s, e), c)|
    ensures DeletionsFinal(Step(s, e), Stream(Step(s, e), c)[i])
  {
    hide WellFormed, LinksInvariant, Insert, Remove;
    StreamsGrow(s, e, c);
    NodesStep(s, e);
    if Creates(s, e) { CreateEmits(s, e, c); }
    else if Deletes(s, e) { DeleteEmits(s, e, c); }
    else if SignsIn(e, c) { SigninEmits(s, e, c); }
    else { QuietStep(s, e, c); }
  }

  /** How a step changes the tree and the uuid counter. */
  lemma NodesStep(s: Server, e: Event)
    requires Invariant(s) && Admissible(s, e)
    ensures Creates(s, e) ==>
              && Step(s, e).nodes.shape == Insert(s.nodes.shape, Created(s, e))
              && Step(s, e).nodes.uuidCtr == s.nodes.uuidCtr + 1
              && Created(s, e).uuid !in s.nodes.shape
              && IsEdge(Step(s, e).nodes.shape, Created(s, e))
    ensures Deletes(s, e) ==>
              && Step(s, e).nodes.shape == Remove(s.nodes.shape, e.message.uuid)
              && Step(s, e).nodes.uuidCtr == s.nodes.uuidCtr
              && e.message.uuid !in Step(s, e).nodes.shape
              && e.message.uuid != ROOT
    ensures !Creates(s, e) && !Deletes(s, e) ==>
              Step(s, e).nodes.shape == s.nodes.shape && Step(s, e).nodes.uuidCtr == s.nodes.uuidCtr
    ensures WellFormed(Step(s, e).nodes.shape)
  {
    hide Step, LinksInvariant;
    if Creates(s, e) {
      CreateEmits(s, e, e.conn);
      InsertKeepsWellFormed(s.nodes.shape, Created(s, e));
    } else if Deletes(s, e) {
      DeleteEmits(s, e, e.conn);
      RemoveKeepsWellFormed(s.nodes.shape, e.message.uuid);
    } else {
      OtherNodes(s, e);
    }
  }

  lemma OtherNodes(s: Server, e: Event)
    requires WellFormed(s.nodes.shape) && !Creates(s, e) && !Deletes(s, e)
    ensures Step(s, e).nodes.shape == s.nodes.shape && Step(s, e).nodes.uuidCtr == s.nodes.uuidCtr
  {
    if e.Receive? && (e.message.CreateRequest? || e.message.DeleteRequest?) {
      RefusedNodes(s, e);
    } else {
      hide WellFormed, Query, Broadcast, Create, Delete;
    }
  }

  lemma RefusedNodes(s: Server, e: Event)
    requires WellFormed(s.nodes.shape) && !Creates(s, e) && !Deletes(s, e)
    requires e.Receive? && (e.message.CreateRequest? || e.message.DeleteRequest?)
    ensures Step(s, e).nodes == s.nodes
  {
    hide WellFormed, Broadcast, Insert, Remove;
  }

  lemma LiveInOutbox(s: Server, c: Conn)
    requires Invariant(s) && Live(s, c)
    ensures c in s.outbox
  {
    var i :| i in s.table.sessions && s.table.sessions[i] == Some(c);
    assert SessionAllocated(s.table, s.outbox.Keys, i);
  }

  /** A connection becomes live by signing in, and stops being live by hanging up. */
  lemma LiveChanges(s: Server, e: Event, c: Conn)
    requires Invariant(s) && Admissible(s, e)
    ensures Live(Step(s, e), c) && !Live(s, c) ==> SignsIn(e, c)
    ensures SignsIn(e, c) ==> Live(Step(s, e), c)
    ensures Live(s, c) && e != Hangup(c) ==> Live(Step(s, e), c)
  {
    var s' := Step(s, e);
    if e.Receive? && !e.message.SigninRequest? {
      ReceiveKeepsTable(s, e.conn, e.trId, e.message);
    } else if e.Receive? {
      SigninTable(s, e.conn, e.trId, e.message);
      assert SessionAllocated(s.table, s.outbox.Keys, s.table.sessionCtr);
      assert s'.table.sessions == s.table.sessions[s.table.sessionCtr := Some(e.conn)];
      if e.conn == c { assert s'.table.sessions[s.table.sessionCtr] == Some(c); }
    } else if e.Hangup? {
      assert SessionOwned(s.table, e.conn);
    }
    if Live(s, c) && e != Hangup(c) {
      var i :| i in s.table.sessions && s.table.sessions[i] == Some(c);
      assert SessionAllocated(s.table, s.outbox.Keys, i);
      assert s'.table.sessions[i] == Some(c);
    }
  }

  lemma SigninTable(s: Server, c: Conn, trId: U16, m: Message)
    requires WellFormed(s.nodes.shape) && m.SigninRequest?
    ensures Handle(s, c, trId, m).table == OpenSession(s.table, c)
  {
    hide WellFormed;
  }

  lemma CreateTail(s: Server, e: Event, c: Conn) returns (tail: seq<Packet>)
    requires Invariant(s) && Admissible(s, e) && ClientEvent(s, e, c)
    requires Tracks(s, c) && Live(s, c) && Creates(s, e)
    ensures Stream(Step(s, e), c) == Stream(s, c) + tail
    ensures TailConsistent(Replay(None, Stream(s, c)).value, tail, s.nodes.shape, Step(s, e).nodes.shape)
  {
    hide Step, Insert, InsertNode, TailConsistent, WellFormed, Faithful, Aimed;
    LiveInOutbox(s, c);
    LiveHasCopies(s, c);
    NodesStep(s, e);
    CreateEmits(s, e, c);
    var edge := Created(s, e);
    var answer := if c == e.conn then Some(Packet(e.trId, CreateAccept(edge.uuid), Some(e.message))) else None;
    if c == e.conn { KnownPersists(s, c, edge.parentUuid); }
    tail := (if answer.Some? then [answer.value] else []) + Repeat(AddNotice(edge), Copies(s, c));
    CreateTailConsistent(Replay(None, Stream(s, c)).value, s.nodes.shape, edge, answer, Copies(s, c));
  }

  lemma DeleteTail(s: Server, e: Event, c: Conn) returns (tail: seq<Packet>)
    requires Invariant(s) && Admissible(s, e) && ClientEvent(s, e, c)
    requires Tracks(s, c) && Live(s, c) && Deletes(s, e)
    ensures Stream(Step(s, e), c) == Stream(s, c) + tail
    ensures TailConsistent(Replay(None, Stream(s, c)).value, tail, s.nodes.shape, Step(s, e).nodes.shape)
  {
    hide Step, TailConsistent, WellFormed, Faithful, Remove;
    LiveInOutbox(s, c);
    LiveHasCopies(s, c);
    NodesStep(s, e);
    DeleteEmits(s, e, c);
    var u := e.message.uuid;
    var answer := if c == e.conn then Some(Packet(e.trId, DeleteResponse(OK), Some(e.message))) else None;
    tail := (if answer.Some? then [answer.value] else []) + Repeat(DeleteNotice(u), Copies(s, c));
    DeleteTailConsistent(Replay(None, Stream(s, c)).value, s.nodes.shape, u, answer, Copies(s, c));
  }

  lemma OtherTail(s: Server, e: Event, c: Conn) returns (tail: seq<Packet>)
    requires Invariant(s) && Admissible(s, e) && ClientEvent(s, e, c)
    requires Tracks(s, c) && Live(s, c) && !Creates(s, e) && !Deletes(s, e)
    ensures Stream(Step(s, e), c) == Stream(s, c) + tail
    ensures TailConsistent(Replay(None, Stream(s, c)).value, tail, s.nodes.shape, Step(s, e).nodes.shape)
  {
    LiveInOutbox(s, c);
    NodesStep(s, e);
    var t := s.nodes.shape;
    var r := Replay(None, Stream(s, c)).value;
    if SignsIn(e, c) {
      SigninEmits(s, e, c);
      var p := Packet(e.trId, SigninAccept(0), Some(e.message));
      tail := [] + [p];
      TailStep(r, [], p, t, t);
    } else {
      QuietStep(s, e, c);
      tail := Step(s, e).outbox[c][|s.outbox[c]|..];
      QuietTailConsistent(r, tail, t);
    }
  }

  /** What one step appends to the stream of a live client keeps its replica consistent. */
  lemma LiveTail(s: Server, e: Event, c: Conn) returns (tail: seq<Packet>)
    requires Invariant(s) && Admissible(s, e) && ClientEvent(s, e, c)
    requires Tracks(s, c) && Live(s, c)
    ensures Stream(Step(s, e), c) == Stream(s, c) + tail
    ensures TailConsistent(Replay(None, Stream(s, c)).value, tail, s.nodes.shape, Step(s, e).nodes.shape)
  {
    hide Step, TailConsistent, Invariant, Tracks;
    if Creates(s, e) { tail := CreateTail(s, e, c); }
    else if Deletes(s, e) { tail := DeleteTail(s, e, c); }
    else { tail := OtherTail(s, e, c); }
  }

  lemma {:induction false} NoReplica(stream: seq<Packet>)
    requires forall i | 0 <= i < |stream| :: !stream[i].message.SigninAccept?
    ensures Replay(None, stream) == None
    decreases |stream|
  {
    if stream != [] {
      NoReplica(stream[..|stream| - 1]);
    }
  }

  /** Signing in starts a faithful replica: the root alone. */
  lemma SigninTail(s: Server, e: Event, c: Conn)
    requires Invariant(s) && Admissible(s, e) && SignsIn(e, c) && Tracks(s, c) && !Live(s, c)
    ensures |Stream(Step(s, e), c)| == |Stream(s, c)| + 1
    ensures forall k | 0 <= k <= |Stream(s, c)| :: Replay(None, Stream(Step(s, e), c)[..k]) == None
    ensures Replay(None, Stream(Step(s, e), c)) == Some(INITIAL)
    ensures Faithful(INITIAL.shape, Step(s, e).nodes.shape)
  {
    var p := Packet(e.trId, SigninAccept(0), Some(e.message));
    SigninEmits(s, e, c);
    var stream := Stream(s, c);
    assert Stream(Step(s, e), c) == stream + [p];
    forall k | 0 <= k <= |stream| ensures Replay(None, (stream + [p])[..k]) == None {
      assert (stream + [p])[..k] == stream[..k];
      NoReplica(stream[..k]);
    }
    assert (stream + [p])[..|stream|] == stream;
    ReplayStep(None, stream, p);
  }

  lemma TracksStep(s: Server, e: Event, c: Conn)
    requires Invariant(s) && Admissible(s, e) && ClientEvent(s, e, c) && Tracks(s, c)
    ensures Tracks(Step(s, e), c)
  {
    var s' := Step(s, e);
    StreamStaysFinal(s, e, c);
    LiveChanges(s, e, c);
    StreamsGrow(s, e, c);
    if Live(s', c) {
      if Live(s, c) {
        var tail := LiveTail(s, e, c);
        ReplayAppend(None, Stream(s, c), tail);
      } else {
        SigninTail(s, e, c);
      }
    } else if c in s'.outbox ==> c in s'.table.connected {
      NoSigninWhileDead(s, e, c);
    }
  }

  lemma NoSigninWhileDead(s: Server, e: Event, c: Conn)
    requires Invariant(s) && Admissible(s, e) && Tracks(s, c) && !Live(Step(s, e), c)
    requires c in Step(s, e).outbox ==> c in Step(s, e).table.connected
    ensures forall i | 0 <= i < |Stream(Step(s, e), c)| :: !Stream(Step(s, e), c)[i].message.SigninAccept?
  {
    var s' := Step(s, e);
    LiveChanges(s, e, c);
    StreamsGrow(s, e, c);
    if c in s.outbox {
      assert c in s.table.connected by {
        if e.Receive? && !e.message.SigninRequest? { ReceiveKeepsTable(s, e.conn, e.trId, e.message); }
        else if e.Receive? { SigninTable(s, e.conn, e.trId, e.message); }
      }
      assert !Live(s, c);
      if Creates(s, e) { CreateEmits(s, e, c); }
      else if Deletes(s, e) { DeleteEmits(s, e, c); }
      else { QuietStep(s, e, c); }
    }
  }
}
