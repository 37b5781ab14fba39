/** Responses are applied by the thread that waited for them, possibly after the reader has
    handled later messages. When that is harmless, in terms of what the client has been sent. */
module LateResponses {
  import opened Protocol
  import opened Names
  import opened TreeShape
  import opened Snapshot
  import opened Replicas
  import opened ServerSpec
  import opened Runs
  import opened Emission
  import opened Refinement
  import opened ReplicaTheorems
  import opened History
  import opened Listings
  import opened Subscribers

  ghost predicate Announces(packets: seq<Packet>, u: U64) {
    exists i :: 0 <= i < |packets| && u in Deleted(packets[i])
  }

  lemma AnnouncesAppend(a: seq<Packet>, b: seq<Packet>, u: U64)
    ensures Announces(a + b, u) <==> Announces(a, u) || Announces(b, u)
  {
    if Announces(a, u) {
      var i :| 0 <= i < |a| && u in Deleted(a[i]);
      assert (a + b)[i] == a[i];
    }
    if Announces(b, u) {
      var i :| 0 <= i < |b| && u in Deleted(b[i]);
      assert (a + b)[|a| + i] == b[i];
    }
  }

  /** The deletion of `u` was announced to `c` during the later steps. */
  ghost predicate AnnouncedSince(run: Run, later: Run, c: Conn, u: U64)
    requires Valid(run) && Valid(run + later)
    requires Stream(After(run), c) <= Stream(After(run + later), c)
  {
    Announces(Since(run, later, c), u)
  }

  /** A live client can tell from its stream which of the vertices it was told of still live. */
  lemma {:induction false} DeathIsAnnounced(run: Run, later: Run, c: Conn, u: U64)
    requires Valid(run) && Valid(run + later)
    requires Live(After(run), c) && Hangup(c) !in later && u in After(run).nodes.shape
    ensures Live(After(run + later), c) && Stream(After(run), c) <= Stream(After(run + later), c)
    ensures u in After(run + later).nodes.shape <==> !AnnouncedSince(run, later, c, u)
    decreases |later|
  {
    hide Step, Invariant, Admissible, Live, Stream, Deleted;
    Extends(run, later, c);
    if later == [] {
      assert run + later == run;
    } else {
      var front, e := later[..|later| - 1], later[|later| - 1];
      LastStep(run, later, c);
      assert e in later;
      DeathIsAnnounced(run, front, c, u);
      LiveChanges(After(run + front), e, c);
      StepAnnounces(After(run + front), e, c, u);
      SplitAnnounced(run, later, c, u);
      Reborn(run, front, u);
      NoRebirth(After(run + front), e, u);
    }
  }

  /** What one step announces as deleted to a live client is what it removes. */
  ghost predicate StepDeletes(s: Server, e: Event, c: Conn, u: U64)
    requires WellFormed(s.nodes.shape) && Stream(s, c) <= Stream(Step(s, e), c)
  {
    Announces(Stream(Step(s, e), c)[|Stream(s, c)|..], u)
  }

  lemma StepAnnounces(s: Server, e: Event, c: Conn, u: U64)
    requires Invariant(s) && Admissible(s, e) && Live(s, c)
    ensures WellFormed(s.nodes.shape) && Stream(s, c) <= Stream(Step(s, e), c)
    ensures StepDeletes(s, e, c, u) <==> Deletes(s, e) && e.message.uuid == u
    ensures StepDeletes(s, e, c, u) ==> u in s.nodes.shape && u !in Step(s, e).nodes.shape
    ensures !StepDeletes(s, e, c, u) && u in s.nodes.shape ==> u in Step(s, e).nodes.shape
  {
    hide Step, WellFormed, TableInvariant, LinksInvariant, Live, Repeat;
    StreamsGrow(s, e, c);
    LiveInOutbox(s, c);
    NodesStep(s, e);
    ShapeKeys(s, e);
    var n := |Stream(s, c)|;
    if Deletes(s, e) {
      DeleteEmits(s, e, c);
      LiveHasCopies(s, c);
      RepeatHas(DeleteNotice(e.message.uuid), Copies(s, c));
      var i := n + |OneIf(c == e.conn, Packet(e.trId, DeleteResponse(OK), Some(e.message)))|;
      assert Stream(Step(s, e), c)[n..][i - n] == DeleteNotice(e.message.uuid);
      forall j | n <= j < |Stream(Step(s, e), c)|
        ensures forall v | v in Deleted(Stream(Step(s, e), c)[j]) :: v == e.message.uuid
      {
        DeleteTailOnly(s, e, c, j);
      }
    } else {
      forall j | n <= j < |Stream(Step(s, e), c)| ensures Deleted(Stream(Step(s, e), c)[j]) == [] {
        OthersAnnounceNone(s, e, c, j);
      }
    }
  }

  lemma DeleteTailOnly(s: Server, e: Event, c: Conn, j: nat)
    requires Invariant(s) && Admissible(s, e) && Deletes(s, e) && c in s.outbox
    requires |Stream(s, c)| <= j < |Stream(Step(s, e), c)|
    ensures forall v | v in Deleted(Stream(Step(s, e), c)[j]) :: v == e.message.uuid
  {
    hide Step, WellFormed, TableInvariant, LinksInvariant;
    DeleteEmits(s, e, c);
  }

  lemma OthersAnnounceNone(s: Server, e: Event, c: Conn, j: nat)
    requires Invariant(s) && Admissible(s, e) && !Deletes(s, e) && c in s.outbox
    requires |Stream(s, c)| <= j < |Stream(Step(s, e), c)|
    ensures Deleted(Stream(Step(s, e), c)[j]) == []
  {
    hide Step, WellFormed, TableInvariant, LinksInvariant;
    if Creates(s, e) { CreateEmits(s, e, c); }
    else if SignsIn(e, c) { SigninEmits(s, e, c); }
    else { QuietStep(s, e, c); }
  }

  lemma SplitAnnounced(run: Run, later: Run, c: Conn, u: U64)
    requires Valid(run) && Valid(run + later) && later != []
    ensures var front, e := later[..|later| - 1], later[|later| - 1];
            && Valid(run + front)
            && Stream(After(run), c) <= Stream(After(run + front), c)
            && Stream(After(run), c) <= Stream(After(run + later), c)
            && WellFormed(After(run + front).nodes.shape)
            && Stream(After(run + front), c) <= Stream(Step(After(run + front), e), c)
            && (AnnouncedSince(run, later, c, u) <==>
                  AnnouncedSince(run, front, c, u) || StepDeletes(After(run + front), e, c, u))
  {
    hide Step, Admissible, Stream, Announces;
    LastStep(run, later, c);
    var front, e := later[..|later| - 1], later[|later| - 1];
    var s := After(run + front);
    AnnouncesAppend(Since(run, front, c), Stream(Step(s, e), c)[|Stream(s, c)|..], u);
  }

  /** Uuids are not used again. */
  lemma NoRebirth(s: Server, e: Event, u: U64)
    requires Invariant(s) && Admissible(s, e) && u < s.nodes.uuidCtr as U64
    ensures u !in s.nodes.shape ==> u !in Step(s, e).nodes.shape
  {
    hide Step;
    ShapeKeys(s, e);
  }

  lemma Reborn(run: Run, front: Run, u: U64)
    requires Valid(run) && Valid(run + front) && u in After(run).nodes.shape
    ensures u < After(run + front).nodes.uuidCtr as U64
  {
    hide Step, Admissible;
    assert (run + front)[..|run|] == run;
    AllocatedUuid(After(run), u);
    Lifetime(run + front, |run|, u);
  }

  // ----- a snapshot applied late

  /** An edge stays true until the death of its vertex is announced. */
  lemma StillEdge(run: Run, later: Run, c: Conn, e: NamedNode)
    requires Valid(run) && Valid(run + later) && Live(After(run), c) && Hangup(c) !in later
    requires IsEdge(After(run).nodes.shape, e)
    ensures Stream(After(run), c) <= Stream(After(run + later), c)
    ensures IsEdge(After(run + later).nodes.shape, e) <==> !AnnouncedSince(run, later, c, e.uuid)
    ensures e.uuid != e.parentUuid
  {
    hide Step, Admissible, Live, Stream, AnnouncedSince;
    assert (run + later)[..|run|] == run;
    assert ParentLinked(After(run).nodes.shape, e.uuid);
    Lifetime(run + later, |run|, e.uuid);
    DeathIsAnnounced(run, later, c, e.uuid);
  }

  /** A snapshot sent after `run` and applied only after the messages of `later`: the replica
      stays faithful exactly when none of the listed vertices has been announced as deleted to
      this client in between. */
  lemma LateSnapshotHarmlessIff(run: Run, later: Run, c: Conn, parent: U64, name: Name, recursive: bool, r: Shape)
    requires Valid(run) && Valid(run + later) && Live(After(run), c) && Hangup(c) !in later
    requires WellFormed(After(run).nodes.shape) && Query(After(run).nodes.shape, parent, name, recursive).Some?
    requires Faithful(r, After(run + later).nodes.shape)
    ensures var list := Query(After(run).nodes.shape, parent, name, recursive).value;
            && Stream(After(run), c) <= Stream(After(run + later), c)
            && (Faithful(AddNodes(r, list), After(run + later).nodes.shape) <==>
                  forall e | e in list :: !AnnouncedSince(run, later, c, e.uuid))
  {
    hide Step, Admissible, Live, Stream, Faithful, Query, AnnouncedSince, AddNodes;
    var t, t' := After(run).nodes.shape, After(run + later).nodes.shape;
    var list := Query(t, parent, name, recursive).value;
    Extends(run, later, c);
    QueryEdges(t, parent, name, recursive);
    QueryListing(t, parent, name, recursive);
    assert (run + later)[..|run|] == run;
    forall e | e in list ensures e.uuid != e.parentUuid && (IsEdge(t', e) <==> !AnnouncedSince(run, later, c, e.uuid)) {
      StillEdge(run, later, c, e);
    }
    LateSnapshot(r, t', list);
  }

  /** A create answered after `run` (the vertex lives then) whose answer is applied only after
      the messages of `later`, which include the announcement: the replica stays faithful
      exactly when the deletion of the vertex has not been announced to this client since. */
  lemma LateCreateHarmlessIff(run: Run, later: Run, c: Conn, e: NamedNode, r: Shape)
    requires Valid(run) && Valid(run + later) && Live(After(run), c) && Hangup(c) !in later
    requires e.uuid in After(run).nodes.shape
    requires Faithful(r, After(run + later).nodes.shape)
    requires e.uuid in After(run + later).nodes.shape ==> e.uuid in r
    ensures Stream(After(run), c) <= Stream(After(run + later), c)
    ensures Faithful(AcceptCreate(r, e.name, e.parentUuid, e.uuid), After(run + later).nodes.shape)
       <==> !AnnouncedSince(run, later, c, e.uuid)
  {
    hide Step, Admissible, Live, Stream, Faithful, AnnouncedSince, AcceptCreate;
    DeathIsAnnounced(run, later, c, e.uuid);
    LateCreateAccept(r, After(run + later).nodes.shape, e);
  }

  // ----- the root entered late

  /** The constructor's `mTree.emplace(0, ...)`: an entry that is there already is kept. */
  function SeatRoot(r: Shape): Shape {
    if ROOT in r then r else r[ROOT := ROOT_VERTEX]
  }

  lemma SeatStep(r: Shape, e: NamedNode)
    requires ROOT !in r && ROOT != e.uuid && ROOT != e.parentUuid
    ensures ROOT !in AddNode(r, e)
    ensures SeatRoot(AddNode(r, e)) == AddNode(SeatRoot(r), e)
  {
    var a, b := SeatRoot(AddNode(r, e)), AddNode(SeatRoot(r), e);
    assert a.Keys == b.Keys;
    forall u | u in a ensures a[u] == b[u] { }
  }

  /** While the root is missing, entries elsewhere do not notice. */
  lemma {:induction false} SeatCommutes(r: Shape, list: seq<NamedNode>)
    requires ROOT !in r && ROOT !in Uuids(list) && ROOT !in Parents(list)
    ensures ROOT !in AddNodes(r, list)
    ensures SeatRoot(AddNodes(r, list)) == AddNodes(SeatRoot(r), list)
    decreases |list|
  {
    hide SeatRoot, AddNode;
    if list != [] {
      UuidsCons(list);
      SeatStep(r, list[0]);
      SeatCommutes(AddNode(r, list[0]), list[1..]);
    }
  }

  /** A root that was invented as a ghost keeps its name. */
  lemma {:induction false} GhostRootStays(r: Shape, list: seq<NamedNode>)
    requires ROOT !in Uuids(list)
    requires if ROOT in r then r[ROOT].name == "ghost" else ROOT in Parents(list)
    ensures ROOT in AddNodes(r, list) && AddNodes(r, list)[ROOT].name == "ghost"
    decreases |list|
  {
    if list != [] {
      UuidsCons(list);
      GhostRootStays(AddNode(r, list[0]), list[1..]);
    }
  }

  /** If the reader handles announcements between the sign-in and the moment the constructor
      enters the root, no harm is done exactly when none of them names the root as a parent;
      otherwise the root is called "ghost" from then on. */
  lemma LateRootHarmlessIff(t: Shape, list: seq<NamedNode>)
    requires Linked(t) && forall e | e in list :: IsEdge(t, e)
    ensures Faithful(SeatRoot(AddNodes(map[], list)), t) <==> ROOT !in Parents(list)
    ensures ROOT !in Parents(list) ==> SeatRoot(AddNodes(map[], list)) == AddNodes(INITIAL.shape, list)
    ensures ROOT in Parents(list) ==> SeatRoot(AddNodes(map[], list))[ROOT].name == "ghost"
  {
    forall e | e in list ensures e.uuid != ROOT { assert IsEdge(t, e); }
    assert ROOT !in Uuids(list);
    if ROOT in Parents(list) {
      GhostRootStays(map[], list);
      assert !Projects(SeatRoot(AddNodes(map[], list)), t, ROOT);
    } else {
      SeatCommutes(map[], list);
      assert SeatRoot(map[]) == INITIAL.shape;
      InitialFaithful(t);
      AddNodesFaithful(INITIAL.shape, t, list);
    }
  }

  lemma InitialFaithful(t: Shape)
    requires Linked(t)
    ensures Faithful(INITIAL.shape, t)
  {
    forall u ensures Projects(INITIAL.shape, t, u) { assert Hangs(t, u); }
  }
}
