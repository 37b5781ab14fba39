/** Theorems about replicas over whole runs, and about the two ways a response can take
    effect away from its stream position. */
module ReplicaTheorems {
  import opened Protocol
  import opened TreeShape
  import opened Snapshot
  import opened Replicas
  import opened ServerSpec
  import opened Runs
  import opened Emission
  import opened Refinement

  /** The server step that sent the `k`-th message of the stream of `c`. */
  ghost function LogPoint(run: Run, c: Conn, k: nat): (j: nat)
    requires Valid(run) && 0 < k <= |Stream(After(run), c)|
    ensures 0 < j <= |run|
    decreases |run|
  {
    assert run != [];
    var front := run[..|run| - 1];
    if k <= |Stream(After(front), c)| then LogPoint(front, c, k) else |run|
  }

  lemma {:induction false} ValidPrefix(run: Run, j: nat)
    requires Valid(run) && j <= |run|
    ensures Valid(run[..j])
    decreases |run|
  {
    hide Invariant, Admissible, After;
    if j < |run| {
      ValidPrefix(run[..|run| - 1], j);
      assert run[..|run| - 1][..j] == run[..j];
    } else {
      assert run[..j] == run;
    }
  }

  lemma {:induction false} ClientPrefix(run: Run, c: Conn, j: nat)
    requires Valid(run) && ClientRun(run, c) && j <= |run|
    ensures Valid(run[..j]) && ClientRun(run[..j], c)
    decreases |run|
  {
    hide Invariant, Admissible, ClientEvent, After;
    if j < |run| {
      ClientPrefix(run[..|run| - 1], c, j);
      assert run[..|run| - 1][..j] == run[..j];
    } else {
      assert run[..j] == run;
    }
  }

  /** Streams of a prefix of the run are prefixes of the streams. */
  lemma {:induction false} StreamPrefix(run: Run, c: Conn, j: nat)
    requires Valid(run) && j <= |run|
    ensures Valid(run[..j]) && Stream(After(run[..j]), c) <= Stream(After(run), c)
    decreases |run|
  {
    hide Step, Invariant, Admissible;
    ValidPrefix(run, j);
    if j < |run| {
      var front := run[..|run| - 1];
      StreamPrefix(front, c, j);
      assert front[..j] == run[..j];
      StreamsGrow(After(front), run[|run| - 1], c);
    } else {
      assert run[..j] == run;
    }
  }

  /** `LogPoint` is the step that emitted the message: it was not there one step earlier. */
  lemma {:induction false} LogPointEmits(run: Run, c: Conn, k: nat)
    requires Valid(run) && 0 < k <= |Stream(After(run), c)|
    ensures var j := LogPoint(run, c, k);
            && Valid(run[..j]) && Valid(run[..j - 1])
            && |Stream(After(run[..j - 1]), c)| < k <= |Stream(After(run[..j]), c)|
    decreases |run|
  {
    hide Step, Invariant, Admissible;
    var j := LogPoint(run, c, k);
    ValidPrefix(run, j);
    ValidPrefix(run, j - 1);
    var front := run[..|run| - 1];
    if k <= |Stream(After(front), c)| {
      LogPointEmits(front, c, k);
      assert front[..j] == run[..j] && front[..j - 1] == run[..j - 1];
    } else {
      assert run[..j] == run && run[..j - 1] == front;
    }
  }

  lemma StartTracks(c: Conn)
    ensures Tracks(START, c)
  {
  }

  lemma {:induction false} RunTracks(run: Run, c: Conn)
    requires Valid(run) && ClientRun(run, c)
    ensures Tracks(After(run), c)
    decreases |run|
  {
    hide Step, Invariant, Admissible, Tracks, ClientEvent;
    if run == [] {
      StartTracks(c);
    } else {
      RunTracks(run[..|run| - 1], c);
      TracksStep(After(run[..|run| - 1]), run[|run| - 1], c);
    }
  }

  /** The replica of `c` after `k` messages is consistent with the server tree around the
      step that sent the `k`-th one. */
  ghost predicate ConsistentAt(run: Run, c: Conn, k: nat)
    requires Valid(run) && 0 < k <= |Stream(After(run), c)|
  {
    var j := LogPoint(run, c, k);
    && Valid(run[..j]) && Valid(run[..j - 1])
    && var r := Replay(None, Stream(After(run), c)[..k]);
       r.Some? ==> Consistent(r.value.shape, After(run[..j - 1]).nodes.shape, After(run[..j]).nodes.shape)
  }

  /** As `ConsistentAt`, for a replica that holds the whole tree. */
  ghost predicate WholeAt(run: Run, c: Conn, k: nat)
    requires Valid(run) && 0 < k <= |Stream(After(run), c)|
  {
    var j := LogPoint(run, c, k);
    && Valid(run[..j]) && Valid(run[..j - 1])
    && var r := Replay(None, Stream(After(run), c)[..k]);
       r.Some? && ConsistentWhole(r.value.shape, After(run[..j - 1]).nodes.shape, After(run[..j]).nodes.shape)
  }

  /** Positions reached before the last step are not affected by it. */
  lemma EarlierPosition(run: Run, c: Conn, k: nat)
    requires Valid(run) && run != [] && 0 < k <= |Stream(After(run[..|run| - 1]), c)|
    ensures k <= |Stream(After(run), c)|
    ensures Stream(After(run), c)[..k] == Stream(After(run[..|run| - 1]), c)[..k]
    ensures ConsistentAt(run, c, k) <==> ConsistentAt(run[..|run| - 1], c, k)
    ensures WholeAt(run, c, k) <==> WholeAt(run[..|run| - 1], c, k)
  {
    hide Step, Invariant, Admissible, Consistent, ConsistentWhole, Replay, Stream;
    var front := run[..|run| - 1];
    StreamsGrow(After(front), run[|run| - 1], c);
    LogPointEmits(front, c, k);
    var j := LogPoint(run, c, k);
    assert front[..j] == run[..j] && front[..j - 1] == run[..j - 1];
  }

  lemma LastPosition(run: Run, c: Conn, k: nat)
    requires Valid(run) && run != []
    requires |Stream(After(run[..|run| - 1]), c)| < k <= |Stream(After(run), c)|
    ensures var r := Replay(None, Stream(After(run), c)[..k]);
            var before, after := After(run[..|run| - 1]).nodes.shape, After(run).nodes.shape;
            && (ConsistentAt(run, c, k) <==> (r.Some? ==> Consistent(r.value.shape, before, after)))
            && (WholeAt(run, c, k) <==> r.Some? && ConsistentWhole(r.value.shape, before, after))
  {
    hide Step, Invariant, Admissible, Consistent, ConsistentWhole, Replay, Stream;
    assert run[..|run|] == run;
  }

  /** MAIN THEOREM. In every run, for every client that is still signed in and every number
      `k` of messages it has consumed, its replica is consistent with the server tree around
      the step that sent the `k`-th message; with the stream drained it is a faithful
      projection of the current tree. */
  lemma {:induction false} ReplicaRefinesServer(run: Run, c: Conn, k: nat)
    requires Valid(run) && ClientRun(run, c) && Live(After(run), c)
    requires 0 < k <= |Stream(After(run), c)|
    ensures ConsistentAt(run, c, k)
    ensures Replay(None, Stream(After(run), c)).Some?
    ensures Faithful(Replay(None, Stream(After(run), c)).value.shape, After(run).nodes.shape)
    decreases |run|
  {
    hide Step, Invariant, Admissible, ClientEvent, Consistent, Live, SignsIn, Replay, ConsistentAt;
    RunTracks(run, c);
    var front, e := run[..|run| - 1], run[|run| - 1];
    var s := After(front);
    RunTracks(front, c);
    LiveChanges(s, e, c);
    if k <= |Stream(s, c)| {
      EarlierPosition(run, c, k);
      if Live(s, c) {
        ReplicaRefinesServer(front, c, k);
      } else {
        SigninTail(s, e, c);
        LogPointEmits(front, c, k);
        assert ConsistentAt(front, c, k) by { NoReplicaYet(front, c, k); }
      }
    } else {
      LastPosition(run, c, k);
      if Live(s, c) {
        LivePosition(s, e, c, k);
      } else {
        SigninTail(s, e, c);
        assert Stream(After(run), c)[..k] == Stream(After(run), c);
        FaithfulIsConsistent(INITIAL.shape, s.nodes.shape, After(run).nodes.shape);
      }
    }
  }

  lemma {:induction false} NoReplicaYet(run: Run, c: Conn, k: nat)
    requires Valid(run) && 0 < k <= |Stream(After(run), c)|
    requires Replay(None, Stream(After(run), c)[..k]) == None
    ensures ConsistentAt(run, c, k)
  {
    hide Step, Invariant, Admissible, Consistent, Replay, Stream;
    LogPointEmits(run, c, k);
  }

  lemma FaithfulIsConsistent(r: Shape, before: Shape, after: Shape)
    requires Faithful(r, after)
    ensures Consistent(r, before, after)
  {
  }

  /** The replica equals the server tree, with its stream drained. */
  ghost predicate Whole(s: Server, c: Conn) {
    && Replay(None, Stream(s, c)).Some?
    && Replay(None, Stream(s, c)).value.shape == s.nodes.shape
  }

  lemma LivePosition(s: Server, e: Event, c: Conn, k: nat)
    requires Invariant(s) && Admissible(s, e) && ClientEvent(s, e, c)
    requires Tracks(s, c) && Live(s, c)
    requires |Stream(s, c)| < k <= |Stream(Step(s, e), c)|
    ensures Replay(None, Stream(s, c)).Some?
    ensures Replay(None, Stream(Step(s, e), c)[..k]).Some?
    ensures var r := Replay(None, Stream(Step(s, e), c)[..k]).value.shape;
            && Consistent(r, s.nodes.shape, Step(s, e).nodes.shape)
            && (Whole(s, c) ==> ConsistentWhole(r, s.nodes.shape, Step(s, e).nodes.shape))
  {
    hide Step, Consistent, ConsistentWhole;
    var tail := LiveTail(s, e, c);
    var i := k - |Stream(s, c)|;
    assert Stream(Step(s, e), c)[..k] == Stream(s, c) + tail[..i];
    ReplayAppend(None, Stream(s, c), tail[..i]);
  }

  // ----- complete replicas

  /** A recursive snapshot of the root, applied at its stream position, makes the replica
      equal to the server tree. */
  lemma SnapshotCompletes(s: Server, c: Conn, trId: U16, recursive: Byte)
    requires Invariant(s) && Tracks(s, c) && Live(s, c) && recursive != 0
    ensures Whole(Step(s, Receive(c, trId, TreeInfoRequest(ROOT, ".", recursive))), c)
  {
    hide Step, Invariant, Live, WellFormed, Faithful, AddNodes, PreOrder;
    LiveInOutbox(s, c);
    var p := SnapshotSent(s, c, trId, recursive);
    SnapshotApplied(s, c);
    ReplayStep(None, Stream(s, c), p);
  }

  lemma SnapshotSent(s: Server, c: Conn, trId: U16, recursive: Byte) returns (p: Packet)
    requires c in s.outbox && recursive != 0
    requires Invariant(s)
    ensures p.message == TreeInfoResponse(PreOrder(s.nodes.shape, ROOT, true))
    ensures p.answers == Some(TreeInfoRequest(ROOT, ".", recursive))
    ensures var s' := Step(s, Receive(c, trId, TreeInfoRequest(ROOT, ".", recursive)));
            s'.nodes == s.nodes && Stream(s', c) == Stream(s, c) + [p]
  {
    p := Packet(trId, TreeInfoResponse(PreOrder(s.nodes.shape, ROOT, true)),
                Some(TreeInfoRequest(ROOT, ".", recursive)));
  }

  lemma SnapshotApplied(s: Server, c: Conn)
    requires Invariant(s) && Tracks(s, c) && Live(s, c)
    ensures Replay(None, Stream(s, c)).Some?
    ensures var r := Replay(None, Stream(s, c)).value;
            AddNodes(r.shape, PreOrder(s.nodes.shape, ROOT, true)) == s.nodes.shape
  {
    hide AddNodes, PreOrder;
    SnapshotFills(Replay(None, Stream(s, c)).value.shape, s.nodes.shape);
  }

  lemma SnapshotFills(r: Shape, t: Shape)
    requires WellFormed(t) && Faithful(r, t)
    ensures AddNodes(r, PreOrder(t, ROOT, true)) == t
  {
    var list := PreOrder(t, ROOT, true);
    SnapshotExact(t, ROOT, true);
    WellFormedLinked(t);
    AddNodesFaithful(r, t, list);
    WellFormedIsFaithful(t);
    var r' := AddNodes(r, list);
    forall u ensures u in r'.Keys <==> u in t.Keys {
      assert Projects(r', t, u);
      if u in t && u != ROOT {
        EverythingBelowRoot(t, u);
        assert u in Uuids(list);
      }
    }
    forall u ensures u in Named(r') <==> u in Named(t) {
      assert Projects(r', t, u);
      if u in t && u != ROOT {
        EverythingBelowRoot(t, u);
        assert u in Uuids(list);
      }
    }
    FaithfulUnique(r', t, t);
  }

  /** A replica that equalled the server tree once, with its stream drained, equals it again
      after every later message, but for the moment between the answer to its own delete and
      the announcement. */
  lemma {:induction false} WholeStaysWhole(run: Run, later: Run, c: Conn, k: nat)
    requires Valid(run) && Valid(run + later) && ClientRun(run + later, c)
    requires Live(After(run), c) && Whole(After(run), c) && Hangup(c) !in later
    requires |Stream(After(run), c)| < k <= |Stream(After(run + later), c)|
    ensures WholeAt(run + later, c, k)
    ensures Whole(After(run + later), c)
    decreases |later|
  {
    hide Step, Invariant, Admissible, ClientEvent, ConsistentWhole, Live, Tracks, Whole, Replay, WholeAt;
    assert run + [] == run;
    assert later != [];
    var all := run + later;
    var front, e := all[..|all| - 1], all[|all| - 1];
    assert front == run + later[..|later| - 1];
    var s := After(front);
    WholeAndLive(run, later[..|later| - 1], c);
    WholeAndLive(run, later, c);
    RunTracks(front, c);
    if k <= |Stream(s, c)| {
      EarlierPosition(all, c, k);
      WholeStaysWhole(run, later[..|later| - 1], c, k);
    } else {
      LastPosition(all, c, k);
      LivePosition(s, e, c, k);
    }
  }

  lemma {:induction false} WholeAndLive(run: Run, later: Run, c: Conn)
    requires Valid(run) && Valid(run + later) && ClientRun(run + later, c)
    requires Live(After(run), c) && Whole(After(run), c) && Hangup(c) !in later
    ensures Live(After(run + later), c) && Whole(After(run + later), c)
    decreases |later|
  {
    hide Step, Invariant, Admissible, ClientEvent, Live, Tracks;
    var all := run + later;
    if later == [] {
      assert all == run;
    } else {
      var front, e := all[..|all| - 1], all[|all| - 1];
      assert front == run + later[..|later| - 1];
      assert e == later[|later| - 1];
      WholeAndLive(run, later[..|later| - 1], c);
      RunTracks(front, c);
      LiveChanges(After(front), e, c);
      var tail := LiveTail(After(front), e, c);
      ReplayAppend(None, Stream(After(front), c), tail);
    }
  }

  // ----- snapshots never need ghosts

  /** Every entry's parent is known when `addNodes` reaches it, so at no point does the list
      make it invent a ghost: each prefix adds exactly the listed vertices. */
  lemma {:induction false} NoGhostsInvented(r: Shape, t: Shape, v: U64, list: seq<NamedNode>, i: nat)
    requires WellFormed(t) && Faithful(r, t) && v in r && i <= |list|
    requires ParentsFirst(list, v) && forall e | e in list :: IsEdge(t, e)
    ensures AddNodes(r, list[..i]).Keys == r.Keys + Uuids(list[..i])
    ensures Named(AddNodes(r, list[..i])) == Named(r) + Uuids(list[..i])
  {
    var front := list[..i];
    WellFormedLinked(t);
    AddNodesFaithful(r, t, front);
    forall p | p in Parents(front) ensures p in r.Keys + Uuids(front) {
      var e :| e in front && e.parentUuid == p;
      var k :| 0 <= k < |front| && front[k] == e;
      assert ParentEarlier(list, v, k);
      if p != v {
        var j :| 0 <= j < k && list[j].uuid == p;
        assert front[j] in front;
      }
    }
  }

  /** Snapshot round trip for any query on a node the replica knows: it rebuilds the subtree
      without ghosts, and for a named query entry 0 is the requested node. */
  lemma SnapshotRoundTrip(r: Shape, t: Shape, parent: U64, name: Name)
    requires WellFormed(t) && Faithful(r, t) && parent in r
    requires Query(t, parent, name, true).Some?
    ensures var list := Query(t, parent, name, true).value;
            var v := if name == "." then parent else t[parent].children[name];
            var r' := AddNodes(r, list);
            && (name != "." ==> list != [] && list[0] == NamedNode(name, v, parent))
            && (forall i | 0 <= i <= |list| :: AddNodes(r, list[..i]).Keys == r.Keys + Uuids(list[..i]))
            && v in r'
            && (forall u | u in t && (u == v || Below(t, v, u)) :: u in r' && r'[u].children == t[u].children)
            && (forall u | Below(t, v, u) :: r'[u] == t[u])
  {
    var list := Query(t, parent, name, true).value;
    assert Projects(r, t, parent);
    if name != "." { assert ChildLinked(t, parent, name); }
    var v := if name == "." then parent else t[parent].children[name];
    QueryEdges(t, parent, name, true);
    SnapshotExact(t, v, true);
    if name != "." {
      var head := NamedNode(name, v, parent);
      assert head in [head] && v in Uuids([head]);
      ParentsFirstAppend([head], PreOrder(t, v, true), parent, v);
      UuidsAppend([head], PreOrder(t, v, true));
    }
    assert forall u :: Below(t, v, u) ==> u in Uuids(list);
    forall i | 0 <= i <= |list|
      ensures AddNodes(r, list[..i]).Keys == r.Keys + Uuids(list[..i])
    {
      NoGhostsInvented(r, t, parent, list, i);
    }
    WellFormedLinked(t);
    AddNodesFaithful(r, t, list);
    var r' := AddNodes(r, list);
    forall u | u in t && (u == v || Below(t, v, u)) ensures u in r' && r'[u].children == t[u].children {
      SubtreeFilled(r', t, v, u);
    }
    forall u | Below(t, v, u) ensures r'[u] == t[u] {
      assert u in Named(r') && Projects(r', t, u);
    }
  }

  lemma SubtreeFilled(r: Shape, t: Shape, v: U64, u: U64)
    requires WellFormed(t) && Faithful(r, t) && v in r
    requires u in t && (u == v || Below(t, v, u))
    requires forall w | Below(t, v, w) :: w in Named(r)
    ensures u in r && r[u].children == t[u].children
  {
    assert Projects(r, t, v);
    if u != v { BelowIsYounger(t, v, u); }
    forall n ensures n in r[u].children <==> n in t[u].children
             ensures n in r[u].children ==> r[u].children[n] == t[u].children[n]
    {
      KnownChildren(r, t, u, n);
      if n in t[u].children {
        assert ChildLinked(t, u, n);
        assert Below(t, u, t[u].children[n]);
        if u != v { BelowTransitive(t, v, u, t[u].children[n]); }
      }
    }
  }

  /** A child that `create` or `get` finds in the replica is the vertex the server has under
      that name, so answering locally gives what a query would have given. */
  lemma LocalHitIsLive(r: Shape, t: Shape, parent: U64, name: Name, recursive: bool)
    requires WellFormed(t) && Faithful(r, t) && parent in r && name in r[parent].children && name != "."
    ensures parent in t && name in t[parent].children
    ensures Query(t, parent, name, recursive).Some?
    ensures Query(t, parent, name, recursive).value[0] == NamedNode(name, r[parent].children[name], parent)
    ensures r[parent].children[name] in r
  {
    assert Projects(r, t, parent) && ChildLinked(r, parent, name);
    KnownChildren(r, t, parent, name);
  }

  // ----- responses that take effect away from their stream position

  /** The create race: answer first or announcement first, a replica that knows the parent
      ends up the same. */
  lemma CreateRaceCommutes(r: Shape, e: NamedNode)
    requires e.parentUuid in r && e.uuid != e.parentUuid
    ensures AddNode(AcceptCreate(r, e.name, e.parentUuid, e.uuid), e)
         == AcceptCreate(AddNode(r, e), e.name, e.parentUuid, e.uuid)
  {
    var a := AddNode(AcceptCreate(r, e.name, e.parentUuid, e.uuid), e);
    var b := AddNode(r, e);
    if e.uuid !in r {
      assert a[e.parentUuid].children == b[e.parentUuid].children;
      assert a == b;
    }
  }

  /** A create answer applied late, after its announcement has been consumed, leaves a
      faithful replica exactly when the vertex has not been deleted since. It never takes a
      name away from the vertex that has it. */
  lemma LateCreateAccept(r: Shape, t: Shape, e: NamedNode)
    requires WellFormed(t) && Faithful(r, t) && (e.uuid in t ==> e.uuid in r)
    ensures Faithful(AcceptCreate(r, e.name, e.parentUuid, e.uuid), t) <==> e.uuid in t
    ensures var r' := AcceptCreate(r, e.name, e.parentUuid, e.uuid);
            forall v, n | v in r && n in r[v].children ::
              v in r' && n in r'[v].children && r'[v].children[n] == r[v].children[n]
  {
    assert Projects(r, t, e.uuid);
    if e.uuid !in t {
      assert !Projects(AcceptCreate(r, e.name, e.parentUuid, e.uuid), t, e.uuid);
    }
  }

  /** A snapshot applied late leaves a faithful replica exactly when all its entries are
      still true. */
  lemma LateSnapshot(r: Shape, t: Shape, list: seq<NamedNode>)
    requires WellFormed(t) && Faithful(r, t) && DistinctUuids(list)
    requires forall e | e in list :: e.uuid != e.parentUuid
    ensures Faithful(AddNodes(r, list), t) <==> forall e | e in list :: IsEdge(t, e)
  {
    if forall e | e in list :: IsEdge(t, e) {
      WellFormedLinked(t);
      AddNodesFaithful(r, t, list);
    }
    if Faithful(AddNodes(r, list), t) {
      forall e | e in list ensures IsEdge(t, e) {
        LastEntryWins(r, list, e);
        assert Projects(AddNodes(r, list), t, e.uuid);
      }
    }
  }

  /** `destroy` applied late, after the vertex has left the replica: it erases by the name and
      under the parent its node had. That leaves a faithful replica exactly when no child of
      that name has appeared there since. */
  lemma LateErase(r: Shape, t: Shape, p: U64, n: Name)
    requires WellFormed(t) && Faithful(r, t)
    ensures Faithful(EraseChild(r, p, n), t) <==> !(p in r && n in r[p].children)
  {
    if p in r && n in r[p].children {
      var c := r[p].children[n];
      assert ChildLinked(r, p, n) && Projects(r, t, c);
      assert ParentLinked(t, c);
      assert !Projects(EraseChild(r, p, n), t, c);
    } else if p in r {
      assert r[p].children - {n} == r[p].children;
      assert EraseChild(r, p, n) == r;
    }
  }

  lemma {:induction false} LastEntryWins(r: Shape, list: seq<NamedNode>, e: NamedNode)
    requires DistinctUuids(list) && e in list
    requires forall e | e in list :: e.uuid != e.parentUuid
    ensures IsEdge(AddNodes(r, list), e)
    decreases |list|
  {
    assert list == [list[0]] + list[1..];
    if e == list[0] {
      EntryUntouched(AddNode(r, e), list[1..], e);
    } else {
      LastEntryWins(AddNode(r, list[0]), list[1..], e);
    }
  }

  lemma {:induction false} EntryUntouched(r: Shape, list: seq<NamedNode>, e: NamedNode)
    requires IsEdge(r, e) && forall i | 0 <= i < |list| :: list[i].uuid != e.uuid
    ensures IsEdge(AddNodes(r, list), e)
    decreases |list|
  {
    if list != [] {
      EntryUntouched(AddNode(r, list[0]), list[1..], e);
    }
  }

  // ----- a replica can digest its whole stream

  /** In every run, whatever a signed-in client is sent meets what its replica needs: parents
      of accepted creates are known, and only vertices without known children are removed. */
  lemma {:induction false} StreamIsConsumable(run: Run, c: Conn, k: nat)
    requires Valid(run) && ClientRun(run, c) && Live(After(run), c)
    requires k < |Stream(After(run), c)| && Replay(None, Stream(After(run), c)[..k]).Some?
    ensures Consumable(Replay(None, Stream(After(run), c)[..k]).value, Stream(After(run), c)[k])
    decreases |run|
  {
    hide Step, Invariant, Admissible, ClientEvent, Live, SignsIn, Replay, Consumable;
    var front, e := run[..|run| - 1], run[|run| - 1];
    var s := After(front);
    RunTracks(front, c);
    LiveChanges(s, e, c);
    StreamsGrow(s, e, c);
    if Live(s, c) {
      if k < |Stream(s, c)| {
        assert Stream(After(run), c)[..k] == Stream(s, c)[..k];
        StreamIsConsumable(front, c, k);
      } else {
        LiveDigest(s, e, c, k);
      }
    } else {
      SigninTail(s, e, c);
    }
  }

  lemma LiveDigest(s: Server, e: Event, c: Conn, k: nat)
    requires Invariant(s) && Admissible(s, e) && ClientEvent(s, e, c)
    requires Tracks(s, c) && Live(s, c)
    requires |Stream(s, c)| <= k < |Stream(Step(s, e), c)|
    ensures Replay(None, Stream(Step(s, e), c)[..k]).Some?
    ensures Consumable(Replay(None, Stream(Step(s, e), c)[..k]).value, Stream(Step(s, e), c)[k])
  {
    hide Step, Consistent, ConsistentWhole, Consumable, WellFormed, Faithful, Live, Replay, StreamFinal;
    hide TableInvariant, LinksInvariant, Admissible, ClientEvent;
    var tail := LiveTail(s, e, c);
    var i := k - |Stream(s, c)|;
    assert Stream(Step(s, e), c)[..k] == Stream(s, c) + tail[..i];
    ReplayAppend(None, Stream(s, c), tail[..i]);
  }
}
