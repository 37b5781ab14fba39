/** A client's replica of the tree, as a value: what `addNodes`, `removeNodes`, `create`,
    `destroy` and the data handlers do to it, and when it is a faithful projection of a
    server tree. */
module Replicas {
  import opened Protocol
  import opened TreeShape
  import opened Snapshot

  const GHOST := Vertex("ghost", None, map[])

  datatype Replica = Replica(shape: Shape, data: map<U64, Bytes>)

  /** The replica right after sign-in. */
  const INITIAL := Replica(map[ROOT := ROOT_VERTEX], map[ROOT := []])

  // ----- addNodes

  /** Invents a ghost for an unknown parent. */
  function WithParent(r: Shape, p: U64): Shape {
    if p in r then r else r[p := GHOST]
  }

  /** One round of `addNodes`: an indexed vertex takes the entry's name and parent, an
      unknown one is created, and the parent's `children` entry is overwritten. */
  function AddNode(r: Shape, e: NamedNode): Shape {
    var r1 := WithParent(r, e.parentUuid);
    var r2 := if e.uuid in r
              then r1[e.uuid := r1[e.uuid].(name := e.name, parent := Some(e.parentUuid))]
              else r1[e.uuid := Vertex(e.name, Some(e.parentUuid), map[])];
    r2[e.parentUuid := r2[e.parentUuid].(children := r2[e.parentUuid].children[e.name := e.uuid])]
  }

  function AddNodes(r: Shape, list: seq<NamedNode>): Shape
    decreases |list|
  {
    if list == [] then r else AddNodes(AddNode(r, list[0]), list[1..])
  }

  // ----- removeNodes, create, destroy

  function RemoveNodes(r: Shape, uuids: seq<U64>): Shape
    decreases |uuids|
  {
    if uuids == [] then r else RemoveNodes(Remove(r, uuids[0]), uuids[1..])
  }

  /** The CreateAccept branch of `create`. Nothing happens if the notification came first,
      and `emplace` leaves an existing `children` entry alone. */
  function AcceptCreate(r: Shape, name: Name, parent: U64, uuid: U64): Shape {
    if uuid in r then r
    else
      var r1 := r[uuid := Vertex(name, Some(parent), map[])];
      if parent !in r || name in r[parent].children then r1
      else r1[parent := r1[parent].(children := r1[parent].children[name := uuid])]
  }

  /** `parent->children.erase(name)`, which takes whatever child has that name. */
  function EraseChild(r: Shape, p: U64, n: Name): Shape {
    if p in r then r[p := r[p].(children := r[p].children - {n})] else r
  }

  /** What `destroy` does on an OK response, while the vertex is still indexed: it leaves its
      parent's `children` but stays in the index until the notification arrives. */
  function Unlink(r: Shape, u: U64): Shape {
    if u !in r then r
    else match r[u].parent
      case None => r
      case Some(p) => EraseChild(r, p, r[u].name)
  }

  /** Data of new vertices starts empty; data of removed vertices is dropped. */
  function Refit(data: map<U64, Bytes>, r: Shape): map<U64, Bytes> {
    map u | u in r :: if u in data then data[u] else []
  }

  function Store(data: map<U64, Bytes>, u: U64, value: Bytes): map<U64, Bytes> {
    if u in data then data[u := value] else data
  }

  function Reshape(r: Replica, shape: Shape): Replica {
    Replica(shape, Refit(r.data, shape))
  }

  /** Effect of one message at its position in the stream. */
  function Apply(r: Option<Replica>, p: Packet): Option<Replica> {
    match r
    case None => if p.message.SigninAccept? then Some(INITIAL) else None
    case Some(r) => Some(ApplySignedIn(r, p))
  }

  function ApplySignedIn(r: Replica, p: Packet): Replica {
    match (p.answers, p.message)
    case (Some(CreateRequest(name, parent)), CreateAccept(uuid)) =>
      Reshape(r, AcceptCreate(r.shape, name, parent, uuid))
    case (Some(TreeInfoRequest(_, _, _)), TreeInfoResponse(list)) =>
      Reshape(r, AddNodes(r.shape, list))
    case (Some(DeleteRequest(uuid)), DeleteResponse(OK)) =>
      r.(shape := Unlink(r.shape, uuid))
    case (Some(GetRequest(uuid)), GetAccept(data)) =>
      r.(data := Store(r.data, uuid, data))
    case (None, TreeUpdateNotification(adds, deletes)) =>
      Reshape(r, RemoveNodes(AddNodes(r.shape, adds), deletes))
    case (None, UpdateNotification(uuid, data)) =>
      r.(data := Store(r.data, uuid, data))
    case _ => r
  }

  /** The replica after consuming a stream, starting from `r`. */
  function Replay(r: Option<Replica>, stream: seq<Packet>): Option<Replica>
    decreases |stream|
  {
    if stream == [] then r
    else Apply(Replay(r, stream[..|stream| - 1]), stream[|stream| - 1])
  }

  lemma {:induction false} ApplyFitted(r: Replica, p: Packet)
    requires r.data.Keys == r.shape.Keys
    ensures ApplySignedIn(r, p).data.Keys == ApplySignedIn(r, p).shape.Keys
  {
    hide AddNodes, RemoveNodes, AcceptCreate;
  }

  /** Whatever a client is sent, it keeps data for exactly the vertices it holds: a value for
      any other is lost. */
  lemma {:induction false} ReplayFitted(stream: seq<Packet>)
    ensures Replay(None, stream).Some? ==>
              Replay(None, stream).value.data.Keys == Replay(None, stream).value.shape.Keys
    decreases |stream|
  {
    hide ApplySignedIn;
    if stream != [] {
      var front := stream[..|stream| - 1];
      ReplayFitted(front);
      if Replay(None, front).Some? {
        ApplyFitted(Replay(None, front).value, stream[|stream| - 1]);
      }
    }
  }

  lemma {:induction false} ReplayNothing(r: Replica)
    ensures Replay(Some(r), []) == Some(r)
  {
  }

  lemma {:induction false} ReplayStep(r: Option<Replica>, stream: seq<Packet>, p: Packet)
    ensures Replay(r, stream + [p]) == Apply(Replay(r, stream), p)
  {
    assert (stream + [p])[..|stream + [p]| - 1] == stream;
  }

  lemma {:induction false} ReplayAppend(r: Option<Replica>, a: seq<Packet>, b: seq<Packet>)
    ensures Replay(r, a + b) == Replay(Replay(r, a), b)
    decreases |b|
  {
    if b == [] {
      assert a + b == a;
    } else {
      var front, p := b[..|b| - 1], b[|b| - 1];
      assert a + b == (a + front) + [p];
      ReplayStep(r, a + front, p);
      ReplayAppend(r, a, front);
    }
  }

  // ----- faithful projections

  /** Vertices whose parent is known: all but the root and the ghosts. */
  function Named(r: Shape): set<U64> {
    set u | u in r && r[u].parent.Some?
  }

  /** `u` is the root, a ghost of a live vertex, or a copy of a live vertex linked under
      its parent. */
  ghost predicate Projects(r: Shape, t: Shape, u: U64) {
    u in r ==>
      && u in t
      && match r[u].parent
         case None => r[u].name == if u == ROOT then "" else "ghost"
         case Some(p) =>
           && u != ROOT && t[u].parent == Some(p) && t[u].name == r[u].name
           && p in r && r[u].name in r[p].children && r[p].children[r[u].name] == u
  }

  ghost predicate Faithful(r: Shape, t: Shape) {
    && ROOT in r
    && (forall u {:trigger Projects(r, t, u)} :: Projects(r, t, u))
    && ChildrenLinked(r)
  }

  lemma WellFormedIsFaithful(t: Shape)
    requires WellFormed(t)
    ensures Faithful(t, t) && Named(t) == t.Keys - {ROOT}
  {
    forall u ensures Projects(t, t, u) && (u in t && u != ROOT ==> u in Named(t)) {
      assert ParentLinked(t, u);
    }
  }

  /** A faithful replica is determined by which vertices it knows and which of them it can
      name. */
  lemma FaithfulUnique(r1: Shape, r2: Shape, t: Shape)
    requires Faithful(r1, t) && Faithful(r2, t)
    requires r1.Keys == r2.Keys && Named(r1) == Named(r2)
    ensures r1 == r2
  {
    forall u | u in r1 ensures r1[u] == r2[u] {
      assert Projects(r1, t, u) && Projects(r2, t, u);
      assert u in Named(r1) <==> u in Named(r2);
      ChildrenAgree(r1, r2, t, u);
      ChildrenAgree(r2, r1, t, u);
      assert r1[u].children == r2[u].children;
    }
  }

  lemma ChildrenAgree(r1: Shape, r2: Shape, t: Shape, u: U64)
    requires Faithful(r1, t) && Faithful(r2, t)
    requires r1.Keys == r2.Keys && Named(r1) == Named(r2)
    requires u in r1
    ensures forall n | n in r1[u].children :: n in r2[u].children && r2[u].children[n] == r1[u].children[n]
  {
    forall n | n in r1[u].children
      ensures n in r2[u].children && r2[u].children[n] == r1[u].children[n]
    {
      assert ChildLinked(r1, u, n);
      var c := r1[u].children[n];
      assert c in Named(r1) && c in Named(r2);
      assert Projects(r1, t, c) && Projects(r2, t, c);
    }
  }

  /** What a faithful replica knows of the children of `u`: the ones it can name. */
  lemma KnownChildren(r: Shape, t: Shape, u: U64, n: Name)
    requires WellFormed(t) && Faithful(r, t) && u in r && u in t
    ensures n in r[u].children <==> n in t[u].children && t[u].children[n] in Named(r)
    ensures n in r[u].children ==> r[u].children[n] == t[u].children[n]
  {
    assert ChildLinked(r, u, n) && ChildLinked(t, u, n);
    if n in r[u].children {
      var c := r[u].children[n];
      assert Projects(r, t, c) && ParentLinked(t, c);
    }
    if n in t[u].children && t[u].children[n] in Named(r) {
      assert Projects(r, t, t[u].children[n]);
    }
  }

  /** Adding a true edge keeps the projection and extends what is known by the entry's two
      uuids, adopting the vertex if it was a ghost. */
  lemma AddNodeFaithful(r: Shape, t: Shape, e: NamedNode)
    requires Linked(t) && Faithful(r, t) && IsEdge(t, e)
    ensures Faithful(AddNode(r, e), t)
    ensures AddNode(r, e).Keys == r.Keys + {e.uuid, e.parentUuid}
    ensures Named(AddNode(r, e)) == Named(r) + {e.uuid}
  {
    assert Hangs(t, e.uuid);
    forall u ensures Projects(AddNode(r, e), t, u) {
      AddNodeProjects(r, t, e, u);
    }
    forall u, n ensures ChildLinked(AddNode(r, e), u, n) {
      AddNodeLinks(r, t, e, u, n);
    }
  }

  lemma AddNodeProjects(r: Shape, t: Shape, e: NamedNode, u: U64)
    requires Linked(t) && Faithful(r, t) && IsEdge(t, e)
    ensures Projects(AddNode(r, e), t, u)
  {
    assert Projects(r, t, u) && Hangs(t, u) && Hangs(t, e.uuid);
  }

  lemma AddNodeLinks(r: Shape, t: Shape, e: NamedNode, u: U64, n: Name)
    requires Linked(t) && Faithful(r, t) && IsEdge(t, e)
    ensures ChildLinked(AddNode(r, e), u, n)
  {
    assert Hangs(t, e.uuid);
    assert ChildLinked(r, u, n);
    if u in r && n in r[u].children {
      assert Projects(r, t, r[u].children[n]);
    }
  }

  function Parents(list: seq<NamedNode>): set<U64> {
    set e | e in list :: e.parentUuid
  }

  lemma UuidsCons(list: seq<NamedNode>)
    requires list != []
    ensures Uuids(list) == {list[0].uuid} + Uuids(list[1..])
    ensures Parents(list) == {list[0].parentUuid} + Parents(list[1..])
  {
    assert forall e :: e in list <==> e == list[0] || e in list[1..] by {
      assert list == [list[0]] + list[1..];
    }
  }

  lemma {:induction false} AddNodesFaithful(r: Shape, t: Shape, list: seq<NamedNode>)
    requires Linked(t) && Faithful(r, t)
    requires forall e | e in list :: IsEdge(t, e)
    ensures Faithful(AddNodes(r, list), t)
    ensures AddNodes(r, list).Keys == r.Keys + Uuids(list) + Parents(list)
    ensures Named(AddNodes(r, list)) == Named(r) + Uuids(list)
    decreases |list|
  {
    if list != [] {
      UuidsCons(list);
      AddNodeFaithful(r, t, list[0]);
      AddNodesFaithful(AddNode(r, list[0]), t, list[1..]);
    }
  }

  /** Ghost adoption does not depend on the order, nor on repetition: any two lists of true
      edges with the same entries lead a replica to the same state, in which the ghosts are
      the old ones and the unknown parents, less the vertices the list describes. */
  lemma AdoptionOrderIrrelevant(r: Shape, t: Shape, a: seq<NamedNode>, b: seq<NamedNode>)
    requires Linked(t) && Faithful(r, t)
    requires forall e | e in a :: IsEdge(t, e)
    requires forall e :: e in a <==> e in b
    ensures AddNodes(r, a) == AddNodes(r, b)
    ensures AddNodes(r, a).Keys - Named(AddNodes(r, a)) - {ROOT}
         == (r.Keys - Named(r) - {ROOT}) + (Parents(a) - r.Keys) - Uuids(a)
  {
    AddNodesFaithful(r, t, a);
    AddNodesFaithful(r, t, b);
    assert Uuids(a) == Uuids(b) && Parents(a) == Parents(b);
    FaithfulUnique(AddNodes(r, a), AddNodes(r, b), t);
    assert Projects(r, t, ROOT);
    var r' := AddNodes(r, a);
    assert forall u :: u in Named(r) ==> u in r;
    assert ROOT in r;
  }

  /** Removing a childless live vertex: the only name that disappears is its own. */
  lemma RemoveFaithful(r: Shape, t: Shape, u: U64)
    requires WellFormed(t) && Faithful(r, t)
    requires u in t && u != ROOT && t[u].children == map[]
    ensures Faithful(Remove(r, u), Remove(t, u))
    ensures Remove(r, u).Keys == r.Keys - {u}
    ensures Named(Remove(r, u)) == Named(r) - {u}
  {
    assert ParentLinked(t, u) && Projects(r, t, u);
    RemoveKeepsWellFormed(t, u);
    forall v ensures Projects(Remove(r, u), Remove(t, u), v) {
      assert Projects(r, t, v) && ParentLinked(t, v);
    }
    forall v, n ensures ChildLinked(Remove(r, u), v, n) {
      RemoveLinks(r, t, u, v, n);
    }
  }

  lemma RemoveLinks(r: Shape, t: Shape, u: U64, v: U64, n: Name)
    requires WellFormed(t) && Faithful(r, t)
    requires u in t && u != ROOT && t[u].children == map[]
    ensures ChildLinked(Remove(r, u), v, n)
  {
    assert ParentLinked(t, u) && Projects(r, t, u);
    assert ChildLinked(r, v, n) && ChildLinked(t, v, n);
    if v in r && n in r[v].children {
      assert Projects(r, t, r[v].children[n]);
    }
  }

  /** Inserting a vertex on the server leaves old replicas faithful. */
  lemma InsertKeepsFaithful(r: Shape, t: Shape, e: NamedNode)
    requires WellFormed(t) && Faithful(r, t)
    requires e.parentUuid in t && e.uuid !in t
    ensures Faithful(r, Insert(t, e))
  {
    forall u ensures Projects(r, Insert(t, e), u) {
      assert Projects(r, t, u);
    }
  }

  // ----- what a replica can digest

  /** No other vertex refers to `u` except its parent, under its name. */
  ghost predicate Detachable(r: Shape, u: U64) {
    u in r ==> forall v | v in r ::
      && r[v].parent != Some(u)
      && (v != u ==> forall n | n in r[v].children && r[v].children[n] == u :: r[u].parent == Some(v) && r[u].name == n)
  }

  ghost predicate AllDetachable(r: Shape, uuids: seq<U64>)
    decreases |uuids|
  {
    uuids == [] || (Detachable(r, uuids[0]) && AllDetachable(Remove(r, uuids[0]), uuids[1..]))
  }

  /** A vertex that is childless on the server can be detached from a faithful replica. */
  lemma ChildlessDetachable(r: Shape, t: Shape, u: U64)
    requires WellFormed(t) && Faithful(r, t) && u in t && t[u].children == map[]
    ensures Detachable(r, u)
  {
    forall v | u in r && v in r
      ensures r[v].parent != Some(u)
      ensures forall n | n in r[v].children && r[v].children[n] == u :: r[u].parent == Some(v) && r[u].name == n
    {
      assert Projects(r, t, v) && ParentLinked(t, v);
      forall n | n in r[v].children && r[v].children[n] == u ensures r[u].parent == Some(v) && r[u].name == n {
        assert ChildLinked(r, v, n);
      }
    }
  }

  /** What a message needs of the replica it is applied to. Streams deliver nothing else. */
  ghost predicate Consumable(r: Replica, p: Packet) {
    match (p.answers, p.message)
    case (Some(CreateRequest(_, parent)), CreateAccept(uuid)) => parent in r.shape && uuid != parent
    case (Some(TreeInfoRequest(_, _, _)), TreeInfoResponse(list)) => Proper(list)
    case (None, TreeUpdateNotification(adds, deletes)) =>
      Proper(adds) && AllDetachable(AddNodes(r.shape, adds), deletes)
    case _ => true
  }

  /** No entry is its own parent. */
  ghost predicate Proper(list: seq<NamedNode>) {
    forall i | 0 <= i < |list| :: list[i].uuid != list[i].parentUuid
  }
}
