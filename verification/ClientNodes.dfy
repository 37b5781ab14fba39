/** Client nodes as objects, and snapshots of their fields. */
module ClientNodes {
  import opened Protocol
  import opened TreeShape
  import opened Replicas

  class Node {
    var name: Name
    var data: Bytes
    var children: map<Name, Node>
    var parent: Node?
    const uuid: U64

    constructor (name: Name, parent: Node?, uuid: U64)
      ensures this.name == name && this.parent == parent && this.uuid == uuid
      ensures data == [] && children == map[]
    {
      this.name := name;
      this.parent := parent;
      this.uuid := uuid;
      data, children := [], map[];
    }
  }

  /** A snapshot of a node's fields. */
  datatype Record = Record(name: Name, parent: Node?, data: Bytes, children: map<Name, Node>)

  type Records = map<U64, Record>

  ghost function RecordOf(v: Node): Record
    reads v
  {
    Record(v.name, v.parent, v.data, v.children)
  }

  ghost function RecordsOf(index: map<U64, Node>): Records
    reads index.Values
  {
    map u | u in index :: RecordOf(index[u])
  }

  ghost predicate Indexed(index: map<U64, Node>, v: Node) {
    v.uuid in index && index[v.uuid] == v
  }

  /** The references of the recorded node lead to indexed nodes. */
  ghost predicate RecordWithin(index: map<U64, Node>, r: Record) {
    && (r.parent != null ==> Indexed(index, r.parent))
    && forall n {:trigger r.children[n]} | n in r.children :: Indexed(index, r.children[n])
  }

  ghost predicate AllWithin(index: map<U64, Node>, records: Records) {
    forall u {:trigger records[u]} | u in records :: RecordWithin(index, records[u])
  }

  ghost predicate ClosedIndex(index: map<U64, Node>)
    reads index.Values
  {
    && (forall u | u in index :: index[u].uuid == u)
    && AllWithin(index, RecordsOf(index))
  }

  ghost function VertexOf(r: Record): Vertex {
    Vertex(r.name, if r.parent == null then None else Some(r.parent.uuid),
           map n | n in r.children :: r.children[n].uuid)
  }

  ghost function ShapeOf(records: Records): Shape {
    map u | u in records :: VertexOf(records[u])
  }

  ghost function DataOf(records: Records): map<U64, Bytes> {
    map u | u in records :: records[u].data
  }

  ghost function ReplicaOf(records: Records): Replica {
    Replica(ShapeOf(records), DataOf(records))
  }

  lemma With(records: Records, u: U64, r: Record)
    ensures ShapeOf(records[u := r]) == ShapeOf(records)[u := VertexOf(r)]
    ensures DataOf(records[u := r]) == DataOf(records)[u := r.data]
  {
  }

  lemma WithoutOne(records: Records, u: U64)
    ensures ShapeOf(records - {u}) == ShapeOf(records) - {u}
    ensures DataOf(records - {u}) == DataOf(records) - {u}
  {
  }

  lemma At(records: Records, u: U64)
    ensures u in records <==> u in ShapeOf(records)
    ensures u in records <==> u in DataOf(records)
    ensures u in records ==> ShapeOf(records)[u] == VertexOf(records[u]) && DataOf(records)[u] == records[u].data
  {
  }

  lemma VertexFields(r: Record)
    ensures VertexOf(r).name == r.name
    ensures VertexOf(r).parent == if r.parent == null then None else Some(r.parent.uuid)
    ensures VertexOf(r).children.Keys == r.children.Keys
    ensures forall n | n in r.children :: VertexOf(r).children[n] == r.children[n].uuid
  {
  }

  lemma ChildrenWith(r: Record, n: Name, v: Node)
    ensures VertexOf(r.(children := r.children[n := v]))
         == VertexOf(r).(children := VertexOf(r).children[n := v.uuid])
  {
    assert VertexOf(r.(children := r.children[n := v])).children == VertexOf(r).children[n := v.uuid];
  }

  lemma ChildrenWithout(r: Record, n: Name)
    ensures VertexOf(r.(children := r.children - {n})) == VertexOf(r).(children := VertexOf(r).children - {n})
  {
    assert VertexOf(r.(children := r.children - {n})).children == VertexOf(r).children - {n};
  }

  lemma Renamed(r: Record, name: Name, p: Node)
    ensures VertexOf(r.(name := name, parent := p)) == VertexOf(r).(name := name, parent := Some(p.uuid))
  {
    assert VertexOf(r.(name := name, parent := p)).children == VertexOf(r).children;
  }

  lemma Fresh(name: Name, p: Node?)
    ensures VertexOf(Record(name, p, [], map[])) == Vertex(name, if p == null then None else Some(p.uuid), map[])
  {
    assert VertexOf(Record(name, p, [], map[])).children == map[];
  }

  // ----- one entry of addNodes

  ghost function Placed(records: Records, e: NamedNode, p: Node): Record {
    if e.uuid in records then records[e.uuid].(name := e.name, parent := p) else Record(e.name, p, [], map[])
  }

  ghost function Adopted(records: Records, e: NamedNode, p: Node, v: Node): Records
    requires p.uuid == e.parentUuid && v.uuid == e.uuid && e.parentUuid in records
  {
    var records' := records[e.uuid := Placed(records, e, p)];
    records'[e.parentUuid := records'[e.parentUuid].(children := records'[e.parentUuid].children[e.name := v])]
  }

  lemma AdoptedShape(records: Records, e: NamedNode, p: Node, v: Node)
    requires p.uuid == e.parentUuid && v.uuid == e.uuid && e.parentUuid in records && e.uuid != e.parentUuid
    ensures ShapeOf(Adopted(records, e, p, v)) == AddNode(ShapeOf(records), e)
    ensures DataOf(Adopted(records, e, p, v))
         == if e.uuid in records then DataOf(records) else DataOf(records)[e.uuid := []]
  {
    hide ShapeOf, DataOf, VertexOf;
    At(records, e.uuid);
    At(records, e.parentUuid);
    var r := if e.uuid in records then records[e.uuid].(name := e.name, parent := p) else Record(e.name, p, [], map[]);
    if e.uuid in records { Renamed(records[e.uuid], e.name, p); } else { Fresh(e.name, p); }
    With(records, e.uuid, r);
    var records' := records[e.uuid := r];
    With(records', e.parentUuid, records'[e.parentUuid].(children := records'[e.parentUuid].children[e.name := v]));
    ChildrenWith(records'[e.parentUuid], e.name, v);
    At(records', e.parentUuid);
    assert DataOf(Adopted(records, e, p, v))
        == if e.uuid in records then DataOf(records) else DataOf(records)[e.uuid := []];
  }

  /** Inventing the parent first does not change the outcome of the entry. */
  lemma GhostFirst(r: Shape, e: NamedNode)
    requires e.parentUuid !in r && e.uuid != e.parentUuid
    ensures AddNode(r[e.parentUuid := GHOST], e) == AddNode(r, e)
  {
  }

  // ----- removal

  ghost function Dropped(records: Records, u: U64): Records
    requires u in records
  {
    var r := records[u];
    if r.parent == null || r.parent.uuid !in records then records - {u}
    else records[r.parent.uuid := records[r.parent.uuid].(children := records[r.parent.uuid].children - {r.name})] - {u}
  }

  lemma DroppedShape(records: Records, u: U64)
    requires u in records
    ensures ShapeOf(Dropped(records, u)) == Remove(ShapeOf(records), u)
    ensures DataOf(Dropped(records, u)) == DataOf(records) - {u}
  {
    hide ShapeOf, DataOf, VertexOf;
    var r := records[u];
    At(records, u);
    VertexFields(r);
    WithoutOne(records, u);
    if r.parent != null {
      var p := r.parent.uuid;
      At(records, p);
      if p in records {
        var rp := records[p].(children := records[p].children - {r.name});
        With(records, p, rp);
        ChildrenWithout(records[p], r.name);
        WithoutOne(records[p := rp], u);
        assert DataOf(Dropped(records, u)) == DataOf(records) - {u};
      }
    }
  }

  lemma DroppedWithin(index: map<U64, Node>, records: Records, u: U64)
    requires AllWithin(index, records) && index.Keys == records.Keys && u in records
    requires forall v | v in index :: index[v].uuid == v
    requires Detachable(ShapeOf(records), u)
    ensures AllWithin(index - {u}, Dropped(records, u))
  {
    var t := ShapeOf(records);
    VertexFields(records[u]);
    forall v | v in Dropped(records, u) ensures RecordWithin(index - {u}, Dropped(records, u)[v]) {
      assert RecordWithin(index, records[v]) && RecordWithin(index, records[u]);
      VertexFields(records[v]);
      assert t[v] == VertexOf(records[v]) && t[u] == VertexOf(records[u]);
      forall n | n in Dropped(records, u)[v].children
        ensures Indexed(index - {u}, Dropped(records, u)[v].children[n])
      {
        assert n in records[v].children && t[v].children[n] == records[v].children[n].uuid;
      }
    }
  }

  lemma AdoptedWithin(index: map<U64, Node>, records: Records, e: NamedNode, p: Node, v: Node)
    requires AllWithin(index, records) && index.Keys == records.Keys
    requires Indexed(index, p) && p.uuid == e.parentUuid && v.uuid == e.uuid && e.uuid != e.parentUuid
    requires e.uuid in index ==> v == index[e.uuid]
    ensures AllWithin(index[e.uuid := v], Adopted(records, e, p, v))
  {
    var index' := index[e.uuid := v];
    forall u | u in Adopted(records, e, p, v) ensures RecordWithin(index', Adopted(records, e, p, v)[u]) {
      if u in records { assert RecordWithin(index, records[u]); }
    }
  }

  lemma GhostWithin(index: map<U64, Node>, records: Records, v: Node, r: Record)
    requires AllWithin(index, records) && v.uuid !in index && r.parent == null && r.children == map[]
    ensures AllWithin(index[v.uuid := v], records[v.uuid := r])
  {
    var records' := records[v.uuid := r];
    forall u | u in records' ensures RecordWithin(index[v.uuid := v], records'[u]) {
      if u in records { assert RecordWithin(index, records[u]); }
    }
  }

  // ----- data along with the shape

  /** Data and shape cover the same vertices. */
  ghost predicate Fitted(r: Replica) {
    r.data.Keys == r.shape.Keys
  }

  lemma RecordsFit(records: Records)
    ensures Fitted(ReplicaOf(records))
  {
  }

  lemma {:induction false} ReshapeSame(r: Replica)
    requires Fitted(r)
    ensures Reshape(r, r.shape) == r
  {
    assert Refit(r.data, r.shape) == r.data;
  }

  lemma {:induction false} ReshapeTwice(r: Replica, s1: Shape, s2: Shape)
    requires forall u | u in s2 && u in r.data :: u in s1
    ensures Reshape(Reshape(r, s1), s2) == Reshape(r, s2)
  {
    assert Refit(Refit(r.data, s1), s2) == Refit(r.data, s2);
  }

  lemma {:induction false} ReshapeAdded(r: Replica, e: NamedNode)
    requires Fitted(r) && e.uuid != e.parentUuid && e.parentUuid in r.shape
    ensures Reshape(r, AddNode(r.shape, e)).data == if e.uuid in r.shape then r.data else r.data[e.uuid := []]
  {
    assert AddNode(r.shape, e).Keys == r.shape.Keys + {e.uuid};
    assert Refit(r.data, AddNode(r.shape, e)) == if e.uuid in r.shape then r.data else r.data[e.uuid := []];
  }

  lemma {:induction false} ReshapeGhost(r: Replica, p: U64)
    requires Fitted(r) && p !in r.shape
    ensures Reshape(r, r.shape[p := GHOST]).data == r.data[p := []]
  {
    assert Refit(r.data, r.shape[p := GHOST]) == r.data[p := []];
  }

  lemma {:induction false} ReshapeRemoved(r: Replica, u: U64)
    requires Fitted(r)
    ensures Reshape(r, Remove(r.shape, u)).data == r.data - {u}
  {
    assert Remove(r.shape, u).Keys == r.shape.Keys - {u};
    assert Refit(r.data, Remove(r.shape, u)) == r.data - {u};
  }

  lemma {:induction false} AddNodesSnoc(r: Shape, list: seq<NamedNode>, e: NamedNode)
    ensures Replicas.AddNodes(r, list + [e]) == AddNode(Replicas.AddNodes(r, list), e)
    decreases |list|
  {
    if list == [] {
      assert [] + [e] == [e];
      assert Replicas.AddNodes(r, [e]) == Replicas.AddNodes(AddNode(r, e), []);
    } else {
      assert (list + [e])[1..] == list[1..] + [e];
      AddNodesSnoc(AddNode(r, list[0]), list[1..], e);
    }
  }

  lemma {:induction false} AddNodesKeeps(r: Shape, list: seq<NamedNode>, u: U64)
    requires u in r
    ensures u in Replicas.AddNodes(r, list)
    decreases |list|
  {
    if list != [] { AddNodesKeeps(AddNode(r, list[0]), list[1..], u); }
  }

  lemma {:induction false} RemoveNodesSnoc(r: Shape, uuids: seq<U64>, u: U64)
    ensures Replicas.RemoveNodes(r, uuids + [u]) == Remove(Replicas.RemoveNodes(r, uuids), u)
    decreases |uuids|
  {
    if uuids == [] {
      assert [] + [u] == [u];
      assert Replicas.RemoveNodes(r, [u]) == Replicas.RemoveNodes(Remove(r, u), []);
    } else {
      assert (uuids + [u])[1..] == uuids[1..] + [u];
      RemoveNodesSnoc(Remove(r, uuids[0]), uuids[1..], u);
    }
  }

  lemma {:induction false} RemoveNodesShrinks(r: Shape, uuids: seq<U64>)
    ensures Replicas.RemoveNodes(r, uuids).Keys <= r.Keys
    decreases |uuids|
  {
    if uuids != [] { RemoveNodesShrinks(Remove(r, uuids[0]), uuids[1..]); }
  }

  lemma {:induction false} AdoptedReplica(records: Records, e: NamedNode, p: Node, v: Node)
    requires p.uuid == e.parentUuid && v.uuid == e.uuid && e.parentUuid in records && e.uuid != e.parentUuid
    ensures ReplicaOf(Adopted(records, e, p, v)) == Reshape(ReplicaOf(records), AddNode(ReplicaOf(records).shape, e))
  {
    hide ShapeOf, DataOf, Adopted, AddNode, Refit;
    AdoptedShape(records, e, p, v);
    At(records, e.uuid);
    At(records, e.parentUuid);
    RecordsFit(records);
    ReshapeAdded(ReplicaOf(records), e);
  }

  lemma {:induction false} DroppedReplica(records: Records, u: U64)
    requires u in records
    ensures ReplicaOf(Dropped(records, u)) == Reshape(ReplicaOf(records), Remove(ReplicaOf(records).shape, u))
  {
    hide ShapeOf, DataOf, Dropped, Remove, Refit;
    DroppedShape(records, u);
    RecordsFit(records);
    ReshapeRemoved(ReplicaOf(records), u);
  }

  // ----- an accepted create

  ghost function Accepted(records: Records, name: Name, p: Node, v: Node): Records
    requires p.uuid in records
  {
    var records' := records[v.uuid := Record(name, p, [], map[])];
    if name in records[p.uuid].children then records'
    else records'[p.uuid := records'[p.uuid].(children := records'[p.uuid].children[name := v])]
  }

  lemma {:induction false} AcceptedReplica(records: Records, name: Name, p: Node, v: Node)
    requires p.uuid in records && v.uuid !in records
    ensures ReplicaOf(Accepted(records, name, p, v))
         == Reshape(ReplicaOf(records), AcceptCreate(ReplicaOf(records).shape, name, p.uuid, v.uuid))
  {
    hide ShapeOf, DataOf, VertexOf, Refit;
    var records' := records[v.uuid := Record(name, p, [], map[])];
    var rp := records[p.uuid].(children := records[p.uuid].children[name := v]);
    At(records, p.uuid);
    At(records, v.uuid);
    VertexFields(records[p.uuid]);
    Fresh(name, p);
    With(records, v.uuid, Record(name, p, [], map[]));
    With(records', p.uuid, rp);
    ChildrenWith(records[p.uuid], name, v);
    At(records', p.uuid);
    RecordsFit(records);
    ReshapeAccepted(ReplicaOf(records), name, p.uuid, v.uuid);
    assert DataOf(Accepted(records, name, p, v)) == DataOf(records)[v.uuid := []];
  }

  lemma {:induction false} ReshapeAccepted(r: Replica, name: Name, p: U64, u: U64)
    requires Fitted(r) && u !in r.shape && p in r.shape
    ensures Reshape(r, AcceptCreate(r.shape, name, p, u)).data == r.data[u := []]
  {
    assert AcceptCreate(r.shape, name, p, u).Keys == r.shape.Keys + {u};
    assert Refit(r.data, AcceptCreate(r.shape, name, p, u)) == r.data[u := []];
  }

  lemma AcceptedWithin(index: map<U64, Node>, records: Records, name: Name, p: Node, v: Node)
    requires AllWithin(index, records) && index.Keys == records.Keys && Indexed(index, p) && v.uuid !in index
    ensures AllWithin(index[v.uuid := v], Accepted(records, name, p, v))
  {
    var records' := Accepted(records, name, p, v);
    forall u | u in records' ensures RecordWithin(index[v.uuid := v], records'[u]) {
      if u in records { assert RecordWithin(index, records[u]); }
    }
  }

  // ----- unlinking and data

  ghost function Erased(records: Records, p: U64, n: Name): Records {
    if p in records then records[p := records[p].(children := records[p].children - {n})] else records
  }

  lemma {:induction false} ErasedReplica(records: Records, p: U64, n: Name)
    ensures ReplicaOf(Erased(records, p, n)) == ReplicaOf(records).(shape := EraseChild(ReplicaOf(records).shape, p, n))
  {
    hide ShapeOf, DataOf, VertexOf;
    At(records, p);
    if p in records {
      With(records, p, records[p].(children := records[p].children - {n}));
      ChildrenWithout(records[p], n);
      assert DataOf(records)[p := records[p].data] == DataOf(records);
    }
  }

  lemma ErasedWithin(index: map<U64, Node>, records: Records, p: U64, n: Name)
    requires AllWithin(index, records)
    ensures AllWithin(index, Erased(records, p, n))
  {
    var records' := Erased(records, p, n);
    forall v | v in records' ensures RecordWithin(index, records'[v]) {
      assert RecordWithin(index, records[v]);
    }
  }

  /** The fields of an indexed node are those of its vertex. */
  lemma {:induction false} NodeVertex(records: Records, u: U64)
    requires u in records
    ensures u in ReplicaOf(records).shape
    ensures ReplicaOf(records).shape[u].name == records[u].name
    ensures ReplicaOf(records).shape[u].parent ==
            if records[u].parent == null then None else Some(records[u].parent.uuid)
  {
    At(records, u);
    VertexFields(records[u]);
  }

  lemma {:induction false} StoredReplica(records: Records, u: U64, data: Bytes)
    requires u in records
    ensures ReplicaOf(records[u := records[u].(data := data)])
         == ReplicaOf(records).(data := Store(ReplicaOf(records).data, u, data))
  {
    hide ShapeOf, DataOf, VertexOf;
    var r := records[u].(data := data);
    At(records, u);
    With(records, u, r);
    assert VertexOf(r) == VertexOf(records[u]) by { SameVertex(r, records[u]); }
    assert ShapeOf(records)[u := VertexOf(r)] == ShapeOf(records);
  }

  lemma SameVertex(r: Record, r': Record)
    requires r.name == r'.name && r.parent == r'.parent && r.children == r'.children
    ensures VertexOf(r) == VertexOf(r')
  {
  }

  lemma StoredWithin(index: map<U64, Node>, records: Records, u: U64, data: Bytes)
    requires AllWithin(index, records) && u in records
    ensures AllWithin(index, records[u := records[u].(data := data)])
  {
    assert RecordWithin(index, records[u]);
  }

  // ----- unknown vertices

  lemma NothingRemoved(records: Records, u: U64)
    requires u !in records
    ensures Reshape(ReplicaOf(records), Remove(ReplicaOf(records).shape, u)) == ReplicaOf(records)
  {
    RecordsFit(records);
    ReshapeSame(ReplicaOf(records));
  }

  lemma NothingAccepted(records: Records, name: Name, p: U64, u: U64)
    requires u in records
    ensures Reshape(ReplicaOf(records), AcceptCreate(ReplicaOf(records).shape, name, p, u)) == ReplicaOf(records)
  {
    RecordsFit(records);
    ReshapeSame(ReplicaOf(records));
  }

  lemma NothingStored(records: Records, u: U64, data: Bytes)
    requires u !in records
    ensures ReplicaOf(records).(data := Store(ReplicaOf(records).data, u, data)) == ReplicaOf(records)
  {
  }

  lemma ParentIndexed(index: map<U64, Node>, records: Records, u: U64)
    requires AllWithin(index, records) && u in records
    ensures records[u].parent != null ==> Indexed(index, records[u].parent)
  {
    assert RecordWithin(index, records[u]);
  }

  lemma DroppedIndex(index: map<U64, Node>, records: Records, u: U64)
    requires AllWithin(index, records) && index.Keys == records.Keys && u in records
    requires forall v | v in index :: index[v].uuid == v
    requires Detachable(ReplicaOf(records).shape, u)
    ensures records[u].parent != null ==> Indexed(index, records[u].parent) && records[u].parent.uuid != u
    ensures AllWithin(index - {u}, Dropped(records, u))
  {
    ParentIndexed(index, records, u);
    VertexFields(records[u]);
    assert ShapeOf(records)[u] == VertexOf(records[u]);
    DroppedWithin(index, records, u);
  }
}
