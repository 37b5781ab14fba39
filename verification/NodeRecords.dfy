/** Server nodes as objects, and snapshots of their fields: how the abstract node tables
    change when single fields of single nodes do. */
module NodeRecords {
  import opened Protocol
  import opened TreeShape
  import Spec = ServerSpec

  class Node {
    var name: Name
    var sessionId: U32
    var parent: Node?
    const uuid: U64
    var data: Bytes
    var children: map<Name, Node>
    var listener: map<U32, Conn>

    constructor (name: Name, sessionId: U32, parent: Node?, uuid: U64)
      ensures this.name == name && this.sessionId == sessionId && this.parent == parent && this.uuid == uuid
      ensures data == [] && children == map[] && listener == map[]
    {
      this.name := name;
      this.sessionId := sessionId;
      this.parent := parent;
      this.uuid := uuid;
      data, children, listener := [], map[], map[];
    }
  }

  /** A snapshot of a node's fields. */
  datatype Record = Record(
    name: Name, sessionId: U32, parent: Node?, data: Bytes, children: map<Name, Node>, listener: map<U32, Conn>)

  ghost function RecordOf(v: Node): Record
    reads v
  {
    Record(v.name, v.sessionId, v.parent, v.data, v.children, v.listener)
  }

  ghost predicate Indexed(index: map<U64, Node>, v: Node) {
    v.uuid in index && index[v.uuid] == v
  }

  /** The references of the recorded node lead to indexed nodes. */
  ghost predicate RecordWithin(index: map<U64, Node>, r: Record) {
    && (r.parent != null ==> Indexed(index, r.parent))
    && forall n {:trigger r.children[n]} | n in r.children :: Indexed(index, r.children[n])
  }

  /** All references of the recorded nodes lead to indexed nodes. */
  ghost predicate AllWithin(index: map<U64, Node>, records: map<U64, Record>) {
    forall u {:trigger records[u]} | u in records :: RecordWithin(index, records[u])
  }

  /** The fields of every indexed node. */
  ghost function RecordsOf(index: map<U64, Node>): map<U64, Record>
    reads index.Values
  {
    map u | u in index :: RecordOf(index[u])
  }

  /** Nodes are indexed under their uuid and refer to indexed nodes only. */
  ghost predicate ClosedIndex(index: map<U64, Node>)
    reads index.Values
  {
    && (forall u | u in index :: index[u].uuid == u)
    && AllWithin(index, RecordsOf(index))
  }

  lemma WithinInserted(index: map<U64, Node>, records: map<U64, Record>, parent: Node, v: Node, r: Record)
    requires AllWithin(index, records) && Indexed(index, parent) && v.uuid !in index
    requires parent.uuid in records && r.parent == parent && r.children == map[]
    ensures AllWithin(index[v.uuid := v], Inserted(records, parent.uuid, v, r))
  {
  }

  /** The vertex a record describes, by uuid instead of by reference. */
  ghost function VertexOf(r: Record): Vertex {
    Vertex(r.name, if r.parent == null then None else Some(r.parent.uuid),
           map n | n in r.children :: r.children[n].uuid)
  }

  ghost function ShapeOf(records: map<U64, Record>): Shape {
    map u | u in records :: VertexOf(records[u])
  }

  ghost function DataOf(records: map<U64, Record>): map<U64, Bytes> {
    map u | u in records :: records[u].data
  }

  ghost function CreatorsOf(records: map<U64, Record>): map<U64, U32> {
    map u | u in records :: records[u].sessionId
  }

  ghost function ListenersOf(records: map<U64, Record>): map<U64, map<U32, Conn>> {
    map u | u in records :: records[u].listener
  }

  ghost function NodesOf(records: map<U64, Record>, uuidCtr: U32): Spec.Nodes {
    Spec.Nodes(ShapeOf(records), DataOf(records), CreatorsOf(records), ListenersOf(records), uuidCtr)
  }

  lemma ShapeWith(records: map<U64, Record>, u: U64, r: Record)
    ensures ShapeOf(records[u := r]) == ShapeOf(records)[u := VertexOf(r)]
  {
  }

  lemma ValuesWith(records: map<U64, Record>, u: U64, r: Record)
    ensures DataOf(records[u := r]) == DataOf(records)[u := r.data]
    ensures CreatorsOf(records[u := r]) == CreatorsOf(records)[u := r.sessionId]
  {
  }

  lemma ListenersWith(records: map<U64, Record>, u: U64, r: Record)
    ensures ListenersOf(records[u := r]) == ListenersOf(records)[u := r.listener]
  {
  }

  lemma ShapeWithout(records: map<U64, Record>, u: U64)
    ensures ShapeOf(records - {u}) == ShapeOf(records) - {u}
    ensures DataOf(records - {u}) == DataOf(records) - {u}
    ensures CreatorsOf(records - {u}) == CreatorsOf(records) - {u}
    ensures ListenersOf(records - {u}) == ListenersOf(records) - {u}
  {
  }

  lemma ChildrenWith(r: Record, n: Name, v: Node)
    ensures VertexOf(r.(children := r.children[n := v]))
         == VertexOf(r).(children := VertexOf(r).children[n := v.uuid])
  {
    assert VertexOf(r.(children := r.children[n := v])).children == VertexOf(r).children[n := v.uuid];
  }

  /** The records after linking a new node under the one at `p`. */
  ghost function Inserted(records: map<U64, Record>, p: U64, v: Node, r: Record): map<U64, Record>
    requires p in records
  {
    records[v.uuid := r][p := records[p].(children := records[p].children[r.name := v])]
  }

  lemma ViewInserted(records: map<U64, Record>, ctr: U32, p: U64, v: Node, r: Record)
    requires p in records && v.uuid !in records && v.uuid == ctr as U64
    requires r.children == map[] && r.parent != null && r.parent.uuid == p && r.data == [] && r.listener == map[]
    ensures NodesOf(Inserted(records, p, v, r), Spec.Increment(ctr))
         == Spec.InsertNode(NodesOf(records, ctr), r.name, p, r.sessionId)
  {
    hide ShapeOf, DataOf, CreatorsOf, ListenersOf, VertexOf;
    var rp := records[p].(children := records[p].children[r.name := v]);
    ShapeAt(records, p);
    VertexOfNew(r);
    ShapeWith(records, v.uuid, r);
    ShapeWith(records[v.uuid := r], p, rp);
    ValuesWith(records, v.uuid, r);
    ValuesWith(records[v.uuid := r], p, rp);
    ListenersWith(records, v.uuid, r);
    ListenersWith(records[v.uuid := r], p, rp);
    assert DataOf(Inserted(records, p, v, r)) == DataOf(records)[v.uuid := []];
    assert CreatorsOf(Inserted(records, p, v, r)) == CreatorsOf(records)[v.uuid := r.sessionId];
    assert ListenersOf(Inserted(records, p, v, r)) == ListenersOf(records)[v.uuid := map[]];
    ChildrenWith(records[p], r.name, v);
  }

  lemma VertexOfNew(r: Record)
    requires r.children == map[] && r.parent != null
    ensures VertexOf(r) == Vertex(r.name, Some(r.parent.uuid), map[])
  {
    assert VertexOf(r).children == map[];
  }

  lemma ShapeAt(records: map<U64, Record>, u: U64)
    requires u in records
    ensures u in ShapeOf(records) && ShapeOf(records)[u] == VertexOf(records[u])
    ensures u in DataOf(records) && DataOf(records)[u] == records[u].data
    ensures u in CreatorsOf(records) && CreatorsOf(records)[u] == records[u].sessionId
    ensures u in ListenersOf(records) && ListenersOf(records)[u] == records[u].listener
  {
  }

  lemma StartView(records: map<U64, Record>)
    requires records == map[ROOT := Record("", Spec.NO_SESSION, null, [], map[], map[])]
    ensures ShapeOf(records) == Spec.START.nodes.shape && DataOf(records) == Spec.START.nodes.data
    ensures CreatorsOf(records) == Spec.START.nodes.creator && ListenersOf(records) == Spec.START.nodes.listeners
  {
    assert VertexOf(records[ROOT]).children == map[];
  }

  lemma ChildrenWithout(r: Record, n: Name)
    ensures VertexOf(r.(children := r.children - {n})) == VertexOf(r).(children := VertexOf(r).children - {n})
  {
    assert VertexOf(r.(children := r.children - {n})).children == VertexOf(r).children - {n};
  }

  // ----- unlinking a node

  /** The records after removing the node at `u` from the index and from its parent. */
  ghost function Removed(records: map<U64, Record>, p: U64, u: U64): map<U64, Record>
    requires p in records && u in records
  {
    records[p := records[p].(children := records[p].children - {records[u].name})] - {u}
  }

  lemma ViewRemoved(records: map<U64, Record>, ctr: U32, u: U64)
    requires u in records && records[u].parent != null && records[u].parent.uuid in records
    ensures NodesOf(Removed(records, records[u].parent.uuid, u), ctr) == Spec.RemoveNode(NodesOf(records, ctr), u)
  {
    hide ShapeOf, DataOf, CreatorsOf, ListenersOf, VertexOf;
    var p := records[u].parent.uuid;
    var rp := records[p].(children := records[p].children - {records[u].name});
    ShapeAt(records, p);
    ShapeAt(records, u);
    VertexFields(records[u]);
    ShapeWith(records, p, rp);
    ValuesWith(records, p, rp);
    ListenersWith(records, p, rp);
    ShapeWithout(records[p := rp], u);
    ChildrenWithout(records[p], records[u].name);
    assert DataOf(Removed(records, p, u)) == DataOf(records) - {u};
    assert CreatorsOf(Removed(records, p, u)) == CreatorsOf(records) - {u};
    assert ListenersOf(Removed(records, p, u)) == ListenersOf(records) - {u};
  }

  lemma VertexFields(r: Record)
    ensures VertexOf(r).name == r.name
    ensures VertexOf(r).parent == if r.parent == null then None else Some(r.parent.uuid)
    ensures VertexOf(r).children.Keys == r.children.Keys
    ensures forall n | n in r.children :: VertexOf(r).children[n] == r.children[n].uuid
  {
  }

  /** A node other than the root has an indexed parent, and it is not its own. */
  lemma ParentIndexed(index: map<U64, Node>, records: map<U64, Record>, u: U64)
    requires AllWithin(index, records) && index.Keys == records.Keys
    requires WellFormed(ShapeOf(records)) && u in records && u != ROOT
    ensures records[u].parent != null && Indexed(index, records[u].parent) && records[u].parent.uuid < u
  {
    assert RecordWithin(index, records[u]);
    assert ParentLinked(ShapeOf(records), u);
  }

  /** Nothing else referred to a childless node. */
  lemma WithinRemoved(index: map<U64, Node>, records: map<U64, Record>, u: U64)
    requires AllWithin(index, records) && index.Keys == records.Keys
    requires forall v | v in index :: index[v].uuid == v
    requires WellFormed(ShapeOf(records)) && u in records && u != ROOT && records[u].children == map[]
    requires records[u].parent != null && records[u].parent.uuid in records
    ensures AllWithin(index - {u}, Removed(records, records[u].parent.uuid, u))
  {
    var t := ShapeOf(records);
    var p := records[u].parent.uuid;
    var records' := Removed(records, p, u);
    assert VertexOf(records[u]).children == map[];
    forall v | v in records' ensures RecordWithin(index - {u}, records'[v]) {
      assert RecordWithin(index, records[v]);
      assert ParentLinked(t, v);
      assert t[u].children == map[];
      forall n | n in records'[v].children ensures Indexed(index - {u}, records'[v].children[n]) {
        assert ChildLinked(t, v, n);
      }
    }
  }

  // ----- single fields

  lemma SameUpdate<K, V>(m: map<K, V>, k: K, v: V)
    requires k in m && m[k] == v
    ensures m[k := v] == m
  {
  }

  lemma SameVertex(r: Record, r': Record)
    requires r.name == r'.name && r.parent == r'.parent && r.children == r'.children
    ensures VertexOf(r) == VertexOf(r')
  {
  }

  lemma DataSet(records: map<U64, Record>, ctr: U32, u: U64, data: Bytes)
    requires u in records
    ensures var n := NodesOf(records, ctr);
            NodesOf(records[u := records[u].(data := data)], ctr) == n.(data := n.data[u := data])
  {
    var r := records[u].(data := data);
    hide ShapeOf, DataOf, CreatorsOf, ListenersOf, VertexOf;
    assert VertexOf(r) == VertexOf(records[u]) by { SameVertex(r, records[u]); }
    ShapeAt(records, u);
    ShapeWith(records, u, r);
    ValuesWith(records, u, r);
    ListenersWith(records, u, r);
    SameUpdate(ShapeOf(records), u, VertexOf(r));
    SameUpdate(CreatorsOf(records), u, r.sessionId);
    SameUpdate(ListenersOf(records), u, r.listener);
  }

  lemma ListenersSet(records: map<U64, Record>, ctr: U32, u: U64, listener: map<U32, Conn>)
    requires u in records
    ensures NodesOf(records[u := records[u].(listener := listener)], ctr)
         == Spec.SetListeners(NodesOf(records, ctr), u, listener)
  {
    var r := records[u].(listener := listener);
    hide ShapeOf, DataOf, CreatorsOf, ListenersOf, VertexOf;
    assert VertexOf(r) == VertexOf(records[u]) by { SameVertex(r, records[u]); }
    ShapeAt(records, u);
    ShapeWith(records, u, r);
    ValuesWith(records, u, r);
    ListenersWith(records, u, r);
    SameUpdate(ShapeOf(records), u, VertexOf(r));
    SameUpdate(CreatorsOf(records), u, r.sessionId);
    SameUpdate(DataOf(records), u, r.data);
  }

  /** The same references, so still within the index. */
  lemma WithinSame(index: map<U64, Node>, records: map<U64, Record>, u: U64, r: Record)
    requires AllWithin(index, records) && u in records
    requires r.parent == records[u].parent && r.children == records[u].children
    ensures AllWithin(index, records[u := r])
  {
    assert RecordWithin(index, records[u]);
  }
}
