/** The server as it is built: node objects linked by references, tables updated in place,
    loops over sessions and listeners, and the explicit-stack snapshot walk. Every method is
    tied to the handler function of the same name in module ServerSpec. */
module ProtocolHandling {
  import opened Protocol
  import opened Names
  import opened TreeShape
  import opened Snapshot
  import Spec = ServerSpec
  import opened Runs
  import opened Broadcasts
  import opened NodeRecords

  /** A node whose children are being listed, and the position reached among their names. */
  datatype Level = Level(parentNode: Node, names: seq<Name>, current: nat)

  ghost function FrameOf(l: Level): Frame {
    Frame(l.parentNode.uuid, if l.current <= |l.names| then l.names[l.current..] else [])
  }

  ghost function FramesOf(levels: seq<Level>): seq<Frame> {
    seq(|levels|, i requires 0 <= i < |levels| => FrameOf(levels[i]))
  }

  /** What one level lists. */
  ghost function LevelList(t: Shape, f: Frame, recursive: bool): seq<NamedNode>
    requires WellFormed(t) && FrameOk(t, f)
  {
    Walk(t, f.node, f.names, recursive)
  }

  lemma ExhaustedLevel(t: Shape, l: Level, recursive: bool)
    requires WellFormed(t) && FrameOk(t, FrameOf(l)) && l.current == |l.names|
    ensures LevelList(t, FrameOf(l), recursive) == []
  {
  }

  /** Listing the next child of a level, then what is below it, then the rest. */
  lemma LevelStep(t: Shape, l: Level, child: Node, inner: Level, recursive: bool)
    requires WellFormed(t) && FrameOk(t, FrameOf(l)) && l.current < |l.names|
    requires l.names[l.current] in t[l.parentNode.uuid].children
    requires t[l.parentNode.uuid].children[l.names[l.current]] == child.uuid && child.uuid in t
    requires inner == Level(child, SortedNames(t[child.uuid].children.Keys), 0)
    ensures FrameOk(t, FrameOf(l.(current := l.current + 1))) && FrameOk(t, FrameOf(inner))
    ensures LevelList(t, FrameOf(l), recursive)
         == [NamedNode(l.names[l.current], child.uuid, l.parentNode.uuid)]
          + (if recursive && t[child.uuid].children != map[] then LevelList(t, FrameOf(inner), recursive) else [])
          + LevelList(t, FrameOf(l.(current := l.current + 1)), recursive)
  {
    hide WellFormed, Walk;
    FrameStep(t, FrameOf(l), recursive);
    assert FrameOf(l).names[0] == l.names[l.current];
    assert FrameOf(l.(current := l.current + 1)) == Frame(FrameOf(l).node, FrameOf(l).names[1..]);
    assert FrameOf(inner) == Frame(child.uuid, SortedNames(t[child.uuid].children.Keys));
  }

  /** A level belongs to an indexed node and goes through its children by name. */
  ghost predicate LevelOk(index: map<U64, Node>, t: Shape, l: Level) {
    && Indexed(index, l.parentNode) && l.current <= |l.names|
    && l.parentNode.uuid in t && l.names == SortedNames(t[l.parentNode.uuid].children.Keys)
  }

  /** `rest` is what the stack still has to list. */
  ghost predicate Lists(index: map<U64, Node>, t: Shape, levels: seq<Level>, recursive: bool, rest: seq<NamedNode>)
    requires WellFormed(t)
  {
    && (forall i | 0 <= i < |levels| :: LevelOk(index, t, levels[i]))
    && FramesOk(t, FramesOf(levels)) && Pending(t, FramesOf(levels), recursive) == rest
  }

  /** What a single level lists. */
  ghost predicate ListsBelow(index: map<U64, Node>, t: Shape, l: Level, recursive: bool, rest: seq<NamedNode>)
    requires WellFormed(t)
  {
    LevelOk(index, t, l) && FrameOk(t, FrameOf(l)) && LevelList(t, FrameOf(l), recursive) == rest
  }

  lemma LevelBounds(index: map<U64, Node>, t: Shape, l: Level)
    requires LevelOk(index, t, l)
    ensures l.current <= |l.names|
  {
  }

  /** The innermost level comes first. */
  lemma StackTop(index: map<U64, Node>, t: Shape, levels: seq<Level>, recursive: bool, rest: seq<NamedNode>)
    returns (now: seq<NamedNode>, later: seq<NamedNode>)
    requires WellFormed(t) && Lists(index, t, levels, recursive, rest) && levels != []
    ensures rest == now + later
    ensures ListsBelow(index, t, levels[|levels| - 1], recursive, now)
    ensures Lists(index, t, levels[..|levels| - 1], recursive, later)
    ensures levels[|levels| - 1].current <= |levels[|levels| - 1].names|
    ensures levels[|levels| - 1].current == |levels[|levels| - 1].names| ==> now == []
  {
    hide SortedNames, WellFormed, FrameOk, LevelOk;
    var top := levels[|levels| - 1];
    assert LevelOk(index, t, top);
    LevelBounds(index, t, top);
    PendingPop(t, FramesOf(levels), recursive);
    assert FramesOf(levels)[..|levels| - 1] == FramesOf(levels[..|levels| - 1]);
    now := LevelList(t, FrameOf(top), recursive);
    later := Pending(t, FramesOf(levels[..|levels| - 1]), recursive);
    if top.current == |top.names| {
      ExhaustedLevel(t, top, recursive);
    }
  }

  lemma StackPush(index: map<U64, Node>, t: Shape, levels: seq<Level>, l: Level, recursive: bool,
                  now: seq<NamedNode>, later: seq<NamedNode>)
    requires WellFormed(t) && Lists(index, t, levels, recursive, later) && ListsBelow(index, t, l, recursive, now)
    ensures Lists(index, t, levels + [l], recursive, now + later)
  {
    hide SortedNames, WellFormed, FrameOk, LevelOk, FramesOk, Pending, Walk;
    PendingPush(t, FramesOf(levels), FrameOf(l), recursive);
    assert FramesOf(levels + [l]) == FramesOf(levels) + [FrameOf(l)];
    forall i | 0 <= i < |levels + [l]| ensures LevelOk(index, t, (levels + [l])[i]) {
      if i < |levels| {
        assert LevelOk(index, t, levels[i]);
      }
    }
  }

  lemma StackOfOne(index: map<U64, Node>, t: Shape, l: Level, recursive: bool)
    requires WellFormed(t) && LevelOk(index, t, l) && FrameOk(t, FrameOf(l))
    requires l.current == 0 && l.names == SortedNames(t[l.parentNode.uuid].children.Keys)
    ensures Lists(index, t, [l], recursive, PreOrder(t, l.parentNode.uuid, recursive))
  {
    hide LevelOk;
    StackEmpty(index, t, recursive, []);
    StackPush(index, t, [], l, recursive, LevelList(t, FrameOf(l), recursive), []);
    assert [] + [l] == [l];
  }

  lemma StackEmpty(index: map<U64, Node>, t: Shape, recursive: bool, rest: seq<NamedNode>)
    requires WellFormed(t)
    ensures Lists(index, t, [], recursive, rest) <==> rest == []
  {
  }

  /** Which handler takes which kind. */
  lemma HandledByKind(s: Spec.Server, c: Conn, trId: U16, m: Message)
    requires WellFormed(s.nodes.shape)
    ensures m.SigninRequest? ==> Spec.Handle(s, c, trId, m) == Spec.Signin(s, c, trId, m)
    ensures m.CreateRequest? ==> Spec.Handle(s, c, trId, m) == Spec.Create(s, c, trId, m.name, m.parentUuid)
    ensures m.TreeInfoRequest? ==>
              Spec.Handle(s, c, trId, m) == Spec.TreeInfo(s, c, trId, m.parentUuid, m.name, m.recursive)
    ensures m.SetValueRequest? ==> Spec.Handle(s, c, trId, m) == Spec.SetValue(s, c, trId, m.uuid, m.data)
    ensures m.GetRequest? ==> Spec.Handle(s, c, trId, m) == Spec.Get(s, c, trId, m.uuid)
    ensures m.SubscribeRequest? ==> Spec.Handle(s, c, trId, m) == Spec.Subscribe(s, c, trId, m.uuid)
    ensures m.UnsubscribeRequest? ==> Spec.Handle(s, c, trId, m) == Spec.Unsubscribe(s, c, trId, m.uuid)
    ensures m.DeleteRequest? ==> Spec.Handle(s, c, trId, m) == Spec.Delete(s, c, trId, m.uuid)
    ensures m.RpcRequest? ==> Spec.Handle(s, c, trId, m) == Spec.Call(s, c, trId, m.uuid, m.param)
    ensures m.HearbeatRequest? ==> Spec.Handle(s, c, trId, m) == Spec.Heartbeat(s, c, trId, m.spare)
    ensures m.RpcAccept? || m.RpcReject? ==> Spec.Handle(s, c, trId, m) == Spec.Answer(s, trId, m)
    ensures !Handled(m) ==> Spec.Handle(s, c, trId, m) == s
  {
    hide WellFormed;
  }

  /** The kinds that have a handler. */
  predicate Handled(m: Message) {
    || m.SigninRequest?
    || m.CreateRequest?
    || m.TreeInfoRequest?
    || m.SetValueRequest?
    || m.GetRequest?
    || m.SubscribeRequest?
    || m.UnsubscribeRequest?
    || m.DeleteRequest?
    || m.RpcRequest?
    || m.HearbeatRequest?
    || m.RpcAccept? || m.RpcReject?
  }

  lemma AnswerCases(s: Spec.Server, id: U16, m: Message)
    ensures id !in s.calls.translation ==> Spec.Answer(s, id, m) == s
    ensures id in s.calls.translation ==>
              var session := s.calls.translation[id].0;
              var s1 := s.(calls := Spec.Resolved(s.calls, id));
              && (session !in s.table.sessions ==> Spec.Answer(s, id, m) == s1)
              && (session in s.table.sessions ==>
                    Spec.Answer(s, id, m)
                    == s1.(outbox := Spec.Send(s.outbox, s.table.sessions[session], Spec.Returned(s.calls, id, m))))
  {
  }

  class ProtocolHandler {
    var mSessions: map<U32, Option<Conn>>
    var mConnectionToSessionId: map<Conn, U32>
    var mSessionIdCtr: U32
    var mTrIdCtr: U32
    var mTrIdTranslation: map<U16, (U32, U16)>
    var mTree: map<U64, Node>
    var mUuidCtr: U32

    // the surroundings: held connections, everything sent, and the terminator
    var connected: set<Conn>
    var outbox: Spec.Outbox
    var stopped: bool

    // bookkeeping for the statement of what rpc translation achieves
    var forwards: seq<Spec.Forward>
    var answered: set<nat>

    ghost predicate Closed()
      reads this`mTree, mTree.Values
    {
      ClosedIndex(mTree)
    }

    ghost function NodesView(): Spec.Nodes
      reads this`mTree, this`mUuidCtr, mTree.Values
    {
      NodesOf(RecordsOf(mTree), mUuidCtr)
    }

    ghost function TableView(): Spec.Table
      reads this
    {
      Spec.Table(mSessions, mConnectionToSessionId, mSessionIdCtr, connected)
    }

    ghost function CallsView(): Spec.Calls
      reads this
    {
      Spec.Calls(mTrIdCtr, mTrIdTranslation, forwards, answered)
    }

    /** The abstract server state. */
    ghost function View(): Spec.Server
      reads this, mTree.Values
    {
      Spec.Server(NodesView(), TableView(), CallsView(), outbox, stopped)
    }

    ghost predicate Valid()
      reads this, mTree.Values
    {
      Closed() && Invariant(View())
    }

    constructor ()
      ensures Valid() && View() == Spec.START
    {
      mSessions, mConnectionToSessionId, mSessionIdCtr := map[], map[], 0;
      mTrIdCtr, mTrIdTranslation := 0, map[];
      connected, outbox, stopped := {}, map[], false;
      forwards, answered := [], {};
      var root := new Node("", Spec.NO_SESSION, null, ROOT);
      mUuidCtr := 1;
      mTree := map[ROOT := root];
      new;
      StartView(RecordsOf(mTree));
      StartInvariant();
    }

    // ----- sending

    method Send(to: Option<Conn>, p: Packet)
      modifies this`outbox
      ensures outbox == Spec.Send(old(outbox), to, p)
    {
      match to
      case None =>
      case Some(c) => if c in outbox { outbox := outbox[c := outbox[c] + [p]]; }
    }

    /** The loop over sessions, in no particular order. */
    method SendToAll(targets: map<U32, Option<Conn>>, p: Packet)
      modifies this`outbox
      ensures outbox == Spec.Broadcast(old(outbox), targets, p)
    {
      var todo := targets.Keys;
      BroadcastNone(outbox, Without(targets, todo), p);
      while todo != {}
        invariant todo <= targets.Keys
        invariant outbox == Spec.Broadcast(old(outbox), Without(targets, todo), p)
      {
        var i :| i in todo;
        BroadcastOneMore(old(outbox), targets, todo, i, p);
        Send(targets[i], p);
        todo := todo - {i};
      }
      assert Without(targets, {}) == targets;
    }

    // ----- node edits

    /** `children.emplace` on the parent and `mTree.emplace`, seen as records. */
    method Link(parent: Node, name: Name, session: U32, uuid: U64) returns (inserted: Node)
      requires Closed() && parent.uuid in mTree && mTree[parent.uuid] == parent && uuid !in mTree
      modifies this`mTree, parent`children
      ensures fresh(inserted) && inserted.uuid == uuid && mTree == old(mTree)[uuid := inserted]
      ensures RecordsOf(mTree)
           == Inserted(old(RecordsOf(mTree)), parent.uuid, inserted, Record(name, session, parent, [], map[], map[]))
    {
      hide AllWithin;
      ghost var target := RecordsOf(mTree);
      inserted := new Node(name, session, parent, uuid);
      parent.children := parent.children[name := inserted];
      mTree := mTree[uuid := inserted];
      target := Inserted(target, parent.uuid, inserted, Record(name, session, parent, [], map[], map[]));
      assert RecordsOf(mTree).Keys == target.Keys;
      forall u | u in mTree ensures RecordsOf(mTree)[u] == target[u] { }
    }

    /** Links a new node under `parent` and indexes it. */
    method InsertNode(parent: Node, name: Name, session: U32) returns (inserted: Node)
      requires Closed() && parent.uuid in mTree && mTree[parent.uuid] == parent
      requires mUuidCtr as U64 !in mTree
      modifies this`mTree, this`mUuidCtr, parent`children
      ensures Closed() && inserted.uuid == old(mUuidCtr) as U64
      ensures mTree == old(mTree)[inserted.uuid := inserted]
      ensures NodesView() == Spec.InsertNode(old(NodesView()), name, parent.uuid, session)
    {
      hide ShapeOf, DataOf, CreatorsOf, ListenersOf, NodesOf, Spec.InsertNode, Inserted, AllWithin;
      ghost var before := RecordsOf(mTree);
      var uuid := mUuidCtr as U64;
      mUuidCtr := Spec.Increment(mUuidCtr);
      inserted := Link(parent, name, session, uuid);
      ghost var r := Record(name, session, parent, [], map[], map[]);
      ViewInserted(before, old(mUuidCtr), parent.uuid, inserted, r);
      WithinInserted(old(mTree), before, parent, inserted, r);
    }

    /** `mTree.erase` and `children.erase` on the parent. */
    method RemoveNode(node: Node)
      requires Closed() && WellFormed(NodesView().shape) && Indexed(mTree, node)
      requires node.uuid != ROOT && node.children == map[]
      modifies this`mTree, mTree.Values
      ensures Closed()
      ensures NodesView() == Spec.RemoveNode(old(NodesView()), node.uuid) && mUuidCtr == old(mUuidCtr)
    {
      hide DataOf, CreatorsOf, ListenersOf, Spec.RemoveNode, AllWithin;
      ghost var before := RecordsOf(mTree);
      ParentIndexed(mTree, before, node.uuid);
      hide ShapeOf, WellFormed;
      var parentNode := node.parent;
      Unlink(parentNode, node);
      ViewRemoved(before, mUuidCtr, node.uuid);
      WithinRemoved(old(mTree), before, node.uuid);
    }

    method Unlink(parentNode: Node, node: Node)
      requires Closed() && Indexed(mTree, node) && Indexed(mTree, parentNode) && node != parentNode
      modifies this`mTree, parentNode`children
      ensures mTree == old(mTree) - {node.uuid}
      ensures RecordsOf(mTree) == Removed(old(RecordsOf(mTree)), parentNode.uuid, node.uuid)
    {
      hide AllWithin;
      ghost var target := Removed(RecordsOf(mTree), parentNode.uuid, node.uuid);
      mTree := mTree - {node.uuid};
      parentNode.children := parentNode.children - {node.name};
      assert RecordsOf(mTree).Keys == target.Keys;
      forall u | u in mTree ensures RecordsOf(mTree)[u] == target[u] { }
    }

    method SetData(node: Node, data: Bytes)
      requires Closed() && Indexed(mTree, node)
      modifies node`data
      ensures Closed()
      ensures NodesView() == old(NodesView()).(data := old(NodesView()).data[node.uuid := data])
    {
      hide ShapeOf, DataOf, CreatorsOf, ListenersOf, NodesOf, AllWithin;
      ghost var before := RecordsOf(mTree);
      ghost var r := before[node.uuid].(data := data);
      node.data := data;
      assert RecordsOf(mTree) == before[node.uuid := r];
      DataSet(before, mUuidCtr, node.uuid, data);
      WithinSame(mTree, before, node.uuid, r);
    }

    method SetListeners(node: Node, listener: map<U32, Conn>)
      requires Closed() && Indexed(mTree, node)
      modifies node`listener
      ensures Closed()
      ensures NodesView() == Spec.SetListeners(old(NodesView()), node.uuid, listener)
    {
      hide ShapeOf, DataOf, CreatorsOf, ListenersOf, NodesOf, AllWithin, Spec.SetListeners;
      ghost var before := RecordsOf(mTree);
      ghost var r := before[node.uuid].(listener := listener);
      node.listener := listener;
      assert RecordsOf(mTree) == before[node.uuid := r];
      ListenersSet(before, mUuidCtr, node.uuid, listener);
      WithinSame(mTree, before, node.uuid, r);
    }

    /** The fields of an indexed node, as the abstract tables tell them. */
    lemma Look(u: U64)
      requires Closed()
      ensures u in mTree <==> u in NodesView().shape
      ensures NodesView().uuidCtr == mUuidCtr
      ensures u in mTree ==>
                var n, v := NodesView(), mTree[u];
                && Indexed(mTree, v) && v.uuid == u
                && n.shape[u].name == v.name
                && n.shape[u].children.Keys == v.children.Keys
                && (forall m | m in v.children :: n.shape[u].children[m] == v.children[m].uuid)
                && u in n.data && n.data[u] == v.data
                && u in n.creator && n.creator[u] == v.sessionId
                && u in n.listeners && n.listeners[u] == v.listener
    {
      hide AllWithin;
      assert RecordsOf(mTree).Keys == mTree.Keys;
      if u in mTree {
        assert RecordsOf(mTree)[u] == RecordOf(mTree[u]);
        ShapeAt(RecordsOf(mTree), u);
        VertexFields(RecordsOf(mTree)[u]);
      }
    }

    method Reply(conn: Conn, trId: U16, answer: Message, request: Message)
      modifies this`outbox
      ensures outbox == Spec.Send(old(outbox), Some(conn), Packet(trId, answer, Some(request)))
    {
      Send(Some(conn), Packet(trId, answer, Some(request)));
    }

    // ----- handlers

    method OnConnect(conn: Conn)
      requires Valid() && conn !in outbox
      modifies this`connected, this`outbox
      ensures Valid() && View() == Spec.Accept(old(View()), conn)
    {
      hide NodesOf, ClosedIndex, RecordsOf, NodesInvariant, TableInvariant, LinksInvariant;
      AcceptKeeps(NodesView(), TableView(), outbox.Keys, conn);
      connected := connected + {conn};
      outbox := outbox[conn := []];
      assert outbox.Keys == old(outbox.Keys) + {conn};
    }

    method OnDisconnect(conn: Conn)
      requires Valid()
      modifies this`connected, this`mConnectionToSessionId, this`mSessions
      ensures Valid() && View() == Spec.Disconnect(old(View()), conn)
    {
      hide NodesOf, ClosedIndex, RecordsOf, NodesInvariant, TableInvariant, LinksInvariant;
      HangUpKeeps(NodesView(), TableView(), outbox.Keys, conn);
      connected := connected - {conn};
      if conn in mConnectionToSessionId {
        var sessionId := mConnectionToSessionId[conn];
        mConnectionToSessionId := mConnectionToSessionId - {conn};
        mSessions := mSessions[sessionId := None];
      }
      assert TableView() == Spec.HangUp(old(TableView()), conn);
    }

    /** `mSessions.emplace` and `mConnectionToSessionId.emplace`. */
    method OpenSession(conn: Conn)
      modifies this`mSessionIdCtr, this`mSessions, this`mConnectionToSessionId
      ensures TableView() == Spec.OpenSession(old(TableView()), conn)
    {
      var sessionId := mSessionIdCtr;
      mSessionIdCtr := Spec.Increment(mSessionIdCtr);
      if sessionId !in mSessions {
        mSessions := mSessions[sessionId := Some(conn)];
      }
      if conn !in mConnectionToSessionId {
        mConnectionToSessionId := mConnectionToSessionId[conn := sessionId];
      }
    }

    method HandleSignin(conn: Conn, trId: U16, request: Message)
      requires Closed()
      modifies this`mSessionIdCtr, this`mSessions, this`mConnectionToSessionId, this`outbox
      ensures Closed() && View() == Spec.Signin(old(View()), conn, trId, request)
    {
      hide NodesOf, ClosedIndex, RecordsOf, Spec.Send, Spec.OpenSession;
      OpenSession(conn);
      Reply(conn, trId, SigninAccept(0), request);
    }

    method HandleCreate(conn: Conn, trId: U16, name: Name, parentUuid: U64)
      requires Closed() && mUuidCtr as U64 !in mTree
      modifies this`mTree, this`mUuidCtr, this`outbox, mTree.Values
      ensures Closed() && View() == Spec.Create(old(View()), conn, trId, name, parentUuid)
    {
      hide NodesOf, ClosedIndex, RecordsOf, Spec.InsertNode, Spec.Broadcast, Spec.Send;
      Look(parentUuid);
      var request := CreateRequest(name, parentUuid);
      if parentUuid !in mTree {
        Reply(conn, trId, CreateReject(NOT_FOUND), request);
        return;
      }
      var node := mTree[parentUuid];
      if conn !in mConnectionToSessionId {
        return;
      }
      var sessionId := mConnectionToSessionId[conn];
      if name in node.children {
        Reply(conn, trId, CreateReject(ALREADY_EXIST), request);
        return;
      }
      CreateUnder(node, conn, trId, name, sessionId);
      assert View() == Spec.Create(old(View()), conn, trId, name, parentUuid);
    }

    /** The accepting branch: link the node, answer its sender, announce it to everyone. */
    method CreateUnder(node: Node, conn: Conn, trId: U16, name: Name, sessionId: U32)
      requires Closed() && mUuidCtr as U64 !in mTree && Indexed(mTree, node)
      modifies this`mTree, this`mUuidCtr, this`outbox, node`children
      ensures Closed()
      ensures node.uuid in old(NodesView()).shape
      ensures NodesView() == Spec.InsertNode(old(NodesView()), name, node.uuid, sessionId)
      ensures var u := old(mUuidCtr) as U64;
              var answer := Packet(trId, CreateAccept(u), Some(CreateRequest(name, node.uuid)));
              var notice := TreeUpdateNotification([NamedNode(name, u, node.uuid)], []);
              outbox == Spec.Broadcast(Spec.Send(old(outbox), Some(conn), answer), mSessions,
                                       Packet(NOTIFICATION, notice, None))
    {
      hide NodesOf, ClosedIndex, RecordsOf, Spec.InsertNode, Spec.Broadcast, Spec.Send;
      Look(node.uuid);
      var inserted := InsertNode(node, name, sessionId);
      Reply(conn, trId, CreateAccept(inserted.uuid), CreateRequest(name, node.uuid));
      var notice := TreeUpdateNotification([NamedNode(name, inserted.uuid, node.uuid)], []);
      SendToAll(mSessions, Packet(NOTIFICATION, notice, None));
    }

    method HandleDelete(conn: Conn, trId: U16, uuid: U64)
      requires Closed() && WellFormed(NodesView().shape)
      requires uuid == ROOT ==> NodesView().shape[ROOT].children != map[]
      modifies this`mTree, this`outbox, mTree.Values
      ensures Closed() && View() == Spec.Delete(old(View()), conn, trId, uuid)
    {
      hide NodesOf, ClosedIndex, RecordsOf, Spec.RemoveNode, Spec.Broadcast, Spec.Send;
      Look(uuid);
      var request := DeleteRequest(uuid);
      if uuid !in mTree {
        Reply(conn, trId, DeleteResponse(NOT_FOUND), request);
        return;
      }
      var node := mTree[uuid];
      if node.children.Keys != {} {
        Reply(conn, trId, DeleteResponse(NOT_EMPTY), request);
        return;
      }
      DeleteLeaf(node, conn, trId);
      assert View() == Spec.Delete(old(View()), conn, trId, uuid);
    }

    /** The accepting branch: unlink the node, answer its sender, announce it to everyone. */
    method DeleteLeaf(node: Node, conn: Conn, trId: U16)
      requires Closed() && WellFormed(NodesView().shape) && Indexed(mTree, node)
      requires node.uuid != ROOT && node.children == map[]
      modifies this`mTree, this`outbox, mTree.Values
      ensures Closed() && mUuidCtr == old(mUuidCtr)
      ensures NodesView() == Spec.RemoveNode(old(NodesView()), node.uuid)
      ensures var answer := Packet(trId, DeleteResponse(OK), Some(DeleteRequest(node.uuid)));
              outbox == Spec.Broadcast(Spec.Send(old(outbox), Some(conn), answer), mSessions,
                                       Packet(NOTIFICATION, TreeUpdateNotification([], [node.uuid]), None))
    {
      hide NodesOf, ClosedIndex, RecordsOf, Spec.RemoveNode, Spec.Broadcast, Spec.Send, WellFormed;
      RemoveNode(node);
      Reply(conn, trId, DeleteResponse(OK), DeleteRequest(node.uuid));
      SendToAll(mSessions, Packet(NOTIFICATION, TreeUpdateNotification([], [node.uuid]), None));
    }

    method HandleGet(conn: Conn, trId: U16, uuid: U64)
      requires Closed() && NodesView().data.Keys == NodesView().shape.Keys
      modifies this`outbox
      ensures Closed() && View() == Spec.Get(old(View()), conn, trId, uuid)
    {
      hide NodesOf, ClosedIndex, RecordsOf, Spec.Send;
      Look(uuid);
      if uuid !in mTree {
        Reply(conn, trId, GetReject(NOT_FOUND), GetRequest(uuid));
        return;
      }
      var node := mTree[uuid];
      Reply(conn, trId, GetAccept(node.data), GetRequest(uuid));
    }

    method HandleSubscribe(conn: Conn, trId: U16, uuid: U64)
      requires Closed()
      modifies mTree.Values, this`outbox
      ensures Closed() && View() == Spec.Subscribe(old(View()), conn, trId, uuid)
    {
      hide NodesOf, ClosedIndex, RecordsOf, Spec.SetListeners, Spec.Send;
      Look(uuid);
      var request := SubscribeRequest(uuid);
      if uuid !in mTree {
        Reply(conn, trId, SubscribeResponse(NOT_FOUND), request);
        return;
      }
      var node := mTree[uuid];
      if conn !in mConnectionToSessionId {
        return;
      }
      var sessionId := mConnectionToSessionId[conn];
      SetListeners(node, node.listener[sessionId := conn]);
      Reply(conn, trId, SubscribeResponse(OK), request);
    }

    method HandleUnsubscribe(conn: Conn, trId: U16, uuid: U64)
      requires Closed()
      modifies mTree.Values, this`outbox
      ensures Closed() && View() == Spec.Unsubscribe(old(View()), conn, trId, uuid)
    {
      hide NodesOf, ClosedIndex, RecordsOf, Spec.SetListeners, Spec.Send;
      Look(uuid);
      var request := UnsubscribeRequest(uuid);
      if uuid !in mTree {
        Reply(conn, trId, UnsubscribeResponse(NOT_FOUND), request);
        return;
      }
      var node := mTree[uuid];
      if conn !in mConnectionToSessionId {
        return;
      }
      var sessionId := mConnectionToSessionId[conn];
      if sessionId !in node.listener {
        Reply(conn, trId, UnsubscribeResponse(NOT_FOUND), request);
        return;
      }
      SetListeners(node, node.listener - {sessionId});
      Reply(conn, trId, UnsubscribeResponse(OK), request);
    }

    method HandleRpcRequest(conn: Conn, trId: U16, uuid: U64, param: Bytes)
      requires Closed() && CallTargetKnown(uuid)
      modifies this`mTrIdCtr, this`mTrIdTranslation, this`outbox, this`forwards
      ensures Closed() && View() == Spec.Call(old(View()), conn, trId, uuid, param)
    {
      hide NodesOf, ClosedIndex, RecordsOf, Spec.Send;
      Look(uuid);
      var request := RpcRequest(uuid, param);
      if uuid !in mTree {
        Reply(conn, trId, RpcReject(NOT_FOUND), request);
        return;
      }
      var node := mTree[uuid];
      if conn !in mConnectionToSessionId {
        return;
      }
      var sourceSessionId := mConnectionToSessionId[conn];
      var targetConnection := mSessions[node.sessionId];
      if targetConnection == None {
        return;
      }
      var id := Spec.CallKey(mTrIdCtr);
      mTrIdCtr := Spec.Increment(mTrIdCtr);
      mTrIdTranslation := mTrIdTranslation[id := (sourceSessionId, trId)];
      forwards := forwards + [Spec.Forward(conn, sourceSessionId, trId, request)];
      Send(targetConnection, Packet(id, request, None));
    }

    /** The session lookup of a forwarded call, which the code does not check. */
    ghost predicate CallTargetKnown(uuid: U64)
      reads this, mTree.Values
    {
      uuid in mTree ==> mTree[uuid].sessionId in mSessions
    }

    method HandleRpcAnswer(id: U16, m: Message)
      requires Closed()
      modifies this`mTrIdTranslation, this`outbox, this`answered
      ensures Closed() && View() == Spec.Answer(old(View()), id, m)
    {
      hide NodesOf, ClosedIndex, RecordsOf, Spec.Send, Spec.Resolved, Spec.Returned, Spec.Answer;
      AnswerCases(View(), id, m);
      if id !in mTrIdTranslation {
        return;
      }
      var session := mTrIdTranslation[id].0;
      var p := Restore(id, m);
      Resolve(id);
      if session !in mSessions {
        return;
      }
      Send(mSessions[session], p);
    }

    /** The answer under the caller's own transaction id. */
    method Restore(id: U16, m: Message) returns (p: Packet)
      requires id in mTrIdTranslation
      ensures p == Spec.Returned(CallsView(), id, m)
    {
      var n := Spec.LatestForward(|forwards|, id);
      p := Packet(mTrIdTranslation[id].1, m, if n.Some? then Some(forwards[n.value].request) else None);
    }

    /** Takes the translation entry out. */
    method Resolve(id: U16)
      modifies this`mTrIdTranslation, this`answered
      ensures CallsView() == Spec.Resolved(old(CallsView()), id)
    {
      var n := Spec.LatestForward(|forwards|, id);
      mTrIdTranslation := mTrIdTranslation - {id};
      answered := if n.Some? then answered + {n.value} else answered;
    }

    method HandleHeartbeat(conn: Conn, trId: U16, spare: Byte)
      requires Closed()
      modifies this`outbox
      ensures Closed() && View() == Spec.Heartbeat(old(View()), conn, trId, spare)
    {
      hide NodesOf, ClosedIndex, RecordsOf, Spec.Send;
      Reply(conn, trId, HearbeatResponse(0), HearbeatRequest(spare));
    }

    // ----- the snapshot walk

    /** Lists what is below `node`, keeping the levels on an explicit stack. */
    method FillToAddListFromTree(node: Node, recursive: bool) returns (list: seq<NamedNode>)
      requires Closed() && WellFormed(NodesView().shape) && Indexed(mTree, node)
      ensures node.uuid in NodesView().shape
      ensures list == PreOrder(NodesView().shape, node.uuid, recursive)
    {
      hide NodesOf, ClosedIndex, RecordsOf, WellFormed, PreOrder, FrameOk, Lists, ListsBelow, FrameOf, SortedNames;
      ghost var t := NodesView().shape;
      Look(node.uuid);
      list := [];
      var levels := [Level(node, SortedNames(node.children.Keys), 0)];
      LevelFrame(levels[0], t);
      StackOfOne(mTree, t, levels[0], recursive);
      ghost var all := PreOrder(t, node.uuid, recursive);
      ghost var rest := all;
      while levels != []
        invariant Lists(mTree, t, levels, recursive, rest)
        invariant list + rest == all
        decreases 2 * |rest| + |levels|
      {
        var listed;
        ghost var after;
        listed, levels, after := StackStep(levels, t, recursive, rest);
        assert list + rest == (list + listed) + after;
        list, rest := list + listed, after;
      }
      StackEmpty(mTree, t, recursive, rest);
    }

    /** One round of the walk: an exhausted level is popped, or the next child is listed. */
    method StackStep(levels: seq<Level>, ghost t: Shape, recursive: bool, ghost rest: seq<NamedNode>)
      returns (listed: seq<NamedNode>, levels': seq<Level>, ghost after: seq<NamedNode>)
      requires Closed() && WellFormed(t) && t == NodesView().shape
      requires levels != [] && Lists(mTree, t, levels, recursive, rest)
      ensures Lists(mTree, t, levels', recursive, after)
      ensures rest == listed + after
      ensures 2 * |after| + |levels'| < 2 * |rest| + |levels|
    {
      hide NodesOf, ClosedIndex, RecordsOf, WellFormed, PreOrder, FrameOk, Lists, ListsBelow, FrameOf, SortedNames;
      var top := levels[|levels| - 1];
      ghost var now, later := StackTop(mTree, t, levels, recursive, rest);
      if top.current == |top.names| {
        return [], levels[..|levels| - 1], later;
      }
      var entry;
      entry, levels' := NextOnStack(levels, t, recursive, rest);
      listed, after := [entry], rest[1..];
    }

    /** One child listed: the innermost level advances, and a level for the child may open. */
    method NextOnStack(levels: seq<Level>, ghost t: Shape, recursive: bool, ghost rest: seq<NamedNode>)
      returns (entry: NamedNode, levels': seq<Level>)
      requires Closed() && WellFormed(t) && t == NodesView().shape
      requires Lists(mTree, t, levels, recursive, rest)
      requires levels != [] && levels[|levels| - 1].current < |levels[|levels| - 1].names|
      ensures |levels'| <= |levels| + 1
      ensures rest != [] && rest[0] == entry && Lists(mTree, t, levels', recursive, rest[1..])
    {
      hide NodesOf, ClosedIndex, RecordsOf, WellFormed, Lists, ListsBelow, SortedNames;
      var top, front := levels[|levels| - 1], levels[..|levels| - 1];
      ghost var now, later := StackTop(mTree, t, levels, recursive, rest);
      var advanced, inner;
      ghost var below, after;
      entry, advanced, inner, below, after := ListNext(top, t, recursive, now);
      StackPush(mTree, t, front, advanced, recursive, after, later);
      levels' := front + [advanced];
      if inner.Some? {
        StackPush(mTree, t, levels', inner.value, recursive, below, after + later);
        levels' := levels' + [inner.value];
        assert rest[1..] == below + (after + later);
      } else {
        assert rest[1..] == after + later;
      }
    }

    /** Lists the next child of a level and advances; opens a level for the child if it has
        children and the walk is recursive. */
    method ListNext(top: Level, ghost t: Shape, recursive: bool, ghost now: seq<NamedNode>)
      returns (entry: NamedNode, advanced: Level, inner: Option<Level>,
               ghost below: seq<NamedNode>, ghost after: seq<NamedNode>)
      requires Closed() && WellFormed(t) && t == NodesView().shape && top.current < |top.names|
      requires ListsBelow(mTree, t, top, recursive, now)
      ensures ListsBelow(mTree, t, advanced, recursive, after)
      ensures inner.Some? ==> ListsBelow(mTree, t, inner.value, recursive, below)
      ensures inner.None? ==> below == []
      ensures now == [entry] + below + after
    {
      hide NodesOf, ClosedIndex, RecordsOf, WellFormed, FrameOf, LevelList, SortedNames;
      LevelNames(top, t);
      var name := top.names[top.current];
      var child := top.parentNode.children[name];
      Look(child.uuid);
      entry := NamedNode(name, child.uuid, top.parentNode.uuid);
      advanced := top.(current := top.current + 1);
      var next := Level(child, SortedNames(child.children.Keys), 0);
      LevelStep(t, top, child, next, recursive);
      after := LevelList(t, FrameOf(advanced), recursive);
      if child.children.Keys != {} && recursive {
        inner := Some(next);
        below := LevelList(t, FrameOf(next), recursive);
      } else {
        inner, below := None, [];
      }
    }

    /** The names of a level are names of children, in both views. */
    lemma LevelNames(l: Level, t: Shape)
      requires Closed() && t == NodesView().shape && LevelOk(mTree, t, l) && l.current < |l.names|
      ensures var name := l.names[l.current];
              && l.parentNode.uuid in t && name in l.parentNode.children && name in t[l.parentNode.uuid].children
              && Indexed(mTree, l.parentNode.children[name])
              && t[l.parentNode.uuid].children[name] == l.parentNode.children[name].uuid
    {
      hide NodesOf;
      Look(l.parentNode.uuid);
      assert l.names[l.current] in l.names;
      assert RecordWithin(mTree, RecordsOf(mTree)[l.parentNode.uuid]);
    }

    /** A level of the stack is a frame of the abstract one. */
    lemma LevelFrame(l: Level, t: Shape)
      requires Closed() && t == NodesView().shape && LevelOk(mTree, t, l)
      ensures FrameOk(t, FrameOf(l))
    {
      hide AllWithin, NodesOf;
      Look(l.parentNode.uuid);
    }

    // ----- handlers that walk

    method HandleTreeInfo(conn: Conn, trId: U16, parentUuid: U64, name: Name, recursive: Byte)
      requires Closed() && WellFormed(NodesView().shape)
      modifies this`outbox
      ensures Closed() && View() == Spec.TreeInfo(old(View()), conn, trId, parentUuid, name, recursive)
    {
      hide NodesOf, ClosedIndex, RecordsOf, WellFormed, PreOrder, Spec.Send;
      Look(parentUuid);
      var request := TreeInfoRequest(parentUuid, name, recursive);
      if parentUuid !in mTree {
        Reply(conn, trId, TreeInfoErrorResponse(NOT_FOUND), request);
        return;
      }
      var parentNode := mTree[parentUuid];
      var node := parentNode;
      var first: seq<NamedNode> := [];
      if name != "." {
        if name !in parentNode.children {
          Reply(conn, trId, TreeInfoErrorResponse(NOT_FOUND), request);
          return;
        }
        node := parentNode.children[name];
        first := [NamedNode(name, node.uuid, parentNode.uuid)];
        ChildIndexed(parentNode, name);
      }
      var rest := FillToAddListFromTree(node, recursive != 0);
      assert [] + rest == rest;
      assert Spec.Query(NodesView().shape, parentUuid, name, recursive != 0) == Some(first + rest);
      Reply(conn, trId, TreeInfoResponse(first + rest), request);
    }

    lemma ChildIndexed(v: Node, n: Name)
      requires Closed() && Indexed(mTree, v) && n in v.children
      ensures Indexed(mTree, v.children[n])
    {
      assert RecordWithin(mTree, RecordsOf(mTree)[v.uuid]);
    }

    method HandleSetValue(conn: Conn, trId: U16, uuid: U64, data: Bytes)
      requires Valid()
      modifies this`stopped, this`outbox, mTree.Values
      ensures Closed() && View() == Spec.SetValue(old(View()), conn, trId, uuid, data)
    {
      hide NodesOf, ClosedIndex, RecordsOf, Invariant, Spec.Broadcast, Spec.Send, Spec.ListenerTargets;
      Look(uuid);
      if Spec.IsTerminate(uuid, data) {
        stopped := true;
        return;
      }
      hide Spec.IsTerminate;
      if uuid !in mTree {
        return;
      }
      var node := mTree[uuid];
      ListenersKnown(uuid);
      SetData(node, data);
      Reply(conn, trId, SetValueAccept(0), SetValueRequest(uuid, data));
      SendToListeners(node.listener, Packet(NOTIFICATION, UpdateNotification(uuid, data), None));
    }

    /** A listener's session is known, and its connection is the listener or gone. */
    ghost predicate ListenersSound(listener: map<U32, Conn>)
      reads this`mSessions
    {
      forall i | i in listener ::
        i in mSessions && (mSessions[i] == Some(listener[i]) || mSessions[i] == None)
    }

    lemma ListenersKnown(uuid: U64)
      requires Valid() && uuid in mTree
      ensures ListenersSound(mTree[uuid].listener)
    {
      hide NodesInvariant, TableInvariant, NodesOf, ClosedIndex, RecordsOf;
      Look(uuid);
      var v := View();
      forall i | i in mTree[uuid].listener
        ensures i in mSessions && (mSessions[i] == Some(mTree[uuid].listener[i]) || mSessions[i] == None)
      {
        assert ListenerKeyed(v.nodes, v.table, v.outbox.Keys, uuid, i);
      }
    }

    /** The loop over listeners, in no particular order. A listener whose weak reference no
        longer locks is looked up by session, where its connection is gone too. */
    method SendToListeners(listener: map<U32, Conn>, p: Packet)
      requires ListenersSound(listener)
      modifies this`outbox
      ensures outbox == Spec.Broadcast(old(outbox), Spec.ListenerTargets(listener, TableView()), p)
    {
      ghost var targets := Spec.ListenerTargets(listener, TableView());
      var todo := listener.Keys;
      BroadcastNone(outbox, Without(targets, todo), p);
      while todo != {}
        invariant todo <= listener.Keys
        invariant outbox == Spec.Broadcast(old(outbox), Without(targets, todo), p)
      {
        var i :| i in todo;
        BroadcastOneMore(old(outbox), targets, todo, i, p);
        todo := todo - {i};
        var connection := if Locked(listener[i]) then Some(listener[i]) else None;
        if connection == None {
          if i !in mSessions {
            continue;
          }
          connection := mSessions[i];
          if connection == None {
            continue;
          }
        }
        Send(connection, p);
      }
      assert Without(targets, {}) == targets;
    }

    /** Whether a weak reference to a connection locks. */
    predicate Locked(c: Conn)
      reads this`mSessions, this`connected
      ensures Locked(c) == Spec.Locks(TableView(), c)
    {
      c in connected || exists i :: i in mSessions && mSessions[i] == Some(c)
    }

    // ----- dispatch

    lemma Ready(uuid: U64)
      requires Valid()
      ensures WellFormed(NodesView().shape) && NodesView().data.Keys == NodesView().shape.Keys
      ensures mUuidCtr as U64 !in mTree
      ensures uuid != ROOT ==> CallTargetKnown(uuid)
    {
      hide NodesOf, ClosedIndex, RecordsOf;
      var n := NodesView();
      Look(mUuidCtr as U64);
      Look(uuid);
      assert CreatorKnown(n, TableView(), uuid);
    }

    /** One message of a connection: the transition of the state machine. */
    method OnMsg(conn: Conn, trId: U16, m: Message)
      requires Valid() && Admissible(View(), Receive(conn, trId, m))
      modifies this, mTree.Values
      ensures Valid() && View() == Step(old(View()), Receive(conn, trId, m))
    {
      ghost var before := View();
      StepKeepsInvariant(before, Receive(conn, trId, m));
      Ready(if m.RpcRequest? then m.uuid else ROOT);
      Dispatch(conn, trId, m);
    }

    method Dispatch(conn: Conn, trId: U16, m: Message)
      requires Valid() && WellFormed(NodesView().shape) && NodesView().data.Keys == NodesView().shape.Keys
      requires mUuidCtr as U64 !in mTree
      requires m.DeleteRequest? && m.uuid == ROOT ==> NodesView().shape[ROOT].children != map[]
      requires m.RpcRequest? ==> CallTargetKnown(m.uuid)
      modifies this, mTree.Values
      ensures Closed() && View() == Spec.Handle(old(View()), conn, trId, m)
    {
      hide NodesOf, ClosedIndex, RecordsOf, Invariant, WellFormed, Spec.Handle;
      hide Spec.Create, Spec.Delete, Spec.Call;
      if m.CreateRequest? || m.DeleteRequest? {
        DispatchTree(conn, trId, m);
      } else if m.RpcRequest? {
        HandledByKind(View(), conn, trId, m);
        HandleRpcRequest(conn, trId, m.uuid, m.param);
      } else {
        DispatchPlain(conn, trId, m);
      }
    }

    /** The kinds whose handlers edit the tree. */
    method DispatchTree(conn: Conn, trId: U16, m: Message)
      requires Valid() && WellFormed(NodesView().shape) && NodesView().data.Keys == NodesView().shape.Keys
      requires m.CreateRequest? || m.DeleteRequest?
      requires mUuidCtr as U64 !in mTree
      requires m.DeleteRequest? && m.uuid == ROOT ==> NodesView().shape[ROOT].children != map[]
      modifies this, mTree.Values
      ensures Closed() && View() == Spec.Handle(old(View()), conn, trId, m)
    {
      hide NodesOf, ClosedIndex, RecordsOf, Invariant, WellFormed, Spec.Handle;
      hide Spec.Create, Spec.Delete;
      HandledByKind(View(), conn, trId, m);
      if m.CreateRequest? {
        HandleCreate(conn, trId, m.name, m.parentUuid);
      } else {
        HandleDelete(conn, trId, m.uuid);
      }
    }

    /** The kinds whose handlers take any message. */
    method DispatchPlain(conn: Conn, trId: U16, m: Message)
      requires Valid() && WellFormed(NodesView().shape) && NodesView().data.Keys == NodesView().shape.Keys
      requires !m.CreateRequest? && !m.DeleteRequest? && !m.RpcRequest?
      modifies this, mTree.Values
      ensures Closed() && View() == Spec.Handle(old(View()), conn, trId, m)
    {
      hide NodesOf, ClosedIndex, RecordsOf, Invariant, WellFormed, Spec.Handle;
      hide Spec.Signin, Spec.TreeInfo, Spec.SetValue, Spec.Get, Spec.Subscribe, Spec.Unsubscribe;
      hide Spec.Heartbeat, Spec.Answer;
      HandledByKind(View(), conn, trId, m);
      match m
      case SigninRequest(_) => HandleSignin(conn, trId, m);
      case TreeInfoRequest(parent, name, recursive) => HandleTreeInfo(conn, trId, parent, name, recursive);
      case SetValueRequest(uuid, data) => HandleSetValue(conn, trId, uuid, data);
      case GetRequest(uuid) => HandleGet(conn, trId, uuid);
      case SubscribeRequest(uuid) => HandleSubscribe(conn, trId, uuid);
      case UnsubscribeRequest(uuid) => HandleUnsubscribe(conn, trId, uuid);
      case RpcAccept(_) => HandleRpcAnswer(trId, m);
      case RpcReject(_) => HandleRpcAnswer(trId, m);
      case HearbeatRequest(spare) => HandleHeartbeat(conn, trId, spare);
      case _ =>
    }
  }
}
