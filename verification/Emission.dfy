/** What one server step appends to each stream. */
module Emission {
  import opened Protocol
  import opened TreeShape
  import opened Snapshot
  import opened ServerSpec
  import opened Runs

  /** Everything sent to `c` so far. */
  function Stream(s: Server, c: Conn): seq<Packet> {
    if c in s.outbox then s.outbox[c] else []
  }

  /** Some session's connection is `c`, so notifications reach it. */
  ghost predicate Live(s: Server, c: Conn) {
    exists i :: i in s.table.sessions && s.table.sessions[i] == Some(c)
  }

  /** The two kinds of step that change the tree. */
  predicate Creates(s: Server, e: Event) {
    && e.Receive? && e.message.CreateRequest?
    && e.message.parentUuid in s.nodes.shape && e.conn in s.table.sessionOf
    && e.message.name !in s.nodes.shape[e.message.parentUuid].children
  }

  predicate Deletes(s: Server, e: Event) {
    && e.Receive? && e.message.DeleteRequest?
    && e.message.uuid in s.nodes.shape && s.nodes.shape[e.message.uuid].children == map[]
  }

  /** The edge a successful create adds. */
  function Created(s: Server, e: Event): NamedNode
    requires Creates(s, e)
  {
    NamedNode(e.message.name, s.nodes.uuidCtr as U64, e.message.parentUuid)
  }

  function OneIf(b: bool, p: Packet): seq<Packet> {
    if b then [p] else []
  }

  function AddNotice(e: NamedNode): Packet {
    Packet(NOTIFICATION, TreeUpdateNotification([e], []), None)
  }

  function DeleteNotice(u: U64): Packet {
    Packet(NOTIFICATION, TreeUpdateNotification([], [u]), None)
  }

  /** How many sessions a notification to `c` is sent for. */
  function Copies(s: Server, c: Conn): nat {
    |Aimed(s.table.sessions, c)|
  }

  lemma LiveHasCopies(s: Server, c: Conn)
    ensures Live(s, c) <==> Copies(s, c) > 0
  {
    if Live(s, c) {
      var i :| i in s.table.sessions && s.table.sessions[i] == Some(c);
      assert i in Aimed(s.table.sessions, c);
    } else {
      assert Aimed(s.table.sessions, c) == {};
    }
  }

  lemma CreateSends(s: Server, sender: Conn, trId: U16, name: Name, parent: U64, c: Conn)
    requires parent in s.nodes.shape && sender in s.table.sessionOf && name !in s.nodes.shape[parent].children
    requires c in s.outbox
    ensures var e, s' := NamedNode(name, s.nodes.uuidCtr as U64, parent), Create(s, sender, trId, name, parent);
            && s'.nodes == InsertNode(s.nodes, name, parent, s.table.sessionOf[sender])
            && s'.table == s.table && s'.calls == s.calls && s'.outbox.Keys == s.outbox.Keys
            && s'.outbox[c]
            == s.outbox[c]
             + OneIf(c == sender, Packet(trId, CreateAccept(e.uuid), Some(CreateRequest(name, parent))))
             + Repeat(AddNotice(e), Copies(s, c))
  {
  }

  lemma DeleteSends(s: Server, sender: Conn, trId: U16, uuid: U64, c: Conn)
    requires uuid in s.nodes.shape && s.nodes.shape[uuid].children == map[]
    requires c in s.outbox
    ensures var s' := Delete(s, sender, trId, uuid);
            && s'.nodes == RemoveNode(s.nodes, uuid)
            && s'.table == s.table && s'.calls == s.calls && s'.outbox.Keys == s.outbox.Keys
            && s'.outbox[c]
            == s.outbox[c]
             + OneIf(c == sender, Packet(trId, DeleteResponse(OK), Some(DeleteRequest(uuid))))
             + Repeat(DeleteNotice(uuid), Copies(s, c))
  {
  }

  /** A create is answered to its sender, then announced once per live session. */
  lemma CreateEmits(s: Server, e: Event, c: Conn)
    requires WellFormed(s.nodes.shape) && Creates(s, e) && c in s.outbox
    ensures Step(s, e).nodes
         == InsertNode(s.nodes, e.message.name, e.message.parentUuid, s.table.sessionOf[e.conn])
    ensures Step(s, e).table == s.table && Step(s, e).outbox.Keys == s.outbox.Keys
    ensures Step(s, e).outbox[c]
         == s.outbox[c]
          + OneIf(c == e.conn, Packet(e.trId, CreateAccept(Created(s, e).uuid), Some(e.message)))
          + Repeat(AddNotice(Created(s, e)), Copies(s, c))
  {
    hide Create, Copies, Repeat, WellFormed;
    CreateSends(s, e.conn, e.trId, e.message.name, e.message.parentUuid, c);
  }

  /** A delete is answered to its sender, then announced once per live session. */
  lemma DeleteEmits(s: Server, e: Event, c: Conn)
    requires WellFormed(s.nodes.shape) && Deletes(s, e) && c in s.outbox
    ensures Step(s, e).nodes == RemoveNode(s.nodes, e.message.uuid)
    ensures Step(s, e).table == s.table && Step(s, e).outbox.Keys == s.outbox.Keys
    ensures Step(s, e).outbox[c]
         == s.outbox[c]
          + OneIf(c == e.conn, Packet(e.trId, DeleteResponse(OK), Some(e.message)))
          + Repeat(DeleteNotice(e.message.uuid), Copies(s, c))
  {
    hide Delete, Copies, Repeat, WellFormed;
    DeleteSends(s, e.conn, e.trId, e.message.uuid, c);
  }

  predicate SignsIn(e: Event, c: Conn) {
    e.Receive? && e.message.SigninRequest? && e.conn == c
  }

  lemma SigninEmits(s: Server, e: Event, c: Conn)
    requires WellFormed(s.nodes.shape) && SignsIn(e, c) && c in s.outbox
    ensures Step(s, e).nodes == s.nodes && Step(s, e).table == OpenSession(s.table, c)
    ensures Step(s, e).outbox.Keys == s.outbox.Keys
    ensures Step(s, e).outbox[c] == s.outbox[c] + [Packet(e.trId, SigninAccept(0), Some(e.message))]
  {
    hide WellFormed;
  }

  /** A packet that tells a replica of `t` nothing that is not true of `t`. */
  ghost predicate Harmless(t: Shape, p: Packet) {
    match (p.answers, p.message)
    case (Some(CreateRequest(_, _)), CreateAccept(_)) => false
    case (Some(DeleteRequest(_)), DeleteResponse(OK)) => false
    case (_, TreeUpdateNotification(_, _)) => false
    case (_, SigninAccept(_)) => false
    case (Some(TreeInfoRequest(_, _, _)), TreeInfoResponse(list)) => forall e | e in list :: IsEdge(t, e)
    case _ => true
  }

  /** The value a packet gives for the data of `u`, if any. */
  function DataFor(p: Packet, u: U64): Option<Bytes> {
    match (p.answers, p.message)
    case (None, UpdateNotification(uuid, data)) => if uuid == u then Some(data) else None
    case (Some(GetRequest(uuid)), GetAccept(data)) => if uuid == u then Some(data) else None
    case _ => None
  }

  ghost predicate Truthful(data: map<U64, Bytes>, p: Packet) {
    forall u {:trigger DataFor(p, u)} :: DataFor(p, u).Some? ==> u in data && data[u] == DataFor(p, u).value
  }

  /** `after` extends `before` by packets that are true of the tree and the data. */
  ghost predicate QuietTail(before: seq<Packet>, after: seq<Packet>, n: Nodes) {
    before <= after && forall i | |before| <= i < |after| :: Harmless(n.shape, after[i]) && Truthful(n.data, after[i])
  }

  lemma SendQuiet(outbox: Outbox, to: Option<Conn>, p: Packet, n: Nodes, c: Conn)
    requires Harmless(n.shape, p) && Truthful(n.data, p) && c in outbox
    ensures QuietTail(outbox[c], Send(outbox, to, p)[c], n)
  {
  }

  lemma BroadcastQuiet(outbox: Outbox, targets: map<U32, Option<Conn>>, p: Packet, n: Nodes, c: Conn)
    requires Harmless(n.shape, p) && Truthful(n.data, p) && c in outbox
    ensures QuietTail(outbox[c], Broadcast(outbox, targets, p)[c], n)
  {
  }

  /** A snapshot lists only true edges. */
  lemma QueryEdges(t: Shape, parent: U64, name: Name, recursive: bool)
    requires WellFormed(t) && Query(t, parent, name, recursive).Some?
    ensures forall e | e in Query(t, parent, name, recursive).value :: IsEdge(t, e)
  {
    if name == "." {
      SnapshotExact(t, parent, recursive);
    } else {
      assert ChildLinked(t, parent, name);
      SnapshotExact(t, t[parent].children[name], recursive);
    }
  }

  lemma TreeInfoQuiet(s: Server, c: Conn, trId: U16, parent: U64, name: Name, recursive: Byte, d: Conn)
    requires WellFormed(s.nodes.shape) && d in s.outbox
    ensures QuietTail(s.outbox[d], TreeInfo(s, c, trId, parent, name, recursive).outbox[d],
                      TreeInfo(s, c, trId, parent, name, recursive).nodes)
    ensures TreeInfo(s, c, trId, parent, name, recursive).nodes.shape == s.nodes.shape
  {
    hide WellFormed, PreOrder, Query, IsEdge;
    if Query(s.nodes.shape, parent, name, recursive != 0).Some? {
      QueryEdges(s.nodes.shape, parent, name, recursive != 0);
    }
  }

  lemma SetValueQuiet(s: Server, c: Conn, trId: U16, uuid: U64, data: Bytes, d: Conn)
    requires d in s.outbox
    ensures QuietTail(s.outbox[d], SetValue(s, c, trId, uuid, data).outbox[d], SetValue(s, c, trId, uuid, data).nodes)
    ensures SetValue(s, c, trId, uuid, data).nodes.shape == s.nodes.shape
  {
    hide ListenerTargets, ListenersOf, Broadcast, Send, IsTerminate;
    if uuid in s.nodes.shape && !IsTerminate(uuid, data) {
      var p := Packet(trId, SetValueAccept(0), Some(SetValueRequest(uuid, data)));
      var n := SetValue(s, c, trId, uuid, data).nodes;
      SendQuiet(s.outbox, Some(c), p, n, d);
      BroadcastQuiet(Send(s.outbox, Some(c), p), ListenerTargets(ListenersOf(s.nodes, uuid), s.table),
                     Packet(NOTIFICATION, UpdateNotification(uuid, data), None), n, d);
    }
  }

  lemma SubscribeQuiet(s: Server, c: Conn, trId: U16, uuid: U64, d: Conn)
    requires d in s.outbox
    ensures QuietTail(s.outbox[d], Subscribe(s, c, trId, uuid).outbox[d], Subscribe(s, c, trId, uuid).nodes)
    ensures Subscribe(s, c, trId, uuid).nodes.shape == s.nodes.shape
  {
  }

  lemma UnsubscribeQuiet(s: Server, c: Conn, trId: U16, uuid: U64, d: Conn)
    requires d in s.outbox
    ensures QuietTail(s.outbox[d], Unsubscribe(s, c, trId, uuid).outbox[d], Unsubscribe(s, c, trId, uuid).nodes)
    ensures Unsubscribe(s, c, trId, uuid).nodes.shape == s.nodes.shape
  {
  }

  lemma GetQuiet(s: Server, c: Conn, trId: U16, uuid: U64, d: Conn)
    requires d in s.outbox
    ensures QuietTail(s.outbox[d], Get(s, c, trId, uuid).outbox[d], Get(s, c, trId, uuid).nodes)
    ensures Get(s, c, trId, uuid).nodes.shape == s.nodes.shape
  {
  }

  lemma CallQuiet(s: Server, c: Conn, trId: U16, uuid: U64, param: Bytes, d: Conn)
    requires d in s.outbox
    ensures QuietTail(s.outbox[d], Call(s, c, trId, uuid, param).outbox[d], Call(s, c, trId, uuid, param).nodes)
    ensures Call(s, c, trId, uuid, param).nodes.shape == s.nodes.shape
  {
  }

  lemma AnswerQuiet(s: Server, id: U16, m: Message, d: Conn)
    requires d in s.outbox && (m.RpcAccept? || m.RpcReject?)
    ensures QuietTail(s.outbox[d], Answer(s, id, m).outbox[d], Answer(s, id, m).nodes)
    ensures Answer(s, id, m).nodes.shape == s.nodes.shape
  {
  }

  lemma RefusedQuiet(s: Server, e: Event, d: Conn)
    requires WellFormed(s.nodes.shape) && d in s.outbox && !Creates(s, e) && !Deletes(s, e)
    requires e.Receive? && (e.message.CreateRequest? || e.message.DeleteRequest?)
    ensures QuietTail(s.outbox[d], Step(s, e).outbox[d], Step(s, e).nodes)
    ensures Step(s, e).nodes == s.nodes
  {
    hide Broadcast, Insert, Remove, WellFormed;
  }

  lemma GreetingQuiet(s: Server, c: Conn, trId: U16, m: Message, spare: Byte, d: Conn)
    requires d in s.outbox
    ensures d != c ==> QuietTail(s.outbox[d], Signin(s, c, trId, m).outbox[d], Signin(s, c, trId, m).nodes)
    ensures Signin(s, c, trId, m).nodes == s.nodes
    ensures QuietTail(s.outbox[d], Heartbeat(s, c, trId, spare).outbox[d], Heartbeat(s, c, trId, spare).nodes)
    ensures Heartbeat(s, c, trId, spare).nodes == s.nodes
  {
  }

  /** Every other step leaves the tree alone and tells replicas nothing untrue. */
  lemma QuietStep(s: Server, e: Event, c: Conn)
    requires Invariant(s) && Admissible(s, e) && c in s.outbox
    requires !Creates(s, e) && !Deletes(s, e) && !SignsIn(e, c)
    ensures Step(s, e).nodes.shape == s.nodes.shape
    ensures c in Step(s, e).outbox && QuietTail(s.outbox[c], Step(s, e).outbox[c], Step(s, e).nodes)
  {
    hide Create, Delete, TreeInfo, SetValue, Subscribe, Unsubscribe, Get, Call, Answer, Signin, Heartbeat;
    hide WellFormed, TableInvariant, LinksInvariant;
    if e.Receive? {
      ReceiveKeepsConnections(s, e.conn, e.trId, e.message);
      match e.message
      case CreateRequest(_, _) => RefusedQuiet(s, e, c);
      case DeleteRequest(_) => RefusedQuiet(s, e, c);
      case TreeInfoRequest(parent, name, recursive) => TreeInfoQuiet(s, e.conn, e.trId, parent, name, recursive, c);
      case SetValueRequest(uuid, data) => SetValueQuiet(s, e.conn, e.trId, uuid, data, c);
      case SubscribeRequest(uuid) => SubscribeQuiet(s, e.conn, e.trId, uuid, c);
      case UnsubscribeRequest(uuid) => UnsubscribeQuiet(s, e.conn, e.trId, uuid, c);
      case GetRequest(uuid) => GetQuiet(s, e.conn, e.trId, uuid, c);
      case RpcRequest(uuid, param) => CallQuiet(s, e.conn, e.trId, uuid, param, c);
      case RpcAccept(_) => AnswerQuiet(s, e.trId, e.message, c);
      case RpcReject(_) => AnswerQuiet(s, e.trId, e.message, c);
      case SigninRequest(spare) => GreetingQuiet(s, e.conn, e.trId, e.message, spare, c);
      case HearbeatRequest(spare) => GreetingQuiet(s, e.conn, e.trId, e.message, spare, c);
      case _ =>
    }
  }

  /** Streams only grow, and a stream starts when its connection is accepted. */
  lemma StreamsGrow(s: Server, e: Event, c: Conn)
    requires Invariant(s) && Admissible(s, e)
    ensures Stream(s, c) <= Stream(Step(s, e), c)
    ensures c in Step(s, e).outbox <==> c in s.outbox || e == Connect(c)
  {
    if c in s.outbox {
      if Creates(s, e) { CreateEmits(s, e, c); }
      else if Deletes(s, e) { DeleteEmits(s, e, c); }
      else if SignsIn(e, c) { SigninEmits(s, e, c); }
      else { QuietStep(s, e, c); }
    } else if e.Receive? {
      ReceiveKeepsConnections(s, e.conn, e.trId, e.message);
    }
  }
}
